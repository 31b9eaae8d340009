/**
 * The GPIO driver (Drivers/HAL_Driver/Src/stm32f4xx_hal_gpio.c) over one
 * GPIO register block.
 *
 * A port is a `GpioPort` object whose fields are the registers of
 * `GPIO_TypeDef`. `Init` is the driver's per-pin loop, `ReadPin` tests
 * IDR, `WritePin` and `TogglePin` store one word into BSRR. The
 * specification functions below give, for every pin count, the register
 * contents and the sequence of stores that the loop produces; the lemmas
 * in modules GpioInitProofs, GpioPullProofs and GpioInitLaws say what
 * those contents are, register by register, and in what order they are
 * stored.
 *
 * The effect of a BSRR store on ODR is the hardware's, not the driver's:
 * bits 0-15 of the stored word set the matching ODR bits, bits 16-31
 * reset them, zero bits do nothing, and a pin given in both halves ends
 * up set (reference manual RM0090, section 8.4.7). `ApplyBsrr` states
 * this rule; it is an assumption about the device, not code of the
 * driver.
 */
module GpioSpec {
  import opened Bits
  import opened GpioDefs
  import Device

  /** `GPIO_NUMBER`: the loop visits pins 0 .. 15. */
  const GPIO_NUMBER: bv32 := 16

  /** A snapshot of the ten registers of a `GPIO_TypeDef`. */
  datatype Regs = Regs(
    moder: bv32, otyper: bv32, ospeedr: bv32, purdr: bv32, idr: bv32,
    odr: bv32, bsrr: bv32, lckr: bv32, afrl: bv32, afrh: bv32)

  /**
   * One store of the driver: the register written and the value stored.
   * `position` is the loop position whose body made the store. The BSRR
   * stores of WritePin and TogglePin are not made by that loop and carry
   * no pin position: they record 0 there, which names no pin.
   */
  datatype RegWrite = RegWrite(position: bv32, reg: Device.GpioReg, value: bv32)

  // ---------------------------------------------------------------------
  // The read-clear-or-write steps of the configuration loop
  // ---------------------------------------------------------------------

  /** `(Pin & (1 << p)) == (1 << p)`: pin p is among those to configure. */
  predicate Selected(pin: bv32, p: bv32)
    requires p < 16
  {
    pin & ((1 as bv32) << p) == (1 as bv32) << p
  }

  /** A pin is selected exactly when its bit of the mask is set. */
  lemma SelectedIsBit(pin: bv32, p: bv32)
    requires p < 16
    ensures Selected(pin, p) <==> Bit(pin, p) == 1
  {
  }

  /**
   * Replace the two-bit field of pin p: clear `0x3 << 2p`, then OR in
   * `v << 2p`. The value is not masked, so bits of `v` above bit 1 land
   * in the fields of higher pins.
   */
  function Write2(r: bv32, p: bv32, v: bv32): bv32
    requires p < 16
  {
    (r & !(Device.GPIO_MODER_MODE0 << (p * 2))) | (v << (p * 2))
  }

  /** The field of pin p then holds the low two bits of v. */
  lemma Write2Sets(r: bv32, p: bv32, v: bv32)
    requires p < 16
    ensures Field2(Write2(r, p, v), p) == v & 3
  {
  }

  /** Replace the one-bit field of pin p: clear `0x1 << p`, then OR in `v << p`. */
  function Write1(r: bv32, p: bv32, v: bv32): bv32
    requires p < 16
  {
    (r & !(Device.GPIO_OTYPER_OT0 << p)) | (v << p)
  }

  /** The bit of pin p then holds the low bit of v. */
  lemma Write1Sets(r: bv32, p: bv32, v: bv32)
    requires p < 16
    ensures Bit(Write1(r, p, v), p) == v & 1
  {
  }

  /**
   * The pull update as the driver writes it: the old value is ANDed with
   * the pin's field mask itself, not its complement, so every other pin's
   * pull field is cleared and the pin's old field is ORed with the new
   * one.
   */
  function PullWrite(r: bv32, p: bv32, v: bv32): bv32
    requires p < 16
  {
    (r & (Device.GPIO_PUPDR_PUPDR0 << (p * 2))) | (v << (p * 2))
  }

  /**
   * As written, the pin's old pull field is ORed with the new code
   * instead of replaced, and a code of at most two bits leaves every
   * other pin's field zero.
   */
  lemma PullWriteEffect(r: bv32, p: bv32, v: bv32)
    requires p < 16
    ensures Field2(PullWrite(r, p, v), p) == Field2(r, p) | (v & 3)
    ensures v <= 3 ==> PullWrite(r, p, v) & !Device.Msk2(p) == 0
  {
  }

  /**
   * Which pull update to use: the driver's own (`AsWritten`) or the
   * field replacement the other three registers get (`Intended`).
   */
  datatype PullRule = AsWritten | Intended

  function PullStep(rule: PullRule, r: bv32, p: bv32, v: bv32): bv32
    requires p < 16
  {
    match rule
    case AsWritten => PullWrite(r, p, v)
    case Intended => Write2(r, p, v)
  }

  /** The MODER code of the configured mode, `Mode & GPIO_MODE`. */
  function Code(c: GpioInit): (code: bv32)
    ensures code <= 3
  {
    c.mode & GPIO_MODE
  }

  /** The mode drives the pin (output or alternate function): speed and output type are set. */
  predicate DrivesPin(c: GpioInit)
  {
    Code(c) == MODE_OUTPUT || Code(c) == MODE_AF
  }

  /** The mode is not analog: the pull resistors are set. */
  predicate HasPull(c: GpioInit)
  {
    Code(c) != MODE_ANALOG
  }

  /** The OTYPER bit the mode word carries, `(Mode & OUTPUT_TYPE) >> OUTPUT_TYPE_Pos`. */
  function OutputType(c: GpioInit): (b: bv32)
    ensures b <= 1
  {
    (c.mode & OUTPUT_TYPE) >> OUTPUT_TYPE_Pos
  }

  // ---------------------------------------------------------------------
  // The loop of HAL_GPIO_Init, one register at a time
  // ---------------------------------------------------------------------

  /*
   * Each register the loop writes is read, updated and stored back only
   * from its own old value, so the loop's effect on one register is a
   * sweep over the selected pins below the loop position.
   */

  /** A two-bit-per-pin register after `Write2(_, p, v)` for each selected p < n, ascending. */
  function Sweep2(x: bv32, pin: bv32, n: bv32, v: bv32): bv32
    requires n <= 16
    decreases n
  {
    if n == 0 then x
    else
      var y := Sweep2(x, pin, n - 1, v);
      if Selected(pin, n - 1) then Write2(y, n - 1, v) else y
  }

  /** A one-bit-per-pin register after `Write1(_, p, v)` for each selected p < n, ascending. */
  function Sweep1(x: bv32, pin: bv32, n: bv32, v: bv32): bv32
    requires n <= 16
    decreases n
  {
    if n == 0 then x
    else
      var y := Sweep1(x, pin, n - 1, v);
      if Selected(pin, n - 1) then Write1(y, n - 1, v) else y
  }

  /** The pull register after the pull update of `rule` for each selected p < n, ascending. */
  function PullSweep(rule: PullRule, x: bv32, pin: bv32, n: bv32, v: bv32): bv32
    requires n <= 16
    decreases n
  {
    if n == 0 then x
    else
      var y := PullSweep(rule, x, pin, n - 1, v);
      if Selected(pin, n - 1) then PullStep(rule, y, n - 1, v) else y
  }

  // ---------------------------------------------------------------------
  // The body of the loop, for one selected pin
  // ---------------------------------------------------------------------

  /** Speed, then output type, of pin p, when the mode drives the pin. */
  function DriveRegs(s: Regs, c: GpioInit, p: bv32): Regs
    requires p < 16
  {
    s.(ospeedr := if DrivesPin(c) then Write2(s.ospeedr, p, c.speed) else s.ospeedr,
       otyper := if DrivesPin(c) then Write1(s.otyper, p, OutputType(c)) else s.otyper)
  }

  /** The pull of pin p, unless the mode is analog. */
  function PullRegs(rule: PullRule, s: Regs, c: GpioInit, p: bv32): Regs
    requires p < 16
  {
    s.(purdr := if HasPull(c) then PullStep(rule, s.purdr, p, c.pull) else s.purdr)
  }

  /** The mode of pin p. */
  function ModeRegs(s: Regs, c: GpioInit, p: bv32): Regs
    requires p < 16
  {
    s.(moder := Write2(s.moder, p, Code(c)))
  }

  /** The registers after the loop body for position p: the three stages when p is selected. */
  function PinRegs(rule: PullRule, s: Regs, c: GpioInit, p: bv32): Regs
    requires p < 16
  {
    if Selected(c.pin, p) then ModeRegs(PullRegs(rule, DriveRegs(s, c, p), c, p), c, p) else s
  }

  /** The speed and output-type stores for pin p, made only for a driving mode. */
  function DriveWrites(s: Regs, c: GpioInit, p: bv32): seq<RegWrite>
    requires p < 16
  {
    var t := DriveRegs(s, c, p);
    if DrivesPin(c) then [RegWrite(p, Device.OSPEEDR, t.ospeedr), RegWrite(p, Device.OTYPER, t.otyper)] else []
  }

  /** The pull store for pin p, made unless the mode is analog. */
  function PullWrites(rule: PullRule, s: Regs, c: GpioInit, p: bv32): seq<RegWrite>
    requires p < 16
  {
    if HasPull(c) then [RegWrite(p, Device.PURDR, PullRegs(rule, s, c, p).purdr)] else []
  }

  /** The mode store for pin p, always made. */
  function ModeWrite(s: Regs, c: GpioInit, p: bv32): RegWrite
    requires p < 16
  {
    RegWrite(p, Device.MODER, ModeRegs(s, c, p).moder)
  }

  /**
   * The stores the loop body makes for a selected pin p, starting from
   * registers s, in program order: speed and output type, pull, mode.
   */
  function PinWrites(rule: PullRule, s: Regs, c: GpioInit, p: bv32): seq<RegWrite>
    requires p < 16
  {
    var s1 := DriveRegs(s, c, p);
    var s2 := PullRegs(rule, s1, c, p);
    DriveWrites(s, c, p) + PullWrites(rule, s1, c, p) + [ModeWrite(s2, c, p)]
  }

  /** The stores the loop makes while visiting pins 0 .. n-1. */
  function InitTrace(rule: PullRule, r: Regs, c: GpioInit, n: bv32): seq<RegWrite>
    requires n <= 16
    decreases n
  {
    if n == 0 then []
    else
      InitTrace(rule, r, c, n - 1)
      + (if Selected(c.pin, n - 1) then PinWrites(rule, InitRegs(rule, r, c, n - 1), c, n - 1) else [])
  }

  /** The registers after the loop has visited pins 0 .. n-1. */
  function InitRegs(rule: PullRule, r: Regs, c: GpioInit, n: bv32): Regs
    requires n <= 16
    decreases n
  {
    if n == 0 then r else PinRegs(rule, InitRegs(rule, r, c, n - 1), c, n - 1)
  }

  /** One more turn of the loop applies the loop body for position n. */
  lemma InitRegsNext(rule: PullRule, r: Regs, c: GpioInit, n: bv32)
    requires n < 16
    ensures InitRegs(rule, r, c, n + 1) == PinRegs(rule, InitRegs(rule, r, c, n), c, n)
  {
    assert (n + 1) - 1 == n;
  }

  /** One more turn of the loop adds the stores of pin n, if it is selected. */
  lemma InitTraceNext(rule: PullRule, r: Regs, c: GpioInit, n: bv32)
    requires n < 16
    ensures InitTrace(rule, r, c, n + 1) == InitTrace(rule, r, c, n)
      + (if Selected(c.pin, n) then PinWrites(rule, InitRegs(rule, r, c, n), c, n) else [])
  {
    assert (n + 1) - 1 == n;
  }

  /** Appending pieces one after the other is appending their concatenation. */
  lemma AppendAssoc<T>(w: seq<T>, a: seq<T>, b: seq<T>, m: seq<T>)
    ensures w + a + b == w + (a + b)
    ensures w + a + b + m == w + (a + b + m)
  {
  }

  // ---------------------------------------------------------------------
  // Set/reset register
  // ---------------------------------------------------------------------

  /**
   * The hardware effect of storing w into BSRR on ODR. `BsrrRule` states
   * it pin by pin.
   */
  function ApplyBsrr(odr: bv32, w: bv32): bv32
  {
    (odr & !(w >> 16)) | (w & 0xFFFF)
  }

  /**
   * Pin q is set when bit q of the set half is 1; otherwise it is reset
   * when bit q of the reset half `w >> 16` is 1; otherwise it keeps its
   * level. Setting wins when both bits are 1.
   */
  lemma BsrrRule(odr: bv32, w: bv32, q: bv32)
    requires q < 16
    ensures Bit(ApplyBsrr(odr, w), q) ==
      if Bit(w, q) == 1 then 1 else if Bit(w >> 16, q) == 1 then 0 else Bit(odr, q)
  {
  }

  /** A BSRR store leaves the reserved upper half of ODR alone. */
  lemma BsrrKeepsReservedHalf(odr: bv32, w: bv32)
    ensures ApplyBsrr(odr, w) >> 16 == odr >> 16
  {
  }

  /** The word `HAL_GPIO_WritePin` stores: the pins for SET, the pins shifted to the reset half for RESET. */
  function WritePinWord(pin: bv16, state: PinState): bv32
  {
    if state != PinReset then pin as bv32 else (pin as bv32) << 16
  }

  /** Writing SET drives exactly the given pins high, writing RESET drives exactly them low. */
  lemma WritePinEffect(odr: bv32, pin: bv16)
    ensures ApplyBsrr(odr, WritePinWord(pin, PinSet)) == odr | pin as bv32
    ensures ApplyBsrr(odr, WritePinWord(pin, PinReset)) == odr & !(pin as bv32)
  {
  }

  /**
   * The word `HAL_GPIO_TogglePin` stores: the reset half names the
   * selected pins that are high, the set half those that are low, so the
   * two halves never name the same pin.
   */
  function ToggleWord(odr: bv32, pin: bv16): bv32
  {
    var resetState := (odr & (pin as bv32)) << 16;
    var setState := !odr & (pin as bv32);
    resetState | setState
  }

  /** The two halves of the toggle word never name the same pin. */
  lemma ToggleHalvesDisjoint(odr: bv32, pin: bv16)
    ensures (ToggleWord(odr, pin) >> 16) & (ToggleWord(odr, pin) & 0xFFFF) == 0
  {
  }

  /** The toggle store inverts exactly the selected pins. */
  lemma ToggleInverts(odr: bv32, pin: bv16)
    ensures ApplyBsrr(odr, ToggleWord(odr, pin)) == odr ^ (pin as bv32)
  {
  }

  /** Toggling the same pins twice restores ODR. */
  lemma {:induction false} ToggleTwice(odr: bv32, pin: bv16)
    ensures var odr' := ApplyBsrr(odr, ToggleWord(odr, pin));
      ApplyBsrr(odr', ToggleWord(odr', pin)) == odr
  {
    ToggleInverts(odr, pin);
    ToggleInverts(odr ^ (pin as bv32), pin);
  }

  /** Bit q of `x & y` is set exactly when bit q is set in both. */
  lemma BitOfAnd(x: bv32, y: bv32, q: bv32)
    requires q < 32
    ensures (Bit(x & y, q) == 1) == (Bit(x, q) == 1 && Bit(y, q) == 1)
  {
  }

  /** A set bit among the low sixteen makes the low half nonzero. */
  lemma BitInLowHalf(v: bv32, q: bv32)
    requires q < 16 && Bit(v, q) == 1
    ensures v & 0xFFFF != 0
  {
  }

  /** A nonzero low byte has a set bit among bits 0 .. 7. */
  lemma LowByteWitness(z: bv32)
    requires z & 0xFF != 0
    ensures exists q: bv32 :: q < 8 && Bit(z, q) == 1
  {
    if Bit(z, 0) == 1 {
      assert Bit(z, 0) == 1;
    } else if Bit(z, 1) == 1 {
      assert Bit(z, 1) == 1;
    } else if Bit(z, 2) == 1 {
      assert Bit(z, 2) == 1;
    } else if Bit(z, 3) == 1 {
      assert Bit(z, 3) == 1;
    } else if Bit(z, 4) == 1 {
      assert Bit(z, 4) == 1;
    } else if Bit(z, 5) == 1 {
      assert Bit(z, 5) == 1;
    } else if Bit(z, 6) == 1 {
      assert Bit(z, 6) == 1;
    } else if Bit(z, 7) == 1 {
      assert Bit(z, 7) == 1;
    } else {
      assert false;
    }
  }

  /** A nonzero second byte has a set bit among bits 8 .. 15. */
  lemma HighByteWitness(z: bv32)
    requires z & 0xFF00 != 0
    ensures exists q: bv32 :: 8 <= q < 16 && Bit(z, q) == 1
  {
    if Bit(z, 8) == 1 {
      assert Bit(z, 8) == 1;
    } else if Bit(z, 9) == 1 {
      assert Bit(z, 9) == 1;
    } else if Bit(z, 10) == 1 {
      assert Bit(z, 10) == 1;
    } else if Bit(z, 11) == 1 {
      assert Bit(z, 11) == 1;
    } else if Bit(z, 12) == 1 {
      assert Bit(z, 12) == 1;
    } else if Bit(z, 13) == 1 {
      assert Bit(z, 13) == 1;
    } else if Bit(z, 14) == 1 {
      assert Bit(z, 14) == 1;
    } else if Bit(z, 15) == 1 {
      assert Bit(z, 15) == 1;
    } else {
      assert false;
    }
  }

  /** Some pin is high in x and selected in y. */
  ghost predicate AnyHigh(x: bv32, y: bv32)
  {
    exists q: bv32 :: q < 16 && Bit(x, q) == 1 && Bit(y, q) == 1
  }

  /** Some pin is high and selected exactly when the low half of `x & y` is nonzero. */
  lemma AnyHighIsCommonBit(x: bv32, y: bv32)
    ensures AnyHigh(x, y) <==> x & y & 0xFFFF != 0
  {
    var z := x & y;
    if AnyHigh(x, y) {
      var q: bv32 :| q < 16 && Bit(x, q) == 1 && Bit(y, q) == 1;
      BitOfAnd(x, y, q);
      BitInLowHalf(z, q);
    }
    if z & 0xFFFF != 0 {
      var q: bv32;
      if z & 0xFF != 0 {
        LowByteWitness(z);
        q :| q < 8 && Bit(z, q) == 1;
      } else {
        HighByteWitness(z);
        q :| 8 <= q < 16 && Bit(z, q) == 1;
      }
      BitOfAnd(x, y, q);
    }
  }

  /** For a 16-bit pin set, `x & pin` is nonzero exactly when some selected pin is high in x. */
  lemma CommonBitOfPins(x: bv32, pin: bv16)
    ensures (x & (pin as bv32) != 0) <==> AnyHigh(x, pin as bv32)
  {
    PinsAreLowHalf(x, pin);
    AnyHighIsCommonBit(x, pin as bv32);
  }

  /** A 16-bit pin set selects nothing above bit 15. */
  lemma PinsAreLowHalf(x: bv32, pin: bv16)
    ensures x & (pin as bv32) & 0xFFFF == x & (pin as bv32)
  {
  }

}
