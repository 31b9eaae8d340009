/**
 * The GPIO driver (Drivers/HAL_Driver/Src/stm32f4xx_hal_gpio.c) over one
 * GPIO register block: a `GpioPort` object whose fields are the registers
 * of `GPIO_TypeDef`, with the driver's four operations as its members.
 * Each operation is proved against the specification functions of module
 * GpioSpec.
 */
module Gpio {
  import opened Bits
  import opened GpioDefs
  import opened GpioSpec
  import Device

  // ---------------------------------------------------------------------
  // A GPIO port
  // ---------------------------------------------------------------------

  /**
   * One GPIO register block. `Writes` logs the driver's stores, in
   * program order, with the value each one stored.
   */
  class GpioPort {
    var MODER: bv32
    var OTYPER: bv32
    var OSPEEDR: bv32
    var PURDR: bv32
    var IDR: bv32
    var ODR: bv32
    var BSRR: bv32
    var LCKR: bv32
    var AFRL: bv32
    var AFRH: bv32
    ghost var Writes: seq<RegWrite>

    /** The register contents. */
    function Snapshot(): (r: Regs)
      reads this
    {
      Regs(MODER, OTYPER, OSPEEDR, PURDR, IDR, ODR, BSRR, LCKR, AFRL, AFRH)
    }

    /** A block holding the given register contents, before any driver store. */
    constructor (r: Regs)
      ensures Snapshot() == r && Writes == []
    {
      MODER, OTYPER, OSPEEDR, PURDR, IDR := r.moder, r.otyper, r.ospeedr, r.purdr, r.idr;
      ODR, BSRR, LCKR, AFRL, AFRH := r.odr, r.bsrr, r.lckr, r.afrl, r.afrh;
      Writes := [];
    }

    /**
     * `HAL_GPIO_Init` as written: visits pins 0 .. 15 in ascending order
     * and configures each pin the init structure selects.
     */
    method Init(c: GpioInit)
      modifies this`MODER, this`OTYPER, this`OSPEEDR, this`PURDR, this`Writes
      ensures Snapshot() == InitRegs(AsWritten, old(Snapshot()), c, GPIO_NUMBER)
      ensures Writes == old(Writes) + InitTrace(AsWritten, old(Snapshot()), c, GPIO_NUMBER)
    {
      InitWith(c, AsWritten);
    }

    /**
     * `HAL_GPIO_Init` with the pull update corrected to clear the pin's
     * own field (`&= ~mask`), as the other three registers are updated.
     */
    method InitCorrected(c: GpioInit)
      modifies this`MODER, this`OTYPER, this`OSPEEDR, this`PURDR, this`Writes
      ensures Snapshot() == InitRegs(Intended, old(Snapshot()), c, GPIO_NUMBER)
      ensures Writes == old(Writes) + InitTrace(Intended, old(Snapshot()), c, GPIO_NUMBER)
    {
      InitWith(c, Intended);
    }

    /** The loop of `HAL_GPIO_Init`, with the pull update given by `rule`. */
    method InitWith(c: GpioInit, rule: PullRule)
      modifies this`MODER, this`OTYPER, this`OSPEEDR, this`PURDR, this`Writes
      ensures Snapshot() == InitRegs(rule, old(Snapshot()), c, GPIO_NUMBER)
      ensures Writes == old(Writes) + InitTrace(rule, old(Snapshot()), c, GPIO_NUMBER)
    {
      var position: bv32 := 0;
      while position < GPIO_NUMBER
        invariant position <= GPIO_NUMBER
        invariant Snapshot() == InitRegs(rule, old(Snapshot()), c, position)
        invariant Writes == old(Writes) + InitTrace(rule, old(Snapshot()), c, position)
      {
        VisitPin(old(Snapshot()), old(Writes), c, rule, position);
        position := position + 1;
      }
    }

    /** One turn of the loop: the registers and the stores advance by one pin position. */
    method VisitPin(ghost r0: Regs, ghost w0: seq<RegWrite>, c: GpioInit, rule: PullRule, position: bv32)
      requires position < GPIO_NUMBER
      requires Snapshot() == InitRegs(rule, r0, c, position)
      requires Writes == w0 + InitTrace(rule, r0, c, position)
      modifies this`MODER, this`OTYPER, this`OSPEEDR, this`PURDR, this`Writes
      ensures Snapshot() == InitRegs(rule, r0, c, position + 1)
      ensures Writes == w0 + InitTrace(rule, r0, c, position + 1)
    {
      InitRegsNext(rule, r0, c, position);
      InitTraceNext(rule, r0, c, position);
      ghost var s := Snapshot();
      var selected := ConfigurePin(c, rule, position);
      AppendAssoc(w0, InitTrace(rule, r0, c, position),
        if selected then PinWrites(rule, s, c, position) else [], []);
    }

    /** The body of the loop of `HAL_GPIO_Init` for one pin position. */
    method ConfigurePin(c: GpioInit, rule: PullRule, position: bv32) returns (selected: bool)
      requires position < 16
      modifies this`MODER, this`OTYPER, this`OSPEEDR, this`PURDR, this`Writes
      ensures selected == Selected(c.pin, position)
      ensures Snapshot() == PinRegs(rule, old(Snapshot()), c, position)
      ensures Writes == old(Writes) + if selected then PinWrites(rule, old(Snapshot()), c, position) else []
    {
      selected := PinSelected(c.pin, position);
      if selected {
        ghost var s0 := Snapshot();
        ConfigureDrive(c, position);
        ghost var s1 := Snapshot();
        ConfigurePull(c, rule, position);
        ghost var s2 := Snapshot();
        // The alternate-function branch of the driver is empty.
        ConfigureMode(c, position);
        AppendAssoc(old(Writes), DriveWrites(s0, c, position), PullWrites(rule, s1, c, position),
          [ModeWrite(s2, c, position)]);
      }
    }

    /** The test at the head of the loop body: is the pin at `position` among those to configure? */
    static method PinSelected(pin: bv32, position: bv32) returns (selected: bool)
      requires position < 16
      ensures selected == Selected(pin, position)
      ensures selected <==> Bit(pin, position) == 1
    {
      var ioposition := (0x01 as bv32) << position;
      var iocurrent := pin & ioposition;
      selected := iocurrent == ioposition;
      SelectedIsBit(pin, position);
    }

    /** Speed, then output type, of a selected pin, when the mode is output or alternate function. */
    method ConfigureDrive(c: GpioInit, position: bv32)
      requires position < 16
      modifies this`OTYPER, this`OSPEEDR, this`Writes
      ensures Snapshot() == DriveRegs(old(Snapshot()), c, position)
      ensures Writes == old(Writes) + DriveWrites(old(Snapshot()), c, position)
    {
      if (c.mode & GPIO_MODE) == MODE_OUTPUT || (c.mode & GPIO_MODE) == MODE_AF {
        StoreSpeed(position, c.speed);
        StoreOutputType(position, (c.mode & OUTPUT_TYPE) >> OUTPUT_TYPE_Pos);
      }
    }

    /** Pull of a selected pin, unless the mode is analog. */
    method ConfigurePull(c: GpioInit, rule: PullRule, position: bv32)
      requires position < 16
      modifies this`PURDR, this`Writes
      ensures Snapshot() == PullRegs(rule, old(Snapshot()), c, position)
      ensures Writes == old(Writes) + PullWrites(rule, old(Snapshot()), c, position)
    {
      if (c.mode & GPIO_MODE) != MODE_ANALOG {
        StorePull(rule, position, c.pull);
      }
    }

    /** Mode of a selected pin, written last. */
    method ConfigureMode(c: GpioInit, position: bv32)
      requires position < 16
      modifies this`MODER, this`Writes
      ensures Snapshot() == ModeRegs(old(Snapshot()), c, position)
      ensures Writes == old(Writes) + [ModeWrite(old(Snapshot()), c, position)]
    {
      StoreMode(position, c.mode & GPIO_MODE);
    }

    /** Read OSPEEDR, clear the pin's speed field, OR in the speed, store. */
    method StoreSpeed(position: bv32, speed: bv32)
      requires position < 16
      modifies this`OSPEEDR, this`Writes
      ensures OSPEEDR == Write2(old(OSPEEDR), position, speed)
      ensures Writes == old(Writes) + [RegWrite(position, Device.OSPEEDR, OSPEEDR)]
    {
      var temp := OSPEEDR;
      temp := temp & !(Device.GPIO_OSPEEDR_OSPEEDR0_Msk << (position * 2));
      temp := temp | (speed << (position * 2));
      OSPEEDR := temp;
      Writes := Writes + [RegWrite(position, Device.OSPEEDR, temp)];
    }

    /** Read OTYPER, clear the pin's bit, OR in the output type, store. */
    method StoreOutputType(position: bv32, otype: bv32)
      requires position < 16
      modifies this`OTYPER, this`Writes
      ensures OTYPER == Write1(old(OTYPER), position, otype)
      ensures Writes == old(Writes) + [RegWrite(position, Device.OTYPER, OTYPER)]
    {
      var temp := OTYPER;
      temp := temp & !(Device.GPIO_OTYPER_OT0 << position);
      temp := temp | (otype << position);
      OTYPER := temp;
      Writes := Writes + [RegWrite(position, Device.OTYPER, temp)];
    }

    /**
     * Read PURDR, update the pin's pull field, store. As written
     * (`AsWritten`) the old value is ANDed with the pin's field mask; the
     * correction (`Intended`) ANDs it with the mask's complement.
     */
    method StorePull(rule: PullRule, position: bv32, pull: bv32)
      requires position < 16
      modifies this`PURDR, this`Writes
      ensures PURDR == PullStep(rule, old(PURDR), position, pull)
      ensures Writes == old(Writes) + [RegWrite(position, Device.PURDR, PURDR)]
    {
      var temp := PURDR;
      if rule == AsWritten {
        temp := temp & (Device.GPIO_PUPDR_PUPDR0 << (position * 2));
      } else {
        temp := temp & !(Device.GPIO_PUPDR_PUPDR0 << (position * 2));
      }
      temp := temp | (pull << (position * 2));
      PURDR := temp;
      Writes := Writes + [RegWrite(position, Device.PURDR, temp)];
    }

    /** Read MODER, clear the pin's mode field, OR in the mode code, store. */
    method StoreMode(position: bv32, code: bv32)
      requires position < 16
      modifies this`MODER, this`Writes
      ensures MODER == Write2(old(MODER), position, code)
      ensures Writes == old(Writes) + [RegWrite(position, Device.MODER, MODER)]
    {
      var temp := MODER;
      temp := temp & !(Device.GPIO_MODER_MODE0 << (position * 2));
      temp := temp | (code << (position * 2));
      MODER := temp;
      Writes := Writes + [RegWrite(position, Device.MODER, temp)];
    }

    /**
     * `HAL_GPIO_ReadPin`: SET when some selected pin reads high in IDR,
     * RESET when none does. Nothing is stored.
     */
    function ReadPin(pin: bv16): (s: PinState)
      reads this
      ensures s == PinSet <==> AnyHigh(IDR, pin as bv32)
    {
      CommonBitOfPins(IDR, pin);
      if IDR & (pin as bv32) != PinReset.Value() then PinSet else PinReset
    }

    /** A store into BSRR, with its effect on ODR. */
    method StoreBsrr(w: bv32)
      modifies this`BSRR, this`ODR, this`Writes
      ensures BSRR == w && ODR == ApplyBsrr(old(ODR), w)
      ensures Writes == old(Writes) + [RegWrite(0, Device.BSRR, w)]
    {
      BSRR := w;
      Writes := Writes + [RegWrite(0, Device.BSRR, w)];
      ODR := ApplyBsrr(ODR, w);
    }

    /**
     * `HAL_GPIO_WritePin`: one store into BSRR, which drives the selected
     * pins high for SET and low for RESET and leaves the others alone.
     */
    method WritePin(pin: bv16, state: PinState)
      modifies this`BSRR, this`ODR, this`Writes
      ensures BSRR == WritePinWord(pin, state)
      ensures ODR == if state == PinSet then old(ODR) | pin as bv32 else old(ODR) & !(pin as bv32)
      ensures Writes == old(Writes) + [RegWrite(0, Device.BSRR, BSRR)]
    {
      WritePinEffect(ODR, pin);
      if state != PinReset {
        StoreBsrr(pin as bv32);
      } else {
        StoreBsrr((pin as bv32) << 16);
      }
    }

    /**
     * `HAL_GPIO_TogglePin`: reads ODR once and makes one BSRR store that
     * inverts exactly the selected pins.
     */
    method TogglePin(pin: bv16)
      modifies this`BSRR, this`ODR, this`Writes
      ensures BSRR == ToggleWord(old(ODR), pin)
      ensures ODR == old(ODR) ^ (pin as bv32)
      ensures Writes == old(Writes) + [RegWrite(0, Device.BSRR, BSRR)]
    {
      var odr := ODR;
      ToggleInverts(odr, pin);
      StoreBsrr(ToggleWord(odr, pin));
    }
  }
}
