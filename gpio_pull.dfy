/**
 * The pull register after `HAL_GPIO_Init`
 * (Drivers/HAL_Driver/Src/stm32f4xx_hal_gpio.c), both as the driver
 * writes it and with the update corrected to clear only the pin's own
 * field.
 *
 * As written, each selected pin's update ANDs PURDR with the pin's field
 * mask instead of its complement. So after the loop, only the highest
 * selected pin's field can be nonzero. If that pin is the only one
 * selected, its field is its old field ORed with the pull code. If a
 * lower pin was also selected, that lower pin's update has already
 * zeroed the old field, and the field holds just the pull code.
 */
module GpioPullProofs {
  import opened Bits
  import opened GpioDefs
  import opened GpioSpec
  import opened GpioInitProofs
  import Device

  // ---------------------------------------------------------------------
  // The highest selected pin
  // ---------------------------------------------------------------------

  /** The highest pin below n that `pin` selects, if any. */
  function HighestSelected(pin: bv32, n: bv32): (h: Option<bv32>)
    requires n <= 16
    ensures h.Some? ==> h.value < n && Selected(pin, h.value)
    decreases n
  {
    if n == 0 then None
    else if Selected(pin, n - 1) then Some(n - 1)
    else HighestSelected(pin, n - 1)
  }

  /** One step of the search: pin p if it is selected, else the highest below it. */
  lemma HighestStep(pin: bv32, p: bv32)
    requires p < 16
    ensures HighestSelected(pin, p + 1) == if Selected(pin, p) then Some(p) else HighestSelected(pin, p)
  {
  }

  /** Every selected pin below n is at or under the highest selected one, which therefore exists. */
  lemma {:induction false} HighestSelectedIsHighest(pin: bv32, n: bv32, q: bv32)
    requires n <= 16 && q < n && Selected(pin, q)
    ensures HighestSelected(pin, n).Some? && q <= HighestSelected(pin, n).value
    decreases n
  {
    var p := n - 1;
    HighestStep(pin, p);
    assert p + 1 == n;
    if !Selected(pin, p) {
      assert q < p;
      HighestSelectedIsHighest(pin, p, q);
    }
  }

  // ---------------------------------------------------------------------
  // The pull register as written
  // ---------------------------------------------------------------------

  /** The code v in pin h's field, ORed with x's old field h, and zero in every other field. */
  function PullKept(x: bv32, h: bv32, v: bv32): bv32
    requires h < 16
  {
    (x & Device.Msk2(h)) | (v << (h * 2))
  }

  /** The code v in pin h's field and zero in every other field. */
  function PullCode(h: bv32, v: bv32): bv32
    requires h < 16
  {
    v << (h * 2)
  }

  /**
   * The closed form of PURDR after the as-written pull update of the
   * selected pins below n: unchanged when none is selected; otherwise the
   * code in the highest selected pin's field and zero elsewhere, ORed with
   * that field's old contents only when no lower pin was selected.
   */
  function PullAsWrittenForm(x: bv32, pin: bv32, n: bv32, v: bv32): bv32
    requires n <= 16
  {
    match HighestSelected(pin, n)
    case None => x
    case Some(h) => if HighestSelected(pin, h).Some? then PullCode(h, v) else PullKept(x, h, v)
  }

  /** The as-written update of a lone pin p keeps pin p's old field and ORs in the code. */
  lemma PullWriteMasks(x: bv32, p: bv32, v: bv32)
    requires p < 16
    ensures PullWrite(x, p, v) == PullKept(x, p, v)
  {
    var m := Device.GPIO_PUPDR_PUPDR0 << (p * 2);
    Device.MasksAreShiftedPinZero(p);
    assert Device.Msk2(p) == m;
  }

  /** The update of pin p > h wipes pin h's field, whatever it held. */
  lemma PullWriteAboveKept(x: bv32, h: bv32, p: bv32, v: bv32)
    requires h < p < 16 && v <= 3
    ensures PullWrite(PullKept(x, h, v), p, v) == PullCode(p, v)
  {
    var z := x & Device.Msk2(h);
    assert z & !Device.Msk2(h) == 0;
    assert (z | (v << (h * 2))) & (Device.GPIO_PUPDR_PUPDR0 << (p * 2)) == 0;
  }

  /** The update of pin p > h wipes the code left in pin h's field. */
  lemma PullWriteAboveCode(h: bv32, p: bv32, v: bv32)
    requires h < p < 16 && v <= 3
    ensures PullWrite(PullCode(h, v), p, v) == PullCode(p, v)
  {
    assert (v << (h * 2)) & (Device.GPIO_PUPDR_PUPDR0 << (p * 2)) == 0;
  }

  /** One step of the as-written pull sweep: the update of pin p if it is selected. */
  lemma PullSweepStep(x: bv32, pin: bv32, p: bv32, v: bv32)
    requires p < 16
    ensures PullSweep(AsWritten, x, pin, p + 1, v) ==
      if Selected(pin, p) then PullWrite(PullSweep(AsWritten, x, pin, p, v), p, v) else PullSweep(AsWritten, x, pin, p, v)
  {
    assert (p + 1) - 1 == p;
  }

  /** An unselected pin p leaves the closed form as it was. */
  lemma FormSkips(x: bv32, pin: bv32, p: bv32, v: bv32)
    requires p < 16 && !Selected(pin, p)
    ensures PullAsWrittenForm(x, pin, p + 1, v) == PullAsWrittenForm(x, pin, p, v)
  {
    HighestStep(pin, p);
  }

  /** The first selected pin p keeps its old field and ORs in the code. */
  lemma FormFirst(x: bv32, pin: bv32, p: bv32, v: bv32)
    requires p < 16 && Selected(pin, p) && HighestSelected(pin, p).None?
    ensures PullAsWrittenForm(x, pin, p, v) == x
    ensures PullAsWrittenForm(x, pin, p + 1, v) == PullKept(x, p, v)
  {
    HighestStep(pin, p);
  }

  /** A selected pin p above another selected pin holds just the code. */
  lemma FormLater(x: bv32, pin: bv32, p: bv32, v: bv32)
    requires p < 16 && Selected(pin, p) && HighestSelected(pin, p).Some?
    ensures PullAsWrittenForm(x, pin, p + 1, v) == PullCode(p, v)
  {
    HighestStep(pin, p);
  }

  /** Pin p's as-written update wipes whatever a lower selected pin left. */
  lemma PullWriteAboveForm(x: bv32, pin: bv32, p: bv32, v: bv32)
    requires p < 16 && v <= 3 && HighestSelected(pin, p).Some?
    ensures PullWrite(PullAsWrittenForm(x, pin, p, v), p, v) == PullCode(p, v)
  {
    var h := HighestSelected(pin, p).value;
    if HighestSelected(pin, h).Some? {
      PullWriteAboveCode(h, p, v);
    } else {
      PullWriteAboveKept(x, h, p, v);
    }
  }

  /** One more pin keeps the as-written sweep in its closed form. */
  lemma PullFormStep(x: bv32, pin: bv32, p: bv32, v: bv32)
    requires p < 16 && v <= 3
    requires PullSweep(AsWritten, x, pin, p, v) == PullAsWrittenForm(x, pin, p, v)
    ensures PullSweep(AsWritten, x, pin, p + 1, v) == PullAsWrittenForm(x, pin, p + 1, v)
  {
    PullSweepStep(x, pin, p, v);
    if !Selected(pin, p) {
      FormSkips(x, pin, p, v);
    } else if HighestSelected(pin, p).None? {
      FormFirst(x, pin, p, v);
      PullWriteMasks(x, p, v);
    } else {
      FormLater(x, pin, p, v);
      PullWriteAboveForm(x, pin, p, v);
    }
  }

  /** The as-written pull sweep has the closed form `PullAsWrittenForm`, for a two-bit pull code. */
  lemma {:induction false} PullSweepAsWritten(x: bv32, pin: bv32, n: bv32, v: bv32)
    requires n <= 16 && v <= 3
    ensures PullSweep(AsWritten, x, pin, n, v) == PullAsWrittenForm(x, pin, n, v)
    decreases n
  {
    if n > 0 {
      PullSweepAsWritten(x, pin, n - 1, v);
      PullFormStep(x, pin, n - 1, v);
      assert (n - 1) + 1 == n;
    }
  }

  /**
   * `HAL_GPIO_Init` as written leaves PURDR unchanged for an analog mode;
   * otherwise, with a two-bit pull code, PURDR is `PullAsWrittenForm` of
   * its old value.
   */
  lemma InitPullAsWritten(r: Regs, c: GpioInit)
    ensures !HasPull(c) ==> InitRegs(AsWritten, r, c, GPIO_NUMBER).purdr == r.purdr
    ensures HasPull(c) && c.pull <= 3 ==>
      InitRegs(AsWritten, r, c, GPIO_NUMBER).purdr == PullAsWrittenForm(r.purdr, c.pin, GPIO_NUMBER, c.pull)
  {
    InitPullSweep(AsWritten, r, c, GPIO_NUMBER);
    if c.pull <= 3 {
      PullSweepAsWritten(r.purdr, c.pin, GPIO_NUMBER, c.pull);
    }
  }

  /**
   * With two or more pins selected and a non-analog mode, PURDR as
   * written ends up holding the pull code in the highest selected pin's
   * field and zero everywhere else, whatever it held before.
   */
  lemma InitPullTwoPins(r: Regs, c: GpioInit, h: bv32, q: bv32)
    requires HasPull(c) && c.pull <= 3
    requires HighestSelected(c.pin, GPIO_NUMBER) == Some(h)
    requires q < h && Selected(c.pin, q)
    ensures InitRegs(AsWritten, r, c, GPIO_NUMBER).purdr == c.pull << (h * 2)
  {
    InitPullAsWritten(r, c);
    HighestSelectedIsHighest(c.pin, h, q);
  }

  // ---------------------------------------------------------------------
  // The corrected pull register
  // ---------------------------------------------------------------------

  /** With the corrected update, the pull register is swept like the other two-bit registers. */
  lemma {:induction false} PullSweepIntended(x: bv32, pin: bv32, n: bv32, v: bv32)
    requires n <= 16
    ensures PullSweep(Intended, x, pin, n, v) == Sweep2(x, pin, n, v)
    decreases n
  {
    if n > 0 {
      PullSweepIntended(x, pin, n - 1, v);
    }
  }

  /**
   * With the corrected update, a selected pin's PURDR field is
   * `Pull & 3` for a non-analog mode; every other pin keeps its field,
   * provided the pull code fits two bits, and an analog mode keeps them
   * all.
   */
  lemma InitPullIntended(r: Regs, c: GpioInit, q: bv32)
    requires q < 16
    ensures var t := InitRegs(Intended, r, c, GPIO_NUMBER);
      && (HasPull(c) && Selected(c.pin, q) ==> Field2(t.purdr, q) == c.pull & 3)
      && (HasPull(c) && !Selected(c.pin, q) && c.pull <= 3 ==> Field2(t.purdr, q) == Field2(r.purdr, q))
      && (!HasPull(c) ==> t.purdr == r.purdr)
  {
    InitPullSweep(Intended, r, c, GPIO_NUMBER);
    PullSweepIntended(r.purdr, c.pin, GPIO_NUMBER, c.pull);
    Sweep2Field(r.purdr, c.pin, GPIO_NUMBER, c.pull, q);
  }

  // ---------------------------------------------------------------------
  // The discrepancy on a concrete configuration
  // ---------------------------------------------------------------------

  /** Pins 0 and 1, as input with pull-up, on a block whose pull register is clear. */
  const PULLUP_PINS_0_1: GpioInit :=
    GpioInit(GPIO_PIN[0] as bv32 | GPIO_PIN[1] as bv32, GPIO_MODE_INPUT, GPIO_PULLUP, GPIO_SPEED_FREQ_LOW, 0)

  /** A register block holding zero everywhere. */
  const CLEAR_BLOCK: Regs := Regs(0, 0, 0, 0, 0, 0, 0, 0, 0, 0)

  /** No pin from 2 up is among pins 0 and 1. */
  lemma NotSelectedAbove1(q: bv32)
    requires 2 <= q < 16
    ensures !Selected(3, q)
  {
  }

  /** Pin 1 is the highest of pins 0 and 1 whichever bound above it is taken. */
  lemma {:induction false} HighestOfPins01(n: bv32)
    requires 2 <= n <= 16
    ensures HighestSelected(3, n) == Some(1)
    decreases n
  {
    if n > 2 {
      NotSelectedAbove1(n - 1);
      HighestOfPins01(n - 1);
    } else {
      assert Selected(3, 1);
    }
  }

  /**
   * Configuring pins 0 and 1 with pull-up as written leaves PURDR = 0x4:
   * pin 1 is pulled up but pin 0's field is 0 (no pull), because pin 1's
   * update wiped it.
   */
  lemma PullUpLosesPin0()
    ensures InitRegs(AsWritten, CLEAR_BLOCK, PULLUP_PINS_0_1, GPIO_NUMBER).purdr == 0x4
    ensures Field2(InitRegs(AsWritten, CLEAR_BLOCK, PULLUP_PINS_0_1, GPIO_NUMBER).purdr, 0) == GPIO_NOPULL
  {
    var c := PULLUP_PINS_0_1;
    assert c.pin == 3;
    HighestOfPins01(GPIO_NUMBER);
    assert HighestSelected(3, 1) == Some(0) by {
      assert Selected(3, 0);
    }
    InitPullAsWritten(CLEAR_BLOCK, c);
  }

  /** The corrected update pulls both pins up, as the configuration asks. */
  lemma PullUpKeepsPin0()
    ensures Field2(InitRegs(Intended, CLEAR_BLOCK, PULLUP_PINS_0_1, GPIO_NUMBER).purdr, 0) == GPIO_PULLUP
    ensures Field2(InitRegs(Intended, CLEAR_BLOCK, PULLUP_PINS_0_1, GPIO_NUMBER).purdr, 1) == GPIO_PULLUP
  {
    var c := PULLUP_PINS_0_1;
    assert c.pin == 3 && Selected(3, 0) && Selected(3, 1);
    InitPullIntended(CLEAR_BLOCK, c, 0);
    InitPullIntended(CLEAR_BLOCK, c, 1);
  }
}
