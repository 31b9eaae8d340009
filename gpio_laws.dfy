/**
 * Whole-call laws of `HAL_GPIO_Init`
 * (Drivers/HAL_Driver/Src/stm32f4xx_hal_gpio.c): configuring twice is
 * configuring once, only the sixteen pin bits of the pin mask matter, and
 * the stores come pin by pin in ascending order, with speed, output type,
 * pull and mode in that order for each pin.
 */
module GpioInitLaws {
  import opened Bits
  import opened GpioDefs
  import opened GpioSpec
  import opened GpioInitProofs
  import opened GpioPullProofs
  import Device

  // ---------------------------------------------------------------------
  // Idempotence
  // ---------------------------------------------------------------------

  // ---------------------------------------------------------------------
  // Every update of the loop clears some bits and sets others
  // ---------------------------------------------------------------------

  /*
   * Each register update of the loop has the shape `Update(y, m, s)`: keep
   * the bits of m, then set the bits of s, with m and s fixed by the pin
   * and the code. The speed, output-type and mode updates keep every bit
   * but the pin's field; the pull update as written keeps only the pin's
   * field. A run of such updates has the same shape: it keeps the bits
   * that the run, applied to an all-ones register with a zero code, leaves
   * set, then sets the bits the run writes into a zero register. A
   * register of that shape is a fixed point of the run, so a second
   * identical run changes nothing, whatever the code and even when the
   * code spills out of its field.
   *
   * The lemmas below name each register value by a parameter and tie it
   * to its definition by a precondition; their conclusions speak only of
   * those parameters.
   */

  /** One register update: keep the bits of m, then set the bits of s. */
  function Update(r: bv32, m: bv32, s: bv32): bv32
  {
    (r & m) | s
  }

  /** The bits a two-bit write at pin p keeps: all but the pin's field. */
  function Clear2(p: bv32): bv32
    requires p < 16
  {
    !(Device.GPIO_MODER_MODE0 << (p * 2))
  }

  /** The bits a one-bit write at pin p keeps: all but the pin's bit. */
  function Clear1(p: bv32): bv32
    requires p < 16
  {
    !(Device.GPIO_OTYPER_OT0 << p)
  }

  /** The bits the pull write as written keeps: only the pin's field. */
  function KeepField2(p: bv32): bv32
    requires p < 16
  {
    Device.GPIO_PUPDR_PUPDR0 << (p * 2)
  }

  /** Code v moved to the two-bit field of pin p. */
  function Place2(p: bv32, v: bv32): bv32
    requires p < 16
  {
    v << (p * 2)
  }

  /** Code v moved to the bit of pin p. */
  function Place1(p: bv32, v: bv32): bv32
    requires p < 16
  {
    v << p
  }

  /** The bits the pull write, as written or corrected, keeps. */
  function PullKeep(rule: PullRule, p: bv32): bv32
    requires p < 16
  {
    match rule
    case AsWritten => KeepField2(p)
    case Intended => Clear2(p)
  }

  /** `Write2` is an update that keeps all but the pin's field and sets the code there. */
  lemma Write2IsUpdate(r: bv32, p: bv32, v: bv32)
    requires p < 16
    ensures Write2(r, p, v) == Update(r, Clear2(p), Place2(p, v))
  {
    assert Write2(r, p, v) == Update(r, !(Device.GPIO_MODER_MODE0 << (p * 2)), v << (p * 2));
  }

  /** `Write1` is an update that keeps all but the pin's bit and sets the code there. */
  lemma Write1IsUpdate(r: bv32, p: bv32, v: bv32)
    requires p < 16
    ensures Write1(r, p, v) == Update(r, Clear1(p), Place1(p, v))
  {
    assert Write1(r, p, v) == Update(r, !(Device.GPIO_OTYPER_OT0 << p), v << p);
  }

  /** The pull write as written is an update that keeps only the pin's field. */
  lemma PullWriteIsUpdate(r: bv32, p: bv32, v: bv32)
    requires p < 16
    ensures PullWrite(r, p, v) == Update(r, KeepField2(p), Place2(p, v))
  {
    assert PullWrite(r, p, v) == Update(r, Device.GPIO_PUPDR_PUPDR0 << (p * 2), v << (p * 2));
  }

  /** The pull write, as written or corrected, is an update. */
  lemma PullStepIsUpdate(rule: PullRule, r: bv32, p: bv32, v: bv32)
    requires p < 16
    ensures PullStep(rule, r, p, v) == Update(r, PullKeep(rule, p), Place2(p, v))
  {
    match rule
    case AsWritten => PullWriteIsUpdate(r, p, v);
    case Intended => Write2IsUpdate(r, p, v);
  }

  /** A zero code sets nothing. */
  lemma PlaceZero(p: bv32)
    requires p < 16
    ensures Place2(p, 0) == 0 && Place1(p, 0) == 0
  {
  }

  /**
   * One more update keeps a register of the shape `Update(x, a, b)` in
   * that shape; the kept bits a' are what the update keeps of a when
   * its set bits z are none.
   */
  lemma UpdateKeepsShape(x: bv32, y: bv32, a: bv32, b: bv32, m: bv32, s: bv32, z: bv32, y': bv32, a': bv32, b': bv32)
    requires y == Update(x, a, b)
    requires y' == Update(y, m, s) && a' == Update(a, m, z) && b' == Update(b, m, s) && z == 0
    ensures y' == Update(x, a', b')
  {
  }

  /** Applying `Update(_, a, b)` to its own result changes nothing. */
  lemma ShapeTwice(x: bv32, y: bv32, z: bv32, a: bv32, b: bv32)
    requires y == Update(x, a, b) && z == Update(y, a, b)
    ensures z == y
  {
  }

  /** The bits of a two-bit register that a sweep over the selected pins below n leaves as they were. */
  function Kept2(pin: bv32, n: bv32): bv32
    requires n <= 16
    decreases n
  {
    if n == 0 then 0xFFFF_FFFF
    else if Selected(pin, n - 1) then Write2(Kept2(pin, n - 1), n - 1, 0)
    else Kept2(pin, n - 1)
  }

  /** The bits a two-bit sweep of code v over the selected pins below n sets, whatever the register held. */
  function Forced2(pin: bv32, n: bv32, v: bv32): bv32
    requires n <= 16
    decreases n
  {
    if n == 0 then 0
    else if Selected(pin, n - 1) then Write2(Forced2(pin, n - 1, v), n - 1, v)
    else Forced2(pin, n - 1, v)
  }

  /** The bits of a one-bit register that a sweep over the selected pins below n leaves as they were. */
  function Kept1(pin: bv32, n: bv32): bv32
    requires n <= 16
    decreases n
  {
    if n == 0 then 0xFFFF_FFFF
    else if Selected(pin, n - 1) then Write1(Kept1(pin, n - 1), n - 1, 0)
    else Kept1(pin, n - 1)
  }

  /** The bits a one-bit sweep of code v over the selected pins below n sets, whatever the register held. */
  function Forced1(pin: bv32, n: bv32, v: bv32): bv32
    requires n <= 16
    decreases n
  {
    if n == 0 then 0
    else if Selected(pin, n - 1) then Write1(Forced1(pin, n - 1, v), n - 1, v)
    else Forced1(pin, n - 1, v)
  }

  /** The bits of PURDR that a pull sweep, as written or corrected, over the selected pins below n leaves as they were. */
  function KeptPull(rule: PullRule, pin: bv32, n: bv32): bv32
    requires n <= 16
    decreases n
  {
    if n == 0 then 0xFFFF_FFFF
    else if Selected(pin, n - 1) then PullStep(rule, KeptPull(rule, pin, n - 1), n - 1, 0)
    else KeptPull(rule, pin, n - 1)
  }

  /** The bits of PURDR a pull sweep of code v, as written or corrected, over the selected pins below n sets. */
  function ForcedPull(rule: PullRule, pin: bv32, n: bv32, v: bv32): bv32
    requires n <= 16
    decreases n
  {
    if n == 0 then 0
    else if Selected(pin, n - 1) then PullStep(rule, ForcedPull(rule, pin, n - 1, v), n - 1, v)
    else ForcedPull(rule, pin, n - 1, v)
  }

  /** `Write2` at pin p keeps the shape `Update(x, k, f)`: k loses the pin's field, f gets the code. */
  lemma Write2Shape(x: bv32, y0: bv32, k0: bv32, f0: bv32, p: bv32, v: bv32, y: bv32, k: bv32, f: bv32)
    requires p < 16 && y0 == Update(x, k0, f0)
    requires y == Write2(y0, p, v) && k == Write2(k0, p, 0) && f == Write2(f0, p, v)
    ensures y == Update(x, k, f)
  {
    Write2IsUpdate(y0, p, v);
    Write2IsUpdate(k0, p, 0);
    Write2IsUpdate(f0, p, v);
    PlaceZero(p);
    UpdateKeepsShape(x, y0, k0, f0, Clear2(p), Place2(p, v), Place2(p, 0), y, k, f);
  }

  /** `Write1` at pin p keeps the shape `Update(x, k, f)`. */
  lemma Write1Shape(x: bv32, y0: bv32, k0: bv32, f0: bv32, p: bv32, v: bv32, y: bv32, k: bv32, f: bv32)
    requires p < 16 && y0 == Update(x, k0, f0)
    requires y == Write1(y0, p, v) && k == Write1(k0, p, 0) && f == Write1(f0, p, v)
    ensures y == Update(x, k, f)
  {
    Write1IsUpdate(y0, p, v);
    Write1IsUpdate(k0, p, 0);
    Write1IsUpdate(f0, p, v);
    PlaceZero(p);
    UpdateKeepsShape(x, y0, k0, f0, Clear1(p), Place1(p, v), Place1(p, 0), y, k, f);
  }

  /** The pull write, as written or corrected, at pin p keeps the shape `Update(x, k, f)`. */
  lemma PullStepShape(rule: PullRule, x: bv32, y0: bv32, k0: bv32, f0: bv32, p: bv32, v: bv32, y: bv32, k: bv32, f: bv32)
    requires p < 16 && y0 == Update(x, k0, f0)
    requires y == PullStep(rule, y0, p, v) && k == PullStep(rule, k0, p, 0) && f == PullStep(rule, f0, p, v)
    ensures y == Update(x, k, f)
  {
    PullStepIsUpdate(rule, y0, p, v);
    PullStepIsUpdate(rule, k0, p, 0);
    PullStepIsUpdate(rule, f0, p, v);
    PlaceZero(p);
    UpdateKeepsShape(x, y0, k0, f0, PullKeep(rule, p), Place2(p, v), Place2(p, 0), y, k, f);
  }

  /** A two-bit sweep y of x keeps the bits k = `Kept2` names and sets the bits f = `Forced2` names. */
  lemma {:induction false} Sweep2Shape(x: bv32, pin: bv32, n: bv32, v: bv32, y: bv32, k: bv32, f: bv32)
    requires n <= 16 && y == Sweep2(x, pin, n, v) && k == Kept2(pin, n) && f == Forced2(pin, n, v)
    ensures y == Update(x, k, f)
    decreases n
  {
    if n > 0 {
      var p := n - 1;
      var y0, k0, f0 := Sweep2(x, pin, p, v), Kept2(pin, p), Forced2(pin, p, v);
      Sweep2Shape(x, pin, p, v, y0, k0, f0);
      if Selected(pin, p) {
        Write2Shape(x, y0, k0, f0, p, v, y, k, f);
      }
    }
  }

  /** A one-bit sweep y of x keeps the bits k = `Kept1` names and sets the bits f = `Forced1` names. */
  lemma {:induction false} Sweep1Shape(x: bv32, pin: bv32, n: bv32, v: bv32, y: bv32, k: bv32, f: bv32)
    requires n <= 16 && y == Sweep1(x, pin, n, v) && k == Kept1(pin, n) && f == Forced1(pin, n, v)
    ensures y == Update(x, k, f)
    decreases n
  {
    if n > 0 {
      var p := n - 1;
      var y0, k0, f0 := Sweep1(x, pin, p, v), Kept1(pin, p), Forced1(pin, p, v);
      Sweep1Shape(x, pin, p, v, y0, k0, f0);
      if Selected(pin, p) {
        Write1Shape(x, y0, k0, f0, p, v, y, k, f);
      }
    }
  }

  /** A pull sweep y of x, as written or corrected, keeps the bits `KeptPull` names and sets the bits `ForcedPull` names. */
  lemma {:induction false} PullSweepShape(rule: PullRule, x: bv32, pin: bv32, n: bv32, v: bv32, y: bv32, k: bv32, f: bv32)
    requires n <= 16 && y == PullSweep(rule, x, pin, n, v) && k == KeptPull(rule, pin, n) && f == ForcedPull(rule, pin, n, v)
    ensures y == Update(x, k, f)
    decreases n
  {
    if n > 0 {
      var p := n - 1;
      var y0, k0, f0 := PullSweep(rule, x, pin, p, v), KeptPull(rule, pin, p), ForcedPull(rule, pin, p, v);
      PullSweepShape(rule, x, pin, p, v, y0, k0, f0);
      if Selected(pin, p) {
        PullStepShape(rule, x, y0, k0, f0, p, v, y, k, f);
      }
    }
  }

  /** A second two-bit sweep of the same code over the same pins leaves the first one's result. */
  lemma Sweep2Twice(x: bv32, pin: bv32, n: bv32, v: bv32, once: bv32, twice: bv32)
    requires n <= 16 && once == Sweep2(x, pin, n, v) && twice == Sweep2(once, pin, n, v)
    ensures twice == once
  {
    var k, f := Kept2(pin, n), Forced2(pin, n, v);
    Sweep2Shape(x, pin, n, v, once, k, f);
    Sweep2Shape(once, pin, n, v, twice, k, f);
    ShapeTwice(x, once, twice, k, f);
  }

  /** A second one-bit sweep of the same code over the same pins leaves the first one's result. */
  lemma Sweep1Twice(x: bv32, pin: bv32, n: bv32, v: bv32, once: bv32, twice: bv32)
    requires n <= 16 && once == Sweep1(x, pin, n, v) && twice == Sweep1(once, pin, n, v)
    ensures twice == once
  {
    var k, f := Kept1(pin, n), Forced1(pin, n, v);
    Sweep1Shape(x, pin, n, v, once, k, f);
    Sweep1Shape(once, pin, n, v, twice, k, f);
    ShapeTwice(x, once, twice, k, f);
  }

  /** A second pull sweep, as written or corrected, of the same code over the same pins leaves the first one's result. */
  lemma PullSweepTwice(rule: PullRule, x: bv32, pin: bv32, n: bv32, v: bv32, once: bv32, twice: bv32)
    requires n <= 16 && once == PullSweep(rule, x, pin, n, v) && twice == PullSweep(rule, once, pin, n, v)
    ensures twice == once
  {
    var k, f := KeptPull(rule, pin, n), ForcedPull(rule, pin, n, v);
    PullSweepShape(rule, x, pin, n, v, once, k, f);
    PullSweepShape(rule, once, pin, n, v, twice, k, f);
    ShapeTwice(x, once, twice, k, f);
  }

  /** Sweeping a code over the same pins twice is sweeping it once, whatever the code. */
  lemma Sweep2Idempotent(x: bv32, pin: bv32, n: bv32, v: bv32)
    requires n <= 16
    ensures Sweep2(Sweep2(x, pin, n, v), pin, n, v) == Sweep2(x, pin, n, v)
  {
    Sweep2Twice(x, pin, n, v, Sweep2(x, pin, n, v), Sweep2(Sweep2(x, pin, n, v), pin, n, v));
  }

  /** Sweeping a one-bit code over the same pins twice is sweeping it once, whatever the code. */
  lemma Sweep1Idempotent(x: bv32, pin: bv32, n: bv32, v: bv32)
    requires n <= 16
    ensures Sweep1(Sweep1(x, pin, n, v), pin, n, v) == Sweep1(x, pin, n, v)
  {
    Sweep1Twice(x, pin, n, v, Sweep1(x, pin, n, v), Sweep1(Sweep1(x, pin, n, v), pin, n, v));
  }

  /** The pull register, as written or corrected, is the same after a second identical sweep, whatever the pull. */
  lemma PullSweepIdempotent(rule: PullRule, x: bv32, pin: bv32, n: bv32, v: bv32)
    requires n <= 16
    ensures PullSweep(rule, PullSweep(rule, x, pin, n, v), pin, n, v) == PullSweep(rule, x, pin, n, v)
  {
    PullSweepTwice(rule, x, pin, n, v, PullSweep(rule, x, pin, n, v), PullSweep(rule, PullSweep(rule, x, pin, n, v), pin, n, v));
  }

  /** MODER, OSPEEDR and OTYPER after a second identical configuration. */
  lemma InitTwiceDrive(rule: PullRule, r: Regs, c: GpioInit)
    ensures var once := InitRegs(rule, r, c, GPIO_NUMBER);
      var twice := InitRegs(rule, once, c, GPIO_NUMBER);
      twice.moder == once.moder && twice.ospeedr == once.ospeedr && twice.otyper == once.otyper
  {
    var once := InitRegs(rule, r, c, GPIO_NUMBER);
    InitModerSweep(rule, r, c, GPIO_NUMBER);
    InitModerSweep(rule, once, c, GPIO_NUMBER);
    Sweep2Idempotent(r.moder, c.pin, GPIO_NUMBER, Code(c));
    InitSpeedSweep(rule, r, c, GPIO_NUMBER);
    InitSpeedSweep(rule, once, c, GPIO_NUMBER);
    Sweep2Idempotent(r.ospeedr, c.pin, GPIO_NUMBER, c.speed);
    InitTypeSweep(rule, r, c, GPIO_NUMBER);
    InitTypeSweep(rule, once, c, GPIO_NUMBER);
    Sweep1Idempotent(r.otyper, c.pin, GPIO_NUMBER, OutputType(c));
  }

  /** PURDR after a second identical configuration. */
  lemma InitTwicePull(rule: PullRule, r: Regs, c: GpioInit)
    ensures var once := InitRegs(rule, r, c, GPIO_NUMBER);
      InitRegs(rule, once, c, GPIO_NUMBER).purdr == once.purdr
  {
    var once := InitRegs(rule, r, c, GPIO_NUMBER);
    InitPullSweep(rule, r, c, GPIO_NUMBER);
    InitPullSweep(rule, once, c, GPIO_NUMBER);
    PullSweepIdempotent(rule, r.purdr, c.pin, GPIO_NUMBER, c.pull);
  }

  /**
   * Configuring the same pins twice with the same settings leaves the
   * registers as configuring them once does, for every speed and pull
   * code, with the pull update as written or corrected.
   */
  lemma InitIdempotent(rule: PullRule, r: Regs, c: GpioInit)
    ensures var once := InitRegs(rule, r, c, GPIO_NUMBER);
      InitRegs(rule, once, c, GPIO_NUMBER) == once
  {
    var once := InitRegs(rule, r, c, GPIO_NUMBER);
    InitTwiceDrive(rule, r, c);
    InitTwicePull(rule, r, c);
    InitOthersKept(rule, once, c, GPIO_NUMBER);
  }

  // ---------------------------------------------------------------------
  // Only the sixteen pin bits matter
  // ---------------------------------------------------------------------

  /** A pin p < 16 is selected by a mask exactly when it is selected by the mask's low half. */
  lemma SelectedLowHalf(pin: bv32, p: bv32)
    requires p < 16
    ensures Selected(pin, p) == Selected(pin & 0xFFFF, p)
  {
  }

  /**
   * The loop body for position p reads of the configuration only its mode,
   * speed and pull, and whether it selects p.
   */
  lemma PinRegsSameSettings(rule: PullRule, s: Regs, c: GpioInit, d: GpioInit, p: bv32)
    requires p < 16
    requires c.mode == d.mode && c.speed == d.speed && c.pull == d.pull
    requires Selected(c.pin, p) == Selected(d.pin, p)
    ensures PinRegs(rule, s, c, p) == PinRegs(rule, s, d, p)
  {
    assert Code(c) == Code(d) && OutputType(c) == OutputType(d);
  }

  /** The loop body for one position sees only the low half of the pin mask. */
  lemma PinRegsLowHalf(rule: PullRule, s: Regs, c: GpioInit, p: bv32)
    requires p < 16
    ensures PinRegs(rule, s, c, p) == PinRegs(rule, s, c.(pin := c.pin & 0xFFFF), p)
  {
    SelectedLowHalf(c.pin, p);
    PinRegsSameSettings(rule, s, c, c.(pin := c.pin & 0xFFFF), p);
  }

  /** Bits 16 to 31 of the pin mask have no effect: the loop stops at `GPIO_NUMBER`. */
  lemma {:induction false} InitIgnoresHighPinBits(rule: PullRule, r: Regs, c: GpioInit, n: bv32)
    requires n <= 16
    ensures InitRegs(rule, r, c, n) == InitRegs(rule, r, c.(pin := c.pin & 0xFFFF), n)
    decreases n
  {
    if n > 0 {
      InitIgnoresHighPinBits(rule, r, c, n - 1);
      PinRegsLowHalf(rule, InitRegs(rule, r, c, n - 1), c, n - 1);
    }
  }

  // ---------------------------------------------------------------------
  // Order of the stores
  // ---------------------------------------------------------------------

  /** The place of a register store within one turn of the loop. */
  function Rank(reg: Device.GpioReg): (k: nat)
    ensures reg == Device.MODER <==> k == 3
  {
    match reg
    case OSPEEDR => 0
    case OTYPER => 1
    case PURDR => 2
    case MODER => 3
    case _ => 4
  }

  /** Store a comes before store b: a lower pin, or the same pin and an earlier stage. */
  predicate Before(a: RegWrite, b: RegWrite)
  {
    a.position < b.position || (a.position == b.position && Rank(a.reg) < Rank(b.reg))
  }

  /** Every store comes before every later one in the sequence. */
  predicate Ordered(ws: seq<RegWrite>)
  {
    forall i, j :: 0 <= i < j < |ws| ==> Before(ws[i], ws[j])
  }

  /** Two ordered runs, every store of the first before every store of the second, make an ordered run. */
  lemma OrderedAppend(a: seq<RegWrite>, b: seq<RegWrite>)
    requires Ordered(a) && Ordered(b)
    requires forall x, y :: x in a && y in b ==> Before(x, y)
    ensures Ordered(a + b)
  {
    forall i, j | 0 <= i < j < |a + b|
      ensures Before((a + b)[i], (a + b)[j])
    {
      if j < |a| {
        assert Before(a[i], a[j]);
      } else if i < |a| {
        assert a[i] in a && b[j - |a|] in b;
      } else {
        assert Before(b[i - |a|], b[j - |a|]);
      }
    }
  }

  /** Every store in ws is at position p, with a rank in lo .. hi. */
  predicate AtStages(ws: seq<RegWrite>, p: bv32, lo: nat, hi: nat)
  {
    forall w :: w in ws ==> w.position == p && lo <= Rank(w.reg) <= hi
  }

  /** The speed and output-type stores: none, or OSPEEDR then OTYPER for a driving mode. */
  lemma DriveWritesShape(s: Regs, c: GpioInit, p: bv32)
    requires p < 16
    ensures var ws := DriveWrites(s, c, p);
      |ws| == (if DrivesPin(c) then 2 else 0) && AtStages(ws, p, 0, 1) && Ordered(ws)
  {
  }

  /** The pull store: PURDR, unless the mode is analog. */
  lemma PullWritesShape(rule: PullRule, s: Regs, c: GpioInit, p: bv32)
    requires p < 16
    ensures var ws := PullWrites(rule, s, c, p);
      |ws| == (if HasPull(c) then 1 else 0) && AtStages(ws, p, 2, 2) && Ordered(ws)
  {
  }

  /** Stores at one position whose stage ranks are separated come in order. */
  lemma StagesAppend(a: seq<RegWrite>, b: seq<RegWrite>, p: bv32, lo: nat, mid: nat, hi: nat)
    requires Ordered(a) && Ordered(b) && lo <= mid < hi
    requires AtStages(a, p, lo, mid) && AtStages(b, p, mid + 1, hi)
    ensures Ordered(a + b) && AtStages(a + b, p, lo, hi)
  {
    OrderedAppend(a, b);
  }

  /**
   * One turn of the loop for a selected pin p stores, all at position p
   * and in this order, OSPEEDR and OTYPER for a driving mode, PURDR unless
   * the mode is analog, and MODER last.
   */
  lemma PinWritesShape(rule: PullRule, s: Regs, c: GpioInit, p: bv32)
    requires p < 16
    ensures var ws := PinWrites(rule, s, c, p);
      && |ws| == (if DrivesPin(c) then 2 else 0) + (if HasPull(c) then 1 else 0) + 1
      && ws[|ws| - 1].reg == Device.MODER
      && (forall w :: w in ws ==> w.position == p)
      && Ordered(ws)
  {
    var s1 := DriveRegs(s, c, p);
    var drive := DriveWrites(s, c, p);
    var pull := PullWrites(rule, s1, c, p);
    var mode := [ModeWrite(PullRegs(rule, s1, c, p), c, p)];
    assert PinWrites(rule, s, c, p) == drive + pull + mode;
    DriveWritesShape(s, c, p);
    PullWritesShape(rule, s1, c, p);
    StagesAppend(drive, pull, p, 0, 1, 2);
    assert AtStages(mode, p, 3, 3);
    StagesAppend(drive + pull, mode, p, 0, 2, 3);
  }

  /** Every store in ws is at a position below n that `pin` selects. */
  predicate Visited(ws: seq<RegWrite>, pin: bv32, n: bv32)
    requires n <= 16
  {
    forall w :: w in ws ==> w.position < n && Selected(pin, w.position)
  }

  /** Every position below n that `pin` selects has its MODER store in ws. */
  ghost predicate Covered(ws: seq<RegWrite>, pin: bv32, n: bv32)
    requires n <= 16
  {
    forall q: bv32 :: q < n && Selected(pin, q) ==>
      exists w :: w in ws && w.position == q && w.reg == Device.MODER
  }

  /**
   * Appending the stores of the turn for position p, if any, to ordered
   * stores of the positions below p keeps them ordered and visited.
   */
  lemma AppendTurn(before: seq<RegWrite>, turn: seq<RegWrite>, pin: bv32, p: bv32)
    requires p < 16 && Ordered(before) && Visited(before, pin, p)
    requires Ordered(turn) && (turn != [] ==> Selected(pin, p))
    requires forall w :: w in turn ==> w.position == p
    ensures Ordered(before + turn) && Visited(before + turn, pin, p + 1)
  {
    forall x, y | x in before && y in turn
      ensures Before(x, y)
    {
    }
    OrderedAppend(before, turn);
  }

  /**
   * Appending a turn that stores MODER at p, when p is selected, to stores
   * covering the positions below p covers the positions below p + 1.
   */
  lemma AppendCovers(before: seq<RegWrite>, turn: seq<RegWrite>, pin: bv32, p: bv32)
    requires p < 16 && Covered(before, pin, p)
    requires Selected(pin, p) ==> exists w :: w in turn && w.position == p && w.reg == Device.MODER
    ensures Covered(before + turn, pin, p + 1)
  {
    forall q: bv32 | q < p + 1 && Selected(pin, q)
      ensures exists w :: w in before + turn && w.position == q && w.reg == Device.MODER
    {
      if q < p {
        var w :| w in before && w.position == q && w.reg == Device.MODER;
        assert w in before + turn;
      } else {
        var w :| w in turn && w.position == p && w.reg == Device.MODER;
        assert w in before + turn;
      }
    }
  }

  /**
   * The stores made while visiting pins 0 .. n-1 are ordered, and each
   * is at a selected position below n.
   */
  lemma {:induction false} InitTraceOrdered(rule: PullRule, r: Regs, c: GpioInit, n: bv32)
    requires n <= 16
    ensures Ordered(InitTrace(rule, r, c, n)) && Visited(InitTrace(rule, r, c, n), c.pin, n)
    decreases n
  {
    if n > 0 {
      var p := n - 1;
      InitTraceOrdered(rule, r, c, p);
      var turn := if Selected(c.pin, p) then PinWrites(rule, InitRegs(rule, r, c, p), c, p) else [];
      InitTraceNext(rule, r, c, p);
      assert p + 1 == n;
      if Selected(c.pin, p) {
        PinWritesShape(rule, InitRegs(rule, r, c, p), c, p);
      }
      AppendTurn(InitTrace(rule, r, c, p), turn, c.pin, p);
    }
  }

  /** Every selected position below n has its MODER store among the stores made while visiting pins 0 .. n-1. */
  lemma {:induction false} InitTraceCovers(rule: PullRule, r: Regs, c: GpioInit, n: bv32)
    requires n <= 16
    ensures Covered(InitTrace(rule, r, c, n), c.pin, n)
    decreases n
  {
    if n > 0 {
      var p := n - 1;
      InitTraceCovers(rule, r, c, p);
      var turn := if Selected(c.pin, p) then PinWrites(rule, InitRegs(rule, r, c, p), c, p) else [];
      InitTraceNext(rule, r, c, p);
      assert p + 1 == n;
      if Selected(c.pin, p) {
        var s := InitRegs(rule, r, c, p);
        assert ModeWrite(PullRegs(rule, DriveRegs(s, c, p), c, p), c, p) in turn;
      }
      AppendCovers(InitTrace(rule, r, c, p), turn, c.pin, p);
    }
  }
}
