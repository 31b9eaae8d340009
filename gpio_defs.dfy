/**
 * The encodings of the GPIO driver header
 * (Drivers/HAL_Driver/Inc/stm32f4xx_hal_gpio.h): pin masks, the packed
 * mode word, speed and pull codes, `GPIO_PinState`, the init structure
 * and `IS_GPIO_PIN`.
 */
module GpioDefs {

  // ---------------------------------------------------------------------
  // Pins
  // ---------------------------------------------------------------------

  /** `GPIO_PIN_0` .. `GPIO_PIN_15`, as the header lists them (16-bit). */
  const GPIO_PIN: seq<bv16> := [
    0x0001, 0x0002, 0x0004, 0x0008, 0x0010, 0x0020, 0x0040, 0x0080,
    0x0100, 0x0200, 0x0400, 0x0800, 0x1000, 0x2000, 0x4000, 0x8000]

  const GPIO_PIN_ALL: bv16 := 0xFFFF

  /** `GPIO_PIN_MASK`: the sixteen pin bits of a 32-bit word. */
  const GPIO_PIN_MASK: bv32 := 0x0000_FFFF

  /** The listed value of pin n is bit n. */
  lemma PinIsBit(n: nat)
    requires n < |GPIO_PIN|
    ensures GPIO_PIN[n] == (1 as bv16) << n
  {
  }

  /** `GPIO_PIN_0 | ... | GPIO_PIN_(k-1)`. */
  function PinUnion(k: nat): bv16
    requires k <= |GPIO_PIN|
  {
    if k == 0 then 0 else PinUnion(k - 1) | GPIO_PIN[k - 1]
  }

  /** The first k pin masks together are the low k bits ... */
  lemma {:induction false} PinUnionIsLowBits(k: nat)
    requires k <= |GPIO_PIN|
    ensures PinUnion(k) == ((1 as bv16) << k) - 1
  {
    if k > 0 {
      PinUnionIsLowBits(k - 1);
      PinIsBit(k - 1);
    }
  }

  /** ... so all sixteen together are `GPIO_PIN_ALL`. */
  lemma PinAllIsUnion()
    ensures PinUnion(16) == GPIO_PIN_ALL
  {
    PinUnionIsLowBits(16);
  }

  /**
   * `IS_GPIO_PIN(PIN)`: some pin bit is set and nothing above bit 15 is.
   * Equivalently, the value is a nonzero 16-bit pin set.
   */
  function IsGpioPin(p: bv32): (ok: bool)
    ensures ok <==> 0 < p <= 0xFFFF
  {
    (p & GPIO_PIN_MASK) != 0 && (p & !GPIO_PIN_MASK) == 0
  }

  // ---------------------------------------------------------------------
  // Mode word: MODER code in bits 0-1, output type in bit 4
  // ---------------------------------------------------------------------

  const GPIO_MODE_Pos: bv32 := 0
  const GPIO_MODE: bv32 := 0x3 << GPIO_MODE_Pos
  const MODE_INPUT: bv32 := 0x0 << GPIO_MODE_Pos
  const MODE_OUTPUT: bv32 := 0x1 << GPIO_MODE_Pos
  const MODE_AF: bv32 := 0x2 << GPIO_MODE_Pos
  const MODE_ANALOG: bv32 := 0x3 << GPIO_MODE_Pos
  const OUTPUT_TYPE_Pos: bv32 := 4
  const OUTPUT_TYPE: bv32 := 0x1 << OUTPUT_TYPE_Pos
  const OUTPUT_PP: bv32 := 0x0 << OUTPUT_TYPE_Pos
  const OUTPUT_OD: bv32 := 0x1 << OUTPUT_TYPE_Pos

  const GPIO_MODE_INPUT: bv32 := MODE_INPUT
  const GPIO_MODE_OUTPUT_PP: bv32 := MODE_OUTPUT | OUTPUT_PP
  const GPIO_MODE_OUTPUT_OD: bv32 := MODE_OUTPUT | OUTPUT_OD
  const GPIO_MODE_AF_PP: bv32 := MODE_AF | OUTPUT_PP
  const GPIO_MODE_AF_OD: bv32 := MODE_AF | OUTPUT_OD
  const GPIO_MODE_ANALOG: bv32 := MODE_ANALOG

  /** The six exported pin modes. */
  datatype Mode = Input | OutputPP | OutputOD | AfPP | AfOD | Analog

  /** The MODER code a mode selects: input 00, output 01, alternate 10, analog 11. */
  function ModerCode(m: Mode): (code: bv32)
    ensures code <= 3
  {
    match m
    case Input => 0 case OutputPP => 1 case OutputOD => 1
    case AfPP => 2 case AfOD => 2 case Analog => 3
  }

  /** The OTYPER bit a mode selects: 1 for open drain, 0 otherwise. */
  function OutputTypeBit(m: Mode): (b: bv32)
    ensures b <= 1
  {
    if m == OutputOD || m == AfOD then 1 else 0
  }

  /** `GPIO_MODE_*`: the exported constant of each mode. */
  function ModeWord(m: Mode): (w: bv32)
    ensures w & GPIO_MODE == ModerCode(m)
    ensures (w & OUTPUT_TYPE) >> OUTPUT_TYPE_Pos == OutputTypeBit(m)
  {
    match m
    case Input => GPIO_MODE_INPUT
    case OutputPP => GPIO_MODE_OUTPUT_PP
    case OutputOD => GPIO_MODE_OUTPUT_OD
    case AfPP => GPIO_MODE_AF_PP
    case AfOD => GPIO_MODE_AF_OD
    case Analog => GPIO_MODE_ANALOG
  }

  /**
   * Decodes a mode word into one of the exported modes, or `None` when
   * the word is none of the six constants.
   */
  function ModeOf(w: bv32): (m: Option<Mode>)
    ensures m.Some? ==> ModeWord(m.value) == w
  {
    if w == GPIO_MODE_INPUT then Some(Input)
    else if w == GPIO_MODE_OUTPUT_PP then Some(OutputPP)
    else if w == GPIO_MODE_OUTPUT_OD then Some(OutputOD)
    else if w == GPIO_MODE_AF_PP then Some(AfPP)
    else if w == GPIO_MODE_AF_OD then Some(AfOD)
    else if w == GPIO_MODE_ANALOG then Some(Analog)
    else None
  }

  datatype Option<T> = None | Some(value: T)

  /**
   * The exported mode constants are pairwise distinct: decoding a mode's
   * word gives that mode back, so no two modes share a word.
   */
  lemma {:induction false} ModeWordRoundTrip(m: Mode, n: Mode)
    ensures ModeOf(ModeWord(m)) == Some(m)
    ensures ModeWord(m) == ModeWord(n) ==> m == n
  {
    match m case _ =>
    match n case _ =>
  }

  /** A word decodes to a mode exactly when it is one of the exported constants. */
  lemma {:induction false} ModeOfIsExact(w: bv32)
    ensures ModeOf(w).Some? <==> exists m: Mode :: ModeWord(m) == w
  {
    if exists m: Mode :: ModeWord(m) == w {
      var m: Mode :| ModeWord(m) == w;
      ModeWordRoundTrip(m, m);
    }
  }

  // ---------------------------------------------------------------------
  // Speed, pull, pin state, init structure
  // ---------------------------------------------------------------------

  const GPIO_SPEED_FREQ_LOW: bv32 := 0x0
  const GPIO_SPEED_FREQ_MEDIUM: bv32 := 0x1
  const GPIO_SPEED_FREQ_HIGH: bv32 := 0x2
  const GPIO_SPEED_FREQ_VERY_HIGH: bv32 := 0x3

  const GPIO_NOPULL: bv32 := 0x0
  const GPIO_PULLUP: bv32 := 0x1
  const GPIO_PULLDOWN: bv32 := 0x2

  const SPEEDS: seq<bv32> :=
    [GPIO_SPEED_FREQ_LOW, GPIO_SPEED_FREQ_MEDIUM, GPIO_SPEED_FREQ_HIGH, GPIO_SPEED_FREQ_VERY_HIGH]
  const PULLS: seq<bv32> := [GPIO_NOPULL, GPIO_PULLUP, GPIO_PULLDOWN]

  /** Every speed and pull code is distinct from the others and fits a two-bit field. */
  lemma CodesFitTwoBits()
    ensures forall i :: 0 <= i < |SPEEDS| ==> SPEEDS[i] <= 3 && SPEEDS[i] == i as bv32
    ensures forall i :: 0 <= i < |PULLS| ==> PULLS[i] <= 3 && PULLS[i] == i as bv32
  {
  }

  /** `GPIO_PinState`. */
  datatype PinState = PinReset | PinSet {
    /** GPIO_PIN_RESET = 0, GPIO_PIN_SET = 1. */
    function Value(): (v: bv32)
      ensures v <= 1
      ensures (v == 0) == PinReset?
    {
      if PinReset? then 0 else 1
    }
  }

  /** `GPIO_InitTypeDef`: every member is a 32-bit word. */
  datatype GpioInit = GpioInit(pin: bv32, mode: bv32, pull: bv32, speed: bv32, alternate: bv32)
}
