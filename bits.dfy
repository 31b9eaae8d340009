/**
 * Status enumerations and the bit-handling macros of the device header
 * (Drivers/CMSIS/Include/stm32f4xx.h), plus the named bit-range accessors
 * the rest of the model reads registers through.
 *
 * A register is a 32-bit word (`bv32`); C's `uint32_t` arithmetic is
 * modular, and so is Dafny's on `bv32`, so no explicit wrap-around is
 * needed.
 */
module Bits {

  /** `FlagStatus` / `ITStatus`: RESET = 0, SET = 1. */
  datatype FlagStatus = Reset | Set {
    function Value(): (v: bv32)
      ensures v <= 1
      ensures (v == 0) == Reset?
    {
      if Reset? then 0 else 1
    }
  }

  /** `FunctionalState`: DISABLE = 0, ENABLE = 1. */
  datatype FunctionalState = Disable | Enable {
    function Value(): (v: bv32)
      ensures v <= 1
      ensures (v == 0) == Disable?
    {
      if Disable? then 0 else 1
    }
  }

  /** `ErrorStatus`: SUCCESS = 0, ERROR = 1. */
  datatype ErrorStatus = Success | Error {
    function Value(): (v: bv32)
      ensures v <= 1
      ensures (v == 0) == Success?
    {
      if Success? then 0 else 1
    }
  }

  /** Two status values are equal exactly when their encodings are. */
  lemma {:induction false} StatusEncodingsInjective(a: FlagStatus, b: FlagStatus, c: FunctionalState, d: FunctionalState)
    ensures a.Value() == b.Value() ==> a == b
    ensures c.Value() == d.Value() ==> c == d
  {
    if a.Value() == b.Value() {
      assert (a.Value() == 0) == a.Reset? && (b.Value() == 0) == b.Reset?;
    }
    if c.Value() == d.Value() {
      assert (c.Value() == 0) == c.Disable? && (d.Value() == 0) == d.Disable?;
    }
  }

  // ---------------------------------------------------------------------
  // Value-level meaning of the macros
  // ---------------------------------------------------------------------

  /** The value `SET_BIT(REG, BIT)` stores: the bits of `b` set, all others kept. */
  function SetBits(r: bv32, b: bv32): (r': bv32)
    ensures r' & b == b
    ensures r' & !b == r & !b
  {
    r | b
  }

  /** The value `CLEAR_BIT(REG, BIT)` stores: the bits of `b` cleared, all others kept. */
  function ClearBits(r: bv32, b: bv32): (r': bv32)
    ensures r' & b == 0
    ensures r' & !b == r & !b
  {
    r & !b
  }

  /** The value of `READ_BIT(REG, BIT)`: the bits of `r` under `b`, zero elsewhere. */
  function ReadBits(r: bv32, b: bv32): (x: bv32)
    ensures x & !b == 0
    ensures x & b == r & b
  {
    r & b
  }

  /** Setting or clearing the same bits twice is the same as doing it once. */
  lemma SetClearIdempotent(r: bv32, b: bv32)
    ensures SetBits(SetBits(r, b), b) == SetBits(r, b)
    ensures ClearBits(ClearBits(r, b), b) == ClearBits(r, b)
  {
  }

  /** Reading back the bits just set gives them all; the bits just cleared give 0. */
  lemma ReadAfterSetOrClear(r: bv32, b: bv32)
    ensures ReadBits(SetBits(r, b), b) == b
    ensures ReadBits(ClearBits(r, b), b) == 0
  {
  }

  // ---------------------------------------------------------------------
  // Named bit-range accessors
  // ---------------------------------------------------------------------

  /** Bit `n` of `r`, as 0 or 1. */
  function Bit(r: bv32, n: bv32): (x: bv32)
    requires n < 32
    ensures x <= 1
  {
    (r >> n) & 1
  }

  /** The 2-bit field of pin `p` (bits 2p and 2p+1), as 0..3. */
  function Field2(r: bv32, p: bv32): (x: bv32)
    requires p < 16
    ensures x <= 3
  {
    (r >> (p * 2)) & 3
  }

  // ---------------------------------------------------------------------
  // A register as an object that the macros update in place
  // ---------------------------------------------------------------------

  /**
   * One memory-mapped 32-bit register. `SET_BIT`, `CLEAR_BIT` and
   * `CLEAR_REG` are compound assignments on it; `READ_BIT` and
   * `WRITE_REG` are expressions that leave it unchanged. `Stores` logs
   * every value stored, in program order, so that callers can state the
   * order of their writes.
   */
  class Register {
    var value: bv32
    ghost var Stores: seq<bv32>

    constructor (v: bv32)
      ensures value == v && Stores == []
    {
      value := v;
      Stores := [];
    }

    /** `SET_BIT(REG, BIT)`: `REG |= BIT`. */
    method SetBit(b: bv32)
      modifies this
      ensures value == SetBits(old(value), b)
      ensures Stores == old(Stores) + [value]
    {
      value := value | b;
      Stores := Stores + [value];
    }

    /** `CLEAR_BIT(REG, BIT)`: `REG &= ~BIT`. */
    method ClearBit(b: bv32)
      modifies this
      ensures value == ClearBits(old(value), b)
      ensures Stores == old(Stores) + [value]
    {
      value := value & !b;
      Stores := Stores + [value];
    }

    /** `CLEAR_REG(REG)`: `REG &= 0x0`, which leaves every bit 0. */
    method ClearReg()
      modifies this
      ensures value == 0
      ensures Stores == old(Stores) + [0]
    {
      value := value & 0;
      Stores := Stores + [value];
    }

    /** `READ_BIT(REG, BIT)`: the register is only read. */
    function ReadBit(b: bv32): (x: bv32)
      reads this
      ensures x == ReadBits(value, b)
    {
      value & b
    }

    /**
     * `WRITE_REG(REG, VAL)` as written: the macro expands to the
     * expression `(REG) & (VAL)`, so it stores nothing and evaluates to
     * the same value as `READ_BIT(REG, VAL)`.
     */
    function WriteReg(v: bv32): (x: bv32)
      reads this
      ensures x == ReadBit(v)
    {
      value & v
    }

    /**
     * The store `WRITE_REG` is evidently meant to perform, `REG = VAL`:
     * afterwards the whole register reads back as `v`.
     */
    method Store(v: bv32)
      modifies this
      ensures value == v && ReadBit(0xFFFF_FFFF) == v
      ensures Stores == old(Stores) + [v]
    {
      value := v;
      Stores := Stores + [v];
    }
  }

  /**
   * `WRITE_REG` as written does not store: on a register holding 0,
   * "writing" 5 evaluates to 0 and the register still holds 0, not 5.
   */
  lemma WriteRegStoresNothing(reg: Register)
    requires reg.value == 0
    ensures reg.WriteReg(5) == 0 && reg.value != 5
  {
  }
}
