/**
 * The clock-control macros of Drivers/HAL_Driver/Inc/stm32f4xx_hal_rcc.h:
 * the GPIO port clock enables, the HSE oscillator configuration, and the
 * two read-only tests of the ready flags and of the system clock source.
 *
 * The macros act on `RCC->CR`, `RCC->CFGR` and `RCC->AHB1ENR` through
 * `SET_BIT`, `CLEAR_BIT` and `READ_BIT`, so those three registers are
 * `Register` objects and the macros that store are methods on a block
 * holding them.
 */
module Rcc {
  import opened Bits
  import opened Device
  import opened GpioDefs

  /** `RCC_HSE_Config`: the states `__HAL_RCC_HSE_CONFIG` recognises. */
  const RCC_HSE_OFF: bv32 := 0x0
  const RCC_HSE_ON: bv32 := RCC_CR_HSEON
  const RCC_HSE_BYPASS: bv32 := RCC_CR_HSEBYP | RCC_CR_HSEON

  /** `RCC_FLAG`: the flag codes `__HAL_RCC_GET_FLAG` recognises. */
  const RCC_FLAG_HSIRDY: bv32 := 0x1
  const RCC_FLAG_HSERDY: bv32 := 0x2
  const RCC_FLAG_PLLRDY: bv32 := 0x3

  /** The three HSE states are distinct, so the macro's three branches never overlap. */
  lemma HseStatesDistinct()
    ensures RCC_HSE_ON != RCC_HSE_OFF && RCC_HSE_BYPASS != RCC_HSE_OFF && RCC_HSE_ON != RCC_HSE_BYPASS
  {
  }

  // ---------------------------------------------------------------------
  // GPIO clock enable
  // ---------------------------------------------------------------------

  /** AHB1ENR after `__HAL_RCC_GPIOx_CLK_ENABLE()`. */
  function ClockEnabled(ahb1enr: bv32, p: Port): bv32
  {
    ahb1enr | GpioEn(p)
  }

  /**
   * Enabling port p's clock sets bit `p.Index()` of AHB1ENR and leaves
   * every other bit, in particular every other port's enable bit, as it
   * was.
   */
  lemma ClockEnableSetsOneBit(x: bv32, p: Port, q: Port)
    ensures ClockEnabled(x, p) & ((1 as bv32) << p.Index()) != 0
    ensures ClockEnabled(x, p) & !((1 as bv32) << p.Index()) == x & !((1 as bv32) << p.Index())
    ensures p != q ==> ReadBits(ClockEnabled(x, p), GpioEn(q)) == ReadBits(x, GpioEn(q))
  {
    GpioEnBits(p, q);
    OrSets(x, GpioEn(p));
    if p != q {
      OrKeeps(x, GpioEn(p), GpioEn(q));
    }
  }

  /** Or-ing in bits b sets them and keeps every other bit. */
  lemma OrSets(x: bv32, b: bv32)
    ensures (x | b) & b == b
    ensures (x | b) & !b == x & !b
  {
  }

  /** Or-ing in bits b keeps any bits c disjoint from b. */
  lemma OrKeeps(x: bv32, b: bv32, c: bv32)
    requires b & c == 0
    ensures (x | b) & c == x & c
  {
  }

  /** Or-ing is idempotent and commutes. */
  lemma OrLaws(x: bv32, b: bv32, c: bv32)
    ensures (x | b) | b == x | b
    ensures (x | b) | c == (x | c) | b
  {
  }

  /** Enabling a clock twice is enabling it once, and enables of two ports commute. */
  lemma ClockEnableLaws(x: bv32, p: Port, q: Port)
    ensures ClockEnabled(ClockEnabled(x, p), p) == ClockEnabled(x, p)
    ensures ClockEnabled(ClockEnabled(x, p), q) == ClockEnabled(ClockEnabled(x, q), p)
  {
    OrLaws(x, GpioEn(p), GpioEn(q));
  }

  // ---------------------------------------------------------------------
  // HSE configuration
  // ---------------------------------------------------------------------

  /** CR after `__HAL_RCC_HSE_CONFIG(state)`. */
  function HseConfigured(cr: bv32, state: bv32): bv32
  {
    if state == RCC_HSE_ON then cr | RCC_CR_HSEON
    else if state == RCC_HSE_BYPASS then (cr | RCC_CR_HSEBYP) | RCC_CR_HSEON
    else if state == RCC_HSE_OFF then (cr & !RCC_CR_HSEON) & !RCC_CR_HSEBYP
    else cr
  }

  /** The values `__HAL_RCC_HSE_CONFIG(state)` stores into CR, in program order. */
  function HseStores(cr: bv32, state: bv32): seq<bv32>
  {
    if state == RCC_HSE_ON then [cr | RCC_CR_HSEON]
    else if state == RCC_HSE_BYPASS then [cr | RCC_CR_HSEBYP, (cr | RCC_CR_HSEBYP) | RCC_CR_HSEON]
    else if state == RCC_HSE_OFF then [cr & !RCC_CR_HSEON, (cr & !RCC_CR_HSEON) & !RCC_CR_HSEBYP]
    else []
  }

  // Closed forms of each recognised state, proved one state at a time.

  lemma HseOnForm(cr: bv32)
    ensures HseConfigured(cr, RCC_HSE_ON) == cr | RCC_CR_HSEON
    ensures HseStores(cr, RCC_HSE_ON) == [cr | RCC_CR_HSEON]
  {
  }

  lemma HseBypassForm(cr: bv32)
    ensures HseConfigured(cr, RCC_HSE_BYPASS) == (cr | RCC_CR_HSEBYP) | RCC_CR_HSEON
  {
  }

  lemma HseBypassStoresForm(cr: bv32)
    ensures HseStores(cr, RCC_HSE_BYPASS) == [cr | RCC_CR_HSEBYP, (cr | RCC_CR_HSEBYP) | RCC_CR_HSEON]
  {
  }

  lemma HseOffForm(cr: bv32)
    ensures HseConfigured(cr, RCC_HSE_OFF) == (cr & !RCC_CR_HSEON) & !RCC_CR_HSEBYP
  {
  }

  lemma HseOffStoresForm(cr: bv32)
    ensures HseStores(cr, RCC_HSE_OFF) == [cr & !RCC_CR_HSEON, (cr & !RCC_CR_HSEON) & !RCC_CR_HSEBYP]
  {
  }

  /** Two successive `SET_BIT`s leave the or of both masks. */
  lemma SetTwice(cr: bv32, v1: bv32, v2: bv32, a: bv32, b: bv32)
    requires v1 == SetBits(cr, a) && v2 == SetBits(v1, b)
    ensures v1 == cr | a && v2 == (cr | a) | b
  {
  }

  /** Two successive `CLEAR_BIT`s clear both masks. */
  lemma ClearTwice(cr: bv32, v1: bv32, v2: bv32, a: bv32, b: bv32)
    requires v1 == ClearBits(cr, a) && v2 == ClearBits(v1, b)
    ensures v1 == cr & !a && v2 == (cr & !a) & !b
  {
  }

  /**
   * The values the macro's stores leave in CR, for each recognised state:
   * `v1` after the first `SET_BIT`/`CLEAR_BIT`, `v2` after the second.
   */
  lemma HseOnStores(cr: bv32, state: bv32, v1: bv32)
    requires state == RCC_HSE_ON
    requires v1 == SetBits(cr, RCC_CR_HSEON)
    ensures v1 == HseConfigured(cr, state) && [v1] == HseStores(cr, state)
  {
    HseOnForm(cr);
  }

  lemma HseBypassStores(cr: bv32, state: bv32, v1: bv32, v2: bv32)
    requires state == RCC_HSE_BYPASS
    requires v1 == SetBits(cr, RCC_CR_HSEBYP) && v2 == SetBits(v1, RCC_CR_HSEON)
    ensures v2 == HseConfigured(cr, state) && [v1, v2] == HseStores(cr, state)
  {
    SetTwice(cr, v1, v2, RCC_CR_HSEBYP, RCC_CR_HSEON);
    HseBypassForm(cr);
    HseBypassStoresForm(cr);
  }

  lemma HseOffStores(cr: bv32, state: bv32, v1: bv32, v2: bv32)
    requires state == RCC_HSE_OFF
    requires v1 == ClearBits(cr, RCC_CR_HSEON) && v2 == ClearBits(v1, RCC_CR_HSEBYP)
    ensures v2 == HseConfigured(cr, state) && [v1, v2] == HseStores(cr, state)
  {
    ClearTwice(cr, v1, v2, RCC_CR_HSEON, RCC_CR_HSEBYP);
    HseOffForm(cr);
    HseOffStoresForm(cr);
  }

  /** `RCC_HSE_ON` sets HSEON (bit 16) and no other bit. */
  lemma HseOnEffect(cr: bv32)
    ensures Bit(HseConfigured(cr, RCC_HSE_ON), 16) == 1
    ensures HseConfigured(cr, RCC_HSE_ON) & !RCC_CR_HSEON == cr & !RCC_CR_HSEON
  {
    HseOnForm(cr);
  }

  /** `RCC_HSE_BYPASS` leaves HSEBYP (bit 18) and HSEON (bit 16) set and no other bit changed. */
  lemma HseBypassEffect(cr: bv32)
    ensures Bit(HseConfigured(cr, RCC_HSE_BYPASS), 16) == 1 && Bit(HseConfigured(cr, RCC_HSE_BYPASS), 18) == 1
    ensures HseConfigured(cr, RCC_HSE_BYPASS) & !RCC_HSE_BYPASS == cr & !RCC_HSE_BYPASS
  {
    HseBypassForm(cr);
  }

  /** `RCC_HSE_OFF` leaves HSEON and HSEBYP clear and no other bit changed. */
  lemma HseOffEffect(cr: bv32)
    ensures Bit(HseConfigured(cr, RCC_HSE_OFF), 16) == 0 && Bit(HseConfigured(cr, RCC_HSE_OFF), 18) == 0
    ensures HseConfigured(cr, RCC_HSE_OFF) & !RCC_HSE_BYPASS == cr & !RCC_HSE_BYPASS
  {
    HseOffForm(cr);
  }

  /** Any other state value leaves CR as it was and stores nothing. */
  lemma HseOtherStateIgnored(cr: bv32, state: bv32)
    requires state != RCC_HSE_ON && state != RCC_HSE_BYPASS && state != RCC_HSE_OFF
    ensures HseConfigured(cr, state) == cr && HseStores(cr, state) == []
  {
  }

  /** What a configured CR agrees with the old one on: every bit but HSEON and HSEBYP. */
  predicate KeepsNonHseBits(cr: bv32, cr': bv32)
  {
    cr' & !RCC_HSE_BYPASS == cr & !RCC_HSE_BYPASS
  }

  lemma HseOnKeeps(cr: bv32, state: bv32)
    requires state == RCC_HSE_ON
    ensures KeepsNonHseBits(cr, HseConfigured(cr, state))
  {
    HseOnForm(cr);
  }

  lemma HseBypassKeeps(cr: bv32, state: bv32)
    requires state == RCC_HSE_BYPASS
    ensures KeepsNonHseBits(cr, HseConfigured(cr, state))
  {
    HseBypassForm(cr);
  }

  lemma HseOffKeeps(cr: bv32, state: bv32)
    requires state == RCC_HSE_OFF
    ensures KeepsNonHseBits(cr, HseConfigured(cr, state))
  {
    HseOffForm(cr);
  }

  /** Whatever the state, the macro changes no bit but HSEON and HSEBYP. */
  lemma HseKeeps(cr: bv32, state: bv32)
    ensures KeepsNonHseBits(cr, HseConfigured(cr, state))
  {
    if state == RCC_HSE_ON {
      HseOnKeeps(cr, state);
    } else if state == RCC_HSE_BYPASS {
      HseBypassKeeps(cr, state);
    } else if state == RCC_HSE_OFF {
      HseOffKeeps(cr, state);
    } else {
      HseOtherStateIgnored(cr, state);
    }
  }

  /** Any CR that keeps the non-HSE bits keeps the ready flags. */
  lemma KeepsReadyFlags(cr: bv32, cr': bv32)
    requires KeepsNonHseBits(cr, cr')
    ensures ReadBits(cr', RCC_CR_HSIRDY | RCC_CR_HSERDY | RCC_CR_PLLRDY)
         == ReadBits(cr, RCC_CR_HSIRDY | RCC_CR_HSERDY | RCC_CR_PLLRDY)
  {
  }

  /**
   * Whatever the state, the macro changes no bit but HSEON and HSEBYP; in
   * particular the ready flags HSIRDY, HSERDY and PLLRDY are never
   * written.
   */
  lemma HseTouchesOnlyHseBits(cr: bv32, state: bv32)
    ensures HseConfigured(cr, state) & !RCC_HSE_BYPASS == cr & !RCC_HSE_BYPASS
    ensures ReadBits(HseConfigured(cr, state), RCC_CR_HSIRDY | RCC_CR_HSERDY | RCC_CR_PLLRDY)
         == ReadBits(cr, RCC_CR_HSIRDY | RCC_CR_HSERDY | RCC_CR_PLLRDY)
  {
    HseKeeps(cr, state);
    KeepsReadyFlags(cr, HseConfigured(cr, state));
  }

  /** Bypass twice is bypass once. */
  lemma HseBypassTwice(cr: bv32)
    ensures HseConfigured(HseConfigured(cr, RCC_HSE_BYPASS), RCC_HSE_BYPASS) == HseConfigured(cr, RCC_HSE_BYPASS)
  {
  }

  /** Off twice is off once. */
  lemma HseOffTwice(cr: bv32)
    ensures HseConfigured(HseConfigured(cr, RCC_HSE_OFF), RCC_HSE_OFF) == HseConfigured(cr, RCC_HSE_OFF)
  {
  }

  /** Configuring the same state twice is configuring it once. */
  lemma HseIdempotent(cr: bv32, state: bv32)
    ensures HseConfigured(HseConfigured(cr, state), state) == HseConfigured(cr, state)
  {
    if state == RCC_HSE_BYPASS {
      HseBypassTwice(cr);
    } else if state == RCC_HSE_OFF {
      HseOffTwice(cr);
    }
  }

  lemma BypassFirstStore(cr: bv32)
    ensures ReadBits(cr | RCC_CR_HSEBYP, RCC_CR_HSEBYP) == RCC_CR_HSEBYP
    ensures ReadBits(cr | RCC_CR_HSEBYP, RCC_CR_HSEON) == ReadBits(cr, RCC_CR_HSEON)
  {
  }

  lemma OffFirstStore(cr: bv32)
    ensures ReadBits(cr & !RCC_CR_HSEON, RCC_CR_HSEON) == 0
    ensures ReadBits(cr & !RCC_CR_HSEON, RCC_CR_HSEBYP) == ReadBits(cr, RCC_CR_HSEBYP)
  {
  }

  /** Bypass's first store has HSEBYP set and HSEON as it was; its last is the final CR. */
  lemma HseBypassOrder(cr: bv32)
    ensures |HseStores(cr, RCC_HSE_BYPASS)| == 2
    ensures HseStores(cr, RCC_HSE_BYPASS)[1] == HseConfigured(cr, RCC_HSE_BYPASS)
    ensures ReadBits(HseStores(cr, RCC_HSE_BYPASS)[0], RCC_CR_HSEBYP) == RCC_CR_HSEBYP
    ensures ReadBits(HseStores(cr, RCC_HSE_BYPASS)[0], RCC_CR_HSEON) == ReadBits(cr, RCC_CR_HSEON)
  {
    HseBypassStoresForm(cr);
    HseBypassForm(cr);
    BypassFirstStore(cr);
  }

  /** Off's first store has HSEON clear and HSEBYP as it was; its last is the final CR. */
  lemma HseOffOrder(cr: bv32)
    ensures |HseStores(cr, RCC_HSE_OFF)| == 2
    ensures HseStores(cr, RCC_HSE_OFF)[1] == HseConfigured(cr, RCC_HSE_OFF)
    ensures ReadBits(HseStores(cr, RCC_HSE_OFF)[0], RCC_CR_HSEON) == 0
    ensures ReadBits(HseStores(cr, RCC_HSE_OFF)[0], RCC_CR_HSEBYP) == ReadBits(cr, RCC_CR_HSEBYP)
  {
    HseOffStoresForm(cr);
    HseOffForm(cr);
    OffFirstStore(cr);
  }

  /**
   * Bypass stores HSEBYP before HSEON: its first store has HSEBYP set and
   * HSEON as it was. Off stores the clear of HSEON first: its first store
   * has HSEON clear and HSEBYP as it was. In every state the last store
   * is the final CR.
   */
  lemma HseStoreOrder(cr: bv32, state: bv32)
    ensures |HseStores(cr, state)| > 0 ==> HseStores(cr, state)[|HseStores(cr, state)| - 1] == HseConfigured(cr, state)
    ensures state == RCC_HSE_BYPASS ==>
      |HseStores(cr, state)| == 2 &&
      ReadBits(HseStores(cr, state)[0], RCC_CR_HSEBYP) == RCC_CR_HSEBYP &&
      ReadBits(HseStores(cr, state)[0], RCC_CR_HSEON) == ReadBits(cr, RCC_CR_HSEON)
    ensures state == RCC_HSE_OFF ==>
      |HseStores(cr, state)| == 2 &&
      ReadBits(HseStores(cr, state)[0], RCC_CR_HSEON) == 0 &&
      ReadBits(HseStores(cr, state)[0], RCC_CR_HSEBYP) == ReadBits(cr, RCC_CR_HSEBYP)
  {
    if state == RCC_HSE_ON {
      HseOnForm(cr);
    } else if state == RCC_HSE_BYPASS {
      HseBypassOrder(cr);
    } else if state == RCC_HSE_OFF {
      HseOffOrder(cr);
    }
  }

  // ---------------------------------------------------------------------
  // Flags and clock source
  // ---------------------------------------------------------------------

  /** The CR bit that flag code `flag` names: HSIRDY bit 1, HSERDY bit 17, PLLRDY bit 25. */
  function ReadyBit(flag: bv32): (b: Option<bv32>)
    ensures b.Some? ==> b.value < 32
  {
    if flag == RCC_FLAG_HSIRDY then Some(1)
    else if flag == RCC_FLAG_HSERDY then Some(17)
    else if flag == RCC_FLAG_PLLRDY then Some(25)
    else None
  }

  /** What `RCC_CFGR_SWS` reports as the system clock. */
  datatype SysclkSource = Hsi | Hse | Pll | NotApplicable

  /** The system clock named by an SWS value: 0 HSI, 4 HSE, 8 PLL, 12 not applicable. */
  function DecodeSysclk(sws: bv32): SysclkSource
  {
    if sws == RCC_CFGR_SWS_HSI then Hsi
    else if sws == RCC_CFGR_SWS_HSE then Hse
    else if sws == RCC_CFGR_SWS_PLL then Pll
    else NotApplicable
  }

  // ---------------------------------------------------------------------
  // The RCC block
  // ---------------------------------------------------------------------

  /** The RCC registers the macros use. */
  class RccBlock {
    const CR: Register
    const CFGR: Register
    const AHB1ENR: Register

    /** The three registers are distinct objects, so storing to one leaves the others alone. */
    predicate Valid()
    {
      CR != CFGR && CR != AHB1ENR && CFGR != AHB1ENR
    }

    constructor (cr: bv32, cfgr: bv32, ahb1enr: bv32)
      ensures Valid()
      ensures CR.value == cr && CFGR.value == cfgr && AHB1ENR.value == ahb1enr
      ensures CR.Stores == [] && CFGR.Stores == [] && AHB1ENR.Stores == []
    {
      CR := new Register(cr);
      CFGR := new Register(cfgr);
      AHB1ENR := new Register(ahb1enr);
    }

    /**
     * `__HAL_RCC_GPIOx_CLK_ENABLE()` for x = A .. D: one store setting the
     * port's enable bit, then a read-back of that bit, which returns it.
     */
    method GpioClkEnable(p: Port) returns (tempreg: bv32)
      requires Valid() && p.Index() <= 3
      modifies AHB1ENR
      ensures AHB1ENR.value == ClockEnabled(old(AHB1ENR.value), p)
      ensures AHB1ENR.Stores == old(AHB1ENR.Stores) + [AHB1ENR.value]
      ensures tempreg == GpioEn(p) && tempreg != 0
      ensures CR.value == old(CR.value) && CFGR.value == old(CFGR.value)
    {
      tempreg := 0x0;
      AHB1ENR.SetBit(GpioEn(p));
      tempreg := AHB1ENR.ReadBit(GpioEn(p));
      ReadAfterSetOrClear(old(AHB1ENR.value), GpioEn(p));
    }

    /** `__HAL_RCC_HSE_CONFIG(state)`: the macro's stores into CR, in order. */
    method HseConfig(state: bv32)
      requires Valid()
      modifies CR
      ensures CR.value == HseConfigured(old(CR.value), state)
      ensures CR.Stores == old(CR.Stores) + HseStores(old(CR.value), state)
      ensures CFGR.value == old(CFGR.value) && AHB1ENR.value == old(AHB1ENR.value)
    {
      if state == RCC_HSE_ON {
        HseOn(state);
      } else if state == RCC_HSE_BYPASS {
        HseBypass(state);
      } else if state == RCC_HSE_OFF {
        HseOff(state);
      } else {
        HseOtherStateIgnored(CR.value, state);
      }
    }

    /** The `RCC_HSE_ON` branch: one `SET_BIT` of HSEON. */
    method HseOn(state: bv32)
      requires Valid() && state == RCC_HSE_ON
      modifies CR
      ensures CR.value == HseConfigured(old(CR.value), state)
      ensures CR.Stores == old(CR.Stores) + HseStores(old(CR.value), state)
    {
      ghost var cr := CR.value;
      CR.SetBit(RCC_CR_HSEON);
      HseOnStores(cr, state, CR.value);
    }

    /** The `RCC_HSE_BYPASS` branch: `SET_BIT` of HSEBYP, then of HSEON. */
    method HseBypass(state: bv32)
      requires Valid() && state == RCC_HSE_BYPASS
      modifies CR
      ensures CR.value == HseConfigured(old(CR.value), state)
      ensures CR.Stores == old(CR.Stores) + HseStores(old(CR.value), state)
    {
      ghost var cr := CR.value;
      CR.SetBit(RCC_CR_HSEBYP);
      ghost var v1 := CR.value;
      CR.SetBit(RCC_CR_HSEON);
      HseBypassStores(cr, state, v1, CR.value);
      assert CR.Stores == old(CR.Stores) + [v1, CR.value];
    }

    /** The `RCC_HSE_OFF` branch: `CLEAR_BIT` of HSEON, then of HSEBYP. */
    method HseOff(state: bv32)
      requires Valid() && state == RCC_HSE_OFF
      modifies CR
      ensures CR.value == HseConfigured(old(CR.value), state)
      ensures CR.Stores == old(CR.Stores) + HseStores(old(CR.value), state)
    {
      ghost var cr := CR.value;
      CR.ClearBit(RCC_CR_HSEON);
      ghost var v1 := CR.value;
      CR.ClearBit(RCC_CR_HSEBYP);
      HseOffStores(cr, state, v1, CR.value);
      assert CR.Stores == old(CR.Stores) + [v1, CR.value];
    }

    /**
     * `__HAL_RCC_GET_FLAG(flag)`: SET exactly when flag names a ready bit
     * and that bit of CR is 1; RESET for any other flag code.
     */
    function GetFlag(flag: bv32): (s: FlagStatus)
      reads CR
      ensures s == Set <==> ReadyBit(flag).Some? && Bit(CR.value, ReadyBit(flag).value) == 1
    {
      if flag == RCC_FLAG_HSIRDY then (if CR.value & RCC_CR_HSIRDY == RCC_CR_HSIRDY then Set else Reset)
      else if flag == RCC_FLAG_HSERDY then (if CR.value & RCC_CR_HSERDY == RCC_CR_HSERDY then Set else Reset)
      else if flag == RCC_FLAG_PLLRDY then (if CR.value & RCC_CR_PLLRDY == RCC_CR_PLLRDY then Set else Reset)
      else Reset
    }

    /**
     * `__HAL_RCC_GET_SYSCLK_SOURCE()`: the SWS field (bits 2-3) of CFGR in
     * place, so one of 0, 4, 8 and 12.
     */
    function GetSysclkSource(): (src: bv32)
      reads CFGR
      ensures src == ((CFGR.value >> 2) & 3) << 2
      ensures src == 0 || src == 4 || src == 8 || src == 12
    {
      CFGR.value & RCC_CFGR_SWS
    }
  }

  /**
   * The reported clock source is HSI, HSE or PLL exactly when bits 2-3 of
   * CFGR hold 0, 1 or 2.
   */
  lemma SysclkSourceDecodes(rcc: RccBlock)
    ensures DecodeSysclk(rcc.GetSysclkSource()) == Hsi <==> Field2(rcc.CFGR.value, 1) == 0
    ensures DecodeSysclk(rcc.GetSysclkSource()) == Hse <==> Field2(rcc.CFGR.value, 1) == 1
    ensures DecodeSysclk(rcc.GetSysclkSource()) == Pll <==> Field2(rcc.CFGR.value, 1) == 2
    ensures DecodeSysclk(rcc.GetSysclkSource()) == NotApplicable <==> Field2(rcc.CFGR.value, 1) == 3
  {
  }
}
