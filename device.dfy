/**
 * The STM32F407 device description (Drivers/CMSIS/Include/stm32f407xx.h):
 * the register layouts of the GPIO and RCC blocks, the base addresses the
 * blocks are instantiated at, the per-pin register masks, the RCC bit
 * definitions, and the `IS_GPIO_ALL_INSTANCE` check. Nothing here changes
 * state.
 */
module Device {

  // ---------------------------------------------------------------------
  // Register layouts (`GPIO_TypeDef`, `RCC_TypeDef`)
  // ---------------------------------------------------------------------

  /** The members of `GPIO_TypeDef`. The header spells the pull register `PURDR`. */
  datatype GpioReg = MODER | OTYPER | OSPEEDR | PURDR | IDR | ODR | BSRR | LCKR | AFRL | AFRH

  /** `GPIO_TypeDef`: ten consecutive 32-bit registers, in declaration order. */
  const GPIO_LAYOUT: seq<GpioReg> := [MODER, OTYPER, OSPEEDR, PURDR, IDR, ODR, BSRR, LCKR, AFRL, AFRH]

  /** The members of `RCC_TypeDef`; `Reserved(k)` is a word of the padding array `RESERVEDk`. */
  datatype RccSlot =
    | CR | PLLCFGR | CFGR | CIR | AHB1RSTR | AHB2RSTR | AHB3RSTR
    | APB1RSTR | APB2RSTR | AHB1ENR | AHB2ENR | AHB3ENR | APB1ENR | APB2ENR
    | AHB1LPENR | AHB2LPENR | AHB3LPENR | APB1LPENR | APB2LPENR
    | BDCR | CSR | SSCGR | PLLI2SCFGR
    | Reserved(k: nat)

  /** `RCC_TypeDef`: 32-bit slots in declaration order, padding arrays unrolled. */
  const RCC_LAYOUT: seq<RccSlot> := [
    CR, PLLCFGR, CFGR, CIR, AHB1RSTR, AHB2RSTR, AHB3RSTR, Reserved(0),
    APB1RSTR, APB2RSTR, Reserved(1), Reserved(1),
    AHB1ENR, AHB2ENR, AHB3ENR, Reserved(2),
    APB1ENR, APB2ENR, Reserved(3), Reserved(3),
    AHB1LPENR, AHB2LPENR, AHB3LPENR, Reserved(4),
    APB1LPENR, APB2LPENR, Reserved(5), Reserved(5),
    BDCR, CSR, Reserved(6), Reserved(6),
    SSCGR, PLLI2SCFGR]

  /**
   * `offsetof(GPIO_TypeDef, r)`: the byte offset of a GPIO register, which
   * is four bytes per member declared before it.
   */
  function GpioOffset(r: GpioReg): (off: nat)
    ensures off % 4 == 0 && off / 4 < |GPIO_LAYOUT| && GPIO_LAYOUT[off / 4] == r
  {
    match r
    case MODER => 0x00 case OTYPER => 0x04 case OSPEEDR => 0x08 case PURDR => 0x0C
    case IDR => 0x10 case ODR => 0x14 case BSRR => 0x18 case LCKR => 0x1C
    case AFRL => 0x20 case AFRH => 0x24
  }

  /** `offsetof(RCC_TypeDef, s)` for the named (non-padding) members. */
  function RccOffset(s: RccSlot): nat
    requires !s.Reserved?
  {
    match s
    case CR => 0x00 case PLLCFGR => 0x04 case CFGR => 0x08 case CIR => 0x0C
    case AHB1RSTR => 0x10 case AHB2RSTR => 0x14 case AHB3RSTR => 0x18
    case APB1RSTR => 0x20 case APB2RSTR => 0x24
    case AHB1ENR => 0x30 case AHB2ENR => 0x34 case AHB3ENR => 0x38
    case APB1ENR => 0x40 case APB2ENR => 0x44
    case AHB1LPENR => 0x50 case AHB2LPENR => 0x54 case AHB3LPENR => 0x58
    case APB1LPENR => 0x60 case APB2LPENR => 0x64
    case BDCR => 0x70 case CSR => 0x74 case SSCGR => 0x80 case PLLI2SCFGR => 0x84
  }

  /** No two GPIO registers share an offset, and the block is 0x28 bytes long. */
  lemma {:induction false} GpioOffsetsDistinct(a: GpioReg, b: GpioReg)
    ensures GpioOffset(a) == GpioOffset(b) ==> a == b
    ensures GpioOffset(a) < 4 * |GPIO_LAYOUT| == 0x28
  {
    var oa, ob := GpioOffset(a), GpioOffset(b);
    assert GPIO_LAYOUT[oa / 4] == a && GPIO_LAYOUT[ob / 4] == b;
  }

  /** Each named RCC register's offset is word-aligned and lands on its own slot of the layout. */
  lemma RccOffsetInLayout(s: RccSlot)
    requires !s.Reserved?
    ensures RccOffset(s) % 4 == 0 && RccOffset(s) / 4 < |RCC_LAYOUT|
    ensures RCC_LAYOUT[RccOffset(s) / 4] == s
  {
    match s
    case CR => case PLLCFGR => case CFGR => case CIR =>
    case AHB1RSTR => case AHB2RSTR => case AHB3RSTR =>
    case APB1RSTR => case APB2RSTR =>
    case AHB1ENR => case AHB2ENR => case AHB3ENR =>
    case APB1ENR => case APB2ENR =>
    case AHB1LPENR => case AHB2LPENR => case AHB3LPENR =>
    case APB1LPENR => case APB2LPENR =>
    case BDCR => case CSR => case SSCGR => case PLLI2SCFGR =>
  }

  /** No two named RCC registers share an offset, and the block is 0x88 bytes long. */
  lemma {:induction false} RccOffsetsDistinct(a: RccSlot, b: RccSlot)
    requires !a.Reserved? && !b.Reserved?
    ensures RccOffset(a) == RccOffset(b) ==> a == b
    ensures RccOffset(a) < 4 * |RCC_LAYOUT| == 0x88
  {
    RccOffsetInLayout(a);
    RccOffsetInLayout(b);
    var oa, ob := RccOffset(a), RccOffset(b);
    assert RCC_LAYOUT[oa / 4] == a && RCC_LAYOUT[ob / 4] == b;
  }

  /** The padding words are exactly at the offsets named in the structure's comments. */
  lemma RccReservedOffsets()
    ensures forall i :: 0 <= i < |RCC_LAYOUT| ==>
      (RCC_LAYOUT[i].Reserved? <==>
       4 * i in {0x1C, 0x28, 0x2C, 0x3C, 0x48, 0x4C, 0x5C, 0x68, 0x6C, 0x78, 0x7C})
  {
  }

  // ---------------------------------------------------------------------
  // Memory map
  // ---------------------------------------------------------------------

  const PERIPH_BASE: nat := 0x4000_0000
  const AHB1PERIPH_BASE: nat := PERIPH_BASE + 0x0002_0000

  const GPIOA_BASE: nat := AHB1PERIPH_BASE + 0x0000
  const GPIOB_BASE: nat := AHB1PERIPH_BASE + 0x0400
  const GPIOC_BASE: nat := AHB1PERIPH_BASE + 0x0800
  const GPIOD_BASE: nat := AHB1PERIPH_BASE + 0x0C00
  const GPIOE_BASE: nat := AHB1PERIPH_BASE + 0x1000
  const GPIOF_BASE: nat := AHB1PERIPH_BASE + 0x1400
  const GPIOG_BASE: nat := AHB1PERIPH_BASE + 0x1800
  const GPIOH_BASE: nat := AHB1PERIPH_BASE + 0x1C00
  const GPIOI_BASE: nat := AHB1PERIPH_BASE + 0x2000
  const RCC_BASE: nat := AHB1PERIPH_BASE + 0x3800

  /** Size of the address window each AHB1 peripheral block occupies. */
  const BLOCK_WINDOW: nat := 0x400

  /** The nine GPIO ports, A to I. */
  datatype Port = A | B | C | D | E | F | G | H | I {
    /** Port A is 0, ..., port I is 8. */
    function Index(): (k: nat)
      ensures k < 9
    {
      match this
      case A => 0 case B => 1 case C => 2 case D => 3 case E => 4
      case F => 5 case G => 6 case H => 7 case I => 8
    }
  }

  /** `GPIOx_BASE`: the registry from port to the address of its register block. */
  function GpioBase(p: Port): (addr: nat)
  {
    match p
    case A => GPIOA_BASE case B => GPIOB_BASE case C => GPIOC_BASE
    case D => GPIOD_BASE case E => GPIOE_BASE case F => GPIOF_BASE
    case G => GPIOG_BASE case H => GPIOH_BASE case I => GPIOI_BASE
  }

  /** The GPIO blocks follow each other every 0x400 bytes from 0x4002_0000; RCC is at 0x4002_3800. */
  lemma BaseAddresses(p: Port)
    ensures GpioBase(p) == 0x4002_0000 + 0x400 * p.Index()
    ensures RCC_BASE == 0x4002_3800
  {
  }

  /** No two blocks' windows overlap, and each register structure fits in its window. */
  lemma {:induction false} WindowsDisjoint(p: Port, q: Port)
    ensures p != q ==> GpioBase(p) + BLOCK_WINDOW <= GpioBase(q) || GpioBase(q) + BLOCK_WINDOW <= GpioBase(p)
    ensures GpioBase(p) + BLOCK_WINDOW <= RCC_BASE
    ensures 4 * |GPIO_LAYOUT| <= BLOCK_WINDOW && 4 * |RCC_LAYOUT| <= BLOCK_WINDOW
  {
    BaseAddresses(p);
    BaseAddresses(q);
    assert p.Index() == q.Index() ==> p == q by {
      match p case _ => match q case _ =>
    }
  }

  /** `IS_GPIO_ALL_INSTANCE`: the address is one of the nine GPIO block addresses. */
  predicate IsGpioAllInstance(addr: nat)
  {
    addr == GPIOA_BASE || addr == GPIOB_BASE || addr == GPIOC_BASE ||
    addr == GPIOD_BASE || addr == GPIOE_BASE || addr == GPIOF_BASE ||
    addr == GPIOG_BASE || addr == GPIOH_BASE || addr == GPIOI_BASE
  }

  /** The instance check accepts exactly the addresses of the registry. */
  lemma {:induction false} GpioInstanceIsRegistered(addr: nat)
    ensures IsGpioAllInstance(addr) <==> exists p: Port :: GpioBase(p) == addr
  {
    if IsGpioAllInstance(addr) {
      var p :=
        if addr == GPIOA_BASE then A else if addr == GPIOB_BASE then B
        else if addr == GPIOC_BASE then C else if addr == GPIOD_BASE then D
        else if addr == GPIOE_BASE then E else if addr == GPIOF_BASE then F
        else if addr == GPIOG_BASE then G else if addr == GPIOH_BASE then H else I;
      assert GpioBase(p) == addr;
    }
  }

  // ---------------------------------------------------------------------
  // GPIO per-pin masks
  // ---------------------------------------------------------------------

  /** Pin-0 masks the configuration code shifts into place. */
  const GPIO_MODER_MODE0: bv32 := 0x3
  const GPIO_OTYPER_OT0: bv32 := 0x1
  const GPIO_OSPEEDR_OSPEEDR0_Msk: bv32 := 0x3
  const GPIO_PUPDR_PUPDR0: bv32 := 0x3

  /**
   * `_Pos` of pin `n` in a register with two bits per pin (MODER,
   * OSPEEDR, PUPDR): 0, 2, ..., 30.
   */
  function Pos2(n: bv32): bv32
    requires n < 16
  {
    n * 2
  }

  /** `_Msk` of pin `n` in MODER, OSPEEDR and PUPDR: `0x3 << _Pos`. */
  function Msk2(n: bv32): (m: bv32)
    requires n < 16
  {
    (0x3 as bv32) << Pos2(n)
  }

  /** `_Msk` of pin `n` in OTYPER, IDR and ODR, where `_Pos` is `n`: `0x1 << n`. */
  function Msk1(n: bv32): (m: bv32)
    requires n < 16
  {
    (0x1 as bv32) << n
  }

  /** Each mask is the pin-0 mask shifted to the pin, as the configuration code builds it. */
  lemma MasksAreShiftedPinZero(n: bv32)
    requires n < 16
    ensures Msk2(n) == GPIO_MODER_MODE0 << (n * 2) == GPIO_OSPEEDR_OSPEEDR0_Msk << (n * 2)
    ensures Msk2(n) == GPIO_PUPDR_PUPDR0 << (n * 2)
    ensures Msk1(n) == GPIO_OTYPER_OT0 << n
  {
  }

  /** Masks of different pins do not overlap. */
  lemma MasksDisjoint(n: bv32, m: bv32)
    requires n < 16 && m < 16 && n != m
    ensures Msk2(n) & Msk2(m) == 0
    ensures Msk1(n) & Msk1(m) == 0
  {
  }

  /** Union of the two-bit masks of pins 0 .. k-1. */
  function Union2(k: bv32): bv32
    requires k <= 16
  {
    if k == 0 then 0 else Union2(k - 1) | Msk2(k - 1)
  }

  /** Union of the one-bit masks of pins 0 .. k-1. */
  function Union1(k: bv32): bv32
    requires k <= 16
  {
    if k == 0 then 0 else Union1(k - 1) | Msk1(k - 1)
  }

  /** The masks of pins below k cover exactly the low 2k (resp. k) bits. */
  lemma {:induction false} UnionsAreLowBits(k: bv32)
    requires k <= 16
    ensures Union2(k) == ((1 as bv32) << (k * 2)) - 1
    ensures Union1(k) == ((1 as bv32) << k) - 1
  {
    if k > 0 {
      UnionsAreLowBits(k - 1);
    }
  }

  /** Together the sixteen pins' masks cover the whole register (two bits per pin) or its low half. */
  lemma MasksCover()
    ensures Union2(16) == 0xFFFF_FFFF
    ensures Union1(16) == 0xFFFF
  {
    UnionsAreLowBits(16);
  }

  // ---------------------------------------------------------------------
  // RCC bit definitions
  // ---------------------------------------------------------------------

  const RCC_CR_HSION: bv32 := 0x1 << 0
  const RCC_CR_HSIRDY: bv32 := 0x1 << 1
  const RCC_CR_HSEON: bv32 := 0x1 << 16
  const RCC_CR_HSERDY: bv32 := 0x1 << 17
  const RCC_CR_HSEBYP: bv32 := 0x1 << 18
  const RCC_CR_CSSON: bv32 := 0x1 << 19
  const RCC_CR_PLLON: bv32 := 0x1 << 24
  const RCC_CR_PLLRDY: bv32 := 0x1 << 25

  /** The single-bit RCC_CR fields, in declaration order. */
  const RCC_CR_BITS: seq<bv32> :=
    [RCC_CR_HSION, RCC_CR_HSIRDY, RCC_CR_HSEON, RCC_CR_HSERDY,
     RCC_CR_HSEBYP, RCC_CR_CSSON, RCC_CR_PLLON, RCC_CR_PLLRDY]

  /** Every RCC_CR field is one bit, and no two fields share it. */
  lemma RccCrBitsDistinct()
    ensures forall i :: 0 <= i < |RCC_CR_BITS| ==>
      RCC_CR_BITS[i] != 0 && RCC_CR_BITS[i] & (RCC_CR_BITS[i] - 1) == 0
    ensures forall i, j :: 0 <= i < j < |RCC_CR_BITS| ==> RCC_CR_BITS[i] & RCC_CR_BITS[j] == 0
  {
  }

  /** RCC_CFGR system-clock-switch status field (bits 2-3) and its decoded values. */
  const RCC_CFGR_SWS: bv32 := 0x3 << 2
  const RCC_CFGR_SWS_HSI: bv32 := 0x0
  const RCC_CFGR_SWS_HSE: bv32 := 0x4
  const RCC_CFGR_SWS_PLL: bv32 := 0x8

  /** `RCC_AHB1ENR_GPIOxEN`: the clock-enable bit of port x is bit `Index()`. */
  function GpioEn(p: Port): (b: bv32)
    ensures b & (b - 1) == 0 && b != 0
  {
    match p
    case A => 0x1 << 0 case B => 0x1 << 1 case C => 0x1 << 2
    case D => 0x1 << 3 case E => 0x1 << 4 case F => 0x1 << 5
    case G => 0x1 << 6 case H => 0x1 << 7 case I => 0x1 << 8
  }

  /** Each port's enable bit is bit k of AHB1ENR for port index k, so the ports' bits are distinct. */
  lemma {:induction false} GpioEnBits(p: Port, q: Port)
    ensures GpioEn(p) == (1 as bv32) << p.Index()
    ensures p != q ==> GpioEn(p) & GpioEn(q) == 0
  {
    match p case _ => match q case _ =>
  }
}
