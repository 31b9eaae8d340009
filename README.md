# STM32F407 GPIO and clock-control drivers, modelled in Dafny

This project models the register-level core of a small bare-metal HAL for
the STM32F407 microcontroller:

- the GPIO driver: `HAL_GPIO_Init`, `HAL_GPIO_ReadPin`,
  `HAL_GPIO_WritePin` and `HAL_GPIO_TogglePin`, over one GPIO port's
  register block;
- the encodings they use: pin masks, the mode word (a MODER code in bits
  0-1, an output-type bit in bit 4), speeds, pulls and pin states;
- the RCC macros: the GPIO port clock enables for ports A to D, the HSE
  oscillator configuration, the ready-flag test and the system-clock-source
  test;
- the device header: the `GPIO_TypeDef` and `RCC_TypeDef` layouts, the
  base addresses, the per-pin masks, the RCC_CR and AHB1ENR bits, and
  `IS_GPIO_ALL_INSTANCE`;
- the bit macros `SET_BIT`, `CLEAR_BIT`, `READ_BIT`, `CLEAR_REG` and
  `WRITE_REG`, and the status enums;
- the board bring-up `MX_GPIO_Init`, which enables the clock of port D and
  makes PD12 - PD15 push-pull outputs.

## Modules and files

| file | module | models |
|---|---|---|
| `bits.dfy` | `Bits` | The status enums and the bit macros. A `Register` class is a 32-bit register whose stores are recorded in order. |
| `device.dfy` | `Device` | Register layouts, base addresses, masks, RCC_CR bits, AHB1ENR enable bits and the instance test. |
| `gpio_defs.dfy` | `GpioDefs` | Pin masks, `IS_GPIO_PIN`, the mode word and its decoding, speeds, pulls, `GPIO_PinState`, `GPIO_InitTypeDef`. |
| `gpio_spec.dfy` | `GpioSpec` | The specification functions the driver methods are proved against: what one pin's configuration does to the registers (`PinRegs`), the stores it makes (`PinWrites`), and the whole loop (`InitRegs`, `InitTrace`). Also the BSRR hardware rule and the words `WritePin` and `TogglePin` store. |
| `gpio.dfy` | `Gpio` | `GpioPort`, a class with one `bv32` field per register and a log of the driver's stores. `Init` runs the driver's loop. `ReadPin`, `WritePin` and `TogglePin` are the other three operations. |
| `gpio_proofs.dfy` | `GpioInitProofs` | What `Init` leaves in MODER, OSPEEDR and OTYPER, pin by pin, and that it leaves every other register alone. |
| `gpio_pull.dfy` | `GpioPullProofs` | What `Init` leaves in the pull register, as written and with the corrected update, and the input that tells them apart. |
| `gpio_laws.dfy` | `GpioInitLaws` | Init is idempotent and ignores pin bits above 15; its stores are made pin by pin in ascending order, each pin's in the order OSPEEDR, OTYPER, PURDR, MODER. |
| `rcc.dfy` | `Rcc` | `RccBlock` with the CR, CFGR and AHB1ENR registers, the clock enable and HSE macros as methods, and the flag and clock-source tests as functions. |
| `board.dfy` | `Board` | `MX_GPIO_Init` and what it leaves in port D. |

The registers are modelled as 32-bit bit-vectors (`bv32`), so C's unsigned
32-bit arithmetic, including shifts that drop high bits, is reproduced
exactly. `GPIO_Pin` parameters typed `uint16_t` in the source are `bv16`.
The driver's `assert_param` checks expand to nothing, so the model does
not treat them as preconditions: `Init` accepts any pin mask, mode, speed
and pull. Where a value outside the documented range changes the result,
the lemmas say so. An unmasked speed of 4 or more, for example, spills into
the next pin's field. Configuring twice is still configuring once, for
every value: each register update keeps some bits and sets others, and a
run of such updates does the same, so a second identical run changes
nothing.

Memory-mapped stores are modelled as updates of a register field, each
followed by appending a record (pin position, register, value) to a store
log (`Writes` in `GpioPort`, `Stores` in `Register`). This lets the
contracts state the order of the stores as well as the final contents.

Writing into BSRR changes ODR by a hardware rule that is not code in the
repository. The model takes that rule from section 8.4.7 of the RM0090
reference manual:
- a 1 in the low half sets the pin;
- a 1 in the high half resets it;
- a 0 has no effect;
- when both halves name a pin, the set wins.

## Model

| member | source | states |
|---|---|---|
| Bits.FlagStatus.Value | Drivers/CMSIS/Include/stm32f4xx.h:13-16 | `RESET` is 0 and `SET` is 1: the value is at most 1 and is 0 exactly for `RESET`. |
| Bits.FunctionalState.Value | Drivers/CMSIS/Include/stm32f4xx.h:18-21 | `DISABLE` is 0 and `ENABLE` is 1. |
| Bits.ErrorStatus.Value | Drivers/CMSIS/Include/stm32f4xx.h:23-26 | `SUCCESS` is 0 and `ERROR` is 1. |
| Bits.StatusEncodingsInjective | Drivers/CMSIS/Include/stm32f4xx.h:13-21 | Distinct flag states, and distinct functional states, have distinct encodings. |
| Bits.SetBits | Drivers/CMSIS/Include/stm32f4xx.h:32 | `SET_BIT` sets every bit of the mask and keeps every bit outside it. |
| Bits.ClearBits | Drivers/CMSIS/Include/stm32f4xx.h:33 | `CLEAR_BIT` clears every bit of the mask and keeps every bit outside it. |
| Bits.ReadBits | Drivers/CMSIS/Include/stm32f4xx.h:34 | `READ_BIT` is 0 outside the mask and agrees with the register inside it. |
| Bits.SetClearIdempotent | Drivers/CMSIS/Include/stm32f4xx.h:32-33 | Setting the same bits twice equals setting them once; likewise for clearing. |
| Bits.ReadAfterSetOrClear | Drivers/CMSIS/Include/stm32f4xx.h:32-34 | Reading a mask back returns the mask after a set and 0 after a clear. |
| Bits.Register.SetBit | Drivers/CMSIS/Include/stm32f4xx.h:32 | `SET_BIT(REG, BIT)` in place: the register becomes `SetBits(old, BIT)` and the new value is logged as one store. |
| Bits.Register.ClearBit | Drivers/CMSIS/Include/stm32f4xx.h:33 | `CLEAR_BIT(REG, BIT)` in place: the register becomes `ClearBits(old, BIT)`, logged as one store. |
| Bits.Register.ReadBit | Drivers/CMSIS/Include/stm32f4xx.h:34 | `READ_BIT(REG, BIT)` reads the register and changes nothing; its result is `ReadBits(value, BIT)`. |
| Bits.Register.ClearReg | Drivers/CMSIS/Include/stm32f4xx.h:36 | `CLEAR_REG` leaves the register 0, with one store of 0. |
| Bits.Register.WriteReg | Drivers/CMSIS/Include/stm32f4xx.h:37 | `WRITE_REG` as written is a read: it evaluates to the same value as `READ_BIT(REG, VAL)` and stores nothing. |
| Bits.WriteRegStoresNothing | Drivers/CMSIS/Include/stm32f4xx.h:37 | On a register holding 0, `WRITE_REG(REG, 5)` evaluates to 0 and the register does not become 5. |
| Bits.Register.Store | Drivers/CMSIS/Include/stm32f4xx.h:37 | The intended `REG = VAL`: the register reads back as `VAL` in full and one store of `VAL` is logged. |
| Device.GpioOffset | Drivers/CMSIS/Include/stm32f407xx.h:93-105 | Each GPIO register's offset is word-aligned, and the layout slot at that offset is that register (MODER 0x00 through AFRH 0x24). |
| Device.GpioOffsetsDistinct | Drivers/CMSIS/Include/stm32f407xx.h:93-105 | Distinct GPIO registers sit at distinct offsets, all below 0x28. |
| Device.RccOffsetInLayout | Drivers/CMSIS/Include/stm32f407xx.h:56-88 | Each named RCC register's offset is word-aligned and lands on that register's slot in the layout, reserved words included. |
| Device.RccOffsetsDistinct | Drivers/CMSIS/Include/stm32f407xx.h:56-88 | Distinct RCC registers sit at distinct offsets, all below 0x88. |
| Device.RccReservedOffsets | Drivers/CMSIS/Include/stm32f407xx.h:56-88 | A layout slot is reserved exactly when its offset is one of 0x1C, 0x28, 0x2C, 0x3C, 0x48, 0x4C, 0x5C, 0x68, 0x6C, 0x78 and 0x7C. |
| Device.Port.Index | Drivers/CMSIS/Include/stm32f407xx.h:186-194 | Every port index is below 9 (A is 0, ..., I is 8), the index that base addresses and enable bits are computed from. |
| Device.BaseAddresses | Drivers/CMSIS/Include/stm32f407xx.h:128-135 | Port k's base is `0x40020000 + 0x400 * k` and `RCC_BASE` is `0x40023800`. |
| Device.WindowsDisjoint | Drivers/CMSIS/Include/stm32f407xx.h:186-196 | The 0x400-byte windows of distinct ports do not overlap, none reaches RCC, and each register block fits its window. |
| Device.GpioInstanceIsRegistered | Drivers/CMSIS/Include/stm32f407xx.h:662-670 | `IS_GPIO_ALL_INSTANCE` accepts an address exactly when it is the base of one of the nine ports. |
| Device.MasksAreShiftedPinZero | Drivers/CMSIS/Include/stm32f407xx.h:360-555 | Pin n's MODER, OSPEEDR and PUPDR masks are `3 << 2n`, and its OTYPER mask is `1 << n`. |
| Device.MasksDisjoint | Drivers/CMSIS/Include/stm32f407xx.h:360-555 | The masks of two different pins do not overlap. |
| Device.UnionsAreLowBits | Drivers/CMSIS/Include/stm32f407xx.h:360-653 | The union of the masks of pins 0 to k-1 is the low 2k bits, or the low k bits for the one-bit masks. |
| Device.MasksCover | Drivers/CMSIS/Include/stm32f407xx.h:360-653 | The two-bit masks of all 16 pins cover the whole word; the one-bit masks (OTYPER, IDR, ODR) cover 0xFFFF. |
| Device.RccCrBitsDistinct | Drivers/CMSIS/Include/stm32f407xx.h:235-282 | Each RCC_CR flag (HSION, HSIRDY, HSEON, HSERDY, HSEBYP, CSSON, PLLON, PLLRDY) is one bit, and no two share a bit. |
| Device.GpioEn | Drivers/CMSIS/Include/stm32f407xx.h:328-354 | Each `RCC_AHB1ENR_GPIOxEN` is a single bit. |
| Device.GpioEnBits | Drivers/CMSIS/Include/stm32f407xx.h:328-354 | Port k's enable bit is `1 << k`, and distinct ports have disjoint enable bits. |
| GpioDefs.PinIsBit | Drivers/HAL_Driver/Inc/stm32f4xx_hal_gpio.h:33-48 | `GPIO_PIN_n` is `1 << n`. |
| GpioDefs.PinUnionIsLowBits | Drivers/HAL_Driver/Inc/stm32f4xx_hal_gpio.h:33-48 | The union of pins 0 to k-1 is the low k bits. |
| GpioDefs.PinAllIsUnion | Drivers/HAL_Driver/Inc/stm32f4xx_hal_gpio.h:33-49 | `GPIO_PIN_ALL` is the union of all 16 pins. |
| GpioDefs.IsGpioPin | Drivers/HAL_Driver/Inc/stm32f4xx_hal_gpio.h:119 | `IS_GPIO_PIN(p)` holds exactly when p names at least one pin and no bit above 15. |
| GpioDefs.ModeWord | Drivers/HAL_Driver/Inc/stm32f4xx_hal_gpio.h:63-80 | For each of the six exported modes, `Mode & GPIO_MODE` is its MODER code (input 00, output 01, alternate function 10, analog 11) and `(Mode & OUTPUT_TYPE) >> 4` is 0 for push-pull and 1 for open-drain. |
| GpioDefs.ModeOf | Drivers/HAL_Driver/Inc/stm32f4xx_hal_gpio.h:75-80 | Decoding a word names a mode only if that mode's word is the given word. |
| GpioDefs.ModeWordRoundTrip | Drivers/HAL_Driver/Inc/stm32f4xx_hal_gpio.h:75-80 | Decoding a mode's word gives the mode back, so the six mode constants are pairwise distinct. |
| GpioDefs.ModeOfIsExact | Drivers/HAL_Driver/Inc/stm32f4xx_hal_gpio.h:75-80 | A word decodes exactly when it is one of the six mode words. |
| GpioDefs.CodesFitTwoBits | Drivers/HAL_Driver/Inc/stm32f4xx_hal_gpio.h:86-96 | The speeds are 0 to 3 and the pulls 0 to 2, in declaration order, so all fit a two-bit field. |
| GpioDefs.PinState.Value | Drivers/HAL_Driver/Inc/stm32f4xx_hal_gpio.h:23-27 | `GPIO_PIN_RESET` is 0 and `GPIO_PIN_SET` is 1. |
| GpioSpec.Write2Sets | Drivers/HAL_Driver/Src/stm32f4xx_hal_gpio.c:38-41 | The clear-then-or store of a two-bit field leaves the pin's field equal to the value's low two bits. |
| GpioSpec.Write1Sets | Drivers/HAL_Driver/Src/stm32f4xx_hal_gpio.c:44-47 | The clear-then-or store of a one-bit field leaves the pin's bit equal to the value's low bit. |
| GpioSpec.PullWriteEffect | Drivers/HAL_Driver/Src/stm32f4xx_hal_gpio.c:53-56 | The pull update as written ORs the pull into the pin's old field and, for a pull of at most 3, zeroes every other pin's field. |
| GpioSpec.Code | Drivers/HAL_Driver/Src/stm32f4xx_hal_gpio.c:33-34 | The MODER code the driver extracts from the mode fits two bits. |
| GpioSpec.OutputType | Drivers/HAL_Driver/Src/stm32f4xx_hal_gpio.c:46 | The output type the driver extracts from the mode is one bit. |
| GpioSpec.BsrrRule | Drivers/HAL_Driver/Src/stm32f4xx_hal_gpio.c:139-147 | Storing into BSRR sets a pin named in the low half, else resets a pin named in the high half, else keeps it. |
| GpioSpec.BsrrKeepsReservedHalf | Drivers/HAL_Driver/Src/stm32f4xx_hal_gpio.c:139-147 | A BSRR store never changes the upper half of ODR. |
| GpioSpec.WritePinEffect | Drivers/HAL_Driver/Src/stm32f4xx_hal_gpio.c:117-120 | The word `WritePin` stores drives exactly the given pins high for SET (`ODR \| Pin`) and low for RESET (`ODR & ~Pin`). |
| GpioSpec.ToggleHalvesDisjoint | Drivers/HAL_Driver/Src/stm32f4xx_hal_gpio.c:141-151 | The reset half and the set half of the toggle word never name the same pin. |
| GpioSpec.ToggleInverts | Drivers/HAL_Driver/Src/stm32f4xx_hal_gpio.c:137-151 | The toggle store inverts exactly the given pins of ODR. |
| GpioSpec.ToggleTwice | Drivers/HAL_Driver/Src/stm32f4xx_hal_gpio.c:137-151 | Toggling the same pins twice restores ODR. |
| GpioSpec.AnyHighIsCommonBit | Drivers/HAL_Driver/Src/stm32f4xx_hal_gpio.c:93 | Some pin 0-15 is high in both words exactly when the low half of their AND is nonzero. |
| GpioSpec.CommonBitOfPins | Drivers/HAL_Driver/Src/stm32f4xx_hal_gpio.c:93 | For a 16-bit pin mask, `IDR & Pin != 0` exactly when some selected pin reads high. |
| Gpio.GpioPort.constructor | Drivers/CMSIS/Include/stm32f407xx.h:93-105 | A port holding the given register contents, with no stores logged. |
| Gpio.GpioPort.Init | Drivers/HAL_Driver/Src/stm32f4xx_hal_gpio.c:11-74 | `HAL_GPIO_Init` as written: the registers become `InitRegs(AsWritten, old, Init, 16)` and the stores logged are `InitTrace(AsWritten, ...)`. The lemmas of GpioInitProofs, GpioPullProofs and GpioInitLaws characterise both. |
| Gpio.GpioPort.InitCorrected | Drivers/HAL_Driver/Src/stm32f4xx_hal_gpio.c:50-57 | The same loop with the pull update corrected to clear only the pin's own field. |
| Gpio.GpioPort.InitWith | Drivers/HAL_Driver/Src/stm32f4xx_hal_gpio.c:23-73 | The `for` loop over positions 0 to 15, with the pull rule as a parameter; its invariant is that after k turns the port holds `InitRegs(rule, old, Init, k)`. |
| Gpio.GpioPort.VisitPin | Drivers/HAL_Driver/Src/stm32f4xx_hal_gpio.c:23-72 | One turn of the loop moves the registers and the store log from position k to k+1 of the specification. |
| Gpio.GpioPort.ConfigurePin | Drivers/HAL_Driver/Src/stm32f4xx_hal_gpio.c:25-71 | The loop body: it reports whether the position is selected, and if so applies and logs that pin's stores. Otherwise nothing changes. |
| Gpio.GpioPort.PinSelected | Drivers/HAL_Driver/Src/stm32f4xx_hal_gpio.c:26-30 | `iocurrent == ioposition` holds exactly when bit `position` of `Pin` is set. |
| GpioSpec.SelectedIsBit | Drivers/HAL_Driver/Src/stm32f4xx_hal_gpio.c:26-30 | The loop's selection test `(Pin & (1 << p)) == (1 << p)` holds exactly when bit p of `Pin` is 1, in both directions. |
| Gpio.GpioPort.ConfigureDrive | Drivers/HAL_Driver/Src/stm32f4xx_hal_gpio.c:33-48 | Speed then output type are stored only for output and alternate-function modes. |
| Gpio.GpioPort.ConfigurePull | Drivers/HAL_Driver/Src/stm32f4xx_hal_gpio.c:50-57 | The pull is stored unless the mode is analog. |
| Gpio.GpioPort.ConfigureMode | Drivers/HAL_Driver/Src/stm32f4xx_hal_gpio.c:65-68 | The MODER store comes last. |
| Gpio.GpioPort.StoreSpeed | Drivers/HAL_Driver/Src/stm32f4xx_hal_gpio.c:38-41 | Read OSPEEDR, clear the pin's field, OR in the speed shifted by 2p, store once. |
| Gpio.GpioPort.StoreOutputType | Drivers/HAL_Driver/Src/stm32f4xx_hal_gpio.c:44-47 | Read OTYPER, clear the pin's bit, OR in the output type, store once. |
| Gpio.GpioPort.StorePull | Drivers/HAL_Driver/Src/stm32f4xx_hal_gpio.c:53-56 | Read PURDR, apply the pull step of the given rule, store once. |
| Gpio.GpioPort.StoreMode | Drivers/HAL_Driver/Src/stm32f4xx_hal_gpio.c:65-68 | Read MODER, clear the pin's field, OR in the mode code, store once. |
| Gpio.GpioPort.ReadPin | Drivers/HAL_Driver/Src/stm32f4xx_hal_gpio.c:87-99 | SET exactly when some selected pin reads high in IDR, RESET otherwise; nothing is stored. |
| Gpio.GpioPort.StoreBsrr | Drivers/HAL_Driver/Src/stm32f4xx_hal_gpio.c:139-147 | A store into BSRR, with its hardware effect on ODR. |
| Gpio.GpioPort.WritePin | Drivers/HAL_Driver/Src/stm32f4xx_hal_gpio.c:113-121 | One BSRR store of `Pin` for SET or `Pin << 16` for RESET, after which ODR is `ODR \| Pin` or `ODR & ~Pin`. |
| Gpio.GpioPort.TogglePin | Drivers/HAL_Driver/Src/stm32f4xx_hal_gpio.c:130-152 | One BSRR store of the toggle word, after which ODR is `ODR ^ Pin`. |
| GpioInitProofs.PinRegsFields | Drivers/HAL_Driver/Src/stm32f4xx_hal_gpio.c:30-68 | One pin step changes only MODER, and OSPEEDR/OTYPER for driving modes and PURDR for non-analog modes, of a selected pin. |
| GpioInitProofs.InitModerSweep | Drivers/HAL_Driver/Src/stm32f4xx_hal_gpio.c:23-68 | MODER after k turns is the old MODER with the mode code written into each selected pin below k. |
| GpioInitProofs.InitSpeedSweep | Drivers/HAL_Driver/Src/stm32f4xx_hal_gpio.c:23-41 | OSPEEDR after k turns has the speed written into each selected pin below k for driving modes, and is unchanged otherwise. |
| GpioInitProofs.InitTypeSweep | Drivers/HAL_Driver/Src/stm32f4xx_hal_gpio.c:23-47 | OTYPER after k turns has the output type written into each selected pin below k for driving modes, and is unchanged otherwise. |
| GpioInitProofs.InitPullSweep | Drivers/HAL_Driver/Src/stm32f4xx_hal_gpio.c:23-57 | PURDR after k turns is the pull sweep for non-analog modes and unchanged for analog. |
| GpioInitProofs.InitOthersKept | Drivers/HAL_Driver/Src/stm32f4xx_hal_gpio.c:59-63 | Init never changes IDR, ODR, BSRR, LCKR, AFRL or AFRH, because the alternate-function branch is empty. |
| GpioInitProofs.Sweep2Field | Drivers/HAL_Driver/Src/stm32f4xx_hal_gpio.c:23-41 | After a two-bit sweep, a selected pin's field holds the value's low two bits (`v & 3`); for a value of at most 3, any other pin's field is unchanged. |
| GpioInitProofs.Sweep1Bit | Drivers/HAL_Driver/Src/stm32f4xx_hal_gpio.c:23-47 | After a one-bit sweep, a selected pin's bit holds the value and any other bit is unchanged. |
| GpioInitProofs.InitModer | Drivers/HAL_Driver/Src/stm32f4xx_hal_gpio.c:23-68 | After Init, each selected pin's MODER field is `Mode & 3` and each unselected pin's field is unchanged. |
| GpioInitProofs.InitDrive | Drivers/HAL_Driver/Src/stm32f4xx_hal_gpio.c:33-48 | For output and AF modes a selected pin gets speed `Speed & 3` and output type `(Mode >> 4) & 1`. An unselected pin keeps its OTYPER bit, and keeps its speed only when `Speed <= 3`. Input and analog modes leave OSPEEDR and OTYPER unchanged. |
| GpioPullProofs.HighestSelected | Drivers/HAL_Driver/Src/stm32f4xx_hal_gpio.c:23-30 | The highest pin below n selected by the mask, if any, is selected and below n. |
| GpioPullProofs.HighestSelectedIsHighest | Drivers/HAL_Driver/Src/stm32f4xx_hal_gpio.c:23-30 | Every selected pin below n is at most the highest selected pin. |
| GpioPullProofs.PullSweepAsWritten | Drivers/HAL_Driver/Src/stm32f4xx_hal_gpio.c:23-56 | The as-written pull sweep equals its closed form: all fields zero except the highest selected pin's. |
| GpioPullProofs.InitPullAsWritten | Drivers/HAL_Driver/Src/stm32f4xx_hal_gpio.c:23-56 | Analog mode leaves PURDR unchanged; otherwise, for a pull of at most 3, PURDR after Init is the closed form of the as-written update. |
| GpioPullProofs.InitPullTwoPins | Drivers/HAL_Driver/Src/stm32f4xx_hal_gpio.c:23-56 | With two or more selected pins, a non-analog mode and a pull of at most 3, PURDR after Init is `Pull << 2h` for the highest selected pin h. |
| GpioPullProofs.PullSweepIntended | Drivers/HAL_Driver/Src/stm32f4xx_hal_gpio.c:50-57 | With the corrected update, PURDR is swept exactly as OSPEEDR and MODER are: a clear-then-or of each selected pin's field. |
| GpioPullProofs.InitPullIntended | Drivers/HAL_Driver/Src/stm32f4xx_hal_gpio.c:50-57 | With the corrected update, each selected pin gets `Pull & 3`. For a pull of at most 3, every other pin keeps its field. Analog mode leaves PURDR unchanged. |
| GpioPullProofs.PullUpLosesPin0 | Drivers/HAL_Driver/Src/stm32f4xx_hal_gpio.c:54 | Configuring pins 0 and 1 with pull-up on a cleared port, as written, leaves PURDR at 0x4: pin 0 ends with no pull. |
| GpioPullProofs.PullUpKeepsPin0 | Drivers/HAL_Driver/Src/stm32f4xx_hal_gpio.c:54 | With the corrected update, the same call leaves both pins with pull-up. |
| GpioInitLaws.Sweep2Shape | Drivers/HAL_Driver/Src/stm32f4xx_hal_gpio.c:23-68 | A two-bit sweep (OSPEEDR, MODER) over the selected pins keeps a set of bits and sets another, both fixed by the pins and the code alone, whatever the register held. |
| GpioInitLaws.Sweep1Shape | Drivers/HAL_Driver/Src/stm32f4xx_hal_gpio.c:23-47 | The OTYPER sweep over the selected pins keeps a set of bits and sets another, both fixed by the pins and the code alone. |
| GpioInitLaws.PullSweepShape | Drivers/HAL_Driver/Src/stm32f4xx_hal_gpio.c:23-56 | The PURDR sweep, as written or corrected, keeps a set of bits and sets another, both fixed by the pins and the pull alone. |
| GpioInitLaws.PullWriteIsUpdate | Drivers/HAL_Driver/Src/stm32f4xx_hal_gpio.c:53-56 | As written, the pull update keeps only the pin's own field `0x3 << 2p` and then ORs in the pull. |
| GpioInitLaws.Sweep2Idempotent | Drivers/HAL_Driver/Src/stm32f4xx_hal_gpio.c:38-68 | For every code, even one wider than two bits, a two-bit sweep applied twice equals applying it once. |
| GpioInitLaws.Sweep1Idempotent | Drivers/HAL_Driver/Src/stm32f4xx_hal_gpio.c:44-47 | For every code, a one-bit sweep applied twice equals applying it once. |
| GpioInitLaws.PullSweepIdempotent | Drivers/HAL_Driver/Src/stm32f4xx_hal_gpio.c:50-57 | For every pull code, the as-written and the corrected pull sweeps, applied twice, equal applying them once. |
| GpioInitLaws.InitTwiceDrive | Drivers/HAL_Driver/Src/stm32f4xx_hal_gpio.c:33-68 | For every mode and speed, a second identical Init leaves MODER, OSPEEDR and OTYPER as the first left them. |
| GpioInitLaws.InitTwicePull | Drivers/HAL_Driver/Src/stm32f4xx_hal_gpio.c:50-57 | For every pull code, with the pull update as written or corrected, a second identical Init leaves PURDR as the first left it. |
| GpioInitLaws.InitIdempotent | Drivers/HAL_Driver/Src/stm32f4xx_hal_gpio.c:11-74 | For every setting, with the pull update as written or corrected, applying the same Init twice gives the same registers as applying it once. |
| GpioInitLaws.PinRegsSameSettings | Drivers/HAL_Driver/Src/stm32f4xx_hal_gpio.c:26-30 | One pin step depends on the pin mask only through whether that pin is selected. |
| GpioInitLaws.InitIgnoresHighPinBits | Drivers/HAL_Driver/Src/stm32f4xx_hal_gpio.c:23-30 | Init gives the same registers whether or not the pin mask has bits above 15. |
| GpioInitLaws.DriveWritesShape | Drivers/HAL_Driver/Src/stm32f4xx_hal_gpio.c:33-48 | A pin's drive stores are two stores (OSPEEDR, then OTYPER) for driving modes and none otherwise. |
| GpioInitLaws.PullWritesShape | Drivers/HAL_Driver/Src/stm32f4xx_hal_gpio.c:50-57 | A pin's pull store is one store for non-analog modes and none for analog. |
| GpioInitLaws.PinWritesShape | Drivers/HAL_Driver/Src/stm32f4xx_hal_gpio.c:30-68 | A selected pin's stores all carry its position, come in the order OSPEEDR, OTYPER, PURDR, MODER, and end with MODER. |
| GpioInitLaws.InitTraceOrdered | Drivers/HAL_Driver/Src/stm32f4xx_hal_gpio.c:23-68 | The store log of the first n turns is ordered by ascending pin, and within a pin by register stage; every store is at a selected pin below n. |
| GpioInitLaws.InitTraceCovers | Drivers/HAL_Driver/Src/stm32f4xx_hal_gpio.c:23-68 | Every selected pin below n has its MODER store in the store log of the first n turns. |
| Rcc.HseStatesDistinct | Drivers/HAL_Driver/Inc/stm32f4xx_hal_rcc.h:71-73 | `RCC_HSE_OFF`, `RCC_HSE_ON` and `RCC_HSE_BYPASS` are pairwise distinct. |
| Rcc.ClockEnableSetsOneBit | Drivers/HAL_Driver/Inc/stm32f4xx_hal_rcc.h:138-161 | Enabling port k's clock sets bit k of AHB1ENR and keeps every other bit, including every other port's enable bit. |
| Rcc.ClockEnableLaws | Drivers/HAL_Driver/Inc/stm32f4xx_hal_rcc.h:138-161 | Enabling twice equals enabling once, and enabling two ports gives the same register in either order. |
| Rcc.HseOnEffect | Drivers/HAL_Driver/Inc/stm32f4xx_hal_rcc.h:105-107 | `HSE_CONFIG(RCC_HSE_ON)` sets HSEON and keeps every other bit of CR. |
| Rcc.HseBypassEffect | Drivers/HAL_Driver/Inc/stm32f4xx_hal_rcc.h:108-111 | `HSE_CONFIG(RCC_HSE_BYPASS)` sets HSEBYP and HSEON and keeps every other bit. |
| Rcc.HseOffEffect | Drivers/HAL_Driver/Inc/stm32f4xx_hal_rcc.h:112-115 | `HSE_CONFIG(RCC_HSE_OFF)` clears HSEON and HSEBYP and keeps every other bit. |
| Rcc.HseOtherStateIgnored | Drivers/HAL_Driver/Inc/stm32f4xx_hal_rcc.h:103-116 | Any other state leaves CR unchanged and stores nothing. |
| Rcc.HseKeeps | Drivers/HAL_Driver/Inc/stm32f4xx_hal_rcc.h:103-116 | For every state, HSE configuration changes no bit of CR outside HSEON and HSEBYP. |
| Rcc.HseTouchesOnlyHseBits | Drivers/HAL_Driver/Inc/stm32f4xx_hal_rcc.h:103-116 | HSE configuration keeps the non-HSE bits and, in particular, the HSIRDY, HSERDY and PLLRDY flags. |
| Rcc.HseIdempotent | Drivers/HAL_Driver/Inc/stm32f4xx_hal_rcc.h:103-116 | Configuring the same HSE state twice equals configuring it once. |
| Rcc.HseBypassOrder | Drivers/HAL_Driver/Inc/stm32f4xx_hal_rcc.h:108-111 | Bypass makes two stores: the first sets HSEBYP with HSEON as before, the second is the final value. |
| Rcc.HseOffOrder | Drivers/HAL_Driver/Inc/stm32f4xx_hal_rcc.h:112-115 | Off makes two stores: the first clears HSEON with HSEBYP as before, the second is the final value. |
| Rcc.HseStoreOrder | Drivers/HAL_Driver/Inc/stm32f4xx_hal_rcc.h:103-116 | Whenever a store is made, the last one is the final CR. BYPASS and OFF make two stores in the source's order: BYPASS's first store has HSEBYP set and HSEON as before, OFF's first has HSEON clear and HSEBYP as before. |
| Rcc.ReadyBit | Drivers/HAL_Driver/Inc/stm32f4xx_hal_rcc.h:81-83 | A recognised flag code names a bit of CR. |
| Rcc.RccBlock.constructor | Drivers/CMSIS/Include/stm32f407xx.h:56-88 | An RCC block whose CR, CFGR and AHB1ENR are distinct registers holding the given values. |
| Rcc.RccBlock.GpioClkEnable | Drivers/HAL_Driver/Inc/stm32f4xx_hal_rcc.h:138-161 | `__HAL_RCC_GPIOx_CLK_ENABLE()`: one store of AHB1ENR with the port's bit set, then a read-back that returns the nonzero enable bit. CR and CFGR are unchanged. |
| Rcc.RccBlock.HseConfig | Drivers/HAL_Driver/Inc/stm32f4xx_hal_rcc.h:103-116 | `__HAL_RCC_HSE_CONFIG(state)`: CR becomes `HseConfigured(old, state)` and the stores logged are `HseStores(old, state)`; CFGR and AHB1ENR are unchanged. |
| Rcc.RccBlock.HseOn | Drivers/HAL_Driver/Inc/stm32f4xx_hal_rcc.h:105-107 | The ON branch: the same postcondition as `HseConfig` for that state. |
| Rcc.RccBlock.HseBypass | Drivers/HAL_Driver/Inc/stm32f4xx_hal_rcc.h:108-111 | The BYPASS branch: the same postcondition as `HseConfig` for that state. |
| Rcc.RccBlock.HseOff | Drivers/HAL_Driver/Inc/stm32f4xx_hal_rcc.h:112-115 | The OFF branch: the same postcondition as `HseConfig` for that state. |
| Rcc.RccBlock.GetFlag | Drivers/HAL_Driver/Inc/stm32f4xx_hal_rcc.h:127-130 | SET exactly when the flag code is HSIRDY, HSERDY or PLLRDY and that bit (1, 17 or 25) of CR is 1; RESET for any other code. |
| Rcc.RccBlock.GetSysclkSource | Drivers/HAL_Driver/Inc/stm32f4xx_hal_rcc.h:91 | The SWS field of CFGR in place, so always one of 0, 4, 8 and 12. |
| Rcc.SysclkSourceDecodes | Drivers/CMSIS/Include/stm32f407xx.h:296-304 | The reported source is HSI, HSE, PLL or not applicable exactly when CFGR bits 2-3 hold 0, 1, 2 or 3. |
| Board.MxGpioInit | Src/main.c:49-62 | Port D's clock is enabled in AHB1ENR, then port D holds what `HAL_GPIO_Init` as written makes of the LED init structure. |
| Board.LedPinsSelected | Src/main.c:57 | The LED mask selects exactly pins 12 to 15. |
| Board.LedInitFields | Src/main.c:58-60 | The LED structure encodes an output code, push-pull, high speed and no pull. |
| Board.LedPinsConfigured | Src/main.c:57-61 | After `MX_GPIO_Init`, PD12 - PD15 are high-speed push-pull outputs and pins 0 - 11 keep their mode, speed and output type. |
| Board.LedHighestPin | Src/main.c:57 | The highest LED pin is 15. |
| Board.LedInitWipesPulls | Src/main.c:57-61 | As written, `MX_GPIO_Init` leaves the whole pull register of port D at 0, not just the LED pins' fields. |
| Board.LedInitKeepsPulls | Src/main.c:57-61 | With the corrected pull update, the LED pins get no pull and pins 0 - 11 keep their pull fields. |
| Board.LedInitKeepsOthers | Src/main.c:61 | `MX_GPIO_Init` changes none of port D's IDR, ODR, BSRR, LCKR, AFRL or AFRH. |

## Left out

- Volatile access and interrupts are not modelled. Registers are plain fields, so the read-modify-write race in `HAL_GPIO_Init` and the window between the ODR read and the BSRR store in `HAL_GPIO_TogglePin` are outside the model.
- IDR is an input the port's pins drive; the model takes its value as given and never changes it.
- The BSRR effect on ODR is a hardware rule (section 8.4.7 of RM0090), not repository code; `GpioSpec.ApplyBsrr` is that assumption.
- `HAL_GPIO_DeInit`, `HAL_GPIO_LockPin`, `HAL_GPIO_EXTI_IRQHandler` and `HAL_GPIO_EXTI_Callback` have empty or trivial bodies and are not modelled.
- `HAL_Init`, `HAL_DeInit`, `HAL_MspInit`, `HAL_InitTick`, `HAL_SYSTICK_Config`, `__NVIC_EnableIRQ` and `SysTick_Config` are empty stubs or core-peripheral glue outside the GPIO and clock registers.
- `IS_GPIO_MODE` refers to `GPIO_MODE_IT_*` constants that are never defined, so it has no meaning to model.
- `HAL_RCC_OscConfig` and the RCC init structures are declared without a body.
- `HSE_VALUE`, `HSI_VALUE` and the timeout constants are unused by the modelled code.
- `AHB2PERIPH_BASE` is flagged in its own comment as doubtful, and no modelled code uses it; the model states nothing about it.
- The main loop of `main`, `Simple_Delay` (a busy wait), and the empty `MX_I2C1_Init`, `MX_SPI1_Init` and `SystemClock_Config` are not modelled.
- `stm32f4xx_hal_conf.h`, `stm32f4xx_hal_def.h` and `stm32f4xx_hal.h` are include and attribute glue; `assert_param` expands to nothing, so the driver's parameter checks are not preconditions of the model.
- The `Alternate` field of the init structure is carried but never used, because the alternate-function branch of `HAL_GPIO_Init` is empty.
- Rcc.RccBlock.GpioClkEnable: covers ports A to D only, because the source defines the clock-enable macro only for those four ports.
- GpioInitProofs.InitDrive: promises that unselected pins keep their speed field only when `Speed <= 3`. A larger unmasked speed spills into a neighbouring pin's field.
- Rcc.RccBlock.HseOn, Rcc.RccBlock.HseBypass, Rcc.RccBlock.HseOff: these are the three branches of the single macro `__HAL_RCC_HSE_CONFIG`, split into methods of their own; they are not separate entities in the source.
- `Bits.Register.ReadBit` and `GetFlag` read registers that the hardware may change between reads; the model reads a fixed value.

## Findings

| source | as written | input that shows it | evidently intended | confidence | as-written member | corrected member |
|---|---|---|---|---|---|---|
| Drivers/HAL_Driver/Src/stm32f4xx_hal_gpio.c:54 | `temp &= (GPIO_PUPDR_PUPDR0 << (position*2U))` keeps only the pin's own old pull field and zeroes all others, so every pull configured earlier is lost, and the new pull is ORed into the old one | `HAL_GPIO_Init` with pins 0 and 1, pull-up, input mode, on a port whose PURDR is 0: PURDR ends at 0x4, so pin 0 has no pull | `temp &= ~(GPIO_PUPDR_PUPDR0 << (position*2U))`, as on the OSPEEDR, OTYPER and MODER updates: clear the pin's field only; both pins then have pull-up | not executed | GpioPullProofs.PullUpLosesPin0 | GpioPullProofs.PullUpKeepsPin0 |
| Drivers/CMSIS/Include/stm32f4xx.h:37 | `#define WRITE_REG(REG, VAL) ((REG) & (VAL))` is an expression that reads the register and stores nothing | a register holding 0, "written" with 5: the register still holds 0 and the macro evaluates to 0 | `((REG) = (VAL))`, a store after which the register reads back as VAL | not executed | Bits.WriteRegStoresNothing | Bits.Register.Store |
