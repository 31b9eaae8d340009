/**
 * The board bring-up of Src/main.c: `MX_GPIO_Init` enables the clock of
 * port D and configures the four LED pins PD12 - PD15 as push-pull
 * outputs, high speed, no pull. The lemmas state what that leaves in the
 * port's registers, including the pull register the driver wipes.
 */
module Board {
  import opened Bits
  import opened Device
  import opened GpioDefs
  import opened GpioSpec
  import opened GpioInitProofs
  import opened GpioPullProofs
  import Gpio
  import Rcc

  /** `GPIO_PIN_12 | GPIO_PIN_13 | GPIO_PIN_14 | GPIO_PIN_15`. */
  const LED_PINS: bv32 := GPIO_PIN[12] as bv32 | GPIO_PIN[13] as bv32 | GPIO_PIN[14] as bv32 | GPIO_PIN[15] as bv32

  /** The init structure `MX_GPIO_Init` fills in; `= {0}` leaves Alternate 0. */
  const LED_INIT: GpioInit := GpioInit(LED_PINS, GPIO_MODE_OUTPUT_PP, GPIO_NOPULL, GPIO_SPEED_FREQ_HIGH, 0)

  /** `MX_GPIO_Init`: the GPIOD clock enable, then `HAL_GPIO_Init(GPIOD, ...)`. */
  method MxGpioInit(rcc: Rcc.RccBlock, gpiod: Gpio.GpioPort)
    requires rcc.Valid()
    modifies rcc.AHB1ENR, gpiod
    ensures rcc.AHB1ENR.value == Rcc.ClockEnabled(old(rcc.AHB1ENR.value), D)
    ensures gpiod.Snapshot() == InitRegs(AsWritten, old(gpiod.Snapshot()), LED_INIT, GPIO_NUMBER)
    ensures gpiod.Writes == old(gpiod.Writes) + InitTrace(AsWritten, old(gpiod.Snapshot()), LED_INIT, GPIO_NUMBER)
  {
    var _ := rcc.GpioClkEnable(D);
    gpiod.Init(LED_INIT);
  }

  /** The LED mask selects exactly pins 12 to 15. */
  lemma LedPinsSelected(q: bv32)
    requires q < 16
    ensures Selected(LED_PINS, q) <==> 12 <= q
  {
  }

  /** What the LED init structure encodes: output code, push-pull, high speed, no pull. */
  lemma LedInitFields(c: GpioInit)
    requires c == LED_INIT
    ensures Code(c) == MODE_OUTPUT && DrivesPin(c) && HasPull(c)
    ensures (c.mode >> 4) & 1 == 0 && c.speed & 3 == GPIO_SPEED_FREQ_HIGH && c.speed <= 3
    ensures c.pull == GPIO_NOPULL
  {
  }

  /**
   * After `MX_GPIO_Init`, PD12 - PD15 are general-purpose outputs, high
   * speed, push-pull; pins 0 - 11 keep their mode, speed and output type.
   */
  lemma LedPinsConfigured(r: Regs, q: bv32)
    requires q < 16
    ensures var t := InitRegs(AsWritten, r, LED_INIT, GPIO_NUMBER);
      && (12 <= q ==> Field2(t.moder, q) == MODE_OUTPUT && Field2(t.ospeedr, q) == GPIO_SPEED_FREQ_HIGH && Bit(t.otyper, q) == 0)
      && (q < 12 ==> Field2(t.moder, q) == Field2(r.moder, q) && Field2(t.ospeedr, q) == Field2(r.ospeedr, q)
                     && Bit(t.otyper, q) == Bit(r.otyper, q))
  {
    var c := LED_INIT;
    LedPinsSelected(q);
    LedInitFields(c);
    InitModer(AsWritten, r, c, q);
    InitDrive(AsWritten, r, c, q);
  }

  /** The highest LED pin is 15. */
  lemma LedHighestPin()
    ensures HighestSelected(LED_PINS, GPIO_NUMBER) == Some(15)
  {
    HighestStep(LED_PINS, 15);
    LedPinsSelected(15);
  }

  /**
   * As written, `MX_GPIO_Init` leaves every pull field of port D at
   * "no pull", not just those of the four LED pins: the pull register
   * ends as `GPIO_NOPULL << 30`, which is 0.
   */
  lemma LedInitWipesPulls(r: Regs)
    ensures InitRegs(AsWritten, r, LED_INIT, GPIO_NUMBER).purdr == 0
  {
    var c := LED_INIT;
    LedInitFields(c);
    LedHighestPin();
    LedPinsSelected(12);
    InitPullTwoPins(r, c, 15, 12);
  }

  /**
   * With the corrected pull update, the LED pins get "no pull" and pins
   * 0 - 11 keep their pull fields.
   */
  lemma LedInitKeepsPulls(r: Regs, q: bv32)
    requires q < 16
    ensures var t := InitRegs(Intended, r, LED_INIT, GPIO_NUMBER);
      && (12 <= q ==> Field2(t.purdr, q) == GPIO_NOPULL)
      && (q < 12 ==> Field2(t.purdr, q) == Field2(r.purdr, q))
  {
    var c := LED_INIT;
    LedPinsSelected(q);
    LedInitFields(c);
    InitPullIntended(r, c, q);
  }

  /** `MX_GPIO_Init` changes no other register of port D. */
  lemma LedInitKeepsOthers(r: Regs)
    ensures KeepsOthers(InitRegs(AsWritten, r, LED_INIT, GPIO_NUMBER), r)
  {
    InitOthersKept(AsWritten, r, LED_INIT, GPIO_NUMBER);
  }
}
