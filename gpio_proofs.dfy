/**
 * What `HAL_GPIO_Init` (Drivers/HAL_Driver/Src/stm32f4xx_hal_gpio.c)
 * does to a register block, register by register and pin by pin, proved
 * about the specification functions of module GpioSpec that the
 * `GpioPort` methods are proved against.
 */
module GpioInitProofs {
  import opened Bits
  import opened GpioDefs
  import opened GpioSpec
  import Device

  // ---------------------------------------------------------------------
  // One read-clear-or-write on one register
  // ---------------------------------------------------------------------

  /** The field of pin q of `a | b` is the OR of the two fields. */
  lemma Field2Or(a: bv32, b: bv32, q: bv32)
    requires q < 16
    ensures Field2(a | b, q) == Field2(a, q) | Field2(b, q)
  {
  }

  /** A code shifted to pin p leaves the fields of the pins below p zero. */
  lemma Field2ShiftedAbove(v: bv32, p: bv32, q: bv32)
    requires q < p < 16
    ensures Field2(v << (p * 2), q) == 0
  {
  }

  /** Clearing pin p's field leaves the field of every other pin alone. */
  lemma Field2ClearOther(r: bv32, p: bv32, q: bv32)
    requires p < 16 && q < 16 && p != q
    ensures Field2(r & !(Device.GPIO_MODER_MODE0 << (p * 2)), q) == Field2(r, q)
  {
  }

  /** Writing a two-bit code into pin p's field leaves every other pin's field alone. */
  lemma Write2Frame(r: bv32, p: bv32, v: bv32, q: bv32)
    requires p < 16 && q < 16 && p != q && v <= 3
    ensures Field2(Write2(r, p, v), q) == Field2(r, q)
  {
  }

  /**
   * Whatever the code, writing it into pin p's field leaves the fields of
   * the pins below p alone: bits of an oversized code only spill upwards.
   */
  lemma Write2Below(r: bv32, p: bv32, v: bv32, q: bv32)
    requires p < 16 && q < p
    ensures Field2(Write2(r, p, v), q) == Field2(r, q)
  {
    var cleared := r & !(Device.GPIO_MODER_MODE0 << (p * 2));
    Field2Or(cleared, v << (p * 2), q);
    Field2ShiftedAbove(v, p, q);
    Field2ClearOther(r, p, q);
  }

  /** Writing a one-bit code into pin p's bit leaves every other bit alone. */
  lemma Write1Frame(r: bv32, p: bv32, v: bv32, q: bv32)
    requires p < 16 && q < 32 && p != q && v <= 1
    ensures Bit(Write1(r, p, v), q) == Bit(r, q)
  {
  }

  /** As written, the pull update zeroes the pull field of every pin but p. */
  lemma PullWriteOthers(r: bv32, p: bv32, v: bv32, q: bv32)
    requires p < 16 && q < 16 && p != q && v <= 3
    ensures Field2(PullWrite(r, p, v), q) == 0
  {
  }

  // ---------------------------------------------------------------------
  // The loop body and the whole loop, register by register
  // ---------------------------------------------------------------------

  /**
   * The loop body for position p touches MODER always, OSPEEDR and OTYPER
   * for a driving mode and PURDR unless the mode is analog, each only when
   * p is selected, and no other register.
   */
  lemma PinRegsFields(rule: PullRule, s: Regs, c: GpioInit, p: bv32)
    requires p < 16
    ensures var t := PinRegs(rule, s, c, p);
      && t.moder == (if Selected(c.pin, p) then Write2(s.moder, p, Code(c)) else s.moder)
      && t.ospeedr == (if Selected(c.pin, p) && DrivesPin(c) then Write2(s.ospeedr, p, c.speed) else s.ospeedr)
      && t.otyper == (if Selected(c.pin, p) && DrivesPin(c) then Write1(s.otyper, p, OutputType(c)) else s.otyper)
      && t.purdr == (if Selected(c.pin, p) && HasPull(c) then PullStep(rule, s.purdr, p, c.pull) else s.purdr)
      && t.idr == s.idr && t.odr == s.odr && t.bsrr == s.bsrr && t.lckr == s.lckr
      && t.afrl == s.afrl && t.afrh == s.afrh
  {
  }

  /** After the loop has visited pins 0 .. n-1, MODER is the sweep of the mode code over the selected pins. */
  lemma {:induction false} InitModerSweep(rule: PullRule, r: Regs, c: GpioInit, n: bv32)
    requires n <= 16
    ensures InitRegs(rule, r, c, n).moder == Sweep2(r.moder, c.pin, n, Code(c))
    decreases n
  {
    if n > 0 {
      InitModerSweep(rule, r, c, n - 1);
      PinRegsFields(rule, InitRegs(rule, r, c, n - 1), c, n - 1);
    }
  }

  /**
   * After the loop has visited pins 0 .. n-1, OSPEEDR is the sweep of the
   * speed over the selected pins for a driving mode, and untouched
   * otherwise.
   */
  lemma {:induction false} InitSpeedSweep(rule: PullRule, r: Regs, c: GpioInit, n: bv32)
    requires n <= 16
    ensures InitRegs(rule, r, c, n).ospeedr ==
      if DrivesPin(c) then Sweep2(r.ospeedr, c.pin, n, c.speed) else r.ospeedr
    decreases n
  {
    if n > 0 {
      InitSpeedSweep(rule, r, c, n - 1);
      PinRegsFields(rule, InitRegs(rule, r, c, n - 1), c, n - 1);
    }
  }

  /**
   * After the loop has visited pins 0 .. n-1, OTYPER is the sweep of the
   * output type over the selected pins for a driving mode, and untouched
   * otherwise.
   */
  lemma {:induction false} InitTypeSweep(rule: PullRule, r: Regs, c: GpioInit, n: bv32)
    requires n <= 16
    ensures InitRegs(rule, r, c, n).otyper ==
      if DrivesPin(c) then Sweep1(r.otyper, c.pin, n, OutputType(c)) else r.otyper
    decreases n
  {
    if n > 0 {
      InitTypeSweep(rule, r, c, n - 1);
      PinRegsFields(rule, InitRegs(rule, r, c, n - 1), c, n - 1);
    }
  }

  /** After the loop has visited pins 0 .. n-1, PURDR is the sweep of the pull update unless the mode is analog. */
  lemma {:induction false} InitPullSweep(rule: PullRule, r: Regs, c: GpioInit, n: bv32)
    requires n <= 16
    ensures InitRegs(rule, r, c, n).purdr ==
      if HasPull(c) then PullSweep(rule, r.purdr, c.pin, n, c.pull) else r.purdr
    decreases n
  {
    if n > 0 {
      InitPullSweep(rule, r, c, n - 1);
      PinRegsFields(rule, InitRegs(rule, r, c, n - 1), c, n - 1);
    }
  }

  /** The registers the loop never writes. */
  predicate KeepsOthers(a: Regs, b: Regs)
  {
    a.idr == b.idr && a.odr == b.odr && a.bsrr == b.bsrr && a.lckr == b.lckr &&
    a.afrl == b.afrl && a.afrh == b.afrh
  }

  /**
   * IDR, ODR, BSRR, LCKR, AFRL and AFRH are untouched however far the loop
   * has gone: the alternate-function branch is empty.
   */
  lemma {:induction false} InitOthersKept(rule: PullRule, r: Regs, c: GpioInit, n: bv32)
    requires n <= 16
    ensures KeepsOthers(InitRegs(rule, r, c, n), r)
    decreases n
  {
    if n > 0 {
      InitOthersKept(rule, r, c, n - 1);
      PinRegsFields(rule, InitRegs(rule, r, c, n - 1), c, n - 1);
    }
  }

  // ---------------------------------------------------------------------
  // Sweeps, pin by pin
  // ---------------------------------------------------------------------

  /**
   * After a two-bit sweep over pins below n, a selected pin's field holds
   * the low two bits of the code; an unselected pin's field is unchanged
   * provided the code fits two bits.
   */
  lemma {:induction false} Sweep2Field(x: bv32, pin: bv32, n: bv32, v: bv32, q: bv32)
    requires n <= 16 && q < 16
    ensures q < n && Selected(pin, q) ==> Field2(Sweep2(x, pin, n, v), q) == v & 3
    ensures v <= 3 && !(q < n && Selected(pin, q)) ==> Field2(Sweep2(x, pin, n, v), q) == Field2(x, q)
    decreases n
  {
    if n > 0 {
      var p := n - 1;
      var y := Sweep2(x, pin, p, v);
      Sweep2Field(x, pin, p, v, q);
      if Selected(pin, p) {
        if q == p {
          Write2Sets(y, p, v);
        } else if q < p {
          Write2Below(y, p, v, q);
        } else if v <= 3 {
          Write2Frame(y, p, v, q);
        }
      }
    }
  }

  /**
   * After a one-bit sweep over pins below n with a one-bit code, a
   * selected pin's bit holds the code and every other bit is unchanged.
   */
  lemma {:induction false} Sweep1Bit(x: bv32, pin: bv32, n: bv32, v: bv32, q: bv32)
    requires n <= 16 && q < 32 && v <= 1
    ensures Bit(Sweep1(x, pin, n, v), q) == if q < n && Selected(pin, q) then v else Bit(x, q)
    decreases n
  {
    if n > 0 {
      var p := n - 1;
      var y := Sweep1(x, pin, p, v);
      Sweep1Bit(x, pin, p, v, q);
      if Selected(pin, p) {
        if q == p {
          Write1Sets(y, p, v);
        } else {
          Write1Frame(y, p, v, q);
        }
      }
    }
  }

  // ---------------------------------------------------------------------
  // HAL_GPIO_Init, pin by pin
  // ---------------------------------------------------------------------

  /** After Init, a selected pin's MODER field is `Mode & 3`; every other pin's is unchanged. */
  lemma InitModer(rule: PullRule, r: Regs, c: GpioInit, q: bv32)
    requires q < 16
    ensures Field2(InitRegs(rule, r, c, GPIO_NUMBER).moder, q) ==
      if Selected(c.pin, q) then c.mode & 3 else Field2(r.moder, q)
  {
    InitModerSweep(rule, r, c, GPIO_NUMBER);
    Sweep2Field(r.moder, c.pin, GPIO_NUMBER, Code(c), q);
  }

  /**
   * For an output or alternate-function mode, a selected pin's OSPEEDR
   * field is `Speed & 3` and its OTYPER bit is `(Mode >> 4) & 1`; an
   * unselected pin keeps its OTYPER bit, and keeps its OSPEEDR field when
   * `Speed` fits two bits. An input or analog mode leaves both registers
   * unchanged.
   */
  lemma InitDrive(rule: PullRule, r: Regs, c: GpioInit, q: bv32)
    requires q < 16
    ensures var t := InitRegs(rule, r, c, GPIO_NUMBER);
      && (DrivesPin(c) && Selected(c.pin, q) ==>
            Field2(t.ospeedr, q) == c.speed & 3 && Bit(t.otyper, q) == (c.mode >> 4) & 1)
      && (DrivesPin(c) && !Selected(c.pin, q) ==>
            Bit(t.otyper, q) == Bit(r.otyper, q) &&
            (c.speed <= 3 ==> Field2(t.ospeedr, q) == Field2(r.ospeedr, q)))
      && (!DrivesPin(c) ==> t.ospeedr == r.ospeedr && t.otyper == r.otyper)
  {
    InitSpeedSweep(rule, r, c, GPIO_NUMBER);
    InitTypeSweep(rule, r, c, GPIO_NUMBER);
    Sweep2Field(r.ospeedr, c.pin, GPIO_NUMBER, c.speed, q);
    Sweep1Bit(r.otyper, c.pin, GPIO_NUMBER, OutputType(c), q);
  }
}
