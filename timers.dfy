/**
 * TIMER0 and TIMER1: the TOP values that set their overflow rates and the
 * one-pin toggle each overflow interrupt performs.
 */
module Timers {
  import opened Board

  datatype Timer = Timer0 | Timer1

  function Pow2(e: nat): (r: nat)
    ensures r >= 1
  {
    if e == 0 then 1 else 2 * Pow2(e - 1)
  }

  /**
   * The PRESC field value written to CTRL: 10 for TIMER0, 4 for TIMER1.
   * The prescaler divides the clock by 2^PRESC.
   */
  function PrescExp(t: Timer): (e: nat)
    ensures Pow2(e) == if t == Timer0 then 1024 else 16
  {
    assert Pow2(4) == 16;
    assert Pow2(10) == 1024;
    match t
    case Timer0 => 10
    case Timer1 => 4
  }

  /** The TOP value written at start-up (`23437 - 1` and `1250 - 1`). */
  function Top(t: Timer): (top: nat)
    ensures top < 0x1_0000  // fits the 16-bit TOP register
  {
    match t
    case Timer0 => 23437 - 1
    case Timer1 => 1250 - 1
  }

  /** The overflow rate each timer is meant to run at, in Hz. */
  function TargetRate(t: Timer): nat {
    match t
    case Timer0 => 1
    case Timer1 => 1200
  }

  /**
   * Reference derivation of TOP from the clock, the prescaler exponent and
   * the target rate: prescaled ticks per period, less one because the
   * counter runs from 0 to TOP inclusive.  The period it gives, TOP + 1
   * prescaled ticks, is the longest whole number of ticks that fits in
   * 1/rate seconds: it runs short by less than one tick.
   */
  function TopFor(freq: nat, prescExp: nat, rate: nat): (top: int)
    requires rate > 0
    ensures (top + 1) * Pow2(prescExp) * rate <= freq < (top + 2) * Pow2(prescExp) * rate
  {
    DivDivBrackets(freq, Pow2(prescExp), rate);
    freq / Pow2(prescExp) / rate - 1
  }

  /** Dividing by `p` and then by `r` rounds down once, as dividing by p * r does. */
  lemma DivDivBrackets(f: nat, p: nat, r: nat)
    requires p > 0 && r > 0
    ensures (f / p / r) * p * r <= f < (f / p / r + 1) * p * r
  {
    var a := f / p;
    var t := a / r;
    DivBounds(f, p);
    DivBounds(a, r);
    Rescale(f, p, r, a, t);
  }

  /** If a = f div p and t = a div r, then t periods of p * r fit in f and t + 1 do not. */
  lemma Rescale(f: nat, p: nat, r: nat, a: nat, t: nat)
    requires a * p <= f < a * p + p
    requires t * r <= a < t * r + r
    ensures t * p * r <= f < (t + 1) * p * r
  {
    assert t * r * p <= a * p by { MulLeMono(t * r, a, p); }
    assert (a + 1) * p <= (t + 1) * r * p by { MulLeMono(a + 1, (t + 1) * r, p); }
    assert t * p * r == t * r * p by { MulSwap(t, r, p); }
    assert (t + 1) * p * r == (t + 1) * r * p by { MulSwap(t + 1, r, p); }
  }

  lemma MulLeMono(x: nat, y: nat, k: nat)
    requires x <= y
    ensures x * k <= y * k
  {
  }

  lemma MulSwap(x: nat, y: nat, z: nat)
    ensures x * y * z == x * z * y
  {
  }

  /**
   * The shipped constants are the derivation at 24 MHz: 23437 ticks of
   * 1024 cycles for 1 Hz, 1250 ticks of 16 cycles for 1200 Hz.
   */
  lemma ConfiguredTops(t: Timer)
    ensures Top(t) == TopFor(HFXO_FREQ, PrescExp(t), TargetRate(t))
  {
  }

  /**
   * TIMER1 divides the clock exactly (1250 * 16 * 1200 = 24,000,000);
   * TIMER0 rounds 23437.5 down, so its period is 512 cycles short of a second.
   */
  lemma ConfiguredPeriods()
    ensures (Top(Timer1) + 1) * Pow2(PrescExp(Timer1)) * TargetRate(Timer1) == HFXO_FREQ
    ensures (Top(Timer0) + 1) * Pow2(PrescExp(Timer0)) == HFXO_FREQ - 512
  {
    ConfiguredTops(Timer0);
    ConfiguredTops(Timer1);
  }

  // ---------------------------------------------------------------------
  // Overflow interrupts

  /** The pin a timer's interrupt toggles: LED2 for TIMER0, the TX test pin PA1 for TIMER1. */
  function Level(t: Timer, p: Pins): bool {
    match t
    case Timer0 => p.led2
    case Timer1 => p.tx
  }

  function WithLevel(t: Timer, p: Pins, v: bool): (q: Pins)
    ensures Level(t, q) == v
  {
    match t
    case Timer0 => p.(led2 := v)
    case Timer1 => p.(tx := v)
  }

  /** `TIMER0_IRQHandler` / `TIMER1_IRQHandler`: invert the timer's pin and no other pin. */
  function Isr(t: Timer, p: Pins): (q: Pins)
    ensures q == WithLevel(t, p, !Level(t, p))
  {
    match t
    case Timer0 => p.(led2 := !p.led2)
    case Timer1 => p.(tx := !p.tx)
  }

  /** `n` overflow interrupts of timer `t` in a row: only the timer's own pin can differ. */
  function Ticks(t: Timer, p: Pins, n: nat): (q: Pins)
    ensures q == WithLevel(t, p, Level(t, q))
  {
    if n == 0 then p else Isr(t, Ticks(t, p, n - 1))
  }

  /**
   * After `n` ticks the timer's pin is inverted exactly when `n` is odd,
   * and every other pin is as it was.
   */
  lemma {:induction false} TicksParity(t: Timer, p: Pins, n: nat)
    ensures Ticks(t, p, n) == WithLevel(t, p, Level(t, p) != (n % 2 == 1))
  {
    if n > 0 {
      TicksParity(t, p, n - 1);
    }
  }

  /**
   * From reset, where every output is low, a timer's pin is high after `n`
   * ticks exactly when `n` is odd, and every other output is still low.
   */
  lemma TicksFromReset(t: Timer, n: nat)
    ensures Level(t, Ticks(t, ResetPins(), n)) <==> n % 2 == 1
    ensures Ticks(t, ResetPins(), n) == WithLevel(t, ResetPins(), n % 2 == 1)
  {
    TicksParity(t, ResetPins(), n);
  }
}
