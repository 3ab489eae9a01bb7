/**
 * `USART_BaudrateSet_Manual`: the CLKDIV register value for a requested
 * baud rate, computed in `uint32_t` arithmetic.  CLKDIV counts in units of
 * 1/256; the port then runs at freq / (16 * (1 + CLKDIV / 256)).
 */
module Baud {
  import opened Board

  /** Oversampling factor of the asynchronous mode. */
  const OVERSAMPLE: nat := 16

  /** The baud rate each port is configured with at start-up. */
  function PortBaudrate(p: Port): (b: u32)
    ensures b == 9600 || b == 115200
    ensures b == 9600 <==> p == Uart0
  {
    match p
    case Usart0 => 115200
    case Uart0 => 9600
    case Uart1 => 115200
  }

  /** `(freq * 4) / (baudrate * oversample)`, both products wrapping at 2^32. */
  function Scaled(baudrate: u32, freq: u32): (q: nat)
    requires (baudrate * OVERSAMPLE) % U32 != 0
  {
    ((freq * 4) % U32) / ((baudrate * OVERSAMPLE) % U32)
  }

  /**
   * `clkdiv = (((freq * 4) / (baudrate * oversample)) - 4) << 6`, where the
   * subtraction and the shift wrap modulo 2^32 as `uint32_t` does.  The C
   * division by a zero divisor is undefined, so callers must avoid it.
   */
  function ClkDiv(baudrate: u32, freq: u32): (clkdiv: u32)
    requires (baudrate * OVERSAMPLE) % U32 != 0
    ensures clkdiv % 64 == 0  // the six bits below the shift are zero, wrap or not
  {
    var d := (Scaled(baudrate, freq) - 4) % U32;
    var k := d * 64 / U32;
    assert d * 64 == U32 * k + (d * 64) % U32;
    assert (d * 64) % U32 == 64 * (d - 0x400_0000 * k);
    (d * 64) % U32
  }

  /**
   * Without overflow in either product, in the subtraction or in the shift,
   * CLKDIV is the integer (4 freq div 16 baudrate - 4) * 64.
   */
  lemma ClkDivExact(baudrate: u32, freq: u32)
    requires 0 < baudrate * OVERSAMPLE < U32 && freq * 4 < U32
    requires 4 <= (freq * 4) / (baudrate * OVERSAMPLE)
    requires ((freq * 4) / (baudrate * OVERSAMPLE) - 4) * 64 < U32
    ensures ClkDiv(baudrate, freq) == ((freq * 4) / (baudrate * OVERSAMPLE) - 4) * 64
  {
    var q := (freq * 4) / (baudrate * OVERSAMPLE);
    assert (freq * 4) % U32 == freq * 4;
    assert (baudrate * OVERSAMPLE) % U32 == baudrate * OVERSAMPLE;
    assert Scaled(baudrate, freq) == q;
    assert (q - 4) % U32 == q - 4;
  }

  /**
   * A baud rate above freq / 16 makes the quotient drop below 4: the
   * subtraction wraps and CLKDIV lands within 256 of 2^32 instead of
   * being negative.
   */
  lemma ClkDivWrapsWhenTooFast(baudrate: u32, freq: u32)
    requires 0 < baudrate * OVERSAMPLE < U32 && freq * 4 < U32
    requires (freq * 4) / (baudrate * OVERSAMPLE) < 4
    ensures ClkDiv(baudrate, freq) == U32 - (4 - (freq * 4) / (baudrate * OVERSAMPLE)) * 64
    ensures ClkDiv(baudrate, freq) >= U32 - 256
  {
    var q := Scaled(baudrate, freq);
    assert (q - 4) % U32 == U32 + q - 4;
    assert (U32 + q - 4) * 64 == U32 * 63 + (U32 - (4 - q) * 64);
  }

  /**
   * Without overflow, the rate the divisor yields, 256 freq / (16 (256 +
   * CLKDIV)), is never below the requested rate and exceeds it by less than
   * one divisor step (64 units of 1/256).
   */
  lemma {:induction false} ClkDivRealizedRate(baudrate: u32, freq: u32)
    requires 0 < baudrate * OVERSAMPLE < U32 && freq * 4 < U32
    requires 4 <= (freq * 4) / (baudrate * OVERSAMPLE)
    requires ((freq * 4) / (baudrate * OVERSAMPLE) - 4) * 64 < U32
    ensures OVERSAMPLE * baudrate * (256 + ClkDiv(baudrate, freq)) <= 256 * freq
    ensures 256 * freq < OVERSAMPLE * baudrate * (256 + ClkDiv(baudrate, freq) + 64)
  {
    var den := baudrate * OVERSAMPLE;
    var q := (freq * 4) / den;
    ClkDivExact(baudrate, freq);
    var r: int := ClkDiv(baudrate, freq);
    DivBounds(freq * 4, den);
    RateFromQuotient(baudrate, freq, q, r);
  }

  /** The rate bounds follow from 256 + CLKDIV = 64 q and q = 4 freq div (16 baudrate). */
  lemma RateFromQuotient(baudrate: nat, freq: nat, q: nat, r: int)
    requires q * (baudrate * OVERSAMPLE) <= freq * 4 < q * (baudrate * OVERSAMPLE) + baudrate * OVERSAMPLE
    requires 256 + r == 64 * q
    ensures OVERSAMPLE * baudrate * (256 + r) <= 256 * freq
    ensures 256 * freq < OVERSAMPLE * baudrate * (256 + r + 64)
  {
    var den := baudrate * OVERSAMPLE;
    assert OVERSAMPLE * baudrate * (256 + r) == 64 * (q * den);
    assert OVERSAMPLE * baudrate * (256 + r + 64) == 64 * (q * den + den);
  }

  /** The divisors of the shipped configuration on the 24 MHz crystal. */
  lemma ConfiguredDivisors()
    ensures ClkDiv(115200, HFXO_FREQ) == 3072
    ensures ClkDiv(9600, HFXO_FREQ) == 39744
    ensures forall p :: ClkDiv(PortBaudrate(p), HFXO_FREQ) == if p == Uart0 then 39744 else 3072
  {
    assert Scaled(115200, HFXO_FREQ) == 52;
    assert Scaled(9600, HFXO_FREQ) == 625;
  }
}
