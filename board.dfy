/**
 * Board-level facts shared by the firmware model: the clock, the machine
 * word, the three serial ports and the GPIO pins the firmware drives.
 */
module Board {

  /** Frequency of the external 24 MHz crystal that clocks the peripherals. */
  const HFXO_FREQ: nat := 24000000

  /** 2^32: every `uint32_t` computation wraps modulo this. */
  const U32: nat := 0x1_0000_0000

  type u32 = x: int | 0 <= x < U32

  /** The three serial links, named by the peripheral that drives them. */
  datatype Port = Usart0 | Uart0 | Uart1

  /** Levels of the two polled inputs: PA3 (OnBattery) and PA4 (Tamper). */
  datatype Inputs = Inputs(onBattery: bool, tamper: bool)

  /**
   * Levels of the push-pull outputs: LED1 (PA8), LED2 (PD5), LED3 (PD6),
   * LED4 (PD8), the TX test pin (PA1) and PTT (PA2).  All start low.
   */
  datatype Pins = Pins(led1: bool, led2: bool, led3: bool, led4: bool, tx: bool, ptt: bool)

  /** `initOutputs` configures every output push-pull with level 0. */
  function ResetPins(): Pins {
    Pins(false, false, false, false, false, false)
  }

  /** Euclidean division brackets its dividend. */
  lemma DivBounds(x: nat, d: nat)
    requires d > 0
    ensures (x / d) * d <= x < (x / d) * d + d
  {
  }
}
