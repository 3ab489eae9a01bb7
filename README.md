# 3xUART on QFP64 — a Dafny model of the firmware core

The firmware runs three serial links on an EFM32GG11 (USART0 at 115200 baud,
UART0 at 9600, UART1 at 115200), mirrors two inputs (OnBattery on PA3,
Tamper on PA4) onto LED3 and LED4, blinks LED1/PTT from the main loop and
toggles LED2 and the PA1 test pin from the TIMER0 and TIMER1 overflow
interrupts.

This project models, in Dafny:

- **The line-echo engine** (`LineEcho`, `EchoPorts`): each link has a
  256-byte receive buffer and an index. Its RX interrupt handler stores every
  byte other than CR while the index is below 255 and silently drops it
  otherwise. A CR writes a NUL at the index, sends the buffer up to its first
  NUL, sends CR LF and resets the index. The pure specification is `Step`
  (one handler call) and `Feed` (many calls). The imperative model is the
  class `RxLink`: an `array<bv8>` of 256 cells and an index, with `OnByte`
  proved against `Step`. The class `Ports` holds three instances, one per
  handler, and `Run` / `RunIsolatesPorts` show that the links are
  independent under any interleaving of their interrupts.
- **`sendString*`** (`Uart.SendString`): the `while (*str)` loop, proved to
  send exactly the bytes before the first NUL.
- **The baud-rate divisor** (`Baud`): `USART_BaudrateSet_Manual` computed in
  `uint32_t` arithmetic modulo 2^32. The wrap is visible when the requested
  rate exceeds freq / 16.
- **The timer TOP values** (`Timers`): a reference derivation
  `TopFor(freq, prescExp, rate)`, shown to give the two hard-coded TOP
  values. It also models the one-pin toggle of each timer interrupt and its
  parity over n ticks.
- **One main-loop iteration** (`MainLoop`): the LED1/PTT heartbeat phases,
  the UART1 status text and the LED3/LED4 mirrors. `ParseStatus` is the
  status text's inverse.

Behaviour that is easy to misread, as the code has it:

- A line is echoed whole when it has up to 255 bytes, not only when it has
  fewer than 255. The check `rxIndex < BUFFER_SIZE - 1` admits 255 stores,
  and the NUL then goes into cell 255.
- The pin TIMER1 toggles is PA1, a plain GPIO output. It is not a UART TX
  pin, so the toggle cannot disturb a transmission.
- TIMER1 sends no `'*'` on UART1. That call is commented out at
  src/main.c:609, whatever the file header and the start-up banner say.
- The TOP values are literals in the code. `TopFor` is a reference
  derivation, and `ConfiguredTops` proves that the literals agree with it.
- A CR is honoured at any fill level, including a full buffer. The CR test
  comes before the capacity test.
- The comment at src/main.c:299 describes `(freq / (16 baud) - 1) << 6`.
  The code computes `(4 freq / (16 baud) - 4) << 6`, which is about four
  times larger. That is the 1/256 unit of the CLKDIV register, and it is
  what `ClkDivRealizedRate` is proved against.

## Model

| member | source | states |
|---|---|---|
| `Uart.TakeUntilNul` | src/main.c:449-454 | what a string send transmits is a prefix of the string and contains no NUL |
| `Uart.TakeUntilNulIsPrefix` | src/main.c:449-454 | what a string send transmits is exactly the prefix that ends at the first NUL |
| `Uart.TakeUntilNulWhole` | src/main.c:449-454 | a string without NUL is sent whole |
| `Uart.TakeUntilNulStopsAt` | src/main.c:449-454 | bytes after a NUL never influence what is sent |
| `Uart.SendString` | src/main.c:449-474 | the `while (*str)` loop sends exactly the bytes before the first NUL (caller must supply a NUL) |
| `LineEcho.Initial` | src/main.c:19-25 | at reset every buffer cell is zero, the index is 0 and no cell holds CR |
| `LineEcho.Step` | src/main.c:479-493 | a handler call keeps the index below 256 and keeps CR out of the buffer; CR empties the line and the output ends with CR LF; any other byte sends nothing and never lowers the index |
| `LineEcho.Feed` | src/main.c:479-493 | any sequence of handler calls keeps the index below 256 |
| `LineEcho.StepStores` | src/main.c:488-491 | a non-CR byte below index 255 goes into `buf[index]`, the index grows by one, no other cell changes, nothing is sent |
| `LineEcho.StepDrops` | src/main.c:489 | a non-CR byte at index 255 is dropped: state and output unchanged |
| `LineEcho.StepFlushes` | src/main.c:483-487 | CR at any fill level sends the line cut at its first NUL plus CR LF, writes NUL at the old index and resets the index to 0 |
| `LineEcho.EmptyLineEchoesCRLF` | src/main.c:483-486 | an immediate CR on an empty line sends only CR LF |
| `LineEcho.FeedConcat` | src/main.c:479-493 | handling `a + b` is handling `a` then `b` from the state `a` left |
| `LineEcho.FeedAccumulates` | src/main.c:488-491 | bytes without CR are appended until the index is 255 and dropped after that; the line becomes the first `min(index + n, 255)` bytes of old line plus input; nothing is sent |
| `LineEcho.EchoLine` | src/main.c:479-493 | from any state, input then CR sends (old line + input, capped at 255 bytes) cut at the first NUL, then CR LF, and leaves the line empty |
| `LineEcho.EchoFidelity` | src/main.c:479-493 | from an empty line, up to 255 bytes with no CR and no NUL, then CR, are echoed verbatim plus CR LF |
| `LineEcho.EchoStopsAtNul` | src/main.c:484-485 | a received NUL is stored but cuts the echo to the bytes before it |
| `LineEcho.EchoTruncatesLongLine` | src/main.c:489-491 | a line longer than 255 bytes is echoed as its first 255 bytes (cut at a NUL) plus CR LF |
| `LineEcho.NeverStoresCR` | src/main.c:483-491 | the terminator never ends up in the buffer, whatever is received |
| `LineEcho.RxLink.constructor` | src/main.c:20-25 | a fresh 256-cell buffer of zeros with index 0 |
| `LineEcho.RxLink.OnByte` | src/main.c:479-493 | the in-place handler updates buffer and index and sends exactly what `Step` prescribes |
| `EchoPorts.Run` | src/main.c:479-531 | the three RX handlers, taken one at a time in any order, keep every link's index below 256 |
| `EchoPorts.RunIsolatesPorts` | src/main.c:479-531 | under any interleaving of the three RX interrupts, each port's final state and transmitted bytes are those of its own machine on its own bytes |
| `EchoPorts.InterleavedLinesEchoed` | src/main.c:479-531 | a valid line received on one port, interleaved with arbitrary traffic on the others, is echoed intact on that port |
| `EchoPorts.Ports.constructor` | src/main.c:20-25 | three freshly allocated, distinct links with fresh, distinct buffers, all at reset state, so a caller can drive any handler |
| `EchoPorts.Ports.Usart0RxIrqHandler` | src/main.c:479-493 | updates only `rxBuffer1`/`rxIndex1` and sends only on USART0 |
| `EchoPorts.Ports.Uart0RxIrqHandler` | src/main.c:498-512 | updates only `rxBuffer2`/`rxIndex2` and sends only on UART0 |
| `EchoPorts.Ports.Uart1RxIrqHandler` | src/main.c:517-531 | updates only `rxBuffer3`/`rxIndex3` and sends only on UART1 |
| `Baud.PortBaudrate` | src/main.c:335-427 | every port runs at 9600 or 115200 baud, and at 9600 exactly when it is UART0 |
| `Baud.ClkDiv` | src/main.c:294-305 | `USART_BaudrateSet_Manual` in uint32 arithmetic: the low 6 bits of CLKDIV are always zero, wrap or not |
| `Baud.ClkDivExact` | src/main.c:294-305 | with no overflow in the products, the subtraction or the shift, CLKDIV = (4F div 16B - 4) * 64 |
| `Baud.ClkDivWrapsWhenTooFast` | src/main.c:301 | when 4F div 16B < 4 the subtraction wraps and CLKDIV = 2^32 - (4 - q) * 64, at least 2^32 - 256 |
| `Baud.ClkDivRealizedRate` | src/main.c:294-305 | without overflow, the rate the divisor yields is at least the requested rate and below it plus one divisor step |
| `Baud.ConfiguredDivisors` | src/main.c:335-427 | at 24 MHz CLKDIV is 3072 for 115200 baud and 39744 for 9600 baud |
| `Timers.PrescExp` | src/main.c:207-208 | PRESC field 10 gives TIMER0 a prescaler of 1024; field 4 gives TIMER1 a prescaler of 16 (also src/main.c:246-247) |
| `Timers.Top` | src/main.c:200-240 | the TOP literals `23437 - 1` and `1250 - 1` fit the 16-bit TOP register |
| `Timers.TopFor` | src/main.c:186-189 | the derived period (TOP + 1 prescaled ticks) is the largest whole number of ticks within 1/rate seconds |
| `Timers.ConfiguredTops` | src/main.c:201-247 | `23437 - 1` with prescaler 2^10 and `1250 - 1` with 2^4 are the derivation for 1 Hz and 1200 Hz at 24 MHz |
| `Timers.ConfiguredPeriods` | src/main.c:186-240 | TIMER1's period is exactly 1/1200 s; TIMER0's is 512 cycles short of one second |
| `Timers.Isr` | src/main.c:266-286 | an overflow interrupt inverts its own pin (LED2 or PA1) and no other pin |
| `Timers.Ticks` | src/main.c:266-286 | repeated overflow interrupts of one timer change no pin but that timer's own |
| `Timers.TicksParity` | src/main.c:266-286 | after n ticks the pin is inverted exactly when n is odd; other pins unchanged |
| `Timers.TicksFromReset` | src/main.c:266-286 | from reset, with every output low as `initOutputs` leaves it, the timer's pin is high after n ticks exactly when n is odd, and all other outputs stay low |
| `MainLoop.StatusText` | src/main.c:610-631 | the UART1 text of one iteration is 22 characters long |
| `MainLoop.Loop` | src/main.c:593-631 | LED1/PTT go high then low while every other pin keeps its level; afterwards LED3 = OnBattery, LED4 = Tamper, the timer pins are untouched, and the text parses back to the inputs |
| `MainLoop.StatusTextParses` | src/main.c:610-631 | the status text carries both input levels |
| `MainLoop.ParseStatusOnlyStatusText` | src/main.c:610-631 | any text that parses is exactly the status text of its inputs (the report is injective) |
| `MainLoop.LoopIdempotent` | src/main.c:617-631 | repeating an iteration with unchanged inputs changes no pin and repeats the same text |
| `MainLoop.LoopCommutesWithTimers` | src/main.c:593-631 | the main loop and the timer interrupts write disjoint pins, so their order does not matter |
| `MainLoop.BatteryRises` | src/main.c:617-623 | OnBattery rising while Tamper stays low reports "Batery:1  Tamper:0  " and moves only LED3 |

## Left out

- Clock bring-up, GPIO pin modes, USART reset/frame/routing registers and NVIC enabling (src/main.c:62-127, 312-444): register writes to vendor library code that is not part of this model. Only the low start level of every output (src/main.c:111-126) is kept, as `Board.ResetPins`.
- `delay_ms`, the start-up spin loop and the 250 ms phase timing (src/main.c:536-548, 578, 600, 607): busy-waiting only; the model keeps the order of the phases, not their duration.
- Interrupt preemption: each handler call and each main-loop iteration is one atomic step. The main loop's UART1 text and the UART1 echo can interleave on the wire, and the model does not capture that.
- `USART_Rx` and `USART_Tx`: the received byte is a parameter, and transmitted bytes are returned as a sequence.
- The start-up banner strings (src/main.c:581-590) and the unused `LED1_On`/`LED1_Off`/`LED1_Toggle`/`LED3_SetFromInput`/`LED4_SetFromInput` helpers.
- Baud.ClkDiv: a zero divisor (baudrate * 16 wrapping to 0 modulo 2^32) is excluded by a precondition. C leaves that division undefined.
- Baud.ClkDiv: the register's field masking of an oversized CLKDIV value belongs to the hardware and is not modelled.
- Timers.Isr: the overflow-flag acknowledgement `TIMERn->IFC = TIMER_IFC_OF` (src/main.c:269, 282) is a register write and is not modelled; only the pin change is.
- MainLoop.StatusText: the status report is modelled as characters, not as the bytes the UART sends.
