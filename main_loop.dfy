/**
 * One iteration of the main loop: the LED1/PTT heartbeat phases, then the
 * status report on UART1 and the LED3/LED4 mirrors of the two inputs.
 * The busy-wait delays between the phases are not modelled.
 */
module MainLoop {
  import opened Board
  import Timers

  datatype Option<T> = None | Some(value: T)

  /**
   * The pins after each phase of an iteration and the text it sends on
   * UART1: `high` after LED1 and PTT are set, `low` after they are cleared,
   * `final` after LED3 and LED4 follow the inputs.
   */
  datatype Iteration = Iteration(high: Pins, low: Pins, final: Pins, uart1: string)

  /** The text `main` sends on UART1 for the given input levels. */
  function StatusText(inp: Inputs): (text: string)
    ensures |text| == 22
  {
    "\r\n"
    + (if inp.onBattery then "Batery:1  " else "Batery:0  ")
    + (if inp.tamper then "Tamper:1  " else "Tamper:0  ")
  }

  /** One pass through the body of `while (1)` in `main`, with inputs sampled as `inp`. */
  function Loop(p: Pins, inp: Inputs): (it: Iteration)
    ensures it.high.led1 && it.high.ptt && !it.low.led1 && !it.low.ptt
    ensures it.high.(led1 := p.led1, ptt := p.ptt) == p && it.low.(led1 := p.led1, ptt := p.ptt) == p
    ensures it.final.led3 == inp.onBattery && it.final.led4 == inp.tamper
    ensures !it.final.led1 && !it.final.ptt
    ensures forall t :: Timers.Level(t, it.final) == Timers.Level(t, p)
    ensures ParseStatus(it.uart1) == Some(inp)
  {
    var high := p.(led1 := true, ptt := true);
    var low := high.(led1 := false, ptt := false);
    var withBattery := if inp.onBattery then low.(led3 := true) else low.(led3 := false);
    var final := if inp.tamper then withBattery.(led4 := true) else withBattery.(led4 := false);
    StatusTextParses(inp);
    Iteration(high, low, final, StatusText(inp))
  }

  /** Reads the input levels back from a status text; `None` for any other text. */
  function ParseStatus(text: string): (r: Option<Inputs>)
  {
    if |text| == 22 && text[..9] == "\r\nBatery:" && text[10..19] == "  Tamper:" && text[20..] == "  "
       && (text[9] == '0' || text[9] == '1') && (text[19] == '0' || text[19] == '1')
    then Some(Inputs(text[9] == '1', text[19] == '1'))
    else None
  }

  /** The status text carries both input levels. */
  lemma StatusTextParses(inp: Inputs)
    ensures ParseStatus(StatusText(inp)) == Some(inp)
  {
    var text := StatusText(inp);
    assert text[..9] == "\r\nBatery:";
    assert text[10..19] == "  Tamper:";
    assert text[20..] == "  ";
  }

  /** Only status texts parse: the report is the one text for its inputs. */
  lemma {:induction false} ParseStatusOnlyStatusText(text: string)
    requires ParseStatus(text).Some?
    ensures text == StatusText(ParseStatus(text).value)
  {
    var inp := ParseStatus(text).value;
    var expected := StatusText(inp);
    assert text == text[..9] + [text[9]] + text[10..19] + [text[19]] + text[20..];
    assert expected == expected[..9] + [expected[9]] + expected[10..19] + [expected[19]] + expected[20..];
  }

  /**
   * Repeating an iteration with unchanged inputs changes no pin and sends
   * the same text again.
   */
  lemma LoopIdempotent(p: Pins, inp: Inputs)
    ensures Loop(Loop(p, inp).final, inp).final == Loop(p, inp).final
    ensures Loop(Loop(p, inp).final, inp).uart1 == Loop(p, inp).uart1
  {
  }

  /**
   * Each pin has one writer: a timer interrupt taken before an iteration
   * leaves the same pins as one taken after it.
   */
  lemma LoopCommutesWithTimers(t: Timers.Timer, p: Pins, inp: Inputs)
    ensures Loop(Timers.Isr(t, p), inp).final == Timers.Isr(t, Loop(p, inp).final)
  {
  }

  /**
   * The OnBattery input rising while Tamper stays low: the next iteration
   * reports "Batery:1  Tamper:0  " and moves only LED3.
   */
  lemma BatteryRises(p: Pins)
    ensures var before := Loop(p, Inputs(false, false)).final;
      var after := Loop(before, Inputs(true, false));
      after.uart1 == "\r\nBatery:1  Tamper:0  " && after.final == before.(led3 := true)
  {
  }
}
