/**
 * The three line-echo machines side by side: `USART0_RX_IRQHandler`
 * (`rxBuffer1`/`rxIndex1`), `UART0_RX_IRQHandler` (`rxBuffer2`/`rxIndex2`)
 * and `UART1_RX_IRQHandler` (`rxBuffer3`/`rxIndex3`).  Each handler call is
 * one atomic step.
 */
module EchoPorts {
  import opened Board
  import opened Uart
  import opened LineEcho

  /** The states of the three links. */
  datatype Engines = Engines(usart0: Link, uart0: Link, uart1: Link) {
    predicate Valid() {
      usart0.Valid() && uart0.Valid() && uart1.Valid()
    }

    function Get(p: Port): Link {
      match p
      case Usart0 => usart0
      case Uart0 => uart0
      case Uart1 => uart1
    }

    function With(p: Port, l: Link): (e: Engines)
      ensures e.Get(p) == l
      ensures forall q :: q != p ==> e.Get(q) == Get(q)
    {
      match p
      case Usart0 => this.(usart0 := l)
      case Uart0 => this.(uart0 := l)
      case Uart1 => this.(uart1 := l)
    }
  }

  /** A byte received on, or transmitted on, a port. */
  datatype Event = Event(port: Port, data: byte)

  /** The bytes of `events` that belong to port `p`, in order. */
  function On(events: seq<Event>, p: Port): (r: seq<byte>)
    ensures |r| <= |events|
  {
    if events == [] then []
    else (if events[0].port == p then [events[0].data] else []) + On(events[1..], p)
  }

  /** `data` tagged as transmitted on port `p`. */
  function Tag(p: Port, data: seq<byte>): (r: seq<Event>)
    ensures |r| == |data|
  {
    if data == [] then [] else [Event(p, data[0])] + Tag(p, data[1..])
  }

  /**
   * The receive interrupts in the order they are taken: the final states
   * of the three links and everything transmitted, tagged with its port.
   */
  function Run(e: Engines, received: seq<Event>): (r: (Engines, seq<Event>))
    requires e.Valid()
    ensures r.0.Valid()
    decreases |received|
  {
    if received == [] then (e, [])
    else
      var ev := received[0];
      var step := Step(e.Get(ev.port), ev.data);
      var rest := Run(e.With(ev.port, step.0), received[1..]);
      (rest.0, Tag(ev.port, step.1) + rest.1)
  }

  lemma {:induction false} OnConcat(a: seq<Event>, b: seq<Event>, p: Port)
    ensures On(a + b, p) == On(a, p) + On(b, p)
  {
    if a == [] {
      assert a + b == b;
    } else {
      assert (a + b)[0] == a[0];
      assert (a + b)[1..] == a[1..] + b;
      OnConcat(a[1..], b, p);
      var head := if a[0].port == p then [a[0].data] else [];
      assert On(a + b, p) == head + On(a[1..] + b, p);
      assert On(a, p) == head + On(a[1..], p);
    }
  }

  /** Bytes transmitted by a handler appear on its own port and no other. */
  lemma {:induction false} OnTag(q: Port, data: seq<byte>, p: Port)
    ensures On(Tag(q, data), p) == if p == q then data else []
  {
    if data != [] {
      OnTag(q, data[1..], p);
      assert data == [data[0]] + data[1..];
    }
  }

  /**
   * Per-link isolation: however the receive interrupts of the three links
   * interleave, what a port ends in and what it transmits are exactly what
   * its own machine does on its own bytes alone.
   */
  lemma {:induction false} RunIsolatesPorts(e: Engines, received: seq<Event>, p: Port)
    requires e.Valid()
    ensures Run(e, received).0.Get(p) == Feed(e.Get(p), On(received, p)).0
    ensures On(Run(e, received).1, p) == Feed(e.Get(p), On(received, p)).1
    decreases |received|
  {
    if received != [] {
      var ev := received[0];
      var step := Step(e.Get(ev.port), ev.data);
      var e1 := e.With(ev.port, step.0);
      RunIsolatesPorts(e1, received[1..], p);
      OnConcat(Tag(ev.port, step.1), Run(e1, received[1..]).1, p);
      OnTag(ev.port, step.1, p);
      if ev.port == p {
        assert On(received, p) == [ev.data] + On(received[1..], p);
        assert On(received, p)[1..] == On(received[1..], p);
      } else {
        assert On(received, p) == On(received[1..], p);
      }
    }
  }

  /**
   * A link that receives one complete line (no CR, no NUL, at most 255
   * bytes, then CR) from reset echoes that line on its own port, whatever
   * the other two links receive and however the traffic is interleaved.
   */
  lemma InterleavedLinesEchoed(received: seq<Event>, p: Port, line: seq<byte>)
    requires On(received, p) == line + [CR]
    requires CR !in line && NUL !in line && |line| <= BUFFER_SIZE - 1
    ensures On(Run(Engines(Initial(), Initial(), Initial()), received).1, p) == line + CRLF
  {
    var e := Engines(Initial(), Initial(), Initial());
    RunIsolatesPorts(e, received, p);
    EchoFidelity(e.Get(p), line);
  }

  // ---------------------------------------------------------------------
  // The imperative handlers

  /** The three receive buffers and indices, one `RxLink` per port. */
  class Ports {
    const usart0: RxLink
    const uart0: RxLink
    const uart1: RxLink

    ghost predicate Valid()
      reads this, usart0, uart0, uart1
    {
      && usart0.Valid() && uart0.Valid() && uart1.Valid()
      && usart0 != uart0 && usart0 != uart1 && uart0 != uart1
      && usart0.buf != uart0.buf && usart0.buf != uart1.buf && uart0.buf != uart1.buf
    }

    ghost function State(): (e: Engines)
      reads this, usart0, uart0, uart1, usart0.buf, uart0.buf, uart1.buf
      requires Valid()
      ensures e.Valid()
    {
      Engines(usart0.State(), uart0.State(), uart1.State())
    }

    constructor ()
      ensures Valid()
      ensures fresh(usart0) && fresh(uart0) && fresh(uart1)
      ensures fresh(usart0.buf) && fresh(uart0.buf) && fresh(uart1.buf)
      ensures State() == Engines(Initial(), Initial(), Initial())
    {
      usart0 := new RxLink();
      uart0 := new RxLink();
      uart1 := new RxLink();
    }

    /** `USART0_RX_IRQHandler`: touches only `rxBuffer1`/`rxIndex1`, sends only on USART0. */
    method Usart0RxIrqHandler(b: byte) returns (sent: seq<byte>)
      requires Valid()
      modifies usart0`idx, usart0.buf
      ensures Valid()
      ensures (State(), Tag(Usart0, sent)) == Run(old(State()), [Event(Usart0, b)])
    {
      sent := usart0.OnByte(b);
      RunOne(old(State()), Usart0, b);
    }

    /** `UART0_RX_IRQHandler`: touches only `rxBuffer2`/`rxIndex2`, sends only on UART0. */
    method Uart0RxIrqHandler(b: byte) returns (sent: seq<byte>)
      requires Valid()
      modifies uart0`idx, uart0.buf
      ensures Valid()
      ensures (State(), Tag(Uart0, sent)) == Run(old(State()), [Event(Uart0, b)])
    {
      sent := uart0.OnByte(b);
      RunOne(old(State()), Uart0, b);
    }

    /** `UART1_RX_IRQHandler`: touches only `rxBuffer3`/`rxIndex3`, sends only on UART1. */
    method Uart1RxIrqHandler(b: byte) returns (sent: seq<byte>)
      requires Valid()
      modifies uart1`idx, uart1.buf
      ensures Valid()
      ensures (State(), Tag(Uart1, sent)) == Run(old(State()), [Event(Uart1, b)])
    {
      sent := uart1.OnByte(b);
      RunOne(old(State()), Uart1, b);
    }
  }

  /** One received byte: the port's machine steps and the others stay put. */
  lemma RunOne(e: Engines, p: Port, b: byte)
    requires e.Valid()
    ensures Run(e, [Event(p, b)]).0 == e.With(p, Step(e.Get(p), b).0)
    ensures Run(e, [Event(p, b)]).1 == Tag(p, Step(e.Get(p), b).1)
  {
    var step := Step(e.Get(p), b);
    assert [Event(p, b)][1..] == [];
    assert Run(e.With(p, step.0), []) == (e.With(p, step.0), []);
    assert Tag(p, step.1) + [] == Tag(p, step.1);
  }
}
