/**
 * The line-echo receive state machine that each serial link runs in its
 * RX interrupt handler: bytes accumulate in a 256-byte buffer until a
 * carriage return arrives; then the buffer is echoed up to its first NUL,
 * followed by CR LF, and the index goes back to 0.
 */
module LineEcho {
  import opened Uart

  /** `BUFFER_SIZE`: the capacity of each receive buffer. */
  const BUFFER_SIZE: nat := 256

  /**
   * The state of one link: the whole buffer (`rxBufferN`) and the fill
   * index (`rxIndexN`).  Bytes of the buffer at and after `idx` are stale
   * leftovers of earlier lines.
   */
  datatype Link = Link(cells: seq<byte>, idx: nat) {
    /** The index always leaves room for the NUL written on CR. */
    predicate Valid() {
      |cells| == BUFFER_SIZE && idx < BUFFER_SIZE
    }

    /** The bytes accumulated for the line in progress. */
    function Line(): (line: seq<byte>)
      requires Valid()
      ensures |line| == idx
    {
      cells[..idx]
    }
  }

  /** The state at reset: C zero-initialises the global buffers and indices. */
  function Initial(): (s: Link)
    ensures s.Valid() && s.idx == 0 && NoCRStored(s)
    ensures forall i :: 0 <= i < |s.cells| ==> s.cells[i] == NUL
  {
    Link(seq(BUFFER_SIZE, _ => NUL), 0)
  }

  /** No cell of the buffer holds the terminator. */
  predicate NoCRStored(s: Link) {
    forall i :: 0 <= i < |s.cells| ==> s.cells[i] != CR
  }

  /**
   * One call of an RX interrupt handler on received byte `b`: the new link
   * state and the bytes it transmits on the same link.
   */
  function Step(s: Link, b: byte): (r: (Link, seq<byte>))
    requires s.Valid()
    ensures r.0.Valid()
    ensures NoCRStored(s) ==> NoCRStored(r.0)
    ensures b == CR ==> r.0.idx == 0 && |r.1| >= 2 && r.1[|r.1| - 2..] == CRLF
    ensures b != CR ==> r.1 == [] && r.0.idx >= s.idx
  {
    if b == CR then
      var cells := s.cells[s.idx := NUL];
      (Link(cells, 0), TakeUntilNul(cells) + CRLF)
    else if s.idx < BUFFER_SIZE - 1 then
      (Link(s.cells[s.idx := b], s.idx + 1), [])
    else
      (s, [])
  }

  /** A sequence of handler calls: the final state and everything sent. */
  function Feed(s: Link, input: seq<byte>): (r: (Link, seq<byte>))
    requires s.Valid()
    ensures r.0.Valid()
    decreases |input|
  {
    if input == [] then (s, [])
    else
      var first := Step(s, input[0]);
      var rest := Feed(first.0, input[1..]);
      (rest.0, first.1 + rest.1)
  }

  function Min(a: int, b: int): int { if a <= b then a else b }

  // ---------------------------------------------------------------------
  // Single steps

  /**
   * A non-CR byte received while the index is below 255 is stored at the
   * index, the index grows by one, no other cell changes and nothing is sent.
   */
  lemma StepStores(s: Link, b: byte)
    requires s.Valid() && b != CR && s.idx < BUFFER_SIZE - 1
    ensures Step(s, b).0.idx == s.idx + 1
    ensures Step(s, b).0.cells[s.idx] == b
    ensures forall i :: 0 <= i < BUFFER_SIZE && i != s.idx ==> Step(s, b).0.cells[i] == s.cells[i]
    ensures Step(s, b).0.Line() == s.Line() + [b]
    ensures Step(s, b).1 == []
  {
    assert Step(s, b).0.Line() == s.cells[s.idx := b][..s.idx + 1];
  }

  /** A non-CR byte received at index 255 is dropped: nothing changes or is sent. */
  lemma StepDrops(s: Link, b: byte)
    requires s.Valid() && b != CR && s.idx == BUFFER_SIZE - 1
    ensures Step(s, b) == (s, [])
  {
  }

  /**
   * CR is honoured at any fill level: it echoes the accumulated line cut at
   * its first NUL, then CR LF, and empties the line.  The NUL goes into the
   * cell at the old index; the terminator itself is never stored.
   */
  lemma {:induction false} StepFlushes(s: Link)
    requires s.Valid()
    ensures Step(s, CR).1 == TakeUntilNul(s.Line()) + CRLF
    ensures Step(s, CR).0.idx == 0
    ensures Step(s, CR).0.cells == s.cells[s.idx := NUL]
  {
    var cells := s.cells[s.idx := NUL];
    TakeUntilNulStopsAt(cells, s.idx);
    assert cells[..s.idx] == s.Line();
  }

  /** An immediate CR on an empty line sends just CR LF. */
  lemma EmptyLineEchoesCRLF(s: Link)
    requires s.Valid() && s.idx == 0
    ensures Step(s, CR).1 == CRLF
  {
    StepFlushes(s);
  }

  // ---------------------------------------------------------------------
  // Sequences of bytes

  /** Feeding `a + b` is feeding `a`, then feeding `b` from where `a` left off. */
  lemma {:induction false} FeedConcat(s: Link, a: seq<byte>, b: seq<byte>)
    requires s.Valid()
    ensures Feed(s, a + b).0 == Feed(Feed(s, a).0, b).0
    ensures Feed(s, a + b).1 == Feed(s, a).1 + Feed(Feed(s, a).0, b).1
    decreases |a|
  {
    if a == [] {
      assert a + b == b;
    } else {
      var first := Step(s, a[0]);
      assert (a + b)[0] == a[0];
      assert (a + b)[1..] == a[1..] + b;
      FeedConcat(first.0, a[1..], b);
      assert Feed(s, a + b) == (Feed(first.0, a[1..] + b).0, first.1 + Feed(first.0, a[1..] + b).1);
      assert Feed(s, a) == (Feed(first.0, a[1..]).0, first.1 + Feed(first.0, a[1..]).1);
    }
  }

  /**
   * Bytes without a terminator are appended while there is room and dropped
   * afterwards: the line becomes the first `Min(idx + |input|, 255)` bytes of
   * the old line followed by the input, and nothing is sent.
   */
  lemma {:induction false} FeedAccumulates(s: Link, input: seq<byte>)
    requires s.Valid() && CR !in input
    ensures Feed(s, input).1 == []
    ensures Feed(s, input).0.idx == Min(s.idx + |input|, BUFFER_SIZE - 1)
    ensures Feed(s, input).0.Line() == (s.Line() + input)[..Feed(s, input).0.idx]
    decreases |input|
  {
    if input != [] {
      var b := input[0];
      var s1 := Step(s, b).0;
      assert CR !in input[1..];
      FeedAccumulates(s1, input[1..]);
      assert s.Line() + input == s.Line() + [b] + input[1..];
      if s.idx < BUFFER_SIZE - 1 {
        StepStores(s, b);
      } else {
        assert s1 == s;
        assert (s.Line() + input)[..BUFFER_SIZE - 1] == s.Line();
      }
    }
  }

  /**
   * A line sent as `input` and closed by CR, starting from any state:
   * the echo is the accumulated line (old line, then the input, capped at
   * 255 bytes) cut at its first NUL, then CR LF; afterwards the line is empty.
   */
  lemma {:induction false} EchoLine(s: Link, input: seq<byte>)
    requires s.Valid() && CR !in input
    ensures var kept := Min(s.idx + |input|, BUFFER_SIZE - 1);
      Feed(s, input + [CR]).1 == TakeUntilNul((s.Line() + input)[..kept]) + CRLF
    ensures Feed(s, input + [CR]).0.idx == 0
  {
    FeedConcat(s, input, [CR]);
    FeedAccumulates(s, input);
    var s1 := Feed(s, input).0;
    FeedOne(s1, CR);
    StepFlushes(s1);
  }

  /** Feeding one byte is one handler call. */
  lemma FeedOne(s: Link, b: byte)
    requires s.Valid()
    ensures Feed(s, [b]) == Step(s, b)
  {
    var first := Step(s, b);
    assert [b][1..] == [];
    assert Feed(first.0, []) == (first.0, []);
    assert first.1 + [] == first.1;
  }

  /**
   * Line echo fidelity: from an empty line, up to 255 bytes with neither CR
   * nor NUL, closed by CR, are echoed verbatim followed by CR LF.
   */
  lemma EchoFidelity(s: Link, input: seq<byte>)
    requires s.Valid() && s.idx == 0
    requires CR !in input && NUL !in input && |input| <= BUFFER_SIZE - 1
    ensures Feed(s, input + [CR]).1 == input + CRLF
    ensures Feed(s, input + [CR]).0.idx == 0
  {
    EchoLine(s, input);
    assert (s.Line() + input)[..|input|] == input;
    TakeUntilNulWhole(input);
  }

  /**
   * A received NUL is stored like any other byte but cuts the echo: only
   * the bytes before it are sent back.
   */
  lemma EchoStopsAtNul(s: Link, before: seq<byte>, after: seq<byte>)
    requires s.Valid() && s.idx == 0
    requires CR !in before + after && NUL !in before
    requires |before| < BUFFER_SIZE - 1
    ensures Feed(s, before + [NUL] + after + [CR]).1 == before + CRLF
  {
    var input := before + [NUL] + after;
    assert CR !in input by { assert input == (before + after)[..|before|] + [NUL] + (before + after)[|before|..]; }
    EchoLine(s, input);
    var kept := Min(|input|, BUFFER_SIZE - 1);
    var line := (s.Line() + input)[..kept];
    assert line[|before|] == NUL;
    TakeUntilNulStopsAt(line, |before|);
    assert line[..|before|] == before;
    TakeUntilNulWhole(before);
  }

  /**
   * An over-long line: the bytes past the 255th are dropped, and the CR
   * still flushes the first 255 (cut at a NUL, if any).
   */
  lemma EchoTruncatesLongLine(s: Link, input: seq<byte>)
    requires s.Valid() && s.idx == 0
    requires CR !in input && |input| >= BUFFER_SIZE - 1
    ensures Feed(s, input + [CR]).1 == TakeUntilNul(input[..BUFFER_SIZE - 1]) + CRLF
    ensures Feed(s, input + [CR]).0.idx == 0
  {
    EchoLine(s, input);
    assert s.Line() + input == input;
  }

  /** The terminator never ends up in the buffer, whatever is received. */
  lemma {:induction false} NeverStoresCR(s: Link, input: seq<byte>)
    requires s.Valid() && NoCRStored(s)
    ensures NoCRStored(Feed(s, input).0)
    decreases |input|
  {
    if input != [] {
      NeverStoresCR(Step(s, input[0]).0, input[1..]);
    }
  }

  // ---------------------------------------------------------------------
  // The imperative handler

  /** One link's receive buffer and index, updated in place by its handler. */
  class RxLink {
    const buf: array<byte>
    var idx: nat

    ghost predicate Valid()
      reads this
    {
      buf.Length == BUFFER_SIZE && idx < BUFFER_SIZE
    }

    /** The abstract state of the link. */
    ghost function State(): (s: Link)
      reads this, buf
      requires Valid()
      ensures s.Valid()
    {
      Link(buf[..], idx)
    }

    constructor ()
      ensures Valid() && fresh(buf)
      ensures State() == Initial()
    {
      buf := new byte[BUFFER_SIZE](_ => NUL);
      idx := 0;
      new;
      assert buf[..] == Initial().cells;
    }

    /**
     * The body of `USART0_RX_IRQHandler` (and of its two twins) for
     * received byte `b`; `sent` is what the handler transmits.
     */
    method OnByte(b: byte) returns (sent: seq<byte>)
      requires Valid()
      modifies this`idx, buf
      ensures Valid()
      ensures (State(), sent) == Step(old(State()), b)
    {
      if b == CR {
        buf[idx] := NUL;
        sent := SendString(buf);
        // sendString*("\r\n"): the literal holds no NUL, so all of it is sent
        sent := sent + CRLF;
        idx := 0;
      } else if idx < BUFFER_SIZE - 1 {
        buf[idx] := b;
        idx := idx + 1;
        sent := [];
      } else {
        sent := [];
      }
    }
  }
}
