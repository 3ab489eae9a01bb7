/**
 * Bytes on the wire and the `sendString*` routines, which transmit a
 * NUL-terminated string one byte at a time.
 */
module Uart {

  type byte = bv8

  const NUL: byte := 0
  const LF: byte := 10
  /** Carriage return: the line terminator of the echo protocol. */
  const CR: byte := 13
  /** The fixed pair sent after every echoed line. */
  const CRLF: seq<byte> := [CR, LF]

  /** The bytes of `s` before its first NUL (all of `s` when it holds none). */
  function TakeUntilNul(s: seq<byte>): (r: seq<byte>)
    ensures |r| <= |s| && r == s[..|r|]
    ensures NUL !in r
  {
    if s == [] || s[0] == NUL then [] else [s[0]] + TakeUntilNul(s[1..])
  }

  /** The index of the first NUL in `s`, or |s| when there is none. */
  function NulIndex(s: seq<byte>): (k: nat)
    ensures k <= |s|
    ensures k < |s| ==> s[k] == NUL
    ensures forall j :: 0 <= j < k ==> s[j] != NUL
  {
    if s == [] then 0 else if s[0] == NUL then 0 else 1 + NulIndex(s[1..])
  }

  /** What is sent is exactly the prefix of `s` that ends at its first NUL. */
  lemma {:induction false} TakeUntilNulIsPrefix(s: seq<byte>)
    ensures TakeUntilNul(s) == s[..NulIndex(s)]
  {
    if s != [] && s[0] != NUL {
      TakeUntilNulIsPrefix(s[1..]);
      assert s[..NulIndex(s)] == [s[0]] + s[1..][..NulIndex(s[1..])];
    }
  }

  /** A string without NUL is sent whole. */
  lemma {:induction false} TakeUntilNulWhole(s: seq<byte>)
    requires NUL !in s
    ensures TakeUntilNul(s) == s
  {
    if s != [] {
      TakeUntilNulWhole(s[1..]);
      assert s == [s[0]] + s[1..];
    }
  }

  /** Bytes after a NUL are never looked at. */
  lemma {:induction false} TakeUntilNulStopsAt(s: seq<byte>, k: nat)
    requires k < |s| && s[k] == NUL
    ensures TakeUntilNul(s) == TakeUntilNul(s[..k])
  {
    if k > 0 && s[0] != NUL {
      TakeUntilNulStopsAt(s[1..], k - 1);
      assert s[..k][1..] == s[1..][..k - 1];
    }
  }

  /**
   * `sendStringUSART0/UART0/UART1`: walks the buffer from its start and
   * transmits every byte until the first NUL, which is not sent.  The C
   * loop reads past the end of a string that has no NUL, so callers must
   * provide one.
   */
  method SendString(str: array<byte>) returns (sent: seq<byte>)
    requires NUL in str[..]
    ensures sent == TakeUntilNul(str[..])
    ensures NUL !in sent
  {
    ghost var stop := NulIndex(str[..]);
    sent := [];
    var i := 0;
    while str[i] != NUL
      invariant 0 <= i <= stop < str.Length
      invariant sent == str[..i]
      decreases stop - i
    {
      sent := sent + [str[i]];
      i := i + 1;
    }
    TakeUntilNulIsPrefix(str[..]);
  }
}
