/** The bounded reader of a server's opening line. TCP may split the bytes
    anywhere; the verdict on the greeting must not depend on where. */
module Greeting {
  import opened Text
  import opened Unicode

  const NEWLINE: byte := 10
  const MAX_GREETING_BYTES: nat := 512
  const CHUNK_BYTES: nat := 128

  /** What one `read` returned; an empty read is the end of the stream. */
  datatype Read = Data(bytes: seq<byte>) | Eof | Failed

  /** The connection, read by read: it may go on for ever. */
  type Source = nat -> Read

  ghost predicate Readable(input: Source) {
    forall i :: input(i).Data? ==> 1 <= |input(i).bytes| <= CHUNK_BYTES
  }

  predicate Enough(collected: seq<byte>) { NEWLINE in collected || |collected| >= MAX_GREETING_BYTES }

  function Take(s: seq<byte>, n: nat): seq<byte> { if |s| <= n then s else s[..n] }

  /** Everything from read `i` on, until there is enough, the peer closes, or a
      read fails. Each read brings a byte, so this ends on any connection. */
  function Collected(input: Source, i: nat, soFar: seq<byte>): Option<seq<byte>>
    requires Readable(input) && !Enough(soFar)
    decreases MAX_GREETING_BYTES - |soFar|
  {
    match input(i)
    case Eof => Some(soFar)
    case Failed => None
    case Data(bytes) =>
      var now := soFar + bytes;
      if Enough(now) then Some(now) else Collected(input, i + 1, now)
  }

  function Greeting(input: Source): Option<seq<byte>>
    requires Readable(input)
  {
    var c := Collected(input, 0, []);
    if c.None? then None else Some(Take(c.value, MAX_GREETING_BYTES))
  }

  method ReadGreetingLine(input: Source) returns (greeting: Option<seq<byte>>)
    requires Readable(input)
    ensures greeting == Greeting(input)
    ensures greeting.Some? ==> |greeting.value| <= MAX_GREETING_BYTES
  {
    var collected: seq<byte> := [];
    var i := 0;
    while true
      invariant !Enough(collected)
      invariant Collected(input, 0, []) == Collected(input, i, collected)
      decreases MAX_GREETING_BYTES - |collected|
    {
      match input(i) {
        case Eof => break;
        case Failed => return None;
        case Data(bytes) =>
          collected := collected + bytes;
          // The buffer never outgrows the bound by a whole chunk.
          assert |collected| < MAX_GREETING_BYTES + CHUNK_BYTES;
          if Enough(collected) {
            break;
          }
      }
      i := i + 1;
    }
    greeting := Some(Take(collected, MAX_GREETING_BYTES));
  }

  // ----- which read ends it -------------------------------------------------

  /** The bytes of the reads before `i`, put together. */
  ghost function Gathered(input: Source, i: nat): seq<byte> {
    if i == 0 then [] else Gathered(input, i - 1) + if input(i - 1).Data? then input(i - 1).bytes else []
  }

  /** Read `i` takes place: every read before it brought bytes, and not yet enough. */
  ghost predicate Reaches(input: Source, i: nat) {
    (forall j :: 0 <= j < i ==> input(j).Data?) && !Enough(Gathered(input, i))
  }

  ghost predicate FailsAt(input: Source, i: nat) { Reaches(input, i) && input(i).Failed? }

  /** With read `i` the greeting is complete: the peer closed, or there is enough. */
  ghost predicate CompleteAt(input: Source, i: nat) {
    Reaches(input, i) && (input(i).Eof? || (input(i).Data? && Enough(Gathered(input, i + 1))))
  }

  lemma {:induction false} GatheredGrows(input: Source, i: nat, j: nat)
    requires i <= j
    ensures Gathered(input, i) <= Gathered(input, j)
    decreases j
  {
    if i < j {
      GatheredGrows(input, i, j - 1);
    }
  }

  /** Too few bytes now means too few at every read before. */
  lemma ReachesAll(input: Source, i: nat, j: nat)
    requires i <= j && Reaches(input, j)
    ensures Reaches(input, i)
  {
    GatheredGrows(input, i, j);
  }

  /** At most one read can end it. */
  lemma OneEnd(input: Source, i: nat, j: nat)
    requires FailsAt(input, i) || CompleteAt(input, i)
    requires FailsAt(input, j) || CompleteAt(input, j)
    ensures i == j
  {
    var a, b := if i < j then i else j, if i < j then j else i;
    if a < b {
      ReachesAll(input, a + 1, b);
    }
  }

  /** Some read ends it, and decides the result. */
  lemma {:induction false} EndOf(input: Source, i: nat) returns (k: nat)
    requires Readable(input) && Reaches(input, i)
    ensures var c := Collected(input, i, Gathered(input, i));
      if c.None? then FailsAt(input, k) else CompleteAt(input, k) && c.value == Gathered(input, k + 1)
    decreases MAX_GREETING_BYTES - |Gathered(input, i)|
  {
    k := i;
    if input(i).Data? && !Enough(Gathered(input, i + 1)) {
      k := EndOf(input, i + 1);
    }
  }

  /** The reader fails exactly when a read fails before there is enough; whatever
      was gathered until then is given up. */
  lemma FailsExactly(input: Source)
    requires Readable(input)
    ensures Greeting(input).None? <==> exists i: nat :: FailsAt(input, i)
  {
    var k := EndOf(input, 0);
    if i: nat :| FailsAt(input, i) {
      OneEnd(input, i, k);
    }
  }

  /** And it succeeds, with the first 512 bytes of all it gathered, exactly when some
      read completes the greeting first. */
  lemma SucceedsExactly(input: Source)
    requires Readable(input)
    ensures Greeting(input).Some? <==> exists i: nat :: CompleteAt(input, i)
    ensures forall i: nat :: CompleteAt(input, i) ==>
      Greeting(input) == Some(Take(Gathered(input, i + 1), 512))
  {
    var k := EndOf(input, 0);
    forall i: nat | CompleteAt(input, i)
      ensures Greeting(input) == Some(Take(Gathered(input, i + 1), 512))
    {
      OneEnd(input, i, k);
    }
  }

  // ----- segmentation -------------------------------------------------------

  /** From read `i` on, `stream` arrives in non-empty pieces, and then its end. */
  predicate Segments(input: Source, i: nat, stream: seq<byte>)
    decreases |stream|
  {
    if stream == [] then input(i).Eof?
    else
      && input(i).Data? && input(i).bytes != [] && input(i).bytes <= stream
      && Segments(input, i + 1, stream[|input(i).bytes|..])
  }

  /** Up to and including the first newline, or everything. */
  function FirstLine(s: seq<byte>): seq<byte> {
    if s == [] then [] else if s[0] == NEWLINE then s[..1] else [s[0]] + FirstLine(s[1..])
  }

  lemma {:induction false} CollectedIsPrefix(input: Source, i: nat, rest: seq<byte>, soFar: seq<byte>)
    requires Readable(input) && Segments(input, i, rest) && !Enough(soFar)
    ensures var c := Collected(input, i, soFar);
      && c.Some? && c.value <= soFar + rest
      && (Enough(c.value) || c.value == soFar + rest)
      && |c.value| < MAX_GREETING_BYTES + CHUNK_BYTES
    decreases |rest|
  {
    if rest == [] {
      ConcatNothing(soFar);
    } else {
      var bytes := input(i).bytes;
      var now, left := soFar + bytes, rest[|bytes|..];
      assert soFar + rest == now + left;
      if !Enough(now) {
        CollectedIsPrefix(input, i + 1, left, now);
      }
    }
  }

  lemma {:induction false} FirstLineOfPrefix(a: seq<byte>, b: seq<byte>)
    requires a <= b && NEWLINE in a
    ensures FirstLine(a) == FirstLine(b)
  {
    if a[0] != NEWLINE {
      FirstLineOfPrefix(a[1..], b[1..]);
    }
  }

  lemma {:induction false} PrefixOfFirstLine(p: seq<byte>, s: seq<byte>)
    requires NEWLINE !in p
    ensures p <= s <==> p <= FirstLine(s)
  {
    if p != [] && s != [] {
      PrefixOfFirstLine(p[1..], s[1..]);
      if s[0] != NEWLINE {
        assert FirstLine(s)[1..] == FirstLine(s[1..]);
        assert p <= s <==> p[0] == s[0] && p[1..] <= s[1..];
        assert p <= FirstLine(s) <==> p[0] == s[0] && p[1..] <= FirstLine(s)[1..];
      }
    }
  }

  /** However the stream is cut up, the first line of the greeting is the first
      line of the stream's first 512 bytes. */
  lemma FirstLineIsSegmentationIndependent(input: Source, stream: seq<byte>)
    requires Readable(input) && Segments(input, 0, stream)
    ensures Greeting(input).Some?
    ensures FirstLine(Greeting(input).value) == FirstLine(Take(stream, MAX_GREETING_BYTES))
  {
    CollectedIsPrefix(input, 0, stream, []);
    ConcatNothing(stream);
    var c := Collected(input, 0, []).value;
    var t, whole := Take(c, MAX_GREETING_BYTES), Take(stream, MAX_GREETING_BYTES);
    assert t <= whole;
    if t != whole {
      assert t == c;
      FirstLineOfPrefix(t, whole);
    }
  }

  /** The verdict: for every segmentation, the greeting starts with a given
      newline-free text of at most 512 bytes exactly when the stream does. */
  lemma VerdictIsSegmentationIndependent(input: Source, stream: seq<byte>, expected: seq<byte>)
    requires Readable(input) && Segments(input, 0, stream)
    requires NEWLINE !in expected && |expected| <= MAX_GREETING_BYTES
    ensures Greeting(input).Some? && |Greeting(input).value| <= MAX_GREETING_BYTES
    ensures expected <= Greeting(input).value <==> expected <= stream
  {
    FirstLineIsSegmentationIndependent(input, stream);
    PrefixOfFirstLine(expected, Greeting(input).value);
    PrefixOfFirstLine(expected, Take(stream, MAX_GREETING_BYTES));
  }

  /** With a newline in the expected text the verdict would depend on the cut: one
      read sees past the first line, two reads stop at it. */
  lemma BeyondTheLineItDepends(a: byte, b: byte)
    requires a != NEWLINE
    ensures var stream := [a, NEWLINE, b];
      var whole: Source := i => if i == 0 then Data(stream) else Eof;
      var cut: Source := i => if i == 0 then Data([a, NEWLINE]) else if i == 1 then Data([b]) else Eof;
      && Readable(whole) && Readable(cut) && Segments(whole, 0, stream) && Segments(cut, 0, stream)
      && Greeting(whole) == Some(stream) && Greeting(cut) == Some([a, NEWLINE])
  {
    var stream := [a, NEWLINE, b];
    var whole: Source := i => if i == 0 then Data(stream) else Eof;
    var cut: Source := i => if i == 0 then Data([a, NEWLINE]) else if i == 1 then Data([b]) else Eof;
    assert stream[3..] == [] && stream[2..] == [b] && [b][1..] == [];
    assert Segments(whole, 1, []) && Segments(cut, 2, []) && Segments(cut, 1, [b]);
    ConcatNothing(stream);
    ConcatNothing([a, NEWLINE]);
    assert stream[1] == NEWLINE && [a, NEWLINE][1] == NEWLINE;
  }
}
