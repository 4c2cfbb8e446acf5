/** Text as bytes. The queue is bounded, and counts, in bytes of UTF-8 (RFC 3629). */
module Unicode {
  import opened Text

  newtype byte = x: int | 0 <= x < 256

  /** One to four bytes: the scalar value in groups of six bits, the first byte
      telling how many follow. */
  function EncodeChar(c: char): seq<byte> {
    var n := c as int;
    if n < 0x80 then [n as byte]
    else if n < 0x800 then [(0xC0 + n / 64) as byte, Tail(n)]
    else if n < 0x1_0000 then [(0xE0 + n / 4096) as byte, Tail(n / 64), Tail(n)]
    else [(0xF0 + n / 262144) as byte, Tail(n / 4096), Tail(n / 64), Tail(n)]
  }

  function Tail(n: nat): byte { (0x80 + n % 64) as byte }

  function Utf8(s: string): seq<byte> {
    if s == "" then [] else EncodeChar(s[0]) + Utf8(s[1..])
  }

  /** How many bytes the character that starts with `first` takes; 0 for no start. */
  function Width(first: byte): nat {
    if first < 0x80 then 1 else if first < 0xC0 then 0 else if first < 0xE0 then 2
    else if first < 0xF0 then 3 else if first < 0xF8 then 4 else 0
  }

  /** The scalar value spelled by `b`, of the width its first byte announces. */
  function Scalar(b: seq<byte>): int
    requires b != [] && |b| == Width(b[0])
  {
    match |b|
    case 1 => b[0] as int
    case 2 => (b[0] as int - 0xC0) * 64 + (b[1] as int - 0x80)
    case 3 => (b[0] as int - 0xE0) * 4096 + (b[1] as int - 0x80) * 64 + (b[2] as int - 0x80)
    case _ => (b[0] as int - 0xF0) * 262144 + (b[1] as int - 0x80) * 4096 + (b[2] as int - 0x80) * 64 + (b[3] as int - 0x80)
  }

  predicate IsScalar(n: int) { 0 <= n < 0xD800 || 0xE000 <= n < 0x11_0000 }

  function Decode(b: seq<byte>): Option<string> {
    if b == [] then Some("")
    else
      var w := Width(b[0]);
      if w == 0 || |b| < w || !IsScalar(Scalar(b[..w])) then None
      else
        var rest := Decode(b[w..]);
        if rest.None? then None else Some([Scalar(b[..w]) as char] + rest.value)
  }

  /** One byte below U+0080, two below U+0800, three below U+10000, four above. */
  lemma CharWidths(c: char)
    ensures |EncodeChar(c)| == if c < '\U{80}' then 1 else if c < '\U{800}' then 2 else if c < '\U{10000}' then 3 else 4
    ensures EncodeChar(c) != [] && Width(EncodeChar(c)[0]) == |EncodeChar(c)|
  {
  }

  lemma ScalarInverts(c: char)
    ensures Width(EncodeChar(c)[0]) == |EncodeChar(c)| && Scalar(EncodeChar(c)) == c as int
  {
    var n := c as int;
    assert n == n / 64 * 64 + n % 64 && n / 64 == n / 4096 * 64 + n / 64 % 64;
    assert n / 4096 == n / 262144 * 64 + n / 4096 % 64;
  }

  /** Every string reads back from its bytes. */
  lemma {:induction false} DecodeInverts(s: string)
    ensures Decode(Utf8(s)) == Some(s)
  {
    if s != "" {
      hide EncodeChar, Scalar, Width;
      var code, rest := EncodeChar(s[0]), Utf8(s[1..]);
      DecodeInverts(s[1..]);
      ScalarInverts(s[0]);
      CharWidths(s[0]);
      assert (code + rest)[..|code|] == code && (code + rest)[|code|..] == rest;
      assert (code + rest)[0] == code[0];
      assert s == [s[0]] + s[1..];
    }
  }

  lemma {:induction false} Utf8Concat(a: string, b: string)
    ensures Utf8(a + b) == Utf8(a) + Utf8(b)
  {
    hide EncodeChar;
    if a == "" {
      ConcatNothing(b);
      ConcatNothing(Utf8(b));
    } else {
      Utf8Concat(a[1..], b);
      assert (a + b)[1..] == a[1..] + b;
      ConcatAssoc(EncodeChar(a[0]), Utf8(a[1..]), Utf8(b));
    }
  }
}
