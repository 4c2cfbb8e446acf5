/** The result every probe publishes, and the normalisation applied to the text
    an operator or a monitored host writes into it. */
module Results {
  import opened Text

  /** Characters with a meaning in one of the two wire formats. */
  predicate IsDelimiter(c: char) {
    c == '\\' || c == ',' || c == '=' || c == ' ' || c == '"' || c == '\n' || c == '\r'
  }

  /** A printed floating-point number. Its digits are opaque here; all that
      matters is that no printed number holds a delimiter. */
  type Token = t: string | t != "" && forall c :: c in t ==> !IsDelimiter(c) witness "0"

  datatype Metric = Metric(key: string, value: Token)

  /** `metrics` lists the ordered map in its iteration order. */
  datatype ProbeResult = ProbeResult(
    name: string, kind: string, target: string, up: bool, responseMs: Token,
    status: Option<nat>, error: Option<string>, timestampMs: int, metrics: seq<Metric>)

  /** Unicode category Cc: C0, DEL and C1. */
  predicate IsControl(c: char) { c < ' ' || '\U{7F}' <= c <= '\U{9F}' }

  predicate ControlFree(s: string) { forall c :: c in s ==> !IsControl(c) }

  function HexDigit(n: nat): char
    requires n < 16
  {
    if n < 10 then '0' + n as char else 'a' + (n - 10) as char
  }

  function ControlCode(c: char): string {
    if c == '\n' then "\\n"
    else if c == '\r' then "\\r"
    else if c == '\t' then "\\t"
    else if IsControl(c) then ['\\', 'x', HexDigit(c as nat / 16), HexDigit(c as nat % 16)]
    else [c]
  }

  function HexValue(c: char): nat {
    if '0' <= c <= '9' then c as nat - '0' as nat
    else if 'a' <= c <= 'f' then c as nat - 'a' as nat + 10
    else 16
  }

  /** Three control characters are spelled by name, the others by the two hexadecimal
      digits of their code, and nothing else is touched. */
  lemma ControlCodeSpells(c: char)
    ensures ControlCode('\n') == "\\n" && ControlCode('\r') == "\\r" && ControlCode('\t') == "\\t"
    ensures IsControl(c) && c !in {'\n', '\r', '\t'} ==>
      var code := ControlCode(c);
      && |code| == 4 && code[..2] == "\\x"
      && HexValue(code[2]) < 16 && HexValue(code[3]) < 16
      && 16 * HexValue(code[2]) + HexValue(code[3]) == c as nat
    ensures !IsControl(c) ==> ControlCode(c) == [c]
  {
    if IsControl(c) && c !in {'\n', '\r', '\t'} {
      HexDigitReads(c as nat / 16);
      HexDigitReads(c as nat % 16);
    }
  }

  lemma HexDigitReads(n: nat)
    requires n < 16
    ensures HexValue(HexDigit(n)) == n
  {
  }

  /** Returns early when there is nothing to escape, otherwise rebuilds the string. */
  method EscapeControlChars(s: string) returns (out: string)
    ensures out == Encode(s, ControlCode)
    ensures ControlFree(out)
    ensures out == s <==> ControlFree(s)
  {
    EscapedIsControlFree(s);
    var clean := true;
    for i := 0 to |s|
      invariant clean <==> ControlFree(s[..i])
    {
      assert s[..i + 1] == s[..i] + [s[i]];
      clean := clean && !IsControl(s[i]);
    }
    assert s[..|s|] == s;
    if clean {
      return s;
    }
    out := "";
    for i := 0 to |s|
      invariant out == Encode(s[..i], ControlCode)
    {
      EncodeNext(s, i, ControlCode);
      out := out + ControlCode(s[i]);
    }
  }

  lemma {:induction false} EscapedIsControlFree(s: string)
    ensures ControlFree(Encode(s, ControlCode))
    ensures Encode(s, ControlCode) == s <==> ControlFree(s)
  {
    forall x | IsControl(x) ensures x !in Encode(s, ControlCode) {
      EncodeAvoids(s, ControlCode, x);
    }
    if ControlFree(s) {
      EncodeFixed(s, ControlCode);
    }
  }

  /** What every failing probe publishes: the remote host's words, made printable. */
  function Failure(name: string, kind: string, target: string, responseMs: Token, error: string, now: int): (r: ProbeResult)
    ensures r.name == name && r.kind == kind && r.target == target && r.responseMs == responseMs && r.timestampMs == now
    ensures !r.up && r.status.None? && r.metrics == []
    ensures r.error.Some? && ControlFree(r.error.value)
    ensures r.error == Some(error) <==> ControlFree(error)
  {
    EscapedIsControlFree(error);
    ProbeResult(name, kind, target, false, responseMs, None, Some(Encode(error, ControlCode)), now, [])
  }

  /** Escaping a second time changes nothing. */
  lemma EscapingIsIdempotent(s: string)
    ensures Encode(Encode(s, ControlCode), ControlCode) == Encode(s, ControlCode)
  {
    EscapedIsControlFree(s);
    EscapedIsControlFree(Encode(s, ControlCode));
  }

  /** It is not injective: a raw newline and the two characters that spell it
      meet. Uniqueness therefore has to be checked after normalising. */
  lemma EscapingCollides()
    ensures ['\n'] != ['\\', 'n']
    ensures Encode(['\n'], ControlCode) == Encode(['\\', 'n'], ControlCode)
  {
    var raw, spelled: string := ['\n'], ['\\', 'n'];
    EncodeNext(raw, 0, ControlCode);
    assert raw[..1] == raw && raw[..0] == "";
    EncodeFixed(spelled, ControlCode);
  }
}
