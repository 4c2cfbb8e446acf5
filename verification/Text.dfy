/** Strings as the encoders see them: single-character `replace`, one-pass
    escaping, joining and splitting on newline, decimal numerals. */
module Text {

  datatype Option<+T> = None | Some(value: T)

  lemma ConcatAssoc<T>(a: seq<T>, b: seq<T>, c: seq<T>)
    ensures a + b + c == a + (b + c)
  {
  }

  lemma ConcatNothing<T>(a: seq<T>)
    ensures a + [] == a && [] + a == a
  {
  }

  /** `s.replace(c, by)` for a one-character pattern. */
  function Replace(s: string, c: char, sub: string): string {
    if s == "" then "" else (if s[0] == c then sub else [s[0]]) + Replace(s[1..], c, sub)
  }

  lemma {:induction false} ReplaceConcat(a: string, b: string, c: char, sub: string)
    ensures Replace(a + b, c, sub) == Replace(a, c, sub) + Replace(b, c, sub)
  {
    if a == "" {
      assert a + b == b;
    } else {
      assert (a + b)[1..] == a[1..] + b;
      ReplaceConcat(a[1..], b, c, sub);
    }
  }

  /** Every character through `code`, in one pass. */
  function Encode(s: string, code: char -> string): string {
    if s == "" then "" else code(s[0]) + Encode(s[1..], code)
  }

  lemma {:induction false} EncodeConcat(a: string, b: string, code: char -> string)
    ensures Encode(a + b, code) == Encode(a, code) + Encode(b, code)
  {
    if a == "" {
      assert a + b == b;
    } else {
      assert (a + b)[1..] == a[1..] + b;
      EncodeConcat(a[1..], b, code);
    }
  }

  lemma {:induction false} EncodeNext(s: string, i: nat, code: char -> string)
    requires i < |s|
    ensures Encode(s[..i + 1], code) == Encode(s[..i], code) + code(s[i])
  {
    assert s[..i + 1] == s[..i] + [s[i]];
    EncodeConcat(s[..i], [s[i]], code);
    assert Encode([s[i]], code) == code(s[i]) + Encode("", code);
  }

  /** Characters the code leaves alone come out unchanged. */
  lemma {:induction false} EncodeFixed(s: string, code: char -> string)
    requires forall c :: c in s ==> code(c) == [c]
    ensures Encode(s, code) == s
  {
    if s != "" {
      EncodeFixed(s[1..], code);
    }
  }

  /** A character is absent from the output when no input character's code has it. */
  lemma {:induction false} EncodeAvoids(s: string, code: char -> string, x: char)
    ensures x !in Encode(s, code) <==> forall c :: c in s ==> x !in code(c)
  {
    if s != "" {
      EncodeAvoids(s[1..], code, x);
      assert s == [s[0]] + s[1..];
    }
  }

  /** `lines.join("\n")`. */
  function Join(lines: seq<string>): string {
    if lines == [] then "" else if |lines| == 1 then lines[0] else lines[0] + "\n" + Join(lines[1..])
  }

  /** The pieces between newlines; always at least one. */
  function Split(s: string): (pieces: seq<string>)
    ensures pieces != [] && forall p :: p in pieces ==> '\n' !in p
  {
    if s == "" then [""]
    else if s[0] == '\n' then [""] + Split(s[1..])
    else
      var rest := Split(s[1..]);
      [[s[0]] + rest[0]] + rest[1..]
  }

  lemma {:induction false} SplitPrefix(line: string, rest: string)
    requires '\n' !in line
    ensures Split(line) == [line]
    ensures Split(line + "\n" + rest) == [line] + Split(rest)
  {
    var s := line + "\n" + rest;
    if line == "" {
      assert s[1..] == rest;
    } else {
      SplitPrefix(line[1..], rest);
      assert s[1..] == line[1..] + "\n" + rest;
      assert line == [line[0]] + line[1..];
    }
  }

  /** Splitting undoes joining exactly when no joined line holds a newline. */
  lemma {:induction false} SplitJoin(lines: seq<string>)
    requires lines != []
    ensures Split(Join(lines)) == lines <==> forall l :: l in lines ==> '\n' !in l
  {
    if forall l :: l in lines ==> '\n' !in l {
      SplitJoinFramed(lines);
    }
  }

  lemma {:induction false} SplitJoinFramed(lines: seq<string>)
    requires lines != []
    requires forall l :: l in lines ==> '\n' !in l
    ensures Split(Join(lines)) == lines
  {
    assert lines[0] in lines;
    if |lines| == 1 {
      SplitPrefix(lines[0], "");
      assert lines == [lines[0]];
    } else {
      SplitJoinFramed(lines[1..]);
      SplitPrefix(lines[0], Join(lines[1..]));
      assert lines == [lines[0]] + lines[1..];
    }
  }

  /** Decimal numerals, as `{}` prints an unsigned and a signed integer. */
  function Decimal(n: nat): (s: string)
    ensures s != "" && forall c :: c in s ==> IsDigit(c)
    ensures s[0] == '0' ==> s == "0"
    ensures s[0] == '0' <==> n == 0
  {
    if n < 10 then ['0' + n as char] else Decimal(n / 10) + ['0' + (n % 10) as char]
  }

  predicate IsDigit(c: char) { '0' <= c <= '9' }

  function ParseDecimal(s: string): Option<nat> {
    if s == "" || !IsDigit(s[|s| - 1]) then None
    else
      var d := (s[|s| - 1] - '0') as nat;
      if |s| == 1 then Some(d)
      else match ParseDecimal(s[..|s| - 1])
        case None => None
        case Some(front) => Some(10 * front + d)
  }

  lemma {:induction false} ParseDecimalInverts(n: nat)
    ensures ParseDecimal(Decimal(n)) == Some(n)
  {
    var s := Decimal(n);
    if n >= 10 {
      ParseDecimalInverts(n / 10);
      assert s[..|s| - 1] == Decimal(n / 10);
    }
  }

  function SignedDecimal(n: int): string {
    if n < 0 then "-" + Decimal(-n) else Decimal(n)
  }

  function ParseSigned(s: string): Option<int> {
    if s != "" && s[0] == '-' then
      var digits := ParseDecimal(s[1..]);
      if digits.None? then None else Some(-(digits.value as int))
    else
      ParseDecimal(s)
  }

  lemma ParseSignedInverts(n: int)
    ensures ParseSigned(SignedDecimal(n)) == Some(n)
  {
    hide Decimal, ParseDecimal;
    var digits := Decimal(if n < 0 then -n else n);
    ParseDecimalInverts(if n < 0 then -n else n);
    assert digits[0] in digits;
    assert (['-'] + digits)[1..] == digits;
  }
}
