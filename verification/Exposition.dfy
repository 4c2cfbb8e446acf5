/** The metrics page: the latest results and the write-path counters as Prometheus
    text. The page is printed family by family; a reader of the format undoes it. */
module Exposition {
  import opened Text
  import opened Results

  // ----- characters ---------------------------------------------------------

  predicate NameChar(c: char) {
    'a' <= c <= 'z' || 'A' <= c <= 'Z' || '0' <= c <= '9' || c == '_' || c == ':'
  }

  predicate AllNameChars(s: string) { forall c :: c in s ==> NameChar(c) }

  function SanitiseCode(c: char): string { if NameChar(c) then [c] else "_" }

  /** Anything that cannot stand in a metric name becomes an underscore. */
  function Sanitise(key: string): string { Encode(key, SanitiseCode) }

  lemma {:induction false} SanitisedIsName(key: string)
    ensures AllNameChars(Sanitise(key)) && |Sanitise(key)| == |key|
    ensures Sanitise(key) == key <==> AllNameChars(key)
  {
    if key != "" {
      SanitisedIsName(key[1..]);
      assert key == [key[0]] + key[1..];
      assert Sanitise(key) == SanitiseCode(key[0]) + Sanitise(key[1..]);
    }
  }

  function LabelCode(c: char): string {
    if c == '\\' then ['\\', '\\']
    else if c == '"' then ['\\', '"']
    else if c == '\n' then ['\\', 'n']
    else [c]
  }

  /** A label value as it stands between quotes, with the closing one. */
  function Quoted(value: string): string { Encode(value, LabelCode) + "\"" }

  method EscapeLabel(value: string) returns (escaped: string)
    ensures escaped + "\"" == Quoted(value)
    ensures '\n' !in escaped
    ensures ReadQuoted(escaped + "\"") == Some((value, ""))
  {
    hide ReadQuoted, Encode;
    escaped := "";
    assert value[..0] == [] && Encode([], LabelCode) == [] by {
      EncodeFixed([], LabelCode);
    }
    for i := 0 to |value|
      invariant escaped == Encode(value[..i], LabelCode)
    {
      EncodeNext(value, i, LabelCode);
      match value[i] {
        case '\\' => escaped := escaped + ['\\', '\\'];
        case '"' => escaped := escaped + ['\\', '"'];
        case '\n' => escaped := escaped + ['\\', 'n'];
        case c => escaped := escaped + [c];
      }
    }
    assert value[..|value|] == value;
    EncodeAvoids(value, LabelCode, '\n');
    ReadQuotedInverts(value, "");
    ConcatNothing(Quoted(value));
  }

  // ----- the document -------------------------------------------------------

  datatype Sample =
    | Labelled(probe: string, kind: string, target: string, value: Token)
    | Plain(value: Token)

  datatype Family = Family(name: string, help: string, kind: string, samples: seq<Sample>)

  const HELP := "# HELP "
  const TYPE := "# TYPE "
  const PROBE_LABEL := "{probe=\""
  const TYPE_LABEL := ",type=\""
  const TARGET_LABEL := ",target=\""
  const CLOSE := "} "

  function SampleText(s: Sample): string {
    match s
    case Plain(value) => " " + value
    case Labelled(probe, kind, target, value) =>
      PROBE_LABEL + (Quoted(probe) + (TYPE_LABEL + (Quoted(kind) + (TARGET_LABEL + (Quoted(target) + (CLOSE + value))))))
  }

  function SampleLines(name: string, samples: seq<Sample>): (ls: seq<string>)
    ensures |ls| == |samples|
  {
    if samples == [] then [] else [name + SampleText(samples[0])] + SampleLines(name, samples[1..])
  }

  /** Two header lines and a line per sample; nothing at all without samples. */
  function FamilyLines(f: Family): seq<string> {
    if f.samples == [] then []
    else [HELP + (f.name + (" " + f.help)), TYPE + (f.name + (" " + f.kind))] + SampleLines(f.name, f.samples)
  }

  function DocumentLines(fams: seq<Family>): seq<string> {
    if fams == [] then [] else FamilyLines(fams[0]) + DocumentLines(fams[1..])
  }

  /** Each line with its newline. */
  function Unlines(lines: seq<string>): string {
    if lines == [] then "" else lines[0] + "\n" + Unlines(lines[1..])
  }

  function Print(fams: seq<Family>): string { Unlines(DocumentLines(fams)) }

  /** The text of a family, literally: two headers, then each sample with its labels. */
  lemma FamilyIsTheFormat(f: Family, i: nat)
    requires i < |f.samples|
    ensures var ls := FamilyLines(f);
      && |ls| == |f.samples| + 2
      && ls[0] == "# HELP " + (f.name + (" " + f.help)) && ls[1] == "# TYPE " + (f.name + (" " + f.kind))
      && ls[i + 2] == f.name +
           match f.samples[i]
           case Plain(value) => " " + value
           case Labelled(probe, kind, target, value) =>
             "{probe=\"" + (Quoted(probe) + (",type=\"" + (Quoted(kind) + (",target=\"" + (Quoted(target) + ("} " + value))))))
  {
    hide SampleText;
    SampleLineAt(f.name, f.samples, i);
    SampleTextIs(f.samples[i]);
  }

  lemma {:induction false} SampleLineAt(name: string, samples: seq<Sample>, i: nat)
    requires i < |samples|
    ensures SampleLines(name, samples)[i] == name + SampleText(samples[i])
  {
    hide SampleText;
    if i > 0 {
      SampleLineAt(name, samples[1..], i - 1);
    }
  }

  lemma SampleTextIs(s: Sample)
    ensures SampleText(s) ==
           match s
           case Plain(value) => " " + value
           case Labelled(probe, kind, target, value) =>
             "{probe=\"" + (Quoted(probe) + (",type=\"" + (Quoted(kind) + (",target=\"" + (Quoted(target) + ("} " + value))))))
  {
    hide Quoted;
  }

  // ----- reading it back ----------------------------------------------------

  /** Up to the closing quote, undoing the escapes; the rest follows the quote. */
  function ReadQuoted(s: string): Option<(string, string)> {
    if s == "" || s[0] == '\n' then None
    else if s[0] == '"' then Some(("", s[1..]))
    else if s[0] != '\\' then Prepend(s[0], ReadQuoted(s[1..]))
    else if |s| == 1 then None
    else if s[1] == '\\' || s[1] == '"' then Prepend(s[1], ReadQuoted(s[2..]))
    else if s[1] == 'n' then Prepend('\n', ReadQuoted(s[2..]))
    else None
  }

  function Prepend(c: char, read: Option<(string, string)>): Option<(string, string)> {
    if read.None? then None else Some(([c] + read.value.0, read.value.1))
  }

  function After(prefix: string, s: string): Option<string> {
    if prefix <= s then Some(s[|prefix|..]) else None
  }

  /** The longest prefix of name characters. */
  function NamePrefix(s: string): (n: string)
    ensures n <= s
  {
    if s == "" || !NameChar(s[0]) then "" else [s[0]] + NamePrefix(s[1..])
  }

  predicate IsToken(s: string) { s != "" && forall c :: c in s ==> !IsDelimiter(c) }

  /** `opening`, then a quoted value. */
  function ReadLabel(opening: string, s: string): Option<(string, string)> {
    var rest := After(opening, s);
    if rest.None? then None else ReadQuoted(rest.value)
  }

  function ReadSample(s: string): Option<Sample> {
    var plain := After(" ", s);
    if plain.Some? then
      if IsToken(plain.value) then Some(Plain(plain.value)) else None
    else
      var probe := ReadLabel(PROBE_LABEL, s);
      if probe.None? then None
      else
        var kind := ReadLabel(TYPE_LABEL, probe.value.1);
        if kind.None? then None
        else
          var target := ReadLabel(TARGET_LABEL, kind.value.1);
          if target.None? then None
          else
            var value := After(CLOSE, target.value.1);
            if value.None? || !IsToken(value.value) then None
            else Some(Labelled(probe.value.0, kind.value.0, target.value.0, value.value))
  }

  datatype Item =
    | HelpLine(name: string, text: string)
    | TypeLine(name: string, text: string)
    | SampleLine(name: string, sample: Sample)

  /** A metric name, a space, and the rest of the line. */
  function ReadHeader(s: string): Option<(string, string)> {
    var name := NamePrefix(s);
    var rest := After(" ", s[|name|..]);
    if name == "" || rest.None? then None else Some((name, rest.value))
  }

  function ReadLine(l: string): Option<Item> {
    if HELP <= l then
      var h := ReadHeader(l[|HELP|..]);
      if h.None? then None else Some(HelpLine(h.value.0, h.value.1))
    else if TYPE <= l then
      var h := ReadHeader(l[|TYPE|..]);
      if h.None? then None else Some(TypeLine(h.value.0, h.value.1))
    else
      var name := NamePrefix(l);
      var s := ReadSample(l[|name|..]);
      if name == "" || s.None? then None else Some(SampleLine(name, s.value))
  }

  function ReadLines(ls: seq<string>): Option<seq<Item>> {
    if ls == [] then Some([])
    else
      var first, rest := ReadLine(ls[0]), ReadLines(ls[1..]);
      if first.None? || rest.None? then None else Some([first.value] + rest.value)
  }

  /** The samples of `name` at the front. */
  function Leading(name: string, items: seq<Item>): (r: seq<Sample>)
    ensures |r| <= |items|
  {
    if items != [] && items[0].SampleLine? && items[0].name == name
    then [items[0].sample] + Leading(name, items[1..])
    else []
  }

  /** A family is a help line and a type line of one name and that name's samples. */
  function ReadFamilies(items: seq<Item>): Option<seq<Family>> {
    if items == [] then Some([])
    else if |items| >= 2 && items[0].HelpLine? && items[1].TypeLine? && items[0].name == items[1].name then
      var samples := Leading(items[0].name, items[2..]);
      var rest := ReadFamilies(items[2 + |samples|..]);
      if rest.None? then None
      else Some([Family(items[0].name, items[0].text, items[1].text, samples)] + rest.value)
    else None
  }

  /** Every line ends in a newline. */
  function Read(text: string): Option<seq<Family>> {
    var pieces := Split(text);
    var n := |pieces| - 1;
    if pieces[n] != "" then None
    else
      var items := ReadLines(pieces[..n]);
      if items.None? then None else ReadFamilies(items.value)
  }

  // ----- the round trip -----------------------------------------------------

  lemma ReadQuotedNext(c: char, tail: string)
    requires ReadQuoted(tail).Some?
    ensures ReadQuoted(LabelCode(c) + tail) == Prepend(c, ReadQuoted(tail))
  {
    hide Prepend;
    var code := LabelCode(c);
    assert (code + tail)[|code|..] == tail;
  }

  lemma {:induction false} ReadQuotedInverts(value: string, rest: string)
    ensures ReadQuoted(Quoted(value) + rest) == Some((value, rest))
  {
    hide ReadQuoted, LabelCode;
    if value == "" {
      ReadQuotedEnd(rest);
      ConcatNothing("\"");
    } else {
      ReadQuotedInverts(value[1..], rest);
      ReadQuotedNext(value[0], Quoted(value[1..]) + rest);
      ConcatAssoc(LabelCode(value[0]), Encode(value[1..], LabelCode), "\"");
      ConcatAssoc(LabelCode(value[0]), Quoted(value[1..]), rest);
      assert value == [value[0]] + value[1..];
    }
  }

  lemma ReadQuotedEnd(rest: string)
    ensures ReadQuoted("\"" + rest) == Some(("", rest))
  {
    assert ("\"" + rest)[1..] == rest;
  }

  lemma AfterInverts(prefix: string, rest: string)
    ensures After(prefix, prefix + rest) == Some(rest)
  {
  }

  lemma ReadLabelInverts(opening: string, value: string, rest: string)
    ensures ReadLabel(opening, opening + (Quoted(value) + rest)) == Some((value, rest))
  {
    AfterInverts(opening, Quoted(value) + rest);
    ReadQuotedInverts(value, rest);
  }

  lemma ReadSampleInverts(s: Sample)
    ensures ReadSample(SampleText(s)) == Some(s)
  {
    hide ReadLabel, After, Quoted;
    match s {
      case Plain(value) => AfterInverts(" ", value);
      case Labelled(probe, kind, target, value) =>
        NotPlain(s);
        AfterInverts(CLOSE, value);
        var r2 := TARGET_LABEL + (Quoted(target) + (CLOSE + value));
        var r1 := TYPE_LABEL + (Quoted(kind) + r2);
        ReadLabelInverts(PROBE_LABEL, probe, r1);
        ReadLabelInverts(TYPE_LABEL, kind, r2);
        ReadLabelInverts(TARGET_LABEL, target, CLOSE + value);
    }
  }

  lemma NotPlain(s: Sample)
    requires s.Labelled?
    ensures After(" ", SampleText(s)).None?
  {
    assert SampleText(s)[0] == '{';
  }

  lemma {:induction false} NamePrefixInverts(name: string, rest: string)
    requires AllNameChars(name)
    requires rest == "" || !NameChar(rest[0])
    ensures NamePrefix(name + rest) == name && (name + rest)[|name|..] == rest
  {
    if name == "" {
      ConcatNothing(rest);
    } else {
      NamePrefixInverts(name[1..], rest);
      assert (name + rest)[1..] == name[1..] + rest;
      assert name == [name[0]] + name[1..];
    }
  }

  predicate IsName(s: string) { s != "" && AllNameChars(s) }

  lemma ReadHeaderInverts(name: string, text: string)
    requires IsName(name)
    ensures ReadHeader(name + (" " + text)) == Some((name, text))
  {
    hide After;
    AfterInverts(" ", text);
    NamePrefixInverts(name, " " + text);
  }

  lemma ReadHelpLine(name: string, text: string)
    requires IsName(name)
    ensures ReadLine(HELP + (name + (" " + text))) == Some(HelpLine(name, text))
  {
    hide ReadHeader;
    ReadHeaderInverts(name, text);
    AfterInverts(HELP, name + (" " + text));
  }

  lemma ReadTypeLine(name: string, text: string)
    requires IsName(name)
    ensures ReadLine(TYPE + (name + (" " + text))) == Some(TypeLine(name, text))
  {
    hide ReadHeader;
    ReadHeaderInverts(name, text);
    AfterInverts(TYPE, name + (" " + text));
    assert (TYPE + (name + (" " + text)))[2] == 'T';
    assert HELP[2] == 'H';
  }

  lemma SampleTextStarts(s: Sample)
    ensures SampleText(s) != "" && !NameChar(SampleText(s)[0])
  {
    if s.Labelled? {
      assert SampleText(s)[0] == PROBE_LABEL[0];
    }
  }

  lemma ReadSampleLine(name: string, s: Sample)
    requires IsName(name)
    ensures ReadLine(name + SampleText(s)) == Some(SampleLine(name, s))
  {
    hide ReadSample, SampleText;
    var l := name + SampleText(s);
    SampleTextStarts(s);
    NamePrefixInverts(name, SampleText(s));
    ReadSampleInverts(s);
    assert l[0] == name[0] && name[0] in name;
    assert HELP[0] == '#' && TYPE[0] == '#' && !NameChar('#');
  }

  // items

  function SampleItems(name: string, samples: seq<Sample>): (r: seq<Item>)
    ensures |r| == |samples|
  {
    if samples == [] then [] else [SampleLine(name, samples[0])] + SampleItems(name, samples[1..])
  }

  function FamilyItems(f: Family): seq<Item> {
    [HelpLine(f.name, f.help), TypeLine(f.name, f.kind)] + SampleItems(f.name, f.samples)
  }

  function DocumentItems(fams: seq<Family>): seq<Item> {
    if fams == [] then [] else FamilyItems(fams[0]) + DocumentItems(fams[1..])
  }

  /** A name of name characters, no newline in the header text, and a sample. */
  predicate Proper(f: Family) {
    IsName(f.name) && '\n' !in f.help && '\n' !in f.kind && f.samples != []
  }

  lemma {:induction false} ReadLinesConcat(a: seq<string>, b: seq<string>)
    requires ReadLines(a).Some? && ReadLines(b).Some?
    ensures ReadLines(a + b) == Some(ReadLines(a).value + ReadLines(b).value)
  {
    hide ReadLine;
    if a == [] {
      ConcatNothing(b);
      ConcatNothing(ReadLines(b).value);
    } else {
      ReadLinesConcat(a[1..], b);
      assert (a + b)[1..] == a[1..] + b;
      ConcatAssoc([ReadLine(a[0]).value], ReadLines(a[1..]).value, ReadLines(b).value);
    }
  }

  lemma ReadOneLine(l: string)
    requires ReadLine(l).Some?
    ensures ReadLines([l]) == Some([ReadLine(l).value])
  {
    hide ReadLine;
    assert ReadLines([l][1..]) == Some([]);
    ConcatNothing([ReadLine(l).value]);
  }

  lemma {:induction false} ReadSampleLines(name: string, samples: seq<Sample>)
    requires IsName(name)
    ensures ReadLines(SampleLines(name, samples)) == Some(SampleItems(name, samples))
  {
    hide ReadLine, IsName;
    if samples != [] {
      ReadSampleLine(name, samples[0]);
      ReadSampleLines(name, samples[1..]);
    }
  }

  lemma ReadFamilyLines(f: Family)
    requires Proper(f)
    ensures ReadLines(FamilyLines(f)) == Some(FamilyItems(f))
  {
    hide ReadLine, IsName;
    var help, kind := HELP + (f.name + (" " + f.help)), TYPE + (f.name + (" " + f.kind));
    ReadHelpLine(f.name, f.help);
    ReadTypeLine(f.name, f.kind);
    ReadSampleLines(f.name, f.samples);
    ReadOneLine(help);
    ReadOneLine(kind);
    ReadLinesConcat([help], [kind]);
    ReadLinesConcat([help] + [kind], SampleLines(f.name, f.samples));
    assert [help] + [kind] == [help, kind];
    assert [HelpLine(f.name, f.help)] + [TypeLine(f.name, f.kind)] == [HelpLine(f.name, f.help), TypeLine(f.name, f.kind)];
  }

  lemma {:induction false} ReadDocumentLines(fams: seq<Family>)
    requires forall f :: f in fams ==> Proper(f)
    ensures ReadLines(DocumentLines(fams)) == Some(DocumentItems(fams))
  {
    hide Proper, FamilyLines, FamilyItems, ReadLine;
    if fams != [] {
      ReadFamilyLines(fams[0]);
      ReadDocumentLines(fams[1..]);
      ReadLinesConcat(FamilyLines(fams[0]), DocumentLines(fams[1..]));
    }
  }

  lemma {:induction false} LeadingOf(name: string, samples: seq<Sample>, rest: seq<Item>)
    requires rest != [] ==> !rest[0].SampleLine?
    ensures Leading(name, SampleItems(name, samples) + rest) == samples
  {
    var items := SampleItems(name, samples) + rest;
    if samples != [] {
      LeadingOf(name, samples[1..], rest);
      assert items[1..] == SampleItems(name, samples[1..]) + rest;
    }
  }

  lemma ReadFamilyBody(f: Family, body: seq<Item>, rest: seq<Item>)
    requires Leading(f.name, body) == f.samples && body[|f.samples|..] == rest
    requires ReadFamilies(rest).Some?
    ensures ReadFamilies([HelpLine(f.name, f.help), TypeLine(f.name, f.kind)] + body)
         == Some([f] + ReadFamilies(rest).value)
  {
    hide Leading;
    var items := [HelpLine(f.name, f.help), TypeLine(f.name, f.kind)] + body;
    assert items[2..] == body;
    assert items[2 + |f.samples|..] == rest;
  }

  lemma ReadOneFamily(f: Family, rest: seq<Item>)
    requires rest != [] ==> !rest[0].SampleLine?
    requires ReadFamilies(rest).Some?
    ensures ReadFamilies(FamilyItems(f) + rest) == Some([f] + ReadFamilies(rest).value)
  {
    hide SampleItems, Leading, ReadFamilies;
    var samples := SampleItems(f.name, f.samples);
    LeadingOf(f.name, f.samples, rest);
    assert (samples + rest)[|f.samples|..] == rest;
    ReadFamilyBody(f, samples + rest, rest);
    ConcatAssoc([HelpLine(f.name, f.help), TypeLine(f.name, f.kind)], samples, rest);
  }

  lemma {:induction false} ReadFamiliesInverts(fams: seq<Family>)
    ensures ReadFamilies(DocumentItems(fams)) == Some(fams)
    ensures fams != [] ==> DocumentItems(fams)[0].HelpLine?
  {
    hide ReadFamilies;
    if fams == [] {
      NoFamilies([]);
    } else {
      ReadFamiliesInverts(fams[1..]);
      ReadOneFamily(fams[0], DocumentItems(fams[1..]));
      assert fams == [fams[0]] + fams[1..];
    }
  }

  lemma NoFamilies(items: seq<Item>)
    requires items == []
    ensures ReadFamilies(items) == Some([])
  {
  }

  lemma {:induction false} SplitUnlines(lines: seq<string>)
    requires forall l :: l in lines ==> '\n' !in l
    ensures Split(Unlines(lines)) == lines + [""]
  {
    if lines == [] {
      ConcatNothing([""]);
    } else {
      SplitUnlines(lines[1..]);
      SplitPrefix(lines[0], Unlines(lines[1..]));
      assert lines == [lines[0]] + lines[1..];
    }
  }

  // no newline inside a line

  lemma QuotedHasNoNewline(value: string)
    ensures '\n' !in Quoted(value)
  {
    EncodeAvoids(value, LabelCode, '\n');
  }

  lemma LabelHasNoNewline(opening: string, value: string, rest: string)
    requires '\n' !in opening && '\n' !in rest
    ensures '\n' !in opening + (Quoted(value) + rest)
  {
    hide Quoted;
    QuotedHasNoNewline(value);
  }

  lemma PunctuationHasNoNewline()
    ensures '\n' !in PROBE_LABEL && '\n' !in TYPE_LABEL && '\n' !in TARGET_LABEL
    ensures '\n' !in HELP && '\n' !in TYPE
  {
  }

  lemma SampleTextHasNoNewline(s: Sample)
    ensures '\n' !in SampleText(s)
  {
    hide Quoted;
    if s.Labelled? {
      PunctuationHasNoNewline();
      var end := CLOSE + s.value;
      var r2 := TARGET_LABEL + (Quoted(s.target) + end);
      var r1 := TYPE_LABEL + (Quoted(s.kind) + r2);
      LabelHasNoNewline(TARGET_LABEL, s.target, end);
      LabelHasNoNewline(TYPE_LABEL, s.kind, r2);
      LabelHasNoNewline(PROBE_LABEL, s.probe, r1);
    }
  }

  lemma {:induction false} SampleLinesHaveNoNewline(name: string, samples: seq<Sample>)
    requires IsName(name)
    ensures forall l :: l in SampleLines(name, samples) ==> '\n' !in l
  {
    hide SampleText;
    if samples != [] {
      SampleTextHasNoNewline(samples[0]);
      SampleLinesHaveNoNewline(name, samples[1..]);
    }
  }

  lemma HeaderHasNoNewline(opening: string, name: string, text: string)
    requires '\n' !in opening && IsName(name) && '\n' !in text
    ensures '\n' !in opening + (name + (" " + text))
  {
  }

  lemma {:induction false} DocumentLinesHaveNoNewline(fams: seq<Family>)
    requires forall f :: f in fams ==> Proper(f)
    ensures forall l :: l in DocumentLines(fams) ==> '\n' !in l
  {
    hide IsName;
    if fams != [] {
      var f := fams[0];
      assert Proper(f);
      PunctuationHasNoNewline();
      HeaderHasNoNewline(HELP, f.name, f.help);
      HeaderHasNoNewline(TYPE, f.name, f.kind);
      SampleLinesHaveNoNewline(f.name, f.samples);
      DocumentLinesHaveNoNewline(fams[1..]);
    }
  }

  /** Reading undoes printing, for any label values whatever. */
  lemma PrintRoundTrip(fams: seq<Family>)
    requires forall f :: f in fams ==> Proper(f)
    ensures Read(Print(fams)) == Some(fams)
  {
    hide Proper, ReadLines, ReadFamilies, DocumentLines, Unlines;
    DocumentLinesHaveNoNewline(fams);
    SplitUnlines(DocumentLines(fams));
    ReadDocumentLines(fams);
    ReadFamiliesInverts(fams);
    var pieces := Split(Print(fams));
    assert pieces[..|pieces| - 1] == DocumentLines(fams);
  }
}
