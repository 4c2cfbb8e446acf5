/** InfluxDB line protocol: how a result is written, and a reader that undoes it. */
module LineProtocol {
  import opened Text
  import opened Results

  // ----- escaping -----------------------------------------------------------

  /** The writer's tag escaping: four successive replacements, backslash first. */
  function EscapeTag(s: string): string {
    Replace(Replace(Replace(Replace(s, '\\', "\\\\"), ',', "\\,"), '=', "\\="), ' ', "\\ ")
  }

  /** The writer's field escaping: four successive replacements, backslash first. */
  function EscapeFieldStr(s: string): string {
    Replace(Replace(Replace(Replace(s, '\\', "\\\\"), '"', "\\\""), '\n', "\\n"), '\r', "\\r")
  }

  function TagCode(c: char): string {
    if c == '\\' || c == ',' || c == '=' || c == ' ' then ['\\', c] else [c]
  }

  function FieldCode(c: char): string {
    if c == '\\' || c == '"' then ['\\', c]
    else if c == '\n' then "\\n"
    else if c == '\r' then "\\r"
    else [c]
  }

  /** A replacement on a string of at most two characters, spelled out. */
  lemma ReplaceShort(c: char, d: char, x: char, sub: string)
    ensures Replace([c], x, sub) == if c == x then sub else [c]
    ensures Replace([c, d], x, sub) == (if c == x then sub else [c]) + (if d == x then sub else [d])
  {
    assert [c][1..] == "" && [c, d][1..] == [d];
    assert Replace([d], x, sub) == (if d == x then sub else [d]) + Replace([d][1..], x, sub);
  }

  /** The four passes amount to one pass over the characters. */
  lemma {:induction false} EscapeTagIsOnePass(s: string)
    ensures EscapeTag(s) == Encode(s, TagCode)
  {
    if s != "" {
      var c, t := s[0], s[1..];
      assert s == [c] + t;
      ReplaceConcat([c], t, '\\', "\\\\");
      var c1, t1 := Replace([c], '\\', "\\\\"), Replace(t, '\\', "\\\\");
      ReplaceConcat(c1, t1, ',', "\\,");
      var c2, t2 := Replace(c1, ',', "\\,"), Replace(t1, ',', "\\,");
      ReplaceConcat(c2, t2, '=', "\\=");
      var c3, t3 := Replace(c2, '=', "\\="), Replace(t2, '=', "\\=");
      ReplaceConcat(c3, t3, ' ', "\\ ");
      EscapeTagIsOnePass(t);
      ReplaceShort(c, c, '\\', "\\\\");
      TagPasses(c, c1, c2, c3);
    }
  }

  lemma TagPasses(c: char, c1: string, c2: string, c3: string)
    requires c1 == if c == '\\' then "\\\\" else [c]
    requires c2 == Replace(c1, ',', "\\,")
    requires c3 == Replace(c2, '=', "\\=")
    ensures Replace(c3, ' ', "\\ ") == TagCode(c)
  {
    ReplaceShort(c, c, ',', "\\,");
    ReplaceShort(c, c, '=', "\\=");
    ReplaceShort(c, c, ' ', "\\ ");
    ReplaceShort('\\', c, '=', "\\=");
    ReplaceShort('\\', c, ' ', "\\ ");
  }

  lemma {:induction false} EscapeFieldStrIsOnePass(s: string)
    ensures EscapeFieldStr(s) == Encode(s, FieldCode)
  {
    if s != "" {
      var c, t := s[0], s[1..];
      assert s == [c] + t;
      ReplaceConcat([c], t, '\\', "\\\\");
      var c1, t1 := Replace([c], '\\', "\\\\"), Replace(t, '\\', "\\\\");
      ReplaceConcat(c1, t1, '"', "\\\"");
      var c2, t2 := Replace(c1, '"', "\\\""), Replace(t1, '"', "\\\"");
      ReplaceConcat(c2, t2, '\n', "\\n");
      var c3, t3 := Replace(c2, '\n', "\\n"), Replace(t2, '\n', "\\n");
      ReplaceConcat(c3, t3, '\r', "\\r");
      EscapeFieldStrIsOnePass(t);
      ReplaceShort(c, c, '\\', "\\\\");
      FieldPasses(c, c1, c2, c3);
    }
  }

  lemma FieldPasses(c: char, c1: string, c2: string, c3: string)
    requires c1 == if c == '\\' then "\\\\" else [c]
    requires c2 == Replace(c1, '"', "\\\"")
    requires c3 == Replace(c2, '\n', "\\n")
    ensures Replace(c3, '\r', "\\r") == FieldCode(c)
  {
    ReplaceShort(c, c, '"', "\\\"");
    ReplaceShort(c, c, '\n', "\\n");
    ReplaceShort(c, c, '\r', "\\r");
    ReplaceShort('\\', c, '\n', "\\n");
    ReplaceShort('\\', c, '\r', "\\r");
    ReplaceShort('\\', 'n', '\r', "\\r");
  }

  /** Backslash has to go first: with the backslash pass last, the escape that
      protects a comma is itself escaped, and the comma is a delimiter again. */
  lemma BackslashLastBreaks()
    ensures ReadToken(Replace(Replace(",", ',', "\\,"), '\\', "\\\\"), {','}).1 == ","
    ensures ReadToken(EscapeTag(","), {','}) == (",", "")
  {
    ReplaceShort(',', ',', ',', "\\,");
    ReplaceShort('\\', ',', '\\', "\\\\");
    SkipsEscape('\\', [',']);
    EscapeTagIsOnePass(",");
    EncodeNext(",", 0, TagCode);
    assert ","[..1] == ",";
    SkipsEscape(',', []);
  }

  lemma SkipsEscape(c: char, rest: string)
    requires rest == [] || rest == [',']
    ensures ReadToken(['\\', c] + rest, {','}) == ([c], rest)
  {
    assert (['\\', c] + rest)[2..] == rest;
    assert ReadToken(rest, {','}) == ([], rest);
    assert [c] + [] == [c];
  }

  // ----- writing ------------------------------------------------------------

  datatype FieldValue = Raw(token: string) | Quoted(text: string)
  datatype Tag = Tag(key: string, value: string)
  datatype Field = Field(key: string, value: FieldValue)

  const MEASUREMENT := "probe_result"

  function PrintTag(t: Tag): string {
    "," + Encode(t.key, TagCode) + "=" + Encode(t.value, TagCode)
  }

  function PrintTags(tags: seq<Tag>): string {
    if tags == [] then "" else PrintTag(tags[0]) + PrintTags(tags[1..])
  }

  function PrintValue(v: FieldValue): string {
    match v
    case Raw(token) => token
    case Quoted(text) => "\"" + Encode(text, FieldCode) + "\""
  }

  function PrintField(f: Field): string { Encode(f.key, TagCode) + "=" + PrintValue(f.value) }

  /** Further fields, each behind its comma. */
  function PrintMore(fields: seq<Field>): string {
    if fields == [] then "" else "," + PrintField(fields[0]) + PrintMore(fields[1..])
  }

  function PrintFields(fields: seq<Field>): string
    requires fields != []
  {
    PrintField(fields[0]) + PrintMore(fields[1..])
  }

  function TagsOf(r: ProbeResult): seq<Tag> {
    [Tag("probe_name", r.name), Tag("probe_type", r.kind), Tag("target", r.target)]
  }

  function MetricFields(metrics: seq<Metric>): (fields: seq<Field>)
    ensures |fields| == |metrics|
    ensures forall i :: 0 <= i < |fields| ==>
      fields[i] == Field(metrics[i].key, Raw(metrics[i].value))
  {
    seq(|metrics|, i requires 0 <= i < |metrics| => Field(metrics[i].key, Raw(metrics[i].value)))
  }

  function StatusField(r: ProbeResult): seq<Field> {
    if r.status.Some? then [Field("status_code", Raw(Decimal(r.status.value) + "i"))] else []
  }

  function ErrorField(r: ProbeResult): seq<Field> {
    if r.error.Some? then [Field("error", Quoted(r.error.value))] else []
  }

  function FixedFields(r: ProbeResult): seq<Field> {
    [Field("up", Raw(if r.up then "1i" else "0i")), Field("response_ms", Raw(r.responseMs))]
    + StatusField(r) + ErrorField(r)
  }

  function FieldsOf(r: ProbeResult): seq<Field> { FixedFields(r) + MetricFields(r.metrics) }

  function PrintPoint(measurement: string, tags: seq<Tag>, fields: seq<Field>, timestampMs: int): string
    requires fields != []
  {
    measurement + PrintTags(tags) + " " + PrintFields(fields) + " " + SignedDecimal(timestampMs)
  }

  /** One point: measurement, tag set, field set, timestamp. */
  function Line(r: ProbeResult): string {
    PrintPoint(MEASUREMENT, TagsOf(r), FieldsOf(r), r.timestampMs)
  }

  // ----- reading ------------------------------------------------------------

  /** Reads up to the first unescaped character of `stops`; a backslash makes
      the character after it literal. Returns the text and what follows it. */
  function ReadToken(s: string, stops: set<char>): (r: (string, string))
    ensures |r.1| <= |s|
    ensures r.1 != "" ==> r.1[0] in stops
    decreases |s|
  {
    if s == "" then ("", "")
    else if s[0] == '\\' && |s| > 1 then
      var (t, rest) := ReadToken(s[2..], stops);
      ([s[1]] + t, rest)
    else if s[0] in stops then ("", s)
    else
      var (t, rest) := ReadToken(s[1..], stops);
      ([s[0]] + t, rest)
  }

  /** Reads a string field up to its closing quote. */
  function ReadQuoted(s: string): (r: Option<(string, string)>)
    ensures r.Some? ==> |r.value.1| < |s|
    decreases |s|
  {
    if s == "" then None
    else if s[0] == '"' then Some(("", s[1..]))
    else if s[0] == '\\' && |s| > 1 then
      var c := if s[1] == 'n' then '\n' else if s[1] == 'r' then '\r' else s[1];
      match ReadQuoted(s[2..])
      case None => None
      case Some((t, rest)) => Some(([c] + t, rest))
    else
      match ReadQuoted(s[1..])
      case None => None
      case Some((t, rest)) => Some(([s[0]] + t, rest))
  }

  function ReadValue(s: string): (r: Option<(FieldValue, string)>)
    ensures r.Some? ==> |r.value.1| <= |s|
  {
    if s != "" && s[0] == '"' then
      match ReadQuoted(s[1..])
      case None => None
      case Some((t, rest)) => Some((Quoted(t), rest))
    else
      var (t, rest) := ReadToken(s, {',', ' '});
      Some((Raw(t), rest))
  }

  function ReadTags(s: string): (seq<Tag>, string)
    decreases |s|
  {
    if s == "" || s[0] != ',' then ([], s)
    else
      var (key, afterKey) := ReadToken(s[1..], {'='});
      if afterKey == "" then ([], s)
      else
        var (value, rest) := ReadToken(afterKey[1..], {',', ' '});
        var (tags, end) := ReadTags(rest);
        ([Tag(key, value)] + tags, end)
  }

  function ReadFields(s: string): Option<(seq<Field>, string)>
    decreases |s|
  {
    var (key, afterKey) := ReadToken(s, {'='});
    if afterKey == "" then None
    else match ReadValue(afterKey[1..])
      case None => None
      case Some((value, rest)) =>
        if rest == "" || rest[0] != ',' then Some(([Field(key, value)], rest))
        else match ReadFields(rest[1..])
          case None => None
          case Some((fields, end)) => Some(([Field(key, value)] + fields, end))
  }

  datatype Point = Point(measurement: string, tags: seq<Tag>, fields: seq<Field>, timestampMs: int)

  /** Splits a line on its unescaped delimiters. */
  function ReadPoint(line: string): Option<Point> {
    var (measurement, afterName) := ReadToken(line, {',', ' '});
    var (tags, afterTags) := ReadTags(afterName);
    if afterTags == "" then None
    else match ReadFields(afterTags[1..])
      case None => None
      case Some((fields, afterFields)) =>
        if afterFields == "" then None
        else match ParseSigned(afterFields[1..])
          case None => None
          case Some(ts) => Some(Point(measurement, tags, fields, ts))
  }

  /** The fixed fields, and the probe-specific readings beside them. */
  datatype FieldName = Up | ResponseMs | StatusCode | ErrorText | Reading(key: string)
  datatype Entry = Entry(name: FieldName, value: FieldValue)

  function NameOf(key: string): FieldName {
    if key == "up" then Up
    else if key == "response_ms" then ResponseMs
    else if key == "status_code" then StatusCode
    else if key == "error" then ErrorText
    else Reading(key)
  }

  /** A metric key that spells one of the fixed fields. */
  predicate BuiltInKey(key: string) { !NameOf(key).Reading? }

  function Entries(fields: seq<Field>): (es: seq<Entry>)
    ensures |es| == |fields|
  {
    if fields == [] then [] else [Entry(NameOf(fields[0].key), fields[0].value)] + Entries(fields[1..])
  }

  function Lookup(entries: seq<Entry>, name: FieldName): Option<FieldValue> {
    if entries == [] then None
    else if entries[0].name == name then Some(entries[0].value)
    else Lookup(entries[1..], name)
  }

  predicate IsToken(t: string) {
    t != "" && forall c :: c in t ==> !IsDelimiter(c)
  }

  /** Every field that is not one of the fixed ones is a metric. */
  function MetricsIn(entries: seq<Entry>): (ms: seq<Metric>)
    ensures |ms| <= |entries|
  {
    if entries == [] then []
    else if entries[0].name.Reading? && entries[0].value.Raw? && IsToken(entries[0].value.token)
    then [Metric(entries[0].name.key, entries[0].value.token)] + MetricsIn(entries[1..])
    else MetricsIn(entries[1..])
  }

  function ReadInteger(t: string): Option<nat> {
    if t != "" && t[|t| - 1] == 'i' then ParseDecimal(t[..|t| - 1]) else None
  }

  function Interpret(name: string, kind: string, target: string, entries: seq<Entry>, timestampMs: int)
    : Option<ProbeResult>
  {
    match (Lookup(entries, Up), Lookup(entries, ResponseMs))
    case (Some(Raw(up)), Some(Raw(ms))) =>
      var status := Lookup(entries, StatusCode);
      var error := Lookup(entries, ErrorText);
      if !IsToken(ms) then None
      else
        Some(ProbeResult(name, kind, target, ReadInteger(up) == Some(1), ms,
                         if status.Some? && status.value.Raw? then ReadInteger(status.value.token) else None,
                         if error.Some? && error.value.Quoted? then Some(error.value.text) else None,
                         timestampMs, MetricsIn(entries)))
    case _ => None
  }

  predicate ExpectedTags(tags: seq<Tag>) {
    |tags| == 3 && tags[0].key == "probe_name" && tags[1].key == "probe_type" && tags[2].key == "target"
  }

  /** Rebuilds a result from its line. */
  function ParseLine(line: string): Option<ProbeResult> {
    match ReadPoint(line)
    case None => None
    case Some(p) =>
      if p.measurement != MEASUREMENT || !ExpectedTags(p.tags) then None
      else Interpret(p.tags[0].value, p.tags[1].value, p.tags[2].value, Entries(p.fields), p.timestampMs)
  }

  // ----- the reader undoes the writer --------------------------------------

  lemma ReadTokenStep(c: char, tail: string, stops: set<char>)
    requires stops <= {',', '=', ' '}
    ensures ReadToken(TagCode(c) + tail, stops) == ([c] + ReadToken(tail, stops).0, ReadToken(tail, stops).1)
  {
    var s := TagCode(c) + tail;
    assert s[|TagCode(c)|..] == tail;
  }

  /** An encoded token followed by a stop is read back whole. */
  lemma {:induction false} ReadEncoded(v: string, rest: string, stops: set<char>)
    requires stops <= {',', '=', ' '}
    requires rest != "" && rest[0] in stops
    ensures ReadToken(Encode(v, TagCode) + rest, stops) == (v, rest)
  {
    if v == "" {
      ConcatNothing(rest);
    } else {
      hide TagCode, ReadToken;
      var tail := Encode(v[1..], TagCode) + rest;
      ReadEncoded(v[1..], rest, stops);
      ReadTokenStep(v[0], tail, stops);
      ConcatAssoc(TagCode(v[0]), Encode(v[1..], TagCode), rest);
      assert v == [v[0]] + v[1..];
    }
  }

  lemma ReadQuotedStep(c: char, tail: string)
    ensures ReadQuoted(FieldCode(c) + tail)
         == match ReadQuoted(tail)
            case None => None
            case Some((t, rest)) => Some(([c] + t, rest))
  {
    var s := FieldCode(c) + tail;
    if |FieldCode(c)| == 2 {
      assert s[2..] == tail;
    } else {
      assert s[1..] == tail;
    }
  }

  lemma {:induction false} ReadQuotedEncoded(v: string, rest: string)
    ensures ReadQuoted(Encode(v, FieldCode) + "\"" + rest) == Some((v, rest))
  {
    var closed := "\"" + rest;
    if v == "" {
      assert Encode(v, FieldCode) + "\"" + rest == closed;
      assert closed[1..] == rest;
    } else {
      var tail := Encode(v[1..], FieldCode) + "\"" + rest;
      ReadQuotedEncoded(v[1..], rest);
      assert Encode(v, FieldCode) + "\"" + rest == FieldCode(v[0]) + tail;
      ReadQuotedStep(v[0], tail);
      assert v == [v[0]] + v[1..];
    }
  }

  predicate RawIsToken(f: Field) {
    f.value.Raw? ==> IsToken(f.value.token)
  }

  lemma ReadPrintedValue(v: FieldValue, rest: string)
    requires v.Raw? ==> IsToken(v.token)
    requires rest != "" && rest[0] in {',', ' '}
    ensures ReadValue(PrintValue(v) + rest) == Some((v, rest))
  {
    var p := PrintValue(v);
    match v
    case Raw(token) =>
      EncodeFixed(token, TagCode);
      ReadEncoded(token, rest, {',', ' '});
      assert (p + rest)[0] == token[0] && token[0] in token;
    case Quoted(text) =>
      ReadQuotedEncoded(text, rest);
      assert (p + rest)[1..] == Encode(text, FieldCode) + "\"" + rest;
  }

  /** One printed pair, then whatever follows it. */
  lemma ReadPrintedTag(t: Tag, tail: string)
    requires tail != "" && tail[0] in {',', ' '}
    ensures ReadTags(PrintTag(t) + tail) == ([t] + ReadTags(tail).0, ReadTags(tail).1)
  {
    hide Encode, ReadToken;
    var key, value := Encode(t.key, TagCode), Encode(t.value, TagCode);
    var afterValue := value + tail;
    var afterKey := "=" + afterValue;
    ConcatAssoc("," + key + "=", value, tail);
    ConcatAssoc("," + key, "=", afterValue);
    ConcatAssoc(",", key, afterKey);
    var s := PrintTag(t) + tail;
    assert s == "," + (key + afterKey) && s[1..] == key + afterKey;
    ReadEncoded(t.key, afterKey, {'='});
    assert afterKey[1..] == afterValue;
    ReadEncoded(t.value, tail, {',', ' '});
  }

  lemma {:induction false} ReadPrintedTags(tags: seq<Tag>, rest: string)
    requires rest != "" && rest[0] == ' '
    ensures ReadTags(PrintTags(tags) + rest) == (tags, rest)
  {
    if tags == [] {
      assert PrintTags(tags) + rest == rest;
    } else {
      assert tags == [tags[0]] + tags[1..];
      var tail := PrintTags(tags[1..]) + rest;
      ReadPrintedTags(tags[1..], rest);
      assert PrintTags(tags) + rest == PrintTag(tags[0]) + tail;
      ReadPrintedTag(tags[0], tail);
    }
  }

  /** One printed field and the text after it. */
  lemma ReadPrintedField(f: Field, after: string)
    requires RawIsToken(f)
    requires after != "" && after[0] in {',', ' '}
    ensures after[0] == ' ' ==> ReadFields(PrintField(f) + after) == Some(([f], after))
    ensures after[0] == ',' && ReadFields(after[1..]).Some? ==>
      var (more, end) := ReadFields(after[1..]).value;
      ReadFields(PrintField(f) + after) == Some(([f] + more, end))
  {
    var key := Encode(f.key, TagCode);
    var afterKey := "=" + (PrintValue(f.value) + after);
    assert PrintField(f) + after == key + afterKey;
    ReadEncoded(f.key, afterKey, {'='});
    assert afterKey[1..] == PrintValue(f.value) + after;
    ReadPrintedValue(f.value, after);
  }

  lemma ReadNextField(f: Field, more: seq<Field>, tail: string, end: string)
    requires RawIsToken(f) && ReadFields(tail) == Some((more, end))
    ensures ReadFields(PrintField(f) + ("," + tail)) == Some(([f] + more, end))
  {
    hide ReadFields, PrintField, RawIsToken;
    var after := "," + tail;
    assert after[1..] == tail;
    ReadPrintedField(f, after);
  }

  lemma PrintFieldsStep(fields: seq<Field>, rest: string)
    requires fields != []
    ensures PrintFields(fields) + rest
      == PrintField(fields[0]) + if |fields| == 1 then rest else "," + (PrintFields(fields[1..]) + rest)
  {
    hide PrintField;
    var first, more := PrintField(fields[0]), fields[1..];
    ConcatAssoc(first, PrintMore(more), rest);
    if more == [] {
      ConcatNothing(rest);
    } else {
      ConcatAssoc(",", PrintField(more[0]), PrintMore(more[1..]));
      ConcatAssoc(",", PrintFields(more), rest);
    }
  }

  lemma {:induction false} ReadPrintedFields(fields: seq<Field>, rest: string)
    requires fields != [] && forall f :: f in fields ==> RawIsToken(f)
    requires rest != "" && rest[0] == ' '
    ensures ReadFields(PrintFields(fields) + rest) == Some((fields, rest))
  {
    hide ReadFields, PrintFields, PrintField, RawIsToken;
    PrintFieldsStep(fields, rest);
    if |fields| == 1 {
      ReadPrintedField(fields[0], rest);
      assert fields == [fields[0]];
    } else {
      ReadPrintedFields(fields[1..], rest);
      ReadNextField(fields[0], fields[1..], PrintFields(fields[1..]) + rest, rest);
      assert fields == [fields[0]] + fields[1..];
    }
  }

  lemma Regroup(a: string, b: string, c: string, d: string, e: string, f: string)
    ensures a + b + c + d + e + f == a + (b + (c + (d + (e + f))))
  {
  }

  /** A whole printed point is split back into its parts. */
  lemma ReadPrintedPoint(measurement: string, tags: seq<Tag>, fields: seq<Field>, timestampMs: int)
    requires PlainKey(measurement)
    requires fields != [] && forall f :: f in fields ==> RawIsToken(f)
    ensures ReadPoint(PrintPoint(measurement, tags, fields, timestampMs))
         == Some(Point(measurement, tags, fields, timestampMs))
  {
    var ts := SignedDecimal(timestampMs);
    var afterFields := " " + ts;
    var afterTags := " " + (PrintFields(fields) + afterFields);
    var afterName := PrintTags(tags) + afterTags;
    var line := PrintPoint(measurement, tags, fields, timestampMs);
    Regroup(measurement, PrintTags(tags), " ", PrintFields(fields), " ", ts);
    assert ReadToken(line, {',', ' '}) == (measurement, afterName) by {
      assert afterName[0] in {',', ' '};
      PlainText(measurement);
      ReadEncoded(measurement, afterName, {',', ' '});
    }
    assert ReadTags(afterName) == (tags, afterTags) by {
      ReadPrintedTags(tags, afterTags);
    }
    assert ReadFields(afterTags[1..]) == Some((fields, afterFields)) by {
      assert afterTags[1..] == PrintFields(fields) + afterFields;
      ReadPrintedFields(fields, afterFields);
    }
    assert ParseSigned(afterFields[1..]) == Some(timestampMs) by {
      assert afterFields[1..] == ts;
      ParseSignedInverts(timestampMs);
    }
  }

  lemma FieldsOfAreTokens(r: ProbeResult)
    ensures forall f :: f in FieldsOf(r) ==> RawIsToken(f)
  {
    forall f | f in FieldsOf(r) ensures RawIsToken(f) {
      if f in StatusField(r) {
        IntegerIsToken(r.status.value);
      } else if f in ErrorField(r) {
      } else if f in MetricFields(r.metrics) {
      } else {
        assert f == FixedFields(r)[0] || f == FixedFields(r)[1];
      }
    }
  }

  lemma IntegerIsToken(n: nat)
    ensures IsToken(Decimal(n) + "i")
  {
    var d := Decimal(n);
    forall c | c in d + "i" ensures !IsDelimiter(c) {
      assert c in d || c == 'i';
    }
  }

  lemma {:induction false} EntriesConcat(a: seq<Field>, b: seq<Field>)
    ensures Entries(a + b) == Entries(a) + Entries(b)
  {
    if a == [] {
      assert a + b == b;
    } else {
      assert (a + b)[1..] == a[1..] + b;
      EntriesConcat(a[1..], b);
    }
  }

  lemma {:induction false} MetricsInConcat(a: seq<Entry>, b: seq<Entry>)
    ensures MetricsIn(a + b) == MetricsIn(a) + MetricsIn(b)
  {
    if a == [] {
      assert a + b == b;
    } else {
      assert (a + b)[1..] == a[1..] + b;
      MetricsInConcat(a[1..], b);
    }
  }

  /** Some metric key shadows a fixed field. */
  predicate Shadows(metrics: seq<Metric>) {
    exists i :: 0 <= i < |metrics| && BuiltInKey(metrics[i].key)
  }

  lemma {:induction false} UnshadowedReadBack(metrics: seq<Metric>)
    requires forall i :: 0 <= i < |metrics| ==> !BuiltInKey(metrics[i].key)
    ensures MetricsIn(Entries(MetricFields(metrics))) == metrics
    ensures forall e :: e in Entries(MetricFields(metrics)) ==> e.name.Reading?
  {
    if metrics != [] {
      hide *;
      var m := metrics[0];
      UnshadowedReadBack(metrics[1..]);
      FirstMetric(metrics);
      EntriesNext(Field(m.key, Raw(m.value)), MetricFields(metrics[1..]));
      UnshadowedIsReading(m.key);
      MetricNext(m, Entries(MetricFields(metrics[1..])));
    }
  }

  lemma FirstMetric(metrics: seq<Metric>)
    requires metrics != []
    ensures metrics == [metrics[0]] + metrics[1..]
    ensures MetricFields(metrics) == [Field(metrics[0].key, Raw(metrics[0].value))] + MetricFields(metrics[1..])
  {
  }

  lemma EntriesNext(f: Field, rest: seq<Field>)
    ensures Entries([f] + rest) == [Entry(NameOf(f.key), f.value)] + Entries(rest)
  {
    assert ([f] + rest)[1..] == rest;
  }

  lemma UnshadowedIsReading(key: string)
    requires !BuiltInKey(key)
    ensures NameOf(key) == Reading(key)
  {
  }

  lemma MetricNext(m: Metric, rest: seq<Entry>)
    ensures MetricsIn([Entry(Reading(m.key), Raw(m.value))] + rest) == [m] + MetricsIn(rest)
  {
    assert ([Entry(Reading(m.key), Raw(m.value))] + rest)[1..] == rest;
  }

  lemma {:induction false} ShadowedIsLost(metrics: seq<Metric>, i: nat)
    requires i < |metrics| && BuiltInKey(metrics[i].key)
    ensures |MetricsIn(Entries(MetricFields(metrics)))| < |metrics|
  {
    assert MetricFields(metrics)[1..] == MetricFields(metrics[1..]);
    if i > 0 {
      ShadowedIsLost(metrics[1..], i - 1);
    }
  }

  lemma {:induction false} LookupSkips(prefix: seq<Entry>, readings: seq<Entry>, name: FieldName)
    requires !name.Reading? && forall e :: e in readings ==> e.name.Reading?
    ensures Lookup(prefix + readings, name) == Lookup(prefix, name)
  {
    if prefix != [] {
      assert (prefix + readings)[1..] == prefix[1..] + readings;
      LookupSkips(prefix[1..], readings, name);
    } else if readings != [] {
      assert prefix + readings == readings;
      assert readings[1..] == [] + readings[1..];
      LookupSkips([], readings[1..], name);
    } else {
      assert prefix + readings == prefix;
    }
  }

  /** The fixed fields under the names the reader gives them. */
  function FixedEntries(r: ProbeResult): seq<Entry> {
    [Entry(Up, Raw(if r.up then "1i" else "0i")), Entry(ResponseMs, Raw(r.responseMs))]
    + (if r.status.Some? then [Entry(StatusCode, Raw(Decimal(r.status.value) + "i"))] else [])
    + (if r.error.Some? then [Entry(ErrorText, Quoted(r.error.value))] else [])
  }

  lemma EntriesOne(f: Field)
    ensures Entries([f]) == [Entry(NameOf(f.key), f.value)]
  {
    assert Entries([f]) == [Entry(NameOf(f.key), f.value)] + Entries([]);
  }

  lemma FixedKeys()
    ensures NameOf("up") == Up && NameOf("response_ms") == ResponseMs
    ensures NameOf("status_code") == StatusCode && NameOf("error") == ErrorText
  {
    assert "response_ms"[0] == 'r' && "status_code"[0] == 's';
  }

  lemma FixedFieldsEntries(r: ProbeResult)
    ensures Entries(FixedFields(r)) == FixedEntries(r)
  {
    FixedKeys();
    var up, ms := FixedFields(r)[0], FixedFields(r)[1];
    EntriesConcat([up, ms] + StatusField(r), ErrorField(r));
    EntriesConcat([up, ms], StatusField(r));
    EntriesConcat([up], [ms]);
    EntriesOne(up);
    EntriesOne(ms);
    assert [up, ms] == [up] + [ms];
    if r.status.Some? {
      EntriesOne(StatusField(r)[0]);
    }
    if r.error.Some? {
      EntriesOne(ErrorField(r)[0]);
    }
  }

  lemma LookupFirst(e: Entry, rest: seq<Entry>, name: FieldName)
    ensures Lookup([e] + rest, name) == if e.name == name then Some(e.value) else Lookup(rest, name)
  {
    assert ([e] + rest)[1..] == rest;
  }

  lemma LookupsInFixedEntries(r: ProbeResult, name: FieldName)
    ensures Lookup(FixedEntries(r), name) ==
            match name
            case Up => Some(Raw(if r.up then "1i" else "0i"))
            case ResponseMs => Some(Raw(r.responseMs))
            case StatusCode => if r.status.Some? then Some(Raw(Decimal(r.status.value) + "i")) else None
            case ErrorText => if r.error.Some? then Some(Quoted(r.error.value)) else None
            case Reading(_) => None
  {
    var status := if r.status.Some? then [Entry(StatusCode, Raw(Decimal(r.status.value) + "i"))] else [];
    var error := if r.error.Some? then [Entry(ErrorText, Quoted(r.error.value))] else [];
    var up, ms := FixedEntries(r)[0], FixedEntries(r)[1];
    assert FixedEntries(r) == [up] + ([ms] + (status + error));
    LookupFirst(up, [ms] + (status + error), name);
    LookupFirst(ms, status + error, name);
    if r.status.Some? {
      LookupFirst(status[0], error, name);
    } else {
      assert status + error == error;
    }
    if r.error.Some? {
      LookupFirst(error[0], [], name);
      assert error == error + [];
    }
  }

  lemma ReadIntegerInverts(n: nat)
    ensures ReadInteger(Decimal(n) + "i") == Some(n)
  {
    var t := Decimal(n) + "i";
    assert t[..|t| - 1] == Decimal(n);
    ParseDecimalInverts(n);
  }

  lemma ReadFlag(up: bool)
    ensures ReadInteger(if up then "1i" else "0i") == Some(if up then 1 else 0)
  {
    ReadIntegerInverts(if up then 1 else 0);
    assert Decimal(1) + "i" == "1i" && Decimal(0) + "i" == "0i";
  }

  lemma InterpretLookups(r: ProbeResult, entries: seq<Entry>)
    requires Lookup(entries, Up) == Some(Raw(if r.up then "1i" else "0i"))
    requires Lookup(entries, ResponseMs) == Some(Raw(r.responseMs))
    requires Lookup(entries, StatusCode)
          == if r.status.Some? then Some(Raw(Decimal(r.status.value) + "i")) else None
    requires Lookup(entries, ErrorText) == if r.error.Some? then Some(Quoted(r.error.value)) else None
    requires MetricsIn(entries) == r.metrics
    ensures Interpret(r.name, r.kind, r.target, entries, r.timestampMs) == Some(r)
  {
    ReadFlag(r.up);
    if r.status.Some? {
      ReadIntegerInverts(r.status.value);
    }
  }

  lemma LookupsBeforeReadings(r: ProbeResult, readings: seq<Entry>, name: FieldName)
    requires !name.Reading? && forall e :: e in readings ==> e.name.Reading?
    ensures Lookup(FixedEntries(r) + readings, name) == Lookup(FixedEntries(r), name)
  {
    LookupSkips(FixedEntries(r), readings, name);
  }

  lemma InterpretEntries(r: ProbeResult, readings: seq<Entry>)
    requires MetricsIn(readings) == r.metrics
    requires forall e :: e in readings ==> e.name.Reading?
    ensures Interpret(r.name, r.kind, r.target, FixedEntries(r) + readings, r.timestampMs) == Some(r)
  {
    var entries := FixedEntries(r) + readings;
    assert Lookup(entries, Up) == Some(Raw(if r.up then "1i" else "0i")) by {
      LookupsBeforeReadings(r, readings, Up);
      LookupsInFixedEntries(r, Up);
    }
    assert Lookup(entries, ResponseMs) == Some(Raw(r.responseMs)) by {
      LookupsBeforeReadings(r, readings, ResponseMs);
      LookupsInFixedEntries(r, ResponseMs);
    }
    assert Lookup(entries, StatusCode)
        == if r.status.Some? then Some(Raw(Decimal(r.status.value) + "i")) else None by {
      LookupsBeforeReadings(r, readings, StatusCode);
      LookupsInFixedEntries(r, StatusCode);
    }
    assert Lookup(entries, ErrorText) == if r.error.Some? then Some(Quoted(r.error.value)) else None by {
      LookupsBeforeReadings(r, readings, ErrorText);
      LookupsInFixedEntries(r, ErrorText);
    }
    assert MetricsIn(entries) == r.metrics by {
      FixedEntriesHoldNoMetric(r);
      MetricsInConcat(FixedEntries(r), readings);
    }
    InterpretLookups(r, entries);
  }

  lemma FixedEntriesHoldNoMetric(r: ProbeResult)
    ensures MetricsIn(FixedEntries(r)) == []
  {
    var es := FixedEntries(r);
    NoMetrics(es);
  }

  lemma {:induction false} NoMetrics(entries: seq<Entry>)
    requires forall e :: e in entries ==> !e.name.Reading?
    ensures MetricsIn(entries) == []
  {
    if entries != [] {
      NoMetrics(entries[1..]);
    }
  }

  lemma EntriesOf(r: ProbeResult)
    ensures Entries(FieldsOf(r)) == FixedEntries(r) + Entries(MetricFields(r.metrics))
    ensures MetricsIn(Entries(FieldsOf(r))) == MetricsIn(Entries(MetricFields(r.metrics)))
  {
    EntriesConcat(FixedFields(r), MetricFields(r.metrics));
    FixedFieldsEntries(r);
    FixedEntriesHoldNoMetric(r);
    MetricsInConcat(FixedEntries(r), Entries(MetricFields(r.metrics)));
  }

  lemma InterpretFields(r: ProbeResult)
    ensures Interpret(r.name, r.kind, r.target, Entries(FieldsOf(r)), r.timestampMs) == Some(r)
       <==> !Shadows(r.metrics)
  {
    EntriesOf(r);
    if Shadows(r.metrics) {
      var i :| 0 <= i < |r.metrics| && BuiltInKey(r.metrics[i].key);
      ShadowedIsLost(r.metrics, i);
    } else {
      UnshadowedReadBack(r.metrics);
      InterpretEntries(r, Entries(MetricFields(r.metrics)));
    }
  }

  lemma ReadLine(r: ProbeResult)
    ensures ReadPoint(Line(r)) == Some(Point(MEASUREMENT, TagsOf(r), FieldsOf(r), r.timestampMs))
  {
    PlainMeasurement();
    FieldsOfAreTokens(r);
    ReadPrintedPoint(MEASUREMENT, TagsOf(r), FieldsOf(r), r.timestampMs);
  }

  lemma TagsExpected(r: ProbeResult)
    ensures ExpectedTags(TagsOf(r))
  {
  }

  lemma ParseLineInterprets(r: ProbeResult, p: Point)
    requires ReadPoint(Line(r)) == Some(p) && p.measurement == MEASUREMENT
    requires ExpectedTags(p.tags) && p.timestampMs == r.timestampMs
    requires p.tags[0].value == r.name && p.tags[1].value == r.kind && p.tags[2].value == r.target
    ensures ParseLine(Line(r)) == Interpret(r.name, r.kind, r.target, Entries(p.fields), r.timestampMs)
  {
  }

  /** The reader recovers the whole result from its line, delimiters and all,
      exactly when no metric key shadows one of the four fixed fields. */
  lemma LineRoundTrip(r: ProbeResult)
    ensures ParseLine(Line(r)) == Some(r) <==> !Shadows(r.metrics)
  {
    ReadLine(r);
    TagsExpected(r);
    ParseLineInterprets(r, Point(MEASUREMENT, TagsOf(r), FieldsOf(r), r.timestampMs));
    InterpretFields(r);
  }

  /** For instance, a reading called `up` is not read back. */
  lemma ReadingCalledUpIsLost(r: ProbeResult, value: Token)
    requires r.metrics == [Metric("up", value)]
    ensures ParseLine(Line(r)) != Some(r)
  {
    hide ParseLine, Line;
    LineRoundTrip(r);
    assert BuiltInKey(r.metrics[0].key);
  }

  lemma PlainMeasurement()
    ensures PlainKey(MEASUREMENT)
  {
  }

  lemma PlainText(s: string)
    requires PlainKey(s)
    ensures Encode(s, TagCode) == s
  {
    EncodeFixed(s, TagCode);
  }

  // ----- the line is built by appending ------------------------------------

  lemma {:induction false} PrintMoreConcat(a: seq<Field>, b: seq<Field>)
    ensures PrintMore(a + b) == PrintMore(a) + PrintMore(b)
  {
    if a == [] {
      assert a + b == b;
    } else {
      assert (a + b)[1..] == a[1..] + b;
      PrintMoreConcat(a[1..], b);
    }
  }

  lemma PrintMoreOne(f: Field)
    ensures PrintMore([f]) == "," + PrintField(f)
  {
    assert PrintMore([f]) == "," + PrintField(f) + PrintMore([]);
  }

  lemma PrintFieldsOf(first: Field, second: Field, status: seq<Field>, error: seq<Field>, metrics: seq<Field>)
    ensures PrintFields([first, second] + status + error + metrics)
         == PrintField(first) + (PrintMore([second]) + PrintMore(status) + PrintMore(error) + PrintMore(metrics))
  {
    var more := [second] + status + error + metrics;
    assert ([first, second] + status + error + metrics)[1..] == more;
    assert PrintMore(more) == PrintMore([second]) + PrintMore(status) + PrintMore(error) + PrintMore(metrics) by {
      PrintMoreConcat([second] + status + error, metrics);
      PrintMoreConcat([second] + status, error);
      PrintMoreConcat([second], status);
    }
  }

  lemma PrintTags3(tags: seq<Tag>)
    requires |tags| == 3
    ensures PrintTags(tags) == PrintTag(tags[0]) + PrintTag(tags[1]) + PrintTag(tags[2])
  {
    var last := tags[1..][1..];
    assert PrintTags(last) == PrintTag(last[0]) + PrintTags(last[1..]);
    assert PrintTags(tags[1..]) == PrintTag(tags[1]) + PrintTags(last);
  }

  /** The line as the writer assembles it: tags, fixed fields, optional fields,
      one field per metric, timestamp. */
  method ToLineProtocol(r: ProbeResult) returns (line: string)
    ensures line == Line(r)
  {
    KeysArePlain(r);
    var tags := TagSection(TagsOf(r));
    var fields := FieldSection(r);
    line := MEASUREMENT + tags + " " + fields + " " + SignedDecimal(r.timestampMs);
  }

  lemma KeysArePlain(r: ProbeResult)
    ensures PlainKey(TagsOf(r)[0].key) && PlainKey(TagsOf(r)[1].key) && PlainKey(TagsOf(r)[2].key)
    ensures PlainKey(FixedFields(r)[0].key) && PlainKey(FixedFields(r)[1].key)
  {
    assert PlainKey("probe_name");
    assert PlainKey("probe_type");
    assert PlainKey("target");
    assert PlainKey("up");
    assert PlainKey("response_ms");
  }

  method FieldSection(r: ProbeResult) returns (text: string)
    ensures text == PrintFields(FieldsOf(r))
  {
    KeysArePlain(r);
    var up := RawText(FixedFields(r)[0]);
    var ms := RawText(FixedFields(r)[1]);
    PrintMoreOne(FixedFields(r)[1]);
    var status := StatusSection(r);
    var error := ErrorSection(r);
    var metrics := MetricSection(r.metrics);
    text := up + ("," + ms + status + error + metrics);
    FieldsInOrder(r);
  }

  lemma FieldsInOrder(r: ProbeResult)
    ensures PrintFields(FieldsOf(r))
         == PrintField(FixedFields(r)[0]) + (PrintMore([FixedFields(r)[1]])
            + PrintMore(StatusField(r)) + PrintMore(ErrorField(r)) + PrintMore(MetricFields(r.metrics)))
  {
    var first, second := FixedFields(r)[0], FixedFields(r)[1];
    assert FieldsOf(r) == [first, second] + StatusField(r) + ErrorField(r) + MetricFields(r.metrics);
    PrintFieldsOf(first, second, StatusField(r), ErrorField(r), MetricFields(r.metrics));
  }

  predicate PlainKey(key: string) { forall c :: c in key ==> 'a' <= c <= 'z' || c == '_' }

  /** The three tag keys are written as they are, the values escaped. */
  method TagSection(tags: seq<Tag>) returns (text: string)
    requires |tags| == 3
    requires PlainKey(tags[0].key) && PlainKey(tags[1].key) && PlainKey(tags[2].key)
    ensures text == PrintTags(tags)
  {
    text := "," + tags[0].key + "=" + EscapeTag(tags[0].value)
            + ("," + tags[1].key + "=" + EscapeTag(tags[1].value))
            + ("," + tags[2].key + "=" + EscapeTag(tags[2].value));
    forall i | 0 <= i < 3
      ensures PrintTag(tags[i]) == "," + tags[i].key + "=" + EscapeTag(tags[i].value)
    {
      PlainText(tags[i].key);
      EscapeTagIsOnePass(tags[i].value);
    }
    PrintTags3(tags);
  }

  method RawText(f: Field) returns (text: string)
    requires PlainKey(f.key) && f.value.Raw?
    ensures text == PrintField(f)
  {
    PlainText(f.key);
    text := f.key + "=" + f.value.token;
  }

  method StatusSection(r: ProbeResult) returns (text: string)
    ensures text == PrintMore(StatusField(r))
  {
    text := "";
    if r.status.Some? {
      PlainText("status_code");
      PrintMoreOne(StatusField(r)[0]);
      text := "," + ("status_code" + "=" + (Decimal(r.status.value) + "i"));
    }
  }

  method ErrorSection(r: ProbeResult) returns (text: string)
    ensures text == PrintMore(ErrorField(r))
  {
    text := "";
    if r.error.Some? {
      PlainText("error");
      EscapeFieldStrIsOnePass(r.error.value);
      PrintMoreOne(ErrorField(r)[0]);
      text := "," + ("error" + "=" + ("\"" + EscapeFieldStr(r.error.value) + "\""));
    }
  }

  method MetricSection(metrics: seq<Metric>) returns (text: string)
    ensures text == PrintMore(MetricFields(metrics))
  {
    text := "";
    for i := 0 to |metrics|
      invariant text == PrintMore(MetricFields(metrics[..i]))
    {
      var m := metrics[i];
      EscapeTagIsOnePass(m.key);
      text := text + ("," + (EscapeTag(m.key) + "=" + m.value));
      var f := Field(m.key, Raw(m.value));
      assert MetricFields(metrics[..i + 1]) == MetricFields(metrics[..i]) + [f];
      PrintMoreConcat(MetricFields(metrics[..i]), [f]);
      PrintMoreOne(f);
    }
    assert metrics[..|metrics|] == metrics;
  }

  // ----- the format, name by name -------------------------------------------

  /** A name as it is and an escaped value. */
  function TagPart(name: string, value: string): string { "," + name + "=" + EscapeTag(value) }

  function StatusPart(status: Option<nat>): string {
    if status.Some? then "," + ("status_code" + "=" + (Decimal(status.value) + "i")) else ""
  }

  function ErrorPart(error: Option<string>): string {
    if error.Some? then "," + ("error" + "=" + ("\"" + EscapeFieldStr(error.value) + "\"")) else ""
  }

  function ReadingsPart(metrics: seq<Metric>): string {
    if metrics == [] then ""
    else "," + (EscapeTag(metrics[0].key) + "=" + metrics[0].value) + ReadingsPart(metrics[1..])
  }

  lemma PrintedTag(t: Tag)
    requires PlainKey(t.key)
    ensures PrintTag(t) == TagPart(t.key, t.value)
  {
    PlainText(t.key);
    EscapeTagIsOnePass(t.value);
  }

  lemma PrintedRaw(key: string, token: string)
    requires PlainKey(key)
    ensures PrintField(Field(key, Raw(token))) == key + "=" + token
  {
    PlainText(key);
  }

  lemma PrintedOptional(r: ProbeResult)
    ensures PrintMore(StatusField(r)) == StatusPart(r.status)
    ensures PrintMore(ErrorField(r)) == ErrorPart(r.error)
  {
    hide Decimal, PrintField, EscapeFieldStr, Encode;
    if r.status.Some? {
      PrintMoreOne(StatusField(r)[0]);
      PrintedRaw("status_code", Decimal(r.status.value) + "i");
    }
    if r.error.Some? {
      PrintMoreOne(ErrorField(r)[0]);
      PrintedError(r.error.value);
    }
  }

  lemma PrintedError(text: string)
    ensures PrintField(Field("error", Quoted(text))) == "error" + "=" + ("\"" + EscapeFieldStr(text) + "\"")
  {
    assert PlainKey("error");
    PrintedQuoted("error", text);
  }

  lemma PrintedQuoted(key: string, text: string)
    requires PlainKey(key)
    ensures PrintField(Field(key, Quoted(text))) == key + "=" + ("\"" + EscapeFieldStr(text) + "\"")
  {
    hide Encode, EscapeFieldStr, PlainKey;
    PlainText(key);
    EscapeFieldStrIsOnePass(text);
  }

  lemma {:induction false} PrintedReadings(metrics: seq<Metric>)
    ensures PrintMore(MetricFields(metrics)) == ReadingsPart(metrics)
  {
    if metrics != [] {
      PrintedReadings(metrics[1..]);
      EscapeTagIsOnePass(metrics[0].key);
      assert MetricFields(metrics)[1..] == MetricFields(metrics[1..]);
    }
  }

  /** The line is the documented one, name by name: measurement, three tags, the two
      fixed fields, the two optional ones, the readings, the timestamp. */
  lemma LineIsTheFormat(r: ProbeResult)
    ensures Line(r)
         == "probe_result"
          + (TagPart("probe_name", r.name) + TagPart("probe_type", r.kind) + TagPart("target", r.target)) + " "
          + ("up" + "=" + (if r.up then "1i" else "0i")
             + ("," + ("response_ms" + "=" + r.responseMs)
                + StatusPart(r.status) + ErrorPart(r.error) + ReadingsPart(r.metrics)))
          + " " + SignedDecimal(r.timestampMs)
  {
    hide PrintTag, TagPart, PrintMore, PrintField, MetricFields, StatusPart, ReadingsPart, ErrorPart;
    KeysArePlain(r);
    PrintedTag(TagsOf(r)[0]);
    PrintedTag(TagsOf(r)[1]);
    PrintedTag(TagsOf(r)[2]);
    PrintTags3(TagsOf(r));
    PrintedRaw("up", if r.up then "1i" else "0i");
    PrintedRaw("response_ms", r.responseMs);
    PrintMoreOne(FixedFields(r)[1]);
    PrintedOptional(r);
    PrintedReadings(r.metrics);
    FieldsInOrder(r);
  }

  // ----- batches ------------------------------------------------------------

  function Lines(rs: seq<ProbeResult>): (ls: seq<string>)
    ensures |ls| == |rs|
    ensures forall i :: 0 <= i < |rs| ==> ls[i] == Line(rs[i])
  {
    seq(|rs|, i requires 0 <= i < |rs| => Line(rs[i]))
  }

  /** The body of one POST. */
  function Body(rs: seq<ProbeResult>): string { Join(Lines(rs)) }

  /** No newline in any of the strings the tag escaping leaves alone. */
  predicate Framable(r: ProbeResult) {
    '\n' !in r.name && '\n' !in r.kind && '\n' !in r.target
    && forall m :: m in r.metrics ==> '\n' !in m.key
  }

  lemma TagNewlines(s: string)
    ensures '\n' !in Encode(s, TagCode) <==> '\n' !in s
  {
    EncodeAvoids(s, TagCode, '\n');
    if '\n' in s {
      assert '\n' in TagCode('\n');
    }
  }

  lemma FieldNewline(f: Field)
    requires RawIsToken(f)
    ensures '\n' !in PrintField(f) <==> '\n' !in f.key
  {
    TagNewlines(f.key);
    if f.value.Quoted? {
      EncodeAvoids(f.value.text, FieldCode, '\n');
    }
  }

  lemma {:induction false} MoreNewlines(fields: seq<Field>)
    requires forall f :: f in fields ==> RawIsToken(f)
    ensures '\n' !in PrintMore(fields) <==> forall f :: f in fields ==> '\n' !in f.key
  {
    if fields != [] {
      FieldNewline(fields[0]);
      MoreNewlines(fields[1..]);
      assert fields == [fields[0]] + fields[1..];
    }
  }

  lemma FieldNewlines(fields: seq<Field>)
    requires fields != [] && forall f :: f in fields ==> RawIsToken(f)
    ensures '\n' !in PrintFields(fields) <==> forall f :: f in fields ==> '\n' !in f.key
  {
    FieldNewline(fields[0]);
    MoreNewlines(fields[1..]);
    assert fields == [fields[0]] + fields[1..];
  }

  lemma TagNewline(t: Tag)
    ensures '\n' !in PrintTag(t) <==> '\n' !in t.key && '\n' !in t.value
  {
    TagNewlines(t.key);
    TagNewlines(t.value);
  }

  lemma FixedFieldKeys(r: ProbeResult)
    ensures forall f :: f in FixedFields(r) ==> '\n' !in f.key
  {
    var fixed := FixedFields(r);
    assert '\n' !in fixed[0].key && '\n' !in fixed[1].key;
    assert forall f :: f in StatusField(r) ==> '\n' !in f.key;
    assert forall f :: f in ErrorField(r) ==> '\n' !in f.key;
    forall f | f in fixed ensures '\n' !in f.key {
      assert f == fixed[0] || f == fixed[1] || f in StatusField(r) || f in ErrorField(r);
    }
  }

  lemma FieldsOfNewlines(r: ProbeResult)
    ensures '\n' !in PrintFields(FieldsOf(r)) <==> forall m :: m in r.metrics ==> '\n' !in m.key
  {
    FieldsOfAreTokens(r);
    FieldNewlines(FieldsOf(r));
    FixedFieldKeys(r);
    ConcatKeys(FixedFields(r), MetricFields(r.metrics), r.metrics);
  }

  lemma ConcatKeys(fixed: seq<Field>, ms: seq<Field>, metrics: seq<Metric>)
    requires ms == MetricFields(metrics)
    requires forall f :: f in fixed ==> '\n' !in f.key
    ensures (forall f :: f in fixed + ms ==> '\n' !in f.key) <==> forall m :: m in metrics ==> '\n' !in m.key
  {
    if forall f :: f in fixed + ms ==> '\n' !in f.key {
      forall m | m in metrics ensures '\n' !in m.key {
        var i :| 0 <= i < |metrics| && metrics[i] == m;
        assert (fixed + ms)[|fixed| + i] == ms[i];
      }
    }
  }

  lemma TagsOfNewlines(r: ProbeResult)
    ensures '\n' !in PrintTags(TagsOf(r)) <==> '\n' !in r.name && '\n' !in r.kind && '\n' !in r.target
  {
    ThreeTagsNewlines(TagsOf(r));
  }

  lemma ThreeTagsNewlines(tags: seq<Tag>)
    requires |tags| == 3 && '\n' !in tags[0].key && '\n' !in tags[1].key && '\n' !in tags[2].key
    ensures '\n' !in PrintTags(tags)
       <==> '\n' !in tags[0].value && '\n' !in tags[1].value && '\n' !in tags[2].value
  {
    PrintTags3(tags);
    TagNewline(tags[0]);
    TagNewline(tags[1]);
    TagNewline(tags[2]);
  }

  /** A line holds no newline exactly when its tags and metric keys hold none:
      the error text and the numbers can never break the framing. */
  lemma LineFraming(r: ProbeResult)
    ensures '\n' !in Line(r) <==> Framable(r)
  {
    FieldsOfNewlines(r);
    TagsOfNewlines(r);
    SignedDecimalPlain(r.timestampMs);
    PlainMeasurement();
    PointNewlines(MEASUREMENT, TagsOf(r), FieldsOf(r), r.timestampMs);
  }

  lemma PointNewlines(measurement: string, tags: seq<Tag>, fields: seq<Field>, timestampMs: int)
    requires fields != [] && PlainKey(measurement) && '\n' !in SignedDecimal(timestampMs)
    ensures '\n' !in PrintPoint(measurement, tags, fields, timestampMs)
       <==> '\n' !in PrintTags(tags) && '\n' !in PrintFields(fields)
  {
  }

  lemma SignedDecimalPlain(n: int)
    ensures '\n' !in SignedDecimal(n)
  {
  }

  /** Splitting a batch body gives back exactly the lines it was joined from,
      if and only if every result in it is framable. */
  lemma BatchFraming(rs: seq<ProbeResult>)
    requires rs != []
    ensures Split(Body(rs)) == Lines(rs) <==> forall r :: r in rs ==> Framable(r)
  {
    SplitJoin(Lines(rs));
    forall r ensures '\n' !in Line(r) <==> Framable(r) {
      LineFraming(r);
    }
    if forall l :: l in Lines(rs) ==> '\n' !in l {
      forall r | r in rs ensures Framable(r) {
        var i :| 0 <= i < |rs| && rs[i] == r;
        assert Lines(rs)[i] in Lines(rs);
      }
    }
  }

  /** Names and targets that went through the control-character escaping, and the
      built-in probe types and metric keys, are always framable. */
  lemma NormalisedIsFramable(r: ProbeResult)
    requires ControlFree(r.name) && ControlFree(r.kind) && ControlFree(r.target)
    requires forall m :: m in r.metrics ==> ControlFree(m.key)
    ensures Framable(r)
  {
  }
}
