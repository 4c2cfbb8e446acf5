/** Rendering the metrics page from the latest results, in whatever order the map
    hands them out, and from the write-path counters. */
module MetricsPage {
  import opened Text
  import opened Results
  import opened Exposition

  // ----- order on strings ---------------------------------------------------

  predicate Less(a: string, b: string) {
    b != "" && (a == "" || a[0] < b[0] || (a[0] == b[0] && Less(a[1..], b[1..])))
  }

  lemma {:induction false} LessIrreflexive(a: string)
    ensures !Less(a, a)
  {
    if a != "" {
      LessIrreflexive(a[1..]);
    }
  }

  lemma {:induction false} LessTransitive(a: string, b: string, c: string)
    requires Less(a, b) && Less(b, c)
    ensures Less(a, c)
  {
    if a != "" && a[0] == b[0] == c[0] {
      LessTransitive(a[1..], b[1..], c[1..]);
    }
  }

  lemma {:induction false} LessTotal(a: string, b: string)
    ensures a == b || Less(a, b) || Less(b, a)
  {
    if a != "" && b != "" && a[0] == b[0] {
      LessTotal(a[1..], b[1..]);
      assert a == [a[0]] + a[1..] && b == [b[0]] + b[1..];
    }
  }

  ghost predicate LessAt(a: string, b: string, k: nat) {
    k <= |a| && k < |b| && a[..k] == b[..k] && (k == |a| || a[k] < b[k])
  }

  /** The order is that of the first characters that differ, and a string comes before
      every longer one that starts with it. */
  lemma {:induction false} LessIsLexicographic(a: string, b: string)
    ensures Less(a, b) <==> exists k: nat :: LessAt(a, b, k)
  {
    if b != "" && a == "" {
      assert LessAt(a, b, 0);
    } else if b != "" {
      LessIsLexicographic(a[1..], b[1..]);
      if a[0] < b[0] {
        assert LessAt(a, b, 0);
      } else if Less(a, b) {
        var k: nat :| LessAt(a[1..], b[1..], k);
        LessShift(a, b, k);
      }
      if k: nat :| LessAt(a, b, k) {
        if k > 0 {
          assert a[0] == a[..k][0] == b[..k][0] == b[0];
          LessShift(a, b, k - 1);
        }
      }
    }
  }

  lemma LessShift(a: string, b: string, k: nat)
    requires a != "" && b != "" && a[0] == b[0]
    ensures LessAt(a, b, k + 1) <==> LessAt(a[1..], b[1..], k)
  {
    if k <= |a[1..]| && k < |b[1..]| {
      assert a[..k + 1] == [a[0]] + a[1..][..k] && b[..k + 1] == [b[0]] + b[1..][..k];
      assert a[..k + 1][1..] == a[1..][..k] && b[..k + 1][1..] == b[1..][..k];
    }
  }

  // ----- sorting the probes -------------------------------------------------

  predicate UniqueNames(rs: seq<ProbeResult>) {
    forall i, j :: 0 <= i < j < |rs| ==> rs[i].name != rs[j].name
  }

  predicate Ordered(rs: seq<ProbeResult>) {
    forall i, j :: 0 <= i < j < |rs| ==> !Less(rs[j].name, rs[i].name)
  }

  function Insert(r: ProbeResult, rs: seq<ProbeResult>): seq<ProbeResult> {
    if rs == [] || !Less(rs[0].name, r.name) then [r] + rs else [rs[0]] + Insert(r, rs[1..])
  }

  function SortByName(rs: seq<ProbeResult>): seq<ProbeResult> {
    if rs == [] then [] else Insert(rs[0], SortByName(rs[1..]))
  }

  lemma {:induction false} InsertAdds(r: ProbeResult, rs: seq<ProbeResult>)
    ensures multiset(Insert(r, rs)) == multiset(rs) + multiset{r}
    ensures forall x :: x in Insert(r, rs) ==> x == r || x in rs
  {
    if rs != [] && Less(rs[0].name, r.name) {
      InsertAdds(r, rs[1..]);
      assert rs == [rs[0]] + rs[1..];
    }
  }

  lemma {:induction false} InsertKeepsOrder(r: ProbeResult, rs: seq<ProbeResult>)
    requires Ordered(rs)
    ensures Ordered(Insert(r, rs))
  {
    hide Less;
    if rs != [] {
      if Less(rs[0].name, r.name) {
        InsertAdds(r, rs[1..]);
        InsertKeepsOrder(r, rs[1..]);
        Asymmetric(rs[0].name, r.name);
        forall x | x in Insert(r, rs[1..]) ensures !Less(x.name, rs[0].name) {
          assert x in rs[1..] ==> exists j :: 1 <= j < |rs| && x == rs[j];
        }
      } else {
        forall x | x in rs ensures !Less(x.name, r.name) {
          NotLessTransitive(x.name, rs[0].name, r.name);
        }
      }
    }
  }

  lemma Asymmetric(a: string, b: string)
    requires Less(a, b)
    ensures !Less(b, a)
  {
    if Less(b, a) {
      LessTransitive(a, b, a);
      LessIrreflexive(a);
    }
  }

  lemma NotLessTransitive(x: string, y: string, z: string)
    requires (x == y || !Less(x, y)) && !Less(y, z)
    ensures !Less(x, z)
  {
    if Less(x, z) {
      LessTotal(x, y);
      if Less(y, x) {
        LessTransitive(y, x, z);
      }
    }
  }

  lemma {:induction false} SortSorts(rs: seq<ProbeResult>)
    ensures Ordered(SortByName(rs)) && multiset(SortByName(rs)) == multiset(rs)
  {
    if rs != [] {
      SortSorts(rs[1..]);
      InsertAdds(rs[0], SortByName(rs[1..]));
      InsertKeepsOrder(rs[0], SortByName(rs[1..]));
      assert rs == [rs[0]] + rs[1..];
    }
  }

  lemma {:induction false} InsertKeepsUnique(r: ProbeResult, rs: seq<ProbeResult>)
    requires UniqueNames(rs) && forall x :: x in rs ==> x.name != r.name
    ensures UniqueNames(Insert(r, rs))
    ensures forall x :: x in Insert(r, rs) ==> x == r || x in rs
  {
    if rs != [] && Less(rs[0].name, r.name) {
      InsertKeepsUnique(r, rs[1..]);
      forall x | x in Insert(r, rs[1..]) ensures x.name != rs[0].name {
        assert x in rs[1..] ==> exists j :: 1 <= j < |rs| && x == rs[j];
      }
    }
  }

  lemma {:induction false} SortKeepsUnique(rs: seq<ProbeResult>)
    requires UniqueNames(rs)
    ensures UniqueNames(SortByName(rs))
    ensures forall x :: x in SortByName(rs) ==> x in rs
  {
    if rs != [] {
      SortKeepsUnique(rs[1..]);
      InsertKeepsUnique(rs[0], SortByName(rs[1..]));
    }
  }

  lemma HeadsAgree(a: seq<ProbeResult>, b: seq<ProbeResult>)
    requires Ordered(a) && Ordered(b) && UniqueNames(a) && multiset(a) == multiset(b) && a != [] && b != []
    ensures a[0] == b[0]
  {
    hide Less;
    assert a[0] in multiset(b) && b[0] in multiset(a);
    var i :| 0 <= i < |b| && b[i] == a[0];
    var j :| 0 <= j < |a| && a[j] == b[0];
    LessTotal(a[0].name, b[0].name);
  }

  lemma Tail(a: seq<ProbeResult>)
    requires a != []
    ensures a == [a[0]] + a[1..] && multiset(a[1..]) == multiset(a) - multiset{a[0]}
    ensures (Ordered(a) ==> Ordered(a[1..])) && (UniqueNames(a) ==> UniqueNames(a[1..]))
  {
    assert a == [a[0]] + a[1..];
  }

  lemma {:induction false} OrderIsCanonical(a: seq<ProbeResult>, b: seq<ProbeResult>)
    requires Ordered(a) && Ordered(b) && UniqueNames(a) && multiset(a) == multiset(b)
    ensures a == b
  {
    hide Ordered, UniqueNames;
    assert |multiset(a)| == |multiset(b)|;
    if a != [] {
      HeadsAgree(a, b);
      Tail(a);
      Tail(b);
      OrderIsCanonical(a[1..], b[1..]);
    }
  }

  /** Any two ways of listing a map keyed by probe name sort to the same list. */
  lemma SortIsCanonical(a: seq<ProbeResult>, b: seq<ProbeResult>)
    requires multiset(a) == multiset(b) && UniqueNames(a)
    ensures SortByName(a) == SortByName(b)
  {
    SortSorts(a);
    SortSorts(b);
    SortKeepsUnique(a);
    OrderIsCanonical(SortByName(a), SortByName(b));
  }

  // ----- grouping the extra readings ----------------------------------------

  datatype Reading = Reading(key: string, sample: Sample)
  datatype Group = Group(key: string, samples: seq<Sample>)

  function Label(r: ProbeResult, value: Token): Sample { Labelled(r.name, r.kind, r.target, value) }

  function ReadingOf(r: ProbeResult, m: Metric): Reading { Reading(Sanitise(m.key), Label(r, m.value)) }

  /** The first `n` extra readings of one result. */
  function ReadingsOf(r: ProbeResult, n: nat): (s: seq<Reading>)
    requires n <= |r.metrics|
    ensures |s| == n && forall i :: 0 <= i < n ==> s[i] == ReadingOf(r, r.metrics[i])
  {
    seq(n, i requires 0 <= i < n => ReadingOf(r, r.metrics[i]))
  }

  function Readings(probes: seq<ProbeResult>): seq<Reading> {
    if probes == [] then []
    else
      var n := |probes| - 1;
      Readings(probes[..n]) + ReadingsOf(probes[n], |probes[n].metrics|)
  }

  /** Append to the group of that key in the ordered map, creating it if need be. */
  function AddTo(groups: seq<Group>, r: Reading): seq<Group> {
    if groups == [] || Less(r.key, groups[0].key) then [Group(r.key, [r.sample])] + groups
    else if groups[0].key == r.key then [Group(r.key, groups[0].samples + [r.sample])] + groups[1..]
    else [groups[0]] + AddTo(groups[1..], r)
  }

  function GroupAll(readings: seq<Reading>): seq<Group> {
    if readings == [] then []
    else
      var n := |readings| - 1;
      AddTo(GroupAll(readings[..n]), readings[n])
  }

  /** The samples read for one key, in order. */
  function Pick(readings: seq<Reading>, key: string): seq<Sample> {
    if readings == [] then []
    else
      var n := |readings| - 1;
      Pick(readings[..n], key) + if readings[n].key == key then [readings[n].sample] else []
  }

  function Lookup(groups: seq<Group>, key: string): seq<Sample> {
    if groups == [] then [] else if groups[0].key == key then groups[0].samples else Lookup(groups[1..], key)
  }

  predicate Ascending(groups: seq<Group>) {
    && (forall i, j :: 0 <= i < j < |groups| ==> Less(groups[i].key, groups[j].key))
    && (forall i :: 0 <= i < |groups| ==> groups[i].samples != [])
  }

  lemma {:induction false} LookupBelow(groups: seq<Group>, key: string)
    requires forall g :: g in groups ==> g.key != key
    ensures Lookup(groups, key) == []
  {
    if groups != [] {
      LookupBelow(groups[1..], key);
    }
  }

  lemma {:induction false} AddToKeys(groups: seq<Group>, r: Reading)
    ensures forall g :: g in AddTo(groups, r) ==> g.key == r.key || exists h :: h in groups && h.key == g.key
  {
    if groups == [] || Less(r.key, groups[0].key) {
    } else if groups[0].key == r.key {
    } else {
      AddToKeys(groups[1..], r);
    }
  }

  lemma {:induction false} AddToKeepsAscending(groups: seq<Group>, r: Reading)
    requires Ascending(groups)
    ensures Ascending(AddTo(groups, r))
  {
    if groups == [] {
    } else if Less(r.key, groups[0].key) {
      forall g | g in groups[1..] ensures Less(r.key, g.key) {
        LessTransitive(r.key, groups[0].key, g.key);
      }
    } else if groups[0].key != r.key {
      LessTotal(groups[0].key, r.key);
      AddToKeepsAscending(groups[1..], r);
      AddToKeys(groups[1..], r);
      forall g | g in AddTo(groups[1..], r) ensures Less(groups[0].key, g.key) {
      }
    }
  }

  lemma {:induction false} AddToLookup(groups: seq<Group>, r: Reading, key: string)
    requires Ascending(groups)
    ensures Lookup(AddTo(groups, r), key) == Lookup(groups, key) + if r.key == key then [r.sample] else []
  {
    if groups == [] {
    } else if Less(r.key, groups[0].key) {
      LessIrreflexive(r.key);
      forall g | g in groups ensures g.key != r.key {
        if g in groups[1..] {
          LessTransitive(r.key, groups[0].key, g.key);
        }
      }
      LookupBelow(groups, r.key);
      assert ([Group(r.key, [r.sample])] + groups)[1..] == groups;
    } else {
      assert AddTo(groups, r)[1..] == if groups[0].key == r.key then groups[1..] else AddTo(groups[1..], r);
      if groups[0].key != r.key {
        AddToLookup(groups[1..], r, key);
      }
    }
  }

  /** Grouping loses and reorders nothing: under each key stand exactly the samples
      read for it, in order; the keys are strictly increasing and none is empty. */
  lemma {:induction false} GroupingPartitions(readings: seq<Reading>, key: string)
    ensures Ascending(GroupAll(readings))
    ensures Lookup(GroupAll(readings), key) == Pick(readings, key)
  {
    if readings != [] {
      var n := |readings| - 1;
      GroupingPartitions(readings[..n], key);
      AddToKeepsAscending(GroupAll(readings[..n]), readings[n]);
      AddToLookup(GroupAll(readings[..n]), readings[n], key);
    }
  }

  // ----- the page -----------------------------------------------------------

  type NamePart = s: string | s != "" && AllNameChars(s) witness "x"
  type Header = s: string | '\n' !in s witness ""

  const PROBE: NamePart := "huginn_probe_"
  const INFLUX: NamePart := "huginn_influx_"
  const SUCCESS: NamePart := "success"
  const DURATION: NamePart := "duration_seconds"
  const STATUS: NamePart := "http_status_code"
  const LAST_RUN: NamePart := "last_run_timestamp_seconds"
  const READING_HELP: Header := "Probe-specific reading '"
  const GAUGE: Header := "gauge"

  /** Printed numbers (milliseconds as seconds, and whole numbers) and the wording
      of the help lines, none of which breaks a line. */
  datatype Printer = Printer(seconds: Token -> Token, count: int -> Token, help: string -> Header)

  datatype Stats = Stats(
    queueBatches: nat, queueBytes: nat, writtenBatches: nat, writtenBytes: nat,
    droppedBatches: nat, droppedBytes: nat, rejectedBatches: nat, lastWriteSuccessUnix: nat)

  /** One labelled sample for each probe the reading exists for. */
  function Samples(probes: seq<ProbeResult>, reading: ProbeResult -> Option<Token>): seq<Sample> {
    if probes == [] then []
    else
      var rest := Samples(probes[1..], reading);
      var v := reading(probes[0]);
      if v.Some? then [Label(probes[0], v.value)] + rest else rest
  }

  function UpReading(p: Printer): ProbeResult -> Option<Token> {
    (r: ProbeResult) => Some(p.count(if r.up then 1 else 0))
  }

  function DurationReading(p: Printer): ProbeResult -> Option<Token> {
    (r: ProbeResult) => Some(p.seconds(r.responseMs))
  }

  function StatusReading(p: Printer): ProbeResult -> Option<Token> {
    (r: ProbeResult) => if r.status.Some? then Some(p.count(r.status.value)) else None
  }

  function LastRunReading(p: Printer): ProbeResult -> Option<Token> {
    (r: ProbeResult) => Some(p.count(r.timestampMs / 1000))
  }

  function ProbeFamily(suffix: string, help: string, samples: seq<Sample>): Family {
    Family(PROBE + suffix, help, GAUGE, samples)
  }

  function BuiltIn(p: Printer, probes: seq<ProbeResult>): seq<Family> {
    [ProbeFamily(SUCCESS, p.help(SUCCESS), Samples(probes, UpReading(p))),
     ProbeFamily(DURATION, p.help(DURATION), Samples(probes, DurationReading(p))),
     ProbeFamily(STATUS, p.help(STATUS), Samples(probes, StatusReading(p))),
     ProbeFamily(LAST_RUN, p.help(LAST_RUN), Samples(probes, LastRunReading(p)))]
  }

  function ExtraFamily(g: Group): Family {
    ProbeFamily(g.key, READING_HELP + g.key + "'.", g.samples)
  }

  function Extra(groups: seq<Group>): (r: seq<Family>)
    ensures |r| == |groups|
  {
    if groups == [] then [] else [ExtraFamily(groups[0])] + Extra(groups[1..])
  }

  /** A family with one unlabelled sample. */
  datatype Row = Row(suffix: NamePart, kind: Header)

  const QUEUE_BATCHES := Row("queue_batches", "gauge")
  const QUEUE_BYTES := Row("queue_bytes", "gauge")
  const WRITTEN_BATCHES := Row("batches_written_total", "counter")
  const WRITTEN_BYTES := Row("bytes_written_total", "counter")
  const DROPPED_BATCHES := Row("batches_dropped_total", "counter")
  const DROPPED_BYTES := Row("bytes_dropped_total", "counter")
  const REJECTED_BATCHES := Row("batches_rejected_total", "counter")
  const LAST_SUCCESS := Row("last_write_success" + "_timestamp_seconds", "gauge")

  function Scalar(p: Printer, row: Row, value: nat): Family {
    Family(INFLUX + row.suffix, p.help(row.suffix), row.kind, [Plain(p.count(value))])
  }

  function WritePath(p: Printer, s: Stats): seq<Family> {
    [Scalar(p, QUEUE_BATCHES, s.queueBatches),
     Scalar(p, QUEUE_BYTES, s.queueBytes),
     Scalar(p, WRITTEN_BATCHES, s.writtenBatches),
     Scalar(p, WRITTEN_BYTES, s.writtenBytes),
     Scalar(p, DROPPED_BATCHES, s.droppedBatches),
     Scalar(p, DROPPED_BYTES, s.droppedBytes),
     Scalar(p, REJECTED_BATCHES, s.rejectedBatches),
     Scalar(p, LAST_SUCCESS, s.lastWriteSuccessUnix)]
  }

  /** Families without samples are left out. */
  function Shown(fams: seq<Family>): seq<Family> {
    if fams == [] then [] else (if fams[0].samples == [] then [] else [fams[0]]) + Shown(fams[1..])
  }

  /** What the page says about probes already in order. */
  function Document(p: Printer, probes: seq<ProbeResult>, s: Stats): seq<Family> {
    Shown(BuiltIn(p, probes)) + Extra(GroupAll(Readings(probes))) + WritePath(p, s)
  }

  // ----- the rendering loops ------------------------------------------------

  lemma {:induction false} UnlinesConcat(a: seq<string>, b: seq<string>)
    ensures Unlines(a + b) == Unlines(a) + Unlines(b)
  {
    if a == [] {
      ConcatNothing(b);
      ConcatNothing(Unlines(b));
    } else {
      UnlinesConcat(a[1..], b);
      assert (a + b)[1..] == a[1..] + b;
      ConcatAssoc(a[0] + "\n", Unlines(a[1..]), Unlines(b));
    }
  }

  lemma {:induction false} DocumentLinesConcat(a: seq<Family>, b: seq<Family>)
    ensures DocumentLines(a + b) == DocumentLines(a) + DocumentLines(b)
  {
    hide FamilyLines;
    if a == [] {
      ConcatNothing(b);
      ConcatNothing(DocumentLines(b));
    } else {
      DocumentLinesConcat(a[1..], b);
      assert (a + b)[1..] == a[1..] + b;
      ConcatAssoc(FamilyLines(a[0]), DocumentLines(a[1..]), DocumentLines(b));
    }
  }

  lemma PrintConcat(a: seq<Family>, b: seq<Family>)
    ensures Print(a + b) == Print(a) + Print(b)
  {
    DocumentLinesConcat(a, b);
    UnlinesConcat(DocumentLines(a), DocumentLines(b));
  }

  lemma PrintOne(f: Family)
    ensures Print([f]) == Unlines(FamilyLines(f))
  {
    hide FamilyLines;
    assert DocumentLines([f][1..]) == [];
    ConcatNothing(FamilyLines(f));
  }

  lemma {:induction false} PrintShown(fams: seq<Family>)
    ensures Print(Shown(fams)) == Print(fams)
  {
    hide FamilyLines, Unlines;
    if fams != [] {
      PrintShown(fams[1..]);
      PrintConcat([fams[0]], Shown(fams[1..]));
      PrintConcat([fams[0]], fams[1..]);
      assert fams == [fams[0]] + fams[1..];
      if fams[0].samples == [] {
        ConcatNothing(Shown(fams[1..]));
        PrintNothing(fams[0]);
        ConcatNothing(Print(fams[1..]));
      }
    }
  }

  lemma PrintNothing(f: Family)
    requires f.samples == []
    ensures Print([f]) == ""
  {
    PrintOne(f);
  }

  lemma {:induction false} SampleLinesNext(name: string, samples: seq<Sample>, i: nat)
    requires i < |samples|
    ensures SampleLines(name, samples[..i + 1]) == SampleLines(name, samples[..i]) + [name + SampleText(samples[i])]
  {
    hide SampleText;
    if i > 0 {
      SampleLinesNext(name, samples[1..], i - 1);
      assert samples[..i + 1][1..] == samples[1..][..i] && samples[..i][1..] == samples[1..][..i - 1];
    }
  }

  lemma NoLines(name: string, none: seq<Sample>)
    requires none == []
    ensures SampleLines(name, none) == [] && Unlines(SampleLines(name, none)) == ""
  {
  }

  lemma UnlinesOne(l: string)
    ensures Unlines([l]) == l + "\n"
  {
    assert Unlines([l][1..]) == "";
  }

  /** One sample line, its labels escaped. */
  method RenderSample(name: string, s: Sample) returns (line: string)
    requires s.Labelled?
    ensures line == name + SampleText(s)
  {
    hide Quoted;
    var probe := EscapeLabel(s.probe);
    var kind := EscapeLabel(s.kind);
    var target := EscapeLabel(s.target);
    line := name + "{probe=\"" + probe + "\",type=\"" + kind + "\",target=\"" + target + "\"} " + s.value;
    Regroup(name, probe, kind, target, s.value);
  }

  lemma Regroup(name: string, probe: string, kind: string, target: string, value: string)
    ensures name + "{probe=\"" + probe + "\",type=\"" + kind + "\",target=\"" + target + "\"} " + value
         == name + (PROBE_LABEL + ((probe + "\"") + (TYPE_LABEL + ((kind + "\"") + (TARGET_LABEL + ((target + "\"") + (CLOSE + value)))))))
  {
    var q: string := "\"";
    assert "\",type=\"" == q + TYPE_LABEL && "\",target=\"" == q + TARGET_LABEL && "\"} " == q + CLOSE;
    Flatten(name, PROBE_LABEL, probe, q, TYPE_LABEL, kind, TARGET_LABEL, target, CLOSE, value);
  }

  lemma Flatten(n: string, a: string, p: string, q: string, b: string, k: string, c: string, t: string, d: string, v: string)
    ensures n + a + p + (q + b) + k + (q + c) + t + (q + d) + v
         == n + (a + ((p + q) + (b + ((k + q) + (c + ((t + q) + (d + v)))))))
  {
  }

  method RenderFamily(out: string, name: string, help: string, samples: seq<Sample>) returns (text: string)
    requires forall s :: s in samples ==> s.Labelled?
    ensures text == out + Print([Family(name, help, "gauge", samples)])
  {
    hide SampleText, Unlines;
    ghost var f := Family(name, help, "gauge", samples);
    var lines := "";
    NoLines(name, samples[..0]);
    for i := 0 to |samples|
      invariant lines == Unlines(SampleLines(name, samples[..i]))
      invariant i == 0 <==> lines == ""
    {
      var line := RenderSample(name, samples[i]);
      SampleLinesNext(name, samples, i);
      UnlinesConcat(SampleLines(name, samples[..i]), [line]);
      UnlinesOne(line);
      lines := lines + (line + "\n");
    }
    assert samples[..|samples|] == samples;
    PrintOne(f);
    text := out;
    if lines != "" {
      text := text + ("# HELP " + name + " " + help + "\n# TYPE " + name + " gauge\n");
      text := text + lines;
      Headed(f, out);
    } else {
      PrintNothing(f);
      ConcatNothing(out);
    }
  }

  lemma Headed(f: Family, out: string)
    requires f.samples != []
    ensures out + ("# HELP " + f.name + " " + f.help + "\n# TYPE " + f.name + " " + f.kind + "\n") + Unlines(SampleLines(f.name, f.samples))
         == out + Unlines(FamilyLines(f))
  {
    hide Unlines, SampleLines;
    var help, kind := HELP + (f.name + (" " + f.help)), TYPE + (f.name + (" " + f.kind));
    var body := SampleLines(f.name, f.samples);
    UnlinesConcat([help] + [kind], body);
    UnlinesConcat([help], [kind]);
    assert [help] + [kind] == [help, kind];
    UnlinesOne(help);
    UnlinesOne(kind);
    var newline: string := "\n";
    assert "\n# TYPE " == newline + TYPE;
    FlattenHeader(HELP, f.name, " ", f.help, newline, TYPE, f.kind);
    ConcatAssoc(out, Unlines([help] + [kind]), Unlines(body));
  }

  lemma FlattenHeader(h: string, n: string, sp: string, help: string, nl: string, t: string, kind: string)
    ensures h + n + sp + help + (nl + t) + n + sp + kind + nl
         == ((h + (n + (sp + help))) + nl) + ((t + (n + (sp + kind))) + nl)
  {
  }

  method RenderScalar(p: Printer, out: string, row: Row, value: nat, ghost done: seq<Family>)
    returns (text: string, ghost more: seq<Family>)
    requires out == Print(done)
    ensures more == done + [Scalar(p, row, value)] && text == Print(more)
  {
    hide Unlines, SampleLines;
    var name := INFLUX + row.suffix;
    ghost var f := Scalar(p, row, value);
    text := out + ("# HELP " + name + " " + p.help(row.suffix) + "\n# TYPE " + name + " " + row.kind + "\n");
    text := text + (name + (" " + p.count(value)) + "\n");
    Headed(f, out);
    PrintOne(f);
    OneSampleLine(name, f.samples[0]);
    UnlinesOne(name + (" " + p.count(value)));
    PrintConcat(done, [f]);
    more := done + [f];
  }

  lemma OneSampleLine(name: string, s: Sample)
    ensures SampleLines(name, [s]) == [name + SampleText(s)]
  {
    assert SampleLines(name, [s][1..]) == [];
  }

  lemma Append(out: string, done: seq<Family>, f: Family)
    ensures out + Print(done) + Print([f]) == out + Print(done + [f])
  {
    hide Print;
    PrintConcat(done, [f]);
    ConcatAssoc(out, Print(done), Print([f]));
  }

  /** The eight write-path families, after what is already printed. */
  method RenderWritePath(p: Printer, out: string, s: Stats, ghost done: seq<Family>) returns (text: string)
    requires out == Print(done)
    ensures text == Print(done + WritePath(p, s))
  {
    hide Print, Scalar, QUEUE_BATCHES, QUEUE_BYTES, WRITTEN_BATCHES, WRITTEN_BYTES, DROPPED_BATCHES, DROPPED_BYTES, REJECTED_BATCHES, LAST_SUCCESS;
    text := out;
    ghost var more := done;
    text, more := RenderScalar(p, text, QUEUE_BATCHES, s.queueBatches, more);
    text, more := RenderScalar(p, text, QUEUE_BYTES, s.queueBytes, more);
    text, more := RenderScalar(p, text, WRITTEN_BATCHES, s.writtenBatches, more);
    text, more := RenderScalar(p, text, WRITTEN_BYTES, s.writtenBytes, more);
    text, more := RenderScalar(p, text, DROPPED_BATCHES, s.droppedBatches, more);
    text, more := RenderScalar(p, text, DROPPED_BYTES, s.droppedBytes, more);
    text, more := RenderScalar(p, text, REJECTED_BATCHES, s.rejectedBatches, more);
    text, more := RenderScalar(p, text, LAST_SUCCESS, s.lastWriteSuccessUnix, more);
    ghost var w := WritePath(p, s);
    Chained(done, w[0], w[1], w[2], w[3], w[4], w[5], w[6], w[7]);
  }

  lemma Chained<T>(d: seq<T>, a: T, b: T, c: T, e: T, f: T, g: T, h: T, i: T)
    ensures d + [a] + [b] + [c] + [e] + [f] + [g] + [h] + [i] == d + [a, b, c, e, f, g, h, i]
  {
  }

  lemma NothingPrinted(none: seq<Family>, out: string)
    requires none == []
    ensures out + Print(none) == out
  {
    ConcatNothing(out);
  }

  lemma NothingRead(none: seq<ProbeResult>)
    requires none == []
    ensures Readings(none) == [] && GroupAll(Readings(none)) == []
  {
  }

  lemma ReadingsStart(before: seq<Reading>, r: ProbeResult)
    ensures before + ReadingsOf(r, 0) == before
  {
  }

  lemma GroupNext(before: seq<Reading>, r: ProbeResult, j: nat)
    requires j < |r.metrics|
    ensures GroupAll(before + ReadingsOf(r, j + 1)) == AddTo(GroupAll(before + ReadingsOf(r, j)), ReadingOf(r, r.metrics[j]))
  {
    hide AddTo, ReadingOf;
    assert (before + ReadingsOf(r, j + 1))[..|before| + j] == before + ReadingsOf(r, j);
  }

  /** Group the extra readings of every probe under their sanitised keys. */
  method GroupReadings(probes: seq<ProbeResult>) returns (extra: seq<Group>)
    ensures extra == GroupAll(Readings(probes))
  {
    hide AddTo, Sanitise, GroupAll, ReadingsOf, ReadingOf;
    extra := [];
    NothingRead(probes[..0]);
    for i := 0 to |probes|
      invariant extra == GroupAll(Readings(probes[..i]))
    {
      var r := probes[i];
      ghost var before := Readings(probes[..i]);
      ReadingsStart(before, r);
      for j := 0 to |r.metrics|
        invariant extra == GroupAll(before + ReadingsOf(r, j))
      {
        var reading := ReadingOf(r, r.metrics[j]);
        GroupNext(before, r, j);
        extra := AddTo(extra, reading);
      }
      assert probes[..i + 1][..i] == probes[..i];
    }
    assert probes[..|probes|] == probes;
  }

  method Render(p: Printer, values: seq<ProbeResult>, s: Stats) returns (text: string)
    ensures text == Print(Document(p, SortByName(values), s))
  {
    hide Print, BuiltIn, WritePath, GroupAll, Readings, SortByName;
    var probes := SortByName(values);
    text := RenderBuiltIn(p, probes);
    var extra := GroupReadings(probes);
    ghost var shown := Shown(BuiltIn(p, probes));
    NothingPrinted(Extra(extra[..0]), text);
    ghost var before := text;
    GroupsAreLabelled(probes);
    for i := 0 to |extra|
      invariant text == before + Print(Extra(extra[..i]))
    {
      var key := extra[i].key;
      text := RenderFamily(text, PROBE + key, READING_HELP + key + "'.", extra[i].samples);
      Append(before, Extra(extra[..i]), ExtraFamily(extra[i]));
      ExtraNext(extra, i);
    }
    assert extra[..|extra|] == extra;
    PrintConcat(shown, Extra(extra));
    text := RenderWritePath(p, text, s, shown + Extra(extra));
  }

  method RenderBuiltIn(p: Printer, probes: seq<ProbeResult>) returns (text: string)
    ensures text == Print(Shown(BuiltIn(p, probes)))
  {
    hide Print, Samples;
    ghost var all := BuiltIn(p, probes);
    SamplesAreLabelled(probes, UpReading(p));
    SamplesAreLabelled(probes, DurationReading(p));
    SamplesAreLabelled(probes, StatusReading(p));
    SamplesAreLabelled(probes, LastRunReading(p));
    NothingPrinted(all[..0], "");
    text := RenderFamily("", PROBE + SUCCESS,
      p.help(SUCCESS), Samples(probes, UpReading(p)));
    Append("", all[..0], all[0]);
    assert all[..0] + [all[0]] == all[..1];
    text := RenderFamily(text, PROBE + DURATION,
      p.help(DURATION), Samples(probes, DurationReading(p)));
    Append("", all[..1], all[1]);
    assert all[..1] + [all[1]] == all[..2];
    text := RenderFamily(text, PROBE + STATUS,
      p.help(STATUS), Samples(probes, StatusReading(p)));
    Append("", all[..2], all[2]);
    assert all[..2] + [all[2]] == all[..3];
    text := RenderFamily(text, PROBE + LAST_RUN,
      p.help(LAST_RUN), Samples(probes, LastRunReading(p)));
    Append("", all[..3], all[3]);
    assert all[..3] + [all[3]] == all[..4] == all;
    PrintShown(all);
    ConcatNothing(Print(all));
  }

  lemma {:induction false} SamplesAreLabelled(probes: seq<ProbeResult>, reading: ProbeResult -> Option<Token>)
    ensures forall s :: s in Samples(probes, reading) ==> s.Labelled?
  {
    if probes != [] {
      SamplesAreLabelled(probes[1..], reading);
    }
  }

  lemma {:induction false} ExtraNext(groups: seq<Group>, i: nat)
    requires i < |groups|
    ensures Extra(groups[..i + 1]) == Extra(groups[..i]) + [ExtraFamily(groups[i])]
  {
    hide ExtraFamily;
    if i > 0 {
      ExtraNext(groups[1..], i - 1);
      assert groups[..i + 1][1..] == groups[1..][..i] && groups[..i][1..] == groups[1..][..i - 1];
    }
  }

  lemma {:induction false} AddToSamples(groups: seq<Group>, r: Reading)
    ensures forall g, s :: g in AddTo(groups, r) && s in g.samples ==> s == r.sample || exists h :: h in groups && s in h.samples
  {
    if groups != [] && !Less(r.key, groups[0].key) && groups[0].key != r.key {
      AddToSamples(groups[1..], r);
    }
  }

  lemma {:induction false} GroupedLabelled(readings: seq<Reading>)
    requires forall r :: r in readings ==> r.sample.Labelled?
    ensures forall g, s :: g in GroupAll(readings) && s in g.samples ==> s.Labelled?
  {
    if readings != [] {
      var n := |readings| - 1;
      GroupedLabelled(readings[..n]);
      AddToSamples(GroupAll(readings[..n]), readings[n]);
    }
  }

  lemma {:induction false} ReadingsLabelled(probes: seq<ProbeResult>)
    ensures forall r :: r in Readings(probes) ==> r.sample.Labelled?
  {
    if probes != [] {
      ReadingsLabelled(probes[..|probes| - 1]);
    }
  }

  lemma GroupsAreLabelled(probes: seq<ProbeResult>)
    ensures forall g, s :: g in GroupAll(Readings(probes)) && s in g.samples ==> s.Labelled?
  {
    ReadingsLabelled(probes);
    GroupedLabelled(Readings(probes));
  }

  // ----- what the page guarantees -------------------------------------------

  /** The same map gives the same text, whatever order it is iterated in. */
  lemma PageIsDeterministic(p: Printer, a: seq<ProbeResult>, b: seq<ProbeResult>, s: Stats)
    requires multiset(a) == multiset(b) && UniqueNames(a)
    ensures Print(Document(p, SortByName(a), s)) == Print(Document(p, SortByName(b), s))
  {
    SortIsCanonical(a, b);
  }

  // names

  lemma ProperName(prefix: string, suffix: string)
    requires IsName(prefix) && AllNameChars(suffix)
    ensures IsName(prefix + suffix)
  {
  }

  lemma WritePathIsProper(p: Printer, s: Stats)
    ensures forall f :: f in WritePath(p, s) ==> Proper(f)
  {
    hide IsName, QUEUE_BATCHES, QUEUE_BYTES, WRITTEN_BATCHES, WRITTEN_BYTES, DROPPED_BATCHES, DROPPED_BYTES,
         REJECTED_BATCHES, LAST_SUCCESS;
    forall row: Row, value: nat ensures Proper(Scalar(p, row, value)) {
      ScalarIsProper(p, row, value);
    }
  }

  lemma ScalarIsProper(p: Printer, row: Row, value: nat)
    ensures Proper(Scalar(p, row, value))
  {
    ProperName(INFLUX, row.suffix);
  }

  lemma {:induction false} ShownAreGiven(fams: seq<Family>)
    ensures forall f :: f in Shown(fams) <==> f in fams && f.samples != []
  {
    if fams != [] {
      ShownAreGiven(fams[1..]);
      assert fams == [fams[0]] + fams[1..];
    }
  }

  lemma BuiltInHeaders(p: Printer, probes: seq<ProbeResult>)
    ensures forall f :: f in BuiltIn(p, probes) ==> '\n' !in f.help && '\n' !in f.kind
  {
    hide Samples;
  }

  lemma BuiltInIsProper(p: Printer, probes: seq<ProbeResult>)
    ensures forall f :: f in Shown(BuiltIn(p, probes)) ==> Proper(f)
  {
    hide Samples, IsName, AllNameChars;
    ShownAreGiven(BuiltIn(p, probes));
    BuiltInHeaders(p, probes);
    BuiltInNames(p, probes);
  }

  lemma BuiltInNames(p: Printer, probes: seq<ProbeResult>)
    ensures forall f :: f in BuiltIn(p, probes) ==> IsName(f.name)
  {
    hide Samples, IsName, AllNameChars;
    ProperName(PROBE, SUCCESS);
    ProperName(PROBE, DURATION);
    ProperName(PROBE, STATUS);
    ProperName(PROBE, LAST_RUN);
  }

  // the extra families

  lemma {:induction false} ExtraAre(groups: seq<Group>)
    ensures forall f :: f in Extra(groups) <==> exists g :: g in groups && f == ExtraFamily(g)
  {
    hide ExtraFamily;
    if groups != [] {
      ExtraAre(groups[1..]);
      assert groups == [groups[0]] + groups[1..];
    }
  }

  lemma {:induction false} GroupKeysAreRead(readings: seq<Reading>)
    ensures forall g :: g in GroupAll(readings) ==> exists r :: r in readings && r.key == g.key
  {
    if readings != [] {
      var n := |readings| - 1;
      GroupKeysAreRead(readings[..n]);
      AddToKeys(GroupAll(readings[..n]), readings[n]);
    }
  }

  lemma {:induction false} ReadingsAre(probes: seq<ProbeResult>)
    ensures forall x :: x in Readings(probes) <==> exists r, m :: r in probes && m in r.metrics && x == ReadingOf(r, m)
  {
    hide ReadingOf;
    if probes != [] {
      var n := |probes| - 1;
      ReadingsAre(probes[..n]);
      assert probes == probes[..n] + [probes[n]];
      ReadingsOfAre(probes[n]);
    }
  }

  lemma ReadingsOfAre(r: ProbeResult)
    ensures forall x :: x in ReadingsOf(r, |r.metrics|) <==> exists m :: m in r.metrics && x == ReadingOf(r, m)
  {
    hide ReadingOf;
    var rs := ReadingsOf(r, |r.metrics|);
    forall x | x in rs ensures exists m :: m in r.metrics && x == ReadingOf(r, m) {
      var i :| 0 <= i < |rs| && rs[i] == x;
      assert r.metrics[i] in r.metrics;
    }
    forall m | m in r.metrics ensures ReadingOf(r, m) in rs {
      var i :| 0 <= i < |r.metrics| && r.metrics[i] == m;
      assert rs[i] == ReadingOf(r, m);
    }
  }

  lemma ExtraIsProper(probes: seq<ProbeResult>)
    ensures forall f :: f in Extra(GroupAll(Readings(probes))) ==> Proper(f)
  {
    hide IsName, AllNameChars, Sanitise, GroupAll, Readings;
    var groups := GroupAll(Readings(probes));
    ExtraAre(groups);
    GroupKeysAreRead(Readings(probes));
    ReadingsAre(probes);
    GroupingPartitions(Readings(probes), "");
    forall g | g in groups ensures Proper(ExtraFamily(g)) {
      var r, m :| r in probes && m in r.metrics && ReadingOf(r, m).key == g.key;
      SanitisedIsName(m.key);
      ProperName(PROBE, g.key);
      ReadingHelp(g.key);
    }
  }

  lemma ReadingHelp(key: string)
    requires AllNameChars(key)
    ensures '\n' !in READING_HELP + key + "'."
  {
  }

  /** Whatever the probes are called and whatever they read, the page reads back as
      the document it was printed from: every label, value and header, in order. */
  lemma PageReadsBack(p: Printer, values: seq<ProbeResult>, s: Stats)
    ensures var doc := Document(p, SortByName(values), s); Read(Print(doc)) == Some(doc)
  {
    hide Proper, Print, Read, BuiltIn, WritePath, GroupAll, Readings;
    var probes := SortByName(values);
    BuiltInIsProper(p, probes);
    ExtraIsProper(probes);
    WritePathIsProper(p, s);
    PrintRoundTrip(Document(p, probes, s));
  }

  // one family per name

  predicate UniqueFamilies(fams: seq<Family>) {
    forall i, j :: 0 <= i < j < |fams| ==> fams[i].name != fams[j].name
  }

  predicate Apart(a: seq<Family>, b: seq<Family>) {
    forall f, g :: f in a && g in b ==> f.name != g.name
  }

  lemma UniqueConcat(a: seq<Family>, b: seq<Family>)
    ensures UniqueFamilies(a + b) <==> UniqueFamilies(a) && UniqueFamilies(b) && Apart(a, b)
  {
    var c := a + b;
    if UniqueFamilies(c) {
      forall i, j | 0 <= i < j < |a| ensures a[i].name != a[j].name {
        assert c[i].name != c[j].name;
      }
      forall i, j | 0 <= i < j < |b| ensures b[i].name != b[j].name {
        assert c[|a| + i].name != c[|a| + j].name;
      }
      forall f, g | f in a && g in b ensures f.name != g.name {
        var i :| 0 <= i < |a| && a[i] == f;
        var j :| 0 <= j < |b| && b[j] == g;
        assert c[i].name != c[|a| + j].name;
      }
    }
  }

  /** Some built-in family that is on the page has this suffix. */
  predicate Taken(probes: seq<ProbeResult>, key: string) {
    && probes != []
    && (key == SUCCESS || key == DURATION || key == LAST_RUN
        || (key == STATUS && exists r :: r in probes && r.status.Some?))
  }

  /** An extra reading of some probe would open one of those families again. */
  predicate Clashes(probes: seq<ProbeResult>) {
    exists r, m :: r in probes && m in r.metrics && Taken(probes, Sanitise(m.key))
  }

  lemma SamePrefix(prefix: string, a: string, b: string)
    ensures prefix + a == prefix + b <==> a == b
  {
    assert (prefix + a)[|prefix|..] == a && (prefix + b)[|prefix|..] == b;
  }

  lemma DifferentPrefix(a: string, b: string)
    ensures PROBE + a != INFLUX + b
  {
    assert (PROBE + a)[7] == 'p' && (INFLUX + b)[7] == 'i';
  }

  lemma {:induction false} SamplesExist(probes: seq<ProbeResult>, reading: ProbeResult -> Option<Token>)
    ensures Samples(probes, reading) != [] <==> exists r :: r in probes && reading(r).Some?
  {
    if probes != [] {
      SamplesExist(probes[1..], reading);
      assert probes == [probes[0]] + probes[1..];
    }
  }

  lemma BuiltInShown(p: Printer, probes: seq<ProbeResult>)
    ensures probes != [] ==> Samples(probes, UpReading(p)) != []
    ensures probes != [] ==> Samples(probes, DurationReading(p)) != []
    ensures probes != [] ==> Samples(probes, LastRunReading(p)) != []
    ensures Samples(probes, StatusReading(p)) != [] <==> exists r :: r in probes && r.status.Some?
    ensures probes == [] ==> forall f :: f in BuiltIn(p, probes) ==> f.samples == []
  {
    SamplesExist(probes, UpReading(p));
    SamplesExist(probes, DurationReading(p));
    SamplesExist(probes, StatusReading(p));
    SamplesExist(probes, LastRunReading(p));
    if probes != [] {
      assert probes[0] in probes;
    }
  }

  lemma SuffixesDiffer()
    ensures SUCCESS != DURATION && SUCCESS != STATUS && SUCCESS != LAST_RUN
    ensures DURATION != LAST_RUN && STATUS != LAST_RUN && DURATION != STATUS
  {
    assert DURATION[0] != STATUS[0];
  }

  lemma {:induction false} ShownUnique(fams: seq<Family>)
    requires UniqueFamilies(fams)
    ensures UniqueFamilies(Shown(fams))
  {
    if fams != [] {
      ShownUnique(fams[1..]);
      ShownAreGiven(fams[1..]);
      forall f | f in fams[1..] ensures f.name != fams[0].name {
        var i :| 1 <= i < |fams| && fams[i] == f;
      }
    }
  }

  lemma BuiltInUnique(p: Printer, probes: seq<ProbeResult>)
    ensures UniqueFamilies(Shown(BuiltIn(p, probes)))
  {
    hide Samples, SUCCESS, DURATION, STATUS, LAST_RUN, PROBE;
    SuffixesDiffer();
    SamePrefix(PROBE, SUCCESS, DURATION);
    SamePrefix(PROBE, SUCCESS, STATUS);
    SamePrefix(PROBE, SUCCESS, LAST_RUN);
    SamePrefix(PROBE, DURATION, STATUS);
    SamePrefix(PROBE, DURATION, LAST_RUN);
    SamePrefix(PROBE, STATUS, LAST_RUN);
    ShownUnique(BuiltIn(p, probes));
  }

  lemma {:induction false} ExtraUnique(groups: seq<Group>)
    requires Ascending(groups)
    ensures UniqueFamilies(Extra(groups))
  {
    hide ExtraFamily;
    if groups != [] {
      ExtraUnique(groups[1..]);
      ExtraAre(groups[1..]);
      forall g | g in groups[1..] ensures ExtraFamily(g).name != ExtraFamily(groups[0]).name {
        var i :| 1 <= i < |groups| && groups[i] == g;
        LessIrreflexive(g.key);
        assert g.key != groups[0].key;
        ExtraName(g, groups[0]);
      }
      assert Extra(groups) == [ExtraFamily(groups[0])] + Extra(groups[1..]);
      UniqueConcat([ExtraFamily(groups[0])], Extra(groups[1..]));
    }
  }

  lemma ExtraName(g: Group, h: Group)
    ensures ExtraFamily(g).name == ExtraFamily(h).name <==> g.key == h.key
  {
    SamePrefix(PROBE, g.key, h.key);
  }

  /** The suffixes of the write path, told apart by length or by one character. */
  lemma WriteSuffixesDiffer()
    ensures |QUEUE_BATCHES.suffix| == 13 && |QUEUE_BYTES.suffix| == 11
    ensures |WRITTEN_BATCHES.suffix| == |DROPPED_BATCHES.suffix| == 21
    ensures |WRITTEN_BYTES.suffix| == |DROPPED_BYTES.suffix| == 19
    ensures |REJECTED_BATCHES.suffix| == 22 && |LAST_SUCCESS.suffix| == 36
    ensures WRITTEN_BATCHES.suffix[8] == 'w' && DROPPED_BATCHES.suffix[8] == 'd'
    ensures WRITTEN_BYTES.suffix[6] == 'w' && DROPPED_BYTES.suffix[6] == 'd'
  {
  }

  lemma WritePathUnique(p: Printer, s: Stats)
    ensures UniqueFamilies(WritePath(p, s))
  {
    hide QUEUE_BATCHES, QUEUE_BYTES, WRITTEN_BATCHES, WRITTEN_BYTES, DROPPED_BATCHES, DROPPED_BYTES,
         REJECTED_BATCHES, LAST_SUCCESS, INFLUX;
    WriteSuffixesDiffer();
    var w := WritePath(p, s);
    assert forall i :: 0 <= i < 8 ==> |w[i].name| == |INFLUX| + [13, 11, 21, 19, 21, 19, 22, 36][i];
    SamePrefix(INFLUX, WRITTEN_BATCHES.suffix, DROPPED_BATCHES.suffix);
    SamePrefix(INFLUX, WRITTEN_BYTES.suffix, DROPPED_BYTES.suffix);
  }

  lemma BuiltInTaken(p: Printer, probes: seq<ProbeResult>, key: string)
    ensures (exists f :: f in Shown(BuiltIn(p, probes)) && f.name == PROBE + key) <==> Taken(probes, key)
  {
    hide Samples, SUCCESS, DURATION, STATUS, LAST_RUN, PROBE;
    var all := BuiltIn(p, probes);
    ShownAreGiven(all);
    BuiltInShown(p, probes);
    SamePrefix(PROBE, SUCCESS, key);
    SamePrefix(PROBE, DURATION, key);
    SamePrefix(PROBE, STATUS, key);
    SamePrefix(PROBE, LAST_RUN, key);
    assert all[0] in all && all[1] in all && all[2] in all && all[3] in all;
  }

  lemma {:induction false} PickNonEmpty(readings: seq<Reading>, key: string)
    ensures Pick(readings, key) != [] <==> exists r :: r in readings && r.key == key
  {
    if readings != [] {
      var n := |readings| - 1;
      PickNonEmpty(readings[..n], key);
      assert readings == readings[..n] + [readings[n]];
    }
  }

  lemma {:induction false} LookupFinds(groups: seq<Group>, key: string)
    requires Ascending(groups)
    ensures Lookup(groups, key) != [] <==> exists g :: g in groups && g.key == key
  {
    if groups != [] {
      LookupFinds(groups[1..], key);
      assert groups == [groups[0]] + groups[1..];
    }
  }

  /** A family of extra readings appears for exactly the sanitised keys read. */
  lemma GroupKeys(probes: seq<ProbeResult>, key: string)
    ensures (exists g :: g in GroupAll(Readings(probes)) && g.key == key)
       <==> exists r, m :: r in probes && m in r.metrics && Sanitise(m.key) == key
  {
    hide Sanitise, GroupAll, Readings;
    var readings := Readings(probes);
    GroupingPartitions(readings, key);
    PickNonEmpty(readings, key);
    LookupFinds(GroupAll(readings), key);
    ReadingsAre(probes);
    if r, m :| r in probes && m in r.metrics && Sanitise(m.key) == key {
      assert ReadingOf(r, m) in readings;
    }
    if x :| x in readings && x.key == key {
      var r, m :| r in probes && m in r.metrics && x == ReadingOf(r, m);
      assert Sanitise(m.key) == key;
    }
  }

  lemma BuiltInApartFromExtra(p: Printer, probes: seq<ProbeResult>)
    ensures Apart(Shown(BuiltIn(p, probes)), Extra(GroupAll(Readings(probes)))) <==> !Clashes(probes)
  {
    hide BuiltIn, Sanitise, GroupAll, Readings, Taken, PROBE;
    var a, groups := Shown(BuiltIn(p, probes)), GroupAll(Readings(probes));
    ExtraAre(groups);
    forall g | g in groups
      ensures (exists f :: f in a && f.name == ExtraFamily(g).name) <==> Taken(probes, g.key)
    {
      BuiltInTaken(p, probes, g.key);
    }
    forall r, m | r in probes && m in r.metrics
      ensures exists g :: g in groups && g.key == Sanitise(m.key)
    {
      GroupKeys(probes, Sanitise(m.key));
    }
    forall g | g in groups
      ensures exists r, m :: r in probes && m in r.metrics && Sanitise(m.key) == g.key
    {
      GroupKeys(probes, g.key);
    }
  }

  lemma {:induction false} MembersOfSort(values: seq<ProbeResult>)
    ensures forall r :: r in SortByName(values) <==> r in values
  {
    SortSorts(values);
    forall r ensures r in SortByName(values) <==> r in values {
      assert r in multiset(SortByName(values)) <==> r in multiset(values);
    }
  }

  lemma ClashesSurviveSorting(values: seq<ProbeResult>)
    ensures Clashes(SortByName(values)) <==> Clashes(values)
  {
    hide Sanitise;
    var probes := SortByName(values);
    MembersOfSort(values);
    assert probes != [] ==> probes[0] in values;
    assert values != [] ==> values[0] in probes;
    forall key ensures Taken(probes, key) <==> Taken(values, key) {
    }
  }

  /** Each family is one contiguous group with one header exactly when no extra
      reading, once sanitised, takes the name of a built-in family on the page. */
  lemma EachFamilyOnce(p: Printer, values: seq<ProbeResult>, s: Stats)
    ensures UniqueFamilies(Document(p, SortByName(values), s)) <==> !Clashes(values)
  {
    hide BuiltIn, WritePath, GroupAll, Readings, Clashes, UniqueFamilies, Apart;
    var probes := SortByName(values);
    var a, b, c := Shown(BuiltIn(p, probes)), Extra(GroupAll(Readings(probes))), WritePath(p, s);
    ClashesSurviveSorting(values);
    UniqueConcat(a, b);
    UniqueConcat(a + b, c);
    BuiltInUnique(p, probes);
    GroupingPartitions(Readings(probes), "");
    ExtraUnique(GroupAll(Readings(probes)));
    WritePathUnique(p, s);
    BuiltInApartFromExtra(p, probes);
    ProbesApartFromWritePath(p, probes, s);
  }

  lemma ProbesApartFromWritePath(p: Printer, probes: seq<ProbeResult>, s: Stats)
    ensures Apart(Shown(BuiltIn(p, probes)) + Extra(GroupAll(Readings(probes))), WritePath(p, s))
  {
    hide Shown, BuiltIn, Extra, WritePath, GroupAll, Readings, PROBE, INFLUX;
    var a, b, w := Shown(BuiltIn(p, probes)), Extra(GroupAll(Readings(probes))), WritePath(p, s);
    ProbePrefix(p, probes);
    WritePrefix(p, s);
    forall f: Family, g: Family | PROBE <= f.name && INFLUX <= g.name ensures f.name != g.name {
      DifferentPrefix(f.name[|PROBE|..], g.name[|INFLUX|..]);
      assert f.name == PROBE + f.name[|PROBE|..] && g.name == INFLUX + g.name[|INFLUX|..];
    }
  }

  lemma ProbePrefix(p: Printer, probes: seq<ProbeResult>)
    ensures forall f :: f in Shown(BuiltIn(p, probes)) || f in Extra(GroupAll(Readings(probes))) ==> PROBE <= f.name
  {
    hide Shown, Extra, Samples, GroupAll, Readings, PROBE, SUCCESS, DURATION, STATUS, LAST_RUN;
    ShownAreGiven(BuiltIn(p, probes));
    ExtraAre(GroupAll(Readings(probes)));
  }

  lemma WritePrefix(p: Printer, s: Stats)
    ensures forall f :: f in WritePath(p, s) ==> INFLUX <= f.name
  {
    hide INFLUX, QUEUE_BATCHES, QUEUE_BYTES, WRITTEN_BATCHES, WRITTEN_BYTES, DROPPED_BATCHES, DROPPED_BYTES,
         REJECTED_BATCHES, LAST_SUCCESS;
  }

  // one sample per series

  predicate SameSeries(a: Sample, b: Sample) {
    if a.Plain? then b.Plain?
    else b.Labelled? && a.probe == b.probe && a.kind == b.kind && a.target == b.target
  }

  predicate UniqueSeries(samples: seq<Sample>) {
    forall i, j :: 0 <= i < j < |samples| ==> !SameSeries(samples[i], samples[j])
  }

  predicate KeysApart(r: ProbeResult, n: nat)
    requires n <= |r.metrics|
  {
    forall i, j :: 0 <= i < j < n ==> Sanitise(r.metrics[i].key) != Sanitise(r.metrics[j].key)
  }

  /** No key was read twice. */
  ghost predicate KeysReadOnce(readings: seq<Reading>) { forall key :: |Pick(readings, key)| <= 1 }

  /** Under no key does a series repeat. */
  ghost predicate SeriesReadOnce(readings: seq<Reading>) { forall key :: UniqueSeries(Pick(readings, key)) }

  lemma {:induction false} PickConcat(a: seq<Reading>, b: seq<Reading>, key: string)
    ensures Pick(a + b, key) == Pick(a, key) + Pick(b, key)
  {
    if b == [] {
      ConcatNothing(a);
      ConcatNothing(Pick(a, key));
    } else {
      var n := |b| - 1;
      PickConcat(a, b[..n], key);
      assert (a + b)[..|a| + n] == a + b[..n];
      ConcatAssoc(Pick(a, key), Pick(b[..n], key), if b[n].key == key then [b[n].sample] else []);
    }
  }

  lemma PickStep(r: ProbeResult, m: nat, key: string)
    requires m < |r.metrics|
    ensures Pick(ReadingsOf(r, m + 1), key) == Pick(ReadingsOf(r, m), key)
         + if Sanitise(r.metrics[m].key) == key then [Label(r, r.metrics[m].value)] else []
  {
    hide Sanitise;
    assert ReadingsOf(r, m + 1)[..m] == ReadingsOf(r, m);
  }

  lemma {:induction false} PickOwn(r: ProbeResult, n: nat, key: string)
    requires n <= |r.metrics|
    ensures forall s :: s in Pick(ReadingsOf(r, n), key) ==> s == Label(r, s.value)
    ensures Pick(ReadingsOf(r, n), key) != [] <==> exists i :: 0 <= i < n && Sanitise(r.metrics[i].key) == key
  {
    hide Sanitise, ReadingsOf;
    if n > 0 {
      PickOwn(r, n - 1, key);
      PickStep(r, n - 1, key);
    } else {
      PickNonEmpty(ReadingsOf(r, 0), key);
    }
  }

  lemma {:induction false} PickAtMostOne(r: ProbeResult, n: nat, key: string)
    requires n <= |r.metrics| && KeysApart(r, n)
    ensures |Pick(ReadingsOf(r, n), key)| <= 1
  {
    hide Sanitise, ReadingsOf;
    if n > 0 {
      PickAtMostOne(r, n - 1, key);
      PickStep(r, n - 1, key);
      PickOwn(r, n - 1, key);
    } else {
      PickNonEmpty(ReadingsOf(r, 0), key);
    }
  }

  lemma {:induction false} PickApart(r: ProbeResult, n: nat)
    requires n <= |r.metrics| && KeysReadOnce(ReadingsOf(r, n))
    ensures KeysApart(r, n)
  {
    hide Sanitise, ReadingsOf, Pick;
    if n > 0 {
      var front := ReadingsOf(r, n - 1);
      forall key ensures |Pick(front, key)| <= 1 {
        PickStep(r, n - 1, key);
        assert |Pick(ReadingsOf(r, n), key)| <= 1;
      }
      PickApart(r, n - 1);
      var last := Sanitise(r.metrics[n - 1].key);
      PickStep(r, n - 1, last);
      PickOwn(r, n - 1, last);
    }
  }

  /** One result contributes at most one sample to each family exactly when no two
      of its keys sanitise alike. */
  lemma PickOnce(r: ProbeResult)
    ensures KeysApart(r, |r.metrics|) <==> KeysReadOnce(ReadingsOf(r, |r.metrics|))
  {
    hide KeysApart, ReadingsOf, Pick;
    var own := ReadingsOf(r, |r.metrics|);
    if KeysApart(r, |r.metrics|) {
      forall key ensures |Pick(own, key)| <= 1 {
        PickAtMostOne(r, |r.metrics|, key);
      }
    }
    if KeysReadOnce(own) {
      PickApart(r, |r.metrics|);
    }
  }

  lemma {:induction false} PickSources(probes: seq<ProbeResult>, key: string)
    ensures forall s :: s in Pick(Readings(probes), key) ==>
      s.Labelled? && exists r :: r in probes && r.name == s.probe
  {
    hide Pick, ReadingsOf;
    if probes == [] {
      PickNonEmpty(Readings(probes), key);
    } else {
      var n := |probes| - 1;
      PickSources(probes[..n], key);
      PickOwn(probes[n], |probes[n].metrics|, key);
      PickConcat(Readings(probes[..n]), ReadingsOf(probes[n], |probes[n].metrics|), key);
      assert probes == probes[..n] + [probes[n]];
    }
  }

  lemma UniqueSeriesConcat(a: seq<Sample>, b: seq<Sample>)
    requires forall x, y :: x in a && y in b ==> !SameSeries(x, y)
    requires forall x, y :: x in b && y in b ==> SameSeries(x, y)
    ensures UniqueSeries(a + b) <==> UniqueSeries(a) && |b| <= 1
  {
    var c := a + b;
    if UniqueSeries(c) {
      forall i, j | 0 <= i < j < |a| ensures !SameSeries(a[i], a[j]) {
        assert !SameSeries(c[i], c[j]);
      }
    }
    if |b| > 1 {
      assert b[0] in b && b[1] in b;
      assert SameSeries(c[|a|], c[|a| + 1]);
    }
  }

  lemma PickUniqueStep(front: seq<ProbeResult>, r: ProbeResult, key: string)
    requires forall q :: q in front ==> q.name != r.name
    ensures var own := Pick(ReadingsOf(r, |r.metrics|), key);
      UniqueSeries(Pick(Readings(front) + ReadingsOf(r, |r.metrics|), key))
      <==> UniqueSeries(Pick(Readings(front), key)) && |own| <= 1
  {
    hide Pick, Readings, ReadingsOf, UniqueSeries;
    PickSources(front, key);
    PickOwn(r, |r.metrics|, key);
    PickConcat(Readings(front), ReadingsOf(r, |r.metrics|), key);
    UniqueSeriesConcat(Pick(Readings(front), key), Pick(ReadingsOf(r, |r.metrics|), key));
  }

  lemma {:induction false} PickUnique(probes: seq<ProbeResult>)
    requires UniqueNames(probes)
    ensures SeriesReadOnce(Readings(probes)) <==> forall r :: r in probes ==> KeysApart(r, |r.metrics|)
  {
    hide KeysApart, UniqueSeries, ReadingsOf, Pick;
    if probes == [] {
      forall key ensures UniqueSeries(Pick(Readings(probes), key)) {
        PickNonEmpty(Readings(probes), key);
        NothingTwice(Pick(Readings(probes), key));
      }
    } else {
      var n := |probes| - 1;
      var front, r := probes[..n], probes[n];
      PickUnique(front);
      PickOnce(r);
      assert probes == front + [r];
      var all, before, own := Readings(probes), Readings(front), ReadingsOf(r, |r.metrics|);
      forall key
        ensures UniqueSeries(Pick(all, key)) <==> UniqueSeries(Pick(before, key)) && |Pick(own, key)| <= 1
      {
        PickUniqueStep(front, r, key);
      }
      assert SeriesReadOnce(all) <==> SeriesReadOnce(before) && KeysReadOnce(own);
    }
  }

  lemma NothingTwice(samples: seq<Sample>)
    requires |samples| <= 1
    ensures UniqueSeries(samples)
  {
  }

  lemma {:induction false} SamplesUnique(probes: seq<ProbeResult>, reading: ProbeResult -> Option<Token>)
    requires UniqueNames(probes)
    ensures UniqueSeries(Samples(probes, reading))
    ensures forall s :: s in Samples(probes, reading) ==> s.Labelled? && exists r :: r in probes && r.name == s.probe
  {
    if probes != [] {
      SamplesUnique(probes[1..], reading);
      assert probes == [probes[0]] + probes[1..];
    }
  }

  lemma BuiltInSeries(p: Printer, probes: seq<ProbeResult>)
    requires UniqueNames(probes)
    ensures forall f :: f in Shown(BuiltIn(p, probes)) ==> UniqueSeries(f.samples)
  {
    hide UniqueSeries, Samples;
    ShownAreGiven(BuiltIn(p, probes));
    SamplesUnique(probes, UpReading(p));
    SamplesUnique(probes, DurationReading(p));
    SamplesUnique(probes, StatusReading(p));
    SamplesUnique(probes, LastRunReading(p));
  }

  lemma WritePathSeries(p: Printer, s: Stats)
    ensures forall f :: f in WritePath(p, s) ==> UniqueSeries(f.samples)
  {
    forall f | f in WritePath(p, s) ensures UniqueSeries(f.samples) {
      NothingTwice(f.samples);
    }
  }

  lemma ExtraSeries(groups: seq<Group>)
    ensures (forall f :: f in Extra(groups) ==> UniqueSeries(f.samples)) <==> forall g :: g in groups ==> UniqueSeries(g.samples)
  {
    hide UniqueSeries, Extra;
    ExtraAre(groups);
    forall g | g in groups ensures ExtraFamily(g) in Extra(groups) && ExtraFamily(g).samples == g.samples {
    }
  }

  lemma GroupSeries(readings: seq<Reading>)
    ensures (forall g :: g in GroupAll(readings) ==> UniqueSeries(g.samples))
       <==> SeriesReadOnce(readings)
  {
    hide UniqueSeries, GroupAll, Pick, Lookup;
    var groups := GroupAll(readings);
    GroupingPartitions(readings, "");
    forall g | g in groups ensures g.samples == Pick(readings, g.key) {
      GroupingPartitions(readings, g.key);
      LookupOwn(groups, g);
    }
    if forall g :: g in groups ==> UniqueSeries(g.samples) {
      forall key ensures UniqueSeries(Pick(readings, key)) {
        if g :| g in groups && g.key == key {
          assert UniqueSeries(g.samples);
        } else {
          GroupingPartitions(readings, key);
          LookupBelow(groups, key);
          NothingTwice(Pick(readings, key));
        }
      }
    }
  }

  /** Every series is listed once exactly when no probe has two extra readings
      whose names sanitise alike: such a pair comes out as two samples with the
      same name and labels, which the format does not allow. */
  lemma EachSeriesOnce(p: Printer, values: seq<ProbeResult>, s: Stats)
    requires UniqueNames(values)
    ensures (forall f :: f in Document(p, SortByName(values), s) ==> UniqueSeries(f.samples))
       <==> forall r :: r in values ==> KeysApart(r, |r.metrics|)
  {
    hide KeysApart, UniqueSeries, SeriesReadOnce, Shown, BuiltIn, Extra, WritePath, Readings, GroupAll;
    var probes := SortByName(values);
    MembersOfSort(values);
    SortKeepsUnique(values);
    PickUnique(probes);
    GroupSeries(Readings(probes));
    ExtraSeries(GroupAll(Readings(probes)));
    BuiltInSeries(p, probes);
    WritePathSeries(p, s);
  }

  lemma {:induction false} LookupOwn(groups: seq<Group>, g: Group)
    requires Ascending(groups) && g in groups
    ensures Lookup(groups, g.key) == g.samples
  {
    if g != groups[0] {
      assert g in groups[1..];
      LessIrreflexive(g.key);
      LookupOwn(groups[1..], g);
    }
  }

  // nothing missing, nothing invented

  /** What one result puts into the built-in family `key`. */
  predicate SaysBuiltIn(p: Printer, r: ProbeResult, key: string, s: Sample) {
    || (key == SUCCESS && s == Label(r, p.count(if r.up then 1 else 0)))
    || (key == DURATION && s == Label(r, p.seconds(r.responseMs)))
    || (key == STATUS && r.status.Some? && s == Label(r, p.count(r.status.value)))
    || (key == LAST_RUN && s == Label(r, p.count(r.timestampMs / 1000)))
  }

  /** What its extra readings put under the sanitised key `key`. */
  predicate SaysExtra(r: ProbeResult, key: string, s: Sample) {
    exists m :: m in r.metrics && ReadingOf(r, m) == Reading(key, s)
  }

  ghost predicate OnPage(fams: seq<Family>, key: string, s: Sample) {
    exists f :: f in fams && f.name == PROBE + key && s in f.samples
  }

  lemma {:induction false} SamplesAre(probes: seq<ProbeResult>, reading: ProbeResult -> Option<Token>)
    ensures forall s :: s in Samples(probes, reading) <==>
      exists r :: r in probes && reading(r).Some? && s == Label(r, reading(r).value)
  {
    hide Label;
    if probes != [] {
      SamplesAre(probes[1..], reading);
      assert probes == [probes[0]] + probes[1..];
    }
  }

  lemma {:induction false} PickAre(readings: seq<Reading>, key: string)
    ensures forall s :: s in Pick(readings, key) <==> Reading(key, s) in readings
  {
    if readings != [] {
      var n := |readings| - 1;
      PickAre(readings[..n], key);
      assert readings == readings[..n] + [readings[n]];
    }
  }

  lemma BuiltInHolds(p: Printer, probes: seq<ProbeResult>, key: string, s: Sample)
    ensures OnPage(Shown(BuiltIn(p, probes)), key, s)
       <==> || (key == SUCCESS && s in Samples(probes, UpReading(p)))
            || (key == DURATION && s in Samples(probes, DurationReading(p)))
            || (key == STATUS && s in Samples(probes, StatusReading(p)))
            || (key == LAST_RUN && s in Samples(probes, LastRunReading(p)))
  {
    hide Samples, SUCCESS, DURATION, STATUS, LAST_RUN, PROBE;
    var all := BuiltIn(p, probes);
    ShownAreGiven(all);
    SamePrefix(PROBE, SUCCESS, key);
    SamePrefix(PROBE, DURATION, key);
    SamePrefix(PROBE, STATUS, key);
    SamePrefix(PROBE, LAST_RUN, key);
    assert all[0] in all && all[1] in all && all[2] in all && all[3] in all;
  }

  lemma BuiltInSays(p: Printer, probes: seq<ProbeResult>, key: string, s: Sample)
    ensures OnPage(Shown(BuiltIn(p, probes)), key, s) <==> exists r :: r in probes && SaysBuiltIn(p, r, key, s)
  {
    hide OnPage, Shown, BuiltIn, Samples, Label, SUCCESS, DURATION, STATUS, LAST_RUN;
    BuiltInHolds(p, probes, key, s);
    SamplesAre(probes, UpReading(p));
    SamplesAre(probes, DurationReading(p));
    SamplesAre(probes, StatusReading(p));
    SamplesAre(probes, LastRunReading(p));
    if r :| r in probes && SaysBuiltIn(p, r, key, s) {
      assert UpReading(p)(r).Some? && DurationReading(p)(r).Some? && LastRunReading(p)(r).Some?;
      assert r.status.Some? ==> StatusReading(p)(r).Some?;
    }
  }

  lemma ExtraSays(probes: seq<ProbeResult>, key: string, s: Sample)
    ensures OnPage(Extra(GroupAll(Readings(probes))), key, s) <==> exists r :: r in probes && SaysExtra(r, key, s)
  {
    hide ReadingOf, GroupAll, Readings, Pick, Lookup, PROBE;
    var readings := Readings(probes);
    var groups := GroupAll(readings);
    GroupingPartitions(readings, key);
    PickAre(readings, key);
    ReadingsAre(probes);
    ExtraAre(groups);
    forall g | g in groups ensures ExtraFamily(g).name == PROBE + key <==> g.key == key {
      SamePrefix(PROBE, g.key, key);
    }
    forall g | g in groups && g.key == key ensures g.samples == Pick(readings, key) {
      LookupOwn(groups, g);
    }
    LookupFinds(groups, key);
  }

  /** The page says exactly what the results say: a sample stands in the family of
      a name if and only if some probe's latest result put it there. */
  lemma PageSaysExactly(p: Printer, values: seq<ProbeResult>, s: Stats, key: string, sample: Sample)
    ensures OnPage(Document(p, SortByName(values), s), key, sample)
       <==> exists r :: r in values && (SaysBuiltIn(p, r, key, sample) || SaysExtra(r, key, sample))
  {
    hide Shown, BuiltIn, Extra, WritePath, GroupAll, Readings, SaysBuiltIn, SaysExtra, PROBE;
    var probes := SortByName(values);
    MembersOfSort(values);
    BuiltInSays(p, probes, key, sample);
    ExtraSays(probes, key, sample);
    WritePathIsElsewhere(p, s, key);
  }

  lemma WritePathIsElsewhere(p: Printer, s: Stats, key: string)
    ensures forall f :: f in WritePath(p, s) ==> f.name != PROBE + key
  {
    hide WritePath, PROBE, INFLUX;
    WritePrefix(p, s);
    forall f: Family | INFLUX <= f.name ensures f.name != PROBE + key {
      DifferentPrefix(key, f.name[|INFLUX|..]);
      assert f.name == INFLUX + f.name[|INFLUX|..];
    }
  }

  predicate IsRow(f: Family, name: string, kind: string, value: Token) {
    f.name == name && f.kind == kind && f.samples == [Plain(value)]
  }

  /** The four families every probe has a sample in, or may have, by their full names. */
  lemma FamilyNames(p: Printer, probes: seq<ProbeResult>)
    ensures var fams := BuiltIn(p, probes);
      && |fams| == 4
      && fams[0].name == "huginn_probe_" + "success" && fams[1].name == "huginn_probe_" + "duration_seconds"
      && fams[2].name == "huginn_probe_" + "http_status_code"
      && fams[3].name == "huginn_probe_" + "last_run_timestamp_seconds"
  {
    hide Samples;
  }

  /** The write path's eight numbers, each under its own name and type. */
  predicate ShowsCounters(p: Printer, s: Stats, fams: seq<Family>) {
    && |fams| == 8
    && IsRow(fams[0], "huginn_influx_" + "queue_batches", "gauge", p.count(s.queueBatches))
    && IsRow(fams[1], "huginn_influx_" + "queue_bytes", "gauge", p.count(s.queueBytes))
    && IsRow(fams[2], "huginn_influx_" + "batches_written_total", "counter", p.count(s.writtenBatches))
    && IsRow(fams[3], "huginn_influx_" + "bytes_written_total", "counter", p.count(s.writtenBytes))
    && IsRow(fams[4], "huginn_influx_" + "batches_dropped_total", "counter", p.count(s.droppedBatches))
    && IsRow(fams[5], "huginn_influx_" + "bytes_dropped_total", "counter", p.count(s.droppedBytes))
    && IsRow(fams[6], "huginn_influx_" + "batches_rejected_total", "counter", p.count(s.rejectedBatches))
    && IsRow(fams[7], "huginn_influx_" + ("last_write_success" + "_timestamp_seconds"), "gauge", p.count(s.lastWriteSuccessUnix))
  }

  lemma WritePathShowsCounters(p: Printer, s: Stats)
    ensures ShowsCounters(p, s, WritePath(p, s))
  {
  }

  /** They end the page, and everything before them is a gauge about a probe. */
  lemma PageShowsCounters(p: Printer, values: seq<ProbeResult>, s: Stats)
    ensures var doc := Document(p, SortByName(values), s); var n := |doc| - 8;
      n >= 0 && ShowsCounters(p, s, doc[n..]) && forall f :: f in doc[..n] ==> f.kind == "gauge" && PROBE <= f.name
  {
    hide GroupAll, Readings, Samples, SortByName, PROBE, WritePath, ShowsCounters, IsRow;
    var probes := SortByName(values);
    ShownAreGiven(BuiltIn(p, probes));
    ExtraAre(GroupAll(Readings(probes)));
    WritePathShowsCounters(p, s);
    var front := Shown(BuiltIn(p, probes)) + Extra(GroupAll(Readings(probes)));
    assert Document(p, probes, s)[|front|..] == WritePath(p, s);
    assert Document(p, probes, s)[..|front|] == front;
    WritePathHasEight(p, s);
  }

  lemma WritePathHasEight(p: Printer, s: Stats)
    ensures |WritePath(p, s)| == 8
  {
  }

  // failing inputs

  /** A reading called `success` opens a second family of that name. */
  lemma ReadingCalledSuccess(p: Printer, r: ProbeResult, value: Token, s: Stats)
    requires r.metrics == [Metric(SUCCESS, value)]
    ensures !UniqueFamilies(Document(p, SortByName([r]), s))
  {
    hide Document, SortByName, UniqueFamilies;
    EachFamilyOnce(p, [r], s);
    SanitisedIsName(SUCCESS);
    assert r in [r] && r.metrics[0] in r.metrics;
    assert Taken([r], Sanitise(r.metrics[0].key));
  }

  /** Readings `a.b` and `a_b` of one probe come out as one series twice. */
  lemma ReadingsThatCollide(p: Printer, r: ProbeResult, v: Token, w: Token, s: Stats)
    requires r.metrics == [Metric(['a', '.', 'b'], v), Metric(['a', '_', 'b'], w)]
    ensures exists f :: f in Document(p, SortByName([r]), s) && !UniqueSeries(f.samples)
  {
    hide Document, SortByName, UniqueSeries, Sanitise;
    EachSeriesOnce(p, [r], s);
    DotBecomesUnderscore();
    assert r in [r];
    assert Sanitise(r.metrics[0].key) == Sanitise(r.metrics[1].key);
    assert !KeysApart(r, |r.metrics|);
  }

  lemma DotBecomesUnderscore()
    ensures Sanitise(['a', '.', 'b']) == ['a', '_', 'b'] == Sanitise(['a', '_', 'b'])
  {
    var dotted, plain: string := ['a', '.', 'b'], ['a', '_', 'b'];
    SanitisedIsName(plain);
    assert dotted[1..] == ['.', 'b'] && dotted[1..][1..] == ['b'] && dotted[1..][1..][1..] == [];
    assert Sanitise(['b']) == SanitiseCode('b') + Sanitise([]);
    assert Sanitise(['.', 'b']) == SanitiseCode('.') + Sanitise(['b']);
    assert Sanitise(dotted) == SanitiseCode('a') + Sanitise(['.', 'b']);
  }
}
