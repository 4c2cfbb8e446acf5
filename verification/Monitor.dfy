/** A monitor running a configuration that loaded: what the configuration gate
    guarantees is what the pipeline and the encoder need, so the end-to-end result
    holds for every run without further assumptions on the data. */
module Monitor {
  import opened Text
  import opened Results
  import opened LineProtocol
  import opened RetryQueues
  import opened Batcher
  import opened ConfigGate
  import L = Lifecycle
  import D = Delivery
  import P = Pipeline

  /** The pipeline's settings; the channel rounds the configured capacity up. */
  function SettingsOf(raw: Config, ring: nat): P.Config {
    var i := raw.settings.influx;
    P.Config(|raw.probes|, D.Config(ring, i.batchSize, i.maxBufferedBytes, i.retryInitialMs, i.retryMaxMs))
  }

  /** Every completed probe publishes a result of its own configuration entry. */
  predicate RunsConfig(raw: Config, steps: seq<P.Step>) {
    forall i :: 0 <= i < |steps| && steps[i].ProbeDone? ==>
      steps[i].p < |raw.probes| && PublishedBy(Normalised(raw).probes[steps[i].p], steps[i].result)
  }

  lemma FlowKeepsLog(c: D.Config, s: D.State, f: D.Step, open: bool, stop: bool)
    requires D.Enabled(c, s, f, open, stop) && !f.Publish?
    ensures D.Apply(c, s, f, open, stop).hub.log == s.hub.log
  {
    hide Effect, D.PushPart, D.Answer, D.Free;
  }

  lemma {:induction false} LogIsPublished(raw: Config, ring: nat, steps: seq<P.Step>)
    requires P.Legal(SettingsOf(raw, ring), steps) && RunsConfig(raw, steps)
    ensures forall r :: r in P.Exec(SettingsOf(raw, ring), steps).flow.hub.log ==> Published(Normalised(raw), r)
  {
    hide L.Enabled, L.Apply, D.Enabled, D.Apply, L.HubOpen, PublishedBy;
    var c := SettingsOf(raw, ring);
    if steps != [] {
      var n := |steps| - 1;
      LogIsPublished(raw, ring, steps[..n]);
      var s := P.Exec(c, steps[..n]);
      match steps[n]
      case Life(_) =>
      case ProbeDone(p, r) =>
        PublishAppends(c.delivery, s.flow, r);
        assert Published(Normalised(raw), r);
      case Flow(f) => FlowKeepsLog(c.delivery, s.flow, f, L.HubOpen(s.life), P.Stopping(s.life));
      case WriterStops => FlowKeepsLog(c.delivery, s.flow, D.Abandon, true, true);
      case Exit(_) =>
    }
  }

  lemma PublishAppends(c: D.Config, s: D.State, r: ProbeResult)
    ensures D.Enabled(c, s, D.Publish(r), true, false)
    ensures D.Apply(c, s, D.Publish(r), true, false).hub.log == s.hub.log + [r]
  {
  }

  /** The results in the batches `at`. */
  function ResultsAt(parts: seq<seq<ProbeResult>>, at: seq<nat>): seq<ProbeResult>
    requires D.Below(at, |parts|)
  {
    if at == [] then [] else ResultsAt(parts, at[..|at| - 1]) + parts[at[|at| - 1]]
  }

  lemma {:induction false} LinesOfResultsAt(parts: seq<seq<ProbeResult>>, at: seq<nat>)
    requires D.Below(at, |parts|)
    ensures D.PartLines(parts, at) == Lines(ResultsAt(parts, at))
  {
    hide Lines;
    if at == [] {
      D.LinesOfNothing(parts);
    } else {
      var n := |at| - 1;
      LinesOfResultsAt(parts, at[..n]);
      D.LinesConcat(ResultsAt(parts, at[..n]), parts[at[n]]);
    }
  }

  lemma {:induction false} ResultsAtAre(parts: seq<seq<ProbeResult>>, at: seq<nat>)
    requires D.Below(at, |parts|)
    ensures forall r :: r in ResultsAt(parts, at) ==> r in Flatten(parts)
  {
    if at != [] {
      var n := |at| - 1;
      ResultsAtAre(parts, at[..n]);
      PartInFlatten(parts, at[n]);
    }
  }

  lemma {:induction false} PartInFlatten(parts: seq<seq<ProbeResult>>, i: nat)
    requires i < |parts|
    ensures forall r :: r in parts[i] ==> r in Flatten(parts)
  {
    var n := |parts| - 1;
    if i < n {
      PartInFlatten(parts[..n], i);
    }
  }

  /** With nothing lost, those are the results of all the batches. */
  lemma {:induction false} AllResults(parts: seq<seq<ProbeResult>>, n: nat)
    requires n <= |parts|
    ensures D.Below(D.Kept(n, {}), |parts|)
    ensures ResultsAt(parts, D.Kept(n, {})) == Flatten(parts[..n])
  {
    hide D.Below;
    D.KeptIsBelow(n, {});
    D.WidenBelow(D.Kept(n, {}), n, |parts|);
    if n > 0 {
      AllResults(parts, n - 1);
      var front := D.Kept(n - 1, {});
      assert D.Kept(n, {}) == front + [n - 1] && (front + [n - 1])[..|front|] == front;
      assert parts[..n][..n - 1] == parts[..n - 1];
    }
  }

  /** No loss end to end, for every loaded configuration and every run of it that
      drains: splitting the accepted bodies into lines and parsing each line gives
      back, in order and once each, exactly the results the batcher received, minus
      those in batches counted as evicted (and not accepted) or rejected. */
  lemma NothingLostUncounted(ps: Parsers, raw: Config, ring: nat, steps: seq<P.Step>)
    requires Loads(ps, raw) && P.Legal(SettingsOf(raw, ring), steps) && RunsConfig(raw, steps)
    requires P.Exec(SettingsOf(raw, ring), steps).flow.post.pc.Drained?
    ensures var f := P.Exec(SettingsOf(raw, ring), steps).flow; var parts := f.group.parts;
      && |f.hub.log| == |f.hub.received| + f.hub.lagged
      && D.Below(f.hub.received, |f.hub.log|) && Flatten(parts) == D.Pick(f.hub.log, f.hub.received)
      && D.Below(f.post.accepted, |f.shelf.pushed|)
      && D.Below(D.Kept(|parts|, D.Lost(f)), |parts|)
      && var survivors := ResultsAt(parts, D.Kept(|parts|, D.Lost(f)));
         var lines := D.SplitBodies(f.shelf.pushed, f.post.accepted);
         && |lines| == |survivors|
         && (forall i :: 0 <= i < |lines| ==> ParseLine(lines[i]) == Some(survivors[i]))
         && (D.Lost(f) == {} ==> survivors == D.Pick(f.hub.log, f.hub.received))
    ensures P.JudgedByServer(SettingsOf(raw, ring), steps)
  {
    hide P.JudgedByServer;
    var c := SettingsOf(raw, ring);
    var f := P.Exec(c, steps).flow;
    ReceivedArePublished(ps, raw, ring, steps);
    P.EndToEnd(c, steps);
    var at := D.Kept(|f.group.parts|, D.Lost(f));
    var survivors := ResultsAt(f.group.parts, at);
    LinesOfResultsAt(f.group.parts, at);
    ResultsAtAre(f.group.parts, at);
    AllResults(f.group.parts, |f.group.parts|);
    assert f.group.parts[..|f.group.parts|] == f.group.parts;
    hide P.Legal, P.Exec, D.Lost, D.Kept, Flatten, D.SplitBodies, D.PartLines, ResultsAt, ParseLine, Line, Published, Loads,
         D.Pick, D.Below;
    forall i | 0 <= i < |survivors| ensures ParseLine(Lines(survivors)[i]) == Some(survivors[i]) {
      assert survivors[i] in survivors;
      LoadedLinesReadBack(Normalised(raw), survivors[i]);
    }
  }

  /** And for every loaded configuration and every run of it, at any moment and
      however it ends: parsing the accepted bodies line by line gives back the
      results of the accepted batches in order and once each, and a batch that is
      not accepted was refused or evicted, both counted, or is still queued. Accepted
      and refused are what the server's answers to those bodies made them. */
  lemma NothingDisappears(ps: Parsers, raw: Config, ring: nat, steps: seq<P.Step>)
    requires Loads(ps, raw) && P.Legal(SettingsOf(raw, ring), steps) && RunsConfig(raw, steps)
    ensures var f := P.Exec(SettingsOf(raw, ring), steps).flow; var parts := f.group.parts; var at := f.post.accepted;
      && D.Below(at, |f.shelf.pushed|) && D.Below(at, |parts|) && D.Increasing(at)
      && var accepted := ResultsAt(parts, at);
         var lines := D.SplitBodies(f.shelf.pushed, at);
         && |lines| == |accepted|
         && (forall i :: 0 <= i < |lines| ==> ParseLine(lines[i]) == Some(accepted[i]))
         && (forall i: nat :: i < |parts| && i !in at ==>
               i in f.post.rejected || i in f.shelf.evicted || D.Head(f.shelf) <= i)
    ensures P.JudgedByServer(SettingsOf(raw, ring), steps)
  {
    hide P.JudgedByServer;
    var c := SettingsOf(raw, ring);
    var f := P.Exec(c, steps).flow;
    ReceivedArePublished(ps, raw, ring, steps);
    P.EveryResultIsSomewhere(c, steps);
    P.Ledger(c, steps);
    P.RunKeepsInv(c, steps);
    D.AcceptedBodiesSplitBack(c.delivery, f);
    var accepted := ResultsAt(f.group.parts, f.post.accepted);
    LinesOfResultsAt(f.group.parts, f.post.accepted);
    ResultsAtAre(f.group.parts, f.post.accepted);
    assert forall r :: r in Flatten(f.group.parts) ==> r in D.Pick(f.hub.log, f.hub.received);
    hide *;
    forall i | 0 <= i < |accepted| ensures ParseLine(Lines(accepted)[i]) == Some(accepted[i]) {
      assert accepted[i] in accepted;
      LoadedLinesReadBack(Normalised(raw), accepted[i]);
    }
  }

  /** The configured limits hold throughout every run: the queue's UTF-8 payload stays
      within the buffer limit, unless it is a single batch; no batch is larger than the
      configured size, and the results still to be batched are fewer. */
  lemma LimitsHold(ps: Parsers, raw: Config, ring: nat, steps: seq<P.Step>)
    requires Loads(ps, raw) && P.Legal(SettingsOf(raw, ring), steps)
    ensures var s := P.Exec(SettingsOf(raw, ring), steps); var i := raw.settings.influx;
      && (|Payload(s.flow.shelf.batches)| <= i.maxBufferedBytes || |s.flow.shelf.batches| == 1)
      && (forall k :: 0 <= k < |s.flow.group.parts| ==> 1 <= |s.flow.group.parts[k]| <= i.batchSize)
      && |s.flow.group.buffer| < i.batchSize
      && |s.life.probes| <= |raw.probes|
  {
    hide P.Legal, P.Exec, Loads;
    P.RunKeepsInv(SettingsOf(raw, ring), steps);
    LimitsOf(SettingsOf(raw, ring), P.Exec(SettingsOf(raw, ring), steps));
    SomeBatchSize(ps, raw);
  }

  lemma LimitsOf(c: P.Config, s: P.State)
    requires P.Inv(c, s)
    ensures |Payload(s.flow.shelf.batches)| <= c.delivery.capacity || |s.flow.shelf.batches| == 1
    ensures GoodParts(s.flow.group.parts, c.delivery.batchSize) && |s.flow.group.buffer| < Cap(c.delivery.batchSize)
    ensures |s.life.probes| <= c.total
  {
    hide GoodParts, Cap, D.TextInv, D.VerdictInv, D.LedgerInv, D.HeldInv, D.FateInv, D.HubInv, D.CloseInv, L.ProbesInv,
      L.WriterRxInv;
  }

  lemma SomeBatchSize(ps: Parsers, raw: Config)
    requires Loads(ps, raw)
    ensures raw.settings.influx.batchSize > 0
  {
    assert !Has(ps, Normalised(raw), InSettings(ZeroBatchSize));
  }

  lemma ReceivedArePublished(ps: Parsers, raw: Config, ring: nat, steps: seq<P.Step>)
    requires Loads(ps, raw) && P.Legal(SettingsOf(raw, ring), steps) && RunsConfig(raw, steps)
    ensures var h := P.Exec(SettingsOf(raw, ring), steps).flow.hub;
      && D.Below(h.received, |h.log|) && D.AllFramable(D.Pick(h.log, h.received))
      && forall r :: r in D.Pick(h.log, h.received) ==> Published(Normalised(raw), r)
  {
    var c := SettingsOf(raw, ring);
    var h := P.Exec(c, steps).flow.hub;
    P.RunKeepsInv(c, steps);
    LogIsPublished(raw, ring, steps);
    hide P.Legal, P.Exec, Loads, Published, PublishedBy, Framable, L.Inv, D.GroupInv, D.ShelfInv, D.TextInv;
    forall r | r in D.Pick(h.log, h.received) ensures Published(Normalised(raw), r) && Framable(r) {
      var i :| 0 <= i < |h.received| && D.Pick(h.log, h.received)[i] == r;
      assert h.log[h.received[i]] in h.log;
      PublishedIsFramable(ps, raw, r);
    }
  }
}
