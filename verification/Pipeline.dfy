/** The whole program: the lifecycle machine and the delivery machine side by side.
    They meet in three places: a completed probe publishes to the hub, the hub
    closes for the batcher when its last sender is gone, and the writer's backoff
    can be cut short by the stop signal. */
module Pipeline {
  import opened Text
  import L = Lifecycle
  import opened Results
  import opened LineProtocol
  import opened Batcher
  import opened RetryQueues
  import D = Delivery

  /** How many probes are configured, and the delivery settings. */
  datatype Config = Config(total: nat, delivery: D.Config)

  /** `exit`: the process has ended, and whether the writer had returned by then. */
  datatype State = State(life: L.State, flow: D.State, exit: Option<bool>)

  datatype Step =
    | Life(life: L.Step)                      // signal, wiring, probes, run()
    | ProbeDone(p: nat, result: ProbeResult)  // a probe completes and publishes
    | Flow(flow: D.Step)                      // batcher and writer
    | WriterStops                             // the shutdown arm of the backoff
    | Exit(inTime: bool)                      // `run()` returns: writer joined, or drain timeout

  const INIT := State(L.INIT, D.INIT, None)

  /** `run_writer` has returned. */
  predicate Ended(pc: D.Pc) { pc.Drained? || pc.Abandoned? }

  /** The writer's shutdown receiver is ready. */
  predicate Stopping(life: L.State) { L.Ready(life, life.writerRx) }

  predicate Enabled(c: Config, s: State, step: Step) {
    s.exit.None? &&
    match step
    case Life(l) => !l.Complete? && !l.WriterStops? && L.Enabled(c.total, s.life, l)
    case ProbeDone(p, _) => L.Enabled(c.total, s.life, L.Complete(p))
    case Flow(f) => !f.Publish? && !f.Abandon? && D.Enabled(c.delivery, s.flow, f, L.HubOpen(s.life), Stopping(s.life))
    case WriterStops =>
      L.Enabled(c.total, s.life, L.WriterStops) && D.Enabled(c.delivery, s.flow, D.Abandon, true, true)
    case Exit(inTime) => s.life.stage.HubDropped? && (inTime <==> Ended(s.flow.post.pc))
  }

  function Apply(c: Config, s: State, step: Step): State
    requires Enabled(c, s, step)
  {
    match step
    case Life(l) => s.(life := L.Apply(c.total, s.life, l))
    case ProbeDone(p, r) =>
      s.(life := L.Apply(c.total, s.life, L.Complete(p)), flow := D.Apply(c.delivery, s.flow, D.Publish(r), true, false))
    case Flow(f) => s.(flow := D.Apply(c.delivery, s.flow, f, L.HubOpen(s.life), Stopping(s.life)))
    case WriterStops =>
      s.(life := L.Apply(c.total, s.life, L.WriterStops), flow := D.Apply(c.delivery, s.flow, D.Abandon, true, true))
    case Exit(inTime) => s.(exit := Some(inTime))
  }

  predicate Legal(c: Config, steps: seq<Step>)
    decreases |steps|, 0
  {
    steps != [] ==>
      var front := steps[..|steps| - 1];
      Legal(c, front) && Enabled(c, Exec(c, front), steps[|steps| - 1])
  }

  function Exec(c: Config, steps: seq<Step>): State
    requires Legal(c, steps)
    decreases |steps|, 1
  {
    if steps == [] then INIT else Apply(c, Exec(c, steps[..|steps| - 1]), steps[|steps| - 1])
  }

  // ----- invariant ----------------------------------------------------------

  /** The batcher has only exited after the hub closed, having read everything. */
  ghost predicate ClosedInv(s: State) {
    s.flow.group.finished ==> !L.HubOpen(s.life) && s.flow.hub.cursor == |s.flow.hub.log|
  }

  /** The writer's receiver is used up exactly when the shutdown arm ended it. */
  predicate StoppedInv(s: State) { s.life.writerRx.Consumed? <==> s.flow.post.pc.Abandoned? }

  /** The process ends after the hub was dropped, with the writer joined or not. */
  predicate ExitInv(s: State) {
    s.exit.Some? ==> s.life.stage.HubDropped? && (s.exit.value <==> Ended(s.flow.post.pc))
  }

  ghost predicate Inv(c: Config, s: State) {
    L.Inv(c.total, s.life) && D.Inv(c.delivery, s.flow) && ClosedInv(s) && StoppedInv(s) && ExitInv(s)
  }

  lemma StepKeepsInv(c: Config, s: State, step: Step)
    requires Inv(c, s) && Enabled(c, s, step)
    ensures Inv(c, Apply(c, s, step))
  {
    hide L.Inv, D.Inv, L.Enabled, L.Apply, L.HubOpen, D.Absorb, D.Free, D.Answer;
    match step
    case Life(l) =>
      L.StepKeepsInv(c.total, s.life, l);
      OnlyWriterStopsConsumes(c.total, s.life, l);
      if !L.HubOpen(s.life) { L.HubStaysClosed(c.total, s.life, l); }
    case ProbeDone(p, r) =>
      L.StepKeepsInv(c.total, s.life, L.Complete(p));
      OnlyWriterStopsConsumes(c.total, s.life, L.Complete(p));
      D.StepKeepsInv(c.delivery, s.flow, D.Publish(r), true, false);
      if !L.HubOpen(s.life) { L.HubStaysClosed(c.total, s.life, L.Complete(p)); }
    case Flow(f) =>
      D.StepKeepsInv(c.delivery, s.flow, f, L.HubOpen(s.life), Stopping(s.life));
      ReadingIsMonotone(c.delivery, s.flow, f, L.HubOpen(s.life), Stopping(s.life));
      OnlyAbandonAbandons(c.delivery, s.flow, f, L.HubOpen(s.life), Stopping(s.life));
    case WriterStops =>
      L.StepKeepsInv(c.total, s.life, L.WriterStops);
      WriterStopsConsumes(c.total, s.life);
      D.StepKeepsInv(c.delivery, s.flow, D.Abandon, true, true);
      if !L.HubOpen(s.life) { L.HubStaysClosed(c.total, s.life, L.WriterStops); }
    case Exit(_) =>
  }

  lemma OnlyWriterStopsConsumes(total: nat, s: L.State, l: L.Step)
    requires L.Inv(total, s) && L.Enabled(total, s, l) && !l.WriterStops?
    ensures L.Apply(total, s, l).writerRx.Consumed? <==> s.writerRx.Consumed?
  {
  }

  lemma WriterStopsConsumes(total: nat, s: L.State)
    requires L.Enabled(total, s, L.WriterStops)
    ensures L.Apply(total, s, L.WriterStops).writerRx.Consumed?
  {
  }

  lemma OnlyAbandonAbandons(c: D.Config, s: D.State, f: D.Step, open: bool, stop: bool)
    requires D.Enabled(c, s, f, open, stop) && !f.Abandon?
    ensures D.Apply(c, s, f, open, stop).post.pc.Abandoned? <==> s.post.pc.Abandoned?
  {
    hide Effect, D.PushPart;
  }

  /** The batcher exits only at the end of a closed hub, and stays there. */
  lemma ReadingIsMonotone(c: D.Config, s: D.State, f: D.Step, open: bool, stop: bool)
    requires D.Inv(c, s) && D.Enabled(c, s, f, open, stop) && !f.Publish?
    requires s.group.finished ==> s.hub.cursor == |s.hub.log|
    ensures var t := D.Apply(c, s, f, open, stop);
      t.group.finished ==> t.hub.cursor == |t.hub.log| && (s.group.finished || !open)
  {
    hide D.Inv, Effect, D.PushPart, D.Answer, D.Free;
  }

  lemma {:induction false} RunKeepsInv(c: Config, steps: seq<Step>)
    requires Legal(c, steps)
    ensures Inv(c, Exec(c, steps))
  {
    hide Inv, Apply;
    if steps == [] {
      InitInv(c);
    } else {
      RunKeepsInv(c, steps[..|steps| - 1]);
      StepKeepsInv(c, Exec(c, steps[..|steps| - 1]), steps[|steps| - 1]);
    }
  }

  lemma InitInv(c: Config)
    ensures Inv(c, INIT)
  {
    hide L.Inv, D.Inv;
    L.InitInv(c.total);
    D.InitInv(c.delivery);
  }

  // ----- over every run -----------------------------------------------------

  /** The queue is closed only after the signal, once no sender of the hub is left
      and every published result was received or lagged past; it is closed once. */
  lemma ClosedMeansEverythingRead(c: Config, steps: seq<Step>)
    requires Legal(c, steps)
    ensures var s := Exec(c, steps); var f := s.flow;
      f.shelf.closed ==>
        && s.life.sent && !L.HubOpen(s.life) && f.shelf.closes == 1
        && |f.hub.received| + f.hub.lagged == |f.hub.log|
        && f.group.buffer == []
        && D.Below(f.hub.received, |f.hub.log|)
        && Flatten(f.group.parts) == D.Pick(f.hub.log, f.hub.received)
  {
    RunKeepsInv(c, steps);
    var s := Exec(c, steps);
    ConcatNothing(Flatten(s.flow.group.parts));
    hide Flatten, GoodParts, Body;
  }

  /** By then the stop signal is pending for the writer, or has already ended it: no
      retry after the close waits out its backoff. */
  lemma ClosedMeansStopping(c: Config, steps: seq<Step>)
    requires Legal(c, steps) && Exec(c, steps).flow.shelf.closed
    ensures Stopping(Exec(c, steps).life) || Exec(c, steps).flow.post.pc.Abandoned?
  {
    ClosedMeansEverythingRead(c, steps);
    RunKeepsInv(c, steps);
    hide L.Inv, D.Inv, L.HubOpen, Legal, Exec, Stopping;
    L.ClosedHubMeansStopReady(c.total, Exec(c, steps).life);
    assert Stopping(Exec(c, steps).life) || Exec(c, steps).life.writerRx.Consumed?;
  }

  /** No batch is pushed, and none evicted, after the queue was closed. */
  lemma {:induction false} NoPushAfterClose(c: Config, steps: seq<Step>, more: seq<Step>)
    requires Legal(c, steps) && Legal(c, steps + more) && Exec(c, steps).flow.shelf.closed
    ensures var s, t := Exec(c, steps).flow, Exec(c, steps + more).flow;
      && t.shelf.closed && t.shelf.closes == s.shelf.closes
      && t.shelf.pushed == s.shelf.pushed && t.shelf.evicted == s.shelf.evicted && t.hub.log == s.hub.log
    decreases |more|
  {
    hide Enabled, Apply, Inv;
    if more == [] {
      ConcatNothing(steps);
    } else {
      var all, n := steps + more, |more| - 1;
      assert all[..|all| - 1] == steps + more[..n];
      NoPushAfterClose(c, steps, more[..n]);
      RunKeepsInv(c, steps + more[..n]);
      ClosedIsFinal(c, Exec(c, steps + more[..n]), all[|all| - 1]);
    }
  }

  lemma ClosedIsFinal(c: Config, s: State, step: Step)
    requires Inv(c, s) && Enabled(c, s, step) && s.flow.shelf.closed
    ensures var t := Apply(c, s, step).flow;
      && t.shelf.closed && t.shelf.closes == s.flow.shelf.closes
      && t.shelf.pushed == s.flow.shelf.pushed && t.shelf.evicted == s.flow.shelf.evicted
      && t.hub.log == s.flow.hub.log
  {
    hide L.Inv, L.Enabled, L.Apply, L.HubOpen, D.Absorb, D.Free, D.Answer, D.HubInv, D.GroupInv, D.ShelfInv, D.TextInv,
      D.HeldInv, D.VerdictInv, D.LedgerInv;
    match step
    case Life(l) =>
    case ProbeDone(p, r) => L.HubStaysClosed(c.total, s.life, L.Complete(p));
    case Flow(f) => D.FinishedIsFinal(c.delivery, s.flow, f, L.HubOpen(s.life), Stopping(s.life));
    case WriterStops => D.FinishedIsFinal(c.delivery, s.flow, D.Abandon, true, true);
    case Exit(_) =>
  }

  // ----- the batcher is the loop --------------------------------------------

  /** What a step wakes the batcher's select for, if it is one of the batcher's. */
  function Wakes(c: Config, s: State, step: Step, at: nat): seq<Event>
    requires Enabled(c, s, step)
  {
    if !step.Flow? then []
    else match step.flow
      case Receive => [Event(at, Got(s.flow.hub.log[s.flow.hub.cursor]))]
      case Lag => [Event(at, Lagged(D.Backlog(s.flow.hub) - c.delivery.ring))]
      case HubCloses => [Event(at, Closed)]
      case TimerFires => [Event(at, Deadline)]
      case _ => []
  }

  /** The batcher's events in a run; `when` gives the time of each step. */
  function ScriptOf(c: Config, steps: seq<Step>, when: nat -> nat): seq<Event>
    requires Legal(c, steps)
  {
    if steps == [] then []
    else
      var n := |steps| - 1;
      ScriptOf(c, steps[..n], when) + Wakes(c, Exec(c, steps[..n]), steps[n], when(n))
  }

  /** In every run, interleaved with the writer in any way, the batcher has done what
      its loop does with the same events: so its batches have the loop's properties,
      for example that an unfilled one was due or the last. */
  lemma {:induction false} BatcherIsTheLoop(c: Config, steps: seq<Step>, when: nat -> nat, timeout: nat, start: nat)
    requires Legal(c, steps)
    ensures var g := Exec(c, steps).flow.group; var script := ScriptOf(c, steps, when);
      var b := After(script, c.delivery.batchSize, timeout, start);
      && g.buffer == b.buffer && g.parts == b.parts && (g.finished <==> b.closed)
      && Short(g.parts, c.delivery.batchSize) <= Occasions(script)
  {
    ShortBatchesAreTimed(ScriptOf(c, steps, when), c.delivery.batchSize, timeout, start);
    hide Enabled, Apply, Handle, Short, Occasions, Wakes;
    if steps == [] {
      AfterNothing(c.delivery.batchSize, timeout, start);
    } else {
      var n := |steps| - 1;
      var s, front := Exec(c, steps[..n]), ScriptOf(c, steps[..n], when);
      BatcherIsTheLoop(c, steps[..n], when, timeout, start);
      BatcherStep(c, s, steps[n], when(n), After(front, c.delivery.batchSize, timeout, start), timeout);
      var more := Wakes(c, s, steps[n], when(n));
      if more == [] {
        ConcatNothing(front);
      } else {
        assert (front + more)[..|front|] == front;
      }
    }
  }

  lemma BatcherStep(c: Config, s: State, step: Step, at: nat, b: Run, timeout: nat)
    requires Enabled(c, s, step)
    requires s.flow.group.buffer == b.buffer && s.flow.group.parts == b.parts && (s.flow.group.finished <==> b.closed)
    ensures var g, more := Apply(c, s, step).flow.group, Wakes(c, s, step, at);
      && |more| <= 1
      && var t := if more == [] then b else Handle(b, more[0], c.delivery.batchSize, timeout);
         g.buffer == t.buffer && g.parts == t.parts && (g.finished <==> t.closed)
  {
    hide L.Enabled, L.Apply, L.HubOpen, D.PushPart, D.Answer, D.Free, OnResult;
    ConcatNothing(b.parts);
  }

  // ----- the verdicts are the server's --------------------------------------

  /** Step `k` of the run brought an answer to the POST of batch `b`. */
  ghost predicate AnsweredOn(c: Config, steps: seq<Step>, k: nat, b: Batch) {
    && k < |steps| && steps[k].Flow? && steps[k].flow.Answered?
    && Legal(c, steps[..k]) && Exec(c, steps[..k]).flow.post.pc == D.Posting(b)
  }

  /** The server answered a POST of `b` with success; with a refusal for good. */
  ghost predicate ServerTook(c: Config, steps: seq<Step>, b: Batch) {
    exists k: nat :: AnsweredOn(c, steps, k, b) && D.IsSuccess(steps[k].flow.answer)
  }

  ghost predicate ServerRefused(c: Config, steps: seq<Step>, b: Batch) {
    exists k: nat :: AnsweredOn(c, steps, k, b) && D.IsRefusal(steps[k].flow.answer)
  }

  /** Batch `b`, as pushed, is among the push indices `at`. */
  predicate Among(f: D.State, at: seq<nat>, b: Batch) {
    b.addr in at && b.addr < |f.shelf.pushed| && f.shelf.pushed[b.addr] == b
  }

  /** The accepted batches are exactly those for which the server answered a POST of
      that very batch with success, and the rejected ones those it refused for good. */
  ghost predicate JudgedByServer(c: Config, steps: seq<Step>)
    requires Legal(c, steps)
  {
    var f := Exec(c, steps).flow;
    && (forall b :: ServerTook(c, steps, b) <==> Among(f, f.post.accepted, b))
    && (forall b :: ServerRefused(c, steps, b) <==> Among(f, f.post.rejected, b))
    && (forall i: nat :: i in f.post.accepted || i in f.post.rejected ==> i < |f.shelf.pushed|)
  }

  lemma AnsweredBefore(c: Config, steps: seq<Step>, n: nat, b: Batch)
    requires n <= |steps|
    ensures forall k: nat :: k < n ==> (AnsweredOn(c, steps, k, b) <==> AnsweredOn(c, steps[..n], k, b))
  {
    hide Legal, Exec;
    forall k: nat | k < n ensures AnsweredOn(c, steps, k, b) <==> AnsweredOn(c, steps[..n], k, b) {
      assert steps[..n][..k] == steps[..k];
    }
  }

  /** One step enters at most one verdict, the one its answer gives. */
  lemma VerdictStep(c: Config, s: State, step: Step)
    requires Enabled(c, s, step) && D.Inv(c.delivery, s.flow)
    ensures var f, t := s.flow, Apply(c, s, step).flow;
      if step.Flow? && step.flow.Answered? then
        && f.post.pc.Posting? && Among(f, [f.post.pc.held.addr], f.post.pc.held) && t.shelf == f.shelf
        && t.post.accepted == f.post.accepted + (if D.IsSuccess(step.flow.answer) then [f.post.pc.held.addr] else [])
        && t.post.rejected == f.post.rejected + (if D.IsRefusal(step.flow.answer) then [f.post.pc.held.addr] else [])
      else
        t.post.accepted == f.post.accepted && t.post.rejected == f.post.rejected && f.shelf.pushed <= t.shelf.pushed
  {
    hide L.Enabled, L.Apply, L.HubOpen, Stopping, D.Apply, D.IsSuccess, D.IsRefusal, D.HubInv, D.GroupInv, D.ShelfInv,
         D.TextInv, D.VerdictInv, D.LedgerInv;
    match step
    case Life(_) =>
    case ProbeDone(_, r) => D.OnlyAnswersDecide(c.delivery, s.flow, D.Publish(r), true, false);
    case Flow(f) =>
      if f.Answered? {
        D.AnswerDecides(c.delivery, s.flow, f.answer, L.HubOpen(s.life), Stopping(s.life));
      } else {
        D.OnlyAnswersDecide(c.delivery, s.flow, f, L.HubOpen(s.life), Stopping(s.life));
      }
    case WriterStops => D.OnlyAnswersDecide(c.delivery, s.flow, D.Abandon, true, true);
    case Exit(_) =>
  }

  /** Over every run. */
  lemma VerdictsAreAnswers(c: Config, steps: seq<Step>)
    requires Legal(c, steps)
    ensures JudgedByServer(c, steps)
  {
    hide ServerTook, ServerRefused, Among;
    VerdictHistory(c, steps);
    VerdictsBelowPushed(c, steps);
  }

  lemma {:induction false} VerdictHistory(c: Config, steps: seq<Step>)
    requires Legal(c, steps)
    ensures var f := Exec(c, steps).flow;
      && (forall b :: ServerTook(c, steps, b) <==> Among(f, f.post.accepted, b))
      && (forall b :: ServerRefused(c, steps, b) <==> Among(f, f.post.rejected, b))
  {
    hide Enabled, Apply, D.IsSuccess, D.IsRefusal, D.Inv, L.Inv, ServerTook, ServerRefused, Among;
    if steps == [] {
      NothingAnswered(c, steps);
    } else {
      var n := |steps| - 1;
      var front, step := steps[..n], steps[n];
      VerdictHistory(c, front);
      RunKeepsInv(c, front);
      var f, t := Exec(c, front).flow, Exec(c, steps).flow;
      VerdictStep(c, Exec(c, front), step);
      VerdictsBelowPushed(c, front);
      forall b
        ensures ServerTook(c, steps, b) <==> Among(t, t.post.accepted, b)
        ensures ServerRefused(c, steps, b) <==> Among(t, t.post.rejected, b)
      {
        TookOneMore(c, steps, b);
        var answered := step.Flow? && step.flow.Answered?;
        var held := if answered then f.post.pc.held else b;
        AmongOneMore(f, t, f.post.accepted, t.post.accepted, held, answered && D.IsSuccess(step.flow.answer), b);
        AmongOneMore(f, t, f.post.rejected, t.post.rejected, held, answered && D.IsRefusal(step.flow.answer), b);
      }
    }
  }

  /** `at` and the push history after a step that decides `held`, or nothing. */
  lemma AmongOneMore(f: D.State, t: D.State, before: seq<nat>, after: seq<nat>, held: Batch, decided: bool, b: Batch)
    requires forall i: nat :: i in before ==> i < |f.shelf.pushed|
    requires f.shelf.pushed <= t.shelf.pushed
    requires decided ==> Among(f, [held.addr], held)
    requires after == before + if decided then [held.addr] else []
    ensures Among(t, after, b) <==> Among(f, before, b) || (decided && b == held)
  {
    if decided {
      assert held.addr in [held.addr] && forall i :: i in [held.addr] ==> i == held.addr;
    }
  }

  lemma TookOneMore(c: Config, steps: seq<Step>, b: Batch)
    requires steps != []
    ensures var n := |steps| - 1;
      && (ServerTook(c, steps, b) <==>
            ServerTook(c, steps[..n], b) || (AnsweredOn(c, steps, n, b) && D.IsSuccess(steps[n].flow.answer)))
      && (ServerRefused(c, steps, b) <==>
            ServerRefused(c, steps[..n], b) || (AnsweredOn(c, steps, n, b) && D.IsRefusal(steps[n].flow.answer)))
  {
    hide D.IsSuccess, D.IsRefusal, Legal, Exec;
    var n := |steps| - 1;
    AnsweredBefore(c, steps, n, b);
    forall k: nat | AnsweredOn(c, steps, k, b) ensures k == n || AnsweredOn(c, steps[..n], k, b) {
    }
    forall k: nat | AnsweredOn(c, steps[..n], k, b) ensures AnsweredOn(c, steps, k, b) && steps[..n][k] == steps[k] {
    }
  }

  lemma NothingAnswered(c: Config, none: seq<Step>)
    requires none == []
    ensures forall b :: !ServerTook(c, none, b) && !ServerRefused(c, none, b)
    ensures forall b :: !Among(D.INIT, D.INIT.post.accepted, b) && !Among(D.INIT, D.INIT.post.rejected, b)
  {
  }

  lemma VerdictsBelowPushed(c: Config, steps: seq<Step>)
    requires Legal(c, steps)
    ensures var f := Exec(c, steps).flow;
      forall i: nat :: i in f.post.accepted || i in f.post.rejected ==> i < |f.shelf.pushed|
  {
    RunKeepsInv(c, steps);
    hide L.Inv, D.Inv;
    D.SettledBelow(c.delivery, Exec(c, steps).flow);
  }

  /** At every moment: the queue is the newest part of what was pushed; what left it
      was evicted or popped; batches are taken in push order and decided once, by the
      server's answer to a POST of that very batch; and every verdict belongs to a
      popped batch or to one evicted while it was held, save the one whose pop is
      about to happen. */
  lemma Ledger(c: Config, steps: seq<Step>)
    requires Legal(c, steps)
    ensures var f := Exec(c, steps).flow; var q := f.shelf; var w := f.post;
      && |q.pushed| == |q.batches| + |q.evicted| + |q.popped| && q.batches == q.pushed[D.Head(q)..]
      && D.Increasing(w.attempted) && D.Increasing(w.accepted) && D.Increasing(w.rejected)
      && JudgedByServer(c, steps)
      && w.written == |w.accepted| && w.refused == |w.rejected| && f.dropped == |q.evicted|
      && w.written + w.refused == |q.popped| + |w.passed| + (if w.pc.Settled? then 1 else 0)
      && (forall i: nat :: i in w.passed ==> i in q.evicted)
      && (q.pushed != [] ==> |q.pushed| - 1 !in q.evicted)
  {
    RunKeepsInv(c, steps);
    VerdictsAreAnswers(c, steps);
    hide Flatten, GoodParts, Body, JudgedByServer, Legal, Exec;
  }

  /** The writer's pop finds its own batch or nothing: it removes the held batch if
      it is still queued, and leaves the queue alone exactly when that batch was
      evicted meanwhile. */
  lemma PopRemovesHeldOrNothing(c: Config, steps: seq<Step>)
    requires Legal(c, steps) && Exec(c, steps).flow.post.pc.Settled?
    ensures var f := Exec(c, steps).flow; var held := f.post.pc.held;
      var left := D.Free(f.shelf, f.post).0.batches;
      && (left == f.shelf.batches <==> held.addr in f.shelf.evicted)
      && (held.addr !in f.shelf.evicted ==> f.shelf.batches == [held] + left)
  {
    RunKeepsInv(c, steps);
    hide L.Inv, D.HubInv, D.GroupInv, D.TextInv, D.CloseInv, D.VerdictInv, D.LedgerInv;
    var f := Exec(c, steps).flow;
    D.FreeRemovesHeldOrNothing(c.delivery, f.shelf, f.post);
    hide D.ShelfInv, D.HeldInv, D.Free;
  }

  /** At every moment of every run, however it ends: each published result is unread,
      lagged past, or received; each received one is buffered or in one batch; and
      each batch was accepted, refused or evicted, all three counted, or is still
      queued. With the queue closed nothing is unread or buffered any more. */
  lemma EveryResultIsSomewhere(c: Config, steps: seq<Step>)
    requires Legal(c, steps)
    ensures var f := Exec(c, steps).flow; var q := f.shelf; var w := f.post;
      && |f.hub.log| == |f.hub.received| + f.hub.lagged + D.Backlog(f.hub) && D.Backlog(f.hub) >= 0
      && D.Below(f.hub.received, |f.hub.log|) && D.Increasing(f.hub.received)
      && Flatten(f.group.parts) + f.group.buffer == D.Pick(f.hub.log, f.hub.received)
      && |f.group.parts| == |q.pushed|
      && (forall i: nat :: i < |q.pushed| ==> i in w.accepted || i in w.rejected || i in q.evicted || D.Head(q) <= i)
      && w.accepted == D.Kept(|q.pushed|, D.Unaccepted(f)) && (forall i: nat :: i in w.accepted ==> i !in w.rejected)
      && w.written == |w.accepted| && w.refused == |w.rejected| && f.dropped == |q.evicted|
      && (q.closed ==> D.Backlog(f.hub) == 0 && f.group.buffer == [])
      && JudgedByServer(c, steps)
  {
    RunKeepsInv(c, steps);
    VerdictsAreAnswers(c, steps);
    hide JudgedByServer;
    D.EveryBatchIsSomewhere(c.delivery, Exec(c, steps).flow);
    hide L.Inv, Flatten, D.Kept, D.ShelfInv, D.HeldInv, D.VerdictInv;
  }

  /** When the process ends: nothing runs after it; what it loses without counting it
      is what EveryResultIsSomewhere leaves unread, buffered or queued. That is
      nothing if the writer drained. If the writer returned, as is reported as a clean
      drain, the queue is empty exactly when it drained. */
  lemma WhenTheProcessEnds(c: Config, steps: seq<Step>)
    requires Legal(c, steps) && Exec(c, steps).exit.Some?
    ensures var s := Exec(c, steps); var f := s.flow;
      && (forall step :: !Enabled(c, s, step)) && s.life.sent && s.life.stage.HubDropped?
      && (s.exit == Some(true) ==> Ended(f.post.pc) && (f.shelf.batches == [] <==> f.post.pc.Drained?))
      && (s.exit == Some(false) ==> !Ended(f.post.pc))
      && (f.post.pc.Drained? ==> f.shelf.batches == [] && f.group.buffer == [] && D.Backlog(f.hub) == 0)
  {
    RunKeepsInv(c, steps);
    EveryResultIsSomewhere(c, steps);
    hide D.Inv, L.Inv, Enabled;
    var s := Exec(c, steps);
    SentByThen(c, s);
    assert forall step :: !Enabled(c, s, step) by {
      forall step ensures !Enabled(c, s, step) {
        NothingAfterExit(c, s, step);
      }
    }
    if s.flow.post.pc.Abandoned? {
      D.HeldLeavesData(c.delivery, s.flow);
    }
    if s.flow.post.pc.Drained? {
      D.DrainedIsComplete(c.delivery, s.flow);
    }
  }

  lemma NothingAfterExit(c: Config, s: State, step: Step)
    requires s.exit.Some?
    ensures !Enabled(c, s, step)
  {
  }

  lemma SentByThen(c: Config, s: State)
    requires L.Inv(c.total, s.life) && s.life.stage.HubDropped?
    ensures s.life.sent
  {
  }

  /** Every published result is accounted for when the writer leaves drained: it was
      lagged past, or it is in exactly one batch, and that batch was accepted,
      refused, or evicted. Split back into lines, the accepted bodies are the lines
      of the received results in order and once each, without the lost batches. */
  lemma EndToEnd(c: Config, steps: seq<Step>)
    requires Legal(c, steps) && Exec(c, steps).flow.post.pc.Drained?
    requires var h := Exec(c, steps).flow.hub;
      D.Below(h.received, |h.log|) && D.AllFramable(D.Pick(h.log, h.received))
    ensures var f := Exec(c, steps).flow; var parts := f.group.parts; var lost := D.Lost(f);
      && |f.hub.log| == |f.hub.received| + f.hub.lagged
      && f.shelf.batches == []
      && f.post.written + f.post.refused + f.dropped == |f.shelf.pushed| + |f.post.passed|
      && Flatten(parts) == D.Pick(f.hub.log, f.hub.received)
      && D.Below(f.post.accepted, |f.shelf.pushed|) && D.Below(D.Kept(|parts|, lost), |parts|)
      && D.SplitBodies(f.shelf.pushed, f.post.accepted) == D.PartLines(parts, D.Kept(|parts|, lost))
      && (lost == {} ==> D.SplitBodies(f.shelf.pushed, f.post.accepted) == Lines(D.Pick(f.hub.log, f.hub.received)))
      && JudgedByServer(c, steps)
  {
    var s := Exec(c, steps);
    RunKeepsInv(c, steps);
    VerdictsAreAnswers(c, steps);
    hide JudgedByServer;
    assert s.flow.shelf.closed by {
      D.DrainedIsComplete(c.delivery, s.flow);
    }
    ClosedMeansEverythingRead(c, steps);
    D.DrainedIsComplete(c.delivery, s.flow);
    D.AcceptedIsReceivedMinusLost(c.delivery, s.flow);
    hide *;
  }
}
