/** How a run can end. Whatever has happened so far, the hub can still close and the
    batcher read to the end; the writer can drain exactly while its backoff has not
    been cut short, and after the close it is, by the first answer worth a retry. */
module Shutdown {
  import opened Text
  import opened Results
  import opened LineProtocol
  import opened RetryQueues
  import opened Backoff
  import B = Batcher
  import L = Lifecycle
  import D = Delivery
  import P = Pipeline

  // ----- the lifecycle part of a run is a run of the lifecycle ---------------

  function LifeOf(step: P.Step): seq<L.Step> {
    match step
    case Life(l) => [l]
    case ProbeDone(p, _) => [L.Complete(p)]
    case Flow(_) => []
    case WriterStops => [L.WriterStops]
    case Exit(_) => []
  }

  function LifeSteps(steps: seq<P.Step>): seq<L.Step> {
    if steps == [] then []
    else
      var n := |steps| - 1;
      LifeSteps(steps[..n]) + LifeOf(steps[n])
  }

  lemma LifeOfStep(c: P.Config, s: P.State, step: P.Step)
    requires P.Enabled(c, s, step)
    ensures LifeOf(step) == [] ==> P.Apply(c, s, step).life == s.life
    ensures LifeOf(step) != [] ==>
      && LifeOf(step) == [LifeOf(step)[0]] && L.Enabled(c.total, s.life, LifeOf(step)[0])
      && P.Apply(c, s, step).life == L.Apply(c.total, s.life, LifeOf(step)[0])
  {
    hide L.Enabled, L.Apply, D.Enabled, D.Apply, L.HubOpen;
  }

  lemma {:induction false} LifeIsLegal(c: P.Config, steps: seq<P.Step>)
    requires P.Legal(c, steps)
    ensures L.Legal(c.total, LifeSteps(steps)) && L.Exec(c.total, LifeSteps(steps)) == P.Exec(c, steps).life
  {
    hide P.Enabled, P.Apply, LifeOf;
    if steps != [] {
      var n := |steps| - 1;
      LifeIsLegal(c, steps[..n]);
      LifeOfStep(c, P.Exec(c, steps[..n]), steps[n]);
      var before := LifeSteps(steps[..n]);
      if LifeOf(steps[n]) == [] {
        ConcatNothing(before);
      } else {
        L.ExecNext(c.total, before, LifeOf(steps[n])[0]);
      }
    }
  }

  function Lift(more: seq<L.Step>): (r: seq<P.Step>)
    ensures |r| == |more| && forall i :: 0 <= i < |more| ==> r[i] == P.Life(more[i])
  {
    seq(|more|, i requires 0 <= i < |more| => P.Life(more[i]))
  }

  lemma ExecNext(c: P.Config, steps: seq<P.Step>, step: P.Step)
    requires P.Legal(c, steps) && P.Enabled(c, P.Exec(c, steps), step)
    ensures P.Legal(c, steps + [step])
    ensures P.Exec(c, steps + [step]) == P.Apply(c, P.Exec(c, steps), step)
  {
    hide P.Enabled, P.Apply;
    assert (steps + [step])[..|steps|] == steps;
  }

  lemma LiftStep(c: P.Config, s: P.State, l: L.Step)
    requires s.exit.None? && !l.Complete? && !l.WriterStops? && L.Enabled(c.total, s.life, l)
    ensures P.Enabled(c, s, P.Life(l)) && P.Apply(c, s, P.Life(l)) == s.(life := L.Apply(c.total, s.life, l))
  {
    hide L.Enabled, L.Apply;
  }

  /** A continuation of the lifecycle that needs no delivery step can be taken by
      the whole program, and leaves the delivery side as it is. */
  lemma {:induction false} LiftRun(c: P.Config, steps: seq<P.Step>, more: seq<L.Step>)
    requires P.Legal(c, steps) && P.Exec(c, steps).exit.None? && L.Legal(c.total, LifeSteps(steps) + more)
    requires forall m :: m in more ==> !m.Complete? && !m.WriterStops?
    ensures P.Legal(c, steps + Lift(more))
    ensures P.Exec(c, steps + Lift(more)).life == L.Exec(c.total, LifeSteps(steps) + more)
    ensures P.Exec(c, steps + Lift(more)).flow == P.Exec(c, steps).flow && P.Exec(c, steps + Lift(more)).exit.None?
    decreases |more|
  {
    hide L.Enabled, L.Apply, P.Enabled, P.Apply, LifeSteps;
    var life := LifeSteps(steps);
    if more == [] {
      LifeIsLegal(c, steps);
      ConcatNothing(life);
      ConcatNothing(steps);
    } else {
      var n := |more| - 1;
      assert (life + more)[..|life| + n] == life + more[..n];
      LiftRun(c, steps, more[..n]);
      LiftStep(c, P.Exec(c, steps + Lift(more[..n])), more[n]);
      ExecNext(c, steps + Lift(more[..n]), P.Life(more[n]));
      assert Lift(more) == Lift(more[..n]) + [P.Life(more[n])];
      ConcatAssoc(steps, Lift(more[..n]), [P.Life(more[n])]);
    }
  }

  // ----- flushing -----------------------------------------------------------

  /** No received result is stuck in the buffer: while the process runs, the buffer can
      be handed over as a batch in one step, whatever the writer is doing. */
  lemma BufferCanGo(c: P.Config, steps: seq<P.Step>) returns (step: P.Step)
    requires P.Legal(c, steps) && P.Exec(c, steps).exit.None?
    requires P.Exec(c, steps).flow.group.buffer != []
    ensures P.Legal(c, steps + [step])
    ensures var g, h := P.Exec(c, steps).flow.group, P.Exec(c, steps + [step]).flow.group;
      h.buffer == [] && h.parts == g.parts + [g.buffer]
  {
    hide P.Legal, P.Exec, P.Enabled, P.Apply;
    step := P.Flow(D.TimerFires);
    P.RunKeepsInv(c, steps);
    StillReading(c, P.Exec(c, steps));
    FlushStep(c, P.Exec(c, steps));
    ExecNext(c, steps, step);
  }

  lemma StillReading(c: P.Config, s: P.State)
    requires P.Inv(c, s) && s.flow.group.buffer != []
    ensures !s.flow.group.finished
  {
    hide L.Inv, D.HubInv, D.ShelfInv, D.TextInv, D.CloseInv, D.HeldInv, D.VerdictInv, D.LedgerInv;
  }

  lemma FlushStep(c: P.Config, s: P.State)
    requires s.exit.None? && !s.flow.group.finished && s.flow.group.buffer != []
    ensures P.Enabled(c, s, P.Flow(D.TimerFires))
    ensures var g, h := s.flow.group, P.Apply(c, s, P.Flow(D.TimerFires)).flow.group;
      h.buffer == [] && h.parts == g.parts + [g.buffer]
  {
    hide L.HubOpen, L.Ready, D.PushPart;
  }

  // ----- reading to the end --------------------------------------------------

  /** What the batcher does next on a closed hub. */
  function NextRead(c: D.Config, s: D.State): D.Step {
    if D.Backlog(s.hub) == 0 then D.HubCloses else if D.Backlog(s.hub) > c.ring then D.Lag else D.Receive
  }

  function Unread(s: D.State): nat {
    if s.group.finished || D.Backlog(s.hub) < 0 then 0 else D.Backlog(s.hub) + 1
  }

  lemma ReadProgresses(c: D.Config, s: D.State, stop: bool)
    requires !s.group.finished && D.Backlog(s.hub) >= 0
    ensures D.Enabled(c, s, NextRead(c, s), false, stop)
    ensures var t := D.Apply(c, s, NextRead(c, s), false, stop);
      t.post == s.post && D.Backlog(t.hub) >= 0 && Unread(t) < Unread(s)
  {
    hide B.Effect, D.PushPart;
  }

  /** On a closed hub the batcher can read, or lag past, everything that is left. */
  lemma {:induction false} CanReadAll(c: P.Config, steps: seq<P.Step>) returns (more: seq<P.Step>)
    requires P.Legal(c, steps) && P.Exec(c, steps).exit.None? && !L.HubOpen(P.Exec(c, steps).life)
    requires D.Backlog(P.Exec(c, steps).flow.hub) >= 0
    ensures P.Legal(c, steps + more)
    ensures var s, t := P.Exec(c, steps), P.Exec(c, steps + more);
      t.flow.group.finished && t.flow.post == s.flow.post && t.exit.None?
    decreases Unread(P.Exec(c, steps).flow)
  {
    hide L.HubOpen, L.Enabled, L.Apply, D.Enabled, D.Apply, NextRead, Unread;
    var s := P.Exec(c, steps);
    if s.flow.group.finished {
      ConcatNothing(steps);
      return [];
    }
    var step := NextRead(c.delivery, s.flow);
    ReadProgresses(c.delivery, s.flow, P.Stopping(s.life));
    ReadsOnly(c.delivery, s.flow);
    ExecNext(c, steps, P.Flow(step));
    var rest := CanReadAll(c, steps + [P.Flow(step)]);
    more := [P.Flow(step)] + rest;
    ConcatAssoc(steps, [P.Flow(step)], rest);
  }

  lemma ReadsOnly(c: D.Config, s: D.State)
    ensures !NextRead(c, s).Publish? && !NextRead(c, s).Abandon?
  {
  }

  // ----- draining ------------------------------------------------------------

  const ACCEPTED: Answer := Status(204, None)

  /** In the backoff select, or ended by it. */
  predicate InPause(pc: D.Pc) { pc.Pausing? || pc.Abandoned? }

  /** What the writer does next when the server accepts everything. */
  function NextWrite(s: D.State): D.Step {
    match s.post.pc
    case Waiting => if s.shelf.batches != [] then D.Take else D.LeaveDrained
    case Posting(_) => D.Answered(ACCEPTED)
    case _ => D.Release
  }

  predicate HoldsFront(s: D.State) {
    D.HasHeld(s.post.pc) && s.shelf.batches != [] && s.shelf.batches[0].addr == s.post.pc.held.addr
  }

  /** The batches the writer has still to take. */
  function Untaken(s: D.State): nat { |s.shelf.batches| - if HoldsFront(s) then 1 else 0 }

  function Stations(pc: D.Pc): nat {
    match pc
    case Posting(_) => 3
    case Settled(_) => 2
    case Waiting => 1
    case _ => 0
  }

  lemma WriteProgresses(c: D.Config, s: D.State, stop: bool)
    requires s.shelf.closed && !s.post.pc.Drained? && !InPause(s.post.pc)
    ensures D.Enabled(c, s, NextWrite(s), false, stop)
    ensures !NextWrite(s).Publish? && !NextWrite(s).Abandon?
    ensures var t := D.Apply(c, s, NextWrite(s), false, stop);
      && t.shelf.closed && !InPause(t.post.pc)
      && (Untaken(t) < Untaken(s) || (Untaken(t) == Untaken(s) && Stations(t.post.pc) < Stations(s.post.pc)))
  {
  }

  /** On a closed queue, and between pauses, the writer can drain, if the server
      accepts what is left. */
  lemma {:induction false} CanDrain(c: P.Config, steps: seq<P.Step>) returns (more: seq<P.Step>)
    requires P.Legal(c, steps) && P.Exec(c, steps).exit.None? && !L.HubOpen(P.Exec(c, steps).life)
    requires P.Exec(c, steps).flow.shelf.closed && !InPause(P.Exec(c, steps).flow.post.pc)
    ensures P.Legal(c, steps + more) && P.Exec(c, steps + more).flow.post.pc.Drained?
    decreases Untaken(P.Exec(c, steps).flow), Stations(P.Exec(c, steps).flow.post.pc)
  {
    hide L.HubOpen, L.Enabled, L.Apply, D.Enabled, D.Apply, NextWrite, Untaken, Stations, InPause;
    var s := P.Exec(c, steps);
    if s.flow.post.pc.Drained? {
      ConcatNothing(steps);
      return [];
    }
    var step := NextWrite(s.flow);
    WriteProgresses(c.delivery, s.flow, P.Stopping(s.life));
    ExecNext(c, steps, P.Flow(step));
    var rest := CanDrain(c, steps + [P.Flow(step)]);
    more := [P.Flow(step)] + rest;
    ConcatAssoc(steps, [P.Flow(step)], rest);
  }

  /** A pause that has not been cut short can end with the next try. */
  lemma CanLeavePause(c: P.Config, steps: seq<P.Step>) returns (more: seq<P.Step>)
    requires P.Legal(c, steps) && P.Exec(c, steps).exit.None? && !D.Cut(P.Exec(c, steps).flow.post.pc)
    ensures P.Legal(c, steps + more) && !InPause(P.Exec(c, steps + more).flow.post.pc)
    ensures P.Exec(c, steps + more).exit.None?
  {
    hide P.Legal, P.Exec, L.Enabled, L.Apply, L.HubOpen;
    if P.Exec(c, steps).flow.post.pc.Pausing? {
      more := [P.Flow(D.Retry)];
      ExecNext(c, steps, P.Flow(D.Retry));
    } else {
      more := [];
      ConcatNothing(steps);
    }
  }

  lemma ContinueToDrained(c: P.Config, steps: seq<P.Step>) returns (more: seq<P.Step>)
    requires P.Legal(c, steps) && P.Exec(c, steps).exit.None? && !InPause(P.Exec(c, steps).flow.post.pc)
    ensures P.Legal(c, steps + more)
    ensures var t := P.Exec(c, steps + more); t.flow.post.pc.Drained? && !L.HubOpen(t.life)
  {
    hide P.Enabled, P.Apply, L.HubOpen, InPause, D.HubInv, D.GroupInv, D.ShelfInv, D.TextInv, D.HeldInv, D.VerdictInv, D.LedgerInv;
    LifeIsLegal(c, steps);
    var life := L.ShutdownCanFinish(c.total, LifeSteps(steps));
    LiftRun(c, steps, life);
    var one := steps + Lift(life);
    Behind(c, one);
    var reading := CanReadAll(c, one);
    var two := one + reading;
    P.RunKeepsInv(c, two);
    var writing := CanDrain(c, two);
    more := Lift(life) + (reading + writing);
    ConcatAssoc(steps, Lift(life), reading + writing);
    ConcatAssoc(one, reading, writing);
    P.RunKeepsInv(c, steps + more);
  }

  lemma Behind(c: P.Config, steps: seq<P.Step>)
    requires P.Legal(c, steps)
    ensures D.Backlog(P.Exec(c, steps).flow.hub) >= 0
  {
    P.RunKeepsInv(c, steps);
  }

  lemma {:induction false} CutStays(c: P.Config, steps: seq<P.Step>, more: seq<P.Step>)
    requires P.Legal(c, steps + more) && P.Legal(c, steps) && D.Cut(P.Exec(c, steps).flow.post.pc)
    ensures D.Cut(P.Exec(c, steps + more).flow.post.pc)
    ensures P.Exec(c, steps + more).flow.shelf.batches != []
    decreases |more|
  {
    hide D.Cut, D.Apply, D.Enabled, L.Enabled, L.Apply, L.HubOpen;
    CutHoldsData(c, steps + more);
    if more == [] {
      ConcatNothing(steps);
    } else {
      var all, n := steps + more, |more| - 1;
      assert all[..|all| - 1] == steps + more[..n];
      CutStays(c, steps, more[..n]);
      CutStep(c, P.Exec(c, steps + more[..n]), more[n]);
    }
  }

  lemma CutStep(c: P.Config, s: P.State, step: P.Step)
    requires P.Enabled(c, s, step) && D.Cut(s.flow.post.pc)
    ensures D.Cut(P.Apply(c, s, step).flow.post.pc)
  {
    hide D.Cut, D.Apply, L.Enabled, L.Apply, L.HubOpen;
    match step
    case Life(l) =>
    case ProbeDone(p, r) => D.CutIsFinal(c.delivery, s.flow, D.Publish(r), true, false);
    case Flow(f) => D.CutIsFinal(c.delivery, s.flow, f, L.HubOpen(s.life), P.Stopping(s.life));
    case WriterStops => D.CutIsFinal(c.delivery, s.flow, D.Abandon, true, true);
    case Exit(_) =>
  }

  lemma CutHoldsData(c: P.Config, steps: seq<P.Step>)
    requires P.Legal(c, steps)
    ensures D.Cut(P.Exec(c, steps).flow.post.pc) ==> P.Exec(c, steps).flow.shelf.batches != []
  {
    P.RunKeepsInv(c, steps);
    hide L.Inv, D.Inv;
    if D.Cut(P.Exec(c, steps).flow.post.pc) {
      D.HeldLeavesData(c.delivery, P.Exec(c, steps).flow);
    }
  }

  ghost predicate DrainsBy(c: P.Config, steps: seq<P.Step>, more: seq<P.Step>) {
    P.Legal(c, steps + more) && P.Exec(c, steps + more).flow.post.pc.Drained?
  }

  /** From any point of any run, the signal sent or not, the program can still end
      with an empty queue exactly when the writer has drained already, or the process
      is still there and the writer is not bound to take, and has not taken, the
      shutdown arm of a backoff. */
  lemma CanDrainUnlessCut(c: P.Config, steps: seq<P.Step>)
    requires P.Legal(c, steps)
    ensures var s := P.Exec(c, steps);
      (exists more :: DrainsBy(c, steps, more)) <==> s.flow.post.pc.Drained? || (s.exit.None? && !D.Cut(s.flow.post.pc))
  {
    hide P.Legal, P.Exec;
    var s := P.Exec(c, steps);
    if s.flow.post.pc.Drained? {
      ConcatNothing(steps);
      assert DrainsBy(c, steps, []);
    } else if s.exit.Some? {
      forall more | P.Legal(c, steps + more) ensures more == [] {
        ExitIsLast(c, steps, more);
      }
      ConcatNothing(steps);
    } else if D.Cut(s.flow.post.pc) {
      forall more | P.Legal(c, steps + more) ensures !P.Exec(c, steps + more).flow.post.pc.Drained? {
        CutStays(c, steps, more);
      }
    } else {
      var leave := CanLeavePause(c, steps);
      var rest := ContinueToDrained(c, steps + leave);
      ConcatAssoc(steps, leave, rest);
      assert DrainsBy(c, steps, leave + rest);
    }
  }

  lemma {:induction false} ExitIsLast(c: P.Config, steps: seq<P.Step>, more: seq<P.Step>)
    requires P.Legal(c, steps) && P.Legal(c, steps + more) && P.Exec(c, steps).exit.Some?
    ensures more == []
    decreases |more|
  {
    hide P.Enabled, P.Apply;
    if more != [] {
      var all, n := steps + more, |more| - 1;
      assert all[..|all| - 1] == steps + more[..n];
      ExitIsLast(c, steps, more[..n]);
      ConcatNothing(steps);
      P.NothingAfterExit(c, P.Exec(c, steps), more[n]);
    }
  }

  // ----- once the stop signal is pending -------------------------------------

  predicate Transient(step: P.Step) { step.Flow? && step.flow.Answered? && Retryable(step.flow.answer) }

  /** A transient answer that is followed by a pause: any but `Retry-After: 0`, if
      neither backoff setting is zero. */
  predicate Decisive(c: P.Config, step: P.Step) {
    Transient(step) && Pauses(step.flow.answer, c.delivery.initialMs, c.delivery.maxMs)
  }

  /** The signal stays pending at the writer until the shutdown arm uses it up. */
  lemma StoppingStays(c: P.Config, s: P.State, step: P.Step)
    requires P.Inv(c, s) && P.Enabled(c, s, step)
    requires P.Stopping(s.life) || D.Cut(s.flow.post.pc)
    ensures var t := P.Apply(c, s, step); P.Stopping(t.life) || D.Cut(t.flow.post.pc)
  {
    hide D.Inv, D.Enabled, D.Apply, L.Enabled, L.Apply, L.Inv, L.HubOpen;
    if D.Cut(s.flow.post.pc) {
      CutStep(c, s, step);
    } else {
      match step
      case Life(l) => ReadyStays(c.total, s.life, l);
      case ProbeDone(p, _) => ReadyStays(c.total, s.life, L.Complete(p));
      case Flow(_) =>
      case WriterStops => Abandons(c.delivery, s.flow);
      case Exit(_) =>
    }
  }

  lemma ReadyStays(total: nat, s: L.State, l: L.Step)
    requires L.Inv(total, s) && L.Enabled(total, s, l) && !l.WriterStops? && P.Stopping(s)
    ensures P.Stopping(L.Apply(total, s, l))
  {
  }

  lemma Abandons(c: D.Config, s: D.State)
    requires D.Enabled(c, s, D.Abandon, true, true)
    ensures D.Apply(c, s, D.Abandon, true, true).post.pc.Abandoned?
  {
  }

  predicate CutBySignal(s: P.State) {
    D.Cut(s.flow.post.pc) ==> P.Stopping(s.life) || s.flow.post.pc.Abandoned?
  }

  lemma CutBySignalStays(c: P.Config, s: P.State, step: P.Step)
    requires P.Inv(c, s) && P.Enabled(c, s, step) && CutBySignal(s)
    ensures CutBySignal(P.Apply(c, s, step))
  {
    hide D.Inv, L.Enabled, L.Apply, L.Inv, L.HubOpen, P.Stopping, B.Effect, D.PushPart;
    match step
    case Life(l) => if P.Stopping(s.life) { ReadyStays(c.total, s.life, l); }
    case ProbeDone(p, _) => if P.Stopping(s.life) { ReadyStays(c.total, s.life, L.Complete(p)); }
    case Flow(_) =>
    case WriterStops => Abandons(c.delivery, s.flow);
    case Exit(_) =>
  }

  /** Only a pending stop signal cuts a pause short: over every run, while none is
      pending at the writer, a pause ends with the next try of the same batch. */
  lemma {:induction false} RetriesUntilTheSignal(c: P.Config, steps: seq<P.Step>)
    requires P.Legal(c, steps)
    ensures var s := P.Exec(c, steps);
      && CutBySignal(s)
      && (s.flow.post.pc.Pausing? && !P.Stopping(s.life) && s.exit.None? ==>
            && P.Enabled(c, s, P.Flow(D.Retry))
            && P.Apply(c, s, P.Flow(D.Retry)).flow.post.pc == D.Posting(s.flow.post.pc.held))
  {
    hide P.Inv, P.Stopping, L.Enabled, L.Apply, L.HubOpen, CutBySignal;
    if steps != [] {
      var n := |steps| - 1;
      hide P.Enabled, P.Apply;
      RetriesUntilTheSignal(c, steps[..n]);
      P.RunKeepsInv(c, steps[..n]);
      CutBySignalStays(c, P.Exec(c, steps[..n]), steps[n]);
    } else {
      StartsUncut();
    }
    UncutCanRetry(c, P.Exec(c, steps));
  }

  lemma StartsUncut()
    ensures CutBySignal(P.INIT)
  {
  }

  lemma UncutCanRetry(c: P.Config, s: P.State)
    requires CutBySignal(s)
    ensures s.flow.post.pc.Pausing? && !P.Stopping(s.life) && s.exit.None? ==>
      && P.Enabled(c, s, P.Flow(D.Retry))
      && P.Apply(c, s, P.Flow(D.Retry)).flow.post.pc == D.Posting(s.flow.post.pc.held)
  {
    hide P.Stopping, L.HubOpen;
  }

  lemma DecisiveCuts(c: P.Config, s: P.State, step: P.Step)
    requires P.Enabled(c, s, step) && Decisive(c, step) && P.Stopping(s.life)
    ensures D.Cut(P.Apply(c, s, step).flow.post.pc)
  {
    hide L.HubOpen, P.Stopping;
    VerdictsPartition(step.flow.answer);
  }

  /** Without a transient answer the writer never enters a pause. */
  lemma SteadyStep(c: P.Config, s: P.State, step: P.Step)
    requires P.Enabled(c, s, step) && !InPause(s.flow.post.pc) && !Transient(step)
    ensures !InPause(P.Apply(c, s, step).flow.post.pc)
  {
    hide L.Enabled, L.Apply, L.HubOpen, B.Effect, D.PushPart, Classify;
    if step.Flow? && step.flow.Answered? {
      VerdictsPartition(step.flow.answer);
    }
  }

  lemma {:induction false} AfterSignal(c: P.Config, steps: seq<P.Step>, more: seq<P.Step>)
    requires P.Legal(c, steps) && P.Legal(c, steps + more) && P.Stopping(P.Exec(c, steps).life)
    ensures var t := P.Exec(c, steps + more);
      && (P.Stopping(t.life) || D.Cut(t.flow.post.pc))
      && ((exists m :: m in more && Decisive(c, m)) ==> D.Cut(t.flow.post.pc))
      && (!InPause(P.Exec(c, steps).flow.post.pc) && (forall m :: m in more ==> !Transient(m)) ==> !InPause(t.flow.post.pc))
    decreases |more|
  {
    hide Decisive, Transient, D.Cut, InPause, P.Enabled, P.Apply, P.Stopping, P.Inv;
    if more == [] {
      ConcatNothing(steps);
    } else {
      var all, n := steps + more, |more| - 1;
      var front := steps + more[..n];
      assert all[..|all| - 1] == front;
      assert more == more[..n] + [more[n]];
      AfterSignal(c, steps, more[..n]);
      var s := P.Exec(c, front);
      P.RunKeepsInv(c, front);
      StoppingStays(c, s, more[n]);
      if D.Cut(s.flow.post.pc) {
        CutStep(c, s, more[n]);
      } else if Decisive(c, more[n]) {
        DecisiveCuts(c, s, more[n]);
      }
      if !InPause(s.flow.post.pc) && !Transient(more[n]) {
        SteadyStep(c, s, more[n]);
      }
    }
  }

  /** The steps `more` lead from `s` to `t`. One transient answer with a pause behind
      it leaves the queue non-empty. A writer that returned left it empty exactly if
      it drained. From outside a backoff it drains when no answer is transient and,
      if no `Retry-After: 0` makes a pause vanish, only then. */
  ghost predicate DrainsOnlyWithoutRetry(c: P.Config, s: P.State, more: seq<P.Step>, t: P.State) {
    && ((exists m :: m in more && Decisive(c, m)) ==> !t.flow.post.pc.Drained? && t.flow.shelf.batches != [])
    && (P.Ended(t.flow.post.pc) ==>
          && (t.flow.post.pc.Drained? <==> t.flow.shelf.batches == [])
          && (!InPause(s.flow.post.pc) ==>
                && ((forall m :: m in more ==> !Transient(m)) ==> t.flow.post.pc.Drained?)
                && ((forall m :: m in more && Transient(m) ==> Decisive(c, m)) ==>
                      (t.flow.post.pc.Drained? <==> forall m :: m in more ==> !Transient(m)))))
  }

  /** Over every run, from any point at which the stop signal is pending at the
      writer, before the close or after it. */
  lemma DrainsExactlyWithoutRetry(c: P.Config, steps: seq<P.Step>, more: seq<P.Step>)
    requires P.Legal(c, steps) && P.Legal(c, steps + more) && P.Stopping(P.Exec(c, steps).life)
    ensures DrainsOnlyWithoutRetry(c, P.Exec(c, steps), more, P.Exec(c, steps + more))
  {
    AfterSignal(c, steps, more);
    CutHoldsData(c, steps + more);
    P.RunKeepsInv(c, steps + more);
    hide P.Legal, P.Exec, Decisive, Transient, P.Stopping, L.Inv, D.HubInv, D.GroupInv, D.ShelfInv, D.TextInv, D.HeldInv,
         D.VerdictInv, D.LedgerInv;
  }

  /** And so from any point after the close: the signal is pending there, unless it
      has ended the writer already. */
  lemma DrainsExactlyAfterClose(c: P.Config, steps: seq<P.Step>, more: seq<P.Step>)
    requires P.Legal(c, steps) && P.Legal(c, steps + more) && P.Exec(c, steps).flow.shelf.closed
    ensures DrainsOnlyWithoutRetry(c, P.Exec(c, steps), more, P.Exec(c, steps + more))
  {
    P.ClosedMeansStopping(c, steps);
    if P.Stopping(P.Exec(c, steps).life) {
      DrainsExactlyWithoutRetry(c, steps, more);
    } else {
      CutStays(c, steps, more);
      hide P.Legal, P.Exec, Decisive, Transient;
    }
  }

  // ----- one such run, with the default settings ------------------------------

  const DEFAULTS: P.Config := P.Config(1, D.Config(256, 10, 8 * 1024 * 1024, 500, 30_000))
  const OVERLOADED: Answer := Status(503, None)

  /** One probe, ticking, joined or ended as told; the signal sent or not. */
  function LifeAt(sent: bool, stage: L.Stage, run: L.Rx, phase: L.Phase): L.State {
    L.State(sent, !sent, false, stage, L.Subscribed(true), run, [L.Probe(phase, L.Subscribed(true), false)])
  }

  lemma LifeNext(steps: seq<L.Step>, step: L.Step, t: L.State) returns (more: seq<L.Step>)
    requires L.Legal(1, steps) && L.Enabled(1, L.Exec(1, steps), step) && t == L.Apply(1, L.Exec(1, steps), step)
    requires !step.Complete? && !step.WriterStops? && forall m :: m in steps ==> !m.Complete? && !m.WriterStops?
    ensures L.Legal(1, more) && L.Exec(1, more) == t
    ensures more == steps + [step] && forall m :: m in more ==> !m.Complete? && !m.WriterStops?
  {
    more := steps + [step];
    L.ExecNext(1, steps, step);
  }

  lemma BootedRun() returns (steps: seq<L.Step>)
    ensures L.Legal(1, steps) && forall m :: m in steps ==> !m.Complete? && !m.WriterStops?
    ensures L.Exec(1, steps) == LifeAt(false, L.Listening, L.Subscribed(true), L.Probing)
  {
    var early := L.Subscribed(true);
    var idle := L.Probe(L.Ticking, early, false);
    steps := [];
    hide L.Legal, L.Exec;
    NoLife(steps);
    steps := LifeNext(steps, L.SpawnWriter, L.INIT.(writerRx := early, stage := L.WriterUp));
    steps := LifeNext(steps, L.SubscribeRun, L.INIT.(writerRx := early, runRx := early, stage := L.Spawning));
    steps := LifeNext(steps, L.SpawnProbe, L.State(false, true, true, L.Spawning, early, early, [idle]));
    steps := LifeNext(steps, L.SchedulerReturns, L.State(false, true, false, L.Listening, early, early, [idle]));
    steps := LifeNext(steps, L.Tick(0), LifeAt(false, L.Listening, early, L.Probing));
  }

  lemma NoLife(none: seq<L.Step>)
    requires none == []
    ensures L.Legal(1, none) && L.Exec(1, none) == L.INIT
  {
  }

  lemma NoSteps(none: seq<P.Step>)
    requires none == []
    ensures P.Legal(DEFAULTS, none) && P.Exec(DEFAULTS, none) == P.INIT && LifeSteps(none) == []
  {
  }

  lemma BootedProgram() returns (steps: seq<P.Step>)
    ensures P.Legal(DEFAULTS, steps)
    ensures P.Exec(DEFAULTS, steps) == P.State(LifeAt(false, L.Listening, L.Subscribed(true), L.Probing), D.INIT, None)
  {
    hide P.Legal, P.Exec, L.Legal, L.Exec, LifeSteps;
    var boot := BootedRun();
    NoSteps([]);
    ConcatNothing(boot);
    LiftRun(DEFAULTS, [], boot);
    steps := [] + Lift(boot);
  }

  lemma FlowNext(steps: seq<P.Step>, f: D.Step, t: D.State) returns (more: seq<P.Step>)
    requires P.Legal(DEFAULTS, steps) && P.Exec(DEFAULTS, steps).exit.None? && !f.Publish? && !f.Abandon?
    requires var s := P.Exec(DEFAULTS, steps);
      && D.Enabled(DEFAULTS.delivery, s.flow, f, L.HubOpen(s.life), P.Stopping(s.life))
      && t == D.Apply(DEFAULTS.delivery, s.flow, f, L.HubOpen(s.life), P.Stopping(s.life))
    ensures more == steps + [P.Flow(f)] && P.Legal(DEFAULTS, more)
    ensures P.Exec(DEFAULTS, more) == P.Exec(DEFAULTS, steps).(flow := t)
  {
    hide P.Legal, P.Exec, D.Enabled, D.Apply, L.HubOpen;
    more := steps + [P.Flow(f)];
    ExecNext(DEFAULTS, steps, P.Flow(f));
  }

  /** The hub and the batcher after one result, and what the writer has then. */
  function OneRead(r: ProbeResult): D.State {
    D.INIT.(hub := D.Hub([r], 1, [0], 0), group := D.Grouping([r], false, []))
  }

  function OneQueued(r: ProbeResult, post: D.Poster): D.State {
    var b := Batch(0, Body([r]));
    D.State(D.Hub([r], 1, [0], 0), D.Grouping([], true, [[r]]), D.Shelf([b], true, 1, [b], [], []), post, 0)
  }

  function Holding(pc: D.Pc): D.Poster { D.Poster(pc, [0], [], [], [], 0, 0) }

  lemma OneResultRead(r: ProbeResult) returns (steps: seq<P.Step>)
    ensures P.Legal(DEFAULTS, steps) && P.Exec(DEFAULTS, steps).exit.None?
    ensures P.Exec(DEFAULTS, steps).flow == OneRead(r)
  {
    hide P.Legal, P.Exec, L.HubOpen, P.Stopping;
    steps := BootedProgram();
    ExecNext(DEFAULTS, steps, P.ProbeDone(0, r));
    steps := steps + [P.ProbeDone(0, r)];
    assert P.Exec(DEFAULTS, steps).flow == D.INIT.(hub := D.Hub([r], 0, [], 0));
    ConcatNothing([r]);
    steps := FlowNext(steps, D.Receive, OneRead(r));
  }

  /** The queue closed with one batch in it. */
  lemma OneBatchAtClose(r: ProbeResult) returns (steps: seq<P.Step>)
    ensures P.Legal(DEFAULTS, steps) && P.Exec(DEFAULTS, steps).exit.None?
    ensures P.Exec(DEFAULTS, steps).flow == OneQueued(r, D.INIT.post) && !L.HubOpen(P.Exec(DEFAULTS, steps).life)
  {
    hide P.Legal, P.Exec, L.HubOpen, P.Stopping, L.Legal, L.Exec, D.Enabled, D.Apply, LifeSteps, OneRead, OneQueued, DEFAULTS;
    var before := OneResultRead(r);
    LifeIsLegal(DEFAULTS, before);
    var life := L.ShutdownCanFinish(DEFAULTS.total, LifeSteps(before));
    LiftRun(DEFAULTS, before, life);
    steps := before + Lift(life);
    ClosingFlushes(r);
    steps := FlowNext(steps, D.HubCloses, OneQueued(r, D.INIT.post));
  }

  lemma FirstPush(b: Batch, capacity: nat)
    ensures Pushed([], b, capacity) == [b] && Evictions([], ByteLen(b.text), capacity) == 0
    ensures D.Addrs([][..0]) == []
  {
  }

  lemma ClosingFlushes(r: ProbeResult)
    ensures forall stop :: D.Enabled(DEFAULTS.delivery, OneRead(r), D.HubCloses, false, stop)
    ensures forall stop :: D.Apply(DEFAULTS.delivery, OneRead(r), D.HubCloses, false, stop) == OneQueued(r, D.INIT.post)
  {
    hide DEFAULTS, Body, ByteLen, Pushed, Evictions;
    FirstPush(Batch(0, Body([r])), DEFAULTS.delivery.capacity);
    ConcatNothing([[r]]);
  }

  /** A queue with one good batch, closed for shutdown, and a server that says 503
      once: the writer takes the shutdown arm and returns, the process ends with that
      batch in the queue, and reports a clean drain. */
  lemma OneRetryableAnswerKeepsTheQueue(r: ProbeResult) returns (steps: seq<P.Step>)
    ensures P.Legal(DEFAULTS, steps)
    ensures var s := P.Exec(DEFAULTS, steps); var f := s.flow;
      && s.exit == Some(true) && f.shelf.closed && f.post.pc.Abandoned? && f.post.accepted == []
      && f.shelf.batches == [Batch(0, Body([r]))]
  {
    hide P.Legal, P.Exec, L.HubOpen, Body;
    var b := Batch(0, Body([r]));
    steps := OneBatchAtClose(r);
    P.ClosedMeansStopping(DEFAULTS, steps);
    StageAtClose(P.Exec(DEFAULTS, steps).life);
    hide P.Stopping;
    ConcatNothing([0]);
    steps := FlowNext(steps, D.Take, OneQueued(r, Holding(D.Posting(b))));
    assert Retryable(OVERLOADED) && Pauses(OVERLOADED, 500, 30_000);
    steps := FlowNext(steps, D.Answered(OVERLOADED), OneQueued(r, Holding(D.Pausing(b, true))));
    StopEnabled(DEFAULTS, P.Exec(DEFAULTS, steps));
    ExecNext(DEFAULTS, steps, P.WriterStops);
    steps := steps + [P.WriterStops];
    ExecNext(DEFAULTS, steps, P.Exit(true));
    steps := steps + [P.Exit(true)];
  }

  lemma StopEnabled(c: P.Config, s: P.State)
    requires P.Stopping(s.life) && s.flow.post.pc.Pausing? && s.exit.None?
    ensures P.Enabled(c, s, P.WriterStops)
    ensures P.Apply(c, s, P.WriterStops).life.stage == s.life.stage
  {
    hide L.Ready;
  }

  lemma StageAtClose(s: L.State)
    requires !L.HubOpen(s)
    ensures s.stage.HubDropped?
  {
  }
}
