/** Start-up wiring, the stop signal, the probe loops and the staged shutdown, for
    any number of probes and any interleaving. */
module Lifecycle {

  /** A receiver of the one-message shutdown channel. `early` says it subscribed
      before the signal was sent; only then does the message reach it. */
  datatype Rx = Unsubscribed | Subscribed(early: bool) | Consumed

  datatype Phase = Ticking | Probing | Ended

  /** A probe loop. Its clone of the hub lives until it has ended. */
  datatype Probe = Probe(phase: Phase, rx: Rx, aborted: bool)

  /** `run()`: wiring, spawning the probes, waiting for the signal, joining handle
      `k`, and past the drop of its own hub clone. */
  datatype Stage = Wiring | WriterUp | Spawning | Listening | Joining(k: nat) | HubDropped(clean: bool)

  /** `signalTask` and `runSender` are the two owners of a shutdown sender. */
  datatype State = State(
    sent: bool, signalTask: bool, runSender: bool,
    stage: Stage, writerRx: Rx, runRx: Rx, probes: seq<Probe>)

  datatype Step =
    | SendSignal | SignalTaskEnds
    | SpawnWriter | SubscribeRun | SpawnProbe | SchedulerReturns
    | RunWakes | JoinNext | AllJoined | GraceExpires
    | Tick(p: nat) | Complete(p: nat) | Stop(p: nat) | AbortLands(p: nat)
    | WriterStops

  const INIT := State(false, true, true, Wiring, Unsubscribed, Unsubscribed, [])

  predicate SendersGone(s: State) { !s.signalTask && !s.runSender }

  /** `recv()` would return: with the message, or because every sender is gone. */
  predicate Ready(s: State, rx: Rx) {
    rx.Subscribed? && ((s.sent && rx.early) || SendersGone(s))
  }

  function Subscribe(s: State): Rx { Subscribed(!s.sent) }

  predicate Enabled(total: nat, s: State, step: Step) {
    match step
    case SendSignal => s.signalTask && !s.sent
    case SignalTaskEnds => s.signalTask && s.sent
    case SpawnWriter => s.stage.Wiring?
    case SubscribeRun => s.stage.WriterUp?
    case SpawnProbe => s.stage.Spawning? && |s.probes| < total
    case SchedulerReturns => s.stage.Spawning? && |s.probes| == total
    case RunWakes => s.stage.Listening? && Ready(s, s.runRx)
    case JoinNext => s.stage.Joining? && s.stage.k < |s.probes| && s.probes[s.stage.k].phase.Ended?
    case AllJoined => s.stage.Joining? && s.stage.k == |s.probes|
    case GraceExpires => s.stage.Joining? && s.stage.k < |s.probes| && !s.probes[s.stage.k].phase.Ended?
    case Tick(p) => p < |s.probes| && s.probes[p].phase.Ticking?
    case Complete(p) => p < |s.probes| && s.probes[p].phase.Probing?
    case Stop(p) => p < |s.probes| && !s.probes[p].phase.Ended? && Ready(s, s.probes[p].rx)
    case AbortLands(p) => p < |s.probes| && !s.probes[p].phase.Ended? && s.probes[p].aborted
    case WriterStops => Ready(s, s.writerRx)
  }

  function SetPhase(s: State, p: nat, phase: Phase): State
    requires p < |s.probes|
  {
    s.(probes := s.probes[p := s.probes[p].(phase := phase)])
  }

  function Apply(total: nat, s: State, step: Step): State
    requires Enabled(total, s, step)
  {
    match step
    case SendSignal => s.(sent := true)
    case SignalTaskEnds => s.(signalTask := false)
    case SpawnWriter => s.(writerRx := Subscribe(s), stage := WriterUp)
    case SubscribeRun => s.(runRx := Subscribe(s), stage := Spawning)
    case SpawnProbe => s.(probes := s.probes + [Probe(Ticking, Subscribe(s), false)])
    case SchedulerReturns => s.(runSender := false, stage := Listening)
    case RunWakes => s.(runRx := Consumed, stage := Joining(0))
    case JoinNext => s.(stage := Joining(s.stage.k + 1))
    case AllJoined => s.(stage := HubDropped(true))
    case GraceExpires => s.(probes := AbortAll(s.probes), stage := HubDropped(false))
    case Tick(p) => SetPhase(s, p, Probing)
    case Complete(p) => SetPhase(s, p, Ticking)
    case Stop(p) => SetPhase(s, p, Ended)
    case AbortLands(p) => SetPhase(s, p, Ended)
    case WriterStops => s.(writerRx := Consumed)
  }

  function AbortAll(probes: seq<Probe>): (r: seq<Probe>)
    ensures |r| == |probes|
    ensures forall i :: 0 <= i < |r| ==> r[i] == probes[i].(aborted := true)
  {
    seq(|probes|, i requires 0 <= i < |probes| => probes[i].(aborted := true))
  }

  /** Somebody still holds a clone of the hub: `run()` itself, or a live loop. */
  predicate HubOpen(s: State) {
    !s.stage.HubDropped? || exists p :: 0 <= p < |s.probes| && !s.probes[p].phase.Ended?
  }

  predicate Legal(total: nat, steps: seq<Step>)
    decreases |steps|, 0
  {
    steps != [] ==>
      var front := steps[..|steps| - 1];
      Legal(total, front) && Enabled(total, Exec(total, front), steps[|steps| - 1])
  }

  function Exec(total: nat, steps: seq<Step>): State
    requires Legal(total, steps)
    decreases |steps|, 1
  {
    if steps == [] then INIT
    else Apply(total, Exec(total, steps[..|steps| - 1]), steps[|steps| - 1])
  }

  // ----- invariant ----------------------------------------------------------

  predicate RxInv(s: State, rx: Rx) {
    (rx.Subscribed? && !rx.early ==> s.sent) && (rx.Consumed? ==> s.sent)
  }

  predicate StageInv(total: nat, s: State) {
    && (s.runSender <==> s.stage.Wiring? || s.stage.WriterUp? || s.stage.Spawning?)
    && (s.writerRx.Unsubscribed? <==> s.stage.Wiring?)
    && (s.runRx.Unsubscribed? <==> s.stage.Wiring? || s.stage.WriterUp?)
    && (s.runRx.Consumed? <==> s.stage.Joining? || s.stage.HubDropped?)
    && |s.probes| <= total
    && (!s.runSender ==> |s.probes| == total)
    && (s.stage.Joining? ==> s.stage.k <= total)
  }

  predicate ProbesInv(s: State) {
    && (forall i :: 0 <= i < |s.probes| ==> s.probes[i].rx.Subscribed? && RxInv(s, s.probes[i].rx))
    && (forall i :: 0 <= i < |s.probes| && (s.probes[i].phase.Ended? || s.probes[i].aborted) ==> s.sent)
    && (s.stage.Joining? ==> forall i :: 0 <= i < s.stage.k && i < |s.probes| ==> s.probes[i].phase.Ended?)
    && (s.stage == HubDropped(true) ==> forall i :: 0 <= i < |s.probes| ==> s.probes[i].phase.Ended?)
    && (s.stage == HubDropped(false) ==> forall i :: 0 <= i < |s.probes| ==> s.probes[i].aborted)
  }

  /** The writer subscribed before `run()` did, so by the time `run()` wakes the
      writer's receiver is ready too, unless the writer has used it already. */
  predicate WriterRxInv(s: State) {
    && (s.runRx == Subscribed(true) ==> s.writerRx != Subscribed(false))
    && (s.stage.Joining? || s.stage.HubDropped? ==> Ready(s, s.writerRx) || s.writerRx.Consumed?)
  }

  predicate Inv(total: nat, s: State) {
    && (!s.signalTask ==> s.sent)
    && RxInv(s, s.writerRx) && RxInv(s, s.runRx)
    && WriterRxInv(s)
    && StageInv(total, s)
    && ProbesInv(s)
  }

  lemma InitInv(total: nat)
    ensures Inv(total, INIT)
  {
  }

  lemma StepKeepsInv(total: nat, s: State, step: Step)
    requires Inv(total, s) && Enabled(total, s, step)
    ensures Inv(total, Apply(total, s, step))
  {
    hide Enabled, Apply, RxInv, WriterRxInv, StageInv, ProbesInv;
    StepKeepsStage(total, s, step);
    StepKeepsProbes(total, s, step);
  }

  lemma StepKeepsStage(total: nat, s: State, step: Step)
    requires Inv(total, s) && Enabled(total, s, step)
    ensures var t := Apply(total, s, step);
      (!t.signalTask ==> t.sent) && RxInv(t, t.writerRx) && RxInv(t, t.runRx) && WriterRxInv(t) && StageInv(total, t)
  {
    hide ProbesInv;
  }

  lemma StepKeepsProbes(total: nat, s: State, step: Step)
    requires Inv(total, s) && Enabled(total, s, step)
    ensures ProbesInv(Apply(total, s, step))
  {
    hide WriterRxInv;
  }

  lemma {:induction false} RunKeepsInv(total: nat, steps: seq<Step>)
    requires Legal(total, steps)
    ensures Inv(total, Exec(total, steps))
  {
    hide Inv, Apply;
    if steps == [] {
      InitInv(total);
    } else {
      RunKeepsInv(total, steps[..|steps| - 1]);
      StepKeepsInv(total, Exec(total, steps[..|steps| - 1]), steps[|steps| - 1]);
    }
  }

  /** How often probe `p` took step `step`. */
  function Times(steps: seq<Step>, step: Step): nat {
    if steps == [] then 0
    else Times(steps[..|steps| - 1], step) + if steps[|steps| - 1] == step then 1 else 0
  }

  /** A probe publishes once for each tick, and the next tick waits for that: only the
      run in progress, or the one cut short at the end, has published nothing. */
  lemma {:induction false} OncePerTick(total: nat, steps: seq<Step>, p: nat)
    requires Legal(total, steps)
    ensures var s := Exec(total, steps); var ticks, published := Times(steps, Tick(p)), Times(steps, Complete(p));
      && published <= ticks <= published + 1
      && (p >= |s.probes| ==> ticks == 0)
      && (p < |s.probes| && s.probes[p].phase.Ticking? ==> ticks == published)
      && (p < |s.probes| && s.probes[p].phase.Probing? ==> ticks == published + 1)
  {
    hide Enabled, Apply;
    if steps != [] {
      var front, step := steps[..|steps| - 1], steps[|steps| - 1];
      OncePerTick(total, front, p);
      PhaseNext(total, Exec(total, front), step, p);
    }
  }

  /** A live loop changes its phase by ticking, completing or ending only. */
  lemma PhaseNext(total: nat, s: State, step: Step, p: nat)
    requires Enabled(total, s, step)
    ensures var t := Apply(total, s, step);
      && |s.probes| <= |t.probes|
      && (step == Tick(p) ==> p < |s.probes| && s.probes[p].phase.Ticking? && t.probes[p].phase.Probing?)
      && (step == Complete(p) ==> p < |s.probes| && s.probes[p].phase.Probing? && t.probes[p].phase.Ticking?)
      && (step != Tick(p) && step != Complete(p) && p < |t.probes| && !t.probes[p].phase.Ended? ==>
            if p < |s.probes| then t.probes[p].phase == s.probes[p].phase else t.probes[p].phase.Ticking?)
  {
  }

  // ----- when a receiver is ready -------------------------------------------

  /** The stop message, sent after the subscription at step `k`, or the end of the last
      sender. */
  predicate Reached(steps: seq<Step>, k: nat)
    requires k <= |steps|
  {
    || (SendSignal in steps && SendSignal !in steps[..k])
    || (SignalTaskEnds in steps && SchedulerReturns in steps)
  }

  lemma InFront(steps: seq<Step>, step: Step)
    requires steps != []
    ensures step in steps <==> step in steps[..|steps| - 1] || step == steps[|steps| - 1]
  {
    assert steps == steps[..|steps| - 1] + [steps[|steps| - 1]];
  }

  /** The state tells which of these steps have been taken, and how often. */
  lemma {:induction false} History(total: nat, steps: seq<Step>)
    requires Legal(total, steps)
    ensures var s := Exec(total, steps);
      && (s.sent <==> SendSignal in steps)
      && (s.signalTask <==> SignalTaskEnds !in steps)
      && (s.runSender <==> SchedulerReturns !in steps)
      && |s.probes| == Times(steps, SpawnProbe)
  {
    if steps != [] {
      var n := |steps| - 1;
      History(total, steps[..n]);
      InFront(steps, SendSignal);
      InFront(steps, SignalTaskEnds);
      InFront(steps, SchedulerReturns);
      HistoryStep(total, Exec(total, steps[..n]), steps[n]);
    }
  }

  lemma HistoryStep(total: nat, s: State, step: Step)
    requires Enabled(total, s, step)
    ensures var t := Apply(total, s, step);
      && (t.sent <==> s.sent || step == SendSignal)
      && (t.signalTask <==> s.signalTask && step != SignalTaskEnds)
      && (t.runSender <==> s.runSender && step != SchedulerReturns)
      && |t.probes| == |s.probes| + if step == SpawnProbe then 1 else 0
  {
  }

  lemma RxStep(total: nat, s: State, step: Step)
    requires Enabled(total, s, step)
    ensures var t := Apply(total, s, step);
      && (step != SpawnWriter && step != WriterStops ==> t.writerRx == s.writerRx)
      && (step != SubscribeRun && step != RunWakes ==> t.runRx == s.runRx)
      && |s.probes| <= |t.probes| && (forall p :: 0 <= p < |s.probes| ==> t.probes[p].rx == s.probes[p].rx)
      && (step == SpawnWriter ==> s.stage.Wiring? && t.writerRx == Subscribed(!s.sent))
      && (t.stage.Wiring? ==> s.stage.Wiring? && step != SpawnWriter)
      && (step == SubscribeRun ==> t.runRx == Subscribed(!s.sent))
      && (step == SpawnProbe ==> |t.probes| > |s.probes| && t.probes[|s.probes|].rx == Subscribed(!s.sent))
  {
  }

  /** A probe loop hears a stop signal sent after it subscribed, and otherwise learns of
      it only when the last sender has gone; both at once, and for nothing else. */
  lemma {:induction false} ProbeReadyExactly(total: nat, steps: seq<Step>, k: nat, p: nat)
    requires Legal(total, steps) && k < |steps| && steps[k] == SpawnProbe && p == Times(steps[..k], SpawnProbe)
    ensures var s := Exec(total, steps);
      && p < |s.probes| && s.probes[p].rx == Subscribed(SendSignal !in steps[..k])
      && (Ready(s, s.probes[p].rx) <==> Reached(steps, k))
  {
    hide Enabled, Apply;
    var n := |steps| - 1;
    var front := steps[..n];
    History(total, steps);
    History(total, front);
    RxStep(total, Exec(total, front), steps[n]);
    if k < n {
      assert front[..k] == steps[..k];
      ProbeReadyExactly(total, front, k, p);
    }
  }

  /** Likewise the writer, until it acts on it. */
  lemma {:induction false} WriterReadyExactly(total: nat, steps: seq<Step>, k: nat)
    requires Legal(total, steps) && k < |steps| && steps[k] == SpawnWriter && WriterStops !in steps[k..]
    ensures var s := Exec(total, steps);
      && s.writerRx == Subscribed(SendSignal !in steps[..k])
      && (Ready(s, s.writerRx) <==> Reached(steps, k))
  {
    hide Enabled, Apply;
    var n := |steps| - 1;
    var front := steps[..n];
    History(total, steps);
    History(total, front);
    RxStep(total, Exec(total, front), steps[n]);
    if k < n {
      assert front[..k] == steps[..k];
      assert steps[k..] == front[k..] + [steps[n]];
      SpawnsOnce(total, front, k);
      WriterReadyExactly(total, front, k);
    }
  }

  /** There is one writer. */
  lemma {:induction false} SpawnsOnce(total: nat, steps: seq<Step>, k: nat)
    requires Legal(total, steps) && k < |steps| && steps[k] == SpawnWriter
    ensures !Exec(total, steps).stage.Wiring?
  {
    hide Enabled, Apply;
    var n := |steps| - 1;
    RxStep(total, Exec(total, steps[..n]), steps[n]);
    if k < n {
      SpawnsOnce(total, steps[..n], k);
    }
  }

  // ----- what the order of things guarantees --------------------------------

  /** Wherever the signal lands between the subscriptions: once its sender has
      finished and the scheduler has returned, every receiver that has not been
      used yet is ready. */
  lemma SignalNeverMissed(total: nat, steps: seq<Step>)
    requires Legal(total, steps)
    ensures var s := Exec(total, steps);
      SendersGone(s) ==>
        && (Ready(s, s.writerRx) || s.writerRx.Consumed?)
        && (Ready(s, s.runRx) || s.runRx.Consumed?)
        && |s.probes| == total
        && forall i :: 0 <= i < total ==> Ready(s, s.probes[i].rx)
  {
    RunKeepsInv(total, steps);
  }

  /** And nothing shuts down before the signal: no receiver is ever ready, no loop
      ends and the hub never closes, unless the signal was sent. */
  lemma NoShutdownWithoutSignal(total: nat, steps: seq<Step>)
    requires Legal(total, steps)
    ensures var s := Exec(total, steps);
      !s.sent ==>
        && !Ready(s, s.writerRx) && !Ready(s, s.runRx) && HubOpen(s)
        && forall i :: 0 <= i < |s.probes| ==> !Ready(s, s.probes[i].rx) && !s.probes[i].phase.Ended?
  {
    RunKeepsInv(total, steps);
  }

  /** When every loop was joined, dropping `run()`'s clone closes the hub at once.
      When the grace period ran out instead, every loop still alive has been told
      to abort, and the hub closes exactly when the last of them has ended. */
  lemma StagedShutdown(total: nat, steps: seq<Step>)
    requires Legal(total, steps)
    ensures var s := Exec(total, steps);
      && (s.stage == HubDropped(true) ==> !HubOpen(s))
      && (s.stage == HubDropped(false) ==>
            forall i :: 0 <= i < |s.probes| && !s.probes[i].phase.Ended? ==> Enabled(total, s, AbortLands(i)))
      && (!HubOpen(s) ==> s.stage.HubDropped? && s.sent)
  {
    RunKeepsInv(total, steps);
    hide Legal, Exec, RxInv, WriterRxInv, Ready;
  }

  /** Once the hub is closed the writer's shutdown receiver is ready or used up:
      whatever the writer still does, it does with the stop signal pending. */
  lemma ClosedHubMeansStopReady(total: nat, s: State)
    requires Inv(total, s) && !HubOpen(s)
    ensures Ready(s, s.writerRx) || s.writerRx.Consumed?
  {
  }

  /** A closed hub stays closed, and nothing publishes to it. */
  lemma HubStaysClosed(total: nat, s: State, step: Step)
    requires Inv(total, s) && Enabled(total, s, step) && !HubOpen(s)
    ensures !HubOpen(Apply(total, s, step)) && !step.Complete?
  {
  }

  function Live(s: State): set<nat> {
    set i: nat | i < |s.probes| && !s.probes[i].phase.Ended?
  }

  function Remaining(total: nat, stage: Stage): nat {
    match stage
    case Wiring => total + 5
    case WriterUp => total + 4
    case Spawning => total + 3
    case Listening => total + 2
    case Joining(k) => if k <= total then total + 1 - k else 0
    case HubDropped(_) => 0
  }

  /** What is left of the start-up, and of sending the signal. */
  function Boot(total: nat, s: State): nat {
    (match s.stage
     case Wiring => total + 3
     case WriterUp => total + 2
     case Spawning => if |s.probes| <= total then total - |s.probes| + 1 else 1
     case _ => 0)
    + (if !s.signalTask then 0 else if s.sent then 1 else 2)
  }

  function NextBootStep(total: nat, s: State): Step {
    match s.stage
    case Wiring => SpawnWriter
    case WriterUp => SubscribeRun
    case Spawning => if |s.probes| < total then SpawnProbe else SchedulerReturns
    case _ => if s.sent then SignalTaskEnds else SendSignal
  }

  lemma BootProgresses(total: nat, s: State)
    requires Inv(total, s) && !SendersGone(s)
    ensures Enabled(total, s, NextBootStep(total, s))
    ensures var t := Apply(total, s, NextBootStep(total, s));
      Boot(total, t) < Boot(total, s) && (t.stage.HubDropped? <==> s.stage.HubDropped?) && (s.stage.HubDropped? ==> t.stage == s.stage)
  {
    hide ProbesInv;
  }

  /** From any state the start-up can finish and the signal be sent. */
  lemma {:induction false} CanSendSignal(total: nat, steps: seq<Step>) returns (more: seq<Step>)
    requires Legal(total, steps)
    ensures Legal(total, steps + more) && SendersGone(Exec(total, steps + more))
    ensures forall m :: m in more ==> !m.Complete? && !m.WriterStops?
    ensures var stage, later := Exec(total, steps).stage, Exec(total, steps + more).stage;
      (later.HubDropped? <==> stage.HubDropped?) && (stage.HubDropped? ==> later == stage)
    decreases Boot(total, Exec(total, steps))
  {
    hide Enabled, Apply, Inv, Boot;
    var s := Exec(total, steps);
    RunKeepsInv(total, steps);
    if SendersGone(s) {
      assert steps + [] == steps;
      return [];
    }
    var step := NextBootStep(total, s);
    BootProgresses(total, s);
    ExecNext(total, steps, step);
    var rest := CanSendSignal(total, steps + [step]);
    more := [step] + rest;
    assert steps + more == steps + [step] + rest;
  }

  /** From every state whatever, the shutdown can still run to the closing of the
      hub, without an abort unless the grace period had already expired: no
      interleaving leads into a dead end. */
  lemma ShutdownCanFinish(total: nat, steps: seq<Step>) returns (more: seq<Step>)
    requires Legal(total, steps)
    ensures Legal(total, steps + more)
    ensures !HubOpen(Exec(total, steps + more))
    ensures forall m :: m in more ==> !m.Complete? && !m.WriterStops?
    ensures var stage := Exec(total, steps).stage;
      Exec(total, steps + more).stage == if stage.HubDropped? then stage else HubDropped(true)
  {
    hide Legal, Exec, HubOpen;
    var signal := CanSendSignal(total, steps);
    var finish := CanFinishAfterSignal(total, steps + signal);
    more := signal + finish;
    assert steps + more == steps + signal + finish;
  }

  lemma {:induction false} CanFinishAfterSignal(total: nat, steps: seq<Step>) returns (more: seq<Step>)
    requires Legal(total, steps) && SendersGone(Exec(total, steps))
    ensures Legal(total, steps + more)
    ensures !HubOpen(Exec(total, steps + more))
    ensures forall m :: m in more ==> !m.Complete? && !m.WriterStops?
    ensures var stage := Exec(total, steps).stage;
      Exec(total, steps + more).stage == if stage.HubDropped? then stage else HubDropped(true)
    decreases Live(Exec(total, steps)), Remaining(total, Exec(total, steps).stage)
  {
    hide Enabled, Apply, Inv, HubOpen, Live;
    var s := Exec(total, steps);
    RunKeepsInv(total, steps);
    SignalNeverMissed(total, steps);
    if Live(s) == {} && s.stage.HubDropped? {
      NobodyLeft(s);
      assert steps + [] == steps;
      return [];
    }
    var step := NextShutdownStep(total, s);
    ShutdownStepProgresses(total, s, step);
    ExecNext(total, steps, step);
    var rest := CanFinishAfterSignal(total, steps + [step]);
    more := [step] + rest;
    assert steps + more == steps + [step] + rest;
  }

  lemma NobodyLeft(s: State)
    requires Live(s) == {} && s.stage.HubDropped?
    ensures !HubOpen(s)
  {
    assert forall i: nat | i < |s.probes| && !s.probes[i].phase.Ended? :: i in Live(s);
  }

  /** Stop a live loop if there is one, otherwise let `run()` take its next step. */
  ghost function NextShutdownStep(total: nat, s: State): Step
    requires Live(s) != {} || !s.stage.HubDropped?
  {
    if Live(s) != {} then (var i :| i in Live(s); Stop(i))
    else match s.stage
      case Listening => RunWakes
      case Joining(k) => if k < |s.probes| then JoinNext else AllJoined
      case _ => SchedulerReturns
  }

  lemma ShutdownStepProgresses(total: nat, s: State, step: Step)
    requires Inv(total, s) && SendersGone(s)
    requires Live(s) != {} || !s.stage.HubDropped?
    requires Ready(s, s.runRx) || s.runRx.Consumed?
    requires step == NextShutdownStep(total, s)
    ensures Enabled(total, s, step)
    ensures var t := Apply(total, s, step);
      && SendersGone(t)
      && (Live(t) < Live(s) || (Live(t) == Live(s) && Remaining(total, t.stage) < Remaining(total, s.stage)))
      && (if s.stage.HubDropped? then t.stage == s.stage else t.stage != HubDropped(false))
  {
    if Live(s) != {} {
      var i := step.p;
      assert i in Live(s) && i !in Live(Apply(total, s, step));
    } else {
      assert forall i: nat | i < |s.probes| :: s.probes[i].phase.Ended? by {
        assert forall i: nat | i < |s.probes| && !s.probes[i].phase.Ended? :: i in Live(s);
      }
    }
  }

  lemma ExecNext(total: nat, steps: seq<Step>, step: Step)
    requires Legal(total, steps) && Enabled(total, Exec(total, steps), step)
    ensures Legal(total, steps + [step])
    ensures Exec(total, steps + [step]) == Apply(total, Exec(total, steps), step)
  {
    assert (steps + [step])[..|steps|] == steps;
  }

  // ----- waiting for the probe loops ----------------------------------------

  /** A spawned loop: when it returns by itself, if ever, and whether it was told
      to abort. */
  class JoinHandle {
    const returnsAt: nat
    const stops: bool
    var aborted: bool

    constructor (returnsAt: nat, stops: bool)
      ensures this.returnsAt == returnsAt && this.stops == stops && !aborted
    {
      this.returnsAt, this.stops, aborted := returnsAt, stops, false;
    }

    predicate ReturnsBy(deadline: nat) { stops && returnsAt <= deadline }

    method Abort()
      modifies this
      ensures aborted
    {
      aborted := true;
    }
  }

  /** One deadline for all loops. True exactly when every loop returns by it, and
      then none is aborted; otherwise all of them are. */
  method StopProbes(handles: seq<JoinHandle>, now: nat, grace: nat) returns (allStopped: bool)
    modifies handles
    ensures allStopped <==> forall h :: h in handles ==> h.ReturnsBy(now + grace)
    ensures forall h :: h in handles ==> h.aborted == (old(h.aborted) || !allStopped)
  {
    if handles == [] {
      return true;
    }
    var deadline := now + grace;
    allStopped := true;
    var i := 0;
    while i < |handles| && allStopped
      invariant 0 <= i <= |handles|
      invariant allStopped ==> forall j :: 0 <= j < i ==> handles[j].ReturnsBy(deadline)
      invariant !allStopped ==> i < |handles| && !handles[i].ReturnsBy(deadline)
      invariant forall h :: h in handles ==> h.aborted == old(h.aborted)
      decreases |handles| - i, allStopped
    {
      if !handles[i].ReturnsBy(deadline) {
        allStopped := false;
      } else {
        i := i + 1;
      }
    }
    if !allStopped {
      assert handles[i] in handles;
      for j := 0 to |handles|
        invariant forall k :: 0 <= k < j ==> handles[k].aborted
        invariant forall h :: h in handles && !h.aborted ==> h.aborted == old(h.aborted)
      {
        handles[j].Abort();
      }
    }
  }
}
