/** The wake-up protocol between `push`, `close` and `wait_for_batch`, with every
    lock, atomic access and notification a step of its own. Any number of pushes
    and closes may be in flight; there is one waiter, as in the program. */
module Wakeup {
  import opened Text
  import opened RetryQueues

  /** Where the waiter stands in its loop. */
  datatype Pc =
    | Peek1                  // about to lock and look, top of the loop
    | Load1                  // saw an empty queue, about to read the flag
    | Register               // about to create its `Notified`
    | Peek2                  // about to look again
    | Load2                  // still empty, about to read the flag again
    | Poll                   // about to await
    | Parked                 // asleep
    | Holding(batch: Batch)  // returned a batch, which the writer is working on
    | Left                   // returned none

  /** The runtime's `Notify`: `permit` is the one stored permit, `broadcasts` counts
      the `notify_waiters` calls, `seen` is the count when the waiter registered.
      `owedOnes` and `owedAlls` are calls that have changed the queue or the flag
      but not notified yet. `pushes` and `peekedAt` are history. */
  datatype State = State(
    queue: seq<Batch>, closed: bool,
    permit: bool, broadcasts: nat, owedOnes: nat, owedAlls: nat,
    pc: Pc, seen: nat, woken: bool,
    pushes: nat, peekedAt: nat)

  datatype Step = PushLocked(batch: Batch) | NotifyOne | CloseStored | NotifyWaiters | Waiter

  const INIT := State([], false, false, 0, 0, 0, Peek1, 0, false, 0, 0)

  predicate Enabled(s: State, step: Step) {
    match step
    case PushLocked(_) => true
    case NotifyOne => s.owedOnes > 0
    case CloseStored => true
    case NotifyWaiters => s.owedAlls > 0
    case Waiter => !s.pc.Left? && (s.pc.Parked? ==> s.woken)
  }

  function Look(s: State, otherwise: Pc): State {
    s.(peekedAt := s.pushes, pc := if s.queue != [] then Holding(s.queue[0]) else otherwise)
  }

  /** One step of `wait_for_batch`, or of the pop that follows it. A first poll
      takes a stored permit, then notices broadcasts since registration, then parks. */
  function Wait(s: State): State {
    match s.pc
    case Peek1 => Look(s, Load1)
    case Load1 => s.(pc := if s.closed then Left else Register)
    case Register => s.(seen := s.broadcasts, pc := Peek2)
    case Peek2 => Look(s, Load2)
    case Load2 => s.(pc := if s.closed then Left else Poll)
    case Poll =>
      if s.permit then s.(permit := false, pc := Peek1)
      else if s.broadcasts != s.seen then s.(pc := Peek1)
      else s.(pc := Parked, woken := false)
    case Parked => s.(pc := Peek1, woken := false)
    case Holding(b) => s.(queue := Popped(s.queue, b), pc := Peek1)
    case Left => s
  }

  function Apply(capacity: nat, s: State, step: Step): State
    requires Enabled(s, step)
  {
    match step
    case PushLocked(b) =>
      s.(queue := Pushed(s.queue, b, capacity), pushes := s.pushes + 1, owedOnes := s.owedOnes + 1)
    case NotifyOne =>
      if s.pc.Parked? && !s.woken then s.(owedOnes := s.owedOnes - 1, woken := true)
      else s.(owedOnes := s.owedOnes - 1, permit := true)
    case CloseStored => s.(closed := true, owedAlls := s.owedAlls + 1)
    case NotifyWaiters =>
      s.(owedAlls := s.owedAlls - 1, broadcasts := s.broadcasts + 1, woken := s.woken || s.pc.Parked?)
    case Waiter => Wait(s)
  }

  predicate Legal(capacity: nat, steps: seq<Step>)
    decreases |steps|, 0
  {
    steps != [] ==>
      var front := steps[..|steps| - 1];
      Legal(capacity, front) && Enabled(Exec(capacity, front), steps[|steps| - 1])
  }

  function Exec(capacity: nat, steps: seq<Step>): State
    requires Legal(capacity, steps)
    decreases |steps|, 1
  {
    if steps == [] then INIT
    else Apply(capacity, Exec(capacity, steps[..|steps| - 1]), steps[|steps| - 1])
  }

  // ----- invariant ----------------------------------------------------------

  /** A batch the waiter has not seen is announced: by a stored permit, or by a
      push that still owes its notification. */
  predicate PushAnnounced(s: State) { s.queue != [] ==> s.permit || s.owedOnes > 0 }

  predicate CloseAnnounced(s: State) { s.closed ==> s.broadcasts != s.seen || s.owedAlls > 0 }

  predicate Inv(s: State) {
    && s.seen <= s.broadcasts
    && (s.pc.Load2? || s.pc.Poll? ==> PushAnnounced(s))
    && (s.pc.Poll? ==> CloseAnnounced(s))
    && (s.pc.Parked? && !s.woken ==> (s.queue != [] ==> s.owedOnes > 0) && (s.closed ==> s.owedAlls > 0))
    && s.peekedAt <= s.pushes
    && (s.pc.Load1? || s.pc.Load2? || s.pc.Left? ==> (s.queue == [] <==> s.pushes == s.peekedAt))
    && (s.pc.Left? ==> s.closed)
  }

  lemma StepKeepsInv(capacity: nat, s: State, step: Step)
    requires Inv(s) && Enabled(s, step)
    ensures Inv(Apply(capacity, s, step))
  {
    hide Pushed, Popped;
    match step {
      case PushLocked(b) => PushFills(s.queue, b, capacity);
      case NotifyOne =>
      case CloseStored =>
      case NotifyWaiters =>
      case Waiter => WaitKeepsInv(s);
    }
  }

  lemma PushFills(q: seq<Batch>, b: Batch, capacity: nat)
    ensures Pushed(q, b, capacity) != []
  {
  }

  lemma WaitKeepsInv(s: State)
    requires Inv(s) && Enabled(s, Waiter)
    ensures Inv(Wait(s))
  {
    hide Popped, Look;
    if s.pc.Peek1? || s.pc.Peek2? {
      LookKeepsInv(s, if s.pc.Peek1? then Load1 else Load2);
    }
  }

  lemma LookKeepsInv(s: State, otherwise: Pc)
    requires Inv(s) && (otherwise.Load1? || otherwise.Load2?)
    ensures Inv(Look(s, otherwise))
  {
  }

  lemma {:induction false} RunKeepsInv(capacity: nat, steps: seq<Step>)
    requires Legal(capacity, steps)
    ensures Inv(Exec(capacity, steps))
  {
    hide Inv;
    if steps == [] {
      InitInv();
    } else {
      RunKeepsInv(capacity, steps[..|steps| - 1]);
      StepKeepsInv(capacity, Exec(capacity, steps[..|steps| - 1]), steps[|steps| - 1]);
    }
  }

  lemma InitInv()
    ensures Inv(INIT)
  {
  }

  /** The notification as the queue's own object sees it. */
  function SignalOf(s: State): Signal { Signal(s.permit, s.pc.Parked?, s.woken) }

  /** Run without interruption, a push and a close do here what the methods of the
      queue do: the two granularities agree. */
  lemma StepsAreTheMethods(capacity: nat, s: State, b: Batch)
    ensures var t := Apply(capacity, Apply(capacity, s, PushLocked(b)), NotifyOne);
      t.queue == Pushed(s.queue, b, capacity) && SignalOf(t) == NotifiedOne(SignalOf(s)) && t.owedOnes == s.owedOnes
    ensures var t := Apply(capacity, Apply(capacity, s, CloseStored), NotifyWaiters);
      t.closed && t.queue == s.queue && SignalOf(t) == NotifiedAll(SignalOf(s)) && t.owedAlls == s.owedAlls
  {
    hide Pushed;
  }

  // ----- what the protocol guarantees ---------------------------------------

  /** No lost wake-up: over every interleaving, a waiter that sleeps un-notified
      has nothing to wake for, except what a push or close is about to announce. */
  lemma NoLostWakeup(capacity: nat, steps: seq<Step>)
    requires Legal(capacity, steps)
    ensures var s := Exec(capacity, steps);
      s.pc.Parked? && !s.woken ==>
        (s.queue != [] ==> s.owedOnes > 0) && (s.closed ==> s.owedAlls > 0)
  {
    RunKeepsInv(capacity, steps);
  }

  /** And the announcement reaches it: once some owed notification of a push has
      run, the sleeping waiter gets the oldest batch in two steps. */
  lemma AnnouncedBatchIsTaken(capacity: nat, steps: seq<Step>)
    requires Legal(capacity, steps)
    requires Exec(capacity, steps).pc.Parked? && Exec(capacity, steps).queue != []
    ensures var s := Exec(capacity, steps);
      (s.woken || Enabled(s, NotifyOne))
      && var awake := if s.woken then s else Apply(capacity, s, NotifyOne);
      Enabled(awake, Waiter) && Enabled(Wait(awake), Waiter) && Wait(Wait(awake)).pc == Holding(s.queue[0])
  {
    RunKeepsInv(capacity, steps);
  }

  /** `wait_for_batch` returns none only when closed, and then a batch is left
      behind exactly when a push took the lock after the last look. */
  lemma NoneMeansDrainedUnlessOvertaken(capacity: nat, steps: seq<Step>)
    requires Legal(capacity, steps)
    ensures var s := Exec(capacity, steps);
      s.pc.Left? ==> s.closed && (s.queue == [] <==> s.pushes == s.peekedAt)
  {
    RunKeepsInv(capacity, steps);
  }

  /** The same for a close: a waiter asleep on a closed, empty queue leaves once an
      owed broadcast has run. */
  lemma AnnouncedCloseEndsTheWait(capacity: nat, steps: seq<Step>)
    requires Legal(capacity, steps)
    requires var s := Exec(capacity, steps); s.pc.Parked? && s.closed && s.queue == []
    ensures var s := Exec(capacity, steps);
      (s.woken || Enabled(s, NotifyWaiters))
      && var awake := if s.woken then s else Apply(capacity, s, NotifyWaiters);
      && Enabled(awake, Waiter) && Enabled(Wait(awake), Waiter) && Enabled(Wait(Wait(awake)), Waiter)
      && Wait(Wait(Wait(awake))).pc == Left
  {
    RunKeepsInv(capacity, steps);
  }

  /** At this granularity that can happen: a push, with its notification, and then the
      close land between the first look and the first read of the flag. The comment
      "None only when closed and empty" needs look and read to be one step. */
  lemma NoneCanStrandABatch(b: Batch, capacity: nat)
    ensures var steps := [Waiter, PushLocked(b), NotifyOne, CloseStored, Waiter];
      Legal(capacity, steps) && Exec(capacity, steps).pc.Left? && Exec(capacity, steps).queue == [b]
  {
    hide Legal, Exec, Pushed;
    EmptyRun(capacity, []);
    PushAlone(b, capacity);
    ExecNext(capacity, [], Waiter);
    ExecNext(capacity, [] + [Waiter], PushLocked(b));
    ExecNext(capacity, [] + [Waiter] + [PushLocked(b)], NotifyOne);
    ExecNext(capacity, [] + [Waiter] + [PushLocked(b)] + [NotifyOne], CloseStored);
    ExecNext(capacity, [] + [Waiter] + [PushLocked(b)] + [NotifyOne] + [CloseStored], Waiter);
    assert [] + [Waiter] + [PushLocked(b)] + [NotifyOne] + [CloseStored] + [Waiter]
        == [Waiter, PushLocked(b), NotifyOne, CloseStored, Waiter];
  }

  lemma EmptyRun(capacity: nat, none: seq<Step>)
    requires none == []
    ensures Legal(capacity, none) && Exec(capacity, none) == INIT
  {
  }

  lemma PushAlone(b: Batch, capacity: nat)
    ensures Pushed([], b, capacity) == [b]
  {
  }

  lemma ExecNext(capacity: nat, steps: seq<Step>, step: Step)
    requires Legal(capacity, steps) && Enabled(Exec(capacity, steps), step)
    ensures Legal(capacity, steps + [step])
    ensures Exec(capacity, steps + [step]) == Apply(capacity, Exec(capacity, steps), step)
  {
    assert (steps + [step])[..|steps|] == steps;
  }
}
