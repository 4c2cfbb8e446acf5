/** The loop that drains the queue: retry of the head without limit, permanent
    rejections dropped, shutdown honoured in every backoff. Other code runs only
    while the writer is suspended; what it pushes then is part of the input. */
module Writer {
  import opened Text
  import opened RetryQueues
  import opened Backoff

  /** What the outside world decides: the answer to try `k` of a batch, whether the stop
      signal wins the race against the wait after it, what the clock shows when a batch
      has been written, and the settings. */
  datatype World = World(answer: (Batch, nat) -> Answer, stop: (Batch, nat) -> bool, writtenAt: Batch -> nat,
                         initialMs: U64, maxMs: U64)

  datatype Attempt = Attempt(batch: Batch, answer: Answer, wait: Option<Duration>)
  datatype Verdict = Wrote | Refused | Stopped

  const MAX_U32: nat := 0xFFFF_FFFF

  /** Try `k` on `b`, with the wait that follows a transient failure. */
  function Try(w: World, b: Batch, k: nat): Attempt {
    var a := w.answer(b, k);
    Attempt(b, a, if Retryable(a) then Some(RetryDelay(Classify(a).value, FromMillis(w.initialMs), FromMillis(w.maxMs), k))
                  else None)
  }

  /** The server reaches a verdict on `b` by try `n`. */
  predicate SettledBy(w: World, b: Batch, n: nat) { !Retryable(w.answer(b, n)) }

  /** Every try on `b` from try `k` on, and how they end. */
  function Tries(w: World, b: Batch, k: nat, n: nat): (r: (seq<Attempt>, Verdict))
    requires k <= n && SettledBy(w, b, n)
    decreases n - k
  {
    var a := w.answer(b, k);
    if Accepted(a) then ([Try(w, b, k)], Wrote)
    else if Rejected(a) then ([Try(w, b, k)], Refused)
    else if w.stop(b, k) then ([Try(w, b, k)], Stopped)
    else
      var (rest, v) := Tries(w, b, k + 1, n);
      ([Try(w, b, k)] + rest, v)
  }

  /** Everything sent, what it did to the batches, and what stays queued. */
  datatype Outcome = Outcome(log: seq<Attempt>, done: seq<Batch>, accepted: seq<Batch>, rejected: seq<Batch>,
                             left: seq<Batch>)

  predicate Settles(w: World, q: seq<Batch>, settled: Batch -> nat) {
    forall b :: b in q ==> SettledBy(w, b, settled(b))
  }

  function VerdictOn(w: World, b: Batch, settled: Batch -> nat): Verdict
    requires SettledBy(w, b, settled(b))
  {
    Tries(w, b, 0, settled(b)).1
  }

  /** Draining a closed queue: every batch in order, up to the first stop. */
  function Drain(w: World, q: seq<Batch>, settled: Batch -> nat): Outcome
    requires Settles(w, q, settled)
  {
    if q == [] then Outcome([], [], [], [], [])
    else
      var (tries, v) := Tries(w, q[0], 0, settled(q[0]));
      if v.Stopped? then Outcome(tries, [], [], [], q)
      else Prepend(tries, q[0], v, Drain(w, q[1..], settled))
  }

  function Prepend(tries: seq<Attempt>, b: Batch, v: Verdict, o: Outcome): Outcome {
    Outcome(tries + o.log, [b] + o.done,
            if v.Wrote? then [b] + o.accepted else o.accepted,
            if v.Refused? then [b] + o.rejected else o.rejected, o.left)
  }

  // ----- what draining guarantees -------------------------------------------

  /** The batches of `q` that end with verdict `v`, in order. */
  function Ending(w: World, q: seq<Batch>, settled: Batch -> nat, v: Verdict): seq<Batch>
    requires Settles(w, q, settled)
  {
    if q == [] then []
    else if VerdictOn(w, q[0], settled) == v then [q[0]] + Ending(w, q[1..], settled, v)
    else Ending(w, q[1..], settled, v)
  }

  lemma TriesNext(w: World, b: Batch, k: nat, n: nat)
    requires k <= n && SettledBy(w, b, n)
    ensures var a, (tries, v) := w.answer(b, k), Tries(w, b, k, n);
      && (Accepted(a) ==> tries == [Try(w, b, k)] && v == Wrote)
      && (Rejected(a) ==> tries == [Try(w, b, k)] && v == Refused)
      && (Retryable(a) ==> k < n)
      && (Retryable(a) && w.stop(b, k) ==> tries == [Try(w, b, k)] && v == Stopped)
      && (Retryable(a) && !w.stop(b, k) ==>
            tries == [Try(w, b, k)] + Tries(w, b, k + 1, n).0 && v == Tries(w, b, k + 1, n).1)
  {
  }

  /** Each try but the last met a transient answer, and no stop signal in its pause. */
  predicate GoesOn(w: World, b: Batch, k: nat, tries: seq<Attempt>) {
    forall i :: 0 <= i < |tries| - 1 ==> TriesAgain(w, b, k + i, tries[i].answer)
  }

  predicate TriesAgain(w: World, b: Batch, k: nat, a: Answer) { Retryable(a) && !w.stop(b, k) }

  lemma {:induction false} TriesEnd(w: World, b: Batch, k: nat, n: nat)
    requires k <= n && SettledBy(w, b, n)
    ensures var (tries, v) := Tries(w, b, k, n);
      && 1 <= |tries| <= n - k + 1
      && (forall i :: 0 <= i < |tries| ==> tries[i] == Try(w, b, k + i))
      && GoesOn(w, b, k, tries)
      && (v.Stopped? <==> Retryable(tries[|tries| - 1].answer))
      && (v.Stopped? ==> w.stop(b, k + |tries| - 1))
      && (v.Wrote? <==> Accepted(tries[|tries| - 1].answer))
    decreases n - k
  {
    hide Accepted, Rejected, Retryable, Classify, RetryDelay, Try;
    TriesNext(w, b, k, n);
    TryAnswer(w, b, k);
    VerdictsPartition(w.answer(b, k));
    if Retryable(w.answer(b, k)) && !w.stop(b, k) {
      TriesEnd(w, b, k + 1, n);
      OneMoreTry(w, b, k, Tries(w, b, k + 1, n).0);
    }
  }

  lemma OneMoreTry(w: World, b: Batch, k: nat, rest: seq<Attempt>)
    requires Retryable(w.answer(b, k)) && !w.stop(b, k)
    requires forall i :: 0 <= i < |rest| ==> rest[i] == Try(w, b, k + 1 + i)
    requires GoesOn(w, b, k + 1, rest)
    ensures var tries := [Try(w, b, k)] + rest;
      (forall i :: 0 <= i < |tries| ==> tries[i] == Try(w, b, k + i)) && GoesOn(w, b, k, tries)
  {
    hide Retryable, Try;
    var tries := [Try(w, b, k)] + rest;
    TryAnswer(w, b, k);
    forall i | 0 <= i < |tries| ensures tries[i] == Try(w, b, k + i) {
      assert i > 0 ==> tries[i] == rest[i - 1] == Try(w, b, k + 1 + (i - 1));
    }
    forall i | 0 <= i < |tries| - 1 ensures TriesAgain(w, b, k + i, tries[i].answer) {
      if i > 0 {
        assert tries[i] == rest[i - 1] && TriesAgain(w, b, k + 1 + (i - 1), rest[i - 1].answer);
      }
    }
  }

  lemma TryAnswer(w: World, b: Batch, k: nat)
    ensures Try(w, b, k).answer == w.answer(b, k)
  {
    hide RetryDelay, Classify;
  }

  /** A batch the server refuses outright is tried exactly once and never blocks:
      the drain goes on with the batches behind it as if it had not been there. */
  lemma RefusedOnce(w: World, q: seq<Batch>, settled: Batch -> nat)
    requires q != [] && Settles(w, q, settled) && Rejected(w.answer(q[0], 0))
    ensures Settles(w, q[1..], settled)
    ensures Drain(w, q, settled) == Prepend([Try(w, q[0], 0)], q[0], Refused, Drain(w, q[1..], settled))
  {
    TriesNext(w, q[0], 0, settled(q[0]));
    DrainNext(w, q, settled);
  }

  lemma HeadTail(q: seq<Batch>)
    requires q != []
    ensures q == [q[0]] + q[1..]
    ensures forall rest :: q == [q[0]] + rest ==> q[1..] == rest
  {
  }

  /** The drain works through the queue in order up to the first batch on which
      the stop signal wins, and keeps that batch and everything behind it. Before
      it, every batch was accepted or refused, and recorded as such. */
  lemma {:induction false} DrainStopsAtFirstStop(w: World, q: seq<Batch>, settled: Batch -> nat)
    requires Settles(w, q, settled)
    ensures var o := Drain(w, q, settled);
      && q == o.done + o.left && Settles(w, o.done, settled)
      && (forall b :: b in o.done ==> !VerdictOn(w, b, settled).Stopped?)
      && o.accepted == Ending(w, o.done, settled, Wrote)
      && o.rejected == Ending(w, o.done, settled, Refused)
      && (o.left != [] ==> VerdictOn(w, o.left[0], settled).Stopped?)
  {
    hide Tries, SettledBy;
    if q != [] && !VerdictOn(w, q[0], settled).Stopped? {
      DrainStopsAtFirstStop(w, q[1..], settled);
      var rest := Drain(w, q[1..], settled);
      HeadTail(q);
      HeadTail([q[0]] + rest.done);
      ConcatAssoc([q[0]], rest.done, rest.left);
    }
  }

  /** The loop by itself, with no stop signal pending, ends with an empty queue: each
      batch reaches a verdict after finitely many transient answers. A closed queue
      means that the signal is pending, so this is not what a shutdown does. */
  lemma DrainTerminates(w: World, q: seq<Batch>, settled: Batch -> nat)
    requires Settles(w, q, settled)
    requires forall b, k :: !w.stop(b, k)
    ensures Drain(w, q, settled).left == []
    ensures Drain(w, q, settled).accepted == Ending(w, q, settled, Wrote)
    ensures Drain(w, q, settled).rejected == Ending(w, q, settled, Refused)
  {
    DrainStopsAtFirstStop(w, q, settled);
    var left := Drain(w, q, settled).left;
    if left != [] {
      TriesEnd(w, left[0], 0, settled(left[0]));
    }
    assert q == Drain(w, q, settled).done;
  }

  /** With the stop signal pending and winning every pause, as after the close, the
      queue is emptied exactly when the first answer to each batch settles it.
      Otherwise the first batch that would need a retry stays, with all behind it. */
  lemma {:induction false} DrainAfterStop(w: World, q: seq<Batch>, settled: Batch -> nat)
    requires Settles(w, q, settled)
    requires forall b, k :: w.stop(b, k)
    ensures var o := Drain(w, q, settled);
      && (o.left == [] <==> forall b :: b in q ==> !Retryable(w.answer(b, 0)))
      && (o.left != [] ==> Retryable(w.answer(o.left[0], 0)))
      && q == o.done + o.left && (forall b :: b in o.done ==> !Retryable(w.answer(b, 0)))
      && |o.log| == |o.done| + if o.left == [] then 0 else 1
  {
    hide Settles, Tries, SettledBy, Accepted, Rejected, Retryable, Classify, RetryDelay;
    if q == [] {
      DrainNothing(w, settled);
    } else {
      DrainNext(w, q, settled);
      TriesNext(w, q[0], 0, settled(q[0]));
      VerdictsPartition(w.answer(q[0], 0));
      DrainAfterStop(w, q[1..], settled);
      var rest := Drain(w, q[1..], settled);
      HeadTail(q);
      ConcatAssoc([q[0]], rest.done, rest.left);
    }
  }

  /** For example, a server that answers 503 once and would accept the retry. */
  lemma OneUnavailableAnswer(b: Batch)
    ensures var w := World((_, k) => if k == 0 then Status(503, None) else Status(204, None), (_, _) => true, _ => 0, 500, 30_000);
      Settles(w, [b], _ => 1) && Drain(w, [b], _ => 1).left == [b]
  {
    var w := World((_, k) => if k == 0 then Status(503, None) else Status(204, None), (_, _) => true, _ => 0, 500, 30_000);
    var settled: Batch -> nat := _ => 1;
    assert Settles(w, [b], settled);
    DrainAfterStop(w, [b], settled);
    assert b in [b];
    HeadTail([b]);
  }

  /** No wait ever exceeds the configured ceiling. */
  lemma WaitsAreCapped(w: World, b: Batch, k: nat)
    ensures Try(w, b, k).wait.Some? ==> Try(w, b, k).wait.value.Total() <= w.maxMs * 1_000_000
  {
    if Retryable(w.answer(b, k)) {
      RetryDelayIsCapped(Classify(w.answer(b, k)).value, w.initialMs, w.maxMs, k);
    }
  }

  // ----- what a log of attempts says ----------------------------------------

  /** No answer at all, or a status that means "later". */
  predicate IsTransient(a: Answer) { a.Unreachable? || a.code == 408 || a.code == 429 || a.code >= 500 }

  /** The wait, in nanoseconds, after transient answer `a` to try `k` of a batch: the
      server's hint if it gave one, else the first delay doubled for each try before,
      31 times at most; never above the ceiling. */
  function WaitNanos(w: World, a: Answer, k: nat): nat {
    if a.Status? && a.retryAfter.Some? then Backoff.Min(w.maxMs * 1_000_000, a.retryAfter.value * NANOS_PER_SEC)
    else Backoff.Min(w.maxMs, w.initialMs * Pow2(Backoff.Min(k, 31))) * 1_000_000
  }

  /** An entry of the log for try `k` of `b`: the server's answer to that try, and the
      wait after it if and only if it was transient. */
  predicate IsTry(w: World, t: Attempt, b: Batch, k: nat) {
    && t.batch == b && t.answer == w.answer(b, k)
    && (t.wait.Some? <==> IsTransient(t.answer))
    && (t.wait.Some? ==> t.wait.value.Total() == WaitNanos(w, t.answer, k))
  }

  /** Which try of its batch entry `j` is: one more than the entry before, if that was
      waited after, and otherwise the first. */
  function Number(log: seq<Attempt>, j: nat): nat
    requires j < |log|
  {
    if j == 0 || log[j - 1].wait.None? then 0 else Number(log, j - 1) + 1
  }

  /** Every entry is what the settings and the server's answers make it, for the
      number of that try; and tries are repeated for one batch only. */
  predicate Paced(w: World, log: seq<Attempt>) { forall j :: 0 <= j < |log| ==> PacedAt(w, log, j) }

  predicate PacedAt(w: World, log: seq<Attempt>, j: nat)
    requires j < |log|
  {
    && IsTry(w, log[j], log[j].batch, Number(log, j))
    && (Number(log, j) > 0 ==> log[j].batch == log[j - 1].batch)
  }

  lemma TryIs(w: World, b: Batch, k: nat)
    ensures IsTry(w, Try(w, b, k), b, k)
  {
    hide RetryDelay;
    var a := w.answer(b, k);
    VerdictsPartition(a);
    if Retryable(a) {
      RetryDelayIsCapped(Classify(a).value, w.initialMs, w.maxMs, k);
    }
  }

  /** The tries of one batch are numbered from 0, without a gap. */
  lemma TriesAre(w: World, b: Batch, n: nat)
    requires SettledBy(w, b, n)
    ensures var tries := Tries(w, b, 0, n).0;
      && (forall i :: 0 <= i < |tries| ==> IsTry(w, tries[i], b, i))
      && (forall i :: 0 <= i < |tries| - 1 ==> tries[i].wait.Some?)
      && (!Tries(w, b, 0, n).1.Stopped? ==> tries[|tries| - 1].wait.None?)
      && Paced(w, tries)
  {
    hide Tries, Try, IsTry, RetryDelay;
    TriesEnd(w, b, 0, n);
    var tries := Tries(w, b, 0, n).0;
    forall i | 0 <= i < |tries|
      ensures IsTry(w, tries[i], b, i) && tries[i].batch == b && (tries[i].wait.Some? <==> Retryable(tries[i].answer))
    {
      TryIs(w, b, i);
      TryWaits(w, tries[i], b, i);
    }
    NumbersOfTries(tries);
  }

  lemma TryWaits(w: World, t: Attempt, b: Batch, k: nat)
    requires IsTry(w, t, b, k)
    ensures t.batch == b && (t.wait.Some? <==> Retryable(t.answer))
  {
    VerdictsPartition(t.answer);
  }

  lemma {:induction false} NumberOfTry(tries: seq<Attempt>, j: nat)
    requires j < |tries| && forall i :: 0 <= i < |tries| - 1 ==> tries[i].wait.Some?
    ensures Number(tries, j) == j
  {
    if j > 0 {
      NumberOfTry(tries, j - 1);
    }
  }

  lemma NumbersOfTries(tries: seq<Attempt>)
    requires forall i :: 0 <= i < |tries| - 1 ==> tries[i].wait.Some?
    ensures forall j :: 0 <= j < |tries| ==> Number(tries, j) == j
  {
    forall j | 0 <= j < |tries| ensures Number(tries, j) == j {
      NumberOfTry(tries, j);
    }
  }

  lemma {:induction false} NumberInConcat(a: seq<Attempt>, b: seq<Attempt>, j: nat)
    requires j < |a + b| && (a != [] ==> a[|a| - 1].wait.None?)
    ensures Number(a + b, j) == if j < |a| then Number(a, j) else Number(b, j - |a|)
  {
    if j > 0 {
      NumberInConcat(a, b, j - 1);
    }
  }

  lemma PacedConcat(w: World, a: seq<Attempt>, b: seq<Attempt>)
    requires Paced(w, a) && Paced(w, b) && (a != [] ==> a[|a| - 1].wait.None?)
    ensures Paced(w, a + b)
  {
    hide PacedAt;
    forall j | 0 <= j < |a + b| ensures PacedAt(w, a + b, j) {
      PacedInConcat(w, a, b, j);
    }
  }

  lemma PacedInConcat(w: World, a: seq<Attempt>, b: seq<Attempt>, j: nat)
    requires j < |a + b| && (a != [] ==> a[|a| - 1].wait.None?)
    requires if j < |a| then PacedAt(w, a, j) else PacedAt(w, b, j - |a|)
    ensures PacedAt(w, a + b, j)
  {
    hide IsTry, Number;
    NumberInConcat(a, b, j);
    var all, i := a + b, j - |a|;
    if j < |a| {
      assert all[j] == a[j] && (j > 0 ==> all[j - 1] == a[j - 1]);
    } else {
      assert all[j] == b[i] && (i > 0 ==> all[j - 1] == b[i - 1]);
      FirstNumber(b, i);
    }
  }

  lemma FirstNumber(log: seq<Attempt>, j: nat)
    requires j < |log|
    ensures Number(log, j) > 0 ==> j > 0
  {
  }

  // ----- while the writer is suspended --------------------------------------

  /** The queue, and how many suspensions the writer has come through. `arrivals`
      lists what is pushed during each; after the last the queue is closed. */
  datatype Desk = Desk(queue: seq<Batch>, at: nat)

  function PushAll(q: seq<Batch>, pushed: seq<Batch>, capacity: nat): seq<Batch> {
    if pushed == [] then q
    else
      var n := |pushed| - 1;
      Pushed(PushAll(q, pushed[..n], capacity), pushed[n], capacity)
  }

  function Suspended(d: Desk, arrivals: seq<seq<Batch>>, capacity: nat): Desk {
    if d.at < |arrivals| then Desk(PushAll(d.queue, arrivals[d.at], capacity), d.at + 1) else d
  }

  function SuspendedFor(d: Desk, n: nat, arrivals: seq<seq<Batch>>, capacity: nat): (e: Desk)
    ensures d.at <= e.at && (d.at <= |arrivals| ==> e.at <= |arrivals|)
    ensures d.at >= |arrivals| ==> e == d
    ensures d.at < |arrivals| && n > 0 ==> d.at < e.at
  {
    if n == 0 then d else Suspended(SuspendedFor(d, n - 1, arrivals, capacity), arrivals, capacity)
  }

  /** Each try is one suspension, and so is each pause between tries. */
  function Suspensions(tries: seq<Attempt>, v: Verdict): nat {
    if tries == [] then 0 else 2 * |tries| - if v.Stopped? then 0 else 1
  }

  /** Everything pushed from suspension `i` up to suspension `j`. */
  function Incoming(arrivals: seq<seq<Batch>>, i: nat, j: nat): seq<Batch> {
    if j <= i || j > |arrivals| then [] else Incoming(arrivals, i, j - 1) + arrivals[j - 1]
  }

  lemma PushedIsSuffix(q: seq<Batch>, b: Batch, capacity: nat)
    ensures NewestOf(Pushed(q, b, capacity), q + [b]) && Pushed(q, b, capacity) != []
  {
    assert (q + [b])[Evictions(q, ByteLen(b.text), capacity)..] == Pushed(q, b, capacity);
  }

  lemma PushAllLast(q: seq<Batch>, pushed: seq<Batch>, b: Batch, capacity: nat)
    ensures PushAll(q, pushed + [b], capacity) == Pushed(PushAll(q, pushed, capacity), b, capacity)
  {
    hide Pushed;
    assert (pushed + [b])[..|pushed|] == pushed;
  }

  lemma {:induction false} PushAllIsSuffix(q: seq<Batch>, pushed: seq<Batch>, capacity: nat)
    ensures NewestOf(PushAll(q, pushed, capacity), q + pushed)
    ensures q != [] || pushed != [] ==> PushAll(q, pushed, capacity) != []
  {
    hide NewestOf, Pushed;
    if pushed == [] {
      AllOf(q);
      ConcatNothing(q);
    } else {
      var n := |pushed| - 1;
      PushAllIsSuffix(q, pushed[..n], capacity);
      hide PushAll;
      PushAllGrows(q, pushed[..n], pushed[n], capacity);
      assert pushed == pushed[..n] + [pushed[n]];
    }
  }

  lemma PushAllGrows(q: seq<Batch>, front: seq<Batch>, b: Batch, capacity: nat)
    requires NewestOf(PushAll(q, front, capacity), q + front)
    ensures NewestOf(PushAll(q, front + [b], capacity), q + (front + [b])) && PushAll(q, front + [b], capacity) != []
  {
    hide NewestOf, Pushed, PushAll;
    PushedIsSuffix(PushAll(q, front, capacity), b, capacity);
    PushAllLast(q, front, b, capacity);
    ConcatAssoc(q, front, [b]);
    SuffixOfSuffix(q + front, [b], PushAll(q, front, capacity), PushAll(q, front + [b], capacity));
  }

  /** `r` is what is left of `all` after evictions at the front. */
  predicate NewestOf(r: seq<Batch>, all: seq<Batch>) { |r| <= |all| && r == all[|all| - |r|..] }

  lemma {:induction false} SuspendedIsSuffix(d: Desk, n: nat, arrivals: seq<seq<Batch>>, capacity: nat)
    requires d.at <= |arrivals|
    ensures var e := SuspendedFor(d, n, arrivals, capacity);
      NewestOf(e.queue, d.queue + Incoming(arrivals, d.at, e.at)) && (d.queue != [] ==> e.queue != [])
  {
    hide NewestOf, PushAll;
    if n == 0 {
      ConcatNothing(d.queue);
      AllOf(d.queue);
    } else {
      SuspendedIsSuffix(d, n - 1, arrivals, capacity);
      var e := SuspendedFor(d, n - 1, arrivals, capacity);
      if e.at < |arrivals| {
        var incoming, more := Incoming(arrivals, d.at, e.at), arrivals[e.at];
        PushAllIsSuffix(e.queue, more, capacity);
        ConcatAssoc(d.queue, incoming, more);
        SuffixOfSuffix(d.queue + incoming, more, e.queue, PushAll(e.queue, more, capacity));
      }
    }
  }

  lemma AllOf(q: seq<Batch>)
    ensures NewestOf(q, q)
  {
  }

  lemma SuffixOfSuffix(all: seq<Batch>, more: seq<Batch>, q: seq<Batch>, r: seq<Batch>)
    requires NewestOf(q, all) && NewestOf(r, q + more)
    ensures NewestOf(r, all + more)
  {
  }

  /** After any number of suspensions the pop takes the writer's own batch, still at
      the front, or nothing, exactly when that batch was evicted meanwhile. */
  lemma PopFindsOwnOrNothing(d: Desk, n: nat, arrivals: seq<seq<Batch>>, capacity: nat)
    requires d.at <= |arrivals| && d.queue != []
    requires var all := d.queue + Incoming(arrivals, d.at, SuspendedFor(d, n, arrivals, capacity).at);
      forall i, j :: 0 <= i < j < |all| ==> all[i].addr != all[j].addr
    ensures var q := SuspendedFor(d, n, arrivals, capacity).queue;
      && (d.queue[0] in q ==> q == [d.queue[0]] + Popped(q, d.queue[0]))
      && (d.queue[0] !in q ==> Popped(q, d.queue[0]) == q)
  {
    SuspendedIsSuffix(d, n, arrivals, capacity);
    var e := SuspendedFor(d, n, arrivals, capacity);
    var all := d.queue + Incoming(arrivals, d.at, e.at);
    var k := |all| - |e.queue|;
    assert all[0] == d.queue[0];
    if k == 0 {
      assert e.queue == all;
    } else {
      assert forall i :: 0 <= i < |e.queue| ==> e.queue[i] == all[k + i];
    }
  }

  // ----- serving a queue that others push to --------------------------------

  ghost predicate AlwaysSettles(w: World, settled: Batch -> nat) { forall b :: SettledBy(w, b, settled(b)) }

  /** The whole loop: wait for a batch, try it to the end, pop it if it is still
      there, until the queue is closed and empty or a pause is cut short. */
  ghost function Serve(w: World, d: Desk, arrivals: seq<seq<Batch>>, capacity: nat, settled: Batch -> nat): Outcome
    requires AlwaysSettles(w, settled)
    decreases if d.at <= |arrivals| then |arrivals| - d.at else 0, |d.queue|
  {
    if d.queue == [] then
      if d.at >= |arrivals| then Outcome([], [], [], [], [])
      else Serve(w, Suspended(d, arrivals, capacity), arrivals, capacity, settled)
    else
      var b := d.queue[0];
      TriesEnd(w, b, 0, settled(b));
      var (tries, v) := Tries(w, b, 0, settled(b));
      var e := SuspendedFor(d, Suspensions(tries, v), arrivals, capacity);
      if v.Stopped? then Outcome(tries, [], [], [], e.queue)
      else Prepend(tries, b, v, Serve(w, e.(queue := Popped(e.queue, b)), arrivals, capacity, settled))
  }

  /** Whatever is pushed meanwhile, the log of the whole service is paced. */
  lemma {:induction false} ServeIsPaced(w: World, d: Desk, arrivals: seq<seq<Batch>>, capacity: nat, settled: Batch -> nat)
    requires AlwaysSettles(w, settled) && d.at <= |arrivals|
    ensures Paced(w, Serve(w, d, arrivals, capacity, settled).log)
    decreases |arrivals| - d.at, |d.queue|
  {
    hide Serve, Paced, Tries, SettledBy, PushAll, SuspendedFor, Popped;
    ServeNext(w, d, arrivals, capacity, settled);
    if d.queue != [] {
      var b := d.queue[0];
      TriesAre(w, b, settled(b));
      var (tries, v) := Tries(w, b, 0, settled(b));
      var e := SuspendedFor(d, Suspensions(tries, v), arrivals, capacity);
      if !v.Stopped? {
        var next := e.(queue := Popped(e.queue, b));
        ServeIsPaced(w, next, arrivals, capacity, settled);
        PacedConcat(w, tries, Serve(w, next, arrivals, capacity, settled).log);
      }
    } else if d.at < |arrivals| {
      ServeIsPaced(w, Suspended(d, arrivals, capacity), arrivals, capacity, settled);
    } else {
      NothingPaced(w, []);
    }
  }

  lemma NothingPaced(w: World, log: seq<Attempt>)
    requires log == []
    ensures Paced(w, log)
  {
  }

  /** On a closed queue that is the drain. */
  lemma {:induction false} ServeClosedIsDrain(w: World, d: Desk, arrivals: seq<seq<Batch>>, capacity: nat, settled: Batch -> nat)
    requires AlwaysSettles(w, settled) && d.at >= |arrivals|
    ensures Settles(w, d.queue, settled) && Serve(w, d, arrivals, capacity, settled) == Drain(w, d.queue, settled)
    decreases |d.queue|
  {
    hide Tries, SettledBy;
    if d.queue == [] {
      DrainNothing(w, settled);
    } else {
      var b := d.queue[0];
      var v := Tries(w, b, 0, settled(b)).1;
      if !v.Stopped? {
        ServeClosedIsDrain(w, d.(queue := d.queue[1..]), arrivals, capacity, settled);
      }
    }
  }

  // ----- the loops ----------------------------------------------------------

  /** The attempt counter saturates at 32 bits; the delay cannot tell. */
  lemma SaturationIsInvisible(e: WriteError, w: World, k: nat)
    ensures RetryDelay(e, FromMillis(w.initialMs), FromMillis(w.maxMs), Backoff.Min(k, MAX_U32))
         == RetryDelay(e, FromMillis(w.initialMs), FromMillis(w.maxMs), k)
  {
  }

  lemma PushNothing(q: seq<Batch>, none: seq<Batch>, capacity: nat)
    requires none == []
    ensures PushAll(q, none, capacity) == q && Bytes(none) == 0
  {
  }

  lemma PushNext(q: seq<Batch>, pushed: seq<Batch>, i: nat, capacity: nat)
    requires i < |pushed|
    ensures PushAll(q, pushed[..i + 1], capacity) == Pushed(PushAll(q, pushed[..i], capacity), pushed[i], capacity)
    ensures Bytes(pushed[..i + 1]) == Bytes(pushed[..i]) + ByteLen(pushed[i].text)
  {
    assert pushed[..i + 1][..i] == pushed[..i] && pushed[..i + 1] == pushed[..i] + [pushed[i]];
    BytesConcat(pushed[..i], [pushed[i]]);
    BytesOne(pushed[i]);
  }

  /** A push conserves batches and bytes, the evicted ones included. */
  lemma PushCounts(q: seq<Batch>, b: Batch, capacity: nat)
    ensures var n := Evictions(q, ByteLen(b.text), capacity);
      && |Pushed(q, b, capacity)| + n == |q| + 1
      && Bytes(Pushed(q, b, capacity)) + Bytes(q[..n]) == Bytes(q) + ByteLen(b.text)
  {
    PushBytes(q, b, capacity);
  }

  lemma IncomingOne(arrivals: seq<seq<Batch>>, i: nat)
    requires i < |arrivals|
    ensures Incoming(arrivals, i, i + 1) == arrivals[i]
  {
    ConcatNothing(arrivals[i]);
  }

  lemma IncomingNone(arrivals: seq<seq<Batch>>, i: nat)
    ensures Incoming(arrivals, i, i) == [] && Bytes(Incoming(arrivals, i, i)) == 0
  {
  }

  /** One suspension of the writer: the others push, and in the end close. */
  method Suspend(queue: RetryQueue, arrivals: seq<seq<Batch>>, at: nat) returns (next: nat)
    requires queue.Valid() && at <= |arrivals| && (queue.closed <==> at == |arrivals|)
    modifies queue`batches, queue`bytes, queue`closed, queue.notify
    modifies queue.stats`queueBatches, queue.stats`queueBytes, queue.stats`droppedBatches, queue.stats`droppedBytes
    ensures queue.Valid() && next == (if at < |arrivals| then at + 1 else at) && (queue.closed <==> next == |arrivals|)
    ensures Desk(queue.batches, next) == Suspended(Desk(old(queue.batches), at), arrivals, queue.capacity)
    ensures queue.stats.droppedBatches + |queue.batches|
         == old(queue.stats.droppedBatches) + |old(queue.batches)| + |Incoming(arrivals, at, next)|
    ensures queue.stats.droppedBytes + Bytes(queue.batches)
         == old(queue.stats.droppedBytes) + Bytes(old(queue.batches)) + Bytes(Incoming(arrivals, at, next))
  {
    hide Bounded, Payload, ByteLen, Evictions, Pushed, PushAll;
    IncomingNone(arrivals, at);
    if at == |arrivals| {
      return at;
    }
    var pushed := arrivals[at];
    PushNothing(queue.batches, pushed[..0], queue.capacity);
    next := at + 1;
    for i := 0 to |pushed|
      invariant queue.Valid() && queue.closed == old(queue.closed)
      invariant queue.batches == PushAll(old(queue.batches), pushed[..i], queue.capacity)
      invariant queue.stats.droppedBatches + |queue.batches| == old(queue.stats.droppedBatches) + |old(queue.batches)| + i
      invariant queue.stats.droppedBytes + Bytes(queue.batches)
             == old(queue.stats.droppedBytes) + Bytes(old(queue.batches)) + Bytes(pushed[..i])
    {
      PushNext(old(queue.batches), pushed, i, queue.capacity);
      PushCounts(queue.batches, pushed[i], queue.capacity);
      queue.Push(pushed[i]);
    }
    assert pushed[..|pushed|] == pushed;
    IncomingOne(arrivals, at);
    if next == |arrivals| {
      queue.Close();
    }
  }

  /** The desk `m` suspensions after `start`, `dropped` batches having been evicted before,
      and `at` listing what comes next. */
  ghost predicate OnDesk(queue: RetryQueue, arrivals: seq<seq<Batch>>, at: nat, start: Desk, m: nat, dropped: nat)
    reads queue, queue.stats
  {
    && queue.Valid() && start.at <= at <= |arrivals| && (queue.closed <==> at == |arrivals|)
    && Desk(queue.batches, at) == SuspendedFor(start, m, arrivals, queue.capacity)
    && queue.stats.droppedBatches + |queue.batches| == dropped + |start.queue| + |Incoming(arrivals, start.at, at)|
  }

  lemma DeskIs(queue: RetryQueue, arrivals: seq<seq<Batch>>, at: nat, start: Desk, m: nat, dropped: nat)
    requires OnDesk(queue, arrivals, at, start, m, dropped)
    ensures queue.Valid() && start.at <= at <= |arrivals| && (queue.closed <==> at == |arrivals|)
    ensures Desk(queue.batches, at) == SuspendedFor(start, m, arrivals, queue.capacity)
    ensures queue.stats.droppedBatches + |queue.batches| == dropped + |start.queue| + |Incoming(arrivals, start.at, at)|
  {
  }

  lemma StartsOnDesk(queue: RetryQueue, arrivals: seq<seq<Batch>>, at: nat)
    requires queue.Valid() && at <= |arrivals| && (queue.closed <==> at == |arrivals|)
    ensures OnDesk(queue, arrivals, at, Desk(queue.batches, at), 0, queue.stats.droppedBatches)
  {
    IncomingNone(arrivals, at);
    NotSuspended(Desk(queue.batches, at), arrivals, queue.capacity);
  }

  /** The `m + 1`st suspension since `start`. */
  method SuspendAgain(queue: RetryQueue, arrivals: seq<seq<Batch>>, at: nat, ghost start: Desk, ghost m: nat, ghost dropped: nat)
    returns (next: nat)
    requires OnDesk(queue, arrivals, at, start, m, dropped)
    modifies queue`batches, queue`bytes, queue`closed, queue.notify
    modifies queue.stats`queueBatches, queue.stats`queueBytes, queue.stats`droppedBatches, queue.stats`droppedBytes
    ensures OnDesk(queue, arrivals, next, start, m + 1, dropped)
  {
    hide Bounded, Bytes, Suspended, Incoming;
    next := Suspend(queue, arrivals, at);
    IncomingConcat(arrivals, start.at, at, next);
    SuspendedOnce(start, m, arrivals, queue.capacity);
  }

  /** The time of the last write, or `was` without one. */
  function LastWrite(w: World, written: seq<Batch>, was: nat): nat {
    if written == [] then was else w.writtenAt(written[|written| - 1])
  }

  lemma NoWrite(w: World, was: nat)
    ensures LastWrite(w, [], was) == was
  {
  }

  lemma NothingAccepted(w: World)
    ensures Bytes([]) == 0 && forall was: nat :: LastWrite(w, [], was) == was
  {
  }

  /** Record the verdict, then pop the batch if it is still there. */
  method Settle(w: World, queue: RetryQueue, batch: Batch, verdict: Verdict) returns (removed: bool)
    requires queue.Valid() && !verdict.Stopped?
    modifies queue`batches, queue`bytes, queue.stats`queueBatches, queue.stats`queueBytes
    modifies queue.stats`rejectedBatches, queue.stats`writtenBatches, queue.stats`writtenBytes, queue.stats`lastWriteSuccess
    ensures queue.Valid() && queue.batches == Popped(old(queue.batches), batch)
    ensures removed <==> old(queue.batches) != [] && old(queue.batches)[0].addr == batch.addr
    ensures |queue.batches| + (if removed then 1 else 0) == |old(queue.batches)|
    ensures queue.stats.writtenBatches == old(queue.stats.writtenBatches) + if verdict.Wrote? then 1 else 0
    ensures queue.stats.writtenBytes
         == old(queue.stats.writtenBytes) + if verdict.Wrote? then ByteLen(batch.text) else 0
    ensures queue.stats.rejectedBatches == old(queue.stats.rejectedBatches) + if verdict.Refused? then 1 else 0
    ensures queue.stats.lastWriteSuccess
         == LastWrite(w, if verdict.Wrote? then [batch] else [], old(queue.stats.lastWriteSuccess))
  {
    hide Bounded, Bytes, ByteLen;
    if verdict.Wrote? {
      queue.stats.RecordWritten(ByteLen(batch.text), w.writtenAt(batch));
    } else {
      queue.stats.RecordRejected();
    }
    removed := queue.PopIfFront(batch);
  }

  /** What the loop finds when it classifies the answer to try `k`. */
  lemma TriesStep(w: World, b: Batch, k: nat, n: nat)
    requires k <= n && SettledBy(w, b, n)
    ensures var a := w.answer(b, k); var e := Classify(a);
      if e.None? || !IsRetryable(e.value)
      then Tries(w, b, k, n) == ([Attempt(b, a, None)], if e.None? then Wrote else Refused)
      else
        && k < n
        && Try(w, b, k) == Attempt(b, a, Some(RetryDelay(e.value, FromMillis(w.initialMs), FromMillis(w.maxMs), k)))
        && Tries(w, b, k, n)
           == if w.stop(b, k) then ([Try(w, b, k)], Stopped)
              else ([Try(w, b, k)] + Tries(w, b, k + 1, n).0, Tries(w, b, k + 1, n).1)
  {
    hide RetryDelay, Classify;
    TriesNext(w, b, k, n);
  }

  /** One try: the POST, and after a transient answer the pause, which the stop signal may
      cut short. `None` is the wish to try again. */
  method TryOnce(w: World, queue: RetryQueue, batch: Batch, k: nat, attempt: nat, arrivals: seq<seq<Batch>>, at: nat,
                 ghost n: nat, ghost start: Desk, ghost dropped: nat)
    returns (entry: Attempt, verdict: Option<Verdict>, next: nat)
    requires attempt == Backoff.Min(k, MAX_U32) && k <= n && SettledBy(w, batch, n)
    requires OnDesk(queue, arrivals, at, start, 2 * k, dropped)
    modifies queue`batches, queue`bytes, queue`closed, queue.notify
    modifies queue.stats`queueBatches, queue.stats`queueBytes, queue.stats`droppedBatches, queue.stats`droppedBytes
    ensures OnDesk(queue, arrivals, next, start, 2 * k + if entry.wait.Some? then 2 else 1, dropped)
    ensures verdict.Some? ==> (verdict.value.Stopped? <==> entry.wait.Some?)
    ensures verdict.None? ==> k < n && entry.wait.Some?
    ensures Tries(w, batch, k, n)
         == if verdict.Some? then ([entry], verdict.value)
            else ([entry] + Tries(w, batch, k + 1, n).0, Tries(w, batch, k + 1, n).1)
  {
    hide OnDesk, Tries, Try, Classify, IsRetryable, RetryDelay, SettledBy;
    TriesStep(w, batch, k, n);
    next := SuspendAgain(queue, arrivals, at, start, 2 * k, dropped);
    var answer := w.answer(batch, k);
    var error := Classify(answer);
    if error.None? || !IsRetryable(error.value) {
      return Attempt(batch, answer, None), Some(if error.None? then Wrote else Refused), next;
    }
    var delay := RetryDelay(error.value, FromMillis(w.initialMs), FromMillis(w.maxMs), attempt);
    SaturationIsInvisible(error.value, w, k);
    entry := Attempt(batch, answer, Some(delay));
    next := SuspendAgain(queue, arrivals, next, start, 2 * k + 1, dropped);
    verdict := if w.stop(batch, k) then Some(Stopped) else None;
  }

  /** The inner loop: one batch until the server settles it or shutdown wins. Others
      may push throughout; `removed` says whether the batch was still there to pop. */
  method TryBatch(w: World, queue: RetryQueue, batch: Batch, arrivals: seq<seq<Batch>>, at: nat, ghost n: nat)
    returns (tries: seq<Attempt>, verdict: Verdict, next: nat, removed: bool)
    requires queue.Valid() && at <= |arrivals| && (queue.closed <==> at == |arrivals|)
    requires SettledBy(w, batch, n)
    modifies queue`batches, queue`bytes, queue`closed, queue.notify
    modifies queue.stats`queueBatches, queue.stats`queueBytes, queue.stats`droppedBatches, queue.stats`droppedBytes
    modifies queue.stats`rejectedBatches, queue.stats`writtenBatches, queue.stats`writtenBytes, queue.stats`lastWriteSuccess
    ensures queue.Valid() && next <= |arrivals| && (queue.closed <==> next == |arrivals|)
    ensures (tries, verdict) == Tries(w, batch, 0, n)
    ensures forall i :: 0 <= i < |tries| ==> IsTry(w, tries[i], batch, i)
    ensures var e := SuspendedFor(Desk(old(queue.batches), at), Suspensions(tries, verdict), arrivals, queue.capacity);
      && next == e.at
      && queue.batches == (if verdict.Stopped? then e.queue else Popped(e.queue, batch))
      && (removed <==> !verdict.Stopped? && e.queue != [] && e.queue[0].addr == batch.addr)
    ensures queue.stats.writtenBatches == old(queue.stats.writtenBatches) + if verdict.Wrote? then 1 else 0
    ensures queue.stats.writtenBytes
         == old(queue.stats.writtenBytes) + if verdict.Wrote? then ByteLen(batch.text) else 0
    ensures queue.stats.rejectedBatches == old(queue.stats.rejectedBatches) + if verdict.Refused? then 1 else 0
    ensures queue.stats.lastWriteSuccess
         == LastWrite(w, if verdict.Wrote? then [batch] else [], old(queue.stats.lastWriteSuccess))
    ensures queue.stats.droppedBatches + |queue.batches| + (if removed then 1 else 0)
         == old(queue.stats.droppedBatches) + |old(queue.batches)| + |Incoming(arrivals, at, next)|
  {
    hide OnDesk, RetryQueue.Valid, Tries, SettledBy, IsTry, GoesOn, Paced, Popped, SuspendedFor, Incoming, ByteLen, LastWrite;
    NoWrite(w, queue.stats.lastWriteSuccess);
    StartsOnDesk(queue, arrivals, at);
    ghost var start, dropped := Desk(queue.batches, at), queue.stats.droppedBatches;
    var attempt, k := 0, 0;
    tries, next, removed := [], at, false;
    while true
      invariant attempt == Backoff.Min(k, MAX_U32) && k <= n && |tries| == k
      invariant tries + Tries(w, batch, k, n).0 == Tries(w, batch, 0, n).0
      invariant Tries(w, batch, k, n).1 == Tries(w, batch, 0, n).1
      invariant OnDesk(queue, arrivals, next, start, 2 * k, dropped)
      invariant queue.stats.writtenBatches == old(queue.stats.writtenBatches)
      invariant queue.stats.writtenBytes == old(queue.stats.writtenBytes)
      invariant queue.stats.rejectedBatches == old(queue.stats.rejectedBatches)
      invariant queue.stats.lastWriteSuccess == old(queue.stats.lastWriteSuccess)
      decreases n - k
    {
      var entry, outcome;
      entry, outcome, next := TryOnce(w, queue, batch, k, attempt, arrivals, next, n, start, dropped);
      ghost var before := tries;
      tries := tries + [entry];
      if outcome.Some? {
        verdict := outcome.value;
        DeskIs(queue, arrivals, next, start, Suspensions(tries, verdict), dropped);
        break;
      }
      ConcatAssoc(before, [entry], Tries(w, batch, k + 1, n).0);
      if attempt < MAX_U32 {
        attempt := attempt + 1;
      }
      k := k + 1;
    }
    TriesAre(w, batch, n);
    if !verdict.Stopped? {
      removed := Settle(w, queue, batch, verdict);
    }
  }

  lemma NotSuspended(d: Desk, arrivals: seq<seq<Batch>>, capacity: nat)
    ensures SuspendedFor(d, 0, arrivals, capacity) == d
  {
  }

  lemma SuspendedOnce(d: Desk, n: nat, arrivals: seq<seq<Batch>>, capacity: nat)
    ensures SuspendedFor(d, n + 1, arrivals, capacity) == Suspended(SuspendedFor(d, n, arrivals, capacity), arrivals, capacity)
  {
  }

  lemma {:induction false} IncomingConcat(arrivals: seq<seq<Batch>>, i: nat, j: nat, k: nat)
    requires i <= j <= k <= |arrivals|
    ensures Incoming(arrivals, i, k) == Incoming(arrivals, i, j) + Incoming(arrivals, j, k)
    decreases k
  {
    if j < k {
      IncomingConcat(arrivals, i, j, k - 1);
    }
  }

  /** The outer loop, from any queue and with any pushes while it is suspended. Not
      every settled batch is popped: `removed` counts those that were still there. */
  method RunWriter(w: World, queue: RetryQueue, arrivals: seq<seq<Batch>>, ghost settled: Batch -> nat)
    returns (log: seq<Attempt>, drained: bool, ghost removed: nat, ghost next: nat)
    requires queue.Valid() && (queue.closed <==> arrivals == [])
    requires AlwaysSettles(w, settled)
    modifies queue`batches, queue`bytes, queue`closed, queue.notify
    modifies queue.stats`queueBatches, queue.stats`queueBytes, queue.stats`droppedBatches, queue.stats`droppedBytes
    modifies queue.stats`rejectedBatches, queue.stats`writtenBatches, queue.stats`writtenBytes, queue.stats`lastWriteSuccess
    ensures queue.Valid() && next <= |arrivals|
    ensures Paced(w, log)
    ensures var o := Serve(w, Desk(old(queue.batches), 0), arrivals, queue.capacity, settled);
      && log == o.log && queue.batches == o.left && (drained <==> o.left == [])
      && queue.stats.writtenBatches == old(queue.stats.writtenBatches) + |o.accepted|
      && queue.stats.writtenBytes == old(queue.stats.writtenBytes) + Bytes(o.accepted)
      && queue.stats.rejectedBatches == old(queue.stats.rejectedBatches) + |o.rejected|
      && queue.stats.lastWriteSuccess == LastWrite(w, o.accepted, old(queue.stats.lastWriteSuccess))
      && removed <= |o.done|
    ensures queue.stats.droppedBatches + |queue.batches| + removed
         == old(queue.stats.droppedBatches) + |old(queue.batches)| + |Incoming(arrivals, 0, next)|
    ensures drained ==> next == |arrivals| && queue.closed
  {
    hide Tries, ByteLen, Bytes, SettledBy, Bounded, Serve, Suspended, SuspendedFor, Suspensions, Popped, Incoming, Paced,
         LastWrite, IsTry;
    NothingAccepted(w);
    ServeIsPaced(w, Desk(queue.batches, 0), arrivals, queue.capacity, settled);
    IncomingNone(arrivals, 0);
    log := [];
    var at := 0;
    removed, next := 0, 0;
    ghost var whole := Serve(w, Desk(queue.batches, 0), arrivals, queue.capacity, settled);
    ghost var written, writtenBytes, rejected, settledCount := 0, 0, 0, 0;
    while true
      invariant queue.Valid() && at == next <= |arrivals| && (queue.closed <==> at == |arrivals|)
      invariant var o := Serve(w, Desk(queue.batches, at), arrivals, queue.capacity, settled);
        && log + o.log == whole.log && o.left == whole.left
        && written + |o.accepted| == |whole.accepted|
        && writtenBytes + Bytes(o.accepted) == Bytes(whole.accepted)
        && rejected + |o.rejected| == |whole.rejected|
        && settledCount + |o.done| == |whole.done| && removed <= settledCount
        && LastWrite(w, o.accepted, queue.stats.lastWriteSuccess) == LastWrite(w, whole.accepted, old(queue.stats.lastWriteSuccess))
      invariant queue.stats.writtenBatches == old(queue.stats.writtenBatches) + written
      invariant queue.stats.writtenBytes == old(queue.stats.writtenBytes) + writtenBytes
      invariant queue.stats.rejectedBatches == old(queue.stats.rejectedBatches) + rejected
      invariant queue.stats.droppedBatches + |queue.batches| + removed
             == old(queue.stats.droppedBatches) + |old(queue.batches)| + |Incoming(arrivals, 0, at)|
      decreases |arrivals| - at, |queue.batches|
    {
      ghost var d := Desk(queue.batches, at);
      ServeNext(w, d, arrivals, queue.capacity, settled);
      var front := queue.Peek();
      if front.None? {
        if queue.closed {
          ConcatNothing(log);
          return log, true, removed, at;
        }
        at := Suspend(queue, arrivals, at);
        IncomingConcat(arrivals, 0, d.at, at);
        next := at;
      } else {
        ghost var n := settled(front.value);
        assert SettledBy(w, front.value, n);
        var tries, verdict, after, popped := TryBatch(w, queue, front.value, arrivals, at, n);
        at := after;
        next := at;
        IncomingConcat(arrivals, 0, d.at, at);
        ghost var rest := Serve(w, Desk(queue.batches, at), arrivals, queue.capacity, settled);
        ConcatAssoc(log, tries, rest.log);
        PrependBytes(front.value, rest.accepted);
        PrependLast(w, front.value, rest.accepted);
        LastOf(w, front.value);
        log := log + tries;
        if verdict.Stopped? {
          ConcatNothing(log);
          return log, false, removed, at;
        }
        settledCount := settledCount + 1;
        if popped {
          removed := removed + 1;
        }
        if verdict.Wrote? {
          written, writtenBytes := written + 1, writtenBytes + ByteLen(front.value.text);
        } else {
          rejected := rejected + 1;
        }
      }
    }
  }

  /** What one round of the outer loop does. */
  lemma ServeNext(w: World, d: Desk, arrivals: seq<seq<Batch>>, capacity: nat, settled: Batch -> nat)
    requires AlwaysSettles(w, settled) && d.at <= |arrivals|
    ensures d.queue == [] && d.at == |arrivals| ==>
      Serve(w, d, arrivals, capacity, settled) == Outcome([], [], [], [], [])
    ensures d.queue == [] && d.at < |arrivals| ==>
      Serve(w, d, arrivals, capacity, settled) == Serve(w, Suspended(d, arrivals, capacity), arrivals, capacity, settled)
    ensures d.queue != [] ==>
      var b := d.queue[0];
      && SettledBy(w, b, settled(b))
      && var (tries, v) := Tries(w, b, 0, settled(b));
         var e := SuspendedFor(d, Suspensions(tries, v), arrivals, capacity);
         && (v.Stopped? ==> e.queue != [])
         && (e.at == d.at ==> d.at == |arrivals| && e == d && Popped(e.queue, b) == d.queue[1..])
         && Serve(w, d, arrivals, capacity, settled)
            == if v.Stopped? then Outcome(tries, [], [], [], e.queue)
               else Prepend(tries, b, v, Serve(w, e.(queue := Popped(e.queue, b)), arrivals, capacity, settled))
  {
    if d.queue != [] {
      var b := d.queue[0];
      TriesEnd(w, b, 0, settled(b));
      var (tries, v) := Tries(w, b, 0, settled(b));
      SuspendedIsSuffix(d, Suspensions(tries, v), arrivals, capacity);
    }
  }

  lemma DrainNothing(w: World, settled: Batch -> nat)
    ensures Settles(w, [], settled) && Drain(w, [], settled) == Outcome([], [], [], [], [])
  {
  }

  lemma DrainNext(w: World, q: seq<Batch>, settled: Batch -> nat)
    requires q != [] && Settles(w, q, settled)
    ensures SettledBy(w, q[0], settled(q[0])) && Settles(w, q[1..], settled)
    ensures var (tries, v) := Tries(w, q[0], 0, settled(q[0]));
      Drain(w, q, settled) == if v.Stopped? then Outcome(tries, [], [], [], q)
                              else Prepend(tries, q[0], v, Drain(w, q[1..], settled))
  {
    hide Tries, SettledBy;
  }

  lemma PrependLast(w: World, b: Batch, q: seq<Batch>)
    ensures forall was: nat :: LastWrite(w, [b] + q, was) == LastWrite(w, q, w.writtenAt(b))
  {
  }

  lemma LastOf(w: World, b: Batch)
    ensures forall was: nat :: LastWrite(w, [b], was) == w.writtenAt(b)
  {
  }

  lemma PrependBytes(b: Batch, q: seq<Batch>)
    ensures Bytes([b] + q) == ByteLen(b.text) + Bytes(q)
  {
    assert ([b] + q)[1..] == q;
  }
}
