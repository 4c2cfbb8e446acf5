/** The loop that groups published results into batches and queues them. */
module Batcher {
  import opened Text
  import opened Results
  import opened LineProtocol
  import opened RetryQueues

  // ----- one event ----------------------------------------------------------

  /** What the select loop woke up for, and when. */
  datatype Arrival = Got(result: ProbeResult) | Lagged(missed: nat) | Closed | Deadline
  datatype Event = Event(at: nat, what: Arrival)

  /** The buffer afterwards, and the batch handed over, if any. */
  datatype Step = Step(buffer: seq<ProbeResult>, flushed: seq<seq<ProbeResult>>)

  /** A flush of an empty buffer does nothing. */
  function OnFlush(buffer: seq<ProbeResult>): Step {
    if buffer == [] then Step([], []) else Step([], [buffer])
  }

  function OnResult(buffer: seq<ProbeResult>, r: ProbeResult, batchSize: nat): Step {
    if |buffer| + 1 >= batchSize then OnFlush(buffer + [r]) else Step(buffer + [r], [])
  }

  /** What one wake-up does to the buffer. */
  function Effect(buffer: seq<ProbeResult>, what: Arrival, batchSize: nat): Step {
    match what
    case Got(r) => OnResult(buffer, r, batchSize)
    case Lagged(_) => Step(buffer, [])
    case Closed => OnFlush(buffer)
    case Deadline => OnFlush(buffer)
  }

  /** The flush timer restarts after a full batch and after it fires. */
  function NextDeadline(deadline: nat, e: Event, s: Step, timeout: nat): nat {
    if e.what.Deadline? || (e.what.Got? && s.flushed != []) then e.at + timeout else deadline
  }

  // ----- a whole run --------------------------------------------------------

  /** `since` is when the first buffered result arrived. */
  datatype Run = Run(buffer: seq<ProbeResult>, parts: seq<seq<ProbeResult>>,
                     deadline: nat, since: nat, closed: bool)

  function Handle(b: Run, e: Event, batchSize: nat, timeout: nat): Run {
    if b.closed then b
    else
      var s := Effect(b.buffer, e.what, batchSize);
      Run(s.buffer, b.parts + s.flushed, NextDeadline(b.deadline, e, s, timeout),
          if b.buffer == [] then e.at else b.since, e.what.Closed?)
  }

  function After(script: seq<Event>, batchSize: nat, timeout: nat, start: nat): Run {
    if script == [] then Run([], [], start + timeout, start, false)
    else Handle(After(script[..|script| - 1], batchSize, timeout, start), script[|script| - 1], batchSize, timeout)
  }

  /** The results delivered before the hub closed. */
  function Delivered(script: seq<Event>): seq<ProbeResult> {
    if script == [] then []
    else
      var front := script[..|script| - 1];
      var last := script[|script| - 1].what;
      Delivered(front) + if last.Got? && !HasClosed(front) then [last.result] else []
  }

  predicate HasClosed(script: seq<Event>) { exists e :: e in script && e.what.Closed? }

  function Flatten<T>(parts: seq<seq<T>>): seq<T> {
    if parts == [] then [] else Flatten(parts[..|parts| - 1]) + parts[|parts| - 1]
  }

  lemma FlattenNext<T>(parts: seq<seq<T>>, more: seq<seq<T>>)
    requires |more| <= 1
    ensures Flatten(parts + more) == Flatten(parts) + if more == [] then [] else more[0]
  {
    if more == [] {
      assert parts + more == parts;
    } else {
      assert (parts + more)[..|parts|] == parts;
    }
  }

  function Cap(batchSize: nat): nat { if batchSize == 0 then 1 else batchSize }

  predicate GoodParts(parts: seq<seq<ProbeResult>>, batchSize: nat) {
    forall i :: 0 <= i < |parts| ==> 1 <= |parts[i]| <= Cap(batchSize)
  }

  lemma {:induction false} HasClosedNext(script: seq<Event>)
    requires script != []
    ensures HasClosed(script) <==> HasClosed(script[..|script| - 1]) || script[|script| - 1].what.Closed?
  {
    var front, last := script[..|script| - 1], script[|script| - 1];
    assert script == front + [last];
  }

  /** Batching is a partition: the batches and the buffer, concatenated, are the
      delivered results in order; batches hold 1 to `batch_size` results; the
      buffer is shorter than a batch whenever the loop waits, and empty once the
      hub has closed. */
  lemma {:induction false} BatchingIsAPartition(script: seq<Event>, batchSize: nat, timeout: nat, start: nat)
    ensures var b := After(script, batchSize, timeout, start);
      && Flatten(b.parts) + b.buffer == Delivered(script)
      && GoodParts(b.parts, batchSize)
      && |b.buffer| < Cap(batchSize)
      && (b.closed <==> HasClosed(script))
      && (b.closed ==> b.buffer == [])
  {
    if script != [] {
      var front, e := script[..|script| - 1], script[|script| - 1];
      BatchingIsAPartition(front, batchSize, timeout, start);
      HasClosedNext(script);
      var b := After(front, batchSize, timeout, start);
      HandleKeepsPartition(b, e, batchSize, timeout);
    }
  }

  lemma EffectKeepsPartition(buffer: seq<ProbeResult>, what: Arrival, batchSize: nat)
    requires |buffer| < Cap(batchSize)
    ensures var s := Effect(buffer, what, batchSize);
      && |s.flushed| <= 1 && GoodParts(s.flushed, batchSize) && |s.buffer| < Cap(batchSize)
      && (what.Closed? ==> s.buffer == [])
      && (if s.flushed == [] then [] else s.flushed[0]) + s.buffer
         == buffer + (if what.Got? then [what.result] else [])
  {
  }

  lemma HandleKeepsPartition(b: Run, e: Event, batchSize: nat, timeout: nat)
    requires GoodParts(b.parts, batchSize) && |b.buffer| < Cap(batchSize) && (b.closed ==> b.buffer == [])
    ensures var c := Handle(b, e, batchSize, timeout);
      && Flatten(c.parts) + c.buffer
         == Flatten(b.parts) + b.buffer + (if e.what.Got? && !b.closed then [e.what.result] else [])
      && GoodParts(c.parts, batchSize)
      && |c.buffer| < Cap(batchSize)
      && (c.closed <==> b.closed || e.what.Closed?)
      && (c.closed ==> c.buffer == [])
  {
    hide OnResult, OnFlush, Effect, Flatten;
    if !b.closed {
      var s := Effect(b.buffer, e.what, batchSize);
      EffectKeepsPartition(b.buffer, e.what, batchSize);
      FlattenNext(b.parts, s.flushed);
      var last := if s.flushed == [] then [] else s.flushed[0];
      assert Flatten(b.parts) + last + s.buffer == Flatten(b.parts) + (last + s.buffer);
      assert Flatten(b.parts) + (b.buffer + (if e.what.Got? then [e.what.result] else []))
          == Flatten(b.parts) + b.buffer + (if e.what.Got? then [e.what.result] else []);
    }
  }

  /** How many batches are not full. */
  function Short(parts: seq<seq<ProbeResult>>, batchSize: nat): nat {
    if parts == [] then 0
    else
      var n := |parts| - 1;
      Short(parts[..n], batchSize) + if |parts[n]| < Cap(batchSize) then 1 else 0
  }

  /** How often the timer fired or the hub closed. */
  function Occasions(script: seq<Event>): nat {
    if script == [] then 0
    else
      var n := |script| - 1;
      Occasions(script[..n]) + if script[n].what.Deadline? || script[n].what.Closed? then 1 else 0
  }

  /** A batch goes out unfilled only because its time had come or the hub closed:
      each such occasion accounts for at most one. */
  lemma {:induction false} ShortBatchesAreTimed(script: seq<Event>, batchSize: nat, timeout: nat, start: nat)
    ensures Short(After(script, batchSize, timeout, start).parts, batchSize) <= Occasions(script)
  {
    hide Effect, GoodParts, Delivered, Flatten;
    if script != [] {
      var n := |script| - 1;
      ShortBatchesAreTimed(script[..n], batchSize, timeout, start);
      BatchingIsAPartition(script[..n], batchSize, timeout, start);
      var b := After(script[..n], batchSize, timeout, start);
      var s := Effect(b.buffer, script[n].what, batchSize);
      ShortOnOccasion(b.buffer, script[n].what, batchSize);
      ShortNext(b.parts, s.flushed, batchSize);
    }
  }

  lemma ShortOnOccasion(buffer: seq<ProbeResult>, what: Arrival, batchSize: nat)
    requires |buffer| < Cap(batchSize)
    ensures var s := Effect(buffer, what, batchSize);
      |s.flushed| <= 1 && (s.flushed != [] && |s.flushed[0]| < Cap(batchSize) ==> what.Deadline? || what.Closed?)
  {
  }

  lemma ShortNext(parts: seq<seq<ProbeResult>>, more: seq<seq<ProbeResult>>, batchSize: nat)
    requires |more| <= 1
    ensures Short(parts + more, batchSize)
         == Short(parts, batchSize) + if more != [] && |more[0]| < Cap(batchSize) then 1 else 0
  {
    if more == [] {
      ConcatNothing(parts);
    } else {
      assert (parts + more)[..|parts|] == parts;
    }
  }

  /** Events come in time order. */
  predicate InOrder(script: seq<Event>, start: nat) {
    && (forall i :: 0 <= i < |script| ==> start <= script[i].at)
    && (forall i, j :: 0 <= i < j < |script| ==> script[i].at <= script[j].at)
  }

  /** No result waits longer than the timeout for its flush to become due. */
  lemma {:induction false} DeadlineBound(script: seq<Event>, batchSize: nat, timeout: nat, start: nat)
    requires InOrder(script, start)
    ensures var b := After(script, batchSize, timeout, start);
      && (b.buffer != [] ==> b.deadline <= b.since + timeout)
      && b.deadline <= (if script == [] then start else script[|script| - 1].at) + timeout
  {
    if script != [] {
      DeadlineBound(script[..|script| - 1], batchSize, timeout, start);
    }
  }

  /** When the timer was last restarted: at the last event at which it fired, or at
      which a result made a batch go out. */
  function LastRestart(script: seq<Event>, batchSize: nat, timeout: nat, start: nat): nat {
    if script == [] then start
    else
      var n := |script| - 1;
      var sent := |After(script, batchSize, timeout, start).parts| > |After(script[..n], batchSize, timeout, start).parts|;
      if script[n].what.Deadline? || (script[n].what.Got? && sent) then script[n].at
      else LastRestart(script[..n], batchSize, timeout, start)
  }

  /** Up to the close the timer is due exactly one timeout after its last restart. */
  lemma {:induction false} TimerRestarts(script: seq<Event>, batchSize: nat, timeout: nat, start: nat)
    requires !After(script, batchSize, timeout, start).closed
    ensures After(script, batchSize, timeout, start).deadline == timeout + LastRestart(script, batchSize, timeout, start)
  {
    hide Effect;
    if script != [] {
      TimerRestarts(script[..|script| - 1], batchSize, timeout, start);
    }
  }

  /** When the buffered results arrived. */
  function Arrivals(script: seq<Event>, batchSize: nat, timeout: nat, start: nat): seq<nat> {
    if script == [] then []
    else
      var n := |script| - 1;
      var b := After(script[..n], batchSize, timeout, start);
      if After(script, batchSize, timeout, start).buffer == [] then []
      else if script[n].what.Got? && !b.closed then Arrivals(script[..n], batchSize, timeout, start) + [script[n].at]
      else Arrivals(script[..n], batchSize, timeout, start)
  }

  /** The timer is never overtaken: no event is handled after a due deadline. */
  predicate Punctual(script: seq<Event>, batchSize: nat, timeout: nat, start: nat) {
    script != [] ==>
      var n := |script| - 1;
      && Punctual(script[..n], batchSize, timeout, start)
      && script[n].at <= After(script[..n], batchSize, timeout, start).deadline
  }

  /** While the loop keeps up with its timer no result waits longer than the timeout:
      whenever an event is handled, and so also when a batch goes out, everything
      buffered arrived at most the timeout before. */
  lemma {:induction false} WaitIsBounded(script: seq<Event>, next: Event, batchSize: nat, timeout: nat, start: nat)
    requires InOrder(script + [next], start) && Punctual(script + [next], batchSize, timeout, start)
    ensures var b := After(script, batchSize, timeout, start); var times := Arrivals(script, batchSize, timeout, start);
      |times| == |b.buffer| && forall i :: 0 <= i < |times| ==> times[i] <= next.at <= times[i] + timeout
  {
    var all := script + [next];
    assert all[..|script|] == script && all[|script|] == next;
    assert InOrder(script, start);
    DeadlineBound(script, batchSize, timeout, start);
    ArrivalsFollowSince(script, batchSize, timeout, start);
  }

  lemma BufferAfter(buffer: seq<ProbeResult>, what: Arrival, batchSize: nat)
    ensures var b := Effect(buffer, what, batchSize).buffer;
      b == [] || b == if what.Got? then buffer + [what.result] else buffer
  {
  }

  /** There is an arrival time for each buffered result, none before `since`. */
  lemma {:induction false} ArrivalsFollowSince(script: seq<Event>, batchSize: nat, timeout: nat, start: nat)
    requires InOrder(script, start)
    ensures var b := After(script, batchSize, timeout, start); var times := Arrivals(script, batchSize, timeout, start);
      && |times| == |b.buffer|
      && forall i :: 0 <= i < |times| ==> b.since <= times[i] <= script[|script| - 1].at
  {
    hide Effect, NextDeadline;
    if script != [] {
      var n := |script| - 1;
      var front, e := script[..n], script[n];
      ArrivalsFollowSince(front, batchSize, timeout, start);
      BufferAfter(After(front, batchSize, timeout, start).buffer, e.what, batchSize);
      var b, was := After(script, batchSize, timeout, start), After(front, batchSize, timeout, start);
      var before := Arrivals(front, batchSize, timeout, start);
      assert forall i :: 0 <= i < |before| ==> was.since <= before[i] <= front[n - 1].at <= e.at;
      assert before != [] ==> was.since <= before[0];
    }
  }

  // ----- the loop over the shared queue -------------------------------------

  /** The queue after pushing the rendered parts one by one; every batch is a new
      allocation. */
  function PushParts(q: seq<Batch>, parts: seq<seq<ProbeResult>>, firstAddr: nat, capacity: nat): seq<Batch> {
    if parts == [] then q
    else
      var n := |parts| - 1;
      Pushed(PushParts(q, parts[..n], firstAddr, capacity), Batch(firstAddr + n, Body(parts[n])), capacity)
  }

  lemma PushPartsNext(q: seq<Batch>, parts: seq<seq<ProbeResult>>, more: seq<seq<ProbeResult>>, firstAddr: nat, capacity: nat)
    requires |more| <= 1
    ensures PushParts(q, parts + more, firstAddr, capacity)
      == if more == [] then PushParts(q, parts, firstAddr, capacity)
         else Pushed(PushParts(q, parts, firstAddr, capacity), Batch(firstAddr + |parts|, Body(more[0])), capacity)
  {
    hide Body, Pushed;
    if more == [] {
      assert parts + more == parts;
    } else {
      assert (parts + more)[..|parts|] == parts;
    }
  }

  lemma NoParts(q: seq<Batch>, addr: nat, capacity: nat)
    ensures PushParts(q, [], addr, capacity) == q
  {
  }

  lemma OnePart(q: seq<Batch>, part: seq<ProbeResult>, addr: nat, capacity: nat)
    ensures PushParts(q, [part], addr, capacity) == Pushed(q, Batch(addr, Body(part)), capacity)
  {
    hide Body, Pushed;
    assert [part][..0] == [];
    assert PushParts(q, [part][..0], addr, capacity) == q;
  }

  /** Renders each buffered result and joins the lines. */
  method RenderBody(buffer: seq<ProbeResult>) returns (body: string)
    ensures body == Body(buffer)
  {
    hide Line;
    var lines: seq<string> := [];
    for i := 0 to |buffer|
      invariant lines == Lines(buffer[..i])
    {
      var line := ToLineProtocol(buffer[i]);
      lines := lines + [line];
      assert lines == Lines(buffer[..i + 1]);
    }
    assert buffer[..|buffer|] == buffer;
    body := Join(lines);
  }

  /** Hands a non-empty buffer to the queue and clears it. */
  method Enqueue(queue: RetryQueue, buffer: seq<ProbeResult>, nextAddr: nat) returns (cleared: seq<ProbeResult>, addr: nat)
    requires queue.Valid()
    modifies queue`batches, queue`bytes, queue.notify
    modifies queue.stats`queueBatches, queue.stats`queueBytes, queue.stats`droppedBatches, queue.stats`droppedBytes
    ensures queue.Valid() && queue.closed == old(queue.closed)
    ensures cleared == OnFlush(buffer).buffer
    ensures addr == nextAddr + |OnFlush(buffer).flushed|
    ensures queue.batches == PushParts(old(queue.batches), OnFlush(buffer).flushed, nextAddr, queue.capacity)
  {
    hide Body, Pushed, PushParts, Line;
    NoParts(queue.batches, nextAddr, queue.capacity);
    OnePart(queue.batches, buffer, nextAddr, queue.capacity);
    if buffer == [] {
      return [], nextAddr;
    }
    var body := RenderBody(buffer);
    queue.Push(Batch(nextAddr, body));
    return [], nextAddr + 1;
  }

  /** One arm of the select loop. */
  method OnEvent(e: Event, queue: RetryQueue, buffer: seq<ProbeResult>, deadline: nat,
                 batchSize: nat, timeout: nat, nextAddr: nat)
    returns (after: seq<ProbeResult>, newDeadline: nat, addr: nat)
    requires queue.Valid()
    modifies queue`batches, queue`bytes, queue`closed, queue.notify
    modifies queue.stats`queueBatches, queue.stats`queueBytes, queue.stats`droppedBatches, queue.stats`droppedBytes
    ensures queue.Valid()
    ensures var s := Effect(buffer, e.what, batchSize);
      && after == s.buffer && newDeadline == NextDeadline(deadline, e, s, timeout)
      && queue.batches == PushParts(old(queue.batches), s.flushed, nextAddr, queue.capacity)
      && addr == nextAddr + |s.flushed|
      && (queue.closed <==> old(queue.closed) || e.what.Closed?)
  {
    hide Body, Pushed, PushParts;
    NoParts(queue.batches, nextAddr, queue.capacity);
    after, newDeadline, addr := buffer, deadline, nextAddr;
    match e.what {
      case Got(r) =>
        after := after + [r];
        if |after| >= batchSize {
          after, addr := Enqueue(queue, after, addr);
          newDeadline := e.at + timeout;
        }
      case Lagged(_) =>
      case Closed =>
        after, addr := Enqueue(queue, after, addr);
        queue.Close();
      case Deadline =>
        after, addr := Enqueue(queue, after, addr);
        newDeadline := e.at + timeout;
    }
  }

  /** The batcher's select loop, driven by the events it wakes up for. It stops at
      the first `Closed`, after queueing what it holds and closing the queue. */
  method RunBatcher(script: seq<Event>, queue: RetryQueue, batchSize: nat, timeout: nat, start: nat, firstAddr: nat)
    returns (buffer: seq<ProbeResult>, deadline: nat)
    requires queue.Valid()
    modifies queue`batches, queue`bytes, queue`closed, queue.notify
    modifies queue.stats`queueBatches, queue.stats`queueBytes, queue.stats`droppedBatches, queue.stats`droppedBytes
    ensures queue.Valid()
    ensures var b := After(script, batchSize, timeout, start);
      && buffer == b.buffer && deadline == b.deadline
      && queue.batches == PushParts(old(queue.batches), b.parts, firstAddr, queue.capacity)
      && (queue.closed <==> old(queue.closed) || b.closed)
  {
    hide Body, Pushed, PushParts, Effect, NextDeadline, After;
    AfterNothing(batchSize, timeout, start);
    NoParts(queue.batches, firstAddr, queue.capacity);
    buffer, deadline := [], start + timeout;
    var addr := firstAddr;
    var i := 0;
    var running := true;
    assert script[..0] == [];
    while i < |script| && running
      invariant 0 <= i <= |script|
      invariant queue.Valid()
      invariant var b := After(script[..i], batchSize, timeout, start);
        && buffer == b.buffer && deadline == b.deadline && running == !b.closed
        && queue.batches == PushParts(old(queue.batches), b.parts, firstAddr, queue.capacity)
        && addr == firstAddr + |b.parts|
        && (queue.closed <==> old(queue.closed) || b.closed)
    {
      ghost var b := After(script[..i], batchSize, timeout, start);
      var e := script[i];
      AfterNext(script, i, batchSize, timeout, start);
      NoParts(queue.batches, addr, queue.capacity);
      EffectFlushesOnce(buffer, e.what, batchSize);
      ghost var flushed := Effect(buffer, e.what, batchSize).flushed;
      PushPartsNext(old(queue.batches), b.parts, flushed, firstAddr, queue.capacity);
      PushPartsNext(queue.batches, [], flushed, addr, queue.capacity);
      assert [] + flushed == flushed;
      buffer, deadline, addr := OnEvent(e, queue, buffer, deadline, batchSize, timeout, addr);
      running := !e.what.Closed?;
      i := i + 1;
    }
    AfterClosed(script, i, batchSize, timeout, start);
  }

  lemma AfterNothing(batchSize: nat, timeout: nat, start: nat)
    ensures After([], batchSize, timeout, start) == Run([], [], start + timeout, start, false)
  {
  }

  lemma AfterNext(script: seq<Event>, i: nat, batchSize: nat, timeout: nat, start: nat)
    requires i < |script|
    ensures After(script[..i + 1], batchSize, timeout, start)
         == Handle(After(script[..i], batchSize, timeout, start), script[i], batchSize, timeout)
  {
    hide Handle;
    assert script[..i + 1][..i] == script[..i];
  }

  lemma EffectFlushesOnce(buffer: seq<ProbeResult>, what: Arrival, batchSize: nat)
    ensures |Effect(buffer, what, batchSize).flushed| <= 1
  {
  }

  /** Nothing happens after the hub has closed. */
  lemma {:induction false} AfterClosed(script: seq<Event>, i: nat, batchSize: nat, timeout: nat, start: nat)
    requires i <= |script|
    requires i < |script| ==> After(script[..i], batchSize, timeout, start).closed
    ensures After(script, batchSize, timeout, start) == After(script[..i], batchSize, timeout, start)
  {
    if i == |script| {
      assert script[..i] == script;
    } else {
      var front := script[..|script| - 1];
      assert front[..i] == script[..i];
      AfterClosed(front, i, batchSize, timeout, start);
    }
  }
}
