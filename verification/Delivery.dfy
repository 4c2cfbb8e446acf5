/** From the hub to the server: reader, batcher, bounded queue and writer as one
    machine whose steps are the stretches between two awaits (the writer's record
    and pop are two steps). The queue functions and the batcher's effects are the
    ones the RetryQueue and Batcher modules prove their loops against. */
module Delivery {
  import opened Text
  import opened Results
  import opened LineProtocol
  import opened RetryQueues
  import opened Backoff
  import opened Batcher

  /** Ring size of the broadcast channel, batch size, queue capacity in bytes, and
      the first and longest backoff. */
  datatype Config = Config(ring: nat, batchSize: nat, capacity: nat, initialMs: U64, maxMs: U64)

  /** The broadcast log as the batcher sees it: everything published, the reading
      position, which positions were received, and how many were lagged past. */
  datatype Hub = Hub(log: seq<ProbeResult>, cursor: nat, received: seq<nat>, lagged: nat)

  /** The batcher: its buffer, whether it has exited, and what it has handed over. */
  datatype Grouping = Grouping(buffer: seq<ProbeResult>, finished: bool, parts: seq<seq<ProbeResult>>)

  /** The queue, its flag, how often it was closed, every batch ever pushed (a
      batch's address is its push index), and which left by which exit. */
  datatype Shelf = Shelf(batches: seq<Batch>, closed: bool, closes: nat,
                         pushed: seq<Batch>, evicted: seq<nat>, popped: seq<nat>)

  /** `cut`: the shutdown arm was ready when a pause of positive length began. The
      select then takes that arm, since the sleep cannot be over yet. */
  datatype Pc =
    | Waiting                   // in wait_for_batch
    | Posting(held: Batch)      // awaiting the answer
    | Pausing(held: Batch, cut: bool) // in the backoff select
    | Settled(held: Batch)      // verdict recorded, pop still to come
    | Drained                   // left through `None`
    | Abandoned(held: Batch)    // left by the shutdown arm of the backoff

  /** The writer, its counters, and what it took and got verdicts on, by push
      index. `passed` are the pops that found their batch gone. */
  datatype Poster = Poster(pc: Pc, attempted: seq<nat>, accepted: seq<nat>, rejected: seq<nat>, passed: seq<nat>,
                           written: nat, refused: nat)

  datatype State = State(hub: Hub, group: Grouping, shelf: Shelf, post: Poster, dropped: nat)

  const INIT := State(Hub([], 0, [], 0), Grouping([], false, []), Shelf([], false, 0, [], [], []),
                      Poster(Waiting, [], [], [], [], 0, 0), 0)

  datatype Step =
    | Publish(result: ProbeResult)
    | Receive | Lag | HubCloses | TimerFires
    | Take | LeaveDrained | Answered(answer: Answer) | Release | Retry | Abandon

  // ----- steps --------------------------------------------------------------

  function Backlog(h: Hub): int { |h.log| - h.cursor }

  /** `open`: some sender of the hub is alive. `stop`: the writer's shutdown
      receiver is ready. */
  predicate Enabled(c: Config, s: State, step: Step, open: bool, stop: bool) {
    match step
    case Publish(_) => open
    case Receive => !s.group.finished && 0 < Backlog(s.hub) <= c.ring
    case Lag => !s.group.finished && Backlog(s.hub) > c.ring
    case HubCloses => !s.group.finished && Backlog(s.hub) == 0 && !open
    case TimerFires => !s.group.finished
    case Take => s.post.pc.Waiting? && s.shelf.batches != []
    case LeaveDrained => s.post.pc.Waiting? && s.shelf.batches == [] && s.shelf.closed
    case Answered(_) => s.post.pc.Posting?
    case Release => s.post.pc.Settled?
    case Retry => s.post.pc.Pausing? && !s.post.pc.cut
    case Abandon => s.post.pc.Pausing? && stop
  }

  function Addrs(q: seq<Batch>): (a: seq<nat>)
    ensures |a| == |q|
    ensures forall i :: 0 <= i < |q| ==> a[i] == q[i].addr
  {
    seq(|q|, i requires 0 <= i < |q| => q[i].addr)
  }

  /** One more batch on the shelf; the evicted ones are counted. */
  function PushPart(c: Config, shelf: Shelf, part: seq<ProbeResult>): Shelf {
    var b := Batch(|shelf.pushed|, Body(part));
    var n := Evictions(shelf.batches, ByteLen(b.text), c.capacity);
    shelf.(batches := Pushed(shelf.batches, b, c.capacity), pushed := shelf.pushed + [b],
           evicted := shelf.evicted + Addrs(shelf.batches[..n]))
  }

  /** What the batcher does with one arrival, pushes included. */
  function Absorb(c: Config, s: State, what: Arrival): State {
    var e := Effect(s.group.buffer, what, c.batchSize);
    var shelf := if e.flushed == [] then s.shelf else PushPart(c, s.shelf, e.flushed[0]);
    s.(group := s.group.(buffer := e.buffer, parts := s.group.parts + e.flushed), shelf := shelf,
       dropped := s.dropped + (|shelf.evicted| - |s.shelf.evicted|))
  }

  function Answer(c: Config, p: Poster, a: Answer, stop: bool): Poster
    requires p.pc.Posting?
  {
    var b := p.pc.held;
    if Accepted(a) then p.(pc := Settled(b), accepted := p.accepted + [b.addr], written := p.written + 1)
    else if Rejected(a) then p.(pc := Settled(b), rejected := p.rejected + [b.addr], refused := p.refused + 1)
    else p.(pc := Pausing(b, stop && Pauses(a, c.initialMs, c.maxMs)))
  }

  /** The identity-checked pop after a verdict. */
  function Free(shelf: Shelf, p: Poster): (Shelf, Poster)
    requires p.pc.Settled?
  {
    var b := p.pc.held;
    var left := Popped(shelf.batches, b);
    if left == shelf.batches then (shelf, p.(pc := Waiting, passed := p.passed + [b.addr]))
    else (shelf.(batches := left, popped := shelf.popped + [b.addr]), p.(pc := Waiting))
  }

  function Apply(c: Config, s: State, step: Step, open: bool, stop: bool): State
    requires Enabled(c, s, step, open, stop)
  {
    match step
    case Publish(r) => s.(hub := s.hub.(log := s.hub.log + [r]))
    case Receive =>
      var at := s.hub.cursor;
      Absorb(c, s.(hub := s.hub.(cursor := at + 1, received := s.hub.received + [at])), Got(s.hub.log[at]))
    case Lag =>
      var missed := Backlog(s.hub) - c.ring;
      s.(hub := s.hub.(cursor := s.hub.cursor + missed, lagged := s.hub.lagged + missed))
    case HubCloses =>
      var t := Absorb(c, s, Batcher.Closed);
      t.(group := t.group.(finished := true), shelf := t.shelf.(closed := true, closes := t.shelf.closes + 1))
    case TimerFires => Absorb(c, s, Deadline)
    case Take =>
      var b := s.shelf.batches[0];
      s.(post := s.post.(pc := Posting(b), attempted := s.post.attempted + [b.addr]))
    case LeaveDrained => s.(post := s.post.(pc := Drained))
    case Answered(a) => s.(post := Answer(c, s.post, a, stop))
    case Release =>
      var (shelf, post) := Free(s.shelf, s.post);
      s.(shelf := shelf, post := post)
    case Retry => s.(post := s.post.(pc := Posting(s.post.pc.held)))
    case Abandon => s.(post := s.post.(pc := Abandoned(s.post.pc.held)))
  }

  // ----- invariants ---------------------------------------------------------

  predicate Increasing(a: seq<nat>) { forall i, j :: 0 <= i < j < |a| ==> a[i] < a[j] }

  predicate Below(a: seq<nat>, n: int) { forall i :: 0 <= i < |a| ==> a[i] < n }

  /** Every position is received or lagged past, each at most once, in order. */
  ghost predicate HubInv(h: Hub) {
    && h.cursor <= |h.log|
    && Increasing(h.received) && Below(h.received, h.cursor)
    && |h.received| + h.lagged == h.cursor
  }

  function Pick(log: seq<ProbeResult>, at: seq<nat>): (rs: seq<ProbeResult>)
    requires Below(at, |log|)
    ensures |rs| == |at|
    ensures forall i :: 0 <= i < |at| ==> rs[i] == log[at[i]]
  {
    seq(|at|, i requires 0 <= i < |at| => log[at[i]])
  }

  /** Batches and buffer, concatenated, are the received results. */
  ghost predicate GroupInv(c: Config, h: Hub, g: Grouping)
    requires HubInv(h)
  {
    && Flatten(g.parts) + g.buffer == Pick(h.log, h.received)
    && GoodParts(g.parts, c.batchSize)
    && |g.buffer| < Cap(c.batchSize)
    && (g.finished ==> g.buffer == [])
  }

  /** How many of the pushed batches have left the queue. */
  function Head(s: Shelf): int { |s.pushed| - |s.batches| }

  /** The queue is a suffix of the push history, within its memory bound. */
  ghost predicate SuffixInv(c: Config, s: Shelf) {
    && |s.batches| <= |s.pushed|
    && s.batches == s.pushed[Head(s)..]
    && (forall i :: 0 <= i < |s.pushed| ==> s.pushed[i].addr == i)
    && Bounded(s.batches, c.capacity)
  }

  /** Every batch before the queue was evicted or popped, not both; the newest
      batch is never evicted. */
  ghost predicate FateInv(s: Shelf) {
    && Increasing(s.evicted) && Increasing(s.popped)
    && Below(s.evicted, Head(s)) && Below(s.popped, Head(s))
    && |s.evicted| + |s.popped| == Head(s)
    && (forall i: nat :: i < Head(s) ==> i in s.evicted || i in s.popped)
    && (forall i: nat :: i in s.evicted ==> i !in s.popped)
    && (s.pushed != [] ==> Below(s.evicted, |s.pushed| - 1))
  }

  ghost predicate ShelfInv(c: Config, s: Shelf) { SuffixInv(c, s) && FateInv(s) }

  ghost predicate TextInv(s: Shelf, g: Grouping) {
    && |g.parts| == |s.pushed|
    && forall i :: 0 <= i < |s.pushed| ==> s.pushed[i].text == Body(g.parts[i])
  }

  ghost predicate CloseInv(s: Shelf, g: Grouping) {
    && (s.closed <==> g.finished)
    && s.closes == if g.finished then 1 else 0
  }

  predicate HasHeld(pc: Pc) { pc.Posting? || pc.Pausing? || pc.Settled? || pc.Abandoned? }

  /** Taken but without a verdict. */
  predicate Undecided(p: Poster, i: nat) {
    (p.pc.Posting? || p.pc.Pausing? || p.pc.Abandoned?) && i == p.pc.held.addr
  }

  /** The held batch is the front of the queue, or it has been evicted. */
  ghost predicate HeldInv(s: Shelf, p: Poster) {
    HasHeld(p.pc) ==>
      && p.pc.held.addr < |s.pushed| && p.pc.held == s.pushed[p.pc.held.addr]
      && p.attempted != [] && p.attempted[|p.attempted| - 1] == p.pc.held.addr
      && p.pc.held.addr !in s.popped
      && (p.pc.held.addr in s.evicted || p.pc.held.addr == Head(s))
  }

  /** Batches are taken in push order; each gets at most one verdict. */
  ghost predicate VerdictInv(s: Shelf, p: Poster) {
    && Increasing(p.attempted) && Increasing(p.accepted) && Increasing(p.rejected)
    && (forall i :: 0 <= i < |p.attempted| && !(HasHeld(p.pc) && i == |p.attempted| - 1) ==> p.attempted[i] < Head(s))
    && (forall i: nat :: i in p.accepted || i in p.rejected <==> i in p.attempted && !Undecided(p, i))
    && (forall i: nat :: i in p.accepted ==> i !in p.rejected)
  }

  /** Everything with a verdict was popped, or was found evicted at its pop, or is
      between the two; nothing else was popped. */
  ghost predicate LedgerInv(s: Shelf, p: Poster) {
    && (forall i: nat :: i in s.popped ==> i in p.accepted || i in p.rejected)
    && (forall i: nat :: i in p.passed ==> i in s.evicted && (i in p.accepted || i in p.rejected))
    && Increasing(p.passed) && (HasHeld(p.pc) ==> Below(p.passed, p.pc.held.addr))
    && (forall i: nat :: i in p.accepted || i in p.rejected ==>
          i in s.popped || i in p.passed || (p.pc.Settled? && i == p.pc.held.addr))
    && |p.accepted| + |p.rejected| == |s.popped| + |p.passed| + (if p.pc.Settled? then 1 else 0)
    && p.written == |p.accepted| && p.refused == |p.rejected|
  }

  ghost predicate Inv(c: Config, s: State) {
    && HubInv(s.hub)
    && GroupInv(c, s.hub, s.group)
    && ShelfInv(c, s.shelf)
    && TextInv(s.shelf, s.group)
    && CloseInv(s.shelf, s.group)
    && HeldInv(s.shelf, s.post)
    && VerdictInv(s.shelf, s.post)
    && LedgerInv(s.shelf, s.post)
    && s.dropped == |s.shelf.evicted|
    && (s.post.pc.Drained? ==> s.shelf.batches == [] && s.group.finished)
  }

  lemma InitInv(c: Config)
    ensures Inv(c, INIT)
  {
  }

  // ----- preservation: hub and batcher --------------------------------------

  lemma PublishKeepsInv(c: Config, s: State, r: ProbeResult)
    requires Inv(c, s)
    ensures Inv(c, s.(hub := s.hub.(log := s.hub.log + [r])))
  {
    hide ShelfInv, HeldInv, VerdictInv, LedgerInv, TextInv, CloseInv, Flatten;
    assert Pick(s.hub.log + [r], s.hub.received) == Pick(s.hub.log, s.hub.received);
  }

  lemma LagKeepsInv(c: Config, s: State, missed: nat)
    requires Inv(c, s) && missed <= Backlog(s.hub)
    ensures Inv(c, s.(hub := s.hub.(cursor := s.hub.cursor + missed, lagged := s.hub.lagged + missed)))
  {
    hide ShelfInv, HeldInv, VerdictInv, LedgerInv, TextInv, CloseInv, Flatten;
  }

  /** The grouping after one arrival accounts for exactly one more result. */
  lemma GroupKeeps(c: Config, g: Grouping, what: Arrival, before: seq<ProbeResult>)
    requires !what.Lagged?
    requires Flatten(g.parts) + g.buffer == before
    requires GoodParts(g.parts, c.batchSize) && |g.buffer| < Cap(c.batchSize)
    ensures var e := Effect(g.buffer, what, c.batchSize);
      && Flatten(g.parts + e.flushed) + e.buffer == before + (if what.Got? then [what.result] else [])
      && GoodParts(g.parts + e.flushed, c.batchSize) && |e.buffer| < Cap(c.batchSize)
      && |e.flushed| <= 1
      && (what.Closed? ==> e.buffer == [])
  {
    hide Effect, Flatten;
    var e := Effect(g.buffer, what, c.batchSize);
    EffectKeepsPartition(g.buffer, what, c.batchSize);
    FlattenNext(g.parts, e.flushed);
    var last := if e.flushed == [] then [] else e.flushed[0];
    var got := if what.Got? then [what.result] else [];
    ConcatAssoc(Flatten(g.parts), last, e.buffer);
    ConcatAssoc(Flatten(g.parts), g.buffer, got);
  }

  lemma PushShape(q: seq<Batch>, b: Batch, capacity: nat)
    ensures var n := Evictions(q, ByteLen(b.text), capacity);
      n <= |q| && Pushed(q, b, capacity) == q[n..] + [b]
  {
  }

  lemma PushKeepsSuffix(c: Config, s: Shelf, b: Batch)
    requires SuffixInv(c, s) && b.addr == |s.pushed|
    ensures var n := Evictions(s.batches, ByteLen(b.text), c.capacity);
      SuffixInv(c, s.(batches := Pushed(s.batches, b, c.capacity), pushed := s.pushed + [b]))
      && n <= |s.batches| && |Pushed(s.batches, b, c.capacity)| == |s.batches| - n + 1
  {
    hide Evictions, Pushed, Bounded, ByteLen;
    var n := Evictions(s.batches, ByteLen(b.text), c.capacity);
    PushShape(s.batches, b, c.capacity);
    PushBounded(s.batches, b, c.capacity);
    SuffixShifts(s.pushed, Head(s), n, b);
  }

  lemma SuffixShifts(pushed: seq<Batch>, head: nat, n: nat, b: Batch)
    requires head + n <= |pushed|
    ensures (pushed + [b])[head + n..] == pushed[head..][n..] + [b]
  {
  }

  lemma EvictKeepsFate(s: Shelf, n: nat, t: Shelf)
    requires FateInv(s) && Head(t) == Head(s) + n && t.popped == s.popped && |t.pushed| == |s.pushed| + 1
    requires |s.batches| <= |s.pushed| && s.batches == s.pushed[Head(s)..] && n <= |s.batches|
    requires forall i :: 0 <= i < |s.pushed| ==> s.pushed[i].addr == i
    requires t.evicted == s.evicted + Addrs(s.batches[..n])
    ensures FateInv(t)
    ensures forall i: nat :: i in t.evicted <==> i in s.evicted || Head(s) <= i < Head(t)
  {
    EvictedAddrs(s, n);
    var a := Addrs(s.batches[..n]);
    assert forall i: nat :: i in t.evicted <==> i in s.evicted || i in a;
    assert forall i :: 0 <= i < |s.evicted| ==> t.evicted[i] == s.evicted[i];
    assert forall i :: 0 <= i < n ==> t.evicted[|s.evicted| + i] == a[i];
  }

  lemma PushKeepsShelf(c: Config, s: Shelf, part: seq<ProbeResult>)
    requires ShelfInv(c, s)
    ensures var t := PushPart(c, s, part);
      && ShelfInv(c, t)
      && t.pushed == s.pushed + [Batch(|s.pushed|, Body(part))]
      && Head(t) >= Head(s) && t.popped == s.popped && t.closed == s.closed && t.closes == s.closes
      && (forall i: nat :: i in t.evicted <==> i in s.evicted || Head(s) <= i < Head(t))
      && |t.evicted| == |s.evicted| + Head(t) - Head(s)
  {
    hide Body, Evictions, Pushed, Bounded, FateInv, ByteLen;
    var b := Batch(|s.pushed|, Body(part));
    var n := Evictions(s.batches, ByteLen(b.text), c.capacity);
    PushKeepsSuffix(c, s, b);
    EvictKeepsFate(s, n, PushPart(c, s, part));
  }

  /** The addresses of the `n` oldest queued batches are the next `n` indices. */
  lemma EvictedAddrs(s: Shelf, n: nat)
    requires |s.batches| <= |s.pushed| && s.batches == s.pushed[Head(s)..] && n <= |s.batches|
    requires forall i :: 0 <= i < |s.pushed| ==> s.pushed[i].addr == i
    ensures var a := Addrs(s.batches[..n]);
      && (forall i :: 0 <= i < n ==> a[i] == Head(s) + i)
      && (forall i: nat :: i in a <==> Head(s) <= i < Head(s) + n)
  {
    var a := Addrs(s.batches[..n]);
    forall k | 0 <= k < n ensures a[k] == Head(s) + k {
      assert s.batches[..n][k] == s.pushed[Head(s) + k];
    }
    forall i: nat | Head(s) <= i < Head(s) + n ensures i in a {
      assert a[i - Head(s)] == i;
    }
  }

  /** A push never disturbs what the writer holds or has decided. */
  lemma PushKeepsPost(c: Config, s: Shelf, p: Poster, part: seq<ProbeResult>)
    requires ShelfInv(c, s) && HeldInv(s, p) && VerdictInv(s, p) && LedgerInv(s, p)
    ensures var t := PushPart(c, s, part);
      HeldInv(t, p) && VerdictInv(t, p) && LedgerInv(t, p)
  {
    hide PushPart, ShelfInv;
    PushKeepsShelf(c, s, part);
  }

  lemma TextNext(s: Shelf, g: Grouping, t: Shelf, parts: seq<seq<ProbeResult>>, part: seq<ProbeResult>)
    requires TextInv(s, g) && t.pushed == s.pushed + [Batch(|s.pushed|, Body(part))] && parts == g.parts + [part]
    ensures TextInv(t, g.(parts := parts))
  {
    hide Body;
  }

  /** A flush puts one batch on the shelf and one part on record. */
  lemma FlushKeepsInv(c: Config, s: State, part: seq<ProbeResult>, buffer: seq<ProbeResult>)
    requires ShelfInv(c, s.shelf) && TextInv(s.shelf, s.group) && CloseInv(s.shelf, s.group)
    requires HeldInv(s.shelf, s.post) && VerdictInv(s.shelf, s.post) && LedgerInv(s.shelf, s.post)
    ensures var t := PushPart(c, s.shelf, part);
      var g := s.group.(buffer := buffer, parts := s.group.parts + [part]);
      && ShelfInv(c, t) && TextInv(t, g) && CloseInv(t, g)
      && HeldInv(t, s.post) && VerdictInv(t, s.post) && LedgerInv(t, s.post)
      && t.closes == s.shelf.closes && |t.evicted| >= |s.shelf.evicted|
  {
    hide PushPart, ShelfInv, TextInv, HeldInv, VerdictInv, LedgerInv;
    PushKeepsShelf(c, s.shelf, part);
    PushKeepsPost(c, s.shelf, s.post, part);
    var t := PushPart(c, s.shelf, part);
    TextNext(s.shelf, s.group, t, s.group.parts + [part], part);
    TextUnchanged(t, s.group.(parts := s.group.parts + [part]), buffer);
  }

  lemma AbsorbKeepsInv(c: Config, s: State, hub: Hub, what: Arrival)
    requires Inv(c, s) && !s.group.finished && !what.Lagged? && !s.post.pc.Drained?
    requires HubInv(hub)
    requires Pick(hub.log, hub.received)
          == Pick(s.hub.log, s.hub.received) + (if what.Got? then [what.result] else [])
    ensures var t := Absorb(c, s.(hub := hub), what);
      && Inv(c, t) && !t.group.finished && t.shelf.closes == s.shelf.closes
      && (what.Closed? ==> t.group.buffer == [])
  {
    hide HubInv, Flatten, Effect, PushPart, ShelfInv, TextInv, HeldInv, VerdictInv, LedgerInv, Pick, GoodParts, CloseInv;
    Readable(s.hub);
    GroupKeeps(c, s.group, what, Pick(s.hub.log, s.hub.received));
    var e := Effect(s.group.buffer, what, c.batchSize);
    if e.flushed == [] {
      ConcatNothing(s.group.parts);
      TextUnchanged(s.shelf, s.group, e.buffer);
      CloseUnchanged(s.shelf, s.group, s.group.(buffer := e.buffer));
    } else {
      SingleFlush(e.flushed);
      FlushKeepsInv(c, s, e.flushed[0], e.buffer);
    }
  }

  lemma Readable(h: Hub)
    requires HubInv(h)
    ensures Below(h.received, |h.log|)
  {
  }

  lemma SingleFlush(flushed: seq<seq<ProbeResult>>)
    requires |flushed| == 1
    ensures flushed == [flushed[0]]
  {
  }

  lemma CloseUnchanged(s: Shelf, g: Grouping, h: Grouping)
    requires CloseInv(s, g) && g.finished == h.finished
    ensures CloseInv(s, h)
  {
  }

  lemma TextUnchanged(s: Shelf, g: Grouping, buffer: seq<ProbeResult>)
    requires TextInv(s, g)
    ensures TextInv(s, g.(buffer := buffer))
  {
    hide Body;
  }

  // ----- preservation: writer -----------------------------------------------

  lemma TakeKeepsInv(c: Config, s: State)
    requires Inv(c, s) && Enabled(c, s, Take, false, false)
    ensures Inv(c, Apply(c, s, Take, false, false))
  {
    hide HubInv, GroupInv, TextInv, CloseInv, Bounded;
    var b := s.shelf.batches[0];
    assert b == s.shelf.pushed[Head(s.shelf)];
    var attempted := s.post.attempted + [b.addr];
    assert forall i :: 0 <= i < |s.post.attempted| ==> attempted[i] == s.post.attempted[i];
    MembersBelow(s.post.passed, s.shelf.evicted, Head(s.shelf));
  }

  lemma MembersBelow(a: seq<nat>, b: seq<nat>, n: int)
    requires Below(b, n) && forall i: nat :: i in a ==> i in b
    ensures Below(a, n)
  {
    forall j | 0 <= j < |a| ensures a[j] < n {
      assert a[j] in b;
    }
  }

  lemma AnsweredKeepsInv(c: Config, s: State, a: Answer, stop: bool)
    requires Inv(c, s) && s.post.pc.Posting?
    ensures Inv(c, s.(post := Answer(c, s.post, a, stop)))
  {
    hide HubInv, GroupInv, TextInv, CloseInv, ShelfInv, Accepted, Rejected, Pauses;
    var p, q := s.post, Answer(c, s.post, a, stop);
    var b := p.pc.held.addr;
    assert p.attempted[|p.attempted| - 1] == b && b in p.attempted;
    assert b !in p.accepted && b !in p.rejected;
    VerdictsBelow(s.shelf, p);
    if q.pc.Settled? {
      assert forall i: nat :: i in q.accepted || i in q.rejected <==> i in p.accepted || i in p.rejected || i == b;
    }
  }

  /** While a batch is undecided, every verdict is on an earlier one. */
  lemma VerdictsBelow(s: Shelf, p: Poster)
    requires HeldInv(s, p) && VerdictInv(s, p) && (p.pc.Posting? || p.pc.Pausing?)
    ensures Below(p.accepted, p.pc.held.addr) && Below(p.rejected, p.pc.held.addr)
  {
    AttemptsEndWithHeld(s, p);
    forall j | 0 <= j < |p.accepted| ensures p.accepted[j] < p.pc.held.addr {
      assert p.accepted[j] in p.accepted;
    }
    forall j | 0 <= j < |p.rejected| ensures p.rejected[j] < p.pc.held.addr {
      assert p.rejected[j] in p.rejected;
    }
  }

  /** The pop removes the held batch exactly when it has not been evicted. */
  lemma PopUnlessEvicted(c: Config, s: Shelf, p: Poster)
    requires ShelfInv(c, s) && HeldInv(s, p) && p.pc.Settled?
    ensures p.pc.held.addr in s.evicted ==> Popped(s.batches, p.pc.held) == s.batches
    ensures p.pc.held.addr !in s.evicted ==>
      s.batches != [] && s.batches[0] == p.pc.held && Popped(s.batches, p.pc.held) == s.batches[1..]
  {
    if s.batches != [] {
      assert s.batches[0] == s.pushed[Head(s)];
    }
  }

  lemma FreeRemovesHeldOrNothing(c: Config, s: Shelf, p: Poster)
    requires ShelfInv(c, s) && HeldInv(s, p) && p.pc.Settled?
    ensures var left := Free(s, p).0.batches;
      && (left == s.batches <==> p.pc.held.addr in s.evicted)
      && (p.pc.held.addr !in s.evicted ==> s.batches == [p.pc.held] + left)
  {
    PopUnlessEvicted(c, s, p);
    hide ShelfInv, HeldInv, Popped;
  }

  lemma PassedKeepsLedger(s: Shelf, p: Poster)
    requires HeldInv(s, p) && VerdictInv(s, p) && LedgerInv(s, p) && FateInv(s)
    requires p.pc.Settled? && p.pc.held.addr in s.evicted
    ensures var q := p.(pc := Waiting, passed := p.passed + [p.pc.held.addr]);
      HeldInv(s, q) && VerdictInv(s, q) && LedgerInv(s, q)
  {
    var b := p.pc.held.addr;
    assert b < Head(s);
  }

  lemma PoppedKeepsLedger(s: Shelf, p: Poster, t: Shelf)
    requires HeldInv(s, p) && VerdictInv(s, p) && LedgerInv(s, p)
    requires p.pc.Settled? && p.pc.held.addr == Head(s)
    requires Head(t) == Head(s) + 1 && t.popped == s.popped + [p.pc.held.addr] && t.evicted == s.evicted
    ensures var q := p.(pc := Waiting);
      HeldInv(t, q) && VerdictInv(t, q) && LedgerInv(t, q)
  {
    var b := p.pc.held.addr;
    assert b in p.attempted;
    assert forall i: nat :: i in t.popped <==> i in s.popped || i == b;
  }

  lemma PoppedKeepsShelf(c: Config, s: Shelf)
    requires ShelfInv(c, s) && s.batches != []
    ensures var t := s.(batches := s.batches[1..], popped := s.popped + [Head(s)]);
      Head(t) == Head(s) + 1 && (Head(s) !in s.popped && Head(s) !in s.evicted) && ShelfInv(c, t)
  {
    var t := s.(batches := s.batches[1..], popped := s.popped + [Head(s)]);
    assert t.batches == t.pushed[Head(t)..];
    assert forall i: nat :: i in t.popped <==> i in s.popped || i == Head(s);
  }

  lemma FreeKeepsInv(c: Config, s: State)
    requires Inv(c, s) && s.post.pc.Settled?
    ensures var (shelf, post) := Free(s.shelf, s.post);
      Inv(c, s.(shelf := shelf, post := post))
  {
    hide HubInv, GroupInv, Popped;
    PopUnlessEvicted(c, s.shelf, s.post);
    hide ShelfInv, HeldInv, VerdictInv, LedgerInv;
    HeldFate(c, s.shelf, s.post);
    if s.post.pc.held.addr in s.shelf.evicted {
      PassedKeepsLedger(s.shelf, s.post);
    } else {
      var t := Free(s.shelf, s.post).0;
      PoppedKeepsShelf(c, s.shelf);
      PoppedKeepsLedger(s.shelf, s.post, t);
    }
  }

  lemma HeldFate(c: Config, s: Shelf, p: Poster)
    requires ShelfInv(c, s) && HeldInv(s, p) && HasHeld(p.pc)
    ensures FateInv(s) && (p.pc.held.addr in s.evicted || p.pc.held.addr == Head(s))
  {
  }

  lemma WriterMovesKeepInv(c: Config, s: State, step: Step, stop: bool)
    requires Inv(c, s) && (step.LeaveDrained? || step.Retry? || step.Abandon?)
    requires Enabled(c, s, step, false, stop)
    ensures Inv(c, Apply(c, s, step, false, stop))
  {
    hide HubInv, GroupInv, TextInv, ShelfInv;
  }

  // ----- what the server said -----------------------------------------------

  /** Success: any 2xx. */
  predicate IsSuccess(a: Answer) { a.Status? && 200 <= a.code < 300 }

  /** A refusal for good: neither 2xx nor 408, 429 or 5xx. */
  predicate IsRefusal(a: Answer) {
    a.Status? && !(200 <= a.code < 300) && a.code != 408 && a.code != 429 && a.code < 500
  }

  /** An answer enters the batch it was given for as accepted, as rejected, or not at
      all, by its status alone; and counts it once. */
  lemma AnswerDecides(c: Config, s: State, a: Answer, open: bool, stop: bool)
    requires Enabled(c, s, Answered(a), open, stop)
    ensures var i := s.post.pc.held.addr; var t := Apply(c, s, Answered(a), open, stop);
      && t.post.accepted == s.post.accepted + (if IsSuccess(a) then [i] else [])
      && t.post.rejected == s.post.rejected + (if IsRefusal(a) then [i] else [])
      && t.post.written == s.post.written + (if IsSuccess(a) then 1 else 0)
      && t.post.refused == s.post.refused + (if IsRefusal(a) then 1 else 0)
      && t.shelf == s.shelf
  {
    hide Classify, Pauses;
    VerdictsPartition(a);
    ConcatNothing(s.post.accepted);
    ConcatNothing(s.post.rejected);
  }

  /** Nothing but an answer decides a batch, and the push history only grows. */
  lemma OnlyAnswersDecide(c: Config, s: State, step: Step, open: bool, stop: bool)
    requires Enabled(c, s, step, open, stop) && !step.Answered?
    ensures var t := Apply(c, s, step, open, stop);
      && t.post.accepted == s.post.accepted && t.post.rejected == s.post.rejected
      && s.shelf.pushed <= t.shelf.pushed
  {
    hide Effect, Pushed, Evictions, Body;
  }

  /** After a lag exactly the ring is left to read: only what had been overrun is
      skipped. */
  lemma LagSkipsTheOverrun(c: Config, s: State, open: bool, stop: bool)
    requires Enabled(c, s, Lag, open, stop)
    ensures var t := Apply(c, s, Lag, open, stop);
      Backlog(s.hub) > c.ring == Backlog(t.hub) && t.hub.log == s.hub.log && t.hub.received == s.hub.received
  {
  }

  // ----- every step ---------------------------------------------------------

  lemma ReceiveHub(h: Hub)
    requires HubInv(h) && Backlog(h) > 0
    ensures var g := h.(cursor := h.cursor + 1, received := h.received + [h.cursor]);
      HubInv(g) && Pick(g.log, g.received) == Pick(h.log, h.received) + [h.log[h.cursor]]
  {
  }

  lemma CloseKeepsInv(c: Config, s: State)
    requires Inv(c, s) && !s.group.finished && s.group.buffer == []
    ensures Inv(c, s.(group := s.group.(finished := true),
                      shelf := s.shelf.(closed := true, closes := s.shelf.closes + 1)))
  {
    hide Flatten, Body, Bounded;
  }

  lemma StepKeepsInv(c: Config, s: State, step: Step, open: bool, stop: bool)
    requires Inv(c, s) && Enabled(c, s, step, open, stop)
    ensures Inv(c, Apply(c, s, step, open, stop))
  {
    hide Inv, Absorb, Free, Answer, HubInv, Pick;
    Running(c, s);
    match step
    case Publish(r) => PublishKeepsInv(c, s, r);
    case Receive =>
      ReceiveHub(s.hub);
      var hub := s.hub.(cursor := s.hub.cursor + 1, received := s.hub.received + [s.hub.cursor]);
      AbsorbKeepsInv(c, s, hub, Got(s.hub.log[s.hub.cursor]));
    case Lag => LagKeepsInv(c, s, Backlog(s.hub) - c.ring);
    case HubCloses =>
      ConcatNothing(Pick(s.hub.log, s.hub.received));
      AbsorbKeepsInv(c, s, s.hub, Batcher.Closed);
      CloseKeepsInv(c, Absorb(c, s, Batcher.Closed));
    case TimerFires =>
      ConcatNothing(Pick(s.hub.log, s.hub.received));
      AbsorbKeepsInv(c, s, s.hub, Deadline);
    case Take => TakeKeepsInv(c, s);
    case Answered(a) => AnsweredKeepsInv(c, s, a, stop);
    case Release => FreeKeepsInv(c, s);
    case _ => WriterMovesKeepInv(c, s, step, stop);
  }

  lemma Running(c: Config, s: State)
    requires Inv(c, s)
    ensures HubInv(s.hub) && Below(s.hub.received, |s.hub.log|)
    ensures s.post.pc.Drained? ==> s.group.finished
  {
  }

  /** After the batcher has exited nothing is pushed and the queue is never closed
      again: the shelf only shrinks, and no batch is evicted any more. */
  lemma FinishedIsFinal(c: Config, s: State, step: Step, open: bool, stop: bool)
    requires s.group.finished && Enabled(c, s, step, open, stop)
    ensures var t := Apply(c, s, step, open, stop);
      && t.group == s.group && t.shelf.pushed == s.shelf.pushed && t.shelf.evicted == s.shelf.evicted
      && t.shelf.closed == s.shelf.closed && t.shelf.closes == s.shelf.closes
      && |t.shelf.batches| <= |s.shelf.batches|
  {
  }

  // ----- a writer cut short -------------------------------------------------

  /** The writer has taken the shutdown arm of its backoff, or is bound to. */
  predicate Cut(pc: Pc) { pc.Abandoned? || (pc.Pausing? && pc.cut) }

  /** There is no way back from there: the writer sends nothing more. */
  lemma CutIsFinal(c: Config, s: State, step: Step, open: bool, stop: bool)
    requires Enabled(c, s, step, open, stop) && Cut(s.post.pc)
    ensures var t := Apply(c, s, step, open, stop);
      && Cut(t.post.pc) && t.post.pc.held == s.post.pc.held
      && t.post.accepted == s.post.accepted && t.post.rejected == s.post.rejected && t.shelf.popped == s.shelf.popped
  {
    hide Effect, Pushed, Evictions;
  }

  /** A writer without a verdict on its batch has data in the queue: that batch, or
      the newer ones it was evicted for. */
  lemma HeldLeavesData(c: Config, s: State)
    requires Inv(c, s) && (s.post.pc.Posting? || s.post.pc.Pausing? || s.post.pc.Abandoned?)
    ensures s.shelf.batches != []
  {
    hide HubInv, GroupInv, TextInv, CloseInv, Bounded;
    if s.shelf.batches == [] {
      NewestWasSettled(c, s);
      AttemptsEndWithHeld(s.shelf, s.post);
      assert false;
    }
  }

  /** On an empty queue the newest batch was popped, so it has a verdict. */
  lemma NewestWasSettled(c: Config, s: State)
    requires ShelfInv(c, s.shelf) && LedgerInv(s.shelf, s.post) && HeldInv(s.shelf, s.post)
    requires s.shelf.batches == [] && (s.post.pc.Posting? || s.post.pc.Pausing? || s.post.pc.Abandoned?)
    ensures var i := |s.shelf.pushed| - 1;
      i >= 0 && s.post.pc.held.addr <= i && (i in s.post.accepted || i in s.post.rejected)
  {
    var i := |s.shelf.pushed| - 1;
    assert i in s.shelf.evicted || i in s.shelf.popped;
    assert i !in s.shelf.evicted;
  }

  /** Nothing after the held batch has been attempted, and it has no verdict. */
  lemma AttemptsEndWithHeld(s: Shelf, p: Poster)
    requires HeldInv(s, p) && VerdictInv(s, p) && (p.pc.Posting? || p.pc.Pausing? || p.pc.Abandoned?)
    ensures forall i: nat :: i in p.accepted || i in p.rejected ==> i < p.pc.held.addr
  {
    var last := |p.attempted| - 1;
    forall i: nat | i in p.accepted || i in p.rejected ensures i < p.pc.held.addr {
      assert i in p.attempted && i != p.pc.held.addr;
      var j :| 0 <= j < |p.attempted| && p.attempted[j] == i;
      assert j < last;
    }
  }

  // ----- what is left when the writer has drained ---------------------------

  /** The indices below `n` outside `lost`, in order. */
  function Kept(n: nat, lost: set<nat>): seq<nat> {
    if n == 0 then [] else Kept(n - 1, lost) + if n - 1 in lost then [] else [n - 1]
  }

  lemma DropGreatest(a: seq<nat>, m: nat) returns (front: seq<nat>)
    requires Increasing(a) && m in a && forall i: nat :: i in a ==> i <= m
    ensures a == front + [m] && Increasing(front)
    ensures forall i: nat :: i in front <==> i in a && i != m
  {
    var k :| 0 <= k < |a| && a[k] == m;
    assert a[|a| - 1] in a && k == |a| - 1;
    front := a[..k];
    assert a == front + [m];
    assert forall j :: 0 <= j < k ==> front[j] < m;
  }

  lemma KeptNext(n: nat, lost: set<nat>)
    ensures n == 0 ==> Kept(n, lost) == []
    ensures n > 0 && n - 1 in lost ==> Kept(n, lost) == Kept(n - 1, lost)
    ensures n > 0 && n - 1 !in lost ==> Kept(n, lost) == Kept(n - 1, lost) + [n - 1]
  {
    if n > 0 {
      ConcatNothing(Kept(n - 1, lost));
    }
  }

  /** An increasing sequence is determined by its members. */
  lemma {:induction false} IncreasingIsKept(a: seq<nat>, n: nat, lost: set<nat>)
    requires Increasing(a)
    requires forall i: nat :: i in a <==> i < n && i !in lost
    ensures a == Kept(n, lost)
    decreases n
  {
    hide Increasing, Kept;
    KeptNext(n, lost);
    if n == 0 {
      SomeMember(a);
    } else if n - 1 in lost {
      IncreasingIsKept(a, n - 1, lost);
    } else {
      var front := DropGreatest(a, n - 1);
      IncreasingIsKept(front, n - 1, lost);
    }
  }

  lemma SomeMember(a: seq<nat>)
    ensures a != [] ==> exists i :: i in a
  {
    if a != [] {
      assert a[0] in a;
    }
  }

  /** Batches refused by the server, and batches evicted that it never accepted. */
  ghost function Lost(s: State): set<nat> {
    set i: nat | i < |s.shelf.pushed|
      && (i in s.post.rejected || (i in s.shelf.evicted && i !in s.post.accepted))
  }

  /** When the writer leaves through `None`, the queue was closed and is empty; the
      server's log is exactly the push history without the lost batches, in order
      and once each, and the counters add up, with the batches counted both as
      evicted and by their verdict as the only overlap. */
  lemma DrainedIsComplete(c: Config, s: State)
    requires Inv(c, s) && s.post.pc.Drained?
    ensures s.shelf.batches == [] && s.shelf.closed && s.group.buffer == []
    ensures s.post.accepted == Kept(|s.shelf.pushed|, Lost(s))
    ensures s.post.written + s.post.refused + s.dropped == |s.shelf.pushed| + |s.post.passed|
    ensures forall i: nat :: i in s.post.passed ==>
      i in s.shelf.evicted && (i in s.post.accepted || i in s.post.rejected)
  {
    hide HubInv, Flatten, GoodParts, Bounded, Body, TextInv;
    forall i: nat ensures i in s.post.accepted <==> i < |s.shelf.pushed| && i !in Lost(s) {
      if i in s.post.accepted {
        VerdictsAreTaken(s.shelf, s.post, i);
      }
    }
    IncreasingIsKept(s.post.accepted, |s.shelf.pushed|, Lost(s));
  }

  lemma VerdictsAreTaken(s: Shelf, p: Poster, i: nat)
    requires VerdictInv(s, p) && p.pc.Drained? && (i in p.accepted || i in p.rejected)
    ensures i < Head(s)
  {
    assert i in p.attempted;
  }

  // ----- what the server ends up with ---------------------------------------

  /** The lines in the bodies of the batches `at`, split as the server splits them. */
  function SplitBodies(pushed: seq<Batch>, at: seq<nat>): seq<string>
    requires Below(at, |pushed|)
  {
    if at == [] then []
    else SplitBodies(pushed, at[..|at| - 1]) + Split(pushed[at[|at| - 1]].text)
  }

  /** The lines of the results in the parts `at`, one per result. */
  function PartLines(parts: seq<seq<ProbeResult>>, at: seq<nat>): seq<string>
    requires Below(at, |parts|)
  {
    if at == [] then [] else PartLines(parts, at[..|at| - 1]) + Lines(parts[at[|at| - 1]])
  }

  ghost predicate AllFramable(rs: seq<ProbeResult>) { forall r :: r in rs ==> Framable(r) }

  lemma {:induction false} BodiesSplitBack(s: Shelf, g: Grouping, at: seq<nat>)
    requires TextInv(s, g) && Below(at, |s.pushed|)
    requires forall i :: 0 <= i < |g.parts| ==> g.parts[i] != [] && AllFramable(g.parts[i])
    ensures SplitBodies(s.pushed, at) == PartLines(g.parts, at)
  {
    hide Split, Lines, Body, Framable;
    if at != [] {
      BodiesSplitBack(s, g, at[..|at| - 1]);
      BatchFraming(g.parts[at[|at| - 1]]);
    }
  }

  lemma {:induction false} PartsAreFramable(parts: seq<seq<ProbeResult>>)
    requires AllFramable(Flatten(parts))
    ensures forall i :: 0 <= i < |parts| ==> AllFramable(parts[i])
  {
    hide Framable;
    if parts != [] {
      var n := |parts| - 1;
      assert forall r :: r in Flatten(parts[..n]) || r in parts[n] ==> r in Flatten(parts);
      PartsAreFramable(parts[..n]);
      forall i | 0 <= i < |parts| ensures AllFramable(parts[i]) {
        if i < n {
          assert parts[..n][i] == parts[i];
        }
      }
    }
  }

  lemma {:induction false} KeptIsBelow(n: nat, lost: set<nat>)
    ensures Below(Kept(n, lost), n)
  {
    if n > 0 {
      KeptIsBelow(n - 1, lost);
    }
  }

  lemma LinesConcat(a: seq<ProbeResult>, b: seq<ProbeResult>)
    ensures Lines(a + b) == Lines(a) + Lines(b)
  {
    hide Line;
  }

  lemma PartLinesNext(parts: seq<seq<ProbeResult>>, at: seq<nat>, i: nat)
    requires Below(at, |parts|) && i < |parts|
    ensures Below(at + [i], |parts|)
    ensures PartLines(parts, at + [i]) == PartLines(parts, at) + Lines(parts[i])
  {
    hide Lines;
    assert (at + [i])[..|at|] == at;
  }

  /** With nothing lost, the parts' lines are the lines of all their results. */
  lemma {:induction false} AllPartLines(parts: seq<seq<ProbeResult>>, n: nat)
    requires n <= |parts|
    ensures Below(Kept(n, {}), |parts|)
    ensures PartLines(parts, Kept(n, {})) == Lines(Flatten(parts[..n]))
  {
    hide Lines, PartLines, Below;
    KeptIsBelow(n, {});
    WidenBelow(Kept(n, {}), n, |parts|);
    if n > 0 {
      AllPartLines(parts, n - 1);
      assert parts[..n][..n - 1] == parts[..n - 1];
      LinesConcat(Flatten(parts[..n - 1]), parts[n - 1]);
      PartLinesNext(parts, Kept(n - 1, {}), n - 1);
    } else {
      LinesOfNothing(parts);
    }
  }

  lemma WidenBelow(a: seq<nat>, m: int, n: int)
    requires Below(a, m) && m <= n
    ensures Below(a, n)
  {
  }

  lemma LinesOfNothing(parts: seq<seq<ProbeResult>>)
    ensures Below([], |parts|) && Lines([]) == PartLines(parts, []) == []
  {
  }

  /** No loss end to end: split back into lines, the bodies the server accepted
      are the lines of the received results, in order and once each, without
      those of the lost batches. */
  lemma AcceptedIsReceivedMinusLost(c: Config, s: State)
    requires Inv(c, s) && s.post.pc.Drained?
    requires AllFramable(Pick(s.hub.log, s.hub.received))
    ensures Below(s.post.accepted, |s.shelf.pushed|) && Below(Kept(|s.group.parts|, Lost(s)), |s.group.parts|)
    ensures SplitBodies(s.shelf.pushed, s.post.accepted) == PartLines(s.group.parts, Kept(|s.group.parts|, Lost(s)))
    ensures Flatten(s.group.parts) == Pick(s.hub.log, s.hub.received)
    ensures Lost(s) == {} ==>
      SplitBodies(s.shelf.pushed, s.post.accepted) == Lines(Pick(s.hub.log, s.hub.received))
  {
    hide Framable, Body, Lines, Split, Bounded, Flatten, PartLines, SplitBodies, Kept, Lost;
    DrainedIsComplete(c, s);
    KeptIsBelow(|s.group.parts|, Lost(s));
    ConcatNothing(Flatten(s.group.parts));
    PartsAreFramable(s.group.parts);
    BodiesSplitBack(s.shelf, s.group, s.post.accepted);
    AllPartLines(s.group.parts, |s.group.parts|);
    assert s.group.parts[..|s.group.parts|] == s.group.parts;
  }

  // ----- at every moment ----------------------------------------------------

  /** The pushed batches the server has not accepted, so far. */
  ghost function Unaccepted(s: State): set<nat> {
    set i: nat | i < |s.shelf.pushed| && i !in s.post.accepted
  }

  /** Wherever the machine stands, every batch is queued, accepted, refused or
      evicted, and the server's log is the push history without the unaccepted. */
  lemma EveryBatchIsSomewhere(c: Config, s: State)
    requires Inv(c, s)
    ensures s.post.accepted == Kept(|s.shelf.pushed|, Unaccepted(s)) && Below(s.post.accepted, |s.shelf.pushed|)
    ensures forall i: nat :: i in Unaccepted(s) ==>
      i in s.post.rejected || i in s.shelf.evicted || Head(s.shelf) <= i < |s.shelf.pushed|
    ensures forall i: nat :: i in s.post.accepted ==> i !in s.post.rejected
  {
    hide HubInv, GroupInv, TextInv, CloseInv, Bounded;
    AcceptedBelow(c, s);
    forall i: nat | i in Unaccepted(s) && i < Head(s.shelf) && i !in s.shelf.evicted ensures i in s.post.rejected {
      assert i in s.shelf.popped;
    }
    forall i: nat ensures i in s.post.accepted <==> i < |s.shelf.pushed| && i !in Unaccepted(s) {
      if i in s.post.accepted {
        var j :| 0 <= j < |s.post.accepted| && s.post.accepted[j] == i;
      }
    }
    IncreasingIsKept(s.post.accepted, |s.shelf.pushed|, Unaccepted(s));
  }

  lemma AcceptedBelow(c: Config, s: State)
    requires Inv(c, s)
    ensures Below(s.post.accepted, |s.shelf.pushed|)
  {
    hide HubInv, GroupInv, TextInv, CloseInv, Bounded, FateInv;
    forall j | 0 <= j < |s.post.accepted| ensures s.post.accepted[j] < |s.shelf.pushed| {
      assert s.post.accepted[j] in s.post.accepted;
      var i :| 0 <= i < |s.post.attempted| && s.post.attempted[i] == s.post.accepted[j];
    }
  }

  /** Only pushed batches are decided. */
  lemma SettledBelow(c: Config, s: State)
    requires Inv(c, s)
    ensures forall i: nat :: i in s.post.accepted || i in s.post.rejected ==> i < |s.shelf.pushed|
  {
    hide HubInv, GroupInv, TextInv, CloseInv, Bounded, FateInv;
    forall i: nat | i in s.post.accepted || i in s.post.rejected ensures i < |s.shelf.pushed| {
      var j :| 0 <= j < |s.post.attempted| && s.post.attempted[j] == i;
    }
  }

  /** At any moment the accepted bodies split into the lines of their own results. */
  lemma AcceptedBodiesSplitBack(c: Config, s: State)
    requires Inv(c, s) && AllFramable(Pick(s.hub.log, s.hub.received))
    ensures Below(s.post.accepted, |s.shelf.pushed|) && Below(s.post.accepted, |s.group.parts|)
    ensures SplitBodies(s.shelf.pushed, s.post.accepted) == PartLines(s.group.parts, s.post.accepted)
  {
    AcceptedBelow(c, s);
    hide Framable, Body, Lines, Split, Bounded, Flatten, PartLines, SplitBodies, ShelfInv;
    assert forall r :: r in Flatten(s.group.parts) ==> r in Pick(s.hub.log, s.hub.received);
    PartsAreFramable(s.group.parts);
    BodiesSplitBack(s.shelf, s.group, s.post.accepted);
  }
}
