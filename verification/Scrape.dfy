/** A scrape of the metrics page against a push or a pop in progress. The queue
    updates its counters under its lock, one atomic access at a time; the page loads
    them one at a time and takes no lock. */
module Scrape {
  import opened Text

  /** What the holder of the lock has left to do. */
  datatype Op =
    | Idle
    | Pushing(len: nat)               // evicting while the batch does not fit
    | Counting(len: nat, size: nat)   // the evicted batch is counted, its bytes not yet
    | Depth                           // about to store the number of batches
    | DepthBytes                      // about to store the number of bytes

  /** Pushes, pops and evictions so far, when a depth was stored. */
  datatype Moment = Moment(pushed: nat, popped: nat, dropped: nat, sizes: seq<nat>)

  /** What the scrape has loaded: a depth, which store it came from, and so on. */
  datatype Loaded = Nothing
    | Batches(batches: nat, at: nat)
    | Bytes(batches: nat, at: nat, bytes: nat, bytesAt: nat)
    | Dropped(batches: nat, at: nat, bytes: nat, bytesAt: nat, dropped: nat)

  /** `sizes` are the queued batches; `stores` is the history of stored depths, the
      last of which `queueBatches`, and the last or the one before `queueBytes`,
      still shows. */
  datatype State = State(
    op: Op, sizes: seq<nat>, pushed: nat, popped: nat,
    queueBatches: nat, queueBytes: nat, dropped: nat, droppedBytes: nat,
    stores: seq<Moment>, bytesAt: nat, loaded: Loaded)

  datatype Step =
    | BeginPush(len: nat) | Evict | CountBytes | Append | Pop | StoreBatches | StoreBytes
    | LoadBatches | LoadBytes | LoadDropped

  const INIT := State(Idle, [], 0, 0, 0, 0, 0, 0, [Moment(0, 0, 0, [])], 0, Nothing)

  function Sum(sizes: seq<nat>): nat {
    if sizes == [] then 0 else Sum(sizes[..|sizes| - 1]) + sizes[|sizes| - 1]
  }

  function LastStore(s: State): nat { if s.stores == [] then 0 else |s.stores| - 1 }

  predicate Enabled(s: State, step: Step) {
    match step
    case BeginPush(_) => s.op.Idle?
    case Evict => s.op.Pushing? && s.sizes != []
    case CountBytes => s.op.Counting?
    case Append => s.op.Pushing?
    case Pop => s.op.Idle? && s.sizes != []
    case StoreBatches => s.op.Depth?
    case StoreBytes => s.op.DepthBytes?
    case LoadBatches => s.loaded.Nothing?
    case LoadBytes => s.loaded.Batches?
    case LoadDropped => s.loaded.Bytes?
  }

  function Apply(s: State, step: Step): State
    requires Enabled(s, step)
  {
    match step
    case BeginPush(len) => s.(op := Pushing(len))
    case Evict => s.(op := Counting(s.op.len, s.sizes[0]), sizes := s.sizes[1..], dropped := s.dropped + 1)
    case CountBytes => s.(op := Pushing(s.op.len), droppedBytes := s.droppedBytes + s.op.size)
    case Append => s.(op := Depth, sizes := s.sizes + [s.op.len], pushed := s.pushed + 1)
    case Pop => s.(op := Depth, sizes := s.sizes[1..], popped := s.popped + 1)
    case StoreBatches =>
      s.(op := DepthBytes, queueBatches := |s.sizes|,
         stores := s.stores + [Moment(s.pushed, s.popped, s.dropped, s.sizes)])
    case StoreBytes => s.(op := Idle, queueBytes := Sum(s.sizes), bytesAt := LastStore(s))
    case LoadBatches => s.(loaded := Batches(s.queueBatches, LastStore(s)))
    case LoadBytes => s.(loaded := Bytes(s.loaded.batches, s.loaded.at, s.queueBytes, s.bytesAt))
    case LoadDropped =>
      s.(loaded := Dropped(s.loaded.batches, s.loaded.at, s.loaded.bytes, s.loaded.bytesAt, s.dropped))
  }

  predicate Legal(steps: seq<Step>)
    decreases |steps|, 0
  {
    steps != [] ==>
      var front := steps[..|steps| - 1];
      Legal(front) && Enabled(Exec(front), steps[|steps| - 1])
  }

  function Exec(steps: seq<Step>): State
    requires Legal(steps)
    decreases |steps|, 1
  {
    if steps == [] then INIT else Apply(Exec(steps[..|steps| - 1]), steps[|steps| - 1])
  }

  // ----- invariant ----------------------------------------------------------

  predicate AddsUp(m: Moment) { |m.sizes| + m.dropped + m.popped == m.pushed }

  predicate LoadedInv(s: State) {
    && (!s.loaded.Nothing? ==> s.loaded.at < |s.stores| && s.loaded.batches == |s.stores[s.loaded.at].sizes|)
    && (s.loaded.Bytes? || s.loaded.Dropped? ==>
          s.loaded.bytesAt < |s.stores| && s.loaded.bytes == Sum(s.stores[s.loaded.bytesAt].sizes))
    && (s.loaded.Dropped? ==> s.stores[s.loaded.at].dropped <= s.loaded.dropped <= s.dropped)
  }

  predicate Inv(s: State) {
    && AddsUp(Moment(s.pushed, s.popped, s.dropped, s.sizes))
    && s.stores != [] && s.bytesAt < |s.stores|
    && s.queueBatches == |s.stores[|s.stores| - 1].sizes|
    && s.queueBytes == Sum(s.stores[s.bytesAt].sizes)
    && (s.op.DepthBytes? ==> s.sizes == s.stores[|s.stores| - 1].sizes)
    && (forall i :: 0 <= i < |s.stores| ==> AddsUp(s.stores[i]) && s.stores[i].dropped <= s.dropped)
    && LoadedInv(s)
  }

  lemma StepKeepsInv(s: State, step: Step)
    requires Inv(s) && Enabled(s, step)
    ensures Inv(Apply(s, step))
  {
    hide Sum;
  }

  lemma {:induction false} RunKeepsInv(steps: seq<Step>)
    requires Legal(steps)
    ensures Inv(Exec(steps))
  {
    hide Inv, Enabled, Apply;
    if steps == [] {
      InitInv();
    } else {
      RunKeepsInv(steps[..|steps| - 1]);
      StepKeepsInv(Exec(steps[..|steps| - 1]), steps[|steps| - 1]);
    }
  }

  lemma InitInv()
    ensures Inv(INIT)
  {
  }

  // ----- what a scrape shows ------------------------------------------------

  /** Queued and dropped as read, with the pops, make up the pushes of the moment the
      depth describes exactly when no eviction was counted between the store of that
      depth and the load of the counter; otherwise batches are counted twice. */
  lemma ScrapeAddsUpUnlessOvertaken(steps: seq<Step>)
    requires Legal(steps) && Exec(steps).loaded.Dropped?
    ensures var s := Exec(steps); var l := s.loaded;
      && l.at < |s.stores|
      && var m := s.stores[l.at];
         && l.batches + l.dropped + m.popped >= m.pushed
         && (l.batches + l.dropped + m.popped == m.pushed <==> l.dropped == m.dropped)
  {
    RunKeepsInv(steps);
  }

  /** The two depth gauges describe one moment when no store fell between them. */
  lemma GaugesAgreeUnlessOvertaken(steps: seq<Step>)
    requires Legal(steps) && Exec(steps).loaded.Dropped?
    ensures var s := Exec(steps); var l := s.loaded;
      && l.at < |s.stores| && l.bytesAt < |s.stores|
      && l.batches == |s.stores[l.at].sizes| && l.bytes == Sum(s.stores[l.bytesAt].sizes)
      && (l.at == l.bytesAt ==> l.bytes == Sum(s.stores[l.at].sizes))
  {
    RunKeepsInv(steps);
  }

  lemma Next(steps: seq<Step>, step: Step, t: State) returns (more: seq<Step>)
    requires Legal(steps) && Enabled(Exec(steps), step) && t == Apply(Exec(steps), step)
    ensures more == steps + [step] && Legal(more) && Exec(more) == t
  {
    more := steps + [step];
    assert more[..|steps|] == steps;
  }

  lemma NoSteps(none: seq<Step>)
    requires none == []
    ensures Legal(none) && Exec(none) == INIT
  {
  }

  /** One batch is queued; the scrape loads the depth while a push is evicting it,
      and the counter after that: one batch pushed, and two on the page. */
  lemma TornScrape(len: nat) returns (steps: seq<Step>)
    ensures Legal(steps)
    ensures var s := Exec(steps); var l := s.loaded;
      l.Dropped? && l.batches == 1 && l.dropped == 1 && s.pushed == 1 && s.popped == 0
  {
    hide Legal, Exec, Sum;
    steps := [];
    NoSteps(steps);
    var empty, one := Moment(0, 0, 0, []), Moment(1, 0, 0, [len]);
    steps := Next(steps, BeginPush(len), INIT.(op := Pushing(len)));
    steps := Next(steps, Append, State(Depth, [len], 1, 0, 0, 0, 0, 0, [empty], 0, Nothing));
    steps := Next(steps, StoreBatches, State(DepthBytes, [len], 1, 0, 1, 0, 0, 0, [empty, one], 0, Nothing));
    steps := Next(steps, StoreBytes, State(Idle, [len], 1, 0, 1, Sum([len]), 0, 0, [empty, one], 1, Nothing));
    var queued := Exec(steps);
    steps := Next(steps, BeginPush(len), queued.(op := Pushing(len)));
    steps := Next(steps, LoadBatches, queued.(op := Pushing(len), loaded := Batches(1, 1)));
    steps := Next(steps, LoadBytes, queued.(op := Pushing(len), loaded := Bytes(1, 1, Sum([len]), 1)));
    steps := Next(steps, Evict, queued.(op := Counting(len, len), sizes := [], dropped := 1, loaded := Bytes(1, 1, Sum([len]), 1)));
    steps := Next(steps, LoadDropped,
      queued.(op := Counting(len, len), sizes := [], dropped := 1, loaded := Dropped(1, 1, Sum([len]), 1, 1)));
  }
}
