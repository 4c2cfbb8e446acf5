/** The bounded, drop-oldest queue between the batcher and the writer, and the
    counters it publishes. */
module RetryQueues {
  import opened Text
  import opened Unicode

  /** A rendered batch. `addr` stands for the identity of the shared allocation:
      two batches with the same text are still two batches. */
  datatype Batch = Batch(addr: nat, text: string)

  // ----- the queue as a value ----------------------------------------------

  function ByteLen(s: string): nat { |Utf8(s)| }

  /** Everything queued, in bytes. */
  function Payload(q: seq<Batch>): seq<byte> {
    if q == [] then [] else Utf8(q[0].text) + Payload(q[1..])
  }

  function Bytes(q: seq<Batch>): nat { |Payload(q)| }

  lemma {:induction false} BytesConcat(a: seq<Batch>, b: seq<Batch>)
    ensures Bytes(a + b) == Bytes(a) + Bytes(b)
  {
    if a == [] {
      assert a + b == b;
    } else {
      assert (a + b)[1..] == a[1..] + b;
      BytesConcat(a[1..], b);
    }
  }

  lemma BytesHead(q: seq<Batch>)
    requires q != []
    ensures Bytes(q) == ByteLen(q[0].text) + Bytes(q[1..])
  {
  }

  lemma BytesOne(b: Batch)
    ensures Bytes([b]) == ByteLen(b.text)
  {
    assert Bytes([b]) == ByteLen(b.text) + Bytes([b][1..]);
  }

  /** How many of the oldest batches have to go before `incoming` bytes fit. */
  function Evictions(q: seq<Batch>, incoming: nat, capacity: nat): (n: nat)
    ensures n <= |q|
  {
    if q == [] || Bytes(q) + incoming <= capacity then 0 else 1 + Evictions(q[1..], incoming, capacity)
  }

  /** The queue after a push. */
  function Pushed(q: seq<Batch>, b: Batch, capacity: nat): seq<Batch> {
    q[Evictions(q, ByteLen(b.text), capacity)..] + [b]
  }

  /** The queue after the writer is done with `held`. */
  function Popped(q: seq<Batch>, held: Batch): seq<Batch> {
    if q != [] && q[0].addr == held.addr then q[1..] else q
  }

  /** The suffix of `q + [b]` that starts at `k` fits the capacity. */
  predicate FitsFrom(q: seq<Batch>, b: Batch, capacity: nat, k: nat)
    requires k <= |q|
  {
    Bytes(q[k..] + [b]) <= capacity
  }

  /** `n` is the first suffix start that fits, or the end when none does. */
  predicate FirstFit(q: seq<Batch>, b: Batch, capacity: nat, n: nat) {
    && n <= |q|
    && (n == |q| || FitsFrom(q, b, capacity, n))
    && forall k :: 0 <= k < n ==> !FitsFrom(q, b, capacity, k)
  }

  /** A push keeps the longest suffix of the old queue plus the new batch that
      fits, or the new batch alone when nothing longer fits; nothing else does. */
  lemma PushKeepsLongestSuffix(q: seq<Batch>, b: Batch, capacity: nat, n: nat)
    requires n <= |q|
    ensures Pushed(q, b, capacity) == q[n..] + [b] <==> FirstFit(q, b, capacity, n)
  {
    var m := Evictions(q, ByteLen(b.text), capacity);
    EvictionsAreMinimal(q, b, capacity);
    assert |q[n..] + [b]| == |q| - n + 1 && |q[m..] + [b]| == |q| - m + 1;
  }

  lemma {:induction false} EvictionsAreMinimal(q: seq<Batch>, b: Batch, capacity: nat)
    ensures FirstFit(q, b, capacity, Evictions(q, ByteLen(b.text), capacity))
  {
    var n := Evictions(q, ByteLen(b.text), capacity);
    assert q[0..] == q;
    BytesConcat(q, [b]);
    BytesOne(b);
    if n > 0 {
      EvictionsAreMinimal(q[1..], b, capacity);
      forall k | 1 <= k <= |q| ensures q[k..] == q[1..][k - 1..] {
      }
      forall k | 0 <= k < n ensures !FitsFrom(q, b, capacity, k) {
        if k > 0 {
          assert !FitsFrom(q[1..], b, capacity, k - 1);
        }
      }
    }
  }

  /** The memory bound: within capacity, or exactly the newest batch. */
  predicate Bounded(q: seq<Batch>, capacity: nat) {
    Bytes(q) <= capacity || |q| == 1
  }

  lemma PushBounded(q: seq<Batch>, b: Batch, capacity: nat)
    ensures Bounded(Pushed(q, b, capacity), capacity)
    ensures |Payload(Pushed(q, b, capacity))| <= capacity || Pushed(q, b, capacity) == [b]
  {
    EvictionsAreMinimal(q, b, capacity);
  }

  lemma PopBounded(q: seq<Batch>, held: Batch, capacity: nat)
    requires Bounded(q, capacity)
    ensures Bounded(Popped(q, held), capacity)
  {
  }

  lemma PushBytes(q: seq<Batch>, b: Batch, capacity: nat)
    ensures var n := Evictions(q, ByteLen(b.text), capacity);
      Bytes(Pushed(q, b, capacity)) == Bytes(q) - Bytes(q[..n]) + ByteLen(b.text)
  {
    var n := Evictions(q, ByteLen(b.text), capacity);
    assert q == q[..n] + q[n..];
    BytesConcat(q[..n], q[n..]);
    BytesConcat(q[n..], [b]);
    BytesOne(b);
  }

  // ----- counters -----------------------------------------------------------

  /** Write-path counters, shared by queue, writer and metrics endpoint. */
  class WriteStats {
    var queueBatches: nat
    var queueBytes: nat
    var droppedBatches: nat
    var droppedBytes: nat
    var rejectedBatches: nat
    var writtenBatches: nat
    var writtenBytes: nat
    var lastWriteSuccess: nat

    constructor ()
      ensures queueBatches == queueBytes == droppedBatches == droppedBytes == 0
      ensures rejectedBatches == writtenBatches == writtenBytes == lastWriteSuccess == 0
    {
      queueBatches, queueBytes, droppedBatches, droppedBytes := 0, 0, 0, 0;
      rejectedBatches, writtenBatches, writtenBytes, lastWriteSuccess := 0, 0, 0, 0;
    }

    method SetQueueDepth(batches: nat, bytes: nat)
      modifies `queueBatches, `queueBytes
      ensures queueBatches == batches && queueBytes == bytes
    {
      queueBatches, queueBytes := batches, bytes;
    }

    method RecordEviction(bytes: nat)
      modifies `droppedBatches, `droppedBytes
      ensures droppedBatches == old(droppedBatches) + 1 && droppedBytes == old(droppedBytes) + bytes
    {
      droppedBatches, droppedBytes := droppedBatches + 1, droppedBytes + bytes;
    }

    method RecordRejected()
      modifies `rejectedBatches
      ensures rejectedBatches == old(rejectedBatches) + 1
    {
      rejectedBatches := rejectedBatches + 1;
    }

    method RecordWritten(bytes: nat, atUnix: nat)
      modifies `writtenBatches, `writtenBytes, `lastWriteSuccess
      ensures writtenBatches == old(writtenBatches) + 1 && writtenBytes == old(writtenBytes) + bytes
      ensures lastWriteSuccess == atUnix
    {
      writtenBatches, writtenBytes, lastWriteSuccess := writtenBatches + 1, writtenBytes + bytes, atUnix;
    }
  }

  // ----- notification -------------------------------------------------------

  /** The one stored permit; whether the waiter sleeps; whether it has been told. */
  datatype Signal = Signal(permit: bool, parked: bool, woken: bool)

  /** Wakes the sleeping waiter or stores the permit; a second one is not kept. */
  function NotifiedOne(s: Signal): Signal {
    if s.parked && !s.woken then s.(woken := true) else s.(permit := true)
  }

  /** Wakes the sleeping waiter and stores nothing. */
  function NotifiedAll(s: Signal): Signal { s.(woken := s.woken || s.parked) }

  class Notify {
    var permit: bool
    var parked: bool
    var woken: bool

    ghost function State(): Signal reads this { Signal(permit, parked, woken) }

    constructor ()
      ensures State() == Signal(false, false, false)
    {
      permit, parked, woken := false, false, false;
    }

    method NotifyOne()
      modifies this
      ensures State() == NotifiedOne(old(State()))
    {
      if parked && !woken {
        woken := true;
      } else {
        permit := true;
      }
    }

    method NotifyWaiters()
      modifies this
      ensures State() == NotifiedAll(old(State()))
    {
      if parked {
        woken := true;
      }
    }
  }

  // ----- the queue as an object --------------------------------------------

  class RetryQueue {
    const capacity: nat
    const stats: WriteStats
    const notify: Notify
    var batches: seq<Batch>
    var bytes: nat
    var closed: bool

    /** The byte field, the published depth and the contents agree, and the
        memory bound holds. */
    ghost predicate Valid()
      reads this, stats
    {
      && bytes == Bytes(batches)
      && stats.queueBatches == |batches| && stats.queueBytes == bytes
      && Bounded(batches, capacity)
    }

    constructor (capacity: nat, stats: WriteStats)
      requires stats.queueBatches == 0 && stats.queueBytes == 0
      ensures Valid() && batches == [] && !closed
      ensures this.capacity == capacity && this.stats == stats
      ensures fresh(notify) && notify.State() == Signal(false, false, false)
    {
      this.capacity := capacity;
      this.stats := stats;
      notify := new Notify();
      batches, bytes, closed := [], 0, false;
    }

    /** Appends a batch, evicting the oldest ones while it does not fit. Every
        eviction is counted; `bytes -= old.len()` never underflows. */
    method Push(batch: Batch)
      requires Valid()
      modifies this`batches, this`bytes, notify
      modifies stats`queueBatches, stats`queueBytes, stats`droppedBatches, stats`droppedBytes
      ensures Valid()
      ensures batches == Pushed(old(batches), batch, capacity)
      ensures notify.State() == NotifiedOne(old(notify.State()))
      ensures var n := Evictions(old(batches), ByteLen(batch.text), capacity);
        && stats.droppedBatches == old(stats.droppedBatches) + n
        && stats.droppedBytes == old(stats.droppedBytes) + |Payload(old(batches)[..n])|
      ensures bytes == stats.queueBytes == |Payload(batches)| && stats.queueBatches == |batches|
    {
      hide Bounded, ByteLen;
      ghost var q := batches;
      ghost var i := 0;
      var len := ByteLen(batch.text);
      assert q[0..] == q && q[..0] == [];
      while batches != [] && bytes + len > capacity
        invariant 0 <= i <= |q| && batches == q[i..]
        invariant bytes == Bytes(batches) && notify.State() == old(notify.State())
        invariant Evictions(q, len, capacity) == i + Evictions(batches, len, capacity)
        invariant stats.droppedBatches == old(stats.droppedBatches) + i
        invariant stats.droppedBytes == old(stats.droppedBytes) + Bytes(q[..i])
        decreases |batches|
      {
        var oldest := batches[0];
        BytesHead(batches);
        assert q[..i + 1] == q[..i] + [oldest];
        BytesConcat(q[..i], [oldest]);
        BytesOne(oldest);
        batches := batches[1..];
        bytes := bytes - ByteLen(oldest.text);
        stats.RecordEviction(ByteLen(oldest.text));
        i := i + 1;
      }
      BytesConcat(batches, [batch]);
      BytesOne(batch);
      bytes := bytes + len;
      batches := batches + [batch];
      PushBounded(q, batch, capacity);
      stats.SetQueueDepth(|batches|, bytes);
      notify.NotifyOne();
    }

    /** The oldest batch, without removing it. */
    method Peek() returns (front: Option<Batch>)
      ensures front == if batches == [] then None else Some(batches[0])
    {
      front := if batches == [] then None else Some(batches[0]);
    }

    /** Removes the front batch only if it is the very one that was written. */
    method PopIfFront(written: Batch) returns (removed: bool)
      requires Valid()
      modifies this`batches, this`bytes, stats`queueBatches, stats`queueBytes
      ensures Valid()
      ensures batches == Popped(old(batches), written)
      ensures removed <==> old(batches) != [] && old(batches)[0].addr == written.addr
      ensures !removed ==> bytes == old(bytes)
    {
      if batches != [] && batches[0].addr == written.addr {
        PopBounded(batches, written, capacity);
        bytes := bytes - ByteLen(batches[0].text);
        batches := batches[1..];
        stats.SetQueueDepth(|batches|, bytes);
        return true;
      }
      return false;
    }

    method Close()
      modifies this`closed, notify
      ensures closed && notify.State() == NotifiedAll(old(notify.State()))
    {
      closed := true;
      notify.NotifyWaiters();
    }
  }
}
