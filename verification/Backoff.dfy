/** How a failed write is classified and how long the writer waits before trying
    again. */
module Backoff {
  import opened Text

  // ----- durations ----------------------------------------------------------

  const NANOS_PER_SEC: nat := 1_000_000_000
  const MAX_SECS: U64 := 0xFFFF_FFFF_FFFF_FFFF

  type U64 = n: int | 0 <= n <= 0xFFFF_FFFF_FFFF_FFFF

  /** Whole seconds in 64 bits plus a nanosecond part below one second. */
  datatype Duration = Duration(secs: nat, nanos: nat) {
    predicate Valid() { secs <= MAX_SECS && nanos < NANOS_PER_SEC }
    function Total(): nat { secs * NANOS_PER_SEC + nanos }
  }

  function FromMillis(ms: U64): (d: Duration)
    ensures d.Valid() && d.Total() == ms * 1_000_000
  {
    Duration(ms / 1000, ms % 1000 * 1_000_000)
  }

  function FromSecs(s: U64): (d: Duration)
    ensures d.Valid() && d.Total() == s * NANOS_PER_SEC
  {
    Duration(s, 0)
  }

  /** Multiplication that reports overflow of the 64-bit seconds. */
  function CheckedMul(d: Duration, k: nat): Option<Duration> {
    var totalNanos := d.nanos * k;
    var extraSecs := totalNanos / NANOS_PER_SEC;
    var secs := d.secs * k;
    if secs > MAX_SECS || secs + extraSecs > MAX_SECS then None
    else Some(Duration(secs + extraSecs, totalNanos % NANOS_PER_SEC))
  }

  function MinDuration(a: Duration, b: Duration): Duration {
    if b.Total() < a.Total() then b else a
  }

  function Pow2(n: nat): (p: nat)
    ensures p >= 1
  {
    if n == 0 then 1 else 2 * Pow2(n - 1)
  }

  /** `initial * 2^attempt`, capped at `max`, with the shift held at 31 bits. */
  function BackoffDelay(initial: Duration, max: Duration, attempt: nat): Duration {
    var scaled := CheckedMul(initial, Pow2(Min(attempt, 31)));
    MinDuration(if scaled.Some? then scaled.value else max, max)
  }

  function Min(a: nat, b: nat): nat { if a < b then a else b }

  lemma CheckedMulExact(d: Duration, k: nat)
    requires d.Valid()
    ensures CheckedMul(d, k).Some? ==> CheckedMul(d, k).value.Valid()
    ensures CheckedMul(d, k).Some? ==> CheckedMul(d, k).value.Total() == d.Total() * k
    ensures CheckedMul(d, k).None? ==> d.Total() * k > MAX_SECS * NANOS_PER_SEC
  {
    var totalNanos := d.nanos * k;
    var extra := totalNanos / NANOS_PER_SEC;
    assert totalNanos == extra * NANOS_PER_SEC + totalNanos % NANOS_PER_SEC;
    assert d.Total() * k == d.secs * k * NANOS_PER_SEC + d.nanos * k;
    assert d.Total() * k == (d.secs * k + extra) * NANOS_PER_SEC + totalNanos % NANOS_PER_SEC;
    if CheckedMul(d, k).None? {
      var secs := d.secs * k + extra;
      assert secs >= MAX_SECS + 1;
      assert secs * NANOS_PER_SEC >= (MAX_SECS + 1) * NANOS_PER_SEC;
    }
  }

  lemma CappedProduct(initialMs: U64, maxMs: U64, k: nat)
    ensures var scaled := CheckedMul(FromMillis(initialMs), k);
      MinDuration(if scaled.Some? then scaled.value else FromMillis(maxMs), FromMillis(maxMs)).Total()
      == Min(maxMs, initialMs * k) * 1_000_000
  {
    var d, max := FromMillis(initialMs), FromMillis(maxMs);
    CheckedMulExact(d, k);
    var product := initialMs * k;
    assert d.Total() * k == product * 1_000_000;
    assert max.Total() == maxMs * 1_000_000;
  }

  /** Over unbounded integers, for every pair of millisecond settings and every
      attempt number: the overflow branch never changes the answer. */
  lemma BackoffIsCappedDoubling(initialMs: U64, maxMs: U64, attempt: nat)
    ensures BackoffDelay(FromMillis(initialMs), FromMillis(maxMs), attempt).Total()
         == Min(maxMs, initialMs * Pow2(Min(attempt, 31))) * 1_000_000
  {
    CappedProduct(initialMs, maxMs, Pow2(Min(attempt, 31)));
  }

  lemma {:induction false} Pow2Monotone(a: nat, b: nat)
    requires a <= b
    ensures Pow2(a) <= Pow2(b)
    ensures a < b ==> Pow2(a) < Pow2(b)
    decreases b
  {
    if a < b {
      Pow2Monotone(a, b - 1);
    }
  }

  lemma ScaleMonotone(x: nat, p: nat, q: nat)
    requires p <= q
    ensures x * p <= x * q
    ensures x > 0 && p < q ==> x * p < x * q
  {
    assert x * q == x * p + x * (q - p);
  }

  /** Waits never get shorter as the attempts go up. */
  lemma BackoffMonotone(initialMs: U64, maxMs: U64, a: nat, b: nat)
    requires a <= b
    ensures BackoffDelay(FromMillis(initialMs), FromMillis(maxMs), a).Total()
         <= BackoffDelay(FromMillis(initialMs), FromMillis(maxMs), b).Total()
  {
    BackoffIsCappedDoubling(initialMs, maxMs, a);
    BackoffIsCappedDoubling(initialMs, maxMs, b);
    Pow2Monotone(Min(a, 31), Min(b, 31));
    ScaleMonotone(initialMs, Pow2(Min(a, 31)), Pow2(Min(b, 31)));
  }

  /** The documented formula, `min(max, initial * 2^attempt)`, is what the code
      computes exactly when the 31-bit shift has not run out below the cap. */
  lemma DocumentedBackoff(initialMs: U64, maxMs: U64, attempt: nat)
    ensures BackoffDelay(FromMillis(initialMs), FromMillis(maxMs), attempt).Total()
            == Min(maxMs, initialMs * Pow2(attempt)) * 1_000_000
       <==> attempt <= 31 || initialMs * Pow2(31) >= maxMs || initialMs == 0
  {
    hide BackoffDelay;
    BackoffIsCappedDoubling(initialMs, maxMs, attempt);
    var shift := Min(attempt, 31);
    if attempt > shift {
      Pow2Monotone(shift, attempt);
      CapsAgree(initialMs, maxMs, Pow2(shift), Pow2(attempt));
    }
  }

  lemma LastShifts()
    ensures Pow2(31) == 0x8000_0000 && Pow2(32) == 0x1_0000_0000
  {
    assert Pow2(8) == 0x100 && Pow2(16) == 0x1_0000 && Pow2(24) == 0x100_0000;
  }

  /** One millisecond doubling under a cap of about nine thousand years: at attempt
      32 the delay stays at 2^31 ms, half of what the formula says. */
  lemma ShiftRunsOut()
    ensures BackoffDelay(FromMillis(1), FromMillis(0xFFFF_FFFF_FFFF), 32).Total() == 0x8000_0000 * 1_000_000
    ensures Min(0xFFFF_FFFF_FFFF, 1 * Pow2(32)) == 0x1_0000_0000
  {
    hide BackoffDelay, Pow2;
    LastShifts();
    BackoffIsCappedDoubling(1, 0xFFFF_FFFF_FFFF, 32);
  }

  lemma CapsAgree(x: nat, cap: nat, p: nat, q: nat)
    requires p < q
    ensures Min(cap, x * p) == Min(cap, x * q) <==> x * p >= cap || x == 0
  {
    ScaleMonotone(x, p, q);
  }

  // ----- classification -----------------------------------------------------

  /** What the server, or the transport, answered to one POST. */
  datatype Answer = Unreachable | Status(code: nat, retryAfter: Option<U64>)

  datatype WriteError =
    | Transport
    | Server(status: nat, retryAfterSecs: Option<U64>)
    | Client(status: nat)

  /** `None` is success. 408 and 429 are 4xx but transient. */
  function Classify(a: Answer): Option<WriteError> {
    match a
    case Unreachable => Some(Transport)
    case Status(code, retryAfter) =>
      if 200 <= code < 300 then None
      else if code >= 500 || code == 429 || code == 408 then Some(Server(code, retryAfter))
      else Some(Client(code))
  }

  predicate IsRetryable(e: WriteError) { !e.Client? }

  predicate Accepted(a: Answer) { Classify(a).None? }
  predicate Rejected(a: Answer) { Classify(a).Some? && !IsRetryable(Classify(a).value) }
  predicate Retryable(a: Answer) { Classify(a).Some? && IsRetryable(Classify(a).value) }

  /** The wait after a transient failure: the server's hint if it gave one. */
  function RetryDelay(e: WriteError, initial: Duration, max: Duration, attempt: nat): Duration
  {
    MinDuration(if e.Server? && e.retryAfterSecs.Some? then FromSecs(e.retryAfterSecs.value)
                else BackoffDelay(initial, max, attempt), max)
  }

  /** Whatever the server asks for, no wait exceeds the configured ceiling, and
      without a hint the second cap changes nothing. */
  lemma RetryDelayIsCapped(e: WriteError, initialMs: U64, maxMs: U64, attempt: nat)
    ensures var d := RetryDelay(e, FromMillis(initialMs), FromMillis(maxMs), attempt);
      && d.Total() <= maxMs * 1_000_000
      && (e.Server? && e.retryAfterSecs.Some? ==>
            d.Total() == Min(maxMs * 1_000_000, e.retryAfterSecs.value * NANOS_PER_SEC))
      && (!(e.Server? && e.retryAfterSecs.Some?) ==>
            d.Total() == Min(maxMs, initialMs * Pow2(Min(attempt, 31))) * 1_000_000)
  {
    BackoffIsCappedDoubling(initialMs, maxMs, attempt);
  }

  /** A transient answer is followed by a real pause, not one of length zero. */
  predicate Pauses(a: Answer, initialMs: U64, maxMs: U64) {
    maxMs > 0 && if a.Status? && a.retryAfter.Some? then a.retryAfter.value > 0 else initialMs > 0
  }

  /** That depends on the settings and the hint only, not on the attempt number. */
  lemma PausesIsPositiveWait(a: Answer, initialMs: U64, maxMs: U64, attempt: nat)
    requires Retryable(a)
    ensures Pauses(a, initialMs, maxMs)
       <==> RetryDelay(Classify(a).value, FromMillis(initialMs), FromMillis(maxMs), attempt).Total() > 0
  {
    hide RetryDelay;
    RetryDelayIsCapped(Classify(a).value, initialMs, maxMs, attempt);
    ScaleMonotone(initialMs, 1, Pow2(Min(attempt, 31)));
  }

  /** The three verdicts are exclusive and cover every answer. */
  lemma VerdictsPartition(a: Answer)
    ensures Accepted(a) <==> a.Status? && 200 <= a.code < 300
    ensures Retryable(a) <==> a.Unreachable? || a.code >= 500 || a.code == 408 || a.code == 429
    ensures Rejected(a) <==> !Accepted(a) && !Retryable(a)
  {
  }
}
