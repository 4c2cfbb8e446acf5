/** The debug page keeps its rows in step with the server's latest-per-probe map
    by combining one snapshot with a stream of results it subscribed to. */
module Reconcile {
  import opened Results
  import opened Text

  type Rows = map<string, ProbeResult>

  /** One upsert per result, in order. */
  function Upserts(m: Rows, results: seq<ProbeResult>): Rows {
    if results == [] then m
    else
      var n := |results| - 1;
      Upserts(m, results[..n])[results[n].name := results[n]]
  }

  function Look(m: Rows, name: string): Option<ProbeResult> {
    if name in m then Some(m[name]) else None
  }

  /** The last result of that name. */
  function Last(results: seq<ProbeResult>, name: string): Option<ProbeResult> {
    if results == [] then None
    else
      var n := |results| - 1;
      if results[n].name == name then Some(results[n]) else Last(results[..n], name)
  }

  function OrElse<T>(a: Option<T>, b: Option<T>): Option<T> { if a.Some? then a else b }

  /** `values` lists a map's values in some iteration order. */
  ghost predicate Lists(values: seq<ProbeResult>, m: Rows) {
    forall name :: Look(m, name) == Last(values, name)
  }

  lemma {:induction false} LookUpserts(m: Rows, results: seq<ProbeResult>, name: string)
    ensures Look(Upserts(m, results), name) == OrElse(Last(results, name), Look(m, name))
  {
    if results != [] {
      LookUpserts(m, results[..|results| - 1], name);
    }
  }

  lemma {:induction false} LastConcat(a: seq<ProbeResult>, b: seq<ProbeResult>, name: string)
    ensures Last(a + b, name) == OrElse(Last(b, name), Last(a, name))
  {
    if b == [] {
      ConcatNothing(a);
    } else {
      var n := |b| - 1;
      LastConcat(a, b[..n], name);
      assert (a + b)[..|a| + n] == a + b[..n];
    }
  }

  lemma {:induction false} LastIsMember(results: seq<ProbeResult>, name: string)
    ensures Last(results, name).Some? ==> Last(results, name).value in results && Last(results, name).value.name == name
    ensures Last(results, name).None? <==> forall r :: r in results ==> r.name != name
  {
    if results != [] {
      var n := |results| - 1;
      LastIsMember(results[..n], name);
      assert results == results[..n] + [results[n]];
    }
  }

  lemma SameLookups(a: Rows, b: Rows)
    ensures a == b <==> forall name :: Look(a, name) == Look(b, name)
  {
    if forall name :: Look(a, name) == Look(b, name) {
      forall name ensures name in a <==> name in b {
        assert Look(a, name) == Look(b, name);
      }
      forall name | name in a ensures a[name] == b[name] {
        assert Look(a, name) == Look(b, name);
      }
    }
  }

  /** For this probe the page needs nothing from before the stream but what the
      snapshot shows: a streamed result replaces it, or it is up to date. */
  predicate Settled(events: seq<ProbeResult>, snapshot: nat, since: nat, seen: nat, name: string)
    requires snapshot <= |events| && since <= seen <= |events|
  {
    Last(events[since..seen], name).Some? || Last(events[..snapshot], name) == Last(events[..since], name)
  }

  /** Nothing published between an early snapshot and a late subscription matters. */
  predicate NothingMissed(events: seq<ProbeResult>, snapshot: nat, since: nat, seen: nat)
    requires snapshot <= |events| && since <= seen <= |events|
  {
    snapshot < since ==> forall r :: r in events[snapshot..since] ==> Settled(events, snapshot, since, seen, r.name)
  }

  lemma SettledMeansAgrees(events: seq<ProbeResult>, snapshot: nat, since: nat, seen: nat, name: string)
    requires snapshot <= seen && since <= seen <= |events|
    ensures Look(Upserts(Upserts(map[], events[..snapshot]), events[since..seen]), name)
         == Look(Upserts(map[], events[..seen]), name)
       <==> Settled(events, snapshot, since, seen, name)
  {
    LookUpserts(map[], events[..snapshot], name);
    LookUpserts(Upserts(map[], events[..snapshot]), events[since..seen], name);
    LookUpserts(map[], events[..seen], name);
    assert events[..seen] == events[..since] + events[since..seen];
    LastConcat(events[..since], events[since..seen], name);
  }

  lemma OverlapSettles(events: seq<ProbeResult>, snapshot: nat, since: nat, seen: nat, name: string)
    requires since <= snapshot <= seen <= |events|
    ensures Settled(events, snapshot, since, seen, name)
  {
    assert events[..snapshot] == events[..since] + events[since..snapshot];
    assert events[since..seen] == events[since..snapshot] + events[snapshot..seen];
    LastConcat(events[..since], events[since..snapshot], name);
    LastConcat(events[since..snapshot], events[snapshot..seen], name);
  }

  lemma AbsentInGapSettles(events: seq<ProbeResult>, snapshot: nat, since: nat, seen: nat, name: string)
    requires snapshot < since <= seen <= |events|
    requires forall r :: r in events[snapshot..since] ==> r.name != name
    ensures Settled(events, snapshot, since, seen, name)
  {
    assert events[..since] == events[..snapshot] + events[snapshot..since];
    LastConcat(events[..snapshot], events[snapshot..since], name);
    LastIsMember(events[snapshot..since], name);
  }

  /** Replaying the stream over the snapshot gives the server's map exactly when
      nothing was missed. Overlap never hurts: with `since <= snapshot` the
      condition is met whatever was published. */
  lemma ReplayOverSnapshot(events: seq<ProbeResult>, snapshot: nat, since: nat, seen: nat)
    requires snapshot <= seen && since <= seen <= |events|
    ensures Upserts(Upserts(map[], events[..snapshot]), events[since..seen]) == Upserts(map[], events[..seen])
       <==> NothingMissed(events, snapshot, since, seen)
  {
    hide Upserts, Last, Look, Settled;
    var replayed := Upserts(Upserts(map[], events[..snapshot]), events[since..seen]);
    var server := Upserts(map[], events[..seen]);
    forall name
      ensures Look(replayed, name) == Look(server, name) <==> Settled(events, snapshot, since, seen, name)
      ensures since <= snapshot || (forall r :: r in events[snapshot..since] ==> r.name != name)
          ==> Settled(events, snapshot, since, seen, name)
    {
      SettledMeansAgrees(events, snapshot, since, seen, name);
      if since <= snapshot {
        OverlapSettles(events, snapshot, since, seen, name);
      } else if forall r :: r in events[snapshot..since] ==> r.name != name {
        AbsentInGapSettles(events, snapshot, since, seen, name);
      }
    }
    SameLookups(replayed, server);
  }

  // ----- the two stateful parties ------------------------------------------

  /** The server's side of the page. `sent` is what went to the stream's channel. */
  class WebState {
    var results: Rows
    var sent: seq<ProbeResult>

    constructor ()
      ensures results == map[] && sent == []
    {
      results, sent := map[], [];
    }

    /** One completed probe: store it, then send it on. */
    method OnCompleted(result: ProbeResult)
      modifies this
      ensures sent == old(sent) + [result]
      ensures forall name :: Look(results, name) == OrElse(Last([result], name), Look(old(results), name))
      ensures old(results == Upserts(map[], sent)) ==> results == Upserts(map[], sent)
    {
      results := results[result.name := result];
      sent := sent + [result];
      assert sent[..|sent| - 1] == old(sent);
    }
  }

  datatype PageState = PageState(rows: Rows, pending: seq<ProbeResult>, seeded: bool)

  function Received(p: PageState, r: ProbeResult): PageState {
    if p.seeded then p.(rows := Upserts(p.rows, [r])) else p.(pending := p.pending + [r])
  }

  function Seeded(p: PageState, snapshot: Option<seq<ProbeResult>>): PageState {
    var base := if snapshot.Some? then Upserts(p.rows, snapshot.value) else p.rows;
    PageState(Upserts(base, p.pending), [], true)
  }

  class Page {
    var rows: Rows
    var pending: seq<ProbeResult>
    var seeded: bool

    ghost function State(): PageState reads this { PageState(rows, pending, seeded) }

    constructor ()
      ensures State() == PageState(map[], [], false)
    {
      rows, pending, seeded := map[], [], false;
    }

    method UpsertAll(results: seq<ProbeResult>)
      modifies `rows
      ensures rows == Upserts(old(rows), results)
    {
      for i := 0 to |results|
        invariant rows == Upserts(old(rows), results[..i])
      {
        assert results[..i + 1][..i] == results[..i];
        rows := rows[results[i].name := results[i]];
      }
      assert results[..|results|] == results;
    }

    method OnMessage(r: ProbeResult)
      modifies this
      ensures State() == Received(old(State()), r)
    {
      if seeded {
        UpsertAll([r]);
      } else {
        pending := pending + [r];
      }
    }

    /** Apply the snapshot, when there is one, then what arrived meanwhile. */
    method Seed(snapshot: Option<seq<ProbeResult>>)
      modifies this
      ensures State() == Seeded(old(State()), snapshot)
    {
      if snapshot.Some? {
        UpsertAll(snapshot.value);
      }
      seeded := true;
      var held := pending;
      pending := [];
      UpsertAll(held);
    }
  }

  // ----- server, channel and page together ---------------------------------

  datatype Step =
    | Insert(result: ProbeResult)                   // into the server's map
    | Send                                          // to the stream's channel
    | Subscribe                                     // the page's stream is connected
    | Snapshot(values: seq<ProbeResult>)            // the snapshot request reads the map
    | SnapshotFails
    | Deliver                                       // one streamed result reaches the page
    | Skip                                          // one is skipped, the client being too slow
    | SeedPage                                      // the snapshot's answer reaches the page

  /** `events` are the results inserted so far, `sent` of them sent on. `answer`
      is the snapshot with the number of events it covers; none for a failure.
      `seen` are the delivered results, and `stale` the names of which the last
      streamed result was skipped. */
  datatype State = State(
    events: seq<ProbeResult>, results: Rows, sent: nat,
    since: Option<nat>, next: nat, seen: seq<ProbeResult>, stale: set<string>,
    answer: Option<(nat, Option<seq<ProbeResult>>)>, page: PageState)

  const INIT := State([], map[], 0, None, 0, [], {}, None, PageState(map[], [], false))

  ghost predicate Enabled(s: State, step: Step) {
    match step
    case Insert(_) => s.sent == |s.events|
    case Send => s.sent < |s.events|
    case Subscribe => s.since.None?
    case Snapshot(values) => s.answer.None? && Lists(values, s.results)
    case SnapshotFails => s.answer.None?
    case Deliver => s.since.Some? && s.next < s.sent
    case Skip => s.since.Some? && s.next < s.sent
    case SeedPage => s.answer.Some? && !s.page.seeded
  }

  ghost function Apply(s: State, step: Step): State {
    match step
    case Insert(r) => s.(events := s.events + [r], results := s.results[r.name := r])
    case Send => s.(sent := s.sent + 1)
    case Subscribe => s.(since := Some(s.sent), next := s.sent)
    case Snapshot(values) => s.(answer := Some((|s.events|, Some(values))))
    case SnapshotFails => s.(answer := Some((0, None)))
    case Deliver =>
      if s.next >= |s.events| then s
      else
        var r := s.events[s.next];
        s.(page := Received(s.page, r), next := s.next + 1, seen := s.seen + [r], stale := s.stale - {r.name})
    case Skip =>
      if s.next >= |s.events| then s else s.(next := s.next + 1, stale := s.stale + {s.events[s.next].name})
    case SeedPage => if s.answer.Some? then s.(page := Seeded(s.page, s.answer.value.1)) else s
  }

  ghost predicate Legal(steps: seq<Step>)
    decreases |steps|, 0
  {
    steps != [] ==>
      var front := steps[..|steps| - 1];
      Legal(front) && Enabled(Exec(front), steps[|steps| - 1])
  }

  ghost function Exec(steps: seq<Step>): State
    requires Legal(steps)
    decreases |steps|, 1
  {
    if steps == [] then INIT else Apply(Exec(steps[..|steps| - 1]), steps[|steps| - 1])
  }

  predicate ServerInv(s: State) {
    s.results == Upserts(map[], s.events) && s.sent <= |s.events| <= s.sent + 1
  }

  /** What was delivered is held back before the seed and replayed over the
      snapshot's map after it. */
  predicate PageInv(s: State) {
    && (if s.since.Some? then s.since.value <= s.next <= s.sent else s.next == 0)
    && (s.answer.Some? ==> s.answer.value.0 <= |s.events|)
    && (if s.page.seeded
        then s.answer.Some? && s.page.pending == [] && s.page.rows == Upserts(Covered(s), s.seen)
        else s.page.rows == map[] && s.page.pending == s.seen)
  }

  /** The stream is `events[since..next]`; of each name that is not stale the last
      streamed result was delivered, and was the last one of it delivered. */
  ghost predicate StreamInv(s: State) {
    && (s.since.None? ==> s.seen == [] && s.stale == {})
    && forall name :: name !in s.stale ==> Last(s.seen, name) == Last(Streamed(s), name)
  }

  ghost predicate AnswerInv(s: State) {
    s.answer.Some? && s.answer.value.0 <= |s.events| ==>
      match s.answer.value.1
      case Some(values) => Lists(values, Covered(s))
      case None => s.answer.value.0 == 0
  }

  function Streamed(s: State): seq<ProbeResult> {
    if s.since.Some? && s.since.value <= s.next <= |s.events| then s.events[s.since.value..s.next] else []
  }

  /** The server's map when the snapshot was taken; empty for a failed one. */
  function Covered(s: State): Rows {
    if s.answer.Some? && s.answer.value.0 <= |s.events| then Upserts(map[], s.events[..s.answer.value.0]) else map[]
  }

  ghost predicate Inv(s: State) { ServerInv(s) && PageInv(s) && StreamInv(s) && AnswerInv(s) }

  /** The iteration order of the snapshot is immaterial. */
  lemma UpsertListing(values: seq<ProbeResult>, m: Rows)
    requires Lists(values, m)
    ensures Upserts(map[], values) == m
  {
    forall name ensures Look(Upserts(map[], values), name) == Look(m, name) {
      LookUpserts(map[], values, name);
    }
    SameLookups(Upserts(map[], values), m);
  }

  lemma {:induction false} UpsertsConcat(m: Rows, a: seq<ProbeResult>, b: seq<ProbeResult>)
    ensures Upserts(m, a + b) == Upserts(Upserts(m, a), b)
  {
    if b == [] {
      ConcatNothing(a);
    } else {
      var n := |b| - 1;
      UpsertsConcat(m, a, b[..n]);
      assert (a + b)[..|a| + n] == a + b[..n];
    }
  }

  lemma StepKeepsInv(s: State, step: Step)
    requires Inv(s) && Enabled(s, step)
    ensures Inv(Apply(s, step))
  {
    hide Upserts, Lists, Look, Last;
    var t := Apply(s, step);
    match step {
      case Insert(r) => InsertKeepsInv(s, r);
      case Send =>
      case Subscribe => assert Streamed(s) == [] && Streamed(t) == [];
      case Snapshot(values) => assert s.events[..|s.events|] == s.events;
      case SnapshotFails => assert s.events[..0] == [];
      case Deliver =>
        StreamGrows(s, t);
        UpsertsConcat(Covered(s), s.seen, [s.events[s.next]]);
      case Skip => StreamGrows(s, t);
      case SeedPage =>
        var (covered, snapshot) := s.answer.value;
        if snapshot.Some? {
          UpsertListing(snapshot.value, Covered(s));
        } else {
          NoUpserts(map[], s.events[..0]);
        }
    }
  }

  lemma StreamGrows(s: State, t: State)
    requires Inv(s) && (t == Apply(s, Deliver) || t == Apply(s, Skip)) && Enabled(s, Deliver)
    ensures StreamInv(t)
  {
    hide Upserts, Lists, Look, Last;
    var r := s.events[s.next];
    assert Streamed(t) == Streamed(s) + [r];
    forall name ensures Last(s.seen + [r], name) == (if r.name == name then Some(r) else Last(s.seen, name))
      && Last(Streamed(t), name) == if r.name == name then Some(r) else Last(Streamed(s), name)
    {
      LastNext(s.seen, r, name);
      LastNext(Streamed(s), r, name);
    }
  }

  lemma LastNext(a: seq<ProbeResult>, r: ProbeResult, name: string)
    ensures Last(a + [r], name) == if r.name == name then Some(r) else Last(a, name)
  {
    assert (a + [r])[..|a|] == a;
  }

  lemma NoUpserts(m: Rows, none: seq<ProbeResult>)
    requires none == []
    ensures Upserts(m, none) == m
  {
  }

  lemma InsertKeepsInv(s: State, r: ProbeResult)
    requires Inv(s) && s.sent == |s.events|
    ensures Inv(Apply(s, Insert(r)))
  {
    hide Lists, Look, Last;
    var t := Apply(s, Insert(r));
    assert t.events[..|s.events|] == s.events;
    assert Streamed(t) == Streamed(s);
    assert s.answer.Some? ==> t.events[..s.answer.value.0] == s.events[..s.answer.value.0];
    assert Covered(t) == Covered(s);
  }

  lemma {:induction false} RunKeepsInv(steps: seq<Step>)
    requires Legal(steps)
    ensures Inv(Exec(steps))
  {
    if steps != [] {
      var front := steps[..|steps| - 1];
      RunKeepsInv(front);
      StepKeepsInv(Exec(front), steps[|steps| - 1]);
    }
  }

  /** Every sent result has reached the page, and the page is seeded. */
  predicate CaughtUp(s: State) {
    s.page.seeded && s.since.Some? && s.next == s.sent == |s.events|
  }

  /** In every run, whatever the interleaving and wherever the seed falls among the
      deliveries, once the page has caught up: the row of a name whose last streamed
      result was delivered, or that was not streamed, agrees with the server exactly
      when the page needed nothing from before the stream. Skips do not matter then. */
  lemma RowConverges(steps: seq<Step>, name: string)
    requires Legal(steps) && CaughtUp(Exec(steps)) && name !in Exec(steps).stale
    ensures var s := Exec(steps);
      && s.since.value <= |s.events| && s.answer.Some? && s.answer.value.0 <= |s.events|
      && (Look(s.page.rows, name) == Look(s.results, name)
          <==> Settled(s.events, s.answer.value.0, s.since.value, |s.events|, name))
  {
    RunKeepsInv(steps);
    var s := Exec(steps);
    LookUpserts(Covered(s), s.seen, name);
    LookUpserts(Covered(s), Streamed(s), name);
    assert s.events[..|s.events|] == s.events;
    SettledMeansAgrees(s.events, s.answer.value.0, s.since.value, |s.events|, name);
  }

  /** With no name stale, and so whenever nothing was skipped, the whole page shows
      the server's map exactly when it missed nothing between an early snapshot and a
      late subscription. */
  lemma Convergence(steps: seq<Step>)
    requires Legal(steps) && CaughtUp(Exec(steps))
    ensures var s := Exec(steps);
      && s.since.value <= |s.events| && s.answer.Some? && s.answer.value.0 <= |s.events|
      && s.results == Upserts(map[], s.events)
      && (s.stale == {} ==>
            (s.page.rows == s.results <==> NothingMissed(s.events, s.answer.value.0, s.since.value, |s.events|)))
  {
    RunKeepsInv(steps);
    var s := Exec(steps);
    ReplayOverSnapshot(s.events, s.answer.value.0, s.since.value, |s.events|);
    assert s.events[..|s.events|] == s.events;
    if s.stale == {} {
      forall name ensures Look(Upserts(Covered(s), s.seen), name) == Look(Upserts(Covered(s), Streamed(s)), name) {
        LookUpserts(Covered(s), s.seen, name);
        LookUpserts(Covered(s), Streamed(s), name);
      }
      SameLookups(Upserts(Covered(s), s.seen), Upserts(Covered(s), Streamed(s)));
    }
  }

  /** Once set, where the stream began and what the snapshot covers stay. */
  lemma {:induction false} SettledStays(before: seq<Step>, after: seq<Step>)
    requires Legal(before + after)
    ensures Legal(before)
    ensures Exec(before).since.Some? ==> Exec(before + after).since == Exec(before).since
    ensures Exec(before).answer.Some? ==> Exec(before + after).answer == Exec(before).answer
    decreases |after|
  {
    if after == [] {
      ConcatNothing(before);
    } else {
      var n := |after| - 1;
      assert (before + after)[..|before| + n] == before + after[..n];
      SettledStays(before, after[..n]);
    }
  }

  /** A page whose stream is connected before its snapshot is taken shows the
      server's row for every name that is not stale, and converges if none is. */
  lemma StreamFirstConverges(before: seq<Step>, values: seq<ProbeResult>, after: seq<Step>)
    requires Legal(before + [Snapshot(values)] + after)
    requires CaughtUp(Exec(before + [Snapshot(values)] + after))
    requires Legal(before) ==> Exec(before).since.Some?
    ensures var s := Exec(before + [Snapshot(values)] + after);
      && s.results == Upserts(map[], s.events)
      && (forall name :: name !in s.stale ==> Look(s.page.rows, name) == Look(s.results, name))
      && (s.stale == {} ==> s.page.rows == s.results)
  {
    var mid := before + [Snapshot(values)];
    SettledStays(mid, after);
    assert mid[..|mid| - 1] == before;
    RunKeepsInv(before);
    assert Exec(mid) == Apply(Exec(before), Snapshot(values));
    Convergence(mid + after);
    var s := Exec(mid + after);
    forall name | name !in s.stale ensures Look(s.page.rows, name) == Look(s.results, name) {
      RowConverges(mid + after, name);
      OverlapSettles(s.events, s.answer.value.0, s.since.value, |s.events|, name);
    }
  }

  lemma OneUpsert(m: Rows, r: ProbeResult)
    ensures Upserts(m, [r]) == m[r.name := r]
  {
    NoUpserts(m, [r][..0]);
  }

  lemma ListsOne(r: ProbeResult)
    ensures Lists([r], map[r.name := r])
  {
    assert [r][..0] == [];
  }

  lemma OneMore(front: seq<Step>, step: Step)
    requires Legal(front) && Enabled(Exec(front), step)
    ensures Legal(front + [step]) && Exec(front + [step]) == Apply(Exec(front), step)
  {
    assert (front + [step])[..|front|] == front;
  }

  lemma EmptyRun(none: seq<Step>)
    requires none == []
    ensures Legal(none) && Exec(none) == INIT
  {
  }

  /** A snapshot that overtook the stream: it already shows `newer`, while `older`
      is still on its way. */
  lemma Overtaken(older: ProbeResult, newer: ProbeResult) returns (steps: seq<Step>)
    requires older.name == newer.name
    ensures Legal(steps) && Exec(steps).page == PageState(map[], [], false)
    ensures Exec(steps).events == [older, newer] && Exec(steps).since == Some(0)
    ensures Exec(steps).sent == 1 && Exec(steps).next == 0 && Exec(steps).answer == Some((2, Some([newer])))
  {
    hide Legal, Exec, Lists;
    var blank, name := INIT.page, newer.name;
    EmptyRun([]);
    OneMore([], Subscribe);
    OneMore([] + [Subscribe], Insert(older));
    steps := [] + [Subscribe] + [Insert(older)];
    assert Exec(steps) == State([older], map[name := older], 0, Some(0), 0, [], {}, None, blank) by {
      ConcatNothing([older]);
    }
    OneMore(steps, Send);
    OneMore(steps + [Send], Insert(newer));
    steps := steps + [Send] + [Insert(newer)];
    assert Exec(steps) == State([older, newer], map[name := newer], 1, Some(0), 0, [], {}, None, blank);
    ListsOne(newer);
    OneMore(steps, Snapshot([newer]));
    steps := steps + [Snapshot([newer])];
  }

  /** So convergence is all that can be promised: on the way there a row may step
      back, when the older result is delivered over the newer snapshot. */
  lemma RowsMayStepBack(older: ProbeResult, newer: ProbeResult) returns (steps: seq<Step>)
    requires older.name == newer.name
    ensures Legal(steps) && Exec(steps).page.rows == map[newer.name := newer]
    ensures Legal(steps + [Deliver]) && Exec(steps + [Deliver]).page.rows == map[older.name := older]
  {
    hide Legal, Exec;
    steps := Overtaken(older, newer);
    OneUpsert(map[], newer);
    NoUpserts(map[newer.name := newer], []);
    OneMore(steps, SeedPage);
    steps := steps + [SeedPage];
    OneUpsert(map[newer.name := newer], older);
    OneMore(steps, Deliver);
  }

  /** A snapshot that is answered before the stream is connected: what is published
      in between never reaches the page, until the probe publishes again. */
  lemma LateSubscriptionMisses(r: ProbeResult) returns (steps: seq<Step>)
    ensures Legal(steps) && CaughtUp(Exec(steps)) && Exec(steps).stale == {}
    ensures Exec(steps).page.rows == map[] && Exec(steps).results == map[r.name := r]
  {
    hide Legal, Exec, Lists;
    EmptyRun([]);
    ListsNone();
    OneMore([], Snapshot([]));
    OneMore([] + [Snapshot([])], Insert(r));
    steps := [] + [Snapshot([])] + [Insert(r)];
    ConcatNothing([r]);
    OneMore(steps, Send);
    OneMore(steps + [Send], Subscribe);
    steps := steps + [Send] + [Subscribe];
    NoUpserts(map[], []);
    OneMore(steps, SeedPage);
    steps := steps + [SeedPage];
  }

  lemma ListsNone()
    ensures Lists([], map[])
  {
  }

  /** And a result skipped for a slow client is missed in the same way. */
  lemma SkippedResultIsMissed(r: ProbeResult) returns (steps: seq<Step>)
    ensures Legal(steps) && CaughtUp(Exec(steps)) && Exec(steps).stale == {r.name}
    ensures Exec(steps).page.rows == map[] && Exec(steps).results == map[r.name := r]
  {
    hide Legal, Exec, Lists;
    EmptyRun([]);
    ListsNone();
    OneMore([], Subscribe);
    OneMore([] + [Subscribe], Snapshot([]));
    steps := [] + [Subscribe] + [Snapshot([])];
    NoUpserts(map[], []);
    OneMore(steps, SeedPage);
    steps := steps + [SeedPage];
    OneMore(steps, Insert(r));
    steps := steps + [Insert(r)];
    ConcatNothing([r]);
    OneMore(steps, Send);
    OneMore(steps + [Send], Skip);
    steps := steps + [Send] + [Skip];
  }
}
