/** The watchdog: bounded passes over the markers of active executions, oldest first. */
module Watchdog {
  import opened Records

  const ITEMS_CAP: int := 50
  const AGE_FLOOR: int := 300

  /** How many markers a pass may examine; None if the setting is refused. */
  function PassLimit(configured: int): (r: Option<nat>)
    ensures r.Some? <==> configured >= 1
    ensures r.Some? ==> 1 <= r.value <= 50 && r.value <= configured && (r.value == configured || r.value == 50)
  {
    if configured < 1 then None
    else Some(if configured < ITEMS_CAP then configured else ITEMS_CAP)
  }

  /** Only markers at least this old are examined. */
  function Cutoff(now: int, configuredAge: int): (r: int)
    ensures r <= now - 300 && r <= now - configuredAge && (r == now - 300 || r == now - configuredAge)
  {
    now - (if configuredAge < AGE_FLOOR then AGE_FLOOR else configuredAge)
  }

  /** The sparse index: execution to marker time. Its sort key is the time, then the execution's
      digest, which the execution number stands for. */
  type Markers = map<nat, int>

  datatype Item = Item(execution: nat, time: int)

  predicate Before(a: Item, b: Item) {
    a.time < b.time || (a.time == b.time && a.execution < b.execution)
  }

  function ItemOf(M: Markers, k: nat): Item
    requires k in M
  {
    Item(k, M[k])
  }

  /** What the bounded query returns: the first `limit` markers up to the cutoff, in key order. */
  ghost predicate IsQuery(M: Markers, cutoff: int, limit: nat, items: seq<Item>) {
    && |items| <= limit
    && (forall i :: 0 <= i < |items| ==>
          items[i].execution in M && items[i] == ItemOf(M, items[i].execution) && items[i].time <= cutoff)
    && (forall i, j :: 0 <= i < j < |items| ==> Before(items[i], items[j]))
    && (forall k :: k in M && M[k] <= cutoff && ItemOf(M, k) !in items ==>
          |items| == limit && forall i :: 0 <= i < |items| ==> Before(items[i], ItemOf(M, k)))
  }

  // ---------------------------------------------------------------- one pass

  /** What became of an examined execution. `moved` is false if the marker's own update failed. */
  datatype Outcome =
    | Invalid(moved: bool)
    | StillRunning(moved: bool)
    | Reconciled
    | ConfigMismatch
    | Failed(moved: bool)

  /** One marker after its examination; an update applies only to the key that was read. */
  function Settle(M: Markers, item: Item, outcome: Outcome, observed: int): Markers {
    match outcome
    case Invalid(moved) =>
      if moved && Find(M, item.execution) == Some(item.time) then M - {item.execution} else M
    case StillRunning(moved) =>
      if moved && Find(M, item.execution) == Some(item.time) then M[item.execution := observed] else M
    case Failed(moved) =>
      if moved && Find(M, item.execution) == Some(item.time) then M[item.execution := observed] else M
    case Reconciled => M - {item.execution}
    case ConfigMismatch => M
  }

  function Settled(M: Markers, items: seq<Item>, outcomes: seq<Outcome>, observed: int): Markers
    requires |items| == |outcomes|
    decreases |items|
  {
    if items == [] then M
    else
      var n := |items| - 1;
      Settle(Settled(M, items[..n], outcomes[..n], observed), items[n], outcomes[n], observed)
  }

  datatype Summary = Summary(
    queried: nat, running: nat, reconciled: nat, errors: nat, rescheduled: nat, invalidRemoved: nat)

  predicate IsRunning(o: Outcome) { o.StillRunning? }

  /** A mismatch counts as reconciled, though it leaves its marker. */
  predicate IsReconciled(o: Outcome) { o.Reconciled? || o.ConfigMismatch? }

  /** Where among the first `n` outcomes there is one of this kind. */
  function Places(outcomes: seq<Outcome>, n: nat, kind: Outcome -> bool): set<nat>
    requires n <= |outcomes|
  {
    set i: nat | i < n && kind(outcomes[i])
  }

  lemma OneMorePlace(outcomes: seq<Outcome>, n: nat, kind: Outcome -> bool)
    requires n < |outcomes|
    ensures |Places(outcomes, n + 1, kind)| == |Places(outcomes, n, kind)| + if kind(outcomes[n]) then 1 else 0
  {
    if kind(outcomes[n]) {
      assert Places(outcomes, n + 1, kind) == Places(outcomes, n, kind) + {n};
    } else {
      assert Places(outcomes, n + 1, kind) == Places(outcomes, n, kind);
    }
  }

  class Index {
    var markers: Markers

    constructor (m: Markers)
      ensures markers == m
    {
      markers := m;
    }

    /** Remove or reschedule exactly the marker that was read. */
    method MoveMarker(item: Item, next: Option<int>) returns (moved: bool)
      modifies this
      ensures moved == (Find(old(markers), item.execution) == Some(item.time))
      ensures markers == if !moved then old(markers)
                         else if next.None? then old(markers) - {item.execution}
                         else old(markers)[item.execution := next.value]
    {
      moved := item.execution in markers && markers[item.execution] == item.time;
      if moved {
        if next.None? { markers := markers - {item.execution}; }
        else { markers := markers[item.execution := next.value]; }
      }
    }

    /** `reconcile_watchdog` after its query: `outcomes` is what describing and processing each
        execution comes to. Every examined marker is counted once. */
    method ReconcilePass(items: seq<Item>, outcomes: seq<Outcome>, observed: int) returns (s: Summary)
      requires |items| == |outcomes|
      modifies this
      ensures markers == Settled(old(markers), items, outcomes, observed)
      ensures s.queried == |items| == s.running + s.reconciled + s.errors
      ensures s.running == |Places(outcomes, |items|, IsRunning)|
      ensures s.reconciled == |Places(outcomes, |items|, IsReconciled)|
      ensures s.rescheduled + s.invalidRemoved <= s.running + s.errors
    {
      var running, reconciled, errors, rescheduled, removed := 0, 0, 0, 0, 0;
      for i := 0 to |items|
        invariant markers == Settled(old(markers), items[..i], outcomes[..i], observed)
        invariant running >= 0 && reconciled >= 0 && errors >= 0 && rescheduled >= 0 && removed >= 0
        invariant running + reconciled + errors == i && rescheduled + removed <= running + errors
        invariant running == |Places(outcomes, i, IsRunning)| && reconciled == |Places(outcomes, i, IsReconciled)|
      {
        OneMorePlace(outcomes, i, IsRunning);
        OneMorePlace(outcomes, i, IsReconciled);
        assert items[..i + 1][..i] == items[..i] && outcomes[..i + 1][..i] == outcomes[..i];
        match outcomes[i] {
          case Invalid(possible) =>
            errors := errors + 1;
            if possible {
              var moved := MoveMarker(items[i], None);
              if moved { removed := removed + 1; }
            }
          case StillRunning(possible) =>
            running := running + 1;
            if possible {
              var moved := MoveMarker(items[i], Some(observed));
              if moved { rescheduled := rescheduled + 1; }
            }
          case Reconciled =>
            markers := markers - {items[i].execution};
            reconciled := reconciled + 1;
          case ConfigMismatch =>
            reconciled := reconciled + 1;
          case Failed(possible) =>
            errors := errors + 1;
            if possible {
              var moved := MoveMarker(items[i], Some(observed));
              if moved { rescheduled := rescheduled + 1; }
            }
        }
      }
      assert items[..|items|] == items && outcomes[..|items|] == outcomes;
      return Summary(|items|, running, reconciled, errors, rescheduled, removed);
    }
  }

  // ------------------------------------------------------------- what it leaves

  /** The outcome takes the marker out of the way. */
  predicate Clears(o: Outcome) {
    o.Reconciled? || (o.Invalid? && o.moved) || (o.StillRunning? && o.moved) || (o.Failed? && o.moved)
  }

  predicate Distinct(items: seq<Item>) {
    forall i, j :: 0 <= i < j < |items| ==> items[i].execution != items[j].execution
  }

  lemma {:induction false} SettledOthers(M: Markers, items: seq<Item>, outcomes: seq<Outcome>, observed: int, k: nat)
    requires |items| == |outcomes|
    requires forall i :: 0 <= i < |items| ==> items[i].execution != k
    ensures Find(Settled(M, items, outcomes, observed), k) == Find(M, k)
    decreases |items|
  {
    if items != [] {
      var n := |items| - 1;
      SettledOthers(M, items[..n], outcomes[..n], observed, k);
    }
  }

  /** The marker of each examined execution after the pass. */
  lemma {:induction false} SettledAt(
    M: Markers, items: seq<Item>, outcomes: seq<Outcome>, observed: int, i: nat)
    requires |items| == |outcomes| && i < |items| && Distinct(items)
    requires Find(M, items[i].execution) == Some(items[i].time)
    ensures Find(Settled(M, items, outcomes, observed), items[i].execution) ==
      match outcomes[i]
      case Invalid(moved) => if moved then None else Some(items[i].time)
      case StillRunning(moved) => Some(if moved then observed else items[i].time)
      case Failed(moved) => Some(if moved then observed else items[i].time)
      case Reconciled => None
      case ConfigMismatch => Some(items[i].time)
    decreases |items|
  {
    var n := |items| - 1;
    if i == n {
      SettledOthers(M, items[..n], outcomes[..n], observed, items[i].execution);
    } else {
      SettledAt(M, items[..n], outcomes[..n], observed, i);
    }
  }

  lemma QueryDistinct(M: Markers, cutoff: int, limit: nat, items: seq<Item>)
    requires IsQuery(M, cutoff, limit, items)
    ensures Distinct(items)
  {
    forall i, j | 0 <= i < j < |items| ensures items[i].execution != items[j].execution {
      assert Before(items[i], items[j]);
    }
  }

  /** Exactly the outcomes that clear take a marker out: it is gone or beyond this pass's cutoff. A
      configuration mismatch, or a failed marker update, leaves it where it was. */
  lemma ExaminedLeaves(
    M: Markers, cutoff: int, limit: nat, items: seq<Item>, outcomes: seq<Outcome>, observed: int, i: nat)
    requires IsQuery(M, cutoff, limit, items) && |outcomes| == |items| && i < |items| && observed > cutoff
    ensures var M' := Settled(M, items, outcomes, observed);
      var k := items[i].execution;
      (k in M' && M'[k] <= cutoff) <==> !Clears(outcomes[i])
  {
    QueryDistinct(M, cutoff, limit, items);
    SettledAt(M, items, outcomes, observed, i);
  }

  // ---------------------------------------------------------------- fairness

  /** The markers in front of execution `k`. */
  function Ahead(M: Markers, k: nat): set<nat>
    requires k in M
  {
    set x | x in M && Before(ItemOf(M, x), ItemOf(M, k))
  }

  /** The markers in front of execution `k` whose executions are not stuck. */
  function Moving(M: Markers, k: nat, stuck: set<nat>): set<nat>
    requires k in M
  {
    Ahead(M, k) - stuck
  }

  /** A pass in which exactly the stuck executions keep their markers: say, those whose configuration
      does not match the deployed one. */
  ghost predicate PassOf(
    M: Markers, cutoff: int, limit: nat, items: seq<Item>, outcomes: seq<Outcome>, observed: int, stuck: set<nat>)
  {
    && IsQuery(M, cutoff, limit, items) && |outcomes| == |items| && observed > cutoff
    && forall i :: 0 <= i < |items| ==> (Clears(outcomes[i]) <==> items[i].execution !in stuck)
  }

  /** The executions that a query examines. */
  function ExaminedIn(items: seq<Item>): set<nat> {
    set i | 0 <= i < |items| :: items[i].execution
  }

  lemma {:induction false} ExaminedCount(items: seq<Item>)
    requires Distinct(items)
    ensures |ExaminedIn(items)| == |items|
  {
    if items != [] {
      var front, last := items[..|items| - 1], items[|items| - 1];
      assert items == front + [last];
      ExaminedCount(front);
      assert last.execution !in ExaminedIn(front);
      assert ExaminedIn(items) == ExaminedIn(front) + {last.execution};
    }
  }

  /** Where an execution's marker is after the pass. */
  lemma AfterPass(
    M: Markers, cutoff: int, limit: nat, items: seq<Item>, outcomes: seq<Outcome>, observed: int, stuck: set<nat>,
    x: nat)
    requires PassOf(M, cutoff, limit, items, outcomes, observed, stuck)
    ensures var M' := Settled(M, items, outcomes, observed);
      if x in ExaminedIn(items) && x !in stuck then x !in M' || M'[x] > cutoff
      else Find(M', x) == Find(M, x)
  {
    QueryDistinct(M, cutoff, limit, items);
    if i :| 0 <= i < |items| && items[i].execution == x {
      SettledAt(M, items, outcomes, observed, i);
    } else {
      SettledOthers(M, items, outcomes, observed, x);
    }
  }

  /** A query that does not reach `k` is full, and everything that it examines is in front of `k`. */
  lemma FullQuery(M: Markers, cutoff: int, limit: nat, items: seq<Item>, k: nat)
    requires IsQuery(M, cutoff, limit, items) && k in M && M[k] <= cutoff && k !in ExaminedIn(items)
    ensures |items| == limit && |ExaminedIn(items)| == limit && ExaminedIn(items) <= Ahead(M, k)
  {
    QueryDistinct(M, cutoff, limit, items);
    ExaminedCount(items);
    NotIn(M, items, k);
    forall x | x in ExaminedIn(items) ensures x in Ahead(M, k) {
      var i :| 0 <= i < |items| && items[i].execution == x;
    }
  }

  lemma NotIn(M: Markers, items: seq<Item>, k: nat)
    requires k in M && k !in ExaminedIn(items)
    ensures ItemOf(M, k) !in items
  {
    assert forall i :: 0 <= i < |items| ==> items[i].execution in ExaminedIn(items);
  }

  /** A pass that does not reach `k` takes at least `limit` - `m` moving markers from in front of it, if
      at most `m` of those there are stuck. */
  lemma PassShortens(
    M: Markers, cutoff: int, limit: nat, items: seq<Item>, outcomes: seq<Outcome>, observed: int, stuck: set<nat>,
    k: nat, m: nat)
    requires PassOf(M, cutoff, limit, items, outcomes, observed, stuck)
    requires k in M && M[k] <= cutoff && k !in ExaminedIn(items) && |Ahead(M, k) * stuck| <= m <= limit
    ensures var M' := Settled(M, items, outcomes, observed);
      && k in M' && M'[k] == M[k] && Ahead(M', k) <= Ahead(M, k)
      && |Moving(M', k, stuck)| + (limit - m) <= |Moving(M, k, stuck)|
  {
    var M' := Settled(M, items, outcomes, observed);
    FullQuery(M, cutoff, limit, items, k);
    AfterPass(M, cutoff, limit, items, outcomes, observed, stuck, k);
    forall x | x in Ahead(M', k) ensures x in Ahead(M, k) && (x in stuck || x !in ExaminedIn(items)) {
      AfterPass(M, cutoff, limit, items, outcomes, observed, stuck, x);
    }
    var gone := ExaminedIn(items) - stuck;
    assert ExaminedIn(items) == gone + ExaminedIn(items) * stuck;
    SubsetSmaller(ExaminedIn(items) * stuck, Ahead(M, k) * stuck);
    assert |gone| >= limit - m;
    assert Moving(M', k, stuck) <= Moving(M, k, stuck) - gone && gone <= Moving(M, k, stuck);
    SubsetSmaller(Moving(M', k, stuck), Moving(M, k, stuck) - gone);
  }

  /** Between passes other services may remove markers and set new ones, at times past the cutoff. */
  ghost predicate Meanwhile(M: Markers, M': Markers, cutoff: int) {
    forall x :: x in M' ==> (x in M && M'[x] == M[x]) || M'[x] > cutoff
  }

  datatype Pass = Pass(markers: Markers, cutoff: int, observed: int, items: seq<Item>, outcomes: seq<Outcome>)

  ghost predicate PassOk(p: Pass, limit: nat, stuck: set<nat>) {
    PassOf(p.markers, p.cutoff, limit, p.items, p.outcomes, p.observed, stuck)
  }

  /** The index that a pass leaves. */
  function Left(p: Pass): Markers
    requires |p.items| == |p.outcomes|
  {
    Settled(p.markers, p.items, p.outcomes, p.observed)
  }

  ghost predicate Follows(p: Pass, p': Pass) {
    p.cutoff <= p'.cutoff && |p.items| == |p.outcomes| && Meanwhile(Left(p), p'.markers, p.cutoff)
  }

  /** Passes one after the other, cutoffs never moving back. */
  ghost predicate Passes(ps: seq<Pass>, limit: nat, stuck: set<nat>) {
    && (forall i :: 0 <= i < |ps| ==> PassOk(ps[i], limit, stuck))
    && (forall i :: 0 < i < |ps| ==> Follows(ps[i - 1], ps[i]))
  }

  /** `k` has kept its place, and no pass has looked at it. */
  ghost predicate Waits(ps: seq<Pass>, k: nat) {
    forall i :: 0 <= i < |ps| ==>
      k in ps[i].markers && k in ps[0].markers && ps[i].markers[k] == ps[0].markers[k]
      && ps[i].markers[k] <= ps[i].cutoff && k !in ExaminedIn(ps[i].items)
  }

  lemma MeanwhileShortens(M: Markers, M': Markers, cutoff: int, k: nat, stuck: set<nat>)
    requires Meanwhile(M, M', cutoff) && k in M && k in M' && M'[k] == M[k] && M[k] <= cutoff
    ensures Ahead(M', k) <= Ahead(M, k) && |Moving(M', k, stuck)| <= |Moving(M, k, stuck)|
  {
    SubsetSmaller(Moving(M', k, stuck), Moving(M, k, stuck));
  }

  lemma SubsetSmaller(a: set<nat>, b: set<nat>)
    requires a <= b
    ensures |a| <= |b|
  {
    assert b == a + (b - a);
  }

  lemma {:induction false} LineShortens(ps: seq<Pass>, limit: nat, stuck: set<nat>, k: nat, m: nat)
    requires ps != [] && Passes(ps, limit, stuck) && Waits(ps, k) && |Ahead(ps[0].markers, k) * stuck| <= m <= limit
    ensures |ps| * (limit - m) <= |Moving(ps[0].markers, k, stuck)|
  {
    hide PassOk, Follows, Ahead, Moving, ExaminedIn;
    assert PassOk(ps[0], limit, stuck) && Skipped(ps[0], k);
    if |ps| == 1 {
      OnePass(ps[0], limit, stuck, k, m);
    } else {
      var rest := ps[1..];
      RestWaits(ps, limit, stuck, k);
      NextShorter(ps[0], ps[1], limit, stuck, k, m);
      LineShortens(rest, limit, stuck, k, m);
      OneMore(|rest|, limit - m);
    }
  }

  lemma RestWaits(ps: seq<Pass>, limit: nat, stuck: set<nat>, k: nat)
    requires |ps| > 1 && Passes(ps, limit, stuck) && Waits(ps, k)
    ensures Passes(ps[1..], limit, stuck) && Waits(ps[1..], k)
  {
    hide PassOk, Follows, ExaminedIn;
  }

  /** The marker is due in this pass, which does not look at it. */
  ghost predicate Skipped(p: Pass, k: nat) {
    k in p.markers && p.markers[k] <= p.cutoff && k !in ExaminedIn(p.items)
  }

  lemma OnePass(p: Pass, limit: nat, stuck: set<nat>, k: nat, m: nat)
    requires PassOk(p, limit, stuck) && Skipped(p, k) && |Ahead(p.markers, k) * stuck| <= m <= limit
    ensures |p.items| == |p.outcomes| && k in Left(p) && Left(p)[k] == p.markers[k]
    ensures Ahead(Left(p), k) <= Ahead(p.markers, k)
    ensures |Moving(Left(p), k, stuck)| + (limit - m) <= |Moving(p.markers, k, stuck)|
  {
    PassShortens(p.markers, p.cutoff, limit, p.items, p.outcomes, p.observed, stuck, k, m);
  }

  lemma NextShorter(p: Pass, p': Pass, limit: nat, stuck: set<nat>, k: nat, m: nat)
    requires PassOk(p, limit, stuck) && Follows(p, p') && Skipped(p, k) && k in p'.markers && p'.markers[k] == p.markers[k]
    requires |Ahead(p.markers, k) * stuck| <= m <= limit
    ensures |Ahead(p'.markers, k) * stuck| <= m
    ensures |Moving(p'.markers, k, stuck)| + (limit - m) <= |Moving(p.markers, k, stuck)|
  {
    hide PassOk, Ahead, Moving, ExaminedIn, Left;
    OnePass(p, limit, stuck, k, m);
    MeanwhileShortens(Left(p), p'.markers, p.cutoff, k, stuck);
    SubsetSmaller(Ahead(p'.markers, k) * stuck, Ahead(p.markers, k) * stuck);
  }

  lemma OneMore(a: int, b: int)
    ensures (a + 1) * b == a * b + b
  {
  }

  /** Fairness: with `m` < `limit` stuck executions in front of it and `n` markers in all, a marker cannot
      sit through more than (`n` - `m`) / (`limit` - `m`) passes unexamined. So it is examined within
      `n` / (`limit` - `m`) + 1 passes, and, if nothing is stuck, within `n` / `limit` + 1. */
  lemma Fairness(ps: seq<Pass>, limit: nat, stuck: set<nat>, k: nat)
    requires ps != [] && Passes(ps, limit, stuck) && Waits(ps, k)
    requires |Ahead(ps[0].markers, k) * stuck| < limit
    ensures var n, m := |Ahead(ps[0].markers, k)|, |Ahead(ps[0].markers, k) * stuck|;
      && m <= n && |ps| <= (n - m) / (limit - m) && |ps| <= n / (limit - m)
  {
    var ahead := Ahead(ps[0].markers, k);
    var n, m := |ahead|, |ahead * stuck|;
    LineShortens(ps, limit, stuck, k, m);
    assert ahead == (ahead * stuck) + Moving(ps[0].markers, k, stuck);
    AtMostQuotient(|ps|, limit - m, n - m);
    AtMostQuotient(|ps|, limit - m, n);
  }

  lemma AtMostQuotient(a: nat, b: nat, n: nat)
    requires b >= 1 && a * b <= n
    ensures a <= n / b
  {
    assert n == b * (n / b) + n % b;
    assert b * (n / b + 1) == b * (n / b) + b;
    Cancel(b, a, n / b + 1);
  }

  lemma Cancel(b: nat, x: int, y: int)
    ensures b * x < b * y ==> x < y
  {
    if x >= y {
      assert b * (x - y) >= 0;
      assert b * x == b * y + b * (x - y);
    }
  }

  // --------------------------------------------------------------- starvation

  /** The stuck markers of `front` are due, stay where they are, and stand before every place where `k`'s
      marker can be: its first one, or any that it gets later. */
  ghost predicate Blocked(M: Markers, first: Markers, cutoff: int, front: set<nat>, k: nat) {
    && (forall x :: x in front ==> x in first && first[x] <= cutoff && x in M && M[x] == first[x])
    && (k in M ==> forall x :: x in front ==> Before(ItemOf(first, x), ItemOf(M, k)))
  }

  /** A query of `limit` does not get past `limit` markers. */
  lemma NotReached(M: Markers, cutoff: int, limit: nat, items: seq<Item>, front: set<nat>, k: nat)
    requires IsQuery(M, cutoff, limit, items) && |front| >= limit && k !in front
    requires forall x :: x in front ==> x in M && M[x] <= cutoff
    requires k in M ==> forall x :: x in front ==> Before(ItemOf(M, x), ItemOf(M, k))
    ensures k !in ExaminedIn(items)
  {
    QueryDistinct(M, cutoff, limit, items);
    ExaminedCount(items);
    var seen := ExaminedIn(items) - {k};
    if front <= seen {
      SubsetSmaller(front, seen);
    } else {
      var x :| x in front && x !in ExaminedIn(items);
      FullQuery(M, cutoff, limit, items, x);
    }
  }

  predicate Keeps(M: Markers, M': Markers, front: set<nat>) {
    forall x :: x in front && x in M ==> x in M' && M'[x] == M[x]
  }

  /** Nobody else takes these markers away between passes. */
  ghost predicate Undisturbed(ps: seq<Pass>, limit: nat, stuck: set<nat>, front: set<nat>)
    requires Passes(ps, limit, stuck)
  {
    forall i :: 0 < i < |ps| ==> Keeps(Left(ps[i - 1]), ps[i].markers, front)
  }

  lemma {:induction false} StaysBlocked(ps: seq<Pass>, limit: nat, stuck: set<nat>, front: set<nat>, k: nat, i: nat)
    requires Passes(ps, limit, stuck) && Undisturbed(ps, limit, stuck, front) && front <= stuck && |front| >= limit
    requires i < |ps| && k !in front && Blocked(ps[0].markers, ps[0].markers, ps[0].cutoff, front, k)
    ensures Blocked(ps[i].markers, ps[0].markers, ps[0].cutoff, front, k) && ps[0].cutoff <= ps[i].cutoff
    ensures k !in ExaminedIn(ps[i].items)
  {
    if i > 0 {
      StaysBlocked(ps, limit, stuck, front, k, i - 1);
      var p := ps[i - 1];
      assert PassOk(p, limit, stuck);
      forall x | x in front ensures x in ps[i].markers && ps[i].markers[x] == ps[0].markers[x] {
        AfterPass(p.markers, p.cutoff, limit, p.items, p.outcomes, p.observed, stuck, x);
      }
      AfterPass(p.markers, p.cutoff, limit, p.items, p.outcomes, p.observed, stuck, k);
    }
    assert PassOk(ps[i], limit, stuck);
    NotReached(ps[i].markers, ps[i].cutoff, limit, ps[i].items, front, k);
  }

  /** Starvation: behind `limit` stuck markers that are due and that nobody else takes away, a marker is
      never examined, however many passes there are and wherever their cutoffs move. Together with
      `Fairness`, a marker is sure to be examined exactly if fewer than `limit` are stuck before it. */
  lemma Starvation(ps: seq<Pass>, limit: nat, stuck: set<nat>, front: set<nat>, k: nat)
    requires ps != [] && Passes(ps, limit, stuck) && Undisturbed(ps, limit, stuck, front)
    requires front <= stuck && |front| >= limit
    requires k in ps[0].markers && front <= Ahead(ps[0].markers, k)
    requires forall x :: x in front ==> ps[0].markers[x] <= ps[0].cutoff
    ensures forall i :: 0 <= i < |ps| ==> k !in ExaminedIn(ps[i].items)
  {
    forall i | 0 <= i < |ps| ensures k !in ExaminedIn(ps[i].items) {
      StaysBlocked(ps, limit, stuck, front, k, i);
    }
  }

  /** A configuration mismatch keeps its marker, whatever else happens in the pass. */
  lemma MismatchIsStuck(
    M: Markers, cutoff: int, limit: nat, items: seq<Item>, outcomes: seq<Outcome>, observed: int, i: nat)
    requires IsQuery(M, cutoff, limit, items) && |outcomes| == |items| && i < |items| && outcomes[i].ConfigMismatch?
    ensures Find(Settled(M, items, outcomes, observed), items[i].execution) == Some(items[i].time)
  {
    QueryDistinct(M, cutoff, limit, items);
    SettledAt(M, items, outcomes, observed, i);
  }
}
