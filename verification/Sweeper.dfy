/** The order sweeper: which overdue orders a sweep takes, how a failure is put behind the others, and
    that no overdue order waits for ever behind orders that keep failing. */
module Sweeper {
  import opened AdmissionTypes
  import opened AgreementSteps

  type OrderId = int

  /** A pending order: its payment deadline and when its expiry last failed. */
  datatype Overdue = Overdue(deadline: int, failedAt: Option<int>)
  type Orders = map<OrderId, Overdue>

  /** COALESCE(expiration_last_failed_at, payment_deadline_at). */
  function Turn(o: Overdue): int {
    if o.failedAt.Some? then o.failedAt.value else o.deadline
  }

  /** The order of the scan: turn, deadline, id. */
  predicate Ahead(s: Orders, a: OrderId, b: OrderId)
    requires a in s && b in s
  {
    || Turn(s[a]) < Turn(s[b])
    || (Turn(s[a]) == Turn(s[b]) && (s[a].deadline < s[b].deadline || (s[a].deadline == s[b].deadline && a < b)))
  }

  predicate Due(s: Orders, id: OrderId, now: int) {
    id in s && s[id].deadline <= now
  }

  function DueSet(s: Orders, now: int): set<OrderId> {
    set x | x in s && Due(s, x, now)
  }

  /** The due orders ahead of this one. */
  function Queue(s: Orders, id: OrderId, now: int): set<OrderId>
    requires id in s
  {
    set x | x in s && Due(s, x, now) && Ahead(s, x, id)
  }

  // ----- the scan --------------------------------------------------------------------------

  ghost predicate IsNext(s: Orders, rest: set<OrderId>, m: OrderId) {
    m in rest && m in s && forall x | x in rest && x in s && x != m :: Ahead(s, m, x)
  }

  lemma {:induction false} NextExists(s: Orders, rest: set<OrderId>)
    requires rest != {} && rest <= s.Keys
    ensures exists m :: IsNext(s, rest, m)
    decreases |rest|
  {
    assert (forall x :: x !in rest) ==> rest == {};
    var x :| x in rest;
    var others := rest - {x};
    if others == {} {
      assert rest == {x};
      assert IsNext(s, rest, x);
    } else {
      NextExists(s, others);
      var m :| IsNext(s, others, m);
      if Ahead(s, x, m) { assert IsNext(s, rest, x); } else { assert IsNext(s, rest, m); }
    }
  }

  /** The first `batch` due orders, in order: nothing due that was left out is ahead of any of them. */
  ghost predicate IsBatch(s: Orders, now: int, batch: nat, c: seq<OrderId>) {
    && (forall i | 0 <= i < |c| :: Due(s, c[i], now))
    && (forall i, j | 0 <= i < j < |c| :: c[i] != c[j])
    && (forall i, j | 0 <= i < j < |c| :: Ahead(s, c[i], c[j]))
    && (forall i, x | 0 <= i < |c| && x in DueSet(s, now) && x !in c :: Ahead(s, c[i], x))
    && |c| == (if |DueSet(s, now)| < batch then |DueSet(s, now)| else batch)
  }

  method Scan(s: Orders, now: int, batch: nat) returns (c: seq<OrderId>)
    ensures IsBatch(s, now, batch, c)
  {
    c := [];
    var rest := DueSet(s, now);
    while |c| < batch && rest != {}
      invariant |c| <= batch && rest <= DueSet(s, now) && |c| + |rest| == |DueSet(s, now)|
      invariant forall x | x in DueSet(s, now) :: x in rest <==> x !in c
      invariant forall i | 0 <= i < |c| :: c[i] in DueSet(s, now)
      invariant forall i, j | 0 <= i < j < |c| :: c[i] != c[j]
      invariant forall i, j | 0 <= i < j < |c| :: Ahead(s, c[i], c[j])
      invariant forall i, x | 0 <= i < |c| && x in rest :: Ahead(s, c[i], x)
      decreases |rest|
    {
      NextExists(s, rest);
      var m :| m in rest && m in s && forall x | x in rest && x in s && x != m :: Ahead(s, m, x);
      c := c + [m];
      rest := rest - {m};
    }
  }

  // ----- one sweep -------------------------------------------------------------------------

  /** What became of one attempt: it left pending, or it failed, at a time that may have been saved. */
  datatype Fate = LeftPending(expired: bool) | FailedAttempt(at: int, saved: bool)

  datatype Stats = Stats(scanned: nat, expired: nat, skipped: nat, failed: nat, unprocessed: int)

  /** Every candidate attempted, every failure saved, nobody else touched. */
  ghost predicate Swept(s: Orders, t: Orders, now: int, c: seq<OrderId>) {
    && (forall x | x in s && x !in c :: x in t && t[x] == s[x])
    && (forall x | x in t :: x in s)
    && (forall x | x in c && x in t && x in s :: t[x].deadline == s[x].deadline && t[x].failedAt.Some? && now < t[x].failedAt.value)
  }

  /** What the attempts made of the pending orders: one that left pending is gone, and a failure whose
      time was saved waits from then on. */
  function Attempted(s: Orders, done: set<OrderId>, fate: map<OrderId, Fate>): Orders {
    map x | x in s && !(x in done && x in fate && fate[x].LeftPending?) ::
      if x in done && x in fate && fate[x].saved then s[x].(failedAt := Some(fate[x].at)) else s[x]
  }

  datatype Tally = AsExpired | AsSkipped | AsFailed

  function TallyOf(f: Fate): Tally {
    if f.FailedAttempt? then AsFailed else if f.expired then AsExpired else AsSkipped
  }

  /** The orders among these that count as this. */
  function Counted(c: seq<OrderId>, fate: map<OrderId, Fate>, tally: Tally): set<OrderId> {
    set x | x in c && x in fate && TallyOf(fate[x]) == tally
  }

  class Sweeper {
    var orders: Orders

    constructor (orders: Orders)
      ensures this.orders == orders
    {
      this.orders := orders;
    }

    /** `fate` is what PostgreSQL makes of each attempt; the run may be stopped between attempts. */
    method SweepExpiredOrders(now: int, batch: nat, fate: map<OrderId, Fate>, stopAfter: nat) returns (stats: Stats, candidates: seq<OrderId>)
      requires forall x | x in orders :: x in fate
      modifies this
      ensures IsBatch(old(orders), now, batch, candidates)
      ensures forall i | 0 <= i < |candidates| :: candidates[i] in old(orders) && old(orders)[candidates[i]].deadline <= now
      ensures forall i, j | 0 <= i < j < |candidates| :: ScansFirst(candidates[i], old(orders)[candidates[i]], candidates[j], old(orders)[candidates[j]])
      ensures forall x | x in old(orders) && old(orders)[x].deadline <= now && x !in candidates ::
        |candidates| == batch && forall i | 0 <= i < batch :: ScansFirst(candidates[i], old(orders)[candidates[i]], x, old(orders)[x])
      ensures var done := if |candidates| <= stopAfter then candidates else candidates[..stopAfter];
        && orders == Attempted(old(orders), Members(done), fate)
        && stats.scanned == |candidates| && stats.unprocessed == |candidates| - |done|
        && stats.expired == |Left(done, fate, true)|
        && stats.skipped == |Left(done, fate, false)|
        && stats.failed == |Failures(done, fate)|
    {
      hide Attempted; hide Counted; hide IsBatch; hide Members; hide TallyOf; hide Left; hide Failures; hide ScansFirst;
      ghost var s := orders;
      candidates := Scan(orders, now, batch);
      BatchFacts(s, now, batch, candidates);
      BatchInOrder(s, now, batch, candidates);
      var expired, skipped, failed := 0, 0, 0;
      var i := 0;
      NothingAttempted(s, fate);
      assert candidates[..0] == [];
      while i < |candidates| && i < stopAfter
        invariant 0 <= i <= |candidates| && i <= stopAfter
        invariant orders == Attempted(s, Members(candidates[..i]), fate)
        invariant expired == |Counted(candidates[..i], fate, AsExpired)|
        invariant skipped == |Counted(candidates[..i], fate, AsSkipped)|
        invariant failed == |Counted(candidates[..i], fate, AsFailed)|
        invariant expired + skipped + failed == i
      {
        OneMoreAttempted(s, candidates, i, fate);
        expired, skipped, failed := Attempt(candidates[i], fate[candidates[i]], expired, skipped, failed);
        i := i + 1;
      }
      assert candidates[..|candidates|] == candidates;
      CountedAre(candidates[..i], fate);
      stats := Stats(|candidates|, expired, skipped, failed, |candidates| - expired - skipped - failed);
    }

    /** One order's own transaction, and after a failure the note of when. */
    method Attempt(id: OrderId, f: Fate, expired: nat, skipped: nat, failed: nat) returns (e: nat, k: nat, x: nat)
      modifies this
      ensures orders == AfterOne(old(orders), id, f)
      ensures (e, k, x) == match TallyOf(f)
        case AsExpired => (expired + 1, skipped, failed)
        case AsSkipped => (expired, skipped + 1, failed)
        case AsFailed => (expired, skipped, failed + 1)
    {
      e, k, x := expired, skipped, failed;
      match f {
        case LeftPending(done) =>
          if done { e := e + 1; } else { k := k + 1; }
          orders := orders - {id};
        case FailedAttempt(at, saved) =>
          x := x + 1;
          if saved && id in orders { orders := orders[id := orders[id].(failedAt := Some(at))]; }
      }
    }
  }

  function AfterOne(s: Orders, id: OrderId, f: Fate): Orders {
    if f.LeftPending? then s - {id} else if f.saved && id in s then s[id := s[id].(failedAt := Some(f.at))] else s
  }

  /** Read off the columns: the older last failure, or deadline if none failed yet; then the older deadline; then
      the smaller id. */
  predicate ScansFirst(a: OrderId, o: Overdue, b: OrderId, p: Overdue) {
    var x := match o.failedAt case Some(t) => t case None => o.deadline;
    var y := match p.failedAt case Some(t) => t case None => p.deadline;
    if x != y then x < y else if o.deadline != p.deadline then o.deadline < p.deadline else a < b
  }

  lemma BatchInOrder(s: Orders, now: int, batch: nat, c: seq<OrderId>)
    requires IsBatch(s, now, batch, c)
    ensures forall i | 0 <= i < |c| :: c[i] in s && s[c[i]].deadline <= now
    ensures forall i, j | 0 <= i < j < |c| :: ScansFirst(c[i], s[c[i]], c[j], s[c[j]])
    ensures forall x | x in s && s[x].deadline <= now && x !in c :: |c| == batch && forall i | 0 <= i < batch :: ScansFirst(c[i], s[c[i]], x, s[x])
  {
    forall x | x in s && s[x].deadline <= now && x !in c ensures |c| == batch && forall i | 0 <= i < batch :: ScansFirst(c[i], s[c[i]], x, s[x]) {
      assert x in DueSet(s, now);
      var taken := Members(c);
      DistinctCount(c);
      assert taken <= DueSet(s, now) - {x};
      Fewer(taken, DueSet(s, now) - {x});
      forall i | 0 <= i < |c| ensures ScansFirst(c[i], s[c[i]], x, s[x]) { assert Ahead(s, c[i], x); }
    }
    forall i, j | 0 <= i < j < |c| ensures ScansFirst(c[i], s[c[i]], c[j], s[c[j]]) { assert Ahead(s, c[i], c[j]); }
  }

  /** Of these the orders that left pending, because they were expired or because they had left already. */
  function Left(done: seq<OrderId>, fate: map<OrderId, Fate>, expired: bool): set<OrderId> {
    set x | x in done && x in fate && fate[x] == LeftPending(expired)
  }

  function Failures(done: seq<OrderId>, fate: map<OrderId, Fate>): set<OrderId> {
    set x | x in done && x in fate && fate[x].FailedAttempt?
  }

  lemma CountedAre(done: seq<OrderId>, fate: map<OrderId, Fate>)
    ensures Counted(done, fate, AsExpired) == Left(done, fate, true)
    ensures Counted(done, fate, AsSkipped) == Left(done, fate, false)
    ensures Counted(done, fate, AsFailed) == Failures(done, fate)
  {
    forall x | x in done && x in fate
      ensures TallyOf(fate[x]) == AsExpired <==> fate[x] == LeftPending(true)
      ensures TallyOf(fate[x]) == AsSkipped <==> fate[x] == LeftPending(false)
    {
      if fate[x].LeftPending? { assert fate[x] == LeftPending(fate[x].expired); }
    }
    assert Counted(done, fate, AsExpired) == Left(done, fate, true);
    assert Counted(done, fate, AsSkipped) == Left(done, fate, false);
    assert Counted(done, fate, AsFailed) == Failures(done, fate);
  }

  lemma BatchFacts(s: Orders, now: int, batch: nat, c: seq<OrderId>)
    requires IsBatch(s, now, batch, c)
    ensures (forall i | 0 <= i < |c| :: c[i] in s) && (forall i, j | 0 <= i < j < |c| :: c[i] != c[j])
  {}

  lemma NothingAttempted(s: Orders, fate: map<OrderId, Fate>)
    ensures Attempted(s, Members([]), fate) == s && forall tally :: Counted([], fate, tally) == {}
  {}

  lemma OneMoreCounted(c: seq<OrderId>, i: nat, fate: map<OrderId, Fate>, tally: Tally)
    requires i < |c| && c[i] in fate && forall j | 0 <= j < i :: c[j] != c[i]
    ensures |Counted(c[..i + 1], fate, tally)| == |Counted(c[..i], fate, tally)| + if TallyOf(fate[c[i]]) == tally then 1 else 0
  {
    assert c[..i + 1] == c[..i] + [c[i]];
    var before, after := Counted(c[..i], fate, tally), Counted(c[..i + 1], fate, tally);
    assert c[i] !in before;
    assert after == if TallyOf(fate[c[i]]) == tally then before + {c[i]} else before;
  }

  lemma OneMoreAttempted(s: Orders, c: seq<OrderId>, i: nat, fate: map<OrderId, Fate>)
    requires i < |c| && c[i] in fate && forall j | 0 <= j < i :: c[j] != c[i]
    ensures Attempted(s, Members(c[..i + 1]), fate) == AfterOne(Attempted(s, Members(c[..i]), fate), c[i], fate[c[i]])
    ensures forall tally :: |Counted(c[..i + 1], fate, tally)| == |Counted(c[..i], fate, tally)| + if TallyOf(fate[c[i]]) == tally then 1 else 0
  {
    assert c[..i + 1] == c[..i] + [c[i]];
    assert Members(c[..i + 1]) == Members(c[..i]) + {c[i]};
    forall tally { OneMoreCounted(c, i, fate, tally); }
  }

  /** A completed sweep that saves its failures is one the fairness argument speaks of. */
  lemma CompletedIsSwept(s: Orders, now: int, c: seq<OrderId>, fate: map<OrderId, Fate>)
    requires forall x | x in c :: x in fate && (fate[x].FailedAttempt? ==> fate[x].saved && now < fate[x].at)
    ensures Swept(s, Attempted(s, Members(c), fate), now, c)
  {}

  // ----- fairness --------------------------------------------------------------------------

  /** Another worker's failed attempt, if any, moved the order later. */
  predicate SameOrLater(a: Overdue, b: Overdue) {
    b.deadline == a.deadline && (b.failedAt == a.failedAt || (b.failedAt.Some? && Turn(a) <= b.failedAt.value))
  }

  /** During a sweep and until the next one orders are paid or cancelled, other workers attempt some,
      and new ones come with deadlines still ahead. */
  ghost predicate Meanwhile(s: Orders, t: Orders, now: int) {
    forall x | x in t :: (x in s && SameOrLater(s[x], t[x])) || (x !in s && now < t[x].deadline && t[x].failedAt.None?)
  }

  /** Only due orders were ever attempted, and all that was before now. */
  ghost predicate Past(s: Orders, now: int) {
    forall x | x in s && s[x].failedAt.Some? :: s[x].deadline <= s[x].failedAt.value <= now
  }

  /** A due order that neither a completed sweep nor another worker attempted has at least `batch` fewer
      ahead of it at the next one, although every order ahead may have failed again and new ones may
      have become due. */
  lemma SweepMovesUp(s: Orders, t: Orders, u: Orders, now: int, next: int, batch: nat, c: seq<OrderId>, id: OrderId)
    requires IsBatch(s, now, batch, c) && Swept(s, t, now, c) && Meanwhile(t, u, now) && Past(s, now) && now <= next
    requires Due(s, id, now) && id !in c && id in u && u[id] == s[id]
    ensures |Queue(u, id, next)| + batch <= |Queue(s, id, now)|
  {
    var before, after := Queue(s, id, now), Queue(u, id, next);
    var taken := Members(c);
    assert id in DueSet(s, now);
    DistinctCount(c);
    BatchIsFull(s, now, batch, c, taken, id);
    assert taken <= before by { forall i | 0 <= i < |c| ensures c[i] in before { assert Ahead(s, c[i], id); } }
    assert after <= before - taken by {
      forall x | x in after ensures x in before && x !in taken {
        assert Ahead(u, x, id) && Turn(u[id]) <= now;
        assert x in t && SameOrLater(t[x], u[x]);
        assert x !in c && t[x] == s[x];
      }
    }
    Fewer(after, before - taken);
  }

  lemma BatchIsFull(s: Orders, now: int, batch: nat, c: seq<OrderId>, taken: set<OrderId>, id: OrderId)
    requires IsBatch(s, now, batch, c) && taken == (Members(c)) && |taken| == |c| && id in DueSet(s, now) && id !in c
    ensures |c| == batch
  {
    assert taken <= DueSet(s, now) - {id};
    Fewer(taken, DueSet(s, now) - {id});
  }

  /** A run of completed sweeps that saved their failures, with the world moving on in between. */
  datatype Sweep = Sweep(now: int, candidates: seq<OrderId>, after: Orders, later: Orders)

  ghost predicate SweepRun(s: Orders, run: seq<Sweep>, batch: nat)
    decreases |run|
  {
    run == [] || (
      && IsBatch(s, run[0].now, batch, run[0].candidates) && Past(s, run[0].now)
      && Swept(s, run[0].after, run[0].now, run[0].candidates) && Meanwhile(run[0].after, run[0].later, run[0].now)
      && (|run| > 1 ==> run[0].now <= run[1].now)
      && SweepRun(run[0].later, run[1..], batch))
  }

  ghost predicate StillPending(run: seq<Sweep>, id: OrderId) {
    forall i | 0 <= i < |run| :: id in run[i].later
  }

  /** No other worker's attempt at this order is on record. */
  ghost predicate LeftAlone(s: Orders, run: seq<Sweep>, id: OrderId)
    requires id in s && StillPending(run, id)
  {
    forall i | 0 <= i < |run| :: run[i].later[id] == s[id]
  }

  ghost predicate NotReached(run: seq<Sweep>, id: OrderId) {
    forall i | 0 <= i < |run| :: id !in run[i].candidates
  }

  /** As long as it is not reached, each sweep takes `batch` orders from ahead of it. */
  lemma {:induction false} UnreachedMovesUp(s: Orders, run: seq<Sweep>, batch: nat, id: OrderId)
    requires run != [] && SweepRun(s, run, batch) && Due(s, id, run[0].now) && StillPending(run, id) && NotReached(run, id) && LeftAlone(s, run, id)
    ensures |Queue(s, id, run[0].now)| >= |run| * batch
    decreases |run|
  {
    hide IsBatch; hide Swept; hide Meanwhile; hide Past; hide Queue;
    var r := run[0];
    assert id !in r.candidates && id in r.later;
    if |run| == 1 {
      SweepMovesUp(s, r.after, r.later, r.now, r.now, batch, r.candidates, id);
    } else {
      var rest := run[1..];
      SweepMovesUp(s, r.after, r.later, r.now, run[1].now, batch, r.candidates, id);
      assert forall i | 0 <= i < |rest| :: rest[i] == run[i + 1];
      UnreachedMovesUp(r.later, rest, batch, id);
      OneSweepMore(|rest|, batch);
    }
  }

  lemma OneSweepMore(n: nat, batch: nat)
    ensures (n + 1) * batch == n * batch + batch
  {}

  /** Fairness: an order due at the first of these sweeps of one worker, and pending throughout, is
      attempted within ceil(rank / batch) of them, where its rank counts itself, by this worker or by
      another, even if every other order fails for ever. */
  lemma EveryOrderIsReached(s: Orders, run: seq<Sweep>, batch: nat, id: OrderId)
    requires run != [] && SweepRun(s, run, batch) && Due(s, id, run[0].now) && StillPending(run, id)
    requires |Queue(s, id, run[0].now)| + 1 <= |run| * batch
    ensures exists i :: 0 <= i < |run| && (id in run[i].candidates || run[i].later[id] != s[id])
  {
    hide SweepRun; hide Queue;
    if NotReached(run, id) && LeftAlone(s, run, id) { UnreachedMovesUp(s, run, batch, id); }
  }
}
