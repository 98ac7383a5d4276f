/** What callers of the script can count on over whole runs: the order and the pace of promotion,
    and the life of a claim. */
module AdmissionLaws {
  import opened AdmissionTypes
  import opened SortedSet
  import opened AdmissionSpace
  import opened Agreement
  import opened AgreementSteps
  import opened AgreementOps
  import opened AgreementCalls
  import opened AdmissionRuns

  // ----- order of promotion ----------------------------------------------------------------

  /** The waiting entries whose lease still runs, by sequence. */
  function LineAt(s: Space, now: int): ZSet {
    map id | id in s.waiting && id in s.leases && now < s.leases[id] :: s.waiting[id]
  }

  lemma RetireLeavesLine(s: Space, id: AdmissionId, now: int)
    requires Indexed(s) && Owning(s)
    ensures var t := Expire(s, id, now);
      && t.waiting == (if id in s.entries && Due(s.entries[id], now) then s.waiting - {id} else s.waiting)
      && t.leases == (if id in s.entries && Due(s.entries[id], now) then s.leases - {id} else s.leases)
  {}

  /** Expiring waiters whose lease ran out takes exactly those out of the line. */
  lemma {:induction false} ExpireAllLine(s: Space, ids: seq<int>, now: int, p: Profile)
    requires Agreed(s, p, now)
    requires forall i | 0 <= i < |ids| :: ids[i] in s.leases && s.leases[ids[i]] <= now
    requires forall i, j | 0 <= i < j < |ids| :: ids[i] != ids[j]
    ensures var t := ExpireAll(s, ids, now);
      && (forall x :: x in t.waiting <==> x in s.waiting && x !in ids)
      && (forall x | x in t.waiting :: t.waiting[x] == s.waiting[x])
    decreases |ids|
  {
    hide Agreed; hide Expire;
    if ids != [] {
      var s1 := Expire(s, ids[0], now);
      ExpireKeeps(s, ids[0], now, p, now);
      LeaseIsDue(s, ids[0], now, p);
      AgreedIndexes(s, p, now);
      RetireLeavesLine(s, ids[0], now);
      ExpireAllLine(s1, ids[1..], now, p);
    }
  }

  lemma AgreedIndexes(s: Space, p: Profile, now: int)
    requires Agreed(s, p, now)
    ensures Indexed(s) && Owning(s)
  {}

  lemma LeaseIsDue(s: Space, id: AdmissionId, now: int, p: Profile)
    requires Agreed(s, p, now) && id in s.leases && s.leases[id] <= now
    ensures id in s.entries && Due(s.entries[id], now)
  {
    hide Shaped; hide Owning; hide Numbered; hide Budgeted; hide Logged; hide ActiveIndexed; hide ClaimsIndexed;
    assert id in s.waiting;
    assert IsState(s, id, Waiting);
  }

  /** Freeing idle slots leaves the line alone. */
  lemma {:induction false} ExpireIdleLine(s: Space, ids: seq<int>, now: int, cleaned: nat, cleanup: nat, p: Profile)
    requires Agreed(s, p, now)
    requires forall i | 0 <= i < |ids| :: !IsState(s, ids[i], Waiting)
    ensures ExpireIdle(s, ids, now, cleaned, cleanup).0.waiting == s.waiting
    ensures cleaned <= ExpireIdle(s, ids, now, cleaned, cleanup).1
    decreases |ids|
  {
    hide Agreed; hide Expire; hide IdleDue;
    if ids == [] {
    } else if cleaned < cleanup && IdleDue(s, ids[0], now) {
      var s1 := Expire(s, ids[0], now);
      ExpireKeeps(s, ids[0], now, p, now);
      OutOfLine(s, ids[0], now, p);
      ExpireIdleLine(s1, ids[1..], now, cleaned + 1, cleanup, p);
    } else {
      ExpireIdleLine(s, ids[1..], now, cleaned, cleanup, p);
    }
  }

  lemma OutOfLine(s: Space, id: AdmissionId, now: int, p: Profile)
    requires Agreed(s, p, now) && !IsState(s, id, Waiting)
    ensures Expire(s, id, now).waiting == s.waiting
    ensures forall x | !IsState(s, x, Waiting) :: !IsState(Expire(s, id, now), x, Waiting)
  {
    hide Shaped; hide Owning; hide Numbered; hide Budgeted; hide Logged; hide ActiveIndexed; hide ClaimsIndexed;
    assert id !in s.waiting;
    assert s.waiting - {id} == s.waiting;
  }

  /** With no backlog left, what remains of the line is every waiter whose lease still runs. */
  lemma CleanupLeavesLine(s: Space, now: int, p: Profile)
    requires Agreed(s, p, now) && Cleanup(s, now, p).1 < p.cleanup
    ensures Cleanup(s, now, p).0.waiting == LineAt(s, now)
  {
    hide Agreed; hide Expire; hide ExpireAll; hide ExpireIdle; hide RangeByScore; hide Range; hide IsState;
    var late := RangeByScore(s.leases, now, p.cleanup);
    RangeByScoreIsComplete(s.leases, now, p.cleanup);
    ExpireAllLine(s, late, now, p);
    ExpireAllKeeps(s, late, now, p);
    var s1 := ExpireAll(s, late, now);
    var ids := Range(s1.active, Slots(p.capacity));
    RangeIsPrefix(s1.active, Slots(p.capacity));
    ActiveIsNotWaiting(s1, p, now);
    ExpireIdleLine(s1, ids, now, |late|, p.cleanup, p);
    LeasesAreWaiting(s, p, now);
    var t := Cleanup(s, now, p).0;
    assert t.waiting == s1.waiting;
    LineIsLeft(s, s1, late, now);
  }

  lemma LineIsLeft(s: Space, t: Space, late: seq<int>, now: int)
    requires forall id :: id in s.leases <==> id in s.waiting
    requires forall x :: x in t.waiting <==> x in s.waiting && x !in late
    requires forall x | x in t.waiting :: t.waiting[x] == s.waiting[x]
    requires forall x | x in s.leases :: x in late <==> s.leases[x] <= now
    ensures t.waiting == LineAt(s, now)
  {
    var line := LineAt(s, now);
    forall x ensures x in t.waiting <==> x in line {
      assert x in s.leases <==> x in s.waiting;
    }
    forall x | x in line ensures t.waiting[x] == line[x] { assert x in t.waiting; }
  }

  lemma ActiveIsNotWaiting(s: Space, p: Profile, now: int)
    requires Agreed(s, p, now)
    ensures forall id | id in s.active :: !IsState(s, id, Waiting)
  {
    hide Shaped; hide Owning; hide Numbered; hide Budgeted; hide Logged; hide WaitingIndexed; hide ClaimsIndexed;
    forall id | id in s.active ensures !IsState(s, id, Waiting) { assert IsState(s, id, Admitted); }
  }

  lemma LeasesAreWaiting(s: Space, p: Profile, now: int)
    requires Agreed(s, p, now)
    ensures forall id :: id in s.leases <==> id in s.waiting
  {
    hide Shaped; hide Owning; hide Numbered; hide Budgeted; hide Logged; hide ActiveIndexed; hide ClaimsIndexed;
  }

  ghost predicate AllRun(s: Space, now: int) {
    forall id | id in s.waiting :: id in s.entries && s.entries[id].expiresAt.Some? && now < s.entries[id].expiresAt.value
  }

  /** If every lease runs, the promotion loop never breaks off: it takes the first n in line. */
  lemma {:induction false} PromoteUpToInOrder(s: Space, n: int, now: int, p: Profile)
    requires AllRun(s, now)
    ensures PromoteUpTo(s, n, now, p).1 == Range(s.waiting, Slots(n))
    decreases Slots(n)
  {
    if n <= 0 || s.waiting == map[] {
    } else {
      var first := First(s.waiting);
      var s1 := Promote(s, first, now, p);
      assert s1.waiting == s.waiting - {first};
      PromoteUpToInOrder(s1, n - 1, now, p);
    }
  }

  lemma RestRuns(s: Space, t: Space, now: int, p: Profile)
    requires Agreed(t, p, now) && t.waiting == LineAt(s, now)
    requires forall id | id in t.waiting :: id in t.leases && id in s.leases && t.leases[id] == s.leases[id]
    ensures AllRun(t, now)
  {
    hide Shaped; hide Owning; hide Numbered; hide Budgeted; hide Logged; hide ActiveIndexed; hide ClaimsIndexed;
    forall id | id in t.waiting ensures id in t.entries && t.entries[id].expiresAt.Some? && now < t.entries[id].expiresAt.value {
      assert IsState(t, id, Waiting);
    }
  }

  lemma ExpireKeepsLeases(s: Space, id: AdmissionId, now: int)
    ensures var t := Expire(s, id, now); forall x | x in t.leases :: x in s.leases && t.leases[x] == s.leases[x]
  {}

  lemma {:induction false} ExpireAllKeepsLeases(s: Space, ids: seq<int>, now: int)
    ensures var t := ExpireAll(s, ids, now); forall x | x in t.leases :: x in s.leases && t.leases[x] == s.leases[x]
    decreases |ids|
  {
    hide Expire;
    if ids != [] {
      ExpireKeepsLeases(s, ids[0], now);
      ExpireAllKeepsLeases(Expire(s, ids[0], now), ids[1..], now);
    }
  }

  lemma {:induction false} ExpireIdleKeepsLeases(s: Space, ids: seq<int>, now: int, cleaned: nat, cleanup: nat)
    ensures var t := ExpireIdle(s, ids, now, cleaned, cleanup).0; forall x | x in t.leases :: x in s.leases && t.leases[x] == s.leases[x]
    decreases |ids|
  {
    hide Expire; hide IdleDue;
    if ids == [] {
    } else if cleaned < cleanup && IdleDue(s, ids[0], now) {
      ExpireKeepsLeases(s, ids[0], now);
      ExpireIdleKeepsLeases(Expire(s, ids[0], now), ids[1..], now, cleaned + 1, cleanup);
    } else {
      ExpireIdleKeepsLeases(s, ids[1..], now, cleaned, cleanup);
    }
  }

  lemma CleanupKeepsLeases(s: Space, now: int, p: Profile)
    requires Agreed(s, p, now)
    ensures var t := Cleanup(s, now, p).0;
      && (forall x | x in t.leases :: x in s.leases && t.leases[x] == s.leases[x])
      && (forall x :: x in t.leases <==> x in t.waiting)
  {
    hide Agreed; hide Expire; hide ExpireAll; hide ExpireIdle; hide Range; hide RangeByScore; hide Quiet; hide WindowExact;
    var late := RangeByScore(s.leases, now, p.cleanup);
    var s1 := ExpireAll(s, late, now);
    ExpireAllKeepsLeases(s, late, now);
    ExpireIdleKeepsLeases(s1, Range(s1.active, Slots(p.capacity)), now, |late|, p.cleanup);
    CleanupKeeps(s, now, p);
    LeasesAreWaiting(Cleanup(s, now, p).0, p, now);
  }

  /** A tick without cleanup backlog promotes exactly the first of the line that both budgets and
      the batch leave room for; with a backlog it promotes nobody. Either way nobody is promoted
      ahead of a lower sequence whose lease still runs. */
  lemma TickPromotesInOrder(s: Space, h: History, now: int, p: Profile)
    requires At(s, h, now, p)
    ensures var line := LineAt(s, now);
      var (s1, cleaned) := Cleanup(s, now, p);
      var r := Tick(s, now, p).1;
      && r.Ticked? && r.cleaned == cleaned
      && r.promoted == (if cleaned < p.cleanup then Range(line, Slots(Headroom(s1, p))) else [])
      && (cleaned < p.cleanup ==> |r.promoted| == Min(Slots(Headroom(s1, p)), |line|))
      && (forall i | 0 <= i < |r.promoted| :: r.promoted[i] in line)
      && (forall i, j | 0 <= i < j < |r.promoted| :: line[r.promoted[i]] < line[r.promoted[j]])
      && (forall i, x | 0 <= i < |r.promoted| && x in line && x !in r.promoted :: line[r.promoted[i]] < line[x])
  {
    hide At; hide Agreed; hide Cleanup; hide Range; hide PromoteUpTo; hide LineAt; hide Headroom; hide Quiet; hide AllRun; hide WindowExact;
    AtAgrees(s, h, now, p);
    var (s1, cleaned) := Cleanup(s, now, p);
    var line := LineAt(s, now);
    if cleaned < p.cleanup {
      CleanupKeeps(s, now, p);
      CleanupLeavesLine(s, now, p);
      CleanupKeepsLeases(s, now, p);
      RestRuns(s, s1, now, p);
      PromoteUpToInOrder(s1, Headroom(s1, p), now, p);
      RangeIsPrefix(line, Slots(Headroom(s1, p)));
      LineIsStrict(s, now, p);
    }
  }

  lemma LineIsStrict(s: Space, now: int, p: Profile)
    requires Agreed(s, p, now)
    ensures var line := LineAt(s, now); forall a, b | a in line && b in line && a != b :: line[a] != line[b]
  {
    hide Shaped; hide Owning; hide Structures; hide Budgeted; hide Logged; hide ActiveIndexed; hide ClaimsIndexed;
    forall id | id in s.waiting ensures id in s.entries { assert IsState(s, id, Waiting); }
  }

  // ----- pace of promotion -----------------------------------------------------------------

  /** Each promotion is of an entry never promoted before, and is recorded at its instant. */
  ghost predicate Recorded(s: Space, t: Space, promoted: seq<AdmissionId>, now: int) {
    && (forall i | 0 <= i < |promoted| ::
          && promoted[i] in s.entries && s.entries[promoted[i]].admittedAt.None?
          && promoted[i] in t.entries && t.entries[promoted[i]].admittedAt == Some(now))
    && (forall i, j | 0 <= i < j < |promoted| :: promoted[i] != promoted[j])
  }

  lemma {:induction false} PromoteUpToRecords(s: Space, n: int, now: int, p: Profile)
    requires Agreed(s, p, now) && WindowExact(s, now)
    requires n <= p.rate - |s.window| && n <= p.capacity - |s.active|
    ensures var (t, promoted) := PromoteUpTo(s, n, now, p);
      Recorded(s, t, promoted, now) && Quiet(s, t) && forall i | 0 <= i < |promoted| :: promoted[i] in s.waiting
    decreases Slots(n)
  {
    hide Agreed; hide WindowExact; hide Promote; hide Quiet;
    if n <= 0 || s.waiting == map[] {
      QuietItself(s);
    } else {
      var first := First(s.waiting);
      FirstInLine(s, p, now);
      WaitingIsUnpromoted(s, first, p, now);
      if s.entries[first].expiresAt.value <= now {
        QuietItself(s);
      } else {
        var s1 := Promote(s, first, now, p);
        PromoteKeeps(s, s1, first, p, now);
        PromoteIsQuiet(s, first, now, p);
        PromoteMarks(s, first, now, p);
        PromoteUpToRecords(s1, n - 1, now, p);
        var (t, rest) := PromoteUpTo(s1, n - 1, now, p);
        QuietTwice(s, s1, t);
        QuietKeepsAdmission(s1, t, first);
        forall i | 0 <= i < |rest| ensures rest[i] != first && rest[i] in s.entries && s.entries[rest[i]].admittedAt.None? {
          assert rest[i] in s1.waiting;
        }
      }
    }
  }

  lemma PromoteMarks(s: Space, id: AdmissionId, now: int, p: Profile)
    requires id in s.entries
    ensures var t := Promote(s, id, now, p);
      && t.entries.Keys == s.entries.Keys && t.entries[id].admittedAt == Some(now)
      && (forall x | x in s.entries && x != id :: t.entries[x] == s.entries[x])
      && (forall x :: x in t.waiting <==> x in s.waiting && x != id)
  {}

  lemma QuietKeepsAdmission(s: Space, t: Space, id: AdmissionId)
    requires Quiet(s, t) && id in s.entries && s.entries[id].admittedAt.Some?
    ensures id in t.entries && t.entries[id].admittedAt == s.entries[id].admittedAt
  {
    assert Background(s.entries[id], t.entries[id]);
  }

  lemma RecordedEarlier(s: Space, s1: Space, t: Space, promoted: seq<AdmissionId>, now: int, p: Profile)
    requires Quiet(s, s1) && Recorded(s1, t, promoted, now)
    requires forall i | 0 <= i < |promoted| :: promoted[i] in s.entries
    ensures Recorded(s, t, promoted, now)
  {
    forall i | 0 <= i < |promoted| ensures s.entries[promoted[i]].admittedAt.None? {
      QuietAt(s, s1, promoted[i]);
    }
  }

  lemma QuietAt(s: Space, t: Space, id: AdmissionId)
    requires Quiet(s, t) && id in s.entries
    ensures id in t.entries && (s.entries[id].admittedAt.Some? ==> t.entries[id].admittedAt == s.entries[id].admittedAt)
  {
    assert Background(s.entries[id], t.entries[id]);
  }

  lemma CleanupKeepsKeys(s: Space, now: int, p: Profile)
    ensures Cleanup(s, now, p).0.entries.Keys == s.entries.Keys
  {
    hide Expire; hide ExpireAll; hide ExpireIdle; hide Range; hide RangeByScore;
    var late := RangeByScore(s.leases, now, p.cleanup);
    var s1 := ExpireAll(s, late, now);
    ExpireAllKeepsKeys(s, late, now);
    ExpireIdleKeepsKeys(s1, Range(s1.active, Slots(p.capacity)), now, |late|, p.cleanup);
  }

  lemma {:induction false} ExpireAllKeepsKeys(s: Space, ids: seq<int>, now: int)
    ensures ExpireAll(s, ids, now).entries.Keys == s.entries.Keys
    decreases |ids|
  {
    hide Expire;
    if ids != [] {
      ExpireKeepsKeys(s, ids[0], now);
      ExpireAllKeepsKeys(Expire(s, ids[0], now), ids[1..], now);
    }
  }

  lemma {:induction false} ExpireIdleKeepsKeys(s: Space, ids: seq<int>, now: int, cleaned: nat, cleanup: nat)
    ensures ExpireIdle(s, ids, now, cleaned, cleanup).0.entries.Keys == s.entries.Keys
    decreases |ids|
  {
    hide Expire; hide IdleDue;
    if ids == [] {
    } else if cleaned < cleanup && IdleDue(s, ids[0], now) {
      ExpireKeepsKeys(s, ids[0], now);
      ExpireIdleKeepsKeys(Expire(s, ids[0], now), ids[1..], now, cleaned + 1, cleanup);
    } else {
      ExpireIdleKeepsKeys(s, ids[1..], now, cleaned, cleanup);
    }
  }

  lemma TickRecords(s: Space, now: int, p: Profile)
    requires Agreed(s, p, now)
    ensures var (t, r) := Tick(s, now, p); r.Ticked? && Recorded(s, t, r.promoted, now)
  {
    hide Agreed; hide Cleanup; hide PromoteUpTo; hide Quiet; hide WindowExact; hide Recorded;
    var (s1, cleaned) := Cleanup(s, now, p);
    if cleaned < p.cleanup {
      CleanupKeeps(s, now, p);
      CleanupKeepsKeys(s, now, p);
      PromoteUpToRecords(s1, Headroom(s1, p), now, p);
      var (t, promoted) := PromoteUpTo(s1, Headroom(s1, p), now, p);
      assert forall i | 0 <= i < |promoted| :: promoted[i] in s.entries by { RecordedIds(s1, t, promoted, now); }
      RecordedEarlier(s, s1, t, promoted, now, p);
    } else {
      NothingRecorded(s, s1, now);
    }
  }

  lemma RecordedIds(s: Space, t: Space, promoted: seq<AdmissionId>, now: int)
    requires Recorded(s, t, promoted, now)
    ensures forall i | 0 <= i < |promoted| :: promoted[i] in s.entries
  {}

  lemma NothingRecorded(s: Space, t: Space, now: int)
    ensures Recorded(s, t, [], now)
  {}

  /** The promotions the replies of a run report for the instants in (low, high]. */
  function PromotionsDuring(s: Space, calls: seq<Call>, low: int, high: int, p: Profile): nat
    decreases |calls|
  {
    if calls == [] then 0 else
      var (t, r) := Step(s, calls[0].op, calls[0].now, p);
      (if r.Ticked? && low < calls[0].now <= high then |r.promoted| else 0) +
      PromotionsDuring(t, calls[1..], low, high, p)
  }

  lemma StepCountsPromotions(s: Space, op: Op, now: int, low: int, high: int, p: Profile)
    requires Agreed(s, p, now) && Carried(s, Step(s, op, now, p).0)
    ensures var (t, r) := Step(s, op, now, p);
      |PromotedIn(s, low, high)| + (if r.Ticked? && low < now <= high then |r.promoted| else 0) <= |PromotedIn(t, low, high)|
  {
    var (t, r) := Step(s, op, now, p);
    assert PromotedIn(s, low, high) <= PromotedIn(t, low, high) by { CarriedPromotions(s, t, low, high); }
    if r.Ticked? && low < now <= high {
      OnlyTicks(s, op, now, p);
      assert Recorded(s, t, r.promoted, now) by { hide Agreed; hide Recorded; TickRecords(s, now, p); }
      PromotionsAdd(s, t, r.promoted, now, low, high);
    } else {
      Fewer(PromotedIn(s, low, high), PromotedIn(t, low, high));
    }
  }

  lemma CarriedPromotions(s: Space, t: Space, low: int, high: int)
    requires Carried(s, t)
    ensures PromotedIn(s, low, high) <= PromotedIn(t, low, high)
  {
    forall id | id in PromotedIn(s, low, high) ensures id in PromotedIn(t, low, high) {
      assert Evolves(s.entries[id], t.entries[id]);
    }
  }

  lemma OnlyTicks(s: Space, op: Op, now: int, p: Profile)
    requires Step(s, op, now, p).1.Ticked?
    ensures Step(s, op, now, p) == Tick(s, now, p)
  {
    hide Tick; hide Renew; hide Expire; hide Register; hide Terminal; hide Finish; hide StartClaim; hide Mark; hide MarkAll;
  }

  lemma AddedIsNew(s: Space, t: Space, promoted: seq<AdmissionId>, added: set<AdmissionId>, now: int, low: int, high: int)
    requires Recorded(s, t, promoted, now) && low < now <= high && added == set id | id in promoted
    ensures PromotedIn(s, low, high) !! added && added <= PromotedIn(t, low, high)
  {
    forall id | id in added ensures id !in PromotedIn(s, low, high) && id in PromotedIn(t, low, high) {
      var i :| 0 <= i < |promoted| && promoted[i] == id;
    }
  }

  lemma PromotionsAdd(s: Space, t: Space, promoted: seq<AdmissionId>, now: int, low: int, high: int)
    requires Recorded(s, t, promoted, now) && low < now <= high
    requires PromotedIn(s, low, high) <= PromotedIn(t, low, high)
    ensures |PromotedIn(s, low, high)| + |promoted| <= |PromotedIn(t, low, high)|
  {
    var added := set id | id in promoted;
    DistinctCount(promoted);
    AddedIsNew(s, t, promoted, added, now, low, high);
    hide PromotedIn; hide Recorded;
    Fewer(PromotedIn(s, low, high) + added, PromotedIn(t, low, high));
  }

  lemma {:induction false} RunCountsPromotions(s: Space, calls: seq<Call>, clock: int, low: int, high: int, p: Profile)
    requires Agreed(s, p, clock) && p.Valid() && Admissible(s, calls, clock, p)
    ensures |PromotedIn(s, low, high)| + PromotionsDuring(s, calls, low, high, p) <= |PromotedIn(Run(s, calls, p), low, high)|
    decreases |calls|
  {
    hide Agreed; hide Carried; hide Step; hide PromotedIn;
    if calls != [] {
      var c := calls[0];
      var t := Step(s, c.op, c.now, p).0;
      StepKeeps(s, c.op, clock, c.now, p);
      TimePasses(s, p, clock, c.now);
      StepCountsPromotions(s, c.op, c.now, low, high, p);
      RunCountsPromotions(t, calls[1..], c.now, low, high, p);
    }
  }

  /** The rolling rate: however the calls of a run fall, the replies report at most `rate` promotions
      within any second (t - 1000, t]. */
  lemma RollingRate(epoch: Epoch, endAt: int, calls: seq<Call>, clock: int, p: Profile, t: int)
    requires p.Valid() && Admissible(EmptySpace(epoch, endAt), calls, clock, p)
    ensures PromotionsDuring(EmptySpace(epoch, endAt), calls, t - 1000, t, p) <= p.rate
  {
    hide Agreed; hide Carried; hide PromotedIn; hide PromotionsDuring; hide EmptySpace; hide Run; hide Admissible;
    var s := EmptySpace(epoch, endAt);
    EmptyAgrees(epoch, endAt, p, clock);
    RunCountsPromotions(s, calls, clock, t - 1000, t, p);
    BudgetsHold(Run(s, calls, p), calls, epoch, endAt, clock, p, t);
    assert |PromotedIn(Run(s, calls, p), t - 1000, t)| <= p.rate;
  }

  // ----- the life of a claim ---------------------------------------------------------------

  predicate Finishes(op: Op, id: AdmissionId, e: Entry) {
    && (op.DoComplete? || op.DoClose?)
    && op.id == id && op.user == e.user && e.fingerprint == Some(op.fp) && e.claimToken == Some(op.token)
  }

  lemma QuietHolds(s: Space, t: Space, id: AdmissionId)
    requires Quiet(s, t) && id in s.entries && Claimed(s.entries[id])
    ensures id in t.entries && Claimed(t.entries[id])
  {
    assert Background(s.entries[id], t.entries[id]);
  }

  lemma ClaimHolds(s: Space, t: Space, user: UserId, other: AdmissionId, fp: Fingerprint, token: Token, now: int, r: Reply, id: AdmissionId)
    requires ClaimOutcome(s, t, user, other, fp, token, now, r) && id in s.entries && Claimed(s.entries[id])
    ensures id in t.entries && Claimed(t.entries[id])
  {}

  lemma FinishHolds(s: Space, t: Space, user: UserId, other: AdmissionId, fp: Fingerprint, token: Token, last: Entry -> Entry, r: Reply, id: AdmissionId)
    requires FinishOutcome(s, t, user, other, fp, token, last, r) && id in s.entries && Claimed(s.entries[id])
    requires !(other == id && user == s.entries[id].user && s.entries[id].fingerprint == Some(fp) && s.entries[id].claimToken == Some(token))
    ensures id in t.entries && Claimed(t.entries[id])
  {}

  lemma StepHoldsClaim(s: Space, op: Op, now: int, p: Profile, id: AdmissionId)
    requires Agreed(s, p, now) && p.Valid() && Fresh(s, op)
    requires id in s.entries && Claimed(s.entries[id]) && !Finishes(op, id, s.entries[id])
    ensures var t := Step(s, op, now, p).0; id in t.entries && Claimed(t.entries[id])
  {
    hide Agreed; hide Quiet; hide Claimed; hide Matches; hide ClaimOutcome; hide FinishOutcome; hide ConsumedBy; hide ClosedEntry;
    hide Status; hide Join; hide Tick; hide Reconcile; hide Cancel; hide Claim; hide Complete; hide Close; hide Snapshot; hide Reclaimable;
    var (t, r) := Step(s, op, now, p);
    if now >= s.endAt && !Finalizing(op) {
    } else {
      match op {
        case DoStatus(user) => StatusKeeps(s, user, now, p); QuietHolds(s, t, id);
        case DoJoin(user, join, entry) =>
          if join in s.joins { JoinAgainKeeps(s, user, join, entry, now, p); } else { JoinNewKeeps(s, user, join, entry, now, p); }
          QuietHolds(s, t, id);
        case DoTick => TickKeeps(s, now, p); QuietHolds(s, t, id);
        case DoReconcile => ReconcileKeeps(s, now, p); QuietHolds(s, t, id);
        case DoInspect(other) =>
        case DoCancel(user, other) => CancelKeeps(s, user, other, now, p); QuietHolds(s, t, id);
        case DoClaim(user, other, fp, token) =>
          ClaimKeeps(s, user, other, fp, token, now, p);
          ClaimHolds(s, t, user, other, fp, token, now, r, id);
        case DoComplete(user, other, fp, token, outcome) =>
          CompleteKeeps(s, user, other, fp, token, outcome, now, p);
          FinishHolds(s, t, user, other, fp, token, ConsumedBy(outcome), r, id);
        case DoClose(user, other, fp, token) =>
          CloseKeeps(s, user, other, fp, token, now, p);
          FinishHolds(s, t, user, other, fp, token, ClosedEntry(), r, id);
      }
    }
  }

  lemma {:induction false} ClaimHeld(s: Space, calls: seq<Call>, clock: int, p: Profile, id: AdmissionId)
    requires Agreed(s, p, clock) && p.Valid() && Admissible(s, calls, clock, p)
    requires id in s.entries && Claimed(s.entries[id])
    requires forall i | 0 <= i < |calls| :: !Finishes(calls[i].op, id, s.entries[id])
    ensures var t := Run(s, calls, p);
      && id in t.entries && Claimed(t.entries[id]) && id in t.active && id in t.claims
      && t.entries[id].fingerprint == s.entries[id].fingerprint
      && t.entries[id].claimToken == s.entries[id].claimToken
      && t.entries[id].deadline == s.entries[id].deadline
    decreases |calls|
  {
    hide Agreed; hide Step; hide Carried; hide Claimed; hide Evolves;
    if calls == [] {
      ClaimedIsIndexed(s, p, clock, id);
    } else {
      var c := calls[0];
      var t := Step(s, c.op, c.now, p).0;
      StepKeeps(s, c.op, clock, c.now, p);
      TimePasses(s, p, clock, c.now);
      StepHoldsClaim(s, c.op, c.now, p, id);
      assert SameBinding(s.entries[id], t.entries[id]) by { BindingKept(s, t, id, p, clock); }
      ClaimHeld(t, calls[1..], c.now, p, id);
    }
  }

  /** A slot once claimed is held: until its own request's complete or close, no other call, no
      lease, no tick, no cancel and no lapse of time frees it, and its fingerprint, token and
      deadline stay as they were. */
  lemma ClaimedSlotIsHeld(s: Space, h: History, calls: seq<Call>, now: int, p: Profile, id: AdmissionId)
    requires At(s, h, now, p) && Admissible(s, calls, now, p)
    requires id in s.entries && s.entries[id].state == Admitted && s.entries[id].phase != Idle
    requires forall i | 0 <= i < |calls| :: !Finishes(calls[i].op, id, s.entries[id])
    ensures var t := Run(s, calls, p);
      && id in t.entries && t.entries[id].state == Admitted && t.entries[id].phase != Idle && id in t.active && id in t.claims
      && t.entries[id].fingerprint == s.entries[id].fingerprint
      && t.entries[id].claimToken == s.entries[id].claimToken
      && t.entries[id].deadline == s.entries[id].deadline
  {
    hide At; hide Agreed; hide Admissible; hide Run; hide Finishes;
    AtAgrees(s, h, now, p);
    ClaimHeld(s, calls, now, p, id);
  }

  predicate SameBinding(e: Entry, f: Entry) {
    e.user == f.user && e.fingerprint == f.fingerprint && e.claimToken == f.claimToken && e.deadline == f.deadline
  }

  lemma BindingKept(s: Space, t: Space, id: AdmissionId, p: Profile, clock: int)
    requires Agreed(s, p, clock) && Carried(s, t) && id in s.entries && Claimed(s.entries[id])
    ensures id in t.entries && SameBinding(s.entries[id], t.entries[id])
  {
    EntryIsOk(s, id, p, clock);
    hide Agreed;
    assert Evolves(s.entries[id], t.entries[id]);
  }

  lemma ClaimedIsIndexed(s: Space, p: Profile, clock: int, id: AdmissionId)
    requires Agreed(s, p, clock) && id in s.entries && Claimed(s.entries[id])
    ensures id in s.active && id in s.claims
  {
    hide Shaped; hide Owning; hide Numbered; hide Budgeted; hide Logged;
    assert IsState(s, id, Admitted);
  }

  /** Repeating a claim before its deadline changes nothing and returns the same entry, whatever
      token the repetition brings; a different request under the same admission is refused. */
  lemma ClaimRepeats(s: Space, h: History, user: UserId, id: AdmissionId, fp: Fingerprint, token: Token, now: int, p: Profile)
    requires At(s, h, now, p) && id in s.entries && s.entries[id].user == user && s.entries[id].state == Admitted && s.entries[id].phase != Idle
    ensures var (t, r) := Claim(s, user, id, fp, token, now, p);
      if s.entries[id].fingerprint != Some(fp) then t == s && r == Refusal(RequestMismatch, None, None)
      else if s.entries[id].deadline.Some? && now < s.entries[id].deadline.value then t == s && Answers(r, s.entries[id], false)
      else t == s.(entries := s.entries[id := s.entries[id].(phase := Reconciling)]) && r == Refusal(InProgress, None, None)
  {
    hide At; hide Agreed; hide Snapshot; hide StartClaim;
    AtAgrees(s, h, now, p);
    EntryIsOk(s, id, p, now);
    SnapshotAnswers(s, id, false, p, now);
    ClaimedNeverExpires(s, id, now);
  }

  lemma ClaimedNeverExpires(s: Space, id: AdmissionId, now: int)
    requires id in s.entries && Claimed(s.entries[id])
    ensures Expire(s, id, now) == s
  {}

  /** The first complete or close decides: after it, whatever the rest of the run holds, the entry
      is exactly what that call made of it. */
  lemma FirstFinishWins(s: Space, h: History, op: Op, calls: seq<Call>, now: int, p: Profile, id: AdmissionId)
    requires At(s, h, now, p)
    requires id in s.entries && s.entries[id].state == Admitted && s.entries[id].phase != Idle && Finishes(op, id, s.entries[id])
    requires Admissible(Step(s, op, now, p).0, calls, now, p)
    ensures var t := Run(Step(s, op, now, p).0, calls, p);
      id in t.entries && t.entries[id] ==
        if op.DoComplete? then s.entries[id].(state := Consumed, phase := Idle, expiresAt := None, reason := None, outcome := Some(op.outcome))
        else s.entries[id].(state := Expired, phase := Idle, expiresAt := None, reason := Some(AdmissionExpired))
  {
    hide At; hide Agreed; hide Carried; hide Snapshot; hide Run; hide Admissible; hide Retire;
    AtAgrees(s, h, now, p);
    var t := Step(s, op, now, p).0;
    StepKeeps(s, op, now, now, p);
    if op.DoComplete? {
      CompleteKeeps(s, op.user, id, op.fp, op.token, op.outcome, now, p);
    } else {
      CloseKeeps(s, op.user, id, op.fp, op.token, now, p);
    }
    RunAgrees(t, calls, now, p);
    EndedStays(t, Run(t, calls, p), id);
  }

  lemma EndedStays(s: Space, t: Space, id: AdmissionId)
    requires Carried(s, t) && id in s.entries && !Live(s.entries[id])
    ensures id in t.entries && t.entries[id] == s.entries[id]
  {
    assert Evolves(s.entries[id], t.entries[id]);
  }
}
