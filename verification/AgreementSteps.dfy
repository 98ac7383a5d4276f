/** Every single transition of an entry keeps the whole agreement. */
module AgreementSteps {
  import opened AdmissionTypes
  import opened SortedSet
  import opened TransitionLog
  import opened AdmissionSpace
  import opened Agreement
  import opened ReplaySteps

  // ----- small facts -----------------------------------------------------------------------

  lemma DropOne<K, V>(m: map<K, V>, k: K)
    ensures |m - {k}| == if k in m then |m| - 1 else |m|
  {
    if k in m { assert (m - {k}).Keys == m.Keys - {k}; } else { assert m - {k} == m; }
  }

  lemma PutOne<K, V>(m: map<K, V>, k: K, v: V)
    ensures |m[k := v]| == if k in m then |m| else |m| + 1
  {
    assert m[k := v].Keys == m.Keys + {k};
  }

  lemma Fewer<T>(a: set<T>, b: set<T>)
    requires a <= b
    ensures |a| <= |b|
  {
    assert b == a + (b - a);
  }

  function Members(ids: seq<AdmissionId>): set<AdmissionId> {
    set id | id in ids
  }

  lemma {:induction false} DistinctCount(ids: seq<AdmissionId>)
    requires forall i, j | 0 <= i < j < |ids| :: ids[i] != ids[j]
    ensures |Members(ids)| == |ids|
  {
    if ids == [] {
    } else {
      var n := |ids| - 1;
      DistinctCount(ids[..n]);
      assert Members(ids) == Members(ids[..n]) + {ids[n]};
    }
  }

  lemma CleanWhenLogged(s: Space, p: Profile)
    requires Logged(s, p)
    ensures Clean(Replay(s.log, p))
  {
    hide Replay;
    var c := Replay(s.log, p);
    forall u | u in c.unslotted ensures !Outlived(c.lines, u.0, u.1) {
      assert u.1 !in LineOf(c, s.epoch).claims;
    }
  }

  predicate SameOwner(a: Entry, b: Entry) {
    a.id == b.id && a.user == b.user && a.epoch == b.epoch && a.sequence == b.sequence && a.joinedAt == b.joinedAt
  }

  predicate SameIdentity(a: Entry, b: Entry) {
    SameOwner(a, b) && a.admittedAt == b.admittedAt
  }

  /** Promotions depend on the admission times only. */
  lemma SamePromotions(s: Space, t: Space, low: int, high: int)
    requires s.entries.Keys == t.entries.Keys
    requires forall id | id in s.entries :: s.entries[id].admittedAt == t.entries[id].admittedAt
    ensures PromotedIn(s, low, high) == PromotedIn(t, low, high)
  {
    assert forall id :: id in PromotedIn(s, low, high) <==> id in PromotedIn(t, low, high);
  }

  /** A new version of one entry, which leaves who was promoted when as it is. */
  lemma VersionKeepsPromotions(s: Space, t: Space, id: AdmissionId, e: Entry)
    requires id in s.entries && SameIdentity(s.entries[id], e) && t.entries == s.entries[id := e]
    ensures forall low, high :: PromotedIn(s, low, high) == PromotedIn(t, low, high)
  {
    forall low, high ensures PromotedIn(s, low, high) == PromotedIn(t, low, high) {
      SamePromotions(s, t, low, high);
    }
  }

  lemma VersionKeepsShape(s: Space, t: Space, id: AdmissionId, e: Entry, p: Profile, clock: int)
    requires Shaped(s, p, clock) && id in s.entries && SameOwner(s.entries[id], e) && EntryOk(e, p, clock)
    requires t.entries == s.entries[id := e] && t.epoch == s.epoch
    ensures Shaped(t, p, clock)
  {
    hide EntryOk;
  }

  lemma VersionKeepsNumbers(s: Space, t: Space, id: AdmissionId, e: Entry, p: Profile)
    requires Numbered(s, p) && id in s.entries && SameOwner(s.entries[id], e)
    requires t.entries == s.entries[id := e] && t.sequence == s.sequence && t.joins == s.joins
    requires t.userCount == s.userCount && t.latest == s.latest
    requires |t.waiting| == |t.leases| && |t.users| == |t.waiting| + |t.active|
    ensures Numbered(t, p)
  {
    PutOne(s.entries, id, e);
    assert forall x | x in t.entries :: t.entries[x].sequence == s.entries[x].sequence;
  }

  lemma VersionKeepsBudgets(s: Space, t: Space, id: AdmissionId, e: Entry, p: Profile, clock: int)
    requires Budgeted(s, p, clock) && id in s.entries && SameIdentity(s.entries[id], e)
    requires t.entries == s.entries[id := e] && t.window == s.window
    requires |t.active| <= |s.active| && |t.waiting| <= |s.waiting|
    ensures Budgeted(t, p, clock)
  {
    VersionKeepsPromotions(s, t, id, e);
    forall x ensures |LastSecond(t, x)| <= p.rate { assert |LastSecond(s, x)| <= p.rate; }
  }

  /** Two sorted sets that differ at most at one member. */
  ghost predicate OffBy(z: ZSet, y: ZSet, id: AdmissionId) {
    forall x | x != id :: (x in z <==> x in y) && (x in z ==> z[x] == y[x])
  }

  lemma ReindexWaiting(s: Space, t: Space, id: AdmissionId, e: Entry)
    requires WaitingIndexed(s) && t.entries == s.entries[id := e]
    requires OffBy(s.waiting, t.waiting, id) && OffBy(s.leases, t.leases, id)
    requires id in t.waiting <==> e.state == Waiting
    requires id in t.leases <==> e.state == Waiting
    requires e.state == Waiting ==> t.waiting[id] == e.sequence && e.expiresAt == Some(t.leases[id])
    ensures WaitingIndexed(t)
  {
    forall x ensures x in t.waiting <==> IsState(t, x, Waiting) { assert x in s.waiting <==> IsState(s, x, Waiting); }
  }

  lemma ReindexActive(s: Space, t: Space, id: AdmissionId, e: Entry)
    requires ActiveIndexed(s) && t.entries == s.entries[id := e] && OffBy(s.active, t.active, id)
    requires id in t.active <==> e.state == Admitted
    requires e.state == Admitted ==> e.expiresAt == Some(t.active[id])
    ensures ActiveIndexed(t)
  {
    forall x ensures x in t.active <==> IsState(t, x, Admitted) { assert x in s.active <==> IsState(s, x, Admitted); }
  }

  lemma ReindexClaims(s: Space, t: Space, id: AdmissionId, e: Entry)
    requires ClaimsIndexed(s) && t.entries == s.entries[id := e] && OffBy(s.claims, t.claims, id)
    requires id in t.claims <==> Claimed(e)
    requires Claimed(e) ==> e.deadline == Some(t.claims[id])
    ensures ClaimsIndexed(t)
  {
    forall x ensures x in t.claims <==> x in t.entries && Claimed(t.entries[x]) {
      assert x in s.claims <==> x in s.entries && Claimed(s.entries[x]);
    }
  }

  lemma Reindex(s: Space, t: Space, id: AdmissionId, e: Entry)
    requires Indexed(s) && t.entries == s.entries[id := e]
    requires OffBy(s.waiting, t.waiting, id) && OffBy(s.leases, t.leases, id)
    requires OffBy(s.active, t.active, id) && OffBy(s.claims, t.claims, id)
    requires (id in t.waiting <==> e.state == Waiting) && (id in t.leases <==> e.state == Waiting)
    requires e.state == Waiting ==> t.waiting[id] == e.sequence && e.expiresAt == Some(t.leases[id])
    requires id in t.active <==> e.state == Admitted
    requires e.state == Admitted ==> e.expiresAt == Some(t.active[id])
    requires id in t.claims <==> Claimed(e)
    requires Claimed(e) ==> e.deadline == Some(t.claims[id])
    ensures Indexed(t)
  {
    hide WaitingIndexed; hide ActiveIndexed; hide ClaimsIndexed; hide OffBy;
    ReindexWaiting(s, t, id, e);
    ReindexActive(s, t, id, e);
    ReindexClaims(s, t, id, e);
  }

  /** How one entry stands in the indexes. */
  lemma PlaceOf(s: Space, id: AdmissionId)
    requires Indexed(s) && id in s.entries
    ensures var e := s.entries[id];
      && (id in s.waiting <==> e.state == Waiting) && (id in s.leases <==> e.state == Waiting)
      && (e.state == Waiting ==> s.waiting[id] == e.sequence && e.expiresAt == Some(s.leases[id]))
      && (id in s.active <==> e.state == Admitted) && (e.state == Admitted ==> e.expiresAt == Some(s.active[id]))
      && (id in s.claims <==> Claimed(e)) && (Claimed(e) ==> e.deadline == Some(s.claims[id]))
  {
    assert id in s.waiting <==> IsState(s, id, Waiting);
    assert id in s.active <==> IsState(s, id, Admitted);
  }

  /** Where a live entry is: its user's one, and in exactly one of the line and the slots. */
  lemma LivePlace(s: Space, id: AdmissionId)
    requires Indexed(s) && Owning(s) && id in s.entries && Live(s.entries[id])
    ensures s.entries[id].user in s.users && s.users[s.entries[id].user] == id
    ensures (id in s.waiting) != (id in s.active) && (id in s.leases <==> id in s.waiting)
    ensures s.entries[id].state == Waiting <==> id in s.waiting
  {}

  // ----- leaving: the entry ends -----------------------------------------------------------

  lemma RetireKeepsIndexes(s: Space, id: AdmissionId, e: Entry)
    requires Indexed(s) && id in s.entries && !Live(e)
    ensures Indexed(Retire(s, id, e))
  {
    hide WaitingIndexed; hide ActiveIndexed; hide ClaimsIndexed;
    Reindex(s, Retire(s, id, e), id, e);
  }

  lemma RetireKeepsOwners(s: Space, id: AdmissionId, e: Entry)
    requires Owning(s) && id in s.entries && Live(s.entries[id]) && SameIdentity(s.entries[id], e) && !Live(e)
    ensures Owning(Retire(s, id, e))
  {
    hide UsersOwn; hide LatestOwn;
    var t := Retire(s, id, e);
    RetireKeepsUsers(s, t, id, e);
    VersionKeepsLatest(s, t, id, e);
  }

  lemma RetireKeepsUsers(s: Space, t: Space, id: AdmissionId, e: Entry)
    requires UsersOwn(s) && id in s.entries && Live(s.entries[id]) && SameIdentity(s.entries[id], e) && !Live(e)
    requires t == Retire(s, id, e)
    ensures UsersOwn(t)
  {
    assert s.users[e.user] == id;
    forall u | u in t.users ensures t.users[u] in t.entries && Live(t.entries[t.users[u]]) {
      assert s.users[u] != id;
    }
  }

  lemma VersionKeepsLatest(s: Space, t: Space, id: AdmissionId, e: Entry)
    requires LatestOwn(s) && id in s.entries && SameOwner(s.entries[id], e)
    requires t.entries == s.entries[id := e] && t.latest == s.latest
    ensures LatestOwn(t)
  {}

  lemma RetireCounts(s: Space, id: AdmissionId, e: Entry)
    requires |s.waiting| == |s.leases| && |s.users| == |s.waiting| + |s.active|
    requires e.user in s.users && s.users[e.user] == id
    requires (id in s.waiting) != (id in s.active) && (id in s.leases <==> id in s.waiting)
    ensures var t := Retire(s, id, e);
      && |t.waiting| == |t.leases| && |t.users| == |t.waiting| + |t.active|
      && |t.active| <= |s.active| && |t.waiting| <= |s.waiting|
  {
    DropOne(s.users, e.user);
    DropOne(s.waiting, id);
    DropOne(s.leases, id);
    DropOne(s.active, id);
  }

  lemma RetireKeepsLog(s: Space, id: AdmissionId, e: Entry, p: Profile)
    requires Logged(s, p)
    requires id in s.entries && SameIdentity(s.entries[id], e) && !Live(e)
    ensures Logged(Retire(s, id, e), p)
  {
    hide Check; hide CheckAll; hide Counted; hide Replay;
    var t := Retire(s, id, e);
    var c := Replay(s.log, p);
    CleanWhenLogged(s, p);
    ReplayAppends(s.log, ClearLog(s.epoch, id), p);
    ClearLine(c, s.epoch, id, p);
    VersionKeepsPromotions(s, t, id, e);
    assert t.active.Keys == s.active.Keys - {id} && t.claims.Keys == s.claims.Keys - {id};
    CountedStill(s, t, LineOf(c, s.epoch).window);
  }

  lemma CountedStill(s: Space, t: Space, window: seq<int>)
    requires Counted(window, s) && forall low, high :: PromotedIn(s, low, high) == PromotedIn(t, low, high)
    ensures Counted(window, t)
  {
    hide CountIn;
    forall low, high ensures CountIn(window, low, high) == |PromotedIn(t, low, high)| {
      assert PromotedIn(s, low, high) == PromotedIn(t, low, high);
    }
  }

  lemma RetireKeeps(s: Space, id: AdmissionId, e: Entry, p: Profile, clock: int)
    requires Agreed(s, p, clock)
    requires id in s.entries && Live(s.entries[id]) && SameIdentity(s.entries[id], e)
    requires !Live(e) && EntryOk(e, p, clock)
    ensures Agreed(Retire(s, id, e), p, clock)
  {
    hide Shaped; hide Indexed; hide Owning; hide Budgeted; hide Logged; hide EntryOk;
    var t := Retire(s, id, e);
    LivePlace(s, id);
    RetireCounts(s, id, e);
    VersionKeepsShape(s, t, id, e, p, clock);
    RetireKeepsIndexes(s, id, e);
    RetireKeepsOwners(s, id, e);
    VersionKeepsNumbers(s, t, id, e, p);
    VersionKeepsBudgets(s, t, id, e, p, clock);
    RetireKeepsLog(s, id, e, p);
  }

  /** What an unclaimed live entry may become when it ends. */
  lemma ExpiredIsOk(s: Space, id: AdmissionId, p: Profile, clock: int)
    requires Shaped(s, p, clock) && id in s.entries && Live(s.entries[id])
    ensures var e := Ended(s.entries[id], Expired, Some(AdmissionExpired));
      EntryOk(e, p, clock) && !Live(e) && SameIdentity(s.entries[id], e)
  {}

  lemma ExpireKeeps(s: Space, id: AdmissionId, now: int, p: Profile, clock: int)
    requires Agreed(s, p, clock)
    ensures Agreed(Expire(s, id, now), p, clock)
  {
    if id in s.entries && Due(s.entries[id], now) {
      hide Shaped; hide Indexed; hide Owning; hide Numbered; hide Budgeted; hide Logged; hide Retire; hide EntryOk;
      ExpiredIsOk(s, id, p, clock);
      RetireKeeps(s, id, Ended(s.entries[id], Expired, Some(AdmissionExpired)), p, clock);
    }
  }

  // ----- staying: another version of a live entry ------------------------------------------

  /** Another version of an entry in the same state, with new leases and claims. */
  function Amend(s: Space, id: AdmissionId, e: Entry, leases: ZSet, claims: ZSet, log: seq<LogCommand>): Space {
    s.(entries := s.entries[id := e], leases := leases, claims := claims, log := log)
  }

  lemma AmendKeepsOwners(s: Space, t: Space, id: AdmissionId, e: Entry)
    requires Owning(s) && id in s.entries && SameOwner(s.entries[id], e) && Live(s.entries[id]) == Live(e)
    requires t.entries == s.entries[id := e] && t.users == s.users && t.latest == s.latest && t.joins == s.joins
    ensures Owning(t)
  {
    hide LatestOwn;
    VersionKeepsLatest(s, t, id, e);
  }

  /** Everything but the touched index and the log. */
  lemma AmendKeeps(s: Space, t: Space, id: AdmissionId, e: Entry, p: Profile, clock: int)
    requires Shaped(s, p, clock) && Owning(s) && Numbered(s, p) && Budgeted(s, p, clock)
    requires id in s.entries && SameIdentity(s.entries[id], e) && s.entries[id].state == e.state && EntryOk(e, p, clock)
    requires t == Amend(s, id, e, t.leases, t.claims, t.log) && |t.leases| == |s.leases|
    ensures Shaped(t, p, clock) && Owning(t) && Numbered(t, p) && Budgeted(t, p, clock)
  {
    hide Shaped; hide Owning; hide Budgeted; hide EntryOk;
    VersionKeepsShape(s, t, id, e, p, clock);
    AmendKeepsOwners(s, t, id, e);
    VersionKeepsNumbers(s, t, id, e, p);
    VersionKeepsBudgets(s, t, id, e, p, clock);
  }

  lemma AmendKeepsLog(s: Space, t: Space, id: AdmissionId, e: Entry, h: LogCommand, p: Profile)
    requires Logged(s, p)
    requires id in s.entries && SameIdentity(s.entries[id], e) && Live(s.entries[id]) && Live(e)
    requires t == Amend(s, id, e, t.leases, t.claims, s.log + [h])
    requires h.ZAdd? && h.epoch == s.epoch && h.member == id
    requires (h.key == LeaseSet && t.claims.Keys == s.claims.Keys)
          || (h.key == ClaimSet && id in s.active && t.claims.Keys == s.claims.Keys + {id})
    ensures Logged(t, p)
  {
    hide Counted; hide Check; hide Replay;
    var c := Replay(s.log, p);
    CleanWhenLogged(s, p);
    ReplayAppends(s.log, [h], p);
    CheckOne(c, h, p);
    InsertQuietly(c, h, p);
    VersionKeepsPromotions(s, t, id, e);
    CountedStill(s, t, LineOf(c, s.epoch).window);
  }

  lemma RenewKeepsIndexes(s: Space, id: AdmissionId, p: Profile, clock: int)
    requires Indexed(s)
    ensures Indexed(Renew(s, id, clock, p))
  {
    hide WaitingIndexed; hide ActiveIndexed; hide ClaimsIndexed;
    if IsState(s, id, Waiting) {
      PlaceOf(s, id);
      var t := Renew(s, id, clock, p);
      Reindex(s, t, id, t.entries[id]);
    }
  }

  lemma RenewedIsOk(s: Space, id: AdmissionId, p: Profile, clock: int)
    requires Shaped(s, p, clock) && IsState(s, id, Waiting)
    ensures var e := s.entries[id].(expiresAt := Some(clock + p.leaseMs));
      EntryOk(e, p, clock) && SameIdentity(s.entries[id], e)
  {}

  lemma RenewKeeps(s: Space, id: AdmissionId, p: Profile, clock: int)
    requires Agreed(s, p, clock)
    ensures Agreed(Renew(s, id, clock, p), p, clock)
  {
    if IsState(s, id, Waiting) {
      RenewWaitingKeeps(s, Renew(s, id, clock, p), id, p, clock);
    }
  }

  lemma RenewWaitingKeeps(s: Space, t: Space, id: AdmissionId, p: Profile, clock: int)
    requires Agreed(s, p, clock) && IsState(s, id, Waiting) && t == Renew(s, id, clock, p)
    ensures Agreed(t, p, clock)
  {
    hide Shaped; hide Owning; hide Numbered; hide Budgeted; hide Logged; hide Indexed;
    hide EntryOk; hide SameIdentity; hide Replay;
    var e := s.entries[id].(expiresAt := Some(clock + p.leaseMs));
    var h := ZAdd(s.epoch, LeaseSet, clock + p.leaseMs, id);
    assert t == Amend(s, id, e, s.leases[id := clock + p.leaseMs], s.claims, s.log + [h]);
    LivePlace(s, id);
    PutOne(s.leases, id, clock + p.leaseMs);
    RenewedIsOk(s, id, p, clock);
    AmendKeeps(s, t, id, e, p, clock);
    RenewKeepsIndexes(s, id, p, clock);
    AmendKeepsLog(s, t, id, e, h, p);
  }

  lemma BoundIsOk(s: Space, id: AdmissionId, fp: Fingerprint, token: Token, p: Profile, clock: int)
    requires Shaped(s, p, clock) && IsState(s, id, Admitted) && s.entries[id].phase == Idle
    ensures var e := s.entries[id].(phase := Processing, fingerprint := Some(fp), claimToken := Some(token), deadline := Some(clock + p.claimMs));
      EntryOk(e, p, clock) && SameIdentity(s.entries[id], e) && Claimed(e)
  {}

  lemma ClaimKeepsIndexes(s: Space, t: Space, id: AdmissionId, fp: Fingerprint, token: Token, p: Profile, clock: int)
    requires Indexed(s) && IsState(s, id, Admitted) && t == StartClaim(s, id, fp, token, clock, p)
    ensures Indexed(t)
  {
    hide WaitingIndexed; hide ActiveIndexed; hide ClaimsIndexed;
    PlaceOf(s, id);
    Reindex(s, t, id, t.entries[id]);
  }

  function ClaimedEntry(e: Entry, fp: Fingerprint, token: Token, p: Profile, clock: int): Entry {
    e.(phase := Processing, fingerprint := Some(fp), claimToken := Some(token), deadline := Some(clock + p.claimMs))
  }

  lemma ClaimAmends(s: Space, id: AdmissionId, fp: Fingerprint, token: Token, p: Profile, clock: int)
    requires id in s.entries
    ensures var t := StartClaim(s, id, fp, token, clock, p);
      t == Amend(s, id, ClaimedEntry(s.entries[id], fp, token, p, clock), t.leases, t.claims, s.log + [ZAdd(s.epoch, ClaimSet, clock + p.claimMs, id)])
        && t.leases == s.leases && t.claims.Keys == s.claims.Keys + {id} && t.log == s.log + [ZAdd(s.epoch, ClaimSet, clock + p.claimMs, id)]
  {}

  lemma AdmittedIsActive(s: Space, id: AdmissionId)
    requires Indexed(s) && IsState(s, id, Admitted)
    ensures id in s.active && Live(s.entries[id])
  {}

  lemma StartClaimKeeps(s: Space, t: Space, id: AdmissionId, fp: Fingerprint, token: Token, p: Profile, clock: int)
    requires Agreed(s, p, clock) && IsState(s, id, Admitted) && s.entries[id].phase == Idle
    requires t == StartClaim(s, id, fp, token, clock, p)
    ensures Agreed(t, p, clock)
  {
    hide Shaped; hide Owning; hide Numbered; hide Budgeted; hide Logged; hide Indexed;
    hide EntryOk; hide SameIdentity; hide Replay; hide StartClaim; hide Amend; hide Live; hide Claimed;
    var e := ClaimedEntry(s.entries[id], fp, token, p, clock);
    var h := ZAdd(s.epoch, ClaimSet, clock + p.claimMs, id);
    ClaimAmends(s, id, fp, token, p, clock);
    AdmittedIsActive(s, id);
    BoundIsOk(s, id, fp, token, p, clock);
    assert Live(e) by { BoundIsLive(s, id, fp, token, p, clock); }
    AmendKeeps(s, t, id, e, p, clock);
    ClaimKeepsIndexes(s, t, id, fp, token, p, clock);
    AmendKeepsLog(s, t, id, e, h, p);
  }

  lemma BoundIsLive(s: Space, id: AdmissionId, fp: Fingerprint, token: Token, p: Profile, clock: int)
    requires IsState(s, id, Admitted)
    ensures Live(ClaimedEntry(s.entries[id], fp, token, p, clock))
  {}

  lemma MarkedIsOk(s: Space, id: AdmissionId, p: Profile, clock: int)
    requires Shaped(s, p, clock) && id in s.entries && Claimed(s.entries[id])
    ensures var e := s.entries[id].(phase := Reconciling);
      EntryOk(e, p, clock) && SameIdentity(s.entries[id], e) && Claimed(e)
  {}

  lemma MarkKeepsIndexes(s: Space, t: Space, id: AdmissionId)
    requires Indexed(s) && id in s.entries && Claimed(s.entries[id]) && t == Mark(s, id)
    ensures Indexed(t)
  {
    hide WaitingIndexed; hide ActiveIndexed; hide ClaimsIndexed;
    PlaceOf(s, id);
    Reindex(s, t, id, t.entries[id]);
  }

  lemma VersionKeepsLog(s: Space, t: Space, id: AdmissionId, e: Entry, p: Profile)
    requires Logged(s, p) && id in s.entries && SameIdentity(s.entries[id], e) && Live(s.entries[id]) && Live(e)
    requires t == Amend(s, id, e, s.leases, s.claims, s.log)
    ensures Logged(t, p)
  {
    hide Counted; hide Replay;
    VersionKeepsPromotions(s, t, id, e);
    CountedStill(s, t, LineOf(Replay(s.log, p), s.epoch).window);
  }

  lemma MarkKeeps(s: Space, t: Space, id: AdmissionId, p: Profile, clock: int)
    requires Agreed(s, p, clock) && id in s.entries && Claimed(s.entries[id]) && t == Mark(s, id)
    ensures Agreed(t, p, clock)
  {
    hide Shaped; hide Owning; hide Numbered; hide Budgeted; hide Logged; hide Indexed;
    hide EntryOk; hide SameIdentity; hide Replay;
    var e := s.entries[id].(phase := Reconciling);
    assert t == Amend(s, id, e, s.leases, s.claims, s.log);
    MarkedIsOk(s, id, p, clock);
    AmendKeeps(s, t, id, e, p, clock);
    MarkKeepsIndexes(s, t, id);
    VersionKeepsLog(s, t, id, e, p);
  }

  // ----- moving up: a promotion ------------------------------------------------------------

  function PromotedEntry(e: Entry, now: int, p: Profile): Entry {
    e.(state := Admitted, admittedAt := Some(now), expiresAt := Some(now + p.ttlMs))
  }

  /** The window holds exactly the promotions of the last second. */
  ghost predicate WindowExact(s: Space, now: int) {
    s.window.Keys == LastSecond(s, now)
  }

  lemma PromotedIsOk(s: Space, id: AdmissionId, p: Profile, now: int)
    requires Shaped(s, p, now) && IsState(s, id, Waiting)
    ensures var e := PromotedEntry(s.entries[id], now, p);
      EntryOk(e, p, now) && SameOwner(s.entries[id], e) && Live(e) && s.entries[id].admittedAt.None? && e.phase == Idle
  {}

  lemma PromoteKeepsIndexes(s: Space, t: Space, id: AdmissionId, p: Profile, now: int)
    requires Indexed(s) && IsState(s, id, Waiting) && s.entries[id].phase == Idle && t == Promote(s, id, now, p)
    ensures Indexed(t)
  {
    hide WaitingIndexed; hide ActiveIndexed; hide ClaimsIndexed;
    hide EntryOk;
    PlaceOf(s, id);
    Reindex(s, t, id, t.entries[id]);
  }

  lemma PromoteCounts(s: Space, t: Space, id: AdmissionId, p: Profile, now: int)
    requires id in s.entries && t == Promote(s, id, now, p)
    requires id in s.waiting && id in s.leases && id !in s.active && id !in s.window
    ensures |t.waiting| == |s.waiting| - 1 && |t.leases| == |s.leases| - 1
    ensures |t.active| == |s.active| + 1 && |t.window| == |s.window| + 1
  {
    DropOne(s.waiting, id);
    DropOne(s.leases, id);
    PutOne(s.active, id, now + p.ttlMs);
    PutOne(s.window, id, now);
  }

  /** One more promotion, now: it is in every range that holds now. */
  lemma PromoteAdds(s: Space, t: Space, id: AdmissionId, p: Profile, now: int, low: int, high: int)
    requires id in s.entries && s.entries[id].admittedAt.None? && t == Promote(s, id, now, p)
    ensures PromotedIn(t, low, high) == PromotedIn(s, low, high) + (if low < now <= high then {id} else {})
    ensures id !in PromotedIn(s, low, high)
  {
    var a, b := PromotedIn(t, low, high), PromotedIn(s, low, high) + (if low < now <= high then {id} else {});
    assert forall x :: x in a <==> x in b;
  }

  /** From now on, a second that reaches back less than the window's cannot hold more. */
  lemma LaterSecondsHoldLess(s: Space, p: Profile, now: int, x: int)
    requires Shaped(s, p, now) && WindowExact(s, now) && now <= x
    ensures |LastSecond(s, x)| <= |s.window|
  {
    forall y | y in LastSecond(s, x) ensures y in LastSecond(s, now) {
      assert EntryOk(s.entries[y], p, now);
    }
    Fewer(LastSecond(s, x), LastSecond(s, now));
    assert |s.window| == |s.window.Keys|;
  }

  lemma PromoteKeepsWindow(s: Space, t: Space, id: AdmissionId, p: Profile, now: int)
    requires WindowExact(s, now) && id in s.entries && s.entries[id].admittedAt.None? && t == Promote(s, id, now, p)
    ensures WindowExact(t, now)
  {
    PromoteAdds(s, t, id, p, now, now - 1000, now);
    assert t.window.Keys == s.window.Keys + {id};
  }

  lemma PromoteKeepsRate(s: Space, t: Space, id: AdmissionId, p: Profile, now: int)
    requires Shaped(t, p, now) && RateHeld(s, p) && WindowExact(t, now) && |t.window| <= p.rate
    requires id in s.entries && s.entries[id].admittedAt.None? && t == Promote(s, id, now, p)
    ensures RateHeld(t, p)
  {
    hide Shaped; hide WindowExact;
    forall x ensures |LastSecond(t, x)| <= p.rate {
      if x < now {
        PromoteAdds(s, t, id, p, now, x - 1000, x);
        assert |LastSecond(s, x)| <= p.rate;
      } else {
        LaterSecondsHoldLess(t, p, now, x);
      }
    }
  }

  lemma PromoteCountsOnce(s: Space, t: Space, window: seq<int>, id: AdmissionId, p: Profile, now: int)
    requires id in s.entries && s.entries[id].admittedAt.None? && t == Promote(s, id, now, p)
    requires Counted(window, s)
    ensures Counted(window + [now], t)
  {
    var w := window + [now];
    assert w[..|window|] == window;
    forall low, high ensures CountIn(w, low, high) == |PromotedIn(t, low, high)| {
      PromoteAdds(s, t, id, p, now, low, high);
      assert CountIn(window, low, high) == |PromotedIn(s, low, high)|;
    }
  }

  lemma LastSecondCounted(s: Space, window: seq<int>, now: int)
    requires Counted(window, s)
    ensures CountIn(window, now - 1000, now) == |LastSecond(s, now)|
  {
    hide CountIn;
  }

  /** Why the checker will find nothing wrong with promoting the first in line. */
  lemma MayPromote(s: Space, l: Line, id: AdmissionId, p: Profile, now: int)
    requires LineFits(l, s) && PromotedFits(l, s) && Counted(l.window, s)
    requires WindowExact(s, now) && |s.window| < p.rate && |s.active| < p.capacity
    requires id in s.waiting && id in s.entries && id !in s.active && s.entries[id].admittedAt.None?
    requires forall x | x in s.waiting :: s.waiting[id] <= s.waiting[x]
    ensures id in l.waiting && id !in l.promoted && forall x | x in l.waiting :: l.waiting[id] <= l.waiting[x]
    ensures |l.active + {id}| <= p.capacity && CountIn(l.window, now - 1000, now) < p.rate
  {
    hide CountIn; hide Counted;
    LastSecondCounted(s, l.window, now);
    assert |l.active + {id}| == |s.active| + 1;
  }

  lemma PromoteLineFits(s: Space, t: Space, l: Line, id: AdmissionId, p: Profile, now: int)
    requires LineFits(l, s) && id in s.entries && t == Promote(s, id, now, p)
    ensures LineFits(l.(waiting := l.waiting - {id}, active := l.active + {id}, promoted := l.promoted + {id}, window := l.window + [now]), t)
    ensures t.log == s.log + PromoteLog(s.epoch, id, now, p) && t.epoch == s.epoch
  {
    assert t.active.Keys == s.active.Keys + {id};
  }

  lemma PromoteKeepsLog(s: Space, t: Space, id: AdmissionId, p: Profile, now: int)
    requires Logged(s, p) && WindowExact(s, now) && |s.window| < p.rate && |s.active| < p.capacity
    requires id in s.waiting && id in s.entries && id !in s.active && s.entries[id].admittedAt.None? && Live(s.entries[id])
    requires forall x | x in s.waiting :: s.waiting[id] <= s.waiting[x]
    requires t == Promote(s, id, now, p)
    ensures Logged(t, p)
  {
    hide Check; hide CheckAll; hide Replay; hide Counted; hide PromotedFits; hide UnslottedFits; hide Promote; hide WindowExact; hide PromoteLog; hide Live;
    var c := Replay(s.log, p);
    var l := LineOf(c, s.epoch);
    CleanWhenLogged(s, p);
    MayPromote(s, l, id, p, now);
    PromoteLineFits(s, t, l, id, p, now);
    ReplayAppends(s.log, PromoteLog(s.epoch, id, now, p), p);
    PromoteLine(c, s.epoch, id, now, p);
    PromoteCountsOnce(s, t, l.window, id, p, now);
    hide LineFits;
    PromoteFits(c, Replay(t.log, p), s, t, l, id, p, now);
  }

  lemma PromoteFits(c: Checker, d: Checker, s: Space, t: Space, l: Line, id: AdmissionId, p: Profile, now: int)
    requires PromotedFits(l, s) && UnslottedFits(c, l, s) && id in s.entries && Live(s.entries[id]) && t == Promote(s, id, now, p)
    requires forall u | u in d.unslotted :: u in c.unslotted
    ensures var m := l.(waiting := l.waiting - {id}, active := l.active + {id}, promoted := l.promoted + {id}, window := l.window + [now]);
      PromotedFits(m, t) && UnslottedFits(d, m, t)
  {}

  lemma PromoteKeepsBudgets(s: Space, t: Space, id: AdmissionId, p: Profile, now: int)
    requires Shaped(t, p, now) && Budgeted(s, p, now) && WindowExact(s, now)
    requires id in s.entries && s.entries[id].admittedAt.None? && t == Promote(s, id, now, p)
    requires |t.window| <= p.rate && |t.active| <= p.capacity && |t.waiting| <= |s.waiting|
    ensures Budgeted(t, p, now) && WindowExact(t, now)
  {
    hide EntryOk; hide RateHeld; hide WindowExact; hide Shaped;
    PromoteKeepsWindow(s, t, id, p, now);
    assert |t.window| <= p.rate && RateHeld(s, p);
    PromoteKeepsRate(s, t, id, p, now);
    PromoteKeepsStamps(s, t, id, p, now);
  }

  lemma PromoteKeepsStamps(s: Space, t: Space, id: AdmissionId, p: Profile, now: int)
    requires Budgeted(s, p, now) && WindowExact(t, now) && id in s.entries && t == Promote(s, id, now, p)
    ensures forall x | x in t.window :: x in t.entries && t.entries[x].admittedAt == Some(t.window[x])
    ensures forall x | x in t.entries && t.entries[x].admittedAt.Some? && t.entries[x].admittedAt.value > now - 1000 :: x in t.window
  {
    hide RateHeld; hide WindowExact;
  }

  lemma PromoteKeeps(s: Space, t: Space, id: AdmissionId, p: Profile, now: int)
    requires Agreed(s, p, now) && WindowExact(s, now) && |s.window| < p.rate && |s.active| < p.capacity
    requires id in s.waiting && (forall x | x in s.waiting :: s.waiting[id] <= s.waiting[x])
    requires t == Promote(s, id, now, p)
    ensures Agreed(t, p, now) && WindowExact(t, now)
    ensures |t.window| == |s.window| + 1 && |t.active| == |s.active| + 1
  {
    hide Shaped; hide Owning; hide Budgeted; hide Logged; hide ActiveIndexed; hide ClaimsIndexed; hide WindowExact;
    hide EntryOk; hide SameOwner; hide Replay;
    var e := PromotedEntry(s.entries[id], now, p);
    LivePlace(s, id);
    PromotedIsOk(s, id, p, now);
    NotInWindow(s, id, p, now);
    PromoteCounts(s, t, id, p, now);
    VersionKeepsShape(s, t, id, e, p, now);
    PromoteKeepsIndexes(s, t, id, p, now);
    AmendKeepsOwners(s, t, id, e);
    VersionKeepsNumbers(s, t, id, e, p);
    PromoteKeepsBudgets(s, t, id, p, now);
    PromoteKeepsLog(s, t, id, p, now);
  }

  lemma NotInWindow(s: Space, id: AdmissionId, p: Profile, clock: int)
    requires Budgeted(s, p, clock) && id in s.entries && s.entries[id].admittedAt.None?
    ensures id !in s.window
  {}
}
