/** Registration, the passing of time, and then every operation of the script: each keeps the whole
    agreement and none of them fails. */
module AgreementOps {
  import opened AdmissionTypes
  import opened SortedSet
  import opened TransitionLog
  import opened AdmissionSpace
  import opened Agreement
  import opened ReplaySteps
  import opened AgreementSteps

  // ----- registration ----------------------------------------------------------------------

  ghost predicate MayRegister(s: Space, id: AdmissionId, user: UserId, join: JoinId, p: Profile) {
    && id !in s.entries && join !in s.joins && user !in s.users
    && |s.waiting| < p.maxWaiting && s.sequence < p.maxEntries
  }

  lemma NotIndexed(s: Space, id: AdmissionId)
    requires Indexed(s) && id !in s.entries
    ensures id !in s.waiting && id !in s.leases && id !in s.active && id !in s.claims
  {
    assert id in s.waiting <==> IsState(s, id, Waiting);
    assert id in s.active <==> IsState(s, id, Admitted);
  }

  lemma RegisterKeepsShape(s: Space, t: Space, id: AdmissionId, user: UserId, join: JoinId, p: Profile, now: int)
    requires Shaped(s, p, now) && t == Register(s, id, user, join, now, p)
    ensures Shaped(t, p, now)
  {
    assert EntryOk(NewEntry(s, id, user, now, p), p, now);
    hide EntryOk;
  }

  lemma RegisterKeepsUsers(s: Space, t: Space, id: AdmissionId, user: UserId, join: JoinId, p: Profile, now: int)
    requires UsersOwn(s) && MayRegister(s, id, user, join, p) && t == Register(s, id, user, join, now, p)
    ensures UsersOwn(t)
  {}

  lemma RegisterKeepsLatest(s: Space, t: Space, id: AdmissionId, user: UserId, join: JoinId, p: Profile, now: int)
    requires LatestOwn(s) && id !in s.entries && t == Register(s, id, user, join, now, p)
    requires forall x | x in s.entries :: s.entries[x].sequence <= s.sequence
    ensures LatestOwn(t)
  {
    forall x | x in t.entries ensures t.entries[x].sequence <= t.entries[t.latest[t.entries[x].user]].sequence {
      if x != id && t.entries[x].user != user {
        assert s.entries[x].sequence <= s.entries[s.latest[s.entries[x].user]].sequence;
      }
    }
  }

  lemma RegisterKeepsJoins(s: Space, t: Space, id: AdmissionId, user: UserId, join: JoinId, p: Profile, now: int)
    requires JoinsOwn(s) && MayRegister(s, id, user, join, p) && t == Register(s, id, user, join, now, p)
    ensures JoinsOwn(t)
  {}

  lemma RegisterKeepsOwners(s: Space, t: Space, id: AdmissionId, user: UserId, join: JoinId, p: Profile, now: int)
    requires Owning(s) && Numbered(s, p) && MayRegister(s, id, user, join, p) && t == Register(s, id, user, join, now, p)
    ensures Owning(t)
  {
    hide UsersOwn; hide LatestOwn; hide JoinsOwn;
    RegisterKeepsUsers(s, t, id, user, join, p, now);
    RegisterKeepsLatest(s, t, id, user, join, p, now);
    RegisterKeepsJoins(s, t, id, user, join, p, now);
  }

  lemma RegisterKeepsNumbers(s: Space, t: Space, id: AdmissionId, user: UserId, join: JoinId, p: Profile, now: int)
    requires Numbered(s, p) && p.Valid() && MayRegister(s, id, user, join, p)
    requires id !in s.waiting && id !in s.leases
    requires t == Register(s, id, user, join, now, p)
    ensures Numbered(t, p) && |t.waiting| == |s.waiting| + 1
  {
    PutOne(s.entries, id, t.entries[id]);
    PutOne(s.joins, join, id);
    PutOne(s.latest, user, id);
    PutOne(s.users, user, id);
    PutOne(s.waiting, id, s.sequence + 1);
    PutOne(s.leases, id, now + p.leaseMs);
  }

  lemma RegisterKeepsPromotions(s: Space, t: Space, id: AdmissionId, user: UserId, join: JoinId, p: Profile, now: int, low: int, high: int)
    requires id !in s.entries && t == Register(s, id, user, join, now, p)
    ensures PromotedIn(s, low, high) == PromotedIn(t, low, high)
  {
    assert forall x :: x in PromotedIn(s, low, high) <==> x in PromotedIn(t, low, high);
  }

  lemma RegisterKeepsBudgets(s: Space, t: Space, id: AdmissionId, user: UserId, join: JoinId, p: Profile, now: int)
    requires Budgeted(s, p, now) && MayRegister(s, id, user, join, p) && |t.waiting| == |s.waiting| + 1
    requires t == Register(s, id, user, join, now, p)
    ensures Budgeted(t, p, now)
  {
    forall x ensures |LastSecond(t, x)| <= p.rate {
      assert |LastSecond(s, x)| <= p.rate;
      RegisterKeepsPromotions(s, t, id, user, join, p, now, x - 1000, x);
    }
  }

  lemma RegisterKeepsLog(s: Space, t: Space, id: AdmissionId, user: UserId, join: JoinId, p: Profile, now: int)
    requires Logged(s, p) && id !in s.entries && t == Register(s, id, user, join, now, p)
    ensures Logged(t, p)
  {
    hide Check; hide Counted; hide Replay;
    var c := Replay(s.log, p);
    var l := LineOf(c, s.epoch);
    var a, b := ZAdd(s.epoch, WaitingSet, s.sequence + 1, id), ZAdd(s.epoch, LeaseSet, now + p.leaseMs, id);
    CleanWhenLogged(s, p);
    ReplayAppends(s.log, [a], p);
    CheckOne(c, a, p);
    InsertWaiting(c, s.epoch, s.sequence + 1, id, p);
    var c1 := Check(c, a, p);
    ReplayAppends(s.log + [a], [b], p);
    CheckOne(c1, b, p);
    InsertQuietly(c1, b, p);
    assert (s.log + [a]) + [b] == t.log;
    RegisterKeepsCount(s, t, id, user, join, p, now, l.window);
    var d := Replay(t.log, p);
    assert LineFits(LineOf(d, s.epoch), t);
    hide LineFits; hide PromotedFits; hide UnslottedFits;
    RegisterFits(c, d, s, t, l, LineOf(d, s.epoch), id, user, join, p, now);
  }

  lemma RegisterFits(c: Checker, d: Checker, s: Space, t: Space, l: Line, m: Line, id: AdmissionId, user: UserId, join: JoinId, p: Profile, now: int)
    requires PromotedFits(l, s) && UnslottedFits(c, l, s) && id !in s.entries && t == Register(s, id, user, join, now, p)
    requires forall u | u in d.unslotted :: u in c.unslotted
    requires m.promoted == l.promoted && m.claims == l.claims
    ensures PromotedFits(m, t) && UnslottedFits(d, m, t)
  {}

  lemma RegisterKeepsCount(s: Space, t: Space, id: AdmissionId, user: UserId, join: JoinId, p: Profile, now: int, window: seq<int>)
    requires Counted(window, s) && id !in s.entries && t == Register(s, id, user, join, now, p)
    ensures Counted(window, t)
  {
    hide CountIn; hide Register;
    forall low, high ensures PromotedIn(s, low, high) == PromotedIn(t, low, high) {
      RegisterKeepsPromotions(s, t, id, user, join, p, now, low, high);
    }
    CountedStill(s, t, window);
  }

  lemma RegisterKeeps(s: Space, t: Space, id: AdmissionId, user: UserId, join: JoinId, p: Profile, now: int)
    requires Agreed(s, p, now) && p.Valid() && MayRegister(s, id, user, join, p)
    requires t == Register(s, id, user, join, now, p)
    ensures Agreed(t, p, now)
  {
    hide Shaped; hide Owning; hide Numbered; hide Budgeted; hide Logged; hide Indexed; hide Replay;
    NotIndexed(s, id);
    RegisterKeepsShape(s, t, id, user, join, p, now);
    RegisterKeepsIndexes(s, t, id, user, join, p, now);
    RegisterKeepsOwners(s, t, id, user, join, p, now);
    RegisterKeepsNumbers(s, t, id, user, join, p, now);
    RegisterKeepsBudgets(s, t, id, user, join, p, now);
    RegisterKeepsLog(s, t, id, user, join, p, now);
  }

  lemma RegisterKeepsIndexes(s: Space, t: Space, id: AdmissionId, user: UserId, join: JoinId, p: Profile, now: int)
    requires Indexed(s) && id !in s.entries && t == Register(s, id, user, join, now, p)
    ensures Indexed(t)
  {
    hide WaitingIndexed; hide ActiveIndexed; hide ClaimsIndexed;
    NotIndexed(s, id);
    Reindex(s, t, id, t.entries[id]);
  }

  // ----- time ------------------------------------------------------------------------------

  lemma TimePasses(s: Space, p: Profile, clock: int, now: int)
    requires Agreed(s, p, clock) && clock <= now
    ensures Agreed(s, p, now)
  {
    hide Indexed; hide Owning; hide Numbered; hide Logged;
  }

  /** After the window forgot what is a second old, it is exact. */
  lemma PruneKeeps(s: Space, p: Profile, now: int)
    requires Agreed(s, p, now)
    ensures Agreed(Prune(s, now), p, now) && WindowExact(Prune(s, now), now)
  {
    hide Logged; hide Owning; hide Numbered; hide Indexed;
    var t := Prune(s, now);
    PruneKeepsIndexes(s, t);
    PruneKeepsOwners(s, t);
    PruneKeepsNumbers(s, t, p);
    PruneKeepsLog(s, t, p);
    assert t.window.Keys == LastSecond(t, now) by {
      assert forall id :: id in t.window.Keys <==> id in LastSecond(t, now);
    }
    PruneKeepsRate(s, t, p);
  }

  lemma PruneKeepsRate(s: Space, t: Space, p: Profile)
    requires RateHeld(s, p) && s.entries == t.entries
    ensures RateHeld(t, p)
  {
    forall x ensures |LastSecond(t, x)| <= p.rate { assert |LastSecond(s, x)| <= p.rate; }
  }

  lemma PruneKeepsLog(s: Space, t: Space, p: Profile)
    requires Logged(s, p) && t == s.(window := t.window)
    ensures Logged(t, p)
  {
    hide Replay; hide Counted;
    forall low, high ensures PromotedIn(s, low, high) == PromotedIn(t, low, high) {}
    CountedStill(s, t, LineOf(Replay(s.log, p), s.epoch).window);
  }

  lemma PruneKeepsIndexes(s: Space, t: Space)
    requires Indexed(s) && t == s.(window := t.window)
    ensures Indexed(t)
  {
    assert forall id, x :: IsState(s, id, x) == IsState(t, id, x);
  }

  lemma PruneKeepsOwners(s: Space, t: Space)
    requires Owning(s) && t == s.(window := t.window)
    ensures Owning(t)
  {
    assert UsersOwn(t) by { hide LatestOwn; hide JoinsOwn; }
    assert LatestOwn(t) by { hide UsersOwn; hide JoinsOwn; }
    assert JoinsOwn(t) by { hide LatestOwn; hide UsersOwn; }
  }

  lemma PruneKeepsNumbers(s: Space, t: Space, p: Profile)
    requires Numbered(s, p) && t == s.(window := t.window)
    ensures Numbered(t, p)
  {}

  // ----- how an entry may change -----------------------------------------------------------

  /** Identity and admission time are fixed, a claim is bound once, an ended entry never changes,
      and a claimed entry is only ever consumed or closed. */
  predicate Evolves(e: Entry, f: Entry) {
    && SameOwner(e, f)
    && (e.admittedAt.Some? ==> f.admittedAt == e.admittedAt)
    && (e.fingerprint.Some? ==> f.fingerprint == e.fingerprint && f.claimToken == e.claimToken && f.deadline == e.deadline)
    && (!Live(e) ==> f == e)
    && (e.state == Admitted ==> f.state != Waiting)
    && (Claimed(e) ==> Claimed(f) || Settled(f))
  }

  /** A change that neither claims, nor finalizes, nor frees a claimed slot. */
  predicate Background(e: Entry, f: Entry) {
    Evolves(e, f) && f.fingerprint == e.fingerprint && (Claimed(e) ==> Claimed(f))
  }

  ghost predicate Quiet(s: Space, t: Space) {
    && t.epoch == s.epoch && t.endAt == s.endAt
    && (forall id | id in s.entries :: id in t.entries && Background(s.entries[id], t.entries[id]))
    && (forall id | id in t.entries && id !in s.entries :: t.entries[id].fingerprint.None?)
  }

  lemma QuietTwice(s: Space, t: Space, u: Space)
    requires Quiet(s, t) && Quiet(t, u)
    ensures Quiet(s, u)
  {
    forall id | id in s.entries ensures id in u.entries && Background(s.entries[id], u.entries[id]) {
      assert Background(s.entries[id], t.entries[id]);
      assert Background(t.entries[id], u.entries[id]);
    }
    forall id | id in u.entries && id !in s.entries ensures u.entries[id].fingerprint.None? {
      if id in t.entries { assert Background(t.entries[id], u.entries[id]); }
    }
  }

  lemma RetireKeepsKeys(s: Space, id: AdmissionId, e: Entry)
    requires id in s.entries
    ensures var t := Retire(s, id, e); t.entries == s.entries[id := e] && t.epoch == s.epoch && t.endAt == s.endAt
  {}

  lemma ExpireEntries(s: Space, id: AdmissionId, now: int)
    ensures var t := Expire(s, id, now);
      && t.epoch == s.epoch && t.endAt == s.endAt
      && t.entries == (if id in s.entries && Due(s.entries[id], now)
                       then s.entries[id := Ended(s.entries[id], Expired, Some(AdmissionExpired))] else s.entries)
  {
    if id in s.entries && Due(s.entries[id], now) {
      RetireKeepsKeys(s, id, Ended(s.entries[id], Expired, Some(AdmissionExpired)));
    }
    hide Retire; hide Due;
  }

  lemma RenewEntries(s: Space, id: AdmissionId, now: int, p: Profile)
    ensures var t := Renew(s, id, now, p);
      && t.epoch == s.epoch && t.endAt == s.endAt
      && t.entries == (if IsState(s, id, Waiting) then s.entries[id := s.entries[id].(expiresAt := Some(now + p.leaseMs))] else s.entries)
  {}

  lemma ChangeIsQuiet(s: Space, t: Space, id: AdmissionId, e: Entry)
    requires t.epoch == s.epoch && t.endAt == s.endAt && id in s.entries && t.entries == s.entries[id := e] && Background(s.entries[id], e)
    ensures Quiet(s, t)
  {}

  lemma ExpireIsQuiet(s: Space, id: AdmissionId, now: int)
    ensures Quiet(s, Expire(s, id, now))
  {
    ExpireEntries(s, id, now);
    hide Expire; hide Quiet;
    if id in s.entries && Due(s.entries[id], now) {
      ChangeIsQuiet(s, Expire(s, id, now), id, Ended(s.entries[id], Expired, Some(AdmissionExpired)));
    } else {
      SameIsQuiet(s, Expire(s, id, now));
    }
  }

  lemma SameIsQuiet(s: Space, t: Space)
    requires t.epoch == s.epoch && t.endAt == s.endAt && t.entries == s.entries
    ensures Quiet(s, t)
  {}

  lemma RenewIsQuiet(s: Space, id: AdmissionId, now: int, p: Profile)
    ensures Quiet(s, Renew(s, id, now, p))
  {
    RenewEntries(s, id, now, p);
    hide Renew; hide Quiet;
    if IsState(s, id, Waiting) {
      ChangeIsQuiet(s, Renew(s, id, now, p), id, s.entries[id].(expiresAt := Some(now + p.leaseMs)));
    } else {
      SameIsQuiet(s, Renew(s, id, now, p));
    }
  }

  // ----- operations ------------------------------------------------------------------------

  /** What an operation owes: agreement again, a reply instead of a failure, nothing but background. */
  ghost predicate KeptQuietly(s: Space, r: (Space, Reply), p: Profile, now: int) {
    Agreed(r.0, p, now) && !r.1.Crashed? && Quiet(s, r.0)
  }

  predicate Answers(r: Reply, e: Entry, created: bool) {
    r.Answer? && r.entry == Some(e) && r.created == created
  }

  lemma SnapshotAnswers(s: Space, id: AdmissionId, created: bool, p: Profile, now: int)
    requires Agreed(s, p, now) && id in s.entries
    ensures Answers(Snapshot(s, id, created), s.entries[id], created)
  {
    hide Shaped; hide Owning; hide Numbered; hide Budgeted; hide Logged;
    PlaceOf(s, id);
  }

  lemma RefreshKeeps(s: Space, id: AdmissionId, now: int, p: Profile)
    requires Agreed(s, p, now) && id in s.entries
    ensures var t := Renew(Expire(s, id, now), id, now, p); Agreed(t, p, now) && Quiet(s, t) && id in t.entries
  {
    hide *;
    var s1 := Expire(s, id, now);
    ExpireKeeps(s, id, now, p, now);
    RenewKeeps(s1, id, p, now);
    RefreshIsQuiet(s, id, now, p);
  }

  lemma RefreshIsQuiet(s: Space, id: AdmissionId, now: int, p: Profile)
    requires id in s.entries
    ensures var t := Renew(Expire(s, id, now), id, now, p); Quiet(s, t) && id in t.entries
  {
    hide Expire; hide Renew; hide Quiet;
    ExpireIsQuiet(s, id, now);
    RenewIsQuiet(Expire(s, id, now), id, now, p);
    ExpireEntries(s, id, now);
    RenewEntries(Expire(s, id, now), id, now, p);
    QuietTwice(s, Expire(s, id, now), Renew(Expire(s, id, now), id, now, p));
  }

  /** The entries the script looks up are all there. */
  lemma References(s: Space, p: Profile, now: int)
    requires Agreed(s, p, now)
    ensures forall u | u in s.latest :: s.latest[u] in s.entries
    ensures forall u | u in s.users :: s.users[u] in s.entries && s.entries[s.users[u]].user == u && Live(s.entries[s.users[u]])
    ensures forall j | j in s.joins :: s.joins[j] in s.entries
    ensures forall id | id in s.entries && Live(s.entries[id]) :: s.entries[id].user in s.users && s.users[s.entries[id].user] == id
  {
    hide Shaped; hide Indexed; hide Numbered; hide Budgeted; hide Logged;
  }

  lemma QuietItself(s: Space)
    ensures Quiet(s, s)
  {}

  lemma StatusKeeps(s: Space, user: UserId, now: int, p: Profile)
    requires Agreed(s, p, now)
    ensures KeptQuietly(s, Status(s, user, now, p), p, now)
  {
    if user in s.latest {
      var id := s.latest[user];
      var t := Renew(Expire(s, id, now), id, now, p);
      assert Status(s, user, now, p) == (t, Snapshot(t, id, false));
      assert KeptQuietly(s, (t, Snapshot(t, id, false)), p, now) by {
        hide Agreed; hide Quiet; hide Renew; hide Expire; hide Snapshot;
        References(s, p, now);
        RefreshKeeps(s, id, now, p);
        SnapshotAnswers(t, id, false, p, now);
      }
    } else {
      QuietItself(s);
    }
  }

  // ----- join ------------------------------------------------------------------------------

  lemma RegisterIsQuiet(s: Space, id: AdmissionId, user: UserId, join: JoinId, now: int, p: Profile)
    requires id !in s.entries
    ensures Quiet(s, Register(s, id, user, join, now, p)) && id in Register(s, id, user, join, now, p).entries
  {}

  lemma JoinAgainKeeps(s: Space, user: UserId, join: JoinId, id: AdmissionId, now: int, p: Profile)
    requires Agreed(s, p, now) && join in s.joins
    ensures KeptQuietly(s, Join(s, user, join, id, now, p), p, now)
  {
    var prior := s.joins[join];
    var t := Renew(Expire(s, prior, now), prior, now, p);
    assert prior in s.entries by { hide *; References(s, p, now); }
    if s.entries[prior].user != user {
      QuietItself(s);
    } else {
      assert Join(s, user, join, id, now, p) == (t, Snapshot(t, prior, false));
      assert KeptQuietly(s, (t, Snapshot(t, prior, false)), p, now) by {
        hide Agreed; hide Quiet; hide Renew; hide Expire; hide Snapshot;
        RefreshKeeps(s, prior, now, p);
        SnapshotAnswers(t, prior, false, p, now);
      }
    }
  }

  function Released(s: Space, user: UserId, now: int): Space {
    if user in s.users then Expire(s, s.users[user], now) else s
  }

  lemma ReleasedFacts(s: Space, user: UserId, now: int)
    requires user in s.users ==> s.users[user] in s.entries && s.entries[s.users[user]].user == user && Live(s.entries[s.users[user]])
    ensures var t := Released(s, user, now);
      && t.entries.Keys == s.entries.Keys && t.joins == s.joins
      && ((user in s.users ==> !Live(t.entries[s.users[user]])) ==> user !in t.users)
  {}

  lemma UserRef(s: Space, user: UserId, p: Profile, now: int)
    requires Agreed(s, p, now) && user in s.users
    ensures s.users[user] in s.entries && s.entries[s.users[user]].user == user && Live(s.entries[s.users[user]])
  {
    hide Shaped; hide Indexed; hide Numbered; hide Budgeted; hide Logged;
  }

  lemma ReleasedKeeps(s: Space, user: UserId, now: int, p: Profile)
    requires Agreed(s, p, now)
    ensures var t := Released(s, user, now);
      && Agreed(t, p, now) && Quiet(s, t)
      && t.entries.Keys == s.entries.Keys && t.joins == s.joins
      && (user in s.users ==> s.users[user] in t.entries)
      && ((user in s.users ==> !Live(t.entries[s.users[user]])) ==> user !in t.users)
  {
    hide Agreed; hide Quiet; hide Live; hide Expire;
    if user in s.users {
      UserRef(s, user, p, now);
      ReleasedFacts(s, user, now);
      ExpireKeeps(s, s.users[user], now, p, now);
      ExpireIsQuiet(s, s.users[user], now);
    } else {
      QuietItself(s);
    }
  }

  lemma JoinNewKeeps(s: Space, user: UserId, join: JoinId, id: AdmissionId, now: int, p: Profile)
    requires Agreed(s, p, now) && p.Valid() && join !in s.joins && id !in s.entries
    ensures KeptQuietly(s, Join(s, user, join, id, now, p), p, now)
  {
    hide Agreed; hide Quiet; hide Snapshot; hide Live; hide Expire; hide Register;
    var s1 := Released(s, user, now);
    ReleasedKeeps(s, user, now, p);
    if user in s.users && Live(s1.entries[s.users[user]]) {
      SnapshotAnswers(s1, s.users[user], false, p, now);
    } else if |s1.waiting| >= p.maxWaiting || s1.sequence >= p.maxEntries {
    } else {
      var t := Register(s1, id, user, join, now, p);
      RegisterKeeps(s1, t, id, user, join, p, now);
      RegisterIsQuiet(s1, id, user, join, now, p);
      QuietTwice(s, s1, t);
      SnapshotAnswers(t, id, true, p, now);
    }
  }
}
