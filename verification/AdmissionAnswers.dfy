/** What each operation answers and what it makes of the entries, in every reachable state. The indexes
    need no mention: in every reachable state they are what the entries say. */
module AdmissionAnswers {
  import opened AdmissionTypes
  import opened SortedSet
  import opened AdmissionSpace
  import opened Agreement
  import opened AgreementSteps
  import opened AgreementOps
  import opened AgreementCalls
  import opened AdmissionRuns

  /** Waiting or admitted, unclaimed, and its time is not over. */
  predicate Lasting(e: Entry, now: int) {
    (e.state == Waiting || e.state == Admitted) && e.phase == Idle && e.expiresAt.Some? && now < e.expiresAt.value
  }

  /** Waiting or admitted, unclaimed, but its time is over. */
  predicate Overtime(e: Entry, now: int) {
    (e.state == Waiting || e.state == Admitted) && e.phase == Idle && !Lasting(e, now)
  }

  /** Admitted, and a purchase holds it. */
  predicate Held(e: Entry) {
    e.state == Admitted && e.phase != Idle
  }

  function Lapsed(e: Entry): Entry {
    e.(state := Expired, phase := Idle, expiresAt := None, reason := Some(AdmissionExpired))
  }

  function Withdrawn(e: Entry): Entry {
    e.(state := Cancelled, phase := Idle, expiresAt := None, reason := Some(AdmissionCancelled))
  }

  /** What the shape of an entry says about its time, its phase and its reason. */
  predicate Sane(e: Entry, now: int) {
    && (Due(e, now) <==> Overtime(e, now))
    && (e.state != Admitted ==> e.phase == Idle)
    && (e.fingerprint.Some? ==> Claimed(e) || e.state == Consumed || e.state == Expired)
    && (Claimed(e) ==> e.fingerprint.Some? && e.deadline.Some?)
    && (e.state == Cancelled ==> e.reason == Some(AdmissionCancelled))
    && (e.state == Expired ==> e.reason == Some(AdmissionExpired))
  }

  lemma EntryIsSane(s: Space, id: AdmissionId, now: int, p: Profile)
    requires Agreed(s, p, now) && id in s.entries
    ensures Sane(s.entries[id], now)
  {
    hide Indexed; hide Owning; hide Numbered; hide Budgeted; hide Logged; hide EntryOk;
    assert EntryOk(s.entries[id], p, now);
    hide Agreed; hide Shaped;
    OkIsSane(s.entries[id], p, now);
  }

  lemma OkIsSane(e: Entry, p: Profile, now: int)
    requires EntryOk(e, p, now)
    ensures Sane(e, now)
  {}

  lemma UndueIsLeft(s: Space, id: AdmissionId, now: int)
    requires id in s.entries
    ensures !Due(s.entries[id], now) ==> Expire(s, id, now) == s
  {}

  // ----- which operation answers -----------------------------------------------------------

  /** Until the epoch ends every call is answered by its own operation; after that only the calls that finish
      what was claimed are, and every other one is sent away unheard. */
  lemma CallsByTime(s: Space, h: History, op: Op, now: int, p: Profile)
    requires At(s, h, now, p)
    ensures var (t, r) := Step(s, op, now, p);
      && (op.DoComplete? ==> (t, r) == Complete(s, op.user, op.id, op.fp, op.token, op.outcome))
      && (op.DoClose? ==> (t, r) == Close(s, op.user, op.id, op.fp, op.token))
      && (op.DoReconcile? ==> (t, r) == Reconcile(s, now, p))
      && if now >= s.endAt then op.DoComplete? || op.DoClose? || op.DoReconcile? || (t == s && r == Refusal(Recovering, Some(1000), None))
         else
           && (op.DoStatus? ==> (t, r) == Status(s, op.user, now, p))
           && (op.DoJoin? ==> (t, r) == Join(s, op.user, op.join, op.id, now, p))
           && (op.DoTick? ==> (t, r) == Tick(s, now, p))
           && (op.DoCancel? ==> (t, r) == Cancel(s, op.user, op.id, now))
           && (op.DoClaim? ==> (t, r) == Claim(s, op.user, op.id, op.fp, op.token, now, p))
           && (op.DoInspect? ==> t == s && if op.id in s.entries then Answers(r, s.entries[op.id], false) else r == Answer(None, None, false))
  {
    hide At; hide Agreed; hide Snapshot; hide Status; hide Join; hide Tick; hide Cancel; hide Claim; hide Complete; hide Close; hide Reconcile;
    AtAgrees(s, h, now, p);
    if op.DoInspect? && op.id in s.entries { SnapshotAnswers(s, op.id, false, p, now); }
  }

  // ----- cancel ----------------------------------------------------------------------------

  lemma CancelEntries(s: Space, user: UserId, id: AdmissionId, now: int)
    requires Owned(s, user, id) && Sane(s.entries[id], now)
    ensures var (t, r) := Cancel(s, user, id, now);
      var e := s.entries[id];
      if Claimed(e) then t == s && r == Refusal(InProgress, None, None)
      else if e.state == Consumed then t == s && r == Refusal(AlreadyConsumed, None, None)
      else
        && r == Snapshot(t, id, false)
        && (Lasting(e, now) ==> t.entries == s.entries[id := Withdrawn(e)])
        && (Overtime(e, now) ==> t.entries == s.entries[id := Lapsed(e)])
        && (!Live(e) ==> t == s)
  {
    UndueIsLeft(s, id, now);
    ExpireEntries(s, id, now);
    var s1 := Expire(s, id, now);
    RetireKeepsKeys(s1, id, Ended(s1.entries[id], Cancelled, Some(AdmissionCancelled)));
    hide Expire; hide Snapshot; hide Retire;
  }

  /** A lasting entry is withdrawn, an overtime one lapses, a claimed or consumed one is refused, and
      an ended one is shown as it is. */
  lemma CancelAnswers(s: Space, h: History, user: UserId, id: AdmissionId, now: int, p: Profile)
    requires At(s, h, now, p)
    ensures var (t, r) := Cancel(s, user, id, now);
      if id !in s.entries || s.entries[id].user != user then t == s && r == Refusal(NotFound, None, None)
      else
        var e := s.entries[id];
        if Held(e) then t == s && r == Refusal(InProgress, None, None)
        else if e.state == Consumed then t == s && r == Refusal(AlreadyConsumed, None, None)
        else if Lasting(e, now) then t.entries == s.entries[id := Withdrawn(e)] && Answers(r, Withdrawn(e), false)
        else if e.state == Waiting || e.state == Admitted then t.entries == s.entries[id := Lapsed(e)] && Answers(r, Lapsed(e), false)
        else t == s && Answers(r, e, false)
  {
    hide At; hide Agreed; hide Snapshot; hide Quiet; hide Lapsed; hide Withdrawn; hide Sane;
    AtAgrees(s, h, now, p);
    CancelKeeps(s, user, id, now, p);
    if Owned(s, user, id) {
      var t := Cancel(s, user, id, now).0;
      EntryIsSane(s, id, now, p);
      CancelEntries(s, user, id, now);
      hide Cancel;
      IdleLive(s.entries[id], now);
      if id in t.entries { SnapshotAnswers(t, id, false, p, now); }
    }
  }

  lemma IdleLive(e: Entry, now: int)
    requires Sane(e, now)
    ensures Live(e) ==> Claimed(e) || Lasting(e, now) || Overtime(e, now)
    ensures Claimed(e) ==> Live(e) && !Lasting(e, now) && !Overtime(e, now)
    ensures !(Lasting(e, now) && Overtime(e, now))
  {}

  // ----- claim -----------------------------------------------------------------------------

  function ClaimedBy(e: Entry, fp: Fingerprint, token: Token, now: int, p: Profile): Entry {
    e.(phase := Processing, fingerprint := Some(fp), claimToken := Some(token), deadline := Some(now + p.claimMs))
  }

  /** Why a claim is refused. */
  function ClaimRefusal(e: Entry, fp: Fingerprint, now: int): Code {
    if e.fingerprint.Some? && e.fingerprint != Some(fp) then RequestMismatch
    else if Overtime(e, now) then AdmissionExpired
    else match e.state
      case Waiting => NotReady
      case Admitted => InProgress
      case Consumed => AlreadyConsumed
      case Cancelled => AdmissionCancelled
      case Expired => AdmissionExpired
  }

  /** What a refused claim leaves: time goes on, and its own overdue claim is marked. */
  function AfterRefusal(e: Entry, fp: Fingerprint, now: int): Entry {
    if Overtime(e, now) then Lapsed(e)
    else if Held(e) && e.fingerprint == Some(fp) then e.(phase := Reconciling)
    else e
  }

  predicate Repeats(e: Entry, fp: Fingerprint, now: int) {
    Held(e) && e.fingerprint == Some(fp) && e.deadline.Some? && now < e.deadline.value
  }

  lemma ClaimEntries(s: Space, user: UserId, id: AdmissionId, fp: Fingerprint, token: Token, now: int, p: Profile)
    requires Owned(s, user, id) && Sane(s.entries[id], now)
    ensures var (t, r) := Claim(s, user, id, fp, token, now, p);
      var e := s.entries[id];
      if e.state == Admitted && Lasting(e, now) then t.entries == s.entries[id := ClaimedBy(e, fp, token, now, p)] && r == Snapshot(t, id, false)
      else if Repeats(e, fp, now) then t == s && r == Snapshot(s, id, false)
      else r == Refusal(ClaimRefusal(e, fp, now), None, None) && t.entries == s.entries[id := AfterRefusal(e, fp, now)]
  {
    UndueIsLeft(s, id, now);
    ExpireEntries(s, id, now);
    SameEntries(s, id);
    hide Expire; hide Snapshot;
  }

  lemma SameEntries(s: Space, id: AdmissionId)
    requires id in s.entries
    ensures s.entries[id := s.entries[id]] == s.entries
  {}

  /** A claim is granted exactly to the owner of a lasting admitted entry, which it binds, or of one
      already bound to this request before its deadline, which it leaves alone. */
  lemma ClaimAnswers(s: Space, h: History, user: UserId, id: AdmissionId, fp: Fingerprint, token: Token, now: int, p: Profile)
    requires At(s, h, now, p)
    ensures var (t, r) := Claim(s, user, id, fp, token, now, p);
      if id !in s.entries || s.entries[id].user != user then t == s && r == Refusal(NotFound, None, None)
      else
        var e := s.entries[id];
        if e.state == Admitted && Lasting(e, now) then
          t.entries == s.entries[id := ClaimedBy(e, fp, token, now, p)] && Answers(r, ClaimedBy(e, fp, token, now, p), false)
        else if Repeats(e, fp, now) then t == s && Answers(r, e, false)
        else r == Refusal(ClaimRefusal(e, fp, now), None, None) && t.entries == s.entries[id := AfterRefusal(e, fp, now)]
  {
    hide At; hide Agreed; hide Snapshot; hide Sane; hide ClaimOutcome; hide ClaimRefusal; hide AfterRefusal; hide ClaimedBy;
    AtAgrees(s, h, now, p);
    ClaimKeeps(s, user, id, fp, token, now, p);
    if Owned(s, user, id) {
      var t := Claim(s, user, id, fp, token, now, p).0;
      EntryIsSane(s, id, now, p);
      ClaimEntries(s, user, id, fp, token, now, p);
      hide Claim;
      if id in t.entries { SnapshotAnswers(t, id, false, p, now); }
    }
  }

  /** A claim of one's own lasting slot takes it, and says so. */
  lemma ClaimTakes(s: Space, user: UserId, id: AdmissionId, fp: Fingerprint, token: Token, now: int, p: Profile)
    requires Agreed(s, p, now) && p.Valid() && id in s.entries && s.entries[id].user == user && s.entries[id].state == Admitted && Lasting(s.entries[id], now)
    ensures var (t, r) := Claim(s, user, id, fp, token, now, p);
      && t.entries == s.entries[id := ClaimedBy(s.entries[id], fp, token, now, p)]
      && Answers(r, ClaimedBy(s.entries[id], fp, token, now, p), false)
      && Agreed(t, p, now) && t.endAt == s.endAt
  {
    hide Agreed; hide Snapshot; hide Sane; hide ClaimRefusal; hide AfterRefusal; hide ClaimedBy; hide Lasting;
    EntryIsSane(s, id, now, p);
    ClaimEntries(s, user, id, fp, token, now, p);
    ClaimKeeps(s, user, id, fp, token, now, p);
    hide Claim;
    SnapshotAnswers(Claim(s, user, id, fp, token, now, p).0, id, false, p, now);
  }

  // ----- complete and close ----------------------------------------------------------------

  /** Complete and close act exactly on a claimed entry of this user under this fingerprint and token:
      complete consumes it with the outcome, close expires it, and either way the answer shows what
      became of it. On an entry they already ended they only show it; anything else is refused. */
  lemma FinishAnswers(s: Space, h: History, user: UserId, id: AdmissionId, fp: Fingerprint, token: Token, outcome: Outcome, now: int, p: Profile)
    requires At(s, h, now, p)
    ensures var (t, r) := Complete(s, user, id, fp, token, outcome);
      var (u, q) := Close(s, user, id, fp, token);
      if id !in s.entries || s.entries[id].user != user then t == s && u == s && r == q == Refusal(NotFound, None, None)
      else
        var e := s.entries[id];
        if e.claimToken != Some(token) || e.fingerprint != Some(fp) then t == s && u == s && r == q == Refusal(RequestMismatch, None, None)
        else if Held(e) then
          var done := e.(state := Consumed, phase := Idle, expiresAt := None, outcome := Some(outcome));
          && t.entries == s.entries[id := done] && Answers(r, done, false)
          && u.entries == s.entries[id := Lapsed(e)] && Answers(q, Lapsed(e), false)
        else t == s && u == s && Answers(r, e, false) && q == r
  {
    hide At; hide Agreed; hide Snapshot; hide EntryOk; hide Retire;
    AtAgrees(s, h, now, p);
    if Owned(s, user, id) && Matches(s.entries[id], fp, token) {
      EntryIsOk(s, id, p, now);
      BoundIsSettled(s.entries[id], p, now);
      CompleteKeeps(s, user, id, fp, token, outcome, now, p);
      CloseKeeps(s, user, id, fp, token, now, p);
      if Claimed(s.entries[id]) {
        var t, u := Complete(s, user, id, fp, token, outcome).0, Close(s, user, id, fp, token).0;
        SnapshotAnswers(t, id, false, p, now);
        SnapshotAnswers(u, id, false, p, now);
      } else {
        SnapshotAnswers(s, id, false, p, now);
      }
    }
  }

  lemma BoundIsSettled(e: Entry, p: Profile, now: int)
    requires EntryOk(e, p, now) && e.claimToken.Some?
    ensures Claimed(e) || Settled(e)
    ensures Claimed(e) ==> e.reason.None?
  {}

  // ----- status and join -------------------------------------------------------------------

  /** The lease of a waiter who asks in time runs anew; one who asks too late has lapsed. */
  function Refreshed(e: Entry, now: int, p: Profile): Entry {
    if Overtime(e, now) then Lapsed(e) else if e.state == Waiting then e.(expiresAt := Some(now + p.leaseMs)) else e
  }

  lemma RefreshChanges(s: Space, id: AdmissionId, now: int, p: Profile)
    requires id in s.entries && Sane(s.entries[id], now)
    ensures var t := Renew(Expire(s, id, now), id, now, p); t.entries == s.entries[id := Refreshed(s.entries[id], now, p)]
  {
    ExpireEntries(s, id, now);
    RenewEntries(Expire(s, id, now), id, now, p);
    SameEntries(s, id);
    hide Expire; hide Renew;
  }

  lemma ExpireLeaves(s: Space, id: AdmissionId, now: int)
    ensures var t := Expire(s, id, now); t.latest == s.latest && t.joins == s.joins && t.sequence == s.sequence && t.epoch == s.epoch
  {}

  lemma RefreshLeaves(s: Space, id: AdmissionId, now: int, p: Profile)
    ensures var t := Renew(Expire(s, id, now), id, now, p); t.latest == s.latest && t.joins == s.joins && t.sequence == s.sequence
  {
    ExpireLeaves(s, id, now);
    hide Expire; hide IsState;
  }

  lemma RefreshEntries(s: Space, id: AdmissionId, now: int, p: Profile)
    requires Agreed(s, p, now) && id in s.entries
    ensures var t := Renew(Expire(s, id, now), id, now, p);
      t.entries == s.entries[id := Refreshed(s.entries[id], now, p)] && Agreed(t, p, now)
      && t.latest == s.latest && t.joins == s.joins && t.sequence == s.sequence
  {
    hide *;
    EntryIsSane(s, id, now, p);
    RefreshKeeps(s, id, now, p);
    RefreshChanges(s, id, now, p);
    RefreshLeaves(s, id, now, p);
  }

  predicate NeverJoined(s: Space, user: UserId) {
    forall id | id in s.entries :: s.entries[id].user != user
  }

  /** The user's entry of the highest sequence. */
  predicate IsLatest(s: Space, user: UserId, id: AdmissionId) {
    && id in s.entries && s.entries[id].user == user
    && forall x | x in s.entries && s.entries[x].user == user :: s.entries[x].sequence <= s.entries[id].sequence
  }

  /** The status is that of the user's latest entry, refreshed; no other entry changes. */
  lemma StatusAnswers(s: Space, h: History, user: UserId, now: int, p: Profile)
    requires At(s, h, now, p)
    ensures var (t, r) := Status(s, user, now, p);
      if user !in s.latest then t == s && r == Answer(None, None, false) && NeverJoined(s, user)
      else
        var id := s.latest[user];
        && id in s.entries && IsLatest(s, user, id)
        && t.entries == s.entries[id := Refreshed(s.entries[id], now, p)]
        && Answers(r, Refreshed(s.entries[id], now, p), false)
  {
    hide At; hide Agreed; hide Renew; hide Expire; hide Snapshot; hide Refreshed; hide IsLatest; hide NeverJoined;
    AtAgrees(s, h, now, p);
    LatestIsOwn(s, user, p, now);
    if user in s.latest {
      var id := s.latest[user];
      RefreshEntries(s, id, now, p);
      SnapshotAnswers(Renew(Expire(s, id, now), id, now, p), id, false, p, now);
    }
  }

  lemma LatestIsOwn(s: Space, user: UserId, p: Profile, now: int)
    requires Agreed(s, p, now)
    ensures if user in s.latest then s.latest[user] in s.entries && IsLatest(s, user, s.latest[user]) else NeverJoined(s, user)
  {
    hide Shaped; hide Indexed; hide Numbered; hide Budgeted; hide Logged;
  }

  /** A join request that was seen before shows the entry it made, to the user it made it for. */
  lemma JoinAgainAnswers(s: Space, h: History, user: UserId, join: JoinId, id: AdmissionId, now: int, p: Profile)
    requires At(s, h, now, p) && join in s.joins
    ensures var (t, r) := Join(s, user, join, id, now, p);
      s.joins[join] in s.entries &&
      var e := s.entries[s.joins[join]];
        if e.user != user then t == s && r == Refusal(RequestMismatch, None, None)
        else
       && t.entries == s.entries[s.joins[join] := Refreshed(e, now, p)] && t.joins == s.joins
       && Answers(r, Refreshed(e, now, p), false)
  {
    hide At; hide Agreed; hide Renew; hide Expire; hide Snapshot; hide Refreshed;
    AtAgrees(s, h, now, p);
    References(s, p, now);
    var prior := s.joins[join];
    if s.entries[prior].user == user {
      RefreshEntries(s, prior, now, p);
      SnapshotAnswers(Renew(Expire(s, prior, now), prior, now, p), prior, false, p, now);
    }
  }

  /** The user's live entry, if its time is not over. */
  predicate Engaged(s: Space, user: UserId, now: int) {
    exists id | id in s.entries :: s.entries[id].user == user && (Lasting(s.entries[id], now) || Held(s.entries[id]))
  }

  /** What a user's overtime entry leaves behind when it lapses. */
  function Cleared(s: Space, user: UserId, now: int): map<AdmissionId, Entry> {
    map id | id in s.entries :: if s.entries[id].user == user && Overtime(s.entries[id], now) then Lapsed(s.entries[id]) else s.entries[id]
  }

  function Waiters(entries: map<AdmissionId, Entry>): set<AdmissionId> {
    set id | id in entries && entries[id].state == Waiting
  }

  /** The user's live entry is the one `users` names. */
  predicate Named(s: Space, user: UserId) {
    && (user in s.users ==> s.users[user] in s.entries && s.entries[s.users[user]].user == user && Live(s.entries[s.users[user]]))
    && (forall id | id in s.entries && s.entries[id].user == user && Live(s.entries[id]) :: user in s.users && s.users[user] == id)
  }

  lemma ReleasedChanges(s: Space, user: UserId, now: int)
    requires Named(s, user) && forall id | id in s.entries :: Sane(s.entries[id], now)
    ensures var s1 := Released(s, user, now);
      && s1.entries == Cleared(s, user, now)
      && (Engaged(s, user, now) <==> user in s.users && s.users[user] in s1.entries && Live(s1.entries[s.users[user]]))
      && (user in s.users ==> s.users[user] in s1.entries && s1.entries[s.users[user]].user == user)
  {
    hide Cleared; hide Engaged; hide Sane; hide Expire;
    if user in s.users {
      var id := s.users[user];
      assert Sane(s.entries[id], now);
      ExpireEntries(s, id, now);
      SameEntries(s, id);
      ReleasedOne(s, user, id, now);
    } else {
      NoneCleared(s, user, now);
    }
  }

  lemma ReleasedOne(s: Space, user: UserId, id: AdmissionId, now: int)
    requires id in s.entries && s.entries[id].user == user && Live(s.entries[id]) && Sane(s.entries[id], now)
    requires forall x | x in s.entries && x != id :: s.entries[x].user == user ==> !Live(s.entries[x])
    ensures Cleared(s, user, now) == s.entries[id := if Due(s.entries[id], now) then Ended(s.entries[id], Expired, Some(AdmissionExpired)) else s.entries[id]]
    ensures Engaged(s, user, now) <==> !Due(s.entries[id], now)
  {
    IdleLive(s.entries[id], now);
    var e := if Due(s.entries[id], now) then Ended(s.entries[id], Expired, Some(AdmissionExpired)) else s.entries[id];
    hide Sane; hide Due;
    forall x | x in s.entries ensures Cleared(s, user, now)[x] == s.entries[id := e][x] {}
    assert Cleared(s, user, now) == s.entries[id := e];
  }

  lemma NoneCleared(s: Space, user: UserId, now: int)
    requires forall x | x in s.entries :: s.entries[x].user == user ==> !Live(s.entries[x])
    ensures Cleared(s, user, now) == s.entries && !Engaged(s, user, now)
  {
    forall x | x in s.entries ensures Cleared(s, user, now)[x] == s.entries[x] {}
  }

  lemma ReleasedLeaves(s: Space, user: UserId, now: int)
    ensures var s1 := Released(s, user, now); s1.sequence == s.sequence && s1.joins == s.joins && s1.latest == s.latest && s1.epoch == s.epoch
    ensures Released(s, user, now).entries.Keys == s.entries.Keys
  {
    if user in s.users {
      ExpireLeaves(s, s.users[user], now);
      ExpireEntries(s, s.users[user], now);
    }
    hide Expire;
  }

  lemma UserIsNamed(s: Space, user: UserId, p: Profile, now: int)
    requires Agreed(s, p, now)
    ensures Named(s, user)
  {
    hide Agreed; hide Live;
    References(s, p, now);
  }

  lemma AllSane(s: Space, p: Profile, now: int)
    requires Agreed(s, p, now)
    ensures forall id | id in s.entries :: Sane(s.entries[id], now)
  {
    hide Agreed; hide Sane;
    forall id | id in s.entries ensures Sane(s.entries[id], now) { EntryIsSane(s, id, now, p); }
  }

  lemma CountWaiting(s: Space, p: Profile, now: int)
    requires Agreed(s, p, now)
    ensures |s.waiting| == |Waiters(s.entries)|
  {
    hide Shaped; hide Owning; hide Numbered; hide Budgeted; hide Logged; hide ActiveIndexed; hide ClaimsIndexed;
    assert s.waiting.Keys == Waiters(s.entries) by {
      forall id ensures id in s.waiting.Keys <==> id in Waiters(s.entries) { assert id in s.waiting <==> IsState(s, id, Waiting); }
    }
  }

  /** Where a new join request finds the epoch, once the user's own overtime entry has lapsed. */
  lemma JoinReady(s: Space, user: UserId, join: JoinId, id: AdmissionId, now: int, p: Profile)
    requires Agreed(s, p, now) && p.Valid() && join !in s.joins && id !in s.entries
    ensures var s1 := Released(s, user, now);
      && Agreed(s1, p, now) && s1.entries == Cleared(s, user, now) && |s1.waiting| == |Waiters(Cleared(s, user, now))|
      && s1.sequence == s.sequence && s1.joins == s.joins && s1.latest == s.latest && s1.epoch == s.epoch && id !in s1.entries
      && (user in s.users ==> s.users[user] in s.entries && s.users[user] in s1.entries && s1.entries[s.users[user]].user == user)
      && (Engaged(s, user, now) <==> user in s.users && Live(s1.entries[s.users[user]]))
  {
    hide Agreed; hide Engaged; hide Cleared; hide Waiters; hide Live; hide Named; hide Sane; hide Released;
    UserIsNamed(s, user, p, now);
    AllSane(s, p, now);
    ReleasedChanges(s, user, now);
    ReleasedLeaves(s, user, now);
    ReleasedKeeps(s, user, now, p);
    CountWaiting(Released(s, user, now), p, now);
  }

  lemma JoinDenied(s: Space, user: UserId, join: JoinId, id: AdmissionId, now: int, p: Profile)
    requires Agreed(s, p, now) && p.Valid() && join !in s.joins && id !in s.entries && Engaged(s, user, now)
    ensures var (t, r) := Join(s, user, join, id, now, p);
      var left := Cleared(s, user, now);
      && t.entries == left && r.Refusal? && r.code == ActiveExists && r.wait.None? && r.inTheWay.Some?
      && var Shown(e, position) := r.inTheWay.value;
      && e.id in left && left[e.id] == e && e.user == user && Live(e)
      && position == (if e.state == Waiting then Some(|WaitersBefore(left, e.sequence)| + 1) else None)
  {
    hide Agreed; hide Engaged; hide Cleared; hide Waiters; hide Live; hide Released; hide Denial; hide WaitersBefore; hide Register; hide Snapshot; hide Join;
    JoinReady(s, user, join, id, now, p);
    var s1 := Released(s, user, now);
    JoinParts(s, s1, user, join, id, now, p);
    DenialShows(s1, s.users[user], p, now);
  }

  lemma JoinEnters(s: Space, user: UserId, join: JoinId, id: AdmissionId, now: int, p: Profile)
    requires Agreed(s, p, now) && p.Valid() && join !in s.joins && id !in s.entries && !Engaged(s, user, now)
    requires Agreed(Join(s, user, join, id, now, p).0, p, now)
    ensures var (t, r) := Join(s, user, join, id, now, p);
      var left := Cleared(s, user, now);
      if |Waiters(left)| >= p.maxWaiting || s.sequence >= p.maxEntries then
        t.entries == left && r == Refusal(QueueFull, Some(1000), None)
      else
        var e := NewEntry(s, id, user, now, p);
        && t.entries == left[id := e] && t.joins == s.joins[join := id] && t.latest == s.latest[user := id]
        && Answers(r, e, true) && r.position == Some(|Waiters(left)| + 1)
  {
    hide Agreed; hide Engaged; hide Cleared; hide Waiters; hide Live; hide Released; hide Denial; hide Register; hide Snapshot; hide Join;
    JoinReady(s, user, join, id, now, p);
    var s1 := Released(s, user, now);
    JoinParts(s, s1, user, join, id, now, p);
    if |s1.waiting| < p.maxWaiting && s1.sequence < p.maxEntries { EntersLast(s1, id, user, join, now, p); }
  }

  /** A new join request of a user without a live entry enters behind everybody else, unless the line
      is full or the epoch has given out all its entries. */
  lemma JoinNewAnswers(s: Space, h: History, user: UserId, join: JoinId, id: AdmissionId, now: int, p: Profile)
    requires At(s, h, now, p) && join !in s.joins && id !in s.entries
    ensures var (t, r) := Join(s, user, join, id, now, p);
      var left := Cleared(s, user, now);
      if Engaged(s, user, now) then
        && t.entries == left && r.Refusal? && r.code == ActiveExists && r.wait.None? && r.inTheWay.Some?
        && var Shown(e, position) := r.inTheWay.value;
        && e.id in left && left[e.id] == e && e.user == user && (e.state == Waiting || e.state == Admitted)
        && position == (if e.state == Waiting then Some(|WaitersBefore(left, e.sequence)| + 1) else None)
      else if |Waiters(left)| >= p.maxWaiting || s.sequence >= p.maxEntries then
        t.entries == left && r == Refusal(QueueFull, Some(1000), None)
      else
        var e := Entry(id, user, s.epoch, s.sequence + 1, Waiting, Idle, now, None, Some(now + p.leaseMs), None, None, None, None, None);
        && t.entries == left[id := e] && t.joins == s.joins[join := id] && t.latest == s.latest[user := id]
        && Answers(r, e, true) && r.position == Some(|Waiters(left)| + 1)
  {
    hide At; hide Agreed; hide Engaged; hide Cleared; hide Waiters; hide Quiet; hide WaitersBefore; hide Join;
    AtAgrees(s, h, now, p);
    if Engaged(s, user, now) {
      JoinDenied(s, user, join, id, now, p);
    } else {
      JoinNewKeeps(s, user, join, id, now, p);
      JoinEnters(s, user, join, id, now, p);
    }
  }

  /** The waiting entries with a smaller sequence. */
  function WaitersBefore(entries: map<AdmissionId, Entry>, sequence: int): set<AdmissionId> {
    set id | id in entries && entries[id].state == Waiting && entries[id].sequence < sequence
  }

  lemma DenialShows(s: Space, id: AdmissionId, p: Profile, now: int)
    requires Agreed(s, p, now) && id in s.entries
    ensures s.entries[id].id == id
    ensures Denial(s, ActiveExists, id) == Refusal(ActiveExists, None, Some(Shown(s.entries[id],
      if s.entries[id].state == Waiting then Some(|WaitersBefore(s.entries, s.entries[id].sequence)| + 1) else None)))
  {
    hide Agreed; hide WaitersBefore;
    EntryIsOk(s, id, p, now);
    SnapshotAnswers(s, id, false, p, now);
    if s.entries[id].state == Waiting { RankCounts(s, id, p, now); }
  }

  lemma RankCounts(s: Space, id: AdmissionId, p: Profile, now: int)
    requires Agreed(s, p, now) && IsState(s, id, Waiting)
    ensures id in s.waiting && Rank(s.waiting, id) == |WaitersBefore(s.entries, s.entries[id].sequence)|
  {
    hide Owning; hide Logged; hide Shaped; hide Budgeted; hide ActiveIndexed; hide ClaimsIndexed; hide Structures;
    assert (set x | x in s.waiting && Before(s.waiting, x, id)) == WaitersBefore(s.entries, s.entries[id].sequence) by {
      forall x ensures x in s.waiting <==> IsState(s, x, Waiting) {}
    }
  }

  lemma EntersLast(s: Space, id: AdmissionId, user: UserId, join: JoinId, now: int, p: Profile)
    requires Agreed(s, p, now) && id !in s.entries && Agreed(Register(s, id, user, join, now, p), p, now)
    ensures var t := Register(s, id, user, join, now, p);
      var r := Snapshot(t, id, true);
      && t.entries == s.entries[id := NewEntry(s, id, user, now, p)]
      && t.joins == s.joins[join := id] && t.latest == s.latest[user := id]
      && Answers(r, NewEntry(s, id, user, now, p), true) && r.position == Some(|s.waiting| + 1)
  {
    hide Agreed;
    var t := Register(s, id, user, join, now, p);
    RegisterEntries(s, id, user, join, now, p);
    LastInLine(s, t, id, user, join, now, p);
    hide Register; hide Snapshot;
    SnapshotAnswers(t, id, true, p, now);
  }

  lemma JoinParts(s: Space, s1: Space, user: UserId, join: JoinId, id: AdmissionId, now: int, p: Profile)
    requires join !in s.joins && s1 == Released(s, user, now) && (user in s.users ==> s.users[user] in s.entries && s.users[user] in s1.entries)
    ensures var (t, r) := Join(s, user, join, id, now, p);
      if user in s.users && Live(s1.entries[s.users[user]]) then
        t == s1 && r == Denial(s1, ActiveExists, s.users[user])
      else if |s1.waiting| >= p.maxWaiting || s1.sequence >= p.maxEntries then t == s1 && r == Refusal(QueueFull, Some(1000), None)
      else t == Register(s1, id, user, join, now, p) && r == Snapshot(t, id, true)
  {
    hide Live; hide Register; hide Snapshot; hide Expire; hide Denial;
  }

  lemma RegisterEntries(s: Space, id: AdmissionId, user: UserId, join: JoinId, now: int, p: Profile)
    ensures var t := Register(s, id, user, join, now, p);
      && t.entries == s.entries[id := NewEntry(s, id, user, now, p)]
      && t.joins == s.joins[join := id] && t.latest == s.latest[user := id]
  {}

  lemma LineBelow(s: Space, id: AdmissionId, p: Profile, now: int)
    requires Agreed(s, p, now) && id !in s.entries
    ensures (forall x | x in s.waiting :: s.waiting[x] <= s.sequence) && id !in s.waiting
  {
    hide Shaped; hide Owning; hide Budgeted; hide Logged; hide ActiveIndexed; hide ClaimsIndexed; hide Structures;
    assert id in s.waiting <==> IsState(s, id, Waiting);
    forall x | x in s.waiting ensures s.waiting[x] <= s.sequence { assert IsState(s, x, Waiting); }
  }

  lemma LastInLine(s: Space, t: Space, id: AdmissionId, user: UserId, join: JoinId, now: int, p: Profile)
    requires Agreed(s, p, now) && id !in s.entries && t == Register(s, id, user, join, now, p)
    ensures Snapshot(t, id, true).Answer? && Snapshot(t, id, true).position == Some(|s.waiting| + 1)
  {
    hide Agreed;
    LineBelow(s, id, p, now);
    assert t.waiting == s.waiting[id := s.sequence + 1] && id in t.entries && t.entries[id].state == Waiting;
    LastRank(s.waiting, id, s.sequence + 1);
    hide Register; hide Rank;
  }

  lemma LastRank(z: ZSet, m: int, score: int)
    requires m !in z && forall x | x in z :: z[x] < score
    ensures Rank(z[m := score], m) == |z|
  {
    var y := z[m := score];
    assert forall x | x in z :: x in y && Before(y, x, m);
    assert (set x | x in y && Before(y, x, m)) == z.Keys;
  }

  // ----- reconcile -------------------------------------------------------------------------

  /** The reclaimer is handed claims past their deadline, the longest overdue first, and all of them
      unless there are more than it takes at once; each is marked, and no other entry changes. */
  lemma ReconcileAnswers(s: Space, h: History, now: int, p: Profile)
    requires At(s, h, now, p)
    ensures var (t, r) := Reconcile(s, now, p);
      && r.Overdue? && |r.claims| <= p.reclaim
      && (forall i | 0 <= i < |r.claims| :: Reclaimed(s, t, r.claims[i], now))
      && (forall i, j | 0 <= i < j < |r.claims| :: r.claims[i].id != r.claims[j].id && DeadlineOf(r.claims[i]) <= DeadlineOf(r.claims[j]))
      && (forall id | id in s.entries && Held(s.entries[id]) && DeadlineOf(s.entries[id]) <= now && !Among(r.claims, id) ::
            |r.claims| == p.reclaim && forall i | 0 <= i < |r.claims| :: DeadlineOf(r.claims[i]) <= DeadlineOf(s.entries[id]))
      && (forall id | id in s.entries && !Among(r.claims, id) :: id in t.entries && t.entries[id] == s.entries[id])
  {
    hide At; hide Agreed; hide MarkAll; hide RangeByScore; hide Quiet; hide Reclaimable;
    AtAgrees(s, h, now, p);
    var ids := RangeByScore(s.claims, now, p.reclaim);
    var (t, es) := MarkAll(s, ids);
    FirstOverdue(s.claims, now, p.reclaim);
    MarkAllKeeps(s, ids, now, p);
    ClaimsAre(s, p, now);
    MarkAllMarks(s, ids);
    forall i | 0 <= i < |ids| ensures Among(es, ids[i]) { assert es[i].id == ids[i]; }
    forall i | 0 <= i < |es| ensures Reclaimed(s, t, es[i], now) { ReclaimableOne(t, es, now, i); }
  }

  lemma ReclaimableOne(t: Space, claims: seq<Entry>, now: int, i: nat)
    requires Reclaimable(t, claims, now) && i < |claims|
    ensures claims[i].id in t.entries && t.entries[claims[i].id] == claims[i] && claims[i].deadline.Some? && claims[i].deadline.value <= now
  {}

  /** A claim handed to the reclaimer: overdue, marked, and so in the namespace. */
  predicate Reclaimed(s: Space, t: Space, c: Entry, now: int) {
    && c.id in s.entries && Held(s.entries[c.id]) && c == s.entries[c.id].(phase := Reconciling)
    && c.deadline.Some? && c.deadline.value <= now
    && c.id in t.entries && t.entries[c.id] == c
  }

  /** The range up to a bound takes the lowest scores, and everything if there is room. */
  lemma FirstOverdue(z: ZSet, max: int, limit: nat)
    ensures var r := RangeByScore(z, max, limit);
      && (forall i | 0 <= i < |r| :: r[i] in z && z[r[i]] <= max)
      && (forall i, j | 0 <= i < j < |r| :: r[i] != r[j] && z[r[i]] <= z[r[j]])
      && (forall m | m in z && z[m] <= max && m !in r :: |r| == limit && forall i | 0 <= i < |r| :: z[r[i]] <= z[m])
  {
    var u := UpTo(z, max);
    var r := Range(u, limit);
    RangeIsPrefix(u, limit);
    RangeByScoreIsComplete(z, max, limit);
    hide Range;
    forall i, j | 0 <= i < j < |r| ensures r[i] != r[j] && z[r[i]] <= z[r[j]] { assert Before(u, r[i], r[j]); }
    forall m | m in z && z[m] <= max && m !in r ensures |r| == limit && forall i | 0 <= i < |r| :: z[r[i]] <= z[m] {
      assert m in u;
      forall i | 0 <= i < |r| ensures z[r[i]] <= z[m] { assert Before(u, r[i], m); }
    }
  }

  function DeadlineOf(e: Entry): int {
    if e.deadline.Some? then e.deadline.value else 0
  }

  predicate Among(es: seq<Entry>, id: AdmissionId) {
    exists i | 0 <= i < |es| :: es[i].id == id
  }

  lemma ClaimsAre(s: Space, p: Profile, now: int)
    requires Agreed(s, p, now)
    ensures forall id :: id in s.claims <==> id in s.entries && Claimed(s.entries[id])
    ensures forall id | id in s.claims :: s.entries[id].deadline == Some(s.claims[id]) && s.entries[id].id == id
  {
    hide Owning; hide Numbered; hide Budgeted; hide Logged; hide WaitingIndexed; hide ActiveIndexed; hide EntryOk;
  }

  lemma {:induction false} MarkAllMarks(s: Space, ids: seq<AdmissionId>)
    requires forall i | 0 <= i < |ids| :: ids[i] in s.entries
    requires forall i, j | 0 <= i < j < |ids| :: ids[i] != ids[j]
    ensures var (t, es) := MarkAll(s, ids);
      |es| == |ids| && forall i | 0 <= i < |ids| :: es[i] == s.entries[ids[i]].(phase := Reconciling)
    decreases |ids|
  {
    if ids != [] {
      var s1 := Mark(s, ids[0]);
      MarkAllMarks(s1, ids[1..]);
      var es := MarkAll(s1, ids[1..]).1;
      forall i | 1 <= i < |ids| ensures es[i - 1] == s.entries[ids[i]].(phase := Reconciling) {
        assert ids[1..][i - 1] == ids[i] && ids[i] != ids[0];
      }
    }
  }
}
