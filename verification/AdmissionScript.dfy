/** The script as it runs: it updates the keys of one epoch, the control record and the caller's
    limiter in place. Each part is proved against the value-level operations of AdmissionSpace. */
module AdmissionScript {
  import opened AdmissionTypes
  import opened SortedSet
  import opened TransitionLog
  import opened AdmissionSpace
  import opened Agreement
  import opened AgreementSteps
  import opened AgreementOps
  import opened AgreementCalls
  import opened AdmissionRuns
  import opened AdmissionControl

  // ----- the per-user limiter --------------------------------------------------------------

  datatype Action = StatusAction | JoinAction | CancelAction

  function ActionOf(op: Op): Option<(UserId, Action)> {
    match op
    case DoStatus(user) => Some((user, StatusAction))
    case DoJoin(user, _, _) => Some((user, JoinAction))
    case DoCancel(user, _) => Some((user, CancelAction))
    case _ => None
  }

  function LimitOf(action: Action): nat {
    if action == StatusAction then 120 else 10
  }

  function Recent(z: ZSet, now: int): ZSet {
    DropUpTo(z, now - 60000)
  }

  predicate Denied(z: ZSet, action: Action, now: int) {
    |Recent(z, now)| >= LimitOf(action)
  }

  function WaitFor(z: ZSet, now: int): int
    requires Recent(z, now) != map[]
  {
    var first := First(Recent(z, now));
    if 1 < z[first] + 60000 - now then z[first] + 60000 - now else 1
  }

  /** One caller's requests for one action: no more than the limit, and none of the future. */
  predicate Within(z: ZSet, action: Action, now: int) {
    |z| <= LimitOf(action) && forall m | m in z :: z[m] <= now
  }

  ghost predicate Bounded(limits: map<(UserId, Action), ZSet>, now: int) {
    forall k | k in limits :: Within(limits[k], k.1, now)
  }

  lemma RecentWithin(z: ZSet, action: Action, now: int, request: int)
    requires Within(z, action, now)
    ensures Within(Recent(z, now), action, now)
    ensures !Denied(z, action, now) ==> Within(Recent(z, now)[request := now], action, now)
  {
    Fewer(Recent(z, now).Keys, z.Keys);
    var r := Recent(z, now)[request := now];
    assert r.Keys == Recent(z, now).Keys + {request};
  }

  /** A caller that waits as long as it was told, and sends nothing meanwhile, is let through. */
  lemma WaitingOutTheLimit(z: ZSet, action: Action, now: int)
    requires Denied(z, action, now) && Within(z, action, now)
    ensures Recent(z, now) != map[]
    ensures 0 < WaitFor(z, now) <= 60000
    ensures !Denied(Recent(z, now), action, now + WaitFor(z, now))
  {
    assert |Recent(z, now)| > 0;
    RecentWithin(z, action, now, 0);
    var r := Recent(z, now);
    var first := First(r);
    var later := Recent(r, now + WaitFor(z, now));
    assert first in r && first !in later;
    assert later.Keys <= r.Keys - {first};
    Fewer(later.Keys, r.Keys - {first});
  }

  /** The limiter answers first; whatever it lets through gets the answer of the value-level step. */
  ghost predicate Answered(limits: map<(UserId, Action), ZSet>, s: Space, t: Space, op: Op, now: int, p: Profile, r: Reply) {
    var k := ActionOf(op);
    if k.Some? && Denied(LimiterOf(limits, k.value), k.value.1, now)
    then r == Refusal(RateLimited, Some(WaitFor(LimiterOf(limits, k.value), now)), None) && t == s
    else (t, r) == Step(s, op, now, p) && !r.Crashed?
  }

  /** The requests of the last minute. */
  ghost function LastMinute(z: ZSet, now: int): set<int> {
    set m | m in z && now - 60000 < z[m]
  }

  ghost predicate Oldest(z: ZSet, now: int, m: int) {
    m in LastMinute(z, now) && forall x | x in LastMinute(z, now) :: z[m] <= z[x]
  }

  /** Until the oldest of them is a minute old. */
  function UntilForgotten(z: ZSet, now: int, oldest: int): int
    requires oldest in z
  {
    if z[oldest] + 60000 - now > 1 then z[oldest] + 60000 - now else 1
  }

  lemma DeniedIs(z: ZSet, action: Action, now: int)
    ensures Denied(z, action, now) <==> |LastMinute(z, now)| >= if action == StatusAction then 120 else 10
    ensures Denied(z, action, now) ==> Recent(z, now) != map[] && exists m :: Oldest(z, now, m) && WaitFor(z, now) == UntilForgotten(z, now, m)
  {
    assert Recent(z, now).Keys == LastMinute(z, now);
    if Denied(z, action, now) {
      assert |Recent(z, now)| > 0;
      var oldest := First(Recent(z, now));
      assert Oldest(z, now, oldest);
    }
  }

  /** A user's status is denied with 120 of their own in the last minute, a join or a cancel with 10, until the
      oldest of them is a minute old; nothing else is ever denied. What is not denied is answered by the queue. */
  lemma LimitsAre(limits: map<(UserId, Action), ZSet>, s: Space, t: Space, op: Op, now: int, p: Profile, r: Reply)
    requires Answered(limits, s, t, op, now, p, r)
    ensures var made := if op.DoStatus? then LimiterOf(limits, (op.user, StatusAction))
                        else if op.DoJoin? then LimiterOf(limits, (op.user, JoinAction))
                        else if op.DoCancel? then LimiterOf(limits, (op.user, CancelAction)) else map[];
      var many := |LastMinute(made, now)|;
      if (op.DoStatus? && many >= 120) || ((op.DoJoin? || op.DoCancel?) && many >= 10)
      then t == s && exists oldest :: Oldest(made, now, oldest) && r == Refusal(RateLimited, Some(UntilForgotten(made, now, oldest)), None)
      else (t, r) == Step(s, op, now, p)
  {
    hide Step; hide Denied; hide WaitFor; hide LastMinute; hide UntilForgotten; hide Oldest;
    var k := ActionOf(op);
    if k.Some? { DeniedIs(LimiterOf(limits, k.value), k.value.1, now); }
    hide LimiterOf; hide Recent;
  }

  function LimiterOf(limits: map<(UserId, Action), ZSet>, k: (UserId, Action)): ZSet {
    if k in limits then limits[k] else map[]
  }

  // ----- keys shared by the epochs of an event ---------------------------------------------

  /** KEYS[1] and KEYS[13]: the control record and one limiter per user and action. */
  class EventKeys {
    var control: Option<Control>
    var limits: map<(UserId, Action), ZSet>

    constructor ()
      ensures control == None && limits == map[] && forall now :: Bounded(limits, now)
    {
      control := None;
      limits := map[];
    }

    method SetDirty(dirty: bool)
      modifies this`control
      ensures control == (if old(control).Some? then Some(old(control).value.(dirty := dirty)) else None)
    {
      if control.Some? { control := Some(control.value.(dirty := dirty)); }
    }

    /** Forget what is older than a minute; then either deny, or count this request. */
    method Admit(k: (UserId, Action), now: int, request: int) returns (wait: Option<int>)
      modifies this`limits
      ensures var z := LimiterOf(old(limits), k);
        if Denied(z, k.1, now) then wait == Some(WaitFor(z, now)) && limits == old(limits)[k := Recent(z, now)]
        else wait == None && limits == old(limits)[k := Recent(z, now)[request := now]]
      ensures var z := LimiterOf(old(limits), k);
        && (wait.Some? <==> |LastMinute(z, now)| >= if k.1 == StatusAction then 120 else 10)
        && (forall m :: m in limits[k] <==> m in LastMinute(z, now) || (wait.None? && m == request))
        && (forall m | m in limits[k] :: limits[k][m] == if wait.None? && m == request then now else z[m])
      ensures Bounded(old(limits), now) ==> Bounded(limits, now)
    {
      var z := if k in limits then limits[k] else map[];
      if Bounded(limits, now) { RecentWithin(z, k.1, now, request); }
      var r := DropUpTo(z, now - 60000);
      assert r.Keys == LastMinute(z, now);
      if |r| >= LimitOf(k.1) {
        assert r != map[];
        limits := limits[k := r];
        var first := First(r);
        var left := r[first] + 60000 - now;
        wait := Some(if 1 < left then left else 1);
      } else {
        limits := limits[k := r[request := now]];
        wait := None;
      }
    }
  }

  // ----- the keys of one epoch -------------------------------------------------------------

  predicate Readable(s: Space, id: AdmissionId) {
    id in s.entries && s.entries[id].id == id && s.entries[id].epoch == s.epoch
  }

  predicate Timed(e: Entry) {
    (e.state == Waiting || (e.state == Admitted && e.phase == Idle)) ==> e.expiresAt.Some?
  }

  function UserOf(op: Op): Option<UserId> {
    match op
    case DoTick => None
    case DoReconcile => None
    case DoInspect(_) => None
    case _ => Some(op.user)
  }

  function TargetOf(op: Op): Option<AdmissionId> {
    match op
    case DoTick => None
    case DoReconcile => None
    case DoStatus(_) => None
    case DoJoin(_, _, _) => None
    case _ => Some(op.id)
  }

  predicate OwnRefs(s: Space, user: UserId) {
    (user in s.latest ==> Readable(s, s.latest[user])) && (user in s.users ==> Readable(s, s.users[user]))
  }

  /** Everything the script reads before it changes anything is there. */
  predicate Referenced(s: Space, op: Op) {
    && (TargetOf(op).Some? && TargetOf(op).value in s.entries ==> Readable(s, TargetOf(op).value))
    && (UserOf(op).Some? ==> OwnRefs(s, UserOf(op).value))
    && (op.DoJoin? && op.join in s.joins ==> Readable(s, s.joins[op.join]))
  }

  /** The user's own two references name the user. */
  predicate OwnedRefs(s: Space, user: UserId)
    requires OwnRefs(s, user)
  {
    && (user in s.latest ==> s.entries[s.latest[user]].user == user)
    && (user in s.users ==> s.entries[s.users[user]].user == user)
  }

  lemma AgreedReads(s: Space, op: Op, p: Profile, now: int)
    requires Agreed(s, p, now)
    ensures Referenced(s, op) && (UserOf(op).Some? ==> OwnedRefs(s, UserOf(op).value))
    ensures forall id | id in s.entries :: Readable(s, id) && Timed(s.entries[id])
  {
    hide Indexed; hide Numbered; hide Budgeted; hide Logged; hide EntryOk;
    forall id | id in s.entries ensures Readable(s, id) && Timed(s.entries[id]) {
      EntryIsTimed(s, id, p, now);
    }
  }

  lemma EntryIsTimed(s: Space, id: AdmissionId, p: Profile, now: int)
    requires Agreed(s, p, now) && id in s.entries
    ensures Readable(s, id) && Timed(s.entries[id])
  {
    hide Indexed; hide Owning; hide Numbered; hide Budgeted; hide Logged;
  }

  class Namespace {
    const keys: EventKeys
    const epoch: Epoch
    var present: bool
    var marked: bool
    var endAt: int
    var userCount: int
    var entries: map<AdmissionId, Entry>
    var joins: map<JoinId, AdmissionId>
    var latest: map<UserId, AdmissionId>
    var users: map<UserId, AdmissionId>
    var waiting: ZSet
    var leases: ZSet
    var active: ZSet
    var claims: ZSet
    var window: ZSet
    var sequence: int
    ghost var log: seq<LogCommand>

    /** No key of the epoch exists. */
    constructor (keys: EventKeys, epoch: Epoch)
      ensures this.keys == keys && this.epoch == epoch && !present
    {
      this.keys := keys;
      this.epoch := epoch;
      present, marked, endAt, userCount, sequence := false, false, 0, 0, 0;
      entries, joins, latest, users := map[], map[], map[], map[];
      waiting, leases, active, claims, window := map[], map[], map[], map[], map[];
    }

    ghost function View(): Space
      reads this
    {
      Space(epoch, endAt, userCount, entries, joins, latest, users, waiting, leases, active, claims, window, sequence, log)
    }

    /** `structures()`: all marks in place and all counters in agreement. */
    predicate Intact()
      reads this
      ensures Intact() <==> present && marked && Structures(View())
    {
      && present && marked
      && 0 <= sequence <= MAX_SEQUENCE
      && |entries| == sequence && |joins| == sequence
      && 0 <= userCount && |latest| == userCount
      && |waiting| == |leases|
      && |users| == |waiting| + |active|
    }

    ghost function Condition(): Health
      reads this
    {
      if !present then Absent else if marked && Structures(View()) then Sound else Broken
    }

    // ----- coordination ----------------------------------------------------------------------

    method Probe(generation: nat, runId: int, now: int) returns (ok: bool, empty: bool)
      ensures ok == AdmissionControl.Probe(keys.control, Condition(), now >= endAt, generation, epoch, runId)
      ensures empty <==> Condition() == Absent
    {
      empty := !present;
      ok := false;
      match keys.control
      case None =>
      case Some(c) =>
        ok := c.generation == generation && c.epoch == epoch && c.runId == runId && !c.dirty
              && (c.mode == Initializing || c.mode == Ready) && Intact();
        if ok { ok := now < endAt; }
    }

    method Initialize(generation: nat, runId: int, now: int, p: Profile) returns (r: Ruling)
      modifies this, keys`control
      ensures (keys.control, Condition(), r) == AdmissionControl.Initialize(old(keys.control), old(Condition()), generation, epoch, runId)
      ensures old(Condition()) == Absent && r == Done && old(keys.control) != keys.control ==>
        View() == EmptySpace(epoch, now + p.epochMs).(log := old(log))
      ensures old(Condition()) != Absent || r != Done ==> View() == old(View()) && present == old(present)
    {
      if keys.control.Some? {
        var c := keys.control.value;
        if c.generation > generation { return Refused(Recovering); }
        if c.generation == generation {
          if c.epoch != epoch || c.runId != runId || c.mode == Frozen || c.dirty || !Intact() {
            return Refused(Recovering);
          }
          return Done;
        }
      }
      if present { return Refused(Recovering); }
      keys.control := Some(Control(generation, epoch, Initializing, runId, true));
      Create(now, p);
      EmptyIsIntact(epoch, now + p.epochMs, log);
      keys.SetDirty(false);
      r := Done;
    }

    method Create(now: int, p: Profile)
      modifies this
      ensures View() == EmptySpace(epoch, now + p.epochMs).(log := old(log)) && present && marked
    {
      CreateHashes();
      CreateSets();
      present, marked, endAt, userCount, sequence := true, true, now + p.epochMs, 0, 0;
    }

    method CreateHashes()
      modifies this`entries, this`joins, this`latest, this`users
      ensures entries == map[] && joins == map[] && latest == map[] && users == map[]
    {
      entries, joins, latest, users := map[], map[], map[], map[];
    }

    method CreateSets()
      modifies this`waiting, this`leases, this`active, this`claims, this`window
      ensures waiting == map[] && leases == map[] && active == map[] && claims == map[] && window == map[]
    {
      waiting, leases, active, claims, window := map[], map[], map[], map[], map[];
    }

    method Freeze(generation: nat) returns (r: Ruling)
      modifies keys`control
      ensures (keys.control, r) == AdmissionControl.Freeze(old(keys.control), generation, epoch)
    {
      match keys.control
      case None => return Refused(Recovering);
      case Some(c) =>
        if c.epoch != epoch { return Refused(Reset); }
        if c.generation != generation { return Refused(Recovering); }
        keys.control := Some(c.(mode := Frozen));
        r := Done;
    }

    method Publish(generation: nat) returns (r: Ruling)
      modifies keys`control
      ensures (keys.control, r) == AdmissionControl.Publish(old(keys.control), Condition(), generation, epoch)
    {
      match keys.control
      case None => return Refused(Recovering);
      case Some(c) =>
        if c.epoch != epoch { return Refused(Reset); }
        if c.dirty || !Intact() { return Refused(Recovering); }
        if c.generation != generation || c.mode == Frozen { return Refused(Recovering); }
        keys.control := Some(c.(mode := Ready));
        r := Done;
    }

    // ----- parts of the queue operations -----------------------------------------------------

    /** `read` of an id some index names: the entry, or an error inside the script. */
    method Read(id: AdmissionId) returns (e: Option<Entry>)
      ensures e == if Readable(View(), id) then Some(entries[id]) else None
    {
      e := if id in entries && entries[id].id == id && entries[id].epoch == epoch then Some(entries[id]) else None;
    }

    method LeaveLine(id: AdmissionId)
      modifies this`waiting, this`leases
      ensures waiting == old(waiting) - {id} && leases == old(leases) - {id}
    {
      waiting := waiting - {id};
      leases := leases - {id};
    }

    method ClearActive(e: Entry)
      modifies this`waiting, this`leases, this`active, this`claims, this`users, this`log
      ensures View() == old(View()).(
        waiting := old(waiting) - {e.id}, leases := old(leases) - {e.id},
        active := old(active) - {e.id}, claims := old(claims) - {e.id},
        users := if e.user in old(users) && old(users)[e.user] == e.id then old(users) - {e.user} else old(users),
        log := old(log) + ClearLog(epoch, e.id))
    {
      LeaveLine(e.id);
      active := active - {e.id};
      claims := claims - {e.id};
      log := log + ClearLog(epoch, e.id);
      if e.user in users && users[e.user] == e.id { users := users - {e.user}; }
    }

    method Finalize(e: Entry, state: EntryState, reason: Option<Code>) returns (f: Entry)
      modifies this`entries, this`waiting, this`leases, this`active, this`claims, this`users, this`log
      ensures f == Ended(e, state, reason)
      ensures View() == Retire(old(View()), e.id, f) && f.id == e.id && f.id in entries && entries[f.id] == f
    {
      ClearActive(e);
      f := e.(state := state, phase := Idle, expiresAt := None, reason := reason);
      entries := entries[f.id := f];
    }

    /** Comparing a missing expiry is an error inside the script. */
    method ExpireEntry(e: Entry, now: int) returns (ok: bool, f: Entry)
      requires e.id in entries && entries[e.id] == e
      modifies this`entries, this`waiting, this`leases, this`active, this`claims, this`users, this`log
      ensures ok == Timed(e) && f.id == e.id
      ensures ok ==> View() == Expire(old(View()), e.id, now) && e.id in entries && f == entries[e.id]
      ensures !ok ==> View() == old(View())
    {
      ok, f := true, e;
      if e.state == Waiting || (e.state == Admitted && e.phase == Idle) {
        if e.expiresAt.None? { return false, e; }
        if e.expiresAt.value <= now { f := Finalize(e, Expired, Some(AdmissionExpired)); }
      }
    }

    method RenewLease(e: Entry, now: int, p: Profile) returns (f: Entry)
      requires e.id in entries && entries[e.id] == e
      modifies this`entries, this`leases, this`log
      ensures View() == Renew(old(View()), e.id, now, p) && e.id in entries && f == entries[e.id] && f.id == e.id
    {
      f := e;
      if e.state == Waiting {
        f := e.(expiresAt := Some(now + p.leaseMs));
        entries := entries[f.id := f];
        leases := leases[f.id := now + p.leaseMs];
        log := log + [ZAdd(epoch, LeaseSet, now + p.leaseMs, f.id)];
      }
    }

    method SnapshotOf(e: Entry, created: bool) returns (r: Reply)
      requires e.id in entries && entries[e.id] == e
      ensures r == Snapshot(View(), e.id, created)
    {
      if e.state == Waiting {
        if e.id !in waiting { return Crashed; }
        r := Answer(Some(e), Some(Rank(waiting, e.id) + 1), created);
      } else {
        r := Answer(Some(e), None, created);
      }
    }

    // ----- the queue operations --------------------------------------------------------------

    method Status(user: UserId, now: int, p: Profile) returns (r: Reply)
      requires OwnRefs(View(), user)
      modifies this
      ensures present == old(present) && marked == old(marked)
      ensures Agreed(old(View()), p, now) ==> (View(), r) == AdmissionSpace.Status(old(View()), user, now, p)
    {
      hide Agreed; hide Expire; hide Renew; hide Snapshot;
      ghost var s := View();
      if Agreed(s, p, now) { AgreedReads(s, DoStatus(user), p, now); }
      if user !in latest { return Answer(None, None, false); }
      var ok, e := ExpireEntry(entries[latest[user]], now);
      if !ok { return Crashed; }
      e := RenewLease(e, now, p);
      r := SnapshotOf(e, false);
    }

    method Join(user: UserId, join: JoinId, id: AdmissionId, now: int, p: Profile) returns (r: Reply)
      requires OwnRefs(View(), user) && (join in joins ==> Readable(View(), joins[join]))
      modifies this`entries, this`joins, this`latest, this`users, this`waiting, this`leases, this`active, this`claims, this`sequence, this`userCount, this`log
      ensures Agreed(old(View()), p, now) && id !in old(entries) ==>
        (View(), r) == AdmissionSpace.Join(old(View()), user, join, id, now, p)
    {
      if join in joins { r := JoinAgain(user, join, id, now, p); } else { r := JoinNew(user, join, id, now, p); }
    }

    /** The entry this join request made before, refreshed. */
    method JoinAgain(user: UserId, join: JoinId, id: AdmissionId, now: int, p: Profile) returns (r: Reply)
      requires join in joins && Readable(View(), joins[join])
      modifies this`entries, this`waiting, this`leases, this`active, this`claims, this`users, this`log
      ensures Agreed(old(View()), p, now) ==> (View(), r) == AdmissionSpace.Join(old(View()), user, join, id, now, p)
    {
      hide Agreed; hide Expire; hide Renew; hide Snapshot; hide Register;
      ghost var s := View();
      if Agreed(s, p, now) { AgreedReads(s, DoJoin(user, join, id), p, now); }
      var joined := entries[joins[join]];
      if joined.user != user { return Refusal(RequestMismatch, None, None); }
      var ok, e := ExpireEntry(joined, now);
      if !ok { return Crashed; }
      e := RenewLease(e, now, p);
      r := SnapshotOf(e, false);
    }

    method JoinNew(user: UserId, join: JoinId, id: AdmissionId, now: int, p: Profile) returns (r: Reply)
      requires OwnRefs(View(), user) && join !in joins
      modifies this`entries, this`joins, this`latest, this`users, this`waiting, this`leases, this`active, this`claims, this`sequence, this`userCount, this`log
      ensures Agreed(old(View()), p, now) && id !in old(entries) ==>
        (View(), r) == AdmissionSpace.Join(old(View()), user, join, id, now, p)
    {
      hide Agreed; hide Expire; hide Renew; hide Snapshot; hide Register;
      ghost var s := View();
      if Agreed(s, p, now) {
        AgreedReads(s, DoJoin(user, join, id), p, now);
        References(s, p, now);
      }
      if user in users {
        var ok, e := ExpireEntry(entries[users[user]], now);
        if !ok { return Crashed; }
        if e.state == Waiting || e.state == Admitted {
          if Agreed(s, p, now) {
            ExpireKeeps(s, e.id, now, p, now);
            SnapshotAnswers(View(), e.id, false, p, now);
          }
          r := Denial(ActiveExists, e);
          return;
        }
      }
      if |waiting| >= p.maxWaiting || sequence >= p.maxEntries {
        return Refusal(QueueFull, Some(1000), None);
      }
      var e := Enter(id, user, join, now, p);
      r := SnapshotOf(e, true);
    }

    /** A refusal that shows the entry in the way, with its place in line. */
    method Denial(code: Code, e: Entry) returns (r: Reply)
      requires e.id in entries && entries[e.id] == e
      ensures r == AdmissionSpace.Denial(View(), code, e.id)
    {
      var shown := SnapshotOf(e, false);
      r := if shown.Crashed? then Crashed else Refusal(code, None, Some(Shown(e, shown.position)));
    }

    method Enter(id: AdmissionId, user: UserId, join: JoinId, now: int, p: Profile) returns (e: Entry)
      modifies this`entries, this`joins, this`latest, this`users, this`waiting, this`leases, this`sequence, this`userCount, this`log
      ensures View() == Register(old(View()), id, user, join, now, p)
      ensures e.id == id && id in entries && e == entries[id]
    {
      ghost var s := View();
      e := EnterEntry(id, user, now, p);
      EnterUser(id, user, join);
      EnterLine(id, now, p);
      assert e == NewEntry(s, id, user, now, p);
    }

    method EnterEntry(id: AdmissionId, user: UserId, now: int, p: Profile) returns (e: Entry)
      modifies this`entries, this`sequence
      ensures e == NewEntry(old(View()), id, user, now, p) && sequence == old(sequence) + 1 && entries == old(entries)[id := e]
    {
      sequence := sequence + 1;
      e := Entry(id, user, epoch, sequence, Waiting, Idle, now, None, Some(now + p.leaseMs), None, None, None, None, None);
      entries := entries[id := e];
    }

    /** The join and the user's references now name the new entry. */
    method EnterUser(id: AdmissionId, user: UserId, join: JoinId)
      modifies this`joins, this`latest, this`users, this`userCount
      ensures joins == old(joins)[join := id] && latest == old(latest)[user := id] && users == old(users)[user := id]
      ensures userCount == if user in old(latest) then old(userCount) else old(userCount) + 1
    {
      joins := joins[join := id];
      if user !in latest { userCount := userCount + 1; }
      latest := latest[user := id];
      users := users[user := id];
    }

    method EnterLine(id: AdmissionId, now: int, p: Profile)
      modifies this`waiting, this`leases, this`log
      ensures waiting == old(waiting)[id := sequence] && leases == old(leases)[id := now + p.leaseMs]
      ensures log == old(log) + [ZAdd(epoch, WaitingSet, sequence, id), ZAdd(epoch, LeaseSet, now + p.leaseMs, id)]
    {
      waiting := waiting[id := sequence];
      leases := leases[id := now + p.leaseMs];
      log := log + [ZAdd(epoch, WaitingSet, sequence, id), ZAdd(epoch, LeaseSet, now + p.leaseMs, id)];
    }

    /** The leases that ran out, at most `cleanup` of them. */
    method ExpireLeases(now: int, p: Profile) returns (ok: bool, cleaned: nat)
      modifies this
      ensures present == old(present) && marked == old(marked)
      ensures Agreed(old(View()), p, now) ==>
        var late := RangeByScore(old(leases), now, p.cleanup);
        ok && cleaned == |late| && View() == ExpireAll(old(View()), late, now)
    {
      hide Agreed; hide Expire;
      ghost var s := View();
      var late := RangeByScore(leases, now, p.cleanup);
      if Agreed(s, p, now) { LeasesAreEntries(s, p, now); RangeByScoreIsComplete(leases, now, p.cleanup); }
      ok, cleaned := true, 0;
      while cleaned < |late|
        invariant cleaned <= |late|
        invariant present == old(present) && marked == old(marked)
        invariant Agreed(s, p, now) ==>
          && Agreed(View(), p, now) && entries.Keys == s.entries.Keys
          && ExpireAll(View(), late[cleaned..], now) == ExpireAll(s, late, now)
      {
        ghost var before := View();
        if Agreed(before, p, now) {
          AgreedReads(before, DoTick, p, now);
          ExpireKeeps(before, late[cleaned], now, p, now);
          ExpireKeepsKeys(before, late[cleaned], now);
        }
        var e := Read(late[cleaned]);
        if e.None? { return false, cleaned; }
        var timed, _ := ExpireEntry(e.value, now);
        if !timed { return false, cleaned; }
        cleaned := cleaned + 1;
      }
    }

    /** Admitted entries nobody claimed in time; a claimed one is never removed by its score. */
    method FreeIdle(now: int, p: Profile, spent: nat) returns (ok: bool, cleaned: nat)
      modifies this
      ensures present == old(present) && marked == old(marked)
      ensures Agreed(old(View()), p, now) ==>
        ok && (View(), cleaned) == ExpireIdle(old(View()), Range(old(active), Slots(p.capacity)), now, spent, p.cleanup)
    {
      hide Agreed; hide Expire; hide Range; hide IdleDue;
      ghost var s := View();
      var ids := Range(active, Slots(p.capacity));
      RangeIsDistinct(active, Slots(p.capacity), ids);
      ok, cleaned := true, spent;
      var i := 0;
      while i < |ids|
        invariant 0 <= i <= |ids|
        invariant present == old(present) && marked == old(marked)
        invariant Agreed(s, p, now) ==>
          && Agreed(View(), p, now) && (forall j | i <= j < |ids| :: ids[j] in active)
          && ExpireIdle(View(), ids[i..], now, cleaned, p.cleanup) == ExpireIdle(s, ids, now, spent, p.cleanup)
      {
        assert ids[i..][1..] == ids[i + 1..];
        ok, cleaned := FreeOne(ids[i], now, p, cleaned);
        if !ok { return; }
        i := i + 1;
      }
    }

    method FreeOne(id: AdmissionId, now: int, p: Profile, spent: nat) returns (ok: bool, cleaned: nat)
      modifies this`entries, this`waiting, this`leases, this`active, this`claims, this`users, this`log
      ensures Agreed(old(View()), p, now) && id in old(active) ==>
        && ok && Agreed(View(), p, now)
        && (forall x | x in old(active) && x != id :: x in active)
        && (if spent < p.cleanup && IdleDue(old(View()), id, now)
            then View() == Expire(old(View()), id, now) && cleaned == spent + 1
            else View() == old(View()) && cleaned == spent)
    {
      hide Agreed; hide Expire;
      ghost var s := View();
      if Agreed(s, p, now) && id in active {
        ActiveIsTimed(s, id, p, now);
        ExpireKeeps(s, id, now, p, now);
        ExpireKeepsSlots(s, id, now);
      }
      ok, cleaned := true, spent;
      if cleaned < p.cleanup {
        var e := Read(id);
        if e.None? { return false, cleaned; }
        if e.value.phase == Idle {
          if e.value.expiresAt.None? { return false, cleaned; }
          if e.value.expiresAt.value <= now {
            var timed, _ := ExpireEntry(e.value, now);
            cleaned := cleaned + 1;
          }
        }
      }
    }

    method PromoteFirst(first: AdmissionId, e: Entry, now: int, p: Profile)
      requires e.id == first && first in entries && entries[first] == e
      modifies this`entries, this`waiting, this`leases, this`active, this`window, this`log
      ensures View() == Promote(old(View()), first, now, p)
    {
      LeaveLine(first);
      active := active[first := now + p.ttlMs];
      window := window[first := now];
      entries := entries[first := e.(state := Admitted, admittedAt := Some(now), expiresAt := Some(now + p.ttlMs))];
      log := log + PromoteLog(epoch, first, now, p);
    }

    /** Up to n promotions, stopping at the end of the line or at a lease that ran out. */
    method PromoteLine(n: int, now: int, p: Profile) returns (ok: bool, promoted: seq<AdmissionId>)
      modifies this
      ensures present == old(present) && marked == old(marked)
      ensures Agreed(old(View()), p, now) && HasRoom(old(View()), n, now, p) ==>
        ok && (View(), promoted) == PromoteUpTo(old(View()), n, now, p)
    {
      hide Agreed; hide WindowExact; hide Promote; hide PromoteUpTo; hide Continues;
      ghost var s := View();
      Begin(PromoteUpTo(s, n, now, p));
      ghost var fine := Agreed(s, p, now) && HasRoom(s, n, now, p);
      ok, promoted := true, [];
      var i := 0;
      while i < n
        invariant 0 <= i && (i <= n || i == 0)
        invariant present == old(present) && marked == old(marked)
        invariant fine ==>
          && Agreed(View(), p, now) && HasRoom(View(), n - i, now, p)
          && Continues(PromoteUpTo(s, n, now, p), promoted, PromoteUpTo(View(), n - i, now, p))
      {
        if waiting == map[] { break; }
        ghost var before := View();
        var first := First(waiting);
        if fine {
          AgreedReads(before, DoTick, p, now);
          FirstInLine(before, p, now);
        }
        var e := Read(first);
        if e.None? || e.value.expiresAt.None? { return false, promoted; }
        if e.value.expiresAt.value <= now { break; }
        PromoteFirst(first, e.value, now, p);
        if fine {
          PromoteKeeps(before, View(), first, p, now);
          PromoteNext(before, n - i, now, p);
          Continue(PromoteUpTo(s, n, now, p), promoted, first, PromoteUpTo(View(), n - i - 1, now, p));
        }
        promoted := promoted + [first];
        i := i + 1;
      }
      if fine {
        NothingToPromote(View(), n - i, now, p);
        Collected(PromoteUpTo(s, n, now, p), promoted, PromoteUpTo(View(), n - i, now, p));
      }
    }

    method Tick(now: int, p: Profile) returns (r: Reply)
      modifies this
      ensures present == old(present) && marked == old(marked)
      ensures Agreed(old(View()), p, now) ==> (View(), r) == AdmissionSpace.Tick(old(View()), now, p)
    {
      hide Agreed; hide ExpireAll; hide ExpireIdle; hide PromoteUpTo; hide RangeByScore; hide Range; hide WindowExact; hide Quiet;
      ghost var s := View();
      if Agreed(s, p, now) {
        ExpireAllKeeps(s, RangeByScore(leases, now, p.cleanup), now, p);
        CleanupKeeps(s, now, p);
      }
      var ok, cleaned := ExpireLeases(now, p);
      if !ok { return Crashed; }
      ok, cleaned := FreeIdle(now, p, cleaned);
      if !ok { return Crashed; }
      window := DropUpTo(window, now - 1000);
      var promoted := [];
      if cleaned < p.cleanup {
        var n := Min(p.batch, Min(p.rate - |window|, p.capacity - |active|));
        ok, promoted := PromoteLine(n, now, p);
        if !ok { return Crashed; }
      }
      r := Ticked(promoted, cleaned);
    }

    method Reconcile(now: int, p: Profile) returns (r: Reply)
      modifies this
      ensures present == old(present) && marked == old(marked)
      ensures Agreed(old(View()), p, now) ==> (View(), r) == AdmissionSpace.Reconcile(old(View()), now, p)
    {
      hide Agreed; hide Continues; hide Mark; hide MarkAll; hide RangeByScore;
      ghost var s := View();
      var ids := RangeByScore(claims, now, p.reclaim);
      if Agreed(s, p, now) {
        assert Continues(MarkAll(s, ids), [], MarkAll(s, ids[0..])) by { Begin(MarkAll(s, ids)); assert ids[0..] == ids; }
        RangeByScoreIsComplete(claims, now, p.reclaim);
        AgreedReads(s, DoReconcile, p, now);
        ClaimsAreEntries(s, p, now);
      }
      var overdue: seq<Entry> := [];
      while |overdue| < |ids|
        invariant |overdue| <= |ids|
        invariant present == old(present) && marked == old(marked)
        invariant Agreed(s, p, now) ==>
          && (forall j | |overdue| <= j < |ids| :: Readable(View(), ids[j]))
          && Continues(MarkAll(s, ids), overdue, MarkAll(View(), ids[|overdue|..]))
      {
        var id := ids[|overdue|];
        var e := Read(id);
        if e.None? { return Crashed; }
        ghost var before := View();
        var f := MarkOne(e.value);
        if Agreed(s, p, now) {
          MarkAllNext(before, ids, |overdue|);
          Continue(MarkAll(s, ids), overdue, f, MarkAll(View(), ids[|overdue| + 1..]));
        }
        overdue := overdue + [f];
      }
      if Agreed(s, p, now) {
        NothingToMark(View());
        assert ids[|overdue|..] == [];
        Collected(MarkAll(s, ids), overdue, MarkAll(View(), []));
      }
      r := Overdue(overdue);
    }

    method Inspect(id: AdmissionId, now: int, p: Profile) returns (r: Reply)
      ensures r == if id in entries then Snapshot(View(), id, false) else Answer(None, None, false)
      requires id in entries ==> Readable(View(), id)
    {
      if id !in entries { return Answer(None, None, false); }
      r := SnapshotOf(entries[id], false);
    }

    method Cancel(user: UserId, id: AdmissionId, now: int, p: Profile) returns (r: Reply)
      requires id in entries ==> Readable(View(), id)
      modifies this
      ensures present == old(present) && marked == old(marked)
      ensures Agreed(old(View()), p, now) ==> (View(), r) == AdmissionSpace.Cancel(old(View()), user, id, now)
    {
      hide Agreed; hide Expire; hide Snapshot; hide Retire;
      ghost var s := View();
      if Agreed(s, p, now) { AgreedReads(s, DoTick, p, now); }
      if id !in entries || entries[id].user != user { return Refusal(NotFound, None, None); }
      var ok, e := ExpireEntry(entries[id], now);
      if !ok { return Crashed; }
      if e.state == Consumed { return Refusal(AlreadyConsumed, None, None); }
      if e.phase != Idle { return Refusal(InProgress, None, None); }
      if e.state == Waiting || e.state == Admitted { e := Finalize(e, Cancelled, Some(AdmissionCancelled)); }
      r := SnapshotOf(e, false);
    }

    method Claim(user: UserId, id: AdmissionId, fp: Fingerprint, token: Token, now: int, p: Profile) returns (r: Reply)
      requires id in entries ==> Readable(View(), id)
      modifies this
      ensures present == old(present) && marked == old(marked)
      ensures Agreed(old(View()), p, now) ==> (View(), r) == AdmissionSpace.Claim(old(View()), user, id, fp, token, now, p)
    {
      hide Agreed; hide Expire; hide Snapshot; hide StartClaim; hide Mark;
      ghost var s := View();
      if Agreed(s, p, now) { AgreedReads(s, DoTick, p, now); }
      if id !in entries || entries[id].user != user { return Refusal(NotFound, None, None); }
      var ok, e := ExpireEntry(entries[id], now);
      if !ok { return Crashed; }
      if e.fingerprint.Some? && e.fingerprint.value != fp { return Refusal(RequestMismatch, None, None); }
      if e.state == Waiting { return Refusal(NotReady, None, None); }
      if e.state == Consumed { return Refusal(AlreadyConsumed, None, None); }
      if e.state == Expired || e.state == Cancelled {
        return if e.reason.Some? then Refusal(e.reason.value, None, None) else Crashed;
      }
      if e.phase != Idle {
        if e.deadline.None? { return Crashed; }
        if e.deadline.value <= now {
          e := MarkOne(e);
          return Refusal(InProgress, None, None);
        }
        r := SnapshotOf(e, false);
        return;
      }
      e := BindClaim(e, fp, token, now, p);
      r := SnapshotOf(e, false);
    }

    method BindClaim(e: Entry, fp: Fingerprint, token: Token, now: int, p: Profile) returns (f: Entry)
      requires e.id in entries && entries[e.id] == e
      modifies this`entries, this`claims, this`log
      ensures View() == StartClaim(old(View()), e.id, fp, token, now, p)
      ensures f.id == e.id && e.id in entries && f == entries[e.id]
    {
      f := e.(phase := Processing, fingerprint := Some(fp), claimToken := Some(token), deadline := Some(now + p.claimMs));
      claims := claims[f.id := now + p.claimMs];
      log := log + [ZAdd(epoch, ClaimSet, now + p.claimMs, f.id)];
      entries := entries[f.id := f];
    }

    /** `complete` with an outcome, `close` without one. */
    method Finish(user: UserId, id: AdmissionId, fp: Fingerprint, token: Token, outcome: Option<Outcome>) returns (r: Reply)
      requires id in entries ==> Readable(View(), id)
      modifies this
      ensures present == old(present) && marked == old(marked)
      ensures (View(), r) ==
        if outcome.Some? then Complete(old(View()), user, id, fp, token, outcome.value) else Close(old(View()), user, id, fp, token)
    {
      hide Snapshot; hide Retire;
      if id !in entries || entries[id].user != user { return Refusal(NotFound, None, None); }
      var e := entries[id];
      if e.claimToken != Some(token) || e.fingerprint != Some(fp) { return Refusal(RequestMismatch, None, None); }
      if e.state == Consumed || e.state == Expired {
        r := SnapshotOf(e, false);
        return;
      }
      if e.state != Admitted || e.phase == Idle { return Refusal(InProgress, None, None); }
      if outcome.Some? {
        e := Finalize(e.(outcome := Some(outcome.value)), Consumed, None);
      } else {
        e := Finalize(e, Expired, Some(AdmissionExpired));
      }
      r := SnapshotOf(e, false);
    }

    // ----- one invocation --------------------------------------------------------------------

    method Dispatch(op: Op, now: int, p: Profile) returns (r: Reply)
      requires Referenced(View(), op)
      modifies this
      ensures present == old(present) && marked == old(marked)
      ensures Agreed(old(View()), p, now) && Fresh(old(View()), op) && (now < old(endAt) || Finalizing(op)) ==>
        (View(), r) == Step(old(View()), op, now, p)
    {
      hide Agreed;
      hide AdmissionSpace.Status; hide AdmissionSpace.Join; hide AdmissionSpace.Tick; hide AdmissionSpace.Reconcile;
      hide AdmissionSpace.Cancel; hide AdmissionSpace.Claim; hide Complete; hide Close; hide Snapshot;
      match op {
        case DoStatus(user) => r := Status(user, now, p);
        case DoJoin(user, join, id) => r := Join(user, join, id, now, p);
        case DoTick => r := Tick(now, p);
        case DoReconcile => r := Reconcile(now, p);
        case DoInspect(id) => r := Inspect(id, now, p);
        case DoCancel(user, id) => r := Cancel(user, id, now, p);
        case DoClaim(user, id, fp, token) => r := Claim(user, id, fp, token, now, p);
        case DoComplete(user, id, fp, token, outcome) => r := Finish(user, id, fp, token, Some(outcome));
        case DoClose(user, id, fp, token) => r := Finish(user, id, fp, token, None);
      }
    }

    /** The reads that come before any change: the target, the user's latest and live entry, the join. */
    method Lookup(op: Op) returns (found: bool, own: bool)
      ensures found == Referenced(View(), op)
      ensures found ==> own == (UserOf(op).Some? ==> OwnedRefs(View(), UserOf(op).value))
    {
      var user, target := UserOf(op), TargetOf(op);
      found, own := true, true;
      if target.Some? && target.value in entries {
        var e := Read(target.value);
        if e.None? { return false, false; }
      }
      if user.Some? && user.value in latest {
        var e := Read(latest[user.value]);
        if e.None? { return false, false; }
        own := e.value.user == user.value;
      }
      if user.Some? && user.value in users {
        var e := Read(users[user.value]);
        if e.None? { return false, false; }
        own := own && e.value.user == user.value;
      }
      if op.DoJoin? && op.join in joins {
        var e := Read(joins[op.join]);
        if e.None? { return false, false; }
      }
    }

    method Bar(op: Op, now: int) returns (r: Option<Reply>)
      ensures r == Barred(keys.control, Condition(), epoch, now >= endAt, op)
    {
      hide Structures;
      if keys.control.None? { return Some(Refusal(Recovering, Some(1000), None)); }
      var c := keys.control.value;
      if c.epoch != epoch { return Some(Refusal(Reset, None, None)); }
      if c.dirty || !Intact() || c.mode != Ready { return Some(Refusal(Recovering, Some(1000), None)); }
      if now >= endAt && !Finalizing(op) { return Some(Refusal(Recovering, Some(1000), None)); }
      r := None;
    }

    /** The operation itself, under the dirty mark: every path that ends in an answer lifts it. */
    method Proceed(op: Op, now: int, request: int, p: Profile) returns (r: Reply)
      requires Referenced(View(), op) && keys.control.Some? && !keys.control.value.dirty
      modifies this, keys
      ensures present == old(present) && marked == old(marked)
      ensures Agreed(old(View()), p, now) && Fresh(old(View()), op) && (now < old(endAt) || Finalizing(op)) && !Step(old(View()), op, now, p).1.Crashed? ==>
        keys.control == old(keys.control) && Answered(old(keys.limits), old(View()), View(), op, now, p, r)
      ensures Bounded(old(keys.limits), now) ==> Bounded(keys.limits, now)
      ensures r.Crashed? ==> keys.control.Some? && keys.control.value.dirty
    {
      hide Agreed; hide Step; hide Structures; hide Referenced; hide WaitFor; hide Denied; hide ActionOf; hide Fresh; hide Bounded;
      keys.SetDirty(true);
      var k := ActionOf(op);
      if k.Some? {
        var wait := keys.Admit(k.value, now, request);
        if wait.Some? {
          keys.SetDirty(false);
          return Refusal(RateLimited, wait, None);
        }
      }
      r := Dispatch(op, now, p);
      if !r.Crashed? { keys.SetDirty(false); }
    }

    /** A queue operation. The dirty mark is set once every reference has been read, so only an error
        inside the operation leaves it behind; on an agreed namespace there is none. */
    method Serve(op: Op, now: int, request: int, p: Profile, ghost clock: int) returns (r: Reply)
      requires p.Valid() && clock <= now
      modifies this, keys
      ensures present == old(present) && marked == old(marked)
      ensures var barred := Barred(old(keys.control), old(Condition()), epoch, now >= old(endAt), op);
        if barred.Some? then
          r == barred.value && View() == old(View()) && keys.control == old(keys.control) && keys.limits == old(keys.limits)
        else Agreed(old(View()), p, clock) && Fresh(old(View()), op) ==>
          && Agreed(View(), p, now) && keys.control == old(keys.control) && Condition() == Sound
          && Answered(old(keys.limits), old(View()), View(), op, now, p, r)
      ensures Bounded(old(keys.limits), now) ==> Bounded(keys.limits, now)
      ensures r.Crashed? ==> (keys.control.Some? && keys.control.value.dirty) || View() == old(View())
    {
      hide Agreed; hide Step; hide Structures; hide Referenced; hide Carried; hide Answered; hide Fresh; hide Bounded;
      ghost var s := View();
      var barred := Bar(op, now);
      if barred.Some? {
        BarredIsRefused(keys.control, Condition(), epoch, now >= endAt, op);
        return barred.value;
      }
      NotBarred(keys.control, Condition(), epoch, now >= endAt, op);
      ghost var fine := Agreed(s, p, clock) && Fresh(s, op);
      if fine {
        TimePasses(s, p, clock, now);
        AgreedReads(s, op, p, now);
        StepKeeps(s, op, clock, now, p);
      }
      var found, own := Lookup(op);
      if !found { return Crashed; }
      if !own { return Refusal(Recovering, Some(1000), None); }
      hide Barred;
      ghost var limits := keys.limits;
      r := Proceed(op, now, request, p);
      if fine {
        AnsweredAgrees(limits, s, View(), op, now, p, r);
        AgreedIsIntact(View(), p, now);
      }
    }

    method MarkOne(e: Entry) returns (f: Entry)
      requires e.id in entries && entries[e.id] == e
      modifies this`entries
      ensures View() == Mark(old(View()), e.id) && e.id in entries && f == entries[e.id]
      ensures forall x | Readable(old(View()), x) :: Readable(View(), x)
    {
      f := e.(phase := Reconciling);
      entries := entries[f.id := f];
    }
  }

  ghost predicate HasRoom(s: Space, n: int, now: int, p: Profile) {
    WindowExact(s, now) && n <= p.rate - |s.window| && n <= p.capacity - |s.active|
  }

  /** What a loop has collected, followed by what the specification still collects, is the whole. */
  ghost predicate Continues<T>(whole: (Space, seq<T>), done: seq<T>, rest: (Space, seq<T>)) {
    whole.0 == rest.0 && whole.1 == done + rest.1
  }

  lemma Begin<T>(whole: (Space, seq<T>))
    ensures Continues(whole, [], whole)
  {
    assert [] + whole.1 == whole.1;
  }

  lemma MarkAllNext(s: Space, ids: seq<AdmissionId>, k: nat)
    requires k < |ids| && ids[k] in s.entries
    ensures var s1 := Mark(s, ids[k]);
      var rest := MarkAll(s1, ids[k + 1..]);
      ids[k] in s1.entries && MarkAll(s, ids[k..]) == (rest.0, [s1.entries[ids[k]]] + rest.1)
  {
    assert ids[k..][1..] == ids[k + 1..];
  }

  lemma NothingToMark(s: Space)
    ensures MarkAll(s, []) == (s, [])
  {}

  lemma PromoteNext(s: Space, n: int, now: int, p: Profile)
    requires 0 < n && s.waiting != map[] && First(s.waiting) in s.entries
    requires s.entries[First(s.waiting)].expiresAt.Some? && now < s.entries[First(s.waiting)].expiresAt.value
    ensures var rest := PromoteUpTo(Promote(s, First(s.waiting), now, p), n - 1, now, p);
      PromoteUpTo(s, n, now, p) == (rest.0, [First(s.waiting)] + rest.1)
  {}

  lemma NothingToPromote(s: Space, n: int, now: int, p: Profile)
    requires n <= 0 || s.waiting == map[] || (First(s.waiting) in s.entries && s.entries[First(s.waiting)].expiresAt.Some? && s.entries[First(s.waiting)].expiresAt.value <= now)
    ensures PromoteUpTo(s, n, now, p) == (s, [])
  {}

  lemma Continue<T>(whole: (Space, seq<T>), done: seq<T>, next: T, rest: (Space, seq<T>))
    requires Continues(whole, done, (rest.0, [next] + rest.1))
    ensures Continues(whole, done + [next], rest)
  {
    assert done + ([next] + rest.1) == done + [next] + rest.1;
  }

  lemma Collected<T>(whole: (Space, seq<T>), done: seq<T>, rest: (Space, seq<T>))
    requires Continues(whole, done, rest) && rest.1 == []
    ensures whole == (rest.0, done)
  {
    assert done + [] == done;
  }

  lemma ClaimsAreEntries(s: Space, p: Profile, now: int)
    requires Agreed(s, p, now)
    ensures forall id | id in s.claims :: id in s.entries
  {
    hide Shaped; hide Owning; hide Numbered; hide Budgeted; hide Logged; hide ActiveIndexed; hide WaitingIndexed;
  }

  lemma BarredIsRefused(c: Option<Control>, h: Health, epoch: Epoch, ended: bool, op: Op)
    ensures Barred(c, h, epoch, ended, op).Some? ==> Barred(c, h, epoch, ended, op).value.Refusal?
  {}

  lemma NotBarred(c: Option<Control>, h: Health, epoch: Epoch, ended: bool, op: Op)
    requires Barred(c, h, epoch, ended, op).None?
    ensures c.Some? && !c.value.dirty && (!ended || Finalizing(op)) && h == Sound
  {}

  /** Whatever the limiter said, what is left is agreed. */
  lemma AnsweredAgrees(limits: map<(UserId, Action), ZSet>, s: Space, t: Space, op: Op, now: int, p: Profile, r: Reply)
    requires Answered(limits, s, t, op, now, p, r) && Agreed(s, p, now) && Agreed(Step(s, op, now, p).0, p, now)
    ensures Agreed(t, p, now) && !r.Crashed?
  {
    hide Agreed; hide Step; hide Denied; hide WaitFor; hide ActionOf;
  }

  lemma AgreedIsIntact(s: Space, p: Profile, now: int)
    requires Agreed(s, p, now)
    ensures Structures(s)
  {
    hide Shaped; hide Indexed; hide Owning; hide Budgeted; hide Logged;
  }

  lemma EmptyIsIntact(epoch: Epoch, endAt: int, log: seq<LogCommand>)
    ensures Structures(EmptySpace(epoch, endAt).(log := log))
  {}

  lemma LeasesAreEntries(s: Space, p: Profile, now: int)
    requires Agreed(s, p, now)
    ensures forall id | id in s.leases :: id in s.entries
  {
    hide Shaped; hide Owning; hide Numbered; hide Budgeted; hide Logged; hide ActiveIndexed; hide ClaimsIndexed;
    forall id | id in s.leases ensures id in s.entries { assert id in s.waiting; assert IsState(s, id, Waiting); }
  }

  lemma ActiveIsTimed(s: Space, id: AdmissionId, p: Profile, now: int)
    requires Agreed(s, p, now) && id in s.active
    ensures Readable(s, id) && Timed(s.entries[id]) && s.entries[id].state == Admitted
  {
    assert IsState(s, id, Admitted) by {
      hide Shaped; hide Owning; hide Numbered; hide Budgeted; hide Logged; hide WaitingIndexed; hide ClaimsIndexed;
    }
    EntryIsTimed(s, id, p, now);
  }

  lemma RangeIsDistinct(z: ZSet, n: nat, r: seq<int>)
    requires r == Range(z, n)
    ensures (forall i | 0 <= i < |r| :: r[i] in z) && forall i, j | 0 <= i < j < |r| :: r[i] != r[j]
  {
    RangeIsPrefix(z, n);
    hide Range;
    forall i, j | 0 <= i < j < |r| ensures r[i] != r[j] { assert Before(z, r[i], r[j]); }
  }

  lemma ExpireKeepsSlots(s: Space, id: AdmissionId, now: int)
    ensures forall x | x in s.active && x != id :: x in Expire(s, id, now).active
  {}
}
