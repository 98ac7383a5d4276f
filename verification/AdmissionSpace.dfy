/** The keys of one admission epoch as a value, and what each operation of the script does to them.
    Every function is total; a reference the script cannot follow ends the operation in `Crashed`. */
module AdmissionSpace {
  import opened AdmissionTypes
  import opened SortedSet
  import opened TransitionLog

  /** KEYS[2..11] and the sequence counter KEYS[12]. `log` is the history of ZADD and ZREM commands
      the script issued on these keys, which is what MONITOR shows of them. */
  datatype Space = Space(
    epoch: Epoch,
    endAt: int,
    userCount: int,
    entries: map<AdmissionId, Entry>,
    joins: map<JoinId, AdmissionId>,
    latest: map<UserId, AdmissionId>,
    users: map<UserId, AdmissionId>,
    waiting: ZSet,
    leases: ZSet,
    active: ZSet,
    claims: ZSet,
    window: ZSet,
    sequence: int,
    log: seq<LogCommand>)

  function EmptySpace(epoch: Epoch, endAt: int): Space {
    Space(epoch, endAt, 0, map[], map[], map[], map[], map[], map[], map[], map[], map[], 0, [])
  }

  /** The script's integrity test: counters and cardinalities that must agree. */
  predicate Structures(s: Space) {
    && 0 <= s.sequence <= MAX_SEQUENCE
    && |s.entries| == s.sequence && |s.joins| == s.sequence
    && 0 <= s.userCount && |s.latest| == s.userCount
    && |s.waiting| == |s.leases|
    && |s.users| == |s.waiting| + |s.active|
  }

  /** An entry as a reply shows it, with its place in line while it waits. */
  datatype Shown = Shown(entry: Entry, position: Option<nat>)

  datatype Reply =
    | Answer(entry: Option<Entry>, position: Option<nat>, created: bool)
    | Ticked(promoted: seq<AdmissionId>, cleaned: nat)
    | Overdue(claims: seq<Entry>)
    | Refusal(code: Code, wait: Option<int>, inTheWay: Option<Shown>)
    | Crashed

  predicate Live(e: Entry) {
    e.state == Waiting || e.state == Admitted
  }

  predicate Claimed(e: Entry) {
    e.state == Admitted && e.phase != Idle
  }

  predicate Due(e: Entry, now: int) {
    (e.state == Waiting || (e.state == Admitted && e.phase == Idle)) && e.expiresAt.Some? && e.expiresAt.value <= now
  }

  predicate IsState(s: Space, id: AdmissionId, state: EntryState) {
    id in s.entries && s.entries[id].state == state
  }

  // ----- single transitions of one entry ---------------------------------------------------

  function ClearLog(epoch: Epoch, id: AdmissionId): seq<LogCommand> {
    [ZRem(epoch, WaitingSet, id), ZRem(epoch, LeaseSet, id), ZRem(epoch, ActiveSet, id), ZRem(epoch, ClaimSet, id)]
  }

  /** The entry becomes `e`, which is final, and leaves every index. */
  function Retire(s: Space, id: AdmissionId, e: Entry): Space {
    s.(entries := s.entries[id := e],
       waiting := s.waiting - {id}, leases := s.leases - {id},
       active := s.active - {id}, claims := s.claims - {id},
       users := if e.user in s.users && s.users[e.user] == id then s.users - {e.user} else s.users,
       log := s.log + ClearLog(s.epoch, id))
  }

  function Ended(e: Entry, state: EntryState, reason: Option<Code>): Entry {
    e.(state := state, phase := Idle, expiresAt := None, reason := reason)
  }

  function Terminal(s: Space, id: AdmissionId, state: EntryState, reason: Option<Code>): Space {
    if id in s.entries then Retire(s, id, Ended(s.entries[id], state, reason)) else s
  }

  function Expire(s: Space, id: AdmissionId, now: int): Space {
    if id in s.entries && Due(s.entries[id], now) then Terminal(s, id, Expired, Some(AdmissionExpired)) else s
  }

  function Renew(s: Space, id: AdmissionId, now: int, p: Profile): Space {
    if IsState(s, id, Waiting) then
      var e := s.entries[id].(expiresAt := Some(now + p.leaseMs));
      s.(entries := s.entries[id := e], leases := s.leases[id := now + p.leaseMs],
         log := s.log + [ZAdd(s.epoch, LeaseSet, now + p.leaseMs, id)])
    else s
  }

  function NewEntry(s: Space, id: AdmissionId, user: UserId, now: int, p: Profile): Entry {
    Entry(id, user, s.epoch, s.sequence + 1, Waiting, Idle, now, None, Some(now + p.leaseMs), None, None, None, None, None)
  }

  function Register(s: Space, id: AdmissionId, user: UserId, join: JoinId, now: int, p: Profile): Space {
    var e := NewEntry(s, id, user, now, p);
    s.(sequence := s.sequence + 1,
       entries := s.entries[id := e], joins := s.joins[join := id],
       userCount := if user in s.latest then s.userCount else s.userCount + 1,
       latest := s.latest[user := id], users := s.users[user := id],
       waiting := s.waiting[id := e.sequence], leases := s.leases[id := now + p.leaseMs],
       log := s.log + [ZAdd(s.epoch, WaitingSet, e.sequence, id), ZAdd(s.epoch, LeaseSet, now + p.leaseMs, id)])
  }

  function Prune(s: Space, now: int): Space {
    s.(window := DropUpTo(s.window, now - 1000))
  }

  function PromoteLog(epoch: Epoch, id: AdmissionId, now: int, p: Profile): seq<LogCommand> {
    [ZRem(epoch, WaitingSet, id), ZRem(epoch, LeaseSet, id),
     ZAdd(epoch, ActiveSet, now + p.ttlMs, id), ZAdd(epoch, WindowSet, now, id)]
  }

  function Promote(s: Space, id: AdmissionId, now: int, p: Profile): Space {
    if id !in s.entries then s else
      var e := s.entries[id].(state := Admitted, admittedAt := Some(now), expiresAt := Some(now + p.ttlMs));
      s.(entries := s.entries[id := e],
         waiting := s.waiting - {id}, leases := s.leases - {id},
         active := s.active[id := now + p.ttlMs], window := s.window[id := now],
         log := s.log + PromoteLog(s.epoch, id, now, p))
  }

  function StartClaim(s: Space, id: AdmissionId, fp: Fingerprint, token: Token, now: int, p: Profile): Space {
    if id !in s.entries then s else
      var e := s.entries[id].(phase := Processing, fingerprint := Some(fp), claimToken := Some(token),
                              deadline := Some(now + p.claimMs));
      s.(entries := s.entries[id := e], claims := s.claims[id := now + p.claimMs],
         log := s.log + [ZAdd(s.epoch, ClaimSet, now + p.claimMs, id)])
  }

  function Mark(s: Space, id: AdmissionId): Space {
    if id !in s.entries then s else
      s.(entries := s.entries[id := s.entries[id].(phase := Reconciling)])
  }

  function Finish(s: Space, id: AdmissionId, outcome: Outcome): Space {
    if id in s.entries then Retire(s, id, Ended(s.entries[id].(outcome := Some(outcome)), Consumed, None)) else s
  }

  // ----- operations ------------------------------------------------------------------------

  function Snapshot(s: Space, id: AdmissionId, created: bool): Reply {
    if id !in s.entries then Crashed else
      var e := s.entries[id];
      if e.state != Waiting then Answer(Some(e), None, created)
      else if id in s.waiting then Answer(Some(e), Some(Rank(s.waiting, id) + 1), created)
      else Crashed
  }

  /** A refusal that shows the entry in the way. */
  function Denial(s: Space, code: Code, id: AdmissionId): Reply {
    var shown := Snapshot(s, id, false);
    if shown.Answer? && shown.entry.Some? then Refusal(code, None, Some(Shown(shown.entry.value, shown.position))) else Crashed
  }

  function Status(s: Space, user: UserId, now: int, p: Profile): (Space, Reply) {
    if user !in s.latest then (s, Answer(None, None, false)) else
      var id := s.latest[user];
      var s1 := Renew(Expire(s, id, now), id, now, p);
      (s1, Snapshot(s1, id, false))
  }

  function Join(s: Space, user: UserId, join: JoinId, id: AdmissionId, now: int, p: Profile): (Space, Reply) {
    if join in s.joins then
      var prior := s.joins[join];
      if prior !in s.entries then (s, Crashed)
      else if s.entries[prior].user != user then (s, Refusal(RequestMismatch, None, None))
      else
        var s1 := Renew(Expire(s, prior, now), prior, now, p);
        (s1, Snapshot(s1, prior, false))
    else
      var s1 := if user in s.users then Expire(s, s.users[user], now) else s;
      if user in s.users && s.users[user] !in s.entries then (s, Crashed)
      else if user in s.users && Live(s1.entries[s.users[user]]) then
        (s1, Denial(s1, ActiveExists, s.users[user]))
      else if |s1.waiting| >= p.maxWaiting || s1.sequence >= p.maxEntries then
        (s1, Refusal(QueueFull, Some(1000), None))
      else
        var s2 := Register(s1, id, user, join, now, p);
        (s2, Snapshot(s2, id, true))
  }

  /** The first loop of `tick`: leases that ran out, at most `cleanup` of them. */
  function ExpireAll(s: Space, ids: seq<AdmissionId>, now: int): Space
    decreases |ids|
  {
    if ids == [] then s else ExpireAll(Expire(s, ids[0], now), ids[1..], now)
  }

  predicate IdleDue(s: Space, id: AdmissionId, now: int) {
    id in s.entries && s.entries[id].phase == Idle && s.entries[id].expiresAt.Some? && s.entries[id].expiresAt.value <= now
  }

  /** The second loop: admitted entries nobody claimed in time, within what is left of `cleanup`. */
  function ExpireIdle(s: Space, ids: seq<AdmissionId>, now: int, cleaned: nat, cleanup: nat): (Space, nat)
    decreases |ids|
  {
    if ids == [] then (s, cleaned)
    else if cleaned < cleanup && IdleDue(s, ids[0], now) then
      ExpireIdle(Expire(s, ids[0], now), ids[1..], now, cleaned + 1, cleanup)
    else ExpireIdle(s, ids[1..], now, cleaned, cleanup)
  }

  /** The third loop: at most n promotions, always of the first in line. */
  function PromoteUpTo(s: Space, n: int, now: int, p: Profile): (Space, seq<AdmissionId>)
    decreases if n < 0 then 0 else n
  {
    if n <= 0 || s.waiting == map[] then (s, []) else
      var first := First(s.waiting);
      if first !in s.entries || s.entries[first].expiresAt.None? || s.entries[first].expiresAt.value <= now then (s, [])
      else
        var (s1, rest) := PromoteUpTo(Promote(s, first, now, p), n - 1, now, p);
        (s1, [first] + rest)
  }

  function Min(a: int, b: int): int { if a < b then a else b }

  /** How many members a range of n takes; a negative bound takes none. */
  function Slots(n: int): nat {
    if n < 0 then 0 else n
  }

  function Headroom(s: Space, p: Profile): int {
    Min(p.batch, Min(p.rate - |s.window|, p.capacity - |s.active|))
  }

  function Cleanup(s: Space, now: int, p: Profile): (Space, nat) {
    var late := RangeByScore(s.leases, now, p.cleanup);
    var s1 := ExpireAll(s, late, now);
    var (s2, cleaned) := ExpireIdle(s1, Range(s1.active, Slots(p.capacity)), now, |late|, p.cleanup);
    (Prune(s2, now), cleaned)
  }

  function Tick(s: Space, now: int, p: Profile): (Space, Reply) {
    var (s1, cleaned) := Cleanup(s, now, p);
    if cleaned < p.cleanup then
      var (s2, promoted) := PromoteUpTo(s1, Headroom(s1, p), now, p);
      (s2, Ticked(promoted, cleaned))
    else (s1, Ticked([], cleaned))
  }

  function MarkAll(s: Space, ids: seq<AdmissionId>): (Space, seq<Entry>)
    decreases |ids|
  {
    if ids == [] || ids[0] !in s.entries then (s, []) else
      var s1 := Mark(s, ids[0]);
      var (s2, rest) := MarkAll(s1, ids[1..]);
      (s2, [s1.entries[ids[0]]] + rest)
  }

  function Reconcile(s: Space, now: int, p: Profile): (Space, Reply) {
    var (s1, claims) := MarkAll(s, RangeByScore(s.claims, now, p.reclaim));
    (s1, Overdue(claims))
  }

  predicate Owned(s: Space, user: UserId, id: AdmissionId) {
    id in s.entries && s.entries[id].user == user
  }

  function Cancel(s: Space, user: UserId, id: AdmissionId, now: int): (Space, Reply) {
    if !Owned(s, user, id) then (s, Refusal(NotFound, None, None)) else
      var s1 := Expire(s, id, now);
      var e := s1.entries[id];
      if e.state == Consumed then (s1, Refusal(AlreadyConsumed, None, None))
      else if e.phase != Idle then (s1, Refusal(InProgress, None, None))
      else
        var s2 := if Live(e) then Terminal(s1, id, Cancelled, Some(AdmissionCancelled)) else s1;
        (s2, Snapshot(s2, id, false))
  }

  function Claim(s: Space, user: UserId, id: AdmissionId, fp: Fingerprint, token: Token, now: int, p: Profile): (Space, Reply) {
    if !Owned(s, user, id) then (s, Refusal(NotFound, None, None)) else
      var s1 := Expire(s, id, now);
      var e := s1.entries[id];
      if e.fingerprint.Some? && e.fingerprint.value != fp then (s1, Refusal(RequestMismatch, None, None))
      else match e.state
        case Waiting => (s1, Refusal(NotReady, None, None))
        case Consumed => (s1, Refusal(AlreadyConsumed, None, None))
        case Admitted =>
          if e.phase != Idle then
            if e.deadline.None? then (s1, Crashed)
            else if e.deadline.value <= now then (Mark(s1, id), Refusal(InProgress, None, None))
            else (s1, Snapshot(s1, id, false))
          else
            var s2 := StartClaim(s1, id, fp, token, now, p);
            (s2, Snapshot(s2, id, false))
        case _ => (s1, if e.reason.Some? then Refusal(e.reason.value, None, None) else Crashed)
  }

  predicate Matches(e: Entry, fp: Fingerprint, token: Token) {
    e.claimToken == Some(token) && e.fingerprint == Some(fp)
  }

  predicate Settled(e: Entry) {
    e.state == Consumed || e.state == Expired
  }

  function Complete(s: Space, user: UserId, id: AdmissionId, fp: Fingerprint, token: Token, outcome: Outcome): (Space, Reply) {
    if !Owned(s, user, id) then (s, Refusal(NotFound, None, None)) else
      var e := s.entries[id];
      if !Matches(e, fp, token) then (s, Refusal(RequestMismatch, None, None))
      else if Settled(e) then (s, Snapshot(s, id, false))
      else if !Claimed(e) then (s, Refusal(InProgress, None, None))
      else
        var s1 := Finish(s, id, outcome);
        (s1, Snapshot(s1, id, false))
  }

  function Close(s: Space, user: UserId, id: AdmissionId, fp: Fingerprint, token: Token): (Space, Reply) {
    if !Owned(s, user, id) then (s, Refusal(NotFound, None, None)) else
      var e := s.entries[id];
      if !Matches(e, fp, token) then (s, Refusal(RequestMismatch, None, None))
      else if Settled(e) then (s, Snapshot(s, id, false))
      else if !Claimed(e) then (s, Refusal(InProgress, None, None))
      else
        var s1 := Terminal(s, id, Expired, Some(AdmissionExpired));
        (s1, Snapshot(s1, id, false))
  }

  // ----- one call --------------------------------------------------------------------------

  datatype Op =
    | DoStatus(user: UserId)
    | DoJoin(user: UserId, join: JoinId, id: AdmissionId)
    | DoTick
    | DoReconcile
    | DoInspect(id: AdmissionId)
    | DoCancel(user: UserId, id: AdmissionId)
    | DoClaim(user: UserId, id: AdmissionId, fp: Fingerprint, token: Token)
    | DoComplete(user: UserId, id: AdmissionId, fp: Fingerprint, token: Token, outcome: Outcome)
    | DoClose(user: UserId, id: AdmissionId, fp: Fingerprint, token: Token)

  predicate Finalizing(op: Op) {
    op.DoComplete? || op.DoClose? || op.DoReconcile?
  }

  /** What a ready namespace does with an operation the per-user limiter let through. Past its end
      an epoch only finalizes what it already approved. */
  function Step(s: Space, op: Op, now: int, p: Profile): (Space, Reply) {
    if now >= s.endAt && !Finalizing(op) then (s, Refusal(Recovering, Some(1000), None)) else
      match op
      case DoStatus(user) => Status(s, user, now, p)
      case DoJoin(user, join, id) => Join(s, user, join, id, now, p)
      case DoTick => Tick(s, now, p)
      case DoReconcile => Reconcile(s, now, p)
      case DoInspect(id) => (s, if id in s.entries then Snapshot(s, id, false) else Answer(None, None, false))
      case DoCancel(user, id) => Cancel(s, user, id, now)
      case DoClaim(user, id, fp, token) => Claim(s, user, id, fp, token, now, p)
      case DoComplete(user, id, fp, token, outcome) => Complete(s, user, id, fp, token, outcome)
      case DoClose(user, id, fp, token) => Close(s, user, id, fp, token)
  }
}
