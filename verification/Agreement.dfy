/** What holds of an epoch's keys between any two calls of the script: entries are well shaped, every
    index is exactly what the entries say, numbers and budgets are kept, and the log is clean. */
module Agreement {
  import opened AdmissionTypes
  import opened SortedSet
  import opened TransitionLog
  import opened AdmissionSpace

  // ----- shape of one entry ----------------------------------------------------------------

  predicate Bound(e: Entry) {
    e.fingerprint.Some? && e.claimToken.Some? && e.deadline.Some?
  }

  predicate Unbound(e: Entry) {
    e.fingerprint.None? && e.claimToken.None? && e.deadline.None?
  }

  predicate EntryOk(e: Entry, p: Profile, clock: int) {
    && e.joinedAt <= clock
    && (e.admittedAt.Some? ==> e.admittedAt.value <= clock)
    && (e.state != Admitted ==> e.phase == Idle)
    && match e.state
       case Waiting => e.admittedAt.None? && e.expiresAt.Some? && Unbound(e) && e.outcome.None? && e.reason.None?
       case Admitted =>
         && e.admittedAt.Some? && e.expiresAt == Some(e.admittedAt.value + p.ttlMs)
         && e.outcome.None? && e.reason.None?
         && (if e.phase == Idle then Unbound(e) else Bound(e))
       case Consumed => e.admittedAt.Some? && e.expiresAt.None? && Bound(e) && e.outcome.Some? && e.reason.None?
       case Cancelled => e.expiresAt.None? && Unbound(e) && e.outcome.None? && e.reason == Some(AdmissionCancelled)
       case Expired =>
         && e.expiresAt.None? && e.outcome.None? && e.reason == Some(AdmissionExpired)
         && (Unbound(e) || (Bound(e) && e.admittedAt.Some?))
  }

  ghost predicate Shaped(s: Space, p: Profile, clock: int) {
    forall id | id in s.entries ::
      s.entries[id].id == id && s.entries[id].epoch == s.epoch && EntryOk(s.entries[id], p, clock)
  }

  // ----- indexes ---------------------------------------------------------------------------

  /** The line: waiting entries by sequence, and the same entries by the end of their lease. */
  ghost predicate WaitingIndexed(s: Space) {
    && (forall id :: id in s.waiting <==> IsState(s, id, Waiting))
    && (forall id | id in s.waiting :: s.waiting[id] == s.entries[id].sequence)
    && (forall id :: id in s.leases <==> id in s.waiting)
    && (forall id | id in s.leases :: s.entries[id].expiresAt == Some(s.leases[id]))
  }

  ghost predicate ActiveIndexed(s: Space) {
    && (forall id :: id in s.active <==> IsState(s, id, Admitted))
    && (forall id | id in s.active :: s.entries[id].expiresAt == Some(s.active[id]))
  }

  ghost predicate ClaimsIndexed(s: Space) {
    && (forall id :: id in s.claims <==> id in s.entries && Claimed(s.entries[id]))
    && (forall id | id in s.claims :: s.entries[id].deadline == Some(s.claims[id]))
  }

  /** Each sorted set is exactly the entries of its state, with the score its readers rely on. */
  ghost predicate Indexed(s: Space) {
    WaitingIndexed(s) && ActiveIndexed(s) && ClaimsIndexed(s)
  }

  /** `users` names each user's only live entry, and that entry is also the user's latest. */
  ghost predicate UsersOwn(s: Space) {
    && (forall id | id in s.entries && Live(s.entries[id]) :: s.entries[id].user in s.users && s.users[s.entries[id].user] == id)
    && (forall u | u in s.users :: s.users[u] in s.entries && Live(s.entries[s.users[u]]) && s.entries[s.users[u]].user == u)
    && (forall u | u in s.users :: u in s.latest && s.latest[u] == s.users[u])
  }

  /** `latest` names each user's entry of the highest sequence. */
  ghost predicate LatestOwn(s: Space) {
    && (forall u | u in s.latest :: s.latest[u] in s.entries && s.entries[s.latest[u]].user == u)
    && (forall id | id in s.entries :: s.entries[id].user in s.latest)
    && (forall id | id in s.entries :: s.entries[id].sequence <= s.entries[s.latest[s.entries[id].user]].sequence)
  }

  /** Every join key names an entry of its own. */
  ghost predicate JoinsOwn(s: Space) {
    && (forall j | j in s.joins :: s.joins[j] in s.entries)
    && (forall j, k | j in s.joins && k in s.joins && j != k :: s.joins[j] != s.joins[k])
  }

  ghost predicate Owning(s: Space) {
    UsersOwn(s) && LatestOwn(s) && JoinsOwn(s)
  }

  ghost predicate Numbered(s: Space, p: Profile) {
    && (forall id | id in s.entries :: 1 <= s.entries[id].sequence <= s.sequence)
    && (forall a, b | a in s.entries && b in s.entries && a != b :: s.entries[a].sequence != s.entries[b].sequence)
    && 0 <= s.sequence <= p.maxEntries
    && Structures(s)
  }

  // ----- budgets ---------------------------------------------------------------------------

  function PromotedIn(s: Space, low: int, high: int): set<AdmissionId> {
    set id | id in s.entries && s.entries[id].admittedAt.Some? && low < s.entries[id].admittedAt.value <= high
  }

  /** The promotions of the second that ends at t: (t - 1000, t]. */
  function LastSecond(s: Space, t: int): set<AdmissionId> {
    PromotedIn(s, t - 1000, t)
  }

  ghost predicate RateHeld(s: Space, p: Profile) {
    forall t :: |LastSecond(s, t)| <= p.rate
  }

  ghost predicate Budgeted(s: Space, p: Profile, clock: int) {
    && |s.active| <= p.capacity
    && |s.waiting| <= p.maxWaiting
    && (forall id | id in s.window :: id in s.entries && s.entries[id].admittedAt == Some(s.window[id]))
    && (forall id | id in s.entries && s.entries[id].admittedAt.Some? && s.entries[id].admittedAt.value > clock - 1000 :: id in s.window)
    && RateHeld(s, p)
  }

  // ----- the log ---------------------------------------------------------------------------

  /** The instants the checker collected are those of the entries. */
  ghost predicate Counted(window: seq<int>, s: Space) {
    forall low, high :: CountIn(window, low, high) == |PromotedIn(s, low, high)|
  }

  /** The checker holds the same sets, and nobody is between the line and a slot. */
  predicate LineFits(l: Line, s: Space) {
    && l.waiting == s.waiting && l.active == s.active.Keys && l.claims == s.claims.Keys
    && l.left == map[] && (forall q | q in l.sequences :: q <= s.sequence)
  }

  ghost predicate PromotedFits(l: Line, s: Space) {
    forall id :: id in l.promoted <==> id in s.entries && s.entries[id].admittedAt.Some?
  }

  /** Slots it still has to judge were freed by entries that ended and hold no claim. */
  predicate UnslottedFits(c: Checker, l: Line, s: Space) {
    forall u | u in c.unslotted :: u.0 == s.epoch && u.1 !in l.claims && u.1 in s.entries && !Live(s.entries[u.1])
  }

  /** The checker, run over the log so far, has found nothing and holds the same sets. */
  ghost predicate Logged(s: Space, p: Profile) {
    var c := Replay(s.log, p);
    var l := LineOf(c, s.epoch);
    c.violations == [] && LineFits(l, s) && PromotedFits(l, s) && UnslottedFits(c, l, s) && Counted(l.window, s)
  }

  ghost predicate Agreed(s: Space, p: Profile, clock: int) {
    Shaped(s, p, clock) && Indexed(s) && Owning(s) && Numbered(s, p) && Budgeted(s, p, clock) && Logged(s, p)
  }
}
