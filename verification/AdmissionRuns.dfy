/** The admission laws over whole runs of the script on one epoch. */
module AdmissionRuns {
  import opened AdmissionTypes
  import opened SortedSet
  import opened TransitionLog
  import opened AdmissionSpace
  import opened Agreement
  import opened ReplaySteps
  import opened AgreementSteps
  import opened AgreementOps
  import opened AgreementCalls

  // ----- one call --------------------------------------------------------------------------

  /** A join brings an id that nobody has. */
  predicate Fresh(s: Space, op: Op) {
    op.DoJoin? ==> op.id !in s.entries
  }

  /** Every entry is still there and changed only as an entry may. */
  ghost predicate Carried(s: Space, t: Space) {
    && t.epoch == s.epoch && t.endAt == s.endAt
    && forall id | id in s.entries :: id in t.entries && Evolves(s.entries[id], t.entries[id])
  }

  lemma QuietCarries(s: Space, t: Space)
    requires Quiet(s, t)
    ensures Carried(s, t)
  {}

  lemma ClaimCarries(s: Space, t: Space, user: UserId, id: AdmissionId, fp: Fingerprint, token: Token, now: int, r: Reply)
    requires ClaimOutcome(s, t, user, id, fp, token, now, r)
    ensures Carried(s, t)
  {}

  lemma FinishCarries(s: Space, t: Space, user: UserId, id: AdmissionId, fp: Fingerprint, token: Token, outcome: Outcome, r: Reply)
    requires FinishOutcome(s, t, user, id, fp, token, ConsumedBy(outcome), r) || FinishOutcome(s, t, user, id, fp, token, ClosedEntry(), r)
    ensures Carried(s, t)
  {}

  lemma InspectKeeps(s: Space, id: AdmissionId, now: int, p: Profile)
    requires Agreed(s, p, now)
    ensures KeptQuietly(s, (s, if id in s.entries then Snapshot(s, id, false) else Answer(None, None, false)), p, now)
  {
    hide Agreed; hide Snapshot;
    if id in s.entries { SnapshotAnswers(s, id, false, p, now); }
  }

  /** No call on an agreed namespace fails inside, and each leaves it agreed. */
  lemma StepKeeps(s: Space, op: Op, clock: int, now: int, p: Profile)
    requires Agreed(s, p, clock) && clock <= now && p.Valid() && Fresh(s, op)
    ensures var (t, r) := Step(s, op, now, p); Agreed(t, p, now) && !r.Crashed? && Carried(s, t)
  {
    hide Agreed; hide Quiet; hide Carried;
    hide Status; hide Join; hide Tick; hide Reconcile; hide Cancel; hide Claim; hide Complete; hide Close; hide Snapshot;
    hide ClaimOutcome;
    TimePasses(s, p, clock, now);
    QuietItself(s);
    QuietCarries(s, s);
    var (t, r) := Step(s, op, now, p);
    if now >= s.endAt && !Finalizing(op) {
    } else {
      match op {
        case DoStatus(user) => StatusKeeps(s, user, now, p); QuietCarries(s, t);
        case DoJoin(user, join, id) =>
          if join in s.joins { JoinAgainKeeps(s, user, join, id, now, p); } else { JoinNewKeeps(s, user, join, id, now, p); }
          QuietCarries(s, t);
        case DoTick => TickKeeps(s, now, p); QuietCarries(s, t);
        case DoReconcile => ReconcileKeeps(s, now, p); QuietCarries(s, t);
        case DoInspect(id) => InspectKeeps(s, id, now, p);
        case DoCancel(user, id) => CancelKeeps(s, user, id, now, p); QuietCarries(s, t);
        case DoClaim(user, id, fp, token) =>
          ClaimKeeps(s, user, id, fp, token, now, p);
          ClaimCarries(s, t, user, id, fp, token, now, r);
          ClaimIsNoCrash(s, t, user, id, fp, token, now, r);
        case DoComplete(user, id, fp, token, outcome) =>
          CompleteKeeps(s, user, id, fp, token, outcome, now, p);
          FinishCarries(s, t, user, id, fp, token, outcome, r);
        case DoClose(user, id, fp, token) =>
          CloseKeeps(s, user, id, fp, token, now, p);
          FinishCarries(s, t, user, id, fp, token, Outcome(Rejected, None, None), r);
      }
    }
  }

  lemma ClaimIsNoCrash(s: Space, t: Space, user: UserId, id: AdmissionId, fp: Fingerprint, token: Token, now: int, r: Reply)
    requires ClaimOutcome(s, t, user, id, fp, token, now, r)
    ensures !r.Crashed?
  {}

  lemma EmptyAgrees(epoch: Epoch, endAt: int, p: Profile, clock: int)
    requires p.Valid()
    ensures Agreed(EmptySpace(epoch, endAt), p, clock)
  {
    var s := EmptySpace(epoch, endAt);
    forall t ensures |LastSecond(s, t)| <= p.rate { assert LastSecond(s, t) == {}; }
    assert Counted([], s) by { forall low, high ensures CountIn([], low, high) == |PromotedIn(s, low, high)| { assert PromotedIn(s, low, high) == {}; } }
  }

  // ----- runs ------------------------------------------------------------------------------

  datatype Call = Call(now: int, op: Op)

  function Run(s: Space, calls: seq<Call>, p: Profile): Space
    decreases |calls|
  {
    if calls == [] then s else Run(Step(s, calls[0].op, calls[0].now, p).0, calls[1..], p)
  }

  /** The clock never goes back and every join id is new. */
  predicate Admissible(s: Space, calls: seq<Call>, clock: int, p: Profile)
    decreases |calls|
  {
    calls == [] ||
      (clock <= calls[0].now && Fresh(s, calls[0].op) &&
       Admissible(Step(s, calls[0].op, calls[0].now, p).0, calls[1..], calls[0].now, p))
  }

  function EndOf(calls: seq<Call>, clock: int): int {
    if calls == [] then clock else calls[|calls| - 1].now
  }

  lemma CarriedTwice(s: Space, t: Space, u: Space)
    requires Carried(s, t) && Carried(t, u)
    ensures Carried(s, u)
  {
    forall id | id in s.entries ensures id in u.entries && Evolves(s.entries[id], u.entries[id]) {
      assert Evolves(s.entries[id], t.entries[id]);
      assert Evolves(t.entries[id], u.entries[id]);
    }
  }

  /** From an agreed namespace, every run stays agreed, and entries only ever evolve. */
  lemma {:induction false} RunAgrees(s: Space, calls: seq<Call>, clock: int, p: Profile)
    requires Agreed(s, p, clock) && p.Valid() && Admissible(s, calls, clock, p)
    ensures Agreed(Run(s, calls, p), p, EndOf(calls, clock)) && Carried(s, Run(s, calls, p))
    decreases |calls|
  {
    hide Agreed; hide Carried; hide Step;
    if calls == [] {
      QuietItself(s);
      QuietCarries(s, s);
    } else {
      var t := Step(s, calls[0].op, calls[0].now, p).0;
      StepKeeps(s, calls[0].op, clock, calls[0].now, p);
      RunAgrees(t, calls[1..], calls[0].now, p);
      CarriedTwice(s, t, Run(t, calls[1..], p));
    }
  }

  // ----- what a run guarantees -------------------------------------------------------------

  ghost predicate Reached(s: Space, calls: seq<Call>, epoch: Epoch, endAt: int, clock: int, p: Profile) {
    p.Valid() && Admissible(EmptySpace(epoch, endAt), calls, clock, p) && s == Run(EmptySpace(epoch, endAt), calls, p)
  }

  lemma ReachedAgrees(s: Space, calls: seq<Call>, epoch: Epoch, endAt: int, clock: int, p: Profile)
    requires Reached(s, calls, epoch, endAt, clock, p)
    ensures Agreed(s, p, EndOf(calls, clock))
  {
    hide Agreed; hide Carried;
    EmptyAgrees(epoch, endAt, p, clock);
    RunAgrees(EmptySpace(epoch, endAt), calls, clock, p);
  }

  /** How an epoch came to where it is: when it was created, and the calls since. */
  datatype History = History(epoch: Epoch, endAt: int, start: int, calls: seq<Call>)

  /** The namespace after some history, no later than now. */
  ghost predicate At(s: Space, h: History, now: int, p: Profile) {
    Reached(s, h.calls, h.epoch, h.endAt, h.start, p) && EndOf(h.calls, h.start) <= now
  }

  lemma AtAgrees(s: Space, h: History, now: int, p: Profile)
    requires At(s, h, now, p)
    ensures Agreed(s, p, now) && p.Valid()
  {
    hide Agreed;
    ReachedAgrees(s, h.calls, h.epoch, h.endAt, h.start, p);
    TimePasses(s, p, EndOf(h.calls, h.start), now);
  }

  /** In every reachable state the integrity test passes and the next call raises no error, so the
      script never leaves its own dirty bit behind. */
  lemma NeverFenced(s: Space, calls: seq<Call>, epoch: Epoch, endAt: int, clock: int, next: Call, p: Profile)
    requires Reached(s, calls, epoch, endAt, clock, p) && EndOf(calls, clock) <= next.now && Fresh(s, next.op)
    ensures Structures(s) && !Step(s, next.op, next.now, p).1.Crashed?
  {
    hide Step; hide Carried; hide Reached; hide Indexed; hide Owning; hide Budgeted; hide Logged; hide Shaped;
    ReachedAgrees(s, calls, epoch, endAt, clock, p);
    assert p.Valid() by { ReachedIsValid(s, calls, epoch, endAt, clock, p); }
    StepKeeps(s, next.op, EndOf(calls, clock), next.now, p);
  }

  lemma ReachedIsValid(s: Space, calls: seq<Call>, epoch: Epoch, endAt: int, clock: int, p: Profile)
    requires Reached(s, calls, epoch, endAt, clock, p)
    ensures p.Valid()
  {}

  /** Slots in use and promotions of any one second stay within the profile. */
  lemma BudgetsHold(s: Space, calls: seq<Call>, epoch: Epoch, endAt: int, clock: int, p: Profile, t: int)
    requires Reached(s, calls, epoch, endAt, clock, p)
    ensures |s.active| <= p.capacity && |LastSecond(s, t)| <= p.rate
  {
    hide Indexed; hide Owning; hide Numbered; hide Logged; hide Shaped; hide Reached;
    ReachedAgrees(s, calls, epoch, endAt, clock, p);
  }

  function InState(s: Space, state: EntryState): set<AdmissionId> {
    set id | id in s.entries && s.entries[id].state == state
  }

  function Claims(s: Space): set<AdmissionId> {
    set id | id in s.entries && s.entries[id].state == Admitted && s.entries[id].phase != Idle
  }

  lemma IndexedSets(s: Space)
    requires Indexed(s)
    ensures s.waiting.Keys == InState(s, Waiting) && s.leases.Keys == InState(s, Waiting)
    ensures s.active.Keys == InState(s, Admitted) && s.claims.Keys == Claims(s)
  {
    forall id ensures id in s.waiting.Keys <==> id in InState(s, Waiting) { assert id in s.waiting <==> IsState(s, id, Waiting); }
    forall id ensures id in s.active.Keys <==> id in InState(s, Admitted) { assert id in s.active <==> IsState(s, id, Admitted); }
    forall id ensures id in s.claims.Keys <==> id in Claims(s) { assert id in s.claims <==> id in s.entries && Claimed(s.entries[id]); }
    forall id ensures id in s.leases.Keys <==> id in s.waiting.Keys { assert id in s.leases <==> id in s.waiting; }
  }

  /** The sorted sets are the entries of their state, no more and no less, under the score their
      readers rely on. */
  lemma IndexesAreTheEntries(s: Space, calls: seq<Call>, epoch: Epoch, endAt: int, clock: int, p: Profile)
    requires Reached(s, calls, epoch, endAt, clock, p)
    ensures s.waiting.Keys == InState(s, Waiting) && s.leases.Keys == InState(s, Waiting)
    ensures s.active.Keys == InState(s, Admitted) && s.claims.Keys == Claims(s)
    ensures forall id | id in s.waiting :: s.waiting[id] == s.entries[id].sequence
    ensures forall id | id in s.leases :: s.entries[id].expiresAt == Some(s.leases[id])
    ensures forall id | id in s.active :: s.entries[id].expiresAt == Some(s.active[id])
    ensures forall id | id in s.claims :: s.entries[id].deadline == Some(s.claims[id])
  {
    hide Owning; hide Numbered; hide Logged; hide Shaped; hide Budgeted; hide Reached; hide InState; hide Claims;
    ReachedAgrees(s, calls, epoch, endAt, clock, p);
    IndexedSets(s);
  }

  /** Each user has at most one live entry: the one `users` names, which is also the latest. */
  lemma OneLiveEntryEach(s: Space, calls: seq<Call>, epoch: Epoch, endAt: int, clock: int, p: Profile, a: AdmissionId, b: AdmissionId)
    requires Reached(s, calls, epoch, endAt, clock, p)
    requires a in s.entries && b in s.entries && s.entries[a].user == s.entries[b].user
    requires s.entries[a].state == Waiting || s.entries[a].state == Admitted
    ensures s.entries[a].user in s.users && s.users[s.entries[a].user] == a
    ensures s.entries[a].user in s.latest && s.latest[s.entries[a].user] == a
    ensures s.entries[b].sequence <= s.entries[a].sequence
    ensures s.entries[b].state == Waiting || s.entries[b].state == Admitted ==> a == b
  {
    hide Indexed; hide Numbered; hide Logged; hide Shaped; hide Budgeted; hide Reached;
    ReachedAgrees(s, calls, epoch, endAt, clock, p);
  }

  function SequencesOf(s: Space): set<int> {
    set id | id in s.entries :: s.entries[id].sequence
  }

  /** Sequences are given out once each and without a gap. */
  lemma SequencesFill(s: Space, calls: seq<Call>, epoch: Epoch, endAt: int, clock: int, p: Profile, k: int)
    requires Reached(s, calls, epoch, endAt, clock, p) && 1 <= k <= s.sequence
    ensures k in SequencesOf(s)
  {
    hide Indexed; hide Owning; hide Logged; hide Shaped; hide Budgeted; hide Reached;
    ReachedAgrees(s, calls, epoch, endAt, clock, p);
    DistinctValues(s.entries);
    NumbersUpTo(s.sequence);
    assert SequencesOf(s) <= Numbers(s.sequence);
    if k !in SequencesOf(s) {
      Fewer(SequencesOf(s), Numbers(s.sequence) - {k});
    }
  }

  function Numbers(n: int): set<int>
    decreases if n < 0 then 0 else n
  {
    if n <= 0 then {} else Numbers(n - 1) + {n}
  }

  lemma {:induction false} NumbersUpTo(n: int)
    requires 0 <= n
    ensures |Numbers(n)| == n && forall i :: i in Numbers(n) <==> 1 <= i <= n
    decreases n
  {
    if n > 0 { NumbersUpTo(n - 1); }
  }

  lemma {:induction false} DistinctValues(m: map<AdmissionId, Entry>)
    requires forall a, b | a in m && b in m && a != b :: m[a].sequence != m[b].sequence
    ensures |set id | id in m :: m[id].sequence| == |m|
    decreases |m|
  {
    var values := set id | id in m :: m[id].sequence;
    if m == map[] {
      assert values == {};
    } else {
      assert (forall x :: x !in m) ==> m == map[];
      var x :| x in m;
      var rest := m - {x};
      DropOne(m, x);
      DistinctValues(rest);
      var less := set id | id in rest :: rest[id].sequence;
      assert values == less + {m[x].sequence} by {
        forall v | v in values ensures v in less + {m[x].sequence} {
          var id :| id in m && m[id].sequence == v;
          if id != x { assert id in rest; }
        }
      }
      assert m[x].sequence !in less;
    }
  }

  /** A waiter's position is one more than the number of waiters registered before. */
  lemma PositionCountsAhead(s: Space, calls: seq<Call>, epoch: Epoch, endAt: int, clock: int, p: Profile, id: AdmissionId, created: bool)
    requires Reached(s, calls, epoch, endAt, clock, p) && id in s.entries && s.entries[id].state == Waiting
    ensures var r := Snapshot(s, id, created);
      r.Answer? &&
      r.position == Some(1 + |set x | x in s.entries && s.entries[x].state == Waiting && s.entries[x].sequence < s.entries[id].sequence|)
  {
    hide Owning; hide Logged; hide Shaped; hide Budgeted; hide Reached;
    ReachedAgrees(s, calls, epoch, endAt, clock, p);
    var ahead := set x | x in s.entries && s.entries[x].state == Waiting && s.entries[x].sequence < s.entries[id].sequence;
    assert (set x | x in s.waiting && Before(s.waiting, x, id)) == ahead;
  }
}
