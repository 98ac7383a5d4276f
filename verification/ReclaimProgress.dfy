/** What one uninterrupted reclaimer of an overdue claim comes to, and what an uninterrupted call under an
    admission that has its row comes to. */
module ReclaimProgress {
  import opened AdmissionTypes
  import opened SortedSet
  import opened AdmissionSpace
  import opened AdmissionControl
  import opened Agreement
  import opened AgreementOps
  import opened AgreementCalls
  import opened AdmissionAnswers
  import opened Protocol
  import opened Reflection
  import opened ProtocolInvariant
  import opened ProtocolRuns
  import opened PurchaseProgress
  import opened LaterCalls
  import Recovery

  // ----- the reclaimer ---------------------------------------------------------------------

  lemma ReconcileIs(s: Space, now: int, p: Profile)
    ensures Step(s, DoReconcile, now, p) == Reconcile(s, now, p)
  {
    hide Reconcile;
  }

  /** The claims that the script hands over now. */
  function Handed(s: Sys, e: Epoch, p: Profile): seq<Entry>
    requires e in s.content
  {
    var r := Reconcile(s.content[e], s.clock, p).1;
    if r.Overdue? then r.claims else []
  }

  lemma HandedIs(s: Space, now: int, p: Profile, i: nat)
    requires Agreed(s, p, now)
    ensures var (t, r) := Reconcile(s, now, p);
      && r.Overdue? && Agreed(t, p, now) && t.epoch == s.epoch
      && (i < |r.claims| ==>
            var x := r.claims[i];
            && x.id in t.entries && t.entries[x.id] == x && x.epoch == t.epoch && x.fingerprint.Some? && x.claimToken.Some?
            && x.state == Admitted && x.phase == Reconciling && x.deadline.Some? && x.deadline.value <= now)
  {
    hide Agreed; hide Reconcile; hide Claimed; hide Quiet;
    ReconcileKeeps(s, now, p);
    OverdueAreBound(s, now, p);
    var (t, r) := Reconcile(s, now, p);
    if i < |r.claims| { ReclaimableIs(t, r.claims, now, i); }
    QuietEpoch(s, t);
    MarkedReconciling(s, now, p, i);
  }

  lemma QuietEpoch(s: Space, t: Space)
    requires Quiet(s, t)
    ensures t.epoch == s.epoch
  {}

  lemma ReclaimableIs(t: Space, claims: seq<Entry>, now: int, i: nat)
    requires Reclaimable(t, claims, now) && i < |claims|
    ensures claims[i].state == Admitted && claims[i].deadline.Some? && claims[i].deadline.value <= now
  {}

  lemma MarkedReconciling(s: Space, now: int, p: Profile, i: nat)
    requires Agreed(s, p, now)
    ensures var r := Reconcile(s, now, p).1; r.Overdue? && i < |r.claims| ==> r.claims[i].phase == Reconciling
  {
    hide Agreed; hide RangeByScore; hide MarkAll;
    var ids := RangeByScore(s.claims, now, p.reclaim);
    FirstOverdue(s.claims, now, p.reclaim);
    ClaimsAre(s, p, now);
    assert forall id | id in s.claims :: id in s.entries;
    forall k | 0 <= k < |ids| ensures ids[k] in s.entries { assert ids[k] in s.claims; }
    MarkAllMarks(s, ids);
    var es := MarkAll(s, ids).1;
    assert Reconcile(s, now, p).1 == Overdue(es);
    if i < |es| { assert es[i] == s.entries[ids[i]].(phase := Reconciling); }
  }

  /** The claim was handed over, and this process goes on with it. */
  ghost predicate Taking(s: Sys, t: Sys, pid: Pid, e: Epoch, x: Entry, p: Profile) {
    && e in t.content && Agreed(t.content[e], p, s.clock) && x.epoch == e && x.id in t.content[e].entries && t.content[e].entries[x.id] == x
    && x.fingerprint.Some? && x.claimToken.Some? && x.state == Admitted && x.phase == Reconciling && x.deadline.Some? && x.deadline.value <= s.clock
    && t == s.(procs := s.procs[pid := Late(x)], content := s.content[e := t.content[e]])
  }

  lemma TakeIs(s: Sys, pid: Pid, e: Epoch, i: nat, p: Profile)
    requires ProcOf(s, pid) == Finished
    ensures Next(s, TakeOverdue(pid, e, i), p) == TakeStep(s, pid, Finished, e, i, p)
  {
    hide TakeStep; hide Calling;
  }

  lemma TakesOverdue(s: Sys, pid: Pid, e: Epoch, i: nat, p: Profile)
    requires Inv(s, p) && ProcOf(s, pid) == Finished && InService(s, e) && i < |Handed(s, e, p)|
    ensures Taking(s, Next(s, TakeOverdue(pid, e, i), p), pid, e, Handed(s, e, p)[i], p)
  {
    hide Next; hide Inv; hide Agreed; hide Calling; hide Reconcile; hide Step; hide ProcOf;
    ContentAgrees(s, e, p);
    ContentEpoch(s, e, p);
    HandedIs(s.content[e], s.clock, p, i);
    ServedOp(s, e, DoReconcile, p);
    ReconcileIs(s.content[e], s.clock, p);
    TakeIs(s, pid, e, i, p);
  }

  lemma ContentEpoch(s: Sys, e: Epoch, p: Profile)
    requires Inv(s, p) && e in s.content
    ensures s.content[e].epoch == e
  {}

  /** The claim `x` in the open epoch of the policy, overdue and nobody else's to decide. */
  predicate Undecided(s: Sys, x: Entry) {
    && s.rec.policy.protected && s.rec.policy.epoch == x.epoch && s.rec.gate.None? && x.id !in s.locks
    && x.fingerprint.Some? && x.claimToken.Some?
  }

  lemma GuardsAndLocks(s: Sys, pid: Pid, x: Entry, p: Profile)
    requires ProcOf(s, pid) == Late(x) && Undecided(s, x)
    ensures Next(Next(s, Guard(pid), p), TryLock(pid), p)
      == s.(procs := s.procs[pid := Sole(x)], shared := s.shared + {pid}, locks := s.locks[x.id := pid])
  {
    var s1 := Next(s, Guard(pid), p);
    assert ProcOf(s1, pid) == Guarded(x) && s1 == s.(procs := s.procs[pid := Guarded(x)], shared := s.shared + {pid});
    assert s1.procs[pid := Sole(x)] == s.procs[pid := Sole(x)];
  }

  /** The row the reclaimer commits: the claim's own request, closed. */
  function ClosureOf(x: Entry): Row
    requires x.fingerprint.Some?
  {
    Row(x.id, x.user, x.fingerprint.value.event, x.epoch, x.fingerprint.value.operation, x.fingerprint.value, ClosedRow)
  }

  lemma ReadIs(s: Sys, pid: Pid, p: Profile)
    ensures Next(s, ReadLedger(pid), p) == ReadStep(s, pid, ProcOf(s, pid))
  {
    hide ProcOf; hide ReadStep;
  }

  lemma CloseIs(s: Sys, pid: Pid, p: Profile)
    ensures Next(s, CommitClosed(pid), p) == CloseStep(s, pid, ProcOf(s, pid))
  {
    hide ProcOf; hide CloseStep;
  }

  lemma ReadsAndCloses(s: Sys, pid: Pid, x: Entry, p: Profile)
    requires ProcOf(s, pid) == Sole(x) && x.fingerprint.Some?
    ensures var t := Next(Next(s, ReadLedger(pid), p), CommitClosed(pid), p);
      var row := if x.id in s.ledger then s.ledger[x.id] else ClosureOf(x);
      t == s.(ledger := s.ledger[x.id := row], procs := s.procs[pid := Reflecting(x, row)], shared := s.shared - {pid}, locks := s.locks - {x.id})
  {
    var s1 := Next(s, ReadLedger(pid), p);
    ReadIs(s, pid, p);
    CloseIs(s1, pid, p);
    hide Next;
    if x.id in s.ledger {
      assert ProcOf(s1, pid) == Reflecting(x, s.ledger[x.id]);
      assert s.ledger[x.id := s.ledger[x.id]] == s.ledger;
    } else {
      assert ProcOf(s1, pid) == Closing(x) && s1 == s.(procs := s.procs[pid := Closing(x)]);
      assert s1.procs[pid := Reflecting(x, ClosureOf(x))] == s.procs[pid := Reflecting(x, ClosureOf(x))];
    }
  }

  /** The entry as its row says it ended. */
  function Reflected(x: Entry, row: Row): Entry {
    if row.result.ClosedRow? then x.(state := Expired, phase := Idle, expiresAt := None, reason := Some(AdmissionExpired))
    else x.(state := Consumed, phase := Idle, expiresAt := None, reason := None,
            outcome := Some(if row.result.ConsumedRow? then Outcome(Bought(row.operation), Some(row.result.resource), None)
                            else Outcome(OutcomeKind.Rejected, None, Some(row.result.code))))
  }

  lemma FinalStepIs(s: Space, x: Entry, row: Row, now: int, p: Profile)
    requires Agreed(s, p, now) && x.id in s.entries && s.entries[x.id] == x && x.state == Admitted && x.phase != Idle
    requires x.fingerprint.Some? && x.claimToken.Some?
    ensures var t := Step(s, FinalOp(x, row), now, p).0;
      t.entries == s.entries[x.id := Reflected(x, row)] && x.id !in t.active
  {
    hide Agreed; hide Snapshot; hide Retire;
    var user, id, fp, token := x.user, x.id, x.fingerprint.value, x.claimToken.value;
    if row.result.ClosedRow? {
      CloseKeeps(s, user, id, fp, token, now, p);
      hide Close; hide Complete;
      assert Step(s, FinalOp(x, row), now, p) == Close(s, user, id, fp, token);
    } else {
      CompleteKeeps(s, user, id, fp, token, OutcomeOf(row), now, p);
      hide Close; hide Complete;
      assert Step(s, FinalOp(x, row), now, p) == Complete(s, user, id, fp, token, OutcomeOf(row));
    }
    NotActive(Step(s, FinalOp(x, row), now, p).0, id, p, now);
  }

  lemma NotActive(s: Space, id: AdmissionId, p: Profile, now: int)
    requires Agreed(s, p, now) && id in s.entries && s.entries[id].state != Admitted
    ensures id !in s.active
  {
    hide Shaped; hide Owning; hide Numbered; hide Budgeted; hide Logged; hide WaitingIndexed; hide ClaimsIndexed;
    assert id in s.active <==> IsState(s, id, Admitted);
  }

  lemma Reflects(s: Sys, pid: Pid, x: Entry, row: Row, p: Profile)
    requires ProcOf(s, pid) == Reflecting(x, row) && InService(s, x.epoch) && Agreed(s.content[x.epoch], p, s.clock)
    requires x.id in s.content[x.epoch].entries && s.content[x.epoch].entries[x.id] == x && x.state == Admitted && x.phase != Idle
    requires x.fingerprint.Some? && x.claimToken.Some?
    ensures var t := Next(s, Reflect(pid, Heard), p);
      && x.epoch in t.content && t.content[x.epoch].entries == s.content[x.epoch].entries[x.id := Reflected(x, row)] && x.id !in t.content[x.epoch].active
      && t == s.(procs := s.procs[pid := Finished], content := s.content[x.epoch := t.content[x.epoch]])
  {
    hide Agreed; hide Step; hide Calling;
    FinalStepIs(s.content[x.epoch], x, row, s.clock, p);
    ServedOp(s, x.epoch, FinalOp(x, row), p);
    assert Next(s, Reflect(pid, Heard), p) == Go(Calling(s, x.epoch, FinalOp(x, row), p).0, pid, Finished);
  }

  function Reclaiming(pid: Pid, e: Epoch, i: nat): seq<Act> {
    [TakeOverdue(pid, e, i)] + [Guard(pid), TryLock(pid)] + [ReadLedger(pid), CommitClosed(pid)] + [Reflect(pid, Heard)]
  }

  /** Decided by this row: committed, the slot free, the entry ended as the row says, nothing else touched. */
  ghost predicate Decided(s: Sys, t: Sys, pid: Pid, x: Entry, row: Row) {
    && t.ledger == s.ledger[x.id := row] && t.resources == s.resources && t.answers == s.answers && t.locks == s.locks && pid !in t.shared
    && HasEntry(t, x.epoch, x.id) && t.content[x.epoch].entries[x.id] == Reflected(x, row) && x.id !in t.content[x.epoch].active
  }

  lemma Decides(s: Sys, s1: Sys, pid: Pid, x: Entry, p: Profile)
    requires Taking(s, s1, pid, x.epoch, x, p) && InService(s, x.epoch) && Undecided(s, x)
    ensures var s3 := Next(Next(s1, Guard(pid), p), TryLock(pid), p);
      var s5 := Next(Next(s3, ReadLedger(pid), p), CommitClosed(pid), p);
      Decided(s, Next(s5, Reflect(pid, Heard), p), pid, x, if x.id in s.ledger then s.ledger[x.id] else ClosureOf(x))
  {
    hide Next; hide Agreed; hide InService; hide Reflected;
    GuardsAndLocks(s1, pid, x, p);
    var s3 := Next(Next(s1, Guard(pid), p), TryLock(pid), p);
    ReadsAndCloses(s3, pid, x, p);
    var s5 := Next(Next(s3, ReadLedger(pid), p), CommitClosed(pid), p);
    StillInService(s, s5, x.epoch);
    Reflects(s5, pid, x, if x.id in s.ledger then s.ledger[x.id] else ClosureOf(x), p);
    assert s.locks[x.id := pid] - {x.id} == s.locks;
  }

  /** A reclaimer that nobody interrupts decides an overdue claim: it commits the closure of the claim's
      own request, or finds the row that is there, and frees the slot with the entry ended as the row says. */
  lemma ReclaimerFreesSlot(s: Sys, pid: Pid, e: Epoch, i: nat, p: Profile)
    requires Inv(s, p) && ProcOf(s, pid) == Finished && InService(s, e) && i < |Handed(s, e, p)|
    requires s.rec.policy.protected && s.rec.policy.epoch == e && s.rec.gate.None? && Handed(s, e, p)[i].id !in s.locks
    ensures var x := Handed(s, e, p)[i];
      && x.epoch == e && x.fingerprint.Some? && x.deadline.Some? && x.deadline.value <= s.clock
      && Decided(s, Run(s, Reclaiming(pid, e, i), p), pid, x, if x.id in s.ledger then s.ledger[x.id] else ClosureOf(x))
  {
    assert e in s.content;
    hide Next; hide Run; hide Inv; hide Agreed; hide Handed; hide InService; hide Decided;
    var x := Handed(s, e, p)[i];
    TakesOverdue(s, pid, e, i, p);
    var s1 := Next(s, TakeOverdue(pid, e, i), p);
    RunOne(s, TakeOverdue(pid, e, i), p);
    RunTwo(s1, Guard(pid), TryLock(pid), p);
    var s3 := Next(Next(s1, Guard(pid), p), TryLock(pid), p);
    RunTwo(s3, ReadLedger(pid), CommitClosed(pid), p);
    RunOne(Next(Next(s3, ReadLedger(pid), p), CommitClosed(pid), p), Reflect(pid, Heard), p);
    RunConcat(s, [TakeOverdue(pid, e, i)], [Guard(pid), TryLock(pid)], p);
    RunConcat(s, [TakeOverdue(pid, e, i)] + [Guard(pid), TryLock(pid)], [ReadLedger(pid), CommitClosed(pid)], p);
    RunConcat(s, [TakeOverdue(pid, e, i)] + [Guard(pid), TryLock(pid)] + [ReadLedger(pid), CommitClosed(pid)], [Reflect(pid, Heard)], p);
    Decides(s, s1, pid, x, p);
  }

  lemma StillInService(s: Sys, t: Sys, e: Epoch)
    requires InService(s, e) && t.rec == s.rec && e in t.content
    ensures InService(t, e)
  {}

  // ----- a call under an admission with its row --------------------------------------------

  lemma BeginsWithRow(s: Sys, pid: Pid, c: Command, again: bool, p: Profile)
    requires ProcOf(s, pid) == Submitted(c, again) && c.operation == ReservationOp && s.rec.gate.None?
    ensures Next(Next(s, Begin(pid), p), Gate(pid), p)
      == s.(procs := s.procs[pid := Gated(c, again, Snap(s.ledger, s.resources, s.version), s.rec.policy)], shared := s.shared + {pid})
  {
    var q := Open(c, again, Snap(s.ledger, s.resources, s.version));
    var s1 := Next(s, Begin(pid), p);
    assert s1 == Go(s, pid, q) && ProcOf(s1, pid) == q;
    assert Next(s1, Gate(pid), p) == GateStep(s1, pid, q);
    assert s1.procs[pid := Gated(c, again, q.snap, s.rec.policy)] == s.procs[pid := Gated(c, again, q.snap, s.rec.policy)];
  }

  lemma LocksWithRow(s: Sys, pid: Pid, c: Command, again: bool, snap: Snap, p: Profile)
    requires ProcOf(s, pid) == Gated(c, again, snap, s.rec.policy) && c.admission.Some? && c.admission.value.id !in s.locks
    ensures Next(s, LockAdmission(pid), p)
      == s.(procs := s.procs[pid := Locked(c, again, snap, s.rec.policy)], locks := s.locks[c.admission.value.id := pid])
  {}

  lemma TellIs(s: Sys, pid: Pid, c: Command, again: bool, snap: Snap, reply: Result)
    requires ProcOf(s, pid) == Locked(c, again, snap, s.rec.policy) && c.admission.Some?
    ensures Tell(s, pid, c, reply) == s.(procs := s.procs[pid := Finished], shared := s.shared - {pid},
      locks := s.locks - {c.admission.value.id}, answers := s.answers + [Answered(c, reply)])
  {}

  lemma JudgesRow(s: Sys, pid: Pid, c: Command, again: bool, snap: Snap, p: Profile)
    requires ProcOf(s, pid) == Gated(c, again, snap, s.rec.policy) && Judged(s, c) && c.admission.value.id !in s.locks
    requires LedgerOk(s) && SnapOk(s, snap) && Known(snap.ledger, c)
    ensures var t := Next(Next(s, LockAdmission(pid), p), Judge(pid), p);
      && t.answers == s.answers + [Answered(c, RowVerdict(s, c))] && t.ledger == s.ledger && t.resources == s.resources
      && t.locks == s.locks && pid !in t.shared && ProcOf(t, pid) == Finished
  {
    hide Next; hide LedgerOk; hide SnapOk; hide RowVerdict; hide JudgeStep; hide Tell;
    LocksWithRow(s, pid, c, again, snap, p);
    var s1 := Next(s, LockAdmission(pid), p);
    SameLedger(s, s1);
    SameSnap(s, s1, snap);
    SameVerdict(s, s1, c);
    JudgeIsNext(s1, pid, p);
    JudgeIs(s1, pid, Locked(c, again, snap, s.rec.policy));
    TellIs(s1, pid, c, again, snap, RowVerdict(s, c));
    assert s.locks[c.admission.value.id := pid] - {c.admission.value.id} == s.locks;
  }

  lemma SameVerdict(s: Sys, t: Sys, c: Command)
    requires Known(s.ledger, c) && t.ledger == s.ledger
    ensures RowVerdict(t, c) == RowVerdict(s, c)
  {}

  lemma SameLedger(s: Sys, t: Sys)
    requires LedgerOk(s) && t.ledger == s.ledger && t.resources == s.resources && t.content == s.content
    ensures LedgerOk(t)
  {
    forall a | a in t.ledger ensures RowOk(t, a, t.ledger[a]) { assert RowOk(s, a, s.ledger[a]); }
  }

  lemma SnapOfNow(s: Sys, p: Profile)
    requires Inv(s, p)
    ensures LedgerOk(s) && SnapOk(s, Snap(s.ledger, s.resources, s.version))
  {
    assert LedgerOk(s);
    hide Inv;
    forall a | a in s.ledger && s.ledger[a].result.ConsumedRow? ensures s.ledger[a].result.resource in s.resources { assert RowOk(s, a, s.ledger[a]); }
  }

  /** With gate and lock free, a reservation under an admission that has its row is answered by the row. */
  lemma RowAnswers(s: Sys, pid: Pid, c: Command, again: bool, p: Profile)
    requires Inv(s, p) && Judged(s, c) && ProcOf(s, pid) == Submitted(c, again) && s.rec.gate.None? && c.admission.value.id !in s.locks
    ensures var t := Run(s, Opening(pid), p);
      && t.answers == s.answers + [Answered(c, RowVerdict(s, c))] && t.ledger == s.ledger && t.resources == s.resources
      && t.locks == s.locks && pid !in t.shared && ProcOf(t, pid) == Finished
  {
    hide Next; hide Run; hide RowVerdict; hide SnapOk; hide LedgerOk;
    SnapOfNow(s, p);
    hide Inv;
    BeginsWithRow(s, pid, c, again, p);
    RunTwo(s, Begin(pid), Gate(pid), p);
    var s2 := Next(Next(s, Begin(pid), p), Gate(pid), p);
    var snap := Snap(s.ledger, s.resources, s.version);
    SameLedger(s, s2);
    SameSnap(s, s2, snap);
    SameVerdict(s, s2, c);
    JudgesRow(s2, pid, c, again, snap, p);
    RunTwo(s2, LockAdmission(pid), Judge(pid), p);
    RunConcat(s, [Begin(pid), Gate(pid)], [LockAdmission(pid), Judge(pid)], p);
  }

  lemma SameSnap(s: Sys, t: Sys, snap: Snap)
    requires SnapOk(s, snap) && t.ledger == s.ledger && t.resources == s.resources
    ensures SnapOk(t, snap)
  {}

  /** After a refusal during which a row was committed, the call begins again, and so is answered by it. */
  lemma DoubtStartsAgain(s: Sys, pid: Pid, c: Command, code: Code, p: Profile)
    requires ProcOf(s, pid) == Doubting(c, false, code) && Known(s.ledger, c)
    ensures Next(s, Confirm(pid), p) == s.(procs := s.procs[pid := Submitted(c, true)])
  {}
}
