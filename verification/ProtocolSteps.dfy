/** Every action keeps the invariant of the purchase protocol. */
module ProtocolSteps {
  import opened AdmissionTypes
  import opened AdmissionSpace
  import opened AdmissionControl
  import opened Agreement
  import opened AgreementOps
  import opened AdmissionRuns
  import opened Protocol
  import opened Reflection
  import opened ProtocolInvariant
  import Recovery

  // ----- moves of one process --------------------------------------------------------------

  /** Only where process `pid` stands differs. */
  predicate Moved(s: Sys, t: Sys, pid: Pid, q: Proc) {
    t == s.(procs := s.procs[pid := q], shared := t.shared, locks := t.locks)
  }

  lemma MovedStores(s: Sys, t: Sys, pid: Pid, q: Proc, p: Profile)
    requires Moved(s, t, pid, q) && StoresOk(s, p)
    ensures StoresOk(t, p) && Grows(s, t)
  {
    hide Agreed; hide AllFit; hide Recovery.Inv; hide EverReady;
    assert forall x: Entry :: Evolves(x, x);
    forall a | a in t.ledger ensures RowOk(t, a, t.ledger[a]) { assert RowOk(s, a, s.ledger[a]); }
  }

  lemma MovedProcs(s: Sys, t: Sys, pid: Pid, q: Proc, p: Profile)
    requires Moved(s, t, pid, q) && Grows(s, t) && ProcsOk(s) && AnswersOk(s) && ProcOk(s, q)
    ensures ProcsOk(t) && AnswersOk(t)
  {
    hide Grows; hide ProcOk;
    forall x | x in t.procs ensures ProcOk(t, t.procs[x]) {
      if x == pid { GrowsProc(s, t, q); } else { GrowsProc(s, t, s.procs[x]); }
    }
    GrowsAnswers(s, t);
  }

  lemma StoresOfInv(s: Sys, p: Profile)
    requires Inv(s, p)
    ensures StoresOk(s, p) && GateOk(s) && LocksOk(s) && ProcsOk(s) && AnswersOk(s)
  {}

  lemma InvOfStores(s: Sys, p: Profile)
    requires StoresOk(s, p) && GateOk(s) && LocksOk(s) && ProcsOk(s) && AnswersOk(s)
    ensures Inv(s, p)
  {}

  lemma MoveKeeps(s: Sys, t: Sys, pid: Pid, q: Proc, p: Profile)
    requires Inv(s, p) && Moved(s, t, pid, q) && ProcOk(s, q) && GateOk(t) && LocksOk(t)
    ensures Inv(t, p)
  {
    hide Inv; hide StoresOk; hide GateOk; hide LocksOk; hide ProcsOk; hide AnswersOk; hide ProcOk; hide Moved; hide Grows;
    StoresOfInv(s, p);
    MovedStores(s, t, pid, q, p);
    MovedProcs(s, t, pid, q, p);
    InvOfStores(t, p);
  }

  /** A step that neither takes nor frees a gate or a lock. */
  lemma GoKeeps(s: Sys, pid: Pid, q: Proc, p: Profile)
    requires Inv(s, p) && ProcOk(s, q) && Holding(q) == Holding(ProcOf(s, pid)) && LockOf(q) == LockOf(ProcOf(s, pid))
    ensures Inv(Go(s, pid, q), p)
  {
    assert GateOk(Go(s, pid, q)) && LocksOk(Go(s, pid, q)) by {
      hide StoresOk; hide ContentOk; hide Populated; hide LedgerOk; hide ProcsOk; hide AnswersOk; hide ProcOk; hide Recovery.Inv; hide Holding; hide LockOf;
      NothingHeld();
    }
    hide Inv; hide ProcOk; hide GateOk; hide LocksOk;
    MoveKeeps(s, Go(s, pid, q), pid, q, p);
  }

  lemma NothingHeld()
    ensures !Holding(Finished) && LockOf(Finished) == None
  {}

  lemma EndKeeps(s: Sys, pid: Pid, q: Proc, p: Profile)
    requires Inv(s, p) && ProcOk(s, q) && !Holding(q) && LockOf(q) == None
    ensures Inv(End(s, pid, q), p)
  {
    var t := End(s, pid, q);
    assert GateOk(t) && LocksOk(t) by {
      hide StoresOk; hide ContentOk; hide Populated; hide LedgerOk; hide ProcsOk; hide AnswersOk; hide ProcOk; hide Recovery.Inv; hide Holding; hide LockOf;
      NothingHeld();
    }
    hide Inv; hide ProcOk; hide GateOk; hide LocksOk;
    MoveKeeps(s, t, pid, q, p);
  }

  lemma AnswerKeeps(s: Sys, pid: Pid, cmd: Command, reply: Result, p: Profile)
    requires Inv(s, p) && AnswerOk(s, Answered(cmd, reply))
    ensures Inv(Tell(s, pid, cmd, reply), p)
  {
    EndKeeps(s, pid, Finished, p);
    var t := End(s, pid, Finished);
    RecordKeeps(t, Answered(cmd, reply), p);
  }

  lemma RecordKeeps(s: Sys, a: Answered, p: Profile)
    requires Inv(s, p) && AnswerOk(s, a)
    ensures Inv(s.(answers := s.answers + [a]), p)
  {
    var t := s.(answers := s.answers + [a]);
    hide Agreed; hide AllFit; hide Recovery.Inv; hide EverReady;
    GrowsItself(s, t);
    hide Grows;
    forall r | r in t.ledger ensures RowOk(t, r, t.ledger[r]) { assert RowOk(s, r, s.ledger[r]); }
    forall x | x in t.procs ensures ProcOk(t, t.procs[x]) { GrowsProc(s, t, s.procs[x]); }
    forall i | 0 <= i < |t.answers| ensures AnswerOk(t, t.answers[i]) {
      if i < |s.answers| { assert AnswerOk(s, s.answers[i]); }
    }
  }

  lemma GateKeeps(s: Sys, pid: Pid, q: Proc, p: Profile)
    requires Inv(s, p) && ProcOk(s, q) && s.rec.gate.None? && Holding(q) && LockOf(q) == None && LockOf(ProcOf(s, pid)) == None
    ensures Inv(Go(s, pid, q).(shared := s.shared + {pid}), p)
  {
    var t := Go(s, pid, q).(shared := s.shared + {pid});
    assert GateOk(t) && LocksOk(t) by {
      hide StoresOk; hide ContentOk; hide Populated; hide LedgerOk; hide ProcsOk; hide AnswersOk; hide ProcOk; hide Recovery.Inv; hide Holding; hide LockOf;
    }
    hide Inv; hide ProcOk; hide GateOk; hide LocksOk;
    MoveKeeps(s, t, pid, q, p);
  }

  lemma LockKeeps(s: Sys, pid: Pid, q: Proc, a: AdmissionId, p: Profile)
    requires Inv(s, p) && ProcOk(s, q) && a !in s.locks && Holding(q) && Holding(ProcOf(s, pid))
    requires LockOf(q) == Some(a) && LockOf(ProcOf(s, pid)) == None
    ensures Inv(Go(s, pid, q).(locks := s.locks[a := pid]), p)
  {
    var t := Go(s, pid, q).(locks := s.locks[a := pid]);
    assert GateOk(t) && LocksOk(t) by {
      hide StoresOk; hide ContentOk; hide Populated; hide LedgerOk; hide ProcsOk; hide AnswersOk; hide ProcOk; hide Recovery.Inv; hide Holding; hide LockOf;
      NothingHeld();
    }
    hide Inv; hide ProcOk; hide GateOk; hide LocksOk;
    MoveKeeps(s, t, pid, q, p);
  }

  // ----- changes of the stores -------------------------------------------------------------

  /** The stores changed, everybody stands where they stood. */
  lemma StoresMove(s: Sys, t: Sys, p: Profile)
    requires Inv(s, p) && StoresOk(t, p) && Grows(s, t)
    requires t.procs == s.procs && t.shared == s.shared && t.locks == s.locks && t.answers == s.answers
    requires t.rec.gate.Some? ==> t.shared == {}
    requires s.shared == {} || t.rec.policy == s.rec.policy
    ensures Inv(t, p)
  {
    hide StoresOk; hide ContentOk; hide Populated; hide LedgerOk; hide Grows; hide ProcOk; hide AnswersOk; hide Recovery.Inv; hide LockOf; hide Holding;
    forall x | x in t.procs ensures ProcOk(t, t.procs[x]) {
      assert Holding(s.procs[x]) ==> x in s.shared;
      GrowsProc(s, t, s.procs[x]);
    }
    GrowsAnswers(s, t);
    assert GateOk(t) && LocksOk(t) && ProcsOk(t);
    InvOfStores(t, p);
  }

  lemma CallingKeeps(s: Sys, e: Epoch, op: Op, p: Profile)
    requires Inv(s, p) && Warranted(op, s.ledger)
    requires op.DoJoin? ==> forall f | f in s.content :: op.id !in s.content[f].entries
    ensures Inv(Calling(s, e, op, p).0, p) && Grows(s, Calling(s, e, op, p).0) && !Calling(s, e, op, p).1.Crashed?
  {
    StoresOfInv(s, p);
    hide StoresOk; hide Calling; hide Grows; hide ProcsOk; hide AnswersOk; hide LocksOk; hide ContentOk; hide Populated; hide LedgerOk;
    CallKeeps(s, e, op, p);
    StoresMove(s, Calling(s, e, op, p).0, p);
  }

  /** A row and its resource join the ledger. */
  lemma CommitStores(s: Sys, t: Sys, intent: Option<Row>, made: Option<(ResourceId, Resource)>, p: Profile)
    requires StoresOk(s, p)
    requires intent.Some? ==> RowFits(s, intent.value, made)
    requires intent.None? && made.Some? ==> made.value.1.via.None?
    requires made.Some? ==> made.value.0 !in s.resources && (made.value.1.kind != Reserved ==> !Taken(s, made.value.1.key))
    requires t == s.(ledger := if intent.Some? then s.ledger[intent.value.admission := intent.value] else s.ledger,
                     resources := if made.Some? then s.resources[made.value.0 := made.value.1] else s.resources)
    ensures StoresOk(t, p) && Grows(s, t)
  {
    hide Agreed; hide Recovery.Inv; hide EverReady; hide AllFit; hide MadeFor; hide Taken;
    assert Grows(s, t) by { hide RowFits; assert forall x: Entry :: Evolves(x, x); }
    CommitContent(s, t, intent, p);
    CommitLedger(s, t, intent, made);
  }

  predicate NamesClaim(s: Sys, row: Row) {
    && row.admission !in s.ledger && HasEntry(s, row.epoch, row.admission)
    && s.content[row.epoch].entries[row.admission].fingerprint == Some(row.fp)
  }

  /** The row names a claimed entry of its epoch and the resource it comes with. */
  ghost predicate RowFits(s: Sys, row: Row, made: Option<(ResourceId, Resource)>) {
    && NamesClaim(s, row)
    && row.event == row.fp.event && row.operation == row.fp.operation
    && (!row.result.ClosedRow? ==> row.user == row.fp.user && row.epoch == row.fp.epoch)
    && (if row.result.ConsumedRow? then made.Some? && made.value.0 == row.result.resource && MadeFor(made.value.1, row) else made.None?)
  }

  lemma CommitContent(s: Sys, t: Sys, intent: Option<Row>, p: Profile)
    requires ContentOk(s, p) && Populated(s) && t.content == s.content && t.clock == s.clock
    requires intent.None? ==> t.ledger == s.ledger
    requires intent.Some? ==> t.ledger == s.ledger[intent.value.admission := intent.value] && NamesClaim(s, intent.value)
    ensures ContentOk(t, p)
  {
    hide Agreed; hide EverReady;
    forall e | e in t.content ensures AllFit(t.content[e], t.ledger) {
      forall id | id in t.content[e].entries ensures Fits(t.content[e].entries[id], RowIn(t.ledger, id)) {
        assert Fits(s.content[e].entries[id], RowIn(s.ledger, id));
      }
    }
  }

  lemma CommitLedger(s: Sys, t: Sys, intent: Option<Row>, made: Option<(ResourceId, Resource)>)
    requires LedgerOk(s)
    requires intent.Some? ==> RowFits(s, intent.value, made)
    requires intent.None? && made.Some? ==> made.value.1.via.None?
    requires made.Some? ==> made.value.0 !in s.resources && (made.value.1.kind != Reserved ==> !Taken(s, made.value.1.key))
    requires t == s.(ledger := if intent.Some? then s.ledger[intent.value.admission := intent.value] else s.ledger,
                     resources := if made.Some? then s.resources[made.value.0 := made.value.1] else s.resources)
    ensures LedgerOk(t)
  {
    forall a | a in t.ledger ensures RowOk(t, a, t.ledger[a]) {
      if a in s.ledger { assert RowOk(s, a, s.ledger[a]); }
    }
    if made.Some? {
      NewKeyIsNew(s, made.value.1);
    }
  }

  lemma NewKeyIsNew(s: Sys, made: Resource)
    requires made.kind != Reserved ==> !Taken(s, made.key)
    ensures forall r | r in s.resources :: !SameKey(s.resources[r], made)
  {
    forall r | r in s.resources ensures !SameKey(s.resources[r], made) {
      if SameKey(s.resources[r], made) { assert IsOrder(Snap(s.ledger, s.resources, s.version), made.key, r); }
    }
  }

  lemma PendingFits(s: Sys, q: Proc, p: Profile)
    requires q.Pending? && ProcOk(s, q) && q.intent.Some? && q.intent.value.admission !in s.ledger
    ensures RowFits(s, q.intent.value, q.made)
  {}

  predicate Conflicts(s: Sys, q: Proc)
    requires q.Pending?
  {
    (q.intent.Some? && q.intent.value.admission in s.ledger) || (q.made.Some? && q.made.value.0 in s.resources)
  }

  /** The committed stores, before the transaction's gate and lock are gone. */
  function Applied(s: Sys, q: Proc): Sys
    requires q.Pending?
  {
    s.(ledger := if q.intent.Some? then s.ledger[q.intent.value.admission := q.intent.value] else s.ledger,
       resources := if q.made.Some? then s.resources[q.made.value.0 := q.made.value.1] else s.resources)
  }

  lemma AppliedKeeps(s: Sys, pid: Pid, q: Proc, p: Profile)
    requires Inv(s, p) && ProcOk(s, q) && q.Pending? && !Conflicts(s, q)
    requires q.made.Some? && q.made.value.1.kind != Reserved ==> !Taken(s, q.made.value.1.key)
    ensures Inv(Applied(s, q), p)
  {
    hide Inv; hide StoresOk; hide ContentOk; hide Populated; hide LedgerOk; hide Grows; hide RowFits; hide ProcsOk; hide AnswersOk; hide LocksOk; hide Taken; hide GateOk;
    StoresOfInv(s, p);
    if q.intent.Some? { PendingFits(s, q, p); }
    assert q.intent.None? && q.made.Some? ==> q.made.value.1.via.None?;
    hide ProcOk;
    CommitStores(s, Applied(s, q), q.intent, q.made, p);
    StoresMove(s, Applied(s, q), p);
  }

  lemma SettlingOk(s: Sys, q: Proc)
    requires ProcOk(s, q) && q.Pending? && q.intent.Some? && q.claim.Some?
    ensures ProcOk(Applied(s, q), Settling(q.cmd, q.claim.value, q.intent.value))
  {}

  lemma WonOk(s: Sys, q: Proc)
    requires ProcOk(s, q) && q.Pending? && q.made.Some?
    ensures AnswerOk(Applied(s, q), Answered(q.cmd, Won(q.made.value.0, false)))
  {}

  lemma CommitKeeps(s: Sys, pid: Pid, q: Proc, p: Profile)
    requires Inv(s, p) && ProcOf(s, pid) == q && q.Pending? && ProcOk(s, q)
    ensures Inv(CommitStep(s, pid, q), p)
  {
    hide Inv; hide Tell; hide End; hide Taken;
    if Conflicts(s, q) || (q.made.Some? && q.made.value.1.kind != Reserved && Taken(s, q.made.value.1.key)) {
      NotAgain(s, q);
      hide ProcOk;
      EndKeeps(s, pid, Submitted(q.cmd, q.again), p);
    } else {
      var t := Applied(s, q);
      AppliedKeeps(s, pid, q, p);
      if q.intent.Some? && q.claim.Some? {
        SettlingOk(s, q);
        hide ProcOk;
        EndKeeps(t, pid, Settling(q.cmd, q.claim.value, q.intent.value), p);
      } else if q.made.Some? {
        WonOk(s, q);
        AnswerKeeps(t, pid, q.cmd, Won(q.made.value.0, false), p);
      } else {
        assert false;
      }
    }
  }

  /** A transaction that got past the ledger read is a first attempt. */
  lemma NotAgain(s: Sys, q: Proc)
    requires ProcOk(s, q) && (q.Cleared? || q.Granted? || q.Pending?)
    ensures ProcOk(s, Submitted(q.cmd, q.again)) && WellKeyed(q.cmd) && !q.again
  {}
}
