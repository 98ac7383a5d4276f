/** The invariant over purchases and the reclaimer. */
module ProtocolKeeps {
  import opened AdmissionTypes
  import opened AdmissionSpace
  import opened AdmissionControl
  import opened Agreement
  import opened AgreementOps
  import opened AdmissionRuns
  import opened Protocol
  import opened Reflection
  import opened ProtocolInvariant
  import opened ProtocolSteps
  import Recovery

  lemma Standing(s: Sys, pid: Pid, p: Profile)
    requires Inv(s, p)
    ensures ProcOk(s, ProcOf(s, pid)) && LedgerOk(s)
  {}

  lemma Rested(s: Sys)
    ensures !Holding(Finished) && LockOf(Finished) == None && ProcOk(s, Finished)
  {}

  // ----- before the gate -------------------------------------------------------------------

  lemma BeginSnap(s: Sys)
    requires LedgerOk(s)
    ensures SnapOk(s, Snap(s.ledger, s.resources, s.version))
  {
    forall a | a in s.ledger && s.ledger[a].result.ConsumedRow? ensures s.ledger[a].result.resource in s.resources {
      assert RowOk(s, a, s.ledger[a]);
    }
  }

  lemma SnapKnows(s: Sys, snap: Snap, c: Command)
    requires SnapOk(s, snap) && Known(snap.ledger, c)
    ensures Known(s.ledger, c)
  {}

  lemma SubmittedOk(s: Sys, c: Command, again: bool)
    requires WellKeyed(c) && (again ==> Known(s.ledger, c))
    ensures var q := Submitted(c, again); ProcOk(s, q) && !Holding(q) && LockOf(q) == None
  {}

  lemma BeginKeeps(s: Sys, pid: Pid, q: Proc, p: Profile)
    requires Inv(s, p) && ProcOf(s, pid) == q && q.Submitted?
    ensures Inv(Go(s, pid, Open(q.cmd, q.again, Snap(s.ledger, s.resources, s.version))), p)
  {
    Standing(s, pid, p);
    hide Inv; hide LedgerOk; hide Go; hide SnapOk;
    BeginSnap(s);
    GoKeeps(s, pid, Open(q.cmd, q.again, Snap(s.ledger, s.resources, s.version)), p);
  }

  /** A keyed replay names an order with exactly the payload of the call. */
  lemma ReplayAnswers(s: Sys, snap: Snap, c: Command, id: ResourceId)
    requires SnapOk(s, snap) && c.operation == DirectCheckoutOp && WellKeyed(c) && IsOrder(snap, c.key, id)
    ensures AnswerOk(s, Answered(c, ReplayOf(snap, c, id)))
  {
    hide LinkedElsewhere;
  }

  lemma OpenFacts(s: Sys, q: Proc)
    requires ProcOk(s, q) && (q.Open? || q.Gated? || q.Locked?)
    ensures WellKeyed(q.cmd) && SnapOk(s, q.snap) && (q.again ==> Known(q.snap.ledger, q.cmd))
    ensures q.Gated? || q.Locked? ==> q.policy == s.rec.policy && (q.cmd.operation == DirectCheckoutOp ==> !Ordering(q.snap, q.cmd.key))
  {}

  lemma ReplayKeeps(s: Sys, pid: Pid, q: Proc, p: Profile)
    requires Inv(s, p) && ProcOk(s, q)
    ensures Inv(ReplayStep(s, pid, q), p)
  {
    hide Inv; hide ProcOk; hide Tell; hide ReplayOf; hide SnapOk;
    if q.Open? && q.cmd.operation == DirectCheckoutOp && Ordering(q.snap, q.cmd.key) {
      OpenFacts(s, q);
      var id :| IsOrder(q.snap, q.cmd.key, id) && ReplayStep(s, pid, q) == Tell(s, pid, q.cmd, ReplayOf(q.snap, q.cmd, id));
      ReplayAnswers(s, q.snap, q.cmd, id);
      AnswerKeeps(s, pid, q.cmd, ReplayOf(q.snap, q.cmd, id), p);
    }
  }

  lemma OpenPlaces(c: Command, again: bool, snap: Snap, policy: Recovery.Policy)
    ensures var q := Gated(c, again, snap, policy); Holding(q) && LockOf(q) == None
    ensures var q := Locked(c, again, snap, policy); Holding(q) && LockOf(q) == (if c.admission.Some? then Some(c.admission.value.id) else None)
    ensures var q := Cleared(c, again, policy); Holding(q) && LockOf(q) == (if c.admission.Some? then Some(c.admission.value.id) else None)
    ensures var q := Open(c, again, snap); !Holding(q) && LockOf(q) == None
  {}

  lemma GatedOk(s: Sys, q: Proc)
    requires ProcOk(s, q) && q.Open? && (q.cmd.operation == DirectCheckoutOp ==> !Ordering(q.snap, q.cmd.key))
    ensures ProcOk(s, Gated(q.cmd, q.again, q.snap, s.rec.policy))
  {}

  lemma GateStepKeeps(s: Sys, pid: Pid, q: Proc, p: Profile)
    requires Inv(s, p) && ProcOf(s, pid) == q && ProcOk(s, q)
    ensures Inv(GateStep(s, pid, q), p)
  {
    hide Inv; hide ProcOk; hide Go; hide SnapOk; hide Holding; hide LockOf; hide Ordering;
    if !q.Open? || s.rec.gate.Some? || (q.cmd.operation == DirectCheckoutOp && Ordering(q.snap, q.cmd.key)) {
    } else {
      OpenFacts(s, q);
      OpenPlaces(q.cmd, q.again, q.snap, s.rec.policy);
      if OnSnapshot(q.cmd) && q.snap.version != s.version {
        if q.again { SnapKnows(s, q.snap, q.cmd); }
        SubmittedOk(s, q.cmd, q.again);
        GoKeeps(s, pid, Submitted(q.cmd, q.again), p);
      } else {
        GatedOk(s, q);
        GateKeeps(s, pid, Gated(q.cmd, q.again, q.snap, s.rec.policy), p);
      }
    }
  }

  lemma LockedOk(s: Sys, q: Proc)
    requires ProcOk(s, q) && q.Gated?
    ensures ProcOk(s, Locked(q.cmd, q.again, q.snap, q.policy))
  {}

  lemma LockStepKeeps(s: Sys, pid: Pid, q: Proc, p: Profile)
    requires Inv(s, p) && ProcOf(s, pid) == q && ProcOk(s, q)
    ensures Inv(LockStep(s, pid, q), p)
  {
    hide Inv; hide ProcOk; hide Go; hide Holding; hide LockOf;
    if q.Gated? {
      LockedOk(s, q);
      OpenPlaces(q.cmd, q.again, q.snap, q.policy);
      if q.cmd.admission.None? {
        GoKeeps(s, pid, Locked(q.cmd, q.again, q.snap, q.policy), p);
      } else if q.cmd.admission.value.id !in s.locks {
        LockKeeps(s, pid, Locked(q.cmd, q.again, q.snap, q.policy), q.cmd.admission.value.id, p);
      }
    }
  }

  /** A row judged for its own request answers with what the row says, and never strands: the
      resource is in the same snapshot, and a key that has an order was replayed before. */
  lemma JudgeAnswers(s: Sys, snap: Snap, c: Command)
    requires LedgerOk(s) && SnapOk(s, snap) && WellKeyed(c) && Known(snap.ledger, c)
    requires c.operation == DirectCheckoutOp ==> !Ordering(snap, c.key)
    ensures AnswerOk(s, Answered(c, JudgeRow(snap, c, snap.ledger[c.admission.value.id])))
  {
    var a := c.admission.value.id;
    var row := snap.ledger[a];
    assert RowOk(s, a, s.ledger[a]);
    if row.fp == Print(c) && row.result.ConsumedRow? {
      assert row.result.resource in snap.resources;
      if c.operation == DirectCheckoutOp { assert IsOrder(snap, c.key, row.result.resource); }
    }
  }

  lemma ClearedOk(s: Sys, q: Proc)
    requires ProcOk(s, q) && q.Locked? && !Known(q.snap.ledger, q.cmd)
    ensures ProcOk(s, Cleared(q.cmd, q.again, q.policy))
  {}

  lemma JudgeStepKeeps(s: Sys, pid: Pid, q: Proc, p: Profile)
    requires Inv(s, p) && ProcOf(s, pid) == q && ProcOk(s, q) && LedgerOk(s)
    ensures Inv(JudgeStep(s, pid, q), p)
  {
    hide Inv; hide ProcOk; hide Go; hide Tell; hide SnapOk; hide JudgeRow; hide Ordering; hide LedgerOk; hide Holding; hide LockOf;
    if q.Locked? {
      OpenFacts(s, q);
      OpenPlaces(q.cmd, q.again, q.snap, q.policy);
      if Known(q.snap.ledger, q.cmd) {
        JudgeAnswers(s, q.snap, q.cmd);
        AnswerKeeps(s, pid, q.cmd, JudgeRow(q.snap, q.cmd, q.snap.ledger[q.cmd.admission.value.id]), p);
      } else if q.policy.protected && q.cmd.admission.None? {
        AnswerKeeps(s, pid, q.cmd, Invalid, p);
      } else {
        ClearedOk(s, q);
        GoKeeps(s, pid, Cleared(q.cmd, q.again, q.policy), p);
      }
    }
  }

  // ----- the claim -------------------------------------------------------------------------

  lemma ClearedFacts(s: Sys, q: Proc)
    requires ProcOk(s, q) && q.Cleared?
    ensures WellKeyed(q.cmd) && !q.again && q.policy == s.rec.policy
    ensures Holding(q) && LockOf(q) == (if q.cmd.admission.Some? then Some(q.cmd.admission.value.id) else None)
  {}

  lemma DoubtKeeps(s: Sys, pid: Pid, c: Command, code: Code, p: Profile)
    requires Inv(s, p) && WellKeyed(c)
    ensures Inv(End(s, pid, Doubting(c, false, code)), p)
  {
    DoubtPlaced(s, c, code);
    hide Inv; hide End; hide ProcOk; hide Holding; hide LockOf;
    EndKeeps(s, pid, Doubting(c, false, code), p);
  }

  lemma DoubtPlaced(s: Sys, c: Command, code: Code)
    requires WellKeyed(c)
    ensures var q := Doubting(c, false, code); ProcOk(s, q) && !Holding(q) && LockOf(q) == None
  {}

  lemma AgreedAt(s: Sys, e: Epoch, p: Profile)
    requires Inv(s, p) && e in s.content
    ensures Agreed(s.content[e], p, s.clock) && p.Valid() && s.content[e].epoch == e
  {}

  lemma CallingFrame(s: Sys, e: Epoch, op: Op, p: Profile)
    ensures var t := Calling(s, e, op, p).0; t == s.(content := t.content)
  {}

  /** What reached the script: it ran on the known content of the epoch. */
  lemma CallingRan(s: Sys, e: Epoch, op: Op, p: Profile)
    requires !Calling(s, e, op, p).1.Refusal? && !Calling(s, e, op, p).1.Crashed?
    ensures var (t, r) := Calling(s, e, op, p);
      e in s.content && e in t.content && Step(s.content[e], op, s.clock, p) == (t.content[e], r)
  {
    hide Step;
  }

  /** After the script granted the claim, the entry is tied to this request. */
  lemma GrantOk(s: Sys, e: Epoch, user: UserId, id: AdmissionId, fp: Fingerprint, token: Token, p: Profile)
    requires Inv(s, p)
    ensures var (t, r) := Calling(s, e, DoClaim(user, id, fp, token), p);
      r.Answer? && r.entry.Some? && r.entry.value.claimToken.Some? ==> Tied(t, e, id, user, fp, r.entry.value.claimToken.value)
  {
    hide Inv; hide Agreed; hide Claim; hide Calling;
    var op := DoClaim(user, id, fp, token);
    var (t, r) := Calling(s, e, op, p);
    if r.Answer? {
      CallingRan(s, e, op, p);
      AgreedAt(s, e, p);
      GrantTies(s.content[e], user, id, fp, token, s.clock, p);
    }
  }

  lemma GrantedOk(s: Sys, q: Proc, token: Token)
    requires q.Cleared? && ProcOk(s, q) && q.policy.protected && q.cmd.admission.Some? && q.policy.epoch == q.cmd.admission.value.epoch
    requires Tied(s, q.policy.epoch, q.cmd.admission.value.id, q.cmd.user, Print(q.cmd), token)
    ensures var g := Granted(q.cmd, q.again, q.policy, token);
      ProcOk(s, g) && Holding(g) == Holding(q) && LockOf(g) == LockOf(q)
  {}

  lemma HearKeeps(t: Sys, pid: Pid, q: Proc, r: Reply, p: Profile)
    requires Inv(t, p) && ProcOf(t, pid) == q && q.Cleared? && ProcOk(t, q)
    requires q.policy.protected && q.cmd.admission.Some? && q.policy.epoch == q.cmd.admission.value.epoch
    requires r.Answer? && r.entry.Some? && r.entry.value.claimToken.Some? ==>
      Tied(t, q.policy.epoch, q.cmd.admission.value.id, q.cmd.user, Print(q.cmd), r.entry.value.claimToken.value)
    ensures Inv(Hear(t, pid, q, r), p)
  {
    hide Inv; hide ProcOk; hide Go; hide End; hide Tied; hide Holding; hide LockOf;
    ClearedFacts(t, q);
    if r.Refusal? { DoubtKeeps(t, pid, q.cmd, r.code, p); }
    else if r.Answer? && r.entry.Some? && r.entry.value.claimToken.Some? {
      GrantedOk(t, q, r.entry.value.claimToken.value);
      GoKeeps(t, pid, Granted(q.cmd, q.again, q.policy, r.entry.value.claimToken.value), p);
    } else { DoubtKeeps(t, pid, q.cmd, Unavailable, p); }
  }

  lemma ClearedAfter(s: Sys, t: Sys, q: Proc)
    requires q.Cleared? && ProcOk(s, q) && t.rec == s.rec
    ensures ProcOk(t, q)
  {}

  lemma ClaimStepKeeps(s: Sys, pid: Pid, q: Proc, enabled: bool, token: Token, fate: Fate, p: Profile)
    requires Inv(s, p) && ProcOf(s, pid) == q && ProcOk(s, q)
    ensures Inv(ClaimStep(s, pid, q, enabled, token, fate, p), p)
  {
    hide Inv; hide ProcOk; hide Go; hide End; hide Tied; hide Holding; hide LockOf; hide Calling; hide Hear; hide Print;
    if q.Cleared? && q.policy.protected && q.cmd.admission.Some? {
      ClearedFacts(s, q);
      var ref := q.cmd.admission.value;
      if !enabled { DoubtKeeps(s, pid, q.cmd, Unavailable, p); }
      else if !q.policy.open { DoubtKeeps(s, pid, q.cmd, Recovering, p); }
      else if q.policy.epoch != ref.epoch { DoubtKeeps(s, pid, q.cmd, Reset, p); }
      else if fate == NotSent { DoubtKeeps(s, pid, q.cmd, Recovering, p); }
      else {
        var op := DoClaim(q.cmd.user, ref.id, Print(q.cmd), token);
        var (t, r) := Calling(s, ref.epoch, op, p);
        CallingKeeps(s, ref.epoch, op, p);
        CallingFrame(s, ref.epoch, op, p);
        if fate == Lost {
          DoubtKeeps(t, pid, q.cmd, Unavailable, p);
        } else {
          GrantOk(s, ref.epoch, q.cmd.user, ref.id, Print(q.cmd), token, p);
          ClearedAfter(s, t, q);
          HearKeeps(t, pid, q, r, p);
        }
      }
    }
  }

  // ----- occupation and commit -------------------------------------------------------------

  lemma GrantedFacts(s: Sys, q: Proc)
    requires ProcOk(s, q) && q.Granted?
    ensures WellKeyed(q.cmd) && !q.again && q.policy == s.rec.policy && q.policy.protected
    ensures q.cmd.admission.Some? && q.cmd.admission.value.epoch == q.policy.epoch
    ensures Tied(s, q.policy.epoch, q.cmd.admission.value.id, q.cmd.user, Print(q.cmd), q.token)
    ensures Holding(q) && LockOf(q) == Some(q.cmd.admission.value.id)
  {}

  lemma PendingOk(s: Sys, q: Proc)
    requires q.Pending? && WellKeyed(q.cmd) && !q.again && q.policy == s.rec.policy && IntentOk(s, q.cmd, q.policy, q.claim, q.intent, q.made)
    ensures ProcOk(s, q) && Holding(q) && LockOf(q) == (if q.cmd.admission.Some? then Some(q.cmd.admission.value.id) else None)
  {}

  lemma OccupyStepKeeps(s: Sys, pid: Pid, q: Proc, id: ResourceId, made: Resource, p: Profile)
    requires Inv(s, p) && ProcOf(s, pid) == q && ProcOk(s, q)
    ensures Inv(OccupyStep(s, pid, q, id, made), p)
  {
    hide Inv; hide ProcOk; hide Go; hide End; hide Tied; hide Holding; hide LockOf; hide Print;
    if q.Cleared? && !q.policy.protected && TargetOf(made, q.cmd) {
      ClearedFacts(s, q);
      var n := Pending(q.cmd, q.again, q.policy, None, None, Some((id, made.(via := None))));
      PendingOk(s, n);
      GoKeeps(s, pid, n, p);
    } else if q.Granted? && q.cmd.admission.Some? {
      GrantedFacts(s, q);
      if TargetOf(made, q.cmd) {
        var n := Pending(q.cmd, q.again, q.policy, Some(q.token), Some(RowFor(q.cmd, ConsumedRow(id))),
                         Some((id, made.(via := Some(q.cmd.admission.value.id)))));
        PendingOk(s, n);
        GoKeeps(s, pid, n, p);
      } else {
        Rested(s);
        EndKeeps(s, pid, Finished, p);
      }
    }
  }

  lemma DeclineStepKeeps(s: Sys, pid: Pid, q: Proc, code: Code, p: Profile)
    requires Inv(s, p) && ProcOf(s, pid) == q && ProcOk(s, q)
    ensures Inv(DeclineStep(s, pid, q, code), p)
  {
    hide Inv; hide ProcOk; hide Go; hide Tell; hide Tied; hide Holding; hide LockOf; hide Print;
    if q.Cleared? && !q.policy.protected {
      AnswerKeeps(s, pid, q.cmd, Declined(code), p);
    } else if q.Granted? && q.cmd.admission.Some? {
      GrantedFacts(s, q);
      var n := Pending(q.cmd, q.again, q.policy, Some(q.token), Some(RowFor(q.cmd, RejectedRow(code))), None);
      PendingOk(s, n);
      GoKeeps(s, pid, n, p);
    }
  }

  lemma SettlingFacts(s: Sys, q: Proc)
    requires ProcOk(s, q) && q.Settling?
    ensures ForRequest(q.row, q.cmd) && RowIn(s.ledger, q.row.admission) == Some(q.row)
  {}

  lemma SettledAnswer(s: Sys, c: Command, row: Row)
    requires LedgerOk(s) && ForRequest(row, c) && RowIn(s.ledger, row.admission) == Some(row)
    ensures AnswerOk(s, Answered(c, AnswerOf(row)))
  {
    assert RowOk(s, row.admission, row);
  }

  lemma CompleteWarranted(s: Sys, q: Proc)
    requires q.Settling? && ForRequest(q.row, q.cmd) && RowIn(s.ledger, q.row.admission) == Some(q.row)
    ensures Warranted(DoComplete(q.cmd.user, q.row.admission, q.row.fp, q.token, OutcomeOf(q.row)), s.ledger)
  {}

  lemma SettleStepKeeps(s: Sys, pid: Pid, q: Proc, fate: Fate, p: Profile)
    requires Inv(s, p) && ProcOf(s, pid) == q && ProcOk(s, q)
    ensures Inv(SettleStep(s, pid, q, fate, p), p)
  {
    hide Inv; hide ProcOk; hide Tell; hide Calling; hide OutcomeOf; hide AnswerOf; hide ForRequest; hide Warranted; hide LedgerOk; hide AnswerOk;
    if q.Settling? {
      var op := DoComplete(q.cmd.user, q.row.admission, q.row.fp, q.token, OutcomeOf(q.row));
      var t := if fate == NotSent then s else Calling(s, q.row.epoch, op, p).0;
      SettlingFacts(s, q);
      if fate != NotSent {
        CompleteWarranted(s, q);
        CallingKeeps(s, q.row.epoch, op, p);
        CallingFrame(s, q.row.epoch, op, p);
      }
      Standing(t, pid, p);
      SettledAnswer(t, q.cmd, q.row);
      AnswerKeeps(t, pid, q.cmd, AnswerOf(q.row), p);
    }
  }

  lemma DoubtingFacts(s: Sys, q: Proc)
    requires ProcOk(s, q) && q.Doubting?
    ensures WellKeyed(q.cmd) && !q.again && !Holding(q) && LockOf(q) == None
  {}

  lemma ConfirmStepKeeps(s: Sys, pid: Pid, q: Proc, p: Profile)
    requires Inv(s, p) && ProcOf(s, pid) == q && ProcOk(s, q)
    ensures Inv(ConfirmStep(s, pid, q), p)
  {
    hide Inv; hide ProcOk; hide Tell; hide Go; hide Holding; hide LockOf;
    if q.Doubting? {
      DoubtingFacts(s, q);
      if Known(s.ledger, q.cmd) {
        SubmittedOk(s, q.cmd, true);
        GoKeeps(s, pid, Submitted(q.cmd, true), p);
      } else {
        AnswerKeeps(s, pid, q.cmd, Denied(q.code, false), p);
      }
    }
  }

  lemma AbortStepKeeps(s: Sys, pid: Pid, q: Proc, p: Profile)
    requires Inv(s, p) && ProcOf(s, pid) == q && ProcOk(s, q)
    ensures Inv(AbortStep(s, pid, q), p)
  {
    hide Inv; hide ProcOk; hide End; hide Holding; hide LockOf; hide SnapOk;
    if q.Open? || q.Gated? || q.Locked? {
      OpenFacts(s, q);
      if q.again { SnapKnows(s, q.snap, q.cmd); }
      SubmittedOk(s, q.cmd, q.again);
      EndKeeps(s, pid, Submitted(q.cmd, q.again), p);
    } else if q.Cleared? || q.Granted? || q.Pending? {
      NotAgain(s, q);
      SubmittedOk(s, q.cmd, q.again);
      EndKeeps(s, pid, Submitted(q.cmd, q.again), p);
    }
  }

  lemma PurchaseKeeps(s: Sys, act: Act, pid: Pid, p: Profile)
    requires Inv(s, p)
    ensures Inv(PurchaseStep(s, act, pid, ProcOf(s, pid), p), p)
  {
    hide Inv; hide ProcOk; hide CommitStep; hide ReplayStep; hide GateStep; hide LockStep; hide JudgeStep; hide ClaimStep;
    hide OccupyStep; hide DeclineStep; hide SettleStep; hide ConfirmStep; hide AbortStep; hide End; hide Go; hide ProcOf; hide LedgerOk;
    hide Holding; hide LockOf;
    var q := ProcOf(s, pid);
    Standing(s, pid, p);
    match act
    case Submit(_, cmd) => if q.Finished? && WellKeyed(cmd) { Rested(s); SubmittedOk(s, cmd, false); GoKeeps(s, pid, Submitted(cmd, false), p); }
    case Begin(_) => if q.Submitted? { BeginKeeps(s, pid, q, p); }
    case ReplayOrder(_) => ReplayKeeps(s, pid, q, p);
    case Gate(_) => GateStepKeeps(s, pid, q, p);
    case LockAdmission(_) => LockStepKeeps(s, pid, q, p);
    case Judge(_) => JudgeStepKeeps(s, pid, q, p);
    case ClaimNow(_, enabled, token, fate) => ClaimStepKeeps(s, pid, q, enabled, token, fate, p);
    case Occupy(_, id, made) => OccupyStepKeeps(s, pid, q, id, made, p);
    case Decline(_, code) => DeclineStepKeeps(s, pid, q, code, p);
    case Commit(_) => if q.Pending? { CommitKeeps(s, pid, q, p); }
    case Settle(_, fate) => SettleStepKeeps(s, pid, q, fate, p);
    case Confirm(_) => ConfirmStepKeeps(s, pid, q, p);
    case Abort(_) => AbortStepKeeps(s, pid, q, p);
    case Crash(_) => Rested(s); EndKeeps(s, pid, Finished, p);
    case _ =>
  }

  // ----- the reclaimer ---------------------------------------------------------------------

  lemma OverdueTied(s: Sys, e: Epoch, index: nat, p: Profile)
    requires Inv(s, p)
    ensures var (t, r) := Calling(s, e, DoReconcile, p); r.Overdue? && index < |r.claims| ==> EntryTied(t, r.claims[index])
  {
    hide Inv; hide Agreed; hide Reconcile; hide Calling;
    var (t, r) := Calling(s, e, DoReconcile, p);
    if r.Overdue? && index < |r.claims| {
      CallingRan(s, e, DoReconcile, p);
      AgreedAt(s, e, p);
      CallingKeeps(s, e, DoReconcile, p);
      AgreedAt(t, e, p);
      OverdueAreBound(s.content[e], s.clock, p);
    }
  }

  lemma ReclaimPlaces(s: Sys, entry: Entry, row: Row)
    ensures !Holding(Late(entry)) && LockOf(Late(entry)) == None
    ensures !Holding(Reflecting(entry, row)) && LockOf(Reflecting(entry, row)) == None
    ensures Holding(Guarded(entry)) && LockOf(Guarded(entry)) == None
    ensures Holding(Sole(entry)) && LockOf(Sole(entry)) == Some(entry.id)
    ensures Holding(Closing(entry)) && LockOf(Closing(entry)) == Some(entry.id)
    ensures EntryTied(s, entry) ==> ProcOk(s, Late(entry))
    ensures EntryTied(s, entry) && s.rec.policy.protected && s.rec.policy.epoch == entry.epoch ==>
      ProcOk(s, Guarded(entry)) && ProcOk(s, Sole(entry)) && ProcOk(s, Closing(entry))
    ensures EntryTied(s, entry) && row.admission == entry.id && RowIn(s.ledger, entry.id) == Some(row) ==> ProcOk(s, Reflecting(entry, row))
  {}

  lemma ReclaimFacts(s: Sys, q: Proc)
    requires ProcOk(s, q) && (q.Late? || q.Guarded? || q.Sole? || q.Closing? || q.Reflecting?)
    ensures EntryTied(s, q.entry)
    ensures q.Guarded? || q.Sole? || q.Closing? ==> s.rec.policy.protected && s.rec.policy.epoch == q.entry.epoch
    ensures q.Reflecting? ==> q.row.admission == q.entry.id && RowIn(s.ledger, q.entry.id) == Some(q.row)
  {}

  lemma TakeStepKeeps(s: Sys, pid: Pid, q: Proc, e: Epoch, index: nat, p: Profile)
    requires Inv(s, p) && ProcOf(s, pid) == q
    ensures Inv(TakeStep(s, pid, q, e, index, p), p)
  {
    hide Inv; hide ProcOk; hide Go; hide Calling; hide EntryTied; hide Holding; hide LockOf;
    if q.Finished? {
      var (t, r) := Calling(s, e, DoReconcile, p);
      CallingKeeps(s, e, DoReconcile, p);
      CallingFrame(s, e, DoReconcile, p);
      OverdueTied(s, e, index, p);
      if r.Overdue? && index < |r.claims| {
        Rested(t);
        ReclaimPlaces(t, r.claims[index], Row(0, 0, 0, 0, ReservationOp, Fingerprint(0, 0, 0, ReservationOp, 0, 0, None), ClosedRow));
        GoKeeps(t, pid, Late(r.claims[index]), p);
      }
    }
  }

  lemma RowNamed(s: Sys, id: AdmissionId)
    requires LedgerOk(s) && id in s.ledger
    ensures s.ledger[id].admission == id
  {
    assert RowOk(s, id, s.ledger[id]);
  }

  lemma WaitingKeeps(s: Sys, act: Act, pid: Pid, q: Proc, p: Profile)
    requires Inv(s, p) && ProcOf(s, pid) == q && ProcOk(s, q) && LedgerOk(s)
    ensures Inv(GuardStep(s, pid, q), p) && Inv(TryLockStep(s, pid, q), p) && Inv(ReadStep(s, pid, q), p)
  {
    hide Inv; hide ProcOk; hide Go; hide End; hide EntryTied; hide Holding; hide LockOf; hide LedgerOk;
    Rested(s);
    if q.Late? || q.Guarded? || q.Sole? {
      ReclaimFacts(s, q);
      ReclaimPlaces(s, q.entry, if q.entry.id in s.ledger then s.ledger[q.entry.id] else RowFor(Command(0, 0, ReservationOp, 0, 0, None, Some(Ref(0, 0))), ClosedRow));
      if q.Late? && s.rec.gate.None? {
        if !s.rec.policy.protected || s.rec.policy.epoch != q.entry.epoch { GoKeeps(s, pid, Finished, p); }
        else { GateKeeps(s, pid, Guarded(q.entry), p); }
      }
      if q.Guarded? {
        if q.entry.id in s.locks { EndKeeps(s, pid, Finished, p); } else { LockKeeps(s, pid, Sole(q.entry), q.entry.id, p); }
      }
      if q.Sole? {
        if q.entry.id in s.ledger {
          RowNamed(s, q.entry.id);
          EndKeeps(s, pid, Reflecting(q.entry, s.ledger[q.entry.id]), p);
        } else {
          GoKeeps(s, pid, Closing(q.entry), p);
        }
      }
    }
  }

  lemma ClosedFits(s: Sys, x: Entry)
    requires EntryTied(s, x) && x.id !in s.ledger
    ensures RowFits(s, ClosedRowOf(s, x), None)
  {}

  lemma CloseStepKeeps(s: Sys, pid: Pid, q: Proc, p: Profile)
    requires Inv(s, p) && ProcOf(s, pid) == q && ProcOk(s, q)
    ensures Inv(CloseStep(s, pid, q), p)
  {
    hide Inv; hide ProcOk; hide End; hide EntryTied; hide Holding; hide LockOf; hide StoresOk; hide RowFits; hide GateOk; hide LocksOk; hide ProcsOk; hide AnswersOk; hide Grows;
    Rested(s);
    if q.Closing? {
      if q.entry.id in s.ledger || q.entry.fingerprint.None? {
        EndKeeps(s, pid, Finished, p);
      } else {
        ReclaimFacts(s, q);
        var row := ClosedRowOf(s, q.entry);
        var t := s.(ledger := s.ledger[row.admission := row]);
        ClosedFits(s, q.entry);
        StoresOfInv(s, p);
        CommitStores(s, t, Some(row), None, p);
        GateWhenShared(s);
        StoresMove(s, t, p);
        GrowsEntry(s, t, q.entry);
        ReclaimPlaces(t, q.entry, row);
        EndKeeps(t, pid, Reflecting(q.entry, row), p);
      }
    }
  }

  lemma GateWhenShared(s: Sys)
    requires GateOk(s)
    ensures s.rec.gate.Some? ==> s.shared == {}
  {}

  lemma FinalWarranted(s: Sys, entry: Entry, row: Row)
    requires entry.claimToken.Some? && entry.fingerprint.Some? && RowIn(s.ledger, entry.id) == Some(row)
    ensures Warranted(FinalOp(entry, row), s.ledger) && !FinalOp(entry, row).DoJoin?
  {}

  /** The slot is told what the ledger holds: consumed as the row says, or closed. */
  lemma ReflectStepKeeps(s: Sys, pid: Pid, q: Proc, fate: Fate, p: Profile)
    requires Inv(s, p) && ProcOf(s, pid) == q && ProcOk(s, q)
    ensures Inv(ReflectStep(s, pid, q, fate, p), p)
  {
    hide Inv; hide ProcOk; hide Go; hide Calling; hide EntryTied; hide FinalOp; hide Warranted; hide Holding; hide LockOf;
    if q.Reflecting? {
      ReclaimFacts(s, q);
      ReclaimPlaces(s, q.entry, q.row);
      Rested(s);
      if fate == NotSent || q.entry.claimToken.None? || q.entry.fingerprint.None? {
        GoKeeps(s, pid, Finished, p);
      } else {
        var op := FinalOp(q.entry, q.row);
        FinalWarranted(s, q.entry, q.row);
        CallingKeeps(s, q.entry.epoch, op, p);
        CallingFrame(s, q.entry.epoch, op, p);
        var t := Calling(s, q.entry.epoch, op, p).0;
        Rested(t);
        GoKeeps(t, pid, Finished, p);
      }
    }
  }

  lemma ReclaimKeeps(s: Sys, act: Act, pid: Pid, p: Profile)
    requires Inv(s, p)
    ensures Inv(ReclaimStep(s, act, pid, ProcOf(s, pid), p), p)
  {
    hide Inv; hide ProcOk; hide TakeStep; hide GuardStep; hide TryLockStep; hide ReadStep; hide CloseStep; hide ReflectStep; hide LedgerOk;
    var q := ProcOf(s, pid);
    Standing(s, pid, p);
    match act
    case TakeOverdue(_, e, index) => TakeStepKeeps(s, pid, q, e, index, p);
    case Guard(_) => WaitingKeeps(s, act, pid, q, p);
    case TryLock(_) => WaitingKeeps(s, act, pid, q, p);
    case ReadLedger(_) => WaitingKeeps(s, act, pid, q, p);
    case CommitClosed(_) => CloseStepKeeps(s, pid, q, p);
    case Reflect(_, fate) => ReflectStepKeeps(s, pid, q, fate, p);
    case _ =>
  }
}
