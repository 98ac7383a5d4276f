/** The purchase protocol's own log: what its purchases, reclaimers, queue calls and recovery make Redis
    do is a run of JointLog, so the checker accepts it too. */
module ProtocolLog {
  import opened AdmissionTypes
  import opened TransitionLog
  import opened AdmissionSpace
  import opened AdmissionControl
  import opened Protocol
  import opened ProtocolRuns
  import JointLog
  import Recovery
  import RecoveryLog

  // ----- the call behind an action ---------------------------------------------------------

  /** The Redis operation a step of a purchase issues, if it issues one. */
  function PurchaseCall(act: Act, q: Proc): Option<(Epoch, Op)> {
    if act.ClaimNow? && q.Cleared? && q.policy.protected && q.cmd.admission.Some? && act.enabled && q.policy.open
       && q.policy.epoch == q.cmd.admission.value.epoch && act.fate != NotSent then
      Some((q.cmd.admission.value.epoch, DoClaim(q.cmd.user, q.cmd.admission.value.id, Print(q.cmd), act.token)))
    else if act.Settle? && q.Settling? && act.fate != NotSent then
      Some((q.row.epoch, DoComplete(q.cmd.user, q.row.admission, q.row.fp, q.token, OutcomeOf(q.row))))
    else None
  }

  function ReclaimCall(act: Act, q: Proc): Option<(Epoch, Op)> {
    if act.TakeOverdue? && q.Finished? then Some((act.epoch, DoReconcile))
    else if act.Reflect? && q.Reflecting? && act.fate != NotSent && q.entry.claimToken.Some? && q.entry.fingerprint.Some? then
      Some((q.entry.epoch, FinalOp(q.entry, q.row)))
    else None
  }

  /** Redis has moved by this call and by nothing else. */
  predicate Follows(s: Sys, t: Sys, call: Option<(Epoch, Op)>, p: Profile) {
    && t.rec == s.rec && t.clock == s.clock
    && t.content == if call.Some? then Calling(s, call.value.0, call.value.1, p).0.content else s.content
  }

  lemma CallingFollows(s: Sys, e: Epoch, op: Op, p: Profile)
    ensures Follows(s, Calling(s, e, op, p).0, Some((e, op)), p)
  {
    hide Step; hide Barred;
  }

  lemma ClaimFollows(s: Sys, pid: Pid, q: Proc, act: Act, p: Profile)
    requires act.ClaimNow?
    ensures Follows(s, ClaimStep(s, pid, q, act.enabled, act.token, act.fate, p), PurchaseCall(act, q), p)
  {
    hide Calling; hide Print;
    if PurchaseCall(act, q).Some? { CallingFollows(s, PurchaseCall(act, q).value.0, PurchaseCall(act, q).value.1, p); }
  }

  lemma SettleFollows(s: Sys, pid: Pid, q: Proc, act: Act, p: Profile)
    requires act.Settle?
    ensures Follows(s, SettleStep(s, pid, q, act.fate, p), PurchaseCall(act, q), p)
  {
    hide Calling; hide OutcomeOf; hide AnswerOf;
    if PurchaseCall(act, q).Some? { CallingFollows(s, PurchaseCall(act, q).value.0, PurchaseCall(act, q).value.1, p); }
  }

  lemma OpeningFollows(s: Sys, pid: Pid, q: Proc, p: Profile)
    ensures Follows(s, ReplayStep(s, pid, q), None, p) && Follows(s, GateStep(s, pid, q), None, p) && Follows(s, LockStep(s, pid, q), None, p)
  {
    hide ReplayOf; hide Ordering;
  }

  lemma DecidingFollows(s: Sys, pid: Pid, q: Proc, p: Profile)
    ensures Follows(s, JudgeStep(s, pid, q), None, p) && Follows(s, ConfirmStep(s, pid, q), None, p) && Follows(s, AbortStep(s, pid, q), None, p)
  {
    hide JudgeRow;
  }

  lemma WritingFollows(s: Sys, pid: Pid, q: Proc, id: ResourceId, made: Resource, code: Code, p: Profile)
    ensures Follows(s, OccupyStep(s, pid, q, id, made), None, p) && Follows(s, DeclineStep(s, pid, q, code), None, p)
  {
    hide RowFor;
  }

  lemma CommitFollows(s: Sys, pid: Pid, q: Proc, p: Profile)
    requires q.Pending?
    ensures Follows(s, CommitStep(s, pid, q), None, p)
  {
    hide Taken;
  }

  lemma EndFollows(s: Sys, pid: Pid, q: Proc, p: Profile)
    ensures Follows(s, End(s, pid, q), None, p) && Follows(s, Go(s, pid, q), None, p) && Follows(s, s, None, p)
  {}

  lemma PurchaseFollows(s: Sys, act: Act, pid: Pid, q: Proc, p: Profile)
    ensures Follows(s, PurchaseStep(s, act, pid, q, p), PurchaseCall(act, q), p)
  {
    hide CommitStep; hide ReplayStep; hide GateStep; hide LockStep; hide JudgeStep; hide ClaimStep; hide Follows; hide Go; hide End;
    hide OccupyStep; hide DeclineStep; hide SettleStep; hide ConfirmStep; hide AbortStep;
    OpeningFollows(s, pid, q, p);
    DecidingFollows(s, pid, q, p);
    EndFollows(s, pid, Finished, p);
    match act
    case Submit(_, cmd) => EndFollows(s, pid, Submitted(cmd, false), p);
    case Begin(_) => if q.Submitted? { EndFollows(s, pid, Open(q.cmd, q.again, Snap(s.ledger, s.resources, s.version)), p); }
    case ClaimNow(_, _, _, _) => ClaimFollows(s, pid, q, act, p);
    case Occupy(_, id, made) => WritingFollows(s, pid, q, id, made, Unavailable, p);
    case Decline(_, code) => WritingFollows(s, pid, q, 0, Resource(Reserved, 0, 0, 0, 0, None, None), code, p);
    case Commit(_) => if q.Pending? { CommitFollows(s, pid, q, p); }
    case Settle(_, _) => SettleFollows(s, pid, q, act, p);
    case _ =>
  }

  lemma WaitingFollows(s: Sys, pid: Pid, q: Proc, p: Profile)
    ensures Follows(s, GuardStep(s, pid, q), None, p) && Follows(s, TryLockStep(s, pid, q), None, p)
    ensures Follows(s, ReadStep(s, pid, q), None, p) && Follows(s, CloseStep(s, pid, q), None, p)
  {}

  lemma ReclaimFollows(s: Sys, act: Act, pid: Pid, q: Proc, p: Profile)
    ensures Follows(s, ReclaimStep(s, act, pid, q, p), ReclaimCall(act, q), p)
  {
    hide GuardStep; hide TryLockStep; hide ReadStep; hide CloseStep; hide Calling; hide FinalOp;
    WaitingFollows(s, pid, q, p);
    EndFollows(s, pid, q, p);
    if ReclaimCall(act, q).Some? { CallingFollows(s, ReclaimCall(act, q).value.0, ReclaimCall(act, q).value.1, p); }
  }

  // ----- moves of the server ---------------------------------------------------------------

  /** What the server does when the protocol does this. */
  function MoveOf(s: Sys, act: Act): Option<JointLog.Move> {
    if act.World? then
      if (act.a.Enter? || act.a.Protect?) && s.shared != {} then None else Some(JointLog.Recover(act.a))
    else if act.Wait? then Some(JointLog.Wait(act.now))
    else
      var call :=
        if act.Queue? then Some((act.epoch, act.op))
        else if act.Convert? then None
        else if OfReclaimer(act) then ReclaimCall(act, ProcOf(s, act.pid))
        else PurchaseCall(act, ProcOf(s, act.pid));
      if call.Some? then Some(JointLog.Serve(call.value.0, call.value.1, true)) else None
  }

  predicate Alike(s: Sys, v: JointLog.Server) {
    v.rec == s.rec && v.content == s.content && v.clock == s.clock
  }

  function Moved(v: JointLog.Server, m: Option<JointLog.Move>, p: Profile): JointLog.Server {
    if m.Some? then JointLog.Next(v, m.value, p) else v
  }

  lemma ServeIsCalling(s: Sys, t: Sys, v: JointLog.Server, call: (Epoch, Op), p: Profile)
    requires Alike(s, v) && Follows(s, t, Some(call), p)
    ensures Alike(t, JointLog.Next(v, JointLog.Serve(call.0, call.1, true), p))
  {
    hide Step; hide Barred; hide JointLog.Issued;
  }

  lemma NextFollows(s: Sys, act: Act, v: JointLog.Server, p: Profile)
    requires Alike(s, v)
    ensures Alike(Next(s, act, p), Moved(v, MoveOf(s, act), p))
  {
    hide Calling; hide Recovery.Next; hide PurchaseStep; hide ReclaimStep; hide Taken; hide PurchaseCall; hide ReclaimCall; hide JointLog.Issued;
    var t := Next(s, act, p);
    if act.World? || act.Wait? || act.Convert? {
    } else if act.Queue? {
      CallingFollows(s, act.epoch, act.op, p);
      ServeIsCalling(s, t, v, (act.epoch, act.op), p);
    } else {
      var q := ProcOf(s, act.pid);
      var call := if OfReclaimer(act) then ReclaimCall(act, q) else PurchaseCall(act, q);
      if OfReclaimer(act) { ReclaimFollows(s, act, act.pid, q, p); } else { PurchaseFollows(s, act, act.pid, q, p); }
      if call.Some? { ServeIsCalling(s, t, v, call.value, p); }
    }
  }

  lemma MoveIsPossible(s: Sys, act: Act, v: JointLog.Server)
    requires Alike(s, v) && Possible(s, act)
    ensures MoveOf(s, act).Some? ==> JointLog.Possible(v, MoveOf(s, act).value)
  {
    hide Recovery.Possible;
  }

  ghost function MovesOf(s: Sys, acts: seq<Act>, p: Profile): seq<JointLog.Move>
    decreases |acts|
  {
    if acts == [] then [] else
      (if MoveOf(s, acts[0]).Some? then [MoveOf(s, acts[0]).value] else []) + MovesOf(Next(s, acts[0], p), acts[1..], p)
  }

  lemma {:induction false} RunFollows(s: Sys, acts: seq<Act>, v: JointLog.Server, p: Profile)
    requires Alike(s, v) && PossibleRun(s, acts, p)
    ensures var moves := MovesOf(s, acts, p);
      JointLog.PossibleRun(v, moves, p) && Alike(Run(s, acts, p), JointLog.Run(v, moves, p))
    decreases |acts|
  {
    hide Next; hide JointLog.Next; hide JointLog.Possible; hide Possible; hide MoveOf; hide Alike;
    if acts != [] {
      var m := MoveOf(s, acts[0]);
      NextFollows(s, acts[0], v, p);
      MoveIsPossible(s, acts[0], v);
      RunFollows(Next(s, acts[0], p), acts[1..], Moved(v, m, p), p);
      var rest := MovesOf(Next(s, acts[0], p), acts[1..], p);
      if m.Some? {
        assert MovesOf(s, acts, p) == [m.value] + rest;
        assert ([m.value] + rest)[1..] == rest;
      } else {
        assert MovesOf(s, acts, p) == rest;
      }
    }
  }

  /** Every run of the purchase protocol leaves a log the checker accepts, but for the run-id rule under
      its one condition, and that ends with exactly the sets of every intact namespace. */
  lemma PurchaseLogIsAccepted(s: Sys, epoch: Epoch, run: int, protected: bool, clock: int, acts: seq<Act>, p: Profile)
    requires Reachable(s, epoch, run, protected, clock, acts, p)
    ensures var moves := MovesOf(Start(epoch, run, protected, clock), acts, p);
      var v := JointLog.Run(JointLog.Start(epoch, run, protected, clock), moves, p);
      var verdict := Verdict(v.log, p);
      && Alike(s, v)
      && (forall x | x in verdict.violations :: x == RunId)
      && (verdict.violations == [] <==> !RecoveryLog.EverStale(Recovery.Initial(epoch, run, protected), JointLog.Recoveries(moves)))
      && (forall e | Recovery.HealthOf(s.rec, e) == Sound ::
            e in s.content && JointLog.SameSets(LineOf(verdict, e), s.content[e]))
  {
    hide JointLog.Run; hide JointLog.PossibleRun; hide MovesOf; hide Run; hide PossibleRun; hide Verdict; hide RecoveryLog.EverStale; hide JointLog.Recoveries;
    RunFollows(Start(epoch, run, protected, clock), acts, JointLog.Start(epoch, run, protected, clock), p);
    JointLog.OneLogIsAccepted(epoch, run, protected, clock, MovesOf(Start(epoch, run, protected, clock), acts, p), p);
  }
}
