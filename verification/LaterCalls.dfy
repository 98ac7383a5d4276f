/** What a purchase call is answered once it is decided: by the order its key already has, or by the row
    its admission already has. Both decisions are for good, whatever epochs, losses, recoveries and
    closures follow. */
module LaterCalls {
  import opened AdmissionTypes
  import opened AdmissionSpace
  import opened AdmissionControl
  import opened Protocol
  import opened Reflection
  import opened ProtocolInvariant
  import opened ProtocolKeeps
  import opened ProtocolRuns
  import opened ProtocolLaws
  import Recovery

  // ----- who moves -------------------------------------------------------------------------

  /** Nobody but this process has moved. */
  ghost predicate Alone(s: Sys, t: Sys, pid: Pid) {
    forall x | x != pid :: ProcOf(t, x) == ProcOf(s, x)
  }

  lemma CallingAlone(s: Sys, e: Epoch, op: Op, p: Profile)
    ensures Calling(s, e, op, p).0.procs == s.procs
  {
    hide Step; hide Barred;
  }

  lemma MovesAlone(s: Sys, pid: Pid, q: Proc)
    ensures Alone(s, Go(s, pid, q), pid) && Alone(s, End(s, pid, q), pid) && Alone(s, s, pid)
  {}

  lemma OpeningAlone(s: Sys, pid: Pid, q: Proc)
    ensures Alone(s, ReplayStep(s, pid, q), pid) && Alone(s, GateStep(s, pid, q), pid) && Alone(s, LockStep(s, pid, q), pid)
  {
    hide ReplayOf; hide Ordering;
  }

  lemma DecidingAlone(s: Sys, pid: Pid, q: Proc)
    ensures Alone(s, JudgeStep(s, pid, q), pid) && Alone(s, ConfirmStep(s, pid, q), pid) && Alone(s, AbortStep(s, pid, q), pid)
  {
    hide JudgeRow;
  }

  lemma WritingAlone(s: Sys, pid: Pid, q: Proc, id: ResourceId, made: Resource, code: Code)
    ensures Alone(s, OccupyStep(s, pid, q, id, made), pid) && Alone(s, DeclineStep(s, pid, q, code), pid)
  {
    hide RowFor;
  }

  lemma CommitAlone(s: Sys, pid: Pid, q: Proc)
    requires q.Pending?
    ensures Alone(s, CommitStep(s, pid, q), pid)
  {
    hide Taken;
  }

  lemma ClaimAlone(s: Sys, pid: Pid, q: Proc, enabled: bool, token: Token, fate: Fate, p: Profile)
    ensures Alone(s, ClaimStep(s, pid, q, enabled, token, fate, p), pid)
  {
    hide Calling; hide Print;
    if q.Cleared? && q.cmd.admission.Some? {
      CallingAlone(s, q.cmd.admission.value.epoch, DoClaim(q.cmd.user, q.cmd.admission.value.id, Print(q.cmd), token), p);
    }
  }

  lemma SettleAlone(s: Sys, pid: Pid, q: Proc, fate: Fate, p: Profile)
    ensures Alone(s, SettleStep(s, pid, q, fate, p), pid)
  {
    hide Calling; hide OutcomeOf; hide AnswerOf;
    if q.Settling? { CallingAlone(s, q.row.epoch, DoComplete(q.cmd.user, q.row.admission, q.row.fp, q.token, OutcomeOf(q.row)), p); }
  }

  lemma PurchaseAlone(s: Sys, act: Act, pid: Pid, q: Proc, p: Profile)
    ensures Alone(s, PurchaseStep(s, act, pid, q, p), pid)
  {
    hide CommitStep; hide ReplayStep; hide GateStep; hide LockStep; hide JudgeStep; hide ClaimStep; hide Alone; hide Go; hide End;
    hide OccupyStep; hide DeclineStep; hide SettleStep; hide ConfirmStep; hide AbortStep;
    OpeningAlone(s, pid, q);
    DecidingAlone(s, pid, q);
    MovesAlone(s, pid, Finished);
    match act
    case Submit(_, cmd) => MovesAlone(s, pid, Submitted(cmd, false));
    case Begin(_) => if q.Submitted? { MovesAlone(s, pid, Open(q.cmd, q.again, Snap(s.ledger, s.resources, s.version))); }
    case ClaimNow(_, enabled, token, fate) => ClaimAlone(s, pid, q, enabled, token, fate, p);
    case Occupy(_, id, made) => WritingAlone(s, pid, q, id, made, Unavailable);
    case Decline(_, code) => WritingAlone(s, pid, q, 0, Resource(Reserved, 0, 0, 0, 0, None, None), code);
    case Commit(_) => if q.Pending? { CommitAlone(s, pid, q); }
    case Settle(_, fate) => SettleAlone(s, pid, q, fate, p);
    case _ =>
  }

  lemma TakeAlone(s: Sys, pid: Pid, q: Proc, e: Epoch, index: nat, p: Profile)
    ensures Alone(s, TakeStep(s, pid, q, e, index, p), pid)
  {
    hide Calling;
    CallingAlone(s, e, DoReconcile, p);
  }

  lemma ReflectAlone(s: Sys, pid: Pid, q: Proc, fate: Fate, p: Profile)
    ensures Alone(s, ReflectStep(s, pid, q, fate, p), pid)
  {
    hide Calling; hide FinalOp;
    if q.Reflecting? && q.entry.claimToken.Some? && q.entry.fingerprint.Some? { CallingAlone(s, q.entry.epoch, FinalOp(q.entry, q.row), p); }
  }

  lemma LockingAlone(s: Sys, pid: Pid, q: Proc)
    ensures Alone(s, GuardStep(s, pid, q), pid) && Alone(s, TryLockStep(s, pid, q), pid)
  {}

  lemma ClosingAlone(s: Sys, pid: Pid, q: Proc)
    ensures Alone(s, ReadStep(s, pid, q), pid) && Alone(s, CloseStep(s, pid, q), pid)
  {
    hide ClosedRowOf;
  }

  lemma ReclaimAlone(s: Sys, act: Act, pid: Pid, q: Proc, p: Profile)
    ensures Alone(s, ReclaimStep(s, act, pid, q, p), pid)
  {
    hide TakeStep; hide GuardStep; hide TryLockStep; hide ReadStep; hide CloseStep; hide ReflectStep; hide Alone;
    LockingAlone(s, pid, q);
    ClosingAlone(s, pid, q);
    MovesAlone(s, pid, q);
    match act
    case TakeOverdue(_, e, index) => TakeAlone(s, pid, q, e, index, p);
    case Reflect(_, fate) => ReflectAlone(s, pid, q, fate, p);
    case _ =>
  }

  /** An action moves the process it names, and the world moves none. */
  lemma NextAlone(s: Sys, act: Act, p: Profile)
    ensures if OfWorld(act) then Next(s, act, p).procs == s.procs else Alone(s, Next(s, act, p), act.pid)
  {
    hide PurchaseStep; hide ReclaimStep; hide Alone; hide Calling; hide Recovery.Next; hide Taken;
    if act.Queue? { CallingAlone(s, act.epoch, act.op, p); }
    else if OfWorld(act) {}
    else if OfReclaimer(act) { ReclaimAlone(s, act, act.pid, ProcOf(s, act.pid), p); }
    else { PurchaseAlone(s, act, act.pid, ProcOf(s, act.pid), p); }
  }

  lemma NextOthers(s: Sys, act: Act, p: Profile, pid: Pid)
    requires OfWorld(act) || act.pid != pid
    ensures ProcOf(Next(s, act, p), pid) == ProcOf(s, pid)
  {
    hide Next;
    NextAlone(s, act, p);
  }

  // ----- decided by the order of the key ---------------------------------------------------

  /** The key of this direct checkout has this order. */
  predicate Bought(s: Sys, c: Command, id: ResourceId) {
    && c.operation == DirectCheckoutOp && c.key.Some?
    && id in s.resources && s.resources[id].kind != Reserved && s.resources[id].key == c.key
  }

  /** The call repeats the request that made the order: the same payload, and no other admission than
      the one the order was made through, if it names one and the order has one. */
  predicate Repeats(s: Sys, c: Command, id: ResourceId)
    requires id in s.resources
  {
    var o := s.resources[id];
    && BoughtBy(o, c)
    && (c.admission.None? || o.via.None? ||
        (o.via == Some(c.admission.value.id) && RowIn(s.ledger, o.via.value).Some? && s.ledger[o.via.value].epoch == c.admission.value.epoch))
  }

  function KeyVerdict(s: Sys, c: Command, id: ResourceId): Result
    requires id in s.resources
  {
    if Repeats(s, c, id) then Won(id, false) else Mismatch
  }

  /** Orders stay, with their keys and their rows. */
  lemma StaysBought(s: Sys, t: Sys, c: Command, id: ResourceId)
    requires Bought(s, c, id) && LedgerOk(s) && Fenced(s, t)
    ensures Bought(t, c, id) && KeyVerdict(t, c, id) == KeyVerdict(s, c, id)
  {}

  /** The snapshot is of a time when the order was there. */
  predicate Sees(s: Sys, snap: Snap, id: ResourceId) {
    id in s.resources && id in snap.resources && (s.resources[id].via.Some? ==> s.resources[id].via.value in snap.ledger)
  }

  lemma SnapRow(s: Sys, snap: Snap, a: AdmissionId)
    requires SnapOk(s, snap) && a in snap.ledger
    ensures a in s.ledger && snap.ledger[a] == s.ledger[a]
  {}

  lemma LinkIsVia(s: Sys, snap: Snap, c: Command, id: ResourceId)
    requires LedgerOk(s) && SnapOk(s, snap) && Sees(s, snap, id)
    ensures var via := s.resources[id].via;
      LinkedElsewhere(snap, c, id) <==>
        c.admission.Some? && via.Some? && !(via.value == c.admission.value.id && s.ledger[via.value].epoch == c.admission.value.epoch)
  {
    var via := s.resources[id].via;
    forall a | a in snap.ledger && snap.ledger[a].result == ConsumedRow(id) ensures via == Some(a) {
      SnapRow(s, snap, a);
      assert RowOk(s, a, s.ledger[a]);
    }
    if via.Some? {
      assert s.ledger[via.value].result == ConsumedRow(id);
      SnapRow(s, snap, via.value);
    }
  }

  /** The key's only order answers, before any gate, and as the tables of now say. */
  lemma ReplayIs(s: Sys, pid: Pid, q: Proc, id: ResourceId)
    requires LedgerOk(s) && q.Open? && SnapOk(s, q.snap) && Bought(s, q.cmd, id) && Sees(s, q.snap, id)
    ensures ReplayStep(s, pid, q) == Tell(s, pid, q.cmd, KeyVerdict(s, q.cmd, id)) && GateStep(s, pid, q) == s
  {
    assert IsOrder(q.snap, q.cmd.key, id);
    forall r | IsOrder(q.snap, q.cmd.key, r) ensures r == id { assert SameKey(s.resources[r], s.resources[id]); }
    LinkIsVia(s, q.snap, q.cmd, id);
    hide Tell; hide LinkedElsewhere;
    assert ReplayOf(q.snap, q.cmd, id) == KeyVerdict(s, q.cmd, id);
  }

  /** A process that has this call to answer, and no transaction older than the order. */
  predicate Awaiting(s: Sys, q: Proc, c: Command, id: ResourceId) {
    (q == Submitted(c, false) || q == Submitted(c, true)) || (q.Open? && q.cmd == c && Sees(s, q.snap, id))
  }

  /** Steps of other places of a purchase do nothing here. */
  lemma Inert(s: Sys, pid: Pid, q: Proc, p: Profile)
    requires q.Submitted? || q.Open?
    ensures LockStep(s, pid, q) == s && JudgeStep(s, pid, q) == s && SettleStep(s, pid, q, Heard, p) == s && ConfirmStep(s, pid, q) == s
    ensures forall enabled, token, fate :: ClaimStep(s, pid, q, enabled, token, fate, p) == s
    ensures forall id, made :: OccupyStep(s, pid, q, id, made) == s
    ensures forall code :: DeclineStep(s, pid, q, code) == s
    ensures forall fate :: SettleStep(s, pid, q, fate, p) == s
  {}

  lemma ReclaimInert(s: Sys, act: Act, pid: Pid, q: Proc, p: Profile)
    requires q.Submitted? || q.Open?
    ensures ReclaimStep(s, act, pid, q, p) == s
  {}

  lemma Ends(s: Sys, pid: Pid, q: Proc)
    ensures ProcOf(End(s, pid, q), pid) == q && ProcOf(Go(s, pid, q), pid) == q
  {}

  /** What a step of an awaiting process can lead to. */
  predicate Leads(s: Sys, t: Sys, act: Act, pid: Pid, c: Command, id: ResourceId)
    requires id in s.resources
  {
    Awaiting(s, ProcOf(t, pid), c, id) || act == Crash(pid) || t == Tell(s, pid, c, KeyVerdict(s, c, id))
  }

  lemma StartsOver(s: Sys, pid: Pid, q: Proc, c: Command, id: ResourceId)
    requires LedgerOk(s) && id in s.resources && ProcOf(s, pid) == q && Awaiting(s, q, c, id)
    ensures Awaiting(s, ProcOf(AbortStep(s, pid, q), pid), c, id)
    ensures q.Submitted? ==> Awaiting(s, ProcOf(Go(s, pid, Open(q.cmd, q.again, Snap(s.ledger, s.resources, s.version))), pid), c, id)
    ensures q.cmd == c && (q.Open? ==> Sees(s, q.snap, id))
  {
    BeginSees(s, id);
    hide LedgerOk; hide Sees;
  }

  lemma PurchaseAnswers(s: Sys, act: Act, pid: Pid, q: Proc, p: Profile, c: Command, id: ResourceId)
    requires LedgerOk(s) && Bought(s, c, id) && ProcOf(s, pid) == q && Awaiting(s, q, c, id) && (q.Open? ==> SnapOk(s, q.snap))
    requires !act.Crash? || act.pid == pid
    ensures Leads(s, PurchaseStep(s, act, pid, q, p), act, pid, c, id)
  {
    StartsOver(s, pid, q, c, id);
    if q.Open? { ReplayIs(s, pid, q, id); } else { NotOpen(s, pid, q); }
    Inert(s, pid, q, p);
    hide LedgerOk; hide SnapOk; hide ReplayStep; hide GateStep; hide KeyVerdict; hide LockStep; hide JudgeStep; hide ClaimStep; hide OccupyStep;
    hide DeclineStep; hide SettleStep; hide ConfirmStep; hide CommitStep; hide Tell; hide Sees; hide Go; hide End; hide ProcOf; hide AbortStep;
  }

  lemma NotOpen(s: Sys, pid: Pid, q: Proc)
    requires !q.Open?
    ensures ReplayStep(s, pid, q) == s && GateStep(s, pid, q) == s
  {}

  lemma BeginSees(s: Sys, id: ResourceId)
    requires LedgerOk(s) && id in s.resources
    ensures Sees(s, Snap(s.ledger, s.resources, s.version), id)
  {}

  lemma StepAnswers(s: Sys, act: Act, p: Profile, c: Command, id: ResourceId)
    requires Inv(s, p) && !OfWorld(act) && Bought(s, c, id) && Awaiting(s, ProcOf(s, act.pid), c, id)
    ensures Leads(s, Next(s, act, p), act, act.pid, c, id)
  {
    var q := ProcOf(s, act.pid);
    Standing(s, act.pid, p);
    hide Inv; hide LedgerOk; hide SnapOk; hide Sees; hide PurchaseStep; hide ReclaimStep; hide KeyVerdict; hide Tell;
    if OfReclaimer(act) { ReclaimInert(s, act, act.pid, q, p); } else { PurchaseAnswers(s, act, act.pid, q, p, c, id); }
  }

  lemma AwaitsStill(s: Sys, t: Sys, q: Proc, c: Command, id: ResourceId)
    requires Fenced(s, t) && id in s.resources && Awaiting(s, q, c, id)
    ensures Awaiting(t, q, c, id)
  {}

  /** The call of this process, if it ends in this run, ends with this reply, or with its process. */
  ghost predicate EndsWith(s: Sys, acts: seq<Act>, p: Profile, pid: Pid, c: Command, reply: Result)
    decreases |acts|
  {
    acts == [] ||
      var t := Next(s, acts[0], p);
      if ProcOf(t, pid).Finished? then acts[0] == Crash(pid) || t == Tell(s, pid, c, reply)
      else EndsWith(t, acts[1..], p, pid, c, reply)
  }

  ghost predicate Moves(s: Sys, t: Sys, act: Act, pid: Pid, c: Command, id: ResourceId)
    requires id in s.resources
  {
    && Bought(t, c, id) && KeyVerdict(t, c, id) == KeyVerdict(s, c, id)
    && (Awaiting(t, ProcOf(t, pid), c, id) || act == Crash(pid) || t == Tell(s, pid, c, KeyVerdict(s, c, id)))
  }

  lemma NextAwaits(s: Sys, act: Act, p: Profile, pid: Pid, c: Command, id: ResourceId)
    requires Inv(s, p) && Bought(s, c, id) && Awaiting(s, ProcOf(s, pid), c, id)
    ensures Moves(s, Next(s, act, p), act, pid, c, id)
  {
    hide Next; hide Inv; hide Awaiting; hide Fenced; hide Tell; hide KeyVerdict; hide ProcOk; hide LedgerOk;
    var t := Next(s, act, p);
    Standing(s, pid, p);
    NextIsFenced(s, act, p);
    StaysBought(s, t, c, id);
    if OfWorld(act) || act.pid != pid { NextOthers(s, act, p, pid); } else { StepAnswers(s, act, p, c, id); }
    if Awaiting(s, ProcOf(t, pid), c, id) { AwaitsStill(s, t, ProcOf(t, pid), c, id); }
  }

  lemma {:induction false} AwaitingEnds(s: Sys, acts: seq<Act>, p: Profile, pid: Pid, c: Command, id: ResourceId)
    requires Inv(s, p) && PossibleRun(s, acts, p) && Bought(s, c, id) && Awaiting(s, ProcOf(s, pid), c, id)
    ensures EndsWith(s, acts, p, pid, c, KeyVerdict(s, c, id))
    decreases |acts|
  {
    hide Inv; hide Next; hide Possible; hide KeyVerdict; hide Tell; hide Sees; hide LedgerOk;
    if acts != [] {
      var t := Next(s, acts[0], p);
      NextKeeps(s, acts[0], p);
      NextAwaits(s, acts[0], p, pid, c, id);
      if acts[0] == Crash(pid) { CrashFinishes(s, pid, p); }
      if t == Tell(s, pid, c, KeyVerdict(s, c, id)) { TellFinishes(s, pid, c, KeyVerdict(s, c, id)); }
      if !ProcOf(t, pid).Finished? { AwaitingEnds(t, acts[1..], p, pid, c, id); }
    }
  }

  lemma CrashFinishes(s: Sys, pid: Pid, p: Profile)
    ensures ProcOf(Next(s, Crash(pid), p), pid).Finished?
  {
    Ends(s, pid, Finished);
    hide End; hide ProcOf;
  }

  lemma TellFinishes(s: Sys, pid: Pid, c: Command, reply: Result)
    ensures ProcOf(Tell(s, pid, c, reply), pid).Finished?
  {}

  lemma ReplayOrderIs(s: Sys, pid: Pid, p: Profile)
    ensures Next(s, ReplayOrder(pid), p) == ReplayStep(s, pid, ProcOf(s, pid))
  {
    hide ProcOf; hide ReplayStep;
  }

  /** Two steps and no gate are enough for the answer. */
  lemma AnswersAtOnce(s: Sys, p: Profile, pid: Pid, c: Command, again: bool, id: ResourceId)
    requires LedgerOk(s) && Bought(s, c, id) && ProcOf(s, pid) == Submitted(c, again)
    ensures Next(Next(s, Begin(pid), p), ReplayOrder(pid), p).answers == s.answers + [Answered(c, KeyVerdict(s, c, id))]
  {
    var q := Open(c, again, Snap(s.ledger, s.resources, s.version));
    var t := Next(s, Begin(pid), p);
    BeginIs(s, pid, p);
    ReplayOrderIs(t, pid, p);
    hide Next;
    assert t == Go(s, pid, q) && ProcOf(t, pid) == q;
    BeginSees(s, id);
    GoLedger(s, pid, q);
    assert SnapOk(t, q.snap) by { hide Ordering; BeginSnap(s); }
    hide LedgerOk; hide SnapOk; hide KeyVerdict; hide ReplayStep;
    assert Bought(t, c, id) && Sees(t, q.snap, id) && KeyVerdict(t, c, id) == KeyVerdict(s, c, id);
    ReplayIs(t, pid, q, id);
  }

  lemma GoLedger(s: Sys, pid: Pid, q: Proc)
    requires LedgerOk(s)
    ensures LedgerOk(Go(s, pid, q))
  {
    forall a | a in s.ledger ensures RowOk(Go(s, pid, q), a, s.ledger[a]) { assert RowOk(s, a, s.ledger[a]); }
  }

  lemma {:induction false} RunStaysBought(s: Sys, acts: seq<Act>, p: Profile, c: Command, id: ResourceId)
    requires Inv(s, p) && PossibleRun(s, acts, p) && Bought(s, c, id)
    ensures var t := Run(s, acts, p); Inv(t, p) && Bought(t, c, id) && KeyVerdict(t, c, id) == KeyVerdict(s, c, id)
    decreases |acts|
  {
    hide Next; hide Possible; hide KeyVerdict; hide Fenced; hide StoresOk; hide GateOk; hide LocksOk; hide ProcsOk; hide AnswersOk; hide LedgerOk;
    hide ContentOk; hide Populated; hide Recovery.Inv;
    if acts != [] {
      NextKeeps(s, acts[0], p);
      NextIsFenced(s, acts[0], p);
      StaysBought(s, Next(s, acts[0], p), c, id);
      RunStaysBought(Next(s, acts[0], p), acts[1..], p, c, id);
    }
  }

  /** Once a key has an order, every call under it that begins afterwards is answered the same, for good:
      with the order if it repeats the request that made it, and with a mismatch if not. Nothing that
      happened before it began or happens while it waits can change that, no gate can hold it up, and
      only a crash of its process ends it otherwise. */
  lemma KeyDecides(s: Sys, acts: seq<Act>, more: seq<Act>, p: Profile, pid: Pid, c: Command, again: bool, id: ResourceId)
    requires Inv(s, p) && Bought(s, c, id) && PossibleRun(s, acts, p)
    requires PossibleRun(Run(s, acts, p), more, p) && ProcOf(Run(s, acts, p), pid) == Submitted(c, again)
    ensures var t := Run(s, acts, p);
      && EndsWith(t, more, p, pid, c, if Repeats(s, c, id) then Won(id, false) else Mismatch)
      && Run(t, [Begin(pid), ReplayOrder(pid)], p).answers
           == t.answers + [Answered(c, if Repeats(s, c, id) then Won(id, false) else Mismatch)]
  {
    hide Next; hide Possible; hide Sees; hide Repeats; hide EndsWith; hide IsOrder; hide LedgerOk;
    var t := Run(s, acts, p);
    RunStaysBought(s, acts, p, c, id);
    Standing(t, pid, p);
    hide Inv;
    AwaitingEnds(t, more, p, pid, c, id);
    AnswersAtOnce(t, p, pid, c, again, id);
    TwoSteps(t, Begin(pid), ReplayOrder(pid), p);
  }

  lemma TwoSteps(s: Sys, a: Act, b: Act, p: Profile)
    ensures Run(s, [a, b], p) == Next(Next(s, a, p), b, p)
  {
    hide Next;
    assert [a, b][1..] == [b];
    assert Run(Next(s, a, p), [b], p) == Run(Next(Next(s, a, p), b, p), [b][1..], p);
  }

  /** A checkout key has one order at most, in every reachable state. */
  lemma OneOrderPerKey(s: Sys, epoch: Epoch, run: int, protected: bool, clock: int, acts: seq<Act>, p: Profile, q: ResourceId, r: ResourceId)
    requires Reachable(s, epoch, run, protected, clock, acts, p)
    requires q in s.resources && r in s.resources && s.resources[q].kind != Reserved && s.resources[r].kind != Reserved
    requires s.resources[q].key.Some? && s.resources[q].key == s.resources[r].key
    ensures q == r
  {
    hide Reachable; hide ContentOk; hide Populated; hide ProcsOk; hide AnswersOk; hide RowOk;
    ReachableHolds(s, epoch, run, protected, clock, acts, p);
    assert SameKey(s.resources[q], s.resources[r]);
  }

  // ----- decided by the row of the admission -----------------------------------------------

  /** The admission this reservation came with has its row. */
  predicate Judged(s: Sys, c: Command) {
    c.operation == ReservationOp && Known(s.ledger, c)
  }

  /** What the row means for this request. */
  function RowVerdict(s: Sys, c: Command): Result
    requires Known(s.ledger, c)
  {
    var row := s.ledger[c.admission.value.id];
    if row.user != c.user || row.event != c.event then Foreign
    else if row.fp != Request(c) then Mismatch
    else match row.result
      case ConsumedRow(id) => Won(id, true)
      case RejectedRow(code) => Declined(code)
      case ClosedRow => Gone
  }

  lemma StaysJudged(s: Sys, t: Sys, c: Command)
    requires Judged(s, c) && Fenced(s, t)
    ensures Judged(t, c) && RowVerdict(t, c) == RowVerdict(s, c)
  {}

  /** A process that has this call to answer, and no transaction older than the row. */
  predicate AwaitingRow(q: Proc, c: Command) {
    && (q.Submitted? || q.Open? || q.Gated? || q.Locked?) && q.cmd == c
    && (!q.Submitted? ==> Known(q.snap.ledger, c))
  }

  lemma JudgeIs(s: Sys, pid: Pid, q: Proc)
    requires LedgerOk(s) && q.Locked? && SnapOk(s, q.snap) && Judged(s, q.cmd) && Known(q.snap.ledger, q.cmd)
    ensures JudgeStep(s, pid, q) == Tell(s, pid, q.cmd, RowVerdict(s, q.cmd))
  {
    var a := q.cmd.admission.value.id;
    SnapRow(s, q.snap, a);
    assert RowOk(s, a, s.ledger[a]);
    hide Tell;
  }

  ghost predicate RowLeads(s: Sys, t: Sys, act: Act, pid: Pid, c: Command)
    requires Known(s.ledger, c)
  {
    AwaitingRow(ProcOf(t, pid), c) || act == Crash(pid) || t == Tell(s, pid, c, RowVerdict(s, c))
  }

  lemma InertAtGate(s: Sys, act: Act, pid: Pid, q: Proc, c: Command, p: Profile)
    requires AwaitingRow(q, c)
    ensures ReclaimStep(s, act, pid, q, p) == s && SettleStep(s, pid, q, Heard, p) == s && ConfirmStep(s, pid, q) == s
    ensures forall enabled, token, fate :: ClaimStep(s, pid, q, enabled, token, fate, p) == s
    ensures forall id, made :: OccupyStep(s, pid, q, id, made) == s
    ensures forall code :: DeclineStep(s, pid, q, code) == s
    ensures forall fate :: SettleStep(s, pid, q, fate, p) == s
    ensures !q.Locked? ==> JudgeStep(s, pid, q) == s
    ensures c.operation == ReservationOp ==> ReplayStep(s, pid, q) == s
  {}

  lemma GateLeads(s: Sys, pid: Pid, q: Proc, c: Command)
    requires AwaitingRow(q, c) && ProcOf(s, pid) == q
    ensures AwaitingRow(ProcOf(GateStep(s, pid, q), pid), c) && AwaitingRow(ProcOf(LockStep(s, pid, q), pid), c)
    ensures AwaitingRow(ProcOf(AbortStep(s, pid, q), pid), c)
    ensures q.Submitted? && Known(s.ledger, c) ==>
      AwaitingRow(ProcOf(Go(s, pid, Open(q.cmd, q.again, Snap(s.ledger, s.resources, s.version))), pid), c)
  {
    hide Ordering;
  }

  lemma PurchaseLeads(s: Sys, act: Act, pid: Pid, q: Proc, p: Profile, c: Command)
    requires LedgerOk(s) && ProcOf(s, pid) == q && AwaitingRow(q, c) && Judged(s, c) && (q.Locked? ==> SnapOk(s, q.snap))
    requires act.Crash? ==> act.pid == pid
    ensures RowLeads(s, PurchaseStep(s, act, pid, q, p), act, pid, c)
  {
    if q.Locked? { JudgeIs(s, pid, q); }
    InertAtGate(s, act, pid, q, c, p);
    GateLeads(s, pid, q, c);
    hide LedgerOk; hide SnapOk; hide ReplayStep; hide GateStep; hide RowVerdict; hide LockStep; hide JudgeStep; hide ClaimStep; hide OccupyStep;
    hide DeclineStep; hide SettleStep; hide ConfirmStep; hide CommitStep; hide AbortStep; hide Tell; hide Go; hide End; hide ProcOf;
  }

  ghost predicate RowMoves(s: Sys, t: Sys, act: Act, pid: Pid, c: Command)
    requires Known(s.ledger, c)
  {
    Judged(t, c) && RowVerdict(t, c) == RowVerdict(s, c) && RowLeads(s, t, act, pid, c)
  }

  lemma StepLeads(s: Sys, act: Act, p: Profile, c: Command)
    requires Inv(s, p) && !OfWorld(act) && Judged(s, c) && AwaitingRow(ProcOf(s, act.pid), c)
    ensures RowLeads(s, Next(s, act, p), act, act.pid, c)
  {
    var q := ProcOf(s, act.pid);
    Standing(s, act.pid, p);
    assert q.Locked? ==> SnapOk(s, q.snap);
    hide Inv; hide LedgerOk; hide SnapOk; hide PurchaseStep; hide ReclaimStep; hide RowVerdict; hide Tell; hide ProcOk;
    if OfReclaimer(act) { InertAtGate(s, act, act.pid, q, c, p); } else { PurchaseLeads(s, act, act.pid, q, p, c); }
  }

  lemma NextAwaitsRow(s: Sys, act: Act, p: Profile, pid: Pid, c: Command)
    requires Inv(s, p) && Judged(s, c) && AwaitingRow(ProcOf(s, pid), c)
    ensures RowMoves(s, Next(s, act, p), act, pid, c)
  {
    hide Next; hide Inv; hide AwaitingRow; hide Fenced; hide Tell; hide RowVerdict;
    NextIsFenced(s, act, p);
    StaysJudged(s, Next(s, act, p), c);
    if OfWorld(act) || act.pid != pid { NextOthers(s, act, p, pid); } else { StepLeads(s, act, p, c); }
  }

  lemma {:induction false} AwaitingRowEnds(s: Sys, acts: seq<Act>, p: Profile, pid: Pid, c: Command)
    requires Inv(s, p) && PossibleRun(s, acts, p) && Judged(s, c) && AwaitingRow(ProcOf(s, pid), c)
    ensures EndsWith(s, acts, p, pid, c, RowVerdict(s, c))
    decreases |acts|
  {
    hide Inv; hide Next; hide Possible; hide RowVerdict; hide Tell; hide LedgerOk;
    if acts != [] {
      var t := Next(s, acts[0], p);
      NextKeeps(s, acts[0], p);
      NextAwaitsRow(s, acts[0], p, pid, c);
      if acts[0] == Crash(pid) { CrashFinishes(s, pid, p); }
      if t == Tell(s, pid, c, RowVerdict(s, c)) { TellFinishes(s, pid, c, RowVerdict(s, c)); }
      if !ProcOf(t, pid).Finished? { AwaitingRowEnds(t, acts[1..], p, pid, c); }
    }
  }

  lemma {:induction false} RunStaysJudged(s: Sys, acts: seq<Act>, p: Profile, c: Command)
    requires Inv(s, p) && PossibleRun(s, acts, p) && Judged(s, c)
    ensures var t := Run(s, acts, p); Inv(t, p) && Judged(t, c) && RowVerdict(t, c) == RowVerdict(s, c)
    decreases |acts|
  {
    hide Inv; hide Next; hide Possible; hide RowVerdict; hide Fenced;
    if acts != [] {
      NextKeeps(s, acts[0], p);
      NextIsFenced(s, acts[0], p);
      StaysJudged(s, Next(s, acts[0], p), c);
      RunStaysJudged(Next(s, acts[0], p), acts[1..], p, c);
    }
  }

  /** Once an admission has its row, a reservation that names it and begins afterwards is answered by the
      row, whatever became of the entry, its epoch or the policy: the same request with the reservation
      that was made, with the refusal that was stored, or with the closure; any other with 404 or 409. */
  lemma RowDecides(s: Sys, acts: seq<Act>, more: seq<Act>, p: Profile, pid: Pid, c: Command, again: bool)
    requires Inv(s, p) && Judged(s, c) && PossibleRun(s, acts, p)
    requires PossibleRun(Run(s, acts, p), more, p) && ProcOf(Run(s, acts, p), pid) == Submitted(c, again)
    ensures EndsWith(Run(s, acts, p), more, p, pid, c, RowVerdict(s, c))
  {
    hide Inv; hide Next; hide Possible; hide RowVerdict; hide EndsWith;
    RunStaysJudged(s, acts, p, c);
    AwaitingRowEnds(Run(s, acts, p), more, p, pid, c);
  }
}
