/** What the two stores promise together, in every reachable state and over every run. */
module ProtocolLaws {
  import opened AdmissionTypes
  import opened AdmissionSpace
  import opened AdmissionControl
  import opened Agreement
  import opened AgreementCalls
  import opened Protocol
  import opened Reflection
  import opened LedgerCheck
  import opened ProtocolInvariant
  import opened ProtocolSteps
  import opened ProtocolKeeps
  import opened ProtocolRuns
  import Recovery

  // ----- a durable reason for every slot ---------------------------------------------------

  lemma FitsAgrees(x: Entry, row: Option<Row>, p: Profile, clock: int)
    requires Fits(x, row) && EntryOk(x, p, clock)
    ensures Agrees(x, row)
  {}

  lemma EpochMatches(s: Sys, e: Epoch, p: Profile)
    requires Inv(s, p) && e in s.content
    ensures forall id | id in s.content[e].entries :: s.content[e].entries[id].id == id
    ensures forall a | a in s.ledger :: s.ledger[a].admission == a
    ensures forall id | id in s.content[e].entries && id in s.ledger :: s.ledger[id].epoch == e
    ensures forall a | a in s.ledger && s.ledger[a].epoch == e :: a in s.content[e].entries
    ensures forall id | id in s.content[e].entries :: Agrees(s.content[e].entries[id], RowIn(s.ledger, id))
    ensures s.content[e].epoch == e
  {
    forall a | a in s.ledger ensures s.ledger[a].admission == a && HasEntry(s, s.ledger[a].epoch, a) { assert RowOk(s, a, s.ledger[a]); }
    AgreedAt(s, e, p);
    assert AllFit(s.content[e], s.ledger) && Populated(s);
    hide Inv; hide Agreed; hide Agrees; hide EverReady; hide EntryOk; hide Fits;
    forall id | id in s.content[e].entries ensures s.content[e].entries[id].id == id && Agrees(s.content[e].entries[id], RowIn(s.ledger, id)) {
      EntryIsOk(s.content[e], id, p, s.clock);
      FitsAgrees(s.content[e].entries[id], RowIn(s.ledger, id), p, s.clock);
    }
  }

  /** In every reachable state, for every epoch whose entries are there to compare, the comparison of
      ledger and Redis finds nothing, in whatever order rows and entries are listed. */
  lemma LedgerAlwaysMatches(s: Sys, epoch: Epoch, run: int, protected: bool, clock: int, acts: seq<Act>, p: Profile,
                            e: Epoch, rows: seq<Row>, entries: seq<Entry>)
    requires Reachable(s, epoch, run, protected, clock, acts, p)
    requires e in s.content && Lists(rows, entries, s.ledger, s.content[e])
    ensures RowProblems(rows, EntryMap(entries)) + EntryProblems(entries, RowMap(rows)) == []
  {
    hide Inv; hide Reachable; hide Agrees; hide Lists; hide RowProblems; hide EntryProblems; hide EntryMap; hide RowMap;
    ReachableHolds(s, epoch, run, protected, clock, acts, p);
    EpochMatches(s, e, p);
    NoMismatchIff(rows, entries, s.ledger, s.content[e]);
  }

  /** An intact namespace is among those compared. */
  lemma IntactIsCompared(s: Sys, epoch: Epoch, run: int, protected: bool, clock: int, acts: seq<Act>, p: Profile, e: Epoch)
    requires Reachable(s, epoch, run, protected, clock, acts, p)
    ensures Recovery.HealthOf(s.rec, e) == Sound ==> e in s.content
  {
    hide Reachable; hide ContentOk; hide LedgerOk; hide ProcsOk; hide AnswersOk; hide EverReady;
    ReachableHolds(s, epoch, run, protected, clock, acts, p);
  }

  /** An entry that was claimed and holds its slot no longer has a committed row, and its final state
      and outcome are the row's. */
  lemma SlotFreedForARow(s: Sys, epoch: Epoch, run: int, protected: bool, clock: int, acts: seq<Act>, p: Profile, e: Epoch, id: AdmissionId)
    requires Reachable(s, epoch, run, protected, clock, acts, p)
    requires HasEntry(s, e, id) && s.content[e].entries[id].fingerprint.Some? && id !in s.content[e].active
    ensures id in s.ledger && s.ledger[id].epoch == e
    ensures var (x, row) := (s.content[e].entries[id], s.ledger[id]);
      && x.fingerprint == Some(row.fp)
      && match row.result
         case ClosedRow => x.state == Expired && x.reason == Some(AdmissionExpired)
         case ConsumedRow(made) => x.state == Consumed && x.outcome == Some(Outcome(OutcomeKind.Bought(row.operation), Some(made), None))
         case RejectedRow(code) => x.state == Consumed && x.outcome == Some(Outcome(OutcomeKind.Rejected, None, Some(code)))
  {
    ReachableHolds(s, epoch, run, protected, clock, acts, p);
    hide Reachable;
    assert AllFit(s.content[e], s.ledger) && Agreed(s.content[e], p, s.clock) && Populated(s);
    if id in s.ledger { assert RowOk(s, id, s.ledger[id]); }
    hide Inv; hide EverReady;
    ActiveIfClaimed(s.content[e], id, p, s.clock);
    hide Agreed;
    assert Fits(s.content[e].entries[id], RowIn(s.ledger, id));
  }

  lemma ActiveIfClaimed(s: Space, id: AdmissionId, p: Profile, clock: int)
    requires Agreed(s, p, clock) && id in s.entries && id !in s.active
    ensures !Claimed(s.entries[id])
  {
    hide Shaped; hide Owning; hide Numbered; hide Budgeted; hide Logged; hide WaitingIndexed; hide ClaimsIndexed;
    assert id in s.active <==> IsState(s, id, Admitted);
  }

  /** The request, element by element. */
  function Request(c: Command): Fingerprint
    requires c.admission.Some?
  {
    Fingerprint(c.user, c.event, c.admission.value.epoch, c.operation, c.tier, c.quantity, c.key)
  }

  /** Made by exactly this request: a reservation, or an order under its key. */
  predicate BoughtBy(r: Resource, c: Command) {
    && r.user == c.user && r.event == c.event && r.tier == c.tier && r.quantity == c.quantity
    && match c.operation
       case ReservationOp => r.kind == Reserved
       case DirectCheckoutOp => r.kind == Ordered && r.key == c.key
  }

  // ----- exactly once ----------------------------------------------------------------------

  /** Everything that was ever made through one admission is one resource, the one its row names. */
  lemma OneResourceEach(s: Sys, epoch: Epoch, run: int, protected: bool, clock: int, acts: seq<Act>, p: Profile, q: ResourceId, r: ResourceId)
    requires Reachable(s, epoch, run, protected, clock, acts, p)
    requires q in s.resources && r in s.resources && s.resources[q].via.Some? && s.resources[q].via == s.resources[r].via
    ensures q == r && s.resources[q].via.value in s.ledger && s.ledger[s.resources[q].via.value].result == ConsumedRow(q)
  {
    hide Reachable; hide ContentOk; hide Populated; hide ProcsOk; hide AnswersOk; hide RowOk;
    ReachableHolds(s, epoch, run, protected, clock, acts, p);
  }

  /** All successful answers that came through an admission were to one request and name one
      resource, with that request's payload. */
  lemma AnswersAgree(s: Sys, epoch: Epoch, run: int, protected: bool, clock: int, acts: seq<Act>, p: Profile, i: nat, j: nat)
    requires Reachable(s, epoch, run, protected, clock, acts, p) && i < |s.answers| && j < |s.answers|
    requires s.answers[i].reply.Won? && s.answers[i].reply.linked && s.answers[j].reply.Won? && s.answers[j].reply.linked
    requires s.answers[i].cmd.admission.Some? && s.answers[j].cmd.admission.Some?
    requires s.answers[i].cmd.admission.value.id == s.answers[j].cmd.admission.value.id
    ensures s.answers[i].reply.resource == s.answers[j].reply.resource && Request(s.answers[i].cmd) == Request(s.answers[j].cmd)
    ensures s.answers[i].reply.resource in s.resources && BoughtBy(s.resources[s.answers[i].reply.resource], s.answers[i].cmd)
  {
    hide Reachable; hide ContentOk; hide Populated; hide ProcsOk; hide LedgerOk;
    ReachableHolds(s, epoch, run, protected, clock, acts, p);
    assert AnswerOk(s, s.answers[i]) && AnswerOk(s, s.answers[j]);
  }

  /** A checkout key buys one order: all successful direct checkouts under it name the same one. */
  lemma KeyBuysOnce(s: Sys, epoch: Epoch, run: int, protected: bool, clock: int, acts: seq<Act>, p: Profile, i: nat, j: nat)
    requires Reachable(s, epoch, run, protected, clock, acts, p) && i < |s.answers| && j < |s.answers|
    requires s.answers[i].reply.Won? && s.answers[j].reply.Won?
    requires s.answers[i].cmd.operation == DirectCheckoutOp && s.answers[j].cmd.operation == DirectCheckoutOp
    requires s.answers[i].cmd.key == s.answers[j].cmd.key
    ensures s.answers[i].reply.resource == s.answers[j].reply.resource
  {
    hide Reachable; hide ContentOk; hide Populated; hide ProcsOk;
    ReachableHolds(s, epoch, run, protected, clock, acts, p);
    assert AnswerOk(s, s.answers[i]) && AnswerOk(s, s.answers[j]);
    assert SameKey(s.resources[s.answers[i].reply.resource], s.resources[s.answers[j].reply.resource]);
  }

  /** No call ends in a refusal that only a stale snapshot caused, and none meets a result without
      its order or its reservation. */
  lemma NothingStrands(s: Sys, epoch: Epoch, run: int, protected: bool, clock: int, acts: seq<Act>, p: Profile, i: nat)
    requires Reachable(s, epoch, run, protected, clock, acts, p) && i < |s.answers|
    ensures !s.answers[i].reply.Stranded? && (s.answers[i].reply.Denied? ==> !s.answers[i].reply.known)
  {
    hide Reachable; hide ContentOk; hide Populated; hide ProcsOk; hide LedgerOk;
    ReachableHolds(s, epoch, run, protected, clock, acts, p);
    assert AnswerOk(s, s.answers[i]);
  }

  // ----- the fences ------------------------------------------------------------------------

  /** Rows and resources are only added: a row under the protected policy of its own epoch, and, while
      the policy is protected, no occupation without its row. */
  ghost predicate Fenced(s: Sys, t: Sys) {
    && (forall a | a in s.ledger :: a in t.ledger && t.ledger[a] == s.ledger[a])
    && (forall r | r in s.resources :: r in t.resources && t.resources[r] == s.resources[r])
    && (forall a | a in t.ledger && a !in s.ledger :: s.rec.policy.protected && t.ledger[a].epoch == s.rec.policy.epoch)
    && (forall r | r in t.resources && r !in s.resources && t.resources[r].kind != Converted && s.rec.policy.protected ::
          t.resources[r].via.Some? && t.resources[r].via.value in t.ledger && t.ledger[t.resources[r].via.value].result == ConsumedRow(r))
  }

  /** Neither the durable side nor the policy was written. */
  predicate Untouched(s: Sys, t: Sys) {
    t.ledger == s.ledger && t.resources == s.resources && t.rec == s.rec
  }

  lemma UntouchedIsFenced(s: Sys, t: Sys)
    requires Untouched(s, t)
    ensures Fenced(s, t)
  {}

  lemma CommitFenced(s: Sys, pid: Pid, q: Proc)
    requires q.Pending? && ProcOk(s, q)
    ensures Fenced(s, CommitStep(s, pid, q)) && CommitStep(s, pid, q).rec == s.rec
  {
    hide Tied; hide Taken; hide Print;
  }

  lemma CloseFenced(s: Sys, pid: Pid, q: Proc)
    requires ProcOk(s, q)
    ensures Fenced(s, CloseStep(s, pid, q)) && CloseStep(s, pid, q).rec == s.rec
  {
    hide Tied;
  }

  lemma CallingUntouched(s: Sys, e: Epoch, op: Op, p: Profile)
    ensures Untouched(s, Calling(s, e, op, p).0)
  {
    hide Step; hide Barred;
  }

  lemma ClaimUntouched(s: Sys, pid: Pid, q: Proc, enabled: bool, token: Token, fate: Fate, p: Profile)
    ensures Untouched(s, ClaimStep(s, pid, q, enabled, token, fate, p))
  {
    hide Calling; hide Print;
    if q.Cleared? && q.policy.protected && q.cmd.admission.Some? {
      CallingUntouched(s, q.cmd.admission.value.epoch, DoClaim(q.cmd.user, q.cmd.admission.value.id, Print(q.cmd), token), p);
    }
  }

  lemma SettleUntouched(s: Sys, pid: Pid, q: Proc, fate: Fate, p: Profile)
    ensures Untouched(s, SettleStep(s, pid, q, fate, p))
  {
    hide Calling; hide OutcomeOf;
    if q.Settling? { CallingUntouched(s, q.row.epoch, DoComplete(q.cmd.user, q.row.admission, q.row.fp, q.token, OutcomeOf(q.row)), p); }
  }

  lemma OpeningUntouched(s: Sys, pid: Pid, q: Proc)
    ensures Untouched(s, ReplayStep(s, pid, q)) && Untouched(s, GateStep(s, pid, q)) && Untouched(s, LockStep(s, pid, q))
  {
    hide ReplayOf; hide Ordering;
  }

  lemma DecidingUntouched(s: Sys, pid: Pid, q: Proc)
    ensures Untouched(s, JudgeStep(s, pid, q)) && Untouched(s, ConfirmStep(s, pid, q)) && Untouched(s, AbortStep(s, pid, q))
  {
    hide JudgeRow;
  }

  lemma OccupyUntouched(s: Sys, pid: Pid, q: Proc, id: ResourceId, made: Resource)
    ensures Untouched(s, OccupyStep(s, pid, q, id, made))
  {
    hide RowFor;
  }

  lemma DeclineUntouched(s: Sys, pid: Pid, q: Proc, code: Code)
    ensures Untouched(s, DeclineStep(s, pid, q, code))
  {
    hide RowFor;
  }

  lemma EndUntouched(s: Sys, pid: Pid, q: Proc)
    ensures Untouched(s, End(s, pid, q)) && Untouched(s, Go(s, pid, q)) && Untouched(s, s)
  {}

  /** Only a purchase's COMMIT writes. */
  lemma PurchaseUntouched(s: Sys, act: Act, pid: Pid, q: Proc, p: Profile)
    requires !act.Commit? || !q.Pending?
    ensures Untouched(s, PurchaseStep(s, act, pid, q, p))
  {
    hide CommitStep; hide ReplayStep; hide GateStep; hide LockStep; hide JudgeStep; hide ClaimStep; hide Untouched; hide Go; hide End;
    hide OccupyStep; hide DeclineStep; hide SettleStep; hide ConfirmStep; hide AbortStep;
    OpeningUntouched(s, pid, q);
    DecidingUntouched(s, pid, q);
    EndUntouched(s, pid, Finished);
    match act
    case Submit(_, cmd) => EndUntouched(s, pid, Submitted(cmd, false));
    case Begin(_) => if q.Submitted? { EndUntouched(s, pid, Open(q.cmd, q.again, Snap(s.ledger, s.resources, s.version))); }
    case ClaimNow(_, enabled, token, fate) => ClaimUntouched(s, pid, q, enabled, token, fate, p);
    case Occupy(_, id, made) => OccupyUntouched(s, pid, q, id, made);
    case Decline(_, code) => DeclineUntouched(s, pid, q, code);
    case Settle(_, fate) => SettleUntouched(s, pid, q, fate, p);
    case _ =>
  }

  lemma WaitingUntouched(s: Sys, pid: Pid, q: Proc)
    ensures Untouched(s, GuardStep(s, pid, q)) && Untouched(s, TryLockStep(s, pid, q)) && Untouched(s, ReadStep(s, pid, q))
  {}

  lemma TakeUntouched(s: Sys, pid: Pid, q: Proc, e: Epoch, index: nat, p: Profile)
    ensures Untouched(s, TakeStep(s, pid, q, e, index, p))
  {
    hide Calling;
    CallingUntouched(s, e, DoReconcile, p);
  }

  lemma ReflectUntouched(s: Sys, pid: Pid, q: Proc, fate: Fate, p: Profile)
    ensures Untouched(s, ReflectStep(s, pid, q, fate, p))
  {
    hide Calling; hide FinalOp;
    if q.Reflecting? && q.entry.claimToken.Some? && q.entry.fingerprint.Some? { CallingUntouched(s, q.entry.epoch, FinalOp(q.entry, q.row), p); }
  }

  /** Only the reclaimer's COMMIT writes. */
  lemma ReclaimUntouched(s: Sys, act: Act, pid: Pid, q: Proc, p: Profile)
    requires !act.CommitClosed?
    ensures Untouched(s, ReclaimStep(s, act, pid, q, p))
  {
    hide TakeStep; hide GuardStep; hide TryLockStep; hide ReadStep; hide ReflectStep; hide CloseStep; hide Untouched;
    WaitingUntouched(s, pid, q);
    EndUntouched(s, pid, Finished);
    match act
    case TakeOverdue(_, e, index) => TakeUntouched(s, pid, q, e, index, p);
    case Reflect(_, fate) => ReflectUntouched(s, pid, q, fate, p);
    case _ =>
  }

  lemma WorldFenced(s: Sys, act: Act, p: Profile)
    requires OfWorld(act)
    ensures Fenced(s, Next(s, act, p))
    ensures !act.World? ==> Next(s, act, p).rec == s.rec
  {
    hide Calling; hide Taken; hide Recovery.Next;
    if act.Queue? { CallingUntouched(s, act.epoch, act.op, p); }
  }

  lemma ProcFenced(s: Sys, act: Act, p: Profile)
    requires !OfWorld(act) && ProcOk(s, ProcOf(s, act.pid))
    ensures Fenced(s, Next(s, act, p)) && Next(s, act, p).rec == s.rec
  {
    hide ProcOk; hide Fenced; hide CommitStep; hide CloseStep; hide Taken;
    var q := ProcOf(s, act.pid);
    var t := Next(s, act, p);
    if act.CommitClosed? {
      CloseFenced(s, act.pid, q);
    } else if OfReclaimer(act) {
      assert t == ReclaimStep(s, act, act.pid, q, p);
      hide ReclaimStep; hide Next;
      ReclaimUntouched(s, act, act.pid, q, p);
      UntouchedIsFenced(s, t);
    } else if act.Commit? && q.Pending? {
      CommitFenced(s, act.pid, q);
    } else {
      assert t == PurchaseStep(s, act, act.pid, q, p);
      hide PurchaseStep; hide Next;
      PurchaseUntouched(s, act, act.pid, q, p);
      UntouchedIsFenced(s, t);
    }
  }

  /** Every action respects both fences: a row commits under the protected policy of its own epoch,
      and while the policy is protected no new occupation commits without its row. */
  lemma NextIsFenced(s: Sys, act: Act, p: Profile)
    requires Inv(s, p)
    ensures Fenced(s, Next(s, act, p))
    ensures !act.World? ==> Next(s, act, p).rec == s.rec
  {
    if OfWorld(act) {
      hide Inv; hide Next; hide Fenced;
      WorldFenced(s, act, p);
    } else {
      Standing(s, act.pid, p);
      hide Inv; hide Next; hide Fenced; hide ProcOk;
      ProcFenced(s, act, p);
    }
  }

  lemma LeftForGood(s: Recovery.State, a: Recovery.Action, e: Epoch)
    requires Recovery.Possible(s, a) && e in s.used && s.policy.epoch != e
    ensures var t := Recovery.Next(s, a); e in t.used && t.policy.epoch != e
  {
    hide Freeze; hide Probe; hide Publish; hide Initialize; hide Recovery.Keeps;
  }

  predicate Left(s: Sys, e: Epoch) {
    e in s.rec.used && s.rec.policy.epoch != e
  }

  lemma NextStaysLeft(s: Sys, act: Act, p: Profile, e: Epoch)
    requires Inv(s, p) && Possible(s, act) && Left(s, e)
    ensures Left(Next(s, act, p), e)
  {
    NextIsFenced(s, act, p);
    hide Inv; hide Fenced;
    if act.World? {
      LeftForGood(s.rec, act.a, e);
      hide Recovery.Next;
    } else {
      hide Next;
    }
  }

  /** Once its epoch was left, no row of it is ever added, and none is ever changed or removed. */
  lemma {:induction false} LeftEpochGetsNoRow(s: Sys, acts: seq<Act>, p: Profile, e: Epoch)
    requires Inv(s, p) && PossibleRun(s, acts, p) && Left(s, e)
    ensures var t := Run(s, acts, p);
      && (forall a | a in s.ledger :: a in t.ledger && t.ledger[a] == s.ledger[a])
      && (forall a | a in t.ledger && t.ledger[a].epoch == e :: a in s.ledger)
    decreases |acts|
  {
    hide Inv; hide Next; hide Possible;
    if acts != [] {
      NextKeeps(s, acts[0], p);
      NextIsFenced(s, acts[0], p);
      NextStaysLeft(s, acts[0], p, e);
      LeftEpochGetsNoRow(Next(s, acts[0], p), acts[1..], p, e);
    }
  }
}
