/** What holds between any two actions of the purchase protocol. */
module ProtocolInvariant {
  import opened AdmissionTypes
  import opened AdmissionSpace
  import opened AdmissionControl
  import opened Agreement
  import opened AgreementOps
  import opened AdmissionRuns
  import opened Protocol
  import opened Reflection
  import Recovery

  // ----- Redis against the ledger ----------------------------------------------------------

  ghost predicate EverReady(rec: Recovery.State, e: Epoch) {
    exists g :: g in rec.ready && g in rec.epochOf && rec.epochOf[g] == e
  }

  ghost predicate ContentOk(s: Sys, p: Profile) {
    forall e | e in s.content :: s.content[e].epoch == e && Agreed(s.content[e], p, s.clock) && AllFit(s.content[e], s.ledger)
  }

  /** Entries only ever came to epochs that were ready, an intact namespace is known, and no id is
      shared between epochs. */
  ghost predicate Populated(s: Sys) {
    && (forall e, id | e in s.content && id in s.content[e].entries :: EverReady(s.rec, e))
    && (forall e | e in s.rec.spaces && s.rec.spaces[e] == Sound :: e in s.content)
    && (forall e, f, id | e in s.content && f in s.content && id in s.content[e].entries && id in s.content[f].entries :: e == f)
  }

  predicate HasEntry(s: Sys, e: Epoch, id: AdmissionId) {
    e in s.content && id in s.content[e].entries
  }

  predicate MadeFor(res: Resource, row: Row) {
    && res.via == Some(row.admission) && res.kind == KindOf(row.operation)
    && res.user == row.fp.user && res.event == row.fp.event && res.tier == row.fp.tier && res.quantity == row.fp.quantity
    && (row.operation == DirectCheckoutOp ==> res.key == row.fp.key && res.key.Some?)
  }

  predicate RowOk(s: Sys, a: AdmissionId, row: Row) {
    && row.admission == a && HasEntry(s, row.epoch, a)
    && row.event == row.fp.event && row.operation == row.fp.operation
    && (!row.result.ClosedRow? ==> row.user == row.fp.user && row.epoch == row.fp.epoch)
    && (row.result.ConsumedRow? ==> row.result.resource in s.resources && MadeFor(s.resources[row.result.resource], row))
  }

  ghost predicate LedgerOk(s: Sys) {
    && (forall a | a in s.ledger :: RowOk(s, a, s.ledger[a]))
    && (forall r | r in s.resources && s.resources[r].via.Some? ::
          s.resources[r].via.value in s.ledger && s.ledger[s.resources[r].via.value].result == ConsumedRow(r))
    && (forall q, r | q in s.resources && r in s.resources && SameKey(s.resources[q], s.resources[r]) :: q == r)
  }

  predicate SameKey(x: Resource, y: Resource) {
    x.kind != Reserved && y.kind != Reserved && x.key.Some? && x.key == y.key
  }

  // ----- gates, locks, processes -----------------------------------------------------------

  ghost predicate GateOk(s: Sys) {
    && (s.rec.gate.Some? ==> s.shared == {})
    && (forall pid :: pid in s.shared <==> pid in s.procs && Holding(s.procs[pid]))
  }

  ghost predicate LocksOk(s: Sys) {
    && (forall a | a in s.locks :: s.locks[a] in s.procs && LockOf(s.procs[s.locks[a]]) == Some(a))
    && (forall pid | pid in s.procs && LockOf(s.procs[pid]).Some? ::
          LockOf(s.procs[pid]).value in s.locks && s.locks[LockOf(s.procs[pid]).value] == pid)
  }

  /** The entry was claimed for this request under this token. */
  predicate Tied(s: Sys, e: Epoch, id: AdmissionId, user: UserId, fp: Fingerprint, token: Token) {
    && HasEntry(s, e, id)
    && var x := s.content[e].entries[id];
      x.user == user && x.fingerprint == Some(fp) && x.claimToken == Some(token)
  }

  predicate EntryTied(s: Sys, x: Entry) {
    x.fingerprint.Some? && x.claimToken.Some? && Tied(s, x.epoch, x.id, x.user, x.fingerprint.value, x.claimToken.value)
  }

  ghost predicate SnapOk(s: Sys, snap: Snap) {
    && (forall a | a in snap.ledger :: a in s.ledger && s.ledger[a] == snap.ledger[a])
    && (forall r | r in snap.resources :: r in s.resources && s.resources[r] == snap.resources[r])
    && (forall a | a in snap.ledger && snap.ledger[a].result.ConsumedRow? :: snap.ledger[a].result.resource in snap.resources)
  }

  predicate Known(l: Ledger, c: Command) {
    c.admission.Some? && c.admission.value.id in l
  }

  predicate WellKeyed(c: Command) {
    c.operation == DirectCheckoutOp ==> c.key.Some?
  }

  predicate ForRequest(row: Row, c: Command) {
    && c.admission.Some? && row.admission == c.admission.value.id && row.epoch == c.admission.value.epoch
    && row.user == c.user && row.event == c.event && row.operation == c.operation && row.fp == Print(c) && !row.result.ClosedRow?
  }

  predicate IntentOk(s: Sys, c: Command, policy: Recovery.Policy, claim: Option<Token>, intent: Option<Row>, made: Option<(ResourceId, Resource)>) {
    if intent.None? then !policy.protected && made.Some? && made.value.1.via.None? && TargetOf(made.value.1, c)
    else
      && policy.protected && claim.Some? && ForRequest(intent.value, c) && intent.value.epoch == policy.epoch
      && Tied(s, intent.value.epoch, intent.value.admission, c.user, Print(c), claim.value)
      && (if intent.value.result.ConsumedRow?
          then made.Some? && made.value.0 == intent.value.result.resource && TargetOf(made.value.1, c)
               && made.value.1.via == Some(intent.value.admission)
          else made.None?)
  }

  ghost predicate ProcOk(s: Sys, q: Proc) {
    match q
    case Finished => true
    case Submitted(cmd, again) => WellKeyed(cmd) && (again ==> Known(s.ledger, cmd))
    case Open(cmd, again, snap) => WellKeyed(cmd) && SnapOk(s, snap) && (again ==> Known(snap.ledger, cmd))
    case Gated(cmd, again, snap, policy) =>
      WellKeyed(cmd) && SnapOk(s, snap) && (again ==> Known(snap.ledger, cmd)) && policy == s.rec.policy
      && (cmd.operation == DirectCheckoutOp ==> !Ordering(snap, cmd.key))
    case Locked(cmd, again, snap, policy) =>
      WellKeyed(cmd) && SnapOk(s, snap) && (again ==> Known(snap.ledger, cmd)) && policy == s.rec.policy
      && (cmd.operation == DirectCheckoutOp ==> !Ordering(snap, cmd.key))
    case Cleared(cmd, again, policy) => WellKeyed(cmd) && !again && policy == s.rec.policy
    case Granted(cmd, again, policy, token) =>
      && WellKeyed(cmd) && !again && policy == s.rec.policy && policy.protected
      && cmd.admission.Some? && cmd.admission.value.epoch == policy.epoch
      && Tied(s, policy.epoch, cmd.admission.value.id, cmd.user, Print(cmd), token)
    case Pending(cmd, again, policy, claim, intent, made) =>
      WellKeyed(cmd) && !again && policy == s.rec.policy && IntentOk(s, cmd, policy, claim, intent, made)
    case Settling(cmd, token, row) => ForRequest(row, cmd) && RowIn(s.ledger, row.admission) == Some(row)
    case Doubting(cmd, again, code) => WellKeyed(cmd) && !again
    case Late(entry) => EntryTied(s, entry)
    case Guarded(entry) => EntryTied(s, entry) && s.rec.policy.protected && s.rec.policy.epoch == entry.epoch
    case Sole(entry) => EntryTied(s, entry) && s.rec.policy.protected && s.rec.policy.epoch == entry.epoch
    case Closing(entry) => EntryTied(s, entry) && s.rec.policy.protected && s.rec.policy.epoch == entry.epoch
    case Reflecting(entry, row) => EntryTied(s, entry) && row.admission == entry.id && RowIn(s.ledger, entry.id) == Some(row)
  }

  /** What an answer said is so: of the resource it named, and of the row behind it. */
  predicate AnswerOk(s: Sys, a: Answered) {
    match a.reply
    case Won(id, linked) =>
      && id in s.resources && TargetOf(s.resources[id], a.cmd)
      && (a.cmd.operation == DirectCheckoutOp ==> a.cmd.key.Some?)
      && (linked ==> Known(s.ledger, a.cmd) && s.ledger[a.cmd.admission.value.id].result == ConsumedRow(id)
                     && s.ledger[a.cmd.admission.value.id].fp == Print(a.cmd))
    case Denied(_, known) => !known
    case Stranded => false
    case _ => true
  }

  ghost predicate ProcsOk(s: Sys) {
    forall pid | pid in s.procs :: ProcOk(s, s.procs[pid])
  }

  ghost predicate AnswersOk(s: Sys) {
    forall i | 0 <= i < |s.answers| :: AnswerOk(s, s.answers[i])
  }

  ghost predicate Inv(s: Sys, p: Profile) {
    && p.Valid() && Recovery.Inv(s.rec)
    && ContentOk(s, p) && Populated(s) && LedgerOk(s) && GateOk(s) && LocksOk(s) && ProcsOk(s) && AnswersOk(s)
  }

  // ----- what only grows -------------------------------------------------------------------

  /** Rows, reservations and orders stay, and entries only evolve. */
  ghost predicate Grows(s: Sys, t: Sys) {
    && (forall a | a in s.ledger :: a in t.ledger && t.ledger[a] == s.ledger[a])
    && (forall r | r in s.resources :: r in t.resources && t.resources[r] == s.resources[r])
    && (forall e, id | e in s.content && id in s.content[e].entries ::
          e in t.content && id in t.content[e].entries && Evolves(s.content[e].entries[id], t.content[e].entries[id]))
  }

  lemma GrowsTied(s: Sys, t: Sys, e: Epoch, id: AdmissionId, user: UserId, fp: Fingerprint, token: Token)
    requires Grows(s, t) && Tied(s, e, id, user, fp, token)
    ensures Tied(t, e, id, user, fp, token)
  {
    assert Evolves(s.content[e].entries[id], t.content[e].entries[id]);
  }

  lemma GrowsSnap(s: Sys, t: Sys, snap: Snap)
    requires Grows(s, t) && SnapOk(s, snap)
    ensures SnapOk(t, snap)
  {}

  lemma GrowsIntent(s: Sys, t: Sys, c: Command, policy: Recovery.Policy, claim: Option<Token>, intent: Option<Row>, made: Option<(ResourceId, Resource)>)
    requires Grows(s, t) && IntentOk(s, c, policy, claim, intent, made)
    ensures IntentOk(t, c, policy, claim, intent, made)
  {
    hide Grows; hide Tied;
    if intent.Some? { GrowsTied(s, t, intent.value.epoch, intent.value.admission, c.user, Print(c), claim.value); }
  }

  lemma GrowsEntry(s: Sys, t: Sys, x: Entry)
    requires Grows(s, t) && EntryTied(s, x)
    ensures EntryTied(t, x)
  {
    hide Grows; hide Tied;
    GrowsTied(s, t, x.epoch, x.id, x.user, x.fingerprint.value, x.claimToken.value);
  }

  /** Nobody's place is disturbed by growth, as long as the policy stays put under the gate. */
  lemma GrowsProc(s: Sys, t: Sys, q: Proc)
    requires Grows(s, t) && ProcOk(s, q) && (Holding(q) ==> t.rec.policy == s.rec.policy)
    ensures ProcOk(t, q)
  {
    match q
    case Open(cmd, again, snap) => GrowsSnap(s, t, snap);
    case Gated(cmd, again, snap, policy) => GrowsSnap(s, t, snap);
    case Locked(cmd, again, snap, policy) => GrowsSnap(s, t, snap);
    case Granted(cmd, again, policy, token) => GrowsTied(s, t, policy.epoch, cmd.admission.value.id, cmd.user, Print(cmd), token);
    case Pending(cmd, again, policy, claim, intent, made) => GrowsIntent(s, t, cmd, policy, claim, intent, made);
    case Late(entry) => GrowsEntry(s, t, entry);
    case Guarded(entry) => GrowsEntry(s, t, entry);
    case Sole(entry) => GrowsEntry(s, t, entry);
    case Closing(entry) => GrowsEntry(s, t, entry);
    case Reflecting(entry, row) => GrowsEntry(s, t, entry);
    case _ =>
  }

  lemma GrowsAnswers(s: Sys, t: Sys)
    requires Grows(s, t) && AnswersOk(s) && t.answers == s.answers
    ensures AnswersOk(t)
  {
    forall i | 0 <= i < |t.answers| ensures AnswerOk(t, t.answers[i]) { assert AnswerOk(s, s.answers[i]); }
  }

  lemma GrowsItself(s: Sys, t: Sys)
    requires t.ledger == s.ledger && t.resources == s.resources && t.content == s.content
    ensures Grows(s, t)
  {}

  // ----- one call of the script ------------------------------------------------------------

  /** The part of the invariant that speaks of Redis and the ledger alone. */
  ghost predicate StoresOk(s: Sys, p: Profile) {
    p.Valid() && Recovery.Inv(s.rec) && ContentOk(s, p) && Populated(s) && LedgerOk(s)
  }

  lemma CallStep(s: Sys, e: Epoch, op: Op, p: Profile)
    requires ContentOk(s, p) && p.Valid() && e in s.content && Fresh(s.content[e], op) && Warranted(op, s.ledger)
    requires op.DoJoin? ==> op.id !in s.ledger
    ensures var (t, r) := Step(s.content[e], op, s.clock, p);
      Agreed(t, p, s.clock) && !r.Crashed? && Carried(s.content[e], t) && AllFit(t, s.ledger) && Keyed(s.content[e], t, op)
  {
    hide Agreed; hide Step; hide AllFit; hide Carried; hide Keyed;
    StepKeeps(s.content[e], op, s.clock, s.clock, p);
    StepFits(s.content[e], op, s.clock, p, s.ledger);
    StepKeys(s.content[e], op, s.clock, p);
  }

  lemma ReadyEpoch(s: Sys, e: Epoch, op: Op)
    requires Recovery.Inv(s.rec) && Populated(s)
    requires Barred(s.rec.control, Recovery.HealthOf(s.rec, e), e, SessionOver(s, e), op).None?
    ensures e in s.content && EverReady(s.rec, e)
  {
    var g := s.rec.control.value.generation;
    assert g in s.rec.ready && g in s.rec.epochOf && s.rec.epochOf[g] == e;
  }

  lemma CallPopulates(s: Sys, e: Epoch, t: Space, op: Op)
    requires Populated(s) && e in s.content && EverReady(s.rec, e) && Keyed(s.content[e], t, op)
    requires op.DoJoin? ==> forall f | f in s.content :: op.id !in s.content[f].entries
    ensures Populated(s.(content := s.content[e := t]))
  {}

  lemma CallLedger(s: Sys, e: Epoch, t: Space)
    requires LedgerOk(s) && e in s.content && Carried(s.content[e], t)
    ensures LedgerOk(s.(content := s.content[e := t]))
  {
    var u := s.(content := s.content[e := t]);
    forall a | a in u.ledger ensures RowOk(u, a, u.ledger[a]) { assert RowOk(s, a, s.ledger[a]); }
  }

  lemma NewIdHasNoRow(s: Sys, id: AdmissionId)
    requires LedgerOk(s) && forall e | e in s.content :: id !in s.content[e].entries
    ensures id !in s.ledger
  {
    assert id in s.ledger ==> RowOk(s, id, s.ledger[id]);
  }

  /** A call keeps the stores in agreement, disturbs nothing, and never ends in an error. */
  lemma CallKeeps(s: Sys, e: Epoch, op: Op, p: Profile)
    requires StoresOk(s, p) && Warranted(op, s.ledger)
    requires op.DoJoin? ==> forall f | f in s.content :: op.id !in s.content[f].entries
    ensures var (t, r) := Calling(s, e, op, p);
      StoresOk(t, p) && Grows(s, t) && !r.Crashed? && t == s.(content := t.content)
  {
    hide Step; hide Agreed; hide AllFit; hide Carried; hide Keyed; hide Populated; hide LedgerOk; hide Recovery.Inv; hide Barred; hide Warranted;
    var (t, r) := Calling(s, e, op, p);
    if Barred(s.rec.control, Recovery.HealthOf(s.rec, e), e, SessionOver(s, e), op).Some? {
      BarredIsRefusal(s, e, op);
      GrowsItself(s, s);
    } else {
      ReadyEpoch(s, e, op);
      if op.DoJoin? { NewIdHasNoRow(s, op.id); }
      CallStep(s, e, op, p);
      var c := Step(s.content[e], op, s.clock, p).0;
      CallPopulates(s, e, c, op);
      CallLedger(s, e, c);
      CarriedGrows(s, e, c);
      CarriedEpoch(s.content[e], c);
    }
  }

  lemma CarriedEpoch(s: Space, t: Space)
    requires Carried(s, t)
    ensures t.epoch == s.epoch
  {}

  lemma BarredIsRefusal(s: Sys, e: Epoch, op: Op)
    requires Barred(s.rec.control, Recovery.HealthOf(s.rec, e), e, SessionOver(s, e), op).Some?
    ensures Barred(s.rec.control, Recovery.HealthOf(s.rec, e), e, SessionOver(s, e), op).value.Refusal?
  {}

  lemma CarriedGrows(s: Sys, e: Epoch, t: Space)
    requires e in s.content && Carried(s.content[e], t)
    ensures Grows(s, s.(content := s.content[e := t]))
  {
    assert forall x: Entry :: Evolves(x, x);
  }
}
