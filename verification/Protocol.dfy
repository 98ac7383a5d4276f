/** The purchase protocol over both stores: consumers and reclaimers of one event, interleaved with
    each other, with the queue, with recovery and with crashes. One action is one statement, one
    Redis call or one failure. Redis effects stay; a PostgreSQL transaction commits whole or not. */
module Protocol {
  import opened AdmissionTypes
  import opened AdmissionSpace
  import opened AdmissionControl
  import Recovery

  // ----- the durable side ------------------------------------------------------------------

  datatype RowResult = ConsumedRow(resource: ResourceId) | RejectedRow(code: Code) | ClosedRow

  /** One row of admission_results. */
  datatype Row = Row(admission: AdmissionId, user: UserId, event: int, epoch: Epoch, operation: Operation, fp: Fingerprint, result: RowResult)

  datatype Kind = Reserved | Ordered | Converted

  /** A reservation or an order. `via` is history: the admission whose row was committed with it. */
  datatype Resource = Resource(kind: Kind, user: UserId, event: int, tier: int, quantity: int, key: Option<CheckoutKey>, via: Option<AdmissionId>)

  datatype Ref = Ref(id: AdmissionId, epoch: Epoch)
  datatype Command = Command(user: UserId, event: int, operation: Operation, tier: int, quantity: int, key: Option<CheckoutKey>, admission: Option<Ref>)

  function Print(c: Command): Fingerprint
    requires c.admission.Some?
  {
    Fingerprint(c.user, c.event, c.admission.value.epoch, c.operation, c.tier, c.quantity, c.key)
  }

  function OutcomeOf(r: Row): Outcome {
    match r.result
    case ConsumedRow(resource) => Outcome(Bought(r.operation), Some(resource), None)
    case RejectedRow(code) => Outcome(OutcomeKind.Rejected, None, Some(code))
    case ClosedRow => Outcome(OutcomeKind.Rejected, None, Some(AdmissionExpired))
  }

  function KindOf(operation: Operation): Kind {
    if operation == ReservationOp then Reserved else Ordered
  }

  /** The guard of the ledger insert: the target is a row for exactly this request. */
  predicate TargetOf(r: Resource, c: Command) {
    r.kind == KindOf(c.operation) && r.user == c.user && r.event == c.event && r.tier == c.tier && r.quantity == c.quantity
    && (c.operation == DirectCheckoutOp ==> r.key == c.key)
  }

  // ----- processes -------------------------------------------------------------------------

  /** What a transaction sees: everything committed when it took its snapshot. */
  datatype Snap = Snap(ledger: map<AdmissionId, Row>, resources: map<ResourceId, Resource>, version: nat)

  datatype Proc =
    | Finished
    // a purchase
    | Submitted(cmd: Command, again: bool)
    | Open(cmd: Command, again: bool, snap: Snap)
    | Gated(cmd: Command, again: bool, snap: Snap, policy: Recovery.Policy)
    | Locked(cmd: Command, again: bool, snap: Snap, policy: Recovery.Policy)
    | Cleared(cmd: Command, again: bool, policy: Recovery.Policy)
    | Granted(cmd: Command, again: bool, policy: Recovery.Policy, token: Token)
    | Pending(cmd: Command, again: bool, policy: Recovery.Policy, claim: Option<Token>, intent: Option<Row>, made: Option<(ResourceId, Resource)>)
    | Settling(cmd: Command, token: Token, row: Row)
    | Doubting(cmd: Command, again: bool, code: Code)
    // the reclaimer of one overdue claim
    | Late(entry: Entry)
    | Guarded(entry: Entry)
    | Sole(entry: Entry)
    | Closing(entry: Entry)
    | Reflecting(entry: Entry, row: Row)

  datatype Result =
    | Won(resource: ResourceId, linked: bool)
    | Declined(code: Code)
    | Gone | Mismatch | Foreign | Invalid
    | Denied(code: Code, known: bool)
    | Stranded

  datatype Answered = Answered(cmd: Command, reply: Result)

  type Pid = int

  datatype Sys = Sys(
    rec: Recovery.State, content: map<Epoch, Space>, clock: int, version: nat,
    ledger: map<AdmissionId, Row>, resources: map<ResourceId, Resource>,
    shared: set<Pid>, locks: map<AdmissionId, Pid>, procs: map<Pid, Proc>, answers: seq<Answered>)

  datatype Fate = NotSent | Lost | Heard

  datatype Act =
    | World(a: Recovery.Action)
    | Wait(now: int)
    // a queue call, or a call of a purchase or a reclaimer that is gone
    | Queue(epoch: Epoch, op: Op)
    | Convert(id: ResourceId, order: Resource)
    // a purchase
    | Submit(pid: Pid, cmd: Command)
    | Begin(pid: Pid)
    | ReplayOrder(pid: Pid)
    | Gate(pid: Pid)
    | LockAdmission(pid: Pid)
    | Judge(pid: Pid)
    | ClaimNow(pid: Pid, enabled: bool, token: Token, fate: Fate)
    | Occupy(pid: Pid, id: ResourceId, made: Resource)
    | Decline(pid: Pid, code: Code)
    | Commit(pid: Pid)
    | Settle(pid: Pid, fate: Fate)
    | Confirm(pid: Pid)
    | Abort(pid: Pid)
    | Crash(pid: Pid)
    // the reclaimer
    | TakeOverdue(pid: Pid, epoch: Epoch, index: nat)
    | Guard(pid: Pid)
    | TryLock(pid: Pid)
    | ReadLedger(pid: Pid)
    | CommitClosed(pid: Pid)
    | Reflect(pid: Pid, fate: Fate)

  function ProcOf(s: Sys, pid: Pid): Proc {
    if pid in s.procs then s.procs[pid] else Finished
  }

  /** The shared event gate is held from the policy read to the end of the transaction. */
  predicate Holding(q: Proc) {
    q.Gated? || q.Locked? || q.Cleared? || q.Granted? || q.Pending? || q.Guarded? || q.Sole? || q.Closing?
  }

  function LockOf(q: Proc): Option<AdmissionId> {
    match q
    case Locked(cmd, _, _, _) => if cmd.admission.Some? then Some(cmd.admission.value.id) else None
    case Cleared(cmd, _, _) => if cmd.admission.Some? then Some(cmd.admission.value.id) else None
    case Granted(cmd, _, _, _) => if cmd.admission.Some? then Some(cmd.admission.value.id) else None
    case Pending(cmd, _, _, _, _, _) => if cmd.admission.Some? then Some(cmd.admission.value.id) else None
    case Sole(entry) => Some(entry.id)
    case Closing(entry) => Some(entry.id)
    case _ => None
  }

  function Go(s: Sys, pid: Pid, q: Proc): Sys {
    s.(procs := s.procs[pid := q])
  }

  /** The transaction ends: its gate and its lock go with it. */
  function End(s: Sys, pid: Pid, q: Proc): Sys {
    var lock := LockOf(ProcOf(s, pid));
    s.(procs := s.procs[pid := q], shared := s.shared - {pid}, locks := if lock.Some? then s.locks - {lock.value} else s.locks)
  }

  function Tell(s: Sys, pid: Pid, cmd: Command, reply: Result): Sys {
    End(s, pid, Finished).(answers := s.answers + [Answered(cmd, reply)])
  }

  // ----- Redis, as every caller meets it ---------------------------------------------------

  predicate SessionOver(s: Sys, e: Epoch) {
    e in s.content && s.clock >= s.content[e].endAt
  }

  function Calling(s: Sys, e: Epoch, op: Op, p: Profile): (Sys, Reply) {
    var barred := Barred(s.rec.control, Recovery.HealthOf(s.rec, e), e, SessionOver(s, e), op);
    if barred.Some? then (s, barred.value)
    else if e !in s.content then (s, Crashed)
    else
      var (t, r) := Step(s.content[e], op, s.clock, p);
      (s.(content := s.content[e := t]), r)
  }

  // ----- steps -----------------------------------------------------------------------------

  predicate OnSnapshot(c: Command) {
    c.admission.Some? || c.operation == DirectCheckoutOp
  }

  predicate IsOrder(snap: Snap, key: Option<CheckoutKey>, id: ResourceId) {
    id in snap.resources && snap.resources[id].kind != Reserved && key.Some? && snap.resources[id].key == key
  }

  ghost predicate Ordering(snap: Snap, key: Option<CheckoutKey>) {
    exists id :: IsOrder(snap, key, id)
  }

  predicate LinkedElsewhere(snap: Snap, c: Command, id: ResourceId) {
    c.admission.Some? && exists a | a in snap.ledger ::
      snap.ledger[a].result == ConsumedRow(id) && !(a == c.admission.value.id && snap.ledger[a].epoch == c.admission.value.epoch)
  }

  /** A key that already has an order: the order itself, unless the payload or its admission differs. */
  function ReplayOf(snap: Snap, c: Command, id: ResourceId): Result
    requires id in snap.resources
  {
    var o := snap.resources[id];
    if o.user != c.user || o.event != c.event || o.tier != c.tier || o.quantity != c.quantity || o.kind == Converted then Mismatch
    else if LinkedElsewhere(snap, c, id) then Mismatch
    else Won(id, false)
  }

  /** The committed result of an admission, judged for a request that is not an order's replay. */
  function JudgeRow(snap: Snap, c: Command, row: Row): Result
    requires c.admission.Some?
  {
    if row.user != c.user || row.event != c.event then Foreign
    else if row.fp != Print(c) then Mismatch
    else match row.result
      case ClosedRow => Gone
      case RejectedRow(code) => Declined(code)
      case ConsumedRow(id) =>
        if c.operation == DirectCheckoutOp then Stranded
        else if id !in snap.resources then Stranded
        else Won(id, true)
  }

  ghost predicate Taken(s: Sys, key: Option<CheckoutKey>) {
    Ordering(Snap(s.ledger, s.resources, s.version), key)
  }

  /** An order that already has the key answers before any gate. */
  ghost function ReplayStep(s: Sys, pid: Pid, q: Proc): Sys {
    if q.Open? && q.cmd.operation == DirectCheckoutOp && Ordering(q.snap, q.cmd.key) then
      var id :| IsOrder(q.snap, q.cmd.key, id);
      Tell(s, pid, q.cmd, ReplayOf(q.snap, q.cmd, id))
    else s
  }

  /** Shared gate, then the locking read of the policy: of a row that changed after the snapshot it
      is a serialization failure. */
  ghost function GateStep(s: Sys, pid: Pid, q: Proc): Sys {
    if !q.Open? || s.rec.gate.Some? || (q.cmd.operation == DirectCheckoutOp && Ordering(q.snap, q.cmd.key)) then s
    else if OnSnapshot(q.cmd) && q.snap.version != s.version then Go(s, pid, Submitted(q.cmd, q.again))
    else Go(s, pid, Gated(q.cmd, q.again, q.snap, s.rec.policy)).(shared := s.shared + {pid})
  }

  function LockStep(s: Sys, pid: Pid, q: Proc): Sys {
    if !q.Gated? then s
    else if q.cmd.admission.None? then Go(s, pid, Locked(q.cmd, q.again, q.snap, q.policy))
    else if q.cmd.admission.value.id in s.locks then s
    else Go(s, pid, Locked(q.cmd, q.again, q.snap, q.policy)).(locks := s.locks[q.cmd.admission.value.id := pid])
  }

  function JudgeStep(s: Sys, pid: Pid, q: Proc): Sys {
    if !q.Locked? then s
    else if q.cmd.admission.Some? && q.cmd.admission.value.id in q.snap.ledger then
      Tell(s, pid, q.cmd, JudgeRow(q.snap, q.cmd, q.snap.ledger[q.cmd.admission.value.id]))
    else if q.policy.protected && q.cmd.admission.None? then Tell(s, pid, q.cmd, Invalid)
    else Go(s, pid, Cleared(q.cmd, q.again, q.policy))
  }

  /** The claim: refused before it is sent, lost on the way back, or answered by the script. */
  function ClaimStep(s: Sys, pid: Pid, q: Proc, enabled: bool, token: Token, fate: Fate, p: Profile): Sys {
    if !q.Cleared? || !q.policy.protected || q.cmd.admission.None? then s else
      var ref := q.cmd.admission.value;
      if !enabled then End(s, pid, Doubting(q.cmd, q.again, Unavailable))
      else if !q.policy.open then End(s, pid, Doubting(q.cmd, q.again, Recovering))
      else if q.policy.epoch != ref.epoch then End(s, pid, Doubting(q.cmd, q.again, Reset))
      else if fate == NotSent then End(s, pid, Doubting(q.cmd, q.again, Recovering))
      else
        var (t, r) := Calling(s, ref.epoch, DoClaim(q.cmd.user, ref.id, Print(q.cmd), token), p);
        if fate == Lost then End(t, pid, Doubting(q.cmd, q.again, Unavailable)) else Hear(t, pid, q, r)
  }

  function Hear(t: Sys, pid: Pid, q: Proc, r: Reply): Sys
    requires q.Cleared?
  {
    if r.Refusal? then End(t, pid, Doubting(q.cmd, q.again, r.code))
    else if r.Answer? && r.entry.Some? && r.entry.value.claimToken.Some?
    then Go(t, pid, Granted(q.cmd, q.again, q.policy, r.entry.value.claimToken.value))
    else End(t, pid, Doubting(q.cmd, q.again, Unavailable))
  }

  function RowFor(c: Command, result: RowResult): Row
    requires c.admission.Some?
  {
    Row(c.admission.value.id, c.user, c.event, c.admission.value.epoch, c.operation, Print(c), result)
  }

  /** The savepoint ended well: the guarded insert ties the row to what was just created. */
  function OccupyStep(s: Sys, pid: Pid, q: Proc, id: ResourceId, made: Resource): Sys {
    if q.Cleared? && !q.policy.protected && TargetOf(made, q.cmd) then
      Go(s, pid, Pending(q.cmd, q.again, q.policy, None, None, Some((id, made.(via := None)))))
    else if q.Granted? && q.cmd.admission.Some? then
      if TargetOf(made, q.cmd) then
        Go(s, pid, Pending(q.cmd, q.again, q.policy, Some(q.token), Some(RowFor(q.cmd, ConsumedRow(id))),
                           Some((id, made.(via := Some(q.cmd.admission.value.id))))))
      else End(s, pid, Finished)
    else s
  }

  /** A business refusal inside the savepoint is stored; without protection it is just the answer. */
  function DeclineStep(s: Sys, pid: Pid, q: Proc, code: Code): Sys {
    if q.Cleared? && !q.policy.protected then Tell(s, pid, q.cmd, Declined(code))
    else if q.Granted? && q.cmd.admission.Some? then
      Go(s, pid, Pending(q.cmd, q.again, q.policy, Some(q.token), Some(RowFor(q.cmd, RejectedRow(code))), None))
    else s
  }

  function AnswerOf(row: Row): Result {
    match row.result
    case ConsumedRow(id) => Won(id, true)
    case RejectedRow(code) => Declined(code)
    case ClosedRow => Gone
  }

  function SettleStep(s: Sys, pid: Pid, q: Proc, fate: Fate, p: Profile): Sys {
    if !q.Settling? then s else
      var t := if fate == NotSent then s
        else Calling(s, q.row.epoch, DoComplete(q.cmd.user, q.row.admission, q.row.fp, q.token, OutcomeOf(q.row)), p).0;
      Tell(t, pid, q.cmd, AnswerOf(q.row))
  }

  /** After a refusal that a stale snapshot may have caused, the ledger is read again. */
  function ConfirmStep(s: Sys, pid: Pid, q: Proc): Sys {
    if !q.Doubting? then s
    else if q.again then Tell(s, pid, q.cmd, Denied(q.code, true))
    else if q.cmd.admission.Some? && q.cmd.admission.value.id in s.ledger then Go(s, pid, Submitted(q.cmd, true))
    else Tell(s, pid, q.cmd, Denied(q.code, false))
  }

  function AbortStep(s: Sys, pid: Pid, q: Proc): Sys {
    if q.Open? || q.Gated? || q.Locked? || q.Cleared? || q.Granted? || q.Pending? then End(s, pid, Submitted(q.cmd, q.again)) else s
  }

  ghost function PurchaseStep(s: Sys, act: Act, pid: Pid, q: Proc, p: Profile): Sys {
    match act
    case Submit(_, cmd) => if q.Finished? && (cmd.operation == DirectCheckoutOp ==> cmd.key.Some?) then Go(s, pid, Submitted(cmd, false)) else s
    case Begin(_) => if q.Submitted? then Go(s, pid, Open(q.cmd, q.again, Snap(s.ledger, s.resources, s.version))) else s
    case ReplayOrder(_) => ReplayStep(s, pid, q)
    case Gate(_) => GateStep(s, pid, q)
    case LockAdmission(_) => LockStep(s, pid, q)
    case Judge(_) => JudgeStep(s, pid, q)
    case ClaimNow(_, enabled, token, fate) => ClaimStep(s, pid, q, enabled, token, fate, p)
    case Occupy(_, id, made) => OccupyStep(s, pid, q, id, made)
    case Decline(_, code) => DeclineStep(s, pid, q, code)
    case Commit(_) => if q.Pending? then CommitStep(s, pid, q) else s
    case Settle(_, fate) => SettleStep(s, pid, q, fate, p)
    case Confirm(_) => ConfirmStep(s, pid, q)
    case Abort(_) => AbortStep(s, pid, q)
    case Crash(_) => End(s, pid, Finished)
    case _ => s
  }

  /** Both inserts meet their unique constraints, which see what is committed and not the snapshot. */
  ghost function CommitStep(s: Sys, pid: Pid, q: Proc): Sys
    requires q.Pending?
  {
    if (q.intent.Some? && q.intent.value.admission in s.ledger)
      || (q.made.Some? && (q.made.value.0 in s.resources || (q.made.value.1.kind != Reserved && Taken(s, q.made.value.1.key))))
    then End(s, pid, Submitted(q.cmd, q.again))
    else
      var t := s.(ledger := if q.intent.Some? then s.ledger[q.intent.value.admission := q.intent.value] else s.ledger,
                  resources := if q.made.Some? then s.resources[q.made.value.0 := q.made.value.1] else s.resources);
      if q.intent.Some? && q.claim.Some? then End(t, pid, Settling(q.cmd, q.claim.value, q.intent.value))
      else if q.made.Some? then Tell(t, pid, q.cmd, Won(q.made.value.0, false))
      else End(t, pid, Finished)
  }

  function ClosedRowOf(s: Sys, e: Entry): Row
    requires e.fingerprint.Some?
  {
    Row(e.id, e.user, e.fingerprint.value.event, e.epoch, e.fingerprint.value.operation, e.fingerprint.value, ClosedRow)
  }

  /** `reconcile` marks the overdue claims; this process goes on with one of them. */
  function TakeStep(s: Sys, pid: Pid, q: Proc, e: Epoch, index: nat, p: Profile): Sys {
    if !q.Finished? then s else
      var (t, r) := Calling(s, e, DoReconcile, p);
      if r.Overdue? && index < |r.claims| then Go(t, pid, Late(r.claims[index])) else t
  }

  function GuardStep(s: Sys, pid: Pid, q: Proc): Sys {
    if !q.Late? || s.rec.gate.Some? then s
    else if !s.rec.policy.protected || s.rec.policy.epoch != q.entry.epoch then Go(s, pid, Finished)
    else Go(s, pid, Guarded(q.entry)).(shared := s.shared + {pid})
  }

  function TryLockStep(s: Sys, pid: Pid, q: Proc): Sys {
    if !q.Guarded? then s
    else if q.entry.id in s.locks then End(s, pid, Finished)
    else Go(s, pid, Sole(q.entry)).(locks := s.locks[q.entry.id := pid])
  }

  /** READ COMMITTED: the ledger as it is after the lock. */
  function ReadStep(s: Sys, pid: Pid, q: Proc): Sys {
    if !q.Sole? then s
    else if q.entry.id in s.ledger then End(s, pid, Reflecting(q.entry, s.ledger[q.entry.id]))
    else Go(s, pid, Closing(q.entry))
  }

  function CloseStep(s: Sys, pid: Pid, q: Proc): Sys {
    if !q.Closing? then s
    else if q.entry.id in s.ledger || q.entry.fingerprint.None? then End(s, pid, Finished)
    else
      var row := ClosedRowOf(s, q.entry);
      End(s.(ledger := s.ledger[row.admission := row]), pid, Reflecting(q.entry, row))
  }

  function ReflectStep(s: Sys, pid: Pid, q: Proc, fate: Fate, p: Profile): Sys {
    if !q.Reflecting? then s
    else if fate == NotSent || q.entry.claimToken.None? || q.entry.fingerprint.None? then Go(s, pid, Finished)
    else Go(Calling(s, q.entry.epoch, FinalOp(q.entry, q.row), p).0, pid, Finished)
  }

  function FinalOp(e: Entry, row: Row): Op
    requires e.claimToken.Some? && e.fingerprint.Some?
  {
    if row.result.ClosedRow? then DoClose(e.user, e.id, e.fingerprint.value, e.claimToken.value)
    else DoComplete(e.user, e.id, e.fingerprint.value, e.claimToken.value, OutcomeOf(row))
  }

  function ReclaimStep(s: Sys, act: Act, pid: Pid, q: Proc, p: Profile): Sys {
    match act
    case TakeOverdue(_, e, index) => TakeStep(s, pid, q, e, index, p)
    case Guard(_) => GuardStep(s, pid, q)
    case TryLock(_) => TryLockStep(s, pid, q)
    case ReadLedger(_) => ReadStep(s, pid, q)
    case CommitClosed(_) => CloseStep(s, pid, q)
    case Reflect(_, fate) => ReflectStep(s, pid, q, fate, p)
    case _ => s
  }

  /** Recovery takes the gate exclusively; a namespace it creates is empty. */
  function WorldStep(s: Sys, a: Recovery.Action, p: Profile): Sys {
    if (a.Enter? || a.Protect?) && s.shared != {} then s else
      var rec := Recovery.Next(s.rec, a);
      var e := s.rec.policy.epoch;
      s.(rec := rec,
         version := if rec.policy == s.rec.policy && !a.Protect? then s.version else s.version + 1,
         content := if Recovery.HealthOf(rec, e) == Sound && Recovery.HealthOf(s.rec, e) != Sound
           then s.content[e := EmptySpace(e, s.clock + p.epochMs)] else s.content)
  }

  predicate OfReclaimer(act: Act) {
    act.TakeOverdue? || act.Guard? || act.TryLock? || act.ReadLedger? || act.CommitClosed? || act.Reflect?
  }

  /** Actions of nobody's purchase: recovery, time, the queue, and orders out of reservations. */
  predicate OfWorld(act: Act) {
    act.World? || act.Wait? || act.Queue? || act.Convert?
  }

  ghost function Next(s: Sys, act: Act, p: Profile): Sys {
    if act.World? then WorldStep(s, act.a, p)
    else if act.Wait? then s.(clock := act.now)
    else if act.Queue? then Calling(s, act.epoch, act.op, p).0
    else if act.Convert? then
      if act.id in s.resources || act.order.kind != Converted || Taken(s, act.order.key) then s
      else s.(resources := s.resources[act.id := act.order.(via := None)])
    else if OfReclaimer(act) then ReclaimStep(s, act, act.pid, ProcOf(s, act.pid), p)
    else PurchaseStep(s, act, act.pid, ProcOf(s, act.pid), p)
  }

  /** Finalization is only ever asked for what the ledger holds. */
  predicate Warranted(op: Op, l: map<AdmissionId, Row>) {
    && (op.DoComplete? ==> op.id in l && !l[op.id].result.ClosedRow? && op.outcome == OutcomeOf(l[op.id]))
    && (op.DoClose? ==> op.id in l && l[op.id].result.ClosedRow?)
  }

  /** Redis time never goes back, a join's id was never used, and a late finalization was sent for a
      committed row. */
  predicate Possible(s: Sys, act: Act) {
    && (act.World? ==> Recovery.Possible(s.rec, act.a))
    && (act.Wait? ==> s.clock <= act.now)
    && (act.Queue? ==> Warranted(act.op, s.ledger))
    && (act.Queue? && act.op.DoJoin? ==> forall e | e in s.content :: act.op.id !in s.content[e].entries)
  }

  function Start(epoch: Epoch, run: int, protected: bool, clock: int): Sys {
    Sys(Recovery.Initial(epoch, run, protected), map[], clock, 0, map[], map[], {}, map[], map[], [])
  }
}
