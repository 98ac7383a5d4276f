/** What one uninterrupted purchase and one uninterrupted reclaimer come to: the conditions under which a
    protected purchase goes through, what it leaves, and with what it is refused otherwise. */
module PurchaseProgress {
  import opened AdmissionTypes
  import opened AdmissionSpace
  import opened AdmissionControl
  import opened Agreement
  import opened AgreementOps
  import opened AgreementCalls
  import opened AdmissionAnswers
  import opened Protocol
  import opened Reflection
  import opened ProtocolInvariant
  import opened ProtocolRuns
  import opened ProtocolLaws
  import Recovery

  // ----- runs, step by step ----------------------------------------------------------------

  lemma {:induction false} RunConcat(s: Sys, a: seq<Act>, b: seq<Act>, p: Profile)
    ensures Run(s, a + b, p) == Run(Run(s, a, p), b, p)
    decreases |a|
  {
    hide Next;
    if a == [] {
      assert a + b == b;
    } else {
      assert (a + b)[1..] == a[1..] + b;
      RunConcat(Next(s, a[0], p), a[1..], b, p);
    }
  }

  lemma RunOne(s: Sys, a: Act, p: Profile)
    ensures Run(s, [a], p) == Next(s, a, p)
  {
    hide Next;
    assert Run(Next(s, a, p), [a][1..], p) == Next(s, a, p);
  }

  lemma RunTwo(s: Sys, a: Act, b: Act, p: Profile)
    ensures Run(s, [a, b], p) == Next(Next(s, a, p), b, p)
  {
    hide Next;
    assert [a, b] == [a] + [b];
    RunConcat(s, [a], [b], p);
    RunOne(s, a, p);
    RunOne(Next(s, a, p), b, p);
  }

  /** The canonical array is that of the request, and the guard of the insert asks for what it made. */
  lemma RequestIs(c: Command)
    ensures c.admission.Some? ==> Print(c) == Request(c)
    ensures forall r :: TargetOf(r, c) <==> BoughtBy(r, c)
  {}

  // ----- up to the ledger read -------------------------------------------------------------

  function Holds(s: Sys, pid: Pid, c: Command, q: Proc): Sys {
    s.(procs := s.procs[pid := q], shared := s.shared + {pid},
       locks := if c.admission.Some? then s.locks[c.admission.value.id := pid] else s.locks)
  }

  /** Nobody stands in the way of this call: no reset, no other holder of its admission, no result yet,
      and no order under its key. */
  ghost predicate Clear(s: Sys, c: Command) {
    && s.rec.gate.None?
    && (c.admission.Some? ==> c.admission.value.id !in s.locks && c.admission.value.id !in s.ledger)
    && (c.operation == DirectCheckoutOp ==> forall r | r in s.resources && s.resources[r].kind != Reserved :: s.resources[r].key != c.key || c.key.None?)
  }

  function Opening(pid: Pid): seq<Act> {
    [Begin(pid), Gate(pid)] + [LockAdmission(pid), Judge(pid)]
  }

  lemma GateIs(s: Sys, pid: Pid, p: Profile)
    ensures Next(s, Gate(pid), p) == GateStep(s, pid, ProcOf(s, pid))
  {
    hide ProcOf; hide GateStep;
  }

  lemma NoOrder(s: Sys, c: Command)
    requires Clear(s, c)
    ensures !(c.operation == DirectCheckoutOp && Ordering(Snap(s.ledger, s.resources, s.version), c.key))
  {}

  lemma BeginsAndGates(s: Sys, pid: Pid, c: Command, p: Profile)
    requires ProcOf(s, pid) == Submitted(c, false) && Clear(s, c)
    ensures Next(Next(s, Begin(pid), p), Gate(pid), p)
      == s.(procs := s.procs[pid := Gated(c, false, Snap(s.ledger, s.resources, s.version), s.rec.policy)], shared := s.shared + {pid})
  {
    var q := Open(c, false, Snap(s.ledger, s.resources, s.version));
    var s1 := Next(s, Begin(pid), p);
    BeginIs(s, pid, p);
    GateIs(s1, pid, p);
    hide Next;
    assert s1 == Go(s, pid, q) && ProcOf(s1, pid) == q;
    NoOrder(s, c);
    assert s1.procs[pid := Gated(c, false, q.snap, s.rec.policy)] == s.procs[pid := Gated(c, false, q.snap, s.rec.policy)];
  }

  lemma LockIs(s: Sys, pid: Pid, p: Profile)
    ensures Next(s, LockAdmission(pid), p) == LockStep(s, pid, ProcOf(s, pid))
  {
    hide ProcOf; hide LockStep;
  }

  lemma JudgeIsNext(s: Sys, pid: Pid, p: Profile)
    ensures Next(s, Judge(pid), p) == JudgeStep(s, pid, ProcOf(s, pid))
  {
    hide ProcOf; hide JudgeStep;
  }

  lemma LocksAndJudges(s: Sys, pid: Pid, c: Command, snap: Snap, p: Profile)
    requires ProcOf(s, pid) == Gated(c, false, snap, s.rec.policy)
    requires c.admission.Some? ==> c.admission.value.id !in s.locks && c.admission.value.id !in snap.ledger
    requires c.admission.Some? || !s.rec.policy.protected
    ensures Next(Next(s, LockAdmission(pid), p), Judge(pid), p)
      == s.(procs := s.procs[pid := Cleared(c, false, s.rec.policy)], locks := if c.admission.Some? then s.locks[c.admission.value.id := pid] else s.locks)
  {
    var q := Locked(c, false, snap, s.rec.policy);
    var s1 := Next(s, LockAdmission(pid), p);
    LockIs(s, pid, p);
    JudgeIsNext(s1, pid, p);
    hide Next;
    assert ProcOf(s1, pid) == q;
    assert s1.procs[pid := Cleared(c, false, s.rec.policy)] == s.procs[pid := Cleared(c, false, s.rec.policy)];
  }

  lemma Opens(s: Sys, pid: Pid, c: Command, p: Profile)
    requires ProcOf(s, pid) == Submitted(c, false) && Clear(s, c) && (c.admission.Some? || !s.rec.policy.protected)
    ensures Run(s, Opening(pid), p) == Holds(s, pid, c, Cleared(c, false, s.rec.policy))
  {
    BeginsAndGates(s, pid, c, p);
    RunTwo(s, Begin(pid), Gate(pid), p);
    var s2 := Next(Next(s, Begin(pid), p), Gate(pid), p);
    var snap := Snap(s.ledger, s.resources, s.version);
    hide Next; hide Run;
    LocksAndJudges(s2, pid, c, snap, p);
    RunTwo(s2, LockAdmission(pid), Judge(pid), p);
    RunConcat(s, [Begin(pid), Gate(pid)], [LockAdmission(pid), Judge(pid)], p);
    assert s2.procs[pid := Cleared(c, false, s.rec.policy)] == s.procs[pid := Cleared(c, false, s.rec.policy)];
  }

  // ----- claim, occupation, commit, completion ---------------------------------------------

  /** The namespace of this epoch is published and intact. */
  predicate InService(s: Sys, e: Epoch) {
    && s.rec.control.Some? && s.rec.control.value.epoch == e && s.rec.control.value.mode == Ready && !s.rec.control.value.dirty
    && Recovery.HealthOf(s.rec, e) == Sound && e in s.content
  }

  /** The call names the user's own admitted entry, unclaimed and in time, in the open epoch of a protected
      policy. */
  predicate Entitled(s: Sys, c: Command) {
    && c.admission.Some?
    && var Ref(id, e) := c.admission.value;
      && s.rec.policy.protected && s.rec.policy.open && s.rec.policy.epoch == e && InService(s, e) && s.clock < s.content[e].endAt
      && HasEntry(s, e, id)
      && var x := s.content[e].entries[id];
        x.user == c.user && x.state == Admitted && x.phase == Idle && x.expiresAt.Some? && s.clock < x.expiresAt.value
  }

  lemma ServedOp(s: Sys, e: Epoch, op: Op, p: Profile)
    requires InService(s, e) && (s.clock < s.content[e].endAt || op.DoComplete? || op.DoClose? || op.DoReconcile?)
    ensures Calling(s, e, op, p) == (s.(content := s.content[e := Step(s.content[e], op, s.clock, p).0]), Step(s.content[e], op, s.clock, p).1)
  {
    hide Step;
  }

  lemma ClaimStepIs(s: Space, user: UserId, id: AdmissionId, fp: Fingerprint, token: Token, now: int, p: Profile)
    requires now < s.endAt
    ensures Step(s, DoClaim(user, id, fp, token), now, p) == Claim(s, user, id, fp, token, now, p)
  {
    hide Claim;
  }

  lemma ClaimsSlot(s: Sys, pid: Pid, c: Command, token: Token, p: Profile)
    requires Entitled(s, c) && ProcOf(s, pid) == Cleared(c, false, s.rec.policy)
    requires Agreed(s.content[c.admission.value.epoch], p, s.clock) && p.Valid()
    ensures var Ref(id, e) := c.admission.value;
      var t := Next(s, ClaimNow(pid, true, token, Heard), p);
      && e in t.content && Agreed(t.content[e], p, s.clock) && t.content[e].endAt == s.content[e].endAt
      && t.content[e].entries == s.content[e].entries[id := ClaimedBy(s.content[e].entries[id], Request(c), token, s.clock, p)]
      && t == s.(procs := s.procs[pid := Granted(c, false, s.rec.policy, token)], content := s.content[e := t.content[e]])
  {
    RequestIs(c);
    hide Agreed; hide Step; hide Claim; hide Calling; hide Lasting; hide Print; hide Request;
    var Ref(id, e) := c.admission.value;
    assert Lasting(s.content[e].entries[id], s.clock) by { LastingIs(s.content[e].entries[id], s.clock); }
    var op := DoClaim(c.user, id, Request(c), token);
    ServedOp(s, e, op, p);
    ClaimStepIs(s.content[e], c.user, id, Request(c), token, s.clock, p);
    ClaimTakes(s.content[e], c.user, id, Request(c), token, s.clock, p);
    var (u, r) := Calling(s, e, op, p);
    assert Next(s, ClaimNow(pid, true, token, Heard), p) == Hear(u, pid, ProcOf(s, pid), r);
  }

  lemma LastingIs(x: Entry, now: int)
    requires x.state == Admitted && x.phase == Idle && x.expiresAt.Some? && now < x.expiresAt.value
    ensures Lasting(x, now)
  {}

  function RowOf(c: Command, result: RowResult): Row
    requires c.admission.Some?
  {
    Row(c.admission.value.id, c.user, c.event, c.admission.value.epoch, c.operation, Request(c), result)
  }

  /** The occupation went well, or the business refused it: what waits for its COMMIT. */
  function Prepared(s: Sys, c: Command, token: Token, result: RowResult, made: Option<(ResourceId, Resource)>): Proc
    requires c.admission.Some?
  {
    Pending(c, false, s.rec.policy, Some(token), Some(RowOf(c, result)), made)
  }

  lemma Occupies(s: Sys, pid: Pid, c: Command, token: Token, id: ResourceId, made: Resource, p: Profile)
    requires ProcOf(s, pid) == Granted(c, false, s.rec.policy, token) && c.admission.Some? && BoughtBy(made, c)
    ensures Next(s, Occupy(pid, id, made), p)
      == s.(procs := s.procs[pid := Prepared(s, c, token, ConsumedRow(id), Some((id, made.(via := Some(c.admission.value.id)))))])
  {
    RequestIs(c);
    hide Print; hide Request;
  }

  lemma Declines(s: Sys, pid: Pid, c: Command, token: Token, code: Code, p: Profile)
    requires ProcOf(s, pid) == Granted(c, false, s.rec.policy, token) && c.admission.Some?
    ensures Next(s, Decline(pid, code), p) == s.(procs := s.procs[pid := Prepared(s, c, token, RejectedRow(code), None)])
  {
    RequestIs(c);
    hide Print; hide Request;
  }

  lemma Commits(s: Sys, pid: Pid, c: Command, token: Token, result: RowResult, made: Option<(ResourceId, Resource)>, p: Profile)
    requires c.admission.Some? && ProcOf(s, pid) == Prepared(s, c, token, result, made) && c.admission.value.id !in s.ledger
    requires made.Some? ==> made.value.0 !in s.resources
    requires made.Some? && made.value.1.kind != Reserved ==>
      forall r | r in s.resources && s.resources[r].kind != Reserved :: s.resources[r].key != made.value.1.key || made.value.1.key.None?
    ensures Next(s, Commit(pid), p) == s.(
      ledger := s.ledger[c.admission.value.id := RowOf(c, result)],
      resources := if made.Some? then s.resources[made.value.0 := made.value.1] else s.resources,
      procs := s.procs[pid := Settling(c, token, RowOf(c, result))], shared := s.shared - {pid}, locks := s.locks - {c.admission.value.id})
  {
    hide Print; hide Request;
    assert made.Some? && made.value.1.kind != Reserved ==> !Taken(s, made.value.1.key);
  }

  function OutcomeFor(c: Command, result: RowResult): Outcome
    requires !result.ClosedRow?
  {
    if result.ConsumedRow? then Outcome(Bought(c.operation), Some(result.resource), None)
    else Outcome(OutcomeKind.Rejected, None, Some(result.code))
  }

  lemma CompleteStepIs(s: Space, user: UserId, id: AdmissionId, fp: Fingerprint, token: Token, outcome: Outcome, now: int, p: Profile)
    requires Agreed(s, p, now) && id in s.entries && s.entries[id].user == user && s.entries[id].state == Admitted && s.entries[id].phase != Idle
    requires s.entries[id].fingerprint == Some(fp) && s.entries[id].claimToken == Some(token)
    ensures var t := Step(s, DoComplete(user, id, fp, token, outcome), now, p).0;
      && t.entries == s.entries[id := s.entries[id].(state := Consumed, phase := Idle, expiresAt := None, outcome := Some(outcome), reason := None)]
      && Agreed(t, p, now)
  {
    hide Agreed; hide Snapshot; hide Retire;
    CompleteKeeps(s, user, id, fp, token, outcome, now, p);
    hide Complete;
    assert Step(s, DoComplete(user, id, fp, token, outcome), now, p) == Complete(s, user, id, fp, token, outcome);
  }

  lemma Settles(s: Sys, pid: Pid, c: Command, token: Token, result: RowResult, p: Profile)
    requires c.admission.Some? && ProcOf(s, pid) == Settling(c, token, RowOf(c, result)) && !result.ClosedRow?
    requires var Ref(id, e) := c.admission.value;
      && InService(s, e) && Agreed(s.content[e], p, s.clock) && HasEntry(s, e, id)
      && var x := s.content[e].entries[id];
        x.user == c.user && x.state == Admitted && x.phase != Idle && x.fingerprint == Some(Request(c)) && x.claimToken == Some(token)
    ensures var Ref(id, e) := c.admission.value;
      var t := Next(s, Settle(pid, Heard), p);
      && e in t.content && Agreed(t.content[e], p, s.clock)
      && t.content[e].entries == s.content[e].entries[id :=
           s.content[e].entries[id].(state := Consumed, phase := Idle, expiresAt := None, outcome := Some(OutcomeFor(c, result)), reason := None)]
      && t == s.(procs := s.procs[pid := Finished], shared := s.shared - {pid}, content := s.content[e := t.content[e]],
                 answers := s.answers + [Answered(c, if result.ConsumedRow? then Won(result.resource, true) else Declined(result.code))])
  {
    RequestIs(c);
    hide Agreed; hide Step; hide Calling; hide Print; hide Request;
    var Ref(id, e) := c.admission.value;
    var outcome := OutcomeOf(RowOf(c, result));
    var op := DoComplete(c.user, id, Request(c), token, outcome);
    ServedOp(s, e, op, p);
    CompleteStepIs(s.content[e], c.user, id, Request(c), token, outcome, s.clock, p);
    assert Next(s, Settle(pid, Heard), p) == Tell(Calling(s, e, op, p).0, pid, c, AnswerOf(RowOf(c, result)));
  }

  // ----- the whole purchase ----------------------------------------------------------------

  /** The entry as the purchase leaves it: consumed by this request, under its token, with its result. */
  function Consumption(x: Entry, c: Command, token: Token, result: RowResult, now: int, p: Profile): Entry
    requires c.admission.Some? && !result.ClosedRow?
  {
    x.(state := Consumed, phase := Idle, expiresAt := None, reason := None, outcome := Some(OutcomeFor(c, result)),
       fingerprint := Some(Request(c)), claimToken := Some(token), deadline := Some(now + p.claimMs))
  }

  /** Everything a purchase that went through leaves: its answer, its row, what was made, the entry
      consumed and its slot free, and neither gate nor lock. */
  ghost predicate WentThrough(s: Sys, t: Sys, pid: Pid, c: Command, token: Token, result: RowResult, made: Option<(ResourceId, Resource)>, p: Profile)
    requires c.admission.Some? && !result.ClosedRow?
  {
    var Ref(id, e) := c.admission.value;
    && t.answers == s.answers + [Answered(c, if result.ConsumedRow? then Won(result.resource, true) else Declined(result.code))]
    && t.ledger == s.ledger[id := Row(id, c.user, c.event, e, c.operation, Request(c), result)]
    && t.resources == (if made.Some? then s.resources[made.value.0 := made.value.1.(via := Some(id))] else s.resources)
    && HasEntry(s, e, id) && e in t.content && t.content.Keys == s.content.Keys && (forall f | f in s.content && f != e :: t.content[f] == s.content[f])
    && t.content[e].entries == s.content[e].entries[id := Consumption(s.content[e].entries[id], c, token, result, s.clock, p)]
    && id !in t.content[e].active && t.locks == s.locks && t.rec == s.rec && ProcOf(t, pid) == Finished && pid !in t.shared
  }

  lemma SlotIsFree(s: Space, id: AdmissionId, p: Profile, now: int)
    requires Agreed(s, p, now) && id in s.entries && s.entries[id].state == Consumed
    ensures id !in s.active
  {
    hide Shaped; hide Owning; hide Numbered; hide Budgeted; hide Logged; hide WaitingIndexed; hide ClaimsIndexed;
    assert id in s.active <==> IsState(s, id, Admitted);
  }

  lemma NoReason(s: Space, id: AdmissionId, p: Profile, now: int)
    requires Agreed(s, p, now) && id in s.entries && s.entries[id].state == Admitted
    ensures s.entries[id].reason.None?
  {
    EntryIsOk(s, id, p, now);
    hide Agreed;
  }

  lemma ContentAgrees(s: Sys, e: Epoch, p: Profile)
    requires Inv(s, p) && e in s.content
    ensures Agreed(s.content[e], p, s.clock) && p.Valid()
  {}

  function Linked(c: Command, made: Option<(ResourceId, Resource)>): Option<(ResourceId, Resource)>
    requires c.admission.Some?
  {
    if made.Some? then Some((made.value.0, made.value.1.(via := Some(c.admission.value.id)))) else None
  }

  /** The row and what it names are committed, the slot is claimed, and gate and lock are given back. */
  ghost predicate Committed(s: Sys, w: Sys, pid: Pid, c: Command, token: Token, result: RowResult, made: Option<(ResourceId, Resource)>, p: Profile)
    requires c.admission.Some?
  {
    var Ref(id, e) := c.admission.value;
    && HasEntry(s, e, id) && e in w.content && Agreed(w.content[e], p, s.clock)
    && w.content[e].entries == s.content[e].entries[id := ClaimedBy(s.content[e].entries[id], Request(c), token, s.clock, p)]
    && w == s.(
      ledger := s.ledger[id := RowOf(c, result)],
      resources := if made.Some? then s.resources[made.value.0 := made.value.1.(via := Some(id))] else s.resources,
      procs := s.procs[pid := Settling(c, token, RowOf(c, result))], shared := s.shared - {pid}, content := s.content[e := w.content[e]])
  }

  /** The slot is claimed for this call, which holds gate and lock. */
  ghost predicate Slotted(s: Sys, u: Sys, pid: Pid, c: Command, token: Token, p: Profile)
    requires c.admission.Some?
  {
    var Ref(id, e) := c.admission.value;
    && HasEntry(s, e, id) && e in u.content && Agreed(u.content[e], p, s.clock)
    && u.content[e].entries == s.content[e].entries[id := ClaimedBy(s.content[e].entries[id], Request(c), token, s.clock, p)]
    && u == s.(procs := s.procs[pid := Granted(c, false, s.rec.policy, token)], shared := s.shared + {pid}, locks := s.locks[id := pid],
               content := s.content[e := u.content[e]])
  }

  lemma TakesSlot(s: Sys, pid: Pid, c: Command, token: Token, p: Profile)
    requires Inv(s, p) && Entitled(s, c)
    ensures Slotted(s, Next(Holds(s, pid, c, Cleared(c, false, s.rec.policy)), ClaimNow(pid, true, token, Heard), p), pid, c, token, p)
  {
    hide Next; hide Print; hide Request; hide Agreed; hide Inv; hide ClaimedBy; hide InService;
    ContentAgrees(s, c.admission.value.epoch, p);
    var s4 := Holds(s, pid, c, Cleared(c, false, s.rec.policy));
    StillEntitled(s, s4, c);
    ClaimsSlot(s4, pid, c, token, p);
    assert s4.procs[pid := Granted(c, false, s.rec.policy, token)] == s.procs[pid := Granted(c, false, s.rec.policy, token)];
  }

  /** Nothing committed stands in the way of what was made. */
  predicate NewTo(s: Sys, c: Command, made: Option<(ResourceId, Resource)>) {
    made.Some? ==> made.value.0 !in s.resources && (made.value.1.kind != Reserved ==> c.operation == DirectCheckoutOp && made.value.1.key == c.key)
  }

  lemma MadeIsNew(s: Sys, c: Command, id: ResourceId, made: Resource)
    requires BoughtBy(made, c) && id !in s.resources
    ensures NewTo(s, c, Some((id, made)))
  {}

  lemma NothingTaken(s: Sys, v: Sys, c: Command, made: Option<(ResourceId, Resource)>)
    requires Clear(s, c) && c.admission.Some? && NewTo(s, c, made) && v.ledger == s.ledger && v.resources == s.resources
    ensures var linked := Linked(c, made);
      && c.admission.value.id !in v.ledger && c.admission.value.id !in s.locks
      && (linked.Some? ==> linked.value.0 !in v.resources)
      && (linked.Some? && linked.value.1.kind != Reserved ==>
            forall r | r in v.resources && v.resources[r].kind != Reserved :: v.resources[r].key != linked.value.1.key || linked.value.1.key.None?)
  {}

  /** From a claimed slot to the COMMIT. */
  lemma CommitsAll(s: Sys, u: Sys, v: Sys, pid: Pid, c: Command, token: Token, result: RowResult, made: Option<(ResourceId, Resource)>, p: Profile)
    requires Clear(s, c) && c.admission.Some? && Slotted(s, u, pid, c, token, p) && NewTo(s, c, made)
    requires v == u.(procs := u.procs[pid := Prepared(u, c, token, result, Linked(c, made))])
    ensures Committed(s, Next(v, Commit(pid), p), pid, c, token, result, made, p)
  {
    hide Next; hide Print; hide Request; hide Agreed; hide ClaimedBy; hide NewTo; hide Clear; hide Slotted; hide Committed;
    SlottedKeeps(s, u, pid, c, token, p);
    NothingTaken(s, v, c, made);
    Commits(v, pid, c, token, result, Linked(c, made), p);
    IsCommitted(s, u, v, Next(v, Commit(pid), p), pid, c, token, result, made, p);
  }

  lemma SlottedKeeps(s: Sys, u: Sys, pid: Pid, c: Command, token: Token, p: Profile)
    requires c.admission.Some? && Slotted(s, u, pid, c, token, p)
    ensures u.ledger == s.ledger && u.resources == s.resources && u.rec == s.rec
  {}

  lemma IsCommitted(s: Sys, u: Sys, v: Sys, w: Sys, pid: Pid, c: Command, token: Token, result: RowResult, made: Option<(ResourceId, Resource)>, p: Profile)
    requires c.admission.Some? && Slotted(s, u, pid, c, token, p) && c.admission.value.id !in s.locks
    requires v == u.(procs := u.procs[pid := Prepared(u, c, token, result, Linked(c, made))])
    requires w == v.(
      ledger := v.ledger[c.admission.value.id := RowOf(c, result)],
      resources := if made.Some? then v.resources[made.value.0 := made.value.1.(via := Some(c.admission.value.id))] else v.resources,
      procs := v.procs[pid := Settling(c, token, RowOf(c, result))], shared := v.shared - {pid}, locks := v.locks - {c.admission.value.id})
    ensures Committed(s, w, pid, c, token, result, made, p)
  {
    hide Agreed; hide ClaimedBy; hide Request; hide Prepared; hide RowOf;
    assert w.locks == s.locks;
    assert w.shared == s.shared - {pid};
    assert w.procs == s.procs[pid := Settling(c, token, RowOf(c, result))];
  }

  lemma ServedToo(s: Sys, w: Sys, c: Command)
    requires Entitled(s, c) && w.rec == s.rec && c.admission.value.epoch in w.content
    ensures InService(w, c.admission.value.epoch)
  {}

  /** And from there to the end. */
  lemma Concludes(s: Sys, w: Sys, pid: Pid, c: Command, token: Token, result: RowResult, made: Option<(ResourceId, Resource)>, p: Profile)
    requires Inv(s, p) && Entitled(s, c) && !result.ClosedRow? && Committed(s, w, pid, c, token, result, made, p)
    ensures WentThrough(s, Next(w, Settle(pid, Heard), p), pid, c, token, result, made, p)
  {
    hide Next; hide Print; hide Request; hide Agreed; hide Inv; hide InService;
    var Ref(id, e) := c.admission.value;
    ContentAgrees(s, e, p);
    NoReason(s.content[e], id, p, s.clock);
    ServedToo(s, w, c);
    Settles(w, pid, c, token, result, p);
    var t := Next(w, Settle(pid, Heard), p);
    SlotIsFree(t.content[e], id, p, s.clock);
    assert t.locks == s.locks && pid !in t.shared && ProcOf(t, pid) == Finished;
  }

  function Deciding(pid: Pid, token: Token, act: Act): seq<Act> {
    Opening(pid) + [ClaimNow(pid, true, token, Heard), act] + [Commit(pid), Settle(pid, Heard)]
  }

  lemma DecidingRun(s: Sys, pid: Pid, c: Command, token: Token, act: Act, p: Profile)
    requires ProcOf(s, pid) == Submitted(c, false) && Clear(s, c) && c.admission.Some?
    ensures var u := Next(Holds(s, pid, c, Cleared(c, false, s.rec.policy)), ClaimNow(pid, true, token, Heard), p);
      Run(s, Deciding(pid, token, act), p) == Next(Next(Next(u, act, p), Commit(pid), p), Settle(pid, Heard), p)
  {
    hide Next; hide Run;
    Opens(s, pid, c, p);
    var s4 := Holds(s, pid, c, Cleared(c, false, s.rec.policy));
    RunTwo(s4, ClaimNow(pid, true, token, Heard), act, p);
    var s6 := Next(Next(s4, ClaimNow(pid, true, token, Heard), p), act, p);
    RunTwo(s6, Commit(pid), Settle(pid, Heard), p);
    RunConcat(s, Opening(pid), [ClaimNow(pid, true, token, Heard), act], p);
    RunConcat(s, Opening(pid) + [ClaimNow(pid, true, token, Heard), act], [Commit(pid), Settle(pid, Heard)], p);
  }

  /** An entitled purchase that nobody interrupts goes through: it is answered with what it made, and its
      row, its resource and its entry say so. */
  lemma PurchaseGoesThrough(s: Sys, pid: Pid, c: Command, token: Token, id: ResourceId, made: Resource, p: Profile)
    requires Inv(s, p) && ProcOf(s, pid) == Submitted(c, false) && Clear(s, c) && Entitled(s, c)
    requires BoughtBy(made, c) && id !in s.resources
    ensures WentThrough(s, Run(s, Deciding(pid, token, Occupy(pid, id, made)), p), pid, c, token, ConsumedRow(id), Some((id, made)), p)
  {
    hide Next; hide Run; hide Inv; hide Print; hide Request; hide Entitled; hide Clear; hide BoughtBy; hide NewTo;
    MadeIsNew(s, c, id, made);
    DecidingRun(s, pid, c, token, Occupy(pid, id, made), p) by { EntitledNames(s, c); }
    EntitledNames(s, c);
    var s4 := Holds(s, pid, c, Cleared(c, false, s.rec.policy));
    TakesSlot(s, pid, c, token, p);
    var u := Next(s4, ClaimNow(pid, true, token, Heard), p);
    Occupies(u, pid, c, token, id, made, p);
    var v := Next(u, Occupy(pid, id, made), p);
    CommitsAll(s, u, v, pid, c, token, ConsumedRow(id), Some((id, made)), p);
    Concludes(s, Next(v, Commit(pid), p), pid, c, token, ConsumedRow(id), Some((id, made)), p);
  }

  /** A business refusal is stored as the result of the admission, and answered. */
  lemma RefusalGoesThrough(s: Sys, pid: Pid, c: Command, token: Token, code: Code, p: Profile)
    requires Inv(s, p) && ProcOf(s, pid) == Submitted(c, false) && Clear(s, c) && Entitled(s, c)
    ensures WentThrough(s, Run(s, Deciding(pid, token, Decline(pid, code)), p), pid, c, token, RejectedRow(code), None, p)
  {
    hide Next; hide Run; hide Inv; hide Print; hide Request; hide Entitled; hide Clear;
    EntitledNames(s, c);
    DecidingRun(s, pid, c, token, Decline(pid, code), p);
    var s4 := Holds(s, pid, c, Cleared(c, false, s.rec.policy));
    TakesSlot(s, pid, c, token, p);
    var u := Next(s4, ClaimNow(pid, true, token, Heard), p);
    Declines(u, pid, c, token, code, p);
    var v := Next(u, Decline(pid, code), p);
    CommitsAll(s, u, v, pid, c, token, RejectedRow(code), None, p);
    Concludes(s, Next(v, Commit(pid), p), pid, c, token, RejectedRow(code), None, p);
  }

  lemma EntitledNames(s: Sys, c: Command)
    requires Entitled(s, c)
    ensures c.admission.Some? && c.admission.value.epoch in s.content && s.rec.policy.protected
  {}

  lemma StillEntitled(s: Sys, t: Sys, c: Command)
    requires Entitled(s, c) && t.rec == s.rec && t.content == s.content && t.clock == s.clock
    ensures Entitled(t, c)
  {}

  // ----- refusals --------------------------------------------------------------------------

  /** What becomes of the claim of a protected purchase: refused before it is sent, lost on the way back,
      or answered by the script; None if the slot is granted. */
  function ClaimCode(s: Sys, c: Command, enabled: bool, token: Token, fate: Fate, p: Profile): Option<Code>
    requires c.admission.Some?
  {
    var Ref(id, e) := c.admission.value;
    if !enabled then Some(Unavailable)
    else if !s.rec.policy.open then Some(Recovering)
    else if s.rec.policy.epoch != e then Some(Reset)
    else if fate == NotSent then Some(Recovering)
    else if fate == Lost then Some(Unavailable)
    else ScriptCode(s, c, p)
  }

  /** The script's own answer: the whole queue first, then the entry. */
  function ScriptCode(s: Sys, c: Command, p: Profile): Option<Code>
    requires c.admission.Some?
  {
    var Ref(id, e) := c.admission.value;
    if s.rec.control.Some? && s.rec.control.value.epoch != e then Some(Reset)
    else if !InService(s, e) || s.clock >= s.content[e].endAt then Some(Recovering)
    else if id !in s.content[e].entries || s.content[e].entries[id].user != c.user then Some(NotFound)
    else
      var x := s.content[e].entries[id];
      if x.state == Admitted && Lasting(x, s.clock) then None
      else if Repeats(x, Request(c), s.clock) then None
      else Some(ClaimRefusal(x, Request(c), s.clock))
  }

  lemma ScriptRefuses(s: Sys, c: Command, token: Token, p: Profile)
    requires Inv(s, p) && c.admission.Some?
    ensures var r := Calling(s, c.admission.value.epoch, DoClaim(c.user, c.admission.value.id, Request(c), token), p).1;
      && (ScriptCode(s, c, p).Some? ==> r.Refusal? && r.code == ScriptCode(s, c, p).value)
      && (ScriptCode(s, c, p).None? ==> r.Answer? && r.entry.Some? && r.entry.value.claimToken.Some?)
  {
    hide Calling; hide ScriptCode; hide Print; hide Request;
    var e := c.admission.value.epoch;
    if InService(s, e) && s.clock < s.content[e].endAt {
      hide Inv;
      ScriptHears(s, c, token, p);
    } else {
      if e !in s.content { SoundIsThere(s, e, p); }
      hide Inv;
      ScriptBars(s, c, token, p);
    }
  }

  lemma ScriptBars(s: Sys, c: Command, token: Token, p: Profile)
    requires c.admission.Some? && (c.admission.value.epoch !in s.content ==> Recovery.HealthOf(s.rec, c.admission.value.epoch) != Sound)
    requires !(InService(s, c.admission.value.epoch) && s.clock < s.content[c.admission.value.epoch].endAt)
    ensures var r := Calling(s, c.admission.value.epoch, DoClaim(c.user, c.admission.value.id, Request(c), token), p).1;
      r.Refusal? && ScriptCode(s, c, p) == Some(r.code)
  {
    hide Print; hide Request; hide Step;
  }

  lemma ScriptHears(s: Sys, c: Command, token: Token, p: Profile)
    requires Inv(s, p) && c.admission.Some? && InService(s, c.admission.value.epoch) && s.clock < s.content[c.admission.value.epoch].endAt
    ensures var r := Calling(s, c.admission.value.epoch, DoClaim(c.user, c.admission.value.id, Request(c), token), p).1;
      && (ScriptCode(s, c, p).Some? ==> r.Refusal? && r.code == ScriptCode(s, c, p).value)
      && (ScriptCode(s, c, p).None? ==> r.Answer? && r.entry.Some? && r.entry.value.claimToken.Some?)
  {
    hide Inv; hide Agreed; hide Print; hide Request; hide Claim; hide Calling; hide Lasting; hide ClaimRefusal; hide Repeats; hide Step; hide Snapshot;
    var Ref(id, e) := c.admission.value;
    ContentAgrees(s, e, p);
    ServedOp(s, e, DoClaim(c.user, id, Request(c), token), p);
    ClaimStepIs(s.content[e], c.user, id, Request(c), token, s.clock, p);
    ClaimReplies(s.content[e], c.user, id, Request(c), token, s.clock, p);
  }

  lemma SoundIsThere(s: Sys, e: Epoch, p: Profile)
    requires Inv(s, p) && e !in s.content
    ensures Recovery.HealthOf(s.rec, e) != Sound
  {
    assert Populated(s);
    hide Inv;
  }

  lemma ClaimReplies(s: Space, user: UserId, id: AdmissionId, fp: Fingerprint, token: Token, now: int, p: Profile)
    requires Agreed(s, p, now) && p.Valid()
    ensures var r := Claim(s, user, id, fp, token, now, p).1;
      if id !in s.entries || s.entries[id].user != user then r == Refusal(NotFound, None, None)
      else if s.entries[id].state == Admitted && Lasting(s.entries[id], now) then r.Answer? && r.entry.Some? && r.entry.value.claimToken.Some?
      else if Repeats(s.entries[id], fp, now) then r.Answer? && r.entry.Some? && r.entry.value.claimToken.Some?
      else r == Refusal(ClaimRefusal(s.entries[id], fp, now), None, None)
  {
    hide Agreed; hide Snapshot; hide ClaimRefusal; hide AfterRefusal; hide ClaimedBy; hide Lasting; hide Sane;
    if id in s.entries && s.entries[id].user == user {
      EntryIsSane(s, id, now, p);
      ClaimEntries(s, user, id, fp, token, now, p);
      ClaimKeeps(s, user, id, fp, token, now, p);
      GrantTies(s, user, id, fp, token, now, p);
      hide Claim;
      SnapshotAnswers(s, id, false, p, now);
      if id in Claim(s, user, id, fp, token, now, p).0.entries { SnapshotAnswers(Claim(s, user, id, fp, token, now, p).0, id, false, p, now); }
    }
  }

  lemma ClaimDoubts(s: Sys, pid: Pid, c: Command, enabled: bool, token: Token, fate: Fate, p: Profile)
    requires c.admission.Some? && ProcOf(s, pid) == Cleared(c, false, s.rec.policy) && s.rec.policy.protected
    requires ClaimCode(s, c, enabled, token, fate, p).Some?
    requires var r := Calling(s, c.admission.value.epoch, DoClaim(c.user, c.admission.value.id, Request(c), token), p).1;
      ScriptCode(s, c, p).Some? ==> r.Refusal? && r.code == ScriptCode(s, c, p).value
    ensures var t := Next(s, ClaimNow(pid, enabled, token, fate), p);
      && t == s.(content := t.content, procs := s.procs[pid := Doubting(c, false, ClaimCode(s, c, enabled, token, fate, p).value)],
                 shared := s.shared - {pid}, locks := s.locks - {c.admission.value.id})
  {
    RequestIs(c);
    hide Print; hide Request; hide ScriptCode; hide Calling;
    CallingOnlyContent(s, c.admission.value.epoch, DoClaim(c.user, c.admission.value.id, Request(c), token), p);
  }

  lemma CallingOnlyContent(s: Sys, e: Epoch, op: Op, p: Profile)
    ensures var t := Calling(s, e, op, p).0; t == s.(content := t.content)
  {
    hide Step; hide Barred;
  }

  lemma ConfirmDenies(s: Sys, pid: Pid, c: Command, code: Code, p: Profile)
    requires ProcOf(s, pid) == Doubting(c, false, code) && c.admission.Some? && c.admission.value.id !in s.ledger && c.admission.value.id !in s.locks
    ensures Next(s, Confirm(pid), p)
      == s.(procs := s.procs[pid := Finished], shared := s.shared - {pid}, answers := s.answers + [Answered(c, Denied(code, false))])
  {}

  /** A protected purchase whose claim is not granted is answered with the reason, and leaves no row,
      nothing made, and neither gate nor lock: switched off, recovering, reset, unheard, or what the
      script refused it with. */
  lemma RefusalIsAnswered(s: Sys, pid: Pid, c: Command, enabled: bool, token: Token, fate: Fate, p: Profile)
    requires Inv(s, p) && ProcOf(s, pid) == Submitted(c, false) && Clear(s, c) && c.admission.Some? && s.rec.policy.protected
    requires ClaimCode(s, c, enabled, token, fate, p).Some?
    ensures var t := Run(s, Opening(pid) + [ClaimNow(pid, enabled, token, fate), Confirm(pid)], p);
      && t.answers == s.answers + [Answered(c, Denied(ClaimCode(s, c, enabled, token, fate, p).value, false))]
      && t.ledger == s.ledger && t.resources == s.resources && t.rec == s.rec
      && t.locks == s.locks && t.shared == s.shared - {pid} && ProcOf(t, pid) == Finished
  {
    hide Next; hide Run; hide Inv; hide Print; hide Request; hide ClaimRefusal; hide Lasting; hide Repeats; hide InService;
    var id := c.admission.value.id;
    Opens(s, pid, c, p);
    var s4 := Holds(s, pid, c, Cleared(c, false, s.rec.policy));
    ScriptRefuses(s, c, token, p);
    SameCode(s, s4, c, enabled, token, fate, p);
    hide ClaimCode; hide ScriptCode; hide Calling;
    ClaimDoubts(s4, pid, c, enabled, token, fate, p);
    var s5 := Next(s4, ClaimNow(pid, enabled, token, fate), p);
    assert s5.locks == s.locks && s5.shared == s.shared - {pid};
    ConfirmDenies(s5, pid, c, ClaimCode(s, c, enabled, token, fate, p).value, p);
    RunTwo(s4, ClaimNow(pid, enabled, token, fate), Confirm(pid), p);
    RunConcat(s, Opening(pid), [ClaimNow(pid, enabled, token, fate), Confirm(pid)], p);
  }

  lemma SameCode(s: Sys, t: Sys, c: Command, enabled: bool, token: Token, fate: Fate, p: Profile)
    requires c.admission.Some? && t.rec == s.rec && t.content == s.content && t.clock == s.clock
    ensures ClaimCode(t, c, enabled, token, fate, p) == ClaimCode(s, c, enabled, token, fate, p)
    ensures ScriptCode(t, c, p) == ScriptCode(s, c, p)
    ensures forall e, op :: Calling(t, e, op, p).1 == Calling(s, e, op, p).1
  {
    hide Step; hide Print; hide Request; hide ClaimRefusal; hide Lasting; hide Repeats;
  }

  // ----- without protection ----------------------------------------------------------------

  /** An unprotected purchase goes through without Redis; a protected one without an admission is invalid. */
  lemma UnprotectedGoesThrough(s: Sys, pid: Pid, c: Command, id: ResourceId, made: Resource, p: Profile)
    requires ProcOf(s, pid) == Submitted(c, false) && Clear(s, c) && !s.rec.policy.protected
    requires BoughtBy(made, c) && id !in s.resources
    ensures var t := Run(s, Opening(pid) + [Occupy(pid, id, made), Commit(pid)], p);
      && t.answers == s.answers + [Answered(c, Won(id, false))] && t.resources == s.resources[id := made.(via := None)]
      && t.ledger == s.ledger && t.content == s.content && t.locks == s.locks && ProcOf(t, pid) == Finished && pid !in t.shared
  {
    hide Run;
    Opens(s, pid, c, p);
    var s4 := Holds(s, pid, c, Cleared(c, false, s.rec.policy));
    RunTwo(s4, Occupy(pid, id, made), Commit(pid), p);
    RunConcat(s, Opening(pid), [Occupy(pid, id, made), Commit(pid)], p);
    OccupiesFreely(s4, pid, c, id, made, p);
    var s5 := Next(s4, Occupy(pid, id, made), p);
    hide Next;
    CommitsFreely(s5, pid, c, id, made.(via := None), p);
    if c.admission.Some? { assert s.locks[c.admission.value.id := pid] - {c.admission.value.id} == s.locks; }
  }

  lemma OccupiesFreely(s: Sys, pid: Pid, c: Command, id: ResourceId, made: Resource, p: Profile)
    requires ProcOf(s, pid) == Cleared(c, false, s.rec.policy) && !s.rec.policy.protected && BoughtBy(made, c)
    ensures Next(s, Occupy(pid, id, made), p)
      == s.(procs := s.procs[pid := Pending(c, false, s.rec.policy, None, None, Some((id, made.(via := None))))])
  {}

  lemma CommitsFreely(s: Sys, pid: Pid, c: Command, id: ResourceId, made: Resource, p: Profile)
    requires ProcOf(s, pid) == Pending(c, false, s.rec.policy, None, None, Some((id, made))) && id !in s.resources
    requires made.kind != Reserved ==> forall r | r in s.resources && s.resources[r].kind != Reserved :: s.resources[r].key != made.key || made.key.None?
    ensures Next(s, Commit(pid), p) == s.(
      resources := s.resources[id := made], procs := s.procs[pid := Finished], shared := s.shared - {pid},
      locks := if c.admission.Some? then s.locks - {c.admission.value.id} else s.locks, answers := s.answers + [Answered(c, Won(id, false))])
  {
    assert made.kind != Reserved ==> !Taken(s, made.key);
  }

  lemma NamelessIsInvalid(s: Sys, pid: Pid, c: Command, p: Profile)
    requires ProcOf(s, pid) == Submitted(c, false) && Clear(s, c) && s.rec.policy.protected && c.admission.None?
    ensures var t := Run(s, Opening(pid), p);
      t.answers == s.answers + [Answered(c, Invalid)] && t.ledger == s.ledger && t.resources == s.resources && pid !in t.shared
  {
    hide Run;
    BeginsAndGates(s, pid, c, p);
    RunTwo(s, Begin(pid), Gate(pid), p);
    var s2 := Next(Next(s, Begin(pid), p), Gate(pid), p);
    RunTwo(s2, LockAdmission(pid), Judge(pid), p);
    RunConcat(s, [Begin(pid), Gate(pid)], [LockAdmission(pid), Judge(pid)], p);
    NamelessJudged(s2, pid, c, Snap(s.ledger, s.resources, s.version), p);
    hide Next;
  }

  lemma NamelessJudged(s: Sys, pid: Pid, c: Command, snap: Snap, p: Profile)
    requires ProcOf(s, pid) == Gated(c, false, snap, s.rec.policy) && s.rec.policy.protected && c.admission.None?
    ensures Next(Next(s, LockAdmission(pid), p), Judge(pid), p)
      == s.(procs := s.procs[pid := Finished], shared := s.shared - {pid}, answers := s.answers + [Answered(c, Invalid)])
  {
    var q := Locked(c, false, snap, s.rec.policy);
    var s1 := Next(s, LockAdmission(pid), p);
    assert ProcOf(s1, pid) == q && s1 == s.(procs := s.procs[pid := q]);
    assert s1.procs[pid := Finished] == s.procs[pid := Finished];
  }
}
