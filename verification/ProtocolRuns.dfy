/** The purchase laws over every interleaving of consumers, reclaimers, recovery and crashes. */
module ProtocolRuns {
  import opened AdmissionTypes
  import opened AdmissionSpace
  import opened AdmissionControl
  import opened Agreement
  import opened AgreementOps
  import opened AdmissionRuns
  import opened Protocol
  import opened Reflection
  import opened ProtocolInvariant
  import opened ProtocolSteps
  import opened ProtocolKeeps
  import Recovery

  // ----- recovery under the purchases ------------------------------------------------------

  /** What one recovery action can do to the epochs and the gate. */
  ghost predicate Tame(s: Recovery.State, t: Recovery.State, a: Recovery.Action) {
    && (forall e :: EverReady(s, e) ==> EverReady(t, e))
    && (forall e | e in t.spaces && t.spaces[e] == Sound :: (e in s.spaces && s.spaces[e] == Sound) || e == s.policy.epoch)
    && (Recovery.HealthOf(t, s.policy.epoch) == Sound && Recovery.HealthOf(s, s.policy.epoch) != Sound ==> !EverReady(s, s.policy.epoch))
    && (t.gate.Some? ==> s.gate.Some? || a.Enter?)
    && (s.gate.None? && !a.Protect? ==> t.policy == s.policy)
  }

  lemma RecordsGrow(s: Recovery.State, t: Recovery.State)
    requires s.ready <= t.ready && forall g | g in s.epochOf :: g in t.epochOf && t.epochOf[g] == s.epochOf[g]
    ensures forall e :: EverReady(s, e) ==> EverReady(t, e)
  {
    forall e | EverReady(s, e) ensures EverReady(t, e) {
      var g :| g in s.ready && g in s.epochOf && s.epochOf[g] == e;
      assert g in t.ready && t.epochOf[g] == e;
    }
  }

  lemma BeginTame(s: Recovery.State, a: Recovery.Action)
    requires a.Start? || a.FreezeSeen? || a.Enter?
    ensures Tame(s, Recovery.BeginStep(s, a), a)
  {
    hide EverReady; hide Freeze;
    RecordsGrow(s, Recovery.BeginStep(s, a));
  }

  lemma LeaveTame(s: Recovery.State, a: Recovery.Action)
    requires Recovery.Inv(s) && (a.Commit? || a.Abort? || a.Kill?)
    ensures Tame(s, Recovery.LeaveStep(s, a), a)
  {
    hide EverReady;
    if Recovery.PcOf(s, a.p).Inside? { assert Recovery.PcOk(s, a.p, s.coords[a.p]); }
    RecordsGrow(s, Recovery.LeaveStep(s, a));
  }

  lemma WorldTame(s: Recovery.State, a: Recovery.Action)
    ensures Tame(s, Recovery.WorldStep(s, a), a)
  {
    hide EverReady; hide Freeze;
    RecordsGrow(s, Recovery.WorldStep(s, a));
  }

  lemma NotYetReady(s: Recovery.State)
    requires Recovery.Inv(s) && !s.policy.open
    ensures !EverReady(s, s.policy.epoch)
  {}

  lemma InsideTame(s: Recovery.State, a: Recovery.Action, p: Recovery.Pid)
    requires Recovery.Inv(s) && Recovery.PcOf(s, p).Inside?
    ensures var pc := Recovery.PcOf(s, p); Tame(s, Recovery.InsideStep(s, a, p, pc.stage, pc.current, pc.at), a)
  {
    var pc := Recovery.PcOf(s, p);
    assert Recovery.PcOk(s, p, s.coords[p]);
    if !s.policy.open { NotYetReady(s); }
    hide EverReady; hide Recovery.Inv; hide Freeze; hide Probe; hide Publish; hide Recovery.Keeps;
    RecordsGrow(s, Recovery.InsideStep(s, a, p, pc.stage, pc.current, pc.at));
  }

  lemma NextTame(s: Recovery.State, a: Recovery.Action)
    requires Recovery.Inv(s)
    ensures Tame(s, Recovery.Next(s, a), a)
  {
    hide Tame; hide Recovery.BeginStep; hide Recovery.LeaveStep; hide Recovery.WorldStep; hide Recovery.InsideStep; hide Recovery.Inv;
    if a.Start? || a.FreezeSeen? || a.Enter? { BeginTame(s, a); }
    else if a.Commit? || a.Abort? || a.Kill? { LeaveTame(s, a); }
    else if Recovery.OfWorld(a) { WorldTame(s, a); }
    else if Recovery.PcOf(s, a.p).Inside? { InsideTame(s, a, a.p); }
    else { SameTame(s, a); }
  }

  lemma SameTame(s: Recovery.State, a: Recovery.Action)
    ensures Tame(s, s, a)
  {}

  /** The namespace that recovery creates is a fresh one: nothing was ever in it. */
  lemma WorldContent(s: Sys, t: Sys, p: Profile)
    requires p.Valid() && ContentOk(s, p) && Populated(s)
    requires t == s.(rec := t.rec, version := t.version, content := t.content)
    requires var e := s.rec.policy.epoch;
      t.content == s.content || (!EverReady(s.rec, e) && t.content == s.content[e := EmptySpace(e, s.clock + p.epochMs)])
    ensures ContentOk(t, p) && Grows(s, t)
  {
    var e := s.rec.policy.epoch;
    hide Agreed; hide EverReady; hide EmptySpace; hide AllFit;
    EmptyAgrees(e, s.clock + p.epochMs, p, s.clock);
    EmptyFits(e, s.clock + p.epochMs, s.ledger);
    assert ContentOk(t, p);
    hide ContentOk;
    RecreatedGrows(s, t, e);
  }

  /** An epoch that was never ready had no entries to lose. */
  lemma RecreatedGrows(s: Sys, t: Sys, e: Epoch)
    requires Populated(s) && t.ledger == s.ledger && t.resources == s.resources
    requires t.content == s.content || (!EverReady(s.rec, e) && e in t.content && t.content == s.content[e := t.content[e]])
    ensures Grows(s, t)
  {
    hide EverReady;
    assert forall x: Entry :: Evolves(x, x);
  }

  lemma EmptyFits(e: Epoch, endAt: int, l: Ledger)
    ensures AllFit(EmptySpace(e, endAt), l) && EmptySpace(e, endAt).epoch == e && EmptySpace(e, endAt).entries == map[]
  {}

  lemma WorldPopulates(s: Sys, t: Sys, a: Recovery.Action, p: Profile)
    requires Populated(s) && Tame(s.rec, t.rec, a)
    requires var e := s.rec.policy.epoch;
      t.content == if Recovery.HealthOf(t.rec, e) == Sound && Recovery.HealthOf(s.rec, e) != Sound
        then s.content[e := EmptySpace(e, s.clock + p.epochMs)] else s.content
    ensures Populated(t)
  {
    hide EverReady; hide EmptySpace;
    EmptyFits(s.rec.policy.epoch, s.clock + p.epochMs, map[]);
  }

  lemma WorldLedger(s: Sys, t: Sys)
    requires LedgerOk(s) && Grows(s, t) && t.ledger == s.ledger && t.resources == s.resources
    ensures LedgerOk(t)
  {
    forall a | a in t.ledger ensures RowOk(t, a, t.ledger[a]) { assert RowOk(s, a, s.ledger[a]); }
  }

  lemma StoresParts(s: Sys, p: Profile)
    ensures StoresOk(s, p) <==> p.Valid() && Recovery.Inv(s.rec) && ContentOk(s, p) && Populated(s) && LedgerOk(s)
  {}

  lemma GateParts(s: Sys)
    requires GateOk(s)
    ensures s.rec.gate.Some? ==> s.shared == {}
  {}

  lemma WorldKeeps(s: Sys, a: Recovery.Action, p: Profile)
    requires Inv(s, p) && Recovery.Possible(s.rec, a)
    ensures Inv(WorldStep(s, a, p), p) && Grows(s, WorldStep(s, a, p))
  {
    hide Inv; hide StoresOk; hide Recovery.Next; hide ContentOk; hide Populated; hide LedgerOk; hide ProcsOk; hide AnswersOk; hide Grows;
    hide EverReady; hide Recovery.Inv; hide LocksOk; hide GateOk; hide EmptySpace; hide Recovery.Possible; hide Recovery.HealthOf;
    var t := WorldStep(s, a, p);
    StoresOfInv(s, p);
    StoresParts(s, p);
    GateParts(s);
    if (a.Enter? || a.Protect?) && s.shared != {} {
      GrowsItself(s, s);
    } else {
      Recovery.NextKeeps(s.rec, a);
      NextTame(s.rec, a);
      WorldContent(s, t, p);
      WorldPopulates(s, t, a, p);
      WorldLedger(s, t);
      StoresParts(t, p);
      StoresMove(s, t, p);
    }
  }

  lemma WaitContent(s: Sys, now: int, p: Profile)
    requires ContentOk(s, p) && s.clock <= now
    ensures ContentOk(s.(clock := now), p)
  {
    hide Agreed; hide AllFit;
    var t := s.(clock := now);
    forall e | e in t.content ensures Agreed(t.content[e], p, now) { TimePasses(s.content[e], p, s.clock, now); }
  }

  lemma WaitPopulates(s: Sys, now: int)
    requires Populated(s)
    ensures Populated(s.(clock := now))
  {
    hide EverReady;
  }

  lemma WaitKeeps(s: Sys, now: int, p: Profile)
    requires Inv(s, p) && s.clock <= now
    ensures Inv(s.(clock := now), p) && Grows(s, s.(clock := now))
  {
    hide Inv; hide StoresOk; hide ContentOk; hide Populated; hide LedgerOk; hide ProcsOk; hide AnswersOk; hide Grows; hide LocksOk; hide GateOk;
    hide Recovery.Inv;
    var t := s.(clock := now);
    StoresOfInv(s, p);
    StoresParts(s, p);
    GateParts(s);
    GrowsItself(s, t);
    WaitContent(s, now, p);
    WaitPopulates(s, now);
    WorldLedger(s, t);
    StoresParts(t, p);
    StoresMove(s, t, p);
  }

  lemma ConvertKeeps(s: Sys, id: ResourceId, order: Resource, p: Profile)
    requires Inv(s, p) && id !in s.resources && order.kind == Converted && !Taken(s, order.key)
    ensures Inv(s.(resources := s.resources[id := order.(via := None)]), p)
  {
    var t := s.(resources := s.resources[id := order.(via := None)]);
    StoresOfInv(s, p);
    hide StoresOk; hide ProcsOk; hide AnswersOk; hide LocksOk; hide Grows; hide RowFits; hide Taken;
    CommitStores(s, t, None, Some((id, order.(via := None))), p);
    StoresMove(s, t, p);
  }

  /** Every action keeps the invariant. */
  lemma NextKeeps(s: Sys, act: Act, p: Profile)
    requires Inv(s, p) && Possible(s, act)
    ensures Inv(Next(s, act, p), p)
  {
    hide Inv; hide WorldStep; hide Calling; hide PurchaseStep; hide ReclaimStep; hide Taken; hide Grows;
    if act.World? { WorldKeeps(s, act.a, p); }
    else if act.Wait? { WaitKeeps(s, act.now, p); }
    else if act.Queue? { QueueKeeps(s, act.epoch, act.op, p); }
    else if act.Convert? {
      if act.id !in s.resources && act.order.kind == Converted && !Taken(s, act.order.key) { ConvertKeeps(s, act.id, act.order, p); }
    } else if OfReclaimer(act) { ReclaimKeeps(s, act, act.pid, p); }
    else { PurchaseKeeps(s, act, act.pid, p); }
  }

  lemma QueueKeeps(s: Sys, e: Epoch, op: Op, p: Profile)
    requires Inv(s, p) && Possible(s, Queue(e, op))
    ensures Inv(Calling(s, e, op, p).0, p)
  {
    hide Inv; hide Calling;
    CallingKeeps(s, e, op, p);
  }

  // ----- runs ------------------------------------------------------------------------------

  ghost function Run(s: Sys, acts: seq<Act>, p: Profile): Sys
    decreases |acts|
  {
    if acts == [] then s else Run(Next(s, acts[0], p), acts[1..], p)
  }

  ghost predicate PossibleRun(s: Sys, acts: seq<Act>, p: Profile)
    decreases |acts|
  {
    acts == [] || (Possible(s, acts[0]) && PossibleRun(Next(s, acts[0], p), acts[1..], p))
  }

  lemma {:induction false} RunKeeps(s: Sys, acts: seq<Act>, p: Profile)
    requires Inv(s, p) && PossibleRun(s, acts, p)
    ensures Inv(Run(s, acts, p), p)
    decreases |acts|
  {
    hide Inv; hide Next; hide Possible;
    if acts != [] {
      NextKeeps(s, acts[0], p);
      RunKeeps(Next(s, acts[0], p), acts[1..], p);
    }
  }

  ghost predicate Reachable(s: Sys, epoch: Epoch, run: int, protected: bool, clock: int, acts: seq<Act>, p: Profile) {
    p.Valid() && PossibleRun(Start(epoch, run, protected, clock), acts, p) && s == Run(Start(epoch, run, protected, clock), acts, p)
  }

  lemma StartHolds(epoch: Epoch, run: int, protected: bool, clock: int, p: Profile)
    requires p.Valid()
    ensures Inv(Start(epoch, run, protected, clock), p)
  {
    Recovery.InitialHolds(epoch, run, protected);
  }

  lemma ReachableHolds(s: Sys, epoch: Epoch, run: int, protected: bool, clock: int, acts: seq<Act>, p: Profile)
    requires Reachable(s, epoch, run, protected, clock, acts, p)
    ensures Inv(s, p)
  {
    hide Inv; hide Run; hide PossibleRun; hide Start;
    StartHolds(epoch, run, protected, clock, p);
    RunKeeps(Start(epoch, run, protected, clock), acts, p);
  }

  lemma BeginIs(s: Sys, pid: Pid, p: Profile)
    ensures var q := ProcOf(s, pid); Next(s, Begin(pid), p) == if q.Submitted? then Go(s, pid, Open(q.cmd, q.again, Snap(s.ledger, s.resources, s.version))) else s
  {
    hide ProcOf; hide Go;
  }
}
