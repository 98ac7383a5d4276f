/** One loss costs one generation: after every key of an open generation was lost, coordinators with
    no, older or interrupted observations replace it exactly once, however they interleave and
    wherever they are killed. */
module OneLoss {
  import opened AdmissionTypes
  import opened AdmissionControl
  import opened Recovery
  import opened RecoveryProgress

  /** What `maintain` hands to `recover`: nothing, something older, or an interrupted publication. */
  predicate Permitted(seen: Option<Control>, g: nat) {
    seen.None? || seen.value.generation <= g || (seen.value.mode == Initializing && !seen.value.dirty)
  }

  /** Coordinators start through `maintain`, the session has not ended, and nothing else is lost; a
      `publish` may arrive late. */
  predicate Undamaged(a: Action, g: nat) {
    && !a.Flush? && !a.Damage? && !a.LoseControl? && !a.MarkDirty? && !a.FreezeAny? && !a.Protect? && !a.Retire?
    && (a.Start? ==> Permitted(a.seen, g))
    && (a.ProbeNow? ==> !a.ended)
  }

  /** The lost generation, of which something may be left but not all; or its successor, nowhere, being
      created, or served. */
  predicate Placed(s: State, g: nat, run: int) {
    && s.policy.protected && s.runId == run
    && (s.policy.generation == g || s.policy.generation == g + 1)
    && (s.policy.generation == g ==>
          s.policy.open && !ProbeOf(s) && (s.control.Some? ==> s.control.value.generation <= g))
    && (s.policy.generation == g + 1 ==>
          if s.control.None? || s.control.value.generation <= g then !s.policy.open && HealthOf(s, s.policy.epoch) == Absent
          else
            && s.control.value.generation == g + 1 && s.control.value.epoch == s.policy.epoch && s.control.value.runId == run
            && !s.control.value.dirty && s.control.value.mode != Frozen && HealthOf(s, s.policy.epoch) == Sound)
  }

  /** What a coordinator is after: the successor, or a generation that is lost or older. */
  predicate StageOk(s: State, stage: Stage, g: nat) {
    match stage
    case Decide(seen) => Permitted(seen, g)
    case Create(goal) => goal.generation <= g || (s.policy.generation == g + 1 && Matches(goal, s.policy))
    case Announce(goal) => goal.generation <= g || (s.policy.generation == g + 1 && Matches(goal, s.policy))
  }

  /** The successor's record is there. */
  predicate RecordIsNew(s: State, g: nat) {
    s.control.Some? && s.control.value.generation == g + 1
  }

  predicate PointOk(s: State, pc: Pc, g: nat, run: int)
    requires pc.Inside?
  {
    match pc.at
    case Begun => true
    case HasRun(r) => r == run && (pc.stage.Decide? || pc.stage.Create?)
    case Probed(ok, empty) =>
      pc.stage.Decide? && (s.policy.generation == g || (ok == ProbeOf(s) && empty == (HealthOf(s, s.policy.epoch) == Absent)))
    case Created(r) => r == run && pc.stage.Create? && RecordIsNew(s, g)
    case Settled(write, leave) =>
      && !leave
      && (write == Advance ==> pc.stage.Decide? && s.policy.generation == g)
      && (write == SetOpen ==> pc.stage.Create? && RecordIsNew(s, g))
  }

  predicate PcFits(s: State, pc: Pc, g: nat, run: int) {
    match pc
    case Resting => true
    case Observed(seen) => Permitted(seen, g)
    case Between(stage) => StageOk(s, stage, g)
    case Inside(stage, current, _) => StageOk(s, stage, g) && current == s.policy && PointOk(s, pc, g, run)
  }

  ghost predicate Replacing(s: State, g: nat, run: int) {
    && Inv(s) && Placed(s, g, run)
    && (forall p | p in s.coords :: PcFits(s, s.coords[p], g, run))
  }

  /** Just after the loss: the open generation no longer passes its probe, because its record or its
      namespace is gone, broken, fenced or frozen, in part or in whole. Coordinators may stand
      anywhere, also inside a transaction that probed before. */
  ghost predicate JustLost(s: State, g: nat, run: int) {
    && Inv(s) && s.policy.protected && s.policy.open && s.policy.generation == g && s.runId == run && !ProbeOf(s)
    && forall p | p in s.coords :: PcFits(s, s.coords[p], g, run)
  }

  // ----- one step --------------------------------------------------------------------------

  /** A freeze of what may have been observed reaches no record but an old one, and nobody stands
      anywhere else for it. */
  lemma FreezeReplaces(s: State, generation: nat, epoch: Epoch, g: nat, run: int)
    requires Replacing(s, g, run) && (generation <= g || s.policy.generation == g)
    ensures var t := FreezeRecord(s, generation, epoch);
      Replacing(t, g, run) && t == s.(control := t.control, log := t.log) && (s.policy.generation == g + 1 ==> ProbeOf(t) == ProbeOf(s))
  {
    FreezeKeeps(s, generation, epoch);
    hide Inv;
    var t := FreezeRecord(s, generation, epoch);
    FreezeStaysPlaced(s, generation, epoch, g, run);
    hide Placed; hide FreezeRecord; hide ProbeOf;
    forall p | p in t.coords ensures PcFits(t, t.coords[p], g, run) { assert PcFits(s, s.coords[p], g, run); }
  }

  lemma FreezeStaysPlaced(s: State, generation: nat, epoch: Epoch, g: nat, run: int)
    requires Placed(s, g, run) && (generation <= g || s.policy.generation == g)
    ensures var t := FreezeRecord(s, generation, epoch);
      && Placed(t, g, run) && t == s.(control := t.control, log := t.log) && (RecordIsNew(t, g) <==> RecordIsNew(s, g))
      && (s.policy.generation == g + 1 ==> ProbeOf(t) == ProbeOf(s))
  {}

  /** Everybody else's place fits a state that differs only in who stands where. */
  lemma OthersFit(s: State, t: State, p: Pid, g: nat, run: int)
    requires Replacing(s, g, run) && t == s.(coords := t.coords, gate := t.gate)
    requires p in t.coords && t.coords == s.coords[p := t.coords[p]] && PcFits(t, t.coords[p], g, run)
    ensures Placed(t, g, run) && forall q | q in t.coords :: PcFits(t, t.coords[q], g, run)
  {
    forall q | q in t.coords ensures PcFits(t, t.coords[q], g, run) {
      if q != p {
        assert PcFits(s, s.coords[q], g, run);
        SamePlace(s, t, s.coords[q], g, run);
      }
    }
  }

  lemma SamePlace(s: State, t: State, pc: Pc, g: nat, run: int)
    requires t == s.(coords := t.coords, gate := t.gate) && PcFits(s, pc, g, run)
    ensures PcFits(t, pc, g, run)
  {}

  lemma BeginReplaces(s: State, a: Action, g: nat, run: int)
    requires Replacing(s, g, run) && Undamaged(a, g) && (a.Start? || a.FreezeSeen? || a.Enter?)
    ensures var t := BeginStep(s, a); Placed(t, g, run) && forall q | q in t.coords :: PcFits(t, t.coords[q], g, run)
  {
    hide Inv; hide Placed; hide FreezeRecord;
    var t := BeginStep(s, a);
    var pc := PcOf(s, a.p);
    if a.p in s.coords { assert PcFits(s, s.coords[a.p], g, run); }
    if a.FreezeSeen? && a.delivered && pc.Observed? && pc.seen.Some? && pc.seen.value.mode != Initializing {
      FreezeReplaces(s, pc.seen.value.generation, pc.seen.value.epoch, g, run);
      OthersFit(FreezeRecord(s, pc.seen.value.generation, pc.seen.value.epoch), t, a.p, g, run);
    } else if t != s {
      OthersFit(s, t, a.p, g, run);
    }
  }

  /** The holder is alone inside, so a write of the policy or of Redis disturbs nobody's point. */
  lemma OthersOutside(s: State, p: Pid, q: Pid)
    requires Inv(s) && PcOf(s, p).Inside? && q in s.coords && q != p
    ensures !s.coords[q].Inside?
  {
    hide Policed; hide RecordOk;
    assert PcOk(s, p, s.coords[p]) && PcOk(s, q, s.coords[q]);
  }

  lemma CommitReplaces(s: State, p: Pid, epoch: Epoch, g: nat, run: int)
    requires Replacing(s, g, run) && epoch !in s.used && PcOf(s, p).Inside? && PcOf(s, p).at.Settled?
    requires forall e | e in s.spaces :: e in s.used
    ensures var t := LeaveStep(s, Commit(p, epoch)); Placed(t, g, run) && forall q | q in t.coords :: PcFits(t, t.coords[q], g, run)
  {
    var t := LeaveStep(s, Commit(p, epoch));
    assert PcFits(s, s.coords[p], g, run);
    forall q | q in t.coords ensures PcFits(t, t.coords[q], g, run) {
      if q != p {
        assert PcFits(s, s.coords[q], g, run);
        OthersOutside(s, p, q);
      }
    }
  }

  lemma LeaveReplaces(s: State, a: Action, g: nat, run: int)
    requires Replacing(s, g, run) && (a.Abort? || a.Kill?)
    ensures var t := LeaveStep(s, a); Placed(t, g, run) && forall q | q in t.coords :: PcFits(t, t.coords[q], g, run)
  {
    hide Inv; hide Placed;
    var t := LeaveStep(s, a);
    if a.p in s.coords { assert PcFits(s, s.coords[a.p], g, run); }
    if t != s { OthersFit(s, t, a.p, g, run); }
  }

  lemma ReadReplaces(s: State, a: Action, p: Pid, stage: Stage, at: Point, g: nat, run: int)
    requires Replacing(s, g, run) && Undamaged(a, g) && PcOf(s, p) == Inside(stage, s.policy, at)
    requires a.ReadProcess? || a.ProbeNow? || a.Pass? || a.CheckConnection?
    ensures var t := InsideStep(s, a, p, stage, s.policy, at); Placed(t, g, run) && forall q | q in t.coords :: PcFits(t, t.coords[q], g, run)
  {
    hide Inv;
    var t := InsideStep(s, a, p, stage, s.policy, at);
    assert PcFits(s, s.coords[p], g, run);
    if t != s { OthersFit(s, t, p, g, run); }
  }

  lemma JudgeReplaces(s: State, a: Action, p: Pid, stage: Stage, at: Point, g: nat, run: int)
    requires Replacing(s, g, run) && PcOf(s, p) == Inside(stage, s.policy, at) && a.Judge?
    ensures var t := InsideStep(s, a, p, stage, s.policy, at); Placed(t, g, run) && forall q | q in t.coords :: PcFits(t, t.coords[q], g, run)
  {
    hide Inv; hide FreezeRecord;
    var t := InsideStep(s, a, p, stage, s.policy, at);
    assert PcFits(s, s.coords[p], g, run);
    if at.Probed? && stage.Decide? && !Keeps(stage.seen, s.policy, at.ok, at.empty) {
      if s.policy.generation == g + 1 { SuccessorIsKept(s, stage.seen, g, run); }
      FreezeReplaces(s, s.policy.generation, s.policy.epoch, g, run);
      hide Placed;
      OthersFit(FreezeRecord(s, s.policy.generation, s.policy.epoch), t, p, g, run);
    } else if t != s {
      OthersFit(s, t, p, g, run);
    }
  }

  lemma SuccessorIsKept(s: State, seen: Option<Control>, g: nat, run: int)
    requires Placed(s, g, run) && Permitted(seen, g) && s.policy.generation == g + 1
    ensures Stays(s, seen)
  {}

  lemma WriteReplaces(s: State, a: Action, p: Pid, stage: Stage, at: Point, g: nat, run: int)
    requires Replacing(s, g, run) && PcOf(s, p) == Inside(stage, s.policy, at) && (a.CreateNow? || a.PublishNow?)
    ensures var t := InsideStep(s, a, p, stage, s.policy, at); Placed(t, g, run) && forall q | q in t.coords :: PcFits(t, t.coords[q], g, run)
  {
    var t := InsideStep(s, a, p, stage, s.policy, at);
    assert PcFits(s, s.coords[p], g, run);
    if t != s {
      forall q | q in t.coords ensures PcFits(t, t.coords[q], g, run) {
        if q != p {
          assert PcFits(s, s.coords[q], g, run);
          OthersOutside(s, p, q);
        }
      }
    }
  }

  /** A late `publish` of the lost generation meets what is left of it, one of the successor its record. */
  lemma PublishFrame(s: State, generation: nat, g: nat, run: int)
    requires Inv(s) && Placed(s, g, run) && generation in s.epochOf
    ensures var t := Published(s, generation, s.epochOf[generation]);
      t == s || (
        && s.policy.generation == g + 1 && RecordIsNew(s, g) && t == s.(control := t.control, ready := t.ready, log := t.log)
        && t.control == Some(s.control.value.(mode := Ready)))
  {
    hide CoordsOk;
  }

  lemma LateReplaces(s: State, a: Action, g: nat, run: int)
    requires Replacing(s, g, run) && a.LatePublish?
    ensures var t := WorldStep(s, a); Placed(t, g, run) && forall q | q in t.coords :: PcFits(t, t.coords[q], g, run)
  {
    var t := WorldStep(s, a);
    if a.generation in s.epochOf { PublishFrame(s, a.generation, g, run); }
    hide Inv; hide Published;
    forall q | q in t.coords ensures PcFits(t, t.coords[q], g, run) { assert PcFits(s, s.coords[q], g, run); }
  }

  ghost predicate KnownEpochs(s: State) {
    forall e | e in s.spaces :: e in s.used
  }

  lemma EpochsKnown(s: State, a: Action)
    requires Inv(s) && KnownEpochs(s)
    ensures KnownEpochs(Next(s, a))
  {
    hide RecordOk; hide Probe; hide Keeps; hide Publish; hide Freeze;
    if PcOf(s, PidOf(a)).Inside? { assert PcOk(s, PidOf(a), s.coords[PidOf(a)]); }
  }

  function PidOf(a: Action): Pid {
    match a
    case Flush(_) => 0
    case Damage(_, _) => 0
    case LoseControl => 0
    case MarkDirty => 0
    case FreezeAny(_, _) => 0
    case LatePublish(_) => 0
    case Protect(_) => 0
    case _ => a.p
  }

  lemma NextReplaces(s: State, a: Action, g: nat, run: int)
    requires Replacing(s, g, run) && KnownEpochs(s) && Undamaged(a, g) && Possible(s, a)
    ensures Replacing(Next(s, a), g, run) && KnownEpochs(Next(s, a))
  {
    hide BeginStep; hide LeaveStep; hide WorldStep; hide InsideStep; hide Inv; hide Placed; hide PcFits; hide KnownEpochs;
    NextKeeps(s, a);
    EpochsKnown(s, a);
    if a.Start? || a.FreezeSeen? || a.Enter? { BeginReplaces(s, a, g, run); }
    else if a.Abort? || a.Kill? { LeaveReplaces(s, a, g, run); }
    else if a.Commit? {
      if PcOf(s, a.p).Inside? && PcOf(s, a.p).at.Settled? { Knows(s); CommitReplaces(s, a.p, a.epoch, g, run); } else { Unsettled(s, a); }
    } else if a.LatePublish? { LateReplaces(s, a, g, run); }
    else if PcOf(s, a.p).Inside? {
      HolderOnPolicy(s, a.p);
      var pc := PcOf(s, a.p);
      if a.Judge? { JudgeReplaces(s, a, a.p, pc.stage, pc.at, g, run); }
      else if a.CreateNow? || a.PublishNow? { WriteReplaces(s, a, a.p, pc.stage, pc.at, g, run); }
      else { ReadReplaces(s, a, a.p, pc.stage, pc.at, g, run); }
    }
  }

  lemma Knows(s: State)
    requires KnownEpochs(s)
    ensures forall e | e in s.spaces :: e in s.used
  {}

  lemma Unsettled(s: State, a: Action)
    requires a.Commit? && !(PcOf(s, a.p).Inside? && PcOf(s, a.p).at.Settled?)
    ensures LeaveStep(s, a) == s
  {}

  lemma HolderOnPolicy(s: State, p: Pid)
    requires Inv(s) && PcOf(s, p).Inside?
    ensures PcOf(s, p).current == s.policy
  {
    assert PcOk(s, p, s.coords[p]);
  }

  // ----- every run -------------------------------------------------------------------------

  predicate UndamagedRun(actions: seq<Action>, g: nat) {
    forall i | 0 <= i < |actions| :: Undamaged(actions[i], g)
  }

  lemma {:induction false} RunReplaces(s: State, actions: seq<Action>, g: nat, run: int)
    requires Replacing(s, g, run) && KnownEpochs(s) && UndamagedRun(actions, g) && PossibleRun(s, actions)
    ensures Replacing(RunOf(s, actions), g, run) && KnownEpochs(RunOf(s, actions))
    decreases |actions|
  {
    hide Replacing; hide KnownEpochs; hide Next; hide Possible; hide Undamaged;
    if actions != [] {
      NextReplaces(s, actions[0], g, run);
      RunReplaces(Next(s, actions[0]), actions[1..], g, run);
    }
  }

  /** However the coordinators interleave and wherever they are killed, the generation after the loss
      is the lost one or its one successor, only the successor is ever served, and from any point
      one uninterrupted attempt serves it, with whatever it may have observed. */
  lemma OneLossOneGeneration(s: State, actions: seq<Action>, g: nat, run: int, p: Pid, seen: Option<Control>, delivered: bool, epoch: Epoch)
    requires JustLost(s, g, run) && KnownEpochs(s) && UndamagedRun(actions, g) && PossibleRun(s, actions)
    ensures var t := RunOf(s, actions);
      && (t.policy.generation == g || t.policy.generation == g + 1)
      && (forall h | Serving(t, h) :: h == g + 1 && t.policy.generation == g + 1)
      && (t.gate == None && PcOf(t, p) == Resting && epoch !in t.spaces && Permitted(seen, g) ==>
            var u := Attempt(t, p, seen, delivered, epoch); u.policy.generation == g + 1 && Serving(u, g + 1))
  {
    hide Next; hide UndamagedRun; hide PossibleRun; hide Attempt; hide RunOf; hide KnownEpochs; hide PcFits;
    LostReplaces(s, g, run);
    RunReplaces(s, actions, g, run);
    var t := RunOf(s, actions);
    if t.gate == None && PcOf(t, p) == Resting && epoch !in t.spaces && Permitted(seen, g) {
      AttemptServes(t, p, seen, delivered, epoch);
      AttemptReplaces(t, p, seen, delivered, g, run);
    }
  }

  /** Setting out with a permitted observation, a coordinator replaces the lost generation, keeps its
      successor, and is not stuck. */
  lemma AttemptReplaces(s: State, p: Pid, seen: Option<Control>, delivered: bool, g: nat, run: int)
    requires Replacing(s, g, run) && Permitted(seen, g) && PcOf(s, p) == Resting
    ensures !(Stuck(s) && Waits(seen, s.policy))
    ensures Stays(SetOut(s, p, seen, delivered), seen) <==> s.policy.generation == g + 1
  {
    var s1, t := Next(s, Start(p, seen)), SetOut(s, p, seen, delivered);
    assert PcOf(s1, p) == Observed(seen) && s1 == s.(coords := s1.coords);
    BeginReplaces(s, Start(p, seen), g, run);
    NextKeeps(s, Start(p, seen));
    BeginReplaces(s1, FreezeSeen(p, delivered), g, run);
    assert t.policy == s.policy by { BeginsIdle(s, p, seen, delivered); }
    hide Next; hide SetOut; hide Inv; hide PcFits; hide BeginStep;
    if s.policy.generation == g + 1 { SuccessorIsKept(t, seen, g, run); }
  }

  lemma LostReplaces(s: State, g: nat, run: int)
    requires JustLost(s, g, run)
    ensures Replacing(s, g, run)
  {}
}
