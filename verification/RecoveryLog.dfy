/** What one recovery action means to the transition-log checker, whatever its log held before: no
    generation rule is broken, and the run-id rule exactly when a record is written under a process of
    earlier records that a restart has replaced (`NextTracks`; `JointLog` has it over whole runs). */
module RecoveryLog {
  import opened AdmissionTypes
  import opened AdmissionControl
  import opened TransitionLog
  import opened ReplaySteps
  import opened Recovery

  function ViewOf(c: Option<Control>): Option<ControlView> {
    if c.None? then None else Some(ControlView(Some(c.value.generation), Some(c.value.epoch), Some(c.value.mode)))
  }

  /** The last published generation is the highest that was ever ready; a ready record is it, still open. */
  predicate PublishedFits(c: Checker, s: State) {
    && (c.published.None? ==> s.ready == {})
    && (c.published.Some? ==>
          && c.published.value.generation in s.ready && (forall g | g in s.ready :: g <= c.published.value.generation)
          && c.published.value.generation in s.epochOf
          && c.published.value.epoch == Some(s.epochOf[c.published.value.generation]))
    && (s.control.Some? && s.control.value.mode == Ready ==>
          c.published.Some? && s.control.value.generation == c.published.value.generation && !c.published.value.closed)
  }

  predicate Fits(c: Checker, s: State) {
    && c.unslotted == [] && c.current == ViewOf(s.control) && PublishedFits(c, s)
    && c.gone == s.before && c.alive + c.gone == s.wrote
    && (forall v | v in c.violations :: v == RunId)
  }

  /** A record is about to be written under a process that is gone. */
  predicate Stale(s: State, a: Action) {
    a.CreateNow? &&
    var pc := PcOf(s, a.p);
    && pc.Inside? && pc.at.HasRun? && pc.stage.Create? && !pc.current.open && pc.at.run in s.before
    && (var (c, h, r) := Initialize(s.control, HealthOf(s, pc.current.epoch), pc.current.generation, pc.current.epoch, pc.at.run);
        r == Done && c != s.control)
  }

  lemma NothingToSettle(c: Checker, h: Option<LogCommand>)
    requires c.unslotted == []
    ensures Settle(c, h) == c
  {}

  lemma FreezeFits(c: Checker, s: State, generation: nat, epoch: Epoch, p: Profile)
    requires Fits(c, s) && Freeze(s.control, generation, epoch).1 == Done
    ensures var d := Check(c, SetControl(None, None, Some(Frozen), None), p);
      Fits(d, FreezeRecord(s, generation, epoch)) && d.violations == c.violations
  {
    NothingToSettle(c, Some(SetControl(None, None, Some(Frozen), None)));
  }

  lemma UnlinkFits(c: Checker, s: State, t: State, gone: set<Epoch>, p: Profile)
    requires Fits(c, s) && t == s.(control := None, spaces := t.spaces, log := t.log)
    ensures var d := Check(c, Unlink(true, gone), p); Fits(d, t) && d.violations == c.violations
  {
    NothingToSettle(c, Some(Unlink(true, gone)));
  }

  lemma DamageFits(c: Checker, s: State, t: State, gone: set<Epoch>, p: Profile)
    requires Fits(c, s) && t == s.(spaces := t.spaces, log := t.log)
    ensures var d := Check(c, Unlink(false, gone), p); Fits(d, t) && d.violations == c.violations
  {
    NothingToSettle(c, Some(Unlink(false, gone)));
  }

  lemma DirtyFits(c: Checker, s: State, p: Profile)
    requires Fits(c, s) && s.control.Some?
    ensures var d := Check(c, SetControl(None, None, None, None), p);
      Fits(d, WorldStep(s, MarkDirty)) && d.violations == c.violations
  {
    NothingToSettle(c, Some(SetControl(None, None, None, None)));
  }

  lemma FlushFits(c: Checker, s: State, restart: Option<int>, p: Profile)
    requires Fits(c, s)
    ensures var d := Check(c, LogCommand.Flush(restart.Some?), p);
      Fits(d, WorldStep(s, Action.Flush(restart))) && d.violations == c.violations
  {
    NothingToSettle(c, Some(LogCommand.Flush(restart.Some?)));
  }

  lemma CreateFits(c: Checker, s: State, t: State, g: nat, e: Epoch, run: int, p: Profile)
    requires Fits(c, s) && RecordOk(t)
    requires s.control.None? || s.control.value.generation < g
    requires t.control == Some(Control(g, e, Initializing, run, false))
    requires t == s.(control := t.control, coords := t.coords, spaces := t.spaces, wrote := s.wrote + {run}, log := t.log)
    ensures var d := Check(c, SetControl(Some(g), Some(e), Some(Initializing), Some(run)), p);
      Fits(d, t) && d.violations == if run in s.before then c.violations + [RunId] else c.violations
  {
    NothingToSettle(c, Some(SetControl(Some(g), Some(e), Some(Initializing), Some(run))));
  }

  lemma PublishFits(c: Checker, s: State, t: State, g: nat, p: Profile)
    requires Fits(c, s) && RecordOk(s) && g in s.epochOf
    requires s.control.Some? && s.control.value.generation == g && s.control.value.mode != Frozen
    requires t == s.(control := Some(s.control.value.(mode := Ready)), coords := t.coords, ready := s.ready + {g}, log := t.log)
    ensures var d := Check(c, SetControl(None, None, Some(Ready), None), p);
      Fits(d, t) && d.violations == c.violations
  {
    NothingToSettle(c, Some(SetControl(None, None, Some(Ready), None)));
  }

  /** A line stays as it is, unless its namespace goes with it. */
  ghost predicate LinesKept(c: Checker, d: Checker, t: State) {
    forall e :: LineOf(d, e) == LineOf(c, e) || (LineOf(d, e) == EMPTY_LINE && HealthOf(t, e) != Sound)
  }

  /** What one action owes the checker, whatever the log held before. */
  ghost predicate Tracks(c: Checker, s: State, t: State, a: Action, p: Profile) {
    && s.log <= t.log
    && var d := CheckAll(c, t.log[|s.log|..], p);
       Fits(d, t) && (d.violations == [] <==> c.violations == [] && !Stale(s, a)) && LinesKept(c, d, t)
  }

  lemma SameLog(c: Checker, s: State, t: State, a: Action, p: Profile)
    requires Fits(c, s) && !Stale(s, a)
    requires t.log == s.log && t.control == s.control && t.ready == s.ready && t.before == s.before && t.wrote == s.wrote
    requires forall g | g in s.epochOf :: g in t.epochOf && t.epochOf[g] == s.epochOf[g]
    ensures Tracks(c, s, t, a, p)
  {
    hide Stale;
    assert t.log[|s.log|..] == [];
  }

  lemma OneCommand(c: Checker, s: State, t: State, a: Action, h: LogCommand, p: Profile)
    requires t.log == s.log + [h] && Fits(c, s) && !h.ZAdd? && !h.ZRem?
    requires forall e | Clears(h, e) :: HealthOf(t, e) != Sound
    requires var d := Check(c, h, p);
      Fits(d, t) && d.violations == if Stale(s, a) then c.violations + [RunId] else c.violations
    ensures Tracks(c, s, t, a, p)
  {
    hide Stale;
    assert c.unslotted == [];
    hide Fits;
    assert t.log[|s.log|..] == [h];
    LinesOf(c, h, p);
    hide Check;
    CheckOne(c, h, p);
  }

  lemma LinesOf(c: Checker, h: LogCommand, p: Profile)
    requires c.unslotted == [] && !h.ZAdd? && !h.ZRem?
    ensures forall e :: LineOf(Check(c, h, p), e) == if Clears(h, e) then EMPTY_LINE else LineOf(c, e)
  {
    NothingToSettle(c, Some(h));
  }

  lemma OnlyCoords(c: Checker, s: State, t: State)
    requires Fits(c, s) && t == s.(coords := t.coords, gate := t.gate)
    ensures Fits(c, t)
  {}

  lemma FreezeTracks(c: Checker, s: State, t: State, a: Action, generation: nat, epoch: Epoch, p: Profile)
    requires Fits(c, s) && !Stale(s, a)
    requires t == FreezeRecord(s, generation, epoch).(coords := t.coords, gate := t.gate)
    ensures Tracks(c, s, t, a, p)
  {
    hide Stale; hide Check; hide Fits;
    if Freeze(s.control, generation, epoch).1 == Done {
      FreezeFits(c, s, generation, epoch, p);
      OnlyCoords(Check(c, SetControl(None, None, Some(Frozen), None), p), FreezeRecord(s, generation, epoch), t);
      OneCommand(c, s, t, a, SetControl(None, None, Some(Frozen), None), p);
    } else {
      SameLog(c, s, t, a, p);
    }
  }

  lemma BeginTracks(c: Checker, s: State, a: Action, p: Profile)
    requires Fits(c, s) && (a.Start? || a.FreezeSeen? || a.Enter?)
    ensures Tracks(c, s, BeginStep(s, a), a, p)
  {
    hide Tracks; hide Fits; hide FreezeRecord;
    var t := BeginStep(s, a);
    if a.FreezeSeen? && PcOf(s, a.p).Observed? && a.delivered && PcOf(s, a.p).seen.Some? && PcOf(s, a.p).seen.value.mode != Initializing {
      FreezeTracks(c, s, t, a, PcOf(s, a.p).seen.value.generation, PcOf(s, a.p).seen.value.epoch, p);
    } else {
      SameLog(c, s, t, a, p);
    }
  }

  lemma LeaveTracks(c: Checker, s: State, a: Action, p: Profile)
    requires Fits(c, s) && Policed(s) && (a.Commit? || a.Abort? || a.Kill?)
    ensures Tracks(c, s, LeaveStep(s, a), a, p)
  {
    hide Tracks; hide Fits;
    SameLog(c, s, LeaveStep(s, a), a, p);
  }

  lemma WorldTracks(c: Checker, s: State, a: Action, p: Profile)
    requires Fits(c, s) && RecordOk(s)
    requires OfWorld(a)
    ensures Tracks(c, s, WorldStep(s, a), a, p)
  {
    hide Tracks; hide Fits; hide Check; hide FreezeRecord;
    var t := WorldStep(s, a);
    match a {
      case Flush(restart) => FlushFits(c, s, restart, p); OneCommand(c, s, t, a, LogCommand.Flush(restart.Some?), p);
      case Damage(e, h) =>
        if t.log != s.log { DamageFits(c, s, t, {e}, p); OneCommand(c, s, t, a, Unlink(false, {e}), p); } else { SameLog(c, s, t, a, p); }
      case LoseControl => UnlinkFits(c, s, t, {}, p); OneCommand(c, s, t, a, Unlink(true, {}), p);
      case MarkDirty =>
        if s.control.Some? { DirtyFits(c, s, p); OneCommand(c, s, t, a, SetControl(None, None, None, None), p); } else { SameLog(c, s, t, a, p); }
      case FreezeAny(generation, epoch) => FreezeTracks(c, s, t, a, generation, epoch, p);
      case LatePublish(generation) =>
        if t.log == s.log { SameLog(c, s, t, a, p); } else {
          PublishFits(c, s, t, generation, p);
          OneCommand(c, s, t, a, SetControl(None, None, Some(Ready), None), p);
        }
      case Protect(_) => SameLog(c, s, t, a, p);
    }
  }

  predicate OfCoordinator(s: State, a: Action, stage: Stage, current: Policy, at: Point) {
    && !(a.Start? || a.FreezeSeen? || a.Enter? || a.Commit? || a.Abort? || a.Kill?)
    && !OfWorld(a)
    && PcOf(s, a.p) == Inside(stage, current, at) && current == s.policy
  }

  lemma CreateTracks(c: Checker, s: State, a: Action, stage: Stage, current: Policy, at: Point, p: Profile)
    requires Fits(c, s) && a.CreateNow? && OfCoordinator(s, a, stage, current, at)
    requires RecordOk(InsideStep(s, a, a.p, stage, current, at))
    ensures Tracks(c, s, InsideStep(s, a, a.p, stage, current, at), a, p)
  {
    hide Tracks; hide Fits; hide Check; hide RecordOk;
    var t := InsideStep(s, a, a.p, stage, current, at);
    if t.log == s.log {
      SameLog(c, s, t, a, p);
    } else {
      CreateFits(c, s, t, current.generation, current.epoch, at.run, p);
      OneCommand(c, s, t, a, SetControl(Some(current.generation), Some(current.epoch), Some(Initializing), Some(at.run)), p);
    }
  }

  lemma PublishTracks(c: Checker, s: State, a: Action, stage: Stage, current: Policy, at: Point, p: Profile)
    requires Fits(c, s) && a.PublishNow? && OfCoordinator(s, a, stage, current, at)
    requires RecordOk(s) && Policed(s)
    ensures Tracks(c, s, InsideStep(s, a, a.p, stage, current, at), a, p)
  {
    hide Tracks; hide Fits; hide Check; hide RecordOk;
    var t := InsideStep(s, a, a.p, stage, current, at);
    if t.log == s.log {
      SameLog(c, s, t, a, p);
    } else {
      PublishFits(c, s, t, current.generation, p);
      OneCommand(c, s, t, a, SetControl(None, None, Some(Ready), None), p);
    }
  }

  lemma RetireTracks(c: Checker, s: State, a: Action, stage: Stage, current: Policy, at: Point, p: Profile)
    requires Fits(c, s) && a.Retire? && OfCoordinator(s, a, stage, current, at)
    ensures Tracks(c, s, InsideStep(s, a, a.p, stage, current, at), a, p)
  {
    hide Tracks; hide Fits; hide Check;
    var t := InsideStep(s, a, a.p, stage, current, at);
    if t == s {
      SameLog(c, s, t, a, p);
    } else {
        var gone := (if s.control.Some? then {s.control.value.epoch} else {}) + a.leftovers;
      UnlinkFits(c, s, Unlinked(s, a.leftovers), gone, p);
      OnlyCoords(Check(c, Unlink(true, gone), p), Unlinked(s, a.leftovers), t);
      OneCommand(c, s, t, a, Unlink(true, gone), p);
    }
  }

  lemma InsideTracks(c: Checker, s: State, a: Action, stage: Stage, current: Policy, at: Point, p: Profile)
    requires Fits(c, s) && OfCoordinator(s, a, stage, current, at)
    requires !a.CreateNow? && !a.PublishNow? && !a.Retire?
    ensures Tracks(c, s, InsideStep(s, a, a.p, stage, current, at), a, p)
  {
    hide Tracks; hide Fits; hide FreezeRecord; hide Keeps; hide Probe;
    var t := InsideStep(s, a, a.p, stage, current, at);
    if a.Judge? && at.Probed? && stage.Decide? && !Keeps(stage.seen, current, at.ok, at.empty) {
      FreezeTracks(c, s, t, a, current.generation, current.epoch, p);
    } else {
      SameLog(c, s, t, a, p);
    }
  }

  lemma NextTracks(c: Checker, s: State, a: Action, p: Profile)
    requires Inv(s) && Possible(s, a) && Fits(c, s)
    ensures Tracks(c, s, Next(s, a), a, p)
  {
    hide Tracks; hide Fits; hide BeginStep; hide LeaveStep; hide WorldStep; hide InsideStep; hide Stale;
    NextKeeps(s, a);
    if a.Start? || a.FreezeSeen? || a.Enter? { BeginTracks(c, s, a, p); }
    else if a.Commit? || a.Abort? || a.Kill? { LeaveTracks(c, s, a, p); }
    else if OfWorld(a) { WorldTracks(c, s, a, p); }
    else {
      var pc := PcOf(s, a.p);
      if pc.Inside? {
        assert PcOk(s, a.p, s.coords[a.p]);
        if a.CreateNow? { CreateTracks(c, s, a, pc.stage, pc.current, pc.at, p); }
        else if a.PublishNow? { PublishTracks(c, s, a, pc.stage, pc.current, pc.at, p); }
        else if a.Retire? { RetireTracks(c, s, a, pc.stage, pc.current, pc.at, p); }
        else { InsideTracks(c, s, a, pc.stage, pc.current, pc.at, p); }
      } else {
        NotStale(s, a);
        SameLog(c, s, s, a, p);
      }
    }
  }

  lemma NotStale(s: State, a: Action)
    requires !OfWorld(a)
    requires !PcOf(s, a.p).Inside?
    ensures !Stale(s, a)
  {}

  predicate EverStale(s: State, actions: seq<Action>)
    decreases |actions|
  {
    actions != [] && (Stale(s, actions[0]) || EverStale(Next(s, actions[0]), actions[1..]))
  }
}
