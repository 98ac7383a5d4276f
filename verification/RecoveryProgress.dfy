/** One coordinator that nobody interrupts: what its three transactions reach from every state, whatever
    it observed before. */
module RecoveryProgress {
  import opened AdmissionTypes
  import opened AdmissionControl
  import opened TransitionLog
  import opened Recovery
  import opened RecoveryLog

  /** The same state but for where coordinator p stands and who holds the gate. */
  predicate Only(s: State, t: State, p: Pid, pc: Pc) {
    PcOf(t, p) == pc && t == s.(coords := t.coords, gate := t.gate)
  }

  function Entered(s: State, p: Pid): State {
    Next(Next(s, Enter(p)), ReadProcess(p))
  }

  lemma EnterReads(s: State, p: Pid, stage: Stage)
    requires s.gate == None && PcOf(s, p) == Between(stage) && s.policy.protected
    requires stage.Decide? || (stage.Create? && Matches(stage.goal, s.policy))
    ensures Only(s, Entered(s, p), p, Inside(stage, s.policy, HasRun(s.runId)))
  {
    var s1 := Next(s, Enter(p));
    assert PcOf(s1, p) == Inside(stage, s.policy, Begun) && s1 == s.(coords := s1.coords, gate := Some(p));
  }

  function ProbeOf(s: State): bool {
    Probe(s.control, HealthOf(s, s.policy.epoch), false, s.policy.generation, s.policy.epoch, s.runId)
  }

  predicate Vacant(s: State) {
    !s.policy.open && HealthOf(s, s.policy.epoch) == Absent
  }

  function FirstTransaction(s: State, p: Pid, epoch: Epoch): State {
    Next(Next(Next(Entered(s, p), ProbeNow(p, false)), Judge(p)), Commit(p, epoch))
  }

  /** The record of the policy's generation and epoch, clean, not frozen and written by the running process,
      over an intact namespace. */
  predicate Usable(s: State) {
    && s.control.Some? && s.control.value.generation == s.policy.generation && s.control.value.epoch == s.policy.epoch
    && s.control.value.runId == s.runId && !s.control.value.dirty && s.control.value.mode != Frozen
    && s.policy.epoch in s.spaces && s.spaces[s.policy.epoch] == Sound
  }

  /** What was observed is not what the policy is at now. */
  predicate Superseded(seen: Option<Control>, current: Policy) {
    seen.Some? && (seen.value.generation != current.generation || seen.value.epoch != current.epoch)
  }

  /** Whether the first transaction keeps the policy's generation, given what was observed before: what is
      intact is adopted, unless it is itself what was observed and not just being created; what was never
      written is created, unless it is itself what was observed and dirty. */
  predicate Stays(s: State, seen: Option<Control>) {
    || (Usable(s) && (seen.None? || Superseded(seen, s.policy) || seen.value.mode == Initializing))
    || (Vacant(s) && (seen.None? || Superseded(seen, s.policy) || !seen.value.dirty))
  }

  lemma StaysIsKeeps(s: State, seen: Option<Control>)
    ensures Stays(s, seen) <==> Keeps(seen, s.policy, ProbeOf(s), HealthOf(s, s.policy.epoch) == Absent)
    ensures Usable(s) <==> ProbeOf(s)
  {}

  /** Adopt what is intact, take up what was never written, replace the rest. */
  lemma FirstDecides(s: State, p: Pid, seen: Option<Control>, epoch: Epoch)
    requires s.gate == None && PcOf(s, p) == Between(Decide(seen)) && s.policy.protected
    ensures var t := FirstTransaction(s, p, epoch);
      if Stays(s, seen) then Only(s, t, p, Between(Create(s.policy))) && t.gate == None
      else
        && t.policy == Policy(true, s.policy.generation + 1, epoch, false) && t.gate == None
        && PcOf(t, p) == Between(Create(t.policy))
        && t.control == Freeze(s.control, s.policy.generation, s.policy.epoch).0
        && t.spaces == s.spaces && t.runId == s.runId
  {
    StaysIsKeeps(s, seen);
    hide Freeze; hide Probe; hide Initialize; hide Publish; hide Keeps; hide Stays;
    EnterReads(s, p, Decide(seen));
    var s2 := Entered(s, p);
    hide Entered;
    var s3 := Next(s2, ProbeNow(p, false));
    var empty := HealthOf(s, s.policy.epoch) == Absent;
    assert Only(s, s3, p, Inside(Decide(seen), s.policy, Probed(ProbeOf(s), empty)));
    JudgesAndCommits(s, s3, p, seen, epoch, ProbeOf(s), empty);
  }

  lemma JudgesAndCommits(s: State, s3: State, p: Pid, seen: Option<Control>, epoch: Epoch, ok: bool, empty: bool)
    requires Only(s, s3, p, Inside(Decide(seen), s.policy, Probed(ok, empty))) && s.policy.protected
    ensures var t := Next(Next(s3, Judge(p)), Commit(p, epoch));
      if Keeps(seen, s.policy, ok, empty) then Only(s, t, p, Between(Create(s.policy))) && t.gate == None
      else
        && t.policy == Policy(true, s.policy.generation + 1, epoch, false) && t.gate == None
        && PcOf(t, p) == Between(Create(t.policy))
        && t.control == Freeze(s.control, s.policy.generation, s.policy.epoch).0
        && t.spaces == s.spaces && t.runId == s.runId
  {
    hide Freeze; hide Probe; hide Initialize; hide Publish; hide Keeps;
    var s4 := Next(s3, Judge(p));
    if Keeps(seen, s.policy, ok, empty) {
      assert Only(s, s4, p, Inside(Decide(seen), s.policy, Settled(NoWrite, false)));
    } else {
      assert PcOf(s4, p) == Inside(Decide(seen), s.policy, Settled(Advance, false));
    }
  }

  function SecondTransaction(s: State, p: Pid): State {
    Next(Next(Next(Next(Entered(s, p), ProbeNow(p, false)), CreateNow(p)), CheckConnection(p)), Commit(p, 0))
  }

  /** An open policy is confirmed if its namespace is intact. */
  lemma SecondConfirms(s: State, p: Pid)
    requires s.gate == None && PcOf(s, p) == Between(Create(s.policy)) && s.policy.protected && s.policy.open
    ensures var t := SecondTransaction(s, p);
      Only(s, t, p, if ProbeOf(s) then Between(Announce(s.policy)) else Resting) && t.gate == None
  {
    hide Probe;
    EnterReads(s, p, Create(s.policy));
    ConfirmSteps(s, Entered(s, p), p);
  }

  lemma ConfirmSteps(s: State, s2: State, p: Pid)
    requires s.policy.open && Only(s, s2, p, Inside(Create(s.policy), s.policy, HasRun(s.runId)))
    ensures var t := Next(Next(Next(Next(s2, ProbeNow(p, false)), CreateNow(p)), CheckConnection(p)), Commit(p, 0));
      Only(s, t, p, if ProbeOf(s) then Between(Announce(s.policy)) else Resting) && t.gate == None
  {
    hide Probe; hide Initialize; hide Publish; hide Freeze;
    var s3 := Next(s2, ProbeNow(p, false));
    if ProbeOf(s) {
      assert Only(s, s3, p, Inside(Create(s.policy), s.policy, Settled(NoWrite, false)));
    } else {
      assert Only(s, s3, p, Resting) && s3.gate == None;
    }
    assert Next(s3, CreateNow(p)) == s3;
    assert Next(s3, CheckConnection(p)) == s3;
  }

  predicate Accepts(s: State) {
    Initialize(s.control, HealthOf(s, s.policy.epoch), s.policy.generation, s.policy.epoch, s.runId).2 == Done
  }

  /** A recovering policy opens once its namespace could be written. */
  lemma SecondCreates(s: State, p: Pid)
    requires s.gate == None && PcOf(s, p) == Between(Create(s.policy)) && s.policy.protected && !s.policy.open
    ensures var t := SecondTransaction(s, p);
      if Accepts(s) then
        && PcOf(t, p) == Between(Announce(s.policy)) && t.gate == None && t.runId == s.runId
        && t.policy == s.policy.(open := true)
        && t.control == Initialize(s.control, HealthOf(s, s.policy.epoch), s.policy.generation, s.policy.epoch, s.runId).0
        && HealthOf(t, s.policy.epoch) == Sound
      else Only(s, t, p, Resting) && t.gate == None
  {
    hide Initialize;
    EnterReads(s, p, Create(s.policy));
    var s2 := Entered(s, p);
    hide Entered;
    if Accepts(s) { CreateSteps(s, s2, p); } else { RefusedSteps(s, s2, p); }
  }

  lemma DoneIsSound(c: Option<Control>, h: Health, generation: nat, epoch: Epoch, run: int)
    requires Initialize(c, h, generation, epoch, run).2 == Done
    ensures Initialize(c, h, generation, epoch, run).1 == Sound
  {}

  lemma CreateSteps(s: State, s2: State, p: Pid)
    requires !s.policy.open && Accepts(s) && Only(s, s2, p, Inside(Create(s.policy), s.policy, HasRun(s.runId)))
    ensures var t := Next(Next(Next(Next(s2, ProbeNow(p, false)), CreateNow(p)), CheckConnection(p)), Commit(p, 0));
      && PcOf(t, p) == Between(Announce(s.policy)) && t.gate == None && t.runId == s.runId
      && t.policy == s.policy.(open := true)
      && t.control == Initialize(s.control, HealthOf(s, s.policy.epoch), s.policy.generation, s.policy.epoch, s.runId).0
      && HealthOf(t, s.policy.epoch) == Sound
  {
    hide Probe; hide Initialize; hide Publish; hide Freeze;
    DoneIsSound(s.control, HealthOf(s, s.policy.epoch), s.policy.generation, s.policy.epoch, s.runId);
    assert Next(s2, ProbeNow(p, false)) == s2;
    var s4 := Next(s2, CreateNow(p));
    assert PcOf(s4, p) == Inside(Create(s.policy), s.policy, Created(s.runId)) && s4.runId == s.runId && s4.policy == s.policy;
    hide Only; hide Next; hide Accepts; hide HealthOf;
    OpeningCommits(s4, p, s.policy);
  }

  /** With the process that wrote the record still there, the policy is opened. */
  lemma OpeningCommits(s: State, p: Pid, goal: Policy)
    requires PcOf(s, p) == Inside(Create(goal), s.policy, Created(s.runId)) && goal == s.policy
    ensures var t := Next(Next(s, CheckConnection(p)), Commit(p, 0));
      && PcOf(t, p) == Between(Announce(goal)) && t.gate == None && t.runId == s.runId && t.policy == s.policy.(open := true)
      && t.control == s.control && t.spaces == s.spaces && HealthOf(t, goal.epoch) == HealthOf(s, goal.epoch)
  {
    var s5 := Next(s, CheckConnection(p));
    assert s5 == s.(coords := s5.coords) && PcOf(s5, p) == Inside(Create(goal), s.policy, Settled(SetOpen, false));
  }

  lemma RefusedSteps(s: State, s2: State, p: Pid)
    requires !s.policy.open && !Accepts(s) && Only(s, s2, p, Inside(Create(s.policy), s.policy, HasRun(s.runId)))
    ensures var t := Next(Next(Next(Next(s2, ProbeNow(p, false)), CreateNow(p)), CheckConnection(p)), Commit(p, 0));
      Only(s, t, p, Resting) && t.gate == None
  {
    hide Probe; hide Initialize; hide Publish; hide Freeze;
    assert Next(s2, ProbeNow(p, false)) == s2;
    var s4 := Next(s2, CreateNow(p));
    assert Only(s, s4, p, Resting) && s4.gate == None;
    assert Next(s4, CheckConnection(p)) == s4;
  }

  /** The policy's own record, ready and clean, under the process of that one. */
  predicate ServesUnder(t: State, c: Option<Control>) {
    c.Some? && t.control == Some(Control(t.policy.generation, t.policy.epoch, Ready, c.value.runId, false))
  }

  function ThirdTransaction(s: State, p: Pid): State {
    Next(Next(Next(s, Enter(p)), PublishNow(p)), Commit(p, 0))
  }

  lemma ThirdPublishes(s: State, p: Pid, goal: Policy)
    requires s.gate == None && PcOf(s, p) == Between(Announce(goal)) && s.policy.protected && s.policy.open && Matches(goal, s.policy)
    requires Publish(s.control, HealthOf(s, s.policy.epoch), s.policy.generation, s.policy.epoch).1 == Done
    ensures var t := ThirdTransaction(s, p);
      Serving(t, s.policy.generation) && t.policy == s.policy && t.gate == None && PcOf(t, p) == Resting && ServesUnder(t, s.control)
  {
    var s1 := Next(s, Enter(p));
    assert PcOf(s1, p) == Inside(Announce(goal), s.policy, Begun) && s1 == s.(coords := s1.coords, gate := Some(p));
    var s2 := Next(s1, PublishNow(p));
    assert PcOf(s2, p) == Inside(Announce(goal), s.policy, Settled(NoWrite, false));
  }

  predicate IsRecord(s: State, generation: nat, epoch: Epoch) {
    s.control.Some? && s.control.value.generation == generation && s.control.value.epoch == epoch
  }

  /** A coordinator sets out with what it observed; its freeze of that record may fail. */
  function SetOut(s: State, p: Pid, seen: Option<Control>, delivered: bool): State {
    Next(Next(s, Start(p, seen)), FreezeSeen(p, delivered))
  }

  function Attempt(s: State, p: Pid, seen: Option<Control>, delivered: bool, epoch: Epoch): State {
    ThirdTransaction(SecondTransaction(FirstTransaction(SetOut(s, p, seen, delivered), p, epoch), p), p)
  }

  /** The record of the generation still being created outlived the namespace it belongs to. */
  predicate Stuck(s: State) {
    && !s.policy.open && HealthOf(s, s.policy.epoch) == Absent
    && s.control.Some? && s.control.value.generation == s.policy.generation
  }

  /** The observation gives no reason to replace a generation that is still being created. */
  predicate Waits(seen: Option<Control>, current: Policy) {
    seen.None? || !seen.value.dirty || Superseded(seen, current)
  }

  /** Nothing but the mode of the record differs, and no closed one is reopened. */
  predicate AtMostFrozen(c: Option<Control>, d: Option<Control>) {
    d == c || (c.Some? && d == Some(c.value.(mode := Frozen)))
  }

  lemma FreezesAtMost(c: Option<Control>, generation: nat, epoch: Epoch)
    ensures AtMostFrozen(c, Freeze(c, generation, epoch).0)
  {}

  lemma FreezesRecord(c: Option<Control>, generation: nat, epoch: Epoch)
    ensures Freeze(c, generation, epoch).0 ==
      if c.Some? && c.value.generation == generation && c.value.epoch == epoch then Some(c.value.(mode := Frozen)) else c
  {}

  lemma BeginsIdle(s: State, p: Pid, seen: Option<Control>, delivered: bool)
    requires PcOf(s, p) == Resting
    ensures var t := SetOut(s, p, seen, delivered);
      && PcOf(t, p) == Between(Decide(seen)) && t.gate == s.gate
      && t == s.(coords := t.coords, control := t.control, log := t.log) && AtMostFrozen(s.control, t.control)
      && t.control == if delivered && seen.Some? && seen.value.mode != Initializing && IsRecord(s, seen.value.generation, seen.value.epoch)
                      then Some(s.control.value.(mode := Frozen)) else s.control
  {
    var s1 := Next(s, Start(p, seen));
    assert PcOf(s1, p) == Observed(seen) && s1 == s.(coords := s1.coords);
    if seen.Some? { FreezesAtMost(s1.control, seen.value.generation, seen.value.epoch); FreezesRecord(s1.control, seen.value.generation, seen.value.epoch); }
    hide Freeze;
  }

  /** The policy of before, open, and its record ready under the running process. */
  predicate Served(s: State, t: State) {
    t.policy == s.policy.(open := true) && t.control == Some(Control(s.policy.generation, s.policy.epoch, Ready, s.runId, false))
  }

  lemma ResumeServes(s: State, p: Pid)
    requires s.gate == None && PcOf(s, p) == Between(Create(s.policy)) && s.policy.protected && ProbeOf(s)
    ensures var t := ThirdTransaction(SecondTransaction(s, p), p); Serving(t, s.policy.generation) && Served(s, t)
  {
    hide Only; hide ThirdTransaction; hide SecondTransaction; hide Serving;
    var t := SecondTransaction(s, p);
    if s.policy.open { SecondConfirms(s, p); OnlyIs(s, t, p, Between(Announce(s.policy))); } else { SecondCreates(s, p); }
    ThirdPublishes(t, p, s.policy);
  }

  lemma OnlyIs(s: State, t: State, p: Pid, pc: Pc)
    requires Only(s, t, p, pc)
    ensures PcOf(t, p) == pc && t == s.(coords := t.coords, gate := t.gate) && HealthOf(t, s.policy.epoch) == HealthOf(s, s.policy.epoch)
  {}

  lemma VacantServes(s: State, p: Pid)
    requires s.gate == None && PcOf(s, p) == Between(Create(s.policy)) && s.policy.protected && Vacant(s)
    requires s.control.Some? ==> s.control.value.generation < s.policy.generation
    ensures var t := ThirdTransaction(SecondTransaction(s, p), p); Serving(t, s.policy.generation) && Served(s, t)
  {
    hide Only; hide ThirdTransaction; hide SecondTransaction; hide Serving;
    SecondCreates(s, p);
    ThirdPublishes(SecondTransaction(s, p), p, s.policy);
  }

  lemma DoneFor(s: State, p: Pid)
    requires s.gate == None && PcOf(s, p) == Resting
    ensures ThirdTransaction(s, p) == s
  {}

  lemma RecordIsNoLater(s: State)
    requires Inv(s) && s.control.Some?
    ensures s.control.value.generation <= s.policy.generation
  {}

  lemma FreshIsAbsent(s: State, epoch: Epoch)
    requires epoch !in s.spaces
    ensures HealthOf(s, epoch) == Absent
  {}

  /** From every reachable state with a free gate, one uninterrupted attempt, whatever it observed
      before, ends with the policy's generation served and advances it exactly if it does not keep it, to the
      next number and a new epoch; what it observed it freezes, if that is still the record and was published;
      unless the record of a generation still being created has outlived its namespace and the
      observation gives no reason to replace it, when the attempt gets nowhere. */
  lemma AttemptServes(s: State, p: Pid, seen: Option<Control>, delivered: bool, epoch: Epoch)
    requires Inv(s) && s.gate == None && PcOf(s, p) == Resting && s.policy.protected && epoch !in s.spaces
    ensures var b, t := SetOut(s, p, seen, delivered), Attempt(s, p, seen, delivered, epoch);
      && (Serving(t, t.policy.generation) <==> !(Stuck(s) && Waits(seen, s.policy)))
      && (Stuck(s) && Waits(seen, s.policy) ==> t.policy == s.policy && t.control == b.control && t.spaces == s.spaces && Stuck(t))
      && (!(Stuck(s) && Waits(seen, s.policy)) ==>
            && t.policy == (if Stays(b, seen) then s.policy.(open := true) else Policy(true, s.policy.generation + 1, epoch, true))
            && t.control == Some(Control(t.policy.generation, t.policy.epoch, Ready, s.runId, false)))
      && b == s.(coords := b.coords, control := b.control, log := b.log)
      && b.control == (if delivered && seen.Some? && seen.value.mode != Initializing && IsRecord(s, seen.value.generation, seen.value.epoch)
                       then Some(s.control.value.(mode := Frozen)) else s.control)
  {
    hide Inv; hide FirstTransaction; hide SecondTransaction; hide ThirdTransaction; hide SetOut; hide Next; hide Serving; hide Only; hide Freeze;
    hide Stays;
    BeginsIdle(s, p, seen, delivered);
    var s1 := SetOut(s, p, seen, delivered);
    Recorded(s);
    assert s1.control.Some? ==> s1.control.value.generation <= s1.policy.generation by { if s.control.Some? { RecordIsNoLater(s); } }
    StaysIff(s1, seen);
    FirstDecides(s1, p, seen, epoch);
    var s2 := FirstTransaction(s1, p, epoch);
    var s3 := SecondTransaction(s2, p);
    if Stays(s1, seen) {
      OnlyIs(s1, s2, p, Between(Create(s.policy)));
      if ProbeOf(s1) {
        ResumeServes(s2, p);
      } else if Stuck(s) {
        SecondCreates(s2, p);
        OnlyIs(s2, s3, p, Resting);
        DoneFor(s3, p);
        StuckIsNotServing(s3);
      } else {
        VacantServes(s2, p);
      }
    } else {
      FreezesAtMost(s1.control, s.policy.generation, s.policy.epoch);
      FreshIsAbsent(s2, epoch);
      VacantServes(s2, p);
    }
  }

  lemma StaysIff(s: State, seen: Option<Control>)
    ensures Stays(s, seen) ==> ProbeOf(s) || (Vacant(s) && Waits(seen, s.policy))
    ensures Vacant(s) && Waits(seen, s.policy) ==> Stays(s, seen) && !ProbeOf(s)
  {}

  /** What `maintain` passes on: the record it read, if it is that of the open policy, and else nothing. */
  function Maintained(s: State): Option<Control> {
    if s.policy.open && s.control.Some? && s.control.value.generation == s.policy.generation && s.control.value.epoch == s.policy.epoch
    then s.control else None
  }

  /** `maintain` gets through from everywhere but a stuck state, and there it never will; a `recover`
      that reads the record itself also gets through there if the record is dirty. */
  lemma WhoGetsThrough(s: State, p: Pid, delivered: bool, epoch: Epoch)
    requires Inv(s) && s.gate == None && PcOf(s, p) == Resting && s.policy.protected && epoch !in s.spaces
    ensures var t := Attempt(s, p, Maintained(s), delivered, epoch);
      && (Serving(t, t.policy.generation) <==> !Stuck(s))
      && (Stuck(s) ==> Stuck(t) && t.policy == s.policy && t.control == s.control && t.spaces == s.spaces)
    ensures var t := Attempt(s, p, s.control, delivered, epoch);
      Serving(t, t.policy.generation) <==> !(Stuck(s) && !s.control.value.dirty)
  {
    hide Inv; hide Attempt; hide SetOut; hide Stays; hide Serving;
    AttemptServes(s, p, Maintained(s), delivered, epoch);
    AttemptServes(s, p, s.control, delivered, epoch);
    if Stuck(s) {
      NothingToFreeze(s, p, delivered);
      SameEpochRecord(s);
    }
  }

  lemma NothingToFreeze(s: State, p: Pid, delivered: bool)
    requires PcOf(s, p) == Resting
    ensures SetOut(s, p, None, delivered).control == s.control
  {
    var s1 := Next(s, Start(p, None));
    assert PcOf(s1, p) == Observed(None) && s1 == s.(coords := s1.coords);
  }

  lemma SameEpochRecord(s: State)
    requires Inv(s) && s.control.Some? && s.control.value.generation == s.policy.generation
    ensures s.control.value.epoch == s.policy.epoch
  {}

  lemma Recorded(s: State)
    requires Inv(s)
    ensures RecordOk(s)
  {}

  lemma StuckIsNotServing(s: State)
    requires Stuck(s) && (s.control.value.mode == Ready ==> s.policy.open)
    ensures !Serving(s, s.policy.generation)
  {}

  /** How a recovery gets stuck: the namespace is lost, but not the record, between writing it and
      opening the policy, and the coordinator dies. */
  lemma PartialLossSticks(s: State, p: Pid)
    requires Inv(s) && PcOf(s, p).Inside? && PcOf(s, p).at.Created? && s.policy.epoch in s.spaces
    requires s.control.Some? && s.control.value.generation == s.policy.generation
    ensures Stuck(Next(Next(s, Damage(s.policy.epoch, Absent)), Kill(p)))
  {
    assert PcOk(s, p, s.coords[p]);
  }

  /** How the log's run-id rule gets broken: the server is replaced after a coordinator read the
      process and before it writes the record. That record is never opened. */
  lemma RestartBeforeCreation(s: State, p: Pid, run: int)
    requires Inv(s) && PcOf(s, p).Inside? && PcOf(s, p).stage.Create? && PcOf(s, p).at.HasRun?
    requires !s.policy.open && PcOf(s, p).at.run in s.wrote && run !in s.runs
    ensures var t := Next(s, Action.Flush(Some(run)));
      && Stale(t, CreateNow(p))
      && (var u := Next(Next(t, CreateNow(p)), CheckConnection(p)); PcOf(u, p) == Resting && u.gate == None && !u.policy.open)
  {
    assert PcOk(s, p, s.coords[p]);
    hide Inv; hide Probe; hide Publish; hide Freeze;
    var pc := PcOf(s, p);
    var t := Next(s, Action.Flush(Some(run)));
    assert PcOf(t, p) == pc && t.control == None && t.spaces == map[] && t.runId == run && t.before == s.wrote && t.policy == s.policy;
    CreatesInVain(t, p, pc.stage, pc.at.run);
  }

  lemma CreatesInVain(t: State, p: Pid, stage: Stage, read: int)
    requires PcOf(t, p) == Inside(stage, t.policy, HasRun(read)) && stage.Create? && !t.policy.open
    requires t.control == None && t.spaces == map[] && read != t.runId
    ensures var u := Next(Next(t, CreateNow(p)), CheckConnection(p)); PcOf(u, p) == Resting && u.gate == None && !u.policy.open
  {
    hide Probe; hide Publish; hide Freeze;
    var u := Next(t, CreateNow(p));
    assert PcOf(u, p) == Inside(stage, t.policy, Created(read)) && u.runId == t.runId && u.policy == t.policy;
  }

  // ----- released policies and overtaken goals ---------------------------------------------

  /** Whichever of its transactions meets a released policy retires it: the record is unlinked with its epoch's
      keys and what else was found, nothing is served, and a policy that was open leaves its epoch for good. */
  lemma ReleasedIsRetired(s: State, p: Pid, stage: Stage, leftovers: set<Epoch>, epoch: Epoch)
    requires s.gate == None && PcOf(s, p) == Between(stage) && !s.policy.protected
    ensures var t := Next(Next(Next(s, Enter(p)), Retire(p, leftovers)), Commit(p, epoch));
      && t.control == None && (forall g :: !Serving(t, g)) && t.gate == None
      && (forall e :: e in t.spaces <==> e in s.spaces && e !in leftovers && !(s.control.Some? && s.control.value.epoch == e))
      && (forall e | e in t.spaces :: t.spaces[e] == s.spaces[e])
      && t.policy == (if s.policy.open then Policy(false, s.policy.generation + 1, epoch, false) else s.policy)
      && (!stage.Create? ==> PcOf(t, p) == Resting)
  {
    var s1 := Next(s, Enter(p));
    assert PcOf(s1, p) == Inside(stage, s.policy, Begun) && s1 == s.(coords := s1.coords, gate := Some(p));
    var s2 := Next(s1, Retire(p, leftovers));
    assert PcOf(s2, p) == Inside(stage, s.policy, Settled(if s.policy.open then Advance else NoWrite, true));
    assert s2.policy == s.policy && s2.control == None;
  }

  /** A goal that another recovery has overtaken changes nothing any more. */
  lemma OvertakenGoalPasses(s: State, p: Pid, goal: Policy, epoch: Epoch)
    requires s.gate == None && PcOf(s, p) == Between(Create(goal)) && s.policy.protected
    requires goal.generation != s.policy.generation || goal.epoch != s.policy.epoch
    ensures var u := Next(Next(Next(s, Enter(p)), Pass(p)), Commit(p, epoch));
      var t := Next(Next(Next(u, Enter(p)), Pass(p)), Commit(p, epoch));
      PcOf(t, p) == Resting && t == s.(coords := t.coords)
  {
    Overtaken(s, p, Create(goal), goal, epoch);
    var u := Next(Next(Next(s, Enter(p)), Pass(p)), Commit(p, epoch));
    Overtaken(u, p, Announce(goal), goal, epoch);
    hide Next;
  }

  lemma Overtaken(s: State, p: Pid, stage: Stage, goal: Policy, epoch: Epoch)
    requires s.gate == None && PcOf(s, p) == Between(stage) && s.policy.protected && (stage == Create(goal) || stage == Announce(goal))
    requires goal.generation != s.policy.generation || goal.epoch != s.policy.epoch
    ensures var u := Next(Next(Next(s, Enter(p)), Pass(p)), Commit(p, epoch));
      PcOf(u, p) == (if stage == Create(goal) then Between(Announce(goal)) else Resting) && u == s.(coords := u.coords)
  {
    var s1 := Next(s, Enter(p));
    assert PcOf(s1, p) == Inside(stage, s.policy, Begun) && s1 == s.(coords := s1.coords, gate := Some(p));
    var s2 := Next(s1, Pass(p));
    assert PcOf(s2, p) == Inside(stage, s.policy, Settled(NoWrite, false)) && s2 == s.(coords := s2.coords, gate := Some(p));
  }
}
