/** Runs from the very beginning that meet the exceptions of recovery: a state it does not get out of, a
    record written under a process that is gone, and a generation that a late creation reopens. */
module RecoveryExamples {
  import opened AdmissionTypes
  import opened AdmissionControl
  import opened TransitionLog
  import opened Recovery
  import opened RecoveryLog
  import opened RecoveryProgress
  import opened LateCreation

  lemma {:induction false} RunConcat(s: State, a: seq<Action>, b: seq<Action>)
    ensures RunOf(s, a + b) == RunOf(RunOf(s, a), b)
    ensures PossibleRun(s, a + b) <==> PossibleRun(s, a) && PossibleRun(RunOf(s, a), b)
    decreases |a|
  {
    hide Next; hide Possible;
    if a == [] {
      assert a + b == b;
    } else {
      assert (a + b)[1..] == a[1..] + b;
      RunConcat(Next(s, a[0]), a[1..], b);
    }
  }

  lemma RunOne(s: State, a: Action)
    ensures RunOf(s, [a]) == Next(s, a) && (PossibleRun(s, [a]) <==> Possible(s, a))
  {
    hide Next; hide Possible;
    assert RunOf(Next(s, a), [a][1..]) == Next(s, a);
  }

  lemma RunTwo(s: State, a: Action, b: Action)
    ensures RunOf(s, [a, b]) == Next(Next(s, a), b)
    ensures PossibleRun(s, [a, b]) <==> Possible(s, a) && Possible(Next(s, a), b)
  {
    hide Next; hide Possible;
    assert [a, b] == [a] + [b];
    RunConcat(s, [a], [b]);
    RunOne(s, a);
    RunOne(Next(s, a), b);
  }

  /** A coordinator of a new event, up to the writing of its first record. */
  function Setting(p: Pid): seq<Action> { [Start(p, None), FreezeSeen(p, true)] }
  function Entering(p: Pid): seq<Action> { [Enter(p), ReadProcess(p)] }
  function Deciding(p: Pid, spare: Epoch): seq<Action> { [ProbeNow(p, false), Judge(p)] + [Commit(p, spare)] }

  function UpToReading(p: Pid, spare: Epoch): seq<Action> {
    Setting(p) + Entering(p) + Deciding(p, spare) + Entering(p)
  }

  function UpToCreation(p: Pid, spare: Epoch): seq<Action> {
    UpToReading(p, spare) + [CreateNow(p)]
  }

  lemma DecidingRuns(s: State, p: Pid, spare: Epoch)
    requires spare !in s.used && Next(Next(s, ProbeNow(p, false)), Judge(p)).used == s.used
    ensures PossibleRun(s, Deciding(p, spare))
    ensures RunOf(s, Deciding(p, spare)) == Next(Next(Next(s, ProbeNow(p, false)), Judge(p)), Commit(p, spare))
  {
    hide Next;
    RunTwo(s, ProbeNow(p, false), Judge(p));
    RunOne(Next(Next(s, ProbeNow(p, false)), Judge(p)), Commit(p, spare));
    RunConcat(s, [ProbeNow(p, false), Judge(p)], [Commit(p, spare)]);
  }

  lemma EnteringRuns(s: State, p: Pid)
    ensures PossibleRun(s, Entering(p)) && RunOf(s, Entering(p)) == Entered(s, p)
  {
    hide Next;
    RunTwo(s, Enter(p), ReadProcess(p));
  }

  lemma InsideUsesNothing(s: State, p: Pid)
    requires PcOf(s, p).Inside?
    ensures Next(Next(s, ProbeNow(p, false)), Judge(p)).used == s.used
  {
    hide Probe; hide Freeze; hide Keeps; hide Initialize; hide Publish;
  }

  /** The first transaction keeps the generation that was never written, and the second one reads the process. */
  lemma Reads(epoch: Epoch, run: int, p: Pid, spare: Epoch)
    requires spare != epoch
    ensures var s := Initial(epoch, run, true);
      var t := RunOf(s, UpToReading(p, spare));
      PossibleRun(s, UpToReading(p, spare)) && Only(s, t, p, Inside(Create(s.policy), s.policy, HasRun(run)))
  {
    var s := Initial(epoch, run, true);
    hide Next; hide Initial;
    FirstState(epoch, run);
    RunTwo(s, Start(p, None), FreezeSeen(p, true));
    var s1 := SetOut(s, p, None, true);
    BeginsIdle(s, p, None, true);
    NothingToFreeze(s, p, true);
    SetsOutAlone(s, p);
    EnteringRuns(s1, p);
    var s2 := Entered(s1, p);
    EnterReads(s1, p, Decide(None));
    InsideUsesNothing(s2, p);
    DecidingRuns(s2, p, spare);
    var s3 := FirstTransaction(s1, p, spare);
    FirstDecides(s1, p, None, spare);
    EnteringRuns(s3, p);
    EnterReads(s3, p, Create(s.policy));
    RunConcat(s, Setting(p), Entering(p));
    RunConcat(s, Setting(p) + Entering(p), Deciding(p, spare));
    RunConcat(s, Setting(p) + Entering(p) + Deciding(p, spare), Entering(p));
  }

  lemma FirstState(epoch: Epoch, run: int)
    ensures var s := Initial(epoch, run, true);
      && s.gate == None && s.control == None && s.spaces == map[] && s.coords == map[] && s.runId == run && s.used == {epoch}
      && s.policy == Policy(true, 0, epoch, false) && s.wrote == {} && s.runs == {run} && Inv(s)
  {
    InitialHolds(epoch, run, true);
  }

  lemma SetsOutAlone(s: State, p: Pid)
    requires PcOf(s, p) == Resting
    ensures Only(s, SetOut(s, p, None, true), p, Between(Decide(None)))
  {
    var s1 := Next(s, Start(p, None));
    assert PcOf(s1, p) == Observed(None) && s1 == s.(coords := s1.coords);
  }

  lemma Creates(epoch: Epoch, run: int, p: Pid, spare: Epoch)
    requires spare != epoch
    ensures var s := Initial(epoch, run, true);
      var t := RunOf(s, UpToCreation(p, spare));
      && PossibleRun(s, UpToCreation(p, spare)) && Inv(t)
      && PcOf(t, p) == Inside(Create(s.policy), s.policy, Created(run)) && t.policy == s.policy && t.runId == run && t.used == s.used
      && t.control == Some(Control(0, epoch, Initializing, run, false)) && t.spaces == map[epoch := Sound]
      && t.wrote == {run} && t.runs == {run}
  {
    var s := Initial(epoch, run, true);
    Reads(epoch, run, p, spare);
    var s1 := RunOf(s, UpToReading(p, spare));
    hide RunOf; hide PossibleRun; hide UpToReading; hide Inv;
    RunOne(s1, CreateNow(p));
    RunConcat(s, UpToReading(p, spare), [CreateNow(p)]);
    FirstState(epoch, run);
    RunKeeps(s, UpToCreation(p, spare));
    WritesRecord(s1, p);
  }

  lemma WritesRecord(s: State, p: Pid)
    requires PcOf(s, p).Inside? && PcOf(s, p).stage.Create? && PcOf(s, p).at.HasRun? && !PcOf(s, p).current.open
    requires s.control == None && s.spaces == map[]
    ensures var t, pc := Next(s, CreateNow(p)), PcOf(s, p);
      && PcOf(t, p) == Inside(pc.stage, pc.current, Created(pc.at.run)) && t.gate == s.gate
      && t.control == Some(Control(pc.current.generation, pc.current.epoch, Initializing, pc.at.run, false))
      && t.spaces == map[pc.current.epoch := Sound] && t.wrote == s.wrote + {pc.at.run}
      && t == s.(coords := t.coords, control := t.control, spaces := t.spaces, wrote := t.wrote, log := t.log)
  {}

  /** The coordinator writes its first record, the namespace is lost but not the record, and the
      coordinator dies: the state recovery does not get out of. */
  lemma StuckIsReached(epoch: Epoch, run: int, p: Pid, spare: Epoch)
    requires spare != epoch
    ensures var s, actions := Initial(epoch, run, true), UpToCreation(p, spare) + [Damage(epoch, Absent), Kill(p)];
      PossibleRun(s, actions) && Stuck(RunOf(s, actions))
  {
    hide Next; hide RunOf; hide PossibleRun; hide UpToCreation; hide Inv; hide Initial; hide Stuck;
    var s := Initial(epoch, run, true);
    FirstState(epoch, run);
    Creates(epoch, run, p, spare);
    var t := RunOf(s, UpToCreation(p, spare));
    RunTwo(t, Damage(epoch, Absent), Kill(p));
    RunConcat(s, UpToCreation(p, spare), [Damage(epoch, Absent), Kill(p)]);
    PartialLossSticks(t, p);
  }

  lemma {:induction false} StaleAtTheEnd(s: State, actions: seq<Action>, a: Action)
    requires Stale(RunOf(s, actions), a)
    ensures EverStale(s, actions + [a])
    decreases |actions|
  {
    hide Next; hide Stale;
    if actions == [] {
      assert [] + [a] == [a];
    } else {
      assert (actions + [a])[0] == actions[0] && (actions + [a])[1..] == actions[1..] + [a];
      StaleAtTheEnd(Next(s, actions[0]), actions[1..], a);
    }
  }

  /** Up to the second try of a transaction that had written the record, and the loss of the server after
      it has read the process again. */
  function UpToRestart(p: Pid, spare: Epoch, next: int): seq<Action> {
    UpToCreation(p, spare) + [Abort(p)] + Entering(p) + [Action.Flush(Some(next))]
  }

  lemma AbortsAt(s: State, p: Pid)
    requires PcOf(s, p).Inside?
    ensures Only(s, Next(s, Abort(p)), p, Between(PcOf(s, p).stage)) && Next(s, Abort(p)).gate == None
  {}

  lemma RestartRuns(epoch: Epoch, run: int, p: Pid, spare: Epoch, next: int)
    requires spare != epoch && next != run
    ensures var s := Initial(epoch, run, true);
      && PossibleRun(s, UpToRestart(p, spare, next)) && Stale(RunOf(s, UpToRestart(p, spare, next)), CreateNow(p))
  {
    hide Next; hide RunOf; hide PossibleRun; hide UpToCreation; hide Inv; hide Initial; hide Stale; hide Entering;
    var s := Initial(epoch, run, true);
    FirstState(epoch, run);
    Creates(epoch, run, p, spare);
    var s1 := RunOf(s, UpToCreation(p, spare));
    var s2 := Next(s1, Abort(p));
    RunOne(s1, Abort(p));
    RunConcat(s, UpToCreation(p, spare), [Abort(p)]);
    AbortsAt(s1, p);
    NextKeeps(s1, Abort(p));
    EnteringRuns(s2, p);
    RunConcat(s, UpToCreation(p, spare) + [Abort(p)], Entering(p));
    EnterReads(s2, p, Create(s.policy));
    var s3 := Entered(s2, p);
    RunKeeps(s2, Entering(p));
    RestartBeforeCreation(s3, p, next);
    RunOne(s3, Action.Flush(Some(next)));
    RunConcat(s, UpToCreation(p, spare) + [Abort(p)] + Entering(p), [Action.Flush(Some(next))]);
  }

  /** The server is replaced between that reading and the writing: the record names a process that is gone. */
  lemma StaleIsReached(epoch: Epoch, run: int, p: Pid, spare: Epoch, next: int)
    requires spare != epoch && next != run
    ensures var s, actions := Initial(epoch, run, true), UpToRestart(p, spare, next) + [CreateNow(p)];
      PossibleRun(s, actions) && EverStale(s, actions)
  {
    hide Next; hide RunOf; hide PossibleRun; hide UpToRestart; hide Initial; hide Stale; hide EverStale;
    var s := Initial(epoch, run, true);
    RestartRuns(epoch, run, p, spare, next);
    RunOne(RunOf(s, UpToRestart(p, spare, next)), CreateNow(p));
    RunConcat(s, UpToRestart(p, spare, next), [CreateNow(p)]);
    StaleAtTheEnd(s, UpToRestart(p, spare, next), CreateNow(p));
  }

  function UpToServing(p: Pid): seq<Action> {
    UpToCreation(p, 0) + [CheckConnection(p), Commit(p, 0)] + [Enter(p), PublishNow(p)] + [Commit(p, 0)]
  }

  lemma OpeningUses(s: State, p: Pid)
    requires PcOf(s, p) == Inside(Create(s.policy), s.policy, Created(s.runId))
    ensures var t := Next(s, CheckConnection(p)); t.used == s.used && Next(t, Commit(p, 0)).used == s.used
  {
    var t := Next(s, CheckConnection(p));
    assert PcOf(t, p) == Inside(Create(s.policy), s.policy, Settled(SetOpen, false));
  }

  lemma PublishUses(s: State, p: Pid)
    ensures Next(Next(s, Enter(p)), PublishNow(p)).used == s.used
  {
    hide Publish; hide Probe; hide Initialize; hide Freeze;
  }

  /** A new event gets served. */
  lemma Serves(epoch: Epoch, run: int, p: Pid)
    requires epoch != 0
    ensures var s := Initial(epoch, run, true);
      var t := RunOf(s, UpToServing(p));
      PossibleRun(s, UpToServing(p)) && Inv(t) && Serving(t, 0)
  {
    hide Next; hide RunOf; hide PossibleRun; hide UpToCreation; hide Inv; hide Initial; hide Serving;
    var s := Initial(epoch, run, true);
    FirstState(epoch, run);
    Creates(epoch, run, p, 0);
    var s1 := RunOf(s, UpToCreation(p, 0));
    OpeningUses(s1, p);
    RunTwo(s1, CheckConnection(p), Commit(p, 0));
    OpeningCommits(s1, p, s.policy);
    var s2 := Next(Next(s1, CheckConnection(p)), Commit(p, 0));
    RunConcat(s, UpToCreation(p, 0), [CheckConnection(p), Commit(p, 0)]);
    RunTwo(s2, Enter(p), PublishNow(p));
    PublishUses(s2, p);
    RunOne(Next(Next(s2, Enter(p)), PublishNow(p)), Commit(p, 0));
    RunConcat(s, UpToCreation(p, 0) + [CheckConnection(p), Commit(p, 0)], [Enter(p), PublishNow(p)]);
    RunConcat(s, UpToCreation(p, 0) + [CheckConnection(p), Commit(p, 0)] + [Enter(p), PublishNow(p)], [Commit(p, 0)]);
    ThirdPublishes(s2, p, s.policy);
    RunKeeps(s, UpToServing(p));
  }

  /** The promise fails with a concrete run: a served generation loses every key, a delayed `initialize` of
      it creates the record and an empty namespace again, and its `publish` serves it once more. */
  lemma ReopeningIsReached(epoch: Epoch, run: int, p: Pid)
    requires epoch != 0
    ensures var s := RunOf(Initial(epoch, run, true), UpToServing(p));
      var lost := Next(s, Action.Flush(None));
      var late := LateCreate(0, s.runId);
      && PossibleRun(Initial(epoch, run, true), UpToServing(p)) && Serving(s, 0)
      && Over(lost, 0) && CanHappen(lost, late) && Revives(lost, late)
      && Serving(Next(Do(lost, late), LatePublish(0)), 0)
  {
    hide Next; hide RunOf; hide PossibleRun; hide UpToServing; hide Inv; hide Weak; hide Serving; hide CanHappen; hide Revives; hide Over;
    Serves(epoch, run, p);
    var s := RunOf(Initial(epoch, run, true), UpToServing(p));
    LostIsRevived(s, 0);
    RevivedReopens(Next(s, Action.Flush(None)), LateCreate(0, s.runId));
  }
}
