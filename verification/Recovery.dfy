/** Recovery of one event's admission: any number of coordinators, each in three PostgreSQL
    transactions under the exclusive gate, over Redis effects that no transaction undoes. One action
    is one statement, one Redis call or one failure. */
module Recovery {
  import opened AdmissionTypes
  import opened AdmissionControl
  import opened TransitionLog

  datatype Policy = Policy(protected: bool, generation: nat, epoch: Epoch, open: bool)

  type Pid = int

  /** The three transactions: decide the generation, create its namespace, announce it. */
  datatype Stage = Decide(seen: Option<Control>) | Create(goal: Policy) | Announce(goal: Policy)

  datatype Write = NoWrite | Advance | SetOpen

  /** How far a transaction has come; `Settled` only has its COMMIT left. */
  datatype Point = Begun | HasRun(run: int) | Probed(ok: bool, empty: bool) | Created(run: int) | Settled(write: Write, leave: bool)

  datatype Pc =
    | Resting
    | Observed(seen: Option<Control>)
    | Between(stage: Stage)
    | Inside(stage: Stage, current: Policy, at: Point)

  /** `ready` (generations a publish ever made ready), `used` (epochs ever allocated), `runs` (server
      processes so far), `epochOf`, `wrote` (processes a record was ever written under), `before` (those
      of them from before the last restart) and `log` are history. */
  datatype State = State(
    policy: Policy, control: Option<Control>, spaces: map<Epoch, Health>, runId: int, gate: Option<Pid>,
    coords: map<Pid, Pc>, ready: set<nat>, used: set<Epoch>, runs: set<int>, epochOf: map<nat, Epoch>,
    wrote: set<int>, before: set<int>, log: seq<LogCommand>)

  function HealthOf(s: State, e: Epoch): Health {
    if e in s.spaces then s.spaces[e] else Absent
  }

  function PcOf(s: State, p: Pid): Pc {
    if p in s.coords then s.coords[p] else Resting
  }

  datatype Action =
    // a coordinator
    | Start(p: Pid, seen: Option<Control>)
    | FreezeSeen(p: Pid, delivered: bool)
    | Enter(p: Pid)
    | Retire(p: Pid, leftovers: set<Epoch>)
    | ReadProcess(p: Pid)
    | ProbeNow(p: Pid, ended: bool)
    | Judge(p: Pid)
    | CreateNow(p: Pid)
    | CheckConnection(p: Pid)
    | PublishNow(p: Pid)
    | Pass(p: Pid)
    | Commit(p: Pid, epoch: Epoch)
    | Abort(p: Pid)
    | Kill(p: Pid)
    // the rest of the world
    | Flush(restart: Option<int>)
    | Damage(epoch: Epoch, health: Health)
    | LoseControl
    | MarkDirty
    | FreezeAny(generation: nat, epoch: Epoch)
    | LatePublish(generation: nat)
    | Protect(protected: bool)

  predicate OfWorld(a: Action) {
    a.Flush? || a.Damage? || a.LoseControl? || a.MarkDirty? || a.FreezeAny? || a.LatePublish? || a.Protect?
  }

  // ----- effects ---------------------------------------------------------------------------

  function Become(s: State, p: Pid, pc: Pc): State {
    s.(coords := s.coords[p := pc])
  }

  function Leave(s: State, p: Pid, pc: Pc): State {
    s.(coords := s.coords[p := pc], gate := None)
  }

  function FreezeRecord(s: State, generation: nat, epoch: Epoch): State {
    var (c, r) := Freeze(s.control, generation, epoch);
    s.(control := c, log := if r == Done then s.log + [SetControl(None, None, Some(Frozen), None)] else s.log)
  }

  function Published(s: State, generation: nat, epoch: Epoch): State {
    var (c, r) := Publish(s.control, HealthOf(s, epoch), generation, epoch);
    if r != Done then s
    else s.(control := c, ready := s.ready + {generation}, log := s.log + [SetControl(None, None, Some(Ready), None)])
  }

  /** Unlink the control record with the epoch it names, and whatever else a scan found. */
  function Unlinked(s: State, leftovers: set<Epoch>): State {
    var gone := (if s.control.Some? then {s.control.value.epoch} else {}) + leftovers;
    s.(control := None, spaces := s.spaces - gone, log := s.log + [Unlink(true, gone)])
  }

  predicate Advanced(seen: Option<Control>, current: Policy) {
    seen.Some? && (current.generation != seen.value.generation || current.epoch != seen.value.epoch)
  }

  /** A healthy namespace is adopted, a namespace never written is created; anything else is a loss. */
  predicate Keeps(seen: Option<Control>, current: Policy, ok: bool, empty: bool) {
    || (ok && (Advanced(seen, current) || seen.None? || seen.value.mode == Initializing))
    || (!current.open && empty && (seen.None? || !seen.value.dirty || Advanced(seen, current)))
  }

  function Written(s: State, write: Write, epoch: Epoch): State {
    match write
    case NoWrite => s
    case SetOpen => s.(policy := s.policy.(open := true))
    case Advance =>
      s.(policy := s.policy.(generation := s.policy.generation + 1, epoch := epoch, open := false),
         used := s.used + {epoch}, epochOf := s.epochOf[s.policy.generation + 1 := epoch])
  }

  function After(stage: Stage, leave: bool, policy: Policy): Pc {
    match stage
    case Decide(_) => if leave then Resting else Between(Create(policy))
    case Create(goal) => Between(Announce(goal))
    case Announce(_) => Resting
  }

  predicate Matches(goal: Policy, current: Policy) {
    current.generation == goal.generation && current.epoch == goal.epoch
  }

  // ----- one coordinator -------------------------------------------------------------------

  function BeginStep(s: State, a: Action): State {
    match a
    case Start(p, seen) => if PcOf(s, p).Resting? then Become(s, p, Observed(seen)) else s
    case FreezeSeen(p, delivered) =>
      var pc := PcOf(s, p);
      if !pc.Observed? then s else
        var s1 := if delivered && pc.seen.Some? && pc.seen.value.mode != Initializing
          then FreezeRecord(s, pc.seen.value.generation, pc.seen.value.epoch) else s;
        Become(s1, p, Between(Decide(pc.seen)))
    case Enter(p) =>
      var pc := PcOf(s, p);
      if pc.Between? && s.gate.None? then Become(s, p, Inside(pc.stage, s.policy, Begun)).(gate := Some(p)) else s
    case _ => s
  }

  function LeaveStep(s: State, a: Action): State {
    match a
    case Commit(p, epoch) =>
      var pc := PcOf(s, p);
      if pc.Inside? && pc.at.Settled? then
        var s1 := Written(s, pc.at.write, epoch);
        Leave(s1, p, After(pc.stage, pc.at.leave, s1.policy))
      else s
    case Abort(p) =>
      var pc := PcOf(s, p);
      if pc.Inside? then Leave(s, p, Between(pc.stage)) else s
    case Kill(p) =>
      var pc := PcOf(s, p);
      if pc.Inside? then Leave(s, p, Resting) else Become(s, p, Resting)
    case _ => s
  }

  /** A step of an open transaction; a refusal of Redis is thrown, which rolls the transaction back. */
  function InsideStep(s: State, a: Action, p: Pid, stage: Stage, current: Policy, at: Point): State {
    match a
    case Retire(_, leftovers) =>
      if at == Begun && !current.protected then
        Become(Unlinked(s, leftovers), p, Inside(stage, current, Settled(if current.open then Advance else NoWrite, true)))
      else s
    case Pass(_) =>
      if at == Begun && current.protected && !stage.Decide? &&
         (!Matches(stage.goal, current) || (stage.Announce? && !current.open))
      then Become(s, p, Inside(stage, current, Settled(NoWrite, false))) else s
    case ReadProcess(_) =>
      if at == Begun && current.protected && (stage.Decide? || (stage.Create? && Matches(stage.goal, current)))
      then Become(s, p, Inside(stage, current, HasRun(s.runId))) else s
    case ProbeNow(_, ended) =>
      if !at.HasRun? then s else
        var h := HealthOf(s, current.epoch);
        var ok := Probe(s.control, h, ended, current.generation, current.epoch, at.run);
        if stage.Decide? then Become(s, p, Inside(stage, current, Probed(ok, h == Absent)))
        else if stage.Create? && current.open then
          if ok then Become(s, p, Inside(stage, current, Settled(NoWrite, false))) else Leave(s, p, Resting)
        else s
    case Judge(_) =>
      if !at.Probed? || !stage.Decide? then s
      else if Keeps(stage.seen, current, at.ok, at.empty) then Become(s, p, Inside(stage, current, Settled(NoWrite, false)))
      else Become(FreezeRecord(s, current.generation, current.epoch), p, Inside(stage, current, Settled(Advance, false)))
    case CreateNow(_) =>
      if !at.HasRun? || !stage.Create? || current.open then s else
        var (c, h, r) := Initialize(s.control, HealthOf(s, current.epoch), current.generation, current.epoch, at.run);
        if r != Done then Leave(s, p, Resting) else
          var written := SetControl(Some(current.generation), Some(current.epoch), Some(Initializing), Some(at.run));
          Become(s.(control := c, spaces := s.spaces[current.epoch := h], wrote := if c == s.control then s.wrote else s.wrote + {at.run},
                   log := if c == s.control then s.log else s.log + [written]),
                 p, Inside(stage, current, Created(at.run)))
    case CheckConnection(_) =>
      if !at.Created? then s
      else if at.run == s.runId then Become(s, p, Inside(stage, current, Settled(SetOpen, false)))
      else Leave(s, p, Resting)
    case PublishNow(_) =>
      if !(at == Begun && current.protected && stage.Announce? && Matches(stage.goal, current) && current.open) then s else
        if Publish(s.control, HealthOf(s, current.epoch), current.generation, current.epoch).1 != Done then Leave(s, p, Resting)
        else Become(Published(s, current.generation, current.epoch), p, Inside(stage, current, Settled(NoWrite, false)))
    case _ => s
  }

  function WorldStep(s: State, a: Action): State {
    match a
    case Flush(restart) =>
      s.(control := None, spaces := map[], log := s.log + [LogCommand.Flush(restart.Some?)],
         runId := if restart.Some? then restart.value else s.runId,
         runs := if restart.Some? then s.runs + {restart.value} else s.runs,
         before := if restart.Some? then s.wrote else s.before)
    case Damage(e, h) =>
      if e in s.spaces && h != Sound then
        s.(spaces := if h == Absent then s.spaces - {e} else s.spaces[e := Broken],
           log := if h == Absent then s.log + [Unlink(false, {e})] else s.log)
      else s
    case LoseControl => s.(control := None, log := s.log + [Unlink(true, {})])
    case MarkDirty =>
      if s.control.Some? then
        s.(control := Some(s.control.value.(dirty := true)), log := s.log + [SetControl(None, None, None, None)])
      else s
    case FreezeAny(generation, epoch) => FreezeRecord(s, generation, epoch)
    case LatePublish(generation) => if generation in s.epochOf then Published(s, generation, s.epochOf[generation]) else s
    case Protect(b) => if s.gate.None? then s.(policy := s.policy.(protected := b)) else s
    case _ => s
  }

  function Next(s: State, a: Action): State {
    if a.Start? || a.FreezeSeen? || a.Enter? then BeginStep(s, a)
    else if a.Commit? || a.Abort? || a.Kill? then LeaveStep(s, a)
    else if OfWorld(a) then WorldStep(s, a)
    else
      var pc := PcOf(s, a.p);
      if pc.Inside? then InsideStep(s, a, a.p, pc.stage, pc.current, pc.at) else s
  }

  /** Epochs are random, server processes have an id of their own, and a `publish` that outlives its
      transaction was sent for a generation the policy had opened. */
  predicate Possible(s: State, a: Action) {
    && (a.Commit? ==> a.epoch !in s.used)
    && (a.Flush? && a.restart.Some? ==> a.restart.value !in s.runs)
    && (a.LatePublish? && a.generation == s.policy.generation ==> s.policy.open)
  }

  // ----- what always holds -----------------------------------------------------------------

  predicate Policed(s: State) {
    && s.policy.generation in s.epochOf && s.epochOf[s.policy.generation] == s.policy.epoch
    && (forall g | g in s.epochOf :: g <= s.policy.generation && s.epochOf[g] in s.used)
    && (forall g, h | g in s.epochOf && h in s.epochOf && g != h :: s.epochOf[g] != s.epochOf[h])
    && (forall g | g in s.ready :: g in s.epochOf && (g == s.policy.generation ==> s.policy.open))
    && s.runId in s.runs && s.wrote <= s.runs && s.before <= s.wrote - {s.runId}
  }

  /** The record names a generation of the policy, and the current one unless it is frozen; only one never
      ready is still being initialized. */
  predicate RecordOk(s: State) {
    s.control.Some? ==>
      && s.control.value.generation in s.epochOf && s.epochOf[s.control.value.generation] == s.control.value.epoch
      && (s.control.value.mode == Initializing ==> forall g | g in s.ready :: g < s.control.value.generation)
      && (s.control.value.mode != Frozen ==> s.control.value.generation == s.policy.generation)
      && (s.control.value.mode == Ready ==> s.control.value.generation in s.ready && s.policy.open)
      && s.control.value.runId in s.runs
      && (s.policy.open && s.control.value.generation == s.policy.generation ==> s.control.value.runId == s.runId)
  }

  /** An open transaction holds the gate and works on the committed policy. */
  predicate PcOk(s: State, p: Pid, pc: Pc) {
    pc.Inside? ==>
      && s.gate == Some(p) && pc.current == s.policy
      && (pc.at.HasRun? ==> pc.at.run in s.runs)
      && (pc.at.Created? ==> pc.at.run in s.runs && pc.stage.Create? && !pc.current.open && RunKnown(s, pc.at.run))
      && (pc.at.Settled? && pc.at.write == SetOpen ==> pc.stage.Create? && RunKnown(s, s.runId))
      && (pc.at.Settled? && pc.at.write == Advance ==> s.control.Some? ==> s.control.value.mode == Frozen)
  }

  predicate RunKnown(s: State, run: int) {
    s.control.Some? && s.control.value.generation == s.policy.generation ==> s.control.value.runId == run
  }

  ghost predicate CoordsOk(s: State) {
    && (forall p | p in s.coords :: PcOk(s, p, s.coords[p]))
    && (s.gate.Some? ==> s.gate.value in s.coords && s.coords[s.gate.value].Inside?)
  }

  ghost predicate Inv(s: State) {
    Policed(s) && RecordOk(s) && CoordsOk(s)
  }

  lemma FreezeKeeps(s: State, generation: nat, epoch: Epoch)
    requires Inv(s)
    ensures var t := FreezeRecord(s, generation, epoch); Inv(t) && t == s.(control := t.control, log := t.log)
  {
    var t := FreezeRecord(s, generation, epoch);
    forall p | p in t.coords ensures PcOk(t, p, t.coords[p]) { assert PcOk(s, p, s.coords[p]); }
  }

  /** A coordinator that holds no gate moves on outside its transactions. */
  lemma OutsideKeeps(s: State, p: Pid, pc: Pc)
    requires Inv(s) && !PcOf(s, p).Inside? && !pc.Inside?
    ensures Inv(Become(s, p, pc))
  {
    var t := Become(s, p, pc);
    forall q | q in t.coords ensures PcOk(t, q, t.coords[q]) { if q != p { assert PcOk(s, q, s.coords[q]); } }
  }

  lemma BeginKeeps(s: State, a: Action)
    requires Inv(s) && (a.Start? || a.FreezeSeen? || a.Enter?)
    ensures Inv(BeginStep(s, a))
  {
    match a
    case Start(p, seen) => if PcOf(s, p).Resting? { OutsideKeeps(s, p, Observed(seen)); }
    case FreezeSeen(p, delivered) =>
      var pc := PcOf(s, p);
      if pc.Observed? {
        var s1 := if delivered && pc.seen.Some? && pc.seen.value.mode != Initializing
          then FreezeRecord(s, pc.seen.value.generation, pc.seen.value.epoch) else s;
        if delivered && pc.seen.Some? && pc.seen.value.mode != Initializing {
          FreezeKeeps(s, pc.seen.value.generation, pc.seen.value.epoch);
        }
        OutsideKeeps(s1, p, Between(Decide(pc.seen)));
      }
    case Enter(p) =>
      var t := BeginStep(s, a);
      forall q | q in t.coords ensures PcOk(t, q, t.coords[q]) { if q != p && q in s.coords { assert PcOk(s, q, s.coords[q]); } }
    case _ =>
  }

  /** When the holder leaves, nobody is left inside. */
  lemma LeavingKeeps(s: State, t: State, p: Pid, pc: Pc)
    requires Inv(s) && PcOf(s, p).Inside? && !pc.Inside?
    requires Policed(t) && RecordOk(t) && t.coords == s.coords[p := pc] && t.gate == None
    ensures Inv(t)
  {
    forall q | q in t.coords ensures PcOk(t, q, t.coords[q]) { if q != p { assert PcOk(s, q, s.coords[q]); } }
    assert p in s.coords && PcOk(s, p, s.coords[p]);
  }

  lemma CommitKeeps(s: State, write: Write, epoch: Epoch, p: Pid)
    requires Policed(s) && RecordOk(s) && epoch !in s.used
    requires PcOf(s, p).Inside? && PcOk(s, p, PcOf(s, p)) && PcOf(s, p).at.Settled? && PcOf(s, p).at.write == write
    ensures Policed(Written(s, write, epoch)) && RecordOk(Written(s, write, epoch))
  {}

  lemma LeaveKeeps(s: State, a: Action)
    requires Inv(s) && Possible(s, a) && (a.Commit? || a.Abort? || a.Kill?)
    ensures Inv(LeaveStep(s, a))
  {
    hide Policed; hide RecordOk; hide Written;
    var pc := PcOf(s, a.p);
    var t := LeaveStep(s, a);
    if pc.Inside? {
      assert PcOk(s, a.p, s.coords[a.p]);
      hide PcOk; hide CoordsOk;
      match a {
        case Commit(p, epoch) =>
          if pc.at.Settled? {
            var s1 := Written(s, pc.at.write, epoch);
            CommitKeeps(s, pc.at.write, epoch, p);
            WrittenFrame(s, pc.at.write, epoch);
            AfterFrame(s1, t);
            LeavingKeeps(s, t, p, t.coords[p]);
          }
        case Abort(p) => AfterFrame(s, t); LeavingKeeps(s, t, p, t.coords[p]);
        case Kill(p) => AfterFrame(s, t); LeavingKeeps(s, t, p, Resting);
        case _ =>
      }
    } else if a.Kill? {
      OutsideKeeps(s, a.p, Resting);
    }
  }

  lemma WrittenFrame(s: State, write: Write, epoch: Epoch)
    ensures var t := Written(s, write, epoch); t.coords == s.coords && t.gate == s.gate && t.control == s.control
  {}

  /** Policy and record facts do not depend on who holds what. */
  lemma AfterFrame(s: State, t: State)
    requires t == s.(coords := t.coords, gate := t.gate)
    ensures Policed(t) == Policed(s) && RecordOk(t) == RecordOk(s)
  {}

  /** The holder moves on inside its transaction. */
  lemma StayingKeeps(s: State, t: State, p: Pid, pc: Pc)
    requires Inv(s) && PcOf(s, p).Inside?
    requires Policed(t) && RecordOk(t) && t.coords == s.coords[p := pc] && t.gate == s.gate && pc.Inside? && PcOk(t, p, pc)
    ensures Inv(t)
  {
    assert PcOk(s, p, s.coords[p]);
    forall q | q in t.coords ensures PcOk(t, q, t.coords[q]) { if q != p { assert PcOk(s, q, s.coords[q]); } }
  }

  /** What a step of an open transaction owes. */
  ghost predicate Owes(s: State, t: State, p: Pid) {
    t == s || (
      && Policed(t) && RecordOk(t) && p in t.coords && t.coords == s.coords[p := t.coords[p]]
      && (if t.coords[p].Inside? then t.gate == s.gate && PcOk(t, p, t.coords[p]) else t.gate == None))
  }

  ghost predicate Holds(s: State, p: Pid) {
    Policed(s) && RecordOk(s) && PcOf(s, p).Inside? && PcOk(s, p, PcOf(s, p))
  }

  lemma RetireOwes(s: State, a: Action, p: Pid, stage: Stage, current: Policy, at: Point)
    requires Holds(s, p) && PcOf(s, p) == Inside(stage, current, at) && a.Retire?
    ensures Owes(s, InsideStep(s, a, p, stage, current, at), p)
  {}

  lemma JudgeOwes(s: State, a: Action, p: Pid, stage: Stage, current: Policy, at: Point)
    requires Holds(s, p) && PcOf(s, p) == Inside(stage, current, at) && a.Judge?
    ensures Owes(s, InsideStep(s, a, p, stage, current, at), p)
  {}

  lemma CreateOwes(s: State, a: Action, p: Pid, stage: Stage, current: Policy, at: Point)
    requires Holds(s, p) && PcOf(s, p) == Inside(stage, current, at) && a.CreateNow?
    ensures Owes(s, InsideStep(s, a, p, stage, current, at), p)
  {}

  lemma PublishOwes(s: State, a: Action, p: Pid, stage: Stage, current: Policy, at: Point)
    requires Holds(s, p) && PcOf(s, p) == Inside(stage, current, at) && a.PublishNow?
    ensures Owes(s, InsideStep(s, a, p, stage, current, at), p)
  {}

  lemma ReadsOwe(s: State, a: Action, p: Pid, stage: Stage, current: Policy, at: Point)
    requires Holds(s, p) && PcOf(s, p) == Inside(stage, current, at)
    requires !a.Retire? && !a.Judge? && !a.CreateNow? && !a.PublishNow?
    ensures Owes(s, InsideStep(s, a, p, stage, current, at), p)
  {
    var t := InsideStep(s, a, p, stage, current, at);
    if t != s { AfterFrame(s, t); }
  }

  lemma InsideKeeps(s: State, a: Action, p: Pid)
    requires Inv(s) && PcOf(s, p).Inside?
    ensures var pc := PcOf(s, p); Inv(InsideStep(s, a, p, pc.stage, pc.current, pc.at))
  {
    hide InsideStep; hide Policed; hide RecordOk; hide PcOk;
    var pc := PcOf(s, p);
    assert PcOk(s, p, s.coords[p]);
    hide CoordsOk;
    if a.Retire? { RetireOwes(s, a, p, pc.stage, pc.current, pc.at); }
    else if a.Judge? { JudgeOwes(s, a, p, pc.stage, pc.current, pc.at); }
    else if a.CreateNow? { CreateOwes(s, a, p, pc.stage, pc.current, pc.at); }
    else if a.PublishNow? { PublishOwes(s, a, p, pc.stage, pc.current, pc.at); }
    else { ReadsOwe(s, a, p, pc.stage, pc.current, pc.at); }
    var t := InsideStep(s, a, p, pc.stage, pc.current, pc.at);
    if t != s {
      if t.coords[p].Inside? { StayingKeeps(s, t, p, t.coords[p]); } else { LeavingKeeps(s, t, p, t.coords[p]); }
    }
  }

  lemma WorldKeeps(s: State, a: Action)
    requires Inv(s) && Possible(s, a)
    ensures Inv(WorldStep(s, a))
  {
    var t := WorldStep(s, a);
    if a.FreezeAny? {
      FreezeKeeps(s, a.generation, a.epoch);
    } else {
      forall p | p in t.coords ensures PcOk(t, p, t.coords[p]) { assert PcOk(s, p, s.coords[p]); }
    }
  }

  lemma NextKeeps(s: State, a: Action)
    requires Inv(s) && Possible(s, a)
    ensures Inv(Next(s, a))
  {
    hide Inv; hide BeginStep; hide LeaveStep; hide WorldStep; hide InsideStep; hide Possible;
    if a.Start? || a.FreezeSeen? || a.Enter? { BeginKeeps(s, a); }
    else if a.Commit? || a.Abort? || a.Kill? { LeaveKeeps(s, a); }
    else if OfWorld(a) { WorldKeeps(s, a); }
    else if PcOf(s, a.p).Inside? { InsideKeeps(s, a, a.p); }
  }

  // ----- runs ------------------------------------------------------------------------------

  function Initial(epoch: Epoch, run: int, protected: bool): State {
    State(Policy(protected, 0, epoch, false), None, map[], run, None, map[], {}, {epoch}, {run}, map[0 := epoch], {}, {}, [])
  }

  lemma InitialHolds(epoch: Epoch, run: int, protected: bool)
    ensures Inv(Initial(epoch, run, protected))
  {}

  function RunOf(s: State, actions: seq<Action>): State
    decreases |actions|
  {
    if actions == [] then s else RunOf(Next(s, actions[0]), actions[1..])
  }

  predicate PossibleRun(s: State, actions: seq<Action>)
    decreases |actions|
  {
    actions == [] || (Possible(s, actions[0]) && PossibleRun(Next(s, actions[0]), actions[1..]))
  }

  /** A generation is served: its record is ready, unfenced, and its namespace intact. */
  predicate Serving(s: State, g: nat) {
    && s.control.Some? && s.control.value.generation == g && s.control.value.mode == Ready
    && !s.control.value.dirty && HealthOf(s, s.control.value.epoch) == Sound
  }

  predicate Over(s: State, g: nat) {
    g in s.ready && !Serving(s, g)
  }

  lemma BeginStaysOver(s: State, a: Action, g: nat)
    requires Over(s, g)
    ensures Over(BeginStep(s, a), g)
  {}

  lemma LeaveStaysOver(s: State, a: Action, g: nat)
    requires Over(s, g)
    ensures Over(LeaveStep(s, a), g)
  {}

  lemma WorldStaysOver(s: State, a: Action, g: nat)
    requires Over(s, g) && RecordOk(s)
    ensures Over(WorldStep(s, a), g)
  {}

  /** Only a publish makes a generation served, and never one that was ready before. */
  lemma InsideStaysOver(s: State, a: Action, p: Pid, stage: Stage, current: Policy, at: Point, g: nat)
    requires Over(s, g) && RecordOk(s) && Policed(s) && current == s.policy
    ensures Over(InsideStep(s, a, p, stage, current, at), g)
  {}

  lemma NextStaysOver(s: State, a: Action, g: nat)
    requires Inv(s) && Over(s, g)
    ensures Over(Next(s, a), g)
  {
    hide Over; hide BeginStep; hide LeaveStep; hide WorldStep; hide InsideStep; hide Policed; hide RecordOk;
    if a.Start? || a.FreezeSeen? || a.Enter? { BeginStaysOver(s, a, g); }
    else if a.Commit? || a.Abort? || a.Kill? { LeaveStaysOver(s, a, g); }
    else if OfWorld(a) { WorldStaysOver(s, a, g); }
    else if PcOf(s, a.p).Inside? {
      var pc := PcOf(s, a.p);
      assert PcOk(s, a.p, s.coords[a.p]);
      InsideStaysOver(s, a, a.p, pc.stage, pc.current, pc.at, g);
    }
  }

  lemma {:induction false} RunKeeps(s: State, actions: seq<Action>)
    requires Inv(s) && PossibleRun(s, actions)
    ensures Inv(RunOf(s, actions))
    decreases |actions|
  {
    hide Inv; hide Next; hide Possible;
    if actions != [] {
      NextKeeps(s, actions[0]);
      RunKeeps(Next(s, actions[0]), actions[1..]);
    }
  }

  /** A published generation never reopens: once a generation has been ready and is no longer served
      (lost, frozen, fenced, damaged or retired), no run of any coordinators serves it again. */
  lemma {:induction false} NeverReopens(s: State, actions: seq<Action>, g: nat)
    requires Inv(s) && PossibleRun(s, actions) && Over(s, g)
    ensures Over(RunOf(s, actions), g)
    decreases |actions|
  {
    hide Inv; hide Next; hide Possible; hide Over;
    if actions != [] {
      NextKeeps(s, actions[0]);
      NextStaysOver(s, actions[0], g);
      NeverReopens(Next(s, actions[0]), actions[1..], g);
    }
  }

  /** What is served is the open generation of the policy, under its own epoch and on the running
      server process. */
  lemma ServedIsCurrent(s: State, g: nat)
    requires Inv(s) && Serving(s, g)
    ensures s.policy.open && g == s.policy.generation && s.control.value.epoch == s.policy.epoch && s.control.value.runId == s.runId
  {}
}
