/** A command can outlive the transaction that sent it. Freezes, unlinks and publishes that do are actions
    of `Recovery` itself and harm nothing. An `initialize` is different: here it may arrive at any later
    time, for any generation ever decided and any process ever read. A published generation still never
    reopens, unless such a command creates again the record of a generation that had been ready; and
    then it does reopen. */
module LateCreation {
  import opened AdmissionTypes
  import opened AdmissionControl
  import opened TransitionLog
  import opened Recovery
  import opened RecoveryProgress

  datatype Deed = Timely(a: Action) | LateCreate(generation: nat, run: int)

  predicate Writes(s: State, generation: nat, run: int) {
    && generation in s.epochOf
    && var e := s.epochOf[generation];
      var (c, _, r) := Initialize(s.control, HealthOf(s, e), generation, e, run);
      r == Done && c != s.control
  }

  function CreatedLate(s: State, generation: nat, run: int): State {
    if !Writes(s, generation, run) then s else
      var e := s.epochOf[generation];
      var (c, h, _) := Initialize(s.control, HealthOf(s, e), generation, e, run);
      s.(control := c, spaces := s.spaces[e := h], wrote := s.wrote + {run},
         log := s.log + [SetControl(Some(generation), Some(e), Some(Initializing), Some(run))])
  }

  function Do(s: State, d: Deed): State {
    match d
    case Timely(a) => Next(s, a)
    case LateCreate(generation, run) => CreatedLate(s, generation, run)
  }

  predicate CanHappen(s: State, d: Deed) {
    match d
    case Timely(a) => Possible(s, a)
    case LateCreate(generation, run) => generation in s.epochOf && run in s.runs
  }

  /** The late command finds no record and no namespace of a generation that was ready before. */
  predicate Revives(s: State, d: Deed) {
    d.LateCreate? && d.generation in s.ready && Writes(s, d.generation, d.run)
  }

  // ----- what is left of the invariant -----------------------------------------------------

  /** The record may name any generation of the policy. */
  predicate RecordWeak(s: State) {
    s.control.Some? ==>
      && s.control.value.generation in s.epochOf && s.epochOf[s.control.value.generation] == s.control.value.epoch
      && (s.control.value.mode == Initializing ==> s.control.value.generation !in s.ready)
      && (s.control.value.mode == Ready ==> s.control.value.generation in s.ready)
  }

  predicate PcWeak(s: State, p: Pid, pc: Pc) {
    pc.Inside? ==>
      && s.gate == Some(p) && pc.current == s.policy
      && (pc.at.HasRun? ==> pc.at.run in s.runs)
  }

  ghost predicate Weak(s: State) {
    Policed(s) && RecordWeak(s) && forall p | p in s.coords :: PcWeak(s, p, s.coords[p])
  }

  lemma InvIsWeak(s: State)
    requires Inv(s)
    ensures Weak(s)
  {
    forall p | p in s.coords ensures PcWeak(s, p, s.coords[p]) { assert PcOk(s, p, s.coords[p]); }
  }

  ghost predicate CoordsWeak(s: State) {
    forall p | p in s.coords :: PcWeak(s, p, s.coords[p])
  }

  /** The holder moves, stays inside or leaves, and nobody else is inside. */
  lemma HolderMoves(s: State, t: State, p: Pid)
    requires CoordsWeak(s) && p in s.coords && s.coords[p].Inside? && p in t.coords && t.coords == s.coords[p := t.coords[p]]
    requires s.runs <= t.runs && PcWeak(t, p, t.coords[p])
    ensures CoordsWeak(t)
  {
    assert PcWeak(s, p, s.coords[p]);
    forall q | q in t.coords ensures PcWeak(t, q, t.coords[q]) { if q != p { assert PcWeak(s, q, s.coords[q]); } }
  }

  lemma BeginWeak(s: State, a: Action)
    requires Weak(s) && (a.Start? || a.FreezeSeen? || a.Enter?)
    ensures Weak(BeginStep(s, a))
  {
    var t := BeginStep(s, a);
    forall q | q in t.coords ensures PcWeak(t, q, t.coords[q]) { if q in s.coords { assert PcWeak(s, q, s.coords[q]); } }
  }

  lemma WrittenWeak(s: State, write: Write, epoch: Epoch)
    requires Policed(s) && RecordWeak(s) && epoch !in s.used
    ensures var t := Written(s, write, epoch); Policed(t) && RecordWeak(t) && t.coords == s.coords && t.runs == s.runs
  {}

  lemma OnlyCoordsWeak(s: State, t: State)
    requires Policed(s) && RecordWeak(s) && t == s.(coords := t.coords, gate := t.gate)
    ensures Policed(t) && RecordWeak(t)
  {}

  lemma LeaveWeak(s: State, a: Action)
    requires Weak(s) && Possible(s, a) && (a.Commit? || a.Abort? || a.Kill?)
    ensures Weak(LeaveStep(s, a))
  {
    hide Policed; hide RecordWeak; hide Written;
    var pc, t := PcOf(s, a.p), LeaveStep(s, a);
    if a.Commit? && pc.Inside? && pc.at.Settled? {
      WrittenWeak(s, pc.at.write, a.epoch);
      OnlyCoordsWeak(Written(s, pc.at.write, a.epoch), t);
    } else {
      OnlyCoordsWeak(s, t);
    }
    if pc.Inside? && t != s {
      HolderMoves(s, t, a.p);
    } else {
      forall q | q in t.coords ensures PcWeak(t, q, t.coords[q]) { if q in s.coords { assert PcWeak(s, q, s.coords[q]); } }
    }
  }

  lemma InsideStores(s: State, a: Action, p: Pid, stage: Stage, current: Policy, at: Point)
    requires Policed(s) && RecordWeak(s) && PcOf(s, p) == Inside(stage, current, at) && PcWeak(s, p, PcOf(s, p))
    ensures var t := InsideStep(s, a, p, stage, current, at); Policed(t) && RecordWeak(t)
  {
    hide Keeps; hide Probe;
  }

  lemma InsideCoords(s: State, a: Action, p: Pid, stage: Stage, current: Policy, at: Point)
    requires CoordsWeak(s) && PcOf(s, p) == Inside(stage, current, at) && PcWeak(s, p, PcOf(s, p)) && s.runId in s.runs
    ensures CoordsWeak(InsideStep(s, a, p, stage, current, at))
  {
    hide Keeps; hide Probe; hide Initialize; hide Publish; hide Freeze;
    var t := InsideStep(s, a, p, stage, current, at);
    if t != s { HolderMoves(s, t, p); }
  }

  lemma WorldWeak(s: State, a: Action)
    requires Weak(s) && Possible(s, a) && OfWorld(a)
    ensures Weak(WorldStep(s, a))
  {
    var t := WorldStep(s, a);
    assert forall p | p in s.coords :: PcWeak(s, p, s.coords[p]) ==> PcWeak(t, p, t.coords[p]);
  }

  lemma CreatedWeak(s: State, generation: nat, run: int)
    requires Weak(s) && run in s.runs && generation !in s.ready
    ensures Weak(CreatedLate(s, generation, run))
  {
    var t := CreatedLate(s, generation, run);
    forall p | p in t.coords ensures PcWeak(t, p, t.coords[p]) { assert PcWeak(s, p, s.coords[p]); }
  }

  lemma DoWeak(s: State, d: Deed)
    requires Weak(s) && CanHappen(s, d) && !Revives(s, d)
    ensures Weak(Do(s, d))
  {
    hide Policed; hide RecordWeak; hide PcWeak; hide BeginStep; hide LeaveStep; hide WorldStep; hide InsideStep; hide Possible; hide Writes;
    if d.LateCreate? {
      if Writes(s, d.generation, d.run) { CreatedWeak(s, d.generation, d.run); }
    } else {
      var a := d.a;
      if a.Start? || a.FreezeSeen? || a.Enter? { BeginWeak(s, a); }
      else if a.Commit? || a.Abort? || a.Kill? { LeaveWeak(s, a); }
      else if OfWorld(a) { WorldWeak(s, a); }
      else if PcOf(s, a.p).Inside? {
        var pc := PcOf(s, a.p);
        assert PcWeak(s, a.p, s.coords[a.p]);
        InsideStores(s, a, a.p, pc.stage, pc.current, pc.at);
        ProcessKnown(s);
        InsideCoords(s, a, a.p, pc.stage, pc.current, pc.at);
      }
    }
  }

  lemma ProcessKnown(s: State)
    requires Policed(s)
    ensures s.runId in s.runs
  {}

  // ----- never again, and exactly when not -------------------------------------------------

  lemma InsideOver(s: State, a: Action, p: Pid, stage: Stage, current: Policy, at: Point, g: nat)
    requires Over(s, g) && RecordWeak(s) && Policed(s) && current == s.policy
    ensures Over(InsideStep(s, a, p, stage, current, at), g)
  {
    hide Keeps; hide Probe;
  }

  lemma WorldOver(s: State, a: Action, g: nat)
    requires Over(s, g) && RecordWeak(s)
    ensures Over(WorldStep(s, a), g)
  {}

  lemma CreatedOver(s: State, generation: nat, run: int, g: nat)
    requires Over(s, g)
    ensures Over(CreatedLate(s, generation, run), g)
  {}

  lemma DoStaysOver(s: State, d: Deed, g: nat)
    requires Weak(s) && Over(s, g)
    ensures Over(Do(s, d), g)
  {
    hide Over; hide Policed; hide RecordWeak; hide BeginStep; hide LeaveStep; hide WorldStep; hide InsideStep; hide CreatedLate;
    if d.LateCreate? {
      CreatedOver(s, d.generation, d.run, g);
    } else {
      var a := d.a;
      if a.Start? || a.FreezeSeen? || a.Enter? { BeginStaysOver(s, a, g); }
      else if a.Commit? || a.Abort? || a.Kill? { LeaveStaysOver(s, a, g); }
      else if OfWorld(a) { WorldOver(s, a, g); }
      else if PcOf(s, a.p).Inside? {
        var pc := PcOf(s, a.p);
        assert PcWeak(s, a.p, s.coords[a.p]);
        InsideOver(s, a, a.p, pc.stage, pc.current, pc.at, g);
      }
    }
  }

  function DoAll(s: State, deeds: seq<Deed>): State
    decreases |deeds|
  {
    if deeds == [] then s else DoAll(Do(s, deeds[0]), deeds[1..])
  }

  /** Everything in the run can happen, and no late creation revives a generation. */
  predicate CleanRun(s: State, deeds: seq<Deed>)
    decreases |deeds|
  {
    deeds == [] || (CanHappen(s, deeds[0]) && !Revives(s, deeds[0]) && CleanRun(Do(s, deeds[0]), deeds[1..]))
  }

  /** With late commands of every kind, a generation that was ready and is no longer served is never served
      again, as long as no late creation revives one. */
  lemma {:induction false} NeverReopensLate(s: State, deeds: seq<Deed>, g: nat)
    requires Weak(s) && CleanRun(s, deeds) && Over(s, g)
    ensures Weak(DoAll(s, deeds)) && Over(DoAll(s, deeds), g)
    decreases |deeds|
  {
    hide Weak; hide Do; hide CanHappen; hide Over; hide Revives;
    if deeds != [] {
      DoWeak(s, deeds[0]);
      DoStaysOver(s, deeds[0], g);
      NeverReopensLate(Do(s, deeds[0]), deeds[1..], g);
    }
  }

  /** The condition is exact: whenever a late creation revives a generation, that generation was not
      served, and a late `publish` of it, which can happen, serves it again. */
  lemma RevivedReopens(s: State, d: Deed)
    requires Weak(s) && CanHappen(s, d) && Revives(s, d)
    ensures var g := d.generation;
      && Over(s, g) && Possible(Do(s, d), LatePublish(g))
      && Serving(Next(Do(s, d), LatePublish(g)), g)
  {}

  /** For the policy's own generation, created on the running process, no second late command is needed:
      the next `maintain` takes the record for an interrupted publication and serves it, empty. */
  lemma MaintainReopens(s: State, d: Deed, p: Pid, delivered: bool, epoch: Epoch)
    requires Weak(s) && CanHappen(s, d) && Revives(s, d) && d.generation == s.policy.generation && d.run == s.runId
    requires s.gate == None && PcOf(s, p) == Resting && s.policy.protected
    ensures Over(s, d.generation) && Serving(Attempt(Do(s, d), p, None, delivered, epoch), d.generation)
  {
    RevivedReopens(s, d);
    var t := Do(s, d);
    assert t.gate == None && PcOf(t, p) == Resting && t.policy == s.policy && ProbeOf(t);
    hide Weak; hide Revives; hide Do; hide Next; hide Serving; hide Only; hide FirstTransaction; hide SecondTransaction; hide ThirdTransaction;
    hide SetOut; hide Stays; hide ProbeOf; hide Over;
    BeginsIdle(t, p, None, delivered);
    var u := SetOut(t, p, None, delivered);
    NothingToFreeze(t, p, delivered);
    SameProbe(t, u);
    KeptIfIntact(u);
    FirstDecides(u, p, None, epoch);
    OnlyIs(u, FirstTransaction(u, p, epoch), p, Between(Create(u.policy)));
    SameProbe(u, FirstTransaction(u, p, epoch));
    ResumeServes(FirstTransaction(u, p, epoch), p);
  }

  /** That is not far-fetched: when every key of a served generation is lost, the same `initialize` that
      once created it revives it. */
  lemma LostIsRevived(s: State, g: nat)
    requires Inv(s) && Serving(s, g)
    ensures var t := Next(s, Action.Flush(None)); Weak(t) && CanHappen(t, LateCreate(g, s.runId)) && Revives(t, LateCreate(g, s.runId))
  {
    NextKeeps(s, Action.Flush(None));
    InvIsWeak(Next(s, Action.Flush(None)));
  }

  lemma SameProbe(s: State, t: State)
    requires t.control == s.control && t.spaces == s.spaces && t.policy == s.policy && t.runId == s.runId
    ensures ProbeOf(t) == ProbeOf(s)
  {}

  lemma KeptIfIntact(s: State)
    requires ProbeOf(s)
    ensures Stays(s, None)
  {}
}
