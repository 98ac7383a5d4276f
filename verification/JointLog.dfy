/** The whole log of an event: recovery and the queue on one server, every epoch's sets and the control
    record in the order Redis applied them. The transition-log checker accepts it. */
module JointLog {
  import opened AdmissionTypes
  import opened TransitionLog
  import opened LogRules
  import opened LogMeaning
  import opened LogControl
  import opened ReplaySteps
  import opened AdmissionSpace
  import opened AdmissionControl
  import opened Agreement
  import opened AgreementSteps
  import opened AgreementOps
  import opened AdmissionRuns
  import opened EpochLog
  import opened ProtocolInvariant
  import opened ProtocolRuns
  import Protocol
  import Recovery
  import RecoveryLog

  /** One server: what recovery works on, the namespaces' contents, the clock, and the log so far. */
  datatype Server = Server(rec: Recovery.State, content: map<Epoch, Space>, clock: int, log: seq<LogCommand>)

  /** A served call may still be answered by the caller's limiter, which leaves the namespace alone. */
  datatype Move =
    | Recover(a: Recovery.Action)
    | Wait(now: int)
    | Serve(epoch: Epoch, op: Op, admitted: bool)

  predicate Intact(rec: Recovery.State, e: Epoch) {
    Recovery.HealthOf(rec, e) == Sound
  }

  /** A namespace that recovery creates is empty. */
  function Created(s: Server, rec: Recovery.State, p: Profile): map<Epoch, Space> {
    var e := s.rec.policy.epoch;
    if Intact(rec, e) && !Intact(s.rec, e) then s.content[e := EmptySpace(e, s.clock + p.epochMs)] else s.content
  }

  predicate Served(s: Server, e: Epoch, op: Op) {
    && e in s.content
    && Barred(s.rec.control, Recovery.HealthOf(s.rec, e), e, s.clock >= s.content[e].endAt, op) == None
  }

  /** What a call that is served issues: the dirty bit, the operation's own commands, and its removal. */
  function Issued(s: Space, t: Space): seq<LogCommand> {
    [SetControl(None, None, None, None)] + (if |s.log| <= |t.log| then t.log[|s.log|..] else []) + [Other]
  }

  function Next(s: Server, m: Move, p: Profile): Server {
    match m
    case Recover(a) =>
      var rec := Recovery.Next(s.rec, a);
      Server(rec, Created(s, rec, p), s.clock, s.log + if |s.rec.log| <= |rec.log| then rec.log[|s.rec.log|..] else [])
    case Wait(now) => s.(clock := now)
    case Serve(e, op, admitted) =>
      if !Served(s, e, op) then s else
        var t := if admitted then Step(s.content[e], op, s.clock, p).0 else s.content[e];
        s.(content := s.content[e := t], log := s.log + Issued(s.content[e], t))
  }

  predicate Possible(s: Server, m: Move) {
    && (m.Recover? ==> Recovery.Possible(s.rec, m.a))
    && (m.Wait? ==> s.clock <= m.now)
    && (m.Serve? && m.epoch in s.content ==> Fresh(s.content[m.epoch], m.op))
  }

  function Run(s: Server, moves: seq<Move>, p: Profile): Server
    decreases |moves|
  {
    if moves == [] then s else Run(Next(s, moves[0], p), moves[1..], p)
  }

  predicate PossibleRun(s: Server, moves: seq<Move>, p: Profile)
    decreases |moves|
  {
    moves == [] || (Possible(s, moves[0]) && PossibleRun(Next(s, moves[0], p), moves[1..], p))
  }

  function Start(epoch: Epoch, run: int, protected: bool, clock: int): Server {
    Server(Recovery.Initial(epoch, run, protected), map[], clock, [])
  }

  // ----- what always holds -----------------------------------------------------------------

  ghost predicate Kept(s: Server, p: Profile) {
    && (forall e | e in s.content :: s.content[e].epoch == e && Agreed(s.content[e], p, s.clock))
    && (forall e | Intact(s.rec, e) :: e in s.content)
  }

  /** The checker's line of an intact namespace is the one its own commands alone would give; of an
      epoch that was never ready it has seen nothing. */
  ghost predicate LinesFit(c: Checker, s: Server, p: Profile) {
    && (forall e | Intact(s.rec, e) && e in s.content :: LineOf(c, e) == LineOf(Replay(s.content[e].log, p), e))
    && (forall e | !EverReady(s.rec, e) :: LineOf(c, e) == EMPTY_LINE && (Intact(s.rec, e) && e in s.content ==> s.content[e].log == []))
  }

  ghost predicate Inv(s: Server, p: Profile) {
    Recovery.Inv(s.rec) && Kept(s, p) && RecoveryLog.Fits(Replay(s.log, p), s.rec) && LinesFit(Replay(s.log, p), s, p)
  }

  /** What one move owes the checker. */
  ghost predicate Keeps(s: Server, t: Server, m: Move, p: Profile) {
    && Inv(t, p)
    && (Replay(t.log, p).violations == [] <==>
          Replay(s.log, p).violations == [] && !(m.Recover? && RecoveryLog.Stale(s.rec, m.a)))
  }

  // ----- recovery --------------------------------------------------------------------------

  lemma CreatedKept(s: Server, t: Server, a: Recovery.Action, p: Profile)
    requires Kept(s, p) && p.Valid() && Tame(s.rec, t.rec, a) && t.content == Created(s, t.rec, p) && t.clock == s.clock
    ensures Kept(t, p)
  {
    hide Agreed; hide EverReady; hide EmptySpace;
    var e := s.rec.policy.epoch;
    EmptyAgrees(e, s.clock + p.epochMs, p, s.clock);
    EmptyFits(e, s.clock + p.epochMs, map[]);
  }

  lemma CreatedLines(c: Checker, d: Checker, s: Server, t: Server, a: Recovery.Action, p: Profile)
    requires LinesFit(c, s, p) && Kept(s, p) && Tame(s.rec, t.rec, a) && t.content == Created(s, t.rec, p)
    requires RecoveryLog.LinesKept(c, d, t.rec)
    ensures LinesFit(d, t, p)
  {
    hide Agreed; hide EverReady; hide Replay;
    var n := s.rec.policy.epoch;
    assert Replay([], p) == EMPTY_CHECKER by { NothingReplayed(p); }
    forall e | Intact(t.rec, e) && e in t.content ensures LineOf(d, e) == LineOf(Replay(t.content[e].log, p), e) {
      assert LineOf(d, e) == LineOf(c, e);
      if !Intact(s.rec, e) { assert e == n && t.content[e].log == []; }
    }
    forall e | !EverReady(t.rec, e) ensures LineOf(d, e) == EMPTY_LINE && (Intact(t.rec, e) && e in t.content ==> t.content[e].log == []) {
      assert !EverReady(s.rec, e);
    }
  }

  lemma NothingReplayed(p: Profile)
    ensures Replay([], p) == EMPTY_CHECKER
  {}

  lemma RecoverKeeps(s: Server, a: Recovery.Action, p: Profile)
    requires Inv(s, p) && p.Valid() && Recovery.Possible(s.rec, a)
    ensures Keeps(s, Next(s, Recover(a), p), Recover(a), p)
  {
    hide Recovery.Inv; hide Recovery.Next; hide Recovery.Possible; hide Kept; hide LinesFit; hide Replay; hide RecoveryLog.Fits; hide RecoveryLog.Stale;
    hide Tame; hide RecoveryLog.LinesKept; hide Created;
    var c, t := Replay(s.log, p), Next(s, Recover(a), p);
    Recovery.NextKeeps(s.rec, a);
    NextTame(s.rec, a);
    RecoveryLog.NextTracks(c, s.rec, a, p);
    ReplayAppends(s.log, t.rec.log[|s.rec.log|..], p);
    CreatedKept(s, t, a, p);
    CreatedLines(c, Replay(t.log, p), s, t, a, p);
  }

  lemma WaitKeeps(s: Server, now: int, p: Profile)
    requires Inv(s, p) && s.clock <= now
    ensures Keeps(s, Next(s, Wait(now), p), Wait(now), p)
  {
    hide Recovery.Inv; hide Replay; hide RecoveryLog.Fits; hide Agreed; hide EverReady;
    var t := Next(s, Wait(now), p);
    forall e | e in t.content ensures Agreed(t.content[e], p, now) { TimePasses(s.content[e], p, s.clock, now); }
  }

  // ----- a call ----------------------------------------------------------------------------

  /** Setting the dirty bit means nothing to the checker. */
  lemma DirtyIsQuiet(c: Checker, rec: Recovery.State, p: Profile)
    requires RecoveryLog.Fits(c, rec)
    ensures Check(c, SetControl(None, None, None, None), p) == c
  {
    RecoveryLog.NothingToSettle(c, Some(SetControl(None, None, None, None)));
    assert rec.control.None? ==> c.current.None?;
  }

  lemma {:induction false} CheckTwo(c: Checker, a: seq<LogCommand>, b: seq<LogCommand>, p: Profile)
    ensures CheckAll(c, a + b, p) == CheckAll(CheckAll(c, a, p), b, p)
    decreases |a|
  {
    hide Check;
    if a == [] {
      assert a + b == b;
    } else {
      assert (a + b)[1..] == a[1..] + b;
      CheckTwo(Check(c, a[0], p), a[1..], b, p);
    }
  }

  lemma HasFirst(s: seq<(Epoch, AdmissionId)>)
    ensures s != [] ==> exists u :: u in s
  {
    if s != [] { assert s[0] in s; }
  }

  /** Whatever follows settles what the operation left pending, and finds nothing. */
  lemma OtherSettles(c: Checker, d: Checker, e: Epoch, base: Checker, p: Profile)
    requires Alongside(c, d, e, base) && Clean(d)
    ensures var f := Check(c, Other, p);
      f == c.(unslotted := []) && Alongside(f, d, e, base)
  {
    forall u | u in c.unslotted ensures !Outlived(c.lines, u.0, u.1) { assert u in d.unslotted && LineOf(c, e) == LineOf(d, e); }
    SettlesQuietly(c, Other);
    SettlesWell(c.unslotted, Some(Other), c.lines);
    HasFirst(StillPending(c.unslotted, Some(Other)));
  }

  lemma AgreedIsClean(s: Space, p: Profile, clock: int)
    requires Agreed(s, p, clock)
    ensures Replay(s.log, p).violations == [] && Clean(Replay(s.log, p))
  {
    hide Shaped; hide Indexed; hide Owning; hide Numbered; hide Budgeted; hide Replay; hide Counted; hide Clean;
    CleanWhenLogged(s, p);
  }

  lemma GrownIs(s: Space, t: Space)
    requires Grown(s, t)
    ensures t.epoch == s.epoch && s.log <= t.log && AllOwn(t.log[|s.log|..], s.epoch)
  {}

  lemma StartAlongside(c: Checker, rec: Recovery.State, s: Space, p: Profile)
    requires RecoveryLog.Fits(c, rec) && LineOf(c, s.epoch) == LineOf(Replay(s.log, p), s.epoch)
    ensures Alongside(c, Replay(s.log, p), s.epoch, c)
  {
    hide Replay;
  }

  /** What a served call makes of the checker: its own epoch's line moves on, all else stays. */
  lemma IssuedIs(c: Checker, rec: Recovery.State, s: Space, t: Space, p: Profile, clock: int)
    requires RecoveryLog.Fits(c, rec) && LineOf(c, s.epoch) == LineOf(Replay(s.log, p), s.epoch)
    requires Grown(s, t) && Agreed(s, p, clock) && Agreed(t, p, clock)
    ensures var d := CheckAll(c, Issued(s, t), p); Alongside(d, Replay(t.log, p), s.epoch, c) && d.unslotted == []
  {
    hide Check; hide CheckAll; hide Replay; hide Agreed; hide Grown; hide Alongside; hide Clean; hide AllOwn;
    AgreedIsClean(s, p, clock);
    AgreedIsClean(t, p, clock);
    assert s.log <= t.log && AllOwn(t.log[|s.log|..], s.epoch) by { GrownIs(s, t); }
    StartAlongside(c, rec, s, p);
    var own := t.log[|s.log|..];
    DirtyIsQuiet(c, rec, p);
    hide RecoveryLog.Fits;
    assert s.log + own == t.log;
    ReplayAppends(s.log, own, p);
    AllAlongside(c, Replay(s.log, p), s.epoch, c, own, p);
    OtherSettles(CheckAll(c, own, p), Replay(t.log, p), s.epoch, c, p);
    CheckOne(c, SetControl(None, None, None, None), p);
    CheckOne(CheckAll(c, own, p), Other, p);
    CheckTwo(c, [SetControl(None, None, None, None)], own, p);
    CheckTwo(c, [SetControl(None, None, None, None)] + own, [Other], p);
  }

  lemma CalledFits(c: Checker, d: Checker, rec: Recovery.State, e: Epoch, f: Checker)
    requires RecoveryLog.Fits(c, rec) && Alongside(d, f, e, c) && d.unslotted == []
    ensures RecoveryLog.Fits(d, rec)
  {}

  lemma CalledLines(c: Checker, d: Checker, s: Server, t: Server, e: Epoch, p: Profile)
    requires LinesFit(c, s, p) && e in s.content && e in t.content && EverReady(s.rec, e)
    requires t == s.(content := s.content[e := t.content[e]], log := t.log)
    requires Alongside(d, Replay(t.content[e].log, p), e, c)
    ensures LinesFit(d, t, p)
  {
    hide EverReady; hide Replay;
  }

  lemma ServedIsReady(s: Server, e: Epoch, op: Op)
    requires Recovery.Inv(s.rec) && Served(s, e, op)
    ensures EverReady(s.rec, e) && Intact(s.rec, e)
  {
    var g := s.rec.control.value.generation;
    assert g in s.rec.ready && g in s.rec.epochOf && s.rec.epochOf[g] == e;
  }

  lemma CallKeeps(s: Server, e: Epoch, op: Op, admitted: bool, p: Profile)
    requires Inv(s, p) && p.Valid() && Possible(s, Serve(e, op, admitted))
    ensures Keeps(s, Next(s, Serve(e, op, admitted), p), Serve(e, op, admitted), p)
  {
    hide Recovery.Inv; hide Replay; hide RecoveryLog.Fits; hide Agreed; hide Step; hide Issued; hide LinesFit; hide Fresh; hide Alongside; hide Grown;
    var c, t := Replay(s.log, p), Next(s, Serve(e, op, admitted), p);
    if Served(s, e, op) {
      ServedIsReady(s, e, op);
      StepKeeps(s.content[e], op, s.clock, s.clock, p);
      StepGrows(s.content[e], op, s.clock, p);
      SameLogGrown(s.content[e], s.content[e]);
      var n := t.content[e];
      hide Served;
      assert n.epoch == e by { GrownIs(s.content[e], n); }
      LineIs(c, s, e, p);
      IssuedIs(c, s.rec, s.content[e], n, p, s.clock);
      ReplayAppends(s.log, Issued(s.content[e], n), p);
      var d := Replay(t.log, p);
      CalledFits(c, d, s.rec, e, Replay(n.log, p));
      CalledLines(c, d, s, t, e, p);
      SameViolations(d, Replay(n.log, p), e, c);
    }
  }

  lemma LineIs(c: Checker, s: Server, e: Epoch, p: Profile)
    requires LinesFit(c, s, p) && Intact(s.rec, e) && e in s.content
    ensures LineOf(c, e) == LineOf(Replay(s.content[e].log, p), e)
  {}

  lemma SameViolations(c: Checker, d: Checker, e: Epoch, base: Checker)
    requires Alongside(c, d, e, base)
    ensures c.violations == base.violations
  {}

  // ----- every run -------------------------------------------------------------------------

  lemma NextKeeps(s: Server, m: Move, p: Profile)
    requires Inv(s, p) && p.Valid() && Possible(s, m)
    ensures Keeps(s, Next(s, m, p), m, p)
  {
    hide Inv; hide Keeps; hide Next; hide Recovery.Possible; hide Fresh;
    match m
    case Recover(a) => RecoverKeeps(s, a, p);
    case Wait(now) => WaitKeeps(s, now, p);
    case Serve(e, op, admitted) => CallKeeps(s, e, op, admitted, p);
  }

  /** The recovery actions among the moves. */
  function Recoveries(moves: seq<Move>): seq<Recovery.Action> {
    if moves == [] then [] else (if moves[0].Recover? then [moves[0].a] else []) + Recoveries(moves[1..])
  }

  lemma {:induction false} RunKeeps(s: Server, moves: seq<Move>, p: Profile)
    requires Inv(s, p) && p.Valid() && PossibleRun(s, moves, p)
    ensures var t := Run(s, moves, p);
      && Inv(t, p)
      && (Replay(t.log, p).violations == [] <==>
            Replay(s.log, p).violations == [] && !RecoveryLog.EverStale(s.rec, Recoveries(moves)))
    decreases |moves|
  {
    hide Inv; hide Possible; hide Replay; hide RecoveryLog.Stale; hide Recovery.Next;
    if moves != [] {
      var t := Next(s, moves[0], p);
      NextKeeps(s, moves[0], p);
      RunKeeps(t, moves[1..], p);
      if moves[0].Recover? {
        assert Recoveries(moves)[0] == moves[0].a && Recoveries(moves)[1..] == Recoveries(moves[1..]);
      } else {
        assert t.rec == s.rec && Recoveries(moves) == Recoveries(moves[1..]);
      }
    }
  }

  lemma StartHolds(epoch: Epoch, run: int, protected: bool, clock: int, p: Profile)
    ensures Inv(Start(epoch, run, protected, clock), p) && Replay([], p).violations == []
  {
    Recovery.InitialHolds(epoch, run, protected);
  }

  /** One log of everything: for every run of recovery, losses, restarts and queue operations on any
      number of epochs, the checker finds no capacity, rate, order, claim or generation rule broken; it
      finds the run-id rule broken if and only if a namespace was created under a replaced process; and
      it ends with the record as it is and with exactly the sets of every intact namespace. */
  lemma OneLogIsAccepted(epoch: Epoch, run: int, protected: bool, clock: int, moves: seq<Move>, p: Profile)
    requires p.Valid() && PossibleRun(Start(epoch, run, protected, clock), moves, p)
    ensures var t := Run(Start(epoch, run, protected, clock), moves, p);
      var v := Verdict(t.log, p);
      && (forall x | x in v.violations :: x == RunId)
      && (v.violations == [] <==> !RecoveryLog.EverStale(Recovery.Initial(epoch, run, protected), Recoveries(moves)))
      && v.current == RecoveryLog.ViewOf(t.rec.control)
      && (forall e | Intact(t.rec, e) ::
            && e in t.content
            && LineOf(v, e).waiting == t.content[e].waiting
            && LineOf(v, e).active == t.content[e].active.Keys
            && LineOf(v, e).claims == t.content[e].claims.Keys)
  {
    hide Recovery.Inv; hide Replay; hide Agreed; hide Run; hide PossibleRun; hide RecoveryLog.EverStale; hide Recoveries; hide EverReady;
    var s := Start(epoch, run, protected, clock);
    StartHolds(epoch, run, protected, clock, p);
    RunKeeps(s, moves, p);
    var t := Run(s, moves, p);
    RecoveryLog.NothingToSettle(Replay(t.log, p), None);
    forall e | Intact(t.rec, e) ensures e in t.content && SameSets(LineOf(Replay(t.log, p), e), t.content[e]) {
      LineIsSets(t.content[e], p, t.clock);
    }
  }

  predicate SameSets(l: Line, s: Space) {
    l.waiting == s.waiting && l.active == s.active.Keys && l.claims == s.claims.Keys
  }

  lemma LineIsSets(s: Space, p: Profile, clock: int)
    requires Agreed(s, p, clock)
    ensures SameSets(LineOf(Replay(s.log, p), s.epoch), s)
  {
    hide Shaped; hide Indexed; hide Owning; hide Numbered; hide Budgeted; hide Replay; hide Counted;
  }

  /** What that means for the log itself: no command of it overfills an epoch or its second, promotes twice or
      out of order, leaves a claim without a slot or opens a lost generation again; one is written under a
      replaced process exactly if recovery created a record there; and what the log leaves is what the sets hold. */
  lemma NothingIsBroken(epoch: Epoch, run: int, protected: bool, clock: int, moves: seq<Move>, p: Profile)
    requires p.Valid() && PossibleRun(Start(epoch, run, protected, clock), moves, p)
    ensures var t := Run(Start(epoch, run, protected, clock), moves, p);
      && (forall n, r | 0 <= n < |t.log| && OfQueue(r) :: !Breaks(r, t.log[..n], t.log[n], p))
      && (forall n | 0 <= n < |t.log| :: !Reopens(t.log[..n], t.log[n]))
      && ((exists n | 0 <= n < |t.log| :: Stale(t.log[..n], t.log[n])) <==>
            RecoveryLog.EverStale(Recovery.Initial(epoch, run, protected), Recoveries(moves)))
      && (forall e | Intact(t.rec, e) ::
            && e in t.content
            && (forall m, q :: Waits(t.log, e, m, q) <==> m in t.content[e].waiting && t.content[e].waiting[m] == q)
            && (forall m :: Holds(t.log, e, ActiveSet, m) <==> m in t.content[e].active)
            && (forall m :: Holds(t.log, e, ClaimSet, m) <==> m in t.content[e].claims))
  {
    hide Run; hide PossibleRun; hide RecoveryLog.EverStale; hide Recoveries; hide Breaks; hide Reopens; hide Stale; hide Replay; hide Waits; hide Holds;
    OneLogIsAccepted(epoch, run, protected, clock, moves, p);
    var t := Run(Start(epoch, run, protected, clock), moves, p);
    ControlRulesAreReported(t.log, p);
    var found := Verdict(t.log, p).violations;
    if found != [] { assert found[0] in found; }
    hide Verdict;
    forall r | OfQueue(r) ensures forall n | 0 <= n < |t.log| :: !Breaks(r, t.log[..n], t.log[n], p) {
      QueueRulesAreReported(t.log, p, r);
    }
    forall e | Intact(t.rec, e)
      ensures e in t.content
      ensures forall m, q :: Waits(t.log, e, m, q) <==> m in t.content[e].waiting && t.content[e].waiting[m] == q
      ensures forall m :: Holds(t.log, e, ActiveSet, m) <==> m in t.content[e].active
      ensures forall m :: Holds(t.log, e, ClaimSet, m) <==> m in t.content[e].claims
    {
      LogHolds(t.log, e, t.content[e], p);
    }
  }

  lemma LogHolds(log: seq<LogCommand>, e: Epoch, s: Space, p: Profile)
    requires SameSets(LineOf(Replay(log, p), e), s)
    ensures forall m, q :: Waits(log, e, m, q) <==> m in s.waiting && s.waiting[m] == q
    ensures forall m :: Holds(log, e, ActiveSet, m) <==> m in s.active
    ensures forall m :: Holds(log, e, ClaimSet, m) <==> m in s.claims
  {
    BooksMirror(log, e, p);
    hide Waits; hide Holds; hide Left; hide Given; hide Promotions; hide Promoted; hide Replay; hide CountIn;
  }
}
