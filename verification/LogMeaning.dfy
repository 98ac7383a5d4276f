/** The checker's own books are what the log says, and it reports a rule of the queue exactly if a command
    breaks it. */
module LogMeaning {
  import opened AdmissionTypes
  import opened TransitionLog
  import opened LogRules

  // ----- one command on one line -----------------------------------------------------------

  /** The checker after the judging that comes first, with the same lines. */
  function Judge(c: Checker, h: LogCommand): Checker {
    if h.Flush? && h.restart then c.(unslotted := [], gone := c.gone + c.alive, alive := {}) else Settle(c, Some(h))
  }

  lemma CheckIs(c: Checker, h: LogCommand, p: Profile)
    ensures var c1 := Judge(c, h);
      && c1.lines == c.lines
      && Check(c, h, p) == match h
        case Flush(_) => Lose(c1.(lines := map[]))
        case Unlink(control, sets) => if control then Lose(c1.(lines := c1.lines - sets)) else c1.(lines := c1.lines - sets)
        case SetControl(_, _, _, _) => ApplyControl(c1, h)
        case ZRem(e, key, m) => RemoveFrom(c1, e, key, m)
        case ZAdd(_, _, _, _) => Insert(c1, h, p)
        case Other => c1
  {
    hide StillPending; hide Judged; hide ApplyControl; hide RemoveFrom; hide Insert;
  }

  lemma ControlLeavesLines(c: Checker, h: LogCommand)
    requires h.SetControl?
    ensures ApplyControl(c, h).lines == c.lines && ApplyControl(c, h).unslotted == c.unslotted && ApplyControl(c, h).promotions == c.promotions
  {}

  predicate Has(z: map<int, int>, k: int, v: int) {
    k in z && z[k] == v
  }

  /** What the command does to the sets that the checker keeps of the epoch. */
  ghost predicate MovesSets(l: Line, t: Line, h: LogCommand, e: Epoch) {
    && (forall m :: m in t.active <==> Adds(h, e, ActiveSet, m) || (m in l.active && !Takes(h, e, ActiveSet, m)))
    && (forall m :: m in t.claims <==> Adds(h, e, ClaimSet, m) || (m in l.claims && !Takes(h, e, ClaimSet, m)))
    && (forall m :: m in t.promoted <==> Adds(h, e, ActiveSet, m) || (m in l.promoted && !Clears(h, e)))
  }

  ghost predicate MovesLine(l: Line, t: Line, h: LogCommand, e: Epoch, p: Profile) {
    && (forall m, q :: Has(t.waiting, m, q) <==>
          (Adds(h, e, WaitingSet, m) && h.score == q) || (Has(l.waiting, m, q) && !Takes(h, e, WaitingSet, m) && !Adds(h, e, WaitingSet, m)))
    && (forall q, m :: Has(t.sequences, q, m) <==>
          (GivesSequence(h, e, q) && h.member == m) || (Has(l.sequences, q, m) && !Clears(h, e) && !GivesSequence(h, e, q)))
    && t.window == (if Clears(h, e) then [] else if h.ZAdd? && h.epoch == e && h.key == ActiveSet then l.window + [h.score - p.ttlMs] else l.window)
  }

  ghost predicate MovesLeft(l: Line, t: Line, h: LogCommand, e: Epoch) {
    forall m, q :: Has(t.left, m, q) <==>
      (LeavesLine(h, e, m) && Has(l.waiting, m, q))
      || (Has(l.left, m, q) && !Arrives(h, e, m) && !(LeavesLine(h, e, m) && m in l.waiting))
  }

  ghost predicate MovesAll(l: Line, t: Line, h: LogCommand, e: Epoch, p: Profile) {
    MovesSets(l, t, h, e) && MovesLine(l, t, h, e, p) && MovesLeft(l, t, h, e)
  }

  lemma StaysPut(l: Line, h: LogCommand, e: Epoch, p: Profile)
    requires !Clears(h, e) && !(h.ZAdd? && h.epoch == e) && !(h.ZRem? && h.epoch == e)
    ensures MovesAll(l, l, h, e, p)
  {}

  lemma Emptied(l: Line, h: LogCommand, e: Epoch, p: Profile)
    requires Clears(h, e)
    ensures MovesAll(l, EMPTY_LINE, h, e, p)
  {}

  lemma Removed(c: Checker, h: LogCommand, p: Profile)
    requires h.ZRem?
    ensures var t := RemoveFrom(c, h.epoch, h.key, h.member);
      MovesAll(LineOf(c, h.epoch), LineOf(t, h.epoch), h, h.epoch, p) && forall e | e != h.epoch :: LineOf(t, e) == LineOf(c, e)
  {}

  lemma Inserted(c: Checker, h: LogCommand, p: Profile)
    requires h.ZAdd?
    ensures var t := Insert(c, h, p);
      MovesAll(LineOf(c, h.epoch), LineOf(t, h.epoch), h, h.epoch, p) && forall e | e != h.epoch :: LineOf(t, e) == LineOf(c, e)
  {
    hide PromotionRules; hide BudgetRules;
  }

  lemma LineMoves(c: Checker, h: LogCommand, e: Epoch, p: Profile)
    ensures MovesAll(LineOf(c, e), LineOf(Check(c, h, p), e), h, e, p)
  {
    hide MovesAll; hide Judge; hide Check; hide ApplyControl; hide RemoveFrom; hide Insert;
    CheckIs(c, h, p);
    var c1 := Judge(c, h);
    if Clears(h, e) { Emptied(LineOf(c, e), h, e, p); }
    else if h.ZAdd? && h.epoch == e { Inserted(c1, h, p); }
    else if h.ZRem? && h.epoch == e { Removed(c1, h, p); }
    else {
      StaysPut(LineOf(c, e), h, e, p);
      if h.ZAdd? { Inserted(c1, h, p); }
      if h.ZRem? { Removed(c1, h, p); }
      if h.SetControl? { ControlLeavesLines(c1, h); }
    }
  }

  // ----- the books are what the log says ---------------------------------------------------

  /** The checker's line of the epoch, against the log. */
  ghost predicate Mirrors(l: Line, log: Log, e: Epoch, p: Profile) {
    && (forall m :: m in l.active <==> Holds(log, e, ActiveSet, m))
    && (forall m :: m in l.claims <==> Holds(log, e, ClaimSet, m))
    && (forall m :: m in l.promoted <==> Promoted(log, e, m))
    && (forall m, q :: Has(l.waiting, m, q) <==> Waits(log, e, m, q))
    && (forall q, m :: Has(l.sequences, q, m) <==> Given(log, e, q, m))
    && (forall m, q :: Has(l.left, m, q) <==> Left(log, e, m, q))
    && (forall low, high :: CountIn(l.window, low, high) == |Promotions(log, e, low, high, p)|)
  }

  lemma SetsMirror(l: Line, t: Line, log: Log, h: LogCommand, e: Epoch, p: Profile)
    requires Mirrors(l, log, e, p) && MovesSets(l, t, h, e)
    ensures forall m :: m in t.active <==> Holds(log + [h], e, ActiveSet, m)
    ensures forall m :: m in t.claims <==> Holds(log + [h], e, ClaimSet, m)
    ensures forall m :: m in t.promoted <==> Promoted(log + [h], e, m)
  {
    hide Holds; hide Promoted; hide Adds; hide Takes;
    forall m ensures (m in t.active <==> Holds(log + [h], e, ActiveSet, m)) && (m in t.claims <==> Holds(log + [h], e, ClaimSet, m))
      && (m in t.promoted <==> Promoted(log + [h], e, m))
    {
      HoldsMore(log, h, e, ActiveSet, m);
      HoldsMore(log, h, e, ClaimSet, m);
      PromotedMore(log, h, e, m);
    }
  }

  lemma WaitingMirrors(l: Line, t: Line, log: Log, h: LogCommand, e: Epoch, p: Profile)
    requires Mirrors(l, log, e, p) && MovesLine(l, t, h, e, p)
    ensures forall m, q :: Has(t.waiting, m, q) <==> Waits(log + [h], e, m, q)
    ensures forall q, m :: Has(t.sequences, q, m) <==> Given(log + [h], e, q, m)
  {
    hide Waits; hide Given; hide Adds; hide Takes; hide GivesSequence;
    forall m, q ensures Has(t.waiting, m, q) <==> Waits(log + [h], e, m, q) { WaitsMore(log, h, e, m, q); }
    forall q, m ensures Has(t.sequences, q, m) <==> Given(log + [h], e, q, m) { GivenMore(log, h, e, q, m); }
  }

  lemma LeftMirrors(l: Line, t: Line, log: Log, h: LogCommand, e: Epoch, p: Profile)
    requires Mirrors(l, log, e, p) && MovesLeft(l, t, h, e)
    ensures forall m, q :: Has(t.left, m, q) <==> Left(log + [h], e, m, q)
  {
    hide Waits; hide Left; hide Arrives; hide LeavesLine; hide Holds; hide Promoted; hide Given; hide Promotions;
    forall m, q ensures Has(t.left, m, q) <==> Left(log + [h], e, m, q) {
      LeftMore(log, h, e, m, q);
      assert Leaving(log, h, e, m) <==> LeavesLine(h, e, m) && m in l.waiting by {
        if LeavesLine(h, e, m) && m in l.waiting { assert Has(l.waiting, m, l.waiting[m]) && Departs(log, h, e, m, l.waiting[m]); }
        if Leaving(log, h, e, m) { var x :| Departs(log, h, e, m, x); assert Has(l.waiting, m, x); }
      }
    }
  }

  lemma CountAppends(window: seq<int>, x: int, low: int, high: int)
    ensures CountIn(window + [x], low, high) == CountIn(window, low, high) + if low < x <= high then 1 else 0
  {
    assert (window + [x])[..|window|] == window;
  }

  lemma WindowMirrors(l: Line, t: Line, log: Log, h: LogCommand, e: Epoch, p: Profile)
    requires Mirrors(l, log, e, p) && MovesLine(l, t, h, e, p)
    ensures forall low, high :: CountIn(t.window, low, high) == |Promotions(log + [h], e, low, high, p)|
  {
    hide Waits; hide Left; hide Holds; hide Promoted; hide Given; hide Takes; hide GivesSequence;
    forall low, high ensures CountIn(t.window, low, high) == |Promotions(log + [h], e, low, high, p)| {
      PromotionsMore(log, h, e, low, high, p);
      assert |log| !in Promotions(log, e, low, high, p);
      if h.ZAdd? { CountAppends(l.window, h.score - p.ttlMs, low, high); }
    }
  }

  lemma {:induction false} BooksMirror(log: Log, e: Epoch, p: Profile)
    ensures Mirrors(LineOf(Replay(log, p), e), log, e, p)
    decreases |log|
  {
    if log == [] {
      forall low, high ensures CountIn([], low, high) == |Promotions([], e, low, high, p)| { assert Promotions([], e, low, high, p) == {}; }
    } else {
      var n := |log| - 1;
      BooksMirror(log[..n], e, p);
      LineMoves(Replay(log[..n], p), log[n], e, p);
      assert log[..n] + [log[n]] == log;
      var l, t := LineOf(Replay(log[..n], p), e), LineOf(Replay(log, p), e);
      MirrorMoves(l, t, log[..n], log[n], e, p);
    }
  }

  lemma MirrorMoves(l: Line, t: Line, log: Log, h: LogCommand, e: Epoch, p: Profile)
    requires Mirrors(l, log, e, p) && MovesAll(l, t, h, e, p)
    ensures Mirrors(t, log + [h], e, p)
  {
    SetsMirror(l, t, log, h, e, p);
    WaitingMirrors(l, t, log, h, e, p);
    LeftMirrors(l, t, log, h, e, p);
    WindowMirrors(l, t, log, h, e, p);
    hide MovesSets; hide MovesLine; hide MovesLeft; hide Waits; hide Left; hide Holds; hide Promoted; hide Given; hide Promotions;
  }

  lemma MembersAre(log: Log, e: Epoch, p: Profile)
    ensures LineOf(Replay(log, p), e).active == MembersOf(log, e, ActiveSet)
  {
    BooksMirror(log, e, p);
    var active := LineOf(Replay(log, p), e).active;
    forall m ensures m in active <==> m in MembersOf(log, e, ActiveSet) {
      if Holds(log, e, ActiveSet, m) {
        var i :| 0 <= i < |log| && Adds(log[i], e, ActiveSet, m) && forall j | i < j < |log| :: !Takes(log[j], e, ActiveSet, m);
        assert log[i].member == m;
      }
    }
  }

  // ----- what one command adds to the violations -------------------------------------------

  function Settled(c: Checker, h: LogCommand): seq<Rule> {
    if h.Flush? && h.restart then [] else Judged(c.unslotted, Some(h), c.lines)
  }

  lemma OnlyClaims(pending: seq<(Epoch, AdmissionId)>, h: Option<LogCommand>, lines: map<Epoch, Line>)
    ensures forall r | r in Judged(pending, h, lines) :: r == ClaimWithoutSlot
    ensures ClaimWithoutSlot in Judged(pending, h, lines) <==>
      exists u | u in pending :: !Kept(h, u.1) && Outlived(lines, u.0, u.1)
    decreases |pending|
  {
    if pending != [] {
      var n := |pending| - 1;
      OnlyClaims(pending[..n], h, lines);
      assert pending == pending[..n] + [pending[n]];
    }
  }

  /** The rules of the queue; the others are those of the control record. */
  predicate OfQueue(r: Rule) {
    r != Generation && r != RunId
  }

  lemma ControlAddsNone(c: Checker, h: LogCommand, r: Rule)
    requires h.SetControl? && OfQueue(r)
    ensures r in ApplyControl(c, h).violations <==> r in c.violations
  {}

  lemma JudgeAdds(c: Checker, h: LogCommand)
    ensures Judge(c, h).violations == c.violations + Settled(c, h)
  {
    hide Judged; hide StillPending;
  }

  /** What a command that is no insertion adds: what it settles. */
  lemma OtherAdds(c: Checker, h: LogCommand, p: Profile, r: Rule)
    requires OfQueue(r) && !h.ZAdd?
    ensures r in Check(c, h, p).violations <==> r in c.violations || r in Settled(c, h)
  {
    CheckIs(c, h, p);
    JudgeAdds(c, h);
    hide Check; hide Judge; hide Settled;
    if h.SetControl? { ControlAddsNone(Judge(c, h), h, r); }
    hide ApplyControl;
  }

  /** And an insertion: also what it breaks itself. */
  function InsertRules(l: Line, h: LogCommand, p: Profile): seq<Rule>
    requires h.ZAdd?
  {
    match h.key
    case WaitingSet => if h.score in l.sequences && l.sequences[h.score] != h.member then [Fifo] else []
    case ActiveSet =>
      var now := h.score - p.ttlMs;
      PromotionRules(l, h.member) +
      BudgetRules(l.(left := l.left - {h.member}, promoted := l.promoted + {h.member}, active := l.active + {h.member}, window := l.window + [now]), now, p)
    case ClaimSet => if h.member in l.active then [] else [ClaimWithoutSlot]
    case _ => []
  }

  lemma InsertAdds(c: Checker, h: LogCommand, p: Profile, r: Rule)
    requires h.ZAdd?
    ensures r in Check(c, h, p).violations <==> r in c.violations || r in Settled(c, h) || r in InsertRules(LineOf(c, h.epoch), h, p)
  {
    CheckIs(c, h, p);
    JudgeAdds(c, h);
    hide Check; hide Judge; hide Settled; hide PromotionRules; hide BudgetRules;
  }

  // ----- rule by rule ----------------------------------------------------------------------

  lemma ReplayMore(log: Log, h: LogCommand, p: Profile)
    ensures Replay(log + [h], p) == Check(Replay(log, p), h, p)
  {
    assert (log + [h])[..|log|] == log;
  }

  lemma CapacityRule(l: Line, h: LogCommand, p: Profile)
    requires h.ZAdd?
    ensures Capacity in InsertRules(l, h, p) <==> h.key == ActiveSet && |l.active + {h.member}| > p.capacity
  {
    hide CountIn; hide Overtakes;
  }

  lemma ActiveGrows(c: Checker, h: LogCommand, p: Profile)
    requires h.ZAdd? && h.key == ActiveSet
    ensures LineOf(Check(c, h, p), h.epoch).active == LineOf(c, h.epoch).active + {h.member}
  {
    LineMoves(c, h, h.epoch, p);
    hide Check;
  }

  lemma CapacityMeans(log: Log, h: LogCommand, p: Profile)
    requires h.ZAdd?
    ensures Capacity in InsertRules(LineOf(Replay(log, p), h.epoch), h, p) <==> OverCapacity(log, h, p)
  {
    hide MembersOf; hide Replay; hide Check; hide InsertRules; hide LineOf;
    CapacityRule(LineOf(Replay(log, p), h.epoch), h, p);
    if h.key == ActiveSet {
      MembersAre(log + [h], h.epoch, p);
      ActiveGrows(Replay(log, p), h, p);
      ReplayMore(log, h, p);
    }
  }

  lemma RateRule(l: Line, h: LogCommand, p: Profile)
    requires h.ZAdd? && h.key == ActiveSet
    ensures var now := h.score - p.ttlMs; Rate in InsertRules(l, h, p) <==> CountIn(l.window + [now], now - 1000, now) > p.rate
  {
    hide CountIn; hide Overtakes;
  }

  lemma WindowGrows(c: Checker, h: LogCommand, p: Profile)
    requires h.ZAdd? && h.key == ActiveSet
    ensures LineOf(Check(c, h, p), h.epoch).window == LineOf(c, h.epoch).window + [h.score - p.ttlMs]
  {
    LineMoves(c, h, h.epoch, p);
    hide Check;
  }

  lemma WindowCounts(log: Log, e: Epoch, low: int, high: int, p: Profile)
    ensures CountIn(LineOf(Replay(log, p), e).window, low, high) == |Promotions(log, e, low, high, p)|
  {
    BooksMirror(log, e, p);
    hide Replay; hide CountIn; hide Promotions;
  }

  lemma RateMeans(log: Log, h: LogCommand, p: Profile)
    requires h.ZAdd?
    ensures Rate in InsertRules(LineOf(Replay(log, p), h.epoch), h, p) <==> OverRate(log, h, p)
  {
    hide Replay; hide Check; hide Promotions; hide CountIn; hide InsertRules; hide LineOf;
    if h.key == ActiveSet {
      var now := h.score - p.ttlMs;
      RateRule(LineOf(Replay(log, p), h.epoch), h, p);
      WindowGrows(Replay(log, p), h, p);
      ReplayMore(log, h, p);
      WindowCounts(log + [h], h.epoch, now - 1000, now, p);
    } else {
      OtherKeys(LineOf(Replay(log, p), h.epoch), h, p);
    }
  }

  lemma OtherKeys(l: Line, h: LogCommand, p: Profile)
    requires h.ZAdd? && h.key != ActiveSet
    ensures Rate !in InsertRules(l, h, p)
  {}

  lemma RepromotionRule(l: Line, h: LogCommand, p: Profile)
    requires h.ZAdd?
    ensures Repromotion in InsertRules(l, h, p) <==> h.key == ActiveSet && h.member in l.promoted
  {
    hide CountIn; hide Overtakes;
  }

  lemma RepromotionMeans(log: Log, h: LogCommand, p: Profile)
    requires h.ZAdd?
    ensures Repromotion in InsertRules(LineOf(Replay(log, p), h.epoch), h, p) <==> Again(log, h)
  {
    RepromotionRule(LineOf(Replay(log, p), h.epoch), h, p);
    BooksMirror(log, h.epoch, p);
    hide Replay; hide Promoted; hide InsertRules; hide Waits; hide Given; hide Left; hide Holds; hide Promotions; hide CountIn;
  }

  lemma FifoMeans(log: Log, h: LogCommand, p: Profile)
    requires h.ZAdd?
    ensures Fifo in InsertRules(LineOf(Replay(log, p), h.epoch), h, p) <==> OutOfOrder(log, h)
  {
    var l := LineOf(Replay(log, p), h.epoch);
    BooksMirror(log, h.epoch, p);
    hide Replay; hide Promoted; hide Given; hide Left; hide Waits; hide BudgetRules;
    if h.key == WaitingSet {
      if h.score in l.sequences { assert Has(l.sequences, h.score, l.sequences[h.score]); }
      forall m | Given(log, h.epoch, h.score, m) ensures Has(l.sequences, h.score, m) {}
    } else if h.key == ActiveSet {
      var m := h.member;
      if m in l.left { assert Has(l.left, m, l.left[m]); }
      forall q | Left(log, h.epoch, m, q) ensures Has(l.left, m, q) {}
      if Overtakes(l, m) {
        var x :| x in l.waiting && l.waiting[x] < l.left[m];
        assert Has(l.waiting, x, l.waiting[x]) && Left(log, h.epoch, m, l.left[m]) && Waits(log, h.epoch, x, l.waiting[x]);
      }
      forall q, x, r | Left(log, h.epoch, m, q) && Waits(log, h.epoch, x, r) && r < q ensures Overtakes(l, m) {
        assert Has(l.waiting, x, r);
      }
      FifoRules(l, h, p);
    }
  }

  lemma FifoRules(l: Line, h: LogCommand, p: Profile)
    requires h.ZAdd? && h.key == ActiveSet
    ensures Fifo in InsertRules(l, h, p) <==> (h.member !in l.promoted && h.member !in l.left) || Overtakes(l, h.member)
  {
    hide Overtakes;
  }

  // ----- claims and their slots ------------------------------------------------------------

  lemma {:induction false} StillIn(pending: seq<(Epoch, AdmissionId)>, h: LogCommand)
    ensures forall u :: u in StillPending(pending, Some(h)) <==> u in pending && RemovesMember(h, u.1)
    decreases |pending|
  {
    if pending != [] {
      var n := |pending| - 1;
      StillIn(pending[..n], h);
      assert pending == pending[..n] + [pending[n]];
    }
  }

  lemma UnslottedMoves(c: Checker, h: LogCommand, p: Profile, e: Epoch, m: AdmissionId)
    ensures (e, m) in Check(c, h, p).unslotted <==>
      (h.ZRem? && h.epoch == e && h.key == ActiveSet && h.member == m && m in LineOf(c, e).active && m in LineOf(c, e).claims)
      || ((e, m) in c.unslotted && RemovesMember(h, m))
  {
    CheckIs(c, h, p);
    hide Check; hide Judged; hide StillPending; hide PromotionRules; hide BudgetRules;
    StillIn(c.unslotted, h);
    if h.SetControl? { ControlLeavesLines(Judge(c, h), h); }
    hide ApplyControl;
  }

  lemma {:induction false} PendingIs(log: Log, p: Profile, e: Epoch, m: AdmissionId)
    ensures (e, m) in Replay(log, p).unslotted <==> Pending(log, e, m)
    decreases |log|
  {
    hide Check; hide Pending; hide Holds; hide RemovesMember; hide Mirrors;
    if log == [] {
      NothingPending(e, m);
    } else {
      var n := |log| - 1;
      PendingIs(log[..n], p, e, m);
      PendingMore(log[..n], log[n], e, m);
      assert log[..n] + [log[n]] == log;
      UnslottedMoves(Replay(log[..n], p), log[n], p, e, m);
      HoldsIs(log[..n], e, m, p);
    }
  }

  lemma NothingPending(e: Epoch, m: AdmissionId)
    ensures !Pending([], e, m)
  {}

  lemma HoldsIs(log: Log, e: Epoch, m: AdmissionId, p: Profile)
    ensures m in LineOf(Replay(log, p), e).active <==> Holds(log, e, ActiveSet, m)
    ensures m in LineOf(Replay(log, p), e).claims <==> Holds(log, e, ClaimSet, m)
  {
    BooksMirror(log, e, p);
    hide Replay; hide Holds;
  }

  lemma OutlivedIs(log: Log, e: Epoch, m: AdmissionId, p: Profile)
    ensures (e, m) in Replay(log, p).unslotted && Outlived(Replay(log, p).lines, e, m) <==> Outlives(log, e, m)
  {
    PendingIs(log, p, e, m);
    HoldsIs(log, e, m, p);
    hide Replay; hide Pending; hide Holds;
  }

  lemma ClaimRule(l: Line, h: LogCommand, p: Profile)
    requires h.ZAdd?
    ensures ClaimWithoutSlot in InsertRules(l, h, p) <==> h.key == ClaimSet && h.member !in l.active
  {
    hide CountIn; hide Overtakes;
  }

  /** What settling finds: a claim that outlived its slot, and is not just being removed. */
  lemma SettledMeans(log: Log, h: Option<LogCommand>, p: Profile)
    ensures ClaimWithoutSlot in Judged(Replay(log, p).unslotted, h, Replay(log, p).lines) <==>
      exists e, m :: Outlives(log, e, m) && !Kept(h, m)
  {
    hide Judged; hide Replay; hide Outlives; hide Kept; hide Outlived;
    var c := Replay(log, p);
    OnlyClaims(c.unslotted, h, c.lines);
    if ClaimWithoutSlot in Judged(c.unslotted, h, c.lines) {
      var u :| u in c.unslotted && !Kept(h, u.1) && Outlived(c.lines, u.0, u.1);
      OutlivedIs(log, u.0, u.1, p);
    }
    if exists e, m :: Outlives(log, e, m) && !Kept(h, m) {
      var e, m :| Outlives(log, e, m) && !Kept(h, m);
      OutlivedIs(log, e, m, p);
      var u := (e, m);
      assert u in c.unslotted && !Kept(h, u.1) && Outlived(c.lines, u.0, u.1);
    }
  }

  lemma ClaimMeans(log: Log, h: LogCommand, p: Profile)
    ensures ClaimWithoutSlot in Settled(Replay(log, p), h) || (h.ZAdd? && ClaimWithoutSlot in InsertRules(LineOf(Replay(log, p), h.epoch), h, p))
      <==> Slotless(log, h)
  {
    SettledMeans(log, Some(h), p);
    if h.ZAdd? {
      ClaimRule(LineOf(Replay(log, p), h.epoch), h, p);
      HoldsIs(log, h.epoch, h.member, p);
    }
    hide Replay; hide Outlives; hide Judged; hide Holds; hide InsertRules; hide LineOf;
    assert forall m :: Kept(Some(h), m) <==> RemovesMember(h, m);
  }

  // ----- every rule of the queue -----------------------------------------------------------

  lemma SettledOthers(c: Checker, h: LogCommand, r: Rule)
    requires r != ClaimWithoutSlot
    ensures r !in Settled(c, h)
  {
    OnlyClaims(c.unslotted, Some(h), c.lines);
    hide Judged;
  }

  lemma OneMoreReports(log: Log, h: LogCommand, p: Profile, r: Rule)
    requires OfQueue(r)
    ensures r in Replay(log + [h], p).violations <==> r in Replay(log, p).violations || Breaks(r, log, h, p)
  {
    hide Replay; hide Check; hide Settled; hide InsertRules; hide OverCapacity; hide OverRate; hide Again; hide OutOfOrder; hide Slotless;
    ReplayMore(log, h, p);
    var c := Replay(log, p);
    if h.ZAdd? { InsertAdds(c, h, p, r); } else { OtherAdds(c, h, p, r); NoInsertion(log, h, p); }
    if r != ClaimWithoutSlot { SettledOthers(c, h, r); }
    match r
    case Capacity => if h.ZAdd? { CapacityMeans(log, h, p); }
    case Rate => if h.ZAdd? { RateMeans(log, h, p); }
    case Repromotion => if h.ZAdd? { RepromotionMeans(log, h, p); }
    case Fifo => if h.ZAdd? { FifoMeans(log, h, p); }
    case ClaimWithoutSlot => ClaimMeans(log, h, p);
  }

  lemma NoInsertion(log: Log, h: LogCommand, p: Profile)
    requires !h.ZAdd?
    ensures !OverCapacity(log, h, p) && !OverRate(log, h, p) && !Again(log, h) && !OutOfOrder(log, h)
  {}

  lemma {:induction false} ReplayReports(log: Log, p: Profile, r: Rule)
    requires OfQueue(r)
    ensures r in Replay(log, p).violations <==> exists n | 0 <= n < |log| :: Breaks(r, log[..n], log[n], p)
    decreases |log|
  {
    hide Breaks; hide Check;
    if log != [] {
      var k := |log| - 1;
      var before := log[..k];
      ReplayReports(before, p, r);
      OneMoreReports(before, log[k], p, r);
      assert before + [log[k]] == log;
      hide Replay;
      if exists n | 0 <= n < k :: Breaks(r, before[..n], before[n], p) {
        var n :| 0 <= n < k && Breaks(r, before[..n], before[n], p);
        assert before[..n] == log[..n] && before[n] == log[n];
      }
      if exists n | 0 <= n < |log| :: Breaks(r, log[..n], log[n], p) {
        var n :| 0 <= n < |log| && Breaks(r, log[..n], log[n], p);
        if n < k { assert before[..n] == log[..n] && before[n] == log[n]; }
      }
    }
  }

  /** The checker reports a rule of the queue exactly if some command of the log breaks it, or, for claims, if
      the log ends with one that outlived its slot. */
  lemma QueueRulesAreReported(log: Log, p: Profile, r: Rule)
    requires OfQueue(r)
    ensures r in Verdict(log, p).violations <==>
      (exists n | 0 <= n < |log| :: Breaks(r, log[..n], log[n], p)) || (r == ClaimWithoutSlot && exists e, m :: Outlives(log, e, m))
  {
    hide Breaks; hide Replay; hide Outlives; hide Judged; hide StillPending;
    ReplayReports(log, p, r);
    var c := Replay(log, p);
    OnlyClaims(c.unslotted, None, c.lines);
    SettledMeans(log, None, p);
    assert forall m :: !Kept(None, m);
  }
}
