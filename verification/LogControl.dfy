/** What the two rules of the control record mean, read off the log alone: under which process a record was
    created, and what was published, lost and published again. The checker reports them exactly then. */
module LogControl {
  import opened AdmissionTypes
  import opened TransitionLog
  import opened LogRules
  import opened LogMeaning

  // ----- run ids ---------------------------------------------------------------------------

  predicate Names(h: LogCommand, r: int) { h.SetControl? && h.runId == Some(r) }
  predicate Restarts(h: LogCommand) { h.Flush? && h.restart }

  ghost predicate Named(log: Log, r: int) {
    exists i | 0 <= i < |log| :: Names(log[i], r)
  }

  /** The process of this run id was replaced. */
  ghost predicate Replaced(log: Log, r: int) {
    exists k | 0 <= k < |log| :: Restarts(log[k]) && Named(log[..k], r)
  }

  /** A record created under the run id of a replaced process. */
  ghost predicate Stale(before: Log, h: LogCommand) {
    h.SetControl? && h.runId.Some? && Replaced(before, h.runId.value)
  }

  lemma NamedMore(log: Log, h: LogCommand, r: int)
    ensures Named(log + [h], r) <==> Named(log, r) || Names(h, r)
  {
    var more := log + [h];
    assert more[|log|] == h && forall i | 0 <= i < |log| :: more[i] == log[i];
    if Named(log, r) {
      var i :| 0 <= i < |log| && Names(log[i], r);
      assert Names(more[i], r);
    }
  }

  lemma ReplacedMore(log: Log, h: LogCommand, r: int)
    ensures Replaced(log + [h], r) <==> Replaced(log, r) || (Restarts(h) && Named(log, r))
  {
    hide Named;
    var more := log + [h];
    assert more[..|log|] == log && more[|log|] == h;
    if Replaced(log, r) {
      var k :| 0 <= k < |log| && Restarts(log[k]) && Named(log[..k], r);
      assert more[k] == log[k] && more[..k] == log[..k];
    }
    if Replaced(more, r) {
      var k :| 0 <= k < |more| && Restarts(more[k]) && Named(more[..k], r);
      if k < |log| { assert more[k] == log[k] && more[..k] == log[..k]; }
    }
  }

  lemma ControlNames(c: Checker, h: LogCommand)
    requires h.SetControl?
    ensures var t := ApplyControl(c, h);
      && t.gone == c.gone
      && forall r :: r in t.alive || r in t.gone <==> r in c.alive || r in c.gone || Names(h, r)
  {}

  lemma RunIdsMove(c: Checker, h: LogCommand, p: Profile, r: int)
    ensures var t := Check(c, h, p);
      && (r in t.gone <==> r in c.gone || (Restarts(h) && r in c.alive))
      && (r in t.alive || r in t.gone <==> r in c.alive || r in c.gone || Names(h, r))
  {
    CheckIs(c, h, p);
    hide Check; hide Judged; hide StillPending; hide PromotionRules; hide BudgetRules;
    if h.SetControl? { ControlNames(Judge(c, h), h); }
    hide ApplyControl;
  }

  lemma {:induction false} RunIdsAre(log: Log, p: Profile, r: int)
    ensures r in Replay(log, p).gone <==> Replaced(log, r)
    ensures r in Replay(log, p).alive || r in Replay(log, p).gone <==> Named(log, r)
    decreases |log|
  {
    hide Check;
    if log != [] {
      var n := |log| - 1;
      RunIdsAre(log[..n], p, r);
      RunIdsMove(Replay(log[..n], p), log[n], p, r);
      NamedMore(log[..n], log[n], r);
      ReplacedMore(log[..n], log[n], r);
      assert log[..n] + [log[n]] == log;
      if Replaced(log[..n], r) {
        var k :| 0 <= k < n && Restarts(log[..n][k]) && Named(log[..n][..k], r);
        var i :| 0 <= i < k && Names(log[..n][..k][i], r);
        assert Names(log[..n][i], r);
      }
    }
  }

  // ----- generations -----------------------------------------------------------------------

  const NO_VIEW := ControlView(None, None, None)

  /** The log takes the record away. */
  predicate Loses(h: LogCommand) { h.Flush? || (h.Unlink? && h.control) }

  function Later<T>(given: Option<T>, before: Option<T>): Option<T> {
    if given.Some? then given else before
  }

  /** The record after its fields are set. */
  function Updated(v: ControlView, h: LogCommand): ControlView
    requires h.SetControl?
  {
    ControlView(Later(h.generation, v.generation), Later(h.epochField, v.epoch), Later(h.mode, v.mode))
  }

  /** The record as the log leaves it: what each of its fields was last set to since it was last lost. */
  function ViewAfter(log: Log): ControlView {
    if log == [] then NO_VIEW else
      var h, v := log[|log| - 1], ViewAfter(log[..|log| - 1]);
      if Loses(h) then NO_VIEW
      else if h.SetControl? then Updated(v, h)
      else v
  }

  function Number(v: ControlView): nat {
    match v.generation case Some(g) => g case None => 0
  }

  /** The command changes the record into this one. */
  predicate Changes(before: Log, h: LogCommand, v: ControlView) {
    h.SetControl? && v == ViewAfter(before + [h]) && v != ViewAfter(before)
  }

  predicate Publishes(before: Log, h: LogCommand, g: nat, e: Option<Epoch>) {
    var v := ViewAfter(before + [h]);
    Changes(before, h, v) && v.mode == Some(Ready) && Number(v) == g && v.epoch == e
  }

  /** The record is lost, or this generation of it frozen. */
  predicate Closes(before: Log, h: LogCommand, g: nat, e: Option<Epoch>) {
    var v := ViewAfter(before + [h]);
    Loses(h) || (Changes(before, h, v) && v.mode == Some(Frozen) && Number(v) == g && v.epoch == e)
  }

  ghost predicate Opened(log: Log, g: nat, e: Option<Epoch>) {
    exists i | 0 <= i < |log| :: Publishes(log[..i], log[i], g, e)
  }

  /** Published, and after that lost or frozen. */
  ghost predicate Ended(log: Log, g: nat, e: Option<Epoch>) {
    exists k | 0 <= k < |log| :: Closes(log[..k], log[k], g, e) && Opened(log[..k], g, e)
  }

  /** A record that is not frozen after a greater generation was published; or a published generation
      published again, for another epoch or after it was lost or frozen. */
  ghost predicate Reopens(before: Log, h: LogCommand) {
    var v := ViewAfter(before + [h]);
    && Changes(before, h, v)
    && v.mode != Some(Frozen)
    && exists g: nat, e: Option<Epoch> :: Opened(before, g, e) && (Number(v) < g || (v.mode == Some(Ready) && Number(v) == g && (v.epoch != e || Ended(before, g, e))))
  }

  lemma OpenedMore(log: Log, h: LogCommand, g: nat, e: Option<Epoch>)
    ensures Opened(log + [h], g, e) <==> Opened(log, g, e) || Publishes(log, h, g, e)
  {
    hide Publishes;
    var more := log + [h];
    assert more[..|log|] == log && more[|log|] == h;
    if Opened(log, g, e) {
      var i :| 0 <= i < |log| && Publishes(log[..i], log[i], g, e);
      assert more[i] == log[i] && more[..i] == log[..i];
    }
    if Opened(more, g, e) {
      var i :| 0 <= i < |more| && Publishes(more[..i], more[i], g, e);
      if i < |log| { assert more[i] == log[i] && more[..i] == log[..i]; }
    }
  }

  lemma EndedMore(log: Log, h: LogCommand, g: nat, e: Option<Epoch>)
    ensures Ended(log + [h], g, e) <==> Ended(log, g, e) || (Opened(log, g, e) && Closes(log, h, g, e))
  {
    hide Closes; hide Opened;
    var more := log + [h];
    assert more[..|log|] == log && more[|log|] == h;
    if Ended(log, g, e) {
      var k :| 0 <= k < |log| && Closes(log[..k], log[k], g, e) && Opened(log[..k], g, e);
      assert more[k] == log[k] && more[..k] == log[..k];
    }
    if Ended(more, g, e) {
      var k :| 0 <= k < |more| && Closes(more[..k], more[k], g, e) && Opened(more[..k], g, e);
      if k < |log| { assert more[k] == log[k] && more[..k] == log[..k]; }
    }
  }

  /** A generation that ended was once opened. */
  lemma EndedWasOpened(log: Log, g: nat, e: Option<Epoch>)
    requires Ended(log, g, e)
    ensures Opened(log, g, e)
  {
    hide Publishes; hide Closes;
    var k :| 0 <= k < |log| && Closes(log[..k], log[k], g, e) && Opened(log[..k], g, e);
    var i :| 0 <= i < k && Publishes(log[..k][..i], log[..k][i], g, e);
    assert log[..k][..i] == log[..i] && log[..k][i] == log[i];
  }

  // ----- the checker's record of publications ----------------------------------------------

  function ViewIn(c: Checker): ControlView {
    match c.current case Some(v) => v case None => NO_VIEW
  }

  /** The greatest published generation, its epoch, and whether it ended. */
  ghost predicate Notes(c: Checker, log: Log) {
    && ViewIn(c) == ViewAfter(log)
    && (c.published.None? ==> forall g: nat, e: Option<Epoch> :: !Opened(log, g, e))
    && (c.published.Some? ==>
          var q := c.published.value;
          && Opened(log, q.generation, q.epoch)
          && (forall g: nat, e: Option<Epoch> | Opened(log, g, e) :: g <= q.generation)
          && (q.closed <==> Ended(log, q.generation, q.epoch))
          && (Generation in c.violations || forall e | Opened(log, q.generation, e) :: e == q.epoch))
  }

  lemma ViewMore(log: Log, h: LogCommand)
    ensures ViewAfter(log + [h]) ==
      if Loses(h) then NO_VIEW
      else if h.SetControl? then Updated(ViewAfter(log), h)
      else ViewAfter(log)
  {
    assert (log + [h])[..|log|] == log;
  }

  /** What the checker notes of the record, command by command. */
  lemma NotesMove(c: Checker, h: LogCommand, p: Profile)
    ensures var t := Check(c, h, p);
      if Loses(h) then ViewIn(t) == NO_VIEW && t.published == (if c.published.Some? then Some(c.published.value.(closed := true)) else None)
      else if h.SetControl? then
        var v := ViewIn(c);
        var now := Updated(v, h);
        ViewIn(t) == now && t.published == if now == v then c.published else ApplyChange(c, now).published
      else ViewIn(t) == ViewIn(c) && t.published == c.published
  {
    CheckIs(c, h, p);
    hide Check; hide Judged; hide StillPending; hide PromotionRules; hide BudgetRules;
  }

  lemma NoControlRules(l: Line, h: LogCommand, p: Profile)
    requires h.ZAdd?
    ensures Generation !in InsertRules(l, h, p) && RunId !in InsertRules(l, h, p)
  {
    hide CountIn; hide Overtakes;
  }

  /** What is wrong with this as the next record. */
  predicate Objects(c: Checker, now: ControlView) {
    && now != ViewIn(c) && now.mode != Some(Frozen) && c.published.Some?
    && var q := c.published.value;
       || Number(now) < q.generation
       || (now.mode == Some(Ready) && Number(now) == q.generation && (now.epoch != q.epoch || q.closed))
  }

  /** What it adds to the violations of the record. */
  lemma ControlAdds(c: Checker, h: LogCommand, p: Profile)
    ensures var t := Check(c, h, p);
      && (RunId in t.violations <==> RunId in c.violations || (h.SetControl? && h.runId.Some? && h.runId.value in c.gone))
      && (Generation in t.violations <==> Generation in c.violations || (h.SetControl? && Objects(c, Updated(ViewIn(c), h))))
  {
    SettledOthers(c, h, RunId);
    SettledOthers(c, h, Generation);
    if h.ZAdd? {
      InsertAdds(c, h, p, RunId); InsertAdds(c, h, p, Generation);
      NoControlRules(LineOf(c, h.epoch), h, p);
    } else {
      CheckIs(c, h, p);
      JudgeAdds(c, h);
      if h.SetControl? { ControlReports(Judge(c, h), h); }
    }
    hide Check; hide Settled; hide InsertRules; hide Judged; hide StillPending; hide ApplyControl;
  }

  lemma ControlReports(c: Checker, h: LogCommand)
    requires h.SetControl?
    ensures var t := ApplyControl(c, h);
      && (RunId in t.violations <==> RunId in c.violations || (h.runId.Some? && h.runId.value in c.gone))
      && (Generation in t.violations <==> Generation in c.violations || Objects(c, Updated(ViewIn(c), h)))
  {}

  lemma NotesKeep(log: Log, h: LogCommand, c: Checker, p: Profile)
    requires Notes(c, log)
    ensures Notes(Check(c, h, p), log + [h])
    ensures Generation in Check(c, h, p).violations <==> Generation in c.violations || Reopens(log, h)
  {
    hide Check; hide Opened; hide Ended; hide ViewAfter;
    ViewMore(log, h);
    NotesMove(c, h, p);
    ControlAdds(c, h, p);
    forall g: nat, e: Option<Epoch> ensures Opened(log + [h], g, e) <==> Opened(log, g, e) || Publishes(log, h, g, e) { OpenedMore(log, h, g, e); }
    forall g: nat, e: Option<Epoch> ensures Ended(log + [h], g, e) <==> Ended(log, g, e) || (Opened(log, g, e) && Closes(log, h, g, e)) { EndedMore(log, h, g, e); }
    forall g: nat, e: Option<Epoch> | Ended(log, g, e) ensures Opened(log, g, e) { EndedWasOpened(log, g, e); }
  }

  lemma {:induction false} NotesAre(log: Log, p: Profile)
    ensures Notes(Replay(log, p), log)
    decreases |log|
  {
    hide Check; hide Opened; hide Ended; hide Reopens;
    if log == [] {
      NothingOpened();
    } else {
      var k := |log| - 1;
      NotesAre(log[..k], p);
      assert log[..k] + [log[k]] == log;
      NotesKeep(log[..k], log[k], Replay(log[..k], p), p);
    }
  }

  /** What one more command adds to the rules of the record. */
  lemma OneMoreObjects(log: Log, h: LogCommand, p: Profile)
    ensures Generation in Replay(log + [h], p).violations <==> Generation in Replay(log, p).violations || Reopens(log, h)
    ensures RunId in Replay(log + [h], p).violations <==> RunId in Replay(log, p).violations || Stale(log, h)
  {
    ReplayMore(log, h, p);
    NotesAre(log, p);
    NotesKeep(log, h, Replay(log, p), p);
    ControlAdds(Replay(log, p), h, p);
    if h.SetControl? && h.runId.Some? { RunIdsAre(log, p, h.runId.value); }
    hide Check; hide Reopens; hide Notes; hide Replay; hide Replaced; hide Objects;
  }

  lemma {:induction false} ReplayObjects(log: Log, p: Profile)
    ensures Generation in Replay(log, p).violations <==> exists n | 0 <= n < |log| :: Reopens(log[..n], log[n])
    ensures RunId in Replay(log, p).violations <==> exists n | 0 <= n < |log| :: Stale(log[..n], log[n])
    decreases |log|
  {
    hide Check; hide Reopens; hide Stale;
    if log != [] {
      var k := |log| - 1;
      var before := log[..k];
      ReplayObjects(before, p);
      assert before + [log[k]] == log;
      OneMoreObjects(before, log[k], p);
      assert forall n | 0 <= n < k :: before[..n] == log[..n] && before[n] == log[n];
      hide Replay;
      assert (exists n | 0 <= n < k :: Reopens(before[..n], before[n])) <==> exists n | 0 <= n < k :: Reopens(log[..n], log[n]);
      assert (exists n | 0 <= n < k :: Stale(before[..n], before[n])) <==> exists n | 0 <= n < k :: Stale(log[..n], log[n]);
    }
  }

  lemma NothingOpened()
    ensures forall g: nat, e: Option<Epoch> :: !Opened([], g, e)
  {}

  /** The checker reports the generation rule exactly if a command of the log opens a generation again or falls
      below one, and the run-id rule exactly if one creates a record under a replaced process. */
  lemma ControlRulesAreReported(log: Log, p: Profile)
    ensures Generation in Verdict(log, p).violations <==> exists n | 0 <= n < |log| :: Reopens(log[..n], log[n])
    ensures RunId in Verdict(log, p).violations <==> exists n | 0 <= n < |log| :: Stale(log[..n], log[n])
  {
    ReplayObjects(log, p);
    var c := Replay(log, p);
    OnlyClaims(c.unslotted, None, c.lines);
    hide Replay; hide Reopens; hide Stale; hide Judged; hide StillPending; hide Notes;
  }

  // ----- what else the replay reports ------------------------------------------------------

  /** The promotions of the log, by their place in it. */
  ghost function AllPromotions(log: Log): set<int> {
    set i | 0 <= i < |log| && TakesSlot(log[i])
  }

  lemma OneMorePromotion(log: Log, h: LogCommand)
    ensures |AllPromotions(log + [h])| == |AllPromotions(log)| + if TakesSlot(h) then 1 else 0
  {
    var more := log + [h];
    assert AllPromotions(more) == if TakesSlot(h) then AllPromotions(log) + {|log|} else AllPromotions(log) by {
      forall i ensures i in AllPromotions(more) <==> i in AllPromotions(log) || (i == |log| && TakesSlot(h)) {
        if 0 <= i < |log| { assert more[i] == log[i]; }
      }
    }
  }

  lemma PromotionsMove(c: Checker, h: LogCommand, p: Profile)
    ensures Check(c, h, p).promotions == c.promotions + if TakesSlot(h) then 1 else 0
  {
    CheckIs(c, h, p);
    hide Check; hide Judged; hide StillPending; hide PromotionRules; hide BudgetRules;
    if h.SetControl? { ControlLeavesLines(Judge(c, h), h); }
    hide ApplyControl;
  }

  lemma {:induction false} PromotionsAre(log: Log, p: Profile)
    ensures Replay(log, p).promotions == |AllPromotions(log)|
    decreases |log|
  {
    hide Check; hide TakesSlot;
    if log == [] {
      assert AllPromotions(log) == {};
    } else {
      var n := |log| - 1;
      PromotionsAre(log[..n], p);
      PromotionsMove(Replay(log[..n], p), log[n], p);
      OneMorePromotion(log[..n], log[n]);
      assert log[..n] + [log[n]] == log;
    }
  }

  /** The promotions it counts are the insertions into an active set, the sets it ends with hold what was
      inserted and neither removed nor lost since, and the record it ends with is what its fields were last set to. */
  lemma BooksAreTheLog(log: Log, p: Profile, e: Epoch)
    ensures var v := Verdict(log, p);
      && v.promotions == |set i | 0 <= i < |log| && log[i].ZAdd? && log[i].key == ActiveSet|
      && (forall m, q :: Has(LineOf(v, e).waiting, m, q) <==> Waits(log, e, m, q))
      && (forall m :: m in LineOf(v, e).active <==> Holds(log, e, ActiveSet, m))
      && (forall m :: m in LineOf(v, e).claims <==> Holds(log, e, ClaimSet, m))
      && (match v.current case Some(now) => now == ViewAfter(log) case None => ViewAfter(log) == NO_VIEW)
  {
    BooksMirror(log, e, p);
    PromotionsAre(log, p);
    NotesAre(log, p);
    assert AllPromotions(log) == set i | 0 <= i < |log| && log[i].ZAdd? && log[i].key == ActiveSet;
    hide Replay; hide Waits; hide Holds; hide Left; hide Given; hide Promotions; hide Promoted; hide Judged; hide StillPending; hide ViewAfter; hide Opened; hide Ended; hide AllPromotions;
  }
}
