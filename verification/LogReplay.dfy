/** The transition-log checker as it runs: one pass over the log that updates its maps, sets and
    violations in place. TransitionLog says what each turn computes; this proves that the pass
    computes it. */
module LogReplay {
  import opened AdmissionTypes
  import opened TransitionLog

  class Replayer {
    var lines: map<Epoch, Line>
    var unslotted: seq<(Epoch, AdmissionId)>
    var current: Option<ControlView>
    var published: Option<Published>
    var alive: set<int>
    var gone: set<int>
    var promotions: nat
    var violations: seq<Rule>

    constructor ()
      ensures View() == EMPTY_CHECKER
    {
      lines, unslotted, current, published := map[], [], None, None;
      alive, gone, promotions, violations := {}, {}, 0, [];
    }

    function View(): Checker
      reads this
    {
      Checker(lines, unslotted, current, published, alive, gone, promotions, violations)
    }

    method Report(rule: Rule)
      modifies this`violations
      ensures View() == old(View()).(violations := old(violations) + [rule])
    {
      violations := violations + [rule];
    }

    /** Judge the slots that were just removed, keeping those the command goes on to remove. */
    method SettleNow(command: Option<LogCommand>)
      modifies this`unslotted, this`violations
      ensures View() == Settle(old(View()), command)
    {
      var kept: seq<(Epoch, AdmissionId)> := [];
      ghost var before := violations;
      var i := 0;
      while i < |unslotted|
        invariant 0 <= i <= |unslotted|
        invariant unslotted == old(unslotted)
        invariant kept == StillPending(unslotted[..i], command)
        invariant violations == before + Judged(unslotted[..i], command, lines)
      {
        var (e, m) := unslotted[i];
        assert unslotted[..i + 1][..i] == unslotted[..i];
        if command.Some? && command.value.ZRem? && command.value.member == m {
          kept := kept + [(e, m)];
        } else if e in lines && m in lines[e].claims && m !in lines[e].active {
          violations := violations + [ClaimWithoutSlot];
        }
        i := i + 1;
      }
      assert unslotted[..i] == unslotted;
      unslotted := kept;
    }

    method LoseControl()
      modifies this`current, this`published
      ensures View() == Lose(old(View()))
    {
      current := None;
      if published.Some? { published := Some(published.value.(closed := true)); }
    }

    method SetControlFields(h: LogCommand)
      requires h.SetControl?
      modifies this`current, this`published, this`alive, this`violations
      ensures View() == ApplyControl(old(View()), h)
    {
      if h.runId.Some? {
        if h.runId.value in gone { violations := violations + [RunId]; } else { alive := alive + {h.runId.value}; }
      }
      var before := if current.Some? then current.value else ControlView(None, None, None);
      var now := before;
      if h.generation.Some? { now := now.(generation := h.generation); }
      if h.epochField.Some? { now := now.(epoch := h.epochField); }
      if h.mode.Some? { now := now.(mode := h.mode); }
      if now == before { return; }
      current := Some(now);
      ApplyChanged(now);
    }

    method ApplyChanged(now: ControlView)
      modifies this`published, this`violations
      ensures View() == ApplyChange(old(View()), now)
    {
      var generation := if now.generation.Some? then now.generation.value else 0;
      if now.mode == Some(Frozen) {
        if published.Some? && published.value.generation == generation && published.value.epoch == now.epoch {
          published := Some(published.value.(closed := true));
        }
        return;
      }
      if published.Some? && generation < published.value.generation {
        Report(Generation);
        return;
      }
      if now.mode != Some(Ready) { return; }
      if published.Some? && generation == published.value.generation {
        if published.value.epoch != now.epoch { Report(Generation); }
        else if published.value.closed { Report(Generation); }
        return;
      }
      published := Some(Published(generation, now.epoch, false));
    }

    method Remove(e: Epoch, key: SetName, m: AdmissionId)
      modifies this`lines, this`unslotted
      ensures View() == RemoveFrom(old(View()), e, key, m)
    {
      var l := if e in lines then lines[e] else EMPTY_LINE;
      if key == WaitingSet {
        if m in l.waiting { l := l.(left := l.left[m := l.waiting[m]], waiting := l.waiting - {m}); }
      } else if key == ActiveSet || key == ClaimSet {
        l := l.(left := l.left - {m});
        if key == ClaimSet {
          l := l.(claims := l.claims - {m});
        } else {
          if m in l.active && m in l.claims { unslotted := unslotted + [(e, m)]; }
          l := l.(active := l.active - {m});
        }
      }
      lines := lines[e := l];
    }

    method Queue(e: Epoch, sequence: int, m: AdmissionId)
      modifies this`lines, this`violations
      ensures View() == Enqueue(old(View()), e, sequence, m)
    {
      var l := if e in lines then lines[e] else EMPTY_LINE;
      if sequence in l.sequences && l.sequences[sequence] != m { Report(Fifo); }
      lines := lines[e := l.(sequences := l.sequences[sequence := m], waiting := l.waiting[m := sequence])];
    }

    method JudgePromotion(l: Line, m: AdmissionId)
      modifies this`violations
      ensures View() == old(View()).(violations := old(violations) + PromotionRules(l, m))
    {
      ghost var before := violations;
      if m in l.promoted { Report(Repromotion); } else if m !in l.left { Report(Fifo); }
      if m in l.left {
        var sequence := l.left[m];
        var ahead := set x | x in l.waiting && l.waiting[x] < sequence;
        AheadOvertakes(l, m, ahead);
        if ahead != {} { Report(Fifo); }
      }
      assert violations == before + PromotionRules(l, m);
    }

    method JudgeBudgets(l: Line, now: int, profile: Profile)
      modifies this`violations
      ensures View() == old(View()).(violations := old(violations) + BudgetRules(l, now, profile))
    {
      ghost var before := violations;
      if |l.active| > profile.capacity { Report(Capacity); }
      var inSecond := Count(l.window, now - 1000, now);
      if inSecond > profile.rate { Report(Rate); }
      assert violations == before + BudgetRules(l, now, profile);
    }

    method Seat(e: Epoch, score: int, m: AdmissionId, profile: Profile)
      modifies this`lines, this`violations, this`promotions
      ensures View() == Occupy(old(View()), e, score, m, profile)
    {
      hide PromotionRules; hide BudgetRules;
      var l := if e in lines then lines[e] else EMPTY_LINE;
      promotions := promotions + 1;
      JudgePromotion(l, m);
      var now := score - profile.ttlMs;
      l := l.(left := l.left - {m}, promoted := l.promoted + {m}, active := l.active + {m}, window := l.window + [now]);
      JudgeBudgets(l, now, profile);
      lines := lines[e := l];
    }

    /** One command of the log. */
    method Turn(h: LogCommand, profile: Profile)
      modifies this
      ensures View() == Check(old(View()), h, profile)
    {
      hide Settle; hide ApplyControl; hide RemoveFrom; hide Enqueue; hide Occupy;
      if h.Flush? && h.restart {
        unslotted, gone, alive := [], gone + alive, {};
      } else {
        SettleNow(Some(h));
      }
      match h {
        case Flush(_) =>
          lines := map[];
          LoseControl();
        case Unlink(control, sets) =>
          lines := lines - sets;
          if control { LoseControl(); }
        case SetControl(_, _, _, _) => SetControlFields(h);
        case ZRem(e, key, m) => Remove(e, key, m);
        case ZAdd(e, key, score, m) =>
          if key == WaitingSet { Queue(e, score, m); }
          else if key == ActiveSet { Seat(e, score, m, profile); }
          else {
            var l := if e in lines then lines[e] else EMPTY_LINE;
            if key == ClaimSet {
              if m !in l.active { Report(ClaimWithoutSlot); }
              l := l.(claims := l.claims + {m});
            }
            lines := lines[e := l];
          }
        case Other =>
      }
    }
  }

  lemma AheadOvertakes(l: Line, m: AdmissionId, ahead: set<AdmissionId>)
    requires m in l.left && ahead == set x | x in l.waiting && l.waiting[x] < l.left[m]
    ensures ahead != {} <==> Overtakes(l, m)
  {
    if ahead != {} {
      assert (forall x :: x !in ahead) ==> ahead == {};
      var x :| x in ahead;
      assert x in l.waiting && l.waiting[x] < l.left[m];
    }
    if Overtakes(l, m) {
      var x :| x in l.waiting && l.waiting[x] < l.left[m];
      assert x in ahead;
    }
  }

  method Count(window: seq<int>, low: int, high: int) returns (n: nat)
    ensures n == CountIn(window, low, high)
  {
    n := 0;
    var i := 0;
    while i < |window|
      invariant 0 <= i <= |window|
      invariant n == CountIn(window[..i], low, high)
    {
      assert window[..i + 1][..i] == window[..i];
      if low < window[i] <= high { n := n + 1; }
      i := i + 1;
    }
    assert window[..i] == window;
  }

  method ReplayAdmissionLog(log: seq<LogCommand>, profile: Profile) returns (violations: seq<Rule>, promotions: nat, lines: map<Epoch, Line>)
    ensures var verdict := Verdict(log, profile);
      violations == verdict.violations && promotions == verdict.promotions && lines == verdict.lines
  {
    hide Check; hide Settle;
    var r := new Replayer();
    var i := 0;
    while i < |log|
      invariant 0 <= i <= |log|
      invariant r.View() == Replay(log[..i], profile)
    {
      r.Turn(log[i], profile);
      assert log[..i + 1][..i] == log[..i];
      i := i + 1;
    }
    assert log[..i] == log;
    r.SettleNow(None);
    violations, promotions, lines := r.violations, r.promotions, r.lines;
  }
}
