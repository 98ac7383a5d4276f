/** How the checker's state moves over the commands that one transition of the script issues. */
module ReplaySteps {
  import opened AdmissionTypes
  import opened TransitionLog
  import opened AdmissionSpace

  function CheckAll(c: Checker, hs: seq<LogCommand>, p: Profile): Checker
    decreases |hs|
  {
    if hs == [] then c else CheckAll(Check(c, hs[0], p), hs[1..], p)
  }

  lemma {:induction false} ReplayAppends(log: seq<LogCommand>, hs: seq<LogCommand>, p: Profile)
    ensures Replay(log + hs, p) == CheckAll(Replay(log, p), hs, p)
    decreases |hs|
  {
    hide Check;
    if hs == [] {
      assert log + hs == log;
    } else {
      var log1 := log + [hs[0]];
      assert log1[..|log|] == log;
      ReplayAppends(log1, hs[1..], p);
      assert log1 + hs[1..] == log + hs;
    }
  }

  lemma CheckOne(c: Checker, h: LogCommand, p: Profile)
    ensures CheckAll(c, [h], p) == Check(c, h, p)
  {
    hide Check;
    assert [h][1..] == [];
    assert CheckAll(Check(c, h, p), [], p) == Check(c, h, p);
  }

  lemma CheckFour(c0: Checker, c1: Checker, c2: Checker, c3: Checker, c4: Checker, hs: seq<LogCommand>, p: Profile)
    requires |hs| == 4
    requires c1 == Check(c0, hs[0], p) && c2 == Check(c1, hs[1], p) && c3 == Check(c2, hs[2], p) && c4 == Check(c3, hs[3], p)
    ensures CheckAll(c0, hs, p) == c4
  {
    hide Check;
    var t1, t2, t3 := hs[1..], hs[2..], hs[3..];
    assert t1[1..] == t2 && t2[1..] == t3;
    assert CheckAll(c3, t3, p) == c4 by {
      assert t3 == [hs[3]];
      CheckOne(c3, hs[3], p);
    }
    assert CheckAll(c2, t2, p) == c4;
    assert CheckAll(c1, t1, p) == c4;
  }

  /** No pending slot is still claimed. */
  ghost predicate Clean(c: Checker) {
    forall u | u in c.unslotted :: !Outlived(c.lines, u.0, u.1)
  }

  lemma {:induction false} SettlesWell(pending: seq<(Epoch, AdmissionId)>, h: Option<LogCommand>, lines: map<Epoch, Line>)
    requires forall u | u in pending :: Kept(h, u.1) || !Outlived(lines, u.0, u.1)
    ensures Judged(pending, h, lines) == []
    ensures forall u | u in StillPending(pending, h) :: u in pending && Kept(h, u.1)
  {
    if pending != [] {
      var n := |pending| - 1;
      SettlesWell(pending[..n], h, lines);
      assert pending[n] in pending;
    }
  }

  lemma SettlesQuietly(c: Checker, h: LogCommand)
    requires forall u | u in c.unslotted :: Kept(Some(h), u.1) || !Outlived(c.lines, u.0, u.1)
    ensures var c1 := Settle(c, Some(h));
      c1 == c.(unslotted := c1.unslotted) && forall u | u in c1.unslotted :: u in c.unslotted
  {
    SettlesWell(c.unslotted, Some(h), c.lines);
    assert c.violations + [] == c.violations;
  }

  /** One removal, when everything still pending is either judged well or is this very member. */
  lemma RemoveLine(c: Checker, e: Epoch, key: SetName, id: AdmissionId, p: Profile)
    requires forall u | u in c.unslotted :: u.1 == id || !Outlived(c.lines, u.0, u.1)
    ensures var l, d := LineOf(c, e), Check(c, ZRem(e, key, id), p);
      && d.violations == c.violations
      && (forall u | u in d.unslotted :: u in c.unslotted || (key == ActiveSet && u == (e, id)))
      && d.lines.Keys == c.lines.Keys + {e} && (forall x | x in c.lines && x != e :: d.lines[x] == c.lines[x])
      && LineOf(d, e) ==
         match key
         case WaitingSet =>
           if id in l.waiting then l.(left := l.left[id := l.waiting[id]], waiting := l.waiting - {id}) else l
         case ActiveSet => l.(left := l.left - {id}, active := l.active - {id})
         case ClaimSet => l.(left := l.left - {id}, claims := l.claims - {id})
         case _ => l
  {
    SettlesQuietly(c, ZRem(e, key, id));
  }

  /** The four removals of a terminal transition take an entry out of every set of its line. */
  lemma ClearLine(c: Checker, e: Epoch, id: AdmissionId, p: Profile)
    requires Clean(c) && LineOf(c, e).left == map[]
    ensures var l, d := LineOf(c, e), CheckAll(c, ClearLog(e, id), p);
      && LineOf(d, e) == l.(waiting := l.waiting - {id}, active := l.active - {id}, claims := l.claims - {id})
      && d.violations == c.violations
      && (forall u | u in d.unslotted :: u in c.unslotted || u == (e, id))
  {
    hide Check;
    var l, z := LineOf(c, e), ClearLog(e, id);
    RemoveLine(c, e, WaitingSet, id, p);
    var c1 := Check(c, z[0], p);
    RemoveLine(c1, e, LeaseSet, id, p);
    var c2 := Check(c1, z[1], p);
    RemoveLine(c2, e, ActiveSet, id, p);
    var c3 := Check(c2, z[2], p);
    var l3 := l.(waiting := l.waiting - {id}, active := l.active - {id});
    assert LineOf(c3, e) == l3 by {
      assert LineOf(c2, e).left - {id} == map[] == l.left;
      assert LineOf(c2, e).waiting == l.waiting - {id};
    }
    RemoveLine(c3, e, ClaimSet, id, p);
    var c4 := Check(c3, z[3], p);
    assert l3.left - {id} == l3.left;
    CheckFour(c, c1, c2, c3, c4, z, p);
  }

  /** Leaving the line and taking a slot: the checker finds nothing if the entry is first, never
      promoted before, and both budgets still have room. */
  lemma PromoteLine(c: Checker, e: Epoch, id: AdmissionId, now: int, p: Profile)
    requires Clean(c) && LineOf(c, e).left == map[]
    requires var l := LineOf(c, e);
      && id in l.waiting && id !in l.promoted
      && (forall x | x in l.waiting :: l.waiting[id] <= l.waiting[x])
      && |l.active + {id}| <= p.capacity
      && CountIn(l.window, now - 1000, now) < p.rate
    ensures var l, d := LineOf(c, e), CheckAll(c, PromoteLog(e, id, now, p), p);
      && LineOf(d, e) == l.(waiting := l.waiting - {id}, active := l.active + {id},
                            promoted := l.promoted + {id}, window := l.window + [now])
      && d.violations == c.violations
      && (forall u | u in d.unslotted :: u in c.unslotted)
  {
    hide Check;
    hide CountIn;
    hide CheckAll;
    var l, z := LineOf(c, e), PromoteLog(e, id, now, p);
    var slot, mark := ZAdd(e, ActiveSet, now + p.ttlMs, id), ZAdd(e, WindowSet, now, id);
    assert z[2] == slot && z[3] == mark;
    RemoveLine(c, e, WaitingSet, id, p);
    var c1 := Check(c, z[0], p);
    assert Clean(c1);
    RemoveLine(c1, e, LeaseSet, id, p);
    var c2 := Check(c1, z[1], p);
    assert Clean(c2);
    assert LineOf(c2, e) == l.(left := map[id := l.waiting[id]], waiting := l.waiting - {id});
    InsertActive(c2, e, id, now, p);
    var c3 := Check(c2, slot, p);
    assert Clean(c3);
    InsertQuietly(c3, mark, p);
    CheckFour(c, c1, c2, c3, Check(c3, mark, p), z, p);
  }

  predicate MayOccupy(l: Line, id: AdmissionId, now: int, p: Profile) {
    && id !in l.waiting && id !in l.promoted && l.left.Keys == {id}
    && (forall x | x in l.waiting :: l.left[id] <= l.waiting[x])
    && |l.active + {id}| <= p.capacity
    && CountIn(l.window, now - 1000, now) < p.rate
  }

  function Occupied(l: Line, id: AdmissionId, now: int): Line {
    l.(left := map[], active := l.active + {id}, promoted := l.promoted + {id}, window := l.window + [now])
  }

  lemma OccupyQuietly(c: Checker, e: Epoch, id: AdmissionId, now: int, p: Profile)
    requires MayOccupy(LineOf(c, e), id, now, p)
    ensures Occupy(c, e, now + p.ttlMs, id, p) ==
      c.(lines := c.lines[e := Occupied(LineOf(c, e), id, now)], promotions := c.promotions + 1)
  {
    var l := LineOf(c, e);
    assert !Overtakes(l, id);
    assert PromotionRules(l, id) == [];
    var l' := Occupied(l, id, now);
    assert l'.window[..|l.window|] == l.window;
    assert BudgetRules(l', now, p) == [];
    assert l.left - {id} == map[];
    assert c.violations + [] + [] == c.violations;
  }

  lemma InsertActive(c: Checker, e: Epoch, id: AdmissionId, now: int, p: Profile)
    requires Clean(c) && MayOccupy(LineOf(c, e), id, now, p)
    ensures var d := Check(c, ZAdd(e, ActiveSet, now + p.ttlMs, id), p);
      && LineOf(d, e) == Occupied(LineOf(c, e), id, now)
      && d.violations == c.violations && Clean(d)
      && (forall u | u in d.unslotted :: u in c.unslotted)
  {
    hide MayOccupy; hide Occupy;
    SettlesQuietly(c, ZAdd(e, ActiveSet, now + p.ttlMs, id));
    var c1 := Settle(c, Some(ZAdd(e, ActiveSet, now + p.ttlMs, id)));
    OccupyQuietly(c1, e, id, now, p);
  }

  /** A new lease or claim adds no violation: leases are not watched, a claim has its slot. */
  lemma InsertQuietly(c: Checker, h: LogCommand, p: Profile)
    requires Clean(c) && h.ZAdd?
    requires h.key == LeaseSet || h.key == WindowSet || (h.key == ClaimSet && h.member in LineOf(c, h.epoch).active)
    ensures var l, d := LineOf(c, h.epoch), Check(c, h, p);
      && LineOf(d, h.epoch) == (if h.key == ClaimSet then l.(claims := l.claims + {h.member}) else l)
      && d.violations == c.violations && forall u | u in d.unslotted :: u in c.unslotted
  {
    SettlesQuietly(c, h);
  }

  /** A new place at the end of the line. */
  lemma InsertWaiting(c: Checker, e: Epoch, sequence: int, id: AdmissionId, p: Profile)
    requires Clean(c) && sequence !in LineOf(c, e).sequences
    ensures var l, d := LineOf(c, e), Check(c, ZAdd(e, WaitingSet, sequence, id), p);
      && LineOf(d, e) == l.(sequences := l.sequences[sequence := id], waiting := l.waiting[id := sequence])
      && d.violations == c.violations && Clean(d) && forall u | u in d.unslotted :: u in c.unslotted
  {
    SettlesQuietly(c, ZAdd(e, WaitingSet, sequence, id));
  }
}
