/** One epoch's share of the log: what its operations add, and that they mean the same to the checker
    whatever else the log holds. */
module EpochLog {
  import opened AdmissionTypes
  import opened SortedSet
  import opened TransitionLog
  import opened ReplaySteps
  import opened AdmissionSpace

  // ----- what operations add ---------------------------------------------------------------

  predicate Own(h: LogCommand, e: Epoch) {
    (h.ZAdd? || h.ZRem?) && h.epoch == e
  }

  ghost predicate AllOwn(hs: seq<LogCommand>, e: Epoch) {
    forall i | 0 <= i < |hs| :: Own(hs[i], e)
  }

  /** The log only gained commands on the sets of this epoch. */
  ghost predicate Grown(s: Space, t: Space) {
    t.epoch == s.epoch && s.log <= t.log && AllOwn(t.log[|s.log|..], s.epoch)
  }

  lemma GrownTwice(s: Space, t: Space, u: Space)
    requires Grown(s, t) && Grown(t, u)
    ensures Grown(s, u)
  {
    assert u.log[|s.log|..] == t.log[|s.log|..] + u.log[|t.log|..];
  }

  lemma GrownBy(s: Space, t: Space, hs: seq<LogCommand>)
    requires t.epoch == s.epoch && t.log == s.log + hs && AllOwn(hs, s.epoch)
    ensures Grown(s, t)
  {
    assert t.log[|s.log|..] == hs;
  }

  lemma SameLogGrown(s: Space, t: Space)
    requires t.epoch == s.epoch && t.log == s.log
    ensures Grown(s, t)
  {}

  lemma RetireGrows(s: Space, id: AdmissionId, e: Entry)
    ensures Grown(s, Retire(s, id, e))
  {
    GrownBy(s, Retire(s, id, e), ClearLog(s.epoch, id));
  }

  lemma TerminalGrows(s: Space, id: AdmissionId, state: EntryState, reason: Option<Code>)
    ensures Grown(s, Terminal(s, id, state, reason))
  {
    hide Retire;
    if id in s.entries { RetireGrows(s, id, Ended(s.entries[id], state, reason)); } else { SameLogGrown(s, s); }
  }

  lemma ExpireGrows(s: Space, id: AdmissionId, now: int)
    ensures Grown(s, Expire(s, id, now))
  {
    hide Terminal;
    TerminalGrows(s, id, Expired, Some(AdmissionExpired));
    SameLogGrown(s, s);
  }

  lemma RenewGrows(s: Space, id: AdmissionId, now: int, p: Profile)
    ensures Grown(s, Renew(s, id, now, p))
  {
    if IsState(s, id, Waiting) { GrownBy(s, Renew(s, id, now, p), [ZAdd(s.epoch, LeaseSet, now + p.leaseMs, id)]); } else { SameLogGrown(s, s); }
  }

  lemma RefreshGrows(s: Space, id: AdmissionId, now: int, p: Profile)
    ensures Grown(s, Renew(Expire(s, id, now), id, now, p))
  {
    hide Expire; hide Renew; hide Grown;
    ExpireGrows(s, id, now);
    RenewGrows(Expire(s, id, now), id, now, p);
    GrownTwice(s, Expire(s, id, now), Renew(Expire(s, id, now), id, now, p));
  }

  lemma RegisterGrows(s: Space, id: AdmissionId, user: UserId, join: JoinId, now: int, p: Profile)
    ensures Grown(s, Register(s, id, user, join, now, p))
  {
    GrownBy(s, Register(s, id, user, join, now, p),
            [ZAdd(s.epoch, WaitingSet, s.sequence + 1, id), ZAdd(s.epoch, LeaseSet, now + p.leaseMs, id)]);
  }

  lemma JoinGrows(s: Space, user: UserId, join: JoinId, id: AdmissionId, now: int, p: Profile)
    ensures Grown(s, Join(s, user, join, id, now, p).0)
  {
    hide Expire; hide Renew; hide Register; hide Snapshot; hide Denial; hide Grown;
    SameLogGrown(s, s);
    if join in s.joins {
      RefreshGrows(s, s.joins[join], now, p);
    } else {
      var s1 := if user in s.users then Expire(s, s.users[user], now) else s;
      if user in s.users { ExpireGrows(s, s.users[user], now); }
      RegisterGrows(s1, id, user, join, now, p);
      GrownTwice(s, s1, Register(s1, id, user, join, now, p));
    }
  }

  lemma {:induction false} ExpireAllGrows(s: Space, ids: seq<AdmissionId>, now: int)
    ensures Grown(s, ExpireAll(s, ids, now))
    decreases |ids|
  {
    hide Expire; hide Grown;
    if ids == [] {
      SameLogGrown(s, s);
    } else {
      ExpireGrows(s, ids[0], now);
      ExpireAllGrows(Expire(s, ids[0], now), ids[1..], now);
      GrownTwice(s, Expire(s, ids[0], now), ExpireAll(s, ids, now));
    }
  }

  lemma {:induction false} ExpireIdleGrows(s: Space, ids: seq<AdmissionId>, now: int, cleaned: nat, cleanup: nat)
    ensures Grown(s, ExpireIdle(s, ids, now, cleaned, cleanup).0)
    decreases |ids|
  {
    hide Expire; hide Grown; hide IdleDue;
    if ids == [] {
      SameLogGrown(s, s);
    } else if cleaned < cleanup && IdleDue(s, ids[0], now) {
      ExpireGrows(s, ids[0], now);
      ExpireIdleGrows(Expire(s, ids[0], now), ids[1..], now, cleaned + 1, cleanup);
      GrownTwice(s, Expire(s, ids[0], now), ExpireIdle(s, ids, now, cleaned, cleanup).0);
    } else {
      ExpireIdleGrows(s, ids[1..], now, cleaned, cleanup);
    }
  }

  lemma PromoteGrows(s: Space, id: AdmissionId, now: int, p: Profile)
    ensures Grown(s, Promote(s, id, now, p))
  {
    if id in s.entries { GrownBy(s, Promote(s, id, now, p), PromoteLog(s.epoch, id, now, p)); } else { SameLogGrown(s, s); }
  }

  lemma {:induction false} PromoteUpToGrows(s: Space, n: int, now: int, p: Profile)
    ensures Grown(s, PromoteUpTo(s, n, now, p).0)
    decreases Slots(n)
  {
    hide Promote; hide Grown;
    SameLogGrown(s, s);
    if n > 0 && s.waiting != map[] {
      var first := First(s.waiting);
      if first in s.entries && s.entries[first].expiresAt.Some? && s.entries[first].expiresAt.value > now {
        PromoteGrows(s, first, now, p);
        PromoteUpToGrows(Promote(s, first, now, p), n - 1, now, p);
        GrownTwice(s, Promote(s, first, now, p), PromoteUpTo(s, n, now, p).0);
      }
    }
  }

  lemma TickGrows(s: Space, now: int, p: Profile)
    ensures Grown(s, Tick(s, now, p).0)
  {
    hide Grown; hide ExpireAll; hide ExpireIdle; hide PromoteUpTo; hide RangeByScore; hide Range; hide Headroom; hide DropUpTo;
    var late := RangeByScore(s.leases, now, p.cleanup);
    var s1 := ExpireAll(s, late, now);
    var s2 := ExpireIdle(s1, Range(s1.active, Slots(p.capacity)), now, |late|, p.cleanup).0;
    var s3 := Prune(s2, now);
    ExpireAllGrows(s, late, now);
    ExpireIdleGrows(s1, Range(s1.active, Slots(p.capacity)), now, |late|, p.cleanup);
    SameLogGrown(s2, s3);
    GrownTwice(s, s1, s2);
    GrownTwice(s, s2, s3);
    PromoteUpToGrows(s3, Headroom(s3, p), now, p);
    GrownTwice(s, s3, PromoteUpTo(s3, Headroom(s3, p), now, p).0);
  }

  lemma {:induction false} MarkAllGrows(s: Space, ids: seq<AdmissionId>)
    ensures Grown(s, MarkAll(s, ids).0)
    decreases |ids|
  {
    hide Grown;
    SameLogGrown(s, s);
    if ids != [] && ids[0] in s.entries {
      SameLogGrown(s, Mark(s, ids[0]));
      MarkAllGrows(Mark(s, ids[0]), ids[1..]);
      GrownTwice(s, Mark(s, ids[0]), MarkAll(s, ids).0);
    }
  }

  lemma CancelGrows(s: Space, user: UserId, id: AdmissionId, now: int)
    ensures Grown(s, Cancel(s, user, id, now).0)
  {
    hide Grown; hide Expire; hide Terminal; hide Snapshot;
    SameLogGrown(s, s);
    var s1 := Expire(s, id, now);
    ExpireGrows(s, id, now);
    TerminalGrows(s1, id, Cancelled, Some(AdmissionCancelled));
    GrownTwice(s, s1, Terminal(s1, id, Cancelled, Some(AdmissionCancelled)));
  }

  lemma StartClaimGrows(s: Space, id: AdmissionId, fp: Fingerprint, token: Token, now: int, p: Profile)
    ensures Grown(s, StartClaim(s, id, fp, token, now, p))
  {
    if id in s.entries { GrownBy(s, StartClaim(s, id, fp, token, now, p), [ZAdd(s.epoch, ClaimSet, now + p.claimMs, id)]); } else { SameLogGrown(s, s); }
  }

  lemma ClaimGrows(s: Space, user: UserId, id: AdmissionId, fp: Fingerprint, token: Token, now: int, p: Profile)
    ensures Grown(s, Claim(s, user, id, fp, token, now, p).0)
  {
    hide Grown; hide Expire; hide StartClaim; hide Snapshot;
    SameLogGrown(s, s);
    var s1 := Expire(s, id, now);
    ExpireGrows(s, id, now);
    SameLogGrown(s1, Mark(s1, id));
    StartClaimGrows(s1, id, fp, token, now, p);
    hide Mark;
    GrownTwice(s, s1, Mark(s1, id));
    GrownTwice(s, s1, StartClaim(s1, id, fp, token, now, p));
  }

  lemma FinishGrows(s: Space, id: AdmissionId, outcome: Outcome)
    ensures Grown(s, Finish(s, id, outcome)) && Grown(s, s)
  {
    SameLogGrown(s, s);
    if id in s.entries { RetireGrows(s, id, Ended(s.entries[id].(outcome := Some(outcome)), Consumed, None)); }
    hide Retire;
  }

  /** Whatever the operation, the log only gains commands on this epoch's sets. */
  lemma StepGrows(s: Space, op: Op, now: int, p: Profile)
    ensures Grown(s, Step(s, op, now, p).0)
  {
    hide Grown; hide Join; hide Tick; hide Cancel; hide Claim; hide Snapshot; hide Expire; hide Renew; hide MarkAll; hide Finish; hide Terminal; hide RangeByScore;
    SameLogGrown(s, s);
    match op
    case DoStatus(user) => if user in s.latest { RefreshGrows(s, s.latest[user], now, p); }
    case DoJoin(user, join, id) => JoinGrows(s, user, join, id, now, p);
    case DoTick => TickGrows(s, now, p);
    case DoReconcile => MarkAllGrows(s, RangeByScore(s.claims, now, p.reclaim));
    case DoInspect(_) =>
    case DoCancel(user, id) => CancelGrows(s, user, id, now);
    case DoClaim(user, id, fp, token) => ClaimGrows(s, user, id, fp, token, now, p);
    case DoComplete(_, id, _, _, outcome) => FinishGrows(s, id, outcome);
    case DoClose(_, id, _, _) => TerminalGrows(s, id, Expired, Some(AdmissionExpired));
  }

  // ----- the same to the checker -----------------------------------------------------------

  /** Checker c, which reads a whole log, knows of epoch e what d knows, which reads only that epoch's
      share, and apart from it has stayed as it was in `base`. */
  ghost predicate Alongside(c: Checker, d: Checker, e: Epoch, base: Checker) {
    && LineOf(c, e) == LineOf(d, e) && (forall x | x != e :: LineOf(c, x) == LineOf(base, x))
    && c.current == base.current && c.published == base.published && c.alive == base.alive && c.gone == base.gone
    && c.violations == base.violations
    && (forall u | u in c.unslotted :: u in d.unslotted && u.0 == e)
  }

  lemma {:induction false} NothingFound(pending: seq<(Epoch, AdmissionId)>, h: Option<LogCommand>, lines: map<Epoch, Line>)
    requires Judged(pending, h, lines) == []
    ensures forall u | u in pending :: Kept(h, u.1) || !Outlived(lines, u.0, u.1)
  {
    if pending != [] { NothingFound(pending[..|pending| - 1], h, lines); }
  }

  lemma {:induction false} KeptStays(pending: seq<(Epoch, AdmissionId)>, h: Option<LogCommand>)
    ensures forall u :: u in StillPending(pending, h) <==> u in pending && Kept(h, u.1)
  {
    if pending != [] { KeptStays(pending[..|pending| - 1], h); }
  }

  lemma SettlesAlongside(c: Checker, d: Checker, e: Epoch, base: Checker, h: LogCommand)
    requires Alongside(c, d, e, base) && Settle(d, Some(h)).violations == d.violations == []
    ensures Alongside(Settle(c, Some(h)), Settle(d, Some(h)), e, base)
  {
    NothingFound(d.unslotted, Some(h), d.lines);
    forall u | u in c.unslotted ensures Kept(Some(h), u.1) || !Outlived(c.lines, u.0, u.1) {
      assert u in d.unslotted && LineOf(c, e) == LineOf(d, e);
    }
    SettlesQuietly(c, h);
    KeptStays(c.unslotted, Some(h));
    KeptStays(d.unslotted, Some(h));
  }

  lemma RemovesAlongside(c: Checker, d: Checker, e: Epoch, base: Checker, key: SetName, m: AdmissionId)
    requires Alongside(c, d, e, base)
    ensures Alongside(RemoveFrom(c, e, key, m), RemoveFrom(d, e, key, m), e, base)
  {}

  lemma InsertsAlongside(c: Checker, d: Checker, e: Epoch, base: Checker, h: LogCommand, p: Profile)
    requires Alongside(c, d, e, base) && h.ZAdd? && h.epoch == e && d.violations == [] && Insert(d, h, p).violations == []
    ensures Alongside(Insert(c, h, p), Insert(d, h, p), e, base)
  {
    hide PromotionRules; hide BudgetRules;
    var l := LineOf(c, e);
    if h.key == ActiveSet {
      var now := h.score - p.ttlMs;
      var l' := l.(left := l.left - {h.member}, promoted := l.promoted + {h.member}, active := l.active + {h.member}, window := l.window + [now]);
      assert PromotionRules(l, h.member) == [] && BudgetRules(l', now, p) == [];
      assert c.violations + [] + [] == c.violations;
    }
  }

  lemma ViolationsGrow(c: Checker, h: LogCommand, p: Profile)
    ensures |c.violations| <= |Settle(c, Some(h)).violations|
    ensures h.ZAdd? || h.ZRem? ==> |Settle(c, Some(h)).violations| <= |Check(c, h, p).violations|
  {
    hide PromotionRules; hide BudgetRules;
  }

  lemma ChecksAlongside(c: Checker, d: Checker, e: Epoch, base: Checker, h: LogCommand, p: Profile)
    requires Alongside(c, d, e, base) && Own(h, e) && Check(d, h, p).violations == d.violations == []
    ensures Alongside(Check(c, h, p), Check(d, h, p), e, base)
  {
    ViolationsGrow(d, h, p);
    assert Settle(d, Some(h)).violations == [];
    SettlesAlongside(c, d, e, base, h);
    var c1, d1 := Settle(c, Some(h)), Settle(d, Some(h));
    hide Alongside; hide Settle; hide RemoveFrom; hide Insert;
    if h.ZRem? { RemovesAlongside(c1, d1, e, base, h.key, h.member); } else { InsertsAlongside(c1, d1, e, base, h, p); }
  }

  lemma {:induction false} AllGrow(c: Checker, hs: seq<LogCommand>, e: Epoch, p: Profile)
    requires AllOwn(hs, e)
    ensures |c.violations| <= |CheckAll(c, hs, p).violations|
    decreases |hs|
  {
    hide Check; hide Settle;
    if hs != [] {
      ViolationsGrow(c, hs[0], p);
      assert Own(hs[0], e);
      AllGrow(Check(c, hs[0], p), hs[1..], e, p);
    }
  }

  /** The epoch's share, read in its place in the whole log, is judged as it is alone. */
  lemma {:induction false} AllAlongside(c: Checker, d: Checker, e: Epoch, base: Checker, hs: seq<LogCommand>, p: Profile)
    requires Alongside(c, d, e, base) && AllOwn(hs, e) && CheckAll(d, hs, p).violations == d.violations == []
    ensures Alongside(CheckAll(c, hs, p), CheckAll(d, hs, p), e, base)
    decreases |hs|
  {
    hide Check; hide Alongside; hide Settle;
    if hs != [] {
      assert Own(hs[0], e);
      ViolationsGrow(d, hs[0], p);
      AllGrow(Check(d, hs[0], p), hs[1..], e, p);
      ChecksAlongside(c, d, e, base, hs[0], p);
      AllAlongside(Check(c, hs[0], p), Check(d, hs[0], p), e, base, hs[1..], p);
    }
  }
}
