/** The remaining operations: `tick`, `reconcile`, `cancel`, `claim`, `complete` and `close`. */
module AgreementCalls {
  import opened AdmissionTypes
  import opened SortedSet
  import opened AdmissionSpace
  import opened Agreement
  import opened AgreementSteps
  import opened AgreementOps

  // ----- tick ------------------------------------------------------------------------------

  lemma {:induction false} ExpireAllKeeps(s: Space, ids: seq<AdmissionId>, now: int, p: Profile)
    requires Agreed(s, p, now)
    ensures var t := ExpireAll(s, ids, now); Agreed(t, p, now) && Quiet(s, t)
    decreases |ids|
  {
    hide Agreed; hide Quiet; hide Expire;
    if ids == [] {
      QuietItself(s);
    } else {
      var s1 := Expire(s, ids[0], now);
      ExpireKeeps(s, ids[0], now, p, now);
      ExpireIsQuiet(s, ids[0], now);
      ExpireAllKeeps(s1, ids[1..], now, p);
      QuietTwice(s, s1, ExpireAll(s1, ids[1..], now));
    }
  }

  lemma {:induction false} ExpireIdleKeeps(s: Space, ids: seq<AdmissionId>, now: int, cleaned: nat, cleanup: nat, p: Profile)
    requires Agreed(s, p, now)
    ensures var t := ExpireIdle(s, ids, now, cleaned, cleanup).0; Agreed(t, p, now) && Quiet(s, t)
    decreases |ids|
  {
    hide Agreed; hide Quiet; hide Expire; hide IdleDue;
    if ids == [] {
      QuietItself(s);
    } else if cleaned < cleanup && IdleDue(s, ids[0], now) {
      var s1 := Expire(s, ids[0], now);
      ExpireKeeps(s, ids[0], now, p, now);
      ExpireIsQuiet(s, ids[0], now);
      ExpireIdleKeeps(s1, ids[1..], now, cleaned + 1, cleanup, p);
      QuietTwice(s, s1, ExpireIdle(s1, ids[1..], now, cleaned + 1, cleanup).0);
    } else {
      ExpireIdleKeeps(s, ids[1..], now, cleaned, cleanup, p);
    }
  }

  lemma FirstInLine(s: Space, p: Profile, now: int)
    requires Agreed(s, p, now) && s.waiting != map[]
    ensures var first := First(s.waiting);
      && first in s.waiting && IsState(s, first, Waiting) && s.entries[first].expiresAt.Some?
      && (forall x | x in s.waiting :: s.waiting[first] <= s.waiting[x])
  {
    hide Owning; hide Numbered; hide Budgeted; hide Logged; hide ActiveIndexed; hide ClaimsIndexed;
    var first := First(s.waiting);
    assert IsFirst(s.waiting, first);
    assert EntryOk(s.entries[first], p, now);
  }

  lemma PromoteIsQuiet(s: Space, id: AdmissionId, now: int, p: Profile)
    requires IsState(s, id, Waiting) && s.entries[id].admittedAt.None?
    ensures Quiet(s, Promote(s, id, now, p))
  {}

  lemma WaitingIsUnpromoted(s: Space, id: AdmissionId, p: Profile, now: int)
    requires Agreed(s, p, now) && IsState(s, id, Waiting)
    ensures s.entries[id].admittedAt.None? && s.entries[id].expiresAt.Some?
  {
    hide Indexed; hide Owning; hide Numbered; hide Budgeted; hide Logged;
  }

  /** While both budgets have room for n, n promotions keep everything. */
  lemma {:induction false} PromoteUpToKeeps(s: Space, n: int, now: int, p: Profile)
    requires Agreed(s, p, now) && WindowExact(s, now)
    requires n <= p.rate - |s.window| && n <= p.capacity - |s.active|
    ensures var t := PromoteUpTo(s, n, now, p).0; Agreed(t, p, now) && Quiet(s, t)
    decreases if n < 0 then 0 else n
  {
    hide Agreed; hide Quiet; hide WindowExact; hide Promote;
    if n <= 0 || s.waiting == map[] {
      QuietItself(s);
    } else {
      var first := First(s.waiting);
      FirstInLine(s, p, now);
      if s.entries[first].expiresAt.value <= now {
        QuietItself(s);
      } else {
        var s1 := Promote(s, first, now, p);
        WaitingIsUnpromoted(s, first, p, now);
        PromoteKeeps(s, s1, first, p, now);
        PromoteIsQuiet(s, first, now, p);
        PromoteUpToKeeps(s1, n - 1, now, p);
        QuietTwice(s, s1, PromoteUpTo(s1, n - 1, now, p).0);
      }
    }
  }

  lemma PruneIsQuiet(s: Space, now: int)
    ensures Quiet(s, Prune(s, now))
  {}

  lemma CleanupKeeps(s: Space, now: int, p: Profile)
    requires Agreed(s, p, now)
    ensures var t := Cleanup(s, now, p).0; Agreed(t, p, now) && Quiet(s, t) && WindowExact(t, now)
  {
    hide Agreed; hide Quiet; hide Expire; hide ExpireAll; hide ExpireIdle; hide Prune; hide WindowExact;
    var late := RangeByScore(s.leases, now, p.cleanup);
    var s1 := ExpireAll(s, late, now);
    var ids := Range(s1.active, Slots(p.capacity));
    var s2 := ExpireIdle(s1, ids, now, |late|, p.cleanup).0;
    ExpireAllKeeps(s, late, now, p);
    ExpireIdleKeeps(s1, ids, now, |late|, p.cleanup, p);
    PruneKeeps(s2, p, now);
    PruneIsQuiet(s2, now);
    QuietTwice(s, s1, s2);
    QuietTwice(s, s2, Prune(s2, now));
  }

  lemma TickKeeps(s: Space, now: int, p: Profile)
    requires Agreed(s, p, now)
    ensures KeptQuietly(s, Tick(s, now, p), p, now)
  {
    hide Agreed; hide Quiet; hide Cleanup; hide PromoteUpTo; hide WindowExact;
    var (s1, cleaned) := Cleanup(s, now, p);
    CleanupKeeps(s, now, p);
    if cleaned < p.cleanup {
      PromoteUpToKeeps(s1, Headroom(s1, p), now, p);
      QuietTwice(s, s1, PromoteUpTo(s1, Headroom(s1, p), now, p).0);
    }
  }

  // ----- reconcile -------------------------------------------------------------------------

  /** What the reclaimer is handed: the entries themselves, still claimed and overdue. */
  ghost predicate Reclaimable(t: Space, claims: seq<Entry>, now: int) {
    forall i | 0 <= i < |claims| ::
      && claims[i].id in t.entries && t.entries[claims[i].id] == claims[i]
      && Claimed(claims[i]) && claims[i].deadline.Some? && claims[i].deadline.value <= now
  }

  lemma ClaimRef(s: Space, id: AdmissionId, p: Profile, now: int)
    requires Agreed(s, p, now) && id in s.claims
    ensures id in s.entries && s.entries[id].id == id && Claimed(s.entries[id]) && s.entries[id].deadline == Some(s.claims[id])
  {
    hide Owning; hide Numbered; hide Budgeted; hide Logged; hide WaitingIndexed; hide ActiveIndexed; hide EntryOk;
    assert id in s.claims <==> id in s.entries && Claimed(s.entries[id]);
  }

  lemma MarkIsQuiet(s: Space, id: AdmissionId)
    requires id in s.entries && Claimed(s.entries[id])
    ensures Quiet(s, Mark(s, id)) && Mark(s, id).claims == s.claims
  {}

  lemma {:induction false} MarkAllKeeps(s: Space, ids: seq<AdmissionId>, now: int, p: Profile)
    requires Agreed(s, p, now)
    requires forall i | 0 <= i < |ids| :: ids[i] in s.claims && s.claims[ids[i]] <= now
    requires forall i, j | 0 <= i < j < |ids| :: ids[i] != ids[j]
    ensures var (t, es) := MarkAll(s, ids);
      && Agreed(t, p, now) && Quiet(s, t)
      && |es| == |ids| && (forall i | 0 <= i < |ids| :: es[i].id == ids[i])
      && Reclaimable(t, es, now)
      && (forall x | x in s.entries && x !in ids :: x in t.entries && t.entries[x] == s.entries[x])
    decreases |ids|
  {
    hide Agreed; hide Quiet; hide Claimed;
    if ids == [] {
      QuietItself(s);
    } else {
      var id := ids[0];
      ClaimRef(s, id, p, now);
      var s1 := Mark(s, id);
      MarkKeeps(s, s1, id, p, now);
      MarkIsQuiet(s, id);
      MarkAllKeeps(s1, ids[1..], now, p);
      var (t, es) := MarkAll(s1, ids[1..]);
      QuietTwice(s, s1, t);
      assert id !in ids[1..];
      ClaimRef(s1, id, p, now);
    }
  }

  lemma ReconcileKeeps(s: Space, now: int, p: Profile)
    requires Agreed(s, p, now)
    ensures var r := Reconcile(s, now, p); KeptQuietly(s, r, p, now) && r.1.Overdue? && Reclaimable(r.0, r.1.claims, now)
  {
    hide Agreed; hide Quiet; hide MarkAll; hide RangeByScore;
    RangeByScoreIsComplete(s.claims, now, p.reclaim);
    MarkAllKeeps(s, RangeByScore(s.claims, now, p.reclaim), now, p);
  }

  // ----- cancel ----------------------------------------------------------------------------

  lemma CancelledIsOk(s: Space, id: AdmissionId, p: Profile, now: int)
    requires Agreed(s, p, now) && id in s.entries && Live(s.entries[id]) && s.entries[id].phase == Idle
    ensures var e := Ended(s.entries[id], Cancelled, Some(AdmissionCancelled));
      EntryOk(e, p, now) && SameIdentity(s.entries[id], e) && !Live(e) && Background(s.entries[id], e)
  {
    hide Indexed; hide Owning; hide Numbered; hide Budgeted; hide Logged;
  }

  lemma RetireIsQuiet(s: Space, id: AdmissionId, e: Entry)
    requires id in s.entries && Background(s.entries[id], e)
    ensures Quiet(s, Retire(s, id, e))
  {}

  lemma CancelKeeps(s: Space, user: UserId, id: AdmissionId, now: int, p: Profile)
    requires Agreed(s, p, now)
    ensures KeptQuietly(s, Cancel(s, user, id, now), p, now)
  {
    hide Agreed; hide Quiet; hide Expire; hide Snapshot; hide Retire; hide EntryOk; hide Background;
    if Owned(s, user, id) {
      var s1 := Expire(s, id, now);
      ExpireKeeps(s, id, now, p, now);
      ExpireIsQuiet(s, id, now);
      ExpireKeepsKeys(s, id, now);
      var e := s1.entries[id];
      if e.state == Consumed || e.phase != Idle {
      } else if Live(e) {
        var f := Ended(e, Cancelled, Some(AdmissionCancelled));
        CancelledIsOk(s1, id, p, now);
        RetireKeeps(s1, id, f, p, now);
        RetireIsQuiet(s1, id, f);
        QuietTwice(s, s1, Retire(s1, id, f));
        RetireKeepsKeys(s1, id, f);
        SnapshotAnswers(Retire(s1, id, f), id, false, p, now);
      } else {
        SnapshotAnswers(s1, id, false, p, now);
      }
    } else {
      QuietItself(s);
    }
  }

  lemma ExpireKeepsKeys(s: Space, id: AdmissionId, now: int)
    ensures Expire(s, id, now).entries.Keys == s.entries.Keys
    ensures forall x | x in s.entries && x != id :: Expire(s, id, now).entries[x] == s.entries[x]
  {}

  // ----- claim -----------------------------------------------------------------------------

  /** Only the entry `id` may differ. */
  ghost predicate Only(s: Space, t: Space, id: AdmissionId) {
    && t.epoch == s.epoch && t.endAt == s.endAt && t.entries.Keys == s.entries.Keys
    && (forall x | x in s.entries && x != id :: t.entries[x] == s.entries[x])
    && (id in s.entries ==> Evolves(s.entries[id], t.entries[id]))
  }

  /** A granted claim: the slot is held for this request under its one token until the deadline. */
  ghost predicate Granted(s: Space, t: Space, user: UserId, id: AdmissionId, fp: Fingerprint, token: Token, now: int, r: Reply) {
    && id in s.entries && id in t.entries && r.Answer?
    && var e := t.entries[id];
      && e.user == user && Claimed(e) && e.fingerprint == Some(fp) && e.claimToken.Some?
      && e.deadline.Some? && now < e.deadline.value
      && r.entry == Some(e)
      && (s.entries[id].fingerprint.None? ==> e.claimToken == Some(token))
  }

  ghost predicate ClaimOutcome(s: Space, t: Space, user: UserId, id: AdmissionId, fp: Fingerprint, token: Token, now: int, r: Reply) {
    && Only(s, t, id)
    && (r.Answer? || r.Refusal?)
    && (r.Answer? ==> Granted(s, t, user, id, fp, token, now, r))
    && (r.Refusal? && id in s.entries ==> Background(s.entries[id], t.entries[id]))
  }

  lemma EntryIsOk(s: Space, id: AdmissionId, p: Profile, now: int)
    requires Agreed(s, p, now) && id in s.entries
    ensures EntryOk(s.entries[id], p, now) && s.entries[id].id == id && s.entries[id].epoch == s.epoch
  {
    hide Indexed; hide Owning; hide Numbered; hide Budgeted; hide Logged; hide EntryOk;
  }

  lemma ClaimAfterExpiry(s1: Space, user: UserId, id: AdmissionId, fp: Fingerprint, token: Token, now: int, p: Profile)
    requires Agreed(s1, p, now) && p.Valid() && Owned(s1, user, id)
    requires var e := s1.entries[id];
      (e.fingerprint.Some? ==> e.fingerprint.value == fp) && IsState(s1, id, Admitted)
    ensures var e := s1.entries[id];
      var r := if e.phase != Idle then
          if e.deadline.None? then (s1, Crashed)
          else if e.deadline.value <= now then (Mark(s1, id), Refusal(InProgress, None, None))
          else (s1, Snapshot(s1, id, false))
        else var s2 := StartClaim(s1, id, fp, token, now, p); (s2, Snapshot(s2, id, false));
      Agreed(r.0, p, now) && ClaimOutcome(s1, r.0, user, id, fp, token, now, r.1)
  {
    hide Agreed; hide Snapshot;
    var e := s1.entries[id];
    EntryIsOk(s1, id, p, now);
    if e.phase != Idle {
      if e.deadline.value <= now {
        MarkKeeps(s1, Mark(s1, id), id, p, now);
      } else {
        SnapshotAnswers(s1, id, false, p, now);
      }
    } else {
      var s2 := StartClaim(s1, id, fp, token, now, p);
      StartClaimKeeps(s1, s2, id, fp, token, p, now);
      SnapshotAnswers(s2, id, false, p, now);
    }
  }

  lemma ExpireIsOnly(s: Space, id: AdmissionId, now: int)
    requires id in s.entries
    ensures var t := Expire(s, id, now); Only(s, t, id) && Background(s.entries[id], t.entries[id])
  {
    ExpireEntries(s, id, now);
    hide Expire;
  }

  lemma ClaimComposes(s: Space, s1: Space, t: Space, user: UserId, id: AdmissionId, fp: Fingerprint, token: Token, now: int, r: Reply)
    requires id in s.entries && Only(s, s1, id) && Background(s.entries[id], s1.entries[id])
    requires ClaimOutcome(s1, t, user, id, fp, token, now, r)
    ensures ClaimOutcome(s, t, user, id, fp, token, now, r)
  {}

  lemma ClaimKeeps(s: Space, user: UserId, id: AdmissionId, fp: Fingerprint, token: Token, now: int, p: Profile)
    requires Agreed(s, p, now) && p.Valid()
    ensures var (t, r) := Claim(s, user, id, fp, token, now, p);
      Agreed(t, p, now) && ClaimOutcome(s, t, user, id, fp, token, now, r)
  {
    hide Agreed; hide Expire; hide Snapshot; hide Mark; hide StartClaim; hide ClaimOutcome; hide Evolves;
    var (t, r) := Claim(s, user, id, fp, token, now, p);
    if !Owned(s, user, id) {
      NothingHappens(s, user, id, fp, token, now, r);
    } else {
      var s1 := Expire(s, id, now);
      ExpireKeeps(s, id, now, p, now);
      ExpireIsOnly(s, id, now);
      EntryIsOk(s1, id, p, now);
      var e := s1.entries[id];
      if (e.fingerprint.Some? && e.fingerprint.value != fp) || e.state != Admitted {
        ClaimRefused(s, s1, user, id, fp, token, now, p, r);
      } else {
        assert Owned(s1, user, id) by { SameOwnerAfter(s, s1, id); }
        ClaimAfterExpiry(s1, user, id, fp, token, now, p);
        ClaimComposes(s, s1, t, user, id, fp, token, now, r);
      }
    }
  }

  lemma SameOwnerAfter(s: Space, t: Space, id: AdmissionId)
    requires id in s.entries && Only(s, t, id)
    ensures id in t.entries && t.entries[id].user == s.entries[id].user
  {}

  lemma NothingHappens(s: Space, user: UserId, id: AdmissionId, fp: Fingerprint, token: Token, now: int, r: Reply)
    requires r.Refusal?
    ensures ClaimOutcome(s, s, user, id, fp, token, now, r)
  {}

  lemma ClaimRefused(s: Space, s1: Space, user: UserId, id: AdmissionId, fp: Fingerprint, token: Token, now: int, p: Profile, r: Reply)
    requires id in s.entries && Only(s, s1, id) && Background(s.entries[id], s1.entries[id])
    requires r.Refusal?
    ensures ClaimOutcome(s, s1, user, id, fp, token, now, r)
  {}

  // ----- complete and close ----------------------------------------------------------------

  /** The slot was freed by its own request with its own token, or nothing happened. */
  ghost predicate FinishOutcome(s: Space, t: Space, user: UserId, id: AdmissionId, fp: Fingerprint, token: Token, last: Entry -> Entry, r: Reply) {
    && (r.Answer? || r.Refusal?)
    && if id in s.entries && s.entries[id].user == user && Matches(s.entries[id], fp, token) && Claimed(s.entries[id])
       then r.Answer? && t.entries == s.entries[id := last(s.entries[id])] && t.epoch == s.epoch && t.endAt == s.endAt
       else t == s
  }

  function ConsumedBy(outcome: Outcome): Entry -> Entry {
    (e: Entry) => Ended(e.(outcome := Some(outcome)), Consumed, None)
  }

  function ClosedEntry(): Entry -> Entry {
    (e: Entry) => Ended(e, Expired, Some(AdmissionExpired))
  }

  lemma FinishedIsOk(s: Space, id: AdmissionId, outcome: Outcome, p: Profile, now: int)
    requires Agreed(s, p, now) && id in s.entries && Claimed(s.entries[id])
    ensures forall f | f == ConsumedBy(outcome)(s.entries[id]) || f == ClosedEntry()(s.entries[id]) ::
      EntryOk(f, p, now) && SameIdentity(s.entries[id], f) && !Live(f)
  {
    hide Indexed; hide Owning; hide Numbered; hide Budgeted; hide Logged;
  }

  lemma CompleteKeeps(s: Space, user: UserId, id: AdmissionId, fp: Fingerprint, token: Token, outcome: Outcome, now: int, p: Profile)
    requires Agreed(s, p, now)
    ensures var (t, r) := Complete(s, user, id, fp, token, outcome);
      Agreed(t, p, now) && FinishOutcome(s, t, user, id, fp, token, ConsumedBy(outcome), r)
  {
    hide Agreed; hide Snapshot; hide Retire; hide EntryOk; hide SameIdentity;
    if Owned(s, user, id) && Matches(s.entries[id], fp, token) {
      if Settled(s.entries[id]) {
        SnapshotAnswers(s, id, false, p, now);
      } else if Claimed(s.entries[id]) {
        var f := ConsumedBy(outcome)(s.entries[id]);
        FinishedIsOk(s, id, outcome, p, now);
        RetireKeeps(s, id, f, p, now);
        RetireKeepsKeys(s, id, f);
        SnapshotAnswers(Retire(s, id, f), id, false, p, now);
      }
    }
  }

  lemma CloseKeeps(s: Space, user: UserId, id: AdmissionId, fp: Fingerprint, token: Token, now: int, p: Profile)
    requires Agreed(s, p, now)
    ensures var (t, r) := Close(s, user, id, fp, token);
      Agreed(t, p, now) && FinishOutcome(s, t, user, id, fp, token, ClosedEntry(), r)
  {
    hide Agreed; hide Snapshot; hide Retire; hide EntryOk; hide SameIdentity;
    if Owned(s, user, id) && Matches(s.entries[id], fp, token) {
      if Settled(s.entries[id]) {
        SnapshotAnswers(s, id, false, p, now);
      } else if Claimed(s.entries[id]) {
        var f := ClosedEntry()(s.entries[id]);
        FinishedIsOk(s, id, Outcome(Rejected, None, None), p, now);
        RetireKeeps(s, id, f, p, now);
        RetireKeepsKeys(s, id, f);
        SnapshotAnswers(Retire(s, id, f), id, false, p, now);
      }
    }
  }
}
