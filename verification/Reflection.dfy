/** The ledger and one epoch's entries: what fits, and that no call of the script makes it unfit as
    long as `complete` and `close` are only sent for a committed row. */
module Reflection {
  import opened AdmissionTypes
  import opened SortedSet
  import opened AdmissionSpace
  import opened Agreement
  import opened AgreementSteps
  import opened AgreementOps
  import opened AgreementCalls
  import opened AdmissionRuns
  import opened AdmissionLaws
  import opened Protocol

  type Ledger = map<AdmissionId, Row>

  function RowIn(l: Ledger, id: AdmissionId): Option<Row> {
    if id in l then Some(l[id]) else None
  }

  /** The final state a row stands for. */
  predicate Final(x: Entry, r: Row) {
    if r.result.ClosedRow? then x.state == Expired && x.reason == Some(AdmissionExpired)
    else x.state == Consumed && x.outcome == Some(OutcomeOf(r))
  }

  /** Without a row an entry is unclaimed or still claimed; with one it was claimed for the row's
      request, and is still claimed or final as the row says. */
  predicate Fits(x: Entry, row: Option<Row>) {
    match row
    case None => x.fingerprint.None? || Claimed(x)
    case Some(r) => x.fingerprint == Some(r.fp) && (Claimed(x) || Final(x, r))
  }

  ghost predicate AllFit(s: Space, l: Ledger) {
    forall id | id in s.entries :: Fits(s.entries[id], RowIn(l, id))
  }

  // ----- which entries a call can add ------------------------------------------------------

  predicate Keyed(s: Space, t: Space, op: Op) {
    forall id | id in t.entries :: id in s.entries || (op.DoJoin? && id == op.id)
  }

  lemma {:induction false} PromoteUpToKeys(s: Space, n: int, now: int, p: Profile)
    ensures PromoteUpTo(s, n, now, p).0.entries.Keys == s.entries.Keys
    decreases Slots(n)
  {
    if n <= 0 || s.waiting == map[] {
    } else {
      var first := First(s.waiting);
      if first !in s.entries || s.entries[first].expiresAt.None? || s.entries[first].expiresAt.value <= now {
      } else {
        PromoteUpToKeys(Promote(s, first, now, p), n - 1, now, p);
      }
    }
  }

  lemma {:induction false} MarkAllKeys(s: Space, ids: seq<AdmissionId>)
    ensures MarkAll(s, ids).0.entries.Keys == s.entries.Keys
    decreases |ids|
  {
    if ids != [] && ids[0] in s.entries {
      assert Mark(s, ids[0]).entries.Keys == s.entries.Keys;
      MarkAllKeys(Mark(s, ids[0]), ids[1..]);
    }
  }

  lemma TickKeys(s: Space, now: int, p: Profile)
    ensures Tick(s, now, p).0.entries.Keys == s.entries.Keys
  {
    hide Cleanup; hide PromoteUpTo;
    CleanupKeepsKeys(s, now, p);
    var s1 := Cleanup(s, now, p).0;
    PromoteUpToKeys(s1, Headroom(s1, p), now, p);
  }

  lemma RefreshKeys(s: Space, id: AdmissionId, now: int, p: Profile)
    ensures Renew(Expire(s, id, now), id, now, p).entries.Keys == s.entries.Keys
  {
    hide Expire; hide Renew;
    ExpireEntries(s, id, now);
    RenewEntries(Expire(s, id, now), id, now, p);
  }

  lemma JoinKeys(s: Space, user: UserId, join: JoinId, id: AdmissionId, now: int, p: Profile)
    ensures forall x | x in Join(s, user, join, id, now, p).0.entries :: x in s.entries || x == id
  {
    hide Snapshot;
    if join in s.joins { RefreshKeys(s, s.joins[join], now, p); }
    if user in s.users { ExpireKeepsKeys(s, s.users[user], now); }
  }

  lemma StatusKeys(s: Space, user: UserId, now: int, p: Profile)
    ensures Status(s, user, now, p).0.entries.Keys == s.entries.Keys
  {
    hide Snapshot; hide Renew; hide Expire;
    if user in s.latest { RefreshKeys(s, s.latest[user], now, p); }
  }

  lemma CancelKeys(s: Space, user: UserId, id: AdmissionId, now: int)
    ensures Cancel(s, user, id, now).0.entries.Keys == s.entries.Keys
  {
    hide Snapshot; hide Expire; hide Retire;
    ExpireKeepsKeys(s, id, now);
    var s1 := Expire(s, id, now);
    if id in s1.entries { RetireKeepsKeys(s1, id, Ended(s1.entries[id], Cancelled, Some(AdmissionCancelled))); }
  }

  lemma ClaimKeys(s: Space, user: UserId, id: AdmissionId, fp: Fingerprint, token: Token, now: int, p: Profile)
    ensures Claim(s, user, id, fp, token, now, p).0.entries.Keys == s.entries.Keys
  {
    hide Snapshot; hide Expire; hide Mark; hide StartClaim;
    ExpireKeepsKeys(s, id, now);
    ClaimStepKeys(Expire(s, id, now), id, fp, token, now, p);
  }

  lemma ClaimStepKeys(s: Space, id: AdmissionId, fp: Fingerprint, token: Token, now: int, p: Profile)
    ensures Mark(s, id).entries.Keys == s.entries.Keys && StartClaim(s, id, fp, token, now, p).entries.Keys == s.entries.Keys
  {}

  lemma FinishKeys(s: Space, user: UserId, id: AdmissionId, fp: Fingerprint, token: Token, outcome: Outcome)
    ensures Complete(s, user, id, fp, token, outcome).0.entries.Keys == s.entries.Keys
    ensures Close(s, user, id, fp, token).0.entries.Keys == s.entries.Keys
  {
    hide Snapshot; hide Retire;
    if id in s.entries {
      RetireKeepsKeys(s, id, Ended(s.entries[id].(outcome := Some(outcome)), Consumed, None));
      RetireKeepsKeys(s, id, Ended(s.entries[id], Expired, Some(AdmissionExpired)));
    }
  }

  lemma StepKeys(s: Space, op: Op, now: int, p: Profile)
    ensures Keyed(s, Step(s, op, now, p).0, op)
  {
    hide Status; hide Join; hide Tick; hide Cancel; hide Claim; hide Complete; hide Close; hide Snapshot; hide RangeByScore; hide MarkAll;
    match op
    case DoStatus(user) => StatusKeys(s, user, now, p);
    case DoJoin(user, join, id) => JoinKeys(s, user, join, id, now, p);
    case DoTick => TickKeys(s, now, p);
    case DoReconcile => MarkAllKeys(s, RangeByScore(s.claims, now, p.reclaim));
    case DoInspect(_) =>
    case DoCancel(user, id) => CancelKeys(s, user, id, now);
    case DoClaim(user, id, fp, token) => ClaimKeys(s, user, id, fp, token, now, p);
    case DoComplete(user, id, fp, token, outcome) => FinishKeys(s, user, id, fp, token, outcome);
    case DoClose(user, id, fp, token) => FinishKeys(s, user, id, fp, token, Outcome(OutcomeKind.Rejected, None, None));
  }

  // ----- fitting is kept -------------------------------------------------------------------

  lemma QuietFits(s: Space, t: Space, op: Op, l: Ledger)
    requires Quiet(s, t) && AllFit(s, l) && Keyed(s, t, op) && (op.DoJoin? ==> op.id !in l)
    ensures AllFit(t, l)
  {
    forall id | id in t.entries ensures Fits(t.entries[id], RowIn(l, id)) {
      if id in s.entries {
        assert Background(s.entries[id], t.entries[id]);
        assert Fits(s.entries[id], RowIn(l, id));
      }
    }
  }

  lemma ClaimFits(s: Space, t: Space, user: UserId, id: AdmissionId, fp: Fingerprint, token: Token, now: int, r: Reply, l: Ledger)
    requires ClaimOutcome(s, t, user, id, fp, token, now, r) && AllFit(s, l)
    ensures AllFit(t, l)
  {
    forall x | x in t.entries ensures Fits(t.entries[x], RowIn(l, x)) {
      assert x in s.entries && Fits(s.entries[x], RowIn(l, x));
    }
  }

  lemma FinishFits(s: Space, t: Space, user: UserId, id: AdmissionId, fp: Fingerprint, token: Token, last: Entry -> Entry, r: Reply, l: Ledger)
    requires FinishOutcome(s, t, user, id, fp, token, last, r) && AllFit(s, l) && id in l
    requires forall e | Claimed(e) && e.fingerprint == Some(l[id].fp) :: last(e).fingerprint == e.fingerprint && Final(last(e), l[id])
    ensures AllFit(t, l)
  {
    forall x | x in t.entries ensures Fits(t.entries[x], RowIn(l, x)) {
      assert x in s.entries && Fits(s.entries[x], RowIn(l, x));
    }
  }

  /** Whatever the call, entries that fitted the ledger still fit it. */
  lemma StepFits(s: Space, op: Op, now: int, p: Profile, l: Ledger)
    requires Agreed(s, p, now) && p.Valid() && Fresh(s, op) && AllFit(s, l) && Warranted(op, l) && (op.DoJoin? ==> op.id !in l)
    ensures AllFit(Step(s, op, now, p).0, l)
  {
    hide Agreed; hide Quiet; hide AllFit; hide Keyed; hide ClaimOutcome; hide FinishOutcome; hide ConsumedBy; hide ClosedEntry;
    hide Status; hide Join; hide Tick; hide Reconcile; hide Cancel; hide Claim; hide Complete; hide Close; hide Snapshot; hide Reclaimable;
    hide OutcomeOf;
    var (t, r) := Step(s, op, now, p);
    StepKeys(s, op, now, p);
    if now >= s.endAt && !Finalizing(op) {
    } else {
      match op {
        case DoStatus(user) => StatusKeeps(s, user, now, p); QuietFits(s, t, op, l);
        case DoJoin(user, join, id) =>
          if join in s.joins { JoinAgainKeeps(s, user, join, id, now, p); } else { JoinNewKeeps(s, user, join, id, now, p); }
          QuietFits(s, t, op, l);
        case DoTick => TickKeeps(s, now, p); QuietFits(s, t, op, l);
        case DoReconcile => ReconcileKeeps(s, now, p); QuietFits(s, t, op, l);
        case DoInspect(_) =>
        case DoCancel(user, id) => CancelKeeps(s, user, id, now, p); QuietFits(s, t, op, l);
        case DoClaim(user, id, fp, token) =>
          ClaimKeeps(s, user, id, fp, token, now, p);
          ClaimFits(s, t, user, id, fp, token, now, r, l);
        case DoComplete(user, id, fp, token, outcome) =>
          CompleteKeeps(s, user, id, fp, token, outcome, now, p);
          ConsumptionIsFinal(l[id]);
          FinishFits(s, t, user, id, fp, token, ConsumedBy(outcome), r, l);
        case DoClose(user, id, fp, token) =>
          CloseKeeps(s, user, id, fp, token, now, p);
          ClosingIsFinal(l[id]);
          FinishFits(s, t, user, id, fp, token, ClosedEntry(), r, l);
      }
    }
  }

  lemma ConsumptionIsFinal(r: Row)
    requires !r.result.ClosedRow?
    ensures forall e: Entry :: ConsumedBy(OutcomeOf(r))(e).fingerprint == e.fingerprint && Final(ConsumedBy(OutcomeOf(r))(e), r)
  {}

  lemma ClosingIsFinal(r: Row)
    requires r.result.ClosedRow?
    ensures forall e: Entry :: ClosedEntry()(e).fingerprint == e.fingerprint && Final(ClosedEntry()(e), r)
  {}

  /** A granted claim ties the entry to the request under the token of the reply. */
  lemma GrantTies(s: Space, user: UserId, id: AdmissionId, fp: Fingerprint, token: Token, now: int, p: Profile)
    requires Agreed(s, p, now) && p.Valid()
    ensures var (t, r) := Claim(s, user, id, fp, token, now, p);
      r.Answer? ==>
        && r.entry.Some? && r.entry.value.claimToken.Some? && id in t.entries && t.entries[id] == r.entry.value
        && t.entries[id].user == user && t.entries[id].fingerprint == Some(fp)
  {
    hide Agreed; hide Claim;
    ClaimKeeps(s, user, id, fp, token, now, p);
  }

  /** What `reconcile` hands out are entries as they stand, claimed and bound. */
  lemma OverdueAreBound(s: Space, now: int, p: Profile)
    requires Agreed(s, p, now)
    ensures var (t, r) := Reconcile(s, now, p);
      && r.Overdue?
      && forall i | 0 <= i < |r.claims| ::
           && r.claims[i].id in t.entries && t.entries[r.claims[i].id] == r.claims[i]
           && r.claims[i].fingerprint.Some? && r.claims[i].claimToken.Some? && r.claims[i].epoch == t.epoch
  {
    hide Agreed; hide Reconcile;
    ReconcileKeeps(s, now, p);
    var (t, r) := Reconcile(s, now, p);
    forall i | 0 <= i < |r.claims|
      ensures r.claims[i].fingerprint.Some? && r.claims[i].claimToken.Some? && r.claims[i].epoch == t.epoch
    {
      assert r.claims[i].id in t.entries && t.entries[r.claims[i].id] == r.claims[i] && Claimed(r.claims[i]);
      EntryIsOk(t, r.claims[i].id, p, now);
    }
  }
}
