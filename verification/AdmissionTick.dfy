/** What one tick did, entry by entry: who lapsed, who was promoted, and what it left undone. */
module AdmissionTick {
  import opened AdmissionTypes
  import opened SortedSet
  import opened AdmissionSpace
  import opened Agreement
  import opened AgreementSteps
  import opened AgreementOps
  import opened AgreementCalls
  import opened AdmissionRuns
  import opened AdmissionLaws
  import opened AdmissionAnswers

  /** Exactly the entries `gone` lapsed, each because its time was over. */
  ghost predicate Lapses(s: Space, t: Space, gone: set<AdmissionId>, now: int) {
    && t.entries.Keys == s.entries.Keys && gone <= s.entries.Keys
    && forall id | id in s.entries ::
         if id in gone then Overtime(s.entries[id], now) && t.entries[id] == Lapsed(s.entries[id]) else t.entries[id] == s.entries[id]
  }

  lemma LapsesTwice(s: Space, t: Space, u: Space, a: set<AdmissionId>, b: set<AdmissionId>, now: int)
    requires Lapses(s, t, a, now) && Lapses(t, u, b, now)
    ensures Lapses(s, u, a + b, now) && a !! b
  {
    forall id | id in a ensures id !in b { assert t.entries[id] == Lapsed(s.entries[id]); }
  }

  lemma ExpireLapses(s: Space, id: AdmissionId, now: int, p: Profile)
    requires Agreed(s, p, now) && id in s.entries && Overtime(s.entries[id], now)
    ensures Lapses(s, Expire(s, id, now), {id}, now) && Agreed(Expire(s, id, now), p, now)
  {
    hide Agreed;
    EntryIsSane(s, id, now, p);
    ExpireEntries(s, id, now);
    ExpireKeeps(s, id, now, p, now);
    hide Expire;
  }

  lemma NothingLapses(s: Space, now: int)
    ensures Lapses(s, s, {}, now)
  {}

  lemma {:induction false} ExpireAllLapses(s: Space, ids: seq<AdmissionId>, now: int, p: Profile)
    requires Agreed(s, p, now)
    requires forall i | 0 <= i < |ids| :: ids[i] in s.entries && Overtime(s.entries[ids[i]], now)
    requires forall i, j | 0 <= i < j < |ids| :: ids[i] != ids[j]
    ensures var t := ExpireAll(s, ids, now); Lapses(s, t, Members(ids), now) && Agreed(t, p, now)
    decreases |ids|
  {
    hide Agreed; hide Expire; hide Overtime; hide Lapsed;
    if ids == [] {
      NothingLapses(s, now);
    } else {
      var s1 := Expire(s, ids[0], now);
      ExpireLapses(s, ids[0], now, p);
      forall i | 0 <= i < |ids[1..]| ensures ids[1..][i] in s1.entries && Overtime(s1.entries[ids[1..][i]], now) {
        assert ids[1..][i] == ids[i + 1] && ids[i + 1] != ids[0];
      }
      ExpireAllLapses(s1, ids[1..], now, p);
      LapsesTwice(s, s1, ExpireAll(s1, ids[1..], now), {ids[0]}, Members(ids[1..]), now);
      assert Members(ids) == {ids[0]} + Members(ids[1..]);
    }
  }

  /** The idle admitted entries that the second loop frees. */
  lemma {:induction false} ExpireIdleLapses(s: Space, ids: seq<AdmissionId>, now: int, cleaned: nat, cleanup: nat, p: Profile)
    returns (gone: set<AdmissionId>)
    requires Agreed(s, p, now) && cleaned <= cleanup
    requires forall i | 0 <= i < |ids| :: IsState(s, ids[i], Admitted)
    requires forall i, j | 0 <= i < j < |ids| :: ids[i] != ids[j]
    ensures var (t, total) := ExpireIdle(s, ids, now, cleaned, cleanup);
      && Lapses(s, t, gone, now) && Agreed(t, p, now) && gone <= Members(ids)
      && total == cleaned + |gone| && total <= cleanup
      && (total < cleanup ==> forall i | 0 <= i < |ids| :: ids[i] in s.entries && (Overtime(s.entries[ids[i]], now) ==> ids[i] in gone))
    decreases |ids|
  {
    hide Agreed; hide Expire; hide Lapsed; hide IdleDue; hide Overtime;
    if ids == [] {
      NothingLapses(s, now);
      gone := {};
    } else {
      IdleIsOvertime(s, ids[0], now, p);
      if cleaned < cleanup && IdleDue(s, ids[0], now) {
        var s1 := Expire(s, ids[0], now);
        ExpireLapses(s, ids[0], now, p);
        forall i | 0 <= i < |ids[1..]| ensures IsState(s1, ids[1..][i], Admitted) { assert ids[1..][i] == ids[i + 1] && ids[i + 1] != ids[0]; }
        var rest := ExpireIdleLapses(s1, ids[1..], now, cleaned + 1, cleanup, p);
        gone := {ids[0]} + rest;
        LapsesTwice(s, s1, ExpireIdle(s1, ids[1..], now, cleaned + 1, cleanup).0, {ids[0]}, rest, now);
        assert |gone| == 1 + |rest|;
        forall i | 0 < i < |ids| ensures s1.entries[ids[i]] == s.entries[ids[i]] && ids[1..][i - 1] == ids[i] { assert IsState(s, ids[i], Admitted); }
      } else {
        gone := ExpireIdleLapses(s, ids[1..], now, cleaned, cleanup, p);
        forall i | 0 < i < |ids| ensures ids[1..][i - 1] == ids[i] {}
      }
    }
  }

  lemma IdleIsOvertime(s: Space, id: AdmissionId, now: int, p: Profile)
    requires Agreed(s, p, now) && IsState(s, id, Admitted)
    ensures IdleDue(s, id, now) <==> Overtime(s.entries[id], now)
  {
    hide Agreed;
    EntryIsSane(s, id, now, p);
    EntryIsOk(s, id, p, now);
  }

  // ----- the cleanup -----------------------------------------------------------------------

  lemma LeaseIsOvertime(s: Space, id: AdmissionId, now: int, p: Profile)
    requires Agreed(s, p, now) && id in s.leases && s.leases[id] <= now
    ensures id in s.entries && Overtime(s.entries[id], now) && s.entries[id].state == Waiting
  {
    LeaseIsDue(s, id, now, p);
    EntryIsSane(s, id, now, p);
    LeasesAreWaiting(s, p, now);
    assert id in s.waiting <==> IsState(s, id, Waiting) by { hide Shaped; hide Owning; hide Numbered; hide Budgeted; hide Logged; hide ActiveIndexed; hide ClaimsIndexed; }
    hide Agreed;
  }

  lemma WaiterHasLease(s: Space, id: AdmissionId, now: int, p: Profile)
    requires Agreed(s, p, now) && IsState(s, id, Waiting)
    ensures id in s.leases && s.entries[id].expiresAt == Some(s.leases[id])
  {
    hide Shaped; hide Owning; hide Numbered; hide Budgeted; hide Logged; hide ActiveIndexed; hide ClaimsIndexed;
    assert id in s.waiting;
  }

  lemma ActiveIsAdmitted(s: Space, p: Profile, now: int)
    requires Agreed(s, p, now)
    ensures forall id :: id in s.active <==> IsState(s, id, Admitted)
    ensures |s.active| <= p.capacity
  {
    hide Shaped; hide Owning; hide Numbered; hide Logged; hide WaitingIndexed; hide ClaimsIndexed; hide RateHeld;
  }

  /** The first loop takes waiters, the second admitted entries, and neither takes more than is left;
      what is left over is only left for want of room. */
  lemma CleanupLapses(s: Space, now: int, p: Profile) returns (gone: set<AdmissionId>)
    requires Agreed(s, p, now)
    ensures var (t, cleaned) := Cleanup(s, now, p);
      && Lapses(s, t, gone, now) && |gone| == cleaned <= p.cleanup
      && (cleaned < p.cleanup ==> forall id | id in s.entries && Overtime(s.entries[id], now) :: id in gone)
  {
    hide Agreed; hide Expire; hide ExpireAll; hide ExpireIdle; hide RangeByScore; hide Range; hide Lapsed; hide Overtime; hide IsState; hide Lapses;
    var late := RangeByScore(s.leases, now, p.cleanup);
    RangeByScoreIsComplete(s.leases, now, p.cleanup);
    forall i | 0 <= i < |late| ensures late[i] in s.entries && Overtime(s.entries[late[i]], now) { LeaseIsOvertime(s, late[i], now, p); }
    ExpireAllLapses(s, late, now, p);
    DistinctCount(late);
    var s1 := ExpireAll(s, late, now);
    var ids := Range(s1.active, Slots(p.capacity));
    RangeIsPrefix(s1.active, Slots(p.capacity));
    ActiveIsAdmitted(s1, p, now);
    forall i, j | 0 <= i < j < |ids| ensures ids[i] != ids[j] { assert Before(s1.active, ids[i], ids[j]); }
    var idle := ExpireIdleLapses(s1, ids, now, |late|, p.cleanup, p);
    var (s2, total) := ExpireIdle(s1, ids, now, |late|, p.cleanup);
    LapsesTwice(s, s1, s2, Members(late), idle, now);
    gone := Members(late) + idle;
    assert Cleanup(s, now, p) == (Prune(s2, now), total);
    SameLapses(s, s2, Prune(s2, now), gone, now);
    if total < p.cleanup {
      RangeCoversAll(s1.active, Slots(p.capacity));
      forall id | id in s.entries && Overtime(s.entries[id], now) ensures id in gone {
        NobodyMissed(s, s1, late, ids, id, now, p);
      }
    }
  }

  lemma SameLapses(s: Space, t: Space, u: Space, gone: set<AdmissionId>, now: int)
    requires Lapses(s, t, gone, now) && u.entries == t.entries
    ensures Lapses(s, u, gone, now)
  {}

  lemma NobodyMissed(s: Space, s1: Space, late: seq<AdmissionId>, ids: seq<AdmissionId>, id: AdmissionId, now: int, p: Profile)
    requires Agreed(s, p, now) && Agreed(s1, p, now) && Lapses(s, s1, Members(late), now)
    requires forall x | x in s.leases && s.leases[x] <= now :: x in late
    requires forall x | x in s1.active :: x in ids
    requires id in s.entries && Overtime(s.entries[id], now)
    ensures id in late || (id in ids && id in s1.entries && Overtime(s1.entries[id], now))
  {
    if s.entries[id].state == Waiting {
      WaiterHasLease(s, id, now, p);
    } else if id !in Members(late) {
      ActiveIsAdmitted(s1, p, now);
      hide Agreed;
      assert IsState(s1, id, Admitted);
    }
  }

  // ----- the promotions --------------------------------------------------------------------

  /** Exactly `promoted` went from waiting in time to a slot. */
  ghost predicate Promotes(s: Space, t: Space, promoted: seq<AdmissionId>, now: int, p: Profile) {
    && t.entries.Keys == s.entries.Keys
    && (forall i | 0 <= i < |promoted| ::
          && promoted[i] in s.entries && s.entries[promoted[i]].state == Waiting && Lasting(s.entries[promoted[i]], now)
          && t.entries[promoted[i]] == PromotedEntry(s.entries[promoted[i]], now, p))
    && (forall id | id in s.entries && id !in promoted :: t.entries[id] == s.entries[id])
  }

  lemma PromoteChanges(s: Space, id: AdmissionId, now: int, p: Profile)
    requires id in s.entries
    ensures Promote(s, id, now, p).entries == s.entries[id := PromotedEntry(s.entries[id], now, p)]
  {}

  lemma {:induction false} PromoteUpToPromotes(s: Space, n: int, now: int, p: Profile)
    requires Agreed(s, p, now) && WindowExact(s, now)
    requires n <= p.rate - |s.window| && n <= p.capacity - |s.active|
    ensures var (t, promoted) := PromoteUpTo(s, n, now, p); Promotes(s, t, promoted, now, p)
    decreases Slots(n)
  {
    hide Agreed; hide WindowExact; hide Promote; hide PromotedEntry;
    if n <= 0 || s.waiting == map[] {
    } else {
      var first := First(s.waiting);
      FirstInLine(s, p, now);
      if s.entries[first].expiresAt.value <= now {
      } else {
        var s1 := Promote(s, first, now, p);
        EntryIsSane(s, first, now, p);
        WaitingIsUnpromoted(s, first, p, now);
        PromoteKeeps(s, s1, first, p, now);
        PromoteChanges(s, first, now, p);
        PromoteUpToPromotes(s1, n - 1, now, p);
        var (t, rest) := PromoteUpTo(s1, n - 1, now, p);
        OneMorePromoted(s, s1, t, first, rest, now, p);
      }
    }
  }

  lemma OneMorePromoted(s: Space, s1: Space, t: Space, first: AdmissionId, rest: seq<AdmissionId>, now: int, p: Profile)
    requires IsState(s, first, Waiting) && Lasting(s.entries[first], now)
    requires s1.entries == s.entries[first := PromotedEntry(s.entries[first], now, p)] && Promotes(s1, t, rest, now, p)
    ensures Promotes(s, t, [first] + rest, now, p)
  {
    forall i | 0 <= i < |rest| ensures rest[i] != first && s1.entries[rest[i]] == s.entries[rest[i]] {}
  }

  // ----- the whole tick --------------------------------------------------------------------

  function LapsedIn(s: Space, t: Space): set<AdmissionId> {
    set id | id in s.entries && id in t.entries && s.entries[id].state != Expired && t.entries[id].state == Expired
  }

  /** How one tick treats one entry. */
  ghost predicate Tended(s: Space, t: Space, promoted: seq<AdmissionId>, id: AdmissionId, now: int, p: Profile)
    requires id in s.entries && id in t.entries
  {
    if id in promoted then
      s.entries[id].state == Waiting && Lasting(s.entries[id], now) && t.entries[id] == PromotedEntry(s.entries[id], now, p)
    else if id in LapsedIn(s, t) then Overtime(s.entries[id], now) && t.entries[id] == Lapsed(s.entries[id])
    else t.entries[id] == s.entries[id]
  }

  /** A tick touches the entries it promotes and those it lets lapse, which it counts; unless its
      cleanup ran full, nobody in the line or in a slot is past their time afterwards. */
  lemma TickTends(s: Space, h: History, now: int, p: Profile)
    requires At(s, h, now, p)
    ensures var (t, r) := Tick(s, now, p);
      && r.Ticked? && t.entries.Keys == s.entries.Keys
      && |LapsedIn(s, t)| == r.cleaned <= p.cleanup
      && (forall id | id in s.entries :: Tended(s, t, r.promoted, id, now, p))
      && (r.cleaned < p.cleanup ==> forall id | id in t.entries :: !Overtime(t.entries[id], now))
  {
    hide At; hide Agreed; hide Cleanup; hide PromoteUpTo; hide Quiet; hide WindowExact; hide Lapses; hide Promotes; hide Overtime; hide LapsedIn; hide Tended;
    AtAgrees(s, h, now, p);
    var (s1, cleaned) := Cleanup(s, now, p);
    var gone := CleanupLapses(s, now, p);
    CleanupKeeps(s, now, p);
    var (t, r) := Tick(s, now, p);
    if cleaned < p.cleanup {
      PromoteUpToPromotes(s1, Headroom(s1, p), now, p);
    } else {
      NobodyPromoted(s1, now, p);
    }
    Combine(s, s1, t, gone, r.promoted, now, p);
    if cleaned < p.cleanup { NobodyLate(s, s1, t, gone, r.promoted, now, p); }
  }

  lemma NobodyPromoted(s: Space, now: int, p: Profile)
    ensures Promotes(s, s, [], now, p)
  {}

  lemma Combine(s: Space, s1: Space, t: Space, gone: set<AdmissionId>, promoted: seq<AdmissionId>, now: int, p: Profile)
    requires Lapses(s, s1, gone, now) && Promotes(s1, t, promoted, now, p)
    ensures LapsedIn(s, t) == gone && t.entries.Keys == s.entries.Keys
    ensures forall id | id in s.entries :: Tended(s, t, promoted, id, now, p)
  {
    forall i | 0 <= i < |promoted| ensures promoted[i] !in gone && s.entries[promoted[i]] == s1.entries[promoted[i]] {
      var id := promoted[i];
      assert id in s1.entries.Keys && id in s.entries;
      assert id in gone ==> s1.entries[id] == Lapsed(s.entries[id]);
    }
    forall id | id in s.entries ensures id in LapsedIn(s, t) <==> id in gone { assert id in s1.entries; }
    assert LapsedIn(s, t) == gone;
  }

  lemma NobodyLate(s: Space, s1: Space, t: Space, gone: set<AdmissionId>, promoted: seq<AdmissionId>, now: int, p: Profile)
    requires Lapses(s, s1, gone, now) && Promotes(s1, t, promoted, now, p) && p.ttlMs > 0
    requires forall id | id in s.entries && Overtime(s.entries[id], now) :: id in gone
    ensures forall id | id in t.entries :: !Overtime(t.entries[id], now)
  {
    forall id | id in t.entries ensures !Overtime(t.entries[id], now) {
      assert id in s.entries && id in s1.entries;
      if id in promoted {
        var i :| 0 <= i < |promoted| && promoted[i] == id;
        assert t.entries[id] == PromotedEntry(s1.entries[id], now, p);
      }
    }
  }

  // ----- how many, and who -----------------------------------------------------------------

  /** Who can be promoted: waiting, and in time. */
  function InLine(s: Space, now: int): set<AdmissionId> {
    set id | id in s.entries && s.entries[id].state == Waiting && Lasting(s.entries[id], now)
  }

  /** Who has a slot and keeps it: admitted, and claimed or in time. */
  function Seated(s: Space, now: int): set<AdmissionId> {
    set id | id in s.entries && s.entries[id].state == Admitted && !Overtime(s.entries[id], now)
  }

  lemma LineIsInLine(s: Space, now: int, p: Profile)
    requires Agreed(s, p, now)
    ensures LineAt(s, now).Keys == InLine(s, now)
  {
    hide Owning; hide Numbered; hide Budgeted; hide Logged; hide ActiveIndexed; hide ClaimsIndexed;
    forall id ensures id in LineAt(s, now).Keys <==> id in InLine(s, now) {
      assert id in s.waiting <==> IsState(s, id, Waiting);
      assert id in s.leases <==> id in s.waiting;
    }
  }

  lemma PlaceInLine(s: Space, id: AdmissionId, now: int, p: Profile)
    requires Agreed(s, p, now) && id in LineAt(s, now)
    ensures id in s.entries && LineAt(s, now)[id] == s.entries[id].sequence
  {
    hide Shaped; hide Owning; hide Numbered; hide Budgeted; hide Logged; hide ActiveIndexed; hide ClaimsIndexed;
    assert id in s.waiting <==> IsState(s, id, Waiting);
  }

  lemma SlotsLeft(s: Space, s1: Space, gone: set<AdmissionId>, now: int, p: Profile)
    requires Agreed(s1, p, now) && Lapses(s, s1, gone, now) && forall id | id in s.entries && Overtime(s.entries[id], now) :: id in gone
    ensures s1.active.Keys == Seated(s, now)
  {
    ActiveIsAdmitted(s1, p, now);
    hide Agreed;
    forall id ensures id in s1.active.Keys <==> id in Seated(s, now) {
      assert id in s1.entries.Keys <==> id in s.entries.Keys;
      assert id in s1.active <==> IsState(s1, id, Admitted);
    }
  }

  lemma PaceLeft(s: Space, s1: Space, gone: set<AdmissionId>, now: int)
    requires WindowExact(s1, now) && Lapses(s, s1, gone, now)
    ensures s1.window.Keys == LastSecond(s, now)
  {
    forall id ensures id in s1.window.Keys <==> id in LastSecond(s, now) {
      assert id in s1.entries.Keys <==> id in s.entries.Keys;
      assert id in s1.window.Keys <==> id in LastSecond(s1, now);
    }
  }

  lemma LeastOf(n: int, line: nat, batch: int, pace: int, room: int)
    requires n == Min(Slots(Min(batch, Min(pace, room))), line) && 0 <= pace && 0 <= room
    ensures n <= line && n <= pace && n <= room && (n == 0 || n <= batch)
    ensures n == line || n == pace || n == room || batch <= n
  {}

  /** Unless its cleanup ran full, when it promotes nobody, a tick promotes as many as there is room for:
      the whole line, or as many as the rate, the slots or the batch allow. They are the first in line by
      sequence, each waiting in time. */
  lemma TickPromotes(s: Space, h: History, now: int, p: Profile)
    requires At(s, h, now, p)
    ensures var r := Tick(s, now, p).1;
      var line, pace, room := |InLine(s, now)|, p.rate - |LastSecond(s, now)|, p.capacity - |Seated(s, now)|;
      var n := |r.promoted|;
      if r.cleaned >= p.cleanup then n == 0
      else
        && n <= line && n <= pace && n <= room && (n == 0 || n <= p.batch)
        && (n == line || n == pace || n == room || p.batch <= n)
    ensures var promoted := Tick(s, now, p).1.promoted;
      && (forall i | 0 <= i < |promoted| :: promoted[i] in InLine(s, now))
      && (forall i, j | 0 <= i < j < |promoted| :: s.entries[promoted[i]].sequence < s.entries[promoted[j]].sequence)
      && (forall i, x | 0 <= i < |promoted| && x in InLine(s, now) && x !in promoted ::
            s.entries[promoted[i]].sequence < s.entries[x].sequence)
  {
    hide At; hide Agreed; hide Cleanup; hide Tick; hide PromoteUpTo; hide Quiet; hide WindowExact; hide Lapses; hide LineAt; hide InLine; hide Seated; hide LastSecond; hide Range;
    AtAgrees(s, h, now, p);
    TickPromotesInOrder(s, h, now, p);
    LineIsInLine(s, now, p);
    AsMany(LineAt(s, now));
    var r := Tick(s, now, p).1;
    var (s1, cleaned) := Cleanup(s, now, p);
    var line := LineAt(s, now);
    forall x ensures x in line <==> x in InLine(s, now) { assert x in line.Keys <==> x in InLine(s, now); }
    forall x | x in line ensures x in s.entries && line[x] == s.entries[x].sequence { PlaceInLine(s, x, now, p); }
    forall i | 0 <= i < |r.promoted| ensures r.promoted[i] in s.entries && line[r.promoted[i]] == s.entries[r.promoted[i]].sequence {
      assert r.promoted[i] in line;
    }
    if cleaned < p.cleanup {
      var gone := CleanupLapses(s, now, p);
      CleanupKeeps(s, now, p);
      SlotsLeft(s, s1, gone, now, p);
      PaceLeft(s, s1, gone, now);
      BudgetsLeft(s1, now, p);
      AsMany(s1.window);
      AsMany(s1.active);
      LeastOf(|r.promoted|, |LineAt(s, now)|, p.batch, p.rate - |s1.window|, p.capacity - |s1.active|);
    }
  }

  lemma AsMany(z: ZSet)
    ensures |z| == |z.Keys|
  {}

  lemma BudgetsLeft(s: Space, now: int, p: Profile)
    requires Agreed(s, p, now) && WindowExact(s, now)
    ensures |s.window| <= p.rate && |s.active| <= p.capacity
  {
    hide Shaped; hide Indexed; hide Owning; hide Numbered; hide Logged;
    assert |LastSecond(s, now)| <= p.rate;
    assert |s.window| == |s.window.Keys|;
  }
}
