/** What the rules of the transition log mean, read off the log alone: which members its sets hold, who was
    promoted and when, who left the line. The checker reports a rule exactly if the log breaks it. */
module LogRules {
  import opened AdmissionTypes
  import opened TransitionLog

  type Log = seq<LogCommand>

  // ----- the sets of an epoch, read off the log --------------------------------------------

  predicate Adds(h: LogCommand, e: Epoch, key: SetName, m: AdmissionId) {
    h.ZAdd? && h.epoch == e && h.key == key && h.member == m
  }

  predicate Takes(h: LogCommand, e: Epoch, key: SetName, m: AdmissionId) {
    (h.ZRem? && h.epoch == e && h.key == key && h.member == m) || Clears(h, e)
  }

  /** Added, and neither taken out nor lost since. */
  ghost predicate Holds(log: Log, e: Epoch, key: SetName, m: AdmissionId) {
    exists i | 0 <= i < |log| :: Adds(log[i], e, key, m) && forall j | i < j < |log| :: !Takes(log[j], e, key, m)
  }

  /** In the line, with this sequence last. */
  ghost predicate Waits(log: Log, e: Epoch, m: AdmissionId, sequence: int) {
    exists i | 0 <= i < |log| ::
      && Adds(log[i], e, WaitingSet, m) && log[i].score == sequence
      && forall j | i < j < |log| :: !Takes(log[j], e, WaitingSet, m) && !Adds(log[j], e, WaitingSet, m)
  }

  /** Promoted in this life of the epoch. */
  ghost predicate Promoted(log: Log, e: Epoch, m: AdmissionId) {
    exists i | 0 <= i < |log| :: Adds(log[i], e, ActiveSet, m) && forall j | i < j < |log| :: !Clears(log[j], e)
  }

  predicate GivesSequence(h: LogCommand, e: Epoch, sequence: int) {
    h.ZAdd? && h.epoch == e && h.key == WaitingSet && h.score == sequence
  }

  /** The sequence was last given to this entry, in this life of the epoch. */
  ghost predicate Given(log: Log, e: Epoch, sequence: int, m: AdmissionId) {
    exists i | 0 <= i < |log| ::
      && GivesSequence(log[i], e, sequence) && log[i].member == m
      && forall j | i < j < |log| :: !Clears(log[j], e) && !GivesSequence(log[j], e, sequence)
  }

  predicate LeavesLine(h: LogCommand, e: Epoch, m: AdmissionId) {
    h.ZRem? && h.epoch == e && h.key == WaitingSet && h.member == m
  }

  /** Anything that ends the state between the line and a slot. */
  predicate Arrives(h: LogCommand, e: Epoch, m: AdmissionId) {
    Adds(h, e, ActiveSet, m) || Takes(h, e, ActiveSet, m) || Takes(h, e, ClaimSet, m)
  }

  /** This command takes the entry out of the line, from this sequence. */
  ghost predicate Departs(before: Log, h: LogCommand, e: Epoch, m: AdmissionId, sequence: int) {
    LeavesLine(h, e, m) && Waits(before, e, m, sequence)
  }

  ghost predicate Leaving(before: Log, h: LogCommand, e: Epoch, m: AdmissionId) {
    exists q :: Departs(before, h, e, m, q)
  }

  /** Has left the line, from this sequence, and neither got a slot nor lost one since. */
  ghost predicate Left(log: Log, e: Epoch, m: AdmissionId, sequence: int) {
    exists i | 0 <= i < |log| ::
      Departs(log[..i], log[i], e, m, sequence) && forall j | i < j < |log| :: !Arrives(log[j], e, m) && !Leaving(log[..j], log[j], e, m)
  }

  predicate PromotionIn(h: LogCommand, e: Epoch, low: int, high: int, p: Profile) {
    h.ZAdd? && h.epoch == e && h.key == ActiveSet && low < h.score - p.ttlMs <= high
  }

  /** The promotions of this life of the epoch at the instants in (low, high], by their place in the log. */
  ghost function Promotions(log: Log, e: Epoch, low: int, high: int, p: Profile): set<int> {
    set i | 0 <= i < |log| && PromotionIn(log[i], e, low, high, p) && forall j | i < j < |log| :: !Clears(log[j], e)
  }

  /** Who the set holds. */
  ghost function MembersOf(log: Log, e: Epoch, key: SetName): set<AdmissionId> {
    set i | 0 <= i < |log| && log[i].ZAdd? && Holds(log, e, key, log[i].member) :: log[i].member
  }

  /** This command takes the slot of a claimed entry away. */
  ghost predicate Unslots(before: Log, h: LogCommand, e: Epoch, m: AdmissionId) {
    h.ZRem? && h.epoch == e && h.key == ActiveSet && h.member == m && Holds(before, e, ActiveSet, m) && Holds(before, e, ClaimSet, m)
  }

  predicate RemovesMember(h: LogCommand, m: AdmissionId) {
    h.ZRem? && h.member == m
  }

  /** Its slot was just taken away: since then there were only removals of the same member. */
  ghost predicate Pending(log: Log, e: Epoch, m: AdmissionId) {
    exists i | 0 <= i < |log| :: Unslots(log[..i], log[i], e, m) && forall j | i < j < |log| :: RemovesMember(log[j], m)
  }

  // ----- one more command ------------------------------------------------------------------

  lemma HoldsMore(log: Log, h: LogCommand, e: Epoch, key: SetName, m: AdmissionId)
    ensures Holds(log + [h], e, key, m) <==> Adds(h, e, key, m) || (Holds(log, e, key, m) && !Takes(h, e, key, m))
  {
    var more := log + [h];
    if Adds(h, e, key, m) { assert Adds(more[|log|], e, key, m); }
    if Holds(log, e, key, m) && !Takes(h, e, key, m) {
      var i :| 0 <= i < |log| && Adds(log[i], e, key, m) && forall j | i < j < |log| :: !Takes(log[j], e, key, m);
      assert more[i] == log[i];
      forall j | i < j < |more| ensures !Takes(more[j], e, key, m) { if j < |log| { assert more[j] == log[j]; } }
    }
    if Holds(more, e, key, m) && !Adds(h, e, key, m) {
      var i :| 0 <= i < |more| && Adds(more[i], e, key, m) && forall j | i < j < |more| :: !Takes(more[j], e, key, m);
      assert i < |log| && more[i] == log[i];
      assert !Takes(more[|log|], e, key, m);
      forall j | i < j < |log| ensures !Takes(log[j], e, key, m) { assert more[j] == log[j]; }
    }
  }

  lemma WaitsMore(log: Log, h: LogCommand, e: Epoch, m: AdmissionId, q: int)
    ensures Waits(log + [h], e, m, q) <==>
      (Adds(h, e, WaitingSet, m) && h.score == q) || (Waits(log, e, m, q) && !Takes(h, e, WaitingSet, m) && !Adds(h, e, WaitingSet, m))
  {
    var more := log + [h];
    if Adds(h, e, WaitingSet, m) && h.score == q { assert Adds(more[|log|], e, WaitingSet, m); }
    if Waits(log, e, m, q) && !Takes(h, e, WaitingSet, m) && !Adds(h, e, WaitingSet, m) {
      var i :| 0 <= i < |log| && Adds(log[i], e, WaitingSet, m) && log[i].score == q
        && forall j | i < j < |log| :: !Takes(log[j], e, WaitingSet, m) && !Adds(log[j], e, WaitingSet, m);
      assert more[i] == log[i];
      forall j | i < j < |more| ensures !Takes(more[j], e, WaitingSet, m) && !Adds(more[j], e, WaitingSet, m) { if j < |log| { assert more[j] == log[j]; } }
    }
    if Waits(more, e, m, q) && !(Adds(h, e, WaitingSet, m) && h.score == q) {
      var i :| 0 <= i < |more| && Adds(more[i], e, WaitingSet, m) && more[i].score == q
        && forall j | i < j < |more| :: !Takes(more[j], e, WaitingSet, m) && !Adds(more[j], e, WaitingSet, m);
      assert i < |log| && more[i] == log[i] && more[|log|] == h;
      forall j | i < j < |log| ensures !Takes(log[j], e, WaitingSet, m) && !Adds(log[j], e, WaitingSet, m) { assert more[j] == log[j]; }
    }
  }

  lemma PromotedMore(log: Log, h: LogCommand, e: Epoch, m: AdmissionId)
    ensures Promoted(log + [h], e, m) <==> Adds(h, e, ActiveSet, m) || (Promoted(log, e, m) && !Clears(h, e))
  {
    var more := log + [h];
    if Adds(h, e, ActiveSet, m) { assert Adds(more[|log|], e, ActiveSet, m); }
    if Promoted(log, e, m) && !Clears(h, e) {
      var i :| 0 <= i < |log| && Adds(log[i], e, ActiveSet, m) && forall j | i < j < |log| :: !Clears(log[j], e);
      assert more[i] == log[i];
      forall j | i < j < |more| ensures !Clears(more[j], e) { if j < |log| { assert more[j] == log[j]; } }
    }
    if Promoted(more, e, m) && !Adds(h, e, ActiveSet, m) {
      var i :| 0 <= i < |more| && Adds(more[i], e, ActiveSet, m) && forall j | i < j < |more| :: !Clears(more[j], e);
      assert i < |log| && more[i] == log[i] && more[|log|] == h;
      forall j | i < j < |log| ensures !Clears(log[j], e) { assert more[j] == log[j]; }
    }
  }

  lemma GivenMore(log: Log, h: LogCommand, e: Epoch, q: int, m: AdmissionId)
    ensures Given(log + [h], e, q, m) <==>
      (GivesSequence(h, e, q) && h.member == m) || (Given(log, e, q, m) && !Clears(h, e) && !GivesSequence(h, e, q))
  {
    var more := log + [h];
    if GivesSequence(h, e, q) && h.member == m { assert GivesSequence(more[|log|], e, q); }
    if Given(log, e, q, m) && !Clears(h, e) && !GivesSequence(h, e, q) {
      var i :| 0 <= i < |log| && GivesSequence(log[i], e, q) && log[i].member == m
        && forall j | i < j < |log| :: !Clears(log[j], e) && !GivesSequence(log[j], e, q);
      assert more[i] == log[i];
      forall j | i < j < |more| ensures !Clears(more[j], e) && !GivesSequence(more[j], e, q) { if j < |log| { assert more[j] == log[j]; } }
    }
    if Given(more, e, q, m) && !(GivesSequence(h, e, q) && h.member == m) {
      var i :| 0 <= i < |more| && GivesSequence(more[i], e, q) && more[i].member == m
        && forall j | i < j < |more| :: !Clears(more[j], e) && !GivesSequence(more[j], e, q);
      assert i < |log| && more[i] == log[i] && more[|log|] == h;
      forall j | i < j < |log| ensures !Clears(log[j], e) && !GivesSequence(log[j], e, q) { assert more[j] == log[j]; }
    }
  }

  lemma LeftMore(log: Log, h: LogCommand, e: Epoch, m: AdmissionId, q: int)
    ensures Left(log + [h], e, m, q) <==> Departs(log, h, e, m, q) || (Left(log, e, m, q) && !Arrives(h, e, m) && !Leaving(log, h, e, m))
  {
    hide Departs; hide Arrives; hide Leaving;
    var more := log + [h];
    assert more[..|log|] == log && more[|log|] == h;
    if Left(log, e, m, q) && !Arrives(h, e, m) && !Leaving(log, h, e, m) {
      var i :| 0 <= i < |log| && Departs(log[..i], log[i], e, m, q)
        && forall j | i < j < |log| :: !Arrives(log[j], e, m) && !Leaving(log[..j], log[j], e, m);
      assert more[i] == log[i] && more[..i] == log[..i];
      forall j | i < j < |more| ensures !Arrives(more[j], e, m) && !Leaving(more[..j], more[j], e, m) {
        if j < |log| { assert more[j] == log[j] && more[..j] == log[..j]; }
      }
    }
    if Left(more, e, m, q) && !Departs(log, h, e, m, q) {
      var i :| 0 <= i < |more| && Departs(more[..i], more[i], e, m, q)
        && forall j | i < j < |more| :: !Arrives(more[j], e, m) && !Leaving(more[..j], more[j], e, m);
      assert i < |log| && more[i] == log[i] && more[..i] == log[..i];
      forall j | i < j < |log| ensures !Arrives(log[j], e, m) && !Leaving(log[..j], log[j], e, m) {
        assert more[j] == log[j] && more[..j] == log[..j];
      }
    }
  }

  lemma PromotionsMore(log: Log, h: LogCommand, e: Epoch, low: int, high: int, p: Profile)
    ensures Promotions(log + [h], e, low, high, p) ==
      (if Clears(h, e) then {} else if PromotionIn(h, e, low, high, p) then Promotions(log, e, low, high, p) + {|log|} else Promotions(log, e, low, high, p))
  {
    var more := log + [h];
    forall i ensures i in Promotions(more, e, low, high, p) <==>
      (if Clears(h, e) then false else (PromotionIn(h, e, low, high, p) && i == |log|) || i in Promotions(log, e, low, high, p))
    {
      if 0 <= i < |log| {
        assert more[i] == log[i];
        if !Clears(h, e) {
          assert (forall j | i < j < |more| :: !Clears(more[j], e)) <==> (forall j | i < j < |log| :: !Clears(log[j], e)) by {
            if forall j | i < j < |log| :: !Clears(log[j], e) {
              forall j | i < j < |more| ensures !Clears(more[j], e) { if j < |log| { assert more[j] == log[j]; } }
            }
            if forall j | i < j < |more| :: !Clears(more[j], e) {
              forall j | i < j < |log| ensures !Clears(log[j], e) { assert more[j] == log[j]; }
            }
          }
        } else {
          assert Clears(more[|log|], e);
        }
      }
    }
  }

  lemma PendingMore(log: Log, h: LogCommand, e: Epoch, m: AdmissionId)
    ensures Pending(log + [h], e, m) <==> Unslots(log, h, e, m) || (Pending(log, e, m) && RemovesMember(h, m))
  {
    hide Unslots; hide RemovesMember;
    var more := log + [h];
    assert more[..|log|] == log && more[|log|] == h;
    if Pending(log, e, m) && RemovesMember(h, m) {
      var i :| 0 <= i < |log| && Unslots(log[..i], log[i], e, m) && forall j | i < j < |log| :: RemovesMember(log[j], m);
      assert more[i] == log[i] && more[..i] == log[..i];
      forall j | i < j < |more| ensures RemovesMember(more[j], m) { if j < |log| { assert more[j] == log[j]; } }
    }
    if Pending(more, e, m) && !Unslots(log, h, e, m) {
      var i :| 0 <= i < |more| && Unslots(more[..i], more[i], e, m) && forall j | i < j < |more| :: RemovesMember(more[j], m);
      assert i < |log| && more[i] == log[i] && more[..i] == log[..i];
      forall j | i < j < |log| ensures RemovesMember(log[j], m) { assert more[j] == log[j]; }
    }
  }

  // ----- what breaks a rule ----------------------------------------------------------------

  predicate TakesSlot(h: LogCommand) { h.ZAdd? && h.key == ActiveSet }

  /** A slot taken when more are then taken than there are. */
  ghost predicate OverCapacity(before: Log, h: LogCommand, p: Profile) {
    TakesSlot(h) && |MembersOf(before + [h], h.epoch, ActiveSet)| > p.capacity
  }

  /** A promotion that is one too many in the second that ends with it. */
  ghost predicate OverRate(before: Log, h: LogCommand, p: Profile) {
    TakesSlot(h) && |Promotions(before + [h], h.epoch, h.score - p.ttlMs - 1000, h.score - p.ttlMs, p)| > p.rate
  }

  /** A slot taken by an entry that had one before. */
  ghost predicate Again(before: Log, h: LogCommand) {
    TakesSlot(h) && Promoted(before, h.epoch, h.member)
  }

  /** Out of order: a sequence that another entry has, a first slot without having left the line, or a slot
      ahead of a smaller sequence that still waits. */
  ghost predicate OutOfOrder(before: Log, h: LogCommand) {
    || (h.ZAdd? && h.key == WaitingSet && exists m :: m != h.member && Given(before, h.epoch, h.score, m))
    || (TakesSlot(h) && !Promoted(before, h.epoch, h.member) && !exists q :: Left(before, h.epoch, h.member, q))
    || (TakesSlot(h) && exists q, x, r :: Left(before, h.epoch, h.member, q) && Waits(before, h.epoch, x, r) && r < q)
  }

  /** A claim that outlived its slot. */
  ghost predicate Outlives(log: Log, e: Epoch, m: AdmissionId) {
    Pending(log, e, m) && Holds(log, e, ClaimSet, m) && !Holds(log, e, ActiveSet, m)
  }

  /** A claim without a slot, or one whose slot is gone when the log moves on. */
  ghost predicate Slotless(before: Log, h: LogCommand) {
    || (h.ZAdd? && h.key == ClaimSet && !Holds(before, h.epoch, ActiveSet, h.member))
    || (!(h.Flush? && h.restart) && exists e, m :: Outlives(before, e, m) && !RemovesMember(h, m))
  }

  /** This command, after that log, breaks this rule of the queue. */
  ghost predicate Breaks(r: Rule, before: Log, h: LogCommand, p: Profile) {
    match r
    case Capacity => OverCapacity(before, h, p)
    case Rate => OverRate(before, h, p)
    case Repromotion => Again(before, h)
    case Fifo => OutOfOrder(before, h)
    case ClaimWithoutSlot => Slotless(before, h)
    case _ => false
  }
}
