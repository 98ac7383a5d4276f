/** The comparison of one epoch's ledger rows with its Redis entries, as it runs and as what it means. */
module LedgerCheck {
  import opened AdmissionTypes
  import opened AdmissionSpace
  import opened Protocol
  import opened Reflection

  datatype Problem =
    | NoEntry(id: AdmissionId) | Unfit(id: AdmissionId)
    | ConsumedWithoutRow(id: AdmissionId) | ExpiredWithoutClosed(id: AdmissionId) | ClaimedWithoutRow(id: AdmissionId)

  predicate RowMatches(row: Row, x: Entry) {
    match row.result
    case ClosedRow => x.state == Expired && x.reason == Some(AdmissionExpired)
    case RejectedRow(code) =>
      x.state == Consumed && x.outcome.Some? && x.outcome.value.kind == OutcomeKind.Rejected && x.outcome.value.code == Some(code)
    case ConsumedRow(resource) =>
      x.state == Consumed && x.outcome.Some? && x.outcome.value.kind == Bought(row.operation) && x.outcome.value.resource == Some(resource)
  }

  function RowProblem(row: Row, entryOf: map<AdmissionId, Entry>): seq<Problem> {
    if row.admission !in entryOf then [NoEntry(row.admission)]
    else if Claimed(entryOf[row.admission]) || RowMatches(row, entryOf[row.admission]) then []
    else [Unfit(row.admission)]
  }

  function EntryProblem(x: Entry, rowOf: map<AdmissionId, Row>): seq<Problem> {
    if x.id in rowOf || Claimed(x) then []
    else if x.state == Consumed then [ConsumedWithoutRow(x.id)]
    else if x.state == Expired && x.fingerprint.Some? then [ExpiredWithoutClosed(x.id)]
    else if x.fingerprint.Some? then [ClaimedWithoutRow(x.id)]
    else []
  }

  function EntryMap(entries: seq<Entry>): map<AdmissionId, Entry> {
    if entries == [] then map[] else
      EntryMap(entries[..|entries| - 1])[entries[|entries| - 1].id := entries[|entries| - 1]]
  }

  function RowMap(rows: seq<Row>): map<AdmissionId, Row> {
    if rows == [] then map[] else
      RowMap(rows[..|rows| - 1])[rows[|rows| - 1].admission := rows[|rows| - 1]]
  }

  function RowProblems(rows: seq<Row>, entryOf: map<AdmissionId, Entry>): seq<Problem> {
    if rows == [] then [] else
      RowProblems(rows[..|rows| - 1], entryOf) + RowProblem(rows[|rows| - 1], entryOf)
  }

  function EntryProblems(entries: seq<Entry>, rowOf: map<AdmissionId, Row>): seq<Problem> {
    if entries == [] then [] else
      EntryProblems(entries[..|entries| - 1], rowOf) + EntryProblem(entries[|entries| - 1], rowOf)
  }

  lemma OneMoreRow(rows: seq<Row>, i: nat, entryOf: map<AdmissionId, Entry>)
    requires i < |rows|
    ensures RowMap(rows[..i + 1]) == RowMap(rows[..i])[rows[i].admission := rows[i]]
    ensures RowProblems(rows[..i + 1], entryOf) == RowProblems(rows[..i], entryOf) + RowProblem(rows[i], entryOf)
  {
    hide RowProblem;
    assert rows[..i + 1][..i] == rows[..i];
  }

  lemma OneMoreEntry(entries: seq<Entry>, i: nat, rowOf: map<AdmissionId, Row>)
    requires i < |entries|
    ensures EntryMap(entries[..i + 1]) == EntryMap(entries[..i])[entries[i].id := entries[i]]
    ensures EntryProblems(entries[..i + 1], rowOf) == EntryProblems(entries[..i], rowOf) + EntryProblem(entries[i], rowOf)
  {
    hide EntryProblem;
    assert entries[..i + 1][..i] == entries[..i];
  }

  lemma NoneYet(rows: seq<Row>, entries: seq<Entry>)
    ensures RowMap(rows[..0]) == map[] && EntryMap(entries[..0]) == map[]
    ensures forall m :: RowProblems(rows[..0], m) == []
    ensures forall m :: EntryProblems(entries[..0], m) == []
  {}

  method LedgerMismatches(rows: seq<Row>, entries: seq<Entry>) returns (problems: seq<Problem>)
    ensures problems == RowProblems(rows, EntryMap(entries)) + EntryProblems(entries, RowMap(rows))
  {
    hide RowMatches; hide Claimed; hide RowMap; hide EntryMap; hide RowProblems; hide EntryProblems;
    NoneYet(rows, entries);
    var entryOf: map<AdmissionId, Entry> := map[];
    for i := 0 to |entries|
      invariant entryOf == EntryMap(entries[..i])
    {
      OneMoreEntry(entries, i, map[]);
      entryOf := entryOf[entries[i].id := entries[i]];
    }
    assert entries[..|entries|] == entries;
    var rowOf: map<AdmissionId, Row> := map[];
    for i := 0 to |rows|
      invariant rowOf == RowMap(rows[..i])
    {
      OneMoreRow(rows, i, map[]);
      rowOf := rowOf[rows[i].admission := rows[i]];
    }
    assert rows[..|rows|] == rows;
    problems := [];
    for i := 0 to |rows|
      invariant problems == RowProblems(rows[..i], entryOf)
    {
      OneMoreRow(rows, i, entryOf);
      var row := rows[i];
      if row.admission !in entryOf {
        problems := problems + [NoEntry(row.admission)];
      } else if !Claimed(entryOf[row.admission]) && !RowMatches(row, entryOf[row.admission]) {
        problems := problems + [Unfit(row.admission)];
      }
    }
    ghost var first := problems;
    hide RowProblem;
    for i := 0 to |entries|
      invariant problems == first + EntryProblems(entries[..i], rowOf)
    {
      OneMoreEntry(entries, i, rowOf);
      var x := entries[i];
      if x.id !in rowOf && !Claimed(x) {
        if x.state == Consumed { problems := problems + [ConsumedWithoutRow(x.id)]; }
        else if x.state == Expired && x.fingerprint.Some? { problems := problems + [ExpiredWithoutClosed(x.id)]; }
        else if x.fingerprint.Some? { problems := problems + [ClaimedWithoutRow(x.id)]; }
      }
    }
  }

  /** The rows are those of a ledger and the entries those of a namespace, each once, in any order. */
  ghost predicate Lists(rows: seq<Row>, entries: seq<Entry>, l: Ledger, s: Space) {
    && (forall i | 0 <= i < |rows| :: rows[i].admission in l && l[rows[i].admission] == rows[i] && rows[i].epoch == s.epoch)
    && (forall a | a in l && l[a].epoch == s.epoch :: l[a] in rows)
    && (forall i | 0 <= i < |entries| :: entries[i].id in s.entries && s.entries[entries[i].id] == entries[i])
    && (forall id | id in s.entries :: s.entries[id] in entries)
  }

  lemma {:induction false} EntryMapHas(entries: seq<Entry>, id: AdmissionId)
    ensures id in EntryMap(entries) <==> exists i :: 0 <= i < |entries| && entries[i].id == id
    ensures id in EntryMap(entries) ==> EntryMap(entries)[id] in entries && EntryMap(entries)[id].id == id
  {
    if entries != [] {
      var n := |entries| - 1;
      EntryMapHas(entries[..n], id);
      if entries[n].id != id {
        assert (exists i :: 0 <= i < n && entries[..n][i].id == id) <==> (exists i :: 0 <= i < |entries| && entries[i].id == id) by {
          if i :| 0 <= i < |entries| && entries[i].id == id { assert entries[..n][i].id == id; }
        }
      }
    }
  }

  lemma {:induction false} RowMapHas(rows: seq<Row>, id: AdmissionId)
    ensures id in RowMap(rows) <==> exists i :: 0 <= i < |rows| && rows[i].admission == id
  {
    if rows != [] {
      var n := |rows| - 1;
      RowMapHas(rows[..n], id);
      if rows[n].admission != id {
        assert (exists i :: 0 <= i < n && rows[..n][i].admission == id) <==> (exists i :: 0 <= i < |rows| && rows[i].admission == id) by {
          if i :| 0 <= i < |rows| && rows[i].admission == id { assert rows[..n][i].admission == id; }
        }
      }
    }
  }

  lemma {:induction false} RowProblemsIff(rows: seq<Row>, entryOf: map<AdmissionId, Entry>)
    ensures RowProblems(rows, entryOf) == [] <==> forall i | 0 <= i < |rows| :: RowProblem(rows[i], entryOf) == []
  {
    hide RowProblem;
    if rows != [] {
      var n := |rows| - 1;
      RowProblemsIff(rows[..n], entryOf);
      assert forall i | 0 <= i < n :: rows[..n][i] == rows[i];
    }
  }

  lemma {:induction false} EntryProblemsIff(entries: seq<Entry>, rowOf: map<AdmissionId, Row>)
    ensures EntryProblems(entries, rowOf) == [] <==> forall i | 0 <= i < |entries| :: EntryProblem(entries[i], rowOf) == []
  {
    hide EntryProblem;
    if entries != [] {
      var n := |entries| - 1;
      EntryProblemsIff(entries[..n], rowOf);
      assert forall i | 0 <= i < n :: entries[..n][i] == entries[i];
    }
  }

  /** Entry by entry, what the two loops ask: a row needs an entry that is open or final as the row
      says, and an entry that was claimed and is not open, or is consumed, needs a row. */
  predicate Agrees(x: Entry, row: Option<Row>) {
    (x.state == Admitted && x.phase != Idle) ||
    match row
    case None => x.state != Consumed && x.fingerprint.None?
    case Some(r) => match r.result
      case ClosedRow => x.state == Expired && x.reason == Some(AdmissionExpired)
      case RejectedRow(code) => x.state == Consumed && x.outcome.Some? && x.outcome.value.kind == OutcomeKind.Rejected && x.outcome.value.code == Some(code)
      case ConsumedRow(made) => x.state == Consumed && x.outcome.Some? && x.outcome.value.kind == Bought(r.operation) && x.outcome.value.resource == Some(made)
  }

  /** The comparison finds nothing exactly when every row has its entry and every entry agrees. */
  lemma NoMismatchIff(rows: seq<Row>, entries: seq<Entry>, l: Ledger, s: Space)
    requires Lists(rows, entries, l, s)
    requires forall id | id in s.entries :: s.entries[id].id == id
    requires forall a | a in l :: l[a].admission == a
    requires forall id | id in s.entries && id in l :: l[id].epoch == s.epoch
    ensures RowProblems(rows, EntryMap(entries)) + EntryProblems(entries, RowMap(rows)) == [] <==>
      && (forall a | a in l && l[a].epoch == s.epoch :: a in s.entries)
      && (forall id | id in s.entries :: Agrees(s.entries[id], RowIn(l, id)))
  {
    var entryOf, rowOf := EntryMap(entries), RowMap(rows);
    forall id ensures id in entryOf <==> id in s.entries {
      EntryMapHas(entries, id);
      if id in s.entries { var i :| 0 <= i < |entries| && entries[i] == s.entries[id]; }
    }
    forall id | id in entryOf ensures entryOf[id] == s.entries[id] { EntryMapHas(entries, id); }
    forall a ensures a in rowOf <==> a in l && l[a].epoch == s.epoch {
      RowMapHas(rows, a);
      if a in l && l[a].epoch == s.epoch { var i :| 0 <= i < |rows| && rows[i] == l[a]; }
    }
    RowProblemsIff(rows, entryOf);
    EntryProblemsIff(entries, rowOf);
    RowsAgree(rows, entryOf, l, s);
    EntriesAgree(entries, rowOf, l, s);
  }

  lemma RowsAgree(rows: seq<Row>, entryOf: map<AdmissionId, Entry>, l: Ledger, s: Space)
    requires forall i | 0 <= i < |rows| :: rows[i].admission in l && l[rows[i].admission] == rows[i] && rows[i].epoch == s.epoch
    requires forall a | a in l && l[a].epoch == s.epoch :: l[a] in rows && l[a].admission == a
    requires forall id :: id in entryOf <==> id in s.entries
    requires forall id | id in entryOf :: entryOf[id] == s.entries[id]
    ensures (forall i | 0 <= i < |rows| :: RowProblem(rows[i], entryOf) == []) <==>
      forall a | a in l && l[a].epoch == s.epoch :: a in s.entries && Agrees(s.entries[a], Some(l[a]))
  {
    if forall i | 0 <= i < |rows| :: RowProblem(rows[i], entryOf) == [] {
      forall a | a in l && l[a].epoch == s.epoch ensures a in s.entries && Agrees(s.entries[a], Some(l[a])) {
        var i :| 0 <= i < |rows| && rows[i] == l[a];
        assert RowProblem(rows[i], entryOf) == [];
      }
    }
    if forall a | a in l && l[a].epoch == s.epoch :: a in s.entries && Agrees(s.entries[a], Some(l[a])) {
      forall i | 0 <= i < |rows| ensures RowProblem(rows[i], entryOf) == [] {
        var a := rows[i].admission;
        assert a in l && l[a].epoch == s.epoch;
      }
    }
  }

  lemma EntriesAgree(entries: seq<Entry>, rowOf: map<AdmissionId, Row>, l: Ledger, s: Space)
    requires forall i | 0 <= i < |entries| :: entries[i].id in s.entries && s.entries[entries[i].id] == entries[i]
    requires forall id | id in s.entries :: s.entries[id] in entries && s.entries[id].id == id
    requires forall a :: a in rowOf <==> a in l && l[a].epoch == s.epoch
    requires forall id | id in s.entries && id in l :: l[id].epoch == s.epoch
    ensures (forall i | 0 <= i < |entries| :: EntryProblem(entries[i], rowOf) == []) <==>
      forall id | id in s.entries && id !in l :: Agrees(s.entries[id], None)
  {
    if forall i | 0 <= i < |entries| :: EntryProblem(entries[i], rowOf) == [] {
      forall id | id in s.entries && id !in l ensures Agrees(s.entries[id], None) {
        var i :| 0 <= i < |entries| && entries[i] == s.entries[id];
        assert EntryProblem(entries[i], rowOf) == [];
      }
    }
    if forall id | id in s.entries && id !in l :: Agrees(s.entries[id], None) {
      forall i | 0 <= i < |entries| ensures EntryProblem(entries[i], rowOf) == [] {
        var id := entries[i].id;
        if id !in l { assert Agrees(s.entries[id], None); }
      }
    }
  }

  // ----- problem by problem ----------------------------------------------------------------

  lemma {:induction false} RowProblemsIn(rows: seq<Row>, entryOf: map<AdmissionId, Entry>, q: Problem)
    ensures q in RowProblems(rows, entryOf) <==> exists i | 0 <= i < |rows| :: q in RowProblem(rows[i], entryOf)
    decreases |rows|
  {
    hide RowProblem;
    if rows != [] {
      var n := |rows| - 1;
      RowProblemsIn(rows[..n], entryOf, q);
      assert forall i | 0 <= i < n :: rows[..n][i] == rows[i];
    }
  }

  lemma {:induction false} EntryProblemsIn(entries: seq<Entry>, rowOf: map<AdmissionId, Row>, q: Problem)
    ensures q in EntryProblems(entries, rowOf) <==> exists i | 0 <= i < |entries| :: q in EntryProblem(entries[i], rowOf)
    decreases |entries|
  {
    hide EntryProblem;
    if entries != [] {
      var n := |entries| - 1;
      EntryProblemsIn(entries[..n], rowOf, q);
      assert forall i | 0 <= i < n :: entries[..n][i] == entries[i];
    }
  }

  /** When each problem is there to be found. */
  predicate IsProblem(q: Problem, l: Ledger, s: Space) {
    var row := q.id in l && l[q.id].epoch == s.epoch;
    match q
    case NoEntry(id) => row && id !in s.entries
    case Unfit(id) => row && id in s.entries && !Agrees(s.entries[id], Some(l[id]))
    case ConsumedWithoutRow(id) => !row && id in s.entries && s.entries[id].state == Consumed
    case ExpiredWithoutClosed(id) => !row && id in s.entries && s.entries[id].state == Expired && s.entries[id].fingerprint.Some?
    case ClaimedWithoutRow(id) =>
      !row && id in s.entries && s.entries[id].fingerprint.Some?
      && match s.entries[id].state
         case Consumed => false
         case Expired => false
         case Admitted => s.entries[id].phase == Idle
         case _ => true
  }

  /** The comparison lists exactly the problems there are. */
  lemma EachProblem(rows: seq<Row>, entries: seq<Entry>, l: Ledger, s: Space, q: Problem)
    requires Lists(rows, entries, l, s)
    requires forall id | id in s.entries :: s.entries[id].id == id
    requires forall a | a in l :: l[a].admission == a
    ensures q in RowProblems(rows, EntryMap(entries)) + EntryProblems(entries, RowMap(rows)) <==> IsProblem(q, l, s)
  {
    var entryOf, rowOf := EntryMap(entries), RowMap(rows);
    EntryMapHas(entries, q.id);
    RowMapHas(rows, q.id);
    RowProblemsIn(rows, entryOf, q);
    EntryProblemsIn(entries, rowOf, q);
    if q.id in s.entries { var i :| 0 <= i < |entries| && entries[i] == s.entries[q.id]; }
    if q.id in l && l[q.id].epoch == s.epoch { var i :| 0 <= i < |rows| && rows[i] == l[q.id]; }
    hide Lists; hide EntryMap; hide RowMap; hide RowProblems; hide EntryProblems;
    OneRow(rows, entryOf, l, s, q) by { assert Lists(rows, entries, l, s); }
    OneEntry(entries, rowOf, l, s, q) by { assert Lists(rows, entries, l, s); }
  }

  lemma OneRow(rows: seq<Row>, entryOf: map<AdmissionId, Entry>, l: Ledger, s: Space, q: Problem)
    requires forall i | 0 <= i < |rows| :: rows[i].admission in l && l[rows[i].admission] == rows[i] && rows[i].epoch == s.epoch
    requires q.id in l && l[q.id].epoch == s.epoch ==> l[q.id] in rows && l[q.id].admission == q.id
    requires q.id in entryOf <==> q.id in s.entries
    requires q.id in entryOf ==> entryOf[q.id] == s.entries[q.id]
    ensures (exists i | 0 <= i < |rows| :: q in RowProblem(rows[i], entryOf)) <==> (q.NoEntry? || q.Unfit?) && IsProblem(q, l, s)
  {
    if i :| 0 <= i < |rows| && q in RowProblem(rows[i], entryOf) {
      assert rows[i].admission == q.id;
    }
    if (q.NoEntry? || q.Unfit?) && IsProblem(q, l, s) {
      var i :| 0 <= i < |rows| && rows[i] == l[q.id];
      assert q in RowProblem(rows[i], entryOf);
    }
  }

  lemma OneEntry(entries: seq<Entry>, rowOf: map<AdmissionId, Row>, l: Ledger, s: Space, q: Problem)
    requires forall i | 0 <= i < |entries| :: entries[i].id in s.entries && s.entries[entries[i].id] == entries[i]
    requires q.id in s.entries ==> s.entries[q.id] in entries && s.entries[q.id].id == q.id
    requires q.id in rowOf <==> q.id in l && l[q.id].epoch == s.epoch
    ensures (exists i | 0 <= i < |entries| :: q in EntryProblem(entries[i], rowOf)) <==> !q.NoEntry? && !q.Unfit? && IsProblem(q, l, s)
  {
    if i :| 0 <= i < |entries| && q in EntryProblem(entries[i], rowOf) {
      assert entries[i].id == q.id;
    }
    if !q.NoEntry? && !q.Unfit? && IsProblem(q, l, s) {
      var i :| 0 <= i < |entries| && entries[i] == s.entries[q.id];
      assert q in EntryProblem(entries[i], rowOf);
    }
  }
}
