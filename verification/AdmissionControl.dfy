/** The control record of an event and what `probe`, `initialize`, `freeze` and `publish` do with it,
    and the test every other operation has to pass first. */
module AdmissionControl {
  import opened AdmissionTypes
  import opened AdmissionSpace

  datatype Control = Control(generation: nat, epoch: Epoch, mode: Mode, runId: int, dirty: bool)

  /** KEYS[2..12] of one epoch: none of them exists, all of them pass `structures()`, or neither. */
  datatype Health = Absent | Sound | Broken

  datatype Ruling = Done | Refused(code: Code)

  function Probe(c: Option<Control>, h: Health, ended: bool, generation: nat, epoch: Epoch, runId: int): bool {
    && c.Some? && c.value.generation == generation && c.value.epoch == epoch && c.value.runId == runId
    && !c.value.dirty && c.value.mode != Frozen
    && h == Sound && !ended
  }

  /** A record of the same generation is only confirmed; an older one gives way, but only to a
      namespace that does not exist yet. */
  function Initialize(c: Option<Control>, h: Health, generation: nat, epoch: Epoch, runId: int): (r: (Option<Control>, Health, Ruling))
  {
    if c.Some? && c.value.generation > generation then (c, h, Refused(Recovering))
    else if c.Some? && c.value.generation == generation then
      if c.value.epoch != epoch || c.value.runId != runId || c.value.mode == Frozen || c.value.dirty || h != Sound
      then (c, h, Refused(Recovering))
      else (c, h, Done)
    else if h != Absent then (c, h, Refused(Recovering))
    else (Some(Control(generation, epoch, Initializing, runId, false)), Sound, Done)
  }

  function Freeze(c: Option<Control>, generation: nat, epoch: Epoch): (Option<Control>, Ruling) {
    if c.None? then (c, Refused(Recovering))
    else if c.value.epoch != epoch then (c, Refused(Reset))
    else if c.value.generation != generation then (c, Refused(Recovering))
    else (Some(c.value.(mode := Frozen)), Done)
  }

  function Publish(c: Option<Control>, h: Health, generation: nat, epoch: Epoch): (Option<Control>, Ruling) {
    if c.None? then (c, Refused(Recovering))
    else if c.value.epoch != epoch then (c, Refused(Reset))
    else if c.value.dirty || h != Sound then (c, Refused(Recovering))
    else if c.value.generation != generation || c.value.mode == Frozen then (c, Refused(Recovering))
    else (Some(c.value.(mode := Ready)), Done)
  }

  /** The refusal every queue operation meets before it looks at a single entry. */
  function Barred(c: Option<Control>, h: Health, epoch: Epoch, ended: bool, op: Op): Option<Reply> {
    if c.None? then Some(Refusal(Recovering, Some(1000), None))
    else if c.value.epoch != epoch then Some(Refusal(Reset, None, None))
    else if c.value.dirty || h != Sound || c.value.mode != Ready then Some(Refusal(Recovering, Some(1000), None))
    else if ended && !Finalizing(op) then Some(Refusal(Recovering, Some(1000), None))
    else None
  }

  /** Queue operations run exactly where a `publish` succeeded and nothing has happened since: on an intact
      namespace of the ready, clean record of this epoch; past the end only those that finish. A record of
      another epoch is answered as a reset, everything else as recovering. */
  lemma BarredUnlessPublished(c: Option<Control>, h: Health, generation: nat, epoch: Epoch, op: Op)
    ensures var (d, v) := Publish(c, h, generation, epoch);
      v == Done ==> Barred(d, h, epoch, false, op) == None && d.value.generation == generation
    ensures forall ended :: Barred(c, h, epoch, ended, op) == None <==>
      && c.Some? && c.value.epoch == epoch && c.value.mode == Ready && !c.value.dirty && h == Sound
      && (!ended || op.DoComplete? || op.DoClose? || op.DoReconcile?)
    ensures forall ended :: Barred(c, h, epoch, ended, op).Some? ==>
      Barred(c, h, epoch, ended, op) == Some(if Foreign(c, epoch) then Refusal(Reset, None, None) else Refusal(Recovering, Some(1000), None))
    ensures var (d, v) := Freeze(c, generation, epoch);
      v == Done ==>
        && Barred(d, h, epoch, false, op).Some?
        && Publish(d, h, generation, epoch).1 != Done
        && Initialize(d, h, generation, epoch, d.value.runId).2 != Done
  {}

  /** The life of a record: what `initialize` accepted passes `probe` and can be published, a repeated
      `initialize` confirms it, a new one replaces only an older record and only where no namespace
      is, a frozen one is dead, and no operation lowers a generation. */
  lemma ControlLife(c: Option<Control>, h: Health, generation: nat, epoch: Epoch, run: int)
    ensures var (d, k, v) := Initialize(c, h, generation, epoch, run);
      && (v == Done ==> Probe(d, k, false, generation, epoch, run) && Publish(d, k, generation, epoch).1 == Done && Initialize(d, k, generation, epoch, run) == (d, k, Done))
      && (v == Done <==> Probe(c, h, false, generation, epoch, run) || (h == Absent && (c.None? || c.value.generation < generation)))
      && (v == Done && (d, k) != (c, h) ==> (d, k) == (Some(Control(generation, epoch, Initializing, run, false)), Sound))
      && (v == Done && (d, k) != (c, h) ==> h == Absent && (c.None? || c.value.generation < generation))
      && (v != Done ==> (d, k) == (c, h) && v == Refused(Recovering))
      && NoLower(c, d)
    ensures Probe(c, h, false, generation, epoch, run) ==> Initialize(c, h, generation, epoch, run) == (c, h, Done)
    ensures var (d, v) := Publish(c, h, generation, epoch);
      && (v == Done ==> Probe(d, h, false, generation, epoch, d.value.runId) && Publish(d, h, generation, epoch) == (d, Done))
      && (v == Done <==> c.Some? && Probe(c, h, false, generation, epoch, c.value.runId))
      && (v == Done ==> d == Some(c.value.(mode := Ready)))
      && (v != Done ==> d == c && v == Refused(if Foreign(c, epoch) then Reset else Recovering)) && NoLower(c, d)
    ensures var (d, v) := Freeze(c, generation, epoch);
      && (v == Done ==> forall g, e, r :: !Probe(d, h, false, g, e, r))
      && (v == Done <==> c.Some? && c.value.generation == generation && c.value.epoch == epoch)
      && (v == Done ==> d == Some(c.value.(mode := Frozen)))
      && (v != Done ==> d == c && v == Refused(if Foreign(c, epoch) then Reset else Recovering)) && NoLower(c, d)
    ensures forall ended :: Probe(c, h, ended, generation, epoch, run) <==>
      c.Some? && !ended && h == Sound && (c.value == Control(generation, epoch, Initializing, run, false) || c.value == Control(generation, epoch, Ready, run, false))
  {}

  predicate Foreign(c: Option<Control>, epoch: Epoch) {
    c.Some? && c.value.epoch != epoch
  }

  predicate NoLower(c: Option<Control>, d: Option<Control>) {
    c.Some? ==> d.Some? && c.value.generation <= d.value.generation
  }

  // ----- generations as decimal strings ----------------------------------------------------

  predicate IsDigit(c: char) { '0' <= c <= '9' }

  /** A decimal numeral without leading zeros, as PostgreSQL prints a bigint. */
  predicate Canonical(a: string) {
    a != "" && (forall i | 0 <= i < |a| :: IsDigit(a[i])) && (|a| > 1 ==> a[0] != '0')
  }

  function Digit(c: char): nat {
    if IsDigit(c) then c as int - '0' as int else 0
  }

  function Value(a: string): nat {
    if a == "" then 0 else 10 * Value(a[..|a| - 1]) + Digit(a[|a| - 1])
  }

  /** Lua's > on strings, byte by byte; a proper prefix is smaller. */
  predicate Above(a: string, b: string) {
    if a == "" then false
    else if b == "" then true
    else a[0] > b[0] || (a[0] == b[0] && Above(a[1..], b[1..]))
  }

  predicate Newer(a: string, b: string) {
    |a| > |b| || (|a| == |b| && Above(a, b))
  }

  function Power(n: nat): nat { if n == 0 then 1 else 10 * Power(n - 1) }

  /** d * Power(n) without a product of two variables. */
  function Shifted(d: nat, n: nat): nat { if n == 0 then d else 10 * Shifted(d, n - 1) }

  lemma {:induction false} ShiftedGap(d: nat, e: nat, n: nat)
    requires d > e
    ensures Shifted(d, n) >= Shifted(e, n) + Power(n)
    decreases n
  {
    if n > 0 { ShiftedGap(d, e, n - 1); }
  }

  lemma {:induction false} ValueFromTheLeft(a: string)
    requires a != ""
    ensures Value(a) == Shifted(Digit(a[0]), |a| - 1) + Value(a[1..])
    decreases |a|
  {
    var n := |a| - 1;
    if n == 0 {
      assert a[..n] == "" && a[1..] == "";
    } else {
      var init := a[..n];
      ValueFromTheLeft(init);
      assert init[1..] == a[1..][..n - 1];
      assert a[1..][n - 1] == a[n];
    }
  }

  lemma {:induction false} ValueBelow(a: string)
    ensures Value(a) < Power(|a|)
    decreases |a|
  {
    if a != "" { ValueBelow(a[..|a| - 1]); }
  }

  lemma {:induction false} AboveIsGreater(a: string, b: string)
    requires |a| == |b| && (forall i | 0 <= i < |a| :: IsDigit(a[i])) && (forall i | 0 <= i < |b| :: IsDigit(b[i]))
    ensures Above(a, b) <==> Value(a) > Value(b)
    decreases |a|
  {
    if a != "" {
      ValueFromTheLeft(a);
      ValueFromTheLeft(b);
      ValueBelow(a[1..]);
      ValueBelow(b[1..]);
      AboveIsGreater(a[1..], b[1..]);
      var d, e := Digit(a[0]), Digit(b[0]);
      if d > e { ShiftedGap(d, e, |a| - 1); } else if e > d { ShiftedGap(e, d, |a| - 1); }
    }
  }

  lemma {:induction false} PowerGrows(m: nat, n: nat)
    requires m <= n
    ensures 1 <= Power(m) <= Power(n)
    decreases n
  {
    if m < n { PowerGrows(m, n - 1); } else if n > 0 { PowerGrows(m - 1, n - 1); }
  }

  lemma LongerIsGreater(a: string, b: string)
    requires Canonical(a) && Canonical(b) && |a| > |b|
    ensures Value(a) > Value(b)
  {
    ValueFromTheLeft(a);
    ValueBelow(b);
    PowerGrows(|b|, |a| - 1);
    ShiftedGap(Digit(a[0]), 0, |a| - 1);
  }

  /** The script's string comparison is the comparison of the numbers the strings stand for. */
  lemma NewerIsGreater(a: string, b: string)
    requires Canonical(a) && Canonical(b)
    ensures Newer(a, b) <==> Value(a) > Value(b)
  {
    if |a| > |b| { LongerIsGreater(a, b); }
    else if |b| > |a| { LongerIsGreater(b, a); }
    else { AboveIsGreater(a, b); }
  }
}
