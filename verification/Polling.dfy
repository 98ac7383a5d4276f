/** The browser's admission controller: closure state that every event handler updates in place. Each
    handler is proved to extend the trace only as PollingTrace allows. */
module Polling {
  import opened AdmissionTypes
  import opened PollingTrace

  // ----- delays ----------------------------------------------------------------------------

  const HIDDEN_MS := 15000
  const MIN_MS := 1000
  const MAX_MS := 5000
  const CAP_MS := 15000

  function Round(x: real): int { (x + 0.5).Floor }

  function Positive(x: int): int { if x > 0 then x else 0 }

  function Larger(x: real, y: real): real { if x < y then y else x }

  function Smaller(x: real, y: real): real { if x < y then x else y }

  function Jittered(ms: int, u: real): real { ms as real * (1.0 + 0.2 * u) }

  function BackoffStep(failures: nat): int {
    if failures <= 1 then 1000 else if failures == 2 then 2000 else if failures == 3 then 4000 else if failures == 4 then 8000 else 15000
  }

  function SuccessDelay(adaptive: bool, hidden: bool, baseMs: int, u: real): int {
    if hidden then HIDDEN_MS
    else if !adaptive then MIN_MS
    else
      var base := if Positive(baseMs) > 0 then baseMs else MAX_MS;
      Round(Smaller(MAX_MS as real, Larger(MIN_MS as real, Jittered(base, u))))
  }

  function FailureDelay(failures: nat, hidden: bool, serverMin: int, retryAfter: int, u: real): int {
    var backoff := Smaller(CAP_MS as real, Jittered(BackoffStep(failures), u));
    Round(Larger(backoff, Larger(if hidden then HIDDEN_MS as real else 0.0,
                                 Larger(Positive(serverMin) as real, Positive(retryAfter) as real))))
  }

  /** A failure is never followed sooner than the server asked, and a hidden tab waits no less. */
  lemma FailureDelayHolds(failures: nat, hidden: bool, serverMin: int, retryAfter: int, u: real)
    requires -1.0 <= u < 1.0
    ensures FailureDelay(failures, hidden, serverMin, retryAfter, u) >= serverMin
    ensures FailureDelay(failures, hidden, serverMin, retryAfter, u) >= retryAfter
    ensures FailureDelay(failures, hidden, serverMin, retryAfter, u) >= 0
    ensures FailureDelay(failures, true, serverMin, retryAfter, u) >= FailureDelay(failures, false, serverMin, retryAfter, u)
    ensures serverMin <= 15000 && retryAfter <= 15000 ==> FailureDelay(failures, hidden, serverMin, retryAfter, u) <= 15000
  {}

  lemma SuccessDelayHolds(adaptive: bool, hidden: bool, baseMs: int, u: real)
    ensures var d := SuccessDelay(adaptive, hidden, baseMs, u); if hidden then d == 15000 else 1000 <= d <= 5000
  {}

  /** After the k-th failure in a row the wait is the k-th of 1, 2, 4, 8 and then always 15 seconds, give or
      take a fifth by the draw and never more than 15; or, if that is longer, what the server or a hidden tab asks. */
  lemma FailureDelayIs(failures: nat, hidden: bool, serverMin: int, retryAfter: int, u: real)
    requires 1 <= failures && -1.0 <= u < 1.0
    ensures var d := FailureDelay(failures, hidden, serverMin, retryAfter, u);
      var step := [1000.0, 2000.0, 4000.0, 8000.0, 15000.0][if failures <= 5 then failures - 1 else 4];
      var drawn := step + step * u / 5.0;
      var backoff := if drawn < 15000.0 then drawn else 15000.0;
      && (hidden ==> d >= 15000) && d >= serverMin && d >= retryAfter && d as real >= backoff - 0.5
      && (d == serverMin || d == retryAfter || (hidden && d == 15000) || backoff - 0.5 <= d as real <= backoff + 0.5)
  {}

  /** After a success: fifteen seconds in a hidden tab, one second without adaption, and else what the server
      asked for, or five seconds, give or take a fifth, and between one second and five. */
  lemma SuccessDelayIs(adaptive: bool, hidden: bool, baseMs: int, u: real)
    ensures var d := SuccessDelay(adaptive, hidden, baseMs, u);
      var base := if baseMs > 0 then baseMs as real else 5000.0;
      var drawn := base + base * u / 5.0;
      if hidden then d == 15000
      else if !adaptive || drawn <= 1000.0 then d == 1000
      else if drawn >= 5000.0 then d == 5000
      else drawn - 0.5 <= d as real <= drawn + 0.5
  {}

  // ----- the controller --------------------------------------------------------------------

  datatype Face = Loading | NotEnabled | NotJoined | ResetShown | Entered(state: EntryState, processing: bool)
  datatype BuyStatus = Sending | Retrying | Unconfirmed
  datatype Buy = Buy(body: Body, status: BuyStatus, auto: nat, timer: Option<int>)

  predicate Joinable(f: Face) {
    f.NotJoined? || f.ResetShown? || (f.Entered? && (f.state == Consumed || f.state == Cancelled || f.state == Expired))
  }

  /** The queue started over while this user had a place in it. */
  predicate LosesOrder(s: Shown, epoch: Option<Epoch>, admission: Option<AdmissionId>, face: Face) {
    epoch.Some? && s.epoch != epoch.value && admission.Some? && face.Entered? && (face.state == Waiting || face.state == Admitted)
  }

  /** The controller's fields as one value. */
  datatype Fields = Fields(
    clock: int, lastDone: int, notBefore: int, flight: Option<Request>, pollDue: Option<int>,
    started: bool, disposed: bool, busy: bool, intent: Option<Request>, purchase: Option<Buy>)

  predicate Timely(g: Reading, f: Fields) {
    && g.flight == f.flight && g.notBefore == f.notBefore && 0 <= f.clock && 0 <= f.notBefore && f.lastDone <= f.clock
    && (f.busy <==> f.flight.Some? && (f.flight.value.JoinRequest? || f.flight.value.CancelRequest?))
    && (f.flight.Some? && f.flight.value.StatusRequest? ==> !g.buying)
    && (f.pollDue.Some? ==> f.pollDue.value >= f.notBefore && !g.buying)
    && (f.disposed ==> f.flight.None? && f.pollDue.None?) && (f.disposed <==> g.over)
    && (f.flight.Some? || f.pollDue.Some? || f.purchase.Some? ==> f.started)
    && (!f.started ==> f.notBefore == 0)
  }

  /** An open join is the intent, and a fresh intent has a fresh key. */
  predicate Intended(g: Reading, f: Fields) {
    && (f.intent.Some? ==> f.intent.value.JoinRequest?)
    && (g.join.Some? ==> g.join == f.intent)
    && (f.intent.Some? && g.join.None? ==> f.intent.value.key !in g.keys)
  }

  predicate Buying(g: Reading, f: Fields) {
    && (f.purchase.None? ==> g.purchase.None?)
    && (f.purchase.Some? && g.purchase.Some? ==> g.purchase.value == f.purchase.value.body)
    && (f.disposed || (
          && (g.buying <==> f.purchase.Some? && f.purchase.value.status != Unconfirmed)
          && (g.buying ==> g.auto == f.purchase.value.auto)
          && (f.purchase.Some? && f.purchase.value.status == Retrying ==> f.flight.None? && f.purchase.value.timer.Some?)
          && (f.purchase.Some? && f.purchase.value.status == Sending ==> f.flight.Some? && f.flight.value.PurchaseRequest?)))
    && (f.flight.Some? && f.flight.value.PurchaseRequest? ==> f.purchase.Some? && f.purchase.value.status == Sending)
  }

  /** The fields are what the trace says. */
  predicate Coherent(g: Reading, f: Fields) {
    Timely(g, f) && Intended(g, f) && Buying(g, f)
  }

  // ----- what each part of a handler keeps -------------------------------------------------

  predicate Purchasing(p: Option<Buy>) {
    p.Some? && p.value.status != Unconfirmed
  }

  lemma Facts(g: Reading, f: Fields)
    requires Coherent(g, f)
    ensures g.flight == f.flight && g.notBefore == f.notBefore && 0 <= f.clock && 0 <= f.notBefore
    ensures f.flight.Some? || f.pollDue.Some? || Purchasing(f.purchase) ==> f.started
    ensures f.flight.Some? && !f.busy ==> f.flight.value.StatusRequest? || f.flight.value.PurchaseRequest?
    ensures !f.disposed && !Purchasing(f.purchase) ==> !g.buying && (f.flight.Some? ==> !f.flight.value.PurchaseRequest?)
    ensures f.disposed ==> f.flight.None? && f.pollDue.None?
    ensures f.disposed <==> g.over
    ensures !f.disposed && Purchasing(f.purchase) ==> g.buying && f.pollDue.None?
    ensures f.pollDue.Some? ==> f.pollDue.value >= f.notBefore
    ensures !f.started ==> f.notBefore == 0 && f.flight.None? && f.purchase.None?
  {}

  lemma NotBusy(g: Reading, f: Fields)
    requires Coherent(g, f) && f.flight.None?
    ensures !f.busy
  {}

  lemma Running(g: Reading, f: Fields)
    requires Coherent(g, f) && f.flight.Some? && !f.disposed
    ensures f.started
    ensures f.flight.value.PurchaseRequest? ==> f.purchase.Some? && f.pollDue.None? && !f.busy
    ensures !f.flight.value.PurchaseRequest? ==> !Purchasing(f.purchase)
  {}

  lemma TickKeeps(g: Reading, f: Fields, t: Fields)
    requires Coherent(g, f) && f.clock <= t.clock && t == f.(clock := t.clock)
    ensures Coherent(g, t)
  {}

  lemma TimedKeeps(g: Reading, f: Fields, t: Fields)
    requires Coherent(g, f) && f.clock <= t.clock && t == f.(clock := t.clock, pollDue := t.pollDue)
    requires t.pollDue.Some? ==> t.pollDue.value >= f.notBefore && f.started && !f.disposed && !Purchasing(f.purchase)
    ensures Coherent(g, t)
  {}

  lemma DropKeeps(g: Reading, f: Fields, t: Fields)
    requires Coherent(g, f) && (f.flight.Some? ==> f.flight.value.StatusRequest?) && t == f.(flight := None, pollDue := None)
    ensures Coherent(g.(flight := None), t)
  {}

  /** A request to the queue API is sent: a join makes its attempt the intent. */
  lemma SentKeeps(g: Reading, f: Fields, t: Fields, q: Request)
    requires Coherent(g, f) && f.started && !f.disposed && f.flight.None? && !Purchasing(f.purchase)
    requires !q.PurchaseRequest? && f.notBefore <= t.clock && f.clock <= t.clock
    requires q.JoinRequest? ==> if f.intent.Some? && f.intent.value.epoch == q.epoch then q == f.intent.value else q.key !in g.keys
    requires t == f.(clock := t.clock, flight := Some(q), busy := q.JoinRequest? || q.CancelRequest?,
        intent := if q.JoinRequest? then Some(q) else f.intent)
    ensures Allowed(g, Sent(q, t.clock)) && Coherent(After(g, Sent(q, t.clock)), t)
  {}

  /** A purchase is sent: a running one as it was, any other with its automatic repeats ahead of it. */
  lemma BuySentKeeps(g: Reading, f: Fields, t: Fields, b: Buy)
    requires Coherent(g, f) && f.started && !f.disposed && f.flight.None? && f.pollDue.None? && f.clock <= t.clock
    requires f.purchase.Some? ==> b.body == f.purchase.value.body
    requires b.status == Sending && b.auto == if Purchasing(f.purchase) then f.purchase.value.auto else 0
    requires t == f.(clock := t.clock, flight := Some(PurchaseRequest(b.body)), purchase := Some(b))
    ensures Allowed(g, Sent(PurchaseRequest(b.body), t.clock)) && Coherent(After(g, Sent(PurchaseRequest(b.body), t.clock)), t)
  {}

  lemma StopKeeps(g: Reading, f: Fields, t: Fields)
    requires Coherent(g, f) && !f.disposed && Purchasing(f.purchase) && f.clock <= t.clock
    requires t == f.(clock := t.clock, flight := None, purchase := Some(f.purchase.value.(timer := None, status := Unconfirmed)))
    ensures Allowed(g, Stopped) && Coherent(After(g, Stopped), t)
  {}

  lemma QueueAnswered(g: Reading, f: Fields, t: Fields, h: Happening)
    requires Coherent(g, f) && f.flight.Some? && !f.flight.value.PurchaseRequest? && !f.disposed
    requires h.Heard? && t.clock >= f.clock && t.notBefore >= 0
    requires t == f.(clock := t.clock, lastDone := t.clock, flight := None, busy := false, notBefore := After(g, h).notBefore,
        intent := t.intent, pollDue := t.pollDue)
    requires t.intent == f.intent || t.intent.None?
    requires (t.intent.None? ==> After(g, h).join.None?) && (g.join.Some? && After(g, h).join.None? ==> t.intent.None?)
    requires t.pollDue.Some? ==> t.pollDue.value >= t.notBefore
    ensures Coherent(After(g, h), t)
  {}

  /** Another entry than the one a join started from ends that attempt. */
  function IntentAfter(intent: Option<Request>, s: Shown): Option<Request> {
    if intent.Some? && intent.value.JoinRequest? && s.entry.Some? && s.entry != intent.value.from then None else intent
  }

  lemma AcceptedAnswered(g: Reading, f: Fields, t: Fields, q: Request, r: Reply)
    requires Coherent(g, f) && f.flight == Some(q) && !f.disposed && t.clock >= f.clock && Accepted(q, r)
    requires t == f.(clock := t.clock, lastDone := t.clock, flight := None, busy := false, notBefore := 0,
        intent := IntentAfter(f.intent, r.shown.value), pollDue := t.pollDue)
    requires t.pollDue == f.pollDue || (t.pollDue.Some? && t.pollDue.value >= 0)
    ensures Coherent(After(g, Heard(r, 0, t.clock)), t)
  {
    QueueAnswered(g, f, t, Heard(r, 0, t.clock));
  }

  /** What an answer makes of the purchase: over, to be repeated, or left to the user. */
  function AfterReply(b: Buy, r: Reply, now: int, delay: int): Option<Buy> {
    if !StaysOpen(r) then None
    else if b.auto >= AUTO_RETRIES then Some(b.(status := Unconfirmed))
    else Some(b.(auto := b.auto + 1, status := Retrying, timer := Some(now + delay)))
  }

  lemma BuyAnswered(g: Reading, f: Fields, t: Fields, r: Reply, delay: int)
    requires Coherent(g, f) && f.flight.Some? && f.flight.value.PurchaseRequest? && f.purchase.Some? && !f.disposed && t.clock >= f.clock
    requires t == f.(clock := t.clock, lastDone := t.clock, flight := None, busy := false,
        purchase := AfterReply(f.purchase.value, r, t.clock, delay))
    ensures Coherent(After(g, Heard(r, 0, t.clock)), t)
  {}

  lemma DisposeKeeps(g: Reading, f: Fields, t: Fields)
    requires Coherent(g, f) && !f.disposed && f.clock <= t.clock
    requires t == f.(clock := t.clock, disposed := true, flight := None, pollDue := None, busy := false,
        purchase := if f.purchase.Some? then Some(f.purchase.value.(timer := None)) else None)
    ensures Allowed(g, Disposed) && Coherent(After(g, Disposed), t)
  {}

  /** The answer was heard, and at most a status request followed at once. */
  predicate Answered(before: seq<Happening>, trace: seq<Happening>, r: Reply, now: int) {
    && |trace| > |before| && trace[..|before|] == before
    && trace[|before|].Heard? && trace[|before|].reply == r && trace[|before|].at == now
    && (|trace| == |before| + 1 || (|trace| == |before| + 2 && trace[|before| + 1] == Sent(StatusRequest, now)))
  }

  /** What the trace gains when the status request in flight, if there is one, is given up. */
  function Dropping(flight: Option<Request>): seq<Happening> {
    if flight.Some? then [Dropped] else []
  }

  class Controller {
    var adaptive: bool
    var hidden: bool
    var started: bool
    var disposed: bool
    var flight: Option<Request>
    var pollDue: Option<int>
    var lastDone: int
    var notBefore: int
    var failures: nat
    var epoch: Option<Epoch>
    var admission: Option<AdmissionId>
    var face: Face
    var resetPending: bool
    var busy: bool
    var intent: Option<Request>
    var purchase: Option<Buy>
    ghost var trace: seq<Happening>
    ghost var clock: int

    ghost function Now(): Fields
      reads this
    {
      Fields(clock, lastDone, notBefore, flight, pollDue, started, disposed, busy, intent, purchase)
    }

    /** The trace is proper, and the fields are what it says. */
    ghost predicate Valid()
      reads this
    {
      Proper(trace) && Coherent(Read(trace), Now())
    }

    constructor (adaptive: bool, hidden: bool)
      ensures Valid() && trace == [] && !started && !disposed && clock == 0
    {
      this.adaptive, this.hidden, started, disposed := adaptive, hidden, false, false;
      flight, pollDue, lastDone, notBefore, failures := None, None, 0, 0, 0;
      epoch, admission, face, resetPending, busy := None, None, Loading, false, false;
      intent, purchase := None, None;
      trace, clock := [], 0;
    }

    ghost method Note(h: Happening)
      modifies this`trace
      ensures trace == old(trace) + [h]
      ensures Read(trace) == After(Read(old(trace)), h)
      ensures Proper(trace) <==> Proper(old(trace)) && Allowed(Read(old(trace)), h)
    {
      ghost var t := trace;
      trace := trace + [h];
      assert trace[..|trace| - 1] == t;
    }

    // ----- parts -----------------------------------------------------------------------------

    /** Sends a request to the queue API. */
    method Send(q: Request, now: int)
      requires Valid() && clock <= now && !disposed && started && flight.None? && !Purchasing(purchase) && notBefore <= now
      requires !q.PurchaseRequest?
      requires q.JoinRequest? ==>
          if intent.Some? && intent.value.JoinRequest? && intent.value.epoch == q.epoch
          then q == intent.value else q.key !in Read(trace).keys
      modifies this`flight, this`busy, this`trace, this`clock, this`intent
      ensures Valid() && trace == old(trace) + [Sent(q, now)]
      ensures Now() == old(Now()).(clock := now, flight := Some(q), busy := q.JoinRequest? || q.CancelRequest?,
          intent := if q.JoinRequest? then Some(q) else old(intent))
    {
      hide Proper; hide Read; hide After; hide Allowed; hide Timely; hide Buying;
      ghost var g, f := Read(trace), Now();
      Note(Sent(q, now));
      clock, flight, busy := now, Some(q), q.JoinRequest? || q.CancelRequest?;
      intent := if q.JoinRequest? then Some(q) else intent;
      SentKeeps(g, f, Now(), q);
    }

    method Poll(now: int)
      requires Valid() && clock <= now && started && notBefore <= now
      modifies this`flight, this`busy, this`trace, this`clock, this`pollDue, this`intent
      ensures Valid()
      ensures if old(disposed || flight.Some? || Purchasing(purchase))
        then Now() == old(Now()).(clock := now) && trace == old(trace)
        else Now() == old(Now()).(clock := now, flight := Some(StatusRequest), pollDue := None) && trace == old(trace) + [Sent(StatusRequest, now)]
    {
      hide Proper; hide Read; hide Coherent;
      ghost var g, f := Read(trace), Now();
      Facts(g, f);
      clock := now;
      if disposed || flight.Some? || Purchasing(purchase) {
        TickKeeps(g, f, Now());
        return;
      }
      pollDue := None;
      TimedKeeps(g, f, Now());
      Facts(g, Now());
      NotBusy(g, Now());
      Send(StatusRequest, now);
    }

    /** Reads the state again as soon as the queue API may be asked. */
    method Refresh(now: int)
      requires Valid() && clock <= now && started && !disposed && flight.None? && !Purchasing(purchase)
      modifies this`flight, this`busy, this`trace, this`clock, this`pollDue, this`intent
      ensures Valid()
      ensures if old(notBefore) > now
        then Now() == old(Now()).(clock := now, pollDue := Some(old(notBefore))) && trace == old(trace)
        else Now() == old(Now()).(clock := now, flight := Some(StatusRequest), pollDue := None) && trace == old(trace) + [Sent(StatusRequest, now)]
    {
      hide Proper; hide Read; hide Coherent;
      ghost var g, f := Read(trace), Now();
      if notBefore > now {
        clock, pollDue := now, Some(notBefore);
        TimedKeeps(g, f, Now());
      } else {
        Poll(now);
      }
    }

    /** An explicit action takes the place of a status poll, in flight or scheduled. */
    method Preempt(now: int)
      requires Valid() && clock <= now && !disposed && (flight.Some? ==> flight.value.StatusRequest?)
      modifies this`flight, this`pollDue, this`trace, this`clock
      ensures Valid() && Now() == old(Now()).(clock := now, flight := None, pollDue := None)
      ensures trace == old(trace) + Dropping(old(flight)) && Read(trace) == Read(old(trace)).(flight := None)
    {
      hide Proper; hide Read; hide Coherent;
      ghost var g, f := Read(trace), Now();
      Facts(g, f);
      if flight.Some? { Note(Dropped); }
      clock, flight, pollDue := now, None, None;
      TickKeeps(g, f, f.(clock := now));
      DropKeeps(g, f.(clock := now), Now());
    }

    // ----- handlers --------------------------------------------------------------------------

    method Start(now: int, restored: Option<Body>)
      requires Valid() && clock <= now
      modifies this
      ensures Valid()
      ensures if old(started || disposed)
        then Now() == old(Now()).(clock := now) && trace == old(trace)
        else
          && Now() == old(Now()).(clock := now, started := true, flight := Some(StatusRequest), pollDue := None,
               purchase := if restored.Some? then Some(Buy(restored.value, Unconfirmed, 4, None)) else None)
          && trace == old(trace) + [Sent(StatusRequest, now)]
    {
      hide Proper; hide Read;
      ghost var g, f := Read(trace), Now();
      Facts(g, f);
      clock := now;
      if started || disposed { return; }
      started := true;
      if restored.Some? { purchase := Some(Buy(restored.value, Unconfirmed, AUTO_RETRIES, None)); }
      Poll(now);
    }

    method PollTimer(now: int)
      requires Valid() && clock <= now && pollDue.Some? && pollDue.value <= now
      modifies this`flight, this`busy, this`trace, this`clock, this`pollDue, this`intent
      ensures Valid()
      ensures Now() == old(Now()).(clock := now, pollDue := None, flight := if old(flight).Some? then old(flight) else Some(StatusRequest))
      ensures trace == old(trace) + if old(flight).Some? then [] else [Sent(StatusRequest, now)]
    {
      hide Proper; hide Read; hide Coherent;
      ghost var g, f := Read(trace), Now();
      Facts(g, f);
      pollDue := None;
      TimedKeeps(g, f, Now());
      Poll(now);
    }

    /** A join repeats the attempt of its epoch, or starts one with the fresh key. */
    method Join(now: int, uuid: Key) returns (ok: bool)
      requires Valid() && clock <= now && uuid !in Read(trace).keys
      modifies this`clock, this`flight, this`pollDue, this`busy, this`intent, this`trace
      ensures Valid()
      ensures ok == old(started && !disposed && !busy && purchase.None? && notBefore <= now && epoch.Some?
                        && (face == NotJoined || face == ResetShown || (face.Entered? && (face.state == Consumed || face.state == Cancelled || face.state == Expired))))
      ensures !ok ==> Now() == old(Now()).(clock := now) && trace == old(trace)
      ensures ok ==>
        && flight == Some(if old(intent).Some? && old(intent).value.epoch == epoch.value then old(intent).value else JoinRequest(epoch.value, uuid, admission))
        && Now() == old(Now()).(clock := now, flight := flight, pollDue := None, busy := true, intent := flight)
        && trace == old(trace) + Dropping(old(flight)) + [Sent(flight.value, now)]
    {
      hide Proper; hide Read; hide Timely; hide Buying;
      ghost var g, f := Read(trace), Now();
      Facts(g, f);
      if !started || disposed || busy || purchase.Some? || notBefore > now || epoch.None? || !Joinable(face) {
        clock := now;
        TickKeeps(g, f, Now());
        return false;
      }
      Preempt(now);
      var q := if intent.Some? && intent.value.epoch == epoch.value then intent.value else JoinRequest(epoch.value, uuid, admission);
      Send(q, now);
      ok := true;
    }

    method Cancel(now: int) returns (ok: bool)
      requires Valid() && clock <= now
      modifies this`clock, this`flight, this`pollDue, this`busy, this`intent, this`trace
      ensures Valid()
      ensures ok == old(started && !disposed && !busy && purchase.None? && notBefore <= now && admission.Some?
                        && (face == Entered(Waiting, false) || face == Entered(Admitted, false)))
      ensures !ok ==> Now() == old(Now()).(clock := now) && trace == old(trace)
      ensures ok ==>
        && Now() == old(Now()).(clock := now, flight := Some(CancelRequest(admission.value)), pollDue := None, busy := true)
        && trace == old(trace) + Dropping(old(flight)) + [Sent(CancelRequest(admission.value), now)]
    {
      hide Proper; hide Read; hide Coherent;
      ghost var g, f := Read(trace), Now();
      Facts(g, f);
      if !started || disposed || busy || purchase.Some? || notBefore > now || admission.None?
          || !(face == Entered(Waiting, false) || face == Entered(Admitted, false)) {
        clock := now;
        TickKeeps(g, f, Now());
        return false;
      }
      Preempt(now);
      Send(CancelRequest(admission.value), now);
      ok := true;
    }

    /** One attempt of the frozen purchase `b`, which is the one at hand if there is one. */
    method Attempt(now: int, b: Buy)
      requires Valid() && clock <= now && started && !disposed && flight.None? && pollDue.None? && b.status == Sending
      requires purchase.Some? ==> b.body == purchase.value.body
      requires b.auto == if Purchasing(purchase) then purchase.value.auto else 0
      modifies this`flight, this`purchase, this`trace, this`clock
      ensures Valid() && Now() == old(Now()).(clock := now, flight := Some(PurchaseRequest(b.body)), purchase := Some(b))
      ensures trace == old(trace) + [Sent(PurchaseRequest(b.body), now)]
    {
      hide Proper; hide Read; hide After; hide Allowed; hide Coherent;
      ghost var g, f := Read(trace), Now();
      Note(Sent(PurchaseRequest(b.body), now));
      clock, flight, purchase := now, Some(PurchaseRequest(b.body)), Some(b);
      BuySentKeeps(g, f, Now(), b);
    }

    /** The purchase goes to another API: an error wait of the queue API does not hold it back. */
    method StartPurchase(now: int, body: Body) returns (ok: bool)
      requires Valid() && clock <= now
      modifies this`clock, this`flight, this`pollDue, this`purchase, this`trace
      ensures Valid()
      ensures ok == old(started && !disposed && !busy && purchase.None? && face == Entered(Admitted, false))
      ensures ok ==> !Read(old(trace)).buying
      ensures !ok ==> Now() == old(Now()).(clock := now) && trace == old(trace)
      ensures ok ==>
        && Now() == old(Now()).(clock := now, flight := Some(PurchaseRequest(body)), pollDue := None, purchase := Some(Buy(body, Sending, 0, None)))
        && trace == old(trace) + Dropping(old(flight)) + [Sent(PurchaseRequest(body), now)]
    {
      hide Proper; hide Read; hide Coherent;
      ghost var g, f := Read(trace), Now();
      Facts(g, f);
      if !started || disposed || busy || purchase.Some? || face != Entered(Admitted, false) {
        clock := now;
        TickKeeps(g, f, Now());
        return false;
      }
      Preempt(now);
      Attempt(now, Buy(body, Sending, 0, None));
      ok := true;
    }

    method RetryPurchase(now: int) returns (ok: bool)
      requires Valid() && clock <= now
      modifies this`clock, this`flight, this`pollDue, this`purchase, this`trace
      ensures Valid()
      ensures ok == old(started && !disposed && !busy && purchase.Some? && purchase.value.status == Unconfirmed)
      ensures ok ==> !Read(old(trace)).buying
      ensures !ok ==> Now() == old(Now()).(clock := now) && trace == old(trace)
      ensures ok ==>
        && var b := old(purchase).value.(status := Sending, auto := 0);
        && Now() == old(Now()).(clock := now, flight := Some(PurchaseRequest(b.body)), pollDue := None, purchase := Some(b))
        && trace == old(trace) + Dropping(old(flight)) + [Sent(PurchaseRequest(b.body), now)]
    {
      hide Proper; hide Read; hide Coherent;
      ghost var g, f := Read(trace), Now();
      Facts(g, f);
      if !started || disposed || busy || purchase.None? || purchase.value.status != Unconfirmed {
        clock := now;
        TickKeeps(g, f, Now());
        return false;
      }
      Preempt(now);
      Attempt(now, purchase.value.(status := Sending, auto := 0));
      ok := true;
    }

    method PurchaseTimer(now: int)
      requires Valid() && clock <= now && !disposed
      requires purchase.Some? && purchase.value.status == Retrying && purchase.value.timer.Some? && purchase.value.timer.value <= now
      modifies this`flight, this`purchase, this`trace, this`clock
      ensures Valid()
      ensures Read(old(trace)).buying
      ensures var b := old(purchase).value.(status := Sending, timer := None);
        && Now() == old(Now()).(clock := now, flight := Some(PurchaseRequest(b.body)), purchase := Some(b))
        && trace == old(trace) + [Sent(PurchaseRequest(b.body), now)]
    {
      hide Proper; hide Read; hide Intended;
      Facts(Read(trace), Now());
      Attempt(now, purchase.value.(status := Sending, timer := None));
    }

    /** No repeat follows; the request waits for its button, and the status is read again. */
    method StopPurchase(now: int) returns (ok: bool)
      requires Valid() && clock <= now
      modifies this`clock, this`flight, this`busy, this`intent, this`pollDue, this`purchase, this`trace
      ensures Valid()
      ensures ok == old(!disposed && purchase.Some? && purchase.value.status != Unconfirmed)
      ensures !ok ==> Now() == old(Now()).(clock := now) && trace == old(trace)
      ensures ok ==>
        && var stopped := old(Now()).(clock := now, flight := None, purchase := Some(old(purchase).value.(timer := None, status := Unconfirmed)));
        if notBefore > now
        then Now() == stopped.(pollDue := Some(notBefore)) && trace == old(trace) + [Stopped]
        else Now() == stopped.(flight := Some(StatusRequest), pollDue := None) && trace == old(trace) + [Stopped, Sent(StatusRequest, now)]
    {
      hide Proper; hide Read; hide Coherent;
      ghost var g, f := Read(trace), Now();
      Facts(g, f);
      if disposed || !Purchasing(purchase) {
        clock := now;
        TickKeeps(g, f, Now());
        return false;
      }
      Note(Stopped);
      clock, flight, purchase := now, None, Some(purchase.value.(timer := None, status := Unconfirmed));
      StopKeeps(g, f, Now());
      Refresh(now);
      ok := true;
    }

    // ----- answers ---------------------------------------------------------------------------

    /** A usable answer of the status, join or cancel API is shown. */
    method Apply(s: Shown)
      modifies this`epoch, this`admission, this`face, this`resetPending, this`intent
      ensures epoch == Some(s.epoch) && admission == s.entry
      ensures intent == IntentAfter(old(intent), s)
      ensures resetPending == (s.entry.None? && old(resetPending || LosesOrder(s, epoch, admission, face)))
      ensures face == if s.entry.Some? then Entered(s.phase, s.processing) else if resetPending then ResetShown else NotJoined
    {
      if LosesOrder(s, epoch, admission, face) { resetPending := true; }
      epoch := Some(s.epoch);
      admission := s.entry;
      if s.entry.Some? { resetPending := false; }
      intent := IntentAfter(intent, s);
      face := if s.entry.Some? then Entered(s.phase, s.processing) else if resetPending then ResetShown else NotJoined;
    }

    /** An answer ends the request in flight, whatever it says. */
    method Hear(r: Reply, wait: int, now: int)
      requires Proper(trace) && Read(trace).flight.Some? && !Read(trace).over && 0 <= wait
      modifies this`trace, this`clock, this`lastDone, this`flight, this`busy
      ensures trace == old(trace) + [Heard(r, wait, now)] && Proper(trace) && Read(trace) == After(Read(old(trace)), Heard(r, wait, now))
      ensures clock == now && lastDone == now && flight.None? && !busy
    {
      hide Proper; hide Read; hide After;
      Note(Heard(r, wait, now));
      clock, lastDone, flight, busy := now, now, None, false;
    }

    /** The request in flight is answered, or timed out. `u` is the draw of the delay. */
    method Receive(r: Reply, now: int, u: real)
      requires Valid() && clock <= now && flight.Some? && !disposed && -1.0 <= u < 1.0
      modifies this
      ensures Valid() && clock == now && started == old(started) && disposed == old(disposed)
      ensures Answered(old(trace), trace, r, now)
      ensures var q := old(flight).value;
        && (Usable(q, r) ==>
              && failures == 0 && notBefore == 0 && flight.None? && epoch == Some(r.shown.value.epoch) && admission == r.shown.value.entry)
        && (AsksToWait(q, r) ==>
              && failures == old(failures) + 1 && flight.None? && epoch == old(epoch) && admission == old(admission) && intent == old(intent)
              && notBefore == now + FailureDelay(failures, false, r.serverMin, r.retryAfter, u)
              && pollDue == Some(now + FailureDelay(failures, hidden, r.serverMin, r.retryAfter, u)))
        && ((q.StatusRequest? || q.JoinRequest?) && r.status == 404 ==>
              && failures == 0 && notBefore == 0 && flight.None? && face == NotEnabled && admission.None? && (q.JoinRequest? ==> intent.None?))
        && (!q.PurchaseRequest? && !Usable(q, r) && !AsksToWait(q, r) && !((q.StatusRequest? || q.JoinRequest?) && r.status == 404) ==>
              && failures == old(failures) && notBefore == old(notBefore) && intent == (if q.JoinRequest? then None else old(intent))
              && (if q.StatusRequest? || r.status == 401 || notBefore > now then flight.None? else flight == Some(StatusRequest)))
        && (q.PurchaseRequest? ==> (purchase.None? <==> !LeavesOpen(r)))
    {
      hide Valid;
      var q := flight.value;
      ReadsAnswers(q, r);
      hide Accepted; hide NotQueued; hide Failing; hide Usable; hide AsksToWait; hide LeavesOpen;
      if q.PurchaseRequest? { ReceivePurchase(r, now, u); }
      else if Accepted(q, r) { Accept(q, r, now, u); }
      else if NotQueued(q, r) { Unqueue(q, r, now); }
      else if Failing(q, r) { Fail(q, r, now, u); }
      else { Settle(q, r, now); }
    }

    /** The next poll is planned as the server asked; without a plan of its own, the pending one stands. */
    method ScheduleNext(nextPoll: Option<int>, now: int, u: real)
      modifies this`pollDue
      ensures pollDue == if nextPoll.Some? then Some(now + SuccessDelay(adaptive, hidden, nextPoll.value, u)) else old(pollDue)
      ensures nextPoll.Some? ==> pollDue.value >= now
    {
      if nextPoll.Some? {
        SuccessDelayHolds(adaptive, hidden, nextPoll.value, u);
        pollDue := Some(now + SuccessDelay(adaptive, hidden, nextPoll.value, u));
      }
    }

    method Accept(q: Request, r: Reply, now: int, u: real)
      requires Valid() && clock <= now && flight == Some(q) && !q.PurchaseRequest? && !disposed && Accepted(q, r)
      modifies this`clock, this`lastDone, this`flight, this`busy, this`failures, this`notBefore, this`pollDue, this`trace
      modifies this`epoch, this`admission, this`face, this`resetPending, this`intent
      ensures Valid() && trace == old(trace) + [Heard(r, 0, now)] && failures == 0
      ensures Now() == old(Now()).(clock := now, lastDone := now, flight := None, busy := false, notBefore := 0,
        intent := if old(intent).Some? && old(intent).value.JoinRequest? && r.shown.value.entry.Some? && r.shown.value.entry != old(intent).value.from
                  then None else old(intent),
        pollDue := if r.shown.value.nextPoll.Some? then Some(now + SuccessDelay(adaptive, hidden, r.shown.value.nextPoll.value, u)) else old(pollDue))
      ensures epoch == Some(r.shown.value.epoch) && admission == r.shown.value.entry
      ensures r.shown.value.entry.Some? ==> face == Entered(r.shown.value.phase, r.shown.value.processing)
      ensures r.shown.value.entry.None? ==>
          face == if old(resetPending || (epoch.Some? && r.shown.value.epoch != epoch.value && admission.Some? && face.Entered?
                                          && (face.state == Waiting || face.state == Admitted))) then ResetShown else NotJoined
    {
      hide SuccessDelay; hide Proper; hide Read; hide Coherent; hide After;
      ghost var g, f := Read(trace), Now();
      Facts(g, f);
      Hear(r, 0, now);
      failures, notBefore := 0, 0;
      Apply(r.shown.value);
      ScheduleNext(r.shown.value.nextPoll, now, u);
      AcceptedAnswered(g, f, Now(), q, r);
    }

    /** There is no queue for this event. */
    method Unqueue(q: Request, r: Reply, now: int)
      requires Valid() && clock <= now && flight == Some(q) && !q.PurchaseRequest? && !disposed && NotQueued(q, r)
      modifies this`clock, this`lastDone, this`flight, this`busy, this`failures, this`notBefore, this`admission, this`face, this`intent, this`trace
      ensures Valid() && trace == old(trace) + [Heard(r, 0, now)] && face == NotEnabled && admission.None? && failures == 0
      ensures Now() == old(Now()).(clock := now, lastDone := now, flight := None, busy := false, notBefore := 0,
          intent := if q.JoinRequest? then None else old(intent))
    {
      hide Proper; hide Read; hide Timely; hide Buying;
      ghost var g, f := Read(trace), Now();
      Facts(g, f);
      Hear(r, 0, now);
      failures, notBefore, admission, face := 0, 0, None, NotEnabled;
      if q.JoinRequest? { intent := None; }
      QueueAnswered(g, f, Now(), Heard(r, 0, now));
    }

    /** Keeps every identity and reads the state again after the wait. A hidden tab's interval delays
        the poll but is no part of the wait. */
    method Fail(q: Request, r: Reply, now: int, u: real)
      requires Valid() && clock <= now && flight == Some(q) && !q.PurchaseRequest? && !disposed && -1.0 <= u < 1.0
      requires Failing(q, r) && !NotQueued(q, r)
      modifies this`clock, this`lastDone, this`flight, this`busy, this`failures, this`notBefore, this`pollDue, this`trace
      ensures Valid() && failures == old(failures) + 1
      ensures var wait := FailureDelay(failures, false, r.serverMin, r.retryAfter, u);
        && wait >= r.serverMin && wait >= r.retryAfter && trace == old(trace) + [Heard(r, wait, now)]
        && Now() == old(Now()).(clock := now, lastDone := now, flight := None, busy := false, notBefore := now + wait,
             pollDue := Some(now + FailureDelay(failures, hidden, r.serverMin, r.retryAfter, u)))
    {
      hide FailureDelay; hide Proper; hide Read; hide Timely; hide Buying;
      ghost var g, f := Read(trace), Now();
      Facts(g, f);
      FailureDelayHolds(failures + 1, false, r.serverMin, r.retryAfter, u);
      var wait := FailureDelay(failures + 1, false, r.serverMin, r.retryAfter, u);
      var delay := FailureDelay(failures + 1, hidden, r.serverMin, r.retryAfter, u);
      Hear(r, wait, now);
      failures := failures + 1;
      notBefore := now + wait;
      pollDue := Some(now + delay);
      QueueAnswered(g, f, Now(), Heard(r, wait, now));
    }

    /** A final refusal: a join's key is spent, and unless the user is signed out the state is read again. */
    method Settle(q: Request, r: Reply, now: int)
      requires Valid() && clock <= now && flight == Some(q) && !q.PurchaseRequest? && !disposed
      requires !Accepted(q, r) && !NotQueued(q, r) && !Failing(q, r)
      modifies this`clock, this`lastDone, this`flight, this`busy, this`pollDue, this`intent, this`trace
      ensures Valid()
      ensures var heard := old(Now()).(clock := now, lastDone := now, flight := None, busy := false,
          intent := if q.JoinRequest? then None else old(intent));
        if q.StatusRequest? || r.status == 401 then Now() == heard && trace == old(trace) + [Heard(r, 0, now)]
        else if notBefore > now then Now() == heard.(pollDue := Some(notBefore)) && trace == old(trace) + [Heard(r, 0, now)]
        else Now() == heard.(flight := Some(StatusRequest), pollDue := None) && trace == old(trace) + [Heard(r, 0, now), Sent(StatusRequest, now)]
    {
      hide Proper; hide Read; hide Timely; hide Buying;
      ghost var g, f := Read(trace), Now();
      Facts(g, f);
      Running(g, f);
      Hear(r, 0, now);
      if q.JoinRequest? { intent := None; }
      QueueAnswered(g, f, Now(), Heard(r, 0, now));
      if !q.StatusRequest? && r.status != 401 { Refresh(now); }
    }

    /** A purchase whose outcome stays open is repeated a few times on its own; polling resumes
        once it is over or left to the user. */
    method ReceivePurchase(r: Reply, now: int, u: real)
      requires Valid() && clock <= now && flight.Some? && flight.value.PurchaseRequest? && !disposed && -1.0 <= u < 1.0
      modifies this`clock, this`lastDone, this`flight, this`busy, this`pollDue, this`intent, this`purchase, this`trace
      ensures Valid() && old(purchase).Some?
      ensures var b := old(purchase).value;
        var delay := FailureDelay(b.auto + 1, false, r.serverMin, r.retryAfter, u);
        var open := r.status == 0 || r.status == 429 || r.status >= 500 || r.inProgress;
        var heard := old(Now()).(clock := now, lastDone := now, flight := None,
          purchase := if !open then None
                      else if b.auto >= 4 then Some(b.(status := Unconfirmed))
                      else Some(b.(auto := b.auto + 1, status := Retrying, timer := Some(now + delay))));
        if open && b.auto < 4 then Now() == heard && trace == old(trace) + [Heard(r, 0, now)]
        else if notBefore > now then Now() == heard.(pollDue := Some(notBefore)) && trace == old(trace) + [Heard(r, 0, now)]
        else Now() == heard.(flight := Some(StatusRequest), pollDue := None) && trace == old(trace) + [Heard(r, 0, now), Sent(StatusRequest, now)]
    {
      hide FailureDelay; hide Proper; hide Read; hide Coherent;
      ghost var g, f := Read(trace), Now();
      Facts(g, f);
      Running(g, f);
      Hear(r, 0, now);
      var buy := purchase.value;
      var delay := FailureDelay(buy.auto + 1, false, r.serverMin, r.retryAfter, u);
      purchase := AfterReply(buy, r, now, delay);
      BuyAnswered(g, f, Now(), r, delay);
      if !(StaysOpen(r) && buy.auto < AUTO_RETRIES) { Refresh(now); }
    }

    // ----- visibility and the end ------------------------------------------------------------

    /** A hidden tab's poll moves out to the hidden interval; on return there is one request, at the
        end of an error wait that is still in force. */
    method OnVisibility(now: int, isHidden: bool)
      requires Valid() && clock <= now
      modifies this`clock, this`hidden, this`pollDue
      ensures Valid() && clock == now
      ensures pollDue ==
        if disposed then old(pollDue)
        else if isHidden then (if old(pollDue).Some? && old(pollDue).value < lastDone + 15000 then Some(lastDone + 15000) else old(pollDue))
        else if !started || flight.Some? || (purchase.Some? && purchase.value.status != Unconfirmed) || face == NotEnabled then old(pollDue)
        else if notBefore <= now then Some(now)
        else if old(pollDue).Some? && old(pollDue).value > notBefore then Some(notBefore)
        else old(pollDue)
    {
      hide Proper; hide Read; hide Coherent;
      ghost var g, f := Read(trace), Now();
      Facts(g, f);
      clock := now;
      if !disposed {
        hidden := isHidden;
        if isHidden {
          if pollDue.Some? && pollDue.value < lastDone + HIDDEN_MS { pollDue := Some(lastDone + HIDDEN_MS); }
        } else if started && flight.None? && !Purchasing(purchase) && face != NotEnabled {
          if notBefore <= now { pollDue := Some(now); }
          else if pollDue.Some? && pollDue.value > notBefore { pollDue := Some(notBefore); }
        }
      }
      TimedKeeps(g, f, Now());
    }

    method Dispose(now: int)
      requires Valid() && clock <= now
      modifies this`clock, this`disposed, this`flight, this`pollDue, this`busy, this`purchase, this`trace
      ensures Valid() && disposed && flight.None? && pollDue.None?
      ensures trace == old(trace) + if old(disposed) then [] else [Disposed]
      ensures purchase.Some? == old(purchase).Some? && (purchase.Some? ==> purchase.value.body == old(purchase).value.body)
      ensures !old(disposed) && purchase.Some? ==> purchase.value.timer.None?
    {
      hide Proper; hide Read; hide Coherent;
      ghost var g, f := Read(trace), Now();
      Facts(g, f);
      clock := now;
      if disposed {
        TickKeeps(g, f, Now());
        return;
      }
      Note(Disposed);
      if purchase.Some? { purchase := Some(purchase.value.(timer := None)); }
      disposed, flight, pollDue, busy := true, None, None, false;
      DisposeKeeps(g, f, Now());
    }
  }
}
