/** What the browser's admission controller promises about the requests it sends, read off its trace
    alone. */
module PollingTrace {
  import opened AdmissionTypes

  type Key = int
  type Body = int

  datatype Shown = Shown(epoch: Epoch, entry: Option<AdmissionId>, phase: EntryState, processing: bool, nextPoll: Option<int>)

  /** An answer as the controller reads it; no answer at all has status 0. `shown` is its usable body. */
  datatype Reply = Reply(status: int, shown: Option<Shown>, serverMin: int, retryAfter: int, inProgress: bool)

  datatype Request =
    | StatusRequest
    | JoinRequest(epoch: Epoch, key: Key, from: Option<AdmissionId>)
    | CancelRequest(id: AdmissionId)
    | PurchaseRequest(body: Body)

  /** `wait` is the error wait the controller chose when it took the answer. */
  datatype Happening =
    | Sent(request: Request, at: int)
    | Heard(reply: Reply, wait: int, at: int)
    | Dropped
    | Stopped
    | Disposed

  /** Not decided, or not decided yet: the same request may be sent again. */
  predicate Undecided(status: int) {
    status == 0 || status == 429 || status >= 500
  }

  /** What the trace says so far: the request in flight, the wait in force, the join and the purchase
      whose outcome is open, and whether the purchase is being sent or repeated on its own. */
  datatype Reading = Reading(
    flight: Option<Request>, notBefore: int, join: Option<Request>, purchase: Option<Body>, buying: bool, auto: nat, keys: set<Key>, over: bool)
  const NOTHING := Reading(None, 0, None, None, false, 0, {}, false)

  /** A usable answer of the queue API. A cancel is only answered by the entry it named. */
  predicate Accepted(q: Request, r: Reply) {
    && r.shown.Some?
    && match q
       case StatusRequest => r.status == 200
       case JoinRequest(_, _, _) => r.status == 200 || r.status == 201
       case CancelRequest(id) => r.status == 200 && r.shown.value.entry == Some(id)
       case PurchaseRequest(_) => false
  }

  predicate NotQueued(q: Request, r: Reply) {
    (q.StatusRequest? || q.JoinRequest?) && r.status == 404 && !Accepted(q, r)
  }

  /** An answer after which the queue API must be left alone for a while. */
  predicate Failing(q: Request, r: Reply) {
    !q.PurchaseRequest? && !Accepted(q, r) && (Undecided(r.status) || r.status == 200 || (r.status == 201 && !q.StatusRequest?))
  }

  /** The attempt's key is spent: its answer was final, or another entry than its starting point shows. */
  predicate EndsJoin(j: Request, q: Request, r: Reply)
    requires j.JoinRequest?
  {
    || (Accepted(q, r) && r.shown.value.entry.Some? && r.shown.value.entry != j.from)
    || (q.JoinRequest? && !Accepted(q, r) && !Failing(q, r))
  }

  /** A purchase attempt whose outcome stays open. */
  predicate StaysOpen(r: Reply) {
    Undecided(r.status) || r.inProgress
  }

  const AUTO_RETRIES: nat := 4

  function After(g: Reading, h: Happening): Reading {
    match h
    case Sent(q, _) =>
      g.(flight := Some(q),
         join := if q.JoinRequest? then Some(q) else g.join,
         keys := if q.JoinRequest? then g.keys + {q.key} else g.keys,
         purchase := if q.PurchaseRequest? then Some(q.body) else g.purchase,
         buying := g.buying || q.PurchaseRequest?,
         auto := if q.PurchaseRequest? && !g.buying then 0 else g.auto)
    case Heard(r, wait, at) =>
      if g.flight.None? then g else
        var q := g.flight.value;
        if q.PurchaseRequest? then
          if !StaysOpen(r) then g.(flight := None, purchase := None, buying := false, auto := 0)
          else if g.auto >= AUTO_RETRIES then g.(flight := None, buying := false)
          else g.(flight := None, auto := g.auto + 1)
        else
          g.(flight := None,
             notBefore := if Accepted(q, r) || NotQueued(q, r) then 0 else if Failing(q, r) then at + wait else g.notBefore,
             join := if g.join.Some? && g.join.value.JoinRequest? && EndsJoin(g.join.value, q, r) then None else g.join)
    case Dropped => g.(flight := None)
    case Stopped => g.(buying := false, flight := None)
    case Disposed => g.(flight := None, over := true)
  }

  function Read(trace: seq<Happening>): Reading {
    if trace == [] then NOTHING else After(Read(trace[..|trace| - 1]), trace[|trace| - 1])
  }

  /** May this happen next? Nothing once the controller is disposed; one request at a time; none to the
      queue API within an error wait or under a running purchase; only a status request gives way to
      another; an open join or purchase is only repeated as it was. */
  predicate Allowed(g: Reading, h: Happening) {
    && !g.over
    && match h
       case Sent(q, at) =>
         && g.flight.None?
         && (!q.PurchaseRequest? ==> g.notBefore <= at && !g.buying)
         && (q.JoinRequest? ==>
               if g.join.Some? && g.join.value.JoinRequest? && g.join.value.epoch == q.epoch then q == g.join.value else q.key !in g.keys)
         && (q.PurchaseRequest? && g.purchase.Some? ==> q.body == g.purchase.value)
       case Heard(_, wait, _) => g.flight.Some? && wait >= 0
       case Dropped => g.flight.Some? && g.flight.value.StatusRequest?
       case Stopped => g.buying
       case Disposed => true
  }

  predicate Proper(trace: seq<Happening>) {
    trace == [] || (Proper(trace[..|trace| - 1]) && Allowed(Read(trace[..|trace| - 1]), trace[|trace| - 1]))
  }

  lemma {:induction false} ProperPrefix(trace: seq<Happening>, n: nat)
    requires Proper(trace) && n <= |trace|
    ensures Proper(trace[..n])
    decreases |trace|
  {
    if n < |trace| {
      ProperPrefix(trace[..|trace| - 1], n);
      assert trace[..|trace| - 1][..n] == trace[..n];
    } else {
      assert trace[..n] == trace;
    }
  }

  lemma ReadOneMore(trace: seq<Happening>, n: nat)
    requires n < |trace|
    ensures Read(trace[..n + 1]) == After(Read(trace[..n]), trace[n])
    ensures Proper(trace[..n + 1]) <==> Proper(trace[..n]) && Allowed(Read(trace[..n]), trace[n])
  {
    assert trace[..n + 1][..n] == trace[..n];
  }

  // ----- what an answer is worth, by its status --------------------------------------------

  /** An answer answers the request just before it. */
  lemma AnswersTheLast(trace: seq<Happening>, i: nat)
    requires Proper(trace) && i < |trace| && trace[i].Heard?
    ensures 0 < i && trace[i - 1].Sent? && Read(trace[..i]).flight == Some(trace[i - 1].request)
  {
    ProperPrefix(trace, i + 1);
    ReadOneMore(trace, i);
    if i > 0 {
      ReadOneMore(trace, i - 1);
      ProperPrefix(trace, i);
      FlightIsLast(trace, i);
    }
  }

  lemma {:induction false} FlightIsLast(trace: seq<Happening>, i: nat)
    requires i <= |trace| && Proper(trace[..i]) && Read(trace[..i]).flight.Some?
    ensures 0 < i && trace[i - 1].Sent? && Read(trace[..i]).flight == Some(trace[i - 1].request)
    decreases i
  {
    if i > 0 {
      ReadOneMore(trace, i - 1);
      assert trace[..i][..i - 1] == trace[..i - 1];
      if !trace[i - 1].Sent? && Read(trace[..i - 1]).flight.Some? { FlightIsLast(trace, i - 1); }
    }
  }

  predicate Unanswered(status: int) {
    status == 0 || status == 429 || status >= 500
  }

  /** It can be shown: 200, for a join also 201, with a body; for a cancel the body of the entry it named. */
  predicate Usable(q: Request, r: Reply) {
    match q
    case StatusRequest => r.status == 200 && r.shown.Some?
    case JoinRequest(_, _, _) => (r.status == 200 || r.status == 201) && r.shown.Some?
    case CancelRequest(id) => r.status == 200 && r.shown.Some? && r.shown.value.entry == Some(id)
    case PurchaseRequest(_) => false
  }

  /** It leaves the request undecided, and the queue API is left alone for a while. */
  predicate AsksToWait(q: Request, r: Reply) {
    match q
    case StatusRequest => Unanswered(r.status) || (r.status == 200 && r.shown.None?)
    case JoinRequest(_, _, _) => Unanswered(r.status) || ((r.status == 200 || r.status == 201) && r.shown.None?)
    case CancelRequest(id) => Unanswered(r.status) || r.status == 201 || (r.status == 200 && (r.shown.None? || r.shown.value.entry != Some(id)))
    case PurchaseRequest(_) => false
  }

  /** It decides the join attempt: it shows another entry than the attempt started from, or refuses it. */
  predicate DecidesJoin(j: Request, q: Request, r: Reply)
    requires j.JoinRequest?
  {
    || (Usable(q, r) && r.shown.value.entry.Some? && r.shown.value.entry != j.from)
    || (q.JoinRequest? && !Unanswered(r.status) && r.status != 200 && r.status != 201)
  }

  predicate LeavesOpen(r: Reply) {
    Unanswered(r.status) || r.inProgress
  }

  /** The controller reads an answer as that: shown, waited for, no queue at all, or final. */
  lemma ReadsAnswers(q: Request, r: Reply)
    ensures Accepted(q, r) <==> Usable(q, r)
    ensures Failing(q, r) <==> AsksToWait(q, r)
    ensures NotQueued(q, r) <==> r.status == 404 && (q.StatusRequest? || q.JoinRequest?)
    ensures StaysOpen(r) <==> LeavesOpen(r)
    ensures forall j: Request | j.JoinRequest? :: EndsJoin(j, q, r) <==> DecidesJoin(j, q, r)
  {}

  /** No answer here, or not one that decides a purchase. */
  predicate NotBought(trace: seq<Happening>, k: nat)
    requires 0 < k < |trace|
  {
    trace[k].Heard? && trace[k - 1].Sent? && trace[k - 1].request.PurchaseRequest? ==> LeavesOpen(trace[k].reply)
  }

  /** No answer here, or not one that decides this join attempt. */
  predicate NotDecided(trace: seq<Happening>, k: nat, join: Request)
    requires 0 < k < |trace| && join.JoinRequest?
  {
    trace[k].Heard? && trace[k - 1].Sent? ==> !DecidesJoin(join, trace[k - 1].request, trace[k].reply)
  }

  /** No answer here, or that of a purchase. */
  predicate NoQueueAnswer(trace: seq<Happening>, k: nat)
    requires 0 < k < |trace|
  {
    trace[k].Heard? ==> trace[k - 1].Sent? && trace[k - 1].request.PurchaseRequest?
  }

  /** However often a purchase is sent while every answer to it leaves it open, it is sent as it was. */
  lemma {:induction false} PurchaseRepeatsItself(trace: seq<Happening>, i: nat, j: nat)
    requires Proper(trace) && i < j < |trace|
    requires trace[i].Sent? && trace[i].request.PurchaseRequest? && trace[j].Sent? && trace[j].request.PurchaseRequest?
    requires forall k | i < k < j :: NotBought(trace, k)
    ensures trace[j].request == trace[i].request
  {
    OpenPurchaseIs(trace, i, j);
    ProperPrefix(trace, j + 1);
    ReadOneMore(trace, j);
  }

  lemma {:induction false} OpenPurchaseIs(trace: seq<Happening>, i: nat, j: nat)
    requires Proper(trace) && i < j < |trace| && trace[i].Sent? && trace[i].request.PurchaseRequest?
    requires forall k | i < k < j :: NotBought(trace, k)
    ensures Read(trace[..j]).purchase == Some(trace[i].request.body)
    decreases j
  {
    ReadOneMore(trace, j - 1);
    ProperPrefix(trace, j);
    if j > i + 1 {
      OpenPurchaseIs(trace, i, j - 1);
      assert NotBought(trace, j - 1);
      if trace[j - 1].Heard? { AnswersTheLast(trace, j - 1); ReadsAnswers(trace[j - 2].request, trace[j - 1].reply); }
      hide Proper; hide Read; hide LeavesOpen; hide StaysOpen;
      PurchaseStays(Read(trace[..j - 1]), trace[j - 1], trace[i].request.body);
    }
  }

  lemma PurchaseStays(g: Reading, h: Happening, body: Body)
    requires Allowed(g, h) && g.purchase == Some(body)
    requires h.Heard? && g.flight.Some? && g.flight.value.PurchaseRequest? ==> StaysOpen(h.reply)
    ensures After(g, h).purchase == Some(body)
  {
    hide StaysOpen;
  }

  lemma JoinStays(g: Reading, h: Happening, q: Request)
    requires Allowed(g, h) && q.JoinRequest? && g.join == Some(q)
    requires h.Sent? && h.request.JoinRequest? ==> h.request.epoch == q.epoch
    requires h.Heard? && g.flight.Some? ==> !EndsJoin(q, g.flight.value, h.reply)
    ensures After(g, h).join == Some(q)
  {
    hide EndsJoin; hide Accepted; hide Failing; hide NotQueued; hide StaysOpen;
  }

  /** However often a join is sent while no answer decides it and its epoch stands, it carries one key. */
  lemma {:induction false} JoinRepeatsItself(trace: seq<Happening>, i: nat, j: nat)
    requires Proper(trace) && i < j < |trace|
    requires trace[i].Sent? && trace[i].request.JoinRequest? && trace[j].Sent? && trace[j].request.JoinRequest?
    requires forall k | i < k <= j :: trace[k].Sent? && trace[k].request.JoinRequest? ==> trace[k].request.epoch == trace[i].request.epoch
    requires forall k | i < k < j :: NotDecided(trace, k, trace[i].request)
    ensures trace[j].request == trace[i].request
  {
    OpenJoinIs(trace, i, j);
    ProperPrefix(trace, j + 1);
    ReadOneMore(trace, j);
  }

  lemma {:induction false} OpenJoinIs(trace: seq<Happening>, i: nat, j: nat)
    requires Proper(trace) && i < j < |trace| && trace[i].Sent? && trace[i].request.JoinRequest?
    requires forall k | i < k < j :: trace[k].Sent? && trace[k].request.JoinRequest? ==> trace[k].request.epoch == trace[i].request.epoch
    requires forall k | i < k < j :: NotDecided(trace, k, trace[i].request)
    ensures Read(trace[..j]).join == Some(trace[i].request)
    decreases j
  {
    hide Accepted; hide Failing; hide NotQueued; hide EndsJoin; hide DecidesJoin; hide StaysOpen;
    ReadOneMore(trace, j - 1);
    ProperPrefix(trace, j);
    if j > i + 1 {
      OpenJoinIs(trace, i, j - 1);
      assert NotDecided(trace, j - 1, trace[i].request);
      if trace[j - 1].Heard? { AnswersTheLast(trace, j - 1); ReadsAnswers(trace[j - 2].request, trace[j - 1].reply); }
      hide Proper; hide Read;
      JoinStays(Read(trace[..j - 1]), trace[j - 1], trace[i].request);
    }
  }

  /** After an answer that asks to wait, nothing goes to the queue API before the wait is over, unless a
      later answer of that API lifted it. */
  lemma {:induction false} WaitIsRespected(trace: seq<Happening>, i: nat, j: nat)
    requires Proper(trace) && 0 < i < j < |trace|
    requires trace[i].Heard? && trace[i - 1].Sent? && AsksToWait(trace[i - 1].request, trace[i].reply)
    requires trace[j].Sent? && !trace[j].request.PurchaseRequest?
    requires forall k | i < k < j :: NoQueueAnswer(trace, k)
    ensures trace[i].at + trace[i].wait <= trace[j].at
  {
    WaitStands(trace, i, j);
    ProperPrefix(trace, j + 1);
    ReadOneMore(trace, j);
  }

  lemma {:induction false} WaitStands(trace: seq<Happening>, i: nat, j: nat)
    requires Proper(trace) && 0 < i < j < |trace|
    requires trace[i].Heard? && trace[i - 1].Sent? && AsksToWait(trace[i - 1].request, trace[i].reply)
    requires forall k | i < k < j :: NoQueueAnswer(trace, k)
    ensures Read(trace[..j]).notBefore == trace[i].at + trace[i].wait
    decreases j
  {
    hide Proper; hide Read; hide Allowed; hide EndsJoin; hide AsksToWait;
    ReadOneMore(trace, j - 1);
    if trace[j - 1].Heard? { AnswersTheLast(trace, j - 1); ReadsAnswers(trace[j - 2].request, trace[j - 1].reply); }
    if j > i + 1 {
      WaitStands(trace, i, j - 1);
      assert NoQueueAnswer(trace, j - 1);
    }
  }

  // ----- one at a time ---------------------------------------------------------------------

  lemma {:induction false} FlightLasts(trace: seq<Happening>, i: nat, j: nat)
    requires Proper(trace) && i < j <= |trace| && trace[i].Sent?
    requires forall k | i < k < j :: trace[k].Sent?
    ensures Read(trace[..j]).flight.Some?
    decreases j
  {
    ReadOneMore(trace, j - 1);
    if j > i + 1 { FlightLasts(trace, i, j - 1); }
  }

  /** At most one request is in flight: between two sends the first was answered or given up. */
  lemma OneAtATime(trace: seq<Happening>, i: nat, j: nat)
    requires Proper(trace) && i < j < |trace| && trace[i].Sent? && trace[j].Sent?
    ensures exists k :: i < k < j && !trace[k].Sent?
  {
    ProperPrefix(trace, j + 1);
    ReadOneMore(trace, j);
    if forall k | i < k < j :: trace[k].Sent? {
      FlightLasts(trace, i, j);
      assert false;
    }
  }

  /** The purchase is decided, its repeats are used up, or the user stopped it. */
  predicate EndsBuying(g: Reading, h: Happening) {
    h.Stopped? || (h.Heard? && g.flight.Some? && g.flight.value.PurchaseRequest? && (!LeavesOpen(h.reply) || g.auto >= 4))
  }

  lemma {:induction false} BuyingLasts(trace: seq<Happening>, i: nat, j: nat)
    requires Proper(trace) && i < j <= |trace| && trace[i].Sent? && trace[i].request.PurchaseRequest?
    requires forall k | i < k < j :: !EndsBuying(Read(trace[..k]), trace[k])
    ensures Read(trace[..j]).buying
    decreases j
  {
    ReadOneMore(trace, j - 1);
    if j > i + 1 { BuyingLasts(trace, i, j - 1); }
  }

  /** While a purchase is being sent or repeated, nothing goes to the queue API. */
  lemma QueueIsQuietWhileBuying(trace: seq<Happening>, i: nat, j: nat)
    requires Proper(trace) && i < j < |trace| && trace[i].Sent? && trace[i].request.PurchaseRequest?
    requires trace[j].Sent? && !trace[j].request.PurchaseRequest?
    ensures exists k :: i < k < j && EndsBuying(Read(trace[..k]), trace[k])
  {
    ProperPrefix(trace, j + 1);
    ReadOneMore(trace, j);
    if forall k | i < k < j :: !EndsBuying(Read(trace[..k]), trace[k]) {
      BuyingLasts(trace, i, j);
      assert false;
    }
  }

  // ----- automatic repeats -----------------------------------------------------------------

  /** How often a purchase was sent in trace[i..j]. */
  function PurchaseSends(trace: seq<Happening>, i: nat, j: nat): nat
    requires j <= |trace|
  {
    if j <= i then 0 else
      PurchaseSends(trace, i, j - 1) + if trace[j - 1].Sent? && trace[j - 1].request.PurchaseRequest? then 1 else 0
  }

  /** A period that begins with the send at i: a purchase sent while none was running, which only the
      user starts, and none of its ends so far. */
  predicate OnePeriod(trace: seq<Happening>, i: nat, j: nat) {
    && i < j <= |trace| && trace[i].Sent? && trace[i].request.PurchaseRequest? && !Read(trace[..i]).buying
    && forall k | i < k < j :: !EndsBuying(Read(trace[..k]), trace[k])
  }

  /** The attempts that were answered, and the one that is out or was given up at the end. */
  function Spent(g: Reading): nat {
    g.auto + if g.flight.Some? || g.over then 1 else 0
  }

  lemma {:induction false} SendsAreCounted(trace: seq<Happening>, i: nat, j: nat)
    requires Proper(trace) && OnePeriod(trace, i, j)
    ensures var g := Read(trace[..j]);
      && g.buying && g.auto <= AUTO_RETRIES && (g.flight.Some? ==> g.flight.value.PurchaseRequest?)
      && PurchaseSends(trace, i, j) <= Spent(g)
    decreases j
  {
    hide Proper; hide Read;
    ProperPrefix(trace, j);
    ReadOneMore(trace, j - 1);
    if j == i + 1 {
      assert PurchaseSends(trace, i, i) == 0;
    } else {
      SendsAreCounted(trace, i, j - 1);
      OneMoreInPeriod(Read(trace[..j - 1]), trace[j - 1]);
    }
  }

  lemma OneMoreInPeriod(g: Reading, h: Happening)
    requires Allowed(g, h) && !EndsBuying(g, h)
    requires g.buying && g.auto <= AUTO_RETRIES && (g.flight.Some? ==> g.flight.value.PurchaseRequest?)
    ensures var t := After(g, h);
      && t.buying && t.auto <= AUTO_RETRIES && (t.flight.Some? ==> t.flight.value.PurchaseRequest?)
      && Spent(g) + (if h.Sent? && h.request.PurchaseRequest? then 1 else 0) <= Spent(t)
  {}

  /** From the user's start or retry to the end of that purchase's run, it is sent once and repeated on
      its own at most four times. */
  lemma RepeatsAreBounded(trace: seq<Happening>, i: nat, j: nat)
    requires Proper(trace) && OnePeriod(trace, i, j)
    ensures PurchaseSends(trace, i, j) <= 5
  {
    SendsAreCounted(trace, i, j);
  }
}
