/** Payment callbacks: what each one does to the sales ledger, when it is refused, and that an
    accepted one can be replayed at any time without effect. */
module SalesWebhook {
  import opened AdmissionTypes
  import opened Sales
  import opened SalesInvariant
  import opened SalesSteps

  function CallbackOf(n: Notice): Callback {
    Callback(n.order, n.provider, n.status)
  }

  // ----- the key ---------------------------------------------------------------------------

  /** Only the callback's key differs. */
  predicate Keyed(b: Books, t: Books, n: Notice) {
    (n.key in b.callbacks ==> b.callbacks[n.key] == CallbackOf(n)) && t == b.(callbacks := b.callbacks[n.key := CallbackOf(n)])
  }

  lemma KeyedRecords(b: Books, t: Books, n: Notice)
    requires RecordsOk(b) && Keyed(b, t, n)
    ensures RecordsOk(t)
  {}

  lemma KeyedKeeps(b: Books, t: Books, n: Notice)
    requires BooksOk(b) && Keyed(b, t, n) && CallbacksOk(t)
    ensures BooksOk(t)
  {
    assert KeysOk(t) && IndexOk(t) by { hide SeatsOk; hide RecordsOk; hide FactsOk; hide TicketsOk; hide CallbacksOk; }
    hide SeatsOk; hide RecordsOk; hide CallbacksOk; hide KeysOk; hide IndexOk; hide FactsOk; hide TicketsOk;
    KeyedRecords(b, t, n);
    SameSeats(b, t);
    SameTickets(b, t);
    SameFacts(b, t);
  }

  lemma KeyedCallbacks(b: Books, t: Books, n: Notice)
    requires CallbacksOk(b) && Keyed(b, t, n) && n.order in b.orders && n.status != Unsettled
    requires var s := b.orders[n.order].status;
      s == Paid || (s == OrderStatus.Cancelled && n.status == Failed) || s == Delivered || n.key in b.callbacks
    ensures CallbacksOk(t)
  {}

  lemma SettlementsAreIndexed(b: Books)
    requires IndexOk(b) && RecordsOk(b)
    ensures forall k | k in b.settlementKeys :: k in b.callbacks && b.callbacks[k].provider in b.paymentByProvider
  {
    forall k | k in b.settlementKeys ensures k in b.callbacks && b.callbacks[k].provider in b.paymentByProvider {
      var p := b.settlementKeys[k];
      assert b.payments[p].provider.Some? && b.payments[p].key == k;
      assert b.payments[p].provider.value in b.paymentByProvider;
    }
  }

  /** A key reserved for this provider meets no other provider's record: the second unique index is
      never violated. */
  lemma KeyIsFree(b: Books, n: Notice)
    requires BooksOk(b) && ReserveKey(b, n).Ok? && n.provider !in b.paymentByProvider
    ensures n.key !in b.settlementKeys
  {
    hide SeatsOk; hide KeysOk; hide FactsOk; hide CallbacksOk; hide TicketsOk;
    SettlementsAreIndexed(b);
  }

  // ----- a new record ----------------------------------------------------------------------

  function NewRecord(n: Notice, reconciliation: bool): Payment {
    Payment(n.order, n.status, Some(n.provider), n.key, reconciliation)
  }

  /** A new provider record under the reserved key, and the order in state s. */
  predicate Recorded(b: Books, t: Books, n: Notice, id: PaymentId, reconciliation: bool, s: OrderStatus) {
    && n.order in b.orders && n.provider !in b.paymentByProvider && n.key !in b.settlementKeys && id !in b.payments
    && (n.key in b.callbacks ==> b.callbacks[n.key] == CallbackOf(n))
    && t == b.(events := t.events, tickets := t.tickets, nextTicket := t.nextTicket,
               orders := b.orders[n.order := b.orders[n.order].(status := s)],
               payments := b.payments[id := NewRecord(n, reconciliation)],
               paymentByProvider := b.paymentByProvider[n.provider := id],
               settlementKeys := b.settlementKeys[n.key := id],
               callbacks := b.callbacks[n.key := CallbackOf(n)])
  }

  lemma RecordedKeys(b: Books, t: Books, n: Notice, id: PaymentId, reconciliation: bool, s: OrderStatus)
    requires KeysOk(b) && Recorded(b, t, n, id, reconciliation, s)
    ensures KeysOk(t)
  {}

  lemma RecordedIndex(b: Books, t: Books, n: Notice, id: PaymentId, reconciliation: bool, s: OrderStatus)
    requires IndexOk(b) && Recorded(b, t, n, id, reconciliation, s)
    ensures IndexOk(t)
  {}

  lemma RecordedRecords(b: Books, t: Books, n: Notice, id: PaymentId, reconciliation: bool, s: OrderStatus)
    requires RecordsOk(b) && Recorded(b, t, n, id, reconciliation, s) && n.status != Unsettled
    ensures RecordsOk(t)
  {}

  ghost predicate NoneOf(b: Books, o: OrderId) {
    forall p | p in b.payments :: !Of(b.payments[p], o)
  }

  lemma RecordedFacts(b: Books, t: Books, n: Notice, id: PaymentId, reconciliation: bool, s: OrderStatus)
    requires FactsOk(b) && Recorded(b, t, n, id, reconciliation, s) && FactOk(s, NewRecord(n, reconciliation))
    requires NoneOf(b, n.order) || (s == OrderStatus.Expired && b.orders[n.order].status == OrderStatus.Expired)
    ensures FactsOk(t)
  {
    assert Of(t.payments[id], n.order);
    forall x | x in t.orders && (t.orders[x].status == Paid || t.orders[x].status == OrderStatus.Cancelled)
      ensures exists p :: p in t.payments && Of(t.payments[p], x)
    {
      if x == n.order { assert Of(t.payments[id], x); } else {
        var p :| p in b.payments && Of(b.payments[p], x);
        assert Of(t.payments[p], x);
      }
    }
    forall p | p in t.payments && t.payments[p].provider.Some? && t.payments[p].order in t.orders
      ensures FactOk(t.orders[t.payments[p].order].status, t.payments[p])
    {
      assert p != id && NoneOf(b, n.order) ==> !Of(b.payments[p], n.order);
    }
    forall x, y | Rivals(t, x, y) ensures x == y {
      assert x != id && NoneOf(b, n.order) ==> !Of(b.payments[x], n.order);
      assert y != id && NoneOf(b, n.order) ==> !Of(b.payments[y], n.order);
      assert x != id && y != id ==> Rivals(b, x, y);
    }
  }

  lemma RecordedCallbacks(b: Books, t: Books, n: Notice, id: PaymentId, reconciliation: bool, s: OrderStatus)
    requires CallbacksOk(b) && Recorded(b, t, n, id, reconciliation, s) && n.status != Unsettled
    requires (forall k | k in b.callbacks :: b.callbacks[k].order != n.order) || (s == OrderStatus.Expired && b.orders[n.order].status == OrderStatus.Expired)
    requires s == Paid || (s == OrderStatus.Cancelled && n.status == Failed) || (s == OrderStatus.Expired && reconciliation == (n.status == Settled))
    ensures CallbacksOk(t)
  {}

  lemma RecordedKeeps(b: Books, t: Books, n: Notice, id: PaymentId, reconciliation: bool, s: OrderStatus)
    requires BooksOk(b) && Recorded(b, t, n, id, reconciliation, s) && SeatsOk(t) && TicketsOk(t)
    requires b.orders[n.order].status == Pending || (s == OrderStatus.Expired && b.orders[n.order].status == OrderStatus.Expired)
    requires FactOk(s, NewRecord(n, reconciliation))
    ensures BooksOk(t)
  {
    if b.orders[n.order].status == Pending { PendingHasNone(b, n.order); }
    hide SeatsOk; hide TicketsOk; hide KeysOk; hide IndexOk; hide RecordsOk; hide FactsOk; hide CallbacksOk; hide Recorded;
    RecordedKeys(b, t, n, id, reconciliation, s);
    RecordedIndex(b, t, n, id, reconciliation, s);
    RecordedRecords(b, t, n, id, reconciliation, s);
    RecordedFacts(b, t, n, id, reconciliation, s);
    RecordedCallbacks(b, t, n, id, reconciliation, s);
  }

  // ----- tickets ---------------------------------------------------------------------------

  /** Issuing adds exactly `quantity` numbers to the order, all new, and none to any other. */
  lemma {:induction false} IssueAdds(b: Books, o: OrderId, event: EventId, user: UserId, quantity: nat)
    requires forall n | n in b.tickets :: n < b.nextTicket
    ensures var t := Issue(b, o, event, user, quantity);
      && t == b.(tickets := t.tickets, nextTicket := b.nextTicket + quantity)
      && (forall n | n in b.tickets :: n in t.tickets && t.tickets[n] == b.tickets[n])
      && (forall n | n in t.tickets && n !in b.tickets :: b.nextTicket <= n < t.nextTicket && t.tickets[n] == Ticket(o, event, user))
      && |TicketsOf(t, o)| == |TicketsOf(b, o)| + quantity
      && (forall x | x != o :: TicketsOf(t, x) == TicketsOf(b, x))
    decreases quantity
  {
    if quantity > 0 {
      var b1 := b.(tickets := b.tickets[b.nextTicket := Ticket(o, event, user)], nextTicket := b.nextTicket + 1);
      assert TicketsOf(b1, o) == TicketsOf(b, o) + {b.nextTicket};
      assert forall x | x != o :: TicketsOf(b1, x) == TicketsOf(b, x);
      IssueAdds(b1, o, event, user, quantity - 1);
    }
  }

  lemma IssuedTickets(b: Books, b1: Books, t: Books, o: OrderId)
    requires TicketsOk(b) && o in b.orders && b.orders[o].status != Paid && b.orders[o].quantity > 0
    requires b1.tickets == b.tickets && b1.nextTicket == b.nextTicket && b1.orders == b.orders[o := b.orders[o].(status := Paid)]
    requires t == Issue(b1, o, b.orders[o].event, b.orders[o].user, b.orders[o].quantity)
    ensures TicketsOk(t) && t == b1.(tickets := t.tickets, nextTicket := t.nextTicket)
  {
    IssueAdds(b1, o, b.orders[o].event, b.orders[o].user, b.orders[o].quantity);
    assert forall x :: TicketsOf(b1, x) == TicketsOf(b, x);
  }

  // ----- the three ways in -----------------------------------------------------------------

  lemma PaidKeeps(b: Books, n: Notice, id: PaymentId)
    requires BooksOk(b) && n.order in b.orders && b.orders[n.order].status == Pending && n.status == Settled && ReserveKey(b, n).Ok?
    ensures var r := Settle(ReserveKey(b, n).value, n, id); r.Ok? ==> BooksOk(r.value.0)
  {
    var b1 := ReserveKey(b, n).value;
    var r := Settle(b1, n, id);
    if r.Ok? {
      PendingHasNone(b, n.order);
      PendingRecordIsNew(b, b1, n);
      KeyIsFree(b, n);
      var b2 := WithStatus(Record(b1, n, id, false).value.0, n.order, Paid);
      assert TicketsOf(b2, n.order) == {} by { assert TicketsOf(b2, n.order) == TicketsOf(b, n.order); }
      var t := r.value.0;
      assert t == Issue(b2, n.order, b.orders[n.order].event, b.orders[n.order].user, b.orders[n.order].quantity);
      IssuedTickets(b, b2, t, n.order);
      assert Recorded(b, t, n, id, false, Paid);
      assert SeatsOk(t) by { PaidSeats(b, t, n.order); }
      hide BooksOk; hide SeatsOk; hide TicketsOk; hide Recorded; hide Settle; hide Record; hide ReserveKey; hide Issue;
      RecordedKeeps(b, t, n, id, false, Paid);
    }
  }

  lemma PaidSeats(b: Books, t: Books, o: OrderId)
    requires SeatsOk(b) && o in b.orders && b.orders[o].status == Pending
    requires t.events == b.events && t.reservations == b.reservations && t.orders == b.orders[o := b.orders[o].(status := Paid)]
    ensures SeatsOk(t)
  {
    var e := b.orders[o].event;
    assert t.events == b.events[e := Event(b.events[e].total, b.events[e].available + 0)];
    OrderSeats(b, t, o, b.orders[o].(status := Paid), 0);
  }

  /** A pending order's provider transaction is unknown, or belongs to another order. */
  lemma PendingRecordIsNew(b: Books, b1: Books, n: Notice)
    requires BooksOk(b) && n.order in b.orders && b.orders[n.order].status == Pending
    requires b1 == b.(callbacks := b1.callbacks)
    ensures n.provider in b.paymentByProvider ==> b.paymentByProvider[n.provider] in b.payments && b.payments[b.paymentByProvider[n.provider]].order != n.order
  {
    PendingHasNone(b, n.order);
    hide SeatsOk; hide KeysOk; hide FactsOk; hide CallbacksOk; hide TicketsOk; hide RecordsOk;
    if n.provider in b.paymentByProvider {
      var prior := b.paymentByProvider[n.provider];
      assert prior in b.payments && b.payments[prior].provider == Some(n.provider);
      assert !Of(b.payments[prior], n.order);
    }
  }

  lemma CancelledSeats(b: Books, t: Books, o: OrderId)
    requires SeatsOk(b) && o in b.orders && b.orders[o].status == Pending && b.orders[o].event in b.events
    requires t.reservations == b.reservations && t.orders == b.orders[o := b.orders[o].(status := OrderStatus.Cancelled)]
    requires var e := b.orders[o].event;
      t.events == b.events[e := Event(b.events[e].total, b.events[e].available + b.orders[o].quantity)]
    ensures SeatsOk(t)
  {
    OrderSeats(b, t, o, b.orders[o].(status := OrderStatus.Cancelled), b.orders[o].quantity);
  }

  lemma CancelledTickets(b: Books, t: Books, o: OrderId)
    requires TicketsOk(b) && o in b.orders && b.orders[o].status == Pending && t.tickets == b.tickets && t.nextTicket == b.nextTicket
    requires t.orders == b.orders[o := b.orders[o].(status := OrderStatus.Cancelled)]
    ensures TicketsOk(t)
  {
    assert forall x :: TicketsOf(t, x) == TicketsOf(b, x);
  }

  /** What a failure makes of a pending order: the record, its status, and its seats back on sale. */
  lemma CancelledWrites(b: Books, n: Notice, id: PaymentId)
    requires n.order in b.orders && b.orders[n.order].status == Pending && n.status == Failed && ReserveKey(b, n).Ok?
    requires n.provider in b.paymentByProvider ==> b.paymentByProvider[n.provider] in b.payments && b.payments[b.paymentByProvider[n.provider]].order != n.order
    requires Fail(ReserveKey(b, n).value, n, id).Ok?
    ensures var t := Fail(ReserveKey(b, n).value, n, id).value.0;
      && Recorded(b, t, n, id, false, OrderStatus.Cancelled)
      && b.orders[n.order].event in b.events && t.tickets == b.tickets && t.nextTicket == b.nextTicket
      && var e := b.orders[n.order].event;
        t.events == b.events[e := Event(b.events[e].total, b.events[e].available + b.orders[n.order].quantity)]
  {
    assert n.key in b.callbacks ==> b.callbacks == b.callbacks[n.key := b.callbacks[n.key]];
    var b1 := ReserveKey(b, n).value;
    assert n.(status := Failed) == n && Record(b1, n, id, false).Ok?;
    AdjustHolds(Record(b1, n, id, false).value.0, b.orders[n.order].event, b.orders[n.order].quantity);
  }

  lemma KeyedOnly(b: Books, n: Notice)
    requires ReserveKey(b, n).Ok?
    ensures ReserveKey(b, n).value == b.(callbacks := ReserveKey(b, n).value.callbacks)
  {}

  lemma CancelledKeeps(b: Books, n: Notice, id: PaymentId)
    requires BooksOk(b) && n.order in b.orders && b.orders[n.order].status == Pending && n.status == Failed && ReserveKey(b, n).Ok?
    ensures var r := Fail(ReserveKey(b, n).value, n, id); r.Ok? ==> BooksOk(r.value.0)
  {
    var b1 := ReserveKey(b, n).value;
    var r := Fail(b1, n, id);
    KeyedOnly(b, n);
    assert SeatsOk(b) && TicketsOk(b);
    hide BooksOk; hide SeatsOk; hide TicketsOk; hide Fail; hide ReserveKey;
    if r.Ok? {
      var t := r.value.0;
      PendingRecordIsNew(b, b1, n);
      CancelledWrites(b, n, id);
      CancelledSeats(b, t, n.order);
      CancelledTickets(b, t, n.order);
      hide Recorded;
      RecordedKeeps(b, t, n, id, false, OrderStatus.Cancelled);
    }
  }

  /** The record of an expired order's callback was there before: at most its success is noted. */
  predicate Upgraded(b: Books, t: Books, n: Notice) {
    && n.order in b.orders && n.provider in b.paymentByProvider && b.paymentByProvider[n.provider] in b.payments
    && (n.key in b.callbacks ==> b.callbacks[n.key] == CallbackOf(n))
    && var prior := b.paymentByProvider[n.provider];
      && b.payments[prior].order == n.order
      && (t.payments == b.payments || (n.status == Settled && t.payments == b.payments[prior := b.payments[prior].(status := Settled, reconciliation := true)]))
      && (n.status == Settled ==> t.payments[prior].status == Settled && t.payments[prior].reconciliation)
      && t == b.(payments := t.payments, callbacks := b.callbacks[n.key := CallbackOf(n)])
  }

  lemma UpgradedIndex(b: Books, t: Books, n: Notice)
    requires IndexOk(b) && Upgraded(b, t, n)
    ensures IndexOk(t)
  {}

  lemma UpgradedRecords(b: Books, t: Books, n: Notice)
    requires IndexOk(b) && RecordsOk(b) && Upgraded(b, t, n)
    ensures RecordsOk(t)
  {
    var prior := b.paymentByProvider[n.provider];
    assert b.payments[prior].provider == Some(n.provider);
    hide IndexOk;
  }

  lemma UpgradedFacts(b: Books, t: Books, n: Notice)
    requires IndexOk(b) && FactsOk(b) && Upgraded(b, t, n) && b.orders[n.order].status == OrderStatus.Expired
    ensures FactsOk(t)
  {
    forall x | x in t.orders && (t.orders[x].status == Paid || t.orders[x].status == OrderStatus.Cancelled)
      ensures exists p :: p in t.payments && Of(t.payments[p], x)
    {
      var p :| p in b.payments && Of(b.payments[p], x);
      assert Of(t.payments[p], x);
    }
    forall x, y | Rivals(t, x, y) ensures x == y { assert Rivals(b, x, y); }
  }

  lemma UpgradedCallbacks(b: Books, t: Books, n: Notice)
    requires CallbacksOk(b) && Upgraded(b, t, n) && b.orders[n.order].status == OrderStatus.Expired && n.status != Unsettled
    ensures CallbacksOk(t)
  {}

  lemma UpgradedKeeps(b: Books, t: Books, n: Notice)
    requires BooksOk(b) && Upgraded(b, t, n) && b.orders[n.order].status == OrderStatus.Expired && n.status != Unsettled
    ensures BooksOk(t)
  {
    assert KeysOk(t) by { hide SeatsOk; hide RecordsOk; hide FactsOk; hide TicketsOk; hide CallbacksOk; hide IndexOk; }
    hide SeatsOk; hide TicketsOk; hide KeysOk; hide IndexOk; hide RecordsOk; hide FactsOk; hide CallbacksOk;
    SameSeats(b, t);
    SameTickets(b, t);
    hide Upgraded;
    UpgradedIndex(b, t, n);
    UpgradedRecords(b, t, n);
    UpgradedFacts(b, t, n);
    UpgradedCallbacks(b, t, n);
  }

  /** What the callback of an expired order writes when its provider transaction is known. */
  lemma ExpiredUpgrades(b: Books, n: Notice, id: PaymentId)
    requires n.order in b.orders && ReserveKey(b, n).Ok? && n.provider in b.paymentByProvider
    requires Record(ReserveKey(b, n).value, n, id, n.status == Settled).Ok?
    ensures Upgraded(b, Record(ReserveKey(b, n).value, n, id, n.status == Settled).value.0, n)
  {
    ReserveKeyed(b, n);
    hide ReserveKey;
  }

  /** And when it is new. */
  lemma ExpiredRecords(b: Books, n: Notice, id: PaymentId)
    requires n.order in b.orders && b.orders[n.order].status == OrderStatus.Expired && ReserveKey(b, n).Ok? && n.provider !in b.paymentByProvider
    requires Record(ReserveKey(b, n).value, n, id, n.status == Settled).Ok?
    ensures var t := Record(ReserveKey(b, n).value, n, id, n.status == Settled).value.0;
      Recorded(b, t, n, id, n.status == Settled, OrderStatus.Expired) && SeatsUntouched(b, t)
  {
    ReserveKeyed(b, n);
    SameOrder(b, n.order);
    hide ReserveKey;
  }

  lemma SameOrder(b: Books, o: OrderId)
    requires o in b.orders && b.orders[o].status == OrderStatus.Expired
    ensures b.orders[o := b.orders[o].(status := OrderStatus.Expired)] == b.orders
  {
    assert b.orders[o] == b.orders[o].(status := OrderStatus.Expired);
  }

  predicate SeatsUntouched(b: Books, t: Books) {
    && t.events == b.events && t.reservations == b.reservations && t.orders == b.orders
    && t.tickets == b.tickets && t.nextTicket == b.nextTicket
  }

  lemma UntouchedKeeps(b: Books, t: Books)
    requires BooksOk(b) && SeatsUntouched(b, t)
    ensures SeatsOk(t) && TicketsOk(t)
  {
    hide KeysOk; hide IndexOk; hide RecordsOk; hide FactsOk; hide CallbacksOk;
    assert SeatsOk(b) && TicketsOk(b);
    hide SeatsOk; hide TicketsOk;
    SameSeats(b, t);
    SameTickets(b, t);
  }

  lemma ExpiredKeeps(b: Books, n: Notice, id: PaymentId)
    requires BooksOk(b) && n.order in b.orders && b.orders[n.order].status == OrderStatus.Expired && n.status != Unsettled && ReserveKey(b, n).Ok?
    ensures var r := Record(ReserveKey(b, n).value, n, id, n.status == Settled); r.Ok? ==> BooksOk(r.value.0)
  {
    hide BooksOk; hide Record; hide ReserveKey; hide Upgraded; hide Recorded; hide SeatsOk; hide TicketsOk; hide SeatsUntouched;
    var r := Record(ReserveKey(b, n).value, n, id, n.status == Settled);
    if r.Ok? {
      var t := r.value.0;
      if n.provider in b.paymentByProvider {
        ExpiredUpgrades(b, n, id);
        UpgradedKeeps(b, t, n);
      } else {
        ExpiredRecords(b, n, id);
        UntouchedKeeps(b, t);
        RecordedKeeps(b, t, n, id, n.status == Settled, OrderStatus.Expired);
      }
    }
  }

  lemma ReserveKeyed(b: Books, n: Notice)
    requires ReserveKey(b, n).Ok?
    ensures Keyed(b, ReserveKey(b, n).value, n) && ReserveKey(b, n).value.orders == b.orders
  {
    if n.key in b.callbacks { assert b.callbacks == b.callbacks[n.key := b.callbacks[n.key]]; }
  }

  lemma NeverDelivered(b: Books, o: OrderId)
    requires BooksOk(b) && o in b.orders
    ensures b.orders[o].status != Delivered
  {
    hide SeatsOk; hide TicketsOk; hide KeysOk; hide IndexOk; hide RecordsOk; hide CallbacksOk;
  }

  lemma WebhookKeeps(b: Books, n: Notice, id: PaymentId)
    requires BooksOk(b) && n.status != Unsettled
    ensures var r := Webhook(b, n, id); r.Ok? ==> BooksOk(r.value.0)
  {
    var r := Webhook(b, n, id);
    if r.Ok? {
      var b1 := ReserveKey(b, n).value;
      ReserveKeyed(b, n);
      NeverDelivered(b, n.order);
      assert CallbacksOk(b);
      hide BooksOk; hide ReserveKey; hide Record; hide Keyed; hide CallbacksOk; hide Issue; hide Adjust;
      match b.orders[n.order].status {
        case Expired => ExpiredKeeps(b, n, id);
        case Pending => if n.status == Settled { hide Settle; PaidKeeps(b, n, id); } else { hide Fail; CancelledKeeps(b, n, id); }
        case Paid => KeyedCallbacks(b, b1, n); KeyedKeeps(b, b1, n);
        case Cancelled => KeyedCallbacks(b, b1, n); KeyedKeeps(b, b1, n);
        case Delivered =>
      }
    }
  }

  // ----- which callbacks are accepted, and their replay --------------------------------------

  /** The key is free or already this callback's, and the provider transaction is not another order's. */
  predicate Acceptable(b: Books, n: Notice) {
    && n.order in b.orders
    && (n.key in b.callbacks ==> b.callbacks[n.key] == CallbackOf(n))
    && (b.orders[n.order].status == OrderStatus.Cancelled ==> n.status == Failed)
    && ((b.orders[n.order].status == Pending || b.orders[n.order].status == OrderStatus.Expired) && n.provider in b.paymentByProvider ==>
          b.paymentByProvider[n.provider] in b.payments && b.payments[b.paymentByProvider[n.provider]].order == n.order)
  }

  /** A callback is accepted exactly then: no unique index and no seat count ever stands in its way. An
      unknown order is reported as such, every other refusal is a conflict. */
  lemma AcceptedIff(b: Books, n: Notice, id: PaymentId)
    requires BooksOk(b) && n.status != Unsettled && id !in b.payments
    ensures Webhook(b, n, id).Ok? <==> Acceptable(b, n)
    ensures !Acceptable(b, n) ==> Webhook(b, n, id) == Err(if n.order in b.orders then Conflict else Fault.NotFound)
  {
    if n.order in b.orders && ReserveKey(b, n).Ok? {
      ReserveKeyed(b, n);
      NeverDelivered(b, n.order);
      if n.provider !in b.paymentByProvider { KeyIsFree(b, n); }
      ProviderIsRecorded(b, n);
      assert b.orders[n.order].event in b.events && b.orders[n.order].quantity > 0;
      hide BooksOk; hide Issue;
    }
  }

  lemma ProviderIsRecorded(b: Books, n: Notice)
    requires BooksOk(b)
    ensures n.provider in b.paymentByProvider ==> b.paymentByProvider[n.provider] in b.payments
  {
    hide SeatsOk; hide TicketsOk; hide KeysOk; hide RecordsOk; hide FactsOk; hide CallbacksOk;
  }

  /** Replaying an accepted callback, however much later, is accepted and changes nothing. */
  lemma ReplayChangesNothing(b: Books, k: CallbackKey, id: PaymentId)
    requires BooksOk(b) && k in b.callbacks
    ensures var c := b.callbacks[k];
      var r := Webhook(b, Notice(c.order, c.provider, c.status, k), id);
      r.Ok? && r.value.0 == b && r.value.1.duplicate
  {
    hide SeatsOk; hide TicketsOk; hide KeysOk; hide IndexOk; hide RecordsOk;
    var c := b.callbacks[k];
    NeverDelivered(b, c.order);
  }

  lemma {:induction false} IssueLeaves(b: Books, o: OrderId, event: EventId, user: UserId, quantity: int)
    ensures var t := Issue(b, o, event, user, quantity); t == b.(tickets := t.tickets, nextTicket := t.nextTicket)
    decreases if quantity < 0 then 0 else quantity
  {
    if quantity > 0 {
      IssueLeaves(b.(tickets := b.tickets[b.nextTicket := Ticket(o, event, user)], nextTicket := b.nextTicket + 1), o, event, user, quantity - 1);
    }
  }

  lemma RecordLeaves(b: Books, n: Notice, id: PaymentId, reconciliation: bool)
    ensures var r := Record(b, n, id, reconciliation); r.Ok? ==> r.value.0.callbacks == b.callbacks && r.value.0.orders == b.orders
    ensures var r := Record(b, n, id, reconciliation);
      r.Ok? ==> forall p | p in b.payments && b.payments[p].status == Settled ::
        p in r.value.0.payments && r.value.0.payments[p].status == Settled && r.value.0.payments[p].provider == b.payments[p].provider
          && r.value.0.payments[p].order == b.payments[p].order
  {}

  /** What no callback undoes: keys stay bound, and a settled record stays settled. */
  predicate Lasting(b: Books, t: Books) {
    && (forall k | k in b.callbacks :: k in t.callbacks && t.callbacks[k] == b.callbacks[k])
    && (forall p | p in b.payments && b.payments[p].status == Settled ::
          p in t.payments && t.payments[p].status == Settled && t.payments[p].provider == b.payments[p].provider
            && t.payments[p].order == b.payments[p].order)
  }

  lemma SettleLasts(b: Books, n: Notice, id: PaymentId)
    ensures var r := Settle(b, n, id); r.Ok? ==> Lasting(b, r.value.0) && r.value.0.callbacks == b.callbacks
  {
    hide Record; hide Issue;
    RecordLeaves(b, n.(status := Settled), id, false);
    if n.order in b.orders && Record(b, n.(status := Settled), id, false).Ok? {
      var o := b.orders[n.order];
      IssueLeaves(WithStatus(Record(b, n.(status := Settled), id, false).value.0, n.order, Paid), n.order, o.event, o.user, o.quantity);
    }
  }

  lemma FailLasts(b: Books, n: Notice, id: PaymentId)
    ensures var r := Fail(b, n, id); r.Ok? ==> Lasting(b, r.value.0) && r.value.0.callbacks == b.callbacks
  {
    hide Record;
    RecordLeaves(b, n.(status := Failed), id, false);
  }

  /** An accepted callback is bound to its key from then on; no binding and no settlement is undone. */
  lemma AcceptedIsBound(b: Books, n: Notice, id: PaymentId)
    requires Webhook(b, n, id).Ok?
    ensures var t := Webhook(b, n, id).value.0; Lasting(b, t) && n.key in t.callbacks && t.callbacks[n.key] == CallbackOf(n)
  {
    hide Settle; hide Fail; hide Record;
    var b1 := ReserveKey(b, n).value;
    ReserveKeyed(b, n);
    SettleLasts(b1, n, id);
    FailLasts(b1, n, id);
    RecordLeaves(b1, n, id, n.status == Settled);
  }
}
