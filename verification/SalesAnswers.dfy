/** When each sales transaction goes through, and what it then changes. In a ledger that is in order
    no seat count, unique index or missing row stands in the way of any other outcome. */
module SalesAnswers {
  import opened AdmissionTypes
  import opened Sales
  import opened SalesInvariant
  import opened SalesSteps
  import opened SalesWebhook

  /** The event's seats after `delta`. */
  function Moved(b: Books, e: EventId, delta: int): map<EventId, Event>
    requires e in b.events
  {
    b.events[e := Event(b.events[e].total, b.events[e].available + delta)]
  }

  /** A reservation is made exactly when the event sells it and has the seats, which it then holds. A
      refusal says what was missing, the event first and the seats last. */
  lemma ReservesIff(b: Books, id: ResourceId, q: Request, eligible: bool, tierKnown: bool, expiresAt: int)
    requires id !in b.reservations
    ensures var r := Reserve(b, id, q, eligible, tierKnown, expiresAt);
      && (r.Ok? <==> q.event in b.events && eligible && tierKnown && 0 < q.quantity <= b.events[q.event].available)
      && (r.Ok? ==> r.value == b.(events := Moved(b, q.event, -q.quantity),
            reservations := b.reservations[id := Reservation(q.user, q.event, q.tier, q.quantity, expiresAt, Active)]))
      && (r == Err(Fault.NotFound) <==> q.event !in b.events)
      && (r == Err(Conflict) <==> q.event in b.events && !eligible)
      && (q.event in b.events && eligible && tierKnown && q.quantity > 0 && b.events[q.event].available < q.quantity ==>
            r == Err(SoldOut(b.events[q.event].available, q.quantity)))
  {}

  /** Release and expiry never fail: an active reservation gives its seats back, once. */
  lemma ReturnsOnce(b: Books, id: ResourceId, final: ReservationStatus)
    requires BooksOk(b) && id in b.reservations && final != Active
    ensures var r := ReturnSeats(b, id, final);
      && r.Ok?
      && (if b.reservations[id].status == Active
          then r.value == b.(events := Moved(b, b.reservations[id].event, b.reservations[id].quantity),
                             reservations := b.reservations[id := b.reservations[id].(status := final)])
          else r.value == b)
      && ReturnSeats(r.value, id, final) == r
  {
    hide KeysOk; hide IndexOk; hide RecordsOk; hide FactsOk; hide CallbacksOk; hide TicketsOk;
    assert b.reservations[id].event in b.events;
    hide BooksOk;
  }

  /** Order expiry never fails: an overdue pending order gives its seats back, once. */
  lemma ExpiresOnce(b: Books, o: OrderId, now: int)
    requires BooksOk(b) && o in b.orders
    ensures var r := ExpireOrder(b, o, now);
      && r.Ok?
      && (if b.orders[o].status == Pending && b.orders[o].deadline.Some? && b.orders[o].deadline.value <= now
          then r.value == b.(events := Moved(b, b.orders[o].event, b.orders[o].quantity),
                             orders := b.orders[o := b.orders[o].(status := OrderStatus.Expired)])
          else r.value == b)
      && ExpireOrder(r.value, o, now) == r
  {
    hide KeysOk; hide IndexOk; hide RecordsOk; hide FactsOk; hide CallbacksOk; hide TicketsOk;
    assert b.orders[o].event in b.events;
    hide BooksOk;
  }

  predicate NewIds(b: Books, f: Fresh) {
    f.order !in b.orders && f.payment !in b.payments
  }

  /** A checkout key without an order has no unsettled payment either. */
  lemma KeyHasNoPayment(b: Books, k: CheckoutKey)
    requires BooksOk(b) && k !in b.orderByKey
    ensures k !in b.checkoutKeys
  {
    hide SeatsOk; hide FactsOk; hide CallbacksOk; hide TicketsOk;
    forall c | c in b.checkoutKeys ensures c in b.orderByKey {
      var p := b.checkoutKeys[c];
      assert b.payments[p].provider.None? && b.payments[p].key == c;
      assert b.orders[b.payments[p].order].key == c;
    }
  }

  /** A direct checkout under a new key places an order exactly when the event sells it and has the
      seats, which the order then holds; a refusal says what was missing. */
  lemma DirectOrderIff(b: Books, p: Purchase, f: Fresh, now: int)
    requires BooksOk(b) && p.reservation.None? && p.key !in b.orderByKey && NewIds(b, f)
    ensures var r := Checkout(b, p, f, now);
      && (r.Ok? <==> p.request.event in b.events && f.eligible && f.priced && 0 < p.request.quantity <= b.events[p.request.event].available)
      && (r.Ok? ==>
            && r.value.1 == Placed(f.order)
            && Ordered(b, r.value.0, p, f)
            && r.value.0.events == Moved(b, p.request.event, -p.request.quantity) && r.value.0.reservations == b.reservations)
      && (r == Err(Fault.NotFound) <==> p.request.event !in b.events)
      && (r == Err(Conflict) <==> p.request.event in b.events && !f.eligible)
      && (p.request.event in b.events && f.eligible && f.priced && b.events[p.request.event].available < p.request.quantity && p.request.quantity > 0 ==>
            r == Err(SoldOut(b.events[p.request.event].available, p.request.quantity)))
  {
    KeyHasNoPayment(b, p.key);
    hide BooksOk;
  }

  /** A checkout of the user's own active, unexpired reservation, for exactly what it holds, turns it
      into the order: no seat moves. One whose time is over is returned instead. Any other is refused:
      an unknown one as such, and one of another user, event, tier or quantity, or no longer active, as
      a conflict. */
  lemma ReservedOrderIff(b: Books, p: Purchase, f: Fresh, now: int)
    requires BooksOk(b) && p.reservation.Some? && p.key !in b.orderByKey && NewIds(b, f)
    ensures var rid, q := p.reservation.value, p.request;
      var r := Checkout(b, p, f, now);
      if rid !in b.reservations then r == Err(Fault.NotFound)
      else
        var v := b.reservations[rid];
        if !(v.user == q.user && v.event == q.event && v.tier == q.tier && v.quantity == q.quantity && v.status == Active) then r == Err(Conflict)
        else if v.expiresAt <= now then
          r == Ok((b.(events := Moved(b, v.event, v.quantity), reservations := b.reservations[rid := v.(status := Lapsed)]), ReservationLapsed))
        else if !f.eligible then r == Err(Conflict)
        else if !f.priced then r == Err(Invalid)
        else
          && r.Ok? && r.value.1 == Placed(f.order) && Ordered(b, r.value.0, p, f) && r.value.0.events == b.events
          && r.value.0.reservations == b.reservations[rid := v.(status := Converted)]
  {
    var rid := p.reservation.value;
    KeyHasNoPayment(b, p.key);
    if rid in b.reservations {
      ReservedSeats(b, rid);
      ReturnsOnce(b, rid, Lapsed);
      if SameRequest(b.reservations[rid], p.request) { HeldOrder(b, rid, p, f); }
    }
    hide BooksOk; hide PlaceOrder; hide ReturnSeats; hide Convert; hide Ordered;
  }

  lemma HeldOrder(b: Books, rid: ResourceId, p: Purchase, f: Fresh)
    requires rid in b.reservations && p.key !in b.orderByKey && p.key !in b.checkoutKeys && NewIds(b, f)
    requires b.reservations[rid].event in b.events && b.reservations[rid].quantity > 0 && SameRequest(b.reservations[rid], p.request)
    ensures var r := PlaceOrder(Convert(b, rid), p, f, true);
      && (!f.eligible ==> r == Err(Conflict)) && (f.eligible && !f.priced ==> r == Err(Invalid)) && (f.eligible && f.priced ==> r.Ok?)
      && (r.Ok? ==>
            && Ordered(b, r.value, p, f) && r.value.events == b.events
            && r.value.reservations == b.reservations[rid := b.reservations[rid].(status := Converted)])
  {}

  lemma ReservedSeats(b: Books, rid: ResourceId)
    requires BooksOk(b) && rid in b.reservations
    ensures b.reservations[rid].event in b.events && b.reservations[rid].quantity > 0
  {
    hide KeysOk; hide IndexOk; hide RecordsOk; hide FactsOk; hide CallbacksOk; hide TicketsOk;
  }

  // ----- payment callbacks -----------------------------------------------------------------

  predicate KeyBound(b: Books, t: Books, n: Notice) {
    t.callbacks == b.callbacks[n.key := CallbackOf(n)]
  }

  /** The provider's transaction is on record, as this callback reported it. */
  predicate OnRecord(t: Books, n: Notice) {
    && n.provider in t.paymentByProvider && t.paymentByProvider[n.provider] in t.payments
    && t.payments[t.paymentByProvider[n.provider]] == Payment(n.order, n.status, Some(n.provider), n.key, false)
  }

  /** A success on a pending order pays it, issues its tickets and moves no seat. */
  lemma SuccessPays(b: Books, n: Notice, id: PaymentId)
    requires BooksOk(b) && Acceptable(b, n) && b.orders[n.order].status == Pending && n.status == Settled && id !in b.payments
    ensures Webhook(b, n, id).Ok?
    ensures var (t, r) := Webhook(b, n, id).value;
      && t.orders == b.orders[n.order := b.orders[n.order].(status := Paid)]
      && t.events == b.events && t.reservations == b.reservations && KeyBound(b, t, n) && OnRecord(t, n)
      && |TicketsOf(t, n.order)| == b.orders[n.order].quantity
      && r == Response(Settled, false, TicketsOf(t, n.order))
  {
    AcceptedIff(b, n, id);
    WebhookKeeps(b, n, id);
    ReserveKeyed(b, n);
    PendingHasNoTicket(b, n.order);
    var b1 := ReserveKey(b, n).value;
    PendingRecordIsNew(b, b1, n);
    assert n.provider !in b.paymentByProvider;
    hide BooksOk; hide ReserveKey;
    assert Settle(b1, n, id).Ok?;
    SettleWrites(b, b1, n, id);
  }

  lemma PendingHasNoTicket(b: Books, o: OrderId)
    requires BooksOk(b) && o in b.orders && b.orders[o].status == Pending
    ensures TicketsOf(b, o) == {} && b.orders[o].quantity > 0 && forall n | n in b.tickets :: n < b.nextTicket
  {
    hide KeysOk; hide IndexOk; hide RecordsOk; hide FactsOk; hide CallbacksOk;
  }

  lemma SettleWrites(b: Books, b1: Books, n: Notice, id: PaymentId)
    requires Keyed(b, b1, n) && n.order in b.orders && b.orders[n.order].status == Pending && n.status == Settled
    requires TicketsOf(b, n.order) == {} && b.orders[n.order].quantity > 0 && forall n | n in b.tickets :: n < b.nextTicket
    requires Settle(b1, n, id).Ok? && n.provider !in b.paymentByProvider
    ensures var (t, r) := Settle(b1, n, id).value;
      && t.orders == b.orders[n.order := b.orders[n.order].(status := Paid)]
      && t.events == b.events && t.reservations == b.reservations && KeyBound(b, t, n) && OnRecord(t, n)
      && |TicketsOf(t, n.order)| == b.orders[n.order].quantity
      && r == Response(Settled, false, TicketsOf(t, n.order))
  {
    var o := b.orders[n.order];
    assert n.(status := Settled) == n;
    var b2 := WithStatus(Record(b1, n, id, false).value.0, n.order, Paid);
    RecordLeavesTickets(b1, n, id);
    assert TicketsOf(b2, n.order) == TicketsOf(b, n.order);
    assert OnRecord(b2, n);
    IssueAdds(b2, n.order, o.event, o.user, o.quantity);
    IssueLeaves(b2, n.order, o.event, o.user, o.quantity);
    hide Record; hide Issue;
  }

  lemma RecordLeavesTickets(b: Books, n: Notice, id: PaymentId)
    ensures var r := Record(b, n, id, false);
      r.Ok? ==> r.value.0 == b.(payments := r.value.0.payments, paymentByProvider := r.value.0.paymentByProvider, settlementKeys := r.value.0.settlementKeys)
  {}

  /** A failure of a pending order cancels it and puts its seats back on sale. */
  lemma FailureCancels(b: Books, n: Notice, id: PaymentId)
    requires BooksOk(b) && Acceptable(b, n) && b.orders[n.order].status == Pending && n.status == Failed && id !in b.payments
    ensures Webhook(b, n, id).Ok? && b.orders[n.order].event in b.events
    ensures var (t, r) := Webhook(b, n, id).value;
      && t.orders == b.orders[n.order := b.orders[n.order].(status := OrderStatus.Cancelled)]
      && t.events == Moved(b, b.orders[n.order].event, b.orders[n.order].quantity)
      && t.reservations == b.reservations && t.tickets == b.tickets && KeyBound(b, t, n) && OnRecord(t, n)
      && r == Response(Failed, false, {})
  {
    AcceptedIff(b, n, id);
    var b1 := ReserveKey(b, n).value;
    KeyedOnly(b, n);
    PendingRecordIsNew(b, b1, n);
    hide BooksOk;
    CancelledWrites(b, n, id);
    hide ReserveKey; hide Record;
  }

  /** A callback of an order that already left pending changes no order, seat or ticket; on an expired
      order its success is on record, marked for reconciliation. */
  lemma LaterCallbackOnlyRecords(b: Books, n: Notice, id: PaymentId)
    requires BooksOk(b) && Acceptable(b, n) && b.orders[n.order].status != Pending && n.status != Unsettled && id !in b.payments
    ensures Webhook(b, n, id).Ok?
    ensures var (t, r) := Webhook(b, n, id).value;
      && SeatsUntouched(b, t) && KeyBound(b, t, n)
      && (b.orders[n.order].status == Paid ==> r == Response(Settled, true, TicketsOf(b, n.order)) && t.payments == b.payments)
      && (b.orders[n.order].status == OrderStatus.Cancelled ==> r == Response(Failed, true, {}) && t.payments == b.payments)
      && (b.orders[n.order].status == OrderStatus.Expired ==>
            && r.tickets == {} && (r.duplicate <==> t.payments == b.payments)
            && n.provider in t.paymentByProvider && t.paymentByProvider[n.provider] in t.payments
            && var rec := t.payments[t.paymentByProvider[n.provider]];
              rec.order == n.order && rec.status == r.status && (n.status == Settled ==> rec.status == Settled && rec.reconciliation))
  {
    AcceptedIff(b, n, id);
    ReserveKeyed(b, n);
    NeverDelivered(b, n.order);
    hide BooksOk; hide ReserveKey; hide Issue;
  }
}
