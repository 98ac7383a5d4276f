/** The sales laws over every sequence of committed transactions. */
module SalesLaws {
  import opened AdmissionTypes
  import opened Sales
  import opened MapSum
  import opened SalesInvariant
  import opened SalesSteps
  import opened SalesWebhook

  lemma ApplyKeeps(b: Books, t: Transaction)
    requires BooksOk(b)
    ensures BooksOk(Apply(b, t))
  {
    hide BooksOk; hide Reserve; hide ReturnSeats; hide Checkout; hide Webhook; hide ExpireOrder;
    match t
    case CreateEvent(id, seats) => if id !in b.events && seats > 0 { CreateEventKeeps(b, id, seats); }
    case DoReserve(id, q, eligible, tierKnown, expiresAt) => ReserveKeeps(b, id, q, eligible, tierKnown, expiresAt);
    case DoRelease(id) => ReturnSeatsKeeps(b, id, Released);
    case DoLapse(id) => ReturnSeatsKeeps(b, id, Lapsed);
    case DoCheckout(p, f, now) => CheckoutKeeps(b, p, f, now);
    case DoWebhook(n, id) => if n.status != Unsettled { WebhookKeeps(b, n, id); }
    case DoExpireOrder(o, now) => ExpireKeeps(b, o, now);
  }

  lemma EmptyBooksOk()
    ensures BooksOk(EmptyBooks())
  {}

  lemma {:induction false} LedgerOk(ts: seq<Transaction>)
    ensures BooksOk(Ledger(ts))
  {
    hide BooksOk; hide Apply;
    if ts == [] {
      EmptyBooksOk();
    } else {
      LedgerOk(ts[..|ts| - 1]);
      ApplyKeeps(Ledger(ts[..|ts| - 1]), ts[|ts| - 1]);
    }
  }

  // ----- seats -----------------------------------------------------------------------------

  /** Seat conservation, after every committed transaction of every run: what an event has left, what
      active reservations hold and what pending and paid orders have add up to its seats; so it never
      oversells and never has more than it started with. */
  lemma SeatsAreConserved(ts: seq<Transaction>, e: EventId)
    requires e in Ledger(ts).events
    ensures var b := Ledger(ts);
      && b.events[e].available + Total(b.reservations, HoldOf(e)) + Total(b.orders, SaleOf(e)) == b.events[e].total
      && 0 <= b.events[e].available <= b.events[e].total
  {
    LedgerOk(ts);
    hide Ledger; hide KeysOk; hide IndexOk; hide RecordsOk; hide FactsOk; hide CallbacksOk; hide TicketsOk;
    SeatsNeverRunOver(Ledger(ts), e);
  }

  // ----- payments and tickets --------------------------------------------------------------

  /** A paid order has exactly one ticket per seat and exactly one provider record, a settlement with
      nothing to reconcile; any other order has no ticket, a pending one no record, and a success on
      an expired one is marked for reconciliation. No order is ever delivered. */
  lemma PaidExactlyOnce(ts: seq<Transaction>, o: OrderId)
    requires o in Ledger(ts).orders
    ensures var b := Ledger(ts);
      var s := b.orders[o].status;
      && s != Delivered
      && |TicketsOf(b, o)| == (if s == Paid then b.orders[o].quantity else 0)
      && (s == Paid || s == OrderStatus.Cancelled ==> exists p :: p in b.payments && Of(b.payments[p], o))
      && (forall p | p in b.payments && Of(b.payments[p], o) :: FactOk(s, b.payments[p]))
      && (s != OrderStatus.Expired ==>
            forall p, q | p in b.payments && q in b.payments && Of(b.payments[p], o) && Of(b.payments[q], o) :: p == q)
  {
    LedgerOk(ts);
    hide Ledger; hide KeysOk; hide IndexOk; hide RecordsOk; hide SeatsOk; hide CallbacksOk;
    var b := Ledger(ts);
    if b.orders[o].status != OrderStatus.Expired {
      forall p, q | p in b.payments && q in b.payments && Of(b.payments[p], o) && Of(b.payments[q], o) ensures p == q {
        assert Rivals(b, p, q);
      }
    }
  }

  /** Ticket numbers are given out once each, to seats of the ticket's own order. */
  lemma TicketsAreNumbered(ts: seq<Transaction>, n: int)
    requires n in Ledger(ts).tickets
    ensures var b := Ledger(ts);
      && 1 <= n < b.nextTicket && b.tickets[n].order in b.orders && b.orders[b.tickets[n].order].status == Paid
      && b.tickets[n].user == b.orders[b.tickets[n].order].user && b.tickets[n].event == b.orders[b.tickets[n].order].event
  {
    LedgerOk(ts);
    hide Ledger; hide KeysOk; hide IndexOk; hide RecordsOk; hide SeatsOk; hide CallbacksOk; hide FactsOk;
    var b := Ledger(ts);
    assert n in TicketsOf(b, b.tickets[n].order);
    assert TicketsOf(b, b.tickets[n].order) != {};
  }

  // ----- what lasts ------------------------------------------------------------------------

  predicate Frozen(o: Order, p: Order) {
    && p == o.(status := p.status) && (o.status != Pending ==> p.status == o.status)
  }

  /** Bindings, settlements, keys and the identity of orders last; an order leaves pending at most once. */
  ghost predicate Endures(b: Books, t: Books) {
    && Lasting(b, t)
    && (forall o | o in b.orders :: o in t.orders && Frozen(b.orders[o], t.orders[o]))
    && (forall k | k in b.orderByKey :: k in t.orderByKey && t.orderByKey[k] == b.orderByKey[k])
  }

  lemma SeatsEndure(b: Books, t: Books)
    requires OnlySeats(b, t)
    ensures Endures(b, t)
  {}

  lemma OrderedEndures(b: Books, t: Books, p: Purchase, f: Fresh)
    requires Ordered(b, t, p, f)
    ensures Endures(b, t)
  {}

  lemma PlacedIsOrdered(b: Books, p: Purchase, f: Fresh, held: bool)
    ensures var r := PlaceOrder(b, p, f, held); r.Ok? ==> Ordered(b, r.value, p, f)
  {}

  lemma ConvertedIsOrdered(b: Books, rid: ResourceId, p: Purchase, f: Fresh)
    ensures var r := PlaceOrder(Convert(b, rid), p, f, true); r.Ok? ==> Ordered(b, r.value, p, f)
  {}

  lemma CheckoutEndures(b: Books, p: Purchase, f: Fresh, now: int)
    ensures var r := Checkout(b, p, f, now); r.Ok? ==> Endures(b, r.value.0)
  {
    hide PlaceOrder; hide Convert; hide ReturnSeats; hide Endures; hide Ordered;
    SeatsEndure(b, b);
    var r := Checkout(b, p, f, now);
    if r.Ok? && p.key !in b.orderByKey {
      if p.reservation.Some? {
        var rid := p.reservation.value;
        if Convertible(b, rid, p.request, now) { ConvertedIsOrdered(b, rid, p, f); OrderedEndures(b, r.value.0, p, f); }
        else { ReturnedIsSeats(b, rid, Lapsed); SeatsEndure(b, r.value.0); }
      } else {
        PlacedIsOrdered(b, p, f, false);
        OrderedEndures(b, r.value.0, p, f);
      }
    }
  }

  lemma ReturnedIsSeats(b: Books, id: ResourceId, final: ReservationStatus)
    ensures var r := ReturnSeats(b, id, final); r.Ok? ==> OnlySeats(b, r.value)
  {}

  lemma ReservedIsSeats(b: Books, id: ResourceId, q: Request, eligible: bool, tierKnown: bool, expiresAt: int)
    ensures var r := Reserve(b, id, q, eligible, tierKnown, expiresAt); r.Ok? ==> OnlySeats(b, r.value)
  {}

  lemma WebhookEndures(b: Books, n: Notice, id: PaymentId)
    requires BooksOk(b)
    ensures var r := Webhook(b, n, id); r.Ok? ==> Endures(b, r.value.0)
  {
    var r := Webhook(b, n, id);
    if r.Ok? {
      NeverDelivered(b, n.order);
      hide BooksOk;
      AcceptedIsBound(b, n, id);
      WebhookOrders(b, n, id);
    }
  }

  lemma WebhookOrders(b: Books, n: Notice, id: PaymentId)
    requires Webhook(b, n, id).Ok? && b.orders[n.order].status != Delivered
    ensures var t := Webhook(b, n, id).value.0;
      && (forall o | o in b.orders :: o in t.orders && Frozen(b.orders[o], t.orders[o]))
      && t.orderByKey == b.orderByKey
  {
    hide Record; hide Issue;
    ReserveKeyed(b, n);
    var b1 := ReserveKey(b, n).value;
    hide ReserveKey;
    RecordOrders(b1, n, id, n.status == Settled);
    RecordOrders(b1, n.(status := Settled), id, false);
    RecordOrders(b1, n.(status := Failed), id, false);
    var o := b.orders[n.order];
    if Record(b1, n.(status := Settled), id, false).Ok? {
      IssueLeaves(WithStatus(Record(b1, n.(status := Settled), id, false).value.0, n.order, Paid), n.order, o.event, o.user, o.quantity);
    }
  }

  lemma RecordOrders(b: Books, n: Notice, id: PaymentId, reconciliation: bool)
    ensures var r := Record(b, n, id, reconciliation); r.Ok? ==> r.value.0.orders == b.orders && r.value.0.orderByKey == b.orderByKey
  {}

  lemma ExpireEndures(b: Books, o: OrderId, now: int)
    ensures var r := ExpireOrder(b, o, now); r.Ok? ==> Endures(b, r.value)
  {}

  lemma ApplyEndures(b: Books, t: Transaction)
    requires BooksOk(b)
    ensures Endures(b, Apply(b, t))
  {
    hide BooksOk; hide Reserve; hide ReturnSeats; hide Checkout; hide Webhook; hide ExpireOrder; hide Endures;
    SeatsEndure(b, b);
    match t
    case CreateEvent(id, seats) => SeatsEndure(b, Apply(b, t));
    case DoReserve(id, q, eligible, tierKnown, expiresAt) => ReservedIsSeats(b, id, q, eligible, tierKnown, expiresAt); SeatsEndure(b, Apply(b, t));
    case DoRelease(id) => ReturnedIsSeats(b, id, Released); SeatsEndure(b, Apply(b, t));
    case DoLapse(id) => ReturnedIsSeats(b, id, Lapsed); SeatsEndure(b, Apply(b, t));
    case DoCheckout(p, f, now) => CheckoutEndures(b, p, f, now);
    case DoWebhook(n, id) => if n.status != Unsettled { WebhookEndures(b, n, id); }
    case DoExpireOrder(o, now) => ExpireEndures(b, o, now);
  }

  lemma EnduresTwice(b: Books, t: Books, u: Books)
    requires Endures(b, t) && Endures(t, u)
    ensures Endures(b, u)
  {}

  lemma {:induction false} LaterEndures(ts: seq<Transaction>, us: seq<Transaction>)
    ensures Endures(Ledger(ts), Ledger(ts + us))
    decreases |us|
  {
    hide Endures; hide Apply; hide Ledger; hide BooksOk;
    if us == [] {
      assert ts + us == ts;
      SeatsEndure(Ledger(ts), Ledger(ts));
    } else {
      var n := |us| - 1;
      LaterEndures(ts, us[..n]);
      LedgerOk(ts + us[..n]);
      ApplyEndures(Ledger(ts + us[..n]), us[n]);
      LedgerAppends(ts + us[..n], us[n]);
      assert ts + us[..n] + [us[n]] == ts + us;
      EnduresTwice(Ledger(ts), Ledger(ts + us[..n]), Ledger(ts + us));
    }
  }

  lemma LedgerAppends(ts: seq<Transaction>, t: Transaction)
    ensures Ledger(ts + [t]) == Apply(Ledger(ts), t)
  {
    assert (ts + [t])[..|ts|] == ts;
  }

  /** A callback once accepted can be replayed after any further transactions: it is accepted again,
      reported as a duplicate, and changes nothing. */
  lemma AcceptedCallbackReplays(ts: seq<Transaction>, us: seq<Transaction>, n: Notice, id: PaymentId, later: PaymentId)
    requires n.status != Unsettled && Webhook(Ledger(ts), n, id).Ok?
    ensures var b := Ledger(ts + [DoWebhook(n, id)] + us);
      var r := Webhook(b, n, later);
      r.Ok? && r.value.0 == b && r.value.1.duplicate
  {
    var done := ts + [DoWebhook(n, id)];
    LedgerAppends(ts, DoWebhook(n, id));
    AcceptedIsBound(Ledger(ts), n, id);
    LaterEndures(done, us);
    LedgerOk(done + us);
    hide BooksOk; hide Webhook; hide Ledger;
    ReplayChangesNothing(Ledger(done + us), n.key, later);
  }

  /** A settled record never reverts, and an order that left pending never changes again. */
  lemma FactsLast(ts: seq<Transaction>, us: seq<Transaction>, o: OrderId, p: PaymentId)
    requires o in Ledger(ts).orders && p in Ledger(ts).payments
    ensures var b := Ledger(ts + us);
      && o in b.orders && b.orders[o] == Ledger(ts).orders[o].(status := b.orders[o].status)
      && (Ledger(ts).orders[o].status != Pending ==> b.orders[o] == Ledger(ts).orders[o])
      && (Ledger(ts).payments[p].status == Settled ==> p in b.payments && b.payments[p].status == Settled)
  {
    hide Ledger;
    LaterEndures(ts, us);
  }

  /** A checkout key that placed an order returns it ever after to the same payload, without effect,
      and refuses every other payload. */
  lemma CheckoutKeyReplays(ts: seq<Transaction>, us: seq<Transaction>, p: Purchase, f: Fresh, now: int, again: Purchase, g: Fresh, later: int)
    requires var r := Checkout(Ledger(ts), p, f, now); r.Ok? && r.value.1 == Placed(f.order)
    requires again.key == p.key
    ensures var b := Ledger(ts + [DoCheckout(p, f, now)] + us);
      Checkout(b, again, g, later) == if again == p then Ok((b, Replayed(f.order))) else Err(Conflict)
  {
    var done := ts + [DoCheckout(p, f, now)];
    LedgerAppends(ts, DoCheckout(p, f, now));
    PlacedUnderKey(Ledger(ts), p, f, now);
    LaterEndures(done, us);
    hide Ledger; hide PlaceOrder;
    var b := Ledger(done + us);
    assert p.key in b.orderByKey && b.orderByKey[p.key] == f.order;
    assert f.order in b.orders && Frozen(Ledger(done).orders[f.order], b.orders[f.order]);
  }

  lemma PlacedUnderKey(b: Books, p: Purchase, f: Fresh, now: int)
    requires var r := Checkout(b, p, f, now); r.Ok? && r.value.1 == Placed(f.order)
    ensures var t := Checkout(b, p, f, now).value.0;
      p.key in t.orderByKey && t.orderByKey[p.key] == f.order && f.order in t.orders && t.orders[f.order] == NewOrder(p, f)
  {
    hide PlaceOrder; hide Convert; hide ReturnSeats;
    if p.key !in b.orderByKey {
      if p.reservation.Some? { ConvertedIsOrdered(b, p.reservation.value, p, f); } else { PlacedIsOrdered(b, p, f, false); }
    }
  }

  /** Why the reservation service's own conversion must stay uncalled: converting without creating the
      order breaks the seat equation, from every state and for every active reservation. */
  lemma ConvertingAloneLosesSeats(b: Books, id: ResourceId)
    requires BooksOk(b) && id in b.reservations && b.reservations[id].status == Active
    ensures !SeatsOk(Convert(b, id))
  {
    hide KeysOk; hide IndexOk; hide RecordsOk; hide FactsOk; hide CallbacksOk; hide TicketsOk;
    var r := b.reservations[id];
    ReservationChanges(b, Convert(b, id), id, r.(status := Converted), r.event);
  }
}
