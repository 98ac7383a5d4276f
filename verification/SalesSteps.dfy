/** Every committed transaction keeps the sales ledger in order. */
module SalesSteps {
  import opened AdmissionTypes
  import opened Sales
  import opened MapSum
  import opened SalesInvariant

  /** Nothing but seats and reservations changed. */
  predicate OnlySeats(b: Books, t: Books) {
    t == b.(events := t.events, reservations := t.reservations)
  }

  lemma OnlySeatsKeeps(b: Books, t: Books)
    requires BooksOk(b) && OnlySeats(b, t) && SeatsOk(t)
    ensures BooksOk(t)
  {
    hide SeatsOk; hide TicketsOk; hide FactsOk;
    SameTickets(b, t);
    SameFacts(b, t);
  }

  lemma SameSeats(b: Books, t: Books)
    requires SeatsOk(b) && t.events == b.events && t.reservations == b.reservations && t.orders == b.orders
    ensures SeatsOk(t)
  {
    assert forall e :: Held(t, e) == Held(b, e);
  }

  lemma SameTickets(b: Books, t: Books)
    requires TicketsOk(b) && t.tickets == b.tickets && t.nextTicket == b.nextTicket && t.orders == b.orders
    ensures TicketsOk(t)
  {
    assert forall o :: TicketsOf(t, o) == TicketsOf(b, o);
  }

  lemma SameFacts(b: Books, t: Books)
    requires FactsOk(b) && t.payments == b.payments && t.orders == b.orders
    ensures FactsOk(t)
  {
    assert forall p, q :: Rivals(t, p, q) == Rivals(b, p, q);
  }

  lemma CreateEventKeeps(b: Books, id: EventId, seats: int)
    requires BooksOk(b) && id !in b.events && seats > 0
    ensures BooksOk(b.(events := b.events[id := Event(seats, seats)]))
  {
    var t := b.(events := b.events[id := Event(seats, seats)]);
    assert SeatsOk(t) by {
      assert Held(t, id) == 0 by { NobodyHolds(b, id); }
      assert forall e :: Held(t, e) == Held(b, e);
    }
    hide SeatsOk; hide BooksOk;
    OnlySeatsKeeps(b, t);
  }

  lemma NobodyHolds(b: Books, id: EventId)
    requires SeatsOk(b) && id !in b.events
    ensures Held(b, id) == 0
  {
    forall r | r in b.reservations ensures HoldOf(id)(b.reservations[r]) == 0 { assert b.reservations[r].event != id; }
    forall o | o in b.orders ensures SaleOf(id)(b.orders[o]) == 0 { assert b.orders[o].event != id; }
    NoRows(b.reservations, HoldOf(id));
    NoRows(b.orders, SaleOf(id));
  }

  lemma {:induction false} NoRows<K, V>(m: map<K, V>, w: V -> int)
    requires forall k | k in m :: w(m[k]) == 0
    ensures Total(m, w) == 0
    decreases |m|
  {
    if m != map[] {
      var k :| k in m && Total(m, w) == w(m[k]) + Total(m - {k}, w);
      assert (m - {k}).Keys == m.Keys - {k};
      NoRows(m - {k}, w);
    }
  }

  lemma ReserveKeeps(b: Books, id: ResourceId, q: Request, eligible: bool, tierKnown: bool, expiresAt: int)
    requires BooksOk(b)
    ensures var r := Reserve(b, id, q, eligible, tierKnown, expiresAt); r.Ok? ==> BooksOk(r.value)
  {
    var r := Reserve(b, id, q, eligible, tierKnown, expiresAt);
    if r.Ok? {
      AdjustHolds(b, q.event, -q.quantity);
      ReservationSeats(b, r.value, id, Reservation(q.user, q.event, q.tier, q.quantity, expiresAt, Active), -q.quantity);
      hide SeatsOk; hide BooksOk; hide Adjust;
      OnlySeatsKeeps(b, r.value);
    }
  }

  lemma ReturnSeatsKeeps(b: Books, id: ResourceId, final: ReservationStatus)
    requires BooksOk(b) && final != Active
    ensures var r := ReturnSeats(b, id, final); r.Ok? ==> BooksOk(r.value)
  {
    var r := ReturnSeats(b, id, final);
    if r.Ok? && b.reservations[id].status == Active {
      AdjustHolds(b, b.reservations[id].event, b.reservations[id].quantity);
      ReservationSeats(b, r.value, id, b.reservations[id].(status := final), b.reservations[id].quantity);
      hide SeatsOk; hide BooksOk; hide Adjust;
      OnlySeatsKeeps(b, r.value);
    }
  }

  // ----- a new order -----------------------------------------------------------------------

  function NewOrder(p: Purchase, f: Fresh): Order {
    Order(p.request.user, p.request.event, p.request.tier, p.request.quantity, p.key, p.reservation, Pending, Some(f.deadline))
  }

  /** The books with the order and the record it is created with; seats aside. */
  predicate Ordered(b: Books, t: Books, p: Purchase, f: Fresh) {
    && f.order !in b.orders && f.payment !in b.payments && p.key !in b.orderByKey && p.key !in b.checkoutKeys
    && t == b.(events := t.events, reservations := t.reservations,
               orders := b.orders[f.order := NewOrder(p, f)], orderByKey := b.orderByKey[p.key := f.order],
               payments := b.payments[f.payment := Payment(f.order, Unsettled, None, p.key, false)],
               checkoutKeys := b.checkoutKeys[p.key := f.payment])
  }

  lemma OrderedKeys(b: Books, t: Books, p: Purchase, f: Fresh)
    requires KeysOk(b) && Ordered(b, t, p, f)
    ensures KeysOk(t)
  {}

  lemma OrderedIndex(b: Books, t: Books, p: Purchase, f: Fresh)
    requires IndexOk(b) && Ordered(b, t, p, f)
    ensures IndexOk(t)
  {}

  lemma OrderedRecords(b: Books, t: Books, p: Purchase, f: Fresh)
    requires RecordsOk(b) && Ordered(b, t, p, f)
    ensures RecordsOk(t)
  {}

  lemma OrderedFacts(b: Books, t: Books, p: Purchase, f: Fresh)
    requires RecordsOk(b) && FactsOk(b) && Ordered(b, t, p, f)
    ensures FactsOk(t)
  {
    forall o | o in t.orders && (t.orders[o].status == Paid || t.orders[o].status == OrderStatus.Cancelled)
      ensures exists x :: x in t.payments && Of(t.payments[x], o)
    {
      var x :| x in b.payments && Of(b.payments[x], o);
      assert Of(t.payments[x], o);
    }
    forall x, y | Rivals(t, x, y) ensures x == y { assert Rivals(b, x, y); }
  }

  lemma OrderedCallbacks(b: Books, t: Books, p: Purchase, f: Fresh)
    requires CallbacksOk(b) && Ordered(b, t, p, f)
    ensures CallbacksOk(t)
  {}

  lemma OrderedTickets(b: Books, t: Books, p: Purchase, f: Fresh)
    requires TicketsOk(b) && Ordered(b, t, p, f)
    ensures TicketsOk(t)
  {
    assert forall o :: TicketsOf(t, o) == TicketsOf(b, o);
    assert forall n | n in b.tickets :: b.tickets[n].order != f.order;
    assert TicketsOf(b, f.order) == {};
  }

  lemma OrderedKeeps(b: Books, t: Books, p: Purchase, f: Fresh)
    requires BooksOk(b) && Ordered(b, t, p, f) && SeatsOk(t)
    ensures BooksOk(t)
  {
    hide SeatsOk; hide KeysOk; hide IndexOk; hide RecordsOk; hide FactsOk; hide CallbacksOk; hide TicketsOk; hide Ordered;
    OrderedKeys(b, t, p, f);
    OrderedIndex(b, t, p, f);
    OrderedRecords(b, t, p, f);
    OrderedFacts(b, t, p, f);
    OrderedCallbacks(b, t, p, f);
    OrderedTickets(b, t, p, f);
  }

  lemma DirectOrderKeeps(b: Books, p: Purchase, f: Fresh)
    requires BooksOk(b)
    ensures var r := PlaceOrder(b, p, f, false); r.Ok? ==> BooksOk(r.value)
  {
    var r := PlaceOrder(b, p, f, false);
    if r.Ok? {
      var e := p.request.event;
      AdjustHolds(b.(orders := b.orders[f.order := NewOrder(p, f)], orderByKey := b.orderByKey[p.key := f.order]), e, -p.request.quantity);
      OrderSeats(b, r.value, f.order, NewOrder(p, f), -p.request.quantity);
      hide BooksOk; hide SeatsOk; hide Adjust;
      OrderedKeeps(b, r.value, p, f);
    }
  }

  lemma ConvertedOrderKeeps(b: Books, rid: ResourceId, p: Purchase, f: Fresh, now: int)
    requires BooksOk(b) && Convertible(b, rid, p.request, now)
    ensures var r := PlaceOrder(Convert(b, rid), p, f, true); r.Ok? ==> BooksOk(r.value)
  {
    var r := PlaceOrder(Convert(b, rid), p, f, true);
    if r.Ok? {
      ConversionSeats(b, r.value, rid, f.order, NewOrder(p, f));
      hide BooksOk; hide SeatsOk;
      OrderedKeeps(b, r.value, p, f);
    }
  }

  lemma CheckoutKeeps(b: Books, p: Purchase, f: Fresh, now: int)
    requires BooksOk(b)
    ensures var r := Checkout(b, p, f, now); r.Ok? ==> BooksOk(r.value.0)
  {
    hide BooksOk; hide PlaceOrder; hide ReturnSeats; hide Convert;
    if p.key in b.orderByKey {
    } else if p.reservation.Some? {
      var rid := p.reservation.value;
      if Convertible(b, rid, p.request, now) { ConvertedOrderKeeps(b, rid, p, f, now); }
      else { ReturnSeatsKeeps(b, rid, Lapsed); }
    } else {
      DirectOrderKeeps(b, p, f);
    }
  }

  // ----- an order leaves pending -----------------------------------------------------------

  /** Only the status of order o and seats differ. */
  predicate Restated(b: Books, t: Books, o: OrderId, s: OrderStatus) {
    o in b.orders && t == b.(events := t.events, orders := b.orders[o := b.orders[o].(status := s)])
  }

  lemma RestatedKeys(b: Books, t: Books, o: OrderId, s: OrderStatus)
    requires KeysOk(b) && Restated(b, t, o, s)
    ensures KeysOk(t)
  {}

  lemma RestatedIndex(b: Books, t: Books, o: OrderId, s: OrderStatus)
    requires IndexOk(b) && Restated(b, t, o, s)
    ensures IndexOk(t)
  {}

  lemma RestatedRecords(b: Books, t: Books, o: OrderId, s: OrderStatus)
    requires RecordsOk(b) && Restated(b, t, o, s)
    ensures RecordsOk(t)
  {}

  lemma RestatedTickets(b: Books, t: Books, o: OrderId, s: OrderStatus)
    requires TicketsOk(b) && Restated(b, t, o, s) && b.orders[o].status != Paid && s != Paid
    ensures TicketsOk(t)
  {
    assert forall x :: TicketsOf(t, x) == TicketsOf(b, x);
  }

  /** A pending order has no provider record yet. */
  lemma PendingHasNone(b: Books, o: OrderId)
    requires BooksOk(b) && o in b.orders && b.orders[o].status == Pending
    ensures forall p | p in b.payments :: !Of(b.payments[p], o)
    ensures forall k | k in b.callbacks :: b.callbacks[k].order != o
    ensures TicketsOf(b, o) == {}
  {
    forall p | p in b.payments ensures !Of(b.payments[p], o) {
      assert b.payments[p].provider.Some? && b.payments[p].order in b.orders ==> FactOk(b.orders[b.payments[p].order].status, b.payments[p]);
    }
    assert |TicketsOf(b, o)| == 0;
  }

  lemma ExpireKeeps(b: Books, o: OrderId, now: int)
    requires BooksOk(b)
    ensures var r := ExpireOrder(b, o, now); r.Ok? ==> BooksOk(r.value)
  {
    var r := ExpireOrder(b, o, now);
    if r.Ok? && r.value != b {
      var t := r.value;
      PendingHasNone(b, o);
      AdjustHolds(b, b.orders[o].event, b.orders[o].quantity);
      assert SeatsOk(t) by { OrderSeats(b, t, o, b.orders[o].(status := OrderStatus.Expired), b.orders[o].quantity); }
      ExpiredRest(b, t, o);
    }
  }

  lemma ExpiredFacts(b: Books, t: Books, o: OrderId)
    requires FactsOk(b) && Restated(b, t, o, OrderStatus.Expired) && forall p | p in b.payments :: !Of(b.payments[p], o)
    ensures FactsOk(t)
  {
    forall x | x in t.orders && (t.orders[x].status == Paid || t.orders[x].status == OrderStatus.Cancelled)
      ensures exists p :: p in t.payments && Of(t.payments[p], x)
    {
      var p :| p in b.payments && Of(b.payments[p], x);
    }
    forall p | p in t.payments && t.payments[p].provider.Some? ensures t.payments[p].order != o { assert !Of(b.payments[p], o); }
    forall x, y | Rivals(t, x, y) ensures x == y { assert Rivals(b, x, y); }
  }

  lemma ExpiredCallbacks(b: Books, t: Books, o: OrderId)
    requires CallbacksOk(b) && Restated(b, t, o, OrderStatus.Expired) && forall k | k in b.callbacks :: b.callbacks[k].order != o
    ensures CallbacksOk(t)
  {}

  lemma ExpiredRest(b: Books, t: Books, o: OrderId)
    requires BooksOk(b) && Restated(b, t, o, OrderStatus.Expired) && b.orders[o].status == Pending && SeatsOk(t)
    ensures BooksOk(t)
  {
    PendingHasNone(b, o);
    hide SeatsOk; hide KeysOk; hide IndexOk; hide RecordsOk; hide FactsOk; hide CallbacksOk; hide TicketsOk;
    RestatedKeys(b, t, o, OrderStatus.Expired);
    RestatedIndex(b, t, o, OrderStatus.Expired);
    RestatedRecords(b, t, o, OrderStatus.Expired);
    RestatedTickets(b, t, o, OrderStatus.Expired);
    ExpiredFacts(b, t, o);
    ExpiredCallbacks(b, t, o);
  }
}
