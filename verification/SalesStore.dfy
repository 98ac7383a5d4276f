/** The sales services as they run: tables updated in place, statement by statement, and put back when
    a transaction fails. Each method is proved against the value-level transaction. */
module SalesStore {
  import opened AdmissionTypes
  import opened Sales
  import opened SalesInvariant
  import opened SalesSteps
  import opened SalesWebhook

  class Store {
    var events: map<EventId, Event>
    var reservations: map<ResourceId, Reservation>
    var orders: map<OrderId, Order>
    var orderByKey: map<CheckoutKey, OrderId>
    var payments: map<PaymentId, Payment>
    var paymentByProvider: map<Provider, PaymentId>
    var settlementKeys: map<CallbackKey, PaymentId>
    var checkoutKeys: map<CallbackKey, PaymentId>
    var callbacks: map<CallbackKey, Callback>
    var tickets: map<int, Ticket>
    var nextTicket: int

    constructor ()
      ensures View() == EmptyBooks()
    {
      events, reservations, orders, orderByKey, payments := map[], map[], map[], map[], map[];
      paymentByProvider, settlementKeys, checkoutKeys, callbacks, tickets := map[], map[], map[], map[], map[];
      nextTicket := 1;
    }

    function View(): Books
      reads this
    {
      Books(events, reservations, orders, orderByKey, payments, paymentByProvider, settlementKeys, checkoutKeys, callbacks, tickets, nextTicket)
    }

    /** ROLLBACK. A failing transaction took no ticket number, the one thing that would stay. */
    method Rollback(saved: Books)
      modifies this
      ensures View() == saved
    {
      events, reservations, orders, orderByKey, payments := saved.events, saved.reservations, saved.orders, saved.orderByKey, saved.payments;
      paymentByProvider, settlementKeys, checkoutKeys := saved.paymentByProvider, saved.settlementKeys, saved.checkoutKeys;
      callbacks, tickets, nextTicket := saved.callbacks, saved.tickets, saved.nextTicket;
    }

    // ----- statements ------------------------------------------------------------------------

    method AdjustAvailableSeats(e: EventId, delta: int) returns (fault: Option<Fault>)
      modifies this`events
      ensures var r := Adjust(old(View()), e, delta);
        if r.Ok? then fault == None && View() == r.value else fault == Some(r.fault) && View() == old(View())
    {
      if e !in events { return Some(Fault.NotFound); }
      var current := events[e].available;
      var next := current + delta;
      if delta < 0 && next < 0 { return Some(SoldOut(current, -delta)); }
      events := events[e := events[e].(available := next)];
      fault := None;
    }

    method SetStatus(o: OrderId, status: OrderStatus)
      modifies this`orders
      ensures View() == WithStatus(old(View()), o, status)
    {
      if o in orders { orders := orders[o := orders[o].(status := status)]; }
    }

    // ----- reservations ----------------------------------------------------------------------

    method CreateReservation(id: ResourceId, q: Request, eligible: bool, tierKnown: bool, expiresAt: int) returns (fault: Option<Fault>)
      modifies this
      ensures var r := Reserve(old(View()), id, q, eligible, tierKnown, expiresAt);
        if r.Ok? then fault == None && View() == r.value else fault == Some(r.fault) && View() == old(View())
    {
      var saved := View();
      if q.event !in events { return Some(Fault.NotFound); }
      if !eligible { return Some(Conflict); }
      if !tierKnown { return Some(Invalid); }
      fault := AdjustAvailableSeats(q.event, -q.quantity);
      if fault.Some? { return; }
      if q.quantity <= 0 { fault := Some(Invalid); }
      else if id in reservations { fault := Some(Duplicate); }
      else { reservations := reservations[id := Reservation(q.user, q.event, q.tier, q.quantity, expiresAt, Active)]; }
      if fault.Some? { Rollback(saved); }
    }

    method ReturnSeatsAndFinalize(id: ResourceId, final: ReservationStatus) returns (fault: Option<Fault>)
      modifies this
      ensures var r := ReturnSeats(old(View()), id, final);
        if r.Ok? then fault == None && View() == r.value else fault == Some(r.fault) && View() == old(View())
    {
      if id !in reservations { return Some(Fault.NotFound); }
      var r := reservations[id];
      if r.status != Active { return None; }
      fault := AdjustAvailableSeats(r.event, r.quantity);
      if fault.Some? { return; }
      reservations := reservations[id := r.(status := final)];
    }

    // ----- checkout --------------------------------------------------------------------------

    method CreateOrder(p: Purchase, f: Fresh, held: bool) returns (fault: Option<Fault>)
      modifies this
      ensures var r := PlaceOrder(old(View()), p, f, held);
        if r.Ok? then fault == None && View() == r.value else fault == Some(r.fault)
    {
      if p.request.event !in events { return Some(Fault.NotFound); }
      if !f.eligible { return Some(Conflict); }
      if !f.priced || p.request.quantity <= 0 { return Some(Invalid); }
      if f.order in orders || f.payment in payments || p.key in orderByKey { return Some(Duplicate); }
      orders := orders[f.order := Order(p.request.user, p.request.event, p.request.tier, p.request.quantity, p.key, p.reservation, Pending, Some(f.deadline))];
      orderByKey := orderByKey[p.key := f.order];
      if !held {
        fault := AdjustAvailableSeats(p.request.event, -p.request.quantity);
        if fault.Some? { return; }
      }
      if p.key in checkoutKeys { return Some(Duplicate); }
      payments := payments[f.payment := Payment(f.order, Unsettled, None, p.key, false)];
      checkoutKeys := checkoutKeys[p.key := f.payment];
      fault := None;
    }

    method CheckoutOrder(p: Purchase, f: Fresh, now: int) returns (r: Result<Receipt>)
      modifies this
      ensures var s := Checkout(old(View()), p, f, now);
        if s.Ok? then r == Ok(s.value.1) && View() == s.value.0 else r == Err(s.fault) && View() == old(View())
    {
      hide PlaceOrder; hide ReturnSeats;
      var saved := View();
      if p.key in orderByKey {
        var id := orderByKey[p.key];
        if id !in orders || !SamePayload(orders[id], p) { return Err(Conflict); }
        return Ok(Replayed(id));
      }
      var fault: Option<Fault>;
      if p.reservation.Some? {
        var rid := p.reservation.value;
        if rid in reservations && SameRequest(reservations[rid], p.request) && reservations[rid].status == Active && reservations[rid].expiresAt > now {
          reservations := reservations[rid := reservations[rid].(status := Converted)];
          fault := CreateOrder(p, f, true);
        } else {
          if rid !in reservations { return Err(Fault.NotFound); }
          if !SameRequest(reservations[rid], p.request) || reservations[rid].status != Active { return Err(Conflict); }
          fault := ReturnSeatsAndFinalize(rid, Lapsed);
          if fault.Some? { return Err(fault.value); }
          return Ok(ReservationLapsed);
        }
      } else {
        fault := CreateOrder(p, f, false);
      }
      if fault.Some? {
        Rollback(saved);
        return Err(fault.value);
      }
      r := Ok(Placed(f.order));
    }

    // ----- payment callbacks -----------------------------------------------------------------

    method ReserveCallbackKey(n: Notice) returns (fault: Option<Fault>)
      modifies this`callbacks
      ensures var r := ReserveKey(old(View()), n);
        if r.Ok? then fault == None && View() == r.value else fault == Some(r.fault) && View() == old(View())
    {
      if n.key !in callbacks {
        callbacks := callbacks[n.key := Callback(n.order, n.provider, n.status)];
        return None;
      }
      var existing := callbacks[n.key];
      if existing.order != n.order || existing.provider != n.provider || existing.status != n.status { return Some(Conflict); }
      fault := None;
    }

    method InsertPaymentRecord(n: Notice, id: PaymentId, reconciliation: bool) returns (r: Result<(bool, PaymentStatus)>)
      modifies this`payments, this`paymentByProvider, this`settlementKeys
      ensures var s := Record(old(View()), n, id, reconciliation);
        if s.Ok? then r == Ok((s.value.1, s.value.2)) && View() == s.value.0 else r == Err(s.fault) && View() == old(View())
    {
      if n.provider !in paymentByProvider {
        if n.key in settlementKeys || id in payments { return Err(Duplicate); }
        payments := payments[id := Payment(n.order, n.status, Some(n.provider), n.key, reconciliation)];
        paymentByProvider := paymentByProvider[n.provider := id];
        settlementKeys := settlementKeys[n.key := id];
        return Ok((true, n.status));
      }
      var prior := paymentByProvider[n.provider];
      if prior !in payments { return Err(Invalid); }
      if payments[prior].order != n.order { return Err(Conflict); }
      if reconciliation && (payments[prior].status != Settled || !payments[prior].reconciliation) {
        payments := payments[prior := payments[prior].(status := Settled, reconciliation := true)];
        return Ok((true, Settled));
      }
      r := Ok((false, payments[prior].status));
    }

    /** One ticket per seat, each under the next number of the sequence. */
    method IssueTickets(o: OrderId, event: EventId, user: UserId, quantity: int)
      modifies this`tickets, this`nextTicket
      ensures View() == Issue(old(View()), o, event, user, quantity)
    {
      ghost var b := View();
      var index := 0;
      while index < quantity
        invariant 0 <= index && (index <= quantity || index == 0)
        invariant Issue(View(), o, event, user, quantity - index) == Issue(b, o, event, user, quantity)
      {
        tickets := tickets[nextTicket := Ticket(o, event, user)];
        nextTicket := nextTicket + 1;
        index := index + 1;
      }
    }

    method HandleSettle(n: Notice, id: PaymentId) returns (r: Result<Response>)
      modifies this
      ensures var s := Settle(old(View()), n, id);
        if s.Ok? then r == Ok(s.value.1) && View() == s.value.0 else r == Err(s.fault)
    {
      hide Record; hide Issue;
      if n.order !in orders { return Err(Fault.NotFound); }
      var o := orders[n.order];
      if o.status == Paid { return Ok(Response(Settled, true, TicketsOf(View(), n.order))); }
      if o.status == OrderStatus.Cancelled { return Err(Conflict); }
      var recorded := InsertPaymentRecord(n.(status := Settled), id, false);
      if recorded.Err? { return Err(recorded.fault); }
      SetStatus(n.order, Paid);
      if TicketsOf(View(), n.order) == {} { IssueTickets(n.order, o.event, o.user, o.quantity); }
      r := Ok(Response(Settled, false, TicketsOf(View(), n.order)));
    }

    method HandleFail(n: Notice, id: PaymentId) returns (r: Result<Response>)
      modifies this
      ensures var s := Fail(old(View()), n, id);
        if s.Ok? then r == Ok(s.value.1) && View() == s.value.0 else r == Err(s.fault)
    {
      hide Record; hide Adjust;
      if n.order !in orders { return Err(Fault.NotFound); }
      var o := orders[n.order];
      if o.status == Paid { return Ok(Response(Settled, true, TicketsOf(View(), n.order))); }
      if o.status == OrderStatus.Cancelled { return Ok(Response(Failed, true, {})); }
      var recorded := InsertPaymentRecord(n.(status := Failed), id, false);
      if recorded.Err? { return Err(recorded.fault); }
      var fault := AdjustAvailableSeats(o.event, o.quantity);
      if fault.Some? { return Err(fault.value); }
      SetStatus(n.order, OrderStatus.Cancelled);
      r := Ok(Response(Failed, false, {}));
    }

    method ProcessPaymentWebhook(n: Notice, id: PaymentId) returns (r: Result<Response>)
      modifies this
      ensures var s := Webhook(old(View()), n, id);
        if s.Ok? then r == Ok(s.value.1) && View() == s.value.0 else r == Err(s.fault) && View() == old(View())
    {
      hide Settle; hide Fail; hide Record; hide ReserveKey;
      var saved := View();
      if n.order !in orders { return Err(Fault.NotFound); }
      var order := orders[n.order];
      ReserveOrders(View(), n);
      var fault := ReserveCallbackKey(n);
      if fault.Some? { return Err(fault.value); }
      if order.status == OrderStatus.Expired {
        var recorded := InsertPaymentRecord(n, id, n.status == Settled);
        r := if recorded.Ok? then Ok(Response(recorded.value.1, !recorded.value.0, {})) else Err(recorded.fault);
      } else if n.status == Settled {
        r := HandleSettle(n, id);
      } else {
        r := HandleFail(n, id);
      }
      if r.Err? { Rollback(saved); }
    }

    // ----- order expiry ----------------------------------------------------------------------

    method ExpirePendingOrder(o: OrderId, now: int) returns (fault: Option<Fault>)
      modifies this
      ensures var r := ExpireOrder(old(View()), o, now);
        if r.Ok? then fault == None && View() == r.value else fault == Some(r.fault) && View() == old(View())
    {
      if o !in orders { return Some(Fault.NotFound); }
      var order := orders[o];
      if order.status != Pending || order.deadline.None? || order.deadline.value > now { return None; }
      fault := AdjustAvailableSeats(order.event, order.quantity);
      if fault.Some? { return; }
      SetStatus(o, OrderStatus.Expired);
    }
  }

  lemma ReserveOrders(b: Books, n: Notice)
    ensures ReserveKey(b, n).Ok? ==> ReserveKey(b, n).value.orders == b.orders
  {}
}
