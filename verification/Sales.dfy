/** The durable sales ledger as a value, and what each transaction makes of it. A transaction that
    fails leaves it as it was. The CHECK constraints on seats are not part of it. */
module Sales {
  import opened AdmissionTypes

  type EventId = int
  type OrderId = int
  type PaymentId = int
  type Provider = int
  type CallbackKey = int

  datatype Event = Event(total: int, available: int)

  datatype ReservationStatus = Active | Released | Converted | Lapsed
  datatype Reservation = Reservation(user: UserId, event: EventId, tier: int, quantity: int, expiresAt: int, status: ReservationStatus)

  datatype OrderStatus = Pending | Paid | Cancelled | Expired | Delivered
  datatype Order = Order(user: UserId, event: EventId, tier: int, quantity: int, key: CheckoutKey, reservation: Option<ResourceId>,
                         status: OrderStatus, deadline: Option<int>)

  datatype PaymentStatus = Unsettled | Settled | Failed
  datatype Payment = Payment(order: OrderId, status: PaymentStatus, provider: Option<Provider>, key: CallbackKey, reconciliation: bool)

  datatype Callback = Callback(order: OrderId, provider: Provider, status: PaymentStatus)
  datatype Ticket = Ticket(order: OrderId, event: EventId, user: UserId)

  /** Tables by primary key, and the unique indexes the statements rely on. */
  datatype Books = Books(
    events: map<EventId, Event>,
    reservations: map<ResourceId, Reservation>,
    orders: map<OrderId, Order>,
    orderByKey: map<CheckoutKey, OrderId>,
    payments: map<PaymentId, Payment>,
    paymentByProvider: map<Provider, PaymentId>,
    settlementKeys: map<CallbackKey, PaymentId>,
    checkoutKeys: map<CallbackKey, PaymentId>,
    callbacks: map<CallbackKey, Callback>,
    tickets: map<int, Ticket>,
    nextTicket: int)

  datatype Fault = NotFound | Conflict | Invalid | SoldOut(available: int, wanted: int) | Duplicate

  datatype Result<+T> = Ok(value: T) | Err(fault: Fault)

  // ----- seats -----------------------------------------------------------------------------

  /** The seats of the event after adding `delta`, if they suffice. */
  function Adjust(b: Books, e: EventId, delta: int): Result<Books> {
    if e !in b.events then Err(Fault.NotFound) else
      var next := b.events[e].available + delta;
      if delta < 0 && next < 0 then Err(SoldOut(b.events[e].available, -delta))
      else Ok(b.(events := b.events[e := b.events[e].(available := next)]))
  }

  // ----- reservations ----------------------------------------------------------------------

  datatype Request = Request(user: UserId, event: EventId, tier: int, quantity: int)

  function Reserve(b: Books, id: ResourceId, q: Request, eligible: bool, tierKnown: bool, expiresAt: int): Result<Books> {
    if q.event !in b.events then Err(Fault.NotFound)
    else if !eligible then Err(Conflict)
    else if !tierKnown then Err(Invalid)
    else
      var adjusted := Adjust(b, q.event, -q.quantity);
      if adjusted.Err? then Err(adjusted.fault)
      else if q.quantity <= 0 then Err(Invalid)
      else if id in b.reservations then Err(Duplicate)
      else Ok(adjusted.value.(reservations := b.reservations[id := Reservation(q.user, q.event, q.tier, q.quantity, expiresAt, Active)]))
  }

  /** Release or expiry: the seats of an active reservation go back, any other is left alone. */
  function ReturnSeats(b: Books, id: ResourceId, final: ReservationStatus): Result<Books> {
    if id !in b.reservations then Err(Fault.NotFound) else
      var r := b.reservations[id];
      if r.status != Active then Ok(b) else
        var adjusted := Adjust(b, r.event, r.quantity);
        if adjusted.Err? then Err(adjusted.fault)
        else Ok(adjusted.value.(reservations := b.reservations[id := r.(status := final)]))
  }

  // ----- checkout --------------------------------------------------------------------------

  datatype Purchase = Purchase(request: Request, key: CheckoutKey, reservation: Option<ResourceId>)
  datatype Receipt = Placed(order: OrderId) | Replayed(order: OrderId) | ReservationLapsed

  predicate SamePayload(o: Order, p: Purchase) {
    && o.user == p.request.user && o.event == p.request.event && o.tier == p.request.tier && o.quantity == p.request.quantity
    && o.reservation == p.reservation
  }

  predicate SameRequest(r: Reservation, q: Request) {
    r.user == q.user && r.event == q.event && r.tier == q.tier && r.quantity == q.quantity
  }

  /** The ids and the judgement of the event that a new order brings. */
  datatype Fresh = Fresh(order: OrderId, payment: PaymentId, eligible: bool, priced: bool, deadline: int)

  function PlaceOrder(b: Books, p: Purchase, f: Fresh, held: bool): Result<Books> {
    if p.request.event !in b.events then Err(Fault.NotFound)
    else if !f.eligible then Err(Conflict)
    else if !f.priced || p.request.quantity <= 0 then Err(Invalid)
    else if f.order in b.orders || f.payment in b.payments || p.key in b.orderByKey then Err(Duplicate)
    else
      var order := Order(p.request.user, p.request.event, p.request.tier, p.request.quantity, p.key, p.reservation, Pending, Some(f.deadline));
      var b1 := b.(orders := b.orders[f.order := order], orderByKey := b.orderByKey[p.key := f.order]);
      var b2 := if held then Ok(b1) else Adjust(b1, p.request.event, -p.request.quantity);
      if b2.Err? then Err(b2.fault)
      else if p.key in b.checkoutKeys then Err(Duplicate)
      else Ok(b2.value.(payments := b.payments[f.payment := Payment(f.order, Unsettled, None, p.key, false)],
                        checkoutKeys := b.checkoutKeys[p.key := f.payment]))
  }

  function Convert(b: Books, id: ResourceId): Books {
    if id in b.reservations then b.(reservations := b.reservations[id := b.reservations[id].(status := Converted)]) else b
  }

  predicate Convertible(b: Books, id: ResourceId, q: Request, now: int) {
    id in b.reservations && SameRequest(b.reservations[id], q) && b.reservations[id].status == Active && b.reservations[id].expiresAt > now
  }

  /** A key that has an order is replayed; a reservation is converted, or found lapsed and returned;
      what is left is a direct order. */
  function Checkout(b: Books, p: Purchase, f: Fresh, now: int): Result<(Books, Receipt)> {
    if p.key in b.orderByKey then
      var id := b.orderByKey[p.key];
      if id in b.orders && SamePayload(b.orders[id], p) then Ok((b, Replayed(id))) else Err(Conflict)
    else if p.reservation.Some? then
      var rid := p.reservation.value;
      if Convertible(b, rid, p.request, now) then
        var placed := PlaceOrder(Convert(b, rid), p, f, true);
        if placed.Err? then Err(placed.fault) else Ok((placed.value, Placed(f.order)))
      else if rid !in b.reservations then Err(Fault.NotFound)
      else if SameRequest(b.reservations[rid], p.request) && b.reservations[rid].status == Active then
        var returned := ReturnSeats(b, rid, Lapsed);
        if returned.Err? then Err(returned.fault) else Ok((returned.value, ReservationLapsed))
      else Err(Conflict)
    else
      var placed := PlaceOrder(b, p, f, false);
      if placed.Err? then Err(placed.fault) else Ok((placed.value, Placed(f.order)))
  }

  // ----- payment callbacks -----------------------------------------------------------------

  datatype Notice = Notice(order: OrderId, provider: Provider, status: PaymentStatus, key: CallbackKey)

  datatype Response = Response(status: PaymentStatus, duplicate: bool, tickets: set<int>)

  function ReserveKey(b: Books, n: Notice): Result<Books> {
    if n.key !in b.callbacks then Ok(b.(callbacks := b.callbacks[n.key := Callback(n.order, n.provider, n.status)]))
    else if b.callbacks[n.key] == Callback(n.order, n.provider, n.status) then Ok(b)
    else Err(Conflict)
  }

  /** A provider transaction is recorded once; its success on an expired order outweighs a failure. */
  function Record(b: Books, n: Notice, id: PaymentId, reconciliation: bool): Result<(Books, bool, PaymentStatus)> {
    if n.provider !in b.paymentByProvider then
      if n.key in b.settlementKeys || id in b.payments then Err(Duplicate)
      else Ok((b.(payments := b.payments[id := Payment(n.order, n.status, Some(n.provider), n.key, reconciliation)],
                  paymentByProvider := b.paymentByProvider[n.provider := id],
                  settlementKeys := b.settlementKeys[n.key := id]), true, n.status))
    else
      var prior := b.paymentByProvider[n.provider];
      if prior !in b.payments then Err(Invalid)
      else if b.payments[prior].order != n.order then Err(Conflict)
      else if reconciliation && (b.payments[prior].status != Settled || !b.payments[prior].reconciliation) then
        Ok((b.(payments := b.payments[prior := b.payments[prior].(status := Settled, reconciliation := true)]), true, Settled))
      else Ok((b, false, b.payments[prior].status))
  }

  function TicketsOf(b: Books, o: OrderId): set<int> {
    set n | n in b.tickets && b.tickets[n].order == o
  }

  /** One ticket per seat, numbered on from the sequence. */
  function Issue(b: Books, o: OrderId, event: EventId, user: UserId, quantity: int): Books
    decreases if quantity < 0 then 0 else quantity
  {
    if quantity <= 0 then b else
      Issue(b.(tickets := b.tickets[b.nextTicket := Ticket(o, event, user)], nextTicket := b.nextTicket + 1), o, event, user, quantity - 1)
  }

  function WithStatus(b: Books, o: OrderId, status: OrderStatus): Books {
    if o in b.orders then b.(orders := b.orders[o := b.orders[o].(status := status)]) else b
  }

  function Settle(b: Books, n: Notice, id: PaymentId): Result<(Books, Response)> {
    if n.order !in b.orders then Err(Fault.NotFound) else
      var o := b.orders[n.order];
      if o.status == Paid then Ok((b, Response(Settled, true, TicketsOf(b, n.order))))
      else if o.status == OrderStatus.Cancelled then Err(Conflict)
      else
        var recorded := Record(b, n.(status := Settled), id, false);
        if recorded.Err? then Err(recorded.fault) else
          var b1 := WithStatus(recorded.value.0, n.order, Paid);
          var b2 := if TicketsOf(b1, n.order) != {} then b1 else Issue(b1, n.order, o.event, o.user, o.quantity);
          Ok((b2, Response(Settled, false, TicketsOf(b2, n.order))))
  }

  function Fail(b: Books, n: Notice, id: PaymentId): Result<(Books, Response)> {
    if n.order !in b.orders then Err(Fault.NotFound) else
      var o := b.orders[n.order];
      if o.status == Paid then Ok((b, Response(Settled, true, TicketsOf(b, n.order))))
      else if o.status == OrderStatus.Cancelled then Ok((b, Response(Failed, true, {})))
      else
        var recorded := Record(b, n.(status := Failed), id, false);
        if recorded.Err? then Err(recorded.fault) else
          var adjusted := Adjust(recorded.value.0, o.event, o.quantity);
          if adjusted.Err? then Err(adjusted.fault)
          else Ok((WithStatus(adjusted.value, n.order, OrderStatus.Cancelled), Response(Failed, false, {})))
  }

  function Webhook(b: Books, n: Notice, id: PaymentId): Result<(Books, Response)> {
    if n.order !in b.orders then Err(Fault.NotFound) else
      var reserved := ReserveKey(b, n);
      if reserved.Err? then Err(reserved.fault)
      else if b.orders[n.order].status == OrderStatus.Expired then
        var recorded := Record(reserved.value, n, id, n.status == Settled);
        if recorded.Err? then Err(recorded.fault)
        else Ok((recorded.value.0, Response(recorded.value.2, !recorded.value.1, {})))
      else if n.status == Settled then Settle(reserved.value, n, id)
      else Fail(reserved.value, n, id)
  }

  // ----- order expiry ----------------------------------------------------------------------

  function ExpireOrder(b: Books, o: OrderId, now: int): Result<Books> {
    if o !in b.orders then Err(Fault.NotFound)
    else if b.orders[o].status != Pending || b.orders[o].deadline.None? || b.orders[o].deadline.value > now then Ok(b)
    else
      var adjusted := Adjust(b, b.orders[o].event, b.orders[o].quantity);
      if adjusted.Err? then Err(adjusted.fault) else Ok(WithStatus(adjusted.value, o, OrderStatus.Expired))
  }

  // ----- one transaction -------------------------------------------------------------------

  datatype Transaction =
    | CreateEvent(id: EventId, seats: int)
    | DoReserve(id: ResourceId, request: Request, eligible: bool, tierKnown: bool, expiresAt: int)
    | DoRelease(id: ResourceId)
    | DoLapse(id: ResourceId)
    | DoCheckout(purchase: Purchase, minted: Fresh, now: int)
    | DoWebhook(notice: Notice, payment: PaymentId)
    | DoExpireOrder(order: OrderId, now: int)

  function Committed<T>(b: Books, r: Result<(Books, T)>): Books {
    if r.Ok? then r.value.0 else b
  }

  function Kept(b: Books, r: Result<Books>): Books {
    if r.Ok? then r.value else b
  }

  function Apply(b: Books, t: Transaction): Books {
    match t
    case CreateEvent(id, seats) => if id in b.events || seats <= 0 then b else b.(events := b.events[id := Event(seats, seats)])
    case DoReserve(id, q, eligible, tierKnown, expiresAt) => Kept(b, Reserve(b, id, q, eligible, tierKnown, expiresAt))
    case DoRelease(id) => Kept(b, ReturnSeats(b, id, Released))
    case DoLapse(id) => Kept(b, ReturnSeats(b, id, Lapsed))
    case DoCheckout(p, f, now) => Committed(b, Checkout(b, p, f, now))
    case DoWebhook(n, id) => if n.status == Unsettled then b else Committed(b, Webhook(b, n, id))
    case DoExpireOrder(o, now) => Kept(b, ExpireOrder(b, o, now))
  }

  function EmptyBooks(): Books {
    Books(map[], map[], map[], map[], map[], map[], map[], map[], map[], map[], 1)
  }

  function Ledger(ts: seq<Transaction>): Books {
    if ts == [] then EmptyBooks() else Apply(Ledger(ts[..|ts| - 1]), ts[|ts| - 1])
  }
}
