/** What holds of the sales ledger after every committed transaction. */
module SalesInvariant {
  import opened AdmissionTypes
  import opened Sales
  import opened MapSum

  // ----- seats -----------------------------------------------------------------------------

  /** The seats of the event a reservation holds. */
  function HoldOf(e: EventId): Reservation -> int {
    (r: Reservation) => if r.event == e && r.status == Active then r.quantity else 0
  }

  predicate Selling(s: OrderStatus) {
    s == Pending || s == Paid || s == Delivered
  }

  /** The seats of the event an order has or has sold. */
  function SaleOf(e: EventId): Order -> int {
    (o: Order) => if o.event == e && Selling(o.status) then o.quantity else 0
  }

  ghost function Held(b: Books, e: EventId): int {
    Total(b.reservations, HoldOf(e)) + Total(b.orders, SaleOf(e))
  }

  ghost predicate SeatsOk(b: Books) {
    && (forall r | r in b.reservations :: b.reservations[r].quantity > 0 && b.reservations[r].event in b.events)
    && (forall o | o in b.orders :: b.orders[o].quantity > 0 && b.orders[o].event in b.events)
    && (forall e | e in b.events :: b.events[e].available >= 0 && b.events[e].available + Held(b, e) == b.events[e].total)
  }

  // ----- orders, payments, tickets ---------------------------------------------------------

  ghost predicate KeysOk(b: Books) {
    && (forall k | k in b.orderByKey :: b.orderByKey[k] in b.orders && b.orders[b.orderByKey[k]].key == k)
    && (forall o | o in b.orders :: b.orders[o].key in b.orderByKey && b.orderByKey[b.orders[o].key] == o)
  }

  /** The unique indexes are the tables'. */
  ghost predicate IndexOk(b: Books) {
    && (forall v | v in b.paymentByProvider :: b.paymentByProvider[v] in b.payments && b.payments[b.paymentByProvider[v]].provider == Some(v))
    && (forall p | p in b.payments && b.payments[p].provider.Some? ::
          b.payments[p].provider.value in b.paymentByProvider && b.paymentByProvider[b.payments[p].provider.value] == p)
    && (forall k | k in b.settlementKeys ::
          b.settlementKeys[k] in b.payments && b.payments[b.settlementKeys[k]].provider.Some? && b.payments[b.settlementKeys[k]].key == k)
    && (forall p | p in b.payments && b.payments[p].provider.Some? ::
          b.payments[p].key in b.settlementKeys && b.settlementKeys[b.payments[p].key] == p)
    && (forall k | k in b.checkoutKeys ::
          b.checkoutKeys[k] in b.payments && b.payments[b.checkoutKeys[k]].provider.None? && b.payments[b.checkoutKeys[k]].key == k)
    && (forall p | p in b.payments && b.payments[p].provider.None? ::
          b.payments[p].key in b.checkoutKeys && b.checkoutKeys[b.payments[p].key] == p)
  }

  /** A provider record belongs to the callback that brought it; the other record of an order is the
      one it was created with. */
  ghost predicate RecordsOk(b: Books) {
    && (forall p | p in b.payments :: b.payments[p].order in b.orders)
    && (forall p | p in b.payments && b.payments[p].provider.None? ::
          b.payments[p].status == Unsettled && !b.payments[p].reconciliation && b.payments[p].key == b.orders[b.payments[p].order].key)
    && (forall p | p in b.payments && b.payments[p].provider.Some? ::
          && b.payments[p].status != Unsettled
          && b.payments[p].key in b.callbacks
          && b.callbacks[b.payments[p].key].order == b.payments[p].order
          && Some(b.callbacks[b.payments[p].key].provider) == b.payments[p].provider)
    && (forall o | o in b.orders :: b.orders[o].key in b.checkoutKeys)
  }

  /** The provider's record p of an order in this state: a paid order's is a plain settlement, a
      cancelled one's a failure, and a success on an expired order waits for reconciliation. */
  predicate FactOk(s: OrderStatus, p: Payment) {
    match s
    case Pending => false
    case Paid => p.status == Settled && !p.reconciliation
    case Cancelled => p.status == Failed && !p.reconciliation
    case Expired => (p.status == Settled && p.reconciliation) || (p.status == Failed && !p.reconciliation)
    case Delivered => false
  }

  predicate Of(p: Payment, o: OrderId) {
    p.order == o && p.provider.Some?
  }

  /** Both are provider records of one order that has not expired. */
  predicate Rivals(b: Books, p: PaymentId, q: PaymentId) {
    && p in b.payments && q in b.payments && b.payments[p].provider.Some? && b.payments[q].provider.Some?
    && b.payments[p].order == b.payments[q].order && b.payments[p].order in b.orders
    && b.orders[b.payments[p].order].status != OrderStatus.Expired
  }

  ghost predicate FactsOk(b: Books) {
    && (forall p | p in b.payments && b.payments[p].provider.Some? && b.payments[p].order in b.orders ::
          FactOk(b.orders[b.payments[p].order].status, b.payments[p]))
    && (forall o | o in b.orders && (b.orders[o].status == Paid || b.orders[o].status == OrderStatus.Cancelled) ::
          exists p :: p in b.payments && Of(b.payments[p], o))
    && (forall p, q | Rivals(b, p, q) :: p == q)
    && (forall o | o in b.orders :: b.orders[o].status != Delivered)
  }

  /** What an accepted callback left behind. */
  ghost predicate CallbacksOk(b: Books) {
    forall k | k in b.callbacks ::
      && b.callbacks[k].order in b.orders && b.callbacks[k].status != Unsettled
      && var s := b.orders[b.callbacks[k].order].status;
        && s != Pending
        && (s == OrderStatus.Cancelled ==> b.callbacks[k].status == Failed)
        && (s == OrderStatus.Expired ==>
              && b.callbacks[k].provider in b.paymentByProvider
              && b.paymentByProvider[b.callbacks[k].provider] in b.payments
              && var p := b.payments[b.paymentByProvider[b.callbacks[k].provider]];
                p.order == b.callbacks[k].order && (b.callbacks[k].status == Settled ==> p.status == Settled && p.reconciliation))
  }

  ghost predicate TicketsOk(b: Books) {
    && 1 <= b.nextTicket
    && (forall n | n in b.tickets ::
          && 1 <= n < b.nextTicket && b.tickets[n].order in b.orders
          && b.tickets[n].event == b.orders[b.tickets[n].order].event && b.tickets[n].user == b.orders[b.tickets[n].order].user)
    && (forall o | o in b.orders :: |TicketsOf(b, o)| == if b.orders[o].status == Paid then b.orders[o].quantity else 0)
  }

  ghost predicate BooksOk(b: Books) {
    SeatsOk(b) && KeysOk(b) && IndexOk(b) && RecordsOk(b) && FactsOk(b) && CallbacksOk(b) && TicketsOk(b)
  }

  // ----- seat arithmetic -------------------------------------------------------------------

  lemma AdjustHolds(b: Books, e: EventId, delta: int)
    ensures var r := Adjust(b, e, delta);
      r.Ok? ==>
        && e in b.events
        && r.value == b.(events := b.events[e := Event(b.events[e].total, b.events[e].available + delta)])
        && (delta < 0 ==> b.events[e].available + delta >= 0)
  {}

  lemma ReservationChanges(b: Books, t: Books, id: ResourceId, r: Reservation, e: EventId)
    requires t.reservations == b.reservations[id := r] && t.orders == b.orders
    ensures Held(t, e) == Held(b, e) - (if id in b.reservations then HoldOf(e)(b.reservations[id]) else 0) + HoldOf(e)(r)
  {
    TotalPut(b.reservations, HoldOf(e), id, r);
  }

  lemma OrderChanges(b: Books, t: Books, id: OrderId, o: Order, e: EventId)
    requires t.orders == b.orders[id := o] && t.reservations == b.reservations
    ensures Held(t, e) == Held(b, e) - (if id in b.orders then SaleOf(e)(b.orders[id]) else 0) + SaleOf(e)(o)
  {
    TotalPut(b.orders, SaleOf(e), id, o);
  }

  lemma SeatsNeverRunOver(b: Books, e: EventId)
    requires SeatsOk(b) && e in b.events
    ensures 0 <= b.events[e].available <= b.events[e].total
  {
    forall r | r in b.reservations ensures HoldOf(e)(b.reservations[r]) >= 0 { assert b.reservations[r].quantity > 0; }
    forall o | o in b.orders ensures SaleOf(e)(b.orders[o]) >= 0 { assert b.orders[o].quantity > 0; }
    TotalIsNatural(b.reservations, HoldOf(e));
    TotalIsNatural(b.orders, SaleOf(e));
  }

  /** The seats of one reservation change hands with what the event has left. */
  lemma ReservationSeats(b: Books, t: Books, id: ResourceId, r: Reservation, delta: int)
    requires SeatsOk(b) && r.event in b.events && r.quantity > 0
    requires id in b.reservations ==> b.reservations[id].event == r.event
    requires delta == (if id in b.reservations then HoldOf(r.event)(b.reservations[id]) else 0) - HoldOf(r.event)(r)
    requires b.events[r.event].available + delta >= 0
    requires t.reservations == b.reservations[id := r] && t.orders == b.orders
    requires t.events == b.events[r.event := Event(b.events[r.event].total, b.events[r.event].available + delta)]
    ensures SeatsOk(t)
  {
    forall e | e in t.events ensures t.events[e].available >= 0 && t.events[e].available + Held(t, e) == t.events[e].total {
      ReservationChanges(b, t, id, r, e);
    }
  }

  lemma OrderSeats(b: Books, t: Books, id: OrderId, o: Order, delta: int)
    requires SeatsOk(b) && o.event in b.events && o.quantity > 0
    requires id in b.orders ==> b.orders[id].event == o.event
    requires delta == (if id in b.orders then SaleOf(o.event)(b.orders[id]) else 0) - SaleOf(o.event)(o)
    requires b.events[o.event].available + delta >= 0
    requires t.orders == b.orders[id := o] && t.reservations == b.reservations
    requires t.events == b.events[o.event := Event(b.events[o.event].total, b.events[o.event].available + delta)]
    ensures SeatsOk(t)
  {
    forall e | e in t.events ensures t.events[e].available >= 0 && t.events[e].available + Held(t, e) == t.events[e].total {
      OrderChanges(b, t, id, o, e);
    }
  }

  /** A converted reservation's seats pass to the order it became: they are counted once. */
  lemma ConversionSeats(b: Books, t: Books, rid: ResourceId, id: OrderId, o: Order)
    requires SeatsOk(b) && rid in b.reservations && id !in b.orders && o.event == b.reservations[rid].event
    requires b.reservations[rid].status == Active && o.quantity == b.reservations[rid].quantity && o.status == Pending
    requires t.reservations == b.reservations[rid := b.reservations[rid].(status := Converted)]
    requires t.orders == b.orders[id := o] && t.events == b.events
    ensures SeatsOk(t)
  {
    var m := b.(reservations := t.reservations);
    forall e | e in t.events ensures t.events[e].available + Held(t, e) == t.events[e].total {
      ReservationChanges(b, m, rid, b.reservations[rid].(status := Converted), e);
      OrderChanges(m, t, id, o, e);
    }
  }
}
