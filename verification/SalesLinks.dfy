/** Reservations and the orders they became: a converted reservation has one order, its own. */
module SalesLinks {
  import opened AdmissionTypes
  import opened Sales
  import opened SalesInvariant
  import opened SalesSteps
  import opened SalesWebhook
  import opened SalesLaws

  /** The order is for what the reservation held. */
  predicate Became(v: Reservation, o: Order) {
    v.status == Converted && o.user == v.user && o.event == v.event && o.tier == v.tier && o.quantity == v.quantity
  }

  predicate From(b: Books, o: OrderId, r: ResourceId) {
    o in b.orders && b.orders[o].reservation == Some(r)
  }

  ghost predicate LinksOk(b: Books) {
    && (forall o, r | From(b, o, r) :: r in b.reservations && Became(b.reservations[r], b.orders[o]))
    && (forall r | r in b.reservations && b.reservations[r].status == Converted :: exists o :: From(b, o, r))
    && (forall o, q, r | From(b, o, r) && From(b, q, r) :: o == q)
  }

  /** Neither a conversion nor an order that changes anything but its state. */
  ghost predicate KeepsLinks(b: Books, t: Books) {
    && t.orders.Keys == b.orders.Keys
    && (forall o | o in b.orders :: t.orders[o] == b.orders[o].(status := t.orders[o].status))
    && (forall r | r in b.reservations :: r in t.reservations && (b.reservations[r].status == Converted ==> t.reservations[r] == b.reservations[r]))
    && (forall r | r in t.reservations && t.reservations[r].status == Converted :: r in b.reservations && b.reservations[r].status == Converted)
  }

  lemma KeepsLinksOk(b: Books, t: Books)
    requires LinksOk(b) && KeepsLinks(b, t)
    ensures LinksOk(t)
  {
    forall o, r | From(t, o, r) ensures r in t.reservations && Became(t.reservations[r], t.orders[o]) {
      assert o in b.orders.Keys && From(b, o, r);
    }
    forall r | r in t.reservations && t.reservations[r].status == Converted ensures exists o :: From(t, o, r) {
      var o :| From(b, o, r);
      assert o in t.orders.Keys && From(t, o, r);
    }
    forall o, q, r | From(t, o, r) && From(t, q, r) ensures o == q {
      assert o in b.orders.Keys && q in b.orders.Keys && From(b, o, r) && From(b, q, r);
    }
  }

  lemma ReservedKeepsLinks(b: Books, id: ResourceId, q: Request, eligible: bool, tierKnown: bool, expiresAt: int)
    ensures var r := Reserve(b, id, q, eligible, tierKnown, expiresAt); r.Ok? ==> KeepsLinks(b, r.value)
  {}

  lemma ReturnedKeepsLinks(b: Books, id: ResourceId, final: ReservationStatus)
    requires final != Converted
    ensures var r := ReturnSeats(b, id, final); r.Ok? ==> KeepsLinks(b, r.value)
  {}

  /** At most the state of this order differs. */
  predicate OnlyStatus(b: Books, t: Books, o: OrderId) {
    && o in b.orders && t.reservations == b.reservations
    && (t.orders == b.orders || (o in t.orders && t.orders == b.orders[o := b.orders[o].(status := t.orders[o].status)]))
  }

  lemma StatusKeepsLinks(b: Books, t: Books, o: OrderId)
    requires OnlyStatus(b, t, o)
    ensures KeepsLinks(b, t)
  {
    assert t.orders.Keys == b.orders.Keys;
    forall x | x in b.orders ensures t.orders[x] == b.orders[x].(status := t.orders[x].status) {}
  }

  lemma ExpiredTouches(b: Books, o: OrderId, now: int)
    ensures var r := ExpireOrder(b, o, now); r.Ok? ==> OnlyStatus(b, r.value, o)
  {
    if o in b.orders { AdjustHolds(b, b.orders[o].event, b.orders[o].quantity); }
    hide Adjust;
  }

  lemma ExpiredKeepsLinks(b: Books, o: OrderId, now: int)
    ensures var r := ExpireOrder(b, o, now); r.Ok? ==> KeepsLinks(b, r.value)
  {
    ExpiredTouches(b, o, now);
    hide ExpireOrder; hide OnlyStatus; hide KeepsLinks;
    var r := ExpireOrder(b, o, now);
    if r.Ok? { StatusKeepsLinks(b, r.value, o); }
  }

  lemma SettleTouches(b: Books, n: Notice, id: PaymentId)
    ensures var r := Settle(b, n, id); r.Ok? ==> OnlyStatus(b, r.value.0, n.order)
  {
    hide Issue;
    RecordTouches(b, n.(status := Settled), id, false);
    if n.order in b.orders && Record(b, n.(status := Settled), id, false).Ok? {
      var o := b.orders[n.order];
      IssueLeaves(WithStatus(Record(b, n.(status := Settled), id, false).value.0, n.order, Paid), n.order, o.event, o.user, o.quantity);
    }
    hide Record;
  }

  lemma FailTouches(b: Books, n: Notice, id: PaymentId)
    ensures var r := Fail(b, n, id); r.Ok? ==> OnlyStatus(b, r.value.0, n.order)
  {
    RecordTouches(b, n.(status := Failed), id, false);
    hide Record;
  }

  lemma CallbackTouches(b: Books, n: Notice, id: PaymentId)
    ensures var r := Webhook(b, n, id); r.Ok? ==> OnlyStatus(b, r.value.0, n.order)
  {
    hide Settle; hide Fail; hide Record;
    if ReserveKey(b, n).Ok? {
      ReserveKeyed(b, n);
      var b1 := ReserveKey(b, n).value;
      SettleTouches(b1, n, id);
      FailTouches(b1, n, id);
      RecordTouches(b1, n, id, n.status == Settled);
    }
    hide ReserveKey;
  }

  lemma CallbackKeepsLinks(b: Books, n: Notice, id: PaymentId)
    ensures var r := Webhook(b, n, id); r.Ok? ==> KeepsLinks(b, r.value.0)
  {
    CallbackTouches(b, n, id);
    hide Webhook; hide OnlyStatus; hide KeepsLinks;
    var r := Webhook(b, n, id);
    if r.Ok? { StatusKeepsLinks(b, r.value.0, n.order); }
  }

  lemma RecordTouches(b: Books, n: Notice, id: PaymentId, reconciliation: bool)
    ensures var r := Record(b, n, id, reconciliation);
      r.Ok? ==> r.value.0.orders == b.orders && r.value.0.reservations == b.reservations
  {}

  /** A direct order is linked to nothing. */
  lemma DirectLinks(b: Books, t: Books, p: Purchase, f: Fresh)
    requires LinksOk(b) && Ordered(b, t, p, f) && p.reservation.None? && t.reservations == b.reservations
    ensures LinksOk(t)
  {
    forall o, r ensures From(t, o, r) <==> From(b, o, r) {}
    forall r | r in t.reservations && t.reservations[r].status == Converted ensures exists o :: From(t, o, r) {
      var o :| From(b, o, r);
      assert From(t, o, r);
    }
  }

  /** A converted reservation is linked to its order, which nothing was before. */
  lemma ConvertedLinks(b: Books, t: Books, p: Purchase, f: Fresh)
    requires LinksOk(b) && Ordered(b, t, p, f) && p.reservation.Some? && p.reservation.value in b.reservations
    requires var v := b.reservations[p.reservation.value];
      && v.status == Active && SameRequest(v, p.request)
      && t.reservations == b.reservations[p.reservation.value := v.(status := Converted)]
    ensures LinksOk(t)
  {
    var rid := p.reservation.value;
    forall o ensures !From(b, o, rid) {}
    assert From(t, f.order, rid);
    forall o, r ensures From(t, o, r) <==> From(b, o, r) || (o == f.order && r == rid) {}
    forall r | r in t.reservations && t.reservations[r].status == Converted ensures exists o :: From(t, o, r) {
      if r != rid {
        var o :| From(b, o, r);
        assert From(t, o, r);
      }
    }
  }

  lemma PlacedTouches(b: Books, p: Purchase, f: Fresh, held: bool)
    ensures var r := PlaceOrder(b, p, f, held); r.Ok? ==> r.value.reservations == b.reservations
  {}

  lemma CheckoutLinks(b: Books, p: Purchase, f: Fresh, now: int)
    requires LinksOk(b)
    ensures var r := Checkout(b, p, f, now); r.Ok? ==> LinksOk(r.value.0)
  {
    hide PlaceOrder; hide ReturnSeats; hide LinksOk; hide Ordered; hide KeepsLinks; hide SameRequest;
    var r := Checkout(b, p, f, now);
    if r.Ok? && p.key !in b.orderByKey {
      if p.reservation.Some? {
        var rid := p.reservation.value;
        if Convertible(b, rid, p.request, now) {
          ConvertedIsOrdered(b, rid, p, f);
          PlacedTouches(Convert(b, rid), p, f, true);
          ConvertedLinks(b, r.value.0, p, f);
        } else {
          ReturnedKeepsLinks(b, rid, Lapsed);
          KeepsLinksOk(b, r.value.0);
        }
      } else {
        PlacedIsOrdered(b, p, f, false);
        PlacedTouches(b, p, f, false);
        DirectLinks(b, r.value.0, p, f);
      }
    }
  }

  lemma NothingTouchesLinks(b: Books, t: Books)
    requires t == b.(events := t.events)
    ensures KeepsLinks(b, t)
  {}

  lemma OthersKeepLinks(b: Books, t: Transaction)
    requires !t.DoCheckout?
    ensures KeepsLinks(b, Apply(b, t))
  {
    hide Reserve; hide ReturnSeats; hide Webhook; hide ExpireOrder; hide KeepsLinks;
    NothingTouchesLinks(b, b);
    match t
    case CreateEvent(id, seats) => NothingTouchesLinks(b, Apply(b, t));
    case DoReserve(id, q, eligible, tierKnown, expiresAt) => ReservedKeepsLinks(b, id, q, eligible, tierKnown, expiresAt);
    case DoRelease(id) => ReturnedKeepsLinks(b, id, Released);
    case DoLapse(id) => ReturnedKeepsLinks(b, id, Lapsed);
    case DoWebhook(n, id) => CallbackKeepsLinks(b, n, id);
    case DoExpireOrder(o, now) => ExpiredKeepsLinks(b, o, now);
  }

  lemma ApplyLinks(b: Books, t: Transaction)
    requires LinksOk(b)
    ensures LinksOk(Apply(b, t))
  {
    hide Checkout; hide LinksOk; hide KeepsLinks;
    if t.DoCheckout? {
      CheckoutLinks(b, t.purchase, t.minted, t.now);
    } else {
      OthersKeepLinks(b, t);
      hide Apply;
      KeepsLinksOk(b, Apply(b, t));
    }
  }

  lemma {:induction false} LinksHold(ts: seq<Transaction>)
    ensures LinksOk(Ledger(ts))
    decreases |ts|
  {
    hide Apply;
    if ts != [] {
      LinksHold(ts[..|ts| - 1]);
      ApplyLinks(Ledger(ts[..|ts| - 1]), ts[|ts| - 1]);
    }
  }

  /** After any run: an order made from a reservation is for that reservation's own user, event, tier and
      quantity, and the reservation is converted; a converted reservation has exactly one such order. */
  lemma ConvertedToItsOwnOrder(ts: seq<Transaction>, r: ResourceId)
    requires r in Ledger(ts).reservations
    ensures var b := Ledger(ts);
      var v := b.reservations[r];
      && (v.status == Converted <==> exists o :: o in b.orders && b.orders[o].reservation == Some(r))
      && (forall o | o in b.orders && b.orders[o].reservation == Some(r) ::
            b.orders[o].user == v.user && b.orders[o].event == v.event && b.orders[o].tier == v.tier && b.orders[o].quantity == v.quantity)
      && (forall o, q | o in b.orders && q in b.orders && b.orders[o].reservation == Some(r) && b.orders[q].reservation == Some(r) :: o == q)
  {
    LinksHold(ts);
    hide Ledger;
    var b := Ledger(ts);
    forall o | o in b.orders && b.orders[o].reservation == Some(r) ensures Became(b.reservations[r], b.orders[o]) { assert From(b, o, r); }
    forall o, q | o in b.orders && q in b.orders && b.orders[o].reservation == Some(r) && b.orders[q].reservation == Some(r) ensures o == q {
      assert From(b, o, r) && From(b, q, r);
    }
    if b.reservations[r].status == Converted {
      var o :| From(b, o, r);
      assert o in b.orders && b.orders[o].reservation == Some(r);
    }
  }
}
