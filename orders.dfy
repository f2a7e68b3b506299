/** Order routes: creation from a listing, the status update gate, and the
    buyer and seller order lists, over an in-memory order table. */
module Orders {
  import opened Js

  /** The only values the status update accepts. */
  const AllowedStatuses: seq<string> := ["pending", "confirmed", "shipped", "delivered", "cancelled"]
  /** The status column's default; the insert does not set it. */
  const DefaultStatus: string := "pending"
  const DefaultDeliveryMethod: string := "to_confirm"

  datatype Listing = Listing(id: nat, sellerId: nat, price: int, title: string)

  datatype Order = Order(
    id: nat, buyerId: nat, sellerId: nat, listingId: nat,
    quantity: int, totalAmount: int,
    deliveryMethod: string, buyerNote: Option<string>,
    status: string, createdAt: nat, updatedAt: nat)

  /** The four body fields the creation handler reads; nothing else of the body is used. */
  datatype CreateBody = CreateBody(
    listingId: Option<nat>, quantity: Option<int>,
    deliveryMethod: Option<string>, buyerNote: Option<string>)

  /** An order row joined with its listing's title. */
  datatype OrderView = OrderView(order: Order, listingTitle: string)

  datatype Response = Created(order: Order) | Updated(order: Order) | Failure(code: int, message: string)

  /** `quantity || 1`. */
  function EffectiveQuantity(q: Option<int>): (r: int)
    ensures r != 0
    ensures q.Some? && q.value != 0 ==> r == q.value
    ensures q.None? || q.value == 0 ==> r == 1
  {
    if q.Some? && q.value != 0 then q.value else 1
  }

  /** The row the creation handler inserts for `body` against `listing`. */
  function NewOrder(id: nat, userId: nat, listing: Listing, body: CreateBody, now: nat): Order {
    var q := EffectiveQuantity(body.quantity);
    Order(id, userId, listing.sellerId, listing.id, q, listing.price * q,
          if TruthyStr(body.deliveryMethod) then body.deliveryMethod.value else DefaultDeliveryMethod,
          if TruthyStr(body.buyerNote) then body.buyerNote else None,
          DefaultStatus, now, now)
  }

  /** What the creation rule promises of the inserted row. */
  lemma NewOrderFields(id: nat, userId: nat, listing: Listing, body: CreateBody, now: nat)
    ensures var o := NewOrder(id, userId, listing, body, now);
      && o.buyerId == userId && o.sellerId == listing.sellerId && o.listingId == listing.id
      && o.quantity == EffectiveQuantity(body.quantity) && o.quantity != 0
      && o.totalAmount == listing.price * o.quantity
      && (body.quantity.None? || body.quantity == Some(0) ==> o.quantity == 1 && o.totalAmount == listing.price)
      && (!TruthyStr(body.deliveryMethod) ==> o.deliveryMethod == "to_confirm")
      && (!TruthyStr(body.buyerNote) ==> o.buyerNote.None?)
      && o.status == "pending"
  {
  }

  /** The outcome of the status update's three checks, in the order they run. */
  datatype StatusGate = InvalidStatus | OrderNotFound | NotTheSeller | MayWrite

  function StatusGateFor(status: JsValue, found: Option<Order>, userId: nat): (g: StatusGate)
    ensures g == InvalidStatus <==> !(status.Str? && status.s in AllowedStatuses)
    ensures g == OrderNotFound <==> status.Str? && status.s in AllowedStatuses && found.None?
    ensures g == NotTheSeller <==>
      status.Str? && status.s in AllowedStatuses && found.Some? && found.value.sellerId != userId
    ensures g == MayWrite <==>
      status.Str? && status.s in AllowedStatuses && found.Some? && found.value.sellerId == userId
  {
    if !(status.Str? && status.s in AllowedStatuses) then InvalidStatus
    else if found.None? then OrderNotFound
    else if found.value.sellerId != userId then NotTheSeller
    else MayWrite
  }

  /** The gate never looks at the order's current status: there is no transition table. */
  lemma GateIgnoresCurrentStatus(status: JsValue, o: Order, userId: nat, other: string)
    ensures StatusGateFor(status, Some(o), userId) == StatusGateFor(status, Some(o.(status := other)), userId)
  {
  }

  /** Every allowed status can be written by the seller from every current status,
      including out of "cancelled" and back to "pending". */
  lemma AnyAllowedStatusFromAnyState(o: Order, s: string)
    requires s in AllowedStatuses
    ensures StatusGateFor(Str(s), Some(o), o.sellerId) == MayWrite
  {
  }

  /** The buyer of an order who is not also its seller can never change its status. */
  lemma BuyerCannotWriteStatus(status: JsValue, o: Order)
    requires o.buyerId != o.sellerId
    ensures StatusGateFor(status, Some(o), o.buyerId) != MayWrite
  {
  }

  datatype Side = AsBuyer | AsSeller

  predicate Involves(o: Order, side: Side, userId: nat) {
    match side
    case AsBuyer => o.buyerId == userId
    case AsSeller => o.sellerId == userId
  }

  predicate WellKeyed(orders: map<nat, Order>) {
    forall id :: id in orders ==> orders[id].id == id
  }

  /** The orders with id below `n` on `side` of `userId` whose listing still exists
      (the query joins on the listing), newest (highest id) first. */
  function ListDescending(orders: map<nat, Order>, listings: map<nat, Listing>, n: nat, side: Side, userId: nat): seq<OrderView>
  {
    if n == 0 then []
    else
      NewestRow(orders, listings, n - 1, side, userId) + ListDescending(orders, listings, n - 1, side, userId)
  }

  /** The row that order `n - 1` contributes to the list, if any. */
  function NewestRow(orders: map<nat, Order>, listings: map<nat, Listing>, id: nat, side: Side, userId: nat): seq<OrderView> {
    if id in orders && Involves(orders[id], side, userId) && orders[id].listingId in listings
    then [OrderView(orders[id], listings[orders[id].listingId].title)] else []
  }

  /** A view in the list of orders below `n` is a matching order, with its listing's
      title; and every matching order is there. */
  predicate Listed(orders: map<nat, Order>, listings: map<nat, Listing>, n: nat, side: Side, userId: nat, v: OrderView) {
    v.order.id < n && v.order.id in orders && orders[v.order.id] == v.order
    && Involves(v.order, side, userId) && v.order.listingId in listings
    && v.listingTitle == listings[v.order.listingId].title
  }

  lemma {:induction false} ListDescendingMembers(orders: map<nat, Order>, listings: map<nat, Listing>, n: nat, side: Side, userId: nat)
    requires WellKeyed(orders)
    ensures forall v :: v in ListDescending(orders, listings, n, side, userId) <==> Listed(orders, listings, n, side, userId, v)
  {
    if n > 0 {
      var id := n - 1;
      ListDescendingMembers(orders, listings, id, side, userId);
      var head := NewestRow(orders, listings, id, side, userId);
      var rest := ListDescending(orders, listings, id, side, userId);
      assert ListDescending(orders, listings, n, side, userId) == head + rest;
      forall v
        ensures v in head + rest <==> Listed(orders, listings, n, side, userId, v)
      {
        assert v in head <==> (v.order.id == id && Listed(orders, listings, n, side, userId, v));
      }
    }
  }

  /** Every view's order id is below `n`, and the ids strictly decrease. */
  predicate BelowAndDescending(r: seq<OrderView>, n: nat) {
    && (forall i :: 0 <= i < |r| ==> r[i].order.id < n)
    && (forall i, j :: 0 <= i < j < |r| ==> r[i].order.id > r[j].order.id)
  }

  lemma {:induction false} ListDescendingBelow(orders: map<nat, Order>, listings: map<nat, Listing>, n: nat, side: Side, userId: nat)
    requires WellKeyed(orders)
    ensures BelowAndDescending(ListDescending(orders, listings, n, side, userId), n)
  {
    if n > 0 {
      var id := n - 1;
      ListDescendingBelow(orders, listings, id, side, userId);
      var head := NewestRow(orders, listings, id, side, userId);
      var rest := ListDescending(orders, listings, id, side, userId);
      var r := head + rest;
      assert BelowAndDescending(rest, id);
      assert ListDescending(orders, listings, n, side, userId) == r;
      assert |head| <= 1 && forall i :: 0 <= i < |head| ==> r[i].order.id == id;
      assert forall i :: |head| <= i < |r| ==> r[i] == rest[i - |head|];
      forall i, j | 0 <= i < j < |r|
        ensures r[i].order.id > r[j].order.id
      {
        if i >= |head| {
          assert rest[i - |head|].order.id > rest[j - |head|].order.id;
        }
      }
    }
  }

  /** The list holds exactly the matching orders, each with its listing's title,
      in strictly decreasing id order. */
  lemma ListDescendingExactly(orders: map<nat, Order>, listings: map<nat, Listing>, n: nat, side: Side, userId: nat)
    requires WellKeyed(orders)
    ensures var r := ListDescending(orders, listings, n, side, userId);
      && (forall v :: v in r <==>
            (v.order.id < n && v.order.id in orders && orders[v.order.id] == v.order
             && Involves(v.order, side, userId) && v.order.listingId in listings
             && v.listingTitle == listings[v.order.listingId].title))
      && (forall i, j :: 0 <= i < j < |r| ==> r[i].order.id > r[j].order.id)
      && (forall i :: 0 <= i < |r| ==> r[i].order.id < n)
  {
    ListDescendingMembers(orders, listings, n, side, userId);
    ListDescendingBelow(orders, listings, n, side, userId);
    assert BelowAndDescending(ListDescending(orders, listings, n, side, userId), n);
  }

  class OrderStore {
    var orders: map<nat, Order>
    var nextId: nat
    var clock: nat
    var listings: map<nat, Listing>

    ghost predicate Valid()
      reads this
    {
      WellKeyed(orders) && (forall id :: id in orders ==> id < nextId)
    }

    constructor (listings: map<nat, Listing>)
      ensures Valid()
      ensures this.orders == map[] && this.listings == listings && this.nextId == 1
    {
      this.orders := map[];
      this.nextId := 1;
      this.clock := 0;
      this.listings := listings;
    }

    /** POST /: the buyer is the caller, the seller and price come from the listing. */
    method Create(userId: nat, body: CreateBody) returns (resp: Response)
      requires Valid()
      modifies this
      ensures Valid() && listings == old(listings)
      ensures body.listingId.None? || body.listingId.value !in listings ==>
        resp == Failure(404, "Annonce introuvable") && orders == old(orders) && nextId == old(nextId)
      ensures body.listingId.Some? && body.listingId.value in listings ==>
        var o := NewOrder(old(nextId), userId, listings[body.listingId.value], body, old(clock));
        && resp == Created(o)
        && o.id !in old(orders)
        && orders == old(orders)[o.id := o]
        && nextId == old(nextId) + 1
    {
      if body.listingId.None? || body.listingId.value !in listings {
        return Failure(404, "Annonce introuvable");
      }
      var listing := listings[body.listingId.value];
      var o := NewOrder(nextId, userId, listing, body, clock);
      orders := orders[nextId := o];
      nextId := nextId + 1;
      clock := clock + 1;
      resp := Created(o);
    }

    /** PATCH /:id/status: allow-list, then existence, then seller ownership, then the write. */
    method UpdateStatus(userId: nat, orderId: nat, status: JsValue) returns (resp: Response)
      requires Valid()
      modifies this
      ensures Valid() && listings == old(listings) && nextId == old(nextId)
      ensures var g := StatusGateFor(status, if orderId in old(orders) then Some(old(orders)[orderId]) else None, userId);
        && (g == InvalidStatus ==> resp == Failure(400, "Statut invalide") && orders == old(orders))
        && (g == OrderNotFound ==> resp == Failure(404, "Commande introuvable") && orders == old(orders))
        && (g == NotTheSeller ==>
              resp == Failure(403, "Vous ne pouvez pas modifier cette commande") && orders == old(orders))
        && (g == MayWrite ==>
              var o := old(orders)[orderId].(status := status.s, updatedAt := old(clock));
              resp == Updated(o) && orders == old(orders)[orderId := o])
    {
      var found := if orderId in orders then Some(orders[orderId]) else None;
      var g := StatusGateFor(status, found, userId);
      if g == InvalidStatus {
        return Failure(400, "Statut invalide");
      }
      if g == OrderNotFound {
        return Failure(404, "Commande introuvable");
      }
      if g == NotTheSeller {
        return Failure(403, "Vous ne pouvez pas modifier cette commande");
      }
      var o := orders[orderId].(status := status.s, updatedAt := clock);
      orders := orders[orderId := o];
      clock := clock + 1;
      resp := Updated(o);
    }

    /** An order of the store joined with its listing's title. */
    predicate Joined(v: OrderView)
      reads this
    {
      v.order.id in orders && orders[v.order.id] == v.order
      && v.order.listingId in listings && v.listingTitle == listings[v.order.listingId].title
    }

    /** GET /me/buyer: the caller's purchases whose listing exists, newest first. */
    function BuyerOrders(userId: nat): (r: seq<OrderView>)
      requires Valid()
      reads this
      ensures forall v :: v in r <==> Joined(v) && v.order.buyerId == userId
      ensures forall i, j :: 0 <= i < j < |r| ==> r[i].order.id > r[j].order.id
    {
      ListDescendingExactly(orders, listings, nextId, AsBuyer, userId);
      ListDescending(orders, listings, nextId, AsBuyer, userId)
    }

    /** GET /me/seller: the caller's sales whose listing exists, newest first. */
    function SellerOrders(userId: nat): (r: seq<OrderView>)
      requires Valid()
      reads this
      ensures forall v :: v in r <==> Joined(v) && v.order.sellerId == userId
      ensures forall i, j :: 0 <= i < j < |r| ==> r[i].order.id > r[j].order.id
    {
      ListDescendingExactly(orders, listings, nextId, AsSeller, userId);
      ListDescending(orders, listings, nextId, AsSeller, userId)
    }
  }
}
