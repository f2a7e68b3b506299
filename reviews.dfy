/** Review routes: the buyer-or-seller access check on an order, the chain of
    checks before a review is stored, and the per-order review list. */
module Reviews {
  import opened Js

  /** The three order columns the access check reads. */
  datatype OrderParties = OrderParties(id: nat, buyerId: nat, sellerId: nat)

  datatype Review = Review(id: nat, orderId: nat, reviewerId: nat, revieweeId: nat, rating: int, comment: Option<string>)

  /** The result of `fetchOrderForReview`: no order, a forbidden caller, or the order
      with the caller's relation to it. */
  datatype Access = NoOrder | Forbidden | Granted(order: OrderParties, isBuyer: bool, isSeller: bool)

  function FetchOrderForReview(orders: map<nat, OrderParties>, orderId: nat, userId: nat): (a: Access)
    ensures a.NoOrder? <==> orderId !in orders
    ensures a.Forbidden? <==>
      orderId in orders && orders[orderId].buyerId != userId && orders[orderId].sellerId != userId
    ensures a.Granted? ==>
      && orderId in orders && a.order == orders[orderId]
      && a.isBuyer == (a.order.buyerId == userId) && a.isSeller == (a.order.sellerId == userId)
      && (a.isBuyer || a.isSeller)
  {
    if orderId !in orders then NoOrder
    else
      var o := orders[orderId];
      var isBuyer := o.buyerId == userId;
      var isSeller := o.sellerId == userId;
      if !isBuyer && !isSeller then Forbidden else Granted(o, isBuyer, isSeller)
  }

  /** `Number(rating)` when it is an integer from 1 to 5, else nothing. */
  function RatingOf(rating: JsValue, parse: string -> JsNumber): (r: Option<int>)
    ensures r.Some? <==>
      var n := ToNumber(rating, parse); IsInteger(n) && 1.0 <= n.r <= 5.0
    ensures r.Some? ==> 1 <= r.value <= 5 && r.value as real == ToNumber(rating, parse).r
  {
    var n := ToNumber(rating, parse);
    if IsInteger(n) && 1.0 <= n.r <= 5.0 then Some(n.r.Floor) else None
  }

  datatype PostBody = PostBody(orderId: Option<nat>, rating: JsValue, comment: Option<string>)

  /** What POST / decides: reject with a status and message, or insert a review. */
  datatype PostDecision =
    | Reject(code: int, message: string)
    | Insert(orderId: nat, revieweeId: nat, rating: int, comment: Option<string>)

  const MsgOrderIdRequired := "order_id requis"
  const MsgBadRating := "La note doit être un entier entre 1 et 5"
  const MsgOrderNotFound := "Commande introuvable"
  const MsgCannotReview := "Vous ne pouvez pas évaluer cette commande"
  const MsgAlreadyReviewed := "Vous avez déjà laissé un avis pour cette commande"

  predicate HasReviewed(reviews: seq<Review>, orderId: nat, reviewerId: nat) {
    exists i :: 0 <= i < |reviews| && reviews[i].orderId == orderId && reviews[i].reviewerId == reviewerId
  }

  predicate OrderIdGiven(body: PostBody) {
    body.orderId.Some? && body.orderId.value != 0
  }

  function Decide(orders: map<nat, OrderParties>, reviews: seq<Review>, userId: nat, body: PostBody,
                  parse: string -> JsNumber): (d: PostDecision)
    // the first failing check decides, in the order the handler runs them
    ensures !OrderIdGiven(body) ==> d == Reject(400, MsgOrderIdRequired)
    ensures OrderIdGiven(body) && RatingOf(body.rating, parse).None? ==> d == Reject(400, MsgBadRating)
    ensures OrderIdGiven(body) && RatingOf(body.rating, parse).Some? && body.orderId.value !in orders ==>
      d == Reject(404, MsgOrderNotFound)
    ensures (OrderIdGiven(body) && RatingOf(body.rating, parse).Some?
             && FetchOrderForReview(orders, body.orderId.value, userId).Forbidden?) ==>
      d == Reject(403, MsgCannotReview)
    ensures (OrderIdGiven(body) && RatingOf(body.rating, parse).Some?
             && FetchOrderForReview(orders, body.orderId.value, userId).Granted?
             && HasReviewed(reviews, body.orderId.value, userId)) ==>
      d == Reject(400, MsgAlreadyReviewed)
    // passing every check inserts
    ensures (OrderIdGiven(body) && RatingOf(body.rating, parse).Some? && body.orderId.value in orders
             && (orders[body.orderId.value].buyerId == userId || orders[body.orderId.value].sellerId == userId)
             && !HasReviewed(reviews, body.orderId.value, userId)) ==>
      d.Insert?
    // an insert passed every check, and reviews the other party of the order
    ensures d.Insert? ==>
      && OrderIdGiven(body) && d.orderId == body.orderId.value && d.orderId in orders
      && !HasReviewed(reviews, d.orderId, userId)
      && Some(d.rating) == RatingOf(body.rating, parse)
      && (orders[d.orderId].buyerId == userId ==> d.revieweeId == orders[d.orderId].sellerId)
      && (orders[d.orderId].buyerId != userId ==>
            orders[d.orderId].sellerId == userId && d.revieweeId == orders[d.orderId].buyerId)
      && d.comment == (if TruthyStr(body.comment) then body.comment else None)
  {
    if !OrderIdGiven(body) then Reject(400, MsgOrderIdRequired)
    else
      var rating := RatingOf(body.rating, parse);
      if rating.None? then Reject(400, MsgBadRating)
      else
        var orderId := body.orderId.value;
        var access := FetchOrderForReview(orders, orderId, userId);
        match access
        case NoOrder => Reject(404, MsgOrderNotFound)
        case Forbidden => Reject(403, MsgCannotReview)
        case Granted(o, isBuyer, _) =>
          var reviewee := if isBuyer then o.sellerId else o.buyerId;
          if HasReviewed(reviews, orderId, userId) then Reject(400, MsgAlreadyReviewed)
          else Insert(orderId, reviewee, rating.value, if TruthyStr(body.comment) then body.comment else None)
  }

  /** Whether a review may be left depends only on the parties, never on the order's
      progress: the check reads no status at all. */
  lemma BothPartiesMayReviewOnce(orders: map<nat, OrderParties>, userId: nat, body: PostBody, parse: string -> JsNumber)
    requires OrderIdGiven(body) && RatingOf(body.rating, parse).Some?
    requires body.orderId.value in orders
    requires var o := orders[body.orderId.value]; o.buyerId == userId || o.sellerId == userId
    ensures Decide(orders, [], userId, body, parse).Insert?
  {
  }

  /** At most one review per (order, reviewer). */
  predicate OnePerReviewer(reviews: seq<Review>) {
    forall i, j :: 0 <= i < j < |reviews| ==>
      !(reviews[i].orderId == reviews[j].orderId && reviews[i].reviewerId == reviews[j].reviewerId)
  }

  /** Appending what `Decide` allows keeps at most one review per (order, reviewer). */
  lemma {:induction false} InsertKeepsOnePerReviewer(orders: map<nat, OrderParties>, reviews: seq<Review>, userId: nat,
                                                     body: PostBody, parse: string -> JsNumber, id: nat)
    requires OnePerReviewer(reviews)
    requires Decide(orders, reviews, userId, body, parse).Insert?
    ensures var d := Decide(orders, reviews, userId, body, parse);
      OnePerReviewer(reviews + [Review(id, d.orderId, userId, d.revieweeId, d.rating, d.comment)])
  {
    var d := Decide(orders, reviews, userId, body, parse);
    var r' := reviews + [Review(id, d.orderId, userId, d.revieweeId, d.rating, d.comment)];
    forall i, j | 0 <= i < j < |r'|
      ensures !(r'[i].orderId == r'[j].orderId && r'[i].reviewerId == r'[j].reviewerId)
    {
      if j == |reviews| {
        assert r'[i] == reviews[i];
      }
    }
  }

  /** The reviews of one order, oldest first (insertion order). */
  function ReviewsOf(reviews: seq<Review>, orderId: nat): (r: seq<Review>)
    ensures forall x :: x in r <==> x in reviews && x.orderId == orderId
  {
    if |reviews| == 0 then []
    else (if reviews[0].orderId == orderId then [reviews[0]] else []) + ReviewsOf(reviews[1..], orderId)
  }

  datatype ListResponse = ReviewList(reviews: seq<Review>) | ListFailure(code: int, message: string)

  /** GET /order/:orderId: the same not-found and buyer-or-seller rule as posting. */
  function ListForOrder(orders: map<nat, OrderParties>, reviews: seq<Review>, userId: nat, orderId: nat): (r: ListResponse)
    ensures orderId !in orders ==> r == ListFailure(404, MsgOrderNotFound)
    ensures orderId in orders && orders[orderId].buyerId != userId && orders[orderId].sellerId != userId ==>
      r == ListFailure(403, "Accès refusé")
    ensures r.ReviewList? <==>
      orderId in orders && (orders[orderId].buyerId == userId || orders[orderId].sellerId == userId)
    ensures r.ReviewList? ==>
      && r.reviews == ReviewsOf(reviews, orderId)
      && (forall x :: x in r.reviews <==> x in reviews && x.orderId == orderId)
  {
    match FetchOrderForReview(orders, orderId, userId)
    case NoOrder => ListFailure(404, MsgOrderNotFound)
    case Forbidden => ListFailure(403, "Accès refusé")
    case Granted(_, _, _) => ReviewList(ReviewsOf(reviews, orderId))
  }

  datatype PostResponse = CreatedReview(review: Review) | PostFailure(code: int, message: string)

  class ReviewStore {
    var orders: map<nat, OrderParties>
    var reviews: seq<Review>
    var nextId: nat

    ghost predicate Valid()
      reads this
    {
      OnePerReviewer(reviews)
    }

    constructor (orders: map<nat, OrderParties>)
      ensures Valid() && this.orders == orders && reviews == []
    {
      this.orders := orders;
      this.reviews := [];
      this.nextId := 1;
    }

    /** POST /: runs the checks of `Decide` and appends the review when they all pass. */
    method Post(userId: nat, body: PostBody, parse: string -> JsNumber) returns (resp: PostResponse)
      requires Valid()
      modifies this
      ensures Valid() && orders == old(orders)
      ensures var d := Decide(old(orders), old(reviews), userId, body, parse);
        && (d.Reject? ==> resp == PostFailure(d.code, d.message) && reviews == old(reviews) && nextId == old(nextId))
        && (d.Insert? ==>
              var r := Review(old(nextId), d.orderId, userId, d.revieweeId, d.rating, d.comment);
              resp == CreatedReview(r) && reviews == old(reviews) + [r] && nextId == old(nextId) + 1)
    {
      var d := Decide(orders, reviews, userId, body, parse);
      if d.Reject? {
        return PostFailure(d.code, d.message);
      }
      InsertKeepsOnePerReviewer(orders, reviews, userId, body, parse, nextId);
      var r := Review(nextId, d.orderId, userId, d.revieweeId, d.rating, d.comment);
      reviews := reviews + [r];
      nextId := nextId + 1;
      resp := CreatedReview(r);
    }
  }
}
