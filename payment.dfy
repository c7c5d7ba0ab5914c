/** Payment confirmation (CheckPayView): the handler queries the gateway for
    the order's trade until the gateway gives a definite answer, and on a
    confirmed payment moves the order to "awaiting review" and stores the
    gateway's trade number. */
module Payment {
  import opened Common
  import opened Store

  /** The key of the third-party gateway in the pay-method table. */
  const GatewayPayMethod := "3"

  /** The fields of a trade-query reply the handler reads; a field the reply
      lacks is the empty string, which none of the compared values equals. */
  datatype Reply = Reply(code: string, tradeStatus: string, tradeNo: string)

  /** What a reply means to the handler. */
  datatype Verdict = Paid | Waiting | Refused

  /** Success is code "10000" with status TRADE_SUCCESS; "wait and ask again"
      is code "40004", or code "10000" with status WAIT_BUYER_PAY; anything
      else is an error. */
  function Classify(reply: Reply): (v: Verdict)
    ensures v == Paid <==> reply.code == "10000" && reply.tradeStatus == "TRADE_SUCCESS"
    ensures v == Waiting <==>
      reply.code == "40004" || (reply.code == "10000" && reply.tradeStatus == "WAIT_BUYER_PAY")
    ensures v == Refused <==>
      reply.code != "40004" && (reply.code != "10000" || reply.tradeStatus !in {"TRADE_SUCCESS", "WAIT_BUYER_PAY"})
  {
    if reply.code == "10000" && reply.tradeStatus == "TRADE_SUCCESS" then Paid
    else if reply.code == "40004" || (reply.code == "10000" && reply.tradeStatus == "WAIT_BUYER_PAY") then Waiting
    else Refused
  }

  /** The position of the first reply that is not "wait", if any. */
  function FirstDefinite(replies: seq<Reply>): (r: Option<nat>)
    ensures r.Some? ==> r.value < |replies| && Classify(replies[r.value]) != Waiting
    ensures r.Some? ==> forall j :: 0 <= j < r.value ==> Classify(replies[j]) == Waiting
    ensures r.None? ==> forall j :: 0 <= j < |replies| ==> Classify(replies[j]) == Waiting
    decreases |replies|
  {
    if replies == [] then None
    else if Classify(replies[0]) != Waiting then Some(0)
    else match FirstDefinite(replies[1..])
      case None => None
      case Some(i) => Some(i + 1)
  }

  /** The answers of CheckPayView.post; StillWaiting stands for a gateway that
      has only said "wait" so far (the handler would go on polling). */
  datatype PayCheck = NotLoggedIn | NoOrderId | WrongOrder | Confirmed | PayFailed | StillWaiting
  {
    function Code(): int
    {
      match this
      case NotLoggedIn => 0
      case NoOrderId => 1
      case WrongOrder => 2
      case Confirmed => 3
      case PayFailed => 4
      case StillWaiting => -1 // no answer yet
    }
  }

  /** The order the handler looks up: this id, this user, paid through the
      gateway, still unpaid. */
  predicate Payable(orders: map<string, OrderInfo>, orderId: string, user: UserId)
  {
    orderId in orders && orders[orderId].user == user &&
    orders[orderId].payMethod == GatewayPayMethod && orders[orderId].status == StatusUnpaid
  }

  /** CheckPayView.post as a function of the order table and the gateway's
      successive replies. */
  function CheckPayOf(orders: map<string, OrderInfo>, authenticated: bool, user: UserId, orderId: string,
                      replies: seq<Reply>): (PayCheck, map<string, OrderInfo>)
  {
    if !authenticated then (NotLoggedIn, orders)
    else if orderId == "" then (NoOrderId, orders)
    else if !Payable(orders, orderId, user) then (WrongOrder, orders)
    else match FirstDefinite(replies)
      case None => (StillWaiting, orders)
      case Some(i) =>
        if Classify(replies[i]) == Paid
        then (Confirmed, orders[orderId := orders[orderId].(status := StatusAwaitingReview, tradeNo := replies[i].tradeNo)])
        else (PayFailed, orders)
  }

  /** CheckPayView.post. */
  method CheckPay(db: Database, authenticated: bool, user: UserId, orderId: string, replies: seq<Reply>)
    returns (res: PayCheck)
    modifies db
    ensures (res, db.orders) == CheckPayOf(old(db.orders), authenticated, user, orderId, replies)
    ensures db.skus == old(db.skus) && db.lines == old(db.lines) && db.addresses == old(db.addresses)
  {
    if !authenticated {
      return NotLoggedIn;
    }
    if orderId == "" {
      return NoOrderId;
    }
    if !Payable(db.orders, orderId, user) {
      return WrongOrder;
    }
    var i := 0;
    while i < |replies|
      invariant 0 <= i <= |replies|
      invariant forall j :: 0 <= j < i ==> Classify(replies[j]) == Waiting
    {
      var verdict := Classify(replies[i]);
      if verdict == Paid {
        db.orders := db.orders[orderId := db.orders[orderId].(status := StatusAwaitingReview, tradeNo := replies[i].tradeNo)];
        FirstDefiniteIs(replies, i);
        return Confirmed;
      } else if verdict == Refused {
        FirstDefiniteIs(replies, i);
        return PayFailed;
      }
      // the handler sleeps three seconds and asks again
      i := i + 1;
    }
    return StillWaiting;
  }

  /** The first definite reply is the one before which all replies say wait. */
  lemma FirstDefiniteIs(replies: seq<Reply>, i: nat)
    requires i < |replies| && Classify(replies[i]) != Waiting
    requires forall j :: 0 <= j < i ==> Classify(replies[j]) == Waiting
    ensures FirstDefinite(replies) == Some(i)
  {
  }

  /** A confirmation changes nothing but that order, which it moves from
      unpaid to awaiting review with the gateway's trade number; every other
      answer changes nothing at all. */
  lemma CheckPayEffect(orders: map<string, OrderInfo>, authenticated: bool, user: UserId, orderId: string, replies: seq<Reply>)
    ensures var (res, after) := CheckPayOf(orders, authenticated, user, orderId, replies);
      (res != Confirmed ==> after == orders) &&
      (res == Confirmed ==>
        orderId in orders && orders[orderId].status == StatusUnpaid &&
        after.Keys == orders.Keys &&
        (forall k :: k in orders && k != orderId ==> after[k] == orders[k]) &&
        after[orderId] == orders[orderId].(status := StatusAwaitingReview, tradeNo := after[orderId].tradeNo) &&
        (exists i :: 0 <= i < |replies| && Classify(replies[i]) == Paid && after[orderId].tradeNo == replies[i].tradeNo))
  {
    var (res, after) := CheckPayOf(orders, authenticated, user, orderId, replies);
    if res == Confirmed {
      var i := FirstDefinite(replies).value;
      assert Classify(replies[i]) == Paid && after[orderId].tradeNo == replies[i].tradeNo;
    }
  }

  /** Checking again after a confirmation applies nothing twice: the order is
      no longer unpaid, so the second check answers "wrong order" (2) and
      changes nothing, whatever the gateway says. */
  lemma CheckPayIdempotent(orders: map<string, OrderInfo>, user: UserId, orderId: string,
                           replies: seq<Reply>, again: seq<Reply>)
    requires CheckPayOf(orders, true, user, orderId, replies).0 == Confirmed
    ensures var after := CheckPayOf(orders, true, user, orderId, replies).1;
      CheckPayOf(after, true, user, orderId, again) == (WrongOrder, after)
  {
  }
}
