/** The kitchen and delivery boards: the status columns they split the orders
    into, the status each card's button requests, the preparation-time prompt
    that guards a move to `preparing` (shared with the admin dashboard), and
    the delivery board's removal of a completed delivery. */
module StaffBoards {
  import opened JsRuntime
  import opened Entities
  import opened AuthMiddleware
  import opened Orders
  import opened OrderViews

  /** The JSON body of `updateOrderStatus`: `estimatedTime` is left out when absent. */
  datatype UpdateBody = UpdateBody(status: string, estimatedTime: Option<int>)

  /** A request the board sends to the status route. */
  datatype Request = Request(id: int, body: UpdateBody)

  // ---------------------------------------------------------------------------
  // The status update handler

  /** `handleStatusUpdate(id, status)`: a move to `preparing` first asks for the
      preparation time (`entered` is the text submitted) and sends nothing when
      it does not parse as an integer; any other status is sent at once,
      without a time. */
  function StatusRequest(status: string, entered: string): (r: Option<UpdateBody>)
    ensures status != "preparing" ==> r == Some(UpdateBody(status, None))
    ensures status == "preparing" ==> (r.Some? <==> ParseInt(entered).Some?)
    ensures r.Some? ==> r.value.status == status
    ensures status == "preparing" && r.Some? ==> r.value.estimatedTime == ParseInt(entered)
  {
    if status != "preparing" then Some(UpdateBody(status, None))
    else match ParseInt(entered)
      case None => None
      case Some(t) => Some(UpdateBody(status, Some(t)))
  }

  /** What a sent request does to the row: the status is written, and a ready
      time is set exactly when the entered time is a non-zero integer; an
      entered `0` moves the order to `preparing` and keeps the old ready time. */
  lemma RequestReachesRow(o: Order, status: string, entered: string, now: int)
    requires StatusRequest(status, entered).Some?
    ensures var b := StatusRequest(status, entered).value;
            var r := StatusUpdated(o, Some(b.status), b.estimatedTime, now);
            r.status == status &&
            (status == "preparing" && ParseInt(entered).value != 0 ==>
               r.estimatedReadyAt == Some(now + ParseInt(entered).value * MINUTE_MS)) &&
            (status != "preparing" || ParseInt(entered).value == 0 ==> r.estimatedReadyAt == o.estimatedReadyAt)
  {
  }

  /** Whatever number of minutes is typed into the preparation-time prompt of
      either dashboard is sent as that number. */
  lemma {:induction false} EnteredMinutesSent(n: nat)
    ensures StatusRequest("preparing", DecimalString(n)) == Some(UpdateBody("preparing", Some(n)))
  {
    ParseDecimal(n);
  }

  /** The status route is admin-only, so a request from a staff account is
      refused with 403 by the server handlers in this model whatever it asks. */
  lemma StaffUpdatesRefused(orders: map<int, Order>, storeUp: bool, caller: Claims, idParam: string)
    requires caller.role != "ADMIN"
    ensures UpdateStatusReply(orders, storeUp, Some(caller), idParam) == Reply(403, "Access denied. Admins only.")
  {
  }

  // ---------------------------------------------------------------------------
  // Columns

  /** `orders.filter(o => o.status === s)`. */
  function WithStatus(cards: seq<Card>, s: string): (r: seq<Card>)
    ensures |r| <= |cards|
  {
    if cards == [] then []
    else
      var last := cards[|cards| - 1];
      WithStatus(cards[..|cards| - 1], s) + (if last.status == Some(s) then [last] else [])
  }

  /** A column holds exactly the board's cards with its status. */
  lemma {:induction false} WithStatusMembers(cards: seq<Card>, s: string)
    ensures forall c :: c in WithStatus(cards, s) <==> c in cards && c.status == Some(s)
    decreases |cards|
  {
    if cards != [] {
      var p := cards[..|cards| - 1];
      WithStatusMembers(p, s);
      assert cards == p + [cards[|cards| - 1]];
    }
  }

  /** Filtering a concatenation filters each part: the column keeps the
      board's order. */
  lemma {:induction false} WithStatusConcat(a: seq<Card>, b: seq<Card>, s: string)
    ensures WithStatus(a + b, s) == WithStatus(a, s) + WithStatus(b, s)
    decreases |b|
  {
    if b == [] {
      assert a + b == a;
    } else {
      var b' := b[..|b| - 1];
      var last := b[|b| - 1];
      var tail := if last.status == Some(s) then [last] else [];
      var ab := a + b;
      assert ab[..|ab| - 1] == a + b' && ab[|ab| - 1] == last;
      assert WithStatus(ab, s) == WithStatus(a + b', s) + tail;
      assert WithStatus(b, s) == WithStatus(b', s) + tail;
      WithStatusConcat(a, b', s);
      assert (WithStatus(a, s) + WithStatus(b', s)) + tail == WithStatus(a, s) + (WithStatus(b', s) + tail);
    }
  }

  /** Two columns with different statuses hold no card in common and together
      hold no more cards than the board. */
  lemma {:induction false} ColumnsDisjoint(cards: seq<Card>, s: string, t: string)
    requires s != t
    ensures forall c :: c in WithStatus(cards, s) ==> c !in WithStatus(cards, t)
    ensures |WithStatus(cards, s)| + |WithStatus(cards, t)| <= |cards|
    decreases |cards|
  {
    WithStatusMembers(cards, s);
    WithStatusMembers(cards, t);
    if cards != [] {
      ColumnsDisjoint(cards[..|cards| - 1], s, t);
    }
  }

  datatype Column = NewOrders | Preparing | ReadyForPickup | OutForDelivery

  /** The status of the cards in each column: New Orders and Preparing on the
      kitchen board, Ready for Pickup and Out for Delivery on the delivery board. */
  function ColumnStatus(col: Column): string
  {
    match col
    case NewOrders => "pending"
    case Preparing => "preparing"
    case ReadyForPickup => "ready"
    case OutForDelivery => "out_for_delivery"
  }

  /** The status a card's button requests: Start Preparing, Mark Ready, Pick Up
      and Complete Delivery. */
  function ActionStatus(col: Column): string
  {
    match col
    case NewOrders => "preparing"
    case Preparing => "ready"
    case ReadyForPickup => "out_for_delivery"
    case OutForDelivery => "delivered"
  }

  /** Each button moves its card on: New Orders into Preparing, Preparing into
      the delivery board's Ready column, Ready into Out for Delivery, and Out
      for Delivery off every board. */
  lemma ActionsMoveCardsOn(col: Column)
    ensures ActionStatus(NewOrders) == ColumnStatus(Preparing)
    ensures ActionStatus(Preparing) == ColumnStatus(ReadyForPickup)
    ensures ActionStatus(ReadyForPickup) == ColumnStatus(OutForDelivery)
    ensures forall c :: ActionStatus(OutForDelivery) != ColumnStatus(c)
    ensures ActionStatus(col) != ColumnStatus(col)
  {
  }

  /** Only Start Preparing asks for a time; the other buttons send their
      status at once without one. */
  lemma {:induction false} ButtonRequests(col: Column, entered: string)
    ensures col != NewOrders ==> StatusRequest(ActionStatus(col), entered) == Some(UpdateBody(ActionStatus(col), None))
    ensures col == NewOrders ==> (StatusRequest(ActionStatus(col), entered).Some? <==> ParseInt(entered).Some?)
  {
  }

  // ---------------------------------------------------------------------------
  // The delivery board

  /** `orders.filter(o => o.id !== id)`. */
  function Without(cards: seq<Card>, id: int): (r: seq<Card>)
    ensures |r| <= |cards|
  {
    if cards == [] then []
    else
      var last := cards[|cards| - 1];
      Without(cards[..|cards| - 1], id) + (if last.id != id then [last] else [])
  }

  /** The filter drops exactly the cards with that id. */
  lemma {:induction false} WithoutMembers(cards: seq<Card>, id: int)
    ensures forall c :: c in Without(cards, id) <==> c in cards && c.id != id
    decreases |cards|
  {
    if cards != [] {
      var p := cards[..|cards| - 1];
      WithoutMembers(p, id);
      assert cards == p + [cards[|cards| - 1]];
    }
  }

  /** Removing a card from a concatenation removes it from each part, so the
      other cards keep their order. */
  lemma {:induction false} WithoutConcat(a: seq<Card>, b: seq<Card>, id: int)
    ensures Without(a + b, id) == Without(a, id) + Without(b, id)
    decreases |b|
  {
    if b == [] {
      assert a + b == a;
    } else {
      var b' := b[..|b| - 1];
      var last := b[|b| - 1];
      var tail := if last.id != id then [last] else [];
      var ab := a + b;
      assert ab[..|ab| - 1] == a + b' && ab[|ab| - 1] == last;
      assert Without(ab, id) == Without(a + b', id) + tail;
      assert Without(b, id) == Without(b', id) + tail;
      WithoutConcat(a, b', id);
      assert (Without(a, id) + Without(b', id)) + tail == Without(a, id) + (Without(b', id) + tail);
    }
  }

  class DeliveryBoard {
    var cards: seq<Card>
    var sent: seq<Request>

    constructor (cards: seq<Card>)
      ensures this.cards == cards && sent == []
    {
      this.cards := cards;
      sent := [];
    }

    /** Pick Up: request `out_for_delivery`; the board changes with the next poll. */
    method PickUp(id: int)
      modifies this
      ensures sent == old(sent) + [Request(id, UpdateBody(ActionStatus(ReadyForPickup), None))]
      ensures cards == old(cards)
    {
      sent := sent + [Request(id, UpdateBody("out_for_delivery", None))];
    }

    /** `handleDeliveryComplete(id)`: a declined confirmation sends nothing; an
        accepted one requests `delivered` and, once the server has accepted
        it, drops that order from the board and keeps every other card. */
    method CompleteDelivery(id: int, confirmed: bool, accepted: bool)
      modifies this
      ensures !confirmed ==> sent == old(sent) && cards == old(cards)
      ensures confirmed ==> sent == old(sent) + [Request(id, UpdateBody(ActionStatus(OutForDelivery), None))]
      ensures confirmed && accepted ==> cards == Without(old(cards), id)
      ensures !accepted ==> cards == old(cards)
    {
      if !confirmed {
        return;
      }
      sent := sent + [Request(id, UpdateBody("delivered", None))];
      if accepted {
        cards := Without(cards, id);
      }
    }
  }
}
