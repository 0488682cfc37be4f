/** The order routes of server/src/index.ts over an order table: placing an
    order, the admin status update, the customer cancel, the delete, and the
    periodic sweep that marks overdue `preparing` orders `ready`. Emails are
    notices appended to an outbox; the store throwing is the flag `storeUp`
    (or, for the sweep, the set of ids whose update throws). */
module Orders {
  import opened JsRuntime
  import opened Entities
  import opened AuthMiddleware

  datatype Order = Order(items: seq<OrderLine>, customer: Customer, total: int, status: string,
                         userId: Option<int>, estimatedReadyAt: Option<int>)

  /** The emails the handlers send: the customer's confirmation, the admin
      alert, and a status-update message carrying the new status. */
  datatype Notice = Confirmation(id: int) | AdminAlert(id: int) | StatusChanged(id: int, status: string)

  const MINUTE_MS: int := 60000

  // ---------------------------------------------------------------------------
  // Placing an order

  /** `!items || !customer || !total`: an array and an object are truthy when
      present, a total when non-zero. */
  predicate MissingDetails(items: Option<seq<OrderLine>>, customer: Option<Customer>, total: Option<int>)
  {
    items.None? || customer.None? || total.None? || total.value == 0
  }

  /** The owner recorded for a new order: the `userId` of a token that verifies,
      and no one (a guest order) when the header is absent or the token fails. */
  function Owner(header: Option<string>, verify: string -> Option<Claims>): (u: Option<int>)
    ensures u.Some? ==> BearerToken(header).Some? && verify(BearerToken(header).value).Some?
    ensures u.Some? ==> u.value == verify(BearerToken(header).value).value.userId
    ensures header.None? ==> u.None?
  {
    match BearerToken(header)
    case None => None
    case Some(t) =>
      match verify(t)
      case None => None
      case Some(c) => Some(c.userId)
  }

  /** A client that sends `Bearer <token>` for a valid token owns the order it places. */
  lemma {:induction false} SignedInOwner(token: string, verify: string -> Option<Claims>)
    requires token != "" && ' ' !in token && verify(token).Some?
    ensures Owner(Some("Bearer " + token), verify) == Some(verify(token).value.userId)
  {
    BearerRoundTrip(token);
  }

  // ---------------------------------------------------------------------------
  // Status update

  /** The row after `update({status, estimatedReadyAt?})`: an absent status
      leaves the status as it was; any present status is written whatever the
      current one is; the ready time is set only for `preparing` with a
      non-zero time, to `now` plus that many minutes. */
  function StatusUpdated(o: Order, status: Option<string>, estimatedTime: Option<int>, now: int): (r: Order)
    ensures r.items == o.items && r.customer == o.customer && r.total == o.total && r.userId == o.userId
    ensures status.Some? ==> r.status == status.value
    ensures status.None? ==> r.status == o.status
    ensures status == Some("preparing") && estimatedTime.Some? && estimatedTime.value != 0 ==>
              r.estimatedReadyAt == Some(now + estimatedTime.value * MINUTE_MS)
    ensures !(status == Some("preparing") && estimatedTime.Some? && estimatedTime.value != 0) ==>
              r.estimatedReadyAt == o.estimatedReadyAt
  {
    var s := if status.Some? then status.value else o.status;
    var ready := if status == Some("preparing") && estimatedTime.Some? && estimatedTime.value != 0
                 then Some(now + estimatedTime.value * MINUTE_MS) else o.estimatedReadyAt;
    o.(status := s, estimatedReadyAt := ready)
  }

  /** The answer of `PUT /api/orders/:id/status` once the token has been verified. */
  function UpdateStatusReply(orders: map<int, Order>, storeUp: bool, caller: Option<Claims>, idParam: string): (r: Reply)
    ensures r.code == 200 <==>
              RequireAdmin(caller).Next? && storeUp && ParseInt(idParam).Some? && ParseInt(idParam).value in orders
    ensures !RequireAdmin(caller).Next? ==> r == Reply(403, "Access denied. Admins only.")
    ensures r.code != 200 && RequireAdmin(caller).Next? ==> r == Reply(500, "Failed to update order")
  {
    if !RequireAdmin(caller).Next? then Reply(403, "Access denied. Admins only.")
    else if !storeUp || ParseInt(idParam).None? || ParseInt(idParam).value !in orders then
      Reply(500, "Failed to update order")
    else Reply(200, "")
  }

  // ---------------------------------------------------------------------------
  // Cancel

  /** The answer of `PUT /api/orders/:id/cancel` for an authenticated caller, in
      the order the handler checks: no user id, the store, the order's
      existence, ownership, and last the `pending` status. */
  function CancelReply(orders: map<int, Order>, storeUp: bool, caller: Claims, idParam: string): (r: Reply)
    ensures r.code == 200 <==>
              caller.userId != 0 && storeUp && ParseInt(idParam).Some? && ParseInt(idParam).value in orders &&
              orders[ParseInt(idParam).value].userId == Some(caller.userId) &&
              orders[ParseInt(idParam).value].status == "pending"
    ensures caller.userId == 0 ==> r == Reply(403, "Forbidden")
    ensures caller.userId != 0 && storeUp && ParseInt(idParam).Some? && ParseInt(idParam).value !in orders ==>
              r == Reply(404, "Order not found")
    ensures caller.userId != 0 && storeUp && ParseInt(idParam).Some? && ParseInt(idParam).value in orders &&
            orders[ParseInt(idParam).value].userId != Some(caller.userId) ==>
              r == Reply(403, "You can only cancel your own orders")
    ensures caller.userId != 0 && (!storeUp || ParseInt(idParam).None?) ==> r == Reply(500, "Failed to cancel order")
    ensures caller.userId != 0 && storeUp && ParseInt(idParam).Some? && ParseInt(idParam).value in orders &&
            orders[ParseInt(idParam).value].userId == Some(caller.userId) &&
            orders[ParseInt(idParam).value].status != "pending" ==>
              r == Reply(400, "Only pending orders can be cancelled")
    ensures r == Reply(400, "Only pending orders can be cancelled") ==>
              ParseInt(idParam).Some? && ParseInt(idParam).value in orders &&
              orders[ParseInt(idParam).value].userId == Some(caller.userId)
  {
    if caller.userId == 0 then Reply(403, "Forbidden")
    else if !storeUp || ParseInt(idParam).None? then Reply(500, "Failed to cancel order")
    else
      var id := ParseInt(idParam).value;
      if id !in orders then Reply(404, "Order not found")
      else if orders[id].userId != Some(caller.userId) then Reply(403, "You can only cancel your own orders")
      else if orders[id].status != "pending" then Reply(400, "Only pending orders can be cancelled")
      else Reply(200, "")
  }

  // ---------------------------------------------------------------------------
  // Delete

  /** The statuses in which an order may be deleted, compared in lower case. */
  predicate Deletable(status: string)
  {
    ToLower(status) in ["pending", "cancelled", "delivered"]
  }

  /** The answer of `DELETE /api/orders/:id`: ownership (unless ADMIN) is
      checked before the status. */
  function DeleteReply(orders: map<int, Order>, storeUp: bool, caller: Claims, idParam: string): (r: Reply)
    ensures r.code == 200 <==>
              caller.userId != 0 && storeUp && ParseInt(idParam).Some? && ParseInt(idParam).value in orders &&
              (caller.role == "ADMIN" || orders[ParseInt(idParam).value].userId == Some(caller.userId)) &&
              Deletable(orders[ParseInt(idParam).value].status)
    ensures caller.userId == 0 ==> r == Reply(403, "Forbidden")
    ensures caller.userId != 0 && storeUp && ParseInt(idParam).Some? && ParseInt(idParam).value in orders &&
            caller.role != "ADMIN" && orders[ParseInt(idParam).value].userId != Some(caller.userId) ==>
              r == Reply(403, "You are not authorized to delete this order")
    ensures caller.userId != 0 && (!storeUp || ParseInt(idParam).None?) ==> r == Reply(500, "Failed to delete order")
    ensures caller.userId != 0 && storeUp && ParseInt(idParam).Some? && ParseInt(idParam).value !in orders ==>
              r == Reply(404, "Order not found")
    ensures caller.userId != 0 && storeUp && ParseInt(idParam).Some? && ParseInt(idParam).value in orders &&
            (caller.role == "ADMIN" || orders[ParseInt(idParam).value].userId == Some(caller.userId)) &&
            !Deletable(orders[ParseInt(idParam).value].status) ==>
              r == Reply(400, "This order cannot be deleted in its current status")
    ensures r == Reply(400, "This order cannot be deleted in its current status") ==>
              ParseInt(idParam).Some? && ParseInt(idParam).value in orders &&
              !Deletable(orders[ParseInt(idParam).value].status)
  {
    if caller.userId == 0 then Reply(403, "Forbidden")
    else if !storeUp || ParseInt(idParam).None? then Reply(500, "Failed to delete order")
    else
      var id := ParseInt(idParam).value;
      if id !in orders then Reply(404, "Order not found")
      else if caller.role != "ADMIN" && orders[id].userId != Some(caller.userId) then
        Reply(403, "You are not authorized to delete this order")
      else if !Deletable(orders[id].status) then
        Reply(400, "This order cannot be deleted in its current status")
      else Reply(200, "")
  }

  /** Orders placed without a signed-in user can be deleted by an ADMIN only. */
  lemma GuestOrdersNeedAdmin(orders: map<int, Order>, caller: Claims, idParam: string)
    requires ParseInt(idParam).Some? && ParseInt(idParam).value in orders
    requires orders[ParseInt(idParam).value].userId.None?
    requires DeleteReply(orders, true, caller, idParam).code == 200
    ensures caller.role == "ADMIN"
  {
  }

  // ---------------------------------------------------------------------------
  // The ready sweep

  predicate IsDue(o: Order, now: int)
  {
    o.status == "preparing" && o.estimatedReadyAt.Some? && o.estimatedReadyAt.value <= now
  }

  /** The ids the sweep's query returns at `now`. */
  function DueIds(orders: map<int, Order>, now: int): (ids: set<int>)
    ensures forall id :: id in ids <==> id in orders && IsDue(orders[id], now)
  {
    set id | id in orders && IsDue(orders[id], now)
  }

  /** The table after the orders in `ids` have been set to `ready`. */
  function Promoted(orders: map<int, Order>, ids: set<int>): (r: map<int, Order>)
    ensures r.Keys == orders.Keys
    ensures forall id :: id in orders && id in ids ==> r[id] == orders[id].(status := "ready")
    ensures forall id :: id in orders && id !in ids ==> r[id] == orders[id]
  {
    map id | id in orders :: if id in ids then orders[id].(status := "ready") else orders[id]
  }

  /** One `ready` status email per promoted order, in promotion order. */
  function ReadyNotices(ids: seq<int>): (r: seq<Notice>)
    ensures |r| == |ids|
    ensures forall i :: 0 <= i < |ids| ==> r[i] == StatusChanged(ids[i], "ready")
  {
    if ids == [] then [] else ReadyNotices(ids[..|ids| - 1]) + [StatusChanged(ids[|ids| - 1], "ready")]
  }

  /** After a full sweep nothing is due any more at the same `now`, so a second
      sweep changes nothing. */
  lemma {:induction false} SweepIdempotent(orders: map<int, Order>, now: int)
    ensures DueIds(Promoted(orders, DueIds(orders, now)), now) == {}
    ensures Promoted(Promoted(orders, DueIds(orders, now)), {}) == Promoted(orders, DueIds(orders, now))
  {
    var after := Promoted(orders, DueIds(orders, now));
    forall id | id in after ensures !IsDue(after[id], now) {
      if id in DueIds(orders, now) {
        assert after[id].status == "ready";
      }
    }
  }

  /** The sweep moves `preparing` orders to `ready` and nothing else: every
      order it changes was due, and it touches no field other than the status. */
  lemma SweepOnlyPromotesDue(orders: map<int, Order>, ids: set<int>, now: int, id: int)
    requires ids <= DueIds(orders, now) && id in orders
    ensures Promoted(orders, ids)[id] != orders[id] ==>
              orders[id].status == "preparing" && Promoted(orders, ids)[id].status == "ready"
    ensures Promoted(orders, ids)[id].(status := orders[id].status) == orders[id]
  {
  }

  /** Some element of a non-empty set: the order the store returns rows in is not specified. */
  method Pick(s: set<int>) returns (x: int)
    requires s != {}
    ensures x in s
  {
    MemberOfNonEmpty(s);
    x :| x in s;
  }

  lemma MemberOfNonEmpty(s: set<int>)
    requires s != {}
    ensures exists x :: x in s
  {
    assert (forall x :: x !in s) ==> s == {};
  }

  function Members(ids: seq<int>): set<int>
  {
    set x | x in ids
  }

  /** Promoting one more order extends the promoted set, the table and the outbox by that order. */
  lemma {:induction false} SweepStep(orders: map<int, Order>, ids: seq<int>, id: int, due: set<int>, remaining: set<int>)
    requires due <= orders.Keys && remaining <= due && id in remaining
    requires Members(ids) == due - remaining
    ensures id in orders && id !in ids
    ensures var p := Promoted(orders, Members(ids));
            p[id := p[id].(status := "ready")] == Promoted(orders, Members(ids + [id]))
    ensures Members(ids + [id]) == due - (remaining - {id})
    ensures ReadyNotices(ids + [id]) == ReadyNotices(ids) + [StatusChanged(id, "ready")]
    ensures NoDuplicates(ids) ==> NoDuplicates(ids + [id])
  {
    assert Members(ids + [id]) == Members(ids) + {id};
    assert (ids + [id])[..|ids|] == ids;
  }

  /** A sweep that promoted every due order met no failing one. */
  lemma SweepFinished(promoted: seq<int>, due: set<int>, failing: set<int>)
    requires Members(promoted) == due
    requires forall id :: id in promoted ==> id !in failing
    ensures due * failing == {}
  {
    forall x | x in due ensures x !in failing {
      assert x in Members(promoted);
    }
  }

  // ---------------------------------------------------------------------------
  // The table

  class OrderTable {
    var orders: map<int, Order>
    var nextId: int
    var outbox: seq<Notice>

    ghost predicate Valid()
      reads this
    {
      nextId >= 1 && forall id :: id in orders ==> 1 <= id < nextId
    }

    constructor ()
      ensures Valid() && orders == map[] && outbox == []
    {
      orders := map[];
      nextId := 1;
      outbox := [];
    }

    /** `POST /api/orders`. */
    method PlaceOrder(items: Option<seq<OrderLine>>, customer: Option<Customer>, total: Option<int>,
                      header: Option<string>, verify: string -> Option<Claims>, storeUp: bool)
      returns (reply: Reply, orderId: Option<int>)
      requires Valid()
      modifies this
      ensures Valid()
      ensures MissingDetails(items, customer, total) ==>
                reply == Reply(400, "Missing order details") && orderId.None?
      ensures !MissingDetails(items, customer, total) && !storeUp ==>
                reply == Reply(500, "Failed to place order") && orderId.None?
      ensures orderId.None? ==>
                orders == old(orders) && nextId == old(nextId) && outbox == old(outbox)
      ensures !MissingDetails(items, customer, total) && storeUp ==>
                reply == Reply(201, "") && orderId == Some(old(nextId)) && old(nextId) !in old(orders) &&
                orders == old(orders)[old(nextId) := Order(items.value, customer.value, total.value, "pending",
                                                           Owner(header, verify), None)] &&
                outbox == old(outbox) + [Confirmation(old(nextId)), AdminAlert(old(nextId))]
    {
      if MissingDetails(items, customer, total) {
        return Reply(400, "Missing order details"), None;
      }
      var owner := Owner(header, verify);
      if !storeUp {
        return Reply(500, "Failed to place order"), None;
      }
      var id := nextId;
      orders := orders[id := Order(items.value, customer.value, total.value, "pending", owner, None)];
      nextId := nextId + 1;
      outbox := outbox + [Confirmation(id), AdminAlert(id)];
      reply, orderId := Reply(201, ""), Some(id);
    }

    /** `PUT /api/orders/:id/status` (admin only); no transition is refused. */
    method UpdateStatus(caller: Option<Claims>, idParam: string, status: Option<string>,
                        estimatedTime: Option<int>, now: int, storeUp: bool) returns (reply: Reply)
      requires Valid()
      modifies this
      ensures Valid()
      ensures reply == UpdateStatusReply(old(orders), storeUp, caller, idParam)
      ensures reply.code != 200 ==> orders == old(orders) && outbox == old(outbox)
      ensures reply.code == 200 ==>
                var id := ParseInt(idParam).value;
                var updated := StatusUpdated(old(orders)[id], status, estimatedTime, now);
                orders == old(orders)[id := updated] && outbox == old(outbox) + [StatusChanged(id, updated.status)]
      ensures nextId == old(nextId)
    {
      if !RequireAdmin(caller).Next? {
        return Reply(403, "Access denied. Admins only.");
      }
      var target := ParseInt(idParam);
      if !storeUp || target.None? || target.value !in orders {
        return Reply(500, "Failed to update order");
      }
      var id := target.value;
      var updated := StatusUpdated(orders[id], status, estimatedTime, now);
      orders := orders[id := updated];
      outbox := outbox + [StatusChanged(id, updated.status)];
      reply := Reply(200, "");
    }

    /** `PUT /api/orders/:id/cancel`: only the status changes and no email is sent. */
    method Cancel(caller: Claims, idParam: string, storeUp: bool) returns (reply: Reply)
      requires Valid()
      modifies this`orders
      ensures Valid()
      ensures reply == CancelReply(old(orders), storeUp, caller, idParam)
      ensures reply.code != 200 ==> orders == old(orders)
      ensures reply.code == 200 ==>
                var id := ParseInt(idParam).value;
                orders == old(orders)[id := old(orders)[id].(status := "cancelled")]
    {
      reply := CancelReply(orders, storeUp, caller, idParam);
      if reply.code == 200 {
        var id := ParseInt(idParam).value;
        orders := orders[id := orders[id].(status := "cancelled")];
      }
    }

    /** `DELETE /api/orders/:id`: on success exactly that order is gone. */
    method Delete(caller: Claims, idParam: string, storeUp: bool) returns (reply: Reply)
      requires Valid()
      modifies this`orders
      ensures Valid()
      ensures reply == DeleteReply(old(orders), storeUp, caller, idParam)
      ensures reply.code != 200 ==> orders == old(orders)
      ensures reply.code == 200 ==> orders == old(orders) - {ParseInt(idParam).value}
    {
      reply := DeleteReply(orders, storeUp, caller, idParam);
      if reply.code == 200 {
        orders := orders - {ParseInt(idParam).value};
      }
    }

    /** One tick of the 30-second interval at time `now`. The due orders are
        taken in an order the store chooses; an update that throws (an id in
        `failing`) ends the tick, leaving the orders not yet reached as they were. */
    method Sweep(now: int, failing: set<int>) returns (promoted: seq<int>, completed: bool)
      requires Valid()
      modifies this`orders, this`outbox
      ensures Valid()
      ensures NoDuplicates(promoted)
      ensures Members(promoted) <= DueIds(old(orders), now)
      ensures forall id :: id in promoted ==> id !in failing
      ensures completed <==> DueIds(old(orders), now) * failing == {}
      ensures completed ==> Members(promoted) == DueIds(old(orders), now)
      ensures orders == Promoted(old(orders), Members(promoted))
      ensures outbox == old(outbox) + ReadyNotices(promoted)
    {
      var due := DueIds(orders, now);
      var remaining := due;
      promoted, completed := [], true;
      while remaining != {}
        invariant remaining <= due <= old(orders).Keys
        invariant Members(promoted) == due - remaining
        invariant NoDuplicates(promoted)
        invariant forall id :: id in promoted ==> id !in failing
        invariant orders == Promoted(old(orders), Members(promoted))
        invariant outbox == old(outbox) + ReadyNotices(promoted)
        invariant completed
        decreases remaining
      {
        var id := Pick(remaining);
        if id in failing {
          assert id in due * failing;
          completed := false;
          break;
        }
        SweepStep(old(orders), promoted, id, due, remaining);
        orders := orders[id := orders[id].(status := "ready")];
        outbox := outbox + [StatusChanged(id, "ready")];
        promoted := promoted + [id];
        remaining := remaining - {id};
      }
      if completed {
        SweepFinished(promoted, due, failing);
      }
    }
  }

  /** An order placed by a signed-in customer can be cancelled by that customer,
      addressing it by the decimal id the client puts in the URL. */
  lemma {:induction false} OwnerCanCancelPlacedOrder(orders: map<int, Order>, id: nat, o: Order, caller: Claims)
    requires o.status == "pending" && o.userId == Some(caller.userId) && caller.userId != 0
    ensures CancelReply(orders[id := o], true, caller, DecimalString(id)) == Reply(200, "")
  {
    ParseDecimal(id);
  }

  /** A cancelled order can then be deleted by its owner. */
  lemma {:induction false} CancelledOrderDeletable(orders: map<int, Order>, caller: Claims, idParam: string)
    requires CancelReply(orders, true, caller, idParam).code == 200
    ensures var id := ParseInt(idParam).value;
            DeleteReply(orders[id := orders[id].(status := "cancelled")], true, caller, idParam).code == 200
  {
    var id := ParseInt(idParam).value;
    assert id in orders && orders[id].userId == Some(caller.userId);
    var after := orders[id := orders[id].(status := "cancelled")];
    LowerCaseFixed("cancelled");
    assert Deletable(after[id].status);
    assert after[id].userId == Some(caller.userId);
  }
}
