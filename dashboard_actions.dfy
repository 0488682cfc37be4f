/** The admin and support dashboards' actions: the promote toggle, the
    confirmation dialog that every destructive action goes through, the
    admin's guard against deleting their own account, and the support
    dashboard's order query and cancel button. */
module DashboardActions {
  import opened JsRuntime
  import opened Entities
  import opened AuthMiddleware
  import opened Orders
  import opened OrderViews
  import Pagination

  // ---------------------------------------------------------------------------
  // Promote

  /** `handlePromoteUser`: the role the button asks for. */
  function NewRole(currentRole: string): (r: string)
    ensures r == "CUSTOMER" <==> currentRole == "ADMIN"
    ensures r == "ADMIN" <==> currentRole != "ADMIN"
  {
    if currentRole == "ADMIN" then "CUSTOMER" else "ADMIN"
  }

  /** Pressing promote twice restores exactly the two roles it toggles
      between; a staff account pressed twice ends up a customer. Every role
      it asks for is one the store accepts. */
  lemma {:induction false} PromoteTwice(role: string)
    ensures NewRole(NewRole(role)) == role <==> role == "ADMIN" || role == "CUSTOMER"
    ensures role != "ADMIN" ==> NewRole(NewRole(role)) == "CUSTOMER"
    ensures ParseRole(NewRole(role)).Some?
  {
    ParseRoleName(ADMIN);
    ParseRoleName(CUSTOMER);
  }

  // ---------------------------------------------------------------------------
  // The confirmation dialog

  /** The request an `onConfirm` callback sends. */
  datatype Action =
    | DeleteMenuItem(id: int)
    | DeleteCategory(id: int)
    | DeleteUser(id: int)
    | DeleteOrder(id: int)
    | CancelOrder(id: int)

  /** `[a]` for a callback that sends `a`, `[]` for the initial no-op. */
  function Sends(callback: Option<Action>): (r: seq<Action>)
    ensures callback.None? ==> r == []
    ensures callback.Some? ==> r == [callback.value]
  {
    if callback.Some? then [callback.value] else []
  }

  /** The `confirmModal` state of a dashboard together with the requests its
      callbacks have sent so far. */
  class ConfirmDialog {
    var isOpen: bool
    var onConfirm: Option<Action>
    var sent: seq<Action>

    constructor ()
      ensures !isOpen && onConfirm.None? && sent == []
    {
      isOpen := false;
      onConfirm := None;
      sent := [];
    }

    /** `setConfirmModal({isOpen: true, ..., onConfirm})`. */
    method Open(a: Action)
      modifies this
      ensures isOpen && onConfirm == Some(a) && sent == old(sent)
    {
      isOpen := true;
      onConfirm := Some(a);
    }

    /** The Confirm button, only rendered while the dialog is open: run the
        callback, then close, keeping the callback. */
    method Confirm()
      requires isOpen
      modifies this
      ensures !isOpen && onConfirm == old(onConfirm)
      ensures sent == old(sent) + Sends(old(onConfirm))
    {
      sent := sent + Sends(onConfirm);
      isOpen := false;
    }

    /** The Cancel button or a click outside: close without running anything. */
    method Cancel()
      modifies this
      ensures !isOpen && onConfirm == old(onConfirm) && sent == old(sent)
    {
      isOpen := false;
    }
  }

  /** No request to delete the account `me` is armed or has been sent. */
  predicate SparesAccount(d: ConfirmDialog, me: int)
    reads d
  {
    d.onConfirm != Some(DeleteUser(me)) && DeleteUser(me) !in d.sent
  }

  /** `handleDeleteUser(id)`: the signed-in admin's own id is refused on the
      spot and nothing else happens; any other id arms the dialog. Every
      dialog that spares the admin's account still does afterwards. */
  method RequestUserDelete(d: ConfirmDialog, me: Option<int>, id: int) returns (refused: bool)
    modifies d
    ensures refused <==> me == Some(id)
    ensures refused ==> d.isOpen == old(d.isOpen) && d.onConfirm == old(d.onConfirm) && d.sent == old(d.sent)
    ensures !refused ==> d.isOpen && d.onConfirm == Some(DeleteUser(id)) && d.sent == old(d.sent)
    ensures me.Some? && old(SparesAccount(d, me.value)) ==> SparesAccount(d, me.value)
  {
    if me == Some(id) {
      return true;
    }
    d.Open(DeleteUser(id));
    refused := false;
  }

  /** Confirming keeps an admin's account safe as well. */
  method ConfirmSpares(d: ConfirmDialog, me: int)
    requires d.isOpen && SparesAccount(d, me)
    modifies d
    ensures SparesAccount(d, me)
    ensures d.sent == old(d.sent) + Sends(old(d.onConfirm))
  {
    d.Confirm();
  }

  // ---------------------------------------------------------------------------
  // The support dashboard

  /** The query string of `fetchOrders(1, 50, searchTerm)`: an empty search
      term is left out. */
  datatype ListQuery = ListQuery(page: string, limit: string, search: Option<string>)

  function SupportQuery(searchTerm: string): (q: ListQuery)
    ensures q.search.Some? <==> searchTerm != ""
    ensures q.search.Some? ==> q.search.value == searchTerm
  {
    ListQuery("1", "50", if searchTerm != "" then Some(searchTerm) else None)
  }

  /** The list route reads that query as the first 50 rows. */
  lemma {:induction false} SupportWindow(searchTerm: string)
    ensures var q := SupportQuery(searchTerm);
            Pagination.PageWindow(Some(q.page), Some(q.limit), Pagination.DEFAULT_LIMIT) == Pagination.Window(1, 50, 0)
  {
    assert DecimalString(1) == "1";
    ParseDecimal(1);
    assert DecimalString(5) == ['5'];
    assert DecimalString(50) == "50";
    ParseDecimal(50);
  }

  /** The order list and status routes are admin-only, so a support account is
      turned away by them. */
  lemma SupportNeedsAdminRoutes(caller: Claims)
    requires caller.role == RoleName(CUSTOMER_SUPPORT)
    ensures RequireAdmin(Some(caller)) == Respond(403, "Access denied. Admins only.")
  {
  }

  /** The support Cancel button: the status is neither `cancelled` nor `delivered`. */
  predicate SupportCancelShown(c: Card)
  {
    c.status != Some("cancelled") && c.status != Some("delivered")
  }

  /** The button calls the customer's cancel route, which succeeds exactly for
      a pending order the support account itself placed. */
  lemma {:induction false} SupportCancelOutcome(orders: map<int, Order>, caller: Claims, id: nat)
    requires id in orders && caller.userId != 0
    ensures CancelReply(orders, true, caller, DecimalString(id)).code == 200 <==>
              orders[id].userId == Some(caller.userId) && orders[id].status == "pending"
  {
    ParseDecimal(id);
  }

  /** The button is offered on an order being prepared, but the route refuses it:
      400 for the support account's own order, 403 for anyone else's. */
  lemma {:induction false} ShownButRefused(orders: map<int, Order>, caller: Claims, id: nat)
    requires id in orders && caller.userId != 0 && orders[id].status == "preparing"
    ensures SupportCancelShown(CardOf(id, orders[id]))
    ensures orders[id].userId == Some(caller.userId) ==>
              CancelReply(orders, true, caller, DecimalString(id)) == Reply(400, "Only pending orders can be cancelled")
    ensures orders[id].userId != Some(caller.userId) ==>
              CancelReply(orders, true, caller, DecimalString(id)) == Reply(403, "You can only cancel your own orders")
  {
    ParseDecimal(id);
  }
}
