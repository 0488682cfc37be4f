/** What the order tables show for each order. The customer's order list has
    the Cancel, Delete and countdown controls; the admin dashboard's table has
    the Delete control only. Both tables share the sort toggle of the column
    headers and the list of page buttons. Each control is tied to the server
    rule it anticipates. */
module OrderViews {
  import opened JsRuntime
  import opened Entities
  import opened Orders
  import Pagination

  /** An order as the client receives it: the fields these views look at. */
  datatype Card = Card(id: int, status: Option<string>, estimatedReadyAt: Option<int>)

  /** The card the client builds from a row of the order table. */
  function CardOf(id: int, o: Order): (c: Card)
    ensures c.id == id && c.status == Some(o.status) && c.estimatedReadyAt == o.estimatedReadyAt
  {
    Card(id, Some(o.status), o.estimatedReadyAt)
  }

  /** `order.status || ''`. */
  function StatusText(c: Card): string
  {
    if c.status.Some? then c.status.value else ""
  }

  /** The customer's Cancel button: the status is exactly `pending`. */
  predicate CancelShown(c: Card)
  {
    c.status == Some("pending")
  }

  /** The Delete button of both tables: the lower-cased status is one of the
      three deletable ones. */
  predicate DeleteShown(c: Card)
  {
    ToLower(StatusText(c)) in ["pending", "cancelled", "delivered"]
  }

  /** The countdown: status `preparing` with a ready time present. */
  predicate CountdownShown(c: Card)
  {
    c.status == Some("preparing") && c.estimatedReadyAt.Some?
  }

  /** For an order the caller may delete, the Delete button is shown exactly
      when the server's delete of that order succeeds. */
  lemma {:induction false} DeleteShownIffServerDeletes(orders: map<int, Order>, id: nat, caller: Claims)
    requires id in orders && caller.userId != 0
    requires caller.role == "ADMIN" || orders[id].userId == Some(caller.userId)
    ensures DeleteShown(CardOf(id, orders[id])) <==> DeleteReply(orders, true, caller, DecimalString(id)).code == 200
  {
    ParseDecimal(id);
  }

  /** For the owner of an order, the Cancel button is shown exactly when the
      server's cancel of that order succeeds. */
  lemma {:induction false} CancelShownIffServerCancels(orders: map<int, Order>, id: nat, caller: Claims)
    requires id in orders && caller.userId != 0 && orders[id].userId == Some(caller.userId)
    ensures CancelShown(CardOf(id, orders[id])) <==> CancelReply(orders, true, caller, DecimalString(id)).code == 200
  {
    ParseDecimal(id);
  }

  /** Wherever Cancel is shown, Delete is shown too. */
  lemma CancelShownThenDeleteShown(c: Card)
    requires CancelShown(c)
    ensures DeleteShown(c)
  {
    LowerCaseFixed("pending");
  }

  /** An order the admin moves to `preparing` with a non-zero time shows the
      countdown to `now` plus that many minutes. */
  lemma CountdownAfterPreparing(o: Order, id: int, minutes: int, now: int)
    requires minutes != 0
    ensures var c := CardOf(id, StatusUpdated(o, Some("preparing"), Some(minutes), now));
            CountdownShown(c) && c.estimatedReadyAt == Some(now + minutes * MINUTE_MS)
  {
  }

  /** An order the sweep has promoted shows no countdown any more. */
  lemma {:induction false} NoCountdownAfterSweep(orders: map<int, Order>, ids: set<int>, id: int)
    requires id in orders && id in ids
    ensures id in Promoted(orders, ids) && !CountdownShown(CardOf(id, Promoted(orders, ids)[id]))
  {
    assert Promoted(orders, ids)[id].status == "ready";
  }

  // ---------------------------------------------------------------------------
  // Sorting by a column header

  datatype SortOrder = Asc | Desc
  datatype Sort = Sort(column: string, order: SortOrder)

  /** `handleSort(field)`: the current field flips the direction, another field
      is selected in ascending order. */
  function HandleSort(s: Sort, field: string): (r: Sort)
    ensures r.column == field
    ensures s.column == field ==> r.order != s.order
    ensures s.column != field ==> r.order == Asc
  {
    if s.column == field then Sort(field, if s.order == Asc then Desc else Asc)
    else Sort(field, Asc)
  }

  /** Clicking the same header twice restores the sort; clicking a new header
      twice sorts it descending. */
  lemma SortTwice(s: Sort, field: string)
    ensures s.column == field ==> HandleSort(HandleSort(s, field), field) == s
    ensures s.column != field ==> HandleSort(HandleSort(s, field), field) == Sort(field, Desc)
  {
  }

  // ---------------------------------------------------------------------------
  // Page buttons

  /** The page numbers 1..n in order. */
  function PageRange(n: int): (r: seq<int>)
    ensures n <= 0 ==> r == []
    ensures n > 0 ==> |r| == n
    ensures forall i :: 0 <= i < |r| ==> r[i] == i + 1
  {
    if n <= 0 then [] else PageRange(n - 1) + [n]
  }

  /** The `Pagination` component: nothing at all for one page or fewer,
      otherwise one button per page, built by a counting loop. */
  method PageButtons(totalPages: int) returns (pages: Option<seq<int>>)
    ensures pages.None? <==> totalPages <= 1
    ensures pages.Some? ==> pages.value == PageRange(totalPages)
  {
    if totalPages <= 1 {
      return None;
    }
    var list: seq<int> := [];
    var i := 1;
    while i <= totalPages
      invariant 1 <= i <= totalPages + 1
      invariant list == PageRange(i - 1)
    {
      list := list + [i];
      i := i + 1;
    }
    pages := Some(list);
  }

  /** Whenever the buttons are shown, every row of the result has a button for
      the page it is on. */
  lemma {:induction false} EveryRowHasAButton(total: nat, limit: int, k: int)
    requires limit > 0 && 0 <= k < total && Pagination.TotalPages(total, limit) > 1
    ensures k / limit + 1 in PageRange(Pagination.TotalPages(total, limit))
  {
    Pagination.RowOnItsPage(total, limit, k);
    var r := PageRange(Pagination.TotalPages(total, limit));
    assert r[k / limit] == k / limit + 1;
  }
}
