/** The shopping cart of the client: the list state of client/src/App.tsx
    (append, splice, clear) and the grouping, total and submit guard of
    client/src/components/Cart.tsx. Prices are integer cents. */
module Cart {
  import opened JsRuntime
  import opened Entities
  import Orders

  // ---------------------------------------------------------------------------
  // The cart list

  /** `Array.prototype.splice(start, 1)` on a copy: a negative start counts from
      the end, a start past the end removes nothing. */
  function Spliced(xs: seq<MenuItem>, start: int): (r: seq<MenuItem>)
    ensures 0 <= start < |xs| ==> r == xs[..start] + xs[start + 1..]
    ensures start >= |xs| ==> r == xs
  {
    var from := if start < 0 then (if |xs| + start < 0 then 0 else |xs| + start)
                else if start > |xs| then |xs| else start;
    if from < |xs| then xs[..from] + xs[from + 1..] else xs
  }

  /** Removing at -1 drops the last item; below -length it drops the first. */
  lemma NegativeSplice(xs: seq<MenuItem>, start: int)
    requires xs != [] && start < 0
    ensures start >= -|xs| ==> Spliced(xs, start) == Spliced(xs, |xs| + start)
    ensures start < -|xs| ==> Spliced(xs, start) == xs[1..]
  {
  }

  /** Adding an item and removing the last position gives the list back. */
  lemma AddThenRemoveLast(xs: seq<MenuItem>, item: MenuItem)
    ensures Spliced(xs + [item], |xs|) == xs
    ensures Spliced(xs + [item], -1) == xs
  {
    assert (xs + [item])[..|xs|] == xs;
  }

  /** The `cartItems` and `isCartOpen` state of the application. */
  class CartState {
    var items: seq<MenuItem>
    var isOpen: bool

    constructor ()
      ensures items == [] && !isOpen
    {
      items := [];
      isOpen := false;
    }

    /** `addToCart`: the item goes last and the cart opens. */
    method AddToCart(item: MenuItem)
      modifies this
      ensures items == old(items) + [item] && isOpen
      ensures |items| == |old(items)| + 1
    {
      items := items + [item];
      isOpen := true;
    }

    /** `removeFromCart(index)`. */
    method RemoveFromCart(index: int)
      modifies this`items
      ensures items == Spliced(old(items), index)
      ensures 0 <= index < |old(items)| ==> |items| == |old(items)| - 1
    {
      items := Spliced(items, index);
    }

    /** `clearCart`. */
    method ClearCart()
      modifies this`items
      ensures items == []
    {
      items := [];
    }
  }

  // ---------------------------------------------------------------------------
  // Counting

  function IdsOf(items: seq<MenuItem>): (ids: seq<nat>)
    ensures |ids| == |items|
    ensures forall i :: 0 <= i < |items| ==> ids[i] == items[i].id
  {
    if items == [] then [] else IdsOf(items[..|items| - 1]) + [items[|items| - 1].id]
  }

  /** How often an item with this id is in the list. */
  function Count(items: seq<MenuItem>, id: nat): nat
  {
    if items == [] then 0
    else Count(items[..|items| - 1], id) + (if items[|items| - 1].id == id then 1 else 0)
  }

  lemma {:induction false} CountConcat(a: seq<MenuItem>, b: seq<MenuItem>, id: nat)
    ensures Count(a + b, id) == Count(a, id) + Count(b, id)
    decreases |b|
  {
    if b == [] {
      assert a + b == a;
    } else {
      assert (a + b)[..|a + b| - 1] == a + b[..|b| - 1];
      assert (a + b)[|a + b| - 1] == b[|b| - 1];
      CountConcat(a, b[..|b| - 1], id);
    }
  }

  lemma {:induction false} CountAbsent(items: seq<MenuItem>, id: nat)
    requires id !in IdsOf(items)
    ensures Count(items, id) == 0
    decreases |items|
  {
    if items != [] {
      var p := items[..|items| - 1];
      assert IdsOf(items) == IdsOf(p) + [items[|items| - 1].id];
      CountAbsent(p, id);
    }
  }

  /** `items.findIndex(i => i.id === id)` for an id in the list. */
  function MinusIndex(items: seq<MenuItem>, id: nat): (k: nat)
    requires id in IdsOf(items)
    ensures k < |items| && items[k].id == id
    ensures forall j :: 0 <= j < k ==> items[j].id != id
  {
    var k := FirstIndex(IdsOf(items), id);
    FirstIndexBefore(IdsOf(items), id);
    k
  }

  lemma FirstIndexBefore(xs: seq<nat>, x: nat)
    requires x in xs
    ensures forall j :: 0 <= j < FirstIndex(xs, x) ==> xs[j] != x
  {
    var k := FirstIndex(xs, x);
    forall j | 0 <= j < k ensures xs[j] != x {
      assert xs[..k][j] == xs[j];
    }
  }

  /** Removing the item at position k lowers the count of its id by one and
      leaves every other id's count as it was. */
  lemma {:induction false} SplicedCount(items: seq<MenuItem>, k: nat, id: nat)
    requires k < |items|
    ensures Count(Spliced(items, k), id) == Count(items, id) - (if items[k].id == id then 1 else 0)
  {
    var a, b := items[..k], items[k + 1..];
    assert items == (a + [items[k]]) + b;
    assert Spliced(items, k) == a + b;
    CountConcat(a + [items[k]], b, id);
    CountConcat(a, [items[k]], id);
    CountConcat(a, b, id);
    assert Count([items[k]], id) == (if items[k].id == id then 1 else 0) by {
      assert [items[k]][..0] == [];
    }
  }

  /** The minus button of a line lowers that line's quantity by one and leaves
      every other line's quantity as it was. */
  lemma {:induction false} MinusButton(items: seq<MenuItem>, id: nat, other: nat)
    requires id in IdsOf(items) && other != id
    ensures Count(Spliced(items, MinusIndex(items, id)), id) == Count(items, id) - 1
    ensures Count(Spliced(items, MinusIndex(items, id)), other) == Count(items, other)
  {
    var k := MinusIndex(items, id);
    SplicedCount(items, k, id);
    SplicedCount(items, k, other);
  }

  // ---------------------------------------------------------------------------
  // Grouping

  datatype CartLine = CartLine(item: MenuItem, quantity: nat)

  /** One step of the reduce: create the entry with quantity 0 when absent, then add one. */
  function Bump(acc: map<nat, CartLine>, item: MenuItem): map<nat, CartLine>
  {
    var base := if item.id in acc then acc else acc[item.id := CartLine(item, 0)];
    base[item.id := base[item.id].(quantity := base[item.id].quantity + 1)]
  }

  lemma BumpEntry(acc: map<nat, CartLine>, x: MenuItem, k: nat)
    ensures k in Bump(acc, x) <==> k in acc || k == x.id
    ensures k == x.id && k in acc ==> Bump(acc, x)[k] == acc[k].(quantity := acc[k].quantity + 1)
    ensures k == x.id && k !in acc ==> Bump(acc, x)[k] == CartLine(x, 1)
    ensures k != x.id && k in acc ==> Bump(acc, x)[k] == acc[k]
  {
  }

  /** The record `groupedItems`, keyed by id. */
  function GroupMap(items: seq<MenuItem>): map<nat, CartLine>
  {
    if items == [] then map[] else Bump(GroupMap(items[..|items| - 1]), items[|items| - 1])
  }

  lemma {:induction false} IdsOfPrefix(items: seq<MenuItem>)
    requires items != []
    ensures IdsOf(items) == IdsOf(items[..|items| - 1]) + [items[|items| - 1].id]
    ensures IdsOf(items)[..|items| - 1] == IdsOf(items[..|items| - 1])
  {
  }

  /** The record has a key for exactly the ids in the list. */
  lemma {:induction false} GroupMapKeys(items: seq<MenuItem>)
    ensures forall k :: k in GroupMap(items) <==> k in IdsOf(items)
    decreases |items|
  {
    if items != [] {
      GroupMapKeys(items[..|items| - 1]);
      IdsOfPrefix(items);
    }
  }

  /** The entry of an id is a copy of the first item with that id, with the
      number of times the id occurs. */
  lemma {:induction false} GroupMapEntry(items: seq<MenuItem>, k: nat)
    requires k in IdsOf(items)
    ensures k in GroupMap(items)
    ensures GroupMap(items)[k].quantity == Count(items, k)
    ensures GroupMap(items)[k].item == items[FirstIndex(IdsOf(items), k)]
    decreases |items|
  {
    var n := |items|;
    var p := items[..n - 1];
    var x := items[n - 1];
    var ids := IdsOf(items);
    IdsOfPrefix(items);
    GroupMapKeys(p);
    assert GroupMap(items) == Bump(GroupMap(p), x);
    BumpEntry(GroupMap(p), x, k);
    assert Count(items, k) == Count(p, k) + (if x.id == k then 1 else 0);
    if k in IdsOf(p) {
      GroupMapEntry(p, k);
      FirstIndexOfPrefix(ids, n - 1, k);
      assert items[FirstIndex(IdsOf(p), k)] == p[FirstIndex(IdsOf(p), k)];
    } else {
      assert k == x.id;
      CountAbsent(p, k);
      FirstIndexUnique(ids, k, n - 1);
    }
  }

  predicate IsMin(m: nat, s: set<nat>)
  {
    m in s && forall k :: k in s ==> m <= k
  }

  /** The smallest element of a non-empty set of keys. */
  function MinKey(s: set<nat>): (m: nat)
    requires s != {}
    ensures m in s && forall k :: k in s ==> m <= k
  {
    MinExists(s);
    var m :| IsMin(m, s); m
  }

  lemma {:induction false} MinExists(s: set<nat>)
    requires s != {}
    ensures exists m :: IsMin(m, s)
    decreases |s|
  {
    assert (forall x :: x !in s) ==> s == {};
    var x :| x in s;
    var rest := s - {x};
    assert forall k :: k in s ==> k == x || k in rest;
    if rest == {} {
      assert IsMin(x, s);
    } else {
      MinExists(rest);
      var m :| IsMin(m, rest);
      if x < m {
        assert IsMin(x, s);
      } else {
        assert IsMin(m, s);
      }
    }
  }

  /** Integer keys of a record in the order `Object.values` visits them: ascending. */
  function AscendingKeys(s: set<nat>): (ks: seq<nat>)
    ensures forall k :: k in ks <==> k in s
    ensures forall a, b :: 0 <= a < b < |ks| ==> ks[a] < ks[b]
    decreases s
  {
    if s == {} then []
    else
      var m := MinKey(s);
      [m] + AscendingKeys(s - {m})
  }

  function LookupAll(m: map<nat, CartLine>, ks: seq<nat>): (r: seq<CartLine>)
    requires forall k :: k in ks ==> k in m
    ensures |r| == |ks| && forall j :: 0 <= j < |ks| ==> r[j] == m[ks[j]]
  {
    if ks == [] then [] else [m[ks[0]]] + LookupAll(m, ks[1..])
  }

  /** `Object.values(groupedItems)`. */
  function ObjectValues(m: map<nat, CartLine>): seq<CartLine>
  {
    LookupAll(m, AscendingKeys(m.Keys))
  }

  /** `cartItems`: the grouped lines as the cart lists and sends them. */
  function Grouped(items: seq<MenuItem>): seq<CartLine>
  {
    ObjectValues(GroupMap(items))
  }

  /** The reduce of Cart.tsx over the record, then `Object.values`. */
  method GroupCart(items: seq<MenuItem>) returns (lines: seq<CartLine>)
    ensures lines == Grouped(items)
  {
    var acc: map<nat, CartLine> := map[];
    var i := 0;
    while i < |items|
      invariant 0 <= i <= |items|
      invariant acc == GroupMap(items[..i])
    {
      var item := items[i];
      assert items[..i + 1][..i] == items[..i];
      if item.id !in acc {
        acc := acc[item.id := CartLine(item, 0)];
      }
      acc := acc[item.id := acc[item.id].(quantity := acc[item.id].quantity + 1)];
      i := i + 1;
    }
    assert items[..i] == items;
    lines := ObjectValues(acc);
  }

  /** The lines come in ascending id order, one per distinct id of the cart,
      each a copy of the first item with that id, counting its occurrences. */
  lemma {:induction false} GroupedSpec(items: seq<MenuItem>)
    ensures var lines := Grouped(items);
            (forall a, b :: 0 <= a < b < |lines| ==> lines[a].item.id < lines[b].item.id) &&
            (forall k :: (exists j :: 0 <= j < |lines| && lines[j].item.id == k) <==> k in IdsOf(items)) &&
            (forall j :: 0 <= j < |lines| ==> lines[j].quantity == Count(items, lines[j].item.id)) &&
            (forall j :: 0 <= j < |lines| ==> lines[j].item == items[FirstIndex(IdsOf(items), lines[j].item.id)])
  {
    var m := GroupMap(items);
    GroupMapKeys(items);
    var ks := AscendingKeys(m.Keys);
    var lines := Grouped(items);
    var ids := IdsOf(items);
    forall j | 0 <= j < |lines|
      ensures lines[j].item.id == ks[j] && lines[j].quantity == Count(items, ks[j])
      ensures lines[j].item == items[FirstIndex(ids, ks[j])]
    {
      assert lines[j] == m[ks[j]];
      GroupMapEntry(items, ks[j]);
      assert ids[FirstIndex(ids, ks[j])] == ks[j];
    }
    forall k | k in ids ensures exists j :: 0 <= j < |lines| && lines[j].item.id == k {
      var j :| 0 <= j < |ks| && ks[j] == k;
      assert lines[j].item.id == k;
    }
  }

  // ---------------------------------------------------------------------------
  // Totals

  /** `items.reduce((sum, item) => sum + item.price, 0)`. */
  function Total(items: seq<MenuItem>): int
  {
    if items == [] then 0 else Total(items[..|items| - 1]) + items[|items| - 1].price
  }

  /** Σ price × quantity over the grouped lines. */
  function LineTotal(lines: seq<CartLine>): int
  {
    if lines == [] then 0 else lines[0].item.price * lines[0].quantity + LineTotal(lines[1..])
  }

  function QuantitySum(lines: seq<CartLine>): int
  {
    if lines == [] then 0 else lines[0].quantity + QuantitySum(lines[1..])
  }

  /** Σ over keys of weight × occurrences, with one weight per id. */
  function WeightedCounts(ks: seq<nat>, items: seq<MenuItem>, w: nat -> int): int
  {
    if ks == [] then 0 else w(ks[0]) * Count(items, ks[0]) + WeightedCounts(ks[1..], items, w)
  }

  function SumBy(items: seq<MenuItem>, f: MenuItem -> int): int
  {
    if items == [] then 0 else SumBy(items[..|items| - 1], f) + f(items[|items| - 1])
  }

  lemma {:induction false} WeightedCountsEmpty(ks: seq<nat>, w: nat -> int)
    ensures WeightedCounts(ks, [], w) == 0
    decreases |ks|
  {
    if ks != [] {
      WeightedCountsEmpty(ks[1..], w);
    }
  }

  lemma {:induction false} WeightedCountsPeel(ks: seq<nat>, p: seq<MenuItem>, x: MenuItem, w: nat -> int)
    requires NoDuplicates(ks)
    ensures WeightedCounts(ks, p + [x], w) == WeightedCounts(ks, p, w) + (if x.id in ks then w(x.id) else 0)
    decreases |ks|
  {
    if ks != [] {
      assert (p + [x])[..|p + [x]| - 1] == p;
      var k := ks[0];
      assert Count(p + [x], k) == Count(p, k) + (if x.id == k then 1 else 0);
      assert NoDuplicates(ks[1..]) by {
        forall a, b | 0 <= a < b < |ks[1..]| ensures ks[1..][a] != ks[1..][b] {
          assert ks[1..][a] == ks[a + 1] && ks[1..][b] == ks[b + 1];
        }
      }
      WeightedCountsPeel(ks[1..], p, x, w);
      if x.id == k {
        assert x.id !in ks[1..];
        assert w(k) * (Count(p, k) + 1) == w(k) * Count(p, k) + w(k);
      } else {
        assert x.id in ks <==> x.id in ks[1..];
      }
    }
  }

  /** Summing per id (weight × occurrences) over any duplicate-free list of
      keys that covers the ids equals summing item by item. */
  lemma {:induction false} WeightedCountsSum(ks: seq<nat>, items: seq<MenuItem>, w: nat -> int, f: MenuItem -> int)
    requires NoDuplicates(ks)
    requires forall i :: 0 <= i < |items| ==> items[i].id in ks && w(items[i].id) == f(items[i])
    ensures WeightedCounts(ks, items, w) == SumBy(items, f)
    decreases |items|
  {
    if items == [] {
      WeightedCountsEmpty(ks, w);
    } else {
      var p := items[..|items| - 1];
      var x := items[|items| - 1];
      assert items == p + [x];
      WeightedCountsSum(ks, p, w, f);
      WeightedCountsPeel(ks, p, x, w);
    }
  }

  lemma {:induction false} LinesAsWeightedCounts(m: map<nat, CartLine>, ks: seq<nat>, items: seq<MenuItem>, w: nat -> int)
    requires forall k :: k in ks ==> k in m && m[k].quantity == Count(items, k) && w(k) == m[k].item.price
    ensures LineTotal(LookupAll(m, ks)) == WeightedCounts(ks, items, w)
    ensures QuantitySum(LookupAll(m, ks)) == WeightedCounts(ks, items, _ => 1)
    decreases |ks|
  {
    if ks != [] {
      LinesAsWeightedCounts(m, ks[1..], items, w);
      assert LookupAll(m, ks)[1..] == LookupAll(m, ks[1..]);
    }
  }

  lemma {:induction false} SumOfOnes(items: seq<MenuItem>)
    ensures SumBy(items, _ => 1) == |items|
    decreases |items|
  {
    if items != [] {
      SumOfOnes(items[..|items| - 1]);
    }
  }

  lemma {:induction false} TotalIsSumOfPrices(items: seq<MenuItem>)
    ensures Total(items) == SumBy(items, (it: MenuItem) => it.price)
    decreases |items|
  {
    if items != [] {
      TotalIsSumOfPrices(items[..|items| - 1]);
    }
  }

  /** Items with the same id carry the same price (they are the same menu item). */
  predicate ConsistentPrices(items: seq<MenuItem>)
  {
    forall i, j :: 0 <= i < |items| && 0 <= j < |items| && items[i].id == items[j].id ==> items[i].price == items[j].price
  }

  /** The quantities add up to the number of items; and when equal ids have
      equal prices, the grouped lines cost what the cart total says. */
  lemma {:induction false} GroupedTotals(items: seq<MenuItem>)
    ensures QuantitySum(Grouped(items)) == |items|
    ensures ConsistentPrices(items) ==> LineTotal(Grouped(items)) == Total(items)
  {
    var m := GroupMap(items);
    GroupMapKeys(items);
    var ks := AscendingKeys(m.Keys);
    var w := (k: nat) => if k in m then m[k].item.price else 0;
    var ids := IdsOf(items);
    assert NoDuplicates(ks);
    forall k | k in ks ensures k in m && m[k].quantity == Count(items, k) && w(k) == m[k].item.price {
      GroupMapEntry(items, k);
    }
    LinesAsWeightedCounts(m, ks, items, w);
    forall i | 0 <= i < |items| ensures items[i].id in ks {
      assert ids[i] == items[i].id;
    }
    WeightedCountsSum(ks, items, _ => 1, _ => 1);
    SumOfOnes(items);
    if ConsistentPrices(items) {
      forall i | 0 <= i < |items| ensures w(items[i].id) == items[i].price {
        var k := items[i].id;
        assert ids[i] == k;
        GroupMapEntry(items, k);
        var f := FirstIndex(ids, k);
        assert m[k].item == items[f] && items[f].id == k;
      }
      WeightedCountsSum(ks, items, w, (it: MenuItem) => it.price);
      TotalIsSumOfPrices(items);
    }
  }

  // ---------------------------------------------------------------------------
  // Submitting

  datatype OrderPayload = OrderPayload(items: seq<OrderLine>, total: int, customer: Customer)

  function ToOrderLine(l: CartLine): OrderLine
  {
    OrderLine(l.item.id, l.item.name, l.item.price, Some(l.quantity))
  }

  function ToOrderLines(lines: seq<CartLine>): (r: seq<OrderLine>)
    ensures |r| == |lines| && forall j :: 0 <= j < |lines| ==> r[j] == ToOrderLine(lines[j])
  {
    if lines == [] then [] else [ToOrderLine(lines[0])] + ToOrderLines(lines[1..])
  }

  /** `handleSubmit`: an empty cart sends nothing; otherwise the grouped lines,
      the total and the customer details. */
  function Submit(items: seq<MenuItem>, customer: Customer): (p: Option<OrderPayload>)
    ensures p.None? <==> items == []
    ensures p.Some? ==> p.value.total == Total(items) && p.value.customer == customer &&
                        p.value.items == ToOrderLines(Grouped(items))
  {
    if |items| == 0 then None
    else Some(OrderPayload(ToOrderLines(Grouped(items)), Total(items), customer))
  }

  /** The order lines sent: one per distinct id of the cart, in ascending id
      order, each with that id's number of occurrences as its quantity. */
  lemma {:induction false} SubmittedLines(items: seq<MenuItem>, customer: Customer)
    requires items != []
    ensures var lines := Submit(items, customer).value.items;
            (forall a, b :: 0 <= a < b < |lines| ==> lines[a].id < lines[b].id) &&
            (forall k: nat :: (exists j :: 0 <= j < |lines| && lines[j].id == k) <==> k in IdsOf(items)) &&
            (forall j :: 0 <= j < |lines| ==> lines[j].id >= 0 && lines[j].quantity == Some(Count(items, lines[j].id)))
  {
    GroupedSpec(items);
  }

  /** The server turns a submitted cart away as incomplete exactly when its total is zero. */
  lemma SubmittedCartAccepted(items: seq<MenuItem>, customer: Customer)
    requires items != []
    ensures var p := Submit(items, customer).value;
            Orders.MissingDetails(Some(p.items), Some(p.customer), Some(p.total)) <==> Total(items) == 0
  {
  }
}
