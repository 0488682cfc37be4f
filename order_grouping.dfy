/** `groupItems`, the helper the admin dashboard and the customer's order list
    share to show an order's lines: lines with the same menu id are merged into
    one entry whose quantity adds up the lines' quantities, a missing or zero
    quantity counting as 1. Also the one-line summary of an order's items in
    the customer's order list. */
module OrderGrouping {
  import opened JsRuntime
  import opened Entities

  /** `q || 1` on a stored quantity: absent and 0 are falsy. */
  function OrOne(q: Option<int>): (n: int)
    ensures n != 0
    ensures q.Some? && q.value != 0 ==> n == q.value
    ensures q.None? || q.value == 0 ==> n == 1
  {
    if q.Some? && q.value != 0 then q.value else 1
  }

  function LineIds(lines: seq<OrderLine>): (ids: seq<int>)
    ensures |ids| == |lines|
    ensures forall i :: 0 <= i < |lines| ==> ids[i] == lines[i].id
  {
    if lines == [] then [] else LineIds(lines[..|lines| - 1]) + [lines[|lines| - 1].id]
  }

  /** `acc.find(i => i.id === id)` as a position: the first entry with that id,
      or `|groups|` when there is none. */
  function Find(groups: seq<OrderLine>, id: int): (k: nat)
    ensures k <= |groups|
    ensures k < |groups| ==> groups[k].id == id
    ensures forall j :: 0 <= j < k ==> groups[j].id != id
  {
    if groups == [] then 0
    else if groups[0].id == id then 0
    else 1 + Find(groups[1..], id)
  }

  /** One step of the reduce: add to the entry already holding the id, or push
      a copy of the line carrying `quantity || 1`. */
  function Fold(groups: seq<OrderLine>, item: OrderLine): seq<OrderLine>
  {
    var k := Find(groups, item.id);
    if k < |groups| then
      groups[k := groups[k].(quantity := Some(OrOne(groups[k].quantity) + OrOne(item.quantity)))]
    else
      groups + [item.(quantity := Some(OrOne(item.quantity)))]
  }

  /** The reduce over the whole list, from the empty accumulator. */
  function Grouped(items: seq<OrderLine>): seq<OrderLine>
  {
    if items == [] then [] else Fold(Grouped(items[..|items| - 1]), items[|items| - 1])
  }

  /** `groupItems(items)`: the accumulator is a list the loop updates in place. */
  method GroupItems(items: seq<OrderLine>) returns (groups: seq<OrderLine>)
    ensures groups == Grouped(items)
  {
    groups := [];
    var i := 0;
    while i < |items|
      invariant 0 <= i <= |items|
      invariant groups == Grouped(items[..i])
    {
      var item := items[i];
      var k := 0;
      while k < |groups| && groups[k].id != item.id
        invariant 0 <= k <= |groups|
        invariant forall j :: 0 <= j < k ==> groups[j].id != item.id
      {
        k := k + 1;
      }
      assert k == Find(groups, item.id);
      if k < |groups| {
        groups := groups[k := groups[k].(quantity := Some(OrOne(groups[k].quantity) + OrOne(item.quantity)))];
      } else {
        groups := groups + [item.(quantity := Some(OrOne(item.quantity)))];
      }
      assert items[..i + 1][..i] == items[..i];
      i := i + 1;
    }
    assert items[..|items|] == items;
  }

  /** The sum of `quantity || 1` over the lines carrying this id. */
  function SumQuantity(items: seq<OrderLine>, id: int): int
  {
    if items == [] then 0
    else SumQuantity(items[..|items| - 1], id) +
         (if items[|items| - 1].id == id then OrOne(items[|items| - 1].quantity) else 0)
  }

  /** No line carries a negative quantity (a cart's lines never do). */
  predicate NoNegativeQuantity(items: seq<OrderLine>)
  {
    forall i :: 0 <= i < |items| ==> items[i].quantity.None? || items[i].quantity.value >= 0
  }

  lemma {:induction false} SumQuantitySign(items: seq<OrderLine>, id: int)
    ensures id !in LineIds(items) ==> SumQuantity(items, id) == 0
    ensures id in LineIds(items) && NoNegativeQuantity(items) ==> SumQuantity(items, id) >= 1
    decreases |items|
  {
    if items != [] {
      var p := items[..|items| - 1];
      SumQuantitySign(p, id);
      assert LineIds(items) == LineIds(p) + [items[|items| - 1].id];
      assert NoNegativeQuantity(items) ==> NoNegativeQuantity(p) by {
        if NoNegativeQuantity(items) {
          forall i | 0 <= i < |p| ensures p[i].quantity.None? || p[i].quantity.value >= 0 {
            assert p[i] == items[i];
          }
        }
      }
    }
  }

  /** The grouped list holds one entry per distinct id, in order of first appearance. */
  lemma {:induction false} GroupedIds(items: seq<OrderLine>)
    ensures LineIds(Grouped(items)) == UniqueInOrder(LineIds(items))
    ensures NoDuplicates(LineIds(Grouped(items)))
    decreases |items|
  {
    UniqueInOrderSpec(LineIds(items));
    if items != [] {
      var p := items[..|items| - 1];
      var x := items[|items| - 1];
      var g := Grouped(p);
      GroupedIds(p);
      assert LineIds(items) == LineIds(p) + [x.id];
      assert Grouped(items) == Fold(g, x);
      FoldIds(g, x);
    }
  }

  /** One step of the reduce keeps the ids of the accumulator and appends the
      line's id when it is new. */
  lemma {:induction false} FoldIds(g: seq<OrderLine>, x: OrderLine)
    ensures x.id in LineIds(g) ==> LineIds(Fold(g, x)) == LineIds(g)
    ensures x.id !in LineIds(g) ==> LineIds(Fold(g, x)) == LineIds(g) + [x.id]
  {
    var k := Find(g, x.id);
    var g' := Fold(g, x);
    if k < |g| {
      assert x.id in LineIds(g);
      assert forall j :: 0 <= j < |g| ==> g'[j].id == g[j].id;
      assert LineIds(g') == LineIds(g);
    } else {
      assert x.id !in LineIds(g);
      assert LineIds(g') == LineIds(g) + [x.id];
    }
  }

  /** Each entry is a copy of the first line with its id, only the quantity replaced. */
  lemma {:induction false} GroupedFields(items: seq<OrderLine>)
    ensures forall j :: 0 <= j < |Grouped(items)| ==>
              Grouped(items)[j].id in LineIds(items) &&
              Grouped(items)[j] == items[FirstIndex(LineIds(items), Grouped(items)[j].id)]
                                     .(quantity := Grouped(items)[j].quantity)
    decreases |items|
  {
    if items != [] {
      var p := items[..|items| - 1];
      var x := items[|items| - 1];
      var g := Grouped(p);
      GroupedFields(p);
      GroupedIds(p);
      var ids := LineIds(items);
      assert ids == LineIds(p) + [x.id];
      assert ids[..|items| - 1] == LineIds(p);
      var k := Find(g, x.id);
      var g' := Grouped(items);
      assert g' == Fold(g, x);
      forall j | 0 <= j < |g'|
        ensures g'[j].id in ids && g'[j] == items[FirstIndex(ids, g'[j].id)].(quantity := g'[j].quantity)
      {
        if j < |g| {
          assert g'[j].id == g[j].id && g[j].id in LineIds(p);
          FirstIndexOfPrefix(ids, |items| - 1, g[j].id);
          assert items[FirstIndex(LineIds(p), g[j].id)] == p[FirstIndex(LineIds(p), g[j].id)];
        } else {
          assert k == |g| && x.id !in LineIds(g);
          FirstIndexUnique(ids, x.id, |items| - 1);
        }
      }
    }
  }

  /** When no quantity is negative, an entry's quantity is the sum of its
      lines' quantities, a missing or zero quantity counted as 1. */
  lemma {:induction false} GroupedQuantities(items: seq<OrderLine>)
    requires NoNegativeQuantity(items)
    ensures forall j :: 0 <= j < |Grouped(items)| ==>
              Grouped(items)[j].quantity == Some(SumQuantity(items, Grouped(items)[j].id))
    decreases |items|
  {
    if items != [] {
      var p := items[..|items| - 1];
      var x := items[|items| - 1];
      NoNegativePrefix(items);
      GroupedQuantities(p);
      GroupedShape(p);
      assert items == p + [x];
      assert Grouped(items) == Fold(Grouped(p), x);
      FoldSums(p, x, Grouped(p));
    }
  }

  lemma {:induction false} NoNegativePrefix(items: seq<OrderLine>)
    requires NoNegativeQuantity(items) && items != []
    ensures NoNegativeQuantity(items[..|items| - 1])
    ensures items[|items| - 1].quantity.None? || items[|items| - 1].quantity.value >= 0
  {
    var p := items[..|items| - 1];
    forall i | 0 <= i < |p| ensures p[i].quantity.None? || p[i].quantity.value >= 0 {
      assert p[i] == items[i];
    }
  }

  /** The entries' ids are distinct and are exactly the lines' ids. */
  lemma {:induction false} GroupedShape(items: seq<OrderLine>)
    ensures NoDuplicates(LineIds(Grouped(items)))
    ensures forall id :: id in LineIds(Grouped(items)) <==> id in LineIds(items)
  {
    GroupedIds(items);
  }

  /** One reduce step keeps every entry's quantity equal to its sum. */
  lemma {:induction false} FoldSums(p: seq<OrderLine>, x: OrderLine, g: seq<OrderLine>)
    requires NoNegativeQuantity(p) && (x.quantity.None? || x.quantity.value >= 0)
    requires NoDuplicates(LineIds(g))
    requires forall id :: id in LineIds(g) <==> id in LineIds(p)
    requires forall j :: 0 <= j < |g| ==> g[j].quantity == Some(SumQuantity(p, g[j].id))
    ensures forall j :: 0 <= j < |Fold(g, x)| ==> Fold(g, x)[j].quantity == Some(SumQuantity(p + [x], Fold(g, x)[j].id))
  {
    if Find(g, x.id) < |g| {
      FoldMerges(g, x);
      assert LineIds(g)[Find(g, x.id)] == x.id;
      MergeSums(p, x, g, Find(g, x.id));
    } else {
      FoldAppends(g, x);
      assert x.id !in LineIds(g);
      AppendSums(p, x, g);
    }
  }

  /** A reduce step on an id already present adds to that entry... */
  lemma {:induction false} FoldMerges(g: seq<OrderLine>, x: OrderLine)
    ensures var k := Find(g, x.id);
            k < |g| ==> Fold(g, x) == g[k := g[k].(quantity := Some(OrOne(g[k].quantity) + OrOne(x.quantity)))]
  {
  }

  /** ...and one on a new id appends a copy of the line. */
  lemma {:induction false} FoldAppends(g: seq<OrderLine>, x: OrderLine)
    ensures Find(g, x.id) == |g| ==> Fold(g, x) == g + [x.(quantity := Some(OrOne(x.quantity)))]
  {
  }

  /** Adding the line to entry k, which holds its id, keeps every entry's sum. */
  lemma {:induction false} MergeSums(p: seq<OrderLine>, x: OrderLine, g: seq<OrderLine>, k: nat)
    requires NoNegativeQuantity(p) && x.id in LineIds(p)
    requires NoDuplicates(LineIds(g))
    requires forall j :: 0 <= j < |g| ==> g[j].quantity == Some(SumQuantity(p, g[j].id))
    requires k < |g| && g[k].id == x.id
    ensures var g' := g[k := g[k].(quantity := Some(OrOne(g[k].quantity) + OrOne(x.quantity)))];
            forall j :: 0 <= j < |g'| ==> g'[j].quantity == Some(SumQuantity(p + [x], g'[j].id))
  {
    MergedSum(p, x, SumQuantity(p, x.id));
    var g' := g[k := g[k].(quantity := Some(OrOne(g[k].quantity) + OrOne(x.quantity)))];
    forall j | 0 <= j < |g'| ensures g'[j].quantity == Some(SumQuantity(p + [x], g'[j].id)) {
      if j != k {
        OtherEntrySum(p, x, g, k, j);
      }
    }
  }

  /** An entry other than the one the line is added to keeps its sum. */
  lemma {:induction false} OtherEntrySum(p: seq<OrderLine>, x: OrderLine, g: seq<OrderLine>, k: nat, j: nat)
    requires k < |g| && j < |g| && j != k && g[k].id == x.id
    requires NoDuplicates(LineIds(g))
    requires g[j].quantity == Some(SumQuantity(p, g[j].id))
    ensures g[j].quantity == Some(SumQuantity(p + [x], g[j].id))
  {
    assert LineIds(g)[j] != LineIds(g)[k];
    UntouchedSum(p, x, g[j].id);
  }

  /** Appending a line with a new id keeps every entry's sum, its own included. */
  lemma {:induction false} AppendSums(p: seq<OrderLine>, x: OrderLine, g: seq<OrderLine>)
    requires x.quantity.None? || x.quantity.value >= 0
    requires x.id !in LineIds(p)
    requires forall j :: 0 <= j < |g| ==> g[j].id != x.id
    requires forall j :: 0 <= j < |g| ==> g[j].quantity == Some(SumQuantity(p, g[j].id))
    ensures var g' := g + [x.(quantity := Some(OrOne(x.quantity)))];
            forall j :: 0 <= j < |g'| ==> g'[j].quantity == Some(SumQuantity(p + [x], g'[j].id))
  {
    SumQuantitySign(p, x.id);
    assert (p + [x])[..|p|] == p;
    var g' := g + [x.(quantity := Some(OrOne(x.quantity)))];
    forall j | 0 <= j < |g'| ensures g'[j].quantity == Some(SumQuantity(p + [x], g'[j].id)) {
      if j < |g| {
        UntouchedSum(p, x, g[j].id);
      }
    }
  }

  /** A line with another id leaves an id's sum as it was. */
  lemma {:induction false} UntouchedSum(p: seq<OrderLine>, x: OrderLine, id: int)
    requires id != x.id
    ensures SumQuantity(p + [x], id) == SumQuantity(p, id)
  {
    assert (p + [x])[..|p|] == p;
  }

  /** Adding a line to an entry whose running total is the sum so far gives the new sum. */
  lemma {:induction false} MergedSum(p: seq<OrderLine>, x: OrderLine, before: int)
    requires NoNegativeQuantity(p) && x.id in LineIds(p) && before == SumQuantity(p, x.id)
    ensures OrOne(Some(before)) + OrOne(x.quantity) == SumQuantity(p + [x], x.id)
  {
    SumQuantitySign(p, x.id);
    assert (p + [x])[..|p|] == p;
  }

  /** The items cell of the customer's order list: the first entry's name, a
      space, then `+n more` for the n further entries when there are any. */
  function ItemsSummary(groups: seq<OrderLine>): (s: string)
    ensures |groups| <= 1 ==> s == (if groups == [] then "" else groups[0].name) + " "
    ensures |groups| > 1 ==> |s| >= |groups[0].name| + 7 && s[..|groups[0].name| + 2] == groups[0].name + " +"
  {
    (if groups == [] then "" else groups[0].name) + " " +
    (if |groups| > 1 then "+" + DecimalString(|groups| - 1) + " more" else "")
  }

  /** The count in the summary reads back as the number of entries not named. */
  lemma {:induction false} SummaryCount(groups: seq<OrderLine>)
    requires |groups| > 1
    ensures var s := ItemsSummary(groups);
            var n := |groups[0].name|;
            |s| >= n + 7 && s[|s| - 5..] == " more" && ParseInt(s[n + 2..|s| - 5]) == Some(|groups| - 1)
  {
    var s := ItemsSummary(groups);
    var n := |groups[0].name|;
    var d := DecimalString(|groups| - 1);
    assert s == groups[0].name + " +" + d + " more";
    assert s[n + 2..|s| - 5] == d;
    ParseDecimal(|groups| - 1);
  }
}
