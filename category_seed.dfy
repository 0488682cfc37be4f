/** The category part of `seedMenu` in server/src/index.ts: when the category
    table is empty, one category per distinct `item.category || 'General'` of
    the menu, created in order of first appearance. */
module CategorySeed {
  import opened JsRuntime
  import opened Entities

  /** `i.category || 'General'`. */
  function CategoryOf(item: MenuItem): (c: string)
    ensures c != ""
    ensures item.category.Some? && item.category.value != "" ==> c == item.category.value
  {
    if item.category.Some? && item.category.value != "" then item.category.value else "General"
  }

  function Categories(items: seq<MenuItem>): (cs: seq<string>)
    ensures |cs| == |items|
    ensures forall i :: 0 <= i < |items| ==> cs[i] == CategoryOf(items[i])
  {
    if items == [] then [] else [CategoryOf(items[0])] + Categories(items[1..])
  }

  /** `[...new Set(items.map(...))]`. */
  function CategoryNames(items: seq<MenuItem>): seq<string>
  {
    UniqueInOrder(Categories(items))
  }

  /** The names come out once each, every item's category among them, and
      nothing else; "General" appears exactly when some item has no category. */
  lemma {:induction false} CategoryNamesSpec(items: seq<MenuItem>)
    ensures NoDuplicates(CategoryNames(items))
    ensures forall c :: c in CategoryNames(items) <==> exists i :: 0 <= i < |items| && CategoryOf(items[i]) == c
    ensures "General" in CategoryNames(items) <==>
              exists i :: 0 <= i < |items| && (items[i].category.None? || items[i].category.value in {"", "General"})
  {
    UniqueInOrderSpec(Categories(items));
    var cs := Categories(items);
    forall c ensures c in cs <==> exists i :: 0 <= i < |items| && CategoryOf(items[i]) == c {
      if c in cs {
        var i :| 0 <= i < |cs| && cs[i] == c;
        assert CategoryOf(items[i]) == c;
      }
    }
  }

  /** The category table; a category's id is its position plus one. */
  class CategoryTable {
    var names: seq<string>

    constructor ()
      ensures names == []
    {
      names := [];
    }

    /** Seed the table from the menu, only when it holds no category yet.
        Each upsert by name creates the category when it is absent. */
    method SeedFromMenu(items: seq<MenuItem>)
      modifies this
      ensures old(names) != [] ==> names == old(names)
      ensures old(names) == [] ==> names == CategoryNames(items)
    {
      if names != [] {
        return;
      }
      var cats := CategoryNames(items);
      UniqueInOrderSpec(Categories(items));
      var i := 0;
      while i < |cats|
        invariant 0 <= i <= |cats|
        invariant names == cats[..i]
      {
        if cats[i] !in names {
          names := names + [cats[i]];
        }
        i := i + 1;
      }
    }
  }
}
