/** server/src/seedPermissions.ts: the default (role, resource, action) table and
    the loop that upserts each of its rows into the permission store. */
module PermissionSeed {
  import opened Entities
  import opened Permissions

  /** The resources and actions the table names, each written as the string
      its name gives. */
  datatype Resource = Orders | Menu | Users | Categories | PermissionRows
  datatype Action = View | Create | Update | Delete

  function ResourceName(r: Resource): string
  {
    match r
    case Orders => "orders"
    case Menu => "menu"
    case Users => "users"
    case Categories => "categories"
    case PermissionRows => "permissions"
  }

  function ActionName(a: Action): string
  {
    match a
    case View => "view"
    case Create => "create"
    case Update => "update"
    case Delete => "delete"
  }

  /** Different resources and different actions are written differently. */
  lemma NamesInjective()
    ensures forall r, s :: r != s ==> ResourceName(r) != ResourceName(s)
    ensures forall a, b :: a != b ==> ActionName(a) != ActionName(b)
  {
    forall r, s | r != s ensures ResourceName(r) != ResourceName(s) {
      assert |ResourceName(r)| != |ResourceName(s)|;
    }
    forall a, b | a != b ensures ActionName(a) != ActionName(b) {
      assert ActionName(a)[0] != ActionName(b)[0];
    }
  }

  datatype Entry = Entry(role: Role, resource: Resource, action: Action, allowed: bool)

  function Key(e: Entry): PermKey
  {
    PermKey(e.role, ResourceName(e.resource), ActionName(e.action))
  }

  /** `defaultPermissions`, in the order it is written. */
  const DefaultPermissions: seq<Entry> := [
    Entry(ADMIN, Orders, View, true),
    Entry(ADMIN, Orders, Create, true),
    Entry(ADMIN, Orders, Update, true),
    Entry(ADMIN, Orders, Delete, true),
    Entry(ADMIN, Menu, View, true),
    Entry(ADMIN, Menu, Create, true),
    Entry(ADMIN, Menu, Update, true),
    Entry(ADMIN, Menu, Delete, true),
    Entry(ADMIN, Users, View, true),
    Entry(ADMIN, Users, Create, true),
    Entry(ADMIN, Users, Update, true),
    Entry(ADMIN, Users, Delete, true),
    Entry(ADMIN, Categories, View, true),
    Entry(ADMIN, Categories, Create, true),
    Entry(ADMIN, Categories, Update, true),
    Entry(ADMIN, Categories, Delete, true),
    Entry(ADMIN, PermissionRows, View, true),
    Entry(ADMIN, PermissionRows, Update, true),

    Entry(KITCHEN_STAFF, Orders, View, true),
    Entry(KITCHEN_STAFF, Orders, Update, true),
    Entry(KITCHEN_STAFF, Menu, View, true),

    Entry(DELIVERY_STAFF, Orders, View, true),
    Entry(DELIVERY_STAFF, Orders, Update, true),

    Entry(CUSTOMER_SUPPORT, Orders, View, true),
    Entry(CUSTOMER_SUPPORT, Orders, Update, true),
    Entry(CUSTOMER_SUPPORT, Orders, Delete, true),
    Entry(CUSTOMER_SUPPORT, Users, View, true),

    Entry(CUSTOMER, Orders, View, true),
    Entry(CUSTOMER, Orders, Create, true),
    Entry(CUSTOMER, Menu, View, true)
  ]

  function KeySet(t: seq<Entry>): set<PermKey>
  {
    set i | 0 <= i < |t| :: Key(t[i])
  }

  /** The store after upserting the rows of t one after the other: each write
      replaces the row's `allowed` flag or creates the row. */
  function Upserted(rows: map<PermKey, bool>, t: seq<Entry>): map<PermKey, bool>
  {
    if t == [] then rows
    else Upserted(rows, t[..|t| - 1])[Key(t[|t| - 1]) := t[|t| - 1].allowed]
  }

  /** The flag of the last row of t with key k. */
  function LastAllowed(t: seq<Entry>, k: PermKey): bool
    requires k in KeySet(t)
  {
    var last := t[|t| - 1];
    if Key(last) == k then last.allowed
    else
      assert k in KeySet(t[..|t| - 1]) by {
        var i :| 0 <= i < |t| && Key(t[i]) == k;
        assert t[..|t| - 1][i] == t[i];
      }
      LastAllowed(t[..|t| - 1], k)
  }

  /** What the store holds for any key after the upserts: the last written flag
      for a key of the table, the old row for any other key. */
  lemma {:induction false} UpsertedLookup(rows: map<PermKey, bool>, t: seq<Entry>, k: PermKey)
    ensures k in Upserted(rows, t) <==> k in rows || k in KeySet(t)
    ensures k in KeySet(t) ==> Upserted(rows, t)[k] == LastAllowed(t, k)
    ensures k !in KeySet(t) && k in rows ==> Upserted(rows, t)[k] == rows[k]
    decreases |t|
  {
    if t != [] {
      var p := t[..|t| - 1];
      UpsertedLookup(rows, p, k);
      assert KeySet(t) == KeySet(p) + {Key(t[|t| - 1])} by {
        forall x | x in KeySet(t) ensures x in KeySet(p) + {Key(t[|t| - 1])} {
          var i :| 0 <= i < |t| && Key(t[i]) == x;
          if i < |t| - 1 { assert p[i] == t[i]; }
        }
        forall x | x in KeySet(p) ensures x in KeySet(t) {
          var i :| 0 <= i < |p| && Key(p[i]) == x;
          assert t[i] == p[i];
        }
      }
    }
  }

  /** Upserting the same table again changes nothing. */
  lemma {:induction false} UpsertIdempotent(rows: map<PermKey, bool>, t: seq<Entry>)
    ensures Upserted(Upserted(rows, t), t) == Upserted(rows, t)
  {
    var once := Upserted(rows, t);
    var twice := Upserted(once, t);
    forall k ensures (k in twice <==> k in once) && (k in once ==> twice[k] == once[k]) {
      UpsertedLookup(rows, t, k);
      UpsertedLookup(once, t, k);
    }
  }

  /** With distinct keys, the last row for a key is its only row. */
  lemma {:induction false} LastAllowedDistinct(t: seq<Entry>, i: nat)
    requires i < |t|
    requires forall a, b :: 0 <= a < b < |t| ==> Key(t[a]) != Key(t[b])
    ensures Key(t[i]) in KeySet(t)
    ensures LastAllowed(t, Key(t[i])) == t[i].allowed
    decreases |t|
  {
    if i < |t| - 1 {
      var p := t[..|t| - 1];
      assert p[i] == t[i];
      LastAllowedDistinct(p, i);
    }
  }

  /** `seedPermissions()`: one upsert per table row, in table order. */
  method SeedPermissions(store: PermissionStore)
    modifies store
    ensures store.rows == Upserted(old(store.rows), DefaultPermissions)
  {
    UpsertRows(store, DefaultPermissions);
  }

  /** The seeding loop over the rows of a table. */
  method UpsertRows(store: PermissionStore, t: seq<Entry>)
    modifies store
    ensures store.rows == Upserted(old(store.rows), t)
  {
    var i := 0;
    while i < |t|
      invariant 0 <= i <= |t|
      invariant store.rows == Upserted(old(store.rows), t[..i])
    {
      assert t[..i + 1][..i] == t[..i];
      store.rows := store.rows[Key(t[i]) := t[i].allowed];
      i := i + 1;
    }
    assert t[..i] == t;
  }

  /** Every default row grants. */
  lemma DefaultsAllAllowed()
    ensures forall i :: 0 <= i < |DefaultPermissions| ==> DefaultPermissions[i].allowed
  {
  }

  /** No (role, resource, action) appears twice in the default table. */
  lemma {:induction false} DefaultKeysDistinct()
    ensures forall a, b :: 0 <= a < b < |DefaultPermissions| ==>
              Key(DefaultPermissions[a]) != Key(DefaultPermissions[b])
  {
    LowRowsAscend();
    MiddleRowsAscend();
    HighRowsAscend();
    AscendingKeysDistinct(DefaultPermissions);
  }

  /** A table listed in strictly ascending rank repeats no key. */
  lemma {:induction false} AscendingKeysDistinct(t: seq<Entry>)
    requires forall i :: 0 <= i < |t| - 1 ==> Rank(t[i]) < Rank(t[i + 1])
    ensures forall a, b :: 0 <= a < b < |t| ==> Key(t[a]) != Key(t[b])
  {
    NamesInjective();
    forall a, b | 0 <= a < b < |t| ensures Key(t[a]) != Key(t[b]) {
      RankGrows(t, a, b);
    }
  }

  /** A position for each row: by role in declaration order, then by resource,
      then by action. */
  function Rank(e: Entry): nat
  {
    var role := match e.role
      case ADMIN => 0
      case KITCHEN_STAFF => 1
      case DELIVERY_STAFF => 2
      case CUSTOMER_SUPPORT => 3
      case CUSTOMER => 4;
    var resource := match e.resource
      case Orders => 0
      case Menu => 1
      case Users => 2
      case Categories => 3
      case PermissionRows => 4;
    var action := match e.action
      case View => 0
      case Create => 1
      case Update => 2
      case Delete => 3;
    100 * role + 10 * resource + action
  }

  /** In a table whose rows rank strictly upwards one after the other, a later
      row always ranks above an earlier one. */
  lemma {:induction false} RankGrows(t: seq<Entry>, a: nat, b: nat)
    requires forall i :: 0 <= i < |t| - 1 ==> Rank(t[i]) < Rank(t[i + 1])
    requires a < b < |t|
    ensures Rank(t[a]) < Rank(t[b])
    decreases b - a
  {
    if a + 1 < b {
      RankGrows(t, a, b - 1);
    }
  }

  /** The table lists its rows in ascending rank, checked in three stretches. */
  lemma LowRowsAscend()
    ensures forall i :: 0 <= i < 10 ==> Rank(DefaultPermissions[i]) < Rank(DefaultPermissions[i + 1])
  {
  }

  lemma MiddleRowsAscend()
    ensures forall i :: 10 <= i < 20 ==> Rank(DefaultPermissions[i]) < Rank(DefaultPermissions[i + 1])
  {
  }

  lemma HighRowsAscend()
    ensures forall i :: 20 <= i < 29 ==> Rank(DefaultPermissions[i]) < Rank(DefaultPermissions[i + 1])
  {
  }

  /** ADMIN's grants as the table lists them: the four CRUD actions on orders,
      menu, users and categories, and view/update on permissions. */
  predicate AdminGrant(r: Resource, a: Action)
  {
    r != PermissionRows || a == View || a == Update
  }

  /** The rows of each role form one block of the table: ADMIN's first
      eighteen, then kitchen, delivery, support and customer rows. */
  lemma RoleBlocks()
    ensures forall i :: 0 <= i < |DefaultPermissions| ==>
              (DefaultPermissions[i].role == ADMIN <==> 0 <= i < 18) &&
              (DefaultPermissions[i].role == DELIVERY_STAFF <==> 21 <= i < 23) &&
              (DefaultPermissions[i].role == CUSTOMER <==> 27 <= i < 30)
  {
  }

  /** Every ADMIN row of the table is one of the listed grants. */
  lemma {:induction false} AdminRowsListed(r: string, a: string)
    requires PermKey(ADMIN, r, a) in KeySet(DefaultPermissions)
    ensures exists res, act :: ResourceName(res) == r && ActionName(act) == a && AdminGrant(res, act)
  {
    RoleBlocks();
    var t := DefaultPermissions;
    var i :| 0 <= i < |t| && Key(t[i]) == PermKey(ADMIN, r, a);
    assert i < 18;
    assert AdminGrant(t[i].resource, t[i].action);
  }

  /** Every listed grant has its ADMIN row. */
  lemma {:induction false} AdminGrantsPresent(r: Resource, a: Action)
    requires AdminGrant(r, a)
    ensures PermKey(ADMIN, ResourceName(r), ActionName(a)) in KeySet(DefaultPermissions)
  {
    var t := DefaultPermissions;
    var col := match a case View => 0 case Create => 1 case Update => 2 case Delete => 3;
    var i := match r
      case Orders => col
      case Menu => 4 + col
      case Users => 8 + col
      case Categories => 12 + col
      case PermissionRows => if a == View then 16 else 17;
    assert t[i].role == ADMIN && t[i].resource == r && t[i].action == a;
    assert Key(t[i]) == PermKey(ADMIN, ResourceName(r), ActionName(a));
  }

  /** After seeding, every default row is in the store with its flag. */
  lemma {:induction false} SeededRowsHold(rows: map<PermKey, bool>)
    ensures forall i :: 0 <= i < |DefaultPermissions| ==>
              Key(DefaultPermissions[i]) in Upserted(rows, DefaultPermissions)
              && Upserted(rows, DefaultPermissions)[Key(DefaultPermissions[i])]
  {
    DefaultKeysDistinct();
    forall i | 0 <= i < |DefaultPermissions|
      ensures Key(DefaultPermissions[i]) in Upserted(rows, DefaultPermissions)
      ensures Upserted(rows, DefaultPermissions)[Key(DefaultPermissions[i])]
    {
      LastAllowedDistinct(DefaultPermissions, i);
      UpsertedLookup(rows, DefaultPermissions, Key(DefaultPermissions[i]));
    }
  }

  /** A key that no row of the table has is denied by a store seeded from empty. */
  lemma {:induction false} NoRowDenies(k: PermKey)
    requires forall i :: 0 <= i < |DefaultPermissions| ==> Key(DefaultPermissions[i]) != k
    ensures Lookup(Upserted(map[], DefaultPermissions), k) == false
  {
    UpsertedLookup(map[], DefaultPermissions, k);
  }

  /** Customers may not update or delete orders. */
  lemma {:induction false} CustomerCannotChangeOrders(a: string)
    requires a == "update" || a == "delete"
    ensures Lookup(Upserted(map[], DefaultPermissions), PermKey(CUSTOMER, "orders", a)) == false
  {
    RoleBlocks();
    forall i | 27 <= i < 30 ensures Key(DefaultPermissions[i]) != PermKey(CUSTOMER, "orders", a) {
      var e := DefaultPermissions[i];
      if e.resource == Orders {
        assert ActionName(e.action)[0] != a[0];
      }
    }
    NoRowDenies(PermKey(CUSTOMER, "orders", a));
  }

  /** Delivery staff may not even view the menu. */
  lemma {:induction false} DeliveryCannotSeeMenu(a: string)
    ensures Lookup(Upserted(map[], DefaultPermissions), PermKey(DELIVERY_STAFF, "menu", a)) == false
  {
    RoleBlocks();
    assert |ResourceName(Orders)| != |"menu"|;
    NoRowDenies(PermKey(DELIVERY_STAFF, "menu", a));
  }
}
