/** server/src/middleware/permissions.ts: a process-wide cache in front of the
    permission store, keyed by the string `role:resource:action`. A miss reads the
    store, fails closed, caches the answer and schedules that key's deletion
    CACHE_TTL milliseconds later; a store error denies without caching.
    Timers are explicit here: each pending deletion is a Timer, and Tick(now)
    fires the ones that are due. */
module Permissions {
  import opened JsRuntime
  import opened Entities

  const CACHE_TTL: int := 60000

  datatype PermKey = PermKey(role: Role, resource: string, action: string)

  /** The backing store: one `allowed` flag per (role, resource, action) row. */
  class PermissionStore {
    var rows: map<PermKey, bool>

    constructor ()
      ensures rows == map[]
    {
      rows := map[];
    }
  }

  /** `permission?.allowed ?? false`: a missing row denies. */
  function Lookup(rows: map<PermKey, bool>, k: PermKey): (allowed: bool)
    ensures allowed ==> k in rows && rows[k]
    ensures k !in rows ==> !allowed
  {
    if k in rows then rows[k] else false
  }

  function CacheKey(role: Role, resource: string, action: string): string
  {
    RoleName(role) + ":" + resource + ":" + action
  }

  /** In `a:b` with a colon-free `a`, the first colon sits right after `a`. */
  lemma FirstColon(a: string, b: string)
    requires ':' !in a
    ensures (a + ":" + b)[|a|] == ':'
    ensures forall i :: 0 <= i < |a| ==> (a + ":" + b)[i] != ':'
  {
  }

  lemma {:induction false} ColonSplit(a: string, b: string, c: string, d: string)
    requires ':' !in a && ':' !in c
    requires a + ":" + b == c + ":" + d
    ensures a == c && b == d
  {
    var x := a + ":" + b;
    FirstColon(a, b);
    FirstColon(c, d);
    assert |a| == |c|;
    assert a == x[..|a|] && c == (c + ":" + d)[..|c|];
    assert b == x[|a| + 1..] && d == (c + ":" + d)[|c| + 1..];
  }

  /** Distinct permissions never share a cache entry, as long as resource names
      hold no colon (every resource the server names is a colon-free literal). */
  lemma {:induction false} CacheKeyInjective(r1: Role, res1: string, act1: string,
                                             r2: Role, res2: string, act2: string)
    requires ':' !in res1 && ':' !in res2
    requires CacheKey(r1, res1, act1) == CacheKey(r2, res2, act2)
    ensures PermKey(r1, res1, act1) == PermKey(r2, res2, act2)
  {
    RoleNameHasNoColon(r1);
    RoleNameHasNoColon(r2);
    assert RoleName(r1) + ":" + (res1 + ":" + act1) == CacheKey(r1, res1, act1);
    assert RoleName(r2) + ":" + (res2 + ":" + act2) == CacheKey(r2, res2, act2);
    ColonSplit(RoleName(r1), res1 + ":" + act1, RoleName(r2), res2 + ":" + act2);
    ColonSplit(res1, act1, res2, act2);
    if r1 != r2 {
      ParseRoleName(r1);
      ParseRoleName(r2);
    }
  }

  /** The answer `hasPermission` gives: the cached flag on a hit, the store's
      (fail-closed) flag on a miss, and false when the store cannot be read. */
  function Resolve(entries: map<string, bool>, rows: map<PermKey, bool>, storeUp: bool,
                   role: Role, resource: string, action: string): bool
  {
    var key := CacheKey(role, resource, action);
    if key in entries then entries[key]
    else storeUp && Lookup(rows, PermKey(role, resource, action))
  }

  /** A cached answer shadows the store: any store content gives the same answer. */
  lemma CacheHitIgnoresStore(entries: map<string, bool>, rows1: map<PermKey, bool>, up1: bool,
                             rows2: map<PermKey, bool>, up2: bool,
                             role: Role, resource: string, action: string)
    requires CacheKey(role, resource, action) in entries
    ensures Resolve(entries, rows1, up1, role, resource, action)
         == Resolve(entries, rows2, up2, role, resource, action)
  {
  }

  /** With an empty cache the answer is exactly the store's. */
  lemma ClearedCacheReadsStore(rows: map<PermKey, bool>, role: Role, resource: string, action: string)
    ensures Resolve(map[], rows, true, role, resource, action) == Lookup(rows, PermKey(role, resource, action))
  {
  }

  datatype Timer = Timer(key: string, due: int)

  /** Keys whose deletion timer has fired by `now`. */
  function DueKeys(timers: seq<Timer>, now: int): set<string>
  {
    set t | t in timers && t.due <= now :: t.key
  }

  /** Timers still waiting at `now`, in scheduling order. */
  function Pending(timers: seq<Timer>, now: int): (r: seq<Timer>)
    ensures forall t :: t in r <==> t in timers && t.due > now
  {
    if timers == [] then []
    else
      var p := Pending(timers[..|timers| - 1], now);
      var t := timers[|timers| - 1];
      assert timers == timers[..|timers| - 1] + [t];
      if t.due <= now then p else p + [t]
  }

  /** Taking one more timer into account: a due one adds its key to the fired
      keys, a waiting one joins the pending list. */
  lemma {:induction false} TimerStep(all: seq<Timer>, i: nat, now: int)
    requires i < |all|
    ensures all[i].due <= now ==>
              DueKeys(all[..i + 1], now) == DueKeys(all[..i], now) + {all[i].key} &&
              Pending(all[..i + 1], now) == Pending(all[..i], now)
    ensures all[i].due > now ==>
              DueKeys(all[..i + 1], now) == DueKeys(all[..i], now) &&
              Pending(all[..i + 1], now) == Pending(all[..i], now) + [all[i]]
  {
    var t := all[i];
    assert all[..i + 1] == all[..i] + [t];
    assert all[..i + 1][..i] == all[..i];
  }

  class PermissionCache {
    var entries: map<string, bool>
    var timers: seq<Timer>

    constructor ()
      ensures entries == map[] && timers == []
    {
      entries := map[];
      timers := [];
    }

    /** `hasPermission(role, resource, action)` at time `now`; `storeUp` is false
        when the store lookup throws. */
    method HasPermission(store: PermissionStore, storeUp: bool, now: int,
                         role: Role, resource: string, action: string) returns (allowed: bool)
      modifies this
      ensures allowed == Resolve(old(entries), store.rows, storeUp, role, resource, action)
      ensures CacheKey(role, resource, action) in old(entries) || !storeUp ==>
                entries == old(entries) && timers == old(timers)
      ensures CacheKey(role, resource, action) !in old(entries) && storeUp ==>
                entries == old(entries)[CacheKey(role, resource, action) := allowed] &&
                timers == old(timers) + [Timer(CacheKey(role, resource, action), now + CACHE_TTL)]
    {
      var key := CacheKey(role, resource, action);
      if key in entries {
        return entries[key];
      }
      if !storeUp {
        return false;
      }
      allowed := Lookup(store.rows, PermKey(role, resource, action));
      entries := entries[key := allowed];
      timers := timers + [Timer(key, now + CACHE_TTL)];
    }

    /** What one timer does when it fires: delete its key, whatever the entry now holds. */
    method Expire(key: string)
      modifies this`entries
      ensures entries == old(entries) - {key}
    {
      entries := entries - {key};
    }

    /** Fire every timer that is due at `now`. */
    method Tick(now: int)
      modifies this
      ensures entries == old(entries) - DueKeys(old(timers), now)
      ensures timers == Pending(old(timers), now)
    {
      var all := timers;
      var waiting: seq<Timer> := [];
      var i := 0;
      while i < |all|
        invariant 0 <= i <= |all|
        invariant entries == old(entries) - DueKeys(all[..i], now)
        invariant waiting == Pending(all[..i], now)
      {
        var t := all[i];
        TimerStep(all, i, now);
        if t.due <= now {
          Expire(t.key);
        } else {
          waiting := waiting + [t];
        }
        i := i + 1;
      }
      assert all[..i] == all;
      timers := waiting;
    }

    /** `clearPermissionCache()`: every entry goes; scheduled timers stay scheduled. */
    method Clear()
      modifies this`entries
      ensures entries == map[]
    {
      entries := map[];
    }

    /** The `checkPermission(resource, action)` middleware for a request whose
        `req.user` carries `user` (None when absent). */
    method CheckPermission(store: PermissionStore, storeUp: bool, now: int,
                           user: Option<Role>, resource: string, action: string) returns (g: Decision)
      modifies this
      ensures user.None? ==> g == Unauthorized && entries == old(entries) && timers == old(timers)
      ensures user.Some? ==>
                g == (if Resolve(old(entries), store.rows, storeUp, user.value, resource, action) then Proceed
                      else Forbidden("You don't have permission to " + action + " " + resource))
      ensures user.Some? && (CacheKey(user.value, resource, action) in old(entries) || !storeUp) ==>
                entries == old(entries) && timers == old(timers)
      ensures user.Some? && CacheKey(user.value, resource, action) !in old(entries) && storeUp ==>
                entries == old(entries)[CacheKey(user.value, resource, action) := (g == Proceed)] &&
                timers == old(timers) + [Timer(CacheKey(user.value, resource, action), now + CACHE_TTL)]
    {
      if user.None? {
        return Unauthorized;
      }
      var allowed := HasPermission(store, storeUp, now, user.value, resource, action);
      if !allowed {
        return Forbidden("You don't have permission to " + action + " " + resource);
      }
      g := Proceed;
    }
  }

  /** 401, 403 with a message, or a single call of `next`. */
  datatype Decision = Unauthorized | Forbidden(message: string) | Proceed

  /** At the first timer's due time, only that timer fires. */
  lemma FirstOfTwoFires(first: Timer, second: Timer, now: int)
    requires first.due <= now < second.due
    ensures Pending([first, second], now) == [second]
    ensures DueKeys([first, second], now) == {first.key}
  {
    assert [first, second][..1] == [first];
    assert [first][..0] == [];
    assert Pending([first], now) == [];
  }

  /** An entry re-inserted after a clear is still deleted by the timer of the
      earlier insertion, before its own TTL has run out. */
  method EarlyExpiryScenario(store: PermissionStore, role: Role, resource: string, action: string)
    returns (cachedAtFirstDue: bool, stillWaiting: seq<Timer>)
    requires PermKey(role, resource, action) !in store.rows
    ensures !cachedAtFirstDue
    ensures stillWaiting == [Timer(CacheKey(role, resource, action), 20000 + CACHE_TTL)]
  {
    var key := CacheKey(role, resource, action);
    var first, second := Timer(key, CACHE_TTL), Timer(key, 20000 + CACHE_TTL);
    var cache := new PermissionCache();
    var a := cache.HasPermission(store, true, 0, role, resource, action);
    assert !a && cache.entries == map[key := false] && cache.timers == [first];
    cache.Clear();
    var b := cache.HasPermission(store, true, 20000, role, resource, action);
    assert !b && cache.entries == map[key := false] && cache.timers == [first, second];
    FirstOfTwoFires(first, second, CACHE_TTL);
    cache.Tick(CACHE_TTL);
    cachedAtFirstDue, stillWaiting := key in cache.entries, cache.timers;
  }
}
