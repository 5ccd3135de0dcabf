/**
 * Clearing Archie's browser data (src/utils/clearClaraData.ts): the keys of
 * localStorage and sessionStorage whose name mentions Archie are gathered by
 * a full index scan and then removed one by one; the IndexedDB statistics
 * read and session wipe are opaque steps that either succeed or throw.
 */
module StorageCleanup {
  import opened Wrappers
  import opened Text

  ghost predicate Distinct(s: seq<string>)
  {
    forall i, j :: 0 <= i < j < |s| ==> s[i] != s[j]
  }

  /** The elements of `s` that satisfy `p`, in order. */
  function Filter(s: seq<string>, p: string -> bool): (r: seq<string>)
    ensures forall x :: x in r <==> x in s && p(x)
    decreases |s|
  {
    if s == [] then []
    else
      var last := s[|s| - 1];
      assert forall x :: x in s ==> x in s[..|s| - 1] || x == last by {
        assert s == s[..|s| - 1] + [last];
      }
      Filter(s[..|s| - 1], p) + (if p(last) then [last] else [])
  }

  /** `s` without the elements in `drop`, in order. */
  function Without(s: seq<string>, drop: set<string>): (r: seq<string>)
    ensures forall x :: x in r <==> x in s && x !in drop
    decreases |s|
  {
    if s == [] then []
    else
      var last := s[|s| - 1];
      assert forall x :: x in s ==> x in s[..|s| - 1] || x == last by {
        assert s == s[..|s| - 1] + [last];
      }
      Without(s[..|s| - 1], drop) + (if last in drop then [] else [last])
  }

  /** The set of elements of a sequence. */
  function Elements(s: seq<string>): set<string>
  {
    set k | k in s
  }

  lemma {:induction false} WithoutNothing(s: seq<string>)
    ensures Without(s, {}) == s
    decreases |s|
  {
    if s != [] {
      WithoutNothing(s[..|s| - 1]);
      assert s == s[..|s| - 1] + [s[|s| - 1]];
    }
  }

  lemma {:induction false} WithoutDistinct(s: seq<string>, drop: set<string>)
    requires Distinct(s)
    ensures Distinct(Without(s, drop))
    decreases |s|
  {
    if s != [] {
      var init := s[..|s| - 1];
      assert Distinct(init);
      WithoutDistinct(init, drop);
      assert s[|s| - 1] !in init;
    }
  }

  lemma {:induction false} WithoutWithout(s: seq<string>, a: set<string>, b: set<string>)
    ensures Without(Without(s, a), b) == Without(s, a + b)
    decreases |s|
  {
    if s != [] {
      var init, last := s[..|s| - 1], s[|s| - 1];
      WithoutWithout(init, a, b);
      var w := Without(s, a);
      if last in a {
        assert w == Without(init, a);
      } else {
        assert w == Without(init, a) + [last];
        assert w[..|w| - 1] == Without(init, a);
      }
    }
  }

  /** Dropping the elements outside `p` is filtering by `p`. */
  lemma {:induction false} WithoutIsFilter(s: seq<string>, drop: set<string>, p: string -> bool)
    requires forall x :: x in s ==> (x in drop <==> !p(x))
    ensures Without(s, drop) == Filter(s, p)
    decreases |s|
  {
    if s != [] {
      assert s[|s| - 1] in s;
      assert forall x :: x in s[..|s| - 1] ==> x in s;
      WithoutIsFilter(s[..|s| - 1], drop, p);
    }
  }

  lemma MapMinusMinus(m: map<string, string>, a: set<string>, b: set<string>)
    ensures m - a - b == m - (a + b)
  {
  }

  /** A localStorage or sessionStorage area: its keys in index order and its items. */
  class WebStorage {
    var keys: seq<string>
    var items: map<string, string>

    ghost predicate Valid()
      reads this
    {
      Distinct(keys) && forall k :: k in items <==> k in keys
    }

    /** An empty store. */
    constructor ()
      ensures Valid() && keys == [] && items == map[]
    {
      keys := [];
      items := map[];
    }

    /** `length`. */
    function Length(): nat
      reads this
    {
      |keys|
    }

    /** `key(i)`: the key at index `i`, or null past the end. */
    function Key(i: nat): Option<string>
      reads this
    {
      if i < |keys| then Some(keys[i]) else None
    }

    /** `removeItem(key)`: drops the item; the other keys keep their order. */
    method RemoveItem(key: string)
      requires Valid()
      modifies this
      ensures Valid()
      ensures keys == Without(old(keys), {key}) && items == old(items) - {key}
    {
      WithoutDistinct(keys, {key});
      keys := Without(keys, {key});
      items := items - {key};
    }

    /** `clear()`. */
    method Clear()
      modifies this
      ensures Valid() && keys == [] && items == map[]
    {
      keys := [];
      items := map[];
    }
  }

  /** The test both scans reduce to: the key mentions "archie" or "Archie", case-sensitively. */
  predicate IsArchieKey(key: string)
  {
    Contains(key, "archie") || Contains(key, "Archie")
  }

  predicate Survives(key: string)
  {
    !IsArchieKey(key)
  }

  /** The localStorage test as written: a truthy key that mentions Archie or is one of two exact names. */
  predicate LocalKeyMatches(key: string)
  {
    && key != ""
    && (|| Contains(key, "archie")
        || Contains(key, "Archie")
        || key == "archie_interpreter_session"
        || key == "archie_provider_configs")
  }

  /** The sessionStorage test as written. */
  predicate SessionKeyMatches(key: string)
  {
    key != "" && (Contains(key, "archie") || Contains(key, "Archie"))
  }

  /** The truthiness test and the two exact names add nothing to the substring tests. */
  lemma LocalKeyMatchesIsArchieKey(key: string)
    ensures LocalKeyMatches(key) <==> IsArchieKey(key)
  {
  }

  lemma SessionKeyMatchesIsArchieKey(key: string)
    ensures SessionKeyMatches(key) <==> IsArchieKey(key)
  {
  }

  /** Matching is case-sensitive: a key without a lower-case 'r' never matches. */
  lemma CaseSensitiveMatch(key: string)
    requires 'r' !in key
    ensures !IsArchieKey(key)
  {
    if Contains(key, "archie") {
      ContainsChars(key, "archie", 'r');
    }
    if Contains(key, "Archie") {
      ContainsChars(key, "Archie", 'r');
    }
  }

  /** So "ARCHIE_x" survives, while "myArchieChats" does not. */
  lemma CaseSensitiveExamples()
    ensures !IsArchieKey("ARCHIE_x")
    ensures IsArchieKey("myArchieChats")
  {
    CaseSensitiveMatch("ARCHIE_x");
    var s := "myArchieChats";
    assert s[2..8] == "Archie";
    ContainsIffOccurs(s, "Archie");
    assert OccursAt(s, "Archie", 2);
  }

  /** The keys left after a purge, in index order. */
  function Survivors(keys: seq<string>): seq<string>
  {
    Filter(keys, Survives)
  }

  /** The items left after a purge. */
  function Purged(items: map<string, string>): (r: map<string, string>)
    ensures forall k :: k in r <==> k in items && !IsArchieKey(k)
    ensures forall k :: k in r ==> r[k] == items[k]
  {
    map k | k in items && !IsArchieKey(k) :: items[k]
  }

  /** The index scan: every key of the store that passes `matches`, in index order. */
  method CollectKeys(store: WebStorage, matches: string -> bool) returns (found: seq<string>)
    ensures found == Filter(store.keys, matches)
  {
    found := [];
    var i := 0;
    while i < store.Length()
      invariant 0 <= i <= |store.keys|
      invariant found == Filter(store.keys[..i], matches)
    {
      var key := store.Key(i);
      assert store.keys[..i + 1][..i] == store.keys[..i];
      if key.Some? && matches(key.value) {
        found := found + [key.value];
      }
      i := i + 1;
    }
    assert store.keys[..i] == store.keys;
  }

  /** `keys.forEach(key => store.removeItem(key))`. */
  method RemoveKeys(store: WebStorage, ks: seq<string>)
    requires store.Valid()
    modifies store
    ensures store.Valid()
    ensures store.keys == Without(old(store.keys), Elements(ks))
    ensures store.items == old(store.items) - Elements(ks)
  {
    ghost var keys0, items0 := store.keys, store.items;
    WithoutNothing(keys0);
    assert Elements(ks[..0]) == {};
    var j := 0;
    while j < |ks|
      invariant 0 <= j <= |ks|
      invariant store.Valid()
      invariant store.keys == Without(keys0, Elements(ks[..j]))
      invariant store.items == items0 - Elements(ks[..j])
    {
      ghost var done := Elements(ks[..j]);
      assert Elements(ks[..j + 1]) == done + {ks[j]} by {
        assert ks[..j + 1] == ks[..j] + [ks[j]];
      }
      WithoutWithout(keys0, done, {ks[j]});
      store.RemoveItem(ks[j]);
      assert store.items == items0 - (done + {ks[j]}) by {
        MapMinusMinus(items0, done, {ks[j]});
      }
      j := j + 1;
    }
    assert ks[..j] == ks;
  }

  /** Scan a store with `matches` and remove what was found; `matches` agrees with `IsArchieKey`. */
  method PurgeStore(store: WebStorage, matches: string -> bool)
    requires store.Valid()
    requires forall k :: matches(k) <==> IsArchieKey(k)
    modifies store
    ensures store.Valid()
    ensures store.keys == Survivors(old(store.keys)) && store.items == Purged(old(store.items))
  {
    var found := CollectKeys(store, matches);
    ghost var drop := Elements(found);
    WithoutIsFilter(store.keys, drop, Survives);
    RemoveKeys(store, found);
    assert store.items == Purged(old(store.items));
  }

  /**
   * `clearAllArchieData`: when the statistics read and the IndexedDB wipe
   * succeed, removes every Archie key from both stores and answers true;
   * when either throws, answers false and leaves both stores as they were.
   */
  method ClearAllArchieData(local: WebStorage, session: WebStorage, statsRead: bool, sessionsCleared: bool)
    returns (ok: bool)
    requires local != session && local.Valid() && session.Valid()
    modifies local, session
    ensures local.Valid() && session.Valid()
    ensures ok == (statsRead && sessionsCleared)
    ensures !ok ==> unchanged(local) && unchanged(session)
    ensures ok ==>
      && local.keys == Survivors(old(local.keys)) && local.items == Purged(old(local.items))
      && session.keys == Survivors(old(session.keys)) && session.items == Purged(old(session.items))
  {
    if !statsRead || !sessionsCleared {
      return false;
    }
    forall k ensures LocalKeyMatches(k) <==> IsArchieKey(k) {
      LocalKeyMatchesIsArchieKey(k);
    }
    PurgeStore(local, LocalKeyMatches);
    forall k ensures SessionKeyMatches(k) <==> IsArchieKey(k) {
      SessionKeyMatchesIsArchieKey(k);
    }
    PurgeStore(session, SessionKeyMatches);
    return true;
  }

  /**
   * `clearArchieDataWithConfirmation`: reads the statistics, asks the user,
   * and only on confirmation runs `clearAllArchieData` and answers its result.
   */
  method ClearArchieDataWithConfirmation(local: WebStorage, session: WebStorage, statsRead: bool,
                                         confirmed: bool, clearStatsRead: bool, sessionsCleared: bool)
    returns (ok: bool)
    requires local != session && local.Valid() && session.Valid()
    modifies local, session
    ensures local.Valid() && session.Valid()
    ensures ok == (statsRead && confirmed && clearStatsRead && sessionsCleared)
    ensures !ok ==> unchanged(local) && unchanged(session)
    ensures ok ==>
      && local.keys == Survivors(old(local.keys)) && local.items == Purged(old(local.items))
      && session.keys == Survivors(old(session.keys)) && session.items == Purged(old(session.items))
  {
    if !statsRead {
      return false;
    }
    if confirmed {
      ok := ClearAllArchieData(local, session, clearStatsRead, sessionsCleared);
      return ok;
    }
    return false;
  }

  /** `emergencyClearArchieData`: empties both stores. */
  method EmergencyClearArchieData(local: WebStorage, session: WebStorage)
    modifies local, session
    ensures local.Valid() && session.Valid()
    ensures local.keys == [] && local.items == map[]
    ensures session.keys == [] && session.items == map[]
  {
    local.Clear();
    session.Clear();
  }
}
