// The time-to-live cache of the pricing service: an insertion-ordered
// dictionary from key to (expiry time, value), least recently used first.
// A read of an expired entry drops it; a read hit and a write make the
// key the most recent; a write evicts from the least recent end until the
// size bound holds. The clock is a parameter: `now` is the time of the
// call, in seconds.
module Cache {
  import opened Core

  datatype Entry<K, V> = Entry(key: K, expiresAt: real, value: V)

  /** The position of `key` in the store, or -1 when it is absent. */
  function Find<K(==), V>(s: seq<Entry<K, V>>, key: K): (i: int)
    ensures -1 <= i < |s|
    ensures i >= 0 ==> s[i].key == key && forall j :: 0 <= j < i ==> s[j].key != key
    ensures i == -1 <==> forall j :: 0 <= j < |s| ==> s[j].key != key
  {
    if |s| == 0 then -1
    else if s[0].key == key then 0
    else
      var j := Find(s[1..], key);
      if j < 0 then -1 else j + 1
  }

  /** No key is stored twice (a dictionary's keys). */
  ghost predicate Distinct<K, V>(s: seq<Entry<K, V>>)
  {
    forall i, j :: 0 <= i < j < |s| ==> s[i].key != s[j].key
  }

  /** `pop(key)`: the store without the key's entry. */
  function Remove<K(==), V>(s: seq<Entry<K, V>>, key: K): seq<Entry<K, V>>
  {
    var i := Find(s, key);
    if i < 0 then s else s[..i] + s[i + 1..]
  }

  /** What `get` returns: the value of an entry that has not expired at `now`. */
  function GetResult<K(==), V>(s: seq<Entry<K, V>>, key: K, now: real): Option<V>
  {
    var i := Find(s, key);
    if i < 0 || s[i].expiresAt <= now then None else Some(s[i].value)
  }

  /** The store after `get`: an expired entry is dropped, a live one moves to the recent end. */
  function AfterGet<K(==), V>(s: seq<Entry<K, V>>, key: K, now: real): seq<Entry<K, V>>
  {
    var i := Find(s, key);
    if i < 0 then s
    else if s[i].expiresAt <= now then Remove(s, key)
    else Remove(s, key) + [s[i]]
  }

  /** Dropping least recent entries until at most `n` remain. */
  function Evicted<K, V>(s: seq<Entry<K, V>>, n: int): seq<Entry<K, V>>
    requires n >= 0
  {
    if |s| <= n then s else s[|s| - n..]
  }

  /** The store after `set` with a non-negative size bound. */
  function AfterSet<K(==), V>(s: seq<Entry<K, V>>, key: K, value: V, expiresAt: real, maxSize: int): seq<Entry<K, V>>
    requires maxSize >= 0
  {
    Evicted(Remove(s, key) + [Entry(key, expiresAt, value)], maxSize)
  }

  class TtlCache<K(==), V> {
    const maxSize: int
    const ttlSeconds: int
    var store: seq<Entry<K, V>>

    ghost predicate Valid()
      reads this
    {
      Distinct(store)
    }

    constructor(maxSize: int := 256, ttlSeconds: int := 60)
      ensures Valid() && store == []
      ensures this.maxSize == maxSize && this.ttlSeconds == ttlSeconds
    {
      this.maxSize := maxSize;
      this.ttlSeconds := ttlSeconds;
      store := [];
    }

    /** `get(key)` at time `now`. */
    method Get(key: K, now: real) returns (r: Option<V>)
      requires Valid()
      modifies this
      ensures Valid()
      ensures r == GetResult(old(store), key, now)
      ensures store == AfterGet(old(store), key, now)
    {
      var i := Find(store, key);
      if i < 0 {
        return None;
      }
      var e := store[i];
      if e.expiresAt <= now {
        store := Remove(store, key);
        return None;
      }
      RemovePreservesDistinct(store, key);
      AppendAbsent(Remove(store, key), e);
      store := Remove(store, key) + [e];
      return Some(e.value);
    }

    /**
     * `set(key, value)` at time `now`. With a negative size bound the
     * eviction loop empties the store and then pops from an empty
     * dictionary, which raises; `raised` reports that.
     */
    method Set(key: K, value: V, now: real) returns (raised: bool)
      requires Valid()
      modifies this
      ensures Valid()
      ensures raised <==> maxSize < 0
      ensures raised ==> store == []
      ensures !raised ==> store == AfterSet(old(store), key, value, now + ttlSeconds as real, maxSize)
    {
      var entry := Entry(key, now + ttlSeconds as real, value);
      RemovePreservesDistinct(store, key);
      AppendAbsent(Remove(store, key), entry);
      store := Remove(store, key) + [entry];
      ghost var written := store;
      raised := false;
      while |store| > maxSize
        invariant Distinct(store)
        invariant |store| <= |written| && store == written[|written| - |store|..]
        invariant maxSize >= 0 ==> |store| >= maxSize || store == written
        decreases |store|
      {
        if |store| == 0 {
          raised := true;
          return;
        }
        store := store[1..];
      }
    }
  }

  // ---- properties of the store operations ----

  /** Removing a key keeps the other keys distinct and leaves the key absent. */
  lemma RemovePreservesDistinct<K, V>(s: seq<Entry<K, V>>, key: K)
    requires Distinct(s)
    ensures Distinct(Remove(s, key))
    ensures Find(Remove(s, key), key) == -1
  {
    var i := Find(s, key);
    if i >= 0 {
      var t := Remove(s, key);
      assert |t| == |s| - 1;
      forall a, b | 0 <= a < b < |t|
        ensures t[a].key != t[b].key
      {
        RemoveIndex(s, key, a);
        RemoveIndex(s, key, b);
      }
      forall j | 0 <= j < |t|
        ensures t[j].key != key
      {
        RemoveIndex(s, key, j);
      }
    }
  }

  /** Appending an entry whose key is absent keeps the keys distinct. */
  lemma AppendAbsent<K, V>(s: seq<Entry<K, V>>, e: Entry<K, V>)
    requires Distinct(s) && Find(s, e.key) == -1
    ensures Distinct(s + [e])
  {
  }

  /** Dropping the element at `i` takes exactly that element out of the multiset. */
  lemma DropOne<T>(s: seq<T>, i: int)
    requires 0 <= i < |s|
    ensures multiset(s[..i] + s[i + 1..]) + multiset{s[i]} == multiset(s)
  {
    assert s == s[..i] + [s[i]] + s[i + 1..];
  }

  /** Removing a present key takes exactly one entry, the key's, out of the store. */
  lemma RemoveMultiset<K, V>(s: seq<Entry<K, V>>, key: K)
    requires Find(s, key) >= 0
    ensures multiset(Remove(s, key)) + multiset{s[Find(s, key)]} == multiset(s)
  {
    DropOne(s, Find(s, key));
  }

  /** The entries after the removed one move down one place. */
  lemma RemoveIndex<K, V>(s: seq<Entry<K, V>>, key: K, j: int)
    requires Find(s, key) >= 0 && 0 <= j < |s| - 1
    ensures |Remove(s, key)| == |s| - 1
    ensures Remove(s, key)[j] == if j < Find(s, key) then s[j] else s[j + 1]
  {
  }

  /** Every entry of another key survives the removal. */
  lemma RemoveKeepsRest<K, V>(s: seq<Entry<K, V>>, key: K)
    ensures forall e :: e in s && e.key != key ==> e in Remove(s, key)
  {
    var i := Find(s, key);
    if i >= 0 {
      forall e | e in s && e.key != key
        ensures e in Remove(s, key)
      {
        var j :| 0 <= j < |s| && s[j] == e;
        if j < i {
          RemoveIndex(s, key, j);
        } else {
          RemoveIndex(s, key, j - 1);
        }
      }
    }
  }

  /** Each entry left after removing a present key was stored under another key. */
  lemma RemoveOnlyRestAt<K, V>(s: seq<Entry<K, V>>, key: K, j: int)
    requires Distinct(s) && Find(s, key) >= 0 && 0 <= j < |s| - 1
    ensures Remove(s, key)[j] in s && Remove(s, key)[j].key != key
  {
    var i := Find(s, key);
    RemoveIndex(s, key, j);
    if j < i {
      assert s[j].key != key;
    } else {
      assert s[j + 1].key != s[i].key;
    }
  }

  /** What survives the removal was stored, under another key. */
  lemma RemoveOnlyRest<K, V>(s: seq<Entry<K, V>>, key: K)
    requires Distinct(s)
    ensures forall e :: e in Remove(s, key) ==> e in s && e.key != key
  {
    if Find(s, key) >= 0 {
      var r := Remove(s, key);
      assert |r| == |s| - 1;
      forall e | e in r
        ensures e in s && e.key != key
      {
        var j :| 0 <= j < |r| && r[j] == e;
        RemoveOnlyRestAt(s, key, j);
      }
    }
  }

  /** Removing a key removes exactly its entry: every other entry stays. */
  lemma RemoveKeepsOthers<K, V>(s: seq<Entry<K, V>>, key: K)
    requires Distinct(s)
    ensures forall e :: e in Remove(s, key) <==> e in s && e.key != key
    ensures Find(s, key) >= 0 ==> multiset(Remove(s, key)) + multiset{s[Find(s, key)]} == multiset(s)
  {
    RemoveKeepsRest(s, key);
    RemoveOnlyRest(s, key);
    if Find(s, key) >= 0 {
      RemoveMultiset(s, key);
    }
  }

  /** A `get` of an absent key returns nothing and changes nothing. */
  lemma GetMiss<K, V>(s: seq<Entry<K, V>>, key: K, now: real)
    requires Find(s, key) == -1
    ensures GetResult(s, key, now) == None && AfterGet(s, key, now) == s
  {
  }

  /** A `get` of an expired entry returns nothing and drops that entry alone. */
  lemma GetExpired<K, V>(s: seq<Entry<K, V>>, key: K, now: real)
    requires Distinct(s) && Find(s, key) >= 0 && s[Find(s, key)].expiresAt <= now
    ensures GetResult(s, key, now) == None
    ensures forall e :: e in AfterGet(s, key, now) <==> e in s && e.key != key
  {
    RemoveKeepsOthers(s, key);
  }

  /**
   * A `get` hit returns the stored value and only reorders the store: the
   * same entries, the key now the most recent.
   */
  lemma GetHit<K, V>(s: seq<Entry<K, V>>, key: K, now: real)
    requires Distinct(s) && Find(s, key) >= 0 && s[Find(s, key)].expiresAt > now
    ensures GetResult(s, key, now) == Some(s[Find(s, key)].value)
    ensures multiset(AfterGet(s, key, now)) == multiset(s)
    ensures AfterGet(s, key, now)[|AfterGet(s, key, now)| - 1] == s[Find(s, key)]
  {
    RemoveKeepsOthers(s, key);
  }

  /** After `set` the store holds at most `maxSize` entries, and no key twice. */
  lemma SetBounded<K, V>(s: seq<Entry<K, V>>, key: K, value: V, expiresAt: real, maxSize: int)
    requires Distinct(s) && maxSize >= 0
    ensures |AfterSet(s, key, value, expiresAt, maxSize)| <= maxSize
    ensures Distinct(AfterSet(s, key, value, expiresAt, maxSize))
  {
    RemovePreservesDistinct(s, key);
    AppendAbsent(Remove(s, key), Entry(key, expiresAt, value));
  }

  /**
   * Eviction takes the least recently used entries: what `set` keeps is a
   * suffix of the store with the new entry appended, and with room for
   * one entry the new one is the most recent.
   */
  lemma SetEvictsOldest<K, V>(s: seq<Entry<K, V>>, key: K, value: V, expiresAt: real, maxSize: int)
    requires maxSize >= 1
    ensures var t := Remove(s, key) + [Entry(key, expiresAt, value)];
      var kept := AfterSet(s, key, value, expiresAt, maxSize);
      |kept| == Min(|t| as real, maxSize as real) as int && kept == t[|t| - |kept|..]
    ensures var kept := AfterSet(s, key, value, expiresAt, maxSize);
      |kept| >= 1 && kept[|kept| - 1] == Entry(key, expiresAt, value)
  {
  }

  /** Reading a key before its new expiry returns what `set` stored. */
  lemma SetThenGet<K, V>(s: seq<Entry<K, V>>, key: K, value: V, expiresAt: real, maxSize: int, now: real)
    requires Distinct(s) && maxSize >= 1 && now < expiresAt
    ensures GetResult(AfterSet(s, key, value, expiresAt, maxSize), key, now) == Some(value)
  {
    var kept := AfterSet(s, key, value, expiresAt, maxSize);
    SetBounded(s, key, value, expiresAt, maxSize);
    SetEvictsOldest(s, key, value, expiresAt, maxSize);
    var i := Find(kept, key);
    assert kept[|kept| - 1].key == key;
    assert i != -1;
    assert i == |kept| - 1;
  }
}
