/** The namespaced cache of utils/cache_manager.py: named caches, each an
    insertion-ordered dictionary of entries with an age limit, evicted
    least-recently-used first when a count or memory limit is hit.

    A namespace's dictionary is a sequence of entries with distinct keys, in
    insertion order (Python dictionaries keep it, and the LRU sort breaks ties
    by it). The clock is the explicit parameter `now`. */
module CacheManagement {
  import opened Common
  import opened Sorting

  /** The `config` dictionary of a namespace; an absent key falls back to the
      manager-wide default. */
  datatype Config = Config(maxSize: Option<int>, maxAge: Option<int>, maxMemoryBytes: Option<int>)

  /** `CacheEntry`. `size` is the estimated size in bytes, supplied by the
      caller. */
  datatype Entry<V> = Entry(key: string, value: V, createdAt: int, lastAccessed: int,
                            maxAge: int, accessCount: nat, size: nat)

  /** A fresh entry: created and last accessed now, never accessed. */
  function NewEntry<V>(key: string, value: V, maxAge: int, size: nat, now: int): Entry<V>
  {
    Entry(key, value, now, now, maxAge, 0, size)
  }

  /** `is_expired`: strictly older than its age limit. */
  predicate Expired<V>(e: Entry<V>, now: int)
  {
    now - e.createdAt > e.maxAge
  }

  /** `access`. */
  function Touch<V>(e: Entry<V>, now: int): Entry<V>
  {
    e.(lastAccessed := now, accessCount := e.accessCount + 1)
  }

  ghost predicate DistinctKeys<V>(es: seq<Entry<V>>)
  {
    forall i, j :: 0 <= i < j < |es| ==> es[i].key != es[j].key
  }

  /** The position of key `k`, if present. */
  function Find<V>(es: seq<Entry<V>>, k: string): (r: Option<nat>)
    ensures r.Some? ==> r.value < |es| && es[r.value].key == k
    ensures r.None? ==> forall i :: 0 <= i < |es| ==> es[i].key != k
  {
    if es == [] then None
    else if es[0].key == k then Some(0)
    else match Find(es[1..], k)
      case None => None
      case Some(i) => Some(i + 1)
  }

  function KeysOf<V>(es: seq<Entry<V>>): (r: seq<string>)
    ensures |r| == |es| && forall i :: 0 <= i < |es| ==> r[i] == es[i].key
  {
    seq(|es|, i requires 0 <= i < |es| => es[i].key)
  }

  /** The entries whose key is not in `ks`, in order (`del cache[key]` for
      each key of `ks`). */
  function RemoveKeys<V>(es: seq<Entry<V>>, ks: seq<string>): (r: seq<Entry<V>>)
    ensures |r| <= |es|
    ensures forall e :: e in r ==> e in es && e.key !in ks
  {
    if es == [] then []
    else if es[0].key in ks then RemoveKeys(es[1..], ks)
    else [es[0]] + RemoveKeys(es[1..], ks)
  }

  function RemoveKey<V>(es: seq<Entry<V>>, k: string): (r: seq<Entry<V>>)
  {
    RemoveKeys(es, [k])
  }

  /** `cache[key] = entry`: an existing key keeps its position. */
  function Put<V>(es: seq<Entry<V>>, e: Entry<V>): (r: seq<Entry<V>>)
  {
    match Find(es, e.key)
    case Some(i) => es[i := e]
    case None => es + [e]
  }

  /** `_get_cache_memory_usage`. */
  function MemoryUsage<V>(es: seq<Entry<V>>): nat
  {
    if es == [] then 0 else es[0].size + MemoryUsage(es[1..])
  }

  function AccessTotal<V>(es: seq<Entry<V>>): nat
  {
    if es == [] then 0 else es[0].accessCount + AccessTotal(es[1..])
  }

  /** `_calculate_hit_rate` (before rounding): accesses per entry. */
  function HitRate<V>(es: seq<Entry<V>>): (r: real)
    ensures r >= 0.0
    ensures es == [] ==> r == 0.0
  {
    if es == [] then 0.0 else AccessTotal(es) as real / |es| as real
  }

  /** The order `sorted(cache.items(), key=last_accessed)` sorts by. */
  predicate LruBefore<V>(a: Entry<V>, b: Entry<V>)
  {
    a.lastAccessed < b.lastAccessed
  }

  function LruOrder<V>(es: seq<Entry<V>>): (r: seq<Entry<V>>)
  {
    Sort(es, LruBefore)
  }

  /** `_evict_entries(count)`: everything when at most `count` entries are
      held, otherwise the `count` least recently used. */
  function EvictLru<V>(es: seq<Entry<V>>, count: int): (r: seq<Entry<V>>)
  {
    if |es| <= count then []
    else RemoveKeys(es, KeysOf(LruOrder(es)[..if count < 0 then 0 else count]))
  }

  /** How many leading entries the memory eviction loop deletes: it stops as
      soon as the freed size reaches the target. */
  function MemoryVictims<V>(s: seq<Entry<V>>, toFree: int): (r: nat)
    ensures r <= |s|
  {
    if s == [] || toFree <= 0 then 0 else 1 + MemoryVictims(s[1..], toFree - s[0].size)
  }

  /** The walk of `_evict_entries_by_memory` down the LRU order `order`:
      stop once nothing is left to free, otherwise delete the next entry and
      count its size as freed. */
  function DropVictims<V>(cache: seq<Entry<V>>, order: seq<Entry<V>>, toFree: int): (r: seq<Entry<V>>)
    decreases |order|
  {
    if order == [] || toFree <= 0 then cache
    else DropVictims(RemoveKey(cache, order[0].key), order[1..], toFree - order[0].size)
  }

  /** `_evict_entries_by_memory(memory_to_free)`. */
  function EvictByMemory<V>(es: seq<Entry<V>>, toFree: int): (r: seq<Entry<V>>)
  {
    DropVictims(es, LruOrder(es), toFree)
  }

  /** The new contents of a namespace after a `set` of entry `e` under the
      given count and memory limits. */
  function SetEntries<V>(es: seq<Entry<V>>, e: Entry<V>, maxSize: int, maxMemory: int): (r: seq<Entry<V>>)
  {
    var a := if |es| >= maxSize then EvictLru(es, 1) else es;
    var b := if MemoryUsage(a) + e.size > maxMemory then EvictLru(a, 1) else a;
    Put(b, e)
  }

  /** What `get` returns. */
  function Lookup<V>(es: seq<Entry<V>>, k: string, now: int): (r: Option<V>)
  {
    match Find(es, k)
    case None => None
    case Some(i) => if Expired(es[i], now) then None else Some(es[i].value)
  }

  /** The namespace after `get`: an expired entry is deleted, a live one
      touched. */
  function AfterGet<V>(es: seq<Entry<V>>, k: string, now: int): (r: seq<Entry<V>>)
  {
    match Find(es, k)
    case None => es
    case Some(i) => if Expired(es[i], now) then RemoveKey(es, k) else es[i := Touch(es[i], now)]
  }

  /** The keys `cleanup_expired` collects. */
  function ExpiredKeys<V>(es: seq<Entry<V>>, now: int): (r: seq<string>)
  {
    if es == [] then []
    else (if Expired(es[0], now) then [es[0].key] else []) + ExpiredKeys(es[1..], now)
  }

  function Unexpired<V>(es: seq<Entry<V>>, now: int): (r: seq<Entry<V>>)
  {
    if es == [] then []
    else (if Expired(es[0], now) then [] else [es[0]]) + Unexpired(es[1..], now)
  }

  /** The count step of `cleanup_oversized`: evict the excess. */
  function TrimCount<V>(es: seq<Entry<V>>, maxSize: int): (r: seq<Entry<V>>)
  {
    if |es| > maxSize then EvictLru(es, |es| - maxSize) else es
  }

  /** The memory step of `cleanup_oversized`: free the bytes over the limit. */
  function TrimMemory<V>(es: seq<Entry<V>>, maxMemory: int): (r: seq<Entry<V>>)
  {
    if MemoryUsage(es) > maxMemory then EvictByMemory(es, MemoryUsage(es) - maxMemory) else es
  }

  /** The namespace after `cleanup_oversized` under the given limits. */
  function Oversized<V>(es: seq<Entry<V>>, maxSize: int, maxMemory: int): (r: seq<Entry<V>>)
  {
    TrimMemory(TrimCount(es, maxSize), maxMemory)
  }

  // ---------------------------------------------------------------------
  // Lemmas about the namespace operations.

  lemma SameKeySameEntry<V>(es: seq<Entry<V>>, e: Entry<V>, f: Entry<V>)
    requires DistinctKeys(es) && e in es && f in es && e.key == f.key
    ensures e == f
  {
    var i :| 0 <= i < |es| && es[i] == e;
    var j :| 0 <= j < |es| && es[j] == f;
    assert i == j;
  }

  lemma FindUnique<V>(es: seq<Entry<V>>, i: nat)
    requires DistinctKeys(es) && i < |es|
    ensures Find(es, es[i].key) == Some(i)
  {
    var r := Find(es, es[i].key);
    if r.Some? {
      assert r.value == i;
    }
  }

  lemma {:induction false} RemoveKeysDistinct<V>(es: seq<Entry<V>>, ks: seq<string>)
    requires DistinctKeys(es)
    ensures DistinctKeys(RemoveKeys(es, ks))
  {
    if es != [] {
      RemoveKeysDistinct(es[1..], ks);
      if es[0].key !in ks {
        var rest := RemoveKeys(es[1..], ks);
        forall j | 0 <= j < |rest| ensures rest[j].key != es[0].key {
          assert rest[j] in es[1..];
          var k :| 0 <= k < |es[1..]| && es[1..][k] == rest[j];
          assert es[k + 1] == rest[j];
        }
      }
    }
  }

  lemma {:induction false} RemoveKeysKeeps<V>(es: seq<Entry<V>>, ks: seq<string>, e: Entry<V>)
    requires e in es && e.key !in ks
    ensures e in RemoveKeys(es, ks)
  {
    if es[0] != e {
      RemoveKeysKeeps(es[1..], ks, e);
    }
  }

  lemma {:induction false} RemoveKeysConcat<V>(a: seq<Entry<V>>, b: seq<Entry<V>>, ks: seq<string>)
    ensures RemoveKeys(a + b, ks) == RemoveKeys(a, ks) + RemoveKeys(b, ks)
  {
    if a == [] {
      assert a + b == b;
    } else {
      assert (a + b)[0] == a[0];
      assert (a + b)[1..] == a[1..] + b;
      RemoveKeysConcat(a[1..], b, ks);
    }
  }

  lemma {:induction false} RemoveKeysStep<V>(es: seq<Entry<V>>, ks: seq<string>, k: string)
    ensures RemoveKey(RemoveKeys(es, ks), k) == RemoveKeys(es, ks + [k])
  {
    if es != [] {
      RemoveKeysStep(es[1..], ks, k);
      var rest := RemoveKeys(es[1..], ks);
      if es[0].key !in ks {
        assert ([es[0]] + rest)[1..] == rest;
      }
    }
  }

  lemma {:induction false} RemoveKeysNone<V>(es: seq<Entry<V>>, ks: seq<string>)
    requires forall i :: 0 <= i < |es| ==> es[i].key !in ks
    ensures RemoveKeys(es, ks) == es
  {
    if es != [] {
      RemoveKeysNone(es[1..], ks);
    }
  }

  lemma {:induction false} RemoveKeysTwice<V>(es: seq<Entry<V>>, a: seq<string>, b: seq<string>)
    ensures RemoveKeys(RemoveKeys(es, a), b) == RemoveKeys(es, a + b)
  {
    if es != [] {
      RemoveKeysTwice(es[1..], a, b);
      if es[0].key !in a {
        assert ([es[0]] + RemoveKeys(es[1..], a))[1..] == RemoveKeys(es[1..], a);
      }
    }
  }

  /** The memory walk deletes exactly the first `MemoryVictims` entries of
      the LRU order. */
  lemma {:induction false} DropVictimsKeys<V>(cache: seq<Entry<V>>, order: seq<Entry<V>>, toFree: int)
    ensures DropVictims(cache, order, toFree) == RemoveKeys(cache, KeysOf(order[..MemoryVictims(order, toFree)]))
    decreases |order|
  {
    if order == [] || toFree <= 0 {
      assert KeysOf(order[..0]) == [];
      RemoveKeysNone(cache, []);
    } else {
      var k := order[0].key;
      var m := MemoryVictims(order[1..], toFree - order[0].size);
      DropVictimsKeys(RemoveKey(cache, k), order[1..], toFree - order[0].size);
      RemoveKeysTwice(cache, [k], KeysOf(order[1..][..m]));
      assert [k] + KeysOf(order[1..][..m]) == KeysOf(order[..m + 1]);
    }
  }

  lemma {:induction false} RemoveKeysAll<V>(es: seq<Entry<V>>, ks: seq<string>)
    requires forall i :: 0 <= i < |es| ==> es[i].key in ks
    ensures RemoveKeys(es, ks) == []
  {
    if es != [] {
      RemoveKeysAll(es[1..], ks);
    }
  }

  /** Removing the keys of a prefix of a duplicate-free sequence leaves the
      suffix. */
  lemma RemovePrefixKeys<V>(s: seq<Entry<V>>, c: nat)
    requires DistinctKeys(s) && c <= |s|
    ensures RemoveKeys(s, KeysOf(s[..c])) == s[c..]
  {
    var ks := KeysOf(s[..c]);
    assert s == s[..c] + s[c..];
    RemoveKeysConcat(s[..c], s[c..], ks);
    RemoveKeysAll(s[..c], ks);
    forall i, j | 0 <= i < |s[c..]| && 0 <= j < |ks| ensures ks[j] != s[c..][i].key {
      assert ks[j] == s[j].key && s[c..][i] == s[c + i];
    }
    RemoveKeysNone(s[c..], ks);
  }

  lemma {:induction false} MemoryConcat<V>(a: seq<Entry<V>>, b: seq<Entry<V>>)
    ensures MemoryUsage(a + b) == MemoryUsage(a) + MemoryUsage(b)
  {
    if a == [] {
      assert a + b == b;
    } else {
      assert (a + b)[1..] == a[1..] + b;
      MemoryConcat(a[1..], b);
    }
  }

  /** `Insert` places its element after the entries that come before it. */
  lemma {:induction false} InsertSplit<V(!new)>(x: Entry<V>, t: seq<Entry<V>>)
    ensures Insert(x, t, LruBefore) == InsertPrefix(x, t) + [x] + t[|InsertPrefix(x, t)|..]
  {
    if t != [] && LruBefore(t[0], x) {
      InsertSplit(x, t[1..]);
      var p := InsertPrefix(x, t[1..]);
      assert t[|InsertPrefix(x, t)|..] == t[1..][|p|..];
    }
  }

  /** The entries `Insert` steps over before placing its element. */
  function InsertPrefix<V>(x: Entry<V>, t: seq<Entry<V>>): (r: seq<Entry<V>>)
    ensures |r| <= |t| && r == t[..|r|]
  {
    if t == [] || !LruBefore(t[0], x) then [] else [t[0]] + InsertPrefix(x, t[1..])
  }

  lemma InsertRemove<V(!new)>(x: Entry<V>, t: seq<Entry<V>>, ks: seq<string>)
    ensures var p := InsertPrefix(x, t);
      RemoveKeys(Insert(x, t, LruBefore), ks)
        == RemoveKeys(p, ks) + RemoveKeys([x], ks) + RemoveKeys(t[|p|..], ks) &&
      RemoveKeys(t, ks) == RemoveKeys(p, ks) + RemoveKeys(t[|p|..], ks)
  {
    InsertSplit(x, t);
    var p := InsertPrefix(x, t);
    var q := t[|p|..];
    assert t == p + q;
    RemoveKeysConcat(p + [x], q, ks);
    RemoveKeysConcat(p, [x], ks);
    RemoveKeysConcat(p, q, ks);
  }

  lemma InsertCounts<V(!new)>(x: Entry<V>, t: seq<Entry<V>>, ks: seq<string>)
    ensures |RemoveKeys(Insert(x, t, LruBefore), ks)| == |RemoveKeys([x], ks)| + |RemoveKeys(t, ks)|
    ensures MemoryUsage(RemoveKeys(Insert(x, t, LruBefore), ks))
         == MemoryUsage(RemoveKeys([x], ks)) + MemoryUsage(RemoveKeys(t, ks))
  {
    InsertRemove(x, t, ks);
    var p := InsertPrefix(x, t);
    var a := RemoveKeys(p, ks);
    var b := RemoveKeys([x], ks);
    var c := RemoveKeys(t[|p|..], ks);
    MemoryConcat(a + b, c);
    MemoryConcat(a, b);
    MemoryConcat(a, c);
  }

  /** Sorting does not change how many entries, or how many bytes, survive a
      removal of keys. */
  lemma {:induction false} SortRemoveKeys<V(!new)>(s: seq<Entry<V>>, ks: seq<string>)
    ensures |RemoveKeys(LruOrder(s), ks)| == |RemoveKeys(s, ks)|
    ensures MemoryUsage(RemoveKeys(LruOrder(s), ks)) == MemoryUsage(RemoveKeys(s, ks))
  {
    if s != [] {
      SortRemoveKeys(s[1..], ks);
      InsertCounts(s[0], LruOrder(s[1..]), ks);
      assert s == [s[0]] + s[1..];
      RemoveKeysConcat([s[0]], s[1..], ks);
      MemoryConcat(RemoveKeys([s[0]], ks), RemoveKeys(s[1..], ks));
    }
  }

  lemma {:induction false} InsertDistinct<V(!new)>(x: Entry<V>, t: seq<Entry<V>>)
    requires DistinctKeys(t) && forall e :: e in t ==> e.key != x.key
    ensures DistinctKeys(Insert(x, t, LruBefore))
  {
    if t != [] && LruBefore(t[0], x) {
      assert forall e :: e in t[1..] ==> e in t;
      InsertDistinct(x, t[1..]);
      var rest := Insert(x, t[1..], LruBefore);
      forall j | 0 <= j < |rest| ensures rest[j].key != t[0].key {
        assert rest[j] in multiset(rest);
        if rest[j] != x {
          assert rest[j] in multiset(t[1..]);
          var k :| 0 <= k < |t[1..]| && t[1..][k] == rest[j];
          assert t[k + 1] == rest[j];
        }
      }
      assert Insert(x, t, LruBefore) == [t[0]] + rest;
      DistinctCons(t[0], rest);
    } else {
      forall j | 0 <= j < |t| ensures t[j].key != x.key {
        assert t[j] in t;
      }
      DistinctCons(x, t);
    }
  }

  /** Putting an entry with a fresh key ahead of distinct keys keeps them
      distinct. */
  lemma DistinctCons<V>(h: Entry<V>, rest: seq<Entry<V>>)
    requires DistinctKeys(rest) && forall j :: 0 <= j < |rest| ==> rest[j].key != h.key
    ensures DistinctKeys([h] + rest)
  {
    var es := [h] + rest;
    forall i, j | 0 <= i < j < |es| ensures es[i].key != es[j].key {
      assert es[j] == rest[j - 1];
      if i > 0 {
        assert es[i] == rest[i - 1];
      }
    }
  }

  lemma {:induction false} SortDistinct<V(!new)>(s: seq<Entry<V>>)
    requires DistinctKeys(s)
    ensures DistinctKeys(LruOrder(s))
  {
    if s != [] {
      SortDistinct(s[1..]);
      var t := LruOrder(s[1..]);
      forall e | e in t ensures e.key != s[0].key {
        assert e in multiset(s[1..]);
        var k :| 0 <= k < |s[1..]| && s[1..][k] == e;
        assert s[k + 1] == e;
      }
      InsertDistinct(s[0], t);
    }
  }

  lemma LruStrictWeakOrder<V(!new)>()
    ensures StrictWeakOrder<Entry<V>>(LruBefore)
  {
  }

  /** `_evict_entries` with fewer than `count` left over removes exactly
      `count` entries. */
  lemma EvictLruCount<V(!new)>(es: seq<Entry<V>>, count: int)
    requires DistinctKeys(es) && 0 <= count
    ensures |EvictLru(es, count)| == if |es| <= count then 0 else |es| - count
  {
    if |es| > count {
      EvictPrefix(es, count);
    }
  }

  /** Every entry `_evict_entries` removes was used no later than every
      entry it keeps. */
  lemma EvictLruOldest<V(!new)>(es: seq<Entry<V>>, count: int, e: Entry<V>, f: Entry<V>)
    requires DistinctKeys(es)
    requires e in es && e !in EvictLru(es, count) && f in EvictLru(es, count)
    ensures e.lastAccessed <= f.lastAccessed
  {
    var n := if count < 0 then 0 else count;
    var s := LruOrder(es);
    var ks := KeysOf(s[..n]);
    if e.key !in ks {
      RemoveKeysKeeps(es, ks, e);
    }
    var i :| 0 <= i < |ks| && ks[i] == e.key;
    assert s[i] in multiset(es);
    SameKeySameEntry(es, e, s[i]);
    assert f in multiset(s);
    var j :| 0 <= j < |s| && s[j] == f;
    assert j >= n by {
      assert forall m :: 0 <= m < n ==> ks[m] == s[m].key;
    }
    LruStrictWeakOrder<V>();
    SortSorted(es, LruBefore);
    assert i < j && !LruBefore(s[j], s[i]);
  }

  lemma {:induction false} VictimsFree<V>(s: seq<Entry<V>>, toFree: int)
    ensures MemoryVictims(s, toFree) < |s| ==> MemoryUsage(s[..MemoryVictims(s, toFree)]) >= toFree
  {
    if s != [] && toFree > 0 {
      var n := MemoryVictims(s, toFree);
      VictimsFree(s[1..], toFree - s[0].size);
      assert s[..n] == [s[0]] + s[1..][..n - 1];
      MemoryConcat([s[0]], s[1..][..n - 1]);
    }
  }

  /** What survives a removal of the keys of an LRU prefix is the rest of
      the LRU order, counted in entries and in bytes. */
  lemma EvictPrefix<V(!new)>(es: seq<Entry<V>>, n: nat)
    requires DistinctKeys(es) && n <= |es|
    ensures |RemoveKeys(es, KeysOf(LruOrder(es)[..n]))| == |es| - n
    ensures MemoryUsage(RemoveKeys(es, KeysOf(LruOrder(es)[..n])))
         == MemoryUsage(es) - MemoryUsage(LruOrder(es)[..n])
  {
    var s := LruOrder(es);
    SortDistinct(es);
    SortRemoveKeys(es, KeysOf(s[..n]));
    RemovePrefixKeys(s, n);
    SortPreservesMemory(es);
    assert s == s[..n] + s[n..];
    MemoryConcat(s[..n], s[n..]);
  }

  lemma SortPreservesMemory<V(!new)>(es: seq<Entry<V>>)
    ensures MemoryUsage(LruOrder(es)) == MemoryUsage(es)
  {
    SortRemoveKeys(es, []);
    RemoveKeysNone(es, []);
    RemoveKeysNone(LruOrder(es), []);
  }

  /** `_evict_entries_by_memory` either empties the namespace or frees at
      least the requested number of bytes. */
  lemma EvictByMemoryFrees<V(!new)>(es: seq<Entry<V>>, toFree: int)
    requires DistinctKeys(es)
    ensures EvictByMemory(es, toFree) == [] || MemoryUsage(EvictByMemory(es, toFree)) <= MemoryUsage(es) - toFree
  {
    var s := LruOrder(es);
    var n := MemoryVictims(s, toFree);
    DropVictimsKeys(es, s, toFree);
    EvictPrefix(es, n);
    VictimsFree(s, toFree);
  }

  lemma PutFinds<V>(es: seq<Entry<V>>, e: Entry<V>)
    requires DistinctKeys(es)
    ensures DistinctKeys(Put(es, e))
    ensures Find(Put(es, e), e.key).Some?
    ensures Put(es, e)[Find(Put(es, e), e.key).value] == e
    ensures |Put(es, e)| <= |es| + 1
  {
    var r := Put(es, e);
    match Find(es, e.key)
    case Some(i) =>
      assert forall j :: 0 <= j < |es| && j != i ==> r[j] == es[j];
      FindUnique(r, i);
    case None =>
      FindUnique(r, |es|);
  }

  lemma EvictDistinct<V>(es: seq<Entry<V>>, count: int)
    requires DistinctKeys(es)
    ensures DistinctKeys(EvictLru(es, count))
    ensures |EvictLru(es, count)| <= |es|
  {
    if |es| > count {
      RemoveKeysDistinct(es, KeysOf(LruOrder(es)[..if count < 0 then 0 else count]));
    }
  }

  lemma EvictByMemoryDistinct<V>(es: seq<Entry<V>>, toFree: int)
    requires DistinctKeys(es)
    ensures DistinctKeys(EvictByMemory(es, toFree))
    ensures |EvictByMemory(es, toFree)| <= |es|
  {
    var s := LruOrder(es);
    DropVictimsKeys(es, s, toFree);
    RemoveKeysDistinct(es, KeysOf(s[..MemoryVictims(s, toFree)]));
  }

  lemma OversizedDistinct<V>(es: seq<Entry<V>>, maxSize: int, maxMemory: int)
    requires DistinctKeys(es)
    ensures DistinctKeys(Oversized(es, maxSize, maxMemory))
  {
    TrimCountDistinct(es, maxSize);
    TrimMemoryDistinct(TrimCount(es, maxSize), maxMemory);
  }

  lemma TrimCountDistinct<V>(es: seq<Entry<V>>, maxSize: int)
    requires DistinctKeys(es)
    ensures DistinctKeys(TrimCount(es, maxSize))
  {
    if |es| > maxSize {
      EvictDistinct(es, |es| - maxSize);
    }
  }

  lemma TrimMemoryDistinct<V>(es: seq<Entry<V>>, maxMemory: int)
    requires DistinctKeys(es)
    ensures DistinctKeys(TrimMemory(es, maxMemory))
  {
    if MemoryUsage(es) > maxMemory {
      EvictByMemoryDistinct(es, MemoryUsage(es) - maxMemory);
    }
  }

  /** Round trip: after a `set` at time `now` with age limit `maxAge`, a
      `get` at any time `t` no later than `now + maxAge` returns the stored
      value, whatever the eviction removed first. */
  lemma SetThenGet<V>(es: seq<Entry<V>>, k: string, v: V, maxAge: int, size: nat, now: int,
                      maxSize: int, maxMemory: int, t: int)
    requires DistinctKeys(es) && t - now <= maxAge
    ensures Lookup(SetEntries(es, NewEntry(k, v, maxAge, size, now), maxSize, maxMemory), k, t) == Some(v)
  {
    var e := NewEntry(k, v, maxAge, size, now);
    var a := if |es| >= maxSize then EvictLru(es, 1) else es;
    EvictDistinct(es, 1);
    EvictDistinct(a, 1);
    var b := if MemoryUsage(a) + e.size > maxMemory then EvictLru(a, 1) else a;
    PutFinds(b, e);
  }

  lemma SetEntriesDistinct<V>(es: seq<Entry<V>>, e: Entry<V>, maxSize: int, maxMemory: int)
    requires DistinctKeys(es)
    ensures DistinctKeys(SetEntries(es, e, maxSize, maxMemory))
  {
    var a := if |es| >= maxSize then EvictLru(es, 1) else es;
    EvictDistinct(es, 1);
    EvictDistinct(a, 1);
    var b := if MemoryUsage(a) + e.size > maxMemory then EvictLru(a, 1) else a;
    PutFinds(b, e);
  }

  /** `set` keeps a namespace within a count limit of at least one. */
  lemma SetWithinLimit<V(!new)>(es: seq<Entry<V>>, e: Entry<V>, maxSize: int, maxMemory: int)
    requires DistinctKeys(es) && 1 <= maxSize && |es| <= maxSize
    ensures |SetEntries(es, e, maxSize, maxMemory)| <= maxSize
    ensures DistinctKeys(SetEntries(es, e, maxSize, maxMemory))
  {
    var a := if |es| >= maxSize then EvictLru(es, 1) else es;
    EvictDistinct(es, 1);
    if |es| >= maxSize {
      EvictLruCount(es, 1);
    }
    EvictDistinct(a, 1);
    var b := if MemoryUsage(a) + e.size > maxMemory then EvictLru(a, 1) else a;
    PutFinds(b, e);
  }

  /** A `get` hit touches exactly the entry it returns. */
  lemma GetHit<V>(es: seq<Entry<V>>, i: nat, now: int)
    requires DistinctKeys(es) && i < |es| && !Expired(es[i], now)
    ensures Lookup(es, es[i].key, now) == Some(es[i].value)
    ensures AfterGet(es, es[i].key, now)[i].accessCount == es[i].accessCount + 1
    ensures AfterGet(es, es[i].key, now)[i].lastAccessed == now
    ensures |AfterGet(es, es[i].key, now)| == |es|
    ensures forall j :: 0 <= j < |es| && j != i ==> AfterGet(es, es[i].key, now)[j] == es[j]
  {
    FindUnique(es, i);
  }

  /** A `get` of an expired entry deletes it and misses. */
  lemma GetExpired<V>(es: seq<Entry<V>>, i: nat, now: int)
    requires DistinctKeys(es) && i < |es| && Expired(es[i], now)
    ensures Lookup(es, es[i].key, now) == None
    ensures AfterGet(es, es[i].key, now) == es[..i] + es[i + 1..]
  {
    FindUnique(es, i);
    RemoveAtKey(es, i);
  }

  lemma RemoveAtKey<V>(es: seq<Entry<V>>, i: nat)
    requires DistinctKeys(es) && i < |es|
    ensures RemoveKey(es, es[i].key) == es[..i] + es[i + 1..]
  {
    var k := es[i].key;
    var front, back := es[..i], es[i + 1..];
    assert es == front + ([es[i]] + back);
    forall j | 0 <= j < |front| ensures front[j].key !in [k] {
      assert front[j] == es[j];
    }
    forall j | 0 <= j < |back| ensures back[j].key !in [k] {
      assert back[j] == es[i + 1 + j];
    }
    RemoveKeysNone(front, [k]);
    RemoveKeysNone(back, [k]);
    var tail := [es[i]] + back;
    assert tail[1..] == back && tail[0].key in [k];
    assert RemoveKeys(tail, [k]) == back;
    RemoveKeysConcat(front, tail, [k]);
    assert RemoveKeys(es, [k]) == front + back;
  }

  /** `delete` succeeds iff the key is held, and removes it. */
  lemma DeleteRemoves<V>(es: seq<Entry<V>>, k: string)
    ensures Find(RemoveKey(es, k), k).None?
    ensures Find(es, k).None? ==> RemoveKey(es, k) == es
    ensures Find(es, k).Some? ==> |RemoveKey(es, k)| < |es|
  {
    var r := RemoveKey(es, k);
    if Find(es, k).None? {
      RemoveKeysNone(es, [k]);
    } else {
      RemoveKeysShrinks(es, [k], Find(es, k).value);
    }
  }

  lemma {:induction false} RemoveKeysShrinks<V>(es: seq<Entry<V>>, ks: seq<string>, i: nat)
    requires i < |es| && es[i].key in ks
    ensures |RemoveKeys(es, ks)| < |es|
  {
    if i > 0 {
      RemoveKeysShrinks(es[1..], ks, i - 1);
    }
  }

  lemma {:induction false} ExpiredKeysRemove<V>(es: seq<Entry<V>>, now: int)
    requires DistinctKeys(es)
    ensures RemoveKeys(es, ExpiredKeys(es, now)) == Unexpired(es, now)
  {
    if es != [] {
      var ks := ExpiredKeys(es, now);
      var tail := ExpiredKeys(es[1..], now);
      ExpiredKeysAbsent(es[1..], now, es[0].key);
      assert DistinctKeys(es[1..]);
      ExpiredKeysRemove(es[1..], now);
      if Expired(es[0], now) {
        RemoveKeysOther(es[1..], tail, es[0].key);
        assert ks == [es[0].key] + tail;
      } else {
        assert ks == tail;
      }
    }
  }

  lemma {:induction false} ExpiredKeysAbsent<V>(es: seq<Entry<V>>, now: int, k: string)
    requires forall i :: 0 <= i < |es| ==> es[i].key != k
    ensures k !in ExpiredKeys(es, now)
  {
    if es != [] {
      ExpiredKeysAbsent(es[1..], now, k);
    }
  }

  /** Removing a key none of the entries holds, together with others,
      removes only the others. */
  lemma {:induction false} RemoveKeysOther<V>(es: seq<Entry<V>>, ks: seq<string>, k: string)
    requires forall i :: 0 <= i < |es| ==> es[i].key != k
    ensures RemoveKeys(es, [k] + ks) == RemoveKeys(es, ks)
  {
    if es != [] {
      RemoveKeysOther(es[1..], ks, k);
    }
  }

  /** After `cleanup_expired` no expired entry is left and every live entry
      is still held, unchanged. */
  lemma {:induction false} UnexpiredMeaning<V>(es: seq<Entry<V>>, now: int)
    ensures forall e :: e in Unexpired(es, now) ==> e in es && !Expired(e, now)
    ensures forall e :: e in es && !Expired(e, now) ==> e in Unexpired(es, now)
  {
    if es != [] {
      UnexpiredMeaning(es[1..], now);
    }
  }

  /** The count step of `cleanup_oversized` leaves at most `maxSize`
      entries. */
  lemma TrimToCount<V(!new)>(es: seq<Entry<V>>, maxSize: int)
    requires DistinctKeys(es) && 0 <= maxSize
    ensures |TrimCount(es, maxSize)| <= maxSize && DistinctKeys(TrimCount(es, maxSize))
  {
    TrimCountDistinct(es, maxSize);
    TrimCountBound(es, maxSize);
  }

  lemma TrimCountBound<V(!new)>(es: seq<Entry<V>>, maxSize: int)
    requires DistinctKeys(es) && 0 <= maxSize
    ensures |TrimCount(es, maxSize)| <= maxSize
  {
    if |es| > maxSize {
      EvictLruCount(es, |es| - maxSize);
    }
  }

  /** The memory step of `cleanup_oversized`. */
  lemma TrimToMemory<V(!new)>(a: seq<Entry<V>>, maxMemory: int)
    requires DistinctKeys(a) && 0 <= maxMemory
    ensures |TrimMemory(a, maxMemory)| <= |a|
    ensures MemoryUsage(TrimMemory(a, maxMemory)) <= maxMemory && DistinctKeys(TrimMemory(a, maxMemory))
  {
    if MemoryUsage(a) > maxMemory {
      EvictByMemoryFrees(a, MemoryUsage(a) - maxMemory);
      EvictByMemoryDistinct(a, MemoryUsage(a) - maxMemory);
    }
  }

  /** After `cleanup_oversized` a namespace is within both of its limits. */
  lemma OversizedWithinLimits<V(!new)>(es: seq<Entry<V>>, maxSize: int, maxMemory: int)
    requires DistinctKeys(es) && 0 <= maxSize && 0 <= maxMemory
    ensures |Oversized(es, maxSize, maxMemory)| <= maxSize
    ensures MemoryUsage(Oversized(es, maxSize, maxMemory)) <= maxMemory
    ensures DistinctKeys(Oversized(es, maxSize, maxMemory))
  {
    TrimToCount(es, maxSize);
    TrimToMemory(TrimCount(es, maxSize), maxMemory);
  }

  lemma {:induction false} AccessBound<V>(es: seq<Entry<V>>, m: nat)
    requires forall i :: 0 <= i < |es| ==> es[i].accessCount <= m
    ensures AccessTotal(es) <= m * |es|
  {
    if es != [] {
      AccessBound(es[1..], m);
    }
  }

  /** The hit rate is at most the largest access count. */
  lemma HitRateBound<V>(es: seq<Entry<V>>, m: nat)
    requires forall i :: 0 <= i < |es| ==> es[i].accessCount <= m
    ensures HitRate(es) <= m as real
  {
    if es != [] {
      AccessBound(es, m);
      assert (AccessTotal(es) as real) <= m as real * |es| as real;
    }
  }

  lemma KeysOfSnoc<V>(s: seq<Entry<V>>, i: nat)
    requires i < |s|
    ensures KeysOf(s[..i + 1]) == KeysOf(s[..i]) + [s[i].key]
  {
  }

  /** Every namespace has a configuration and holds each key once. */
  ghost predicate WellFormed<V>(caches: map<string, seq<Entry<V>>>, configs: map<string, Config>)
  {
    caches.Keys == configs.Keys && forall ns :: ns in caches ==> DistinctKeys(caches[ns])
  }

  lemma UpdateWellFormed<V>(caches: map<string, seq<Entry<V>>>, configs: map<string, Config>,
                            ns: string, es: seq<Entry<V>>)
    requires WellFormed(caches, configs) && ns in caches && DistinctKeys(es)
    ensures WellFormed(caches[ns := es], configs)
  {
  }

  /** The deletion loop of `_evict_entries`: deletes from `cache`, one at a
      time, the keys of the first `count` entries of the LRU order
      `entries`. */
  method DeleteOldest<V>(cache: seq<Entry<V>>, entries: seq<Entry<V>>, count: int) returns (current: seq<Entry<V>>)
    requires count <= |entries|
    ensures current == RemoveKeys(cache, KeysOf(entries[..if count < 0 then 0 else count]))
  {
    var n := if count < 0 then 0 else count;
    current := cache;
    RemoveKeysNone(cache, []);
    assert KeysOf(entries[..0]) == [];
    var i := 0;
    while i < count
      invariant 0 <= i <= n
      invariant current == RemoveKeys(cache, KeysOf(entries[..i]))
    {
      // The source's `if i < len(entries)` always holds: count <= len(entries).
      var key := entries[i].key;
      RemoveKeysStep(cache, KeysOf(entries[..i]), key);
      KeysOfSnoc(entries, i);
      current := RemoveKey(current, key);
      i := i + 1;
    }
  }

  /** The loop of `_evict_entries_by_memory`: walks the LRU order
      `entries`, deleting each entry from `cache`, until the freed size
      reaches `toFree`. */
  method DeleteUntilFreed<V>(cache: seq<Entry<V>>, entries: seq<Entry<V>>, toFree: int) returns (current: seq<Entry<V>>)
    ensures current == DropVictims(cache, entries, toFree)
  {
    current := cache;
    var freed := 0;
    var j := 0;
    assert entries[0..] == entries;
    while j < |entries|
      invariant 0 <= j <= |entries|
      invariant DropVictims(current, entries[j..], toFree - freed) == DropVictims(cache, entries, toFree)
    {
      if freed >= toFree {
        break;
      }
      assert entries[j..][1..] == entries[j + 1..];
      freed := freed + entries[j].size;
      current := RemoveKey(current, entries[j].key);
      j := j + 1;
    }
  }

  /** `_evict_entries` on the namespace's dictionary `cache`: cleared when
      it holds no more than `count` entries, otherwise the first `count`
      entries of the LRU order are deleted. */
  method EvictEntries<V>(cache: seq<Entry<V>>, count: int) returns (current: seq<Entry<V>>)
    ensures current == EvictLru(cache, count)
  {
    if |cache| <= count {
      return [];
    }
    var entries := LruOrder(cache);
    current := DeleteOldest(cache, entries, count);
  }

  /** `_evict_entries_by_memory` on the namespace's dictionary `cache`. */
  method EvictEntriesByMemory<V>(cache: seq<Entry<V>>, toFree: int) returns (current: seq<Entry<V>>)
    ensures current == EvictByMemory(cache, toFree)
  {
    var entries := LruOrder(cache);
    current := DeleteUntilFreed(cache, entries, toFree);
  }

  /** The count check of `cleanup_oversized` for one namespace: evict the
      entries over the limit. */
  method EnforceSizeLimit<V>(cache: seq<Entry<V>>, maxSize: int) returns (r: seq<Entry<V>>)
    ensures r == TrimCount(cache, maxSize)
  {
    r := cache;
    if |cache| > maxSize {
      r := EvictEntries(cache, |cache| - maxSize);
    }
  }

  /** The memory check of `cleanup_oversized` for one namespace: free the
      bytes over the limit. */
  method EnforceMemoryLimit<V>(cache: seq<Entry<V>>, maxMemory: int) returns (r: seq<Entry<V>>)
    ensures r == TrimMemory(cache, maxMemory)
  {
    r := cache;
    var current := MemoryUsage(cache);
    if current > maxMemory {
      r := EvictEntriesByMemory(cache, current - maxMemory);
    }
  }

  /** Both checks of `cleanup_oversized` for one namespace, count first. */
  method EnforceLimits<V>(cache: seq<Entry<V>>, maxSize: int, maxMemory: int) returns (r: seq<Entry<V>>)
    ensures r == Oversized(cache, maxSize, maxMemory)
  {
    r := EnforceSizeLimit(cache, maxSize);
    r := EnforceMemoryLimit(r, maxMemory);
  }

  /** `cleanup_oversized` for one namespace. */
  method SweepOversized<V>(cache: seq<Entry<V>>, maxSize: int, maxMemory: int) returns (r: seq<Entry<V>>)
    requires DistinctKeys(cache)
    ensures r == Oversized(cache, maxSize, maxMemory) && DistinctKeys(r)
  {
    OversizedDistinct(cache, maxSize, maxMemory);
    r := EnforceLimits(cache, maxSize, maxMemory);
  }

  /** `cleanup_expired` for one namespace: collect the expired keys, then
      delete them; what is left is exactly the live entries. */
  method SweepExpired<V>(cache: seq<Entry<V>>, now: int) returns (current: seq<Entry<V>>)
    requires DistinctKeys(cache)
    ensures current == Unexpired(cache, now) && DistinctKeys(current)
  {
    var expiredKeys := ExpiredKeys(cache, now);
    current := DeleteKeys(cache, expiredKeys);
    ExpiredKeysRemove(cache, now);
    RemoveKeysDistinct(cache, expiredKeys);
  }

  /** The loop of `cleanup_expired` over the namespaces. */
  method SweepAllExpired<V>(start: map<string, seq<Entry<V>>>, now: int) returns (caches: map<string, seq<Entry<V>>>)
    requires forall ns :: ns in start ==> DistinctKeys(start[ns])
    ensures caches == map ns | ns in start :: Unexpired(start[ns], now)
    ensures forall ns :: ns in caches ==> DistinctKeys(caches[ns])
  {
    ghost var target := map ns | ns in start :: Unexpired(start[ns], now);
    caches := start;
    var todo := start.Keys;
    ProgressStart(start, target);
    while todo != {}
      invariant todo <= start.Keys
      invariant caches == Progress(start, todo, target)
      invariant forall ns :: ns in caches ==> DistinctKeys(caches[ns])
      decreases todo
    {
      var ns :| ns in todo;
      var current := SweepExpired(caches[ns], now);
      ProgressStep(start, todo, target, ns);
      caches := caches[ns := current];
      todo := todo - {ns};
    }
    ProgressDone(start, target);
  }

  /** The loop of `cleanup_oversized` over the namespaces, each with its
      configured limits or the manager's defaults. */
  method SweepAllOversized<V>(start: map<string, seq<Entry<V>>>, configs: map<string, Config>,
                              maxSize: int, maxMemoryBytes: int) returns (caches: map<string, seq<Entry<V>>>)
    requires WellFormed(start, configs)
    ensures caches == map ns | ns in configs ::
      Oversized(start[ns], configs[ns].maxSize.GetOr(maxSize), configs[ns].maxMemoryBytes.GetOr(maxMemoryBytes))
    ensures WellFormed(caches, configs)
  {
    ghost var target := map ns | ns in configs ::
      Oversized(start[ns], configs[ns].maxSize.GetOr(maxSize), configs[ns].maxMemoryBytes.GetOr(maxMemoryBytes));
    caches := start;
    var todo := start.Keys;
    ProgressStart(start, target);
    while todo != {}
      invariant todo <= start.Keys
      invariant caches == Progress(start, todo, target)
      invariant WellFormed(caches, configs)
      decreases todo
    {
      var ns :| ns in todo;
      var cache := SweepOversized(caches[ns], configs[ns].maxSize.GetOr(maxSize), configs[ns].maxMemoryBytes.GetOr(maxMemoryBytes));
      ProgressStep(start, todo, target, ns);
      caches := caches[ns := cache];
      todo := todo - {ns};
    }
    ProgressDone(start, target);
  }

  /** The deletion loop of `cleanup_expired`: `del cache[key]` for each key
      in turn. */
  method DeleteKeys<V>(cache: seq<Entry<V>>, keys: seq<string>) returns (current: seq<Entry<V>>)
    ensures current == RemoveKeys(cache, keys)
  {
    current := cache;
    RemoveKeysNone(cache, []);
    var k := 0;
    while k < |keys|
      invariant 0 <= k <= |keys|
      invariant current == RemoveKeys(cache, keys[..k])
    {
      RemoveKeysStep(cache, keys[..k], keys[k]);
      assert keys[..k + 1] == keys[..k] + [keys[k]];
      current := RemoveKey(current, keys[k]);
      k := k + 1;
    }
    assert keys[..k] == keys;
  }

  /** The state of a loop over the namespaces of `start`: those still in
      `todo` are untouched, the others already hold their `target` value. */
  ghost function Progress<V>(start: map<string, seq<Entry<V>>>, todo: set<string>,
                             target: map<string, seq<Entry<V>>>): (r: map<string, seq<Entry<V>>>)
    requires start.Keys == target.Keys
    ensures r.Keys == start.Keys
  {
    map ns | ns in start :: if ns in todo then start[ns] else target[ns]
  }

  lemma ProgressStart<V>(start: map<string, seq<Entry<V>>>, target: map<string, seq<Entry<V>>>)
    requires start.Keys == target.Keys
    ensures Progress(start, start.Keys, target) == start
  {
  }

  lemma ProgressStep<V>(start: map<string, seq<Entry<V>>>, todo: set<string>,
                        target: map<string, seq<Entry<V>>>, ns: string)
    requires start.Keys == target.Keys && ns in start
    ensures Progress(start, todo, target)[ns := target[ns]] == Progress(start, todo - {ns}, target)
  {
  }

  lemma ProgressDone<V>(start: map<string, seq<Entry<V>>>, target: map<string, seq<Entry<V>>>)
    requires start.Keys == target.Keys
    ensures Progress(start, {}, target) == target
  {
  }

  // ---------------------------------------------------------------------
  // The manager.

  /** `CacheManager`: the namespaces, their configurations and the
      manager-wide defaults the configurations fall back to. */
  class CacheManager<V(!new)> {
    var maxSize: int
    var maxMemoryBytes: int
    var caches: map<string, seq<Entry<V>>>
    var configs: map<string, Config>

    /** Every namespace has a configuration and holds each key once. */
    ghost predicate Valid()
      reads this
    {
      WellFormed(caches, configs)
    }

    /** `config.get('max_size', self.max_size)`. */
    function SizeLimit(ns: string): int
      reads this`configs, this`maxSize
      requires ns in configs
    {
      configs[ns].maxSize.GetOr(maxSize)
    }

    /** `config.get('max_memory_bytes', self.max_memory_bytes)`. */
    function MemoryLimit(ns: string): int
      reads this`configs, this`maxMemoryBytes
      requires ns in configs
    {
      configs[ns].maxMemoryBytes.GetOr(maxMemoryBytes)
    }

    constructor (maxSize: int, maxMemoryMb: int)
      ensures Valid() && caches == map[] && configs == map[]
      ensures this.maxSize == maxSize && maxMemoryBytes == maxMemoryMb * 1024 * 1024
    {
      this.maxSize := maxSize;
      maxMemoryBytes := maxMemoryMb * 1024 * 1024;
      caches := map[];
      configs := map[];
    }

    /** `register_cache`: a new namespace starts empty; an existing one keeps
        its entries and takes the new configuration. */
    method RegisterCache(name: string, config: Config)
      requires Valid()
      modifies this
      ensures Valid()
      ensures caches == if name in old(caches) then old(caches) else old(caches)[name := []]
      ensures configs == old(configs)[name := config]
      ensures maxSize == old(maxSize) && maxMemoryBytes == old(maxMemoryBytes)
    {
      if name !in caches {
        caches := caches[name := []];
        configs := configs[name := config];
      } else {
        configs := configs[name := config];
      }
    }

    /** `get`: nothing changes for an unknown namespace or key; an expired
        entry is deleted; a live one is touched and its value returned. */
    method Get(ns: string, key: string, now: int) returns (r: Option<V>)
      requires Valid()
      modifies this
      ensures Valid()
      ensures ns !in old(caches) ==> r == None && caches == old(caches)
      ensures ns in old(caches) ==> r == Lookup(old(caches)[ns], key, now)
      ensures ns in old(caches) ==> caches == old(caches)[ns := AfterGet(old(caches)[ns], key, now)]
      ensures configs == old(configs) && maxSize == old(maxSize) && maxMemoryBytes == old(maxMemoryBytes)
    {
      if ns !in caches {
        return None;
      }
      var cache := caches[ns];
      var idx := Find(cache, key);
      if idx.None? {
        return None;
      }
      var entry := cache[idx.value];
      if Expired(entry, now) {
        RemoveKeysDistinct(cache, [key]);
        caches := caches[ns := RemoveKey(cache, key)];
        return None;
      }
      caches := caches[ns := cache[idx.value := Touch(entry, now)]];
      return Some(entry.value);
    }

    /** `set`: refused for an unknown namespace; otherwise evicts one entry
        when the namespace is full and one more when the new entry would
        pass the memory limit, then stores the entry. */
    method Set(ns: string, key: string, value: V, maxAge: Option<int>, size: nat, now: int) returns (ok: bool)
      requires Valid()
      modifies this
      ensures Valid()
      ensures ok <==> ns in old(caches)
      ensures !ok ==> caches == old(caches)
      ensures ok ==> ns in configs && caches == old(caches)[ns := SetEntries(old(caches)[ns],
                       NewEntry(key, value, maxAge.GetOr(configs[ns].maxAge.GetOr(300)), size, now),
                       SizeLimit(ns), MemoryLimit(ns))]
      ensures configs == old(configs) && maxSize == old(maxSize) && maxMemoryBytes == old(maxMemoryBytes)
    {
      if ns !in caches {
        return false;
      }
      var config := configs[ns];
      var age := if maxAge.Some? then maxAge.value else config.maxAge.GetOr(300);
      var entry := NewEntry(key, value, age, size, now);
      var sizeLimit, memoryLimit := SizeLimit(ns), MemoryLimit(ns);
      var cache := caches[ns];
      ghost var target := SetEntries(cache, entry, sizeLimit, memoryLimit);
      SetEntriesDistinct(cache, entry, sizeLimit, memoryLimit);
      if |cache| >= sizeLimit {
        cache := EvictEntries(cache, 1);
      }
      if MemoryUsage(cache) + entry.size > memoryLimit {
        cache := EvictEntries(cache, 1);
      }
      cache := Put(cache, entry);
      assert cache == target;
      UpdateWellFormed(caches, configs, ns, cache);
      caches := caches[ns := cache];
      return true;
    }

    /** `delete`: true iff the namespace holds the key, which is then gone. */
    method Delete(ns: string, key: string) returns (deleted: bool)
      requires Valid()
      modifies this
      ensures Valid()
      ensures deleted <==> ns in old(caches) && Find(old(caches)[ns], key).Some?
      ensures ns !in old(caches) ==> caches == old(caches)
      ensures ns in old(caches) ==> caches == old(caches)[ns := RemoveKey(old(caches)[ns], key)]
      ensures configs == old(configs) && maxSize == old(maxSize) && maxMemoryBytes == old(maxMemoryBytes)
    {
      if ns !in caches {
        return false;
      }
      var cache := caches[ns];
      DeleteRemoves(cache, key);
      if Find(cache, key).Some? {
        RemoveKeysDistinct(cache, [key]);
        caches := caches[ns := RemoveKey(cache, key)];
        return true;
      }
      return false;
    }

    /** `clear`: a non-empty name empties that namespace (if registered);
        no name, or the empty name, empties every namespace. */
    method Clear(name: Option<string>)
      requires Valid()
      modifies this
      ensures Valid()
      ensures name.Some? && name.value != "" ==>
        caches == if name.value in old(caches) then old(caches)[name.value := []] else old(caches)
      ensures name.None? || name.value == "" ==> caches == map ns | ns in old(caches) :: []
      ensures configs == old(configs) && maxSize == old(maxSize) && maxMemoryBytes == old(maxMemoryBytes)
    {
      if name.Some? && name.value != "" {
        if name.value in caches {
          caches := caches[name.value := []];
        }
      } else {
        var todo := caches.Keys;
        while todo != {}
          invariant todo <= caches.Keys && caches.Keys == old(caches).Keys
          invariant forall ns :: ns in caches ==> caches[ns] == if ns in todo then old(caches)[ns] else []
          invariant Valid() && configs == old(configs)
          invariant maxSize == old(maxSize) && maxMemoryBytes == old(maxMemoryBytes)
          decreases todo
        {
          var ns :| ns in todo;
          caches := caches[ns := []];
          todo := todo - {ns};
        }
      }
    }

    /** `cleanup_expired`: every namespace loses exactly its expired
        entries. */
    method CleanupExpired(now: int)
      requires Valid()
      modifies this
      ensures Valid()
      ensures caches == map ns | ns in old(caches) :: Unexpired(old(caches)[ns], now)
      ensures configs == old(configs) && maxSize == old(maxSize) && maxMemoryBytes == old(maxMemoryBytes)
    {
      caches := SweepAllExpired(caches, now);
    }

    /** `cleanup_oversized`: every namespace is brought within its count
        limit, then within its memory limit. */
    method CleanupOversized()
      requires Valid()
      modifies this
      ensures Valid()
      ensures configs == old(configs) && maxSize == old(maxSize) && maxMemoryBytes == old(maxMemoryBytes)
      ensures caches == map ns | ns in configs :: Oversized(old(caches)[ns], SizeLimit(ns), MemoryLimit(ns))
    {
      caches := SweepAllOversized(caches, configs, maxSize, maxMemoryBytes);
    }
  }

  /** The namespaces `get_cache_manager` registers, with their limits. */
  function DefaultConfigs(): map<string, Config>
  {
    map["default" := Config(Some(20), Some(300), Some(5 * 1024 * 1024)),
        "conditions" := Config(Some(10), Some(300), Some(10 * 1024 * 1024)),
        "spots" := Config(Some(50), Some(120), Some(5 * 1024 * 1024)),
        "weather" := Config(Some(20), Some(600), Some(1 * 1024 * 1024))]
  }

  /** `get_cache_manager` on first use: a manager with 100 entries and 50 MB
      as defaults, and the four registered namespaces, all empty. */
  method GetCacheManager<V(!new)>() returns (m: CacheManager<V>)
    ensures fresh(m) && m.Valid()
    ensures m.configs == DefaultConfigs() && m.caches == map ns | ns in DefaultConfigs() :: []
    ensures m.maxSize == 100 && m.maxMemoryBytes == 50 * 1024 * 1024
  {
    m := new CacheManager(100, 50);
    m.RegisterCache("default", Config(Some(20), Some(300), Some(5 * 1024 * 1024)));
    m.RegisterCache("conditions", Config(Some(10), Some(300), Some(10 * 1024 * 1024)));
    m.RegisterCache("spots", Config(Some(50), Some(120), Some(5 * 1024 * 1024)));
    m.RegisterCache("weather", Config(Some(20), Some(600), Some(1 * 1024 * 1024)));
  }

  /** The namespaces other parts of the system read and write: the
      accuracy tracker, the prediction and historical validators, and the
      contest and activation sources. */
  function AppNamespaces(): (r: seq<string>)
    ensures |r| == 6
  {
    ["predictions", "accuracy_history", "validation_reports", "historical_validation",
     "contests", "activations"]
  }

  /** None of them is registered by `get_cache_manager`. */
  lemma AppNamespacesUnregistered()
    ensures forall ns :: ns in AppNamespaces() ==> ns !in DefaultConfigs()
  {
  }

  /** As written: a write to "predictions" through the shared manager is
      refused, and the read that follows misses. */
  method WriteUnregistered<V(!new)>(key: string, value: V, size: nat, now: int) returns (ok: bool, r: Option<V>)
    ensures !ok && r == None
  {
    var m := GetCacheManager<V>();
    ok := m.Set("predictions", key, value, Some(86400 * 7), size, now);
    r := m.Get("predictions", key, now);
  }

  /** The registrations the system needs: the four of `get_cache_manager`
      plus every application namespace, on the manager-wide limits. */
  function CorrectedConfigs(): (r: map<string, Config>)
    ensures DefaultConfigs().Keys <= r.Keys
    ensures forall ns :: ns in AppNamespaces() ==> ns in r
  {
    DefaultConfigs()["predictions" := Config(None, None, None)]
                    ["accuracy_history" := Config(None, None, None)]
                    ["validation_reports" := Config(None, None, None)]
                    ["historical_validation" := Config(None, None, None)]
                    ["contests" := Config(None, None, None)]
                    ["activations" := Config(None, None, None)]
  }

  /** Corrected `get_cache_manager`: also registers the application
      namespaces. */
  method GetCacheManagerCorrected<V(!new)>() returns (m: CacheManager<V>)
    ensures fresh(m) && m.Valid()
    ensures m.configs == CorrectedConfigs() && m.caches == map ns | ns in CorrectedConfigs() :: []
    ensures m.maxSize == 100 && m.maxMemoryBytes == 50 * 1024 * 1024
  {
    m := GetCacheManager<V>();
    var names := AppNamespaces();
    var i := 0;
    while i < |names|
      invariant 0 <= i <= |names|
      invariant m.Valid() && m.maxSize == 100 && m.maxMemoryBytes == 50 * 1024 * 1024
      invariant m.configs == RegisteredFirst(i) && m.caches == map ns | ns in RegisteredFirst(i) :: []
    {
      m.RegisterCache(names[i], Config(None, None, None));
      i := i + 1;
    }
  }

  /** `DefaultConfigs` plus the first `n` application namespaces. */
  function RegisteredFirst(n: nat): (r: map<string, Config>)
    requires n <= |AppNamespaces()|
    ensures n == |AppNamespaces()| ==> r == CorrectedConfigs()
  {
    if n == 0 then DefaultConfigs()
    else RegisteredFirst(n - 1)[AppNamespaces()[n - 1] := Config(None, None, None)]
  }

  /** Corrected: the write is stored and read back. */
  method WriteRegistered<V(!new)>(key: string, value: V, size: nat, now: int) returns (ok: bool, r: Option<V>)
    ensures ok && r == Some(value)
  {
    var m := GetCacheManagerCorrected<V>();
    ok := m.Set("predictions", key, value, Some(86400 * 7), size, now);
    SetThenGet([], key, value, 86400 * 7, size, now, m.SizeLimit("predictions"), m.MemoryLimit("predictions"), now);
    r := m.Get("predictions", key, now);
  }
}
