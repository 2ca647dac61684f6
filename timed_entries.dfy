/**
 * The storage shared by the block cache and the context cache of the response layer: a
 * Python `dict` from a string key to `(timestamp, value)`, kept here as a sequence of
 * entries in the dict's insertion order, so that the first-minimum choice of `min()` and
 * the position an overwritten key keeps are both visible.
 */
module TimedEntries {
  import opened Wrappers

  datatype Entry<V> = Entry(key: string, time: int, value: V)

  /** A dict holds each key once. */
  predicate KeysUnique<V>(es: seq<Entry<V>>) {
    forall i, j :: 0 <= i < j < |es| ==> es[i].key != es[j].key
  }

  function KeySet<V>(es: seq<Entry<V>>): set<string> {
    set i | 0 <= i < |es| :: es[i].key
  }

  /** Where `key` sits, if `key in cache`. */
  function IndexOf<V>(es: seq<Entry<V>>, key: string): (r: Option<nat>)
    ensures r.Some? ==> r.value < |es| && es[r.value].key == key
    ensures r.Some? ==> forall j :: 0 <= j < r.value ==> es[j].key != key
    ensures r.None? ==> forall j :: 0 <= j < |es| ==> es[j].key != key
  {
    if es == [] then None
    else if es[0].key == key then Some(0)
    else match IndexOf(es[1..], key)
      case None => None
      case Some(i) => Some(i + 1)
  }

  /** `cache.get(key)`, with its key. */
  function Get<V>(es: seq<Entry<V>>, key: string): Option<Entry<V>> {
    match IndexOf(es, key)
    case None => None
    case Some(i) => Some(es[i])
  }

  /** An entry is served while `now - timestamp < ttl`. */
  predicate Fresh<V>(e: Entry<V>, now: int, ttl: int) {
    now - e.time < ttl
  }

  /** What a lookup serves: the stored value when the key is present and its entry is still
      fresh; `None` for an absent or expired key.  A hit changes nothing, so an entry's
      timestamp is its write time, never its last read. */
  function Hit<V>(es: seq<Entry<V>>, key: string, now: int, ttl: int): Option<V> {
    match Get(es, key)
    case Some(e) => if Fresh(e, now, ttl) then Some(e.value) else None
    case None => None
  }

  /** The entry `min(cache.keys(), key=lambda k: cache[k][0])` picks: the first one, in
      insertion order, with the smallest timestamp. */
  function OldestIndex<V>(es: seq<Entry<V>>): (i: nat)
    requires es != []
    ensures i < |es|
    ensures forall j :: 0 <= j < |es| ==> es[i].time <= es[j].time
    ensures forall j :: 0 <= j < i ==> es[j].time > es[i].time
  {
    if |es| == 1 then 0
    else
      var k := OldestIndex(es[1..]) + 1;
      if es[0].time <= es[k].time then 0 else k
  }

  /** `del cache[es[i].key]`. */
  function Remove<V>(es: seq<Entry<V>>, i: nat): seq<Entry<V>>
    requires i < |es|
  {
    es[..i] + es[i + 1..]
  }

  /** `cache[key] = (time, value)`: an existing key keeps its place, a new one goes last. */
  function Put<V>(es: seq<Entry<V>>, key: string, time: int, value: V): seq<Entry<V>> {
    match IndexOf(es, key)
    case Some(j) => es[j := Entry(key, time, value)]
    case None => es + [Entry(key, time, value)]
  }

  /** The key a store deletes first: when `len(cache) >= size`, the oldest entry. */
  function Victim<V>(es: seq<Entry<V>>, capacity: int): Option<string> {
    if |es| >= capacity && es != [] then Some(es[OldestIndex(es)].key) else None
  }

  /** The store sequence the three cache writers share:
        if len(cache) >= size: del cache[min(cache, key=timestamp)]
        cache[key] = (time, value)
      `None` when the dict is empty and still "full" (a size of 0 or less): `min()` of an
      empty sequence raises `ValueError` and nothing is written. */
  function Store<V>(es: seq<Entry<V>>, capacity: int, key: string, time: int, value: V): Option<seq<Entry<V>>> {
    if |es| >= capacity then
      if es == [] then None
      else Some(Put(Remove(es, OldestIndex(es)), key, time, value))
    else Some(Put(es, key, time, value))
  }

  /** The size bound every cache keeps: at most `capacity` entries (a cache whose
      capacity is not positive stays empty). */
  predicate WithinCapacity<V>(es: seq<Entry<V>>, capacity: int) {
    |es| <= capacity || es == []
  }

  /** The loop behind `min(...)`: scans the entries in order and keeps the first smallest
      timestamp. */
  method FindOldest<V>(es: seq<Entry<V>>) returns (i: nat)
    requires es != []
    ensures i == OldestIndex(es)
  {
    i := 0;
    var j := 1;
    while j < |es|
      invariant 1 <= j <= |es| && i < j
      invariant forall k :: 0 <= k < j ==> es[i].time <= es[k].time
      invariant forall k :: 0 <= k < i ==> es[k].time > es[i].time
    {
      if es[j].time < es[i].time {
        i := j;
      }
      j := j + 1;
    }
  }

  lemma GetAt<V>(es: seq<Entry<V>>, j: nat)
    requires KeysUnique(es) && j < |es|
    ensures Get(es, es[j].key) == Some(es[j])
  {
  }

  lemma GetMissing<V>(es: seq<Entry<V>>, k: string)
    requires k !in KeySet(es)
    ensures Get(es, k) == None
  {
  }

  lemma RemoveAt<V>(es: seq<Entry<V>>, i: nat)
    requires i < |es|
    ensures |Remove(es, i)| == |es| - 1
    ensures forall j :: 0 <= j < i ==> Remove(es, i)[j] == es[j]
    ensures forall j :: i <= j < |es| - 1 ==> Remove(es, i)[j] == es[j + 1]
  {
  }

  lemma RemoveKeys<V>(es: seq<Entry<V>>, i: nat)
    requires KeysUnique(es) && i < |es|
    ensures KeysUnique(Remove(es, i))
    ensures KeySet(Remove(es, i)) == KeySet(es) - {es[i].key}
  {
    var r := Remove(es, i);
    RemoveAt(es, i);
    forall a, b | 0 <= a < b < |r| ensures r[a].key != r[b].key {
      var a' := if a < i then a else a + 1;
      var b' := if b < i then b else b + 1;
      assert r[a] == es[a'] && r[b] == es[b'];
    }
    forall k | k in KeySet(r) ensures k in KeySet(es) - {es[i].key} {
      var j :| 0 <= j < |r| && r[j].key == k;
      var j' := if j < i then j else j + 1;
      assert r[j] == es[j'];
    }
    forall k | k in KeySet(es) - {es[i].key} ensures k in KeySet(r) {
      var j :| 0 <= j < |es| && es[j].key == k;
      if j < i { assert r[j].key == k; } else { assert r[j - 1].key == k; }
    }
  }

  lemma RemoveSpec<V>(es: seq<Entry<V>>, i: nat)
    requires KeysUnique(es) && i < |es|
    ensures var r := Remove(es, i);
      && KeysUnique(r)
      && |r| == |es| - 1
      && KeySet(r) == KeySet(es) - {es[i].key}
      && Get(r, es[i].key) == None
      && forall k :: k != es[i].key ==> Get(r, k) == Get(es, k)
  {
    var r := Remove(es, i);
    RemoveAt(es, i);
    RemoveKeys(es, i);
    GetMissing(r, es[i].key);
    forall k | k != es[i].key ensures Get(r, k) == Get(es, k) {
      if k in KeySet(r) {
        var j :| 0 <= j < |r| && r[j].key == k;
        GetAt(r, j);
        if j < i { GetAt(es, j); } else { GetAt(es, j + 1); }
      } else {
        GetMissing(r, k);
        GetMissing(es, k);
      }
    }
  }

  lemma PutSpec<V>(es: seq<Entry<V>>, key: string, time: int, value: V)
    requires KeysUnique(es)
    ensures var r := Put(es, key, time, value);
      && KeysUnique(r)
      && |r| == (if key in KeySet(es) then |es| else |es| + 1)
      && KeySet(r) == KeySet(es) + {key}
      && Get(r, key) == Some(Entry(key, time, value))
      && forall k :: k != key ==> Get(r, k) == Get(es, k)
  {
    var r := Put(es, key, time, value);
    match IndexOf(es, key)
    case Some(j) =>
      assert KeysUnique(r);
      assert KeySet(r) == KeySet(es) + {key} by {
        forall k | k in KeySet(es) ensures k in KeySet(r) {
          var m :| 0 <= m < |es| && es[m].key == k;
          assert r[m].key == k;
        }
      }
      GetAt(r, j);
      forall k | k != key ensures Get(r, k) == Get(es, k) {
        if k in KeySet(es) {
          var m :| 0 <= m < |es| && es[m].key == k;
          GetAt(es, m);
          GetAt(r, m);
        } else {
          GetMissing(es, k);
          GetMissing(r, k);
        }
      }
    case None =>
      assert key !in KeySet(es);
      assert KeysUnique(r);
      assert KeySet(r) == KeySet(es) + {key} by {
        assert r[|es|].key == key;
        forall k | k in KeySet(es) ensures k in KeySet(r) {
          var m :| 0 <= m < |es| && es[m].key == k;
          assert r[m].key == k;
        }
      }
      GetAt(r, |es|);
      forall k | k != key ensures Get(r, k) == Get(es, k) {
        if k in KeySet(es) {
          var m :| 0 <= m < |es| && es[m].key == k;
          GetAt(es, m);
          GetAt(r, m);
        } else {
          GetMissing(es, k);
          GetMissing(r, k);
        }
      }
  }

  /** `min()` fails exactly when a cache with no positive capacity is asked to store. */
  lemma StoreFails<V>(es: seq<Entry<V>>, capacity: int, key: string, time: int, value: V)
    ensures Store(es, capacity, key, time, value).None? <==> (es == [] && capacity <= 0)
  {
  }

  /** After a store the new entry is found under its key with its write time; of the other
      keys exactly the victim (the oldest entry, when the cache was full) is gone and every
      other one keeps its entry. */
  lemma StoreSpec<V>(es: seq<Entry<V>>, capacity: int, key: string, time: int, value: V)
    requires KeysUnique(es)
    requires Store(es, capacity, key, time, value).Some?
    ensures var r := Store(es, capacity, key, time, value).value;
      && KeysUnique(r)
      && Get(r, key) == Some(Entry(key, time, value))
      && forall k :: k != key ==> Get(r, k) == if Victim(es, capacity) == Some(k) then None else Get(es, k)
  {
    if |es| >= capacity {
      var i := OldestIndex(es);
      RemoveSpec(es, i);
      PutSpec(Remove(es, i), key, time, value);
    } else {
      PutSpec(es, key, time, value);
    }
  }

  /** The size bound: a store into a cache within capacity leaves it within capacity, and a
      store into a full cache whose key is new leaves it exactly full. */
  lemma StoreBound<V>(es: seq<Entry<V>>, capacity: int, key: string, time: int, value: V)
    requires KeysUnique(es) && WithinCapacity(es, capacity)
    requires Store(es, capacity, key, time, value).Some?
    ensures var r := Store(es, capacity, key, time, value).value;
      && |r| <= capacity
      && (|es| == capacity && key !in KeySet(es) ==> |r| == capacity)
  {
    if |es| >= capacity {
      var i := OldestIndex(es);
      RemoveSpec(es, i);
      PutSpec(Remove(es, i), key, time, value);
    } else {
      PutSpec(es, key, time, value);
    }
  }

  /** A stored value is served by every lookup of its key until `ttl` has passed since the
      store: a second request within the TTL gets the identical value. */
  lemma HitAfterStore<V>(es: seq<Entry<V>>, capacity: int, key: string, time: int, value: V, now: int, ttl: int)
    requires KeysUnique(es)
    requires Store(es, capacity, key, time, value).Some?
    ensures Hit(Store(es, capacity, key, time, value).value, key, now, ttl) == (if now - time < ttl then Some(value) else None)
  {
    StoreSpec(es, capacity, key, time, value);
  }

  /** The three stores of the eviction test: with room for two entries, the first key is the
      one evicted by the third store and the other two remain. */
  lemma EvictsEarliestWrite<V>(f1: V, f2: V, f3: V)
    ensures var s1 := Store([], 2, "template1.html:block1", 1, f1).value;
      var s2 := Store(s1, 2, "template2.html:block2", 2, f2).value;
      Store(s2, 2, "template3.html:block3", 3, f3)
        == Some([Entry("template2.html:block2", 2, f2), Entry("template3.html:block3", 3, f3)])
  {
    var s1 := [Entry("template1.html:block1", 1, f1)];
    assert IndexOf<V>([], "template1.html:block1") == None;
    assert Put([], "template1.html:block1", 1, f1) == s1;
    assert "template1.html:block1"[8] != "template2.html:block2"[8];
    assert "template1.html:block1"[8] != "template3.html:block3"[8];
    assert "template2.html:block2"[8] != "template3.html:block3"[8];
    assert Store([], 2, "template1.html:block1", 1, f1) == Some(s1);
    var s2 := s1 + [Entry("template2.html:block2", 2, f2)];
    assert IndexOf(s1, "template2.html:block2") == None;
    assert Store(s1, 2, "template2.html:block2", 2, f2) == Some(s2);
    assert OldestIndex(s2) == 0;
    assert Remove(s2, 0) == [Entry("template2.html:block2", 2, f2)];
    assert IndexOf(Remove(s2, 0), "template3.html:block3") == None;
    assert Put(Remove(s2, 0), "template3.html:block3", 3, f3)
      == [Entry("template2.html:block2", 2, f2), Entry("template3.html:block3", 3, f3)];
  }

  /** Re-storing a key that is still present, into a full cache, deletes the oldest other
      entry first, so the cache ends one below its capacity. */
  lemma RestoreEvictsAnother()
    ensures var es := [Entry("a", 0, 1), Entry("b", 5, 2)];
      Store(es, 2, "b", 10, 3) == Some([Entry("b", 10, 3)])
  {
    var es := [Entry("a", 0, 1), Entry("b", 5, 2)];
    assert OldestIndex(es) == 0;
    assert Remove(es, 0) == [Entry("b", 5, 2)];
    assert IndexOf([Entry("b", 5, 2)], "b") == Some(0);
    assert Put([Entry("b", 5, 2)], "b", 10, 3) == [Entry("b", 10, 3)];
  }
}
