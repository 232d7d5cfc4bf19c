/** The write-behind sample store shared by the demos: `localStorage` (a
    string-keyed store of record arrays, JSON taken as the identity), and the
    per-controller `dataCache` with its single five-second save interval. */
module Store {
  import opened Records

  type Items = map<string, seq<Record>>

  /** `localStorage`: each key holds the parsed JSON array of records. */
  class LocalStorage {
    var items: Items

    constructor (initial: Items)
      ensures items == initial
    {
      items := initial;
    }

    /** `JSON.parse(storage.getItem(key) || "[]")`. */
    function GetItem(key: string): seq<Record>
      reads this
    {
      Get(items, key)
    }

    /** `storage.setItem(key, JSON.stringify(value))`. */
    method SetItem(key: string, value: seq<Record>)
      modifies this
      ensures items == old(items)[key := value]
    {
      items := items[key := value];
    }
  }

  // ---------------------------------------------------------------------------
  // What a flush does, as functions of the store and the cache
  // ---------------------------------------------------------------------------

  /** The store after one run of the save interval: every cached key holds its
      stored array (empty if absent) followed by its queue; other keys are as
      they were. */
  function Flushed(stored: Items, cache: Items): Items
  {
    map k | k in stored.Keys + cache.Keys :: if k in cache then Get(stored, k) + cache[k] else stored[k]
  }

  /** The cache after a flush: every queue reset to `[]`, no key removed. */
  function Emptied(cache: Items): Items
  {
    map k | k in cache :: []
  }

  /** Everything recorded for a key, persisted records first. */
  function History(stored: Items, cache: Items, k: string): seq<Record>
  {
    Get(stored, k) + Get(cache, k)
  }

  /** A flush neither loses, duplicates nor reorders a record: for every key the
      persisted records followed by the queued ones are the same sequence before
      and after. */
  lemma FlushKeepsHistory(stored: Items, cache: Items, k: string)
    ensures History(Flushed(stored, cache), Emptied(cache), k) == History(stored, cache, k)
  {
    if k in cache {
      assert Get(Flushed(stored, cache), k) == Get(stored, k) + cache[k];
      assert Get(Emptied(cache), k) == [];
    }
  }

  /** After a flush a key holds what it held before, and then exactly its queue:
      stored records are never removed, and the queue lands after them in order. */
  lemma FlushAppendsQueue(stored: Items, cache: Items, k: string)
    ensures var after := Get(Flushed(stored, cache), k);
      && |after| == |Get(stored, k)| + |Get(cache, k)|
      && after[..|Get(stored, k)|] == Get(stored, k)
      && after[|Get(stored, k)|..] == Get(cache, k)
  {
    var after := Get(Flushed(stored, cache), k);
    if k in cache {
      assert after == Get(stored, k) + cache[k];
    } else {
      assert after == Get(stored, k);
    }
  }

  /** A flush of a cache whose queues are all empty leaves every key's contents
      as they were (it may only add absent keys holding `[]`). */
  lemma FlushOfEmptyQueues(stored: Items, cache: Items, k: string)
    requires forall q :: q in cache ==> cache[q] == []
    ensures Get(Flushed(stored, cache), k) == Get(stored, k)
  {
    if k in cache {
      assert Get(Flushed(stored, cache), k) == Get(stored, k) + [];
    }
  }

  /** Two caches flushing into the same store (the position and the orientation
      caches of the full application): the second flush keeps everything the
      first wrote, and the key ends with both queues after the old contents, in
      flush order. */
  lemma TwoCachesFlush(stored: Items, first: Items, second: Items, k: string)
    ensures Get(Flushed(Flushed(stored, first), second), k) == Get(stored, k) + Get(first, k) + Get(second, k)
  {
    FlushAppendsQueue(stored, first, k);
    FlushAppendsQueue(Flushed(stored, first), second, k);
    var s0, s1 := Get(stored, k), Get(Flushed(stored, first), k);
    var s2 := Get(Flushed(Flushed(stored, first), second), k);
    assert s1 == s1[..|s0|] + s1[|s0|..];
    assert s2 == s2[..|s1|] + s2[|s1|..];
  }

  /** A store that agrees with `Flushed` key by key is `Flushed`. */
  lemma FlushedPointwise(stored: Items, cache: Items, m: Items)
    requires m.Keys == stored.Keys + cache.Keys
    requires forall k :: k in m ==> m[k] == if k in cache then Get(stored, k) + cache[k] else stored[k]
    ensures m == Flushed(stored, cache)
  {
  }

  // ---------------------------------------------------------------------------
  // The cache object
  // ---------------------------------------------------------------------------

  /** A controller's `dataCache` (queues by device key) and `saveInterval`, and
      the store its interval writes to. `timersCreated` counts the intervals
      this cache has ever started. */
  class SampleCache {
    var dataCache: Items
    var saveInterval: bool
    ghost var timersCreated: nat
    const storage: LocalStorage

    /** At most one save interval ever exists, and a queue exists only once the
        interval that will flush it has been started. */
    ghost predicate Valid()
      reads this
    {
      && timersCreated == (if saveInterval then 1 else 0)
      && (dataCache != map[] ==> saveInterval)
    }

    /** Everything recorded for a key through this cache. */
    ghost function HistoryOf(k: string): seq<Record>
      reads this, storage
    {
      History(storage.items, dataCache, k)
    }

    /** No cache and no interval yet (`dataCache` undefined or `{}`). */
    constructor (storage: LocalStorage)
      ensures Valid()
      ensures this.storage == storage && dataCache == map[] && !saveInterval
    {
      this.storage := storage;
      dataCache := map[];
      saveInterval := false;
      timersCreated := 0;
    }

    /** `storePositionData(key, data)`: creates the key's queue on first use,
        appends the record, and starts the save interval unless one exists. */
    method Push(key: string, data: Record)
      requires Valid()
      modifies this
      ensures Valid()
      ensures dataCache == old(dataCache)[key := Get(old(dataCache), key) + [data]]
      ensures saveInterval
      ensures timersCreated == 1
      ensures old(saveInterval) ==> timersCreated == old(timersCreated)
      ensures forall k :: HistoryOf(k) == if k == key then old(HistoryOf(k)) + [data] else old(HistoryOf(k))
    {
      if key !in dataCache {
        dataCache := dataCache[key := []];
      }
      dataCache := dataCache[key := dataCache[key] + [data]];
      if !saveInterval {
        saveInterval := true;
        timersCreated := timersCreated + 1;
      }
    }

    /** One run of the save interval: for every key of the cache, write the
        stored array followed by the queue back to the store, then reset the
        queue to `[]`. */
    method Flush()
      requires Valid()
      modifies this, storage
      ensures Valid()
      ensures storage.items == Flushed(old(storage.items), old(dataCache))
      ensures dataCache == Emptied(old(dataCache))
      ensures saveInterval == old(saveInterval) && timersCreated == old(timersCreated)
      ensures forall k :: HistoryOf(k) == old(HistoryOf(k))
    {
      ghost var stored0, cache0 := storage.items, dataCache;
      var pending := dataCache.Keys;
      while pending != {}
        invariant pending <= cache0.Keys
        invariant saveInterval == old(saveInterval) && timersCreated == old(timersCreated)
        invariant dataCache.Keys == cache0.Keys
        invariant forall k :: k in dataCache ==> dataCache[k] == if k in pending then cache0[k] else []
        invariant storage.items.Keys == stored0.Keys + (cache0.Keys - pending)
        invariant forall k :: k in storage.items ==>
          storage.items[k] == if k in cache0 && k !in pending then Get(stored0, k) + cache0[k] else stored0[k]
        decreases pending
      {
        var name :| name in pending;
        var storedData := storage.GetItem(name);
        storage.SetItem(name, storedData + dataCache[name]);
        dataCache := dataCache[name := []];
        pending := pending - {name};
      }
      FlushedPointwise(stored0, cache0, storage.items);
      assert dataCache == Emptied(cache0);
      forall k ensures HistoryOf(k) == History(stored0, cache0, k) {
        FlushKeepsHistory(stored0, cache0, k);
      }
    }

    /** The loss marking of the cache side: the last record of the key's queue,
        if the queue exists and is non-empty, gains `isEndOfLine = true`. */
    method MarkLastQueued(key: string)
      requires Valid()
      modifies this
      ensures Valid()
      ensures saveInterval == old(saveInterval) && timersCreated == old(timersCreated)
      ensures dataCache == MarkLastCached(old(dataCache), key)
    {
      if key in dataCache && |dataCache[key]| > 0 {
        dataCache := dataCache[key := MarkLast(dataCache[key])];
      }
    }
  }

  /** The loss marking of the store side, on a store value: the last persisted
      record gains the flag and the array is written back; an empty or absent
      key is not written at all. */
  function MarkLastStored(stored: Items, key: string): (r: Items)
    ensures r.Keys == stored.Keys
    ensures forall k :: k in r && k != key ==> r[k] == stored[k]
    ensures Get(r, key) == MarkLast(Get(stored, key))
    ensures |Get(stored, key)| == 0 ==> r == stored
  {
    if |Get(stored, key)| > 0 then stored[key := MarkLast(stored[key])] else stored
  }

  /** The loss marking of the cache side, on a cache value. */
  function MarkLastCached(cache: Items, key: string): (r: Items)
    ensures r.Keys == cache.Keys
    ensures forall k :: k in r && k != key ==> r[k] == cache[k]
    ensures Get(r, key) == MarkLast(Get(cache, key))
  {
    if key in cache && |cache[key]| > 0 then cache[key := MarkLast(cache[key])] else cache
  }

  /** A signal loss as the demos handle it marks the last queued record and the
      last persisted record: the key's history becomes the marked persisted
      part followed by the marked queue, and every other key keeps its history. */
  lemma LossMarksBothParts(stored: Items, cache: Items, key: string, k: string)
    ensures History(MarkLastStored(stored, key), MarkLastCached(cache, key), k)
         == if k == key then MarkLast(Get(stored, k)) + MarkLast(Get(cache, k)) else History(stored, cache, k)
  {
  }

  /** A loss marking that touches only the most recent record of the key: the
      queue's last record if the queue is non-empty, the persisted last record
      otherwise. */
  function MarkLatest(stored: Items, cache: Items, key: string): (r: (Items, Items))
  {
    if |Get(cache, key)| > 0 then (stored, MarkLastCached(cache, key))
    else (MarkLastStored(stored, key), cache)
  }

  /** Marking the most recent record end-marks exactly the last record of the
      key's history and changes nothing else anywhere. */
  lemma MarkLatestMarksHistory(stored: Items, cache: Items, key: string, k: string)
    ensures var (s, c) := MarkLatest(stored, cache, key);
      History(s, c, k) == if k == key then MarkLast(History(stored, cache, k)) else History(stored, cache, k)
  {
    var (s, c) := MarkLatest(stored, cache, key);
    if k == key {
      var p, q := Get(stored, k), Get(cache, k);
      if |q| > 0 {
        assert History(s, c, k) == p + MarkLast(q);
        assert MarkLast(p + q) == p + MarkLast(q);
      } else {
        assert History(s, c, k) == MarkLast(p);
        assert p + q == p;
      }
    }
  }

  /** A one-shot read appended straight to the store (read, push, write back). */
  function AppendNow(stored: Items, key: string, r: Record): (s: Items)
    ensures s.Keys == stored.Keys + {key}
    ensures forall k :: k in s && k != key ==> s[k] == stored[k]
    ensures Get(s, key) == Get(stored, key) + [r]
  {
    stored[key := Get(stored, key) + [r]]
  }

  /** A one-shot record lands ahead of every continuous record still queued for
      the same key: persisted order follows write time, not arrival time. */
  lemma OnceLandsBeforeQueue(stored: Items, cache: Items, key: string, r: Record)
    ensures Get(Flushed(AppendNow(stored, key, r), cache), key) == Get(stored, key) + [r] + Get(cache, key)
  {
    FlushAppendsQueue(AppendNow(stored, key, r), cache, key);
    var after := Get(Flushed(AppendNow(stored, key, r), cache), key);
    var n := |Get(stored, key)| + 1;
    assert after == after[..n] + after[n..];
  }
}
