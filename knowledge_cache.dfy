/**
 * The in-memory knowledge-base cache with time-to-live and oldest-first
 * eviction (lib/knowledge-cache.ts). The JavaScript `Map` is an insertion
 * order `order` plus the `entries` it indexes; clock readings and the
 * random draw of `get` are parameters.
 */
module KnowledgeCache {
  import opened Common

  const DefaultTtl := 5 * 60 * 1000
  const MaxSize := 100

  datatype CacheEntry<D> = CacheEntry(data: D, timestamp: int, expiry: int)

  datatype EntryStats = EntryStats(companyId: string, age: int, expiresIn: int)

  datatype CacheStats = CacheStats(size: nat, maxSize: nat, entries: seq<EntryStats>)



  /** The keys of `order` whose entry has not expired at `now`, in order. */
  function Unexpired<D>(order: seq<string>, entries: map<string, CacheEntry<D>>, now: int): (r: seq<string>)
    requires forall k :: k in order ==> k in entries
    ensures forall k :: k in r <==> k in order && entries[k].expiry >= now
    ensures Distinct(order) ==> Distinct(r)
  {
    if order == [] then []
    else
      var rest := Unexpired(order[1..], entries, now);
      assert Distinct(order) ==> Distinct(order[1..]) && order[0] !in order[1..] by {
        if Distinct(order) {
          forall i, j | 0 <= i < j < |order[1..]| ensures order[1..][i] != order[1..][j] {
            assert order[1..][i] == order[i + 1] && order[1..][j] == order[j + 1];
          }
          forall i | 0 <= i < |order[1..]| ensures order[1..][i] != order[0] { assert order[1..][i] == order[i + 1]; }
        }
      }
      if entries[order[0]].expiry >= now then
        assert forall i :: 1 <= i < |[order[0]] + rest| ==> ([order[0]] + rest)[i] == rest[i - 1];
        [order[0]] + rest
      else rest
  }

  /** The statistics line for each key, in insertion order. */
  function StatsOf<D>(order: seq<string>, entries: map<string, CacheEntry<D>>, now: int): (r: seq<EntryStats>)
    requires forall k :: k in order ==> k in entries
    ensures |r| == |order|
    ensures forall i :: 0 <= i < |r| ==> r[i] == EntryStats(order[i], now - entries[order[i]].timestamp, entries[order[i]].expiry - now)
  {
    seq(|order|, i requires 0 <= i < |order| =>
      EntryStats(order[i], now - entries[order[i]].timestamp, entries[order[i]].expiry - now))
  }

  /** The walk of `cleanExpiredCache` over the keys in order, deleting each expired entry. */
  method DropExpired<D>(order: seq<string>, entries: map<string, CacheEntry<D>>, now: int)
    returns (kept: seq<string>, left: map<string, CacheEntry<D>>)
    requires Distinct(order) && forall k :: k in order ==> k in entries
    ensures kept == Unexpired(order, entries, now)
    ensures forall k :: k in left <==> k in entries && (k !in order || entries[k].expiry >= now)
    ensures forall k :: k in left ==> left[k] == entries[k]
  {
    var i := 0;
    kept := [];
    left := entries;
    while i < |order|
      invariant 0 <= i <= |order|
      invariant kept == Unexpired(order[..i], entries, now)
      invariant forall k :: k in left <==> k in entries && (k !in order[..i] || entries[k].expiry >= now)
      invariant forall k :: k in left ==> left[k] == entries[k]
    {
      var k := order[i];
      assert order[..i + 1] == order[..i] + [k];
      UnexpiredAppend(order[..i], k, entries, now);
      if left[k].expiry < now {
        left := left - {k};
      } else {
        kept := kept + [k];
      }
      NotLater(order, i);
      i := i + 1;
    }
    assert order[..i] == order;
  }

  /** The index of the first entry with the smallest timestamp. */
  method OldestIndex<D>(order: seq<string>, entries: map<string, CacheEntry<D>>) returns (m: nat)
    requires order != [] && forall k :: k in order ==> k in entries
    ensures m < |order|
    ensures forall j :: 0 <= j < |order| ==> entries[order[m]].timestamp <= entries[order[j]].timestamp
    ensures forall j :: 0 <= j < m ==> entries[order[j]].timestamp > entries[order[m]].timestamp
  {
    m := 0;
    var i := 1;
    while i < |order|
      invariant 1 <= i <= |order| && m < i
      invariant forall j :: 0 <= j < i ==> entries[order[m]].timestamp <= entries[order[j]].timestamp
      invariant forall j :: 0 <= j < m ==> entries[order[j]].timestamp > entries[order[m]].timestamp
    {
      if entries[order[i]].timestamp < entries[order[m]].timestamp {
        m := i;
      }
      i := i + 1;
    }
  }

  /** The loop of `enforceMaxSize`: while over `MaxSize`, delete the first oldest entry. */
  method EvictOldest<D>(order: seq<string>, entries: map<string, CacheEntry<D>>)
    returns (o: seq<string>, e: map<string, CacheEntry<D>>)
    requires Distinct(order) && forall k :: k in order <==> k in entries
    ensures Distinct(o) && forall k :: k in o <==> k in e
    ensures |o| == Min(|order|, MaxSize)
    ensures |order| <= MaxSize ==> o == order && e == entries
    ensures forall k :: k in e ==> k in entries && e[k] == entries[k]
    ensures forall gone, k :: gone in entries && gone !in e && k in e ==>
      entries[gone].timestamp <= e[k].timestamp
  {
    o, e := order, entries;
    if |o| <= MaxSize {
      return;
    }
    ghost var removed: set<string> := {};
    while |o| > MaxSize
      invariant Distinct(o) && forall k :: k in o <==> k in e
      invariant |o| >= MaxSize
      invariant forall k :: k in e ==> k in entries && e[k] == entries[k]
      invariant forall k :: k in entries && k !in e ==> k in removed
      invariant removed <= entries.Keys
      invariant forall gone, k :: gone in removed && k in e ==> entries[gone].timestamp <= e[k].timestamp
      decreases |o|
    {
      var m := OldestIndex(o, e);
      var k := o[m];
      assert forall x :: x in e ==> e[k].timestamp <= e[x].timestamp by {
        forall x | x in e ensures e[k].timestamp <= e[x].timestamp {
          var j :| 0 <= j < |o| && o[j] == x;
        }
      }
      RemoveAtDistinct(o, m);
      o := o[..m] + o[m + 1..];
      e := e - {k};
      removed := removed + {k};
    }
  }

  class KnowledgeCache<D> {
    var order: seq<string>
    var entries: map<string, CacheEntry<D>>

    ghost predicate Valid()
      reads this
    {
      Distinct(order) && (forall k :: k in order <==> k in entries)
    }

    constructor ()
      ensures Valid() && order == [] && entries == map[]
    {
      order := [];
      entries := map[];
    }

    /** `cache.size`. */
    function Size(): (n: nat)
      reads this
      requires Valid()
      ensures n == |entries|
    {
      DistinctCard(order);
      assert (set k | k in order) == entries.Keys;
      |order|
    }

    /** `cleanExpiredCache()`: removes exactly the entries whose expiry is before `now`. */
    method CleanExpired(now: int)
      requires Valid()
      modifies this
      ensures Valid()
      ensures order == Unexpired(old(order), old(entries), now)
      ensures forall k :: k in entries <==> k in old(entries) && old(entries)[k].expiry >= now
      ensures forall k :: k in entries ==> entries[k] == old(entries)[k]
    {
      var kept, left := DropExpired(order, entries, now);
      order := kept;
      entries := left;
    }

    /**
     * `enforceMaxSize()`: when over `MaxSize`, deletes the surplus entries
     * with the smallest timestamps; nothing else changes.
     */
    method EnforceMaxSize()
      requires Valid()
      modifies this
      ensures Valid()
      ensures |order| == Min(|old(order)|, MaxSize)
      ensures |old(order)| <= MaxSize ==> order == old(order) && entries == old(entries)
      ensures forall k :: k in entries ==> k in old(entries) && entries[k] == old(entries)[k]
      ensures forall gone, k :: gone in old(entries) && gone !in entries && k in entries ==>
        old(entries)[gone].timestamp <= entries[k].timestamp
    {
      order, entries := EvictOldest(order, entries);
    }

    /**
     * `getCachedKnowledgeBase(companyId)`. `cleanRoll` is the outcome of
     * `Math.random() < 0.1`; the cleanup reads the clock as `cleanNow`, and
     * the expiry check of the requested entry reads it again as `now`.
     */
    method Get(companyId: string, cleanNow: int, now: int, cleanRoll: bool) returns (r: Option<D>)
      requires Valid()
      modifies this
      ensures Valid()
      ensures var cleaned := cleanRoll && |old(order)| > 0;
              r == if companyId in old(entries)
                      && !(cleaned && old(entries)[companyId].expiry < cleanNow)
                      && old(entries)[companyId].expiry >= now
                   then Some(old(entries)[companyId].data) else None
      ensures cleanNow <= now ==>
        r == if companyId in old(entries) && old(entries)[companyId].expiry >= now
             then Some(old(entries)[companyId].data) else None
      ensures forall k :: k in entries ==> k in old(entries) && entries[k] == old(entries)[k]
      ensures forall k :: k in entries <==> (k in old(entries)
        && (cleanRoll && |old(order)| > 0 ==> old(entries)[k].expiry >= cleanNow)
        && !(k == companyId && old(entries)[k].expiry < now))
      ensures var cleaned := if cleanRoll && |old(order)| > 0 then Unexpired(old(order), old(entries), cleanNow)
                             else old(order);
              order == if companyId in cleaned && old(entries)[companyId].expiry < now
                       then Without(cleaned, companyId) else cleaned
    {
      if |order| > 0 && cleanRoll {
        CleanExpired(cleanNow);
      }
      if companyId !in entries {
        return None;
      }
      var entry := entries[companyId];
      if entry.expiry < now {
        order := Without(order, companyId);
        entries := entries - {companyId};
        return None;
      }
      r := Some(entry.data);
    }

    /**
     * `setCachedKnowledgeBase(companyId, data, config)`: clean at the clock
     * reading `cleanNow`, trim to `MaxSize`, then store the entry stamped
     * with a second reading `now`, expiring at `now + ttl`.
     */
    method Set(companyId: string, data: D, ttl: int, cleanNow: int, now: int)
      requires Valid()
      modifies this
      ensures Valid()
      ensures companyId in entries && entries[companyId] == CacheEntry(data, now, now + ttl)
      ensures forall k :: k in entries && k != companyId ==>
        k in old(entries) && entries[k] == old(entries)[k] && old(entries)[k].expiry >= cleanNow
      ensures |entries| <= MaxSize + 1
    {
      var o1, e1 := DropExpired(order, entries, cleanNow);
      OrderedKeysCard(o1, e1);
      var o, e := EvictOldest(o1, e1);
      OrderedKeysCard(o, e);
      if companyId !in o {
        assert Distinct(o + [companyId]);
        o := o + [companyId];
      }
      var stored := e[companyId := CacheEntry(data, now, now + ttl)];
      forall k | k in stored && k != companyId
        ensures k in entries && stored[k] == entries[k] && entries[k].expiry >= cleanNow
      {
        assert k in e1 && stored[k] == e1[k];
      }
      order, entries := o, stored;
    }

    /** `clearKnowledgeBaseCache(companyId)`: removes only that key. */
    method Clear(companyId: string)
      requires Valid()
      modifies this
      ensures Valid()
      ensures entries == old(entries) - {companyId}
    {
      order := Without(order, companyId);
      entries := entries - {companyId};
    }

    /** `clearAllKnowledgeBaseCache()`. */
    method ClearAll()
      modifies this
      ensures Valid() && order == [] && entries == map[]
    {
      order := [];
      entries := map[];
    }

    /** `getCacheStats()`: the entry count, the fixed maximum, and one line per entry. */
    method GetCacheStats(now: int) returns (s: CacheStats)
      requires Valid()
      ensures s.size == |entries| && s.maxSize == MaxSize
      ensures |s.entries| == |entries| == |order|
      ensures forall i :: 0 <= i < |s.entries| ==> s.entries[i].companyId == order[i]
      ensures forall i, j :: 0 <= i < j < |s.entries| ==> s.entries[i].companyId != s.entries[j].companyId
      ensures forall k :: k in entries <==> exists i :: 0 <= i < |s.entries| && s.entries[i].companyId == k
      ensures forall i :: 0 <= i < |s.entries| ==>
        s.entries[i].companyId in entries
        && s.entries[i].age == now - entries[s.entries[i].companyId].timestamp
        && s.entries[i].expiresIn == entries[s.entries[i].companyId].expiry - now
    {
      s := CacheStats(Size(), MaxSize, StatsOf(order, entries, now));
    }
  }

  /** In a sequence without repeats an element does not occur after its position. */
  lemma NotLater(s: seq<string>, i: int)
    requires Distinct(s) && 0 <= i < |s|
    ensures s[i] !in s[i + 1..]
  {
    forall j | i + 1 <= j < |s| ensures s[j] != s[i] { }
  }

  lemma UnexpiredAppend<D>(order: seq<string>, k: string, entries: map<string, CacheEntry<D>>, now: int)
    requires forall x :: x in order ==> x in entries
    requires k in entries
    ensures Unexpired(order + [k], entries, now) ==
      Unexpired(order, entries, now) + (if entries[k].expiry >= now then [k] else [])
    decreases |order|
  {
    if order == [] {
      assert [k][1..] == [];
    } else {
      assert (order + [k])[1..] == order[1..] + [k];
      UnexpiredAppend(order[1..], k, entries, now);
    }
  }

  lemma RemoveAtDistinct(s: seq<string>, m: nat)
    requires Distinct(s) && m < |s|
    ensures var r := s[..m] + s[m + 1..];
      Distinct(r) && |r| == |s| - 1 && (forall x :: x in r <==> x in s && x != s[m])
  {
    var r := s[..m] + s[m + 1..];
    assert forall i :: 0 <= i < |r| ==> r[i] == (if i < m then s[i] else s[i + 1]);
    forall x | x in s && x != s[m] ensures x in r {
      var j :| 0 <= j < |s| && s[j] == x;
      if j < m { assert r[j] == x; } else { assert r[j - 1] == x; }
    }
  }
}
