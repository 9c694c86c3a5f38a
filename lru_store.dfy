/** The TTL + LRU byte store of cache/lru.go as a class whose methods update
    its fields in place. The doubly linked recency list is the sequence
    `order` (front = index 0 = most recently used) and the key index is the
    map `index`. Clock readings are the explicit parameter `now`
    (nanoseconds); the mutex is left out, each method being one atomic step. */
module LruStore {
  import opened LruSeq

  class Lru {
    var maxMem: int
    var mem: int
    var index: map<string, Entry>
    var order: seq<Entry>
    var earliestExpiration: int
    var disabled: bool
    var readCount: int
    var hitCount: int

    /** List, index and byte counter agree: one list element per key, the
        index maps each key to its element, `mem` is the sum of sizes. */
    ghost predicate Consistent()
      reads this
    {
      && DistinctKeys(order)
      && index == IndexOf(order)
      && mem == SumSizes(order)
    }

    /** The store invariant: consistency, the watermark is never later than
        a resident entry's expiration, hits never exceed reads, and a
        disabled store holds nothing (only a wipe disables it, and put
        leaves a disabled store alone). */
    ghost predicate Valid()
      reads this
    {
      && Consistent()
      && Below(earliestExpiration, order)
      && 0 <= hitCount <= readCount
      && (disabled ==> order == [])
    }

    /** A get of `key` at `now` hits: the store is enabled and holds an
        entry for `key` that has not reached its expiration. */
    predicate Hit(key: string, now: int)
      reads this
    {
      !disabled && key in index && now < index[key].expiration
    }

    /** The recency list after a get of `key` that misses: a disabled store
        is untouched, an enabled one drops any (expired) entry for `key`. */
    function MissOrder(key: string): seq<Entry>
      reads this
    {
      if disabled then order else Without(order, key)
    }

    /** newLRU: an empty, enabled store whose watermark is a day ahead. */
    constructor (maxMem: int, now: int)
      ensures Valid()
      ensures this.maxMem == maxMem && order == [] && index == map[] && mem == 0
      ensures earliestExpiration == now + Day && !disabled && readCount == 0 && hitCount == 0
    {
      this.maxMem := maxMem;
      mem := 0;
      index := map[];
      order := [];
      earliestExpiration := now + Day;
      disabled := false;
      readCount := 0;
      hitCount := 0;
    }

    /** reset: drops every entry; limit, watermark, flag and counters stay. */
    method Reset()
      requires Valid()
      modifies this
      ensures Valid()
      ensures order == [] && index == map[] && mem == 0
      ensures maxMem == old(maxMem) && earliestExpiration == old(earliestExpiration)
      ensures disabled == old(disabled) && readCount == old(readCount) && hitCount == old(hitCount)
    {
      mem := 0;
      order := [];
      index := map[];
    }

    /** _deleteKey: removes the element for `key`, if any, from list, index
        and byte count; an absent key changes nothing. */
    method DeleteKeyLocked(key: string)
      requires Consistent()
      modifies this
      ensures Consistent()
      ensures order == Without(old(order), key)
      ensures key !in old(index) ==> order == old(order) && mem == old(mem)
      ensures key in old(index) ==> mem == old(mem) - Size(old(index)[key])
      ensures forall e :: e in order ==> e in old(order)
      ensures maxMem == old(maxMem) && earliestExpiration == old(earliestExpiration)
      ensures disabled == old(disabled) && readCount == old(readCount) && hitCount == old(hitCount)
    {
      IndexOfKeys(order);
      WithoutMembers(order, key);
      if key !in index {
        WithoutAbsent(order, key);
        return;
      }
      var e := index[key];
      SumSizesWithout(order, key);
      IndexOfWithout(order, key);
      WithoutKeys(order, key);
      order := Without(order, key);
      mem := mem - Size(e);
      index := index - {e.key};
    }

    /** deleteKey: the public removal; it works whether or not the store is
        disabled. */
    method DeleteKey(key: string)
      requires Valid()
      modifies this
      ensures Valid()
      ensures order == Without(old(order), key)
      ensures key !in old(index) ==> order == old(order)
      ensures maxMem == old(maxMem) && earliestExpiration == old(earliestExpiration)
      ensures disabled == old(disabled) && readCount == old(readCount) && hitCount == old(hitCount)
    {
      DeleteKeyLocked(key);
    }

    /** get: a disabled store reports a miss and changes nothing. Otherwise
        the read is counted; a present entry with `now` before its expiration
        is a hit, moved to the front and returned; a present but expired
        entry is deleted and reported as a miss. */
    method Get(key: string, now: int) returns (value: seq<Byte>, found: bool)
      requires Valid()
      modifies this
      ensures Valid()
      ensures found <==> old(Hit(key, now))
      ensures found ==> value == old(index)[key].value && hitCount == old(hitCount) + 1
      ensures found ==> order == [old(index)[key]] + Without(old(order), key)
      ensures !found ==> value == [] && hitCount == old(hitCount)
      ensures !found && !old(disabled) ==> order == Without(old(order), key)
      ensures old(disabled) ==> order == old(order) && readCount == old(readCount)
      ensures !old(disabled) ==> readCount == old(readCount) + 1
      ensures maxMem == old(maxMem) && earliestExpiration == old(earliestExpiration)
      ensures disabled == old(disabled)
    {
      if disabled {
        return [], false;
      }
      readCount := readCount + 1;
      IndexOfKeys(order);
      if key in index {
        var e := index[key];
        if now < e.expiration {
          hitCount := hitCount + 1;
          MoveToFront(order, key);
          order := [e] + Without(order, key);
          return e.value, true;
        }
        DeleteKeyLocked(e.key);
      } else {
        WithoutAbsent(order, key);
      }
      return [], false;
    }

    /** put: on an enabled store, replaces any entry for `key` by a new one
        at the front expiring at `now + ttl`, lowers the watermark to that
        expiration if it is earlier, and, when over the limit, sweeps expired
        entries and then evicts from the back. */
    method Put(key: string, value: seq<Byte>, ttl: int, now: int)
      requires Valid()
      modifies this
      ensures Valid()
      ensures old(disabled) ==> order == old(order) && earliestExpiration == old(earliestExpiration)
      ensures !old(disabled) ==>
        && order == PutOrder(old(order), Entry(key, value, now + ttl), now, old(earliestExpiration), maxMem)
        && earliestExpiration == PutWatermark(old(order), Entry(key, value, now + ttl), now, old(earliestExpiration), maxMem)
      ensures maxMem == old(maxMem) && disabled == old(disabled)
      ensures readCount == old(readCount) && hitCount == old(hitCount)
    {
      if disabled {
        return;
      }
      var newEntry := Entry(key, value, now + ttl);
      PushLocked(newEntry);
      if mem > maxMem {
        EvictExpired(now);
        EvictOldest();
      }
    }

    /** The insertion step of put on an enabled store: drops any entry for
        the key, pushes `e` to the front, charges its size and lowers the
        watermark to its expiration if that is earlier. */
    method PushLocked(e: Entry)
      requires Valid() && !disabled
      modifies this
      ensures Valid()
      ensures order == [e] + Without(old(order), e.key)
      ensures mem == SumSizes(order)
      ensures earliestExpiration == Min(old(earliestExpiration), e.expiration)
      ensures maxMem == old(maxMem) && disabled == old(disabled)
      ensures readCount == old(readCount) && hitCount == old(hitCount)
    {
      DeleteKeyLocked(e.key);
      WithoutKeys(old(order), e.key);
      PushFront(order, e);
      order := [e] + order;
      index := index[e.key := e];
      mem := mem + Size(e);
      if e.expiration < earliestExpiration {
        earliestExpiration := e.expiration;
      }
    }

    /** The capacity loop of put: while over the limit and holding more than
        one entry, deletes the back (least recently used) entry. */
    method EvictOldest()
      requires Valid()
      modifies this
      ensures Valid()
      ensures order == EvictLru(old(order), maxMem)
      ensures maxMem == old(maxMem) && earliestExpiration == old(earliestExpiration)
      ensures disabled == old(disabled) && readCount == old(readCount) && hitCount == old(hitCount)
    {
      while mem > maxMem && |order| > 1
        invariant Valid()
        invariant EvictLru(order, maxMem) == EvictLru(old(order), maxMem)
        invariant maxMem == old(maxMem) && earliestExpiration == old(earliestExpiration)
        invariant disabled == old(disabled) && readCount == old(readCount) && hitCount == old(hitCount)
        decreases |order|
      {
        var oldest := order[|order| - 1];
        EvictStep(order, maxMem);
        DeleteKeyLocked(oldest.key);
      }
    }

    /** _evictExpired: when `now` has reached the watermark, walks the list
        from back to front, deletes every entry strictly past its expiration
        and recomputes the watermark from the survivors, capped a day ahead. */
    method EvictExpired(now: int)
      requires Valid()
      modifies this
      ensures Valid()
      ensures order == Sweep(old(order), now, old(earliestExpiration))
      ensures earliestExpiration == SweepWatermark(old(order), now, old(earliestExpiration))
      ensures maxMem == old(maxMem) && disabled == old(disabled)
      ensures readCount == old(readCount) && hitCount == old(hitCount)
    {
      if now < earliestExpiration {
        return;
      }
      earliestExpiration := now + Day;
      ghost var s := order;
      var i := |order|;
      assert s[i..] == [];
      while i > 0
        invariant 0 <= i <= |s|
        invariant Consistent()
        invariant order == s[..i] + Unexpired(s[i..], now)
        invariant earliestExpiration == MinExpiration(Unexpired(s[i..], now), now + Day)
        invariant maxMem == old(maxMem) && disabled == old(disabled)
        invariant readCount == old(readCount) && hitCount == old(hitCount)
        decreases i
      {
        SweepAt(s, i, now);
        i := i - 1;
      }
      assert s[..0] == [] && s[0..] == s;
      assert order == Unexpired(s, now);
      MinExpirationBound(order, now + Day);
    }

    /** One iteration of the sweep: the element at position `i - 1` of the
        list the sweep started from is deleted if strictly past its
        expiration and otherwise lowers the watermark to its expiration. */
    method SweepAt(ghost s: seq<Entry>, i: int, now: int)
      requires 0 < i <= |s| && Consistent()
      requires order == s[..i] + Unexpired(s[i..], now)
      requires earliestExpiration == MinExpiration(Unexpired(s[i..], now), now + Day)
      modifies this
      ensures Consistent()
      ensures order == s[..i - 1] + Unexpired(s[i - 1..], now)
      ensures earliestExpiration == MinExpiration(Unexpired(s[i - 1..], now), now + Day)
      ensures maxMem == old(maxMem) && disabled == old(disabled)
      ensures readCount == old(readCount) && hitCount == old(hitCount)
    {
      SweepStep(s, i, now, now + Day);
      var e := order[i - 1];
      if now > e.expiration {
        SweepDelete(s, i, now, order);
        DeleteKeyLocked(e.key);
      } else {
        SweepKeep(s, i, now, order);
        if e.expiration < earliestExpiration {
          earliestExpiration := e.expiration;
        }
      }
    }
  }
}
