/** Value-level view of the TTL + LRU byte store of cache/lru.go.
    The recency list is a sequence of entries, most recently used first;
    every list operation of the store is one of the functions below, and the
    lemmas state what each of them keeps: byte accounting, the key index,
    the order of the survivors, and the expiration watermark. */
module LruSeq {

  newtype Byte = b: int | 0 <= b < 256

  /** Bytes charged per entry for its expiration timestamp. */
  const Overhead: nat := 24

  /** One day in nanoseconds: how far ahead of `now` the watermark is put
      when nothing resident expires sooner. */
  const Day: int := 24 * 60 * 60 * 1_000_000_000

  /** One cached item; `expiration` is an absolute time in nanoseconds. */
  datatype Entry = Entry(key: string, value: seq<Byte>, expiration: int)

  /** Bytes the UTF-8 encoding of `c` takes. */
  function Utf8Width(c: char): nat
  {
    if c as int < 0x80 then 1
    else if c as int < 0x800 then 2
    else if c as int < 0x1_0000 then 3
    else 4
  }

  /** Every character of `s` is ASCII, so encodes to one byte. */
  predicate IsAscii(s: string)
  {
    forall i :: 0 <= i < |s| ==> s[i] as int < 0x80
  }

  /** Bytes the UTF-8 encoding of `s` takes: Go's `len` of a string. It is
      between one and four bytes per character, and one per character
      exactly when every character is ASCII. */
  function Utf8Len(s: string): (r: nat)
    ensures |s| <= r <= 4 * |s|
    ensures r == |s| <==> IsAscii(s)
  {
    if s == [] then 0
    else
      var r := Utf8Width(s[0]) + Utf8Len(s[1..]);
      assert forall i :: 1 <= i < |s| ==> s[i] == s[1..][i - 1];
      r
  }

  /** Storage charged for an entry: the key's UTF-8 bytes, the value's
      bytes and the timestamp. An ASCII key is charged its length. */
  function Size(e: Entry): (r: nat)
    ensures |e.key| + |e.value| + Overhead <= r <= 4 * |e.key| + |e.value| + Overhead
    ensures r == |e.key| + |e.value| + Overhead <==> IsAscii(e.key)
  {
    Utf8Len(e.key) + |e.value| + Overhead
  }

  function Min(a: int, b: int): int
  {
    if a < b then a else b
  }

  /** Total storage charged for the resident entries. */
  function SumSizes(s: seq<Entry>): nat
  {
    if s == [] then 0 else Size(s[0]) + SumSizes(s[1..])
  }

  function Keys(s: seq<Entry>): set<string>
  {
    if s == [] then {} else {s[0].key} + Keys(s[1..])
  }

  /** At most one entry per key. */
  predicate DistinctKeys(s: seq<Entry>)
  {
    s == [] || (s[0].key !in Keys(s[1..]) && DistinctKeys(s[1..]))
  }

  /** The key index that belongs with a recency list. */
  function IndexOf(s: seq<Entry>): map<string, Entry>
  {
    if s == [] then map[] else IndexOf(s[1..])[s[0].key := s[0]]
  }

  /** The list after removing the element for key `k`, others in order. */
  function Without(s: seq<Entry>, k: string): seq<Entry>
  {
    if s == [] then []
    else if s[0].key == k then Without(s[1..], k)
    else [s[0]] + Without(s[1..], k)
  }

  /** The entries an expiration sweep at `now` keeps: those not strictly
      past their expiration. */
  function Unexpired(s: seq<Entry>, now: int): seq<Entry>
  {
    if s == [] then []
    else (if now > s[0].expiration then [] else [s[0]]) + Unexpired(s[1..], now)
  }

  /** The least expiration in `s`, capped at `bound`. */
  function MinExpiration(s: seq<Entry>, bound: int): int
  {
    if s == [] then bound else Min(s[0].expiration, MinExpiration(s[1..], bound))
  }

  /** Capacity eviction: drop the back (least recently used) entry while the
      list is over `maxMem` and holds more than one entry. */
  function EvictLru(s: seq<Entry>, maxMem: int): seq<Entry>
    decreases |s|
  {
    if SumSizes(s) > maxMem && |s| > 1 then EvictLru(s[..|s| - 1], maxMem) else s
  }

  /** The list after an expiration sweep at `now` under watermark `wm`. */
  function Sweep(s: seq<Entry>, now: int, wm: int): seq<Entry>
  {
    if now < wm then s else Unexpired(s, now)
  }

  /** The watermark after an expiration sweep at `now` under watermark `wm`. */
  function SweepWatermark(s: seq<Entry>, now: int, wm: int): int
  {
    if now < wm then wm else MinExpiration(Unexpired(s, now), now + Day)
  }

  /** The list after storing `e` at `now` into list `s` with watermark `wm`. */
  function PutOrder(s: seq<Entry>, e: Entry, now: int, wm: int, maxMem: int): seq<Entry>
  {
    var pushed := [e] + Without(s, e.key);
    if SumSizes(pushed) > maxMem then EvictLru(Sweep(pushed, now, Min(wm, e.expiration)), maxMem)
    else pushed
  }

  /** The watermark after storing `e` at `now` into list `s` with watermark `wm`. */
  function PutWatermark(s: seq<Entry>, e: Entry, now: int, wm: int, maxMem: int): int
  {
    var pushed := [e] + Without(s, e.key);
    if SumSizes(pushed) > maxMem then SweepWatermark(pushed, now, Min(wm, e.expiration))
    else Min(wm, e.expiration)
  }

  /** `a` is `b` with some elements left out, the rest in the same order. */
  predicate IsSubsequence(a: seq<Entry>, b: seq<Entry>)
    decreases |b|
  {
    if a == [] then true
    else if b == [] then false
    else (a[0] == b[0] && IsSubsequence(a[1..], b[1..])) || IsSubsequence(a, b[1..])
  }

  /** No resident entry expires before the watermark. */
  predicate Below(wm: int, s: seq<Entry>)
  {
    forall e :: e in s ==> wm <= e.expiration
  }

  // ---------------------------------------------------------------------
  // Keys and the index

  lemma {:induction false} KeysMembers(s: seq<Entry>)
    ensures forall e :: e in s ==> e.key in Keys(s)
    ensures forall k :: k in Keys(s) ==> exists e :: e in s && e.key == k
  {
    if s != [] {
      KeysMembers(s[1..]);
      assert forall e :: e in s ==> e == s[0] || e in s[1..];
    }
  }

  lemma {:induction false} KeysConcat(a: seq<Entry>, b: seq<Entry>)
    ensures Keys(a + b) == Keys(a) + Keys(b)
  {
    if a != [] {
      assert (a + b)[1..] == a[1..] + b;
      KeysConcat(a[1..], b);
    } else {
      assert a + b == b;
    }
  }

  lemma {:induction false} DistinctConcat(a: seq<Entry>, b: seq<Entry>)
    ensures DistinctKeys(a + b) <==> DistinctKeys(a) && DistinctKeys(b) && Keys(a) !! Keys(b)
  {
    if a == [] {
      assert a + b == b;
    } else {
      assert (a + b)[1..] == a[1..] + b;
      DistinctConcat(a[1..], b);
      KeysConcat(a[1..], b);
    }
  }

  /** The index holds exactly the list's keys, each mapped to its own entry. */
  lemma {:induction false} IndexOfKeys(s: seq<Entry>)
    ensures IndexOf(s).Keys == Keys(s)
    ensures forall k :: k in IndexOf(s) ==> IndexOf(s)[k].key == k && IndexOf(s)[k] in s
  {
    if s != [] {
      IndexOfKeys(s[1..]);
    }
  }

  /** Map and list are in bijection: one index entry per list element. */
  lemma {:induction false} IndexOfSize(s: seq<Entry>)
    requires DistinctKeys(s)
    ensures |IndexOf(s)| == |s|
  {
    if s != [] {
      IndexOfSize(s[1..]);
      IndexOfKeys(s[1..]);
    }
  }

  // ---------------------------------------------------------------------
  // Removing one key

  lemma {:induction false} WithoutConcat(a: seq<Entry>, b: seq<Entry>, k: string)
    ensures Without(a + b, k) == Without(a, k) + Without(b, k)
  {
    if a == [] {
      assert a + b == b;
    } else {
      assert (a + b)[1..] == a[1..] + b;
      WithoutConcat(a[1..], b, k);
    }
  }

  /** Removing an absent key changes nothing. */
  lemma {:induction false} WithoutAbsent(s: seq<Entry>, k: string)
    requires k !in Keys(s)
    ensures Without(s, k) == s
  {
    if s != [] {
      WithoutAbsent(s[1..], k);
    }
  }

  /** Removal keeps exactly the elements with other keys. */
  lemma {:induction false} WithoutMembers(s: seq<Entry>, k: string)
    ensures forall e :: e in Without(s, k) <==> e in s && e.key != k
  {
    if s != [] {
      WithoutMembers(s[1..], k);
      assert forall e :: e in s <==> e == s[0] || e in s[1..];
    }
  }

  /** Removal takes exactly `k` out of the key set and keeps keys distinct. */
  lemma {:induction false} WithoutKeys(s: seq<Entry>, k: string)
    ensures Keys(Without(s, k)) == Keys(s) - {k}
    ensures DistinctKeys(s) ==> DistinctKeys(Without(s, k))
  {
    if s != [] {
      WithoutKeys(s[1..], k);
    }
  }

  /** Removal from the list is removal from the index. */
  lemma {:induction false} IndexOfWithout(s: seq<Entry>, k: string)
    requires DistinctKeys(s)
    ensures IndexOf(Without(s, k)) == IndexOf(s) - {k}
  {
    if s != [] {
      var t := s[1..];
      IndexOfKeys(t);
      if s[0].key == k {
        WithoutAbsent(t, k);
        RemoveAfterUpdate(IndexOf(t), k, s[0]);
        RemoveAbsent(IndexOf(t), k);
      } else {
        IndexOfWithout(t, k);
        var w := Without(t, k);
        assert ([s[0]] + w)[1..] == w;
        UpdateThenRemove(IndexOf(t), s[0].key, s[0], k);
      }
    }
  }

  // Map identities the solver proves outright. They are proof steps only,
  // named so that the index lemmas can point the solver at each one.

  lemma RemoveAbsent<K, V>(m: map<K, V>, k: K)
    requires k !in m
    ensures m - {k} == m
  {
  }

  lemma RemoveAfterUpdate<K, V>(m: map<K, V>, k: K, v: V)
    ensures m[k := v] - {k} == m - {k}
  {
  }

  lemma UpdateThenRemove<K, V>(m: map<K, V>, a: K, v: V, k: K)
    requires a != k
    ensures (m - {k})[a := v] == m[a := v] - {k}
  {
  }

  lemma RestoreRemoved<K, V>(m: map<K, V>, k: K)
    requires k in m
    ensures (m - {k})[k := m[k]] == m
  {
  }

  /** Byte accounting of a deletion: the list loses exactly the removed
      entry's size. */
  lemma {:induction false} SumSizesWithout(s: seq<Entry>, k: string)
    requires DistinctKeys(s) && k in IndexOf(s)
    ensures SumSizes(s) == SumSizes(Without(s, k)) + Size(IndexOf(s)[k])
  {
    IndexOfKeys(s);
    if s[0].key == k {
      WithoutAbsent(s[1..], k);
    } else {
      SumSizesWithout(s[1..], k);
      IndexOfKeys(s[1..]);
    }
  }

  /** In a list with distinct keys, removing the key of position `i` cuts
      out exactly that position. */
  lemma WithoutAt(s: seq<Entry>, i: nat)
    requires DistinctKeys(s) && i < |s|
    ensures Without(s, s[i].key) == s[..i] + s[i + 1..]
  {
    var k := s[i].key;
    assert s == s[..i] + ([s[i]] + s[i + 1..]);
    DistinctConcat(s[..i], [s[i]] + s[i + 1..]);
    DistinctConcat([s[i]], s[i + 1..]);
    KeysConcat([s[i]], s[i + 1..]);
    WithoutConcat(s[..i], [s[i]] + s[i + 1..], k);
    WithoutConcat([s[i]], s[i + 1..], k);
    WithoutAbsent(s[..i], k);
    WithoutAbsent(s[i + 1..], k);
    assert Without([s[i]], k) == [];
  }

  /** Pushing an entry with a fresh key to the front: the index gains that
      key and the byte count its size. */
  lemma PushFront(w: seq<Entry>, e: Entry)
    requires DistinctKeys(w) && e.key !in Keys(w)
    ensures DistinctKeys([e] + w)
    ensures IndexOf([e] + w) == IndexOf(w)[e.key := e]
    ensures SumSizes([e] + w) == SumSizes(w) + Size(e)
    ensures forall x :: x in [e] + w ==> x == e || x in w
  {
    assert ([e] + w)[1..] == w;
  }

  /** Moving the entry for `k` to the front keeps the index, the byte count
      and the set of elements. */
  lemma MoveToFront(s: seq<Entry>, k: string)
    requires DistinctKeys(s) && k in IndexOf(s)
    ensures DistinctKeys([IndexOf(s)[k]] + Without(s, k))
    ensures IndexOf([IndexOf(s)[k]] + Without(s, k)) == IndexOf(s)
    ensures SumSizes([IndexOf(s)[k]] + Without(s, k)) == SumSizes(s)
    ensures forall x :: x in [IndexOf(s)[k]] + Without(s, k) ==> x in s
  {
    var m := IndexOf(s);
    var e := m[k];
    var w := Without(s, k);
    assert e.key == k && e in s by { IndexOfKeys(s); }
    assert DistinctKeys(w) && k !in Keys(w) by { WithoutKeys(s, k); }
    assert IndexOf(w) == m - {k} by { IndexOfWithout(s, k); }
    assert SumSizes(s) == SumSizes(w) + Size(e) by { SumSizesWithout(s, k); }
    assert forall x :: x in w ==> x in s by { WithoutMembers(s, k); }
    PushFront(w, e);
    RestoreRemoved(m, k);
  }

  // ---------------------------------------------------------------------
  // Expiration sweep

  /** The sweep keeps exactly the entries with `now <= expiration`: an entry
      expiring exactly at `now` survives it. */
  lemma {:induction false} UnexpiredMembers(s: seq<Entry>, now: int)
    ensures forall e :: e in Unexpired(s, now) <==> e in s && now <= e.expiration
  {
    if s != [] {
      UnexpiredMembers(s[1..], now);
      assert forall e :: e in s <==> e == s[0] || e in s[1..];
    }
  }

  lemma {:induction false} UnexpiredKeys(s: seq<Entry>, now: int)
    ensures Keys(Unexpired(s, now)) <= Keys(s)
    ensures DistinctKeys(s) ==> DistinctKeys(Unexpired(s, now))
  {
    if s != [] {
      UnexpiredKeys(s[1..], now);
      var head := if now > s[0].expiration then [] else [s[0]];
      KeysConcat(head, Unexpired(s[1..], now));
      DistinctConcat(head, Unexpired(s[1..], now));
    }
  }

  /** One step of the back-to-front sweep: position `i - 1` joins the
      processed suffix, kept or dropped, and the running minimum follows. */
  lemma SweepStep(s: seq<Entry>, i: nat, now: int, bound: int)
    requires 0 < i <= |s|
    ensures Unexpired(s[i - 1..], now)
            == (if now > s[i - 1].expiration then [] else [s[i - 1]]) + Unexpired(s[i..], now)
    ensures MinExpiration(Unexpired(s[i - 1..], now), bound)
            == if now > s[i - 1].expiration then MinExpiration(Unexpired(s[i..], now), bound)
               else Min(s[i - 1].expiration, MinExpiration(Unexpired(s[i..], now), bound))
  {
    assert s[i - 1..][1..] == s[i..];
    if now <= s[i - 1].expiration {
      assert ([s[i - 1]] + Unexpired(s[i..], now))[1..] == Unexpired(s[i..], now);
    } else {
      assert [] + Unexpired(s[i..], now) == Unexpired(s[i..], now);
    }
  }

  /** Deleting the expired entry at position `i - 1` during the sweep
      leaves the unprocessed prefix followed by the swept suffix. */
  lemma SweepDelete(s: seq<Entry>, i: nat, now: int, order: seq<Entry>)
    requires 0 < i <= |s| && now > s[i - 1].expiration
    requires DistinctKeys(order) && order == s[..i] + Unexpired(s[i..], now)
    ensures order[i - 1] == s[i - 1]
    ensures Without(order, s[i - 1].key) == s[..i - 1] + Unexpired(s[i - 1..], now)
  {
    WithoutAt(order, i - 1);
    assert order[..i - 1] == s[..i - 1];
    assert order[i..] == Unexpired(s[i..], now);
    SweepStep(s, i, now, 0);
  }

  /** Keeping the entry at position `i - 1` during the sweep. */
  lemma SweepKeep(s: seq<Entry>, i: nat, now: int, order: seq<Entry>)
    requires 0 < i <= |s| && now <= s[i - 1].expiration
    requires order == s[..i] + Unexpired(s[i..], now)
    ensures order[i - 1] == s[i - 1]
    ensures order == s[..i - 1] + Unexpired(s[i - 1..], now)
  {
    SweepStep(s, i, now, 0);
    assert s[..i] == s[..i - 1] + [s[i - 1]];
  }

  /** One step of capacity eviction deletes the back entry. */
  lemma EvictStep(s: seq<Entry>, maxMem: int)
    requires DistinctKeys(s) && SumSizes(s) > maxMem && |s| > 1
    ensures Without(s, s[|s| - 1].key) == s[..|s| - 1]
    ensures EvictLru(s[..|s| - 1], maxMem) == EvictLru(s, maxMem)
  {
    WithoutAt(s, |s| - 1);
    assert s[|s|..] == [];
  }

  /** The recomputed watermark is at most the cap and every survivor's
      expiration, and is one of them. */
  lemma {:induction false} MinExpirationBound(s: seq<Entry>, bound: int)
    ensures MinExpiration(s, bound) <= bound
    ensures Below(MinExpiration(s, bound), s)
    ensures MinExpiration(s, bound) == bound
            || exists e :: e in s && e.expiration == MinExpiration(s, bound)
  {
    if s != [] {
      MinExpirationBound(s[1..], bound);
      assert forall e :: e in s <==> e == s[0] || e in s[1..];
    }
  }

  /** A sweep leaves a watermark no later than any survivor's expiration. */
  lemma SweepKeepsWatermark(s: seq<Entry>, now: int, wm: int)
    requires Below(wm, s)
    ensures Below(SweepWatermark(s, now, wm), Sweep(s, now, wm))
  {
    if now >= wm {
      MinExpirationBound(Unexpired(s, now), now + Day);
    }
  }

  // ---------------------------------------------------------------------
  // Subsequences

  lemma {:induction false} SubsequenceRefl(s: seq<Entry>)
    ensures IsSubsequence(s, s)
  {
    if s != [] {
      SubsequenceRefl(s[1..]);
    }
  }

  lemma {:induction false} SubsequenceTrans(a: seq<Entry>, b: seq<Entry>, c: seq<Entry>)
    requires IsSubsequence(a, b) && IsSubsequence(b, c)
    ensures IsSubsequence(a, c)
    decreases |c|
  {
    if a != [] && b != [] && c != [] {
      if b[0] == c[0] && IsSubsequence(b[1..], c[1..]) {
        if a[0] == b[0] && IsSubsequence(a[1..], b[1..]) {
          SubsequenceTrans(a[1..], b[1..], c[1..]);
        } else {
          SubsequenceTrans(a, b[1..], c[1..]);
        }
      } else {
        SubsequenceTrans(a, b, c[1..]);
      }
    }
  }

  lemma {:induction false} SubsequenceMembers(a: seq<Entry>, b: seq<Entry>)
    requires IsSubsequence(a, b)
    ensures forall e :: e in a ==> e in b
    decreases |b|
  {
    if a != [] && b != [] {
      if a[0] == b[0] && IsSubsequence(a[1..], b[1..]) {
        SubsequenceMembers(a[1..], b[1..]);
        assert forall e :: e in a ==> e == a[0] || e in a[1..];
      } else {
        SubsequenceMembers(a, b[1..]);
      }
    }
  }

  lemma {:induction false} SubsequenceKeys(a: seq<Entry>, b: seq<Entry>)
    requires IsSubsequence(a, b)
    ensures Keys(a) <= Keys(b)
    ensures DistinctKeys(b) ==> DistinctKeys(a)
    decreases |b|
  {
    if a != [] && b != [] {
      if a[0] == b[0] && IsSubsequence(a[1..], b[1..]) {
        SubsequenceKeys(a[1..], b[1..]);
      } else {
        SubsequenceKeys(a, b[1..]);
      }
    }
  }

  lemma {:induction false} PrefixSubsequence(s: seq<Entry>, n: nat)
    requires n <= |s|
    ensures IsSubsequence(s[..n], s)
  {
    if n > 0 {
      assert s[..n][1..] == s[1..][..n - 1];
      PrefixSubsequence(s[1..], n - 1);
    }
  }

  /** Removing a key keeps the others in their relative order. */
  lemma {:induction false} WithoutSubsequence(s: seq<Entry>, k: string)
    ensures IsSubsequence(Without(s, k), s)
  {
    if s != [] {
      WithoutSubsequence(s[1..], k);
      if s[0].key != k {
        assert ([s[0]] + Without(s[1..], k))[1..] == Without(s[1..], k);
      }
    }
  }

  /** The sweep keeps the survivors in their relative order. */
  lemma {:induction false} UnexpiredSubsequence(s: seq<Entry>, now: int)
    ensures IsSubsequence(Unexpired(s, now), s)
  {
    if s != [] {
      UnexpiredSubsequence(s[1..], now);
      if now <= s[0].expiration {
        assert ([s[0]] + Unexpired(s[1..], now))[1..] == Unexpired(s[1..], now);
      } else {
        assert Unexpired(s, now) == Unexpired(s[1..], now);
      }
    }
  }

  // ---------------------------------------------------------------------
  // Capacity eviction

  /** Capacity eviction removes only from the back, stops as soon as the
      list fits or one entry is left, and never empties a non-empty list. */
  lemma {:induction false} EvictLruSpec(s: seq<Entry>, maxMem: int)
    ensures |EvictLru(s, maxMem)| <= |s|
    ensures EvictLru(s, maxMem) == s[..|EvictLru(s, maxMem)|]
    ensures |s| >= 1 ==> |EvictLru(s, maxMem)| >= 1
    ensures SumSizes(EvictLru(s, maxMem)) <= maxMem || |EvictLru(s, maxMem)| <= 1
    ensures |EvictLru(s, maxMem)| < |s| ==> SumSizes(s[..|EvictLru(s, maxMem)| + 1]) > maxMem
    decreases |s|
  {
    if SumSizes(s) > maxMem && |s| > 1 {
      var t := s[..|s| - 1];
      EvictLruSpec(t, maxMem);
      var r := EvictLru(t, maxMem);
      assert r == s[..|r|];
      if |r| < |t| {
        assert t[..|r| + 1] == s[..|r| + 1];
      } else {
        assert s[..|r| + 1] == s;
      }
    } else {
      assert s[..|s|] == s;
    }
  }

  // ---------------------------------------------------------------------
  // Storing an entry

  /** What `put` does to the list: the result is drawn, in order, from the
      new entry followed by the old list without its key; it fits in
      `maxMem` unless at most one entry is left; and a new entry that is not
      already past its expiration stays at the front. */
  lemma PutOrderSpec(s: seq<Entry>, e: Entry, now: int, wm: int, maxMem: int)
    requires DistinctKeys(s)
    ensures IsSubsequence(PutOrder(s, e, now, wm, maxMem), [e] + Without(s, e.key))
    ensures DistinctKeys(PutOrder(s, e, now, wm, maxMem))
    ensures SumSizes(PutOrder(s, e, now, wm, maxMem)) <= maxMem || |PutOrder(s, e, now, wm, maxMem)| <= 1
    ensures now <= e.expiration ==> |PutOrder(s, e, now, wm, maxMem)| >= 1 && PutOrder(s, e, now, wm, maxMem)[0] == e
  {
    var pushed := [e] + Without(s, e.key);
    var r := PutOrder(s, e, now, wm, maxMem);
    WithoutKeys(s, e.key);
    assert pushed[1..] == Without(s, e.key);
    assert DistinctKeys(pushed);
    if SumSizes(pushed) > maxMem {
      var swept := Sweep(pushed, now, Min(wm, e.expiration));
      if now < Min(wm, e.expiration) {
        SubsequenceRefl(pushed);
      } else {
        UnexpiredSubsequence(pushed, now);
      }
      EvictLruSpec(swept, maxMem);
      PrefixSubsequence(swept, |r|);
      SubsequenceTrans(r, swept, pushed);
      SubsequenceKeys(r, pushed);
      if now <= e.expiration {
        assert swept[0] == e;
      }
    } else {
      SubsequenceRefl(pushed);
    }
  }

  /** `put` keeps the watermark at or below every resident expiration. */
  lemma PutKeepsWatermark(s: seq<Entry>, e: Entry, now: int, wm: int, maxMem: int)
    requires Below(wm, s)
    ensures Below(PutWatermark(s, e, now, wm, maxMem), PutOrder(s, e, now, wm, maxMem))
  {
    var pushed := [e] + Without(s, e.key);
    var wm' := Min(wm, e.expiration);
    WithoutMembers(s, e.key);
    assert forall x :: x in pushed ==> x == e || x in Without(s, e.key);
    assert Below(wm', pushed);
    if SumSizes(pushed) > maxMem {
      var swept := Sweep(pushed, now, wm');
      SweepKeepsWatermark(pushed, now, wm');
      EvictLruSpec(swept, maxMem);
      var r := EvictLru(swept, maxMem);
      PrefixSubsequence(swept, |r|);
      SubsequenceMembers(r, swept);
    }
  }
}
