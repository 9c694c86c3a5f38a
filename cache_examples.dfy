/** Scenarios from cache/cache_test.go replayed on the model: components
    built by one NewCache share a store, and Render drives it. The child
    template renders a three-byte body, so each entry takes 1 + 3 + 24 = 28
    bytes and a 110-byte store holds three of them. Time stands still at 0,
    well before any entry expires. */
module CacheExamples {
  import opened LruSeq
  import opened LruStore
  import opened Cache

  const Body: seq<Byte> := [65, 65, 65]

  /** The entry a render of key `k` at time 0 stores. */
  function BodyEntry(k: string): Entry
  {
    Entry(k, Body, DefaultTTL)
  }

  /** The key order of a recency list, front first. */
  function KeyOrder(s: seq<Entry>): seq<string>
    ensures |KeyOrder(s)| == |s|
  {
    if s == [] then [] else [s[0].key] + KeyOrder(s[1..])
  }

  /** Renders key `k` at `now` through a component the builder makes with
      the per-key options `opts`, its child producing `body`: a hit writes
      the cached bytes, a miss writes `body` and stores it to expire at
      `expiration`. */
  method RenderWith(b: Builder, k: string, opts: seq<CacheOption>, body: seq<Byte>, now: int, expiration: int)
    returns (written: Option<seq<Byte>>)
    requires b.base.initialized && b.base.store.Valid()
    requires expiration == now + TTLAfter(opts, b.base.ttl)
    modifies b.base.store
    ensures b.base.store.Valid()
    ensures old(b.base.store.Hit(k, now)) ==>
      && written == Some(old(b.base.store.index)[k].value)
      && b.base.store.order == [old(b.base.store.index)[k]] + Without(old(b.base.store.order), k)
    ensures !old(b.base.store.Hit(k, now)) ==> written == Some(body)
    ensures !old(b.base.store.Hit(k, now)) && !old(b.base.store.disabled) ==>
      b.base.store.order == PutOrder(Without(old(b.base.store.order), k), Entry(k, body, expiration),
                                     now, old(b.base.store.earliestExpiration), b.base.store.maxMem)
    ensures b.base.store.maxMem == old(b.base.store.maxMem) && b.base.store.disabled == old(b.base.store.disabled)
  {
    var c := b.Make(k, opts, now);
    var err;
    written, err := c.Render(Some(Rendered(body)), None, now);
  }

  /** A key is charged its UTF-8 bytes, as Go's `len` counts them: "é" is
      one character but two bytes, so an entry for it with an empty value
      takes 26 bytes. */
  lemma NonAsciiKeySize()
    ensures Size(Entry("\U{e9}", [], 0)) == 2 + 0 + 24
  {
    assert "\U{e9}"[1..] == [];
  }

  /** Rendering a new key while the three-entry room is not full pushes
      it to the front. */
  lemma FillSteps(wm: int)
    ensures PutOrder(Without([], "A"), BodyEntry("A"), 0, wm, 110) == [BodyEntry("A")]
    ensures PutOrder(Without([BodyEntry("A")], "B"), BodyEntry("B"), 0, wm, 110)
            == [BodyEntry("B"), BodyEntry("A")]
    ensures PutOrder(Without([BodyEntry("B"), BodyEntry("A")], "C"), BodyEntry("C"), 0, wm, 110)
            == [BodyEntry("C"), BodyEntry("B"), BodyEntry("A")]
  {
    assert Without([BodyEntry("A")], "B") == [BodyEntry("A")];
    assert Without([BodyEntry("B"), BodyEntry("A")], "C") == [BodyEntry("B"), BodyEntry("A")];
  }

  /** The storage charged for three entries. */
  lemma SumSizesThree(x: Entry, y: Entry, z: Entry)
    ensures SumSizes([x, y, z]) == Size(x) + Size(y) + Size(z)
  {
    assert [x, y, z][1..] == [y, z] && [y, z][1..] == [z] && [z][1..] == [];
    assert SumSizes([z]) == Size(z);
    assert SumSizes([y, z]) == Size(y) + Size(z);
  }

  /** The key index of a three-entry list. */
  lemma IndexOfThree(x: Entry, y: Entry, z: Entry)
    ensures IndexOf([x, y, z]) == map[z.key := z][y.key := y][x.key := x]
  {
    assert [x, y, z][1..] == [y, z] && [y, z][1..] == [z] && [z][1..] == [];
    assert IndexOf([z]) == map[z.key := z];
    assert IndexOf([y, z]) == map[z.key := z][y.key := y];
  }

  /** The keys of a three-entry list, front first. */
  lemma KeyOrderThree(x: Entry, y: Entry, z: Entry)
    ensures KeyOrder([x, y, z]) == [x.key, y.key, z.key]
  {
    assert [x, y, z][1..] == [y, z] && [y, z][1..] == [z] && [z][1..] == [];
    assert KeyOrder([z]) == [z.key] + [];
    assert KeyOrder([y, z]) == [y.key] + [z.key];
  }

  /** Removing a key that none of three entries has changes nothing. */
  lemma WithoutOthers(x: Entry, y: Entry, z: Entry, k: string)
    requires x.key != k && y.key != k && z.key != k
    ensures Without([x, y, z], k) == [x, y, z]
  {
    assert [x, y, z][1..] == [y, z] && [y, z][1..] == [z] && [z][1..] == [];
    assert Without([z], k) == [z] + [];
    assert Without([y, z], k) == [y] + [z];
    assert Without([x, y, z], k) == [x] + [y, z];
  }

  /** Rendering a fourth key overflows the 110 bytes: nothing has expired,
      so the back entry is evicted. */
  lemma OverflowStep(x: Entry, y: Entry, z: Entry, k: string, wm: int)
    requires Utf8Len(k) == 1 && x.key != k && y.key != k && z.key != k
    requires Size(x) == 28 && Size(y) == 28 && Size(z) == 28
    requires 0 <= x.expiration && 0 <= y.expiration && 0 <= z.expiration
    ensures PutOrder(Without([x, y, z], k), BodyEntry(k), 0, wm, 110) == [BodyEntry(k), x, y]
  {
    var n := BodyEntry(k);
    var pushed := [n, x, y, z];
    WithoutOthers(x, y, z, k);
    assert [n] + [x, y, z] == pushed;
    assert SumSizes(pushed) == 112 by {
      assert pushed[1..] == [x, y, z];
      SumSizesThree(x, y, z);
    }
    assert Sweep(pushed, 0, Min(wm, DefaultTTL)) == pushed by {
      assert pushed[1..] == [x, y, z] && [x, y, z][1..] == [y, z] && [y, z][1..] == [z] && [z][1..] == [];
      assert Unexpired([z], 0) == [z];
      assert Unexpired([y, z], 0) == [y, z];
      assert Unexpired([x, y, z], 0) == [x, y, z];
    }
    assert EvictLru(pushed, 110) == [n, x, y] by {
      assert pushed[..3] == [n, x, y];
      SumSizesThree(n, x, y);
    }
  }

  /** First phase of TestLRUOrder: A, A again (a hit), B and C fill a fresh
      110-byte store to C, B, A. */
  method FillPhase(b: Builder)
    requires b.base.initialized && b.base.ttl == DefaultTTL && b.base.store.Valid()
    requires b.base.store.maxMem == 110 && b.base.store.order == [] && !b.base.store.disabled
    modifies b.base.store
    ensures b.base.store.Valid() && b.base.store.maxMem == 110 && !b.base.store.disabled
    ensures b.base.store.order == [BodyEntry("C"), BodyEntry("B"), BodyEntry("A")]
  {
    var store := b.base.store;
    var a, bb, c := BodyEntry("A"), BodyEntry("B"), BodyEntry("C");
    FillSteps(store.earliestExpiration);
    var _ := RenderWith(b, "A", [], Body, 0, DefaultTTL);
    assert store.order == [a];
    var _ := RenderWith(b, "A", [], Body, 0, DefaultTTL);
    assert store.order == [a] by {
      assert Without([a], "A") == [];
    }
    FillSteps(store.earliestExpiration);
    var _ := RenderWith(b, "B", [], Body, 0, DefaultTTL);
    assert store.order == [bb, a];
    FillSteps(store.earliestExpiration);
    var _ := RenderWith(b, "C", [], Body, 0, DefaultTTL);
  }

  /** TestLRUOrder, fourth key: D evicts A from the back. */
  method OverflowPhase(b: Builder)
    requires b.base.initialized && b.base.ttl == DefaultTTL && b.base.store.Valid()
    requires b.base.store.maxMem == 110 && !b.base.store.disabled
    requires b.base.store.order == [BodyEntry("C"), BodyEntry("B"), BodyEntry("A")]
    modifies b.base.store
    ensures b.base.store.Valid() && b.base.store.maxMem == 110 && !b.base.store.disabled
    ensures b.base.store.order == [BodyEntry("D"), BodyEntry("C"), BodyEntry("B")]
  {
    assert !b.base.store.Hit("D", 0) by {
      IndexOfThree(BodyEntry("C"), BodyEntry("B"), BodyEntry("A"));
    }
    OverflowStep(BodyEntry("C"), BodyEntry("B"), BodyEntry("A"), "D", b.base.store.earliestExpiration);
    var _ := RenderWith(b, "D", [], Body, 0, DefaultTTL);
  }

  /** TestLRUOrder, B again: a hit, which moves B to the front. */
  method HitPhase(b: Builder)
    requires b.base.initialized && b.base.ttl == DefaultTTL && b.base.store.Valid()
    requires b.base.store.maxMem == 110 && !b.base.store.disabled
    requires b.base.store.order == [BodyEntry("D"), BodyEntry("C"), BodyEntry("B")]
    modifies b.base.store
    ensures b.base.store.Valid() && b.base.store.maxMem == 110 && !b.base.store.disabled
    ensures b.base.store.order == [BodyEntry("B"), BodyEntry("D"), BodyEntry("C")]
  {
    var bb, c, d := BodyEntry("B"), BodyEntry("C"), BodyEntry("D");
    assert b.base.store.Hit("B", 0) && b.base.store.index["B"] == bb by {
      IndexOfThree(d, c, bb);
    }
    assert Without([d, c, bb], "B") == [d, c] by {
      assert [d, c, bb][1..] == [c, bb] && [c, bb][1..] == [bb] && [bb][1..] == [];
      assert Without([bb], "B") == [];
      assert Without([c, bb], "B") == [c] + [];
      assert Without([d, c, bb], "B") == [d] + [c];
    }
    var _ := RenderWith(b, "B", [], Body, 0, DefaultTTL);
  }

  /** TestLRUOrder, last key: E evicts C from the back. */
  method LastPhase(b: Builder)
    requires b.base.initialized && b.base.ttl == DefaultTTL && b.base.store.Valid()
    requires b.base.store.maxMem == 110 && !b.base.store.disabled
    requires b.base.store.order == [BodyEntry("B"), BodyEntry("D"), BodyEntry("C")]
    modifies b.base.store
    ensures b.base.store.Valid()
    ensures b.base.store.order == [BodyEntry("E"), BodyEntry("B"), BodyEntry("D")]
  {
    var bb, c, d := BodyEntry("B"), BodyEntry("C"), BodyEntry("D");
    assert !b.base.store.Hit("E", 0) by {
      IndexOfThree(bb, d, c);
    }
    OverflowStep(bb, d, c, "E", b.base.store.earliestExpiration);
    var _ := RenderWith(b, "E", [], Body, 0, DefaultTTL);
  }

  /** TestLRUOrder: with room for three entries, rendering A, A, B, C, D
      leaves D, C, B; rendering B again moves it to the front; rendering E
      then evicts C from the back, leaving E, B, D. */
  method LruOrderExample() returns (keys: seq<string>, items: int)
    ensures keys == ["E", "B", "D"] && items == 3
  {
    var b := NewCache([WithMaxMemory(110)], 0);
    assert b.base.ttl == DefaultTTL;
    assert b.base.store.maxMem == 110;
    var store := b.base.store;
    FillPhase(b);
    OverflowPhase(b);
    HitPhase(b);
    LastPhase(b);
    keys := KeyOrder(store.order);
    KeyOrderThree(BodyEntry("E"), BodyEntry("B"), BodyEntry("D"));
    items := b.base.Stats().items;
  }

  // ---------------------------------------------------------------------
  // Defaults, TestMaxMemory and TestLRUTTL

  /** NewCache without options: a one-minute TTL, a 64 KiB limit and an
      empty store. */
  method DefaultsExample() returns (ttl: int, stats: CacheStats)
    ensures ttl == 60_000_000_000
    ensures stats.maxMemory == 65536 && stats.usedMemory == 0 && stats.items == 0
    ensures stats.readCount == 0 && stats.hitCount == 0
  {
    var b := NewCache([], 0);
    ttl := b.base.ttl;
    stats := b.base.Stats();
  }

  /** Storing into an empty list an entry that fits gives just that entry. */
  lemma PutIntoEmpty(e: Entry, now: int, wm: int, maxMem: int)
    requires Size(e) <= maxMem
    ensures PutOrder([], e, now, wm, maxMem) == [e]
  {
    assert [e] + [] == [e] && [e][1..] == [];
    assert Without([], e.key) == [];
    assert SumSizes([e]) == Size(e) + SumSizes([]);
  }

  /** Storing a new key into a one-entry list when nothing has expired: both
      stay if they fit together, otherwise the old one is evicted. */
  lemma PutIntoOne(x: Entry, e: Entry, now: int, wm: int, maxMem: int)
    requires x.key != e.key && now <= x.expiration && now <= e.expiration
    ensures PutOrder([x], e, now, wm, maxMem) == if Size(e) + Size(x) > maxMem then [e] else [e, x]
  {
    assert [x][1..] == [] && [e, x][1..] == [x];
    assert Without([x], e.key) == [x] + [];
    assert [e] + Without([x], e.key) == [e, x];
    assert SumSizes([x]) == Size(x) + SumSizes([]);
    assert SumSizes([e, x]) == Size(e) + SumSizes([x]);
    if Size(e) + Size(x) > maxMem {
      assert Unexpired([x], now) == [x] + [];
      assert Unexpired([e, x], now) == [e] + [x];
      assert Sweep([e, x], now, Min(wm, e.expiration)) == [e, x];
      assert [e, x][..1] == [e];
      assert EvictLru([e, x], maxMem) == EvictLru([e], maxMem) == [e];
    }
  }

  /** Under a 50-byte limit, an entry for "é" (26 bytes) and one for "a"
      (25 bytes) do not fit together, so storing the first evicts the
      second. */
  lemma NonAsciiEviction()
    ensures PutOrder([Entry("a", [], 1000)], Entry("\U{e9}", [], 1000), 0, 1000, 50) == [Entry("\U{e9}", [], 1000)]
  {
    NonAsciiKeySize();
    assert "a"[1..] == [];
    PutIntoOne(Entry("a", [], 1000), Entry("\U{e9}", [], 1000), 0, 1000, 50);
  }

  /** The key index of a two-entry list. */
  lemma IndexOfTwo(x: Entry, y: Entry)
    ensures IndexOf([x, y]) == map[y.key := y][x.key := x]
  {
    assert [x, y][1..] == [y] && [y][1..] == [];
    assert IndexOf([y]) == IndexOf([])[y.key := y];
  }

  /** Removing the back or the front key of a two-entry list. */
  lemma WithoutTwo(x: Entry, y: Entry)
    requires x.key != y.key
    ensures Without([x, y], y.key) == [x] && Without([x, y], x.key) == [y]
  {
    assert [x, y][1..] == [y] && [y][1..] == [];
    assert Without([y], y.key) == Without([], y.key) == [];
    assert Without([y], x.key) == [y] + [];
    assert Without([x, y], y.key) == [x] + Without([y], y.key);
  }

  /** TestMaxMemory with limit `limit`: a 1-byte key and a 50000-byte
      value take 50025 bytes; a second such entry stays only if both fit,
      otherwise the first is evicted. */
  method LargeEntries(limit: int) returns (used1: int, used2: int)
    requires limit >= 50025
    ensures used1 == 50025
    ensures used2 == if limit < 100050 then 50025 else 100050
  {
    var large: seq<Byte> := seq(50000, _ => 65);
    var b := NewCache([WithMaxMemory(limit)], 0);
    var store := b.base.store;
    assert b.base.ttl == DefaultTTL && store.maxMem == limit;
    var e1, e2 := Entry("1", large, DefaultTTL), Entry("2", large, DefaultTTL);
    PutIntoEmpty(e1, 0, store.earliestExpiration, limit);
    var _ := RenderWith(b, "1", [], large, 0, DefaultTTL);
    assert store.order == [e1];
    used1 := b.base.Stats().usedMemory;
    assert SumSizes([e1]) == 50025 by {
      assert [e1][1..] == [];
    }
    assert !store.Hit("2", 0) && Without([e1], "2") == [e1] by {
      assert [e1][1..] == [];
      assert Without([e1], "2") == [e1] + [];
    }
    PutIntoOne(e1, e2, 0, store.earliestExpiration, limit);
    var _ := RenderWith(b, "2", [], large, 0, DefaultTTL);
    used2 := b.base.Stats().usedMemory;
    assert SumSizes([e2, e1]) == 100050 by {
      assert [e2, e1][1..] == [e1] && [e1][1..] == [];
    }
    assert SumSizes([e2]) == 50025 by {
      assert [e2][1..] == [];
    }
  }

  /** TestMaxMemory: under a 64 KiB limit the second large entry evicts the
      first; under 110000 bytes both stay. */
  method MaxMemoryExample() returns (used: seq<int>)
    ensures used == [50025, 50025, 50025, 2 * 50025]
  {
    var u1, u2 := LargeEntries(64 * 1024);
    var u3, u4 := LargeEntries(110000);
    used := [u1, u2, u3, u4];
  }

  const Ms: int := 1_000_000

  const Bbb: seq<Byte> := [66, 66, 66]
  const UpdatedA: seq<Byte> := [65, 33]
  const UpdatedB: seq<Byte> := [66, 33]

  /** The entries TestLRUTTL stores at time 0: A under the cache's 200 ms
      TTL, B under a per-key 300 ms TTL. */
  function EntryA(): Entry { Entry("A", Body, 200 * Ms) }
  function EntryB(): Entry { Entry("B", Bbb, 300 * Ms) }

  /** TestLRUTTL at time 0: A, then B with its own TTL. */
  method TtlFill(b: Builder)
    requires b.base.initialized && b.base.ttl == 200 * Ms && b.base.store.Valid()
    requires b.base.store.maxMem == 65536 && b.base.store.order == [] && !b.base.store.disabled
    modifies b.base.store
    ensures b.base.store.Valid() && b.base.store.maxMem == 65536 && !b.base.store.disabled
    ensures b.base.store.order == [EntryB(), EntryA()]
  {
    var store := b.base.store;
    PutIntoEmpty(EntryA(), 0, store.earliestExpiration, 65536);
    var _ := RenderWith(b, "A", [], Body, 0, 200 * Ms);
    assert store.order == [EntryA()];
    assert !store.Hit("B", 0) && Without([EntryA()], "B") == [EntryA()] by {
      assert [EntryA()][1..] == [];
      assert Without([EntryA()], "B") == [EntryA()] + [];
    }
    PutIntoOne(EntryA(), EntryB(), 0, store.earliestExpiration, 65536);
    var _ := RenderWith(b, "B", [WithTTL(300 * Ms)], Bbb, 0, 300 * Ms);
  }

  /** TestLRUTTL at 150 ms: both are hits and write their first bodies;
      the order ends as it began. */
  method TtlHits(b: Builder) returns (wa: Option<seq<Byte>>, wb: Option<seq<Byte>>)
    requires b.base.initialized && b.base.ttl == 200 * Ms && b.base.store.Valid()
    requires b.base.store.maxMem == 65536 && !b.base.store.disabled
    requires b.base.store.order == [EntryB(), EntryA()]
    modifies b.base.store
    ensures b.base.store.Valid() && b.base.store.maxMem == 65536 && !b.base.store.disabled
    ensures b.base.store.order == [EntryB(), EntryA()]
    ensures wa == Some(Body) && wb == Some(Bbb)
  {
    var store := b.base.store;
    var ea, eb := EntryA(), EntryB();
    IndexOfTwo(eb, ea);
    WithoutTwo(eb, ea);
    wa := RenderWith(b, "A", [], UpdatedA, 150 * Ms, 350 * Ms);
    assert store.order == [ea, eb];
    IndexOfTwo(ea, eb);
    WithoutTwo(ea, eb);
    wb := RenderWith(b, "B", [], UpdatedB, 150 * Ms, 350 * Ms);
  }

  /** TestLRUTTL at 210 ms: A has expired and is re-rendered with a new
      body expiring at 410 ms; B is still a hit. */
  method TtlExpireA(b: Builder) returns (wa: Option<seq<Byte>>, wb: Option<seq<Byte>>)
    requires b.base.initialized && b.base.ttl == 200 * Ms && b.base.store.Valid()
    requires b.base.store.maxMem == 65536 && !b.base.store.disabled
    requires b.base.store.order == [EntryB(), EntryA()]
    modifies b.base.store
    ensures b.base.store.Valid() && b.base.store.maxMem == 65536 && !b.base.store.disabled
    ensures b.base.store.order == [EntryB(), Entry("A", UpdatedA, 410 * Ms)]
    ensures wa == Some(UpdatedA) && wb == Some(Bbb)
  {
    var store := b.base.store;
    var ea, eb, ea2 := EntryA(), EntryB(), Entry("A", UpdatedA, 410 * Ms);
    IndexOfTwo(eb, ea);
    WithoutTwo(eb, ea);
    PutIntoOne(eb, ea2, 210 * Ms, store.earliestExpiration, 65536);
    wa := RenderWith(b, "A", [], UpdatedA, 210 * Ms, 410 * Ms);
    assert store.order == [ea2, eb];
    IndexOfTwo(ea2, eb);
    WithoutTwo(ea2, eb);
    wb := RenderWith(b, "B", [], UpdatedB, 210 * Ms, 410 * Ms);
  }

  /** TestLRUTTL at 310 ms: B has expired and is re-rendered. */
  method TtlExpireB(b: Builder) returns (wb: Option<seq<Byte>>)
    requires b.base.initialized && b.base.ttl == 200 * Ms && b.base.store.Valid()
    requires b.base.store.order == [EntryB(), Entry("A", UpdatedA, 410 * Ms)]
    modifies b.base.store
    ensures wb == Some(UpdatedB)
  {
    IndexOfTwo(EntryB(), Entry("A", UpdatedA, 410 * Ms));
    wb := RenderWith(b, "B", [], UpdatedB, 310 * Ms, 510 * Ms);
  }

  /** TestLRUTTL: with a 200 ms cache TTL and a 300 ms TTL for B, renders
      at 150 ms write the first bodies, at 210 ms A is re-rendered while B
      is still cached, and at 310 ms B is re-rendered. */
  method TtlExample() returns (written: seq<Option<seq<Byte>>>)
    ensures written == [Some(Body), Some(Bbb), Some(UpdatedA), Some(Bbb), Some(UpdatedB)]
  {
    var b := NewCache([WithTTL(200 * Ms)], 0);
    assert b.base.ttl == 200 * Ms && b.base.store.maxMem == 65536;
    TtlFill(b);
    var w1, w2 := TtlHits(b);
    var w3, w4 := TtlExpireA(b);
    var w5 := TtlExpireB(b);
    written := [w1, w2, w3, w4, w5];
  }
}
