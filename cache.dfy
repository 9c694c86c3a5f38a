/** The component layer of cache/cache.go: functional options, the builder
    returned by NewCache, and the Component operations (Stats, Remove,
    Disable, Reset, and the cache decision in Render). A Go Component is a
    struct copied by value that points at one shared store, so here it is a
    datatype holding a reference to an `Lru`. The option closures are the
    two constructors of `CacheOption`. */
module Cache {
  import opened LruSeq
  import opened LruStore

  const Second: int := 1_000_000_000

  /** Default time-to-live: one minute. */
  const DefaultTTL: int := 60 * Second

  /** Default store limit: 64 KiB. */
  const DefaultMem: int := 64 * 1024

  /** The TTL that stands for "no expiration": a hundred years. */
  const NoExpiry: int := 100 * 365 * 24 * 60 * 60 * Second

  /** math.MaxInt on a 64-bit platform: the limit that stands for "no limit". */
  const MaxInt: int := 0x7fff_ffff_ffff_ffff

  datatype Option<T> = None | Some(value: T)

  /** The two functional options. */
  datatype CacheOption = WithTTL(d: int) | WithMaxMemory(maxMem: int)

  /** What a child component's rendering produced. */
  datatype RenderResult = Rendered(output: seq<Byte>) | RenderFailed(err: string)

  datatype CacheStats = CacheStats(maxMemory: int, usedMemory: int, items: int, readCount: int, hitCount: int)

  /** The TTL that WithTTL(d) installs: zero means no expiration. */
  function TTLFor(d: int): (r: int)
    ensures d != 0 ==> r == d
    ensures d == 0 ==> r == NoExpiry
    ensures r != 0
  {
    if d == 0 then NoExpiry else d
  }

  /** The store limit that WithMaxMemory(n) installs: zero means no limit. */
  function LimitFor(n: int): (r: int)
    ensures n != 0 ==> r == n
    ensures n == 0 ==> r == MaxInt
    ensures r != 0
  {
    if n == 0 then MaxInt else n
  }

  /** The TTL after applying `opts` in order to a component with TTL `ttl`. */
  function TTLAfter(opts: seq<CacheOption>, ttl: int): int
  {
    if opts == [] then ttl
    else
      match opts[|opts| - 1]
      case WithTTL(d) => TTLFor(d)
      case WithMaxMemory(_) => TTLAfter(opts[..|opts| - 1], ttl)
  }

  /** The store limit after applying `opts` in order, before initialisation,
      to a component whose store has limit `limit`. */
  function LimitAfter(opts: seq<CacheOption>, limit: int): int
  {
    if opts == [] then limit
    else
      match opts[|opts| - 1]
      case WithTTL(_) => LimitAfter(opts[..|opts| - 1], limit)
      case WithMaxMemory(n) => LimitFor(n)
  }

  /** Options without WithTTL leave the TTL alone. */
  lemma {:induction false} TTLAfterNoTTL(opts: seq<CacheOption>, ttl: int)
    requires forall o :: o in opts ==> o.WithMaxMemory?
    ensures TTLAfter(opts, ttl) == ttl
  {
    if opts != [] {
      assert opts[|opts| - 1] in opts;
      assert forall o :: o in opts[..|opts| - 1] ==> o in opts;
      TTLAfterNoTTL(opts[..|opts| - 1], ttl);
    }
  }

  /** The last WithTTL wins, whatever came before it. */
  lemma {:induction false} LastTTLWins(pre: seq<CacheOption>, d: int, post: seq<CacheOption>, ttl: int)
    requires forall o :: o in post ==> o.WithMaxMemory?
    ensures TTLAfter(pre + [WithTTL(d)] + post, ttl) == TTLFor(d)
    decreases |post|
  {
    var opts := pre + [WithTTL(d)] + post;
    if post == [] {
      assert opts[|opts| - 1] == WithTTL(d);
    } else {
      assert opts[|opts| - 1] == post[|post| - 1];
      assert post[|post| - 1] in post;
      assert opts[..|opts| - 1] == pre + [WithTTL(d)] + post[..|post| - 1];
      assert forall o :: o in post[..|post| - 1] ==> o in post;
      LastTTLWins(pre, d, post[..|post| - 1], ttl);
    }
  }

  /** Options without WithMaxMemory leave the default store limit alone. */
  lemma {:induction false} LimitAfterNoLimit(opts: seq<CacheOption>, limit: int)
    requires forall o :: o in opts ==> o.WithTTL?
    ensures LimitAfter(opts, limit) == limit
  {
    if opts != [] {
      assert opts[|opts| - 1] in opts;
      assert forall o :: o in opts[..|opts| - 1] ==> o in opts;
      LimitAfterNoLimit(opts[..|opts| - 1], limit);
    }
  }

  /** One option closure applied to a component. WithMaxMemory installs a
      fresh store only before initialisation and is ignored afterwards. */
  method Apply(opt: CacheOption, c: Component, now: int) returns (r: Component)
    ensures opt.WithTTL? ==> r == c.(ttl := TTLFor(opt.d))
    ensures opt.WithMaxMemory? && c.initialized ==> r == c
    ensures opt.WithMaxMemory? && !c.initialized ==>
      && r == c.(store := r.store)
      && fresh(r.store) && r.store.Valid() && r.store.maxMem == LimitFor(opt.maxMem)
      && r.store.order == [] && !r.store.disabled
      && r.store.readCount == 0 && r.store.hitCount == 0
  {
    match opt
    case WithTTL(d) =>
      r := c.(ttl := TTLFor(d));
    case WithMaxMemory(n) =>
      if c.initialized {
        return c;
      }
      var store := new Lru(LimitFor(n), now);
      r := c.(store := store);
  }

  /** The builder function returned by NewCache: it closes over `base`. */
  datatype Builder = Builder(base: Component)
  {
    /** Calling the builder: a copy of the base component with the given
        key and the per-key options applied. The copy shares the base's
        store; per-key options change only its TTL, since WithMaxMemory is
        ignored on an initialised component. `now` is passed to the option
        closures, which never read it here. */
    method Make(key: string, opts: seq<CacheOption>, now: int) returns (c: Component)
      requires base.initialized
      ensures c.store == base.store && c.key == key && c.initialized
      ensures c.ttl == TTLAfter(opts, base.ttl)
    {
      var dupe := base.(key := key);
      for i := 0 to |opts|
        invariant dupe == Component(TTLAfter(opts[..i], base.ttl), key, true, base.store)
      {
        assert opts[..i + 1][..i] == opts[..i];
        dupe := Apply(opts[i], dupe, now);
      }
      assert opts[..|opts|] == opts;
      c := dupe;
    }
  }

  /** NewCache: a base component with the default TTL and a fresh default
      store, the options applied in order, then marked initialised. */
  method NewCache(opts: seq<CacheOption>, now: int) returns (b: Builder)
    ensures b.base.initialized && b.base.key == ""
    ensures b.base.ttl == TTLAfter(opts, DefaultTTL)
    ensures fresh(b.base.store) && b.base.store.Valid()
    ensures b.base.store.maxMem == LimitAfter(opts, DefaultMem)
    ensures b.base.store.order == [] && !b.base.store.disabled
    ensures b.base.store.readCount == 0 && b.base.store.hitCount == 0
  {
    var store := new Lru(DefaultMem, now);
    var base := Component(DefaultTTL, "", false, store);
    for i := 0 to |opts|
      invariant base.key == "" && !base.initialized
      invariant base.ttl == TTLAfter(opts[..i], DefaultTTL)
      invariant fresh(base.store) && base.store.Valid()
      invariant base.store.maxMem == LimitAfter(opts[..i], DefaultMem)
      invariant base.store.order == [] && !base.store.disabled
      invariant base.store.readCount == 0 && base.store.hitCount == 0
    {
      assert opts[..i + 1][..i] == opts[..i];
      base := Apply(opts[i], base, now);
    }
    assert opts[..|opts|] == opts;
    b := Builder(base.(initialized := true));
  }

  /** The cache component used in templates. */
  datatype Component = Component(ttl: int, key: string, initialized: bool, store: Lru)
  {
    /** Stats: a read-only snapshot of the shared store. */
    function Stats(): (s: CacheStats)
      reads store
      requires store.Valid()
      ensures s.maxMemory == store.maxMem
      ensures s.usedMemory == SumSizes(store.order)
      ensures s.items == |store.order| == |store.index|
      ensures s.readCount == store.readCount && s.hitCount == store.hitCount
      ensures 0 <= s.hitCount <= s.readCount
    {
      IndexOfSize(store.order);
      CacheStats(store.maxMem, store.mem, |store.order|, store.readCount, store.hitCount)
    }

    /** Remove: invalidates `k` in the shared store, enabled or not. */
    method Remove(k: string)
      requires store.Valid()
      modifies store
      ensures store.Valid()
      ensures store.order == Without(old(store.order), k)
      ensures store.maxMem == old(store.maxMem) && store.disabled == old(store.disabled)
      ensures store.earliestExpiration == old(store.earliestExpiration)
      ensures store.readCount == old(store.readCount) && store.hitCount == old(store.hitCount)
    {
      store.DeleteKey(k);
    }

    /** Disable(true) wipes the store and then disables it; Disable(false)
        only clears the flag, so the store it re-enables holds whatever a
        disabled store holds: nothing. */
    method Disable(disable: bool)
      requires store.Valid()
      modifies store
      ensures store.Valid()
      ensures store.disabled == disable
      ensures disable ==> store.order == [] && store.mem == 0
      ensures !disable ==> store.order == old(store.order)
      ensures !disable && old(store.disabled) ==> store.order == [] && store.mem == 0
      ensures store.maxMem == old(store.maxMem) && store.earliestExpiration == old(store.earliestExpiration)
      ensures store.readCount == old(store.readCount) && store.hitCount == old(store.hitCount)
    {
      if disable {
        store.Reset();
      }
      store.disabled := disable;
      assert Below(store.earliestExpiration, store.order);
    }

    /** Reset: erases the cached items. The read and hit counters are kept
        (the store's reset does not touch them). */
    method Reset()
      requires store.Valid()
      modifies store
      ensures store.Valid()
      ensures Stats().usedMemory == 0 && Stats().items == 0
      ensures Stats().maxMemory == old(store.maxMem)
      ensures store.order == [] && store.disabled == old(store.disabled)
      ensures store.maxMem == old(store.maxMem) && store.earliestExpiration == old(store.earliestExpiration)
      ensures store.readCount == old(store.readCount) && store.hitCount == old(store.hitCount)
    {
      store.Reset();
    }

    /** Render: a hit writes the cached bytes and renders nothing. On a
        miss, no children render nothing and store nothing; children that
        fail store nothing and return their error; children that succeed
        have their output stored under `key` with `ttl` and the same bytes
        written. An enabled store counts the read, and a hit; the watermark
        moves only when the output is stored. `writeErr` is what the writer
        returns when written to. */
    method Render(children: Option<RenderResult>, writeErr: Option<string>, now: int)
      returns (written: Option<seq<Byte>>, err: Option<string>)
      requires store.Valid()
      modifies store
      ensures store.Valid()
      ensures old(store.Hit(key, now)) ==>
        && written == Some(old(store.index)[key].value) && err == writeErr
        && store.order == [old(store.index)[key]] + Without(old(store.order), key)
      ensures !old(store.Hit(key, now)) && children.None? ==>
        written == None && err == None && store.order == old(store.MissOrder(key))
      ensures !old(store.Hit(key, now)) && children.Some? && children.value.RenderFailed? ==>
        written == None && err == Some(children.value.err) && store.order == old(store.MissOrder(key))
      ensures !old(store.Hit(key, now)) && children.Some? && children.value.Rendered? ==>
        && written == Some(children.value.output) && err == writeErr
        && (old(store.disabled) ==> store.order == old(store.order))
        && (!old(store.disabled) ==>
              store.order == PutOrder(Without(old(store.order), key), Entry(key, children.value.output, now + ttl),
                                      now, old(store.earliestExpiration), store.maxMem))
      ensures !old(store.Hit(key, now)) && children.Some? && children.value.Rendered? && !old(store.disabled) ==>
        store.earliestExpiration
          == PutWatermark(Without(old(store.order), key), Entry(key, children.value.output, now + ttl),
                          now, old(store.earliestExpiration), store.maxMem)
      ensures old(store.Hit(key, now)) || children.None? || children.value.RenderFailed? || old(store.disabled) ==>
        store.earliestExpiration == old(store.earliestExpiration)
      ensures store.readCount == old(store.readCount) + (if old(store.disabled) then 0 else 1)
      ensures store.hitCount == old(store.hitCount) + (if old(store.Hit(key, now)) then 1 else 0)
      ensures store.maxMem == old(store.maxMem) && store.disabled == old(store.disabled)
    {
      var cached, isCached := store.Get(key, now);
      if isCached {
        return Some(cached), writeErr;
      }
      if children.None? {
        return None, None;
      }
      match children.value
      case RenderFailed(e) =>
        return None, Some(e);
      case Rendered(buf) =>
        store.Put(key, buf, ttl, now);
        return Some(buf), writeErr;
    }
  }
}
