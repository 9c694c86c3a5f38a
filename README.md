# templ-go/x cache and urlbuilder in Dafny

This project models two packages of templ-go/x and proves properties about them.

**The component cache (`cache`).** This is an in-memory store of rendered bytes. Entries are keyed by string, expire after a time-to-live (TTL), and are evicted least recently used first once a byte limit is exceeded. On top of the store sits a component layer:
- functional options set the TTL and the limit;
- a builder makes per-key components that all share one store;
- Render serves a hit from the store, or renders the children and stores their output.

**The URL builder (`urlbuilder`).** This is a mutable builder. Its setters overwrite the scheme, host and fragment, and append path segments and query values. `Build` assembles the URL by fixed concatenation rules.

Files:
- `lru_seq.dfy` (module `LruSeq`) gives the value-level view of the store.
  - The recency list is a sequence of entries, most recent first.
  - Every list operation of the store is a function on that sequence: removal of a key, the expiration sweep, capacity eviction, and the whole of `put`.
  - Lemmas state what each operation keeps: byte accounting, the key index, the order of survivors, and the expiration watermark.
- `lru_store.dfy` (module `LruStore`) holds the store itself, the class `Lru`. Its fields are updated in place.
  - Each method is proved against the functions of `LruSeq`.
  - Each public method preserves `Valid()`:
    - one list element per key;
    - the index matches the list;
    - `mem` is the sum of entry sizes;
    - the watermark is at or below every resident expiration;
    - hits never exceed reads;
    - a disabled store is empty.
  - The internal steps `DeleteKeyLocked` and `SweepAt` keep only `Consistent()`, the first three of these.
- `cache.dfy` (module `Cache`) holds the component layer.
  - The option closures become the datatype `CacheOption`, applied by `Apply`.
  - `Component` is a value holding a reference to the shared store.
- `cache_examples.dfy` (module `CacheExamples`) replays scenarios of `cache/cache_test.go` on the model, with the clock as an explicit argument.
- `urlbuilder.dfy` (module `UrlBuilder`) holds the class `URLBuilder`.
  - `Build` is a loop proved equal to the concatenation function `BuildURL`.
  - Lemmas about `BuildURL` state the layout of the URL. Scenarios of `urlbuilder/urlbuilder_test.go` are replayed at the end.

Keys are charged their UTF-8 length, as Go's `len` counts bytes. Times are integers in nanoseconds. Every `time.Now()` of the source is a parameter `now`.

Where the code and the documentation disagree, the model follows the code:
- `Reset` (cache/cache.go:176-179) empties the store but does not clear the read and hit counters, because the store's `reset` (cache/lru.go:52-59) never touches them. The doc comments at cache/cache.go:149 and cache/cache.go:176 say statistics are reset.
- A `get` on a disabled store returns before counting the read (cache/lru.go:65-69), so disabled reads are not counted.
- The expiration sweep deletes entries with `now > expiration` (strict, cache/lru.go:153). An entry expiring exactly at `now` survives the sweep, while `get` already treats it as expired (cache/lru.go:73).
- A segment added with the `Path` method is escaped. The '/' separator is decided on the raw value (urlbuilder/urlbuilder.go:103-110). So an escaped segment whose raw value starts with '/' gets no separator, and its own '/' is escaped. The model keeps this behaviour, and `SegmentSeparator` states it.

## Model

| member | source | states |
|---|---|---|
| LruSeq.Utf8Len | cache/lru.go:39 | a key's length in bytes is its UTF-8 length: one to four bytes per character, and one per character exactly when it is ASCII |
| LruSeq.Size | cache/lru.go:38-40 | an entry is charged its key's UTF-8 bytes, its value's bytes and 24 for the expiration; with an ASCII key that is key length + value length + 24 |
| LruSeq.IndexOfKeys | cache/lru.go:20-21 | the key index holds exactly the keys on the recency list, each mapped to a list element carrying that key |
| LruSeq.IndexOfSize | cache/lru.go:20-21 | with one element per key, the index has as many keys as the list has elements (why Stats may count the list) |
| LruSeq.WithoutAbsent | cache/lru.go:127-131 | deleting a key that is not resident leaves the list unchanged |
| LruSeq.WithoutMembers | cache/lru.go:133-136 | deleting a key removes exactly the elements with that key and keeps every other element |
| LruSeq.WithoutKeys | cache/lru.go:133-136 | after deleting a key the list's key set loses exactly that key and stays one element per key |
| LruSeq.IndexOfWithout | cache/lru.go:136 | the index after deleting a key is the old index without that key |
| LruSeq.SumSizesWithout | cache/lru.go:135 | deleting a resident key lowers the byte total by exactly that entry's size |
| LruSeq.WithoutAt | cache/lru.go:133 | deleting the key of position i removes exactly position i |
| LruSeq.WithoutSubsequence | cache/lru.go:133 | deletion keeps the relative order of the other entries |
| LruSeq.PushFront | cache/lru.go:97-100 | pushing an entry with a new key to the front keeps one element per key, adds it to the index and adds its size to the byte total |
| LruSeq.MoveToFront | cache/lru.go:75 | moving the hit entry to the front keeps the key set, the index and the byte total |
| LruSeq.UnexpiredMembers | cache/lru.go:153-154 | the sweep keeps exactly the entries with `now <= expiration` |
| LruSeq.UnexpiredKeys | cache/lru.go:153-154 | the sweep introduces no key and keeps one element per key |
| LruSeq.UnexpiredSubsequence | cache/lru.go:149-158 | the sweep keeps the relative order of the survivors |
| LruSeq.SweepStep | cache/lru.go:149-158 | one back-to-front step adds position i-1 to the swept suffix, kept or dropped, and updates the running minimum expiration |
| LruSeq.SweepDelete | cache/lru.go:153-154 | deleting an expired entry during the sweep leaves the unvisited prefix followed by the swept suffix |
| LruSeq.SweepKeep | cache/lru.go:155-157 | keeping an unexpired entry during the sweep leaves the list as the unvisited prefix followed by the swept suffix |
| LruSeq.MinExpirationBound | cache/lru.go:146-157 | the recomputed watermark is at most now + 24h, at most every survivor's expiration, and is either now + 24h or a survivor's expiration |
| LruSeq.SweepKeepsWatermark | cache/lru.go:140-158 | skipped or run, the sweep leaves a watermark at or below every surviving expiration |
| LruSeq.EvictStep | cache/lru.go:110-114 | one eviction step deletes exactly the back element |
| LruSeq.EvictLruSpec | cache/lru.go:110-115 | capacity eviction removes only from the back (a prefix survives), never empties a non-empty list, stops within the limit or at one entry, and stops at the first point where it fits |
| LruSeq.PutOrderSpec | cache/lru.go:95-116 | after put the list is drawn in order from the new entry followed by the old list without its key, has one element per key, fits the limit or holds at most one entry (none when the new entry is already expired and swept away), and keeps the new entry at the front unless it is already past its expiration |
| LruSeq.PutKeepsWatermark | cache/lru.go:102-108 | put keeps the watermark at or below every resident expiration |
| LruStore.Lru.constructor | cache/lru.go:42-50 | newLRU: an empty, enabled store with the given limit, zero bytes and counters, and a watermark 24h ahead |
| LruStore.Lru.Reset | cache/lru.go:52-59 | reset empties list, index and byte count, and keeps the limit, watermark, flag and counters |
| LruStore.Lru.DeleteKeyLocked | cache/lru.go:126-137 | _deleteKey removes the key's element from list and index, lowers mem by its size, and changes nothing for an absent key |
| LruStore.Lru.DeleteKey | cache/lru.go:119-124 | deleteKey removes the key whether or not the store is disabled |
| LruStore.Lru.Get | cache/lru.go:61-82 | get hits exactly when enabled, resident and `now < expiration`. A hit counts a hit, returns the stored value and moves the entry to the front, others in order. A present but expired entry is deleted. An enabled get counts one read; a disabled get changes nothing |
| LruStore.Lru.PushLocked | cache/lru.go:92-104 | put's insertion replaces any entry for the key by the new one at the front, charges its size and lowers the watermark to its expiration if earlier |
| LruStore.Lru.Put | cache/lru.go:84-117 | on an enabled store the new list and watermark are PutOrder and PutWatermark of the old ones; a disabled store is unchanged |
| LruStore.Lru.EvictOldest | cache/lru.go:110-115 | the eviction loop leaves EvictLru of the list it started from |
| LruStore.Lru.EvictExpired | cache/lru.go:139-159 | _evictExpired leaves Sweep of the list and SweepWatermark of the watermark: nothing happens before the watermark, otherwise exactly the entries strictly past their expiration go |
| LruStore.Lru.SweepAt | cache/lru.go:149-158 | one iteration of the sweep deletes the visited entry if strictly expired, else lowers the watermark to its expiration |
| Cache.TTLFor | cache/cache.go:113-121 | WithTTL(0) installs the hundred-year TTL; any other duration is installed as is |
| Cache.LimitFor | cache/cache.go:126-139 | WithMaxMemory(0) installs math.MaxInt; any other limit is installed as is |
| Cache.TTLAfterNoTTL | cache/cache.go:93-95 | options without WithTTL leave the TTL unchanged |
| Cache.LastTTLWins | cache/cache.go:102-104 | the last WithTTL in the option list decides the TTL |
| Cache.LimitAfterNoLimit | cache/cache.go:93-95 | options without WithMaxMemory keep the default 64 KiB store limit |
| Cache.Apply | cache/cache.go:113-139 | WithTTL sets the TTL. WithMaxMemory installs a fresh empty store with the given limit before initialisation and does nothing after it |
| Cache.NewCache | cache/cache.go:87-107 | the base component is initialised, has the TTL and store limit the options give starting from one minute and 64 KiB, and owns a fresh empty store |
| Cache.Builder.Make | cache/cache.go:98-107 | every component from the builder shares the base store and carries the requested key; per-key options change only its TTL |
| Cache.Component.Stats | cache/cache.go:150-160 | Stats reports the limit, the byte total of the resident entries, the number of entries (equal to the index size), and the read and hit counters, with hits at most reads |
| Cache.Component.Remove | cache/cache.go:163-165 | Remove deletes the key from the shared store, enabled or not; limit, flag, watermark and counters stay |
| Cache.Component.Disable | cache/cache.go:167-174 | Disable(true) empties the store and sets the flag; Disable(false) clears the flag only, so a re-enabled store starts empty |
| Cache.Component.Reset | cache/cache.go:176-179 | after Reset, Stats reports zero bytes and zero items and the old limit; the flag, watermark and counters are unchanged |
| Cache.Component.Render | cache/cache.go:182-212 | a hit writes the cached bytes and renders nothing. No children store and write nothing. A failed render stores nothing and returns its error. A successful render stores exactly its bytes under the key with the component's TTL (list and watermark as put leaves them) and writes the same bytes. An enabled store counts one read, and one hit exactly on a hit; the watermark is unchanged unless the output is stored |
| CacheExamples.PutIntoOne | cache/lru.go:95-116 | putting a new key into a one-entry list with nothing expired keeps both when they fit and otherwise evicts the old entry |
| CacheExamples.NonAsciiKeySize | cache/lru.go:38-40 | a one-character, two-byte key with an empty value is charged 26 bytes |
| CacheExamples.NonAsciiEviction | cache/lru.go:106-116 | a 26-byte entry for a two-byte key and a 25-byte entry do not fit under 50 bytes, so the older one is evicted |
| CacheExamples.OverflowStep | cache/lru.go:106-116 | a fourth 28-byte entry under a 110-byte limit evicts the back entry |
| CacheExamples.LruOrderExample | cache/cache_test.go:179-220 | TestLRUOrder: rendering A, A, B, C, D, B, E under a 110-byte limit leaves E, B, D and three items |
| CacheExamples.DefaultsExample | cache/cache.go:87-96 | NewCache without options gives a one-minute TTL, a 65536-byte limit, and zero bytes, items and counters |
| CacheExamples.LargeEntries | cache/cache_test.go:137-158 | a 1-byte key with a 50000-byte value takes 50025 bytes; a second one evicts the first unless both fit |
| CacheExamples.MaxMemoryExample | cache/cache_test.go:137-158 | TestMaxMemory: used memory 50025 and 50025 under 64 KiB, then 50025 and 100050 under 110000 bytes |
| CacheExamples.TtlExample | cache/cache_test.go:267-303 | TestLRUTTL: at 150 ms both cached bodies are served; at 210 ms A is re-rendered and B still served; at 310 ms B is re-rendered |
| UrlBuilder.URLBuilder.constructor | urlbuilder/urlbuilder.go:25-29 | New: every part empty |
| UrlBuilder.Scheme | urlbuilder/urlbuilder.go:32-34 | a new builder with only the scheme set |
| UrlBuilder.Host | urlbuilder/urlbuilder.go:38-40 | a new protocol-relative builder with only the host set |
| UrlBuilder.Path | urlbuilder/urlbuilder.go:44-48 | a new builder whose single segment is written without escaping |
| UrlBuilder.URLBuilder.Scheme | urlbuilder/urlbuilder.go:51-54 | overwrites the scheme, leaves the rest, returns the same builder |
| UrlBuilder.URLBuilder.Host | urlbuilder/urlbuilder.go:57-60 | overwrites the host, leaves the rest, returns the same builder |
| UrlBuilder.URLBuilder.Path | urlbuilder/urlbuilder.go:63-66 | appends an escaped segment after the existing ones, returns the same builder |
| UrlBuilder.URLBuilder.Query | urlbuilder/urlbuilder.go:69-72 | adds the value under the key (url.Values.Add), returns the same builder |
| UrlBuilder.URLBuilder.Fragment | urlbuilder/urlbuilder.go:75-78 | overwrites the fragment, leaves the rest, returns the same builder |
| UrlBuilder.URLBuilder.Build | urlbuilder/urlbuilder.go:81-123 | the buffer loop produces BuildURL of the builder's fields; Build modifies nothing, so building twice gives the same URL |
| UrlBuilder.AddValueSpec | urlbuilder/urlbuilder.go:69-72 | a query value is appended after the key's earlier values, other keys are untouched, and the query becomes non-empty |
| UrlBuilder.OpaqueSchemeIgnoresRest | urlbuilder/urlbuilder.go:83-88 | for tel and mailto the URL is exactly `scheme:host`, whatever the path, query and fragment |
| UrlBuilder.URLParts | urlbuilder/urlbuilder.go:89-123 | otherwise the URL is scheme part, host part, segments, query part and fragment part, concatenated in that order |
| UrlBuilder.SegmentsStep | urlbuilder/urlbuilder.go:101-111 | each loop iteration appends exactly one segment's text |
| UrlBuilder.SegmentsAppend | urlbuilder/urlbuilder.go:101-111 | segments contribute in the order they were added |
| UrlBuilder.SegmentSeparator | urlbuilder/urlbuilder.go:103-110 | a segment gets a '/' separator exactly when its raw value does not start with '/'; a verbatim segment's text therefore always starts with '/' |
| UrlBuilder.SegmentsStartWithSlash | urlbuilder/urlbuilder.go:101-111 | when no escaped segment starts with '/', the path part is empty exactly when there are no segments and otherwise starts with '/' |
| UrlBuilder.SegmentsExclude | urlbuilder/urlbuilder.go:101-111 | a character other than '/' absent from the verbatim segments and from the escaper output is absent from the path part |
| UrlBuilder.QueryMarkIffQuery | urlbuilder/urlbuilder.go:113-116 | with '?' absent from the other parts, the URL contains '?' exactly when a query value was added |
| UrlBuilder.FragmentMarkIffFragment | urlbuilder/urlbuilder.go:118-121 | with '#' absent from the other parts, the URL contains '#' exactly when the fragment is non-empty |
| UrlBuilder.RelativePathExample | urlbuilder/urlbuilder_test.go:126-139 | TestPath: Path("chat").Path("response").Query("input", "hello!") builds "/chat/response?input=hello%21" |
| UrlBuilder.EscapedPathExample | urlbuilder/urlbuilder_test.go:94-108 | TestURLEscapingPath: the two escaped segments build "https://example.com/a%2Fb/c%20d" |
| UrlBuilder.SlashIndexExample | urlbuilder/urlbuilder_test.go:165-175 | TestSlashIndex: Path("/index") builds "/index", with no added separator |
| UrlBuilder.ProtocolRelativeExample | urlbuilder/urlbuilder_test.go:141-151 | TestProtocolRelative: Host("example.com") builds "//example.com" |
| UrlBuilder.MailToExample | urlbuilder/urlbuilder_test.go:201-211 | TestMailTo: a mailto scheme and host build "mailto:test@example.com", even with a path and a fragment added |

## Left out

- Locking: the `sync.RWMutex` of the store and the concurrency test are not modelled. Each store method is one atomic step of a single thread.
- The clock: `time.Now()` becomes the parameter `now`. Go reads the clock separately in get, in put's expiration and in the sweep (cache/lru.go:73, 92, 141). The model's Put, and Render, which calls get and then put, use one reading for all of them.
- The sleep-based timing tests (TestDisable, TestReset, TestEviction) are not replayed. TestLRUTTL is replayed with explicit clock readings.
- `container/list` is the sequence `order`, front first. The node pointers and their aliasing are not modelled.
- `time.Duration` and `int` are unbounded integers. Overflow of `now + ttl` and of the byte count is not modelled.
- Render's context and writer: `templ.GetChildren`, `ClearChildren`, the children's rendering and `io.Writer.Write` are abstract inputs. They are an optional render result and the writer's error. Render returns the bytes written.
- The option closures are the datatype `CacheOption`. In Go, the closure made by `WithTTL(0)` rewrites its captured `d` the first time it runs. That has no effect the model can observe, because every later run installs the same hundred-year TTL.
- The escapers `url.PathEscape`, `url.QueryEscape` and `url.Values.Encode` are function parameters of `Build`. Nothing is stated about their output format; the examples require the outputs their tests rely on.
- `templ.SafeURL` is the plain string.
- Keys are Dafny strings of Unicode scalar values. A Go key holding invalid UTF-8 bytes has no counterpart.
- TestDefaultMemory is not replayed: it expects a 64 MB default, while the code's default is 64 KiB.
- The test helpers `Outer`, `Slow`, `OuterTTL`, `peekFront` and `peekBack` are not modelled. The examples read the list directly.
