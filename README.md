# Set-associative cache simulator: a verified model of its engine

This project models the engine of a Go simulator of a set-associative CPU cache. The simulator is fed a trace of memory references and counts hits, misses, replacements and memory-bus traffic for a configurable geometry and write policy. Two parts of the engine are modelled.

- **The cache** (`cache/cache.go`). `NewCache` derives the geometry from the options. Those are the offset, index and tag bit counts and the number of sets. It allocates the data bank and the instruction bank. `ParseCacheRequest` reads a hex address and splits it into offset, set index and tag. `HandleRequest` routes each reference to one of three handlers:
  - the write handler,
  - the data-read handler,
  - the instruction-read handler.

  The handlers increment the counters of two reporters, one for data and one for instructions. `FlushDirty` adds copy-back traffic for every dirty block of the data bank.
- **The set list lookup** `Set.CheckTag` (`cache/set.go`). It walks a `container/list` of tags and updates it in place. The back of the list is the most-recently-used end. The front is the end a miss evicts.

Files and modules:

| file | module | models |
|---|---|---|
| `options.dfy` | `CacheOptions` | the enumerations, `WordSize` and the `Options` record of `cache/options.go` |
| `reporter.dfy` | `Reporting` | the five counters of `Reporter` and their ordering invariant |
| `bits.dfy` | `Bits` | powers of two, an exact `Log2`, and shift and mask as division and remainder |
| `hex.dfy` | `HexParse` | what `strconv.ParseUint(text, 16, 64)` accepts and returns |
| `cache_model.dfy` | `CacheModel` | `cache.go` as values: geometry, decoding, routing, and each handler's effect on a snapshot of the cache |
| `cache.dfy` | `CacheEngine` | class `Cache`: banks as arrays, counters updated in place, each method proved equal to its `CacheModel` function |
| `set.dfy` | `LruSet` | class `Set` with its list as a sequence, `CheckTag` as written, and the lookup as evidently intended |
| `wrappers.dfy` | `Wrappers` | `Option`, standing for a nil result |

Some set operations are called by `cache.go`, but no file of the `cache` package that this model covers defines them:
- `Set.Replace(writePolicy, missPolicy, tag)`;
- the three-result `CheckTag`;
- `ToArray`;
- the constants `HIT`, `CompulsoryMiss` and `ConflictMiss`.

The model therefore takes them as parameters. `ReplaceOp` and `CheckTagOp` are functions from the set's current entries to a `SetResponse`. A `SetResponse` holds the outcome, the words fetched, the words written and the entries left in the set. Each bank holds, per set, the `(tag, dirty)` entries that `ToArray` lists. Every accounting property is proved for every possible set operation.

In these places the model follows the code rather than what a set-associative cache simulator usually does:
- An address that does not decode is not skipped. `HandleRequest` dereferences the nil request at `cache/cache.go:124-128` and the run ends. `Cache.HandleRequest` returns `false` with the state untouched.
- A split cache's instruction read does not have its own bus counters. `handleInstructionRead` adds the fetched words to the data reporter and drops the written count. The instruction reporter's traffic counters therefore never change (`CacheModel.AfterRequest`).
- The instruction bank is sized from the data-cache size, not from the instruction-cache size (`cache/cache.go:45,50`).
- The recency order of the list is most-recently-used at the back. The comment at `cache/set.go:14` says a found tag moves "to the head", but the code pushes it at the back (`cache/set.go:15-16`).
- `NewCache` does not check its options. The conditions under which its computation is exact are preconditions (`CacheModel.ValidOptions`).

Shifts and masks are modelled on unbounded naturals. `x >> k` is `x / 2^k` and `x & ((1 << k) - 1)` is `x % 2^k`. For every uint64 value this is exact, shift counts of 64 or more included. The uint64 subtraction that gives `TagBits` is modelled with its wrap-around.

## Model

| member | source | states |
|---|---|---|
| `Bits.Log2` | cache/cache.go:44-46 | the logarithm of a power of two `n` is the `k` with `2^k == n` |
| `Bits.ShiftRight` | cache/cache.go:90-92 | a right shift never increases the value |
| `Bits.LowBits` | cache/cache.go:87-91 | masking the low `k` bits yields a value below `2^k` |
| `Bits.ShiftMaskExact` | cache/cache.go:87-95 | tag, index and offset cut out by mask and shift recombine to the address: `tag*2^(ob+ib) + index*2^ob + offset == addr` |
| `HexParse.ParseUint64Hex` | cache/cache.go:78-85 | a parsed address is a uint64; the text is rejected unless it is non-empty base-16 digits whose value is below 2^64 |
| `HexParse.FormatThenParse` | cache/cache.go:78 | every uint64 written in hex parses back to itself |
| `HexParse.PrefixRejected` | cache/cache.go:78 | with base 16 given explicitly, a `0x` prefix makes the text invalid |
| `HexParse.TooManyDigitsRejected` | cache/cache.go:78-85 | more than sixteen significant hex digits overflow 64 bits and are rejected |
| `CacheModel.SetCount` | cache/cache.go:45 | the number of sets is the number of whole sets of `Associativity * BlockSize` bytes that fit in the data-cache size |
| `CacheModel.Layout` | cache/cache.go:44-47 | `2^OffsetBits == BlockSize`; `2^IndexBits == NumberOfSets`; `NumberOfSets` is the rounded-down quotient of the data-cache size by the bytes per set; `TagBits` completes the 32-bit address when the other two fit, and otherwise is the uint64 wrap-around of the negative difference |
| `CacheModel.TagBits` | cache/cache.go:47 | the tag width completes the 32-bit address when offset and index bits fit in it; otherwise it is the uint64 wrap-around of the negative difference |
| `CacheModel.ParseCacheRequest` | cache/cache.go:76-106 | yields a request exactly when the text parses; offset and set index are below their field ranges; the three fields recombine to the address |
| `CacheModel.Route` | cache/cache.go:126-151 | a reference goes to the write path if and only if it is a data write; it goes to the instruction-bank read if and only if the cache is split and the reference is an instruction fetch; every other kind value reads the data bank |
| `CacheModel.Tally` | cache/cache.go:159-166 | accesses rise by one; misses rise by one on a compulsory or conflict miss and are unchanged otherwise; replacements rise by one on a conflict miss and are unchanged otherwise; traffic is untouched; `replaces <= misses <= accesses` is preserved |
| `CacheModel.Traffic` | cache/cache.go:157-158 | fetched and written words are added to the bus counters, and the access counters are unchanged |
| `CacheModel.AfterDataWrite` | cache/cache.go:154-169 | only the data reporter and the selected data set change; the access is counted once; misses rise by one on either miss outcome and stay the same on any other outcome; replacements rise by one on a conflict miss and stay the same otherwise; the set operation's traffic is added; the counter ordering is preserved |
| `CacheModel.AfterDataRead` | cache/cache.go:171-199 | traffic always goes to the data reporter; accesses, misses and replacements go to the instruction reporter exactly for an instruction fetch and to the data reporter otherwise; in the selected reporter misses rise by one exactly on a miss outcome and replacements exactly on a conflict miss, and both stay the same otherwise; only the selected data set changes; the ordering is preserved |
| `CacheModel.AfterInstructionRead` | cache/cache.go:201-217 | the selected instruction set is the only set that changes; the fetched words go to the data reporter's fetch counter; the written count is dropped; only the instruction reporter counts the access; its misses rise by one exactly on a miss outcome and its replacements exactly on a conflict miss, and both stay the same otherwise; the ordering is preserved |
| `CacheModel.AfterRequest` | cache/cache.go:123-152 | the request fails exactly when the address does not parse; otherwise an instruction fetch raises the instruction reporter's accesses by one and any other kind raises the data reporter's by one; the instruction reporter's traffic never changes; the instruction bank changes only for an instruction fetch in a split cache; the ordering is preserved |
| `CacheModel.AfterFlush` | cache/cache.go:109-121 | the data reporter's copied words rise by `BlockSize / WordSize` per dirty entry of the data bank; the instruction bank, the instruction reporter, every set and every other counter are unchanged |
| `CacheModel.FlushTwice` | cache/cache.go:109-121 | flushing twice adds the dirty blocks' copy-back traffic twice, because the flush clears no dirty flag |
| `CacheModel.DirtyCountUpdate` | cache/cache.go:110-120 | replacing one set's entries changes the number of blocks a flush copies back by that set's difference alone |
| `CacheModel.RunCounts` | cache/cache.go:123-152 | over a whole trace that decodes, the ordering of both reporters holds, every reference is exactly one access, and the instruction reporter counts exactly the instruction fetches |
| `CacheEngine.Cache.NewCache` | cache/cache.go:40-73 | the geometry is `Layout(options)`; both banks have `NumberOfSets` empty sets; the dirty rows have `Associativity` false flags each; both reporters are zero |
| `CacheEngine.Cache.HandleDataWrite` | cache/cache.go:154-169 | the in-place counter updates produce `AfterDataWrite`; reports a hit exactly on a `Hit` outcome |
| `CacheEngine.Cache.HandleDataRead` | cache/cache.go:171-199 | the in-place counter updates produce `AfterDataRead`; reports a hit exactly on a `Hit` outcome |
| `CacheEngine.Cache.HandleInstructionRead` | cache/cache.go:201-217 | the in-place counter updates produce `AfterInstructionRead`; reports a hit exactly on a `Hit` outcome |
| `CacheEngine.Cache.HandleRequest` | cache/cache.go:123-152 | the nested dispatch produces `AfterRequest`; on an address that does not decode it returns false and changes nothing |
| `CacheEngine.Cache.FlushDirty` | cache/cache.go:109-121 | the nested loop over sets and entries produces `AfterFlush` |
| `LruSet.Promote` | cache/set.go:15-16 | unlinking an element and pushing it at the back keeps the length and the multiset of tags, and puts that element last |
| `LruSet.Walk` | cache/set.go:12-23 | every lookup keeps the list length and leaves the looked-up tag at the back; a hit only reorders |
| `LruSet.WalkShape` | cache/set.go:12-23 | the walk hits exactly when the tag is in the visited range; a hit moves the first such element to the back; a miss removes the front and appends the tag |
| `LruSet.AsWrittenNeverHits` | cache/set.go:12 | as written, the walk starts at the back, which has no successor, so every lookup on a non-empty list is a miss and yields `old[1..] + [tag]` |
| `LruSet.AsWrittenDuplicatesResidentTag` | cache/set.go:12-23 | as written, looking up a resident tag that is not at the front reports a miss and leaves two copies of it |
| `LruSet.IntendedHitIff` | cache/set.go:13-18 | in the intended walk, a lookup hits if and only if the tag is resident |
| `LruSet.IntendedKeepsDistinct` | cache/set.go:13-23 | in the intended walk, a list of distinct tags stays distinct |
| `LruSet.Set.constructor` | cache/set.go:5-8 | a set holds the given list and associativity |
| `LruSet.Set.ScanFrom` | cache/set.go:12-23 | the loop entered at element `start`, while the element has a successor, performs `Walk` in place |
| `LruSet.Set.CheckTag` | cache/set.go:10-26 | an empty list is refused; on any other list the result is a miss, the front is removed and the tag appended, and the length is unchanged |
| `LruSet.Set.CheckTagIntended` | cache/set.go:10-26 | the lookup with the loop visiting every element from the front: hits exactly when the tag is resident; keeps the length; leaves the tag at the back; keeps tags distinct |

## Left out

- `Reporter.Report`, `ReportSettings` and `ReportMemoryBus` (`cache/reporter.go`) are left out. They only format text, and the miss rate uses floating-point division and rounding. Only the five counters are modelled. The reporter's `CacheOptions` pointer serves only the formatting and is dropped.
- `main.go` is left out: reading the options and the trace from standard input is I/O. The model takes an already built `Options` value and already split commands.
- The `Debug` diagnostics printed throughout `cache/cache.go` are output only. So are the handlers' boolean results, which `HandleRequest` only prints. The handlers still return them.
- `Set.Replace`, the three-result `Set.CheckTag`, `Set.ToArray` and the outcome constants are not part of this model. No file of the `cache` package covered here defines them. They enter as the parameters `ReplaceOp` and `CheckTagOp`. As a result, the write-policy behaviour, dirty-flag updates, the compulsory/conflict classification and the LRU replacement of the cache's sets are not modelled. Nothing is proved about them.
- The cache's banks are not made of `LruSet.Set` objects. The source's `Set` struct, with a list and an associativity, does not match the literal `&Set{list.New(), *c.Options}` that fills the banks. A bank is therefore the per-set sequence of `(tag, dirty)` entries that `ToArray` returns.
- `CacheEngine.Cache.NewCache` requires a power-of-two block size and a power-of-two number of sets. The source takes a floating-point `math.Log2`, which is exact only there. It also requires a non-zero associativity, because a zero product divides by zero. It requires that associativity times block size, and the data-cache size, fit in a uint64. The source checks none of these.
- `CacheEngine.Cache.HandleRequest`: on an address that does not decode, the source panics on a nil dereference and ends the run. The model reports `false` and leaves the state unchanged. The caller must then stop.
- The `Dirty [][]bool` array is never read or written after allocation. Only its shape is modelled.
- The uint64 counters are modelled as unbounded naturals, so their wrap-around after 2^64 increments is not modelled.
- The `container/list` is modelled as a sequence of tags. Its element identity and aliasing are not modelled. Elements hold `interface{}` values, which `CheckTag` compares with a `uint64` tag; the model uses natural-number tags.

## Findings

| source | as written | input that shows it | evidently intended | confidence | as-written member | corrected member |
|---|---|---|---|---|---|---|
| cache/set.go:12 | the walk starts at `Back()` and continues while `e.Next() != nil`. The back has no successor, so the loop body never runs. Every lookup on a non-empty list is a miss that evicts the front. | list `[3, 5]`, tag `5`: reports a miss and leaves `[5, 5]` | visit every element from the front. A matching element is moved to the back and a hit is reported; only a missing tag evicts the front. | high; not executed | `LruSet.AsWrittenDuplicatesResidentTag` | `LruSet.IntendedKeepsDistinct` |

The cache engine does not use `LruSet.Set`: its sets are reached through the set-operation parameters above. The corrected lookup is `LruSet.Set.CheckTagIntended`. It is specified by the same `Walk` function as `CheckTag`, with the intended loop bound, and `LruSet.IntendedHitIff` and `LruSet.IntendedKeepsDistinct` are proved about it.
