# file-cache, modelled in Dafny

This project models `fileCache` from `src/file-cache.js`. It is a key-value
cache with a time-to-live (TTL), kept in two tiers:

- the **memory tier**: a map from the raw key to an entry `{data, expires}`;
- the **disk tier**: one record per key in a cache directory, in the file
  named by the MD5 digest of the key.

`get` looks in memory first and reads the disk only when the key is not in
memory. An entry whose `expires` is strictly earlier than now is expired:
`get` removes it from both tiers and returns absent. Every read failure is
absent. `set` stores `{data, expires: now + ttl}` in memory, then writes the
record to disk. `delete` removes the key from both tiers. `deleteCache`
removes a whole cache directory.

Files:

- `file_cache.dfy` (module `FileCache`): entries, records, the shared disk,
  and the three operations. Each operation is first a function on the two
  tiers (`GetStep`, `SetStep`, `DeleteStep`). It is then a method of the
  class `Cache`, which updates its memory map and the shared `FileSystem`
  object in place. Each method's postcondition says its new state is the one
  the function computes. `DeleteCache` is a module-level method that takes
  the shared `FileSystem` as a parameter.
- `cache_refinement.dfy` (module `CacheRefinement`): a one-tier reference
  cache, a single map with the same strict, lazy expiry. Proved: when the
  digest never collides, any sequence of calls on the two-tier cache gives
  the same replies as the reference cache (`RunRefines`). Also proved, again
  with a collision-free digest: one cache that is the only writer of its
  directory keeps its memory in line with the disk (`RunKeepsCoherent`). A
  second cache over that directory therefore reads the same values as the
  first, when the first started with empty memory (`SecondInstanceAgrees`).
  Neither holds when two keys share a digest (`CollidingKeysShareFile`).
- `cache_scenarios.dfy` (module `CacheScenarios`): properties of short call
  sequences on one cache or on several caches that share a file system. It
  also replays the three runs of `test/file-cache-test.js` on `Cache`
  objects.

Abstractions:

- The file system is a `FileSystem` object holding
  `map<Path, map<Slot, Record>>`. Several caches may hold the same object.
  A cache's directory is its path in that map. A file is a
  `FilePath(dir, name)`, the pair that `join(cacheDir, md5(key))` names.
- MD5 is a parameter of each cache (`md5: Key -> Slot`). Nothing is assumed
  about it unless a lemma says so (`Injective`). Keys whose digests collide
  share a file, as in the source.
- The clock (`Date.now()`) is a `now: int` argument of each call.
- JSON serialisation is lossless: a record the cache writes reads back as
  the same entry. Any file content that does not parse as an entry is
  `Unreadable`, and `get` treats it like a missing file.
- A `set` returns the outcome of its disk write as a boolean. This models
  the promise that `writeFile` settles. The only failure modelled is a
  missing directory, for example after `deleteCache`.

## Model

| member | source | states |
|---|---|---|
| `FileCache.File` | src/file-cache.js:21-23 | file(key): the key's file lies in the cache directory and is named by the key's digest. |
| `FileCache.ReadEntry` | src/file-cache.js:37 | readFile + JSON.parse under the catch: an entry comes back exactly when the file exists and holds a parsable entry. A missing directory, a missing file or unparsable content all give no entry. |
| `FileCache.Lookup` | src/file-cache.js:33-38 | Steps 1-2 of get: a key in memory gives its memory entry and the disk is not consulted. Otherwise the result is what the key's file reads as. |
| `FileCache.Expired` | src/file-cache.js:40 | Expiry is strict: an entry is expired when `expires < now`, and not expired when `expires >= now`. |
| `FileCache.WriteFile` | src/file-cache.js:52 | writeFile replaces exactly one file. It succeeds exactly when the directory exists, and otherwise changes nothing. |
| `FileCache.RemoveFile` | src/file-cache.js:27 | rm with force on one file: afterwards the file is gone and every other file and directory is as before. A missing file is not an error. |
| `FileCache.MakeDirectory` | src/file-cache.js:19 | mkdir with recursive: the directory exists afterwards. An existing directory and its files are left as they were. |
| `FileCache.RemoveDirectory` | src/file-cache.js:8-10 | rm of the cache directory: it and all its files are gone. Every other directory is untouched. |
| `FileCache.DeleteStep` | src/file-cache.js:25-28 | _delete: the key leaves memory, every other memory entry stays, the key's file is gone and no other file changes. |
| `FileCache.SetStep` | src/file-cache.js:49-53 | set: memory maps the key to `{data, now + ttl}` and other keys are unchanged. The key's file then holds the same entry, and no other file changes. The write fails, leaving the disk as it was, exactly when the directory is missing. |
| `FileCache.GetStep` | src/file-cache.js:31-48 | get: a live memory entry is returned with no change and no disk read. Without a memory entry, a live disk record is returned but not copied into memory. A miss or an unreadable record returns absent and changes nothing. An expired entry from either tier (expires < now) returns absent and is removed from both tiers. |
| `FileCache.DeleteCache` | src/file-cache.js:8-10 | deleteCache removes the given directory, or `./.cache` when none is given. A missing directory is not an error. Every cache's memory is left alone. |
| `FileCache.Cache.constructor` | src/file-cache.js:12-19 | fileCache: the directory defaults to `./.cache` and defaultTTL to DEFAULT_TTL. The memory tier starts empty and the directory is created if it is missing. |
| `FileCache.Cache.Delete` | src/file-cache.js:25-28 | delete performs DeleteStep on the object's memory map and the shared file system. |
| `FileCache.Cache.Get` | src/file-cache.js:31-48 | get performs GetStep in place. It returns GetStep's value, and its memory and disk end as GetStep says. |
| `FileCache.Cache.Set` | src/file-cache.js:49-53 | set performs SetStep in place, with a missing ttl replaced by the cache's defaultTTL. It returns the write's outcome. |
| `CacheRefinement.DeleteRefines` | src/file-cache.js:25-28 | With a collision-free digest, deleting a key from both tiers is removing it from the one-tier reference cache. |
| `CacheRefinement.SetRefines` | src/file-cache.js:49-53 | With a collision-free digest and an existing directory, set always completes and is the reference cache's update of that one key. |
| `CacheRefinement.ApplyRefines` | src/file-cache.js:31-53 | With a collision-free digest, any one call gives the reference cache's reply and keeps the correspondence. |
| `CacheRefinement.RunRefines` | src/file-cache.js:31-54 | With a collision-free digest, any sequence of set/get/delete calls, in program order, gives exactly the replies of a single map with strict lazy expiry. Every set completes. |
| `CacheRefinement.FreshCacheAbstractsEmpty` | src/file-cache.js:17-19 | A new cache over an empty directory stands for the empty reference cache. |
| `CacheRefinement.ApplyKeepsCoherent` | src/file-cache.js:34-52 | With a collision-free digest, one call by the only writer keeps every memory entry equal to the record in its key's file. |
| `CacheRefinement.RunKeepsCoherent` | src/file-cache.js:34-52 | With a collision-free digest, the only writer keeps every memory entry equal to the record in its key's file over any sequence of calls. |
| `CacheRefinement.CoherentReadsAgree` | src/file-cache.js:34-37 | When memory agrees with disk, a cache with empty memory over the same directory gets the same value for every key at every time. |
| `CacheRefinement.SecondInstanceAgrees` | src/file-cache.js:34-52 | Read-your-writes across instances: with a collision-free digest, after any calls by one cache started with empty memory over an existing directory it alone writes, a second cache over that directory with empty memory reads what the first reads. |
| `CacheScenarios.DefaultTtlIsFifteenDays` | src/file-cache.js:6 | The default TTL is 15 days = 1,296,000,000 ms. |
| `CacheScenarios.SetThenGet` | src/file-cache.js:40-51 | After set, get on the same cache returns the data exactly when `later <= now + ttl`. Otherwise it returns absent and leaves the state delete would leave, with the key gone from both tiers. So an entry with `expires == now` is still returned. |
| `CacheScenarios.OverwriteReturnsNewest` | src/file-cache.js:49-51 | After two sets of one key, get returns the second value while it is live. |
| `CacheScenarios.SharedDirectoryReadsOtherWrite` | src/file-cache.js:34-37 | Two caches sharing a directory and digest: B, with no memory entry, reads A's data exactly while it is live. |
| `CacheScenarios.SeparateDirectoriesIsolated` | src/file-cache.js:21-23 | Any call (set, get or delete) by a cache over another directory changes neither the value nor the memory of any get on this one. |
| `CacheScenarios.DeleteThenGet` | src/file-cache.js:25-27 | After delete, get returns absent and changes nothing. This holds on the deleting cache and on any cache without a memory entry for the key. |
| `CacheScenarios.DeleteIdempotent` | src/file-cache.js:25-27 | A second delete of the same key changes nothing. |
| `CacheScenarios.DeleteAbsentIsNoOp` | src/file-cache.js:25-27 | Deleting a key that is in neither tier leaves both tiers as they were. |
| `CacheScenarios.ExpiredRecordIsEvicted` | src/file-cache.js:40-42 | An expired record read from disk makes get return absent and remove the file. Any later get finds nothing. |
| `CacheScenarios.CollidingKeysShareFile` | src/file-cache.js:16 | Two keys with the same digest share a file: a cache with no memory entry for one key reads what was set under the other. |
| `CacheScenarios.MemoryShadowsNewerWrite` | src/file-cache.js:34-35 | Memory is never refreshed from disk. A overwritten on disk by B still returns its own value while that is live. |
| `CacheScenarios.ExpiryInMemoryEvictsNewerRecord` | src/file-cache.js:40-41 | A's expired memory entry removes the file even when B has written a live record there since. A cache with empty memory then reads absent. |
| `CacheScenarios.PurgeIdempotent` | src/file-cache.js:8-10 | deleteCache twice is deleteCache once. On a missing directory it changes nothing. |
| `CacheScenarios.SetAfterPurge` | src/file-cache.js:49-52 | After deleteCache, set reports a failed write and leaves the disk as it was. The entry lives only in the setting cache's memory, so that cache reads it and a cache without it does not. |
| `CacheScenarios.DefaultCacheRun` | test/file-cache-test.js:26-40 | Two default caches: A misses, then reads value1, then reads value2 after an overwrite. B reads value2. |
| `CacheScenarios.CustomCacheRun` | test/file-cache-test.js:60-67 | A over `./.my_cache` reads its value back. B over the default directory reads absent. |
| `CacheScenarios.TimeToLiveRun` | test/file-cache-test.js:84-103 | With defaultTTL 30 the value is read at once and is gone 31 ms later. With ttl 40 it is still there after 31 ms and gone 10 ms after that. |

## Left out

- MD5 (`node:crypto`) is a parameter of each cache, not computed. Hex encoding is part of it.
- Path joining and normalisation are not modelled. Directories are compared as written, so `./.cache` and `.cache` count as different. Nested cache directories (one inside another) are not modelled.
- JSON: a record is either an entry that round-trips exactly or `Unreadable`. Some JSON that parses but is not an entry is also left out. For example, an object without `expires` is returned by get and never expires in the source.
- `Date.now()` is an argument, and each call reads the clock once. Real time passing (the `setTimeout` waits of the tests) is modelled only as later clock readings.
- Asynchrony is not modelled. Each call completes atomically and in program order. This covers the un-awaited `_delete` inside get, the window between set's memory update and its disk write, and races between concurrent callers or processes on one file.
- FileCache.Cache.Set: disk writes fail only when the directory is missing. Other I/O faults (permissions, a full disk) are not modelled.
- FileCache.Cache.Delete: rm faults other than a missing path (permissions, a busy file) are not modelled. In the source they reject the promise delete returns; here delete always completes.
- FileCache.DeleteCache: rm faults other than a missing directory are not modelled. In the source they reject the promise deleteCache returns; here it always completes.
- FileCache.Cache.constructor: a failing mkdir, which leaves no cache, is not modelled.
- FileCache.Cache.Get: read faults other than a missing directory or file, or unparsable content, are not modelled separately. In the source every one of them is absent, like a missing file.
- TTLs and times are mathematical integers. JavaScript numbers (fractions, NaN, loss of precision above 2^53) are not modelled.
- Data is treated as an immutable value. In the source the memory tier holds the caller's object by reference: `set` stores it and `get` returns that same object, while the disk holds a JSON copy made at write time. A caller that changes a cached value after `set`, or changes what `get` returned, makes memory and disk disagree. So `CacheRefinement.RunKeepsCoherent` and `CacheRefinement.SecondInstanceAgrees` hold only for callers that never change cached values.
- Data is of a generic type `D`. The cache never looks inside it. JSON's treatment of particular values (an `undefined` data field, `3.14`) is not modelled.
