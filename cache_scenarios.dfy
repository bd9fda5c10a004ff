/*
 * Properties of single calls and of short call sequences, on one cache or on
 * several caches that share a file system, and the three runs that
 * test/file-cache-test.js performs, replayed on Cache objects.
 */
module CacheScenarios {
  import opened FileCache
  import opened CacheRefinement

  /** The default time-to-live is 15 days in milliseconds. */
  lemma DefaultTtlIsFifteenDays()
    ensures DefaultTtl == 1296000000
  {
  }

  /**
   * set then get on the same cache: the data comes back exactly while the
   * entry is live (`later <= now + ttl`), from memory, whatever the disk
   * holds; after that get reports absent and clears both tiers.
   */
  lemma SetThenGet<D>(t: Tiers<D>, f: FilePath, key: Key, data: D, ttl: int, now: int, later: int)
    ensures var t1 := SetStep(t, f, key, data, ttl, now).0;
            && GetStep(t1, f, key, later).0 == (if later <= now + ttl then Some(data) else None)
            && (later > now + ttl ==> GetStep(t1, f, key, later).1 == DeleteStep(t1, f, key))
  {
  }

  /** Two sets then a get: the newest value wins while it is live. */
  lemma OverwriteReturnsNewest<D>(t: Tiers<D>, f: FilePath, key: Key, v1: D, v2: D, ttl1: int, ttl2: int,
                                  now1: int, now2: int, later: int)
    requires later <= now2 + ttl2
    ensures var t1 := SetStep(t, f, key, v1, ttl1, now1).0;
            var t2 := SetStep(t1, f, key, v2, ttl2, now2).0;
            GetStep(t2, f, key, later).0 == Some(v2)
  {
  }

  /**
   * Two caches over the same directory with the same digest: after A sets
   * `key`, B, which has no memory entry for it, reads A's data from disk while
   * the entry is live, and absent once it has expired.
   */
  lemma SharedDirectoryReadsOtherWrite<D>(localA: map<Key, Entry<D>>, localB: map<Key, Entry<D>>, disk: Disk<D>,
                                          dir: Path, md5: Key -> Slot, key: Key, data: D, ttl: int, now: int, later: int)
    requires dir in disk && key !in localB
    ensures var diskA := SetStep(Tiers(localA, disk), File(dir, md5, key), key, data, ttl, now).0.disk;
            GetStep(Tiers(localB, diskA), File(dir, md5, key), key, later).0
            == (if later <= now + ttl then Some(data) else None)
  {
  }

  /**
   * Caches over different directories are isolated: whatever call A makes
   * (set, get or delete), every get by B over another directory returns what
   * it returned before, and leaves B's memory as it would have before.
   */
  lemma SeparateDirectoriesIsolated<D>(localA: map<Key, Entry<D>>, localB: map<Key, Entry<D>>, disk: Disk<D>,
                                       dirA: Path, dirB: Path, md5A: Key -> Slot, md5B: Key -> Slot,
                                       defaultTtlA: int, op: Op<D>, keyB: Key, later: int)
    requires dirA != dirB
    ensures var diskA := Apply(Tiers(localA, disk), dirA, md5A, defaultTtlA, op).0.disk;
            var (before, tB) := GetStep(Tiers(localB, disk), File(dirB, md5B, keyB), keyB, later);
            var (after, tB') := GetStep(Tiers(localB, diskA), File(dirB, md5B, keyB), keyB, later);
            after == before && tB'.local == tB.local
  {
  }

  /**
   * After delete, get reports absent both on the cache that deleted and on any
   * cache over the same directory with no memory entry for the key, and
   * changes nothing.
   */
  lemma DeleteThenGet<D>(t: Tiers<D>, localB: map<Key, Entry<D>>, f: FilePath, key: Key, now: int)
    requires key !in localB
    ensures var t1 := DeleteStep(t, f, key);
            && GetStep(t1, f, key, now) == (None, t1)
            && GetStep(Tiers(localB, t1.disk), f, key, now) == (None, Tiers(localB, t1.disk))
  {
  }

  /** delete is idempotent: a second delete changes nothing. */
  lemma DeleteIdempotent<D>(t: Tiers<D>, f: FilePath, key: Key)
    ensures DeleteStep(DeleteStep(t, f, key), f, key) == DeleteStep(t, f, key)
  {
    var t1 := DeleteStep(t, f, key);
    if f.dir in t1.disk {
      assert t1.disk[f.dir] - {f.name} == t1.disk[f.dir];
      assert t1.disk[f.dir := t1.disk[f.dir] - {f.name}] == t1.disk;
    }
    assert t1.local - {key} == t1.local;
  }

  /** Deleting a key that is in neither tier is a no-op, not an error. */
  lemma DeleteAbsentIsNoOp<D>(t: Tiers<D>, f: FilePath, key: Key)
    requires key !in t.local && RecordAt(t.disk, f) == None
    ensures DeleteStep(t, f, key) == t
  {
    if f.dir in t.disk {
      assert f.name !in t.disk[f.dir];
      assert t.disk[f.dir] - {f.name} == t.disk[f.dir];
      assert t.disk[f.dir := t.disk[f.dir] - {f.name}] == t.disk;
    }
    assert t.local - {key} == t.local;
  }

  /**
   * An expired record found on disk is removed: get reports absent, takes the
   * file away, and a later get, at any time, finds nothing.
   */
  lemma ExpiredRecordIsEvicted<D>(t: Tiers<D>, f: FilePath, key: Key, now: int, later: int)
    requires key !in t.local && ReadEntry(t.disk, f).Some? && ReadEntry(t.disk, f).value.expires < now
    ensures var (v, t1) := GetStep(t, f, key, now);
            v == None && RecordAt(t1.disk, f) == None && GetStep(t1, f, key, later) == (None, t1)
  {
  }

  /**
   * The digest is not checked for collisions: two keys with the same digest
   * share one file, so a cache with no memory entry for `k2` reads what was
   * set under `k1`.
   */
  lemma CollidingKeysShareFile<D>(localA: map<Key, Entry<D>>, localB: map<Key, Entry<D>>, disk: Disk<D>,
                                  dir: Path, md5: Key -> Slot, k1: Key, k2: Key, data: D, ttl: int, now: int)
    requires k1 != k2 && md5(k1) == md5(k2) && dir in disk && k2 !in localB && ttl >= 0
    ensures var diskA := SetStep(Tiers(localA, disk), File(dir, md5, k1), k1, data, ttl, now).0.disk;
            GetStep(Tiers(localB, diskA), File(dir, md5, k2), k2, now).0 == Some(data)
  {
  }

  /**
   * The memory tier is never refreshed from disk: when A has set `key` and B
   * then overwrites it on the shared disk, A keeps returning its own value
   * while that is live.
   */
  lemma MemoryShadowsNewerWrite<D>(localA: map<Key, Entry<D>>, localB: map<Key, Entry<D>>, disk: Disk<D>,
                                   dir: Path, md5: Key -> Slot, key: Key, v1: D, v2: D,
                                   ttl: int, now1: int, now2: int, later: int)
    requires dir in disk && later <= now1 + ttl
    ensures var (tA, _) := SetStep(Tiers(localA, disk), File(dir, md5, key), key, v1, ttl, now1);
            var (tB, _) := SetStep(Tiers(localB, tA.disk), File(dir, md5, key), key, v2, ttl, now2);
            && ReadEntry(tB.disk, File(dir, md5, key)) == Some(Entry(v2, now2 + ttl))
            && GetStep(Tiers(tA.local, tB.disk), File(dir, md5, key), key, later).0 == Some(v1)
  {
  }

  /**
   * Expiry seen in A's memory removes the file even when another cache has
   * since written a live record there: a third cache with nothing in memory
   * then reads absent although B's entry has not expired.
   */
  lemma ExpiryInMemoryEvictsNewerRecord<D>(localA: map<Key, Entry<D>>, localB: map<Key, Entry<D>>, disk: Disk<D>,
                                           dir: Path, md5: Key -> Slot, key: Key, v1: D, v2: D,
                                           ttl1: int, ttl2: int, now1: int, now2: int, later: int)
    requires dir in disk && now1 + ttl1 < later <= now2 + ttl2
    ensures var (tA, _) := SetStep(Tiers(localA, disk), File(dir, md5, key), key, v1, ttl1, now1);
            var (tB, _) := SetStep(Tiers(localB, tA.disk), File(dir, md5, key), key, v2, ttl2, now2);
            var (_, tA') := GetStep(Tiers(tA.local, tB.disk), File(dir, md5, key), key, later);
            GetStep(Tiers(map[], tA'.disk), File(dir, md5, key), key, later).0 == None
  {
  }

  /** deleteCache is idempotent: a second purge of the same directory changes nothing. */
  lemma PurgeIdempotent<D>(disk: Disk<D>, dir: Path)
    ensures RemoveDirectory(RemoveDirectory(disk, dir), dir) == RemoveDirectory(disk, dir)
    ensures dir !in disk ==> RemoveDirectory(disk, dir) == disk
  {
  }

  /**
   * After deleteCache, gets with nothing in memory read absent, and a set
   * reports the failed write: the entry lives in memory only, so the cache
   * that set it reads it back while a cache without it in memory does not.
   */
  lemma SetAfterPurge<D>(local: map<Key, Entry<D>>, localB: map<Key, Entry<D>>, disk: Disk<D>,
                         dir: Path, md5: Key -> Slot, key: Key, data: D, ttl: int, now: int)
    requires key !in localB && ttl >= 0
    ensures var purged := RemoveDirectory(disk, dir);
            var (t1, written) := SetStep(Tiers(local, purged), File(dir, md5, key), key, data, ttl, now);
            && !written
            && t1.disk == purged
            && GetStep(t1, File(dir, md5, key), key, now).0 == Some(data)
            && GetStep(Tiers(localB, t1.disk), File(dir, md5, key), key, now).0 == None
  {
  }

  // ---------------------------------------------------------------------
  // The runs of the test suite, on Cache objects over a fresh file system
  // ---------------------------------------------------------------------

  /**
   * "default cache": two caches over the default directory; A misses, writes,
   * reads, overwrites and reads again; B reads A's latest value from disk.
   * The times are the clock readings of the six calls.
   */
  method DefaultCacheRun<D>(md5: Key -> Slot, key: Key, value1: D, value2: D,
                            t1: int, t2: int, t3: int, t4: int, t5: int, t6: int)
    returns (miss: Option<D>, first: Option<D>, second: Option<D>, other: Option<D>)
    requires t1 <= t2 <= t3 <= t4 <= t5 <= t6 <= t1 + DefaultTtl
    ensures miss == None && first == Some(value1) && second == Some(value2) && other == Some(value2)
  {
    var fs := new FileSystem<D>(map[]);
    var cacheA := new Cache(fs, Options(None, None), md5);
    var cacheB := new Cache(fs, Options(None, None), md5);
    miss := cacheA.Get(key, t1);
    var _ := cacheA.Set(key, value1, None, t2);
    first := cacheA.Get(key, t3);
    var _ := cacheA.Set(key, value2, None, t4);
    second := cacheA.Get(key, t5);
    other := cacheB.Get(key, t6);
  }

  /**
   * "custom cache": A over "./.my_cache" writes and reads back; B over the
   * default directory does not see the key.
   */
  method CustomCacheRun<D>(md5: Key -> Slot, key: Key, value: D, t1: int, t2: int, t3: int)
    returns (own: Option<D>, other: Option<D>)
    requires t1 <= t2 <= t3 <= t1 + DefaultTtl
    ensures own == Some(value) && other == None
  {
    var fs := new FileSystem<D>(map[]);
    var cacheA := new Cache(fs, Options(Some("./.my_cache"), None), md5);
    var cacheB := new Cache(fs, Options(None, None), md5);
    var _ := cacheA.Set(key, value, None, t1);
    own := cacheA.Get(key, t2);
    other := cacheB.Get(key, t3);
  }

  /**
   * "time-to-live": a cache with defaultTTL 30. A value set with the default
   * is read back at once and is gone 31 ms later; a value set with ttl 40 is
   * still there 31 ms later and gone 10 ms after that.
   */
  method TimeToLiveRun<D>(md5: Key -> Slot, key: Key, value: D,
                          t1: int, t2: int, t3: int, t4: int, t5: int, t6: int)
    returns (fresh1: Option<D>, stale1: Option<D>, fresh2: Option<D>, stale2: Option<D>)
    requires t1 <= t2 <= t1 + 30 && t2 + 31 <= t3 <= t4
    requires t4 + 31 <= t5 <= t4 + 40 && t5 + 10 <= t6
    ensures fresh1 == Some(value) && stale1 == None && fresh2 == Some(value) && stale2 == None
  {
    var fs := new FileSystem<D>(map[]);
    var cacheA := new Cache(fs, Options(None, Some(30)), md5);
    var _ := cacheA.Set(key, value, None, t1);
    fresh1 := cacheA.Get(key, t2);
    stale1 := cacheA.Get(key, t3);
    var _ := cacheA.Set(key, value, Some(40), t4);
    fresh2 := cacheA.Get(key, t5);
    stale2 := cacheA.Get(key, t6);
  }
}
