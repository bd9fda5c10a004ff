/*
 * What the two tiers add up to, for one cache that is the only writer of its
 * directory.
 *
 * The reference (RefApply, RefRun) is a one-tier cache: a single map from
 * key to entry with the same strict, lazy expiry. When the digest gives
 * different keys different files, any sequence of set, get and delete calls
 * on the two-tier cache gives the replies the one-tier cache gives
 * (RunRefines). Under the same condition, when the memory tier starts out
 * agreeing with the disk it keeps agreeing (RunKeepsCoherent), so a second
 * cache over the same directory, with nothing in memory, reads what the
 * first one would (SecondInstanceAgrees). With colliding digests neither
 * holds: two keys then share one file.
 */
module CacheRefinement {
  import opened FileCache

  /** One call on a cache; each carries the clock reading it runs at. */
  datatype Op<D> =
    | SetOp(key: Key, data: D, ttl: Option<int>, now: int)
    | GetOp(key: Key, now: int)
    | DeleteOp(key: Key)

  /** What a call hands back: set's write outcome, get's value, delete's completion. */
  datatype Reply<D> = Written(ok: bool) | Got(value: Option<D>) | Deleted

  /** One call on the cache over `dir` whose digest is `md5` and whose default TTL is `defaultTtl`. */
  function Apply<D>(t: Tiers<D>, dir: Path, md5: Key -> Slot, defaultTtl: int, op: Op<D>): (Tiers<D>, Reply<D>)
  {
    match op
    case SetOp(key, data, ttl, now) =>
      var (t', ok) := SetStep(t, File(dir, md5, key), key, data, ttl.GetOr(defaultTtl), now);
      (t', Written(ok))
    case GetOp(key, now) =>
      var (v, t') := GetStep(t, File(dir, md5, key), key, now);
      (t', Got(v))
    case DeleteOp(key) =>
      (DeleteStep(t, File(dir, md5, key), key), Deleted)
  }

  /** The calls `ops`, in program order, each completing before the next. */
  function Run<D>(t: Tiers<D>, dir: Path, md5: Key -> Slot, defaultTtl: int, ops: seq<Op<D>>): (Tiers<D>, seq<Reply<D>>)
    decreases |ops|
  {
    if ops == [] then (t, [])
    else
      var (t1, reply) := Apply(t, dir, md5, defaultTtl, ops[0]);
      var (t2, replies) := Run(t1, dir, md5, defaultTtl, ops[1..]);
      (t2, [reply] + replies)
  }

  // ---------------------------------------------------------------------
  // The one-tier reference cache
  // ---------------------------------------------------------------------

  type RefCache<D> = map<Key, Entry<D>>

  function Find<D>(m: RefCache<D>, key: Key): Option<Entry<D>>
  {
    if key in m then Some(m[key]) else None
  }

  /** One call on the reference cache: a set always completes. */
  function RefApply<D>(m: RefCache<D>, defaultTtl: int, op: Op<D>): (RefCache<D>, Reply<D>)
  {
    match op
    case SetOp(key, data, ttl, now) =>
      (m[key := Entry(data, now + ttl.GetOr(defaultTtl))], Written(true))
    case GetOp(key, now) =>
      if key in m && Expired(m[key], now) then (m - {key}, Got(None))
      else if key in m then (m, Got(Some(m[key].data)))
      else (m, Got(None))
    case DeleteOp(key) =>
      (m - {key}, Deleted)
  }

  function RefRun<D>(m: RefCache<D>, defaultTtl: int, ops: seq<Op<D>>): (RefCache<D>, seq<Reply<D>>)
    decreases |ops|
  {
    if ops == [] then (m, [])
    else
      var (m1, reply) := RefApply(m, defaultTtl, ops[0]);
      var (m2, replies) := RefRun(m1, defaultTtl, ops[1..]);
      (m2, [reply] + replies)
  }

  // ---------------------------------------------------------------------
  // The two tiers stand for the reference cache
  // ---------------------------------------------------------------------

  /** Different keys have different files: the digest never collides. */
  ghost predicate Injective(md5: Key -> Slot)
  {
    forall k1, k2 :: md5(k1) == md5(k2) ==> k1 == k2
  }

  /**
   * The directory exists, and for every key the entry get would find
   * (memory first, then disk) is the reference cache's entry.
   */
  ghost predicate Abstracts<D>(t: Tiers<D>, dir: Path, md5: Key -> Slot, m: RefCache<D>)
  {
    && dir in t.disk
    && forall k :: Lookup(t, File(dir, md5, k), k) == Find(m, k)
  }

  /** Removing `key` from both tiers is removing it from the reference cache. */
  lemma DeleteRefines<D>(t: Tiers<D>, dir: Path, md5: Key -> Slot, m: RefCache<D>, key: Key)
    requires Injective(md5) && Abstracts(t, dir, md5, m)
    ensures Abstracts(DeleteStep(t, File(dir, md5, key), key), dir, md5, m - {key})
  {
  }

  /** With the directory present, a set always completes and matches the reference update. */
  lemma SetRefines<D>(t: Tiers<D>, dir: Path, md5: Key -> Slot, m: RefCache<D>, key: Key, data: D, ttl: int, now: int)
    requires Injective(md5) && Abstracts(t, dir, md5, m)
    ensures SetStep(t, File(dir, md5, key), key, data, ttl, now).1
    ensures Abstracts(SetStep(t, File(dir, md5, key), key, data, ttl, now).0, dir, md5, m[key := Entry(data, now + ttl)])
  {
  }

  /** With a collision-free digest, any one call gives the reference reply and keeps the correspondence. */
  lemma ApplyRefines<D>(t: Tiers<D>, dir: Path, md5: Key -> Slot, defaultTtl: int, m: RefCache<D>, op: Op<D>)
    requires Injective(md5) && Abstracts(t, dir, md5, m)
    ensures Apply(t, dir, md5, defaultTtl, op).1 == RefApply(m, defaultTtl, op).1
    ensures Abstracts(Apply(t, dir, md5, defaultTtl, op).0, dir, md5, RefApply(m, defaultTtl, op).0)
  {
  }

  /**
   * The two-tier cache refines the one-tier cache: from any state that
   * stands for `m`, every sequence of calls gives the replies the reference
   * cache gives, every set completes, and the final states still correspond.
   */
  lemma {:induction false} RunRefines<D>(t: Tiers<D>, dir: Path, md5: Key -> Slot, defaultTtl: int, m: RefCache<D>, ops: seq<Op<D>>)
    requires Injective(md5) && Abstracts(t, dir, md5, m)
    ensures Run(t, dir, md5, defaultTtl, ops).1 == RefRun(m, defaultTtl, ops).1
    ensures Abstracts(Run(t, dir, md5, defaultTtl, ops).0, dir, md5, RefRun(m, defaultTtl, ops).0)
    decreases |ops|
  {
    if ops != [] {
      ApplyRefines(t, dir, md5, defaultTtl, m, ops[0]);
      var t1 := Apply(t, dir, md5, defaultTtl, ops[0]).0;
      var m1 := RefApply(m, defaultTtl, ops[0]).0;
      RunRefines(t1, dir, md5, defaultTtl, m1, ops[1..]);
    }
  }

  /** A fresh cache (empty memory) over an empty directory stands for the empty reference cache. */
  lemma FreshCacheAbstractsEmpty<D>(disk: Disk<D>, dir: Path, md5: Key -> Slot)
    requires dir in disk && disk[dir] == map[]
    ensures Abstracts(Tiers(map[], disk), dir, md5, map[])
  {
  }

  // ---------------------------------------------------------------------
  // The memory tier agrees with the disk
  // ---------------------------------------------------------------------

  /** The directory exists and every key in memory has its entry, unchanged, on disk. */
  ghost predicate Coherent<D>(t: Tiers<D>, dir: Path, md5: Key -> Slot)
  {
    && dir in t.disk
    && forall k :: k in t.local ==> ReadEntry(t.disk, File(dir, md5, k)) == Some(t.local[k])
  }

  /** One call by the only writer, with a collision-free digest, keeps memory in line with the disk. */
  lemma ApplyKeepsCoherent<D>(t: Tiers<D>, dir: Path, md5: Key -> Slot, defaultTtl: int, op: Op<D>)
    requires Injective(md5) && Coherent(t, dir, md5)
    ensures Coherent(Apply(t, dir, md5, defaultTtl, op).0, dir, md5)
  {
  }

  /**
   * One cache that is the only writer of its directory, with a collision-free
   * digest, keeps its memory tier in line with the disk.
   */
  lemma {:induction false} RunKeepsCoherent<D>(t: Tiers<D>, dir: Path, md5: Key -> Slot, defaultTtl: int, ops: seq<Op<D>>)
    requires Injective(md5) && Coherent(t, dir, md5)
    ensures Coherent(Run(t, dir, md5, defaultTtl, ops).0, dir, md5)
    decreases |ops|
  {
    if ops != [] {
      ApplyKeepsCoherent(t, dir, md5, defaultTtl, ops[0]);
      RunKeepsCoherent(Apply(t, dir, md5, defaultTtl, ops[0]).0, dir, md5, defaultTtl, ops[1..]);
    }
  }

  /**
   * When the tiers agree, a second cache over the same directory with an
   * empty memory tier gets the same value for every key at every time.
   */
  lemma CoherentReadsAgree<D>(t: Tiers<D>, dir: Path, md5: Key -> Slot, key: Key, now: int)
    requires Coherent(t, dir, md5)
    ensures GetStep(Tiers(map[], t.disk), File(dir, md5, key), key, now).0
         == GetStep(t, File(dir, md5, key), key, now).0
  {
  }

  /**
   * Read-your-writes across instances: with a collision-free digest, after
   * any calls by one cache, started with an empty memory over a directory it
   * alone writes, a second cache over that directory with nothing in memory
   * reads what the first reads.
   */
  lemma SecondInstanceAgrees<D>(disk: Disk<D>, dir: Path, md5: Key -> Slot, defaultTtl: int, ops: seq<Op<D>>, key: Key, now: int)
    requires Injective(md5) && dir in disk
    ensures var t := Run(Tiers(map[], disk), dir, md5, defaultTtl, ops).0;
            GetStep(Tiers(map[], t.disk), File(dir, md5, key), key, now).0
            == GetStep(t, File(dir, md5, key), key, now).0
  {
    RunKeepsCoherent(Tiers(map[], disk), dir, md5, defaultTtl, ops);
    CoherentReadsAgree(Run(Tiers(map[], disk), dir, md5, defaultTtl, ops).0, dir, md5, key, now);
  }
}
