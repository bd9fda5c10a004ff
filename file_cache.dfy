/*
 * A model of `fileCache` (src/file-cache.js): a key-value cache with a
 * time-to-live, kept in two tiers.
 *
 *   - the memory tier, a map from the raw key to an entry {data, expires};
 *   - the disk tier, a directory holding one record per key, in the file
 *     named by the MD5 digest of the key.
 *
 * The disk is a shared object (FileSystem) so that several caches can work
 * over the same directory or over different ones. The digest is a parameter
 * of each cache (`md5`), the clock is a `now` argument of each operation, and
 * a record that cannot be read or parsed is `Unreadable`.
 *
 * Every operation is first stated as a function on the two tiers (GetStep,
 * SetStep, DeleteStep); the class Cache then performs it in place and
 * promises that its new state is the one that function computes.
 */
module FileCache {

  datatype Option<T> = None | Some(value: T) {
    /** The value, or `default` when there is none (a JavaScript default parameter). */
    function GetOr(default: T): T {
      match this
      case Some(v) => v
      case None => default
    }
  }

  /** A raw cache key. */
  type Key = string
  /** A file name inside a cache directory: the hex MD5 digest of a key. */
  type Slot = string
  /** A directory path, compared as written. */
  type Path = string

  /** DEFAULT_CACHE_DIR */
  const DefaultCacheDir: Path := "./.cache"
  /** DEFAULT_TTL: 15 days, in milliseconds. */
  const DefaultTtl: int := 1000 * 60 * 60 * 24 * 15

  /** What the cache stores for a key: the data and the absolute time (ms) it expires. */
  datatype Entry<D> = Entry(data: D, expires: int)

  /**
   * The content of a file in a cache directory: either the JSON text of an
   * entry, which parses back to the same entry, or text that does not parse
   * as an entry.
   */
  datatype Record<D> = Stored(entry: Entry<D>) | Unreadable

  type Directory<D> = map<Slot, Record<D>>
  /** The directories that exist, each with its files. */
  type Disk<D> = map<Path, Directory<D>>

  /** join(cacheDir, md5(key)) */
  datatype FilePath = FilePath(dir: Path, name: Slot)

  /** The configuration object of fileCache; a missing field takes its default. */
  datatype Options = Options(cacheDir: Option<Path>, defaultTTL: Option<int>)

  /** The state one cache works on: its own memory tier and the shared disk. */
  datatype Tiers<D> = Tiers(local: map<Key, Entry<D>>, disk: Disk<D>)

  /** file(key): the file that holds the record for `key`. */
  function File(cacheDir: Path, md5: Key -> Slot, key: Key): (f: FilePath)
    ensures f.dir == cacheDir && f.name == md5(key)
  {
    FilePath(cacheDir, md5(key))
  }

  // ---------------------------------------------------------------------
  // The disk, as the cache uses it
  // ---------------------------------------------------------------------

  /** The content of file `f`, or None when its directory or the file is missing. */
  function RecordAt<D>(disk: Disk<D>, f: FilePath): Option<Record<D>>
  {
    if f.dir in disk && f.name in disk[f.dir] then Some(disk[f.dir][f.name]) else None
  }

  /**
   * readFile followed by JSON.parse. A missing directory, a missing file and
   * content that does not parse all read as "no entry".
   */
  function ReadEntry<D>(disk: Disk<D>, f: FilePath): (r: Option<Entry<D>>)
    ensures r.Some? <==> RecordAt(disk, f).Some? && RecordAt(disk, f).value.Stored?
    ensures r.Some? ==> RecordAt(disk, f) == Some(Stored(r.value))
  {
    match RecordAt(disk, f)
    case Some(Stored(e)) => Some(e)
    case _ => None
  }

  /** The same directories exist, and every file other than `f` holds what it held. */
  ghost predicate OnlyFileChanged<D>(before: Disk<D>, after: Disk<D>, f: FilePath)
  {
    && after.Keys == before.Keys
    && forall g: FilePath :: g != f ==> RecordAt(after, g) == RecordAt(before, g)
  }

  /**
   * writeFile(f, text): replaces the content of `f`. It fails, and changes
   * nothing, when the directory of `f` does not exist.
   */
  function WriteFile<D>(disk: Disk<D>, f: FilePath, rec: Record<D>): (r: (Disk<D>, bool))
    ensures r.1 <==> f.dir in disk
    ensures r.1 ==> RecordAt(r.0, f) == Some(rec)
    ensures !r.1 ==> r.0 == disk
    ensures OnlyFileChanged(disk, r.0, f)
  {
    if f.dir in disk then (disk[f.dir := disk[f.dir][f.name := rec]], true) else (disk, false)
  }

  /**
   * rm(f, {recursive: true, force: true}): removes `f`. A missing file or a
   * missing directory is not an error. Other rm faults are not modelled.
   */
  function RemoveFile<D>(disk: Disk<D>, f: FilePath): (r: Disk<D>)
    ensures RecordAt(r, f) == None
    ensures OnlyFileChanged(disk, r, f)
  {
    if f.dir in disk then disk[f.dir := disk[f.dir] - {f.name}] else disk
  }

  /**
   * mkdir(path, {recursive: true}): creates `path` when it is missing; an
   * existing directory is left as it is.
   */
  function MakeDirectory<D>(disk: Disk<D>, path: Path): (r: Disk<D>)
    ensures r.Keys == disk.Keys + {path}
    ensures path in disk ==> r == disk
    ensures path !in disk ==> r[path] == map[]
    ensures forall p :: p in disk ==> r[p] == disk[p]
  {
    if path in disk then disk else disk[path := map[]]
  }

  /**
   * rm(path, {recursive: true, force: true}): removes the directory and every
   * file in it. A missing directory is not an error. Other rm faults are
   * not modelled.
   */
  function RemoveDirectory<D>(disk: Disk<D>, path: Path): (r: Disk<D>)
    ensures r.Keys == disk.Keys - {path}
    ensures forall p :: p in r ==> r[p] == disk[p]
    ensures forall g: FilePath :: g.dir == path ==> RecordAt(r, g) == None
  {
    disk - {path}
  }

  // ---------------------------------------------------------------------
  // The three operations, as functions on the two tiers
  // ---------------------------------------------------------------------

  /** Steps 1 and 2 of get: memory first; the disk only when the key is not in memory. */
  function Lookup<D>(t: Tiers<D>, f: FilePath, key: Key): (r: Option<Entry<D>>)
    ensures key in t.local ==> r == Some(t.local[key])
    ensures key !in t.local ==> (r.Some? <==> RecordAt(t.disk, f).Some? && RecordAt(t.disk, f).value.Stored?)
    ensures key !in t.local && r.Some? ==> RecordAt(t.disk, f) == Some(Stored(r.value))
  {
    if key in t.local then Some(t.local[key]) else ReadEntry(t.disk, f)
  }

  /** Expiry is strict: an entry is gone once its expiry time is earlier than `now`. */
  predicate Expired<D>(e: Entry<D>, now: int): (b: bool)
    ensures e.expires < now ==> b
    ensures e.expires >= now ==> !b
  {
    e.expires < now
  }

  /** _delete(key): drop `key` from memory and remove its file `f`. */
  function DeleteStep<D>(t: Tiers<D>, f: FilePath, key: Key): (r: Tiers<D>)
    ensures r.local.Keys == t.local.Keys - {key}
    ensures forall k :: k in r.local ==> r.local[k] == t.local[k]
    ensures RecordAt(r.disk, f) == None
    ensures OnlyFileChanged(t.disk, r.disk, f)
  {
    Tiers(t.local - {key}, RemoveFile(t.disk, f))
  }

  /**
   * set(key, data, ttl) once `ttl` is resolved: the entry expires `ttl` ms
   * after `now`; it goes into memory, then its record is written to `f`.
   * The flag is the outcome of the write: false when the directory is gone,
   * in which case the memory tier holds the entry and the disk does not.
   */
  function SetStep<D>(t: Tiers<D>, f: FilePath, key: Key, data: D, ttl: int, now: int): (r: (Tiers<D>, bool))
    ensures r.0.local.Keys == t.local.Keys + {key}
    ensures r.0.local[key] == Entry(data, now + ttl)
    ensures forall k :: k in t.local && k != key ==> r.0.local[k] == t.local[k]
    ensures r.1 <==> f.dir in t.disk
    ensures r.1 ==> ReadEntry(r.0.disk, f) == Some(Entry(data, now + ttl))
    ensures !r.1 ==> r.0.disk == t.disk
    ensures OnlyFileChanged(t.disk, r.0.disk, f)
  {
    var e := Entry(data, now + ttl);
    var (disk, written) := WriteFile(t.disk, f, Stored(e));
    (Tiers(t.local[key := e], disk), written)
  }

  /**
   * get(key) at time `now`, reading the disk at `f`. Returns the data and the
   * new state of the two tiers.
   */
  function GetStep<D>(t: Tiers<D>, f: FilePath, key: Key, now: int): (r: (Option<D>, Tiers<D>))
    // a live entry in memory is returned; nothing changes and the disk is not read
    ensures key in t.local && now <= t.local[key].expires ==> r == (Some(t.local[key].data), t)
    // a live record on disk is returned; it is not copied into memory
    ensures key !in t.local && ReadEntry(t.disk, f).Some? && now <= ReadEntry(t.disk, f).value.expires
            ==> r == (Some(ReadEntry(t.disk, f).value.data), t)
    // nothing in memory and nothing readable on disk: absent, nothing changes
    ensures key !in t.local && ReadEntry(t.disk, f) == None ==> r == (None, t)
    // an expired entry, from either tier: absent, and removed from both tiers
    ensures key in t.local && t.local[key].expires < now ==> r == (None, DeleteStep(t, f, key))
    ensures key !in t.local && ReadEntry(t.disk, f).Some? && ReadEntry(t.disk, f).value.expires < now
            ==> r == (None, DeleteStep(t, f, key))
  {
    var entry := Lookup(t, f, key);
    if entry.Some? && Expired(entry.value, now) then (None, DeleteStep(t, f, key))
    else if entry.Some? then (Some(entry.value.data), t)
    else (None, t)
  }

  // ---------------------------------------------------------------------
  // The shared disk and the cache object
  // ---------------------------------------------------------------------

  /** The file system the caches share: every directory that exists, with its files. */
  class FileSystem<D> {
    var dirs: Disk<D>

    constructor (dirs: Disk<D>)
      ensures this.dirs == dirs
    {
      this.dirs := dirs;
    }
  }

  /**
   * deleteCache(cacheDir): removes a whole cache directory. A missing
   * directory is not an error (other rm faults are not modelled); the memory
   * tier of every cache is left alone.
   */
  method DeleteCache<D>(fs: FileSystem<D>, cacheDir: Option<Path>)
    modifies fs
    ensures fs.dirs == RemoveDirectory(old(fs.dirs), cacheDir.GetOr(DefaultCacheDir))
  {
    fs.dirs := RemoveDirectory(fs.dirs, cacheDir.GetOr(DefaultCacheDir));
  }

  /** The object fileCache returns. */
  class Cache<D> {
    const fs: FileSystem<D>
    const cacheDir: Path
    const defaultTTL: int
    /** The digest that names a key's file (MD5 in hex). */
    const md5: Key -> Slot
    /** The memory tier. */
    var local: map<Key, Entry<D>>

    ghost function State(): Tiers<D>
      reads this, fs
    {
      Tiers(local, fs.dirs)
    }

    /**
     * fileCache(options): resolves the options against their defaults,
     * starts with an empty memory tier and makes sure the directory exists.
     */
    constructor (fs: FileSystem<D>, options: Options, md5: Key -> Slot)
      modifies fs
      ensures this.fs == fs && this.md5 == md5
      ensures cacheDir == options.cacheDir.GetOr(DefaultCacheDir)
      ensures defaultTTL == options.defaultTTL.GetOr(DefaultTtl)
      ensures local == map[]
      ensures fs.dirs == MakeDirectory(old(fs.dirs), cacheDir)
    {
      this.fs := fs;
      this.cacheDir := options.cacheDir.GetOr(DefaultCacheDir);
      this.defaultTTL := options.defaultTTL.GetOr(DefaultTtl);
      this.md5 := md5;
      this.local := map[];
      new;
      fs.dirs := MakeDirectory(fs.dirs, cacheDir);
    }

    /** delete(key), which is also the _delete that get calls on expiry. */
    method Delete(key: Key)
      modifies this, fs
      ensures State() == DeleteStep(old(State()), File(cacheDir, md5, key), key)
    {
      local := local - {key};
      fs.dirs := RemoveFile(fs.dirs, File(cacheDir, md5, key));
    }

    /** get(key), with the clock read as `now`. */
    method Get(key: Key, now: int) returns (value: Option<D>)
      modifies this, fs
      ensures (value, State()) == GetStep(old(State()), File(cacheDir, md5, key), key, now)
    {
      var entry: Option<Entry<D>>;
      if key in local {
        entry := Some(local[key]);
      } else {
        entry := ReadEntry(fs.dirs, File(cacheDir, md5, key));
      }
      if entry.Some? && Expired(entry.value, now) {
        Delete(key);
        value := None;
      } else if entry.Some? {
        value := Some(entry.value.data);
      } else {
        value := None;
      }
    }

    /**
     * set(key, data, ttl), with the clock read as `now`; a missing `ttl` is
     * the cache's defaultTTL. `written` is the outcome of the disk write.
     */
    method Set(key: Key, data: D, ttl: Option<int>, now: int) returns (written: bool)
      modifies this, fs
      ensures (State(), written) == SetStep(old(State()), File(cacheDir, md5, key), key, data, ttl.GetOr(defaultTTL), now)
    {
      var entry := Entry(data, now + ttl.GetOr(defaultTTL));
      local := local[key := entry];
      var (disk, ok) := WriteFile(fs.dirs, File(cacheDir, md5, key), Stored(entry));
      fs.dirs := disk;
      written := ok;
    }
  }
}
