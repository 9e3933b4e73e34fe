/** The filesystem backend (pkg/cache/file): each key is stored as one file holding an
    envelope (value, expiry instant, last-access instant), at a path derived from the
    key's MD5 digest and sharded into one or two levels of two-hex-digit directories.
    The digest is a function given to the cache (any function returning 32 lowercase hex
    digits), the envelope is stored as it is rather than gob-encoded, and the clock is
    the parameter `now`, in nanoseconds. */
module FileCache {
  import opened MError
  import opened Cache
  import opened Strconv
  import opened Os
  import Fmt

  const DefaultCachePath := "cache"
  const DefaultFileSuffix := ".bin"
  const DefaultDirectoryLevel := 2
  /** `FileCacheEmbedExpiry` is the zero duration, so its default is 0 seconds. */
  const DefaultEmbedExpirySeconds := 0
  const Second := 1_000_000_000
  /** The expiry distance used for the embedded-expiry sentinel: ten years. */
  const TenYears := 86400 * 365 * 10 * Second

  /** The messages the file backend wraps errors with. */
  const InvalidPathFmt := "file cache path is invalid: %s"
  const MkdirFmt := "could not create the directory: %s"
  const ReadFmt := "could not read the data from the file: %s, please confirm that file exist and monster has the permission to read the content."
  const DeleteFmt := "can not delete this file cache key-value, key is %s and file name is %s"
  const CreateFmt := "could not create directory, please check the config [%s] and file mode."
  const LevelFmt := "invalid directory level config, please check your input, it must be integer: %s"
  const ExpiryFmt := "invalid embed expiry config, please check your input, it must be integer: %s"
  const DecodeMsg := "could not decode this data to FileCacheItem. Make sure that the data is encoded by GOB."

  const CpKey := "CachePath"
  const FsKey := "FileSuffix"
  const DlKey := "DirectoryLevel"
  const EeKey := "EmbedExpiry"

  /** The `Item` written to a cache file. */
  datatype Envelope = Envelope(data: Value, expired: int, lastAccess: int)

  /** What a cache file holds: an envelope the cache wrote, or bytes that do not decode. */
  datatype FileData = Encoded(item: Envelope) | Raw(bytes: seq<bv8>)

  /** The configuration fields of the file cache object. */
  datatype Settings = Settings(cachePath: string, fileSuffix: string, directoryLevel: int, embedExpiry: int)

  predicate IsLowerHex(c: char) {
    '0' <= c <= '9' || 'a' <= c <= 'f'
  }

  /** What `hex.EncodeToString(md5.Sum(key))` produces: 32 lowercase hex digits. */
  predicate IsDigest(d: string) {
    |d| == 32 && forall i :: 0 <= i < |d| ==> IsLowerHex(d[i])
  }

  type Digest = d: string | IsDigest(d) witness "00000000000000000000000000000000"

  // ---------------------------------------------------------------------------
  // Path derivation (getCacheFileName)

  /** `filepath.Join(dir, name)` for a clean `dir` and a non-empty `name`: an empty
      directory is dropped. */
  function Join(dir: string, name: string): string {
    if dir == "" then name else dir + "/" + name
  }

  /** The directory a digest is stored in: two levels of shards at level 2, one at level
      1, and the cache root itself at any other level. */
  function ShardDir(cfg: Settings, d: string): (r: string)
    requires |d| >= 4
    ensures |cfg.cachePath| <= |r| <= |cfg.cachePath| + 6
    ensures cfg.directoryLevel != 1 && cfg.directoryLevel != 2 ==> r == cfg.cachePath
  {
    if cfg.directoryLevel == 2 then Join(Join(cfg.cachePath, d[0..2]), d[2..4])
    else if cfg.directoryLevel == 1 then Join(cfg.cachePath, d[0..2])
    else cfg.cachePath
  }

  /** The cache file of a digest: the digest followed by the suffix, in its shard directory. */
  function CacheFileName(cfg: Settings, d: string): (r: string)
    requires |d| >= 4
    ensures |ShardDir(cfg, d)| + |d| + |cfg.fileSuffix| <= |r| <= |ShardDir(cfg, d)| + |d| + |cfg.fileSuffix| + 1
  {
    Join(ShardDir(cfg, d), d + cfg.fileSuffix)
  }

  function ExistsError(e: Error, path: string): Error {
    Wrapf(Some(e), InvalidPathFmt, [path]).value
  }

  function MkdirError(e: Error, path: string): Error {
    Wrapf(Some(e), MkdirFmt, [path]).value
  }

  function ReadError(e: Error, fn: string): Error {
    Wrapf(Some(e), ReadFmt, [fn]).value
  }

  /** The cause reported by the decoder for bytes that are not an encoded envelope. */
  const GobError := Leaf("gob: the data is not an encoded cache item")

  function DecodeError(): Error {
    Wrap(Some(GobError), DecodeMsg).value
  }

  /** The error of making sure directory `dir` exists: the wrapped error of checking it,
      or, when it is missing, the wrapped error of creating it. */
  function EnsureDirError(disk: Disk<FileData>, dir: string): Option<Error> {
    match Stat(disk, dir)
    case StatFailed(e) => Some(ExistsError(e, dir))
    case Found => None
    case NotFound =>
      match MkdirAllError(disk, dir)
      case Some(e) => Some(MkdirError(e, dir))
      case None => None
  }

  /** What `getCacheFileName` returns for a digest: the file name once its shard directory
      exists, or the error of checking or creating that directory. */
  function PathResult(cfg: Settings, disk: Disk<FileData>, d: string): Result<string>
    requires |d| >= 4
  {
    var err := EnsureDirError(disk, ShardDir(cfg, d));
    if err.Some? then Fail(err.value) else Ok(CacheFileName(cfg, d))
  }

  /** The tree after `getCacheFileName`: the shard directory is created when missing. */
  function PathDisk(cfg: Settings, disk: Disk<FileData>, d: string): Disk<FileData>
    requires |d| >= 4
  {
    if Stat(disk, ShardDir(cfg, d)).NotFound? then Mkdirs(disk, ShardDir(cfg, d)) else disk
  }

  /** The tree after `getCacheFileName` of each key in turn. */
  function PathDisks(cfg: Settings, disk: Disk<FileData>, digest: string -> Digest, keys: seq<string>): (r: Disk<FileData>)
    ensures r.files == disk.files && r.denied == disk.denied && disk.dirs <= r.dirs
    decreases |keys|
  {
    if |keys| == 0 then disk
    else
      var n := |keys| - 1;
      PathDisk(cfg, PathDisks(cfg, disk, digest, keys[..n]), digest(keys[n]))
  }

  /** Every directory the fold adds is a shard directory of one of the keys, or a
      directory above one. */
  lemma {:induction false} PathDisksOnlyShards(cfg: Settings, disk: Disk<FileData>, digest: string -> Digest, keys: seq<string>)
    ensures forall p :: p in PathDisks(cfg, disk, digest, keys).dirs - disk.dirs ==>
              exists i :: 0 <= i < |keys| && p in Ancestors(ShardDir(cfg, digest(keys[i])))
    decreases |keys|
  {
    if |keys| > 0 {
      var n := |keys| - 1;
      PathDisksOnlyShards(cfg, disk, digest, keys[..n]);
      forall p | p in PathDisks(cfg, disk, digest, keys).dirs - disk.dirs
        ensures exists i :: 0 <= i < |keys| && p in Ancestors(ShardDir(cfg, digest(keys[i])))
      {
        if p in PathDisks(cfg, disk, digest, keys[..n]).dirs - disk.dirs {
          var i :| 0 <= i < n && p in Ancestors(ShardDir(cfg, digest(keys[..n][i])));
          assert keys[..n][i] == keys[i];
        } else {
          assert p in Ancestors(ShardDir(cfg, digest(keys[n])));
        }
      }
    }
  }

  // ---------------------------------------------------------------------------
  // The operations as functions of the tree

  /** What `Get` reports for a digest at time `now`. */
  function GetOutcome(cfg: Settings, disk: Disk<FileData>, d: string, now: int): Outcome
    requires |d| >= 4
  {
    match PathResult(cfg, disk, d)
    case Fail(e) => Miss(e)
    case Ok(fn) =>
      var read: Result<FileData> := ReadFile(PathDisk(cfg, disk, d), fn);
      if read.Fail? then Miss(ReadError(read.err, fn))
      else if read.value.Raw? then Miss(DecodeError())
      else if read.value.item.expired < now then Miss(ErrKeyExpired)
      else Hit(read.value.item.data)
  }

  /** The outcome of each key in turn, on one tree. */
  function Outcomes(cfg: Settings, disk: Disk<FileData>, digest: string -> Digest, keys: seq<string>, now: int): (outs: seq<Outcome>)
    ensures |outs| == |keys|
    ensures forall i :: 0 <= i < |keys| ==> outs[i] == GetOutcome(cfg, disk, digest(keys[i]), now)
  {
    seq(|keys|, i requires 0 <= i < |keys| => GetOutcome(cfg, disk, digest(keys[i]), now))
  }

  /** The expiry `Put` records: ten years ahead when the timeout equals the configured
      `EmbedExpiry` taken as a count of nanoseconds, otherwise `now + timeout`. */
  function ExpiryFor(cfg: Settings, timeout: int, now: int): (r: int)
    ensures r == now + TenYears || r == now + timeout
    ensures timeout != cfg.embedExpiry ==> r == now + timeout
  {
    if timeout == cfg.embedExpiry then now + TenYears else now + timeout
  }

  function PutEnvelope(cfg: Settings, val: Value, timeout: int, now: int): Envelope {
    Envelope(val, ExpiryFor(cfg, timeout, now), now)
  }

  /** The error `Put` returns. */
  function PutResult(cfg: Settings, disk: Disk<FileData>, d: string): Option<Error>
    requires |d| >= 4
  {
    match PathResult(cfg, disk, d)
    case Fail(e) => Some(e)
    case Ok(fn) => WriteError(PathDisk(cfg, disk, d), fn)
  }

  /** The tree after `Put`: the cache file replaced by the new envelope. */
  function PutDisk(cfg: Settings, disk: Disk<FileData>, d: string, val: Value, timeout: int, now: int): Disk<FileData>
    requires |d| >= 4
  {
    match PathResult(cfg, disk, d)
    case Fail(_) => PathDisk(cfg, disk, d)
    case Ok(fn) => Written(PathDisk(cfg, disk, d), fn, Encoded(PutEnvelope(cfg, val, timeout, now)))
  }

  /** The error `Delete` returns: a failed removal of an existing file, wrapped with the
      key and the file name; an absent file, or one whose existence cannot be checked, is
      not an error. */
  function DeleteResult(cfg: Settings, disk: Disk<FileData>, key: string, d: string): Option<Error>
    requires |d| >= 4
  {
    match PathResult(cfg, disk, d)
    case Fail(e) => Some(e)
    case Ok(fn) =>
      var disk1 := PathDisk(cfg, disk, d);
      if Stat(disk1, fn).Found? && RemoveError(disk1, fn).Some? then
        Wrapf(RemoveError(disk1, fn), DeleteFmt, [key, fn])
      else None
  }

  /** The tree after `Delete`. */
  function DeleteDisk(cfg: Settings, disk: Disk<FileData>, d: string): Disk<FileData>
    requires |d| >= 4
  {
    match PathResult(cfg, disk, d)
    case Fail(_) => PathDisk(cfg, disk, d)
    case Ok(fn) =>
      var disk1 := PathDisk(cfg, disk, d);
      if Stat(disk1, fn).Found? then Removed(disk1, fn) else disk1
  }

  /** The error `Create` returns for the cache root. */
  function CreateResult(disk: Disk<FileData>, root: string): Option<Error> {
    match Stat(disk, root)
    case StatFailed(e) => Some(ExistsError(e, root))
    case Found => None
    case NotFound =>
      if MkdirAllError(disk, root).Some? then
        Wrapf(MkdirAllError(disk, root), CreateFmt, [root])
      else None
  }

  /** The tree after `Create`. */
  function CreateDisk(disk: Disk<FileData>, root: string): Disk<FileData> {
    if Stat(disk, root).NotFound? then Mkdirs(disk, root) else disk
  }

  /** The configuration after `Start` fills in its defaults: given keys are kept and each
      missing one gets its default. */
  function WithDefaults(cfg: map<string, string>): (full: map<string, string>)
    ensures CpKey in full && FsKey in full && DlKey in full && EeKey in full
    ensures forall k :: k in cfg ==> k in full && full[k] == cfg[k]
    ensures full[CpKey] == if CpKey in cfg then cfg[CpKey] else DefaultCachePath
    ensures full[FsKey] == if FsKey in cfg then cfg[FsKey] else DefaultFileSuffix
    ensures full[DlKey] == if DlKey in cfg then cfg[DlKey] else Itoa(DefaultDirectoryLevel)
    ensures full[EeKey] == if EeKey in cfg then cfg[EeKey] else Itoa(DefaultEmbedExpirySeconds)
  {
    var c1 := if CpKey in cfg then cfg else cfg[CpKey := DefaultCachePath];
    var c2 := if FsKey in c1 then c1 else c1[FsKey := DefaultFileSuffix];
    var c3 := if DlKey in c2 then c2 else c2[DlKey := Itoa(DefaultDirectoryLevel)];
    if EeKey in c3 then c3 else c3[EeKey := Itoa(DefaultEmbedExpirySeconds)]
  }

  /** What `Start` leaves behind: the settings, the error, the tree and the panic value,
      if it panicked. */
  datatype Started = Started(cfg: Settings, err: Option<Error>, disk: Disk<FileData>, panicked: Option<string>)

  /** The runtime panic of storing a default into the nil map that `null` decodes to. */
  const NilMapPanic := "assignment to entry in nil map"

  /** `Start(config)` from settings `prev` over `disk`: a `null` configuration panics on the
      first default it stores; otherwise the defaults are filled in, path and
      suffix are taken as given, the directory level and then the embedded expiry are parsed
      (each assigned even when parsing fails) and the cache root is created last. */
  function StartResult(prev: Settings, disk: Disk<FileData>, config: Decoded<string>): (r: Started)
    ensures r.disk.files == disk.files && r.disk.denied == disk.denied && disk.dirs <= r.disk.dirs
    ensures r.panicked.Some? <==> config.Null?
  {
    match config
    case Undecodable(cause) => Started(prev, Some(cause), disk, None)
    case Null => Started(prev, None, disk, Some(NilMapPanic))
    case Decoded(m) =>
      var full := WithDefaults(m);
      var dl := Atoi(full[DlKey]);
      var s1 := prev.(cachePath := full[CpKey], fileSuffix := full[FsKey], directoryLevel := dl.value);
      if dl.err.Some? then Started(s1, Wrapf(dl.err, LevelFmt, [full[DlKey]]), disk, None)
      else
        var ee := Atoi(full[EeKey]);
        var s2 := s1.(embedExpiry := ee.value);
        if ee.err.Some? then Started(s2, Wrapf(ee.err, ExpiryFmt, [full[EeKey]]), disk, None)
        else Started(s2, CreateResult(disk, s2.cachePath), CreateDisk(disk, s2.cachePath), None)
  }

  // ---------------------------------------------------------------------------
  // Path lemmas

  /** The layout on disk: `root/d[0:2]/d[2:4]/d+suffix` at level 2, `root/d[0:2]/d+suffix`
      at level 1, `root/d+suffix` otherwise; the file always sits directly in its shard
      directory under the name `d+suffix`. */
  lemma FileNameLayout(cfg: Settings, d: string)
    requires IsDigest(d)
    ensures cfg.cachePath != "" && cfg.directoryLevel == 2 ==>
              CacheFileName(cfg, d) == cfg.cachePath + "/" + d[0..2] + "/" + d[2..4] + "/" + d + cfg.fileSuffix
    ensures cfg.cachePath != "" && cfg.directoryLevel == 1 ==>
              CacheFileName(cfg, d) == cfg.cachePath + "/" + d[0..2] + "/" + d + cfg.fileSuffix
    ensures cfg.cachePath != "" && cfg.directoryLevel != 1 && cfg.directoryLevel != 2 ==>
              CacheFileName(cfg, d) == cfg.cachePath + "/" + d + cfg.fileSuffix
    ensures cfg.cachePath == "" && cfg.directoryLevel == 2 ==>
              CacheFileName(cfg, d) == d[0..2] + "/" + d[2..4] + "/" + d + cfg.fileSuffix
    ensures cfg.cachePath == "" && cfg.directoryLevel == 1 ==>
              CacheFileName(cfg, d) == d[0..2] + "/" + d + cfg.fileSuffix
    ensures cfg.cachePath == "" && cfg.directoryLevel != 1 && cfg.directoryLevel != 2 ==>
              CacheFileName(cfg, d) == d + cfg.fileSuffix
    ensures ShardDir(cfg, d) != "" ==> CacheFileName(cfg, d) == ShardDir(cfg, d) + "/" + d + cfg.fileSuffix
  {
  }

  /** Digests that agree on the characters the level shards by share a directory. */
  lemma SameShard(cfg: Settings, d1: string, d2: string)
    requires IsDigest(d1) && IsDigest(d2)
    requires cfg.directoryLevel == 2 ==> d1[..4] == d2[..4]
    requires cfg.directoryLevel == 1 ==> d1[..2] == d2[..2]
    ensures ShardDir(cfg, d1) == ShardDir(cfg, d2)
  {
    if cfg.directoryLevel == 2 {
      assert d1[0..2] == d1[..4][0..2] && d2[0..2] == d2[..4][0..2];
      assert d1[2..4] == d1[..4][2..4] && d2[2..4] == d2[..4][2..4];
    }
  }

  /** All shard directories of one configuration have the same length. */
  lemma ShardLength(cfg: Settings, d1: string, d2: string)
    requires |d1| >= 4 && |d2| >= 4
    ensures |ShardDir(cfg, d1)| == |ShardDir(cfg, d2)|
  {
  }

  /** A cache file name is longer than every shard directory of the same configuration. */
  lemma FileNameLonger(cfg: Settings, d: string, d2: string)
    requires IsDigest(d) && |d2| >= 4
    ensures |CacheFileName(cfg, d)| >= |ShardDir(cfg, d2)| + 32
  {
    ShardLength(cfg, d, d2);
  }

  /** Different digests never share a cache file. */
  lemma FileNameInjective(cfg: Settings, d1: string, d2: string)
    requires IsDigest(d1) && IsDigest(d2)
    requires CacheFileName(cfg, d1) == CacheFileName(cfg, d2)
    ensures d1 == d2
  {
    ShardLength(cfg, d1, d2);
    var s1, s2 := ShardDir(cfg, d1), ShardDir(cfg, d2);
    var f := CacheFileName(cfg, d1);
    var off := if s1 == "" then 0 else |s1| + 1;
    assert s1 == "" <==> s2 == "";
    if s1 == "" {
      assert f == d1 + cfg.fileSuffix && f == d2 + cfg.fileSuffix;
    } else {
      assert f == s1 + "/" + d1 + cfg.fileSuffix && f == s2 + "/" + d2 + cfg.fileSuffix;
    }
    assert f[off..off + 32] == d1;
    assert f[off..off + 32] == d2;
  }

  /** When the shard directory exists, `getCacheFileName` succeeds without changing the
      tree; after it succeeds the directory exists, so calling it again changes nothing. */
  lemma PathIdempotent(cfg: Settings, disk: Disk<FileData>, d: string)
    requires WellFormed(disk) && IsDigest(d)
    ensures Stat(disk, ShardDir(cfg, d)).Found? ==>
              PathResult(cfg, disk, d) == Ok(CacheFileName(cfg, d)) && PathDisk(cfg, disk, d) == disk
    ensures PathResult(cfg, disk, d).Ok? ==> Stat(PathDisk(cfg, disk, d), ShardDir(cfg, d)).Found?
    ensures PathResult(cfg, PathDisk(cfg, disk, d), d) == PathResult(cfg, disk, d)
    ensures PathDisk(cfg, PathDisk(cfg, disk, d), d) == PathDisk(cfg, disk, d)
  {
    var dir := ShardDir(cfg, d);
    if Stat(disk, dir).NotFound? && MkdirAllError(disk, dir).None? {
      assert dir in Ancestors(dir);
    }
  }

  /** Creating one key's shard directory changes neither what `getCacheFileName` nor what
      `Get` reports for any key. */
  lemma PathStable(cfg: Settings, disk: Disk<FileData>, d1: string, d2: string, now: int)
    requires WellFormed(disk) && IsDigest(d1) && IsDigest(d2)
    ensures PathResult(cfg, PathDisk(cfg, disk, d1), d2) == PathResult(cfg, disk, d2)
    ensures GetOutcome(cfg, PathDisk(cfg, disk, d1), d2, now) == GetOutcome(cfg, disk, d2, now)
  {
    var disk1 := PathDisk(cfg, disk, d1);
    if disk1 != disk {
      PathResultStable(cfg, disk, d1, d2);
      ReadStable(cfg, disk, d1, d2);
    }
  }

  /** Creating a directory changes no answer `os.Stat` gives outside its ancestors, and
      makes those ancestors exist. */
  lemma MkdirsStat(disk: Disk<FileData>, dir: string, p: string)
    requires MkdirAllError(disk, dir).None?
    ensures Stat(Mkdirs(disk, dir), p) == if p in Ancestors(dir) then Found else Stat(disk, p)
    ensures MkdirAllError(Mkdirs(disk, dir), p) == MkdirAllError(disk, p)
  {
    if p in Ancestors(dir) {
      AncestorsTransitive(dir, p);
    }
  }

  lemma PathResultStable(cfg: Settings, disk: Disk<FileData>, d1: string, d2: string)
    requires WellFormed(disk) && IsDigest(d1) && IsDigest(d2)
    requires PathDisk(cfg, disk, d1) != disk
    ensures PathResult(cfg, PathDisk(cfg, disk, d1), d2) == PathResult(cfg, disk, d2)
  {
    EnsureDirStable(disk, ShardDir(cfg, d1), ShardDir(cfg, d2));
  }

  /** Creating a missing directory changes no other directory's check. */
  lemma EnsureDirStable(disk: Disk<FileData>, dir1: string, dir2: string)
    requires Stat(disk, dir1).NotFound? && MkdirAllError(disk, dir1).None?
    ensures EnsureDirError(Mkdirs(disk, dir1), dir2) == EnsureDirError(disk, dir2)
  {
    MkdirsStat(disk, dir1, dir2);
    if dir2 in Ancestors(dir1) {
      AncestorsTransitive(dir1, dir2);
      assert MkdirAllError(disk, dir2).None?;
      assert Stat(Mkdirs(disk, dir1), dir2) == Found;
      assert Stat(disk, dir2).Found? || Stat(disk, dir2).NotFound?;
    } else {
      assert Stat(Mkdirs(disk, dir1), dir2) == Stat(disk, dir2);
    }
  }

  lemma ReadStable(cfg: Settings, disk: Disk<FileData>, d1: string, d2: string)
    requires WellFormed(disk) && IsDigest(d1) && IsDigest(d2)
    requires PathDisk(cfg, disk, d1) != disk
    ensures ReadFile(PathDisk(cfg, PathDisk(cfg, disk, d1), d2), CacheFileName(cfg, d2))
            == ReadFile(PathDisk(cfg, disk, d2), CacheFileName(cfg, d2))
  {
    var dir1, dir2 := ShardDir(cfg, d1), ShardDir(cfg, d2);
    var fn := CacheFileName(cfg, d2);
    FileNameLonger(cfg, d2, d1);
    FileNameLonger(cfg, d2, d2);
    if fn in Ancestors(dir1) {
      AncestorsShorter(dir1, fn);
    }
    if fn in Ancestors(dir2) {
      AncestorsShorter(dir2, fn);
    }
    var a, b := PathDisk(cfg, PathDisk(cfg, disk, d1), d2), PathDisk(cfg, disk, d2);
    assert a.dirs - Ancestors(dir1) - Ancestors(dir2) == b.dirs - Ancestors(dir1) - Ancestors(dir2);
    assert a.files == b.files && a.denied == b.denied;
  }

  /** `getCacheFileName` touches no file, and the directories it creates never include the
      cache file's own name. */
  lemma PathDiskKeepsFile(cfg: Settings, disk: Disk<FileData>, d: string)
    requires IsDigest(d)
    ensures var disk1, fn := PathDisk(cfg, disk, d), CacheFileName(cfg, d);
            disk1.files == disk.files && disk1.denied == disk.denied && (fn in disk1.dirs <==> fn in disk.dirs)
  {
    var fn := CacheFileName(cfg, d);
    FileNameLonger(cfg, d, d);
    if fn in Ancestors(ShardDir(cfg, d)) {
      AncestorsShorter(ShardDir(cfg, d), fn);
    }
  }

  /** Making the shard directories of any keys changes neither the tree's well-formedness
      nor any key's `Get` outcome. */
  lemma {:induction false} PathDisksKeepOutcome(cfg: Settings, disk: Disk<FileData>, digest: string -> Digest,
                                                 keys: seq<string>, d: string, now: int)
    requires WellFormed(disk) && IsDigest(d)
    ensures WellFormed(PathDisks(cfg, disk, digest, keys))
    ensures GetOutcome(cfg, PathDisks(cfg, disk, digest, keys), d, now) == GetOutcome(cfg, disk, d, now)
    decreases |keys|
  {
    if |keys| > 0 {
      var n := |keys| - 1;
      PathDisksKeepOutcome(cfg, disk, digest, keys[..n], d, now);
      var before := PathDisks(cfg, disk, digest, keys[..n]);
      var after := PathDisk(cfg, before, digest(keys[n]));
      assert PathDisks(cfg, disk, digest, keys) == after;
      PathStable(cfg, before, digest(keys[n]), d, now);
      MkdirsKeepsWellFormed(before, ShardDir(cfg, digest(keys[n])));
      assert after == before || after == Mkdirs(before, ShardDir(cfg, digest(keys[n])));
    }
  }

  /** One more key extends the fold by that key's `getCacheFileName`. */
  lemma PathDisksStep(cfg: Settings, disk: Disk<FileData>, digest: string -> Digest, keys: seq<string>, i: nat)
    requires i < |keys|
    ensures PathDisks(cfg, disk, digest, keys[..i + 1])
            == PathDisk(cfg, PathDisks(cfg, disk, digest, keys[..i]), digest(keys[i]))
  {
    assert keys[..i + 1][..i] == keys[..i];
  }

  /** One step of `GetMulti`: the i-th key sees the outcome it has on the start tree, and
      its `Get` extends the fold by that key. */
  lemma GetMultiStep(cfg: Settings, disk: Disk<FileData>, digest: string -> Digest, keys: seq<string>, now: int, i: nat)
    requires WellFormed(disk) && i < |keys|
    ensures WellFormed(PathDisks(cfg, disk, digest, keys[..i]))
    ensures GetOutcome(cfg, PathDisks(cfg, disk, digest, keys[..i]), digest(keys[i]), now)
            == Outcomes(cfg, disk, digest, keys, now)[i]
    ensures PathDisks(cfg, disk, digest, keys[..i + 1])
            == PathDisk(cfg, PathDisks(cfg, disk, digest, keys[..i]), digest(keys[i]))
    ensures var outs := Outcomes(cfg, disk, digest, keys, now);
            FailureEntries(keys[..i + 1], outs[..i + 1])
            == FailureEntries(keys[..i], outs[..i]) + (if outs[i].Miss? then [KeyError(keys[i], outs[i].err)] else [])
  {
    PathDisksKeepOutcome(cfg, disk, digest, keys[..i], digest(keys[i]), now);
    PathDisksStep(cfg, disk, digest, keys, i);
    FailureEntriesPrefix(keys, Outcomes(cfg, disk, digest, keys, now), i);
  }

  /** `GetMulti`'s error is nil exactly when every key's `Get` succeeds on the start tree. */
  lemma GetMultiNilIff(cfg: Settings, disk: Disk<FileData>, digest: string -> Digest, keys: seq<string>, now: int)
    ensures Aggregate(FailureEntries(keys, Outcomes(cfg, disk, digest, keys, now))).None?
            <==> forall i :: 0 <= i < |keys| ==> GetOutcome(cfg, disk, digest(keys[i]), now).Hit?
  {
    AggregateNilIff(keys, Outcomes(cfg, disk, digest, keys, now));
  }

  // ---------------------------------------------------------------------------
  // Lemmas about Get, Put and Delete

  /** `Get` reports the key expired exactly when an envelope is stored for it whose expiry
      instant is strictly before `now`; no other failure is reported as expired. */
  lemma GetExpiredIff(cfg: Settings, disk: Disk<FileData>, d: string, now: int)
    requires IsDigest(d)
    ensures GetOutcome(cfg, disk, d, now) == Miss(ErrKeyExpired) <==>
              && PathResult(cfg, disk, d).Ok?
              && ReadFile(PathDisk(cfg, disk, d), PathResult(cfg, disk, d).value).Ok?
              && ReadFile(PathDisk(cfg, disk, d), PathResult(cfg, disk, d).value).value.Encoded?
              && ReadFile(PathDisk(cfg, disk, d), PathResult(cfg, disk, d).value).value.item.expired < now
  {
  }

  /** A missing cache file is reported as the wrapped read error (with "not a directory" when
      a regular file stands above it), not as `ErrKeyNotExist`. */
  lemma MissingFileIsReadError(cfg: Settings, disk: Disk<FileData>, d: string, now: int)
    requires IsDigest(d) && PathResult(cfg, disk, d).Ok?
    requires var fn := CacheFileName(cfg, d);
             fn !in disk.files && fn !in disk.dirs && fn !in disk.denied
    ensures var fn := CacheFileName(cfg, d);
            var reason := if BelowFile(disk, fn) then "not a directory" else "no such file or directory";
            GetOutcome(cfg, disk, d, now) == Miss(ReadError(PathError("open", fn, reason), fn))
    ensures GetOutcome(cfg, disk, d, now) != Miss(ErrKeyNotExist)
  {
    var fn, disk1 := CacheFileName(cfg, d), PathDisk(cfg, disk, d);
    PathDiskKeepsFile(cfg, disk, d);
    assert PathResult(cfg, disk, d) == Ok(fn);
    var reason := if BelowFile(disk, fn) then "not a directory" else "no such file or directory";
    assert ReadFile(disk1, fn) == Fail(PathError("open", fn, reason));
  }

  /** `Put` followed by `Get` of the same key gives the stored value back until the
      recorded expiry, and reports it expired after that. */
  lemma PutThenGet(cfg: Settings, disk: Disk<FileData>, d: string, val: Value, timeout: int, now: int, later: int)
    requires WellFormed(disk) && IsDigest(d)
    requires PutResult(cfg, disk, d) == None
    ensures GetOutcome(cfg, PutDisk(cfg, disk, d, val, timeout, now), d, later)
            == if ExpiryFor(cfg, timeout, now) < later then Miss(ErrKeyExpired) else Hit(val)
  {
    PathIdempotent(cfg, disk, d);
    var fn := CacheFileName(cfg, d);
    var disk1 := PathDisk(cfg, disk, d);
    var disk2 := PutDisk(cfg, disk, d, val, timeout, now);
    assert disk2 == Written(disk1, fn, Encoded(PutEnvelope(cfg, val, timeout, now)));
    assert Stat(disk2, ShardDir(cfg, d)).Found?;
    assert PathResult(cfg, disk2, d) == Ok(fn) && PathDisk(cfg, disk2, d) == disk2;
    assert ReadFile(disk2, fn) == Ok(Encoded(PutEnvelope(cfg, val, timeout, now)));
  }

  /** `Put` replaces only its own cache file. */
  lemma PutLeavesOtherFiles(cfg: Settings, disk: Disk<FileData>, d: string, val: Value, timeout: int, now: int)
    requires IsDigest(d)
    ensures PutDisk(cfg, disk, d, val, timeout, now).files - {CacheFileName(cfg, d)} == disk.files - {CacheFileName(cfg, d)}
    ensures PutDisk(cfg, disk, d, val, timeout, now).denied == disk.denied
  {
  }

  /** `Delete` removes the key's file and no other, an absent file is not an error, and a
      second `Delete` succeeds without changing anything. */
  lemma DeleteIdempotent(cfg: Settings, disk: Disk<FileData>, key: string, d: string)
    requires Tree(disk) && IsDigest(d)
    requires DeleteResult(cfg, disk, key, d) == None
    ensures var fn := CacheFileName(cfg, d);
            DeleteDisk(cfg, disk, d).files - {fn} == disk.files - {fn} &&
            (fn !in disk.denied ==> fn !in DeleteDisk(cfg, disk, d).files)
    ensures DeleteResult(cfg, DeleteDisk(cfg, disk, d), key, d) == None
    ensures DeleteDisk(cfg, DeleteDisk(cfg, disk, d), d) == DeleteDisk(cfg, disk, d)
  {
    PathIdempotent(cfg, disk, d);
    var fn := CacheFileName(cfg, d);
    var disk1 := PathDisk(cfg, disk, d);
    var disk2 := DeleteDisk(cfg, disk, d);
    OperationsKeepTree(disk, ShardDir(cfg, d), Raw([]));
    if fn in disk1.files {
      ExistingNotBelowFile(disk1, fn);
    }
    assert disk2.dirs == disk1.dirs && disk2.denied == disk1.denied;
    assert Stat(disk2, ShardDir(cfg, d)).Found?;
    assert PathResult(cfg, disk2, d) == Ok(fn) && PathDisk(cfg, disk2, d) == disk2;
    assert !Stat(disk2, fn).Found?;
  }

  /** An absent cache file makes `Delete` succeed. */
  lemma DeleteAbsent(cfg: Settings, disk: Disk<FileData>, key: string, d: string)
    requires IsDigest(d) && PathResult(cfg, disk, d).Ok?
    requires CacheFileName(cfg, d) !in disk.files && CacheFileName(cfg, d) !in disk.dirs
    ensures DeleteResult(cfg, disk, key, d) == None
    ensures DeleteDisk(cfg, disk, d) == PathDisk(cfg, disk, d)
  {
    var fn, disk1 := CacheFileName(cfg, d), PathDisk(cfg, disk, d);
    PathDiskKeepsFile(cfg, disk, d);
    assert PathResult(cfg, disk, d) == Ok(fn);
    assert !Stat(disk1, fn).Found?;
  }

  /** The embedded-expiry sentinel compares the timeout with `EmbedExpiry` as a count of
      nanoseconds: under the default (0) a timeout of 0 is stored for ten years, and a
      configured `EmbedExpiry` of n selects the ten-year expiry for a timeout of n
      nanoseconds, while a timeout of n seconds is stored as given. */
  lemma EmbedExpirySentinel(cfg: Settings, n: int, now: int)
    requires cfg.embedExpiry == n && n != 0
    ensures ExpiryFor(cfg.(embedExpiry := DefaultEmbedExpirySeconds), 0, now) == now + TenYears
    ensures ExpiryFor(cfg, n, now) == now + TenYears
    ensures ExpiryFor(cfg, n * Second, now) == now + n * Second
  {
  }

  /** After `Create` succeeds the cache root exists, and creating it again changes nothing. */
  lemma CreateMakesRoot(disk: Disk<FileData>, root: string)
    requires WellFormed(disk)
    requires CreateResult(disk, root) == None
    ensures Stat(CreateDisk(disk, root), root).Found?
    ensures CreateResult(CreateDisk(disk, root), root) == None
    ensures CreateDisk(CreateDisk(disk, root), root) == CreateDisk(disk, root)
  {
    if Stat(disk, root).NotFound? {
      assert root in Ancestors(root);
    }
  }

  /** The default settings parse: level 2 and an embedded expiry of 0. */
  lemma DefaultsParse(cfg: map<string, string>)
    requires DlKey !in cfg && EeKey !in cfg
    ensures Atoi(WithDefaults(cfg)[DlKey]) == Parsed(2, None)
    ensures Atoi(WithDefaults(cfg)[EeKey]) == Parsed(0, None)
  {
    AtoiItoa(DefaultDirectoryLevel);
    AtoiItoa(DefaultEmbedExpirySeconds);
  }

  /** What `Start` does with a decoded configuration: path and suffix come from the
      configuration or its defaults, a level that does not parse stops it before the
      expiry is touched, an expiry that does not parse stops it before the tree is touched,
      and when it reports no error both settings parsed and the cache root exists. */
  lemma StartSettings(prev: Settings, disk: Disk<FileData>, config: Decoded<string>)
    requires config.Decoded?
    ensures var full, r := WithDefaults(config.cfg), StartResult(prev, disk, config);
            var dl, ee := Atoi(full[DlKey]), Atoi(full[EeKey]);
            && r.cfg.cachePath == full[CpKey]
            && r.cfg.fileSuffix == full[FsKey]
            && r.cfg.directoryLevel == dl.value
            && (dl.err.Some? ==> r.err.Some? && r.cfg.embedExpiry == prev.embedExpiry && r.disk == disk)
            && (dl.err.None? ==> r.cfg.embedExpiry == ee.value)
            && (dl.err.None? && ee.err.Some? ==> r.err.Some? && r.disk == disk)
            && (r.err.None? ==> dl.err.None? && ee.err.None? && Stat(r.disk, r.cfg.cachePath).Found?)
  {
    var full := WithDefaults(config.cfg);
    assert full[CpKey] in Ancestors(full[CpKey]);
  }

  /** An undecodable configuration is reported as it is and changes nothing. */
  lemma StartUndecodable(prev: Settings, disk: Disk<FileData>, cause: Error)
    ensures StartResult(prev, disk, Undecodable(cause)) == Started(prev, Some(cause), disk, None)
  {
  }

  /** An empty configuration selects the defaults: root "cache", suffix ".bin", two shard
      levels and no embedded expiry; the only possible error is creating the root. */
  lemma StartDefaults(prev: Settings, disk: Disk<FileData>)
    ensures var r := StartResult(prev, disk, Decoded(map[]));
            && r.cfg == Settings(DefaultCachePath, DefaultFileSuffix, DefaultDirectoryLevel, DefaultEmbedExpirySeconds)
            && r.err == CreateResult(disk, DefaultCachePath)
            && r.disk == CreateDisk(disk, DefaultCachePath)
  {
    DefaultsParse(map[]);
  }

  // ---------------------------------------------------------------------------
  // The cache object

  /** The file cache object (`Cache` in file.go) over an operating-system tree `fs`, with
      the digest function `digest` standing for MD5 rendered in hex. */
  class FileCache {
    var cachePath: string
    var fileSuffix: string
    var directoryLevel: int
    var embedExpiry: int
    const fs: FileSystem<FileData>
    const digest: string -> Digest

    function Config(): Settings
      reads this
    {
      Settings(cachePath, fileSuffix, directoryLevel, embedExpiry)
    }

    ghost predicate Valid()
      reads this, fs
    {
      fs.Valid()
    }

    /** `NewFileCache()`: every field at its zero value. */
    constructor (fs: FileSystem<FileData>, digest: string -> Digest)
      requires fs.Valid()
      ensures Valid() && this.fs == fs && this.digest == digest
      ensures Config() == Settings("", "", 0, 0)
    {
      this.fs, this.digest := fs, digest;
      cachePath, fileSuffix, directoryLevel, embedExpiry := "", "", 0, 0;
    }

    /** `exists(path)`: whether the path exists, or the wrapped error of checking. */
    method Exists(path: string) returns (ok: bool, err: Option<Error>)
      ensures ok <==> Stat(fs.State(), path).Found?
      ensures err == if Stat(fs.State(), path).StatFailed? then Some(ExistsError(Stat(fs.State(), path).err, path)) else None
    {
      match Stat(fs.State(), path)
      case Found => return true, None;
      case NotFound => return false, None;
      case StatFailed(e) => return false, Some(ExistsError(e, path));
    }

    /** `getCacheFileName(key)`: the key's cache file, after creating its shard directory. */
    method GetCacheFileName(key: string) returns (fn: string, err: Option<Error>)
      requires Valid()
      modifies fs`dirs
      ensures Valid()
      ensures PathResult(Config(), old(fs.State()), digest(key)) == if err.None? then Ok(fn) else Fail(err.value)
      ensures fs.State() == PathDisk(Config(), old(fs.State()), digest(key))
    {
      var keyMd5 := digest(key);
      ghost var cfg, disk0 := Config(), fs.State();
      var path := cachePath;
      if directoryLevel == 2 {
        path := Join(Join(path, keyMd5[0..2]), keyMd5[2..4]);
      } else if directoryLevel == 1 {
        path := Join(path, keyMd5[0..2]);
      }
      assert path == ShardDir(cfg, keyMd5);
      var ok, e := Exists(path);
      if e.Some? {
        assert EnsureDirError(disk0, path) == e;
        return "", e;
      }
      if !ok {
        var mkErr := fs.MkdirAll(path);
        if mkErr.Some? {
          assert EnsureDirError(disk0, path) == Some(MkdirError(mkErr.value, path));
          return "", Wrapf(mkErr, MkdirFmt, [path]);
        }
      }
      assert EnsureDirError(disk0, path).None? && Config() == cfg;
      return Join(path, keyMd5 + fileSuffix), None;
    }

    /** `Get(key)`: the stored value, `ErrKeyExpired` for an envelope whose expiry has
        passed, or the error of finding, reading or decoding the file. */
    method Get(key: string, now: int) returns (val: Value, err: Option<Error>)
      requires Valid()
      modifies fs`dirs
      ensures Valid()
      ensures GetOutcome(Config(), old(fs.State()), digest(key), now) == if err.None? then Hit(val) else Miss(err.value)
      ensures err.Some? ==> val == Nil
      ensures fs.State() == PathDisk(Config(), old(fs.State()), digest(key))
    {
      var fn, e := GetCacheFileName(key);
      if e.Some? {
        return Nil, e;
      }
      var read: Result<FileData> := ReadFile(fs.State(), fn);
      if read.Fail? {
        return Nil, Some(ReadError(read.err, fn));
      }
      if read.value.Raw? {
        return Nil, Some(DecodeError());
      }
      var to := read.value.item;
      if to.expired < now {
        return Nil, Some(ErrKeyExpired);
      }
      return to.data, None;
    }

    /** `GetMulti(keys)`: one slot per key, holding the value where `Get` succeeded and nil
        elsewhere; the error is nil when every key succeeded and otherwise lists each
        failed key with its error, in key order. Creating shard directories on the way
        changes no key's outcome, so all outcomes are those of the tree at the start; the
        tree afterwards is the start tree with each key's shard directory made, in turn. */
    method GetMulti(keys: seq<string>, now: int) returns (rc: seq<Value>, err: Option<Error>)
      requires Valid()
      modifies fs`dirs
      ensures Valid()
      ensures |rc| == |keys|
      ensures rc == Slots(Outcomes(Config(), old(fs.State()), digest, keys, now))
      ensures err == Aggregate(FailureEntries(keys, Outcomes(Config(), old(fs.State()), digest, keys, now)))
      ensures err.None? <==> forall i :: 0 <= i < |keys| ==> GetOutcome(Config(), old(fs.State()), digest(keys[i]), now).Hit?
      ensures fs.State() == PathDisks(Config(), old(fs.State()), digest, keys)
    {
      ghost var disk0 := fs.State();
      ghost var outs := Outcomes(Config(), disk0, digest, keys, now);
      ghost var slots := Slots(outs);
      rc := seq(|keys|, _ => Nil);
      var keysErr: seq<string> := [];
      for i := 0 to |keys|
        invariant Valid()
        invariant fs.State() == PathDisks(Config(), disk0, digest, keys[..i])
        invariant FilledUpTo(rc, outs, i)
        invariant keysErr == FailureEntries(keys[..i], outs[..i])
      {
        GetMultiStep(Config(), disk0, digest, keys, now, i);
        var val, e := Get(keys[i], now);
        if e.Some? {
          assert outs[i] == Miss(e.value);
          FilledSkip(rc, outs, i);
          keysErr := keysErr + [KeyError(keys[i], e.value)];
          continue;
        }
        assert outs[i] == Hit(val);
        FilledHit(rc, outs, i);
        rc := rc[i := val];
      }
      assert keys[..|keys|] == keys && outs[..|keys|] == outs;
      assert fs.State() == PathDisks(Config(), disk0, digest, keys);
      assert rc == slots;
      GetMultiNilIff(Config(), disk0, digest, keys, now);
      err := if |keysErr| == 0 then None else Some(ErrorOf(Fmt.Join(keysErr, "; ")));
    }

    /** `Put(key, val, timeout)`: writes the envelope with the chosen expiry and `now` as
        last access to the key's cache file, replacing it whole. `gob.Register(nil)`
        panics, so the value must not be nil. */
    method Put(key: string, val: Value, timeout: int, now: int) returns (err: Option<Error>)
      requires Valid() && val != Nil
      modifies fs`dirs, fs`files
      ensures Valid()
      ensures err == PutResult(Config(), old(fs.State()), digest(key))
      ensures fs.State() == PutDisk(Config(), old(fs.State()), digest(key), val, timeout, now)
    {
      var item := Envelope(val, 0, 0);
      if timeout == embedExpiry {
        item := item.(expired := now + TenYears);
      } else {
        item := item.(expired := now + timeout);
      }
      item := item.(lastAccess := now);
      var fn, e := GetCacheFileName(key);
      if e.Some? {
        return e;
      }
      err := fs.WriteFile(fn, Encoded(item));
    }

    /** `Delete(key)`: removes the key's cache file when it exists. */
    method Delete(key: string) returns (err: Option<Error>)
      requires Valid()
      modifies fs`dirs, fs`files
      ensures Valid()
      ensures err == DeleteResult(Config(), old(fs.State()), key, digest(key))
      ensures fs.State() == DeleteDisk(Config(), old(fs.State()), digest(key))
    {
      var filename, e := GetCacheFileName(key);
      if e.Some? {
        return e;
      }
      var ok, statErr := Exists(filename);
      if ok {
        var rmErr := fs.Remove(filename);
        if rmErr.Some? {
          return Wrapf(rmErr, DeleteFmt, [key, filename]);
        }
      }
      return None;
    }

    /** `Create()`: makes the cache root unless it exists. */
    method Create() returns (err: Option<Error>)
      requires Valid()
      modifies fs`dirs
      ensures Valid()
      ensures err == CreateResult(old(fs.State()), cachePath)
      ensures fs.State() == CreateDisk(old(fs.State()), cachePath)
    {
      var ok, e := Exists(cachePath);
      if e.Some? || ok {
        return e;
      }
      var mkErr := fs.MkdirAll(cachePath);
      if mkErr.Some? {
        return Wrapf(mkErr, CreateFmt, [cachePath]);
      }
      return None;
    }

    /** `Start(config)`: panics on a `null` configuration (reported as the panic value, with
        nothing changed), otherwise fills in the defaults, takes path and suffix as given, parses the
        directory level and the embedded expiry (each assigned even when parsing fails,
        as `Atoi` leaves it) and finally creates the cache root. */
    method Start(config: Decoded<string>) returns (err: Option<Error>, panicked: Option<string>)
      requires Valid()
      modifies this, fs`dirs
      ensures Valid()
      ensures Config() == StartResult(old(Config()), old(fs.State()), config).cfg
      ensures err == StartResult(old(Config()), old(fs.State()), config).err
      ensures fs.State() == StartResult(old(Config()), old(fs.State()), config).disk
      ensures panicked == StartResult(old(Config()), old(fs.State()), config).panicked
    {
      ghost var r := StartResult(Config(), fs.State(), config);
      panicked := None;
      if config.Undecodable? {
        return Some(config.cause), None;
      }
      if config.Null? {
        return None, Some(NilMapPanic);
      }
      var cfg := WithDefaults(config.cfg);
      var dl := Atoi(cfg[DlKey]);
      cachePath, fileSuffix, directoryLevel := cfg[CpKey], cfg[FsKey], dl.value;
      if dl.err.Some? {
        assert Config() == r.cfg;
        return Wrapf(dl.err, LevelFmt, [cfg[DlKey]]), None;
      }
      var ee := Atoi(cfg[EeKey]);
      embedExpiry := ee.value;
      assert Config() == r.cfg;
      if ee.err.Some? {
        return Wrapf(ee.err, ExpiryFmt, [cfg[EeKey]]), None;
      }
      assert r == Started(Config(), CreateResult(fs.State(), cachePath), CreateDisk(fs.State(), cachePath), None);
      err := Create();
    }
  }
}
