/** The part of Go's `os` package the file backend uses, over an in-memory directory
    tree: a set of directory paths, a map from file path to content, and a set of paths
    on which the operating system refuses access ("permission denied"). A path below a
    regular file fails with "not a directory" and a missing path with "no such file or
    directory". Paths are clean and `/`-separated; "" is never a file or a directory. */
module Os {
  import opened MError

  /** A snapshot of the tree. */
  datatype Disk<T> = Disk(dirs: set<string>, files: map<string, T>, denied: set<string>)

  /** "" is nothing, and no path is both a file and a directory. */
  ghost predicate WellFormed<T>(disk: Disk<T>) {
    "" !in disk.dirs && "" !in disk.files && disk.dirs !! disk.files.Keys
  }

  /** A well-formed tree in which every directory above an existing file or directory
      exists, as on a real file system. */
  ghost predicate Tree<T>(disk: Disk<T>) {
    && WellFormed(disk)
    && (forall p :: p in disk.dirs ==> Ancestors(p) - {p} <= disk.dirs)
    && (forall p :: p in disk.files ==> Ancestors(p) - {p} <= disk.dirs)
  }

  /** `p` and every prefix of it that ends just before a `/`: the directories `MkdirAll(p)`
      needs. */
  function Ancestors(p: string): set<string> {
    {p} + set i | 0 < i < |p| && p[i] == '/' :: p[..i]
  }

  /** A `*PathError`, as `op path: reason`. */
  function PathError(op: string, path: string, reason: string): Error {
    Leaf(op + " " + path + ": " + reason)
  }

  datatype StatResult = Found | NotFound | StatFailed(err: Error)

  /** Some directory above `p` (an ancestor other than `p` itself) is a regular file. */
  predicate BelowFile<T>(disk: Disk<T>, p: string) {
    !(Ancestors(p) - {p} !! disk.files.Keys)
  }

  /** `os.Stat(p)`: refused paths fail, and so does a path below a regular file (ENOTDIR,
      which is not "does not exist"); existing files and directories are found. */
  function Stat<T>(disk: Disk<T>, p: string): StatResult {
    if p in disk.denied then StatFailed(PathError("stat", p, "permission denied"))
    else if BelowFile(disk, p) then StatFailed(PathError("stat", p, "not a directory"))
    else if p in disk.dirs || p in disk.files then Found
    else NotFound
  }

  /** The error of `os.MkdirAll(p)`: "" cannot be created, and neither can a path one of
      whose directories is refused or is a regular file. */
  function MkdirAllError<T>(disk: Disk<T>, p: string): Option<Error> {
    if p == "" then Some(PathError("mkdir", p, "no such file or directory"))
    else if !(Ancestors(p) !! disk.denied) then Some(PathError("mkdir", p, "permission denied"))
    else if !(Ancestors(p) !! disk.files.Keys) then Some(PathError("mkdir", p, "not a directory"))
    else None
  }

  /** The tree after `os.MkdirAll(p)`: on success `p` and all its ancestors are directories. */
  function Mkdirs<T>(disk: Disk<T>, p: string): Disk<T> {
    if MkdirAllError(disk, p).None? then disk.(dirs := disk.dirs + Ancestors(p)) else disk
  }

  /** `os.ReadFile(p)`. */
  function ReadFile<T>(disk: Disk<T>, p: string): Result<T> {
    if p in disk.denied then Fail(PathError("open", p, "permission denied"))
    else if BelowFile(disk, p) then Fail(PathError("open", p, "not a directory"))
    else if p in disk.dirs then Fail(PathError("read", p, "is a directory"))
    else if p !in disk.files then Fail(PathError("open", p, "no such file or directory"))
    else Ok(disk.files[p])
  }

  /** The error of `os.WriteFile(p, data, perm)`: the file is created only inside an
      existing directory. */
  function WriteError<T>(disk: Disk<T>, p: string): Option<Error> {
    if p in disk.denied then Some(PathError("open", p, "permission denied"))
    else if p == "" then Some(PathError("open", p, "no such file or directory"))
    else if BelowFile(disk, p) then Some(PathError("open", p, "not a directory"))
    else if !(Ancestors(p) - {p} <= disk.dirs) then Some(PathError("open", p, "no such file or directory"))
    else if p in disk.dirs then Some(PathError("open", p, "is a directory"))
    else None
  }

  /** The tree after `os.WriteFile(p, data, perm)`: the whole file is replaced. */
  function Written<T>(disk: Disk<T>, p: string, data: T): Disk<T> {
    if WriteError(disk, p).None? then disk.(files := disk.files[p := data]) else disk
  }

  /** The error of `os.Remove(p)`; directories are never removed by the cache. */
  function RemoveError<T>(disk: Disk<T>, p: string): Option<Error> {
    if p in disk.denied then Some(PathError("remove", p, "permission denied"))
    else if BelowFile(disk, p) then Some(PathError("remove", p, "not a directory"))
    else if p in disk.dirs then Some(PathError("remove", p, "directory not empty"))
    else if p !in disk.files then Some(PathError("remove", p, "no such file or directory"))
    else None
  }

  /** The tree after `os.Remove(p)`. */
  function Removed<T>(disk: Disk<T>, p: string): Disk<T> {
    if RemoveError(disk, p).None? then disk.(files := disk.files - {p}) else disk
  }

  /** Each ancestor is no longer than the path. */
  lemma AncestorsShorter(p: string, a: string)
    requires a in Ancestors(p)
    ensures |a| <= |p|
  {
  }

  /** An ancestor's ancestors are ancestors of the path. */
  lemma AncestorsTransitive(p: string, a: string)
    requires a in Ancestors(p)
    ensures Ancestors(a) <= Ancestors(p)
  {
    if a != p {
      var i :| 0 < i < |p| && p[i] == '/' && a == p[..i];
      forall b | b in Ancestors(a) ensures b in Ancestors(p) {
        if b != a {
          var j :| 0 < j < |a| && a[j] == '/' && b == a[..j];
          assert p[j] == '/' && b == p[..j];
        }
      }
    }
  }

  /** Every tree operation keeps the tree well formed and leaves the refused paths alone. */
  lemma OperationsKeepWellFormed<T>(disk: Disk<T>, p: string, data: T)
    requires WellFormed(disk)
    ensures WellFormed(Mkdirs(disk, p)) && Mkdirs(disk, p).denied == disk.denied
    ensures WellFormed(Written(disk, p, data)) && Written(disk, p, data).denied == disk.denied
    ensures WellFormed(Removed(disk, p)) && Removed(disk, p).denied == disk.denied
  {
    MkdirsKeepsWellFormed(disk, p);
  }

  lemma MkdirsKeepsWellFormed<T>(disk: Disk<T>, p: string)
    requires WellFormed(disk)
    ensures WellFormed(Mkdirs(disk, p)) && Mkdirs(disk, p).denied == disk.denied
  {
    if MkdirAllError(disk, p).None? {
      assert "" !in Ancestors(p);
    }
  }

  /** Every tree operation keeps a tree a tree: directories are made with all the
      directories above them, a file is written only inside an existing directory, and a
      removed file has nothing below it. */
  lemma OperationsKeepTree<T>(disk: Disk<T>, p: string, data: T)
    requires Tree(disk)
    ensures Tree(Mkdirs(disk, p)) && Tree(Written(disk, p, data)) && Tree(Removed(disk, p))
  {
    OperationsKeepWellFormed(disk, p, data);
    if MkdirAllError(disk, p).None? {
      forall a | a in Ancestors(p) ensures Ancestors(a) <= Ancestors(p) {
        AncestorsTransitive(p, a);
      }
    }
  }

  /** Nothing that exists in a tree lies below a regular file. */
  lemma ExistingNotBelowFile<T>(disk: Disk<T>, p: string)
    requires Tree(disk) && (p in disk.dirs || p in disk.files)
    ensures !BelowFile(disk, p)
  {
  }

  /** The operating system's view of the tree, updated in place. */
  class FileSystem<T> {
    var dirs: set<string>
    var files: map<string, T>
    const denied: set<string>

    function State(): Disk<T>
      reads this
    {
      Disk(dirs, files, denied)
    }

    ghost predicate Valid()
      reads this
    {
      WellFormed(State())
    }

    constructor (dirs: set<string>, files: map<string, T>, denied: set<string>)
      requires WellFormed(Disk(dirs, files, denied))
      ensures Valid() && State() == Disk(dirs, files, denied)
    {
      this.dirs, this.files, this.denied := dirs, files, denied;
    }

    /** `os.MkdirAll(p, perm)`. */
    method MkdirAll(p: string) returns (err: Option<Error>)
      requires Valid()
      modifies this`dirs
      ensures Valid()
      ensures err == MkdirAllError(old(State()), p) && State() == Mkdirs(old(State()), p)
    {
      MkdirsKeepsWellFormed(State(), p);
      err := MkdirAllError(State(), p);
      if err.None? {
        dirs := dirs + Ancestors(p);
      }
    }

    /** `os.WriteFile(p, data, perm)`. */
    method WriteFile(p: string, data: T) returns (err: Option<Error>)
      requires Valid()
      modifies this`files
      ensures Valid()
      ensures err == WriteError(old(State()), p) && State() == Written(old(State()), p, data)
    {
      OperationsKeepWellFormed(State(), p, data);
      err := WriteError(State(), p);
      if err.None? {
        files := files[p := data];
      }
    }

    /** `os.Remove(p)`. */
    method Remove(p: string) returns (err: Option<Error>)
      requires Valid()
      modifies this`files
      ensures Valid()
      ensures err == RemoveError(old(State()), p) && State() == Removed(old(State()), p)
    {
      err := RemoveError(State(), p);
      if err.None? {
        files := files - {p};
      }
    }
  }
}
