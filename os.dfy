/** The part of the host operating system the download uses: `os.MkdirAll`,
    `os.Create` and writing a response body into the created file. */
module Os {
  import opened Common

  /** The directories and regular files of the host, by path. */
  datatype Disk = Disk(dirs: set<Path>, files: map<Path, Bytes>)

  /** Failures the host can inject per path (permissions, a full disk, ...). */
  datatype Faults = Faults(mkdir: Path -> Option<Reason>, create: Path -> Option<Reason>, write: Path -> Option<Reason>)

  datatype DiskStep = DiskStep(disk: Disk, out: Outcome)

  function Parent(p: Path): Path
    requires p != []
  {
    p[..|p| - 1]
  }

  /** `p` is a directory; the empty path is the directory relative paths start from. */
  predicate IsDir(d: Disk, p: Path) {
    p == [] || p in d.dirs
  }

  /** The non-empty prefixes of `p`, `p` itself included: what `MkdirAll(p)` creates. */
  function Prefixes(p: Path): (r: set<Path>)
    ensures p != [] ==> p in r
    ensures forall q :: q in r ==> q != [] && |q| <= |p| && q == p[..|q|]
  {
    assert p[..|p|] == p;
    set k | 1 <= k <= |p| :: p[..k]
  }

  /** A well-formed tree: every directory's ancestors are directories, every
      file sits in a directory, and no path is both. */
  ghost predicate Valid(d: Disk) {
    (forall p :: p in d.dirs ==> p != [] && Prefixes(p) <= d.dirs) &&
    (forall f :: f in d.files ==> f != [] && f !in d.dirs && IsDir(d, Parent(f)))
  }

  /** The length of the longest prefix of `p` that is a file, 0 when there is
      none. In a well-formed tree at most one prefix is a file, and it is the
      path `os.MkdirAll` reports. */
  function FilePrefix(d: Disk, p: Path): (k: nat)
    ensures k <= |p|
    ensures k > 0 ==> p[..k] in d.files
    ensures forall j :: k < j <= |p| ==> p[..j] !in d.files
    decreases |p|
  {
    if p == [] then 0
    else if p in d.files then
      assert p[..|p|] == p;
      |p|
    else
      var q := p[..|p| - 1];
      var k := FilePrefix(d, q);
      assert forall j :: 0 <= j <= |q| ==> q[..j] == p[..j];
      assert p[..|p|] == p;
      k
  }

  /** `os.MkdirAll(p, 0755)`: nothing to do for an existing directory, an error
      naming the file that stands on the way, otherwise `p` and all its
      ancestors. */
  function AfterMkdirAll(f: Faults, d: Disk, p: Path): DiskStep {
    if IsDir(d, p) then DiskStep(d, Ok)
    else if FilePrefix(d, p) > 0 then
      DiskStep(d, Fail(PathError("mkdir", p[..FilePrefix(d, p)], NotADirectory)))
    else match f.mkdir(p)
      case Some(reason) => DiskStep(d, Fail(PathError("mkdir", p, reason)))
      case None => DiskStep(d.(dirs := d.dirs + Prefixes(p)), Ok)
  }

  /** `os.Create(p)`: creates `p`, or truncates it when it is a file, inside an
      existing directory; a file among the ancestors is reported before a
      missing directory. */
  function AfterCreate(f: Faults, d: Disk, p: Path): DiskStep {
    if IsDir(d, p) then DiskStep(d, Fail(PathError("open", p, IsADirectory)))
    else if FilePrefix(d, Parent(p)) > 0 then DiskStep(d, Fail(PathError("open", p, NotADirectory)))
    else if !IsDir(d, Parent(p)) then DiskStep(d, Fail(PathError("open", p, NoSuchFile)))
    else match f.create(p)
      case Some(reason) => DiskStep(d, Fail(PathError("open", p, reason)))
      case None => DiskStep(d.(files := d.files[p := []]), Ok)
  }

  /** `io.Copy` of a whole body into the file `p` that `os.Create` opened. */
  function AfterCopy(f: Faults, d: Disk, p: Path, body: Bytes): DiskStep {
    match f.write(p)
    case Some(reason) => DiskStep(d, Fail(PathError("write", p, reason)))
    case None => DiskStep(d.(files := d.files[p := body]), Ok)
  }

  /** No prefix of a directory is a file. */
  lemma DirHasNoFilePrefix(d: Disk, p: Path)
    requires Valid(d) && IsDir(d, p)
    ensures FilePrefix(d, p) == 0
  {
  }

  lemma PrefixesOfPrefix(p: Path, k: nat)
    requires 1 <= k <= |p|
    ensures Prefixes(p[..k]) <= Prefixes(p)
  {
    forall q | q in Prefixes(p[..k]) ensures q in Prefixes(p) {
      assert q == p[..|q|];
    }
  }

  /** MkdirAll leaves files alone; on failure nothing changes; on success `p`
      is a directory and at most `p` and its ancestors were added (exactly
      those, in a well-formed tree, which stays well formed). */
  lemma MkdirAllEffect(f: Faults, d: Disk, p: Path)
    ensures var r := AfterMkdirAll(f, d, p);
      r.disk.files == d.files &&
      (r.out.Fail? ==> r.disk == d) &&
      (r.out.Ok? ==> IsDir(r.disk, p) && d.dirs <= r.disk.dirs <= d.dirs + Prefixes(p))
    ensures Valid(d) ==> var r := AfterMkdirAll(f, d, p);
      Valid(r.disk) && (r.out.Ok? ==> r.disk.dirs == d.dirs + Prefixes(p))
  {
    var r := AfterMkdirAll(f, d, p);
    if !Valid(d) {
    } else if IsDir(d, p) {
      assert Prefixes(p) <= d.dirs;
    } else if r.out.Ok? {
      forall q | q in r.disk.dirs ensures q != [] && Prefixes(q) <= r.disk.dirs {
        if q in Prefixes(p) {
          PrefixesOfPrefix(p, |q|);
        }
      }
    }
  }

  /** Creating a directory that MkdirAll has just created succeeds and changes nothing. */
  lemma MkdirAllIdempotent(f: Faults, d: Disk, p: Path)
    requires AfterMkdirAll(f, d, p).out.Ok?
    ensures var once := AfterMkdirAll(f, d, p).disk;
      AfterMkdirAll(f, once, p) == DiskStep(once, Ok)
  {
  }

  /** Create only adds or truncates `p`, and keeps the tree well formed. */
  lemma CreateEffect(f: Faults, d: Disk, p: Path)
    requires Valid(d)
    ensures var r := AfterCreate(f, d, p);
      Valid(r.disk) && r.disk.dirs == d.dirs &&
      (r.out.Ok? ==> r.disk.files == d.files[p := []]) &&
      (r.out.Fail? ==> r.disk == d)
  {
  }

  /** Copy replaces the content of an existing file and keeps the tree well formed. */
  lemma CopyEffect(f: Faults, d: Disk, p: Path, body: Bytes)
    requires Valid(d) && p in d.files
    ensures var r := AfterCopy(f, d, p, body);
      Valid(r.disk) && r.disk.dirs == d.dirs &&
      (r.out.Ok? ==> r.disk.files == d.files[p := body]) &&
      (r.out.Fail? ==> r.disk == d)
  {
  }

  /** The host file system, changed in place by the three calls the download makes. */
  class FileSystem {
    var dirs: set<Path>
    var files: map<Path, Bytes>
    const faults: Faults

    function State(): Disk
      reads this
    {
      Disk(dirs, files)
    }

    constructor (d: Disk, faults: Faults)
      ensures State() == d && this.faults == faults
    {
      dirs, files := d.dirs, d.files;
      this.faults := faults;
    }

    method MkdirAll(p: Path) returns (err: Outcome)
      modifies this
      ensures DiskStep(State(), err) == AfterMkdirAll(faults, old(State()), p)
    {
      if p == [] || p in dirs {
        return Ok;
      }
      var k := FilePrefix(State(), p);
      if k > 0 {
        return Fail(PathError("mkdir", p[..k], NotADirectory));
      }
      match faults.mkdir(p) {
        case Some(reason) =>
          return Fail(PathError("mkdir", p, reason));
        case None =>
          dirs := dirs + Prefixes(p);
          return Ok;
      }
    }

    method Create(p: Path) returns (err: Outcome)
      modifies this
      ensures DiskStep(State(), err) == AfterCreate(faults, old(State()), p)
    {
      if p == [] || p in dirs {
        return Fail(PathError("open", p, IsADirectory));
      }
      var parent := Parent(p);
      if FilePrefix(State(), parent) > 0 {
        return Fail(PathError("open", p, NotADirectory));
      }
      if parent != [] && parent !in dirs {
        return Fail(PathError("open", p, NoSuchFile));
      }
      match faults.create(p) {
        case Some(reason) =>
          return Fail(PathError("open", p, reason));
        case None =>
          files := files[p := []];
          return Ok;
      }
    }

    method Copy(p: Path, body: Bytes) returns (err: Outcome)
      modifies this
      ensures DiskStep(State(), err) == AfterCopy(faults, old(State()), p, body)
    {
      match faults.write(p) {
        case Some(reason) =>
          return Fail(PathError("write", p, reason));
        case None =>
          files := files[p := body];
          return Ok;
      }
    }
  }
}
