/** What the download promises, proved about the functions of
    `CookbookDownload` (and so about the methods that are proved to agree
    with them). */
module CookbookDownloadProperties {
  import opened Common
  import opened Os
  import opened ChefClient
  import opened CookbookDownload

  // ------------------------------------------------------------------
  // Vocabulary

  /** The request `downloadCookbookFile` sends for `url`, if it can build one. */
  function SentFor(api: Api, url: string): seq<Call> {
    match api.newRequest("GET", url)
    case Success(request) => [Send(request)]
    case Failure(_) => []
  }

  /** The requests sent for `items`, in manifest order, when none fails. */
  function RequestsFor(api: Api, items: seq<CookbookItem>): seq<Call>
    decreases |items|
  {
    if items == [] then [] else SentFor(api, items[0].url) + RequestsFor(api, items[1..])
  }

  /** The paths the items of one category are written to. */
  function Dests(items: seq<CookbookItem>, dir: Path): set<Path>
    decreases |items|
  {
    if items == [] then {} else {dir + [items[0].name]} + Dests(items[1..], dir)
  }

  /** The paths the items of all of `cats` are written to. */
  function AllDests(m: Manifest, root: Path, cats: seq<Category>): set<Path>
    decreases |cats|
  {
    if cats == [] then {} else Dests(cats[0].Items(m), cats[0].Dir(root)) + AllDests(m, root, cats[1..])
  }

  /** The directories the non-empty categories of `cats` ask for, with their ancestors. */
  function NewDirs(m: Manifest, root: Path, cats: seq<Category>): set<Path>
    decreases |cats|
  {
    if cats == [] then {}
    else (if cats[0].Items(m) == [] then {} else Prefixes(cats[0].Dir(root))) + NewDirs(m, root, cats[1..])
  }

  predicate DistinctNames(items: seq<CookbookItem>) {
    forall i, j :: 0 <= i < j < |items| ==> items[i].name != items[j].name
  }

  predicate Distinct(cats: seq<Category>) {
    forall i, j :: 0 <= i < j < |cats| ==> cats[i] != cats[j]
  }

  /** Where a category stands in the table. */
  function Position(c: Category): nat {
    match c
    case RootFiles => 0
    case Files => 1
    case Templates => 2
    case Attributes => 3
    case Recipes => 4
    case Definitions => 5
    case Libraries => 6
    case Providers => 7
    case Resources => 8
  }

  /** `item` was downloaded into `dir`: its file holds exactly what the
      server serves for its URL, and creating and writing that file are
      not refused by the host. */
  predicate Written(e: Env, d: Disk, item: CookbookItem, dir: Path) {
    var p := dir + [item.name];
    p in d.files && Served(e.api, item.url) == Success(d.files[p]) &&
    e.faults.create(p).None? && e.faults.write(p).None?
  }

  predicate AllOk(outs: seq<Outcome>) {
    forall i :: 0 <= i < |outs| ==> outs[i].Ok?
  }

  // ------------------------------------------------------------------
  // Categories and their destinations

  lemma LabelsDiffer(c: Category, d: Category)
    requires c != d
    ensures c.Label() != d.Label()
  {
  }

  /** The table lists every category, each exactly once. */
  lemma CategoriesDistinct()
    ensures forall c: Category :: c in Categories
    ensures Distinct(Categories)
  {
    forall i | 0 <= i < |Categories| ensures Position(Categories[i]) == i {
      if i == 0 {} else if i == 1 {} else if i == 2 {} else if i == 3 {}
      else if i == 4 {} else if i == 5 {} else if i == 6 {} else if i == 7 {}
    }
    forall c: Category ensures c in Categories {
      assert Categories[Position(c)] == c;
    }
  }

  /** Root files go straight into the cookbook directory, every other
      category into its own subdirectory named after it, so no two
      categories share a destination directory. */
  lemma CategoryDirectories(cookbookPath: Path, c: Category, d: Category)
    ensures c == RootFiles ==> c.Dir(cookbookPath) == cookbookPath
    ensures c != RootFiles ==> c.Dir(cookbookPath) == cookbookPath + [c.Label()] && c.Label() != RootFiles.Label()
    ensures c != d ==> c.Dir(cookbookPath) != d.Dir(cookbookPath)
  {
    if c != d {
      LabelsDiffer(c, d);
      if c != RootFiles && d != RootFiles {
        assert c.Dir(cookbookPath)[|cookbookPath|] == c.Label();
        assert d.Dir(cookbookPath)[|cookbookPath|] == d.Label();
      }
    }
    if c != RootFiles {
      LabelsDiffer(c, RootFiles);
    }
  }

  lemma DestsAreChildren(items: seq<CookbookItem>, dir: Path, q: Path)
    requires q in Dests(items, dir)
    ensures |q| == |dir| + 1 && q[..|dir|] == dir
    decreases |items|
  {
    if q != dir + [items[0].name] {
      DestsAreChildren(items[1..], dir, q);
    }
  }

  lemma {:induction false} DestIn(items: seq<CookbookItem>, dir: Path, item: CookbookItem)
    requires item in items
    ensures dir + [item.name] in Dests(items, dir)
    decreases |items|
  {
    if items[0] != item {
      DestIn(items[1..], dir, item);
    }
  }

  /** Two categories never write to the same path. */
  lemma DestsOfDistinctCategories(m: Manifest, root: Path, c: Category, d: Category, q: Path)
    requires c != d && q in Dests(c.Items(m), c.Dir(root))
    ensures q !in Dests(d.Items(m), d.Dir(root))
  {
    DestsAreChildren(c.Items(m), c.Dir(root), q);
    CategoryDirectories(root, c, d);
    if q in Dests(d.Items(m), d.Dir(root)) {
      DestsAreChildren(d.Items(m), d.Dir(root), q);
    }
  }

  lemma {:induction false} DestsOfOtherCategories(m: Manifest, root: Path, c: Category, cats: seq<Category>, q: Path)
    requires c !in cats && q in Dests(c.Items(m), c.Dir(root))
    ensures q !in AllDests(m, root, cats)
    decreases |cats|
  {
    if cats != [] {
      DestsOfDistinctCategories(m, root, c, cats[0], q);
      DestsOfOtherCategories(m, root, c, cats[1..], q);
    }
  }

  // ------------------------------------------------------------------
  // Maps

  lemma SubtractMore(m1: map<Path, Bytes>, m2: map<Path, Bytes>, a: set<Path>, b: set<Path>)
    requires a <= b && m1 - a == m2 - a
    ensures m1 - b == m2 - b
  {
    forall k | k in m1 - b ensures k in m2 - b && (m1 - b)[k] == (m2 - b)[k] {
      assert k in m1 - a;
    }
    forall k | k in m2 - b ensures k in m1 - b {
      assert k in m2 - a;
    }
  }

  /** What `Written` says survives any change away from the item's path. */
  lemma WrittenKept(e: Env, d: Disk, d': Disk, item: CookbookItem, dir: Path, away: set<Path>)
    requires Written(e, d, item, dir)
    requires dir + [item.name] !in away && d'.files - away == d.files - away
    ensures Written(e, d', item, dir)
  {
    var p := dir + [item.name];
    assert p in d.files - away;
  }

  // ------------------------------------------------------------------
  // downloadCookbookFile

  /** One file download: a request that cannot be built or executed leaves
      the disk as it was and returns that error; a file that cannot be
      created leaves the disk as it was and returns the error of `Create`;
      otherwise only `file` is touched, and on success it holds exactly the
      body served, replacing what was there; a failed copy returns the
      write error and leaves the file created but empty. Nothing is
      deleted and the tree stays well formed. */
  lemma FetchFileEffect(e: Env, w: World, url: string, file: Path)
    ensures var s := FetchFile(e, w, url, file);
      s.world.disk.dirs == w.disk.dirs &&
      s.world.disk.files - {file} == w.disk.files - {file} &&
      w.disk.files.Keys <= s.world.disk.files.Keys &&
      s.world.calls == w.calls + SentFor(e.api, url)
    ensures var s := FetchFile(e, w, url, file);
      Served(e.api, url).Failure? ==> s.world.disk == w.disk && s.out == Fail(Served(e.api, url).error)
    ensures var s := FetchFile(e, w, url, file);
      s.out.Ok? <==> Served(e.api, url).Success? && AfterCreate(e.faults, w.disk, file).out.Ok? && e.faults.write(file).None?
    ensures var s := FetchFile(e, w, url, file);
      s.out.Ok? ==> s.world.disk.files == w.disk.files[file := Served(e.api, url).value] &&
                    e.faults.create(file).None?
    ensures var s := FetchFile(e, w, url, file);
      Served(e.api, url).Success? && AfterCreate(e.faults, w.disk, file).out.Ok? && e.faults.write(file).Some? ==>
        s.world.disk.files == w.disk.files[file := []]
    ensures var s := FetchFile(e, w, url, file);
      Served(e.api, url).Success? && AfterCreate(e.faults, w.disk, file).out.Fail? ==>
        s.out == AfterCreate(e.faults, w.disk, file).out && s.world.disk == w.disk
    ensures var s := FetchFile(e, w, url, file);
      Served(e.api, url).Success? && AfterCreate(e.faults, w.disk, file).out.Ok? && e.faults.write(file).Some? ==>
        s.out == Fail(PathError("write", file, e.faults.write(file).value))
    ensures Valid(w.disk) ==> Valid(FetchFile(e, w, url, file).world.disk)
  {
    if Valid(w.disk) {
      CreateEffect(e.faults, w.disk, file);
      var created := AfterCreate(e.faults, w.disk, file);
      if Served(e.api, url).Success? && created.out.Ok? {
        CopyEffect(e.faults, created.disk, file, Served(e.api, url).value);
      }
    }
  }

  // ------------------------------------------------------------------
  // The item loop of downloadCookbookItems

  /** The item loop touches only its items' paths, deletes nothing, creates
      no directory, only adds requests and keeps the tree well formed. */
  lemma {:induction false} FetchEachFrame(e: Env, w: World, items: seq<CookbookItem>, dir: Path)
    ensures var s := FetchEach(e, w, items, dir);
      s.world.disk.dirs == w.disk.dirs &&
      s.world.disk.files - Dests(items, dir) == w.disk.files - Dests(items, dir) &&
      w.disk.files.Keys <= s.world.disk.files.Keys &&
      w.calls <= s.world.calls &&
      (Valid(w.disk) ==> Valid(s.world.disk))
    decreases |items|
  {
    if items != [] {
      var p := dir + [items[0].name];
      var s := FetchFile(e, w, items[0].url, p);
      FetchFileEffect(e, w, items[0].url, p);
      SubtractMore(s.world.disk.files, w.disk.files, {p}, Dests(items, dir));
      if s.out.Ok? {
        FetchEachFrame(e, s.world, items[1..], dir);
        var t := FetchEach(e, s.world, items[1..], dir);
        SubtractMore(t.world.disk.files, s.world.disk.files, Dests(items[1..], dir), Dests(items, dir));
      }
    }
  }

  /** Running `xs + ys` is running `xs`, then `ys` only if `xs` succeeded. */
  lemma {:induction false} FetchEachSplit(e: Env, w: World, xs: seq<CookbookItem>, ys: seq<CookbookItem>, dir: Path)
    ensures FetchEach(e, w, xs + ys, dir) ==
      var s := FetchEach(e, w, xs, dir);
      if s.out.Fail? then s else FetchEach(e, s.world, ys, dir)
    decreases |xs|
  {
    if xs == [] {
      assert xs + ys == ys;
    } else {
      assert (xs + ys)[0] == xs[0] && (xs + ys)[1..] == xs[1..] + ys;
      var s := FetchFile(e, w, xs[0].url, dir + [xs[0].name]);
      if s.out.Ok? {
        FetchEachSplit(e, s.world, xs[1..], ys, dir);
      }
    }
  }

  /** At the first item that fails, the loop stops with that item's error,
      unchanged: the items after it are never requested, and the files of
      the items before it stay written. */
  lemma FirstFailingItem(e: Env, w: World, items: seq<CookbookItem>, dir: Path, k: nat)
    requires k < |items|
    requires FetchEach(e, w, items[..k], dir).out.Ok?
    requires var before := FetchEach(e, w, items[..k], dir).world;
      FetchFile(e, before, items[k].url, dir + [items[k].name]).out.Fail?
    ensures var before := FetchEach(e, w, items[..k], dir).world;
      FetchEach(e, w, items, dir) == FetchFile(e, before, items[k].url, dir + [items[k].name])
    ensures var before := FetchEach(e, w, items[..k], dir).world;
      FetchEach(e, w, items, dir).world.calls == before.calls + SentFor(e.api, items[k].url) &&
      before.disk.files.Keys <= FetchEach(e, w, items, dir).world.disk.files.Keys
  {
    assert items == items[..k] + items[k..];
    FetchEachSplit(e, w, items[..k], items[k..], dir);
    var before := FetchEach(e, w, items[..k], dir).world;
    assert items[k..][0] == items[k];
    FetchFileEffect(e, before, items[k].url, dir + [items[k].name]);
  }

  /** A successful loop has sent one request per item, in manifest order. */
  lemma {:induction false} FetchEachRequests(e: Env, w: World, items: seq<CookbookItem>, dir: Path)
    requires FetchEach(e, w, items, dir).out.Ok?
    ensures FetchEach(e, w, items, dir).world.calls == w.calls + RequestsFor(e.api, items)
    decreases |items|
  {
    if items != [] {
      var s := FetchFile(e, w, items[0].url, dir + [items[0].name]);
      FetchFileEffect(e, w, items[0].url, dir + [items[0].name]);
      FetchEachRequests(e, s.world, items[1..], dir);
    }
  }

  /** After a successful loop over items with distinct names, every item's
      file holds exactly the body served for its URL. */
  lemma {:induction false} FetchEachContents(e: Env, w: World, items: seq<CookbookItem>, dir: Path)
    requires DistinctNames(items)
    requires FetchEach(e, w, items, dir).out.Ok?
    ensures forall item :: item in items ==> Written(e, FetchEach(e, w, items, dir).world.disk, item, dir)
    decreases |items|
  {
    if items != [] {
      var p := dir + [items[0].name];
      var s := FetchFile(e, w, items[0].url, p);
      FetchFileEffect(e, w, items[0].url, p);
      var t := FetchEach(e, s.world, items[1..], dir);
      FetchEachContents(e, s.world, items[1..], dir);
      FetchEachFrame(e, s.world, items[1..], dir);
      if p in Dests(items[1..], dir) {
        DestInNames(items[1..], dir, p);
      }
      assert Written(e, s.world.disk, items[0], dir);
      WrittenKept(e, s.world.disk, t.world.disk, items[0], dir, Dests(items[1..], dir));
      forall item | item in items ensures Written(e, t.world.disk, item, dir) {
        if item != items[0] {
          assert item in items[1..];
        }
      }
    }
  }

  lemma {:induction false} DestInNames(items: seq<CookbookItem>, dir: Path, q: Path)
    requires q in Dests(items, dir)
    ensures exists j :: 0 <= j < |items| && q == dir + [items[j].name] && items[j].name == q[|dir|]
    decreases |items|
  {
    if q != dir + [items[0].name] {
      DestInNames(items[1..], dir, q);
      var j :| 0 <= j < |items[1..]| && q == dir + [items[1..][j].name] && items[1..][j].name == q[|dir|];
      assert items[j + 1] == items[1..][j];
    } else {
      assert q[|dir|] == items[0].name;
    }
  }

  // ------------------------------------------------------------------
  // downloadCookbookItems

  /** An empty category returns nil at once: no directory, no request, no file. */
  lemma EmptyCategorySkipped(e: Env, w: World, dir: Path)
    ensures DownloadItems(e, w, [], dir) == Step(w, Ok)
  {
  }

  /** A non-empty category first creates its directory: if that fails the
      error is returned and nothing is requested; otherwise the directory
      exists before the first item is fetched. */
  lemma DirectoryBeforeItems(e: Env, w: World, items: seq<CookbookItem>, dir: Path)
    requires items != []
    ensures var made := AfterMkdirAll(e.faults, w.disk, dir);
      (made.out.Fail? ==> DownloadItems(e, w, items, dir) == Step(w, made.out)) &&
      (made.out.Ok? ==> IsDir(made.disk, dir) && made.disk.files == w.disk.files &&
                        DownloadItems(e, w, items, dir) == FetchEach(e, World(made.disk, w.calls), items, dir))
  {
    MkdirAllEffect(e.faults, w.disk, dir);
  }

  /** A category download touches only its items' paths, deletes nothing,
      only adds requests, adds at most its directory and that directory's
      ancestors (exactly those on success in a well-formed tree) and keeps
      the tree well formed. */
  lemma DownloadItemsFrame(e: Env, w: World, items: seq<CookbookItem>, dir: Path)
    ensures var s := DownloadItems(e, w, items, dir);
      var added := if items == [] then {} else Prefixes(dir);
      w.disk.dirs <= s.world.disk.dirs <= w.disk.dirs + added &&
      s.world.disk.files - Dests(items, dir) == w.disk.files - Dests(items, dir) &&
      w.disk.files.Keys <= s.world.disk.files.Keys &&
      w.calls <= s.world.calls
    ensures Valid(w.disk) ==> var s := DownloadItems(e, w, items, dir);
      Valid(s.world.disk) &&
      (s.out.Ok? && items != [] ==> s.world.disk.dirs == w.disk.dirs + Prefixes(dir))
  {
    if items != [] {
      MkdirAllEffect(e.faults, w.disk, dir);
      var made := AfterMkdirAll(e.faults, w.disk, dir);
      if made.out.Ok? {
        FetchEachFrame(e, World(made.disk, w.calls), items, dir);
      }
    }
  }

  // ------------------------------------------------------------------
  // The nine categories of DownloadCookbookAt

  /** Every category runs, whatever the earlier ones returned: one result
      per category; between them they touch only their items' paths,
      delete nothing, only add requests, add only the directories the
      non-empty categories ask for (exactly those when all succeed in a
      well-formed tree) and keep the tree well formed. */
  lemma {:induction false} RunAllFrame(e: Env, w: World, m: Manifest, root: Path, cats: seq<Category>)
    ensures var b := RunAll(e, w, m, root, cats);
      |b.outs| == |cats| &&
      w.disk.dirs <= b.world.disk.dirs <= w.disk.dirs + NewDirs(m, root, cats) &&
      b.world.disk.files - AllDests(m, root, cats) == w.disk.files - AllDests(m, root, cats) &&
      w.disk.files.Keys <= b.world.disk.files.Keys &&
      w.calls <= b.world.calls
    ensures Valid(w.disk) ==> var b := RunAll(e, w, m, root, cats);
      Valid(b.world.disk) && (AllOk(b.outs) ==> b.world.disk.dirs == w.disk.dirs + NewDirs(m, root, cats))
    decreases |cats|
  {
    if cats != [] {
      var c := cats[0];
      var s := DownloadItems(e, w, c.Items(m), c.Dir(root));
      DownloadItemsFrame(e, w, c.Items(m), c.Dir(root));
      RunAllFrame(e, s.world, m, root, cats[1..]);
      var b := RunAll(e, s.world, m, root, cats[1..]);
      SubtractMore(s.world.disk.files, w.disk.files, Dests(c.Items(m), c.Dir(root)), AllDests(m, root, cats));
      SubtractMore(b.world.disk.files, s.world.disk.files, AllDests(m, root, cats[1..]), AllDests(m, root, cats));
      if AllOk(([s.out] + b.outs)) {
        assert s.out == ([s.out] + b.outs)[0];
        assert forall i :: 0 <= i < |b.outs| ==> b.outs[i] == ([s.out] + b.outs)[i + 1];
      }
    }
  }

  /** When every category of a duplicate-free list succeeds, and no
      category lists two items of the same name, every item of every
      category holds exactly the body served for its URL. */
  lemma {:induction false} RunAllContents(e: Env, w: World, m: Manifest, root: Path, cats: seq<Category>)
    requires Distinct(cats)
    requires forall c :: c in cats ==> DistinctNames(c.Items(m))
    requires AllOk(RunAll(e, w, m, root, cats).outs)
    ensures forall c, item :: c in cats && item in c.Items(m) ==>
      Written(e, RunAll(e, w, m, root, cats).world.disk, item, c.Dir(root))
    decreases |cats|
  {
    if cats != [] {
      var c := cats[0];
      var s := DownloadItems(e, w, c.Items(m), c.Dir(root));
      var b := RunAll(e, s.world, m, root, cats[1..]);
      assert s.out == RunAll(e, w, m, root, cats).outs[0];
      assert forall i :: 0 <= i < |b.outs| ==> b.outs[i] == RunAll(e, w, m, root, cats).outs[i + 1];
      RunAllContents(e, s.world, m, root, cats[1..]);
      RunAllFrame(e, s.world, m, root, cats[1..]);
      if c.Items(m) != [] {
        var made := AfterMkdirAll(e.faults, w.disk, c.Dir(root));
        FetchEachContents(e, World(made.disk, w.calls), c.Items(m), c.Dir(root));
      }
      forall d, item | d in cats && item in d.Items(m) ensures Written(e, b.world.disk, item, d.Dir(root)) {
        if d == c {
          DestIn(c.Items(m), c.Dir(root), item);
          DestsOfOtherCategories(m, root, c, cats[1..], c.Dir(root) + [item.name]);
          WrittenKept(e, s.world.disk, b.world.disk, item, c.Dir(root), AllDests(m, root, cats[1..]));
        } else {
          assert d in cats[1..];
        }
      }
    }
  }

  /** Splitting the category list: the later categories run on whatever
      world the earlier ones left. */
  lemma {:induction false} RunAllSplit(e: Env, w: World, m: Manifest, root: Path, xs: seq<Category>, ys: seq<Category>)
    ensures var a := RunAll(e, w, m, root, xs);
      var b := RunAll(e, a.world, m, root, ys);
      RunAll(e, w, m, root, xs + ys) == Batch(b.world, a.outs + b.outs)
    decreases |xs|
  {
    if xs == [] {
      assert xs + ys == ys;
    } else {
      assert (xs + ys)[0] == xs[0] && (xs + ys)[1..] == xs[1..] + ys;
      var s := DownloadItems(e, w, xs[0].Items(m), xs[0].Dir(root));
      RunAllSplit(e, s.world, m, root, xs[1..], ys);
      var a := RunAll(e, s.world, m, root, xs[1..]);
      var b := RunAll(e, a.world, m, root, ys);
      assert [s.out] + (a.outs + b.outs) == ([s.out] + a.outs) + b.outs;
    }
  }

  lemma {:induction false} FirstErrorSplit(xs: seq<Outcome>, ys: seq<Outcome>)
    ensures FirstError(xs + ys) == if FirstError(xs).Fail? then FirstError(xs) else FirstError(ys)
    decreases |xs|
  {
    if xs == [] {
      assert xs + ys == ys;
    } else {
      assert (xs + ys)[0] == xs[0] && (xs + ys)[1..] == xs[1..] + ys;
      FirstErrorSplit(xs[1..], ys);
    }
  }

  lemma {:induction false} NewDirsHasDir(m: Manifest, root: Path, cats: seq<Category>, c: Category)
    requires c in cats && c.Items(m) != []
    ensures Prefixes(c.Dir(root)) <= NewDirs(m, root, cats)
    decreases |cats|
  {
    if cats[0] != c {
      NewDirsHasDir(m, root, cats[1..], c);
    }
  }

  /** A subdirectory of an empty category is not among the directories any
      other category creates. */
  lemma {:induction false} NewDirsSkipEmpty(m: Manifest, root: Path, cats: seq<Category>, c: Category)
    requires c != RootFiles && c.Items(m) == []
    ensures c.Dir(root) !in NewDirs(m, root, cats)
    decreases |cats|
  {
    if cats != [] {
      NewDirsSkipEmpty(m, root, cats[1..], c);
      var d := cats[0];
      if d.Items(m) != [] && c.Dir(root) in Prefixes(d.Dir(root)) {
        CategoryDirectories(root, c, d);
        CategoryDirectories(root, d, c);
      }
    }
  }

  // ------------------------------------------------------------------
  // DownloadCookbookAt

  /** The manifest is asked for under the rewritten version, before anything else. */
  lemma LooksUpResolvedVersion(e: Env, w: World, name: string, version: string, localDir: Path)
    ensures w.calls + [VersionLookup(name, ResolveVersion(version))] <= Download(e, w, name, version, localDir).world.calls
  {
    var v := ResolveVersion(version);
    var looked := World(w.disk, w.calls + [VersionLookup(name, v)]);
    if e.api.getVersion(name, v).Success? {
      var m := e.api.getVersion(name, v).value;
      RunAllFrame(e, looked, m, localDir + [m.name], Categories);
    }
  }

  /** A failed manifest lookup is returned as it is, and nothing else happens:
      no directory, no file, no further request. */
  lemma LookupFailure(e: Env, w: World, name: string, version: string, localDir: Path)
    requires e.api.getVersion(name, ResolveVersion(version)).Failure?
    ensures Download(e, w, name, version, localDir) ==
      Step(World(w.disk, w.calls + [VersionLookup(name, ResolveVersion(version))]),
           Fail(e.api.getVersion(name, ResolveVersion(version)).error))
  {
  }

  /** All nine categories run: when category `i` is the first to fail, its
      error is returned, unchanged, and the categories after it still run
      on the world it left. */
  lemma FirstFailingCategory(e: Env, w: World, name: string, version: string, localDir: Path, m: Manifest, i: nat)
    requires e.api.getVersion(name, ResolveVersion(version)) == Success(m)
    requires i < |Categories|
    requires var looked := World(w.disk, w.calls + [VersionLookup(name, ResolveVersion(version))]);
      AllOk(RunAll(e, looked, m, localDir + [m.name], Categories[..i]).outs)
    requires var looked := World(w.disk, w.calls + [VersionLookup(name, ResolveVersion(version))]);
      var before := RunAll(e, looked, m, localDir + [m.name], Categories[..i]).world;
      DownloadItems(e, before, Categories[i].Items(m), Categories[i].Dir(localDir + [m.name])).out.Fail?
    ensures var looked := World(w.disk, w.calls + [VersionLookup(name, ResolveVersion(version))]);
      var root := localDir + [m.name];
      var before := RunAll(e, looked, m, root, Categories[..i]).world;
      var s := DownloadItems(e, before, Categories[i].Items(m), Categories[i].Dir(root));
      Download(e, w, name, version, localDir) == Step(RunAll(e, s.world, m, root, Categories[i + 1..]).world, s.out)
  {
    var looked := World(w.disk, w.calls + [VersionLookup(name, ResolveVersion(version))]);
    RunAllFirstFailure(e, looked, m, localDir + [m.name], Categories, i);
  }

  /** `FirstFailingCategory` for any table of categories. */
  lemma RunAllFirstFailure(e: Env, w: World, m: Manifest, root: Path, cats: seq<Category>, i: nat)
    requires i < |cats|
    requires AllOk(RunAll(e, w, m, root, cats[..i]).outs)
    requires DownloadItems(e, RunAll(e, w, m, root, cats[..i]).world, cats[i].Items(m), cats[i].Dir(root)).out.Fail?
    ensures var s := DownloadItems(e, RunAll(e, w, m, root, cats[..i]).world, cats[i].Items(m), cats[i].Dir(root));
      var all := RunAll(e, w, m, root, cats);
      all.world == RunAll(e, s.world, m, root, cats[i + 1..]).world && FirstError(all.outs) == s.out
  {
    var a := RunAll(e, w, m, root, cats[..i]);
    var s := DownloadItems(e, a.world, cats[i].Items(m), cats[i].Dir(root));
    var rest := RunAll(e, s.world, m, root, cats[i + 1..]);
    RunAllAround(e, w, m, root, cats, i);
    FirstErrorSplit(a.outs, [s.out] + rest.outs);
    assert ([s.out] + rest.outs)[0] == s.out;
  }

  /** The whole table is the categories before `i`, category `i`, and the
      categories after it, each part run on the world the previous left. */
  lemma RunAllAround(e: Env, w: World, m: Manifest, root: Path, cats: seq<Category>, i: nat)
    requires i < |cats|
    ensures var a := RunAll(e, w, m, root, cats[..i]);
      var s := DownloadItems(e, a.world, cats[i].Items(m), cats[i].Dir(root));
      var rest := RunAll(e, s.world, m, root, cats[i + 1..]);
      RunAll(e, w, m, root, cats) == Batch(rest.world, a.outs + ([s.out] + rest.outs))
  {
    var a := RunAll(e, w, m, root, cats[..i]);
    assert cats == cats[..i] + cats[i..];
    RunAllSplit(e, w, m, root, cats[..i], cats[i..]);
    RunAllFrom(e, a.world, m, root, cats, i);
  }

  /** Categories with no items change nothing and all return nil. */
  lemma {:induction false} RunAllEmpty(e: Env, w: World, m: Manifest, root: Path, cats: seq<Category>)
    requires forall c :: c in cats ==> c.Items(m) == []
    ensures RunAll(e, w, m, root, cats).world == w && AllOk(RunAll(e, w, m, root, cats).outs)
    decreases |cats|
  {
    if cats != [] {
      assert cats[0] in cats;
      forall c | c in cats[1..] ensures c.Items(m) == [] {
        assert c in cats;
      }
      RunAllEmpty(e, w, m, root, cats[1..]);
    }
  }

  /** A cookbook whose manifest lists no item at all downloads without an
      error, and the only trace it leaves is the version lookup. */
  lemma EmptyCookbookDownload(e: Env, w: World, name: string, version: string, localDir: Path, m: Manifest)
    requires e.api.getVersion(name, ResolveVersion(version)) == Success(m)
    requires forall c :: c in Categories ==> c.Items(m) == []
    ensures Download(e, w, name, version, localDir) ==
      Step(World(w.disk, w.calls + [VersionLookup(name, ResolveVersion(version))]), Ok)
  {
    var looked := World(w.disk, w.calls + [VersionLookup(name, ResolveVersion(version))]);
    RunAllEmpty(e, looked, m, localDir + [m.name], Categories);
  }

  /** The directories after a download: the old ones, plus at most the
      cookbook directory, the subdirectories of the non-empty categories
      and their ancestors; exactly those after a successful download into a
      well-formed tree, which stays well formed whatever happens. */
  lemma DownloadDirectories(e: Env, w: World, name: string, version: string, localDir: Path)
    ensures var r := Download(e, w, name, version, localDir);
      var lookup := e.api.getVersion(name, ResolveVersion(version));
      lookup.Failure? ==> r.world.disk == w.disk
    ensures var r := Download(e, w, name, version, localDir);
      var lookup := e.api.getVersion(name, ResolveVersion(version));
      lookup.Success? ==>
        var expected := NewDirs(lookup.value, localDir + [lookup.value.name], Categories);
        w.disk.dirs <= r.world.disk.dirs <= w.disk.dirs + expected &&
        w.disk.files.Keys <= r.world.disk.files.Keys &&
        (Valid(w.disk) && r.out.Ok? ==> r.world.disk.dirs == w.disk.dirs + expected)
    ensures Valid(w.disk) ==> Valid(Download(e, w, name, version, localDir).world.disk)
  {
    var v := ResolveVersion(version);
    var looked := World(w.disk, w.calls + [VersionLookup(name, v)]);
    if e.api.getVersion(name, v).Success? {
      var m := e.api.getVersion(name, v).value;
      RunAllFrame(e, looked, m, localDir + [m.name], Categories);
    }
  }

  /** An empty category other than the root files never gets its
      subdirectory, even when its siblings are downloaded. */
  lemma EmptyCategoryGetsNoDirectory(e: Env, w: World, name: string, version: string, localDir: Path, m: Manifest, c: Category)
    requires e.api.getVersion(name, ResolveVersion(version)) == Success(m)
    requires c != RootFiles && c.Items(m) == []
    ensures var dir := c.Dir(localDir + [m.name]);
      dir in Download(e, w, name, version, localDir).world.disk.dirs <==> dir in w.disk.dirs
  {
    DownloadDirectories(e, w, name, version, localDir);
    NewDirsSkipEmpty(m, localDir + [m.name], Categories, c);
  }

  /** After a successful download, every item of every category is in its
      place (root files in the cookbook directory, the others in their
      category's subdirectory) and holds exactly the body served for its URL,
      provided no category lists two items of the same name. */
  lemma DownloadWritesEveryItem(e: Env, w: World, name: string, version: string, localDir: Path, m: Manifest)
    requires e.api.getVersion(name, ResolveVersion(version)) == Success(m)
    requires forall c :: c in Categories ==> DistinctNames(c.Items(m))
    requires Download(e, w, name, version, localDir).out.Ok?
    ensures forall c, item :: c in Categories && item in c.Items(m) ==>
      Written(e, Download(e, w, name, version, localDir).world.disk, item, c.Dir(localDir + [m.name]))
  {
    var looked := World(w.disk, w.calls + [VersionLookup(name, ResolveVersion(version))]);
    CategoriesDistinct();
    RunAllContents(e, looked, m, localDir + [m.name], Categories);
  }

  // ------------------------------------------------------------------
  // The files a successful download leaves

  /** The body written for `url`: what the server serves, or nothing. */
  function Body(api: Api, url: string): Bytes {
    match Served(api, url)
    case Success(body) => body
    case Failure(_) => []
  }

  /** The files a successful item loop writes into `dir`: each destination
      holds the body of the last item of that name. */
  function Writes(api: Api, items: seq<CookbookItem>, dir: Path): map<Path, Bytes>
    decreases |items|
  {
    if items == [] then map[]
    else map[dir + [items[0].name] := Body(api, items[0].url)] + Writes(api, items[1..], dir)
  }

  /** The files the categories `cats` write, later categories winning. */
  function AllWrites(api: Api, m: Manifest, root: Path, cats: seq<Category>): map<Path, Bytes>
    decreases |cats|
  {
    if cats == [] then map[]
    else Writes(api, cats[0].Items(m), cats[0].Dir(root)) + AllWrites(api, m, root, cats[1..])
  }

  lemma MapUnionAssoc(a: map<Path, Bytes>, b: map<Path, Bytes>, c: map<Path, Bytes>)
    ensures (a + b) + c == a + (b + c)
  {
  }

  /** Writing the same files twice is writing them once. */
  lemma MapUnionTwice(a: map<Path, Bytes>, b: map<Path, Bytes>)
    ensures (a + b) + b == a + b
  {
  }

  /** A successful item loop changes no directory and leaves exactly the old
      files overwritten by `Writes`. */
  lemma {:induction false} FetchEachFiles(e: Env, w: World, items: seq<CookbookItem>, dir: Path)
    requires FetchEach(e, w, items, dir).out.Ok?
    ensures FetchEach(e, w, items, dir).world.disk == Disk(w.disk.dirs, w.disk.files + Writes(e.api, items, dir))
    decreases |items|
  {
    if items == [] {
      assert w.disk.files + map[] == w.disk.files;
    } else {
      var p := dir + [items[0].name];
      var s := FetchFile(e, w, items[0].url, p);
      FetchFileOk(e, w, items[0].url, p);
      FetchEachFiles(e, s.world, items[1..], dir);
      UpdateThenUnion(w.disk.files, p, Body(e.api, items[0].url), Writes(e.api, items[1..], dir));
    }
  }

  /** A successful file download changes only that file, to the body served. */
  lemma FetchFileOk(e: Env, w: World, url: string, file: Path)
    requires FetchFile(e, w, url, file).out.Ok?
    ensures FetchFile(e, w, url, file).world ==
      World(Disk(w.disk.dirs, w.disk.files[file := Body(e.api, url)]), w.calls + SentFor(e.api, url))
  {
    FetchFileEffect(e, w, url, file);
  }

  lemma UpdateThenUnion(f: map<Path, Bytes>, p: Path, b: Bytes, rest: map<Path, Bytes>)
    ensures f[p := b] + rest == f + (map[p := b] + rest)
  {
    assert f[p := b] == f + map[p := b];
    MapUnionAssoc(f, map[p := b], rest);
  }

  /** When every category succeeds, the files are exactly the old ones
      overwritten by `AllWrites`. */
  lemma {:induction false} RunAllFiles(e: Env, w: World, m: Manifest, root: Path, cats: seq<Category>)
    requires AllOk(RunAll(e, w, m, root, cats).outs)
    ensures RunAll(e, w, m, root, cats).world.disk.files == w.disk.files + AllWrites(e.api, m, root, cats)
    decreases |cats|
  {
    if cats == [] {
      assert w.disk.files + map[] == w.disk.files;
    } else {
      var c := cats[0];
      var s := DownloadItems(e, w, c.Items(m), c.Dir(root));
      var b := RunAll(e, s.world, m, root, cats[1..]);
      assert s.out == RunAll(e, w, m, root, cats).outs[0];
      assert forall i :: 0 <= i < |b.outs| ==> b.outs[i] == RunAll(e, w, m, root, cats).outs[i + 1];
      if c.Items(m) == [] {
        assert w.disk.files + map[] == w.disk.files;
      } else {
        MkdirAllEffect(e.faults, w.disk, c.Dir(root));
        var made := AfterMkdirAll(e.faults, w.disk, c.Dir(root));
        FetchEachFiles(e, World(made.disk, w.calls), c.Items(m), c.Dir(root));
      }
      RunAllFiles(e, s.world, m, root, cats[1..]);
      MapUnionAssoc(w.disk.files, Writes(e.api, c.Items(m), c.Dir(root)), AllWrites(e.api, m, root, cats[1..]));
    }
  }

  /** After a successful download the directories are the old ones plus
      those of the non-empty categories, and the files are the old ones
      overwritten by what the nine categories write, in table order. */
  lemma DownloadFiles(e: Env, w: World, name: string, version: string, localDir: Path, m: Manifest)
    requires Valid(w.disk)
    requires e.api.getVersion(name, ResolveVersion(version)) == Success(m)
    requires Download(e, w, name, version, localDir).out.Ok?
    ensures var root := localDir + [m.name];
      Download(e, w, name, version, localDir).world.disk ==
        Disk(w.disk.dirs + NewDirs(m, root, Categories), w.disk.files + AllWrites(e.api, m, root, Categories))
  {
    var looked := World(w.disk, w.calls + [VersionLookup(name, ResolveVersion(version))]);
    RunAllFiles(e, looked, m, localDir + [m.name], Categories);
    DownloadDirectories(e, w, name, version, localDir);
  }

  // ------------------------------------------------------------------
  // Downloading again

  /** `item` was fetched into `dir`: its file exists, the server serves its
      URL, and the host accepts creating and writing the file. */
  predicate Fetched(e: Env, d: Disk, item: CookbookItem, dir: Path) {
    var p := dir + [item.name];
    p in d.files && Served(e.api, item.url).Success? && e.faults.create(p).None? && e.faults.write(p).None?
  }

  /** `item` can be fetched into `dir` among the directories `dirs`: the
      server serves it, its path is no directory, and the host accepts
      creating and writing it. */
  predicate Fetchable(e: Env, dirs: set<Path>, item: CookbookItem, dir: Path) {
    var p := dir + [item.name];
    p !in dirs && Served(e.api, item.url).Success? && e.faults.create(p).None? && e.faults.write(p).None?
  }

  /** After a successful item loop every item was fetched. */
  lemma {:induction false} FetchEachFetched(e: Env, w: World, items: seq<CookbookItem>, dir: Path)
    requires FetchEach(e, w, items, dir).out.Ok?
    ensures forall item :: item in items ==> Fetched(e, FetchEach(e, w, items, dir).world.disk, item, dir)
    decreases |items|
  {
    if items != [] {
      var p := dir + [items[0].name];
      var s := FetchFile(e, w, items[0].url, p);
      FetchFileEffect(e, w, items[0].url, p);
      FetchEachFetched(e, s.world, items[1..], dir);
      FetchEachFrame(e, s.world, items[1..], dir);
      forall item | item in items ensures Fetched(e, FetchEach(e, w, items, dir).world.disk, item, dir) {
        if item != items[0] {
          assert item in items[1..];
        }
      }
    }
  }

  /** After every category succeeded, every item of every category was fetched. */
  lemma {:induction false} RunAllFetched(e: Env, w: World, m: Manifest, root: Path, cats: seq<Category>)
    requires AllOk(RunAll(e, w, m, root, cats).outs)
    ensures forall c, item :: c in cats && item in c.Items(m) ==>
      Fetched(e, RunAll(e, w, m, root, cats).world.disk, item, c.Dir(root))
    decreases |cats|
  {
    if cats != [] {
      var c := cats[0];
      var s := DownloadItems(e, w, c.Items(m), c.Dir(root));
      var b := RunAll(e, s.world, m, root, cats[1..]);
      assert s.out == RunAll(e, w, m, root, cats).outs[0];
      assert forall i :: 0 <= i < |b.outs| ==> b.outs[i] == RunAll(e, w, m, root, cats).outs[i + 1];
      RunAllFetched(e, s.world, m, root, cats[1..]);
      RunAllFrame(e, s.world, m, root, cats[1..]);
      if c.Items(m) != [] {
        var made := AfterMkdirAll(e.faults, w.disk, c.Dir(root));
        FetchEachFetched(e, World(made.disk, w.calls), c.Items(m), c.Dir(root));
      }
      forall d, item | d in cats && item in d.Items(m) ensures Fetched(e, b.world.disk, item, d.Dir(root)) {
        if d != c {
          assert d in cats[1..];
        }
      }
    }
  }

  /** In a well-formed tree, an item loop into an existing directory whose
      items can all be fetched succeeds, sends one request per item and
      leaves the old files overwritten by `Writes`. */
  lemma {:induction false} FetchEachSucceeds(e: Env, w: World, items: seq<CookbookItem>, dir: Path)
    requires Valid(w.disk) && IsDir(w.disk, dir)
    requires forall item :: item in items ==> Fetchable(e, w.disk.dirs, item, dir)
    ensures FetchEach(e, w, items, dir) ==
      Step(World(Disk(w.disk.dirs, w.disk.files + Writes(e.api, items, dir)), w.calls + RequestsFor(e.api, items)), Ok)
    decreases |items|
  {
    if items == [] {
      assert w.disk.files + map[] == w.disk.files;
      assert w.calls + [] == w.calls;
    } else {
      var p := dir + [items[0].name];
      var b := Body(e.api, items[0].url);
      var sent := SentFor(e.api, items[0].url);
      var next := World(Disk(w.disk.dirs, w.disk.files[p := b]), w.calls + sent);
      FetchEachFirst(e, w, items, dir);
      FetchEachSucceeds(e, next, items[1..], dir);
      WritesAndRequestsStep(e.api, w, items, dir);
    }
  }

  /** How `Writes` and `RequestsFor` of `items` are those of the first item
      followed by those of the rest. */
  lemma WritesAndRequestsStep(api: Api, w: World, items: seq<CookbookItem>, dir: Path)
    requires items != []
    ensures var p := dir + [items[0].name];
      w.disk.files[p := Body(api, items[0].url)] + Writes(api, items[1..], dir) == w.disk.files + Writes(api, items, dir) &&
      (w.calls + SentFor(api, items[0].url)) + RequestsFor(api, items[1..]) == w.calls + RequestsFor(api, items)
  {
    var p := dir + [items[0].name];
    UpdateThenUnion(w.disk.files, p, Body(api, items[0].url), Writes(api, items[1..], dir));
    ConcatAssoc(w.calls, SentFor(api, items[0].url), RequestsFor(api, items[1..]));
  }

  lemma ConcatAssoc(a: seq<Call>, b: seq<Call>, c: seq<Call>)
    ensures (a + b) + c == a + (b + c)
  {
  }

  /** The first step of `FetchEachSucceeds`: the first item is written and
      the loop goes on with the rest, in a tree that is still well formed. */
  lemma FetchEachFirst(e: Env, w: World, items: seq<CookbookItem>, dir: Path)
    requires Valid(w.disk) && IsDir(w.disk, dir) && items != []
    requires forall item :: item in items ==> Fetchable(e, w.disk.dirs, item, dir)
    ensures var p := dir + [items[0].name];
      var next := World(Disk(w.disk.dirs, w.disk.files[p := Body(e.api, items[0].url)]), w.calls + SentFor(e.api, items[0].url));
      FetchEach(e, w, items, dir) == FetchEach(e, next, items[1..], dir) &&
      Valid(next.disk) && IsDir(next.disk, dir) &&
      forall item :: item in items[1..] ==> Fetchable(e, next.disk.dirs, item, dir)
  {
    var p := dir + [items[0].name];
    var s := FetchFile(e, w, items[0].url, p);
    FetchFileSucceeds(e, w, items[0], dir);
    FetchFileOk(e, w, items[0].url, p);
    forall item | item in items[1..] ensures Fetchable(e, w.disk.dirs, item, dir) {
      assert item in items;
    }
  }

  /** In a well-formed tree, fetching an item that can be fetched into an
      existing directory succeeds and keeps the tree well formed. */
  lemma FetchFileSucceeds(e: Env, w: World, item: CookbookItem, dir: Path)
    requires Valid(w.disk) && IsDir(w.disk, dir)
    requires Fetchable(e, w.disk.dirs, item, dir)
    ensures var s := FetchFile(e, w, item.url, dir + [item.name]);
      s.out.Ok? && Valid(s.world.disk)
  {
    var p := dir + [item.name];
    assert Parent(p) == dir;
    DirHasNoFilePrefix(w.disk, dir);
    FetchFileEffect(e, w, item.url, p);
  }

  /** In a well-formed tree that already has the directory of every
      non-empty category of `cats`, and where every item can be fetched,
      all categories succeed, no directory is added and the files are the
      old ones overwritten by `AllWrites`. */
  lemma {:induction false} RunAllSucceeds(e: Env, w: World, m: Manifest, root: Path, cats: seq<Category>)
    requires Valid(w.disk)
    requires forall c :: c in cats && c.Items(m) != [] ==> IsDir(w.disk, c.Dir(root))
    requires forall c, item :: c in cats && item in c.Items(m) ==> Fetchable(e, w.disk.dirs, item, c.Dir(root))
    ensures var b := RunAll(e, w, m, root, cats);
      AllOk(b.outs) && b.world.disk == Disk(w.disk.dirs, w.disk.files + AllWrites(e.api, m, root, cats))
    decreases |cats|
  {
    if cats == [] {
      assert w.disk.files + map[] == w.disk.files;
    } else {
      var c := cats[0];
      var s := DownloadItems(e, w, c.Items(m), c.Dir(root));
      if c.Items(m) == [] {
        assert w.disk.files + map[] == w.disk.files;
      } else {
        assert AfterMkdirAll(e.faults, w.disk, c.Dir(root)) == DiskStep(w.disk, Ok);
        FetchEachSucceeds(e, w, c.Items(m), c.Dir(root));
        FetchEachFrame(e, w, c.Items(m), c.Dir(root));
      }
      assert s.world.disk.dirs == w.disk.dirs && Valid(s.world.disk) && s.out.Ok?;
      RunAllSucceeds(e, s.world, m, root, cats[1..]);
      var b := RunAll(e, s.world, m, root, cats[1..]);
      MapUnionAssoc(w.disk.files, Writes(e.api, c.Items(m), c.Dir(root)), AllWrites(e.api, m, root, cats[1..]));
      assert AllOk([s.out] + b.outs) by {
        assert forall i :: 1 <= i < |[s.out] + b.outs| ==> ([s.out] + b.outs)[i] == b.outs[i - 1];
      }
    }
  }

  /** Downloading the same cookbook again into the same place, after a
      successful download into a well-formed tree, succeeds and leaves the
      tree exactly as the first download left it. Items of one name in one
      category are written again in the same order, so the last one wins
      both times. */
  lemma RerunChangesNothing(e: Env, w: World, name: string, version: string, localDir: Path, m: Manifest)
    requires Valid(w.disk)
    requires e.api.getVersion(name, ResolveVersion(version)) == Success(m)
    requires Download(e, w, name, version, localDir).out.Ok?
    ensures var first := Download(e, w, name, version, localDir).world;
      var second := Download(e, first, name, version, localDir);
      second.out.Ok? && second.world.disk == first.disk
  {
    var v := ResolveVersion(version);
    var looked := World(w.disk, w.calls + [VersionLookup(name, v)]);
    var root := localDir + [m.name];
    var first := Download(e, w, name, version, localDir).world;
    RerunSetup(e, w, name, version, localDir, m);
    var again := World(first.disk, first.calls + [VersionLookup(name, v)]);
    RunAllSucceeds(e, again, m, root, Categories);
    MapUnionTwice(w.disk.files, AllWrites(e.api, m, root, Categories));
  }

  /** What the first download leaves for the second: a well-formed tree
      with every category directory, every item fetchable again, and the
      old files overwritten by `AllWrites`. */
  lemma RerunSetup(e: Env, w: World, name: string, version: string, localDir: Path, m: Manifest)
    requires Valid(w.disk)
    requires e.api.getVersion(name, ResolveVersion(version)) == Success(m)
    requires Download(e, w, name, version, localDir).out.Ok?
    ensures var first := Download(e, w, name, version, localDir).world.disk;
      var root := localDir + [m.name];
      Valid(first) &&
      first.files == w.disk.files + AllWrites(e.api, m, root, Categories) &&
      (forall c :: c in Categories && c.Items(m) != [] ==> IsDir(first, c.Dir(root))) &&
      (forall c, item :: c in Categories && item in c.Items(m) ==> Fetchable(e, first.dirs, item, c.Dir(root)))
  {
    var looked := World(w.disk, w.calls + [VersionLookup(name, ResolveVersion(version))]);
    var root := localDir + [m.name];
    var first := Download(e, w, name, version, localDir).world.disk;
    DownloadFiles(e, w, name, version, localDir, m);
    DownloadDirectories(e, w, name, version, localDir);
    RunAllFetched(e, looked, m, root, Categories);
    forall c | c in Categories && c.Items(m) != [] ensures IsDir(first, c.Dir(root)) {
      NewDirsHasDir(m, root, Categories, c);
    }
  }

  // ------------------------------------------------------------------
  // The example cookbook

  /** A manifest for `foo` 0.2.1 with one root file, `metadata.rb`, and one
      recipe, `default.rb`. */
  function ExampleManifest(metadataUrl: string, recipeUrl: string): (m: Manifest)
    ensures |m.rootFiles| == 1 && m.rootFiles[0].url == metadataUrl
    ensures |m.recipes| == 1 && m.recipes[0].url == recipeUrl
    ensures ExampleShaped(m, m.rootFiles[0], m.recipes[0])
  {
    Manifest("foo", "foo-0.2.1", "0.2.1",
      [CookbookItem(metadataUrl, "metadata.rb", "metadata.rb", "14963c5b685f3a15ea90ae51bd5454b6", "default")],
      [], [], [],
      [CookbookItem(recipeUrl, "recipes/default.rb", "default.rb", "320sdk2w38020827kdlsdkasbd5454b6", "default")],
      [], [], [], [])
  }

  /** The shape of the example manifest, with its two items left abstract. */
  predicate ExampleShaped(m: Manifest, metadata: CookbookItem, recipe: CookbookItem) {
    m.name == "foo-0.2.1" && metadata.name == "metadata.rb" && recipe.name == "default.rb" &&
    m.rootFiles == [metadata] && m.recipes == [recipe] &&
    m.files == [] && m.templates == [] && m.attributes == [] && m.definitions == [] &&
    m.libraries == [] && m.providers == [] && m.resources == []
  }

  /** What the shape of the example manifest says category by category. */
  lemma ExampleCategories(m: Manifest, metadata: CookbookItem, recipe: CookbookItem, root: Path)
    requires ExampleShaped(m, metadata, recipe)
    ensures forall c :: c in Categories ==> |c.Items(m)| <= 1
    ensures RootFiles in Categories && metadata in RootFiles.Items(m)
    ensures Recipes in Categories && recipe in Recipes.Items(m)
    ensures RootFiles.Dir(root) + [metadata.name] == root + ["metadata.rb"]
    ensures Recipes.Dir(root) + [recipe.name] == root + ["recipes", "default.rb"]
    ensures forall c :: c in Categories && c != RootFiles && c != Recipes ==> c.Items(m) == []
    ensures RootFiles.Dir(root) == root && Recipes.Dir(root) == root + ["recipes"]
  {
  }

  /** Downloading that manifest puts `metadata.rb` in the cookbook
      directory and `default.rb` in its `recipes` subdirectory, each holding
      exactly the bytes served for its URL. */
  lemma ExampleFiles(e: Env, w: World, name: string, version: string, localDir: Path, m: Manifest, metadata: CookbookItem, recipe: CookbookItem)
    requires e.api.getVersion(name, ResolveVersion(version)) == Success(m)
    requires ExampleShaped(m, metadata, recipe)
    requires Download(e, w, name, version, localDir).out.Ok?
    ensures var d := Download(e, w, name, version, localDir).world.disk;
      var root := localDir + ["foo-0.2.1"];
      root + ["metadata.rb"] in d.files && Served(e.api, metadata.url) == Success(d.files[root + ["metadata.rb"]]) &&
      root + ["recipes", "default.rb"] in d.files && Served(e.api, recipe.url) == Success(d.files[root + ["recipes", "default.rb"]])
  {
    var root := localDir + [m.name];
    ExampleCategories(m, metadata, recipe, root);
    ExampleItemWritten(e, w, name, version, localDir, m, RootFiles, metadata, root + ["metadata.rb"]);
    ExampleItemWritten(e, w, name, version, localDir, m, Recipes, recipe, root + ["recipes", "default.rb"]);
  }

  /** One item of a manifest with at most one item per category, after its
      download. */
  lemma ExampleItemWritten(e: Env, w: World, name: string, version: string, localDir: Path, m: Manifest,
                           c: Category, item: CookbookItem, p: Path)
    requires e.api.getVersion(name, ResolveVersion(version)) == Success(m)
    requires forall c :: c in Categories ==> |c.Items(m)| <= 1
    requires Download(e, w, name, version, localDir).out.Ok?
    requires c in Categories && item in c.Items(m)
    requires c.Dir(localDir + [m.name]) + [item.name] == p
    ensures var d := Download(e, w, name, version, localDir).world.disk;
      p in d.files && Served(e.api, item.url) == Success(d.files[p])
  {
    assert forall c :: c in Categories ==> DistinctNames(c.Items(m));
    DownloadWritesEveryItem(e, w, name, version, localDir, m);
  }

  /** Downloading that manifest creates the cookbook directory and its
      `recipes` subdirectory and no subdirectory for any other category. */
  lemma ExampleDirectories(e: Env, w: World, name: string, version: string, localDir: Path, m: Manifest, metadata: CookbookItem, recipe: CookbookItem)
    requires e.api.getVersion(name, ResolveVersion(version)) == Success(m)
    requires Valid(w.disk)
    requires ExampleShaped(m, metadata, recipe)
    requires Download(e, w, name, version, localDir).out.Ok?
    ensures var d := Download(e, w, name, version, localDir).world.disk;
      var root := localDir + ["foo-0.2.1"];
      root in d.dirs && root + ["recipes"] in d.dirs &&
      forall c :: c in Categories && c != RootFiles && c != Recipes ==>
        (root + [c.Label()] in d.dirs <==> root + [c.Label()] in w.disk.dirs)
  {
    var root := localDir + [m.name];
    var d := Download(e, w, name, version, localDir).world.disk;
    ExampleCategories(m, metadata, recipe, root);
    DownloadDirectories(e, w, name, version, localDir);
    NewDirsHasDir(m, root, Categories, RootFiles);
    NewDirsHasDir(m, root, Categories, Recipes);
    forall c | c in Categories && c != RootFiles && c != Recipes
      ensures root + [c.Label()] in d.dirs <==> root + [c.Label()] in w.disk.dirs
    {
      EmptyCategoryGetsNoDirectory(e, w, name, version, localDir, m, c);
    }
  }

  /** Downloading that manifest into an empty host whose server answers
      both URLs and which refuses nothing succeeds, creates `localDir`, the
      cookbook directory and its `recipes` subdirectory, and writes exactly
      the two files, each holding the body served for its URL. */
  lemma ExampleSucceeds(e: Env, w: World, name: string, version: string, localDir: Path, m: Manifest, metadata: CookbookItem, recipe: CookbookItem)
    requires e.api.getVersion(name, ResolveVersion(version)) == Success(m)
    requires ExampleShaped(m, metadata, recipe)
    requires w.disk == Disk({}, map[])
    requires Served(e.api, metadata.url).Success? && Served(e.api, recipe.url).Success?
    requires forall p :: e.faults.mkdir(p).None? && e.faults.create(p).None? && e.faults.write(p).None?
    ensures var s := Download(e, w, name, version, localDir);
      var root := localDir + ["foo-0.2.1"];
      s.out.Ok? &&
      s.world.disk == Disk(Prefixes(root + ["recipes"]),
        map[root + ["metadata.rb"] := Body(e.api, metadata.url), root + ["recipes", "default.rb"] := Body(e.api, recipe.url)])
  {
    var root := localDir + ["foo-0.2.1"];
    var p1 := root + ["metadata.rb"];
    var p2 := root + ["recipes", "default.rb"];
    assert e.faults.mkdir(root).None? && e.faults.create(p1).None? && e.faults.write(p1).None?;
    assert e.faults.mkdir(root + ["recipes"]).None? && e.faults.create(p2).None? && e.faults.write(p2).None?;
    ExampleDownload(e, w, name, version, localDir, m, metadata, recipe);
  }

  /** Where the test's server serves the two files; `http://server` stands
      for the address of the test server. */
  const MetadataUrl := "http://server/bookshelf/foo/metadata_rb"
  const RecipeUrl := "http://server/bookshelf/foo/default_rb"

  /** The bytes of an ASCII string. */
  function Ascii(s: string): (r: Bytes)
    ensures |r| == |s|
  {
    seq(|s|, i requires 0 <= i < |s| => (s[i] as int % 256) as bv8)
  }

  /** The test's server and host: the server serves the manifest of `foo`
      0.2.1 and the two files and answers anything else with 404; the host
      refuses nothing. */
  function ExampleEnv(): Env {
    Env(
      Api(
        (name: string, version: string) =>
          if name == "foo" && version == "0.2.1" then Success(ExampleManifest(MetadataUrl, RecipeUrl))
          else Failure(ApiError("404 Not Found")),
        (verb: string, url: string) => Success(Request(verb, url)),
        (request: Request) =>
          if request.url == MetadataUrl then Success(Ascii("name 'foo'"))
          else if request.url == RecipeUrl then Success(Ascii("log 'this is a resource'"))
          else Failure(ApiError("404 Not Found"))),
      Faults((p: Path) => None, (p: Path) => None, (p: Path) => None))
  }

  /** The test's server and host meet what `ExampleSucceeds` asks for:
      the lookup of `foo` 0.2.1 yields the example manifest, both URLs are
      served with the test's bodies, and the host refuses nothing. */
  lemma ExampleServer(e: Env)
    requires e == ExampleEnv()
    ensures var m := ExampleManifest(MetadataUrl, RecipeUrl);
      e.api.getVersion("foo", ResolveVersion("0.2.1")) == Success(m) &&
      ExampleShaped(m, m.rootFiles[0], m.recipes[0])
    ensures Served(e.api, MetadataUrl) == Success(Ascii("name 'foo'"))
    ensures Served(e.api, RecipeUrl) == Success(Ascii("log 'this is a resource'"))
    ensures forall p :: e.faults.mkdir(p).None? && e.faults.create(p).None? && e.faults.write(p).None?
  {
  }

  /** The same, with the host refusing none of the paths the example uses. */
  lemma ExampleDownload(e: Env, w: World, name: string, version: string, localDir: Path, m: Manifest, metadata: CookbookItem, recipe: CookbookItem)
    requires e.api.getVersion(name, ResolveVersion(version)) == Success(m)
    requires ExampleShaped(m, metadata, recipe)
    requires w.disk == Disk({}, map[])
    requires Served(e.api, metadata.url).Success? && Served(e.api, recipe.url).Success?
    requires var root := localDir + ["foo-0.2.1"];
      e.faults.mkdir(root).None? && e.faults.create(root + ["metadata.rb"]).None? && e.faults.write(root + ["metadata.rb"]).None? &&
      e.faults.mkdir(root + ["recipes"]).None? && e.faults.create(root + ["recipes", "default.rb"]).None? &&
      e.faults.write(root + ["recipes", "default.rb"]).None?
    ensures var s := Download(e, w, name, version, localDir);
      var root := localDir + ["foo-0.2.1"];
      s.out.Ok? &&
      s.world.disk == Disk(Prefixes(root + ["recipes"]),
        map[root + ["metadata.rb"] := Body(e.api, metadata.url), root + ["recipes", "default.rb"] := Body(e.api, recipe.url)])
  {
    var looked := World(w.disk, w.calls + [VersionLookup(name, ResolveVersion(version))]);
    var root := localDir + [m.name];
    var early := [Files, Templates, Attributes];
    var late := [Definitions, Libraries, Providers, Resources];
    assert Categories == ([RootFiles] + early) + ([Recipes] + late);
    assert (root + ["recipes"]) + ["default.rb"] == root + ["recipes", "default.rb"];
    ExampleRunAll(e, looked, m, root, metadata, recipe, Categories, early, late);
  }

  /** The categories of the example in table order, into an empty host:
      the root files, empty ones, the recipes, empty ones. */
  lemma ExampleRunAll(e: Env, w: World, m: Manifest, root: Path, metadata: CookbookItem, recipe: CookbookItem,
                      cats: seq<Category>, early: seq<Category>, late: seq<Category>)
    requires cats == ([RootFiles] + early) + ([Recipes] + late)
    requires w.disk == Disk({}, map[])
    requires m.rootFiles == [metadata] && metadata.name == "metadata.rb"
    requires m.recipes == [recipe] && recipe.name == "default.rb"
    requires forall d :: d in early ==> d.Items(m) == []
    requires forall d :: d in late ==> d.Items(m) == []
    requires Served(e.api, metadata.url).Success? && Served(e.api, recipe.url).Success?
    requires e.faults.mkdir(root).None? && e.faults.create(root + ["metadata.rb"]).None? && e.faults.write(root + ["metadata.rb"]).None?
    requires var recipes := root + ["recipes"];
      e.faults.mkdir(recipes).None? && e.faults.create(recipes + ["default.rb"]).None? && e.faults.write(recipes + ["default.rb"]).None?
    ensures var b := RunAll(e, w, m, root, cats);
      var recipes := root + ["recipes"];
      FirstError(b.outs).Ok? &&
      b.world.disk == Disk(Prefixes(recipes),
        map[root + ["metadata.rb"] := Body(e.api, metadata.url), recipes + ["default.rb"] := Body(e.api, recipe.url)])
  {
    RunAllSplit(e, w, m, root, [RootFiles] + early, [Recipes] + late);
    ExampleRootFiles(e, w, m, root, metadata, early);
    var a := RunAll(e, w, m, root, [RootFiles] + early);
    ExampleRecipes(e, a.world, m, root, metadata, recipe, late);
    var b := RunAll(e, a.world, m, root, [Recipes] + late);
    AllOkConcat(a.outs, b.outs);
  }

  /** The root files of the example and the empty categories after them,
      into an empty host: only `metadata.rb` is written, into the newly made
      cookbook directory. */
  lemma ExampleRootFiles(e: Env, w: World, m: Manifest, root: Path, metadata: CookbookItem, rest: seq<Category>)
    requires w.disk == Disk({}, map[])
    requires m.rootFiles == [metadata] && metadata.name == "metadata.rb"
    requires forall d :: d in rest ==> d.Items(m) == []
    requires Served(e.api, metadata.url).Success?
    requires e.faults.mkdir(root).None? && e.faults.create(root + ["metadata.rb"]).None? && e.faults.write(root + ["metadata.rb"]).None?
    ensures var a := RunAll(e, w, m, root, [RootFiles] + rest);
      AllOk(a.outs) && a.world.disk == Disk(Prefixes(root), map[root + ["metadata.rb"] := Body(e.api, metadata.url)])
  {
    var p1 := root + ["metadata.rb"];
    assert p1 !in Prefixes(root);
    assert RootFiles.Items(m) == [metadata] && RootFiles.Dir(root) == root;
    DownloadItemsSucceeds(e, w, [metadata], root);
    WritesOne(e.api, metadata, root);
    RunAllThenEmpty(e, w, m, root, RootFiles, rest);
    assert {} + Prefixes(root) == Prefixes(root);
    UnionOne(map[], p1, Body(e.api, metadata.url));
  }

  /** The recipes of the example and the empty categories after them, once
      `metadata.rb` is in place: only `default.rb` is written, into the
      newly made `recipes` directory. */
  lemma ExampleRecipes(e: Env, w: World, m: Manifest, root: Path, metadata: CookbookItem, recipe: CookbookItem, rest: seq<Category>)
    requires w.disk == Disk(Prefixes(root), map[root + ["metadata.rb"] := Body(e.api, metadata.url)])
    requires m.recipes == [recipe] && recipe.name == "default.rb"
    requires forall d :: d in rest ==> d.Items(m) == []
    requires Served(e.api, recipe.url).Success?
    requires var recipes := root + ["recipes"];
      e.faults.mkdir(recipes).None? && e.faults.create(recipes + ["default.rb"]).None? && e.faults.write(recipes + ["default.rb"]).None?
    ensures var b := RunAll(e, w, m, root, [Recipes] + rest);
      var recipes := root + ["recipes"];
      AllOk(b.outs) &&
      b.world.disk == Disk(Prefixes(recipes),
        map[root + ["metadata.rb"] := Body(e.api, metadata.url), recipes + ["default.rb"] := Body(e.api, recipe.url)])
  {
    var recipes := root + ["recipes"];
    var p2 := recipes + ["default.rb"];
    OneFileTree(root, "metadata.rb", Body(e.api, metadata.url));
    SiblingIsNoFile(root, "metadata.rb", "recipes", Body(e.api, metadata.url));
    if root != [] {
      PrefixesOfPrefix(recipes, |root|);
      assert recipes[..|root|] == root;
    }
    assert Prefixes(root) + Prefixes(recipes) == Prefixes(recipes);
    assert p2 !in Prefixes(recipes);
    assert Recipes.Items(m) == [recipe] && Recipes.Dir(root) == recipes;
    DownloadItemsSucceeds(e, w, [recipe], recipes);
    WritesOne(e.api, recipe, recipes);
    RunAllThenEmpty(e, w, m, root, Recipes, rest);
    UnionOne(w.disk.files, p2, Body(e.api, recipe.url));
  }

  lemma UnionOne(f: map<Path, Bytes>, p: Path, b: Bytes)
    ensures f + map[p := b] == f[p := b]
  {
  }

  /** What a successful item loop of just `item` writes. */
  lemma WritesOne(api: Api, item: CookbookItem, dir: Path)
    ensures Writes(api, [item], dir) == map[dir + [item.name] := Body(api, item.url)]
  {
    assert [item][1..] == [];
    assert map[dir + [item.name] := Body(api, item.url)] + map[] == map[dir + [item.name] := Body(api, item.url)];
  }

  /** A category that may not exist yet, in a well-formed tree: when the
      host lets its directory be made and every item can be fetched, the
      category succeeds, its directory and ancestors are added and the old
      files are overwritten by `Writes`. */
  lemma DownloadItemsSucceeds(e: Env, w: World, items: seq<CookbookItem>, dir: Path)
    requires Valid(w.disk) && items != []
    requires FilePrefix(w.disk, dir) == 0 && e.faults.mkdir(dir).None?
    requires forall item :: item in items ==> Fetchable(e, w.disk.dirs + Prefixes(dir), item, dir)
    ensures var s := DownloadItems(e, w, items, dir);
      s.out.Ok? && Valid(s.world.disk) &&
      s.world.disk == Disk(w.disk.dirs + Prefixes(dir), w.disk.files + Writes(e.api, items, dir))
  {
    var made := AfterMkdirAll(e.faults, w.disk, dir);
    MkdirAllEffect(e.faults, w.disk, dir);
    assert made.out.Ok?;
    FetchEachSucceeds(e, World(made.disk, w.calls), items, dir);
    FetchEachFrame(e, World(made.disk, w.calls), items, dir);
  }

  /** In a directory holding one file, a sibling of another name has no
      prefix that is a file. */
  lemma SiblingIsNoFile(dir: Path, file: string, other: string, b: Bytes)
    requires file != other
    ensures FilePrefix(Disk(Prefixes(dir), map[dir + [file] := b]), dir + [other]) == 0
  {
    var q := dir + [other];
    forall j | 0 < j <= |q| ensures q[..j] != dir + [file] {
      if j == |q| {
        assert q[..j][|dir|] == other && (dir + [file])[|dir|] == file;
      }
    }
  }

  /** A directory with its ancestors and one file in it is a well-formed tree. */
  lemma OneFileTree(dir: Path, name: string, b: Bytes)
    ensures Valid(Disk(Prefixes(dir), map[dir + [name] := b]))
  {
    forall q | q in Prefixes(dir) ensures Prefixes(q) <= Prefixes(dir) {
      PrefixesOfPrefix(dir, |q|);
    }
    assert Parent(dir + [name]) == dir;
  }

  lemma AllOkConcat(xs: seq<Outcome>, ys: seq<Outcome>)
    requires AllOk(xs) && AllOk(ys)
    ensures FirstError(xs + ys).Ok?
  {
    assert forall i :: |xs| <= i < |xs + ys| ==> (xs + ys)[i] == ys[i - |xs|];
  }

  /** One category followed by empty ones: the batch ends where that
      category left the world, and all succeed exactly when it does. */
  lemma RunAllThenEmpty(e: Env, w: World, m: Manifest, root: Path, c: Category, rest: seq<Category>)
    requires forall d :: d in rest ==> d.Items(m) == []
    ensures var s := DownloadItems(e, w, c.Items(m), c.Dir(root));
      var b := RunAll(e, w, m, root, [c] + rest);
      b.world == s.world && (AllOk(b.outs) <==> s.out.Ok?)
  {
    var s := DownloadItems(e, w, c.Items(m), c.Dir(root));
    assert ([c] + rest)[0] == c && ([c] + rest)[1..] == rest;
    RunAllEmpty(e, s.world, m, root, rest);
    var b := RunAll(e, w, m, root, [c] + rest);
    assert b.outs[0] == s.out;
  }
}
