/** Downloading one cookbook version into a local directory tree: the
    version rewrite, the nine manifest categories and their destinations,
    the per-category and per-file downloads, and the choice of the error
    returned. The functions say what each step does to the world; the
    methods of `CookbookService` do it in place and are proved to agree. */
module CookbookDownload {
  import opened Common
  import opened Os
  import opened ChefClient

  /** The version token sent to the server: `""` and `"latest"` ask for `"_latest"`. */
  function ResolveVersion(version: string): (r: string)
    ensures r == version || r == "_latest"
    ensures r != "" && r != "latest"
    ensures r == "_latest" <==> version in {"", "latest", "_latest"}
  {
    if version == "" || version == "latest" then "_latest" else version
  }

  /** The nine groups of files a manifest lists. */
  datatype Category = RootFiles | Files | Templates | Attributes | Recipes | Definitions | Libraries | Providers | Resources
  {
    function Label(): string {
      match this
      case RootFiles => "root_files"
      case Files => "files"
      case Templates => "templates"
      case Attributes => "attributes"
      case Recipes => "recipes"
      case Definitions => "definitions"
      case Libraries => "libraries"
      case Providers => "providers"
      case Resources => "resources"
    }

    function Items(m: Manifest): seq<CookbookItem> {
      match this
      case RootFiles => m.rootFiles
      case Files => m.files
      case Templates => m.templates
      case Attributes => m.attributes
      case Recipes => m.recipes
      case Definitions => m.definitions
      case Libraries => m.libraries
      case Providers => m.providers
      case Resources => m.resources
    }

    /** Where the category's files go: the cookbook directory itself for
        root files, a subdirectory named after the category otherwise. */
    function Dir(cookbookPath: Path): Path {
      if RootFiles? then cookbookPath else cookbookPath + [Label()]
    }
  }

  /** The categories in the order they are downloaded. */
  const Categories: seq<Category> :=
    [RootFiles, Files, Templates, Attributes, Recipes, Definitions, Libraries, Providers, Resources]

  /** Everything the download can observe or change. */
  datatype World = World(disk: Disk, calls: seq<Call>)

  /** Everything the download depends on but does not control. */
  datatype Env = Env(api: Api, faults: Faults)

  datatype Step = Step(world: World, out: Outcome)

  /** The world after several downloads, with each one's result. */
  datatype Batch = Batch(world: World, outs: seq<Outcome>)

  /** The body the server serves for `url`, or why it could not be had. */
  function Served(api: Api, url: string): Result<Bytes> {
    match api.newRequest("GET", url)
    case Failure(err) => Failure(err)
    case Success(request) => api.execute(request)
  }

  /** `downloadCookbookFile`: request `url`, then create `file` and copy the body into it. */
  function FetchFile(e: Env, w: World, url: string, file: Path): Step {
    match e.api.newRequest("GET", url)
    case Failure(err) => Step(w, Fail(err))
    case Success(request) =>
      var sent := w.calls + [Send(request)];
      match e.api.execute(request)
      case Failure(err) => Step(World(w.disk, sent), Fail(err))
      case Success(body) =>
        var created := AfterCreate(e.faults, w.disk, file);
        if created.out.Fail? then Step(World(created.disk, sent), created.out)
        else
          var copied := AfterCopy(e.faults, created.disk, file, body);
          Step(World(copied.disk, sent), copied.out)
  }

  /** The item loop of `downloadCookbookItems`: each item into `dir`, in
      order, stopping at the first failure. */
  function FetchEach(e: Env, w: World, items: seq<CookbookItem>, dir: Path): Step
    decreases |items|
  {
    if items == [] then Step(w, Ok)
    else
      var s := FetchFile(e, w, items[0].url, dir + [items[0].name]);
      if s.out.Fail? then s else FetchEach(e, s.world, items[1..], dir)
  }

  /** `downloadCookbookItems`: nothing for no items, otherwise create `dir`
      and fetch the items into it. */
  function DownloadItems(e: Env, w: World, items: seq<CookbookItem>, dir: Path): Step {
    if |items| == 0 then Step(w, Ok)
    else
      var made := AfterMkdirAll(e.faults, w.disk, dir);
      if made.out.Fail? then Step(World(made.disk, w.calls), made.out)
      else FetchEach(e, World(made.disk, w.calls), items, dir)
  }

  /** The nine category downloads, each run on the world the previous one
      left, whatever it returned. */
  function RunAll(e: Env, w: World, m: Manifest, cookbookPath: Path, cats: seq<Category>): Batch
    decreases |cats|
  {
    if cats == [] then Batch(w, [])
    else
      var s := DownloadItems(e, w, cats[0].Items(m), cats[0].Dir(cookbookPath));
      var rest := RunAll(e, s.world, m, cookbookPath, cats[1..]);
      Batch(rest.world, [s.out] + rest.outs)
  }

  /** The first error of `outs` in order, nil when there is none. */
  function FirstError(outs: seq<Outcome>): (r: Outcome)
    ensures r.Ok? <==> forall i :: 0 <= i < |outs| ==> outs[i].Ok?
    ensures r.Fail? ==> exists i :: 0 <= i < |outs| && outs[i] == r && forall j :: 0 <= j < i ==> outs[j].Ok?
  {
    if outs == [] then Ok
    else if outs[0].Fail? then outs[0]
    else
      var r := FirstError(outs[1..]);
      assert r.Fail? ==> exists i :: 1 <= i < |outs| && outs[i] == r && forall j :: 0 <= j < i ==> outs[j].Ok? by {
        if r.Fail? {
          var i :| 0 <= i < |outs[1..]| && outs[1..][i] == r && forall j :: 0 <= j < i ==> outs[1..][j].Ok?;
          assert outs[i + 1] == r;
        }
      }
      r
  }

  /** One step of `RunAll` from position `i` of the table. */
  lemma RunAllFrom(e: Env, w: World, m: Manifest, cookbookPath: Path, cats: seq<Category>, i: nat)
    requires i < |cats|
    ensures var s := DownloadItems(e, w, cats[i].Items(m), cats[i].Dir(cookbookPath));
      var rest := RunAll(e, s.world, m, cookbookPath, cats[i + 1..]);
      RunAll(e, w, m, cookbookPath, cats[i..]) == Batch(rest.world, [s.out] + rest.outs)
  {
    assert cats[i..][0] == cats[i] && cats[i..][1..] == cats[i + 1..];
  }

  /** One category further through `RunAll`: if `all` is what the earlier
      results `done` followed by the rest of `cats` from `i` on yield, it is
      also what `done` and this category's result `out` followed by the rest
      from `i + 1` on yield. */
  lemma RunAllStep(e: Env, before: World, after: World, out: Outcome, m: Manifest, cookbookPath: Path,
                   cats: seq<Category>, i: nat, all: Batch, done: seq<Outcome>)
    requires i < |cats|
    requires Step(after, out) == DownloadItems(e, before, cats[i].Items(m), cats[i].Dir(cookbookPath))
    requires var rest := RunAll(e, before, m, cookbookPath, cats[i..]);
      all == Batch(rest.world, done + rest.outs)
    ensures var rest := RunAll(e, after, m, cookbookPath, cats[i + 1..]);
      all == Batch(rest.world, (done + [out]) + rest.outs)
  {
    RunAllFrom(e, before, m, cookbookPath, cats, i);
    var rest := RunAll(e, after, m, cookbookPath, cats[i + 1..]);
    assert done + ([out] + rest.outs) == (done + [out]) + rest.outs;
  }

  /** `DownloadCookbookAt`: look the manifest up, stop on failure, otherwise
      run all nine categories under `localDir/<manifest name>` and return
      the first error among them. */
  function Download(e: Env, w: World, name: string, version: string, localDir: Path): Step {
    var v := ResolveVersion(version);
    var looked := World(w.disk, w.calls + [VersionLookup(name, v)]);
    match e.api.getVersion(name, v)
    case Failure(err) => Step(looked, Fail(err))
    case Success(m) =>
      var b := RunAll(e, looked, m, localDir + [m.name], Categories);
      Step(b.world, FirstError(b.outs))
  }

  /** The loop over the collected results of `DownloadCookbookAt`. */
  method FirstErrorOf(errs: seq<Outcome>) returns (err: Outcome)
    ensures err == FirstError(errs)
  {
    var j := 0;
    while j < |errs|
      invariant 0 <= j <= |errs|
      invariant FirstError(errs[j..]) == FirstError(errs)
    {
      assert errs[j..][0] == errs[j] && errs[j..][1..] == errs[j + 1..];
      if errs[j].Fail? {
        return errs[j];
      }
      j := j + 1;
    }
    return Ok;
  }

  /** The cookbook service of the API client: downloads through `client`
      into a `FileSystem`. */
  class CookbookService {
    const client: Client

    constructor (client: Client)
      ensures this.client == client
    {
      this.client := client;
    }

    function EnvOf(fs: FileSystem): Env {
      Env(client.api, fs.faults)
    }

    function WorldOf(fs: FileSystem): World
      reads fs, client
    {
      World(fs.State(), client.calls)
    }

    method DownloadCookbookAt(fs: FileSystem, name: string, version: string, localDir: Path) returns (err: Outcome)
      modifies fs, client
      ensures Step(WorldOf(fs), err) == Download(EnvOf(fs), old(WorldOf(fs)), name, version, localDir)
    {
      var v := ResolveVersion(version);
      var cookbook := client.GetVersion(name, v);
      if cookbook.Failure? {
        return Fail(cookbook.error);
      }
      var m := cookbook.value;
      var cookbookPath := localDir + [m.name];
      var downloadErrs := DownloadCategories(fs, m, cookbookPath, Categories);
      err := FirstErrorOf(downloadErrs);
    }

    /** The slice of category results in `DownloadCookbookAt`, built from
        the table `Categories`: every category of `cats` is downloaded, in
        order, whatever the earlier ones returned. */
    method DownloadCategories(fs: FileSystem, m: Manifest, cookbookPath: Path, cats: seq<Category>) returns (downloadErrs: seq<Outcome>)
      modifies fs, client
      ensures Batch(WorldOf(fs), downloadErrs) == RunAll(EnvOf(fs), old(WorldOf(fs)), m, cookbookPath, cats)
    {
      var e := EnvOf(fs);
      ghost var all := RunAll(e, old(WorldOf(fs)), m, cookbookPath, cats);
      downloadErrs := [];
      var i := 0;
      assert cats[i..] == cats;
      assert all == Batch(all.world, downloadErrs + all.outs);
      while i < |cats|
        invariant 0 <= i <= |cats|
        invariant var rest := RunAll(e, WorldOf(fs), m, cookbookPath, cats[i..]);
          all == Batch(rest.world, downloadErrs + rest.outs)
      {
        var c := cats[i];
        ghost var before := WorldOf(fs);
        var r := DownloadCookbookItems(fs, c.Items(m), c.Label(), c.Dir(cookbookPath));
        RunAllStep(e, before, WorldOf(fs), r, m, cookbookPath, cats, i, all, downloadErrs);
        downloadErrs := downloadErrs + [r];
        i := i + 1;
      }
      assert all == Batch(WorldOf(fs), downloadErrs);
    }

    method DownloadCookbookItems(fs: FileSystem, items: seq<CookbookItem>, itemType: string, localPath: Path) returns (err: Outcome)
      modifies fs, client
      ensures Step(WorldOf(fs), err) == DownloadItems(EnvOf(fs), old(WorldOf(fs)), items, localPath)
    {
      if |items| == 0 {
        return Ok;
      }
      err := fs.MkdirAll(localPath);
      if err.Fail? {
        return;
      }
      ghost var made := WorldOf(fs);
      var i := 0;
      while i < |items|
        invariant 0 <= i <= |items|
        invariant FetchEach(EnvOf(fs), made, items, localPath) == FetchEach(EnvOf(fs), WorldOf(fs), items[i..], localPath)
      {
        var item := items[i];
        assert items[i..][0] == item && items[i..][1..] == items[i + 1..];
        err := DownloadCookbookFile(fs, item.url, localPath + [item.name]);
        if err.Fail? {
          return;
        }
        i := i + 1;
      }
      return Ok;
    }

    method DownloadCookbookFile(fs: FileSystem, url: string, file: Path) returns (err: Outcome)
      modifies fs, client
      ensures Step(WorldOf(fs), err) == FetchFile(EnvOf(fs), old(WorldOf(fs)), url, file)
    {
      var request := client.NewRequest("GET", url);
      if request.Failure? {
        return Fail(request.error);
      }
      var response := client.Do(request.value);
      if response.Failure? {
        return Fail(response.error);
      }
      err := fs.Create(file);
      if err.Fail? {
        return;
      }
      err := fs.Copy(file, response.value);
    }
  }
}
