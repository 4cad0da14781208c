# Cookbook download

A Dafny model of how the Chef API client downloads a cookbook into a local
directory (`CookbookService.DownloadCookbookAt` and its two helpers).

1. The version token is rewritten: `""` and `"latest"` become `"_latest"`.
2. The cookbook's manifest is fetched.
3. The items of each of its nine categories are written under
   `localDir/<manifest name>`. Root files go into that directory itself.
   Every other category goes into a subdirectory named after the category's
   label.
4. Only an error is returned.

The modules:

- `Common`: paths as sequences of segments (so `path.Join` is
  concatenation), bytes, the error type, and `Option`/`Result`/`Outcome`
  (`Outcome` is Go's `error`, where `Ok` is nil).
- `Os`: the local disk as a value (a set of directories and a map from file
  paths to bytes). It defines what `os.MkdirAll`, `os.Create` and `io.Copy`
  do to that value and proves that each keeps the tree well formed.
  `Os.FileSystem` is a class whose methods make those changes in place.
  Host refusals (permissions, a full disk) come from a `Faults` parameter,
  one answer per path. Failures the tree itself explains are modelled
  directly: a file standing where a directory is needed, a missing parent,
  or creating a file over a directory.
- `ChefClient`: cookbook items and the manifest with its nine item lists.
  The three remote calls (`GetVersion`, `NewRequest`, `Do`) are given as
  total functions that return a value or an error. `ChefClient.Client`
  keeps a log of every version lookup and every request sent, so "nothing
  was fetched" and "fetched in manifest order" can be stated.
- `CookbookDownload`: what each step does to the world (the disk plus the
  call log), as functions, and `CookbookService`, whose methods perform the
  steps on a `FileSystem` and a `Client`. Each method is proved equal to its
  function.
- `CookbookDownloadProperties`: what the download promises, proved about
  those functions. This includes the example download of `foo` 0.2.1 from
  the library's tests.

The Go code runs the nine category downloads as the elements of one slice
literal, and only then looks for an error. So every category is downloaded
even after an earlier one failed, and the error returned is the first
non-nil one in the fixed category order.

## Model

| member | source | states |
|---|---|---|
| CookbookDownload.ResolveVersion | cookbook_download.go:28-30 | the token sent is the input or `"_latest"`, never `""` or `"latest"`, and it is `"_latest"` exactly when the input is `""`, `"latest"` or `"_latest"` |
| CookbookDownloadProperties.LooksUpResolvedVersion | cookbook_download.go:28-32 | the first call a download makes is the version lookup of `name` at the rewritten version |
| CookbookDownloadProperties.LookupFailure | cookbook_download.go:32-35 | when the lookup fails, the download returns that same error, touches no directory or file, and makes no further call |
| ChefClient.Client.GetVersion | cookbook_download.go:32 | logs the lookup and returns what the server answers for that name and version |
| ChefClient.Client.NewRequest | cookbook_download.go:88 | builds the request for a verb and URL, or fails, without sending anything |
| ChefClient.Client.Do | cookbook_download.go:92 | logs the request as sent and returns the body or the transport error |
| CookbookDownloadProperties.CategoryDirectories | cookbook_download.go:40-51 | root files go into the cookbook directory, every other category into the subdirectory named by its own label, and two different categories never share a directory |
| CookbookDownloadProperties.LabelsDiffer | cookbook_download.go:43-51 | the nine category labels are pairwise different |
| CookbookDownloadProperties.CategoriesDistinct | cookbook_download.go:42-52 | the table lists each of the nine categories exactly once |
| CookbookDownloadProperties.DestsOfDistinctCategories | cookbook_download.go:40-51 | no path is a destination of two different categories |
| CookbookDownloadProperties.DestsOfOtherCategories | cookbook_download.go:40-51 | a destination of one category is a destination of none of the others |
| Os.MkdirAllEffect | cookbook_download.go:72 | `MkdirAll` leaves files alone and changes nothing when it fails; on success the path is a directory and at most the path and its ancestors were added (exactly those in a well-formed tree, which stays well formed) |
| Os.MkdirAllIdempotent | cookbook_download.go:72 | creating a directory again after a successful `MkdirAll` succeeds and changes nothing |
| Os.CreateEffect | cookbook_download.go:100 | `Create` either leaves the disk as it was or only creates or truncates the file to empty, and keeps the tree well formed |
| Os.CopyEffect | cookbook_download.go:105 | a copy into an open file either leaves the disk as it was or replaces exactly that file's content with the body |
| Os.FileSystem.MkdirAll | cookbook_download.go:72 | the new file-system state and error are those of `AfterMkdirAll` on the old state |
| Os.FileSystem.Create | cookbook_download.go:100 | the new file-system state and error are those of `AfterCreate` on the old state |
| Os.FileSystem.Copy | cookbook_download.go:105 | the new file-system state and error are those of `AfterCopy` on the old state |
| CookbookDownload.CookbookService.DownloadCookbookFile | cookbook_download.go:87-108 | the new disk, call log and error are those of `FetchFile`: build the request, execute it, create the file, copy the body, returning the first error |
| CookbookDownloadProperties.FetchFileEffect | cookbook_download.go:87-108 | a request that cannot be built or executed leaves the disk unchanged and returns that error; a file that cannot be created leaves the disk unchanged and returns the error of `Create` as it is; otherwise only the target file changes; it succeeds exactly when the body is served, the file can be created and the write is accepted, and then the file holds exactly the body, replacing any earlier content; a failed copy returns the write error and leaves the file empty; nothing is deleted |
| CookbookDownload.CookbookService.DownloadCookbookItems | cookbook_download.go:66-84 | the new disk, call log and error are those of `DownloadItems`: the empty-list check, `MkdirAll`, then the item loop with early return |
| CookbookDownloadProperties.EmptyCategorySkipped | cookbook_download.go:67-69 | an empty item list returns nil, creates no directory and fetches nothing |
| CookbookDownloadProperties.DirectoryBeforeItems | cookbook_download.go:72-74 | for a non-empty list, a failing `MkdirAll` returns its error with nothing fetched; otherwise the directory exists and the files are unchanged before the first item is fetched |
| CookbookDownloadProperties.FetchEachSplit | cookbook_download.go:76-81 | the item loop over `xs + ys` runs `xs`, then runs `ys` only if `xs` succeeded |
| CookbookDownloadProperties.FirstFailingItem | cookbook_download.go:76-81 | at the first failing item the loop returns that item's result unchanged, requests nothing for the later items, and keeps the files of the earlier items |
| CookbookDownloadProperties.FetchEachFrame | cookbook_download.go:76-81 | the item loop writes only to its items' paths, deletes no file, creates no directory, only appends to the call log and keeps the tree well formed |
| CookbookDownloadProperties.FetchEachRequests | cookbook_download.go:76-81 | a successful loop has sent exactly one request per item, in manifest order |
| CookbookDownloadProperties.FetchEachContents | cookbook_download.go:76-81 | after a successful loop over items with distinct names, every item's file `localPath/item.Name` holds exactly the body served for its URL |
| CookbookDownloadProperties.DownloadItemsFrame | cookbook_download.go:66-84 | a category touches only its items' paths, deletes nothing, adds at most its directory and that directory's ancestors (exactly those on success in a well-formed tree) and keeps the tree well formed |
| CookbookDownload.CookbookService.DownloadCategories | cookbook_download.go:42-52 | the new world and the slice of results are those of `RunAll`: each category is downloaded in table order, whatever the earlier ones returned |
| CookbookDownloadProperties.RunAllFrame | cookbook_download.go:42-52 | there is one result per category; together the categories write only to their items' paths, delete nothing, add only the directories the non-empty categories need (exactly those when all succeed in a well-formed tree) and keep the tree well formed |
| CookbookDownloadProperties.RunAllSplit | cookbook_download.go:42-52 | later categories run on the world the earlier ones left, and their results follow the earlier results |
| CookbookDownloadProperties.RunAllContents | cookbook_download.go:42-52 | when every category of a duplicate-free table succeeds and no category lists two items of one name, each item of each category holds the body served for it in that category's directory |
| CookbookDownloadProperties.RunAllEmpty | cookbook_download.go:42-52 | categories without items change nothing and all return nil |
| CookbookDownload.FirstError | cookbook_download.go:54-58 | the result is nil exactly when every result is nil; otherwise it is the result at the first non-nil position |
| CookbookDownload.FirstErrorOf | cookbook_download.go:54-58 | the loop over the slice returns `FirstError` of it |
| CookbookDownloadProperties.FirstErrorSplit | cookbook_download.go:54-58 | the first error of `xs + ys` is that of `xs` if there is one, else that of `ys` |
| CookbookDownload.CookbookService.DownloadCookbookAt | cookbook_download.go:25-62 | the new disk, call log and error are those of `Download`: lookup at the rewritten version, stop on a lookup error, otherwise all nine categories under `localDir/<name>`, then the first error |
| CookbookDownloadProperties.FirstFailingCategory | cookbook_download.go:42-58 | when category `i` is the first to fail, the download returns exactly its error, and the categories after it still run, on the world it left |
| CookbookDownloadProperties.RunAllFirstFailure | cookbook_download.go:42-58 | the same for any table of categories |
| CookbookDownloadProperties.DownloadDirectories | cookbook_download.go:40-52 | a download adds at most the directories of its non-empty categories and their ancestors (exactly those after a success in a well-formed tree), deletes no file, leaves the disk alone when the lookup fails and keeps the tree well formed |
| CookbookDownloadProperties.EmptyCategoryGetsNoDirectory | cookbook_download.go:67-69 | the subdirectory of an empty category other than the root files exists after a download exactly when it existed before |
| CookbookDownloadProperties.DownloadWritesEveryItem | cookbook_download.go:40-51 | after a successful download, every item of every category is in its destination and holds exactly the body served for its URL, provided no category lists two items of one name |
| CookbookDownloadProperties.FetchFileOk | cookbook_download.go:87-108 | a successful file download writes exactly the served body to that file, changes no directory and logs exactly that one request |
| CookbookDownloadProperties.FetchFileSucceeds | cookbook_download.go:87-108 | in a well-formed tree, a file download into an existing directory succeeds when the body is served, the path is no directory and the host accepts creating and writing it, and the tree stays well formed |
| CookbookDownloadProperties.FetchEachFiles | cookbook_download.go:76-81 | a successful item loop changes no directory, and the files are the old ones overwritten by each destination's last item's body |
| CookbookDownloadProperties.FetchEachFetched | cookbook_download.go:76-81 | after a successful item loop every item's file exists, its URL is served and the host accepts writing it |
| CookbookDownloadProperties.FetchEachSucceeds | cookbook_download.go:76-81 | in a well-formed tree, an item loop into an existing directory whose items can all be fetched succeeds, sends one request per item in order, and leaves the old files overwritten by each destination's last item's body |
| CookbookDownloadProperties.FetchEachFirst | cookbook_download.go:76-81 | when every item can be fetched, the loop writes the first item and goes on with the rest in a tree that is still well formed, where every remaining item can still be fetched |
| CookbookDownloadProperties.DownloadItemsSucceeds | cookbook_download.go:66-84 | in a well-formed tree, a non-empty category whose directory has no file on its way and may be made, and whose items can all be fetched, succeeds, adds exactly its directory and ancestors and overwrites the old files with its items' bodies |
| CookbookDownloadProperties.RunAllFiles | cookbook_download.go:42-52 | when every category succeeds, the files are the old ones overwritten by what each category writes, later categories winning |
| CookbookDownloadProperties.RunAllFetched | cookbook_download.go:42-52 | when every category succeeds, every item of every category was fetched into that category's directory |
| CookbookDownloadProperties.RunAllSucceeds | cookbook_download.go:42-52 | in a well-formed tree that already has every non-empty category's directory and where every item can be fetched, all categories succeed, no directory is added and the files are the old ones overwritten by what the categories write |
| CookbookDownloadProperties.DownloadFiles | cookbook_download.go:40-58 | after a successful download from a well-formed tree, the directories are the old ones plus those of the non-empty categories and their ancestors, and the files are the old ones overwritten by what the nine categories write, in table order |
| Os.FilePrefix | cookbook_download.go:72 | the longest prefix of a path that is a file: it is a file, and no longer prefix is one; 0 when none is |
| Os.DirHasNoFilePrefix | cookbook_download.go:100 | in a well-formed tree no prefix of a directory is a file |
| CookbookDownloadProperties.EmptyCookbookDownload | cookbook_download_test.go:58-73 | a manifest with no items downloads without error, and the only call it leaves in the log is the version lookup |
| CookbookDownloadProperties.RerunChangesNothing | cookbook_download.go:25-62 | after a successful download into a well-formed tree, downloading the same manifest into the same place again succeeds and leaves the disk exactly as the first download left it; when a category lists two items of one name, both downloads write them in the same order, so the same last one wins |
| CookbookDownloadProperties.RerunSetup | cookbook_download.go:25-62 | a successful download into a well-formed tree leaves a well-formed tree in which every non-empty category's directory exists, every item can be fetched again, and the files are the old ones overwritten by what the categories wrote |
| CookbookDownloadProperties.ExampleManifest | cookbook_download_test.go:79-115 | the manifest of `foo` 0.2.1 has one root file, `metadata.rb`, one recipe, `default.rb`, and nothing else |
| CookbookDownloadProperties.ExampleCategories | cookbook_download_test.go:136-141 | in that manifest, `metadata.rb` goes to `<cookbook>/metadata.rb`, `default.rb` to `<cookbook>/recipes/default.rb`, and the other seven categories are empty |
| CookbookDownloadProperties.ExampleItemWritten | cookbook_download_test.go:144-153 | in a manifest with at most one item per category, a downloaded item's file holds the body served for it |
| CookbookDownloadProperties.ExampleDirectories | cookbook_download_test.go:142-143 | after a successful download of the example, the cookbook directory and its `recipes` subdirectory exist, and no other category's subdirectory was created |
| CookbookDownloadProperties.ExampleFiles | cookbook_download_test.go:144-153 | after a successful download of the example, `metadata.rb` and `recipes/default.rb` exist and hold exactly the bytes served for their URLs |
| CookbookDownloadProperties.ExampleSucceeds | cookbook_download_test.go:133-134 | downloading the example into an empty host whose server answers both URLs and which refuses nothing returns nil, and leaves exactly the cookbook directory with its ancestors and `recipes`, and the two files holding the served bodies |
| CookbookDownloadProperties.ExampleServer | cookbook_download_test.go:123-131 | the test's server answers the lookup of `foo` 0.2.1 with the example manifest, serves `name 'foo'` and `log 'this is a resource'` at the two bookshelf URLs, and the host refuses nothing: what `ExampleSucceeds` asks for |
| CookbookDownloadProperties.ExampleRunAll | cookbook_download_test.go:133-153 | the nine categories of the example, into an empty host, all succeed and leave exactly the cookbook directory with all its ancestors (those of `localDir` included), its `recipes` subdirectory, and the two files holding the served bodies |
| CookbookDownloadProperties.ExampleRootFiles | cookbook_download_test.go:138 | the root files of the example make the cookbook directory and write only `metadata.rb` |
| CookbookDownloadProperties.ExampleRecipes | cookbook_download_test.go:139-140 | the recipes of the example, once `metadata.rb` is in place, make `recipes` and write only `default.rb` |

## Left out

- `DownloadCookbook` (cookbook_download.go:15-22) is not modelled. It only obtains the working directory through `os.Getwd` and passes it to `DownloadCookbookAt`, which takes `localDir` as a parameter here.
- The progress messages printed with `fmt.Printf` (cookbook_download.go:37, 60, 71) are console output and are not modelled.
- Closing the response body (cookbook_download.go:93-95) and the file handle from `os.Create`, which the Go code never closes (cookbook_download.go:100), are resource lifetimes with no effect on the disk contents modelled here.
- The permission bits `0755` of `MkdirAll` are not recorded. Directories carry no mode.
- Os.FileSystem.MkdirAll: a refusal from the host is modelled as creating nothing, although a real `MkdirAll` may have created some ancestors before it failed.
- Os.FileSystem.Copy: partial writes are not modelled. A failed copy leaves the created file empty, with no prefix of the body written.
- HTTP transport, authentication, the status check in `Do`, and decoding the manifest JSON are foreign code. They are the injected functions of `ChefClient.Api`. `Served` stands for "build, then execute, the GET request".
- Cleaning done by `path.Join` (collapsing `.`, `..`, empty segments and separators inside a name) is not modelled. Each item name is one path segment.
- The nine literal calls of cookbook_download.go:43-51 are modelled as one loop over the `Categories` table, which lists each category with its label, item list and destination in the same order.
- Host faults are a fixed answer per path and operation. A host whose answer changes between two calls on the same path is not modelled.
- A failure to read the response body during `io.Copy` (cookbook_download.go:105) appears only as a per-path write fault, `PathError("write", …)`, whereas Go returns the transport's error.
- The `Api` functions answer a given request the same way every time. `RerunChangesNothing` and the lemmas about file contents rely on this; a server whose answers change between two downloads is not modelled.
- DownloadWritesEveryItem: requires that no category lists two items with the same name. With duplicates, the later item overwrites the earlier one's file, and only the last one's content is guaranteed.
- RerunChangesNothing: requires a well-formed starting tree. Every real directory tree is one: the ancestors of a directory are directories, each file sits in a directory, and no path is both a file and a directory. So the requirement excludes no disk the Go code can meet.
- ExampleSucceeds: starts from an empty host, so `localDir` itself is created too, whereas the test's temporary directory already exists. `http://server` in `MetadataUrl` and `RecipeUrl` stands for the test server's address.
- The checksum and specificity of an item are carried in the data but never checked, as in the Go code.
