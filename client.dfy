/** The API client the download drives: the cookbook manifest it decodes and
    the three remote calls, as functions supplied by the environment. */
module ChefClient {
  import opened Common

  /** One file of a cookbook; the download uses only `name` and `url`. */
  datatype CookbookItem = CookbookItem(url: string, path: string, name: string, checksum: string, specificity: string)

  /** A cookbook version as the server describes it; `name` is `{NAME}-{VERSION}`. */
  datatype Manifest = Manifest(
    cookbookName: string,
    name: string,
    version: string,
    rootFiles: seq<CookbookItem>,
    files: seq<CookbookItem>,
    templates: seq<CookbookItem>,
    attributes: seq<CookbookItem>,
    recipes: seq<CookbookItem>,
    definitions: seq<CookbookItem>,
    libraries: seq<CookbookItem>,
    providers: seq<CookbookItem>,
    resources: seq<CookbookItem>)

  datatype Request = Request(verb: string, url: string)

  /** What the client sends over the network, in order. */
  datatype Call = VersionLookup(name: string, version: string) | Send(request: Request)

  /** The server and transport: `GetVersion`, `NewRequest` and `Do`. */
  datatype Api = Api(
    getVersion: (string, string) -> Result<Manifest>,
    newRequest: (string, string) -> Result<Request>,
    execute: Request -> Result<Bytes>)

  class Client {
    const api: Api
    var calls: seq<Call>

    constructor (api: Api)
      ensures this.api == api && calls == []
    {
      this.api := api;
      calls := [];
    }

    /** Builds a request without sending anything. */
    method NewRequest(verb: string, url: string) returns (r: Result<Request>)
      ensures r == api.newRequest(verb, url)
    {
      r := api.newRequest(verb, url);
    }

    /** Sends a request; a transport failure or a non-2xx status is an error. */
    method Do(request: Request) returns (r: Result<Bytes>)
      modifies this
      ensures calls == old(calls) + [Send(request)]
      ensures r == api.execute(request)
    {
      calls := calls + [Send(request)];
      r := api.execute(request);
    }

    /** Fetches the manifest of cookbook `name` at `version`. */
    method GetVersion(name: string, version: string) returns (r: Result<Manifest>)
      modifies this
      ensures calls == old(calls) + [VersionLookup(name, version)]
      ensures r == api.getVersion(name, version)
    {
      calls := calls + [VersionLookup(name, version)];
      r := api.getVersion(name, version);
    }
  }
}
