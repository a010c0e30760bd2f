/**
 * The decoded HAR document, as far as the parser reads it, and the library
 * functions the parser calls but whose internals are not modelled.
 *
 * Every key the parser looks up with `dict.get(key, default)` or `key in d` is
 * an `Option` here: `None` is a missing key.
 */
module HarFormat {
  import opened Wrappers

  /** A JSON value as `json.loads` yields it for a request body (numbers as integers). */
  datatype Json =
    | JNull
    | JBool(b: bool)
    | JNumber(n: int)
    | JString(s: string)
    | JArray(items: seq<Json>)
    | JObject(members: seq<(string, Json)>)

  /** One element of a `headers` or `queryString` list. */
  datatype NameValue = NameValue(name: Option<string>, value: Option<string>)

  /** The `postData` object of a request; only its `text` is read. */
  datatype PostData = PostData(text: Option<string>)

  datatype Request = Request(
    httpMethod: Option<string>,
    url: Option<string>,
    headers: Option<seq<NameValue>>,
    queryString: Option<seq<NameValue>>,
    postData: Option<PostData>)

  datatype Response = Response(status: Option<int>, bodySize: Option<int>)

  /** One element of `log.entries`: a recorded request/response pair and its elapsed time. */
  datatype Entry = Entry(request: Option<Request>, response: Option<Response>, time: Option<int>)

  datatype Log = Log(entries: Option<seq<Entry>>)

  /** The root object of a HAR file; `{}` is `HarDocument(None)`. */
  datatype HarDocument = HarDocument(log: Option<Log>)

  /** The three components of `urllib.parse.urlparse(url)` the parser uses. */
  datatype UrlParts = UrlParts(scheme: string, netloc: string, path: string)

  /**
   * The library behaviour the parser relies on, left uninterpreted:
   * `urlparse` splits a URL, `patternCompiles` says whether `re` accepts a
   * pattern (otherwise `re.search` raises `re.error`), `search` is `re.search`
   * succeeding on a string, and `jsonLoads` is `json.loads`, `None` when it
   * raises `JSONDecodeError`.
   */
  datatype Externals = Externals(
    urlparse: string -> UrlParts,
    patternCompiles: string -> bool,
    search: (string, string) -> bool,
    jsonLoads: string -> Option<Json>)
}
