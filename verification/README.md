# HAR inspector: extraction, filtering and export engine

A Dafny model of `HarParser`, the core of a tool that reads an HTTP Archive
(HAR) capture. A HAR capture is a JSON document listing recorded HTTP
transactions. The tool turns each transaction into a flat endpoint record:

- URL
- method
- scheme
- netloc
- path
- query parameters
- headers
- request body
- status
- size
- time

The model covers four operations:

- `get_endpoints` walks `log.entries` in order. It filters by domain, HTTP method, status code and a regex path pattern, and returns the records of the entries that pass.
- `get_unique_domains` returns the set of netlocs of all entries.
- `get_api_endpoints` runs `get_endpoints` with one alternation pattern joined from a pattern list.
- `export_endpoints` chooses JSON or CSV from the lower-cased file extension. CSV keeps eight scalar columns and falls back to a fixed message when there are no records.

Files:

- `wrappers.dfy`: `Option` and `Result`.
- `har_format.dfy` (module `HarFormat`): the decoded HAR document. Every key the parser reads with `dict.get` or `in` is an `Option`. It also holds `Externals`, the library functions the parser calls, left uninterpreted:
  - `urllib.parse.urlparse`;
  - whether `re` compiles a pattern, and `re.search`;
  - `json.loads`.

  Every property of `HarParser` and `HarExport` below holds for every behaviour of those functions. The `SampleCapture` lemmas constrain them, through their preconditions, only on the inputs the sample gives them.
- `har_parser.dfy` (module `HarParser`): the three extraction operations.
  - They are methods with the source's loops. `FoldPairs` fills the header and query dictionaries. `GetEndpoints` appends records. `GetUniqueDomains` adds domains.
  - The loops call pure helpers for the per-entry filter test (`Check`) and the record (`BuildRecord`).
  - Each method is proved equal to a specification function: `Endpoints`, `PairsToMap` or `UniqueDomains`.
  - Lemmas prove what those functions mean.
  - A `HarParser` object is never modified after loading. So its methods take the loaded document `doc`, which is the only state they read.
- `har_export.dfy` (module `HarExport`): `export_endpoints`. It returns the file content as a value: the JSON record list, the placeholder text, or the CSV header and rows.
- `sample_capture.dfy` (module `SampleCapture`): the two-transaction capture of the unit tests. It states what extraction, filtering, the API heuristic, domain listing and CSV export give on it.

Python's truthiness decides whether a filter is active. `None`, `""` and `0` all turn a filter off, so a status filter of `0` filters nothing. A path pattern that `re` cannot compile raises `re.error`. This happens only when some entry gets past the domain, method and status tests, and the model returns it as `Failure(InvalidPattern(p))`.

## Model

| member | source | states |
|---|---|---|
| `HarParser.GetEndpoints` | har_inspector/parser.py:37-121 | Equals `Endpoints`. With no `log` or no `entries` it returns an empty list. |
| `HarParser.FoldPairs` | har_inspector/parser.py:84-92 | The dictionary the loop builds equals the in-order insertion of every (name, value) pair, with `''` for a missing name or value. |
| `HarParser.PairsToMapIsLastWins` | har_inspector/parser.py:84-92 | The keys of the folded dictionary are exactly the names in the list. Each key maps to the value of the last pair with that name. |
| `HarParser.PostBodyOf` | har_inspector/parser.py:94-103 | `post_data` is absent when the request has no `postData` key, or when its `text` (default `''`) loads as JSON `null`. It is the raw text exactly when `json.loads` rejects the text, and otherwise the decoded value. |
| `HarParser.ToRecord` | har_inspector/parser.py:60-116 | Each field is read from the raw entry: url and method default to `''`, status, size and time to 0, and query parameters and headers are the last-wins dictionaries of the lists (empty when missing). Protocol, domain and path are the scheme, netloc and path that `urlparse` gives for the URL. The body is `PostBodyOf`. |
| `HarParser.BuildRecord` | har_inspector/parser.py:105-117 | The record keeps the dictionaries the loop built. Given the folds of the entry's own query and header lists, it is the entry's record. |
| `HarParser.Check` | har_inspector/parser.py:66-82 | An entry raises only when the path pattern is set and does not compile. A kept entry passes every set test: netloc equals the domain, the request's method and the response's status equal the filters, and the pattern compiles and is found in the path. |
| `HarParser.CheckAgreesWithRecord` | har_inspector/parser.py:66-82 | An entry is kept exactly when its record satisfies every set filter. It raises exactly when it passes the domain, method and status tests and the set pattern does not compile. |
| `HarParser.KeptIndicesExact` | har_inspector/parser.py:59-82 | The kept positions are strictly increasing and in range. They are exactly the entries that pass all filters. |
| `HarParser.RecordsFromKeptEntries` | har_inspector/parser.py:57-121 | The k-th returned record is the record of the k-th kept entry. There is one record per kept entry, in entry order, and no merging or splitting. |
| `HarParser.RecordsAreSelectedRecords` | har_inspector/parser.py:59-119 | Extraction equals building the record of every entry and then keeping, in order, those that satisfy the conjunction of the filters. So the kept records do not depend on the order of the tests. Whether the call raises does depend on it, since the pattern test comes last. |
| `HarParser.EndpointsSatisfyFilters` | har_inspector/parser.py:66-82 | Every returned record matches each filter that is set: domain equals netloc, method, status, and a regex search on the path. |
| `HarParser.EndpointsFailIff` | har_inspector/parser.py:80-82 | `get_endpoints` raises exactly when the pattern is set, does not compile, and some entry passes the domain, method and status filters. The error carries the pattern. |
| `HarParser.SelectIsSound` | har_inspector/parser.py:66-82 | Every record that filtering keeps comes from the input and satisfies every set filter. |
| `HarParser.SelectAppend` | har_inspector/parser.py:59-119 | Appending one record to the input appends it to the output exactly when it satisfies the filters. |
| `HarParser.SelectIsIdempotent` | har_inspector/parser.py:66-82 | Filtering twice by the same filters is filtering once. |
| `HarParser.SelectCommutes` | har_inspector/parser.py:66-82 | Filtering by one set of filters and then another gives the same records, in the same order, as the other way round. |
| `HarParser.RefilteringEndpointsChangesNothing` | har_inspector/parser.py:57-121 | Filtering a result of `get_endpoints` again by the same filters returns it unchanged. |
| `HarParser.NoFiltersKeepEverything` | har_inspector/parser.py:57-121 | With every filter absent or falsy, the result is the record of every entry, in order, and its length is the number of entries. |
| `HarParser.FalsyFiltersAreIgnored` | har_inspector/parser.py:66-82 | Passing `""` or `0` for a filter gives the same result, or the same error, as omitting it. |
| `HarParser.GetUniqueDomains` | har_inspector/parser.py:130-139 | Returns the set of netlocs of all entries' URLs, and the empty set when there is no `log` or no `entries`. |
| `HarParser.EndpointDomainsAreListed` | har_inspector/parser.py:130-139 | The domain of every record returned by any `get_endpoints` call is in the unique-domain set. |
| `HarParser.UniqueDomainsOfAllRecords` | har_inspector/parser.py:130-139 | The unique domains are exactly the domains of the unfiltered records. |
| `HarParser.Join` | har_inspector/parser.py:162 | With a non-empty separator, the joined pattern is `''` exactly when the list is empty or holds one empty pattern. |
| `HarParser.ApiFilters` | har_inspector/parser.py:151-163 | `get_api_endpoints` sets no domain, method or status filter. Only the alternation of the given patterns, or of the default six, is passed. |
| `HarParser.GetApiEndpoints` | har_inspector/parser.py:141-163 | Equals `get_endpoints` with only the joined path pattern, the default list being used when the argument is `None`. |
| `HarParser.EmptyApiPatternListKeepsEverything` | har_inspector/parser.py:151-163 | An explicit empty list joins to the falsy `''`, so every entry's record is returned. |
| `HarParser.ApiEndpointsAreSearchMatches` | har_inspector/parser.py:162-163 | The API records are the records, in order, of all entries whose path the joined pattern finds, whatever their domain, method or status. |
| `HarExport.Extension` | har_inspector/parser.py:173 | A file name has an extension exactly when its last path component holds a dot after some character that is not a dot, so leading dots do not count. A non-empty extension is a suffix of the file name. It starts at a dot and holds no other dot and no `/`. |
| `HarExport.Lower` | har_inspector/parser.py:173 | Lower-casing keeps the length of the extension. Only ASCII letters change, which is enough for the two comparisons that `LowerMatchesExtensions` states. |
| `HarExport.LowerMatchesExtensions` | har_inspector/parser.py:173-178 | An extension lower-cases to `.csv`, or to `.json`, exactly when it is that word in any mix of upper and lower case. |
| `HarExport.FlattenRecord` | har_inspector/parser.py:186-196 | The row holds the record's url, method, protocol, domain, path, status, size and time. |
| `HarExport.FlattenKeepsScalarsOnly` | har_inspector/parser.py:186-196 | Two records give the same CSV row exactly when their eight scalar fields agree. Headers, query parameters and body are dropped. |
| `HarExport.ExportEndpoints` | har_inspector/parser.py:173-204 | `.json` (any case) gives the whole record list. `.csv` with no records gives exactly `No endpoints found`. `.csv` otherwise gives header `url,method,protocol,domain,path,status_code,response_size,time` and one flattened row per record, in order. Any other extension raises `UnsupportedFormat` carrying the lower-cased extension. |
| `SampleCapture.SampleAllEndpoints` | har_inspector/tests/test_parser.py:71-76 | With no filters the sample gives two records in capture order: the GET with its domain, path, query, headers, status, size and time, then the POST. |
| `SampleCapture.SampleLoginBodyIsParsed` | har_inspector/parser.py:94-103 | The sample POST body, which `json.loads` decodes to an object, is stored decoded. |
| `SampleCapture.SampleDomainFilter` | har_inspector/tests/test_parser.py:78-81 | Filtering the sample by `api.example.com` leaves only the GET. |
| `SampleCapture.SampleMethodFilter` | har_inspector/tests/test_parser.py:83-86 | Filtering the sample by `POST` leaves only the POST. |
| `SampleCapture.SampleApiEndpoints` | har_inspector/tests/test_parser.py:88-91 | The default API patterns keep only the `/v1/users` GET. |
| `SampleCapture.SampleDomains` | har_inspector/tests/test_parser.py:93-97 | The sample's unique domains are exactly `api.example.com` and `example.com`. |
| `SampleCapture.EmptyDocumentYieldsNothing` | har_inspector/tests/test_parser.py:148-157 | A `{}` document gives no records and no domains, whatever the filters. |
| `SampleCapture.HiddenCsvNameHasNoExtension` | har_inspector/parser.py:173 | A file named `.csv` has no extension, as `os.path.splitext` treats leading dots, so exporting to it is refused. |
| `SampleCapture.UpperCaseCsvExtension` | har_inspector/parser.py:173 | `out/Report.CSV` dispatches as `.csv`. |
| `SampleCapture.ExportSampleAsCsv` | har_inspector/tests/test_parser.py:116-131 | Exporting the sample to `output.csv` gives the column header and two rows, the first for `api.example.com` and the second for the login URL. |

## Left out

- `_load_har_file` (har_inspector/parser.py:22-35) is not modelled: it opens and decodes a file. The operations take the decoded document. A top-level JSON value that is not an object is not modelled.
- The writes in `export_endpoints` are not modelled. This covers `json.dump` with its indentation, and `csv.DictWriter` quoting, escaping and line endings. The model returns the content as values: the record list, the text, or the header and typed rows.
- The internals of `urlparse` and `re` are left uninterpreted. So the model does not state that `re.search` of `'|'.join(ps)` finds a path exactly when one of `ps` does.
- `urlparse` raising `ValueError` on a malformed bracketed host is not modelled: the URL splitter is total. This raise would abort `get_endpoints` and `get_unique_domains`. The code does not catch this error, so one malformed URL aborts the whole call.
- Entries that are not dictionaries and values of the wrong type are not modelled. In the source these raise `AttributeError` or `TypeError`. One case is a `postData.text` of `null`, which the source keeps as `None` after `json.loads` raises `TypeError`.
- Numbers (`status`, `bodySize`, `time`) are integers. A floating-point `time` is not modelled.
- `Json` numbers are integers, so a decoded request body holding a fractional or exponent number is not modelled.
- `PostBody` tags a decoded body `Parsed` and an undecodable one `Raw`. In Python, a body that decodes to a JSON string is the same kind of value as a raw text.
- `HarExport.Lower` changes only ASCII letters, unlike Python's full Unicode `str.lower`. No non-ASCII character lower-cases into `.json` or `.csv`, so dispatch is unaffected. The extension carried by `UnsupportedFormat` can differ from Python's when it holds non-ASCII capitals.
- `HarExport.Extension` follows `posixpath.splitext`: `/` is the only separator. On Windows `os.path` is `ntpath`, which also splits at `\` and at a drive colon; that is not modelled.
- The JSON export round-trip is not modelled, because serialisation is not modelled.
- `har_inspector/cli.py` is not part of this model: argument parsing and printing.
