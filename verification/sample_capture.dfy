/**
 * The two-transaction capture of the parser's unit tests, and what the model
 * says about it: a GET of `https://api.example.com/v1/users` with a query
 * parameter and an `Accept` header, and a POST of JSON credentials to
 * `https://example.com/login`.
 *
 * The URL splitter, regex engine and JSON decoder are constrained only on the
 * inputs the capture gives them.
 */
module SampleCapture {
  import opened Wrappers
  import opened HarFormat
  import opened HarParser
  import opened HarExport

  const UsersUrl := "https://api.example.com/v1/users"
  const LoginUrl := "https://example.com/login"
  const LoginBody := "{\"username\":\"test\",\"password\":\"test123\"}"

  const UsersEntry := Entry(
    Some(Request(Some("GET"), Some(UsersUrl),
                 Some([NameValue(Some("Accept"), Some("application/json"))]),
                 Some([NameValue(Some("page"), Some("1"))]),
                 None)),
    Some(Response(Some(200), Some(1024))),
    Some(150))

  const LoginEntry := Entry(
    Some(Request(Some("POST"), Some(LoginUrl),
                 Some([NameValue(Some("Content-Type"), Some("application/json"))]),
                 None,
                 Some(PostData(Some(LoginBody))))),
    Some(Response(Some(200), Some(512))),
    Some(200))

  const Sample := HarDocument(Some(Log(Some([UsersEntry, LoginEntry]))))

  /** `urlparse` splits the two URLs of the capture as usual. */
  predicate SplitsSampleUrls(x: Externals) {
    && x.urlparse(UsersUrl) == UrlParts("https", "api.example.com", "/v1/users")
    && x.urlparse(LoginUrl) == UrlParts("https", "example.com", "/login")
  }

  lemma SampleRecordsUnfold(f: Filters, x: Externals)
    ensures Records([UsersEntry, LoginEntry], f, x) ==
      (if Check(UsersEntry, f, x) == Keep then [ToRecord(UsersEntry, x)] else []) +
      (if Check(LoginEntry, f, x) == Keep then [ToRecord(LoginEntry, x)] else [])
  {
    var es := [UsersEntry, LoginEntry];
    assert es[..1] == [UsersEntry];
    assert [UsersEntry][..0] == [];
    assert Records([UsersEntry], f, x) ==
      (if Check(UsersEntry, f, x) == Keep then [ToRecord(UsersEntry, x)] else []);
    assert Records(es, f, x) == Records([UsersEntry], f, x) +
      (if Check(LoginEntry, f, x) == Keep then [ToRecord(LoginEntry, x)] else []);
  }

  /** Without filters both transactions come back, in capture order, with their fields. */
  lemma SampleAllEndpoints(x: Externals)
    requires SplitsSampleUrls(x)
    ensures var r := Endpoints(Sample, NoFilters, x);
      && r.Success? && |r.value| == 2
      && r.value[0].httpMethod == "GET" && r.value[0].domain == "api.example.com"
      && r.value[0].path == "/v1/users" && r.value[0].protocol == "https"
      && r.value[0].queryParams == map["page" := "1"]
      && r.value[0].headers == map["Accept" := "application/json"]
      && r.value[0].postData == None
      && r.value[0].statusCode == 200 && r.value[0].responseSize == 1024 && r.value[0].time == 150
      && r.value[1].httpMethod == "POST" && r.value[1].url == LoginUrl && r.value[1].domain == "example.com"
      && r.value[1].queryParams == map[]
      && r.value[1].statusCode == 200 && r.value[1].responseSize == 512 && r.value[1].time == 200
  {
    SampleRecordsUnfold(NoFilters, x);
    var q := [NameValue(Some("page"), Some("1"))];
    assert q[..0] == [];
    var h := [NameValue(Some("Accept"), Some("application/json"))];
    assert h[..0] == [];
  }

  /** The login body is a JSON object, so the record holds the decoded object, not the text. */
  lemma SampleLoginBodyIsParsed(x: Externals, body: Json)
    requires SplitsSampleUrls(x)
    requires x.jsonLoads(LoginBody) == Some(body) && body.JObject?
    ensures var r := Endpoints(Sample, NoFilters, x);
      r.Success? && |r.value| == 2 && r.value[1].postData == Some(Parsed(body))
  {
    SampleRecordsUnfold(NoFilters, x);
  }

  /** Filtering by the domain `api.example.com` leaves only the GET. */
  lemma SampleDomainFilter(x: Externals)
    requires SplitsSampleUrls(x)
    ensures var r := Endpoints(Sample, Filters(Some("api.example.com"), None, None, None), x);
      r.Success? && |r.value| == 1 && r.value[0].domain == "api.example.com" && r.value[0].httpMethod == "GET"
  {
    SampleRecordsUnfold(Filters(Some("api.example.com"), None, None, None), x);
  }

  /** Filtering by the method `POST` leaves only the login. */
  lemma SampleMethodFilter(x: Externals)
    requires SplitsSampleUrls(x)
    ensures var r := Endpoints(Sample, Filters(None, Some("POST"), None, None), x);
      r.Success? && |r.value| == 1 && r.value[0].httpMethod == "POST"
  {
    SampleRecordsUnfold(Filters(None, Some("POST"), None, None), x);
  }

  /** With the default patterns, and a regex engine that finds the `/v<digits>/` alternative in
      `/v1/users` and nothing in `/login`, only the GET is an API endpoint. */
  lemma SampleApiEndpoints(x: Externals)
    requires SplitsSampleUrls(x)
    requires var p := Join(DefaultApiPatterns, "|");
      x.patternCompiles(p) && x.search(p, "/v1/users") && !x.search(p, "/login")
    ensures var r := Endpoints(Sample, ApiFilters(None), x);
      r.Success? && |r.value| == 1 && r.value[0].domain == "api.example.com"
  {
    var p := Join(DefaultApiPatterns, "|");
    assert p != "";
    SampleRecordsUnfold(ApiFilters(None), x);
  }

  /** The capture touches exactly two domains. */
  lemma SampleDomains(x: Externals)
    requires SplitsSampleUrls(x)
    ensures UniqueDomains(Sample, x) == {"api.example.com", "example.com"}
  {
    var es := [UsersEntry, LoginEntry];
    var ds := UniqueDomains(Sample, x);
    assert ds == set e | e in es :: DomainOf(e, x);
    assert UsersEntry in es && LoginEntry in es;
    assert DomainOf(UsersEntry, x) == "api.example.com" && DomainOf(LoginEntry, x) == "example.com";
    forall d | d in ds ensures d == "api.example.com" || d == "example.com" {
      var e :| e in es && DomainOf(e, x) == d;
    }
  }

  /** A document without `log`, as `{}` decodes, yields no records and no domains. */
  lemma EmptyDocumentYieldsNothing(f: Filters, x: Externals)
    ensures Endpoints(HarDocument(None), f, x) == Success([])
    ensures UniqueDomains(HarDocument(None), x) == {}
  {
  }

  /** A file named `.csv` has no extension, so exporting to it is refused. */
  lemma HiddenCsvNameHasNoExtension()
    ensures Extension(".csv") == ""
  {
  }

  /** The extension of `out/Report.CSV` lower-cases to `.csv`. */
  lemma UpperCaseCsvExtension()
    ensures Lower(Extension("out/Report.CSV")) == ".csv"
  {
    var p := "out/Report.CSV";
    RFindIsLast(p, '/');
    RFindIsLast(p, '.');
    assert RFind(p, '.') == 10 by {
      assert p[10] == '.' && p[11] != '.' && p[12] != '.' && p[13] != '.';
    }
    assert RFind(p, '/') == 3 by {
      assert p[3] == '/' && forall j :: 3 < j < |p| ==> p[j] != '/';
    }
    assert p[4] != '.';
    assert p[10..] == ".CSV";
    assert Extension(p) == ".CSV";
  }

  /** The extension of `output.csv` is `.csv`. */
  lemma OutputCsvExtension()
    ensures Lower(Extension("output.csv")) == ".csv"
  {
    var p := "output.csv";
    RFindIsLast(p, '/');
    RFindIsLast(p, '.');
    assert RFind(p, '.') == 6 by {
      assert p[6] == '.' && p[7] != '.' && p[8] != '.' && p[9] != '.';
    }
    assert '/' !in p;
    assert p[0] != '.';
    assert p[6..] == ".csv";
  }

  /** Exporting the unfiltered capture to `output.csv` gives the header and two data rows. */
  method ExportSampleAsCsv(x: Externals) returns (out: Result<ExportOutput, ExportError>)
    requires SplitsSampleUrls(x)
    ensures out.Success? && out.value.CsvTable? && out.value.header == CsvColumns
    ensures |out.value.rows| == 2
    ensures out.value.rows[0].domain == "api.example.com" && out.value.rows[1].url == LoginUrl
  {
    var endpoints := GetEndpoints(Sample, NoFilters, x);
    SampleAllEndpoints(x);
    OutputCsvExtension();
    out := ExportEndpoints(endpoints.value, "output.csv");
  }
}
