/**
 * The extraction and filtering engine of `HarParser`: endpoint records built
 * from the entries of a loaded HAR document, filtered by domain, method,
 * status code and path pattern; the set of domains; and the "API-like"
 * extraction.
 *
 * A `HarParser` object never changes after it has loaded its file, so each of
 * its methods is modelled as a method taking the loaded document `doc`.
 */
module HarParser {
  import opened Wrappers
  import opened HarFormat

  // ---------------------------------------------------------------------------
  // Reading an entry, with the default the parser supplies for each missing key
  // ---------------------------------------------------------------------------

  const NoRequest := Request(None, None, None, None, None)
  const NoResponse := Response(None, None)

  function RequestOf(e: Entry): Request { e.request.GetOr(NoRequest) }
  function ResponseOf(e: Entry): Response { e.response.GetOr(NoResponse) }
  function UrlOf(e: Entry): string { RequestOf(e).url.GetOr("") }
  function MethodOf(e: Entry): string { RequestOf(e).httpMethod.GetOr("") }
  function StatusOf(e: Entry): int { ResponseOf(e).status.GetOr(0) }
  function BodySizeOf(e: Entry): int { ResponseOf(e).bodySize.GetOr(0) }
  function TimeOf(e: Entry): int { e.time.GetOr(0) }
  function QueryOf(e: Entry): seq<NameValue> { RequestOf(e).queryString.GetOr([]) }
  function HeadersOf(e: Entry): seq<NameValue> { RequestOf(e).headers.GetOr([]) }
  function DomainOf(e: Entry, x: Externals): string { x.urlparse(UrlOf(e)).netloc }

  /** `log.entries`, or `None` when the document has no `log` or `log` has no `entries`. */
  function EntriesOf(doc: HarDocument): Option<seq<Entry>> {
    if doc.log.Some? then doc.log.value.entries else None
  }

  function EntriesOrEmpty(doc: HarDocument): seq<Entry> { EntriesOf(doc).GetOr([]) }

  // ---------------------------------------------------------------------------
  // Folding a name/value list into a dictionary
  // ---------------------------------------------------------------------------

  function NameOf(p: NameValue): string { p.name.GetOr("") }
  function ValueOf(p: NameValue): string { p.value.GetOr("") }

  /** The dictionary obtained by storing the pairs one after the other. */
  function PairsToMap(ps: seq<NameValue>): map<string, string>
    decreases |ps|
  {
    if ps == [] then map[]
    else PairsToMap(ps[..|ps| - 1])[NameOf(ps[|ps| - 1]) := ValueOf(ps[|ps| - 1])]
  }

  /** `v` is the value of the last pair in `ps` whose name is `k`. */
  predicate IsLastValue(ps: seq<NameValue>, k: string, v: string) {
    exists i :: 0 <= i < |ps| && NameOf(ps[i]) == k && ValueOf(ps[i]) == v &&
      forall j :: i < j < |ps| ==> NameOf(ps[j]) != k
  }

  /** Fills a fresh dictionary from the list, one pair at a time. */
  method FoldPairs(ps: seq<NameValue>) returns (m: map<string, string>)
    ensures m == PairsToMap(ps)
  {
    m := map[];
    var i := 0;
    while i < |ps|
      invariant 0 <= i <= |ps|
      invariant m == PairsToMap(ps[..i])
    {
      assert ps[..i + 1][..i] == ps[..i];
      m := m[NameOf(ps[i]) := ValueOf(ps[i])];
      i := i + 1;
    }
    assert ps[..|ps|] == ps;
  }

  /** The keys are exactly the names in the list, and each key maps to the value of its last occurrence. */
  lemma {:induction false} PairsToMapIsLastWins(ps: seq<NameValue>)
    ensures PairsToMap(ps).Keys == set i | 0 <= i < |ps| :: NameOf(ps[i])
    ensures forall k :: k in PairsToMap(ps) ==> IsLastValue(ps, k, PairsToMap(ps)[k])
    decreases |ps|
  {
    if ps != [] {
      var n := |ps| - 1;
      var init := ps[..n];
      PairsToMapIsLastWins(init);
      var m := PairsToMap(ps);
      forall k | k in m
        ensures IsLastValue(ps, k, m[k])
      {
        if k == NameOf(ps[n]) {
          assert ValueOf(ps[n]) == m[k];
        } else {
          var i :| 0 <= i < |init| && NameOf(init[i]) == k && ValueOf(init[i]) == PairsToMap(init)[k] &&
            forall j :: i < j < |init| ==> NameOf(init[j]) != k;
          assert ps[i] == init[i];
          assert forall j :: i < j < |ps| ==> NameOf(ps[j]) != k by {
            forall j | i < j < |ps| ensures NameOf(ps[j]) != k {
              if j < n { assert ps[j] == init[j]; }
            }
          }
        }
      }
      var names := set i | 0 <= i < |ps| :: NameOf(ps[i]);
      var initNames := set i | 0 <= i < |init| :: NameOf(init[i]);
      assert names == initNames + {NameOf(ps[n])} by {
        forall k | k in names ensures k in initNames + {NameOf(ps[n])} {
          var i :| 0 <= i < |ps| && NameOf(ps[i]) == k;
          if i < n { assert init[i] == ps[i]; }
        }
        forall k | k in initNames ensures k in names {
          var i :| 0 <= i < |init| && NameOf(init[i]) == k;
          assert ps[i] == init[i];
        }
      }
    }
  }

  // ---------------------------------------------------------------------------
  // Endpoint records
  // ---------------------------------------------------------------------------

  /** A request body: re-parsed JSON when `json.loads` accepts the text, otherwise the raw text. */
  datatype PostBody = Parsed(json: Json) | Raw(text: string)

  /** The flat record the parser builds for one entry. */
  datatype EndpointRecord = EndpointRecord(
    url: string,
    httpMethod: string,
    protocol: string,
    domain: string,
    path: string,
    queryParams: map<string, string>,
    headers: map<string, string>,
    postData: Option<PostBody>,
    statusCode: int,
    responseSize: int,
    time: int)

  /**
   * The `post_data` field: absent without a `postData` key; otherwise the JSON
   * that `json.loads` makes of its `text` (default `""`), or that text when it
   * does not parse. The JSON `null` loads as Python's `None`, so it too leaves
   * the field absent.
   */
  function PostBodyOf(e: Entry, x: Externals): (r: Option<PostBody>)
    ensures e.request.None? || e.request.value.postData.None? ==> r.None?
    ensures e.request.Some? && e.request.value.postData.Some? ==>
      var text := e.request.value.postData.value.text.GetOr("");
      && (r.None? <==> x.jsonLoads(text) == Some(JNull))
      && (r.Some? && r.value.Raw? <==> x.jsonLoads(text).None?)
      && (r.Some? && r.value.Raw? ==> r.value.text == text)
      && (r.Some? && r.value.Parsed? ==> x.jsonLoads(text) == Some(r.value.json))
  {
    var req := RequestOf(e);
    if req.postData.None? then None
    else
      var text := req.postData.value.text.GetOr("");
      match x.jsonLoads(text)
      case Some(JNull) => None
      case Some(j) => Some(Parsed(j))
      case None => Some(Raw(text))
  }

  /** The record of entry `e`, given its already folded query parameters and headers;
      with the folds of the entry's own lists it is the entry's record. */
  function BuildRecord(e: Entry, queryParams: map<string, string>, headers: map<string, string>,
                       x: Externals): (r: EndpointRecord)
    ensures r.queryParams == queryParams && r.headers == headers
    ensures queryParams == PairsToMap(QueryOf(e)) && headers == PairsToMap(HeadersOf(e)) ==> r == ToRecord(e, x)
  {
    var url := UrlOf(e);
    var parts := x.urlparse(url);
    EndpointRecord(url, MethodOf(e), parts.scheme, parts.netloc, parts.path, queryParams, headers,
                   PostBodyOf(e, x), StatusOf(e), BodySizeOf(e), TimeOf(e))
  }

  /**
   * The record of entry `e`. Each field is read from the entry, with `""`, `0`
   * or an empty list when the key, or the object holding it, is missing; the
   * protocol, domain and path are the components of the URL.
   */
  function ToRecord(e: Entry, x: Externals): (r: EndpointRecord)
    ensures r.url == (if e.request.Some? then e.request.value.url.GetOr("") else "")
    ensures r.httpMethod == (if e.request.Some? then e.request.value.httpMethod.GetOr("") else "")
    ensures x.urlparse(r.url) == UrlParts(r.protocol, r.domain, r.path)
    ensures r.domain == x.urlparse(if e.request.Some? then e.request.value.url.GetOr("") else "").netloc
    ensures r.queryParams == PairsToMap(if e.request.Some? then e.request.value.queryString.GetOr([]) else [])
    ensures r.headers == PairsToMap(if e.request.Some? then e.request.value.headers.GetOr([]) else [])
    ensures r.postData == PostBodyOf(e, x)
    ensures r.statusCode == (if e.response.Some? then e.response.value.status.GetOr(0) else 0)
    ensures r.responseSize == (if e.response.Some? then e.response.value.bodySize.GetOr(0) else 0)
    ensures r.time == e.time.GetOr(0)
  {
    var url := UrlOf(e);
    var parts := x.urlparse(url);
    EndpointRecord(url, MethodOf(e), parts.scheme, parts.netloc, parts.path,
                   PairsToMap(QueryOf(e)), PairsToMap(HeadersOf(e)),
                   PostBodyOf(e, x), StatusOf(e), BodySizeOf(e), TimeOf(e))
  }

  // ---------------------------------------------------------------------------
  // Filters
  // ---------------------------------------------------------------------------

  /** The optional arguments of `get_endpoints`; `None` is an omitted argument. */
  datatype Filters = Filters(
    domain: Option<string>,
    httpMethod: Option<string>,
    statusCode: Option<int>,
    pathPattern: Option<string>)

  const NoFilters := Filters(None, None, None, None)

  /** Python truthiness of an optional string: neither `None` nor `""`. */
  predicate IsSet(o: Option<string>) { o.Some? && o.value != "" }

  /** Python truthiness of an optional integer: neither `None` nor `0`. */
  predicate IsSetCode(o: Option<int>) { o.Some? && o.value != 0 }

  /** What the loop does with one entry: keep it, skip it, or raise `re.error`. */
  datatype Verdict = Keep | Skip | Raise

  /**
   * The four filter tests, in the order the parser applies them: `re.error` is
   * raised only for a set pattern that does not compile, and a kept entry passes
   * every set test.
   */
  function Check(e: Entry, f: Filters, x: Externals): (v: Verdict)
    ensures v == Raise ==> IsSet(f.pathPattern) && !x.patternCompiles(f.pathPattern.value)
    ensures v == Keep ==>
      var parts := x.urlparse(if e.request.Some? then e.request.value.url.GetOr("") else "");
      && (IsSet(f.domain) ==> parts.netloc == f.domain.value)
      && (IsSet(f.httpMethod) ==> e.request.Some? && e.request.value.httpMethod == f.httpMethod)
      && (IsSetCode(f.statusCode) ==> e.response.Some? && e.response.value.status == f.statusCode)
      && (IsSet(f.pathPattern) ==> x.patternCompiles(f.pathPattern.value) && x.search(f.pathPattern.value, parts.path))
  {
    var parts := x.urlparse(UrlOf(e));
    if IsSet(f.domain) && parts.netloc != f.domain.value then Skip
    else if IsSet(f.httpMethod) && MethodOf(e) != f.httpMethod.value then Skip
    else if IsSetCode(f.statusCode) && StatusOf(e) != f.statusCode.value then Skip
    else if IsSet(f.pathPattern) && !x.patternCompiles(f.pathPattern.value) then Raise
    else if IsSet(f.pathPattern) && !x.search(f.pathPattern.value, parts.path) then Skip
    else Keep
  }

  /** The record agrees with every set domain, method and status filter. */
  predicate MatchesScalars(r: EndpointRecord, f: Filters) {
    && (IsSet(f.domain) ==> r.domain == f.domain.value)
    && (IsSet(f.httpMethod) ==> r.httpMethod == f.httpMethod.value)
    && (IsSetCode(f.statusCode) ==> r.statusCode == f.statusCode.value)
  }

  /** The record agrees with every set filter, the path pattern included. */
  predicate Satisfies(r: EndpointRecord, f: Filters, x: Externals) {
    && MatchesScalars(r, f)
    && (IsSet(f.pathPattern) ==> x.patternCompiles(f.pathPattern.value) && x.search(f.pathPattern.value, r.path))
  }

  /** An entry is kept exactly when its record satisfies the filters; it raises exactly when
      its record passes the other filters and the set pattern does not compile. */
  lemma CheckAgreesWithRecord(e: Entry, f: Filters, x: Externals)
    ensures Check(e, f, x) == Keep <==> Satisfies(ToRecord(e, x), f, x)
    ensures Check(e, f, x) == Raise <==>
      MatchesScalars(ToRecord(e, x), f) && IsSet(f.pathPattern) && !x.patternCompiles(f.pathPattern.value)
  {
  }

  /** The filters with every falsy value replaced by an omitted argument. */
  function Effective(f: Filters): Filters {
    Filters(if IsSet(f.domain) then f.domain else None,
            if IsSet(f.httpMethod) then f.httpMethod else None,
            if IsSetCode(f.statusCode) then f.statusCode else None,
            if IsSet(f.pathPattern) then f.pathPattern else None)
  }

  // ---------------------------------------------------------------------------
  // get_endpoints
  // ---------------------------------------------------------------------------

  /** `re.error` raised by `re.search` on a pattern it cannot compile. */
  datatype ExtractError = InvalidPattern(pattern: string)

  /** The records of the kept entries, in entry order. */
  function Records(es: seq<Entry>, f: Filters, x: Externals): seq<EndpointRecord>
    decreases |es|
  {
    if es == [] then []
    else
      var last := es[|es| - 1];
      Records(es[..|es| - 1], f, x) + (if Check(last, f, x) == Keep then [ToRecord(last, x)] else [])
  }

  /** The positions of the kept entries, in entry order. */
  function KeptIndices(es: seq<Entry>, f: Filters, x: Externals): seq<nat>
    decreases |es|
  {
    if es == [] then []
    else KeptIndices(es[..|es| - 1], f, x) + (if Check(es[|es| - 1], f, x) == Keep then [|es| - 1] else [])
  }

  /** The record of every entry, in entry order. */
  function AllRecords(es: seq<Entry>, x: Externals): (rs: seq<EndpointRecord>)
  {
    seq(|es|, i requires 0 <= i < |es| => ToRecord(es[i], x))
  }

  /** The records of `rs` that satisfy the filters, in order. */
  function Select(rs: seq<EndpointRecord>, f: Filters, x: Externals): seq<EndpointRecord>
    decreases |rs|
  {
    if rs == [] then []
    else Select(rs[..|rs| - 1], f, x) + (if Satisfies(rs[|rs| - 1], f, x) then [rs[|rs| - 1]] else [])
  }

  predicate RaisesOn(es: seq<Entry>, f: Filters, x: Externals) {
    exists i :: 0 <= i < |es| && Check(es[i], f, x) == Raise
  }

  /** What `get_endpoints(domain, method, status_code, path_pattern)` returns or raises. */
  function Endpoints(doc: HarDocument, f: Filters, x: Externals): Result<seq<EndpointRecord>, ExtractError> {
    match EntriesOf(doc)
    case None => Success([])
    case Some(es) =>
      if RaisesOn(es, f, x) then Failure(InvalidPattern(f.pathPattern.GetOr("")))
      else Success(Records(es, f, x))
  }

  method GetEndpoints(doc: HarDocument, f: Filters, x: Externals)
    returns (r: Result<seq<EndpointRecord>, ExtractError>)
    ensures r == Endpoints(doc, f, x)
    ensures EntriesOf(doc).None? ==> r == Success([])
  {
    if doc.log.None? || doc.log.value.entries.None? {
      return Success([]);
    }
    var es := doc.log.value.entries.value;
    var endpoints: seq<EndpointRecord> := [];
    var i := 0;
    while i < |es|
      invariant 0 <= i <= |es|
      invariant forall j :: 0 <= j < i ==> Check(es[j], f, x) != Raise
      invariant endpoints == Records(es[..i], f, x)
    {
      var entry := es[i];
      assert es[..i + 1][..i] == es[..i];
      var verdict := Check(entry, f, x);
      if verdict == Raise {
        return Failure(InvalidPattern(f.pathPattern.value));
      }
      if verdict == Keep {
        var queryParams := FoldPairs(QueryOf(entry));
        var headers := FoldPairs(HeadersOf(entry));
        endpoints := endpoints + [BuildRecord(entry, queryParams, headers, x)];
      }
      i := i + 1;
    }
    assert es[..|es|] == es;
    return Success(endpoints);
  }

  /** The kept positions are increasing, in range, and are exactly the entries whose verdict is Keep. */
  lemma {:induction false} KeptIndicesExact(es: seq<Entry>, f: Filters, x: Externals)
    ensures var ks := KeptIndices(es, f, x);
      && (forall k :: 0 <= k < |ks| ==> ks[k] < |es| && Check(es[ks[k]], f, x) == Keep)
      && (forall k1, k2 :: 0 <= k1 < k2 < |ks| ==> ks[k1] < ks[k2])
      && (forall i :: 0 <= i < |es| && Check(es[i], f, x) == Keep ==> i in ks)
    decreases |es|
  {
    if es != [] {
      var n := |es| - 1;
      var init := es[..n];
      KeptIndicesExact(init, f, x);
      var ks := KeptIndices(es, f, x);
      var ks0 := KeptIndices(init, f, x);
      assert ks == ks0 + (if Check(es[n], f, x) == Keep then [n] else []);
      assert forall k :: 0 <= k < |ks0| ==> ks0[k] < |init| && Check(init[ks0[k]], f, x) == Keep;
      forall k | 0 <= k < |ks| ensures ks[k] < |es| && Check(es[ks[k]], f, x) == Keep {
        if k < |ks0| {
          assert ks[k] == ks0[k];
          assert ks0[k] < |init| && Check(init[ks0[k]], f, x) == Keep;
          assert es[ks0[k]] == init[ks0[k]];
        }
      }
      forall i | 0 <= i < |es| && Check(es[i], f, x) == Keep ensures i in ks {
        if i < n { assert init[i] == es[i]; assert i in ks0; }
      }
    }
  }

  /** Each record is the record of one kept entry, in entry order, one record per kept entry. */
  lemma {:induction false} RecordsFromKeptEntries(es: seq<Entry>, f: Filters, x: Externals)
    ensures var ks := KeptIndices(es, f, x); var rs := Records(es, f, x);
      && |rs| == |ks|
      && forall k :: 0 <= k < |ks| ==> ks[k] < |es| && rs[k] == ToRecord(es[ks[k]], x)
    decreases |es|
  {
    KeptIndicesExact(es, f, x);
    if es != [] {
      var n := |es| - 1;
      var init := es[..n];
      RecordsFromKeptEntries(init, f, x);
      KeptIndicesExact(init, f, x);
      var ks0 := KeptIndices(init, f, x);
      forall k | 0 <= k < |ks0| ensures es[ks0[k]] == init[ks0[k]] { }
    }
  }

  /** The records of a prefix of the entries are the same prefix of the records. */
  lemma AllRecordsPrefix(es: seq<Entry>, x: Externals)
    requires es != []
    ensures AllRecords(es[..|es| - 1], x) == AllRecords(es, x)[..|es| - 1]
  {
  }

  /** Extraction equals building every record, then keeping those that satisfy the filters. */
  lemma {:induction false} RecordsAreSelectedRecords(es: seq<Entry>, f: Filters, x: Externals)
    ensures Records(es, f, x) == Select(AllRecords(es, x), f, x)
    decreases |es|
  {
    if es != [] {
      var n := |es| - 1;
      RecordsAreSelectedRecords(es[..n], f, x);
      AllRecordsPrefix(es, x);
    }
  }

  /** Every returned record satisfies every set filter. */
  lemma EndpointsSatisfyFilters(doc: HarDocument, f: Filters, x: Externals)
    requires Endpoints(doc, f, x).Success?
    ensures forall r :: r in Endpoints(doc, f, x).value ==> Satisfies(r, f, x)
  {
    if EntriesOf(doc).Some? {
      var es := EntriesOf(doc).value;
      RecordsFromKeptEntries(es, f, x);
      KeptIndicesExact(es, f, x);
      var ks := KeptIndices(es, f, x);
      forall r | r in Records(es, f, x) ensures Satisfies(r, f, x) {
        var k :| 0 <= k < |Records(es, f, x)| && Records(es, f, x)[k] == r;
        assert Check(es[ks[k]], f, x) == Keep;
        CheckAgreesWithRecord(es[ks[k]], f, x);
      }
    }
  }

  /** An error is raised exactly when the pattern is set, does not compile, and some entry
      passes the domain, method and status filters. */
  lemma EndpointsFailIff(doc: HarDocument, f: Filters, x: Externals)
    ensures Endpoints(doc, f, x).Failure? <==>
      && IsSet(f.pathPattern) && !x.patternCompiles(f.pathPattern.value)
      && exists e :: e in EntriesOrEmpty(doc) && MatchesScalars(ToRecord(e, x), f)
    ensures Endpoints(doc, f, x).Failure? ==> Endpoints(doc, f, x).error == InvalidPattern(f.pathPattern.value)
  {
    var es := EntriesOrEmpty(doc);
    if RaisesOn(es, f, x) {
      var i :| 0 <= i < |es| && Check(es[i], f, x) == Raise;
      assert es[i] in es;
    }
  }

  /** When no filter is set (each absent or falsy), every entry yields its record, in order. */
  lemma {:induction false} NoFiltersKeepEverything(doc: HarDocument, f: Filters, x: Externals)
    requires !IsSet(f.domain) && !IsSet(f.httpMethod) && !IsSetCode(f.statusCode) && !IsSet(f.pathPattern)
    ensures Endpoints(doc, f, x) == Success(AllRecords(EntriesOrEmpty(doc), x))
    ensures |Endpoints(doc, f, x).value| == |EntriesOrEmpty(doc)|
  {
    var es := EntriesOrEmpty(doc);
    RecordsAreSelectedRecords(es, f, x);
    SelectAllSatisfying(AllRecords(es, x), f, x);
  }

  lemma {:induction false} SelectAllSatisfying(rs: seq<EndpointRecord>, f: Filters, x: Externals)
    requires forall r :: r in rs ==> Satisfies(r, f, x)
    ensures Select(rs, f, x) == rs
    decreases |rs|
  {
    if rs != [] {
      var n := |rs| - 1;
      assert forall r :: r in rs[..n] ==> r in rs;
      SelectAllSatisfying(rs[..n], f, x);
      assert rs[n] in rs;
      assert rs[..n] + [rs[n]] == rs;
    }
  }

  /** Every record `Select` keeps satisfies the filters. */
  lemma {:induction false} SelectIsSound(rs: seq<EndpointRecord>, f: Filters, x: Externals)
    ensures forall r :: r in Select(rs, f, x) ==> r in rs && Satisfies(r, f, x)
    decreases |rs|
  {
    if rs != [] {
      var n := |rs| - 1;
      SelectIsSound(rs[..n], f, x);
      assert forall r :: r in rs[..n] ==> r in rs;
      assert rs[n] in rs;
    }
  }

  /** Filtering twice by the same filters is filtering once. */
  lemma SelectIsIdempotent(rs: seq<EndpointRecord>, f: Filters, x: Externals)
    ensures Select(Select(rs, f, x), f, x) == Select(rs, f, x)
  {
    SelectIsSound(rs, f, x);
    SelectAllSatisfying(Select(rs, f, x), f, x);
  }

  /** Appending a record appends it to the selection exactly when it satisfies the filters. */
  lemma SelectAppend(rs: seq<EndpointRecord>, r: EndpointRecord, f: Filters, x: Externals)
    ensures Select(rs + [r], f, x) == Select(rs, f, x) + (if Satisfies(r, f, x) then [r] else [])
  {
    assert (rs + [r])[..|rs|] == rs;
  }

  /** Filtering by `f` then `g` is filtering by `g` then `f`. */
  lemma {:induction false} SelectCommutes(rs: seq<EndpointRecord>, f: Filters, g: Filters, x: Externals)
    ensures Select(Select(rs, f, x), g, x) == Select(Select(rs, g, x), f, x)
    decreases |rs|
  {
    if rs != [] {
      var n := |rs| - 1;
      var init, last := rs[..n], rs[n];
      assert rs == init + [last];
      SelectCommutes(init, f, g, x);
      SelectAppend(init, last, f, x);
      SelectAppend(init, last, g, x);
      var sf, sg := Select(init, f, x), Select(init, g, x);
      if Satisfies(last, f, x) {
        SelectAppend(sf, last, g, x);
      } else {
        assert Select(rs, f, x) == sf;
      }
      if Satisfies(last, g, x) {
        SelectAppend(sg, last, f, x);
      } else {
        assert Select(rs, g, x) == sg;
      }
    }
  }

  /** Filtering a result of `get_endpoints` again by the same filters changes nothing. */
  lemma RefilteringEndpointsChangesNothing(doc: HarDocument, f: Filters, x: Externals)
    requires Endpoints(doc, f, x).Success?
    ensures Select(Endpoints(doc, f, x).value, f, x) == Endpoints(doc, f, x).value
  {
    EndpointsSatisfyFilters(doc, f, x);
    SelectAllSatisfying(Endpoints(doc, f, x).value, f, x);
  }

  lemma {:induction false} SameVerdictsSameRecords(es: seq<Entry>, f: Filters, g: Filters, x: Externals)
    requires forall e :: e in es ==> Check(e, f, x) == Check(e, g, x)
    ensures Records(es, f, x) == Records(es, g, x)
    decreases |es|
  {
    if es != [] {
      var n := |es| - 1;
      assert forall e :: e in es[..n] ==> e in es;
      SameVerdictsSameRecords(es[..n], f, g, x);
      assert es[n] in es;
    }
  }

  /** A falsy filter value (`None`, `""` or `0`) filters nothing: the result is as if it were omitted. */
  lemma FalsyFiltersAreIgnored(doc: HarDocument, f: Filters, x: Externals)
    ensures Endpoints(doc, f, x) == Endpoints(doc, Effective(f), x)
  {
    var es := EntriesOrEmpty(doc);
    var g := Effective(f);
    assert forall e :: Check(e, f, x) == Check(e, g, x);
    SameVerdictsSameRecords(es, f, g, x);
    if RaisesOn(es, f, x) {
      var i :| 0 <= i < |es| && Check(es[i], f, x) == Raise;
      assert IsSet(f.pathPattern);
    }
  }

  // ---------------------------------------------------------------------------
  // get_unique_domains
  // ---------------------------------------------------------------------------

  /** The netloc of every entry's URL. */
  function UniqueDomains(doc: HarDocument, x: Externals): set<string> {
    set e | e in EntriesOrEmpty(doc) :: DomainOf(e, x)
  }

  method GetUniqueDomains(doc: HarDocument, x: Externals) returns (domains: set<string>)
    ensures domains == UniqueDomains(doc, x)
    ensures EntriesOf(doc).None? ==> domains == {}
  {
    domains := {};
    if doc.log.Some? && doc.log.value.entries.Some? {
      var es := doc.log.value.entries.value;
      var i := 0;
      while i < |es|
        invariant 0 <= i <= |es|
        invariant domains == set e | e in es[..i] :: DomainOf(e, x)
      {
        var url := UrlOf(es[i]);
        var parsedUrl := x.urlparse(url);
        ghost var seen := es[..i + 1];
        assert seen == es[..i] + [es[i]];
        assert (set e | e in seen :: DomainOf(e, x)) == domains + {parsedUrl.netloc} by {
          forall d | d in domains ensures d in set e | e in seen :: DomainOf(e, x) {
            var e :| e in es[..i] && DomainOf(e, x) == d;
            assert e in seen;
          }
          assert es[i] in seen;
        }
        domains := domains + {parsedUrl.netloc};
        i := i + 1;
      }
      assert es[..|es|] == es;
    }
  }

  /** The domain of every record returned by any `get_endpoints` call is a unique domain. */
  lemma EndpointDomainsAreListed(doc: HarDocument, f: Filters, x: Externals)
    requires Endpoints(doc, f, x).Success?
    ensures forall r :: r in Endpoints(doc, f, x).value ==> r.domain in UniqueDomains(doc, x)
  {
    if EntriesOf(doc).Some? {
      var es := EntriesOf(doc).value;
      RecordsFromKeptEntries(es, f, x);
      var ks := KeptIndices(es, f, x);
      forall r | r in Records(es, f, x) ensures r.domain in UniqueDomains(doc, x) {
        var k :| 0 <= k < |Records(es, f, x)| && Records(es, f, x)[k] == r;
        var e := es[ks[k]];
        assert e in es;
        assert r == ToRecord(e, x);
        assert r.domain == DomainOf(e, x);
      }
    }
  }

  /** Conversely, the unique domains are exactly the domains of the unfiltered records. */
  lemma UniqueDomainsOfAllRecords(doc: HarDocument, x: Externals)
    ensures Endpoints(doc, NoFilters, x).Success?
    ensures UniqueDomains(doc, x) == set r | r in Endpoints(doc, NoFilters, x).value :: r.domain
  {
    NoFiltersKeepEverything(doc, NoFilters, x);
    var es := EntriesOrEmpty(doc);
    var rs := AllRecords(es, x);
    forall d | d in UniqueDomains(doc, x) ensures d in set r | r in rs :: r.domain {
      var e :| e in es && DomainOf(e, x) == d;
      var i :| 0 <= i < |es| && es[i] == e;
      assert rs[i] in rs && rs[i].domain == d;
    }
    forall d | d in set r | r in rs :: r.domain ensures d in UniqueDomains(doc, x) {
      var r :| r in rs && r.domain == d;
      var i :| 0 <= i < |rs| && rs[i] == r;
      assert es[i] in es && DomainOf(es[i], x) == d;
    }
  }

  // ---------------------------------------------------------------------------
  // get_api_endpoints
  // ---------------------------------------------------------------------------

  /** The path patterns used when the caller passes none. */
  const DefaultApiPatterns: seq<string> := ["/api/", "/v\\d+/", "/rest/", "/graphql", "/gql", "\\.json$"]

  /** `sep.join(parts)`; with a non-empty separator it is empty only for no parts or one empty part. */
  function Join(parts: seq<string>, sep: string): (r: string)
    ensures sep != "" ==> (r == "" <==> |parts| == 0 || (|parts| == 1 && parts[0] == ""))
    decreases |parts|
  {
    if |parts| == 0 then ""
    else if |parts| == 1 then parts[0]
    else parts[0] + sep + Join(parts[1..], sep)
  }

  /** The filters `get_api_endpoints(api_patterns)` passes on: only an alternation path pattern. */
  function ApiFilters(apiPatterns: Option<seq<string>>): (f: Filters)
    ensures !IsSet(f.domain) && !IsSet(f.httpMethod) && !IsSetCode(f.statusCode)
  {
    Filters(None, None, None, Some(Join(apiPatterns.GetOr(DefaultApiPatterns), "|")))
  }

  method GetApiEndpoints(doc: HarDocument, apiPatterns: Option<seq<string>>, x: Externals)
    returns (r: Result<seq<EndpointRecord>, ExtractError>)
    ensures r == Endpoints(doc, ApiFilters(apiPatterns), x)
  {
    var patterns := if apiPatterns.None? then DefaultApiPatterns else apiPatterns.value;
    var pattern := Join(patterns, "|");
    r := GetEndpoints(doc, Filters(None, None, None, Some(pattern)), x);
  }

  /** An explicitly empty pattern list joins to `""`, which is falsy, so every entry is returned. */
  lemma EmptyApiPatternListKeepsEverything(doc: HarDocument, x: Externals)
    ensures Endpoints(doc, ApiFilters(Some([])), x) == Success(AllRecords(EntriesOrEmpty(doc), x))
  {
    NoFiltersKeepEverything(doc, ApiFilters(Some([])), x);
  }

  /** The API records are the records of all entries whose path the joined pattern finds,
      whatever their domain, method and status. */
  lemma ApiEndpointsAreSearchMatches(doc: HarDocument, apiPatterns: Option<seq<string>>, x: Externals)
    requires Endpoints(doc, ApiFilters(apiPatterns), x).Success?
    ensures var f := ApiFilters(apiPatterns);
      Endpoints(doc, f, x).value == Select(AllRecords(EntriesOrEmpty(doc), x), f, x)
    ensures var p := Join(apiPatterns.GetOr(DefaultApiPatterns), "|");
      p != "" ==> forall r :: r in Endpoints(doc, ApiFilters(apiPatterns), x).value ==> x.search(p, r.path)
  {
    var f := ApiFilters(apiPatterns);
    RecordsAreSelectedRecords(EntriesOrEmpty(doc), f, x);
    EndpointsSatisfyFilters(doc, f, x);
  }
}
