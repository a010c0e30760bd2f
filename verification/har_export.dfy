/**
 * `HarParser.export_endpoints`: the output format is chosen by the lower-cased
 * extension of the output file name; JSON keeps the records whole, CSV keeps
 * eight scalar columns, and an empty CSV export is a fixed message.
 *
 * What would be written to the file is returned as a value instead.
 */
module HarExport {
  import opened Wrappers
  import opened HarParser

  // ---------------------------------------------------------------------------
  // The file extension
  // ---------------------------------------------------------------------------

  /** `s.rfind(c)`: the last position of `c` in `s`, or -1 when there is none. */
  function RFind(s: string, c: char): (r: int)
    ensures -1 <= r < |s|
    decreases |s|
  {
    if s == [] then -1
    else if s[|s| - 1] == c then |s| - 1
    else RFind(s[..|s| - 1], c)
  }

  lemma {:induction false} RFindIsLast(s: string, c: char)
    ensures RFind(s, c) == -1 <==> c !in s
    ensures RFind(s, c) >= 0 ==> s[RFind(s, c)] == c && forall j :: RFind(s, c) < j < |s| ==> s[j] != c
    decreases |s|
  {
    if s != [] && s[|s| - 1] != c {
      var init := s[..|s| - 1];
      RFindIsLast(init, c);
      assert s == init + [s[|s| - 1]];
      if RFind(init, c) >= 0 {
        assert s[RFind(init, c)] == init[RFind(init, c)];
        forall j | RFind(s, c) < j < |s| ensures s[j] != c {
          if j < |s| - 1 { assert s[j] == init[j]; }
        }
      }
    }
  }

  /**
   * `os.path.splitext(path)[1]` with `/` as the separator: the text from the
   * last dot of the last path component, when that component has a character
   * other than a dot before it; the empty string otherwise (so `.csv` alone
   * has no extension). So a path has an extension exactly when its last
   * component holds a dot after some character that is not a dot.
   */
  function Extension(path: string): (ext: string)
    ensures ext != "" <==> exists k, d ::
              && 0 <= k < d < |path| && path[d] == '.' && path[k] != '.'
              && forall j :: k <= j < |path| ==> path[j] != '/'
    ensures |ext| <= |path| && ext == path[|path| - |ext|..]
    ensures ext != "" ==> ext[0] == '.' && forall j :: 0 < j < |ext| ==> ext[j] != '.' && ext[j] != '/'
  {
    var sep := RFind(path, '/');
    var dot := RFind(path, '.');
    RFindIsLast(path, '/');
    RFindIsLast(path, '.');
    if dot > sep && exists k :: sep < k < dot && path[k] != '.' then
      var k :| sep < k < dot && path[k] != '.';
      assert forall j :: k <= j < |path| ==> path[j] != '/';
      assert forall j :: 0 < j < |path| - dot ==> path[dot..][j] == path[dot + j];
      path[dot..]
    else
      ""
  }

  /** `str.lower` on one character; only ASCII letters change, which decides every comparison
      with `.json` and `.csv`. */
  function LowerChar(c: char): char {
    if 'A' <= c <= 'Z' then (c as int + 32) as char else c
  }

  function Lower(s: string): (r: string)
    ensures |r| == |s|
  {
    seq(|s|, i requires 0 <= i < |s| => LowerChar(s[i]))
  }

  /** The dispatch is case-insensitive: exactly the case variants of `.csv` and `.json`
      lower-case to them. */
  lemma LowerMatchesExtensions(s: string)
    ensures Lower(s) == ".csv" <==>
      |s| == 4 && s[0] == '.' && s[1] in "cC" && s[2] in "sS" && s[3] in "vV"
    ensures Lower(s) == ".json" <==>
      |s| == 5 && s[0] == '.' && s[1] in "jJ" && s[2] in "sS" && s[3] in "oO" && s[4] in "nN"
  {
    if |s| == 4 {
      assert Lower(s) == [LowerChar(s[0]), LowerChar(s[1]), LowerChar(s[2]), LowerChar(s[3])];
    }
    if |s| == 5 {
      assert Lower(s) == [LowerChar(s[0]), LowerChar(s[1]), LowerChar(s[2]), LowerChar(s[3]), LowerChar(s[4])];
    }
  }

  // ---------------------------------------------------------------------------
  // Export
  // ---------------------------------------------------------------------------

  /** One CSV data row: the eight scalar fields of a record. */
  datatype CsvRow = CsvRow(
    url: string,
    httpMethod: string,
    protocol: string,
    domain: string,
    path: string,
    statusCode: int,
    responseSize: int,
    time: int)

  /** The CSV header, in column order. */
  const CsvColumns: seq<string> :=
    ["url", "method", "protocol", "domain", "path", "status_code", "response_size", "time"]

  /** What a CSV export of no records writes instead of a table. */
  const NoEndpointsFound := "No endpoints found"

  /** The content of the output file. */
  datatype ExportOutput =
    | JsonDump(endpoints: seq<EndpointRecord>)
    | PlainText(text: string)
    | CsvTable(header: seq<string>, rows: seq<CsvRow>)

  /** The `ValueError` raised for any other extension, carrying the lower-cased extension. */
  datatype ExportError = UnsupportedFormat(ext: string)

  /** The CSV row of a record: its eight scalar fields, in column order. */
  function FlattenRecord(ep: EndpointRecord): (row: CsvRow)
    ensures row.url == ep.url && row.httpMethod == ep.httpMethod && row.protocol == ep.protocol
    ensures row.domain == ep.domain && row.path == ep.path
    ensures row.statusCode == ep.statusCode && row.responseSize == ep.responseSize && row.time == ep.time
  {
    CsvRow(ep.url, ep.httpMethod, ep.protocol, ep.domain, ep.path, ep.statusCode, ep.responseSize, ep.time)
  }

  /** Two records give the same row exactly when their eight scalar fields agree:
      query parameters, headers and body are dropped. */
  lemma FlattenKeepsScalarsOnly(a: EndpointRecord, b: EndpointRecord)
    ensures FlattenRecord(a) == FlattenRecord(b) <==>
      && a.url == b.url && a.httpMethod == b.httpMethod && a.protocol == b.protocol
      && a.domain == b.domain && a.path == b.path && a.statusCode == b.statusCode
      && a.responseSize == b.responseSize && a.time == b.time
  {
  }

  method ExportEndpoints(endpoints: seq<EndpointRecord>, outputFile: string)
    returns (out: Result<ExportOutput, ExportError>)
    ensures var ext := Lower(Extension(outputFile));
      && (out.Failure? <==> ext != ".json" && ext != ".csv")
      && (out.Failure? ==> out.error == UnsupportedFormat(ext))
      && (ext == ".json" ==> out == Success(JsonDump(endpoints)))
      && (ext == ".csv" && endpoints == [] ==> out == Success(PlainText(NoEndpointsFound)))
      && (ext == ".csv" && endpoints != [] ==>
            && out.Success? && out.value.CsvTable?
            && out.value.header == CsvColumns
            && |out.value.rows| == |endpoints|
            && forall k :: 0 <= k < |endpoints| ==> out.value.rows[k] == FlattenRecord(endpoints[k]))
  {
    var fileExt := Lower(Extension(outputFile));
    if fileExt == ".json" {
      out := Success(JsonDump(endpoints));
    } else if fileExt == ".csv" {
      if endpoints == [] {
        return Success(PlainText(NoEndpointsFound));
      }
      var flattened: seq<CsvRow> := [];
      var i := 0;
      while i < |endpoints|
        invariant 0 <= i <= |endpoints|
        invariant |flattened| == i
        invariant forall k :: 0 <= k < i ==> flattened[k] == FlattenRecord(endpoints[k])
      {
        flattened := flattened + [FlattenRecord(endpoints[i])];
        i := i + 1;
      }
      out := Success(CsvTable(CsvColumns, flattened));
    } else {
      out := Failure(UnsupportedFormat(fileExt));
    }
  }
}
