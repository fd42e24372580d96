/**
 * The browser client's side of the in-memory server: the query strings of the two list
 * calls, the bearer header, and the reading of a summary stream into callbacks.
 */
module ClientApi {
  import opened Wrappers
  import opened Text
  import opened EventModel
  import opened EventStoreService
  import opened ServerHttp
  import EventRoutes
  import PublicRoutes

  /** The optional parameters of `getEvents` / `getPublicEvents`; all None when none are passed. */
  datatype ListOptions = ListOptions(
    dateFrom: Option<string>,
    dateTo: Option<string>,
    locations: Option<seq<string>>,
    status: Option<seq<Status>>,
    page: Option<int>,
    limit: Option<int>)

  /** A number parameter is appended only when truthy: present and not 0. */
  predicate GivenNumber(n: Option<int>) {
    n.Some? && n.value != 0
  }

  function StatusNames(ss: seq<Status>): (names: seq<string>)
    ensures |names| == |ss| && forall k :: 0 <= k < |ss| ==> names[k] == StatusName(ss[k])
  {
    if ss == [] then [] else [StatusName(ss[0])] + StatusNames(ss[1..])
  }

  /** A one-pair list when `given`, else nothing. */
  function Param(given: bool, name: string, value: string): seq<(string, string)> {
    if given then [(name, value)] else []
  }

  /**
   * The pairs `getEvents` (with `withStatus`) or `getPublicEvents` (without) appends, in
   * order: dates when truthy, lists joined with `,` whenever present (even empty), and
   * numbers when truthy, in decimal.
   */
  function ClientQuery(o: ListOptions, withStatus: bool): seq<(string, string)> {
    Param(Truthy(o.dateFrom), "dateFrom", o.dateFrom.GetOr(""))
    + Param(Truthy(o.dateTo), "dateTo", o.dateTo.GetOr(""))
    + Param(o.locations.Some?, "locations", Join(o.locations.GetOr([]), ','))
    + Param(withStatus && o.status.Some?, "status", Join(StatusNames(o.status.GetOr([])), ','))
    + Param(GivenNumber(o.page), "page", IntToString(o.page.GetOr(0)))
    + Param(GivenNumber(o.limit), "limit", IntToString(o.limit.GetOr(0)))
  }

  /** The query as `URLSearchParams` collects it, one `append` after another. */
  method BuildQuery(o: ListOptions, withStatus: bool) returns (query: seq<(string, string)>)
    ensures query == ClientQuery(o, withStatus)
  {
    var p1 := Param(Truthy(o.dateFrom), "dateFrom", o.dateFrom.GetOr(""));
    var p2 := Param(Truthy(o.dateTo), "dateTo", o.dateTo.GetOr(""));
    var p3 := Param(o.locations.Some?, "locations", Join(o.locations.GetOr([]), ','));
    var p4 := Param(withStatus && o.status.Some?, "status", Join(StatusNames(o.status.GetOr([])), ','));
    var p5 := Param(GivenNumber(o.page), "page", IntToString(o.page.GetOr(0)));
    var p6 := Param(GivenNumber(o.limit), "limit", IntToString(o.limit.GetOr(0)));
    query := [];
    if Truthy(o.dateFrom) {
      query := query + [("dateFrom", o.dateFrom.value)];
    }
    assert query == p1;
    if Truthy(o.dateTo) {
      query := query + [("dateTo", o.dateTo.value)];
    }
    assert query == p1 + p2;
    if o.locations.Some? {
      query := query + [("locations", Join(o.locations.value, ','))];
    }
    assert query == p1 + p2 + p3;
    if withStatus && o.status.Some? {
      query := query + [("status", Join(StatusNames(o.status.value), ','))];
    }
    assert query == p1 + p2 + p3 + p4;
    if GivenNumber(o.page) {
      query := query + [("page", IntToString(o.page.value))];
    }
    assert query == p1 + p2 + p3 + p4 + p5;
    if GivenNumber(o.limit) {
      query := query + [("limit", IntToString(o.limit.value))];
    }
  }

  /** The first value under `name`, as the server reads a query parameter. */
  function QueryValue(query: seq<(string, string)>, name: string): (v: Option<string>)
    ensures v.Some? ==> (name, v.value) in query
    ensures v.None? ==> forall k :: 0 <= k < |query| ==> query[k].0 != name
  {
    if query == [] then None
    else if query[0].0 == name then Some(query[0].1)
    else QueryValue(query[1..], name)
  }

  /** The server's view of a query, the transport handing each pair over unchanged. */
  function ParamsOf(query: seq<(string, string)>): QueryParams {
    QueryParams(QueryValue(query, "dateFrom"), QueryValue(query, "dateTo"), QueryValue(query, "locations"),
                QueryValue(query, "status"), QueryValue(query, "page"), QueryValue(query, "limit"))
  }

  /** `encode` renders one name or value for the URL. */
  function QueryString(query: seq<(string, string)>, encode: string -> string): (s: string)
    ensures s == "" <==> query == []
  {
    if query == [] then ""
    else
      var pair := encode(query[0].0) + "=" + encode(query[0].1);
      assert pair[|encode(query[0].0)|] == '=';
      if |query| == 1 then pair else pair + "&" + QueryString(query[1..], encode)
  }

  /** The request path: the base, then `?` and the query only when something was appended. */
  function ListPath(base: string, query: seq<(string, string)>, encode: string -> string): (path: string)
    ensures query == [] ==> path == base
    ensures query != [] ==> path == base + "?" + QueryString(query, encode)
  {
    var qs := QueryString(query, encode);
    if qs != "" then base + "?" + qs else base
  }

  /** A list the server splits back: non-empty text, no comma inside an item, nothing to trim. */
  predicate CleanList(items: seq<string>) {
    && |items| >= 1 && Join(items, ',') != ""
    && (forall k :: 0 <= k < |items| ==> ',' !in items[k])
    && (forall k :: 0 <= k < |items| ==> Trim(items[k]) == items[k])
  }

  /** The first value in a concatenation is the first half's, or failing that the second's. */
  lemma {:induction false} QueryValueConcat(a: seq<(string, string)>, b: seq<(string, string)>, name: string)
    ensures QueryValue(a + b, name) == if QueryValue(a, name).Some? then QueryValue(a, name) else QueryValue(b, name)
  {
    if a == [] {
      assert a + b == b;
    } else {
      assert (a + b)[0] == a[0] && (a + b)[1..] == a[1..] + b;
      QueryValueConcat(a[1..], b, name);
    }
  }

  function OrElse(a: Option<string>, b: Option<string>): (r: Option<string>)
    ensures a.Some? ==> r == a
    ensures a.None? ==> r == b
  {
    if a.Some? then a else b
  }

  /** A parameter list holds its value under its own name only. */
  lemma ParamValue(given: bool, key: string, value: string, name: string)
    ensures QueryValue(Param(given, key, value), name) == if given && key == name then Some(value) else None
  {
    if given {
      assert [(key, value)][1..] == [];
    }
  }

  /** The six appends, each looked up under `name`. */
  lemma ParamValues(o: ListOptions, withStatus: bool, name: string)
    ensures QueryValue(Param(Truthy(o.dateFrom), "dateFrom", o.dateFrom.GetOr("")), name)
      == if Truthy(o.dateFrom) && name == "dateFrom" then Some(o.dateFrom.GetOr("")) else None
    ensures QueryValue(Param(Truthy(o.dateTo), "dateTo", o.dateTo.GetOr("")), name)
      == if Truthy(o.dateTo) && name == "dateTo" then Some(o.dateTo.GetOr("")) else None
    ensures QueryValue(Param(o.locations.Some?, "locations", Join(o.locations.GetOr([]), ',')), name)
      == if o.locations.Some? && name == "locations" then Some(Join(o.locations.GetOr([]), ',')) else None
    ensures QueryValue(Param(withStatus && o.status.Some?, "status", Join(StatusNames(o.status.GetOr([])), ',')), name)
      == if withStatus && o.status.Some? && name == "status" then Some(Join(StatusNames(o.status.GetOr([])), ',')) else None
    ensures QueryValue(Param(GivenNumber(o.page), "page", IntToString(o.page.GetOr(0))), name)
      == if GivenNumber(o.page) && name == "page" then Some(IntToString(o.page.GetOr(0))) else None
    ensures QueryValue(Param(GivenNumber(o.limit), "limit", IntToString(o.limit.GetOr(0))), name)
      == if GivenNumber(o.limit) && name == "limit" then Some(IntToString(o.limit.GetOr(0))) else None
  {
    ParamValue(Truthy(o.dateFrom), "dateFrom", o.dateFrom.GetOr(""), name);
    ParamValue(Truthy(o.dateTo), "dateTo", o.dateTo.GetOr(""), name);
    ParamValue(o.locations.Some?, "locations", Join(o.locations.GetOr([]), ','), name);
    ParamValue(withStatus && o.status.Some?, "status", Join(StatusNames(o.status.GetOr([])), ','), name);
    ParamValue(GivenNumber(o.page), "page", IntToString(o.page.GetOr(0)), name);
    ParamValue(GivenNumber(o.limit), "limit", IntToString(o.limit.GetOr(0)), name);
  }

  /** Under any name, the client query holds the first value the six appends put there. */
  lemma ClientQueryLookup(o: ListOptions, withStatus: bool, name: string)
    ensures var p1, p2, p3, p4, p5, p6 :=
        Param(Truthy(o.dateFrom), "dateFrom", o.dateFrom.GetOr("")),
        Param(Truthy(o.dateTo), "dateTo", o.dateTo.GetOr("")),
        Param(o.locations.Some?, "locations", Join(o.locations.GetOr([]), ',')),
        Param(withStatus && o.status.Some?, "status", Join(StatusNames(o.status.GetOr([])), ',')),
        Param(GivenNumber(o.page), "page", IntToString(o.page.GetOr(0))),
        Param(GivenNumber(o.limit), "limit", IntToString(o.limit.GetOr(0)));
      QueryValue(ClientQuery(o, withStatus), name) ==
        OrElse(OrElse(OrElse(OrElse(OrElse(QueryValue(p1, name), QueryValue(p2, name)), QueryValue(p3, name)),
          QueryValue(p4, name)), QueryValue(p5, name)), QueryValue(p6, name))
  {
    var p1 := Param(Truthy(o.dateFrom), "dateFrom", o.dateFrom.GetOr(""));
    var p2 := Param(Truthy(o.dateTo), "dateTo", o.dateTo.GetOr(""));
    var p3 := Param(o.locations.Some?, "locations", Join(o.locations.GetOr([]), ','));
    var p4 := Param(withStatus && o.status.Some?, "status", Join(StatusNames(o.status.GetOr([])), ','));
    var p5 := Param(GivenNumber(o.page), "page", IntToString(o.page.GetOr(0)));
    var p6 := Param(GivenNumber(o.limit), "limit", IntToString(o.limit.GetOr(0)));
    QueryValueConcat(p1, p2, name);
    QueryValueConcat(p1 + p2, p3, name);
    QueryValueConcat(p1 + p2 + p3, p4, name);
    QueryValueConcat(p1 + p2 + p3 + p4, p5, name);
    QueryValueConcat(p1 + p2 + p3 + p4 + p5, p6, name);
  }

  /** The server reads back the dates when they are truthy and the location list whenever it is present. */
  lemma ClientQueryFilters(o: ListOptions, withStatus: bool)
    ensures var q := ClientQuery(o, withStatus);
      && QueryValue(q, "dateFrom") == (if Truthy(o.dateFrom) then o.dateFrom else None)
      && QueryValue(q, "dateTo") == (if Truthy(o.dateTo) then o.dateTo else None)
      && QueryValue(q, "locations") == (if o.locations.Some? then Some(Join(o.locations.value, ',')) else None)
  {
    var q := ClientQuery(o, withStatus);
    assert QueryValue(q, "dateFrom") == (if Truthy(o.dateFrom) then o.dateFrom else None) by {
      ClientQueryLookup(o, withStatus, "dateFrom");
      ParamValues(o, withStatus, "dateFrom");
    }
    assert QueryValue(q, "dateTo") == (if Truthy(o.dateTo) then o.dateTo else None) by {
      ClientQueryLookup(o, withStatus, "dateTo");
      ParamValues(o, withStatus, "dateTo");
    }
    assert QueryValue(q, "locations") == (if o.locations.Some? then Some(Join(o.locations.value, ',')) else None) by {
      ClientQueryLookup(o, withStatus, "locations");
      ParamValues(o, withStatus, "locations");
    }
  }

  /** The server reads back the status list (on `getEvents` only) and the truthy page and limit, in decimal. */
  lemma ClientQueryPaging(o: ListOptions, withStatus: bool)
    ensures var q := ClientQuery(o, withStatus);
      && QueryValue(q, "status") ==
           (if withStatus && o.status.Some? then Some(Join(StatusNames(o.status.value), ',')) else None)
      && QueryValue(q, "page") == (if GivenNumber(o.page) then Some(IntToString(o.page.value)) else None)
      && QueryValue(q, "limit") == (if GivenNumber(o.limit) then Some(IntToString(o.limit.value)) else None)
  {
    var q := ClientQuery(o, withStatus);
    assert QueryValue(q, "status") ==
           (if withStatus && o.status.Some? then Some(Join(StatusNames(o.status.value), ',')) else None) by {
      ClientQueryLookup(o, withStatus, "status");
      ParamValues(o, withStatus, "status");
    }
    assert QueryValue(q, "page") == (if GivenNumber(o.page) then Some(IntToString(o.page.value)) else None) by {
      ClientQueryLookup(o, withStatus, "page");
      ParamValues(o, withStatus, "page");
    }
    assert QueryValue(q, "limit") == (if GivenNumber(o.limit) then Some(IntToString(o.limit.value)) else None) by {
      ClientQueryLookup(o, withStatus, "limit");
      ParamValues(o, withStatus, "limit");
    }
  }

  /** A status name needs no trimming and holds no comma. */
  lemma StatusNameClean(st: Status)
    ensures ',' !in StatusName(st) && Trim(StatusName(st)) == StatusName(st) && StatusName(st) != ""
  {
    TrimNoop(StatusName(st));
  }

  /** A join starts with its first piece. */
  lemma {:induction false} JoinStartsWithFirst(parts: seq<string>, sep: char)
    requires |parts| >= 1
    ensures |Join(parts, sep)| >= |parts[0]|
  {
  }

  lemma StatusNamesClean(ss: seq<Status>)
    requires |ss| >= 1
    ensures CleanList(StatusNames(ss))
  {
    var names := StatusNames(ss);
    forall k | 0 <= k < |names| ensures ',' !in names[k] && Trim(names[k]) == names[k] {
      StatusNameClean(ss[k]);
    }
    StatusNameClean(ss[0]);
    JoinStartsWithFirst(names, ',');
  }

  /**
   * The options `getEvents` sends are the query `GET /events` runs: falsy dates and numbers
   * are dropped and take the server's defaults, and the lists come back item for item
   * when they survive the comma split and the trim.
   */
  lemma ClientQueryReachesServer(o: ListOptions, parseInt: string -> Option<int>)
    requires o.locations.Some? ==> CleanList(o.locations.value)
    requires o.status.Some? ==> |o.status.value| >= 1
    requires GivenNumber(o.page) ==> parseInt(IntToString(o.page.value)) == o.page
    requires GivenNumber(o.limit) ==> parseInt(IntToString(o.limit.value)) == o.limit
    ensures var q := EventRoutes.ListQuery(ParamsOf(ClientQuery(o, true)), parseInt);
      && q.dateFrom == (if Truthy(o.dateFrom) then o.dateFrom else None)
      && q.dateTo == (if Truthy(o.dateTo) then o.dateTo else None)
      && q.locations == o.locations
      && q.status == (if o.status.Some? then Some(StatusNames(o.status.value)) else None)
      && q.page == Some(if GivenNumber(o.page) then o.page.value else 1)
      && q.limit == Some(if GivenNumber(o.limit) then o.limit.value else DEFAULT_LIMIT)
  {
    ClientQueryFilters(o, true);
    ClientQueryPaging(o, true);
    if o.locations.Some? {
      ListParamRoundTrip(o.locations.value);
    }
    if o.status.Some? {
      StatusNamesClean(o.status.value);
      ListParamRoundTrip(StatusNames(o.status.value));
    }
  }

  /** The bearer header `request` adds: present exactly when a token is. */
  function AuthHeader(token: Option<string>): (h: Option<Header>)
    ensures h.Some? <==> Truthy(token)
    ensures h.Some? ==> h.value == Header("Authorization", "Bearer " + token.value)
  {
    if Truthy(token) then Some(Header("Authorization", "Bearer " + token.value)) else None
  }

  /** The summary response as the client sees it: a non-OK status with its error body, or the text of each read. */
  datatype SummaryFetch = Failed(code: string, message: string) | Delivered(chunks: seq<string>)

  /** A call of `onChunk`, `onComplete` or `onError` (with the error's code, when it has one). */
  datatype Callback = Chunk(text: string) | Complete | Failure(code: Option<string>, message: string)

  const SERVER_ERROR := "Server error generating summary"

  /** What one line does: emit a chunk, nothing, or end the stream with a callback. */
  datatype LineAction = Emit(text: string) | Ignore | Finish(callback: Callback)

  /**
   * A `data: ` line emits its trimmed rest when that is not empty; otherwise a line starting
   * `event: done` completes and one starting `event: error` fails; any other line is ignored.
   */
  function ClassifyLine(line: string): (a: LineAction)
    ensures a.Emit? ==> a.text != ""
    ensures a.Finish? ==> a.callback == Complete || a.callback == Failure(None, SERVER_ERROR)
  {
    if StartsWith(line, "data: ") then
      var data := Trim(line[6..]);
      if data != "" then Emit(data) else Ignore
    else if StartsWith(line, "event: done") then Finish(Complete)
    else if StartsWith(line, "event: error") then Finish(Failure(None, SERVER_ERROR))
    else Ignore
  }

  /** Which line does what, as the `if` chain of the reader loop decides it. */
  lemma ClassifyLineRules(line: string)
    ensures var a := ClassifyLine(line);
      && (a.Emit? <==> StartsWith(line, "data: ") && Trim(line[6..]) != "")
      && (a.Emit? ==> a.text == Trim(line[6..]))
      && (a == Finish(Complete) <==> !StartsWith(line, "data: ") && StartsWith(line, "event: done"))
      && (a == Finish(Failure(None, SERVER_ERROR)) <==>
            !StartsWith(line, "data: ") && !StartsWith(line, "event: done") && StartsWith(line, "event: error"))
  {
  }

  /** The callbacks of one read's lines, and whether a line ended the stream. */
  function LineCallbacks(lines: seq<string>): (seq<Callback>, bool) {
    if lines == [] then ([], false)
    else match ClassifyLine(lines[0])
      case Emit(t) => var r := LineCallbacks(lines[1..]); ([Chunk(t)] + r.0, r.1)
      case Ignore => LineCallbacks(lines[1..])
      case Finish(cb) => ([cb], true)
  }

  /** The callbacks of successive reads; each read is split into lines on its own, and exhaustion completes. */
  function ReadCallbacks(received: seq<string>): seq<Callback> {
    if received == [] then [Complete]
    else
      var r := LineCallbacks(Split(received[0], '\n'));
      if r.1 then r.0 else r.0 + ReadCallbacks(received[1..])
  }

  /** All callbacks of `streamEventSummary`: one error for a non-OK response, else those of the reads. */
  function SummaryCallbacks(f: SummaryFetch): seq<Callback> {
    match f
    case Failed(code, message) => [Failure(Some(code), message)]
    case Delivered(chunks) => ReadCallbacks(chunks)
  }

  /** Chunks, then exactly one call of `onComplete` or `onError`, and nothing after it. */
  predicate OneTerminalLast(cbs: seq<Callback>) {
    && |cbs| >= 1 && !cbs[|cbs| - 1].Chunk?
    && forall k :: 0 <= k < |cbs| - 1 ==> cbs[k].Chunk?
  }

  lemma {:induction false} LineCallbacksShape(lines: seq<string>)
    ensures var r := LineCallbacks(lines);
      && (r.1 ==> OneTerminalLast(r.0))
      && (!r.1 ==> forall k :: 0 <= k < |r.0| ==> r.0[k].Chunk?)
  {
    if lines != [] {
      var rest := LineCallbacks(lines[1..]);
      var a := ClassifyLine(lines[0]);
      if a.Emit? {
        LineCallbacksShape(lines[1..]);
        var cbs := [Chunk(a.text)] + rest.0;
        assert LineCallbacks(lines) == (cbs, rest.1);
        assert forall k :: 1 <= k < |cbs| ==> cbs[k] == rest.0[k - 1];
      } else if a.Ignore? {
        LineCallbacksShape(lines[1..]);
        assert LineCallbacks(lines) == rest;
      } else {
        assert LineCallbacks(lines) == ([a.callback], true);
      }
    }
  }

  /** Chunks followed by a well-formed sequence form a well-formed sequence. */
  lemma ChunksBeforeTerminal(chunks: seq<Callback>, rest: seq<Callback>)
    requires forall k :: 0 <= k < |chunks| ==> chunks[k].Chunk?
    requires OneTerminalLast(rest)
    ensures OneTerminalLast(chunks + rest)
  {
    forall k | 0 <= k < |chunks| + |rest| - 1 ensures (chunks + rest)[k].Chunk? {
      if k >= |chunks| { assert (chunks + rest)[k] == rest[k - |chunks|]; }
    }
  }

  lemma {:induction false} ReadCallbacksShape(received: seq<string>)
    ensures OneTerminalLast(ReadCallbacks(received))
  {
    if received != [] {
      var lines := Split(received[0], '\n');
      var r := LineCallbacks(lines);
      LineCallbacksShape(lines);
      if !r.1 {
        ReadCallbacksShape(received[1..]);
        ChunksBeforeTerminal(r.0, ReadCallbacks(received[1..]));
      }
    }
  }

  /** Whatever the response and the reads, the callbacks are chunks followed by one terminal call. */
  lemma SummaryCallbacksShape(f: SummaryFetch)
    ensures OneTerminalLast(SummaryCallbacks(f))
  {
    if f.Delivered? {
      ReadCallbacksShape(f.chunks);
    }
  }

  /** The inner `for` over one read's lines, leaving at the first line that ends the stream. */
  method ReadLines(lines: seq<string>) returns (callbacks: seq<Callback>, cancelled: bool)
    ensures (callbacks, cancelled) == LineCallbacks(lines)
  {
    callbacks := [];
    cancelled := false;
    var j := 0;
    while j < |lines|
      invariant 0 <= j <= |lines|
      invariant callbacks + LineCallbacks(lines[j..]).0 == LineCallbacks(lines).0
      invariant LineCallbacks(lines[j..]).1 == LineCallbacks(lines).1
    {
      var line := lines[j];
      assert lines[j..][0] == line && lines[j..][1..] == lines[j + 1..];
      ClassifyLineRules(line);
      if StartsWith(line, "data: ") {
        var data := Trim(line[6..]);
        if data != "" {
          var rest := LineCallbacks(lines[j + 1..]);
          assert LineCallbacks(lines[j..]) == ([Chunk(data)] + rest.0, rest.1);
          assert callbacks + ([Chunk(data)] + rest.0) == (callbacks + [Chunk(data)]) + rest.0;
          callbacks := callbacks + [Chunk(data)];
        }
      } else if StartsWith(line, "event: done") {
        assert LineCallbacks(lines[j..]) == ([Complete], true);
        callbacks := callbacks + [Complete];
        cancelled := true;
        assert callbacks == LineCallbacks(lines).0 && LineCallbacks(lines).1;
        return;
      } else if StartsWith(line, "event: error") {
        assert LineCallbacks(lines[j..]) == ([Failure(None, SERVER_ERROR)], true);
        callbacks := callbacks + [Failure(None, SERVER_ERROR)];
        cancelled := true;
        assert callbacks == LineCallbacks(lines).0 && LineCallbacks(lines).1;
        return;
      }
      j := j + 1;
    }
    assert lines[j..] == [];
    assert LineCallbacks(lines[j..]) == ([], false);
    assert callbacks == LineCallbacks(lines).0;
  }

  /**
   * `streamEventSummary`: a non-OK response calls `onError` once; otherwise reads are taken
   * until a line ends the stream or the reader is exhausted, which completes it.
   */
  method ConsumeSummary(f: SummaryFetch) returns (callbacks: seq<Callback>)
    ensures callbacks == SummaryCallbacks(f)
    ensures OneTerminalLast(callbacks)
  {
    SummaryCallbacksShape(f);
    if f.Failed? {
      return [Failure(Some(f.code), f.message)];
    }
    var received := f.chunks;
    callbacks := [];
    var cancelled := false;
    var i := 0;
    while !cancelled
      invariant 0 <= i <= |received|
      invariant !cancelled ==> callbacks + ReadCallbacks(received[i..]) == ReadCallbacks(received)
      invariant cancelled ==> callbacks == ReadCallbacks(received)
      decreases |received| - i
    {
      if i == |received| {
        assert received[i..] == [];
        callbacks := callbacks + [Complete];
        break;
      }
      assert received[i..][0] == received[i] && received[i..][1..] == received[i + 1..];
      var emitted, stop := ReadLines(Split(received[i], '\n'));
      callbacks := callbacks + emitted;
      cancelled := stop;
      i := i + 1;
    }
  }

  /** The first line of a text is everything before its first newline. */
  lemma FirstLine(a: string, rest: string)
    requires '\n' !in a
    ensures Split(a + "\n" + rest, '\n')[0] == a
  {
    SplitPrefix(a, "\n" + rest, '\n');
    assert a + "\n" + rest == a + ("\n" + rest);
    assert ("\n" + rest)[0] == '\n' && ("\n" + rest)[1..] == rest;
  }

  /** A `data:` event splits into its data line and two empty lines. */
  lemma DataEventLines(text: string)
    requires '\n' !in text
    ensures Split(PublicRoutes.DataEvent(text), '\n') == ["data: " + text, "", ""]
  {
    var line := "data: " + text;
    var parts := [line, "", ""];
    assert '\n' !in line by {
      assert forall k :: 0 <= k < |line| ==> line[k] == if k < 6 then "data: "[k] else text[k - 6];
    }
    assert parts[1..] == ["", ""] && parts[1..][1..] == [""];
    assert Join([""], '\n') == "";
    assert Join(["", ""], '\n') == "" + ['\n'] + "";
    assert Join(parts, '\n') == line + ['\n'] + ("" + ['\n'] + "");
    assert line + ['\n'] + ("" + ['\n'] + "") == PublicRoutes.DataEvent(text);
    SplitJoin(parts, '\n');
  }

  /** A data line with something besides white space emits its trimmed rest. */
  lemma DataLineRead(chunk: string)
    requires Trim(chunk) != ""
    ensures ClassifyLine("data: " + (chunk + " ")) == Emit(Trim(chunk))
  {
    var line := "data: " + (chunk + " ");
    assert line[..6] == "data: " && line[6..] == chunk + " ";
    TrimTrailingBlank(chunk);
  }

  /** One step of the line loop: an emitting line is followed by the callbacks of the rest. */
  lemma LineCallbacksEmit(lines: seq<string>, text: string)
    requires |lines| >= 1 && ClassifyLine(lines[0]) == Emit(text)
    ensures LineCallbacks(lines) == ([Chunk(text)] + LineCallbacks(lines[1..]).0, LineCallbacks(lines[1..]).1)
  {
  }

  /** Blank lines, such as those that end an event, call nothing. */
  lemma BlankLinesIgnored()
    ensures LineCallbacks(["", ""]) == ([], false)
  {
    assert ClassifyLine("") == Ignore;
    assert ["", ""][1..] == [""] && [""][1..] == [];
  }

  /** Every line starting `event: done` completes the stream. */
  lemma DoneLine(line: string)
    requires StartsWith(line, "event: done")
    ensures ClassifyLine(line) == Finish(Complete)
  {
    assert line[0] == 'e';
  }

  /** Every line starting `event: error` fails the stream. */
  lemma ErrorLine(line: string)
    requires StartsWith(line, "event: error")
    ensures ClassifyLine(line) == Finish(Failure(None, SERVER_ERROR))
  {
    assert line[0] == 'e' && line[7] == 'e';
  }

  /** A single read whose first line ends the stream calls that line's callback alone. */
  lemma FinishingRead(first: string, rest: string, cb: Callback)
    requires '\n' !in first && ClassifyLine(first) == Finish(cb)
    ensures ReadCallbacks([first + "\n" + rest]) == [cb]
  {
    FirstLine(first, rest);
    ReadCallbacksStop([first + "\n" + rest], first, cb);
  }

  /** A named event is read by its `event:` line alone. */
  lemma NamedEventRead(name: string, data: string, cb: Callback)
    requires '\n' !in name && ClassifyLine("event: " + name) == Finish(cb)
    ensures ReadCallbacks([PublicRoutes.NamedEvent(name, data)]) == [cb]
  {
    var first := "event: " + name;
    assert '\n' !in first by {
      assert forall k :: 0 <= k < |first| ==> first[k] == if k < 7 then "event: "[k] else name[k - 7];
    }
    FinishingRead(first, PublicRoutes.DataEvent(data), cb);
  }

  /** The done event's first line completes the stream. */
  lemma DoneEventRead()
    ensures ReadCallbacks([PublicRoutes.DONE_EVENT]) == [Complete]
  {
    DoneLine("event: " + "done");
    NamedEventRead("done", "", Complete);
  }

  /** The error event's first line fails the stream with the client's own message. */
  lemma ErrorEventRead()
    ensures ReadCallbacks([PublicRoutes.ERROR_EVENT]) == [Failure(None, SERVER_ERROR)]
  {
    ErrorLine("event: " + "error");
    NamedEventRead("error", "Failed to generate summary", Failure(None, SERVER_ERROR));
  }

  /** A server chunk event is read as that chunk, trimmed, without ending the stream. */
  lemma ChunkEventRead(chunk: string)
    requires '\n' !in chunk && Trim(chunk) != ""
    ensures LineCallbacks(Split(PublicRoutes.DataEvent(chunk + " "), '\n')) == ([Chunk(Trim(chunk))], false)
  {
    var line := "data: " + (chunk + " ");
    assert '\n' !in chunk + " ";
    DataEventLines(chunk + " ");
    DataLineRead(chunk);
    BlankLinesIgnored();
    var lines := [line, "", ""];
    assert lines[1..] == ["", ""];
    LineCallbacksEmit(lines, Trim(chunk));
    assert [Chunk(Trim(chunk))] + [] == [Chunk(Trim(chunk))];
  }

  /** The callbacks the chunks of a server stream yield, read one event per read. */
  function ChunkCallbacks(chunks: seq<string>): (cbs: seq<Callback>)
    ensures |cbs| == |chunks| && forall k :: 0 <= k < |chunks| ==> cbs[k] == Chunk(Trim(chunks[k]))
  {
    if chunks == [] then [] else [Chunk(Trim(chunks[0]))] + ChunkCallbacks(chunks[1..])
  }

  /** One step of the read loop: a read whose lines do not end the stream is followed by the rest. */
  lemma ReadCallbacksContinue(received: seq<string>, cbs: seq<Callback>)
    requires |received| >= 1 && LineCallbacks(Split(received[0], '\n')) == (cbs, false)
    ensures ReadCallbacks(received) == cbs + ReadCallbacks(received[1..])
  {
  }

  /** A read whose first line ends the stream calls that line's callback and nothing more. */
  lemma ReadCallbacksStop(received: seq<string>, first: string, cb: Callback)
    requires |received| >= 1 && |Split(received[0], '\n')| >= 1 && Split(received[0], '\n')[0] == first
    requires ClassifyLine(first) == Finish(cb)
    ensures ReadCallbacks(received) == [cb]
  {
  }

  lemma {:induction false} ChunkEventsRead(chunks: seq<string>, last: string)
    requires forall k :: 0 <= k < |chunks| ==> '\n' !in chunks[k] && Trim(chunks[k]) != ""
    ensures ReadCallbacks(PublicRoutes.ChunkEvents(chunks) + [last]) == ChunkCallbacks(chunks) + ReadCallbacks([last])
  {
    var received := PublicRoutes.ChunkEvents(chunks) + [last];
    if chunks != [] {
      var c := chunks[0];
      ChunkEventRead(c);
      assert received[0] == PublicRoutes.DataEvent(c + " ");
      ReadCallbacksContinue(received, [Chunk(Trim(c))]);
      var tail := PublicRoutes.ChunkEvents(chunks[1..]) + [last];
      assert PublicRoutes.ChunkEvents(chunks) == [PublicRoutes.DataEvent(c + " ")] + PublicRoutes.ChunkEvents(chunks[1..]);
      assert received == [PublicRoutes.DataEvent(c + " ")] + tail;
      assert received[1..] == tail;
      ChunkEventsRead(chunks[1..], last);
      var head, restCbs, lastCbs := [Chunk(Trim(c))], ChunkCallbacks(chunks[1..]), ReadCallbacks([last]);
      assert ChunkCallbacks(chunks) == head + restCbs;
      assert ReadCallbacks(received) == head + (restCbs + lastCbs);
      assert head + (restCbs + lastCbs) == (head + restCbs) + lastCbs;
    } else {
      assert received == [last];
    }
  }

  /**
   * Reading what the in-memory server streams, one event per read: each chunk arrives
   * trimmed, then the done event completes the stream, or the error event fails it.
   */
  lemma ClientReadsServerStream(chunks: seq<string>)
    requires forall k :: 0 <= k < |chunks| ==> '\n' !in chunks[k] && Trim(chunks[k]) != ""
    ensures ReadCallbacks(PublicRoutes.ChunkEvents(chunks) + [PublicRoutes.DONE_EVENT]) == ChunkCallbacks(chunks) + [Complete]
    ensures ReadCallbacks(PublicRoutes.ChunkEvents(chunks) + [PublicRoutes.ERROR_EVENT])
      == ChunkCallbacks(chunks) + [Failure(None, SERVER_ERROR)]
  {
    ChunkEventsRead(chunks, PublicRoutes.DONE_EVENT);
    ChunkEventsRead(chunks, PublicRoutes.ERROR_EVENT);
    DoneEventRead();
    ErrorEventRead();
  }
}
