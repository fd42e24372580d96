/**
 * What the in-memory server's route handlers share: the shape of a response, query-string
 * parameters, and the parsing of numeric and comma-separated parameters.
 */
module ServerHttp {
  import opened Wrappers
  import opened Text
  import opened EventModel
  import opened EventStoreService
  import opened ApiErrors

  /** The JSON bodies the handlers send. */
  datatype Body =
    | ErrorBody(error: ErrorResponse)
    | EventBody(event: Event)
    | EventPage(events: Page<Event>)
    | PublicPage(publicEvents: Page<PublicEvent>)

  datatype Header = Header(name: string, value: string)

  /**
   * A finished response: a status with a JSON body, or a Server-Sent Events stream given by
   * its headers (all set before the first write) and the strings written to it, in order.
   */
  datatype Response =
    | Json(status: int, body: Body)
    | Stream(headers: seq<Header>, writes: seq<string>)

  /** The 404 for an id the store does not hold. */
  function UnknownEventReply(id: string): Response {
    Json(404, ErrorBody(NotFoundError(Some("Event with id " + id + " not found"))))
  }

  /** The 404 for an event that exists but is not public. */
  const NOT_PUBLIC_REPLY := Json(404, ErrorBody(NotFoundError(Some("Event is not publicly available"))))

  /** The query-string parameters the list routes read; None when absent. */
  datatype QueryParams = QueryParams(
    dateFrom: Option<string>,
    dateTo: Option<string>,
    locations: Option<string>,
    status: Option<string>,
    page: Option<string>,
    limit: Option<string>)

  /**
   * `parseInt(param) || default`: `parseInt` gives None for NaN (an absent parameter
   * parses as NaN), and both NaN and 0 fall back to the default.
   */
  function IntParam(param: Option<string>, parseInt: string -> Option<int>, default: int): (v: int)
    ensures param.Some? && parseInt(param.value).Some? && parseInt(param.value).value != 0 ==>
      v == parseInt(param.value).value
    ensures param.None? || parseInt(param.value).None? || parseInt(param.value).value == 0 ==> v == default
  {
    if param.None? then default
    else match parseInt(param.value)
      case None => default
      case Some(n) => if n == 0 then default else n
  }

  /** Trims every item. */
  function TrimAll(items: seq<string>): (r: seq<string>)
    ensures |r| == |items| && forall k :: 0 <= k < |items| ==> r[k] == Trim(items[k])
  {
    if items == [] then [] else [Trim(items[0])] + TrimAll(items[1..])
  }

  /** `param ? param.split(',').map(s => s.trim()) : undefined`. */
  function ListParam(param: Option<string>): (r: Option<seq<string>>)
    ensures r.None? <==> !Truthy(param)
    ensures r.Some? ==>
      var pieces := Split(param.value, ',');
      |r.value| == |pieces| && forall k :: 0 <= k < |pieces| ==> r.value[k] == Trim(pieces[k])
  {
    if !Truthy(param) then None else Some(TrimAll(Split(param.value, ',')))
  }

  /** Trimming items that are already trimmed changes nothing. */
  lemma {:induction false} TrimAllTrimmed(items: seq<string>)
    requires forall k :: 0 <= k < |items| ==> Trim(items[k]) == items[k]
    ensures TrimAll(items) == items
  {
    if items != [] {
      TrimAllTrimmed(items[1..]);
    }
  }

  /**
   * A list joined with commas, as the client sends it, is parsed back into the same list
   * when no item contains a comma or surrounding white space.
   */
  lemma ListParamRoundTrip(items: seq<string>)
    requires |items| >= 1 && Join(items, ',') != ""
    requires forall k :: 0 <= k < |items| ==> ',' !in items[k]
    requires forall k :: 0 <= k < |items| ==> Trim(items[k]) == items[k]
    ensures ListParam(Some(Join(items, ','))) == Some(items)
  {
    SplitJoin(items, ',');
    TrimAllTrimmed(items);
  }
}
