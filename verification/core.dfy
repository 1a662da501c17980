/**
 * The API description language: the tagged node types of an API tree and the
 * response templates that annotate its METHOD leaves (src/servo/core.ts).
 */
module ApiCore {
  import opened Results

  /** The HTTP verbs a METHOD leaf may carry. */
  datatype Verb = GET | POST | DELETE | OPTIONS

  function VerbName(v: Verb): string
  {
    match v
    case GET => "GET"
    case POST => "POST"
    case DELETE => "DELETE"
    case OPTIONS => "OPTIONS"
  }

  /** How a BODY node encodes the caller's value: `"JSON"` or left unspecified. */
  datatype BodyType = Json | Unspecified

  /**
   * A response template: the status it describes and, for a header response,
   * the names of the response headers the caller wants back. The payload type
   * exists only at the type level and has no runtime trace.
   */
  datatype Template =
    | PlainResponse(status: int)
    | HeaderResponse(status: int, headers: seq<string>)

  /**
   * An API tree. METHOD is a leaf whose payload is its list of response
   * templates; OR has two children; ANY an ordered list of them; every other
   * node has exactly one `next` child.
   */
  datatype Api =
    | Method(verb: Verb, templates: seq<Template>)
    | Path(segment: string, next: Api)
    | Capture(name: string, next: Api)
    | Header(name: string, next: Api)
    | QueryParam(name: string, next: Api)
    | Body(bodyType: BodyType, next: Api)
    | Or(left: Api, right: Api)
    | Any(alternatives: seq<Api>)

  /** The nodes that wrap exactly one `next` child. */
  predicate IsExtender(a: Api)
  {
    a.Path? || a.Capture? || a.Header? || a.QueryParam? || a.Body?
  }

  /** The header names a template asks for, or nothing for a plain response. */
  function GetHeaders(t: Template): Option<seq<string>>
  {
    match t
    case HeaderResponse(_, headers) => Some(headers)
    case PlainResponse(_) => None
  }

  function GetStatus(t: Template): int
  {
    t.status
  }

  /** Position `i` holds the first template in `ts` whose status is `status`. */
  predicate FirstMatchAt(ts: seq<Template>, status: int, i: int)
  {
    && 0 <= i < |ts|
    && GetStatus(ts[i]) == status
    && forall j :: 0 <= j < i ==> GetStatus(ts[j]) != status
  }

  /** The index `Array.prototype.find` stops at when looking for `status`. */
  function FirstMatch(ts: seq<Template>, status: int): (r: Option<nat>)
    ensures r.Some? ==> FirstMatchAt(ts, status, r.value)
    ensures r.None? <==> forall j :: 0 <= j < |ts| ==> GetStatus(ts[j]) != status
  {
    if |ts| == 0 then None
    else if GetStatus(ts[0]) == status then Some(0)
    else match FirstMatch(ts[1..], status)
      case None => None
      case Some(i) => Some(i + 1)
  }

  /** `templates.find(t => getStatus(t) === status)`. */
  function FindTemplate(ts: seq<Template>, status: int): (r: Option<Template>)
    ensures r.None? <==> forall j :: 0 <= j < |ts| ==> GetStatus(ts[j]) != status
    ensures r.Some? ==> exists i :: FirstMatchAt(ts, status, i) && ts[i] == r.value
  {
    match FirstMatch(ts, status)
    case None => None
    case Some(i) => Some(ts[i])
  }

  /** A template's header list is reported exactly when it is a header response. */
  lemma HeadersOnlyForHeaderResponses(t: Template)
    ensures GetHeaders(t).Some? <==> t.HeaderResponse?
    ensures t.HeaderResponse? ==> GetHeaders(t) == Some(t.headers)
    ensures GetStatus(t) == t.status
  {
  }

  /** Two matches at different positions cannot both be first. */
  lemma FirstMatchUnique(ts: seq<Template>, status: int, i: int, j: int)
    requires FirstMatchAt(ts, status, i) && FirstMatchAt(ts, status, j)
    ensures i == j
  {
  }
}
