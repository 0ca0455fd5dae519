/**
 * What every handler receives and returns: the request event, replies from
 * upstream HTTP calls, and the JSON envelope `{ ok, ...payload | error, detail? }`.
 */
module Http {
  import opened Wrappers
  import opened JsValues
  import opened JsStrings

  /**
   * `event.body`: absent or empty (`event.body || "{}"` then parses to `{}`),
   * or text that `JSON.parse` turns into a value (`Some`) or rejects (`None`).
   */
  datatype BodyText = NoBody | Text(parsed: Option<Json>)

  /** The parts of a Netlify function event the handlers read. Absent headers are "". */
  datatype Request = Request(
    httpMethod: string,
    authorization: string,
    authorizationCap: string,
    query: map<string, string>,
    body: BodyText)

  /**
   * A reply from one upstream HTTP call: its status, its text, and what
   * `JSON.parse` makes of that text (`None` when it throws).
   */
  datatype Upstream = Upstream(status: int, text: string, parsed: Option<Json>)

  /**
   * The body of a reply: a handler's payload, the bare `{ ok: true }` of a
   * CORS preflight, an error, or the error of a missing identity context
   * with `hasIdentityUrl` and `hasIdentityToken` beside it.
   */
  datatype Reply<P> =
    | Data(value: P)
    | Preflight
    | Failure(error: string, detail: Option<string>, attempted: Option<string>)
    | ContextMissing(error: string, hasIdentityUrl: bool, hasIdentityToken: bool)

  datatype Response<P> = Response(status: int, reply: Reply<P>) {
    /** The envelope's `ok` field. */
    predicate Ok() { reply.Data? || reply.Preflight? }
  }

  function Success<P>(value: P): Response<P> {
    Response(200, Data(value))
  }

  function Fail<P>(status: int, error: string): Response<P> {
    Response(status, Failure(error, None, None))
  }

  /** An upstream failure passed through with its status and text. */
  function Relay<P>(status: int, error: string, detail: string, attempted: Option<string>): Response<P> {
    Response(status, Failure(error, Some(detail), attempted))
  }

  /** The catch block of every handler: `json(500, { ok: false, error: err?.message || "Server error" })`. */
  function Crash<P>(message: string): (r: Response<P>)
    ensures r.status == 500 && !r.Ok()
  {
    Response(500, Failure(if message == "" then "Server error" else message, None, None))
  }

  /** Stand-ins for the messages of exceptions raised by the JavaScript engine and by `fetch`. */
  const TypeErrorMessage := "TypeError"
  const SyntaxErrorMessage := "SyntaxError"
  const ReferenceErrorMessage := "ReferenceError"
  const FetchFailedMessage := "fetch failed"

  /** `res.ok` */
  predicate IsOkStatus(status: int) {
    200 <= status <= 299
  }

  /** `event.headers.authorization || event.headers.Authorization || ""` */
  function AuthHeader(req: Request): string {
    if req.authorization != "" then req.authorization else req.authorizationCap
  }

  /** `event.queryStringParameters?.[key] || ""` */
  function QueryParam(req: Request, key: string): string {
    if key in req.query then req.query[key] else ""
  }

  /** `String(event.queryStringParameters?.[key] || "").trim()` */
  function QueryField(req: Request, key: string): string {
    Trim(QueryParam(req, key))
  }

  /** `JSON.parse(event.body || "{}")`, with `None` when it throws. */
  function ParseBody(body: BodyText): Option<Json> {
    match body
    case NoBody => Some(Obj(map[]))
    case Text(parsed) => parsed
  }

  /** What `JSON.parse(event.body || "{}")` gives, or the exception reading a field of it raises. */
  function BodyObject(req: Request): (r: Option<Json>)
    ensures r.Some? ==> !r.value.Null?
  {
    match ParseBody(req.body)
    case None => None
    case Some(b) => if b.Null? then None else Some(b)
  }

  /** The message of that exception: a `SyntaxError` from `JSON.parse`, or a `TypeError` for a `null` body. */
  function BodyError(req: Request): string {
    if ParseBody(req.body).None? then SyntaxErrorMessage else TypeErrorMessage
  }

  /** `String(v ?? "").trim()`: unlike `||`, only `null` and `undefined` become "". */
  function SafeStr(v: Json): (r: string)
    ensures v.Null? ==> r == ""
    ensures v.Str? ==> r == Trim(v.s)
    ensures v == Bool(false) ==> r == "false"
  {
    Trim(if v.Null? then "" else StringOf(v))
  }

  /**
   * `JSON.parse(txt || "{}")` over an upstream reply's text, with `None` when
   * it throws: it throws exactly for non-empty text that is not JSON, and an
   * empty reply reads as an object without fields.
   */
  function ParsedOrEmpty(u: Upstream): (r: Option<Json>)
    ensures r.None? <==> u.text != "" && u.parsed.None?
    ensures r.Some? && r.value != Obj(map[]) ==> r == u.parsed
    ensures u.text == "" ==> r == Some(Obj(map[]))
    ensures u.text != "" ==> r == u.parsed
  {
    if u.text == "" then Some(Obj(map[])) else u.parsed
  }

  /**
   * `auth.startsWith("Bearer ") ? auth.slice(7).trim() : auth.trim()`: a
   * piece of the header, after the scheme when there is one, with no white
   * space at its ends.
   */
  function BearerText(header: string): (t: string)
    ensures t == "" || (!IsSpace(t[0]) && !IsSpace(t[|t| - 1]))
    ensures StartsWith(header, "Bearer ") ==> |t| + 7 <= |header|
    ensures StartsWith(header, "Bearer ") ==> t == Trim(header[7..])
    ensures !StartsWith(header, "Bearer ") ==> t == Trim(header)
  {
    if StartsWith(header, "Bearer ") then Trim(header[7..]) else Trim(header)
  }

  /** The text is the header's own characters at some index `j`, after the scheme when there is one. */
  lemma BearerTextPiece(header: string) returns (j: nat)
    ensures (if StartsWith(header, "Bearer ") then 7 else 0) <= j
    ensures OccursAt(header, BearerText(header), j)
  {
    var start := if StartsWith(header, "Bearer ") then 7 else 0;
    var u := header[start..];
    var t := Trim(u);
    var a := LeadingSpaceCount(u);
    TrimOccurs(u);
    j := start + a;
    assert header[j..j + |t|] == u[a..a + |t|];
  }

  /** `getBearerToken`: the token, or `null` when it is empty. */
  function BearerToken(header: string): (r: Option<string>)
    ensures r.None? <==> BearerText(header) == ""
    ensures r.Some? ==> r.value == BearerText(header)
  {
    var t := BearerText(header);
    if t == "" then None else Some(t)
  }

  /** A token is never empty and never starts or ends with white space. */
  lemma BearerTokenShape(header: string)
    ensures BearerToken(header).Some? ==>
      var t := BearerToken(header).value;
      t != "" && !IsSpace(t[0]) && !IsSpace(t[|t| - 1])
  {
    var u := if StartsWith(header, "Bearer ") then header[7..] else header;
    assert BearerText(header) == Trim(u);
  }

  /** A header `Bearer <t>` yields `t` back for every trimmed non-empty token. */
  lemma BearerRoundTrip(t: string)
    requires t != "" && !IsSpace(t[0]) && !IsSpace(t[|t| - 1])
    ensures BearerToken("Bearer " + t) == Some(t)
  {
    var h := "Bearer " + t;
    assert h[..7] == "Bearer ";
    assert h[7..] == t;
    TrimOfTrimmed(t);
  }

  /** A header that is just the token, without the scheme, also yields the token. */
  lemma BareTokenRoundTrip(t: string)
    requires t != "" && !IsSpace(t[0]) && !IsSpace(t[|t| - 1])
    requires !StartsWith(t, "Bearer ")
    ensures BearerToken(t) == Some(t)
  {
    TrimOfTrimmed(t);
  }

  lemma TrimOfTrimmed(t: string)
    requires t != "" && !IsSpace(t[0]) && !IsSpace(t[|t| - 1])
    ensures Trim(t) == t
  {
    assert LeadingSpaceCount(t) == 0;
    assert t[0..] == t;
    assert TrailingSpaceCount(t) == 0;
  }
}
