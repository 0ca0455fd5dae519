/**
 * netlify/functions/admin/users-list.js: the admin roster through the
 * Netlify API (`NETLIFY_SITE_ID`, `NETLIFY_IDENTITY_TOKEN`), with each user
 * given a role by `inferRole` and a normalised parent master-agent code.
 */
module AdminUsersList {
  import opened Wrappers
  import opened JsValues
  import opened JsStrings
  import opened Http
  import opened Claims
  import opened Identity
  import opened Pagination

  /** The fallback of `inferRole`: the roles list in the fixed priority master_agent, agent, admin. */
  function RoleFromList(roles: Json): (r: string)
    ensures Includes(roles, Str("master_agent")) ==> r == "master_agent"
    ensures !Includes(roles, Str("master_agent")) && Includes(roles, Str("agent")) ==> r == "agent"
    ensures !Includes(roles, Str("master_agent")) && !Includes(roles, Str("agent")) && Includes(roles, Str("admin")) ==> r == "admin"
    ensures !Includes(roles, Str("master_agent")) && !Includes(roles, Str("agent")) && !Includes(roles, Str("admin")) ==> r == "unknown"
    ensures !roles.Arr? ==> r == "unknown"
  {
    if Includes(roles, Str("master_agent")) then "master_agent"
    else if Includes(roles, Str("agent")) then "agent"
    else if Includes(roles, Str("admin")) then "admin"
    else "unknown"
  }

  /**
   * `inferRole(u)`: a non-empty `user_metadata.role`, lower-cased and
   * trimmed, wins; otherwise the roles list decides; otherwise "unknown".
   * `None` when the role is truthy but not a string (`.toLowerCase` is not a
   * function).
   */
  function InferRole(u: Json): (r: Option<string>)
    ensures r.None? <==> LowerOf(Get(Get(u, "user_metadata"), "role"), Direct).None?
    ensures r.Some? ==> r.value != ""
  {
    match LowerOf(Get(Get(u, "user_metadata"), "role"), Direct)
    case None => None
    case Some(lowered) =>
      var metaRole := Trim(lowered);
      if metaRole != "" then Some(metaRole)
      else Some(RoleFromList(Or(Get(Get(u, "app_metadata"), "roles"), Arr([]))))
  }

  /** A metadata role that is non-empty after trimming is returned as it is, known role or not. */
  lemma MetaRoleWins(u: Json, s: string)
    requires Get(Get(u, "user_metadata"), "role") == Str(s) && Trim(Lower(s)) != ""
    ensures InferRole(u) == Some(Trim(Lower(s)))
  {
  }

  /** Without a metadata role, the roles list decides (a missing list counts as empty). */
  lemma EmptyMetaRoleFallsBack(u: Json)
    requires !Truthy(Get(Get(u, "user_metadata"), "role"))
    ensures InferRole(u) == Some(RoleFromList(Get(Get(u, "app_metadata"), "roles")))
  {
    assert LowerOf(Get(Get(u, "user_metadata"), "role"), Direct) == Some("");
    assert |Trim("")| == 0;
    var roles := Get(Get(u, "app_metadata"), "roles");
    assert RoleFromList(Or(roles, Arr([]))) == RoleFromList(roles);
  }

  /** The priority ignores the order of the list: two lists holding the same strings give the same role. */
  lemma RoleListOrderIrrelevant(r1: Json, r2: Json)
    requires r1.Arr? && r2.Arr? && (forall x :: x in r1.items <==> x in r2.items)
    ensures RoleFromList(r1) == RoleFromList(r2)
  {
  }

  /** The keys `parent_ma_code || ma_code || ma_ref || parent_ma_ref`. */
  const ParentKeys: seq<string> := ["parent_ma_code", "ma_code", "ma_ref", "parent_ma_ref"]

  datatype Row = Row(id: Json, email: Json, name: Json, role: string, parentMa: string)

  /** The body of `allUsers.map(...)`; `None` when it throws (a `null` user, or a non-string role). */
  function MapUser(u: Json): (r: Option<Row>)
    ensures r.None? <==> u.Null? || InferRole(u).None?
    ensures r.Some? ==> var meta := MetaOf(u);
      && r.value.role == InferRole(u).value
      && r.value.parentMa == ParentCode(meta, ParentKeys)
      && r.value.name == FirstTruthy(meta, ["full_name", "name"])
      && r.value.email == Or(Get(u, "email"), Str(""))
      && r.value.id == Get(u, "id")
  {
    if u.Null? then None
    else
      var meta := MetaOf(u);
      match InferRole(u)
      case None => None
      case Some(role) =>
        Some(Row(Get(u, "id"), Or(Get(u, "email"), Str("")), FirstTruthy(meta, ["full_name", "name"]),
                 role, ParentCode(meta, ParentKeys)))
  }

  function StartUrl(siteId: string): string {
    "https://api.netlify.com/api/v1/sites/" + siteId + "/identity/users?per_page=100"
  }

  /** The fetch and the mapping, once the caller and the environment have been accepted. */
  function Serve(siteId: string, pages: seq<Page>): (r: Response<seq<Row>>)
    ensures r.reply.Data? <==> Crawls(siteId, pages)
  {
    match CrawlFrom(SpreadLenient, pages, 0, StartUrl(siteId))
    case PageFailed(status, text, _) => Relay(status, "Failed to fetch users", text, None)
    case Threw(e) => Crash(e)
    case Listed(us) =>
      match MapAll(MapUser, us)
      case None => Crash(TypeErrorMessage)
      case Some(rows) => Success(rows)
  }

  /** Every page is fetched and every user maps without throwing. */
  predicate Crawls(siteId: string, pages: seq<Page>) {
    var c := CrawlFrom(SpreadLenient, pages, 0, StartUrl(siteId));
    c.Listed? && MapAll(MapUser, c.users).Some?
  }

  /** The handler, with `siteId` and `identityToken` the environment variables ("" when unset). */
  function Handle(req: Request, decode: Decoder, siteId: string, identityToken: string, pages: seq<Page>)
    : (r: Response<seq<Row>>)
    ensures req.httpMethod != "GET" ==> r == Fail(405, "Method not allowed")
    ensures req.httpMethod == "GET" && BearerToken(AuthHeader(req)).None? ==> r == Fail(401, "Unauthorized")
    ensures req.httpMethod == "GET" && BearerToken(AuthHeader(req)).Some? ==>
      var token := BearerToken(AuthHeader(req)).value;
      && (!AdminOrFalse(decode, token) ==> r == Fail(403, "Forbidden (admin only)"))
      && (AdminOrFalse(decode, token) && (siteId == "" || identityToken == "") ==>
            r == Fail(500, "Missing NETLIFY_SITE_ID or NETLIFY_IDENTITY_TOKEN"))
      && (AdminOrFalse(decode, token) && siteId != "" && identityToken != "" ==> r == Serve(siteId, pages))
    ensures r.Ok() ==> req.httpMethod == "GET" && BearerToken(AuthHeader(req)).Some?
    ensures r.Ok() ==> AdminOrFalse(decode, BearerToken(AuthHeader(req)).value) && siteId != "" && identityToken != ""
  {
    if req.httpMethod != "GET" then Fail(405, "Method not allowed")
    else
      match BearerToken(AuthHeader(req))
      case None => Fail(401, "Unauthorized")
      case Some(token) =>
        if !AdminOrFalse(decode, token) then Fail(403, "Forbidden (admin only)")
        else if siteId == "" || identityToken == "" then
          Fail(500, "Missing NETLIFY_SITE_ID or NETLIFY_IDENTITY_TOKEN")
        else Serve(siteId, pages)
  }

  /** The `while (url)` loop followed by the `map`. */
  method Respond(siteId: string, pages: seq<Page>) returns (r: Response<seq<Row>>)
    ensures r == Serve(siteId, pages)
  {
    var c := CollectUsers(SpreadLenient, pages, StartUrl(siteId));
    match c
    case PageFailed(status, text, _) => r := Relay(status, "Failed to fetch users", text, None);
    case Threw(e) => r := Crash(e);
    case Listed(us) =>
      var rows := MapAll(MapUser, us);
      r := if rows.None? then Crash(TypeErrorMessage) else Success(rows.value);
  }

  /**
   * A successful reply has one row per user of a run of pages that ends with
   * the first page naming no next link, each row mapped from its user, in
   * fetch order.
   */
  lemma SuccessCoversAllPages(siteId: string, pages: seq<Page>) returns (n: nat)
    requires Serve(siteId, pages).reply.Data?
    ensures n < |pages| && Ends(SpreadLenient, pages, n)
    ensures forall j :: 0 <= j < n ==> Continues(SpreadLenient, pages, j)
    ensures var rows := Serve(siteId, pages).reply.value;
      var us := UsersBetween(SpreadLenient, pages, 0, n);
      |rows| == |us| && (forall i :: 0 <= i < |us| ==> Some(rows[i]) == MapUser(us[i]))
  {
    n := ListedRun(SpreadLenient, pages, 0, StartUrl(siteId));
  }

  /** A page with a status outside 200..299 is relayed with its own status and text. */
  lemma NonOkPageRelayed(siteId: string, pages: seq<Page>) returns (n: nat)
    requires CrawlFrom(SpreadLenient, pages, 0, StartUrl(siteId)).PageFailed?
    ensures n < |pages| && !IsOkStatus(pages[n].status)
    ensures forall j :: 0 <= j < n ==> Continues(SpreadLenient, pages, j)
    ensures Serve(siteId, pages) == Relay(pages[n].status, "Failed to fetch users", pages[n].text, None)
  {
    n := FailedAt(SpreadLenient, pages, 0, StartUrl(siteId));
  }
}
