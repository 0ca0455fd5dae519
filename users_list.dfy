/**
 * netlify/functions/users-list.js: the admin roster through the GoTrue admin
 * endpoint of the function context. Admins are recognised by the roles list
 * or by `user_metadata.role`, pages may be bare arrays or `{ users: [...] }`,
 * and the rows fall back to placeholders instead of normalising.
 */
module UsersList {
  import opened Wrappers
  import opened JsValues
  import opened JsStrings
  import opened Http
  import opened Claims
  import opened Identity
  import opened LinkHeader
  import opened Pagination

  const IdentityMissing :=
    "Identity admin token not available in function context. Ensure Identity is enabled on THIS site and redeploy."
  const FetchFailed := "Failed to fetch users (GoTrue admin)"

  /** The keys of `meta.parent_ma_code || meta.ma_code || meta.ma_ref || ""`. */
  const ParentKeys: seq<string> := ["parent_ma_code", "ma_code", "ma_ref"]

  datatype Row = Row(id: Json, email: Json, role: string, name: Json, parentMa: Json)

  /** `String(meta.role || (u.app_metadata?.roles?.[0] || "")).toLowerCase()` */
  function RoleText(u: Json): string {
    var first := Elem0(Get(Get(u, "app_metadata"), "roles"));
    Lower(StringOf(Or(Get(MetaOf(u), "role"), Or(first, Str("")))))
  }

  /** The body of `allUsers.map(...)`; `None` for a `null` user (`u.user_metadata` throws). */
  function MapUser(u: Json): (r: Option<Row>)
    ensures r.None? <==> u.Null?
  {
    if u.Null? then None
    else
      var meta := MetaOf(u);
      var role := RoleText(u);
      Some(Row(Get(u, "id"), Get(u, "email"), if role == "" then "—" else role,
               Or(Get(meta, "full_name"), Or(Get(meta, "name"), Str("—"))),
               FirstTruthy(meta, ParentKeys)))
  }

  /**
   * The role is the lower-cased metadata role, else the lower-cased first
   * entry of `app_metadata.roles`, else "—"; it is never empty.
   */
  lemma MappedRole(u: Json)
    requires !u.Null?
    ensures var row := MapUser(u).value;
      var metaRole := Get(MetaOf(u), "role");
      var first := Elem0(Get(Get(u, "app_metadata"), "roles"));
      && row.role != ""
      && (forall s :: metaRole == Str(s) && s != "" ==> row.role == Lower(s))
      && (forall s :: !Truthy(metaRole) && first == Str(s) && s != "" ==> row.role == Lower(s))
      && (!Truthy(metaRole) && !Truthy(first) ==> row.role == "—")
  {
    var metaRole := Get(MetaOf(u), "role");
    var first := Elem0(Get(Get(u, "app_metadata"), "roles"));
    if !Truthy(metaRole) && !Truthy(first) {
      assert Or(metaRole, Or(first, Str(""))) == Str("");
      assert RoleText(u) == "";
    }
  }

  /** The name falls back from `full_name` to `name` to "—". */
  lemma MappedName(u: Json)
    requires !u.Null?
    ensures var row := MapUser(u).value;
      var meta := MetaOf(u);
      && (Truthy(Get(meta, "full_name")) ==> row.name == Get(meta, "full_name"))
      && (!Truthy(Get(meta, "full_name")) && Truthy(Get(meta, "name")) ==> row.name == Get(meta, "name"))
      && (!Truthy(Get(meta, "full_name")) && !Truthy(Get(meta, "name")) ==> row.name == Str("—"))
  {
  }

  /**
   * `parent_ma` is the first truthy of `parent_ma_code`, `ma_code`, `ma_ref`,
   * passed through as it is stored: not trimmed, not upper-cased, and
   * `parent_ma_ref` is not consulted.
   */
  lemma MappedParentRaw(u: Json, s: string)
    requires !u.Null? && s != ""
    ensures Get(MetaOf(u), "parent_ma_code") == Str(s) ==> MapUser(u).value.parentMa == Str(s)
    ensures var meta := Obj(map["parent_ma_code" := Str(" ma1 ")]);
      MapUser(Obj(map["user_metadata" := meta])).value.parentMa == Str(" ma1 ")
    ensures var meta := Obj(map["parent_ma_ref" := Str("MA1")]);
      MapUser(Obj(map["user_metadata" := meta])).value.parentMa == Str("")
  {
    if Get(MetaOf(u), "parent_ma_code") == Str(s) {
      FirstTruthyPicks(MetaOf(u), ParentKeys, 0);
    }
    var m1 := Obj(map["parent_ma_code" := Str(" ma1 ")]);
    var u1 := Obj(map["user_metadata" := m1]);
    assert MetaOf(u1) == m1;
    FirstTruthyPicks(m1, ParentKeys, 0);
    var m2 := Obj(map["parent_ma_ref" := Str("MA1")]);
    var u2 := Obj(map["user_metadata" := m2]);
    assert MetaOf(u2) == m2;
    assert forall i :: 0 <= i < |ParentKeys| ==> !Truthy(Get(m2, ParentKeys[i]));
  }

  function StartUrl(base: string): string {
    base + "/admin/users?per_page=100"
  }

  /** The fetch loop and the mapping, once the caller has been accepted. */
  function Serve(admin: Admin, pages: seq<Page>): (r: Response<seq<Row>>)
  {
    match CrawlFrom(ArrayOrWrapped, pages, 0, StartUrl(admin.base))
    case PageFailed(status, text, attempted) => Relay(status, FetchFailed, text, attempted)
    case Threw(e) => Crash(e)
    case Listed(us) =>
      match MapAll(MapUser, us)
      case None => Crash(TypeErrorMessage)
      case Some(rows) => Success(rows)
  }

  /** The handler; `identity` is `context?.clientContext?.identity` (`Null` when absent). */
  function Handle(req: Request, decode: Decoder, identity: Json, pages: seq<Page>): (r: Response<seq<Row>>)
    ensures req.httpMethod == "OPTIONS" ==> r == Response(200, Preflight)
    ensures req.httpMethod != "OPTIONS" && req.httpMethod != "GET" ==> r == Fail(405, "Method not allowed")
    ensures req.httpMethod == "GET" && BearerToken(AuthHeader(req)).None? ==> r == Fail(401, "Unauthorized")
    ensures req.httpMethod == "GET" && BearerToken(AuthHeader(req)).Some? ==>
      var claims := decode(BearerToken(AuthHeader(req)).value);
      && (claims.None? ==> r == Crash(SyntaxErrorMessage))
      && (claims.Some? && !AdminByRoleOrMeta(claims.value) ==> r == Fail(403, "Forbidden (admin only)"))
      && (claims.Some? && AdminByRoleOrMeta(claims.value) && GoTrueAdmin(identity).None? ==>
            r == Fail(500, IdentityMissing))
      && (claims.Some? && AdminByRoleOrMeta(claims.value) && GoTrueAdmin(identity).Some? ==>
            r == Serve(GoTrueAdmin(identity).value, pages))
  {
    if req.httpMethod == "OPTIONS" then Response(200, Preflight)
    else if req.httpMethod != "GET" then Fail(405, "Method not allowed")
    else
      match BearerToken(AuthHeader(req))
      case None => Fail(401, "Unauthorized")
      case Some(token) =>
        match decode(token)
        case None => Crash(SyntaxErrorMessage)
        case Some(claims) =>
          if !AdminByRoleOrMeta(claims) then Fail(403, "Forbidden (admin only)")
          else
            match GoTrueAdmin(identity)
            case None => Fail(500, IdentityMissing)
            case Some(admin) => Serve(admin, pages)
  }

  /** The `while (url)` loop followed by the `map`. */
  method Respond(admin: Admin, pages: seq<Page>) returns (r: Response<seq<Row>>)
    ensures r == Serve(admin, pages)
  {
    var c := CollectUsers(ArrayOrWrapped, pages, StartUrl(admin.base));
    match c
    case PageFailed(status, text, attempted) => r := Relay(status, FetchFailed, text, attempted);
    case Threw(e) => r := Crash(e);
    case Listed(us) =>
      var rows := MapAll(MapUser, us);
      r := if rows.None? then Crash(TypeErrorMessage) else Success(rows.value);
  }

  /** A successful reply has one row per user of a complete run of pages, in fetch order. */
  lemma SuccessCoversAllPages(admin: Admin, pages: seq<Page>) returns (n: nat)
    requires Serve(admin, pages).reply.Data?
    ensures n < |pages| && Ends(ArrayOrWrapped, pages, n)
    ensures forall j :: 0 <= j < n ==> Continues(ArrayOrWrapped, pages, j)
    ensures var rows := Serve(admin, pages).reply.value;
      var us := UsersBetween(ArrayOrWrapped, pages, 0, n);
      |rows| == |us| && (forall i :: 0 <= i < |us| ==> Some(rows[i]) == MapUser(us[i]))
  {
    n := ListedRun(ArrayOrWrapped, pages, 0, StartUrl(admin.base));
  }

  /** A page with a status outside 200..299 is relayed with its status, its text and the URL it came from. */
  lemma NonOkPageRelayed(admin: Admin, pages: seq<Page>) returns (n: nat)
    requires CrawlFrom(ArrayOrWrapped, pages, 0, StartUrl(admin.base)).PageFailed?
    ensures n < |pages| && !IsOkStatus(pages[n].status)
    ensures forall j :: 0 <= j < n ==> Continues(ArrayOrWrapped, pages, j)
    ensures n > 0 ==> Continues(ArrayOrWrapped, pages, n - 1)
    ensures Serve(admin, pages) == Relay(pages[n].status, FetchFailed, pages[n].text,
      Some(if n == 0 then StartUrl(admin.base) else NextLink(pages[n - 1].link).value))
  {
    n := FailedAt(ArrayOrWrapped, pages, 0, StartUrl(admin.base));
  }
}
