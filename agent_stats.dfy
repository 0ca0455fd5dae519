/**
 * netlify/functions/agent-stats.js: the agent counts for an admin, read
 * through the GoTrue admin endpoint of the function context.
 */
module AgentStats {
  import opened Wrappers
  import opened JsValues
  import opened Http
  import opened Claims
  import opened Identity
  import opened LinkHeader
  import opened Pagination
  import opened AgentTally

  const IdentityMissing :=
    "Identity admin token not available in function context. Check: Identity enabled on THIS site + redeploy."
  const FetchFailed := "Failed to fetch users (GoTrue admin)"

  function StartUrl(base: string): string {
    base + "/admin/users?per_page=100"
  }

  /**
   * The 500 for a context without `identity.url` or `identity.token`, which
   * reports `!!identity?.url` and `!!identity?.token`.
   */
  function NoIdentity(identity: Json): (r: Response<Stats>)
    ensures GoTrueAdmin(identity).None? ==>
      r.status == 500 && r.reply.ContextMissing? && !(r.reply.hasIdentityUrl && r.reply.hasIdentityToken)
  {
    Response(500, ContextMissing(IdentityMissing, Truthy(Get(identity, "url")), Truthy(Get(identity, "token"))))
  }

  /** The fetch loop, the counting loop and the sort, once the caller has been accepted. */
  function Serve(admin: Admin, pages: seq<Page>): Response<Stats> {
    match CrawlFrom(ArrayOrWrapped, pages, 0, StartUrl(admin.base))
    case PageFailed(status, text, attempted) => Relay(status, FetchFailed, text, attempted)
    case Threw(e) => Crash(e)
    case Listed(us) =>
      match StatsOf(us, Stringify)
      case None => Crash(TypeErrorMessage)
      case Some(s) => Success(s)
  }

  /** The handler; `identity` is `context?.clientContext?.identity` (`Null` when absent). */
  function Handle(req: Request, decode: Decoder, identity: Json, pages: seq<Page>): (r: Response<Stats>)
    ensures req.httpMethod == "OPTIONS" ==> r == Response(200, Preflight)
    ensures req.httpMethod != "OPTIONS" && req.httpMethod != "GET" ==> r == Fail(405, "Method not allowed")
    ensures req.httpMethod == "GET" && BearerToken(AuthHeader(req)).None? ==> r == Fail(401, "Unauthorized")
    ensures req.httpMethod == "GET" && BearerToken(AuthHeader(req)).Some? ==>
      var claims := decode(BearerToken(AuthHeader(req)).value);
      && (claims.None? ==> r == Crash(SyntaxErrorMessage))
      && (claims.Some? && !AdminByRoleOrMeta(claims.value) ==> r == Fail(403, "Forbidden (admin only)"))
      && (claims.Some? && AdminByRoleOrMeta(claims.value) && GoTrueAdmin(identity).None? ==>
            r == Response(500, ContextMissing(IdentityMissing,
                   Truthy(Get(identity, "url")), Truthy(Get(identity, "token")))))
      && (claims.Some? && AdminByRoleOrMeta(claims.value) && GoTrueAdmin(identity).Some? ==>
            r == Serve(GoTrueAdmin(identity).value, pages))
  {
    if req.httpMethod == "OPTIONS" then Response(200, Preflight)
    else if req.httpMethod != "GET" then Fail(405, "Method not allowed")
    else
      match BearerToken(AuthHeader(req))
      case None => Fail(401, "Unauthorized")
      case Some(token) =>
        match decode(token)
        case None => Crash(SyntaxErrorMessage)
        case Some(claims) =>
          if !AdminByRoleOrMeta(claims) then Fail(403, "Forbidden (admin only)")
          else
            match GoTrueAdmin(identity)
            case None => NoIdentity(identity)
            case Some(admin) => Serve(admin, pages)
  }

  /** The handler body: the checks, then `Respond`. */
  method HandleRequest(req: Request, decode: Decoder, identity: Json, pages: seq<Page>) returns (r: Response<Stats>)
    ensures r == Handle(req, decode, identity, pages)
  {
    if req.httpMethod == "OPTIONS" {
      return Response(200, Preflight);
    }
    if req.httpMethod != "GET" {
      return Fail(405, "Method not allowed");
    }
    var token := BearerToken(AuthHeader(req));
    if token.None? {
      return Fail(401, "Unauthorized");
    }
    var claims := decode(token.value);
    if claims.None? {
      return Crash(SyntaxErrorMessage);
    }
    if !AdminByRoleOrMeta(claims.value) {
      return Fail(403, "Forbidden (admin only)");
    }
    var admin := GoTrueAdmin(identity);
    if admin.None? {
      return NoIdentity(identity);
    }
    assert Handle(req, decode, identity, pages) == Serve(admin.value, pages);
    r := Respond(admin.value, pages);
  }

  /** The `while (url)` loop and the `for (const u of allUsers)` loop. */
  method Respond(admin: Admin, pages: seq<Page>) returns (r: Response<Stats>)
    ensures r == Serve(admin, pages)
  {
    var c := CollectUsers(ArrayOrWrapped, pages, StartUrl(admin.base));
    match c
    case PageFailed(status, text, attempted) => r := Relay(status, FetchFailed, text, attempted);
    case Threw(e) => r := Crash(e);
    case Listed(us) =>
      var s := Summarise(us, Stringify);
      r := if s.None? then Crash(TypeErrorMessage) else Success(s.value);
  }

  /**
   * A successful reply summarises a complete run of pages: `totalUsers` is
   * the number of users on them.
   */
  lemma TotalUsersCoversAllPages(admin: Admin, pages: seq<Page>) returns (n: nat)
    requires Serve(admin, pages).reply.Data?
    ensures n < |pages| && Ends(ArrayOrWrapped, pages, n)
    ensures forall j :: 0 <= j < n ==> Continues(ArrayOrWrapped, pages, j)
    ensures var us := UsersBetween(ArrayOrWrapped, pages, 0, n);
      StatsOf(us, Stringify) == Some(Serve(admin, pages).reply.value)
      && Serve(admin, pages).reply.value.totalUsers == |us|
  {
    n := ListedRun(ArrayOrWrapped, pages, 0, StartUrl(admin.base));
  }

  /** A page with a status outside 200..299 is relayed with its status, its text and the URL it came from. */
  lemma NonOkPageRelayed(admin: Admin, pages: seq<Page>) returns (n: nat)
    requires CrawlFrom(ArrayOrWrapped, pages, 0, StartUrl(admin.base)).PageFailed?
    ensures n < |pages| && !IsOkStatus(pages[n].status)
    ensures forall j :: 0 <= j < n ==> Continues(ArrayOrWrapped, pages, j)
    ensures n > 0 ==> Continues(ArrayOrWrapped, pages, n - 1)
    ensures Serve(admin, pages) == Relay(pages[n].status, FetchFailed, pages[n].text,
      Some(if n == 0 then StartUrl(admin.base) else NextLink(pages[n - 1].link).value))
  {
    n := FailedAt(ArrayOrWrapped, pages, 0, StartUrl(admin.base));
  }

  /** `String(meta.role || "")` accepts any role value: only a `null` user makes the counting throw. */
  lemma OnlyNullUsersThrow(us: seq<Json>)
    ensures StatsOf(us, Stringify).None? <==> exists i :: 0 <= i < |us| && us[i].Null?
  {
    assert forall i :: 0 <= i < |us| ==> (Classify(us[i], Stringify).Fails? <==> us[i].Null?);
  }
}
