/**
 * netlify/functions/admin-agent-stats.js: the agent counts through the
 * Netlify API, with no caller check at all. The page body must be a JSON
 * array (`allUsers.push(...await res.json())`) and the role must be a
 * string or falsy (`(meta.role || "").toLowerCase()`).
 */
module AdminAgentStats {
  import opened Wrappers
  import opened JsValues
  import opened Http
  import opened Identity
  import opened Pagination
  import opened AgentTally

  const EnvMissing := "Missing NETLIFY_SITE_ID or NETLIFY_IDENTITY_TOKEN in environment variables."

  function StartUrl(siteId: string): string {
    "https://api.netlify.com/api/v1/sites/" + siteId + "/identity/users?per_page=100"
  }

  /** The fetch loop, the counting loop and the sort, once the environment is set. */
  function Serve(siteId: string, pages: seq<Page>): Response<Stats> {
    match CrawlFrom(SpreadStrict, pages, 0, StartUrl(siteId))
    case PageFailed(status, text, _) => Relay(status, "Failed to fetch users", text, None)
    case Threw(e) => Crash(e)
    case Listed(us) =>
      match StatsOf(us, Direct)
      case None => Crash(TypeErrorMessage)
      case Some(s) => Success(s)
  }

  /** The handler, with `siteId` and `identityToken` the environment variables ("" when unset). */
  function Handle(siteId: string, identityToken: string, pages: seq<Page>): (r: Response<Stats>)
    ensures siteId == "" || identityToken == "" ==> r == Fail(500, EnvMissing)
    ensures siteId != "" && identityToken != "" ==> r == Serve(siteId, pages)
  {
    if siteId == "" || identityToken == "" then Fail(500, EnvMissing) else Serve(siteId, pages)
  }

  /** The handler body: the environment check, the `while (url)` loop and the counting loop. */
  method HandleRequest(siteId: string, identityToken: string, pages: seq<Page>) returns (r: Response<Stats>)
    ensures r == Handle(siteId, identityToken, pages)
  {
    if siteId == "" || identityToken == "" {
      return Fail(500, EnvMissing);
    }
    var c := CollectUsers(SpreadStrict, pages, StartUrl(siteId));
    match c
    case PageFailed(status, text, _) => r := Relay(status, "Failed to fetch users", text, None);
    case Threw(e) => r := Crash(e);
    case Listed(us) =>
      var s := Summarise(us, Direct);
      r := if s.None? then Crash(TypeErrorMessage) else Success(s.value);
  }

  /** A successful reply summarises a complete run of array pages: `totalUsers` is the number of users on them. */
  lemma TotalUsersCoversAllPages(siteId: string, pages: seq<Page>) returns (n: nat)
    requires Serve(siteId, pages).reply.Data?
    ensures n < |pages| && Ends(SpreadStrict, pages, n)
    ensures forall j :: 0 <= j < n ==> Continues(SpreadStrict, pages, j)
    ensures forall j :: 0 <= j <= n ==>
      pages[j].text != "" && pages[j].parsed.Some? && (pages[j].parsed.value.Arr? || pages[j].parsed.value.Str?)
    ensures var us := UsersBetween(SpreadStrict, pages, 0, n);
      StatsOf(us, Direct) == Some(Serve(siteId, pages).reply.value)
      && Serve(siteId, pages).reply.value.totalUsers == |us|
  {
    n := ListedRun(SpreadStrict, pages, 0, StartUrl(siteId));
    forall j | 0 <= j <= n
      ensures pages[j].text != "" && pages[j].parsed.Some? && (pages[j].parsed.value.Arr? || pages[j].parsed.value.Str?)
    {
      assert Continues(SpreadStrict, pages, j) || Ends(SpreadStrict, pages, j);
      StrictPageRead(pages[j]);
    }
  }

  /** `await res.json()` has read a page only if its text is JSON: an array, or a string spread into characters. */
  lemma StrictPageRead(p: Page)
    requires PageItems(SpreadStrict, p).Items?
    ensures p.text != "" && p.parsed.Some? && (p.parsed.value.Arr? || p.parsed.value.Str?)
  {
  }

  /** A page with a status outside 200..299 is relayed with its status and text. */
  lemma NonOkPageRelayed(siteId: string, pages: seq<Page>) returns (n: nat)
    requires CrawlFrom(SpreadStrict, pages, 0, StartUrl(siteId)).PageFailed?
    ensures n < |pages| && !IsOkStatus(pages[n].status)
    ensures forall j :: 0 <= j < n ==> Continues(SpreadStrict, pages, j)
    ensures Serve(siteId, pages) == Relay(pages[n].status, "Failed to fetch users", pages[n].text, None)
  {
    n := FailedAt(SpreadStrict, pages, 0, StartUrl(siteId));
  }

  /** A truthy role that is not a string makes the counting throw, where agent-stats would read it with `String()`. */
  lemma NonStringRoleThrows(us: seq<Json>, i: nat)
    requires i < |us| && !us[i].Null?
    requires var role := Get(MetaOf(us[i]), "role"); Truthy(role) && !role.Str?
    ensures StatsOf(us, Direct).None?
    ensures StatsOf(us, Stringify).Some? || exists j :: 0 <= j < |us| && us[j].Null?
  {
    assert Classify(us[i], Direct).Fails?;
    if forall j :: 0 <= j < |us| ==> !us[j].Null? {
      assert forall j :: 0 <= j < |us| ==> !Classify(us[j], Stringify).Fails?;
    }
  }
}
