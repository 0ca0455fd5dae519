/**
 * netlify/functions/ma-agent-list.js: a master agent's own roster. The
 * caller comes from Netlify's verified `context.clientContext.user`; the
 * users are read page by page (`?page=1, 2, …&per_page=1000`) and the
 * agents of the requested code are listed newest first.
 */
module MaAgentList {
  import opened Wrappers
  import opened JsValues
  import opened JsStrings
  import opened Http
  import opened Identity
  import opened Pagination
  import opened Sorting

  const NotLoggedIn := "Unauthorized. Please login."
  const NotMaster := "Forbidden. Only master_agent can access this."
  const MissingCode := "Missing ma_code. Example: ?ma_code=MA897"
  const NotYours := "Forbidden. ma_code does not match your account."
  const EnvMissing := "Missing NETLIFY_SITE_ID or NETLIFY_IDENTITY_TOKEN in environment variables."
  const FetchFailed := "Failed to fetch Identity users from Netlify API."

  /**
   * `String(um.ma_ref || um.parent_ma_code || "").trim().toUpperCase()` for
   * `um = u?.user_metadata || {}`: `ma_ref` wins over `parent_ma_code`.
   */
  function MaRef(u: Json): string {
    ParentCode(MetaOf(u), ["ma_ref", "parent_ma_code"])
  }

  /** `uRole === "agent" && maRef === maCode`, with `uRole = String(um.role || "").toLowerCase()`. */
  predicate IsMine(u: Json, maCode: string) {
    LowerOf(Get(MetaOf(u), "role"), Stringify) == Some("agent") && MaRef(u) == maCode
  }

  datatype AgentRow = AgentRow(
    id: Json, email: Json, fullName: Json, whatsapp: Json, maRef: string, createdAt: Json, lastLogin: Json)

  /** The object pushed for a listed user; missing fields become "". */
  function RowOf(u: Json): AgentRow {
    var um := MetaOf(u);
    AgentRow(Get(u, "id"), Or(Get(u, "email"), Str("")), Or(Get(um, "full_name"), Str("")),
             Or(Get(um, "whatsapp"), Str("")), MaRef(u), Or(Get(u, "created_at"), Str("")),
             Or(Get(u, "last_login"), Str("")))
  }

  /** What the inner loop pushes for one user. */
  function Pick(maCode: string): Json -> seq<AgentRow> {
    u => if IsMine(u, maCode) then [RowOf(u)] else []
  }

  /** The rows the inner loop pushes for these users, in order. */
  function MatchingRows(us: seq<Json>, maCode: string): seq<AgentRow> {
    FlatMap(Pick(maCode), us)
  }

  /** A user is listed exactly when it is an agent of `maCode`, and the row keeps its normalised code. */
  lemma MatchingRowsExact(us: seq<Json>, maCode: string)
    ensures var rows := MatchingRows(us, maCode);
      && (forall r :: r in rows ==> r.maRef == maCode && exists u :: u in us && IsMine(u, maCode) && r == RowOf(u))
      && (forall u :: u in us && IsMine(u, maCode) ==> RowOf(u) in rows)
  {
    var rows := MatchingRows(us, maCode);
    FlatMapMembers(Pick(maCode), us);
    forall r | r in rows ensures r.maRef == maCode && exists u :: u in us && IsMine(u, maCode) && r == RowOf(u) {
      var u :| u in us && r in Pick(maCode)(u);
      PickedRow(maCode, u, r);
    }
    forall u | u in us && IsMine(u, maCode) ensures RowOf(u) in rows {
      assert RowOf(u) in Pick(maCode)(u);
    }
  }

  lemma PickedRow(maCode: string, u: Json, r: AgentRow)
    requires r in Pick(maCode)(u)
    ensures IsMine(u, maCode) && r == RowOf(u) && r.maRef == maCode
  {
  }

  /** `(a, b) => (b.created_at || "").localeCompare(a.created_at || "")`: the later timestamp first. */
  function ByNewest(): (AgentRow, AgentRow) -> bool {
    (a: AgentRow, b: AgentRow) => LexLess(StringOf(b.createdAt), StringOf(a.createdAt))
  }

  /** The reply `{ ma_code, count, agents }`. */
  datatype Roster = Roster(maCode: string, count: nat, agents: seq<AgentRow>)

  function RosterOf(us: seq<Json>, maCode: string): Roster {
    var agents := SortBy(MatchingRows(us, maCode), ByNewest());
    Roster(maCode, |agents|, agents)
  }

  /**
   * The roster lists exactly the matching rows, newest first (ties keep
   * their fetch order), and `count` is their number.
   */
  lemma RosterOrdered(us: seq<Json>, maCode: string)
    ensures var r := RosterOf(us, maCode);
      && r.count == |r.agents| == |MatchingRows(us, maCode)|
      && multiset(r.agents) == multiset(MatchingRows(us, maCode))
      && (forall i, j :: 0 <= i < j < |r.agents| ==>
            !LexLess(StringOf(r.agents[i].createdAt), StringOf(r.agents[j].createdAt)))
      && (forall c :: TiedWith(r.agents, ByNewest(), c) == TiedWith(MatchingRows(us, maCode), ByNewest(), c))
  {
    var rows := MatchingRows(us, maCode);
    DescendingLexStrictWeak(ByNewest(), (a: AgentRow) => StringOf(a.createdAt));
    SortSorted(rows, ByNewest());
    SortPermutes(rows, ByNewest());
    SortLength(rows, ByNewest());
    forall c {
      SortStable(rows, ByNewest(), c);
    }
  }

  /** The paging loop and the sort, once the caller and the environment have been accepted. */
  function Serve(maCode: string, pages: seq<Page>): Response<Roster> {
    match NumberedFrom(pages, 0)
    case PageFailed(status, text, _) => Relay(status, FetchFailed, SliceTo(text, 500), None)
    case Threw(e) => Crash(e)
    case Listed(us) => Success(RosterOf(us, maCode))
  }

  /** The query code: `String(event.queryStringParameters?.ma_code || "").trim().toUpperCase()`. */
  function RequestedCode(req: Request): string {
    Upper(Trim(QueryParam(req, "ma_code")))
  }

  /**
   * The handler; `user` is `context?.clientContext?.user` (`Null` when
   * absent), `siteId` and `identityToken` the environment variables.
   */
  function Handle(user: Json, req: Request, siteId: string, identityToken: string, pages: seq<Page>)
    : (r: Response<Roster>)
    ensures !Truthy(user) ==> r == Fail(401, NotLoggedIn)
    ensures Truthy(user) ==>
      var meta := MetaOf(user);
      var mine := ParentCode(meta, ["ma_code"]);
      && (LowerOf(Get(meta, "role"), Stringify) != Some("master_agent") ==> r == Fail(403, NotMaster))
      && (LowerOf(Get(meta, "role"), Stringify) == Some("master_agent") ==>
            && (RequestedCode(req) == "" ==> r == Fail(400, MissingCode))
            && (RequestedCode(req) != "" && mine != RequestedCode(req) ==> r == Fail(403, NotYours))
            && (RequestedCode(req) != "" && mine == RequestedCode(req) && (siteId == "" || identityToken == "") ==>
                  r == Fail(500, EnvMissing))
            && (RequestedCode(req) != "" && mine == RequestedCode(req) && siteId != "" && identityToken != "" ==>
                  r == Serve(RequestedCode(req), pages)))
  {
    if !Truthy(user) then Fail(401, NotLoggedIn)
    else
      var meta := MetaOf(user);
      var role := LowerOf(Get(meta, "role"), Stringify).value;
      var myMaCode := ParentCode(meta, ["ma_code"]);
      if role != "master_agent" then Fail(403, NotMaster)
      else
        var maCode := RequestedCode(req);
        if maCode == "" then Fail(400, MissingCode)
        else if myMaCode == "" || myMaCode != maCode then Fail(403, NotYours)
        else if siteId == "" || identityToken == "" then Fail(500, EnvMissing)
        else Serve(maCode, pages)
  }

  /** A master agent only ever sees the roster of its own code. */
  lemma OnlyOwnCode(user: Json, req: Request, siteId: string, identityToken: string, pages: seq<Page>)
    requires Handle(user, req, siteId, identityToken, pages).reply.Data?
    ensures Truthy(user)
    ensures var r := Handle(user, req, siteId, identityToken, pages).reply.value;
      r.maCode == ParentCode(MetaOf(user), ["ma_code"]) != ""
      && forall a :: a in r.agents ==> a.maRef == r.maCode
  {
    var maCode := RequestedCode(req);
    assert Handle(user, req, siteId, identityToken, pages) == Serve(maCode, pages);
    var c := NumberedFrom(pages, 0);
    assert c.Listed?;
    RosterOwnCode(c.users, maCode);
  }

  lemma RosterOwnCode(us: seq<Json>, maCode: string)
    ensures RosterOf(us, maCode).maCode == maCode
    ensures forall a :: a in RosterOf(us, maCode).agents ==> a.maRef == maCode
  {
    var rows := MatchingRows(us, maCode);
    MatchingRowsExact(us, maCode);
    SortPermutes(rows, ByNewest());
    forall a | a in RosterOf(us, maCode).agents ensures a.maRef == maCode {
      assert a in multiset(rows);
    }
  }

  /** The `while (true)` loop over numbered pages with its inner `for (const u of users)` loop, then the sort. */
  method Collect(maCode: string, pages: seq<Page>) returns (r: Response<Roster>)
    ensures r == Serve(maCode, pages)
  {
    var agents: seq<AgentRow> := [];
    ghost var seen: seq<Json> := [];
    var k := 0;
    while true
      invariant NumberedFrom(pages, 0) == Prefixed(seen, NumberedFrom(pages, k))
      invariant agents == MatchingRows(seen, maCode)
      decreases |pages| - k
    {
      if k >= |pages| {
        assert NumberedFrom(pages, k) == Threw(FetchFailedMessage);
        return Crash(FetchFailedMessage);
      }
      var p := pages[k];
      if !IsOkStatus(p.status) {
        assert NumberedFrom(pages, k) == PageFailed(p.status, p.text, None);
        return Relay(p.status, FetchFailed, SliceTo(p.text, 500), None);
      }
      if p.text == "" || p.parsed.None? {
        assert NumberedFrom(pages, k) == Threw(SyntaxErrorMessage);
        return Crash(SyntaxErrorMessage);
      }
      var v := p.parsed.value;
      if !v.Arr? || v.items == [] {
        assert NumberedFrom(pages, k) == Listed([]);
        assert seen + [] == seen;
        break;
      }
      var users := v.items;
      agents := PushMine(agents, users, maCode);
      FlatMapAppend(Pick(maCode), seen, users);
      PrefixedTwice(seen, users, NumberedFrom(pages, k + 1));
      seen := seen + users;
      if |users| < PerPage {
        break;
      }
      k := k + 1;
    }
    var sorted := SortBy(agents, ByNewest());
    return Success(Roster(maCode, |sorted|, sorted));
  }

  /** The inner `for (const u of users)` loop: pushes the row of every agent of `maCode`. */
  method PushMine(agents: seq<AgentRow>, users: seq<Json>, maCode: string) returns (out: seq<AgentRow>)
    ensures out == agents + MatchingRows(users, maCode)
  {
    out := agents;
    var j := 0;
    while j < |users|
      invariant j <= |users|
      invariant out == agents + MatchingRows(users[..j], maCode)
    {
      var u := users[j];
      FlatMapPush(Pick(maCode), agents, users, j, out);
      if IsMine(u, maCode) {
        out := out + [RowOf(u)];
      }
      j := j + 1;
    }
    assert users[..j] == users;
  }


  /** The handler body: the checks in order, then the paging loop. */
  method HandleRequest(user: Json, req: Request, siteId: string, identityToken: string, pages: seq<Page>)
    returns (r: Response<Roster>)
    ensures r == Handle(user, req, siteId, identityToken, pages)
  {
    if !Truthy(user) {
      return Fail(401, NotLoggedIn);
    }
    var meta := MetaOf(user);
    var role := LowerOf(Get(meta, "role"), Stringify).value;
    var myMaCode := ParentCode(meta, ["ma_code"]);
    if role != "master_agent" {
      return Fail(403, NotMaster);
    }
    var maCode := RequestedCode(req);
    if maCode == "" {
      return Fail(400, MissingCode);
    }
    if myMaCode == "" || myMaCode != maCode {
      return Fail(403, NotYours);
    }
    if siteId == "" || identityToken == "" {
      return Fail(500, EnvMissing);
    }
    r := Collect(maCode, pages);
  }

  /** A page with a status outside 200..299 is relayed with its status and at most 500 characters of its text. */
  lemma NonOkPageRelayed(maCode: string, pages: seq<Page>, n: nat)
    requires n < |pages| && !IsOkStatus(pages[n].status)
    requires forall j :: 0 <= j < n ==> ReadNumbered(pages, j).Batch? && ReadNumbered(pages, j).more
    ensures var d := SliceTo(pages[n].text, 500);
      && |d| <= 500 && d == pages[n].text[..|d|]
      && Serve(maCode, pages) == Relay(pages[n].status, FetchFailed, d, None)
  {
    NumberedFailedAt(pages, 0, n);
  }

  lemma {:induction false} NumberedFailedAt(pages: seq<Page>, k: nat, n: nat)
    requires k <= n < |pages| && !IsOkStatus(pages[n].status)
    requires forall j :: k <= j < n ==> ReadNumbered(pages, j).Batch? && ReadNumbered(pages, j).more
    ensures NumberedFrom(pages, k) == PageFailed(pages[n].status, pages[n].text, None)
    decreases n - k
  {
    if k < n {
      NumberedFailedAt(pages, k + 1, n);
    }
  }
}
