/**
 * netlify/functions/ma-agent-count.js: the number of agents of one
 * master-agent code, with no caller check. The users are read page by page
 * as in ma-agent-list, but the role is read with `(meta.role || "")
 * .toLowerCase()`, which throws for a truthy role that is not a string.
 */
module MaAgentCount {
  import opened Wrappers
  import opened JsValues
  import opened JsStrings
  import opened Http
  import opened Identity
  import opened Pagination
  import opened MaAgentList

  const MissingCodeInQuery := "Missing ma_code in query. Example: ?ma_code=MA897"

  /** Whether one user is counted, or `None` when reading its role throws. */
  function Counts(u: Json, maCode: string): Option<bool> {
    match LowerOf(Get(MetaOf(u), "role"), Direct)
    case None => None
    case Some(role) => Some(role == "agent" && MaRef(u) == maCode)
  }

  lemma PickLength(u: Json, maCode: string)
    requires Counter(maCode)(u).Some?
    ensures |Pick(maCode)(u)| == if Counter(maCode)(u).value then 1 else 0
  {
    CountsIsMine(u, maCode);
  }

  /** Where the count's test does not throw, it agrees with the roster's filter. */
  lemma CountsIsMine(u: Json, maCode: string)
    requires Counts(u, maCode).Some?
    ensures Counts(u, maCode).value <==> IsMine(u, maCode)
  {
    DirectAgrees(Get(MetaOf(u), "role"));
  }

  function Counter(maCode: string): Json -> Option<bool> {
    u => Counts(u, maCode)
  }

  /** What the inner loop adds to `count` for one page, or `None` when a user on it throws. */
  function PageCount(us: seq<Json>, maCode: string): Option<nat> {
    CountWhere(Counter(maCode), us)
  }

  /** A page's count is the number of rows ma-agent-list takes from it. */
  lemma {:induction false} PageCountIsRows(us: seq<Json>, maCode: string)
    requires PageCount(us, maCode).Some?
    ensures PageCount(us, maCode).value == |MatchingRows(us, maCode)|
    decreases |us|
  {
    if us != [] {
      var us0 := us[..|us| - 1];
      var u := us[|us| - 1];
      assert us == us0 + [u];
      CountWhereStep(Counter(maCode), us0, u);
      FlatMapStep(Pick(maCode), us0, u);
      PageCountIsRows(us0, maCode);
      PickLength(u, maCode);
    }
  }

  /** How the counting loop ends. */
  datatype Count = Counted(n: nat) | CountFailed(status: int, text: string) | CountThrew(error: string)

  function Plus(c: nat, r: Count): Count {
    if r.Counted? then Counted(c + r.n) else r
  }

  /** The count from the k-th numbered page on; a user that throws stops it at its page. */
  function CountFrom(pages: seq<Page>, k: nat, maCode: string): Count
    decreases |pages| - k
  {
    match ReadNumbered(pages, k)
    case Stop => Counted(0)
    case BadPage(status, text) => CountFailed(status, text)
    case PageThrew(e) => CountThrew(e)
    case Batch(us, more) =>
      match PageCount(us, maCode)
      case None => CountThrew(TypeErrorMessage)
      case Some(c) => if more then Plus(c, CountFrom(pages, k + 1, maCode)) else Counted(c)
  }

  /** The reply `{ ma_code, count }`. */
  datatype CountReply = CountReply(maCode: string, count: nat)

  function Serve(maCode: string, pages: seq<Page>): Response<CountReply> {
    match CountFrom(pages, 0, maCode)
    case Counted(n) => Success(CountReply(maCode, n))
    case CountFailed(status, text) => Relay(status, FetchFailed, SliceTo(text, 500), None)
    case CountThrew(e) => Crash(e)
  }

  /** The handler: the query is checked before the environment, and nothing checks the caller. */
  function Handle(req: Request, siteId: string, identityToken: string, pages: seq<Page>): (r: Response<CountReply>)
    ensures RequestedCode(req) == "" ==> r == Fail(400, MissingCodeInQuery)
    ensures RequestedCode(req) != "" && (siteId == "" || identityToken == "") ==> r == Fail(500, EnvMissing)
    ensures RequestedCode(req) != "" && siteId != "" && identityToken != "" ==> r == Serve(RequestedCode(req), pages)
  {
    var maCode := RequestedCode(req);
    if maCode == "" then Fail(400, MissingCodeInQuery)
    else if siteId == "" || identityToken == "" then Fail(500, EnvMissing)
    else Serve(maCode, pages)
  }

  /** The inner `for (const u of users)` loop: `count++` for every agent of `maCode`. */
  method CountPage(count: nat, users: seq<Json>, maCode: string) returns (r: Option<nat>)
    ensures PageCount(users, maCode).None? ==> r.None?
    ensures PageCount(users, maCode).Some? ==> r == Some(count + PageCount(users, maCode).value)
  {
    var c := count;
    var j := 0;
    while j < |users|
      invariant j <= |users|
      invariant PageCount(users[..j], maCode).Some? && c == count + PageCount(users[..j], maCode).value
    {
      var u := users[j];
      CountWhereStep(Counter(maCode), users[..j], u);
      assert users[..j + 1] == users[..j] + [u];
      var b := Counts(u, maCode);
      assert Counter(maCode)(u) == b;
      if b.None? {
        assert users[j] == u;
        return None;
      }
      if b.value {
        c := c + 1;
      }
      j := j + 1;
    }
    assert users[..j] == users;
    return Some(c);
  }

  /** The `while (true)` loop over numbered pages. */
  method Collect(maCode: string, pages: seq<Page>) returns (r: Response<CountReply>)
    ensures r == Serve(maCode, pages)
  {
    var count: nat := 0;
    var k := 0;
    while true
      invariant CountFrom(pages, 0, maCode) == Plus(count, CountFrom(pages, k, maCode))
      decreases |pages| - k
    {
      if k >= |pages| {
        return Crash(FetchFailedMessage);
      }
      var p := pages[k];
      if !IsOkStatus(p.status) {
        return Relay(p.status, FetchFailed, SliceTo(p.text, 500), None);
      }
      if p.text == "" || p.parsed.None? {
        return Crash(SyntaxErrorMessage);
      }
      var v := p.parsed.value;
      if !v.Arr? || v.items == [] {
        break;
      }
      var users := v.items;
      var next := CountPage(count, users, maCode);
      if next.None? {
        return Crash(TypeErrorMessage);
      }
      count := next.value;
      if |users| < PerPage {
        break;
      }
      k := k + 1;
    }
    return Success(CountReply(maCode, count));
  }

  /** The handler body. */
  method HandleRequest(req: Request, siteId: string, identityToken: string, pages: seq<Page>)
    returns (r: Response<CountReply>)
    ensures r == Handle(req, siteId, identityToken, pages)
  {
    var maCode := RequestedCode(req);
    if maCode == "" {
      return Fail(400, MissingCodeInQuery);
    }
    if siteId == "" || identityToken == "" {
      return Fail(500, EnvMissing);
    }
    r := Collect(maCode, pages);
  }

  /**
   * Whenever the count succeeds, it is the number of agents ma-agent-list
   * lists for the same code over the same pages: the users of a run of
   * numbered pages whose role is "agent" and whose `ma_ref || parent_ma_code`
   * normalises to the code.
   */
  lemma {:induction false} CountMatchesRoster(pages: seq<Page>, k: nat, maCode: string)
    requires CountFrom(pages, k, maCode).Counted?
    ensures NumberedFrom(pages, k).Listed?
    ensures CountFrom(pages, k, maCode).n == |MatchingRows(NumberedFrom(pages, k).users, maCode)|
    decreases |pages| - k
  {
    var r := ReadNumbered(pages, k);
    if r.Batch? {
      PageCountIsRows(r.users, maCode);
    }
    if r.Batch? && r.more {
      CountMatchesRoster(pages, k + 1, maCode);
      FlatMapAppend(Pick(maCode), r.users, NumberedFrom(pages, k + 1).users);
    }
  }

  /** So the two handlers report the same number for a master agent's own code. */
  lemma CountEqualsListCount(maCode: string, pages: seq<Page>)
    requires Serve(maCode, pages).reply.Data?
    ensures MaAgentList.Serve(maCode, pages).reply.Data?
    ensures MaAgentList.Serve(maCode, pages).reply.value.count == Serve(maCode, pages).reply.value.count
  {
    CountMatchesRoster(pages, 0, maCode);
    RosterOrdered(NumberedFrom(pages, 0).users, maCode);
  }

  /** A page with a status outside 200..299 is relayed with at most 500 characters of its text. */
  lemma NonOkPageRelayed(maCode: string, pages: seq<Page>, n: nat)
    requires n < |pages| && !IsOkStatus(pages[n].status)
    requires forall j :: 0 <= j < n ==> ReadNumbered(pages, j).Batch? && ReadNumbered(pages, j).more
    requires forall j :: 0 <= j < n ==> PageCount(ReadNumbered(pages, j).users, maCode).Some?
    ensures var d := SliceTo(pages[n].text, 500);
      && |d| <= 500 && d == pages[n].text[..|d|]
      && Serve(maCode, pages) == Relay(pages[n].status, FetchFailed, d, None)
  {
    CountFailedAt(pages, 0, n, maCode);
  }

  lemma {:induction false} CountFailedAt(pages: seq<Page>, k: nat, n: nat, maCode: string)
    requires k <= n < |pages| && !IsOkStatus(pages[n].status)
    requires forall j :: k <= j < n ==> ReadNumbered(pages, j).Batch? && ReadNumbered(pages, j).more
    requires forall j :: k <= j < n ==> PageCount(ReadNumbered(pages, j).users, maCode).Some?
    ensures CountFrom(pages, k, maCode) == CountFailed(pages[n].status, pages[n].text)
    decreases n - k
  {
    if k < n {
      CountFailedAt(pages, k + 1, n, maCode);
      CountFromBatch(pages, k, maCode);
    } else {
      assert ReadNumbered(pages, k) == BadPage(pages[n].status, pages[n].text);
    }
  }

  /** One full page that does not throw adds its count to the rest. */
  lemma CountFromBatch(pages: seq<Page>, k: nat, maCode: string)
    requires ReadNumbered(pages, k).Batch? && ReadNumbered(pages, k).more
    requires PageCount(ReadNumbered(pages, k).users, maCode).Some?
    ensures CountFrom(pages, k, maCode)
      == Plus(PageCount(ReadNumbered(pages, k).users, maCode).value, CountFrom(pages, k + 1, maCode))
  {
  }

  /** A truthy non-string role on a page read before any failure turns the whole count into a 500. */
  lemma NonStringRoleThrows(pages: seq<Page>, maCode: string, i: nat)
    requires ReadNumbered(pages, 0).Batch?
    requires var us := ReadNumbered(pages, 0).users;
      i < |us| && Truthy(Get(MetaOf(us[i]), "role")) && !Get(MetaOf(us[i]), "role").Str?
    ensures Serve(maCode, pages) == Crash(TypeErrorMessage)
  {
    assert Counter(maCode)(ReadNumbered(pages, 0).users[i]).None?;
  }
}
