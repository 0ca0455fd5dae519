/**
 * Reading every user from the identity admin API, one page per `fetch`.
 * The pages are given in advance: the k-th element answers the k-th
 * request, and asking for more pages than are given stands for `fetch`
 * rejecting (a network error). Two schemes exist: following the `Link`
 * header's `rel="next"` URL, and counting `?page=1, 2, …` until a short page.
 */
module Pagination {
  import opened Wrappers
  import opened JsValues
  import opened Http
  import opened LinkHeader

  /** One response: status, body text, what `JSON.parse` makes of the text, and the `Link` header ("" when absent). */
  datatype Page = Page(status: int, text: string, parsed: Option<Json>, link: string)

  /**
   * What a link-following handler does with a page body:
   * `allUsers.push(...JSON.parse(txt || "[]"))` (admin/users-list),
   * `allUsers.push(...await res.json())` (admin-agent-stats), or
   * `Array.isArray(parsed) ? parsed : Array.isArray(parsed?.users) ? parsed.users : []`
   * over `JSON.parse(txt || "[]")` (users-list, agent-stats).
   */
  datatype Shape = SpreadLenient | SpreadStrict | ArrayOrWrapped

  /** The users a page contributes, or the exception reading them raises. */
  datatype Items = Items(users: seq<Json>) | Throws(error: string)

  /** `push(...v)`: an array gives its elements, a string its characters, anything else is not iterable. */
  function SpreadItems(v: Json): (r: Items)
    ensures v.Arr? ==> r == Items(v.items)
    ensures r.Throws? <==> !v.Arr? && !v.Str?
  {
    match v
    case Arr(items) => Items(items)
    case Str(s) => Items(seq(|s|, i requires 0 <= i < |s| => Str([s[i]])))
    case _ => Throws(TypeErrorMessage)
  }

  function PageItems(shape: Shape, p: Page): (r: Items)
    ensures shape == SpreadStrict && p.text == "" ==> r == Throws(SyntaxErrorMessage)
    ensures shape != SpreadStrict && p.text == "" ==> r == Items([])
    ensures p.text != "" && p.parsed.None? ==> r == Throws(SyntaxErrorMessage)
    ensures shape == ArrayOrWrapped ==> (r.Throws? <==> p.text != "" && p.parsed.None?)
  {
    if p.text == "" then
      if shape == SpreadStrict then Throws(SyntaxErrorMessage) else Items([])
    else
      match p.parsed
      case None => Throws(SyntaxErrorMessage)
      case Some(v) =>
        match shape
        case ArrayOrWrapped =>
          if v.Arr? then Items(v.items)
          else if Get(v, "users").Arr? then Items(Get(v, "users").items)
          else Items([])
        case _ => SpreadItems(v)
  }

  function UsersOf(shape: Shape, p: Page): seq<Json> {
    match PageItems(shape, p)
    case Items(us) => us
    case Throws(_) => []
  }

  /** How a crawl ends: every user, a non-ok page relayed, or an exception. */
  datatype Crawl =
    | Listed(users: seq<Json>)
    | PageFailed(status: int, text: string, attempted: Option<string>)
    | Threw(error: string)

  function Prefixed(us: seq<Json>, c: Crawl): Crawl {
    if c.Listed? then Listed(us + c.users) else c
  }

  lemma PrefixedTwice(a: seq<Json>, b: seq<Json>, c: Crawl)
    ensures Prefixed(a, Prefixed(b, c)) == Prefixed(a + b, c)
  {
    if c.Listed? {
      assert a + (b + c.users) == (a + b) + c.users;
    }
  }

  // --- Following `Link: <…>; rel="next"` ----------------------------------

  /** The crawl from the k-th fetch on, when that fetch asks for `url`. */
  function CrawlFrom(shape: Shape, pages: seq<Page>, k: nat, url: string): Crawl
    decreases |pages| - k
  {
    if k >= |pages| then Threw(FetchFailedMessage)
    else
      var p := pages[k];
      if !IsOkStatus(p.status) then PageFailed(p.status, p.text, Some(url))
      else
        match PageItems(shape, p)
        case Throws(e) => Threw(e)
        case Items(us) =>
          match NextLink(p.link)
          case None => Listed(us)
          case Some(next) => Prefixed(us, CrawlFrom(shape, pages, k + 1, next))
  }

  /**
   * The `while (url) { … }` loop: fetch, relay a non-ok page, append the
   * page's users, follow the next link. `parseNextLink` never returns an
   * empty URL, so `while (url)` stops exactly when it returns `null`.
   */
  method CollectUsers(shape: Shape, pages: seq<Page>, start: string) returns (c: Crawl)
    ensures c == CrawlFrom(shape, pages, 0, start)
  {
    var url := start;
    var k := 0;
    var allUsers: seq<Json> := [];
    while true
      invariant k <= |pages|
      invariant CrawlFrom(shape, pages, 0, start) == Prefixed(allUsers, CrawlFrom(shape, pages, k, url))
      decreases |pages| - k
    {
      if k == |pages| {
        return Threw(FetchFailedMessage);
      }
      var p := pages[k];
      if !IsOkStatus(p.status) {
        return PageFailed(p.status, p.text, Some(url));
      }
      var items := PageItems(shape, p);
      if items.Throws? {
        return Threw(items.error);
      }
      var next := ParseNextLink(p.link);
      PrefixedTwice(allUsers, items.users, CrawlFrom(shape, pages, k + 1, if next.Some? then next.value else url));
      allUsers := allUsers + items.users;
      if next.None? {
        return Listed(allUsers);
      }
      NextLinkShape(p.link);
      url := next.value;
      k := k + 1;
    }
  }

  /** The j-th page was read and names a next page. */
  predicate Continues(shape: Shape, pages: seq<Page>, j: nat) {
    j < |pages| && IsOkStatus(pages[j].status)
    && PageItems(shape, pages[j]).Items? && NextLink(pages[j].link).Some?
  }

  /** The j-th page was read and names no next page. */
  predicate Ends(shape: Shape, pages: seq<Page>, j: nat) {
    j < |pages| && IsOkStatus(pages[j].status)
    && PageItems(shape, pages[j]).Items? && NextLink(pages[j].link).None?
  }

  /** The users of pages k..n, in fetch order. */
  function UsersBetween(shape: Shape, pages: seq<Page>, k: nat, n: nat): seq<Json>
    requires k <= n < |pages|
    decreases n - k
  {
    if k == n then UsersOf(shape, pages[k])
    else UsersOf(shape, pages[k]) + UsersBetween(shape, pages, k + 1, n)
  }

  /**
   * A crawl lists users only after a run of ok pages, each naming a next
   * page but the last, which names none; the users are those pages'
   * users concatenated in fetch order.
   */
  lemma {:induction false} ListedRun(shape: Shape, pages: seq<Page>, k: nat, url: string) returns (n: nat)
    requires CrawlFrom(shape, pages, k, url).Listed?
    ensures k <= n < |pages| && Ends(shape, pages, n)
    ensures forall j :: k <= j < n ==> Continues(shape, pages, j)
    ensures CrawlFrom(shape, pages, k, url).users == UsersBetween(shape, pages, k, n)
    decreases |pages| - k
  {
    var p := pages[k];
    if NextLink(p.link).None? {
      n := k;
    } else {
      n := ListedRun(shape, pages, k + 1, NextLink(p.link).value);
    }
  }

  /** Conversely, such a run of pages is always listed in full. */
  lemma {:induction false} RunListed(shape: Shape, pages: seq<Page>, k: nat, n: nat, url: string)
    requires k <= n < |pages| && Ends(shape, pages, n)
    requires forall j :: k <= j < n ==> Continues(shape, pages, j)
    ensures CrawlFrom(shape, pages, k, url) == Listed(UsersBetween(shape, pages, k, n))
    decreases n - k
  {
    if k < n {
      assert Continues(shape, pages, k);
      RunListed(shape, pages, k + 1, n, NextLink(pages[k].link).value);
    }
  }

  /**
   * A relayed failure is the first non-ok page after a run of pages that
   * each named a next page, with that page's status and text and the URL it
   * was fetched from; no user list is returned.
   */
  lemma {:induction false} FailedAt(shape: Shape, pages: seq<Page>, k: nat, url: string) returns (n: nat)
    requires CrawlFrom(shape, pages, k, url).PageFailed?
    ensures k <= n < |pages| && !IsOkStatus(pages[n].status)
    ensures forall j :: k <= j < n ==> Continues(shape, pages, j)
    ensures n > k ==> Continues(shape, pages, n - 1)
    ensures var c := CrawlFrom(shape, pages, k, url);
      c.status == pages[n].status && c.text == pages[n].text
      && c.attempted == Some(if n == k then url else NextLink(pages[n - 1].link).value)
    decreases |pages| - k
  {
    var p := pages[k];
    if !IsOkStatus(p.status) {
      n := k;
    } else {
      n := FailedAt(shape, pages, k + 1, NextLink(p.link).value);
    }
  }

  /** A wrapped page `{ users: [...] }` contributes its array, and any other non-array body contributes nothing. */
  lemma WrappedOrNothing(p: Page, v: Json)
    requires p.text != "" && p.parsed == Some(v) && !v.Arr?
    ensures Get(v, "users").Arr? ==> UsersOf(ArrayOrWrapped, p) == Get(v, "users").items
    ensures !Get(v, "users").Arr? ==> UsersOf(ArrayOrWrapped, p) == []
  {
  }

  // --- Counting `?page=1, 2, …` -----------------------------------------

  const PerPage: nat := 1000

  /**
   * What one numbered page yields after `if (!res.ok)` and `await res.json()`:
   * its users and whether to ask for the next page, a stop, or a failure.
   */
  datatype Numbered =
    | Batch(users: seq<Json>, more: bool)
    | Stop
    | BadPage(status: int, text: string)
    | PageThrew(error: string)

  function ReadNumbered(pages: seq<Page>, k: nat): (r: Numbered)
    ensures r.Batch? ==> r.users != [] && (r.more <==> |r.users| >= PerPage)
  {
    if k >= |pages| then PageThrew(FetchFailedMessage)
    else
      var p := pages[k];
      if !IsOkStatus(p.status) then BadPage(p.status, p.text)
      else if p.text == "" || p.parsed.None? then PageThrew(SyntaxErrorMessage)
      else
        var v := p.parsed.value;
        if !v.Arr? || v.items == [] then Stop
        else Batch(v.items, |v.items| >= PerPage)
  }

  /** The stop rule: a non-array or empty page, or one shorter than `perPage`, is the last one read. */
  lemma StopRule(pages: seq<Page>, k: nat)
    requires k < |pages| && IsOkStatus(pages[k].status) && pages[k].text != "" && pages[k].parsed.Some?
    ensures var v := pages[k].parsed.value;
      && (!v.Arr? || v.items == [] <==> ReadNumbered(pages, k) == Stop)
      && ((v.Arr? && 0 < |v.items| < PerPage) <==> ReadNumbered(pages, k).Batch? && !ReadNumbered(pages, k).more)
      && (ReadNumbered(pages, k).Batch? ==> v.Arr? && ReadNumbered(pages, k).users == v.items)
  {
  }

  /** Every user of the numbered pages, when no page fails (used where reading a user cannot throw). */
  function NumberedFrom(pages: seq<Page>, k: nat): Crawl
    decreases |pages| - k
  {
    match ReadNumbered(pages, k)
    case Stop => Listed([])
    case BadPage(status, text) => PageFailed(status, text, None)
    case PageThrew(e) => Threw(e)
    case Batch(us, more) => if more then Prefixed(us, NumberedFrom(pages, k + 1)) else Listed(us)
  }

  /** The users of numbered pages k..n. */
  function BatchUsers(pages: seq<Page>, k: nat, n: nat): seq<Json>
    requires k <= n
    decreases n - k
  {
    var here := if ReadNumbered(pages, k).Batch? then ReadNumbered(pages, k).users else [];
    if k == n then here else here + BatchUsers(pages, k + 1, n)
  }

  /**
   * A numbered crawl lists users only after a run of full pages ending with
   * a page that stops it (non-array, empty or short); the users are those
   * pages' users in fetch order.
   */
  lemma {:induction false} NumberedRun(pages: seq<Page>, k: nat) returns (n: nat)
    requires NumberedFrom(pages, k).Listed?
    ensures k <= n < |pages|
    ensures forall j :: k <= j < n ==> ReadNumbered(pages, j).Batch? && ReadNumbered(pages, j).more
    ensures ReadNumbered(pages, n).Stop? || (ReadNumbered(pages, n).Batch? && !ReadNumbered(pages, n).more)
    ensures NumberedFrom(pages, k).users == BatchUsers(pages, k, n)
    decreases |pages| - k
  {
    var r := ReadNumbered(pages, k);
    if r.Batch? && r.more {
      n := NumberedRun(pages, k + 1);
    } else {
      n := k;
    }
  }
}
