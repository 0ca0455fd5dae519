/**
 * netlify/functions/agent-submissions-self.js: a signed-in agent lists
 * their own submissions, newest first, at most 500 of them.
 */
module AgentSubmissionsSelf {
  import opened Wrappers
  import opened Http
  import opened Claims
  import opened Sorting
  import opened Submissions

  /** A stored `agent_submissions` row: its id, its `created_at` as a time stamp, and its columns. */
  datatype Stored = Stored(id: int, createdAt: int, submission: Submission)

  /** The success payload `{ count, submissions }`. */
  datatype Listing = Listing(count: nat, submissions: seq<Stored>)

  const Limit := 500
  const MissingDatabaseUrl := "Missing DATABASE_URL (Neon) env var."

  /** `DATABASE_URL || NEON_DATABASE_URL || NETLIFY_DATABASE_URL || ""` */
  function ConnectionString(databaseUrl: string, neonUrl: string, netlifyUrl: string): (c: string)
    ensures c == "" <==> databaseUrl == "" && neonUrl == "" && netlifyUrl == ""
  {
    if databaseUrl != "" then databaseUrl else if neonUrl != "" then neonUrl else netlifyUrl
  }

  /** `WHERE agent_user_id = $1`: the caller's rows, each as often as it is stored, in table order. */
  function OwnRows(table: seq<Stored>, userId: string): (r: seq<Stored>)
    ensures forall k :: 0 <= k < |r| ==> r[k].submission.agentUserId == userId
    ensures forall x :: multiset(r)[x] == if x.submission.agentUserId == userId then multiset(table)[x] else 0
    decreases |table|
  {
    if table == [] then []
    else
      var init := table[..|table| - 1];
      var last := table[|table| - 1];
      assert table == init + [last];
      var rest := OwnRows(init, userId);
      if last.submission.agentUserId == userId then rest + [last] else rest
  }

  /** `ORDER BY created_at DESC` */
  function Newer(): (Stored, Stored) -> bool {
    (a: Stored, b: Stored) => a.createdAt > b.createdAt
  }

  /** `ORDER BY created_at DESC LIMIT 500` over the caller's rows. */
  function Newest(table: seq<Stored>, userId: string): seq<Stored> {
    var sorted := SortBy(OwnRows(table, userId), Newer());
    if |sorted| <= Limit then sorted else sorted[..Limit]
  }

  /**
   * The handler, with the three database variables ("" when unset) and
   * `table` the contents of `agent_submissions`. The caller is checked
   * before the method.
   */
  function Handle(req: Request, decode: Decoder, databaseUrl: string, neonUrl: string, netlifyUrl: string,
                  table: seq<Stored>): (r: Response<Listing>)
    ensures CallerOf(req, decode).Anonymous? ==> r == Fail(401, "Unauthorized")
    ensures CallerOf(req, decode).DecodeThrew? ==> r == Crash(SyntaxErrorMessage)
    ensures CallerOf(req, decode).Known? && req.httpMethod != "GET" ==> r == Fail(405, "Method not allowed")
    ensures CallerOf(req, decode).Known? && req.httpMethod == "GET" ==>
      && (ConnectionString(databaseUrl, neonUrl, netlifyUrl) == "" ==> r == Crash(MissingDatabaseUrl))
      && (ConnectionString(databaseUrl, neonUrl, netlifyUrl) != "" ==>
            var rows := Newest(table, CallerOf(req, decode).userId);
            r == Success(Listing(|rows|, rows)))
  {
    match CallerOf(req, decode)
    case Anonymous => Fail(401, "Unauthorized")
    case DecodeThrew => Crash(SyntaxErrorMessage)
    case Known(userId) =>
      if req.httpMethod != "GET" then Fail(405, "Method not allowed")
      else if ConnectionString(databaseUrl, neonUrl, netlifyUrl) == "" then Crash(MissingDatabaseUrl)
      else
        var rows := Newest(table, userId);
        Success(Listing(|rows|, rows))
  }

  /** An anonymous caller is refused with 401 whatever the method. */
  lemma CallerBeforeMethod(req: Request, decode: Decoder, databaseUrl: string, neonUrl: string, netlifyUrl: string,
                           table: seq<Stored>)
    requires CallerOf(req, decode).Anonymous? && req.httpMethod != "GET"
    ensures Handle(req, decode, databaseUrl, neonUrl, netlifyUrl, table).status == 401
  {
  }

  lemma NewerStrictWeak()
    ensures StrictWeak(Newer())
  {
    DescendingIntStrictWeak(Newer(), (s: Stored) => s.createdAt);
  }

  /** The listing is a prefix of the caller's rows sorted newest first. */
  lemma NewestIsPrefix(table: seq<Stored>, userId: string)
    ensures var sorted := SortBy(OwnRows(table, userId), Newer());
      var rows := Newest(table, userId);
      && |rows| <= |sorted| && rows == sorted[..|rows|]
      && (|rows| < Limit ==> rows == sorted)
      && multiset(sorted) == multiset(OwnRows(table, userId))
      && SortedBy(sorted, Newer())
  {
    var own := OwnRows(table, userId);
    var sorted := SortBy(own, Newer());
    NewerStrictWeak();
    SortSorted(own, Newer());
    SortPermutes(own, Newer());
    if |sorted| <= Limit {
      assert Newest(table, userId) == sorted;
    } else {
      assert Newest(table, userId) == sorted[..Limit];
    }
  }

  /** Only the caller's rows are listed, each taken from the table. */
  lemma ListingOwnRows(table: seq<Stored>, userId: string)
    ensures var rows := Newest(table, userId);
      && |rows| <= Limit
      && (forall k :: 0 <= k < |rows| ==> rows[k].submission.agentUserId == userId)
      && multiset(rows) <= multiset(table)
  {
    NewestIsPrefix(table, userId);
    var own := OwnRows(table, userId);
    var sorted := SortBy(own, Newer());
    var rows := Newest(table, userId);
    assert sorted == rows + sorted[|rows|..];
    assert multiset(rows) <= multiset(own);
    forall k | 0 <= k < |rows| ensures rows[k].submission.agentUserId == userId {
      assert rows[k] in multiset(own);
    }
    forall x ensures multiset(rows)[x] <= multiset(table)[x] {
      assert multiset(rows)[x] <= multiset(own)[x];
    }
  }

  /** The listing is newest first. */
  lemma ListingNewestFirst(table: seq<Stored>, userId: string)
    ensures var rows := Newest(table, userId);
      forall i, j :: 0 <= i < j < |rows| ==> rows[i].createdAt >= rows[j].createdAt
  {
    NewestIsPrefix(table, userId);
    var sorted := SortBy(OwnRows(table, userId), Newer());
    var rows := Newest(table, userId);
    forall i, j | 0 <= i < j < |rows| ensures rows[i].createdAt >= rows[j].createdAt {
      assert !Newer()(sorted[j], sorted[i]);
    }
  }

  /** With at most 500 rows of their own, the caller gets every one of them. */
  lemma FewRowsAllListed(table: seq<Stored>, userId: string)
    requires |OwnRows(table, userId)| <= Limit
    ensures multiset(Newest(table, userId)) == multiset(OwnRows(table, userId))
  {
    SortPermutes(OwnRows(table, userId), Newer());
  }

  /** A row of the caller's that is left out is no newer than any row that is listed. */
  lemma OmittedAreOlder(table: seq<Stored>, userId: string, x: Stored, y: Stored)
    requires multiset(Newest(table, userId))[x] < multiset(OwnRows(table, userId))[x]
    requires y in Newest(table, userId)
    ensures x.createdAt <= y.createdAt
  {
    NewestIsPrefix(table, userId);
    var sorted := SortBy(OwnRows(table, userId), Newer());
    var rows := Newest(table, userId);
    PrefixKeepsFirst(sorted, |rows|, Newer(), x, y);
  }
}
