/**
 * netlify/functions/admin/bank-one.js: an admin reads the bank account of
 * one master agent (by user id or by code) or of one agent.
 */
module AdminBankOne {
  import opened Wrappers
  import opened JsStrings
  import opened Http
  import opened Claims
  import opened Aggregates
  import opened AgentPayoutSet

  /** `[0-9a-f]` under the `i` flag. */
  predicate IsHex(c: char) {
    '0' <= c <= '9' || 'a' <= c <= 'f' || 'A' <= c <= 'F'
  }

  predicate AllHex(s: string) {
    forall k :: 0 <= k < |s| ==> IsHex(s[k])
  }

  /** The version digit of section 4.1.3 of RFC 4122, as the pattern reads it: `[1-5]`. */
  predicate IsVersion(c: char) {
    '1' <= c <= '5'
  }

  /** The variant nibble of section 4.1.1 of RFC 4122: `[89ab]`, either case. */
  predicate IsVariant(c: char) {
    c == '8' || c == '9' || c == 'a' || c == 'b' || c == 'A' || c == 'B'
  }

  /**
   * `looksLikeUuid(s)`: the pattern
   * `^[0-9a-f]{8}-[0-9a-f]{4}-[1-5][0-9a-f]{3}-[89ab][0-9a-f]{3}-[0-9a-f]{12}$`
   * with the `i` flag, read position by position.
   */
  predicate LooksLikeUuid(s: string) {
    && |s| == 36
    && s[8] == '-' && s[13] == '-' && s[18] == '-' && s[23] == '-'
    && AllHex(s[..8]) && AllHex(s[9..13]) && AllHex(s[15..18]) && AllHex(s[20..23]) && AllHex(s[24..])
    && IsVersion(s[14]) && IsVariant(s[19])
  }

  /** The 8-4-4-4-12 groups joined with dashes. */
  function Grouped(a: string, b: string, c: string, d: string, e: string): string {
    a + "-" + b + "-" + c + "-" + d + "-" + e
  }

  predicate Groups(a: string, b: string, c: string, d: string, e: string) {
    && |a| == 8 && |b| == 4 && |c| == 4 && |d| == 4 && |e| == 12
    && AllHex(a) && AllHex(b) && AllHex(c) && AllHex(d) && AllHex(e)
    && IsVersion(c[0]) && IsVariant(d[0])
  }

  /** Five hex groups of the right lengths, version and variant, joined with dashes, pass. */
  lemma UuidFromGroups(a: string, b: string, c: string, d: string, e: string)
    requires Groups(a, b, c, d, e)
    ensures LooksLikeUuid(Grouped(a, b, c, d, e))
  {
    var s := Grouped(a, b, c, d, e);
    assert s[..8] == a;
    assert s[9..13] == b;
    assert s[14..18] == c && s[15..18] == c[1..];
    assert s[19..23] == d && s[20..23] == d[1..];
    assert s[24..] == e;
  }

  /** And everything that passes is such a join. */
  lemma UuidGroups(s: string)
    requires LooksLikeUuid(s)
    ensures Groups(s[..8], s[9..13], s[14..18], s[19..23], s[24..])
    ensures s == Grouped(s[..8], s[9..13], s[14..18], s[19..23], s[24..])
  {
    assert s[14..18][1..] == s[15..18];
    assert s[19..23][1..] == s[20..23];
  }

  lemma AllHexUpper(s: string)
    ensures AllHex(Upper(s)) <==> AllHex(s)
  {
  }

  /** The check ignores case: upper-casing an id does not change whether it passes. */
  lemma UuidIgnoresCase(s: string)
    ensures LooksLikeUuid(Upper(s)) <==> LooksLikeUuid(s)
  {
    var u := Upper(s);
    if |s| == 36 {
      assert u[..8] == Upper(s[..8]);
      assert u[9..13] == Upper(s[9..13]);
      assert u[15..18] == Upper(s[15..18]);
      assert u[20..23] == Upper(s[20..23]);
      assert u[24..] == Upper(s[24..]);
      AllHexUpper(s[..8]);
      AllHexUpper(s[9..13]);
      AllHexUpper(s[15..18]);
      AllHexUpper(s[20..23]);
      AllHexUpper(s[24..]);
    }
  }

  /** Which table and key a request reads. */
  datatype Lookup = MaByUserId(userId: string) | MaByCode(code: string) | AgentByUserId(agentUserId: string)

  /** A UUID-shaped master-agent id is a user id, any other is a code; an agent id is always a user id. */
  function LookupOf(kind: string, id: string): (l: Lookup)
    requires kind == "master_agent" || kind == "agent"
    ensures kind == "master_agent" && LooksLikeUuid(id) ==> l == MaByUserId(id)
    ensures kind == "master_agent" && !LooksLikeUuid(id) ==> l == MaByCode(Upper(id))
    ensures kind == "agent" ==> l == AgentByUserId(id)
  {
    if kind == "master_agent" then
      if LooksLikeUuid(id) then MaByUserId(id) else MaByCode(Upper(id))
    else AgentByUserId(id)
  }

  /** One row of `ma_payout`; `NULL` keys are `None` and match no lookup. */
  datatype MaPayoutRow = MaPayoutRow(userId: Option<string>, maCode: Option<string>, details: PayoutDetails)

  /** The `bank` field: `null`, a `ma_payout` row, or an `agent_payout_details` row with its key. */
  datatype Bank = NoBank | MaBank(row: MaPayoutRow) | AgentBank(agentUserId: string, details: PayoutDetails)

  predicate MaMatches(row: MaPayoutRow, l: Lookup) {
    match l
    case MaByUserId(u) => row.userId == Some(u)
    case MaByCode(c) => row.maCode == Some(c)
    case AgentByUserId(_) => false
  }

  /** `rows?.[0] || null` over `WHERE … LIMIT 1`, taking the first match in table order. */
  function FirstMa(rows: seq<MaPayoutRow>, l: Lookup): (r: Option<MaPayoutRow>)
    ensures r.None? <==> forall k :: 0 <= k < |rows| ==> !MaMatches(rows[k], l)
    ensures r.Some? ==>
      exists k :: (0 <= k < |rows| && rows[k] == r.value && MaMatches(r.value, l) &&
                   forall j :: 0 <= j < k ==> !MaMatches(rows[j], l))
  {
    if rows == [] then None
    else if MaMatches(rows[0], l) then Some(rows[0])
    else
      var rest := FirstMa(rows[1..], l);
      assert forall k :: 1 <= k < |rows| ==> rows[k] == rows[1..][k - 1];
      rest
  }

  /** The dispatch, once the request is accepted. */
  function BankOf(l: Lookup, maRows: seq<MaPayoutRow>, agents: map<string, PayoutDetails>): (b: Bank)
    ensures l.AgentByUserId? ==>
      b == if l.agentUserId in agents then AgentBank(l.agentUserId, agents[l.agentUserId]) else NoBank
    ensures !l.AgentByUserId? ==> (b == NoBank <==> FirstMa(maRows, l).None?)
    ensures !l.AgentByUserId? && b != NoBank ==> b == MaBank(FirstMa(maRows, l).value)
  {
    match l
    case AgentByUserId(u) => if u in agents then AgentBank(u, agents[u]) else NoBank
    case _ =>
      match FirstMa(maRows, l)
      case None => NoBank
      case Some(row) => MaBank(row)
  }

  predicate Admitted(req: Request, decode: Decoder) {
    && req.httpMethod == "GET"
    && BearerToken(AuthHeader(req)).Some?
    && decode(BearerToken(AuthHeader(req)).value).Some?
    && HasAdminRole(decode(BearerToken(AuthHeader(req)).value).value)
  }

  /** The handler, with `maRows` the contents of `ma_payout` and `agents` those of `agent_payout_details`. */
  function Handle(req: Request, decode: Decoder, maRows: seq<MaPayoutRow>, agents: map<string, PayoutDetails>)
    : (r: Response<Bank>)
    ensures req.httpMethod != "GET" ==> r == Fail(405, "Method not allowed")
    ensures req.httpMethod == "GET" && BearerToken(AuthHeader(req)).None? ==> r == Fail(401, "Unauthorized")
    ensures req.httpMethod == "GET" && BearerToken(AuthHeader(req)).Some? ==>
      var claims := decode(BearerToken(AuthHeader(req)).value);
      && (claims.None? ==> r == Crash(SyntaxErrorMessage))
      && (claims.Some? && !HasAdminRole(claims.value) ==> r == Fail(403, "Forbidden (admin only)"))
    ensures Admitted(req, decode) ==>
      var kind := QueryField(req, "type");
      var id := QueryField(req, "id");
      && (TypeRejection(kind, id).Some? ==> r == Fail(400, TypeRejection(kind, id).value))
      && (TypeRejection(kind, id).None? ==> r == Success(BankOf(LookupOf(kind, id), maRows, agents)))
  {
    if req.httpMethod != "GET" then Fail(405, "Method not allowed")
    else
      match BearerToken(AuthHeader(req))
      case None => Fail(401, "Unauthorized")
      case Some(token) =>
        match decode(token)
        case None => Crash(SyntaxErrorMessage)
        case Some(claims) =>
          if !HasAdminRole(claims) then Fail(403, "Forbidden (admin only)")
          else
            var kind := QueryField(req, "type");
            var id := QueryField(req, "id");
            match TypeRejection(kind, id)
            case Some(m) => Fail(400, m)
            case None => Success(BankOf(LookupOf(kind, id), maRows, agents))
  }

  /** An accepted request that finds no row still succeeds, with status 200 and `bank: null`. */
  lemma NoRowIsNullBank(req: Request, decode: Decoder, maRows: seq<MaPayoutRow>, agents: map<string, PayoutDetails>)
    requires Admitted(req, decode) && TypeRejection(QueryField(req, "type"), QueryField(req, "id")).None?
    requires var l := LookupOf(QueryField(req, "type"), QueryField(req, "id"));
      if l.AgentByUserId? then l.agentUserId !in agents
      else forall k :: 0 <= k < |maRows| ==> !MaMatches(maRows[k], l)
    ensures Handle(req, decode, maRows, agents) == Success(NoBank)
  {
  }

  /** A found master-agent row is one whose user id, or upper-cased code, is the requested one. */
  lemma MaBankMatches(req: Request, decode: Decoder, maRows: seq<MaPayoutRow>, agents: map<string, PayoutDetails>)
    requires Handle(req, decode, maRows, agents).reply.Data?
    requires Handle(req, decode, maRows, agents).reply.value.MaBank?
    ensures var id := QueryField(req, "id");
      var row := Handle(req, decode, maRows, agents).reply.value.row;
      && QueryField(req, "type") == "master_agent"
      && row in maRows
      && (LooksLikeUuid(id) ==> row.userId == Some(id))
      && (!LooksLikeUuid(id) ==> row.maCode == Some(Upper(id)))
  {
    var kind := QueryField(req, "type");
    var id := QueryField(req, "id");
    assert Admitted(req, decode);
    assert TypeRejection(kind, id).None?;
    FoundRowMatches(kind, id, maRows, agents);
  }

  lemma FoundRowMatches(kind: string, id: string, maRows: seq<MaPayoutRow>, agents: map<string, PayoutDetails>)
    requires kind == "master_agent" || kind == "agent"
    requires BankOf(LookupOf(kind, id), maRows, agents).MaBank?
    ensures var row := BankOf(LookupOf(kind, id), maRows, agents).row;
      && kind == "master_agent"
      && row in maRows
      && (LooksLikeUuid(id) ==> row.userId == Some(id))
      && (!LooksLikeUuid(id) ==> row.maCode == Some(Upper(id)))
  {
    var l := LookupOf(kind, id);
    var row := FirstMa(maRows, l).value;
    assert MaMatches(row, l);
  }

  /** An agent's bank row is looked up by the id as given, never in `ma_payout`. */
  lemma AgentLookupByUserId(req: Request, decode: Decoder, maRows: seq<MaPayoutRow>, agents: map<string, PayoutDetails>)
    requires Admitted(req, decode)
    requires QueryField(req, "type") == "agent" && QueryField(req, "id") != ""
    ensures var id := QueryField(req, "id");
      Handle(req, decode, maRows, agents)
        == Success(if id in agents then AgentBank(id, agents[id]) else NoBank)
  {
    var id := QueryField(req, "id");
    var l := LookupOf("agent", id);
    assert l == AgentByUserId(id);
    assert TypeRejection("agent", id).None?;
    assert Handle(req, decode, maRows, agents) == Success(BankOf(l, maRows, agents));
  }
}
