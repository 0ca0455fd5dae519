/**
 * netlify/functions/admin/earnings-one.js: an admin reads the approved
 * submission count and sales total of one master agent or one agent.
 */
module AdminEarningsOne {
  import opened Wrappers
  import opened JsValues
  import opened JsStrings
  import opened Http
  import opened Claims
  import opened Aggregates

  /** The success payload; `commission_pct` is always `null`, so it carries no field here. */
  datatype Earnings = Earnings(approvedCount: nat, totalRm: int)

  predicate Admitted(req: Request, decode: Decoder) {
    && req.httpMethod == "GET"
    && BearerToken(AuthHeader(req)).Some?
    && decode(BearerToken(AuthHeader(req)).value).Some?
    && HasAdminRole(decode(BearerToken(AuthHeader(req)).value).value)
  }

  /** The handler, with `rows` the contents of `agent_submissions`. */
  function Handle(req: Request, decode: Decoder, rows: seq<Row>): (r: Response<Earnings>)
    ensures req.httpMethod != "GET" ==> r == Fail(405, "Method not allowed")
    ensures req.httpMethod == "GET" && BearerToken(AuthHeader(req)).None? ==> r == Fail(401, "Unauthorized")
    ensures req.httpMethod == "GET" && BearerToken(AuthHeader(req)).Some? ==>
      var claims := decode(BearerToken(AuthHeader(req)).value);
      && (claims.None? ==> r == Crash(SyntaxErrorMessage))
      && (claims.Some? && !HasAdminRole(claims.value) ==> r == Fail(403, "Forbidden (admin only)"))
    ensures Admitted(req, decode) ==>
      var kind := QueryField(req, "type");
      var id := QueryField(req, "id");
      && (TypeRejection(kind, id).Some? ==> r == Fail(400, TypeRejection(kind, id).value))
      && (TypeRejection(kind, id).None? ==>
            var t := TotalsOf(rows, TargetOf(kind, id));
            r == Success(Earnings(t.approvedCount, t.totalRm)))
  {
    if req.httpMethod != "GET" then Fail(405, "Method not allowed")
    else
      match BearerToken(AuthHeader(req))
      case None => Fail(401, "Unauthorized")
      case Some(token) =>
        match decode(token)
        case None => Crash(SyntaxErrorMessage)
        case Some(claims) =>
          if !HasAdminRole(claims) then Fail(403, "Forbidden (admin only)")
          else
            var kind := QueryField(req, "type");
            var id := QueryField(req, "id");
            match TypeRejection(kind, id)
            case Some(m) => Fail(400, m)
            case None =>
              var t := TotalsOf(rows, TargetOf(kind, id));
              Success(Earnings(t.approvedCount, t.totalRm))
  }

  /** A reply for a master agent totals the approved rows whose `ma_code` is the upper-cased id. */
  lemma MasterAgentEarnings(req: Request, decode: Decoder, rows: seq<Row>)
    requires Admitted(req, decode) && QueryField(req, "type") == "master_agent" && QueryField(req, "id") != ""
    ensures var t := TotalsOf(rows, ByMaCode(Upper(QueryField(req, "id"))));
      Handle(req, decode, rows) == Success(Earnings(t.approvedCount, t.totalRm))
  {
  }

  /** An agent's id is matched exactly: its case is kept. */
  lemma AgentEarnings(req: Request, decode: Decoder, rows: seq<Row>)
    requires Admitted(req, decode) && QueryField(req, "type") == "agent" && QueryField(req, "id") != ""
    ensures var t := TotalsOf(rows, ByAgent(QueryField(req, "id")));
      Handle(req, decode, rows) == Success(Earnings(t.approvedCount, t.totalRm))
  {
  }

  /** Only an admin's GET reaches the aggregate, and any other reply is an error. */
  lemma EarningsOnlyForAdmins(req: Request, decode: Decoder, rows: seq<Row>)
    requires Handle(req, decode, rows).reply.Data?
    ensures Admitted(req, decode) && TypeRejection(QueryField(req, "type"), QueryField(req, "id")).None?
  {
  }
}
