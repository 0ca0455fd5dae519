/**
 * netlify/functions/agent-payout-set.js: a signed-in agent saves the bank
 * account commissions are paid into, one row per agent in
 * `agent_payout_details`.
 */
module AgentPayoutSet {
  import opened Wrappers
  import opened JsValues
  import opened JsStrings
  import opened Http
  import opened Claims

  /** A row's value columns; `updatedAt` is the `NOW()` of the latest write. */
  datatype PayoutDetails = PayoutDetails(bankName: string, accountName: string, accountNumber: string, updatedAt: int)

  const MissingBankFields := "Missing bank fields."

  /** The reply, and the row written when there is one (keyed by `agent_user_id`). */
  datatype Plan = Plan(response: Response<()>, write: Option<(string, PayoutDetails)>)

  function Refuse(r: Response<()>): Plan {
    Plan(r, None)
  }

  /** The three bank fields, each `String(v ?? "").trim()`. */
  function BankFields(body: Json, now: int): PayoutDetails {
    PayoutDetails(SafeStr(Get(body, "bank_name")), SafeStr(Get(body, "bank_account_name")),
                  SafeStr(Get(body, "bank_account_number")), now)
  }

  predicate Complete(d: PayoutDetails) {
    d.bankName != "" && d.accountName != "" && d.accountNumber != ""
  }

  /** The handler's decisions, with `now` the database's `NOW()`. */
  function Decide(req: Request, decode: Decoder, now: int): (p: Plan)
    ensures req.httpMethod != "POST" ==> p == Refuse(Fail(405, "Method not allowed"))
    ensures req.httpMethod == "POST" && CallerOf(req, decode).Anonymous? ==> p == Refuse(Fail(401, "Unauthorized"))
    ensures req.httpMethod == "POST" && CallerOf(req, decode).DecodeThrew? ==> p == Refuse(Crash(SyntaxErrorMessage))
    ensures req.httpMethod == "POST" && CallerOf(req, decode).Known? ==>
      && (BodyObject(req).None? ==> p == Refuse(Crash(BodyError(req))))
      && (BodyObject(req).Some? && !Complete(BankFields(BodyObject(req).value, now)) ==>
            p == Refuse(Fail(400, MissingBankFields)))
      && (BodyObject(req).Some? && Complete(BankFields(BodyObject(req).value, now)) ==>
            p == Plan(Success(()), Some((CallerOf(req, decode).userId, BankFields(BodyObject(req).value, now)))))
  {
    if req.httpMethod != "POST" then Refuse(Fail(405, "Method not allowed"))
    else
      match CallerOf(req, decode)
      case Anonymous => Refuse(Fail(401, "Unauthorized"))
      case DecodeThrew => Refuse(Crash(SyntaxErrorMessage))
      case Known(agent) =>
        match BodyObject(req)
        case None => Refuse(Crash(BodyError(req)))
        case Some(body) =>
          var d := BankFields(body, now);
          if !Complete(d) then Refuse(Fail(400, MissingBankFields))
          else Plan(Success(()), Some((agent, d)))
  }

  /** `INSERT … ON CONFLICT (agent_user_id) DO UPDATE`: the keyed row is created or overwritten. */
  function Apply(rows: map<string, PayoutDetails>, write: Option<(string, PayoutDetails)>): map<string, PayoutDetails> {
    match write
    case None => rows
    case Some((agent, d)) => rows[agent := d]
  }

  /** The table `agent_payout_details`, one row per agent. */
  class PayoutTable {
    var rows: map<string, PayoutDetails>

    constructor()
      ensures rows == map[]
    {
      rows := map[];
    }

    method Upsert(agent: string, d: PayoutDetails)
      modifies this
      ensures rows == old(rows)[agent := d]
    {
      rows := rows[agent := d];
    }

    /** One request: the reply, with the table written only when the reply is a success. */
    method Serve(req: Request, decode: Decoder, now: int) returns (r: Response<()>)
      modifies this
      ensures r == Decide(req, decode, now).response
      ensures rows == Apply(old(rows), Decide(req, decode, now).write)
    {
      var p := Decide(req, decode, now);
      if p.write.Some? {
        Upsert(p.write.value.0, p.write.value.1);
      }
      r := p.response;
    }
  }

  /** Only the 200 reply writes, and what it writes is three non-empty, trimmed bank fields. */
  lemma WriteOnlyOnSuccess(req: Request, decode: Decoder, now: int)
    ensures Decide(req, decode, now).write.Some? <==> Decide(req, decode, now).response.status == 200
    ensures Decide(req, decode, now).write.Some? ==>
      var d := Decide(req, decode, now).write.value.1;
      Complete(d) && d.updatedAt == now && Trim(d.bankName) == d.bankName
  {
    var p := Decide(req, decode, now);
    if p.write.Some? {
      var v := Get(BodyObject(req).value, "bank_name");
      TrimIdempotent(if v.Null? then "" else StringOf(v));
    }
  }

  /** After a write the caller has exactly one row, holding what was written, and every other agent's row is untouched. */
  lemma WriteKeepsOthers(rows: map<string, PayoutDetails>, agent: string, d: PayoutDetails)
    ensures var after := Apply(rows, Some((agent, d)));
      && agent in after && after[agent] == d
      && after.Keys == rows.Keys + {agent}
      && (forall a :: a in rows && a != agent ==> a in after && after[a] == rows[a])
  {
  }

  /** A refused request leaves the table as it was. */
  lemma RefusalWritesNothing(rows: map<string, PayoutDetails>, req: Request, decode: Decoder, now: int)
    requires Decide(req, decode, now).response.status != 200
    ensures Apply(rows, Decide(req, decode, now).write) == rows
  {
    WriteOnlyOnSuccess(req, decode, now);
  }

  /** Writing the same row twice leaves the same table as writing it once. */
  lemma RepeatIsIdempotent(rows: map<string, PayoutDetails>, w: Option<(string, PayoutDetails)>)
    ensures Apply(Apply(rows, w), w) == Apply(rows, w)
  {
  }

  /** The method check comes first: a non-POST is refused even for an anonymous caller. */
  lemma MethodBeforeCaller(req: Request, decode: Decoder, now: int)
    requires req.httpMethod != "POST" && CallerOf(req, decode).Anonymous?
    ensures Decide(req, decode, now).response.status == 405
  {
  }
}
