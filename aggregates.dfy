/**
 * The approved-submission aggregate that admin/earnings-one.js and
 * payout-batch-create.js run (`COUNT(*)` and
 * `COALESCE(SUM(purchase_amount_rm::numeric), 0)` where
 * `COALESCE(status,'pending') = 'approved'`), as a fold over the rows of
 * `agent_submissions`, and the `type`/`id` target both handlers choose.
 */
module Aggregates {
  import opened Wrappers
  import opened JsStrings

  /** A stored submission as the aggregate reads it; `None` is SQL `NULL`. Amounts are whole numbers. */
  datatype Row = Row(maCode: Option<string>, agentUserId: Option<string>, status: Option<string>, amount: Option<int>)

  /** Whose submissions are totalled: a master agent's by `ma_code`, or one agent's by `agent_user_id`. */
  datatype Target = ByMaCode(code: string) | ByAgent(userId: string)

  /** The `WHERE` key; a `NULL` column never equals anything. */
  predicate Matches(r: Row, t: Target) {
    match t
    case ByMaCode(c) => r.maCode == Some(c)
    case ByAgent(u) => r.agentUserId == Some(u)
  }

  /** `COALESCE(status,'pending') = 'approved'` */
  predicate Approved(r: Row) {
    (if r.status.None? then "pending" else r.status.value) == "approved"
  }

  predicate Counted(r: Row, t: Target) {
    Matches(r, t) && Approved(r)
  }

  /** `SUM` skips `NULL`s. */
  function AmountOf(r: Row): int {
    if r.amount.Some? then r.amount.value else 0
  }

  datatype Totals = Totals(approvedCount: nat, totalRm: int)

  /** The query's single result row. */
  function TotalsOf(rows: seq<Row>, t: Target): (r: Totals)
    ensures r.approvedCount <= |rows|
    ensures rows == [] ==> r == Totals(0, 0)
  {
    if rows == [] then Totals(0, 0)
    else
      var prev := TotalsOf(rows[..|rows| - 1], t);
      var last := rows[|rows| - 1];
      if Counted(last, t) then Totals(prev.approvedCount + 1, prev.totalRm + AmountOf(last)) else prev
  }

  lemma TotalsStep(rows: seq<Row>, r: Row, t: Target)
    ensures TotalsOf(rows + [r], t) ==
      if Counted(r, t) then Totals(TotalsOf(rows, t).approvedCount + 1, TotalsOf(rows, t).totalRm + AmountOf(r))
      else TotalsOf(rows, t)
  {
    assert (rows + [r])[..|rows|] == rows;
  }

  /** The aggregate of a concatenation is the sum of the aggregates: the rows' order does not matter. */
  lemma {:induction false} TotalsAppend(a: seq<Row>, b: seq<Row>, t: Target)
    ensures TotalsOf(a + b, t).approvedCount == TotalsOf(a, t).approvedCount + TotalsOf(b, t).approvedCount
    ensures TotalsOf(a + b, t).totalRm == TotalsOf(a, t).totalRm + TotalsOf(b, t).totalRm
    decreases |b|
  {
    if b == [] {
      assert a + b == a;
    } else {
      var b0 := b[..|b| - 1];
      var x := b[|b| - 1];
      assert a + b == (a + b0) + [x];
      assert b == b0 + [x];
      TotalsAppend(a, b0, t);
      TotalsStep(a + b0, x, t);
      TotalsStep(b0, x, t);
    }
  }

  /** Swapping two blocks of rows leaves the totals unchanged. */
  lemma TotalsSwap(a: seq<Row>, b: seq<Row>, t: Target)
    ensures TotalsOf(a + b, t) == TotalsOf(b + a, t)
  {
    TotalsAppend(a, b, t);
    TotalsAppend(b, a, t);
  }

  /** A row with a `NULL` status reads as `pending` and is never counted, nor is a row of another target. */
  lemma UncountedRowsIgnored(rows: seq<Row>, r: Row, t: Target)
    requires r.status.None? || !Matches(r, t)
    ensures TotalsOf(rows + [r], t) == TotalsOf(rows, t)
  {
    TotalsStep(rows, r, t);
  }

  /** An approved row with a `NULL` amount is counted but adds nothing to the total. */
  lemma NullAmountCounted(rows: seq<Row>, r: Row, t: Target)
    requires Counted(r, t) && r.amount.None?
    ensures TotalsOf(rows + [r], t) == Totals(TotalsOf(rows, t).approvedCount + 1, TotalsOf(rows, t).totalRm)
  {
    TotalsStep(rows, r, t);
  }

  /** When every row is an approved row of the target, every row is counted. */
  lemma {:induction false} AllCounted(rows: seq<Row>, t: Target)
    requires forall i :: 0 <= i < |rows| ==> Counted(rows[i], t)
    ensures TotalsOf(rows, t).approvedCount == |rows|
    decreases |rows|
  {
    if rows != [] {
      AllCounted(rows[..|rows| - 1], t);
    }
  }

  /** With no negative amount the total is not negative. */
  lemma {:induction false} TotalNonNegative(rows: seq<Row>, t: Target)
    requires forall i :: 0 <= i < |rows| ==> AmountOf(rows[i]) >= 0
    ensures TotalsOf(rows, t).totalRm >= 0
    decreases |rows|
  {
    if rows != [] {
      TotalNonNegative(rows[..|rows| - 1], t);
    }
  }

  /** With no counted row the totals are 0/0, the defaults the handlers reply with, whatever else the table holds. */
  lemma {:induction false} NoneCountedIsZero(rows: seq<Row>, t: Target)
    requires forall i :: 0 <= i < |rows| ==> !Counted(rows[i], t)
    ensures TotalsOf(rows, t) == Totals(0, 0)
    decreases |rows|
  {
    if rows != [] {
      NoneCountedIsZero(rows[..|rows| - 1], t);
    }
  }

  /** The two 400 checks on `type` and `id`, both already trimmed. */
  function TypeRejection(kind: string, id: string): (r: Option<string>)
    ensures r.None? <==> id != "" && (kind == "master_agent" || kind == "agent")
    ensures kind == "" || id == "" ==> r == Some("Missing type or id")
    ensures kind != "" && id != "" && kind != "master_agent" && kind != "agent" ==> r == Some("Invalid type")
  {
    if kind == "" || id == "" then Some("Missing type or id")
    else if kind !in ["master_agent", "agent"] then Some("Invalid type")
    else None
  }

  /** A master agent's code is upper-cased before the query; an agent's user id is used as given. */
  function TargetOf(kind: string, id: string): (t: Target)
    ensures kind == "master_agent" ==> t == ByMaCode(Upper(id))
    ensures kind != "master_agent" ==> t == ByAgent(id)
  {
    if kind == "master_agent" then ByMaCode(Upper(id)) else ByAgent(id)
  }
}
