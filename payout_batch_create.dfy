/**
 * netlify/functions/payout-batch-create.js: an admin fixes a commission
 * percentage for one master agent or agent and receives the approved
 * totals, the payout and a two-line CSV of the batch.
 */
module PayoutBatchCreate {
  import opened Wrappers
  import opened JsValues
  import opened JsStrings
  import opened JsNumbers
  import opened JsNumberReads
  import opened Http
  import opened Claims
  import opened Aggregates

  const Columns: seq<string> :=
    ["batch_id", "type", "identifier", "approved_count", "total_sales_rm", "commission_pct", "payout_amount_rm", "created_at"]

  /** The CSV's first line. */
  function Header(): string {
    Join(Columns, ',')
  }

  const PctInvalid := "commission_pct must be between 0 and 100"

  predicate IsHexDigit(c: char) {
    '0' <= c <= '9' || 'a' <= c <= 'f'
  }

  /**
   * `makeBatchId()`, with `now` standing for `Date.now()` and `fraction` for
   * the hexadecimal digits after "0." in `Math.random().toString(16)`.
   */
  function BatchId(now: nat, fraction: string): string {
    "PB-" + NatToString(now) + "-" + Upper(SliceTo(fraction, 6))
  }

  /** The success payload. */
  datatype Batch = Batch(
    batchId: string,
    kind: string,
    id: string,
    approvedCount: nat,
    totalRm: real,
    commissionPct: real,
    payoutAmountRm: real,
    csv: string)

  /** `Number.isNaN(p) || p < 0 || p > 100` */
  predicate PctRejected(pct: Option<real>) {
    pct.None? || pct.value < 0.0 || pct.value > 100.0
  }

  /** The data row's eight values, before they are joined with commas. */
  function Fields(batchId: string, kind: string, id: string, count: nat, total: real, pct: real, payout: real,
                  isoNow: string): seq<string> {
    Texts(batchId, kind, id, NatToString(count), Fixed2(total), Fixed2(pct), Fixed2(payout), isoNow)
  }

  /** The row's values once the numbers are printed; only the id's commas are replaced. */
  function Texts(batchId: string, kind: string, id: string, count: string, total: string, pct: string, payout: string,
                 isoNow: string): seq<string> {
    [batchId, kind, ReplaceChar(id, ',', ' '), count, total, pct, payout, isoNow]
  }

  /** `csvLines.join("\n")` */
  function Csv(fields: seq<string>): string {
    Join([Header(), Join(fields, ',')], '\n')
  }

  /** `+(total_rm * (commission_pct / 100)).toFixed(2)` */
  function Payout(total: real, pct: real): real {
    Round2(total * (pct / 100.0))
  }

  /** The aggregate and the reply once `type`, `id` and `commission_pct` are accepted. */
  function Compose(kind: string, id: string, pct: real, rows: seq<Row>, now: nat, fraction: string, isoNow: string)
    : (b: Batch)
    ensures b.approvedCount == TotalsOf(rows, TargetOf(kind, id)).approvedCount
    ensures b.totalRm == TotalsOf(rows, TargetOf(kind, id)).totalRm as real
    ensures b.payoutAmountRm == Payout(b.totalRm, pct) && b.commissionPct == pct
    ensures b.kind == kind && b.id == id && b.batchId == BatchId(now, fraction)
    ensures b.csv == Csv(Fields(b.batchId, kind, id, b.approvedCount, b.totalRm, pct, b.payoutAmountRm, isoNow))
  {
    var t := TotalsOf(rows, TargetOf(kind, id));
    var total := t.totalRm as real;
    var payout := Payout(total, pct);
    var batchId := BatchId(now, fraction);
    Batch(batchId, kind, id, t.approvedCount, total, pct, payout,
          Csv(Fields(batchId, kind, id, t.approvedCount, total, pct, payout, isoNow)))
  }

  predicate Admitted(req: Request, decode: Decoder) {
    && req.httpMethod == "POST"
    && BearerToken(AuthHeader(req)).Some?
    && decode(BearerToken(AuthHeader(req)).value).Some?
    && HasAdminRole(decode(BearerToken(AuthHeader(req)).value).value)
  }

  /** `String(body[key] || "").trim()` */
  function BodyField(body: Json, key: string): string {
    Trim(StrOr(Get(body, key)))
  }

  /** The handler, with `rows` the contents of `agent_submissions` and `isoNow` the text of `new Date().toISOString()`. */
  function Handle(req: Request, decode: Decoder, rows: seq<Row>, now: nat, fraction: string, isoNow: string)
    : (r: Response<Batch>)
    ensures req.httpMethod != "POST" ==> r == Fail(405, "Method not allowed")
    ensures req.httpMethod == "POST" && BearerToken(AuthHeader(req)).None? ==> r == Fail(401, "Unauthorized")
    ensures req.httpMethod == "POST" && BearerToken(AuthHeader(req)).Some? ==>
      var claims := decode(BearerToken(AuthHeader(req)).value);
      && (claims.None? ==> r == Crash(SyntaxErrorMessage))
      && (claims.Some? && !HasAdminRole(claims.value) ==> r == Fail(403, "Forbidden (admin only)"))
    ensures Admitted(req, decode) && BodyObject(req).None? ==> r == Crash(BodyError(req))
    ensures Admitted(req, decode) && BodyObject(req).Some? ==>
      var body := BodyObject(req).value;
      var kind := BodyField(body, "type");
      var id := BodyField(body, "id");
      var pct := FieldNumber(body, "commission_pct");
      && (TypeRejection(kind, id).Some? ==> r == Fail(400, TypeRejection(kind, id).value))
      && (TypeRejection(kind, id).None? && PctRejected(pct) ==> r == Fail(400, PctInvalid))
      && (TypeRejection(kind, id).None? && !PctRejected(pct) ==>
            r == Success(Compose(kind, id, pct.value, rows, now, fraction, isoNow)))
  {
    if req.httpMethod != "POST" then Fail(405, "Method not allowed")
    else
      match BearerToken(AuthHeader(req))
      case None => Fail(401, "Unauthorized")
      case Some(token) =>
        match decode(token)
        case None => Crash(SyntaxErrorMessage)
        case Some(claims) =>
          if !HasAdminRole(claims) then Fail(403, "Forbidden (admin only)")
          else
            match BodyObject(req)
            case None => Crash(BodyError(req))
            case Some(body) =>
              var kind := BodyField(body, "type");
              var id := BodyField(body, "id");
              var pct := FieldNumber(body, "commission_pct");
              match TypeRejection(kind, id)
              case Some(m) => Fail(400, m)
              case None =>
                if PctRejected(pct) then Fail(400, PctInvalid)
                else Success(Compose(kind, id, pct.value, rows, now, fraction, isoNow))
  }

  /** The bounds themselves are accepted: 0 and 100 pass, and so does every value between. */
  lemma PctBoundsAccepted(p: real)
    ensures !PctRejected(Some(p)) <==> 0.0 <= p <= 100.0
    ensures !PctRejected(Some(0.0)) && !PctRejected(Some(100.0))
  {
  }

  lemma ShareWithinTotal(total: real, pct: real)
    requires total >= 0.0 && 0.0 <= pct <= 100.0
    ensures 0.0 <= total * (pct / 100.0) <= total
  {
    var q := pct / 100.0;
    assert 0.0 <= q <= 1.0;
    assert total * q <= total * 1.0;
  }

  lemma CentsAtMost(y: real, t: int)
    requires 0.0 <= y <= t as real
    ensures Cents(y) <= 100 * t
  {
    var c := Cents(y);
    assert c as real <= y * 100.0 + 0.5;
    assert y * 100.0 <= (100 * t) as real;
  }

  /** For a total that is not negative, the payout lies between 0 and the total. */
  lemma PayoutWithinTotal(total: int, pct: real)
    requires total >= 0 && 0.0 <= pct <= 100.0
    ensures 0.0 <= Payout(total as real, pct) <= total as real
  {
    var y := total as real * (pct / 100.0);
    ShareWithinTotal(total as real, pct);
    CentsAtMost(y, total);
    var c := Cents(y);
    assert Payout(total as real, pct) == c as real / 100.0;
    assert c as real <= (100 * total) as real;
  }

  /** Digits, capitals `A`-`F` and the two literal parts: the batch id holds no comma and no line break. */
  lemma BatchIdPlain(now: nat, fraction: string)
    requires forall k :: 0 <= k < |fraction| ==> IsHexDigit(fraction[k])
    ensures ',' !in BatchId(now, fraction) && '\n' !in BatchId(now, fraction)
  {
    var f := SliceTo(fraction, 6);
    assert forall k :: 0 <= k < |f| ==> f[k] == fraction[k];
    var d := NatToString(now);
    var u := Upper(f);
    var b := BatchId(now, fraction);
    assert b == "PB-" + d + "-" + u;
    forall k | 0 <= k < |b| ensures b[k] != ',' && b[k] != '\n' {
      if k < 3 {
      } else if k < 3 + |d| {
        assert b[k] == d[k - 3];
      } else if k == 3 + |d| {
      } else {
        assert b[k] == u[k - 4 - |d|];
      }
    }
  }

  lemma DigitsPlain(n: nat)
    ensures ',' !in NatToString(n) && '\n' !in NatToString(n)
  {
    var d := NatToString(n);
    forall k | 0 <= k < |d| ensures d[k] != ',' && d[k] != '\n' {}
  }

  /** Replacing every comma with a space leaves no comma and adds no line break. */
  lemma ReplacedIdPlain(id: string)
    ensures ',' !in ReplaceChar(id, ',', ' ')
    ensures '\n' !in id ==> '\n' !in ReplaceChar(id, ',', ' ')
  {
    var r := ReplaceChar(id, ',', ' ');
    forall k | 0 <= k < |r| ensures r[k] != ',' {}
    if '\n' !in id {
      forall k | 0 <= k < |r| ensures r[k] != '\n' {}
    }
  }

  predicate Plain(s: string) {
    ',' !in s && '\n' !in s
  }

  lemma TextsPlain(batchId: string, kind: string, id: string, count: string, total: string, pct: string,
                   payout: string, isoNow: string)
    requires Plain(batchId) && Plain(kind) && Plain(count) && Plain(total) && Plain(pct) && Plain(payout)
    requires Plain(isoNow) && '\n' !in id
    ensures forall k :: 0 <= k < 8 ==> Plain(Texts(batchId, kind, id, count, total, pct, payout, isoNow)[k])
  {
    ReplacedIdPlain(id);
  }

  lemma FieldsPlain(batchId: string, kind: string, id: string, count: nat, total: real, pct: real, payout: real,
                    isoNow: string)
    requires Plain(batchId) && Plain(kind) && Plain(isoNow) && '\n' !in id
    ensures forall k :: 0 <= k < 8 ==> Plain(Fields(batchId, kind, id, count, total, pct, payout, isoNow)[k])
  {
    Fixed2Plain(total);
    Fixed2Plain(pct);
    Fixed2Plain(payout);
    DigitsPlain(count);
    TextsPlain(batchId, kind, id, NatToString(count), Fixed2(total), Fixed2(pct), Fixed2(payout), isoNow);
  }

  predicate IsWord(s: string) {
    forall i :: 0 <= i < |s| ==> 'a' <= s[i] <= 'z' || s[i] == '_'
  }

  lemma ColumnsAreWords()
    ensures forall k :: 0 <= k < |Columns| ==> IsWord(Columns[k])
  {
    forall k | 0 <= k < |Columns| ensures IsWord(Columns[k]) {
      var c := Columns[k];
      assert IsWord(c);
    }
  }

  /** The header splits into the eight column names and is one line. */
  lemma HeaderColumns()
    ensures Split(Header(), ',') == Columns && |Columns| == 8
    ensures '\n' !in Header()
  {
    var cs := Columns;
    ColumnsAreWords();
    assert forall k :: 0 <= k < |cs| ==> ',' !in cs[k] && '\n' !in cs[k] by {
      forall k | 0 <= k < |cs| ensures ',' !in cs[k] && '\n' !in cs[k] {
        assert IsWord(cs[k]);
      }
    }
    SplitJoin(cs, ',');
    JoinAvoids(cs, ',', '\n');
  }

  /** Two lines, the header and the row; the row splits back into its fields. */
  lemma CsvOfPlainFields(fs: seq<string>)
    requires |fs| >= 1 && forall k :: 0 <= k < |fs| ==> Plain(fs[k])
    ensures Split(Csv(fs), '\n') == [Header(), Join(fs, ',')]
    ensures Split(Join(fs, ','), ',') == fs
  {
    SplitJoin(fs, ',');
    JoinAvoids(fs, ',', '\n');
    HeaderColumns();
    TwoLines(Header(), Join(fs, ','));
  }

  lemma TwoLines(h: string, row: string)
    requires '\n' !in h && '\n' !in row
    ensures Split(Join([h, row], '\n'), '\n') == [h, row]
  {
    SplitJoin([h, row], '\n');
  }

  lemma KindPlain(kind: string)
    requires kind == "master_agent" || kind == "agent"
    ensures Plain(kind)
  {
    assert IsWord(kind);
  }

  /** The CSV of a composed batch, for a type the handler accepts, an id without a line break and a plain time. */
  lemma ComposedCsv(kind: string, id: string, pct: real, rows: seq<Row>, now: nat, fraction: string, isoNow: string)
    requires kind == "master_agent" || kind == "agent"
    requires '\n' !in id && Plain(isoNow)
    requires forall k :: 0 <= k < |fraction| ==> IsHexDigit(fraction[k])
    ensures var b := Compose(kind, id, pct, rows, now, fraction, isoNow);
      var fs := Fields(b.batchId, kind, id, b.approvedCount, b.totalRm, pct, b.payoutAmountRm, isoNow);
      Split(b.csv, '\n') == [Header(), Join(fs, ',')] && Split(Join(fs, ','), ',') == fs
  {
    var b := Compose(kind, id, pct, rows, now, fraction, isoNow);
    BatchIdPlain(now, fraction);
    KindPlain(kind);
    FieldsCsv(b.batchId, kind, id, b.approvedCount, b.totalRm, pct, b.payoutAmountRm, isoNow);
  }

  lemma FieldsCsv(batchId: string, kind: string, id: string, count: nat, total: real, pct: real, payout: real,
                  isoNow: string)
    requires Plain(batchId) && Plain(kind) && Plain(isoNow) && '\n' !in id
    ensures var fs := Fields(batchId, kind, id, count, total, pct, payout, isoNow);
      Split(Csv(fs), '\n') == [Header(), Join(fs, ',')] && Split(Join(fs, ','), ',') == fs
  {
    FieldsPlain(batchId, kind, id, count, total, pct, payout, isoNow);
    CsvOfPlainFields(Fields(batchId, kind, id, count, total, pct, payout, isoNow));
  }

  /**
   * The CSV of a successful reply is two lines, the fixed header and the
   * data row, and the row splits into eight fields: the batch id, the type,
   * the id with its commas turned into spaces, the count, the three amounts
   * with two decimals and the time. A line break inside the id would add a
   * line, so the id is assumed to hold none; the time is `toISOString` text.
   */
  lemma CsvShape(req: Request, decode: Decoder, rows: seq<Row>, now: nat, fraction: string, isoNow: string)
    requires Handle(req, decode, rows, now, fraction, isoNow).reply.Data?
    requires forall k :: 0 <= k < |fraction| ==> IsHexDigit(fraction[k])
    requires Plain(isoNow)
    requires '\n' !in BodyField(BodyObject(req).value, "id")
    ensures var b := Handle(req, decode, rows, now, fraction, isoNow).reply.value;
      var row := Join(Fields(b.batchId, b.kind, b.id, b.approvedCount, b.totalRm, b.commissionPct, b.payoutAmountRm, isoNow), ',');
      && Split(b.csv, '\n') == [Header(), row]
      && Split(row, ',') == Fields(b.batchId, b.kind, b.id, b.approvedCount, b.totalRm, b.commissionPct, b.payoutAmountRm, isoNow)
      && (b.kind == "master_agent" || b.kind == "agent")
  {
    var body := BodyObject(req).value;
    var kind := BodyField(body, "type");
    var id := BodyField(body, "id");
    var pct := FieldNumber(body, "commission_pct");
    assert TypeRejection(kind, id).None? && !PctRejected(pct);
    assert Handle(req, decode, rows, now, fraction, isoNow).reply.value
      == Compose(kind, id, pct.value, rows, now, fraction, isoNow);
    ComposedCsv(kind, id, pct.value, rows, now, fraction, isoNow);
  }

  /**
   * `Number(null)` is 0: a body whose `commission_pct` is an explicit `null`
   * gets a batch at 0 per cent, while a body without the key (`undefined`,
   * `NaN`) is refused.
   */
  lemma NullPctIsZero(req: Request, decode: Decoder, rows: seq<Row>, now: nat, fraction: string, isoNow: string)
    requires Admitted(req, decode) && BodyObject(req).Some?
    requires var body := BodyObject(req).value;
      TypeRejection(BodyField(body, "type"), BodyField(body, "id")).None?
    ensures var body := BodyObject(req).value;
      var r := Handle(req, decode, rows, now, fraction, isoNow);
      && (body.Obj? && "commission_pct" in body.fields && body.fields["commission_pct"] == Null ==>
            r == Success(Compose(BodyField(body, "type"), BodyField(body, "id"), 0.0, rows, now, fraction, isoNow)))
      && (!(body.Obj? && "commission_pct" in body.fields) ==> r == Fail(400, PctInvalid))
  {
    PctBoundsAccepted(0.0);
  }

  /** Only an admin's POST with an accepted type, id and percentage gets a batch. */
  lemma BatchOnlyForAdmins(req: Request, decode: Decoder, rows: seq<Row>, now: nat, fraction: string, isoNow: string)
    requires Handle(req, decode, rows, now, fraction, isoNow).reply.Data?
    ensures Admitted(req, decode) && BodyObject(req).Some?
    ensures var body := BodyObject(req).value;
      && TypeRejection(BodyField(body, "type"), BodyField(body, "id")).None?
      && !PctRejected(FieldNumber(body, "commission_pct"))
  {
  }
}
