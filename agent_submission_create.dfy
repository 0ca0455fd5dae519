/**
 * netlify/functions/agent-submission-create.js: the other submission
 * intake. It checks the method before the caller, parses the data URL with
 * the greedy parser and throws on a malformed one (a 500, not a 400), has
 * no size guard, and inserts only eight columns.
 */
module AgentSubmissionCreate {
  import opened Wrappers
  import opened JsValues
  import opened JsStrings
  import opened Http
  import opened Claims
  import opened DataUrls
  import opened Submissions

  /** `safeUpper(s)`: `String(s || "").trim().toUpperCase()`. */
  function SafeUpper(v: Json): (r: string)
    ensures forall i :: 0 <= i < |r| ==> !('a' <= r[i] <= 'z')
  {
    Upper(Trim(StrOr(v)))
  }

  /**
   * The body fields the handler uses. `customer_address`,
   * `purchase_amount_rm`, `purchase_date` and `notes` are read but never
   * stored, so they are not part of the form.
   */
  datatype Form = Form(
    maCode: string, agentEmail: string, agentName: string,
    customerName: string, customerPhone: string, dataUrl: Json, fileName: string)

  function ReadForm(body: Json): Form {
    Form(SafeUpper(Get(body, "ma_code")), Trim(StrOr(Get(body, "agent_email"))), Trim(StrOr(Get(body, "agent_name"))),
         Trim(StrOr(Get(body, "customer_name"))), Trim(StrOr(Get(body, "customer_phone"))), Get(body, "proof_data_url"),
         Trim(StringOf(Or(Get(body, "proof_filename"), Str("proof.jpg")))))
  }

  const MissingMessages := ["Missing ma_code", "Missing customer_name", "Missing customer_phone", "Missing proof_data_url"]

  /** The four 400 checks, in order; the data URL only has to be truthy. */
  function Rejection(f: Form): (r: Option<string>)
    ensures r.None? <==> f.maCode != "" && f.customerName != "" && f.customerPhone != "" && Truthy(f.dataUrl)
    ensures r.Some? ==> r.value in MissingMessages
    ensures f.maCode == "" ==> r == Some("Missing ma_code")
    ensures f.maCode != "" && f.customerName == "" ==> r == Some("Missing customer_name")
    ensures f.maCode != "" && f.customerName != "" && f.customerPhone == "" ==> r == Some("Missing customer_phone")
    ensures f.maCode != "" && f.customerName != "" && f.customerPhone != "" && !Truthy(f.dataUrl) ==>
      r == Some("Missing proof_data_url")
  {
    if f.maCode == "" then Some("Missing ma_code")
    else if f.customerName == "" then Some("Missing customer_name")
    else if f.customerPhone == "" then Some("Missing customer_phone")
    else if !Truthy(f.dataUrl) then Some("Missing proof_data_url")
    else None
  }

  /** The catch block of this handler: `e?.message || "Submit failed"`. */
  function Thrown(message: string): (r: Response<Receipt>)
    ensures r.status == 500 && r.reply.Failure?
    ensures message != "" ==> r.reply.error == message
  {
    Crash(if message == "" then "Submit failed" else message)
  }

  function RowOf(userId: string, f: Form, publicUrl: string): (row: Submission)
    ensures row.status == "pending"
  {
    Submission(f.maCode, userId, f.agentEmail, f.agentName, f.customerName, f.customerPhone,
               None, None, None, None, publicUrl, None, "pending")
  }

  /** After validation: parse (throwing), upload, insert. */
  function Store(userId: string, f: Form, drive: DriveResult, insert: InsertResult): (r: Intake)
    ensures ParseGreedy(StringOf(f.dataUrl)).None? ==> r == Intake(Thrown("Invalid proof_data_url"), None, None)
    ensures ParseGreedy(StringOf(f.dataUrl)).Some? ==>
      var d := ParseGreedy(StringOf(f.dataUrl)).value;
      r.upload == Some(Upload(if f.fileName == "" then "proof.jpg" else f.fileName, d.mime, d.payload))
    ensures r.insert.Some? <==> ParseGreedy(StringOf(f.dataUrl)).Some? && drive.Uploaded? && drive.fileId != ""
    ensures r.insert.Some? ==>
      r.insert.value == RowOf(userId, f, "https://drive.google.com/file/d/" + drive.fileId + "/view?usp=sharing")
    ensures r.reply.reply.Data? <==> r.insert.Some? && insert.Inserted?
    ensures r.reply.status == 200 || r.reply.status == 500
  {
    match ParseGreedy(StringOf(f.dataUrl))
    case None => Intake(Thrown("Invalid proof_data_url"), None, None)
    case Some(d) =>
      var upload := Upload(if f.fileName == "" then "proof.jpg" else f.fileName, d.mime, d.payload);
      match drive
      case UploadThrew(m) => Intake(Thrown(m), Some(upload), None)
      case Uploaded(fileId) =>
        if fileId == "" then Intake(Thrown("Drive upload failed"), Some(upload), None)
        else
          var publicUrl := "https://drive.google.com/file/d/" + fileId + "/view?usp=sharing";
          var row := RowOf(userId, f, publicUrl);
          match insert
          case InsertThrew(m) => Intake(Thrown(m), Some(upload), Some(row))
          case Inserted(id, createdAt) => Intake(Success(Receipt(id, createdAt, publicUrl)), Some(upload), Some(row))
  }

  /** The body step: the four checks, then the store. A 400 is only ever a missing field. */
  function Accept(userId: string, f: Form, drive: DriveResult, insert: InsertResult): (r: Intake)
    ensures Rejection(f).Some? ==> r == Intake(Fail(400, Rejection(f).value), None, None)
    ensures Rejection(f).None? ==> r == Store(userId, f, drive, insert)
    ensures r.reply.status == 400 ==> r.reply.reply.Failure? && r.reply.reply.error in MissingMessages
  {
    var rejection := Rejection(f);
    if rejection.Some? then Intake(Fail(400, rejection.value), None, None)
    else Store(userId, f, drive, insert)
  }

  /** The handler: the method first (405 before 401), then the caller, the body and the rest. */
  function Handle(req: Request, decode: Decoder, drive: DriveResult, insert: InsertResult): (r: Intake)
    ensures req.httpMethod != "POST" ==> r == Intake(Fail(405, "Method not allowed"), None, None)
    ensures req.httpMethod == "POST" && CallerOf(req, decode).Anonymous? ==> r == Intake(Fail(401, "Unauthorized"), None, None)
    ensures req.httpMethod == "POST" && CallerOf(req, decode).DecodeThrew? ==> r == Intake(Crash(SyntaxErrorMessage), None, None)
    ensures req.httpMethod == "POST" && CallerOf(req, decode).Known? && BodyObject(req).None? ==>
      r == Intake(Crash(BodyError(req)), None, None)
    ensures req.httpMethod == "POST" && CallerOf(req, decode).Known? && BodyObject(req).Some? ==>
      r == Accept(CallerOf(req, decode).userId, ReadForm(BodyObject(req).value), drive, insert)
  {
    if req.httpMethod != "POST" then Intake(Fail(405, "Method not allowed"), None, None)
    else
      match CallerOf(req, decode)
      case Anonymous => Intake(Fail(401, "Unauthorized"), None, None)
      case DecodeThrew => Intake(Crash(SyntaxErrorMessage), None, None)
      case Known(userId) =>
        match BodyObject(req)
        case None => Intake(Crash(BodyError(req)), None, None)
        case Some(body) => Accept(userId, ReadForm(body), drive, insert)
  }

  /** A 400 from the handler is only ever a missing field: a malformed data URL is a 500 ... */
  lemma BadRequestOnlyForMissingFields(req: Request, decode: Decoder, drive: DriveResult, insert: InsertResult)
    ensures var r := Handle(req, decode, drive, insert).reply;
      r.status == 400 ==> r.reply.Failure? && r.reply.error in MissingMessages
  {
  }

  /** ... and a malformed data URL is thrown, a 500 with nothing uploaded. */
  lemma MalformedDataUrlThrows(req: Request, decode: Decoder, drive: DriveResult, insert: InsertResult)
    requires req.httpMethod == "POST" && CallerOf(req, decode).Known? && BodyObject(req).Some?
    requires Rejection(ReadForm(BodyObject(req).value)).None?
    requires ParseGreedy(StringOf(ReadForm(BodyObject(req).value).dataUrl)).None?
    ensures Handle(req, decode, drive, insert) == Intake(Thrown("Invalid proof_data_url"), None, None)
  {
  }

  /** Without a size guard, every accepted form whose data URL parses is uploaded, however long the URL. */
  lemma NoSizeGuard(req: Request, decode: Decoder, drive: DriveResult, insert: InsertResult)
    requires req.httpMethod == "POST" && CallerOf(req, decode).Known? && BodyObject(req).Some?
    requires Rejection(ReadForm(BodyObject(req).value)).None?
    requires ParseGreedy(StringOf(ReadForm(BodyObject(req).value).dataUrl)).Some?
    ensures Handle(req, decode, drive, insert).upload.Some?
  {
  }

  /** Every inserted row is `pending`, belongs to the caller, and leaves the unused columns `NULL`. */
  lemma InsertedRowPending(req: Request, decode: Decoder, drive: DriveResult, insert: InsertResult)
    requires Handle(req, decode, drive, insert).insert.Some?
    ensures req.httpMethod == "POST" && CallerOf(req, decode).Known? && BodyObject(req).Some?
    ensures var row := Handle(req, decode, drive, insert).insert.value;
      && row.status == "pending"
      && row.agentUserId == CallerOf(req, decode).userId
      && row.maCode == ReadForm(BodyObject(req).value).maCode && row.maCode != ""
      && row.customerAddress.None? && row.purchaseAmount.None? && row.purchaseDate.None? && row.notes.None?
      && row.proofFileId.None?
  {
  }
}
