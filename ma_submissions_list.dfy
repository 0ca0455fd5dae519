/**
 * netlify/functions/ma-submissions-list.js, which despite its name is a
 * submission intake: a signed-in agent posts a customer purchase with a proof
 * image as a `data:` URL; the image goes to Google Drive and a `pending`
 * row into `agent_submissions`.
 */
module MaSubmissionsList {
  import opened Wrappers
  import opened JsValues
  import opened JsStrings
  import opened Http
  import opened Claims
  import opened DataUrls
  import opened Submissions

  /** `10 * 1024 * 1024`, the largest accepted length of the data URL. */
  const MaxDataUrlLength := 10485760

  /** `map[mime] || "jpg"` over the five known image types. */
  function ExtOf(mime: string): (r: string)
    ensures r == "png" <==> mime == "image/png"
    ensures r == "webp" <==> mime == "image/webp"
    ensures r == "gif" <==> mime == "image/gif"
    ensures r == "jpg" <==> mime != "image/png" && mime != "image/webp" && mime != "image/gif"
  {
    if mime == "image/png" then "png"
    else if mime == "image/webp" then "webp"
    else if mime == "image/gif" then "gif"
    else "jpg"
  }

  /** The characters `[\w.\-]` keeps: ASCII letters and digits, `_`, `.` and `-`. */
  predicate SafeChar(c: char) {
    ('A' <= c <= 'Z') || ('a' <= c <= 'z') || ('0' <= c <= '9') || c == '_' || c == '.' || c == '-'
  }

  predicate AllSafe(s: string) {
    forall i :: 0 <= i < |s| ==> SafeChar(s[i])
  }

  /** `s.replace(/[^\w.\-]+/g, "_")`: each maximal run of other characters becomes one `_`. */
  function Collapse(s: string): (r: string)
    ensures AllSafe(r)
    ensures |r| <= |s|
    ensures s != "" ==> r != ""
  {
    if s == [] then []
    else
      var head := if SafeChar(s[0]) then [s[0]] else if |s| > 1 && !SafeChar(s[1]) then [] else "_";
      head + Collapse(s[1..])
  }

  /** Safe characters pass through unchanged. */
  lemma {:induction false} CollapseSafePrefix(x: string, s: string)
    requires AllSafe(x)
    ensures Collapse(x + s) == x + Collapse(s)
    decreases |x|
  {
    if x != [] {
      assert (x + s)[1..] == x[1..] + s;
      CollapseSafePrefix(x[1..], s);
    } else {
      assert x + s == s;
    }
  }

  /** A run of unsafe characters followed by a safe one, or by nothing, becomes a single `_`. */
  lemma {:induction false} CollapseRun(u: string, s: string)
    requires u != [] && forall i :: 0 <= i < |u| ==> !SafeChar(u[i])
    requires s == [] || SafeChar(s[0])
    ensures Collapse(u + s) == "_" + Collapse(s)
    decreases |u|
  {
    assert (u + s)[1..] == u[1..] + s;
    if |u| > 1 {
      CollapseRun(u[1..], s);
    } else {
      assert u[1..] + s == s;
    }
  }

  /** `sanitizeFilename(name)`; `name` is already a string here. */
  function Sanitize(name: string): (r: string)
    ensures r != "" && |r| <= 120 && AllSafe(r)
    ensures AllSafe(name) && name != "" && |name| <= 120 ==> r == name
  {
    var c := Collapse(if name == "" then "proof" else name);
    assert AllSafe(name) && name != "" ==> c == name by {
      if AllSafe(name) && name != "" {
        CollapseSafePrefix(name, "");
        assert name + "" == name;
      }
    }
    var t := SliceTo(c, 120);
    assert AllSafe(t) by {
      forall i | 0 <= i < |t| ensures SafeChar(t[i]) { assert t[i] == c[i]; }
    }
    if t == "" then "proof" else t
  }

  // --- /\.(png|jpg|jpeg|webp|gif)$/i ------------------------------------

  /** Whether `s` ends with `e`, ignoring the case of ASCII letters. */
  predicate EndsWithExt(s: string, e: string) {
    |e| <= |s| && Lower(s[|s| - |e|..]) == e
  }

  predicate IsImageExt(e: string) {
    e == ".png" || e == ".jpg" || e == ".jpeg" || e == ".webp" || e == ".gif"
  }

  /** The length of the image extension `s` ends with, 0 when it ends with none. */
  function ImageExtLength(s: string): (n: nat)
    ensures n == 0 || n == 4 || n == 5
    ensures n <= |s|
    ensures n != 0 ==> IsImageExt(Lower(s[|s| - n..]))
  {
    if EndsWithExt(s, ".png") || EndsWithExt(s, ".jpg") || EndsWithExt(s, ".gif") then 4
    else if EndsWithExt(s, ".jpeg") || EndsWithExt(s, ".webp") then 5
    else 0
  }

  /** `name.replace(/\.(png|jpg|jpeg|webp|gif)$/i, "")`: at most one trailing image extension is removed. */
  function StripImageExt(s: string): (r: string)
    ensures |r| <= |s| && r == s[..|r|]
    ensures |r| == |s| || IsImageExt(Lower(s[|r|..]))
  {
    s[..|s| - ImageExtLength(s)]
  }

  /** Any casing of a known extension is removed, and only that extension. */
  lemma StripsExtension(base: string, x: string)
    requires IsImageExt(Lower(x))
    ensures StripImageExt(base + x) == base
  {
    var s := base + x;
    assert s[|s| - |x|..] == x;
    if |x| == 5 {
      assert s[|s| - 4..] == x[1..];
      assert Lower(x[1..])[0] == LowerChar(x[1]) == Lower(x)[1];
      assert Lower(x)[1] != '.';
      assert !EndsWithExt(s, ".png") && !EndsWithExt(s, ".jpg") && !EndsWithExt(s, ".gif");
    }
    assert ImageExtLength(s) == |x|;
    assert s[..|s| - |x|] == base;
  }

  /** A name without an image extension is kept whole. */
  lemma KeepsOtherNames(s: string)
    requires forall k :: 0 <= k <= |s| ==> !IsImageExt(Lower(s[k..]))
    ensures StripImageExt(s) == s
  {
  }

  /** The stored file name `QariLive_<MA_CODE>_<ts>_<safe name>.<ext>`, with `now` standing for `Date.now()`. */
  function FileName(maCode: string, now: nat, proofFilename: string, mime: string): string {
    "QariLive_" + maCode + "_" + NatToString(now) + "_" + Sanitize(StripImageExt(proofFilename)) + "." + ExtOf(mime)
  }

  /** The name ends in a non-empty safe part of at most 120 characters and one of the four extensions. */
  lemma FileNameShape(maCode: string, now: nat, proofFilename: string, mime: string)
    ensures var safe := Sanitize(StripImageExt(proofFilename));
      var ext := ExtOf(mime);
      && FileName(maCode, now, proofFilename, mime) == "QariLive_" + maCode + "_" + NatToString(now) + "_" + safe + "." + ext
      && safe != "" && |safe| <= 120 && AllSafe(safe)
      && (ext == "jpg" || ext == "png" || ext == "webp" || ext == "gif")
  {
  }

  // --- The handler ---------------------------------------------------------

  /** The body fields, each read by `safeStr`; `proof_filename` defaults to "proof.jpg". */
  datatype Form = Form(
    maCode: string, agentEmail: string, agentName: string,
    customerName: string, customerPhone: string, customerAddress: string,
    amount: string, date: string, notes: string,
    dataUrl: string, fileName: string)

  function ReadForm(body: Json): Form {
    var fileName := SafeStr(Get(body, "proof_filename"));
    Form(Upper(SafeStr(Get(body, "ma_code"))), SafeStr(Get(body, "agent_email")), SafeStr(Get(body, "agent_name")),
         SafeStr(Get(body, "customer_name")), SafeStr(Get(body, "customer_phone")), SafeStr(Get(body, "customer_address")),
         SafeStr(Get(body, "purchase_amount_rm")), SafeStr(Get(body, "purchase_date")), SafeStr(Get(body, "notes")),
         SafeStr(Get(body, "proof_data_url")), if fileName == "" then "proof.jpg" else fileName)
  }

  /** The four required fields are present. */
  predicate FilledIn(f: Form) {
    f.maCode != "" && f.customerName != "" && f.customerPhone != "" && f.dataUrl != ""
  }

  /** The six 400 checks, in order; `None` when the form is accepted. */
  function Rejection(f: Form): (r: Option<string>)
    ensures r.None? <==> FilledIn(f) && |f.dataUrl| <= MaxDataUrlLength && ParseStrict(f.dataUrl).Some?
    ensures f.maCode == "" ==> r == Some("Missing ma_code.")
    ensures f.maCode != "" && f.customerName == "" ==> r == Some("Missing customer_name.")
    ensures f.maCode != "" && f.customerName != "" && f.customerPhone == "" ==> r == Some("Missing customer_phone.")
    ensures f.maCode != "" && f.customerName != "" && f.customerPhone != "" && f.dataUrl == "" ==>
      r == Some("Missing proof_data_url.")
    ensures FilledIn(f) && |f.dataUrl| > MaxDataUrlLength ==> r == Some("Image too large. Please upload a smaller image.")
    ensures FilledIn(f) && |f.dataUrl| <= MaxDataUrlLength && ParseStrict(f.dataUrl).None? ==>
      r == Some("Invalid proof_data_url format.")
  {
    if f.maCode == "" then Some("Missing ma_code.")
    else if f.customerName == "" then Some("Missing customer_name.")
    else if f.customerPhone == "" then Some("Missing customer_phone.")
    else if f.dataUrl == "" then Some("Missing proof_data_url.")
    else if |f.dataUrl| > MaxDataUrlLength then Some("Image too large. Please upload a smaller image.")
    else if ParseStrict(f.dataUrl).None? then Some("Invalid proof_data_url format.")
    else None
  }

  /** The row inserted for an accepted form, its image stored as `fileId` behind `viewUrl`. */
  function RowOf(userId: string, f: Form, viewUrl: string, fileId: string): Submission {
    Submission(f.maCode, userId, f.agentEmail, f.agentName, f.customerName, f.customerPhone, Some(f.customerAddress),
               NullIfEmpty(f.amount), NullIfEmpty(f.date), NullIfEmpty(f.notes), viewUrl, Some(fileId), "pending")
  }

  /**
   * After validation: the Drive folder from `DRIVE_FOLDER_ID`, the upload,
   * the database from `DATABASE_URL` (or its two fallbacks, "" when all are
   * unset), and the insert.
   */
  function Store(userId: string, f: Form, d: DataUrl, folderId: string, databaseUrl: string, now: nat,
                 drive: DriveResult, insert: InsertResult): (r: Intake)
    ensures folderId == "" ==> r == Intake(Crash("Missing env var: DRIVE_FOLDER_ID"), None, None)
    ensures folderId != "" ==> r.upload == Some(Upload(FileName(f.maCode, now, f.fileName, d.mime), d.mime, d.payload))
    ensures r.insert.Some? <==> folderId != "" && drive.Uploaded? && drive.fileId != "" && databaseUrl != ""
    ensures r.insert.Some? ==>
      r.insert.value == RowOf(userId, f, "https://drive.google.com/file/d/" + drive.fileId + "/view", drive.fileId)
    ensures r.reply.reply.Data? <==> r.insert.Some? && insert.Inserted?
  {
    if folderId == "" then Intake(Crash("Missing env var: DRIVE_FOLDER_ID"), None, None)
    else
      var upload := Upload(FileName(f.maCode, now, f.fileName, d.mime), d.mime, d.payload);
      match drive
      case UploadThrew(m) => Intake(Crash(m), Some(upload), None)
      case Uploaded(fileId) =>
        if fileId == "" then Intake(Crash("Failed to upload file to Google Drive."), Some(upload), None)
        else
          var viewUrl := "https://drive.google.com/file/d/" + fileId + "/view";
          if databaseUrl == "" then Intake(Crash("Missing DATABASE_URL (Neon) env var."), Some(upload), None)
          else
            var row := RowOf(userId, f, viewUrl, fileId);
            match insert
            case InsertThrew(m) => Intake(Crash(m), Some(upload), Some(row))
            case Inserted(id, createdAt) => Intake(Success(Receipt(id, createdAt, viewUrl)), Some(upload), Some(row))
  }

  /** The handler: the caller first (401 before 405), then the body, the checks and the store. */
  function Handle(req: Request, decode: Decoder, folderId: string, databaseUrl: string, now: nat,
                  drive: DriveResult, insert: InsertResult): (r: Intake)
    ensures CallerOf(req, decode).Anonymous? ==> r == Intake(Fail(401, "Unauthorized"), None, None)
    ensures CallerOf(req, decode).DecodeThrew? ==> r == Intake(Crash(SyntaxErrorMessage), None, None)
    ensures CallerOf(req, decode).Known? && req.httpMethod != "POST" ==> r == Intake(Fail(405, "Method not allowed"), None, None)
    ensures CallerOf(req, decode).Known? && req.httpMethod == "POST" ==>
      && (BodyObject(req).None? ==> r == Intake(Crash(BodyError(req)), None, None))
      && (BodyObject(req).Some? && Rejection(ReadForm(BodyObject(req).value)).Some? ==>
            r == Intake(Fail(400, Rejection(ReadForm(BodyObject(req).value)).value), None, None))
    ensures r.upload.Some? ==>
      && CallerOf(req, decode).Known? && req.httpMethod == "POST" && BodyObject(req).Some?
      && Rejection(ReadForm(BodyObject(req).value)).None?
    ensures r.upload.Some? ==>
      var f := ReadForm(BodyObject(req).value);
      r == Store(CallerOf(req, decode).userId, f, ParseStrict(f.dataUrl).value, folderId, databaseUrl, now, drive, insert)
  {
    match CallerOf(req, decode)
    case Anonymous => Intake(Fail(401, "Unauthorized"), None, None)
    case DecodeThrew => Intake(Crash(SyntaxErrorMessage), None, None)
    case Known(userId) =>
      if req.httpMethod != "POST" then Intake(Fail(405, "Method not allowed"), None, None)
      else
        match BodyObject(req)
        case None => Intake(Crash(BodyError(req)), None, None)
        case Some(body) =>
          var f := ReadForm(body);
          match Rejection(f)
          case Some(m) => Intake(Fail(400, m), None, None)
          case None => Store(userId, f, ParseStrict(f.dataUrl).value, folderId, databaseUrl, now, drive, insert)
  }

  /**
   * Every inserted row is `pending`, carries the caller's id and a non-empty
   * code, received at most 10 MiB of data URL, and stores empty amount, date
   * and notes as `NULL`.
   */
  lemma InsertedRowPending(req: Request, decode: Decoder, folderId: string, databaseUrl: string, now: nat,
                           drive: DriveResult, insert: InsertResult)
    requires Handle(req, decode, folderId, databaseUrl, now, drive, insert).insert.Some?
    ensures CallerOf(req, decode).Known? && BodyObject(req).Some?
    ensures var row := Handle(req, decode, folderId, databaseUrl, now, drive, insert).insert.value;
      var f := ReadForm(BodyObject(req).value);
      && row.status == "pending"
      && row.agentUserId == CallerOf(req, decode).userId
      && row.maCode == f.maCode && row.maCode != ""
      && row.customerName != "" && row.customerPhone != ""
      && |f.dataUrl| <= MaxDataUrlLength
      && (row.purchaseAmount.None? <==> f.amount == "")
      && (row.purchaseDate.None? <==> f.date == "")
      && (row.notes.None? <==> f.notes == "")
  {
  }
}
