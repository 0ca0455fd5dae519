/**
 * The `agent_submissions` rows that the two intake handlers insert, and the
 * outside calls they make on the way: the Google Drive upload and the
 * database insert, each given by its result.
 */
module Submissions {
  import opened Wrappers
  import opened JsValues
  import opened Http

  /** The inserted columns; `None` is SQL `NULL` (a column a handler leaves out is `None` too). */
  datatype Submission = Submission(
    maCode: string,
    agentUserId: string,
    agentEmail: string,
    agentName: string,
    customerName: string,
    customerPhone: string,
    customerAddress: Option<string>,
    purchaseAmount: Option<string>,
    purchaseDate: Option<string>,
    notes: Option<string>,
    proofUrl: string,
    proofFileId: Option<string>,
    status: string)

  /** The file sent to Drive: its name, its MIME type and the base64 text of its bytes. */
  datatype Upload = Upload(fileName: string, mime: string, payload: string)

  /** What the upload gave: the created file's id, or the message of what it threw. */
  datatype DriveResult = Uploaded(fileId: string) | UploadThrew(message: string)

  /** What the insert gave: `rows[0]?.id` and `rows[0]?.created_at`, or the message of what it threw. */
  datatype InsertResult = Inserted(id: Json, createdAt: Json) | InsertThrew(message: string)

  /** The success payload `{ id, created_at, proof_url }`. */
  datatype Receipt = Receipt(id: Json, createdAt: Json, proofUrl: string)

  /** A reply together with the upload and the insert the handler made, if it got that far. */
  datatype Intake = Intake(reply: Response<Receipt>, upload: Option<Upload>, insert: Option<Submission>)

  /**
   * `x || null` for a trimmed text field: an empty string is never stored,
   * and reading NULL back as "" gives the field again.
   */
  function NullIfEmpty(s: string): (r: Option<string>)
    ensures r.Some? ==> r.value != ""
    ensures (if r.None? then "" else r.value) == s
    ensures r.None? <==> s == ""
    ensures r.Some? ==> r.value == s
  {
    if s == "" then None else Some(s)
  }
}
