/** The backend's error type (backend_rust/src/errors.rs): its variants, their HTTP status,
    the text shown to the client, the `Display` text, `source()`, and the conversions from
    `sqlx::Error` and `serde_json::Error`. */
module Errors {
  import opened Wrappers
  import opened Text
  import opened Models

  /** `sqlx::Error`, reduced to the distinctions the backend draws: a missing row, an error
      reported by the database (with whether it is a unique-constraint violation), a decode
      failure, and every other variant (I/O, TLS, pool time-out, ...) as `Other`. Each carries
      the text sqlx would display. */
  datatype SqlxError =
    | RowNotFound
    | Database(dbText: string, uniqueViolation: bool)
    | Decode(decodeText: string)
    | Other(otherText: string)

  /** `SqlxError::Database(db_err)` with `db_err.is_unique_violation()` (equivalently,
      `as_database_error()` is present and reports a unique violation). */
  predicate IsUniqueViolation(e: SqlxError) {
    e.Database? && e.uniqueViolation
  }

  /** The display text of a `sqlx::Error`. */
  function SqlxText(e: SqlxError): string {
    match e
    case RowNotFound => "no rows returned by a query that expected to return at least one row"
    case Database(t, _) => t
    case Decode(t) => t
    case Other(t) => t
  }

  /** `serde_json::Error`, identified by its display text. */
  datatype JsonError = JsonError(text: string)

  /** `AppError`. */
  datatype AppError =
    | DatabaseError(cause: SqlxError)
    | NotFound(msg: string)
    | InvalidInput(msg: string)
    | Conflict(msg: string)
    | InternalError(msg: string)

  /** The fixed label each variant's `Display` text begins with. */
  function DisplayLabel(e: AppError): string {
    match e
    case DatabaseError(_) => "Database error: "
    case NotFound(_) => "Not Found: "
    case InvalidInput(_) => "Invalid Input: "
    case Conflict(_) => "Conflict: "
    case InternalError(_) => "Internal Server Error: "
  }

  /** The text after the label: the wrapped error's text or the variant's payload. */
  function DisplayDetail(e: AppError): string {
    if e.DatabaseError? then SqlxText(e.cause) else e.msg
  }

  /** `impl Display for AppError`. */
  function Display(e: AppError): (r: string)
    ensures StartsWith(r, DisplayLabel(e))
    ensures r[|DisplayLabel(e)|..] == DisplayDetail(e)
  {
    DisplayLabel(e) + DisplayDetail(e)
  }

  /** Two variants with the same label are the same variant: the labels tell the variants apart. */
  lemma LabelsDistinct(e1: AppError, e2: AppError)
    requires StartsWith(DisplayLabel(e1) + DisplayDetail(e1), DisplayLabel(e2))
    ensures DisplayLabel(e1) == DisplayLabel(e2)
  {
    var l1, l2 := DisplayLabel(e1), DisplayLabel(e2);
    var s := l1 + DisplayDetail(e1);
    assert s[0] == l1[0] && s[2] == l1[2];
    assert s[..|l2|][0] == l2[0] && s[..|l2|][2] == l2[2];
  }

  /** Outside `DatabaseError`, the `Display` text identifies the error completely. */
  lemma DisplayInjective(e1: AppError, e2: AppError)
    requires !e1.DatabaseError? && !e2.DatabaseError?
    requires Display(e1) == Display(e2)
    ensures e1 == e2
  {
    LabelsDistinct(e1, e2);
    assert e1.msg == Display(e1)[|DisplayLabel(e1)|..];
  }

  /** `std::error::Error::source`. */
  function Source(e: AppError): (r: Option<SqlxError>)
    ensures r.Some? <==> e.DatabaseError?
    ensures r.Some? ==> r.value == e.cause
  {
    match e
    case DatabaseError(c) => Some(c)
    case _ => None
  }

  /** `ResponseError::status_code`. */
  function StatusCode(e: AppError): (code: nat)
    ensures code == NOT_FOUND <==> e.NotFound?
    ensures code == BAD_REQUEST <==> e.InvalidInput?
    ensures code == CONFLICT <==> e.Conflict?
    ensures code == INTERNAL_SERVER_ERROR <==> e.DatabaseError? || e.InternalError?
  {
    match e
    case DatabaseError(_) => INTERNAL_SERVER_ERROR
    case NotFound(_) => NOT_FOUND
    case InvalidInput(_) => BAD_REQUEST
    case InternalError(_) => INTERNAL_SERVER_ERROR
    case Conflict(_) => CONFLICT
  }

  /** Fixed client text for database failures. */
  const DatabaseFailureMessage: string := "数据库操作失败。"

  /** The `message` of the error body: a fixed text for `DatabaseError`, the payload otherwise. */
  function ClientMessage(e: AppError): string {
    if e.DatabaseError? then DatabaseFailureMessage else e.msg
  }

  /** `ResponseError::error_response`: a `GenericResponse` with status "error", the variant's
      status code and the client message. */
  function ErrorResponse(e: AppError): (r: HttpResponse)
    ensures r.status == StatusCode(e)
    ensures r.body.Generic? && r.body.generic.status == "error"
    ensures !e.DatabaseError? ==> r.body.generic.message == e.msg
  {
    ErrorReply(StatusCode(e), ClientMessage(e))
  }

  /** Every error response is a 4xx or 5xx reply whose body status is "error". */
  lemma ErrorResponseIsError(e: AppError)
    ensures 400 <= ErrorResponse(e).status < 600
    ensures ErrorResponse(e).BodyStatus() == Some("error")
  {
  }

  /** The client never learns which database error occurred: the responses for any two
      `DatabaseError`s are identical, while `Display` still carries the cause's text. */
  lemma DatabaseErrorHidden(a: SqlxError, b: SqlxError)
    ensures ErrorResponse(DatabaseError(a)) == ErrorResponse(DatabaseError(b))
    ensures ErrorResponse(DatabaseError(a)).body.generic.message == DatabaseFailureMessage
    ensures Contains(Display(DatabaseError(a)), SqlxText(a))
  {
    ContainsInfix("Database error: ", SqlxText(a), "");
    assert "Database error: " + SqlxText(a) + "" == Display(DatabaseError(a));
  }

  const RowNotFoundMessage: string := "请求的记录未找到。"
  const UniqueViolationMessage: string := "记录已存在或违反唯一约束。"

  /** `impl From<sqlx::Error> for AppError`. */
  function FromSqlx(err: SqlxError): (r: AppError)
    ensures err.RowNotFound? <==> r.NotFound?
    ensures IsUniqueViolation(err) <==> r.Conflict?
    ensures r.NotFound? ==> r.msg == RowNotFoundMessage
    ensures r.Conflict? ==> r.msg == UniqueViolationMessage
    ensures !r.NotFound? && !r.Conflict? ==> r == DatabaseError(err)
  {
    match err
    case RowNotFound => NotFound(RowNotFoundMessage)
    case Database(_, unique) =>
      if unique then Conflict(UniqueViolationMessage) else DatabaseError(err)
    case _ => DatabaseError(err)
  }

  /** The status a converted sqlx error is answered with: 404, 409, or 500 for the rest. */
  lemma FromSqlxStatus(err: SqlxError)
    ensures StatusCode(FromSqlx(err)) ==
      if err.RowNotFound? then NOT_FOUND
      else if IsUniqueViolation(err) then CONFLICT
      else INTERNAL_SERVER_ERROR
    ensures StatusCode(FromSqlx(err)) == INTERNAL_SERVER_ERROR <==> Source(FromSqlx(err)) == Some(err)
  {
  }

  const JsonErrorPrefix: string := "JSON 解析或序列化错误: "

  /** `impl From<serde_json::Error> for AppError`: always `InvalidInput`, so always 400, with
      the serde error's text in the message. */
  function FromJson(err: JsonError): (r: AppError)
    ensures r.InvalidInput? && StatusCode(r) == BAD_REQUEST
    ensures StartsWith(r.msg, JsonErrorPrefix) && Contains(r.msg, err.text)
  {
    ContainsInfix(JsonErrorPrefix, err.text, "");
    assert JsonErrorPrefix + err.text + "" == JsonErrorPrefix + err.text;
    InvalidInput(JsonErrorPrefix + err.text)
  }
}
