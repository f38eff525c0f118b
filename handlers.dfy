/** The handlers of backend_rust/src/handlers/food_records.rs. This file is not registered by
    `main()`; its handlers are written against `sqlx::Error` and an optional row, although
    db.rs returns `AppError` and a plain row, so each handler is modelled over the outcome
    type it pattern-matches on. */
module FoodRecordHandlers {
  import opened Wrappers
  import opened Text
  import opened Models
  import opened Errors
  import Db

  /** `create_food_record_handler`, over the outcome of the insert (`rows_affected` or the
      sqlx error). */
  function CreateFoodRecordHandler(productId: string, outcome: Result<nat, SqlxError>): (r: HttpResponse)
    ensures r.body.Generic?
    ensures r.status == CREATED <==> outcome.Ok? && outcome.value > 0
    ensures r.BodyStatus() == Some("success") <==> r.status == CREATED
    ensures r.status == CREATED ==> Contains(r.body.generic.message, productId)
    ensures r.status == CONFLICT <==> outcome.Err? && IsUniqueViolation(outcome.error)
    ensures r.status == CONFLICT ==> Contains(r.body.generic.message, productId)
    ensures r.status == BAD_REQUEST <==> outcome.Err? && outcome.error.Decode?
    ensures r.status == INTERNAL_SERVER_ERROR <==>
      outcome == Ok(0) ||
      (outcome.Err? && !IsUniqueViolation(outcome.error) && !outcome.error.Decode?)
  {
    match outcome
    case Ok(rowsAffected) =>
      if rowsAffected > 0 then GenericReply(CREATED, "success", CreatedMessage(productId))
      else ErrorReply(INTERNAL_SERVER_ERROR, "创建食品记录失败，操作未修改任何数据。")
    case Err(e) =>
      if IsUniqueViolation(e) then ErrorReply(CONFLICT, DuplicateMessage(productId))
      else if e.Decode? then ErrorReply(BAD_REQUEST, "请求中的元数据格式无效。")
      else ErrorReply(INTERNAL_SERVER_ERROR, "创建食品记录时发生内部错误。")
  }

  /** For errors reported by the database itself, the handler answers with the status that
      `From<sqlx::Error>` and `status_code` in errors.rs would give; it departs from them
      only on `Decode` (400 here, 500 there) and `RowNotFound` (500 here, 404 there). */
  lemma CreateStatusVersusAppError(productId: string, e: SqlxError)
    ensures e.Database? ==>
      CreateFoodRecordHandler(productId, Err(e)).status == StatusCode(FromSqlx(e))
    ensures e.Decode? ==>
      CreateFoodRecordHandler(productId, Err(e)).status == BAD_REQUEST &&
      StatusCode(FromSqlx(e)) == INTERNAL_SERVER_ERROR
    ensures e.RowNotFound? ==>
      CreateFoodRecordHandler(productId, Err(e)).status == INTERNAL_SERVER_ERROR &&
      StatusCode(FromSqlx(e)) == NOT_FOUND
  {
  }

  /** `get_food_records_list_handler`: the paginated payload unchanged with 200, any error 500. */
  function GetFoodRecordsListHandler(outcome: Result<PaginatedFoodListResponse, AppError>): (r: HttpResponse)
    ensures outcome.Ok? ==> r.status == OK && r.body == Page(outcome.value)
    ensures outcome.Err? ==> r.status == INTERNAL_SERVER_ERROR && r.BodyStatus() == Some("error")
  {
    match outcome
    case Ok(page) => HttpResponse(OK, Page(page))
    case Err(_) => ErrorReply(INTERNAL_SERVER_ERROR, "获取食品列表时发生内部错误。")
  }

  /** `get_food_record_detail_handler`, over the outcome of `fetch_optional`. */
  function GetFoodRecordDetailHandler(productId: string, outcome: Result<Option<FoodRecordDetail>, SqlxError>)
    : (r: HttpResponse)
    ensures r.status == OK <==> outcome.Ok? && outcome.value.Some?
    ensures r.status == OK ==>
      var record := outcome.value.value;
      && r.body.Detail?
      && r.body.detail.productId == record.productId
      && r.body.detail.metadataJson == record.metadataJson.inner
      && r.body.detail.onchainMetadataHash == record.onchainMetadataHash
      && r.body.detail.blockchainTransactionHash == record.blockchainTransactionHash
      && r.body.detail.createdAt == record.createdAt
      && r.body.detail.updatedAt == record.updatedAt
    ensures r.status == NOT_FOUND <==> outcome == Ok(None)
    ensures r.status == NOT_FOUND ==> r.BodyStatus() == Some("error") && Contains(r.body.generic.message, productId)
    ensures r.status == INTERNAL_SERVER_ERROR <==> outcome.Err?
  {
    match outcome
    case Ok(Some(record)) => HttpResponse(OK, Detail(DetailPayload(record)))
    case Ok(None) => ErrorReply(NOT_FOUND, Db.DetailNotFoundMessage(productId))
    case Err(e) =>
      if e.Decode? then ErrorReply(INTERNAL_SERVER_ERROR, "服务器无法正确处理数据格式。")
      else ErrorReply(INTERNAL_SERVER_ERROR, "获取食品详情时发生内部错误。")
  }
}
