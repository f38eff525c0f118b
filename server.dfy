/** The handlers that `main()` registers (backend_rust/src/main.rs): create, list and detail.

    Besides the pure classification of each database outcome, the create and detail
    handlers are also run against an abstract `traceability_data` table: a map keyed by the
    unique `product_id`, holding what the insert wrote. */
module Server {
  import opened Wrappers
  import opened Text
  import opened Models
  import opened Errors
  import Db

  // ---------------------------------------------------------------------------------------
  // create_food_record

  /** `create_food_record`, over the serialisation result and the insert outcome. The insert
      outcome is looked at only when serialisation succeeded: a failure returns 400 before
      the insert is issued. */
  function CreateFoodRecord(productId: string, serialized: Result<string, JsonError>, insert: Result<nat, SqlxError>)
    : (r: HttpResponse)
    ensures r.body.Generic?
    ensures serialized.Err? ==> r == ErrorReply(BAD_REQUEST, "无效的元数据格式")
    ensures r.status == BAD_REQUEST <==> serialized.Err?
    ensures r.status == CREATED <==> serialized.Ok? && insert.Ok? && insert.value > 0
    ensures r.BodyStatus() == Some("success") <==> r.status == CREATED
    ensures r.status == CREATED ==> Contains(r.body.generic.message, productId)
    ensures r.status == CONFLICT <==> serialized.Ok? && insert.Err? && IsUniqueViolation(insert.error)
    ensures r.status == CONFLICT ==> Contains(r.body.generic.message, productId)
    ensures r.status == INTERNAL_SERVER_ERROR <==>
      serialized.Ok? && (insert == Ok(0) || (insert.Err? && !IsUniqueViolation(insert.error)))
  {
    if serialized.Err? then ErrorReply(BAD_REQUEST, "无效的元数据格式")
    else match insert
      case Ok(rowsAffected) =>
        if rowsAffected > 0 then GenericReply(CREATED, "success", CreatedMessage(productId))
        else ErrorReply(INTERNAL_SERVER_ERROR, "创建食品记录失败，请稍后再试。")
      case Err(e) =>
        if IsUniqueViolation(e) then ErrorReply(CONFLICT, DuplicateMessage(productId))
        else ErrorReply(INTERNAL_SERVER_ERROR, "创建食品记录时发生数据库错误。")
  }

  /** Unlike handlers/food_records.rs, a `Decode` error is not answered with 400. */
  lemma DecodeIsServerError(productId: string, text: string, e: SqlxError)
    requires e.Decode?
    ensures CreateFoodRecord(productId, Ok(text), Err(e)).status == INTERNAL_SERVER_ERROR
  {
  }

  // ---------------------------------------------------------------------------------------
  // The table

  /** The stored columns of one `traceability_data` row. */
  datatype StoredRow = StoredRow(
    metadataText: string,
    onchainMetadataHash: string,
    blockchainTransactionHash: string,
    createdAt: Timestamp,
    updatedAt: Timestamp)

  type Table = map<string, StoredRow>

  /** The text MySQL reports for a duplicate primary/unique key. */
  const DuplicateKeyText: string := "Duplicate entry for key 'product_id'"

  /** The INSERT statement on the table: a transport `fault` fails it and changes nothing, a
      duplicate `product_id` is a unique violation and changes nothing, otherwise one row is
      added (both timestamps are `now`). */
  function Insert(table: Table, req: FoodRecordRequest, metadataText: string, now: Timestamp, fault: Option<SqlxError>)
    : (Result<nat, SqlxError>, Table)
  {
    if fault.Some? then (Err(fault.value), table)
    else if req.productId in table then (Err(SqlxError.Database(DuplicateKeyText, true)), table)
    else
      var row := StoredRow(metadataText, req.metadataHashOnChain, req.transactionHash, now, now);
      (Ok(1), table[req.productId := row])
  }

  /** `create_food_record` against the table: serialise, insert, classify. */
  function CreateInTable(
    table: Table, req: FoodRecordRequest, serialize: Value -> Result<string, JsonError>,
    now: Timestamp, fault: Option<SqlxError>)
    : (out: (HttpResponse, Table))
    ensures out.0 == CreateFoodRecord(req.productId, serialize(req.metadata),
      if serialize(req.metadata).Ok? then Insert(table, req, serialize(req.metadata).value, now, fault).0
      else Ok(0))
    ensures table.Keys <= out.1.Keys
    ensures forall id :: id in table ==> out.1[id] == table[id]
    ensures out.0.status != CREATED ==> out.1 == table
    ensures out.0.status == CREATED ==>
      out.1 == table[req.productId := StoredRow(serialize(req.metadata).value, req.metadataHashOnChain,
                                                req.transactionHash, now, now)]
  {
    var serialized := serialize(req.metadata);
    if serialized.Err? then (CreateFoodRecord(req.productId, serialized, Ok(0)), table)
    else
      var (outcome, table') := Insert(table, req, serialized.value, now, fault);
      (CreateFoodRecord(req.productId, serialized, outcome), table')
  }

  /** A second create of an existing product id is answered 409 and leaves the table as it was. */
  lemma DuplicateCreateConflicts(
    table: Table, req: FoodRecordRequest, serialize: Value -> Result<string, JsonError>, now: Timestamp)
    requires req.productId in table
    requires serialize(req.metadata).Ok?
    ensures CreateInTable(table, req, serialize, now, None).0.status == CONFLICT
    ensures CreateInTable(table, req, serialize, now, None).1 == table
  {
  }

  /** A metadata serialisation failure is answered 400 and nothing is inserted. */
  lemma SerializeFailureInsertsNothing(
    table: Table, req: FoodRecordRequest, serialize: Value -> Result<string, JsonError>,
    now: Timestamp, fault: Option<SqlxError>)
    requires serialize(req.metadata).Err?
    ensures CreateInTable(table, req, serialize, now, fault).0.status == BAD_REQUEST
    ensures CreateInTable(table, req, serialize, now, fault).1 == table
  {
  }

  // ---------------------------------------------------------------------------------------
  // get_food_record_detail

  /** The text sqlx reports when the stored metadata does not decode as JSON. */
  const MetadataDecodeText: string := "error occurred while decoding column metadata_json"

  /** The `SELECT ... WHERE product_id = ?` query with `fetch_optional`, decoding the stored
      metadata with `parse` (what `sqlx::types::Json` does). */
  function FetchDetail(table: Table, productId: string, parse: string -> Option<Value>)
    : Result<Option<FoodRecordDetail>, SqlxError>
  {
    if productId !in table then Ok(None)
    else
      var row := table[productId];
      match parse(row.metadataText)
      case None => Err(SqlxError.Decode(MetadataDecodeText))
      case Some(v) =>
        Ok(Some(FoodRecordDetail(productId, JsonColumn(v), row.onchainMetadataHash,
          row.blockchainTransactionHash, row.createdAt, row.updatedAt)))
  }

  /** The not-found text of the registered detail handler (the id is not quoted here). */
  function DetailNotFoundMessage(productId: string): (m: string)
    ensures Contains(m, productId)
  {
    ContainsInfix("未找到产品ID为 ", productId, " 的食品记录。");
    "未找到产品ID为 " + productId + " 的食品记录。"
  }

  /** `get_food_record_detail`: hit 200 with every field copied, miss 404 naming the id,
      any error 500. */
  function GetFoodRecordDetail(productId: string, outcome: Result<Option<FoodRecordDetail>, SqlxError>)
    : (r: HttpResponse)
    ensures r.status == OK <==> outcome.Ok? && outcome.value.Some?
    ensures r.status == OK ==>
      var record := outcome.value.value;
      && r.body.Detail?
      && r.body.detail.productId == record.productId
      && r.body.detail.metadataJson == record.metadataJson.inner
      && r.body.detail.onchainMetadataHash == record.onchainMetadataHash
      && r.body.detail.blockchainTransactionHash == record.blockchainTransactionHash
      && r.body.detail.createdAt == record.createdAt
      && r.body.detail.updatedAt == record.updatedAt
    ensures r.status == NOT_FOUND <==> outcome == Ok(None)
    ensures r.status == NOT_FOUND ==> r.BodyStatus() == Some("error") && Contains(r.body.generic.message, productId)
    ensures r.status == INTERNAL_SERVER_ERROR <==> outcome.Err?
  {
    match outcome
    case Ok(Some(record)) => HttpResponse(OK, Detail(DetailPayload(record)))
    case Ok(None) => ErrorReply(NOT_FOUND, DetailNotFoundMessage(productId))
    case Err(_) => ErrorReply(INTERNAL_SERVER_ERROR, "获取食品详情失败。")
  }

  /** A product id never created is answered 404. */
  lemma UnknownIdNotFound(table: Table, productId: string, parse: string -> Option<Value>)
    requires productId !in table
    ensures GetFoodRecordDetail(productId, FetchDetail(table, productId, parse)).status == NOT_FOUND
  {
  }

  /** Create then look up: after a 201, the detail of that id returns the product id,
      metadata, metadata hash and transaction hash that were submitted, provided the stored
      metadata text decodes back to the submitted value. */
  lemma CreateThenDetail(
    table: Table, req: FoodRecordRequest, serialize: Value -> Result<string, JsonError>,
    parse: string -> Option<Value>, now: Timestamp, fault: Option<SqlxError>)
    requires serialize(req.metadata).Ok?
    requires parse(serialize(req.metadata).value) == Some(req.metadata)
    ensures var (resp, table') := CreateInTable(table, req, serialize, now, fault);
      resp.status == CREATED ==>
        var detail := GetFoodRecordDetail(req.productId, FetchDetail(table', req.productId, parse));
        && detail.status == OK
        && detail.body.detail.productId == req.productId
        && detail.body.detail.metadataJson == req.metadata
        && detail.body.detail.onchainMetadataHash == req.metadataHashOnChain
        && detail.body.detail.blockchainTransactionHash == req.transactionHash
  {
    var text := serialize(req.metadata).value;
    var (resp, table') := CreateInTable(table, req, serialize, now, fault);
    if resp.status == CREATED {
      assert fault.None? && req.productId !in table;
      assert table'[req.productId] == StoredRow(text, req.metadataHashOnChain, req.transactionHash, now, now);
    }
  }

  // ---------------------------------------------------------------------------------------
  // get_food_records_list

  /** `get_food_records_list` (no pagination here): one item per fetched row, in row order,
      name extracted from `productName` where the metadata parses; a query error is 500. */
  method GetFoodRecordsList(fetched: Result<seq<RawFoodListItem>, SqlxError>, parse: string -> Option<Value>)
    returns (r: HttpResponse)
    ensures fetched.Err? ==> r.status == INTERNAL_SERVER_ERROR && r.BodyStatus() == Some("error")
    ensures fetched.Ok? ==>
      var rows := fetched.value;
      && r.status == OK && r.body.List?
      && |r.body.list| == |rows|
      && forall i :: 0 <= i < |rows| ==>
        r.body.list[i].productId == rows[i].productId &&
        r.body.list[i].onchainMetadataHash == rows[i].onchainMetadataHash &&
        r.body.list[i].createdAt == rows[i].createdAt &&
        r.body.list[i].productName == Db.ProductName(rows[i].metadataJson, parse)
  {
    match fetched {
      case Err(_) =>
        r := ErrorReply(INTERNAL_SERVER_ERROR, "获取食品列表失败。");
      case Ok(rawRecords) =>
        var foodListItems := Db.ProjectRows(rawRecords, parse);
        r := HttpResponse(OK, List(foodListItems));
    }
  }
}
