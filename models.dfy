/** The backend's plain records (backend_rust/src/models.rs, mirrored by the private copies in
    main.rs), the JSON values they carry, and the HTTP responses the handlers build. */
module Models {
  import opened Wrappers
  import opened Text

  /** Timestamps (`chrono::DateTime<Utc>`) are opaque instants; only equality and copying matter. */
  type Timestamp = int

  const I64_MIN: int := -0x8000_0000_0000_0000
  const I64_MAX: int := 0x7FFF_FFFF_FFFF_FFFF

  predicate IsI64(x: int) {
    I64_MIN <= x <= I64_MAX
  }

  /** `serde_json::Value`. Numbers are kept as integers: no arithmetic is done on them. */
  datatype Value =
    | Null
    | Bool(b: bool)
    | Number(n: int)
    | Str(s: string)
    | Array(items: seq<Value>)
    | Object(fields: map<string, Value>)
  {
    /** `Value::get(key)` for a string key: the field of an object, nothing otherwise. */
    function Get(key: string): Option<Value>
    {
      if Object? && key in fields then Some(fields[key]) else None
    }

    /** `Value::as_str()`. */
    function AsStr(): Option<string>
    {
      if Str? then Some(s) else None
    }
  }

  /** `FoodRecordRequest`: the body of `POST /api/food-records`. */
  datatype FoodRecordRequest = FoodRecordRequest(
    productId: string,
    metadata: Value,
    metadataHashOnChain: string,
    transactionHash: string)

  /** `GenericResponse { status, message }`. */
  datatype GenericResponse = GenericResponse(status: string, message: string)

  /** `FoodListItem`: one entry of the list endpoints. */
  datatype FoodListItem = FoodListItem(
    productId: string,
    productName: Option<string>,
    onchainMetadataHash: string,
    createdAt: Timestamp)

  /** `sqlx::types::Json<JsonValue>`: a wrapper whose field `.0` is the decoded value. */
  datatype JsonColumn = JsonColumn(inner: Value)

  /** `FoodRecordDetail`: one row of `traceability_data` as the detail query decodes it. */
  datatype FoodRecordDetail = FoodRecordDetail(
    productId: string,
    metadataJson: JsonColumn,
    onchainMetadataHash: string,
    blockchainTransactionHash: string,
    createdAt: Timestamp,
    updatedAt: Timestamp)

  /** `FoodRecordDetailResponse`: the detail payload, with the JSON wrapper removed. */
  datatype FoodRecordDetailResponse = FoodRecordDetailResponse(
    productId: string,
    metadataJson: Value,
    onchainMetadataHash: string,
    blockchainTransactionHash: string,
    createdAt: Timestamp,
    updatedAt: Timestamp)

  /** `RawFoodListItem`: a row of the list query, metadata still as text
      (`CAST(metadata_json AS CHAR)`). */
  datatype RawFoodListItem = RawFoodListItem(
    productId: string,
    metadataJson: string,
    onchainMetadataHash: string,
    createdAt: Timestamp)

  /** `PaginatedFoodListResponse`. */
  datatype PaginatedFoodListResponse = PaginatedFoodListResponse(
    items: seq<FoodListItem>,
    totalItems: int,
    page: int,
    pageSize: int,
    totalPages: int)

  /** `PaginationParams`: the `page` and `page_size` query parameters, both optional. */
  datatype PaginationParams = PaginationParams(page: Option<int>, pageSize: Option<int>)

  /** The JSON body an `HttpResponse` carries. */
  datatype Body =
    | Generic(generic: GenericResponse)
    | Page(page: PaginatedFoodListResponse)
    | List(list: seq<FoodListItem>)
    | Detail(detail: FoodRecordDetailResponse)

  datatype HttpResponse = HttpResponse(status: nat, body: Body) {
    /** The `status` field of a `GenericResponse` body, if the body is one. */
    function BodyStatus(): Option<string> {
      if body.Generic? then Some(body.generic.status) else None
    }
  }

  const OK: nat := 200
  const CREATED: nat := 201
  const BAD_REQUEST: nat := 400
  const NOT_FOUND: nat := 404
  const CONFLICT: nat := 409
  const INTERNAL_SERVER_ERROR: nat := 500

  /** A response with a `GenericResponse` body. */
  function GenericReply(code: nat, status: string, message: string): HttpResponse {
    HttpResponse(code, Generic(GenericResponse(status, message)))
  }

  /** A `GenericResponse` error reply: status field "error". */
  function ErrorReply(code: nat, message: string): HttpResponse {
    GenericReply(code, "error", message)
  }

  /** `FoodRecordDetailResponse` built from a decoded row: every field copied, the
      metadata taken out of its `Json` wrapper (`record.metadata_json.0`). */
  function DetailPayload(record: FoodRecordDetail): FoodRecordDetailResponse
  {
    FoodRecordDetailResponse(
      record.productId, record.metadataJson.inner, record.onchainMetadataHash,
      record.blockchainTransactionHash, record.createdAt, record.updatedAt)
  }

  /** Success text of a create, shared by main.rs and handlers/food_records.rs. */
  function CreatedMessage(productId: string): (m: string)
    ensures Contains(m, productId)
  {
    ContainsInfix("食品记录 ", productId, " 已成功创建。");
    "食品记录 " + productId + " 已成功创建。"
  }

  /** Conflict text of a create, shared by main.rs and handlers/food_records.rs. */
  function DuplicateMessage(productId: string): (m: string)
    ensures Contains(m, productId)
  {
    ContainsInfix("产品ID '", productId, "' 已存在。");
    "产品ID '" + productId + "' 已存在。"
  }
}
