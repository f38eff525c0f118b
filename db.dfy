/** The database layer (backend_rust/src/db.rs): paginated listing, detail lookup and insert.

    The table `traceability_data` is a sequence of rows already in `ORDER BY created_at DESC`
    order; `COUNT(*)` is its length and `LIMIT ? OFFSET ?` is a slice of it. What the
    database does on its own (a failing query) is a parameter: `countFault` / `pageFault` is
    the error the query returns, if any. `serde_json::from_str` is the parameter `parse`. */
module Db {
  import opened Wrappers
  import opened Text
  import opened Models
  import opened Errors

  /** `params.page.unwrap_or(1).max(1)`. */
  function ClampPage(page: Option<int>): (r: int)
    ensures r >= 1
    ensures page.Some? && page.value >= 1 ==> r == page.value
    ensures page.None? || page.value < 1 ==> r == 1
  {
    var p := page.GetOr(1);
    if p < 1 then 1 else p
  }

  const DefaultPageSize: int := 10

  /** `params.page_size.unwrap_or(10).max(1)`: at least 1, no upper bound. */
  function ClampPageSize(pageSize: Option<int>): (r: int)
    ensures r >= 1
    ensures pageSize.Some? && pageSize.value >= 1 ==> r == pageSize.value
    ensures pageSize.None? ==> r == DefaultPageSize
    ensures pageSize.Some? && pageSize.value < 1 ==> r == 1
  {
    var s := pageSize.GetOr(DefaultPageSize);
    if s < 1 then 1 else s
  }

  /** `(page - 1) * page_size`: the number of rows before the requested page. */
  function Offset(page: int, pageSize: int): (r: int)
    requires page >= 1 && pageSize >= 1
    ensures r >= 0
    ensures r < page * pageSize
  {
    (page - 1) * pageSize
  }

  /** Both query parameters, when given, are `i64`s. */
  predicate ParamsAreI64(params: PaginationParams) {
    (params.page.Some? ==> IsI64(params.page.value)) &&
    (params.pageSize.Some? ==> IsI64(params.pageSize.value))
  }

  /** The offset computation does not overflow `i64` (db.rs does not check this). */
  predicate OffsetFits(params: PaginationParams) {
    IsI64((ClampPage(params.page) - 1) * ClampPageSize(params.pageSize))
  }

  /** `(total_items as f64 / page_size as f64).ceil()`, on integers. */
  function CeilDiv(total: nat, size: int): (r: nat)
    requires size >= 1
    ensures total == 0 ==> r == 0
    ensures total > 0 ==> (r - 1) * size < total <= r * size
  {
    var q := (total + size - 1) / size;
    CeilDivBounds(total, size);
    q
  }

  lemma CeilDivBounds(total: nat, size: int)
    requires size >= 1
    ensures var q := (total + size - 1) / size;
      q >= 0 && (total == 0 ==> q == 0) && (total > 0 ==> (q - 1) * size < total <= q * size)
  {
    var n := total + size - 1;
    var q, m := n / size, n % size;
    assert n == q * size + m && 0 <= m < size;
    assert (q - 1) * size == q * size - size;
  }

  /** `LIMIT size OFFSET offset` over the ordered table. */
  function PageSlice<T>(table: seq<T>, offset: nat, size: nat): (r: seq<T>)
    ensures |r| <= size
    ensures forall i :: 0 <= i < |r| ==> offset + i < |table| && r[i] == table[offset + i]
    ensures offset + size <= |table| ==> |r| == size
  {
    var lo := if offset < |table| then offset else |table|;
    var hi := if offset + size < |table| then offset + size else |table|;
    table[lo..hi]
  }

  /** Every row lies on exactly the page its index says: row `j` is entry `j % size` of page
      `j / size + 1`, and that page is within `total_pages`. */
  lemma {:induction false} RowOnItsPage<T>(table: seq<T>, size: int, j: nat)
    requires size >= 1 && j < |table|
    ensures var page := j / size + 1;
      page <= CeilDiv(|table|, size) &&
      j % size < |PageSlice(table, Offset(page, size), size)| &&
      PageSlice(table, Offset(page, size), size)[j % size] == table[j]
  {
    var page := j / size + 1;
    var t := CeilDiv(|table|, size);
    assert j == (j / size) * size + j % size;
    assert Offset(page, size) == (j / size) * size;
    MulLessCancel(j / size, t, size);
  }

  lemma MulMonotone(a: int, b: int, s: int)
    requires s >= 1 && a >= b
    ensures a * s >= b * s
  {
    assert a * s - b * s == (a - b) * s;
  }

  lemma MulLessCancel(a: int, b: int, s: int)
    requires s >= 1 && a * s < b * s
    ensures a < b
  {
    if a >= b {
      MulMonotone(a, b, s);
    }
  }

  /** A page past `total_pages` is empty. */
  lemma PastLastPageEmpty<T>(table: seq<T>, page: int, size: int)
    requires page >= 1 && size >= 1
    requires page > CeilDiv(|table|, size)
    ensures PageSlice(table, Offset(page, size), size) == []
  {
    var t := CeilDiv(|table|, size);
    MulMonotone(page - 1, t, size);
    assert Offset(page, size) >= |table|;
  }

  // ---------------------------------------------------------------------------------------
  // Projection of a raw row to a list item

  const ProductNameKey: string := "productName"

  /** `from_str(metadata).ok().and_then(|v| v.get("productName").and_then(|v| v.as_str()))`.
      A failed parse is not an error: it only makes the name absent. */
  function ProductName(metadataJson: string, parse: string -> Option<Value>): (r: Option<string>)
    ensures r.Some? <==>
      parse(metadataJson).Some? && parse(metadataJson).value.Object? &&
      ProductNameKey in parse(metadataJson).value.fields &&
      parse(metadataJson).value.fields[ProductNameKey].Str?
    ensures r.Some? ==> r.value == parse(metadataJson).value.fields[ProductNameKey].s
    ensures parse(metadataJson).None? ==> r.None?
  {
    match parse(metadataJson)
    case None => None
    case Some(v) =>
      match v.Get(ProductNameKey)
      case None => None
      case Some(name) => name.AsStr()
  }

  /** The list item built from a row: id, hash and timestamp copied, name extracted. */
  function ProjectRow(row: RawFoodListItem, parse: string -> Option<Value>): FoodListItem {
    FoodListItem(row.productId, ProductName(row.metadataJson, parse), row.onchainMetadataHash, row.createdAt)
  }

  /** The `for raw_record in raw_records { ... food_list_items.push(...) }` loop: one item per
      row, in row order, with the row's fields copied. */
  method ProjectRows(rows: seq<RawFoodListItem>, parse: string -> Option<Value>)
    returns (items: seq<FoodListItem>)
    ensures |items| == |rows|
    ensures forall i :: 0 <= i < |rows| ==>
      items[i].productId == rows[i].productId &&
      items[i].onchainMetadataHash == rows[i].onchainMetadataHash &&
      items[i].createdAt == rows[i].createdAt &&
      items[i].productName == ProductName(rows[i].metadataJson, parse)
  {
    items := [];
    var k := 0;
    while k < |rows|
      invariant 0 <= k <= |rows|
      invariant |items| == k
      invariant forall i :: 0 <= i < k ==> items[i] == ProjectRow(rows[i], parse)
    {
      var row := rows[k];
      var productName := ProductName(row.metadataJson, parse);
      items := items + [FoodListItem(row.productId, productName, row.onchainMetadataHash, row.createdAt)];
      k := k + 1;
    }
  }

  // ---------------------------------------------------------------------------------------
  // get_food_records_list_db

  /** `get_food_records_list_db`. A failing count or page query is converted with
      `From<sqlx::Error>`. An empty table answers without issuing the page query, so
      `pageFault` does not matter then. */
  method GetFoodRecordsListDb(
    table: seq<RawFoodListItem>, params: PaginationParams, parse: string -> Option<Value>,
    countFault: Option<SqlxError>, pageFault: Option<SqlxError>)
    returns (r: Result<PaginatedFoodListResponse, AppError>)
    requires ParamsAreI64(params) && OffsetFits(params)
    requires IsI64(|table|)
    ensures countFault.Some? ==> r == Err(FromSqlx(countFault.value))
    ensures countFault.None? && |table| == 0 ==>
      r == Ok(PaginatedFoodListResponse([], 0, ClampPage(params.page), ClampPageSize(params.pageSize), 0))
    ensures countFault.None? && |table| > 0 && pageFault.Some? ==> r == Err(FromSqlx(pageFault.value))
    ensures countFault.None? && |table| > 0 && pageFault.None? ==>
      var page, size := ClampPage(params.page), ClampPageSize(params.pageSize);
      var rows := PageSlice(table, Offset(page, size), size);
      && r.Ok?
      && r.value.totalItems == |table|
      && r.value.page == page && r.value.pageSize == size
      && r.value.totalPages == CeilDiv(|table|, size)
      && |r.value.items| == |rows| <= size
      && forall i :: 0 <= i < |rows| ==> r.value.items[i] == ProjectRow(rows[i], parse)
  {
    var page := ClampPage(params.page);
    var pageSize := ClampPageSize(params.pageSize);
    var offset := Offset(page, pageSize);

    if countFault.Some? {
      return Err(FromSqlx(countFault.value));
    }
    var totalItems := |table|;
    if totalItems == 0 {
      return Ok(PaginatedFoodListResponse([], 0, page, pageSize, 0));
    }

    if pageFault.Some? {
      return Err(FromSqlx(pageFault.value));
    }
    var rawRecords := PageSlice(table, offset, pageSize);
    var items := ProjectRows(rawRecords, parse);
    var totalPages := CeilDiv(totalItems, pageSize);
    r := Ok(PaginatedFoodListResponse(items, totalItems, page, pageSize, totalPages));
  }

  // ---------------------------------------------------------------------------------------
  // get_food_record_detail_db and create_food_record_db

  /** The not-found text of the detail lookup, with the id quoted. */
  function DetailNotFoundMessage(productId: string): (m: string)
    ensures Contains(m, productId)
  {
    ContainsInfix("未找到产品ID为 '", productId, "' 的食品记录。");
    "未找到产品ID为 '" + productId + "' 的食品记录。"
  }

  /** `get_food_record_detail_db` over the outcome of `fetch_optional`: a query error goes
      through `From<sqlx::Error>`, no row becomes `NotFound` naming the id, a row is returned
      as it is. */
  function GetFoodRecordDetailDb(productId: string, fetched: Result<Option<FoodRecordDetail>, SqlxError>)
    : (r: Result<FoodRecordDetail, AppError>)
    ensures fetched.Ok? && fetched.value.Some? ==> r == Ok(fetched.value.value)
    ensures fetched.Ok? && fetched.value.None? ==>
      r.Err? && r.error.NotFound? && Contains(r.error.msg, productId) && StatusCode(r.error) == NOT_FOUND
    ensures fetched.Err? ==> r == Err(FromSqlx(fetched.error))
  {
    match fetched
    case Err(e) => Err(FromSqlx(e))
    case Ok(None) => Err(NotFound(DetailNotFoundMessage(productId)))
    case Ok(Some(record)) => Ok(record)
  }

  /** `create_food_record_db`: serialise the metadata (a failure becomes `InvalidInput` via
      `From<serde_json::Error>` and nothing is inserted), run the insert (a failure goes
      through `From<sqlx::Error>`), and return `rows_affected`. `insert` is what the insert
      statement returns; it is consulted only after serialisation succeeded. */
  function CreateFoodRecordDb(serialized: Result<string, JsonError>, insert: Result<nat, SqlxError>)
    : (r: Result<nat, AppError>)
    ensures serialized.Err? ==> r.Err? && r.error == FromJson(serialized.error) && StatusCode(r.error) == BAD_REQUEST
    ensures serialized.Ok? && insert.Ok? ==> r == Ok(insert.value)
    ensures serialized.Ok? && insert.Err? ==> r == Err(FromSqlx(insert.error))
  {
    match serialized
    case Err(e) => Err(FromJson(e))
    case Ok(_) =>
      match insert
      case Err(e) => Err(FromSqlx(e))
      case Ok(rows) => Ok(rows)
  }
}
