# Food traceability: a Dafny model

The system records food products on a blockchain and in a MySQL database. A React page
computes a hash of a product's metadata, writes `(productId, hash)` to a smart contract with
`addRecord`, and posts the metadata, the hash and the transaction hash to a Rust (actix-web +
sqlx) backend. The backend stores them in the table `traceability_data`. Other pages list the
records and search for one by its product id.

The model covers:

- the backend's error type and its HTTP mapping (`errors.rs`);
- the database layer, with its pagination arithmetic (`db.rs`);
- the two sets of HTTP handlers: the ones `main()` registers (`main.rs`) and the stand-alone
  ones in `handlers/food_records.rs`;
- the wallet state machine of the application shell (`App.tsx`);
- the add-record page (`AddFoodPage.tsx`);
- the search page (`SearchPage.tsx`).

Layout, one module per source file:

| file | module | models |
|---|---|---|
| `wrappers.dfy` | `Wrappers` | `Option` and `Result` |
| `text.dfy` | `Text` | substring and prefix predicates, decimal rendering of numbers |
| `js.dfy` | `Js` | JavaScript truthiness, `===` on a `number \| string` code, `substring` |
| `models.dfy` | `Models` | the records of `models.rs`, a small JSON value, HTTP responses |
| `errors.dfy` | `Errors` | `AppError`, `Display`, `source`, `ResponseError`, the `From` conversions |
| `db.dfy` | `Db` | paginated listing, detail lookup, insert |
| `handlers.dfy` | `FoodRecordHandlers` | the three handlers of `handlers/food_records.rs` |
| `server.dfy` | `Server` | the three handlers `main()` registers, also run against an abstract table |
| `wallet.dfy` | `Wallet` | `App.tsx`: the class `WalletManager`, plus pure transition functions |
| `add_food.dfy` | `AddFood` | `AddFoodPage.tsx`: the class `AddFoodPage`, the id rule, the error text |
| `search.dfy` | `Search` | `SearchPage.tsx`: the class `SearchPage`, `trim`, the message colour |

Anything outside the model becomes a parameter:

- database outcomes, including a failing query;
- `serde_json` parsing and serialisation;
- `getProviderAndSigner`;
- the contract call and its receipt;
- `fetch`;
- `calculateMetadataHash`;
- `matchPath`;
- the clock.

The stateful React components are classes. Each field is a `useState` cell. Each method is
one handler, run with nothing happening during its awaits. Each method's `ensures` ties the
new `Snapshot()` to a pure transition function (`Wallet.AfterConnect`, `AddFood.AfterOnFinish`,
`Search.AfterSearch`, …). The properties are proved about those functions. In `Wallet` they
are also proved about runs of events: an invariant held by every run, auto-connect firing at
most once, and the manual-disconnect flag being cleared only by an account switch.

A manual disconnect does not stop every automatic reconnect. The auto-connect branch of the
mount effect in `App.tsx` honours the `userDisconnectedManually` flag. The `initialize`
routine of the same effect reconnects whenever `selectedAddress` is set and no address is
shown, even after a manual disconnect, because it never reads that flag
(`Wallet.InitializeIgnoresManualDisconnect`).

Other behaviours of the code that the model states as they are:

- A button click passes its event object as `isAutoConnect`, and the event is truthy. So a
  click skips the "already connecting" guard. A failed click-connect also keeps the previous
  address (`Wallet.ClickBypassesGuard`).
- `error.code === 4902` is false for the string `"4902"`, so that failure never tries to add
  the chain (`Wallet.OtherCodeKeepsWrongNetwork`).
- The unknown-error message of the search page contains neither the prefix `错误` nor `未找到`,
  so it is shown in green (`Search.UnknownErrorShownGreen`).
- The two detail handlers word their 404 message differently: `db.rs` puts the id in
  quotes and `main.rs` does not.
- The two create handlers classify a `Decode` error differently: 400 in
  `handlers/food_records.rs` and 500 in `main.rs` (`Server.DecodeIsServerError`,
  `FoodRecordHandlers.CreateStatusVersusAppError`).
- `EXPECTED_CHAIN_ID` is imported by `App.tsx` from `utils/blockchain.ts`, which does not
  export it. The model uses `"0x539"`, the value of the commented-out definition at
  `App.tsx:49`.

## Model

| member | source | states |
|---|---|---|
| Errors.Display | backend_rust/src/errors.rs:29-39 | the text begins with the variant's label ("Database error: ", "Not Found: ", …) and goes on with the wrapped detail |
| Errors.LabelsDistinct | backend_rust/src/errors.rs:31-37 | no variant's label is a prefix of another variant's text, so the label identifies the variant |
| Errors.DisplayInjective | backend_rust/src/errors.rs:29-39 | two non-database errors with the same text are equal |
| Errors.Source | backend_rust/src/errors.rs:43-48 | there is a source exactly for `DatabaseError`, and it is the wrapped sqlx error |
| Errors.StatusCode | backend_rust/src/errors.rs:53-61 | 404 iff NotFound, 400 iff InvalidInput, 409 iff Conflict, 500 iff DatabaseError or InternalError |
| Errors.ErrorResponse | backend_rust/src/errors.rs:63-96 | the status is `status_code()`; the body is `{status:"error"}`; every variant but DatabaseError sends its own message |
| Errors.ErrorResponseIsError | backend_rust/src/errors.rs:83-93 | every error response is a 4xx or 5xx with body status "error" |
| Errors.DatabaseErrorHidden | backend_rust/src/errors.rs:87-93 | any two database errors give the same response, with the fixed client message, although `Display` shows the sqlx text |
| Errors.FromSqlx | backend_rust/src/errors.rs:100-114 | RowNotFound iff NotFound; a unique violation iff Conflict; anything else is wrapped unchanged as DatabaseError |
| Errors.FromSqlxStatus | backend_rust/src/errors.rs:100-114 | the status of a converted sqlx error is 404, 409 or 500, and it is 500 exactly when the error is kept as the source |
| Errors.FromJson | backend_rust/src/errors.rs:117-121 | a JSON error becomes InvalidInput (400), with the JSON prefix and the error text in its message |
| Db.ClampPage | backend_rust/src/db.rs:35 | the page is at least 1: the given page when it is ≥ 1, otherwise 1 |
| Db.ClampPageSize | backend_rust/src/db.rs:36 | the page size is at least 1: the given size when ≥ 1, 10 when absent, 1 when below 1 |
| Db.Offset | backend_rust/src/db.rs:37 | the offset is non-negative and smaller than page × size |
| Db.CeilDiv | backend_rust/src/db.rs:73 | zero pages for zero rows; otherwise the least page count whose pages hold every row |
| Db.CeilDivBounds | backend_rust/src/db.rs:73 | the integer formula `(total + size - 1) / size` meets the same bounds: 0 for 0 rows, otherwise the least page count that holds every row |
| Db.PageSlice | backend_rust/src/db.rs:51-61 | `LIMIT size OFFSET offset`: at most `size` rows, each the table row at its offset, and a full page when the table extends that far |
| Db.RowOnItsPage | backend_rust/src/db.rs:37-61 | row j appears on page `j / size + 1`, at position `j % size`, and that page is within `total_pages` |
| Db.PastLastPageEmpty | backend_rust/src/db.rs:51-73 | a page beyond `total_pages` is empty |
| Db.ProductName | backend_rust/src/db.rs:65-67 | the product name is present exactly when the metadata parses to an object whose `productName` is a string, and then it is that string |
| Db.ProjectRows | backend_rust/src/db.rs:63-72 | one list item per row, in order; each keeps the row's id, hash and timestamp and takes its product name from the metadata |
| Db.GetFoodRecordsListDb | backend_rust/src/db.rs:31-77 | a count failure or a page failure is returned as the converted error; an empty table gives an empty page with zero pages; otherwise the page's rows and the clamped page, size, total and page count |
| Db.DetailNotFoundMessage | backend_rust/src/db.rs:96 | the not-found message contains the requested id |
| Db.GetFoodRecordDetailDb | backend_rust/src/db.rs:80-98 | a row is returned as it is; a missing row is NotFound naming the id; an error is converted with `From<sqlx::Error>` |
| Db.CreateFoodRecordDb | backend_rust/src/db.rs:9-27 | a serialisation failure is an InvalidInput with status 400; otherwise the insert's rows-affected or its converted error |
| FoodRecordHandlers.CreateFoodRecordHandler | backend_rust/src/handlers/food_records.rs:18-54 | 201 with "success" iff rows were affected; 409 iff a unique violation; 400 iff a decode error; 500 for zero rows and every other error; the 201 and 409 messages name the id |
| FoodRecordHandlers.CreateStatusVersusAppError | backend_rust/src/handlers/food_records.rs:34-52 | on database errors the handler agrees with `AppError`'s status; it departs on Decode (400 vs 500) and RowNotFound (500 vs 404) |
| FoodRecordHandlers.GetFoodRecordsListHandler | backend_rust/src/handlers/food_records.rs:62-72 | a page is sent unchanged with 200; any error gives 500 with body status "error" |
| FoodRecordHandlers.GetFoodRecordDetailHandler | backend_rust/src/handlers/food_records.rs:81-116 | 200 iff a row was found, with every column copied and the JSON unwrapped; 404 iff no row, naming the id; 500 iff the query failed |
| Models.CreatedMessage | backend_rust/src/main.rs:126 | the created message names the product id |
| Models.DuplicateMessage | backend_rust/src/main.rs:144 | the conflict message names the product id |
| Server.CreateFoodRecord | backend_rust/src/main.rs:95-153 | 400 iff the metadata does not serialise, and then the insert is not consulted; 201 iff rows were affected; 409 iff a unique violation; 500 otherwise |
| Server.DecodeIsServerError | backend_rust/src/main.rs:136-152 | a decode error of the insert gives 500 here |
| Server.CreateInTable | backend_rust/src/main.rs:95-153 | the response is `CreateFoodRecord` of the insert's outcome; without a 201 the table is unchanged; with a 201 it is the old table plus exactly one row under the product id, holding the serialised metadata, the two hashes and the insert time |
| Server.DuplicateCreateConflicts | backend_rust/src/main.rs:107-118 | creating an id that is already stored answers 409 and leaves the table unchanged |
| Server.SerializeFailureInsertsNothing | backend_rust/src/main.rs:95-104 | metadata that does not serialise answers 400 and inserts nothing |
| Server.DetailNotFoundMessage | backend_rust/src/main.rs:275 | the not-found message contains the requested id |
| Server.GetFoodRecordDetail | backend_rust/src/main.rs:240-285 | 200 iff a row was found, with every column copied and the JSON unwrapped; 404 iff none, naming the id; 500 iff the query failed |
| Server.UnknownIdNotFound | backend_rust/src/main.rs:222-238 | looking up an id that is not in the table answers 404 |
| Server.CreateThenDetail | backend_rust/src/main.rs:107-118 | after a 201 create, the detail of that id answers 200 with the submitted metadata, hash and transaction hash |
| Server.GetFoodRecordsList | backend_rust/src/main.rs:177-211 | a query failure gives 500; otherwise 200 with one list item per row, in order, and each product name taken from the metadata |
| Wallet.AfterStartConnect | frontend_typescript/src/App.tsx:174-177 | a guarded call changes nothing; otherwise the connecting flag goes up and the network status is reset, and no other field changes |
| Wallet.AfterCompleteConnect | frontend_typescript/src/App.tsx:178-195 | the connecting flag goes down; a connection sets the signer, the address and the network status; a failure clears the wallet, except for an automatic connect |
| Wallet.AfterConnect | frontend_typescript/src/App.tsx:174-196 | the whole of `connectWallet`: a guarded call is a no-op; otherwise as the two halves; the session fields are untouched and the signer/address invariant is kept |
| Wallet.RepeatConnectIgnored | frontend_typescript/src/App.tsx:175 | a connect with no argument while one is in progress changes nothing |
| Wallet.ClickBypassesGuard | frontend_typescript/src/App.tsx:492-503 | a click passes its event, which is truthy, so it is never guarded, and a failed click-connect keeps the old address |
| Wallet.AfterDisconnect | frontend_typescript/src/App.tsx:198-206 | the wallet is cleared, the network status reset and the manual disconnect recorded; nothing else changes |
| Wallet.DisconnectIdempotent | frontend_typescript/src/App.tsx:198-206 | disconnecting twice is the same as disconnecting once |
| Wallet.AfterAccountsChanged | frontend_typescript/src/App.tsx:216-236 | no accounts disconnects; a different first account clears the manual flag and reconnects; the same account changes nothing |
| Wallet.AfterChainChanged | frontend_typescript/src/App.tsx:238-254 | the chain id is recorded; wrong network iff it is not the expected chain; only the expected chain reconnects, otherwise the wallet fields are unchanged |
| Wallet.AfterAutoConnect | frontend_typescript/src/App.tsx:257-264 | nothing unless all five conditions hold; then the session is marked and an automatic connect runs, which keeps the address on failure |
| Wallet.AfterInitialize | frontend_typescript/src/App.tsx:268-286 | no chain id (no provider, or the request failed) changes nothing; otherwise the chain is recorded, the wrong-network flag set, and a connect is run iff an account is selected and no address is shown |
| Wallet.InitializeIgnoresManualDisconnect | frontend_typescript/src/App.tsx:257-283 | after a manual disconnect the auto-connect branch does nothing, yet `initialize` connects and the flag stays set |
| Wallet.AfterSwitchNetwork | frontend_typescript/src/App.tsx:379-455 | nothing without a provider; otherwise the switching flag is down at the end; when the switch succeeds, or a 4902 is followed by a successful add, the wrong-network flag is cleared and a successful reconnect sets the address and network status; any other failure changes nothing else |
| Wallet.SwitchRecoveryReconnects | frontend_typescript/src/App.tsx:379-455 | when the switch recovers, the handler is a no-argument `connectWallet()` with the wrong-network flag cleared: a failed reconnect clears signer and address, a reconnect during another connect is skipped |
| Wallet.OtherCodeKeepsWrongNetwork | frontend_typescript/src/App.tsx:425 | a failure code other than the number 4902, the string "4902" included, leaves the wrong-network flag as it was |
| Wallet.AfterDismissModal | frontend_typescript/src/App.tsx:552-559 | the modal closes and nothing else changes |
| Wallet.InitialAtomicInv | frontend_typescript/src/App.tsx:116-124 | the initial state satisfies the invariant |
| Wallet.ConnectPreservesAtomicInv | frontend_typescript/src/App.tsx:174-196 | a whole connect keeps the invariant: signer and address agree, no connect or switch in progress, and a wrong-network status only with an address |
| Wallet.StepPreservesInv | frontend_typescript/src/App.tsx:174-455 | every handler, including each half of a connect, keeps signer and address in agreement |
| Wallet.SwitchPreservesAtomicInv | frontend_typescript/src/App.tsx:379-455 | the modal's switch keeps the invariant, and leaves no switch in progress |
| Wallet.StepPreservesAtomicInv | frontend_typescript/src/App.tsx:174-455 | every handler run to completion keeps the invariant |
| Wallet.RunPreservesAtomicInv | frontend_typescript/src/App.tsx:174-455 | any sequence of completed handlers keeps the invariant |
| Wallet.StepKeepsAutoConnectAttempted | frontend_typescript/src/App.tsx:257-262 | once the session is marked as auto-connected, no handler unmarks it |
| Wallet.NoAutoConnectOnceAttempted | frontend_typescript/src/App.tsx:257-262 | once the session is marked, no later auto-connect fires |
| Wallet.AutoConnectAtMostOnce | frontend_typescript/src/App.tsx:257-262 | in any run, auto-connect fires at most once |
| Wallet.FlagClearedOnlyByAccountSwitch | frontend_typescript/src/App.tsx:205-228 | only an account switch clears the manual-disconnect flag |
| Wallet.FlagSurvivesRun | frontend_typescript/src/App.tsx:205-228 | a run without account switches keeps a set manual-disconnect flag |
| Wallet.CurrentSelectedKey | frontend_typescript/src/App.tsx:157-169 | the key of the first menu pattern that matches the path, or "/" when none matches |
| Wallet.WalletManager.constructor | frontend_typescript/src/App.tsx:116-124 | the initial state, with the two session flags read from storage |
| Wallet.WalletManager.StartConnect | frontend_typescript/src/App.tsx:174-177 | the new state is `AfterStartConnect`, and it reports whether the guard let the connect proceed |
| Wallet.WalletManager.CompleteConnect | frontend_typescript/src/App.tsx:178-195 | the new state is `AfterCompleteConnect` |
| Wallet.WalletManager.ConnectWallet | frontend_typescript/src/App.tsx:174-196 | the new state is `AfterConnect` |
| Wallet.WalletManager.DisconnectWallet | frontend_typescript/src/App.tsx:198-206 | the new state is `AfterDisconnect` |
| Wallet.WalletManager.HandleAccountsChanged | frontend_typescript/src/App.tsx:216-236 | the new state is `AfterAccountsChanged` |
| Wallet.WalletManager.HandleChainChanged | frontend_typescript/src/App.tsx:238-254 | the new state is `AfterChainChanged` |
| Wallet.WalletManager.AutoConnect | frontend_typescript/src/App.tsx:257-264 | the new state is `AfterAutoConnect` |
| Wallet.WalletManager.Initialize | frontend_typescript/src/App.tsx:268-286 | the new state is `AfterInitialize` |
| Wallet.WalletManager.HandleSwitchNetworkInModal | frontend_typescript/src/App.tsx:379-455 | the new state is `AfterSwitchNetwork` |
| Wallet.WalletManager.DismissWrongNetworkModal | frontend_typescript/src/App.tsx:552-559 | the new state is `AfterDismissModal` |
| Js.OrElse | frontend_typescript/src/pages/AddFoodPage.tsx:138 | `a \|\| b` on an optional string: `a` when it is truthy (present and non-empty), otherwise `b` |
| Js.Substring | frontend_typescript/src/pages/AddFoodPage.tsx:117 | `substring(0, n)` is a prefix of at most n characters, exactly n when the string is that long |
| AddFood.MatchesIdChars | frontend_typescript/src/pages/AddFoodPage.tsx:231 | the string matches `[a-zA-Z0-9-_]*` iff every character is a letter, a digit, `-` or `_` |
| AddFood.IsValidProductId | frontend_typescript/src/pages/AddFoodPage.tsx:231 | the id is valid iff it is non-empty and every character is in the id class |
| AddFood.ValidIdIsOnePathSegment | frontend_typescript/src/pages/AddFoodPage.tsx:231 | a valid id is ASCII and has no `/` and no space, so it fills one URL path segment |
| AddFood.BuildMetadata | frontend_typescript/src/pages/AddFoodPage.tsx:92-95 | the metadata keeps every form value and replaces the date by its ISO string, or "" when there is no date |
| AddFood.MetadataDependsOnDateOnlyThroughIso | frontend_typescript/src/pages/AddFoodPage.tsx:92-95 | two dates with the same ISO string give the same metadata, and so the same hash |
| AddFood.PickedText | frontend_typescript/src/pages/AddFoodPage.tsx:158-162 | the first truthy error field in the order RPC message, reason, data message, nested error message, message, each with its prefix |
| AddFood.DisplayMessage | frontend_typescript/src/pages/AddFoodPage.tsx:150-166 | a user rejection (code 4001 at either place) overrides everything; otherwise the picked text or the unknown-error text; a thrown string is shown as it is |
| AddFood.RejectionOverridesText | frontend_typescript/src/pages/AddFoodPage.tsx:163 | the numeric code 4001, at the top or in the RPC error, gives the rejection message whatever the other fields say; the string "4001" does not |
| AddFood.RpcTextFirst | frontend_typescript/src/pages/AddFoodPage.tsx:158-162 | with no rejection, the RPC message decides the text, which carries the RPC prefix |
| AddFood.OwnErrorShowsItsText | frontend_typescript/src/pages/AddFoodPage.tsx:112-162 | an `Error` thrown by the page shows its own message, or the unknown-error text when the message is empty |
| AddFood.BackendFailureText | frontend_typescript/src/pages/AddFoodPage.tsx:137-139 | the backend's message when it is truthy, otherwise the status-code text |
| AddFood.Submit | frontend_typescript/src/pages/AddFoodPage.tsx:97-168 | `addRecord` is called with the id and the metadata's hash; the backend is posted to iff the receipt's status is not 0, with the same id, metadata and hash and the receipt's hash; success iff the backend answered ok, which alone resets the form; every failure text starts with "处理失败: " and names its cause |
| AddFood.OnChainHashMatchesPayload | frontend_typescript/src/pages/AddFoodPage.tsx:99-125 | the hash posted to the backend is the one recorded on chain |
| AddFood.AfterOnFinish | frontend_typescript/src/pages/AddFoodPage.tsx:81-172 | without a signer or contract nothing changes; otherwise the submission's status and message are stored, the form reset on success only, and loading is off |
| AddFood.AfterConnect | frontend_typescript/src/pages/AddFoodPage.tsx:56-72 | the status is reset and loading is off; a connection sets signer, address and contract; a failure leaves them as they were |
| AddFood.AfterDisconnectLink | frontend_typescript/src/pages/AddFoodPage.tsx:207 | the wallet, the contract, the status and the form are cleared |
| AddFood.NoSubmissionAfterDisconnect | frontend_typescript/src/pages/AddFoodPage.tsx:82-85 | after the disconnect link, submitting changes nothing |
| AddFood.SubmissionAfterConnect | frontend_typescript/src/pages/AddFoodPage.tsx:56-172 | after a successful connect, a submission runs and ends in success or failure |
| AddFood.AddFoodPage.constructor | frontend_typescript/src/pages/AddFoodPage.tsx:47-55 | no wallet, not loading, status idle, blank form |
| AddFood.AddFoodPage.ConnectWallet | frontend_typescript/src/pages/AddFoodPage.tsx:56-72 | the new state is the page's `AfterConnect` |
| AddFood.AddFoodPage.OnFinish | frontend_typescript/src/pages/AddFoodPage.tsx:81-172 | the new state is `AfterOnFinish`, and it returns the contract call and the payload that were issued |
| AddFood.AddFoodPage.DisconnectLink | frontend_typescript/src/pages/AddFoodPage.tsx:207 | the new state is `AfterDisconnectLink` |
| Search.TrimStart | frontend_typescript/src/pages/SearchPage.tsx:13 | a suffix of the input, everything dropped is whitespace, and it does not begin with whitespace |
| Search.TrimEnd | frontend_typescript/src/pages/SearchPage.tsx:13 | a prefix of the input, everything dropped is whitespace, and it does not end with whitespace |
| Search.Trim | frontend_typescript/src/pages/SearchPage.tsx:13 | the result neither begins nor ends with whitespace |
| Search.TrimIsPieceOfInput | frontend_typescript/src/pages/SearchPage.tsx:13 | the result is a contiguous piece of the input, and everything around it is whitespace |
| Search.TrimEmptyIffBlank | frontend_typescript/src/pages/SearchPage.tsx:13-18 | the trimmed term is empty iff the input is all whitespace |
| Search.TrimIdempotent | frontend_typescript/src/pages/SearchPage.tsx:13 | trimming twice is trimming once |
| Search.FoundMessage | frontend_typescript/src/pages/SearchPage.tsx:30 | the found message names the term |
| Search.NotFoundMessage | frontend_typescript/src/pages/SearchPage.tsx:37 | the not-found message starts with "未找到" and names the term |
| Search.ServerFailureText | frontend_typescript/src/pages/SearchPage.tsx:40-41 | the server's message when it is truthy, otherwise the status text |
| Search.CaughtMessage | frontend_typescript/src/pages/SearchPage.tsx:45-49 | an `Error` gives "错误: " and its message; anything else gives the unknown-error text |
| Search.AfterSearchOutcomes | frontend_typescript/src/pages/SearchPage.tsx:11-53 | a blank term only sets the prompt; otherwise the trimmed term is requested and, by outcome, navigation to its page, the 404 message, or the error message; loading is off at the end |
| Search.MessageColours | frontend_typescript/src/pages/SearchPage.tsx:74 | for a valid id, the not-found and error messages are red, and the prompt and the found message are green |
| Search.UnknownErrorShownGreen | frontend_typescript/src/pages/SearchPage.tsx:48-74 | the unknown-error message is shown in green |
| Search.RequestPathUnencoded | frontend_typescript/src/pages/SearchPage.tsx:25 | the request path is the API prefix followed by the trimmed term, not encoded |
| Search.SearchPage.constructor | frontend_typescript/src/pages/SearchPage.tsx:6-9 | empty term, not loading, no message |
| Search.SearchPage.SetSearchTerm | frontend_typescript/src/pages/SearchPage.tsx:63 | only the term changes |
| Search.SearchPage.HandleSearch | frontend_typescript/src/pages/SearchPage.tsx:11-53 | the new state is `AfterSearch`, whose outcomes `Search.AfterSearchOutcomes` states |

## Left out

- I/O, logging (`println!`, `console.log`) and React rendering: not behaviour of the core.
  Toasts (`antdMessage`), the menu's navigation and the layout are also left out.
- Concurrency: each handler runs with nothing interleaved during its awaits. Stale closures
  in `useCallback`/`useEffect`, and the re-registration of the provider listeners, are not
  modelled. `Wallet.StartConnect` and `Wallet.CompleteConnect` expose the two halves of a
  connect so that a caller can interleave other events between them.
- Db.GetFoodRecordsListDb: the `COUNT(*)` and the page query are read from the same table.
  A row inserted between the two statements is not modelled.
- Db.CeilDiv: `f64` division and `ceil` are replaced by exact integer ceiling division.
  They agree while the count is below 2^53.
- Db.GetFoodRecordsListDb: requires that the offset `(page - 1) * page_size` fits an `i64`.
  `db.rs` does not check this, and its overflow (a panic in debug builds, wrap-around in
  release builds) is not modelled.
- The sqlx error is abstract: its `Display` text and its unique-violation flag are fields.
- JSON values are a small datatype with integer numbers. Floating point is not modelled.
- `ORDER BY created_at DESC` is taken as the order of the input rows.
- `utils/blockchain.ts` is not part of this model. Its `getProviderAndSigner` is a
  parameter, and whether it reports `isExpectedNetwork` is a field of the connection. The
  version in the repository declares no such field, so `App.tsx` would store `undefined`
  as the network status. The model does not capture that.
- `matchPath` (react-router) and `calculateMetadataHash` (ethers keccak256 over JSON) are
  function parameters.
- AddFood.Submit: a `null` receipt from `tx.wait()` is not modelled. The source would throw
  a `TypeError` there.
- The form's own validation (AntD `rules`, the required name, `onFinishFailed`) is not run.
  The id rule is modelled as `AddFood.IsValidProductId`, but `onFinish` is not made to
  require it.
- The mount effect of `AddFoodPage.tsx` (lines 75-80) that auto-connects when MetaMask has a
  selected address: not a separate member. It is one call of `AddFood.AddFoodPage.ConnectWallet`.
- Search.AfterSearch: the 1.5-second `setTimeout` before navigation is collapsed.
  Navigation is recorded at once.
- Server bootstrap (`main()`, `AppState`, the pool, CORS), `health_check.rs`, `main.tsx`,
  `HomePage.tsx` and `FoodDetailPage.tsx`: outside the core. The records of `models.rs` are
  plain datatypes.
- The commented-out copies of the handlers at the end of `handlers/food_records.rs`, and the
  commented-out effects of `App.tsx`: not code.
