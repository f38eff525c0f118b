/** The product entry page (frontend_typescript/src/pages/AddFoodPage.tsx): the product id
    rule, the metadata built from the form, the choice of the error text shown after a failed
    submission, and the page's own wallet connection and submission status.

    The wallet, the contract call, the receipt and the backend reply are parameters of the
    submission; `calculateMetadataHash` is the parameter `hash`. */
module AddFood {
  import opened Wrappers
  import opened Text
  import opened Js
  import Wallet

  // ---------------------------------------------------------------------------------------
  // The product id rule: /^[a-zA-Z0-9-_]+$/

  /** One character of the class `[a-zA-Z0-9-_]` (the `-` after a range is a literal). */
  predicate IsIdChar(c: char) {
    ('a' <= c <= 'z') || ('A' <= c <= 'Z') || ('0' <= c <= '9') || c == '-' || c == '_'
  }

  /** `[a-zA-Z0-9-_]*` matched against the whole of `s`. */
  function MatchesIdChars(s: string): (ok: bool)
    ensures ok <==> forall k :: 0 <= k < |s| ==> IsIdChar(s[k])
    decreases |s|
  {
    if s == [] then true
    else IsIdChar(s[0]) && MatchesIdChars(s[1..])
  }

  /** The form rule on `productId`: required, and `^[a-zA-Z0-9-_]+$`. */
  function IsValidProductId(id: string): (ok: bool)
    ensures ok <==> |id| > 0 && forall k :: 0 <= k < |id| ==> IsIdChar(id[k])
  {
    |id| > 0 && MatchesIdChars(id)
  }

  /** A valid product id contains no path separator and no whitespace, so it fills exactly
      one URL path segment, and it is plain ASCII. */
  lemma ValidIdIsOnePathSegment(id: string)
    requires IsValidProductId(id)
    ensures forall k :: 0 <= k < |id| ==> id[k] != '/' && id[k] != ' ' && id[k] < 128 as char
    ensures !Contains(id, "/")
  {
    AbsentCharNotContained(id, "/");
  }

  // ---------------------------------------------------------------------------------------
  // Metadata

  /** The `Dayjs` date picked in the form, through its `toISOString()`. */
  datatype Date = Date(isoString: string)

  /** `FoodFormAntdData`: the validated form values. */
  datatype FormValues = FormValues(
    productId: string,
    productName: string,
    producerInfo: Option<string>,
    productionDate: Option<Date>,
    origin: Option<string>)

  /** A form after `resetFields()`: no field holds a value. After a reset AntD leaves the two
      required text fields `undefined`; they are written `""` here, since the form only reaches
      `onFinish` again after the required-field rules have refilled them. */
  const BlankForm: FormValues := FormValues("", "", None, None, None)

  /** `FoodMetadata`: what is hashed and sent to the backend. */
  datatype FoodMetadata = FoodMetadata(
    productId: string,
    productName: string,
    producerInfo: Option<string>,
    productionDate: string,
    origin: Option<string>)

  /** `{ ...values, productionDate: values.productionDate ? values.productionDate.toISOString() : '' }`. */
  function BuildMetadata(values: FormValues): (m: FoodMetadata)
    ensures m.productId == values.productId && m.productName == values.productName
    ensures m.producerInfo == values.producerInfo && m.origin == values.origin
    ensures values.productionDate.Some? ==> m.productionDate == values.productionDate.value.isoString
    ensures values.productionDate.None? ==> m.productionDate == ""
  {
    FoodMetadata(values.productId, values.productName, values.producerInfo,
      if values.productionDate.Some? then values.productionDate.value.isoString else "",
      values.origin)
  }

  /** Metadata built from two forms that differ only in the date agree everywhere but the date. */
  lemma MetadataDependsOnDateOnlyThroughIso(values: FormValues, d1: Date, d2: Date)
    requires d1.isoString == d2.isoString
    ensures BuildMetadata(values.(productionDate := Some(d1))) == BuildMetadata(values.(productionDate := Some(d2)))
  {
  }

  // ---------------------------------------------------------------------------------------
  // The error text of a failed submission

  /** The fields of a thrown object that the message choice reads. `info.error` and
      `error` are the nested RPC errors ethers attaches. */
  datatype ErrorFields = ErrorFields(
    message: Option<string>,
    dataMessage: Option<string>,
    reason: Option<string>,
    code: JsCode,
    errorMessage: Option<string>,
    infoErrorMessage: Option<string>,
    infoErrorCode: JsCode)

  /** What the `catch` receives: an object (not `null`), a string, or anything else. */
  datatype Thrown = ObjectThrown(fields: ErrorFields) | StringThrown(text: string) | OtherThrown

  /** `new Error(msg)`. */
  function ErrorOf(msg: string): Thrown {
    ObjectThrown(ErrorFields(Some(msg), None, None, NoCode, None, None, NoCode))
  }

  const UnknownErrorMessage: string := "发生未知错误，请查看控制台。"
  const UserRejectedMessage: string := "用户拒绝了钱包请求。"
  const UserRejectedCode: int := 4001

  /** The wallet reported that the user rejected the request, at top level or in `info.error`. */
  predicate UserRejected(f: ErrorFields) {
    CodeIs(f.code, UserRejectedCode) || CodeIs(f.infoErrorCode, UserRejectedCode)
  }

  /** The text picked from the first truthy field, in the order `info.error.message`,
      `reason`, `data.message`, `error.message`, `message`; `None` when no field is truthy. */
  function PickedText(f: ErrorFields): (r: Option<string>)
    ensures Truthy(f.infoErrorMessage) ==> r == Some("RPC 错误: " + f.infoErrorMessage.value)
    ensures !Truthy(f.infoErrorMessage) && Truthy(f.reason) ==> r == Some("合约调用错误: " + f.reason.value)
    ensures !Truthy(f.infoErrorMessage) && !Truthy(f.reason) && Truthy(f.dataMessage) ==>
      r == Some("Metamask 错误: " + f.dataMessage.value)
    ensures !Truthy(f.infoErrorMessage) && !Truthy(f.reason) && !Truthy(f.dataMessage) && Truthy(f.errorMessage) ==>
      r == Some("错误: " + f.errorMessage.value)
    ensures !Truthy(f.infoErrorMessage) && !Truthy(f.reason) && !Truthy(f.dataMessage) && !Truthy(f.errorMessage) ==>
      r == (if Truthy(f.message) then f.message else None)
  {
    if Truthy(f.infoErrorMessage) then Some("RPC 错误: " + f.infoErrorMessage.value)
    else if Truthy(f.reason) then Some("合约调用错误: " + f.reason.value)
    else if Truthy(f.dataMessage) then Some("Metamask 错误: " + f.dataMessage.value)
    else if Truthy(f.errorMessage) then Some("错误: " + f.errorMessage.value)
    else if Truthy(f.message) then f.message
    else None
  }

  /** `displayMessage` at the end of the `catch` block. */
  function DisplayMessage(err: Thrown): (m: string)
    ensures err.ObjectThrown? && UserRejected(err.fields) ==> m == UserRejectedMessage
    ensures err.ObjectThrown? && !UserRejected(err.fields) ==> m == PickedText(err.fields).GetOr(UnknownErrorMessage)
    ensures err.StringThrown? ==> m == err.text
    ensures err.OtherThrown? ==> m == UnknownErrorMessage
  {
    match err
    case ObjectThrown(f) =>
      var picked := PickedText(f).GetOr(UnknownErrorMessage);
      if UserRejected(f) then UserRejectedMessage else picked
    case StringThrown(s) => s
    case OtherThrown => UnknownErrorMessage
  }

  /** A rejection code overrides every text field: two rejected errors show the same text,
      whatever else they carry. A code given as the string "4001" does not count. */
  lemma RejectionOverridesText(f1: ErrorFields, f2: ErrorFields)
    requires CodeIs(f1.code, UserRejectedCode) && CodeIs(f2.infoErrorCode, UserRejectedCode)
    ensures DisplayMessage(ObjectThrown(f1)) == DisplayMessage(ObjectThrown(f2)) == UserRejectedMessage
    ensures DisplayMessage(ObjectThrown(f1.(code := StrCode("4001"), infoErrorCode := NoCode))) ==
      PickedText(f1).GetOr(UnknownErrorMessage)
  {
  }

  /** The RPC text wins over every later field. */
  lemma RpcTextFirst(f: ErrorFields, g: ErrorFields)
    requires !UserRejected(f) && !UserRejected(g)
    requires Truthy(f.infoErrorMessage) && g.infoErrorMessage == f.infoErrorMessage
    ensures DisplayMessage(ObjectThrown(f)) == DisplayMessage(ObjectThrown(g))
    ensures StartsWith(DisplayMessage(ObjectThrown(f)), "RPC 错误: ")
  {
  }

  /** An `Error` made by the page itself shows its own text, unless that text is empty. */
  lemma OwnErrorShowsItsText(msg: string)
    ensures msg != "" ==> DisplayMessage(ErrorOf(msg)) == msg
    ensures msg == "" ==> DisplayMessage(ErrorOf(msg)) == UnknownErrorMessage
  {
  }

  // ---------------------------------------------------------------------------------------
  // Submission

  /** The contract instance bound to a signer by `getFoodTraceabilityContract`. */
  datatype Contract = Contract(signer: Wallet.Signer)

  /** `submissionStatus`. */
  datatype SubmissionStatus = Idle | Processing | Success | Failed

  /** What `tx.wait()` resolved to: its `status` (a number, or null while unknown) and hash. */
  datatype Receipt = Receipt(status: Option<int>, hash: string)

  /** The backend's reply: `response.ok`, `response.status` and `responseData.message`. */
  datatype BackendReply = BackendReply(ok: bool, status: nat, message: Option<string>)

  /** The body of `POST /api/food-records`. */
  datatype BackendPayload = BackendPayload(
    productId: string,
    metadata: FoodMetadata,
    metadataHashOnChain: string,
    transactionHash: string)

  const ChainFailureMessage: string := "区块链交易执行失败，请检查交易详情或余额。"
  const FailurePrefix: string := "处理失败: "
  const SuccessPrefix: string := "数据成功录入并持久化！产品ID: "

  /** `responseData.message || \`后端请求失败，状态码: ${response.status}\``. */
  function BackendFailureText(reply: BackendReply): (m: string)
    ensures Truthy(reply.message) ==> m == reply.message.value
    ensures !Truthy(reply.message) ==> m == "后端请求失败，状态码: " + NatToString(reply.status)
  {
    OrElse(reply.message, "后端请求失败，状态码: " + NatToString(reply.status))
  }

  /** How a submission ends, past the connection check: the final status and text, whether the
      form is reset, and what was sent to the contract and to the backend. */
  datatype Submission = Submission(
    status: SubmissionStatus,
    statusMessage: string,
    resetForm: bool,
    addRecordCall: Option<(string, string)>,
    payload: Option<BackendPayload>)

  /** The `try` / `catch` of `onFinish`. `chain` is what `contract.addRecord(...)` followed
      by `tx.wait()` produced; `backend` is what `fetch` followed by `response.json()`
      produced, consulted only when the transaction succeeded. */
  function Submit(values: FormValues, hash: FoodMetadata -> string,
                  chain: Result<Receipt, Thrown>, backend: Result<BackendReply, Thrown>)
    : (r: Submission)
    ensures r.status == Success || r.status == Failed
    ensures r.resetForm <==> r.status == Success
    ensures r.addRecordCall == Some((values.productId, hash(BuildMetadata(values))))
    ensures r.payload.Some? <==> chain.Ok? && chain.value.status != Some(0)
    ensures r.payload.Some? ==>
      && r.payload.value.productId == values.productId
      && r.payload.value.metadata == BuildMetadata(values)
      && r.payload.value.metadataHashOnChain == r.addRecordCall.value.1
      && r.payload.value.transactionHash == chain.value.hash
    ensures r.status == Success <==>
      chain.Ok? && chain.value.status != Some(0) && backend.Ok? && backend.value.ok
    ensures r.status == Success ==>
      r.statusMessage == SuccessPrefix + values.productId + ". " + OrElse(backend.value.message, "")
    ensures r.status == Failed ==> StartsWith(r.statusMessage, FailurePrefix)
    ensures chain.Err? ==> r.statusMessage == FailurePrefix + DisplayMessage(chain.error)
    ensures chain.Ok? && chain.value.status == Some(0) ==> r.statusMessage == FailurePrefix + ChainFailureMessage
    ensures r.payload.Some? && backend.Err? ==> r.statusMessage == FailurePrefix + DisplayMessage(backend.error)
    ensures r.payload.Some? && backend.Ok? && !backend.value.ok ==>
      r.statusMessage == FailurePrefix + BackendFailureText(backend.value)
  {
    var metadata := BuildMetadata(values);
    var metadataHash := hash(metadata);
    var call := Some((metadata.productId, metadataHash));
    match chain
    case Err(e) => Submission(Failed, FailurePrefix + DisplayMessage(e), false, call, None)
    case Ok(receipt) =>
      if receipt.status == Some(0) then
        Submission(Failed, FailurePrefix + DisplayMessage(ErrorOf(ChainFailureMessage)), false, call, None)
      else
        var payload := BackendPayload(metadata.productId, metadata, metadataHash, receipt.hash);
        match backend
        case Err(e) => Submission(Failed, FailurePrefix + DisplayMessage(e), false, call, Some(payload))
        case Ok(reply) =>
          if !reply.ok then
            Submission(Failed, FailurePrefix + DisplayMessage(ErrorOf(BackendFailureText(reply))), false, call, Some(payload))
          else
            Submission(Success, SuccessPrefix + metadata.productId + ". " + OrElse(reply.message, ""), true, call, Some(payload))
  }

  /** The hash put on chain is the hash of exactly the metadata the backend receives, so the
      backend can recompute and compare it. */
  lemma OnChainHashMatchesPayload(values: FormValues, hash: FoodMetadata -> string,
                                  chain: Result<Receipt, Thrown>, backend: Result<BackendReply, Thrown>)
    ensures var r := Submit(values, hash, chain, backend);
      r.payload.Some? ==>
        && r.payload.value.metadataHashOnChain == hash(r.payload.value.metadata)
        && r.payload.value.productId == r.payload.value.metadata.productId
        && r.addRecordCall.value.0 == r.payload.value.productId
  {
  }

  /** The page state. */
  datatype PageState = PageState(
    signer: Option<Wallet.Signer>,
    signerAddress: Option<string>,
    contract: Option<Contract>,
    isLoading: bool,
    submissionStatus: SubmissionStatus,
    statusMessage: string,
    form: FormValues)

  /** `onFinish(values)`: without a signer or contract nothing changes (only a toast is shown);
      otherwise the submission runs and `isLoading` is down again at the end. */
  function AfterOnFinish(s: PageState, values: FormValues, hash: FoodMetadata -> string,
                         chain: Result<Receipt, Thrown>, backend: Result<BackendReply, Thrown>)
    : (t: PageState)
    ensures s.signer.None? || s.contract.None? ==> t == s
    ensures s.signer.Some? && s.contract.Some? ==>
      var r := Submit(values, hash, chain, backend);
      && !t.isLoading
      && t.submissionStatus == r.status && t.statusMessage == r.statusMessage
      && t.form == (if r.resetForm then BlankForm else s.form)
      && t.signer == s.signer && t.signerAddress == s.signerAddress && t.contract == s.contract
  {
    if s.signer.None? || s.contract.None? then s
    else
      var r := Submit(values, hash, chain, backend);
      s.(isLoading := false, submissionStatus := r.status, statusMessage := r.statusMessage,
         form := if r.resetForm then BlankForm else s.form)
  }

  /** The page's `connectWallet`: status cleared, then on success the signer, its address and a
      contract bound to that signer; a failure keeps the previous wallet. */
  function AfterConnect(s: PageState, result: Option<Wallet.Connection>): (t: PageState)
    ensures !t.isLoading && t.submissionStatus == Idle && t.statusMessage == ""
    ensures result.Some? ==>
      && t.signerAddress == Some(result.value.signerAddress)
      && t.signer == Some(Wallet.Signer(result.value.signerAddress))
      && t.contract == Some(Contract(t.signer.value))
    ensures result.None? ==> t.signer == s.signer && t.signerAddress == s.signerAddress && t.contract == s.contract
    ensures t.form == s.form
  {
    var s' := s.(submissionStatus := Idle, statusMessage := "");
    var s'' := match result
      case Some(c) =>
        var signer := Wallet.Signer(c.signerAddress);
        s'.(signer := Some(signer), signerAddress := Some(c.signerAddress), contract := Some(Contract(signer)))
      case None => s';
    s''.(isLoading := false)
  }

  /** The "disconnect" link: wallet, contract, status and form all cleared. */
  function AfterDisconnectLink(s: PageState): (t: PageState)
    ensures t.signer.None? && t.signerAddress.None? && t.contract.None?
    ensures t.submissionStatus == Idle && t.statusMessage == "" && t.form == BlankForm
    ensures t.isLoading == s.isLoading
  {
    s.(signer := None, signerAddress := None, contract := None, submissionStatus := Idle,
       statusMessage := "", form := BlankForm)
  }

  /** After a disconnect a submission is refused until the wallet is connected again. */
  lemma NoSubmissionAfterDisconnect(s: PageState, values: FormValues, hash: FoodMetadata -> string,
                                    chain: Result<Receipt, Thrown>, backend: Result<BackendReply, Thrown>)
    ensures var t := AfterDisconnectLink(s);
      AfterOnFinish(t, values, hash, chain, backend) == t
  {
  }

  /** After a successful connect a submission goes through and ends in success or failure. */
  lemma SubmissionAfterConnect(s: PageState, c: Wallet.Connection, values: FormValues,
                               hash: FoodMetadata -> string,
                               chain: Result<Receipt, Thrown>, backend: Result<BackendReply, Thrown>)
    ensures var t := AfterOnFinish(AfterConnect(s, Some(c)), values, hash, chain, backend);
      (t.submissionStatus == Success || t.submissionStatus == Failed) && !t.isLoading
  {
  }

  /** The component's state, updated in place by its handlers. */
  class AddFoodPage {
    var signer: Option<Wallet.Signer>
    var signerAddress: Option<string>
    var contract: Option<Contract>
    var isLoading: bool
    var submissionStatus: SubmissionStatus
    var statusMessage: string
    var form: FormValues

    function Snapshot(): PageState
      reads this
    {
      PageState(signer, signerAddress, contract, isLoading, submissionStatus, statusMessage, form)
    }

    constructor ()
      ensures Snapshot() == PageState(None, None, None, false, Idle, "", BlankForm)
    {
      signer := None;
      signerAddress := None;
      contract := None;
      isLoading := false;
      submissionStatus := Idle;
      statusMessage := "";
      form := BlankForm;
    }

    method ConnectWallet(result: Option<Wallet.Connection>)
      modifies this
      ensures Snapshot() == AfterConnect(old(Snapshot()), result)
    {
      isLoading := true;
      submissionStatus := Idle;
      statusMessage := "";
      if result.Some? {
        var s := Wallet.Signer(result.value.signerAddress);
        signer := Some(s);
        signerAddress := Some(result.value.signerAddress);
        contract := Some(Contract(s));
      }
      isLoading := false;
    }

    /** `onFinish`. Returns the arguments given to `addRecord` and the body posted to the
        backend, when those calls were made. `values` is what AntD passes after validation; it
        is not read back from the `form` field, which this method only resets. */
    method OnFinish(values: FormValues, hash: FoodMetadata -> string,
                    chain: Result<Receipt, Thrown>, backend: Result<BackendReply, Thrown>)
      returns (addRecordCall: Option<(string, string)>, payload: Option<BackendPayload>)
      modifies this
      ensures Snapshot() == AfterOnFinish(old(Snapshot()), values, hash, chain, backend)
      ensures old(signer).Some? && old(contract).Some? ==>
        addRecordCall == Submit(values, hash, chain, backend).addRecordCall &&
        payload == Submit(values, hash, chain, backend).payload
      ensures old(signer).None? || old(contract).None? ==> addRecordCall.None? && payload.None?
    {
      addRecordCall, payload := None, None;
      if signer.None? || contract.None? {
        return;
      }
      isLoading := true;
      submissionStatus := Processing;
      statusMessage := "正在处理提交...";
      var metadata := BuildMetadata(values);
      var thrown: Option<Thrown> := None;

      var metadataHash := hash(metadata);
      statusMessage := "哈希计算完成，正在请求 Metamask 授权交易...";
      addRecordCall := Some((metadata.productId, metadataHash));
      match chain {
        case Err(e) =>
          thrown := Some(e);
        case Ok(receipt) =>
          statusMessage := "交易已发送，等待区块链确认...";
          if receipt.status == Some(0) {
            thrown := Some(ErrorOf(ChainFailureMessage));
          } else {
            statusMessage := "数据哈希已成功上链！交易哈希: " + Substring(receipt.hash, 10) + "...";
            payload := Some(BackendPayload(metadata.productId, metadata, metadataHash, receipt.hash));
            match backend {
              case Err(e) =>
                thrown := Some(e);
              case Ok(reply) =>
                if !reply.ok {
                  thrown := Some(ErrorOf(BackendFailureText(reply)));
                } else {
                  submissionStatus := Success;
                  statusMessage := SuccessPrefix + metadata.productId + ". " + OrElse(reply.message, "");
                  form := BlankForm;
                }
            }
          }
      }
      if thrown.Some? {
        submissionStatus := Failed;
        statusMessage := FailurePrefix + DisplayMessage(thrown.value);
      }
      isLoading := false;
    }

    /** The "disconnect" link's handler. */
    method DisconnectLink()
      modifies this
      ensures Snapshot() == AfterDisconnectLink(old(Snapshot()))
    {
      signer := None;
      signerAddress := None;
      contract := None;
      submissionStatus := Idle;
      statusMessage := "";
      form := BlankForm;
    }
  }
}
