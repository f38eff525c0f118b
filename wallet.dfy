/** The wallet connection state of the application shell (frontend_typescript/src/App.tsx).

    The state is the component's wallet fields plus the two persisted flags
    (`localStorage.userDisconnectedManually`, `sessionStorage.autoConnectAttempted`). Each
    handler is one atomic step over the current state; what the wallet and the RPC answer
    (the result of `getProviderAndSigner`, the outcome of `wallet_switchEthereumChain` and
    `wallet_addEthereumChain`, `eth_chainId`, `selectedAddress`) is a parameter of the step.

    `connectWallet` awaits `getProviderAndSigner` between its guard and its result, so it is
    also available as two steps, `StartConnect` and `CompleteConnect`, with other steps
    allowed in between. */
module Wallet {
  import opened Wrappers
  import opened Js

  /** `EXPECTED_CHAIN_ID`: the Hardhat local network. */
  const ExpectedChainId: string := "0x539"

  /** The error code MetaMask returns for a chain it does not know. */
  const UnknownChainCode: int := 4902

  /** A signer handle; it signs for one address. */
  datatype Signer = Signer(address: string)

  /** What `getProviderAndSigner` resolves to when it succeeds. */
  datatype Connection = Connection(signerAddress: string, isExpectedNetwork: bool)

  /** What `connectWallet` receives as `isAutoConnect`: nothing (the default `false`), an
      explicit boolean, or the click event a button's `onClick={connectWallet}` passes. */
  datatype ConnectArg = NoArgument | Flag(b: bool) | ClickEvent

  /** `isAutoConnect` used as a condition: the click event is an object, hence truthy. */
  predicate IsAutoConnect(arg: ConnectArg) {
    match arg
    case NoArgument => false
    case Flag(b) => b
    case ClickEvent => true
  }

  /** The wallet fields of `App` and the two persisted flags. */
  datatype State = State(
    signer: Option<Signer>,
    address: Option<string>,
    isNetworkCorrect: bool,
    isConnectingWallet: bool,
    isWrongNetwork: bool,
    currentChainId: Option<string>,
    isSwitchingNetwork: bool,
    userDisconnectedManually: bool,
    autoConnectAttempted: bool)

  /** The state on mount: no wallet, network assumed correct, nothing in progress; the
      persisted flags are whatever storage holds. */
  function Initial(userDisconnectedManually: bool, autoConnectAttempted: bool): State {
    State(None, None, true, false, false, None, false, userDisconnectedManually, autoConnectAttempted)
  }

  /** The fields `connectWallet` never writes are the same in `s` and `t`. */
  predicate ConnectUntouched(s: State, t: State) {
    && t.isWrongNetwork == s.isWrongNetwork
    && t.currentChainId == s.currentChainId
    && t.isSwitchingNetwork == s.isSwitchingNetwork
    && t.userDisconnectedManually == s.userDisconnectedManually
    && t.autoConnectAttempted == s.autoConnectAttempted
  }

  // ---------------------------------------------------------------------------------------
  // connectWallet

  /** `if (isConnectingWallet && !isAutoConnect) return;` */
  predicate Guarded(s: State, arg: ConnectArg) {
    s.isConnectingWallet && !IsAutoConnect(arg)
  }

  /** The part of `connectWallet` before the await: the guard, then the connect-in-progress
      flag raised and the network status reset. */
  function AfterStartConnect(s: State, arg: ConnectArg): (t: State)
    ensures Guarded(s, arg) ==> t == s
    ensures !Guarded(s, arg) ==> t.isConnectingWallet && t.isNetworkCorrect
    ensures t.signer == s.signer && t.address == s.address
    ensures ConnectUntouched(s, t)
    ensures Inv(s) ==> Inv(t)
  {
    if Guarded(s, arg) then s
    else s.(isConnectingWallet := true, isNetworkCorrect := true)
  }

  /** The part of `connectWallet` after `getProviderAndSigner` has answered `result`. */
  function AfterCompleteConnect(s: State, arg: ConnectArg, result: Option<Connection>): (t: State)
    ensures !t.isConnectingWallet
    ensures result.Some? ==>
      && t.signer == Some(Signer(result.value.signerAddress))
      && t.address == Some(result.value.signerAddress)
      && t.isNetworkCorrect == result.value.isExpectedNetwork
    ensures result.None? && !IsAutoConnect(arg) ==> t.signer.None? && t.address.None?
    ensures result.None? && IsAutoConnect(arg) ==> t.signer == s.signer && t.address == s.address
    ensures result.None? ==> t.isNetworkCorrect == s.isNetworkCorrect
    ensures ConnectUntouched(s, t)
    ensures Inv(s) ==> Inv(t)
  {
    var t := match result
      case Some(c) =>
        s.(signer := Some(Signer(c.signerAddress)), address := Some(c.signerAddress),
           isNetworkCorrect := c.isExpectedNetwork)
      case None =>
        if IsAutoConnect(arg) then s else s.(signer := None, address := None);
    t.(isConnectingWallet := false)
  }

  /** `connectWallet(arg)` with nothing happening during its await. */
  function AfterConnect(s: State, arg: ConnectArg, result: Option<Connection>): (t: State)
    ensures Guarded(s, arg) ==> t == s
    ensures !Guarded(s, arg) ==> !t.isConnectingWallet
    ensures !Guarded(s, arg) && result.Some? ==>
      && t.signer == Some(Signer(result.value.signerAddress))
      && t.address == Some(result.value.signerAddress)
      && t.isNetworkCorrect == result.value.isExpectedNetwork
    ensures !Guarded(s, arg) && result.None? ==> t.isNetworkCorrect
    ensures !Guarded(s, arg) && result.None? && !IsAutoConnect(arg) ==> t.signer.None? && t.address.None?
    ensures !Guarded(s, arg) && result.None? && IsAutoConnect(arg) ==> t.signer == s.signer && t.address == s.address
    ensures ConnectUntouched(s, t)
    ensures Inv(s) ==> Inv(t)
  {
    if Guarded(s, arg) then s
    else AfterCompleteConnect(AfterStartConnect(s, arg), arg, result)
  }

  /** Called with no argument while a connect is in progress, `connectWallet` does nothing. */
  lemma RepeatConnectIgnored(s: State, result: Option<Connection>)
    requires s.isConnectingWallet
    ensures AfterStartConnect(s, NoArgument) == s
    ensures AfterConnect(s, NoArgument, result) == s
  {
  }

  /** A button click passes its event as `isAutoConnect`, so a click starts a second connect
      even while one is in progress, and a failed click-connect keeps the old address like an
      automatic one would. */
  lemma ClickBypassesGuard(s: State)
    requires s.isConnectingWallet
    ensures !Guarded(s, ClickEvent)
    ensures AfterStartConnect(s, ClickEvent) == s.(isNetworkCorrect := true)
    ensures AfterConnect(s, ClickEvent, None).address == s.address
  {
  }

  // ---------------------------------------------------------------------------------------
  // disconnectWallet

  /** `disconnectWallet`: the wallet is forgotten, the network status reset, and the manual
      disconnect recorded. */
  function AfterDisconnect(s: State): (t: State)
    ensures t.signer.None? && t.address.None? && t.isNetworkCorrect && t.userDisconnectedManually
    ensures t.isConnectingWallet == s.isConnectingWallet
    ensures t.isWrongNetwork == s.isWrongNetwork && t.currentChainId == s.currentChainId
    ensures t.isSwitchingNetwork == s.isSwitchingNetwork
    ensures t.autoConnectAttempted == s.autoConnectAttempted
    ensures Inv(s) ==> Inv(t)
  {
    s.(signer := None, address := None, isNetworkCorrect := true, userDisconnectedManually := true)
  }

  lemma DisconnectIdempotent(s: State)
    ensures AfterDisconnect(AfterDisconnect(s)) == AfterDisconnect(s)
  {
  }

  // ---------------------------------------------------------------------------------------
  // Wallet events

  /** `handleAccountsChanged(accounts)`: an empty list disconnects; a first account other than
      the current address clears the manual-disconnect flag and reconnects; the same account
      changes nothing. */
  function AfterAccountsChanged(s: State, accounts: seq<string>, result: Option<Connection>): (t: State)
    ensures |accounts| == 0 ==> t == AfterDisconnect(s)
    ensures |accounts| == 0 ==> t.signer.None? && t.address.None? && t.userDisconnectedManually
    ensures |accounts| > 0 && Some(accounts[0]) != s.address ==>
      t == AfterConnect(s.(userDisconnectedManually := false), NoArgument, result)
    ensures |accounts| > 0 && Some(accounts[0]) != s.address ==> !t.userDisconnectedManually
    ensures |accounts| > 0 && Some(accounts[0]) == s.address ==> t == s
    ensures Inv(s) ==> Inv(t)
  {
    if |accounts| == 0 then AfterDisconnect(s)
    else if Some(accounts[0]) != s.address then
      AfterConnect(s.(userDisconnectedManually := false), NoArgument, result)
    else s
  }

  /** `handleChainChanged(chainId)`: the chain id is recorded and the wrong-network flag set
      from it; only a switch to the expected chain reconnects, and a switch away leaves the
      wallet fields alone (in particular `isNetworkCorrect` is not updated). */
  function AfterChainChanged(s: State, chainId: string, result: Option<Connection>): (t: State)
    ensures t.currentChainId == Some(chainId)
    ensures t.isWrongNetwork <==> chainId != ExpectedChainId
    ensures chainId != ExpectedChainId ==>
      && t.signer == s.signer && t.address == s.address
      && t.isNetworkCorrect == s.isNetworkCorrect && t.isConnectingWallet == s.isConnectingWallet
      && t.isSwitchingNetwork == s.isSwitchingNetwork
      && t.userDisconnectedManually == s.userDisconnectedManually
      && t.autoConnectAttempted == s.autoConnectAttempted
    ensures chainId == ExpectedChainId ==>
      t == AfterConnect(s.(currentChainId := Some(chainId), isWrongNetwork := false), NoArgument, result)
    ensures Inv(s) ==> Inv(t)
  {
    var s' := s.(currentChainId := Some(chainId));
    if chainId != ExpectedChainId then s'.(isWrongNetwork := true)
    else AfterConnect(s'.(isWrongNetwork := false), NoArgument, result)
  }

  // ---------------------------------------------------------------------------------------
  // Mount: auto-connect and initialize

  /** The auto-connect condition: an authorised account is selected, no address is shown, no
      connect is in progress, and neither an auto-connect this session nor a manual
      disconnect has happened. */
  predicate AutoConnectFires(s: State, selectedAddress: Option<string>) {
    && Truthy(selectedAddress)
    && !Truthy(s.address)
    && !s.isConnectingWallet
    && !s.autoConnectAttempted
    && !s.userDisconnectedManually
  }

  /** The auto-connect branch of the effect: when it fires, the session is marked and
      `connectWallet(true)` runs. With no provider installed `selectedAddress` is `None`. */
  function AfterAutoConnect(s: State, selectedAddress: Option<string>, result: Option<Connection>): (t: State)
    ensures !AutoConnectFires(s, selectedAddress) ==> t == s
    ensures AutoConnectFires(s, selectedAddress) ==>
      && t.autoConnectAttempted
      && t == AfterConnect(s.(autoConnectAttempted := true), Flag(true), result)
    ensures AutoConnectFires(s, selectedAddress) && result.None? ==> t.address == s.address
    ensures Inv(s) ==> Inv(t)
  {
    if AutoConnectFires(s, selectedAddress) then
      AfterConnect(s.(autoConnectAttempted := true), Flag(true), result)
    else s
  }

  /** The condition `initialize` reconnects under: only a selected account and no address. */
  predicate InitializeReconnects(s: State, selectedAddress: Option<string>) {
    Truthy(selectedAddress) && !Truthy(s.address)
  }

  /** `initialize`: `chainId` is what `eth_chainId` answered, `None` when there is no
      provider or the request failed (the error is only logged). */
  function AfterInitialize(s: State, chainId: Option<string>, selectedAddress: Option<string>,
                           result: Option<Connection>): (t: State)
    ensures chainId.None? ==> t == s
    ensures chainId.Some? ==>
      var s' := s.(currentChainId := chainId, isWrongNetwork := chainId.value != ExpectedChainId);
      && (InitializeReconnects(s, selectedAddress) ==> t == AfterConnect(s', NoArgument, result))
      && (!InitializeReconnects(s, selectedAddress) ==> t == s')
    ensures chainId.Some? ==> t.currentChainId == chainId && (t.isWrongNetwork <==> chainId.value != ExpectedChainId)
    ensures Inv(s) ==> Inv(t)
  {
    match chainId
    case None => s
    case Some(id) =>
      var s' := s.(currentChainId := chainId, isWrongNetwork := id != ExpectedChainId);
      if InitializeReconnects(s, selectedAddress) then AfterConnect(s', NoArgument, result) else s'
  }

  /** The `initialize` path does not look at the manual-disconnect flag: after a manual
      disconnect the auto-connect branch stays silent, but `initialize` connects anyway. */
  lemma InitializeIgnoresManualDisconnect(s: State, chainId: string, selectedAddress: string, c: Connection)
    requires s.userDisconnectedManually && !s.isConnectingWallet && s.address.None?
    requires selectedAddress != ""
    ensures AfterAutoConnect(s, Some(selectedAddress), Some(c)) == s
    ensures AfterInitialize(s, Some(chainId), Some(selectedAddress), Some(c)).address == Some(c.signerAddress)
    ensures AfterInitialize(s, Some(chainId), Some(selectedAddress), Some(c)).userDisconnectedManually
  {
  }

  // ---------------------------------------------------------------------------------------
  // handleSwitchNetworkInModal and the modal's cancel

  /** How `wallet_switchEthereumChain` ended. */
  datatype SwitchOutcome = Switched | SwitchFailed(code: JsCode)

  /** The network is on the expected chain after the modal's switch: the switch succeeded,
      or it failed with 4902 and adding the chain succeeded. */
  predicate SwitchRecovers(outcome: SwitchOutcome, addOk: bool) {
    outcome.Switched? || (CodeIs(outcome.code, UnknownChainCode) && addOk)
  }

  /** `handleSwitchNetworkInModal`: nothing without a provider; otherwise, the wrong-network
      flag is cleared and the wallet reconnected exactly when the switch recovers, and the
      switching flag is down on every exit. `addOk` is how `wallet_addEthereumChain` ended;
      it is consulted only after a 4902. */
  function AfterSwitchNetwork(s: State, providerPresent: bool, outcome: SwitchOutcome, addOk: bool,
                              result: Option<Connection>): (t: State)
    ensures !providerPresent ==> t == s
    ensures providerPresent ==> !t.isSwitchingNetwork
    ensures providerPresent && SwitchRecovers(outcome, addOk) ==>
      && !t.isWrongNetwork
      && (!s.isConnectingWallet && result.Some? ==>
            t.address == Some(result.value.signerAddress) && t.isNetworkCorrect == result.value.isExpectedNetwork)
    ensures providerPresent && !SwitchRecovers(outcome, addOk) ==> t == s.(isSwitchingNetwork := false)
    ensures Inv(s) ==> Inv(t)
  {
    if !providerPresent then s
    else
      var switching := s.(isSwitchingNetwork := true);
      var t := match outcome
        case Switched => AfterConnect(switching.(isWrongNetwork := false), NoArgument, result)
        case SwitchFailed(code) =>
          if CodeIs(code, UnknownChainCode) && addOk
          then AfterConnect(switching.(isWrongNetwork := false), NoArgument, result)
          else switching;
      t.(isSwitchingNetwork := false)
  }

  /** When the switch recovers, the handler is exactly a no-argument `connectWallet()` run with
      the wrong-network flag cleared and the switching flag up, then the switching flag
      lowered: a failed reconnect clears the wallet, and a reconnect while another connect is
      in progress is skipped. */
  lemma SwitchRecoveryReconnects(s: State, outcome: SwitchOutcome, addOk: bool, result: Option<Connection>)
    requires SwitchRecovers(outcome, addOk)
    ensures var t := AfterSwitchNetwork(s, true, outcome, addOk, result);
      && t == AfterConnect(s.(isWrongNetwork := false, isSwitchingNetwork := true), NoArgument, result)
                .(isSwitchingNetwork := false)
      && (!s.isConnectingWallet && result.None? ==> t.signer.None? && t.address.None?)
      && (s.isConnectingWallet ==> t == s.(isWrongNetwork := false, isSwitchingNetwork := false))
  {
  }

  /** Any code other than the number 4902, including the string "4902", skips the add-chain
      attempt and leaves the wrong-network flag as it was. */
  lemma OtherCodeKeepsWrongNetwork(s: State, code: JsCode, addOk: bool, result: Option<Connection>)
    requires !CodeIs(code, UnknownChainCode)
    ensures AfterSwitchNetwork(s, true, SwitchFailed(code), addOk, result).isWrongNetwork == s.isWrongNetwork
    ensures AfterSwitchNetwork(s, true, SwitchFailed(StrCode("4902")), addOk, result) == s.(isSwitchingNetwork := false)
  {
  }

  /** The modal's cancel and "later" buttons: the modal closes, nothing else changes. */
  function AfterDismissModal(s: State): (t: State)
    ensures !t.isWrongNetwork
    ensures t.(isWrongNetwork := s.isWrongNetwork) == s
    ensures Inv(s) ==> Inv(t)
  {
    s.(isWrongNetwork := false)
  }

  // ---------------------------------------------------------------------------------------
  // Runs of events

  datatype Event =
    | StartConnect(arg: ConnectArg)
    | CompleteConnect(arg: ConnectArg, result: Option<Connection>)
    | Connect(arg: ConnectArg, result: Option<Connection>)
    | Disconnect
    | AccountsChanged(accounts: seq<string>, result: Option<Connection>)
    | ChainChanged(chainId: string, result: Option<Connection>)
    | AutoConnect(selectedAddress: Option<string>, result: Option<Connection>)
    | Initialize(chainIdAnswer: Option<string>, selectedAddress: Option<string>, result: Option<Connection>)
    | SwitchNetwork(providerPresent: bool, outcome: SwitchOutcome, addOk: bool, result: Option<Connection>)
    | DismissModal

  /** Events that run to completion as one step (every `connectWallet` finishes before the
      next event). */
  predicate IsAtomic(e: Event) {
    !e.StartConnect? && !e.CompleteConnect?
  }

  function Step(s: State, e: Event): State {
    match e
    case StartConnect(arg) => AfterStartConnect(s, arg)
    case CompleteConnect(arg, result) => AfterCompleteConnect(s, arg, result)
    case Connect(arg, result) => AfterConnect(s, arg, result)
    case Disconnect => AfterDisconnect(s)
    case AccountsChanged(accounts, result) => AfterAccountsChanged(s, accounts, result)
    case ChainChanged(chainId, result) => AfterChainChanged(s, chainId, result)
    case AutoConnect(selected, result) => AfterAutoConnect(s, selected, result)
    case Initialize(chainId, selected, result) => AfterInitialize(s, chainId, selected, result)
    case SwitchNetwork(present, outcome, addOk, result) => AfterSwitchNetwork(s, present, outcome, addOk, result)
    case DismissModal => AfterDismissModal(s)
  }

  function Run(s: State, es: seq<Event>): State
    decreases |es|
  {
    if es == [] then s else Run(Step(s, es[0]), es[1..])
  }

  /** The signer and the address are set and cleared together, and agree. */
  predicate Inv(s: State) {
    && (s.signer.Some? <==> s.address.Some?)
    && (s.signer.Some? ==> s.signer.value.address == s.address.value)
  }

  /** Between atomic steps: nothing is in progress, and a wrong network is only reported with
      an address. */
  predicate AtomicInv(s: State) {
    && Inv(s)
    && !s.isConnectingWallet
    && !s.isSwitchingNetwork
    && (!s.isNetworkCorrect ==> s.address.Some?)
  }

  lemma InitialAtomicInv(userDisconnectedManually: bool, autoConnectAttempted: bool)
    ensures AtomicInv(Initial(userDisconnectedManually, autoConnectAttempted))
  {
  }

  lemma ConnectPreservesAtomicInv(s: State, arg: ConnectArg, result: Option<Connection>)
    requires AtomicInv(s)
    ensures AtomicInv(AfterConnect(s, arg, result))
  {
  }

  /** Every step, split or not, keeps the signer and the address in agreement. */
  lemma StepPreservesInv(s: State, e: Event)
    requires Inv(s)
    ensures Inv(Step(s, e))
  {
  }

  lemma SwitchPreservesAtomicInv(s: State, present: bool, outcome: SwitchOutcome, addOk: bool,
                                 result: Option<Connection>)
    requires AtomicInv(s)
    ensures AtomicInv(AfterSwitchNetwork(s, present, outcome, addOk, result))
  {
    var recovered := s.(isWrongNetwork := false);
    ConnectPreservesAtomicInv(recovered, NoArgument, result);
    assert AfterConnect(recovered.(isSwitchingNetwork := true), NoArgument, result).(isSwitchingNetwork := false)
      == AfterConnect(recovered, NoArgument, result);
  }

  /** Atomic steps keep the stronger invariant; in particular the `connectWallet` guard never
      fires in a run of atomic steps. */
  lemma StepPreservesAtomicInv(s: State, e: Event)
    requires AtomicInv(s) && IsAtomic(e)
    ensures AtomicInv(Step(s, e))
  {
    match e
    case AccountsChanged(accounts, result) =>
      ConnectPreservesAtomicInv(s.(userDisconnectedManually := false), NoArgument, result);
    case ChainChanged(chainId, result) =>
      ConnectPreservesAtomicInv(s.(currentChainId := Some(chainId), isWrongNetwork := false), NoArgument, result);
    case AutoConnect(selected, result) =>
      ConnectPreservesAtomicInv(s.(autoConnectAttempted := true), Flag(true), result);
    case Initialize(chainId, selected, result) =>
      if chainId.Some? {
        ConnectPreservesAtomicInv(
          s.(currentChainId := chainId, isWrongNetwork := chainId.value != ExpectedChainId), NoArgument, result);
      }
    case SwitchNetwork(present, outcome, addOk, result) =>
      SwitchPreservesAtomicInv(s, present, outcome, addOk, result);
    case _ =>
  }

  lemma {:induction false} RunPreservesAtomicInv(s: State, es: seq<Event>)
    requires AtomicInv(s)
    requires forall i :: 0 <= i < |es| ==> IsAtomic(es[i])
    ensures AtomicInv(Run(s, es))
    decreases |es|
  {
    if es != [] {
      StepPreservesAtomicInv(s, es[0]);
      RunPreservesAtomicInv(Step(s, es[0]), es[1..]);
    }
  }

  /** Once marked, a session stays marked: no step clears `autoConnectAttempted`. */
  lemma StepKeepsAutoConnectAttempted(s: State, e: Event)
    requires s.autoConnectAttempted
    ensures Step(s, e).autoConnectAttempted
  {
    match e
    case AccountsChanged(accounts, result) =>
      assert |accounts| == 0 || Some(accounts[0]) == s.address ||
        Step(s, e) == AfterConnect(s.(userDisconnectedManually := false), NoArgument, result);
    case _ =>
  }

  /** The number of steps of a run in which the auto-connect branch fires. */
  function AutoConnectCount(s: State, es: seq<Event>): nat
    decreases |es|
  {
    if es == [] then 0
    else
      var fires := es[0].AutoConnect? && AutoConnectFires(s, es[0].selectedAddress);
      (if fires then 1 else 0) + AutoConnectCount(Step(s, es[0]), es[1..])
  }

  lemma {:induction false} NoAutoConnectOnceAttempted(s: State, es: seq<Event>)
    requires s.autoConnectAttempted
    ensures AutoConnectCount(s, es) == 0
    decreases |es|
  {
    if es != [] {
      StepKeepsAutoConnectAttempted(s, es[0]);
      NoAutoConnectOnceAttempted(Step(s, es[0]), es[1..]);
    }
  }

  /** However the events go, auto-connect fires at most once per session, and never when the
      session is already marked. */
  lemma {:induction false} AutoConnectAtMostOnce(s: State, es: seq<Event>)
    ensures AutoConnectCount(s, es) <= if s.autoConnectAttempted then 0 else 1
    decreases |es|
  {
    if es != [] {
      var t := Step(s, es[0]);
      if s.autoConnectAttempted {
        NoAutoConnectOnceAttempted(s, es);
      } else if es[0].AutoConnect? && AutoConnectFires(s, es[0].selectedAddress) {
        assert t.autoConnectAttempted;
        NoAutoConnectOnceAttempted(t, es[1..]);
      } else {
        AutoConnectAtMostOnce(t, es[1..]);
      }
    }
  }

  /** An account change to a non-empty list is the only step that clears the manual-disconnect
      flag. */
  lemma FlagClearedOnlyByAccountSwitch(s: State, e: Event)
    requires s.userDisconnectedManually && !Step(s, e).userDisconnectedManually
    ensures e.AccountsChanged? && |e.accounts| > 0 && Some(e.accounts[0]) != s.address
  {
  }

  /** Without an account change to a non-empty list, a manual disconnect stays recorded for
      the whole run. */
  lemma {:induction false} FlagSurvivesRun(s: State, es: seq<Event>)
    requires s.userDisconnectedManually
    requires forall i :: 0 <= i < |es| ==> !(es[i].AccountsChanged? && |es[i].accounts| > 0)
    ensures Run(s, es).userDisconnectedManually
    decreases |es|
  {
    if es != [] {
      if !Step(s, es[0]).userDisconnectedManually {
        FlagClearedOnlyByAccountSwitch(s, es[0]);
      }
      assert forall i :: 0 <= i < |es[1..]| ==> es[1..][i] == es[i + 1];
      FlagSurvivesRun(Step(s, es[0]), es[1..]);
    }
  }

  // ---------------------------------------------------------------------------------------
  // getCurrentSelectedKey

  /** The route patterns of the menu, in the order they are tried, with the key each selects. */
  const MenuPatterns: seq<(string, string)> :=
    [("/food/*", "/"), ("/add-food/*", "/add-food"), ("/search/*", "/search")]

  const DefaultMenuKey: string := "/"

  /** `getCurrentSelectedKey`: the key of the first pattern that matches the path, or "/".
      `matchPath(pattern, pathname)` is react-router's matcher, which is not part of this model. */
  method CurrentSelectedKey(pathname: string, matchPath: (string, string) -> bool) returns (keys: seq<string>)
    ensures |keys| == 1
    ensures (forall i :: 0 <= i < |MenuPatterns| ==> !matchPath(MenuPatterns[i].0, pathname)) ==>
      keys == [DefaultMenuKey]
    ensures forall i :: 0 <= i < |MenuPatterns| ==>
      (matchPath(MenuPatterns[i].0, pathname) && forall j :: 0 <= j < i ==> !matchPath(MenuPatterns[j].0, pathname))
      ==> keys == [MenuPatterns[i].1]
  {
    var i := 0;
    while i < |MenuPatterns|
      invariant 0 <= i <= |MenuPatterns|
      invariant forall j :: 0 <= j < i ==> !matchPath(MenuPatterns[j].0, pathname)
    {
      var (path, key) := MenuPatterns[i];
      if matchPath(path, pathname) {
        return [key];
      }
      i := i + 1;
    }
    return [DefaultMenuKey];
  }

  // ---------------------------------------------------------------------------------------
  // The component

  /** The `App` component's wallet state, updated in place by its handlers. */
  class WalletManager {
    var signer: Option<Signer>
    var address: Option<string>
    var isNetworkCorrect: bool
    var isConnectingWallet: bool
    var isWrongNetwork: bool
    var currentChainId: Option<string>
    var isSwitchingNetwork: bool
    var userDisconnectedManually: bool
    var autoConnectAttempted: bool

    function Snapshot(): State
      reads this
    {
      State(signer, address, isNetworkCorrect, isConnectingWallet, isWrongNetwork, currentChainId,
            isSwitchingNetwork, userDisconnectedManually, autoConnectAttempted)
    }

    /** Mount, with the persisted flags read from storage. */
    constructor (userDisconnectedManually: bool, autoConnectAttempted: bool)
      ensures Snapshot() == Initial(userDisconnectedManually, autoConnectAttempted)
    {
      signer := None;
      address := None;
      isNetworkCorrect := true;
      isConnectingWallet := false;
      isWrongNetwork := false;
      currentChainId := None;
      isSwitchingNetwork := false;
      this.userDisconnectedManually := userDisconnectedManually;
      this.autoConnectAttempted := autoConnectAttempted;
    }

    /** `connectWallet` up to its await; `proceeds` is false when the guard returned early. */
    method StartConnect(arg: ConnectArg) returns (proceeds: bool)
      modifies this
      ensures proceeds <==> !Guarded(old(Snapshot()), arg)
      ensures Snapshot() == AfterStartConnect(old(Snapshot()), arg)
    {
      if isConnectingWallet && !IsAutoConnect(arg) {
        return false;
      }
      isConnectingWallet := true;
      isNetworkCorrect := true;
      return true;
    }

    /** `connectWallet` after `getProviderAndSigner` answered. */
    method CompleteConnect(arg: ConnectArg, result: Option<Connection>)
      modifies this
      ensures Snapshot() == AfterCompleteConnect(old(Snapshot()), arg, result)
    {
      match result {
        case Some(c) =>
          signer := Some(Signer(c.signerAddress));
          address := Some(c.signerAddress);
          isNetworkCorrect := c.isExpectedNetwork;
        case None =>
          if !IsAutoConnect(arg) {
            signer := None;
            address := None;
          }
      }
      isConnectingWallet := false;
    }

    method ConnectWallet(arg: ConnectArg, result: Option<Connection>)
      modifies this
      ensures Snapshot() == AfterConnect(old(Snapshot()), arg, result)
    {
      var proceeds := StartConnect(arg);
      if proceeds {
        CompleteConnect(arg, result);
      }
    }

    method DisconnectWallet()
      modifies this
      ensures Snapshot() == AfterDisconnect(old(Snapshot()))
    {
      signer := None;
      address := None;
      isNetworkCorrect := true;
      userDisconnectedManually := true;
    }

    method HandleAccountsChanged(accounts: seq<string>, result: Option<Connection>)
      modifies this
      ensures Snapshot() == AfterAccountsChanged(old(Snapshot()), accounts, result)
    {
      if |accounts| == 0 {
        DisconnectWallet();
      } else if Some(accounts[0]) != address {
        userDisconnectedManually := false;
        ConnectWallet(NoArgument, result);
      }
    }

    method HandleChainChanged(chainId: string, result: Option<Connection>)
      modifies this
      ensures Snapshot() == AfterChainChanged(old(Snapshot()), chainId, result)
    {
      currentChainId := Some(chainId);
      if chainId != ExpectedChainId {
        isWrongNetwork := true;
      } else {
        isWrongNetwork := false;
        ConnectWallet(NoArgument, result);
      }
    }

    method AutoConnect(selectedAddress: Option<string>, result: Option<Connection>)
      modifies this
      ensures Snapshot() == AfterAutoConnect(old(Snapshot()), selectedAddress, result)
    {
      if Truthy(selectedAddress) && !Truthy(address) && !isConnectingWallet &&
         !autoConnectAttempted && !userDisconnectedManually {
        autoConnectAttempted := true;
        ConnectWallet(Flag(true), result);
      }
    }

    method Initialize(chainId: Option<string>, selectedAddress: Option<string>, result: Option<Connection>)
      modifies this
      ensures Snapshot() == AfterInitialize(old(Snapshot()), chainId, selectedAddress, result)
    {
      if chainId.None? {
        return;
      }
      var reconnect := Truthy(selectedAddress) && !Truthy(address);
      currentChainId := chainId;
      isWrongNetwork := chainId.value != ExpectedChainId;
      if reconnect {
        ConnectWallet(NoArgument, result);
      }
    }

    method HandleSwitchNetworkInModal(providerPresent: bool, outcome: SwitchOutcome, addOk: bool,
                                      result: Option<Connection>)
      modifies this
      ensures Snapshot() == AfterSwitchNetwork(old(Snapshot()), providerPresent, outcome, addOk, result)
    {
      if !providerPresent {
        return;
      }
      isSwitchingNetwork := true;
      match outcome {
        case Switched =>
          isWrongNetwork := false;
          ConnectWallet(NoArgument, result);
        case SwitchFailed(code) =>
          if CodeIs(code, UnknownChainCode) && addOk {
            isWrongNetwork := false;
            ConnectWallet(NoArgument, result);
          }
      }
      isSwitchingNetwork := false;
    }

    method DismissWrongNetworkModal()
      modifies this
      ensures Snapshot() == AfterDismissModal(old(Snapshot()))
    {
      isWrongNetwork := false;
    }
  }
}
