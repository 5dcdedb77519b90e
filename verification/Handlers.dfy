/** The message handlers (contract.rs), each a function from the stored state to its outcome. */
module Handlers {
  import opened Types
  import opened Amounts
  import opened Tokens
  import opened Pending
  import opened Tickets
  import opened Relayers
  import opened Evidences
  import opened Fees
  import opened Operations

  datatype Msg =
    | RegisterCosmosToken(sender: Addr, denom: string, decimals: nat, precision: int,
                          maxHolding: Uint128, fee: Uint128, derivedCurrency: string)
    | RegisterXrplToken(sender: Addr, issuer: string, currency: string, precision: int,
                        maxHolding: Uint128, fee: Uint128, derivedDenom: string)
    | SaveEvidence(sender: Addr, evidence: Evidence)
    | RecoverTickets(sender: Addr, accountSequence: Sequence, numberOfTickets: Option<nat>)
    | RecoverXrplTokenRegistration(sender: Addr, issuer: string, currency: string)
    | SaveSignature(sender: Addr, operationId: Sequence, operationVersion: nat, signature: string)
    | SendToXrpl(sender: Addr, funds: seq<Coin>, recipient: string, deliverAmount: Option<Uint128>)
    | UpdateXrplToken(sender: Addr, issuer: string, currency: string, state: Option<TokenState>,
                      newPrecision: Option<int>, newFee: Option<Uint128>, newMaxHolding: Option<Uint128>)
    | UpdateCosmosToken(sender: Addr, denom: string, state: Option<TokenState>,
                        newPrecision: Option<int>, newFee: Option<Uint128>, newMaxHolding: Option<Uint128>)
    | UpdateXrplBaseFee(sender: Addr, baseFee: nat)
    | UpdateUsedTicketSequenceThreshold(sender: Addr, threshold: nat)
    | ClaimRefund(sender: Addr, refundId: OperationId)
    | ClaimRelayerFees(sender: Addr, amounts: seq<Coin>)
    | HaltBridge(sender: Addr)
    | ResumeBridge(sender: Addr)
    | RotateKeysMsg(sender: Addr, newRelayers: seq<Relayer>, newThreshold: nat)
    | UpdateProhibitedXrplAddresses(sender: Addr, addresses: seq<string>)
    | CancelPendingOperation(sender: Addr, operationId: Sequence)

  function SupplyOf(bank: Bank, denom: string): nat { GetOr(bank.supply, denom, 0) }
  function HeldOf(bank: Bank, denom: string): nat { GetOr(bank.held, denom, 0) }

  function RequireOwner(s: State, sender: Addr): Result<()> {
    if sender == s.owner then Ok(()) else Err(UnauthorizedSender)
  }

  function RequireRelayer(s: State, sender: Addr): Result<()> {
    if IsRelayer(s.config.relayers, sender) then Ok(()) else Err(UnauthorizedSender)
  }

  function AssertBridgeActive(s: State): Result<()> {
    if s.config.bridgeState.Active? then Ok(()) else Err(BridgeHalted)
  }

  /** Only configuration values may differ. */
  predicate OnlyConfig(s: State, s': State) {
    && s'.owner == s.owner && s'.config.bridgeXrplAddress == s.config.bridgeXrplAddress
    && s'.config.relayers == s.config.relayers && s'.config.evidenceThreshold == s.config.evidenceThreshold
    && s'.config.xrplBaseFee == s.config.xrplBaseFee
    && KeepsVotes(s, s') && KeepsXrplTokens(s, s') && KeepsCosmosTokens(s, s')
    && KeepsTickets(s, s') && KeepsQueue(s, s') && KeepsRefunds(s, s') && KeepsFees(s, s')
  }

  function WithBridgeState(s: State, b: BridgeState): State {
    s.(config := s.config.(bridgeState := b))
  }

  // ---------- token registration ----------

  function DoRegisterCosmosToken(s: State, sender: Addr, denom: string, decimals: nat, precision: int,
                                 maxHolding: Uint128, fee: Uint128, currency: string): (r: Result<State>)
    ensures r.Ok? ==> OnlyTokens(s, r.value) && KeepsXrplTokens(s, r.value)
  {
    var _ :- RequireOwner(s, sender);
    var _ :- AssertBridgeActive(s);
    if decimals > MAX_COSMOS_TOKEN_DECIMALS then Err(InvalidDecimals)
    else
      var _ :- ValidateSendingPrecision(precision, decimals);
      if denom in s.cosmosTokens then Err(CosmosTokenAlreadyRegistered)
      else
        var _ :- ValidateCosmosDenom(denom);
        var _ :- ValidateXrplCurrency(currency);
        if currency in s.cosmosTokenByCurrency then Err(RegistrationFailure)
        else Ok(InsertCosmosToken(s, denom,
                                  CosmosToken(denom, decimals, currency, precision, maxHolding, Enabled, fee)))
  }

  function DoRegisterXrplToken(env: Env, s: State, sender: Addr, issuer: string, currency: string,
                               precision: int, maxHolding: Uint128, fee: Uint128, denom: string): (r: Result<Outcome>)
    ensures r.Ok? ==> Opens(env.time, s, r.value.state, TrustSet(issuer, currency, s.config.trustSetLimitAmount))
    ensures r.Ok? ==> KeepsConfig(s, r.value.state) && KeepsFees(s, r.value.state)
    ensures r.Ok? ==> r.value.state.pendingRotateKeys == s.pendingRotateKeys
  {
    var _ :- RequireOwner(s, sender);
    var _ :- ValidateXrplAddress(env.chain, s.prohibitedXrplAddresses, issuer);
    var _ :- ValidateXrplCurrency(currency);
    var _ :- ValidateSendingPrecision(precision, XRPL_TOKENS_DECIMALS);
    var key := BuildXrplTokenKey(issuer, currency);
    if key in s.xrplTokens then Err(XrplTokenAlreadyRegistered)
    else if denom in s.cosmosTokens then Err(RegistrationFailure)
    else
      var token := XrplToken(issuer, currency, denom, precision, maxHolding, Processing, fee);
      var s1 :- InsertXrplToken(s, key, token);
      var (s2, ticket) :- AllocateTicket(s1);
      var s3 :- CreatePendingOperation(env.time, s2, Some(ticket), None,
                                       TrustSet(issuer, currency, s.config.trustSetLimitAmount));
      Ok(Outcome(s3, [CreateDenom(denom)]))
  }

  function DoRecoverXrplTokenRegistration(time: nat, s: State, sender: Addr, issuer: string, currency: string)
    : (r: Result<State>)
    ensures r.Ok? ==> Opens(time, s, r.value, TrustSet(issuer, currency, s.config.trustSetLimitAmount))
    ensures r.Ok? ==> KeepsConfig(s, r.value) && KeepsFees(s, r.value)
    ensures r.Ok? ==> r.value.pendingRotateKeys == s.pendingRotateKeys
  {
    var _ :- RequireOwner(s, sender);
    var key := BuildXrplTokenKey(issuer, currency);
    if key !in s.xrplTokens then Err(TokenNotRegistered)
    else if !s.xrplTokens[key].state.Inactive? then Err(XrplTokenNotInactive)
    else
      var s1 := ReplaceXrplToken(s, key, s.xrplTokens[key].(state := Processing));
      var (s2, ticket) :- AllocateTicket(s1);
      CreatePendingOperation(time, s2, Some(ticket), None,
                             TrustSet(issuer, currency, s.config.trustSetLimitAmount))
  }

  // ---------- evidence ----------

  /** A transfer with a memo is handed to the swap entry point, if there is one. */
  predicate IsUniversalSwap(s: State, memo: Option<string>) {
    memo.Some? && memo.value != "" && s.config.osorEntryPoint.Some?
  }

  /** An XRPL-originated token arrives: fees are minted to the contract, the rest to the recipient, or
      to the contract and on to the swap entry point. */
  function ReceiveXrplToken(env: Env, s: State, ev: Evidence, reached: bool): (r: Result<Outcome>)
    requires ev.XrplToCosmosTransfer?
    ensures r.Ok? ==> OnlyFees(s, r.value.state)
  {
    var key := BuildXrplTokenKey(ev.issuer, ev.currency);
    if key !in s.xrplTokens then Err(TokenNotRegistered)
    else
      var token := s.xrplTokens[key];
      if !token.state.Enabled? then Err(TokenNotEnabled)
      else
        var decimals := DecimalsOf(token.issuer, token.currency);
        var afterFees :- AmountAfterBridgeFees(ev.amount, token.bridgingFee);
        var (toSend, remainder) :- TruncateAmount(token.sendingPrecision, decimals, afterFees);
        var bridged :- CheckedAdd(ev.amount, SupplyOf(env.bank, token.cosmosDenom));
        if bridged > token.maxHoldingAmount then Err(MaximumBridgedAmountReached)
        else if !reached then Ok(Outcome(s, []))
        else
          var (s1, collected) :- HandleFeeCollection(s, token.bridgingFee, token.cosmosDenom, remainder);
          var feeMsgs := if collected != 0 then [Mint(env.chain.contract, Coin(token.cosmosDenom, collected))] else [];
          var coin := Coin(token.cosmosDenom, toSend);
          if IsUniversalSwap(s, ev.memo) then
            Ok(Outcome(s1, feeMsgs + [Mint(env.chain.contract, coin)] + [Send(s.config.osorEntryPoint.value, [coin])]))
          else Ok(Outcome(s1, feeMsgs + [Mint(ev.recipient, coin)]))
  }

  /** A Cosmos-originated token comes back: it is paid out of the escrow, to the recipient or to the
      swap entry point. */
  function ReceiveCosmosToken(env: Env, s: State, ev: Evidence, reached: bool): (r: Result<Outcome>)
    requires ev.XrplToCosmosTransfer?
    ensures r.Ok? ==> OnlyFees(s, r.value.state)
  {
    if ev.currency !in s.cosmosTokenByCurrency
       || s.cosmosTokenByCurrency[ev.currency] !in s.cosmosTokens then Err(TokenNotRegistered)
    else
      var token := s.cosmosTokens[s.cosmosTokenByCurrency[ev.currency]];
      if !token.state.Enabled? then Err(TokenNotEnabled)
      else
        var (toSend, remainder) :- ConvertAndTruncateAmount(token.sendingPrecision, XRPL_TOKENS_DECIMALS,
                                                            token.decimals, ev.amount, token.bridgingFee);
        if !reached then Ok(Outcome(s, []))
        else
          var (s1, _) :- HandleFeeCollection(s, token.bridgingFee, token.denom, remainder);
          var to := if IsUniversalSwap(s, ev.memo) then s.config.osorEntryPoint.value else ev.recipient;
          Ok(Outcome(s1, [Send(to, [Coin(token.denom, toSend)])]))
  }

  function ReceiveTransfer(env: Env, s: State, ev: Evidence, reached: bool): (r: Result<Outcome>)
    requires ev.XrplToCosmosTransfer?
    ensures r.Ok? ==> OnlyFees(s, r.value.state)
  {
    if s.config.bridgeState.Halted? then Err(BridgeHalted)
    else if !env.chain.validCosmosAddress(ev.recipient) then Err(InvalidCosmosAddress)
    else if ev.recipient == env.chain.contract then Err(ProhibitedAddress)
    else if ev.issuer != s.config.bridgeXrplAddress then ReceiveXrplToken(env, s, ev, reached)
    else ReceiveCosmosToken(env, s, ev, reached)
  }

  function SequenceOf(ev: Evidence): Sequence
    requires ev.XrplTransactionResult? && (ev.accountSequence.Some? || ev.ticketSequence.Some?)
  {
    if ev.accountSequence.Some? then ev.accountSequence.value else ev.ticketSequence.value
  }

  /** A result is reported for a pending operation. */
  function ResolveOperation(env: Env, s: State, ev: Evidence, reached: bool): Result<Outcome>
    requires ev.XrplTransactionResult? && (ev.accountSequence.Some? || ev.ticketSequence.Some?)
  {
    var id := SequenceOf(ev);
    var op :- CheckOperationExists(s, id);
    if (op.operationType.TrustSet? || op.operationType.CosmosToXrplTransfer?) && ev.accountSequence.Some? then
      Err(InvalidTransactionResultEvidence)
    else if !reached then Ok(Outcome(s, []))
    else
      var o :- HandleOperation(s, op, ev.operationResult, ev.result, ev.txHash, id, ev.ticketSequence);
      if !ev.result.Invalid? && ev.ticketSequence.Some? then
        var (s1, _) :- RegisterUsedTicket(env.time, o.state);
        Ok(Outcome(s1, o.msgs))
      else Ok(o)
  }

  function DoSaveEvidence(env: Env, s: State, sender: Addr, ev: Evidence): Result<Outcome> {
    var _ :- RequireRelayer(s, sender);
    var _ :- ValidateBasic(ev);
    var (s1, reached) :- HandleEvidence(env.chain, s, sender, ev);
    if ev.XrplToCosmosTransfer? then ReceiveTransfer(env, s1, ev, reached)
    else ResolveOperation(env, s1, ev, reached)
  }

  function DoSaveSignature(s: State, sender: Addr, id: Sequence, version: nat, signature: string): (r: Result<State>)
    ensures r.Ok? ==> AddSignature(s, id, version, sender, signature) == r && IsRelayer(s.config.relayers, sender)
  {
    var _ :- RequireRelayer(s, sender);
    AddSignature(s, id, version, sender, signature)
  }

  // ---------- tickets ----------

  function DoRecoverTickets(time: nat, s: State, sender: Addr, account: Sequence,
                            number: Option<nat>): (r: Result<State>)
    ensures r.Ok? ==> s.availableTickets == [] && !s.pendingTicketUpdate && account !in s.pendingOperations
    ensures r.Ok? ==> var n := if number.Some? then number.value else s.usedTickets;
                      && KeepsConfig(s, r.value) && KeepsVotes(s, r.value) && KeepsXrplTokens(s, r.value)
                      && KeepsCosmosTokens(s, r.value) && KeepsRefunds(s, r.value) && KeepsFees(s, r.value)
                      && r.value.pendingRotateKeys == s.pendingRotateKeys && r.value.pendingTicketUpdate
                      && r.value.availableTickets == [] && r.value.usedTickets == s.usedTickets
                      && s.config.usedTicketSequenceThreshold < n <= MAX_TICKETS
                      && r.value.pendingOperations == s.pendingOperations[account :=
                           NewOperation(time, s, account, None, Some(account), AllocateTickets(n))]
  {
    var _ :- RequireOwner(s, sender);
    if s.availableTickets != [] then Err(StillHaveAvailableTickets)
    else if s.pendingTicketUpdate then Err(PendingTicketUpdate)
    else
      var s1 := s.(pendingTicketUpdate := true);
      var n := if number.Some? then number.value else s.usedTickets;
      if n <= s.config.usedTicketSequenceThreshold || n > MAX_TICKETS then Err(InvalidTicketSequenceToAllocate)
      else CreatePendingOperation(time, s1, None, Some(account), AllocateTickets(n))
  }

  // ---------- sending ----------

  /** What a send decides before it takes a ticket: the transfer it will queue. */
  datatype Transfer = Transfer(state: State, issuer: string, currency: string, amount: Uint128,
                               maxAmount: Option<Uint128>)

  function SendXrplToken(s: State, token: XrplToken, funds: Coin, deliver: Option<Uint128>): (r: Result<Transfer>)
    ensures r.Ok? ==> OnlyFees(s, r.value.state)
  {
    if !token.state.Enabled? then Err(TokenNotEnabled)
    else
      var xrp := IsTokenXrp(token.issuer, token.currency);
      if xrp && deliver.Some? then Err(DeliverAmountIsProhibited)
      else
        var decimals := DecimalsOf(token.issuer, token.currency);
        var _ :- TruncateAmount(token.sendingPrecision, decimals, funds.amount);
        var afterFees :- AmountAfterBridgeFees(funds.amount, token.bridgingFee);
        var (toSend, remainder) :- TruncateAmount(token.sendingPrecision, decimals, afterFees);
        var amount :- if deliver.Some? then DeliverAmount(token, decimals, afterFees, deliver.value) else Ok(toSend);
        var maxAmount := if deliver.None? && xrp then None else Some(toSend);
        var (s1, _) :- HandleFeeCollection(s, token.bridgingFee, token.cosmosDenom, remainder);
        Ok(Transfer(s1, token.issuer, token.currency, amount, maxAmount))
  }

  function DeliverAmount(token: XrplToken, decimals: nat, afterFees: Uint128, deliver: Uint128): Result<Uint128> {
    if deliver > afterFees then Err(InvalidDeliverAmount)
    else
      var (truncated, _) :- TruncateAmount(token.sendingPrecision, decimals, deliver);
      Ok(truncated)
  }

  function SendCosmosToken(bank: Bank, s: State, token: CosmosToken, funds: Coin,
                           deliver: Option<Uint128>): (r: Result<Transfer>)
    ensures r.Ok? ==> OnlyFees(s, r.value.state)
  {
    if !token.state.Enabled? then Err(TokenNotEnabled)
    else if deliver.Some? then Err(DeliverAmountIsProhibited)
    else
      var _ :- TruncateAmount(token.sendingPrecision, token.decimals, funds.amount);
      var (toSend, remainder) :- TruncateAndConvertAmount(token.sendingPrecision, token.decimals,
                                                          XRPL_TOKENS_DECIMALS, funds.amount, token.bridgingFee);
      var (s1, _) :- HandleFeeCollection(s, token.bridgingFee, token.denom, remainder);
      if HeldOf(bank, token.denom) > token.maxHoldingAmount then Err(MaximumBridgedAmountReached)
      else Ok(Transfer(s1, s.config.bridgeXrplAddress, token.xrplCurrency, toSend, Some(toSend)))
  }

  /** The transfer a send decides on, by the origin of the token it carries. */
  function DecideTransfer(env: Env, s: State, funds: Coin, deliver: Option<Uint128>): (r: Result<Transfer>)
    ensures r.Ok? ==> OnlyFees(s, r.value.state)
  {
    if funds.denom in s.xrplTokenByDenom && s.xrplTokenByDenom[funds.denom] in s.xrplTokens then
      SendXrplToken(s, s.xrplTokens[s.xrplTokenByDenom[funds.denom]], funds, deliver)
    else if funds.denom in s.cosmosTokens then
      SendCosmosToken(env.bank, s, s.cosmosTokens[funds.denom], funds, deliver)
    else Err(TokenNotRegistered)
  }

  function DoSendToXrpl(env: Env, s: State, sender: Addr, funds: seq<Coin>, recipient: string,
                        deliver: Option<Uint128>): (r: Result<State>)
    ensures r.Ok? ==> |s.availableTickets| >= 2 && s.availableTickets[0] in r.value.pendingOperations
    ensures r.Ok? ==>
              var typ := r.value.pendingOperations[s.availableTickets[0]].operationType;
              typ.CosmosToXrplTransfer? && Opens(env.time, s, r.value, typ)
    ensures r.Ok? ==> KeepsConfig(s, r.value) && KeepsXrplTokens(s, r.value)
    ensures r.Ok? ==> r.value.pendingRotateKeys == s.pendingRotateKeys
  {
    var _ :- AssertBridgeActive(s);
    if |funds| != 1 || funds[0].amount == 0 then Err(Payment)
    else
      var _ :- ValidateXrplAddress(env.chain, s.prohibitedXrplAddresses, recipient);
      if deliver.Some? && deliver.value > funds[0].amount then Err(InvalidDeliverAmount)
      else
        var t :- DecideTransfer(env, s, funds[0], deliver);
        var _ :- ValidateXrplAmount(t.amount);
        var _ :- if t.maxAmount.Some? then ValidateXrplAmount(t.maxAmount.value) else Ok(());
        var (s2, ticket) :- AllocateTicket(t.state);
        CreatePendingOperation(env.time, s2, Some(ticket), None,
                               CosmosToXrplTransfer(t.issuer, t.currency, t.amount, t.maxAmount, sender, recipient))
  }

  // ---------- updates by the owner ----------

  function DoUpdateXrplToken(env: Env, s: State, sender: Addr, issuer: string, currency: string,
                             state: Option<TokenState>, precision: Option<int>, fee: Option<Uint128>,
                             maxHolding: Option<Uint128>): (r: Result<State>)
    ensures r.Ok? ==> OnlyTokens(s, r.value) && KeepsCosmosTokens(s, r.value)
  {
    var _ :- RequireOwner(s, sender);
    var _ :- AssertBridgeActive(s);
    var key := BuildXrplTokenKey(issuer, currency);
    if key !in s.xrplTokens then Err(TokenNotRegistered)
    else
      var token := s.xrplTokens[key];
      var state' :- SetTokenState(token.state, state);
      var precision' :- SetTokenSendingPrecision(token.sendingPrecision, precision, DecimalsOf(issuer, currency));
      var max' :- SetTokenMaxHoldingAmount(SupplyOf(env.bank, token.cosmosDenom), token.maxHoldingAmount, maxHolding);
      Ok(ReplaceXrplToken(s, key, token.(state := state', sendingPrecision := precision',
                                         bridgingFee := SetTokenBridgingFee(token.bridgingFee, fee),
                                         maxHoldingAmount := max')))
  }

  function DoUpdateCosmosToken(env: Env, s: State, sender: Addr, denom: string,
                               state: Option<TokenState>, precision: Option<int>, fee: Option<Uint128>,
                               maxHolding: Option<Uint128>): (r: Result<State>)
    ensures r.Ok? ==> OnlyTokens(s, r.value) && KeepsXrplTokens(s, r.value)
  {
    var _ :- RequireOwner(s, sender);
    var _ :- AssertBridgeActive(s);
    if denom !in s.cosmosTokens then Err(TokenNotRegistered)
    else
      var token := s.cosmosTokens[denom];
      var state' :- SetTokenState(token.state, state);
      var precision' :- SetTokenSendingPrecision(token.sendingPrecision, precision, token.decimals);
      var max' :- SetTokenMaxHoldingAmount(HeldOf(env.bank, token.denom), token.maxHoldingAmount, maxHolding);
      Ok(ReplaceCosmosToken(s, denom, token.(state := state', sendingPrecision := precision',
                                             bridgingFee := SetTokenBridgingFee(token.bridgingFee, fee),
                                             maxHoldingAmount := max')))
  }

  function DoUpdateXrplBaseFee(s: State, sender: Addr, fee: nat): (r: Result<State>)
    ensures r.Ok? ==>
              && r.value.owner == s.owner && r.value.config == s.config.(xrplBaseFee := fee)
              && r.value.prohibitedXrplAddresses == s.prohibitedXrplAddresses
              && KeepsVotes(s, r.value) && KeepsXrplTokens(s, r.value) && KeepsCosmosTokens(s, r.value)
              && KeepsTickets(s, r.value) && KeepsRefunds(s, r.value) && KeepsFees(s, r.value)
              && r.value.pendingRotateKeys == s.pendingRotateKeys
    ensures r.Ok? ==> SameWork(s.pendingOperations, r.value.pendingOperations)
  {
    var _ :- RequireOwner(s, sender);
    if exists k <- s.pendingOperations :: s.pendingOperations[k].version + 1 > U64_MAX then Err(Panic)
    else
      var ops := s.pendingOperations;
      Ok(s.(config := s.config.(xrplBaseFee := fee),
            pendingOperations := map k | k in ops :: Repriced(ops[k], fee)))
  }

  function DoUpdateUsedTicketSequenceThreshold(s: State, sender: Addr, threshold: nat): (r: Result<State>)
    ensures r.Ok? ==> OnlyConfig(s, r.value) && r.value.prohibitedXrplAddresses == s.prohibitedXrplAddresses
    ensures r.Ok? ==> r.value.config.bridgeState == s.config.bridgeState
  {
    var _ :- RequireOwner(s, sender);
    Ok(s.(config := s.config.(usedTicketSequenceThreshold := threshold)))
  }

  function DoUpdateProhibitedXrplAddresses(chain: Chain, s: State, sender: Addr,
                                           addresses: seq<string>): (r: Result<State>)
    ensures r.Ok? ==> OnlyConfig(s, r.value) && r.value.config == s.config
    ensures r.Ok? ==> s.config.bridgeXrplAddress in r.value.prohibitedXrplAddresses
  {
    var _ :- RequireOwner(s, sender);
    if exists a <- addresses :: !chain.validXrplAddress(a) then Err(InvalidXrplAddress)
    else Ok(s.(prohibitedXrplAddresses := {s.config.bridgeXrplAddress} + set a | a in addresses))
  }

  // ---------- claims ----------

  function DoClaimRefund(s: State, sender: Addr, id: OperationId): (r: Result<Outcome>)
    ensures r.Ok? ==>
              && KeepsConfig(s, r.value.state) && KeepsVotes(s, r.value.state) && KeepsTickets(s, r.value.state)
              && KeepsQueue(s, r.value.state) && KeepsFees(s, r.value.state)
    ensures r.Ok? ==> KeepsXrplTokens(s, r.value.state) && KeepsCosmosTokens(s, r.value.state)
  {
    var _ :- AssertBridgeActive(s);
    var (s1, coin) :- RemovePendingRefund(s, sender, id);
    Ok(Outcome(s1, [Send(sender, [coin])]))
  }

  function DoClaimRelayerFees(s: State, sender: Addr, amounts: seq<Coin>): (r: Result<Outcome>)
    ensures r.Ok? ==> OnlyFees(s, r.value.state)
  {
    var _ :- AssertBridgeActive(s);
    var s1 :- SubtractRelayerFees(s, sender, amounts);
    Ok(Outcome(s1, [Send(sender, amounts)]))
  }

  // ---------- lifecycle ----------

  function DoHaltBridge(s: State, sender: Addr): (r: Result<State>)
    ensures r.Ok? ==> OnlyConfig(s, r.value) && r.value.prohibitedXrplAddresses == s.prohibitedXrplAddresses
    ensures r.Ok? ==> r.value.config == s.config.(bridgeState := Halted)
  {
    if sender != s.owner && !IsRelayer(s.config.relayers, sender) then Err(UnauthorizedSender)
    else
      var _ :- AssertBridgeActive(s);
      Ok(WithBridgeState(s, Halted))
  }

  function DoResumeBridge(s: State, sender: Addr): (r: Result<State>)
    ensures r.Ok? ==> OnlyConfig(s, r.value) && r.value.prohibitedXrplAddresses == s.prohibitedXrplAddresses
    ensures r.Ok? ==> !s.pendingRotateKeys && r.value.config == s.config.(bridgeState := Active)
  {
    var _ :- RequireOwner(s, sender);
    if s.pendingRotateKeys then Err(RotateKeysOngoing) else Ok(WithBridgeState(s, Active))
  }

  function DoRotateKeys(env: Env, s: State, sender: Addr, relayers: seq<Relayer>, threshold: nat): (r: Result<State>)
    ensures r.Ok? ==> !s.pendingRotateKeys && Opens(env.time, s, r.value, RotateKeys(relayers, threshold))
    ensures r.Ok? ==>
              && r.value.owner == s.owner && r.value.config == s.config.(bridgeState := Halted)
              && r.value.prohibitedXrplAddresses == s.prohibitedXrplAddresses
              && KeepsXrplTokens(s, r.value) && KeepsFees(s, r.value) && r.value.pendingRotateKeys
  {
    var _ :- RequireOwner(s, sender);
    if s.pendingRotateKeys then Err(RotateKeysOngoing)
    else
      var s1 := WithBridgeState(s.(pendingRotateKeys := true), Halted);
      var _ :- ValidateRelayers(env.chain, s.prohibitedXrplAddresses, relayers, threshold);
      var (s2, ticket) :- AllocateTicket(s1);
      CreatePendingOperation(env.time, s2, Some(ticket), None, RotateKeys(relayers, threshold))
  }

  function DoCancelPendingOperation(s: State, sender: Addr, id: Sequence): Result<Outcome> {
    var _ :- RequireOwner(s, sender);
    var op :- CheckOperationExists(s, id);
    var opResult := if op.operationType.AllocateTickets? then Some(TicketsAllocation(None)) else None;
    HandleOperation(s, op, opResult, Invalid, None, id, op.ticketSequence)
  }

  // ---------- dispatch ----------

  function Quiet(r: Result<State>): (o: Result<Outcome>)
    ensures o.Ok? <==> r.Ok?
    ensures o.Ok? ==> o.value.state == r.value && o.value.msgs == []
  {
    if r.Ok? then Ok(Outcome(r.value, [])) else Err(r.error)
  }

  /** Messages that queue a new operation. */
  predicate IsOpening(msg: Msg) {
    || msg.RegisterXrplToken? || msg.RecoverTickets? || msg.RecoverXrplTokenRegistration? || msg.SendToXrpl?
    || msg.RotateKeysMsg?
  }

  /** Messages that can resolve a queued operation. */
  predicate IsResolving(msg: Msg) { msg.SaveEvidence? || msg.CancelPendingOperation? }

  function ExecuteOpening(env: Env, s: State, msg: Msg): Result<Outcome>
    requires IsOpening(msg)
  {
    match msg
    case RegisterXrplToken(sender, issuer, currency, precision, maxHolding, fee, denom) =>
      DoRegisterXrplToken(env, s, sender, issuer, currency, precision, maxHolding, fee, denom)
    case RecoverTickets(sender, account, number) => Quiet(DoRecoverTickets(env.time, s, sender, account, number))
    case RecoverXrplTokenRegistration(sender, issuer, currency) =>
      Quiet(DoRecoverXrplTokenRegistration(env.time, s, sender, issuer, currency))
    case SendToXrpl(sender, funds, recipient, deliver) =>
      Quiet(DoSendToXrpl(env, s, sender, funds, recipient, deliver))
    case RotateKeysMsg(sender, relayers, threshold) => Quiet(DoRotateKeys(env, s, sender, relayers, threshold))
  }

  function ExecuteResolving(env: Env, s: State, msg: Msg): Result<Outcome>
    requires IsResolving(msg)
  {
    match msg
    case SaveEvidence(sender, ev) => DoSaveEvidence(env, s, sender, ev)
    case CancelPendingOperation(sender, id) => DoCancelPendingOperation(s, sender, id)
  }

  function ExecuteSetting(env: Env, s: State, msg: Msg): Result<Outcome>
    requires !IsOpening(msg) && !IsResolving(msg)
  {
    match msg
    case RegisterCosmosToken(sender, denom, decimals, precision, maxHolding, fee, currency) =>
      Quiet(DoRegisterCosmosToken(s, sender, denom, decimals, precision, maxHolding, fee, currency))
    case SaveSignature(sender, id, version, signature) => Quiet(DoSaveSignature(s, sender, id, version, signature))
    case UpdateXrplToken(sender, issuer, currency, state, precision, fee, maxHolding) =>
      Quiet(DoUpdateXrplToken(env, s, sender, issuer, currency, state, precision, fee, maxHolding))
    case UpdateCosmosToken(sender, denom, state, precision, fee, maxHolding) =>
      Quiet(DoUpdateCosmosToken(env, s, sender, denom, state, precision, fee, maxHolding))
    case UpdateXrplBaseFee(sender, fee) => Quiet(DoUpdateXrplBaseFee(s, sender, fee))
    case UpdateUsedTicketSequenceThreshold(sender, threshold) =>
      Quiet(DoUpdateUsedTicketSequenceThreshold(s, sender, threshold))
    case ClaimRefund(sender, id) => DoClaimRefund(s, sender, id)
    case ClaimRelayerFees(sender, amounts) => DoClaimRelayerFees(s, sender, amounts)
    case HaltBridge(sender) => Quiet(DoHaltBridge(s, sender))
    case ResumeBridge(sender) => Quiet(DoResumeBridge(s, sender))
    case UpdateProhibitedXrplAddresses(sender, addresses) =>
      Quiet(DoUpdateProhibitedXrplAddresses(env.chain, s, sender, addresses))
  }

  function Execute(env: Env, s: State, msg: Msg): Result<Outcome> {
    if IsOpening(msg) then ExecuteOpening(env, s, msg)
    else if IsResolving(msg) then ExecuteResolving(env, s, msg)
    else ExecuteSetting(env, s, msg)
  }

  // ---------- instantiation ----------

  const INITIAL_PROHIBITED_XRPL_ADDRESSES: set<string> := {
    "rrrrrrrrrrrrrrrrrrrrrhoLvTp",
    "rrrrrrrrrrrrrrrrrrrrBZbvji",
    "rHb9CJAWyB4rj91VRWn96DkukG4bwdtyTh",
    "rrrrrrrrrrrrrrrrrNAMEtxvNvQ",
    "rrrrrrrrrrrrrrrrrrrn5RM1rHd"
  }

  function Instantiate(chain: Chain, owner: Addr, relayers: seq<Relayer>, evidenceThreshold: nat,
                       ticketThreshold: nat, trustSetLimit: Uint128, bridgeAddress: string, baseFee: nat,
                       xrpDenom: string, osorEntryPoint: Option<Addr>): Result<State>
  {
    var prohibited := INITIAL_PROHIBITED_XRPL_ADDRESSES + {bridgeAddress};
    if !chain.validCosmosAddress(owner) then Err(InvalidCosmosAddress)
    else
      var _ :- ValidateRelayers(chain, prohibited, relayers, evidenceThreshold);
      if !chain.validXrplAddress(bridgeAddress) then Err(InvalidXrplAddress)
      else if ticketThreshold <= 1 || ticketThreshold > MAX_TICKETS then Err(InvalidUsedTicketSequenceThreshold)
      else
        var _ :- ValidateXrplAmount(trustSetLimit);
        var key := BuildXrplTokenKey(XRP_ISSUER, XRP_CURRENCY);
        var xrp := XrplToken(XRP_ISSUER, XRP_CURRENCY, xrpDenom, XRP_DEFAULT_SENDING_PRECISION,
                             XRP_DEFAULT_MAX_HOLDING_AMOUNT, Enabled, 0);
        Ok(State(owner,
                 Config(relayers, evidenceThreshold, ticketThreshold, trustSetLimit, bridgeAddress, Active, baseFee,
                        osorEntryPoint),
                 map[], {}, map[key := xrp], map[xrpDenom := key], map[], map[], [], 0, map[], false, false,
                 map[], map[], map[], prohibited))
  }
}
