/** What each message leaves of the two token tables, and when the owner's updates are accepted. */
module TokenUpdates {
  import opened Types
  import opened Amounts
  import opened Tokens
  import opened Pending
  import opened Tickets
  import opened Relayers
  import opened Evidences
  import opened Operations
  import opened Handlers
  import opened Transfers
  import Transitions

  function Given<T>(new': Option<T>, old': T): T { if new'.Some? then new'.value else old' }

  /** The XRPL table with the parts given of one token replaced. */
  function UpdatedXrpl(tokens: map<string, XrplToken>, key: string, state: Option<TokenState>, precision: Option<int>,
                       fee: Option<Uint128>, limit: Option<Uint128>): map<string, XrplToken>
  {
    if key in tokens then
      var t := tokens[key];
      tokens[key := XrplToken(t.issuer, t.currency, t.cosmosDenom, Given(precision, t.sendingPrecision),
                              Given(limit, t.maxHoldingAmount), Given(state, t.state), Given(fee, t.bridgingFee))]
    else tokens
  }

  /** The XRPL table a message leaves. */
  function XrplTableAfter(env: Env, s: State, msg: Msg): map<string, XrplToken> {
    match msg
    case RegisterXrplToken(_, issuer, currency, precision, limit, fee, denom) =>
      s.xrplTokens[issuer + currency := XrplToken(issuer, currency, denom, precision, limit, Processing, fee)]
    case RecoverXrplTokenRegistration(_, issuer, currency) =>
      var key := issuer + currency;
      if key in s.xrplTokens then s.xrplTokens[key := s.xrplTokens[key].(state := Processing)] else s.xrplTokens
    case UpdateXrplToken(_, issuer, currency, state, precision, fee, limit) =>
      UpdatedXrpl(s.xrplTokens, issuer + currency, state, precision, fee, limit)
    case _ =>
      var r := ResolvedBy(env, s, msg);
      if r.Some? && r.value.id in s.pendingOperations && s.pendingOperations[r.value.id].operationType.TrustSet? then
        TrustLineAfter(s, s.pendingOperations[r.value.id].operationType, r.value.result)
      else s.xrplTokens
  }

  /** A trust line enables its token when the ledger accepts it, and leaves it inactive otherwise. */
  function TrustLineAfter(s: State, line: OperationType, result: TransactionResult): map<string, XrplToken>
    requires line.TrustSet?
  {
    var key := line.issuer + line.currency;
    if key in s.xrplTokens then
      s.xrplTokens[key := s.xrplTokens[key].(state := if result == Accepted then Enabled else Inactive)]
    else s.xrplTokens
  }

  /** The Cosmos table a message leaves. */
  function CosmosTableAfter(s: State, msg: Msg): map<string, CosmosToken> {
    match msg
    case RegisterCosmosToken(_, denom, decimals, precision, limit, fee, currency) =>
      s.cosmosTokens[denom := CosmosToken(denom, decimals, currency, precision, limit, Enabled, fee)]
    case UpdateCosmosToken(_, denom, state, precision, fee, limit) =>
      if denom in s.cosmosTokens then
        var t := s.cosmosTokens[denom];
        s.cosmosTokens[denom := CosmosToken(t.denom, t.decimals, t.xrplCurrency, Given(precision, t.sendingPrecision),
                                            Given(limit, t.maxHoldingAmount), Given(state, t.state),
                                            Given(fee, t.bridgingFee))]
      else s.cosmosTokens
    case _ => s.cosmosTokens
  }

  predicate TablesMove(env: Env, s: State, msg: Msg, s': State) {
    s'.xrplTokens == XrplTableAfter(env, s, msg) && s'.cosmosTokens == CosmosTableAfter(s, msg)
  }

  // ---------- resolutions ----------

  lemma CloseTables(s: State, op: Operation, opResult: Option<OperationResult>, result: TransactionResult,
                    hash: Option<string>, id: Sequence, ticket: Option<Sequence>)
    requires id in s.pendingOperations && op == s.pendingOperations[id]
    requires HandleOperation(s, op, opResult, result, hash, id, ticket).Ok?
    ensures var s' := HandleOperation(s, op, opResult, result, hash, id, ticket).value.state;
            && s'.cosmosTokens == s.cosmosTokens
            && s'.xrplTokens == (if op.operationType.TrustSet? then TrustLineAfter(s, op.operationType, result)
                                 else s.xrplTokens)
  {
    hide ConfirmOperation;
    ConfirmOperationFrame(s, op, opResult, result, hash, id);
    if op.operationType.TrustSet? { Transitions.TrustSetTable(s, op, opResult, result, hash, id); }
  }

  lemma EvidenceTables(env: Env, s: State, sender: Addr, ev: Evidence)
    requires DoSaveEvidence(env, s, sender, ev).Ok?
    ensures TablesMove(env, s, SaveEvidence(sender, ev), DoSaveEvidence(env, s, sender, ev).value.state)
  {
    hide HandleEvidence, HandleOperation, RegisterUsedTicket, ReceiveTransfer, IsRelayer;
    var (s1, reached) := HandleEvidence(env.chain, s, sender, ev).value;
    if ev.XrplTransactionResult? && reached {
      var id := SequenceOf(ev);
      CloseTables(s1, s1.pendingOperations[id], ev.operationResult, ev.result, ev.txHash, id, ev.ticketSequence);
    }
  }

  // ---------- the owner's messages ----------

  lemma OnlyResolvingResolves(env: Env, s: State, msg: Msg)
    requires !IsResolving(msg)
    ensures ResolvedBy(env, s, msg) == None
  {
    hide HandleEvidence;
  }

  lemma OpeningTables(env: Env, s: State, msg: Msg)
    requires IsOpening(msg) && ExecuteOpening(env, s, msg).Ok?
    ensures TablesMove(env, s, msg, ExecuteOpening(env, s, msg).value.state)
  {
    hide DoRegisterXrplToken, DoRecoverTickets, DoRecoverXrplTokenRegistration, DoSendToXrpl, DoRotateKeys,
      KeepsConfig, KeepsVotes, KeepsFees, ResolvedBy;
    OnlyResolvingResolves(env, s, msg);
    match msg
    case RegisterXrplToken(sender, issuer, currency, precision, limit, fee, denom) =>
      Transitions.RegisterTable(env, s, sender, issuer, currency, precision, limit, fee, denom);
    case RecoverXrplTokenRegistration(sender, issuer, currency) =>
      Transitions.RecoverTable(env.time, s, sender, issuer, currency);
    case _ =>
  }

  predicate IsTokenSetting(msg: Msg) { msg.RegisterCosmosToken? || msg.UpdateXrplToken? || msg.UpdateCosmosToken? }

  lemma OtherTables(env: Env, s: State, msg: Msg)
    requires !IsOpening(msg) && !IsResolving(msg) && !IsTokenSetting(msg) && ExecuteSetting(env, s, msg).Ok?
    ensures KeepsXrplTokens(s, ExecuteSetting(env, s, msg).value.state)
    ensures KeepsCosmosTokens(s, ExecuteSetting(env, s, msg).value.state)
    ensures XrplTableAfter(env, s, msg) == s.xrplTokens && CosmosTableAfter(s, msg) == s.cosmosTokens
  {
    hide DoUpdateXrplBaseFee, DoClaimRefund, DoClaimRelayerFees, DoSaveSignature, AddSignature, ResolvedBy, SameWork,
      DoUpdateUsedTicketSequenceThreshold, DoUpdateProhibitedXrplAddresses, DoHaltBridge, DoResumeBridge;
    OnlyResolvingResolves(env, s, msg);
  }

  lemma SettingTables(env: Env, s: State, msg: Msg)
    requires !IsOpening(msg) && !IsResolving(msg) && ExecuteSetting(env, s, msg).Ok?
    ensures TablesMove(env, s, msg, ExecuteSetting(env, s, msg).value.state)
  {
    hide DoRegisterCosmosToken, DoUpdateXrplToken, DoUpdateCosmosToken, ResolvedBy, Given;
    OnlyResolvingResolves(env, s, msg);
    if msg.RegisterCosmosToken? {
      CosmosRegistered(s, msg.sender, msg.denom, msg.decimals, msg.precision, msg.maxHolding, msg.fee,
                       msg.derivedCurrency);
    } else if msg.UpdateXrplToken? {
      XrplUpdated(env, s, msg.sender, msg.issuer, msg.currency, msg.state, msg.newPrecision, msg.newFee,
                  msg.newMaxHolding);
    } else if msg.UpdateCosmosToken? {
      CosmosUpdated(env, s, msg.sender, msg.denom, msg.state, msg.newPrecision, msg.newFee, msg.newMaxHolding);
    } else {
      OtherTables(env, s, msg);
    }
  }

  lemma CosmosRegistered(s: State, sender: Addr, denom: string, decimals: nat, precision: int, limit: Uint128,
                         fee: Uint128, currency: string)
    requires DoRegisterCosmosToken(s, sender, denom, decimals, precision, limit, fee, currency).Ok?
    ensures DoRegisterCosmosToken(s, sender, denom, decimals, precision, limit, fee, currency).value.cosmosTokens
         == s.cosmosTokens[denom := CosmosToken(denom, decimals, currency, precision, limit, Enabled, fee)]
  {
    hide ValidateSendingPrecision, ValidateCosmosDenom, ValidateXrplCurrency, OnlyTokens;
  }

  /** A part of an update passes its own check. */
  predicate StatePasses(state: TokenState, target: Option<TokenState>) {
    target.Some? ==> state in {Enabled, Disabled} && target.value in {Enabled, Disabled}
  }
  predicate PrecisionPasses(target: Option<int>, decimals: nat) {
    target.Some? ==> -15 <= target.value <= 15 && target.value <= decimals
  }
  predicate LimitPasses(bridged: nat, target: Option<Uint128>) { target.Some? ==> bridged <= target.value }

  /** The decimals an update of a named pair is checked for. */
  function NamedDecimals(issuer: string, currency: string): nat {
    if issuer == "rrrrrrrrrrrrrrrrrrrrrhoLvTp" && currency == "XRP" then 6 else 15
  }

  lemma XrplUpdateAccepted(env: Env, s: State, sender: Addr, issuer: string, currency: string,
                           state: Option<TokenState>,
                           precision: Option<int>, fee: Option<Uint128>, limit: Option<Uint128>)
    ensures DoUpdateXrplToken(env, s, sender, issuer, currency, state, precision, fee, limit).Ok? <==>
              && sender == s.owner && s.config.bridgeState == Active
              && issuer + currency in s.xrplTokens
              && var t := s.xrplTokens[issuer + currency];
              && StatePasses(t.state, state)
              && PrecisionPasses(precision, NamedDecimals(issuer, currency))
              && LimitPasses(SupplyOf(env.bank, t.cosmosDenom), limit)
  {
    hide OnlyTokens, SetTokenState, SetTokenSendingPrecision, SetTokenMaxHoldingAmount, SetTokenBridgingFee,
      StatePasses, PrecisionPasses, LimitPasses, ReplaceXrplToken;
    if issuer + currency in s.xrplTokens {
      var t := s.xrplTokens[issuer + currency];
      PartsPass(t.state, t.sendingPrecision, t.bridgingFee, t.maxHoldingAmount, NamedDecimals(issuer, currency),
                SupplyOf(env.bank, t.cosmosDenom), state, precision, fee, limit);
    }
  }

  lemma XrplUpdated(env: Env, s: State, sender: Addr, issuer: string, currency: string, state: Option<TokenState>,
                    precision: Option<int>, fee: Option<Uint128>, limit: Option<Uint128>)
    requires DoUpdateXrplToken(env, s, sender, issuer, currency, state, precision, fee, limit).Ok?
    ensures var s' := DoUpdateXrplToken(env, s, sender, issuer, currency, state, precision, fee, limit).value;
            && s'.xrplTokens == UpdatedXrpl(s.xrplTokens, issuer + currency, state, precision, fee, limit)
            && s'.cosmosTokens == s.cosmosTokens
  {
    hide OnlyTokens, SetTokenState, SetTokenSendingPrecision, SetTokenMaxHoldingAmount, SetTokenBridgingFee, Given,
      StatePasses, PrecisionPasses, LimitPasses;
    var t := s.xrplTokens[BuildXrplTokenKey(issuer, currency)];
    PartsPass(t.state, t.sendingPrecision, t.bridgingFee, t.maxHoldingAmount, NamedDecimals(issuer, currency),
              SupplyOf(env.bank, t.cosmosDenom), state, precision, fee, limit);
  }

  /** Each part of an update succeeds exactly when it passes, and then is what was given. */
  lemma PartsPass(state: TokenState, precision: int, fee: Uint128, limit: Uint128, decimals: nat, bridged: nat,
                  newState: Option<TokenState>, newPrecision: Option<int>, newFee: Option<Uint128>,
                  newLimit: Option<Uint128>)
    ensures SetTokenState(state, newState).Ok? <==> StatePasses(state, newState)
    ensures SetTokenState(state, newState).Ok? ==> SetTokenState(state, newState).value == Given(newState, state)
    ensures SetTokenSendingPrecision(precision, newPrecision, decimals).Ok? <==> PrecisionPasses(newPrecision, decimals)
    ensures SetTokenSendingPrecision(precision, newPrecision, decimals).Ok? ==>
              SetTokenSendingPrecision(precision, newPrecision, decimals).value == Given(newPrecision, precision)
    ensures SetTokenBridgingFee(fee, newFee) == Given(newFee, fee)
    ensures SetTokenMaxHoldingAmount(bridged, limit, newLimit).Ok? <==> LimitPasses(bridged, newLimit)
    ensures SetTokenMaxHoldingAmount(bridged, limit, newLimit).Ok? ==>
              SetTokenMaxHoldingAmount(bridged, limit, newLimit).value == Given(newLimit, limit)
  {
  }

  lemma CosmosUpdateAccepted(env: Env, s: State, sender: Addr, denom: string, state: Option<TokenState>,
                             precision: Option<int>, fee: Option<Uint128>, limit: Option<Uint128>)
    ensures DoUpdateCosmosToken(env, s, sender, denom, state, precision, fee, limit).Ok? <==>
              && sender == s.owner && s.config.bridgeState == Active
              && denom in s.cosmosTokens
              && var t := s.cosmosTokens[denom];
              && StatePasses(t.state, state)
              && PrecisionPasses(precision, t.decimals)
              && LimitPasses(HeldOf(env.bank, t.denom), limit)
  {
    hide OnlyTokens, SetTokenState, SetTokenSendingPrecision, SetTokenMaxHoldingAmount, SetTokenBridgingFee,
      StatePasses, PrecisionPasses, LimitPasses, ReplaceCosmosToken;
    if denom in s.cosmosTokens {
      var t := s.cosmosTokens[denom];
      PartsPass(t.state, t.sendingPrecision, t.bridgingFee, t.maxHoldingAmount, t.decimals, HeldOf(env.bank, t.denom),
                state, precision, fee, limit);
    }
  }

  lemma CosmosUpdated(env: Env, s: State, sender: Addr, denom: string, state: Option<TokenState>,
                      precision: Option<int>, fee: Option<Uint128>, limit: Option<Uint128>)
    requires DoUpdateCosmosToken(env, s, sender, denom, state, precision, fee, limit).Ok?
    ensures var s' := DoUpdateCosmosToken(env, s, sender, denom, state, precision, fee, limit).value;
            && s'.cosmosTokens ==
                 CosmosTableAfter(s, UpdateCosmosToken(sender, denom, state, precision, fee, limit))
            && s'.xrplTokens == s.xrplTokens
  {
    hide OnlyTokens, SetTokenState, SetTokenSendingPrecision, SetTokenMaxHoldingAmount, SetTokenBridgingFee, Given,
      StatePasses, PrecisionPasses, LimitPasses;
    var t := s.cosmosTokens[denom];
    PartsPass(t.state, t.sendingPrecision, t.bridgingFee, t.maxHoldingAmount, t.decimals, HeldOf(env.bank, t.denom),
              state, precision, fee, limit);
  }

  /** Both token tables of one message, to the last field. */
  lemma TablesStep(env: Env, s: State, msg: Msg)
    requires Execute(env, s, msg).Ok?
    ensures TablesMove(env, s, msg, Execute(env, s, msg).value.state)
  {
    hide ExecuteOpening, ExecuteSetting, DoSaveEvidence, HandleOperation, HandleEvidence;
    if IsOpening(msg) {
      OpeningTables(env, s, msg);
    } else if IsResolving(msg) {
      match msg
      case SaveEvidence(sender, ev) => EvidenceTables(env, s, sender, ev);
      case CancelPendingOperation(_, id) =>
        var op := s.pendingOperations[id];
        CloseTables(s, op, if op.operationType.AllocateTickets? then Some(TicketsAllocation(None)) else None,
                    Invalid, None, id, op.ticketSequence);
    } else {
      SettingTables(env, s, msg);
    }
  }

  /** The owner's update of an XRPL token is accepted exactly when each part given passes its own check;
      then every part given is the token's, and every part not given stays. */
  lemma XrplUpdateMeans(env: Env, s: State, msg: Msg)
    requires msg.UpdateXrplToken?
    ensures var r := Execute(env, s, msg);
            var key := msg.issuer + msg.currency;
            && (r.Ok? <==>
                  && msg.sender == s.owner && s.config.bridgeState == Active && key in s.xrplTokens
                  && StatePasses(s.xrplTokens[key].state, msg.state)
                  && PrecisionPasses(msg.newPrecision, NamedDecimals(msg.issuer, msg.currency))
                  && LimitPasses(SupplyOf(env.bank, s.xrplTokens[key].cosmosDenom), msg.newMaxHolding))
            && (r.Ok? ==>
                  && key in r.value.state.xrplTokens
                  && var t, t' := s.xrplTokens[key], r.value.state.xrplTokens[key];
                  && t'.state == Given(msg.state, t.state)
                  && t'.sendingPrecision == Given(msg.newPrecision, t.sendingPrecision)
                  && t'.bridgingFee == Given(msg.newFee, t.bridgingFee)
                  && t'.maxHoldingAmount == Given(msg.newMaxHolding, t.maxHoldingAmount)
                  && (forall k | k != key :: k in s.xrplTokens <==> k in r.value.state.xrplTokens)
                  && (forall k | k != key && k in s.xrplTokens :: r.value.state.xrplTokens[k] == s.xrplTokens[k]))
  {
    hide DoUpdateXrplToken, OnlyTokens, StatePasses, PrecisionPasses, LimitPasses, NamedDecimals;
    XrplUpdateAccepted(env, s, msg.sender, msg.issuer, msg.currency, msg.state, msg.newPrecision, msg.newFee,
                       msg.newMaxHolding);
    if Execute(env, s, msg).Ok? {
      XrplUpdated(env, s, msg.sender, msg.issuer, msg.currency, msg.state, msg.newPrecision, msg.newFee,
                  msg.newMaxHolding);
    }
  }

  /** The same for a Cosmos token, the limit against the contract's own balance. */
  lemma CosmosUpdateMeans(env: Env, s: State, msg: Msg)
    requires msg.UpdateCosmosToken?
    ensures var r := Execute(env, s, msg);
            && (r.Ok? <==>
                  && msg.sender == s.owner && s.config.bridgeState == Active && msg.denom in s.cosmosTokens
                  && var t := s.cosmosTokens[msg.denom];
                  && StatePasses(t.state, msg.state)
                  && PrecisionPasses(msg.newPrecision, t.decimals)
                  && LimitPasses(HeldOf(env.bank, t.denom), msg.newMaxHolding))
            && (r.Ok? ==>
                  && msg.denom in r.value.state.cosmosTokens
                  && var t, t' := s.cosmosTokens[msg.denom], r.value.state.cosmosTokens[msg.denom];
                  && t'.state == Given(msg.state, t.state)
                  && t'.sendingPrecision == Given(msg.newPrecision, t.sendingPrecision)
                  && t'.bridgingFee == Given(msg.newFee, t.bridgingFee)
                  && t'.maxHoldingAmount == Given(msg.newMaxHolding, t.maxHoldingAmount)
                  && t'.decimals == t.decimals && t'.xrplCurrency == t.xrplCurrency && t'.denom == t.denom)
  {
    hide DoUpdateCosmosToken, OnlyTokens, StatePasses, PrecisionPasses, LimitPasses;
    CosmosUpdateAccepted(env, s, msg.sender, msg.denom, msg.state, msg.newPrecision, msg.newFee, msg.newMaxHolding);
    if Execute(env, s, msg).Ok? {
      CosmosUpdated(env, s, msg.sender, msg.denom, msg.state, msg.newPrecision, msg.newFee, msg.newMaxHolding);
    }
  }
}
