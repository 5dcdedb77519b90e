/** The contract's own invariants, which hold in every run whatever relayers, owner, users and the
    ledger do. */
module Soundness {
  import opened Types
  import opened Amounts
  import opened Tokens
  import opened Pending
  import opened Tickets
  import opened Relayers
  import opened Evidences
  import opened Fees
  import opened Operations
  import opened Handlers
  import opened Flags
  import opened TokenTables
  import opened Queue
  import opened Lifecycle
  import opened Quorum
  import opened FeeBook

  ghost predicate Sound(s: State) {
    && FlagsAgree(s)
    && TablesSound(s)
    && QueueSound(s)
    && LifecycleAgrees(s.pendingOperations, s.xrplTokens)
    && ProperRelayers(s.config.relayers, s.config.evidenceThreshold)
    && TalliesSound(s)
    && BookSound(s.feesCollected)
  }

  // ---------- opening ----------

  /** Tables, queue and lifecycle after a message that queues an operation under a ticket. */
  lemma OpenedIsSound(time: nat, s: State, s': State, typ: OperationType)
    requires Sound(s) && Opens(time, s, s', typ) && !typ.AllocateTickets?
    requires TablesSound(s') && TablesExtend(s, s') && s'.config.xrplBaseFee == s.config.xrplBaseFee
    requires typ.CosmosToXrplTransfer? ==> TransferSound(s', typ)
    requires typ.RotateKeys? ==> ProperRelayers(typ.newRelayers, typ.newEvidenceThreshold)
    ensures QueueSound(s')
  {
    hide TransferSound, TablesSound, TablesExtend, ProperRelayers, FlagsAgree, LifecycleAgrees, TalliesSound,
      BookSound;
    var k := s.availableTickets[0];
    assert OperationSound(s', k, s'.pendingOperations[k]);
    QueueKept(s, s');
  }

  lemma NonTrustOpens(ops: OpMap, k: Sequence, op: Operation, tokens: Table)
    requires LifecycleAgrees(ops, tokens) && k !in ops && !op.operationType.TrustSet?
    ensures LifecycleAgrees(ops[k := op], tokens)
  {
    LifecycleKept(ops, ops[k := op], tokens, tokens);
  }

  lemma RegisterIsSound(env: Env, s: State, sender: Addr, issuer: string, currency: string, precision: int,
                        maxHolding: Uint128, fee: Uint128, denom: string)
    requires Lawful(env.chain) && Sound(s)
    requires DoRegisterXrplToken(env, s, sender, issuer, currency, precision, maxHolding, fee, denom).Ok?
    ensures var s' := DoRegisterXrplToken(env, s, sender, issuer, currency, precision, maxHolding, fee,
                                          denom).value.state;
            TablesSound(s') && TablesExtend(s, s') && LifecycleAgrees(s'.pendingOperations, s'.xrplTokens)
  {
    hide TablesSound, TablesExtend, FlagsAgree, LifecycleAgrees, TalliesSound, BookSound, QueueSound, ProperRelayers,
      ValidateXrplCurrency, ValidateSendingPrecision, CheckValidOperationIfHalt, KeepsVotes, KeepsTickets;
    var s' := DoRegisterXrplToken(env, s, sender, issuer, currency, precision, maxHolding, fee, denom).value.state;
    var key := BuildXrplTokenKey(issuer, currency);
    var token := XrplToken(issuer, currency, denom, precision, maxHolding, Processing, fee);
    BridgeIsProhibited(s);
    InsertKeepsTables(s, s', key, token);
    var k := s.availableTickets[0];
    LifecycleOpened(s.pendingOperations, k, s'.pendingOperations[k], s.xrplTokens, token);
  }

  lemma BridgeIsProhibited(s: State)
    requires TablesSound(s)
    ensures s.config.bridgeXrplAddress in s.prohibitedXrplAddresses
  {
  }

  lemma RecoverIsSound(time: nat, s: State, sender: Addr, issuer: string, currency: string)
    requires Sound(s) && DoRecoverXrplTokenRegistration(time, s, sender, issuer, currency).Ok?
    ensures var s' := DoRecoverXrplTokenRegistration(time, s, sender, issuer, currency).value;
            TablesSound(s') && TablesExtend(s, s') && LifecycleAgrees(s'.pendingOperations, s'.xrplTokens)
  {
    hide TablesSound, TablesExtend, FlagsAgree, LifecycleAgrees, TalliesSound, BookSound, QueueSound, ProperRelayers,
      CheckValidOperationIfHalt, KeepsVotes, KeepsTickets;
    var s' := DoRecoverXrplTokenRegistration(time, s, sender, issuer, currency).value;
    var key := BuildXrplTokenKey(issuer, currency);
    var token := s.xrplTokens[key].(state := Processing);
    ReplaceKeepsTables(s, s', key, token);
    var k := s.availableTickets[0];
    LifecycleOpened(s.pendingOperations, k, s'.pendingOperations[k], s.xrplTokens, token);
  }

  lemma SendIsSound(env: Env, s: State, sender: Addr, funds: seq<Coin>, recipient: string, deliver: Option<Uint128>)
    requires Sound(s) && DoSendToXrpl(env, s, sender, funds, recipient, deliver).Ok?
    ensures var s' := DoSendToXrpl(env, s, sender, funds, recipient, deliver).value;
            && TransferSound(s', s'.pendingOperations[s.availableTickets[0]].operationType)
            && BookSound(s'.feesCollected)
  {
    hide TablesSound, FlagsAgree, LifecycleAgrees, TalliesSound, BookSound, QueueSound, ProperRelayers,
      CheckValidOperationIfHalt, DecideTransfer, ValidateXrplAmount, TransferSound;
    var s' := DoSendToXrpl(env, s, sender, funds, recipient, deliver).value;
    SentTransferIsSound(env, s, s', funds[0], deliver, sender, recipient);
    DecideKeepsBook(env, s, funds[0], deliver);
  }

  lemma DecideKeepsBook(env: Env, s: State, funds: Coin, deliver: Option<Uint128>)
    requires BookSound(s.feesCollected) && DecideTransfer(env, s, funds, deliver).Ok?
    ensures BookSound(DecideTransfer(env, s, funds, deliver).value.state.feesCollected)
  {
    hide BookSound, TruncateAmount, TruncateAndConvertAmount, CollectFees, DeliverAmount, OnlyFees;
    if funds.denom in s.xrplTokenByDenom && s.xrplTokenByDenom[funds.denom] in s.xrplTokens {
      var token := s.xrplTokens[s.xrplTokenByDenom[funds.denom]];
      var (_, remainder) := TruncateAmount(token.sendingPrecision, DecimalsOf(token.issuer, token.currency),
                                           funds.amount - token.bridgingFee).value;
      CollectionKeepsBook(s, token.bridgingFee, token.cosmosDenom, remainder);
    } else {
      var token := s.cosmosTokens[funds.denom];
      var (_, remainder) := TruncateAndConvertAmount(token.sendingPrecision, token.decimals, XRPL_TOKENS_DECIMALS,
                                                     funds.amount, token.bridgingFee).value;
      CollectionKeepsBook(s, token.bridgingFee, token.denom, remainder);
    }
  }

  lemma CollectionKeepsBook(s: State, fee: Uint128, denom: string, remainder: Uint128)
    requires BookSound(s.feesCollected) && HandleFeeCollection(s, fee, denom, remainder).Ok?
    ensures BookSound(HandleFeeCollection(s, fee, denom, remainder).value.0.feesCollected)
  {
    hide BookSound, CollectFees;
    CollectFeesConserves(s, Coin(denom, fee + remainder), denom);
  }

  lemma RotateIsSound(env: Env, s: State, sender: Addr, relayers: seq<Relayer>, threshold: nat)
    requires DoRotateKeys(env, s, sender, relayers, threshold).Ok?
    ensures ProperRelayers(relayers, threshold)
  {
    hide CheckRelayers, CheckValidOperationIfHalt, DistinctRelayers;
    ValidRelayersAreProper(env.chain, s.prohibitedXrplAddresses, relayers, threshold);
  }

  lemma OpeningSound(env: Env, s: State, msg: Msg)
    requires Lawful(env.chain) && Sound(s) && IsOpening(msg) && ExecuteOpening(env, s, msg).Ok?
    ensures Sound(ExecuteOpening(env, s, msg).value.state) && TablesExtend(s, ExecuteOpening(env, s, msg).value.state)
  {
    hide DoRegisterXrplToken, DoRecoverTickets, DoRecoverXrplTokenRegistration, DoSendToXrpl, DoRotateKeys, FlagsAgree,
      TablesSound, TablesExtend, QueueSound, LifecycleAgrees, TalliesSound, BookSound, TransferSound, ProperRelayers,
      Lawful;
    var s' := ExecuteOpening(env, s, msg).value.state;
    OpeningKeepsFlags(env, s, msg);
    KeptTallies(s, s');
    match msg
    case RegisterXrplToken(sender, issuer, currency, precision, maxHolding, fee, denom) =>
      RegisterIsSound(env, s, sender, issuer, currency, precision, maxHolding, fee, denom);
      OpenedIsSound(env.time, s, s', TrustSet(issuer, currency, s.config.trustSetLimitAmount));
    case RecoverTickets(sender, account, number) =>
      SameTables(s, s');
      AllocationIsSound(s, s', account, NewOperation(env.time, s, account, None, Some(account),
        AllocateTickets(if number.Some? then number.value else s.usedTickets)));
    case RecoverXrplTokenRegistration(sender, issuer, currency) =>
      RecoverIsSound(env.time, s, sender, issuer, currency);
      OpenedIsSound(env.time, s, s', TrustSet(issuer, currency, s.config.trustSetLimitAmount));
    case SendToXrpl(sender, funds, recipient, deliver) =>
      SendIsSound(env, s, sender, funds, recipient, deliver);
      SameTables(s, s');
      var k := s.availableTickets[0];
      OpenedIsSound(env.time, s, s', s'.pendingOperations[k].operationType);
      NonTrustOpens(s.pendingOperations, k, s'.pendingOperations[k], s.xrplTokens);
    case RotateKeysMsg(sender, relayers, threshold) =>
      RotateIsSound(env, s, sender, relayers, threshold);
      BridgeIsProhibited(s);
      KeptTables(s, s');
      var k := s.availableTickets[0];
      OpenedIsSound(env.time, s, s', RotateKeys(relayers, threshold));
      NonTrustOpens(s.pendingOperations, k, s'.pendingOperations[k], s.xrplTokens);
  }

  lemma AllocationIsSound(s: State, s': State, k: Sequence, op: Operation)
    requires QueueSound(s) && LifecycleAgrees(s.pendingOperations, s.xrplTokens) && k !in s.pendingOperations
    requires TablesSound(s) && TablesSound(s') && TablesExtend(s, s') && KeepsConfig(s, s') && KeepsXrplTokens(s, s')
    requires s'.pendingOperations == s.pendingOperations[k := op]
    requires op.operationType.AllocateTickets? && OperationSound(s, k, op)
    ensures QueueSound(s') && LifecycleAgrees(s'.pendingOperations, s'.xrplTokens)
  {
    hide TablesSound, TablesExtend, LifecycleAgrees;
    assert OperationSound(s', k, op);
    QueueKept(s, s');
    NonTrustOpens(s.pendingOperations, k, op, s.xrplTokens);
  }

  // ---------- resolving ----------

  lemma VoteIsSound(chain: Chain, s: State, sender: Addr, ev: Evidence)
    requires Sound(s) && IsRelayer(s.config.relayers, sender) && HandleEvidence(chain, s, sender, ev).Ok?
    ensures Sound(HandleEvidence(chain, s, sender, ev).value.0)
            && TablesExtend(s, HandleEvidence(chain, s, sender, ev).value.0)
  {
    hide FlagsAgree, TablesSound, TablesExtend, QueueSound, LifecycleAgrees, TalliesSound, BookSound, ProperRelayers,
      HandleEvidence, IsRelayer;
    var s' := HandleEvidence(chain, s, sender, ev).value.0;
    VoteKeepsTallies(chain, s, sender, ev);
    FlagsHaltWhileRotating(s);
    SameFlags(s, s');
    SameTables(s, s');
    QueueKept(s, s');
  }

  lemma FeesAreSound(s: State, s': State)
    requires Sound(s) && OnlyFees(s, s') && BookSound(s'.feesCollected)
    ensures Sound(s') && TablesExtend(s, s')
  {
    hide FlagsAgree, TablesSound, TablesExtend, QueueSound, LifecycleAgrees, TalliesSound, BookSound, ProperRelayers;
    FlagsHaltWhileRotating(s);
    SameFlags(s, s');
    SameTables(s, s');
    QueueKept(s, s');
    KeptTallies(s, s');
  }

  lemma UseIsSound(time: nat, s: State)
    requires Sound(s) && RegisterUsedTicket(time, s).Ok?
    ensures Sound(RegisterUsedTicket(time, s).value.0) && TablesExtend(s, RegisterUsedTicket(time, s).value.0)
  {
    hide FlagsAgree, TablesSound, TablesExtend, QueueSound, LifecycleAgrees, TalliesSound, BookSound, ProperRelayers,
      RegisterUsedTicket;
    var s' := RegisterUsedTicket(time, s).value.0;
    RegisterUsedKeepsFlags(time, s);
    SameTables(s, s');
    KeptTallies(s, s');
    if Reallocates(s) {
      var k := s.availableTickets[0];
      AllocationIsSound(s, s', k, NewOperation(time, s, k, Some(k), None,
                                               AllocateTickets(s.config.usedTicketSequenceThreshold)));
    } else {
      QueueKept(s, s');
    }
  }

  lemma TrustSetCloses(s: State, op: Operation, opResult: Option<OperationResult>, result: TransactionResult,
                       hash: Option<string>, id: Sequence, ticket: Option<Sequence>)
    requires Sound(s) && id in s.pendingOperations && op == s.pendingOperations[id] && op.operationType.TrustSet?
    requires HandleOperation(s, op, opResult, result, hash, id, ticket).Ok?
    ensures var s' := HandleOperation(s, op, opResult, result, hash, id, ticket).value.state;
            TablesSound(s') && TablesExtend(s, s') && LifecycleAgrees(s'.pendingOperations, s'.xrplTokens)
  {
    hide FlagsAgree, TablesSound, TablesExtend, QueueSound, LifecycleAgrees, TalliesSound, BookSound, ProperRelayers;
    var s' := HandleOperation(s, op, opResult, result, hash, id, ticket).value.state;
    var key := TrustKey(op);
    var token := s.xrplTokens[key].(state := if result.Accepted? then Enabled else Inactive);
    ReplaceKeepsTables(s, s', key, token);
    LifecycleClosed(s.pendingOperations, id, s.xrplTokens, token);
  }

  lemma OtherCloses(s: State, s': State, id: Sequence)
    requires Sound(s) && id in s.pendingOperations && !s.pendingOperations[id].operationType.TrustSet?
    requires s'.pendingOperations == s.pendingOperations - {id}
    requires KeepsXrplTokens(s, s') && KeepsCosmosTokens(s, s')
    requires s'.config.bridgeXrplAddress == s.config.bridgeXrplAddress
    requires s'.prohibitedXrplAddresses == s.prohibitedXrplAddresses
    ensures TablesSound(s') && TablesExtend(s, s') && LifecycleAgrees(s'.pendingOperations, s'.xrplTokens)
  {
    hide FlagsAgree, TablesSound, TablesExtend, QueueSound, TalliesSound, BookSound, ProperRelayers;
    BridgeIsProhibited(s);
    KeptTables(s, s');
    LifecycleKept(s.pendingOperations, s'.pendingOperations, s.xrplTokens, s'.xrplTokens);
  }

  /** A rotation installs a relayer set that was validated when it was queued, with no tally left. */
  lemma RotationCloses(s: State, op: Operation, opResult: Option<OperationResult>, result: TransactionResult,
                       hash: Option<string>, id: Sequence)
    requires Sound(s) && id in s.pendingOperations && op == s.pendingOperations[id]
    requires ConfirmOperation(s, op, opResult, result, hash, id).Ok?
    ensures var s' := ConfirmOperation(s, op, opResult, result, hash, id).value.state;
            && ProperRelayers(s'.config.relayers, s'.config.evidenceThreshold) && TalliesSound(s')
            && s'.config.bridgeXrplAddress == s.config.bridgeXrplAddress
            && s'.config.xrplBaseFee == s.config.xrplBaseFee
  {
    hide FlagsAgree, TablesSound, LifecycleAgrees, BookSound, DistinctRelayers, TransferSound, DistinctSigners,
      HandleTransferConfirmation, HandleTrustSetConfirmation, HandleTicketAllocationConfirmation;
    assert OperationSound(s, id, op);
    ConfirmOperationFrame(s, op, opResult, result, hash, id);
    var s' := ConfirmOperation(s, op, opResult, result, hash, id).value.state;
    if op.operationType.RotateKeys? && result.Accepted? {
      assert s'.txEvidences == map[];
    } else {
      KeptTallies(s, s');
    }
  }

  lemma CloseIsSound(s: State, op: Operation, opResult: Option<OperationResult>, result: TransactionResult,
                     hash: Option<string>, id: Sequence, ticket: Option<Sequence>)
    requires Sound(s) && id in s.pendingOperations && op == s.pendingOperations[id]
    requires HandleOperation(s, op, opResult, result, hash, id, ticket).Ok?
    ensures var s' := HandleOperation(s, op, opResult, result, hash, id, ticket).value.state;
            Sound(s') && TablesExtend(s, s')
  {
    hide FlagsAgree, TablesSound, TablesExtend, QueueSound, LifecycleAgrees, TalliesSound, BookSound, ProperRelayers,
      ConfirmOperation;
    var s' := HandleOperation(s, op, opResult, result, hash, id, ticket).value.state;
    var s1 := ConfirmOperation(s, op, opResult, result, hash, id).value.state;
    HandleOperationKeepsFlags(s, op, opResult, result, hash, id, ticket);
    ConfirmOperationFrame(s, op, opResult, result, hash, id);
    RotationCloses(s, op, opResult, result, hash, id);
    KeptTallies(s1, s');
    if op.operationType.TrustSet? {
      TrustSetCloses(s, op, opResult, result, hash, id, ticket);
    } else {
      OtherCloses(s, s', id);
    }
    QueueKept(s, s');
  }

  lemma ReceiveKeepsBook(env: Env, s: State, ev: Evidence, reached: bool)
    requires ev.XrplToCosmosTransfer? && BookSound(s.feesCollected) && ReceiveTransfer(env, s, ev, reached).Ok?
    ensures BookSound(ReceiveTransfer(env, s, ev, reached).value.state.feesCollected)
  {
    hide BookSound, TruncateAmount, ConvertAndTruncateAmount, CollectFees, OnlyFees, CheckedAdd;
    if reached {
      if ev.issuer != s.config.bridgeXrplAddress {
        var token := s.xrplTokens[BuildXrplTokenKey(ev.issuer, ev.currency)];
        var (_, remainder) := TruncateAmount(token.sendingPrecision, DecimalsOf(token.issuer, token.currency),
                                             ev.amount - token.bridgingFee).value;
        CollectionKeepsBook(s, token.bridgingFee, token.cosmosDenom, remainder);
      } else {
        var token := s.cosmosTokens[s.cosmosTokenByCurrency[ev.currency]];
        var (_, remainder) := ConvertAndTruncateAmount(token.sendingPrecision, XRPL_TOKENS_DECIMALS, token.decimals,
                                                       ev.amount, token.bridgingFee).value;
        CollectionKeepsBook(s, token.bridgingFee, token.denom, remainder);
      }
    }
  }

  lemma EvidenceIsSound(env: Env, s: State, sender: Addr, ev: Evidence)
    requires Sound(s) && DoSaveEvidence(env, s, sender, ev).Ok?
    ensures Sound(DoSaveEvidence(env, s, sender, ev).value.state)
    ensures TablesExtend(s, DoSaveEvidence(env, s, sender, ev).value.state)
  {
    hide Sound, TablesExtend, HandleOperation, RegisterUsedTicket, HandleEvidence, ReceiveTransfer, IsRelayer,
      BookSound;
    var (s1, reached) := HandleEvidence(env.chain, s, sender, ev).value;
    VoteIsSound(env.chain, s, sender, ev);
    var s' := DoSaveEvidence(env, s, sender, ev).value.state;
    if ev.XrplToCosmosTransfer? {
      SoundBook(s1);
      ReceiveKeepsBook(env, s1, ev, reached);
      FeesAreSound(s1, s');
      ExtendsTwice(s, s1, s');
    } else if reached {
      var id := SequenceOf(ev);
      var op := s1.pendingOperations[id];
      var o := HandleOperation(s1, op, ev.operationResult, ev.result, ev.txHash, id, ev.ticketSequence).value;
      CloseIsSound(s1, op, ev.operationResult, ev.result, ev.txHash, id, ev.ticketSequence);
      ExtendsTwice(s, s1, o.state);
      if !ev.result.Invalid? && ev.ticketSequence.Some? {
        UseIsSound(env.time, o.state);
        ExtendsTwice(s, o.state, s');
      }
    }
  }

  lemma SoundBook(s: State)
    requires Sound(s)
    ensures BookSound(s.feesCollected)
  {
  }

  lemma ExtendsTwice(s: State, s1: State, s2: State)
    requires TablesExtend(s, s1) && TablesExtend(s1, s2)
    ensures TablesExtend(s, s2)
  {
  }

  // ---------- settings ----------

  lemma RegisterCosmosIsSound(s: State, sender: Addr, denom: string, decimals: nat, precision: int,
                              maxHolding: Uint128, fee: Uint128, currency: string)
    requires TablesSound(s)
    requires DoRegisterCosmosToken(s, sender, denom, decimals, precision, maxHolding, fee, currency).Ok?
    ensures var s' := DoRegisterCosmosToken(s, sender, denom, decimals, precision, maxHolding, fee, currency).value;
            TablesSound(s') && TablesExtend(s, s')
  {
    hide TablesSound, TablesExtend, ValidateXrplCurrency, ValidateCosmosDenom, OnlyTokens, KeepsXrplTokens;
    InsertCosmosKeepsTables(s, DoRegisterCosmosToken(s, sender, denom, decimals, precision, maxHolding, fee,
                                                     currency).value,
                            denom, CosmosToken(denom, decimals, currency, precision, maxHolding, Enabled, fee));
  }

  lemma UpdateXrplIsSound(env: Env, s: State, sender: Addr, issuer: string, currency: string,
                          state: Option<TokenState>, precision: Option<int>, fee: Option<Uint128>,
                          maxHolding: Option<Uint128>)
    requires Sound(s) && DoUpdateXrplToken(env, s, sender, issuer, currency, state, precision, fee, maxHolding).Ok?
    ensures var s' := DoUpdateXrplToken(env, s, sender, issuer, currency, state, precision, fee, maxHolding).value;
            TablesSound(s') && TablesExtend(s, s') && LifecycleAgrees(s'.pendingOperations, s'.xrplTokens)
  {
    hide TablesSound, TablesExtend, FlagsAgree, TalliesSound, BookSound, QueueSound, ProperRelayers, KeepsVotes,
      KeepsTickets, KeepsRefunds, KeepsFees, LifecycleAgrees;
    var s' := DoUpdateXrplToken(env, s, sender, issuer, currency, state, precision, fee, maxHolding).value;
    var key := BuildXrplTokenKey(issuer, currency);
    ReplaceKeepsTables(s, s', key, s'.xrplTokens[key]);
    assert SameProcessing(s.xrplTokens, s'.xrplTokens);
    LifecycleKept(s.pendingOperations, s'.pendingOperations, s.xrplTokens, s'.xrplTokens);
  }

  lemma UpdateCosmosIsSound(env: Env, s: State, sender: Addr, denom: string, state: Option<TokenState>,
                            precision: Option<int>, fee: Option<Uint128>, maxHolding: Option<Uint128>)
    requires TablesSound(s) && DoUpdateCosmosToken(env, s, sender, denom, state, precision, fee, maxHolding).Ok?
    ensures var s' := DoUpdateCosmosToken(env, s, sender, denom, state, precision, fee, maxHolding).value;
            TablesSound(s') && TablesExtend(s, s')
  {
    hide TablesSound, TablesExtend, OnlyTokens, KeepsXrplTokens;
    var s' := DoUpdateCosmosToken(env, s, sender, denom, state, precision, fee, maxHolding).value;
    TablesGiveCosmosEntry(s, denom);
    ReplaceCosmosKeepsTables(s, s', denom, s'.cosmosTokens[denom]);
  }

  lemma TokenSettingSound(env: Env, s: State, msg: Msg)
    requires Sound(s) && (msg.RegisterCosmosToken? || msg.UpdateXrplToken? || msg.UpdateCosmosToken?)
    requires ExecuteSetting(env, s, msg).Ok?
    ensures Sound(ExecuteSetting(env, s, msg).value.state) && TablesExtend(s, ExecuteSetting(env, s, msg).value.state)
  {
    hide DoRegisterCosmosToken, DoUpdateXrplToken, DoUpdateCosmosToken, FlagsAgree, TablesSound, TablesExtend,
      QueueSound, LifecycleAgrees, TalliesSound, BookSound, ProperRelayers;
    SettingKeepsFlags(env, s, msg);
    var s' := ExecuteSetting(env, s, msg).value.state;
    match msg {
      case RegisterCosmosToken(sender, denom, decimals, precision, maxHolding, fee, currency) =>
        RegisterCosmosIsSound(s, sender, denom, decimals, precision, maxHolding, fee, currency);
      case UpdateXrplToken(sender, issuer, currency, state, precision, fee, maxHolding) =>
        UpdateXrplIsSound(env, s, sender, issuer, currency, state, precision, fee, maxHolding);
      case UpdateCosmosToken(sender, denom, state, precision, fee, maxHolding) =>
        UpdateCosmosIsSound(env, s, sender, denom, state, precision, fee, maxHolding);
    }
    QueueKept(s, s');
    KeptTallies(s, s');
  }

  lemma OtherSettingSound(env: Env, s: State, msg: Msg)
    requires Sound(s) && !IsOpening(msg) && !IsResolving(msg)
    requires !msg.RegisterCosmosToken? && !msg.UpdateXrplToken? && !msg.UpdateCosmosToken?
    requires ExecuteSetting(env, s, msg).Ok?
    ensures Sound(ExecuteSetting(env, s, msg).value.state) && TablesExtend(s, ExecuteSetting(env, s, msg).value.state)
  {
    hide AddSignature, DoUpdateXrplBaseFee, DoClaimRefund, DoClaimRelayerFees, DoUpdateUsedTicketSequenceThreshold,
      SameWork, DoUpdateProhibitedXrplAddresses, DoHaltBridge, DoResumeBridge, DoSaveSignature, FlagsAgree,
      TablesSound, TablesExtend, QueueSound, LifecycleAgrees, TalliesSound, BookSound, ProperRelayers, IsRelayer;
    SettingKeepsFlags(env, s, msg);
    var s' := ExecuteSetting(env, s, msg).value.state;
    BridgeIsProhibited(s);
    KeptTables(s, s');
    KeptTallies(s, s');
    match msg
    case SaveSignature(sender, id, version, signature) =>
      SignatureKeepsQueue(s, id, version, sender, signature);
      SameWorkLifecycle(s, s');
    case UpdateXrplBaseFee(sender, fee) =>
      RepricingKeepsQueue(s, sender, fee);
      SameWorkLifecycle(s, s');
    case ClaimRelayerFees(sender, amounts) =>
      ClaimKeepsBook(s, sender, amounts);
      QueueKept(s, s');
    case _ =>
      QueueKept(s, s');
  }

  lemma ClaimKeepsBook(s: State, sender: Addr, amounts: seq<Coin>)
    requires BookSound(s.feesCollected) && DoClaimRelayerFees(s, sender, amounts).Ok?
    ensures BookSound(DoClaimRelayerFees(s, sender, amounts).value.state.feesCollected)
  {
    hide BookSound, SubtractRelayerFees;
    ClaimConserves(s, sender, amounts, "");
  }

  lemma SameWorkLifecycle(s: State, s': State)
    requires LifecycleAgrees(s.pendingOperations, s.xrplTokens) && KeepsXrplTokens(s, s')
    requires SameWork(s.pendingOperations, s'.pendingOperations)
    ensures LifecycleAgrees(s'.pendingOperations, s'.xrplTokens)
  {
    hide LifecycleAgrees;
    LifecycleKept(s.pendingOperations, s'.pendingOperations, s.xrplTokens, s'.xrplTokens);
  }

  /** Every accepted message keeps the contract sound, and never forgets or renames a token. */
  lemma SoundStep(env: Env, s: State, msg: Msg)
    requires Lawful(env.chain) && Sound(s) && Execute(env, s, msg).Ok?
    ensures Sound(Execute(env, s, msg).value.state) && TablesExtend(s, Execute(env, s, msg).value.state)
  {
    hide ExecuteOpening, ExecuteSetting, DoSaveEvidence, HandleOperation, Sound, TablesExtend, Lawful;
    if IsOpening(msg) {
      OpeningSound(env, s, msg);
    } else if IsResolving(msg) {
      match msg
      case SaveEvidence(sender, ev) => EvidenceIsSound(env, s, sender, ev);
      case CancelPendingOperation(_, id) =>
        var op := s.pendingOperations[id];
        CloseIsSound(s, op, if op.operationType.AllocateTickets? then Some(TicketsAllocation(None)) else None,
                     Invalid, None, id, op.ticketSequence);
    } else if msg.RegisterCosmosToken? || msg.UpdateXrplToken? || msg.UpdateCosmosToken? {
      TokenSettingSound(env, s, msg);
    } else {
      OtherSettingSound(env, s, msg);
    }
  }

  lemma InstantiatedIsSound(chain: Chain, owner: Addr, relayers: seq<Relayer>, evidenceThreshold: nat,
                            ticketThreshold: nat, trustSetLimit: Uint128, bridgeAddress: string, baseFee: nat,
                            xrpDenom: string, osorEntryPoint: Option<Addr>)
    requires Lawful(chain)
    requires Instantiate(chain, owner, relayers, evidenceThreshold, ticketThreshold, trustSetLimit, bridgeAddress,
                         baseFee, xrpDenom, osorEntryPoint).Ok?
    ensures Sound(Instantiate(chain, owner, relayers, evidenceThreshold, ticketThreshold, trustSetLimit, bridgeAddress,
                              baseFee, xrpDenom, osorEntryPoint).value)
  {
    hide CheckRelayers, DistinctRelayers, ValidateXrplAmount;
    var s := Instantiate(chain, owner, relayers, evidenceThreshold, ticketThreshold, trustSetLimit, bridgeAddress,
                         baseFee, xrpDenom, osorEntryPoint).value;
    ValidRelayersAreProper(chain, s.prohibitedXrplAddresses, relayers, evidenceThreshold);
    var key := BuildXrplTokenKey(XRP_ISSUER, XRP_CURRENCY);
    assert |XRP_ISSUER| == 27;
    assert XrplEntrySound(s, key);
    assert TrustSets(s.pendingOperations, key) == {};
    assert Allocations(s.pendingOperations) == {} && Rotations(s.pendingOperations) == {};
  }
}
