/** The contract as the program it is: stored items that handlers load, change and save step by step.
    Every method is proved to do what its function on states says; a handler that fails leaves
    whatever it has written so far, and the host's rollback in `Execute` undoes it. */
module Contract {
  import opened Types
  import opened Amounts
  import Tokens
  import Pending
  import Tickets
  import Relayers
  import Evidences
  import Fees
  import Operations
  import Handlers
  import Loops

  /** The method returned what the function says, and left the state the function says. */
  predicate Agrees<T(==)>(spec: Result<(State, T)>, r: Result<T>, now: State) {
    match spec
    case Ok((s, v)) => r == Ok(v) && now == s
    case Err(e) => r == Err(e)
  }

  predicate AgreesQuiet(spec: Result<State>, r: Result<()>, now: State) {
    match spec
    case Ok(s) => r == Ok(()) && now == s
    case Err(e) => r == Err(e)
  }

  predicate AgreesPaying(spec: Result<Outcome>, r: Result<seq<BankMsg>>, now: State) {
    match spec
    case Ok(o) => r == Ok(o.msgs) && now == o.state
    case Err(e) => r == Err(e)
  }

  class Contract {
    var owner: Addr
    var config: Config
    var txEvidences: map<Evidence, seq<Addr>>
    var processedTxs: set<string>
    var xrplTokens: map<string, XrplToken>
    var xrplTokenByDenom: map<string, string>
    var cosmosTokens: map<string, CosmosToken>
    var cosmosTokenByCurrency: map<string, string>
    var availableTickets: seq<Sequence>
    var usedTickets: nat
    var pendingOperations: map<Sequence, Operation>
    var pendingTicketUpdate: bool
    var pendingRotateKeys: bool
    var pendingRefunds: map<RefundKey, PendingRefund>
    var feesCollected: map<Addr, seq<Coin>>
    var feeRemainders: map<string, Uint128>
    var prohibitedXrplAddresses: set<string>

    function View(): State
      reads this
    {
      State(owner, config, txEvidences, processedTxs, xrplTokens, xrplTokenByDenom, cosmosTokens, cosmosTokenByCurrency,
            availableTickets, usedTickets, pendingOperations, pendingTicketUpdate, pendingRotateKeys, pendingRefunds,
            feesCollected, feeRemainders, prohibitedXrplAddresses)
    }

    constructor (s: State)
      ensures View() == s
    {
      owner, config, txEvidences, processedTxs := s.owner, s.config, s.txEvidences, s.processedTxs;
      xrplTokens, xrplTokenByDenom := s.xrplTokens, s.xrplTokenByDenom;
      cosmosTokens, cosmosTokenByCurrency := s.cosmosTokens, s.cosmosTokenByCurrency;
      availableTickets, usedTickets := s.availableTickets, s.usedTickets;
      pendingOperations, pendingTicketUpdate, pendingRotateKeys :=
        s.pendingOperations, s.pendingTicketUpdate, s.pendingRotateKeys;
      pendingRefunds, feesCollected, feeRemainders := s.pendingRefunds, s.feesCollected, s.feeRemainders;
      prohibitedXrplAddresses := s.prohibitedXrplAddresses;
    }

    method RestoreSettings(s: State)
      modifies this`owner, this`config, this`prohibitedXrplAddresses, this`txEvidences, this`processedTxs
      ensures owner == s.owner && config == s.config && prohibitedXrplAddresses == s.prohibitedXrplAddresses
      ensures txEvidences == s.txEvidences && processedTxs == s.processedTxs
    {
      owner, config, prohibitedXrplAddresses := s.owner, s.config, s.prohibitedXrplAddresses;
      txEvidences, processedTxs := s.txEvidences, s.processedTxs;
    }

    method RestoreTokens(s: State)
      modifies this`xrplTokens, this`xrplTokenByDenom, this`cosmosTokens, this`cosmosTokenByCurrency
      ensures xrplTokens == s.xrplTokens && xrplTokenByDenom == s.xrplTokenByDenom
      ensures cosmosTokens == s.cosmosTokens && cosmosTokenByCurrency == s.cosmosTokenByCurrency
    {
      xrplTokens, xrplTokenByDenom := s.xrplTokens, s.xrplTokenByDenom;
      cosmosTokens, cosmosTokenByCurrency := s.cosmosTokens, s.cosmosTokenByCurrency;
    }

    method RestoreQueue(s: State)
      modifies this`availableTickets, this`usedTickets, this`pendingOperations, this`pendingTicketUpdate,
               this`pendingRotateKeys
      ensures availableTickets == s.availableTickets && usedTickets == s.usedTickets
      ensures pendingOperations == s.pendingOperations
      ensures pendingTicketUpdate == s.pendingTicketUpdate && pendingRotateKeys == s.pendingRotateKeys
    {
      availableTickets, usedTickets, pendingOperations := s.availableTickets, s.usedTickets, s.pendingOperations;
      pendingTicketUpdate, pendingRotateKeys := s.pendingTicketUpdate, s.pendingRotateKeys;
    }

    method RestoreMoney(s: State)
      modifies this`pendingRefunds, this`feesCollected, this`feeRemainders
      ensures pendingRefunds == s.pendingRefunds && feesCollected == s.feesCollected && feeRemainders == s.feeRemainders
    {
      pendingRefunds, feesCollected, feeRemainders := s.pendingRefunds, s.feesCollected, s.feeRemainders;
    }

    /** Puts a saved state back: the host's rollback. */
    method Restore(s: State)
      modifies this
      ensures View() == s
    {
      RestoreSettings(s);
      RestoreTokens(s);
      RestoreQueue(s);
      RestoreMoney(s);
    }

    // ---------- tickets ----------

    method ReserveTicket() returns (r: Result<Sequence>)
      modifies this`availableTickets
      ensures Agrees(Tickets.ReserveTicket(old(View())), r, View())
      ensures r.Err? ==> View() == old(View())
    {
      if availableTickets == [] { return Err(NoAvailableTickets); }
      var ticket := availableTickets[0];
      availableTickets := availableTickets[1..];
      return Ok(ticket);
    }

    /** The last ticket is kept back for the next ticket allocation. */
    method AllocateTicket() returns (r: Result<Sequence>)
      modifies this`availableTickets
      ensures Agrees(Tickets.AllocateTicket(old(View())), r, View())
    {
      if availableTickets == [] { return Err(NoAvailableTickets); }
      if |availableTickets| <= 1 { return Err(LastTicketReserved); }
      r := ReserveTicket();
    }

    method ReturnTicket(ticket: Sequence)
      modifies this`availableTickets
      ensures View() == Tickets.ReturnTicket(old(View()), ticket)
    {
      availableTickets := [ticket] + availableTickets;
    }

    method RegisterUsedTicket(time: nat) returns (r: Result<bool>)
      modifies this`availableTickets, this`usedTickets, this`pendingOperations, this`pendingTicketUpdate
      ensures Agrees(Tickets.RegisterUsedTicket(time, old(View())), r, View())
    {
      hide Pending.CreatePendingOperation, Tickets.ReserveTicket;
      var used := usedTickets;
      if used + 1 > U32_MAX { return Err(Panic); }
      usedTickets := used + 1;
      if used + 1 >= config.usedTicketSequenceThreshold && !pendingTicketUpdate {
        var reserved := ReserveTicket();
        match reserved
        case Ok(ticket) =>
          var _ :- CreatePendingOperation(time, Some(ticket), None,
                                          AllocateTickets(config.usedTicketSequenceThreshold));
          pendingTicketUpdate := true;
        case Err(NoAvailableTickets) => return Ok(false);
        case Err(e) => return Err(e);
      }
      return Ok(true);
    }

    method HandleTicketAllocationConfirmation(tickets: Option<seq<Sequence>>, result: TransactionResult)
      returns (r: Result<()>)
      modifies this`availableTickets, this`usedTickets, this`pendingTicketUpdate
      ensures AgreesQuiet(Tickets.HandleTicketAllocationConfirmation(old(View()), tickets, result), r, View())
    {
      pendingTicketUpdate := false;
      if result.Accepted? {
        if tickets.None? { return Err(InvalidTicketSequenceToAllocate); }
        var length := Tickets.AsU32(|tickets.value|);
        availableTickets := availableTickets + tickets.value;
        usedTickets := Tickets.SaturatingSub(usedTickets, length);
      }
      return Ok(());
    }

    // ---------- pending operations ----------

    method CreatePendingOperation(time: nat, ticket: Option<Sequence>, account: Option<Sequence>, typ: OperationType)
      returns (r: Result<()>)
      modifies this`pendingOperations
      ensures AgreesQuiet(Pending.CreatePendingOperation(time, old(View()), ticket, account, typ), r, View())
    {
      var _ :- Pending.CheckValidOperationIfHalt(View(), typ);
      if ticket.None? && account.None? { return Err(Panic); }
      var id := if ticket.Some? then ticket.value else account.value;
      var operation := Operation(OperationId(time, id), 1, ticket, account, [], typ, config.xrplBaseFee);
      if id in pendingOperations { return Err(PendingOperationAlreadyExists); }
      pendingOperations := pendingOperations[id := operation];
      return Ok(());
    }

    method AddSignature(id: Sequence, version: nat, sender: Addr, signature: string) returns (r: Result<()>)
      modifies this`pendingOperations
      ensures AgreesQuiet(Pending.AddSignature(old(View()), id, version, sender, signature), r, View())
    {
      if |signature| > MAX_SIGNATURE_LENGTH { return Err(InvalidSignatureLength); }
      if id !in pendingOperations { return Err(PendingOperationNotFound); }
      var operation := pendingOperations[id];
      if version != operation.version { return Err(OperationVersionMismatch); }
      var _ :- Pending.CheckValidOperationIfHalt(View(), operation.operationType);
      var signatures := operation.signatures;
      if exists g <- signatures :: g.relayer == sender { return Err(SignatureAlreadyProvided); }
      signatures := signatures + [Signature(sender, signature)];
      pendingOperations := pendingOperations[id := operation.(signatures := signatures)];
      return Ok(());
    }

    // ---------- evidence ----------

    method HandleEvidence(chain: Chain, sender: Addr, ev: Evidence) returns (r: Result<bool>)
      modifies this`txEvidences, this`processedTxs
      ensures Agrees(Evidences.HandleEvidence(chain, old(View()), sender, ev), r, View())
    {
      var valid := Evidences.IsOperationValid(ev);
      if valid {
        if Evidences.RawTxHash(ev).None? { return Err(Panic); }
        if Evidences.TxHash(chain, ev) in processedTxs { return Err(OperationAlreadyExecuted); }
      }
      var voters: seq<Addr>;
      if ev in txEvidences {
        if sender in txEvidences[ev] { return Err(EvidenceAlreadyProvided); }
        voters := txEvidences[ev] + [sender];
      } else {
        voters := [sender];
        assert [] + [sender] == voters;
      }
      if |voters| >= config.evidenceThreshold {
        if valid { processedTxs := processedTxs + {Evidences.TxHash(chain, ev)}; }
        if |voters| != 1 { txEvidences := txEvidences - {ev}; }
        return Ok(true);
      }
      txEvidences := txEvidences[ev := voters];
      return Ok(false);
    }

    // ---------- relayers ----------

    method HandleRotateKeysConfirmation(relayers: seq<Relayer>, threshold: nat, result: TransactionResult)
      modifies this`config, this`txEvidences, this`pendingRotateKeys
      ensures View() == Relayers.HandleRotateKeysConfirmation(old(View()), relayers, threshold, result)
    {
      if result.Accepted? {
        config := config.(relayers := relayers, evidenceThreshold := threshold);
        txEvidences := map[];
      }
      pendingRotateKeys := false;
    }

    // ---------- fees ----------

    method HandleFeeCollection(fee: Uint128, denom: string, remainder: Uint128) returns (r: Result<Uint128>)
      modifies this`feesCollected, this`feeRemainders
      ensures Agrees(Fees.HandleFeeCollection(old(View()), fee, denom, remainder), r, View())
    {
      var collected :- CheckedAdd(fee, remainder);
      var _ :- CollectFees(Coin(denom, collected));
      return Ok(collected);
    }

    /** Credits each current relayer in turn. */
    method CreditRelayers(denom: string, each: Uint128) returns (r: Result<()>)
      modifies this`feesCollected
      ensures var spec := Fees.CreditAll(old(feesCollected), config.relayers, denom, each);
              if spec.Ok? then r == Ok(()) && feesCollected == spec.value else r == Err(spec.error)
    {
      var relayers := config.relayers;
      for i := 0 to |relayers|
        invariant Fees.CreditAll(old(feesCollected), relayers[..i], denom, each) == Ok(feesCollected)
      {
        var address := relayers[i].cosmosAddress;
        assert relayers[..i + 1][..i] == relayers[..i];
        Loops.CreditAllStops(old(feesCollected), relayers, i + 1, denom, each);
        var coins := if address in feesCollected then feesCollected[address] else [];
        coins :- Loops.AddToCoins(coins, denom, each);
        feesCollected := feesCollected[address := coins];
      }
      assert relayers[..|relayers|] == relayers;
      return Ok(());
    }

    /** Relayers share a fee equally; what does not divide is kept for the next collection. */
    method CollectFees(fee: Coin) returns (r: Result<()>)
      modifies this`feesCollected, this`feeRemainders
      ensures AgreesQuiet(Fees.CollectFees(old(View()), fee), r, View())
    {
      hide Fees.CreditAll;
      if fee.amount != 0 {
        var total :- CheckedAdd(fee.amount, if fee.denom in feeRemainders then feeRemainders[fee.denom] else 0);
        var count := |config.relayers|;
        if count == 0 { return Err(DivideByZeroError); }
        DivShrinks(total, count);
        DivBounds(total, count);
        var each := total / count;
        if each != 0 {
          var _ :- CreditRelayers(fee.denom, each);
        }
        feeRemainders := feeRemainders[fee.denom := total - each * count];
      }
      return Ok(());
    }

    method SubtractRelayerFees(sender: Addr, amounts: seq<Coin>) returns (r: Result<()>)
      modifies this`feesCollected
      ensures AgreesQuiet(Fees.SubtractRelayerFees(old(View()), sender, amounts), r, View())
    {
      if sender !in feesCollected { return Err(UnauthorizedSender); }
      var coins := feesCollected[sender];
      for i := 0 to |amounts|
        invariant Fees.SubtractAll(old(feesCollected)[sender], amounts[..i]) == Ok(coins)
        invariant View() == old(View())
      {
        assert amounts[..i + 1][..i] == amounts[..i];
        Loops.SubtractAllStops(old(feesCollected)[sender], amounts, i + 1);
        coins :- Loops.TakeFromCoins(coins, amounts[i]);
      }
      assert amounts[..|amounts|] == amounts;
      coins := Loops.RetainNonZero(coins);
      feesCollected := feesCollected[sender := coins];
      return Ok(());
    }

    // ---------- resolution of operations ----------

    method SaveXrplToken(key: string, token: XrplToken)
      requires key in xrplTokens && token.cosmosDenom == xrplTokens[key].cosmosDenom
      modifies this`xrplTokens, this`xrplTokenByDenom
      ensures View() == Tokens.ReplaceXrplToken(old(View()), key, token)
    {
      xrplTokens := xrplTokens[key := token];
      xrplTokenByDenom := xrplTokenByDenom[token.cosmosDenom := key];
    }

    method HandleTrustSetConfirmation(issuer: string, currency: string, result: TransactionResult)
      returns (r: Result<()>)
      modifies this`xrplTokens, this`xrplTokenByDenom
      ensures AgreesQuiet(Operations.HandleTrustSetConfirmation(old(View()), issuer, currency, result), r, View())
    {
      var key := Tokens.BuildXrplTokenKey(issuer, currency);
      if key !in xrplTokens { return Err(TokenNotRegistered); }
      var token := xrplTokens[key];
      if result.Accepted? {
        token := token.(state := Enabled);
      } else {
        token := token.(state := Inactive);
      }
      SaveXrplToken(key, token);
      return Ok(());
    }

    method StorePendingRefund(id: OperationId, hash: Option<string>, receiver: Addr, coin: Coin)
      modifies this`pendingRefunds
      ensures View() == Operations.StorePendingRefund(old(View()), id, hash, receiver, coin)
    {
      pendingRefunds := pendingRefunds[RefundKey(receiver, id) := PendingRefund(hash, coin)];
    }

    method RemovePendingRefund(sender: Addr, id: OperationId) returns (r: Result<Coin>)
      modifies this`pendingRefunds
      ensures Agrees(Operations.RemovePendingRefund(old(View()), sender, id), r, View())
    {
      var key := RefundKey(sender, id);
      if key !in pendingRefunds { return Err(PendingRefundNotFound); }
      var coin := pendingRefunds[key].coin;
      pendingRefunds := pendingRefunds - {key};
      return Ok(coin);
    }

    /** Burn, keep in escrow, or turn into a refund: by the token's origin and the result. */
    method HandleTransferConfirmation(op: Operation, result: TransactionResult, hash: Option<string>)
      returns (r: Result<seq<BankMsg>>)
      requires op.operationType.CosmosToXrplTransfer?
      modifies this`pendingRefunds
      ensures AgreesPaying(Operations.HandleTransferConfirmation(old(View()), op, result, hash), r, View())
    {
      var t := op.operationType;
      var key := Tokens.BuildXrplTokenKey(t.issuer, t.currency);
      if key in xrplTokens {
        var sent := if t.maxAmount.Some? then t.maxAmount.value else t.amount;
        if result.Accepted? { return Ok([Burn(Coin(xrplTokens[key].cosmosDenom, sent))]); }
        StorePendingRefund(op.id, hash, t.sender, Coin(xrplTokens[key].cosmosDenom, sent));
      } else if !result.Accepted? {
        if t.currency !in cosmosTokenByCurrency || cosmosTokenByCurrency[t.currency] !in cosmosTokens {
          return Err(TokenNotRegistered);
        }
        var token := cosmosTokens[cosmosTokenByCurrency[t.currency]];
        if t.maxAmount.None? { return Err(Panic); }
        var back :- ConvertAmountDecimals(XRPL_TOKENS_DECIMALS, token.decimals, t.maxAmount.value);
        StorePendingRefund(op.id, hash, t.sender, Coin(token.denom, back));
      }
      return Ok([]);
    }

    /** Routes a result to the operation's own handler. */
    method ConfirmOperation(op: Operation, opResult: Option<OperationResult>, result: TransactionResult,
                            hash: Option<string>, id: Sequence) returns (r: Result<seq<BankMsg>>)
      requires id in pendingOperations && op == pendingOperations[id]
      modifies this
      ensures AgreesPaying(Operations.ConfirmOperation(old(View()), op, opResult, result, hash, id), r, View())
    {
      hide Operations.HandleTransferConfirmation, Operations.HandleTrustSetConfirmation,
        Tickets.HandleTicketAllocationConfirmation, Relayers.HandleRotateKeysConfirmation;
      match op.operationType
      case AllocateTickets(_) =>
        if opResult.None? { return Err(InvalidOperationResult); }
        var _ :- HandleTicketAllocationConfirmation(opResult.value.tickets, result);
        return Ok([]);
      case TrustSet(issuer, currency, _) =>
        var _ :- HandleTrustSetConfirmation(issuer, currency, result);
        return Ok([]);
      case RotateKeys(relayers, threshold) =>
        HandleRotateKeysConfirmation(relayers, threshold, result);
        return Ok([]);
      case CosmosToXrplTransfer(_, _, _, _, _, _) =>
        r := HandleTransferConfirmation(op, result, hash);
    }

    method HandleOperation(op: Operation, opResult: Option<OperationResult>, result: TransactionResult,
                           hash: Option<string>, id: Sequence, ticket: Option<Sequence>)
      returns (r: Result<seq<BankMsg>>)
      requires id in pendingOperations && op == pendingOperations[id]
      modifies this
      ensures AgreesPaying(Operations.HandleOperation(old(View()), op, opResult, result, hash, id, ticket), r, View())
    {
      hide Operations.ConfirmOperation;
      var msgs :- ConfirmOperation(op, opResult, result, hash, id);
      pendingOperations := pendingOperations - {id};
      if result.Invalid? && ticket.Some? {
        ReturnTicket(ticket.value);
      }
      return Ok(msgs);
    }

    // ---------- save_evidence ----------

    method ReceiveXrplToken(env: Env, ev: Evidence, reached: bool) returns (r: Result<seq<BankMsg>>)
      requires ev.XrplToCosmosTransfer?
      modifies this`feesCollected, this`feeRemainders
      ensures AgreesPaying(Handlers.ReceiveXrplToken(env, old(View()), ev, reached), r, View())
    {
      hide TruncateAmount, Fees.HandleFeeCollection;
      var key := Tokens.BuildXrplTokenKey(ev.issuer, ev.currency);
      if key !in xrplTokens { return Err(TokenNotRegistered); }
      var token := xrplTokens[key];
      if !token.state.Enabled? { return Err(TokenNotEnabled); }
      var decimals := if Tokens.IsTokenXrp(token.issuer, token.currency) then XRP_DECIMALS else XRPL_TOKENS_DECIMALS;
      var afterFees :- AmountAfterBridgeFees(ev.amount, token.bridgingFee);
      var truncation :- TruncateAmount(token.sendingPrecision, decimals, afterFees);
      var (toSend, remainder) := truncation;
      var bridged :- CheckedAdd(ev.amount, Handlers.SupplyOf(env.bank, token.cosmosDenom));
      if bridged > token.maxHoldingAmount { return Err(MaximumBridgedAmountReached); }
      var msgs := [];
      if reached {
        var collected :- HandleFeeCollection(token.bridgingFee, token.cosmosDenom, remainder);
        if collected != 0 {
          msgs := [Mint(env.chain.contract, Coin(token.cosmosDenom, collected))];
        }
        if Handlers.IsUniversalSwap(View(), ev.memo) {
          msgs := msgs + [Mint(env.chain.contract, Coin(token.cosmosDenom, toSend))];
          msgs := msgs + [Send(config.osorEntryPoint.value, [Coin(token.cosmosDenom, toSend)])];
        } else {
          msgs := msgs + [Mint(ev.recipient, Coin(token.cosmosDenom, toSend))];
        }
      }
      return Ok(msgs);
    }

    method ReceiveCosmosToken(env: Env, ev: Evidence, reached: bool) returns (r: Result<seq<BankMsg>>)
      requires ev.XrplToCosmosTransfer?
      modifies this`feesCollected, this`feeRemainders
      ensures AgreesPaying(Handlers.ReceiveCosmosToken(env, old(View()), ev, reached), r, View())
    {
      hide ConvertAndTruncateAmount, Fees.HandleFeeCollection;
      if ev.currency !in cosmosTokenByCurrency || cosmosTokenByCurrency[ev.currency] !in cosmosTokens {
        return Err(TokenNotRegistered);
      }
      var token := cosmosTokens[cosmosTokenByCurrency[ev.currency]];
      if !token.state.Enabled? { return Err(TokenNotEnabled); }
      var truncation :- ConvertAndTruncateAmount(token.sendingPrecision, XRPL_TOKENS_DECIMALS, token.decimals,
                                                 ev.amount, token.bridgingFee);
      var (toSend, remainder) := truncation;
      if !reached { return Ok([]); }
      var _ :- HandleFeeCollection(token.bridgingFee, token.denom, remainder);
      var to := ev.recipient;
      if Handlers.IsUniversalSwap(View(), ev.memo) {
        to := config.osorEntryPoint.value;
      }
      return Ok([Send(to, [Coin(token.denom, toSend)])]);
    }

    method ResolveOperation(env: Env, ev: Evidence, reached: bool) returns (r: Result<seq<BankMsg>>)
      requires ev.XrplTransactionResult? && (ev.accountSequence.Some? || ev.ticketSequence.Some?)
      modifies this
      ensures AgreesPaying(Handlers.ResolveOperation(env, old(View()), ev, reached), r, View())
    {
      hide Operations.HandleOperation, Tickets.RegisterUsedTicket;
      var id := if ev.accountSequence.Some? then ev.accountSequence.value else ev.ticketSequence.value;
      if id !in pendingOperations { return Err(PendingOperationNotFound); }
      var operation := pendingOperations[id];
      if (operation.operationType.TrustSet? || operation.operationType.CosmosToXrplTransfer?)
        && ev.accountSequence.Some? {
        return Err(InvalidTransactionResultEvidence);
      }
      if !reached { return Ok([]); }
      var msgs :- HandleOperation(operation, ev.operationResult, ev.result, ev.txHash, id, ev.ticketSequence);
      if !ev.result.Invalid? && ev.ticketSequence.Some? {
        var _ :- RegisterUsedTicket(env.time);
      }
      return Ok(msgs);
    }

    /** The vote is counted before a transfer is checked against the halt. */
    method SaveEvidence(env: Env, sender: Addr, ev: Evidence) returns (r: Result<seq<BankMsg>>)
      modifies this
      ensures AgreesPaying(Handlers.DoSaveEvidence(env, old(View()), sender, ev), r, View())
    {
      hide Handlers.ReceiveXrplToken, Handlers.ReceiveCosmosToken, Handlers.ResolveOperation, Evidences.HandleEvidence;
      if !Relayers.IsRelayer(config.relayers, sender) { return Err(UnauthorizedSender); }
      var _ :- Evidences.ValidateBasic(ev);
      var reached :- HandleEvidence(env.chain, sender, ev);
      match ev
      case XrplToCosmosTransfer(_, issuer, _, _, recipient, _) =>
        if config.bridgeState.Halted? { return Err(BridgeHalted); }
        if !env.chain.validCosmosAddress(recipient) { return Err(InvalidCosmosAddress); }
        if recipient == env.chain.contract { return Err(ProhibitedAddress); }
        if issuer != config.bridgeXrplAddress {
          r := ReceiveXrplToken(env, ev, reached);
        } else {
          r := ReceiveCosmosToken(env, ev, reached);
        }
      case XrplTransactionResult(_, _, _, _, _) =>
        r := ResolveOperation(env, ev, reached);
    }

    // ---------- tokens ----------

    method RegisterCosmosToken(sender: Addr, denom: string, decimals: nat, precision: int, maxHolding: Uint128,
                               fee: Uint128, currency: string) returns (r: Result<()>)
      modifies this`cosmosTokens, this`cosmosTokenByCurrency
      ensures AgreesQuiet(Handlers.DoRegisterCosmosToken(old(View()), sender, denom, decimals, precision, maxHolding,
                                                         fee, currency), r, View())
    {
      hide ValidateSendingPrecision, Tokens.ValidateCosmosDenom, Tokens.ValidateXrplCurrency;
      var _ :- Handlers.RequireOwner(View(), sender);
      var _ :- Handlers.AssertBridgeActive(View());
      if decimals > MAX_COSMOS_TOKEN_DECIMALS { return Err(InvalidDecimals); }
      var _ :- ValidateSendingPrecision(precision, decimals);
      if denom in cosmosTokens { return Err(CosmosTokenAlreadyRegistered); }
      var _ :- Tokens.ValidateCosmosDenom(denom);
      var _ :- Tokens.ValidateXrplCurrency(currency);
      if currency in cosmosTokenByCurrency { return Err(RegistrationFailure); }
      cosmosTokens := cosmosTokens[denom := CosmosToken(denom, decimals, currency, precision, maxHolding, Enabled,
                                                        fee)];
      cosmosTokenByCurrency := cosmosTokenByCurrency[currency := denom];
      return Ok(());
    }

    method RegisterXrplToken(env: Env, sender: Addr, issuer: string, currency: string, precision: int,
                             maxHolding: Uint128, fee: Uint128, denom: string) returns (r: Result<seq<BankMsg>>)
      modifies this`xrplTokens, this`xrplTokenByDenom, this`availableTickets, this`pendingOperations
      ensures AgreesPaying(Handlers.DoRegisterXrplToken(env, old(View()), sender, issuer, currency, precision,
                                                        maxHolding, fee, denom), r, View())
    {
      hide ValidateSendingPrecision, Tokens.ValidateXrplAddress, Tokens.ValidateXrplCurrency, Tickets.AllocateTicket,
        Pending.CreatePendingOperation, Pending.Opens;
      var _ :- Handlers.RequireOwner(View(), sender);
      var _ :- Tokens.ValidateXrplAddress(env.chain, prohibitedXrplAddresses, issuer);
      var _ :- Tokens.ValidateXrplCurrency(currency);
      var _ :- ValidateSendingPrecision(precision, XRPL_TOKENS_DECIMALS);
      var key := Tokens.BuildXrplTokenKey(issuer, currency);
      if key in xrplTokens { return Err(XrplTokenAlreadyRegistered); }
      if denom in cosmosTokens { return Err(RegistrationFailure); }
      if denom in xrplTokenByDenom { return Err(UniqueConstraint); }
      xrplTokens := xrplTokens[key := XrplToken(issuer, currency, denom, precision, maxHolding, Processing, fee)];
      xrplTokenByDenom := xrplTokenByDenom[denom := key];
      var ticket :- AllocateTicket();
      var _ :- CreatePendingOperation(env.time, Some(ticket), None,
                                      TrustSet(issuer, currency, config.trustSetLimitAmount));
      return Ok([CreateDenom(denom)]);
    }

    method RecoverXrplTokenRegistration(time: nat, sender: Addr, issuer: string, currency: string)
      returns (r: Result<()>)
      modifies this`xrplTokens, this`xrplTokenByDenom, this`availableTickets, this`pendingOperations
      ensures AgreesQuiet(Handlers.DoRecoverXrplTokenRegistration(time, old(View()), sender, issuer, currency), r,
                          View())
    {
      hide Tickets.AllocateTicket, Pending.CreatePendingOperation, Pending.Opens;
      var _ :- Handlers.RequireOwner(View(), sender);
      var key := Tokens.BuildXrplTokenKey(issuer, currency);
      if key !in xrplTokens { return Err(TokenNotRegistered); }
      var token := xrplTokens[key];
      if !token.state.Inactive? { return Err(XrplTokenNotInactive); }
      SaveXrplToken(key, token.(state := Processing));
      var ticket :- AllocateTicket();
      var _ :- CreatePendingOperation(time, Some(ticket), None, TrustSet(issuer, currency, config.trustSetLimitAmount));
      return Ok(());
    }

    method UpdateXrplToken(env: Env, sender: Addr, issuer: string, currency: string, state: Option<TokenState>,
                           precision: Option<int>, fee: Option<Uint128>, maxHolding: Option<Uint128>)
      returns (r: Result<()>)
      modifies this`xrplTokens, this`xrplTokenByDenom
      ensures AgreesQuiet(Handlers.DoUpdateXrplToken(env, old(View()), sender, issuer, currency, state, precision, fee,
                                                     maxHolding), r, View())
    {
      hide Tokens.SetTokenState, Tokens.SetTokenSendingPrecision, Tokens.SetTokenMaxHoldingAmount;
      var _ :- Handlers.RequireOwner(View(), sender);
      var _ :- Handlers.AssertBridgeActive(View());
      var key := Tokens.BuildXrplTokenKey(issuer, currency);
      if key !in xrplTokens { return Err(TokenNotRegistered); }
      var token := xrplTokens[key];
      var state' :- Tokens.SetTokenState(token.state, state);
      token := token.(state := state');
      var precision' :- Tokens.SetTokenSendingPrecision(token.sendingPrecision, precision,
                                                        Tokens.DecimalsOf(issuer, currency));
      token := token.(sendingPrecision := precision');
      token := token.(bridgingFee := Tokens.SetTokenBridgingFee(token.bridgingFee, fee));
      var max' :- Tokens.SetTokenMaxHoldingAmount(Handlers.SupplyOf(env.bank, token.cosmosDenom),
                                                  token.maxHoldingAmount, maxHolding);
      token := token.(maxHoldingAmount := max');
      SaveXrplToken(key, token);
      return Ok(());
    }

    method UpdateCosmosToken(env: Env, sender: Addr, denom: string, state: Option<TokenState>, precision: Option<int>,
                             fee: Option<Uint128>, maxHolding: Option<Uint128>) returns (r: Result<()>)
      modifies this`cosmosTokens, this`cosmosTokenByCurrency
      ensures AgreesQuiet(Handlers.DoUpdateCosmosToken(env, old(View()), sender, denom, state, precision, fee,
                                                       maxHolding), r, View())
    {
      hide Tokens.SetTokenState, Tokens.SetTokenSendingPrecision, Tokens.SetTokenMaxHoldingAmount;
      var _ :- Handlers.RequireOwner(View(), sender);
      var _ :- Handlers.AssertBridgeActive(View());
      if denom !in cosmosTokens { return Err(TokenNotRegistered); }
      var token := cosmosTokens[denom];
      var state' :- Tokens.SetTokenState(token.state, state);
      token := token.(state := state');
      var precision' :- Tokens.SetTokenSendingPrecision(token.sendingPrecision, precision, token.decimals);
      token := token.(sendingPrecision := precision');
      token := token.(bridgingFee := Tokens.SetTokenBridgingFee(token.bridgingFee, fee));
      var max' :- Tokens.SetTokenMaxHoldingAmount(Handlers.HeldOf(env.bank, token.denom), token.maxHoldingAmount,
                                                  maxHolding);
      token := token.(maxHoldingAmount := max');
      cosmosTokens := cosmosTokens[denom := token];
      cosmosTokenByCurrency := cosmosTokenByCurrency[token.xrplCurrency := denom];
      return Ok(());
    }

    // ---------- sending ----------

    /** The amounts of a transfer of an XRPL-originated token, its fee collected. */
    method SendXrplToken(token: XrplToken, funds: Coin, deliver: Option<Uint128>)
      returns (r: Result<(Uint128, Option<Uint128>)>)
      modifies this`feesCollected, this`feeRemainders
      ensures match Handlers.SendXrplToken(old(View()), token, funds, deliver)
              case Ok(t) => View() == t.state && r == Ok((t.amount, t.maxAmount))
                            && t.issuer == token.issuer && t.currency == token.currency
              case Err(e) => r == Err(e)
    {
      hide TruncateAmount, Fees.HandleFeeCollection;
      if !token.state.Enabled? { return Err(TokenNotEnabled); }
      var decimals := XRPL_TOKENS_DECIMALS;
      if Tokens.IsTokenXrp(token.issuer, token.currency) {
        if deliver.Some? { return Err(DeliverAmountIsProhibited); }
        decimals := XRP_DECIMALS;
      }
      var _ :- TruncateAmount(token.sendingPrecision, decimals, funds.amount);
      var afterFees :- AmountAfterBridgeFees(funds.amount, token.bridgingFee);
      var truncation :- TruncateAmount(token.sendingPrecision, decimals, afterFees);
      var (toSend, remainder) := truncation;
      var maxAmount := Some(toSend);
      if deliver.Some? {
        if deliver.value > afterFees { return Err(InvalidDeliverAmount); }
        var truncated :- TruncateAmount(token.sendingPrecision, decimals, deliver.value);
        toSend := truncated.0;
      } else if Tokens.IsTokenXrp(token.issuer, token.currency) {
        maxAmount := None;
      }
      var _ :- HandleFeeCollection(token.bridgingFee, token.cosmosDenom, remainder);
      return Ok((toSend, maxAmount));
    }

    /** The amount of a transfer of a Cosmos-originated token, its fee collected. */
    method SendCosmosToken(bank: Bank, token: CosmosToken, funds: Coin, deliver: Option<Uint128>)
      returns (r: Result<Uint128>)
      modifies this`feesCollected, this`feeRemainders
      ensures match Handlers.SendCosmosToken(bank, old(View()), token, funds, deliver)
              case Ok(t) => View() == t.state && r == Ok(t.amount) && t.maxAmount == Some(t.amount)
                            && t.issuer == config.bridgeXrplAddress && t.currency == token.xrplCurrency
              case Err(e) => r == Err(e)
    {
      hide TruncateAmount, TruncateAndConvertAmount, Fees.HandleFeeCollection;
      if !token.state.Enabled? { return Err(TokenNotEnabled); }
      if deliver.Some? { return Err(DeliverAmountIsProhibited); }
      var _ :- TruncateAmount(token.sendingPrecision, token.decimals, funds.amount);
      var conversion :- TruncateAndConvertAmount(token.sendingPrecision, token.decimals, XRPL_TOKENS_DECIMALS,
                                                 funds.amount, token.bridgingFee);
      var _ :- HandleFeeCollection(token.bridgingFee, token.denom, conversion.1);
      if Handlers.HeldOf(bank, token.denom) > token.maxHoldingAmount { return Err(MaximumBridgedAmountReached); }
      return Ok(conversion.0);
    }

    method SendToXrpl(env: Env, sender: Addr, funds: seq<Coin>, recipient: string, deliver: Option<Uint128>)
      returns (r: Result<()>)
      modifies this`feesCollected, this`feeRemainders, this`availableTickets, this`pendingOperations
      ensures AgreesQuiet(Handlers.DoSendToXrpl(env, old(View()), sender, funds, recipient, deliver), r, View())
    {
      hide Tickets.AllocateTicket, Pending.CreatePendingOperation, Pending.Opens, ValidateXrplAmount,
        Handlers.SendXrplToken, Handlers.SendCosmosToken, Tokens.ValidateXrplAddress, OnlyFees, KeepsConfig,
        KeepsXrplTokens;
      var _ :- Handlers.AssertBridgeActive(View());
      if |funds| != 1 || funds[0].amount == 0 { return Err(Payment); }
      var coin := funds[0];
      var _ :- Tokens.ValidateXrplAddress(env.chain, prohibitedXrplAddresses, recipient);
      if deliver.Some? && deliver.value > coin.amount { return Err(InvalidDeliverAmount); }
      var issuer, currency, amount, maxAmount;
      if coin.denom in xrplTokenByDenom && xrplTokenByDenom[coin.denom] in xrplTokens {
        var token := xrplTokens[xrplTokenByDenom[coin.denom]];
        issuer, currency := token.issuer, token.currency;
        var amounts :- SendXrplToken(token, coin, deliver);
        amount, maxAmount := amounts.0, amounts.1;
      } else {
        if coin.denom !in cosmosTokens { return Err(TokenNotRegistered); }
        var token := cosmosTokens[coin.denom];
        issuer, currency := config.bridgeXrplAddress, token.xrplCurrency;
        amount :- SendCosmosToken(env.bank, token, coin, deliver);
        maxAmount := Some(amount);
      }
      var _ :- ValidateXrplAmount(amount);
      if maxAmount.Some? {
        var _ :- ValidateXrplAmount(maxAmount.value);
      }
      var ticket :- AllocateTicket();
      var _ :- CreatePendingOperation(env.time, Some(ticket), None,
                                      CosmosToXrplTransfer(issuer, currency, amount, maxAmount, sender, recipient));
      return Ok(());
    }

    // ---------- the other handlers ----------

    method RecoverTickets(time: nat, sender: Addr, account: Sequence, number: Option<nat>) returns (r: Result<()>)
      modifies this`pendingTicketUpdate, this`pendingOperations
      ensures AgreesQuiet(Handlers.DoRecoverTickets(time, old(View()), sender, account, number), r, View())
    {
      hide Pending.CreatePendingOperation, Tickets.ReserveTicket;
      var _ :- Handlers.RequireOwner(View(), sender);
      if availableTickets != [] { return Err(StillHaveAvailableTickets); }
      if pendingTicketUpdate { return Err(PendingTicketUpdate); }
      pendingTicketUpdate := true;
      var n := if number.Some? then number.value else usedTickets;
      if n <= config.usedTicketSequenceThreshold || n > MAX_TICKETS { return Err(InvalidTicketSequenceToAllocate); }
      r := CreatePendingOperation(time, None, Some(account), AllocateTickets(n));
    }

    method SaveSignature(sender: Addr, id: Sequence, version: nat, signature: string) returns (r: Result<()>)
      modifies this`pendingOperations
      ensures AgreesQuiet(Handlers.DoSaveSignature(old(View()), sender, id, version, signature), r, View())
    {
      hide Pending.AddSignature;
      var _ :- Handlers.RequireRelayer(View(), sender);
      r := AddSignature(id, version, sender, signature);
    }

    /** Every pending operation in turn gets the new fee, a new version and no signature. */
    method UpdateXrplBaseFee(sender: Addr, fee: nat) returns (r: Result<()>)
      modifies this`config, this`pendingOperations
      ensures AgreesQuiet(Handlers.DoUpdateXrplBaseFee(old(View()), sender, fee), r, View())
    {
      var _ :- Handlers.RequireOwner(View(), sender);
      config := config.(xrplBaseFee := fee);
      var operations :- Loops.RepriceAll(pendingOperations, fee);
      pendingOperations := operations;
      return Ok(());
    }

    method UpdateUsedTicketSequenceThreshold(sender: Addr, threshold: nat) returns (r: Result<()>)
      modifies this`config
      ensures AgreesQuiet(Handlers.DoUpdateUsedTicketSequenceThreshold(old(View()), sender, threshold), r, View())
    {
      var _ :- Handlers.RequireOwner(View(), sender);
      config := config.(usedTicketSequenceThreshold := threshold);
      return Ok(());
    }

    method UpdateProhibitedXrplAddresses(chain: Chain, sender: Addr, addresses: seq<string>) returns (r: Result<()>)
      modifies this`prohibitedXrplAddresses
      ensures AgreesQuiet(Handlers.DoUpdateProhibitedXrplAddresses(chain, old(View()), sender, addresses), r, View())
    {
      var _ :- Handlers.RequireOwner(View(), sender);
      prohibitedXrplAddresses := {config.bridgeXrplAddress};
      for i := 0 to |addresses|
        invariant forall j | 0 <= j < i :: chain.validXrplAddress(addresses[j])
        invariant prohibitedXrplAddresses == {config.bridgeXrplAddress} + set a | a in addresses[..i]
      {
        if !chain.validXrplAddress(addresses[i]) { return Err(InvalidXrplAddress); }
        assert addresses[..i + 1] == addresses[..i] + [addresses[i]];
        prohibitedXrplAddresses := prohibitedXrplAddresses + {addresses[i]};
      }
      assert addresses[..|addresses|] == addresses;
      return Ok(());
    }

    method ClaimRefund(sender: Addr, id: OperationId) returns (r: Result<seq<BankMsg>>)
      modifies this`pendingRefunds
      ensures AgreesPaying(Handlers.DoClaimRefund(old(View()), sender, id), r, View())
    {
      var _ :- Handlers.AssertBridgeActive(View());
      var coin :- RemovePendingRefund(sender, id);
      return Ok([Send(sender, [coin])]);
    }

    method ClaimRelayerFees(sender: Addr, amounts: seq<Coin>) returns (r: Result<seq<BankMsg>>)
      modifies this`feesCollected
      ensures AgreesPaying(Handlers.DoClaimRelayerFees(old(View()), sender, amounts), r, View())
    {
      hide Fees.SubtractRelayerFees;
      var _ :- Handlers.AssertBridgeActive(View());
      var _ :- SubtractRelayerFees(sender, amounts);
      return Ok([Send(sender, amounts)]);
    }

    method HaltBridge(sender: Addr) returns (r: Result<()>)
      modifies this`config
      ensures AgreesQuiet(Handlers.DoHaltBridge(old(View()), sender), r, View())
    {
      if sender != owner && !Relayers.IsRelayer(config.relayers, sender) { return Err(UnauthorizedSender); }
      var _ :- Handlers.AssertBridgeActive(View());
      config := config.(bridgeState := Halted);
      return Ok(());
    }

    method ResumeBridge(sender: Addr) returns (r: Result<()>)
      modifies this`config
      ensures AgreesQuiet(Handlers.DoResumeBridge(old(View()), sender), r, View())
    {
      var _ :- Handlers.RequireOwner(View(), sender);
      if pendingRotateKeys { return Err(RotateKeysOngoing); }
      config := config.(bridgeState := Active);
      return Ok(());
    }

    method RotateKeys(env: Env, sender: Addr, relayers: seq<Relayer>, threshold: nat) returns (r: Result<()>)
      modifies this`pendingRotateKeys, this`config, this`availableTickets, this`pendingOperations
      ensures AgreesQuiet(Handlers.DoRotateKeys(env, old(View()), sender, relayers, threshold), r, View())
    {
      hide Tickets.AllocateTicket, Pending.CreatePendingOperation, Pending.Opens, Relayers.ValidateRelayers;
      var _ :- Handlers.RequireOwner(View(), sender);
      if pendingRotateKeys { return Err(RotateKeysOngoing); }
      pendingRotateKeys := true;
      config := config.(bridgeState := Halted);
      var _ :- Loops.CheckedRelayers(env.chain, prohibitedXrplAddresses, relayers, threshold);
      var ticket :- AllocateTicket();
      r := CreatePendingOperation(env.time, Some(ticket), None, OperationType.RotateKeys(relayers, threshold));
    }

    method CancelPendingOperation(sender: Addr, id: Sequence) returns (r: Result<seq<BankMsg>>)
      modifies this
      ensures AgreesPaying(Handlers.DoCancelPendingOperation(old(View()), sender, id), r, View())
    {
      hide Operations.HandleOperation;
      var _ :- Handlers.RequireOwner(View(), sender);
      if id !in pendingOperations { return Err(PendingOperationNotFound); }
      var operation := pendingOperations[id];
      var opResult := None;
      if operation.operationType.AllocateTickets? {
        opResult := Some(TicketsAllocation(None));
      }
      r := HandleOperation(operation, opResult, Invalid, None, id, operation.ticketSequence);
    }

    // ---------- dispatch ----------

    method ExecuteOpening(env: Env, msg: Handlers.Msg) returns (r: Result<seq<BankMsg>>)
      requires Handlers.IsOpening(msg)
      modifies this
      ensures AgreesPaying(Handlers.ExecuteOpening(env, old(View()), msg), r, View())
    {
      hide Handlers.DoRegisterXrplToken, Handlers.DoRecoverTickets, Handlers.DoRecoverXrplTokenRegistration,
        Handlers.DoSendToXrpl, Handlers.DoRotateKeys, Pending.Opens;
      match msg {
        case RegisterXrplToken(sender, issuer, currency, precision, maxHolding, fee, denom) =>
          r := RegisterXrplToken(env, sender, issuer, currency, precision, maxHolding, fee, denom);
          return;
        case RecoverTickets(sender, account, number) => var _ :- RecoverTickets(env.time, sender, account, number);
        case RecoverXrplTokenRegistration(sender, issuer, currency) =>
          var _ :- RecoverXrplTokenRegistration(env.time, sender, issuer, currency);
        case SendToXrpl(sender, funds, recipient, deliver) =>
          var _ :- SendToXrpl(env, sender, funds, recipient, deliver);
        case RotateKeysMsg(sender, relayers, threshold) => var _ :- RotateKeys(env, sender, relayers, threshold);
      }
      return Ok([]);
    }

    method ExecuteSetting(env: Env, msg: Handlers.Msg) returns (r: Result<seq<BankMsg>>)
      requires !Handlers.IsOpening(msg) && !Handlers.IsResolving(msg)
      modifies this
      ensures AgreesPaying(Handlers.ExecuteSetting(env, old(View()), msg), r, View())
    {
      hide Handlers.DoRegisterCosmosToken, Handlers.DoSaveSignature, Handlers.DoUpdateXrplToken,
        Handlers.DoUpdateCosmosToken, Handlers.DoUpdateXrplBaseFee, Handlers.DoUpdateUsedTicketSequenceThreshold,
        Handlers.DoClaimRefund, Handlers.DoClaimRelayerFees, Handlers.DoHaltBridge, Handlers.DoResumeBridge,
        Handlers.DoUpdateProhibitedXrplAddresses;
      match msg {
        case RegisterCosmosToken(sender, denom, decimals, precision, maxHolding, fee, currency) =>
          var _ :- RegisterCosmosToken(sender, denom, decimals, precision, maxHolding, fee, currency);
        case SaveSignature(sender, id, version, signature) => var _ :- SaveSignature(sender, id, version, signature);
        case UpdateXrplToken(sender, issuer, currency, state, precision, fee, maxHolding) =>
          var _ :- UpdateXrplToken(env, sender, issuer, currency, state, precision, fee, maxHolding);
        case UpdateCosmosToken(sender, denom, state, precision, fee, maxHolding) =>
          var _ :- UpdateCosmosToken(env, sender, denom, state, precision, fee, maxHolding);
        case UpdateXrplBaseFee(sender, fee) => var _ :- UpdateXrplBaseFee(sender, fee);
        case UpdateUsedTicketSequenceThreshold(sender, threshold) =>
          var _ :- UpdateUsedTicketSequenceThreshold(sender, threshold);
        case ClaimRefund(sender, id) =>
          r := ClaimRefund(sender, id);
          return;
        case ClaimRelayerFees(sender, amounts) =>
          r := ClaimRelayerFees(sender, amounts);
          return;
        case HaltBridge(sender) => var _ :- HaltBridge(sender);
        case ResumeBridge(sender) => var _ :- ResumeBridge(sender);
        case UpdateProhibitedXrplAddresses(sender, addresses) =>
          var _ :- UpdateProhibitedXrplAddresses(env.chain, sender, addresses);
      }
      return Ok([]);
    }

    /** One message: a failing handler leaves no trace, because the host rolls everything back. */
    method Execute(env: Env, msg: Handlers.Msg) returns (r: Result<seq<BankMsg>>)
      modifies this
      ensures AgreesPaying(Handlers.Execute(env, old(View()), msg), r, View())
      ensures r.Err? ==> View() == old(View())
    {
      hide Handlers.ExecuteOpening, Handlers.ExecuteSetting, Handlers.DoSaveEvidence,
        Handlers.DoCancelPendingOperation;
      var snapshot := View();
      if Handlers.IsOpening(msg) {
        r := ExecuteOpening(env, msg);
      } else if msg.SaveEvidence? {
        r := SaveEvidence(env, msg.sender, msg.evidence);
      } else if msg.CancelPendingOperation? {
        r := CancelPendingOperation(msg.sender, msg.operationId);
      } else {
        r := ExecuteSetting(env, msg);
      }
      if r.Err? {
        Restore(snapshot);
      }
    }

    static method Instantiate(chain: Chain, owner: Addr, relayers: seq<Relayer>, evidenceThreshold: nat,
                              ticketThreshold: nat,
                              trustSetLimit: Uint128, bridgeAddress: string, baseFee: nat, xrpDenom: string,
                              osorEntryPoint: Option<Addr>)
      returns (r: Result<Contract>)
      ensures match Handlers.Instantiate(chain, owner, relayers, evidenceThreshold, ticketThreshold, trustSetLimit,
                                         bridgeAddress, baseFee, xrpDenom, osorEntryPoint)
              case Ok(s) => r.Ok? && fresh(r.value) && r.value.View() == s
              case Err(e) => r == Err(e)
    {
      hide ValidateXrplAmount, Relayers.ValidateRelayers;
      if !chain.validCosmosAddress(owner) { return Err(InvalidCosmosAddress); }
      var prohibited := Handlers.INITIAL_PROHIBITED_XRPL_ADDRESSES + {bridgeAddress};
      var _ :- Loops.CheckedRelayers(chain, prohibited, relayers, evidenceThreshold);
      if !chain.validXrplAddress(bridgeAddress) { return Err(InvalidXrplAddress); }
      if ticketThreshold <= 1 || ticketThreshold > MAX_TICKETS { return Err(InvalidUsedTicketSequenceThreshold); }
      var _ :- ValidateXrplAmount(trustSetLimit);
      var config := Config(relayers, evidenceThreshold, ticketThreshold, trustSetLimit, bridgeAddress, Active, baseFee,
                           osorEntryPoint);
      var key := Tokens.BuildXrplTokenKey(XRP_ISSUER, XRP_CURRENCY);
      var xrp := XrplToken(XRP_ISSUER, XRP_CURRENCY, xrpDenom, XRP_DEFAULT_SENDING_PRECISION,
                           XRP_DEFAULT_MAX_HOLDING_AMOUNT, Enabled, 0);
      var contract := new Contract(
        State(owner, config, map[], {}, map[key := xrp], map[xrpDenom := key], map[], map[], [], 0, map[], false, false,
              map[], map[], map[], prohibited));
      return Ok(contract);
    }
  }
}
