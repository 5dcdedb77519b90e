/** What every pending operation satisfies in every run. */
module Queue {
  import opened Types
  import opened Amounts
  import opened Tokens
  import opened Pending
  import opened Relayers
  import opened Fees
  import opened Operations
  import opened Handlers
  import opened TokenTables

  predicate DistinctSigners(signatures: seq<Signature>) {
    forall i, j | 0 <= i < j < |signatures| :: signatures[i].relayer != signatures[j].relayer
  }

  /** The operation is stored under its own sequence number, carries the configured base fee, is
      signed at most once per relayer, and its payload is executable. */
  predicate OperationSound(s: State, k: Sequence, op: Operation) {
    && op.id.sequence == k
    && (if op.ticketSequence.Some? then op.ticketSequence == Some(k) && op.accountSequence == None
        else op.accountSequence == Some(k) && op.operationType.AllocateTickets?)
    && op.version >= 1
    && op.xrplBaseFee == s.config.xrplBaseFee
    && DistinctSigners(op.signatures)
    && (op.operationType.CosmosToXrplTransfer? ==> TransferSound(s, op.operationType))
    && (op.operationType.RotateKeys? ==>
          ProperRelayers(op.operationType.newRelayers, op.operationType.newEvidenceThreshold))
  }

  ghost predicate QueueSound(s: State) {
    forall k | k in s.pendingOperations :: OperationSound(s, k, s.pendingOperations[k])
  }

  /** Operations a step keeps stay sound while the token tables grow and the base fee stands. */
  lemma QueueKept(s: State, s': State)
    requires QueueSound(s) && TablesSound(s) && TablesSound(s') && TablesExtend(s, s')
    requires s'.config.xrplBaseFee == s.config.xrplBaseFee
    requires forall k | k in s'.pendingOperations ::
               || (k in s.pendingOperations && s'.pendingOperations[k] == s.pendingOperations[k])
               || OperationSound(s', k, s'.pendingOperations[k])
    ensures QueueSound(s')
  {
    hide TransferSound, TablesSound, TablesExtend, ProperRelayers, DistinctSigners;
    forall k | k in s'.pendingOperations
      ensures OperationSound(s', k, s'.pendingOperations[k])
    {
      var op := s'.pendingOperations[k];
      if k in s.pendingOperations && op == s.pendingOperations[k] {
        assert OperationSound(s, k, op);
        if op.operationType.CosmosToXrplTransfer? {
          LockIsStable(s, s', op.operationType);
        }
      }
    }
  }

  lemma SignatureKeepsQueue(s: State, id: Sequence, version: nat, sender: Addr, signature: string)
    requires QueueSound(s) && TablesSound(s) && AddSignature(s, id, version, sender, signature).Ok?
    ensures QueueSound(AddSignature(s, id, version, sender, signature).value)
  {
    hide TransferSound, TablesSound, ProperRelayers, CheckValidOperationIfHalt;
    var s' := AddSignature(s, id, version, sender, signature).value;
    assert OperationSound(s, id, s.pendingOperations[id]);
    var op' := s'.pendingOperations[id];
    if op'.operationType.CosmosToXrplTransfer? {
      SameTablesSameTransfer(s, s', op'.operationType);
    }
    assert OperationSound(s', id, op');
    SameTables(s, s');
    QueueKept(s, s');
  }

  lemma SameTables(s: State, s': State)
    requires TablesSound(s) && KeepsXrplTokens(s, s') && KeepsCosmosTokens(s, s') && KeepsConfig(s, s')
    ensures TablesSound(s') && TablesExtend(s, s')
  {
    hide TablesExtend;
    assert s.config.bridgeXrplAddress in s.prohibitedXrplAddresses;
    KeptTables(s, s');
  }

  lemma SameTablesSameTransfer(s: State, s': State, t: OperationType)
    requires t.CosmosToXrplTransfer? && KeepsXrplTokens(s, s') && KeepsCosmosTokens(s, s')
    requires s'.config.bridgeXrplAddress == s.config.bridgeXrplAddress
    ensures TransferSound(s', t) == TransferSound(s, t) && LockedCoin(s', t) == LockedCoin(s, t)
    ensures EscrowSound(s', t) == EscrowSound(s, t)
  {
    hide ValidateXrplAmount, ConvertAmountDecimals;
  }

  lemma RepricingKeepsQueue(s: State, sender: Addr, fee: nat)
    requires QueueSound(s) && DoUpdateXrplBaseFee(s, sender, fee).Ok?
    ensures QueueSound(DoUpdateXrplBaseFee(s, sender, fee).value)
  {
    hide TransferSound, ProperRelayers;
    var s' := DoUpdateXrplBaseFee(s, sender, fee).value;
    forall k | k in s'.pendingOperations
      ensures OperationSound(s', k, s'.pendingOperations[k])
    {
      var op := s.pendingOperations[k];
      assert OperationSound(s, k, op);
      assert s'.pendingOperations[k] == Repriced(op, fee);
      if op.operationType.CosmosToXrplTransfer? {
        SameTablesSameTransfer(s, s', op.operationType);
      }
    }
  }

  // ---------- a send queues a sound transfer ----------

  lemma TruncationIsMonotone(precision: int, decimals: nat, a: Uint128, b: Uint128)
    requires a <= b && TruncateAmount(precision, decimals, a).Ok? && TruncateAmount(precision, decimals, b).Ok?
    ensures TruncateAmount(precision, decimals, a).value.0 <= TruncateAmount(precision, decimals, b).value.0
  {
    var p := Pow10(Abs(decimals - precision));
    DivBounds(a, p);
    DivBounds(b, p);
    if a / p > b / p {
      MulMonotone(b / p + 1, a / p, p);
      Distribute(b / p, 1, p);
      assert false;
    }
    MulMonotone(a / p, b / p, p);
  }

  lemma SendXrplAmounts(s: State, token: XrplToken, funds: Coin, deliver: Option<Uint128>)
    requires SendXrplToken(s, token, funds, deliver).Ok?
    ensures var t := SendXrplToken(s, token, funds, deliver).value;
            && t.issuer == token.issuer && t.currency == token.currency && t.amount > 0
            && (t.maxAmount.Some? ==> t.amount <= t.maxAmount.value)
            && (t.maxAmount.None? ==> IsTokenXrp(token.issuer, token.currency))
  {
    hide TruncateAmount, HandleFeeCollection;
    var decimals := DecimalsOf(token.issuer, token.currency);
    if deliver.Some? {
      TruncationIsMonotone(token.sendingPrecision, decimals, deliver.value, funds.amount - token.bridgingFee);
    }
  }

  lemma SendCosmosAmounts(bank: Bank, s: State, token: CosmosToken, funds: Coin, deliver: Option<Uint128>)
    requires ValidateSendingPrecision(token.sendingPrecision, token.decimals).Ok?
    requires SendCosmosToken(bank, s, token, funds, deliver).Ok?
    ensures var t := SendCosmosToken(bank, s, token, funds, deliver).value;
            && t.issuer == s.config.bridgeXrplAddress && t.currency == token.xrplCurrency
            && t.amount > 0 && t.maxAmount == Some(t.amount)
            && WholeCosmosUnits(token.decimals, t.amount)
            && ConvertAmountDecimals(XRPL_TOKENS_DECIMALS, token.decimals, t.amount).Ok?
  {
    hide TruncateAmount, HandleFeeCollection, ConvertAmountDecimals, TruncateAndConvertAmount;
    LosslessConversion(token.sendingPrecision, token.decimals, funds.amount, token.bridgingFee);
  }

  /** The transfer a send decides on is sound once both amounts have passed validation. */
  lemma SentTransferIsSound(env: Env, s: State, s': State, funds: Coin, deliver: Option<Uint128>, sender: Addr,
                            recipient: string)
    requires TablesSound(s) && DecideTransfer(env, s, funds, deliver).Ok?
    requires KeepsXrplTokens(s, s') && KeepsCosmosTokens(s, s') && KeepsConfig(s, s')
    requires var t := DecideTransfer(env, s, funds, deliver).value;
             && ValidateXrplAmount(t.amount).Ok?
             && (t.maxAmount.Some? ==> ValidateXrplAmount(t.maxAmount.value).Ok?)
    ensures var t := DecideTransfer(env, s, funds, deliver).value;
            TransferSound(s', CosmosToXrplTransfer(t.issuer, t.currency, t.amount, t.maxAmount, sender, recipient))
  {
    hide ValidateXrplAmount, SendXrplToken, SendCosmosToken, TransferSound, TablesSound, ConvertAmountDecimals;
    var t := DecideTransfer(env, s, funds, deliver).value;
    var typ := CosmosToXrplTransfer(t.issuer, t.currency, t.amount, t.maxAmount, sender, recipient);
    if funds.denom in s.xrplTokenByDenom && s.xrplTokenByDenom[funds.denom] in s.xrplTokens {
      var key := s.xrplTokenByDenom[funds.denom];
      SendXrplAmounts(s, s.xrplTokens[key], funds, deliver);
      XrplTransferSound(s, key, typ);
    } else {
      TablesGiveCosmosEntry(s, funds.denom);
      SendCosmosAmounts(env.bank, s, s.cosmosTokens[funds.denom], funds, deliver);
      CosmosTransferSound(s, funds.denom, typ);
    }
    SameTablesSameTransfer(s, s', typ);
  }

  lemma TablesGiveCosmosEntry(s: State, denom: string)
    requires TablesSound(s) && denom in s.cosmosTokens
    ensures CosmosEntrySound(s, denom)
  {
  }

  lemma XrplTransferSound(s: State, key: string, t: OperationType)
    requires TablesSound(s) && key in s.xrplTokens && t.CosmosToXrplTransfer?
    requires t.issuer == s.xrplTokens[key].issuer && t.currency == s.xrplTokens[key].currency
    requires t.amount > 0 && ValidateXrplAmount(t.amount).Ok?
    requires t.maxAmount.Some? ==> t.amount <= t.maxAmount.value && ValidateXrplAmount(t.maxAmount.value).Ok?
    requires t.maxAmount.None? ==> IsTokenXrp(t.issuer, t.currency)
    ensures TransferSound(s, t)
  {
    hide ValidateXrplAmount;
    assert XrplEntrySound(s, key);
  }

  lemma CosmosTransferSound(s: State, denom: string, t: OperationType)
    requires TablesSound(s) && denom in s.cosmosTokens && t.CosmosToXrplTransfer?
    requires t.issuer == s.config.bridgeXrplAddress && t.currency == s.cosmosTokens[denom].xrplCurrency
    requires t.amount > 0 && ValidateXrplAmount(t.amount).Ok? && t.maxAmount == Some(t.amount)
    requires WholeCosmosUnits(s.cosmosTokens[denom].decimals, t.amount)
    requires ConvertAmountDecimals(XRPL_TOKENS_DECIMALS, s.cosmosTokens[denom].decimals, t.amount).Ok?
    ensures TransferSound(s, t)
  {
    hide ValidateXrplAmount, ConvertAmountDecimals;
    assert CosmosEntrySound(s, denom);
    BridgeIssuedIsNotXrpl(s, t.currency);
  }
}
