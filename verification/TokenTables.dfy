/** The two token tables: their indexes, and the separation of XRPL keys from bridge-issued
    currencies that lets a transfer be resolved from its issuer and currency alone. */
module TokenTables {
  import opened Types
  import opened Amounts
  import opened Tokens
  import opened Operations

  /** A token of the XRPL table is stored under its own key, indexed by its denom, and never
      issued by the bridge account. XRP is the one entry that registration did not validate. */
  predicate XrplEntrySound(s: State, key: string)
    requires key in s.xrplTokens
  {
    var token := s.xrplTokens[key];
    && key == BuildXrplTokenKey(token.issuer, token.currency)
    && KeyPart(token.issuer, token.currency)
    && (token.currency == XRP_CURRENCY || token.issuer != s.config.bridgeXrplAddress)
    && token.cosmosDenom in s.xrplTokenByDenom
    && s.xrplTokenByDenom[token.cosmosDenom] == key
  }

  predicate CosmosEntrySound(s: State, denom: string)
    requires denom in s.cosmosTokens
  {
    var token := s.cosmosTokens[denom];
    && token.denom == denom
    && token.decimals <= MAX_COSMOS_TOKEN_DECIMALS
    && ValidateSendingPrecision(token.sendingPrecision, token.decimals).Ok?
    && (|token.xrplCurrency| == 3 || |token.xrplCurrency| == 40)
    && token.xrplCurrency != XRP_CURRENCY
    && token.xrplCurrency in s.cosmosTokenByCurrency
    && s.cosmosTokenByCurrency[token.xrplCurrency] == denom
  }

  ghost predicate TablesSound(s: State) {
    && s.config.bridgeXrplAddress in s.prohibitedXrplAddresses
    && 25 <= |s.config.bridgeXrplAddress| <= 35
    && (forall key | key in s.xrplTokens :: XrplEntrySound(s, key))
    && (forall d | d in s.xrplTokenByDenom ::
          s.xrplTokenByDenom[d] in s.xrplTokens && s.xrplTokens[s.xrplTokenByDenom[d]].cosmosDenom == d)
    && (forall denom | denom in s.cosmosTokens :: CosmosEntrySound(s, denom))
    && (forall c | c in s.cosmosTokenByCurrency ::
          s.cosmosTokenByCurrency[c] in s.cosmosTokens && s.cosmosTokens[s.cosmosTokenByCurrency[c]].xrplCurrency == c)
  }

  /** The pair a Cosmos-originated transfer carries is never a key of the XRPL table. */
  lemma BridgeIssuedIsNotXrpl(s: State, currency: string)
    requires TablesSound(s) && (|currency| == 3 || |currency| == 40) && currency != XRP_CURRENCY
    ensures BuildXrplTokenKey(s.config.bridgeXrplAddress, currency) !in s.xrplTokens
  {
    var key := BuildXrplTokenKey(s.config.bridgeXrplAddress, currency);
    if key in s.xrplTokens {
      var token := s.xrplTokens[key];
      assert XrplEntrySound(s, key);
      KeySeparation(s.config.bridgeXrplAddress, currency, token.issuer, token.currency);
      assert false;
    }
  }

  /** The tables only grow, and what identifies a token never changes. */
  ghost predicate TablesExtend(s: State, s': State) {
    && s'.config.bridgeXrplAddress == s.config.bridgeXrplAddress
    && (forall key | key in s.xrplTokens ::
          key in s'.xrplTokens
          && s'.xrplTokens[key].issuer == s.xrplTokens[key].issuer
          && s'.xrplTokens[key].currency == s.xrplTokens[key].currency
          && s'.xrplTokens[key].cosmosDenom == s.xrplTokens[key].cosmosDenom)
    && (forall c | c in s.cosmosTokenByCurrency ::
          c in s'.cosmosTokenByCurrency && s'.cosmosTokenByCurrency[c] == s.cosmosTokenByCurrency[c])
    && (forall d | d in s.cosmosTokens ::
          d in s'.cosmosTokens
          && s'.cosmosTokens[d].decimals == s.cosmosTokens[d].decimals
          && s'.cosmosTokens[d].xrplCurrency == s.cosmosTokens[d].xrplCurrency
          && s'.cosmosTokens[d].denom == s.cosmosTokens[d].denom)
  }

  lemma KeptTables(s: State, s': State)
    requires TablesSound(s) && KeepsXrplTokens(s, s') && KeepsCosmosTokens(s, s')
    requires s'.config.bridgeXrplAddress == s.config.bridgeXrplAddress
    requires s'.config.bridgeXrplAddress in s'.prohibitedXrplAddresses
    ensures TablesSound(s') && TablesExtend(s, s')
  {
    forall key | key in s'.xrplTokens ensures XrplEntrySound(s', key) { assert XrplEntrySound(s, key); }
    forall d | d in s'.cosmosTokens ensures CosmosEntrySound(s', d) { assert CosmosEntrySound(s, d); }
  }

  predicate SameToken(t: XrplToken, t': XrplToken) {
    t'.issuer == t.issuer && t'.currency == t.currency && t'.cosmosDenom == t.cosmosDenom
  }

  lemma ReplaceKeepsTables(s: State, s': State, key: string, token: XrplToken)
    requires TablesSound(s) && key in s.xrplTokens && SameToken(s.xrplTokens[key], token)
    requires s'.xrplTokens == s.xrplTokens[key := token]
    requires s'.xrplTokenByDenom == s.xrplTokenByDenom[token.cosmosDenom := key]
    requires KeepsCosmosTokens(s, s') && s'.config.bridgeXrplAddress == s.config.bridgeXrplAddress
    requires s'.prohibitedXrplAddresses == s.prohibitedXrplAddresses
    ensures TablesSound(s') && TablesExtend(s, s')
  {
    assert XrplEntrySound(s, key);
    assert s'.xrplTokenByDenom == s.xrplTokenByDenom;
    forall k | k in s'.xrplTokens ensures XrplEntrySound(s', k) { assert XrplEntrySound(s, k); }
    forall d | d in s'.cosmosTokens ensures CosmosEntrySound(s', d) { assert CosmosEntrySound(s, d); }
  }

  lemma InsertKeepsTables(s: State, s': State, key: string, token: XrplToken)
    requires TablesSound(s) && key !in s.xrplTokens && token.cosmosDenom !in s.xrplTokenByDenom
    requires key == BuildXrplTokenKey(token.issuer, token.currency) && KeyPart(token.issuer, token.currency)
    requires token.issuer != s.config.bridgeXrplAddress
    requires s'.xrplTokens == s.xrplTokens[key := token]
    requires s'.xrplTokenByDenom == s.xrplTokenByDenom[token.cosmosDenom := key]
    requires KeepsCosmosTokens(s, s') && KeepsConfig(s, s')
    ensures TablesSound(s') && TablesExtend(s, s')
  {
    forall k | k in s'.xrplTokens ensures XrplEntrySound(s', k) {
      if k != key { assert XrplEntrySound(s, k); }
    }
    forall d | d in s'.cosmosTokens ensures CosmosEntrySound(s', d) { assert CosmosEntrySound(s, d); }
  }

  lemma InsertCosmosKeepsTables(s: State, s': State, denom: string, token: CosmosToken)
    requires TablesSound(s) && denom !in s.cosmosTokens && token.xrplCurrency !in s.cosmosTokenByCurrency
    requires token.denom == denom && token.decimals <= MAX_COSMOS_TOKEN_DECIMALS
    requires ValidateSendingPrecision(token.sendingPrecision, token.decimals).Ok?
    requires (|token.xrplCurrency| == 3 || |token.xrplCurrency| == 40) && token.xrplCurrency != XRP_CURRENCY
    requires s' == InsertCosmosToken(s, denom, token)
    ensures TablesSound(s') && TablesExtend(s, s')
  {
    forall k | k in s'.xrplTokens ensures XrplEntrySound(s', k) { assert XrplEntrySound(s, k); }
    forall d | d in s'.cosmosTokens ensures CosmosEntrySound(s', d) {
      if d != denom { assert CosmosEntrySound(s, d); }
    }
  }

  lemma ReplaceCosmosKeepsTables(s: State, s': State, denom: string, token: CosmosToken)
    requires TablesSound(s) && denom in s.cosmosTokens
    requires token.denom == s.cosmosTokens[denom].denom && token.decimals == s.cosmosTokens[denom].decimals
    requires token.xrplCurrency == s.cosmosTokens[denom].xrplCurrency
    requires ValidateSendingPrecision(token.sendingPrecision, token.decimals).Ok?
    requires s' == ReplaceCosmosToken(s, denom, token)
    ensures TablesSound(s') && TablesExtend(s, s')
  {
    assert CosmosEntrySound(s, denom);
    assert s'.cosmosTokenByCurrency == s.cosmosTokenByCurrency;
    forall k | k in s'.xrplTokens ensures XrplEntrySound(s', k) { assert XrplEntrySound(s, k); }
    forall d | d in s'.cosmosTokens ensures CosmosEntrySound(s', d) { assert CosmosEntrySound(s, d); }
  }

  // ---------- transfers ----------

  /** A queued transfer: positive, at most its maximum, representable on the ledger, and naming a
      token from which its lock can be computed. */
  predicate TransferSound(s: State, t: OperationType)
    requires t.CosmosToXrplTransfer?
  {
    && t.amount > 0
    && ValidateXrplAmount(t.amount).Ok?
    && (t.maxAmount.Some? ==> t.amount <= t.maxAmount.value && ValidateXrplAmount(t.maxAmount.value).Ok?)
    && (t.maxAmount.None? ==> IsTokenXrp(t.issuer, t.currency))
    && (BuildXrplTokenKey(t.issuer, t.currency) in s.xrplTokens || EscrowSound(s, t))
  }

  /** A transfer of a Cosmos-originated token: its amount is a whole number of token units. */
  predicate EscrowSound(s: State, t: OperationType)
    requires t.CosmosToXrplTransfer?
  {
    && t.issuer == s.config.bridgeXrplAddress
    && BuildXrplTokenKey(t.issuer, t.currency) !in s.xrplTokens
    && t.maxAmount == Some(t.amount)
    && t.currency in s.cosmosTokenByCurrency
    && s.cosmosTokenByCurrency[t.currency] in s.cosmosTokens
    && WholeCosmosUnits(s.cosmosTokens[s.cosmosTokenByCurrency[t.currency]].decimals, t.amount)
    && LockedCoin(s, t).Ok?
  }

  /** Growing tables never change what a queued transfer has locked. */
  lemma LockIsStable(s: State, s': State, t: OperationType)
    requires t.CosmosToXrplTransfer? && TransferSound(s, t)
    requires TablesSound(s) && TablesSound(s') && TablesExtend(s, s')
    ensures TransferSound(s', t) && LockedCoin(s', t) == LockedCoin(s, t)
    ensures EscrowSound(s, t) <==> EscrowSound(s', t)
  {
    hide ValidateXrplAmount, ConvertAmountDecimals;
    if EscrowSound(s, t) {
      var denom := s.cosmosTokenByCurrency[t.currency];
      assert CosmosEntrySound(s, denom);
      BridgeIssuedIsNotXrpl(s', t.currency);
    }
  }
}
