/** Token keys, token validation and the owner's token updates (token.rs and the validators of
    contract.rs). */
module Tokens {
  import opened Types
  import opened Amounts

  function BuildXrplTokenKey(issuer: string, currency: string): string { issuer + currency }

  predicate IsTokenXrp(issuer: string, currency: string) {
    issuer == XRP_ISSUER && currency == XRP_CURRENCY
  }

  function DecimalsOf(issuer: string, currency: string): nat {
    if IsTokenXrp(issuer, currency) then XRP_DECIMALS else XRPL_TOKENS_DECIMALS
  }

  predicate IsUpper(c: char) { 'A' <= c <= 'Z' }
  predicate IsAlphabetic(c: char) { IsUpper(c) || 'a' <= c <= 'z' }
  predicate IsNumeric(c: char) { '0' <= c <= '9' }
  predicate IsAlphanumeric(c: char) { IsAlphabetic(c) || IsNumeric(c) }
  predicate IsCurrencySymbol(c: char) { c in "?!@#$%^&*<>(){}[]|" }
  predicate IsUpperHex(c: char) { IsNumeric(c) || 'A' <= c <= 'F' }

  function ValidateXrplCurrency(currency: string): (r: Result<()>)
    ensures r.Ok? ==> (|currency| == 3 || |currency| == 40) && currency != XRP_CURRENCY
  {
    if |currency| == 3 then
      if currency == XRP_CURRENCY then Err(InvalidXrplCurrency)
      else if forall c <- currency :: IsAlphanumeric(c) || IsCurrencySymbol(c) then Ok(())
      else Err(InvalidXrplCurrency)
    else if |currency| == 40 then
      if currency[..2] == "00" then Err(InvalidXrplCurrency)
      else if forall c <- currency :: IsUpperHex(c) then Ok(())
      else Err(InvalidXrplCurrency)
    else Err(InvalidXrplCurrency)
  }

  function ValidateCosmosDenom(denom: string): Result<()> {
    if |denom| < 3 || |denom| > 128 then Err(InvalidDenom)
    else if !IsAlphabetic(denom[0]) then Err(InvalidDenom)
    else if forall c <- denom[1..] :: IsAlphanumeric(c) || c in "/:._-" then Ok(())
    else Err(InvalidDenom)
  }

  function ValidateXrplAddress(chain: Chain, prohibited: set<string>, address: string): Result<()> {
    if !chain.validXrplAddress(address) then Err(InvalidXrplAddress)
    else if address in prohibited then Err(ProhibitedAddress)
    else Ok(())
  }

  function SetTokenState(state: TokenState, target: Option<TokenState>): (r: Result<TokenState>)
    ensures r.Ok? && r.value != state ==>
              {state, r.value} == {Enabled, Disabled}
  {
    if target.None? then Ok(state)
    else if state.Inactive? || state.Processing? then Err(TokenStateIsImmutable)
    else if target.value.Inactive? || target.value.Processing? then Err(InvalidTargetTokenState)
    else Ok(target.value)
  }

  function SetTokenSendingPrecision(precision: int, target: Option<int>, decimals: nat): Result<int> {
    if target.None? then Ok(precision)
    else
      var _ :- ValidateSendingPrecision(target.value, decimals);
      Ok(target.value)
  }

  function SetTokenBridgingFee(fee: Uint128, target: Option<Uint128>): Uint128 {
    if target.None? then fee else target.value
  }

  function SetTokenMaxHoldingAmount(bridged: nat, limit: Uint128, target: Option<Uint128>): (r: Result<Uint128>)
    ensures r.Ok? && bridged <= limit ==> bridged <= r.value
  {
    if target.None? then Ok(limit)
    else if bridged > target.value then Err(InvalidTargetMaxHoldingAmount)
    else Ok(target.value)
  }

  /** Saving a new XRPL token: the unique index over denoms refuses a denom it already holds. */
  function InsertXrplToken(s: State, key: string, token: XrplToken): Result<State>
    requires key !in s.xrplTokens
  {
    if token.cosmosDenom in s.xrplTokenByDenom then Err(UniqueConstraint)
    else Ok(s.(xrplTokens := s.xrplTokens[key := token],
               xrplTokenByDenom := s.xrplTokenByDenom[token.cosmosDenom := key]))
  }

  /** Saving a token again: its index entry is dropped and written anew, so it cannot be refused. */
  function ReplaceXrplToken(s: State, key: string, token: XrplToken): State
    requires key in s.xrplTokens && token.cosmosDenom == s.xrplTokens[key].cosmosDenom
  {
    s.(xrplTokens := s.xrplTokens[key := token],
       xrplTokenByDenom := s.xrplTokenByDenom[token.cosmosDenom := key])
  }

  function InsertCosmosToken(s: State, denom: string, token: CosmosToken): State
    requires denom !in s.cosmosTokens && token.xrplCurrency !in s.cosmosTokenByCurrency
  {
    s.(cosmosTokens := s.cosmosTokens[denom := token],
       cosmosTokenByCurrency := s.cosmosTokenByCurrency[token.xrplCurrency := denom])
  }

  function ReplaceCosmosToken(s: State, denom: string, token: CosmosToken): State
    requires denom in s.cosmosTokens && token.xrplCurrency == s.cosmosTokens[denom].xrplCurrency
  {
    s.(cosmosTokens := s.cosmosTokens[denom := token],
       cosmosTokenByCurrency := s.cosmosTokenByCurrency[token.xrplCurrency := denom])
  }

  /** A pair that registration or instantiation can have put in the token table. */
  predicate KeyPart(issuer: string, currency: string) {
    25 <= |issuer| <= 35 && (|currency| == 3 || |currency| == 40)
  }

  /** Concatenating issuer and currency is injective on validated pairs. */
  lemma KeySeparation(issuer: string, currency: string, issuer': string, currency': string)
    requires KeyPart(issuer, currency) && KeyPart(issuer', currency')
    requires BuildXrplTokenKey(issuer, currency) == BuildXrplTokenKey(issuer', currency')
    ensures issuer == issuer' && currency == currency'
  {
    var k, k' := BuildXrplTokenKey(issuer, currency), BuildXrplTokenKey(issuer', currency');
    assert |k| == |issuer| + |currency| && |k'| == |issuer'| + |currency'|;
    assert issuer == k[..|issuer|] && currency == k[|issuer|..];
    assert issuer' == k'[..|issuer'|] && currency' == k'[|issuer'|..];
  }
}
