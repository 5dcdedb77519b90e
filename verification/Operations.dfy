/** Resolution of pending operations and the refunds it leaves (operation.rs). */
module Operations {
  import opened Types
  import opened Amounts
  import opened Tokens
  import opened Tickets
  import opened Relayers

  function HandleTrustSetConfirmation(s: State, issuer: string, currency: string, result: TransactionResult)
    : Result<State>
  {
    var key := BuildXrplTokenKey(issuer, currency);
    if key !in s.xrplTokens then Err(TokenNotRegistered)
    else
      Ok(ReplaceXrplToken(s, key, s.xrplTokens[key].(state := if result.Accepted? then Enabled else Inactive)))
  }

  function StorePendingRefund(s: State, id: OperationId, hash: Option<string>, receiver: Addr, coin: Coin): State {
    s.(pendingRefunds := s.pendingRefunds[RefundKey(receiver, id) := PendingRefund(hash, coin)])
  }

  function RemovePendingRefund(s: State, sender: Addr, id: OperationId): Result<(State, Coin)> {
    var key := RefundKey(sender, id);
    if key !in s.pendingRefunds then Err(PendingRefundNotFound)
    else Ok((s.(pendingRefunds := s.pendingRefunds - {key}), s.pendingRefunds[key].coin))
  }

  /** The coin a transfer has locked in the contract. For an XRPL-originated token it is the maximum
      amount (for XRP the amount) of the wrapped denom, for a Cosmos-originated token the maximum
      amount converted back to the token's own decimals. */
  function LockedCoin(s: State, t: OperationType): Result<Coin>
    requires t.CosmosToXrplTransfer?
  {
    var key := BuildXrplTokenKey(t.issuer, t.currency);
    if key in s.xrplTokens then
      Ok(Coin(s.xrplTokens[key].cosmosDenom, if t.maxAmount.Some? then t.maxAmount.value else t.amount))
    else if t.currency !in s.cosmosTokenByCurrency
            || s.cosmosTokenByCurrency[t.currency] !in s.cosmosTokens then Err(TokenNotRegistered)
    else if t.maxAmount.None? then Err(Panic)
    else
      var token := s.cosmosTokens[s.cosmosTokenByCurrency[t.currency]];
      var back :- ConvertAmountDecimals(XRPL_TOKENS_DECIMALS, token.decimals, t.maxAmount.value);
      Ok(Coin(token.denom, back))
  }

  /** Accepted: a wrapped coin is burned, an escrowed one stays. Otherwise the coin becomes a refund. */
  function HandleTransferConfirmation(s: State, op: Operation, result: TransactionResult, hash: Option<string>)
    : Result<Outcome>
    requires op.operationType.CosmosToXrplTransfer?
  {
    var t := op.operationType;
    if result.Accepted? then
      if BuildXrplTokenKey(t.issuer, t.currency) in s.xrplTokens then
        var coin :- LockedCoin(s, t);
        Ok(Outcome(s, [Burn(coin)]))
      else Ok(Outcome(s, []))
    else
      var coin :- LockedCoin(s, t);
      Ok(Outcome(StorePendingRefund(s, op.id, hash, t.sender, coin), []))
  }

  /** Frame of a confirmation: which stored items each kind of operation may change. */
  predicate Confirms(s: State, s': State, typ: OperationType) {
    && s'.owner == s.owner && s'.prohibitedXrplAddresses == s.prohibitedXrplAddresses
    && s'.processedTxs == s.processedTxs && KeepsCosmosTokens(s, s') && KeepsFees(s, s')
    && s'.pendingOperations == s.pendingOperations
    && (typ.AllocateTickets? ==> !s'.pendingTicketUpdate)
    && (!typ.AllocateTickets? ==> KeepsTickets(s, s'))
    && (!typ.TrustSet? ==> KeepsXrplTokens(s, s'))
    && (!typ.RotateKeys? ==>
          s'.config == s.config && s'.txEvidences == s.txEvidences && s'.pendingRotateKeys == s.pendingRotateKeys)
    && (typ.RotateKeys? ==>
          && !s'.pendingRotateKeys
          && s'.config == s.config.(relayers := s'.config.relayers, evidenceThreshold := s'.config.evidenceThreshold))
    && (!typ.CosmosToXrplTransfer? ==> KeepsRefunds(s, s'))
  }

  /** The effect of a result on the operation's own kind, before the queue is updated. */
  function ConfirmOperation(s: State, op: Operation, opResult: Option<OperationResult>,
                            result: TransactionResult, hash: Option<string>, id: Sequence): Result<Outcome>
    requires id in s.pendingOperations && op == s.pendingOperations[id]
  {
    match op.operationType
    case AllocateTickets(_) =>
      if opResult.None? then Err(InvalidOperationResult)
      else
        var s1 :- HandleTicketAllocationConfirmation(s, opResult.value.tickets, result);
        Ok(Outcome(s1, []))
    case TrustSet(issuer, currency, _) =>
      var s1 :- HandleTrustSetConfirmation(s, issuer, currency, result);
      Ok(Outcome(s1, []))
    case RotateKeys(relayers, threshold) =>
      Ok(Outcome(HandleRotateKeysConfirmation(s, relayers, threshold, result), []))
    case CosmosToXrplTransfer(_, _, _, _, _, _) =>
      HandleTransferConfirmation(s, op, result, hash)
  }

  lemma TransferConfirms(s: State, op: Operation, opResult: Option<OperationResult>,
               result: TransactionResult, hash: Option<string>, id: Sequence)
    requires id in s.pendingOperations && op == s.pendingOperations[id] && op.operationType.CosmosToXrplTransfer?
    requires ConfirmOperation(s, op, opResult, result, hash, id).Ok?
    ensures Confirms(s, ConfirmOperation(s, op, opResult, result, hash, id).value.state, op.operationType)
  {
    hide LockedCoin;
  }

  lemma TrustSetConfirms(s: State, op: Operation, opResult: Option<OperationResult>,
               result: TransactionResult, hash: Option<string>, id: Sequence)
    requires id in s.pendingOperations && op == s.pendingOperations[id] && op.operationType.TrustSet?
    requires ConfirmOperation(s, op, opResult, result, hash, id).Ok?
    ensures Confirms(s, ConfirmOperation(s, op, opResult, result, hash, id).value.state, op.operationType)
  {
  }

  lemma ConfirmOperationFrame(s: State, op: Operation, opResult: Option<OperationResult>,
               result: TransactionResult, hash: Option<string>, id: Sequence)
    requires id in s.pendingOperations && op == s.pendingOperations[id]
    requires ConfirmOperation(s, op, opResult, result, hash, id).Ok?
    ensures Confirms(s, ConfirmOperation(s, op, opResult, result, hash, id).value.state, op.operationType)
  {
    match op.operationType
    case AllocateTickets(_) =>
    case TrustSet(_, _, _) => TrustSetConfirms(s, op, opResult, result, hash, id);
    case RotateKeys(_, _) =>
    case CosmosToXrplTransfer(_, _, _, _, _, _) => TransferConfirms(s, op, opResult, result, hash, id);
  }

  function HandleOperation(s: State, op: Operation, opResult: Option<OperationResult>,
                           result: TransactionResult, hash: Option<string>, id: Sequence,
                           ticket: Option<Sequence>): Result<Outcome>
    requires id in s.pendingOperations && op == s.pendingOperations[id]
  {
    var o :- ConfirmOperation(s, op, opResult, result, hash, id);
    var s1 := o.state.(pendingOperations := o.state.pendingOperations - {id});
    var s2 := if result.Invalid? && ticket.Some? then ReturnTicket(s1, ticket.value) else s1;
    Ok(Outcome(s2, o.msgs))
  }
}
