/** Who may send which message, and what each leaves of the configuration. */
module Settings {
  import opened Types
  import opened Amounts
  import opened Tokens
  import opened Pending
  import opened Tickets
  import opened Relayers
  import opened Evidences
  import opened Fees
  import opened Operations
  import opened Handlers
  import opened Votes

  // ---------- configuration ----------

  /** The configuration a message leaves. Only an accepted rotation that takes effect changes the relayer
      set and its threshold, to those that were queued. */
  function ConfigAfter(env: Env, s: State, msg: Msg): Config {
    match msg
    case HaltBridge(_) => s.config.(bridgeState := Halted)
    case RotateKeysMsg(_, _, _) => s.config.(bridgeState := Halted)
    case ResumeBridge(_) => s.config.(bridgeState := Active)
    case UpdateXrplBaseFee(_, fee) => s.config.(xrplBaseFee := fee)
    case UpdateUsedTicketSequenceThreshold(_, threshold) => s.config.(usedTicketSequenceThreshold := threshold)
    case SaveEvidence(_, ev) =>
      if Rotates(env, s, msg) then
        var rotation := s.pendingOperations[SequenceOf(ev)].operationType;
        s.config.(relayers := rotation.newRelayers, evidenceThreshold := rotation.newEvidenceThreshold)
      else s.config
    case _ => s.config
  }

  /** The prohibited addresses a message leaves: the owner's list, and always the bridge's own. */
  function ProhibitedAfter(s: State, msg: Msg): set<string> {
    if msg.UpdateProhibitedXrplAddresses? then (set a | a in msg.addresses) + {s.config.bridgeXrplAddress}
    else s.prohibitedXrplAddresses
  }

  predicate ConfigMoves(env: Env, s: State, msg: Msg, s': State) {
    && s'.owner == s.owner
    && s'.config == ConfigAfter(env, s, msg)
    && s'.prohibitedXrplAddresses == ProhibitedAfter(s, msg)
  }

  lemma CloseConfig(s: State, op: Operation, opResult: Option<OperationResult>, result: TransactionResult,
                    hash: Option<string>, id: Sequence, ticket: Option<Sequence>)
    requires id in s.pendingOperations && op == s.pendingOperations[id]
    requires HandleOperation(s, op, opResult, result, hash, id, ticket).Ok?
    ensures var s' := HandleOperation(s, op, opResult, result, hash, id, ticket).value.state;
            && s'.owner == s.owner && s'.prohibitedXrplAddresses == s.prohibitedXrplAddresses
            && s'.config == (if op.operationType.RotateKeys? && result.Accepted? then
                               s.config.(relayers := op.operationType.newRelayers,
                                         evidenceThreshold := op.operationType.newEvidenceThreshold)
                             else s.config)
  {
    hide HandleTransferConfirmation, HandleTrustSetConfirmation, HandleTicketAllocationConfirmation;
    ConfirmOperationFrame(s, op, opResult, result, hash, id);
  }

  lemma EvidenceConfig(env: Env, s: State, sender: Addr, ev: Evidence)
    requires DoSaveEvidence(env, s, sender, ev).Ok?
    ensures ConfigMoves(env, s, SaveEvidence(sender, ev), DoSaveEvidence(env, s, sender, ev).value.state)
  {
    hide HandleEvidence, HandleOperation, RegisterUsedTicket, ReceiveTransfer, IsRelayer, ValidateBasic;
    var (s1, reached) := HandleEvidence(env.chain, s, sender, ev).value;
    if ev.XrplTransactionResult? && reached {
      var id := SequenceOf(ev);
      CloseConfig(s1, s1.pendingOperations[id], ev.operationResult, ev.result, ev.txHash, id, ev.ticketSequence);
    }
  }

  lemma OpeningConfig(env: Env, s: State, msg: Msg)
    requires IsOpening(msg) && ExecuteOpening(env, s, msg).Ok?
    ensures ConfigMoves(env, s, msg, ExecuteOpening(env, s, msg).value.state)
  {
    hide DoRegisterXrplToken, DoRecoverTickets, DoRecoverXrplTokenRegistration, DoSendToXrpl, DoRotateKeys, Opens,
      HandleEvidence;
  }

  lemma SettingConfig(env: Env, s: State, msg: Msg)
    requires !IsOpening(msg) && !IsResolving(msg) && ExecuteSetting(env, s, msg).Ok?
    ensures ConfigMoves(env, s, msg, ExecuteSetting(env, s, msg).value.state)
  {
    hide DoRegisterCosmosToken, DoUpdateXrplToken, DoUpdateCosmosToken, DoUpdateXrplBaseFee, DoClaimRefund,
      DoClaimRelayerFees, DoSaveSignature, AddSignature, HandleEvidence, SameWork;
  }

  /** The configuration of one message, to the last item. */
  lemma ConfigStep(env: Env, s: State, msg: Msg)
    requires Execute(env, s, msg).Ok?
    ensures ConfigMoves(env, s, msg, Execute(env, s, msg).value.state)
  {
    hide ExecuteOpening, ExecuteSetting, DoSaveEvidence, HandleOperation, HandleEvidence;
    if IsOpening(msg) {
      OpeningConfig(env, s, msg);
    } else if IsResolving(msg) {
      match msg
      case SaveEvidence(sender, ev) => EvidenceConfig(env, s, sender, ev);
      case CancelPendingOperation(_, id) =>
        var op := s.pendingOperations[id];
        CloseConfig(s, op, if op.operationType.AllocateTickets? then Some(TicketsAllocation(None)) else None,
                    Invalid, None, id, op.ticketSequence);
    } else {
      SettingConfig(env, s, msg);
    }
  }

  // ---------- authority ----------

  predicate IsCurrentRelayer(s: State, a: Addr) { exists r <- s.config.relayers :: r.cosmosAddress == a }

  /** Who may send a message, and which messages need an active bridge. */
  predicate Authorised(s: State, msg: Msg) {
    match msg
    case SaveEvidence(sender, _) => IsCurrentRelayer(s, sender)
    case SaveSignature(sender, _, _, _) => IsCurrentRelayer(s, sender)
    case HaltBridge(sender) => (sender == s.owner || IsCurrentRelayer(s, sender)) && s.config.bridgeState == Active
    case SendToXrpl(_, _, _, _) => s.config.bridgeState == Active
    case ClaimRefund(_, _) => s.config.bridgeState == Active
    case ClaimRelayerFees(_, _) => s.config.bridgeState == Active
    case RegisterCosmosToken(sender, _, _, _, _, _, _) => sender == s.owner && s.config.bridgeState == Active
    case UpdateXrplToken(sender, _, _, _, _, _, _) => sender == s.owner && s.config.bridgeState == Active
    case UpdateCosmosToken(sender, _, _, _, _, _) => sender == s.owner && s.config.bridgeState == Active
    case ResumeBridge(sender) => sender == s.owner && !s.pendingRotateKeys
    case RotateKeysMsg(sender, _, _) => sender == s.owner && !s.pendingRotateKeys
    case _ => msg.sender == s.owner
  }

  lemma OpeningAuthority(env: Env, s: State, msg: Msg)
    requires IsOpening(msg) && ExecuteOpening(env, s, msg).Ok?
    ensures Authorised(s, msg)
  {
    hide ValidateXrplAddress, ValidateXrplCurrency, ValidateSendingPrecision, CheckValidOperationIfHalt,
      DecideTransfer, ValidateXrplAmount, ValidateRelayers, Opens, InsertXrplToken, AllocateTicket,
      CreatePendingOperation, ReplaceXrplToken;
  }

  lemma SettingAuthority(env: Env, s: State, msg: Msg)
    requires !IsOpening(msg) && !IsResolving(msg) && ExecuteSetting(env, s, msg).Ok?
    ensures Authorised(s, msg)
  {
    hide ValidateSendingPrecision, ValidateCosmosDenom, ValidateXrplCurrency, SubtractRelayerFees, AddSignature,
      SetTokenState, SetTokenSendingPrecision, SetTokenMaxHoldingAmount, RemovePendingRefund, ReplaceXrplToken,
      ReplaceCosmosToken, InsertCosmosToken, OnlyTokens, OnlyConfig, SameWork;
  }

  /** Every accepted message comes from someone entitled to send it. */
  lemma AuthorityStep(env: Env, s: State, msg: Msg)
    requires Execute(env, s, msg).Ok?
    ensures Authorised(s, msg)
  {
    hide ExecuteOpening, ExecuteSetting, HandleOperation, HandleEvidence, ReceiveTransfer, ResolveOperation,
      ValidateBasic;
    if IsOpening(msg) {
      OpeningAuthority(env, s, msg);
    } else if !IsResolving(msg) {
      SettingAuthority(env, s, msg);
    }
  }
}
