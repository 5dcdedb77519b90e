/** How one message may move the vote tallies and the processed transactions. */
module Votes {
  import opened Types
  import opened Relayers
  import opened Evidences
  import opened Pending
  import opened Tickets
  import opened Operations
  import opened Handlers
  import opened TicketFlow

  /** The message makes an accepted key rotation take effect. */
  predicate Rotates(env: Env, s: State, msg: Msg) {
    && TakesEffect(env, s, msg)
    && msg.evidence.XrplTransactionResult?
    && msg.evidence.result.Accepted?
    && (msg.evidence.accountSequence.Some? || msg.evidence.ticketSequence.Some?)
    && SequenceOf(msg.evidence) in s.pendingOperations
    && s.pendingOperations[SequenceOf(msg.evidence)].operationType.RotateKeys?
  }

  /** The upper-cased hash of the transaction a report says was executed. */
  function ClaimedHash(chain: Chain, ev: Evidence): Option<string> {
    match ev
    case XrplToCosmosTransfer(hash, _, _, _, _, _) => Some(chain.toUppercase(hash))
    case XrplTransactionResult(hash, _, _, result, _) =>
      if hash.Some? && result != Invalid then Some(chain.toUppercase(hash.value)) else None
  }

  /** The hash for which the message takes effect, if it does. */
  function EffectiveHash(env: Env, s: State, msg: Msg): Option<string> {
    if TakesEffect(env, s, msg) then ClaimedHash(env.chain, msg.evidence) else None
  }

  /** A report of a processed transaction is refused, in whatever letter case and whatever it says. */
  lemma ProcessedIsRefused(env: Env, s: State, sender: Addr, ev: Evidence)
    requires ClaimedHash(env.chain, ev).Some? && ClaimedHash(env.chain, ev).value in s.processedTxs
    ensures Execute(env, s, SaveEvidence(sender, ev)).Err?
  {
    hide ReceiveTransfer, ResolveOperation, IsRelayer;
  }

  lemma NoEffectNoHash(env: Env, s: State, msg: Msg)
    requires !TakesEffect(env, s, msg)
    ensures EffectiveHash(env, s, msg) == None
  {
  }

  /** Every voter in a tally was there before or is the sender of this vote; a rotation leaves none. */
  ghost predicate TallyMoves(env: Env, s: State, msg: Msg, s': State) {
    && (Rotates(env, s, msg) ==> s'.txEvidences == map[])
    && (forall ev, a | ev in s'.txEvidences && a in s'.txEvidences[ev] ::
          (ev in s.txEvidences && a in s.txEvidences[ev]) || msg == SaveEvidence(a, ev))
  }

  /** Exactly the hash of an effective vote is added, and it was not there before. */
  predicate HashMoves(env: Env, s: State, msg: Msg, s': State) {
    var h := EffectiveHash(env, s, msg);
    if h.Some? then h.value !in s.processedTxs && s'.processedTxs == s.processedTxs + {h.value}
    else s'.processedTxs == s.processedTxs
  }

  lemma VoteTallies(env: Env, s: State, sender: Addr, ev: Evidence)
    requires HandleEvidence(env.chain, s, sender, ev).Ok?
    ensures var s1 := HandleEvidence(env.chain, s, sender, ev).value.0;
            && HashMoves(env, s, SaveEvidence(sender, ev), s1)
            && forall e, a | e in s1.txEvidences && a in s1.txEvidences[e] ::
                 (e in s.txEvidences && a in s.txEvidences[e]) || SaveEvidence(sender, ev) == SaveEvidence(a, e)
  {
    hide HandleEvidence, OnlyVotes;
  }

  lemma ResolveTallies(env: Env, s: State, ev: Evidence, reached: bool)
    requires ev.XrplTransactionResult? && (ev.accountSequence.Some? || ev.ticketSequence.Some?)
    requires ResolveOperation(env, s, ev, reached).Ok?
    ensures var s' := ResolveOperation(env, s, ev, reached).value.state;
            && s'.processedTxs == s.processedTxs
            && (s'.txEvidences == s.txEvidences || s'.txEvidences == map[])
            && (reached && ev.result.Accepted? && s.pendingOperations[SequenceOf(ev)].operationType.RotateKeys? ==>
                  s'.txEvidences == map[])
  {
    hide HandleOperation, RegisterUsedTicket;
    if reached {
      var id := SequenceOf(ev);
      CloseTallies(s, s.pendingOperations[id], ev.operationResult, ev.result, ev.txHash, id, ev.ticketSequence);
    }
  }

  lemma CloseTallies(s: State, op: Operation, opResult: Option<OperationResult>, result: TransactionResult,
                     hash: Option<string>, id: Sequence, ticket: Option<Sequence>)
    requires id in s.pendingOperations && op == s.pendingOperations[id]
    requires HandleOperation(s, op, opResult, result, hash, id, ticket).Ok?
    ensures var s' := HandleOperation(s, op, opResult, result, hash, id, ticket).value.state;
            && s'.processedTxs == s.processedTxs
            && (s'.txEvidences == if op.operationType.RotateKeys? && result.Accepted? then map[] else s.txEvidences)
  {
    hide HandleTransferConfirmation, HandleTrustSetConfirmation, HandleTicketAllocationConfirmation;
    ConfirmOperationFrame(s, op, opResult, result, hash, id);
  }

  lemma EvidenceTallies(env: Env, s: State, sender: Addr, ev: Evidence)
    requires DoSaveEvidence(env, s, sender, ev).Ok?
    ensures var s' := DoSaveEvidence(env, s, sender, ev).value.state;
            TallyMoves(env, s, SaveEvidence(sender, ev), s') && HashMoves(env, s, SaveEvidence(sender, ev), s')
  {
    hide HandleEvidence, ResolveOperation, ReceiveTransfer, IsRelayer, EffectiveHash;
    var (s1, reached) := HandleEvidence(env.chain, s, sender, ev).value;
    VoteTallies(env, s, sender, ev);
    if ev.XrplTransactionResult? {
      ResolveTallies(env, s1, ev, reached);
    }
  }

  lemma OtherTallies(env: Env, s: State, msg: Msg)
    requires !msg.SaveEvidence? && Execute(env, s, msg).Ok?
    ensures KeepsVotes(s, Execute(env, s, msg).value.state)
  {
    hide ConfirmOperation, DoSaveEvidence, HandleOperation, ExecuteOpening, ExecuteSetting;
    if IsOpening(msg) {
      OpeningTallies(env, s, msg);
    } else if IsResolving(msg) {
      var op := s.pendingOperations[msg.operationId];
      CloseTallies(s, op, if op.operationType.AllocateTickets? then Some(TicketsAllocation(None)) else None,
                   Invalid, None, msg.operationId, op.ticketSequence);
    } else {
      SettingTallies(env, s, msg);
    }
  }

  lemma OpeningTallies(env: Env, s: State, msg: Msg)
    requires IsOpening(msg) && ExecuteOpening(env, s, msg).Ok?
    ensures KeepsVotes(s, ExecuteOpening(env, s, msg).value.state)
  {
    hide DoRegisterXrplToken, DoRecoverTickets, DoRecoverXrplTokenRegistration, DoSendToXrpl, DoRotateKeys, KeepsVotes;
  }

  lemma SettingTallies(env: Env, s: State, msg: Msg)
    requires !IsOpening(msg) && !IsResolving(msg) && ExecuteSetting(env, s, msg).Ok?
    ensures KeepsVotes(s, ExecuteSetting(env, s, msg).value.state)
  {
    hide DoRegisterCosmosToken, AddSignature, DoUpdateXrplToken, DoUpdateCosmosToken, DoUpdateXrplBaseFee,
      DoClaimRefund, DoClaimRelayerFees, DoUpdateUsedTicketSequenceThreshold, DoUpdateProhibitedXrplAddresses,
      DoHaltBridge, DoResumeBridge, DoSaveSignature, KeepsVotes;
  }

  /** Tallies and processed transactions of one message. */
  lemma VoteStep(env: Env, s: State, msg: Msg)
    requires Execute(env, s, msg).Ok?
    ensures TallyMoves(env, s, msg, Execute(env, s, msg).value.state)
    ensures HashMoves(env, s, msg, Execute(env, s, msg).value.state)
    ensures msg.SaveEvidence? ==>
              IsRelayer(s.config.relayers, msg.sender) && HandleEvidence(env.chain, s, msg.sender, msg.evidence).Ok?
  {
    hide ExecuteOpening, ExecuteSetting, HandleEvidence, IsRelayer, ReceiveTransfer, ResolveOperation, HandleOperation,
      ValidateBasic;
    if msg.SaveEvidence? {
      EvidenceTallies(env, s, msg.sender, msg.evidence);
    } else {
      OtherTallies(env, s, msg);
    }
  }
}
