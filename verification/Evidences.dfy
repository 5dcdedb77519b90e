/** Evidence validation and vote counting (evidence.rs). */
module Evidences {
  import opened Types

  predicate IsOperationValid(ev: Evidence) {
    ev.XrplToCosmosTransfer? || !ev.result.Invalid?
  }

  function RawTxHash(ev: Evidence): Option<string> {
    match ev
    case XrplToCosmosTransfer(h, _, _, _, _, _) => Some(h)
    case XrplTransactionResult(h, _, _, _, _) => h
  }

  function ValidateBasic(ev: Evidence): (r: Result<()>)
    ensures r.Ok? && IsOperationValid(ev) ==> RawTxHash(ev).Some?
    ensures r.Ok? && ev.XrplTransactionResult? ==>
              (ev.accountSequence.Some? <==> ev.ticketSequence.None?)
  {
    match ev
    case XrplToCosmosTransfer(_, _, _, amount, _, _) =>
      if amount == 0 then Err(InvalidAmount) else Ok(())
    case XrplTransactionResult(hash, account, ticket, result, opResult) =>
      if account.None? == ticket.None? then Err(InvalidTransactionResultEvidence)
      else if !result.Invalid? && hash.None? then Err(InvalidSuccessfulTransactionResultEvidence)
      else if result.Invalid? && hash.Some? then Err(InvalidFailedTransactionResultEvidence)
      else
        match opResult
        case Some(TicketsAllocation(tickets)) =>
          if !result.Accepted? && tickets.Some? then Err(InvalidTicketAllocationEvidence)
          else if result.Accepted? && (tickets.None? || tickets.value == []) then Err(InvalidTicketAllocationEvidence)
          else Ok(())
        case None => Ok(())
  }

  function TxHash(chain: Chain, ev: Evidence): (h: string)
    requires RawTxHash(ev).Some?
  {
    chain.toUppercase(RawTxHash(ev).value)
  }

  /** The voters of an evidence once `sender` has voted too. */
  function TallyWith(s: State, sender: Addr, ev: Evidence): seq<Addr> {
    GetOr(s.txEvidences, ev, []) + [sender]
  }

  /** Counts a vote. The flag says that the threshold is reached and the evidence takes effect. */
  function HandleEvidence(chain: Chain, s: State, sender: Addr, ev: Evidence): (r: Result<(State, bool)>)
    ensures r.Ok? ==> OnlyVotes(s, r.value.0)
    ensures r.Ok? ==> !(ev in s.txEvidences && sender in s.txEvidences[ev])
    ensures r.Ok? ==> (r.value.1 <==> |TallyWith(s, sender, ev)| >= s.config.evidenceThreshold)
    ensures r.Ok? && !r.value.1 ==>
              && r.value.0.txEvidences == s.txEvidences[ev := TallyWith(s, sender, ev)]
              && r.value.0.processedTxs == s.processedTxs
    ensures r.Ok? && r.value.1 ==>
              && r.value.0.txEvidences ==
                   (if |TallyWith(s, sender, ev)| != 1 then s.txEvidences - {ev} else s.txEvidences)
              && (IsOperationValid(ev) ==>
                    && RawTxHash(ev).Some?
                    && TxHash(chain, ev) !in s.processedTxs
                    && r.value.0.processedTxs == s.processedTxs + {TxHash(chain, ev)})
              && (!IsOperationValid(ev) ==> r.value.0.processedTxs == s.processedTxs)
  {
    if IsOperationValid(ev) && RawTxHash(ev).None? then Err(Panic)
    else if IsOperationValid(ev) && TxHash(chain, ev) in s.processedTxs then Err(OperationAlreadyExecuted)
    else if ev in s.txEvidences && sender in s.txEvidences[ev] then Err(EvidenceAlreadyProvided)
    else
      var tally := TallyWith(s, sender, ev);
      if |tally| >= s.config.evidenceThreshold then
        var s1 := if IsOperationValid(ev) then s.(processedTxs := s.processedTxs + {TxHash(chain, ev)}) else s;
        Ok((if |tally| != 1 then s1.(txEvidences := s1.txEvidences - {ev}) else s1, true))
      else
        Ok((s.(txEvidences := s.txEvidences[ev := tally]), false))
  }
}
