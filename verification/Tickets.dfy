/** The ticket allocator (tickets.rs). */
module Tickets {
  import opened Types
  import opened Pending

  function ReserveTicket(s: State): Result<(State, Sequence)> {
    if s.availableTickets == [] then Err(NoAvailableTickets)
    else Ok((s.(availableTickets := s.availableTickets[1..]), s.availableTickets[0]))
  }

  /** The last ticket is kept back for the next ticket allocation. */
  function AllocateTicket(s: State): Result<(State, Sequence)> {
    if s.availableTickets == [] then Err(NoAvailableTickets)
    else if |s.availableTickets| <= 1 then Err(LastTicketReserved)
    else ReserveTicket(s)
  }

  function ReturnTicket(s: State, ticket: Sequence): State {
    s.(availableTickets := [ticket] + s.availableTickets)
  }

  /** The automatic allocation that follows a used ticket once the threshold is reached. */
  predicate Reallocates(s: State) {
    && s.usedTickets + 1 >= s.config.usedTicketSequenceThreshold
    && !s.pendingTicketUpdate
    && s.availableTickets != []
  }

  function RegisterUsedTicket(time: nat, s: State): (r: Result<(State, bool)>)
    ensures r.Ok? ==>
              var s' := r.value.0;
              && KeepsConfig(s, s') && KeepsVotes(s, s') && KeepsXrplTokens(s, s') && KeepsCosmosTokens(s, s')
              && KeepsRefunds(s, s') && KeepsFees(s, s')
              && s'.pendingRotateKeys == s.pendingRotateKeys
              && s'.usedTickets == s.usedTickets + 1
    ensures r.Ok? && !Reallocates(s) ==>
              var s' := r.value.0;
              && s'.availableTickets == s.availableTickets
              && s'.pendingTicketUpdate == s.pendingTicketUpdate
              && s'.pendingOperations == s.pendingOperations
    ensures r.Ok? && Reallocates(s) ==>
              var s', k := r.value.0, s.availableTickets[0];
              && k !in s.pendingOperations
              && s'.availableTickets == s.availableTickets[1..]
              && s'.pendingTicketUpdate
              && s'.pendingOperations == s.pendingOperations[k :=
                   NewOperation(time, s, k, Some(k), None, AllocateTickets(s.config.usedTicketSequenceThreshold))]
  {
    if s.usedTickets + 1 > U32_MAX then Err(Panic)
    else
      var s1 := s.(usedTickets := s.usedTickets + 1);
      if s.usedTickets + 1 >= s.config.usedTicketSequenceThreshold && !s.pendingTicketUpdate then
        match ReserveTicket(s1)
        case Ok((s2, ticket)) =>
          var s3 :- CreatePendingOperation(time, s2, Some(ticket), None,
                                           AllocateTickets(s.config.usedTicketSequenceThreshold));
          Ok((s3.(pendingTicketUpdate := true), true))
        case Err(NoAvailableTickets) => Ok((s1, false))
        case Err(e) => Err(e)
      else Ok((s1, true))
  }

  function SaturatingSub(a: nat, b: nat): nat { if a >= b then a - b else 0 }

  /** `tickets.len() as u32` keeps the low 32 bits. */
  function AsU32(n: nat): nat { n % 0x1_0000_0000 }

  function HandleTicketAllocationConfirmation(s: State, tickets: Option<seq<Sequence>>, result: TransactionResult)
    : Result<State>
  {
    var s1 := s.(pendingTicketUpdate := false);
    if result.Accepted? then
      if tickets.None? then Err(InvalidTicketSequenceToAllocate)
      else Ok(s1.(availableTickets := s.availableTickets + tickets.value,
                  usedTickets := SaturatingSub(s.usedTickets, AsU32(|tickets.value|))))
    else Ok(s1)
  }
}
