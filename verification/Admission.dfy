/** Exactly when the owner's messages are accepted, and which reports are well formed. */
module Admission {
  import opened Types
  import opened Tokens
  import opened Pending
  import opened Tickets
  import opened Relayers
  import opened Evidences
  import opened Handlers
  import opened TicketFlow

  // ---------- names ----------

  predicate LetterOrDigit(c: char) { 'a' <= c <= 'z' || 'A' <= c <= 'Z' || '0' <= c <= '9' }

  /** A currency code of the ledger: three letters, digits or symbols, but not XRP, or forty upper-case
      hexadecimal digits that do not start with a zero byte. */
  predicate IsCurrency(c: string) {
    || (|c| == 3 && c != "XRP" && forall x <- c :: LetterOrDigit(x) || x in "?!@#$%^&*<>(){}[]|")
    || (|c| == 40 && !(c[0] == '0' && c[1] == '0') && forall x <- c :: '0' <= x <= '9' || 'A' <= x <= 'F')
  }

  /** A denom of the chain: a letter, then two to 127 letters, digits or separators. */
  predicate IsDenom(d: string) {
    && 3 <= |d| <= 128
    && ('a' <= d[0] <= 'z' || 'A' <= d[0] <= 'Z')
    && forall x <- d[1..] :: LetterOrDigit(x) || x in "/:._-"
  }

  lemma CurrencyMeans(c: string)
    ensures ValidateXrplCurrency(c).Ok? <==> IsCurrency(c)
  {
    if |c| == 40 {
      assert c[..2] == [c[0], c[1]];
      assert c[..2] == "00" <==> c[0] == '0' && c[1] == '0';
    }
  }

  lemma DenomMeans(d: string)
    ensures ValidateCosmosDenom(d).Ok? <==> IsDenom(d)
  {
  }

  // ---------- reports ----------

  /** A well-formed report: a transfer of something; or a result for one sequence, with a hash exactly if
      the transaction was executed, and with tickets exactly if an allocation was accepted. */
  predicate IsWellFormed(ev: Evidence) {
    match ev
    case XrplToCosmosTransfer(_, _, _, amount, _, _) => amount > 0
    case XrplTransactionResult(hash, account, ticket, result, opResult) =>
      && (account.Some? <==> ticket.None?)
      && (hash.Some? <==> result != Invalid)
      && (opResult.Some? ==>
            var tickets := opResult.value.tickets;
            (tickets.Some? <==> result == Accepted) && (tickets.Some? ==> |tickets.value| > 0))
  }

  lemma WellFormedMeans(env: Env, s: State, sender: Addr, ev: Evidence)
    ensures ValidateBasic(ev).Ok? <==> IsWellFormed(ev)
    ensures Execute(env, s, SaveEvidence(sender, ev)).Ok? ==> IsWellFormed(ev)
  {
    hide HandleEvidence, ReceiveTransfer, ResolveOperation, ExecuteOpening, ExecuteSetting;
  }

  // ---------- registrations and recoveries ----------

  /** A Cosmos token is registered exactly under these conditions. */
  lemma CosmosRegistrationMeans(env: Env, s: State, msg: Msg)
    requires msg.RegisterCosmosToken?
    ensures Execute(env, s, msg).Ok? <==>
              && msg.sender == s.owner && s.config.bridgeState == Active
              && msg.decimals <= 100 && -15 <= msg.precision <= 15 && msg.precision <= msg.decimals
              && msg.denom !in s.cosmosTokens && IsDenom(msg.denom)
              && IsCurrency(msg.derivedCurrency) && msg.derivedCurrency !in s.cosmosTokenByCurrency
  {
    hide ValidateCosmosDenom, ValidateXrplCurrency, IsDenom, IsCurrency, ExecuteOpening, ExecuteResolving, OnlyTokens;
    DenomMeans(msg.denom);
    CurrencyMeans(msg.derivedCurrency);
  }

  /** Two tickets are left, so one may be taken. */
  predicate MayAllocate(s: State) { |s.availableTickets| >= 2 }

  lemma AllocationSucceeds(time: nat, s: State, typ: OperationType)
    requires TicketsSound(s)
    ensures MayAllocate(s) <==> AllocateTicket(s).Ok?
    ensures MayAllocate(s) ==>
              (CreatePendingOperation(time, AllocateTicket(s).value.0, Some(AllocateTicket(s).value.1), None,
                                      typ).Ok? <==>
                 CheckValidOperationIfHalt(s, typ).Ok?)
  {
  }

  /** An XRPL token is registered exactly under these conditions. */
  lemma XrplRegistrationMeans(env: Env, s: State, msg: Msg)
    requires TicketsSound(s) && msg.RegisterXrplToken?
    ensures Execute(env, s, msg).Ok? <==>
              && msg.sender == s.owner && s.config.bridgeState == Active
              && env.chain.validXrplAddress(msg.issuer) && msg.issuer !in s.prohibitedXrplAddresses
              && IsCurrency(msg.currency) && -15 <= msg.precision <= 15
              && msg.issuer + msg.currency !in s.xrplTokens
              && msg.derivedDenom !in s.cosmosTokens && msg.derivedDenom !in s.xrplTokenByDenom
              && MayAllocate(s)
  {
    hide ValidateXrplCurrency, IsCurrency, ExecuteSetting, ExecuteResolving, Opens, TicketsSound;
    CurrencyMeans(msg.currency);
    var key := BuildXrplTokenKey(msg.issuer, msg.currency);
    if key !in s.xrplTokens && msg.derivedDenom !in s.xrplTokenByDenom {
      var token := XrplToken(msg.issuer, msg.currency, msg.derivedDenom, msg.precision, msg.maxHolding, Processing,
                             msg.fee);
      var s1 := InsertXrplToken(s, key, token).value;
      SameTicketParts(s, s1);
      AllocationSucceeds(env.time, s1, TrustSet(msg.issuer, msg.currency, s.config.trustSetLimitAmount));
    }
  }

  /** A registration is recovered exactly when its token is inactive. */
  lemma RegistrationRecoveryMeans(env: Env, s: State, msg: Msg)
    requires TicketsSound(s) && msg.RecoverXrplTokenRegistration?
    ensures Execute(env, s, msg).Ok? <==>
              && msg.sender == s.owner && s.config.bridgeState == Active
              && msg.issuer + msg.currency in s.xrplTokens
              && s.xrplTokens[msg.issuer + msg.currency].state == Inactive
              && MayAllocate(s)
  {
    hide ExecuteSetting, ExecuteResolving, Opens, TicketsSound;
    var key := BuildXrplTokenKey(msg.issuer, msg.currency);
    if key in s.xrplTokens {
      var s1 := ReplaceXrplToken(s, key, s.xrplTokens[key].(state := Processing));
      SameTicketParts(s, s1);
      AllocationSucceeds(env.time, s1, TrustSet(msg.issuer, msg.currency, s.config.trustSetLimitAmount));
    }
  }

  /** Tickets are recovered exactly when none is left and none is on its way, for more than the threshold. */
  lemma TicketRecoveryMeans(env: Env, s: State, msg: Msg)
    requires msg.RecoverTickets?
    ensures var n := if msg.numberOfTickets.Some? then msg.numberOfTickets.value else s.usedTickets;
            Execute(env, s, msg).Ok? <==>
              && msg.sender == s.owner && s.availableTickets == [] && !s.pendingTicketUpdate
              && s.config.usedTicketSequenceThreshold < n <= 250
              && msg.accountSequence !in s.pendingOperations
  {
    hide ExecuteSetting, ExecuteResolving;
  }

  /** Keys are rotated exactly to a set that can reach its threshold with distinct, well-formed and allowed
      members, and one rotation at a time. */
  lemma RotationMeans(env: Env, s: State, msg: Msg)
    requires TicketsSound(s) && msg.RotateKeysMsg?
    ensures Execute(env, s, msg).Ok? <==>
              && msg.sender == s.owner && !s.pendingRotateKeys
              && ProperRelayers(msg.newRelayers, msg.newThreshold)
              && (forall q <- msg.newRelayers ::
                    && env.chain.validCosmosAddress(q.cosmosAddress)
                    && env.chain.validXrplAddress(q.xrplAddress) && q.xrplAddress !in s.prohibitedXrplAddresses)
              && MayAllocate(s)
  {
    hide ExecuteSetting, ExecuteResolving, Opens, TicketsSound, CheckRelayers, DistinctRelayers;
    CheckRelayersMeans(env.chain, s.prohibitedXrplAddresses, msg.newRelayers);
    var s1 := WithBridgeState(s.(pendingRotateKeys := true), Halted);
    SameTicketParts(s, s1);
    AllocationSucceeds(env.time, s1, RotateKeys(msg.newRelayers, msg.newThreshold));
  }

  /** The remaining settings are accepted exactly from those entitled to them. */
  lemma SettingMeans(env: Env, s: State, msg: Msg)
    ensures msg.HaltBridge? ==>
              (Execute(env, s, msg).Ok? <==>
                 && s.config.bridgeState == Active
                 && (msg.sender == s.owner || exists q <- s.config.relayers :: q.cosmosAddress == msg.sender))
    ensures msg.ResumeBridge? ==> (Execute(env, s, msg).Ok? <==> msg.sender == s.owner && !s.pendingRotateKeys)
    ensures msg.UpdateUsedTicketSequenceThreshold? ==> (Execute(env, s, msg).Ok? <==> msg.sender == s.owner)
    ensures msg.UpdateProhibitedXrplAddresses? ==>
              (Execute(env, s, msg).Ok? <==>
                 msg.sender == s.owner && forall a <- msg.addresses :: env.chain.validXrplAddress(a))
    ensures msg.UpdateXrplBaseFee? ==>
              (Execute(env, s, msg).Ok? <==>
                 && msg.sender == s.owner
                 && forall k | k in s.pendingOperations :: s.pendingOperations[k].version < U64_MAX)
  {
    hide ExecuteOpening, ExecuteResolving, SameWork, OnlyConfig;
  }
}
