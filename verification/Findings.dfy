/** Where the code falls short of a promise: the exact condition, and an input that meets it. */
module Findings {
  import opened Types
  import opened Amounts
  import opened Tokens
  import opened Relayers
  import opened Pending
  import opened Evidences
  import opened Operations
  import opened Handlers
  import opened TokenTables
  import opened Queue
  import opened Soundness
  import opened TicketFlow
  import opened TicketProgress
  import opened Escrow
  import opened Transfers
  import opened Solvency
  import Banking
  import opened World
  import opened Runs

  // ---------- a threshold of 250 tickets ----------

  /** The owner can recover tickets for some number exactly while the threshold is below 250, yet
      instantiation accepts 250. */
  lemma RecoveryNeedsLowerThreshold(time: nat, s: State, account: Sequence)
    requires s.availableTickets == [] && !s.pendingTicketUpdate && account !in s.pendingOperations
    ensures (exists n: nat :: DoRecoverTickets(time, s, s.owner, account, Some(n)).Ok?) <==> Threshold(s) < MAX_TICKETS
  {
    if Threshold(s) < MAX_TICKETS {
      assert DoRecoverTickets(time, s, s.owner, account, Some(MAX_TICKETS)).Ok?;
    }
  }

  /** No ticket, nothing pending, and no way to ask for tickets. */
  predicate Dead(s: State) {
    s.availableTickets == [] && s.pendingOperations == map[] && Threshold(s) >= MAX_TICKETS
  }

  lemma DeadStep(env: Env, s: State, msg: Msg)
    requires Dead(s) && Execute(env, s, msg).Ok? && !msg.UpdateUsedTicketSequenceThreshold?
    ensures Dead(Execute(env, s, msg).value.state)
  {
    hide ExecuteOpening, ExecuteSetting, ReceiveTransfer, HandleEvidence, HandleOperation;
    if IsOpening(msg) {
      DeadRefusesOpening(env, s, msg);
    } else if IsResolving(msg) {
    } else {
      DeadSetting(env, s, msg);
    }
  }

  lemma DeadRefusesOpening(env: Env, s: State, msg: Msg)
    requires Dead(s) && IsOpening(msg)
    ensures ExecuteOpening(env, s, msg).Err?
  {
    hide DoRegisterXrplToken, DoRecoverTickets, DoRecoverXrplTokenRegistration, DoSendToXrpl, DoRotateKeys, KeepsVotes,
      KeepsCosmosTokens, KeepsRefunds, KeepsConfig, KeepsFees;
  }

  lemma DeadSetting(env: Env, s: State, msg: Msg)
    requires Dead(s) && !IsOpening(msg) && !IsResolving(msg) && !msg.UpdateUsedTicketSequenceThreshold?
    requires ExecuteSetting(env, s, msg).Ok?
    ensures Dead(ExecuteSetting(env, s, msg).value.state)
  {
    hide DoRegisterCosmosToken, AddSignature, DoUpdateXrplToken, DoUpdateCosmosToken, DoUpdateXrplBaseFee,
      DoClaimRefund, DoClaimRelayerFees, DoUpdateProhibitedXrplAddresses, DoHaltBridge, DoResumeBridge,
      DoSaveSignature;
    NothingStaysNothing(s.pendingOperations, ExecuteSetting(env, s, msg).value.state.pendingOperations);
  }

  /** A bridge instantiated with the permitted threshold of 250 never gets a ticket and never queues
      an operation, unless the owner changes the threshold. */
  lemma {:induction false} DeadOverRuns(chain: Chain, u: Setup, ws: seq<World>, acts: seq<Action>, i: nat)
    requires IsRun(chain, u, ws, acts) && i < |ws| && u.ticketThreshold == MAX_TICKETS
    requires forall j | 0 <= j < |acts| && acts[j].Message? :: !acts[j].msg.UpdateUsedTicketSequenceThreshold?
    ensures Dead(ws[i].state)
  {
    hide Start, Next, Lawful, Deliver, Execute, EnvOf;
    if i == 0 {
      StartThreshold(chain, u);
    } else {
      DeadOverRuns(chain, u, ws, acts, i - 1);
      var w, a := ws[i - 1], acts[i - 1];
      assert ws[i - 1 + 1] == Next(chain, w, a);
      OnlyMessagesMatter(chain, w, a);
      if ws[i].state != w.state {
        DeliverMeans(chain, w, a.time, a.msg);
        DeadStep(EnvOf(chain, w, a.time, a.msg).value, w.state, a.msg);
      }
    }
  }

  lemma StartThreshold(chain: Chain, u: Setup)
    requires Start(chain, u).Ok?
    ensures var s := Start(chain, u).value.state;
            s.availableTickets == [] && s.pendingOperations == map[] && Threshold(s) == u.ticketThreshold
  {
    hide Banking.ApplyAll, ValidateXrplAmount, ValidateRelayers;
  }

  // ---------- refunds of one second ----------

  /** A refused or cancelled transfer of the same sender, ticket and second as a refund still pending
      replaces that refund. What the contract owes is kept exactly when no such refund is pending. */
  lemma RefundKeptIffFresh(s: State, l: Ledger, op: Operation, opResult: Option<OperationResult>,
                           result: TransactionResult, hash: Option<string>, id: Sequence, ticket: Option<Sequence>)
    requires Sound(s) && LedgerSound(s, l) && RefundsPositive(s) && !result.Accepted? && id !in l.settled
    requires IsTransfer(s.pendingOperations, id) && op == s.pendingOperations[id]
    requires HandleOperation(s, op, opResult, result, hash, id, ticket).Ok?
    ensures var s' := HandleOperation(s, op, opResult, result, hash, id, ticket).value.state;
            (forall d :: Owed(s', l, d) == Owed(s, l, d)) <==>
              RefundKey(op.operationType.sender, op.id) !in s.pendingRefunds
  {
    hide Sound, HandleOperation, Owed, LedgerSound, LockedCoin, Banking.Inflows;
    var o := HandleOperation(s, op, opResult, result, hash, id, ticket).value;
    var key := RefundKey(op.operationType.sender, op.id);
    TransferOutcome(s, op, opResult, result, hash, id, ticket);
    assert l.(settled := l.settled - {id}) == l by { assert l.settled - {id} == l.settled; }
    forall d ensures Owed(o.state, l, d) == Owed(s, l, d) - RefundedUnder(s, key, d) {
      TransferCloseMoney("", s, l, op, opResult, result, hash, id, ticket, d);
      NothingFlows("", d);
    }
    if key in s.pendingRefunds {
      var d := s.pendingRefunds[key].coin.denom;
      assert Owed(o.state, l, d) == Owed(s, l, d) - RefundedUnder(s, key, d);
    }
  }

  /** And such a refund can be pending: cancelling a transfer puts its ticket back in front, and a
      send in the second in which the cancelled one was made gets the very same identifier. */
  lemma SameSecondSameId(env: Env, s: State, sender: Addr, id: Sequence, from: Addr, funds: seq<Coin>,
                         recipient: string, deliver: Option<Uint128>)
    requires Sound(s) && IsTransfer(s.pendingOperations, id) && env.time == s.pendingOperations[id].id.timestamp
    requires DoCancelPendingOperation(s, sender, id).Ok?
    requires DoSendToXrpl(env, DoCancelPendingOperation(s, sender, id).value.state, from, funds, recipient, deliver).Ok?
    ensures var s1 := DoCancelPendingOperation(s, sender, id).value.state;
            var s2 := DoSendToXrpl(env, s1, from, funds, recipient, deliver).value;
            && RefundKey(s.pendingOperations[id].operationType.sender, s.pendingOperations[id].id) in s1.pendingRefunds
            && IsTransfer(s2.pendingOperations, id)
            && s2.pendingOperations[id].id == s.pendingOperations[id].id
  {
    hide Sound, DoSendToXrpl, LockedCoin, OperationSound;
    SoundOperation(s, id);
    TicketIsItsKeyOf(s, id);
    var op := s.pendingOperations[id];
    var s1 := DoCancelPendingOperation(s, sender, id).value.state;
    assert s1.availableTickets[0] == id;
  }

  lemma TicketIsItsKeyOf(s: State, id: Sequence)
    requires id in s.pendingOperations && OperationSound(s, id, s.pendingOperations[id])
    requires !s.pendingOperations[id].operationType.AllocateTickets?
    ensures s.pendingOperations[id].ticketSequence == Some(id) && s.pendingOperations[id].id.sequence == id
  {
  }

  // ---------- the precision of XRP ----------

  /** An update is validated for the decimals of the pair it names, not of the token it finds. The
      new precision exceeds the token's own decimals exactly when the token is XRP, the pair spells
      its key in another way, and the precision is above six. */
  lemma PrecisionBeyondDecimals(env: Env, s: State, sender: Addr, issuer: string, currency: string,
                                state: Option<TokenState>, p: int, fee: Option<Uint128>, maxHolding: Option<Uint128>)
    requires DoUpdateXrplToken(env, s, sender, issuer, currency, state, Some(p), fee, maxHolding).Ok?
    requires TablesSound(s)
    ensures var token := DoUpdateXrplToken(env, s, sender, issuer, currency, state, Some(p), fee, maxHolding)
                         .value.xrplTokens[BuildXrplTokenKey(issuer, currency)];
            token.sendingPrecision > DecimalsOf(token.issuer, token.currency) <==>
              IsTokenXrp(token.issuer, token.currency) && !IsTokenXrp(issuer, currency) && p > XRP_DECIMALS
  {
    hide TablesSound, OnlyTokens;
    var key := BuildXrplTokenKey(issuer, currency);
    if IsTokenXrp(issuer, currency) {
      XrpIsUnderItsKey(s, key);
    }
  }

  lemma XrpIsUnderItsKey(s: State, key: string)
    requires TablesSound(s) && key in s.xrplTokens && key == BuildXrplTokenKey(XRP_ISSUER, XRP_CURRENCY)
    ensures IsTokenXrp(s.xrplTokens[key].issuer, s.xrplTokens[key].currency)
  {
    assert XrplEntrySound(s, key);
    KeySeparation(XRP_ISSUER, XRP_CURRENCY, s.xrplTokens[key].issuer, s.xrplTokens[key].currency);
  }

  /** Such a pair exists, and the owner's update with precision 15 goes through. */
  lemma XrpPrecisionWitness(env: Env, s: State)
    requires s.config.bridgeState.Active? && XRP_KEY in s.xrplTokens && s.xrplTokens[XRP_KEY].state.Enabled?
    ensures !IsTokenXrp(XRP_ISSUER + "X", "RP")
    ensures DoUpdateXrplToken(env, s, s.owner, XRP_ISSUER + "X", "RP", None, Some(15), None, None).Ok?
    ensures var s' := DoUpdateXrplToken(env, s, s.owner, XRP_ISSUER + "X", "RP", None, Some(15), None, None).value;
            s'.xrplTokens[XRP_KEY].sendingPrecision == 15
  {
    assert BuildXrplTokenKey(XRP_ISSUER + "X", "RP") == XRP_KEY;
    assert |"RP"| != |XRP_CURRENCY|;
  }

  /** From then on the bridge truncates XRP to thousands: less than 1000 XRP cannot be sent. */
  lemma MisreadXrpAmounts(amount: Uint128)
    ensures TruncateAmount(15, XRP_DECIMALS, amount).Ok? <==> amount >= 1_000_000_000
    ensures TruncateAmount(XRP_DEFAULT_SENDING_PRECISION, XRP_DECIMALS, amount).Ok? <==> amount >= 1
  {
    assert Pow10(9) == 1_000_000_000 && Pow10(0) == 1;
  }
}
