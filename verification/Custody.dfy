/** The holding limit of Cosmos-originated tokens over runs, and what an instantiation promises. */
module Custody {
  import opened Types
  import opened Amounts
  import opened Tokens
  import opened Relayers
  import opened Handlers
  import opened Banking
  import opened FeeBook
  import opened TokenTables
  import opened Soundness
  import opened Solvency
  import opened Sends
  import opened TokenUpdates
  import opened World
  import opened Runs
  import Ledgers
  import Evidences
  import Pending
  import Tickets
  import Fees
  import Operations
  import Queue
  import opened Escrow
  import opened Holding

  /** The contract holds no more of a Cosmos token than its limit. */
  predicate WithinEscrowLimit(w: World, d: string) {
    d in w.state.cosmosTokens && HeldOf(w.bank, d) <= w.state.cosmosTokens[d].maxHoldingAmount
  }

  /** The token is a Cosmos token and not also the wrapped denom of an XRPL token. */
  predicate OnlyCosmos(s: State, d: string) { d in s.cosmosTokens && d !in s.xrplTokenByDenom }

  lemma InstantiationMeans(chain: Chain, owner: Addr, relayers: seq<Relayer>, evidenceThreshold: nat,
                           ticketThreshold: nat, trustSetLimit: Uint128, bridgeAddress: string, baseFee: nat,
                           xrpDenom: string, osorEntryPoint: Option<Addr>)
    ensures var r := Instantiate(chain, owner, relayers, evidenceThreshold, ticketThreshold, trustSetLimit,
                                 bridgeAddress, baseFee, xrpDenom, osorEntryPoint);
            var prohibited := INITIAL_PROHIBITED_XRPL_ADDRESSES + {bridgeAddress};
            && (r.Ok? <==>
                  && chain.validCosmosAddress(owner) && chain.validXrplAddress(bridgeAddress)
                  && ProperRelayers(relayers, evidenceThreshold)
                  && (forall q <- relayers ::
                        && chain.validCosmosAddress(q.cosmosAddress)
                        && chain.validXrplAddress(q.xrplAddress) && q.xrplAddress !in prohibited)
                  && 2 <= ticketThreshold <= 250
                  && Representable(trustSetLimit))
            && (r.Ok? ==>
                  && var s := r.value;
                  && s.owner == owner && s.prohibitedXrplAddresses == prohibited
                  && s.config == Config(relayers, evidenceThreshold, ticketThreshold, trustSetLimit, bridgeAddress,
                                        Active, baseFee, osorEntryPoint)
                  && s.xrplTokens == map["rrrrrrrrrrrrrrrrrrrrrhoLvTpXRP" :=
                       XrplToken("rrrrrrrrrrrrrrrrrrrrrhoLvTp", "XRP", xrpDenom, 6, 10_000_000_000_000_000, Enabled, 0)]
                  && s.cosmosTokens == map[] && s.pendingOperations == map[] && s.availableTickets == []
                  && s.pendingRefunds == map[] && s.feesCollected == map[])
  {
    hide Representable, ValidateXrplAmount, CheckRelayers, DistinctRelayers;
    CheckRelayersMeans(chain, INITIAL_PROHIBITED_XRPL_ADDRESSES + {bridgeAddress}, relayers);
    XrplAmountRule(trustSetLimit);
    assert BuildXrplTokenKey(XRP_ISSUER, XRP_CURRENCY) == "rrrrrrrrrrrrrrrrrrrrrhoLvTpXRP";
  }

  // ---------- nothing is issued of a denom that is not wrapped ----------

  lemma EvidenceIssues(env: Env, s: State, sender: Addr, ev: Evidence, d: string)
    requires Sound(s) && d !in s.xrplTokenByDenom && DoSaveEvidence(env, s, sender, ev).Ok?
    ensures AllIssued(DoSaveEvidence(env, s, sender, ev).value.msgs, d) <= 0
  {
    hide Sound, ReceiveTransfer, ResolveOperation, AllIssued, Evidences.HandleEvidence, IsRelayer, Owed, AllBurns,
      TablesSound;
    var (s1, reached) := Evidences.HandleEvidence(env.chain, s, sender, ev).value;
    VoteIsSound(env.chain, s, sender, ev);
    NothingFlows("", d);
    if ev.XrplTransactionResult? {
      ResolveLimits(env, s1, ev, reached);
      BurnsOnlyShrink(ResolveOperation(env, s1, ev, reached).value.msgs, d);
    } else if reached {
      SoundTables(s1);
      TransferEvidenceMoney(env, s1, Ledger({}, map[], map[], map[]), ev, d);
      if ev.issuer != s1.config.bridgeXrplAddress { ArrivingIsWrapped(env, s1, ev, d); }
    } else {
      UnreachedChangesNothing(env, s1, ev);
    }
  }

  lemma ArrivingIsWrapped(env: Env, s: State, ev: Evidence, d: string)
    requires TablesSound(s) && d !in s.xrplTokenByDenom && ev.XrplToCosmosTransfer?
    requires ReceiveTransfer(env, s, ev, true).Ok? && ev.issuer != s.config.bridgeXrplAddress
    ensures var key := BuildXrplTokenKey(ev.issuer, ev.currency);
            key in s.xrplTokens && s.xrplTokens[key].cosmosDenom != d
  {
    hide TablesSound, ReceiveXrplToken;
    ReceiveXrplKey(env, s, ev);
    Ledgers.WrappedIsIndexed(s, BuildXrplTokenKey(ev.issuer, ev.currency));
  }

  lemma SettingIssues(env: Env, s: State, msg: Msg, d: string)
    requires !IsOpening(msg) && !IsResolving(msg) && ExecuteSetting(env, s, msg).Ok?
    ensures AllIssued(ExecuteSetting(env, s, msg).value.msgs, d) == 0
  {
    hide DoRegisterCosmosToken, DoUpdateXrplToken, DoUpdateCosmosToken, DoUpdateXrplBaseFee, Fees.SubtractRelayerFees,
      DoUpdateUsedTicketSequenceThreshold, DoUpdateProhibitedXrplAddresses, DoHaltBridge, DoResumeBridge,
      DoSaveSignature, Pending.AddSignature, AllIssued;
    NothingFlows("", d);
    if msg.ClaimRefund? {
      SendInflows("", msg.sender, [s.pendingRefunds[RefundKey(msg.sender, msg.refundId)].coin], d);
    } else if msg.ClaimRelayerFees? {
      SendInflows("", msg.sender, msg.amounts, d);
    }
  }

  lemma NothingIssued(env: Env, s: State, msg: Msg, d: string)
    requires Sound(s) && d !in s.xrplTokenByDenom && Execute(env, s, msg).Ok?
    ensures AllIssued(Execute(env, s, msg).value.msgs, d) <= 0
  {
    hide Sound, AllIssued, ExecuteOpening, ExecuteSetting, DoSaveEvidence, Operations.HandleOperation, AllBurns;
    if IsOpening(msg) {
      OpeningLimits(env, s, msg, d);
    } else if IsResolving(msg) {
      match msg
      case SaveEvidence(sender, ev) => EvidenceIssues(env, s, sender, ev, d);
      case CancelPendingOperation(_, id) =>
        var op := s.pendingOperations[id];
        var opResult := if op.operationType.AllocateTickets? then Some(TicketsAllocation(None)) else None;
        CloseLimits(s, op, opResult, Invalid, None, id, op.ticketSequence);
        BurnsOnlyShrink(Operations.HandleOperation(s, op, opResult, Invalid, None, id, op.ticketSequence).value.msgs,
                        d);
    } else {
      SettingIssues(env, s, msg, d);
    }
  }

  // ---------- one message ----------

  lemma StaysCosmos(env: Env, s: State, msg: Msg, d: string)
    requires Lawful(env.chain) && Sound(s) && OnlyCosmos(s, d) && Execute(env, s, msg).Ok?
    ensures OnlyCosmos(Execute(env, s, msg).value.state, d)
  {
    hide Sound, Execute, Lawful, TablesSound;
    var s' := Execute(env, s, msg).value.state;
    SoundStep(env, s, msg);
    SoundTables(s);
    SoundTables(s');
    if d in s'.xrplTokenByDenom {
      XrplEntryOf(s', d);
      var key := s'.xrplTokenByDenom[d];
      TablesStep(env, s, msg);
      if key in s.xrplTokens {
        Ledgers.WrappedIsIndexed(s, key);
      } else {
        NewKeyIsRegistered(env, s, msg, key);
        RegistrationAvoidsCosmos(env, s, msg);
      }
    }
  }

  lemma NewKeyIsRegistered(env: Env, s: State, msg: Msg, key: string)
    requires key in XrplTableAfter(env, s, msg) && key !in s.xrplTokens
    ensures msg.RegisterXrplToken? && XrplTableAfter(env, s, msg)[key].cosmosDenom == msg.derivedDenom
  {
    hide Evidences.HandleEvidence;
  }

  lemma RegistrationAvoidsCosmos(env: Env, s: State, msg: Msg)
    requires msg.RegisterXrplToken? && Execute(env, s, msg).Ok?
    ensures msg.derivedDenom !in s.cosmosTokens
  {
    hide ValidateXrplAddress, ValidateXrplCurrency, ValidateSendingPrecision, Pending.Opens, ExecuteSetting,
      ExecuteResolving, InsertXrplToken, Tickets.AllocateTicket, Pending.CreatePendingOperation;
  }

  lemma MessageWithinLimit(chain: Chain, w: World, time: nat, msg: Msg, d: string)
    requires Lawful(chain) && Sound(w.state) && OnlyCosmos(w.state, d) && WithinEscrowLimit(w, d)
    requires Deliver(chain, w, time, msg).Ok?
    ensures WithinEscrowLimit(Deliver(chain, w, time, msg).value, d)
  {
    hide Sound, Execute, EnvOf, Deliver, ApplyAll, AllIssued, Inflows, LedgerAfter, Lawful, XrplTableAfter, AmountOf,
      SendPromise;
    Ledgers.DeliverBooks(chain, w, time, msg);
    DeliverMeans(chain, w, time, msg);
    var env := EnvOf(chain, w, time, msg).value;
    EnvMeans(chain, w, time, msg, d);
    NothingIssued(env, w.state, msg, d);
    ApplyAllMeans(chain.contract, env.bank, Execute(env, w.state, msg).value.msgs, d);
    TablesStep(env, w.state, msg);
    CosmosNames(w.state, d);
    if msg.SendToXrpl? {
      SendWithinLimit(env, w.state, msg, d);
    } else if msg.UpdateCosmosToken? {
      CosmosUpdateMeans(env, w.state, msg);
    } else if msg.RegisterCosmosToken? {
      NewCosmosIsNew(env, w.state, msg);
    }
  }

  lemma CosmosNames(s: State, d: string)
    requires Sound(s) && d in s.cosmosTokens
    ensures s.cosmosTokens[d].denom == d
  {
    hide Sound, TablesSound;
    SoundTables(s);
    Queue.TablesGiveCosmosEntry(s, d);
  }

  lemma NewCosmosIsNew(env: Env, s: State, msg: Msg)
    requires msg.RegisterCosmosToken? && Execute(env, s, msg).Ok?
    ensures msg.denom !in s.cosmosTokens
  {
    hide ValidateXrplCurrency, ValidateSendingPrecision, ValidateCosmosDenom, ExecuteOpening, ExecuteResolving;
  }

  /** A send of the token leaves the balance, its own coins included, within the limit. */
  lemma SendWithinLimit(env: Env, s: State, msg: Msg, d: string)
    requires Sound(s) && OnlyCosmos(s, d) && msg.SendToXrpl? && Execute(env, s, msg).Ok?
    ensures Attached(msg, d) > 0 ==> HeldOf(env.bank, d) <= s.cosmosTokens[d].maxHoldingAmount
  {
    hide Sound, Execute, XrplTransferOf;
    SendMeans(env, s, msg.sender, msg.funds, msg.recipient, msg.deliverAmount);
    assert msg.funds == [msg.funds[0]];
    OneCoin(msg.funds[0], d);
  }

  // ---------- over runs ----------

  lemma NextWithinLimit(chain: Chain, w: World, a: Action, d: string)
    requires Lawful(chain) && Sound(w.state) && OnlyCosmos(w.state, d) && WithinEscrowLimit(w, d)
    requires !(a.Deposit? && a.denom == d)
    ensures OnlyCosmos(Next(chain, w, a).state, d) && WithinEscrowLimit(Next(chain, w, a), d)
  {
    hide Sound, Deliver, CanSettle, Settled, CanArrive, Arrived, Lawful, Execute, EnvOf;
    if a.Message? && Deliver(chain, w, a.time, a.msg).Ok? {
      MessageWithinLimit(chain, w, a.time, a.msg, d);
      DeliverMeans(chain, w, a.time, a.msg);
      StaysCosmos(EnvOf(chain, w, a.time, a.msg).value, w.state, a.msg, d);
    }
  }

  /** The holding limit of Cosmos tokens over every run: once the contract's balance is within the limit it
      stays so, across sends, returns, claims and the owner's updates, as long as nobody sends the contract
      coins it did not ask for. */
  lemma {:induction false} EscrowLimitOverRuns(chain: Chain, u: Setup, ws: seq<World>, acts: seq<Action>, i: nat,
                                               j: nat, d: string)
    requires IsRun(chain, u, ws, acts) && i <= j < |ws|
    requires OnlyCosmos(ws[i].state, d) && WithinEscrowLimit(ws[i], d)
    requires forall n | i <= n < j :: !(acts[n].Deposit? && acts[n].denom == d)
    ensures OnlyCosmos(ws[j].state, d) && WithinEscrowLimit(ws[j], d)
    decreases j
  {
    hide Sound, Start, Next, Lawful;
    if i < j {
      EscrowLimitOverRuns(chain, u, ws, acts, i, j - 1, d);
      SoundnessOverRuns(chain, u, ws, acts, j - 1);
      assert ws[j - 1 + 1] == Next(chain, ws[j - 1], acts[j - 1]);
      NextWithinLimit(chain, ws[j - 1], acts[j - 1], d);
    }
  }
}
