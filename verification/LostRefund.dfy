/** A run that loses a refund: two sends on one ticket in one second, both cancelled. */
module LostRefund {
  import opened Types
  import opened Amounts
  import opened Tokens
  import opened Relayers
  import opened Evidences
  import opened Operations
  import opened Handlers
  import opened Banking
  import opened Escrow
  import opened Solvency
  import opened Soundness
  import opened World
  import opened Runs
  import Ledgers
  import opened Witness

  const SUPPLIED: Setup := SETUP.(bank := Bank(map["uatom" := 100], map[]))
  const TOKEN: CosmosToken := CosmosToken("uatom", 15, "ATM", 15, 1000, Enabled, 0)
  const RECIPIENT: string := "ccccccccccccccccccccccccccccc"
  const TRANSFER: OperationType := CosmosToXrplTransfer(BRIDGE, "ATM", 10, Some(10), "alice", RECIPIENT)
  const SENT: Operation := Operation(OperationId(5, 2), 1, Some(2), None, [], TRANSFER, 10)
  const KEY: RefundKey := RefundKey("alice", OperationId(5, 2))
  const REFUND: PendingRefund := PendingRefund(None, Coin("uatom", 10))

  const SEND: Action := Message(5, SendToXrpl("alice", [Coin("uatom", 10)], RECIPIENT, None))
  const CANCEL: Action := Message(5, CancelPendingOperation("owner", 2))

  const LOSING: seq<Action> := [
    ACTIONS[0],
    ACTIONS[1],
    Message(0, RegisterCosmosToken("owner", "uatom", 15, 15, 1000, 0, "ATM")),
    SEND,
    CANCEL,
    SEND,
    CANCEL
  ]

  /** Where the run stands. */
  ghost predicate Here(w: World, available: seq<Sequence>, ops: map<Sequence, Operation>, updating: bool,
                       hashes: set<string>, registered: bool, refunds: map<RefundKey, PendingRefund>, held: nat)
  {
    && At(w, available, 0, ops, updating, false, hashes)
    && var s := w.state;
    && s.config.bridgeState.Active? && s.config.bridgeXrplAddress == BRIDGE
    && (forall k :: k in s.xrplTokens <==> k == XRP_KEY)
    && (forall d :: d in s.xrplTokenByDenom <==> d == "xrp")
    && s.cosmosTokens == (if registered then map["uatom" := TOKEN] else map[])
    && s.cosmosTokenByCurrency == (if registered then map["ATM" := "uatom"] else map[])
    && s.pendingRefunds == refunds
    && SupplyOf(w.bank, "uatom") == 100 && HeldOf(w.bank, "uatom") == held
    && w.ledger.settled == {}
  }

  ghost predicate Stage(w: World, i: nat) {
    match i
    case 0 => Here(w, [], map[], false, {}, false, map[], 0)
    case 1 => Here(w, [], map[1 := RECOVERY], true, {}, false, map[], 0)
    case 2 => Here(w, [2, 3, 4], map[], false, {"A"}, false, map[], 0)
    case 3 => Here(w, [2, 3, 4], map[], false, {"A"}, true, map[], 0)
    case 4 => Here(w, [3, 4], map[2 := SENT], false, {"A"}, true, map[], 10)
    case 5 => Here(w, [2, 3, 4], map[], false, {"A"}, true, map[KEY := REFUND], 10)
    case 6 => Here(w, [3, 4], map[2 := SENT], false, {"A"}, true, map[KEY := REFUND], 20)
    case _ => Here(w, [2, 3, 4], map[], false, {"A"}, true, map[KEY := REFUND], 20)
  }

  // ---------- steps ----------

  lemma First(w: World)
    requires Stage(w, 0)
    ensures Stage(Next(CHAIN, w, LOSING[0]), 1)
  {
    hide Next;
    QuietDelivery(w, 0, LOSING[0].msg);
  }

  lemma Second(w: World)
    requires Stage(w, 1)
    ensures Stage(Next(CHAIN, w, LOSING[1]), 2)
  {
    hide Next, HandleEvidence;
    OneVote(w.state, LOSING[1].msg.evidence);
    QuietDelivery(w, 0, LOSING[1].msg);
  }

  lemma Registering(s: State)
    requires s.owner == "owner" && s.config.bridgeState.Active? && s.cosmosTokens == map[]
             && s.cosmosTokenByCurrency == map[]
    ensures DoRegisterCosmosToken(s, "owner", "uatom", 15, 15, 1000, 0, "ATM")
         == Ok(s.(cosmosTokens := map["uatom" := TOKEN], cosmosTokenByCurrency := map["ATM" := "uatom"]))
  {
    assert "uatom"[1..] == "atom";
  }

  lemma Third(w: World)
    requires Stage(w, 2)
    ensures Stage(Next(CHAIN, w, LOSING[2]), 3)
  {
    hide Next, DoRegisterCosmosToken;
    Registering(w.state);
    QuietDelivery(w, 0, LOSING[2].msg);
  }

  lemma TenIsRepresentable()
    ensures ValidateXrplAmount(10).Ok?
  {
    hide ValidateXrplAmount;
    XrplAmountRule(10);
    TenFits();
    Pow10Zero();
    assert Pow10(1) == 10 * Pow10(0);
    assert IsScaled(10, 1, 1);
  }

  lemma Truncation()
    ensures TruncateAmount(15, 15, 10) == Ok((10, 0))
    ensures TruncateAndConvertAmount(15, 15, 15, 10, 0) == Ok((10, 0))
  {
    Pow10Zero();
    DivMod(10, 1, 10, 0);
  }

  lemma Decided(env: Env, s: State)
    requires s.cosmosTokens == map["uatom" := TOKEN] && "uatom" !in s.xrplTokenByDenom
    requires s.config.bridgeXrplAddress == BRIDGE && HeldOf(env.bank, "uatom") <= 1000
    ensures DecideTransfer(env, s, Coin("uatom", 10), None) == Ok(Transfer(s, BRIDGE, "ATM", 10, Some(10)))
  {
    hide TruncateAmount, TruncateAndConvertAmount;
    Truncation();
  }

  lemma Attaching(bank: Bank)
    requires SupplyOf(bank, "uatom") == 100 && HeldOf(bank, "uatom") <= 10
    ensures Attach(bank, [Coin("uatom", 10)]).Ok?
    ensures SupplyOf(Attach(bank, [Coin("uatom", 10)]).value, "uatom") == 100
    ensures HeldOf(Attach(bank, [Coin("uatom", 10)]).value, "uatom") == HeldOf(bank, "uatom") + 10
  {
    assert [Coin("uatom", 10)][1..] == [];
  }

  lemma Queued(env: Env, s: State)
    requires s.config.bridgeState.Active? && env.chain == CHAIN && env.time == 5 && s.config.xrplBaseFee == 10
    requires s.prohibitedXrplAddresses == INITIAL_PROHIBITED_XRPL_ADDRESSES + {BRIDGE}
    requires s.availableTickets == [2, 3, 4] && s.pendingOperations == map[]
    requires DecideTransfer(env, s, Coin("uatom", 10), None) == Ok(Transfer(s, BRIDGE, "ATM", 10, Some(10)))
    ensures DoSendToXrpl(env, s, "alice", [Coin("uatom", 10)], RECIPIENT, None)
         == Ok(s.(availableTickets := [3, 4], pendingOperations := map[2 := SENT]))
  {
    hide DecideTransfer, ValidateXrplAmount;
    TenIsRepresentable();
    assert RECIPIENT !in s.prohibitedXrplAddresses by { assert RECIPIENT[0] == 'c'; }
    assert |RECIPIENT| == 29;
    assert [2, 3, 4][1..] == [3, 4];
  }

  lemma FundedDelivery(w: World, time: nat, msg: Msg)
    requires msg.SendToXrpl? && Attach(w.bank, msg.funds).Ok?
    requires var r := Execute(Env(CHAIN, time, Attach(w.bank, msg.funds).value), w.state, msg);
             r.Ok? && r.value.msgs == []
    ensures var w' := Next(CHAIN, w, Message(time, msg));
            && w'.state == Execute(Env(CHAIN, time, Attach(w.bank, msg.funds).value), w.state, msg).value.state
            && w'.bank == Attach(w.bank, msg.funds).value && w'.ledger == w.ledger
  {
    hide Execute, Attach;
  }

  lemma Sending(w: World, refunds: map<RefundKey, PendingRefund>, held: nat)
    requires Here(w, [2, 3, 4], map[], false, {"A"}, true, refunds, held) && held <= 10
    ensures Here(Next(CHAIN, w, SEND), [3, 4], map[2 := SENT], false, {"A"}, true, refunds, held + 10)
  {
    hide DecideTransfer, DoSendToXrpl, Attach, Next;
    Attaching(w.bank);
    var env := Env(CHAIN, 5, Attach(w.bank, [Coin("uatom", 10)]).value);
    Decided(env, w.state);
    Queued(env, w.state);
    FundedDelivery(w, 5, SEND.msg);
  }

  lemma Locked(s: State)
    requires s.cosmosTokens == map["uatom" := TOKEN] && s.cosmosTokenByCurrency == map["ATM" := "uatom"]
    requires forall k :: k in s.xrplTokens <==> k == XRP_KEY
    ensures LockedCoin(s, TRANSFER) == Ok(Coin("uatom", 10))
  {
    assert |BuildXrplTokenKey(BRIDGE, "ATM")| == 32 && |XRP_KEY| == 30;
  }

  lemma Cancelling(w: World, refunds: map<RefundKey, PendingRefund>, held: nat)
    requires Here(w, [3, 4], map[2 := SENT], false, {"A"}, true, refunds, held)
    ensures Here(Next(CHAIN, w, CANCEL), [2, 3, 4], map[], false, {"A"}, true, refunds[KEY := REFUND], held)
    ensures Next(CHAIN, w, CANCEL).bank == w.bank
  {
    hide Next, LockedCoin;
    Locked(w.state);
    assert map[2 := SENT] - {2} == map[];
    assert [2] + [3, 4] == [2, 3, 4];
    QuietDelivery(w, 5, CANCEL.msg);
  }

  lemma StageStep(w: World, i: nat)
    requires i < 7 && Stage(w, i)
    ensures Stage(Next(CHAIN, w, LOSING[i]), i + 1)
  {
    hide Next, Here;
    match i
    case 0 => First(w);
    case 1 => Second(w);
    case 2 => Third(w);
    case 3 => Sending(w, map[], 0);
    case 4 => Cancelling(w, map[], 10);
    case 5 => Sending(w, map[KEY := REFUND], 10);
    case 6 =>
      Cancelling(w, map[KEY := REFUND], 20);
      assert map[KEY := REFUND][KEY := REFUND] == map[KEY := REFUND];
  }

  lemma StageIsTruthful(w: World, i: nat)
    requires i < 7 && Stage(w, i)
    ensures TruthfulTickets(CHAIN, w, LOSING[i]) && Ledgers.TruthfulWorld(CHAIN, w, LOSING[i])
  {
    hide Execute, EnvOf, HandleEvidence;
  }

  lemma {:induction false} Stages(ws: seq<World>, i: nat)
    requires |ws| == 8 && Stage(ws[0], 0) && i < 8
    requires forall j | 0 <= j < 7 :: ws[j + 1] == Next(CHAIN, ws[j], LOSING[j])
    ensures Stage(ws[i], i)
  {
    hide Next, Stage;
    if i > 0 {
      Stages(ws, i - 1);
      StageStep(ws[i - 1], i - 1);
      assert ws[i - 1 + 1] == Next(CHAIN, ws[i - 1], LOSING[i - 1]);
    }
  }

  lemma Begun()
    ensures Start(CHAIN, SUPPLIED).Ok? && Stage(Start(CHAIN, SUPPLIED).value, 0) && Lawful(CHAIN)
            && BankSound(SUPPLIED.bank)
  {
    hide ValidateRelayers, ValidateXrplAmount, Lawful;
    InstantiationSucceeds(2);
    assert SETUP.(ticketThreshold := 2) == SETUP;
    assert [CreateDenom("xrp")][1..] == [];
  }

  // ---------- the loss ----------

  /** Without any payment, what the contract owes falls, though two sends of ten have been cancelled and
      only one refund of ten is pending. */
  ghost predicate LosesRefund(w: World, w': World) {
    && HeldOf(w.bank, "uatom") == 20 && w'.bank == w.bank
    && w.state.pendingRefunds == map[KEY := REFUND] && IsTransfer(w.state.pendingOperations, 2)
    && w'.state.pendingRefunds == map[KEY := REFUND] && w'.state.pendingOperations == map[]
    && Owed(w'.state, w'.ledger, "uatom") == Owed(w.state, w.ledger, "uatom") - 10
  }

  lemma Losing(w: World)
    requires Stage(w, 6) && Sound(w.state) && LedgerSound(w.state, w.ledger)
    ensures LosesRefund(w, Next(CHAIN, w, CANCEL))
  {
    hide Next, Sound, LedgerSound, Owed, HandleOperation, Inflows, AllIssued, LockedCoin;
    Cancelling(w, map[KEY := REFUND], 20);
    var s := w.state;
    CancelledClose(w);
    TransferCloseMoney("", s, w.ledger, SENT, None, Invalid, None, 2, Some(2), "uatom");
    TransferOutcome(s, SENT, None, Invalid, None, 2, Some(2));
    NothingFlows("", "uatom");
    assert w.ledger.settled - {2} == w.ledger.settled;
  }

  lemma CancelledClose(w: World)
    requires Stage(w, 6)
    ensures 2 in w.state.pendingOperations && w.state.pendingOperations[2] == SENT
    ensures var r := HandleOperation(w.state, SENT, None, Invalid, None, 2, Some(2));
            && r.Ok? && Next(CHAIN, w, CANCEL).state == r.value.state && Next(CHAIN, w, CANCEL).ledger == w.ledger
  {
    hide LockedCoin;
    Locked(w.state);
    QuietDelivery(w, 5, CANCEL.msg);
  }

  ghost predicate RunLosesRefund(ws: seq<World>) {
    && IsRun(CHAIN, SUPPLIED, ws, LOSING)
    && (forall j | 0 <= j < |LOSING| :: TruthfulTickets(CHAIN, ws[j], LOSING[j]))
    && (forall j | 0 <= j < |LOSING| :: Ledgers.TruthfulWorld(CHAIN, ws[j], LOSING[j]))
    && LosesRefund(ws[6], ws[7])
  }

  /** A truthful run in which a positive refund is lost. */
  lemma LosingRun()
    ensures exists ws: seq<World> :: RunLosesRefund(ws)
  {
    hide Next, Start, Stage, RunLosesRefund, Worlds, Lawful, BankSound;
    Begun();
    var ws := Worlds(Start(CHAIN, SUPPLIED).value, LOSING);
    StagesLose(ws);
  }

  lemma StagesLose(ws: seq<World>)
    requires |ws| == 8 && Lawful(CHAIN) && BankSound(SUPPLIED.bank) && Start(CHAIN, SUPPLIED) == Ok(ws[0])
             && Stage(ws[0], 0)
    requires forall j | 0 <= j < 7 :: ws[j + 1] == Next(CHAIN, ws[j], LOSING[j])
    ensures RunLosesRefund(ws)
  {
    hide Next, Start, Stage, TruthfulTickets, Lawful, Ledgers.TruthfulWorld, LosesRefund, BankSound, Ledgers.Solvent;
    assert |LOSING| == 7;
    forall j | 0 <= j < 7
      ensures TruthfulTickets(CHAIN, ws[j], LOSING[j]) && Ledgers.TruthfulWorld(CHAIN, ws[j], LOSING[j])
    {
      Stages(ws, j);
      StageIsTruthful(ws[j], j);
    }
    Stages(ws, 6);
    Ledgers.SolvencyOverRuns(CHAIN, SUPPLIED, ws, LOSING, 6);
    SolventBooks(ws[6]);
    Losing(ws[6]);
    assert ws[6 + 1] == Next(CHAIN, ws[6], LOSING[6]);
  }

  lemma SolventBooks(w: World)
    requires Ledgers.Solvent(w)
    ensures Sound(w.state) && LedgerSound(w.state, w.ledger)
  {
  }
}
