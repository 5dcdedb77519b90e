/** Theorems about whole runs, II: solvency, the peg, the holding limit and resolvability. */
module Ledgers {
  import opened Types
  import Amounts
  import Operations
  import opened Tokens
  import opened Relayers
  import opened Evidences
  import opened Pending
  import opened Handlers
  import opened Sums
  import opened FeeBook
  import opened TokenTables
  import opened Soundness
  import opened TicketFlow
  import opened Votes
  import opened Banking
  import opened Escrow
  import opened Solvency
  import opened Peg
  import opened Holding
  import opened Resolvability
  import opened World
  import opened Runs
  import Transitions
  import Lifecycle

  /** The environment's side of the bargain, for every message of a run that the contract accepts. */
  predicate TruthfulWorld(chain: Chain, w: World, a: Action) {
    IsAccepted(chain, w, a) ==>
      MoneyHypothesis(EnvOf(chain, w, a.time, a.msg).value, w.state, w.ledger, a.msg)
  }

  // ---------- solvency ----------

  /** The contract's balance of every denom covers everything it owes in it. */
  ghost predicate Covered(w: World) {
    forall d :: Owed(w.state, w.ledger, d) <= HeldOf(w.bank, d)
  }

  ghost predicate Solvent(w: World) {
    Sound(w.state) && LedgerSound(w.state, w.ledger) && BankSound(w.bank) && Covered(w)
  }

  /** A message's payments are covered, and what it leaves owed is covered too. */
  lemma MessageIsCovered(chain: Chain, w: World, time: nat, msg: Msg, d: string)
    requires Lawful(chain) && Solvent(w) && EnvOf(chain, w, time, msg).Ok?
    requires var env := EnvOf(chain, w, time, msg).value;
             MoneyHypothesis(env, w.state, w.ledger, msg) && Execute(env, w.state, msg).Ok?
    ensures var env := EnvOf(chain, w, time, msg).value;
            var o := Execute(env, w.state, msg).value;
            && 0 <= Owed(o.state, LedgerAfter(env, w.state, w.ledger, msg), d)
              <= HeldOf(env.bank, d) + Inflows(chain.contract, o.msgs, d)
            && LedgerSound(o.state, LedgerAfter(env, w.state, w.ledger, msg))
            && BankSound(env.bank)
            && (PaymentShape(o.msgs) || msg.RegisterXrplToken?)
  {
    hide Sound, LedgerSound, Owed, Execute, MoneyHypothesis, LedgerAfter, EnvOf, Inflows, Lawful, BankSound,
      PaymentShape, Attached;
    EnvMeans(chain, w, time, msg, d);
    var env := EnvOf(chain, w, time, msg).value;
    MoneyStep(env, w.state, w.ledger, msg, d);
    OwedIsNonNegative(Execute(env, w.state, msg).value.state, LedgerAfter(env, w.state, w.ledger, msg), d);
    assert Owed(w.state, w.ledger, d) <= HeldOf(w.bank, d);
  }

  lemma AcceptedMeans(chain: Chain, w: World, time: nat, msg: Msg)
    requires TruthfulWorld(chain, w, Message(time, msg)) && EnvOf(chain, w, time, msg).Ok?
    requires Execute(EnvOf(chain, w, time, msg).value, w.state, msg).Ok?
    ensures MoneyHypothesis(EnvOf(chain, w, time, msg).value, w.state, w.ledger, msg)
  {
    hide Execute, EnvOf, MoneyHypothesis;
  }

  /** The bank never refuses a payment: in a solvent world every message the contract accepts goes
      through, but for the creation of a denom that already exists. */
  lemma PaymentsSucceed(chain: Chain, w: World, time: nat, msg: Msg)
    requires Lawful(chain) && Solvent(w) && EnvOf(chain, w, time, msg).Ok? && !msg.RegisterXrplToken?
    requires TruthfulWorld(chain, w, Message(time, msg))
    ensures Deliver(chain, w, time, msg).Ok? <==> Execute(EnvOf(chain, w, time, msg).value, w.state, msg).Ok?
  {
    hide Solvent, Execute, MoneyHypothesis, LedgerAfter, EnvOf, Lawful, PaymentShape, LedgerSound, Owed, ApplyAll,
      BankSound, Inflows, TruthfulWorld;
    var env := EnvOf(chain, w, time, msg).value;
    if Execute(env, w.state, msg).Ok? {
      var o := Execute(env, w.state, msg).value;
      AcceptedMeans(chain, w, time, msg);
      forall d ensures HeldOf(env.bank, d) + Inflows(chain.contract, o.msgs, d) >= 0 {
        MessageIsCovered(chain, w, time, msg, d);
      }
      MessageIsCovered(chain, w, time, msg, "");
      CoveredPaymentsSucceed(chain.contract, env.bank, o.msgs);
    }
  }

  lemma DeliverBooks(chain: Chain, w: World, time: nat, msg: Msg)
    requires Deliver(chain, w, time, msg).Ok?
    ensures EnvOf(chain, w, time, msg).Ok?
    ensures var env := EnvOf(chain, w, time, msg).value;
            var w' := Deliver(chain, w, time, msg).value;
            && Execute(env, w.state, msg).Ok?
            && w'.state == Execute(env, w.state, msg).value.state
            && w'.ledger == LedgerAfter(env, w.state, w.ledger, msg)
            && ApplyAll(chain.contract, env.bank, Execute(env, w.state, msg).value.msgs) == Ok(w'.bank)
  {
    hide Execute, ApplyAll, EnvOf, LedgerAfter;
  }

  lemma MessageStaysSolvent(chain: Chain, w: World, time: nat, msg: Msg)
    requires Lawful(chain) && Solvent(w) && Deliver(chain, w, time, msg).Ok?
    requires TruthfulWorld(chain, w, Message(time, msg))
    ensures Solvent(Deliver(chain, w, time, msg).value)
  {
    hide Sound, LedgerSound, Owed, Execute, MoneyHypothesis, LedgerAfter, EnvOf, Inflows, Lawful, PaymentShape,
      Deliver, ApplyAll, TablesExtend, AllIssued, TruthfulWorld;
    DeliverBooks(chain, w, time, msg);
    AcceptedMeans(chain, w, time, msg);
    var env := EnvOf(chain, w, time, msg).value;
    var w' := Deliver(chain, w, time, msg).value;
    DeliverMeans(chain, w, time, msg);
    SoundStep(env, w.state, msg);
    forall d
      ensures Owed(w'.state, w'.ledger, d) <= HeldOf(w'.bank, d)
      ensures HeldOf(w'.bank, d) <= SupplyOf(w'.bank, d)
    {
      MessageIsCovered(chain, w, time, msg, d);
      assert HeldOf(env.bank, d) <= SupplyOf(env.bank, d);
      ApplyAllMeans(chain.contract, env.bank, Execute(env, w.state, msg).value.msgs, d);
    }
    MessageIsCovered(chain, w, time, msg, "");
  }

  lemma SettleStaysSolvent(chain: Chain, w: World, id: Sequence, spent: nat)
    requires Solvent(w) && CanSettle(w.state, w.ledger, id, spent)
    ensures Solvent(w.(ledger := Settled(w.state, w.ledger, id, spent)))
  {
    hide Sound, LedgerSound, Owed, EscrowSound, Operations.LockedCoin, Settled, BankSound;
    forall d ensures Owed(w.state, Settled(w.state, w.ledger, id, spent), d) <= HeldOf(w.bank, d) {
      SettleOwes(w.state, w.ledger, id, spent, d);
      assert Owed(w.state, w.ledger, d) <= HeldOf(w.bank, d);
    }
    SettleOwes(w.state, w.ledger, id, spent, "");
  }

  lemma ArriveStaysSolvent(chain: Chain, w: World, hash: string, a: Arrival)
    requires Solvent(w) && CanArrive(chain, w.state, w.ledger, hash, a)
    ensures Solvent(w.(ledger := Arrived(chain, w.state, w.ledger, hash, a)))
  {
    hide Sound, LedgerSound, Owed, CanArrive, Arrived, BankSound;
    forall d ensures Owed(w.state, Arrived(chain, w.state, w.ledger, hash, a), d) <= HeldOf(w.bank, d) {
      ArriveOwes(chain, w.state, w.ledger, hash, a, d);
      assert Owed(w.state, w.ledger, d) <= HeldOf(w.bank, d);
    }
    ArriveOwes(chain, w.state, w.ledger, hash, a, "");
  }

  lemma OtherStaysSolvent(chain: Chain, w: World, a: Action)
    requires Solvent(w) && (a.Deposit? || a.Issue? || a.PayLedgerFee?)
    ensures Solvent(Next(chain, w, a))
  {
    hide Sound, Owed, Deliver, CanSettle, Settled, CanArrive, Arrived;
    var w' := Next(chain, w, a);
    forall d
      ensures Owed(w'.state, w'.ledger, d) <= HeldOf(w'.bank, d)
      ensures HeldOf(w'.bank, d) <= SupplyOf(w'.bank, d)
    {
      VaultOwesNothing(w.state, w.ledger, w'.ledger, d);
      assert Owed(w.state, w.ledger, d) <= HeldOf(w.bank, d) <= SupplyOf(w.bank, d);
    }
  }

  lemma VaultOwesNothing(s: State, l: Ledger, l': Ledger, d: string)
    requires l'.settled == l.settled && l'.outstanding == l.outstanding && l'.arrivals == l.arrivals
    ensures Owed(s, l', d) == Owed(s, l, d)
  {
    hide Total, FeesOwed, RefundsIn, LocksIn, ReturnsIn, Amounts.ToCosmosUnits;
    SettledDecides(s, l, l', d);
    ArrivalsDecide(s, l, l', d);
  }

  lemma NextStaysSolvent(chain: Chain, w: World, a: Action)
    requires Lawful(chain) && Solvent(w) && TruthfulWorld(chain, w, a)
    ensures Solvent(Next(chain, w, a))
  {
    hide Solvent, Deliver, CanSettle, Settled, CanArrive, Arrived, TruthfulWorld, Lawful;
    match a
    case Message(time, msg) =>
      if Deliver(chain, w, time, msg).Ok? { MessageStaysSolvent(chain, w, time, msg); }
    case Settle(id, spent) =>
      if CanSettle(w.state, w.ledger, id, spent) { SettleStaysSolvent(chain, w, id, spent); }
    case Arrive(hash, arrival) =>
      if CanArrive(chain, w.state, w.ledger, hash, arrival) { ArriveStaysSolvent(chain, w, hash, arrival); }
    case _ =>
      OtherStaysSolvent(chain, w, a);
  }

  lemma StartIsSolvent(chain: Chain, u: Setup)
    requires Lawful(chain) && BankSound(u.bank) && Start(chain, u).Ok?
    ensures Solvent(Start(chain, u).value)
  {
    hide Sound, Start, Lawful, Total, ApplyAll;
    StartIsSound(chain, u);
    var w := Start(chain, u).value;
    StartBooks(chain, u);
    forall d
      ensures Owed(w.state, w.ledger, d) <= HeldOf(w.bank, d)
      ensures HeldOf(w.bank, d) <= SupplyOf(w.bank, d)
    {
      NothingOwed(w.state, w.ledger, d);
      assert HeldOf(u.bank, d) <= SupplyOf(u.bank, d);
      ApplyAllMeans(chain.contract, u.bank, [CreateDenom(u.xrpDenom)], d);
      NewDenomFlows(chain.contract, u.xrpDenom, d);
    }
  }

  lemma StartBooks(chain: Chain, u: Setup)
    requires Start(chain, u).Ok?
    ensures var w := Start(chain, u).value;
            && w.ledger == Ledger({}, map[], u.vault, map[])
            && ApplyAll(chain.contract, u.bank, [CreateDenom(u.xrpDenom)]) == Ok(w.bank)
            && w.state.xrplTokens.Keys == {XRP_KEY} && w.state.xrplTokens[XRP_KEY].cosmosDenom == u.xrpDenom
            && w.state.cosmosTokens == map[]
  {
    hide ApplyAll, Amounts.ValidateXrplAmount, ValidateRelayers;
  }

  lemma NothingOwed(s: State, l: Ledger, d: string)
    requires s.pendingOperations == map[] && s.pendingRefunds == map[] && s.feesCollected == map[]
             && s.feeRemainders == map[]
    requires s.cosmosTokens == map[]
    ensures Owed(s, l, d) == 0
  {
    assert ReturnsIn(s, l, d) == map[];
    assert LocksIn(s, l, d) == map[] && RefundsIn(s, d) == map[] && Uncollected(s.feesCollected, d) == map[];
    EmptyTotals();
  }

  lemma EmptyTotals()
    ensures Total<Sequence>(map[]) == 0 && Total<RefundKey>(map[]) == 0 && Total<string>(map[]) == 0
  {
  }

  /** Solvency over every run: the contract's balance of every denom, wrapped or escrowed, covers the
      locks of pending transfers, the pending refunds, all relayers' fees, the fee remainder, and
      everything outstanding on the ledger in the token's own decimals. */
  lemma {:induction false} SolvencyOverRuns(chain: Chain, u: Setup, ws: seq<World>, acts: seq<Action>, i: nat)
    requires IsRun(chain, u, ws, acts) && i < |ws|
    requires forall j | 0 <= j < |acts| :: TruthfulWorld(chain, ws[j], acts[j])
    ensures Solvent(ws[i])
  {
    hide Solvent, Start, Next, Lawful, TruthfulWorld;
    if i == 0 {
      StartIsSolvent(chain, u);
    } else {
      SolvencyOverRuns(chain, u, ws, acts, i - 1);
      assert ws[i - 1 + 1] == Next(chain, ws[i - 1], acts[i - 1]);
      NextStaysSolvent(chain, ws[i - 1], acts[i - 1]);
    }
  }

  /** So no refund, claim or return payment ever lacks funds. */
  lemma NoPaymentLacksFunds(chain: Chain, u: Setup, ws: seq<World>, acts: seq<Action>, i: nat)
    requires IsRun(chain, u, ws, acts) && i < |acts| && acts[i].Message? && !acts[i].msg.RegisterXrplToken?
    requires forall j | 0 <= j < |acts| :: TruthfulWorld(chain, ws[j], acts[j])
    requires EnvOf(chain, ws[i], acts[i].time, acts[i].msg).Ok?
    ensures Deliver(chain, ws[i], acts[i].time, acts[i].msg).Ok? <==>
              Execute(EnvOf(chain, ws[i], acts[i].time, acts[i].msg).value, ws[i].state, acts[i].msg).Ok?
  {
    hide Solvent, Start, Next, Lawful, Deliver, Execute, EnvOf, MoneyHypothesis;
    SolvencyOverRuns(chain, u, ws, acts, i);
    PaymentsSucceed(chain, ws[i], acts[i].time, acts[i].msg);
  }

  // ---------- the peg ----------

  /** The wrapped supply of an issued token, and everything still to be minted for arrivals, is backed;
      so are the arrivals of a token not yet registered. */
  ghost predicate PeggedAt(w: World, key: string) {
    if key in w.state.xrplTokens then
      SupplyOf(w.bank, w.state.xrplTokens[key].cosmosDenom) <= Free(w.state, w.ledger, key)
    else Total(MintsIn(w.state, w.ledger, key)) <= GetOr(w.ledger.vault, key, 0)
  }

  ghost predicate Pegged(w: World) {
    forall key | key != XRP_KEY :: PeggedAt(w, key)
  }

  /** A token a message registers has a denom of no supply. */
  lemma NewTokenHasNoSupply(chain: Chain, w: World, time: nat, msg: Msg, key: string)
    requires Sound(w.state) && Deliver(chain, w, time, msg).Ok?
    requires key in Deliver(chain, w, time, msg).value.state.xrplTokens && key !in w.state.xrplTokens
    ensures var w' := Deliver(chain, w, time, msg).value;
            SupplyOf(w'.bank, w'.state.xrplTokens[key].cosmosDenom) == 0
  {
    hide Sound, Execute, EnvOf, Deliver, ApplyAll, LedgerAfter;
    DeliverBooks(chain, w, time, msg);
    var env := EnvOf(chain, w, time, msg).value;
    SoundLifecycle(w.state);
    Transitions.TokenStateStep(env, w.state, msg);
    RegisteredDenom(env, w.state, msg, key);
    CreatedDenomIsEmpty(chain.contract, env.bank, msg.derivedDenom);
  }

  lemma SoundLifecycle(s: State)
    requires Sound(s)
    ensures Lifecycle.LifecycleAgrees(s.pendingOperations, s.xrplTokens)
  {
  }

  lemma RegisteredDenom(env: Env, s: State, msg: Msg, key: string)
    requires msg.RegisterXrplToken? && Execute(env, s, msg).Ok?
    requires key in Execute(env, s, msg).value.state.xrplTokens && key !in s.xrplTokens
    ensures Execute(env, s, msg).value.msgs == [CreateDenom(msg.derivedDenom)]
    ensures Execute(env, s, msg).value.state.xrplTokens[key].cosmosDenom == msg.derivedDenom
  {
    hide DoRegisterXrplToken, KeepsConfig, KeepsFees, Opens;
    Transitions.RegisterTable(env, s, msg.sender, msg.issuer, msg.currency, msg.precision, msg.maxHolding, msg.fee,
                              msg.derivedDenom);
    OpeningFrame(env, s, msg);
  }

  lemma CreatedDenomIsEmpty(contract: Addr, bank: Bank, d: string)
    requires ApplyAll(contract, bank, [CreateDenom(d)]).Ok?
    ensures SupplyOf(ApplyAll(contract, bank, [CreateDenom(d)]).value, d) == 0
  {
    assert [CreateDenom(d)][1..] == [];
  }

  /** An unregistered token is left alone, but for arrivals that are forgone. */
  lemma UnregisteredPeg(chain: Chain, w: World, time: nat, msg: Msg, key: string)
    requires Lawful(chain) && Sound(w.state) && Deliver(chain, w, time, msg).Ok?
    ensures var w' := Deliver(chain, w, time, msg).value;
            && w'.ledger.vault == w.ledger.vault
            && Total(MintsIn(w'.state, w'.ledger, key)) <= Total(MintsIn(w.state, w.ledger, key))
  {
    hide Sound, Execute, EnvOf, Deliver, ApplyAll, TablesExtend, Lawful, Total, MintsIn, EffectiveHash, IsRelayer,
      TallyMoves, AwaitedMint, HandleEvidence, TakesEffect;
    DeliverBooks(chain, w, time, msg);
    DeliverMeans(chain, w, time, msg);
    var env := EnvOf(chain, w, time, msg).value;
    var w' := Deliver(chain, w, time, msg).value;
    SoundStep(env, w.state, msg);
    SameBooks(w.state, w'.state);
    VoteStep(env, w.state, msg);
    MintReported(w.state, w'.state, w.ledger, EffectiveHash(env, w.state, msg), key);
    MintsKept(w'.state, w'.state, w.ledger, w'.ledger, key);
  }

  lemma MessageKeepsPeg(chain: Chain, w: World, time: nat, msg: Msg, key: string)
    requires Lawful(chain) && Solvent(w) && PeggedAt(w, key) && Deliver(chain, w, time, msg).Ok?
    requires TruthfulWorld(chain, w, Message(time, msg))
    ensures PeggedAt(Deliver(chain, w, time, msg).value, key)
  {
    hide Sound, LedgerSound, Covered, Execute, MoneyHypothesis, LedgerAfter, EnvOf, Lawful, Deliver, ApplyAll, Backing,
      AllIssued, BankSound, TruthfulWorld, Free, MintsIn, Total, Forgone;
    DeliverBooks(chain, w, time, msg);
    DeliverMeans(chain, w, time, msg);
    AcceptedMeans(chain, w, time, msg);
    var env := EnvOf(chain, w, time, msg).value;
    var w' := Deliver(chain, w, time, msg).value;
    if key in w.state.xrplTokens {
      SoundStep(env, w.state, msg);
      var denom := w.state.xrplTokens[key].cosmosDenom;
      EnvMeans(chain, w, time, msg, denom);
      PegStep(env, w.state, w.ledger, msg, key);
      ApplyAllMeans(chain.contract, env.bank, Execute(env, w.state, msg).value.msgs, denom);
    } else {
      UnregisteredPeg(chain, w, time, msg, key);
      if key in w'.state.xrplTokens {
        NewTokenHasNoSupply(chain, w, time, msg, key);
        FreeAtLeast(w'.state, w'.ledger, key);
      }
    }
  }

  lemma FreeAtLeast(s: State, l: Ledger, key: string)
    ensures Free(s, l, key) >= GetOr(l.vault, key, 0) - Total(MintsIn(s, l, key))
  {
    hide Total, BurnsIn, MintsIn;
    BackingIsNonNegative(s, l, key);
  }

  lemma OtherKeepsPeg(chain: Chain, w: World, a: Action, key: string)
    requires Solvent(w) && PeggedAt(w, key) && key != XRP_KEY && !a.Message?
    ensures PeggedAt(Next(chain, w, a), key)
  {
    hide Deliver, Covered, Total, BurnsIn, MintsIn, LedgerSound, BankSound, TablesSound, Sound, EscrowSound,
      Operations.LockedCoin, CanArrive, Arrived, Settled;
    var w' := Next(chain, w, a);
    match a
    case Settle(id, spent) =>
      if CanSettle(w.state, w.ledger, id, spent) {
        SettleBacks(w.state, w.ledger, id, spent, key);
        SettleVault(w.state, w.ledger, id, spent, key);
        MintsKept(w.state, w.state, w.ledger, w'.ledger, key);
      }
    case PayLedgerFee(_) =>
      SettledDecidesBurns(w.state, w.ledger, w'.ledger, key);
      MintsKept(w.state, w.state, w.ledger, w'.ledger, key);
    case Issue(d, _) =>
      SoundTables(w.state);
      if key in w.state.xrplTokens { WrappedIsIndexed(w.state, key); }
    case Arrive(hash, arrival) =>
      if CanArrive(chain, w.state, w.ledger, hash, arrival) {
        ArriveBacks(chain, w.state, w.ledger, hash, arrival, key);
      }
    case Deposit(_, _) =>
  }

  /** Executing a transfer spends only registered tokens, and its books keep every arrival. */
  lemma SettleVault(s: State, l: Ledger, id: Sequence, spent: nat, key: string)
    requires Sound(s) && CanSettle(s, l, id, spent)
    ensures Settled(s, l, id, spent).arrivals == l.arrivals
    ensures key !in s.xrplTokens ==> GetOr(Settled(s, l, id, spent).vault, key, 0) == GetOr(l.vault, key, 0)
  {
    hide Sound, Operations.LockedCoin, TransferSound;
    LockIsDefined(s, id);
    var t := s.pendingOperations[id].operationType;
    if BuildXrplTokenKey(t.issuer, t.currency) !in s.xrplTokens { EscrowWhenNotXrpl(s, t); }
  }

  lemma WrappedIsIndexed(s: State, key: string)
    requires TablesSound(s) && key in s.xrplTokens
    ensures s.xrplTokens[key].cosmosDenom in s.xrplTokenByDenom
  {
    assert XrplEntrySound(s, key);
  }

  lemma NextKeepsPeg(chain: Chain, w: World, a: Action)
    requires Lawful(chain) && Solvent(w) && Pegged(w) && TruthfulWorld(chain, w, a)
    ensures Pegged(Next(chain, w, a))
  {
    hide Solvent, PeggedAt, Deliver, CanSettle, Settled, CanArrive, Arrived, TruthfulWorld, Lawful;
    forall key | key != XRP_KEY ensures PeggedAt(Next(chain, w, a), key) {
      if !a.Message? {
        OtherKeepsPeg(chain, w, a, key);
      } else if Deliver(chain, w, a.time, a.msg).Ok? {
        MessageKeepsPeg(chain, w, a.time, a.msg, key);
      }
    }
  }

  lemma {:induction false} PegInvariant(chain: Chain, u: Setup, ws: seq<World>, acts: seq<Action>, i: nat)
    requires IsRun(chain, u, ws, acts) && i < |ws|
    requires forall j | 0 <= j < |acts| :: TruthfulWorld(chain, ws[j], acts[j])
    ensures Pegged(ws[i])
  {
    hide Solvent, Start, Next, Lawful, TruthfulWorld, Free;
    if i == 0 {
      StartBooks(chain, u);
      forall key | key != XRP_KEY ensures PeggedAt(ws[0], key) {
        assert MintsIn(ws[0].state, ws[0].ledger, key) == map[];
        EmptyTotals();
      }
    } else {
      PegInvariant(chain, u, ws, acts, i - 1);
      SolvencyOverRuns(chain, u, ws, acts, i - 1);
      assert ws[i - 1 + 1] == Next(chain, ws[i - 1], acts[i - 1]);
      NextKeepsPeg(chain, ws[i - 1], acts[i - 1]);
    }
  }

  /** The peg over every run: for every issued token except XRP the wrapped supply, together with every
      arrival whose report has not taken effect, never exceeds what the bridge account holds on the
      ledger and the coins the contract still has to burn; whenever every executed transfer has been
      reported, it never exceeds the holdings alone. */
  lemma PegOverRuns(chain: Chain, u: Setup, ws: seq<World>, acts: seq<Action>, i: nat, key: string)
    requires IsRun(chain, u, ws, acts) && i < |ws|
    requires forall j | 0 <= j < |acts| :: TruthfulWorld(chain, ws[j], acts[j])
    requires key in ws[i].state.xrplTokens && key != XRP_KEY
    ensures var w := ws[i];
            var minted := SupplyOf(w.bank, w.state.xrplTokens[key].cosmosDenom)
                          + Total(MintsIn(w.state, w.ledger, key));
            && minted <= Backing(w.state, w.ledger, key)
            && (w.ledger.settled == {} ==> minted <= GetOr(w.ledger.vault, key, 0))
  {
    hide Start, Next, Lawful, TruthfulWorld, Operations.LockedCoin, MintsIn;
    PegInvariant(chain, u, ws, acts, i);
    assert PeggedAt(ws[i], key);
    if ws[i].ledger.settled == {} {
      assert BurnsIn(ws[i].state, ws[i].ledger, key) == map[];
      EmptyTotals();
    }
  }

  // ---------- the holding limit ----------

  /** The wrapped supply of every token is within its holding limit. */
  ghost predicate WithinLimits(w: World) {
    forall key | key in w.state.xrplTokens ::
      SupplyOf(w.bank, w.state.xrplTokens[key].cosmosDenom) <= w.state.xrplTokens[key].maxHoldingAmount
  }

  lemma MessageKeepsLimits(chain: Chain, w: World, time: nat, msg: Msg)
    requires Sound(w.state) && WithinLimits(w) && Deliver(chain, w, time, msg).Ok?
    ensures WithinLimits(Deliver(chain, w, time, msg).value)
  {
    hide Sound, Execute, LedgerAfter, EnvOf, Deliver, ApplyAll, AllIssued, BankSound;
    DeliverBooks(chain, w, time, msg);
    var env := EnvOf(chain, w, time, msg).value;
    var w' := Deliver(chain, w, time, msg).value;
    forall key | key in w'.state.xrplTokens
      ensures SupplyOf(w'.bank, w'.state.xrplTokens[key].cosmosDenom) <= w'.state.xrplTokens[key].maxHoldingAmount
    {
      if key in w.state.xrplTokens {
        var denom := w.state.xrplTokens[key].cosmosDenom;
        EnvMeans(chain, w, time, msg, denom);
        LimitStep(env, w.state, msg, key);
        ApplyAllMeans(chain.contract, env.bank, Execute(env, w.state, msg).value.msgs, denom);
      } else {
        NewTokenHasNoSupply(chain, w, time, msg, key);
      }
    }
  }

  lemma NextKeepsLimits(chain: Chain, w: World, a: Action)
    requires Sound(w.state) && WithinLimits(w)
    ensures WithinLimits(Next(chain, w, a))
  {
    hide Sound, Deliver, CanSettle, Settled, CanArrive, Arrived;
    if a.Message? {
      if Deliver(chain, w, a.time, a.msg).Ok? { MessageKeepsLimits(chain, w, a.time, a.msg); }
    } else {
      forall key | key in w.state.xrplTokens ensures w.state.xrplTokens[key].cosmosDenom in w.state.xrplTokenByDenom {
        SoundTables(w.state);
        WrappedIsIndexed(w.state, key);
      }
    }
  }

  /** Over every run, whatever is reported and however the owner updates the token, the wrapped
      supply never exceeds the holding limit. */
  lemma {:induction false} HoldingLimitOverRuns(chain: Chain, u: Setup, ws: seq<World>, acts: seq<Action>, i: nat)
    requires IsRun(chain, u, ws, acts) && i < |ws|
    ensures WithinLimits(ws[i])
  {
    hide Sound, Start, Next, Lawful, ApplyAll;
    if i == 0 {
      StartBooks(chain, u);
      CreatedDenomIsEmpty(chain.contract, u.bank, u.xrpDenom);
    } else {
      HoldingLimitOverRuns(chain, u, ws, acts, i - 1);
      SoundnessOverRuns(chain, u, ws, acts, i - 1);
      assert ws[i - 1 + 1] == Next(chain, ws[i - 1], acts[i - 1]);
      NextKeepsLimits(chain, ws[i - 1], acts[i - 1]);
    }
  }

  // ---------- resolvability ----------

  /** In every reachable world, halted or not, a relayer's vote for a well-formed, truthful result of
      any pending operation goes through, bank messages included: exactly unless it reaches the
      threshold with the 32-bit used-ticket counter exhausted. */
  lemma ResolvableOverRuns(chain: Chain, u: Setup, ws: seq<World>, acts: seq<Action>, i: nat, time: nat, sender: Addr,
                           ev: Evidence)
    requires IsRun(chain, u, ws, acts) && i < |ws|
    requires forall j | 0 <= j < |acts| :: TruthfulWorld(chain, ws[j], acts[j])
    requires forall j | 0 <= j < |acts| :: TruthfulTickets(chain, ws[j], acts[j])
    requires WellFormedResult(ws[i].state, ev) && IsRelayer(ws[i].state.config.relayers, sender)
    requires HandleEvidence(chain, ws[i].state, sender, ev).Ok?
    requires TruthfulMoney(chain, ws[i].state, ws[i].ledger, ev)
    ensures Deliver(chain, ws[i], time, SaveEvidence(sender, ev)).Ok? <==>
              !(TakesEffect(Env(chain, time, ws[i].bank), ws[i].state, SaveEvidence(sender, ev))
                && CounterExhausted(ws[i].state, ev))
  {
    hide Solvent, Sound, Start, Next, Lawful, Deliver, DoSaveEvidence, HandleEvidence, WellFormedResult, TicketsSound,
      TruthfulMoney, TruthfulTickets, TruthfulWorld, CounterExhausted, IsRelayer;
    var env := Env(chain, time, ws[i].bank);
    SolvencyOverRuns(chain, u, ws, acts, i);
    SoundnessOverRuns(chain, u, ws, acts, i);
    TicketsOverRuns(chain, u, ws, acts, i);
    ResultIsAccepted(env, ws[i].state, sender, ev);
    TruthfulVote(chain, ws[i], time, sender, ev);
    PaymentsSucceed(chain, ws[i], time, SaveEvidence(sender, ev));
  }

  lemma TruthfulVote(chain: Chain, w: World, time: nat, sender: Addr, ev: Evidence)
    requires TruthfulMoney(chain, w.state, w.ledger, ev)
    ensures TruthfulWorld(chain, w, Message(time, SaveEvidence(sender, ev)))
  {
    hide Execute, TruthfulMoney, TakesEffect;
  }
}
