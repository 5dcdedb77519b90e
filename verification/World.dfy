/** The contract among its users, its bank and the XRP Ledger, as one state machine. */
module World {
  import opened Types
  import opened Amounts
  import opened Tokens
  import Tickets
  import opened Operations
  import opened Handlers
  import opened Sums
  import opened FeeBook
  import opened TokenTables
  import opened Queue
  import opened Soundness
  import opened Banking
  import opened Escrow
  import opened Solvency
  import opened Peg

  /** One accepted message: when and on what state it ran, and what came of it. */
  datatype Receipt = Receipt(env: Env, before: State, msg: Msg, outcome: Outcome)

  datatype World = World(state: State, bank: Bank, ledger: Ledger, trace: seq<Receipt>)

  datatype Action =
    | Message(time: nat, msg: Msg)
    | Deposit(denom: string, amount: nat)   // someone sends the contract coins it did not ask for
    | Issue(denom: string, amount: nat)     // coins of a denom the contract has not created appear
    | Settle(id: Sequence, spent: nat)      // the ledger executes a pending transfer
    | PayLedgerFee(drops: nat)              // the ledger takes its fee from the bridge account's XRP
    | Arrive(hash: string, arrival: Arrival) // the ledger executes a payment to the bridge account

  const XRP_KEY: string := BuildXrplTokenKey(XRP_ISSUER, XRP_CURRENCY)

  /** Moves attached coins from their sender to the contract. */
  function Attach(bank: Bank, funds: seq<Coin>): (r: Result<Bank>)
    ensures r.Ok? ==> r.value.supply == bank.supply
    decreases |funds|
  {
    if funds == [] then Ok(bank)
    else
      var c := funds[0];
      if SupplyOf(bank, c.denom) < HeldOf(bank, c.denom) + c.amount then Err(BankFailure)
      else Attach(bank.(held := bank.held[c.denom := HeldOf(bank, c.denom) + c.amount]), funds[1..])
  }

  function EnvOf(chain: Chain, w: World, time: nat, msg: Msg): Result<Env> {
    var bank :- Attach(w.bank, if msg.SendToXrpl? then msg.funds else []);
    Ok(Env(chain, time, bank))
  }

  /** The message is one whose funds are there and which its handler accepts. */
  predicate IsAccepted(chain: Chain, w: World, a: Action) {
    && a.Message?
    && EnvOf(chain, w, a.time, a.msg).Ok?
    && Execute(EnvOf(chain, w, a.time, a.msg).value, w.state, a.msg).Ok?
  }

  /** A message takes effect as a whole: funds, handler and bank messages, or not at all. */
  function Deliver(chain: Chain, w: World, time: nat, msg: Msg): Result<World> {
    var env :- EnvOf(chain, w, time, msg);
    var o :- Execute(env, w.state, msg);
    var bank :- ApplyAll(chain.contract, env.bank, o.msgs);
    Ok(World(o.state, bank, LedgerAfter(env, w.state, w.ledger, msg), w.trace + [Receipt(env, w.state, msg, o)]))
  }

  /** The ledger's books once it has executed transfer `id`, spending `spent` of an XRPL token. */
  function Settled(s: State, l: Ledger, id: Sequence, spent: nat): Ledger
    requires IsTransfer(s.pendingOperations, id)
  {
    var t := s.pendingOperations[id].operationType;
    var l1 := l.(settled := l.settled + {id});
    if EscrowSound(s, t) then
      l1.(outstanding := l.outstanding[t.currency := GetOr(l.outstanding, t.currency, 0) + t.amount])
    else
      var key := BuildXrplTokenKey(t.issuer, t.currency);
      l1.(vault := l.vault[key := Tickets.SaturatingSub(GetOr(l.vault, key, 0), spent)])
  }

  /** The ledger executes a transfer at most once, and spends no more than the transfer's maximum
      and no more than the bridge account holds. */
  predicate CanSettle(s: State, l: Ledger, id: Sequence, spent: nat) {
    && IsTransfer(s.pendingOperations, id)
    && id !in l.settled
    && var t := s.pendingOperations[id].operationType;
    && (!EscrowSound(s, t) ==>
          && LockedCoin(s, t).Ok? && spent <= LockedCoin(s, t).value.amount
          && spent <= GetOr(l.vault, BuildXrplTokenKey(t.issuer, t.currency), 0))
  }

  /** A payment arrives under a new transaction hash: a bridge-issued currency is taken out of
      circulation, and no more of it than there is, any other token is added to the holdings. */
  predicate CanArrive(chain: Chain, s: State, l: Ledger, hash: string, a: Arrival) {
    && chain.toUppercase(hash) !in l.arrivals
    && (a.issuer == s.config.bridgeXrplAddress ==> a.amount <= GetOr(l.outstanding, a.currency, 0))
  }

  function Arrived(chain: Chain, s: State, l: Ledger, hash: string, a: Arrival): Ledger
    requires CanArrive(chain, s, l, hash, a)
  {
    var l1 := l.(arrivals := l.arrivals[chain.toUppercase(hash) := a]);
    if a.issuer == s.config.bridgeXrplAddress then
      l1.(outstanding := l.outstanding[a.currency := GetOr(l.outstanding, a.currency, 0) - a.amount])
    else
      var key := BuildXrplTokenKey(a.issuer, a.currency);
      l1.(vault := l.vault[key := GetOr(l.vault, key, 0) + a.amount])
  }

  function Next(chain: Chain, w: World, a: Action): World {
    match a
    case Message(time, msg) =>
      var r := Deliver(chain, w, time, msg);
      if r.Ok? then r.value else w
    case Deposit(d, amount) =>
      if SupplyOf(w.bank, d) < HeldOf(w.bank, d) + amount then w
      else w.(bank := w.bank.(held := w.bank.held[d := HeldOf(w.bank, d) + amount]))
    case Issue(d, amount) =>
      if d in w.state.xrplTokenByDenom then w
      else w.(bank := w.bank.(supply := w.bank.supply[d := SupplyOf(w.bank, d) + amount]))
    case Settle(id, spent) =>
      if CanSettle(w.state, w.ledger, id, spent) then w.(ledger := Settled(w.state, w.ledger, id, spent)) else w
    case PayLedgerFee(drops) =>
      var left := Tickets.SaturatingSub(GetOr(w.ledger.vault, XRP_KEY, 0), drops);
      w.(ledger := w.ledger.(vault := w.ledger.vault[XRP_KEY := left]))
    case Arrive(hash, arrival) =>
      if CanArrive(chain, w.state, w.ledger, hash, arrival) then
        w.(ledger := Arrived(chain, w.state, w.ledger, hash, arrival))
      else w
  }

  // ---------- runs ----------

  datatype Setup = Setup(owner: Addr, relayers: seq<Relayer>, evidenceThreshold: nat, ticketThreshold: nat,
                         trustSetLimit: Uint128, bridgeAddress: string, baseFee: nat, xrpDenom: string,
                         osorEntryPoint: Option<Addr>, bank: Bank, vault: map<string, nat>)

  /** Instantiation creates the wrapped XRP denom; the bank and the account's holdings are given. */
  function Start(chain: Chain, u: Setup): Result<World> {
    var s :- Instantiate(chain, u.owner, u.relayers, u.evidenceThreshold, u.ticketThreshold, u.trustSetLimit,
                         u.bridgeAddress, u.baseFee, u.xrpDenom, u.osorEntryPoint);
    var bank :- ApplyAll(chain.contract, u.bank, [CreateDenom(u.xrpDenom)]);
    Ok(World(s, bank, Ledger({}, map[], u.vault, map[]), []))
  }

  /** The worlds `ws` are those a run passes through, from instantiation on. */
  ghost predicate IsRun(chain: Chain, u: Setup, ws: seq<World>, acts: seq<Action>) {
    && Lawful(chain) && BankSound(u.bank)
    && |ws| == |acts| + 1
    && Start(chain, u) == Ok(ws[0])
    && forall i | 0 <= i < |acts| :: ws[i + 1] == Next(chain, ws[i], acts[i])
  }

  // ---------- what each kind of action changes ----------

  /** Only accepted messages change the contract and the trace. */
  lemma OnlyMessagesMatter(chain: Chain, w: World, a: Action)
    ensures var w' := Next(chain, w, a);
            || (w'.state == w.state && w'.trace == w.trace)
            || (a.Message? && Deliver(chain, w, a.time, a.msg) == Ok(w'))
  {
    hide Deliver, CanSettle, Settled, CanArrive, Arrived;
  }

  lemma {:induction false} AttachMeans(bank: Bank, funds: seq<Coin>, d: string)
    requires Attach(bank, funds).Ok?
    ensures HeldOf(Attach(bank, funds).value, d) == HeldOf(bank, d) + AmountOf(funds, d)
    ensures BankSound(bank) ==> BankSound(Attach(bank, funds).value)
    decreases |funds|
  {
    if funds != [] {
      var c := funds[0];
      var b := bank.(held := bank.held[c.denom := HeldOf(bank, c.denom) + c.amount]);
      if BankSound(bank) {
        forall e ensures HeldOf(b, e) <= SupplyOf(b, e) {
          assert HeldOf(bank, e) <= SupplyOf(bank, e);
        }
      }
      AttachMeans(b, funds[1..], d);
    }
  }

  lemma EnvMeans(chain: Chain, w: World, time: nat, msg: Msg, d: string)
    requires EnvOf(chain, w, time, msg).Ok?
    ensures var env := EnvOf(chain, w, time, msg).value;
            && env.chain == chain && env.time == time
            && env.bank.supply == w.bank.supply
            && HeldOf(env.bank, d) == HeldOf(w.bank, d) + Attached(msg, d)
            && (BankSound(w.bank) ==> BankSound(env.bank))
  {
    hide BankSound, Attach;
    AttachMeans(w.bank, if msg.SendToXrpl? then msg.funds else [], d);
  }

  // ---------- the ledger executes a transfer ----------

  lemma SettledLocks(s: State, l: Ledger, id: Sequence, spent: nat, d: string)
    requires CanSettle(s, l, id, spent)
    ensures var l' := Settled(s, l, id, spent);
            var t := s.pendingOperations[id].operationType;
            Total(LocksIn(s, l', d)) == Total(LocksIn(s, l, d))
              - (if EscrowSound(s, t) && LockedCoin(s, t).Ok? && LockedCoin(s, t).value.denom == d
                 then LockedCoin(s, t).value.amount else 0)
  {
    hide LockedCoin, EscrowSound, Total;
    var l' := Settled(s, l, id, spent);
    var locks := LocksIn(s, l, d);
    var t := s.pendingOperations[id].operationType;
    assert forall k | k != id :: k in l'.settled <==> k in l.settled;
    if EscrowSound(s, t) && id in locks {
      assert LocksIn(s, l', d) == locks - {id};
      TotalRemove(locks, id);
    } else {
      assert LocksIn(s, l', d) == locks;
    }
  }

  lemma SettledAbroad(s: State, l: Ledger, id: Sequence, spent: nat, d: string)
    requires Sound(s) && CanSettle(s, l, id, spent)
    ensures var l' := Settled(s, l, id, spent);
            var t := s.pendingOperations[id].operationType;
            && LockedCoin(s, t).Ok?
            && AbroadIn(s, l', d) == AbroadIn(s, l, d)
              + (if EscrowSound(s, t) && LockedCoin(s, t).value.denom == d then LockedCoin(s, t).value.amount else 0)
  {
    hide Sound, ToCosmosUnits, WholeCosmosUnits, ConvertAmountDecimals, TablesSound, QueueSound, TransferSound;
    var l' := Settled(s, l, id, spent);
    var t := s.pendingOperations[id].operationType;
    SoundTables(s);
    LockIsDefined(s, id);
    if EscrowSound(s, t) {
      CurrencyEntry(s, t.currency);
      var denom := s.cosmosTokenByCurrency[t.currency];
      var decimals := s.cosmosTokens[denom].decimals;
      ConvertIsExact(decimals, t.amount);
      IssueAddsExactly(decimals, GetOr(l.outstanding, t.currency, 0), t.amount);
      if d != denom && d in s.cosmosTokens { TablesGiveCosmosEntry(s, d); }
    }
  }

  /** Executing an escrowed transfer turns its lock into value outstanding, to the last unit. */
  lemma SettleOwes(s: State, l: Ledger, id: Sequence, spent: nat, d: string)
    requires Sound(s) && LedgerSound(s, l) && CanSettle(s, l, id, spent)
    ensures Owed(s, Settled(s, l, id, spent), d) == Owed(s, l, d)
    ensures LedgerSound(s, Settled(s, l, id, spent))
  {
    hide Sound, LockedCoin, EscrowSound, Total, LocksIn, RefundsIn, FeesOwed, AbroadIn, ReturnsIn;
    ArrivalsDecide(s, l, Settled(s, l, id, spent), d);
    SettledLocks(s, l, id, spent, d);
    SettledAbroad(s, l, id, spent, d);
    SettledLedger(s, l, id, spent);
  }

  lemma SettledLedger(s: State, l: Ledger, id: Sequence, spent: nat)
    requires LedgerSound(s, l) && CanSettle(s, l, id, spent)
    ensures LedgerSound(s, Settled(s, l, id, spent))
  {
    hide LockedCoin;
  }

  /** Executing an XRPL transfer trades holdings for coins awaiting their burn, never at a loss. */
  lemma SettleBacks(s: State, l: Ledger, id: Sequence, spent: nat, key: string)
    requires Sound(s) && CanSettle(s, l, id, spent)
    ensures Free(s, Settled(s, l, id, spent), key) >= Free(s, l, key)
    ensures Backing(s, Settled(s, l, id, spent), key) >= Backing(s, l, key)
  {
    hide Sound, LockedCoin, Total, EscrowSound, MintsIn;
    MintsKept(s, s, l, Settled(s, l, id, spent), key);
    var l' := Settled(s, l, id, spent);
    var burns := BurnsIn(s, l, key);
    var t := s.pendingOperations[id].operationType;
    LockIsDefined(s, id);
    assert forall k | k != id :: k in l'.settled <==> k in l.settled;
    if BuildXrplTokenKey(t.issuer, t.currency) == key {
      assert BurnsIn(s, l', key) == burns[id := LockedCoin(s, t).value.amount];
      TotalInsert(burns, id, LockedCoin(s, t).value.amount);
    } else {
      assert BurnsIn(s, l', key) == burns;
    }
  }

  // ---------- a payment arrives ----------

  /** A return moves from what is outstanding to what is awaited, and rounding loses no unit of it. */
  lemma ArriveOwes(chain: Chain, s: State, l: Ledger, hash: string, a: Arrival, d: string)
    requires Sound(s) && LedgerSound(s, l) && CanArrive(chain, s, l, hash, a)
    ensures Owed(s, Arrived(chain, s, l, hash, a), d) <= Owed(s, l, d)
    ensures LedgerSound(s, Arrived(chain, s, l, hash, a))
  {
    hide Sound, Total, LocksIn, RefundsIn, FeesOwed, AbroadIn, ReturnsIn, AwaitsPayment;
    SettledDecides(s, l, Arrived(chain, s, l, hash, a), d);
    ArrivedReturns(chain, s, l, hash, a, d);
    ArrivedAbroad(chain, s, l, hash, a, d);
  }

  /** What a payment adds to the awaited returns of a denom. */
  function ReturnValue(s: State, a: Arrival, d: string): nat {
    if (a.issuer == s.config.bridgeXrplAddress && d in s.cosmosTokens
        && s.cosmosTokens[d].xrplCurrency == a.currency) then
      ToCosmosUnits(s.cosmosTokens[d].decimals, a.amount)
    else 0
  }

  lemma ArrivedReturns(chain: Chain, s: State, l: Ledger, hash: string, a: Arrival, d: string)
    requires CanArrive(chain, s, l, hash, a)
    ensures Total(ReturnsIn(s, Arrived(chain, s, l, hash, a), d)) <= Total(ReturnsIn(s, l, d)) + ReturnValue(s, a, d)
  {
    hide Total, ToCosmosUnits;
    var l' := Arrived(chain, s, l, hash, a);
    var h := chain.toUppercase(hash);
    var awaiting := ReturnsIn(s, l, d);
    assert forall j | j != h :: j in ReturnsIn(s, l', d) <==> j in awaiting;
    if AwaitsPayment(s, l', h, d) {
      assert ReturnsIn(s, l', d) == awaiting[h := ReturnValue(s, a, d)];
      TotalInsert(awaiting, h, ReturnValue(s, a, d));
    } else {
      assert ReturnsIn(s, l', d) == awaiting;
    }
  }

  lemma ArrivedAbroad(chain: Chain, s: State, l: Ledger, hash: string, a: Arrival, d: string)
    requires Sound(s) && LedgerSound(s, l) && CanArrive(chain, s, l, hash, a)
    ensures AbroadIn(s, Arrived(chain, s, l, hash, a), d) + ReturnValue(s, a, d) <= AbroadIn(s, l, d)
    ensures LedgerSound(s, Arrived(chain, s, l, hash, a))
  {
    hide Sound, ToCosmosUnits;
    if a.issuer == s.config.bridgeXrplAddress && d in s.cosmosTokens && s.cosmosTokens[d].xrplCurrency == a.currency {
      ReturnPaysAtMost(s.cosmosTokens[d].decimals, GetOr(l.outstanding, a.currency, 0), a.amount);
    }
  }

  /** An arrival adds to the holdings exactly what it promises to mint. */
  lemma ArriveBacks(chain: Chain, s: State, l: Ledger, hash: string, a: Arrival, key: string)
    requires CanArrive(chain, s, l, hash, a)
    ensures var l' := Arrived(chain, s, l, hash, a);
            && Free(s, l', key) >= Free(s, l, key)
            && GetOr(l'.vault, key, 0) - Total(MintsIn(s, l', key))
               >= GetOr(l.vault, key, 0) - Total(MintsIn(s, l, key))
  {
    hide Total, BurnsIn, MintsIn;
    SettledDecidesBurns(s, l, Arrived(chain, s, l, hash, a), key);
    ArrivedMints(chain, s, l, hash, a, key);
  }

  lemma ArrivedMints(chain: Chain, s: State, l: Ledger, hash: string, a: Arrival, key: string)
    requires CanArrive(chain, s, l, hash, a)
    ensures Total(MintsIn(s, Arrived(chain, s, l, hash, a), key)) <= Total(MintsIn(s, l, key)) +
              (if a.issuer != s.config.bridgeXrplAddress
               && BuildXrplTokenKey(a.issuer, a.currency) == key then a.amount else 0)
  {
    MintsExtend(s, l, Arrived(chain, s, l, hash, a), chain.toUppercase(hash), a, key);
  }

  lemma MintsExtend(s: State, l: Ledger, l': Ledger, h: string, a: Arrival, key: string)
    requires h !in l.arrivals && l'.arrivals == l.arrivals[h := a]
    ensures Total(MintsIn(s, l', key)) <= Total(MintsIn(s, l, key)) +
              (if a.issuer != s.config.bridgeXrplAddress
               && BuildXrplTokenKey(a.issuer, a.currency) == key then a.amount else 0)
  {
    hide Total;
    var mints := MintsIn(s, l, key);
    if AwaitsMint(s, l', h, key) {
      assert MintsIn(s, l', key) == mints[h := a.amount];
      TotalInsert(mints, h, a.amount);
    } else {
      assert MintsIn(s, l', key) == mints;
    }
  }
}
