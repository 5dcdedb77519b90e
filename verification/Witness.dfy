/** A run that strands the bridge on its last ticket. */
module Witness {
  import opened Types
  import opened Amounts
  import opened Relayers
  import opened Evidences
  import opened Handlers
  import opened TicketProgress
  import opened Banking
  import opened World
  import opened Runs
  import Ledgers

  const CHAIN: Chain := Chain("bridge", s => s, a => true, a => 25 <= |a| <= 35)
  const RELAYER: Relayer := Relayer("relayer", "rrrrrrrrrrrrrrrrrrrrrrrrrrrrr", "key")
  const BRIDGE: string := "bbbbbbbbbbbbbbbbbbbbbbbbbbbbb"
  const SETUP: Setup := Setup("owner", [RELAYER], 1, 2, 0, BRIDGE, 10, "xrp", None, Bank(map[], map[]), map[])

  /** The relayer's report on an operation. */
  function Report(hash: Option<string>, account: Option<Sequence>, ticket: Option<Sequence>, result: TransactionResult,
                  tickets: Option<seq<Sequence>>): Action
  {
    var opResult := Some(TicketsAllocation(tickets));
    Message(0, SaveEvidence("relayer", XrplTransactionResult(hash, account, ticket, result, opResult)))
  }

  const ROTATE: Action := Message(0, RotateKeysMsg("owner", [RELAYER], 1))

  const ACTIONS: seq<Action> := [
    Message(0, RecoverTickets("owner", 1, Some(3))),
    Report(Some("A"), Some(1), None, Accepted, Some([2, 3, 4])),
    ROTATE,
    Report(Some("B"), None, Some(2), Rejected, None),
    ROTATE,
    Report(Some("C"), None, Some(3), Rejected, None),
    Report(None, None, Some(4), Invalid, None)
  ]

  /** Where the run stands: the parts of the state that decide its next step. */
  predicate At(w: World, available: seq<Sequence>, used: nat, ops: map<Sequence, Operation>, updating: bool,
               rotating: bool, hashes: set<string>)
  {
    var s := w.state;
    && s.owner == "owner" && s.config.relayers == [RELAYER] && s.config.evidenceThreshold == 1
    && s.config.usedTicketSequenceThreshold == 2 && s.txEvidences == map[]
    && s.prohibitedXrplAddresses == INITIAL_PROHIBITED_XRPL_ADDRESSES + {BRIDGE}
    && s.config.xrplBaseFee == 10
    && s.availableTickets == available && s.usedTickets == used && s.pendingOperations == ops
    && s.pendingTicketUpdate == updating && s.pendingRotateKeys == rotating && s.processedTxs == hashes
  }

  function Ticketed1(k: Sequence, typ: OperationType): Operation {
    Operation(OperationId(0, k), 1, Some(k), None, [], typ, 10)
  }

  const ROTATION: OperationType := RotateKeys([RELAYER], 1)

  /** A message without funds and without bank messages leaves nothing to fail but its handler. */
  lemma QuietDelivery(w: World, time: nat, msg: Msg)
    requires !msg.SendToXrpl? && Execute(Env(CHAIN, time, w.bank), w.state, msg).Ok?
    requires Execute(Env(CHAIN, time, w.bank), w.state, msg).value.msgs == []
    ensures var w' := Next(CHAIN, w, Message(time, msg));
            && w'.state == Execute(Env(CHAIN, time, w.bank), w.state, msg).value.state
            && w'.bank == w.bank && w'.ledger.settled <= w.ledger.settled && w'.ledger.arrivals == w.ledger.arrivals
  {
    hide Execute;
  }

  lemma Recovery(w: World)
    requires At(w, [], 0, map[], false, false, {})
    ensures At(Next(CHAIN, w, ACTIONS[0]), [], 0,
               map[1 := Operation(OperationId(0, 1), 1, None, Some(1), [], AllocateTickets(3), 10)], true, false, {})
  {
    hide Next;
    QuietDelivery(w, 0, ACTIONS[0].msg);
  }

  lemma OneVote(s: State, ev: Evidence)
    requires s.config.relayers == [RELAYER] && s.config.evidenceThreshold == 1 && s.txEvidences == map[]
    requires IsOperationValid(ev) ==> RawTxHash(ev).Some? && RawTxHash(ev).value !in s.processedTxs
    ensures RequireRelayer(s, "relayer").Ok?
    ensures var hashes := if IsOperationValid(ev) then {RawTxHash(ev).value} else {};
            HandleEvidence(CHAIN, s, "relayer", ev) == Ok((s.(processedTxs := s.processedTxs + hashes), true))
  {
    assert RELAYER in s.config.relayers;
    assert s.processedTxs + {} == s.processedTxs;
    assert TallyWith(s, "relayer", ev) == ["relayer"];
  }

  lemma Granted(w: World)
    requires At(w, [], 0, map[1 := Operation(OperationId(0, 1), 1, None, Some(1), [], AllocateTickets(3), 10)], true,
                false, {})
    ensures At(Next(CHAIN, w, ACTIONS[1]), [2, 3, 4], 0, map[], false, false, {"A"})
  {
    hide Next, HandleEvidence;
    OneVote(w.state, ACTIONS[1].msg.evidence);
    QuietDelivery(w, 0, ACTIONS[1].msg);
  }

  lemma Rotating(w: World, k: Sequence, rest: seq<Sequence>, used: nat, hashes: set<string>)
    requires At(w, [k] + rest, used, map[], false, false, hashes) && rest != []
    ensures At(Next(CHAIN, w, ROTATE), rest, used, map[k := Ticketed1(k, ROTATION)], false, true, hashes)
  {
    hide Next;
    assert ([k] + rest)[1..] == rest;
    RotationIsValid(w.state.prohibitedXrplAddresses);
    QuietDelivery(w, 0, ROTATE.msg);
  }

  lemma RotationIsValid(prohibited: set<string>)
    requires prohibited == INITIAL_PROHIBITED_XRPL_ADDRESSES + {BRIDGE}
    ensures ValidateRelayers(CHAIN, prohibited, [RELAYER], 1).Ok?
  {
    assert RELAYER.xrplAddress[1] == 'r' && RELAYER.xrplAddress[28] == 'r';
    assert [RELAYER][..0] == [];
    assert |RELAYER.xrplAddress| == 29;
    assert CheckRelayers(CHAIN, prohibited, []).Ok?;
  }

  lemma Rotated(w: World, k: Sequence, rest: seq<Sequence>, used: nat, hashes: set<string>, hash: string)
    requires At(w, rest, used, map[k := Ticketed1(k, ROTATION)], false, true, hashes) && hash !in hashes
    requires used + 1 < 2 || (|rest| == 1 && rest[0] != k && used == 1)
    ensures var w' := Next(CHAIN, w, Report(Some(hash), None, Some(k), Rejected, None));
            if used + 1 < 2 then At(w', rest, used + 1, map[], false, false, hashes + {hash})
            else At(w', [], used + 1, map[rest[0] := Ticketed1(rest[0], AllocateTickets(2))], true, false,
                    hashes + {hash})
  {
    hide Next, HandleEvidence;
    var msg := Report(Some(hash), None, Some(k), Rejected, None).msg;
    OneVote(w.state, msg.evidence);
    assert map[k := Ticketed1(k, ROTATION)] - {k} == map[];
    QuietDelivery(w, 0, msg);
  }

  lemma Invalidated(w: World)
    requires At(w, [], 2, map[4 := Ticketed1(4, AllocateTickets(2))], true, false, {"A", "B", "C"})
    ensures At(Next(CHAIN, w, ACTIONS[6]), [4], 2, map[], false, false, {"A", "B", "C"})
  {
    hide Next, HandleEvidence;
    OneVote(w.state, ACTIONS[6].msg.evidence);
    assert map[4 := Ticketed1(4, AllocateTickets(2))] - {4} == map[];
    QuietDelivery(w, 0, ACTIONS[6].msg);
  }

  lemma InstantiationSucceeds(threshold: nat)
    requires 2 <= threshold <= MAX_TICKETS
    ensures Start(CHAIN, SETUP.(ticketThreshold := threshold)).Ok? && Lawful(CHAIN) && BankSound(SETUP.bank)
  {
    RotationIsValid(INITIAL_PROHIBITED_XRPL_ADDRESSES + {BRIDGE});
    XrplAmountRule(0);
    assert TrimEndZeroes(Print(0)) == [] by { assert Print(0) == ['0']; }
    assert |BRIDGE| == 29;
    assert [CreateDenom("xrp")][1..] == [];
  }

  lemma Started()
    ensures Start(CHAIN, SETUP).Ok? && At(Start(CHAIN, SETUP).value, [], 0, map[], false, false, {})
    ensures Lawful(CHAIN)
  {
    hide ValidateRelayers, ValidateXrplAmount, ApplyAll, Lawful;
    InstantiationSucceeds(2);
    assert SETUP.(ticketThreshold := 2) == SETUP;
  }

  function Worlds(w: World, acts: seq<Action>): (ws: seq<World>)
    ensures |ws| == |acts| + 1 && ws[0] == w
    ensures forall i | 0 <= i < |acts| :: ws[i + 1] == Next(CHAIN, ws[i], acts[i])
    decreases |acts|
  {
    if acts == [] then [w] else [w] + Worlds(Next(CHAIN, w, acts[0]), acts[1..])
  }

  const RECOVERY: Operation := Operation(OperationId(0, 1), 1, None, Some(1), [], AllocateTickets(3), 10)

  /** The world after `i` actions. */
  predicate Stage(w: World, i: nat) {
    match i
    case 0 => At(w, [], 0, map[], false, false, {})
    case 1 => At(w, [], 0, map[1 := RECOVERY], true, false, {})
    case 2 => At(w, [2, 3, 4], 0, map[], false, false, {"A"})
    case 3 => At(w, [3, 4], 0, map[2 := Ticketed1(2, ROTATION)], false, true, {"A"})
    case 4 => At(w, [3, 4], 1, map[], false, false, {"A", "B"})
    case 5 => At(w, [4], 1, map[3 := Ticketed1(3, ROTATION)], false, true, {"A", "B"})
    case 6 => At(w, [], 2, map[4 := Ticketed1(4, AllocateTickets(2))], true, false, {"A", "B", "C"})
    case _ => At(w, [4], 2, map[], false, false, {"A", "B", "C"})
  }

  lemma StageStep(w: World, i: nat)
    requires i < 7 && Stage(w, i)
    ensures Stage(Next(CHAIN, w, ACTIONS[i]), i + 1)
  {
    hide Next, At;
    match i
    case 0 => Recovery(w);
    case 1 => Granted(w);
    case 2 => assert [2, 3, 4] == [2] + [3, 4]; Rotating(w, 2, [3, 4], 0, {"A"});
    case 3 => assert {"A"} + {"B"} == {"A", "B"}; Rotated(w, 2, [3, 4], 0, {"A"}, "B");
    case 4 => assert [3, 4] == [3] + [4]; Rotating(w, 3, [4], 1, {"A", "B"});
    case 5 => assert {"A", "B"} + {"C"} == {"A", "B", "C"}; Rotated(w, 3, [4], 1, {"A", "B"}, "C");
    case 6 => Invalidated(w);
  }

  lemma StageIsTruthful(w: World, i: nat)
    requires i < 7 && Stage(w, i)
    ensures TruthfulTickets(CHAIN, w, ACTIONS[i]) && (i < 6 ==> TruthfulProgress(CHAIN, w, ACTIONS[i]))
  {
    hide Execute, EnvOf, HandleEvidence;
  }

  /** No transfer is pending and none is sent, so the money hypothesis asks nothing. */
  lemma StageIsHonest(w: World, i: nat)
    requires i < 7 && Stage(w, i)
    ensures Ledgers.TruthfulWorld(CHAIN, w, ACTIONS[i])
  {
    hide HandleEvidence, Execute, EnvOf;
  }

  lemma {:induction false} Stages(ws: seq<World>, i: nat)
    requires |ws| == 8 && Stage(ws[0], 0) && i < 8
    requires forall j | 0 <= j < 7 :: ws[j + 1] == Next(CHAIN, ws[j], ACTIONS[j])
    ensures Stage(ws[i], i)
  {
    hide Next, Stage;
    if i > 0 {
      Stages(ws, i - 1);
      StageStep(ws[i - 1], i - 1);
      assert ws[i - 1 + 1] == Next(CHAIN, ws[i - 1], ACTIONS[i - 1]);
    }
  }

  lemma LastStageIsStranded(w: World)
    requires Stage(w, 7)
    ensures Stranded(w.state)
  {
  }

  /** A run that grants in full, leaves the threshold alone and names every sequence truthfully, but
      whose last report is invalid, and which ends with exactly one ticket and nothing pending. */
  ghost predicate StrandsByInvalid(ws: seq<World>, acts: seq<Action>) {
    && acts != [] && IsRun(CHAIN, SETUP, ws, acts)
    && (forall j | 0 <= j < |acts| :: TruthfulTickets(CHAIN, ws[j], acts[j]))
    && (forall j | 0 <= j < |acts| :: Ledgers.TruthfulWorld(CHAIN, ws[j], acts[j]))
    && (forall j | 0 <= j < |acts| - 1 :: TruthfulProgress(CHAIN, ws[j], acts[j]))
    && Stranded(ws[|acts|].state)
  }

  /** The hypothesis of ticket progress is needed, and the other hypotheses do not replace it. */
  lemma StrandingRun()
    ensures exists ws: seq<World> :: StrandsByInvalid(ws, ACTIONS)
  {
    hide Next, Start, StrandsByInvalid, At, Stage, Worlds, Lawful;
    Started();
    var ws := Worlds(Start(CHAIN, SETUP).value, ACTIONS);
    StartStage(ws[0]);
    StagesStrand(ws);
  }

  lemma StagesStrand(ws: seq<World>)
    requires |ws| == 8 && Lawful(CHAIN) && Start(CHAIN, SETUP) == Ok(ws[0]) && Stage(ws[0], 0)
    requires forall j | 0 <= j < 7 :: ws[j + 1] == Next(CHAIN, ws[j], ACTIONS[j])
    ensures StrandsByInvalid(ws, ACTIONS)
  {
    hide Next, Start, Stage, TruthfulTickets, TruthfulProgress, Lawful, Stranded, Ledgers.TruthfulWorld;
    assert |ACTIONS| == 7;
    forall j | 0 <= j < 7
      ensures TruthfulTickets(CHAIN, ws[j], ACTIONS[j]) && (j < 6 ==> TruthfulProgress(CHAIN, ws[j], ACTIONS[j]))
      ensures Ledgers.TruthfulWorld(CHAIN, ws[j], ACTIONS[j])
    {
      Stages(ws, j);
      StageIsTruthful(ws[j], j);
      StageIsHonest(ws[j], j);
    }
    Stages(ws, 7);
    LastStageIsStranded(ws[7]);
    assert BankSound(SETUP.bank);
  }

  lemma StartStage(w: World)
    requires At(w, [], 0, map[], false, false, {})
    ensures Stage(w, 0)
  {
  }

  /** Instantiation accepts a threshold of 250, so there are runs of a bridge that can never recover. */
  lemma DeadRun()
    ensures var setup := SETUP.(ticketThreshold := MAX_TICKETS);
            Start(CHAIN, setup).Ok? && IsRun(CHAIN, setup, [Start(CHAIN, setup).value], [])
  {
    hide Start, Next, Lawful, BankSound;
    InstantiationSucceeds(MAX_TICKETS);
  }
}
