/** Votes over runs, both ways: a tally is exactly the votes cast, and the set in force exactly the last
    one installed. */
module Ballots {
  import opened Types
  import Amounts
  import Banking
  import opened Relayers
  import opened Evidences
  import opened Tickets
  import opened Operations
  import opened Handlers
  import opened Quorum
  import opened Soundness
  import opened TicketFlow
  import opened Votes
  import opened Settings
  import opened World
  import opened Runs

  /** The voters an evidence has so far. */
  function VotersOf(s: State, ev: Evidence): seq<Addr> {
    if ev in s.txEvidences then s.txEvidences[ev] else []
  }

  /** One vote, exactly: it is added to the voters of its evidence, or, when it makes the threshold, takes
      effect and closes the tally; a rotation closes them all. */
  predicate VoteCounts(env: Env, s: State, sender: Addr, ev: Evidence, s': State) {
    var before := VotersOf(s, ev);
    && sender !in before
    && (TakesEffect(env, s, SaveEvidence(sender, ev)) <==> |before| + 1 >= s.config.evidenceThreshold)
    && s'.txEvidences == (if Rotates(env, s, SaveEvidence(sender, ev)) then map[]
                          else if |before| + 1 >= s.config.evidenceThreshold then s.txEvidences - {ev}
                          else s.txEvidences[ev := before + [sender]])
  }

  lemma VoteTally(env: Env, s: State, sender: Addr, ev: Evidence)
    requires TalliesSound(s) && HandleEvidence(env.chain, s, sender, ev).Ok?
    ensures var before := VotersOf(s, ev);
            && sender !in before
            && (HandleEvidence(env.chain, s, sender, ev).value.1 <==> |before| + 1 >= s.config.evidenceThreshold)
            && HandleEvidence(env.chain, s, sender, ev).value.0.txEvidences ==
                 (if |before| + 1 >= s.config.evidenceThreshold then s.txEvidences - {ev}
                  else s.txEvidences[ev := before + [sender]])
  {
    hide HandleEvidence, OnlyVotes, Voters;
    if ev !in s.txEvidences { assert s.txEvidences - {ev} == s.txEvidences; }
  }

  lemma ResolvedTally(env: Env, s: State, ev: Evidence, reached: bool)
    requires ev.XrplTransactionResult? && (ev.accountSequence.Some? || ev.ticketSequence.Some?)
    requires ResolveOperation(env, s, ev, reached).Ok?
    ensures SequenceOf(ev) in s.pendingOperations
    ensures ResolveOperation(env, s, ev, reached).value.state.txEvidences ==
              (if (reached && ev.result.Accepted?
                   && s.pendingOperations[SequenceOf(ev)].operationType.RotateKeys?) then map[]
               else s.txEvidences)
  {
    hide HandleOperation, RegisterUsedTicket;
    if reached {
      var id := SequenceOf(ev);
      CloseTallies(s, s.pendingOperations[id], ev.operationResult, ev.result, ev.txHash, id, ev.ticketSequence);
    }
  }

  lemma VoteMeans(env: Env, s: State, sender: Addr, ev: Evidence)
    requires Sound(s) && Execute(env, s, SaveEvidence(sender, ev)).Ok?
    ensures VoteCounts(env, s, sender, ev, Execute(env, s, SaveEvidence(sender, ev)).value.state)
  {
    hide Sound, HandleEvidence, ResolveOperation, ReceiveTransfer, IsRelayer, ValidateBasic, TalliesSound;
    var (s1, reached) := HandleEvidence(env.chain, s, sender, ev).value;
    SoundTallies(s);
    VoteTally(env, s, sender, ev);
    if ev.XrplTransactionResult? {
      ResolvedTally(env, s1, ev, reached);
    }
  }

  lemma SoundTallies(s: State)
    requires Sound(s)
    ensures TalliesSound(s)
  {
  }

  // ---------- tallies over runs ----------

  /** `a` has voted for exactly this evidence, and neither a rotation nor the evidence's own effect has
      closed the tally since. */
  predicate Counted(trace: seq<Receipt>, a: Addr, ev: Evidence) {
    && trace != []
    && var r := trace[|trace| - 1];
    && !RotatesHere(r)
    && !(Effective(r) && r.msg.evidence == ev)
    && (r.msg == SaveEvidence(a, ev) || Counted(trace[..|trace| - 1], a, ev))
  }

  ghost predicate TalliesExact(w: World) {
    forall ev, a :: a in VotersOf(w.state, ev) <==> Counted(w.trace, a, ev)
  }

  lemma CountedNext(trace: seq<Receipt>, r: Receipt, a: Addr, ev: Evidence)
    ensures Counted(trace + [r], a, ev) <==>
              && !RotatesHere(r) && !(Effective(r) && r.msg.evidence == ev)
              && (r.msg == SaveEvidence(a, ev) || Counted(trace, a, ev))
  {
    hide RotatesHere, TakesEffect;
    var all := trace + [r];
    assert all[..|all| - 1] == trace && all[|all| - 1] == r;
  }

  lemma MessageCounts(w: World, w': World, r: Receipt, ev: Evidence, a: Addr)
    requires Sound(w.state) && TalliesExact(w) && r.before == w.state && w'.trace == w.trace + [r]
    requires Execute(r.env, w.state, r.msg) == Ok(r.outcome) && w'.state == r.outcome.state
    ensures a in VotersOf(w'.state, ev) <==> Counted(w'.trace, a, ev)
  {
    hide Sound, Execute, Counted, HandleEvidence;
    CountedNext(w.trace, r, a, ev);
    assert a in VotersOf(w.state, ev) <==> Counted(w.trace, a, ev);
    if r.msg.SaveEvidence? {
      VoteMeans(r.env, w.state, r.msg.sender, r.msg.evidence);
    } else {
      OtherTallies(r.env, w.state, r.msg);
    }
  }

  lemma NextCounts(chain: Chain, w: World, a: Action)
    requires Sound(w.state) && TalliesExact(w)
    ensures TalliesExact(Next(chain, w, a))
  {
    hide Sound, Execute, Deliver, Next, EnvOf, Counted, VotersOf;
    OnlyMessagesMatter(chain, w, a);
    var w' := Next(chain, w, a);
    if !(w'.state == w.state && w'.trace == w.trace) {
      DeliverMeans(chain, w, a.time, a.msg);
      var env := EnvOf(chain, w, a.time, a.msg).value;
      forall ev, v ensures v in VotersOf(w'.state, ev) <==> Counted(w'.trace, v, ev) {
        MessageCounts(w, w', Receipt(env, w.state, a.msg, Execute(env, w.state, a.msg).value), ev, v);
      }
    }
  }

  /** Over every run the stored tallies are exactly the open votes: none is forgotten, none invented. With
      the threshold this says when a report takes effect, and that a quorum's report does. */
  lemma {:induction false} TalliesOverRuns(chain: Chain, u: Setup, ws: seq<World>, acts: seq<Action>, i: nat)
    requires IsRun(chain, u, ws, acts) && i < |ws|
    ensures TalliesExact(ws[i])
  {
    hide Sound, Start, Next, Lawful;
    if i == 0 {
      StartIsSound(chain, u);
    } else {
      TalliesOverRuns(chain, u, ws, acts, i - 1);
      SoundnessOverRuns(chain, u, ws, acts, i - 1);
      assert ws[i - 1 + 1] == Next(chain, ws[i - 1], acts[i - 1]);
      NextCounts(chain, ws[i - 1], acts[i - 1]);
    }
  }

  // ---------- the relayer set over runs ----------

  datatype Committee = Committee(relayers: seq<Relayer>, threshold: nat)

  /** The set of the last accepted rotation, or of the setup. */
  function InForce(u: Setup, trace: seq<Receipt>): Committee {
    if trace == [] then Committee(u.relayers, u.evidenceThreshold)
    else
      var r := trace[|trace| - 1];
      if RotatesHere(r) then
        var rotation := r.before.pendingOperations[SequenceOf(r.msg.evidence)].operationType;
        Committee(rotation.newRelayers, rotation.newEvidenceThreshold)
      else InForce(u, trace[..|trace| - 1])
  }

  predicate CommitteeIs(c: Committee, s: State) {
    s.config.relayers == c.relayers && s.config.evidenceThreshold == c.threshold
  }

  lemma NextCommittee(chain: Chain, u: Setup, w: World, a: Action)
    requires CommitteeIs(InForce(u, w.trace), w.state)
    ensures CommitteeIs(InForce(u, Next(chain, w, a).trace), Next(chain, w, a).state)
  {
    hide Execute, Deliver, Next, EnvOf, HandleEvidence;
    OnlyMessagesMatter(chain, w, a);
    var w' := Next(chain, w, a);
    if !(w'.state == w.state && w'.trace == w.trace) {
      DeliverMeans(chain, w, a.time, a.msg);
      var env := EnvOf(chain, w, a.time, a.msg).value;
      ConfigStep(env, w.state, a.msg);
      assert w'.trace[..|w'.trace| - 1] == w.trace;
    }
  }

  /** Over every run the relayers in force and their threshold are those of the last accepted rotation, or
      of the setup: a rotation installs what was queued, and nothing else changes them. */
  lemma {:induction false} CommitteeOverRuns(chain: Chain, u: Setup, ws: seq<World>, acts: seq<Action>, i: nat)
    requires IsRun(chain, u, ws, acts) && i < |ws|
    ensures CommitteeIs(InForce(u, ws[i].trace), ws[i].state)
  {
    hide Start, Next, Lawful, RotatesHere;
    if i == 0 {
      StartCommittee(chain, u);
    } else {
      CommitteeOverRuns(chain, u, ws, acts, i - 1);
      assert ws[i - 1 + 1] == Next(chain, ws[i - 1], acts[i - 1]);
      NextCommittee(chain, u, ws[i - 1], acts[i - 1]);
    }
  }

  lemma StartCommittee(chain: Chain, u: Setup)
    requires Start(chain, u).Ok?
    ensures var w := Start(chain, u).value;
            w.trace == [] && CommitteeIs(Committee(u.relayers, u.evidenceThreshold), w.state)
  {
    hide Banking.ApplyAll, Amounts.ValidateXrplAmount, ValidateRelayers;
  }
}
