/** Vote counting: tallies, thresholds and at-most-once execution. */
module Quorum {
  import opened Types
  import opened Relayers
  import opened Evidences

  predicate Distinct(voters: seq<Addr>) {
    forall i, j | 0 <= i < j < |voters| :: voters[i] != voters[j]
  }

  /** A duplicate-free list of current relayers. */
  predicate Voters(relayers: seq<Relayer>, voters: seq<Addr>) {
    Distinct(voters) && forall a <- voters :: IsRelayer(relayers, a)
  }

  /** Every stored tally holds distinct current relayers and is still short of the threshold. */
  ghost predicate TalliesSound(s: State) {
    forall ev | ev in s.txEvidences ::
      && Voters(s.config.relayers, s.txEvidences[ev])
      && 0 < |s.txEvidences[ev]| < s.config.evidenceThreshold
  }

  lemma VoteExtends(s: State, sender: Addr, ev: Evidence)
    requires TalliesSound(s) && IsRelayer(s.config.relayers, sender)
    requires ev in s.txEvidences ==> sender !in s.txEvidences[ev]
    ensures Voters(s.config.relayers, TallyWith(s, sender, ev))
  {
    hide IsRelayer;
    var tally := TallyWith(s, sender, ev);
    if ev !in s.txEvidences {
      assert tally == [sender];
    }
  }

  lemma VoteKeepsTallies(chain: Chain, s: State, sender: Addr, ev: Evidence)
    requires TalliesSound(s) && IsRelayer(s.config.relayers, sender)
    requires HandleEvidence(chain, s, sender, ev).Ok?
    ensures TalliesSound(HandleEvidence(chain, s, sender, ev).value.0)
  {
    hide Voters, IsRelayer, OnlyVotes, HandleEvidence, TallyWith, TalliesSound;
    var s' := HandleEvidence(chain, s, sender, ev).value.0;
    VoteExtends(s, sender, ev);
    KeptConfigFact(chain, s, sender, ev);
    if |TallyWith(s, sender, ev)| >= s.config.evidenceThreshold {
      FewerTallies(s, s');
    } else {
      OneMoreVote(s, s', ev, TallyWith(s, sender, ev));
    }
  }

  lemma FewerTallies(s: State, s': State)
    requires TalliesSound(s) && s'.config == s.config
    requires forall e | e in s'.txEvidences :: e in s.txEvidences && s'.txEvidences[e] == s.txEvidences[e]
    ensures TalliesSound(s')
  {
    hide Voters;
  }

  lemma OneMoreVote(s: State, s': State, ev: Evidence, tally: seq<Addr>)
    requires TalliesSound(s) && s'.config == s.config && s'.txEvidences == s.txEvidences[ev := tally]
    requires Voters(s.config.relayers, tally) && 0 < |tally| < s.config.evidenceThreshold
    ensures TalliesSound(s')
  {
    hide Voters;
  }

  lemma KeptConfigFact(chain: Chain, s: State, sender: Addr, ev: Evidence)
    requires HandleEvidence(chain, s, sender, ev).Ok?
    ensures HandleEvidence(chain, s, sender, ev).value.0.config == s.config
    ensures |TallyWith(s, sender, ev)| > 0
  {
    hide HandleEvidence;
  }

  lemma KeptTallies(s: State, s': State)
    requires TalliesSound(s) && s'.txEvidences == s.txEvidences
    requires s'.config.relayers == s.config.relayers && s'.config.evidenceThreshold == s.config.evidenceThreshold
    ensures TalliesSound(s')
  {
    hide Voters;
  }

  /** Whatever takes effect was voted for, in identical form, by at least the threshold of distinct
      relayers of the current set: the tally that reaches the threshold is such a list. */
  lemma QuorumReached(chain: Chain, s: State, sender: Addr, ev: Evidence)
    requires TalliesSound(s) && IsRelayer(s.config.relayers, sender)
    requires HandleEvidence(chain, s, sender, ev).Ok?
    ensures HandleEvidence(chain, s, sender, ev).value.1 <==>
              |TallyWith(s, sender, ev)| >= s.config.evidenceThreshold
    ensures Voters(s.config.relayers, TallyWith(s, sender, ev))
    ensures |TallyWith(s, sender, ev)| <= s.config.evidenceThreshold || s.config.evidenceThreshold == 0
  {
    hide Voters, OnlyVotes, HandleEvidence;
    VoteExtends(s, sender, ev);
  }
}
