/**
 State machine safety (section 5.4.3 of the Raft paper), its premise and its
 invariant over a run. A follower clamps the leader's commit index to the end of
 its own log, so the property needs the index it moves to to be one the request
 speaks about, or a request that ends in an entry of its own term; module
 Counterexamples shows a run without either.
 */
module StateMachineSafety {
  import opened Cluster
  import opened LogMatching
  import opened LeaderCompleteness
  import opened SealedPrefixes
  import opened SafetySteps

  ghost predicate CoveredCommits(r: Run) {
    forall i :: 0 <= i < |r.steps| && i < |r.states| ==> CommitCovered(r.states[i], r.steps[i])
  }

  /**
   It is enough that no leader ever sends a commit index beyond the entries of
   the same request, unless the last of these is of its own term.
   */
  lemma CoveredRequests(c: Config, r: Run)
    requires ValidRun(c, r)
    requires forall i, q :: 0 <= i < |r.states| && q in r.states[i].net.appReqs ==> q.commit <= q.End() || EndsInOwnTerm(q)
    ensures CoveredCommits(r)
  {
    hide Moves, Merge;
    forall i | 0 <= i < |r.steps| ensures CommitCovered(r.states[i], r.steps[i]) {
      assert Moves(c, r.states[i], r.steps[i], r.states[i + 1]);
      CoveredStep(c, r.states[i], r.steps[i], r.states[i + 1]);
    }
  }

  lemma CoveredStep(c: Config, s: State, step: Step, s': State)
    requires Moves(c, s, step, s') && forall q :: q in s.net.appReqs ==> q.commit <= q.End() || EndsInOwnTerm(q)
    ensures CommitCovered(s, step)
  {
    hide Merge, Next;
  }

  lemma {:induction false} SafetyInvHolds(c: Config, r: Run, i: nat)
    requires ValidRun(c, r) && i < |r.states| && WholeVotes(c, r) && CoveredCommits(r)
    ensures SafetyInv(c, r.states[i], HistoryAt(c, r, i))
  {
    hide SafetyInv, Moves, Init, NextHistory, VoteWhole, CommitCovered;
    if i == 0 {
      InitSafetyInv(c, r.states[0]);
    } else {
      SafetyInvHolds(c, r, i - 1);
      assert Moves(c, r.states[i - 1], r.steps[i - 1], r.states[i - 1 + 1]);
      StepKeepsSafetyInv(c, r.states[i - 1], HistoryAt(c, r, i - 1), r.steps[i - 1], r.states[i]);
    }
  }
}
