/** No committed entry is lost, no two servers hand over different entries, and it is always possible to go on. */
module Guarantees {
  import opened Cluster
  import opened LogMatching
  import opened Acknowledgements
  import opened WitnessedCommits
  import opened LeaderCompleteness
  import opened SealedPrefixes
  import opened StateMachineSafety
  import opened Quorums
  import opened Progress

  // ---------------------------------------------------------------------
  // Leader completeness
  // ---------------------------------------------------------------------

  /** A commit point stays one. */
  lemma CommittedLater(c: Config, r: Run, i: nat, j: nat, t: nat, k: nat)
    requires ValidRun(c, r) && i <= j < |r.states|
    requires Committed(c, r.states[i].net, HistoryAt(c, r, i), t, k)
    ensures Committed(c, r.states[j].net, HistoryAt(c, r, j), t, k)
  {
    hide Committed, ValidRun;
    AnswersStay(c, r, i, j);
    HistoryGrows(c, r, i, j);
    CommittedGrown(c, r.states[i].net, HistoryAt(c, r, i), r.states[j].net, HistoryAt(c, r, j), t, k);
  }

  /** What the ledger of a leader has committed is a commit point of its term, inside its own log. */
  lemma LeaderCommitted(c: Config, r: Run, i: nat, n: NodeId)
    requires ValidRun(c, r) && i < |r.states| && n in r.states[i].nodes
    requires r.states[i].nodes[n].role == Leader && r.states[i].nodes[n].ledger.index > 0
    ensures Rules(HistoryAt(c, r, i), n, r.states[i].nodes[n])
    ensures Committed(c, r.states[i].net, HistoryAt(c, r, i), r.states[i].nodes[n].term, r.states[i].nodes[n].ledger.index)
  {
    hide ValidRun, Committed;
    LedgerInvHolds(c, r, i);
    LogInvHolds(c, r, i);
    LeaderTerm(c, r.states[i], HistoryAt(c, r, i), n);
  }

  /**
   Leader completeness: what a leader's ledger has committed at one moment is,
   unchanged, in the log of every leader of a later term at any moment.
   */
  lemma LeaderCompletenessHolds(c: Config, r: Run, i: nat, j: nat, n: NodeId, m: NodeId)
    requires ValidRun(c, r) && WholeVotes(c, r) && i < |r.states| && j < |r.states|
    requires n in r.states[i].nodes && m in r.states[j].nodes
    requires r.states[i].nodes[n].role == Leader && r.states[j].nodes[m].role == Leader
    requires r.states[i].nodes[n].term < r.states[j].nodes[m].term
    ensures var x, y := r.states[i].nodes[n], r.states[j].nodes[m];
            x.ledger.index <= |x.log| && x.ledger.index <= |y.log| && x.log[..x.ledger.index] == y.log[..x.ledger.index]
  {
    hide ValidRun, VoteInv, LogInv, WholeVotes;
    var x, y := r.states[i].nodes[n], r.states[j].nodes[m];
    var k, top := x.ledger.index, if i <= j then j else i;
    if k > 0 {
      var hi, hj, h := HistoryAt(c, r, i), HistoryAt(c, r, j), HistoryAt(c, r, top);
      LeaderCommitted(c, r, i, n);
      LogInvHolds(c, r, j);
      LeaderTerm(c, r.states[j], hj, m);
      BaseInside(c, r.states[j], hj, y.term);
      HistoryGrows(c, r, i, top);
      HistoryGrows(c, r, j, top);
      CommittedLater(c, r, i, top, x.term, k);
      VoteInvHolds(c, r, top);
      CommittedIsHad(c, r.states[top], h, x.term, k, y.term);
      assert x.log[..k] == h[x.term].log[..k] == h[y.term].log[..k] == y.log[..k];
    }
  }

  lemma BaseInside(c: Config, s: State, h: History, t: nat)
    requires LogInv(c, s, h) && t in h
    ensures h[t].base <= |h[t].log|
  {
    assert ReignOk(h, t);
  }

  // ---------------------------------------------------------------------
  // State machine safety
  // ---------------------------------------------------------------------

  lemma AppliedSealed(c: Config, r: Run, i: nat, top: nat, n: NodeId)
    requires ValidRun(c, r) && i <= top < |r.states| && WholeVotes(c, r) && CoveredCommits(r) && n in r.states[i].nodes
    ensures Sealed(c, r.states[top].net, HistoryAt(c, r, top), r.states[i].nodes[n].applied, |r.states[i].nodes[n].applied|, r.states[i].nodes[n].term)
  {
    hide ValidRun, VoteInv, LedgerInv, Committed, Init;
    var x, h := r.states[i].nodes[n], HistoryAt(c, r, i);
    SafetyInvHolds(c, r, i);
    assert NodeSafe(c, r.states[i].net, h, x);
    AnswersStay(c, r, i, top);
    HistoryGrows(c, r, i, top);
    SealedLess(c, r.states[i].net, h, x.log, x.applied, x.commit, |x.applied|, x.term);
    SealedGrown(c, r.states[i].net, h, r.states[top].net, HistoryAt(c, r, top), x.applied, |x.applied|, x.term, x.term);
  }

  /**
   State machine safety: whatever two servers have handed to their state
   machines, at any two moments and across restarts, is the same for every
   index both have reached.
   */
  lemma StateMachineSafetyHolds(c: Config, r: Run, i: nat, j: nat, n: NodeId, m: NodeId, idx: nat)
    requires ValidRun(c, r) && WholeVotes(c, r) && CoveredCommits(r)
    requires i < |r.states| && j < |r.states| && n in r.states[i].nodes && m in r.states[j].nodes
    requires idx < |r.states[i].nodes[n].applied| && idx < |r.states[j].nodes[m].applied|
    ensures r.states[i].nodes[n].applied[idx] == r.states[j].nodes[m].applied[idx]
  {
    hide ValidRun, VoteInv, Sealed, Init;
    var top := if i <= j then j else i;
    var x, y := r.states[i].nodes[n], r.states[j].nodes[m];
    AppliedSealed(c, r, i, top, n);
    AppliedSealed(c, r, j, top, m);
    VoteInvHolds(c, r, top);
    SealedAgree(c, r.states[top], HistoryAt(c, r, top), x.applied, |x.applied|, x.term, y.applied, |y.applied|, y.term);
    AgreeAt(x.applied, y.applied, Min(|x.applied|, |y.applied|), idx);
  }

  /** A safe continuation after which the group has committed and handed over the command. */
  ghost predicate Succeeds(c: Config, r: Run, r': Run, group: set<NodeId>, n: NodeId, cmd: int) {
    && SafeRun(c, r) && SafeRun(c, r') && Continues(r, r')
    && Done(r.states[|r.states| - 1], r'.states[|r'.states| - 1], group, n, cmd)
  }

  /**
   Progress is always possible: every safe run can be continued by the servers of
   any majority alone, one of which has entries, so that one of them leads, its
   log has the next command after what it had, all of them have committed and
   handed over that log, and no other server has done anything.
   */
  lemma ProgressIsPossible(c: Config, r: Run, group: set<NodeId>, cmd: int)
    requires SafeRun(c, r) && IsQuorum(group, c.voters)
    requires var s := r.states[|r.states| - 1]; exists v :: v in group && v in s.nodes && |s.nodes[v].log| > 0
    ensures exists r', n :: Succeeds(c, r, r', group, n, cmd)
  {
    hide Moves, Init, WholeVotes, CoveredCommits, Done;
    var s := r.states[|r.states| - 1];
    assert Continues(r, r);
    var s', n := GoesOn(c, r, s, group, cmd);
    var r' := FromRun(c, r, s');
    assert Succeeds(c, r, r', group, n, cmd);
  }
}
