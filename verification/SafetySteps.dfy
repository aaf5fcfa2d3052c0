/**
 Every step of the cluster keeps what servers have committed and handed over
 sealed, provided the commit index a follower moves to is one the request speaks
 about, or the request ends in an entry of its own term.
 */
module SafetySteps {
  import opened Commitment
  import opened Cluster
  import opened Election
  import opened LogMatching
  import opened Acknowledgements
  import opened WitnessedCommits
  import opened LeaderCompleteness
  import opened SealedPrefixes

  /** The last entry a request speaks about was made by its own leader. */
  predicate EndsInOwnTerm(q: AppendReq) {
    q.End() > 0 && q.term == if |q.entries| > 0 then q.entries[|q.entries| - 1].term else q.prevTerm
  }

  /** The commit index a follower moves to lies inside the request, or the request ends in an entry of its own term. */
  ghost predicate Covered(x: Node, q: AppendReq) {
    PrevMatches(x.log, q) && q.commit > x.commit ==>
      EndsInOwnTerm(q) || Min(q.commit, |Merge(x.log, q.prev, q.entries)|) <= q.End()
  }

  ghost predicate CommitCovered(s: State, step: Step) {
    step.n in s.nodes && (step.HandleAppend? ==> Covered(s.nodes[step.n], step.app))
  }

  // ---------------------------------------------------------------------
  // The steps
  // ---------------------------------------------------------------------

  lemma HandleAppendSafe(c: Config, s: State, h: History, s': State, n: NodeId, q: AppendReq)
    requires SafetyInv(c, s, h) && VoteInv(c, s', h) && AckStep(c, s, h, s', h, n)
    requires Moves(c, s, HandleAppend(n, q), s') && Covered(s.nodes[n], q)
    ensures NodeSafe(c, s'.net, h, s'.nodes[n])
  {
    hide SafetyInv, VoteInv, Sealed, LogFollows, OwnLog, NewAnswer, Merge, Followed, ReqSealed, AllBacked, ReignsOk, ReqOk;
    var x, y := s.nodes[n], s'.nodes[n];
    FollowerPart(c, s, h, n, q);
    if q.term >= x.term && PrevMatches(x.log, q) {
      var z := Met(x, q).(log := Merge(x.log, q.prev, q.entries));
      FollowedFrame(z, q.commit);
      CommitSurvives(c, s, h, s', h, n);
      MergeMoves(h, x.log, q);
      ReqSealedGrown(c, s.net, h, s'.net, h, q);
      AppliedKept(x, z);
      if q.commit > x.commit { CoveredAgrees(c, s, h, n, q, z.log, Min(q.commit, |z.log|)); }
      FollowedSafe(c, s'.net, h, z, q);
    } else if q.term < x.term {
      NodeSafeGrown(c, s.net, h, s'.net, h, x);
    } else {
      StillSafe(c, s, h, s', h, n);
    }
  }

  /** Up to the commit index it moves to, the follower has the leader's log. */
  lemma CoveredAgrees(c: Config, s: State, h: History, n: NodeId, q: AppendReq, log: seq<Entry>, idx: nat)
    requires SafetyInv(c, s, h) && n in s.nodes && q in s.net.appReqs && q.term >= s.nodes[n].term && PrevMatches(s.nodes[n].log, q)
    requires log == Merge(s.nodes[n].log, q.prev, q.entries) && idx <= |log|
    requires EndsInOwnTerm(q) || idx <= q.End()
    ensures q.term in h && Agree(log, h[q.term].log, idx)
  {
    hide SafetyInv, Merge, AllBacked, ReignsOk, ReqSealed, NodeSafe;
    var x := s.nodes[n];
    FollowerPart(c, s, h, n, q);
    MergeMoves(h, x.log, q);
    if idx <= q.End() {
      AgreeLess(log, h[q.term].log, q.End(), idx);
    } else {
      MovesBacked(h, q.term, x.log, log);
      OwnTermAgrees(h, log, q, idx);
    }
  }

  /** Beyond an entry of its own term a log has only entries of that term, and those are the leader's. */
  lemma OwnTermAgrees(h: History, log: seq<Entry>, q: AppendReq, idx: nat)
    requires ReignsOk(h) && AllBacked(h, log) && TermsBelow(log, q.term) && ReqOk(h, q)
    requires Agree(log, h[q.term].log, q.End()) && EndsInOwnTerm(q) && q.End() < idx <= |log|
    ensures Agree(log, h[q.term].log, idx)
  {
    var end := q.End();
    AgreeAt(log, h[q.term].log, end, end - 1);
    assert |q.entries| > 0 ==> q.entries[|q.entries| - 1] == h[q.term].log[end - 1];
    TermsRise(h, log, end - 1, idx - 1);
    assert Backed(h, log, idx - 1);
  }

  lemma AppliedKept(x: Node, z: Node)
    requires Applied(x) && z.commit == x.commit && z.applied == x.applied
    requires x.commit <= |z.log| && z.log[..x.commit] == x.log[..x.commit]
    ensures Applied(z)
  {
    assert z.log[..|x.applied|] == z.log[..x.commit][..|x.applied|] == x.log[..x.commit][..|x.applied|];
  }

  lemma FollowedFrame(x: Node, commit: nat)
    ensures Followed(x, commit).log == x.log && Followed(x, commit).term == x.term && Followed(x, commit).role == x.role
  {
  }

  lemma FollowerPart(c: Config, s: State, h: History, n: NodeId, q: AppendReq)
    requires SafetyInv(c, s, h) && n in s.nodes && q in s.net.appReqs
    ensures ReignsOk(h) && AllBacked(h, s.nodes[n].log) && TermsBelow(s.nodes[n].log, s.nodes[n].term)
    ensures ReqOk(h, q) && ReqSealed(c, s.net, h, q)
    ensures NodeSafe(c, s.net, h, s.nodes[n]) && (s.nodes[n].role == Leader ==> !s.nodes[n].transfer)
  {
    hide VotesSafe, VotesKnown, ElectedOk, CandidateOk, OneRequest, LedgerInv, Sealed;
    assert NodeLogOk(h, n, s.nodes[n]);
    assert NodeSafe(c, s.net, h, s.nodes[n]);
    assert ReqSealed(c, s.net, h, q);
  }

  lemma LeaderPart(c: Config, s: State, h: History, n: NodeId)
    requires SafetyInv(c, s, h) && n in s.nodes
    ensures NodeSafe(c, s.net, h, s.nodes[n])
    ensures s.nodes[n].role == Leader ==>
              Rules(h, n, s.nodes[n]) && LedgerOk(c, s.net, h, s.nodes[n].term, s.nodes[n].ledger)
  {
    hide VotesSafe, VotesKnown, ElectedOk, CandidateOk, OneRequest, Sealed, LedgerOk;
    assert NodeSafe(c, s.net, h, s.nodes[n]);
    if s.nodes[n].role == Leader { LeaderTerm(c, s, h, n); }
  }

  lemma LeaderCommitSafe(c: Config, s: State, h: History, s': State, n: NodeId)
    requires SafetyInv(c, s, h) && Moves(c, s, LeaderCommit(n), s')
    ensures NodeSafe(c, s'.net, h, s'.nodes[n])
  {
    hide SafetyInv, Acked;
    var x := s.nodes[n];
    LeaderPart(c, s, h, n);
    assert SealedBy(c, s.net, h, x.log, x.ledger.index, x.term, x.term, x.ledger.index);
  }

  lemma LeaderApplySafe(c: Config, s: State, h: History, s': State, n: NodeId, idx: nat)
    requires SafetyInv(c, s, h) && Moves(c, s, LeaderApply(n, idx), s')
    ensures NodeSafe(c, s'.net, h, s'.nodes[n])
  {
    hide SafetyInv, Sealed, LedgerOk;
    var x := s.nodes[n];
    LeaderPart(c, s, h, n);
    if idx > |x.applied| {
      assert x.applied + x.log[|x.applied|..idx] == x.log[..idx];
    }
  }

  /** Reporting never lowers the ledger's index. */
  lemma ReportedRises(l: Ledger<NodeId>, v: NodeId, k: nat)
    ensures Reported(l, v, k).index >= l.index
  {
  }

  lemma QuietSafe(c: Config, s: State, h: History, step: Step, s': State)
    requires SafetyInv(c, s, h) && Moves(c, s, step, s') && VoteInv(c, s', NextHistory(c, s, h, step))
    requires AckStep(c, s, h, s', NextHistory(c, s, h, step), step.n)
    requires !step.HandleAppend? && !step.LeaderCommit? && !step.LeaderApply?
    ensures NodeSafe(c, s'.net, NextHistory(c, s, h, step), s'.nodes[step.n])
  {
    hide SafetyInv, VoteInv, Sealed, LogFollows, OwnLog, NewAnswer, Reported, LedgerOk, StoredPart, NodeSafe, Grants;
    QuietFrame(c, s, h, step, s');
    QuietSealed(c, s, h, step, s');
    StillSafe(c, s, h, s', NextHistory(c, s, h, step), step.n);
  }

  lemma QuietFrame(c: Config, s: State, h: History, step: Step, s': State)
    requires SafetyInv(c, s, h) && Moves(c, s, step, s')
    requires AckStep(c, s, h, s', NextHistory(c, s, h, step), step.n)
    requires !step.HandleAppend? && !step.LeaderCommit? && !step.LeaderApply?
    ensures (s'.nodes[step.n].commit == s.nodes[step.n].commit && s'.nodes[step.n].applied == s.nodes[step.n].applied)
            || (s'.nodes[step.n].commit == 0 && s'.nodes[step.n].applied == [])
    ensures LeaderBehind(NextHistory(c, s, h, step), s'.nodes[step.n])
  {
    hide SafetyInv, Sealed, LogFollows, OwnLog, NewAnswer, Reported, LedgerOk, StoredPart, Grants;
    var x := s.nodes[step.n];
    LeaderPart(c, s, h, step.n);
    if step.HandleVote? { VotedFrame(c, x, step.vote); }
    if step.Dispatch? { ReportedRises(x.ledger, step.n, |s'.nodes[step.n].log|); }
    if step.HandleAppendResp? { ReportedRises(x.ledger, step.resp.req.to, step.resp.req.End()); }
  }

  /** A leader's log from before its term is sealed by earlier terms, from the moment it is elected. */
  lemma QuietSealed(c: Config, s: State, h: History, step: Step, s': State)
    requires SafetyInv(c, s, h) && Moves(c, s, step, s')
    requires AckStep(c, s, h, s', NextHistory(c, s, h, step), step.n)
    requires !step.HandleAppend? && !step.LeaderCommit? && !step.LeaderApply?
    ensures LeaderSealed(c, s'.net, NextHistory(c, s, h, step), s'.nodes[step.n])
  {
    hide SafetyInv, Sealed, LogFollows, OwnLog, NewAnswer, Reported, LedgerOk, StoredPart, Grants;
    var n, h' := step.n, NextHistory(c, s, h, step);
    var x, y := s.nodes[n], s'.nodes[n];
    LeaderPart(c, s, h, n);
    if step.HandleVote? { VotedFrame(c, x, step.vote); }
    if y.role == Leader {
      if x.role == Leader {
        var top := SealTop(h, x.term, x.commit);
        SealedGrown(c, s.net, h, s'.net, h', x.log, x.commit, top, top);
        assert y.log[..x.commit] == x.log[..x.commit];
        SealedLess(c, s'.net, h', x.log, y.log, x.commit, x.commit, top);
      } else {
        CrownedSealed(c, s, h, step, s');
      }
    }
  }

  lemma CrownedSealed(c: Config, s: State, h: History, step: Step, s': State)
    requires SafetyInv(c, s, h) && Moves(c, s, step, s') && step.Tally?
    requires s'.nodes[step.n].role == Leader
    ensures LeaderSealed(c, s'.net, NextHistory(c, s, h, step), s'.nodes[step.n])
  {
    hide SafetyInv, Sealed, LogInv, ElectionInv, Grants;
    var n, h' := step.n, NextHistory(c, s, h, step);
    var x, y := s.nodes[n], s'.nodes[n];
    LeaderPart(c, s, h, n);
    LogPart(c, s, h);
    StepKeepsElectionInv(c, s, step, s');
    TalliedFrame(c, n, x, step.answer);
    WinnerIsNew(c, s, h, s', n);
    SealedBefore(c, s.net, h, x.log, x.commit, x.term);
    SealedGrown(c, s.net, h, s'.net, h', x.log, x.commit, x.term - 1, x.term - 1);
  }

  lemma LogPart(c: Config, s: State, h: History)
    requires SafetyInv(c, s, h)
    ensures LogInv(c, s, h) && ElectionInv(c, s)
  {
  }

  lemma NewRequests(c: Config, s: State, h: History, step: Step, s': State)
    requires SafetyInv(c, s, h) && Moves(c, s, step, s')
    ensures step.SendAppend? || step.SendHeartbeat? ==> s'.net.appResps == s.net.appResps && NextHistory(c, s, h, step) == h
    ensures forall q :: q in s'.net.appReqs && q !in s.net.appReqs ==>
              (step.SendAppend? || step.SendHeartbeat?) && ReqSealed(c, s.net, h, q)
  {
    hide SafetyInv, LedgerOk, Sealed, Merge, Grants;
    var x := s.nodes[step.n];
    LeaderPart(c, s, h, step.n);
    if step.SendHeartbeat? {
      SealedNone(c, s.net, h, x.log, SealTop(h, x.term, 0));
    }
  }

  lemma StepKeepsSafetyInv(c: Config, s: State, h: History, step: Step, s': State)
    requires SafetyInv(c, s, h) && Moves(c, s, step, s') && VoteWhole(c, s, step) && CommitCovered(s, step)
    ensures SafetyInv(c, s', NextHistory(c, s, h, step))
  {
    hide SafetyInv, VoteInv, LedgerInv, AckInv, AckStep, NodeSafe, ReqSealed, NextNode, Enabled, Covered;
    var h' := NextHistory(c, s, h, step);
    InvParts(c, s, h);
    StepKeepsVoteInv(c, s, h, step, s');
    StepKeepsLedgerInv(c, s, h, step, s');
    StepIsAckStep(c, s, h, step, s');
    match step {
      case HandleAppend(n, q) => HandleAppendSafe(c, s, h, s', n, q);
      case LeaderCommit(n) => LeaderCommitSafe(c, s, h, s', n);
      case LeaderApply(n, idx) => LeaderApplySafe(c, s, h, s', n, idx);
      case _ => QuietSafe(c, s, h, step, s');
    }
    forall q | q in s'.net.appReqs && q !in s.net.appReqs ensures ReqSealed(c, s'.net, h', q) {
      NewRequests(c, s, h, step, s');
      assert h' == h;
      ReqSealedGrown(c, s.net, h, s'.net, h', q);
    }
    SafetyKept(c, s, h, s', h', step.n);
  }

  lemma InvParts(c: Config, s: State, h: History)
    requires SafetyInv(c, s, h)
    ensures VoteInv(c, s, h) && LedgerInv(c, s, h) && AckInv(c, s, h)
  {
  }

  lemma InitSafetyInv(c: Config, s: State)
    requires Init(c, s)
    ensures SafetyInv(c, s, InitHistory())
  {
    hide VoteInv;
    InitVoteInv(c, s);
  }
}
