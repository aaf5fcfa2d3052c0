/**
 Election safety (section 5.2 of the Raft paper): over every run, also with
 crashes between the two writes of a vote, a term has at most one leader.
 */
module Election {
  import opened Wrappers
  import opened Quorums
  import opened Cluster

  function Grant(t: nat, voter: NodeId, cand: NodeId): VoteResp {
    VoteResp(t, voter, cand, t, true)
  }

  /** The voters that have granted `cand` a vote for term `t`. */
  function Grants(c: Config, net: Net, t: nat, cand: NodeId): set<NodeId> {
    set v | v in c.voters && Grant(t, v, cand) in net.voteResps
  }

  ghost predicate Won(c: Config, net: Net, t: nat, cand: NodeId) {
    IsQuorum(Grants(c, net, t, cand), c.voters)
  }

  /** The stored vote still stands behind an answer that granted one. */
  ghost predicate Stands(x: Node, r: VoteResp) {
    r.term == r.reqTerm &&
    (x.voteTerm > r.reqTerm || (x.voteTerm == r.reqTerm && x.voteCand == Some(r.cand)))
  }

  ghost predicate VotesStand(s: State) {
    forall r :: r in s.net.voteResps && r.granted ==> r.voter in s.nodes && Stands(s.nodes[r.voter], r)
  }

  ghost predicate OneVotePerTerm(net: Net) {
    forall r, r' | r in net.voteResps && r' in net.voteResps && r.granted && r'.granted
      :: r.voter == r'.voter && r.reqTerm == r'.reqTerm ==> r.cand == r'.cand
  }

  /** The count of a running election is a count of distinct voters. */
  ghost predicate CountHonest(c: Config, net: Net, n: NodeId, x: Node) {
    x.role == Candidate && x.voting ==>
      x.asked <= c.voters && x.granted <= |Grants(c, net, x.term, n) - x.asked|
  }

  ghost predicate LeaderWon(c: Config, net: Net, n: NodeId, x: Node) {
    x.role == Leader ==> Won(c, net, x.term, n)
  }

  ghost predicate NodeInv(c: Config, net: Net, n: NodeId, x: Node) {
    x.voteTerm <= x.term && CountHonest(c, net, n, x) && LeaderWon(c, net, n, x)
  }

  ghost predicate ElectionInv(c: Config, s: State) {
    && ValidConfig(c)
    && s.nodes.Keys == c.servers
    && VotesStand(s)
    && OneVotePerTerm(s.net)
    && forall n :: n in s.nodes ==> NodeInv(c, s.net, n, s.nodes[n])
  }

  /** What a step may do to the vote of the server that takes it. */
  ghost predicate VoteMoves(x: Node, y: Node) {
    && x.term <= y.term && x.voteTerm <= y.voteTerm <= y.term
    && (x.voteTerm == y.voteTerm ==> x.voteCand == y.voteCand || x.voteCand == None)
  }

  /** An answer granting a vote is sent only by the voter that has just stored it. */
  ghost predicate AnswersBacked(net: Net, net': Net, n: NodeId, y: Node) {
    && net.voteResps <= net'.voteResps
    && forall r :: r in net'.voteResps && r !in net.voteResps && r.granted ==>
         r.voter == n && r.term == r.reqTerm == y.voteTerm && y.voteCand == Some(r.cand)
  }

  ghost predicate ElectionStep(c: Config, s: State, s': State, n: NodeId) {
    && n in s.nodes && n in s'.nodes
    && s'.nodes == s.nodes[n := s'.nodes[n]]
    && VoteMoves(s.nodes[n], s'.nodes[n])
    && AnswersBacked(s.net, s'.net, n, s'.nodes[n])
    && CountHonest(c, s'.net, n, s'.nodes[n])
    && LeaderWon(c, s'.net, n, s'.nodes[n])
  }

  lemma GrantsGrow(c: Config, net: Net, net': Net, t: nat, cand: NodeId)
    requires net.voteResps <= net'.voteResps
    ensures Grants(c, net, t, cand) <= Grants(c, net', t, cand)
    ensures Won(c, net, t, cand) ==> Won(c, net', t, cand)
  {
    SubsetSize(Grants(c, net, t, cand), Grants(c, net', t, cand));
  }

  lemma CountKept(c: Config, net: Net, net': Net, n: NodeId, x: Node, y: Node)
    requires net.voteResps <= net'.voteResps
    requires CountHonest(c, net, n, x)
    requires y.role == Candidate && y.voting ==> x.role == Candidate && x.voting
    requires y.term == x.term && y.asked == x.asked && y.granted == x.granted
    ensures CountHonest(c, net', n, y)
  {
    if y.role == Candidate && y.voting {
      GrantsGrow(c, net, net', x.term, n);
      SubsetSize(Grants(c, net, x.term, n) - x.asked, Grants(c, net', x.term, n) - x.asked);
    }
  }

  lemma ElectionStepKeepsInv(c: Config, s: State, s': State, n: NodeId)
    requires ElectionInv(c, s) && ElectionStep(c, s, s', n)
    ensures ElectionInv(c, s')
  {
    forall m | m in s'.nodes ensures NodeInv(c, s'.net, m, s'.nodes[m]) {
      if m != n {
        CountKept(c, s.net, s'.net, m, s.nodes[m], s.nodes[m]);
        GrantsGrow(c, s.net, s'.net, s.nodes[m].term, m);
      }
    }
    forall r | r in s'.net.voteResps && r.granted
      ensures r.voter in s'.nodes && Stands(s'.nodes[r.voter], r)
    {
      if r in s.net.voteResps {
        assert r.voter in s.nodes && Stands(s.nodes[r.voter], r);
      }
    }
    forall r, r' | r in s'.net.voteResps && r' in s'.net.voteResps && r.granted && r'.granted
                   && r.voter == r'.voter && r.reqTerm == r'.reqTerm
      ensures r.cand == r'.cand
    {
      OneVote(s, s', n, r, r');
    }
  }

  lemma OneVote(s: State, s': State, n: NodeId, r: VoteResp, r': VoteResp)
    requires VotesStand(s) && OneVotePerTerm(s.net)
    requires n in s.nodes && n in s'.nodes
    requires VoteMoves(s.nodes[n], s'.nodes[n]) && AnswersBacked(s.net, s'.net, n, s'.nodes[n])
    requires r in s'.net.voteResps && r' in s'.net.voteResps && r.granted && r'.granted
    requires r.voter == r'.voter && r.reqTerm == r'.reqTerm
    ensures r.cand == r'.cand
  {
    if r in s.net.voteResps { assert Stands(s.nodes[r.voter], r); }
    if r' in s.net.voteResps { assert Stands(s.nodes[r'.voter], r'); }
  }

  // ---------------------------------------------------------------------
  // The steps
  // ---------------------------------------------------------------------

  /** Steps that leave the vote alone and start no election. */
  lemma QuietStep(c: Config, s: State, s': State, n: NodeId)
    requires ElectionInv(c, s) && n in s.nodes && n in s'.nodes
    requires s'.nodes == s.nodes[n := s'.nodes[n]] && s'.net.voteResps == s.net.voteResps
    requires s.nodes[n].term <= s'.nodes[n].term
    requires s'.nodes[n].voteTerm == s.nodes[n].voteTerm && s'.nodes[n].voteCand == s.nodes[n].voteCand
    requires s'.nodes[n].role == Leader ==> s.nodes[n].role == Leader && s'.nodes[n].term == s.nodes[n].term
    requires s'.nodes[n].role == Candidate && s'.nodes[n].voting ==>
      s.nodes[n].role == Candidate && s.nodes[n].voting && s'.nodes[n].term == s.nodes[n].term
      && s'.nodes[n].asked == s.nodes[n].asked && s'.nodes[n].granted == s.nodes[n].granted
    ensures ElectionStep(c, s, s', n)
  {
    var x, y := s.nodes[n], s'.nodes[n];
    assert NodeInv(c, s.net, n, x);
    assert Grants(c, s.net, x.term, n) == Grants(c, s'.net, x.term, n);
  }

  lemma ElectSelfStep(c: Config, s: State, s': State, n: NodeId)
    requires ElectionInv(c, s) && Moves(c, s, ElectSelf(n), s')
    ensures ElectionStep(c, s, s', n)
  {
    assert NodeInv(c, s.net, n, s.nodes[n]);
  }

  lemma ElectSelfCrashStep(c: Config, s: State, s': State, n: NodeId, wrote: bool)
    requires ElectionInv(c, s) && Moves(c, s, ElectSelfCrash(n, wrote), s')
    ensures ElectionStep(c, s, s', n)
  {
    assert NodeInv(c, s.net, n, s.nodes[n]);
  }

  /** A vote is stored before it is granted, and only with a term that is not older. */
  lemma VotedMoves(c: Config, n: NodeId, x: Node, q: VoteReq)
    requires x.voteTerm <= x.term
    ensures var y, r := Voted(c, x, q), VoteAnswer(c, n, x, q);
            VoteMoves(x, y) && (r.granted ==> r.voter == n && r.term == r.reqTerm == y.voteTerm && y.voteCand == Some(r.cand))
  {
  }

  lemma HandleVoteStep(c: Config, s: State, s': State, n: NodeId, q: VoteReq)
    requires ElectionInv(c, s) && Moves(c, s, HandleVote(n, q), s')
    ensures ElectionStep(c, s, s', n)
  {
    hide Grants, IsQuorum, Voted, VoteAnswer, VotesStand, OneVotePerTerm, VoteMoves;
    var x, y := s.nodes[n], s'.nodes[n];
    assert NodeInv(c, s.net, n, x);
    VotedFrame(c, x, q);
    VotedMoves(c, n, x, q);
    if y.term == x.term && y.role != Follower {
      CountKept(c, s.net, s'.net, n, x, y);
      GrantsGrow(c, s.net, s'.net, x.term, n);
    }
  }

  lemma HandleVoteTornStep(c: Config, s: State, s': State, n: NodeId, q: VoteReq)
    requires ElectionInv(c, s) && Moves(c, s, HandleVoteTorn(n, q), s')
    ensures ElectionStep(c, s, s', n)
  {
    assert NodeInv(c, s.net, n, s.nodes[n]);
  }

  /** One more vote is one more voter, and enough of them are a majority. */
  lemma TallyCounts(c: Config, net: Net, n: NodeId, x: Node, r: VoteResp)
    requires x.role == Candidate && x.voting && CountHonest(c, net, n, x) && r.voter in x.asked && r.term <= x.term
    requires r.granted ==> r == Grant(x.term, r.voter, n) && r in net.voteResps
    ensures var y := Tallied(c, n, x, r); CountHonest(c, net, n, y) && LeaderWon(c, net, n, y)
  {
    var all := Grants(c, net, x.term, n);
    var before, after := all - x.asked, all - (x.asked - {r.voter});
    if r.granted {
      assert after == before + {r.voter};
    } else {
      SubsetSize(before, after);
    }
    SubsetSize(after, all);
  }

  lemma TallyStep(c: Config, s: State, s': State, n: NodeId, r: VoteResp)
    requires ElectionInv(c, s) && Moves(c, s, Tally(n, r), s')
    ensures ElectionStep(c, s, s', n)
  {
    hide OneVotePerTerm, CountHonest, LeaderWon;
    var x := s.nodes[n];
    assert NodeInv(c, s.net, n, x);
    TalliedFrame(c, n, x, r);
    if r.term <= x.term {
      assert r.granted ==> Stands(s.nodes[r.voter], r);
      TallyCounts(c, s.net, n, x, r);
    } else {
      assert CountHonest(c, s.net, n, SteppedTo(x, r.term)) && LeaderWon(c, s.net, n, SteppedTo(x, r.term)) by {
        FollowerCounts(c, s.net, n, SteppedTo(x, r.term));
      }
    }
  }

  lemma FollowerCounts(c: Config, net: Net, n: NodeId, y: Node)
    requires y.role == Follower
    ensures CountHonest(c, net, n, y) && LeaderWon(c, net, n, y)
  {
  }

  /** Timeouts, stepping down, learning a term, restarting. */
  lemma RoleStep(c: Config, s: State, step: Step, s': State)
    requires ElectionInv(c, s) && Moves(c, s, step, s')
    requires step.HeartbeatTimeout? || step.ElectionTimeout? || step.TimeoutNow? || step.LearnTerm?
             || step.StepDown? || step.Restart?
    ensures ElectionStep(c, s, s', step.n)
  {
    QuietStep(c, s, s', step.n);
  }

  lemma LeaderStep(c: Config, s: State, step: Step, s': State)
    requires ElectionInv(c, s) && Moves(c, s, step, s')
    requires step.Dispatch? || step.SendAppend? || step.SendHeartbeat? || step.HandleAppendResp?
             || step.LeaderCommit? || step.LeaderApply?
    ensures ElectionStep(c, s, s', step.n)
  {
    QuietStep(c, s, s', step.n);
  }

  lemma HandleAppendStep(c: Config, s: State, s': State, n: NodeId, q: AppendReq)
    requires ElectionInv(c, s) && Moves(c, s, HandleAppend(n, q), s')
    ensures ElectionStep(c, s, s', n)
  {
    AppendedFrame(s.nodes[n], q);
    QuietStep(c, s, s', n);
  }

  lemma HandleAppendCrashStep(c: Config, s: State, s': State, n: NodeId, q: AppendReq, m: nat)
    requires ElectionInv(c, s) && Moves(c, s, HandleAppendCrash(n, q, m), s')
    ensures ElectionStep(c, s, s', n)
  {
    QuietStep(c, s, s', n);
  }

  lemma StepIsElectionStep(c: Config, s: State, step: Step, s': State)
    requires ElectionInv(c, s) && Moves(c, s, step, s')
    ensures ElectionStep(c, s, s', step.n)
  {
    hide Moves, ElectionInv, ElectionStep;
    match step {
      case ElectSelf(n) => ElectSelfStep(c, s, s', n);
      case ElectSelfCrash(n, w) => ElectSelfCrashStep(c, s, s', n, w);
      case HandleVote(n, q) => HandleVoteStep(c, s, s', n, q);
      case HandleVoteTorn(n, q) => HandleVoteTornStep(c, s, s', n, q);
      case Tally(n, r) => TallyStep(c, s, s', n, r);
      case HandleAppend(n, q) => HandleAppendStep(c, s, s', n, q);
      case HandleAppendCrash(n, q, m) => HandleAppendCrashStep(c, s, s', n, q, m);
      case Dispatch(_, _) => LeaderStep(c, s, step, s');
      case SendAppend(_, _, _, _, _) => LeaderStep(c, s, step, s');
      case SendHeartbeat(_, _) => LeaderStep(c, s, step, s');
      case HandleAppendResp(_, _) => LeaderStep(c, s, step, s');
      case LeaderCommit(_) => LeaderStep(c, s, step, s');
      case LeaderApply(_, _) => LeaderStep(c, s, step, s');
      case _ => RoleStep(c, s, step, s');
    }
  }

  /** Every step of the cluster keeps the invariant. */
  lemma StepKeepsElectionInv(c: Config, s: State, step: Step, s': State)
    requires ElectionInv(c, s) && Moves(c, s, step, s')
    ensures ElectionStep(c, s, s', step.n) && ElectionInv(c, s')
  {
    StepIsElectionStep(c, s, step, s');
    ElectionStepKeepsInv(c, s, s', step.n);
  }

  lemma InitElectionInv(c: Config, s: State)
    requires Init(c, s)
    ensures ElectionInv(c, s)
  {
  }

  lemma {:induction false} ElectionInvHolds(c: Config, r: Run, i: nat)
    requires ValidRun(c, r) && i < |r.states|
    ensures ElectionInv(c, r.states[i])
  {
    hide Moves, Init, ElectionInv;
    if i == 0 {
      InitElectionInv(c, r.states[0]);
    } else {
      ElectionInvHolds(c, r, i - 1);
      StepKeepsElectionInv(c, r.states[i - 1], r.steps[i - 1], r.states[i]);
    }
  }

  // ---------------------------------------------------------------------
  // The theorems
  // ---------------------------------------------------------------------

  lemma ServersStay(c: Config, r: Run, i: nat)
    requires ValidRun(c, r) && i < |r.states|
    ensures r.states[i].nodes.Keys == c.servers
  {
    ElectionInvHolds(c, r, i);
  }

  lemma StepRaisesTerms(c: Config, r: Run, i: nat, n: NodeId)
    requires ValidRun(c, r) && i < |r.steps| && n in c.servers
    ensures n in r.states[i].nodes && n in r.states[i + 1].nodes
    ensures r.states[i].nodes[n].term <= r.states[i + 1].nodes[n].term
    ensures r.states[i].net.voteResps <= r.states[i + 1].net.voteResps
  {
    ElectionInvHolds(c, r, i);
    StepIsElectionStep(c, r.states[i], r.steps[i], r.states[i + 1]);
  }

  /** Servers stay, terms never fall and answers stay in the network. */
  lemma {:induction false} TermsNeverFall(c: Config, r: Run, i: nat, j: nat, n: NodeId)
    requires ValidRun(c, r) && i <= j < |r.states| && n in c.servers
    ensures r.states[i].nodes.Keys == r.states[j].nodes.Keys == c.servers
    ensures r.states[i].nodes[n].term <= r.states[j].nodes[n].term
    ensures r.states[i].net.voteResps <= r.states[j].net.voteResps
  {
    hide Moves, Init;
    ServersStay(c, r, j);
    if i < j {
      TermsNeverFall(c, r, i, j - 1, n);
      StepRaisesTerms(c, r, j - 1, n);
    }
  }

  lemma OneWinner(c: Config, s: State, t: nat, a: NodeId, b: NodeId)
    requires ElectionInv(c, s) && Won(c, s.net, t, a) && Won(c, s.net, t, b)
    ensures a == b
  {
    var v := QuorumsMeet(c.voters, Grants(c, s.net, t, a), Grants(c, s.net, t, b));
    assert Grant(t, v, a) in s.net.voteResps && Grant(t, v, b) in s.net.voteResps;
  }

  /** A server never grants two candidates a vote in one term, whenever it answered. */
  lemma VoteOncePerTerm(c: Config, r: Run, i: nat, j: nat, a: VoteResp, b: VoteResp)
    requires ValidRun(c, r) && i < |r.states| && j < |r.states|
    requires a in r.states[i].net.voteResps && b in r.states[j].net.voteResps
    requires a.granted && b.granted && a.voter == b.voter && a.reqTerm == b.reqTerm
    ensures a.cand == b.cand
  {
    var k := if i <= j then j else i;
    var n :| n in c.voters;
    TermsNeverFall(c, r, i, k, n);
    TermsNeverFall(c, r, j, k, n);
    ElectionInvHolds(c, r, k);
  }

  /** Election safety: two leaders of the same term, at any two moments, are the same server. */
  lemma ElectionSafety(c: Config, r: Run, i: nat, j: nat, n: NodeId, m: NodeId)
    requires ValidRun(c, r) && i < |r.states| && j < |r.states|
    requires n in r.states[i].nodes && m in r.states[j].nodes
    requires r.states[i].nodes[n].role == Leader && r.states[j].nodes[m].role == Leader
    requires r.states[i].nodes[n].term == r.states[j].nodes[m].term
    ensures n == m
  {
    var k, t := if i <= j then j else i, r.states[i].nodes[n].term;
    ElectionInvHolds(c, r, i);
    ElectionInvHolds(c, r, j);
    ElectionInvHolds(c, r, k);
    TermsNeverFall(c, r, i, k, n);
    TermsNeverFall(c, r, j, k, m);
    assert NodeInv(c, r.states[i].net, n, r.states[i].nodes[n]);
    assert NodeInv(c, r.states[j].net, m, r.states[j].nodes[m]);
    GrantsGrow(c, r.states[i].net, r.states[k].net, t, n);
    GrantsGrow(c, r.states[j].net, r.states[k].net, t, m);
    OneWinner(c, r.states[k], t, n, m);
  }
}
