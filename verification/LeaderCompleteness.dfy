/**
 The invariant behind leader completeness (section 5.4 of the Raft paper), which
 ties the votes of a later leader to the acknowledgements of a committed entry.
 Every step keeps it unless a crash pairs a new vote term with another
 candidate's name; module Counterexamples shows a run where that breaks it.
 */
module LeaderCompleteness {
  import opened Wrappers
  import opened Quorums
  import opened Commitment
  import opened Cluster
  import opened Election
  import opened LogMatching
  import opened Acknowledgements
  import opened WitnessedCommits

  // ---------------------------------------------------------------------
  // The premise
  // ---------------------------------------------------------------------

  /** There is something a candidate with a bootstrapped log can be behind of. */
  predicate BeyondBoot(log: seq<Entry>) {
    |log| > 1 || LastTerm(log) > 1
  }

  /**
   A crash in `persistVote` for candidate `own` leaves the name of a third voter
   beside the new term, on a server whose log is more than the bootstrap entry.
   */
  predicate Endangered(c: Config, n: NodeId, x: Node, own: NodeId) {
    x.voteCand.Some? && x.voteCand.value !in {own, n} && x.voteCand.value in c.voters && BeyondBoot(x.log)
  }

  ghost predicate VoteWhole(c: Config, s: State, step: Step) {
    step.n in s.nodes &&
    match step
    case HandleVoteTorn(n, q) => !Endangered(c, n, s.nodes[n], q.cand)
    case ElectSelfCrash(n, wrote) => wrote && n in c.voters ==> !Endangered(c, n, s.nodes[n], n)
    case _ => true
  }

  ghost predicate WholeVotes(c: Config, r: Run) {
    forall i :: 0 <= i < |r.steps| && i < |r.states| ==> VoteWhole(c, r.states[i], r.steps[i])
  }

  // ---------------------------------------------------------------------
  // Votes
  // ---------------------------------------------------------------------

  /** A stored vote that a request could still bring out without a look at the log. */
  ghost predicate Pending(c: Config, h: History, x: Node, v: NodeId, t: nat, cand: NodeId) {
    && x.term == t && x.voteTerm == t && x.voteCand == Some(cand)
    && cand != v && cand in c.voters && BeyondBoot(x.log) && t !in h
  }

  ghost predicate HasVoted(c: Config, h: History, net: Net, x: Node, v: NodeId, t: nat, cand: NodeId) {
    Grant(t, v, cand) in net.voteResps || Pending(c, h, x, v, t, cand)
  }

  /** The log a vote request speaks about is a prefix of the log of the leader of its last term. */
  ghost predicate VoteReqOk(nodes: map<NodeId, Node>, h: History, q: VoteReq) {
    && q.cand in nodes && nodes[q.cand].term >= q.term
    && q.lastTerm in h && q.lastTerm < q.term
    && h[q.lastTerm].base < q.lastIndex <= |h[q.lastTerm].log|
  }

  ghost predicate OneRequest(net: Net) {
    forall q, q' :: q in net.voteReqs && q' in net.voteReqs && q.term == q'.term && q.cand == q'.cand ==> q == q'
  }

  ghost predicate VotesKnown(c: Config, s: State, h: History) {
    forall v, t, cand :: v in s.nodes && HasVoted(c, h, s.net, s.nodes[v], v, t, cand) ==>
      cand in s.nodes && s.nodes[cand].term >= t
  }

  ghost predicate Running(x: Node) {
    x.role == Candidate && x.voting && x.asked != {}
  }

  ghost predicate Speaks(q: VoteReq, n: NodeId, x: Node) {
    q.term == x.term && q.cand == n && q.lastIndex == |x.log| && q.lastTerm == LastTerm(x.log)
  }

  /** A running candidate still has the log it asked for votes with, unless its term is already led. */
  ghost predicate CandidateOk(net: Net, h: History, n: NodeId, x: Node) {
    Running(x) ==> x.term in h || exists q :: q in net.voteReqs && Speaks(q, n, x)
  }

  ghost predicate Origin(h: History, t: nat, q: VoteReq)
    requires t in h
  {
    && q.term == t && h[t].leader == Some(q.cand) && q.lastIndex == h[t].base
    && q.lastTerm in h && Agree(h[t].log, h[q.lastTerm].log, h[t].base)
  }

  ghost predicate ElectedOk(c: Config, net: Net, h: History, t: nat)
    requires t in h
  {
    t != 1 ==>
      && h[t].leader.Some?
      && h[t].electors <= Grants(c, net, t, h[t].leader.value)
      && IsQuorum(h[t].electors, c.voters)
      && exists q :: q in net.voteReqs && Origin(h, t, q)
  }

  ghost predicate ReqHas(h: History, q: VoteReq, t: nat, k: nat) {
    && q.lastTerm in h && t in h
    && k <= q.lastIndex <= |h[q.lastTerm].log| && Agree(h[q.lastTerm].log, h[t].log, k)
  }

  ghost predicate VoteSafe(h: History, q: VoteReq, t: nat, k: nat) {
    ReqHas(h, q, t, k) || (q.term > 0 && Lost(h, t, k, q.term - 1))
  }

  /** The vote counts: nobody leads its term yet, or it is one of those that made the leader. */
  ghost predicate Counts(h: History, v: NodeId, t: nat) {
    t !in h || v in h[t].electors
  }

  /**
   A voter gives its vote only to a candidate whose log has what the voter
   acknowledged, unless an earlier leader has already gone without it.
   */
  ghost predicate VotesSafe(c: Config, s: State, h: History) {
    forall v: NodeId, q: VoteReq, t: nat, k: nat | v in s.nodes && q in s.net.voteReqs && Acked(s.net, h, v, t, k)
      :: HasVoted(c, h, s.net, s.nodes[v], v, q.term, q.cand) && Counts(h, v, q.term) && t < q.term && k > h[t].base
         ==> VoteSafe(h, q, t, k)
  }

  ghost predicate VoteInv(c: Config, s: State, h: History) {
    && AckInv(c, s, h)
    && (forall q :: q in s.net.voteReqs ==> VoteReqOk(s.nodes, h, q))
    && OneRequest(s.net)
    && VotesKnown(c, s, h)
    && (forall n :: n in s.nodes ==> CandidateOk(s.net, h, n, s.nodes[n]))
    && (forall t {:trigger ElectedOk(c, s.net, h, t)} :: t in h ==> ElectedOk(c, s.net, h, t))
    && VotesSafe(c, s, h)
  }

  // ---------------------------------------------------------------------
  // The theorem for one state
  // ---------------------------------------------------------------------

  lemma OriginHas(h: History, u: nat, q: VoteReq, t: nat, k: nat)
    requires ReignsOk(h) && u in h && Origin(h, u, q) && ReqHas(h, q, t, k)
    ensures Has(h, u, t, k)
  {
    AgreeLess(h[u].log, h[q.lastTerm].log, h[u].base, k);
  }

  /** One of the votes that made a later leader came from a server that had acknowledged the entries. */
  lemma SharedVoter(c: Config, s: State, h: History, t: nat, k: nat, u: nat) returns (q: VoteReq)
    requires VoteInv(c, s, h) && Committed(c, s.net, h, t, k) && u in h && t < u
    ensures u > 1 && Origin(h, u, q) && VoteSafe(h, q, t, k)
  {
    hide AckInv, Acked, VoteReqOk, OneRequest, VotesKnown, CandidateOk, VoteSafe, IsQuorum, Agree;
    ReignsPart(c, s, h);
    assert ElectedOk(c, s.net, h, u);
    q :| q in s.net.voteReqs && Origin(h, u, q);
    var v := QuorumsMeet(c.voters, h[u].electors, Ackers(c, s.net, h, t, k));
    assert v in Grants(c, s.net, u, q.cand);
    assert HasVoted(c, h, s.net, s.nodes[v], v, q.term, q.cand);
  }

  /** Every later leader began with everything committed. */
  lemma {:induction false} CommittedIsHad(c: Config, s: State, h: History, t: nat, k: nat, u: nat)
    requires VoteInv(c, s, h) && Committed(c, s.net, h, t, k) && u in h && t < u
    ensures Has(h, u, t, k)
    decreases u
  {
    hide VoteInv, Committed, Has, Origin, ReqHas, AckInv;
    var q := SharedVoter(c, s, h, t, k, u);
    CommittedInside(c, s, h, t, k);
    if ReqHas(h, q, t, k) {
      OriginHas(h, u, q, t, k);
    } else {
      OriginTerm(h, u, q);
      var w :| t < w <= q.term - 1 && w in h && !Has(h, w, t, k);
      CommittedIsHad(c, s, h, t, k, w);
    }
  }

  lemma CommittedInside(c: Config, s: State, h: History, t: nat, k: nat)
    requires VoteInv(c, s, h) && Committed(c, s.net, h, t, k)
    ensures ReignsOk(h) && t in h && h[t].base < k <= |h[t].log|
  {
    ReignsPart(c, s, h);
  }

  lemma OriginTerm(h: History, u: nat, q: VoteReq)
    requires u in h && Origin(h, u, q)
    ensures q.term == u
  {
  }

  lemma ReignsPart(c: Config, s: State, h: History)
    requires AckInv(c, s, h)
    ensures ReignsOk(h) && c.voters <= s.nodes.Keys && (forall t :: t in h ==> t >= 1)
  {
    forall t | t in h ensures t >= 1 { assert ReignOk(h, t); }
  }

  // ---------------------------------------------------------------------
  // The vote check
  // ---------------------------------------------------------------------

  /** The comparison in `requestVote` does its work. */
  lemma VoteCheck(h: History, x: Node, q: VoteReq, t: nat, k: nat)
    requires ReignsOk(h) && AllBacked(h, x.log)
    requires q.lastTerm in h && q.lastTerm < q.term && h[q.lastTerm].base < q.lastIndex <= |h[q.lastTerm].log|
    requires UpToDate(q.lastIndex, q.lastTerm, x.log)
    requires t in h && h[t].base < k <= |h[t].log| && t < q.term && AckKept(h, x, t, k)
    requires x.term <= q.term && q.term !in h
    ensures VoteSafe(h, q, t, k)
  {
    if Agree(x.log, h[t].log, k) {
      assert ReignOk(h, t);
      AgreeAt(x.log, h[t].log, k, k - 1);
      TermsRise(h, x.log, k - 1, |x.log| - 1);
      if q.lastTerm != t {
        if Has(h, q.lastTerm, t, k) {
          assert ReqHas(h, q, t, k);
        } else {
          assert Lost(h, t, k, q.term - 1);
        }
      }
    } else {
      var u :| t < u <= x.term && u in h && !Has(h, u, t, k);
      assert u <= q.term - 1;
    }
  }

  lemma VoteSafeGrown(h: History, h': History, q: VoteReq, t: nat, k: nat)
    requires ReignsOk(h) && Grows(h, h') && VoteSafe(h, q, t, k) && t in h && k <= |h[t].log|
    ensures VoteSafe(h', q, t, k)
  {
    if ReqHas(h, q, t, k) {
      AgreeGrown(h[q.lastTerm].log, h[t].log, h'[t].log, k);
      assert h'[q.lastTerm].log[..k] == h[q.lastTerm].log[..k];
    } else {
      LostGrown(h, h', t, k, q.term - 1, q.term - 1);
    }
  }

  // ---------------------------------------------------------------------
  // The invariant is kept
  // ---------------------------------------------------------------------

  /** A vote given in a step: the request was checked against the log of the voter, or it comes too late to count. */
  ghost predicate JustVoted(h: History, net: Net, x: Node, y: Node, t: nat, cand: NodeId) {
    && x.term <= t == y.term
    && exists q :: q in net.voteReqs && q.term == t && q.cand == cand && (t in h || UpToDate(q.lastIndex, q.lastTerm, x.log))
  }

  /** What a step may do to votes. */
  ghost predicate VoteStep(c: Config, s: State, h: History, s': State, h': History, n: NodeId) {
    && ElectionStep(c, s, s', n)
    && AckStep(c, s, h, s', h', n)
    && s.net.voteReqs <= s'.net.voteReqs
    && (forall q :: q in s'.net.voteReqs && q !in s.net.voteReqs ==>
          q.cand == n && q.term == s'.nodes[n].term > s.nodes[n].term && VoteReqOk(s'.nodes, h', q))
    && (forall q, q' :: q in s'.net.voteReqs && q' in s'.net.voteReqs && q !in s.net.voteReqs && q' !in s.net.voteReqs ==> q == q')
    && (forall t, cand :: HasVoted(c, h', s'.net, s'.nodes[n], n, t, cand) && !HasVoted(c, h, s.net, s.nodes[n], n, t, cand) ==>
          h' == h && JustVoted(h, s'.net, s.nodes[n], s'.nodes[n], t, cand))
    && CandidateOk(s'.net, h', n, s'.nodes[n])
    && (forall t {:trigger ElectedOk(c, s'.net, h', t)} :: t in h' && t !in h ==> ElectedOk(c, s'.net, h', t))
  }

  lemma RequestsKept(c: Config, s: State, h: History, s': State, h': History, n: NodeId)
    requires VoteInv(c, s, h) && VoteStep(c, s, h, s', h', n)
    ensures forall q :: q in s'.net.voteReqs ==> VoteReqOk(s'.nodes, h', q)
    ensures OneRequest(s'.net)
  {
    hide AckInv, VotesKnown, CandidateOk, VotesSafe, ElectedOk, HasVoted, JustVoted;
    forall q | q in s'.net.voteReqs ensures VoteReqOk(s'.nodes, h', q) {
      if q in s.net.voteReqs { assert VoteReqOk(s.nodes, h, q); }
    }
    forall q, q' | q in s'.net.voteReqs && q' in s'.net.voteReqs && q.term == q'.term && q.cand == q'.cand
      ensures q == q'
    {
      if q in s.net.voteReqs { assert VoteReqOk(s.nodes, h, q); }
      if q' in s.net.voteReqs { assert VoteReqOk(s.nodes, h, q'); }
    }
  }

  lemma CandidatesKept(c: Config, s: State, h: History, s': State, h': History, n: NodeId)
    requires VoteInv(c, s, h) && VoteStep(c, s, h, s', h', n)
    ensures forall m :: m in s'.nodes ==> CandidateOk(s'.net, h', m, s'.nodes[m])
  {
    hide AckInv, VotesKnown, VotesSafe, ElectedOk, HasVoted, JustVoted, VoteReqOk, OneRequest, Speaks;
    forall m | m in s'.nodes ensures CandidateOk(s'.net, h', m, s'.nodes[m]) {
      if m != n { assert CandidateOk(s.net, h, m, s.nodes[m]); }
    }
  }

  lemma ElectedKept(c: Config, s: State, h: History, s': State, h': History, n: NodeId, t: nat)
    requires VoteInv(c, s, h) && VoteStep(c, s, h, s', h', n) && t in h'
    ensures ElectedOk(c, s'.net, h', t)
  {
    hide VotesKnown, VotesSafe, HasVoted, JustVoted, VoteReqOk, OneRequest, CandidateOk, IsQuorum, LogInv;
    if t in h {
      assert ElectedOk(c, s.net, h, t);
      if t != 1 {
        GrantsGrow(c, s.net, s'.net, t, h[t].leader.value);
        var q :| q in s.net.voteReqs && Origin(h, t, q);
        ReignsPart(c, s, h);
        OriginGrown(h, h', t, q);
      }
    }
  }

  lemma OriginGrown(h: History, h': History, t: nat, q: VoteReq)
    requires ReignsOk(h) && Grows(h, h') && t in h && Origin(h, t, q)
    ensures Origin(h', t, q)
  {
    AgreeGrown(h[t].log, h[q.lastTerm].log, h'[q.lastTerm].log, h[t].base);
    assert h'[t].log[..h[t].base] == h[t].log[..h[t].base];
  }

  /** Votes of servers other than the one that acts are old. */
  lemma OthersVoted(c: Config, s: State, h: History, s': State, h': History, n: NodeId, v: NodeId, t: nat, cand: NodeId)
    requires Grows(h, h') && ElectionStep(c, s, s', n) && v != n && v in s'.nodes && HasVoted(c, h', s'.net, s'.nodes[v], v, t, cand)
    ensures v in s.nodes && HasVoted(c, h, s.net, s.nodes[v], v, t, cand)
  {
  }

  lemma VotesStillKnown(c: Config, s: State, h: History, s': State, h': History, n: NodeId)
    requires VoteInv(c, s, h) && VoteStep(c, s, h, s', h', n)
    ensures VotesKnown(c, s', h')
  {
    hide AckInv, VotesSafe, ElectedOk, CandidateOk, HasVoted;
    forall v, t, cand | v in s'.nodes && HasVoted(c, h', s'.net, s'.nodes[v], v, t, cand)
      ensures cand in s'.nodes && s'.nodes[cand].term >= t
    {
      if v != n { OthersVoted(c, s, h, s', h', n, v, t, cand); }
      if HasVoted(c, h, s.net, s.nodes[v], v, t, cand) {
        assert cand in s.nodes && s.nodes[cand].term >= t;
      } else {
        RequestsKept(c, s, h, s', h', n);
        var q :| q in s'.net.voteReqs && q.term == t && q.cand == cand && (t in h || UpToDate(q.lastIndex, q.lastTerm, s.nodes[n].log));
        assert VoteReqOk(s'.nodes, h', q);
      }
    }
  }

  /** A vote never belongs to a term the voter has not reached. */
  lemma VoteTermReached(c: Config, s: State, h: History, v: NodeId, t: nat, cand: NodeId)
    requires ElectionInv(c, s) && v in s.nodes && HasVoted(c, h, s.net, s.nodes[v], v, t, cand)
    ensures t <= s.nodes[v].voteTerm <= s.nodes[v].term
  {
    hide Won, CountHonest;
    assert NodeInv(c, s.net, v, s.nodes[v]);
    if Grant(t, v, cand) in s.net.voteResps {
      assert Stands(s.nodes[v], Grant(t, v, cand));
    }
  }

  /** Nobody votes twice in a term, so a new vote is not one of those that made the leader of the term. */
  lemma NewVoteIsLate(c: Config, s: State, h: History, s': State, n: NodeId, t: nat, cand: NodeId)
    requires VoteInv(c, s, h) && ElectionInv(c, s') && ElectionStep(c, s, s', n)
    requires HasVoted(c, h, s'.net, s'.nodes[n], n, t, cand) && !HasVoted(c, h, s.net, s.nodes[n], n, t, cand)
    requires t == s'.nodes[n].term && t in h && t != 1
    ensures n !in h[t].electors
  {
    hide AckInv, VotesSafe, CandidateOk, VoteReqOk, VotesKnown, OneRequest, NodeInv, IsQuorum;
    assert ElectedOk(c, s.net, h, t);
    VoteTermsReached(c, s', n);
  }

  lemma VoteTermsReached(c: Config, s: State, n: NodeId)
    requires ElectionInv(c, s) && n in s.nodes
    ensures s.nodes[n].voteTerm <= s.nodes[n].term
  {
    assert NodeInv(c, s.net, n, s.nodes[n]);
  }

  lemma NewVoteSafe(c: Config, s: State, h: History, s': State, n: NodeId, q: VoteReq, t: nat, k: nat)
    requires VoteInv(c, s, h) && ElectionInv(c, s') && VoteStep(c, s, h, s', h, n)
    requires q in s'.net.voteReqs && Acked(s.net, h, n, t, k) && t < q.term && k > h[t].base
    requires HasVoted(c, h, s'.net, s'.nodes[n], n, q.term, q.cand) && !HasVoted(c, h, s.net, s.nodes[n], n, q.term, q.cand)
    requires Counts(h, n, q.term)
    ensures VoteSafe(h, q, t, k)
  {
    hide VotesSafe, CandidateOk, VotesKnown, ElectedOk, HasVoted, VoteSafe, ElectionInv, Acked, AckKept, VoteMoves, AckStep, UpToDate;
    var x := s.nodes[n];
    RequestsKept(c, s, h, s', h, n);
    assert JustVoted(h, s'.net, x, s'.nodes[n], q.term, q.cand);
    var q' :| q' in s'.net.voteReqs && q'.term == q.term && q'.cand == q.cand && (q.term in h || UpToDate(q'.lastIndex, q'.lastTerm, x.log));
    assert q' == q && VoteReqOk(s'.nodes, h, q);
    ReignsPart(c, s, h);
    AckedBound(s.net, h, n, t, k);
    if q.term in h {
      NewVoteIsLate(c, s, h, s', n, q.term, q.cand);
    }
    assert AckKept(h, x, t, k) && NodeLogOk(h, n, x);
    VoteCheck(h, x, q, t, k);
  }

  lemma OldVoteSafe(c: Config, s: State, h: History, s': State, h': History, n: NodeId, v: NodeId, q: VoteReq, t: nat, k: nat)
    requires VoteInv(c, s, h) && VoteStep(c, s, h, s', h', n)
    requires v in s.nodes && q in s'.net.voteReqs && Acked(s.net, h, v, t, k) && t < q.term && k > h[t].base
    requires HasVoted(c, h, s.net, s.nodes[v], v, q.term, q.cand) && Counts(h', v, q.term)
    ensures VoteSafe(h', q, t, k)
  {
    hide CandidateOk, ElectedOk, HasVoted, VoteSafe, ElectionInv, LogInv, Acked, AckKept, VoteReqOk, OneRequest, JustVoted, ElectionStep;
    assert s.nodes[q.cand].term >= q.term;
    assert q in s.net.voteReqs;
    assert Counts(h, v, q.term);
    assert VoteSafe(h, q, t, k);
    ReignsPart(c, s, h);
    AckedBound(s.net, h, v, t, k);
    VoteSafeGrown(h, h', q, t, k);
  }

  lemma VotesStaySafe(c: Config, s: State, h: History, s': State, h': History, n: NodeId)
    requires VoteInv(c, s, h) && AckInv(c, s', h') && VoteStep(c, s, h, s', h', n)
    ensures VotesSafe(c, s', h')
  {
    hide VoteInv, HasVoted, VoteSafe, AckInv, VoteStep;
    forall v: NodeId, q: VoteReq, t: nat, k: nat | v in s'.nodes && q in s'.net.voteReqs && Acked(s'.net, h', v, t, k)
      && HasVoted(c, h', s'.net, s'.nodes[v], v, q.term, q.cand) && Counts(h', v, q.term) && t < q.term && k > h'[t].base
      ensures VoteSafe(h', q, t, k)
    {
      VoteSafeNow(c, s, h, s', h', n, v, q, t, k);
    }
  }

  lemma VoteSafeNow(c: Config, s: State, h: History, s': State, h': History, n: NodeId, v: NodeId, q: VoteReq, t: nat, k: nat)
    requires VoteInv(c, s, h) && AckInv(c, s', h') && VoteStep(c, s, h, s', h', n)
    requires v in s'.nodes && q in s'.net.voteReqs && Acked(s'.net, h', v, t, k)
    requires HasVoted(c, h', s'.net, s'.nodes[v], v, q.term, q.cand) && Counts(h', v, q.term) && t < q.term && k > h'[t].base
    ensures VoteSafe(h', q, t, k)
  {
    hide VotesSafe, ElectedOk, CandidateOk, VotesKnown, HasVoted, VoteSafe, LogInv, Acked, AckKept, VoteReqOk, OneRequest, Agree;
    ReignsPart(c, s', h');
    ElectionPart(c, s', h');
    VoteTermReached(c, s', h', v, q.term, q.cand);
    AckOrigin(c, s, h, s', h', n, v, t, k);
    assert Acked(s.net, h, v, t, k);
    AckedBound(s.net, h, v, t, k);
    if v != n { OthersVoted(c, s, h, s', h', n, v, q.term, q.cand); }
    if HasVoted(c, h, s.net, s.nodes[v], v, q.term, q.cand) {
      OldVoteSafe(c, s, h, s', h', n, v, q, t, k);
    } else {
      NewVoteSafe(c, s, h, s', n, q, t, k);
    }
  }

  lemma VoteStepKeepsInv(c: Config, s: State, h: History, s': State, h': History, n: NodeId)
    requires VoteInv(c, s, h) && AckInv(c, s', h') && VoteStep(c, s, h, s', h', n)
    ensures VoteInv(c, s', h')
  {
    hide VoteStep, AckInv, VotesSafe, VotesKnown, ElectedOk, CandidateOk, VoteReqOk, OneRequest;
    RequestsKept(c, s, h, s', h', n);
    CandidatesKept(c, s, h, s', h', n);
    VotesStillKnown(c, s, h, s', h', n);
    VotesStaySafe(c, s, h, s', h', n);
    forall t | t in h' ensures ElectedOk(c, s'.net, h', t) {
      ElectedKept(c, s, h, s', h', n, t);
    }
  }

  // ---------------------------------------------------------------------
  // The steps
  // ---------------------------------------------------------------------

  /** A step that does not store a vote makes none pending: a log only changes in a term that is led. */
  lemma PendingKept(c: Config, s: State, h: History, s': State, h': History, n: NodeId, t: nat, cand: NodeId)
    requires AckStep(c, s, h, s', h', n) && s.nodes[n].voteTerm <= s.nodes[n].term
    requires s'.nodes[n].voteTerm == s.nodes[n].voteTerm && s'.nodes[n].voteCand == s.nodes[n].voteCand
    requires Pending(c, h', s'.nodes[n], n, t, cand)
    ensures Pending(c, h, s.nodes[n], n, t, cand)
  {
    hide OwnLog, NewAnswer, LogMoves, OnlyOwn;
  }

  lemma QuietPending(c: Config, s: State, h: History, s': State, h': History, n: NodeId)
    requires AckStep(c, s, h, s', h', n) && s.nodes[n].voteTerm <= s.nodes[n].term
    requires s'.nodes[n].voteTerm == s.nodes[n].voteTerm && s'.nodes[n].voteCand == s.nodes[n].voteCand
    ensures forall t, cand :: Pending(c, h', s'.nodes[n], n, t, cand) ==> Pending(c, h, s.nodes[n], n, t, cand)
  {
    hide Pending, OwnLog, NewAnswer, LogFollows, OnlyOwn, Grows;
    forall t, cand | Pending(c, h', s'.nodes[n], n, t, cand) ensures Pending(c, h, s.nodes[n], n, t, cand) {
      PendingKept(c, s, h, s', h', n, t, cand);
    }
  }

  /** The own vote request describes a log made of leaders' logs. */
  lemma OwnRequestOk(h: History, n: NodeId, x: Node)
    requires ReignsOk(h) && NodeLogOk(h, n, x) && |x.log| > 0
    ensures var q := OwnRequest(n, x);
            && q.lastTerm in h && q.lastTerm < q.term && h[q.lastTerm].base < q.lastIndex <= |h[q.lastTerm].log|
            && Agree(x.log, h[q.lastTerm].log, |x.log|)
  {
    var i := |x.log| - 1;
    assert Backed(h, x.log, i);
    AgreeAt(x.log, h[x.log[i].term].log, i + 1, i);
    assert ReignOk(h, x.log[i].term);
  }

  lemma NodePart(c: Config, s: State, h: History, n: NodeId)
    requires VoteInv(c, s, h) && n in s.nodes
    ensures ReignsOk(h) && NodeLogOk(h, n, s.nodes[n]) && CandidateOk(s.net, h, n, s.nodes[n])
    ensures ElectionInv(c, s) && AckInv(c, s, h) && s.nodes[n].voteTerm <= s.nodes[n].term
  {
    assert NodeLogOk(h, n, s.nodes[n]);
    VoteTermsReached(c, s, n);
  }

  /** A vote that is granted again was pending, or its request passes the check, or it comes too late to count. */
  lemma RepeatedVote(c: Config, h: History, n: NodeId, x: Node, q: VoteReq)
    requires Judge(c, x, q) == Repeated(true) && x.voteTerm <= x.term && n != q.cand
    requires q.lastIndex >= 1 && q.lastTerm >= 1
    ensures x.term == q.term && (Pending(c, h, x, n, q.term, q.cand) || q.term in h || UpToDate(q.lastIndex, q.lastTerm, x.log))
  {
  }

  lemma RequestReal(c: Config, s: State, h: History, q: VoteReq)
    requires VoteInv(c, s, h) && q in s.net.voteReqs
    ensures q.lastIndex >= 1 && q.lastTerm >= 1
  {
    hide VotesKnown, VotesSafe, ElectedOk, CandidateOk, OneRequest;
    assert VoteReqOk(s.nodes, h, q);
    ReignsPart(c, s, h);
  }

  lemma HandleVoteNew(c: Config, s: State, h: History, s': State, n: NodeId, q: VoteReq, t: nat, cand: NodeId)
    requires VoteInv(c, s, h) && Moves(c, s, HandleVote(n, q), s')
    requires HasVoted(c, h, s'.net, s'.nodes[n], n, t, cand) && !HasVoted(c, h, s.net, s.nodes[n], n, t, cand)
    ensures JustVoted(h, s'.net, s.nodes[n], s'.nodes[n], t, cand)
  {
    hide VoteInv, AckInv, ElectionInv, NodeLogOk, ReignsOk, CandidateOk, UpToDate;
    NodePart(c, s, h, n);
    RequestReal(c, s, h, q);
    if Judge(c, s.nodes[n], q) == Repeated(true) { RepeatedVote(c, h, n, s.nodes[n], q); }
  }

  lemma HandleVoteVotes(c: Config, s: State, h: History, s': State, n: NodeId, q: VoteReq)
    requires VoteInv(c, s, h) && Moves(c, s, HandleVote(n, q), s')
    requires ElectionStep(c, s, s', n) && AckStep(c, s, h, s', h, n)
    ensures VoteStep(c, s, h, s', h, n)
  {
    hide VoteInv, ElectionStep, AckStep, AckInv, ElectionInv, NodeLogOk, ReignsOk, UpToDate, HasVoted, JustVoted, VoteAnswer, Judge;
    NodePart(c, s, h, n);
    VotedFrame(c, s.nodes[n], q);
    forall t, cand | HasVoted(c, h, s'.net, s'.nodes[n], n, t, cand) && !HasVoted(c, h, s.net, s.nodes[n], n, t, cand)
      ensures JustVoted(h, s'.net, s.nodes[n], s'.nodes[n], t, cand)
    {
      HandleVoteNew(c, s, h, s', n, q, t, cand);
    }
  }

  lemma HandleVoteTornVotes(c: Config, s: State, h: History, s': State, n: NodeId, q: VoteReq)
    requires VoteInv(c, s, h) && Moves(c, s, HandleVoteTorn(n, q), s') && VoteWhole(c, s, HandleVoteTorn(n, q))
    requires ElectionStep(c, s, s', n) && AckStep(c, s, h, s', h, n)
    ensures VoteStep(c, s, h, s', h, n)
  {
    hide VoteInv, ElectionStep, AckStep, UpToDate;
  }

  lemma ElectSelfVotes(c: Config, s: State, h: History, s': State, n: NodeId)
    requires VoteInv(c, s, h) && Moves(c, s, ElectSelf(n), s')
    requires ElectionStep(c, s, s', n) && AckStep(c, s, h, s', h, n)
    ensures VoteStep(c, s, h, s', h, n)
  {
    hide VoteInv, ElectionStep, AckStep, AckInv, ElectionInv, NodeLogOk, ReignsOk;
    var x := s.nodes[n];
    NodePart(c, s, h, n);
    if |x.log| > 0 {
      OwnRequestOk(h, n, x);
      assert OwnRequest(n, x) in s'.net.voteReqs;
    }
  }

  lemma ElectSelfCrashVotes(c: Config, s: State, h: History, s': State, n: NodeId, wrote: bool)
    requires VoteInv(c, s, h) && Moves(c, s, ElectSelfCrash(n, wrote), s') && VoteWhole(c, s, ElectSelfCrash(n, wrote))
    requires ElectionStep(c, s, s', n) && AckStep(c, s, h, s', h, n)
    ensures VoteStep(c, s, h, s', h, n)
  {
    hide VoteInv, ElectionStep, AckStep, AckInv, ElectionInv, NodeLogOk, ReignsOk;
    NodePart(c, s, h, n);
    OwnRequestOk(h, n, s.nodes[n]);
    assert OwnRequest(n, s.nodes[n]) in s'.net.voteReqs;
  }

  lemma CrownElected(c: Config, s: State, h: History, n: NodeId, y: Node)
    requires VoteInv(c, s, h) && n in s.nodes && Running(s.nodes[n]) && Won(c, s.net, y.term, n)
    requires y.log == s.nodes[n].log && y.term == s.nodes[n].term && y.term !in h
    ensures ElectedOk(c, s.net, h[y.term := Elected(c, s.net, n, y)], y.term)
  {
    hide VotesSafe, VotesKnown, OneRequest, AckInv, ElectedOk, NodeLogOk, ReignsOk, Grants;
    var x := s.nodes[n];
    var h' := h[y.term := Elected(c, s.net, n, y)];
    NodePart(c, s, h, n);
    var q :| q in s.net.voteReqs && Speaks(q, n, x);
    assert VoteReqOk(s.nodes, h, q);
    OwnRequestOk(h, n, x);
    assert Origin(h', y.term, q);
    assert ElectedOk(c, s.net, h', y.term) by { ElectedNow(c, s.net, h', y.term, q); }
  }

  lemma ElectedNow(c: Config, net: Net, h: History, t: nat, q: VoteReq)
    requires t in h && h[t].leader.Some? && h[t].electors == Grants(c, net, t, h[t].leader.value)
    requires Won(c, net, t, h[t].leader.value) && q in net.voteReqs && Origin(h, t, q)
    ensures ElectedOk(c, net, h, t)
  {
  }

  lemma TallyVotes(c: Config, s: State, h: History, s': State, n: NodeId, r: VoteResp)
    requires VoteInv(c, s, h) && Moves(c, s, Tally(n, r), s')
    requires ElectionStep(c, s, s', n) && AckStep(c, s, h, s', NextHistory(c, s, h, Tally(n, r)), n)
    ensures VoteStep(c, s, h, s', NextHistory(c, s, h, Tally(n, r)), n)
  {
    hide VoteInv, AckStep, AckInv, ElectionInv, NodeLogOk, ReignsOk, Tallied, ElectedOk, Won;
    var x, y := s.nodes[n], s'.nodes[n];
    NodePart(c, s, h, n);
    TalliedFrame(c, n, x, r);
    assert Running(x);
    if y.role == Leader {
      if y.term !in h {
        CrownElected(c, s, h, n, y);
      }
    }
  }

  lemma HandleAppendVotes(c: Config, s: State, h: History, s': State, n: NodeId, q: AppendReq)
    requires VoteInv(c, s, h) && Moves(c, s, HandleAppend(n, q), s')
    requires ElectionStep(c, s, s', n) && AckStep(c, s, h, s', h, n)
    ensures VoteStep(c, s, h, s', h, n)
  {
    hide VoteInv, ElectionStep, AckStep, AckInv, ElectionInv, NodeLogOk, ReignsOk, Merge;
    NodePart(c, s, h, n);
    AppendedFrame(s.nodes[n], q);
    RequestTerm(c, s, h, q);
  }

  lemma RequestTerm(c: Config, s: State, h: History, q: AppendReq)
    requires VoteInv(c, s, h) && q in s.net.appReqs
    ensures q.term in h
  {
    assert ReqOk(h, q);
  }

  lemma QuietVotes(c: Config, s: State, h: History, step: Step, s': State)
    requires VoteInv(c, s, h) && Moves(c, s, step, s')
    requires !step.HandleVote? && !step.HandleVoteTorn? && !step.ElectSelf? && !step.ElectSelfCrash? && !step.Tally? && !step.HandleAppend?
    requires ElectionStep(c, s, s', step.n) && AckStep(c, s, h, s', NextHistory(c, s, h, step), step.n)
    ensures VoteStep(c, s, h, s', NextHistory(c, s, h, step), step.n)
  {
    hide VoteInv, ElectionStep, AckStep, AckInv, ElectionInv, NodeLogOk, ReignsOk, StoredPart, Reported, Pending;
    NodePart(c, s, h, step.n);
    QuietPending(c, s, h, s', NextHistory(c, s, h, step), step.n);
  }

  lemma StepKeepsVoteInv(c: Config, s: State, h: History, step: Step, s': State)
    requires VoteInv(c, s, h) && Moves(c, s, step, s') && VoteWhole(c, s, step)
    ensures VoteInv(c, s', NextHistory(c, s, h, step))
  {
    hide VoteInv, AckInv, ElectionInv, ElectionStep, AckStep, VoteStep, NextNode, NextNet, Enabled;
    NodePart(c, s, h, step.n);
    StepIsElectionStep(c, s, step, s');
    StepKeepsAckInv(c, s, h, step, s');
    match step {
      case HandleVote(n, q) => HandleVoteVotes(c, s, h, s', n, q);
      case HandleVoteTorn(n, q) => HandleVoteTornVotes(c, s, h, s', n, q);
      case ElectSelf(n) => ElectSelfVotes(c, s, h, s', n);
      case ElectSelfCrash(n, w) => ElectSelfCrashVotes(c, s, h, s', n, w);
      case Tally(n, r) => TallyVotes(c, s, h, s', n, r);
      case HandleAppend(n, q) => HandleAppendVotes(c, s, h, s', n, q);
      case _ => QuietVotes(c, s, h, step, s');
    }
    VoteStepKeepsInv(c, s, h, s', NextHistory(c, s, h, step), step.n);
  }

  lemma InitVoteInv(c: Config, s: State)
    requires Init(c, s)
    ensures VoteInv(c, s, InitHistory())
  {
    InitAckInv(c, s);
  }

  lemma {:induction false} VoteInvHolds(c: Config, r: Run, i: nat)
    requires ValidRun(c, r) && i < |r.states| && WholeVotes(c, r)
    ensures VoteInv(c, r.states[i], HistoryAt(c, r, i))
  {
    hide VoteInv, Moves, Init, NextHistory, VoteWhole;
    if i == 0 {
      InitVoteInv(c, r.states[0]);
    } else {
      VoteInvHolds(c, r, i - 1);
      assert Moves(c, r.states[i - 1], r.steps[i - 1], r.states[i - 1 + 1]);
      StepKeepsVoteInv(c, r.states[i - 1], HistoryAt(c, r, i - 1), r.steps[i - 1], r.states[i]);
    }
  }
}
