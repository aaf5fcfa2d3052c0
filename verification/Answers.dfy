/** What the answers of the handlers are good for (raft.go): votes are given, and terms are passed on. */
module Answers {
  import opened Wrappers
  import opened Cluster

  // ---------------------------------------------------------------------
  // Terms
  // ---------------------------------------------------------------------

  /**
   An append request is answered with the term the server is in afterwards. It is
   above the sender's if and only if the request was refused for its term, and
   then nothing has changed.
   */
  lemma AppendTermIsTold(x: Node, q: AppendReq)
    ensures AppendAnswer(x, q).term == Appended(x, q).term >= q.term
    ensures AppendAnswer(x, q).term > q.term <==> x.term > q.term
    ensures AppendAnswer(x, q).term > q.term ==> !AppendAnswer(x, q).success && Appended(x, q) == x
  {
    hide Merge;
  }

  /** A vote request too; a candidate is told a later term if and only if the server was in one. */
  lemma VoteTermIsTold(c: Config, n: NodeId, x: Node, q: VoteReq)
    ensures VoteAnswer(c, n, x, q).term == Voted(c, x, q).term >= x.term
    ensures VoteAnswer(c, n, x, q).term > q.term <==> x.term > q.term
    ensures VoteAnswer(c, n, x, q).term > q.term ==> !VoteAnswer(c, n, x, q).granted && Voted(c, x, q) == x
    ensures VoteAnswer(c, n, x, q).granted ==> VoteAnswer(c, n, x, q).term == q.term
  {
  }

  /**
   A server that has heard from the leader of a term is its follower, unless it
   was told to take over in that term, and refuses every other candidate that
   was not, without even taking its term.
   */
  lemma HeardLeaderIsFollowed(c: Config, n: NodeId, x: Node, q: AppendReq, v: VoteReq)
    requires x.term <= q.term
    ensures var y := Appended(x, q);
            && y.term == q.term && y.leader == Some(q.leader)
            && (if x.term < q.term || !x.transfer then y.role == Follower else y.role == x.role)
            && (v.cand != q.leader && !v.transfer ==> !VoteAnswer(c, n, y, v).granted && Voted(c, y, v) == y)
  {
    hide Merge;
  }

  /**
   A server with entries votes only for voters of its configuration, and a
   request of somebody who is not even a member changes nothing.
   */
  lemma StrangersAreRefused(c: Config, n: NodeId, x: Node, v: VoteReq)
    requires |x.log| > 0
    ensures v.cand !in c.voters && ValidConfig(c) ==> !VoteAnswer(c, n, x, v).granted
    ensures v.cand !in c.servers ==> Voted(c, x, v) == x
    ensures v.cand in c.servers && v.cand !in c.voters && x.leader.None? && v.term > x.term ==> Voted(c, x, v).term == v.term
  {
  }

  /** Otherwise a known leader makes no difference. */
  lemma KnownLeaderIsPassed(c: Config, n: NodeId, x: Node, v: VoteReq)
    requires v.transfer || x.leader.None? || x.leader.value == v.cand
    ensures VoteAnswer(c, n, x, v) == VoteAnswer(c, n, x.(leader := None), v)
  {
  }

  // ---------------------------------------------------------------------
  // Votes
  // ---------------------------------------------------------------------

  /** A vote once given is given again, and giving it again changes nothing. */
  lemma VoteIsRepeated(c: Config, n: NodeId, x: Node, q: VoteReq)
    requires VoteAnswer(c, n, x, q).granted
    ensures var y := Voted(c, x, q); VoteAnswer(c, n, y, q) == VoteAnswer(c, n, x, q) && Voted(c, y, q) == y
  {
  }

  /** A voter that knows no leader and has neither reached term `t` nor voted in it. */
  ghost predicate Free(c: Config, v: NodeId, x: Node, t: nat) {
    v in c.voters && x.leader.None? && x.term < t && (x.voteTerm == t ==> x.voteCand.None?)
  }

  /** The request `n` sends when it stands for term `t`. */
  function Bid(n: NodeId, x: Node, t: nat): VoteReq
    requires t > 0
  {
    OwnRequest(n, x.(term := t - 1))
  }

  /** Of any two free voters one gets the other's vote. */
  lemma OneOfTwoWins(c: Config, a: NodeId, x: Node, b: NodeId, y: Node, t: nat)
    requires ValidConfig(c) && Free(c, a, x, t) && Free(c, b, y, t)
    ensures VoteAnswer(c, a, x, Bid(b, y, t)).granted || VoteAnswer(c, b, y, Bid(a, x, t)).granted
  {
  }

  /** The wish to vote is transitive. */
  lemma WinsOver(c: Config, a: NodeId, x: Node, b: NodeId, y: Node, d: NodeId, z: Node, t: nat)
    requires ValidConfig(c) && Free(c, a, x, t) && Free(c, b, y, t) && Free(c, d, z, t)
    requires VoteAnswer(c, a, x, Bid(b, y, t)).granted && VoteAnswer(c, b, y, Bid(d, z, t)).granted
    ensures VoteAnswer(c, a, x, Bid(d, z, t)).granted
  {
  }

  /** All other members of `group` vote for `n`. */
  ghost predicate Preferred(c: Config, nodes: map<NodeId, Node>, group: set<NodeId>, t: nat, n: NodeId)
    requires group <= nodes.Keys && t > 0
  {
    n in group && forall v :: v in group && v != n ==> VoteAnswer(c, v, nodes[v], Bid(n, nodes[n], t)).granted
  }

  /**
   In every set of free voters there is one that all the others vote for; it has
   entries if any of them has.
   */
  lemma {:induction false} SomeoneIsElectable(c: Config, nodes: map<NodeId, Node>, group: set<NodeId>, t: nat) returns (n: NodeId)
    requires ValidConfig(c) && group != {} && group <= nodes.Keys && t > 0 && forall v :: v in group ==> Free(c, v, nodes[v], t)
    ensures Preferred(c, nodes, group, t, n)
    ensures (exists v :: v in group && |nodes[v].log| > 0) ==> |nodes[n].log| > 0
    decreases |group|
  {
    hide Free, VoteAnswer;
    var v :| v in group;
    var rest := group - {v};
    assert group == rest + {v};
    n := v;
    if rest != {} {
      var m := SomeoneIsElectable(c, nodes, rest, t);
      OneOfTwoWins(c, v, nodes[v], m, nodes[m], t);
      if VoteAnswer(c, v, nodes[v], Bid(m, nodes[m], t)).granted {
        n := m;
        EmptyLoses(c, v, nodes[v], m, nodes[m], t);
      } else {
        EmptyLoses(c, m, nodes[m], v, nodes[v], t);
        forall u | u in rest && u != m ensures VoteAnswer(c, u, nodes[u], Bid(v, nodes[v], t)).granted {
          WinsOver(c, u, nodes[u], m, nodes[m], v, nodes[v], t);
        }
      }
    }
  }

  lemma EmptyLoses(c: Config, a: NodeId, x: Node, b: NodeId, y: Node, t: nat)
    requires ValidConfig(c) && Free(c, a, x, t) && Free(c, b, y, t) && VoteAnswer(c, a, x, Bid(b, y, t)).granted
    ensures |x.log| > 0 ==> |y.log| > 0
  {
  }

  // ---------------------------------------------------------------------
  // Standing for election
  // ---------------------------------------------------------------------

  /**
   A server with entries that is told to take over asks for votes as such, in
   the next term; one whose election has timed out asks again, but no longer as
   such.
   */
  lemma TakeoverAsks(c: Config, s: State, n: NodeId)
    requires n in s.nodes && |s.nodes[n].log| > 0
    ensures s.nodes[n].role == Follower ==>
              var s1 := Next(c, s, TimeoutNow(n));
              Enabled(c, s1, ElectSelf(n)) &&
              VoteReq(s.nodes[n].term + 1, n, |s.nodes[n].log|, LastTerm(s.nodes[n].log), true) in Next(c, s1, ElectSelf(n)).net.voteReqs
    ensures s.nodes[n].role == Candidate ==>
              var s1 := Next(c, s, ElectionTimeout(n));
              Enabled(c, s1, ElectSelf(n)) &&
              VoteReq(s.nodes[n].term + 1, n, |s.nodes[n].log|, LastTerm(s.nodes[n].log), false) in Next(c, s1, ElectSelf(n)).net.voteReqs
  {
  }

  /** After a crash a server has its term, its vote and its log, and is otherwise as new. */
  lemma RestartIsNew(x: Node)
    ensures Restarted(x) == BlankNode().(term := x.term, voteTerm := x.voteTerm, voteCand := x.voteCand, log := x.log)
  {
  }
}
