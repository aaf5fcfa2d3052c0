/**
 Committed prefixes: what a server has committed or handed over lies below a
 commit point of some leader, and two such prefixes agree as far as both reach.
 */
module SealedPrefixes {
  import opened Cluster
  import opened LogMatching
  import opened Acknowledgements
  import opened WitnessedCommits
  import opened LeaderCompleteness

  // ---------------------------------------------------------------------
  // Sealed prefixes
  // ---------------------------------------------------------------------

  ghost predicate SealedBy(c: Config, net: Net, h: History, log: seq<Entry>, commit: nat, top: nat, t: nat, k: nat) {
    t <= top && Committed(c, net, h, t, k) && commit <= k && t in h && Agree(log, h[t].log, commit)
  }

  /** The first `commit` entries of the log lie below a commit point of a term up to `top`. */
  ghost predicate Sealed(c: Config, net: Net, h: History, log: seq<Entry>, commit: nat, top: nat) {
    commit <= |log| && (commit > 0 ==> exists t, k :: SealedBy(c, net, h, log, commit, top, t, k))
  }

  lemma SealedGrown(c: Config, net: Net, h: History, net': Net, h': History, log: seq<Entry>, commit: nat, top: nat, top': nat)
    requires Sealed(c, net, h, log, commit, top) && net.appResps <= net'.appResps && Grows(h, h') && top <= top'
    ensures Sealed(c, net', h', log, commit, top')
  {
    hide Committed;
    if commit > 0 {
      var t: nat, k: nat :| SealedBy(c, net, h, log, commit, top, t, k);
      CommittedGrown(c, net, h, net', h', t, k);
      AgreeGrown(log, h[t].log, h'[t].log, commit);
      assert SealedBy(c, net', h', log, commit, top', t, k);
    }
  }

  lemma SealedLess(c: Config, net: Net, h: History, log: seq<Entry>, log': seq<Entry>, commit: nat, less: nat, top: nat)
    requires Sealed(c, net, h, log, commit, top) && less <= commit && Agree(log', log, less)
    ensures Sealed(c, net, h, log', less, top)
  {
    hide Committed;
    if less > 0 {
      var t: nat, k: nat :| SealedBy(c, net, h, log, commit, top, t, k);
      AgreeLess(log, h[t].log, commit, less);
      assert SealedBy(c, net, h, log', less, top, t, k);
    }
  }

  lemma SealedNone(c: Config, net: Net, h: History, log: seq<Entry>, top: nat)
    ensures Sealed(c, net, h, log, 0, top)
  {
  }

  /** Nothing is committed in a term that nobody leads. */
  lemma SealedBefore(c: Config, net: Net, h: History, log: seq<Entry>, commit: nat, top: nat)
    requires Sealed(c, net, h, log, commit, top) && top > 0 && top !in h
    ensures Sealed(c, net, h, log, commit, top - 1)
  {
    if commit > 0 {
      var t: nat, k: nat :| SealedBy(c, net, h, log, commit, top, t, k);
      assert SealedBy(c, net, h, log, commit, top - 1, t, k);
    }
  }

  /** Two sealed prefixes agree as far as both go. */
  lemma SealedAgree(c: Config, s: State, h: History, a: seq<Entry>, ca: nat, ta: nat, b: seq<Entry>, cb: nat, tb: nat)
    requires VoteInv(c, s, h) && Sealed(c, s.net, h, a, ca, ta) && Sealed(c, s.net, h, b, cb, tb)
    ensures Agree(a, b, Min(ca, cb))
  {
    hide VoteInv, Committed;
    var k := Min(ca, cb);
    if k > 0 {
      var t: nat, kt: nat :| SealedBy(c, s.net, h, a, ca, ta, t, kt);
      var u: nat, ku: nat :| SealedBy(c, s.net, h, b, cb, tb, u, ku);
      AgreeLess(a, h[t].log, ca, k);
      AgreeLess(b, h[u].log, cb, k);
      if t < u {
        CommittedIsHad(c, s, h, t, kt, u);
        AgreeLess(h[u].log, h[t].log, kt, k);
      } else if u < t {
        CommittedIsHad(c, s, h, u, ku, t);
        AgreeLess(h[t].log, h[u].log, ku, k);
      }
    }
  }

  /** No later leader overwrites a sealed prefix. */
  lemma SealedKept(c: Config, s: State, h: History, x: Node, y: Node)
    requires VoteInv(c, s, h) && Sealed(c, s.net, h, x.log, x.commit, x.term)
    requires x.term <= y.term && LogFollows(h, x, y)
    ensures Sealed(c, s.net, h, y.log, x.commit, y.term)
    ensures x.commit <= |x.log| && x.commit <= |y.log| && y.log[..x.commit] == x.log[..x.commit]
  {
    hide VoteInv, Committed;
    if x.commit > 0 {
      var t: nat, k: nat :| SealedBy(c, s.net, h, x.log, x.commit, x.term, t, k);
      if y.log != x.log {
        MovesKeep(h[y.term].log, x.log, y.log, h[t].log, x.commit);
        if t < y.term {
          CommittedIsHad(c, s, h, t, k, y.term);
          AgreeLess(h[y.term].log, h[t].log, k, x.commit);
        }
      }
      assert SealedBy(c, s.net, h, y.log, x.commit, y.term, t, k);
    }
  }

  // ---------------------------------------------------------------------
  // The invariant
  // ---------------------------------------------------------------------

  /** What was handed over is the log up to there, and it is committed. */
  ghost predicate Applied(x: Node) {
    |x.applied| <= x.commit <= |x.log| && x.applied == x.log[..|x.applied|]
  }

  /** The terms whose leaders can have committed index `commit` for the leader of `t`: its own only beyond the log it began with. */
  ghost function SealTop(h: History, t: nat, commit: nat): nat
    requires t in h
  {
    if t > 0 && commit <= h[t].base then t - 1 else t
  }

  /** A leader's commit index is from before its term or from its ledger. */
  ghost predicate LeaderBehind(h: History, x: Node) {
    x.role == Leader ==> x.term in h && (x.commit <= h[x.term].base || x.commit <= x.ledger.index)
  }

  ghost predicate LeaderSealed(c: Config, net: Net, h: History, x: Node) {
    x.role == Leader ==> x.term in h && Sealed(c, net, h, x.log, x.commit, SealTop(h, x.term, x.commit))
  }

  ghost predicate NodeSafe(c: Config, net: Net, h: History, x: Node) {
    Sealed(c, net, h, x.log, x.commit, x.term) && Applied(x) && LeaderBehind(h, x) && LeaderSealed(c, net, h, x)
  }

  ghost predicate ReqSealed(c: Config, net: Net, h: History, q: AppendReq) {
    q.term in h && Sealed(c, net, h, h[q.term].log, q.commit, SealTop(h, q.term, q.commit))
  }

  ghost predicate SafetyInv(c: Config, s: State, h: History) {
    && VoteInv(c, s, h)
    && LedgerInv(c, s, h)
    && (forall n {:trigger NodeSafe(c, s.net, h, s.nodes[n])} :: n in s.nodes ==> NodeSafe(c, s.net, h, s.nodes[n]))
    && (forall q {:trigger ReqSealed(c, s.net, h, q)} :: q in s.net.appReqs ==> ReqSealed(c, s.net, h, q))
  }

  lemma NodeSafeGrown(c: Config, net: Net, h: History, net': Net, h': History, x: Node)
    requires NodeSafe(c, net, h, x) && net.appResps <= net'.appResps && Grows(h, h')
    ensures NodeSafe(c, net', h', x)
  {
    hide Sealed;
    SealedGrown(c, net, h, net', h', x.log, x.commit, x.term, x.term);
    if x.role == Leader {
      var top := SealTop(h, x.term, x.commit);
      SealedGrown(c, net, h, net', h', x.log, x.commit, top, top);
    }
  }

  lemma ReqSealedGrown(c: Config, net: Net, h: History, net': Net, h': History, q: AppendReq)
    requires ReqSealed(c, net, h, q) && net.appResps <= net'.appResps && Grows(h, h')
    ensures ReqSealed(c, net', h', q)
  {
    hide Committed;
    var top := SealTop(h, q.term, q.commit);
    SealedGrown(c, net, h, net', h', h[q.term].log, q.commit, top, top);
    assert Agree(h'[q.term].log, h[q.term].log, q.commit);
    SealedLess(c, net', h', h[q.term].log, h'[q.term].log, q.commit, q.commit, top);
  }

  lemma SafetyKept(c: Config, s: State, h: History, s': State, h': History, n: NodeId)
    requires SafetyInv(c, s, h) && VoteInv(c, s', h') && LedgerInv(c, s', h') && AckStep(c, s, h, s', h', n)
    requires NodeSafe(c, s'.net, h', s'.nodes[n])
    requires forall q :: q in s'.net.appReqs && q !in s.net.appReqs ==> ReqSealed(c, s'.net, h', q)
    ensures SafetyInv(c, s', h')
  {
    hide VoteInv, LedgerInv, NodeSafe, ReqSealed, LogFollows, OwnLog, NewAnswer;
    forall m | m in s'.nodes ensures NodeSafe(c, s'.net, h', s'.nodes[m]) {
      if m != n {
        assert NodeSafe(c, s.net, h, s.nodes[m]);
        NodeSafeGrown(c, s.net, h, s'.net, h', s.nodes[m]);
      }
    }
    forall q | q in s'.net.appReqs ensures ReqSealed(c, s'.net, h', q) {
      if q in s.net.appReqs {
        assert ReqSealed(c, s.net, h, q);
        ReqSealedGrown(c, s.net, h, s'.net, h', q);
      }
    }
  }

  // ---------------------------------------------------------------------
  // Across a step
  // ---------------------------------------------------------------------

  /** The new log has everything the server had committed. */
  lemma CommitSurvives(c: Config, s: State, h: History, s': State, h': History, n: NodeId)
    requires SafetyInv(c, s, h) && VoteInv(c, s', h') && AckStep(c, s, h, s', h', n)
    ensures var x, y := s.nodes[n], s'.nodes[n];
            && Sealed(c, s'.net, h', y.log, x.commit, y.term) && Applied(x)
            && x.commit <= |x.log| && x.commit <= |y.log| && y.log[..x.commit] == x.log[..x.commit]
  {
    hide VoteInv, LedgerInv, Sealed, LogFollows;
    assert NodeSafe(c, s.net, h, s.nodes[n]);
    var x := s.nodes[n];
    SealedGrown(c, s.net, h, s'.net, h', x.log, x.commit, x.term, x.term);
    SealedKept(c, s', h', x, s'.nodes[n]);
  }

  /** Steps that change neither the commit index nor what was handed over, or lose both. */
  lemma StillSafe(c: Config, s: State, h: History, s': State, h': History, n: NodeId)
    requires SafetyInv(c, s, h) && VoteInv(c, s', h') && AckStep(c, s, h, s', h', n)
    requires (s'.nodes[n].commit == s.nodes[n].commit && s'.nodes[n].applied == s.nodes[n].applied)
             || (s'.nodes[n].commit == 0 && s'.nodes[n].applied == [])
    requires LeaderBehind(h', s'.nodes[n]) && LeaderSealed(c, s'.net, h', s'.nodes[n])
    ensures NodeSafe(c, s'.net, h', s'.nodes[n])
  {
    hide VoteInv, SafetyInv, LogFollows, OwnLog, NewAnswer, Committed;
    var x, y := s.nodes[n], s'.nodes[n];
    CommitSurvives(c, s, h, s', h', n);
    if y.commit == x.commit && y.applied == x.applied {
      assert y.log[..|x.applied|] == y.log[..x.commit][..|x.applied|] == x.log[..x.commit][..|x.applied|];
    }
  }

  lemma FollowedSafe(c: Config, net: Net, h: History, x: Node, q: AppendReq)
    requires Sealed(c, net, h, x.log, x.commit, x.term) && Applied(x) && LeaderBehind(h, x)
    requires ReqSealed(c, net, h, q) && q.term == x.term
    requires q.commit > x.commit ==> Agree(x.log, h[q.term].log, Min(q.commit, |x.log|))
    requires x.role != Leader
    ensures NodeSafe(c, net, h, Followed(x, q.commit))
  {
    hide Committed;
    if q.commit > x.commit {
      var idx := Min(q.commit, |x.log|);
      var top := SealTop(h, q.term, q.commit);
      SealedGrown(c, net, h, net, h, h[q.term].log, q.commit, top, q.term);
      SealedLess(c, net, h, h[q.term].log, x.log, q.commit, idx, q.term);
      assert x.applied + x.log[|x.applied|..idx] == x.log[..idx];
    }
  }
}
