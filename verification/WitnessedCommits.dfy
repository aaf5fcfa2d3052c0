/**
 What a leader's ledger stands for: every report is an acknowledgement, and
 every commit index it reaches is held by a majority and belongs to its term.
 */
module WitnessedCommits {
  import opened Wrappers
  import opened Quorums
  import opened Commitment
  import opened Cluster
  import opened Election
  import opened LogMatching
  import opened Acknowledgements

  ghost function Ackers(c: Config, net: Net, h: History, t: nat, k: nat): set<NodeId> {
    set v | v in c.voters && Acked(net, h, v, t, k)
  }

  /** A majority has stored the first `k` entries of the leader of `t`, the last of them made in `t` itself. */
  ghost predicate Committed(c: Config, net: Net, h: History, t: nat, k: nat) {
    t in h && h[t].base < k <= |h[t].log| && IsQuorum(Ackers(c, net, h, t, k), c.voters)
  }

  ghost predicate LedgerOk(c: Config, net: Net, h: History, t: nat, l: Ledger<NodeId>) {
    && t in h
    && l.reports.Keys == c.voters
    && l.start == h[t].base + 1
    && (forall v :: v in l.reports && l.reports[v] > 0 ==> Acked(net, h, v, t, l.reports[v]))
    && (l.index > 0 ==> Committed(c, net, h, t, l.index))
  }

  ghost predicate LedgerInv(c: Config, s: State, h: History) {
    forall n :: n in s.nodes && s.nodes[n].role == Leader ==> LedgerOk(c, s.net, h, s.nodes[n].term, s.nodes[n].ledger)
  }

  lemma AckedGrown(net: Net, h: History, net': Net, h': History, v: NodeId, t: nat, k: nat)
    requires Acked(net, h, v, t, k) && net.appResps <= net'.appResps && Grows(h, h')
    ensures Acked(net', h', v, t, k)
  {
    if h[t].leader != Some(v) {
      var a :| a in net.appResps && Accepts(a, v, t, k);
      assert a in net'.appResps;
    }
  }

  lemma AckedLess(net: Net, h: History, v: NodeId, t: nat, k: nat, j: nat)
    requires Acked(net, h, v, t, k) && 1 <= j <= k
    ensures Acked(net, h, v, t, j)
  {
    if h[t].leader != Some(v) {
      var a :| a in net.appResps && Accepts(a, v, t, k);
      assert Accepts(a, v, t, j);
    }
  }

  lemma CommittedGrown(c: Config, net: Net, h: History, net': Net, h': History, t: nat, k: nat)
    requires Committed(c, net, h, t, k) && net.appResps <= net'.appResps && Grows(h, h')
    ensures Committed(c, net', h', t, k)
  {
    hide Acked;
    forall v | v in Ackers(c, net, h, t, k) ensures v in Ackers(c, net', h', t, k) {
      AckedGrown(net, h, net', h', v, t, k);
    }
    SubsetSize(Ackers(c, net, h, t, k), Ackers(c, net', h', t, k));
  }

  lemma LedgerGrown(c: Config, net: Net, h: History, net': Net, h': History, t: nat, l: Ledger<NodeId>)
    requires LedgerOk(c, net, h, t, l) && net.appResps <= net'.appResps && Grows(h, h')
    ensures LedgerOk(c, net', h', t, l)
  {
    hide Acked;
    forall v | v in l.reports && l.reports[v] > 0 ensures Acked(net', h', v, t, l.reports[v]) {
      AckedGrown(net, h, net', h', v, t, l.reports[v]);
    }
    if l.index > 0 { CommittedGrown(c, net, h, net', h', t, l.index); }
  }

  /** The majority index of true reports is a commit point. */
  lemma QuorumIsCommitted(c: Config, net: Net, h: History, t: nat, reports: map<NodeId, nat>, q: nat)
    requires t in h && reports.Keys == c.voters && c.voters != {}
    requires forall v :: v in reports && reports[v] > 0 ==> Acked(net, h, v, t, reports[v])
    requires IsQuorumMatch(reports, q) && q > h[t].base
    ensures Committed(c, net, h, t, q)
  {
    hide Acked;
    var holders := Holders(reports, q);
    assert |reports| == |c.voters|;
    forall v | v in holders ensures v in Ackers(c, net, h, t, q) && q <= |h[t].log| {
      AckedLess(net, h, v, t, reports[v], q);
      AckedBound(net, h, v, t, q);
    }
    SubsetSize(holders, Ackers(c, net, h, t, q));
    assert holders != {};
    var v :| v in holders;
  }

  lemma AckedBound(net: Net, h: History, v: NodeId, t: nat, k: nat)
    requires Acked(net, h, v, t, k)
    ensures t in h && k <= |h[t].log|
  {
  }

  lemma ReportedOk(c: Config, net: Net, h: History, t: nat, l: Ledger<NodeId>, v: NodeId, k: nat)
    requires LedgerOk(c, net, h, t, l) && Acked(net, h, v, t, k) && c.voters != {}
    ensures LedgerOk(c, net, h, t, Reported(l, v, k))
  {
    hide Acked, Committed;
    if v in l.reports && k > l.reports[v] {
      var l' := l.(reports := l.reports[v := k]);
      assert l'.reports.Keys == c.voters;
      var q := QuorumMatch(l'.reports);
      if q > l.index && q >= l.start {
        QuorumIsCommitted(c, net, h, t, l'.reports, q);
      }
    }
  }

  // ---------------------------------------------------------------------
  // The steps
  // ---------------------------------------------------------------------

  lemma LedgerKept(c: Config, s: State, h: History, s': State, h': History, n: NodeId)
    requires LedgerInv(c, s, h) && AckStep(c, s, h, s', h', n)
    requires s'.nodes[n].role == Leader ==> LedgerOk(c, s'.net, h', s'.nodes[n].term, s'.nodes[n].ledger)
    ensures LedgerInv(c, s', h')
  {
    hide LedgerOk, LogFollows, OwnLog, NewAnswer;
    forall m | m in s'.nodes && s'.nodes[m].role == Leader
      ensures LedgerOk(c, s'.net, h', s'.nodes[m].term, s'.nodes[m].ledger)
    {
      if m != n {
        LedgerGrown(c, s.net, h, s'.net, h', s.nodes[m].term, s.nodes[m].ledger);
      }
    }
  }

  lemma CrownLedger(c: Config, s: State, h: History, s': State, n: NodeId, r: VoteResp)
    requires AckInv(c, s, h) && Moves(c, s, Tally(n, r), s') && s'.nodes[n].role == Leader
    ensures LedgerOk(c, s'.net, NextHistory(c, s, h, Tally(n, r)), s'.nodes[n].term, s'.nodes[n].ledger)
  {
    hide AckInv, Acked, Committed, Grants;
  }

  lemma DispatchLedger(c: Config, s: State, h: History, s': State, n: NodeId, cmds: seq<int>)
    requires AckInv(c, s, h) && LedgerInv(c, s, h) && Moves(c, s, Dispatch(n, cmds), s')
    ensures LedgerOk(c, s'.net, NextHistory(c, s, h, Dispatch(n, cmds)), s'.nodes[n].term, s'.nodes[n].ledger)
  {
    hide Reported, LogInv, LedgerOk, Rules;
    var x, y := s.nodes[n], s'.nodes[n];
    var h' := NextHistory(c, s, h, Dispatch(n, cmds));
    DispatchLog(c, s, h, s', n, cmds);
    DispatchedIsOwn(c, s, h, n);
    assert Acked(s'.net, h', n, x.term, |y.log|);
    LedgerGrown(c, s.net, h, s'.net, h', x.term, x.ledger);
    VotersExist(c, s, h);
    ReportedOk(c, s'.net, h', x.term, x.ledger, n, |y.log|);
  }

  lemma VotersExist(c: Config, s: State, h: History)
    requires LogInv(c, s, h)
    ensures c.voters != {}
  {
  }

  lemma AnswerLedger(c: Config, s: State, h: History, s': State, n: NodeId, a: AppendResp)
    requires AckInv(c, s, h) && LedgerInv(c, s, h) && Moves(c, s, HandleAppendResp(n, a), s')
    ensures LedgerOk(c, s'.net, h, s'.nodes[n].term, s'.nodes[n].ledger)
  {
    hide Reported, LogInv, LedgerOk, ReqOk;
    if |a.req.entries| > 0 {
      VotersExist(c, s, h);
      assert AnswerOk(h, s.nodes, a);
      assert Accepts(a, a.req.to, a.req.term, a.req.End());
      EndInside(h, a.req);
      ReportedOk(c, s.net, h, s.nodes[n].term, s.nodes[n].ledger, a.req.to, a.req.End());
    }
  }

  lemma EndInside(h: History, q: AppendReq)
    requires ReqOk(h, q)
    ensures q.term in h && q.End() <= |h[q.term].log|
  {
  }

  /** A step that leaves a leader in place leaves its ledger too, unless it reports. */
  lemma QuietLedger(c: Config, s: State, h: History, step: Step, s': State)
    requires AckInv(c, s, h) && LedgerInv(c, s, h) && Moves(c, s, step, s')
    requires !step.Tally? && !step.Dispatch? && !step.HandleAppendResp?
    requires s'.nodes[step.n].role == Leader
    ensures s.nodes[step.n].role == Leader && s'.nodes[step.n].term == s.nodes[step.n].term
    ensures s'.nodes[step.n].ledger == s.nodes[step.n].ledger
  {
    hide AckInv, LedgerInv, Merge, Grants;
    if step.HandleVote? { VotedFrame(c, s.nodes[step.n], step.vote); }
    if step.HandleAppend? { AppendedFrame(s.nodes[step.n], step.app); }
  }

  lemma StepKeepsLedgerInv(c: Config, s: State, h: History, step: Step, s': State)
    requires AckInv(c, s, h) && LedgerInv(c, s, h) && Moves(c, s, step, s')
    ensures LedgerInv(c, s', NextHistory(c, s, h, step))
  {
    hide AckInv, LedgerOk, Enabled, NextNode, NextNet;
    var h' := NextHistory(c, s, h, step);
    StepIsAckStep(c, s, h, step, s');
    if s'.nodes[step.n].role == Leader {
      if step.Tally? {
        CrownLedger(c, s, h, s', step.n, step.answer);
      } else if step.Dispatch? {
        DispatchLedger(c, s, h, s', step.n, step.cmds);
      } else if step.HandleAppendResp? {
        AnswerLedger(c, s, h, s', step.n, step.resp);
      } else {
        QuietLedger(c, s, h, step, s');
        LedgerGrown(c, s.net, h, s'.net, h', s.nodes[step.n].term, s.nodes[step.n].ledger);
      }
    }
    LedgerKept(c, s, h, s', h', step.n);
  }

  lemma {:induction false} LedgerInvHolds(c: Config, r: Run, i: nat)
    requires ValidRun(c, r) && i < |r.states|
    ensures LedgerInv(c, r.states[i], HistoryAt(c, r, i))
  {
    hide AckInv, Moves, NextHistory, LedgerOk;
    if i > 0 {
      LedgerInvHolds(c, r, i - 1);
      AckInvHolds(c, r, i - 1);
      assert Moves(c, r.states[i - 1], r.steps[i - 1], r.states[i - 1 + 1]);
      StepKeepsLedgerInv(c, r.states[i - 1], HistoryAt(c, r, i - 1), r.steps[i - 1], r.states[i]);
    }
  }
}
