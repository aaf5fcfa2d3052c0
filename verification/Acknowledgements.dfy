/**
 What an accepted append request is worth: once a follower has accepted a
 request of a term that ends at index k, the entries up to k stay until some
 later leader without them overwrites them. Within the term they never change,
 so every index reported to `match` stays true for that term.
 */
module Acknowledgements {
  import opened Wrappers
  import opened Commitment
  import opened Cluster
  import opened Election
  import opened LogMatching

  ghost predicate Accepts(a: AppendResp, v: NodeId, t: nat, k: nat) {
    a.success && a.req.term == t && a.req.to == v && k <= a.req.End()
  }

  /** Server `v` has stored the first `k` entries of the leader of term `t`, as its leader or by accepting a request. */
  ghost predicate Acked(net: Net, h: History, v: NodeId, t: nat, k: nat) {
    && t in h && 1 <= k <= |h[t].log|
    && (h[t].leader == Some(v) || exists a :: a in net.appResps && Accepts(a, v, t, k))
  }

  /** The leader of term `u` began with the first `k` entries of the leader of term `t`. */
  ghost predicate Has(h: History, u: nat, t: nat, k: nat)
    requires u in h && t in h
  {
    k <= h[u].base && Agree(h[u].log, h[t].log, k)
  }

  /** Some leader between `t` and `top` began without those entries. */
  ghost predicate Lost(h: History, t: nat, k: nat, top: nat) {
    t in h && exists u :: t < u <= top && u in h && !Has(h, u, t, k)
  }

  ghost predicate AckKept(h: History, x: Node, t: nat, k: nat)
    requires t in h
  {
    x.term >= t && (Agree(x.log, h[t].log, k) || Lost(h, t, k, x.term))
  }

  ghost predicate AnswerOk(h: History, nodes: map<NodeId, Node>, a: AppendResp) {
    a.success ==> a.req.to in nodes && ReqOk(h, a.req)
  }

  ghost predicate AckInv(c: Config, s: State, h: History) {
    && LogInv(c, s, h)
    && (forall a :: a in s.net.appResps ==> AnswerOk(h, s.nodes, a))
    && (forall v, t, k :: v in s.nodes && Acked(s.net, h, v, t, k) ==> AckKept(h, s.nodes[v], t, k))
  }

  /** What a step may do to logs and acknowledgements. */
  ghost predicate AckStep(c: Config, s: State, h: History, s': State, h': History, n: NodeId) {
    && n in s.nodes && n in s'.nodes && s'.nodes == s.nodes[n := s'.nodes[n]]
    && s.nodes[n].term <= s'.nodes[n].term
    && Grows(h, h') && OnlyOwn(h, h', n)
    && OwnLog(h, h', n, s'.nodes[n])
    && LogFollows(h', s.nodes[n], s'.nodes[n])
    && s.net.appResps <= s'.net.appResps
    && (forall a :: a in s'.net.appResps && a !in s.net.appResps && a.success ==> NewAnswer(h', n, s'.nodes[n], a))
  }

  ghost predicate LogFollows(h: History, x: Node, y: Node) {
    y.log == x.log || (y.term in h && LogMoves(h[y.term].log, x.log, y.log))
  }

  /** A reign that began or grew in a step is the one of the server that acted, and has its log. */
  ghost predicate OwnLog(h: History, h': History, n: NodeId, y: Node) {
    forall t :: t in h' && (t !in h || h'[t] != h[t]) ==> t == y.term && h'[t].leader == Some(n) && y.log == h'[t].log
  }

  ghost predicate NewAnswer(h: History, n: NodeId, y: Node, a: AppendResp) {
    && a.req.to == n && a.req.term == y.term && ReqOk(h, a.req)
    && Agree(y.log, h[y.term].log, a.req.End())
  }

  // ---------------------------------------------------------------------
  // Growth of the history
  // ---------------------------------------------------------------------

  lemma HasGrown(h: History, h': History, u: nat, t: nat, k: nat)
    requires ReignsOk(h) && Grows(h, h') && u in h && t in h && k <= |h[t].log|
    ensures Has(h, u, t, k) <==> Has(h', u, t, k)
  {
    assert ReignOk(h, u);
    if k <= h[u].base {
      assert h'[u].log[..k] == h[u].log[..k];
      assert h'[t].log[..k] == h[t].log[..k];
    }
  }

  lemma LostGrown(h: History, h': History, t: nat, k: nat, top: nat, top': nat)
    requires ReignsOk(h) && Grows(h, h') && Lost(h, t, k, top) && k <= |h[t].log| && top <= top'
    ensures Lost(h', t, k, top')
  {
    var u :| t < u <= top && u in h && !Has(h, u, t, k);
    HasGrown(h, h', u, t, k);
  }

  // ---------------------------------------------------------------------
  // The invariant is kept
  // ---------------------------------------------------------------------

  lemma AckKeptGrown(h: History, h': History, x: Node, y: Node, t: nat, k: nat)
    requires ReignsOk(h) && ReignsOk(h') && Grows(h, h') && t in h && k <= |h[t].log|
    requires AckKept(h, x, t, k) && x.term <= y.term && LogFollows(h', x, y)
    ensures AckKept(h', y, t, k)
  {
    if Agree(x.log, h[t].log, k) {
      AgreeGrown(x.log, h[t].log, h'[t].log, k);
      if y.log != x.log {
        MovesKeep(h'[y.term].log, x.log, y.log, h'[t].log, k);
        if !Agree(y.log, h'[t].log, k) {
          assert y.term != t;
          assert !Has(h', y.term, t, k);
        }
      }
    } else {
      LostGrown(h, h', t, k, x.term, y.term);
    }
  }

  /** An acknowledgement after a step is an old one, or one the acting server has just made good. */
  lemma AckOrigin(c: Config, s: State, h: History, s': State, h': History, n: NodeId, v: NodeId, t: nat, k: nat)
    requires AckInv(c, s, h) && AckStep(c, s, h, s', h', n) && ReignsOk(h')
    requires v in s'.nodes && Acked(s'.net, h', v, t, k)
    ensures Acked(s.net, h, v, t, k) || (v == n && t == s'.nodes[n].term && Agree(s'.nodes[n].log, h'[t].log, k))
  {
    var y := s'.nodes[n];
    if h'[t].leader == Some(v) && (t !in h || h'[t] != h[t]) {
    } else if h'[t].leader == Some(v) {
    } else {
      var a :| a in s'.net.appResps && Accepts(a, v, t, k);
      if a in s.net.appResps {
        assert AnswerOk(h, s.nodes, a);
      } else {
        AgreeLess(y.log, h'[t].log, a.req.End(), k);
      }
    }
  }

  lemma AckStepKeepsInv(c: Config, s: State, h: History, s': State, h': History, n: NodeId)
    requires AckInv(c, s, h) && LogInv(c, s', h') && AckStep(c, s, h, s', h', n)
    ensures AckInv(c, s', h')
  {
    hide LogMoves, AllBacked, ElectionInv, Lost, ReqOk;
    forall a | a in s'.net.appResps ensures AnswerOk(h', s'.nodes, a) {
      if a in s.net.appResps && a.success {
        assert AnswerOk(h, s.nodes, a);
        ReqGrown(h, h', a.req);
      }
    }
    forall v, t, k | v in s'.nodes && Acked(s'.net, h', v, t, k) ensures AckKept(h', s'.nodes[v], t, k) {
      AckOrigin(c, s, h, s', h', n, v, t, k);
      if Acked(s.net, h, v, t, k) {
        assert AckKept(h, s.nodes[v], t, k);
        AckKeptGrown(h, h', s.nodes[v], s'.nodes[v], t, k);
      }
    }
  }

  // ---------------------------------------------------------------------
  // The steps
  // ---------------------------------------------------------------------

  /** Steps that touch neither logs nor answers. */
  lemma IdleAck(c: Config, s: State, h: History, step: Step, s': State)
    requires AckInv(c, s, h) && Moves(c, s, step, s')
    requires !step.HandleAppend? && !step.HandleAppendCrash? && !step.Tally? && !step.Dispatch?
    ensures AckStep(c, s, h, s', NextHistory(c, s, h, step), step.n)
  {
    hide LogInv, Merge, Reported;
    if step.HandleVote? { VotedFrame(c, s.nodes[step.n], step.vote); }
  }

  lemma AppendedAck(h: History, n: NodeId, x: Node, q: AppendReq)
    requires ReignsOk(h) && NodeLogOk(h, n, x) && ReqOk(h, q) && q.to == n
    ensures LogFollows(h, x, Appended(x, q)) && Appended(x, q).term >= x.term
    ensures AppendAnswer(x, q).success ==> NewAnswer(h, n, Appended(x, q), AppendAnswer(x, q))
  {
    hide Merge, Present, AllBacked, ReignsOk, LogMoves;
    if q.term >= x.term && PrevMatches(x.log, q) {
      MergeMoves(h, x.log, q);
    }
  }

  lemma HandleAppendAck(c: Config, s: State, h: History, s': State, n: NodeId, q: AppendReq)
    requires AckInv(c, s, h) && Moves(c, s, HandleAppend(n, q), s')
    ensures AckStep(c, s, h, s', h, n)
  {
    hide Appended, AppendAnswer, LogFollows, NewAnswer;
    assert NodeLogOk(h, n, s.nodes[n]) && ReqOk(h, q);
    AppendedAck(h, n, s.nodes[n], q);
  }

  lemma HandleAppendCrashAck(c: Config, s: State, h: History, s': State, n: NodeId, q: AppendReq, m: nat)
    requires AckInv(c, s, h) && Moves(c, s, HandleAppendCrash(n, q, m), s')
    ensures AckStep(c, s, h, s', h, n)
  {
    hide StoredPart, Present, LogMoves;
    assert NodeLogOk(h, n, s.nodes[n]) && ReqOk(h, q);
    StoredPartMoves(h, s.nodes[n].log, q, m);
  }

  lemma TallyAck(c: Config, s: State, h: History, s': State, n: NodeId, r: VoteResp)
    requires AckInv(c, s, h) && Moves(c, s, Tally(n, r), s')
    ensures AckStep(c, s, h, s', NextHistory(c, s, h, Tally(n, r)), n)
  {
    hide LogInv, ElectionInv, Tallied, AllBacked, ReignsOk;
    TalliedFrame(c, n, s.nodes[n], r);
    TallyLog(c, s, h, s', n, r);
    if s'.nodes[n].role == Leader {
      StepKeepsElectionInv(c, s, Tally(n, r), s') by { assert LogInv(c, s, h); ElectionPart(c, s, h); }
      WinnerIsNew(c, s, h, s', n);
    }
  }

  lemma ElectionPart(c: Config, s: State, h: History)
    requires LogInv(c, s, h)
    ensures ElectionInv(c, s)
  {
  }

  lemma DispatchAck(c: Config, s: State, h: History, s': State, n: NodeId, cmds: seq<int>)
    requires AckInv(c, s, h) && Moves(c, s, Dispatch(n, cmds), s')
    ensures AckStep(c, s, h, s', NextHistory(c, s, h, Dispatch(n, cmds)), n)
  {
    hide Reported, LogInv, Rules;
    var x, y := s.nodes[n], s'.nodes[n];
    DispatchLog(c, s, h, s', n, cmds);
    DispatchedIsOwn(c, s, h, n);
    assert Replaced(y.log, x.log, y.log, |x.log|);
  }

  lemma DispatchedIsOwn(c: Config, s: State, h: History, n: NodeId)
    requires LogInv(c, s, h) && n in s.nodes && s.nodes[n].role == Leader
    ensures s.nodes[n].term in h && h[s.nodes[n].term].leader == Some(n)
  {
    LeaderTerm(c, s, h, n);
  }

  lemma StepIsAckStep(c: Config, s: State, h: History, step: Step, s': State)
    requires AckInv(c, s, h) && Moves(c, s, step, s')
    ensures AckStep(c, s, h, s', NextHistory(c, s, h, step), step.n)
  {
    hide AckInv, AckStep, Moves, Enabled, NextNode;
    match step {
      case HandleAppend(n, q) => HandleAppendAck(c, s, h, s', n, q);
      case HandleAppendCrash(n, q, m) => HandleAppendCrashAck(c, s, h, s', n, q, m);
      case Tally(n, r) => TallyAck(c, s, h, s', n, r);
      case Dispatch(n, cmds) => DispatchAck(c, s, h, s', n, cmds);
      case _ => IdleAck(c, s, h, step, s');
    }
  }

  lemma StepKeepsAckInv(c: Config, s: State, h: History, step: Step, s': State)
    requires AckInv(c, s, h) && Moves(c, s, step, s')
    ensures AckStep(c, s, h, s', NextHistory(c, s, h, step), step.n)
    ensures AckInv(c, s', NextHistory(c, s, h, step))
  {
    hide AckStep, NextHistory, NextNode, NextNet, Enabled;
    StepIsAckStep(c, s, h, step, s');
    StepKeepsLogInv(c, s, h, step, s');
    AckStepKeepsInv(c, s, h, s', NextHistory(c, s, h, step), step.n);
  }

  lemma InitAckInv(c: Config, s: State)
    requires Init(c, s)
    ensures AckInv(c, s, InitHistory())
  {
    InitLogInv(c, s);
  }

  lemma {:induction false} AckInvHolds(c: Config, r: Run, i: nat)
    requires ValidRun(c, r) && i < |r.states|
    ensures AckInv(c, r.states[i], HistoryAt(c, r, i))
  {
    hide AckInv, Moves, Init, NextHistory, AckStep;
    if i == 0 {
      InitAckInv(c, r.states[0]);
    } else {
      AckInvHolds(c, r, i - 1);
      assert Moves(c, r.states[i - 1], r.steps[i - 1], r.states[i - 1 + 1]);
      StepKeepsAckInv(c, r.states[i - 1], HistoryAt(c, r, i - 1), r.steps[i - 1], r.states[i]);
    }
  }

  // ---------------------------------------------------------------------
  // The theorem
  // ---------------------------------------------------------------------

  lemma {:induction false} AnswersStay(c: Config, r: Run, i: nat, j: nat)
    requires ValidRun(c, r) && i <= j < |r.states|
    ensures r.states[i].net.appResps <= r.states[j].net.appResps
  {
    hide AckInv, Moves, Init, NextHistory;
    if i < j {
      AnswersStay(c, r, i, j - 1);
      AckInvHolds(c, r, j - 1);
      assert Moves(c, r.states[j - 1], r.steps[j - 1], r.states[j - 1 + 1]);
      StepIsAckStep(c, r.states[j - 1], HistoryAt(c, r, j - 1), r.steps[j - 1], r.states[j]);
    }
  }

  /** An accepted request's entries are on the follower for as long as it stays in the request's term. */
  lemma AcceptedIsStored(c: Config, r: Run, i: nat, a: AppendResp)
    requires ValidRun(c, r) && i < |r.states|
    requires a in r.states[i].net.appResps && a.success
    ensures a.req.to in r.states[i].nodes && a.req.term in HistoryAt(c, r, i)
    ensures var x := r.states[i].nodes[a.req.to];
            x.term == a.req.term ==>
              && Agree(x.log, HistoryAt(c, r, i)[a.req.term].log, a.req.End())
              && x.log[a.req.prev..a.req.End()] == a.req.entries
  {
    hide LogInv;
    var s, h := r.states[i], HistoryAt(c, r, i);
    AckInvHolds(c, r, i);
    assert AnswerOk(h, s.nodes, a);
    if a.req.End() > 0 {
      assert Accepts(a, a.req.to, a.req.term, a.req.End());
      assert Acked(s.net, h, a.req.to, a.req.term, a.req.End());
    }
    var x, k := s.nodes[a.req.to], a.req.End();
    if x.term == a.req.term {
      assert x.log[a.req.prev..k] == x.log[..k][a.req.prev..] == h[a.req.term].log[..k][a.req.prev..];
    }
  }

  /**
   Acknowledgement stability: whatever a follower handles after accepting a
   request of a term, as long as it stays in that term the entries the request
   covered are the same.
   */
  lemma AckStability(c: Config, r: Run, i: nat, j: nat, a: AppendResp)
    requires ValidRun(c, r) && i <= j < |r.states|
    requires a in r.states[i].net.appResps && a.success
    requires a.req.to in r.states[i].nodes && a.req.to in r.states[j].nodes
    requires r.states[i].nodes[a.req.to].term == r.states[j].nodes[a.req.to].term == a.req.term
    ensures var k := a.req.End();
            && k <= |r.states[i].nodes[a.req.to].log| && k <= |r.states[j].nodes[a.req.to].log|
            && r.states[i].nodes[a.req.to].log[..k] == r.states[j].nodes[a.req.to].log[..k]
            && r.states[j].nodes[a.req.to].log[a.req.prev..k] == a.req.entries
  {
    hide AckInv, LogInv;
    var k, t := a.req.End(), a.req.term;
    AnswersStay(c, r, i, j);
    AcceptedIsStored(c, r, i, a);
    AcceptedIsStored(c, r, j, a);
    HistoryGrows(c, r, i, j);
    AgreeGrown(r.states[i].nodes[a.req.to].log, HistoryAt(c, r, i)[t].log, HistoryAt(c, r, j)[t].log, k);
  }
}
