/**
 Log matching (section 5.3 of the Raft paper). The proof keeps, beside the
 state, the log every leader has built so far; each server's log is made of
 prefixes of those logs.
 */
module LogMatching {
  import opened Wrappers
  import opened Cluster
  import opened Election

  /**
   What is remembered of one term: who led it, the votes that made it leader,
   how long its log was then, and the log it has reached.
   */
  datatype Reign = Reign(leader: Option<NodeId>, electors: set<NodeId>, base: nat, log: seq<Entry>)

  type History = map<nat, Reign>

  ghost function InitHistory(): History {
    map[1 := Reign(None, {}, 0, [BootEntry])]
  }

  function Elected(c: Config, net: Net, n: NodeId, y: Node): Reign {
    Reign(Some(n), Grants(c, net, y.term, n), |y.log|, y.log)
  }

  ghost function NextHistory(c: Config, s: State, h: History, step: Step): History
    requires Enabled(c, s, step)
  {
    var y := NextNode(c, s, step);
    match step
    case Tally(n, _) => if y.role == Leader then h[y.term := Elected(c, s.net, n, y)] else h
    case Dispatch(_, _) => if y.term in h then h[y.term := h[y.term].(log := y.log)] else h
    case _ => h
  }

  ghost function HistoryAt(c: Config, r: Run, i: nat): History
    requires ValidRun(c, r) && i < |r.states|
  {
    if i == 0 then InitHistory()
    else
      assert Moves(c, r.states[i - 1], r.steps[i - 1], r.states[i - 1 + 1]);
      NextHistory(c, r.states[i - 1], HistoryAt(c, r, i - 1), r.steps[i - 1])
  }

  // ---------------------------------------------------------------------
  // Logs that agree
  // ---------------------------------------------------------------------

  predicate Agree(a: seq<Entry>, b: seq<Entry>, k: nat) {
    k <= |a| && k <= |b| && a[..k] == b[..k]
  }

  lemma AgreeAt(a: seq<Entry>, b: seq<Entry>, k: nat, i: nat)
    requires Agree(a, b, k) && i < k
    ensures a[i] == b[i]
  {
    assert a[i] == a[..k][i] == b[..k][i];
  }

  lemma AgreeLess(a: seq<Entry>, b: seq<Entry>, k: nat, j: nat)
    requires Agree(a, b, k) && j <= k
    ensures Agree(a, b, j)
  {
    assert a[..j] == a[..k][..j] == b[..k][..j] == b[..j];
  }

  /** A log that grows at its end keeps what it agreed on. */
  lemma AgreeGrown(a: seq<Entry>, b: seq<Entry>, b': seq<Entry>, k: nat)
    requires Agree(a, b, k) && b <= b'
    ensures Agree(a, b', k)
  {
    assert b'[..k] == b[..k];
  }

  /** The entry at `i` was made by the leader of its term, and so was everything before it, as that leader saw it. */
  ghost predicate Backed(h: History, log: seq<Entry>, i: nat)
    requires i < |log|
  {
    log[i].term in h && Agree(log, h[log[i].term].log, i + 1)
  }

  ghost predicate AllBacked(h: History, log: seq<Entry>) {
    forall i: nat {:trigger Backed(h, log, i)} :: i < |log| ==> Backed(h, log, i)
  }

  ghost predicate ReignOk(h: History, t: nat)
    requires t in h
  {
    && t >= 1
    && h[t].base <= |h[t].log|
    && AllBacked(h, h[t].log)
    && (forall i: nat :: i < h[t].base ==> h[t].log[i].term < t)
    && (forall i: nat :: h[t].base <= i < |h[t].log| ==> h[t].log[i].term == t)
  }

  ghost predicate ReignsOk(h: History) {
    forall t {:trigger ReignOk(h, t)} :: t in h ==> ReignOk(h, t)
  }

  /** Histories only grow. */
  ghost predicate Grows(h: History, h': History) {
    forall t :: t in h ==> t in h' && h'[t] == h[t].(log := h'[t].log) && h[t].log <= h'[t].log
  }

  lemma BackedGrown(h: History, h': History, log: seq<Entry>)
    requires Grows(h, h') && AllBacked(h, log)
    ensures AllBacked(h', log)
  {
    forall i: nat | i < |log| ensures Backed(h', log, i) {
      assert Backed(h, log, i);
      AgreeGrown(log, h[log[i].term].log, h'[log[i].term].log, i + 1);
    }
  }

  lemma BackedPrefix(h: History, log: seq<Entry>, m: nat)
    requires AllBacked(h, log) && m <= |log|
    ensures AllBacked(h, log[..m])
  {
    forall i: nat | i < m ensures Backed(h, log[..m], i) {
      assert Backed(h, log, i);
      assert log[..m][..i + 1] == log[..i + 1];
    }
  }

  /** The log matching property for two logs built from the same leaders' logs. */
  lemma BackedMatch(h: History, a: seq<Entry>, b: seq<Entry>, i: nat)
    requires AllBacked(h, a) && AllBacked(h, b) && i < |a| && i < |b| && a[i].term == b[i].term
    ensures Agree(a, b, i + 1)
  {
    assert Backed(h, a, i) && Backed(h, b, i);
  }

  /** Terms do not fall along a log. */
  lemma TermsRise(h: History, log: seq<Entry>, i: nat, j: nat)
    requires ReignsOk(h) && AllBacked(h, log) && i <= j < |log|
    ensures log[i].term <= log[j].term
  {
    assert Backed(h, log, j);
    AgreeAt(log, h[log[j].term].log, j + 1, i);
    assert ReignOk(h, log[j].term);
  }

  // ---------------------------------------------------------------------
  // What a follower does to its log
  // ---------------------------------------------------------------------

  /**
   The log either stays, or becomes a prefix of the leader's log `from`. In the
   second case the first `p` entries are kept and something was lost only if
   the leader has another entry at `p`.
   */
  ghost predicate Replaced(from: seq<Entry>, log: seq<Entry>, log': seq<Entry>, p: nat) {
    && p <= |log'| <= |from| && log' == from[..|log'|]
    && Agree(log, from, p)
    && (p == |log| || (p < |from| && log[p] != from[p]))
  }

  ghost predicate LogMoves(from: seq<Entry>, log: seq<Entry>, log': seq<Entry>) {
    log' == log || exists p: nat :: Replaced(from, log, log', p)
  }

  /** A request repeats part of the log of the leader of its term. */
  ghost predicate ReqOk(h: History, q: AppendReq) {
    && q.term in h && q.term >= 2
    && h[q.term].leader == Some(q.leader)
    && q.End() <= |h[q.term].log|
    && q.entries == h[q.term].log[q.prev..q.End()]
    && (q.prev > 0 ==> q.prevTerm == h[q.term].log[q.prev - 1].term)
  }

  /** What the log has of a request agrees with the leader. */
  lemma PresentAgrees(h: History, log: seq<Entry>, q: AppendReq, j: nat)
    requires ReqOk(h, q) && ReignsOk(h) && AllBacked(h, log) && PrevMatches(log, q)
    requires j <= Present(log, q.prev, q.entries)
    ensures Agree(log, h[q.term].log, q.prev + j)
  {
    hide AllBacked;
    var from := h[q.term].log;
    assert ReignOk(h, q.term);
    if j > 0 {
      assert q.entries[j - 1] == from[q.prev + j - 1];
      BackedMatch(h, log, from, q.prev + j - 1);
    } else if q.prev > 0 {
      BackedMatch(h, log, from, q.prev - 1);
    }
  }

  lemma StoredPartReplaces(from: seq<Entry>, log: seq<Entry>, prev: nat, entries: seq<Entry>, m: nat)
    requires prev <= |log| && Present(log, prev, entries) + m <= |entries|
    requires Present(log, prev, entries) < |entries|
    requires prev + |entries| <= |from| && entries == from[prev..prev + |entries|]
    requires Agree(log, from, prev + Present(log, prev, entries))
    ensures StoredPart(log, prev, entries, m) == from[..prev + Present(log, prev, entries) + m]
    ensures Replaced(from, log, StoredPart(log, prev, entries, m), prev + Present(log, prev, entries))
  {
    hide Present;
    var i := Present(log, prev, entries);
    var p := prev + i;
    SliceOfCut(from, prev, entries, i, m);
    assert log[..p] == from[..p];
    assert from[..p] + from[p..p + m] == from[..p + m];
  }

  lemma SliceOfCut(from: seq<Entry>, prev: nat, entries: seq<Entry>, i: nat, m: nat)
    requires prev + |entries| <= |from| && entries == from[prev..prev + |entries|] && i + m <= |entries|
    ensures entries[i..i + m] == from[prev + i..prev + i + m]
    ensures i < |entries| ==> entries[i] == from[prev + i]
  {
    assert forall j :: 0 <= j < |entries| ==> entries[j] == from[prev + j];
  }

  lemma StoredPartMoves(h: History, log: seq<Entry>, q: AppendReq, m: nat)
    requires ReqOk(h, q) && ReignsOk(h) && AllBacked(h, log) && PrevMatches(log, q)
    requires Present(log, q.prev, q.entries) + m <= |q.entries|
    ensures LogMoves(h[q.term].log, log, StoredPart(log, q.prev, q.entries, m))
  {
    var i := Present(log, q.prev, q.entries);
    PresentAgrees(h, log, q, i);
    if i < |q.entries| {
      StoredPartReplaces(h[q.term].log, log, q.prev, q.entries, m);
    }
  }

  lemma MergeMoves(h: History, log: seq<Entry>, q: AppendReq)
    requires ReqOk(h, q) && ReignsOk(h) && AllBacked(h, log) && PrevMatches(log, q)
    ensures LogMoves(h[q.term].log, log, Merge(log, q.prev, q.entries))
    ensures Agree(Merge(log, q.prev, q.entries), h[q.term].log, q.End())
  {
    hide AllBacked, ReignsOk, Present, LogMoves, Replaced;
    var i := Present(log, q.prev, q.entries);
    var m := |q.entries| - i;
    StoredPartMoves(h, log, q, m);
    PresentAgrees(h, log, q, i);
    if i < |q.entries| {
      StoredPartReplaces(h[q.term].log, log, q.prev, q.entries, m);
    }
  }

  /** Moving to a leader's prefix keeps a log made of leaders' prefixes. */
  lemma MovesBacked(h: History, t: nat, log: seq<Entry>, log': seq<Entry>)
    requires ReignsOk(h) && t in h && AllBacked(h, log) && LogMoves(h[t].log, log, log')
    ensures AllBacked(h, log')
    ensures forall i: nat :: i < |log'| ==> log'[i].term <= t || log' == log
  {
    if log' != log {
      assert ReignOk(h, t);
      BackedPrefix(h, h[t].log, |log'|);
      forall i: nat | i < |log'| ensures log'[i].term <= t {
        assert log'[i] == h[t].log[i];
      }
    }
  }

  /** Whatever a move destroys, the leader does not have. */
  lemma MovesKeep(from: seq<Entry>, log: seq<Entry>, log': seq<Entry>, other: seq<Entry>, k: nat)
    requires LogMoves(from, log, log') && Agree(log, other, k)
    ensures Agree(log', other, k) || !Agree(from, other, k)
  {
    if log' != log {
      var p: nat :| Replaced(from, log, log', p);
      if k <= p {
        AgreeLess(log, from, p, k);
        assert log'[..k] == from[..k];
      } else {
        AgreeAt(log, other, k, p);
        if Agree(from, other, k) {
          AgreeAt(from, other, k, p);
        }
      }
    }
  }

  // ---------------------------------------------------------------------
  // The invariant
  // ---------------------------------------------------------------------

  /** A leader's log is the one remembered for its term. */
  ghost predicate Rules(h: History, n: NodeId, x: Node) {
    x.term in h && h[x.term].leader == Some(n) && h[x.term].log == x.log
  }

  ghost predicate TermsBelow(log: seq<Entry>, t: nat) {
    forall i: nat :: i < |log| ==> log[i].term <= t
  }

  ghost predicate NodeLogOk(h: History, n: NodeId, x: Node) {
    && AllBacked(h, x.log)
    && TermsBelow(x.log, x.term)
    && (x.role == Leader ==> Rules(h, n, x) && !x.transfer)
    && (x.role == Candidate && x.voting && x.asked != {} ==> x.term >= 2)
  }

  /** A server that has led a term is not running for it again. */
  ghost predicate Retired(x: Node, t: nat) {
    x.term >= t && (x.term == t ==> !(x.role == Candidate && x.voting))
  }

  ghost predicate LeaderKnown(c: Config, s: State, h: History, t: nat)
    requires t in h
  {
    if t == 1 then h[t].leader == None
    else h[t].leader.Some? && Won(c, s.net, t, h[t].leader.value)
         && h[t].leader.value in s.nodes && Retired(s.nodes[h[t].leader.value], t)
  }

  ghost predicate LogInv(c: Config, s: State, h: History) {
    && ElectionInv(c, s)
    && ReignsOk(h)
    && (forall t {:trigger LeaderKnown(c, s, h, t)} :: t in h ==> LeaderKnown(c, s, h, t))
    && (forall n {:trigger NodeLogOk(h, n, s.nodes[n])} :: n in s.nodes ==> NodeLogOk(h, n, s.nodes[n]))
    && (forall q :: q in s.net.appReqs ==> ReqOk(h, q))
  }

  /** Only the reign of the server that acts may grow. */
  ghost predicate OnlyOwn(h: History, h': History, n: NodeId) {
    forall t :: t in h && h[t].leader != Some(n) ==> t in h' && h'[t] == h[t]
  }

  lemma LogInvKept(c: Config, s: State, h: History, s': State, h': History, n: NodeId)
    requires LogInv(c, s, h) && ElectionInv(c, s') && ElectionStep(c, s, s', n)
    requires Grows(h, h') && OnlyOwn(h, h', n)
    requires ReignsOk(h') && NodeLogOk(h', n, s'.nodes[n])
    requires forall t :: t in h' && t !in h ==> LeaderKnown(c, s', h', t)
    requires forall q :: q in s'.net.appReqs && q !in s.net.appReqs ==> ReqOk(h', q)
    requires s'.nodes[n].term == s.nodes[n].term && s'.nodes[n].role == Candidate && s'.nodes[n].voting
      ==> s.nodes[n].role == Candidate && s.nodes[n].voting
    ensures LogInv(c, s', h')
  {
    hide Won, AllBacked, ReqOk, NodeInv, VotesStand, OneVotePerTerm, ReignOk;
    forall t | t in h' ensures LeaderKnown(c, s', h', t) {
      if t in h {
        assert LeaderKnown(c, s, h, t);
        if t != 1 {
          GrantsGrow(c, s.net, s'.net, t, h[t].leader.value);
        }
      }
    }
    forall m | m in s'.nodes ensures NodeLogOk(h', m, s'.nodes[m]) {
      if m != n {
        assert NodeLogOk(h, m, s.nodes[m]);
        BackedGrown(h, h', s.nodes[m].log);
      }
    }
    forall q | q in s'.net.appReqs ensures ReqOk(h', q) {
      if q in s.net.appReqs {
        ReqGrown(h, h', q);
      }
    }
  }

  lemma ReqGrown(h: History, h': History, q: AppendReq)
    requires Grows(h, h') && ReqOk(h, q)
    ensures ReqOk(h', q)
  {
    assert h'[q.term].log[q.prev..q.End()] == h[q.term].log[q.prev..q.End()];
  }

  // ---------------------------------------------------------------------
  // The steps
  // ---------------------------------------------------------------------

  /** Steps after which the same leaders have the same logs. */
  lemma PlainStep(c: Config, s: State, h: History, step: Step, s': State)
    requires LogInv(c, s, h) && Moves(c, s, step, s') && NextHistory(c, s, h, step) == h
    requires NodeLogOk(h, step.n, s'.nodes[step.n])
    requires forall q :: q in s'.net.appReqs && q !in s.net.appReqs ==> ReqOk(h, q)
    requires s'.nodes[step.n].term == s.nodes[step.n].term && s'.nodes[step.n].role == Candidate && s'.nodes[step.n].voting
      ==> s.nodes[step.n].role == Candidate && s.nodes[step.n].voting
    ensures LogInv(c, s', h)
  {
    hide NodeInv, VotesStand, OneVotePerTerm, ReignsOk, AllBacked, ReqOk, Enabled, NextNode, NextNet;
    StepKeepsElectionInv(c, s, step, s');
    LogInvKept(c, s, h, s', h, step.n);
  }

  lemma RoleLog(c: Config, s: State, h: History, step: Step, s': State)
    requires LogInv(c, s, h) && Moves(c, s, step, s')
    requires step.HeartbeatTimeout? || step.ElectionTimeout? || step.TimeoutNow? || step.LearnTerm?
             || step.StepDown? || step.Restart? || step.LeaderCommit? || step.LeaderApply? || step.HandleAppendResp?
    ensures LogInv(c, s', h)
  {
    assert NodeLogOk(h, step.n, s.nodes[step.n]);
    PlainStep(c, s, h, step, s');
  }

  lemma CrashLog(c: Config, s: State, h: History, step: Step, s': State)
    requires LogInv(c, s, h) && Moves(c, s, step, s')
    requires step.HandleVoteTorn? || step.ElectSelfCrash?
    ensures LogInv(c, s', h)
  {
    assert NodeLogOk(h, step.n, s.nodes[step.n]);
    PlainStep(c, s, h, step, s');
  }

  lemma HandleVoteLog(c: Config, s: State, h: History, s': State, n: NodeId, q: VoteReq)
    requires LogInv(c, s, h) && Moves(c, s, HandleVote(n, q), s')
    ensures LogInv(c, s', h)
  {
    assert NodeLogOk(h, n, s.nodes[n]);
    VotedFrame(c, s.nodes[n], q);
    PlainStep(c, s, h, HandleVote(n, q), s');
  }

  lemma ElectSelfLog(c: Config, s: State, h: History, s': State, n: NodeId)
    requires LogInv(c, s, h) && Moves(c, s, ElectSelf(n), s')
    ensures LogInv(c, s', h)
  {
    var x := s.nodes[n];
    assert NodeLogOk(h, n, x);
    if |x.log| > 0 {
      assert Backed(h, x.log, 0) && ReignOk(h, x.log[0].term);
    }
    PlainStep(c, s, h, ElectSelf(n), s');
  }

  lemma BuiltRequestOk(h: History, n: NodeId, x: Node, to: NodeId, next: nat, last: nat, batch: nat)
    requires Rules(h, n, x) && x.term >= 2
    requires 1 <= next <= |x.log| + 1 && last <= |x.log|
    ensures ReqOk(h, BuiltRequest(n, x, to, next, last, batch))
  {
    var end := Min(next + batch - 1, last);
    if next <= end {
      assert next - 1 + (end - (next - 1)) == end;
    }
  }

  lemma LeaderTerm(c: Config, s: State, h: History, n: NodeId)
    requires LogInv(c, s, h) && n in s.nodes && s.nodes[n].role == Leader
    ensures Rules(h, n, s.nodes[n]) && s.nodes[n].term >= 2
  {
    assert NodeLogOk(h, n, s.nodes[n]);
    assert LeaderKnown(c, s, h, s.nodes[n].term);
    assert ReignOk(h, s.nodes[n].term);
  }

  lemma SendLog(c: Config, s: State, h: History, step: Step, s': State)
    requires LogInv(c, s, h) && Moves(c, s, step, s')
    requires step.SendAppend? || step.SendHeartbeat?
    ensures LogInv(c, s', h)
  {
    var x := s.nodes[step.n];
    LeaderTerm(c, s, h, step.n);
    assert NodeLogOk(h, step.n, x);
    if step.SendAppend? {
      BuiltRequestOk(h, step.n, x, step.to, step.next, step.last, step.batch);
    }
    PlainStep(c, s, h, step, s');
  }

  lemma AppendedLogOk(h: History, n: NodeId, x: Node, q: AppendReq)
    requires ReignsOk(h) && NodeLogOk(h, n, x) && ReqOk(h, q)
    ensures NodeLogOk(h, n, Appended(x, q))
  {
    var y := Appended(x, q);
    AppendedFrame(x, q);
    if q.term >= x.term && PrevMatches(x.log, q) {
      MergeMoves(h, x.log, q);
      MovesBacked(h, q.term, x.log, y.log);
    }
  }

  lemma HandleAppendLog(c: Config, s: State, h: History, s': State, n: NodeId, q: AppendReq)
    requires LogInv(c, s, h) && Moves(c, s, HandleAppend(n, q), s')
    ensures LogInv(c, s', h)
  {
    assert NodeLogOk(h, n, s.nodes[n]);
    AppendedLogOk(h, n, s.nodes[n], q);
    AppendedFrame(s.nodes[n], q);
    PlainStep(c, s, h, HandleAppend(n, q), s');
  }

  lemma HandleAppendCrashLog(c: Config, s: State, h: History, s': State, n: NodeId, q: AppendReq, m: nat)
    requires LogInv(c, s, h) && Moves(c, s, HandleAppendCrash(n, q, m), s')
    ensures LogInv(c, s', h)
  {
    var x := s.nodes[n];
    assert NodeLogOk(h, n, x);
    StoredPartMoves(h, x.log, q, m);
    MovesBacked(h, q.term, x.log, s'.nodes[n].log);
    PlainStep(c, s, h, HandleAppendCrash(n, q, m), s');
  }

  /** A new reign starts with the log of the winner. */
  lemma CrownedReigns(h: History, t: nat, reign: Reign)
    requires ReignsOk(h) && t !in h && t >= 1 && AllBacked(h, reign.log) && TermsBelow(reign.log, t) && reign.base == |reign.log|
    ensures var h' := h[t := reign]; Grows(h, h') && ReignsOk(h') && AllBacked(h', reign.log)
  {
    var h', log := h[t := reign], reign.log;
    BackedGrown(h, h', log);
    forall u | u in h' ensures ReignOk(h', u) {
      if u == t {
        forall i: nat | i < |log| ensures log[i].term < t {
          assert Backed(h, log, i);
        }
      } else {
        assert ReignOk(h, u);
        BackedGrown(h, h', h[u].log);
      }
    }
  }

  lemma CrownLog(c: Config, s: State, h: History, s': State, n: NodeId)
    requires LogInv(c, s, h) && ElectionStep(c, s, s', n) && ElectionInv(c, s')
    requires s.nodes[n].role == Candidate && s.nodes[n].voting && s.nodes[n].asked != {}
    requires s'.nodes[n].role == Leader && !s'.nodes[n].transfer
    requires s'.nodes[n].term == s.nodes[n].term && s'.nodes[n].log == s.nodes[n].log
    requires s'.net == s.net
    ensures var h' := h[s'.nodes[n].term := Elected(c, s.net, n, s'.nodes[n])];
            s'.nodes[n].term !in h && Grows(h, h') && LogInv(c, s', h')
  {
    hide LogInv, ElectionInv, AllBacked, ReignsOk, Won;
    var y := s'.nodes[n];
    var h' := h[y.term := Elected(c, s.net, n, y)];
    WinnerIsNew(c, s, h, s', n);
    CrownedReigns(h, y.term, Elected(c, s.net, n, y));
    assert LeaderKnown(c, s', h', y.term);
    assert NodeLogOk(h', n, y);
    LogInvKept(c, s, h, s', h', n);
  }

  lemma WinnerIsNew(c: Config, s: State, h: History, s': State, n: NodeId)
    requires LogInv(c, s, h) && n in s.nodes && n in s'.nodes && ElectionInv(c, s')
    requires s.nodes[n].role == Candidate && s.nodes[n].voting && s.nodes[n].asked != {}
    requires s'.nodes[n].role == Leader && s'.nodes[n].term == s.nodes[n].term && s'.net == s.net
    ensures Won(c, s'.net, s'.nodes[n].term, n) && s'.nodes[n].term !in h && ReignsOk(h)
    ensures s'.nodes[n].term >= 2 && AllBacked(h, s.nodes[n].log) && TermsBelow(s.nodes[n].log, s'.nodes[n].term)
  {
    assert NodeLogOk(h, n, s.nodes[n]);
    assert NodeInv(c, s'.net, n, s'.nodes[n]);
    NotYetLed(c, s, h, n);
  }

  lemma TallyLog(c: Config, s: State, h: History, s': State, n: NodeId, r: VoteResp)
    requires LogInv(c, s, h) && Moves(c, s, Tally(n, r), s')
    ensures Grows(h, NextHistory(c, s, h, Tally(n, r)))
    ensures LogInv(c, s', NextHistory(c, s, h, Tally(n, r)))
  {
    TalliedFrame(c, n, s.nodes[n], r);
    if s'.nodes[n].role == Leader {
      StepKeepsElectionInv(c, s, Tally(n, r), s');
      CrownLog(c, s, h, s', n);
    } else {
      assert NodeLogOk(h, n, s.nodes[n]);
      PlainStep(c, s, h, Tally(n, r), s');
    }
  }

  /** Nobody has led the term of a candidate that has just collected a majority. */
  lemma NotYetLed(c: Config, s: State, h: History, n: NodeId)
    requires LogInv(c, s, h) && n in s.nodes
    requires s.nodes[n].role == Candidate && s.nodes[n].voting && s.nodes[n].asked != {}
    requires Won(c, s.net, s.nodes[n].term, n)
    ensures s.nodes[n].term !in h
  {
    assert NodeLogOk(h, n, s.nodes[n]);
    if s.nodes[n].term in h {
      assert LeaderKnown(c, s, h, s.nodes[n].term);
      OneWinner(c, s, s.nodes[n].term, n, h[s.nodes[n].term].leader.value);
    }
  }

  /** A reign goes on when its leader appends entries of its own term. */
  lemma GrownReigns(h: History, t: nat, log: seq<Entry>, more: seq<Entry>)
    requires ReignsOk(h) && t in h && h[t].log == log
    requires forall i: nat :: i < |more| ==> more[i].term == t
    ensures var h' := h[t := h[t].(log := log + more)]; Grows(h, h') && ReignsOk(h') && AllBacked(h', log + more)
  {
    var h' := h[t := h[t].(log := log + more)];
    assert ReignOk(h, t);
    assert Grows(h, h');
    BackedGrown(h, h', log);
    forall i: nat | i < |log + more| ensures Backed(h', log + more, i) {
      if i < |log| {
        assert Backed(h', log, i);
        assert (log + more)[..i + 1] == log[..i + 1];
      }
    }
    forall u | u in h' ensures ReignOk(h', u) {
      if u != t {
        assert ReignOk(h, u);
        BackedGrown(h, h', h[u].log);
      }
    }
  }

  lemma GrowLog(c: Config, s: State, h: History, s': State, n: NodeId, more: seq<Entry>)
    requires LogInv(c, s, h) && ElectionStep(c, s, s', n) && ElectionInv(c, s')
    requires s.nodes[n].role == Leader
    requires forall i: nat :: i < |more| ==> more[i].term == s.nodes[n].term
    requires s'.nodes[n].role == Leader && !s'.nodes[n].transfer && s'.nodes[n].term == s.nodes[n].term
    requires s'.nodes[n].log == s.nodes[n].log + more
    requires s'.net == s.net
    ensures var t := s.nodes[n].term;
            t in h && Grows(h, h[t := h[t].(log := s'.nodes[n].log)]) && LogInv(c, s', h[t := h[t].(log := s'.nodes[n].log)])
  {
    hide ElectionInv, AllBacked, ReignsOk, Won;
    var x := s.nodes[n];
    assert NodeLogOk(h, n, x);
    LeaderTerm(c, s, h, n);
    GrownReigns(h, x.term, x.log, more);
    LogInvKept(c, s, h, s', h[x.term := h[x.term].(log := x.log + more)], n);
  }

  lemma DispatchLog(c: Config, s: State, h: History, s': State, n: NodeId, cmds: seq<int>)
    requires LogInv(c, s, h) && Moves(c, s, Dispatch(n, cmds), s')
    ensures Grows(h, NextHistory(c, s, h, Dispatch(n, cmds)))
    ensures LogInv(c, s', NextHistory(c, s, h, Dispatch(n, cmds)))
  {
    var x := s.nodes[n];
    assert NodeLogOk(h, n, x);
    StepKeepsElectionInv(c, s, Dispatch(n, cmds), s');
    GrowLog(c, s, h, s', n, seq(|cmds|, i requires 0 <= i < |cmds| => Entry(x.term, cmds[i])));
  }

  /** Every step keeps the invariant, and the history only grows. */
  lemma StepKeepsLogInv(c: Config, s: State, h: History, step: Step, s': State)
    requires LogInv(c, s, h) && Moves(c, s, step, s')
    ensures Grows(h, NextHistory(c, s, h, step)) && LogInv(c, s', NextHistory(c, s, h, step))
  {
    hide LogInv, Moves, Enabled, NextNode;
    match step {
      case HandleVote(n, q) => HandleVoteLog(c, s, h, s', n, q);
      case HandleVoteTorn(_, _) => CrashLog(c, s, h, step, s');
      case ElectSelfCrash(_, _) => CrashLog(c, s, h, step, s');
      case ElectSelf(n) => ElectSelfLog(c, s, h, s', n);
      case Tally(n, r) => TallyLog(c, s, h, s', n, r);
      case Dispatch(n, cmds) => DispatchLog(c, s, h, s', n, cmds);
      case SendAppend(_, _, _, _, _) => SendLog(c, s, h, step, s');
      case SendHeartbeat(_, _) => SendLog(c, s, h, step, s');
      case HandleAppend(n, q) => HandleAppendLog(c, s, h, s', n, q);
      case HandleAppendCrash(n, q, m) => HandleAppendCrashLog(c, s, h, s', n, q, m);
      case _ => RoleLog(c, s, h, step, s');
    }
  }

  lemma InitLogInv(c: Config, s: State)
    requires Init(c, s)
    ensures LogInv(c, s, InitHistory())
  {
    var h := InitHistory();
    InitElectionInv(c, s);
    assert AllBacked(h, [BootEntry]);
  }

  lemma {:induction false} LogInvHolds(c: Config, r: Run, i: nat)
    requires ValidRun(c, r) && i < |r.states|
    ensures LogInv(c, r.states[i], HistoryAt(c, r, i))
  {
    hide LogInv, Moves, Init, NextHistory;
    if i == 0 {
      InitLogInv(c, r.states[0]);
    } else {
      LogInvHolds(c, r, i - 1);
      assert Moves(c, r.states[i - 1], r.steps[i - 1], r.states[i - 1 + 1]);
      StepKeepsLogInv(c, r.states[i - 1], HistoryAt(c, r, i - 1), r.steps[i - 1], r.states[i]);
    }
  }

  lemma {:induction false} HistoryGrows(c: Config, r: Run, i: nat, j: nat)
    requires ValidRun(c, r) && i <= j < |r.states|
    ensures Grows(HistoryAt(c, r, i), HistoryAt(c, r, j))
  {
    hide LogInv, Moves, Init, NextHistory;
    if i < j {
      HistoryGrows(c, r, i, j - 1);
      LogInvHolds(c, r, j - 1);
      assert Moves(c, r.states[j - 1], r.steps[j - 1], r.states[j - 1 + 1]);
      StepKeepsLogInv(c, r.states[j - 1], HistoryAt(c, r, j - 1), r.steps[j - 1], r.states[j]);
      GrowsTrans(HistoryAt(c, r, i), HistoryAt(c, r, j - 1), HistoryAt(c, r, j));
    }
  }

  lemma GrowsTrans(h: History, h': History, h'': History)
    requires Grows(h, h') && Grows(h', h'')
    ensures Grows(h, h'')
  {
  }

  // ---------------------------------------------------------------------
  // The theorem
  // ---------------------------------------------------------------------

  lemma NodeBacked(c: Config, r: Run, i: nat, k: nat, n: NodeId)
    requires ValidRun(c, r) && i <= k < |r.states| && n in r.states[i].nodes
    ensures AllBacked(HistoryAt(c, r, k), r.states[i].nodes[n].log)
  {
    LogInvHolds(c, r, i);
    assert NodeLogOk(HistoryAt(c, r, i), n, r.states[i].nodes[n]);
    HistoryGrows(c, r, i, k);
    BackedGrown(HistoryAt(c, r, i), HistoryAt(c, r, k), r.states[i].nodes[n].log);
  }

  /**
   Log matching, also between different moments of a run: two logs with the
   same term at an index are the same up to that index.
   */
  lemma LogMatchingHolds(c: Config, r: Run, i: nat, j: nat, n: NodeId, m: NodeId, k: nat)
    requires ValidRun(c, r) && i < |r.states| && j < |r.states|
    requires n in r.states[i].nodes && m in r.states[j].nodes
    requires k < |r.states[i].nodes[n].log| && k < |r.states[j].nodes[m].log|
    requires r.states[i].nodes[n].log[k].term == r.states[j].nodes[m].log[k].term
    ensures r.states[i].nodes[n].log[..k + 1] == r.states[j].nodes[m].log[..k + 1]
  {
    var top := if i <= j then j else i;
    NodeBacked(c, r, i, top, n);
    NodeBacked(c, r, j, top, m);
    BackedMatch(HistoryAt(c, r, top), r.states[i].nodes[n].log, r.states[j].nodes[m].log, k);
  }
}
