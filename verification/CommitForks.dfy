/**
 Runs of five servers, with whole votes and covered commits, put together from
 elections and requests: for every request with an index as in module
 CommitClamp, one in which its leader has the log and the commit index, and
 server 1 has branched off at that index.
 */
module CommitForks {
  import opened Wrappers
  import opened Quorums
  import opened Commitment
  import opened Cluster
  import opened LeaderCompleteness
  import opened SafetySteps
  import opened StateMachineSafety
  import opened Replication
  import opened CommitClamp

  const Five: Config := Config({0, 1, 2, 3, 4}, {0, 1, 2, 3, 4})

  // ---------------------------------------------------------------------
  // Reachable states
  // ---------------------------------------------------------------------

  ghost predicate GoodRun(r: Run) {
    ValidRun(Five, r) && WholeVotes(Five, r) && CoveredCommits(r)
  }

  /** A good run ends in this state. */
  ghost predicate Reached(s: State) {
    exists r :: GoodRun(r) && r.states[|r.states| - 1] == s
  }

  lemma RunTo(s: State) returns (r: Run)
    requires Reached(s)
    ensures GoodRun(r) && |r.states| > 0 && r.states[|r.states| - 1] == s
  {
    r :| GoodRun(r) && r.states[|r.states| - 1] == s;
  }

  lemma ReachedStep(s: State, step: Step, s': State)
    requires Reached(s) && Moves(Five, s, step, s') && VoteWhole(Five, s, step) && CommitCovered(s, step)
    ensures Reached(s')
  {
    hide Moves, Init, VoteWhole, CommitCovered;
    var r :| GoodRun(r) && r.states[|r.states| - 1] == s;
    var r' := Run(r.states + [s'], r.steps + [step]);
    forall i | 0 <= i < |r'.steps|
      ensures Moves(Five, r'.states[i], r'.steps[i], r'.states[i + 1])
      ensures VoteWhole(Five, r'.states[i], r'.steps[i]) && CommitCovered(r'.states[i], r'.steps[i])
    {
      if i < |r.steps| {
        assert Moves(Five, r.states[i], r.steps[i], r.states[i + 1]);
        assert VoteWhole(Five, r.states[i], r.steps[i]) && CommitCovered(r.states[i], r.steps[i]);
      }
    }
    assert GoodRun(r') && r'.states[|r'.states| - 1] == s';
  }

  /** Only server `n` has changed, and no message is gone. */
  ghost predicate OnlyChanged(s: State, s': State, n: NodeId) {
    && n in s'.nodes && s'.nodes == s.nodes[n := s'.nodes[n]]
    && s.net.voteReqs <= s'.net.voteReqs && s.net.voteResps <= s'.net.voteResps
    && s.net.appReqs <= s'.net.appReqs && s.net.appResps <= s'.net.appResps
  }

  /** A step of server `n` that no premise forbids. */
  lemma Takes(s: State, step: Step, n: NodeId) returns (s': State)
    requires Reached(s) && step.n == n && Enabled(Five, s, step)
    requires !step.HandleVoteTorn? && !step.ElectSelfCrash?
    requires step.HandleAppend? ==> Covered(s.nodes[n], step.app)
    ensures Reached(s') && s' == Next(Five, s, step) && OnlyChanged(s, s', n)
  {
    hide NextNode, NextNet, Reached, Enabled, Covered, Endangered;
    s' := Next(Five, s, step);
    NetGrows(Five, s, step);
    StepIsGood(Five, s, step);
    ReachedStep(s, step, s');
  }

  lemma NetGrows(c: Config, s: State, step: Step)
    requires Enabled(c, s, step)
    ensures var net := NextNet(c, s, step);
            && s.net.voteReqs <= net.voteReqs && s.net.voteResps <= net.voteResps
            && s.net.appReqs <= net.appReqs && s.net.appResps <= net.appResps
  {
    hide Enabled, VoteAnswer, BuiltRequest, AppendAnswer;
  }

  lemma StepIsGood(c: Config, s: State, step: Step)
    requires Enabled(c, s, step) && !step.HandleVoteTorn? && !step.ElectSelfCrash?
    requires step.HandleAppend? ==> Covered(s.nodes[step.n], step.app)
    ensures step.n in s.nodes && VoteWhole(c, s, step) && CommitCovered(s, step)
  {
    hide Covered, Judge, Present;
  }

  // ---------------------------------------------------------------------
  // What a server does on its own
  // ---------------------------------------------------------------------

  /** What a server keeps through an election. */
  ghost predicate SameLog(x: Node, y: Node) {
    y.log == x.log && y.commit == x.commit && y.applied == x.applied
  }

  /** A server that can be made a follower of a later term. */
  ghost predicate Calm(x: Node) {
    x.role != Candidate && !x.transfer && x.voteTerm <= x.term
  }

  lemma Learns(s: State, n: NodeId, t: nat) returns (s': State)
    requires Reached(s) && n in s.nodes && t > s.nodes[n].term && Calm(s.nodes[n])
    ensures Reached(s') && OnlyChanged(s, s', n) && SameLog(s.nodes[n], s'.nodes[n])
    ensures var y := s'.nodes[n]; y.term == t && y.role == Follower && y.leader == None && y.voteTerm == s.nodes[n].voteTerm && Calm(y)
  {
    hide Reached;
    s' := Takes(s, LearnTerm(n, t), n);
  }

  lemma StepsDown(s: State, n: NodeId) returns (s': State)
    requires Reached(s) && n in s.nodes && s.nodes[n].role == Leader && Calm(s.nodes[n])
    ensures Reached(s') && OnlyChanged(s, s', n) && SameLog(s.nodes[n], s'.nodes[n])
    ensures var y := s'.nodes[n]; y.term == s.nodes[n].term && y.role == Follower && y.voteTerm == s.nodes[n].voteTerm && Calm(y)
  {
    hide Reached;
    s' := Takes(s, StepDown(n), n);
  }

  // ---------------------------------------------------------------------
  // Elections
  // ---------------------------------------------------------------------

  function Asked(n: NodeId, x: Node): VoteReq {
    VoteReq(x.term + 1, n, |x.log|, LastTerm(x.log), false)
  }

  /** A candidate that waits for the answers of `asked` and has counted `granted`. */
  ghost predicate Running(x: Node, y: Node, n: NodeId, asked: set<NodeId>, granted: nat) {
    && SameLog(x, y) && y.term == y.voteTerm == x.term + 1 && y.role == Candidate && y.voting && !y.transfer
    && y.asked == asked && y.granted == granted
  }

  lemma Awakes(s: State, n: NodeId) returns (s': State)
    requires Reached(s) && n in s.nodes && n in Five.voters
    requires s.nodes[n].role == Follower && Calm(s.nodes[n]) && |s.nodes[n].log| > 0
    ensures Reached(s') && OnlyChanged(s, s', n) && SameLog(s.nodes[n], s'.nodes[n])
    ensures var y := s'.nodes[n]; y.role == Candidate && !y.voting && !y.transfer && y.term == s.nodes[n].term
  {
    hide Reached;
    s' := Takes(s, HeartbeatTimeout(n), n);
  }

  lemma Asks(s: State, n: NodeId) returns (s': State)
    requires Reached(s) && n in s.nodes && n in Five.voters
    requires s.nodes[n].role == Follower && Calm(s.nodes[n]) && |s.nodes[n].log| > 0
    ensures Reached(s') && OnlyChanged(s, s', n) && Running(s.nodes[n], s'.nodes[n], n, Five.voters, 0)
    ensures Asked(n, s.nodes[n]) in s'.net.voteReqs
    ensures var t := s.nodes[n].term + 1; VoteResp(t, n, n, t, true) in s'.net.voteResps
  {
    hide Reached;
    var s1 := Awakes(s, n);
    s' := Takes(s1, ElectSelf(n), n);
  }

  /** `v` grants the request, having no leader and no vote in that term. */
  lemma Votes(s: State, v: NodeId, q: VoteReq) returns (s': State)
    requires Reached(s) && v in s.nodes && v in Five.voters && q.cand in Five.voters && v != q.cand && q in s.net.voteReqs
    requires var x := s.nodes[v]; Calm(x) && x.leader == None && x.role == Follower && x.term == q.term && x.voteTerm < q.term
    requires UpToDate(q.lastIndex, q.lastTerm, s.nodes[v].log)
    ensures Reached(s') && OnlyChanged(s, s', v) && SameLog(s.nodes[v], s'.nodes[v])
    ensures var y := s'.nodes[v]; y.term == q.term && y.role == Follower && y.leader == None && Calm(y)
    ensures VoteResp(q.term, v, q.cand, q.term, true) in s'.net.voteResps
  {
    hide Reached, UpToDate;
    s' := Takes(s, HandleVote(v, q), v);
  }

  lemma Counts(s: State, n: NodeId, x: Node, v: NodeId, asked: set<NodeId>, granted: nat) returns (s': State)
    requires Reached(s) && n in s.nodes && Running(x, s.nodes[n], n, asked, granted) && v in asked && granted < 2
    requires VoteResp(x.term + 1, v, n, x.term + 1, true) in s.net.voteResps
    ensures Reached(s') && OnlyChanged(s, s', n) && Running(x, s'.nodes[n], n, asked - {v}, granted + 1)
  {
    hide Reached;
    assert |Five.voters| == 5;
    s' := Takes(s, Tally(n, VoteResp(x.term + 1, v, n, x.term + 1, true)), n);
  }

  /** A leader of term `t` with the log of `x` that has not reported anything. */
  ghost predicate Leads(x: Node, y: Node, t: nat) {
    && SameLog(x, y) && y.term == y.voteTerm == t && y.role == Leader && !y.transfer
    && y.ledger == NewLedger(Five.voters, |x.log| + 1)
  }

  lemma Wins(s: State, n: NodeId, x: Node, v: NodeId, asked: set<NodeId>) returns (s': State)
    requires Reached(s) && n in s.nodes && Running(x, s.nodes[n], n, asked, 2) && v in asked
    requires VoteResp(x.term + 1, v, n, x.term + 1, true) in s.net.voteResps
    ensures Reached(s') && OnlyChanged(s, s', n) && Leads(x, s'.nodes[n], x.term + 1)
  {
    hide Reached;
    assert |Five.voters| == 5;
    s' := Takes(s, Tally(n, VoteResp(x.term + 1, v, n, x.term + 1, true)), n);
  }

  /** Server `v` can vote for `n` in term `t`. */
  ghost predicate Helps(s: State, v: NodeId, n: NodeId, t: nat) {
    && n in s.nodes && v in s.nodes && v != n && Calm(s.nodes[v]) && s.nodes[v].term < t
    && UpToDate(|s.nodes[n].log|, LastTerm(s.nodes[n].log), s.nodes[v].log)
  }

  /** Servers other than these three are as they were, and no message is gone. */
  ghost predicate OthersSame(s: State, s': State, n: NodeId) {
    && s'.nodes.Keys == s.nodes.Keys
    && (forall m :: m in s.nodes && m !in {n, 2, 3} ==> s'.nodes[m] == s.nodes[m])
    && s.net.appReqs <= s'.net.appReqs && s.net.appResps <= s'.net.appResps
  }

  /** The server is a follower one term before the one it will lead. */
  lemma Prepares(s: State, n: NodeId, t: nat) returns (s': State)
    requires Reached(s) && n in s.nodes && Calm(s.nodes[n]) && s.nodes[n].term < t
    ensures Reached(s') && OnlyChanged(s, s', n) && SameLog(s.nodes[n], s'.nodes[n])
    ensures var y := s'.nodes[n]; y.term == t - 1 && y.role == Follower && Calm(y)
  {
    hide Reached;
    if s.nodes[n].term < t - 1 {
      s' := Learns(s, n, t - 1);
    } else if s.nodes[n].role == Leader {
      s' := StepsDown(s, n);
    } else {
      s' := s;
    }
  }

  lemma Supports(s: State, v: NodeId, q: VoteReq) returns (s': State)
    requires Reached(s) && v in s.nodes && v in Five.voters && q.cand in Five.voters && v != q.cand && q in s.net.voteReqs
    requires Calm(s.nodes[v]) && s.nodes[v].term < q.term && UpToDate(q.lastIndex, q.lastTerm, s.nodes[v].log)
    ensures Reached(s') && OnlyChanged(s, s', v) && SameLog(s.nodes[v], s'.nodes[v])
    ensures var y := s'.nodes[v]; y.term == q.term && y.role == Follower && Calm(y)
    ensures VoteResp(q.term, v, q.cand, q.term, true) in s'.net.voteResps
  {
    hide Reached, UpToDate;
    var s1 := Learns(s, v, q.term);
    s' := Votes(s1, v, q);
  }

  /** `n` becomes the leader of term `t` with the votes of servers 2 and 3. */
  lemma Elect(s: State, n: NodeId, t: nat) returns (s': State)
    requires Reached(s) && s.nodes.Keys == Five.servers && n in {0, 1, 4} && Calm(s.nodes[n]) && s.nodes[n].term < t
    requires |s.nodes[n].log| > 0 && Helps(s, 2, n, t) && Helps(s, 3, n, t)
    ensures Reached(s') && OthersSame(s, s', n) && Leads(s.nodes[n], s'.nodes[n], t)
    ensures forall v :: v in {2, 3} ==> SameLog(s.nodes[v], s'.nodes[v]) && s'.nodes[v].term == t && s'.nodes[v].role == Follower && Calm(s'.nodes[v])
  {
    hide Reached, UpToDate;
    var s1 := Prepares(s, n, t);
    var x, q := s1.nodes[n], Asked(n, s1.nodes[n]);
    var s2 := Asks(s1, n);
    var s3 := Supports(s2, 2, q);
    var s4 := Supports(s3, 3, q);
    var s5 := Counts(s4, n, x, n, Five.voters, 0);
    var s6 := Counts(s5, n, x, 2, Five.voters - {n}, 1);
    s' := Wins(s6, n, x, 3, Five.voters - {n} - {2});
  }

  // ---------------------------------------------------------------------
  // Entries
  // ---------------------------------------------------------------------

  /** Only the leader itself has reported, and nothing is committed. */
  ghost predicate Alone(l: Ledger<NodeId>, n: NodeId, k: nat) {
    && l.reports.Keys == Five.voters && l.index == 0 && n in l.reports && l.reports[n] <= k
    && forall v :: v in l.reports && v != n ==> l.reports[v] == 0
  }

  /** Less than a majority has reported anything. */
  lemma FewReports(m: map<NodeId, nat>, a: NodeId, b: NodeId)
    requires m.Keys == Five.voters && forall v :: v in m && v !in {a, b} ==> m[v] == 0
    ensures |m| > 0 && QuorumMatch(m) == 0
  {
    assert |m| == |m.Keys| == 5;
    assert Holders(m, 0) == m.Keys;
    forall i: nat | i > 0 ensures |Holders(m, i)| < QuorumSize(|m|) {
      SubsetSize(Holders(m, i), {a, b});
    }
    QuorumMatchUnique(m, 0, QuorumMatch(m));
  }

  lemma ThreeReports(m: map<NodeId, nat>, n: NodeId, k: nat)
    requires m.Keys == Five.voters && n in {0, 1, 4} && m[n] >= k && m[2] == k && m[3] == k
    requires forall v :: v in m && v !in {n, 2, 3} ==> m[v] == 0
    ensures |m| > 0 && QuorumMatch(m) == k
  {
    assert |m| == |m.Keys| == 5;
    SubsetSize({n, 2, 3}, Holders(m, k));
    forall i: nat | i > k ensures |Holders(m, i)| < QuorumSize(|m|) {
      SubsetSize(Holders(m, i), {n});
    }
    QuorumMatchUnique(m, k, QuorumMatch(m));
  }

  /** The entries of a leader's term with these commands. */
  function Made(t: nat, cmds: seq<int>): seq<Entry> {
    seq(|cmds|, i requires 0 <= i < |cmds| => Entry(t, cmds[i]))
  }

  lemma WrittenNode(n: NodeId, x: Node, cmds: seq<int>)
    requires n in Five.voters && Alone(x.ledger, n, |x.log|) && |cmds| > 0
    ensures var y := Dispatched(n, x, cmds);
            && y == x.(log := x.log + Made(x.term, cmds), ledger := y.ledger) && y.ledger.start == x.ledger.start
            && Alone(y.ledger, n, |y.log|) && y.ledger.reports[n] == |y.log|
  {
    hide QuorumMatch;
    var y := Dispatched(n, x, cmds);
    assert y.log == x.log + Made(x.term, cmds);
    FewReports(x.ledger.reports[n := |y.log|], n, n);
  }

  lemma Writes(s: State, n: NodeId, cmds: seq<int>) returns (s': State)
    requires Reached(s) && n in s.nodes && n in Five.voters && s.nodes[n].role == Leader && |cmds| > 0
    requires Alone(s.nodes[n].ledger, n, |s.nodes[n].log|)
    ensures Reached(s') && OnlyChanged(s, s', n)
    ensures var x, y := s.nodes[n], s'.nodes[n];
            && y == x.(log := x.log + Made(x.term, cmds), ledger := y.ledger) && y.ledger.start == x.ledger.start
            && Alone(y.ledger, n, |y.log|) && y.ledger.reports[n] == |y.log|
  {
    hide Reached, Dispatched;
    WrittenNode(n, s.nodes[n], cmds);
    s' := Takes(s, Dispatch(n, cmds), n);
  }

  /** The request for the entries after `prev` up to `last`. */
  function Excerpt(n: NodeId, x: Node, to: NodeId, prev: nat, last: nat): AppendReq
    requires prev <= last <= |x.log|
  {
    AppendReq(x.term, n, to, prev, LastTerm(x.log[..prev]), x.log[prev..last], x.commit)
  }

  lemma Sends(s: State, n: NodeId, to: NodeId, prev: nat, last: nat) returns (s': State)
    requires Reached(s) && n in s.nodes && to in Five.servers && to != n && s.nodes[n].role == Leader
    requires prev <= last <= |s.nodes[n].log|
    ensures Reached(s') && OnlyChanged(s, s', n) && s'.nodes == s.nodes
    ensures Excerpt(n, s.nodes[n], to, prev, last) in s'.net.appReqs
  {
    hide Reached;
    assert BuiltRequest(n, s.nodes[n], to, prev + 1, last, last + 1) == Excerpt(n, s.nodes[n], to, prev, last) by {
      assert prev == last ==> s.nodes[n].log[prev..last] == [];
    }
    s' := Takes(s, SendAppend(n, to, prev + 1, last, last + 1), n);
    assert s'.nodes == s.nodes;
  }

  /** A log that is a prefix of `from` and gets a later part of it is a longer prefix. */
  lemma MergeExtends(from: seq<Entry>, p: nat, prev: nat, end: nat)
    requires prev <= p <= end <= |from|
    ensures Merge(from[..p], prev, from[prev..end]) == from[..end]
  {
    var log, entries := from[..p], from[prev..end];
    var i := Present(log, prev, entries);
    if i < |entries| {
      assert log[..p] == from[..p] && entries[i..|entries|] == from[p..end];
    } else {
      assert p == end;
    }
  }

  /** A follower with a prefix of the leader's log after it has taken more of it. */
  ghost predicate Extended(x: Node, y: Node, from: seq<Entry>, q: AppendReq) {
    && q.End() <= |from| && y.log == from[..q.End()] && y.term == q.term && y.role == Follower && Calm(y)
    && (q.commit == 0 ==> y.commit == x.commit && y.applied == x.applied)
    && (q.commit > x.commit && |x.applied| <= x.commit && q.commit >= q.End() ==> y.commit == q.End())
  }

  lemma ExtendedNode(x: Node, from: seq<Entry>, p: nat, q: AppendReq)
    requires q.prev <= p <= q.End() <= |from| && x.log == from[..p] && q.entries == from[q.prev..q.End()]
    requires q.prev > 0 ==> q.prevTerm == from[q.prev - 1].term
    requires x.term <= q.term && Calm(x) && (x.role == Leader ==> x.term < q.term)
    ensures Covered(x, q) && Extended(x, Appended(x, q), from, q) && AppendAnswer(x, q) == AppendResp(q, q.term, true, |x.log|)
  {
    hide Merge;
    MergeExtends(from, p, q.prev, q.End());
  }

  lemma Receives(s: State, v: NodeId, from: seq<Entry>, p: nat, q: AppendReq) returns (s': State)
    requires Reached(s) && v in s.nodes && q in s.net.appReqs && q.to == v
    requires q.prev <= p <= q.End() <= |from| && s.nodes[v].log == from[..p] && q.entries == from[q.prev..q.End()]
    requires q.prev > 0 ==> q.prevTerm == from[q.prev - 1].term
    requires s.nodes[v].term <= q.term && Calm(s.nodes[v]) && (s.nodes[v].role == Leader ==> s.nodes[v].term < q.term)
    ensures Reached(s') && OnlyChanged(s, s', v) && Extended(s.nodes[v], s'.nodes[v], from, q)
    ensures AppendResp(q, q.term, true, |s.nodes[v].log|) in s'.net.appResps
  {
    hide Reached, Appended, AppendAnswer, Covered, Extended;
    ExtendedNode(s.nodes[v], from, p, q);
    s' := Takes(s, HandleAppend(v, q), v);
  }

  // ---------------------------------------------------------------------
  // One server writes a log
  // ---------------------------------------------------------------------

  /** A helper: it has only the bootstrap entry. */
  ghost predicate Bare(x: Node, top: nat) {
    x.log == [BootEntry] && x.term <= top && x.role == Follower && Calm(x) && x.commit == 0 && x.applied == []
  }

  /** It leads in the term of the last entry, of which nothing is committed. */
  ghost predicate Reigns(x: Node, n: NodeId, log: seq<Entry>) {
    && x.role == Leader && x.term == LastTerm(log) && Alone(x.ledger, n, |log|)
    && x.ledger.reports[n] == |log| && 1 <= x.ledger.start <= |log|
  }

  /** A server that has the first `k` entries. */
  ghost predicate Idle(x: Node, from: seq<Entry>, k: nat, top: nat) {
    && 1 <= k <= |from| && x.log == from[..k] && x.term <= top && Calm(x) && x.commit == 0 && x.applied == []
  }

  ghost predicate Holds(s: State, n: NodeId, from: seq<Entry>, k: nat, top: nat) {
    && Reached(s) && s.nodes.Keys == Five.servers && n in {0, 1, 4}
    && Idle(s.nodes[n], from, k, top) && Bare(s.nodes[2], top) && Bare(s.nodes[3], top)
  }

  /** `n` has the first `k` entries, and the next one is of a later term or of the one it leads in. */
  ghost predicate Writer(s: State, n: NodeId, from: seq<Entry>, k: nat, top: nat) {
    && Holds(s, n, from, k, top)
    && (k < |from| ==> from[k].term > top || (from[k].term == top == s.nodes[n].term && Reigns(s.nodes[n], n, from[..k])))
  }

  /** `n` leads in term `t` and can write the next entry. */
  ghost predicate Ready(s: State, n: NodeId, from: seq<Entry>, k: nat, t: nat) {
    && Holds(s, n, from, k, t) && s.nodes[n].term == t && s.nodes[n].role == Leader
    && Alone(s.nodes[n].ledger, n, k) && 1 <= s.nodes[n].ledger.start <= k + 1
  }

  lemma NewIsAlone(n: NodeId, k: nat, start: nat)
    requires n in Five.voters
    ensures var l := NewLedger(Five.voters, start); Alone(l, n, k) && l.start == start
  {
  }

  lemma BootIsOld(log: seq<Entry>)
    requires |log| > 0 && log[0] == BootEntry && LastTerm(log) >= 1
    ensures UpToDate(|log|, LastTerm(log), [BootEntry])
  {
  }

  /** A new leader for the next entry. */
  lemma Succeeds(s: State, n: NodeId, from: seq<Entry>, k: nat, top: nat, t: nat) returns (s': State)
    requires Holds(s, n, from, k, top) && t > top && from[0] == BootEntry && LastTerm(from[..k]) >= 1
    ensures Ready(s', n, from, k, t) && OthersSame(s, s', n)
  {
    hide Reached, OthersSame, UpToDate, Alone, Reigns, NewLedger;
    BootIsOld(from[..k]);
    NewIsAlone(n, k, k + 1);
    s' := Elect(s, n, t);
    assert OthersSame(s, s', n);
    assert s'.nodes.Keys == s.nodes.Keys by { SameServers(s, s', n); }
  }

  lemma SameServers(s: State, s': State, n: NodeId)
    requires OthersSame(s, s', n)
    ensures s'.nodes.Keys == s.nodes.Keys
  {
  }

  lemma WrittenReady(s: State, n: NodeId, from: seq<Entry>, k: nat, t: nat, m: nat) returns (s': State)
    requires Ready(s, n, from, k, t) && k < m <= |from| && forall i :: k <= i < m ==> from[i].term == t
    ensures Ready(s', n, from, m, t) && OnlyChanged(s, s', n)
    ensures var l := s'.nodes[n].ledger; l.start == s.nodes[n].ledger.start && n in l.reports && l.reports[n] == m
  {
    hide Reached;
    var cmds := seq(m - k, i requires 0 <= i < m - k => from[k + i].cmd);
    s' := Writes(s, n, cmds);
    assert from[..k] + Made(t, cmds) == from[..m];
  }

  lemma Adds(s: State, n: NodeId, from: seq<Entry>, k: nat, top: nat) returns (s': State)
    requires Writer(s, n, from, k, top) && k < |from| && from[0] == BootEntry && LastTerm(from[..k]) >= 1
    requires k + 1 < |from| ==> from[k].term <= from[k + 1].term
    ensures Writer(s', n, from, k + 1, from[k].term) && OthersSame(s, s', n) && Reigns(s'.nodes[n], n, from[..k + 1])
  {
    hide Reached, Alone, Bare, Calm;
    var t := from[k].term;
    var s1 := s;
    if t > top {
      s1 := Succeeds(s, n, from, k, top, t);
    } else {
      assert Ready(s, n, from, k, t);
    }
    s' := WrittenReady(s1, n, from, k, t, k + 1);
  }

  lemma SameTwice(s: State, s1: State, s': State, n: NodeId)
    requires OthersSame(s, s1, n) && OthersSame(s1, s', n)
    ensures OthersSame(s, s', n)
  {
  }

  /** The server writes the log from its `k`th entry up to the `m`th. */
  lemma {:induction false} Builds(s: State, n: NodeId, from: seq<Entry>, k: nat, m: nat, top: nat, last: nat) returns (s': State)
    requires Writer(s, n, from, k, top) && Ordered(from, last) && k <= m <= |from|
    ensures Writer(s', n, from, m, if m > k then from[m - 1].term else top) && OthersSame(s, s', n)
    ensures if m > k then Reigns(s'.nodes[n], n, from[..m]) else s' == s
    decreases m - k
  {
    hide Holds, Reigns;
    assert 1 <= k by { WriterHolds(s, n, from, k, top); }
    if k == m {
      s' := s;
    } else {
      assert LastTerm(from[..k]) >= 1;
      var s1 := Adds(s, n, from, k, top);
      s' := Builds(s1, n, from, k + 1, m, from[k].term, last);
      SameTwice(s, s1, s', n);
    }
  }

  lemma WriterHolds(s: State, n: NodeId, from: seq<Entry>, k: nat, top: nat)
    requires Writer(s, n, from, k, top)
    ensures n in s.nodes && 1 <= k && Idle(s.nodes[n], from, k, top)
  {
  }

  // ---------------------------------------------------------------------
  // Another one branches off
  // ---------------------------------------------------------------------

  ghost predicate Begun(s: State) {
    Reached(s) && s.nodes.Keys == Five.servers && forall n :: n in s.nodes ==> s.nodes[n] == BootedNode()
  }

  lemma Begins() returns (s: State)
    ensures Begun(s)
  {
    s := State(map n | n in Five.servers :: BootedNode(), Net({}, {}, {}, {}));
    var r := Run([s], []);
    assert GoodRun(r) && r.states[|r.states| - 1] == s;
  }

  /** A leader sends a part of its log, and `v` stores it. */
  lemma Passes(s: State, n: NodeId, v: NodeId, from: seq<Entry>, p: nat, prev: nat, last: nat) returns (s': State)
    requires Reached(s) && n in s.nodes && v in s.nodes && v in Five.servers && v != n && s.nodes[n].role == Leader
    requires prev <= p <= last <= |from| && last <= |s.nodes[n].log| && s.nodes[n].log[..last] == from[..last]
    requires s.nodes[v].log == from[..p] && Calm(s.nodes[v])
    requires s.nodes[v].term <= s.nodes[n].term && (s.nodes[v].role == Leader ==> s.nodes[v].term < s.nodes[n].term)
    ensures Reached(s') && OnlyChanged(s, s', v)
    ensures var q := Excerpt(n, s.nodes[n], v, prev, last);
            Extended(s.nodes[v], s'.nodes[v], from, q) && AppendResp(q, q.term, true, |s.nodes[v].log|) in s'.net.appResps
  {
    hide Reached, Extended, Calm;
    var log := s.nodes[n].log;
    var q := Excerpt(n, s.nodes[n], v, prev, last);
    assert log[prev..last] == log[..last][prev..last] == from[..last][prev..last] == from[prev..last];
    assert prev > 0 ==> log[..prev][prev - 1] == log[..last][prev - 1] == from[..last][prev - 1];
    var s1 := Sends(s, n, v, prev, last);
    s' := Receives(s1, v, from, p, q);
  }

  lemma BegunWrites(s: State, n: NodeId, from: seq<Entry>, last: nat)
    requires Begun(s) && n in {0, 1, 4} && |from| > 0 && Ordered(from, last)
    ensures Writer(s, n, from, 1, 1)
  {
    hide Reached;
    assert from[..1] == [BootEntry];
  }

  /** A leader that has committed nothing sends a part of its log to a server that has less of it. */
  lemma Hands(s: State, n: NodeId, v: NodeId, from: seq<Entry>, k: nat, p: nat, prev: nat, last: nat, top: nat) returns (s': State)
    requires Reached(s) && n in s.nodes && v in s.nodes && v in Five.servers && v != n
    requires Idle(s.nodes[n], from, k, top) && s.nodes[n].role == Leader
    requires Idle(s.nodes[v], from, p, s.nodes[n].term) && (s.nodes[v].role == Leader ==> s.nodes[v].term < s.nodes[n].term)
    requires prev <= p <= last <= k
    ensures Reached(s') && OnlyChanged(s, s', v) && Idle(s'.nodes[v], from, last, s.nodes[n].term)
    ensures s'.nodes[v].role == Follower && s'.nodes[v].term == s.nodes[n].term
  {
    hide Reached;
    s' := Passes(s, n, v, from, p, prev, last);
  }

  /** `n` writes `e` entries, and server 1 gets the first `m` of them. */
  lemma Lends(s: State, n: NodeId, from: seq<Entry>, m: nat, e: nat, last: nat) returns (s': State)
    requires Begun(s) && n in {0, 4} && |from| > 0 && Ordered(from, last) && 1 <= m <= e <= |from|
    ensures Holds(s', 1, from, m, from[e - 1].term)
    ensures forall v :: v in {0, 4} ==> Idle(s'.nodes[v], from, if v == n then e else 1, from[e - 1].term)
  {
    hide Reached, Bare, Alone, Idle, Ordered;
    BegunWrites(s, n, from, last);
    BegunIdle(s, from, last, e);
    s' := Builds(s, n, from, 1, e, 1, last);
    assert LastTerm(from[..e]) == from[e - 1].term;
    if m >= 2 {
      s' := Hands(s', n, 1, from, e, 1, 1, m, from[e - 1].term);
    }
  }

  lemma BegunIdle(s: State, from: seq<Entry>, last: nat, e: nat)
    requires Begun(s) && |from| > 0 && Ordered(from, last) && 1 <= e <= |from|
    ensures from[0].term == 1 <= from[e - 1].term
    ensures forall v :: v in s.nodes ==> Idle(s.nodes[v], from, 1, 1) && s.nodes[v].role == Follower && Idle(s.nodes[v], from, 1, from[e - 1].term)
  {
    hide Reached;
    assert from[..1] == [BootEntry];
  }

  /** Then server 1 leads in term `t`. */
  lemma Opens(s: State, n: NodeId, from: seq<Entry>, m: nat, e: nat, t: nat, last: nat) returns (s': State)
    requires Begun(s) && n in {0, 4} && |from| > 0 && Ordered(from, last) && 1 <= m <= e <= |from| && from[e - 1].term < t
    ensures Ready(s', 1, from, m, t)
    ensures forall v :: v in {0, 4} ==> Idle(s'.nodes[v], from, if v == n then e else 1, from[e - 1].term)
  {
    hide Reached, Bare, Alone, Idle, Calm;
    var s1 := Lends(s, n, from, m, e, last);
    s' := Succeeds(s1, 1, from, m, from[e - 1].term, t);
  }

  lemma BranchReady(s: State, from: seq<Entry>, d: nat, t: nat)
    requires Ready(s, 1, from, d, t) && d < |from|
    ensures Ready(s, 1, Branched(from, d, t), d, t)
  {
    hide Reached, Bare, Alone, Calm;
    assert Branched(from, d, t)[..d] == from[..d];
  }

  /** Server 1 has branched off at `d`, and `n` has at least as much of the log and goes on in later terms. */
  ghost predicate Diverged(s: State, n: NodeId, from: seq<Entry>, d: nat, t: nat, k: nat) {
    && n in {0, 4} && d <= k && d < |from| && Holds(s, n, from, k, t) && from[k - 1].term <= t && (k < |from| ==> from[k].term > t)
    && Idle(s.nodes[1], Branched(from, d, t), d + 1, t) && Idle(s.nodes[4 - n], from, 1, t)
  }

  lemma Branches(s: State, n: NodeId, from: seq<Entry>, d: nat, t: nat, k: nat) returns (s': State)
    requires Ready(s, 1, from, d, t) && n in {0, 4} && 1 <= d <= k && d < |from|
    requires Idle(s.nodes[n], from, k, t) && Idle(s.nodes[4 - n], from, 1, t) && k <= |from| && from[k - 1].term <= t && (k < |from| ==> from[k].term > t)
    ensures Diverged(s', n, from, d, t, k)
  {
    hide Reached, Bare, Alone, Idle, Calm;
    BranchReady(s, from, d, t);
    s' := WrittenReady(s, 1, Branched(from, d, t), d, t, d + 1);
  }

  lemma IdleLater(x: Node, from: seq<Entry>, k: nat, top: nat, top': nat)
    requires Idle(x, from, k, top) && top <= top'
    ensures Idle(x, from, k, top') && x.term <= top
  {
  }

  /** The term is later than those of the entries up to `d`. */
  lemma BranchesEarly(s: State, n: NodeId, from: seq<Entry>, d: nat, t: nat, e: nat, last: nat) returns (s': State)
    requires Begun(s) && n in {0, 4} && |from| > 0 && Ordered(from, last) && 1 <= d <= e <= |from| && d < |from|
    requires from[e - 1].term < t && (e < |from| ==> from[e].term > t)
    ensures Diverged(s', n, from, d, t, e)
  {
    hide Reached, Diverged, Idle, Ordered, Bare, Alone;
    var s1 := Opens(s, n, from, d, e, t, last);
    IdleLater(s1.nodes[n], from, e, from[e - 1].term, t);
    IdleLater(s1.nodes[4 - n], from, 1, from[e - 1].term, t);
    s' := Branches(s1, n, from, d, t, e);
  }

  /** The term is that of the entry before `d`. */
  lemma BranchesLate(s: State, n: NodeId, from: seq<Entry>, d: nat, t: nat, e: nat, last: nat) returns (s': State)
    requires Begun(s) && n in {0, 4} && |from| > 0 && Ordered(from, last) && 1 <= e < d < |from|
    requires from[e - 1].term < t && from[d].term > t && forall i :: e <= i < d ==> from[i].term == t
    ensures Diverged(s', n, from, d, t, d)
  {
    hide Reached, Diverged, Idle, Ordered, Bare, Alone;
    var s1 := Opens(s, n, from, e, e, t, last);
    var s2 := WrittenReady(s1, 1, from, e, t, d);
    IdleLater(s2.nodes[n], from, e, from[e - 1].term, t);
    IdleLater(s2.nodes[4 - n], from, 1, from[e - 1].term, t);
    var s3 := Hands(s2, 1, n, from, d, e, e, d, t);
    s' := Branches(s3, n, from, d, t, d);
  }

  // ---------------------------------------------------------------------
  // Entries are committed
  // ---------------------------------------------------------------------

  lemma BothReported(l: Ledger<NodeId>, n: NodeId, k: nat, last: nat)
    requires Alone(l, n, last) && n in {0, 1, 4} && l.reports[n] >= k && l.start <= k && k > 0
    ensures Reported(Reported(l, 2, k), 3, k).index == k
  {
    hide QuorumMatch;
    var m := l.reports[2 := k];
    FewReports(m, n, 2);
    ThreeReports(m[3 := k], n, k);
  }

  lemma Hears(s: State, n: NodeId, a: AppendResp) returns (s': State)
    requires Reached(s) && n in s.nodes && a in s.net.appResps && a.req.leader == n && a.success && |a.req.entries| > 0
    requires s.nodes[n].role == Leader && s.nodes[n].term == a.req.term
    ensures Reached(s') && OnlyChanged(s, s', n)
    ensures s'.nodes[n] == s.nodes[n].(ledger := Reported(s.nodes[n].ledger, a.req.to, a.req.End()))
  {
    hide Reached, Reported;
    s' := Takes(s, HandleAppendResp(n, a), n);
  }

  lemma Commits(s: State, n: NodeId) returns (s': State)
    requires Reached(s) && n in s.nodes && s.nodes[n].role == Leader && s.nodes[n].ledger.index > 0
    ensures Reached(s') && OnlyChanged(s, s', n) && s'.nodes[n] == s.nodes[n].(commit := s.nodes[n].ledger.index)
  {
    hide Reached;
    s' := Takes(s, LeaderCommit(n), n);
  }

  /** A helper with the first `k` entries. */
  ghost predicate Served(x: Node, from: seq<Entry>, k: nat, t: nat) {
    k <= |from| && x.log == from[..k] && x.term == t && x.role == Follower && Calm(x)
  }

  /** `v` stores the first `k` entries and reports them. */
  lemma Acks(s: State, n: NodeId, v: NodeId, from: seq<Entry>, last: nat, k: nat, t: nat) returns (s': State)
    requires Reached(s) && n in s.nodes && v in s.nodes && v in {2, 3} && n !in {2, 3} && |from| > 0 && from[0] == BootEntry
    requires Idle(s.nodes[n], from, last, t) && s.nodes[n].role == Leader && s.nodes[n].term == t
    requires Bare(s.nodes[v], t) && 2 <= k <= last
    ensures Reached(s') && OthersSame(s, s', n) && s'.nodes[n] == s.nodes[n].(ledger := Reported(s.nodes[n].ledger, v, k))
    ensures Served(s'.nodes[v], from, k, t) && forall m :: m in s.nodes && m !in {n, v} ==> s'.nodes[m] == s.nodes[m]
  {
    hide Reached, Reported, Calm;
    assert from[..1] == [BootEntry];
    var s1 := Passes(s, n, v, from, 1, 1, k);
    var q := Excerpt(n, s.nodes[n], v, 1, k);
    s' := Hears(s1, n, AppendResp(q, q.term, true, 1));
  }

  /** The first `k` entries are stored by both helpers, and committed. */
  lemma Spreads(s: State, n: NodeId, from: seq<Entry>, last: nat, k: nat, t: nat) returns (s': State)
    requires Ready(s, n, from, last, t) && from[0] == BootEntry && 2 <= k <= last
    requires s.nodes[n].ledger.start <= k <= s.nodes[n].ledger.reports[n]
    ensures Reached(s') && OthersSame(s, s', n) && s'.nodes[n] == s.nodes[n].(ledger := s'.nodes[n].ledger, commit := k)
    ensures Served(s'.nodes[2], from, k, t) && Served(s'.nodes[3], from, k, t)
  {
    hide Reached, Reported, Bare, Alone, Served;
    BothReported(s.nodes[n].ledger, n, k, last);
    var s1 := Acks(s, n, 2, from, last, k, t);
    var s2 := Acks(s1, n, 3, from, last, k, t);
    s' := Commits(s2, n);
  }

  // ---------------------------------------------------------------------
  // The request
  // ---------------------------------------------------------------------

  /** Server 0 leads with the whole log and this commit index. */
  ghost predicate Complete(s: State, from: seq<Entry>, commit: nat, t: nat) {
    && Reached(s) && 0 in s.nodes && 1 in s.nodes
    && s.nodes[0].role == Leader && s.nodes[0].term == t && s.nodes[0].log == from && s.nodes[0].commit == commit
  }

  lemma DivergedWrites(s: State, n: NodeId, from: seq<Entry>, d: nat, t: nat, k: nat, m: nat, last: nat) returns (s': State)
    requires Diverged(s, n, from, d, t, k) && Ordered(from, last) && 1 <= m <= |from| && from[m - 1].term > t
    ensures Ready(s', n, from, m, from[m - 1].term) && OthersSame(s, s', n)
    ensures var l := s'.nodes[n].ledger; l.start <= m && l.reports[n] == m
  {
    hide Reached, Bare, Alone, OthersSame, Idle;
    assert 1 <= k <= |from| by { WriterHolds(s, n, from, k, t); }
    assert k < m;
    s' := Builds(s, n, from, k, m, t, last);
    assert LastTerm(from[..m]) == from[m - 1].term;
  }

  /** The index is one of the leader's own entries: it commits them itself. */
  lemma CommitsOwn(s: State, from: seq<Entry>, q: AppendReq, d: nat, t: nat, k: nat) returns (s': State)
    requires Diverged(s, 0, from, d, t, k) && Ordered(from, q.term) && t < q.term && 2 <= q.commit <= |from|
    requires forall i :: q.commit - 1 <= i < |from| ==> from[i].term == q.term
    ensures Complete(s', from, q.commit, q.term) && s'.nodes[1] == s.nodes[1]
  {
    hide Reached, Bare, Alone, Served, Calm;
    var s1 := DivergedWrites(s, 0, from, d, t, k, q.commit, q.term);
    if q.commit < |from| {
      s1 := WrittenReady(s1, 0, from, q.commit, q.term, |from|);
    }
    s' := Spreads(s1, 0, from, |from|, q.commit, q.term);
    assert from[..|from|] == from;
  }

  /** Server 0 has the first `b` entries, the commit index and a term, and both helpers have as many entries. */
  ghost predicate Informed(s: State, from: seq<Entry>, b: nat, commit: nat, t: nat) {
    && Reached(s) && s.nodes.Keys == Five.servers && Served(s.nodes[0], from, b, t) && s.nodes[0].commit == commit
    && Served(s.nodes[2], from, b, t) && Served(s.nodes[3], from, b, t)
  }

  /** A request without a commit index is late; one with it, but with fewer entries, comes first. */
  lemma Informs(s: State, from: seq<Entry>, b: nat, commit: nat, t: nat, top: nat) returns (s': State)
    requires Ready(s, 4, from, b, t) && from[0] == BootEntry && 2 <= commit <= b && Idle(s.nodes[0], from, 1, top) && top < t
    requires s.nodes[4].ledger.start <= b == s.nodes[4].ledger.reports[4]
    ensures Informed(s', from, b, commit, t) && s'.nodes[1] == s.nodes[1]
  {
    hide Reached, Bare, Alone, Calm;
    var q := Excerpt(4, s.nodes[4], 0, 1, b);
    var s1 := Sends(s, 4, 0, 1, b);
    var s2 := Spreads(s1, 4, from, b, b, t);
    var s3 := Passes(s2, 4, 0, from, 1, 1, commit);
    assert q in s3.net.appReqs;
    s' := Receives(s3, 0, from, commit, q);
  }

  /** The index is one of the entries the leader inherits: it has heard of it before its election. */
  lemma CommitsInherited(s: State, from: seq<Entry>, b: nat, q: AppendReq, t: nat) returns (s': State)
    requires Informed(s, from, b, q.commit, t) && t < q.term && 1 <= b && forall i :: b <= i < |from| ==> from[i].term == q.term
    ensures Complete(s', from, q.commit, q.term) && s'.nodes[1] == s.nodes[1]
  {
    hide Reached, Calm;
    s' := Elect(s, 0, q.term);
    NewIsAlone(0, b, b + 1);
    if b < |from| {
      var cmds := seq(|from| - b, i requires 0 <= i < |from| - b => from[b + i].cmd);
      s' := Writes(s', 0, cmds);
      assert from[..b] + Made(q.term, cmds) == from;
    } else {
      assert from[..b] == from;
    }
  }

  /** Where the terms of a log reach `t`. */
  lemma TermsReach(from: seq<Entry>, t: nat, last: nat) returns (e: nat)
    requires |from| > 0 && Ordered(from, last) && t >= 2
    ensures 1 <= e <= |from| && from[e - 1].term < t && forall i :: e <= i < |from| ==> from[i].term >= t
  {
    e := |from|;
    while from[e - 1].term >= t
      invariant 1 <= e <= |from| && forall i :: e <= i < |from| ==> from[i].term >= t
      decreases e
    {
      e := e - 1;
    }
  }

  lemma BranchesOff(n: NodeId, from: seq<Entry>, q: AppendReq, d: nat, t: nat) returns (s: State, k: nat)
    requires Sent(from, q) && ForksAt(from, q, d, t) && n in {0, 4}
    ensures Diverged(s, n, from, d, t, k)
  {
    hide Begun, Diverged, CommitTerm, CutFrom;
    var e := TermsReach(from, t, q.term);
    s := Begins();
    if d <= e {
      k := e;
      s := BranchesEarly(s, n, from, d, t, e, q.term);
    } else {
      assert LastTerm(from[..d]) == from[d - 1].term;
      k := d;
      s := BranchesLate(s, n, from, d, t, e, q.term);
    }
  }

  lemma DivergedParts(s: State, n: NodeId, from: seq<Entry>, d: nat, t: nat, k: nat)
    requires Diverged(s, n, from, d, t, k)
    ensures s.nodes.Keys == Five.servers && Idle(s.nodes[1], Branched(from, d, t), d + 1, t) && Idle(s.nodes[4 - n], from, 1, t)
  {
  }

  /** The index is committed by another leader, of the last term the leader's log has from before its own. */
  lemma CompletesLater(s: State, from: seq<Entry>, q: AppendReq, d: nat, t: nat, k: nat, b: nat) returns (s': State)
    requires Diverged(s, 4, from, d, t, k) && Ordered(from, q.term) && 2 <= q.commit <= b <= |from|
    requires t < from[b - 1].term < q.term && forall i :: b <= i < |from| ==> from[i].term == q.term
    ensures Complete(s', from, q.commit, q.term) && 1 in s.nodes && s'.nodes[1] == s.nodes[1]
  {
    hide Diverged, Complete, Informed, Idle, Bare, Alone;
    DivergedParts(s, 4, from, d, t, k);
    var s1 := DivergedWrites(s, 4, from, d, t, k, b, q.term);
    var s2 := Informs(s1, from, b, q.commit, from[b - 1].term, t);
    s' := CommitsInherited(s2, from, b, q, from[b - 1].term);
  }

  lemma Completes(from: seq<Entry>, q: AppendReq, d: nat, t: nat) returns (s: State)
    requires Sent(from, q) && ForksAt(from, q, d, t)
    ensures Complete(s, from, q.commit, q.term) && Idle(s.nodes[1], Branched(from, d, t), d + 1, t) && t < q.term
  {
    hide Diverged, Complete, CutFrom, Idle;
    var b := |Inherited(from, q.term)|;
    CommitTermBound(from, q);
    if q.commit > b {
      var s0, k := BranchesOff(0, from, q, d, t);
      DivergedParts(s0, 0, from, d, t, k);
      s := CommitsOwn(s0, from, q, d, t, k);
    } else {
      var s0, k := BranchesOff(4, from, q, d, t);
      DivergedParts(s0, 4, from, d, t, k);
      s := CompletesLater(s0, from, q, d, t, k, b);
    }
  }
}
