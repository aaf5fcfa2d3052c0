/**
 Continuations of a safe run. Any majority of the voters can be brought to
 followers of one term, elect the one that all others vote for, store its log
 with a new command, commit it and hand it over, whatever state the servers
 are in and without the help of the others. The theorem is in module
 Guarantees.
 */
module Progress {
  import opened Quorums
  import opened Commitment
  import opened Cluster
  import opened Election
  import opened LogMatching
  import opened LeaderCompleteness
  import opened SealedPrefixes
  import opened SafetySteps
  import opened StateMachineSafety
  import opened Replication
  import opened CommitClamp
  import opened CommitForks
  import opened Answers
  import opened SplitReads

  // ---------------------------------------------------------------------
  // Continuations of a run
  // ---------------------------------------------------------------------

  ghost predicate SafeRun(c: Config, r: Run) {
    ValidRun(c, r) && WholeVotes(c, r) && CoveredCommits(r)
  }

  ghost predicate Continues(r: Run, r': Run) {
    r.states <= r'.states && r.steps <= r'.steps
  }

  /** A safe continuation of `r` ends in this state. */
  ghost predicate From(c: Config, r: Run, s: State) {
    exists r' :: SafeRun(c, r') && Continues(r, r') && r'.states[|r'.states| - 1] == s
  }

  lemma FromStep(c: Config, r: Run, s: State, step: Step, s': State)
    requires From(c, r, s) && Moves(c, s, step, s') && VoteWhole(c, s, step) && CommitCovered(s, step)
    ensures From(c, r, s')
  {
    hide Moves, Init, VoteWhole, CommitCovered;
    var q :| SafeRun(c, q) && Continues(r, q) && q.states[|q.states| - 1] == s;
    var q' := Run(q.states + [s'], q.steps + [step]);
    forall i | 0 <= i < |q'.steps|
      ensures Moves(c, q'.states[i], q'.steps[i], q'.states[i + 1])
      ensures VoteWhole(c, q'.states[i], q'.steps[i]) && CommitCovered(q'.states[i], q'.steps[i])
    {
      if i < |q.steps| {
        assert Moves(c, q.states[i], q.steps[i], q.states[i + 1]);
        assert VoteWhole(c, q.states[i], q.steps[i]) && CommitCovered(q.states[i], q.steps[i]);
      }
    }
    assert SafeRun(c, q') && Continues(r, q') && q'.states[|q'.states| - 1] == s';
  }

  /** A step of server `n` that no premise forbids. */
  lemma Goes(c: Config, r: Run, s: State, step: Step, n: NodeId) returns (s': State)
    requires From(c, r, s) && step.n == n && Enabled(c, s, step)
    requires !step.HandleVoteTorn? && !step.ElectSelfCrash?
    requires step.HandleAppend? ==> Covered(s.nodes[n], step.app)
    ensures From(c, r, s') && s' == Next(c, s, step) && OnlyChanged(s, s', n)
  {
    hide NextNode, NextNet, From, Enabled, Covered, Endangered;
    s' := Next(c, s, step);
    NetGrows(c, s, step);
    StepIsGood(c, s, step);
    FromStep(c, r, s, step, s');
  }

  /** What every such state has. */
  lemma FromFacts(c: Config, r: Run, s: State, v: NodeId)
    requires From(c, r, s) && v in s.nodes
    ensures ValidConfig(c) && s.nodes.Keys == c.servers
    ensures var x := s.nodes[v]; x.voteTerm <= x.term && Applied(x) && TermsBelow(x.log, x.term)
  {
    hide Moves, Init;
    var q :| SafeRun(c, q) && Continues(r, q) && q.states[|q.states| - 1] == s;
    var i := |q.states| - 1;
    InitConfig(c, q);
    SafetyInvHolds(c, q, i);
    InvFacts(c, s, HistoryAt(c, q, i), v);
    ServersStay(c, q, i);
  }

  lemma InitConfig(c: Config, r: Run)
    requires ValidRun(c, r)
    ensures ValidConfig(c) && |r.states| > 0 && r.states[0].nodes.Keys == c.servers
  {
  }

  lemma InvFacts(c: Config, s: State, h: History, v: NodeId)
    requires SafetyInv(c, s, h) && v in s.nodes
    ensures var x := s.nodes[v]; x.voteTerm <= x.term && Applied(x) && TermsBelow(x.log, x.term)
  {
    hide VotesSafe, VotesKnown, ElectedOk, CandidateOk, OneRequest, Sealed;
    assert NodeSafe(c, s.net, h, s.nodes[v]);
    assert NodeLogOk(h, v, s.nodes[v]);
    VoteTermsReached(c, s, v);
  }

  // ---------------------------------------------------------------------
  // The election
  // ---------------------------------------------------------------------

  /** No server and no message is gone. */
  ghost predicate Grew(s: State, s': State) {
    && s'.nodes.Keys == s.nodes.Keys
    && s.net.voteReqs <= s'.net.voteReqs && s.net.voteResps <= s'.net.voteResps
    && s.net.appReqs <= s'.net.appReqs && s.net.appResps <= s'.net.appResps
  }

  /** Only servers of the group have changed. */
  ghost predicate OnlyIn(s: State, s': State, group: set<NodeId>) {
    Grew(s, s') && forall v :: v in s.nodes && v !in group ==> s'.nodes[v] == s.nodes[v]
  }

  lemma OnlyInMore(s: State, s1: State, s': State, v: NodeId, group: set<NodeId>)
    requires v in s.nodes && OnlyChanged(s, s1, v) && OnlyIn(s1, s', group)
    ensures OnlyIn(s, s', group + {v})
  {
  }

  lemma OnlyInNone(s: State, group: set<NodeId>)
    ensures OnlyIn(s, s, group)
  {
  }

  lemma Still(s: State, s': State, a: set<NodeId>, b: set<NodeId>)
    requires OnlyIn(s, s', a) && a !! b && b <= s.nodes.Keys
    ensures Grew(s, s') && forall v :: v in b ==> s'.nodes[v] == s.nodes[v]
  {
  }

  lemma ChangedIn(s: State, s': State, n: NodeId, group: set<NodeId>)
    requires n in s.nodes && n in group && OnlyChanged(s, s', n)
    ensures OnlyIn(s, s', group)
  {
  }

  lemma OnlyInLess(s: State, s1: State, s': State, a: set<NodeId>, group: set<NodeId>)
    requires OnlyIn(s, s1, group) && OnlyIn(s1, s', a) && a <= group
    ensures OnlyIn(s, s', group)
  {
  }

  /** A follower of term `t` that knows no leader and has not voted later, with the log it had. */
  ghost predicate Rests(x: Node, y: Node, t: nat) {
    SameLog(x, y) && y.term == t && y.role == Follower && y.leader.None? && !y.transfer && y.voteTerm <= t
  }

  lemma {:induction false} Settles(c: Config, r: Run, s: State, group: set<NodeId>, t: nat) returns (s': State)
    requires From(c, r, s) && group <= s.nodes.Keys && forall v :: v in group ==> s.nodes[v].term < t
    ensures From(c, r, s') && OnlyIn(s, s', group) && forall v :: v in group ==> Rests(s.nodes[v], s'.nodes[v], t)
    decreases |group|
  {
    hide From, OnlyIn;
    if group == {} {
      s' := s;
      OnlyInNone(s, {});
    } else {
      var v :| v in group;
      FromFacts(c, r, s, v);
      var s1 := Goes(c, r, s, LearnTerm(v, t), v);
      assert Rests(s.nodes[v], s1.nodes[v], t);
      hide Rests;
      s' := Settles(c, r, s1, group - {v}, t);
      Still(s1, s', group - {v}, {v});
      OnlyInMore(s, s1, s', v, group - {v});
      assert group - {v} + {v} == group;
    }
  }

  /** `n` stands for the next term. */
  lemma Campaigns(c: Config, r: Run, s: State, n: NodeId, t: nat) returns (s': State)
    requires From(c, r, s) && n in s.nodes && n in c.voters && Rests(s.nodes[n], s.nodes[n], t) && |s.nodes[n].log| > 0
    ensures From(c, r, s') && OnlyChanged(s, s', n) && CommitForks.Running(s.nodes[n], s'.nodes[n], n, c.voters, 0)
    ensures Bid(n, s.nodes[n], t + 1) in s'.net.voteReqs && VoteResp(t + 1, n, n, t + 1, true) in s'.net.voteResps
  {
    hide From;
    var s1 := Goes(c, r, s, HeartbeatTimeout(n), n);
    s' := Goes(c, r, s1, ElectSelf(n), n);
  }

  /** What a voter does that grants the request. */
  lemma GrantIs(c: Config, v: NodeId, x: Node, q: VoteReq, t: nat)
    requires Rests(x, x, t) && t < q.term && VoteAnswer(c, v, x, q).granted
    ensures VoteAnswer(c, v, x, q) == VoteResp(q.term, v, q.cand, q.term, true) && Rests(x, Voted(c, x, q), q.term)
  {
  }

  lemma {:induction false} Grants(c: Config, r: Run, s: State, q: VoteReq, t: nat, group: set<NodeId>) returns (s': State)
    requires From(c, r, s) && q in s.net.voteReqs && t < q.term && group <= s.nodes.Keys && group <= c.voters && q.cand !in group
    requires forall v :: v in group ==> Rests(s.nodes[v], s.nodes[v], t) && VoteAnswer(c, v, s.nodes[v], q).granted
    ensures From(c, r, s') && OnlyIn(s, s', group)
    ensures forall v :: v in group ==> Rests(s.nodes[v], s'.nodes[v], q.term) && VoteResp(q.term, v, q.cand, q.term, true) in s'.net.voteResps
    decreases |group|
  {
    hide From, VoteAnswer, Voted, Rests, OnlyIn;
    if group == {} {
      s' := s;
      OnlyInNone(s, {});
    } else {
      var v :| v in group;
      GrantIs(c, v, s.nodes[v], q, t);
      var s1 := Goes(c, r, s, HandleVote(v, q), v);
      s' := Grants(c, r, s1, q, t, group - {v});
      Still(s1, s', group - {v}, {v});
      OnlyInMore(s, s1, s', v, group - {v});
      assert group - {v} + {v} == group;
    }
  }

  /** A leader of term `t` with the log it had, and a new ledger. */
  ghost predicate Crown(c: Config, x: Node, y: Node, t: nat) {
    && SameLog(x, y) && y.term == t && y.role == Leader && !y.transfer
    && y.ledger == NewLedger(c.voters, |x.log| + 1)
  }

  lemma {:induction false} CountsUp(c: Config, r: Run, s: State, n: NodeId, x: Node, group: set<NodeId>, asked: set<NodeId>, granted: nat) returns (s': State)
    requires From(c, r, s) && n in s.nodes && CommitForks.Running(x, s.nodes[n], n, asked, granted) && group <= asked
    requires granted < QuorumSize(|c.voters|) <= granted + |group|
    requires forall v :: v in group ==> VoteResp(x.term + 1, v, n, x.term + 1, true) in s.net.voteResps
    ensures From(c, r, s') && OnlyChanged(s, s', n) && Crown(c, x, s'.nodes[n], x.term + 1)
    decreases |group|
  {
    hide From;
    var v :| v in group;
    s' := Goes(c, r, s, Tally(n, VoteResp(x.term + 1, v, n, x.term + 1, true)), n);
    if granted + 1 < QuorumSize(|c.voters|) {
      assert |group - {v}| == |group| - 1;
      s' := CountsUp(c, r, s', n, x, group - {v}, asked - {v}, granted + 1);
    }
  }

  lemma {:induction false} LaterTerm(nodes: map<NodeId, Node>, group: set<NodeId>) returns (t: nat)
    requires group <= nodes.Keys
    ensures t > 0 && forall v :: v in group ==> nodes[v].term < t
    decreases |group|
  {
    t := 1;
    if group != {} {
      var v :| v in group;
      var u := LaterTerm(nodes, group - {v});
      t := if nodes[v].term < u then u else nodes[v].term + 1;
    }
  }

  /** `n` leads the group in term `t`; all have the logs they had, which are from before. */
  ghost predicate Led(c: Config, s: State, s': State, group: set<NodeId>, n: NodeId, t: nat) {
    && group <= s.nodes.Keys && OnlyIn(s, s', group) && n in group && t > 0
    && Crown(c, s.nodes[n], s'.nodes[n], t) && |s.nodes[n].log| > 0
    && (forall v :: v in group && v != n ==> Rests(s.nodes[v], s'.nodes[v], t))
    && (forall v :: v in group ==> TermsBelow(s.nodes[v].log, t - 1))
  }

  lemma RestingIsFree(c: Config, v: NodeId, x: Node, y: Node, t: nat)
    requires Rests(x, y, t) && v in c.voters
    ensures Free(c, v, y, t + 1) && Rests(y, y, t)
  {
  }

  /** The group has settled in term `t`, and `n` is the one all others vote for. */
  lemma ElectsOne(c: Config, r: Run, s: State, group: set<NodeId>, n: NodeId, t: nat) returns (s': State)
    requires From(c, r, s) && group <= s.nodes.Keys && IsQuorum(group, c.voters) && Preferred(c, s.nodes, group, t + 1, n)
    requires |s.nodes[n].log| > 0 && forall v :: v in group ==> Rests(s.nodes[v], s.nodes[v], t)
    ensures From(c, r, s') && OnlyIn(s, s', group) && Crown(c, s.nodes[n], s'.nodes[n], t + 1)
    ensures forall v :: v in group && v != n ==> Rests(s.nodes[v], s'.nodes[v], t + 1)
  {
    hide From, VoteAnswer, Rests, Crown, CommitForks.Running, OnlyIn;
    var x, others := s.nodes[n], group - {n};
    var q := Bid(n, x, t + 1);
    assert x.term == t by { assert Rests(x, x, t); RestingTerm(x, t); }
    var s1 := Campaigns(c, r, s, n, t);
    ChangedIn(s, s1, n, group);
    var s2 := Grants(c, r, s1, q, t, others);
    OnlyInLess(s, s1, s2, others, group);
    Still(s1, s2, others, {n});
    assert forall v :: v in group ==> VoteResp(t + 1, v, n, t + 1, true) in s2.net.voteResps;
    s' := CountsUp(c, r, s2, n, x, group, c.voters, 0);
    ChangedIn(s2, s', n, group);
    OnlyInLess(s, s2, s', group, group);
  }

  lemma RestingTerm(x: Node, t: nat)
    requires Rests(x, x, t)
    ensures x.term == t
  {
  }

  /** Any majority with an entry among them can elect one of its own. */
  lemma Elects(c: Config, r: Run, s: State, group: set<NodeId>) returns (s': State, n: NodeId, t: nat)
    requires From(c, r, s) && IsQuorum(group, c.voters) && exists v :: v in group && v in s.nodes && |s.nodes[v].log| > 0
    ensures From(c, r, s') && Led(c, s, s', group, n, t)
  {
    hide From, VoteAnswer, Crown, Free, Preferred;
    var w :| w in group && w in s.nodes && |s.nodes[w].log| > 0;
    FromFacts(c, r, s, w);
    var u := LaterTerm(s.nodes, group);
    var s1 := Settles(c, r, s, group, u);
    forall v | v in group ensures Free(c, v, s1.nodes[v], u + 1) && Rests(s1.nodes[v], s1.nodes[v], u) && TermsBelow(s.nodes[v].log, u) {
      RestingIsFree(c, v, s.nodes[v], s1.nodes[v], u);
      FromFacts(c, r, s, v);
    }
    n := SomeoneIsElectable(c, s1.nodes, group, u + 1);
    assert |s1.nodes[w].log| > 0;
    t := u + 1;
    assert n in group by { PreferredMember(c, s1.nodes, group, t, n); }
    s' := ElectsOne(c, r, s1, group, n, u);
    CrownSame(c, s.nodes[n], s1.nodes[n], s'.nodes[n], t);
    OnlyInLess(s, s1, s', group, group);
  }

  lemma PreferredMember(c: Config, nodes: map<NodeId, Node>, group: set<NodeId>, t: nat, n: NodeId)
    requires group <= nodes.Keys && t > 0 && Preferred(c, nodes, group, t, n)
    ensures n in group
  {
  }

  lemma CrownSame(c: Config, x: Node, y: Node, z: Node, t: nat)
    requires SameLog(x, y) && Crown(c, y, z, t)
    ensures Crown(c, x, z, t)
  {
  }

  // ---------------------------------------------------------------------
  // The ledger
  // ---------------------------------------------------------------------

  /** The servers of `done` have reported `k`, where commits begin, and the others nothing. */
  ghost predicate Told(c: Config, l: Ledger<NodeId>, done: set<NodeId>, k: nat) {
    && l.reports.Keys == c.voters && done <= c.voters && l.start == k > 0
    && (forall v :: v in l.reports ==> l.reports[v] == if v in done then k else 0)
    && l.index == if |done| >= QuorumSize(|c.voters|) then k else 0
  }

  lemma ToldMajority(m: map<NodeId, nat>, done: set<NodeId>, k: nat)
    requires done <= m.Keys && k > 0 && |m| > 0 && forall v :: v in m ==> m[v] == if v in done then k else 0
    ensures QuorumMatch(m) == if |done| >= QuorumSize(|m|) then k else 0
  {
    var q := if |done| >= QuorumSize(|m|) then k else 0;
    assert |m.Keys| == |m|;
    assert Holders(m, 0) == m.Keys && Holders(m, k) == done;
    forall i: nat | i > q ensures |Holders(m, i)| < QuorumSize(|m|) {
      SubsetSize(Holders(m, i), done);
      assert i > k ==> Holders(m, i) == {};
    }
    QuorumMatchUnique(m, q, QuorumMatch(m));
  }

  lemma ToldOneMore(c: Config, l: Ledger<NodeId>, done: set<NodeId>, k: nat, v: NodeId)
    requires Told(c, l, done, k) && v in c.voters && v !in done
    ensures Told(c, Reported(l, v, k), done + {v}, k)
  {
    hide QuorumMatch;
    var m := l.reports[v := k];
    assert |m.Keys| == |m| && m.Keys == c.voters;
    ToldMajority(m, done + {v}, k);
  }

  lemma ToldNone(c: Config, k: nat)
    requires k > 0
    ensures Told(c, NewLedger(c.voters, k), {}, k)
  {
  }

  // ---------------------------------------------------------------------
  // The command
  // ---------------------------------------------------------------------

  /** The leader of term `t` with this log, of which the servers of `done` have reported everything. */
  ghost predicate Heads(c: Config, y: Node, t: nat, log: seq<Entry>, done: set<NodeId>) {
    && y.role == Leader && y.term == t && y.log == log && |log| > 0 && log[|log| - 1].term == t && Told(c, y.ledger, done, |log|)
  }

  lemma DispatchHeads(c: Config, n: NodeId, x: Node, y: Node, t: nat, cmd: int)
    requires Crown(c, x, y, t) && n in c.voters
    ensures var z := Dispatched(n, y, [cmd]); Heads(c, z, t, x.log + [Entry(t, cmd)], {n}) && z.commit == x.commit && z.applied == x.applied
  {
    hide Reported, Told;
    var k := |x.log| + 1;
    ToldNone(c, k);
    ToldOneMore(c, NewLedger(c.voters, k), {}, k, n);
    assert {} + {n} == {n};
    assert Dispatched(n, y, [cmd]).log == x.log + [Entry(t, cmd)];
  }

  lemma Proposes(c: Config, r: Run, s: State, n: NodeId, x: Node, t: nat, cmd: int) returns (s': State)
    requires From(c, r, s) && n in s.nodes && n in c.voters && Crown(c, x, s.nodes[n], t)
    ensures From(c, r, s') && OnlyChanged(s, s', n) && Heads(c, s'.nodes[n], t, x.log + [Entry(t, cmd)], {n}) && s'.nodes[n].commit == x.commit
  {
    hide From, Heads, Dispatched;
    DispatchHeads(c, n, x, s.nodes[n], t, cmd);
    s' := Goes(c, r, s, Dispatch(n, [cmd]), n);
  }

  /** Everything the leader has. */
  function Whole(n: NodeId, to: NodeId, t: nat, log: seq<Entry>, commit: nat): AppendReq {
    AppendReq(t, n, to, 0, 0, log, commit)
  }

  lemma SendsWhole(c: Config, r: Run, s: State, n: NodeId, v: NodeId) returns (s': State)
    requires From(c, r, s) && n in s.nodes && v in c.servers && v != n && s.nodes[n].role == Leader && |s.nodes[n].log| > 0
    ensures From(c, r, s') && OnlyChanged(s, s', n) && s'.nodes == s.nodes
    ensures Whole(n, v, s.nodes[n].term, s.nodes[n].log, s.nodes[n].commit) in s'.net.appReqs
  {
    hide From;
    var k := |s.nodes[n].log|;
    assert s.nodes[n].log[0..k] == s.nodes[n].log;
    s' := Goes(c, r, s, SendAppend(n, v, 1, k, k), n);
    assert s'.nodes == s.nodes;
  }

  /** What a server has in common with a leader that has sent it a request. */
  lemma LeaderFacts(c: Config, r: Run, s: State, n: NodeId, v: NodeId, q: AppendReq)
    requires From(c, r, s) && n in s.nodes && v in s.nodes && q in s.net.appReqs && q.term == s.nodes[n].term && s.nodes[v].term <= q.term
    requires s.nodes[n].role == Leader
    ensures Matching(s.nodes[v].log, s.nodes[n].log) && Agree(s.nodes[v].log, s.nodes[n].log, s.nodes[v].commit)
  {
    hide Moves, Init, SafetyInv;
    var r' :| SafeRun(c, r') && Continues(r, r') && r'.states[|r'.states| - 1] == s;
    var i := |r'.states| - 1;
    var h := HistoryAt(c, r', i);
    SafetyInvHolds(c, r', i);
    CommitIsLeaders(c, s, h, v, q);
    LeaderPart(c, s, h, n);
    RunMatching(c, r', i, v, i, n);
  }

  /** A follower without entries of the leader's term takes its whole log. */
  lemma StoresWhole(x: Node, q: AppendReq, n: NodeId, t: nat, log: seq<Entry>, commit: nat)
    requires q == Whole(n, q.to, t, log, commit) && Rests(x, x, t) && t > 0 && TermsBelow(x.log, t - 1)
    requires |log| > 0 && log[|log| - 1].term == t && commit < |log| && Matching(x.log, log) && Agree(x.log, log, x.commit)
    ensures Covered(x, q) && AppendAnswer(x, q) == AppendResp(q, t, true, |x.log|)
    ensures var y := Appended(x, q); y.log == log && y.term == t && y.role == Follower && !y.transfer && y.commit < |log|
  {
    hide Merge, Matching;
    var k := |log|;
    assert log[..k] == log && CutFrom(log, q) by { assert log == log[0..k]; }
    MergedLog(x, log, q);
    if |x.log| >= k { DifferAt(x.log, log, k - 1); }
    assert !Agree(x.log, log, k);
    assert Merge(x.log, 0, log) == log;
    assert x.commit < k;
  }

  /** A follower that has the leader's log, of which it has committed less. */
  ghost predicate Copies(x: Node, t: nat, log: seq<Entry>) {
    x.log == log && x.term == t && x.role == Follower && !x.transfer && x.commit < |log|
  }

  /** `v` stores the leader's log and reports it. */
  lemma Replicates(c: Config, r: Run, s: State, n: NodeId, v: NodeId, t: nat, log: seq<Entry>, done: set<NodeId>) returns (s': State)
    requires From(c, r, s) && n in s.nodes && v in s.nodes && v in c.servers && v in c.voters && v != n && v !in done
    requires Heads(c, s.nodes[n], t, log, done) && s.nodes[n].commit < |log|
    requires Rests(s.nodes[v], s.nodes[v], t) && t > 0 && TermsBelow(s.nodes[v].log, t - 1)
    ensures s'.nodes.Keys == s.nodes.Keys
    ensures From(c, r, s') && OnlyIn(s, s', {n, v}) && Heads(c, s'.nodes[n], t, log, done + {v}) && s'.nodes[n].commit == s.nodes[n].commit
    ensures Copies(s'.nodes[v], t, log)
  {
    hide From, Appended, AppendAnswer, Covered, Told, Reported, Matching;
    var q := Whole(n, v, t, log, s.nodes[n].commit);
    var s1 := SendsWhole(c, r, s, n, v);
    LeaderFacts(c, r, s1, n, v, q);
    StoresWhole(s.nodes[v], q, n, t, log, s.nodes[n].commit);
    var s2 := Goes(c, r, s1, HandleAppend(v, q), v);
    ToldOneMore(c, s.nodes[n].ledger, done, |log|, v);
    s' := Goes(c, r, s2, HandleAppendResp(n, AppendResp(q, t, true, |s.nodes[v].log|)), n);
  }

  lemma OnlyInUnion(s: State, s1: State, s': State, a: set<NodeId>, b: set<NodeId>)
    requires OnlyIn(s, s1, a) && OnlyIn(s1, s', b)
    ensures OnlyIn(s, s', a + b)
  {
  }

  /** A follower that is still to get the log. */
  ghost predicate Lacks(x: Node, t: nat) {
    Rests(x, x, t) && t > 0 && TermsBelow(x.log, t - 1)
  }

  lemma LacksParts(x: Node, t: nat)
    requires Lacks(x, t)
    ensures Rests(x, x, t) && t > 0 && TermsBelow(x.log, t - 1)
  {
  }

  lemma SetFacts(group: set<NodeId>, v: NodeId, n: NodeId, done: set<NodeId>)
    requires v in group
    ensures {n, v} + (group - {v} + {n}) == group + {n} && done + {v} + (group - {v}) == done + group
    ensures |group - {v}| < |group|
  {
  }

  lemma {:induction false} ReplicatesAll(c: Config, r: Run, s: State, n: NodeId, group: set<NodeId>, t: nat, log: seq<Entry>, done: set<NodeId>) returns (s': State)
    requires From(c, r, s) && n in s.nodes && group <= s.nodes.Keys && group <= c.servers && group <= c.voters && n !in group
    requires Heads(c, s.nodes[n], t, log, done) && s.nodes[n].commit < |log|
    requires forall v :: v in group ==> v !in done && Lacks(s.nodes[v], t)
    ensures From(c, r, s') && OnlyIn(s, s', group + {n}) && Heads(c, s'.nodes[n], t, log, done + group)
    ensures forall v :: v in group ==> Copies(s'.nodes[v], t, log)
    decreases |group|
  {
    hide From, Heads, Lacks, Copies, OnlyIn, Rests, TermsBelow;
    if group == {} {
      s' := s;
      OnlyInNone(s, {n});
      assert done + group == done && group + {n} == {n};
    } else {
      var v :| v in group;
      var rest := group - {v};
      SetFacts(group, v, n, done);
      LacksParts(s.nodes[v], t);
      var s1 := Replicates(c, r, s, n, v, t, log, done);
      Still(s, s1, {n, v}, rest);
      s' := ReplicatesAll(c, r, s1, n, rest, t, log, done + {v});
      Still(s1, s', rest + {n}, {v});
      OnlyInUnion(s, s1, s', {n, v}, rest + {n});
    }
  }

  /** It has committed and handed over the whole log. */
  ghost predicate Finished(x: Node, log: seq<Entry>) {
    x.log == log && x.commit == |log| && x.applied == log
  }

  /** The leader commits what a majority has reported, and hands it over. */
  lemma Concludes(c: Config, r: Run, s: State, n: NodeId, t: nat, log: seq<Entry>, done: set<NodeId>) returns (s': State)
    requires From(c, r, s) && n in s.nodes && Heads(c, s.nodes[n], t, log, done) && |done| >= QuorumSize(|c.voters|)
    ensures From(c, r, s') && OnlyIn(s, s', {n}) && Finished(s'.nodes[n], log) && s'.nodes[n].role == Leader && s'.nodes[n].term == t
  {
    hide From;
    var s1 := Goes(c, r, s, LeaderCommit(n), n);
    FromFacts(c, r, s1, n);
    s' := Goes(c, r, s1, LeaderApply(n, |log|), n);
    var a := |s1.nodes[n].applied|;
    assert log[..a] + log[a..|log|] == log;
  }

  /** A follower that has the whole log hands it over once it hears that it is committed. */
  lemma AppliesWhole(x: Node, q: AppendReq, n: NodeId, t: nat, log: seq<Entry>)
    requires q == Whole(n, q.to, t, log, |log|) && Copies(x, t, log) && Applied(x) && |log| > 0 && log[|log| - 1].term == t
    ensures Covered(x, q) && Finished(Appended(x, q), log)
  {
    hide Merge;
    var a := |x.applied|;
    AllPresent(log, 0, log);
    assert Merge(log, 0, log) == log by { MergeSame(log); }
    assert log[..a] + log[a..|log|] == log;
  }

  lemma MergeSame(log: seq<Entry>)
    ensures Merge(log, 0, log) == log
  {
    assert log == log[0..|log|];
    AllPresent(log, 0, log);
  }

  lemma Applies(c: Config, r: Run, s: State, n: NodeId, v: NodeId, t: nat, log: seq<Entry>) returns (s': State)
    requires From(c, r, s) && n in s.nodes && v in s.nodes && v in c.servers && v != n && |log| > 0 && log[|log| - 1].term == t
    requires s.nodes[n].role == Leader && s.nodes[n].term == t && Finished(s.nodes[n], log) && Copies(s.nodes[v], t, log)
    ensures From(c, r, s') && OnlyIn(s, s', {v}) && Finished(s'.nodes[v], log)
  {
    hide From, Appended, Covered, Copies;
    var s1 := SendsWhole(c, r, s, n, v);
    var q := Whole(n, v, t, log, |log|);
    FromFacts(c, r, s, v);
    AppliesWhole(s.nodes[v], q, n, t, log);
    s' := Goes(c, r, s1, HandleAppend(v, q), v);
  }

  lemma {:induction false} AppliesAll(c: Config, r: Run, s: State, n: NodeId, group: set<NodeId>, t: nat, log: seq<Entry>) returns (s': State)
    requires From(c, r, s) && n in s.nodes && group <= s.nodes.Keys && group <= c.servers && n !in group && |log| > 0 && log[|log| - 1].term == t
    requires s.nodes[n].role == Leader && s.nodes[n].term == t && Finished(s.nodes[n], log)
    requires forall v :: v in group ==> Copies(s.nodes[v], t, log)
    ensures From(c, r, s') && OnlyIn(s, s', group) && forall v :: v in group ==> Finished(s'.nodes[v], log)
    decreases |group|
  {
    hide From, Finished, Copies;
    if group == {} {
      s' := s;
    } else {
      var v :| v in group;
      var s1 := Applies(c, r, s, n, v, t, log);
      s' := AppliesAll(c, r, s1, n, group - {v}, t, log);
      OnlyInUnion(s, s1, s', {v}, group - {v});
      assert {v} + (group - {v}) == group;
    }
  }

  // ---------------------------------------------------------------------
  // All of it
  // ---------------------------------------------------------------------

  /** All of the group have committed and handed over the log of `n`, which leads them, and it ends in the command. */
  ghost predicate Done(s: State, s': State, group: set<NodeId>, n: NodeId, cmd: int) {
    && n in group && group <= s.nodes.Keys && OnlyIn(s, s', group) && s'.nodes[n].role == Leader
    && s'.nodes[n].log == s.nodes[n].log + [Entry(s'.nodes[n].term, cmd)]
    && forall v :: v in group ==> Finished(s'.nodes[v], s'.nodes[n].log)
  }

  lemma GoesOn(c: Config, r: Run, s: State, group: set<NodeId>, cmd: int) returns (s': State, n: NodeId)
    requires From(c, r, s) && IsQuorum(group, c.voters) && exists v :: v in group && v in s.nodes && |s.nodes[v].log| > 0
    ensures From(c, r, s') && Done(s, s', group, n, cmd)
  {
    hide From, Told, Finished, Copies, TermsBelow;
    var s1, n1, t := Elects(c, r, s, group);
    n := n1;
    var x, others := s.nodes[n], group - {n};
    var log := x.log + [Entry(t, cmd)];
    FromFacts(c, r, s, n);
    var s2 := Proposes(c, r, s1, n, x, t, cmd);
    ChangedIn(s1, s2, n, group);
    OnlyInLess(s, s1, s2, group, group);
    var s3 := ReplicatesAll(c, r, s2, n, others, t, log, {n});
    assert {n} + others == group;
    OnlyInLess(s, s2, s3, others + {n}, group);
    var s4 := Concludes(c, r, s3, n, t, log, group);
    OnlyInLess(s, s3, s4, {n}, group);
    s' := AppliesAll(c, r, s4, n, others, t, log);
    OnlyInLess(s, s4, s', others, group);
    assert forall v :: v in group ==> Finished(s'.nodes[v], log);
    FinishedLog(s'.nodes[n], log);
  }

  lemma FinishedLog(x: Node, log: seq<Entry>)
    requires Finished(x, log)
    ensures x.log == log
  {
  }

  lemma FromRun(c: Config, r: Run, s: State) returns (r': Run)
    requires From(c, r, s)
    ensures SafeRun(c, r') && Continues(r, r') && |r'.states| > 0 && r'.states[|r'.states| - 1] == s
  {
    r' :| SafeRun(c, r') && Continues(r, r') && r'.states[|r'.states| - 1] == s;
  }
}
