/**
 Two runs that show the premises of leader completeness and of state machine
 safety are needed, and the exact condition under which a torn vote is harmful.
 */
module Counterexamples {
  import opened Wrappers
  import opened Quorums
  import opened Commitment
  import opened Cluster
  import opened LogMatching
  import opened LeaderCompleteness
  import opened StateMachineSafety
  import opened Guarantees

  const Trio: Config := Config({0, 1, 2}, {0, 1, 2})

  // ---------------------------------------------------------------------
  // Building runs
  // ---------------------------------------------------------------------

  function Last(r: Run): State {
    if |r.states| > 0 then r.states[|r.states| - 1] else State(map[], Net({}, {}, {}, {}))
  }

  /** The second run goes on where the first ends. */
  ghost predicate Prolongs(r: Run, r': Run) {
    |r.states| <= |r'.states| && r'.states[..|r.states|] == r.states
  }

  /** No vote of the run is torn. */
  ghost predicate Clean(r: Run) {
    |r.states| == |r.steps| + 1 && forall i :: 0 <= i < |r.steps| ==> VoteWhole(Trio, r.states[i], r.steps[i])
  }

  /** The second run goes on where the first ends, and tears no vote. */
  ghost predicate GoesOn(r: Run, r': Run) {
    Prolongs(r, r') && (Clean(r) ==> Clean(r'))
  }

  lemma ProlongsTrans(r: Run, r': Run, r'': Run)
    requires Prolongs(r, r') && Prolongs(r', r'')
    ensures Prolongs(r, r'')
  {
    assert r''.states[..|r.states|] == r''.states[..|r'.states|][..|r.states|];
  }

  lemma GoesOnTrans(r: Run, r': Run, r'': Run)
    requires GoesOn(r, r') && GoesOn(r', r'')
    ensures GoesOn(r, r'')
  {
    ProlongsTrans(r, r', r'');
  }

  lemma Extend(r: Run, step: Step, s: State) returns (r': Run)
    requires ValidRun(Trio, r) && Moves(Trio, Last(r), step, s)
    ensures ValidRun(Trio, r') && Last(r') == s && Prolongs(r, r')
    ensures VoteWhole(Trio, Last(r), step) ==> GoesOn(r, r')
  {
    hide Moves, Init, VoteWhole;
    r' := Run(r.states + [s], r.steps + [step]);
    forall i | 0 <= i < |r'.steps| ensures Moves(Trio, r'.states[i], r'.steps[i], r'.states[i + 1]) {
      if i < |r.steps| {
        assert Moves(Trio, r.states[i], r.steps[i], r.states[i + 1]);
      }
    }
  }

  lemma Extend2(r: Run, step: Step, s: State, step': Step, s': State) returns (r': Run)
    requires ValidRun(Trio, r) && Moves(Trio, Last(r), step, s) && Moves(Trio, s, step', s')
    requires VoteWhole(Trio, Last(r), step) && VoteWhole(Trio, s, step')
    ensures ValidRun(Trio, r') && Last(r') == s' && GoesOn(r, r')
  {
    hide ValidRun, Moves, GoesOn, Prolongs;
    var mid := Extend(r, step, s);
    r' := Extend(mid, step', s');
    GoesOnTrans(r, mid, r');
  }

  /** The step that server `n` takes, ending as `y`. */
  function With(s: State, n: NodeId, y: Node): State {
    State(s.nodes[n := y], s.net)
  }

  lemma SizeThree()
    ensures |Trio.voters| == 3 && QuorumSize(3) == 2
  {
  }

  lemma OneReport(m: map<NodeId, nat>, a: NodeId)
    requires m.Keys == {0, 1, 2} && forall v :: v in m && v != a ==> m[v] == 0
    ensures QuorumMatch(m) == 0
  {
    assert |m| == 3;
    assert Holders(m, 0) == {0, 1, 2};
    forall i: nat | i > 0 ensures |Holders(m, i)| <= 1 {
      SubsetSize(Holders(m, i), {a});
    }
  }

  lemma TwoReports(m: map<NodeId, nat>, a: NodeId, b: NodeId, k: nat)
    requires m.Keys == {0, 1, 2} && a in m && b in m && a != b && m[a] == m[b] == k
    requires forall v :: v in m ==> m[v] <= k
    ensures QuorumMatch(m) == k
  {
    assert |m| == 3;
    assert {a, b} <= Holders(m, k);
    SubsetSize({a, b}, Holders(m, k));
    forall i: nat | i > k ensures |Holders(m, i)| == 0 {
      assert Holders(m, i) == {};
    }
    assert IsQuorumMatch(m, k);
    QuorumMatchUnique(m, k, QuorumMatch(m));
  }

  // ---------------------------------------------------------------------
  // An election in the trio
  // ---------------------------------------------------------------------

  /** A candidate that has asked everybody. */
  function Asking(n: NodeId, x: Node): Node {
    x.(role := Candidate, leader := None, term := x.term + 1, voteTerm := x.term + 1, voteCand := Some(n),
       voting := true, asked := Trio.voters, granted := 0)
  }

  function Request(n: NodeId, x: Node): VoteReq {
    VoteReq(x.term + 1, n, |x.log|, LastTerm(x.log), false)
  }

  function Campaign(s: State, n: NodeId, x: Node): State {
    State(s.nodes[n := Asking(n, x)],
          s.net.(voteReqs := s.net.voteReqs + {Request(n, x)},
                 voteResps := s.net.voteResps + {VoteResp(x.term + 1, n, n, x.term + 1, true)}))
  }

  predicate CanCampaign(n: NodeId, x: Node) {
    n in Trio.voters && x.role == Follower && |x.log| > 0 && !x.transfer
  }

  /** `n` times out and asks for votes. */
  lemma Campaigns(r: Run, n: NodeId) returns (r': Run)
    requires ValidRun(Trio, r) && n in Last(r).nodes && CanCampaign(n, Last(r).nodes[n])
    ensures ValidRun(Trio, r') && GoesOn(r, r') && Last(r') == Campaign(Last(r), n, Last(r).nodes[n])
  {
    hide ValidRun, GoesOn;
    var s, x := Last(r), Last(r).nodes[n];
    var s1 := With(s, n, x.(role := Candidate, leader := None, voting := false));
    var s2 := Campaign(s, n, x);
    assert s2.nodes == s1.nodes[n := Asking(n, x)];
    r' := Extend2(r, HeartbeatTimeout(n), s1, ElectSelf(n), s2);
  }

  function Supporter(y: Node, t: nat, n: NodeId): Node {
    Adopted(y, t).(voteTerm := t, voteCand := Some(n))
  }

  predicate CanSupport(y: Node, q: VoteReq) {
    y.leader == None && y.term <= q.term && y.voteTerm < q.term && |y.log| > 0 && UpToDate(q.lastIndex, q.lastTerm, y.log)
  }

  /** `v` grants the request of `q.cand`. */
  lemma Supports(r: Run, v: NodeId, q: VoteReq) returns (r': Run)
    requires ValidRun(Trio, r) && v in Last(r).nodes && v in Trio.voters && q.cand in Trio.voters && v != q.cand
    requires q in Last(r).net.voteReqs && CanSupport(Last(r).nodes[v], q)
    ensures ValidRun(Trio, r') && GoesOn(r, r')
    ensures var s := Last(r);
            Last(r') == State(s.nodes[v := Supporter(s.nodes[v], q.term, q.cand)],
                              s.net.(voteResps := s.net.voteResps + {VoteResp(q.term, v, q.cand, q.term, true)}))
  {
    hide ValidRun, GoesOn, UpToDate;
    var s := Last(r);
    r' := Extend(r, HandleVote(v, q), State(s.nodes[v := Supporter(s.nodes[v], q.term, q.cand)],
                   s.net.(voteResps := s.net.voteResps + {VoteResp(q.term, v, q.cand, q.term, true)})));
  }

  /** A candidate that has its own vote and that of `v` leads. */
  lemma Wins(r: Run, n: NodeId, v: NodeId, x: Node) returns (r': Run)
    requires ValidRun(Trio, r) && n in Last(r).nodes && n in Trio.voters && v in Trio.voters && n != v
    requires Last(r).nodes[n] == Asking(n, x)
    requires VoteResp(x.term + 1, n, n, x.term + 1, true) in Last(r).net.voteResps
    requires VoteResp(x.term + 1, v, n, x.term + 1, true) in Last(r).net.voteResps
    ensures ValidRun(Trio, r') && GoesOn(r, r')
    ensures Last(r') == With(Last(r), n, Crowned(Trio, n, x.(term := x.term + 1, voteTerm := x.term + 1, voteCand := Some(n))))
  {
    hide ValidRun, GoesOn;
    SizeThree();
    var s, t := Last(r), x.term + 1;
    var own, other := VoteResp(t, n, n, t, true), VoteResp(t, v, n, t, true);
    var s1 := With(s, n, Asking(n, x).(asked := Trio.voters - {n}, granted := 1));
    var s2 := With(s, n, Crowned(Trio, n, x.(term := t, voteTerm := t, voteCand := Some(n))));
    assert s2.nodes == s1.nodes[n := s2.nodes[n]];
    assert Tallied(Trio, n, s.nodes[n], own) == s1.nodes[n];
    assert Tallied(Trio, n, s1.nodes[n], other) == s2.nodes[n];
    r' := Extend2(r, Tally(n, own), s1, Tally(n, other), s2);
  }

  // ---------------------------------------------------------------------
  // A leader's first entry
  // ---------------------------------------------------------------------

  function NoReports(): map<NodeId, nat> {
    map[0 := 0, 1 := 0, 2 := 0]
  }

  /** A leader that has appended one entry to the bootstrap entry. */
  predicate WroteOne(n: NodeId, x: Node, cmd: int) {
    && x.role == Leader && x.log == [BootEntry, Entry(x.term, cmd)] && x.commit == 0 && x.applied == []
    && x.ledger == Ledger(NoReports()[n := 2], 2, 0)
  }

  lemma Writes(r: Run, n: NodeId, cmd: int) returns (r': Run)
    requires ValidRun(Trio, r) && n in Last(r).nodes && n in Trio.voters
    requires var x := Last(r).nodes[n];
             x.role == Leader && x.log == [BootEntry] && x.ledger == NewLedger(Trio.voters, 2) && x.commit == 0 && x.applied == []
    ensures ValidRun(Trio, r') && GoesOn(r, r')
    ensures var s, x := Last(r), Last(r).nodes[n];
            && Last(r') == With(s, n, x.(log := [BootEntry, Entry(x.term, cmd)], ledger := Ledger(NoReports()[n := 2], 2, 0)))
            && WroteOne(n, Last(r').nodes[n], cmd)
  {
    hide ValidRun, GoesOn, Dispatched, NewLedger;
    var s, x := Last(r), Last(r).nodes[n];
    WrittenNode(n, x, cmd);
    r' := Extend(r, Dispatch(n, [cmd]), With(s, n, Dispatched(n, x, [cmd])));
  }

  lemma WrittenNode(n: NodeId, x: Node, cmd: int)
    requires n in Trio.voters && x.log == [BootEntry] && x.ledger == NewLedger(Trio.voters, 2)
    ensures Dispatched(n, x, [cmd]) == x.(log := [BootEntry, Entry(x.term, cmd)], ledger := Ledger(NoReports()[n := 2], 2, 0))
  {
    hide QuorumMatch;
    assert NewLedger(Trio.voters, 2).reports == NoReports();
    OneReport(NoReports()[n := 2], n);
    assert x.log + seq(1, i requires 0 <= i < 1 => Entry(x.term, [cmd][i])) == [BootEntry, Entry(x.term, cmd)];
  }

  function FirstRequest(n: NodeId, x: Node, v: NodeId, cmd: int): AppendReq {
    AppendReq(x.term, n, v, 1, 1, [Entry(x.term, cmd)], 0)
  }

  predicate Behind(y: Node, t: nat) {
    y.log == [BootEntry] && y.term <= t && y.role != Leader && (y.term < t || y.role == Follower) && y.commit == 0
  }

  function CaughtUp(y: Node, n: NodeId, t: nat, cmd: int): Node {
    (if y.term < t then SteppedTo(y, t) else y).(leader := Some(n), log := [BootEntry, Entry(t, cmd)])
  }

  /** The entry goes to `v`, which stores it. */
  lemma Ships(r: Run, n: NodeId, v: NodeId, cmd: int) returns (r': Run)
    requires ValidRun(Trio, r) && n in Last(r).nodes && v in Last(r).nodes && v in Trio.servers && n != v
    requires WroteOne(n, Last(r).nodes[n], cmd) && Behind(Last(r).nodes[v], Last(r).nodes[n].term)
    ensures ValidRun(Trio, r') && GoesOn(r, r')
    ensures var s, x := Last(r), Last(r).nodes[n];
            Last(r') == State(s.nodes[v := CaughtUp(s.nodes[v], n, x.term, cmd)],
                              s.net.(appReqs := s.net.appReqs + {FirstRequest(n, x, v, cmd)},
                                     appResps := s.net.appResps + {AppendResp(FirstRequest(n, x, v, cmd), x.term, true, 1)}))
  {
    hide ValidRun, GoesOn, Appended, AppendAnswer, BuiltRequest;
    var s, x, y := Last(r), Last(r).nodes[n], Last(r).nodes[v];
    var q := FirstRequest(n, x, v, cmd);
    FirstIsBuilt(n, x, v, cmd);
    FirstIsStored(y, n, x, v, cmd);
    var s1 := State(s.nodes, s.net.(appReqs := s.net.appReqs + {q}));
    assert s1.nodes == s.nodes[n := x];
    r' := Extend2(r, SendAppend(n, v, 2, 2, 64), s1, HandleAppend(v, q),
                  State(s.nodes[v := CaughtUp(y, n, x.term, cmd)], s1.net.(appResps := s.net.appResps + {AppendResp(q, x.term, true, 1)})));
  }

  lemma FirstIsBuilt(n: NodeId, x: Node, v: NodeId, cmd: int)
    requires WroteOne(n, x, cmd)
    ensures BuiltRequest(n, x, v, 2, 2, 64) == FirstRequest(n, x, v, cmd)
  {
    assert x.log[..1] == [BootEntry] && x.log[1..2] == [Entry(x.term, cmd)];
  }

  lemma FirstIsStored(y: Node, n: NodeId, x: Node, v: NodeId, cmd: int)
    requires Behind(y, x.term)
    ensures Appended(y, FirstRequest(n, x, v, cmd)) == CaughtUp(y, n, x.term, cmd)
    ensures AppendAnswer(y, FirstRequest(n, x, v, cmd)) == AppendResp(FirstRequest(n, x, v, cmd), x.term, true, 1)
  {
    hide Present, Merge;
    AtTheEnd(y.log, [Entry(x.term, cmd)]);
  }

  lemma AtTheEnd(log: seq<Entry>, entries: seq<Entry>)
    ensures Present(log, |log|, entries) == 0 && (|entries| > 0 ==> Merge(log, |log|, entries) == log + entries)
  {
    assert log[..|log|] == log && entries[0..|entries|] == entries;
  }

  /** The leader counts the answer of `v` and reaches a majority. */
  lemma CountsAnswer(r: Run, n: NodeId, v: NodeId, cmd: int) returns (r': Run)
    requires ValidRun(Trio, r) && n in Last(r).nodes && n in Trio.voters && v in Trio.voters && n != v
    requires WroteOne(n, Last(r).nodes[n], cmd)
    requires AppendResp(FirstRequest(n, Last(r).nodes[n], v, cmd), Last(r).nodes[n].term, true, 1) in Last(r).net.appResps
    ensures ValidRun(Trio, r') && GoesOn(r, r')
    ensures Last(r') == With(Last(r), n, Last(r).nodes[n].(ledger := Ledger(NoReports()[n := 2][v := 2], 2, 2)))
  {
    hide ValidRun, GoesOn, Reported;
    var s, x := Last(r), Last(r).nodes[n];
    assert Reported(x.ledger, v, 2) == Ledger(NoReports()[n := 2][v := 2], 2, 2) by { SecondReport(n, v); }
    r' := Extend(r, HandleAppendResp(n, AppendResp(FirstRequest(n, x, v, cmd), x.term, true, 1)),
                 With(s, n, x.(ledger := Ledger(NoReports()[n := 2][v := 2], 2, 2))));
  }

  lemma SecondReport(n: NodeId, v: NodeId)
    requires n in Trio.voters && v in Trio.voters && n != v
    ensures Reported(Ledger(NoReports()[n := 2], 2, 0), v, 2) == Ledger(NoReports()[n := 2][v := 2], 2, 2)
  {
    hide QuorumMatch;
    TwoReports(NoReports()[n := 2][v := 2], n, v, 2);
  }

  function Booted(): State {
    State(map[0 := BootedNode(), 1 := BootedNode(), 2 := BootedNode()], Net({}, {}, {}, {}))
  }

  lemma Begin() returns (r: Run)
    ensures ValidRun(Trio, r) && Last(r) == Booted() && Clean(r)
  {
    r := Run([Booted()], []);
  }

  // ---------------------------------------------------------------------
  // A torn vote breaks leader completeness
  // ---------------------------------------------------------------------

  /** Server 0 has committed index 2 in term 3 with server 1, whose stored vote still names server 2. */
  predicate Staged(s: State) {
    && s.nodes.Keys == {0, 1, 2}
    && s.nodes[0].role == Leader && s.nodes[0].term == 3 && s.nodes[0].log == [BootEntry, Entry(3, 7)]
    && s.nodes[0].ledger.index == 2 && !s.nodes[0].transfer
    && s.nodes[1].term == 3 && s.nodes[1].role == Follower && s.nodes[1].log == [BootEntry, Entry(3, 7)]
    && s.nodes[1].voteTerm == 2 && s.nodes[1].voteCand == Some(2) && s.nodes[1].leader == Some(0)
    && s.nodes[2].term == 3 && CanCampaign(2, s.nodes[2]) && s.nodes[2].log == [BootEntry]
  }

  lemma Stage() returns (r: Run)
    ensures ValidRun(Trio, r) && Staged(Last(r))
  {
    hide ValidRun, GoesOn;
    var r0 := Begin();
    var r1 := Campaigns(r0, 2);
    var r2 := Supports(r1, 1, Request(2, BootedNode()));
    var behind := Last(r2).nodes[1];
    var r3 := Extend(r2, LearnTerm(0, 2), With(Last(r2), 0, SteppedTo(BootedNode(), 2)));
    var x := Last(r3).nodes[0];
    var r4 := Campaigns(r3, 0);
    var r5 := Supports(r4, 2, Request(0, x));
    var r6 := Wins(r5, 0, 2, x);
    var r7 := Writes(r6, 0, 7);
    var r8 := Ships(r7, 0, 1, 7);
    r := CountsAnswer(r8, 0, 1, 7);
    assert Last(r).nodes.Keys == {0, 1, 2};
  }

  /** The crash, and the vote that follows from it. */
  lemma Betray(r: Run) returns (r': Run)
    requires ValidRun(Trio, r) && Staged(Last(r))
    ensures ValidRun(Trio, r') && Prolongs(r, r') && 2 in Last(r').nodes
    ensures var z := Last(r').nodes[2]; z.role == Leader && z.term == 4 && z.log == [BootEntry]
  {
    hide ValidRun, Prolongs, Clean;
    var s := Last(r);
    var a0, b0, c0 := s.nodes[0], s.nodes[1], s.nodes[2];
    var r1 := Extend(r, StepDown(0), With(s, 0, SteppedTo(a0, 3)));
    var a1 := Last(r1).nodes[0];
    var r2 := Campaigns(r1, 0);
    var b1 := TornVote(b0, 4);
    var r3 := Extend(r2, HandleVoteTorn(1, Request(0, a1)), With(Last(r2), 1, b1));
    var r4 := Campaigns(r3, 2);
    var q := Request(2, c0);
    var answer := VoteResp(4, 1, 2, 4, true);
    assert VoteAnswer(Trio, 1, b1, q) == answer && Voted(Trio, b1, q) == b1;
    var s5 := State(Last(r4).nodes[1 := b1], Last(r4).net.(voteResps := Last(r4).net.voteResps + {answer}));
    var r5 := Extend(r4, HandleVote(1, q), s5);
    r' := Wins(r5, 2, 1, c0);
    ProlongsTrans(r, r1, r2);
    ProlongsTrans(r, r2, r3);
    ProlongsTrans(r, r3, r4);
    ProlongsTrans(r, r4, r5);
    ProlongsTrans(r, r5, r');
  }

  /** With a torn vote, a later leader can lack an entry that an earlier one has committed. */
  lemma TornVoteBreaksCompleteness() returns (r: Run, i: nat, j: nat)
    ensures ValidRun(Trio, r) && i < j < |r.states|
    ensures 0 in r.states[i].nodes && 2 in r.states[j].nodes
    ensures var x, y := r.states[i].nodes[0], r.states[j].nodes[2];
            && x.role == Leader && y.role == Leader && x.term < y.term
            && x.ledger.index == |x.log| == 2 && |y.log| == 1
    ensures !WholeVotes(Trio, r)
  {
    var r0 := Stage();
    r := Betray(r0);
    i, j := |r0.states| - 1, |r.states| - 1;
    assert r.states[i] == r.states[..|r0.states|][i] == Last(r0);
    if WholeVotes(Trio, r) {
      LeaderCompletenessHolds(Trio, r, i, j, 0, 2);
    }
  }

  // ---------------------------------------------------------------------
  // Exactly when a torn vote is harmful
  // ---------------------------------------------------------------------

  /** A request as servers send them: about a log that is not empty. */
  predicate Sendable(q: VoteReq) {
    q.lastIndex >= 1 && q.lastTerm >= 1
  }

  /** Every vote request of every run is of that kind. */
  lemma {:induction false} RequestsAreSendable(c: Config, r: Run, i: nat, q: VoteReq)
    requires ValidRun(c, r) && i < |r.states| && q in r.states[i].net.voteReqs
    ensures Sendable(q)
  {
    hide Moves, LogInv;
    if i > 0 {
      assert Moves(c, r.states[i - 1], r.steps[i - 1], r.states[i - 1 + 1]);
      if q in r.states[i - 1].net.voteReqs {
        RequestsAreSendable(c, r, i - 1, q);
      } else {
        LogInvHolds(c, r, i - 1);
        NewRequestSendable(c, r.states[i - 1], HistoryAt(c, r, i - 1), r.steps[i - 1], r.states[i], q);
      }
    }
  }

  lemma NewRequestSendable(c: Config, s: State, h: History, step: Step, s': State, q: VoteReq)
    requires LogInv(c, s, h) && Moves(c, s, step, s') && q in s'.net.voteReqs && q !in s.net.voteReqs
    ensures Sendable(q)
  {
    hide NextNode;
    var x := s.nodes[step.n];
    assert NodeLogOk(h, step.n, x);
    if |x.log| > 0 {
      assert Backed(h, x.log, |x.log| - 1);
      assert ReignOk(h, LastTerm(x.log));
    }
  }

  /** A request that server `n` can get from another candidate than `own`, behind the log of `x`. */
  predicate Stale(n: NodeId, x: Node, t: nat, own: NodeId, q: VoteReq) {
    Sendable(q) && q.term == t && q.cand != own && q.cand != n && !UpToDate(q.lastIndex, q.lastTerm, x.log)
  }

  lemma KeptNameHarm(c: Config, n: NodeId, y: Node, own: NodeId)
    requires ValidConfig(c) && y.voteTerm == y.term && y.leader == None && (|y.log| > 0 ==> LastTerm(y.log) >= 1)
    ensures (exists q :: Stale(n, y, y.term, own, q) && VoteAnswer(c, n, y, q).granted) <==> Endangered(c, n, y, own)
  {
    if Endangered(c, n, y, own) {
      var q := VoteReq(y.term, y.voteCand.value, 1, 1, false);
      assert Judge(c, y, q) == Repeated(true);
      assert Stale(n, y, y.term, own, q) && VoteAnswer(c, n, y, q).granted;
    }
  }

  /**
   Exactly when a crash between the two writes of a vote is harmful: afterwards
   the server grants some other candidate with an older log its vote if and only
   if the name it kept is that of a voter that is neither the new candidate nor
   the server itself, and its own log is more than the bootstrap entry.
   */
  lemma TornVoteHarm(c: Config, n: NodeId, x: Node, q: VoteReq)
    requires ValidConfig(c) && Judge(c, x, q) == Fresh && (|x.log| > 0 ==> LastTerm(x.log) >= 1)
    ensures (exists other :: Stale(n, x, q.term, q.cand, other) && VoteAnswer(c, n, TornVote(x, q.term), other).granted)
            <==> Endangered(c, n, x, q.cand)
  {
    var y := TornVote(x, q.term);
    KeptNameHarm(c, n, y, q.cand);
    assert forall other :: Stale(n, x, q.term, q.cand, other) <==> Stale(n, y, y.term, q.cand, other);
  }

  /** The same for a candidate that crashes between the two writes of the vote for itself. */
  lemma TornElectionHarm(c: Config, s: State, n: NodeId)
    requires ValidConfig(c) && n in c.voters && Enabled(c, s, ElectSelfCrash(n, true)) && LastTerm(s.nodes[n].log) >= 1
    ensures var x, y := s.nodes[n], NextNode(c, s, ElectSelfCrash(n, true));
            (exists other :: Stale(n, x, x.term + 1, n, other) && VoteAnswer(c, n, y, other).granted) <==> Endangered(c, n, x, n)
  {
    var x, y := s.nodes[n], NextNode(c, s, ElectSelfCrash(n, true));
    KeptNameHarm(c, n, y, n);
    assert forall other :: Stale(n, x, x.term + 1, n, other) <==> Stale(n, y, y.term, n, other);
  }

  // ---------------------------------------------------------------------
  // The commit clamp breaks state machine safety
  // ---------------------------------------------------------------------

  /** Server 0 leads term 3 and has handed over an entry at index 2; server 1 has another one there. */
  predicate Forked(s: State) {
    && s.nodes.Keys == {0, 1, 2}
    && s.nodes[0].role == Leader && s.nodes[0].term == 3 && s.nodes[0].commit == 2
    && s.nodes[0].log == s.nodes[0].applied == [BootEntry, Entry(3, 9)]
    && s.nodes[1].term == 2 && s.nodes[1].role == Leader && s.nodes[1].log == [BootEntry, Entry(2, 1)]
    && s.nodes[1].commit == 0 && s.nodes[1].applied == []
  }

  lemma Fork() returns (r: Run)
    ensures ValidRun(Trio, r) && Forked(Last(r)) && Clean(r)
  {
    hide ValidRun, Prolongs, Clean;
    var r0 := Begin();
    var r1 := Campaigns(r0, 1);
    var r2 := Supports(r1, 2, Request(1, BootedNode()));
    var r3 := Wins(r2, 1, 2, BootedNode());
    var r4 := Writes(r3, 1, 1);
    var r5 := Extend(r4, LearnTerm(0, 2), With(Last(r4), 0, SteppedTo(BootedNode(), 2)));
    r := Fork2(r5);
  }

  lemma Fork2(r: Run) returns (r': Run)
    requires ValidRun(Trio, r) && Last(r).nodes.Keys == {0, 1, 2}
    requires Last(r).nodes[0] == SteppedTo(BootedNode(), 2)
    requires Last(r).nodes[2] == Supporter(BootedNode(), 2, 1)
    requires var b := Last(r).nodes[1]; WroteOne(1, b, 1) && b.term == 2
    requires Clean(r)
    ensures ValidRun(Trio, r') && Forked(Last(r')) && Clean(r')
  {
    hide ValidRun, Prolongs, Clean;
    var x := Last(r).nodes[0];
    var r1 := Campaigns(r, 0);
    var r2 := Supports(r1, 2, Request(0, x));
    var r3 := Wins(r2, 0, 2, x);
    var r4 := Writes(r3, 0, 9);
    var r5 := Ships(r4, 0, 2, 9);
    var r6 := CountsAnswer(r5, 0, 2, 9);
    r' := Applies(r6);
  }

  lemma Applies(r: Run) returns (r': Run)
    requires ValidRun(Trio, r) && Last(r).nodes.Keys == {0, 1, 2}
    requires var a := Last(r).nodes[0];
             a.role == Leader && a.term == 3 && a.ledger.index == 2 && a.log == [BootEntry, Entry(3, 9)] && a.applied == []
    requires var b := Last(r).nodes[1]; WroteOne(1, b, 1) && b.term == 2
    requires Clean(r)
    ensures ValidRun(Trio, r') && Forked(Last(r')) && Clean(r')
  {
    hide ValidRun, Prolongs, Clean;
    var s, a := Last(r), Last(r).nodes[0];
    var s1 := With(s, 0, a.(commit := 2));
    var s2 := With(s, 0, a.(commit := 2, applied := a.log));
    assert a.applied + a.log[|a.applied|..2] == a.log;
    assert s2.nodes == s1.nodes[0 := s2.nodes[0]];
    assert s2.nodes.Keys == {0, 1, 2};
    r' := Extend2(r, LeaderCommit(0), s1, LeaderApply(0, 2), s2);
  }

  /** A request that stops short of the leader's commit index makes the follower apply its own entry. */
  lemma ClampApplies(r: Run) returns (r': Run)
    requires ValidRun(Trio, r) && Forked(Last(r)) && Clean(r)
    ensures Clean(r') && ValidRun(Trio, r') && 0 in Last(r').nodes && 1 in Last(r').nodes
    ensures Last(r').nodes[0].applied == [BootEntry, Entry(3, 9)] && Last(r').nodes[1].applied == [BootEntry, Entry(2, 1)]
  {
    hide ValidRun, Prolongs, Clean, Present;
    var s, a, b := Last(r), Last(r).nodes[0], Last(r).nodes[1];
    var q := AppendReq(3, 0, 1, 1, 1, [], 2);
    assert a.log[..1] == [BootEntry];
    assert BuiltRequest(0, a, 1, 2, 1, 64) == q;
    var s1 := State(s.nodes, s.net.(appReqs := s.net.appReqs + {q}));
    assert s1.nodes == s.nodes[0 := a];
    var y := Appended(b, q);
    assert Merge(b.log, 1, []) == b.log;
    assert b.log[0..2] == b.log;
    assert y.applied == [BootEntry, Entry(2, 1)];
    r' := Extend2(r, SendAppend(0, 1, 2, 1, 64), s1, HandleAppend(1, q),
                  State(s.nodes[1 := y], s1.net.(appResps := s.net.appResps + {AppendAnswer(b, q)})));
  }

  /** With a request whose commit index lies beyond its entries, two servers can hand over different entries. */
  lemma CommitClampBreaksSafety() returns (r: Run)
    ensures ValidRun(Trio, r) && 0 in Last(r).nodes && 1 in Last(r).nodes
    ensures |Last(r).nodes[0].applied| == |Last(r).nodes[1].applied| == 2
    ensures Last(r).nodes[0].applied[1] != Last(r).nodes[1].applied[1]
    ensures WholeVotes(Trio, r) && !CoveredCommits(r)
  {
    var r0 := Fork();
    r := ClampApplies(r0);
    var j := |r.states| - 1;
    if CoveredCommits(r) {
      StateMachineSafetyHolds(Trio, r, j, j, 0, 1, 1);
    }
  }
}
