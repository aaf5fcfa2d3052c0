/**
 A Raft cluster with a fixed configuration as a step system: what one server
 does with each request (raft.go, replication.go), and the steps the whole
 cluster can take. Messages stay in the network for ever, so every step may be
 taken late, twice or never.
 */
module Cluster {
  import opened Wrappers
  import opened Quorums
  import opened Commitment

  type NodeId = nat

  datatype Entry = Entry(term: nat, cmd: int)

  datatype Role = Follower | Candidate | Leader

  /** The servers of the configuration and those of them that vote. */
  datatype Config = Config(servers: set<NodeId>, voters: set<NodeId>)

  ghost predicate ValidConfig(c: Config) {
    c.voters <= c.servers && c.voters != {}
  }

  /**
   One server. `term`, `voteTerm`, `voteCand` and `log` are durable, the rest is
   lost in a crash. `applied` is everything handed to the state machine since
   the process started, so `|applied|` is lastApplied.
   */
  datatype Node = Node(
    term: nat,
    voteTerm: nat,
    voteCand: Option<NodeId>,
    log: seq<Entry>,
    role: Role,
    transfer: bool,
    leader: Option<NodeId>,
    voting: bool,
    asked: set<NodeId>,
    granted: nat,
    commit: nat,
    applied: seq<Entry>,
    ledger: Ledger<NodeId>)

  datatype VoteReq = VoteReq(term: nat, cand: NodeId, lastIndex: nat, lastTerm: nat, transfer: bool)

  datatype VoteResp = VoteResp(reqTerm: nat, voter: NodeId, cand: NodeId, term: nat, granted: bool)

  datatype AppendReq = AppendReq(
    term: nat, leader: NodeId, to: NodeId,
    prev: nat, prevTerm: nat, entries: seq<Entry>, commit: nat)
  {
    /** The last index the request speaks about. */
    function End(): nat { prev + |entries| }
  }

  datatype AppendResp = AppendResp(req: AppendReq, term: nat, success: bool, lastLog: nat)

  datatype Net = Net(
    voteReqs: set<VoteReq>,
    voteResps: set<VoteResp>,
    appReqs: set<AppendReq>,
    appResps: set<AppendResp>)

  datatype State = State(nodes: map<NodeId, Node>, net: Net)

  // ---------------------------------------------------------------------
  // What one server does
  // ---------------------------------------------------------------------

  function LastTerm(log: seq<Entry>): nat {
    if |log| == 0 then 0 else log[|log| - 1].term
  }

  /** The comparison of section 5.4.1 of the Raft paper, as `requestVote` makes it. */
  predicate UpToDate(lastIndex: nat, lastTerm: nat, log: seq<Entry>) {
    LastTerm(log) < lastTerm || (LastTerm(log) == lastTerm && |log| <= lastIndex)
  }

  const NoLedger: Ledger<NodeId> := Ledger(map[], 0, 0)

  /** What is left of a server after a crash. */
  function Restarted(x: Node): Node {
    Node(x.term, x.voteTerm, x.voteCand, x.log,
         Follower, false, None, false, {}, 0, 0, [], NoLedger)
  }

  /** Becoming a follower at term `t`; `setState` forgets the known leader. */
  function SteppedTo(x: Node, t: nat): Node {
    x.(term := t, role := Follower, leader := None, voting := false, transfer := false)
  }

  datatype Verdict = Ignored | Refused | Repeated(same: bool) | Fresh

  /** The branches of `requestVote` in the order the handler takes them. */
  function Judge(c: Config, x: Node, q: VoteReq): Verdict {
    if |x.log| > 0 && q.cand !in c.servers then Ignored
    else if x.leader.Some? && x.leader.value != q.cand && !q.transfer then Ignored
    else if q.term < x.term then Ignored
    else if |x.log| > 0 && q.cand !in c.voters then Refused
    else if x.voteTerm == q.term && x.voteCand.Some? then Repeated(x.voteCand.value == q.cand)
    else if !UpToDate(q.lastIndex, q.lastTerm, x.log) then Refused
    else Fresh
  }

  /** The term change every request vote beyond the first checks causes. */
  function Adopted(x: Node, t: nat): Node {
    if t > x.term then SteppedTo(x, t) else x
  }

  function Voted(c: Config, x: Node, q: VoteReq): Node {
    match Judge(c, x, q)
    case Ignored => x
    case Refused => Adopted(x, q.term)
    case Repeated(_) => Adopted(x, q.term)
    case Fresh => Adopted(x, q.term).(voteTerm := q.term, voteCand := Some(q.cand))
  }

  lemma VotedFrame(c: Config, x: Node, q: VoteReq)
    ensures var y := Voted(c, x, q);
            && y.log == x.log && y.term >= x.term && y.commit == x.commit && y.applied == x.applied && y.ledger == x.ledger
            && (y.role == Follower || (y.role == x.role && y.voting == x.voting && y.term == x.term
                && y.asked == x.asked && y.granted == x.granted && y.transfer == x.transfer))
  {
  }

  function VoteAnswer(c: Config, n: NodeId, x: Node, q: VoteReq): VoteResp {
    match Judge(c, x, q)
    case Ignored => VoteResp(q.term, n, q.cand, x.term, false)
    case Refused => VoteResp(q.term, n, q.cand, q.term, false)
    case Repeated(same) => VoteResp(q.term, n, q.cand, q.term, same)
    case Fresh => VoteResp(q.term, n, q.cand, q.term, true)
  }

  /** A crash between the two writes of `persistVote`: the new term is stored, the old name is kept. */
  function TornVote(x: Node, t: nat): Node {
    Restarted(Adopted(x, t).(voteTerm := t))
  }

  /** How many of `entries`, which follow index `prev`, the log already has. */
  function Present(log: seq<Entry>, prev: nat, entries: seq<Entry>): (i: nat)
    requires prev <= |log|
    ensures i <= |entries| && prev + i <= |log|
    ensures i < |entries| && prev + i < |log| ==> log[prev + i].term != entries[i].term
    ensures forall j :: 0 <= j < i ==> log[prev + j].term == entries[j].term
    decreases |entries|
  {
    if |entries| == 0 || prev == |log| || log[prev].term != entries[0].term then 0
    else
      var i := Present(log, prev + 1, entries[1..]);
      assert forall j :: 0 < j <= i ==> entries[j] == entries[1..][j - 1];
      1 + i
  }

  /** The log once a conflicting suffix is deleted and `m` of the new entries are stored. */
  function StoredPart(log: seq<Entry>, prev: nat, entries: seq<Entry>, m: nat): seq<Entry>
    requires prev <= |log| && Present(log, prev, entries) + m <= |entries|
  {
    var i := Present(log, prev, entries);
    if i == |entries| then log else log[..prev + i] + entries[i..i + m]
  }

  function Merge(log: seq<Entry>, prev: nat, entries: seq<Entry>): seq<Entry>
    requires prev <= |log|
  {
    StoredPart(log, prev, entries, |entries| - Present(log, prev, entries))
  }

  predicate PrevMatches(log: seq<Entry>, q: AppendReq) {
    q.prev == 0 || (q.prev <= |log| && log[q.prev - 1].term == q.prevTerm)
  }

  /** The term check, the step to follower and the leader name of `appendEntries`. */
  function Met(x: Node, q: AppendReq): Node {
    (if q.term > x.term || (x.role != Follower && !x.transfer) then SteppedTo(x, q.term) else x)
    .(leader := Some(q.leader))
  }

  function Min(a: nat, b: nat): nat {
    if a <= b then a else b
  }

  /** The commit index clamp of `appendEntries` and the `processLogs` call after it. */
  function Followed(x: Node, commit: nat): Node {
    if commit > x.commit then
      var idx := Min(commit, |x.log|);
      HandedOver(x.(commit := idx), idx)
    else x
  }

  /** `processLogs` hands over everything up to `idx` that has not been handed over. */
  function HandedOver(x: Node, idx: nat): Node
    requires idx <= |x.log|
  {
    if idx <= |x.applied| then x
    else x.(applied := x.applied + x.log[|x.applied|..idx])
  }

  function Appended(x: Node, q: AppendReq): Node {
    if q.term < x.term then x
    else if !PrevMatches(x.log, q) then Met(x, q)
    else Followed(Met(x, q).(log := Merge(x.log, q.prev, q.entries)), q.commit)
  }

  function AppendAnswer(x: Node, q: AppendReq): AppendResp {
    if q.term < x.term then AppendResp(q, x.term, false, |x.log|)
    else AppendResp(q, q.term, PrevMatches(x.log, q), |x.log|)
  }

  /** An append request leaves the vote and the count of an election alone. */
  lemma AppendedFrame(x: Node, q: AppendReq)
    ensures var y := Appended(x, q);
            && y.voteTerm == x.voteTerm && y.voteCand == x.voteCand && y.term >= x.term
            && y.asked == x.asked && y.granted == x.granted && y.ledger == x.ledger
            && (y.role == Follower || (y.role == x.role && y.voting == x.voting && y.term == x.term))
  {
    hide Merge;
  }

  /** A crash after the conflicting suffix is deleted and `m` of the new entries are stored. */
  function TornAppend(x: Node, q: AppendReq, m: nat): Node
    requires q.prev <= |x.log|
    requires Present(x.log, q.prev, q.entries) + m <= |q.entries|
  {
    Restarted(Met(x, q).(log := StoredPart(x.log, q.prev, q.entries, m)))
  }

  /** `electSelf` without its writes to the vote: the term goes up and the votes are asked for. */
  function Campaigning(c: Config, x: Node): Node {
    x.(term := x.term + 1, voting := true, granted := 0,
       asked := if |x.log| > 0 then c.voters else {})
  }

  function OwnRequest(n: NodeId, x: Node): VoteReq {
    VoteReq(x.term + 1, n, |x.log|, LastTerm(x.log), x.transfer)
  }

  /** `newCommitment`: nothing is reported, and commits begin with the new leader's own entries. */
  function NewLedger(voters: set<NodeId>, start: nat): Ledger<NodeId> {
    Ledger(map v | v in voters :: 0, start, 0)
  }

  function Crowned(c: Config, n: NodeId, x: Node): Node {
    x.(role := Leader, leader := Some(n), voting := false, transfer := false, asked := {}, granted := 0,
       ledger := NewLedger(c.voters, |x.log| + 1))
  }

  /** One vote off the channel in `runCandidate`. */
  function Tallied(c: Config, n: NodeId, x: Node, r: VoteResp): Node {
    if r.term > x.term then SteppedTo(x, r.term)
    else
      var y := x.(asked := x.asked - {r.voter}, granted := x.granted + if r.granted then 1 else 0);
      if y.granted >= QuorumSize(|c.voters|) then Crowned(c, n, y) else y
  }

  lemma TalliedFrame(c: Config, n: NodeId, x: Node, r: VoteResp)
    ensures var y := Tallied(c, n, x, r);
            && y.log == x.log && y.term >= x.term && y.voteTerm == x.voteTerm && y.voteCand == x.voteCand
            && y.commit == x.commit && y.applied == x.applied
            && (y.role == Leader && x.role != Leader ==> y.term == x.term && !y.transfer)
            && (y.role == Candidate ==> x.role == Candidate && y.voting == x.voting && y.term == x.term && y.asked <= x.asked)
  {
  }

  /** `dispatchLogs` */
  ghost function Dispatched(n: NodeId, x: Node, cmds: seq<int>): Node {
    var log := x.log + seq(|cmds|, i requires 0 <= i < |cmds| => Entry(x.term, cmds[i]));
    x.(log := log, ledger := Reported(x.ledger, n, |log|))
  }

  /** `setupAppendEntries` for a follower whose next index is `next`, up to index `last`. */
  function BuiltRequest(n: NodeId, x: Node, to: NodeId, next: nat, last: nat, batch: nat): AppendReq
    requires 1 <= next <= |x.log| + 1 && last <= |x.log|
  {
    var end := Min(next + batch - 1, last);
    AppendReq(x.term, n, to, next - 1, LastTerm(x.log[..next - 1]),
              if next <= end then x.log[next - 1..end] else [], x.commit)
  }

  // ---------------------------------------------------------------------
  // What the cluster does
  // ---------------------------------------------------------------------

  datatype Step =
    | HeartbeatTimeout(n: NodeId)
    | ElectionTimeout(n: NodeId)
    | TimeoutNow(n: NodeId)
    | LearnTerm(n: NodeId, t: nat)
    | StepDown(n: NodeId)
    | Restart(n: NodeId)
    | ElectSelf(n: NodeId)
    | ElectSelfCrash(n: NodeId, wroteTerm: bool)
    | HandleVote(n: NodeId, vote: VoteReq)
    | HandleVoteTorn(n: NodeId, vote: VoteReq)
    | Tally(n: NodeId, answer: VoteResp)
    | Dispatch(n: NodeId, cmds: seq<int>)
    | SendAppend(n: NodeId, to: NodeId, next: nat, last: nat, batch: nat)
    | SendHeartbeat(n: NodeId, to: NodeId)
    | HandleAppend(n: NodeId, app: AppendReq)
    | HandleAppendCrash(n: NodeId, app: AppendReq, m: nat)
    | HandleAppendResp(n: NodeId, resp: AppendResp)
    | LeaderCommit(n: NodeId)
    | LeaderApply(n: NodeId, idx: nat)

  ghost predicate Enabled(c: Config, s: State, step: Step) {
    step.n in s.nodes &&
    var x := s.nodes[step.n];
    match step
    case HeartbeatTimeout(n) => x.role == Follower && |x.log| > 0 && n in c.voters
    case ElectionTimeout(n) => x.role == Candidate
    case TimeoutNow(n) => true
    case LearnTerm(n, t) => t > x.term
    case StepDown(n) => x.role == Leader
    case Restart(n) => true
    case ElectSelf(n) => x.role == Candidate && !x.voting
    case ElectSelfCrash(n, _) => x.role == Candidate && !x.voting && |x.log| > 0
    case HandleVote(n, q) => q in s.net.voteReqs && n in c.voters && n != q.cand
    case HandleVoteTorn(n, q) => q in s.net.voteReqs && n in c.voters && n != q.cand && Judge(c, x, q) == Fresh
    case Tally(n, r) =>
      r in s.net.voteResps && r.cand == n && r.reqTerm == x.term && x.role == Candidate && x.voting && r.voter in x.asked
    case Dispatch(n, cmds) => x.role == Leader && |cmds| > 0
    case SendAppend(n, to, next, last, batch) =>
      x.role == Leader && to in c.servers && to != n && 1 <= next <= |x.log| + 1 && last <= |x.log| && batch > 0
    case SendHeartbeat(n, to) => x.role == Leader && to in c.servers && to != n
    case HandleAppend(n, q) => q in s.net.appReqs && q.to == n
    case HandleAppendCrash(n, q, m) =>
      q in s.net.appReqs && q.to == n && q.term >= x.term && PrevMatches(x.log, q) &&
      Present(x.log, q.prev, q.entries) + m <= |q.entries|
    case HandleAppendResp(n, a) =>
      a in s.net.appResps && a.req.leader == n && x.role == Leader && x.term == a.req.term && a.success
    case LeaderCommit(n) => x.role == Leader && x.ledger.index > 0
    case LeaderApply(n, idx) => x.role == Leader && idx <= x.commit && idx <= |x.log|
  }

  /** The server that acts, after the step. */
  ghost function NextNode(c: Config, s: State, step: Step): Node
    requires Enabled(c, s, step)
  {
    var x := s.nodes[step.n];
    match step
    case HeartbeatTimeout(n) => x.(role := Candidate, leader := None, voting := false)
    case ElectionTimeout(n) => x.(voting := false, transfer := false)
    case TimeoutNow(n) => x.(role := Candidate, leader := None, transfer := true, voting := x.role == Candidate && x.voting)
    case LearnTerm(n, t) => SteppedTo(x, t)
    case StepDown(n) => SteppedTo(x, x.term)
    case Restart(n) => Restarted(x)
    case ElectSelf(n) =>
      if |x.log| > 0 && n in c.voters
      then Campaigning(c, x).(voteTerm := x.term + 1, voteCand := Some(n))
      else Campaigning(c, x)
    case ElectSelfCrash(n, wrote) =>
      if wrote && n in c.voters
      then Restarted(Campaigning(c, x).(voteTerm := x.term + 1))
      else Restarted(Campaigning(c, x))
    case HandleVote(n, q) => Voted(c, x, q)
    case HandleVoteTorn(n, q) => TornVote(x, q.term)
    case Tally(n, r) => Tallied(c, n, x, r)
    case Dispatch(n, cmds) => Dispatched(n, x, cmds)
    case SendAppend(n, to, next, last, batch) => x
    case SendHeartbeat(n, to) => x
    case HandleAppend(n, q) => Appended(x, q)
    case HandleAppendCrash(n, q, m) => TornAppend(x, q, m)
    case HandleAppendResp(n, a) =>
      if |a.req.entries| > 0 then x.(ledger := Reported(x.ledger, a.req.to, a.req.End())) else x
    case LeaderCommit(n) => x.(commit := x.ledger.index)
    case LeaderApply(n, idx) => HandedOver(x, idx)
  }

  /** The messages in the network after the step. */
  ghost function NextNet(c: Config, s: State, step: Step): Net
    requires Enabled(c, s, step)
  {
    var x := s.nodes[step.n];
    var net := s.net;
    match step
    case ElectSelf(n) =>
      if |x.log| == 0 then net
      else
        var asked := net.(voteReqs := net.voteReqs + {OwnRequest(n, x)});
        if n in c.voters
        then asked.(voteResps := net.voteResps + {VoteResp(x.term + 1, n, n, x.term + 1, true)})
        else asked
    case ElectSelfCrash(n, _) => net.(voteReqs := net.voteReqs + {OwnRequest(n, x)})
    case HandleVote(n, q) => net.(voteResps := net.voteResps + {VoteAnswer(c, n, x, q)})
    case SendAppend(n, to, next, last, batch) =>
      net.(appReqs := net.appReqs + {BuiltRequest(n, x, to, next, last, batch)})
    case SendHeartbeat(n, to) => net.(appReqs := net.appReqs + {AppendReq(x.term, n, to, 0, 0, [], 0)})
    case HandleAppend(n, q) => net.(appResps := net.appResps + {AppendAnswer(x, q)})
    case _ => net
  }

  ghost function Next(c: Config, s: State, step: Step): State
    requires Enabled(c, s, step)
  {
    State(s.nodes[step.n := NextNode(c, s, step)], NextNet(c, s, step))
  }

  ghost predicate Moves(c: Config, s: State, step: Step, s': State) {
    Enabled(c, s, step) && s' == Next(c, s, step)
  }

  /** The configuration entry that `BootstrapCluster` writes at index 1 in term 1. */
  const BootEntry: Entry := Entry(1, 0)

  function BlankNode(): Node {
    Node(0, 0, None, [], Follower, false, None, false, {}, 0, 0, [], NoLedger)
  }

  function BootedNode(): Node {
    BlankNode().(term := 1, log := [BootEntry])
  }

  /** Every server is bootstrapped or has nothing. */
  ghost predicate Init(c: Config, s: State) {
    && ValidConfig(c)
    && s.nodes.Keys == c.servers
    && (forall n :: n in s.nodes ==> s.nodes[n] == BlankNode() || s.nodes[n] == BootedNode())
    && s.net == Net({}, {}, {}, {})
  }

  /** A run: the states passed through and the steps between them. */
  datatype Run = Run(states: seq<State>, steps: seq<Step>)

  ghost predicate ValidRun(c: Config, r: Run) {
    && |r.states| == |r.steps| + 1
    && Init(c, r.states[0])
    && forall i :: 0 <= i < |r.steps| ==> Moves(c, r.states[i], r.steps[i], r.states[i + 1])
  }
}
