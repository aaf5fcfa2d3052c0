/**
 The commit index clamp of `appendEntries` (raft.go): a follower moves to the
 smaller of the leader's commit index and its own last index, which can lie
 beyond the request. Exactly when that is safe for every follower.
 */
module CommitClamp {
  import opened Cluster
  import opened LogMatching
  import opened WitnessedCommits
  import opened LeaderCompleteness
  import opened SealedPrefixes
  import opened SafetySteps
  import opened StateMachineSafety
  import opened Replication

  // ---------------------------------------------------------------------
  // Requests and their receivers
  // ---------------------------------------------------------------------

  /** Terms never fall along the log and do not go beyond `top`; only the bootstrap entry is of term 1. */
  ghost predicate Ordered(log: seq<Entry>, top: nat) {
    && (|log| > 0 ==> log[0] == BootEntry)
    && (forall i: nat :: 1 <= i < |log| ==> log[i].term >= 2)
    && (forall i: nat :: i < |log| ==> log[i].term <= top)
    && (forall i: nat, j: nat :: i <= j < |log| ==> log[i].term <= log[j].term)
  }

  /** The part of a leader's log that is from before its term `t`. */
  function Inherited(from: seq<Entry>, t: nat): (log: seq<Entry>)
    ensures log <= from
    ensures forall i :: |log| <= i < |from| ==> from[i].term == t
    ensures |log| > 0 ==> log[|log| - 1].term != t
  {
    if |from| > 0 && from[|from| - 1].term == t then Inherited(from[..|from| - 1], t) else from
  }

  /** A request of the leader whose log is `from`. */
  ghost predicate Sent(from: seq<Entry>, q: AppendReq) {
    |from| > 0 && Ordered(from, q.term) && CutFrom(from, q) && q.commit <= |from|
  }

  /**
   The latest term in which the leader's commit index can have been committed:
   its own if the index is one of its own entries, else the last one it inherited.
   */
  function CommitTerm(from: seq<Entry>, q: AppendReq): nat {
    var inherited := Inherited(from, q.term);
    if q.commit > |inherited| then q.term else LastTerm(inherited)
  }

  /** Logs with the same term anywhere are the same up to the first of the two places. */
  ghost predicate Kin(a: seq<Entry>, b: seq<Entry>) {
    forall i: nat, j: nat {:trigger a[i], b[j]} :: i < |a| && j < |b| && a[i].term == b[j].term ==> Agree(a, b, Min(i, j) + 1)
  }

  /** Entries of the leader's term are the leader's. */
  ghost predicate OwnEntries(log: seq<Entry>, from: seq<Entry>, t: nat) {
    forall i: nat :: i < |log| && log[i].term == t ==> Agree(log, from, i + 1)
  }

  /** So are entries below its commit index of the term it was committed in, or later. */
  ghost predicate KeepsCommitted(log: seq<Entry>, from: seq<Entry>, q: AppendReq) {
    forall i: nat :: i < |log| && i < q.commit && log[i].term >= CommitTerm(from, q) ==> Agree(log, from, i + 1)
  }

  /** A follower that accepts the request, as runs have them. */
  ghost predicate Receiver(x: Node, from: seq<Entry>, q: AppendReq) {
    && x.term <= q.term && PrevMatches(x.log, q) && Ordered(x.log, x.term)
    && Kin(x.log, from) && OwnEntries(x.log, from, q.term) && KeepsCommitted(x.log, from, q)
    && Agree(x.log, from, x.commit) && Applied(x)
  }

  /** All it has handed over afterwards are the leader's entries. */
  ghost predicate FollowsLeader(x: Node, from: seq<Entry>, q: AppendReq) {
    Agree(Appended(x, q).applied, from, |Appended(x, q).applied|)
  }

  /**
   An index from the end of the request up to its commit index where a leader of
   term `t` can have written another entry: `t` is from before the commit, not
   before the entry it follows, and not a term the leader has from there on.
   */
  predicate ForksAt(from: seq<Entry>, q: AppendReq, d: nat, t: nat) {
    && q.End() <= d < q.commit <= |from| && d >= 1
    && 2 <= t < CommitTerm(from, q) && LastTerm(from[..d]) <= t
    && forall e :: d <= e < |from| ==> from[e].term != t
  }

  lemma KinMatches(a: seq<Entry>, b: seq<Entry>)
    requires Kin(a, b)
    ensures Matching(a, b)
  {
    forall i: nat | i < |a| && i < |b| ensures MatchesAt(a, b, i) {
      assert a[i].term == b[i].term ==> Agree(a, b, Min(i, i) + 1);
    }
  }

  // ---------------------------------------------------------------------
  // Without such an index every follower is safe
  // ---------------------------------------------------------------------

  /** Where a follower first differs from the leader there is such an index. */
  lemma DifferenceForks(x: Node, from: seq<Entry>, q: AppendReq, d: nat)
    requires Sent(from, q) && Receiver(x, from, q) && q.End() <= d < q.commit && d < |x.log|
    requires Agree(x.log, from, d) && x.log[d].term != from[d].term
    ensures ForksAt(from, q, d, x.log[d].term)
  {
    hide CutFrom, Inherited, Agree, Kin;
    var t := x.log[d].term;
    if d > 0 {
      AgreeAt(x.log, from, d, d - 1);
    }
    DifferAt(x.log, from, d);
    forall e | d <= e < |from| ensures from[e].term != t {
      KinAt(x.log, from, d, e);
    }
  }

  lemma KinAt(a: seq<Entry>, b: seq<Entry>, i: nat, j: nat)
    requires Kin(a, b) && i < |a| && j < |b|
    ensures a[i].term == b[j].term ==> Agree(a, b, Min(i, j) + 1)
  {
  }

  lemma DifferAt(a: seq<Entry>, b: seq<Entry>, d: nat)
    requires d < |a| && d < |b| && a[d] != b[d]
    ensures !Agree(a, b, d + 1)
  {
    if Agree(a, b, d + 1) {
      AgreeAt(a, b, d + 1, d);
    }
  }

  lemma {:induction false} AgreesOn(x: Node, from: seq<Entry>, q: AppendReq, k: nat)
    requires Sent(from, q) && Receiver(x, from, q) && (forall d: nat, t: nat :: !ForksAt(from, q, d, t))
    requires Agree(x.log, from, q.End()) && q.End() <= k <= |x.log| && k <= q.commit
    ensures Agree(x.log, from, k)
    decreases k
  {
    hide Ordered, CutFrom, OwnEntries, KeepsCommitted, ForksAt;
    if k > q.End() {
      var d := k - 1;
      AgreesOn(x, from, q, d);
      if x.log[d].term != from[d].term {
        DifferenceForks(x, from, q, d);
      } else {
        assert Agree(x.log, from, Min(d, d) + 1);
      }
    }
  }

  /** The log after an accepted request is the old one, or the leader's up to the end of the request. */
  lemma MergedLog(x: Node, from: seq<Entry>, q: AppendReq)
    requires CutFrom(from, q) && Matching(x.log, from) && PrevMatches(x.log, q)
    ensures var log := Merge(x.log, q.prev, q.entries);
            Agree(log, from, q.End()) && (log == x.log || log == from[..q.End()])
  {
    hide Present;
    MergedAgrees(x.log, from, q);
    PresentMatches(x.log, from, q);
    var i := Present(x.log, q.prev, q.entries);
    if i < |q.entries| {
      StoredPartReplaces(from, x.log, q.prev, q.entries, |q.entries| - i);
    }
  }

  /** What has been handed over after a request, as far as the log and the commit index tell. */
  lemma AppendedApplied(x: Node, q: AppendReq)
    requires x.term <= q.term && PrevMatches(x.log, q)
    ensures var log, y := Merge(x.log, q.prev, q.entries), Appended(x, q);
            var idx := Min(q.commit, |log|);
            if q.commit > x.commit && idx > |x.applied| then y.applied == x.applied + log[|x.applied|..idx] else y.applied == x.applied
  {
    hide Merge;
  }

  lemma SafeClampFollows(x: Node, from: seq<Entry>, q: AppendReq)
    requires Sent(from, q) && Receiver(x, from, q) && (forall d: nat, t: nat :: !ForksAt(from, q, d, t))
    ensures FollowsLeader(x, from, q)
  {
    hide Merge, Appended, Matching, ForksAt, Ordered, Kin, OwnEntries, KeepsCommitted;
    KinMatches(x.log, from);
    var log := Merge(x.log, q.prev, q.entries);
    var idx, a := Min(q.commit, |log|), |x.applied|;
    MergedLog(x, from, q);
    AppendedApplied(x, q);
    AgreeLess(x.log, from, x.commit, a);
    assert Agree(log, from, idx) by {
      if idx <= q.End() { AgreeLess(log, from, q.End(), idx); } else { AgreesOn(x, from, q, idx); }
    }
    if idx > a {
      AgreeLess(log, from, idx, a);
      assert x.applied + log[a..idx] == log[..idx];
    }
  }

  // ---------------------------------------------------------------------
  // With one some follower is not
  // ---------------------------------------------------------------------

  /** The leader's log up to `d`, and then an entry of another term. */
  function Branched(from: seq<Entry>, d: nat, t: nat): seq<Entry>
    requires d < |from|
  {
    from[..d] + [Entry(t, 0)]
  }

  lemma BranchedAgrees(from: seq<Entry>, d: nat, t: nat, k: nat)
    requires k <= d < |from|
    ensures Agree(Branched(from, d, t), from, k)
  {
    assert Branched(from, d, t)[..k] == from[..k];
  }

  lemma BranchedOrdered(from: seq<Entry>, d: nat, t: nat, top: nat)
    requires 1 <= d < |from| && Ordered(from, top) && LastTerm(from[..d]) <= t && t >= 2
    ensures Ordered(Branched(from, d, t), t)
  {
    var log := Branched(from, d, t);
    assert from[..d][d - 1] == from[d - 1];
    forall i: nat | i < |log| ensures log[i].term <= t {
      assert i < d ==> log[i] == from[i] && from[i].term <= from[d - 1].term;
    }
    forall i: nat, j: nat | i <= j < |log| ensures log[i].term <= log[j].term {
      assert j < d ==> log[i] == from[i] && log[j] == from[j];
    }
  }

  lemma BranchedKin(from: seq<Entry>, d: nat, t: nat)
    requires d < |from| && forall e :: d <= e < |from| ==> from[e].term != t
    ensures Kin(Branched(from, d, t), from)
  {
    var log := Branched(from, d, t);
    forall i: nat, j: nat | i < |log| && j < |from| && log[i].term == from[j].term ensures Agree(log, from, Min(i, j) + 1) {
      BranchedAgrees(from, d, t, Min(i, j) + 1);
    }
  }

  /** A follower that has followed a leader of term `t` at `d`. */
  function Forked(from: seq<Entry>, d: nat, t: nat): Node
    requires d < |from|
  {
    BlankNode().(term := t, log := Branched(from, d, t))
  }

  lemma CommitTermBound(from: seq<Entry>, q: AppendReq)
    requires Ordered(from, q.term)
    ensures CommitTerm(from, q) <= q.term
  {
  }

  lemma ForkedReceives(from: seq<Entry>, q: AppendReq, d: nat, t: nat)
    requires Sent(from, q) && ForksAt(from, q, d, t)
    ensures Receiver(Forked(from, d, t), from, q)
  {
    var log := Branched(from, d, t);
    BranchedOrdered(from, d, t, q.term);
    BranchedKin(from, d, t);
    CommitTermBound(from, q);
    assert forall i: nat :: i < |log| ==> log[i].term <= t;
    hide Ordered, Kin, CommitTerm;
    assert q.prev > 0 ==> log[q.prev - 1] == from[q.prev - 1];
  }

  lemma {:induction false} AllPresent(log: seq<Entry>, prev: nat, entries: seq<Entry>)
    requires prev + |entries| <= |log| && entries == log[prev..prev + |entries|]
    ensures Present(log, prev, entries) == |entries|
    decreases |entries|
  {
    if |entries| > 0 {
      assert entries[0] == log[prev];
      AllPresent(log, prev + 1, entries[1..]);
    }
  }

  /** A server with such a log that has handed nothing over accepts the request and hands over the other entry. */
  lemma BranchStrays(x: Node, from: seq<Entry>, q: AppendReq, d: nat, t: nat)
    requires Sent(from, q) && ForksAt(from, q, d, t)
    requires x.log == Branched(from, d, t) && x.term <= q.term && x.commit == 0 && x.applied == []
    ensures PrevMatches(x.log, q) && !FollowsLeader(x, from, q)
  {
    hide Appended, Ordered, Present, CommitTerm;
    assert q.prev > 0 ==> x.log[q.prev - 1] == from[q.prev - 1];
    assert q.entries == x.log[q.prev..q.End()];
    AllPresent(x.log, q.prev, q.entries);
    AppendedApplied(x, q);
    assert x.applied + x.log[0..d + 1] == x.log;
    assert x.log[..d + 1][d] != from[..d + 1][d];
  }

  lemma ForkedStrays(from: seq<Entry>, q: AppendReq, d: nat, t: nat)
    requires Sent(from, q) && ForksAt(from, q, d, t)
    ensures Receiver(Forked(from, d, t), from, q) && !FollowsLeader(Forked(from, d, t), from, q)
  {
    hide Receiver, Ordered, FollowsLeader;
    ForkedReceives(from, q, d, t);
    CommitTermBound(from, q);
    BranchStrays(Forked(from, d, t), from, q, d, t);
  }

  /**
   Every follower hands over only the leader's entries if and only if there is
   no index from the end of the request up to its commit index where a leader
   from before the commit can have written another entry.
   */
  lemma ClampSafeIff(from: seq<Entry>, q: AppendReq)
    requires Sent(from, q)
    ensures (forall x | Receiver(x, from, q) :: FollowsLeader(x, from, q)) <==> (forall d: nat, t: nat :: !ForksAt(from, q, d, t))
  {
    hide Receiver, FollowsLeader, ForksAt, Ordered, CutFrom;
    if forall d: nat, t: nat :: !ForksAt(from, q, d, t) {
      forall x | Receiver(x, from, q) ensures FollowsLeader(x, from, q) {
        SafeClampFollows(x, from, q);
      }
    } else {
      var d: nat, t: nat :| ForksAt(from, q, d, t);
      ForkedStrays(from, q, d, t);
    }
  }

  /** A request that covers its commit index, or ends in an entry of its own term, has no such index. */
  lemma CoveredNeverForks(from: seq<Entry>, q: AppendReq, d: nat, t: nat)
    requires Sent(from, q) && (q.commit <= q.End() || EndsInOwnTerm(q))
    ensures !ForksAt(from, q, d, t)
  {
    CommitTermBound(from, q);
    if q.End() <= d < q.commit {
      var end := q.End();
      assert |q.entries| > 0 ==> q.entries[|q.entries| - 1] == from[end - 1];
      assert from[..d][d - 1] == from[d - 1] && from[end - 1].term <= from[d - 1].term;
    }
  }

  // ---------------------------------------------------------------------
  // The followers of runs
  // ---------------------------------------------------------------------

  /** Nobody leads term 1, so all of it is the bootstrap entry. */
  lemma {:induction false} FirstReign(c: Config, r: Run, i: nat)
    requires ValidRun(c, r) && i < |r.states|
    ensures 1 in HistoryAt(c, r, i) && HistoryAt(c, r, i)[1].log == [BootEntry]
  {
    hide Moves, LogInv, NextHistory;
    if i > 0 {
      var s, h := r.states[i - 1], HistoryAt(c, r, i - 1);
      assert Moves(c, s, r.steps[i - 1], r.states[i - 1 + 1]);
      FirstReign(c, r, i - 1);
      LogInvHolds(c, r, i - 1);
      FirstReignStays(c, s, h, r.steps[i - 1], r.states[i]);
    }
  }

  lemma FirstReignStays(c: Config, s: State, h: History, step: Step, s': State)
    requires LogInv(c, s, h) && Moves(c, s, step, s') && 1 in h
    ensures 1 in NextHistory(c, s, h, step) && NextHistory(c, s, h, step)[1] == h[1]
  {
    hide ReignsOk, AllBacked, ReqOk, NextNet;
    var x := s.nodes[step.n];
    assert NodeLogOk(h, step.n, x);
    match step
    case Tally(n, a) => TalliedFrame(c, n, x, a);
    case Dispatch(n, _) => LeaderTerm(c, s, h, n);
    case _ =>
  }

  /** Every later reign began with the bootstrap entry. */
  lemma ReignsBegun(c: Config, s: State, h: History, t: nat)
    requires VoteInv(c, s, h) && t in h && t >= 2
    ensures h[t].base >= 1
  {
    hide VotesSafe, VotesKnown, CandidateOk, OneRequest;
    assert ElectedOk(c, s.net, h, t);
    var q :| q in s.net.voteReqs && Origin(h, t, q);
    assert VoteReqOk(s.nodes, h, q);
  }

  lemma BackedOrdered(c: Config, s: State, h: History, log: seq<Entry>, top: nat)
    requires VoteInv(c, s, h) && 1 in h && h[1].log == [BootEntry]
    requires ReignsOk(h) && AllBacked(h, log) && TermsBelow(log, top)
    ensures Ordered(log, top)
  {
    hide VoteInv;
    forall i: nat | i < |log| ensures if i == 0 then log[i] == BootEntry else log[i].term >= 2 {
      var u := log[i].term;
      assert Backed(h, log, i);
      assert ReignOk(h, u);
      AgreeAt(log, h[u].log, i + 1, i);
      if i == 0 && u >= 2 { ReignsBegun(c, s, h, u); }
    }
    forall i: nat, j: nat | i <= j < |log| ensures log[i].term <= log[j].term {
      TermsRise(h, log, i, j);
    }
  }

  lemma BackedKin(h: History, a: seq<Entry>, b: seq<Entry>)
    requires AllBacked(h, a) && AllBacked(h, b)
    ensures Kin(a, b)
  {
    forall i: nat, j: nat | i < |a| && j < |b| && a[i].term == b[j].term ensures Agree(a, b, Min(i, j) + 1) {
      assert Backed(h, a, i) && Backed(h, b, j);
      var own := h[a[i].term].log;
      AgreeLess(a, own, i + 1, Min(i, j) + 1);
      AgreeLess(b, own, j + 1, Min(i, j) + 1);
    }
  }

  lemma InheritedIsBase(h: History, t: nat)
    requires ReignsOk(h) && t in h
    ensures h[t].base <= |h[t].log| && Inherited(h[t].log, t) == h[t].log[..h[t].base]
  {
    assert ReignOk(h, t);
    var log := Inherited(h[t].log, t);
    assert log == h[t].log[..|log|];
    assert |log| < |h[t].log| ==> h[t].log[|log|].term == t;
    assert |log| > 0 ==> log[|log| - 1] == h[t].log[|log| - 1];
  }

  /** In every state of a safe run, a server that accepts a request receives it in this sense. */
  lemma ReceiversAreReal(c: Config, r: Run, i: nat, n: NodeId, q: AppendReq)
    requires ValidRun(c, r) && WholeVotes(c, r) && CoveredCommits(r) && i < |r.states|
    requires n in r.states[i].nodes && q in r.states[i].net.appReqs
    requires r.states[i].nodes[n].term <= q.term && PrevMatches(r.states[i].nodes[n].log, q)
    ensures q.term in HistoryAt(c, r, i) && Sent(HistoryAt(c, r, i)[q.term].log, q)
    ensures Receiver(r.states[i].nodes[n], HistoryAt(c, r, i)[q.term].log, q)
  {
    hide ValidRun, SafetyInv, WholeVotes, CoveredCommits;
    SafetyInvHolds(c, r, i);
    FirstReign(c, r, i);
    ReceiverInState(c, r.states[i], HistoryAt(c, r, i), n, q);
  }

  lemma ReceiverInState(c: Config, s: State, h: History, n: NodeId, q: AppendReq)
    requires SafetyInv(c, s, h) && 1 in h && h[1].log == [BootEntry] && n in s.nodes && q in s.net.appReqs
    requires s.nodes[n].term <= q.term && PrevMatches(s.nodes[n].log, q)
    ensures q.term in h && Sent(h[q.term].log, q) && Receiver(s.nodes[n], h[q.term].log, q)
  {
    hide SafetyInv, ReqSealed, NodeSafe, Ordered, Kin, Applied, CommitTerm;
    FollowerPart(c, s, h, n, q);
    InvParts(c, s, h);
    var x, from := s.nodes[n], h[q.term].log;
    assert ReignOk(h, q.term);
    ReignsBegun(c, s, h, q.term);
    BackedOrdered(c, s, h, x.log, x.term);
    BackedOrdered(c, s, h, from, q.term);
    BackedKin(h, x.log, from);
    CommitIsLeaders(c, s, h, n, q);
    forall i: nat | i < |x.log| && x.log[i].term == q.term ensures Agree(x.log, from, i + 1) {
      assert Backed(h, x.log, i);
    }
    forall i: nat | i < |x.log| && i < q.commit && x.log[i].term >= CommitTerm(from, q) ensures Agree(x.log, from, i + 1) {
      CommittedKept(c, s, h, x.log, q, i);
    }
  }

  lemma CommitIsLeaders(c: Config, s: State, h: History, n: NodeId, q: AppendReq)
    requires SafetyInv(c, s, h) && n in s.nodes && q in s.net.appReqs && s.nodes[n].term <= q.term
    ensures q.term in h && Agree(s.nodes[n].log, h[q.term].log, s.nodes[n].commit) && Applied(s.nodes[n]) && q.commit <= |h[q.term].log|
  {
    hide VoteInv, LedgerInv, Committed;
    var x := s.nodes[n];
    assert NodeSafe(c, s.net, h, x) && ReqSealed(c, s.net, h, q);
    if x.commit > 0 {
      var t: nat, k: nat :| SealedBy(c, s.net, h, x.log, x.commit, x.term, t, k);
      if t < q.term {
        CommittedIsHad(c, s, h, t, k, q.term);
        AgreeLess(h[q.term].log, h[t].log, k, x.commit);
      }
    }
  }

  /** An entry below the commit index, of the term it was committed in or later, is the leader's. */
  lemma CommittedKept(c: Config, s: State, h: History, log: seq<Entry>, q: AppendReq, i: nat)
    requires SafetyInv(c, s, h) && q in s.net.appReqs && ReignsOk(h) && AllBacked(h, log) && TermsBelow(log, q.term)
    requires q.term in h && i < |log| && i < q.commit <= |h[q.term].log| && log[i].term >= CommitTerm(h[q.term].log, q)
    ensures Agree(log, h[q.term].log, i + 1)
  {
    hide VoteInv, LedgerInv, Committed, ReignsOk, AllBacked, Inherited;
    var from, u := h[q.term].log, log[i].term;
    assert Backed(h, log, i) by { BackedAt(h, log, i); }
    InheritedIsBase(h, q.term);
    if q.commit <= h[q.term].base && u < q.term {
      assert ReqSealed(c, s.net, h, q);
      var t: nat, k: nat :| SealedBy(c, s.net, h, from, q.commit, SealTop(h, q.term, q.commit), t, k);
      CommitTermReached(c, s, h, q.term, t, k);
      AgreeLess(log, h[u].log, i + 1, i + 1);
      if t < u {
        CommittedIsHad(c, s, h, t, k, u);
        AgreeLess(h[u].log, h[t].log, k, i + 1);
      }
      AgreeLess(from, h[t].log, q.commit, i + 1);
    }
  }

  lemma BackedAt(h: History, log: seq<Entry>, i: nat)
    requires AllBacked(h, log) && i < |log|
    ensures Backed(h, log, i)
  {
  }

  /** A leader that inherited a committed entry inherited an entry of that term. */
  lemma CommitTermReached(c: Config, s: State, h: History, u: nat, t: nat, k: nat)
    requires SafetyInv(c, s, h) && ReignsOk(h) && u in h && t < u && Committed(c, s.net, h, t, k)
    ensures h[u].base <= |h[u].log| && t <= LastTerm(h[u].log[..h[u].base])
  {
    hide SafetyInv, VoteInv, ReignsOk, AllBacked;
    InvParts(c, s, h);
    CommittedIsHad(c, s, h, t, k, u);
    CommittedInside(c, s, h, t, k);
    var log := h[u].log;
    AgreeAt(log, h[t].log, k, k - 1);
    assert h[t].log[k - 1].term == t by { assert ReignOk(h, t) by { ReignAt(h, t); } }
    assert AllBacked(h, log) by { ReignAt(h, u); }
    assert h[u].base <= |log| by { ReignAt(h, u); }
    TermsRise(h, log, k - 1, h[u].base - 1);
    assert log[..h[u].base][h[u].base - 1] == log[h[u].base - 1];
  }

  lemma ReignAt(h: History, t: nat)
    requires ReignsOk(h) && t in h
    ensures ReignOk(h, t)
  {
  }
}
