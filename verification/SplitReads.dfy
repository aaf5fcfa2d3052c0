/** Requests put together from several reads of the log, as `setupAppendEntries` (replication.go) does it. */
module SplitReads {
  import opened Cluster
  import opened LogMatching
  import opened Replication
  import opened CommitClamp
  import opened CommitForks
  import opened SafetySteps

  // The previous entry and then every entry is read on its own, while the main
  // thread may already be following another leader and overwriting the log.

  /** The previous entry is from the first log, each entry from the log of its own moment. */
  ghost predicate ReadFrom(logs: seq<seq<Entry>>, q: AppendReq) {
    && |logs| == |q.entries| + 1
    && (q.prev > 0 ==> q.prev <= |logs[0]| && q.prevTerm == logs[0][q.prev - 1].term)
    && forall k: nat :: k < |q.entries| ==> ReadAt(logs, q, k)
  }

  predicate ReadAt(logs: seq<seq<Entry>>, q: AppendReq, k: nat)
    requires k < |q.entries| && |logs| == |q.entries| + 1
  {
    q.prev + k < |logs[k + 1]| && q.entries[k] == logs[k + 1][q.prev + k]
  }

  /** When entry `k` was read, the log no longer had the term sent for the entry before it. */
  ghost predicate Seam(logs: seq<seq<Entry>>, q: AppendReq, k: nat)
    requires ReadFrom(logs, q)
  {
    k < |q.entries| && q.prev + k > 0 &&
    assert ReadAt(logs, q, k);
    logs[k + 1][q.prev + k - 1].term != if k == 0 then q.prevTerm else q.entries[k - 1].term
  }

  ghost predicate Seamless(logs: seq<seq<Entry>>, q: AppendReq)
    requires ReadFrom(logs, q)
  {
    forall k: nat :: !Seam(logs, q, k)
  }

  ghost predicate MatchesAll(log: seq<Entry>, logs: seq<seq<Entry>>) {
    forall k: nat :: k < |logs| ==> Matching(log, logs[k])
  }

  ghost predicate AllMatch(logs: seq<seq<Entry>>) {
    forall k: nat :: k < |logs| ==> MatchesAll(logs[k], logs)
  }

  /** The request with only its first `m` entries. */
  function Part(q: AppendReq, m: nat): AppendReq
    requires m <= |q.entries|
  {
    q.(entries := q.entries[..m])
  }

  // ---------------------------------------------------------------------
  // Without a seam the request is an excerpt of the last log read
  // ---------------------------------------------------------------------

  lemma PartGrows(logs: seq<seq<Entry>>, q: AppendReq, m: nat)
    requires ReadFrom(logs, q) && m < |q.entries| && !Seam(logs, q, m) && Matching(logs[m], logs[m + 1])
    requires CutFrom(logs[m], Part(q, m))
    ensures CutFrom(logs[m + 1], Part(q, m + 1))
  {
    hide Matching;
    var a, b, end := logs[m], logs[m + 1], q.prev + m;
    assert ReadAt(logs, q, m);
    assert Agree(a, b, end) by {
      if end > 0 {
        assert m > 0 ==> Part(q, m).entries[m - 1] == a[q.prev..end][m - 1];
        MatchingAt(a, b, end - 1);
      }
    }
    assert b[q.prev..end] == b[..end][q.prev..] == a[..end][q.prev..] == a[q.prev..end];
    assert q.entries[..m + 1] == q.entries[..m] + [b[end]] == b[q.prev..end + 1];
    if q.prev > 0 {
      AgreeAt(a, b, end, q.prev - 1);
    }
  }

  lemma MatchingAt(a: seq<Entry>, b: seq<Entry>, i: nat)
    requires Matching(a, b) && i < |a| && i < |b| && a[i].term == b[i].term
    ensures Agree(a, b, i + 1)
  {
    assert MatchesAt(a, b, i);
  }

  lemma {:induction false} PartIsCut(logs: seq<seq<Entry>>, q: AppendReq, m: nat)
    requires ReadFrom(logs, q) && AllMatch(logs) && m <= |q.entries| && forall k: nat :: k < m ==> !Seam(logs, q, k)
    ensures CutFrom(logs[m], Part(q, m))
  {
    hide Matching, Seam;
    if m > 0 {
      PartIsCut(logs, q, m - 1);
      assert MatchesAll(logs[m - 1], logs) && Matching(logs[m - 1], logs[m]);
      PartGrows(logs, q, m - 1);
    }
  }

  lemma PrefixMatching(a: seq<Entry>, b: seq<Entry>, k: nat)
    requires Matching(a, b) && k <= |a|
    ensures Matching(a[..k], b)
  {
    forall i: nat | i < k && i < |b| ensures MatchesAt(a[..k], b, i) {
      assert MatchesAt(a, b, i) && a[..k][..i + 1] == a[..i + 1];
    }
  }

  /** A follower that matches the logs read, and another one, still matches that one afterwards. */
  lemma SeamlessKeeps(logs: seq<seq<Entry>>, q: AppendReq, log: seq<Entry>, other: seq<Entry>)
    requires ReadFrom(logs, q) && AllMatch(logs) && Seamless(logs, q) && PrevMatches(log, q)
    requires MatchesAll(log, logs) && MatchesAll(other, logs) && Matching(log, other)
    requires Matching(logs[|q.entries|], other)
    ensures Matching(Merge(log, q.prev, q.entries), other)
  {
    hide Matching, Merge, Seam, CutFrom;
    var from := logs[|q.entries|];
    PartIsCut(logs, q, |q.entries|);
    assert Part(q, |q.entries|) == q;
    MergedLog(BlankNode().(log := log), from, q);
    assert q.End() <= |from|;
    PrefixMatching(from, other, q.End());
  }

  // ---------------------------------------------------------------------
  // With one some follower does not match any more
  // ---------------------------------------------------------------------

  /** The one that has just what was sent before the seam. */
  lemma SeamBreaks(logs: seq<seq<Entry>>, q: AppendReq, k: nat)
    requires ReadFrom(logs, q) && AllMatch(logs) && Seam(logs, q, k) && forall j: nat :: j < k ==> !Seam(logs, q, j)
    ensures q.prev + k <= |logs[k]|
    ensures var log := logs[k][..q.prev + k];
            MatchesAll(log, logs) && PrevMatches(log, q) && !Matching(Merge(log, q.prev, q.entries), logs[k + 1])
  {
    hide Matching, Present;
    PartIsCut(logs, q, k);
    var end := q.prev + k;
    var log, next := logs[k][..end], logs[k + 1];
    assert ReadAt(logs, q, k);
    assert MatchesAll(logs[k], logs);
    forall j: nat | j < |logs| ensures Matching(log, logs[j]) { PrefixMatching(logs[k], logs[j], end); }
    PresentAll(log, q, k);
    var merged := Merge(log, q.prev, q.entries);
    assert merged == log + q.entries[k..];
    assert merged[end] == q.entries[k] == next[end];
    assert k > 0 ==> Part(q, k).entries[k - 1] == log[end - 1];
    if Matching(merged, next) {
      MatchingAt(merged, next, end);
      AgreeAt(merged, next, end + 1, end - 1);
    }
  }

  lemma PresentAll(log: seq<Entry>, q: AppendReq, k: nat)
    requires k < |q.entries| && |log| == q.prev + k && q.entries[..k] == log[q.prev..]
    ensures Present(log, q.prev, q.entries) == k
  {
    var i := Present(log, q.prev, q.entries);
    assert forall j :: 0 <= j < k ==> q.entries[..k][j] == log[q.prev..][j];
  }

  lemma {:induction false} FirstSeam(logs: seq<seq<Entry>>, q: AppendReq, k: nat) returns (j: nat)
    requires ReadFrom(logs, q) && Seam(logs, q, k)
    ensures j <= k && Seam(logs, q, j) && forall i: nat :: i < j ==> !Seam(logs, q, i)
    decreases k
  {
    if i: nat :| i < k && Seam(logs, q, i) {
      j := FirstSeam(logs, q, i);
    } else {
      j := k;
    }
  }

  /** Every follower that matches the logs read still does after the request. */
  ghost predicate KeepsMatching(logs: seq<seq<Entry>>, q: AppendReq) {
    forall log :: MatchesAll(log, logs) && PrevMatches(log, q) ==> MatchesAll(Merge(log, q.prev, q.entries), logs)
  }

  /**
   A request read at several moments keeps every follower matching if and only
   if at each moment the log still had the term sent for the entry before.
   */
  lemma SplitSafeIff(logs: seq<seq<Entry>>, q: AppendReq)
    requires ReadFrom(logs, q) && AllMatch(logs)
    ensures KeepsMatching(logs, q) <==> Seamless(logs, q)
  {
    hide Matching, Merge, Seam;
    if Seamless(logs, q) {
      forall log | MatchesAll(log, logs) && PrevMatches(log, q) ensures MatchesAll(Merge(log, q.prev, q.entries), logs) {
        forall k: nat | k < |logs| ensures Matching(Merge(log, q.prev, q.entries), logs[k]) {
          assert MatchesAll(logs[k], logs) && MatchesAll(logs[|q.entries|], logs);
          SeamlessKeeps(logs, q, log, logs[k]);
        }
      }
    } else {
      var k: nat :| Seam(logs, q, k);
      var j := FirstSeam(logs, q, k);
      SeamBreaks(logs, q, j);
    }
  }

  // ---------------------------------------------------------------------
  // In runs
  // ---------------------------------------------------------------------

  /** Moments of a run, in order, in which the server exists. */
  ghost predicate Moments(r: Run, n: NodeId, at: seq<nat>) {
    && (forall k: nat :: k < |at| ==> at[k] < |r.states| && n in r.states[at[k]].nodes)
    && (forall k: nat, m: nat :: k <= m < |at| ==> at[k] <= at[m])
  }

  ghost function LogsAt(r: Run, n: NodeId, at: seq<nat>): (logs: seq<seq<Entry>>)
    requires Moments(r, n, at)
    ensures |logs| == |at|
  {
    seq(|at|, k requires 0 <= k < |at| => r.states[at[k]].nodes[n].log)
  }

  lemma RunMatching(c: Config, r: Run, i: nat, n: NodeId, j: nat, m: NodeId)
    requires ValidRun(c, r) && i < |r.states| && j < |r.states| && n in r.states[i].nodes && m in r.states[j].nodes
    ensures Matching(r.states[i].nodes[n].log, r.states[j].nodes[m].log)
  {
    hide ValidRun;
    var a, b := r.states[i].nodes[n].log, r.states[j].nodes[m].log;
    forall k: nat | k < |a| && k < |b| ensures MatchesAt(a, b, k) {
      if a[k].term == b[k].term { LogMatchingHolds(c, r, i, j, n, m, k); }
    }
  }

  lemma ReadsMatch(c: Config, r: Run, n: NodeId, at: seq<nat>, i: nat, m: NodeId)
    requires ValidRun(c, r) && Moments(r, n, at) && i < |r.states| && m in r.states[i].nodes
    ensures MatchesAll(r.states[i].nodes[m].log, LogsAt(r, n, at)) && AllMatch(LogsAt(r, n, at))
    ensures forall k: nat :: k < |at| ==> Matching(LogsAt(r, n, at)[k], r.states[i].nodes[m].log)
  {
    hide ValidRun, Matching;
    forall k: nat | k < |at|
      ensures Matching(r.states[i].nodes[m].log, LogsAt(r, n, at)[k]) && Matching(LogsAt(r, n, at)[k], r.states[i].nodes[m].log)
    {
      RunMatching(c, r, i, m, at[k], n);
      RunMatching(c, r, at[k], n, i, m);
    }
    forall k: nat, j: nat | k < |at| && j < |at| ensures Matching(LogsAt(r, n, at)[k], LogsAt(r, n, at)[j]) {
      RunMatching(c, r, at[k], n, at[j], n);
    }
  }

  /** A request read without a seam keeps log matching between all servers at all moments of every run. */
  lemma SeamlessInRuns(c: Config, r: Run, n: NodeId, at: seq<nat>, q: AppendReq, i: nat, v: NodeId, j: nat, m: NodeId)
    requires ValidRun(c, r) && Moments(r, n, at) && ReadFrom(LogsAt(r, n, at), q) && Seamless(LogsAt(r, n, at), q)
    requires i < |r.states| && v in r.states[i].nodes && PrevMatches(r.states[i].nodes[v].log, q)
    requires j < |r.states| && m in r.states[j].nodes
    ensures Matching(Merge(r.states[i].nodes[v].log, q.prev, q.entries), r.states[j].nodes[m].log)
  {
    hide ValidRun, Matching, Merge, Seam, Moments;
    ReadsMatch(c, r, n, at, i, v);
    ReadsMatch(c, r, n, at, j, m);
    RunMatching(c, r, i, v, j, m);
    SeamlessKeeps(LogsAt(r, n, at), q, r.states[i].nodes[v].log, r.states[j].nodes[m].log);
  }

  /** As long as the server leads in one term, its log only grows. */
  lemma LeaderLogGrows(c: Config, r: Run, i: nat, j: nat, n: NodeId)
    requires ValidRun(c, r) && i <= j < |r.states| && n in r.states[i].nodes && n in r.states[j].nodes
    requires r.states[i].nodes[n].role == Leader && r.states[j].nodes[n].role == Leader
    requires r.states[i].nodes[n].term == r.states[j].nodes[n].term
    ensures r.states[i].nodes[n].log <= r.states[j].nodes[n].log
  {
    hide ValidRun, LogInv;
    LogInvHolds(c, r, i);
    LogInvHolds(c, r, j);
    LeaderTerm(c, r.states[i], HistoryAt(c, r, i), n);
    LeaderTerm(c, r.states[j], HistoryAt(c, r, j), n);
    HistoryGrows(c, r, i, j);
  }

  /** So whatever it reads while it leads in one term has no seam. */
  lemma LeaderReadsSeamless(c: Config, r: Run, n: NodeId, t: nat, at: seq<nat>, q: AppendReq)
    requires ValidRun(c, r) && Moments(r, n, at) && ReadFrom(LogsAt(r, n, at), q)
    requires forall k: nat :: k < |at| ==> r.states[at[k]].nodes[n].role == Leader && r.states[at[k]].nodes[n].term == t
    ensures Seamless(LogsAt(r, n, at), q)
  {
    hide ValidRun;
    var logs := LogsAt(r, n, at);
    forall k: nat ensures !Seam(logs, q, k) {
      if k < |q.entries| && q.prev + k > 0 {
        LeaderLogGrows(c, r, at[k], at[k + 1], n);
        assert ReadAt(logs, q, k) && logs[k] <= logs[k + 1];
        assert k > 0 ==> ReadAt(logs, q, k - 1);
      }
    }
  }

  // ---------------------------------------------------------------------
  // A seam in a run
  // ---------------------------------------------------------------------

  /** The request was sent from the log its leader had at that moment. */
  ghost predicate SentAt(r: Run, j: nat, q: AppendReq) {
    && j < |r.states| && q.leader in r.states[j].nodes
    && r.states[j].nodes[q.leader].role == Leader && r.states[j].nodes[q.leader].term == q.term
    && CutFrom(r.states[j].nodes[q.leader].log, q)
  }

  lemma {:induction false} SentSometime(c: Config, r: Run, i: nat, q: AppendReq)
    requires ValidRun(c, r) && i < |r.states| && q in r.states[i].net.appReqs && |q.entries| > 0
    ensures exists j: nat :: j <= i && SentAt(r, j, q)
    decreases i
  {
    hide Moves, Init, SentAt;
    if i == 0 {
      InitEmpty(c, r.states[0]);
    } else {
      assert Moves(c, r.states[i - 1], r.steps[i - 1], r.states[i - 1 + 1]);
      if q in r.states[i - 1].net.appReqs {
        SentSometime(c, r, i - 1, q);
      } else {
        SentNow(c, r, i - 1, q);
      }
    }
  }

  lemma InitEmpty(c: Config, s: State)
    requires Init(c, s)
    ensures s.net.appReqs == {}
  {
  }

  lemma SentNow(c: Config, r: Run, i: nat, q: AppendReq)
    requires i + 1 < |r.states| && i < |r.steps| && Moves(c, r.states[i], r.steps[i], r.states[i + 1])
    requires q in r.states[i + 1].net.appReqs && q !in r.states[i].net.appReqs && |q.entries| > 0
    ensures SentAt(r, i, q)
  {
    hide VoteAnswer, AppendAnswer, NextNode;
    var step := r.steps[i];
    if step.SendAppend? {
      BuiltIsCut(step.n, r.states[i].nodes[step.n], step.to, step.next, step.last, step.batch);
    }
  }

  const Old: seq<Entry> := [BootEntry, Entry(2, 1), Entry(2, 2)]
  const New: seq<Entry> := [BootEntry, Entry(3, 3), Entry(3, 4)]

  lemma LogsOrdered()
    ensures Ordered(Old, 2) && Ordered(New, 3)
  {
  }

  /** Server 0 leads in term 2 and sends server 1 its first entry of that term. */
  lemma LeadsOld() returns (s: State)
    ensures Reached(s) && s.nodes.Keys == Five.servers && Idle(s.nodes[0], Old, 3, 2) && s.nodes[0].role == Leader && s.nodes[0].term == 2
    ensures Idle(s.nodes[1], Old, 2, 2) && Bare(s.nodes[2], 2) && Bare(s.nodes[3], 2) && Bare(s.nodes[4], 2)
    ensures AppendReq(2, 0, 1, 1, 1, [Entry(2, 1)], 0) in s.net.appReqs
  {
    hide Reached, Ordered, Alone, Calm;
    LogsOrdered();
    var s0 := Begins();
    BegunWrites(s0, 0, Old, 2);
    BegunIdle(s0, Old, 2, 3);
    var s1 := Builds(s0, 0, Old, 1, 3, 1, 2);
    var s2 := Sends(s1, 0, 1, 1, 2);
    assert Old[..3] == Old && Old[..1] == [BootEntry] && Old[1..2] == [Entry(2, 1)];
    s := Hands(s2, 0, 1, Old, 3, 1, 1, 2, 2);
  }

  lemma BareIdle(x: Node, from: seq<Entry>, top: nat)
    requires Bare(x, top) && |from| > 0 && from[0] == BootEntry
    ensures Idle(x, from, 1, top)
  {
    assert from[..1] == [BootEntry];
  }

  /** Server 4 leads in term 3, and its request is on its way to server 0. */
  lemma LeadsNew(s: State) returns (s': State)
    requires Reached(s) && s.nodes.Keys == Five.servers && Bare(s.nodes[2], 2) && Bare(s.nodes[3], 2) && Bare(s.nodes[4], 2)
    ensures Reached(s') && OthersSame(s, s', 4) && AppendReq(3, 4, 0, 1, 1, [Entry(3, 3), Entry(3, 4)], 0) in s'.net.appReqs
  {
    hide Reached, Ordered, Alone, Calm;
    LogsOrdered();
    BareIdle(s.nodes[4], New, 2);
    var s1 := Builds(s, 4, New, 1, 3, 2, 3);
    assert New[..3] == New && New[..1] == [BootEntry] && New[1..3] == [Entry(3, 3), Entry(3, 4)];
    s' := Sends(s1, 4, 0, 1, 3);
  }

  lemma Overwritten(x: Node, q: AppendReq)
    requires x.log == Old && x.term == 2 && x.commit == 0 && q == AppendReq(3, 4, 0, 1, 1, [Entry(3, 3), Entry(3, 4)], 0)
    ensures Covered(x, q) && Appended(x, q).log == New
  {
    assert Present(Old, 1, q.entries) == 0;
    assert Old[..1] + q.entries == New;
  }

  /** Server 0 takes over the log of term 3, while server 1 still has what it was sent in term 2. */
  lemma Overwrites() returns (s: State)
    ensures Reached(s) && s.nodes.Keys == Five.servers && s.nodes[0].log == New && s.nodes[1].log == Old[..2] && s.nodes[1].term <= 2
    ensures AppendReq(2, 0, 1, 1, 1, [Entry(2, 1)], 0) in s.net.appReqs
  {
    hide Reached, Appended, Covered, Bare, Calm;
    var s0 := LeadsOld();
    var s1 := LeadsNew(s0);
    var q := AppendReq(3, 4, 0, 1, 1, [Entry(3, 3), Entry(3, 4)], 0);
    assert Old[..3] == Old;
    Overwritten(s1.nodes[0], q);
    s := Takes(s1, HandleAppend(0, q), 0);
  }

  /**
   In some run a server reads the previous entry while it leads in term 2 and
   the next entry after a leader of term 3 has overwritten both, and another
   server accepts the request and no longer matches it.
   */
  lemma SplitReadHappens() returns (r: Run, at: seq<nat>, q: AppendReq)
    ensures ValidRun(Five, r) && |at| == 2 && Moments(r, 0, at) && ReadFrom(LogsAt(r, 0, at), q)
    ensures r.states[at[0]].nodes[0].role == Leader && r.states[at[0]].nodes[0].term == q.term
    ensures var s := r.states[at[1]];
            && 1 in s.nodes && s.nodes[1].term <= q.term && PrevMatches(s.nodes[1].log, q)
            && !Matching(Appended(s.nodes[1], q).log, s.nodes[0].log)
  {
    hide Reached, Appended, Moves, Init, Matching;
    var s := Overwrites();
    r := RunTo(s);
    var i, sent := |r.states| - 1, AppendReq(2, 0, 1, 1, 1, [Entry(2, 1)], 0);
    SentSometime(Five, r, i, sent);
    var j: nat :| j <= i && SentAt(r, j, sent);
    at, q := [j, i], AppendReq(2, 0, 1, 2, 2, [Entry(3, 4)], 0);
    assert r.states[j].nodes[0].log[1] == sent.entries[0];
    assert ReadAt(LogsAt(r, 0, at), q, 0);
    SplitMerged(s.nodes[1], q);
  }

  lemma SplitMerged(x: Node, q: AppendReq)
    requires x.log == Old[..2] && x.term <= 2 && q == AppendReq(2, 0, 1, 2, 2, [Entry(3, 4)], 0)
    ensures PrevMatches(x.log, q) && !Matching(Appended(x, q).log, New)
  {
    assert Present(x.log, 2, q.entries) == 0;
    var log := Appended(x, q).log;
    assert log == x.log[..2] + [Entry(3, 4)];
    if Matching(log, New) {
      MatchingAt(log, New, 2);
      AgreeAt(log, New, 3, 1);
    }
  }
}
