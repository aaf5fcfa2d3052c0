/** The condition of module CommitClamp is exact over runs. */
module ClampInRuns {
  import opened Cluster
  import opened LogMatching
  import opened LeaderCompleteness
  import opened StateMachineSafety
  import opened CommitClamp
  import opened CommitForks

  /**
   In the last state of the run, the leader whose log is `from` has sent the
   request, and its receiver accepts it and hands over another entry.
   */
  ghost predicate Astray(r: Run, from: seq<Entry>, q: AppendReq) {
    && GoodRun(r)
    && var s := r.states[|r.states| - 1];
    && q.leader in s.nodes && q.to in s.nodes && q in s.net.appReqs
    && s.nodes[q.leader].role == Leader && s.nodes[q.leader].term == q.term && s.nodes[q.leader].log == from
    && s.nodes[q.to].term <= q.term && PrevMatches(s.nodes[q.to].log, q) && !FollowsLeader(s.nodes[q.to], from, q)
  }

  lemma ForksHappen(from: seq<Entry>, q: AppendReq, d: nat, t: nat)
    requires Sent(from, q) && ForksAt(from, q, d, t) && q.leader == 0 && q.to == 1 && (q.prev == 0 ==> q.prevTerm == 0)
    ensures exists r :: Astray(r, from, q)
  {
    hide FollowsLeader, Reached, ValidRun, WholeVotes, CoveredCommits, Ordered, CommitTerm;
    var s := Completes(from, q, d, t);
    var s' := Sends(s, 0, 1, q.prev, q.End());
    assert q.prev > 0 ==> LastTerm(from[..q.prev]) == from[q.prev - 1].term;
    assert Excerpt(0, s.nodes[0], 1, q.prev, q.End()) == q;
    BranchStrays(s'.nodes[1], from, q, d, t);
    var r := RunTo(s');
    assert Astray(r, from, q);
  }

  lemma StrayingForks(r: Run, from: seq<Entry>, q: AppendReq)
    requires Astray(r, from, q)
    ensures exists d: nat, t: nat :: ForksAt(from, q, d, t)
  {
    hide FollowsLeader, WholeVotes, CoveredCommits, Receiver, LogInv, ForksAt, Moves, Init;
    var i := |r.states| - 1;
    var s, h := r.states[i], HistoryAt(Five, r, i);
    ReceiversAreReal(Five, r, i, q.to, q);
    assert h[q.term].log == from by {
      LogInvHolds(Five, r, i);
      LeaderTerm(Five, s, h, q.leader);
    }
    if forall d: nat, t: nat :: !ForksAt(from, q, d, t) {
      SafeClampFollows(s.nodes[q.to], from, q);
    }
  }

  /**
   Some run of five servers, with whole votes and covered commits, has a leader
   with this log that sends server 1 this request, which it accepts and after
   which it hands over another entry than the leader's, if and only if the
   request has an index where a leader from before the commit can have written
   another entry.
   */
  lemma ClampSafeInRunsIff(from: seq<Entry>, q: AppendReq)
    requires Sent(from, q) && q.leader == 0 && q.to == 1 && (q.prev == 0 ==> q.prevTerm == 0)
    ensures (exists r :: Astray(r, from, q)) <==> (exists d: nat, t: nat :: ForksAt(from, q, d, t))
  {
    hide Astray, ForksAt;
    if r :| Astray(r, from, q) {
      StrayingForks(r, from, q);
    }
    if d: nat, t: nat :| ForksAt(from, q, d, t) {
      ForksHappen(from, q, d, t);
    }
  }
}
