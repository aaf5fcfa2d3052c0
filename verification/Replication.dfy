/**
 Replication to one follower: `replicateTo` against `appendEntries`
 (replication.go). From any follower log that matches the leader's, the loop
 ends with the leader's entries on the follower.
 */
module Replication {
  import opened Commitment
  import opened Cluster
  import opened LogMatching
  import opened Server
  import opened Answers

  /** Two logs that have the same term at an index are the same up to it. */
  ghost predicate Matching(a: seq<Entry>, b: seq<Entry>) {
    forall i: nat {:trigger MatchesAt(a, b, i)} :: i < |a| && i < |b| ==> MatchesAt(a, b, i)
  }

  predicate MatchesAt(a: seq<Entry>, b: seq<Entry>, i: nat)
    requires i < |a| && i < |b|
  {
    a[i].term == b[i].term ==> Agree(a, b, i + 1)
  }

  /** A request cut from the log `from`. */
  ghost predicate CutFrom(from: seq<Entry>, q: AppendReq) {
    && q.End() <= |from| && q.entries == from[q.prev..q.End()]
    && (q.prev > 0 ==> q.prevTerm == from[q.prev - 1].term)
  }

  /** The check of the previous entry finds out exactly whether the follower agrees so far. */
  lemma PrevCheckIsExact(log: seq<Entry>, from: seq<Entry>, q: AppendReq)
    requires CutFrom(from, q) && Matching(log, from)
    ensures PrevMatches(log, q) <==> Agree(log, from, q.prev)
  {
    if q.prev > 0 {
      if q.prev <= |log| {
        assert MatchesAt(log, from, q.prev - 1);
      }
      if Agree(log, from, q.prev) { AgreeAt(log, from, q.prev, q.prev - 1); }
    }
  }

  lemma PresentMatches(log: seq<Entry>, from: seq<Entry>, q: AppendReq)
    requires CutFrom(from, q) && Matching(log, from) && PrevMatches(log, q)
    ensures Agree(log, from, q.prev + Present(log, q.prev, q.entries))
  {
    var p := q.prev + Present(log, q.prev, q.entries);
    if p > q.prev {
      assert q.entries[p - 1 - q.prev] == from[p - 1];
    }
    if p > 0 {
      assert MatchesAt(log, from, p - 1);
    }
  }

  /** After an accepted request the follower agrees up to its end and still matches the leader. */
  lemma MergedAgrees(log: seq<Entry>, from: seq<Entry>, q: AppendReq)
    requires CutFrom(from, q) && Matching(log, from) && PrevMatches(log, q)
    ensures Agree(Merge(log, q.prev, q.entries), from, q.End())
    ensures Matching(Merge(log, q.prev, q.entries), from)
  {
    hide Present, Matching;
    PresentMatches(log, from, q);
    var i := Present(log, q.prev, q.entries);
    if i < |q.entries| {
      StoredPartReplaces(from, log, q.prev, q.entries, |q.entries| - i);
      PrefixMatches(from, q.End());
    } else {
      assert Merge(log, q.prev, q.entries) == log;
    }
  }

  lemma PrefixMatches(from: seq<Entry>, k: nat)
    requires k <= |from|
    ensures Matching(from[..k], from)
  {
    forall i: nat | i < k ensures MatchesAt(from[..k], from, i) {
      assert from[..k][..i + 1] == from[..i + 1];
    }
  }

  lemma BuiltIsCut(n: NodeId, x: Node, to: NodeId, next: nat, last: nat, batch: nat)
    requires 1 <= next <= last + 1 && last <= |x.log| && batch > 0
    ensures var q := BuiltRequest(n, x, to, next, last, batch);
            && CutFrom(x.log, q) && q.term == x.term && q.to == to && q.prev == next - 1 && q.commit == x.commit
            && |q.entries| == Min(batch, last + 1 - next)
  {
    var end := Min(next + batch - 1, last);
    if next <= end {
      assert next - 1 + (end - (next - 1)) == end;
    }
    if next > 1 {
      assert x.log[..next - 1][next - 2] == x.log[next - 2];
    }
  }

  /** The log of a follower after it handles a request of a term it has not passed. */
  lemma AppendedLog(x: Node, q: AppendReq)
    requires x.term <= q.term
    ensures Appended(x, q).term == q.term == AppendAnswer(x, q).term
    ensures Appended(x, q).log == if PrevMatches(x.log, q) then Merge(x.log, q.prev, q.entries) else x.log
    ensures PrevMatches(x.log, q) ==> Appended(x, q).commit >= Min(q.commit, |Appended(x, q).log|)
    ensures AppendAnswer(x, q).success <==> PrevMatches(x.log, q)
    ensures AppendAnswer(x, q).lastLog == |x.log| && AppendAnswer(x, q).req == q
  {
    hide Merge;
  }

  function Max(a: nat, b: nat): nat {
    if a >= b then a else b
  }

  /** The leader is as it was, except for what its ledger has for `id`, which is at least `k`. */
  ghost predicate ToldOnly(x: Node, y: Node, id: NodeId, k: nat) {
    && y == x.(ledger := y.ledger) && y.ledger.reports.Keys == x.ledger.reports.Keys
    && (id in x.ledger.reports ==> y.ledger.reports[id] >= k)
    && (forall v :: v in x.ledger.reports && v != id ==> y.ledger.reports[v] == x.ledger.reports[v])
  }

  lemma ToldNothing(x: Node, id: NodeId)
    ensures ToldOnly(x, x, id, 0)
  {
  }

  lemma ToldLess(x: Node, y: Node, id: NodeId, told: nat, k: nat)
    requires ToldOnly(x, y, id, told) && k <= told
    ensures ToldOnly(x, y, id, k)
  {
  }

  /** One more report. */
  lemma ToldMore(x: Node, y: Node, id: NodeId, told: nat, k: nat)
    requires ToldOnly(x, y, id, told)
    ensures ToldOnly(x, y.(ledger := Reported(y.ledger, id, k)), id, k)
  {
  }

  /**
   One pass of `replicateTo`: it is stopped by a later term, goes forward past
   what was sent if the follower agrees so far, and backward if it does not.
   */
  method SendOnce(leader: Raft, follower: Raft, next: nat, last: nat, batch: nat) returns (next': nat, stop: bool)
    requires leader != follower && batch > 0
    requires 1 <= next <= last + 1 && last <= |leader.log| && Matching(follower.log, leader.log)
    modifies follower, leader.commitment
    ensures leader.View() == old(leader.View()).(ledger := leader.View().ledger) && Matching(follower.log, leader.log)
    ensures stop <==> old(follower.term) > leader.term
    ensures stop ==> next' == next && follower.View() == old(follower.View()) && leader.View() == old(leader.View())
    ensures !stop ==> follower.term == leader.term
    ensures !stop && old(Agree(follower.log, leader.log, next - 1)) ==>
              && next' == next + Min(batch, last + 1 - next) && Agree(follower.log, leader.log, next' - 1)
              && follower.commit >= Min(leader.commit, |follower.log|) && |follower.log| >= next' - 1
              && leader.View() == if next <= last then old(leader.View()).(ledger := Reported(old(leader.View()).ledger, follower.id, next' - 1)) else old(leader.View())
    ensures !stop && !old(Agree(follower.log, leader.log, next - 1)) ==>
              1 <= next' < next && follower.log == old(follower.log) && leader.View() == old(leader.View())
  {
    hide Appended, AppendAnswer, BuiltRequest, Merge, CutFrom, Reported, Matching, ConfigOf;
    var q := leader.SetupAppendEntries(follower.id, next, last, batch);
    BuiltIsCut(leader.id, leader.View(), follower.id, next, last, batch);
    ghost var x := follower.View();
    PrevCheckIsExact(x.log, leader.log, q);
    AppendTermIsTold(x, q);
    var resp := follower.AppendEntries(q);
    assert follower.View().log == follower.log && follower.View().term == follower.term && follower.View().commit == follower.commit;
    if resp.term > q.term {
      return next, true;
    }
    AppendedLog(x, q);
    stop := false;
    if resp.success {
      MergedAgrees(x.log, leader.log, q);
      next' := leader.UpdateLastAppended(resp, next);
    } else {
      next' := Max(Min(next - 1, resp.lastLog + 1), 1);
    }
  }

  /**
   `replicateTo` when nothing fails: one request after the other until the
   follower has everything up to `last`. The index falls while requests are
   rejected, and from the first accepted request on it only rises. The leader's
   ledger hears of everything that was sent, and the follower of the leader's
   commit index. It stops at once if and only if the follower is in a later term.
   */
  method ReplicateTo(leader: Raft, follower: Raft, start: nat, last: nat, batch: nat) returns (next: nat, stop: bool)
    requires leader != follower && batch > 0
    requires 1 <= start <= last + 1 && last <= |leader.log|
    requires Matching(follower.log, leader.log)
    modifies follower, leader.commitment
    ensures stop <==> old(follower.term) > leader.term
    ensures stop ==> next == start && follower.View() == old(follower.View()) && leader.View() == old(leader.View())
    ensures !stop ==> next == last + 1 && Agree(follower.log, leader.log, last) && Matching(follower.log, leader.log)
    ensures !stop ==> follower.term == leader.term && follower.commit >= Min(leader.commit, last)
    ensures !stop ==> ToldOnly(old(leader.View()), leader.View(), follower.id, if start <= last then last else 0)
  {
    hide Reported, Matching, ToldOnly, ConfigOf, Agree;
    ToldNothing(leader.View(), follower.id);
    ghost var told: nat := 0;
    next, stop := SendOnce(leader, follower, start, last, batch);
    if stop { return; }
    ghost var x, y := old(leader.View()), leader.View();
    ghost var accepted := old(Agree(follower.log, leader.log, start - 1));
    if accepted && start <= last {
      ToldMore(x, x, follower.id, told, next - 1);
      told := next - 1;
    }
    while next <= last
      invariant 1 <= next <= last + 1 && last <= |leader.log| && (!accepted ==> next <= last) && !stop
      invariant leader.commitment == old(leader.commitment)
      invariant Matching(follower.log, leader.log) && follower.term == leader.term
      invariant ToldOnly(x, leader.View(), follower.id, told)
      invariant accepted ==> Agree(follower.log, leader.log, next - 1) && follower.commit >= Min(leader.commit, next - 1) && (start <= last ==> told == next - 1)
      decreases !accepted, if Agree(follower.log, leader.log, next - 1) then 0 else 1, if Agree(follower.log, leader.log, next - 1) then last + 1 - next else next
    {
      ghost var agreed := Agree(follower.log, leader.log, next - 1);
      ghost var before, index := leader.View(), next;
      next, stop := SendOnce(leader, follower, next, last, batch);
      if agreed {
        accepted := true;
        if index <= last {
          ToldMore(x, before, follower.id, told, next - 1);
          told := next - 1;
        }
      }
    }
    ToldLess(x, leader.View(), follower.id, told, if start <= last then last else 0);
  }
}
