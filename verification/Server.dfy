/**
 One server as the program has it: an object whose handlers change its fields
 in place. Each handler is proved to do to the server exactly what the step
 system of module Cluster says, so the cluster theorems speak about it. The
 leader's ledger is an object of its own.
 */
module Server {
  import opened Wrappers
  import opened Quorums
  import opened Commitment
  import opened Cluster
  import opened PreVote
  import Configuration

  type Peers = seq<Configuration.Server<NodeId>>

  /** The servers and the voters of a configuration. */
  function ConfigOf(peers: Peers): Config {
    Config(set s | s in peers :: s.id, Configuration.Voters(peers))
  }

  class Raft {
    const id: NodeId
    const peers: Peers
    const config: Config := ConfigOf(peers)
    var term: nat
    var voteTerm: nat
    var voteCand: Option<NodeId>
    var log: seq<Entry>
    var role: Role
    var transfer: bool
    var leader: Option<NodeId>
    var voting: bool
    var asked: set<NodeId>
    var granted: nat
    var commit: nat
    var applied: seq<Entry>
    var commitment: Commitment<NodeId>

    ghost function View(): Node
      reads this, commitment
    {
      Node(term, voteTerm, voteCand, log, role, transfer, leader, voting, asked, granted, commit, applied, commitment.View())
    }

    /** `NewRaft`: a start from the stored term, vote and log, which are all empty at the very first. */
    constructor (id: NodeId, peers: Peers, term: nat, voteTerm: nat, voteCand: Option<NodeId>, log: seq<Entry>)
      ensures this.id == id && this.peers == peers && fresh(commitment)
      ensures View() == Restarted(View()) && View() == BlankNode().(term := term, voteTerm := voteTerm, voteCand := voteCand, log := log)
    {
      this.id, this.peers := id, peers;
      this.term, this.voteTerm, this.voteCand, this.log := term, voteTerm, voteCand, log;
      role, transfer, leader, voting, asked, granted := Follower, false, None, false, {}, 0;
      commit, applied := 0, [];
      commitment := new Commitment<NodeId>([], 0);
    }

    /** `setState(Follower)` and `setCurrentTerm` */
    method StepTo(t: nat)
      modifies this
      ensures View() == SteppedTo(old(View()), t)
    {
      role, leader, voting, transfer := Follower, None, false, false;
      term := t;
    }

    /** `requestVote` */
    method RequestVote(q: VoteReq) returns (resp: VoteResp)
      modifies this
      ensures View() == Voted(config, old(View()), q)
      ensures resp == VoteAnswer(config, id, old(View()), q)
    {
      hide ConfigOf;
      resp := VoteResp(q.term, id, q.cand, term, false);
      if |log| > 0 && q.cand !in config.servers { return; }
      if leader.Some? && leader.value != q.cand && !q.transfer { return; }
      if q.term < term { return; }
      if q.term > term {
        StepTo(q.term);
        resp := resp.(term := q.term);
      }
      if |log| > 0 && q.cand !in config.voters { return; }
      if voteTerm == q.term && voteCand.Some? {
        resp := resp.(granted := voteCand.value == q.cand);
        return;
      }
      var lastTerm := LastTerm(log);
      if lastTerm > q.lastTerm { return; }
      if lastTerm == q.lastTerm && |log| > q.lastIndex { return; }
      PersistVote(q.term, q.cand);
      resp := resp.(granted := true);
    }

    /** `requestPreVote`: it answers and changes nothing. */
    method RequestPreVote(q: VoteReq) returns (resp: PreVoteResult)
      ensures resp.voter == id && !resp.unsupported
      ensures resp.granted <==> PreGranted(config, View(), q)
      ensures resp.term == if PreIgnored(config, View(), q) then term else q.term
    {
      resp := PreVoteResult(id, term, false, false);
      if |log| > 0 && q.cand !in config.servers { return; }
      if leader.Some? && leader.value != q.cand { return; }
      if q.term < term { return; }
      if q.term > term { resp := resp.(term := q.term); }
      if |log| > 0 && q.cand !in config.voters { return; }
      var lastTerm := LastTerm(log);
      if lastTerm > q.lastTerm { return; }
      if lastTerm == q.lastTerm && |log| > q.lastIndex { return; }
      resp := resp.(granted := true);
    }

    /** The two writes of `persistVote`. */
    method PersistVote(t: nat, cand: NodeId)
      modifies this
      ensures View() == old(View()).(voteTerm := t, voteCand := Some(cand))
    {
      voteTerm := t;
      voteCand := Some(cand);
    }

    /** The loop of `appendEntries` that skips what the log already has. */
    method SkipDuplicates(prev: nat, entries: seq<Entry>) returns (i: nat)
      requires prev <= |log|
      ensures i == Present(log, prev, entries)
    {
      hide Present, View;
      i := 0;
      while i < |entries| && prev + i < |log| && entries[i].term == log[prev + i].term
        invariant i <= |entries| && prev + i <= |log|
        invariant forall j :: 0 <= j < i ==> log[prev + j].term == entries[j].term
      {
        i := i + 1;
      }
    }

    /** A conflicting suffix is deleted, then the rest is stored. */
    method StoreNew(prev: nat, entries: seq<Entry>)
      requires prev <= |log|
      modifies this
      ensures View() == old(View()).(log := Merge(old(log), prev, entries))
    {
      var i := SkipDuplicates(prev, entries);
      assert entries[i..i + (|entries| - i)] == entries[i..];
      if i < |entries| {
        if prev + i < |log| {
          log := log[..prev + i];
        }
        log := log + entries[i..];
      }
    }

    /** `appendEntries` */
    method AppendEntries(q: AppendReq) returns (resp: AppendResp)
      modifies this
      ensures View() == Appended(old(View()), q)
      ensures resp == AppendAnswer(old(View()), q)
    {
      hide Merge, NewLedger, ConfigOf;
      resp := AppendResp(q, term, false, |log|);
      if q.term < term { return; }
      if q.term > term || (role != Follower && !transfer) {
        StepTo(q.term);
        resp := resp.(term := q.term);
      }
      leader := Some(q.leader);
      if q.prev > 0 {
        if q.prev > |log| { return; }
        if log[q.prev - 1].term != q.prevTerm { return; }
      }
      StoreNew(q.prev, q.entries);
      if q.commit > commit {
        var idx := Min(q.commit, |log|);
        commit := idx;
        ProcessLogs(idx);
      }
      resp := resp.(success := true);
    }

    /** `processLogs`, one entry after the other; module Apply models its batches. */
    method ProcessLogs(index: nat)
      requires index <= |log|
      modifies this
      ensures View() == HandedOver(old(View()), index)
    {
      if index <= |applied| { return; }
      ghost var start := |applied|;
      var i := |applied|;
      while i < index
        invariant View() == old(View()).(applied := applied)
        invariant start <= i <= index <= |log|
        invariant applied == old(applied) + log[start..i]
      {
        applied := applied + [log[i]];
        i := i + 1;
      }
    }

    /** `electSelf` */
    method ElectSelf() returns (req: Option<VoteReq>, own: Option<VoteResp>)
      requires role == Candidate && !voting
      modifies this
      ensures View() == if |old(log)| > 0 && id in config.voters
                        then Campaigning(config, old(View())).(voteTerm := old(term) + 1, voteCand := Some(id))
                        else Campaigning(config, old(View()))
      ensures req == if |old(log)| > 0 then Some(OwnRequest(id, old(View()))) else None
      ensures own == if |old(log)| > 0 && id in config.voters then Some(VoteResp(old(term) + 1, id, id, old(term) + 1, true)) else None
    {
      req, own := None, None;
      term := term + 1;
      voting, granted, asked := true, 0, {};
      if |log| > 0 {
        req := Some(VoteReq(term, id, |log|, LastTerm(log), transfer));
        asked := config.voters;
        if id in config.voters {
          PersistVote(term, id);
          own := Some(VoteResp(term, id, id, term, true));
        }
      }
    }

    /** The vote case of `runCandidate`. */
    method CountVote(r: VoteResp)
      requires role == Candidate
      modifies this
      ensures View() == Tallied(config, id, old(View()), r)
    {
      if r.term > term {
        StepTo(r.term);
        return;
      }
      asked := asked - {r.voter};
      if r.granted { granted := granted + 1; }
      if granted >= QuorumSize(|config.voters|) {
        BecomeLeader();
      }
    }

    /** `setState(Leader)`, `setLeader` and `setupLeaderState` */
    method BecomeLeader()
      modifies this
      ensures View() == Crowned(config, id, old(View()))
    {
      hide NewLedger, ConfigOf;
      SetLeading();
      SetupLeaderState();
    }

    /** `setState(Leader)` and `setLeader` */
    method SetLeading()
      modifies this
      ensures View() == old(View()).(role := Leader, leader := Some(id), voting := false, transfer := false, asked := {}, granted := 0)
    {
      role, leader := Leader, Some(id);
      voting, transfer, asked, granted := false, false, {}, 0;
    }

    /** `setupLeaderState` */
    method SetupLeaderState()
      modifies `commitment
      ensures View() == old(View()).(ledger := NewLedger(config.voters, |log| + 1))
    {
      hide Configuration.Voters;
      commitment := new Commitment<NodeId>(peers, |log| + 1);
    }

    /** `dispatchLogs` */
    method DispatchLogs(cmds: seq<int>)
      modifies this, commitment
      ensures View() == Dispatched(id, old(View()), cmds)
    {
      var logs: seq<Entry> := [];
      for i := 0 to |cmds|
        invariant View() == old(View())
        invariant |logs| == i && forall j :: 0 <= j < i ==> logs[j] == Entry(term, cmds[j])
      {
        logs := logs + [Entry(term, cmds[i])];
      }
      ghost var t := term;
      assert logs == seq(|cmds|, i requires 0 <= i < |cmds| => Entry(t, cmds[i]));
      log := log + logs;
      commitment.Match(id, |log|);
    }

    /**
     `updateLastAppended` for an answer that accepts: the leader's ledger is told
     where the request ended, and the next index of the follower is after it.
     */
    method UpdateLastAppended(a: AppendResp, nextIndex: nat) returns (next: nat)
      modifies commitment
      ensures View() == if |a.req.entries| > 0 then old(View()).(ledger := Reported(old(View()).ledger, a.req.to, a.req.End())) else old(View())
      ensures next == if |a.req.entries| > 0 then a.req.End() + 1 else nextIndex
    {
      next := nextIndex;
      if |a.req.entries| > 0 {
        next := a.req.prev + |a.req.entries| + 1;
        commitment.Match(a.req.to, a.req.prev + |a.req.entries|);
      }
    }

    /** The commit case of `leaderLoop`. */
    method CommitCase(lastIdxInGroup: nat)
      requires role == Leader && lastIdxInGroup <= commitment.commitIndex && lastIdxInGroup <= |log|
      modifies this
      ensures View() == HandedOver(old(View()).(commit := old(View()).ledger.index), lastIdxInGroup)
    {
      commit := commitment.commitIndex;
      if lastIdxInGroup > 0 {
        ProcessLogs(lastIdxInGroup);
      }
    }

    /** `setupAppendEntries`: the previous entry and up to `batch` new ones. */
    method SetupAppendEntries(to: NodeId, next: nat, last: nat, batch: nat) returns (q: AppendReq)
      requires 1 <= next <= |log| + 1 && last <= |log|
      ensures q == BuiltRequest(id, View(), to, next, last, batch)
    {
      var prevTerm := 0;
      if next > 1 { prevTerm := log[next - 2].term; }
      var entries: seq<Entry> := [];
      var maxIndex := Min(next + batch - 1, last);
      var i := next;
      while i <= maxIndex
        invariant next <= i <= |log| + 1 && (i > next ==> i <= maxIndex + 1)
        invariant entries == log[next - 1..i - 1]
      {
        entries := entries + [log[i - 1]];
        i := i + 1;
      }
      assert next > 1 ==> log[..next - 1][next - 2] == log[next - 2];
      q := AppendReq(term, id, to, next - 1, prevTerm, entries, commit);
    }
  }
}
