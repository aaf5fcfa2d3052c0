/**
 Pre-vote (section 9.6 of Ongaro's dissertation): with it on and no leadership
 transfer, a server raises its term on its own only after a majority of the
 voters would let it.
 */
module PreVote {
  import opened Wrappers
  import opened Quorums
  import opened Cluster

  /** An answer on the pre-vote channel; a voter that does not know pre-vote counts as granting it. */
  datatype PreVoteResult = PreVoteResult(voter: NodeId, term: nat, granted: bool, unsupported: bool)

  // ---------------------------------------------------------------------
  // Answering
  // ---------------------------------------------------------------------

  /** The three early returns of `requestPreVote`. */
  predicate PreIgnored(c: Config, x: Node, q: VoteReq) {
    || (|x.log| > 0 && q.cand !in c.servers)
    || (x.leader.Some? && x.leader.value != q.cand)
    || q.term < x.term
  }

  predicate PreGranted(c: Config, x: Node, q: VoteReq) {
    !PreIgnored(c, x, q) && (|x.log| > 0 ==> q.cand in c.voters) && UpToDate(q.lastIndex, q.lastTerm, x.log)
  }

  /**
   What a pre-vote is worth: it is granted if and only if the real request of
   the same candidate would be granted by this server, had it not voted in that
   term before.
   */
  lemma PreVotePredictsVote(c: Config, n: NodeId, x: Node, q: VoteReq)
    requires !q.transfer
    ensures PreGranted(c, x, q) <==> VoteAnswer(c, n, x.(voteCand := None), q).granted
    ensures PreGranted(c, x, q) && !VoteAnswer(c, n, x, q).granted ==> x.voteTerm == q.term && x.voteCand.Some? && x.voteCand.value != q.cand
  {
    var y := x.(voteCand := None);
    assert VoteAnswer(c, n, y, q).granted <==> Judge(c, y, q) == Fresh;
  }

  // ---------------------------------------------------------------------
  // Campaigning
  // ---------------------------------------------------------------------

  /** What reaches a server that waits for pre-votes. */
  datatype Event =
    | Answer(result: PreVoteResult)
    | Request(t: nat, fromLeader: bool)
    | Timeout

  /** How a round ends. */
  datatype RoundEnd = Elects | FollowsTerm(t: nat) | TimesOut | Waits

  ghost predicate AnswersDistinct(events: seq<Event>) {
    forall i, j :: 0 <= i < j < |events| && events[i].Answer? && events[j].Answer? ==> events[i].result.voter != events[j].result.voter
  }

  /** The channel of `preElectSelf`: each voter is asked once, and only voters. */
  ghost predicate Channel(voters: set<NodeId>, events: seq<Event>) {
    AnswersDistinct(events) && forall e :: e in events && e.Answer? ==> e.result.voter in voters
  }

  ghost function Supporters(events: seq<Event>): set<NodeId> {
    set e | e in events && e.Answer? && (e.result.granted || e.result.unsupported) :: e.result.voter
  }

  /** Somebody named term `t` to the server during the round. */
  ghost predicate Told(events: seq<Event>, t: nat) {
    exists e :: e in events && ((e.Answer? && e.result.term == t) || (e.Request? && e.t == t))
  }

  /** Nothing but answers, none of them from a later term than the one asked for. */
  ghost predicate Quiet(events: seq<Event>, term: nat) {
    forall e :: e in events ==> e.Answer? && e.result.term <= term + 1
  }

  /** The event makes the server a follower: a later term, or an append request of its own. */
  predicate Ends(e: Event, term: nat) {
    (e.Answer? && e.result.term > term + 1) || (e.Request? && (e.t > term || (e.fromLeader && e.t == term)))
  }

  /** Nothing so far has made it a follower, timed out or brought a majority. */
  ghost predicate Undecided(voters: set<NodeId>, term: nat, events: seq<Event>) {
    (forall e :: e in events ==> !Ends(e, term) && e != Timeout) && !IsQuorum(Supporters(events), voters)
  }

  lemma SupportersGrow(events: seq<Event>, i: nat)
    requires i < |events| && AnswersDistinct(events)
    ensures |Supporters(events[..i + 1])| == |Supporters(events[..i])|
              + if events[i].Answer? && (events[i].result.granted || events[i].result.unsupported) then 1 else 0
  {
    var e := events[i];
    var before, after := Supporters(events[..i]), Supporters(events[..i + 1]);
    assert events[..i + 1] == events[..i] + [e];
    if e.Answer? && (e.result.granted || e.result.unsupported) {
      assert after == before + {e.result.voter};
      assert e.result.voter !in before;
    } else {
      assert after == before;
    }
  }

  lemma SupportersAmong(voters: set<NodeId>, events: seq<Event>, i: nat)
    requires Channel(voters, events) && i <= |events|
    ensures Supporters(events[..i]) <= Supporters(events) <= voters
  {
  }

  /**
   The loop of `runCandidate` while the pre-vote runs. It goes on to a real
   election with the support of a majority of distinct voters, and waits or
   times out only without it. The first event that decides the round ends it.
   */
  method AwaitPreVotes(voters: set<NodeId>, term: nat, events: seq<Event>) returns (end: RoundEnd, used: nat)
    requires Channel(voters, events)
    ensures used <= |events|
    ensures end == Elects ==> IsQuorum(Supporters(events[..used]), voters)
    ensures end.FollowsTerm? ==> end.t >= term && Told(events[..used], end.t) && !Quiet(events[..used], term)
    ensures end == Waits ==> used == |events| && Undecided(voters, term, events)
    ensures end == TimesOut ==> used > 0 && events[used - 1] == Timeout && !IsQuorum(Supporters(events[..used]), voters)
    ensures end != Waits ==> used > 0 && Undecided(voters, term, events[..used - 1])
    ensures used > 0 && Ends(events[used - 1], term) ==> end.FollowsTerm?
    ensures end.FollowsTerm? ==> var e := events[used - 1]; Ends(e, term) && end.t == if e.Answer? then e.result.term else e.t
  {
    var preVoteGrantedVotes, preVoteRefusedVotes := 0, 0;
    var votesNeeded := QuorumSize(|voters|);
    used := 0;
    while used < |events|
      invariant used <= |events|
      invariant preVoteGrantedVotes == |Supporters(events[..used])| < votesNeeded
      invariant Undecided(voters, term, events[..used])
    {
      SupportersGrow(events, used);
      var event := events[used];
      used := used + 1;
      assert events[..used] == events[..used - 1] + [event];
      assert event in events[..used];
      match event {
        case Answer(preVote) =>
          if preVote.term > term + 1 {
            return FollowsTerm(preVote.term), used;
          }
          if preVote.granted || preVote.unsupported {
            preVoteGrantedVotes := preVoteGrantedVotes + 1;
          } else {
            preVoteRefusedVotes := preVoteRefusedVotes + 1;
          }
          if preVoteGrantedVotes >= votesNeeded {
            SupportersAmong(voters, events, used);
            return Elects, used;
          }
        case Request(t, fromLeader) =>
          if t > term || (fromLeader && t == term) {
            return FollowsTerm(t), used;
          }
        case Timeout =>
          return TimesOut, used;
      }
    }
    assert events[..used] == events;
    return Waits, used;
  }

  /** What one round may do to the term of a server that entered it at `before`. */
  ghost predicate Isolated(voters: set<NodeId>, events: seq<Event>, before: nat, after: nat, elected: bool) {
    && (elected ==> IsQuorum(Supporters(events), voters) && after == before + 1)
    && (!elected ==> after == before || (after > before && Told(events, after)))
    && (Quiet(events, before) && IsQuorum(Supporters(events), voters) ==> elected)
  }

  /**
   Pre-vote isolation: a server goes through any number of rounds. In each of
   them it starts a real election only with the support of a majority, and then
   its term rises by exactly one; without an election its term stays or rises to
   one it was told in that round; and a round that nothing disturbs at its own
   term, with that support, does start one.
   */
  method Campaign(voters: set<NodeId>, term: nat, rounds: seq<seq<Event>>) returns (terms: seq<nat>, elected: seq<bool>)
    requires forall i :: 0 <= i < |rounds| ==> Channel(voters, rounds[i])
    ensures |terms| == |rounds| + 1 && |elected| == |rounds| && terms[0] == term
    ensures forall i :: 0 <= i < |rounds| ==> Isolated(voters, rounds[i], terms[i], terms[i + 1], elected[i])
  {
    terms, elected := [term], [];
    for n := 0 to |rounds|
      invariant |terms| == n + 1 && |elected| == n && terms[0] == term
      invariant forall i :: 0 <= i < n ==> Isolated(voters, rounds[i], terms[i], terms[i + 1], elected[i])
    {
      var current := terms[n];
      var end, used := AwaitPreVotes(voters, current, rounds[n]);
      SupportersAmong(voters, rounds[n], used);
      SubsetSize(Supporters(rounds[n][..used]), Supporters(rounds[n]));
      match end {
        case Elects =>
          terms, elected := terms + [current + 1], elected + [true];
        case FollowsTerm(t) =>
          ToldBefore(rounds[n], used, t);
          terms, elected := terms + [t], elected + [false];
        case _ =>
          terms, elected := terms + [current], elected + [false];
      }
    }
  }

  lemma ToldBefore(events: seq<Event>, i: nat, t: nat)
    requires i <= |events| && Told(events[..i], t)
    ensures Told(events, t)
  {
    var e :| e in events[..i] && ((e.Answer? && e.result.term == t) || (e.Request? && e.t == t));
    assert e in events;
  }
}
