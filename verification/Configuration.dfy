/** Cluster membership and its changes (configuration.go). */
module Configuration {
  import opened Wrappers
  import opened Quorums

  type ServerId = string
  type ServerAddress = string

  datatype Suffrage = Voter | Nonvoter | Staging

  datatype Server<Id> = Server(suffrage: Suffrage, id: Id, address: ServerAddress)

  type Configuration = seq<Server<ServerId>>

  datatype Command = AddVoter | AddNonvoter | DemoteVoter | RemoveServer | Promote

  datatype ChangeRequest = ChangeRequest(command: Command, id: ServerId, address: ServerAddress, prevIndex: nat)

  datatype Fault = EmptyId | EmptyAddress | DuplicateId | DuplicateAddress | NoVoter | StaleIndex

  datatype Outcome<+T> = Accepted(value: T) | Rejected(fault: Fault)

  // ---------------------------------------------------------------------
  // Searching and checking
  // ---------------------------------------------------------------------

  function Ids(c: Configuration): set<ServerId> {
    set s | s in c :: s.id
  }

  function Voters<Id>(c: seq<Server<Id>>): set<Id> {
    set s | s in c && s.suffrage == Voter :: s.id
  }

  ghost predicate DistinctIds(c: Configuration) {
    forall i, j :: 0 <= i < j < |c| ==> c[i].id != c[j].id
  }

  ghost predicate DistinctAddresses(c: Configuration) {
    forall i, j :: 0 <= i < j < |c| ==> c[i].address != c[j].address
  }

  /** What `checkConfiguration` demands. */
  ghost predicate WellFormed(c: Configuration) {
    && DistinctIds(c) && DistinctAddresses(c)
    && (forall s :: s in c ==> s.id != "" && s.address != "")
    && Voters(c) != {}
  }

  /** Where the server with this ID stands, or the length of the list. */
  function Find(c: Configuration, id: ServerId): (i: nat)
    ensures i <= |c| && (i < |c| ==> c[i].id == id)
    ensures forall j :: 0 <= j < i ==> c[j].id != id
  {
    if |c| == 0 || c[0].id == id then 0
    else
      var i := Find(c[1..], id);
      assert forall j :: 0 < j <= i ==> c[j] == c[1..][j - 1] || j == |c|;
      1 + i
  }

  method HasVote(c: Configuration, id: ServerId) returns (votes: bool)
    ensures votes <==> Find(c, id) < |c| && c[Find(c, id)].suffrage == Voter
    ensures DistinctIds(c) ==> (votes <==> id in Voters(c))
  {
    for i := 0 to |c|
      invariant forall j :: 0 <= j < i ==> c[j].id != id
    {
      if c[i].id == id {
        return c[i].suffrage == Voter;
      }
    }
    return false;
  }

  method InConfiguration(c: Configuration, id: ServerId) returns (found: bool)
    ensures found <==> id in Ids(c)
  {
    for i := 0 to |c|
      invariant forall j :: 0 <= j < i ==> c[j].id != id
    {
      if c[i].id == id { return true; }
    }
    return false;
  }

  /** The first complaint about server `i`, given the ones before it. */
  ghost function FaultAt(c: Configuration, i: nat): Option<Fault>
    requires i < |c|
  {
    if c[i].id == "" then Some(EmptyId)
    else if c[i].address == "" then Some(EmptyAddress)
    else if exists j :: 0 <= j < i && c[j].id == c[i].id then Some(DuplicateId)
    else if exists j :: 0 <= j < i && c[j].address == c[i].address then Some(DuplicateAddress)
    else None
  }

  /** No complaint about the first `n` servers. */
  ghost predicate CleanUpTo(c: Configuration, n: nat)
    requires n <= |c|
  {
    forall i: nat :: i < n ==> FaultAt(c, i) == None
  }

  /** The complaint is the first one in the order the program looks for them. */
  ghost predicate FirstFault(c: Configuration, fault: Fault) {
    || (exists i: nat :: i < |c| && CleanUpTo(c, i) && FaultAt(c, i) == Some(fault))
    || (CleanUpTo(c, |c|) && Voters(c) == {} && fault == NoVoter)
  }

  lemma CleanIsWellFormed(c: Configuration)
    ensures WellFormed(c) <==> CleanUpTo(c, |c|) && Voters(c) != {}
  {
    if CleanUpTo(c, |c|) && Voters(c) != {} {
      forall i, j | 0 <= i < j < |c| ensures c[i].id != c[j].id && c[i].address != c[j].address {
        assert FaultAt(c, j) == None;
      }
      forall s | s in c ensures s.id != "" && s.address != "" {
        var i :| 0 <= i < |c| && c[i] == s;
        assert FaultAt(c, i) == None;
      }
    }
  }

  lemma FaultIsFirst(c: Configuration, i: nat)
    requires i < |c| && CleanUpTo(c, i) && FaultAt(c, i).Some?
    ensures !WellFormed(c) && FirstFault(c, FaultAt(c, i).value)
  {
    CleanIsWellFormed(c);
  }

  /** `checkConfiguration` */
  method CheckConfiguration(c: Configuration) returns (fault: Option<Fault>)
    ensures fault == None <==> WellFormed(c)
    ensures fault.Some? ==> FirstFault(c, fault.value)
  {
    var ids: set<ServerId> := {};
    var addresses: set<ServerAddress> := {};
    var voters := 0;
    CleanIsWellFormed(c);
    hide WellFormed;
    for i := 0 to |c|
      invariant CleanUpTo(c, i)
      invariant forall x :: x in ids <==> exists j :: 0 <= j < i && c[j].id == x
      invariant forall x :: x in addresses <==> exists j :: 0 <= j < i && c[j].address == x
      invariant voters > 0 <==> exists j :: 0 <= j < i && c[j].suffrage == Voter
    {
      var server := c[i];
      if FaultAt(c, i).Some? { FaultIsFirst(c, i); }
      if server.id == "" { return Some(EmptyId); }
      if server.address == "" { return Some(EmptyAddress); }
      if server.id in ids { return Some(DuplicateId); }
      ids := ids + {server.id};
      if server.address in addresses { return Some(DuplicateAddress); }
      addresses := addresses + {server.address};
      if server.suffrage == Voter { voters := voters + 1; }
      assert FaultAt(c, i) == None;
    }
    if voters == 0 {
      return Some(NoVoter);
    }
    var j :| 0 <= j < |c| && c[j].suffrage == Voter;
    assert c[j].id in Voters(c);
    return None;
  }

  // ---------------------------------------------------------------------
  // Changes
  // ---------------------------------------------------------------------

  /** `Promote` stops at the first server with this ID that is staging. */
  function FindStaging(c: Configuration, id: ServerId): (i: nat)
    ensures i <= |c| && (i < |c| ==> c[i].id == id && c[i].suffrage == Staging)
    ensures forall j :: 0 <= j < i ==> !(c[j].id == id && c[j].suffrage == Staging)
  {
    if |c| == 0 || (c[0].id == id && c[0].suffrage == Staging) then 0
    else
      var i := FindStaging(c[1..], id);
      assert forall j :: 0 < j <= i && j < |c| ==> c[j] == c[1..][j - 1];
      1 + i
  }

  /** The server list a change asks for. */
  function Changed(c: Configuration, change: ChangeRequest): Configuration {
    var i := Find(c, change.id);
    match change.command
    case AddVoter =>
      if i == |c| then c + [Server(Voter, change.id, change.address)]
      else c[i := Server(Voter, change.id, change.address)]
    case AddNonvoter =>
      if i == |c| then c + [Server(Nonvoter, change.id, change.address)]
      else c[i := c[i].(address := change.address)]
    case DemoteVoter => if i == |c| then c else c[i := c[i].(suffrage := Nonvoter)]
    case RemoveServer => if i == |c| then c else c[..i] + c[i + 1..]
    case Promote =>
      var k := FindStaging(c, change.id);
      if k == |c| then c else c[k := c[k].(suffrage := Voter)]
  }

  /** The server a change is about; `Promote` cares only for a staging one. */
  predicate Hit(s: Server<ServerId>, change: ChangeRequest) {
    s.id == change.id && (change.command == Promote ==> s.suffrage == Staging)
  }

  /** `nextConfiguration` */
  method NextConfiguration(current: Configuration, currentIndex: nat, change: ChangeRequest) returns (r: Outcome<Configuration>)
    ensures r.Accepted? <==> (change.prevIndex == 0 || change.prevIndex == currentIndex) && WellFormed(Changed(current, change))
    ensures r.Accepted? ==> r.value == Changed(current, change)
    ensures r.Rejected? ==> (if change.prevIndex > 0 && change.prevIndex != currentIndex then r.fault == StaleIndex
                             else FirstFault(Changed(current, change), r.fault))
  {
    if change.prevIndex > 0 && change.prevIndex != currentIndex {
      return Rejected(StaleIndex);
    }
    var configuration := current;
    var found := false;
    var i := 0;
    while i < |current|
      invariant i <= |current| && !found && configuration == current
      invariant forall j :: 0 <= j < i ==> !Hit(current[j], change)
    {
      if Hit(current[i], change) {
        match change.command {
          case AddVoter =>
            if current[i].suffrage == Voter {
              configuration := configuration[i := configuration[i].(address := change.address)];
            } else {
              configuration := configuration[i := Server(Voter, change.id, change.address)];
            }
          case AddNonvoter =>
            if current[i].suffrage != Nonvoter {
              configuration := configuration[i := configuration[i].(address := change.address)];
            } else {
              configuration := configuration[i := Server(Nonvoter, change.id, change.address)];
            }
          case DemoteVoter => configuration := configuration[i := configuration[i].(suffrage := Nonvoter)];
          case RemoveServer => configuration := configuration[..i] + configuration[i + 1..];
          case Promote => configuration := configuration[i := configuration[i].(suffrage := Voter)];
        }
        found := true;
        break;
      }
      i := i + 1;
    }
    assert i == if change.command == Promote then FindStaging(current, change.id) else Find(current, change.id);
    if !found && change.command == AddVoter {
      configuration := configuration + [Server(Voter, change.id, change.address)];
    } else if !found && change.command == AddNonvoter {
      configuration := configuration + [Server(Nonvoter, change.id, change.address)];
    }
    var fault := CheckConfiguration(configuration);
    if fault.Some? {
      return Rejected(fault.value);
    }
    return Accepted(configuration);
  }

  // ---------------------------------------------------------------------
  // What a change does to the voters
  // ---------------------------------------------------------------------

  /** The servers other than `id`, in their order. */
  function Others(c: Configuration, id: ServerId): Configuration {
    if |c| == 0 then []
    else (if c[0].id == id then [] else [c[0]]) + Others(c[1..], id)
  }

  lemma {:induction false} OthersConcat(a: Configuration, b: Configuration, id: ServerId)
    ensures Others(a + b, id) == Others(a, id) + Others(b, id)
  {
    if |a| == 0 {
      assert a + b == b;
    } else {
      assert (a + b)[1..] == a[1..] + b;
      OthersConcat(a[1..], b, id);
    }
  }

  /** Replacing or removing the server at `i` leaves the others alone. */
  lemma OthersAround(c: Configuration, i: nat, mid: Configuration, id: ServerId)
    requires i < |c| && c[i].id == id && (mid == [] || (|mid| == 1 && mid[0].id == id))
    ensures Others(c[..i] + mid + c[i + 1..], id) == Others(c, id)
  {
    assert c == c[..i] + [c[i]] + c[i + 1..];
    OthersConcat(c[..i] + [c[i]], c[i + 1..], id);
    OthersConcat(c[..i], [c[i]], id);
    OthersConcat(c[..i] + mid, c[i + 1..], id);
    OthersConcat(c[..i], mid, id);
    assert Others([c[i]], id) == [] && Others(mid, id) == [];
  }

  /** A change touches no server but the one it names. */
  lemma ChangeIsLocal(c: Configuration, change: ChangeRequest)
    ensures Others(Changed(c, change), change.id) == Others(c, change.id)
  {
    var d, id := Changed(c, change), change.id;
    var i := if change.command == Promote then FindStaging(c, id) else Find(c, id);
    if i < |c| {
      var mid := if change.command == RemoveServer then [] else [d[i]];
      assert d == c[..i] + mid + c[i + 1..];
      OthersAround(c, i, mid, id);
    } else if change.command == AddVoter || change.command == AddNonvoter {
      OthersConcat(c, [d[|c|]], id);
      assert Others([d[|c|]], id) == [];
    }
  }

  /** The voters after a change. */
  function VotersAfter(c: Configuration, change: ChangeRequest): set<ServerId> {
    match change.command
    case AddVoter => Voters(c) + {change.id}
    case AddNonvoter => Voters(c)
    case DemoteVoter => Voters(c) - {change.id}
    case RemoveServer => Voters(c) - {change.id}
    case Promote => if FindStaging(c, change.id) < |c| then Voters(c) + {change.id} else Voters(c)
  }

  lemma ReplaceVoters(c: Configuration, i: nat, s: Server<ServerId>)
    requires DistinctIds(c) && i < |c| && s.id == c[i].id
    ensures DistinctIds(c[i := s])
    ensures Voters(c[i := s]) == if s.suffrage == Voter then Voters(c) + {s.id} else Voters(c) - {s.id}
  {
    var d := c[i := s];
    forall x | x in Voters(d) ensures x in (if s.suffrage == Voter then Voters(c) + {s.id} else Voters(c) - {s.id}) {
      var j :| 0 <= j < |d| && d[j].id == x && d[j].suffrage == Voter;
      assert j != i ==> c[j] in c;
    }
    forall x | x in (if s.suffrage == Voter then Voters(c) + {s.id} else Voters(c) - {s.id}) ensures x in Voters(d) {
      if x == s.id {
        assert d[i] in d;
      } else {
        var j :| 0 <= j < |c| && c[j].id == x && c[j].suffrage == Voter;
        assert d[j] in d;
      }
    }
  }

  /** Removing the server at `i` leaves exactly the others. */
  lemma RemovedServers(c: Configuration, i: nat)
    requires DistinctIds(c) && i < |c|
    ensures DistinctIds(c[..i] + c[i + 1..])
    ensures forall s :: s in c[..i] + c[i + 1..] <==> s in c && s.id != c[i].id
  {
    var d := c[..i] + c[i + 1..];
    assert forall j :: 0 <= j < |d| ==> d[j] == c[if j < i then j else j + 1];
    forall s | s in c && s.id != c[i].id ensures s in d {
      var j :| 0 <= j < |c| && c[j] == s;
      assert s == d[if j < i then j else j - 1];
    }
  }

  lemma RemoveVoters(c: Configuration, i: nat)
    requires DistinctIds(c) && i < |c|
    ensures DistinctIds(c[..i] + c[i + 1..]) && Voters(c[..i] + c[i + 1..]) == Voters(c) - {c[i].id}
  {
    RemovedServers(c, i);
    hide DistinctIds;
  }

  lemma AppendVoters(c: Configuration, s: Server<ServerId>)
    requires DistinctIds(c) && s.id !in Ids(c)
    ensures DistinctIds(c + [s]) && Voters(c + [s]) == if s.suffrage == Voter then Voters(c) + {s.id} else Voters(c)
  {
    var d := c + [s];
    assert forall x :: x in d <==> x in c || x == s;
    forall i, j | 0 <= i < j < |d| ensures d[i].id != d[j].id {
      if j == |c| { assert c[i] in c; }
    }
  }

  /** Exactly how each command changes the set of voters. */
  lemma ChangeOfVoters(c: Configuration, change: ChangeRequest)
    requires DistinctIds(c)
    ensures DistinctIds(Changed(c, change)) && Voters(Changed(c, change)) == VotersAfter(c, change)
  {
    var d, id := Changed(c, change), change.id;
    var i := if change.command == Promote then FindStaging(c, id) else Find(c, id);
    if i < |c| {
      assert c[i] in c;
      if change.command == RemoveServer {
        RemoveVoters(c, i);
      } else {
        ReplaceVoters(c, i, d[i]);
        OnlyOne(c, i);
      }
    } else if change.command == AddVoter || change.command == AddNonvoter {
      AppendVoters(c, d[|c|]);
    } else if change.command != Promote {
      assert id !in Voters(c);
    }
  }

  /** The one entry of a server. */
  ghost predicate Has(c: Configuration, id: ServerId, suffrage: Suffrage, address: ServerAddress) {
    id in Ids(c) && forall s :: s in c && s.id == id ==> s.suffrage == suffrage && s.address == address
  }

  /** Its entry after replacing that. */
  lemma ReplacedEntry(c: Configuration, i: nat, s: Server<ServerId>)
    requires DistinctIds(c) && i < |c| && s.id == c[i].id
    ensures Has(c[i := s], s.id, s.suffrage, s.address) && Ids(c[i := s]) == Ids(c)
  {
    var d := c[i := s];
    assert d[i] in d && c[i] in c;
    forall x | x in d && x.id == s.id ensures x == s {
      var j :| 0 <= j < |d| && d[j] == x;
    }
    forall x | x in Ids(c) ensures x in Ids(d) {
      var j :| 0 <= j < |c| && c[j].id == x;
      assert d[j] in d;
    }
    forall x | x in Ids(d) ensures x in Ids(c) {
      var j :| 0 <= j < |d| && d[j].id == x;
      assert c[j] in c;
    }
  }

  lemma AppendedEntry(c: Configuration, s: Server<ServerId>)
    requires s.id !in Ids(c)
    ensures Has(c + [s], s.id, s.suffrage, s.address) && Ids(c + [s]) == Ids(c) + {s.id}
  {
    var d := c + [s];
    assert forall x :: x in d <==> x in c || x == s;
    assert d[|c|] in d;
  }

  lemma RemovedEntry(c: Configuration, i: nat)
    requires DistinctIds(c) && i < |c|
    ensures Ids(c[..i] + c[i + 1..]) == Ids(c) - {c[i].id}
  {
    RemovedServers(c, i);
    hide DistinctIds;
  }

  /**
   What becomes of the server a command names, and of the set of members. A
   server that is added gets the address of the request; one that is added as a
   nonvoter keeps the suffrage it had; demotion and promotion keep the address,
   and promotion is for staging servers only.
   */
  lemma ChangeOfEntry(c: Configuration, change: ChangeRequest)
    requires DistinctIds(c)
    ensures var d, id := Changed(c, change), change.id;
            match change.command
            case AddVoter => Has(d, id, Voter, change.address) && Ids(d) == Ids(c) + {id}
            case AddNonvoter =>
              && Ids(d) == Ids(c) + {id}
              && (id !in Ids(c) ==> Has(d, id, Nonvoter, change.address))
              && (forall s :: s in c && s.id == id ==> Has(d, id, s.suffrage, change.address))
            case DemoteVoter => Ids(d) == Ids(c) && forall s :: s in c && s.id == id ==> Has(d, id, Nonvoter, s.address)
            case RemoveServer => Ids(d) == Ids(c) - {id}
            case Promote =>
              && Ids(d) == Ids(c)
              && forall s :: s in c && s.id == id ==> Has(d, id, if s.suffrage == Staging then Voter else s.suffrage, s.address)
  {
    hide Has;
    var d, id := Changed(c, change), change.id;
    var i := Find(c, id);
    if i == |c| {
      assert id !in Ids(c);
      if change.command == AddVoter || change.command == AddNonvoter {
        AppendedEntry(c, d[|c|]);
      }
    } else {
      assert c[i] in c;
      assert forall s :: s in c && s.id == id ==> s == c[i];
      if change.command == RemoveServer {
        RemovedEntry(c, i);
      } else {
        assert change.command == Promote && c[i].suffrage == Staging ==> FindStaging(c, id) == i;
        assert d == c[i := d[i]];
        ReplacedEntry(c, i, d[i]);
      }
    }
  }

  /** A server votes if and only if its one entry does. */
  lemma OnlyOne(c: Configuration, i: nat)
    requires DistinctIds(c) && i < |c|
    ensures c[i].id in Voters(c) <==> c[i].suffrage == Voter
  {
    if c[i].suffrage == Voter { assert c[i] in c; }
  }

  /** Majorities of two voter sets that differ in at most one server meet. */
  lemma NeighbouringQuorumsMeet<T>(old_: set<T>, new_: set<T>, x: T, a: set<T>, b: set<T>) returns (shared: T)
    requires old_ - {x} == new_ - {x} && IsQuorum(a, old_) && IsQuorum(b, new_)
    ensures shared in a && shared in b
  {
    var rest := old_ - {x};
    assert old_ == rest || old_ == rest + {x};
    assert new_ == rest || new_ == rest + {x};
    SubsetSize(a + b, old_ + new_);
    assert |a + b| + |a * b| == |a| + |b|;
    assert old_ + new_ == old_ || old_ + new_ == new_;
    shared :| shared in a * b;
  }

  /**
   A successful membership change gives a well-formed configuration, changes
   at most the voter it names, and every majority of the old voters meets
   every majority of the new ones.
   */
  lemma MembershipChangeIsSafe(c: Configuration, change: ChangeRequest, a: set<ServerId>, b: set<ServerId>) returns (shared: ServerId)
    requires DistinctIds(c) && IsQuorum(a, Voters(c)) && IsQuorum(b, Voters(Changed(c, change)))
    ensures Voters(c) - {change.id} == Voters(Changed(c, change)) - {change.id}
    ensures Others(Changed(c, change), change.id) == Others(c, change.id)
    ensures shared in a && shared in b
  {
    ChangeOfVoters(c, change);
    ChangeIsLocal(c, change);
    shared := NeighbouringQuorumsMeet(Voters(c), Voters(Changed(c, change)), change.id, a, b);
  }
}
