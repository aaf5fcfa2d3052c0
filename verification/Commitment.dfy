/** The leader's record of which voter stores what (commitment.go). */
module Commitment {
  import opened Quorums
  import opened Configuration

  /** A leader's match indexes, the first index of its term, and the commit index it has reached. */
  datatype Ledger<T> = Ledger(reports: map<T, nat>, start: nat, index: nat)

  /** `recalculate`: move up to the majority index unless it is old or below the leader's own term. */
  ghost function Recalculated<T>(l: Ledger<T>): Ledger<T> {
    if |l.reports| == 0 then l
    else
      var q := QuorumMatch(l.reports);
      if q > l.index && q >= l.start then l.(index := q) else l
  }

  /** `match`: a voter reports that it stores everything up to `k`. */
  ghost function Reported<T>(l: Ledger<T>, id: T, k: nat): Ledger<T> {
    if id in l.reports && k > l.reports[id]
    then Recalculated(l.(reports := l.reports[id := k]))
    else l
  }

  /** `setConfiguration`: reports of voters that stay are kept, new voters start at 0. */
  ghost function Reconfigured<T>(l: Ledger<T>, voters: set<T>): Ledger<T> {
    Recalculated(l.(reports := map v | v in voters :: if v in l.reports then l.reports[v] else 0))
  }

  // ---------------------------------------------------------------------
  // The middle of a sorted slice is the majority index
  // ---------------------------------------------------------------------

  function CountAtLeast(s: seq<nat>, i: nat): (n: nat)
    ensures n <= |s|
  {
    if |s| == 0 then 0 else (if s[0] >= i then 1 else 0) + CountAtLeast(s[1..], i)
  }

  ghost predicate Sorted(s: seq<nat>) {
    forall i, j :: 0 <= i < j < |s| ==> s[i] <= s[j]
  }

  lemma {:induction false} CountConcat(a: seq<nat>, b: seq<nat>, i: nat)
    ensures CountAtLeast(a + b, i) == CountAtLeast(a, i) + CountAtLeast(b, i)
  {
    if |a| == 0 {
      assert a + b == b;
    } else {
      assert (a + b)[1..] == a[1..] + b;
      CountConcat(a[1..], b, i);
    }
  }

  /** In a sequence split at `k` by the threshold, the count is what lies behind the split. */
  lemma {:induction false} CountSplit(s: seq<nat>, k: nat, i: nat)
    requires k <= |s|
    ensures (forall j :: k <= j < |s| ==> s[j] >= i) ==> CountAtLeast(s, i) >= |s| - k
    ensures (forall j :: 0 <= j < k ==> s[j] < i) ==> CountAtLeast(s, i) <= |s| - k
    decreases |s|
  {
    if |s| > 0 {
      CountSplit(s[1..], if k > 0 then k - 1 else 0, i);
    }
  }

  function HoldersIn<T(==)>(m: map<T, nat>, order: seq<T>, i: nat): set<T> {
    set v | v in m && v in order && m[v] >= i
  }

  /** The values of a map listed in some order of its keys count as many as there are holders. */
  lemma {:induction false} CountIsHolders<T>(m: map<T, nat>, order: seq<T>, values: seq<nat>, i: nat)
    requires |order| == |values| && (forall j, k :: 0 <= j < k < |order| ==> order[j] != order[k])
    requires forall j :: 0 <= j < |order| ==> order[j] in m && values[j] == m[order[j]]
    ensures CountAtLeast(values, i) == |HoldersIn(m, order, i)|
    decreases |order|
  {
    if |order| == 0 {
      assert HoldersIn(m, order, i) == {};
    } else {
      var rest, x := order[1..], order[0];
      CountIsHolders(m, rest, values[1..], i);
      assert x !in rest;
      assert order == [x] + rest;
      if values[0] >= i {
        assert HoldersIn(m, order, i) == HoldersIn(m, rest, i) + {x};
      } else {
        assert HoldersIn(m, order, i) == HoldersIn(m, rest, i);
      }
    }
  }

  lemma MiddleIsQuorumMatch<T>(m: map<T, nat>, order: seq<T>, values: seq<nat>, sorted: seq<nat>)
    requires |order| == |values| == |m| > 0 && (forall j, k :: 0 <= j < k < |order| ==> order[j] != order[k])
    requires (forall j :: 0 <= j < |order| ==> order[j] in m && values[j] == m[order[j]]) && (forall v :: v in m ==> v in order)
    requires Sorted(sorted) && |sorted| == |values| && forall i: nat :: CountAtLeast(sorted, i) == CountAtLeast(values, i)
    ensures IsQuorumMatch(m, sorted[(|sorted| - 1) / 2])
  {
    hide CountAtLeast;
    var mid := (|sorted| - 1) / 2;
    var q := sorted[mid];
    forall i: nat ensures |Holders(m, i)| == CountAtLeast(sorted, i) {
      CountIsHolders(m, order, values, i);
      assert Holders(m, i) == HoldersIn(m, order, i);
    }
    CountSplit(sorted, mid, q);
    forall i: nat | i > q ensures |Holders(m, i)| < QuorumSize(|m|) {
      CountSplit(sorted, mid + 1, i);
    }
  }

  /** `sort.Sort` on the collected match indexes. */
  method SortAscending(a: seq<nat>) returns (b: seq<nat>)
    ensures Sorted(b) && multiset(b) == multiset(a) && |b| == |a|
    ensures forall i: nat :: CountAtLeast(b, i) == CountAtLeast(a, i)
  {
    b := [];
    for n := 0 to |a|
      invariant Sorted(b) && multiset(b) == multiset(a[..n]) && |b| == n
      invariant forall i: nat :: CountAtLeast(b, i) == CountAtLeast(a[..n], i)
    {
      assert a[..n + 1] == a[..n] + [a[n]];
      forall i: nat ensures CountAtLeast(a[..n + 1], i) == CountAtLeast(a[..n], i) + CountAtLeast([a[n]], i) {
        CountConcat(a[..n], [a[n]], i);
      }
      b := Insert(b, a[n]);
    }
    assert a[..|a|] == a;
  }

  lemma InsertSorted(b: seq<nat>, k: nat, x: nat)
    requires Sorted(b) && k <= |b| && (forall j :: 0 <= j < k ==> b[j] <= x) && (k < |b| ==> x <= b[k])
    ensures Sorted(b[..k] + [x] + b[k..])
  {
    var c := b[..k] + [x] + b[k..];
    forall i, j | 0 <= i < j < |c| ensures c[i] <= c[j] {
      assert k < j ==> c[j] == b[j - 1];
      assert k < i ==> c[i] == b[i - 1];
    }
  }

  method Insert(b: seq<nat>, x: nat) returns (c: seq<nat>)
    requires Sorted(b)
    ensures Sorted(c) && multiset(c) == multiset(b) + multiset{x} && |c| == |b| + 1
    ensures forall i: nat :: CountAtLeast(c, i) == CountAtLeast(b, i) + CountAtLeast([x], i)
  {
    hide CountAtLeast;
    var k := 0;
    while k < |b| && b[k] <= x
      invariant k <= |b| && forall j :: 0 <= j < k ==> b[j] <= x
    {
      k := k + 1;
    }
    assert b == b[..k] + b[k..];
    c := b[..k] + [x] + b[k..];
    InsertSorted(b, k, x);
    hide Sorted;
    forall i: nat ensures CountAtLeast(c, i) == CountAtLeast(b, i) + CountAtLeast([x], i) {
      CountConcat(b[..k], b[k..], i);
      CountConcat(b[..k], [x], i);
      CountConcat(b[..k] + [x], b[k..], i);
    }
  }

  // ---------------------------------------------------------------------
  // The object
  // ---------------------------------------------------------------------

  class Commitment<Id(==)> {
    var matchIndexes: map<Id, nat>
    var commitIndex: nat
    const startIndex: nat

    ghost function View(): Ledger<Id>
      reads this
    {
      Ledger(matchIndexes, startIndex, commitIndex)
    }

    constructor (configuration: seq<Server<Id>>, startIndex: nat)
      ensures View() == Ledger(map v | v in Voters(configuration) :: 0, startIndex, 0)
    {
      this.startIndex := startIndex;
      commitIndex := 0;
      var indexes: map<Id, nat> := map[];
      for i := 0 to |configuration|
        invariant indexes == map v | v in Voters(configuration[..i]) :: 0
      {
        assert configuration[..i + 1] == configuration[..i] + [configuration[i]];
        if configuration[i].suffrage == Voter {
          indexes := indexes[configuration[i].id := 0];
        }
      }
      assert configuration[..|configuration|] == configuration;
      matchIndexes := indexes;
    }

    method SetConfiguration(configuration: seq<Server<Id>>)
      modifies this
      ensures View() == Reconfigured(old(View()), Voters(configuration))
    {
      var indexes: map<Id, nat> := map[];
      for i := 0 to |configuration|
        invariant View() == old(View())
        invariant indexes == map v | v in Voters(configuration[..i]) :: if v in matchIndexes then matchIndexes[v] else 0
      {
        assert configuration[..i + 1] == configuration[..i] + [configuration[i]];
        if configuration[i].suffrage == Voter {
          var id := configuration[i].id;
          indexes := indexes[id := if id in matchIndexes then matchIndexes[id] else 0];
        }
      }
      assert configuration[..|configuration|] == configuration;
      matchIndexes := indexes;
      Recalculate();
    }

    method Match(server: Id, matchIndex: nat)
      modifies this
      ensures View() == Reported(old(View()), server, matchIndex)
    {
      if server in matchIndexes && matchIndex > matchIndexes[server] {
        matchIndexes := matchIndexes[server := matchIndex];
        Recalculate();
      }
    }

    method Recalculate()
      modifies this
      ensures View() == Recalculated(old(View()))
    {
      if |matchIndexes| == 0 { return; }
      var matched: seq<nat> := [];
      ghost var order: seq<Id> := [];
      var todo := matchIndexes.Keys;
      while todo != {}
        invariant View() == old(View()) && todo <= matchIndexes.Keys
        invariant |order| == |matched| == |matchIndexes| - |todo|
        invariant forall v :: v in matchIndexes <==> v in todo || v in order
        invariant forall j :: 0 <= j < |order| ==> order[j] in matchIndexes && order[j] !in todo && matched[j] == matchIndexes[order[j]]
        invariant forall j, k :: 0 <= j < k < |order| ==> order[j] != order[k]
      {
        var id :| id in todo;
        matched := matched + [matchIndexes[id]];
        order := order + [id];
        todo := todo - {id};
      }
      var sorted := SortAscending(matched);
      MiddleIsQuorumMatch(matchIndexes, order, matched, sorted);
      var quorumMatchIndex := sorted[(|sorted| - 1) / 2];
      QuorumMatchUnique(matchIndexes, quorumMatchIndex, QuorumMatch(matchIndexes));
      if quorumMatchIndex > commitIndex && quorumMatchIndex >= startIndex {
        commitIndex := quorumMatchIndex;
      }
    }
  }

  // ---------------------------------------------------------------------
  // Over every sequence of calls
  // ---------------------------------------------------------------------

  datatype Call<T> = MatchCall(id: T, k: nat) | SetConfigurationCall(voters: set<T>)

  ghost function Called<T>(l: Ledger<T>, call: Call<T>): Ledger<T> {
    match call
    case MatchCall(id, k) => Reported(l, id, k)
    case SetConfigurationCall(voters) => Reconfigured(l, voters)
  }

  ghost function CalledAll<T>(l: Ledger<T>, calls: seq<Call<T>>): Ledger<T>
    decreases |calls|
  {
    if |calls| == 0 then l else CalledAll(Called(l, calls[0]), calls[1..])
  }

  /** One call never lowers the commit index, and moves it only to the largest index a majority of the then voters hold. */
  lemma CallIsExact<T>(l: Ledger<T>, call: Call<T>)
    ensures var l' := Called(l, call);
            && l'.start == l.start && l'.index >= l.index
            && (l'.index != l.index ==> IsQuorumMatch(l'.reports, l'.index) && l'.index >= l.start)
            && (l'.reports != l.reports && |l'.reports| > 0 ==>
                 forall q: nat :: IsQuorumMatch(l'.reports, q) && q >= l.start ==> l'.index >= q)
            && (Settled(l, l.index) ==> Settled(l', l'.index))
  {
    var l' := Called(l, call);
    if |l'.reports| > 0 {
      forall q: nat | IsQuorumMatch(l'.reports, q) && q >= l.start && l'.reports != l.reports ensures l'.index >= q {
        QuorumMatchUnique(l'.reports, q, QuorumMatch(l'.reports));
      }
    }
  }

  /** Commitment is monotone and every value it takes is a majority index of some moment, at or above the start index. */
  lemma {:induction false} CommitIndexHistory<T>(l: Ledger<T>, calls: seq<Call<T>>)
    ensures CalledAll(l, calls).start == l.start && CalledAll(l, calls).index >= l.index
    ensures CalledAll(l, calls).index > l.index ==>
              CalledAll(l, calls).index >= l.start &&
              exists n :: 0 < n <= |calls| && IsQuorumMatch(CalledAll(l, calls[..n]).reports, CalledAll(l, calls).index)
    decreases |calls|
  {
    hide IsQuorumMatch, Called, Settled;
    if |calls| > 0 {
      var l1, rest := Called(l, calls[0]), calls[1..];
      CallIsExact(l, calls[0]);
      CommitIndexHistory(l1, rest);
      var last := CalledAll(l, calls).index;
      if last > l1.index {
        var n :| 0 < n <= |rest| && IsQuorumMatch(CalledAll(l1, rest[..n]).reports, last);
        assert calls[..n + 1][1..] == rest[..n];
        assert IsQuorumMatch(CalledAll(l, calls[..n + 1]).reports, last);
      } else if last > l.index {
        assert calls[..1][1..] == [];
        assert IsQuorumMatch(CalledAll(l, calls[..1]).reports, last);
      }
    }
  }

  // ---------------------------------------------------------------------
  // With the voters fixed, order and repetition do not matter
  // ---------------------------------------------------------------------

  /** The highest report of `id`, or what was known before. */
  function Highest<T(==)>(before: nat, calls: seq<Call<T>>, id: T): nat
    decreases |calls|
  {
    if |calls| == 0 then before
    else
      var next := if calls[0].MatchCall? && calls[0].id == id && calls[0].k > before then calls[0].k else before;
      Highest(next, calls[1..], id)
  }

  ghost predicate OnlyReports<T>(calls: seq<Call<T>>) {
    forall c :: c in calls ==> c.MatchCall?
  }

  /** The commit index follows from the reports alone. */
  ghost predicate Settled<T>(l: Ledger<T>, index: nat) {
    |l.reports| > 0 ==> l.index == (var q := QuorumMatch(l.reports); if q > index && q >= l.start then q else index)
  }

  /** A new leader's ledger is settled, and `CallIsExact` says every call keeps it so. */
  lemma NewLedgerSettled<T>(voters: set<T>, start: nat)
    ensures Settled(Ledger(map v | v in voters :: 0, start, 0), 0)
  {
    var m := map v: T | v in voters :: 0;
    if |m| > 0 {
      assert Holders(m, QuorumMatch(m)) != {};
    }
  }

  lemma QuorumMatchRises<T>(m: map<T, nat>, id: T, k: nat)
    requires id in m && k > m[id]
    ensures |m[id := k]| == |m| > 0 && QuorumMatch(m) <= QuorumMatch(m[id := k])
  {
    var m' := m[id := k];
    assert m'.Keys == m.Keys;
    var q := QuorumMatch(m);
    assert Holders(m, q) <= Holders(m', q);
    SubsetSize(Holders(m, q), Holders(m', q));
  }

  /** The end of a sequence of reports: each voter's highest, and the majority index of those. */
  lemma {:induction false} ReportsSettle<T>(l: Ledger<T>, calls: seq<Call<T>>, index: nat)
    requires OnlyReports(calls) && Settled(l, index)
    ensures var l' := CalledAll(l, calls);
            && l'.reports.Keys == l.reports.Keys && l'.start == l.start
            && (forall id :: id in l.reports ==> l'.reports[id] == Highest(l.reports[id], calls, id))
            && Settled(l', index) && (|l.reports| == 0 ==> l' == l)
    decreases |calls|
  {
    if |calls| > 0 {
      var c, rest := calls[0], calls[1..];
      assert c in calls && c.MatchCall?;
      var l1 := Called(l, c);
      assert forall x :: x in rest ==> x in calls;
      if c.id in l.reports && c.k > l.reports[c.id] {
        QuorumMatchRises(l.reports, c.id, c.k);
      }
      assert l1.reports.Keys == l.reports.Keys;
      ReportsSettle(l1, rest, index);
    }
  }

  /** The highest report is one of the reports, and none is higher. */
  lemma {:induction false} HighestIsMax<T>(before: nat, calls: seq<Call<T>>, id: T)
    ensures Highest(before, calls, id) >= before
    ensures Highest(before, calls, id) == before || MatchCall(id, Highest(before, calls, id)) in calls
    ensures forall k: nat :: MatchCall(id, k) in calls ==> k <= Highest(before, calls, id)
    decreases |calls|
  {
    if |calls| > 0 {
      var next := if calls[0].MatchCall? && calls[0].id == id && calls[0].k > before then calls[0].k else before;
      HighestIsMax(next, calls[1..], id);
      forall k: nat | MatchCall(id, k) in calls ensures k <= Highest(before, calls, id) {
        assert MatchCall(id, k) == calls[0] || MatchCall(id, k) in calls[1..];
      }
    }
  }

  /**
   With the voters fixed, two sequences of reports with the same reports in
   them, in any order and any number, leave the same ledger.
   */
  lemma OrderDoesNotMatter<T>(l: Ledger<T>, calls: seq<Call<T>>, calls': seq<Call<T>>)
    requires OnlyReports(calls) && Settled(l, l.index)
    requires forall c :: c in calls <==> c in calls'
    ensures CalledAll(l, calls) == CalledAll(l, calls')
  {
    ReportsSettle(l, calls, l.index);
    ReportsSettle(l, calls', l.index);
    forall id | id in l.reports ensures Highest(l.reports[id], calls, id) == Highest(l.reports[id], calls', id) {
      HighestIsMax(l.reports[id], calls, id);
      HighestIsMax(l.reports[id], calls', id);
    }
    assert CalledAll(l, calls).reports == CalledAll(l, calls').reports;
  }

  // ---------------------------------------------------------------------
  // With changing voters, what the ledger holds was reported
  // ---------------------------------------------------------------------

  /** The voters after the calls. */
  function VotersNow<T>(voters: set<T>, calls: seq<Call<T>>): set<T> {
    if |calls| == 0 then voters
    else
      var last := calls[|calls| - 1];
      if last.SetConfigurationCall? then last.voters else VotersNow(voters, calls[..|calls| - 1])
  }

  /** The latest calls through all of which `v` has been a voter. */
  function Tenure<T(==)>(voters: set<T>, calls: seq<Call<T>>, v: T): (tail: seq<Call<T>>)
    ensures |tail| <= |calls| && tail == calls[|calls| - |tail|..]
  {
    if |calls| == 0 || v !in VotersNow(voters, calls[..|calls| - 1]) then []
    else Tenure(voters, calls[..|calls| - 1], v) + [calls[|calls| - 1]]
  }

  /** `v` has reported that it stores at least everything up to `k`. */
  ghost predicate HasReported<T(!new)>(calls: seq<Call<T>>, v: T, k: nat) {
    exists n: nat :: n >= k && MatchCall(v, n) in calls
  }

  lemma {:induction false} CalledLast<T>(l: Ledger<T>, calls: seq<Call<T>>)
    requires |calls| > 0
    ensures CalledAll(l, calls) == Called(CalledAll(l, calls[..|calls| - 1]), calls[|calls| - 1])
    decreases |calls|
  {
    hide Called;
    if |calls| == 1 {
      assert calls[1..] == [] && calls[..0] == [];
    } else {
      CalledLast(Called(l, calls[0]), calls[1..]);
      assert calls[1..][..|calls| - 2] == calls[..|calls| - 1][1..];
    }
  }

  lemma {:induction false} HighestLast<T>(before: nat, calls: seq<Call<T>>, c: Call<T>, id: T)
    ensures var h := Highest(before, calls, id);
            Highest(before, calls + [c], id) == if c.MatchCall? && c.id == id && c.k > h then c.k else h
    decreases |calls|
  {
    if |calls| == 0 {
      assert calls + [c] == [c] && [c][1..] == [];
    } else {
      assert (calls + [c])[0] == calls[0] && (calls + [c])[1..] == calls[1..] + [c];
      HighestLast(if calls[0].MatchCall? && calls[0].id == id && calls[0].k > before then calls[0].k else before, calls[1..], c, id);
    }
  }

  /** What one call does to the reports. */
  lemma CalledReports<T>(l: Ledger<T>, c: Call<T>)
    ensures var m, m' := l.reports, Called(l, c).reports;
            && (c.SetConfigurationCall? ==> m'.Keys == c.voters && forall v :: v in m' ==> m'[v] == if v in m then m[v] else 0)
            && (c.MatchCall? ==> m'.Keys == m.Keys && forall v :: v in m' ==> m'[v] == if v == c.id && c.k > m[v] then c.k else m[v])
  {
  }

  /** Each voter's report is the highest it has made since it has been a voter. */
  ghost predicate Truthful<T(!new)>(voters: set<T>, calls: seq<Call<T>>, m: map<T, nat>) {
    m.Keys == VotersNow(voters, calls) && forall v :: v in m ==> m[v] == Highest(0, Tenure(voters, calls, v), v)
  }

  lemma TruthfulStep<T(!new)>(voters: set<T>, calls: seq<Call<T>>, l: Ledger<T>)
    requires |calls| > 0 && Truthful(voters, calls[..|calls| - 1], l.reports)
    ensures Truthful(voters, calls, Called(l, calls[|calls| - 1]).reports)
  {
    hide Called, Highest;
    var before, c := calls[..|calls| - 1], calls[|calls| - 1];
    var m, m' := l.reports, Called(l, c).reports;
    CalledReports(l, c);
    forall v | v in m' ensures m'[v] == Highest(0, Tenure(voters, calls, v), v) {
      if v in m {
        HighestLast(0, Tenure(voters, before, v), c, v);
      } else {
        HighestIsMax(0, [], v);
      }
    }
  }

  /**
   From a new ledger on, over every sequence of both kinds of calls: a voter's
   report is the highest it has made since it has been a voter, 0 if it has made
   none.
   */
  lemma {:induction false} ReportsAreReal<T(!new)>(voters: set<T>, start: nat, calls: seq<Call<T>>)
    ensures Truthful(voters, calls, CalledAll(Ledger(map v | v in voters :: 0, start, 0), calls).reports)
    decreases |calls|
  {
    hide Called, Truthful;
    var l: Ledger<T> := Ledger(map v | v in voters :: 0, start, 0);
    if |calls| == 0 {
      NewIsTruthful(voters);
    } else {
      ReportsAreReal(voters, start, calls[..|calls| - 1]);
      CalledLast(l, calls);
      TruthfulStep(voters, calls, CalledAll(l, calls[..|calls| - 1]));
    }
  }

  lemma NewIsTruthful<T(!new)>(voters: set<T>)
    ensures Truthful(voters, [], map v | v in voters :: 0)
  {
  }

  /** The calls of a tenure are all of them for a voter that stays throughout. */
  lemma {:induction false} StayingTenure<T>(voters: set<T>, calls: seq<Call<T>>, v: T)
    requires v in voters && forall c :: c in calls && c.SetConfigurationCall? ==> v in c.voters
    ensures Tenure(voters, calls, v) == calls && v in VotersNow(voters, calls)
    decreases |calls|
  {
    if |calls| > 0 {
      StayingTenure(voters, calls[..|calls| - 1], v);
      assert calls == calls[..|calls| - 1] + [calls[|calls| - 1]];
    }
  }

  /** A voter that stays throughout has the highest report it has ever made. */
  lemma StayingReport<T(!new)>(voters: set<T>, start: nat, calls: seq<Call<T>>, v: T)
    requires v in voters && forall c :: c in calls && c.SetConfigurationCall? ==> v in c.voters
    ensures var m := CalledAll(Ledger(map v | v in voters :: 0, start, 0), calls).reports;
            v in m && m[v] == Highest(0, calls, v)
  {
    hide CalledAll, Highest;
    ReportsAreReal(voters, start, calls);
    StayingTenure(voters, calls, v);
  }

  /** A majority of the voters after the first `n` calls had themselves reported `k` by then. */
  ghost predicate MajorityReported<T(!new)>(voters: set<T>, calls: seq<Call<T>>, n: nat, k: nat) {
    n <= |calls| && exists q :: IsQuorum(q, VotersNow(voters, calls[..n])) && forall v :: v in q ==> HasReported(calls[..n], v, k)
  }

  /** So every commit index above 0 is one that a majority of the voters of some moment had reported. */
  lemma CommitIsReported<T(!new)>(voters: set<T>, start: nat, calls: seq<Call<T>>)
    ensures var k := CalledAll(Ledger(map v | v in voters :: 0, start, 0), calls).index;
            k > 0 ==> k >= start && exists n: nat :: MajorityReported(voters, calls, n, k)
  {
    hide CalledAll, Highest;
    var l: Ledger<T> := Ledger(map v | v in voters :: 0, start, 0);
    var k := CalledAll(l, calls).index;
    CommitIndexHistory(l, calls);
    if k > 0 {
      var n :| 0 < n <= |calls| && IsQuorumMatch(CalledAll(l, calls[..n]).reports, k);
      var m := CalledAll(l, calls[..n]).reports;
      ReportsAreReal(voters, start, calls[..n]);
      var q := Holders(m, k);
      forall v | v in q ensures HasReported(calls[..n], v, k) {
        HighestIsMax(0, Tenure(voters, calls[..n], v), v);
        assert MatchCall(v, m[v]) in calls[..n];
      }
      assert |m.Keys| == |m|;
      assert IsQuorum(q, VotersNow(voters, calls[..n]));
      assert MajorityReported(voters, calls, n, k);
    }
  }
}
