/**
 The committed and the latest configuration every server tracks
 (raft.go, api.go): they agree with its snapshot and log over every run.
 */
module ConfigurationPair {
  import opened Configuration

  /** A log entry, as far as configurations are concerned. */
  datatype Item = Change(conf: Configuration) | Other

  /** A configuration and the index it was written at. */
  datatype Stamped = Stamped(conf: Configuration, index: nat)

  /**
   The snapshot, the log entries after it, the pair and the commit index.
   Without a snapshot `snapIndex` is 0 and `base` is the empty configuration.
   */
  datatype Tracker = Tracker(
    snapIndex: nat, base: Stamped, log: seq<Item>,
    committed: Stamped, latest: Stamped, commitIndex: nat)
  {
    function LastIndex(): nat { snapIndex + |log| }
  }

  function ConfigsOf(log: seq<Item>, first: nat): seq<Stamped> {
    if |log| == 0 then []
    else (if log[0].Change? then [Stamped(log[0].conf, first)] else []) + ConfigsOf(log[1..], first + 1)
  }

  /** Every configuration of snapshot plus log, oldest first. */
  function Configs(t: Tracker): seq<Stamped> {
    [t.base] + ConfigsOf(t.log, t.snapIndex + 1)
  }

  /** The pair agrees with the log. */
  ghost predicate PairOk(t: Tracker) {
    var cs := Configs(t);
    && t.base.index <= t.snapIndex
    && t.commitIndex <= t.LastIndex()
    && t.latest == cs[|cs| - 1]
    && (t.committed == t.latest || (|cs| >= 2 && t.committed == cs[|cs| - 2]))
    && (t.latest.index <= t.commitIndex ==> t.committed == t.latest)
  }

  lemma {:induction false} ConfigsConcat(a: seq<Item>, b: seq<Item>, first: nat)
    ensures ConfigsOf(a + b, first) == ConfigsOf(a, first) + ConfigsOf(b, first + |a|)
  {
    if |a| == 0 {
      assert a + b == b;
    } else {
      assert (a + b)[0] == a[0] && (a + b)[1..] == a[1..] + b;
      ConfigsConcat(a[1..], b, first + 1);
      var head := if a[0].Change? then [Stamped(a[0].conf, first)] else [];
      assert ConfigsOf(a + b, first) == head + (ConfigsOf(a[1..], first + 1) + ConfigsOf(b, first + |a|));
    }
  }

  /** Indexes lie in the range of the log and rise. */
  lemma {:induction false} ConfigsOrdered(log: seq<Item>, first: nat)
    ensures forall i :: 0 <= i < |ConfigsOf(log, first)| ==> first <= ConfigsOf(log, first)[i].index < first + |log|
    ensures forall i, j :: 0 <= i < j < |ConfigsOf(log, first)| ==> ConfigsOf(log, first)[i].index < ConfigsOf(log, first)[j].index
  {
    if |log| > 0 {
      ConfigsOrdered(log[1..], first + 1);
    }
  }

  // ---------------------------------------------------------------------
  // What each operation does
  // ---------------------------------------------------------------------

  /** `processConfigurationLogEntry` */
  function Noted(t: Tracker, item: Item, index: nat): Tracker {
    if item.Change? then t.(committed := t.latest, latest := Stamped(item.conf, index)) else t
  }

  function NotedAll(t: Tracker, items: seq<Item>, first: nat): Tracker
    decreases |items|
  {
    if |items| == 0 then t else NotedAll(Noted(t, items[0], first), items[1..], first + 1)
  }

  function Stored(t: Tracker, items: seq<Item>): Tracker {
    NotedAll(t, items, t.LastIndex() + 1).(log := t.log + items)
  }

  /** A conflicting suffix is deleted from index `from` on. */
  function Truncated(t: Tracker, from: nat): Tracker
    requires t.snapIndex < from <= t.LastIndex() + 1
  {
    t.(log := t.log[..from - 1 - t.snapIndex], latest := if from <= t.latest.index then t.committed else t.latest)
  }

  function FollowerCommitted(t: Tracker, idx: nat): Tracker {
    t.(commitIndex := idx, committed := if t.latest.index <= idx then t.latest else t.committed)
  }

  function LeaderCommitted(t: Tracker, idx: nat): Tracker {
    t.(commitIndex := idx, committed := if t.commitIndex < t.latest.index <= idx then t.latest else t.committed)
  }

  /**
   `appendConfigurationEntry`: the leader sets the latest configuration only, and
   sets it whether or not the store took the entry.
   */
  function Proposed(t: Tracker, conf: Configuration, ok: bool): Tracker {
    t.(log := if ok then t.log + [Change(conf)] else t.log, latest := Stamped(conf, t.LastIndex() + 1))
  }

  /** The guard of `configurationChangeChIfStable`; `start` is where the leader's own entries begin. */
  predicate Stable(t: Tracker, start: nat) {
    t.latest.index == t.committed.index && t.commitIndex >= start
  }

  /** `NewRaft`: the snapshot's configuration, then the log from there. */
  function Rescanned(t: Tracker): Tracker {
    NotedAll(t.(committed := t.base, latest := t.base, commitIndex := 0), t.log, t.snapIndex + 1)
  }

  /** `takeSnapshot` at an applied index, with the log before it compacted away. */
  function Snapshotted(t: Tracker, i: nat): Tracker
    requires t.snapIndex <= i <= t.LastIndex()
  {
    t.(snapIndex := i, base := t.committed, log := t.log[i - t.snapIndex..])
  }

  // ---------------------------------------------------------------------
  // The object
  // ---------------------------------------------------------------------

  class PairTracker {
    var snapIndex: nat
    var base: Stamped
    var log: seq<Item>
    var committed: Stamped
    var latest: Stamped
    var commitIndex: nat

    ghost function View(): Tracker
      reads this
    {
      Tracker(snapIndex, base, log, committed, latest, commitIndex)
    }

    /** A start from a stored snapshot and log; both are empty at the very first. */
    constructor (snapIndex: nat, base: Stamped, log: seq<Item>)
      requires base.index <= snapIndex
      ensures View() == Rescanned(Tracker(snapIndex, base, log, base, base, 0)) && PairOk(View())
    {
      this.snapIndex, this.base, this.log := snapIndex, base, log;
      committed, latest, commitIndex := base, base, 0;
      new;
      Restart();
    }

    method ProcessConfigurationLogEntry(item: Item, index: nat)
      modifies this
      ensures View() == Noted(old(View()), item, index)
    {
      if item.Change? {
        committed := latest;
        latest := Stamped(item.conf, index);
      }
    }

    /** The end of the entry loop of `appendEntries`. */
    method StoreLogs(items: seq<Item>)
      requires PairOk(View())
      modifies this
      ensures View() == Stored(old(View()), items) && PairOk(View())
    {
      hide PairOk, Noted;
      StoredOk(View(), items);
      ghost var goal := Stored(View(), items);
      var first := snapIndex + |log| + 1;
      NotedLog(View(), items, first);
      log := log + items;
      assert items[0..] == items;
      for i := 0 to |items|
        invariant NotedAll(View(), items[i..], first + i) == goal
      {
        assert items[i..][1..] == items[i + 1..];
        ProcessConfigurationLogEntry(items[i], first + i);
      }
    }

    method DeleteSuffix(from: nat)
      requires PairOk(View()) && snapIndex < from <= View().LastIndex()
      modifies this
      ensures View() == Truncated(old(View()), from)
      ensures PairOk(View()) <==> old(committed.index) < from && old(commitIndex) < from
    {
      TruncationExact(View(), from);
      log := log[..from - 1 - snapIndex];
      if from <= latest.index {
        latest := committed;
      }
    }

    method Restart()
      requires base.index <= snapIndex
      modifies this
      ensures View() == Rescanned(old(View())) && PairOk(View())
    {
      RescannedOk(View());
      ghost var goal := Rescanned(View());
      committed, latest, commitIndex := base, base, 0;
      for i := 0 to |log|
        invariant log == old(log) && snapIndex == old(snapIndex)
        invariant NotedAll(View(), log[i..], snapIndex + 1 + i) == goal
      {
        assert log[i..][1..] == log[i + 1..];
        ProcessConfigurationLogEntry(log[i], snapIndex + 1 + i);
      }
    }

    /** `appendConfigurationEntry`; `ok` is whether the store took the entry. */
    method AppendConfigurationEntry(conf: Configuration, ok: bool)
      requires PairOk(View())
      modifies this
      ensures View() == Proposed(old(View()), conf, ok)
      ensures PairOk(View()) <==> ok && old(committed) == old(latest)
    {
      ProposalExact(View(), conf, ok);
      var index := snapIndex + |log| + 1;
      if ok { log := log + [Change(conf)]; }
      latest := Stamped(conf, index);
    }

    /** The commit index of `appendEntries`. */
    method FollowerCommit(idx: nat)
      requires PairOk(View()) && commitIndex < idx <= View().LastIndex()
      modifies this
      ensures View() == FollowerCommitted(old(View()), idx) && PairOk(View())
    {
      commitIndex := idx;
      if latest.index <= idx {
        committed := latest;
      }
    }

    /** The commit case of `leaderLoop`. */
    method LeaderCommit(idx: nat)
      requires PairOk(View()) && commitIndex <= idx <= View().LastIndex()
      modifies this
      ensures View() == LeaderCommitted(old(View()), idx) && PairOk(View())
    {
      var oldCommitIndex := commitIndex;
      commitIndex := idx;
      if latest.index > oldCommitIndex && latest.index <= idx {
        committed := latest;
      }
    }
  }

  // ---------------------------------------------------------------------
  // The operations keep the pair in step with the log
  // ---------------------------------------------------------------------

  lemma {:induction false} NotedLog(t: Tracker, items: seq<Item>, first: nat)
    ensures NotedAll(t, items, first).log == t.log && NotedAll(t, items, first).snapIndex == t.snapIndex
    ensures NotedAll(t, items, first).base == t.base && NotedAll(t, items, first).commitIndex == t.commitIndex
    ensures forall log :: NotedAll(t.(log := log), items, first) == NotedAll(t, items, first).(log := log)
    decreases |items|
  {
    if |items| > 0 {
      NotedLog(Noted(t, items[0], first), items[1..], first + 1);
    }
  }

  /** After noting entries the latest configuration is the last of them, and the committed one is the one before it. */
  lemma {:induction false} NotedPair(t: Tracker, items: seq<Item>, first: nat)
    ensures var t', cs := NotedAll(t, items, first), [t.committed, t.latest] + ConfigsOf(items, first);
            t'.latest == cs[|cs| - 1] && t'.committed == cs[|cs| - 2]
    decreases |items|
  {
    if |items| > 0 {
      var u := Noted(t, items[0], first);
      NotedPair(u, items[1..], first + 1);
      if items[0].Change? {
        assert [t.committed, t.latest] + ConfigsOf(items, first)
            == [t.committed] + ([u.committed, u.latest] + ConfigsOf(items[1..], first + 1));
      }
    }
  }

  lemma StoredOk(t: Tracker, items: seq<Item>)
    requires PairOk(t)
    ensures PairOk(Stored(t, items))
  {
    hide ConfigsOf, NotedAll;
    var first := t.LastIndex() + 1;
    NotedLog(t, items, first);
    NotedPair(t, items, first);
    ConfigsConcat(t.log, items, t.snapIndex + 1);
    ConfigsOrdered(items, first);
    assert Configs(Stored(t, items)) == Configs(t) + ConfigsOf(items, first);
  }

  lemma RescannedOk(t: Tracker)
    requires t.base.index <= t.snapIndex
    ensures PairOk(Rescanned(t))
  {
    var u := t.(committed := t.base, latest := t.base, commitIndex := 0);
    NotedLog(u, t.log, t.snapIndex + 1);
    NotedPair(u, t.log, t.snapIndex + 1);
    ConfigsOrdered(t.log, t.snapIndex + 1);
    assert [u.committed, u.latest] + ConfigsOf(t.log, t.snapIndex + 1) == [t.base] + Configs(t);
  }

  /** The configurations of a log cut at `from` are those written before it. */
  lemma CutConfigs(t: Tracker, from: nat)
    requires t.base.index <= t.snapIndex && t.snapIndex < from <= t.LastIndex() + 1
    ensures var cs, rest := Configs(Truncated(t, from)), ConfigsOf(t.log[from - 1 - t.snapIndex..], from);
            && Configs(t) == cs + rest
            && (forall i :: 0 <= i < |cs| ==> cs[i].index < from)
            && (forall i :: 0 <= i < |rest| ==> rest[i].index >= from)
  {
    hide ConfigsOf;
    var k := from - 1 - t.snapIndex;
    assert t.log == t.log[..k] + t.log[k..];
    ConfigsConcat(t.log[..k], t.log[k..], t.snapIndex + 1);
    ConfigsOrdered(t.log[..k], t.snapIndex + 1);
    ConfigsOrdered(t.log[k..], from);
  }

  lemma TruncatedOk(t: Tracker, from: nat)
    requires PairOk(t) && t.snapIndex < from <= t.LastIndex() + 1 && t.committed.index < from && t.commitIndex < from
    ensures PairOk(Truncated(t, from))
  {
    CutConfigs(t, from);
    var all, cs := Configs(t), Configs(Truncated(t, from));
    assert all[|all| - 1] == t.latest;
  }

  /**
   Exactly when deleting a suffix keeps the pair: the committed configuration
   and the commit index must lie before the cut. Otherwise the program falls
   back to a configuration whose entry has just been deleted.
   */
  lemma TruncationExact(t: Tracker, from: nat)
    requires PairOk(t) && t.snapIndex < from <= t.LastIndex() + 1
    ensures PairOk(Truncated(t, from)) <==> t.committed.index < from && t.commitIndex < from
  {
    if t.committed.index < from && t.commitIndex < from {
      TruncatedOk(t, from);
    } else if t.commitIndex < from {
      CutConfigs(t, from);
      CommittedBelowLatest(t);
      var cs := Configs(Truncated(t, from));
      assert cs[|cs| - 1].index < from;
    }
  }

  lemma CommittedBelowLatest(t: Tracker)
    requires PairOk(t)
    ensures t.committed.index <= t.latest.index
  {
    ConfigsOrdered(t.log, t.snapIndex + 1);
  }

  /**
   Exactly when a leader's proposal leaves a right pair: the entry was stored,
   and the two were the same before. Otherwise the latest configuration is in no
   log, or the log holds two configurations above the committed one.
   */
  lemma ProposalExact(t: Tracker, conf: Configuration, ok: bool)
    requires PairOk(t)
    ensures PairOk(Proposed(t, conf, ok)) <==> ok && t.committed == t.latest
  {
    hide ConfigsOf;
    ConfigsOrdered(t.log, t.snapIndex + 1);
    if ok {
      ConfigsConcat(t.log, [Change(conf)], t.snapIndex + 1);
      OneConfig(Change(conf), t.LastIndex() + 1);
      assert Configs(Proposed(t, conf, ok)) == Configs(t) + [Stamped(conf, t.LastIndex() + 1)];
    }
  }

  /**
   A configuration whose entry was not stored becomes the committed one as soon
   as another leader's entry at that index is stored and committed, although it
   is in no log.
   */
  lemma UnstoredIsCommitted(t: Tracker, conf: Configuration)
    requires PairOk(t)
    ensures var index := t.LastIndex() + 1;
            var u := FollowerCommitted(Stored(Proposed(t, conf, false), [Other]), index);
            u.committed == Stamped(conf, index) && u.committed !in Configs(u) && !PairOk(u)
  {
    var index := t.LastIndex() + 1;
    var u := FollowerCommitted(Stored(Proposed(t, conf, false), [Other]), index);
    ConfigsConcat(t.log, [Other], t.snapIndex + 1);
    ConfigsOrdered(t.log, t.snapIndex + 1);
    assert [Other][1..] == [];
    assert Configs(u) == Configs(t);
  }

  /** The guard compares indexes; that is the same as comparing the configurations. */
  lemma GuardIsEquality(t: Tracker, start: nat)
    requires PairOk(t)
    ensures Stable(t, start) <==> t.committed == t.latest && t.commitIndex >= start
  {
    ConfigsOrdered(t.log, t.snapIndex + 1);
  }

  /** At most one configuration of the log lies above the committed one. */
  lemma OneAboveCommitted(t: Tracker, i: nat, j: nat)
    requires PairOk(t) && i < |Configs(t)| && j < |Configs(t)|
    requires Configs(t)[i].index > t.committed.index && Configs(t)[j].index > t.committed.index
    ensures i == j && Configs(t)[i] == t.latest
  {
    ConfigsOrdered(t.log, t.snapIndex + 1);
  }

  /**
   A snapshot that `takeSnapshot` does not refuse stores the last configuration
   at or below its index if and only if no later one that is not committed is at
   or below it too. That is always so at a committed index.
   */
  lemma SnapshotExact(t: Tracker, i: nat)
    requires PairOk(t) && t.snapIndex <= i <= t.LastIndex() && t.committed.index <= i
    ensures t.committed in Configs(t)
    ensures (forall k :: 0 <= k < |Configs(t)| && Configs(t)[k].index <= i ==> Configs(t)[k].index <= t.committed.index)
            <==> t.committed == t.latest || i < t.latest.index
    ensures PairOk(Snapshotted(t, i)) <==> t.committed == t.latest || i < t.latest.index
    ensures i <= t.commitIndex ==> t.committed == t.latest || i < t.latest.index
  {
    hide ConfigsOf;
    var cut := i + 1;
    CutConfigs(t, cut);
    ConfigsOrdered(t.log, t.snapIndex + 1);
    var all, rest := Configs(t), ConfigsOf(t.log[i - t.snapIndex..], cut);
    assert Configs(Snapshotted(t, i)) == [t.committed] + rest;
    assert all[|all| - 1] == t.latest;
    assert |rest| > 0 ==> rest[|rest| - 1] == t.latest;
    assert t.committed in all;
  }

  // ---------------------------------------------------------------------
  // Over every run
  // ---------------------------------------------------------------------

  datatype Op =
    | Store(items: seq<Item>)
    | Delete(from: nat)
    | FollowerCommit(idx: nat)
    | Propose(conf: Configuration, ok: bool)
    | LeaderCommit(idx: nat)
    | Restart
    | Snapshot(i: nat)

  /**
   When an operation may happen. `Propose` is behind the guard of
   `configurationChangeChIfStable`; a snapshot is of a committed index, or of one
   that a user restore burnt, which is refused while the two differ.
   */
  predicate Legal(t: Tracker, op: Op) {
    match op
    case Store(_) => true
    case Delete(from) =>
      t.snapIndex < from <= t.LastIndex() + 1 && t.committed.index < from && t.commitIndex < from
    case FollowerCommit(idx) => t.commitIndex < idx <= t.LastIndex()
    case Propose(_, _) => t.committed.index == t.latest.index
    case LeaderCommit(idx) => t.commitIndex <= idx <= t.LastIndex()
    case Restart => true
    case Snapshot(i) => t.snapIndex <= i <= t.LastIndex() && t.committed.index <= i && (i <= t.commitIndex || t.committed == t.latest)
  }

  function Done(t: Tracker, op: Op): Tracker
    requires Legal(t, op)
  {
    match op
    case Store(items) => Stored(t, items)
    case Delete(from) => Truncated(t, from)
    case FollowerCommit(idx) => FollowerCommitted(t, idx)
    case Propose(conf, ok) => Proposed(t, conf, ok)
    case LeaderCommit(idx) => LeaderCommitted(t, idx)
    case Restart => Rescanned(t)
    case Snapshot(i) => Snapshotted(t, i)
  }

  predicate LegalRun(t: Tracker, ops: seq<Op>)
    decreases |ops|
  {
    |ops| == 0 || (Legal(t, ops[0]) && LegalRun(Done(t, ops[0]), ops[1..]))
  }

  function After(t: Tracker, ops: seq<Op>): Tracker
    requires LegalRun(t, ops)
    decreases |ops|
  {
    if |ops| == 0 then t else After(Done(t, ops[0]), ops[1..])
  }

  /** The proposal whose entry was not stored. */
  predicate Fails(op: Op) {
    op.Propose? && !op.ok
  }

  lemma DoneOk(t: Tracker, op: Op)
    requires PairOk(t) && Legal(t, op)
    ensures PairOk(Done(t, op)) <==> !Fails(op)
  {
    hide ConfigsOf, NotedAll;
    match op {
      case Store(items) => StoredOk(t, items);
      case Delete(from) => TruncatedOk(t, from);
      case FollowerCommit(_) =>
      case Propose(conf, ok) => GuardIsEquality(t, t.commitIndex); ProposalExact(t, conf, ok);
      case LeaderCommit(_) =>
      case Restart => RescannedOk(t);
      case Snapshot(i) => SnapshotExact(t, i);
    }
  }

  // ---------------------------------------------------------------------
  // Where the configuration of a failed proposal gets to
  // ---------------------------------------------------------------------

  /** Which of the three hold a configuration that was stored, and not one whose proposal failed. */
  datatype Marks = Marks(base: bool, committed: bool, latest: bool)

  function MarkedOne(f: Marks, item: Item): Marks {
    if item.Change? then f.(committed := f.latest, latest := true) else f
  }

  function MarkedAll(f: Marks, items: seq<Item>): Marks
    decreases |items|
  {
    if |items| == 0 then f else MarkedAll(MarkedOne(f, items[0]), items[1..])
  }

  function Marked(t: Tracker, f: Marks, op: Op): Marks {
    match op
    case Store(items) => MarkedAll(f, items)
    case Delete(from) => if from <= t.latest.index then f.(latest := f.committed) else f
    case FollowerCommit(idx) => if t.latest.index <= idx then f.(committed := f.latest) else f
    case Propose(_, ok) => f.(latest := ok)
    case LeaderCommit(idx) => if t.commitIndex < t.latest.index <= idx then f.(committed := f.latest) else f
    case Restart => MarkedAll(Marks(f.base, f.base, f.base), t.log)
    case Snapshot(_) => f.(base := f.committed)
  }

  function MarksAfter(t: Tracker, f: Marks, ops: seq<Op>): Marks
    requires LegalRun(t, ops)
    decreases |ops|
  {
    if |ops| == 0 then f else MarksAfter(Done(t, ops[0]), Marked(t, f, ops[0]), ops[1..])
  }

  /** What is marked is in step with the log. */
  ghost predicate Tracks(t: Tracker, f: Marks) {
    var cs := Configs(t);
    var last := cs[|cs| - 1];
    && t.base.index <= t.snapIndex
    && t.commitIndex <= t.LastIndex()
    && (f.latest ==> t.latest == last)
    && (f.committed ==> t.committed == last || (|cs| >= 2 && t.committed == cs[|cs| - 2]))
    && (f.committed && last.index <= t.commitIndex ==> t.committed == last)
    && (f.latest && last.index <= t.commitIndex ==> f.committed)
    && (f.committed && !f.latest ==> t.committed == last && last.index < t.latest.index && t.commitIndex < t.latest.index)
  }

  lemma MarkedIsRight(t: Tracker, f: Marks)
    ensures PairOk(t) ==> Tracks(t, Marks(true, true, true))
    ensures Tracks(t, f) && f.committed && f.latest ==> PairOk(t)
  {
  }

  lemma {:induction false} StoredTracks(t: Tracker, f: Marks, items: seq<Item>)
    requires Tracks(t, f)
    ensures Tracks(Stored(t, items), MarkedAll(f, items))
    decreases |items|
  {
    hide Tracks, Noted, MarkedOne;
    if |items| == 0 {
      assert t.log + items == t.log;
    } else {
      var t' := Stored(t, [items[0]]);
      StoredOne(t, f, items[0]);
      StoredTracks(t', MarkedOne(f, items[0]), items[1..]);
      StoredRest(t, items);
    }
  }

  lemma StoredRest(t: Tracker, items: seq<Item>)
    requires |items| > 0
    ensures Stored(t, items) == Stored(Stored(t, [items[0]]), items[1..])
  {
    var first := t.LastIndex() + 1;
    StoredItem(t, items[0]);
    NotedLog(Noted(t, items[0], first), items[1..], first + 1);
    assert t.log + items == t.log + [items[0]] + items[1..];
  }

  lemma StoredOne(t: Tracker, f: Marks, item: Item)
    requires Tracks(t, f)
    ensures Tracks(Stored(t, [item]), MarkedOne(f, item))
  {
    hide ConfigsOf, Stored;
    StoredItem(t, item);
    ConfigsConcat(t.log, [item], t.snapIndex + 1);
    ConfigsOrdered(t.log, t.snapIndex + 1);
    OneConfig(item, t.LastIndex() + 1);
    assert Configs(Stored(t, [item])) == Configs(t) + ConfigsOf([item], t.LastIndex() + 1);
  }

  lemma StoredItem(t: Tracker, item: Item)
    ensures Stored(t, [item]) == Noted(t, item, t.LastIndex() + 1).(log := t.log + [item])
  {
    var first := t.LastIndex() + 1;
    assert [item][1..] == [];
    assert NotedAll(t, [item], first) == NotedAll(Noted(t, item, first), [], first + 1);
  }

  lemma NoConfigs(first: nat)
    ensures ConfigsOf([], first) == []
  {
  }

  lemma OneConfig(item: Item, first: nat)
    ensures ConfigsOf([item], first) == if item.Change? then [Stamped(item.conf, first)] else []
  {
  }

  lemma RescanStores(t: Tracker)
    ensures Rescanned(t) == Stored(t.(committed := t.base, latest := t.base, commitIndex := 0, log := []), t.log)
  {
    var u := t.(committed := t.base, latest := t.base, commitIndex := 0);
    NotedLog(u, t.log, t.snapIndex + 1);
    assert [] + t.log == t.log;
  }

  lemma TruncatedTracks(t: Tracker, f: Marks, from: nat)
    requires Tracks(t, f) && Legal(t, Delete(from))
    ensures Tracks(Truncated(t, from), Marked(t, f, Delete(from)))
  {
    hide ConfigsOf;
    CutConfigs(t, from);
    var all, cs := Configs(t), Configs(Truncated(t, from));
    assert |cs| == |all| || |cs| < |all|;
  }

  lemma SnapshotTracks(t: Tracker, f: Marks, i: nat)
    requires Tracks(t, f) && Legal(t, Snapshot(i))
    ensures Tracks(Snapshotted(t, i), Marked(t, f, Snapshot(i)))
  {
    hide ConfigsOf;
    CutConfigs(t, i + 1);
    var rest := ConfigsOf(t.log[i - t.snapIndex..], i + 1);
    assert Configs(Snapshotted(t, i)) == [t.committed] + rest;
  }

  lemma DoneTracks(t: Tracker, f: Marks, op: Op)
    requires Tracks(t, f) && Legal(t, op)
    ensures Tracks(Done(t, op), Marked(t, f, op))
  {
    hide ConfigsOf, NotedAll, MarkedAll;
    match op {
      case Store(items) => StoredTracks(t, f, items);
      case Delete(from) => TruncatedTracks(t, f, from);
      case FollowerCommit(_) =>
      case Propose(conf, ok) => ProposedTracks(t, f, conf, ok);
      case LeaderCommit(_) =>
      case Restart =>
        RescanStores(t);
        NoConfigs(t.snapIndex + 1);
        StoredTracks(t.(committed := t.base, latest := t.base, commitIndex := 0, log := []), Marks(f.base, f.base, f.base), t.log);
      case Snapshot(i) => SnapshotTracks(t, f, i);
    }
  }

  lemma ProposedTracks(t: Tracker, f: Marks, conf: Configuration, ok: bool)
    requires Tracks(t, f) && t.committed.index == t.latest.index
    ensures Tracks(Proposed(t, conf, ok), f.(latest := ok))
  {
    hide ConfigsOf;
    ConfigsOrdered(t.log, t.snapIndex + 1);
    if ok {
      ConfigsConcat(t.log, [Change(conf)], t.snapIndex + 1);
      OneConfig(Change(conf), t.LastIndex() + 1);
      assert Configs(Proposed(t, conf, ok)) == Configs(t) + [Stamped(conf, t.LastIndex() + 1)];
    }
  }

  /**
   Over every run of stores, suffix deletions above the committed
   configuration, guarded proposals, failed or not, commits, restarts and
   snapshots, the pair agrees with snapshot and log whenever neither of the two
   is one whose proposal failed.
   */
  lemma {:induction false} PairAgreesOverRuns(t: Tracker, f: Marks, ops: seq<Op>)
    requires Tracks(t, f) && LegalRun(t, ops)
    ensures var f' := MarksAfter(t, f, ops); Tracks(After(t, ops), f') && (f'.committed && f'.latest ==> PairOk(After(t, ops)))
    decreases |ops|
  {
    hide Tracks, Done, Legal, Marked;
    if |ops| == 0 {
      MarkedIsRight(t, f);
    } else {
      DoneTracks(t, f, ops[0]);
      PairAgreesOverRuns(Done(t, ops[0]), Marked(t, f, ops[0]), ops[1..]);
    }
  }

  /** The marks say which configurations are not from `failed`, the ones whose proposals failed. */
  ghost predicate Separates(t: Tracker, f: Marks, failed: set<Configuration>) {
    && (f.base <==> t.base.conf !in failed) && (f.committed <==> t.committed.conf !in failed) && (f.latest <==> t.latest.conf !in failed)
    && forall i: nat :: i < |t.log| && t.log[i].Change? ==> t.log[i].conf !in failed
  }

  /** Proposals fail with configurations of `failed` only, and no other operation brings one of them in. */
  predicate Apart(op: Op, failed: set<Configuration>) {
    match op
    case Store(items) => forall i :: 0 <= i < |items| && items[i].Change? ==> items[i].conf !in failed
    case Propose(conf, ok) => conf in failed <==> !ok
    case _ => true
  }

  lemma {:induction false} StoredSeparates(t: Tracker, f: Marks, items: seq<Item>, failed: set<Configuration>)
    requires Separates(t, f, failed) && Apart(Store(items), failed)
    ensures Separates(Stored(t, items), MarkedAll(f, items), failed)
    decreases |items|
  {
    if |items| == 0 {
      assert t.log + items == t.log;
    } else {
      StoredItem(t, items[0]);
      StoredRest(t, items);
      StoredSeparates(Stored(t, [items[0]]), MarkedOne(f, items[0]), items[1..], failed);
    }
  }

  lemma DoneSeparates(t: Tracker, f: Marks, op: Op, failed: set<Configuration>)
    requires Separates(t, f, failed) && Apart(op, failed) && Legal(t, op)
    ensures Separates(Done(t, op), Marked(t, f, op), failed)
  {
    hide NotedAll, MarkedAll;
    match op {
      case Store(items) => StoredSeparates(t, f, items, failed);
      case Restart =>
        RescanStores(t);
        StoredSeparates(t.(committed := t.base, latest := t.base, commitIndex := 0, log := []), Marks(f.base, f.base, f.base), t.log, failed);
      case _ =>
    }
  }

  lemma {:induction false} ConfigsFrom(log: seq<Item>, first: nat, failed: set<Configuration>)
    requires forall i: nat :: i < |log| && log[i].Change? ==> log[i].conf !in failed
    ensures forall i: nat :: i < |ConfigsOf(log, first)| ==> ConfigsOf(log, first)[i].conf !in failed
    decreases |log|
  {
    if |log| > 0 {
      ConfigsFrom(log[1..], first + 1, failed);
    }
  }

  lemma {:induction false} SeparatedOverRuns(t: Tracker, f: Marks, ops: seq<Op>, failed: set<Configuration>)
    requires Separates(t, f, failed) && LegalRun(t, ops) && forall op :: op in ops ==> Apart(op, failed)
    ensures Separates(After(t, ops), MarksAfter(t, f, ops), failed)
    decreases |ops|
  {
    hide Separates, Done, Legal, Marked, Apart;
    if |ops| > 0 {
      DoneSeparates(t, f, ops[0], failed);
      SeparatedOverRuns(Done(t, ops[0]), Marked(t, f, ops[0]), ops[1..], failed);
    }
  }

  /**
   If no configuration of a failed proposal is ever stored, and none has got into
   the snapshot, the pair agrees with snapshot and log if and only if neither of
   the two is from a failed proposal.
   */
  lemma PairAgreesIff(t: Tracker, ops: seq<Op>, failed: set<Configuration>)
    requires PairOk(t) && Separates(t, Marks(true, true, true), failed)
    requires LegalRun(t, ops) && forall op :: op in ops ==> Apart(op, failed)
    ensures var f := MarksAfter(t, Marks(true, true, true), ops);
            f.base ==> (PairOk(After(t, ops)) <==> f.committed && f.latest)
  {
    var f := Marks(true, true, true);
    MarkedIsRight(t, f);
    PairAgreesOverRuns(t, f, ops);
    SeparatedOverRuns(t, f, ops, failed);
    var u := After(t, ops);
    ConfigsFrom(u.log, u.snapIndex + 1, failed);
  }

  /** The operation neither stores a configuration nor commits or deletes at the unstored index `x`. */
  predicate Quiet(op: Op, x: nat) {
    match op
    case Store(items) => forall i :: 0 <= i < |items| ==> items[i].Other?
    case Delete(from) => from > x
    case FollowerCommit(idx) => idx < x
    case LeaderCommit(idx) => idx < x
    case Snapshot(_) => true
    case _ => false
  }

  lemma {:induction false} OthersChangeNothing(t: Tracker, f: Marks, items: seq<Item>, first: nat)
    requires forall i :: 0 <= i < |items| ==> items[i].Other?
    ensures MarkedAll(f, items) == f && NotedAll(t, items, first) == t
    decreases |items|
  {
    if |items| > 0 {
      OthersChangeNothing(t, f, items[1..], first + 1);
    }
  }

  lemma {:induction false} QuietChangesNothing(t: Tracker, f: Marks, ops: seq<Op>)
    requires f == Marks(true, true, false) && LegalRun(t, ops) && forall op :: op in ops ==> Quiet(op, t.latest.index)
    ensures MarksAfter(t, f, ops) == f && After(t, ops).latest == t.latest
    decreases |ops|
  {
    if |ops| > 0 {
      var op := ops[0];
      assert Quiet(op, t.latest.index);
      if op.Store? { OthersChangeNothing(t, f, op.items, t.LastIndex() + 1); }
      QuietChangesNothing(Done(t, op), f, ops[1..]);
    }
  }

  /**
   After a failed proposal, a deletion from its index or below makes the pair
   right again under exactly the conditions of any deletion, however many other
   entries are stored, committed and deleted in between, if no configuration is
   stored before it and no commit reaches the index.
   */
  lemma DeletionRepairs(t: Tracker, conf: Configuration, ops: seq<Op>, from: nat)
    requires PairOk(t) && t.committed == t.latest
    requires LegalRun(Proposed(t, conf, false), ops) && forall op :: op in ops ==> Quiet(op, t.LastIndex() + 1)
    requires var u := After(Proposed(t, conf, false), ops); u.snapIndex < from <= u.LastIndex() + 1 && from <= t.LastIndex() + 1
    ensures var u := After(Proposed(t, conf, false), ops);
            PairOk(Truncated(u, from)) <==> u.committed.index < from && u.commitIndex < from
  {
    hide LegalRun, ConfigsOf;
    var f := Marks(true, true, false);
    MarkedIsRight(t, Marks(true, true, true));
    ProposedTracks(t, Marks(true, true, true), conf, false);
    QuietChangesNothing(Proposed(t, conf, false), f, ops);
    PairAgreesOverRuns(Proposed(t, conf, false), f, ops);
    var u := After(Proposed(t, conf, false), ops);
    CutConfigs(u, from);
    if Legal(u, Delete(from)) {
      TruncatedTracks(u, f, from);
    } else {
      var cs := Configs(Truncated(u, from));
      assert cs[|cs| - 1].index < from;
    }
  }
}
