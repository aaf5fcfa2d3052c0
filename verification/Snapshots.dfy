/**
 Snapshots of the state machine (snapshot.go, fsm.go, api.go): a server that
 restores one and applies the entries after it is where a server that replays
 the whole log is.
 */
module Snapshots {
  import opened Wrappers
  import opened Logs
  import opened Apply
  import opened Fsm
  import opened Futures

  /** How the application writes a snapshot and reads it back. */
  datatype Codec<!S, !D> = Codec(persist: S -> D, restore: D -> S)

  datatype Snap<D> = Snap(index: nat, term: nat, data: D)

  /** An application, its first state, the protocol version and a committed log of `n` entries. */
  datatype World<!S, !R, !D> = World(m: Machine<S, R>, codec: Codec<S, D>, init: S, version: nat, log: map<nat, Log>, n: nat)

  /**
   Every index holds its entry, a snapshot is read back as it was written, and a
   batching application does in a batch what it does one by one.
   */
  ghost predicate Sound<S(!new), R(!new), D>(w: World<S, R, D>) {
    && (forall i :: 1 <= i <= w.n ==> i in w.log && w.log[i].index == i)
    && (forall s: S :: w.codec.restore(w.codec.persist(s)) == s)
    && (w.m.batch.Some? ==> Folds(w.m))
  }

  /** The state of an application that started in `s` and has seen `ls`. */
  function Replay<S, R>(m: Machine<S, R>, s: S, ls: seq<Log>): S {
    if |ls| == 0 then s else Effect(m, Replay(m, s, ls[..|ls| - 1]), ls[|ls| - 1]).0
  }

  /** The state of a server that replays the log from its beginning up to `k`. */
  ghost function StateAt<S(!new), R(!new), D>(w: World<S, R, D>, k: nat): S
    requires Sound(w) && k <= w.n
  {
    Replay(w.m, w.init, Visible(w.version, w.log, 0, k))
  }

  // ---------------------------------------------------------------------
  // Runs
  // ---------------------------------------------------------------------

  /** The thread, lastApplied, the snapshots taken so far and the first index that compaction has left in the log. */
  datatype Replica<S, R, D> = Replica(f: Runner<S, R>, applied: nat, snaps: seq<Snap<D>>, first: nat)

  datatype Event =
    | Applies(ts: seq<Tuple>, to: nat)
    | Passes(upTo: nat)
    | Snapshots
    | Compacts(through: nat)
    | Restores(snap: nat)
    | Restarts(from: Option<nat>)

  /** The entries after lastApplied are still in the log. */
  predicate Readable<S, R, D>(x: Replica<S, R, D>) {
    x.first <= x.applied + 1
  }

  ghost predicate Enabled<S(!new), R(!new), D>(w: World<S, R, D>, x: Replica<S, R, D>, e: Event)
    requires Sound(w)
  {
    match e
    case Applies(ts, to) =>
      |ts| > 0 && Readable(x) && x.applied <= to <= w.n && Items(ts) == Visible(w.version, w.log, x.applied, to)
    case Passes(to) => Readable(x) && x.applied <= to <= w.n && Visible(w.version, w.log, x.applied, to) == []
    case Snapshots => true
    case Compacts(through) => |x.snaps| > 0 && through <= x.snaps[|x.snaps| - 1].index
    case Restores(i) => i < |x.snaps|
    case Restarts(i) => i.Some? ==> i.value < |x.snaps|
  }

  /** `applyBatch` in the way the application supports. */
  ghost function Ran<S(!new), R(!new), D>(w: World<S, R, D>, f: Runner<S, R>, ts: seq<Tuple>): Runner<S, R>
    requires Sound(w)
  {
    if w.m.batch.None? then Singles(w.m, f, ts)
    else BatchRefinesSingle(w.m, f, ts); Batched(w.m, f, ts)
  }

  ghost function Next<S(!new), R(!new), D>(w: World<S, R, D>, x: Replica<S, R, D>, e: Event): Replica<S, R, D>
    requires Sound(w) && Enabled(w, x, e)
  {
    match e
    case Applies(ts, to) => x.(f := Ran(w, x.f, ts), applied := to)
    case Passes(to) => x.(applied := to)
    case Snapshots =>
      if x.f.lastIndex == 0 then x
      else x.(snaps := x.snaps + [Snap(x.f.lastIndex, x.f.lastTerm, w.codec.persist(x.f.state))])
    case Compacts(through) => x.(first := if through >= x.first then through + 1 else x.first)
    case Restores(i) =>
      var s := x.snaps[i];
      x.(f := Runner(w.codec.restore(s.data), s.index, s.term, x.f.replies), applied := s.index)
    case Restarts(None) => x.(f := Runner(w.init, 0, 0, map[]), applied := 0)
    case Restarts(Some(i)) =>
      var s := x.snaps[i];
      x.(f := Runner(w.codec.restore(s.data), 0, 0, map[]), applied := s.index)
  }

  /** The thread has seen the log up to `k`, and its lastIndex is an index with the same state. */
  ghost predicate Tracks<S(!new), R(!new), D>(w: World<S, R, D>, f: Runner<S, R>, k: nat)
    requires Sound(w)
  {
    && k <= w.n
    && f.state == StateAt(w, k)
    && f.lastIndex <= k
    && (f.lastIndex > 0 ==> f.state == StateAt(w, f.lastIndex) && f.lastTerm == w.log[f.lastIndex].term)
  }

  ghost predicate SnapOk<S(!new), R(!new), D>(w: World<S, R, D>, s: Snap<D>)
    requires Sound(w)
  {
    1 <= s.index <= w.n && s.term == w.log[s.index].term && w.codec.restore(s.data) == StateAt(w, s.index)
  }

  ghost predicate Replays<S(!new), R(!new), D>(w: World<S, R, D>, x: Replica<S, R, D>)
    requires Sound(w)
  {
    && Tracks(w, x.f, x.applied)
    && (forall s :: s in x.snaps ==> SnapOk(w, s))
    && (x.first <= 1 || exists s :: s in x.snaps && x.first <= s.index + 1)
  }

  // ---------------------------------------------------------------------
  // Proof
  // ---------------------------------------------------------------------

  lemma {:induction false} ReplayConcat<S, R>(m: Machine<S, R>, s: S, a: seq<Log>, b: seq<Log>)
    ensures Replay(m, s, a + b) == Replay(m, Replay(m, s, a), b)
  {
    if |b| == 0 {
      assert a + b == a;
    } else {
      ReplayConcat(m, s, a, b[..|b| - 1]);
      assert (a + b)[..|a + b| - 1] == a + b[..|b| - 1];
    }
  }

  /** The last of the visible entries of a range: what comes before it, and that nothing comes after. */
  lemma {:induction false} VisibleLast(version: nat, log: map<nat, Log>, lo: nat, hi: nat)
    requires forall i :: lo < i <= hi ==> i in log && log[i].index == i
    ensures var ls := Visible(version, log, lo, hi);
            |ls| > 0 ==>
              var j := ls[|ls| - 1].index;
              lo < j <= hi && log[j] == ls[|ls| - 1] && Visible(version, log, lo, j - 1) == ls[..|ls| - 1] && Visible(version, log, j, hi) == []
    decreases hi
  {
    if lo < hi {
      VisibleLast(version, log, lo, hi - 1);
      var ls := Visible(version, log, lo, hi);
      if Shown(version, log[hi]) {
        assert ls[..|ls| - 1] == Visible(version, log, lo, hi - 1);
      } else {
        assert ls == Visible(version, log, lo, hi - 1);
      }
    }
  }

  lemma StateMoves<S(!new), R(!new), D>(w: World<S, R, D>, a: nat, b: nat)
    requires Sound(w) && a <= b <= w.n
    ensures StateAt(w, b) == Replay(w.m, StateAt(w, a), Visible(w.version, w.log, a, b))
  {
    VisibleSplits(w.version, w.log, 0, a, b);
    ReplayConcat(w.m, w.init, Visible(w.version, w.log, 0, a), Visible(w.version, w.log, a, b));
  }

  /** The state at the last visible entry of a range, and that it is the state at the end. */
  lemma StateAtLast<S(!new), R(!new), D>(w: World<S, R, D>, a: nat, to: nat)
    requires Sound(w) && a <= to <= w.n
    ensures var ls := Visible(w.version, w.log, a, to);
            if |ls| == 0 then StateAt(w, to) == StateAt(w, a)
            else
              var l := ls[|ls| - 1];
              && a < l.index <= to && w.log[l.index] == l && Visible(w.version, w.log, a, l.index - 1) == ls[..|ls| - 1]
              && StateAt(w, to) == StateAt(w, l.index) == Effect(w.m, StateAt(w, l.index - 1), l).0
  {
    hide Sound;
    assert forall i :: a < i <= to ==> i in w.log && w.log[i].index == i by { Holds(w); }
    var ls := Visible(w.version, w.log, a, to);
    StateMoves(w, a, to);
    if |ls| > 0 {
      VisibleLast(w.version, w.log, a, to);
      var l := ls[|ls| - 1];
      StateMoves(w, a, l.index - 1);
      StateMoves(w, l.index, to);
    }
  }

  lemma Holds<S(!new), R(!new), D>(w: World<S, R, D>)
    requires Sound(w)
    ensures forall i :: 1 <= i <= w.n ==> i in w.log && w.log[i].index == i
  {
  }

  lemma {:induction false} SinglesTrack<S(!new), R(!new), D>(w: World<S, R, D>, f: Runner<S, R>, a: nat, ts: seq<Tuple>, to: nat)
    requires Sound(w) && Tracks(w, f, a) && a <= to <= w.n && Items(ts) == Visible(w.version, w.log, a, to)
    ensures Tracks(w, Singles(w.m, f, ts), to)
    decreases |ts|
  {
    hide Sound, StateAt, Visible;
    StateAtLast(w, a, to);
    assert |Items(ts)| == |ts|;
    if |ts| > 0 {
      var init, t := ts[..|ts| - 1], ts[|ts| - 1];
      assert Items(init) == Items(ts)[..|ts| - 1] && Items(ts)[|ts| - 1] == t.log;
      SinglesTrack(w, f, a, init, t.log.index - 1);
    }
  }

  lemma RanTracks<S(!new), R(!new), D>(w: World<S, R, D>, f: Runner<S, R>, a: nat, ts: seq<Tuple>, to: nat)
    requires Sound(w) && Tracks(w, f, a) && |ts| > 0 && a <= to <= w.n && Items(ts) == Visible(w.version, w.log, a, to)
    ensures Tracks(w, Ran(w, f, ts), to)
  {
    hide StateAt, Visible;
    SinglesTrack(w, f, a, ts, to);
    if w.m.batch.Some? {
      BatchRefinesSingle(w.m, f, ts);
      StateAtLast(w, a, to);
      assert |Items(ts)| == |ts| && Items(ts)[|ts| - 1] == ts[|ts| - 1].log;
    }
  }

  lemma NextReplays<S(!new), R(!new), D>(w: World<S, R, D>, x: Replica<S, R, D>, e: Event)
    requires Sound(w) && Replays(w, x) && Enabled(w, x, e)
    ensures Replays(w, Next(w, x, e))
  {
    hide Visible, Ran;
    match e
    case Applies(ts, to) => RanTracks(w, x.f, x.applied, ts, to);
    case Passes(to) => StateAtLast(w, x.applied, to);
    case Restarts(None) => assert StateAt(w, 0) == w.init by { StateAtStart(w); }
    case Restores(i) => assert SnapOk(w, x.snaps[i]);
    case Restarts(Some(i)) => assert SnapOk(w, x.snaps[i]);
    case Compacts(through) => assert x.snaps[|x.snaps| - 1] in x.snaps;
    case Snapshots =>
      assert forall s :: s in x.snaps ==> s in Next(w, x, e).snaps;
  }

  lemma StateAtStart<S(!new), R(!new), D>(w: World<S, R, D>)
    requires Sound(w)
    ensures StateAt(w, 0) == w.init
  {
  }

  ghost predicate Legal<S(!new), R(!new), D>(w: World<S, R, D>, x: Replica<S, R, D>, es: seq<Event>)
    requires Sound(w)
    decreases |es|
  {
    |es| == 0 || (Enabled(w, x, es[0]) && Legal(w, Next(w, x, es[0]), es[1..]))
  }

  ghost function After<S(!new), R(!new), D>(w: World<S, R, D>, x: Replica<S, R, D>, es: seq<Event>): Replica<S, R, D>
    requires Sound(w) && Legal(w, x, es)
    decreases |es|
  {
    if |es| == 0 then x else After(w, Next(w, x, es[0]), es[1..])
  }

  /**
   Snapshot plus suffix equals full replay, over every run of batches, snapshots,
   compactions, restores and restarts: the state is always that of the whole log replayed up
   to lastApplied, and so is what every snapshot holds for its own index.
   */
  lemma {:induction false} SnapshotPlusSuffix<S(!new), R(!new), D>(w: World<S, R, D>, x: Replica<S, R, D>, es: seq<Event>)
    requires Sound(w) && Replays(w, x) && Legal(w, x, es)
    ensures Replays(w, After(w, x, es))
    ensures After(w, x, es).f.state == StateAt(w, After(w, x, es).applied)
    decreases |es|
  {
    if |es| > 0 {
      NextReplays(w, x, es[0]);
      hide Replays, Next, Enabled, StateAt;
      SnapshotPlusSuffix(w, Next(w, x, es[0]), es[1..]);
    }
  }

  /**
   Compaction leaves the suffix: after a restart from a snapshot with the highest
   index, or without one when there is none, every entry after it is in the log.
   */
  lemma SuffixIsThere<S(!new), R(!new), D>(w: World<S, R, D>, x: Replica<S, R, D>, from: Option<nat>)
    requires Sound(w) && Replays(w, x) && Enabled(w, x, Restarts(from))
    requires if from.None? then x.snaps == [] else forall s :: s in x.snaps ==> s.index <= x.snaps[from.value].index
    ensures Readable(Next(w, x, Restarts(from)))
  {
    hide Tracks, SnapOk;
  }

  /** A server that has just started replays. */
  lemma StartReplays<S(!new), R(!new), D>(w: World<S, R, D>)
    requires Sound(w)
    ensures Replays(w, Replica(Runner(w.init, 0, 0, map[]), 0, [], 1))
  {
    StateAtStart(w);
  }

  /**
   A snapshot is taken as soon as the thread has an index, after those taken
   before, and restoring it right away changes nothing but lastApplied, which
   goes back to that index. Compaction takes away what it says.
   */
  lemma SnapshotRoundTrip<S(!new), R(!new), D>(w: World<S, R, D>, x: Replica<S, R, D>, through: nat)
    requires Sound(w)
    ensures x.f.lastIndex > 0 ==>
              var y := Next(w, x, Snapshots);
              && |y.snaps| == |x.snaps| + 1 && y.snaps[..|x.snaps|] == x.snaps && y.snaps[|x.snaps|].index == x.f.lastIndex
              && Next(w, y, Restores(|x.snaps|)) == y.(applied := x.f.lastIndex) && y.f == x.f
    ensures Enabled(w, x, Compacts(through)) ==> Next(w, x, Compacts(through)).first > through
  {
    hide Ran;
  }
}
