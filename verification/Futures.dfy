/**
 Every run of the pipeline from dispatch to the state machine: futures are
 conserved, success means committed, and the state machine is sent exactly the
 entries it is to see, in order and once.
 */
module Futures {
  import opened Logs
  import opened Apply

  // ---------------------------------------------------------------------
  // Runs
  // ---------------------------------------------------------------------

  datatype Step =
    | Dispatch(term: nat, rs: seq<Request>, ok: bool)
    | Commit(index: nat)
    | Abort
    | Burn(metaIndex: nat)
    | StepDown
    | Lead
    | Follow(log: map<nat, Log>, lastLog: nat, index: nat)
    | Drain

  ghost predicate Distinct(rs: seq<Request>) {
    forall i, j :: 0 <= i < j < |rs| ==> rs[i].id != rs[j].id
  }

  /** A follower takes over another log; what is committed stays, which is state machine safety. */
  ghost predicate Agrees(p: Pipe, log: map<nat, Log>, lastLog: nat) {
    && p.lastApplied <= lastLog && p.commit <= lastLog
    && (forall i :: i <= p.commit && i in p.log ==> i in log && log[i] == p.log[i])
    && (forall i :: p.base < i <= lastLog ==> i in log)
  }

  ghost predicate Enabled(p: Pipe, s: Step) {
    match s
    case Dispatch(_, rs, _) => p.serving && Distinct(rs) && forall r :: r in rs ==> r.id !in p.dispatched
    case Commit(index) => p.serving && p.commit <= index <= p.lastLog
    case Abort => p.serving
    case Burn(_) => p.serving && p.inflight == [] && p.queue == []
    case StepDown => p.tenure
    case Lead => !p.tenure
    case Follow(log, lastLog, index) => !p.tenure && p.commit <= index <= lastLog && Agrees(p, log, lastLog)
    case Drain => |p.queue| > 0
  }

  /** Indexes are given out in order. */
  ghost predicate Increasing(fs: seq<Future>) {
    forall i, j :: 0 <= i < j < |fs| ==> fs[i].log.index < fs[j].log.index
  }

  /** A leader's log is whole above the last restore, and its inflight futures wait above lastApplied. */
  ghost predicate Waiting(p: Pipe) {
    && p.base <= p.lastApplied <= p.lastLog && p.commit <= p.lastLog
    && (p.lastApplied == p.base || p.lastApplied <= p.commit)
    && (forall i :: p.base < i <= p.lastLog ==> i in p.log)
    && (p.serving ==> p.tenure)
    && (!p.tenure ==> p.inflight == [])
    && (p.serving ==> Increasing(p.inflight))
    && (p.serving ==> forall f :: f in p.inflight ==> InLog(p, f))
  }

  ghost predicate InLog(p: Pipe, f: Future) {
    p.lastApplied < f.log.index <= p.lastLog && f.log.index in p.log && p.log[f.log.index] == f.log
  }

  lemma {:induction false} GroupOk(fs: seq<Future>)
    requires Increasing(fs)
    ensures forall j :: 0 <= j < |fs| ==> fs[j].log.index in Group(fs) && Group(fs)[fs[j].log.index] == fs[j]
    ensures forall i :: i in Group(fs) ==> Group(fs)[i] in fs && Group(fs)[i].log.index == i
  {
    if |fs| > 0 {
      var n := |fs| - 1;
      GroupOk(fs[..n]);
      forall j | 0 <= j < |fs|
        ensures fs[j].log.index in Group(fs) && Group(fs)[fs[j].log.index] == fs[j]
      {
        assert j < n ==> fs[..n][j] == fs[j];
      }
    }
  }

  lemma CommitFinds(p: Pipe, index: nat)
    requires Waiting(p) && p.serving
    ensures var k := Ready(p.inflight, index);
            k > 0 ==> p.lastApplied < p.inflight[k - 1].log.index <= p.lastLog && Found(p.log, Group(p.inflight[..k]), p.lastApplied, p.inflight[k - 1].log.index)
  {
    var k := Ready(p.inflight, index);
    if k > 0 {
      assert InLog(p, p.inflight[k - 1]);
    }
  }

  ghost function Next(g: Settings, p: Pipe, s: Step): Pipe
    requires Waiting(p) && Enabled(p, s)
  {
    match s
    case Dispatch(term, rs, ok) => DispatchedTo(p, term, rs, ok)
    case Commit(index) => CommitFinds(p, index); CommittedTo(g, p, index)
    case Abort => Aborted(p)
    case Burn(metaIndex) => BurntTo(p, metaIndex)
    case StepDown => SteppedDown(p)
    case Lead => p.(serving := true, tenure := true, inflight := [])
    case Follow(log, lastLog, index) => Processed(g, p.(log := log, lastLog := lastLog, commit := index), index, map[])
    case Drain => Drained(p)
  }

  lemma CommitFrame(g: Settings, p: Pipe, index: nat)
    requires Waiting(p) && Enabled(p, Commit(index))
    ensures var q := Next(g, p, Commit(index)); var k := Ready(p.inflight, index);
            && q == p.(commit := index, inflight := p.inflight[k..], queue := q.queue, sent := q.sent, answers := q.answers,
                       lastApplied := if k == 0 then p.lastApplied else p.inflight[k - 1].log.index)
            && (k > 0 ==> p.lastApplied < p.inflight[k - 1].log.index <= index)
  {
    hide Prepared, HiddenAnswered, Batches, Group, InLog;
    CommitFinds(p, index);
  }

  lemma CommitWaits(g: Settings, p: Pipe, index: nat)
    requires Waiting(p) && Enabled(p, Commit(index))
    ensures Waiting(Next(g, p, Commit(index)))
  {
    hide CommittedTo, Next, Ready;
    var k := Ready(p.inflight, index);
    var q := Next(g, p, Commit(index));
    CommitFrame(g, p, index);
    assert q.inflight == p.inflight[k..];
    forall f | f in q.inflight ensures InLog(q, f) {
      var j :| 0 <= j < |q.inflight| && q.inflight[j] == f;
      assert f == p.inflight[k + j] && InLog(p, f);
    }
  }

  lemma {:induction false} StoredAt(log: map<nat, Log>, fs: seq<Future>, lastLog: nat)
    requires forall j :: 0 <= j < |fs| ==> fs[j].log.index == lastLog + 1 + j
    ensures forall i :: i in WithEntries(log, fs) <==> i in log || lastLog < i <= lastLog + |fs|
    ensures forall i :: i in log && !(lastLog < i <= lastLog + |fs|) ==> WithEntries(log, fs)[i] == log[i]
    ensures forall j :: 0 <= j < |fs| ==> WithEntries(log, fs)[fs[j].log.index] == fs[j].log
  {
    if |fs| > 0 {
      StoredAt(log, fs[..|fs| - 1], lastLog);
      assert forall j :: 0 <= j < |fs| - 1 ==> fs[..|fs| - 1][j] == fs[j];
    }
  }

  lemma DispatchWaits(p: Pipe, term: nat, rs: seq<Request>, ok: bool)
    requires Waiting(p) && Enabled(p, Dispatch(term, rs, ok))
    ensures Waiting(DispatchedTo(p, term, rs, ok))
  {
    hide RespondAll, Recorded, WithEntries;
    var fs := Stamped(rs, p.lastLog, term);
    var q := DispatchedTo(p, term, rs, ok);
    if ok {
      StoredAt(p.log, fs, p.lastLog);
      forall f | f in q.inflight ensures InLog(q, f) {
        var j :| 0 <= j < |q.inflight| && q.inflight[j] == f;
        if j < |p.inflight| { assert InLog(p, p.inflight[j]); } else { assert f == fs[j - |p.inflight|]; }
      }
      forall i, j | 0 <= i < j < |q.inflight| ensures q.inflight[i].log.index < q.inflight[j].log.index {
        if i < |p.inflight| { assert InLog(p, p.inflight[i]); }
      }
    }
  }

  lemma NextWaits(g: Settings, p: Pipe, s: Step)
    requires Waiting(p) && Enabled(p, s)
    ensures Waiting(Next(g, p, s))
  {
    match s
    case Dispatch(term, rs, ok) => DispatchWaits(p, term, rs, ok);
    case Commit(index) => CommitWaits(g, p, index);
    case Follow(log, lastLog, index) => hide Prepared, HiddenAnswered, Batches;
    case _ =>
  }

  ghost predicate Legal(g: Settings, p: Pipe, steps: seq<Step>)
    requires Waiting(p)
    decreases |steps|
  {
    |steps| == 0 || (Enabled(p, steps[0]) && (NextWaits(g, p, steps[0]); Legal(g, Next(g, p, steps[0]), steps[1..])))
  }

  ghost function After(g: Settings, p: Pipe, steps: seq<Step>): Pipe
    requires Waiting(p) && Legal(g, p, steps)
    decreases |steps|
  {
    if |steps| == 0 then p else NextWaits(g, p, steps[0]); After(g, Next(g, p, steps[0]), steps[1..])
  }

  /** A server that has just started with an empty log. */
  const Started := Pipe(map[], 0, 0, 0, [], [], map[], false, false, map[], 0, [])

  // ---------------------------------------------------------------------
  // In order and once
  // ---------------------------------------------------------------------

  function Items(ts: seq<Tuple>): seq<Log> {
    seq(|ts|, i requires 0 <= i < |ts| => ts[i].log)
  }

  /** All batches since the last restore carry exactly the visible entries up to lastApplied. */
  ghost predicate InOrder(g: Settings, p: Pipe)
    requires Waiting(p)
  {
    Items(Flatten(p.sent)) == Visible(g.version, p.log, p.base, p.lastApplied) && Sized(p.sent, g.maxAppend)
  }

  lemma {:induction false} VisibleSplits(version: nat, log: map<nat, Log>, lo: nat, mid: nat, hi: nat)
    requires lo <= mid <= hi && forall i :: lo < i <= hi ==> i in log
    ensures Visible(version, log, lo, hi) == Visible(version, log, lo, mid) + Visible(version, log, mid, hi)
    decreases hi
  {
    if mid < hi { VisibleSplits(version, log, lo, mid, hi - 1); }
  }

  lemma {:induction false} VisibleSame(version: nat, a: map<nat, Log>, b: map<nat, Log>, lo: nat, hi: nat)
    requires forall i :: lo < i <= hi ==> i in a && i in b && a[i] == b[i]
    ensures Visible(version, a, lo, hi) == Visible(version, b, lo, hi)
    decreases hi
  {
    if lo < hi { VisibleSame(version, a, b, lo, hi - 1); }
  }

  /** Futures carry the entries of the log, so it does not matter which of the two is used. */
  ghost predicate SameItems(log: map<nat, Log>, futures: map<nat, Future>, lo: nat, hi: nat) {
    forall i :: lo < i <= hi ==> i in log && (i in futures ==> futures[i].log == log[i])
  }

  lemma {:induction false} PreparedIsVisible(version: nat, log: map<nat, Log>, futures: map<nat, Future>, lo: nat, hi: nat)
    requires SameItems(log, futures, lo, hi)
    ensures Items(Prepared(version, log, futures, lo, hi)) == Visible(version, log, lo, hi)
    decreases hi
  {
    if lo < hi { PreparedIsVisible(version, log, futures, lo, hi - 1); }
  }

  lemma ItemsConcat(a: seq<Tuple>, b: seq<Tuple>)
    ensures Items(a + b) == Items(a) + Items(b)
  {
  }

  lemma ProcessedInOrder(g: Settings, p: Pipe, index: nat, futures: map<nat, Future>)
    requires p.base <= p.lastApplied <= index && SameItems(p.log, futures, p.lastApplied, index)
    requires forall i :: p.base < i <= index ==> i in p.log
    requires Items(Flatten(p.sent)) == Visible(g.version, p.log, p.base, p.lastApplied) && Sized(p.sent, g.maxAppend)
    ensures var q := Processed(g, p, index, futures);
            Items(Flatten(q.sent)) == Visible(g.version, p.log, p.base, index) && Sized(q.sent, g.maxAppend)
  {
    if p.lastApplied < index {
      var ts := Prepared(g.version, p.log, futures, p.lastApplied, index);
      var bs := Batches(ts, g.maxAppend);
      PreparedIsVisible(g.version, p.log, futures, p.lastApplied, index);
      BatchesFlatten(ts, g.maxAppend);
      FlattenConcat(p.sent, bs);
      ItemsConcat(Flatten(p.sent), ts);
      VisibleSplits(g.version, p.log, p.base, p.lastApplied, index);
      hide Prepared, Batches, Flatten, Items, Visible, HiddenAnswered;
    }
  }

  lemma CommitSameItems(p: Pipe, k: nat)
    requires Waiting(p) && p.serving && 0 < k <= |p.inflight|
    ensures SameItems(p.log, Group(p.inflight[..k]), p.lastApplied, p.inflight[k - 1].log.index)
  {
    GroupOk(p.inflight[..k]);
    assert InLog(p, p.inflight[k - 1]);
    forall i | i in Group(p.inflight[..k])
      ensures i in p.log && Group(p.inflight[..k])[i].log == p.log[i]
    {
      assert InLog(p, Group(p.inflight[..k])[i]);
    }
  }

  lemma CommitInOrder(g: Settings, p: Pipe, index: nat)
    requires Waiting(p) && Enabled(p, Commit(index)) && InOrder(g, p) && Waiting(Next(g, p, Commit(index)))
    ensures InOrder(g, Next(g, p, Commit(index)))
  {
    hide Prepared, HiddenAnswered, Batches, Group, Sized, Items, Flatten, Visible;
    CommitFinds(p, index);
    var k := Ready(p.inflight, index);
    if k > 0 {
      CommitSameItems(p, k);
      ProcessedInOrder(g, p.(commit := index), p.inflight[k - 1].log.index, Group(p.inflight[..k]));
    }
  }

  lemma FollowInOrder(g: Settings, p: Pipe, log: map<nat, Log>, lastLog: nat, index: nat)
    requires Waiting(p) && Enabled(p, Follow(log, lastLog, index)) && InOrder(g, p) && Waiting(Next(g, p, Follow(log, lastLog, index)))
    ensures InOrder(g, Next(g, p, Follow(log, lastLog, index)))
  {
    hide Prepared, HiddenAnswered, Batches, Sized, Items, Flatten, Visible;
    VisibleSame(g.version, p.log, log, p.base, p.lastApplied);
    if p.lastApplied < index {
      ProcessedInOrder(g, p.(log := log, lastLog := lastLog, commit := index), index, map[]);
    }
  }

  lemma NextInOrder(g: Settings, p: Pipe, s: Step)
    requires Waiting(p) && Enabled(p, s) && InOrder(g, p) && Waiting(Next(g, p, s))
    ensures InOrder(g, Next(g, p, s))
  {
    match s
    case Dispatch(term, rs, ok) =>
      hide RespondAll, Recorded, Sized, Items, Flatten, Visible, InLog;
      if ok {
        StoredAt(p.log, Stamped(rs, p.lastLog, term), p.lastLog);
        VisibleSame(g.version, p.log, Next(g, p, s).log, p.base, p.lastApplied);
      }
    case Commit(index) => CommitInOrder(g, p, index);
    case Follow(log, lastLog, index) => FollowInOrder(g, p, log, lastLog, index);
    case _ => hide RespondAll, Answered, Sized;
  }

  /**
   In-order exactly-once apply: over every run, the batches sent since the last
   restore, put together, are the visible entries of the log up to lastApplied,
   and each has between 1 and MaxAppendEntries entries.
   */
  lemma {:induction false} AppliedInOrder(g: Settings, p: Pipe, steps: seq<Step>)
    requires Waiting(p) && Legal(g, p, steps) && InOrder(g, p)
    ensures Waiting(After(g, p, steps)) && InOrder(g, After(g, p, steps))
    decreases |steps|
  {
    if |steps| > 0 {
      NextWaits(g, p, steps[0]);
      NextInOrder(g, p, steps[0]);
      AppliedInOrder(g, Next(g, p, steps[0]), steps[1..]);
    }
  }

  // ---------------------------------------------------------------------
  // Conservation
  // ---------------------------------------------------------------------

  ghost function Ids(fs: seq<Future>): set<FutureId> {
    set f | f in fs :: f.id
  }

  ghost function Owners(ts: seq<Tuple>): set<FutureId> {
    set t | t in ts && t.future.Some? :: t.future.value
  }

  /** No future waits twice among the tuples. */
  ghost predicate OwnedOnce(ts: seq<Tuple>) {
    forall i, j :: 0 <= i < j < |ts| && ts[i].future.Some? && ts[j].future.Some? ==> ts[i].future != ts[j].future
  }

  ghost predicate Injective(fs: seq<Future>) {
    forall i, j :: 0 <= i < j < |fs| ==> fs[i].id != fs[j].id
  }

  /** Every dispatched future is in flight, with the state machine or answered, and in only one of these places. */
  ghost predicate Conserved(p: Pipe) {
    && p.dispatched.Keys == p.answers.Keys + Ids(p.inflight) + Owners(Flatten(p.queue))
    && Owners(Flatten(p.queue)) !! p.answers.Keys
    && Owners(Flatten(p.queue)) !! Ids(p.inflight)
    && OwnedOnce(Flatten(p.queue)) && Injective(p.inflight)
    && (p.serving ==> Ids(p.inflight) !! p.answers.Keys)
  }

  lemma {:induction false} RespondAllKeys(answers: map<FutureId, Answer>, fs: seq<Future>, a: Answer)
    ensures RespondAll(answers, fs, a).Keys == answers.Keys + Ids(fs)
    ensures forall id :: id in RespondAll(answers, fs, a) ==> RespondAll(answers, fs, a)[id] == if id in answers then answers[id] else a
  {
    if |fs| > 0 {
      var init := fs[..|fs| - 1];
      RespondAllKeys(answers, init, a);
      assert fs == init + [fs[|fs| - 1]];
      assert Ids(fs) == Ids(init) + {fs[|fs| - 1].id};
    }
  }

  lemma {:induction false} AnsweredKeys(answers: map<FutureId, Answer>, batch: seq<Tuple>)
    ensures Answered(answers, batch).Keys == answers.Keys + Owners(batch)
    ensures forall id :: id in Answered(answers, batch) ==> Answered(answers, batch)[id] == if id in answers then answers[id] else Success
  {
    if |batch| > 0 {
      var init, t := batch[..|batch| - 1], batch[|batch| - 1];
      AnsweredKeys(answers, init);
      assert batch == init + [t];
      assert Owners(batch) == Owners(init) + if t.future.Some? then {t.future.value} else {};
    }
  }

  lemma IdsSnoc(fs: seq<Future>, f: Future)
    ensures Ids(fs + [f]) == Ids(fs) + {f.id}
  {
    assert forall x :: x in fs ==> x in fs + [f];
    assert f in fs + [f];
  }

  lemma {:induction false} RecordedKeys(dispatched: map<FutureId, Log>, fs: seq<Future>)
    requires Injective(fs)
    ensures Recorded(dispatched, fs).Keys == dispatched.Keys + Ids(fs)
    ensures forall j :: 0 <= j < |fs| ==> fs[j].id in Recorded(dispatched, fs) && Recorded(dispatched, fs)[fs[j].id] == fs[j].log
    ensures forall id :: id in dispatched && id !in Ids(fs) ==> Recorded(dispatched, fs)[id] == dispatched[id]
  {
    if |fs| > 0 {
      var init, f := fs[..|fs| - 1], fs[|fs| - 1];
      assert fs == init + [f];
      assert forall j :: 0 <= j < |init| ==> init[j] == fs[j];
      RecordedKeys(dispatched, init);
      IdsSnoc(init, f);
      hide Ids;
    }
  }

  // What one pass of `processLogs` does with the futures of its range.

  ghost function IdsIn(futures: map<nat, Future>, lo: nat, hi: nat): set<FutureId> {
    set i | i in futures && lo < i <= hi :: futures[i].id
  }

  ghost predicate Fresh(futures: map<nat, Future>, answers: map<FutureId, Answer>) {
    && (forall i, j :: i in futures && j in futures && i != j ==> futures[i].id != futures[j].id)
    && (forall i :: i in futures ==> futures[i].id !in answers)
  }

  lemma OwnersConcat(a: seq<Tuple>, b: seq<Tuple>)
    ensures Owners(a + b) == Owners(a) + Owners(b)
  {
    assert forall t :: t in a + b <==> t in a || t in b;
  }

  lemma IdsInGrow(futures: map<nat, Future>, lo: nat, hi: nat)
    requires lo < hi
    ensures IdsIn(futures, lo, hi) == IdsIn(futures, lo, hi - 1) + if hi in futures then {futures[hi].id} else {}
  {
    if hi in futures { assert futures[hi].id in IdsIn(futures, lo, hi); }
  }

  /** The futures `ids` are either answered or in the tuples, never both and never twice. */
  ghost predicate Served(ts: seq<Tuple>, hidden: map<FutureId, Answer>, answers: map<FutureId, Answer>, ids: set<FutureId>) {
    && Owners(ts) + hidden.Keys == answers.Keys + ids && answers.Keys <= hidden.Keys
    && Owners(ts) !! hidden.Keys && OwnedOnce(ts) && Owners(ts) <= ids
    && (forall id :: id in hidden ==> hidden[id] == if id in answers then answers[id] else Success)
  }

  lemma ServedTuple(ts: seq<Tuple>, hidden: map<FutureId, Answer>, answers: map<FutureId, Answer>, ids: set<FutureId>, t: Tuple)
    requires Served(ts, hidden, answers, ids)
    requires t.future.Some? ==> t.future.value !in ids && t.future.value !in answers
    ensures Served(ts + [t], hidden, answers, ids + if t.future.Some? then {t.future.value} else {})
  {
    OwnersConcat(ts, [t]);
    assert Owners([t]) == if t.future.Some? then {t.future.value} else {};
    OwnedOnceSnoc(ts, t);
  }

  lemma ServedHidden(ts: seq<Tuple>, hidden: map<FutureId, Answer>, answers: map<FutureId, Answer>, ids: set<FutureId>, id: FutureId)
    requires Served(ts, hidden, answers, ids) && id !in ids && id !in answers
    ensures Served(ts, Respond(hidden, id, Success), answers, ids + {id})
  {
  }

  lemma OwnedOnceSnoc(ts: seq<Tuple>, t: Tuple)
    requires OwnedOnce(ts) && (t.future.Some? ==> t.future.value !in Owners(ts))
    ensures OwnedOnce(ts + [t])
  {
    forall i | 0 <= i < |ts| && ts[i].future.Some? ensures ts[i].future.value in Owners(ts) {
      assert ts[i] in ts;
    }
  }

  lemma ServedNothing(futures: map<nat, Future>, lo: nat, hi: nat, answers: map<FutureId, Answer>)
    requires hi <= lo
    ensures Served([], answers, answers, IdsIn(futures, lo, hi))
  {
  }

  lemma NextIsFresh(futures: map<nat, Future>, lo: nat, hi: nat, answers: map<FutureId, Answer>)
    requires Fresh(futures, answers) && hi in futures && lo < hi
    ensures futures[hi].id !in IdsIn(futures, lo, hi - 1) && futures[hi].id !in answers
  {
  }

  lemma {:induction false} RangeServed(version: nat, log: map<nat, Log>, futures: map<nat, Future>, lo: nat, hi: nat, answers: map<FutureId, Answer>)
    requires Found(log, futures, lo, hi) && Fresh(futures, answers)
    ensures Served(Prepared(version, log, futures, lo, hi), HiddenAnswered(version, log, futures, lo, hi, answers), answers, IdsIn(futures, lo, hi))
    decreases hi
  {
    hide Served, IdsIn, Fresh, Respond;
    if hi <= lo {
      ServedNothing(futures, lo, hi, answers);
    } else {
      RangeServed(version, log, futures, lo, hi - 1, answers);
      IdsInGrow(futures, lo, hi);
      var ts := Prepared(version, log, futures, lo, hi - 1);
      var hidden := HiddenAnswered(version, log, futures, lo, hi - 1, answers);
      var ids := IdsIn(futures, lo, hi - 1);
      if hi in futures { NextIsFresh(futures, lo, hi, answers); }
      var l := ItemAt(log, futures, hi);
      if Shown(version, l) {
        ServedTuple(ts, hidden, answers, ids, Tuple(l, Owner(futures, hi)));
      } else {
        assert ts + [] == ts && ids + {} == ids;
        if hi in futures { ServedHidden(ts, hidden, answers, ids, futures[hi].id); }
      }
    }
  }

  lemma GroupFresh(fs: seq<Future>, answers: map<FutureId, Answer>)
    requires Increasing(fs) && Injective(fs) && Ids(fs) !! answers.Keys
    ensures Fresh(Group(fs), answers)
  {
    var group := Group(fs);
    GroupOk(fs);
    hide Group, Increasing;
    forall i | i in group ensures group[i].id in Ids(fs) {
      assert group[i] in fs;
    }
    forall i, j | i in group && j in group && i != j ensures group[i].id != group[j].id {
      var x :| 0 <= x < |fs| && fs[x] == group[i];
      var y :| 0 <= y < |fs| && fs[y] == group[j];
      assert x != y;
    }
  }

  lemma GroupIds(fs: seq<Future>, lo: nat, hi: nat)
    requires Increasing(fs) && forall f :: f in fs ==> lo < f.log.index <= hi
    ensures IdsIn(Group(fs), lo, hi) == Ids(fs)
  {
    var group := Group(fs);
    GroupOk(fs);
    hide Group, Increasing;
    forall f | f in fs ensures f.id in IdsIn(group, lo, hi) {
      var j :| 0 <= j < |fs| && fs[j] == f;
      assert f.log.index in group && group[f.log.index] == f;
    }
    forall i | i in group ensures group[i].id in Ids(fs) {
      assert group[i] in fs;
    }
  }

  // The invariant.

  /** The entry of a future is in the log at or below the commit index. */
  ghost predicate Settled(p: Pipe, id: FutureId) {
    && id in p.dispatched
    && p.dispatched[id].index <= p.commit
    && p.dispatched[id].index in p.log && p.log[p.dispatched[id].index] == p.dispatched[id]
  }

  ghost predicate Successes(p: Pipe) {
    && (forall id :: id in p.answers && p.answers[id] == Success ==> Settled(p, id))
    && (forall id :: id in Owners(Flatten(p.queue)) ==> Settled(p, id))
    && (forall f :: f in p.inflight ==> f.id in p.dispatched && p.dispatched[f.id] == f.log)
  }

  lemma FrontWaits(p: Pipe, k: nat)
    requires Waiting(p) && Conserved(p) && p.serving && 0 < k <= |p.inflight|
    ensures var fs := p.inflight[..k];
            && Increasing(fs) && Injective(fs) && Ids(fs) !! p.answers.Keys
            && (forall f :: f in fs ==> p.lastApplied < f.log.index <= p.inflight[k - 1].log.index)
  {
    hide Flatten, Owners, OwnedOnce;
    var fs := p.inflight[..k];
    forall f | f in fs ensures f.id in Ids(p.inflight) && p.lastApplied < f.log.index <= p.inflight[k - 1].log.index {
      var j :| 0 <= j < k && fs[j] == f;
      assert p.inflight[j] == f && InLog(p, f);
    }
  }

  /** What a commit does with the futures at the front of the queue. */
  lemma CommitServes(g: Settings, p: Pipe, index: nat, k: nat) returns (ts: seq<Tuple>)
    requires Waiting(p) && Conserved(p) && Enabled(p, Commit(index)) && k == Ready(p.inflight, index)
    ensures var q := Next(g, p, Commit(index));
            Flatten(q.queue) == Flatten(p.queue) + ts && Served(ts, q.answers, p.answers, Ids(p.inflight[..k]))
  {
    hide Waiting, Conserved, Served, Flatten, Batches, Prepared, HiddenAnswered, Group;
    var q := Next(g, p, Commit(index));
    if k == 0 {
      ts := [];
      ServedNothing(map[], 0, 0, p.answers);
      assert Ids(p.inflight[..0]) == IdsIn(map[], 0, 0);
    } else {
      var group, hi := Group(p.inflight[..k]), p.inflight[k - 1].log.index;
      CommitFinds(p, index);
      FrontWaits(p, k);
      GroupFresh(p.inflight[..k], p.answers);
      GroupIds(p.inflight[..k], p.lastApplied, hi);
      RangeServed(g.version, p.log, group, p.lastApplied, hi, p.answers);
      ts := Prepared(g.version, p.log, group, p.lastApplied, hi);
      BatchesFlatten(ts, g.maxAppend);
      FlattenConcat(p.queue, Batches(ts, g.maxAppend));
    }
  }

  lemma IdsConcat(a: seq<Future>, b: seq<Future>)
    ensures Ids(a + b) == Ids(a) + Ids(b)
  {
    assert forall f :: f in a + b <==> f in a || f in b;
  }

  lemma OwnedOnceConcat(a: seq<Tuple>, b: seq<Tuple>)
    requires OwnedOnce(a) && OwnedOnce(b) && Owners(a) !! Owners(b)
    ensures OwnedOnce(a + b)
  {
    forall i | 0 <= i < |a| && a[i].future.Some? ensures a[i].future.value in Owners(a) { assert a[i] in a; }
    forall j | 0 <= j < |b| && b[j].future.Some? ensures b[j].future.value in Owners(b) { assert b[j] in b; }
  }

  lemma SplitIds(fs: seq<Future>, k: nat)
    requires Injective(fs) && k <= |fs|
    ensures Ids(fs) == Ids(fs[..k]) + Ids(fs[k..]) && Ids(fs[..k]) !! Ids(fs[k..]) && Injective(fs[k..])
  {
    assert fs == fs[..k] + fs[k..];
    IdsConcat(fs[..k], fs[k..]);
    forall f, h | f in fs[..k] && h in fs[k..] ensures f.id != h.id {
      var i :| 0 <= i < k && fs[i] == f;
      var j :| k <= j < |fs| && fs[j] == h;
    }
  }

  lemma CommitConserves(g: Settings, p: Pipe, index: nat)
    requires Waiting(p) && Conserved(p) && Enabled(p, Commit(index))
    ensures Conserved(Next(g, p, Commit(index)))
  {
    hide Next, Ready, Flatten, Owners, Ids, Waiting, OwnedOnce, Injective, Enabled;
    var q := Next(g, p, Commit(index));
    var k := Ready(p.inflight, index);
    CommitFrame(g, p, index);
    var ts := CommitServes(g, p, index, k);
    SplitIds(p.inflight, k);
    OwnersConcat(Flatten(p.queue), ts);
    OwnedOnceConcat(Flatten(p.queue), ts);
  }

  lemma DispatchConserves(p: Pipe, term: nat, rs: seq<Request>, ok: bool)
    requires Waiting(p) && Conserved(p) && Enabled(p, Dispatch(term, rs, ok))
    ensures Conserved(DispatchedTo(p, term, rs, ok))
  {
    hide Ids, Owners, Flatten, Recorded, RespondAll, WithEntries, OwnedOnce, Injective, Waiting;
    var fs := Stamped(rs, p.lastLog, term);
    NewIds(p, rs, fs);
    RecordedKeys(p.dispatched, fs);
    RespondAllKeys(p.answers, fs, StoreFailed);
    IdsConcat(p.inflight, fs);
    InjectiveConcat(p.inflight, fs);
  }

  lemma NewIds(p: Pipe, rs: seq<Request>, fs: seq<Future>)
    requires Distinct(rs) && |fs| == |rs| && (forall j :: 0 <= j < |rs| ==> fs[j].id == rs[j].id)
    requires forall r :: r in rs ==> r.id !in p.dispatched
    ensures Injective(fs) && Ids(fs) !! p.dispatched.Keys
  {
    forall f | f in fs ensures f.id !in p.dispatched {
      var j :| 0 <= j < |fs| && fs[j] == f;
      assert rs[j] in rs;
    }
  }

  lemma InjectiveConcat(a: seq<Future>, b: seq<Future>)
    requires Injective(a) && Injective(b) && Ids(a) !! Ids(b)
    ensures Injective(a + b)
  {
    forall i | 0 <= i < |a| ensures a[i].id in Ids(a) { assert a[i] in a; }
    forall j | 0 <= j < |b| ensures b[j].id in Ids(b) { assert b[j] in b; }
  }

  lemma DrainConserves(p: Pipe)
    requires Conserved(p) && |p.queue| > 0
    ensures Conserved(Drained(p))
  {
    var batch, rest := p.queue[0], Flatten(p.queue[1..]);
    assert Flatten(p.queue) == batch + rest;
    OwnersConcat(batch, rest);
    AnsweredKeys(p.answers, batch);
    OwnedOnceSplit(batch, rest);
    hide Owners, Ids, OwnedOnce, Injective, Answered, Flatten;
  }

  lemma OwnedOnceSplit(a: seq<Tuple>, b: seq<Tuple>)
    requires OwnedOnce(a + b)
    ensures OwnedOnce(b) && Owners(a) !! Owners(b)
  {
    forall j | 0 <= j < |b| ensures (a + b)[|a| + j] == b[j] {}
    forall s, t | s in a && t in b && s.future.Some? && t.future.Some? ensures s.future != t.future {
      var i :| 0 <= i < |a| && a[i] == s;
      var j :| 0 <= j < |b| && b[j] == t;
      assert (a + b)[i] == s && (a + b)[|a| + j] == t;
    }
  }

  lemma EndConserves(p: Pipe, a: Answer, q: Pipe)
    requires Conserved(p)
    requires q.answers == RespondAll(p.answers, p.inflight, a) && q.inflight == []
    requires q.dispatched == p.dispatched && q.queue == p.queue
    ensures Conserved(q)
  {
    RespondAllKeys(p.answers, p.inflight, a);
    assert Ids([]) == {};
    hide Owners, Flatten, OwnedOnce, RespondAll;
  }

  lemma FollowServes(g: Settings, p: Pipe, index: nat)
    requires Found(p.log, map[], p.lastApplied, index)
    ensures var q := Processed(g, p, index, map[]);
            && q == p.(queue := q.queue, sent := q.sent, lastApplied := q.lastApplied)
            && exists ts :: Flatten(q.queue) == Flatten(p.queue) + ts && OwnedOnce(ts) && Owners(ts) == {}
  {
    hide Prepared, HiddenAnswered, Batches, Flatten, Owners;
    if p.lastApplied < index {
      var ts := Prepared(g.version, p.log, map[], p.lastApplied, index);
      RangeServed(g.version, p.log, map[], p.lastApplied, index, p.answers);
      assert IdsIn(map[], p.lastApplied, index) == {};
      assert HiddenAnswered(g.version, p.log, map[], p.lastApplied, index, p.answers) == p.answers;
      BatchesFlatten(ts, g.maxAppend);
      FlattenConcat(p.queue, Batches(ts, g.maxAppend));
    } else {
      OwnsNothing();
      assert Flatten(p.queue) == Flatten(p.queue) + [];
    }
  }

  lemma OwnsNothing()
    ensures Owners([]) == {} && OwnedOnce([])
  {
  }

  lemma FollowConserves(g: Settings, p: Pipe, log: map<nat, Log>, lastLog: nat, index: nat)
    requires Waiting(p) && Conserved(p) && Enabled(p, Follow(log, lastLog, index))
    ensures var q := Next(g, p, Follow(log, lastLog, index)); Conserved(q) && q.answers == p.answers && Owners(Flatten(q.queue)) == Owners(Flatten(p.queue))
  {
    hide Flatten, Owners, Ids, OwnedOnce, Injective, Prepared, HiddenAnswered, Batches, Processed, InLog, Increasing;
    var p' := p.(log := log, lastLog := lastLog, commit := index);
    FollowServes(g, p', index);
    var q := Processed(g, p', index, map[]);
    var ts :| Flatten(q.queue) == Flatten(p.queue) + ts && OwnedOnce(ts) && Owners(ts) == {};
    OwnersConcat(Flatten(p.queue), ts);
    OwnedOnceConcat(Flatten(p.queue), ts);
  }

  lemma NextConserves(g: Settings, p: Pipe, s: Step)
    requires Waiting(p) && Conserved(p) && Enabled(p, s)
    ensures Conserved(Next(g, p, s))
  {
    match s
    case Dispatch(term, rs, ok) => DispatchConserves(p, term, rs, ok);
    case Commit(index) => CommitConserves(g, p, index);
    case Abort => EndConserves(p, AbortedByRestore, Aborted(p));
    case StepDown => EndConserves(p, LeadershipLost, SteppedDown(p));
    case Follow(log, lastLog, index) => FollowConserves(g, p, log, lastLog, index);
    case Drain => DrainConserves(p);
    case _ => hide Flatten, Owners, OwnedOnce;
  }

  // Success and the standing of answers.

  /** What is committed stays, and so do records and answers. */
  ghost predicate Keeps(p: Pipe, q: Pipe) {
    && p.commit <= q.commit
    && (forall i :: i <= p.commit && i in p.log ==> i in q.log && q.log[i] == p.log[i])
    && (forall id :: id in p.dispatched ==> id in q.dispatched && q.dispatched[id] == p.dispatched[id])
    && (forall id :: id in p.answers ==> id in q.answers && q.answers[id] == p.answers[id])
  }

  lemma DispatchKeeps(p: Pipe, term: nat, rs: seq<Request>, ok: bool)
    requires Waiting(p) && Enabled(p, Dispatch(term, rs, ok))
    ensures Keeps(p, DispatchedTo(p, term, rs, ok))
  {
    hide Ids, Recorded, RespondAll, WithEntries, Injective, InLog, Increasing;
    var fs := Stamped(rs, p.lastLog, term);
    NewIds(p, rs, fs);
    RecordedKeys(p.dispatched, fs);
    RespondAllKeys(p.answers, fs, StoreFailed);
    StoredAt(p.log, fs, p.lastLog);
  }

  lemma NextKeeps(g: Settings, p: Pipe, s: Step)
    requires Waiting(p) && Conserved(p) && Enabled(p, s)
    ensures Keeps(p, Next(g, p, s))
  {
    hide Conserved, RespondAll, Answered, CommittedTo, Processed, Waiting;
    match s
    case Dispatch(term, rs, ok) => DispatchKeeps(p, term, rs, ok);
    case Commit(index) =>
      hide Next, Owners, Ids, OwnedOnce, Flatten;
      CommitFrame(g, p, index);
      var ts := CommitServes(g, p, index, Ready(p.inflight, index));
    case Abort => RespondAllKeys(p.answers, p.inflight, AbortedByRestore);
    case StepDown => RespondAllKeys(p.answers, p.inflight, LeadershipLost);
    case Follow(log, lastLog, index) =>
      FollowConserves(g, p, log, lastLog, index);
      FollowFrame(g, p, log, lastLog, index);
      hide Next;
    case Drain => AnsweredKeys(p.answers, p.queue[0]);
    case _ =>
  }

  lemma FollowFrame(g: Settings, p: Pipe, log: map<nat, Log>, lastLog: nat, index: nat)
    requires Waiting(p) && Enabled(p, Follow(log, lastLog, index))
    ensures var q := Next(g, p, Follow(log, lastLog, index));
            q.log == log && q.commit == index && q.dispatched == p.dispatched && q.inflight == p.inflight
  {
    hide Prepared, HiddenAnswered, Batches, InLog, Increasing;
  }

  lemma SettledStays(p: Pipe, q: Pipe, id: FutureId)
    requires Settled(p, id) && Keeps(p, q)
    ensures Settled(q, id)
  {
  }

  /** A future at the front of the queue is settled by the commit that takes it off. */
  lemma FrontSettles(g: Settings, p: Pipe, index: nat, k: nat)
    requires Waiting(p) && Conserved(p) && Successes(p) && Enabled(p, Commit(index)) && k == Ready(p.inflight, index)
    ensures forall id :: id in Ids(p.inflight[..k]) ==> Settled(Next(g, p, Commit(index)), id)
  {
    hide Conserved, CommittedTo, Processed, Increasing;
    CommitFrame(g, p, index);
    hide Next;
    forall id | id in Ids(p.inflight[..k]) ensures Settled(Next(g, p, Commit(index)), id) {
      var f :| f in p.inflight[..k] && f.id == id;
      var j :| 0 <= j < k && p.inflight[j] == f;
      assert InLog(p, f);
    }
  }

  lemma CommitSucceeds(g: Settings, p: Pipe, index: nat)
    requires Waiting(p) && Conserved(p) && Successes(p) && Enabled(p, Commit(index))
    ensures Successes(Next(g, p, Commit(index)))
  {
    hide Waiting, Conserved, Next, Ready, Flatten, Owners, Ids, Settled, Keeps, OwnedOnce, Enabled;
    var q := Next(g, p, Commit(index));
    var k := Ready(p.inflight, index);
    CommitFrame(g, p, index);
    NextKeeps(g, p, Commit(index));
    FrontSettles(g, p, index, k);
    var ts := CommitServes(g, p, index, k);
    OwnersConcat(Flatten(p.queue), ts);
    forall id | Settled(p, id) ensures Settled(q, id) { SettledStays(p, q, id); }
    assert forall f :: f in q.inflight ==> f in p.inflight;
  }

  lemma NextSucceeds(g: Settings, p: Pipe, s: Step)
    requires Waiting(p) && Conserved(p) && Successes(p) && Enabled(p, s)
    ensures Successes(Next(g, p, s))
  {
    hide Waiting, Conserved, Flatten, Owners, Ids, Settled, Keeps, RespondAll, Answered, CommittedTo, Processed, Recorded, WithEntries, Injective;
    var q := Next(g, p, s);
    NextKeeps(g, p, s);
    forall id | Settled(p, id) ensures Settled(q, id) { SettledStays(p, q, id); }
    match s
    case Dispatch(term, rs, ok) =>
      var fs := Stamped(rs, p.lastLog, term);
      NewIds(p, rs, fs);
      RecordedKeys(p.dispatched, fs);
      RespondAllKeys(p.answers, fs, StoreFailed);
      KeptRecords(p, q);
    case Commit(index) => CommitSucceeds(g, p, index);
    case Abort => RespondAllKeys(p.answers, p.inflight, AbortedByRestore);
    case StepDown => RespondAllKeys(p.answers, p.inflight, LeadershipLost);
    case Follow(log, lastLog, index) =>
      FollowConserves(g, p, log, lastLog, index);
      FollowFrame(g, p, log, lastLog, index);
      hide Next;
    case Drain =>
      AnsweredKeys(p.answers, p.queue[0]);
      QueueSplits(p.queue);
    case _ =>
  }

  lemma KeptRecords(p: Pipe, q: Pipe)
    requires Keeps(p, q) && Successes(p)
    ensures forall f :: f in p.inflight ==> f.id in q.dispatched && q.dispatched[f.id] == f.log
  {
  }

  lemma QueueSplits(queue: seq<seq<Tuple>>)
    requires |queue| > 0
    ensures Owners(Flatten(queue)) == Owners(queue[0]) + Owners(Flatten(queue[1..]))
  {
    OwnersConcat(queue[0], Flatten(queue[1..]));
  }

  /**
   Futures are conserved over every run: while the server leads, each dispatched
   future is in exactly one place and every inflight index is above lastApplied;
   once its leadership has ended and the state machine queue is empty, each has
   its one answer; and success is only given to a committed entry.
   */
  lemma {:induction false} FuturesConserved(g: Settings, p: Pipe, steps: seq<Step>)
    requires Waiting(p) && Conserved(p) && Successes(p) && Legal(g, p, steps)
    ensures var q := After(g, p, steps);
            && Waiting(q) && Conserved(q) && Successes(q)
            && (!q.tenure && q.queue == [] ==> q.dispatched.Keys == q.answers.Keys)
            && (forall id :: id in p.answers ==> id in q.answers && q.answers[id] == p.answers[id])
    decreases |steps|
  {
    if |steps| == 0 {
      OwnsNothing();
      assert Ids([]) == {};
    } else {
      var q := Next(g, p, steps[0]);
      NextWaits(g, p, steps[0]);
      NextConserves(g, p, steps[0]);
      NextSucceeds(g, p, steps[0]);
      NextKeeps(g, p, steps[0]);
      hide Waiting, Conserved, Successes, Next, Enabled;
      FuturesConserved(g, q, steps[1..]);
    }
  }

  /** The invariants hold of a server that has just started, so the theorems speak about every run. */
  lemma StartedOk(g: Settings)
    ensures Waiting(Started) && Conserved(Started) && Successes(Started) && InOrder(g, Started)
  {
    OwnsNothing();
    assert Ids([]) == {};
  }
}
