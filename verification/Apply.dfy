/**
 From commit to the state machine (raft.go): which committed entries the state
 machine sees, in which batches, and what becomes of the futures that wait for
 them.
 */
module Apply {
  import opened Wrappers
  import opened Logs

  type FutureId = nat

  /** `logFuture`: somebody waits for the entry. */
  datatype Future = Future(id: FutureId, log: Log)

  /** `commitTuple`: what the state machine thread is given. */
  datatype Tuple = Tuple(log: Log, future: Option<FutureId>)

  datatype Answer = Success | StoreFailed | LeadershipLost | AbortedByRestore

  /** The protocol version and MaxAppendEntries. */
  datatype Settings = Settings(version: nat, maxAppend: nat)

  // ---------------------------------------------------------------------
  // What the state machine sees
  // ---------------------------------------------------------------------

  /** Whether `prepareLog` passes an entry on. */
  predicate Shown(version: nat, l: Log) {
    l.kind == Barrier || l.kind == Command || (l.kind == Configuration && version > 2)
  }

  /** The entries after `lo` up to `hi` that the state machine is to see. */
  ghost function Visible(version: nat, log: map<nat, Log>, lo: nat, hi: nat): seq<Log>
    requires forall i :: lo < i <= hi ==> i in log
    decreases hi
  {
    if hi <= lo then []
    else Visible(version, log, lo, hi - 1) + if Shown(version, log[hi]) then [log[hi]] else []
  }

  /** An entry comes from its future when there is one, else from the store. */
  predicate Found(log: map<nat, Log>, futures: map<nat, Future>, lo: nat, hi: nat) {
    forall i :: lo < i <= hi ==> i in futures || i in log
  }

  function ItemAt(log: map<nat, Log>, futures: map<nat, Future>, i: nat): Log
    requires i in futures || i in log
  {
    if i in futures then futures[i].log else log[i]
  }

  function Owner(futures: map<nat, Future>, i: nat): Option<FutureId> {
    if i in futures then Some(futures[i].id) else None
  }

  /** What the loop of `processLogs` puts into batches. */
  ghost function Prepared(version: nat, log: map<nat, Log>, futures: map<nat, Future>, lo: nat, hi: nat): seq<Tuple>
    requires Found(log, futures, lo, hi)
    decreases hi
  {
    if hi <= lo then []
    else
      var l := ItemAt(log, futures, hi);
      Prepared(version, log, futures, lo, hi - 1) + if Shown(version, l) then [Tuple(l, Owner(futures, hi))] else []
  }

  /** `respond`: only the first answer reaches the one who waits. */
  function Respond(answers: map<FutureId, Answer>, id: FutureId, a: Answer): map<FutureId, Answer> {
    if id in answers then answers else answers[id := a]
  }

  /** The answers `processLogs` itself gives: to futures of entries the state machine does not see. */
  ghost function HiddenAnswered(version: nat, log: map<nat, Log>, futures: map<nat, Future>, lo: nat, hi: nat, answers: map<FutureId, Answer>): map<FutureId, Answer>
    requires Found(log, futures, lo, hi)
    decreases hi
  {
    if hi <= lo then answers
    else
      var before := HiddenAnswered(version, log, futures, lo, hi - 1, answers);
      if hi in futures && !Shown(version, futures[hi].log) then Respond(before, futures[hi].id, Success) else before
  }

  // ---------------------------------------------------------------------
  // Batches
  // ---------------------------------------------------------------------

  /** Add one tuple: to the last batch if that still has room, else to a new one. */
  function AddTo(batches: seq<seq<Tuple>>, t: Tuple, n: nat): seq<seq<Tuple>> {
    var k := |batches| - 1;
    if |batches| > 0 && |batches[k]| < n then batches[..k] + [batches[k] + [t]] else batches + [[t]]
  }

  function Batches(ts: seq<Tuple>, n: nat): seq<seq<Tuple>> {
    if |ts| == 0 then [] else AddTo(Batches(ts[..|ts| - 1], n), ts[|ts| - 1], n)
  }

  function Flatten(bs: seq<seq<Tuple>>): seq<Tuple> {
    if |bs| == 0 then [] else bs[0] + Flatten(bs[1..])
  }

  lemma {:induction false} FlattenConcat(a: seq<seq<Tuple>>, b: seq<seq<Tuple>>)
    ensures Flatten(a + b) == Flatten(a) + Flatten(b)
  {
    if |a| == 0 {
      assert a + b == b;
    } else {
      assert (a + b)[0] == a[0] && (a + b)[1..] == a[1..] + b;
      FlattenConcat(a[1..], b);
      assert a[0] + (Flatten(a[1..]) + Flatten(b)) == a[0] + Flatten(a[1..]) + Flatten(b);
    }
  }

  /** Every batch has between 1 and MaxAppendEntries tuples. */
  ghost predicate Sized(bs: seq<seq<Tuple>>, n: nat) {
    forall b :: b in bs ==> 1 <= |b| <= if n == 0 then 1 else n
  }

  /** Only the last batch may have room. */
  ghost predicate Full(bs: seq<seq<Tuple>>, n: nat) {
    forall i :: 0 <= i < |bs| - 1 ==> |bs[i]| >= n
  }

  lemma NoneFull(n: nat)
    ensures Full([], n)
  {
  }

  lemma AddToFull(bs: seq<seq<Tuple>>, t: Tuple, n: nat)
    requires Full(bs, n)
    ensures Full(AddTo(bs, t, n), n)
  {
  }

  lemma AddToFlatten(bs: seq<seq<Tuple>>, t: Tuple, n: nat)
    requires Sized(bs, n)
    ensures Flatten(AddTo(bs, t, n)) == Flatten(bs) + [t] && Sized(AddTo(bs, t, n), n)
  {
    var k := |bs| - 1;
    if |bs| > 0 && |bs[k]| < n {
      var init, last := bs[..k], bs[k];
      assert bs == init + [last];
      FlattenConcat(init, [last]);
      FlattenConcat(init, [last + [t]]);
      assert Flatten([last]) == last && Flatten([last + [t]]) == last + [t];
    } else {
      FlattenConcat(bs, [[t]]);
      assert Flatten([[t]]) == [t];
    }
  }

  /** Cutting into batches loses, adds and reorders nothing, and fills all but the last. */
  lemma {:induction false} BatchesFlatten(ts: seq<Tuple>, n: nat)
    ensures Flatten(Batches(ts, n)) == ts && Sized(Batches(ts, n), n) && Full(Batches(ts, n), n)
  {
    hide AddTo, Full;
    assert Full([], n) by { NoneFull(n); }
    if |ts| > 0 {
      var init, t := ts[..|ts| - 1], ts[|ts| - 1];
      BatchesFlatten(init, n);
      AddToFlatten(Batches(init, n), t, n);
      AddToFull(Batches(init, n), t, n);
      assert ts == init + [t];
    }
  }

  /** The state of the batching loop after the tuples `ts`: what is sent and what is still collected. */
  ghost predicate Collected(ts: seq<Tuple>, n: nat, full: seq<seq<Tuple>>, batch: seq<Tuple>) {
    && Batches(ts, n) == full + Rest(batch)
    && (|batch| > 0 ==> |batch| < n)
    && (|batch| == 0 && |full| > 0 ==> |full[|full| - 1]| >= n)
  }

  function Rest(batch: seq<Tuple>): seq<seq<Tuple>> {
    if |batch| == 0 then [] else [batch]
  }

  lemma CollectNone(n: nat)
    ensures Collected([], n, [], [])
  {
  }

  lemma CollectedAll(ts: seq<Tuple>, n: nat, full: seq<seq<Tuple>>, batch: seq<Tuple>)
    requires Collected(ts, n, full, batch)
    ensures Batches(ts, n) == full + Rest(batch)
  {
  }

  lemma CollectOne(ts: seq<Tuple>, n: nat, full: seq<seq<Tuple>>, batch: seq<Tuple>, t: Tuple)
    requires Collected(ts, n, full, batch)
    ensures if |batch| + 1 >= n then Collected(ts + [t], n, full + [batch + [t]], []) else Collected(ts + [t], n, full, batch + [t])
  {
    assert (ts + [t])[..|ts|] == ts;
    assert Batches(ts + [t], n) == AddTo(full + Rest(batch), t, n);
    if |batch| > 0 {
      assert (full + [batch])[..|full|] == full;
      assert AddTo(full + [batch], t, n) == full + [batch + [t]];
    } else {
      assert full + [] == full && batch + [t] == [t];
    }
  }

  /**
   The loop of `processLogs`: `batches` is what it sends to the state machine
   thread, `answered` the answers once it has given its own.
   */
  method ApplyAll(g: Settings, logs: map<nat, Log>, futures: map<nat, Future>, lastApplied: nat, index: nat, answers: map<FutureId, Answer>)
    returns (batches: seq<seq<Tuple>>, answered: map<FutureId, Answer>)
    requires Found(logs, futures, lastApplied, index) && lastApplied < index
    ensures batches == Batches(Prepared(g.version, logs, futures, lastApplied, index), g.maxAppend)
    ensures answered == HiddenAnswered(g.version, logs, futures, lastApplied, index, answers)
  {
    hide Batches, Collected, Respond;
    batches, answered := [], answers;
    var batch: seq<Tuple> := [];
    ghost var ts: seq<Tuple> := [];
    CollectNone(g.maxAppend);
    var idx := lastApplied + 1;
    while idx <= index
      invariant lastApplied < idx <= index + 1
      invariant ts == Prepared(g.version, logs, futures, lastApplied, idx - 1)
      invariant Collected(ts, g.maxAppend, batches, batch)
      invariant answered == HiddenAnswered(g.version, logs, futures, lastApplied, idx - 1, answers)
    {
      var l := if idx in futures then futures[idx].log else logs[idx];
      if Shown(g.version, l) {
        var t := Tuple(l, if idx in futures then Some(futures[idx].id) else None);
        CollectOne(ts, g.maxAppend, batches, batch, t);
        ts := ts + [t];
        batch := batch + [t];
        if |batch| >= g.maxAppend {
          batches := batches + [batch];
          batch := [];
        }
      } else if idx in futures {
        answered := Respond(answered, futures[idx].id, Success);
      }
      idx := idx + 1;
    }
    CollectedAll(ts, g.maxAppend, batches, batch);
    if |batch| != 0 {
      batches := batches + [batch];
    }
  }

  // ---------------------------------------------------------------------
  // The steps
  // ---------------------------------------------------------------------

  /**
   The part of a server between its log and its state machine thread.
   `serving` is the role Leader, `tenure` lasts until `runLeader` has returned.
   `dispatched`, `base` and `sent` only record what happened: the entry of every
   dispatched future, the index of the last restore and all batches since.
   */
  datatype Pipe = Pipe(
    log: map<nat, Log>,
    lastLog: nat,
    lastApplied: nat,
    commit: nat,
    queue: seq<seq<Tuple>>,
    inflight: seq<Future>,
    answers: map<FutureId, Answer>,
    serving: bool,
    tenure: bool,
    dispatched: map<FutureId, Log>,
    base: nat,
    sent: seq<seq<Tuple>>)

  function RespondAll(answers: map<FutureId, Answer>, fs: seq<Future>, a: Answer): map<FutureId, Answer> {
    if |fs| == 0 then answers else Respond(RespondAll(answers, fs[..|fs| - 1], a), fs[|fs| - 1].id, a)
  }

  /** `processLogs` */
  ghost function Processed(g: Settings, p: Pipe, index: nat, futures: map<nat, Future>): Pipe
    requires Found(p.log, futures, p.lastApplied, index)
  {
    if index <= p.lastApplied then p
    else
      var bs := Batches(Prepared(g.version, p.log, futures, p.lastApplied, index), g.maxAppend);
      p.(queue := p.queue + bs, sent := p.sent + bs, lastApplied := index,
         answers := HiddenAnswered(g.version, p.log, futures, p.lastApplied, index, p.answers))
  }

  /** The futures of a group, by index. */
  function Group(fs: seq<Future>): map<nat, Future> {
    if |fs| == 0 then map[] else Group(fs[..|fs| - 1])[fs[|fs| - 1].log.index := fs[|fs| - 1]]
  }

  /** How many futures at the front of the queue are committed. */
  function Ready(fs: seq<Future>, commit: nat): (k: nat)
    ensures k <= |fs|
    ensures forall j :: 0 <= j < k ==> fs[j].log.index <= commit
    ensures k < |fs| ==> fs[k].log.index > commit
  {
    if |fs| == 0 || fs[0].log.index > commit then 0
    else
      var k := Ready(fs[1..], commit);
      assert forall j :: 0 < j <= k ==> fs[j] == fs[1..][j - 1];
      1 + k
  }

  /** The commit case of `leaderLoop`. */
  ghost function CommittedTo(g: Settings, p: Pipe, commit: nat): Pipe
    requires var k := Ready(p.inflight, commit);
             k > 0 ==> Found(p.log, Group(p.inflight[..k]), p.lastApplied, p.inflight[k - 1].log.index)
  {
    var k := Ready(p.inflight, commit);
    if k == 0 then p.(commit := commit)
    else Processed(g, p.(commit := commit), p.inflight[k - 1].log.index, Group(p.inflight[..k])).(inflight := p.inflight[k..])
  }

  /** What a client hands in. */
  datatype Request = Request(id: FutureId, kind: LogType, data: int)

  /** The futures of the requests, with the next indexes and the leader's term. */
  function Stamped(rs: seq<Request>, lastLog: nat, term: nat): seq<Future> {
    seq(|rs|, j requires 0 <= j < |rs| => Future(rs[j].id, Log(lastLog + 1 + j, term, rs[j].kind, rs[j].data)))
  }

  function WithEntries(log: map<nat, Log>, fs: seq<Future>): map<nat, Log> {
    if |fs| == 0 then log else WithEntries(log, fs[..|fs| - 1])[fs[|fs| - 1].log.index := fs[|fs| - 1].log]
  }

  ghost function Recorded(dispatched: map<FutureId, Log>, fs: seq<Future>): map<FutureId, Log> {
    if |fs| == 0 then dispatched else Recorded(dispatched, fs[..|fs| - 1])[fs[|fs| - 1].id := fs[|fs| - 1].log]
  }

  /** `dispatchLogs`; `ok` is whether the store took the entries. */
  ghost function DispatchedTo(p: Pipe, term: nat, rs: seq<Request>, ok: bool): Pipe {
    var fs := Stamped(rs, p.lastLog, term);
    var q := p.(inflight := p.inflight + fs, dispatched := Recorded(p.dispatched, fs));
    if ok then q.(log := WithEntries(p.log, fs), lastLog := p.lastLog + |rs|)
    else q.(answers := RespondAll(p.answers, fs, StoreFailed), serving := false)
  }

  /** `restoreUserSnapshot` first cancels what is in flight. */
  ghost function Aborted(p: Pipe): Pipe {
    p.(answers := RespondAll(p.answers, p.inflight, AbortedByRestore), inflight := [])
  }

  /** The index `restoreUserSnapshot` burns. */
  function Burnt(lastLog: nat, metaIndex: nat): nat {
    (if metaIndex > lastLog then metaIndex else lastLog) + 1
  }

  /** Then, once the state machine has taken the snapshot, it burns an index. */
  ghost function BurntTo(p: Pipe, metaIndex: nat): Pipe {
    var h := Burnt(p.lastLog, metaIndex);
    p.(lastLog := h, lastApplied := h, base := h, sent := [])
  }

  /** The end of `runLeader`. */
  ghost function SteppedDown(p: Pipe): Pipe {
    p.(answers := RespondAll(p.answers, p.inflight, LeadershipLost), inflight := [], serving := false, tenure := false)
  }

  /** The futures of a batch, answered by the state machine thread. */
  function Answered(answers: map<FutureId, Answer>, batch: seq<Tuple>): map<FutureId, Answer> {
    if |batch| == 0 then answers
    else
      var before := Answered(answers, batch[..|batch| - 1]);
      var t := batch[|batch| - 1];
      if t.future.Some? then Respond(before, t.future.value, Success) else before
  }

  /** The state machine thread has worked through the oldest batch. */
  ghost function Drained(p: Pipe): Pipe
    requires |p.queue| > 0
  {
    p.(answers := Answered(p.answers, p.queue[0]), queue := p.queue[1..])
  }

  // ---------------------------------------------------------------------
  // The program
  // ---------------------------------------------------------------------

  /** The loop of `dispatchLogs`: the futures with their entries, and the log with those stored. */
  method Stamp(applyLogs: seq<Request>, logs: map<nat, Log>, lastLog: nat, term: nat)
    returns (fs: seq<Future>, logs': map<nat, Log>, lastIndex: nat)
    ensures fs == Stamped(applyLogs, lastLog, term) && logs' == WithEntries(logs, fs) && lastIndex == lastLog + |applyLogs|
  {
    fs, logs', lastIndex := [], logs, lastLog;
    for k := 0 to |applyLogs|
      invariant lastIndex == lastLog + k && fs == Stamped(applyLogs, lastLog, term)[..k] && logs' == WithEntries(logs, fs)
    {
      lastIndex := lastIndex + 1;
      var f := Future(applyLogs[k].id, Log(lastIndex, term, applyLogs[k].kind, applyLogs[k].data));
      assert (fs + [f])[..|fs|] == fs;
      fs := fs + [f];
      logs' := logs'[lastIndex := f.log];
    }
  }

  /** The loop of the commit case: the committed futures at the front of the queue. */
  method PullReady(inflight: seq<Future>, commit: nat) returns (k: nat, group: map<nat, Future>)
    ensures k == Ready(inflight, commit) && group == Group(inflight[..k])
  {
    k, group := 0, map[];
    while k < |inflight| && inflight[k].log.index <= commit
      invariant k <= Ready(inflight, commit) && group == Group(inflight[..k])
    {
      assert inflight[..k + 1][..k] == inflight[..k];
      group := group[inflight[k].log.index := inflight[k]];
      k := k + 1;
    }
  }

  // ---------------------------------------------------------------------
  // The server
  // ---------------------------------------------------------------------

  class Pipeline {
    const settings: Settings
    var term: nat
    var logs: map<nat, Log>
    var lastLog: nat
    var lastApplied: nat
    var commitIndex: nat
    var fsmMutateCh: seq<seq<Tuple>>
    var inflight: seq<Future>
    var answers: map<FutureId, Answer>
    var leader: bool
    ghost var tenure: bool
    ghost var dispatched: map<FutureId, Log>
    ghost var base: nat
    ghost var sent: seq<seq<Tuple>>

    ghost function View(): Pipe
      reads this
    {
      Pipe(logs, lastLog, lastApplied, commitIndex, fsmMutateCh, inflight, answers, leader, tenure, dispatched, base, sent)
    }

    constructor (settings: Settings)
      ensures this.settings == settings
      ensures View() == Pipe(map[], 0, 0, 0, [], [], map[], false, false, map[], 0, [])
    {
      this.settings := settings;
      term, logs, lastLog, lastApplied, commitIndex := 0, map[], 0, 0, 0;
      fsmMutateCh, inflight, answers, leader := [], [], map[], false;
      tenure, dispatched, base, sent := false, map[], 0, [];
    }

    /** `processLogs` */
    method ProcessLogs(index: nat, futures: map<nat, Future>)
      requires Found(logs, futures, lastApplied, index)
      modifies this
      ensures View() == Processed(settings, old(View()), index, futures) && term == old(term)
    {
      if index <= lastApplied { return; }
      var batches;
      batches, answers := ApplyAll(settings, logs, futures, lastApplied, index, answers);
      fsmMutateCh := fsmMutateCh + batches;
      sent := sent + batches;
      lastApplied := index;
    }

    /** `dispatchLogs` */
    method DispatchLogs(applyLogs: seq<Request>, ok: bool)
      modifies this
      ensures View() == DispatchedTo(old(View()), term, applyLogs, ok) && term == old(term)
    {
      hide RespondAll, WithEntries, Recorded;
      var fs, logs', lastIndex := Stamp(applyLogs, logs, lastLog, term);
      inflight := inflight + fs;
      dispatched := Recorded(dispatched, fs);
      if !ok {
        RespondTo(fs, StoreFailed);
        leader := false;
        return;
      }
      logs, lastLog := logs', lastIndex;
    }

    method RespondTo(fs: seq<Future>, a: Answer)
      modifies this`answers
      ensures answers == RespondAll(old(answers), fs, a)
    {
      for k := 0 to |fs|
        invariant answers == RespondAll(old(answers), fs[..k], a)
      {
        assert fs[..k + 1][..k] == fs[..k];
        answers := Respond(answers, fs[k].id, a);
      }
      assert fs[..|fs|] == fs;
    }

    /** The commit case of `leaderLoop`. */
    method Commit(commit: nat)
      requires var k := Ready(inflight, commit);
               k > 0 ==> Found(logs, Group(inflight[..k]), lastApplied, inflight[k - 1].log.index)
      modifies this
      ensures View() == CommittedTo(settings, old(View()), commit) && term == old(term)
    {
      hide Prepared, HiddenAnswered, Batches, Group;
      commitIndex := commit;
      var groupReady, groupFutures := PullReady(inflight, commit);
      if groupReady != 0 {
        ProcessLogs(inflight[groupReady - 1].log.index, groupFutures);
        inflight := inflight[groupReady..];
      }
    }

    /** The first loop of `restoreUserSnapshot`: the front of the queue, until it is empty. */
    method AbortInflight()
      modifies this
      ensures View() == Aborted(old(View())) && term == old(term)
    {
      ghost var k := 0;
      while |inflight| > 0
        invariant k <= |old(inflight)| && inflight == old(inflight)[k..]
        invariant answers == RespondAll(old(answers), old(inflight)[..k], AbortedByRestore)
        invariant View() == old(View()).(inflight := inflight, answers := answers) && term == old(term)
        decreases |inflight|
      {
        assert old(inflight)[..k + 1][..k] == old(inflight)[..k];
        answers := Respond(answers, inflight[0].id, AbortedByRestore);
        inflight := inflight[1..];
        k := k + 1;
      }
      assert old(inflight)[..k] == old(inflight);
    }

    /** The end of `restoreUserSnapshot`. */
    method BurnIndex(metaIndex: nat)
      modifies this
      ensures View() == BurntTo(old(View()), metaIndex) && term == old(term)
      ensures lastLog > old(lastLog) && lastLog > metaIndex && (lastLog == old(lastLog) + 1 || lastLog == metaIndex + 1)
    {
      var lastIndex := lastLog;
      if metaIndex > lastIndex { lastIndex := metaIndex; }
      lastIndex := lastIndex + 1;
      lastLog, lastApplied := lastIndex, lastIndex;
      base, sent := lastIndex, [];
    }

    /** The deferred end of `runLeader`. */
    method StepDown()
      modifies this
      ensures View() == SteppedDown(old(View())) && term == old(term)
    {
      RespondTo(inflight, LeadershipLost);
      inflight, leader, tenure := [], false, false;
    }
  }
}
