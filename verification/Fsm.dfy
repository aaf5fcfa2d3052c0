/**
 The state machine thread (fsm.go): entries one by one or in batches, snapshots
 and restores.
 */
module Fsm {
  import opened Wrappers
  import opened Logs
  import opened Apply

  /**
   What the application supplies: `Apply`, and if it has them `StoreConfiguration`
   and `ApplyBatch`; a reply is None where the program answers nil.
   */
  datatype Machine<!S, !R> = Machine(
    apply: (S, Log) -> (S, R),
    store: Option<(S, Log) -> S>,
    batch: Option<(S, seq<Log>) -> (S, seq<Option<R>>)>)

  /** The variables of `runFSM`, the application's state and the replies given to futures. */
  datatype Runner<S, R> = Runner(state: S, lastIndex: nat, lastTerm: nat, replies: map<FutureId, Option<R>>)

  function Replied<R>(replies: map<FutureId, Option<R>>, t: Tuple, reply: Option<R>): map<FutureId, Option<R>> {
    if t.future.Some? then replies[t.future.value := reply] else replies
  }

  /** What one entry does to the application: its next state and its reply. */
  function Effect<S, R>(m: Machine<S, R>, s: S, l: Log): (S, Option<R>) {
    match l.kind
    case Command => (m.apply(s, l).0, Some(m.apply(s, l).1))
    case Configuration => (if m.store.Some? then m.store.value(s, l) else s, None)
    case _ => (s, None)
  }

  /** `applySingle`: a configuration nobody stores does not move lastIndex. */
  function Single<S, R>(m: Machine<S, R>, f: Runner<S, R>, t: Tuple): Runner<S, R> {
    var (s, reply) := Effect(m, f.state, t.log);
    if t.log.kind == Configuration && m.store.None? then f.(replies := Replied(f.replies, t, None))
    else Runner(s, t.log.index, t.log.term, Replied(f.replies, t, reply))
  }

  function Singles<S, R>(m: Machine<S, R>, f: Runner<S, R>, ts: seq<Tuple>): Runner<S, R> {
    if |ts| == 0 then f else Single(m, Singles(m, f, ts[..|ts| - 1]), ts[|ts| - 1])
  }

  /** `shouldSend` */
  predicate Sent(l: Log) {
    l.kind == Command || l.kind == Configuration
  }

  function SentOf(ts: seq<Tuple>): (ls: seq<Log>)
    ensures forall l :: l in ls ==> Sent(l)
  {
    if |ts| == 0 then []
    else SentOf(ts[..|ts| - 1]) + if Sent(ts[|ts| - 1].log) then [ts[|ts| - 1].log] else []
  }

  /** The last loop of `applyBatch`: the responses in order to the futures of sent entries, nil to the others. */
  function Dealt<R>(replies: map<FutureId, Option<R>>, ts: seq<Tuple>, responses: seq<Option<R>>): map<FutureId, Option<R>>
    requires |responses| == |SentOf(ts)|
  {
    if |ts| == 0 then replies
    else
      var t := ts[|ts| - 1];
      if Sent(t.log) then
        var k := |responses| - 1;
        Replied(Dealt(replies, ts[..|ts| - 1], responses[..k]), t, responses[k])
      else Replied(Dealt(replies, ts[..|ts| - 1], responses), t, None)
  }

  /** What `ApplyBatch` gave: nothing is called for an empty batch. */
  function Called<S, R>(m: Machine<S, R>, s: S, ls: seq<Log>): (S, seq<Option<R>>)
    requires m.batch.Some?
  {
    if |ls| == 0 then (s, []) else m.batch.value(s, ls)
  }

  /** `applyBatch` with a batching state machine; it panics on a wrong number of responses. */
  function Batched<S, R>(m: Machine<S, R>, f: Runner<S, R>, ts: seq<Tuple>): Runner<S, R>
    requires m.batch.Some? && |Called(m, f.state, SentOf(ts)).1| == |SentOf(ts)|
  {
    var (s, responses) := Called(m, f.state, SentOf(ts));
    Runner(s, if |ts| == 0 then 0 else ts[|ts| - 1].log.index, if |ts| == 0 then 0 else ts[|ts| - 1].log.term,
           Dealt(f.replies, ts, responses))
  }

  // ---------------------------------------------------------------------
  // Batches refine single entries
  // ---------------------------------------------------------------------

  function Fold<S, R>(m: Machine<S, R>, s: S, ls: seq<Log>): (S, seq<Option<R>>) {
    if |ls| == 0 then (s, [])
    else
      var before := Fold(m, s, ls[..|ls| - 1]);
      var (s', reply) := Effect(m, before.0, ls[|ls| - 1]);
      (s', before.1 + [reply])
  }

  /** `ApplyBatch` is `Apply` over the commands, and answers nil for a configuration. */
  ghost predicate Folds<S(!new), R(!new)>(m: Machine<S, R>) {
    m.batch.Some? && forall s: S, ls: seq<Log> :: |ls| > 0 && (forall l :: l in ls ==> Sent(l)) ==> m.batch.value(s, ls) == Fold(m, s, ls)
  }

  lemma CalledIsFold<S(!new), R(!new)>(m: Machine<S, R>, s: S, ls: seq<Log>)
    requires Folds(m) && forall l :: l in ls ==> Sent(l)
    ensures Called(m, s, ls) == Fold(m, s, ls) && |Fold(m, s, ls).1| == |ls|
  {
    FoldLength(m, s, ls);
  }

  lemma {:induction false} FoldLength<S, R>(m: Machine<S, R>, s: S, ls: seq<Log>)
    ensures |Fold(m, s, ls).1| == |ls|
  {
    if |ls| > 0 { FoldLength(m, s, ls[..|ls| - 1]); }
  }

  /** One by one: the state and the replies are those of the fold over the sent entries. */
  lemma {:induction false} SinglesFold<S, R>(m: Machine<S, R>, f: Runner<S, R>, ts: seq<Tuple>)
    ensures |Fold(m, f.state, SentOf(ts)).1| == |SentOf(ts)|
    ensures Singles(m, f, ts).state == Fold(m, f.state, SentOf(ts)).0
    ensures Singles(m, f, ts).replies == Dealt(f.replies, ts, Fold(m, f.state, SentOf(ts)).1)
  {
    FoldLength(m, f.state, SentOf(ts));
    if |ts| > 0 {
      var init, t := ts[..|ts| - 1], ts[|ts| - 1];
      SinglesFold(m, f, init);
      var ls := SentOf(ts);
      if Sent(t.log) {
        assert ls[..|ls| - 1] == SentOf(init);
        var responses := Fold(m, f.state, ls).1;
        assert responses[..|responses| - 1] == Fold(m, f.state, SentOf(init)).1;
      } else {
        assert ls == SentOf(init);
      }
    }
  }

  /** Batch apply refines single apply, for every mix of commands, barriers and configurations. */
  lemma BatchRefinesSingle<S(!new), R(!new)>(m: Machine<S, R>, f: Runner<S, R>, ts: seq<Tuple>)
    requires Folds(m)
    ensures |Called(m, f.state, SentOf(ts)).1| == |SentOf(ts)|
    ensures Batched(m, f, ts).state == Singles(m, f, ts).state
    ensures Batched(m, f, ts).replies == Singles(m, f, ts).replies
  {
    CalledIsFold(m, f.state, SentOf(ts));
    SinglesFold(m, f, ts);
  }

  ghost predicate Rising(f: nat, ts: seq<Tuple>) {
    && (forall i :: 0 <= i < |ts| ==> f < ts[i].log.index)
    && (forall i, j :: 0 <= i < j < |ts| ==> ts[i].log.index < ts[j].log.index)
  }

  lemma {:induction false} SinglesLast<S, R>(m: Machine<S, R>, f: Runner<S, R>, ts: seq<Tuple>)
    requires Rising(f.lastIndex, ts)
    ensures f.lastIndex <= Singles(m, f, ts).lastIndex
    ensures |ts| > 0 ==> Singles(m, f, ts).lastIndex <= ts[|ts| - 1].log.index
    ensures |ts| > 0 && !(ts[|ts| - 1].log.kind == Configuration && m.store.None?) ==>
              Singles(m, f, ts).lastIndex == ts[|ts| - 1].log.index && Singles(m, f, ts).lastTerm == ts[|ts| - 1].log.term
    ensures |ts| > 0 && ts[|ts| - 1].log.kind == Configuration && m.store.None? ==> Singles(m, f, ts).lastIndex < ts[|ts| - 1].log.index
  {
    if |ts| > 0 {
      SinglesLast(m, f, ts[..|ts| - 1]);
      assert |ts| > 1 ==> ts[..|ts| - 1][|ts| - 2] == ts[|ts| - 2];
    }
  }

  /**
   The index a snapshot would get: the two ways agree on it if and only if the
   batch does not end in a configuration that nobody stores. (An empty batch
   would set it to 0; none is ever sent.)
   */
  lemma LastIndexAgrees<S(!new), R(!new)>(m: Machine<S, R>, f: Runner<S, R>, ts: seq<Tuple>)
    requires Folds(m) && |ts| > 0 && Rising(f.lastIndex, ts)
    ensures |Called(m, f.state, SentOf(ts)).1| == |SentOf(ts)|
    ensures Batched(m, f, ts) == Singles(m, f, ts) <==> m.store.Some? || ts[|ts| - 1].log.kind != Configuration
  {
    BatchRefinesSingle(m, f, ts);
    SinglesLast(m, f, ts);
  }

  // ---------------------------------------------------------------------
  // The thread
  // ---------------------------------------------------------------------

  class Thread<S, R> {
    const m: Machine<S, R>
    var state: S
    var lastIndex: nat
    var lastTerm: nat
    var replies: map<FutureId, Option<R>>

    ghost function View(): Runner<S, R>
      reads this
    {
      Runner(state, lastIndex, lastTerm, replies)
    }

    constructor (m: Machine<S, R>, state: S)
      ensures this.m == m && View() == Runner(state, 0, 0, map[])
    {
      this.m, this.state, lastIndex, lastTerm, replies := m, state, 0, 0, map[];
    }

    /** The deferred answer of `applySingle`. */
    method Reply(t: Tuple, reply: Option<R>)
      modifies this`replies
      ensures replies == Replied(old(replies), t, reply)
    {
      if t.future.Some? { replies := replies[t.future.value := reply]; }
    }

    /** `applySingle` */
    method ApplySingle(req: Tuple)
      modifies this
      ensures View() == Single(m, old(View()), req)
    {
      var resp: Option<R> := None;
      match req.log.kind {
        case Command =>
          var (s, r) := m.apply(state, req.log);
          state, resp := s, Some(r);
        case Configuration =>
          if m.store.None? {
            Reply(req, resp);
            return;
          }
          state := m.store.value(state, req.log);
        case _ =>
      }
      lastIndex, lastTerm := req.log.index, req.log.term;
      Reply(req, resp);
    }

    /** `applyBatch` */
    method ApplyBatch(reqs: seq<Tuple>)
      requires m.batch.Some? ==> |Called(m, state, SentOf(reqs)).1| == |SentOf(reqs)|
      modifies this
      ensures View() == if m.batch.None? then Singles(m, old(View()), reqs) else Batched(m, old(View()), reqs)
    {
      if m.batch.None? {
        for k := 0 to |reqs|
          invariant View() == Singles(m, old(View()), reqs[..k])
        {
          assert reqs[..k + 1][..k] == reqs[..k];
          ApplySingle(reqs[k]);
        }
        assert reqs[..|reqs|] == reqs;
        return;
      }
      var sendLogs, lastBatchIndex, lastBatchTerm := CollectSent(reqs);
      var responses: seq<Option<R>> := [];
      if |sendLogs| > 0 {
        var (s, rs) := m.batch.value(state, sendLogs);
        state, responses := s, rs;
      }
      lastIndex, lastTerm := lastBatchIndex, lastBatchTerm;
      Deal(reqs, responses);
    }

    /** The last loop of `applyBatch`. */
    method Deal(reqs: seq<Tuple>, responses: seq<Option<R>>)
      requires |responses| == |SentOf(reqs)|
      modifies this`replies
      ensures replies == Dealt(old(replies), reqs, responses)
    {
      var i := 0;
      for k := 0 to |reqs|
        invariant i == |SentOf(reqs[..k])| <= |responses|
        invariant replies == Dealt(old(replies), reqs[..k], responses[..i])
      {
        SentSoFar(reqs, k);
        assert reqs[..k + 1][..k] == reqs[..k];
        if Sent(reqs[k].log) {
          assert responses[..i + 1][..i] == responses[..i];
          Reply(reqs[k], responses[i]);
          i := i + 1;
        } else {
          Reply(reqs[k], None);
        }
      }
      assert reqs[..|reqs|] == reqs && responses[..i] == responses;
    }
  }

  /** The first loop of `applyBatch`. */
  method CollectSent(reqs: seq<Tuple>) returns (sendLogs: seq<Log>, lastBatchIndex: nat, lastBatchTerm: nat)
    ensures sendLogs == SentOf(reqs)
    ensures lastBatchIndex == if |reqs| == 0 then 0 else reqs[|reqs| - 1].log.index
    ensures lastBatchTerm == if |reqs| == 0 then 0 else reqs[|reqs| - 1].log.term
  {
    sendLogs, lastBatchIndex, lastBatchTerm := [], 0, 0;
    for k := 0 to |reqs|
      invariant sendLogs == SentOf(reqs[..k])
      invariant lastBatchIndex == if k == 0 then 0 else reqs[k - 1].log.index
      invariant lastBatchTerm == if k == 0 then 0 else reqs[k - 1].log.term
    {
      assert reqs[..k + 1][..k] == reqs[..k];
      if Sent(reqs[k].log) { sendLogs := sendLogs + [reqs[k].log]; }
      lastBatchIndex, lastBatchTerm := reqs[k].log.index, reqs[k].log.term;
    }
    assert reqs[..|reqs|] == reqs;
  }

  lemma {:induction false} SentSoFar(ts: seq<Tuple>, k: nat)
    requires k < |ts|
    ensures |SentOf(ts[..k + 1])| == |SentOf(ts[..k])| + (if Sent(ts[k].log) then 1 else 0) <= |SentOf(ts)|
    decreases |ts|
  {
    assert ts[..k + 1][..k] == ts[..k];
    if k + 1 == |ts| {
      assert ts[..k + 1] == ts;
    } else {
      var init := ts[..|ts| - 1];
      SentSoFar(init, k);
      assert init[..k + 1] == ts[..k + 1] && init[..k] == ts[..k];
    }
  }
}
