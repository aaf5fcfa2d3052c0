/**
 What reaches the application and its clients (fsm.go, raft.go): the state and
 the replies in terms of the application's own calls, the entries in terms of
 the clients' requests.
 */
module Application {
  import opened Wrappers
  import opened Logs
  import opened Apply
  import opened Fsm
  import opened Futures
  import opened Snapshots

  // ---------------------------------------------------------------------
  // The calls
  // ---------------------------------------------------------------------

  /** `Apply` for each command and `StoreConfiguration`, where there is one, for each configuration, in order. */
  function Driven<S, R>(m: Machine<S, R>, s: S, ls: seq<Log>): S {
    if |ls| == 0 then s
    else if ls[0].kind == Command then Driven(m, m.apply(s, ls[0]).0, ls[1..])
    else if ls[0].kind == Configuration && m.store.Some? then Driven(m, m.store.value(s, ls[0]), ls[1..])
    else Driven(m, s, ls[1..])
  }

  function CommandsOf(ls: seq<Log>): seq<Log> {
    if |ls| == 0 then []
    else (if ls[0].kind == Command then [ls[0]] else []) + CommandsOf(ls[1..])
  }

  /** `Apply` for one command after the other. */
  function AppliedAll<S, R>(m: Machine<S, R>, s: S, commands: seq<Log>): S {
    if |commands| == 0 then s else AppliedAll(m, m.apply(s, commands[0]).0, commands[1..])
  }

  /** An application that stores no configurations sees its commands and nothing else. */
  lemma {:induction false} OnlyCommands<S, R>(m: Machine<S, R>, s: S, ls: seq<Log>)
    requires m.store.None?
    ensures Driven(m, s, ls) == AppliedAll(m, s, CommandsOf(ls))
    decreases |ls|
  {
    if |ls| > 0 {
      var rest := CommandsOf(ls[1..]);
      if ls[0].kind == Command {
        OnlyCommands(m, m.apply(s, ls[0]).0, ls[1..]);
        assert CommandsOf(ls)[1..] == rest;
      } else {
        OnlyCommands(m, s, ls[1..]);
        assert CommandsOf(ls) == rest;
      }
    }
  }

  lemma {:induction false} DrivenConcat<S, R>(m: Machine<S, R>, s: S, a: seq<Log>, b: seq<Log>)
    ensures Driven(m, s, a + b) == Driven(m, Driven(m, s, a), b)
    decreases |a|
  {
    if |a| == 0 {
      assert a + b == b;
    } else {
      assert (a + b)[0] == a[0] && (a + b)[1..] == a[1..] + b;
      var s' := if a[0].kind == Command then m.apply(s, a[0]).0
                else if a[0].kind == Configuration && m.store.Some? then m.store.value(s, a[0]) else s;
      DrivenConcat(m, s', a[1..], b);
    }
  }

  // ---------------------------------------------------------------------
  // The thread
  // ---------------------------------------------------------------------

  lemma DrivenLast<S, R>(m: Machine<S, R>, s: S, ls: seq<Log>)
    requires |ls| > 0
    ensures Driven(m, s, ls) == Driven(m, Driven(m, s, ls[..|ls| - 1]), [ls[|ls| - 1]])
  {
    DrivenConcat(m, s, ls[..|ls| - 1], [ls[|ls| - 1]]);
    assert ls == ls[..|ls| - 1] + [ls[|ls| - 1]];
  }

  lemma DrivenOne<S, R>(m: Machine<S, R>, s: S, l: Log)
    ensures Driven(m, s, [l]) == if l.kind == Command then m.apply(s, l).0
                                 else if l.kind == Configuration && m.store.Some? then m.store.value(s, l) else s
  {
    assert [l][1..] == [];
  }

  /** The state after any tuples is the application's after its calls for them. */
  lemma {:induction false} StateIsDriven<S, R>(m: Machine<S, R>, f: Runner<S, R>, ts: seq<Tuple>)
    ensures Singles(m, f, ts).state == Driven(m, f.state, Items(ts))
    decreases |ts|
  {
    if |ts| > 0 {
      var init, t := ts[..|ts| - 1], ts[|ts| - 1];
      StateIsDriven(m, f, init);
      assert Items(ts)[..|ts| - 1] == Items(init);
      DrivenLast(m, f.state, Items(ts));
      DrivenOne(m, Driven(m, f.state, Items(init)), t.log);
    }
  }

  /** What the one who waits for a tuple is answered. */
  function ReplyTo<S, R>(m: Machine<S, R>, s: S, ts: seq<Tuple>, k: nat): Option<R>
    requires k < |ts|
  {
    if ts[k].log.kind == Command then Some(m.apply(Driven(m, s, Items(ts[..k])), ts[k].log).1) else None
  }

  /** One tuple answers its own future and no other. */
  lemma SingleReplies<S, R>(m: Machine<S, R>, f: Runner<S, R>, t: Tuple)
    ensures var replies := Single(m, f, t).replies;
            && (t.future.Some? ==> replies == f.replies[t.future.value := if t.log.kind == Command then Some(m.apply(f.state, t.log).1) else None])
            && (t.future.None? ==> replies == f.replies)
  {
  }

  /**
   Every future gets what `Apply` returned for its command, called in the state
   that the calls before it left, and nil for an entry that is no command.
   */
  lemma {:induction false} ReplyIsDriven<S, R>(m: Machine<S, R>, f: Runner<S, R>, ts: seq<Tuple>, k: nat)
    requires k < |ts| && ts[k].future.Some? && forall j :: k < j < |ts| ==> ts[j].future != ts[k].future
    ensures var replies := Singles(m, f, ts).replies;
            ts[k].future.value in replies && replies[ts[k].future.value] == ReplyTo(m, f.state, ts, k)
    decreases |ts|
  {
    hide Single, Driven;
    var init, t := ts[..|ts| - 1], ts[|ts| - 1];
    SingleReplies(m, Singles(m, f, init), t);
    if k < |init| {
      ReplyIsDriven(m, f, init, k);
      assert init[..k] == ts[..k];
    } else {
      StateIsDriven(m, f, init);
      assert ts[..k] == init;
    }
  }

  /** No other future hears anything. */
  lemma {:induction false} OthersHearNothing<S, R>(m: Machine<S, R>, f: Runner<S, R>, ts: seq<Tuple>, id: FutureId)
    requires forall k :: 0 <= k < |ts| ==> ts[k].future != Some(id)
    ensures var replies := Singles(m, f, ts).replies;
            (id in replies <==> id in f.replies) && (id in replies ==> replies[id] == f.replies[id])
    decreases |ts|
  {
    hide Single;
    if |ts| > 0 {
      var init, t := ts[..|ts| - 1], ts[|ts| - 1];
      OthersHearNothing(m, f, init, id);
      SingleReplies(m, Singles(m, f, init), t);
    }
  }

  /** In batches too. */
  lemma BatchIsDriven<S(!new), R(!new)>(m: Machine<S, R>, f: Runner<S, R>, ts: seq<Tuple>, k: nat)
    requires Folds(m) && k < |ts| && ts[k].future.Some? && forall j :: k < j < |ts| ==> ts[j].future != ts[k].future
    ensures |Called(m, f.state, SentOf(ts)).1| == |SentOf(ts)|
    ensures Batched(m, f, ts).state == Driven(m, f.state, Items(ts))
    ensures var replies := Batched(m, f, ts).replies;
            ts[k].future.value in replies && replies[ts[k].future.value] == ReplyTo(m, f.state, ts, k)
  {
    BatchRefinesSingle(m, f, ts);
    StateIsDriven(m, f, ts);
    ReplyIsDriven(m, f, ts, k);
  }

  // ---------------------------------------------------------------------
  // The log
  // ---------------------------------------------------------------------

  /** All entries after `lo` up to `hi`. */
  ghost function Entries(log: map<nat, Log>, lo: nat, hi: nat): seq<Log>
    requires forall i :: lo < i <= hi ==> i in log
    decreases hi
  {
    if hi <= lo then [] else Entries(log, lo, hi - 1) + [log[hi]]
  }

  /** The application as protocol versions up to 2 drive it. */
  function Old<S, R>(m: Machine<S, R>, version: nat): Machine<S, R> {
    if version > 2 then m else m.(store := None)
  }

  lemma {:induction false} VisibleDrives<S, R>(m: Machine<S, R>, s: S, version: nat, log: map<nat, Log>, hi: nat)
    requires forall i :: 0 < i <= hi ==> i in log
    ensures Driven(m, s, Visible(version, log, 0, hi)) == Driven(Old(m, version), s, Entries(log, 0, hi))
    decreases hi
  {
    if hi > 0 {
      VisibleDrives(m, s, version, log, hi - 1);
      var before, l := Visible(version, log, 0, hi - 1), log[hi];
      DrivenConcat(m, s, before, [l]);
      DrivenConcat(Old(m, version), s, Entries(log, 0, hi - 1), [l]);
      DrivenOne(m, Driven(m, s, before), l);
      DrivenOne(Old(m, version), Driven(m, s, before), l);
      assert Visible(version, log, 0, hi) == before || Visible(version, log, 0, hi) == before + [l];
    }
  }

  lemma {:induction false} ReplayIsDriven<S, R>(m: Machine<S, R>, s: S, ls: seq<Log>)
    ensures Replay(m, s, ls) == Driven(m, s, ls)
    decreases |ls|
  {
    if |ls| > 0 {
      ReplayIsDriven(m, s, ls[..|ls| - 1]);
      DrivenLast(m, s, ls);
      DrivenOne(m, Driven(m, s, ls[..|ls| - 1]), ls[|ls| - 1]);
    }
  }

  /**
   The state that replaying the log gives is that of the application's calls for
   all of its entries: every command, in order, and every configuration where
   they are stored and the protocol version shows them.
   */
  lemma StateAtIsDriven<S(!new), R(!new), D>(w: World<S, R, D>, k: nat)
    requires Sound(w) && k <= w.n
    ensures StateAt(w, k) == Driven(Old(w.m, w.version), w.init, Entries(w.log, 0, k))
    ensures w.m.store.None? ==> StateAt(w, k) == AppliedAll(w.m, w.init, CommandsOf(Entries(w.log, 0, k)))
  {
    ReplayIsDriven(w.m, w.init, Visible(w.version, w.log, 0, k));
    VisibleDrives(w.m, w.init, w.version, w.log, k);
    if w.m.store.None? {
      assert Old(w.m, w.version) == w.m;
      OnlyCommands(w.m, w.init, Entries(w.log, 0, k));
    }
  }

  /** Over every run of batches, snapshots, compactions, restores and restarts, so is the state of the application. */
  lemma RunsAreDriven<S(!new), R(!new), D>(w: World<S, R, D>, x: Replica<S, R, D>, es: seq<Event>)
    requires Sound(w) && Replays(w, x) && Snapshots.Legal(w, x, es)
    ensures var y := Snapshots.After(w, x, es);
            y.applied <= w.n && y.f.state == Driven(Old(w.m, w.version), w.init, Entries(w.log, 0, y.applied))
  {
    SnapshotPlusSuffix(w, x, es);
    StateAtIsDriven(w, Snapshots.After(w, x, es).applied);
  }

  // ---------------------------------------------------------------------
  // The kinds of entries
  // ---------------------------------------------------------------------

  /** `ApplyBatch` is given every command and every configuration of the batch and no other entry. */
  lemma {:induction false} BatchIsGiven(ts: seq<Tuple>)
    ensures forall l :: l in SentOf(ts) <==> l in Items(ts) && (l.kind == Command || l.kind == Configuration)
  {
    if |ts| > 0 {
      BatchIsGiven(ts[..|ts| - 1]);
      assert Items(ts) == Items(ts[..|ts| - 1]) + [ts[|ts| - 1].log];
    }
  }

  /**
   Which committed entries go to the state machine thread with their futures:
   commands and barriers always, configurations from protocol version 3 on. The
   futures of all others are answered at once.
   */
  lemma {:induction false} PassedOn(version: nat, log: map<nat, Log>, futures: map<nat, Future>, lo: nat, hi: nat, answers: map<FutureId, Answer>, i: nat)
    requires Found(log, futures, lo, hi) && lo < i <= hi
    ensures var l := ItemAt(log, futures, i);
            && ((l.kind == Command || l.kind == Barrier || (l.kind == Configuration && version > 2)) ==>
                  Tuple(l, Owner(futures, i)) in Prepared(version, log, futures, lo, hi))
            && (l.kind in {Noop, AddPeerDeprecated, RemovePeerDeprecated} || (l.kind == Configuration && version <= 2) ==>
                  l !in Items(Prepared(version, log, futures, lo, hi)) &&
                  (i in futures ==> var told := HiddenAnswered(version, log, futures, lo, hi, answers); futures[i].id in told && (futures[i].id !in answers ==> told[futures[i].id] == Success)))
    decreases hi
  {
    OnlyShown(version, log, futures, lo, hi);
    HiddenSucceed(version, log, futures, lo, hi, answers);
    if i < hi {
      PassedOn(version, log, futures, lo, hi - 1, answers, i);
    }
  }

  lemma {:induction false} HiddenSucceed(version: nat, log: map<nat, Log>, futures: map<nat, Future>, lo: nat, hi: nat, answers: map<FutureId, Answer>)
    requires Found(log, futures, lo, hi)
    ensures var told := HiddenAnswered(version, log, futures, lo, hi, answers);
            forall id :: id in told && id !in answers ==> told[id] == Success
    decreases hi
  {
    if lo < hi {
      HiddenSucceed(version, log, futures, lo, hi - 1, answers);
    }
  }

  lemma {:induction false} OnlyShown(version: nat, log: map<nat, Log>, futures: map<nat, Future>, lo: nat, hi: nat)
    requires Found(log, futures, lo, hi)
    ensures forall t :: t in Prepared(version, log, futures, lo, hi) ==>
              t.log.kind == Command || t.log.kind == Barrier || (t.log.kind == Configuration && version > 2)
    decreases hi
  {
    if lo < hi {
      OnlyShown(version, log, futures, lo, hi - 1);
    }
  }

  // ---------------------------------------------------------------------
  // The clients
  // ---------------------------------------------------------------------

  /** Every request is stored at its own index as it was made, in the leader's term, and its future waits for that entry. */
  lemma RequestsAreStored(p: Pipe, term: nat, rs: seq<Request>, j: nat)
    requires j < |rs|
    ensures var q, i := DispatchedTo(p, term, rs, true), p.lastLog + 1 + j;
            && i <= q.lastLog && i in q.log && q.log[i] == Log(i, term, rs[j].kind, rs[j].data)
            && |q.inflight| == |p.inflight| + |rs| && q.inflight[..|p.inflight|] == p.inflight
            && q.inflight[|p.inflight| + j] == Future(rs[j].id, q.log[i])
    ensures forall i :: i in p.log && i <= p.lastLog ==> i in DispatchedTo(p, term, rs, true).log && DispatchedTo(p, term, rs, true).log[i] == p.log[i]
  {
    var fs := Stamped(rs, p.lastLog, term);
    StoredAt(p.log, fs, p.lastLog);
    assert fs[j].log.index == p.lastLog + 1 + j;
  }

  /** What those who wait are told: the answer given first stands, the others hear `a`. */
  lemma {:induction false} AllAreTold(answers: map<FutureId, Answer>, fs: seq<Future>, a: Answer, id: FutureId)
    ensures var told := RespondAll(answers, fs, a);
            && (id in answers ==> id in told && told[id] == answers[id])
            && (id !in answers ==> (id in told <==> exists f :: f in fs && f.id == id) && (id in told ==> told[id] == a))
    decreases |fs|
  {
    if |fs| > 0 {
      AllAreTold(answers, fs[..|fs| - 1], a, id);
      assert fs == fs[..|fs| - 1] + [fs[|fs| - 1]];
    }
  }

  /** Those whose batch the state machine thread has worked through hear of success, unless they have been answered before. */
  lemma {:induction false} WorkedThrough(answers: map<FutureId, Answer>, batch: seq<Tuple>, id: FutureId)
    ensures var told := Answered(answers, batch);
            && (id in answers ==> id in told && told[id] == answers[id])
            && (id !in answers ==> (id in told <==> exists t :: t in batch && t.future == Some(id)) && (id in told ==> told[id] == Success))
    decreases |batch|
  {
    if |batch| > 0 {
      WorkedThrough(answers, batch[..|batch| - 1], id);
      assert batch == batch[..|batch| - 1] + [batch[|batch| - 1]];
    }
  }

  /** What is counted as handed over is what is put into the queue of the state machine thread, which takes the oldest batch first. */
  lemma QueueIsSent(g: Settings, p: Pipe, index: nat, futures: map<nat, Future>)
    requires Found(p.log, futures, p.lastApplied, index)
    ensures var q := Processed(g, p, index, futures);
            && p.queue <= q.queue && p.sent <= q.sent && q.queue[|p.queue|..] == q.sent[|p.sent|..]
            && (|p.queue| > 0 ==> Drained(p).queue == p.queue[1..] && Drained(p).sent == p.sent)
  {
    hide Prepared, Batches, HiddenAnswered;
  }

  /** A client whose request did not get through learns why. */
  lemma ClientsAreTold(p: Pipe, term: nat, rs: seq<Request>, f: Future)
    requires f.id !in p.answers
    ensures f in p.inflight ==> var told := SteppedDown(p).answers; f.id in told && told[f.id] == LeadershipLost
    ensures f in p.inflight ==> var told := Aborted(p).answers; f.id in told && told[f.id] == AbortedByRestore
    ensures (exists r :: r in rs && r.id == f.id) ==>
              var told := DispatchedTo(p, term, rs, false).answers; f.id in told && told[f.id] == StoreFailed
  {
    AllAreTold(p.answers, p.inflight, LeadershipLost, f.id);
    AllAreTold(p.answers, p.inflight, AbortedByRestore, f.id);
    var fs := Stamped(rs, p.lastLog, term);
    AllAreTold(p.answers, fs, StoreFailed, f.id);
    if r :| r in rs && r.id == f.id {
      var j :| 0 <= j < |rs| && rs[j] == r;
      assert fs[j] in fs;
    }
  }
}
