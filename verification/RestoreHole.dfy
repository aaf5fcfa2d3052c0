/**
 The index that a user restore burns (raft.go) and the requests a leader builds
 for its followers (replication.go): no request reaches over the hole.
 */
module RestoreHole {
  import opened Wrappers
  import opened Logs
  import opened Apply

  /** What the replication of a leader reads: its store, its last index and its last snapshot. */
  datatype Source = Source(logs: map<nat, Log>, lastLog: nat, snapIndex: nat, snapTerm: nat)

  /** `getLastIndex` */
  function LastIndex(s: Source): (i: nat)
    ensures i >= s.snapIndex && i >= s.lastLog && i in {s.snapIndex, s.lastLog}
  {
    if s.snapIndex > s.lastLog then s.snapIndex else s.lastLog
  }

  datatype AppendRequest = AppendRequest(prev: nat, prevTerm: nat, entries: seq<Log>)

  /** What `replicateTo` does next. */
  datatype Outgoing = Append(req: AppendRequest) | SendSnapshot

  function MaxIndex(next: nat, lastIndex: nat, maxAppend: nat): (max: int)
    ensures max <= lastIndex && max < next + maxAppend && (max == lastIndex || max == next + maxAppend - 1)
  {
    if next + maxAppend - 1 <= lastIndex then next + maxAppend - 1 else lastIndex
  }

  predicate EntriesFound(s: Source, next: nat, max: int) {
    forall i :: next <= i <= max ==> i in s.logs
  }

  /** `setNewLogs`: the entries, or None when the store misses one. */
  method SetNewLogs(s: Source, next: nat, lastIndex: nat, maxAppend: nat) returns (r: Option<seq<Log>>)
    ensures r.Some? <==> EntriesFound(s, next, MaxIndex(next, lastIndex, maxAppend))
    ensures r.Some? ==> |r.value| == (if MaxIndex(next, lastIndex, maxAppend) < next then 0 else MaxIndex(next, lastIndex, maxAppend) - next + 1)
                        && forall k :: 0 <= k < |r.value| ==> next + k in s.logs && r.value[k] == s.logs[next + k]
  {
    var entries: seq<Log> := [];
    var maxIndex := MaxIndex(next, lastIndex, maxAppend);
    var i := next;
    while i <= maxIndex
      invariant next <= i && (i > next ==> i <= maxIndex + 1) && |entries| == i - next
      invariant forall k :: next <= k < i ==> k in s.logs
      invariant forall k :: 0 <= k < |entries| ==> entries[k] == s.logs[next + k]
    {
      if i !in s.logs { return None; }
      entries := entries + [s.logs[i]];
      i := i + 1;
    }
    return Some(entries);
  }

  /** The choice of `replicateTo`: a request, or the snapshot when an entry is not there. */
  method Prepare(s: Source, next: nat, lastIndex: nat, maxAppend: nat) returns (out: Outgoing)
    requires next >= 1
    ensures out.Append? <==> (next == 1 || next - 1 == s.snapIndex || next - 1 in s.logs)
                             && forall i :: next <= i <= MaxIndex(next, lastIndex, maxAppend) ==> i in s.logs
    ensures out.Append? ==> BuiltFrom(s, next, out.req)
    ensures out.Append? ==> |out.req.entries| == (if MaxIndex(next, lastIndex, maxAppend) < next then 0 else MaxIndex(next, lastIndex, maxAppend) - next + 1)
  {
    var prevTerm;
    if next == 1 {
      prevTerm := 0;
    } else if next - 1 == s.snapIndex {
      prevTerm := s.snapTerm;
    } else if next - 1 in s.logs {
      prevTerm := s.logs[next - 1].term;
    } else {
      return SendSnapshot;
    }
    var entries := SetNewLogs(s, next, lastIndex, maxAppend);
    if entries.None? { return SendSnapshot; }
    return Append(AppendRequest(next - 1, prevTerm, entries.value));
  }

  ghost predicate BuiltFrom(s: Source, next: nat, req: AppendRequest)
    requires next >= 1
  {
    && req.prev == next - 1
    && req.prevTerm == (if next == 1 then 0 else if next - 1 == s.snapIndex then s.snapTerm else if next - 1 in s.logs then s.logs[next - 1].term else 0)
    && forall k :: 0 <= k < |req.entries| ==> next + k in s.logs && req.entries[k] == s.logs[next + k]
  }

  // ---------------------------------------------------------------------
  // Runs of one leadership
  // ---------------------------------------------------------------------

  /** The leader and every index it has burnt. */
  datatype Leader = Leader(source: Source, holes: set<nat>)

  datatype Step =
    | Dispatches(logs: seq<Log>)
    | Compacts(upTo: nat)
    | Snapshots(index: nat, term: nat)
    | Burns(metaIndex: nat, term: nat)

  ghost predicate Enabled(x: Leader, st: Step) {
    match st
    case Dispatches(logs) => forall k :: 0 <= k < |logs| ==> logs[k].index == LastIndex(x.source) + 1 + k
    case _ => true
  }

  ghost function StoredAll(m: map<nat, Log>, logs: seq<Log>): map<nat, Log> {
    if |logs| == 0 then m else StoredAll(m, logs[..|logs| - 1])[logs[|logs| - 1].index := logs[|logs| - 1]]
  }

  ghost function Next(x: Leader, st: Step): Leader {
    var s := x.source;
    match st
    case Dispatches(logs) => x.(source := s.(logs := StoredAll(s.logs, logs), lastLog := LastIndex(s) + |logs|))
    case Compacts(upTo) => x.(source := s.(logs := map i | i in s.logs && i > upTo :: s.logs[i]))
    case Snapshots(index, term) => x.(source := s.(snapIndex := index, snapTerm := term))
    case Burns(metaIndex, term) =>
      var h := Burnt(LastIndex(s), metaIndex);
      Leader(s.(lastLog := h, snapIndex := h, snapTerm := term), x.holes + {h})
  }

  /** Entries are where they belong, nothing is stored beyond the last index, and the holes are empty. */
  ghost predicate Holed(x: Leader) {
    && (forall i :: i in x.source.logs ==> x.source.logs[i].index == i && i <= x.source.lastLog)
    && (forall h :: h in x.holes ==> h !in x.source.logs && h <= x.source.lastLog)
  }

  lemma {:induction false} StoredAllAt(m: map<nat, Log>, logs: seq<Log>, last: nat)
    requires forall k :: 0 <= k < |logs| ==> logs[k].index == last + 1 + k
    ensures forall i :: i in StoredAll(m, logs) <==> i in m || last < i <= last + |logs|
    ensures forall i :: i in StoredAll(m, logs) ==> if last < i <= last + |logs| then StoredAll(m, logs)[i].index == i else StoredAll(m, logs)[i] == m[i]
  {
    if |logs| > 0 { StoredAllAt(m, logs[..|logs| - 1], last); }
  }

  lemma NextHoled(x: Leader, st: Step)
    requires Holed(x) && Enabled(x, st)
    ensures Holed(Next(x, st))
  {
    if st.Dispatches? { StoredAllAt(x.source.logs, st.logs, LastIndex(x.source)); }
  }

  ghost predicate Legal(x: Leader, steps: seq<Step>)
    decreases |steps|
  {
    |steps| == 0 || (Enabled(x, steps[0]) && Legal(Next(x, steps[0]), steps[1..]))
  }

  ghost function After(x: Leader, steps: seq<Step>): Leader
    decreases |steps|
  {
    if |steps| == 0 then x else After(Next(x, steps[0]), steps[1..])
  }

  lemma {:induction false} HolesStay(x: Leader, steps: seq<Step>)
    requires Holed(x) && Legal(x, steps)
    ensures Holed(After(x, steps)) && x.holes <= After(x, steps).holes
    decreases |steps|
  {
    if |steps| > 0 {
      NextHoled(x, steps[0]);
      HolesStay(Next(x, steps[0]), steps[1..]);
    }
  }

  lemma EntryAt(s: Source, next: nat, req: AppendRequest, k: nat)
    requires next >= 1 && BuiltFrom(s, next, req) && k < |req.entries|
    ensures next + k in s.logs && req.entries[k] == s.logs[next + k]
  {
  }

  /** Every entry is on one side of `h`, and entries above `h` follow a previous index at or above it. */
  ghost predicate OneSide(req: AppendRequest, h: nat) {
    || (forall e :: e in req.entries ==> e.index < h)
    || (req.prev >= h && forall e :: e in req.entries ==> e.index > h)
  }

  /**
   Over every run of one leadership: whatever its other steps were, a request
   built now for any follower is on one side of every index burnt so far.
   */
  lemma HoleNeverStraddled(x: Leader, steps: seq<Step>, next: nat, req: AppendRequest, h: nat)
    requires Holed(x) && Legal(x, steps) && h in After(x, steps).holes
    requires next >= 1 && BuiltFrom(After(x, steps).source, next, req)
    ensures OneSide(req, h)
  {
    HolesStay(x, steps);
    var s := After(x, steps).source;
    forall i | next <= i < next + |req.entries| ensures i in s.logs && req.entries[i - next].index == i {
      EntryAt(s, next, req, i - next);
    }
    assert h !in s.logs;
    forall k | 0 <= k < |req.entries| ensures req.entries[k].index == next + k {
      EntryAt(s, next, req, k);
    }
  }
}
