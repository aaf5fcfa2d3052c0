/**
 The log store in memory (inmem_store.go), the ring buffer in front of a store
 (log_cache.go) and compaction (snapshot.go).
 */
module LogStore {
  import opened Wrappers
  import opened Logs

  const MAX_U64: nat := 0xFFFF_FFFF_FFFF_FFFF

  /** The `- 1` of an unsigned 64-bit number. */
  function Before(x: nat): nat {
    if x == 0 then MAX_U64 else x - 1
  }

  // ---------------------------------------------------------------------
  // The store
  // ---------------------------------------------------------------------

  /** The entries of a store and the two bounds it keeps beside them. */
  datatype Store = Store(logs: map<nat, Log>, low: nat, high: nat)

  const EmptyStore := Store(map[], 0, 0)

  function Get(s: Store, i: nat): Option<Log> {
    if i in s.logs then Some(s.logs[i]) else None
  }

  function Put(s: Store, l: Log): Store {
    Store(s.logs[l.index := l],
          if s.low == 0 then l.index else s.low,
          if l.index > s.high then l.index else s.high)
  }

  function PutAll(s: Store, logs: seq<Log>): Store {
    if |logs| == 0 then s else Put(PutAll(s, logs[..|logs| - 1]), logs[|logs| - 1])
  }

  function Deleted(s: Store, min: nat, max: nat): Store
    requires max < MAX_U64
  {
    var low := if min <= s.low then max + 1 else s.low;
    var high := if max >= s.high then Before(min) else s.high;
    Store(map i | i in s.logs && !(min <= i <= max) :: s.logs[i],
          if low > high then 0 else low, if low > high then 0 else high)
  }

  class InmemStore {
    var logs: map<nat, Log>
    var lowIndex: nat
    var highIndex: nat

    ghost function View(): Store
      reads this
    {
      Store(logs, lowIndex, highIndex)
    }

    constructor ()
      ensures View() == EmptyStore
    {
      logs, lowIndex, highIndex := map[], 0, 0;
    }

    method GetLog(index: nat) returns (r: Option<Log>)
      ensures r == Get(View(), index)
    {
      if index !in logs { return None; }
      return Some(logs[index]);
    }

    method StoreLogs(ls: seq<Log>)
      modifies this
      ensures View() == PutAll(old(View()), ls)
    {
      for k := 0 to |ls|
        invariant View() == PutAll(old(View()), ls[..k])
      {
        var l := ls[k];
        assert ls[..k + 1][..k] == ls[..k];
        logs := logs[l.index := l];
        if lowIndex == 0 { lowIndex := l.index; }
        if l.index > highIndex { highIndex := l.index; }
      }
      assert ls[..|ls|] == ls;
    }

    method DeleteRange(min: nat, max: nat)
      requires max < MAX_U64
      modifies this
      ensures View() == Deleted(old(View()), min, max)
    {
      var j := min;
      while j <= max
        invariant j >= min && (j > min ==> j <= max + 1)
        invariant logs == map i | i in old(logs) && !(min <= i < j) :: old(logs)[i]
        invariant lowIndex == old(lowIndex) && highIndex == old(highIndex)
      {
        logs := logs - {j};
        j := j + 1;
      }
      if min <= lowIndex { lowIndex := max + 1; }
      if max >= highIndex { highIndex := Before(min); }
      if lowIndex > highIndex { lowIndex, highIndex := 0, 0; }
    }
  }

  // ---------------------------------------------------------------------
  // The bounds
  // ---------------------------------------------------------------------

  /** The two bounds are exactly the first and last of the stored indexes, which have no gap. */
  ghost predicate Exact(s: Store) {
    if s.logs == map[] then s.low == s.high == 0
    else 1 <= s.low <= s.high && forall i :: i in s.logs <==> s.low <= i <= s.high
  }

  /** Storing one entry keeps the bounds exact if and only if it goes to a free end or overwrites. */
  lemma PutExact(s: Store, l: Log)
    requires Exact(s)
    ensures Exact(Put(s, l)) <==> l.index >= 1 && (s.logs != map[] ==> s.low <= l.index <= s.high + 1)
  {
    var t := Put(s, l);
    assert l.index in t.logs;
    if s.logs != map[] {
      assert s.low in s.logs && s.high in s.logs;
      assert s.low in t.logs && s.high in t.logs;
      assert l.index > s.high + 1 ==> s.high + 1 !in t.logs;
    }
  }

  /** The ranges that can be deleted without making the bounds wrong. */
  predicate Trims(s: Store, min: nat, max: nat) {
    if s.logs == map[] then min == 1
    else
      || (min <= s.low && s.low - 1 <= max < s.high)
      || (1 <= min <= s.low && max >= s.high)
      || (s.low < min <= s.high + 1 && max >= s.high)
  }

  /**
   `DeleteRange` keeps the bounds exact if and only if the range takes a prefix
   or a suffix away. A range from index 0 over everything wraps the high bound
   round, and a range inside the log or beside it leaves the bounds behind.
   */
  lemma DeletedExact(s: Store, min: nat, max: nat)
    requires Exact(s) && s.high <= MAX_U64 && min <= max < MAX_U64
    ensures Exact(Deleted(s, min, max)) <==> Trims(s, min, max)
  {
    var t := Deleted(s, min, max);
    if s.logs != map[] {
      assert s.low in s.logs && s.high in s.logs;
      if s.low < min && max < s.high {
        assert s.low in t.logs && s.high in t.logs && min !in t.logs;
      } else if min <= s.low && max >= s.high {
        assert t.logs == map[];
      } else if min <= s.low {
        assert s.high in t.logs && max + 1 < s.low ==> max + 1 !in t.logs;
      } else {
        assert s.low in t.logs && min - 1 > s.high ==> min - 1 !in t.logs;
      }
    }
  }

  // ---------------------------------------------------------------------
  // Compaction
  // ---------------------------------------------------------------------

  /** The range `compactLogsWithTrailing` deletes, if any. */
  function CompactRange(first: nat, snapIdx: nat, lastLogIdx: nat, trailing: nat): Option<(nat, nat)> {
    if lastLogIdx <= trailing then None
    else
      var maxLog := if snapIdx <= lastLogIdx - trailing then snapIdx else lastLogIdx - trailing;
      if first > maxLog then None else Some((first, maxLog))
  }

  /**
   `compactLogsWithTrailing`: nothing above the snapshot goes, the last
   `trailing` indexes stay, and what is at or below both limits is gone, unless
   the bounds were wrong and it lies below the low one.
   */
  method CompactLogsWithTrailing(store: InmemStore, snapIdx: nat, lastLogIdx: nat, trailing: nat)
    requires var range := CompactRange(store.lowIndex, snapIdx, lastLogIdx, trailing); range.Some? ==> range.value.1 < MAX_U64
    modifies store
    ensures var range := CompactRange(old(store.View()).low, snapIdx, lastLogIdx, trailing);
            store.View() == if range.None? then old(store.View()) else Deleted(old(store.View()), range.value.0, range.value.1)
    ensures forall i :: i in store.logs ==> Get(store.View(), i) == Get(old(store.View()), i)
    ensures forall i :: i in store.logs <==>
              i in old(store.logs) && (lastLogIdx <= trailing || i > snapIdx || i + trailing > lastLogIdx || i < old(store.lowIndex))
    ensures Exact(old(store.View())) ==> forall i :: i in store.logs <==> i in old(store.logs) && (i > snapIdx || i + trailing > lastLogIdx)
  {
    var minLog := store.lowIndex;
    if lastLogIdx <= trailing { return; }
    var maxLog := if snapIdx <= lastLogIdx - trailing then snapIdx else lastLogIdx - trailing;
    if minLog > maxLog { return; }
    store.DeleteRange(minLog, maxLog);
  }

  /**
   Compaction keeps the bounds exact if and only if there is something in the
   store, or too little in the log to compact at all.
   */
  lemma CompactExact(s: Store, snapIdx: nat, lastLogIdx: nat, trailing: nat)
    requires Exact(s) && s.high <= MAX_U64 && lastLogIdx < MAX_U64
    ensures var range := CompactRange(s.low, snapIdx, lastLogIdx, trailing);
            range.Some? ==> (Exact(Deleted(s, range.value.0, range.value.1)) <==> s.logs != map[])
    ensures s.logs == map[] ==> (CompactRange(s.low, snapIdx, lastLogIdx, trailing).None? <==> lastLogIdx <= trailing)
  {
    var range := CompactRange(s.low, snapIdx, lastLogIdx, trailing);
    if range.Some? {
      DeletedExact(s, range.value.0, range.value.1);
    }
  }

  /**
   Two snapshots of the same index with no trailing logs: the first empties the
   store, the second deletes from index 0 and leaves the last index at its
   largest value.
   */
  lemma SecondCompactionWraps(n: nat)
    requires 1 <= n < MAX_U64
    ensures CompactRange(0, n, n, 0) == Some((0, n))
    ensures Deleted(EmptyStore, 0, n).high == MAX_U64
    ensures !Exact(Deleted(EmptyStore, 0, n))
    ensures forall s: Store :: Exact(s) && s.high == n ==>
              CompactRange(s.low, n, n, 0) == Some((s.low, n)) && Deleted(s, s.low, n) == EmptyStore
  {
    forall s: Store | Exact(s) && s.high == n
      ensures Deleted(s, s.low, n) == EmptyStore
    {
      assert Deleted(s, s.low, n).logs == map[];
    }
  }

  // ---------------------------------------------------------------------
  // The ring buffer
  // ---------------------------------------------------------------------

  type Ring = r: seq<Option<Log>> | |r| > 0 witness [None]

  function EmptyRing(n: nat): Ring
    requires n > 0
  {
    seq(n, _ => None)
  }

  function Filled(ring: Ring, logs: seq<Log>): (r: Ring)
    ensures |r| == |ring|
  {
    if |logs| == 0 then ring
    else
      var l := logs[|logs| - 1];
      Filled(ring, logs[..|logs| - 1])[l.index % |ring| := Some(l)]
  }

  /** What `LogCache.GetLog` answers. */
  function Lookup(ring: Ring, s: Store, i: nat): Option<Log> {
    var cached := ring[i % |ring|];
    if cached.Some? && cached.value.index == i then cached else Get(s, i)
  }

  /** The cache cannot be told from the store behind it. */
  ghost predicate Refines(ring: Ring, s: Store) {
    forall i: nat :: Lookup(ring, s, i) == Get(s, i)
  }

  /** Every cached entry is in its slot. */
  ghost predicate Slotted(ring: Ring) {
    forall k :: 0 <= k < |ring| && ring[k].Some? ==> ring[k].value.index % |ring| == k
  }

  /** Every cached entry is the stored one. */
  ghost predicate Coherent(ring: Ring, s: Store) {
    forall k :: 0 <= k < |ring| && ring[k].Some? ==> Get(s, ring[k].value.index) == ring[k]
  }

  lemma CoherentIsRefinement(ring: Ring, s: Store)
    requires Slotted(ring)
    ensures Coherent(ring, s) <==> Refines(ring, s)
  {
    if Refines(ring, s) {
      forall k | 0 <= k < |ring| && ring[k].Some?
        ensures Get(s, ring[k].value.index) == ring[k]
      {
        assert Lookup(ring, s, ring[k].value.index) == ring[k];
      }
    }
  }

  lemma {:induction false} StoreKeepsCoherent(ring: Ring, s: Store, logs: seq<Log>)
    requires Slotted(ring) && Coherent(ring, s)
    ensures Slotted(Filled(ring, logs)) && Coherent(Filled(ring, logs), PutAll(s, logs))
  {
    if |logs| > 0 {
      StoreKeepsCoherent(ring, s, logs[..|logs| - 1]);
    }
  }

  /** The last entry with its index. */
  ghost predicate LastOfIndex(logs: seq<Log>, i: nat)
    requires i < |logs|
  {
    forall j :: i < j < |logs| ==> logs[j].index != logs[i].index
  }

  /** What a store answers after a list of entries: the last of them with the index, else what it answered before. */
  lemma {:induction false} PutAllGet(s: Store, logs: seq<Log>, n: nat)
    ensures if exists i :: 0 <= i < |logs| && logs[i].index == n
            then exists i :: 0 <= i < |logs| && logs[i].index == n && LastOfIndex(logs, i) && Get(PutAll(s, logs), n) == Some(logs[i])
            else Get(PutAll(s, logs), n) == Get(s, n)
  {
    if |logs| > 0 {
      var m := |logs| - 1;
      var init := logs[..m];
      PutAllGet(s, init, n);
      assert forall i :: 0 <= i < m ==> init[i] == logs[i];
      if logs[m].index == n {
        assert LastOfIndex(logs, m);
      } else if exists i :: 0 <= i < |init| && init[i].index == n {
        var i :| 0 <= i < |init| && init[i].index == n && LastOfIndex(init, i) && Get(PutAll(s, init), n) == Some(init[i]);
        assert LastOfIndex(logs, i);
      }
    }
  }

  /** The cache does not hold another entry with this index. */
  predicate Undisturbed(ring: Ring, l: Log) {
    var cached := ring[l.index % |ring|];
    cached.Some? && cached.value.index == l.index ==> cached.value == l
  }

  ghost predicate AllUndisturbed(ring: Ring, logs: seq<Log>) {
    forall i :: 0 <= i < |logs| && LastOfIndex(logs, i) ==> Undisturbed(ring, logs[i])
  }

  /**
   A store that failed after it took some entries leaves the cache right if and
   only if none of these replaced a cached one.
   */
  lemma PartialStoreExact(ring: Ring, s: Store, part: seq<Log>)
    requires Slotted(ring) && Coherent(ring, s)
    ensures Coherent(ring, PutAll(s, part)) <==> AllUndisturbed(ring, part)
  {
    if AllUndisturbed(ring, part) {
      forall k | 0 <= k < |ring| && ring[k].Some? ensures Get(PutAll(s, part), ring[k].value.index) == ring[k] {
        PutAllGet(s, part, ring[k].value.index);
      }
    } else {
      var i :| 0 <= i < |part| && LastOfIndex(part, i) && !Undisturbed(ring, part[i]);
      PutAllGet(s, part, part[i].index);
      var j :| 0 <= j < |part| && part[j].index == part[i].index && LastOfIndex(part, j) && Get(PutAll(s, part), part[i].index) == Some(part[j]);
      assert i == j;
      assert ring[part[i].index % |ring|] != Some(part[i]);
    }
  }

  /** That is always so for entries the store did not have before. */
  lemma NewEntriesUndisturbed(ring: Ring, s: Store, part: seq<Log>)
    requires Coherent(ring, s) && forall l :: l in part ==> l.index !in s.logs
    ensures AllUndisturbed(ring, part)
  {
    forall i | 0 <= i < |part| ensures Undisturbed(ring, part[i]) {
      assert part[i] in part;
    }
  }

  /** `ring[k]` after filling an empty ring: the last entry that falls into slot `k`. */
  ghost predicate LastInSlot(logs: seq<Log>, n: nat, i: nat)
    requires n > 0 && i < |logs|
  {
    forall j :: i < j < |logs| ==> logs[j].index % n != logs[i].index % n
  }

  lemma {:induction false} FilledFromEmpty(n: nat, logs: seq<Log>, k: nat)
    requires 0 <= k < n
    ensures var r := Filled(EmptyRing(n), logs);
            r[k].Some? ==> exists i :: 0 <= i < |logs| && r[k] == Some(logs[i]) && logs[i].index % n == k && LastInSlot(logs, n, i)
  {
    if |logs| > 0 {
      var m := |logs| - 1;
      var r := Filled(EmptyRing(n), logs);
      if logs[m].index % n == k {
        assert LastInSlot(logs, n, m) && r[k] == Some(logs[m]);
      } else {
        FilledFromEmpty(n, logs[..m], k);
        if r[k].Some? {
          var i :| 0 <= i < m && r[k] == Some(logs[..m][i]) && logs[..m][i].index % n == k && LastInSlot(logs[..m], n, i);
          assert forall j :: i < j < m ==> logs[j] == logs[..m][j];
          assert LastInSlot(logs, n, i);
        }
      }
    }
  }

  lemma {:induction false} LastIsKept(n: nat, logs: seq<Log>, i: nat)
    requires n > 0 && i < |logs| && LastInSlot(logs, n, i)
    ensures Filled(EmptyRing(n), logs)[logs[i].index % n] == Some(logs[i])
    decreases |logs|
  {
    var m := |logs| - 1;
    if i < m {
      assert logs[m].index % n != logs[i].index % n;
      assert forall j :: 0 <= j < m ==> logs[j] == logs[..m][j];
      LastIsKept(n, logs[..m], i);
    }
  }

  class LogCache {
    const store: InmemStore
    var cache: array<Option<Log>>

    ghost predicate Valid()
      reads this, store, cache
    {
      cache.Length > 0 && Slotted(cache[..]) && Coherent(cache[..], store.View())
    }

    constructor (capacity: nat, store: InmemStore)
      requires capacity > 0
      ensures Valid() && fresh(cache) && this.store == store && cache[..] == EmptyRing(capacity)
    {
      this.store := store;
      cache := new Option<Log>[capacity](_ => None);
      new;
      assert cache[..] == EmptyRing(capacity);
    }

    /** `GetLog` reads only the cache on a hit, and its answer is always the store's. */
    method GetLog(idx: nat) returns (r: Option<Log>)
      requires Valid()
      ensures r == Get(store.View(), idx)
    {
      var cached := cache[idx % cache.Length];
      assert cached == cache[..][idx % cache.Length];
      if cached.Some? && cached.value.index == idx { return cached; }
      r := store.GetLog(idx);
    }

    /** `StoreLogs`; a store that fails may have taken the first `taken` of the entries. */
    method StoreLogs(logs: seq<Log>, ok: bool, taken: nat)
      requires Valid() && taken <= |logs|
      modifies this, store, cache
      ensures cache == old(cache)
      ensures ok ==> Valid() && store.View() == PutAll(old(store.View()), logs) && cache[..] == Filled(old(cache[..]), logs)
      ensures !ok ==> store.View() == PutAll(old(store.View()), logs[..taken]) && cache[..] == old(cache[..])
      ensures !ok ==> (Valid() <==> AllUndisturbed(old(cache[..]), logs[..taken]))
    {
      if !ok {
        PartialStoreExact(cache[..], store.View(), logs[..taken]);
        store.StoreLogs(logs[..taken]);
        return;
      }
      store.StoreLogs(logs);
      for k := 0 to |logs|
        invariant cache == old(cache) && cache.Length > 0 && store.View() == PutAll(old(store.View()), logs)
        invariant cache[..] == Filled(old(cache[..]), logs[..k])
      {
        assert logs[..k + 1][..k] == logs[..k];
        cache[logs[k].index % cache.Length] := Some(logs[k]);
      }
      assert logs[..|logs|] == logs;
      StoreKeepsCoherent(old(cache[..]), old(store.View()), logs);
    }

    /** `DeleteRange` drops the whole cache first, also when the store then refuses. */
    method DeleteRange(min: nat, max: nat, ok: bool)
      requires Valid() && max < MAX_U64
      modifies this, store
      ensures Valid() && fresh(cache) && cache[..] == EmptyRing(old(cache.Length))
      ensures store.View() == if ok then Deleted(old(store.View()), min, max) else old(store.View())
    {
      cache := new Option<Log>[cache.Length](_ => None);
      assert cache[..] == EmptyRing(cache.Length);
      if ok { store.DeleteRange(min, max); }
    }
  }

  /** `NewLogCache` refuses a capacity that is not positive. */
  method NewLogCache(capacity: int, store: InmemStore) returns (r: Option<LogCache>)
    ensures r.Some? <==> capacity > 0
    ensures r.Some? ==> fresh(r.value) && r.value.Valid() && r.value.store == store && r.value.cache.Length == capacity
  {
    if capacity <= 0 { return None; }
    var c := new LogCache(capacity, store);
    return Some(c);
  }

  // ---------------------------------------------------------------------
  // A delete that crosses a store
  // ---------------------------------------------------------------------

  datatype Cached = Cached(ring: Ring, store: Store)

  /** The two critical sections of `StoreLogs` and the two of `DeleteRange`. */
  datatype Half = PutHalf | FillHalf | ClearHalf | DeleteHalf

  function Did(c: Cached, h: Half, logs: seq<Log>, min: nat, max: nat): Cached
    requires max < MAX_U64
  {
    match h
    case PutHalf => c.(store := PutAll(c.store, logs))
    case FillHalf => c.(ring := Filled(c.ring, logs))
    case ClearHalf => c.(ring := EmptyRing(|c.ring|))
    case DeleteHalf => c.(store := Deleted(c.store, min, max))
  }

  function DidAll(c: Cached, hs: seq<Half>, logs: seq<Log>, min: nat, max: nat): Cached
    requires max < MAX_U64
    decreases |hs|
  {
    if |hs| == 0 then c else DidAll(Did(c, hs[0], logs, min, max), hs[1..], logs, min, max)
  }

  /** The calls cross: each begins before the other ends. */
  predicate Crossing(hs: seq<Half>) {
    || hs == [PutHalf, ClearHalf, FillHalf, DeleteHalf]
    || hs == [PutHalf, ClearHalf, DeleteHalf, FillHalf]
    || hs == [ClearHalf, PutHalf, FillHalf, DeleteHalf]
    || hs == [ClearHalf, PutHalf, DeleteHalf, FillHalf]
  }

  /** No entry that stays in the ring is in the deleted range. */
  ghost predicate KeptOutside(logs: seq<Log>, n: nat, min: nat, max: nat)
    requires n > 0
  {
    forall i :: 0 <= i < |logs| && LastInSlot(logs, n, i) ==> !(min <= logs[i].index <= max)
  }

  lemma DidFirst(c: Cached, h: Half, hs: seq<Half>, logs: seq<Log>, min: nat, max: nat)
    requires max < MAX_U64
    ensures DidAll(c, [h] + hs, logs, min, max) == DidAll(Did(c, h, logs, min, max), hs, logs, min, max)
    ensures DidAll(c, [], logs, min, max) == c
  {
    hide Did;
    assert ([h] + hs)[1..] == hs;
  }

  lemma CrossingEnds(c: Cached, hs: seq<Half>, logs: seq<Log>, min: nat, max: nat)
    requires Crossing(hs) && max < MAX_U64
    ensures DidAll(c, hs, logs, min, max) == Cached(Filled(EmptyRing(|c.ring|), logs), Deleted(PutAll(c.store, logs), min, max))
  {
    hide Filled, PutAll, Deleted, DidAll;
    var c1 := Did(c, hs[0], logs, min, max);
    var c2 := Did(c1, hs[1], logs, min, max);
    var c3 := Did(c2, hs[2], logs, min, max);
    DidFirst(c, hs[0], hs[1..], logs, min, max);
    DidFirst(c1, hs[1], hs[2..], logs, min, max);
    DidFirst(c2, hs[2], hs[3..], logs, min, max);
    DidFirst(c3, hs[3], [], logs, min, max);
    DidFirst(Did(c3, hs[3], logs, min, max), hs[3], [], logs, min, max);
    assert hs == [hs[0]] + hs[1..] && hs[1..] == [hs[1]] + hs[2..] && hs[2..] == [hs[2]] + hs[3..] && hs[3..] == [hs[3]] + [];
  }

  /**
   A delete that crosses a store leaves a cache that refines the store if and
   only if none of the entries the ring keeps is in the deleted range.
   */
  lemma CrossedExact(c: Cached, hs: seq<Half>, logs: seq<Log>, min: nat, max: nat)
    requires Crossing(hs) && max < MAX_U64
    ensures var d := DidAll(c, hs, logs, min, max);
            Slotted(d.ring) && (Refines(d.ring, d.store) <==> KeptOutside(logs, |c.ring|, min, max))
  {
    var n := |c.ring|;
    var d := DidAll(c, hs, logs, min, max);
    var put := PutAll(c.store, logs);
    CrossingEnds(c, hs, logs, min, max);
    StoreKeepsCoherent(EmptyRing(n), c.store, logs);
    CoherentIsRefinement(d.ring, d.store);
    if KeptOutside(logs, n, min, max) {
      forall k | 0 <= k < n && d.ring[k].Some?
        ensures Get(d.store, d.ring[k].value.index) == d.ring[k]
      {
        FilledFromEmpty(n, logs, k);
      }
    } else {
      var i :| 0 <= i < |logs| && LastInSlot(logs, n, i) && min <= logs[i].index <= max;
      LastIsKept(n, logs, i);
      assert Get(d.store, logs[i].index) == None;
    }
  }

  // ---------------------------------------------------------------------
  // Over every run
  // ---------------------------------------------------------------------

  /** What is done through the cache; `StoresPart` is a store that failed after it took these entries. */
  datatype Use =
    | Stores(logs: seq<Log>)
    | StoresPart(part: seq<Log>)
    | Deletes(min: nat, max: nat, ok: bool)
    | Crosses(hs: seq<Half>, logs: seq<Log>, min: nat, max: nat)

  /** A delete may cross a store when their indexes are disjoint, and a failed store may not replace cached entries. */
  ghost predicate Allowed(c: Cached, u: Use) {
    match u
    case Stores(_) => true
    case StoresPart(part) => AllUndisturbed(c.ring, part)
    case Deletes(_, max, _) => max < MAX_U64
    case Crosses(hs, logs, min, max) =>
      Crossing(hs) && max < MAX_U64 && forall l :: l in logs ==> !(min <= l.index <= max)
  }

  ghost function Used(c: Cached, u: Use): Cached
    requires Allowed(c, u)
  {
    match u
    case Stores(logs) => Cached(Filled(c.ring, logs), PutAll(c.store, logs))
    case StoresPart(part) => c.(store := PutAll(c.store, part))
    case Deletes(min, max, ok) => Cached(EmptyRing(|c.ring|), if ok then Deleted(c.store, min, max) else c.store)
    case Crosses(hs, logs, min, max) => DidAll(c, hs, logs, min, max)
  }

  ghost predicate AllAllowed(c: Cached, us: seq<Use>)
    decreases |us|
  {
    |us| == 0 || (Allowed(c, us[0]) && AllAllowed(Used(c, us[0]), us[1..]))
  }

  ghost function UsedAll(c: Cached, us: seq<Use>): Cached
    requires AllAllowed(c, us)
    decreases |us|
  {
    if |us| == 0 then c else UsedAll(Used(c, us[0]), us[1..])
  }

  /** The log cache refines its store after every run of stores, failed stores, deletes and crossings. */
  lemma {:induction false} CacheRefinesStore(c: Cached, us: seq<Use>)
    requires AllAllowed(c, us)
    requires Slotted(c.ring) && Coherent(c.ring, c.store)
    ensures var d := UsedAll(c, us); Slotted(d.ring) && Coherent(d.ring, d.store) && Refines(d.ring, d.store)
    decreases |us|
  {
    if |us| == 0 {
      CoherentIsRefinement(c.ring, c.store);
    } else {
      var d := Used(c, us[0]);
      match us[0] {
        case Stores(logs) => StoreKeepsCoherent(c.ring, c.store, logs);
        case StoresPart(part) => PartialStoreExact(c.ring, c.store, part);
        case Deletes(_, _, _) =>
        case Crosses(hs, logs, min, max) =>
          CrossedExact(c, hs, logs, min, max);
          CoherentIsRefinement(d.ring, d.store);
      }
      CacheRefinesStore(d, us[1..]);
    }
  }

  /** A change of the store that Raft makes: entries after the last, or a prefix or suffix away. */
  datatype Edit = Appends(logs: seq<Log>) | Removes(min: nat, max: nat)

  ghost predicate Proper(s: Store, e: Edit) {
    match e
    case Appends(logs) =>
      forall i :: 0 <= i < |logs| ==> logs[i].index == (if s.logs == map[] then logs[0].index else s.high + 1) + i && logs[i].index >= 1
    case Removes(min, max) => min <= max < MAX_U64 && s.high <= MAX_U64 && Trims(s, min, max)
  }

  ghost function Edited(s: Store, e: Edit): Store
    requires Proper(s, e)
  {
    match e
    case Appends(logs) => PutAll(s, logs)
    case Removes(min, max) => Deleted(s, min, max)
  }

  lemma {:induction false} AppendExact(s: Store, logs: seq<Log>)
    requires Exact(s) && Proper(s, Appends(logs))
    ensures Exact(PutAll(s, logs))
    ensures |logs| > 0 ==> PutAll(s, logs).logs != map[] && PutAll(s, logs).high == logs[|logs| - 1].index
    ensures |logs| == 0 ==> PutAll(s, logs) == s
  {
    if |logs| > 0 {
      var init := logs[..|logs| - 1];
      assert forall i :: 0 <= i < |init| ==> init[i] == logs[i];
      AppendExact(s, init);
      PutExact(PutAll(s, init), logs[|logs| - 1]);
    }
  }

  ghost predicate AllProper(s: Store, es: seq<Edit>)
    decreases |es|
  {
    |es| == 0 || (Proper(s, es[0]) && AllProper(Edited(s, es[0]), es[1..]))
  }

  ghost function EditedAll(s: Store, es: seq<Edit>): Store
    requires AllProper(s, es)
    decreases |es|
  {
    if |es| == 0 then s else EditedAll(Edited(s, es[0]), es[1..])
  }

  /** Over contiguous appends and prefix or suffix deletes the bounds are the stored indexes. */
  lemma {:induction false} BoundsStayExact(s: Store, es: seq<Edit>)
    requires Exact(s) && AllProper(s, es)
    ensures Exact(EditedAll(s, es))
    decreases |es|
  {
    if |es| > 0 {
      match es[0] {
        case Appends(logs) => AppendExact(s, logs);
        case Removes(min, max) => DeletedExact(s, min, max);
      }
      BoundsStayExact(Edited(s, es[0]), es[1..]);
    }
  }
}
