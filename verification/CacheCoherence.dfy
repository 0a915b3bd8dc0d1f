/**
 * The TTL cache never disagrees with the data it speeds up: on single-threaded runs that keep
 * cache and batching on and do not overflow the table, a hit is the latest value reported for
 * exactly that process.
 */
module CacheCoherence {
  import opened Words
  import opened ProcessTable
  import opened PerfOptimizer
  import opened Coalescing

  /** The table only holds processes of `all`, once each, and has a slot for every one of them. */
  ghost predicate Room(t: Table, all: set<int>) {
    && WellFormed(t)
    && DistinctNonZero(t.pids)
    && (forall i :: 0 <= i < |t.pids| && t.pids[i] != 0 ==> t.pids[i] in all)
    && |all| <= |t.pids|
    && (forall p :: p in all ==> p > 0)
  }

  lemma RoomAccepts(t: Table, all: set<int>, pid: int)
    requires Room(t, all) && pid in all
    ensures Accepts(t, pid)
  {
    if pid !in Elems(t.pids) {
      FreeSlotExists(t.pids, all, pid);
    } else {
      var i :| 0 <= i < |t.pids| && t.pids[i] == pid;
    }
  }

  lemma UpdateKeepsRoom(t: Table, all: set<int>, pid: int, u: Usage)
    requires Room(t, all) && pid in all
    ensures Room(Update(t, pid, u), all)
  {
    RoomAccepts(t, all, pid);
    var slot, own, r := Slot(t.pids, pid), First(t.pids, pid, 0), Update(t, pid, u);
    forall i, j | 0 <= i < j < |r.pids| && r.pids[i] == r.pids[j]
      ensures r.pids[i] == 0
    {
      if i == slot || j == slot {
        assert own == slot || own == |t.pids|;
      } else {
        assert t.pids[i] == t.pids[j];
      }
    }
  }

  /** The most recent value that `es` reports for `pid`. */
  function Latest(es: seq<Entry>, pid: int, start: Usage): Usage {
    if es == [] then start
    else if es[|es| - 1].pid == pid then es[|es| - 1].usage
    else Latest(es[..|es| - 1], pid, start)
  }

  lemma {:induction false} ReplayIsLatest(t: Table, es: seq<Entry>, all: set<int>, pid: int)
    requires Room(t, all) && pid > 0
    requires forall i :: 0 <= i < |es| ==> es[i].pid in all
    ensures Room(Replay(t, es), all)
    ensures Lookup(Replay(t, es), pid) == Latest(es, pid, Lookup(t, pid))
  {
    if es != [] {
      var init, last := es[..|es| - 1], es[|es| - 1];
      ReplayIsLatest(t, init, all, pid);
      var mid := Replay(t, init);
      RoomAccepts(mid, all, last.pid);
      UpdateKeepsRoom(mid, all, last.pid, last.usage);
      UpdateLookup(mid, last.pid, last.usage, pid);
    }
  }

  lemma {:induction false} LatestIsPending(buf: seq<Entry>, pid: int, start: Usage)
    requires DistinctPids(buf)
    ensures var i := Find(buf, pid, 0);
            Latest(buf, pid, start) == if i < |buf| then buf[i].usage else start
  {
    if buf != [] {
      var init := buf[..|buf| - 1];
      LatestIsPending(init, pid, start);
      var i := Find(init, pid, 0);
      FindIs(buf, pid, if i < |init| then i else if buf[|init|].pid == pid then |init| else |buf|);
    }
  }

  /** The value of `pid` in the table overlaid with the pending buffer. */
  function Overlay(s: State, pid: int): Usage
    requires Sound(s)
  {
    var i := Find(s.buf, pid, 0);
    if i < |s.buf| then s.buf[i].usage else Lookup(s.table, pid)
  }

  ghost predicate EntriesAgree(s: State)
    requires Sound(s)
  {
    forall i :: 0 <= i < |s.cache| && s.cache[i].valid ==>
      var e := s.cache[i];
      e.pid > 0 && HashPid(e.pid, |s.cache|) == i && e.usage == Overlay(s, e.pid)
  }

  ghost predicate Coherent(s: State, all: set<int>) {
    && Sound(s) && s.batching && s.caching
    && DistinctPids(s.buf)
    && Room(s.table, all)
    && (forall i :: 0 <= i < |s.buf| ==> s.buf[i].pid in all)
    && EntriesAgree(s)
  }

  lemma OverlayIsLogical(s: State, all: set<int>, pid: int)
    requires Coherent(s, all) && pid > 0
    ensures Overlay(s, pid) == Lookup(Logical(s), pid)
  {
    ReplayIsLatest(s.table, s.buf, all, pid);
    LatestIsPending(s.buf, pid, Lookup(s.table, pid));
  }

  ghost predicate Pending(s: State, pid: int) {
    Find(s.buf, pid, 0) < |s.buf|
  }

  /** Operations the coherence theorem covers. */
  ghost predicate Allowed(s: State, op: Op, all: set<int>) {
    match op
    case BatchUpdate(pid, _, _) => pid in all
    case Prefetch(pid, _) => !Pending(s, pid)
    case PutCached(_, _, _) => false
    case EnableCache(on) => on
    case EnableBatching(on) => on
    case _ => true
  }

  lemma EnqueueOverlay(s: State, all: set<int>, e: Entry, pid: int)
    requires Coherent(s, all) && e.pid in all && pid > 0
    ensures Overlay(Enqueue(s, e), pid) == if pid == e.pid then e.usage else Overlay(s, pid)
  {
    var r := Enqueue(s, e);
    var i, j := Find(s.buf, e.pid, 0), Find(s.buf, pid, 0);
    if i < |s.buf| {
      FindIs(r.buf, pid, j);
    } else if |s.buf| < |s.cache| {
      FindIs(r.buf, pid, if j < |s.buf| then j else if pid == e.pid then |s.buf| else |r.buf|);
    } else {
      OverlayIsLogical(s, all, pid);
      FindIs(r.buf, pid, if pid == e.pid then 0 else 1);
    }
  }

  lemma EnqueueKeepsRoom(s: State, all: set<int>, e: Entry)
    requires Coherent(s, all) && e.pid in all
    ensures DistinctPids(Enqueue(s, e).buf) && Room(Enqueue(s, e).table, all)
    ensures forall i :: 0 <= i < |Enqueue(s, e).buf| ==> Enqueue(s, e).buf[i].pid in all
  {
    ReplayIsLatest(s.table, s.buf, all, e.pid);
  }

  lemma PutKeepsAgreement(s: State, pid: int, u: Usage, now: int)
    requires Sound(s) && EntriesAgree(s) && pid > 0 && Overlay(s, pid) == u
    ensures EntriesAgree(CachePut(s, pid, u, now))
  {
    var r := CachePut(s, pid, u, now);
    assert forall p :: Overlay(r, p) == Overlay(s, p);
  }

  lemma BatchUpdateKeepsCoherence(s: State, all: set<int>, pid: int, u: Usage, now: int)
    requires Coherent(s, all) && pid in all
    ensures Coherent(Step(s, BatchUpdate(pid, u, now)), all)
  {
    var mid := Enqueue(s, Entry(pid, u));
    var r := CachePut(mid, pid, u, now);
    EnqueueKeepsRoom(s, all, Entry(pid, u));
    forall i | 0 <= i < |r.cache| && r.cache[i].valid
      ensures var e := r.cache[i];
              e.pid > 0 && HashPid(e.pid, |r.cache|) == i && e.usage == Overlay(r, e.pid)
    {
      var e := r.cache[i];
      EnqueueOverlay(s, all, Entry(pid, u), if i == HashPid(pid, |r.cache|) then pid else e.pid);
      assert Overlay(r, e.pid) == Overlay(mid, e.pid);
    }
  }

  lemma FlushKeepsCoherence(s: State, all: set<int>)
    requires Coherent(s, all)
    ensures Coherent(FlushBuffer(s), all)
  {
    var r := FlushBuffer(s);
    ReplayIsLatest(s.table, s.buf, all, 1);
    forall i | 0 <= i < |r.cache| && r.cache[i].valid
      ensures r.cache[i].usage == Overlay(r, r.cache[i].pid)
    {
      OverlayIsLogical(s, all, r.cache[i].pid);
    }
  }

  /** A step that touches neither table nor buffer and only invalidates entries. */
  lemma InvalidatingKeepsCoherence(s: State, r: State, all: set<int>)
    requires Coherent(s, all) && r == s.(cache := r.cache, ttl := r.ttl) && |r.cache| == |s.cache|
    requires forall i :: 0 <= i < |r.cache| && r.cache[i].valid ==> r.cache[i] == s.cache[i]
    ensures Coherent(r, all)
  {
    assert forall p :: Overlay(r, p) == Overlay(s, p);
  }

  lemma StepKeepsCoherence(s: State, op: Op, all: set<int>)
    requires Coherent(s, all) && Allowed(s, op, all)
    ensures Coherent(Step(s, op), all)
  {
    if op.BatchUpdate? {
      BatchUpdateKeepsCoherence(s, all, op.pid, op.usage, op.now);
    } else if op.Flush? {
      FlushKeepsCoherence(s, all);
    } else if op.Prefetch? {
      if op.pid > 0 { PutKeepsAgreement(s, op.pid, Lookup(s.table, op.pid), op.now); }
    } else {
      InvalidatingKeepsCoherence(s, Step(s, op), all);
    }
  }

  ghost predicate RunAllowed(s: State, ops: seq<Op>, all: set<int>)
    requires Sound(s)
  {
    ops == [] ||
    (RunAllowed(s, ops[..|ops| - 1], all) && Allowed(Run(s, ops[..|ops| - 1]), ops[|ops| - 1], all))
  }

  lemma {:induction false} RunKeepsCoherence(s: State, ops: seq<Op>, all: set<int>)
    requires Coherent(s, all) && RunAllowed(s, ops, all)
    ensures Coherent(Run(s, ops), all)
    ensures KeepsBatching(ops)
    ensures forall i :: 0 <= i < |Updates(ops)| ==> Updates(ops)[i].pid in all
  {
    if ops != [] {
      RunKeepsCoherence(s, ops[..|ops| - 1], all);
      StepKeepsCoherence(Run(s, ops[..|ops| - 1]), ops[|ops| - 1], all);
    }
  }

  /**
   * Main result: after any covered run, a hit for `pid` returns what the table overlaid with the
   * pending buffer holds for `pid`, which is the latest update the run made to that process.
   */
  lemma CacheHitIsLatest(s: State, ops: seq<Op>, all: set<int>, pid: int, now: int)
    requires Coherent(s, all) && s.buf == [] && RunAllowed(s, ops, all)
    ensures var hit := CacheGet(Run(s, ops), pid, now);
            hit.Some? ==>
              && pid > 0
              && hit.value == Overlay(Run(s, ops), pid)
              && hit.value == Latest(Updates(ops), pid, Lookup(s.table, pid))
  {
    RunKeepsCoherence(s, ops, all);
    if CacheGet(Run(s, ops), pid, now).Some? {
      OverlayIsLogical(Run(s, ops), all, pid);
      LogicalTableOfRun(s, ops);
      ReplayIsLatest(s.table, Updates(ops), all, pid);
    }
  }

  /** The state after initialisation is coherent for any set of processes that fits the table. */
  lemma InitialStateIsCoherent(capacity: nat, buckets: nat, all: set<int>)
    requires buckets > 0 && |all| <= capacity && forall p :: p in all ==> p > 0
    ensures Coherent(State(Table(seq(capacity, _ => 0), seq(capacity, _ => ZERO_USAGE)), [],
                           seq(buckets, _ => EMPTY_ENTRY), 100, true, true), all)
  {
  }

  /**
   * Prefetching a process is safe exactly when it has no pending value that differs from the
   * table: otherwise the stale table value enters the cache.
   */
  lemma PrefetchIsCoherentIff(s: State, all: set<int>, pid: int, now: int)
    requires Coherent(s, all) && pid > 0
    ensures Coherent(Step(s, Prefetch(pid, now)), all) <==>
            (!Pending(s, pid) || s.buf[Find(s.buf, pid, 0)].usage == Lookup(s.table, pid))
  {
    var r := Step(s, Prefetch(pid, now));
    assert Overlay(r, pid) == Overlay(s, pid);
    if Overlay(s, pid) == Lookup(s.table, pid) {
      PutKeepsAgreement(s, pid, Lookup(s.table, pid), now);
    } else {
      var e := r.cache[HashPid(pid, |r.cache|)];
      assert e.valid && e.pid == pid && e.usage != Overlay(r, e.pid);
    }
  }

  /**
   * Table overflow: what the cache reports right after an update and the next flush is what the
   * table holds exactly when the table has room for the process, or the update was all zero.
   */
  lemma UpdateReachesTableIff(s: State, pid: int, u: Usage, now: int)
    requires Sound(s) && DistinctPids(s.buf) && s.batching && s.caching && pid > 0 && s.ttl >= 0
    ensures var after := Step(Step(s, BatchUpdate(pid, u, now)), Flush);
            && CacheGet(after, pid, now) == Some(u)
            && (Lookup(after.table, pid) == u <==> Accepts(Logical(s), pid) || u == ZERO_USAGE)
  {
    EnqueueIsUpdate(s, Entry(pid, u));
    UpdateLookup(Logical(s), pid, u, pid);
  }

  // ---------- the time to live ----------

  /** The process whose cache entry the operation writes if the cache is on, and when. */
  function StoreOf(op: Op): Option<(int, int)> {
    match op
    case BatchUpdate(p, _, at) => Some((p, at))
    case PutCached(p, _, at) => Some((p, at))
    case Prefetch(p, at) => Some((p, at))
    case _ => None
  }

  ghost predicate StoredIn(ops: seq<Op>, e: CacheEntry) {
    exists i :: 0 <= i < |ops| && StoreOf(ops[i]) == Some((e.pid, e.lastUpdate))
  }

  predicate StoredWithin(op: Op, pid: int, now: int, ttl: int) {
    StoreOf(op).Some? && StoreOf(op).value.0 == pid && Wrap64(now - StoreOf(op).value.1) <= ttl
  }

  lemma StepStores(s: State, op: Op, k: nat)
    requires Sound(s) && k < |s.cache| && Step(s, op).cache[k].valid
    ensures s.cache[k] == Step(s, op).cache[k]
            || StoreOf(op) == Some((Step(s, op).cache[k].pid, Step(s, op).cache[k].lastUpdate))
  {
  }

  lemma {:induction false} EntriesWereStored(s: State, ops: seq<Op>, k: nat)
    requires Sound(s) && k < |s.cache| && !s.cache[k].valid && Run(s, ops).cache[k].valid
    ensures StoredIn(ops, Run(s, ops).cache[k])
  {
    if ops != [] {
      var init, last := ops[..|ops| - 1], ops[|ops| - 1];
      var e := Run(s, ops).cache[k];
      StepStores(Run(s, init), last, k);
      if Run(s, init).cache[k] == e {
        EntriesWereStored(s, init, k);
        var i :| 0 <= i < |init| && StoreOf(init[i]) == Some((e.pid, e.lastUpdate));
        assert ops[i] == init[i];
      }
    }
  }

  /**
   * A hit is never older than the TTL now in force, over every run of all operations: some store
   * of this very process happened at most that long ago.
   */
  lemma HitIsRecent(s: State, ops: seq<Op>, pid: int, now: int)
    requires Sound(s) && forall k :: 0 <= k < |s.cache| ==> !s.cache[k].valid
    requires CacheGet(Run(s, ops), pid, now).Some?
    ensures exists i :: 0 <= i < |ops| && StoredWithin(ops[i], pid, now, Run(s, ops).ttl)
  {
    var k := HashPid(pid, |s.cache|);
    EntriesWereStored(s, ops, k);
    StoreWasRecent(ops, Run(s, ops).cache[k], now, Run(s, ops).ttl);
  }

  lemma StoreWasRecent(ops: seq<Op>, e: CacheEntry, now: int, ttl: int)
    requires StoredIn(ops, e) && Fresh(e, ttl, now)
    ensures exists i :: 0 <= i < |ops| && StoredWithin(ops[i], e.pid, now, ttl)
  {
    var i :| 0 <= i < |ops| && StoreOf(ops[i]) == Some((e.pid, e.lastUpdate));
    assert StoredWithin(ops[i], e.pid, now, ttl);
  }
}
