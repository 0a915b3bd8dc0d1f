/**
 * src/performance_optimizer.c: the write-behind batch buffer and the direct-mapped TTL cache in
 * front of the process table. `State` and `Step` specify the operations; the class carries them
 * out in place.
 */
module PerfOptimizer {
  import opened Words
  import opened ProcessTable

  datatype Entry = Entry(pid: int, usage: Usage)

  datatype CacheEntry = CacheEntry(pid: int, usage: Usage, lastUpdate: int, valid: bool)

  const EMPTY_ENTRY := CacheEntry(0, ZERO_USAGE, 0, false)

  /** `buf` holds the used part of the batch buffer; its capacity is the bucket count, as in the source. */
  datatype State = State(table: Table, buf: seq<Entry>, cache: seq<CacheEntry>, ttl: int,
                         caching: bool, batching: bool)

  datatype Op =
    | BatchUpdate(pid: int, usage: Usage, now: int)
    | Flush
    | Get(pid: int, now: int)
    | PutCached(pid: int, usage: Usage, now: int)
    | Invalidate(pid: int)
    | Clear
    | Prefetch(pid: int, now: int)
    | SetTtl(ms: int)
    | EnableCache(on: bool)
    | EnableBatching(on: bool)

  ghost predicate Sound(s: State) {
    WellFormed(s.table) && |s.cache| > 0 && |s.buf| <= |s.cache|
  }

  /** `hash_pid`: 32-bit multiplicative hashing. */
  function HashPid(pid: int, buckets: nat): (h: nat)
    requires buckets > 0
    ensures h < buckets
  {
    Wrap32(Wrap32(pid) * 2654435761) % buckets
  }

  function PendingPids(buf: seq<Entry>): seq<int> {
    seq(|buf|, i requires 0 <= i < |buf| => buf[i].pid)
  }

  /** Index of the pending update of `pid` at or after `from`, or the length. */
  function Find(buf: seq<Entry>, pid: int, from: nat): (r: nat)
    requires from <= |buf|
    ensures from <= r <= |buf|
    ensures r < |buf| ==> buf[r].pid == pid
    ensures forall k :: from <= k < r ==> buf[k].pid != pid
  {
    var r := First(PendingPids(buf), pid, from);
    assert forall k :: from <= k < r ==> PendingPids(buf)[k] == buf[k].pid;
    r
  }

  /** The table after applying `es` one by one. */
  function Replay(t: Table, es: seq<Entry>): (r: Table)
    requires WellFormed(t)
    ensures WellFormed(r) && |r.pids| == |t.pids|
  {
    if es == [] then t
    else
      var last := es[|es| - 1];
      Update(Replay(t, es[..|es| - 1]), last.pid, last.usage)
  }

  function FlushBuffer(s: State): State
    requires Sound(s)
  {
    s.(table := Replay(s.table, s.buf), buf := [])
  }

  /** The critical sections of `perf_optimizer_batch_update_resource`, forced flush included. */
  function Enqueue(s: State, e: Entry): (r: State)
    requires Sound(s)
    ensures Sound(r)
  {
    var i := Find(s.buf, e.pid, 0);
    if i < |s.buf| then s.(buf := s.buf[i := e])
    else if |s.buf| < |s.cache| then s.(buf := s.buf + [e])
    else FlushBuffer(s).(buf := [e])
  }

  function CachePut(s: State, pid: int, u: Usage, now: int): State
    requires |s.cache| > 0
  {
    if !s.caching then s
    else s.(cache := s.cache[HashPid(pid, |s.cache|) := CacheEntry(pid, u, now, true)])
  }

  /** A hit needs a valid entry of this very pid that is not older than the TTL (unsigned subtraction). */
  predicate Fresh(e: CacheEntry, ttl: int, now: int) {
    Wrap64(now - e.lastUpdate) <= ttl
  }

  function CacheGet(s: State, pid: int, now: int): Option<Usage>
    requires |s.cache| > 0
  {
    var e := s.cache[HashPid(pid, |s.cache|)];
    if s.caching && e.valid && e.pid == pid && Fresh(e, s.ttl, now) then Some(e.usage) else None
  }

  function CacheDrop(s: State, pid: int): State
    requires |s.cache| > 0
  {
    var i := HashPid(pid, |s.cache|);
    if s.cache[i].pid == pid then s.(cache := s.cache[i := s.cache[i].(valid := false)]) else s
  }

  function CacheAfterGet(s: State, pid: int, now: int): State
    requires |s.cache| > 0
  {
    var i := HashPid(pid, |s.cache|);
    var e := s.cache[i];
    if s.caching && e.valid && e.pid == pid && !Fresh(e, s.ttl, now)
    then s.(cache := s.cache[i := e.(valid := false)]) else s
  }

  function CacheClear(s: State): State {
    s.(cache := seq(|s.cache|, i requires 0 <= i < |s.cache| => s.cache[i].(valid := false)))
  }

  function Clamp(ms: int): (r: int)
    ensures 10 <= r <= 10000
  {
    if ms < 10 then 10 else if ms > 10000 then 10000 else ms
  }

  function Step(s: State, op: Op): (r: State)
    requires Sound(s)
    ensures Sound(r) && |r.cache| == |s.cache| && |r.table.pids| == |s.table.pids|
  {
    match op
    case BatchUpdate(pid, u, now) =>
      if !s.batching then s.(table := Update(s.table, pid, u))
      else CachePut(Enqueue(s, Entry(pid, u)), pid, u, now)
    case Flush => FlushBuffer(s)
    case Get(pid, now) => CacheAfterGet(s, pid, now)
    case PutCached(pid, u, now) => CachePut(s, pid, u, now)
    case Invalidate(pid) => CacheDrop(s, pid)
    case Clear => CacheClear(s)
    case Prefetch(pid, now) => if pid <= 0 then s else CachePut(s, pid, Lookup(s.table, pid), now)
    case SetTtl(ms) => s.(ttl := Clamp(ms))
    case EnableCache(on) => s.(caching := on)
    case EnableBatching(on) => s.(batching := on)
  }

  function Run(s: State, ops: seq<Op>): (r: State)
    requires Sound(s)
    ensures Sound(r) && |r.cache| == |s.cache| && |r.table.pids| == |s.table.pids|
  {
    if ops == [] then s else Step(Run(s, ops[..|ops| - 1]), ops[|ops| - 1])
  }

  /** The updates a run was asked to make, oldest first. */
  function Updates(ops: seq<Op>): seq<Entry> {
    if ops == [] then []
    else
      var last := ops[|ops| - 1];
      Updates(ops[..|ops| - 1]) + if last.BatchUpdate? then [Entry(last.pid, last.usage)] else []
  }

  // ---------- the module's state ----------

  class Optimizer {
    const table: SharedTable
    const bufPids: array<int>
    const pending: array<Usage>
    const entries: array<CacheEntry>
    var count: nat
    var ttl: int
    var caching: bool
    var batching: bool

    ghost predicate Valid()
      reads this
    {
      && table.Valid()
      && bufPids.Length == pending.Length == entries.Length > 0
      && count <= bufPids.Length
      && bufPids != table.pids && pending != table.stats
    }

    ghost function Buffer(): (b: seq<Entry>)
      requires Valid()
      reads this, bufPids, pending
      ensures |b| == count
    {
      seq(count, i requires 0 <= i < bufPids.Length && i < pending.Length reads bufPids, pending => Entry(bufPids[i], pending[i]))
    }

    ghost function View(): (s: State)
      requires Valid()
      reads this, bufPids, pending, entries, table.pids, table.stats
      ensures Sound(s)
    {
      State(table.View(), Buffer(), entries[..], ttl, caching, batching)
    }

    constructor (table: SharedTable, buckets: nat)
      requires table.Valid() && buckets > 0
      ensures Valid() && fresh(bufPids) && fresh(pending) && fresh(entries)
      ensures this.table == table && entries.Length == buckets
      ensures View() == State(table.View(), [], seq(buckets, _ => EMPTY_ENTRY), 100, true, true)
    {
      this.table := table;
      bufPids := new int[buckets](_ => 0);
      pending := new Usage[buckets](_ => ZERO_USAGE);
      entries := new CacheEntry[buckets](_ => EMPTY_ENTRY);
      count, ttl, caching, batching := 0, 100, true, true;
      new;
      assert entries[..] == seq(buckets, _ => EMPTY_ENTRY);
    }

    /** `perf_optimizer_get_cached_resources`. */
    method GetCached(pid: int, now: int) returns (hit: bool, usage: Usage)
      requires Valid()
      modifies entries
      ensures Valid() && View() == Step(old(View()), Get(pid, now))
      ensures (if hit then Some(usage) else None) == CacheGet(old(View()), pid, now)
    {
      hit, usage := false, ZERO_USAGE;
      if !caching { return; }
      var idx := HashPid(pid, entries.Length);
      var entry := entries[idx];
      if !entry.valid || entry.pid != pid { return; }
      if Wrap64(now - entry.lastUpdate) > ttl {
        entries[idx] := entry.(valid := false);
        return;
      }
      return true, entry.usage;
    }

    /** `perf_optimizer_update_cached_resources`. */
    method UpdateCached(pid: int, usage: Usage, now: int)
      requires Valid()
      modifies entries
      ensures Valid() && View() == CachePut(old(View()), pid, usage, now)
    {
      if !caching { return; }
      var idx := HashPid(pid, entries.Length);
      entries[idx] := CacheEntry(pid, usage, now, true);
    }

    /** `perf_optimizer_invalidate_cache`. */
    method InvalidateCache(pid: int)
      requires Valid()
      modifies entries
      ensures Valid() && View() == Step(old(View()), Invalidate(pid))
    {
      var idx := HashPid(pid, entries.Length);
      if entries[idx].pid == pid {
        entries[idx] := entries[idx].(valid := false);
      }
    }

    /** `perf_optimizer_clear_cache`. */
    method ClearCache()
      requires Valid()
      modifies entries
      ensures Valid() && View() == Step(old(View()), Clear)
    {
      ghost var before := entries[..];
      for i := 0 to entries.Length
        invariant forall k :: 0 <= k < i ==> entries[k] == before[k].(valid := false)
        invariant forall k :: i <= k < entries.Length ==> entries[k] == before[k]
      {
        entries[i] := entries[i].(valid := false);
      }
    }

    /** `perf_optimizer_flush_batch_buffer`. */
    method FlushBatchBuffer()
      requires Valid()
      modifies this`count, table.pids, table.stats
      ensures Valid() && View() == Step(old(View()), Flush)
      ensures count == 0
    {
      if count == 0 { return; }
      ghost var buf, before := Buffer(), table.View();
      var i := 0;
      while i < count
        invariant 0 <= i <= count == old(count)
        invariant table.View() == Replay(before, buf[..i])
        invariant bufPids[..] == old(bufPids[..]) && pending[..] == old(pending[..])
      {
        assert buf[..i + 1][..i] == buf[..i];
        var rc := table.UpdateProcessResources(bufPids[i], pending[i]);
        i := i + 1;
      }
      assert buf[..count] == buf;
      count := 0;
    }

    /** `perf_optimizer_batch_update_resource`; the direct path reports the table's own result. */
    method BatchUpdateResource(pid: int, usage: Usage, now: int) returns (rc: int)
      requires Valid()
      modifies this`count, bufPids, pending, entries, table.pids, table.stats
      ensures Valid() && View() == Step(old(View()), BatchUpdate(pid, usage, now))
      ensures rc == if old(batching) || Accepts(old(table.View()), pid) then 0 else -1
    {
      if !batching {
        rc := table.UpdateProcessResources(pid, usage);
        return;
      }
      ghost var s := View();
      var found := -1;
      var i := 0;
      while i < count
        invariant 0 <= i <= count
        invariant found == -1
        invariant forall k :: 0 <= k < i ==> bufPids[k] != pid
      {
        if bufPids[i] == pid {
          found := i;
          break;
        }
        i := i + 1;
      }
      assert i == Find(s.buf, pid, 0) by { FindIs(s.buf, pid, i); }
      if found >= 0 {
        pending[found] := usage;
        assert Buffer() == s.buf[found := Entry(pid, usage)];
      } else if count < bufPids.Length {
        bufPids[count] := pid;
        pending[count] := usage;
        count := count + 1;
        assert Buffer() == s.buf + [Entry(pid, usage)];
      } else {
        FlushBatchBuffer();
        bufPids[0] := pid;
        pending[0] := usage;
        count := 1;
        assert Buffer() == [Entry(pid, usage)];
      }
      assert View() == Enqueue(s, Entry(pid, usage));
      UpdateCached(pid, usage, now);
      rc := 0;
    }

    /** `perf_optimizer_prefetch_resources`. */
    method PrefetchResources(pid: int, now: int)
      requires Valid()
      modifies entries
      ensures Valid() && View() == Step(old(View()), Prefetch(pid, now))
    {
      var rc, usage := table.GetProcessResources(pid);
      if rc == 0 {
        UpdateCached(pid, usage, now);
      }
    }

    /** `perf_optimizer_set_cache_ttl`. */
    method SetCacheTtl(ms: int)
      requires Valid()
      modifies this`ttl
      ensures Valid() && View() == Step(old(View()), SetTtl(ms))
    {
      var t := ms;
      if t < 10 { t := 10; }
      if t > 10000 { t := 10000; }
      ttl := t;
    }
  }

  lemma FindIs(buf: seq<Entry>, pid: int, at: nat)
    requires at <= |buf| && (at < |buf| ==> buf[at].pid == pid)
    requires forall k :: 0 <= k < at ==> buf[k].pid != pid
    ensures Find(buf, pid, 0) == at
  {
  }
}
