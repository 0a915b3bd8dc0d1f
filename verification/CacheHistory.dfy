/**
 * What the cache answers, read off the list of operations: the direct-mapped entries of all
 * processes together behave as if each process had its own little history.
 */
module CacheHistory {
  import opened Words
  import opened ProcessTable
  import opened PerfOptimizer

  // ---------- the switches, from the list alone ----------

  function CachingAfter(ops: seq<Op>, start: bool): bool {
    if ops == [] then start
    else if ops[|ops| - 1].EnableCache? then ops[|ops| - 1].on
    else CachingAfter(ops[..|ops| - 1], start)
  }

  function BatchingAfter(ops: seq<Op>, start: bool): bool {
    if ops == [] then start
    else if ops[|ops| - 1].EnableBatching? then ops[|ops| - 1].on
    else BatchingAfter(ops[..|ops| - 1], start)
  }

  /** The last TTL asked for, moved to the nearer end of 10..10000 if it is outside. */
  predicate TtlFor(ms: int, ttl: int) {
    && 10 <= ttl <= 10000
    && (10 <= ms <= 10000 ==> ttl == ms)
    && (ms < 10 ==> ttl == 10)
    && (ms > 10000 ==> ttl == 10000)
  }

  ghost predicate TtlAfter(ops: seq<Op>, start: int, ttl: int) {
    if ops == [] then ttl == start
    else if ops[|ops| - 1].SetTtl? then TtlFor(ops[|ops| - 1].ms, ttl)
    else TtlAfter(ops[..|ops| - 1], start, ttl)
  }

  /** Each switch holds what the last operation on it asked for. */
  lemma {:induction false} SwitchesAre(s: State, ops: seq<Op>)
    requires Sound(s)
    ensures Run(s, ops).caching == CachingAfter(ops, s.caching)
    ensures Run(s, ops).batching == BatchingAfter(ops, s.batching)
    ensures TtlAfter(ops, s.ttl, Run(s, ops).ttl)
  {
    if ops != [] {
      SwitchesAre(s, ops[..|ops| - 1]);
      SwitchStep(Run(s, ops[..|ops| - 1]), ops[|ops| - 1]);
    }
  }

  lemma SwitchStep(s: State, op: Op)
    requires Sound(s)
    ensures Step(s, op).caching == if op.EnableCache? then op.on else s.caching
    ensures Step(s, op).batching == if op.EnableBatching? then op.on else s.batching
    ensures if op.SetTtl? then TtlFor(op.ms, Step(s, op).ttl) else Step(s, op).ttl == s.ttl
  {
  }

  // ---------- the history of one process ----------

  /** What the cache holds of a process: a value and the time at which it was stored. */
  datatype Held = Nothing | Value(usage: Usage, at: int)

  /** The process, value and time that an operation stores; `caching` and `batching` are on or off. */
  function StoredBy(op: Op, caching: bool, batching: bool, table: Table): Option<(int, Held)>
    requires WellFormed(table)
  {
    if !caching then None
    else
      match op
      case BatchUpdate(p, u, at) => if batching then Some((p, Value(u, at))) else None
      case PutCached(p, u, at) => Some((p, Value(u, at)))
      case Prefetch(p, at) => if p > 0 then Some((p, Value(Lookup(table, p), at))) else None
      case _ => None
  }

  /**
   * What the list of operations leaves of `pid`: the last store into its bucket if that was for
   * `pid` and no invalidation of `pid`, clear, or expired lookup of `pid` came after it.
   */
  ghost function HeldOf(s: State, ops: seq<Op>, pid: int): Held
    requires Sound(s)
  {
    if ops == [] then Nothing
    else
      var init, op := ops[..|ops| - 1], ops[|ops| - 1];
      var before := HeldOf(s, init, pid);
      var caching := CachingAfter(init, s.caching);
      var stored := StoredBy(op, caching, BatchingAfter(init, s.batching), Run(s, init).table);
      if stored.Some? && stored.value.0 == pid then stored.value.1
      else if stored.Some? && HashPid(stored.value.0, |s.cache|) == HashPid(pid, |s.cache|) then Nothing
      else if op == Invalidate(pid) || op.Clear? then Nothing
      else if op.Get? && op.pid == pid && caching && before.Value? && Wrap64(op.now - before.at) > Run(s, init).ttl
      then Nothing
      else before
  }

  /** The bucket of `pid` holds exactly `h` of it. */
  ghost predicate Holds(s: State, pid: int, h: Held)
    requires Sound(s)
  {
    var e := s.cache[HashPid(pid, |s.cache|)];
    && (e.valid && e.pid == pid <==> h.Value?)
    && (h.Value? ==> e.usage == h.usage && e.lastUpdate == h.at)
  }

  /** A store leaves its value in the bucket of its process, and only there. */
  lemma StoreStep(s: State, op: Op, pid: int, h: Held)
    requires Sound(s) && Holds(s, pid, h)
    requires StoredBy(op, s.caching, s.batching, s.table).Some?
    ensures var (p, v) := StoredBy(op, s.caching, s.batching, s.table).value;
            Holds(Step(s, op), pid,
                  if p == pid then v
                  else if HashPid(p, |s.cache|) == HashPid(pid, |s.cache|) then Nothing else h)
  {
  }

  /** Any other operation forgets the process or leaves its entry alone. */
  lemma OtherStep(s: State, op: Op, pid: int, h: Held)
    requires Sound(s) && Holds(s, pid, h)
    requires StoredBy(op, s.caching, s.batching, s.table).None?
    ensures Holds(Step(s, op), pid,
                  if op == Invalidate(pid) || op.Clear? then Nothing
                  else if op.Get? && op.pid == pid && s.caching && h.Value? && Wrap64(op.now - h.at) > s.ttl then Nothing
                  else h)
  {
  }

  lemma {:induction false} RunHolds(s: State, ops: seq<Op>, pid: int)
    requires Sound(s) && forall k :: 0 <= k < |s.cache| ==> !s.cache[k].valid
    ensures Holds(Run(s, ops), pid, HeldOf(s, ops, pid))
  {
    if ops != [] {
      var init, op := ops[..|ops| - 1], ops[|ops| - 1];
      RunHolds(s, init, pid);
      SwitchesAre(s, init);
      var mid := Run(s, init);
      if StoredBy(op, mid.caching, mid.batching, mid.table).Some? {
        StoreStep(mid, op, pid, HeldOf(s, init, pid));
      } else {
        OtherStep(mid, op, pid, HeldOf(s, init, pid));
      }
    }
  }

  /**
   * Main result: over every run of all operations from an empty cache, a lookup answers `u` if and
   * only if the cache is on, the list of operations leaves the value `u` of this process, and
   * that value is not older than the TTL now in force.
   */
  lemma HitIff(s: State, ops: seq<Op>, pid: int, now: int, u: Usage)
    requires Sound(s) && forall k :: 0 <= k < |s.cache| ==> !s.cache[k].valid
    ensures CacheGet(Run(s, ops), pid, now) == Some(u) <==>
            && CachingAfter(ops, s.caching)
            && HeldOf(s, ops, pid).Value? && HeldOf(s, ops, pid).usage == u
            && Wrap64(now - HeldOf(s, ops, pid).at) <= Run(s, ops).ttl
  {
    RunHolds(s, ops, pid);
    SwitchesAre(s, ops);
  }

  /** An invalidated process misses until it is stored again, whatever else happens. */
  lemma {:induction false} InvalidatedMisses(s: State, ops: seq<Op>, pid: int, later: seq<Op>, now: int)
    requires Sound(s) && forall k :: 0 <= k < |s.cache| ==> !s.cache[k].valid
    requires forall i :: 0 <= i < |later| ==> !later[i].BatchUpdate? && !later[i].PutCached? && !later[i].Prefetch?
    ensures HeldOf(s, ops + [Invalidate(pid)] + later, pid).Nothing?
    ensures CacheGet(Run(s, ops + [Invalidate(pid)] + later), pid, now).None?
  {
    var all := ops + [Invalidate(pid)] + later;
    if later == [] {
      assert all[..|all| - 1] == ops;
    } else {
      assert all[..|all| - 1] == ops + [Invalidate(pid)] + later[..|later| - 1];
      InvalidatedMisses(s, ops, pid, later[..|later| - 1], now);
    }
    var hit := CacheGet(Run(s, all), pid, now);
    if hit.Some? { HitIff(s, all, pid, now, hit.value); }
  }
}
