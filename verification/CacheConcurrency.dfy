/**
 * Producers, the flush thread and readers of src/performance_optimizer.c together: after storing
 * an update in the buffer a producer releases the mutex and only then writes the cache entry,
 * under the spin lock of the entry. Readers may look at the cache at any moment.
 */
module CacheConcurrency {
  import opened Words
  import opened ProcessTable
  import opened PerfOptimizer
  import opened Coalescing
  import Coherence = CacheCoherence
  import Batch = BatchConcurrency

  /** `stores` holds, per producer, the update that is in the buffer but not yet in the cache. */
  datatype State = State(batch: Batch.Shared, cache: seq<CacheEntry>, stores: seq<Option<Entry>>)

  /** `Drop` is an expiry found by a reader, an invalidation or one step of clearing the cache. */
  datatype Action =
    | Buffer(step: Batch.Action)
    | Store(thread: nat, now: int)
    | Drop(bucket: nat)

  ghost predicate Sound(s: State) {
    && WellFormed(s.batch.table) && |s.cache| > 0
    && |s.stores| == |s.batch.producers|
  }

  predicate Enabled(s: State, a: Action) {
    match a
    case Buffer(b) =>
      Batch.Enabled(s.batch, b) && (b.Call? ==> b.thread < |s.stores| && s.stores[b.thread].None?)
    case Store(i, _) => i < |s.stores| && s.stores[i].Some?
    case Drop(k) => k < |s.cache|
  }

  /** The update that a step of the buffer has stored and that its producer will put in the cache. */
  function Stored(s: State, b: Batch.Action): Option<(nat, Entry)>
    requires Sound(s) && Batch.Enabled(s.batch, b)
  {
    match b
    case Call(i, e) =>
      if |Batch.Act(s.batch, b).log| > |s.batch.log| then Some((i, e)) else None
    case Relock(i) => Some((i, s.batch.producers[i].update))
    case ForcedFlush(_) => None
    case BackgroundFlush => None
  }

  function Act(s: State, a: Action): (r: State)
    requires Sound(s) && Enabled(s, a)
    ensures Sound(r) && |r.cache| == |s.cache| && |r.stores| == |s.stores|
  {
    match a
    case Buffer(b) =>
      var p := Stored(s, b);
      s.(batch := Batch.Act(s.batch, b),
         stores := if p.Some? then s.stores[p.value.0 := Some(p.value.1)] else s.stores)
    case Store(i, now) =>
      var e := s.stores[i].value;
      s.(cache := s.cache[HashPid(e.pid, |s.cache|) := CacheEntry(e.pid, e.usage, now, true)],
         stores := s.stores[i := None])
    case Drop(k) => s.(cache := s.cache[k := s.cache[k].(valid := false)])
  }

  function Exec(s: State, acts: seq<Action>): (r: Option<State>)
    requires Sound(s)
    ensures r.Some? ==> Sound(r.value) && |r.value.cache| == |s.cache| && |r.value.stores| == |s.stores|
  {
    if acts == [] then Some(s)
    else
      var mid := Exec(s, acts[..|acts| - 1]);
      var a := acts[|acts| - 1];
      if mid.Some? && Enabled(mid.value, a) then Some(Act(mid.value, a)) else None
  }

  ghost predicate Initial(s: State) {
    && Sound(s) && Batch.Initial(s.batch)
    && (forall i :: 0 <= i < |s.stores| ==> s.stores[i].None?)
    && (forall k :: 0 <= k < |s.cache| ==> !s.cache[k].valid)
  }

  /** What a reader gets that finds a valid entry of `pid`; one that has expired it drops instead. */
  function Hit(s: State, pid: int): Option<Usage>
    requires Sound(s)
  {
    var e := s.cache[HashPid(pid, |s.cache|)];
    if e.valid && e.pid == pid then Some(e.usage) else None
  }

  /** The last update of `pid` in `es`. */
  function LastOf(es: seq<Entry>, pid: int): Option<Usage> {
    if es == [] then None
    else if es[|es| - 1].pid == pid then Some(es[|es| - 1].usage)
    else LastOf(es[..|es| - 1], pid)
  }

  lemma {:induction false} LastOfIsLatest(es: seq<Entry>, pid: int, start: Usage)
    ensures Coherence.Latest(es, pid, start) == if LastOf(es, pid).Some? then LastOf(es, pid).value else start
  {
    if es != [] {
      LastOfIsLatest(es[..|es| - 1], pid, start);
    }
  }

  /** Some producer has an update of `pid` in the buffer that is not in the cache yet. */
  ghost predicate Storing(s: State, pid: int) {
    exists i :: 0 <= i < |s.stores| && s.stores[i].Some? && s.stores[i].value.pid == pid
  }

  /** No producer is storing `pid`, or the cache has nothing of it, or it has the last update. */
  ghost predicate SettledFor(s: State, pid: int)
    requires Sound(s)
  {
    Storing(s, pid) || Hit(s, pid).None? || Hit(s, pid) == LastOf(s.batch.log, pid)
  }

  ghost predicate Settled(s: State)
    requires Sound(s)
  {
    forall pid :: SettledFor(s, pid)
  }

  /** A store that leaves no other store of its process outstanding stores the last update. */
  ghost predicate StoresLast(s: State, a: Action)
    requires Sound(s) && Enabled(s, a)
  {
    a.Store? ==>
      var e := s.stores[a.thread].value;
      Storing(Act(s, a), e.pid) || LastOf(s.batch.log, e.pid) == Some(e.usage)
  }

  lemma LogStep(s: State, b: Batch.Action)
    requires Sound(s) && Enabled(s, Buffer(b))
    ensures var p := Stored(s, b);
            Batch.Act(s.batch, b).log == if p.Some? then s.batch.log + [p.value.1] else s.batch.log
    ensures Stored(s, b).Some? ==> Stored(s, b).value.0 < |s.stores| && b.thread == Stored(s, b).value.0
  {
  }

  lemma LastOfAppend(es: seq<Entry>, e: Entry, pid: int)
    ensures LastOf(es + [e], pid) == if e.pid == pid then Some(e.usage) else LastOf(es, pid)
  {
    assert (es + [e])[..|es|] == es;
  }

  /** Between steps of the buffer a producer has at most one update to put in the cache. */
  ghost predicate OneEach(s: State)
    requires Sound(s)
  {
    forall i :: 0 <= i < |s.stores| && s.stores[i].Some? ==> s.batch.producers[i].Idle?
  }

  lemma ActKeepsOneEach(s: State, a: Action)
    requires Sound(s) && OneEach(s) && Enabled(s, a)
    ensures OneEach(Act(s, a))
  {
  }

  lemma BufferStepSettles(s: State, b: Batch.Action, pid: int)
    requires Sound(s) && OneEach(s) && Enabled(s, Buffer(b)) && SettledFor(s, pid)
    ensures SettledFor(Act(s, Buffer(b)), pid)
  {
    var r, p := Act(s, Buffer(b)), Stored(s, b);
    LogStep(s, b);
    if p.Some? {
      LastOfAppend(s.batch.log, p.value.1, pid);
      assert s.stores[p.value.0].None?;
      assert r.stores[p.value.0] == Some(p.value.1);
      if Storing(s, pid) {
        var i :| 0 <= i < |s.stores| && s.stores[i].Some? && s.stores[i].value.pid == pid;
        assert r.stores[i] == s.stores[i];
      }
    }
  }

  lemma StoreSettlesOthers(s: State, i: nat, now: int, pid: int)
    requires Sound(s) && Enabled(s, Store(i, now)) && SettledFor(s, pid) && pid != s.stores[i].value.pid
    ensures SettledFor(Act(s, Store(i, now)), pid)
  {
    var r := Act(s, Store(i, now));
    if Storing(s, pid) {
      var j :| 0 <= j < |s.stores| && s.stores[j].Some? && s.stores[j].value.pid == pid;
      assert r.stores[j] == s.stores[j];
    }
  }

  lemma ActSettlesIff(s: State, a: Action)
    requires Sound(s) && OneEach(s) && Enabled(s, a) && Settled(s)
    ensures Settled(Act(s, a)) <==> StoresLast(s, a)
  {
    var r := Act(s, a);
    if a.Store? {
      var e := s.stores[a.thread].value;
      assert Hit(r, e.pid) == Some(e.usage);
      assert SettledFor(r, e.pid) <==> StoresLast(s, a);
      forall pid | pid != e.pid ensures SettledFor(r, pid) {
        assert SettledFor(s, pid);
        StoreSettlesOthers(s, a.thread, a.now, pid);
      }
    } else if a.Buffer? {
      forall pid ensures SettledFor(r, pid) {
        assert SettledFor(s, pid);
        BufferStepSettles(s, a.step, pid);
      }
    } else {
      forall pid ensures SettledFor(r, pid) {
        assert SettledFor(s, pid);
        assert Storing(r, pid) <==> Storing(s, pid);
      }
    }
  }

  // ---------- any number of producers ----------

  ghost predicate AlwaysSettled(s: State, acts: seq<Action>)
    requires Sound(s) && Exec(s, acts).Some?
  {
    Settled(Exec(s, acts).value) && (acts == [] || AlwaysSettled(s, acts[..|acts| - 1]))
  }

  ghost predicate StoresComeInOrder(s: State, acts: seq<Action>)
    requires Sound(s) && Exec(s, acts).Some?
  {
    acts == [] ||
    (StoresComeInOrder(s, acts[..|acts| - 1]) && StoresLast(Exec(s, acts[..|acts| - 1]).value, acts[|acts| - 1]))
  }

  lemma {:induction false} RunKeepsOneEach(s: State, acts: seq<Action>)
    requires Initial(s) && Exec(s, acts).Some?
    ensures OneEach(Exec(s, acts).value)
  {
    if acts != [] {
      RunKeepsOneEach(s, acts[..|acts| - 1]);
      ActKeepsOneEach(Exec(s, acts[..|acts| - 1]).value, acts[|acts| - 1]);
    }
  }

  lemma InitialIsSettled(s: State)
    requires Initial(s)
    ensures Settled(s)
  {
    forall pid ensures SettledFor(s, pid) {
      assert Hit(s, pid).None?;
    }
  }

  /**
   * Main result: with any number of producers, a hit for a process that no producer is storing is
   * at all times its last buffered update if and only if, among the cache writes of one process
   * that overlap, the last one stores the last update.
   */
  lemma {:induction false} AlwaysSettledIff(s: State, acts: seq<Action>)
    requires Initial(s) && Exec(s, acts).Some?
    ensures AlwaysSettled(s, acts) <==> StoresComeInOrder(s, acts)
  {
    if acts == [] {
      InitialIsSettled(s);
    } else {
      var init := acts[..|acts| - 1];
      AlwaysSettledIff(s, init);
      RunKeepsOneEach(s, init);
      if AlwaysSettled(s, init) {
        ActSettlesIff(Exec(s, init).value, acts[|acts| - 1]);
      }
    }
  }

  // ---------- one producer ----------

  /** The updates that are both in the buffer and in the cache. */
  function Cached(s: State): seq<Entry>
    requires |s.stores| == 1
  {
    if s.stores[0].Some? && s.batch.log != [] then s.batch.log[..|s.batch.log| - 1] else s.batch.log
  }

  /** The outstanding store is the last of the log; every hit is the last cached update. */
  ghost predicate InOrder(s: State) {
    && Sound(s) && |s.stores| == 1 && OneEach(s)
    && (s.stores[0].Some? ==> s.batch.log != [] && s.batch.log[|s.batch.log| - 1] == s.stores[0].value)
    && forall pid :: Hit(s, pid).Some? ==> Hit(s, pid) == LastOf(Cached(s), pid)
  }

  lemma ActKeepsOrder(s: State, a: Action)
    requires InOrder(s) && Enabled(s, a)
    ensures StoresLast(s, a) && InOrder(Act(s, a))
  {
    var r := Act(s, a);
    ActKeepsOneEach(s, a);
    if a.Buffer? {
      LogStep(s, a.step);
      assert Cached(r) == Cached(s);
      assert forall pid :: Hit(r, pid) == Hit(s, pid);
    } else if a.Store? {
      var e := s.stores[0].value;
      assert s.batch.log == Cached(s) + [e];
      forall pid | Hit(r, pid).Some? ensures Hit(r, pid) == LastOf(Cached(r), pid) {
        LastOfAppend(Cached(s), e, pid);
      }
      LastOfAppend(Cached(s), e, e.pid);
    } else {
      forall pid | Hit(r, pid).Some? ensures Hit(r, pid) == LastOf(Cached(r), pid) {
        assert Hit(r, pid) == Hit(s, pid);
      }
    }
  }

  lemma {:induction false} RunKeepsOrder(s: State, acts: seq<Action>)
    requires Initial(s) && |s.stores| == 1 && Exec(s, acts).Some?
    ensures StoresComeInOrder(s, acts) && InOrder(Exec(s, acts).value)
  {
    if acts == [] {
      assert forall pid :: Hit(s, pid).None?;
    } else {
      RunKeepsOrder(s, acts[..|acts| - 1]);
      ActKeepsOrder(Exec(s, acts[..|acts| - 1]).value, acts[|acts| - 1]);
    }
  }

  /**
   * Main result: with one producer, on all interleavings with the flush thread and any readers, a
   * hit is the last update of exactly this process, not counting the one that the producer is
   * about to put in the cache.
   */
  lemma SingleProducerHitIsLatest(s: State, acts: seq<Action>, pid: int)
    requires Initial(s) && |s.stores| == 1 && Exec(s, acts).Some?
    ensures AlwaysSettled(s, acts)
    ensures var r := Exec(s, acts).value;
            Hit(r, pid).Some? ==> Hit(r, pid) == LastOf(Cached(r), pid)
  {
    RunKeepsOrder(s, acts);
    AlwaysSettledIff(s, acts);
  }

  /** The buffer steps of an interleaving. */
  function BufferSteps(acts: seq<Action>): seq<Batch.Action> {
    if acts == [] then []
    else
      var last := acts[|acts| - 1];
      BufferSteps(acts[..|acts| - 1]) + if last.Buffer? then [last.step] else []
  }

  lemma {:induction false} BufferRunsAlone(s: State, acts: seq<Action>)
    requires Sound(s) && Exec(s, acts).Some?
    ensures Batch.Exec(s.batch, BufferSteps(acts)) == Some(Exec(s, acts).value.batch)
  {
    if acts != [] {
      var init, last := acts[..|acts| - 1], acts[|acts| - 1];
      BufferRunsAlone(s, init);
      if last.Buffer? {
        assert BufferSteps(acts)[..|BufferSteps(acts)| - 1] == BufferSteps(init);
      } else {
        assert BufferSteps(acts) == BufferSteps(init);
      }
    }
  }

  /**
   * With one producer and room in the table for its processes, a hit for a process it is not
   * storing is what the table overlaid with the buffer holds for that process.
   */
  lemma SingleProducerHitIsLogical(s: State, acts: seq<Action>, pid: int, all: set<int>)
    requires Initial(s) && |s.stores| == 1 && Exec(s, acts).Some? && pid > 0
    requires Coherence.Room(s.batch.table, all)
    requires forall i :: 0 <= i < |Exec(s, acts).value.batch.log| ==> Exec(s, acts).value.batch.log[i].pid in all
    ensures var r := Exec(s, acts).value;
            Hit(r, pid).Some? && !Storing(r, pid) ==>
            Hit(r, pid).value == Lookup(Replay(r.batch.table, r.batch.buf), pid)
  {
    var r := Exec(s, acts).value;
    SingleProducerHitIsLatest(s, acts, pid);
    BufferRunsAlone(s, acts);
    Batch.SingleProducerOrder(s.batch, BufferSteps(acts));
    Batch.NeverLosesIff(s.batch, BufferSteps(acts));
    Coherence.ReplayIsLatest(s.batch.table, r.batch.log, all, pid);
    LastOfIsLatest(r.batch.log, pid, Lookup(s.batch.table, pid));
    assert SettledFor(r, pid);
  }

  // ---------- two producers ----------

  lemma {:induction false} ExecAppend(s: State, acts: seq<Action>, more: seq<Action>)
    requires Sound(s) && Exec(s, acts).Some?
    ensures Exec(s, acts + more) == Exec(Exec(s, acts).value, more)
  {
    if more == [] {
      assert acts + more == acts;
    } else {
      assert (acts + more)[..|acts + more| - 1] == acts + more[..|more| - 1];
      ExecAppend(s, acts, more[..|more| - 1]);
    }
  }

  lemma ExecOne(s: State, a: Action)
    requires Sound(s) && Enabled(s, a)
    ensures Exec(s, [a]) == Some(Act(s, a))
  {
    assert [a][..0] == [];
  }

  /** Two outstanding stores of one process, the last update first, leave a stale entry. */
  lemma ReorderedStoresAreStale(s: State, i: nat, j: nat, now: int)
    requires Sound(s) && i < |s.stores| && j < |s.stores| && i != j
    requires s.stores[i].Some? && s.stores[j].Some? && s.stores[i].value.pid == s.stores[j].value.pid
    requires LastOf(s.batch.log, s.stores[i].value.pid) == Some(s.stores[j].value.usage)
    requires s.stores[i].value.usage != s.stores[j].value.usage
    requires forall k :: 0 <= k < |s.stores| && k != i && k != j ==> s.stores[k].None?
    ensures Exec(s, [Store(j, now)] + [Store(i, now)]).Some?
    ensures var r, pid := Exec(s, [Store(j, now)] + [Store(i, now)]).value, s.stores[i].value.pid;
            !Storing(r, pid) && Hit(r, pid).Some? && Hit(r, pid) != LastOf(r.batch.log, pid)
  {
    ExecOne(s, Store(j, now));
    ExecAppend(s, [Store(j, now)], [Store(i, now)]);
    ExecOne(Act(s, Store(j, now)), Store(i, now));
  }

  /**
   * Two producers can leave a stale entry: both buffer an update of one process, and the later
   * one is the first to write the cache.
   */
  lemma TwoProducersCanLeaveStaleEntry(s: State, pid: int, u: Usage, v: Usage, now: int) returns (acts: seq<Action>)
    requires Initial(s) && |s.stores| == 2 && u != v
    ensures Exec(s, acts).Some? && !Settled(Exec(s, acts).value)
  {
    var a, b := Buffer(Batch.Call(0, Entry(pid, u))), Buffer(Batch.Call(1, Entry(pid, v)));
    var s1 := Act(s, a);
    ExecOne(s, a);
    ExecAppend(s, [a], [b]);
    LogStep(s, Batch.Call(0, Entry(pid, u)));
    assert s1.batch.buf == [Entry(pid, u)] && s1.stores[0] == Some(Entry(pid, u));
    ExecOne(s1, b);
    var s2 := Act(s1, b);
    LogStep(s1, Batch.Call(1, Entry(pid, v)));
    assert s2.stores[0] == Some(Entry(pid, u)) && s2.stores[1] == Some(Entry(pid, v));
    LastOfAppend(s1.batch.log, Entry(pid, v), pid);
    ReorderedStoresAreStale(s2, 0, 1, now);
    ExecAppend(s, [a] + [b], [Store(1, now)] + [Store(0, now)]);
    acts := [a] + [b] + ([Store(1, now)] + [Store(0, now)]);
    assert !SettledFor(Exec(s, acts).value, pid);
  }
}
