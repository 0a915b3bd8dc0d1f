/**
 * Producers and the background flush thread of src/performance_optimizer.c as a state machine
 * whose steps are the critical sections of `g_batch_mutex`. The forced flush of a full buffer
 * unlocks, flushes and relocks, so other threads run inside that window.
 */
module BatchConcurrency {
  import opened Words
  import opened ProcessTable
  import opened PerfOptimizer
  import opened Coalescing

  /** Where a producer is inside `perf_optimizer_batch_update_resource`. */
  datatype Producer =
    | Idle
    | BufferFull(update: Entry)   // found the buffer full and released the mutex
    | Flushed(update: Entry)      // has flushed and is about to relock and overwrite slot 0

  /** `log` lists the updates in the order in which they entered the buffer (history only). */
  datatype Shared = Shared(table: Table, buf: seq<Entry>, capacity: nat,
                           producers: seq<Producer>, log: seq<Entry>)

  datatype Action =
    | Call(thread: nat, update: Entry)
    | ForcedFlush(thread: nat)
    | Relock(thread: nat)
    | BackgroundFlush

  ghost predicate Initial(s: Shared) {
    && WellFormed(s.table) && s.capacity > 0
    && s.buf == [] && s.log == []
    && forall i :: 0 <= i < |s.producers| ==> s.producers[i] == Idle
  }

  predicate Enabled(s: Shared, a: Action) {
    match a
    case Call(i, _) => i < |s.producers| && s.producers[i].Idle?
    case ForcedFlush(i) => i < |s.producers| && s.producers[i].BufferFull?
    case Relock(i) => i < |s.producers| && s.producers[i].Flushed?
    case BackgroundFlush => true
  }

  function Act(s: Shared, a: Action): (r: Shared)
    requires WellFormed(s.table) && Enabled(s, a)
    ensures WellFormed(r.table) && |r.producers| == |s.producers|
  {
    match a
    case Call(i, e) =>
      var k := Find(s.buf, e.pid, 0);
      if k < |s.buf| then s.(buf := s.buf[k := e], log := s.log + [e])
      else if |s.buf| < s.capacity then s.(buf := s.buf + [e], log := s.log + [e])
      else s.(producers := s.producers[i := BufferFull(e)])
    case ForcedFlush(i) =>
      s.(table := Replay(s.table, s.buf), buf := [],
         producers := s.producers[i := Flushed(s.producers[i].update)])
    case Relock(i) =>
      var e := s.producers[i].update;
      s.(buf := [e], producers := s.producers[i := Idle], log := s.log + [e])
    case BackgroundFlush =>
      s.(table := Replay(s.table, s.buf), buf := [])
  }

  /** The state after an interleaving, if every action of it was enabled. */
  function Exec(s: Shared, acts: seq<Action>): (r: Option<Shared>)
    requires WellFormed(s.table)
    ensures r.Some? ==> WellFormed(r.value.table) && |r.value.producers| == |s.producers|
  {
    if acts == [] then Some(s)
    else
      var mid := Exec(s, acts[..|acts| - 1]);
      var a := acts[|acts| - 1];
      if mid.Some? && Enabled(mid.value, a) then Some(Act(mid.value, a)) else None
  }

  ghost predicate NothingLost(t0: Table, s: Shared)
    requires WellFormed(t0) && WellFormed(s.table)
  {
    && DistinctPids(s.buf) && |s.buf| <= s.capacity
    && Replay(s.table, s.buf) == Replay(t0, s.log)
  }

  /** Storing `e` in the buffer, in place or at the end, is one more update. */
  lemma RewriteLosesNothing(t0: Table, s: Shared, e: Entry, k: nat)
    requires WellFormed(t0) && WellFormed(s.table) && NothingLost(t0, s)
    requires k < |s.buf| && s.buf[k].pid == e.pid
    ensures NothingLost(t0, s.(buf := s.buf[k := e], log := s.log + [e]))
  {
    ReplayOne(t0, s.log, e);
    RewriteKeepsDistinct(s.buf, k, e);
    RewriteIsUpdate(s.table, s.buf, k, e);
  }

  lemma AppendLosesNothing(t0: Table, s: Shared, e: Entry)
    requires WellFormed(t0) && WellFormed(s.table) && NothingLost(t0, s)
    requires Find(s.buf, e.pid, 0) == |s.buf| < s.capacity
    ensures NothingLost(t0, s.(buf := s.buf + [e], log := s.log + [e]))
  {
    ReplayOne(t0, s.log, e);
    AppendIsUpdate(s.table, s.buf, e);
  }

  lemma StoreLosesNothing(t0: Table, s: Shared, e: Entry)
    requires WellFormed(t0) && WellFormed(s.table) && s.capacity > 0 && NothingLost(t0, s)
    ensures var k := Find(s.buf, e.pid, 0);
            && (k < |s.buf| ==> NothingLost(t0, s.(buf := s.buf[k := e], log := s.log + [e])))
            && (k == |s.buf| < s.capacity ==> NothingLost(t0, s.(buf := s.buf + [e], log := s.log + [e])))
  {
    var k := Find(s.buf, e.pid, 0);
    if k < |s.buf| {
      RewriteLosesNothing(t0, s, e, k);
    } else if |s.buf| < s.capacity {
      AppendLosesNothing(t0, s, e);
    }
  }

  // ---------- what a relock may overwrite ----------

  /**
   * Nothing pending matters once `e` is stored: each pending update that a flush would bring into
   * the table is for the process of `e` or repeats what the table already holds.
   */
  ghost predicate Overwritable(t: Table, buf: seq<Entry>, e: Entry)
    requires WellFormed(t)
  {
    forall k :: 0 <= k < |buf| && buf[k].pid > 0 && buf[k].pid in Replay(t, buf).pids ==>
      buf[k].pid == e.pid || (buf[k].pid in t.pids && Lookup(t, buf[k].pid) == buf[k].usage)
  }

  lemma OtherPidStaysOut(t: Table, e: Entry, p: int)
    requires WellFormed(t) && p != e.pid && p in Update(t, e.pid, e.usage).pids
    ensures p in t.pids
  {
    var k :| 0 <= k < |t.pids| && Update(t, e.pid, e.usage).pids[k] == p;
    assert t.pids[k] == p;
  }

  /** A pending update that reaches the table is what the table then holds for its process. */
  lemma {:induction false} ReplayStores(t: Table, buf: seq<Entry>, i: nat)
    requires WellFormed(t) && DistinctPids(buf) && i < |buf|
    requires buf[i].pid > 0 && buf[i].pid in Replay(t, buf).pids
    ensures Lookup(Replay(t, buf), buf[i].pid) == buf[i].usage
  {
    var init, last := buf[..|buf| - 1], buf[|buf| - 1];
    var mid := Replay(t, init);
    UpdateLookup(mid, last.pid, last.usage, buf[i].pid);
    if i < |init| {
      OtherPidStaysOut(mid, last, buf[i].pid);
      ReplayStores(t, init, i);
    }
  }

  /** Writing what the table already holds changes nothing. */
  lemma RepeatChangesNothing(t: Table, e: Entry)
    requires WellFormed(t) && e.pid > 0 && e.pid in t.pids && Lookup(t, e.pid) == e.usage
    ensures Update(t, e.pid, e.usage) == t
  {
    var own := First(t.pids, e.pid, 0);
    assert own < |t.pids|;
    assert t.pids[own := e.pid] == t.pids && t.stats[own := e.usage] == t.stats;
  }

  lemma OverwritableInit(t: Table, buf: seq<Entry>, e: Entry)
    requires WellFormed(t) && buf != [] && Overwritable(t, buf, e)
    ensures Overwritable(t, buf[..|buf| - 1], e)
  {
    var init, last := buf[..|buf| - 1], buf[|buf| - 1];
    forall k | 0 <= k < |init| && init[k].pid > 0 && init[k].pid in Replay(t, init).pids
      ensures init[k].pid == e.pid || (init[k].pid in t.pids && Lookup(t, init[k].pid) == init[k].usage)
    {
      UpdateKeepsPid(Replay(t, init), last.pid, last.usage, init[k].pid);
      assert init[k] == buf[k];
    }
  }

  /** The last pending update makes no difference to the table after `e`. */
  lemma LastIsHidden(t: Table, buf: seq<Entry>, e: Entry)
    requires WellFormed(t) && buf != [] && DistinctPids(buf) && Overwritable(t, buf, e)
    ensures Update(Replay(t, buf), e.pid, e.usage) == Update(Replay(t, buf[..|buf| - 1]), e.pid, e.usage)
  {
    var init, last := buf[..|buf| - 1], buf[|buf| - 1];
    var mid := Replay(t, init);
    if last.pid == e.pid {
      UpdateOverwrites(mid, e.pid, last.usage, e.usage);
    } else if Accepts(mid, last.pid) {
      assert Replay(t, buf).pids[Slot(mid.pids, last.pid)] == last.pid;
      assert last == buf[|init|];
      FindIs(init, last.pid, |init|);
      ReplayLookup(t, init, last.pid);
      RepeatChangesNothing(mid, last);
    }
  }

  lemma {:induction false} OverwritableIsHidden(t: Table, buf: seq<Entry>, e: Entry)
    requires WellFormed(t) && DistinctPids(buf) && Overwritable(t, buf, e)
    ensures Update(Replay(t, buf), e.pid, e.usage) == Update(t, e.pid, e.usage)
  {
    if buf != [] {
      OverwritableInit(t, buf, e);
      LastIsHidden(t, buf, e);
      OverwritableIsHidden(t, buf[..|buf| - 1], e);
    }
  }

  lemma HiddenIsOverwritable(t: Table, buf: seq<Entry>, e: Entry)
    requires WellFormed(t) && DistinctPids(buf)
    requires Update(Replay(t, buf), e.pid, e.usage) == Update(t, e.pid, e.usage)
    ensures Overwritable(t, buf, e)
  {
    var full := Replay(t, buf);
    forall k | 0 <= k < |buf| && buf[k].pid > 0 && buf[k].pid in full.pids && buf[k].pid != e.pid
      ensures buf[k].pid in t.pids && Lookup(t, buf[k].pid) == buf[k].usage
    {
      ReplayStores(t, buf, k);
      UpdateLookup(full, e.pid, e.usage, buf[k].pid);
      UpdateLookup(t, e.pid, e.usage, buf[k].pid);
      UpdateKeepsPid(full, e.pid, e.usage, buf[k].pid);
      OtherPidStaysOut(t, e, buf[k].pid);
    }
  }

  /** Overwriting the buffer with `e` loses nothing exactly when what is pending is overwritable. */
  lemma OverwriteIsUpdateIff(t: Table, buf: seq<Entry>, e: Entry)
    requires WellFormed(t) && DistinctPids(buf)
    ensures Replay(t, [e]) == Replay(t, buf + [e]) <==> Overwritable(t, buf, e)
  {
    ReplayOne(t, [], e);
    assert [] + [e] == [e];
    ReplayOne(t, buf, e);
    if Overwritable(t, buf, e) {
      OverwritableIsHidden(t, buf, e);
    } else if Replay(t, [e]) == Replay(t, buf + [e]) {
      HiddenIsOverwritable(t, buf, e);
    }
  }

  /** The relock of `a`, if it is one, finds only what it may overwrite. */
  ghost predicate Harmless(s: Shared, a: Action)
    requires WellFormed(s.table) && Enabled(s, a)
  {
    a.Relock? ==> Overwritable(s.table, s.buf, s.producers[a.thread].update)
  }

  lemma ActLosesNothingIff(t0: Table, s: Shared, a: Action)
    requires WellFormed(t0) && WellFormed(s.table) && s.capacity > 0
    requires NothingLost(t0, s) && Enabled(s, a)
    ensures NothingLost(t0, Act(s, a)) <==> Harmless(s, a)
  {
    if a.Call? {
      StoreLosesNothing(t0, s, a.update);
    } else if a.Relock? {
      var e := s.producers[a.thread].update;
      ReplayOne(t0, s.log, e);
      ReplayOne(s.table, s.buf, e);
      OverwriteIsUpdateIff(s.table, s.buf, e);
    }
  }

  /** At every moment of the run, table and buffer together hold every stored update. */
  ghost predicate NeverLoses(s: Shared, acts: seq<Action>)
    requires WellFormed(s.table) && Exec(s, acts).Some?
  {
    NothingLost(s.table, Exec(s, acts).value) && (acts == [] || NeverLoses(s, acts[..|acts| - 1]))
  }

  ghost predicate RelocksAreHarmless(s: Shared, acts: seq<Action>)
    requires WellFormed(s.table) && Exec(s, acts).Some?
  {
    acts == [] ||
    (RelocksAreHarmless(s, acts[..|acts| - 1]) && Harmless(Exec(s, acts[..|acts| - 1]).value, acts[|acts| - 1]))
  }

  lemma {:induction false} CapacityIsFixed(s: Shared, acts: seq<Action>)
    requires WellFormed(s.table) && Exec(s, acts).Some?
    ensures Exec(s, acts).value.capacity == s.capacity
  {
    if acts != [] {
      CapacityIsFixed(s, acts[..|acts| - 1]);
    }
  }

  /**
   * Main result: with any number of producers, an interleaving never loses an update if and only
   * if each relock finds only pending updates that it may overwrite. The table may overflow.
   */
  lemma {:induction false} NeverLosesIff(s: Shared, acts: seq<Action>)
    requires Initial(s) && Exec(s, acts).Some?
    ensures NeverLoses(s, acts) <==> RelocksAreHarmless(s, acts)
  {
    if acts != [] {
      var init := acts[..|acts| - 1];
      NeverLosesIff(s, init);
      CapacityIsFixed(s, init);
      if NeverLoses(s, init) {
        ActLosesNothingIff(s.table, Exec(s, init).value, acts[|acts| - 1]);
      }
    }
  }

  /** The updates the producers were called with, in call order. */
  function Calls(acts: seq<Action>): seq<Entry> {
    if acts == [] then []
    else
      var last := acts[|acts| - 1];
      Calls(acts[..|acts| - 1]) + if last.Call? then [last.update] else []
  }

  /** The update a producer has accepted but not stored yet. */
  function InFlight(p: Producer): seq<Entry> {
    if p.Idle? then [] else [p.update]
  }

  /** The issued updates are the stored ones and the one in flight; a window starts empty. */
  ghost predicate InOrder(s: Shared, calls: seq<Entry>) {
    && |s.producers| == 1 && WellFormed(s.table)
    && (s.producers[0].Flushed? ==> s.buf == [])
    && calls == s.log + InFlight(s.producers[0])
  }

  lemma ActKeepsOrder(s: Shared, a: Action, calls: seq<Entry>)
    requires InOrder(s, calls) && Enabled(s, a)
    ensures InOrder(Act(s, a), calls + if a.Call? then [a.update] else [])
  {
  }

  lemma {:induction false} SingleProducerOrder(s: Shared, acts: seq<Action>)
    requires Initial(s) && |s.producers| == 1 && Exec(s, acts).Some?
    ensures RelocksAreHarmless(s, acts)
    ensures InOrder(Exec(s, acts).value, Calls(acts))
  {
    if acts != [] {
      var init := acts[..|acts| - 1];
      SingleProducerOrder(s, init);
      ActKeepsOrder(Exec(s, init).value, acts[|acts| - 1], Calls(init));
    }
  }

  /**
   * Main result: one producer and the flush thread, interleaved in any way, never lose or reorder
   * an update. Flushing the buffer and storing the update in flight gives, slot for slot, the
   * table that direct writes in call order give, even when the table is full; pending pids stay
   * distinct and within capacity.
   */
  lemma SingleProducerLosesNothing(s: Shared, acts: seq<Action>)
    requires Initial(s) && |s.producers| == 1 && Exec(s, acts).Some?
    ensures var r := Exec(s, acts).value;
            && DistinctPids(r.buf) && |r.buf| <= s.capacity
            && Replay(Replay(r.table, r.buf), InFlight(r.producers[0])) == Replay(s.table, Calls(acts))
  {
    var r := Exec(s, acts).value;
    SingleProducerOrder(s, acts);
    NeverLosesIff(s, acts);
    CapacityIsFixed(s, acts);
    ReplayAppend(s.table, r.log, InFlight(r.producers[0]));
  }

  // ---------- two producers ----------

  lemma {:induction false} ExecAppend(s: Shared, acts: seq<Action>, more: seq<Action>)
    requires WellFormed(s.table) && Exec(s, acts).Some?
    ensures Exec(s, acts + more) == Exec(Exec(s, acts).value, more)
  {
    if more == [] {
      assert acts + more == acts;
    } else {
      assert (acts + more)[..|acts + more| - 1] == acts + more[..|more| - 1];
      ExecAppend(s, acts, more[..|more| - 1]);
    }
  }

  lemma ExecOne(s: Shared, a: Action)
    requires WellFormed(s.table) && Enabled(s, a)
    ensures Exec(s, [a]) == Some(Act(s, a))
  {
    assert [a][..0] == [];
  }

  function Window(i: nat, j: nat, f: Entry): seq<Action> {
    [ForcedFlush(i)] + ([Call(j, f)] + [Relock(i)])
  }

  /**
   * The window of a forced flush: an update `f` that producer `j` stores between the flush and
   * the relock of producer `i` survives exactly when it is for the same process, when the flushed
   * table refuses it, or when it repeats what that table holds.
   */
  lemma WindowIsSafeIff(t0: Table, s: Shared, i: nat, j: nat, f: Entry)
    requires WellFormed(t0) && WellFormed(s.table) && s.capacity > 0 && NothingLost(t0, s)
    requires i < |s.producers| && s.producers[i].BufferFull?
    requires j < |s.producers| && s.producers[j].Idle?
    ensures Exec(s, Window(i, j, f)).Some?
    ensures var flushed := Replay(s.table, s.buf);
            NothingLost(t0, Exec(s, Window(i, j, f)).value) <==>
            || f.pid == s.producers[i].update.pid
            || !Accepts(flushed, f.pid)
            || (f.pid in flushed.pids && Lookup(flushed, f.pid) == f.usage)
  {
    var e := s.producers[i].update;
    var s1 := Act(s, ForcedFlush(i));
    ExecOne(s, ForcedFlush(i));
    ExecAppend(s, [ForcedFlush(i)], [Call(j, f)] + [Relock(i)]);
    var s2 := Act(s1, Call(j, f));
    ExecOne(s1, Call(j, f));
    ExecAppend(s1, [Call(j, f)], [Relock(i)]);
    ExecOne(s2, Relock(i));
    ActLosesNothingIff(t0, s, ForcedFlush(i));
    ActLosesNothingIff(t0, s1, Call(j, f));
    ActLosesNothingIff(t0, s2, Relock(i));
    OneIsOverwritableIff(s1.table, f, e);
    assert s2.buf == [f] && s2.table == s1.table && s2.producers[i] == Flushed(e);
  }

  /** An update enters the table exactly when the table accepts it. */
  lemma EntersIff(t: Table, f: Entry)
    requires WellFormed(t) && f.pid > 0
    ensures f.pid in Update(t, f.pid, f.usage).pids <==> Accepts(t, f.pid)
  {
    if Accepts(t, f.pid) {
      assert Update(t, f.pid, f.usage).pids[Slot(t.pids, f.pid)] == f.pid;
    }
  }

  lemma OneIsOverwritableIff(t: Table, f: Entry, e: Entry)
    requires WellFormed(t)
    ensures Overwritable(t, [f], e) <==>
            f.pid == e.pid || !Accepts(t, f.pid) || (f.pid in t.pids && Lookup(t, f.pid) == f.usage)
  {
    var one := [f];
    ReplayOne(t, [], f);
    assert [] + [f] == one;
    if f.pid > 0 { EntersIff(t, f); }
    assert one[0] == f && forall k :: 0 <= k < |one| ==> one[k] == f;
  }

  /** A buffer of one slot is filled by process 7; the update of process 8 is in the window. */
  lemma FillsUp(s: Shared, u: Usage) returns (acts: seq<Action>)
    requires s == Shared(Table([0, 0], [u, u]), [], 1, [Idle, Idle], [])
    ensures Exec(s, acts).Some?
    ensures var full := Exec(s, acts).value;
            && NothingLost(s.table, full) && full.table == s.table && full.capacity == 1
            && full.buf == [Entry(7, u)]
            && full.producers == [BufferFull(Entry(8, u)), Idle]
  {
    var a, b := Call(0, Entry(7, u)), Call(0, Entry(8, u));
    var s1 := Act(s, a);
    assert s1 == s.(buf := [Entry(7, u)], log := [Entry(7, u)]);
    FindIs(s1.buf, 8, 1);
    var s2 := Act(s1, b);
    assert s2 == s1.(producers := [BufferFull(Entry(8, u)), Idle]);
    ActLosesNothingIff(s.table, s, a);
    ActLosesNothingIff(s.table, s1, b);
    assert NothingLost(s.table, s2);
    ExecOne(s, a);
    ExecAppend(s, [a], [b]);
    ExecOne(s1, b);
    acts := [a] + [b];
  }

  lemma SevenEnters(t: Table, u: Usage)
    requires t == Table([0, 0], [u, u])
    ensures Replay(t, [Entry(7, u)]) == Table([7, 0], [u, u])
  {
    ReplayOne(t, [], Entry(7, u));
    assert [] + [Entry(7, u)] == [Entry(7, u)];
    FirstIs(t.pids, 7, 2);
    FirstIs(t.pids, 0, 0);
  }

  /** A window that loses an update can be reached from an empty buffer of one slot. */
  lemma TwoProducersCanLoseAnUpdate(u: Usage)
    ensures exists s: Shared, acts: seq<Action> ::
              Initial(s) && |s.producers| == 2 && Exec(s, acts).Some? &&
              !NothingLost(s.table, Exec(s, acts).value)
  {
    var s := Shared(Table([0, 0], [u, u]), [], 1, [Idle, Idle], []);
    var fill := FillsUp(s, u);
    var full := Exec(s, fill).value;
    SevenEnters(s.table, u);
    FirstIs([7, 0], 9, 2);
    FirstIs([7, 0], 0, 1);
    WindowIsSafeIff(s.table, full, 0, 1, Entry(9, u));
    ExecAppend(s, fill, Window(0, 1, Entry(9, u)));
  }
}
