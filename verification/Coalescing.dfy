/**
 * The write-behind buffer is exact: whatever was coalesced and whenever it was flushed, the
 * final table is the one that applying every update directly, in order, would have produced,
 * slot for slot and even when the table is full.
 */
module Coalescing {
  import opened Words
  import opened ProcessTable
  import opened PerfOptimizer

  ghost predicate DistinctPids(buf: seq<Entry>) {
    forall i, j :: 0 <= i < j < |buf| ==> buf[i].pid != buf[j].pid
  }

  /** The table a flush of the pending updates would leave. */
  function Logical(s: State): (t: Table)
    requires Sound(s)
    ensures WellFormed(t)
  {
    Replay(s.table, s.buf)
  }

  lemma {:induction false} ReplaySettles(t: Table, es: seq<Entry>, i: nat)
    requires WellFormed(t) && i < |es|
    ensures Settled(Replay(t, es), es[i].pid)
  {
    var init, last := es[..|es| - 1], es[|es| - 1];
    UpdateSettles(Replay(t, init), last.pid, last.usage, es[i].pid);
    if i < |init| {
      ReplaySettles(t, init, i);
    }
  }

  lemma {:induction false} ReplayAppend(t: Table, a: seq<Entry>, b: seq<Entry>)
    requires WellFormed(t)
    ensures Replay(t, a + b) == Replay(Replay(t, a), b)
  {
    if b == [] {
      assert a + b == a;
    } else {
      assert (a + b)[..|a + b| - 1] == a + b[..|b| - 1];
      ReplayAppend(t, a, b[..|b| - 1]);
    }
  }

  lemma ReplayOne(t: Table, es: seq<Entry>, e: Entry)
    requires WellFormed(t)
    ensures Replay(t, es + [e]) == Update(Replay(t, es), e.pid, e.usage)
  {
    assert (es + [e])[..|es|] == es;
  }

  /** Rewriting a pending update in place has the effect of one more update at the end. */
  lemma {:induction false} RewriteIsUpdate(t: Table, buf: seq<Entry>, i: nat, e: Entry)
    requires WellFormed(t) && DistinctPids(buf)
    requires i < |buf| && buf[i].pid == e.pid
    ensures Replay(t, buf[i := e]) == Update(Replay(t, buf), e.pid, e.usage)
  {
    var init, last := buf[..|buf| - 1], buf[|buf| - 1];
    if i == |init| {
      assert buf[i := e][..|init|] == init;
      UpdateOverwrites(Replay(t, init), e.pid, last.usage, e.usage);
    } else {
      assert buf[i := e][..|init|] == init[i := e];
      RewriteIsUpdate(t, init, i, e);
      ReplaySettles(t, init, i);
      UpdatesCommute(Replay(t, init), e.pid, e.usage, last.pid, last.usage);
    }
  }

  lemma RewriteKeepsDistinct(buf: seq<Entry>, i: nat, e: Entry)
    requires DistinctPids(buf) && i < |buf| && buf[i].pid == e.pid
    ensures DistinctPids(buf[i := e])
  {
  }

  lemma AppendIsUpdate(t: Table, buf: seq<Entry>, e: Entry)
    requires WellFormed(t) && DistinctPids(buf) && Find(buf, e.pid, 0) == |buf|
    ensures DistinctPids(buf + [e])
    ensures Replay(t, buf + [e]) == Update(Replay(t, buf), e.pid, e.usage)
  {
    ReplayOne(t, buf, e);
  }

  lemma EnqueueIsUpdate(s: State, e: Entry)
    requires Sound(s) && DistinctPids(s.buf)
    ensures DistinctPids(Enqueue(s, e).buf)
    ensures Logical(Enqueue(s, e)) == Update(Logical(s), e.pid, e.usage)
  {
    var i := Find(s.buf, e.pid, 0);
    if i < |s.buf| {
      RewriteKeepsDistinct(s.buf, i, e);
      RewriteIsUpdate(s.table, s.buf, i, e);
    } else if |s.buf| < |s.cache| {
      AppendIsUpdate(s.table, s.buf, e);
    } else {
      assert [] + [e] == [e];
      AppendIsUpdate(Replay(s.table, s.buf), [], e);
    }
  }

  /** Nothing in the run switches batching off. */
  ghost predicate KeepsBatching(ops: seq<Op>) {
    forall i :: 0 <= i < |ops| ==> ops[i] != EnableBatching(false)
  }

  /** Every operation moves the logical table by the updates it was asked to make. */
  lemma LogicalTableOfStep(s: State, op: Op)
    requires Sound(s) && DistinctPids(s.buf) && s.batching && op != EnableBatching(false)
    ensures Step(s, op).batching && DistinctPids(Step(s, op).buf)
    ensures Logical(Step(s, op)) ==
            if op.BatchUpdate? then Update(Logical(s), op.pid, op.usage) else Logical(s)
  {
    if op.BatchUpdate? {
      EnqueueIsUpdate(s, Entry(op.pid, op.usage));
    }
  }

  lemma {:induction false} LogicalTableOfRun(s: State, ops: seq<Op>)
    requires Sound(s) && DistinctPids(s.buf) && s.batching && KeepsBatching(ops)
    ensures Run(s, ops).batching && DistinctPids(Run(s, ops).buf)
    ensures Logical(Run(s, ops)) == Replay(Logical(s), Updates(ops))
  {
    if ops != [] {
      var init, op := ops[..|ops| - 1], ops[|ops| - 1];
      LogicalTableOfRun(s, init);
      LogicalTableOfStep(Run(s, init), op);
      if op.BatchUpdate? {
        assert Updates(ops)[..|Updates(ops)| - 1] == Updates(init);
      } else {
        assert Updates(ops) == Updates(init);
      }
    }
  }

  /** Main result: flush after any run equals direct replay of every update. */
  lemma CoalescingIsExact(s: State, ops: seq<Op>)
    requires Sound(s) && s.buf == [] && s.batching && KeepsBatching(ops)
    ensures Step(Run(s, ops), Flush).table == Replay(s.table, Updates(ops))
    ensures Step(Run(s, ops), Flush).buf == []
  {
    LogicalTableOfRun(s, ops);
  }

  // ---------- why batching must stay on ----------

  lemma {:induction false} ReplayLookup(t: Table, buf: seq<Entry>, p: int)
    requires WellFormed(t) && DistinctPids(buf) && p in t.pids && p > 0
    ensures p in Replay(t, buf).pids
    ensures Lookup(Replay(t, buf), p) ==
            var i := Find(buf, p, 0); if i < |buf| then buf[i].usage else Lookup(t, p)
  {
    if buf != [] {
      var init, last := buf[..|buf| - 1], buf[|buf| - 1];
      ReplayLookup(t, init, p);
      var mid := Replay(t, init);
      UpdateLookup(mid, last.pid, last.usage, p);
      UpdateKeepsPid(mid, last.pid, last.usage, p);
      FindIs(buf, p, if last.pid == p then |init| else if Find(init, p, 0) < |init| then Find(init, p, 0) else |buf|);
    }
  }

  lemma UpdateKeepsPid(t: Table, pid: int, u: Usage, p: int)
    requires WellFormed(t) && p > 0 && p in t.pids
    ensures p in Update(t, pid, u).pids
  {
    var k :| 0 <= k < |t.pids| && t.pids[k] == p;
    assert Update(t, pid, u).pids[k] == p;
  }

  /**
   * A direct write made while batching is off survives the next flush exactly when the buffer
   * holds no different pending value for the same process.
   */
  lemma DirectWriteSurvivesIff(s: State, pid: int, u: Usage, now: int)
    requires Sound(s) && DistinctPids(s.buf) && !s.batching && Accepts(s.table, pid)
    ensures var after := Step(Step(s, BatchUpdate(pid, u, now)), Flush).table;
            var i := Find(s.buf, pid, 0);
            Lookup(after, pid) == u <==> (i == |s.buf| || s.buf[i].usage == u)
  {
    var direct := Update(s.table, pid, u);
    assert direct.pids[Slot(s.table.pids, pid)] == pid;
    UpdateLookup(s.table, pid, u, pid);
    ReplayLookup(direct, s.buf, pid);
  }
}
