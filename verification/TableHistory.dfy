/**
 * The process table as a function of its history: processes get the slots in the order in which
 * they first report, as many as there are slots, and each slot holds the last report.
 */
module TableHistory {
  import opened Words
  import opened ProcessTable
  import opened PerfOptimizer

  /** The processes that report, in the order of their first report. */
  function Arrivals(es: seq<Entry>): seq<int> {
    if es == [] then []
    else
      var before, p := Arrivals(es[..|es| - 1]), es[|es| - 1].pid;
      if p <= 0 || p in before then before else before + [p]
  }

  /** Those that find a slot. */
  function Listed(es: seq<Entry>, slots: nat): (l: seq<int>)
    ensures |l| <= slots && |l| <= |Arrivals(es)|
  {
    var all := Arrivals(es);
    if |all| <= slots then all else all[..slots]
  }

  /** The last report of `pid`, or zero usage. */
  function LastReport(es: seq<Entry>, pid: int): Usage {
    if es == [] then Usage(0, 0, 0)
    else if es[|es| - 1].pid == pid then es[|es| - 1].usage
    else LastReport(es[..|es| - 1], pid)
  }

  /** The first slots hold `listed` with their last reports, the rest are free. */
  ghost predicate IsHistory(t: Table, listed: seq<int>, es: seq<Entry>) {
    && WellFormed(t) && |listed| <= |t.pids|
    && (forall i :: 0 <= i < |t.pids| ==> t.pids[i] == if i < |listed| then listed[i] else 0)
    && (forall i :: 0 <= i < |listed| ==> t.stats[i] == LastReport(es, listed[i]))
  }

  lemma {:induction false} ArrivalsAreDistinct(es: seq<Entry>)
    ensures Distinct(Arrivals(es)) && forall i :: 0 <= i < |Arrivals(es)| ==> Arrivals(es)[i] > 0
  {
    if es != [] {
      ArrivalsAreDistinct(es[..|es| - 1]);
    }
  }

  lemma ReportSnoc(es: seq<Entry>, e: Entry, pid: int)
    ensures LastReport(es + [e], pid) == if e.pid == pid then e.usage else LastReport(es, pid)
    ensures Arrivals(es + [e]) ==
            if e.pid <= 0 || e.pid in Arrivals(es) then Arrivals(es) else Arrivals(es) + [e.pid]
  {
    assert (es + [e])[..|es|] == es;
  }

  /** A report of a listed process rewrites its slot. */
  lemma ListedReports(t: Table, listed: seq<int>, es: seq<Entry>, e: Entry, at: nat)
    requires IsHistory(t, listed, es) && Distinct(listed) && at < |listed| && listed[at] == e.pid > 0
    ensures IsHistory(Update(t, e.pid, e.usage), listed, es + [e])
  {
    FirstIs(t.pids, e.pid, at);
    forall i | 0 <= i < |listed|
      ensures Update(t, e.pid, e.usage).stats[i] == LastReport(es + [e], listed[i])
    {
      ReportSnoc(es, e, listed[i]);
    }
  }

  /** A new process takes the first free slot. */
  lemma NewcomerReports(t: Table, listed: seq<int>, es: seq<Entry>, e: Entry)
    requires IsHistory(t, listed, es) && e.pid > 0 && e.pid !in listed && |listed| < |t.pids|
    requires forall i :: 0 <= i < |listed| ==> listed[i] > 0
    ensures IsHistory(Update(t, e.pid, e.usage), listed + [e.pid], es + [e])
  {
    FirstIs(t.pids, e.pid, |t.pids|);
    FirstIs(t.pids, 0, |listed|);
    forall i | 0 <= i < |listed| + 1
      ensures Update(t, e.pid, e.usage).stats[i] == LastReport(es + [e], (listed + [e.pid])[i])
    {
      ReportSnoc(es, e, (listed + [e.pid])[i]);
    }
  }

  /** A process that finds no slot, or has no pid, leaves no trace. */
  lemma RefusedReports(t: Table, listed: seq<int>, es: seq<Entry>, e: Entry)
    requires IsHistory(t, listed, es) && e.pid !in listed && (e.pid <= 0 || |listed| == |t.pids|)
    requires forall i :: 0 <= i < |listed| ==> listed[i] > 0
    ensures IsHistory(Update(t, e.pid, e.usage), listed, es + [e])
  {
    if e.pid > 0 {
      FirstIs(t.pids, e.pid, |t.pids|);
      FirstIs(t.pids, 0, |t.pids|);
    }
    forall i | 0 <= i < |listed| ensures LastReport(es + [e], listed[i]) == LastReport(es, listed[i]) {
      ReportSnoc(es, e, listed[i]);
    }
  }

  lemma ReportIsHistory(t: Table, es: seq<Entry>, e: Entry)
    requires IsHistory(t, Listed(es, |t.pids|), es)
    ensures IsHistory(Update(t, e.pid, e.usage), Listed(es + [e], |t.pids|), es + [e])
  {
    var slots, listed := |t.pids|, Listed(es, |t.pids|);
    ArrivalsAreDistinct(es);
    ReportSnoc(es, e, e.pid);
    assert forall i :: 0 <= i < |listed| ==> listed[i] == Arrivals(es)[i];
    if e.pid in listed {
      var at :| 0 <= at < |listed| && listed[at] == e.pid;
      assert Listed(es + [e], slots) == listed;
      ListedReports(t, listed, es, e, at);
    } else if e.pid > 0 && |listed| < slots {
      assert Listed(es + [e], slots) == listed + [e.pid];
      NewcomerReports(t, listed, es, e);
    } else {
      assert Listed(es + [e], slots) == listed;
      RefusedReports(t, listed, es, e);
    }
  }

  /**
   * Main result: from an empty table every sequence of updates leaves the first slots to the
   * processes in order of arrival, as many as fit, each with its last report, and the rest free.
   */
  lemma {:induction false} TableIsHistory(t: Table, es: seq<Entry>)
    requires WellFormed(t) && forall i :: 0 <= i < |t.pids| ==> t.pids[i] == 0
    ensures IsHistory(Replay(t, es), Listed(es, |t.pids|), es)
  {
    if es != [] {
      var init, last := es[..|es| - 1], es[|es| - 1];
      TableIsHistory(t, init);
      ReportIsHistory(Replay(t, init), init, last);
      assert init + [last] == es;
    }
  }

  /** A lookup reads the last report of a process that found a slot, and zero usage for any other. */
  lemma LookupIsHistory(t: Table, es: seq<Entry>, pid: int)
    requires WellFormed(t) && pid > 0 && forall i :: 0 <= i < |t.pids| ==> t.pids[i] == 0
    ensures Lookup(Replay(t, es), pid) == if pid in Listed(es, |t.pids|) then LastReport(es, pid) else Usage(0, 0, 0)
  {
    var r, listed := Replay(t, es), Listed(es, |t.pids|);
    TableIsHistory(t, es);
    var i := First(r.pids, pid, 0);
    if pid in listed {
      var at :| 0 <= at < |listed| && listed[at] == pid;
      assert r.pids[at] == pid;
    }
  }
}
