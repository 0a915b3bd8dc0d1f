/** src/shm/shared_memory.c: the table of per-process usage records in shared memory. */
module ProcessTable {
  import opened Words

  datatype Usage = Usage(qp: int, mr: int, mem: int)

  const ZERO_USAGE := Usage(0, 0, 0)

  /** `process_pids` and `process_stats`; a pid of 0 marks a free slot. */
  datatype Table = Table(pids: seq<int>, stats: seq<Usage>)

  ghost predicate WellFormed(t: Table) {
    |t.pids| == |t.stats|
  }

  /** The contract of `First` determines its value. */
  lemma FirstIs(s: seq<int>, x: int, at: nat)
    requires at <= |s| && (at < |s| ==> s[at] == x)
    requires forall k :: 0 <= k < at ==> s[k] != x
    ensures First(s, x, 0) == at
  {
  }

  /** The slot an update of `pid` goes to: its own, else the first free one, else none. */
  function Slot(pids: seq<int>, pid: int): (r: nat)
    ensures r <= |pids|
  {
    var own := First(pids, pid, 0);
    if own < |pids| then own else First(pids, 0, 0)
  }

  predicate Accepts(t: Table, pid: int) {
    pid > 0 && Slot(t.pids, pid) < |t.pids|
  }

  /** What `shm_update_process_resources` leaves; a full table drops the update. */
  function Update(t: Table, pid: int, u: Usage): (r: Table)
    requires WellFormed(t)
    ensures WellFormed(r) && |r.pids| == |t.pids|
  {
    if !Accepts(t, pid) then t
    else
      var slot := Slot(t.pids, pid);
      Table(t.pids[slot := pid], t.stats[slot := u])
  }

  /** What `shm_get_process_resources` reports for a positive pid. */
  function Lookup(t: Table, pid: int): (u: Usage)
    requires WellFormed(t)
  {
    var i := First(t.pids, pid, 0);
    if i < |t.pids| then t.stats[i] else ZERO_USAGE
  }

  // ---------- properties of the table ----------

  /** A write is read back, and no other process sees it. */
  lemma UpdateLookup(t: Table, pid: int, u: Usage, q: int)
    requires WellFormed(t) && q > 0
    ensures Lookup(Update(t, pid, u), q) ==
            if q == pid && Accepts(t, pid) then u else Lookup(t, q)
  {
    var r := Update(t, pid, u);
    if Accepts(t, pid) {
      var slot := Slot(t.pids, pid);
      assert r.pids[slot] == pid;
      FirstIs(r.pids, q, if q == pid then slot else First(t.pids, q, 0));
    }
  }

  /** `pid` owns a slot or can never get one: later updates of it do not claim a free slot. */
  ghost predicate Settled(t: Table, pid: int) {
    pid <= 0 || pid in t.pids || 0 !in t.pids
  }

  lemma UpdateSettles(t: Table, pid: int, u: Usage, q: int)
    requires WellFormed(t)
    ensures Settled(Update(t, pid, u), pid)
    ensures Settled(t, q) ==> Settled(Update(t, pid, u), q)
  {
    var r := Update(t, pid, u);
    if Accepts(t, pid) {
      var slot := Slot(t.pids, pid);
      assert r.pids[slot] == pid;
      if q in t.pids && q > 0 {
        var k :| 0 <= k < |t.pids| && t.pids[k] == q;
        assert r.pids[k] == q || (k == slot && q == pid);
      }
      if 0 !in t.pids {
        forall k | 0 <= k < |r.pids| ensures r.pids[k] != 0 {
          assert k == slot || r.pids[k] == t.pids[k];
        }
      }
    }
  }

  /** The second of two updates of one process hides the first. */
  lemma UpdateOverwrites(t: Table, pid: int, u: Usage, v: Usage)
    requires WellFormed(t)
    ensures Update(Update(t, pid, u), pid, v) == Update(t, pid, v)
  {
    if Accepts(t, pid) {
      var slot := Slot(t.pids, pid);
      var r := Update(t, pid, u);
      assert r.pids[slot] == pid;
      FirstIs(r.pids, pid, slot);
    }
  }

  /** Updates of different processes commute once one of the two is settled. */
  lemma UpdatesCommute(t: Table, p: int, u: Usage, q: int, v: Usage)
    requires WellFormed(t) && p != q && Settled(t, p)
    ensures Update(Update(t, p, u), q, v) == Update(Update(t, q, v), p, u)
  {
    if Accepts(t, p) && Accepts(t, q) {
      SlotKept(t, p, q, v);
      SlotKept2(t, p, u, q);
    } else if Accepts(t, q) {
      UpdateKeepsRefusal(t, p, q, v);
    } else if Accepts(t, p) {
      var r := Update(t, p, u);
      assert r.pids == t.pids by { SettledKeepsPids(t, p, u); }
    }
  }

  lemma SettledKeepsPids(t: Table, p: int, u: Usage)
    requires WellFormed(t) && Settled(t, p)
    ensures Update(t, p, u).pids == t.pids
  {
    if Accepts(t, p) {
      var own := First(t.pids, p, 0);
      if p in t.pids { assert own < |t.pids|; }
      assert t.pids[Slot(t.pids, p)] == p || 0 in t.pids;
    }
  }

  lemma SlotKept(t: Table, p: int, q: int, v: Usage)
    requires WellFormed(t) && p != q && Settled(t, p) && Accepts(t, p) && Accepts(t, q)
    ensures Accepts(Update(t, q, v), p)
    ensures Slot(Update(t, q, v).pids, p) == Slot(t.pids, p) != Slot(t.pids, q)
  {
    var r := Update(t, q, v);
    var own := First(t.pids, p, 0);
    assert own < |t.pids| by { SettledKeepsPids(t, p, v); }
    assert r.pids[own] == p;
    FirstIs(r.pids, p, own);
  }

  lemma SlotKept2(t: Table, p: int, u: Usage, q: int)
    requires WellFormed(t) && p != q && Settled(t, p)
    ensures Slot(Update(t, p, u).pids, q) == Slot(t.pids, q)
  {
    SettledKeepsPids(t, p, u);
  }

  lemma UpdateKeepsRefusal(t: Table, p: int, q: int, v: Usage)
    requires WellFormed(t) && p != q && Settled(t, p) && !Accepts(t, p)
    ensures !Accepts(Update(t, q, v), p)
  {
    if p > 0 && Accepts(t, q) {
      var r := Update(t, q, v);
      assert p !in t.pids && 0 !in t.pids;
      FirstIs(r.pids, p, |r.pids|);
      FirstIs(r.pids, 0, |r.pids|);
    }
  }

  /** A process never loses its slot, whoever writes to the table. */
  lemma UpdateKeepsListed(t: Table, q: int, u: Usage, pid: int)
    requires WellFormed(t) && pid > 0 && pid in t.pids
    ensures pid in Update(t, q, u).pids && Accepts(t, pid)
  {
    var k :| 0 <= k < |t.pids| && t.pids[k] == pid;
    assert Update(t, q, u).pids[k] == pid;
  }

  // ---------- the shared arrays ----------

  class SharedTable {
    const pids: array<int>
    const stats: array<Usage>

    ghost predicate Valid() {
      pids.Length == stats.Length
    }

    ghost function View(): (t: Table)
      requires Valid()
      reads pids, stats
      ensures WellFormed(t)
    {
      Table(pids[..], stats[..])
    }

    constructor (capacity: nat)
      ensures Valid() && fresh(pids) && fresh(stats) && pids.Length == capacity
      ensures forall i :: 0 <= i < capacity ==> pids[i] == 0
    {
      pids := new int[capacity](_ => 0);
      stats := new Usage[capacity](_ => ZERO_USAGE);
    }

    /** `shm_update_process_resources`. */
    method UpdateProcessResources(pid: int, usage: Usage) returns (rc: int)
      requires Valid()
      modifies pids, stats
      ensures View() == Update(old(View()), pid, usage)
      ensures rc == if Accepts(old(View()), pid) then 0 else -1
    {
      if pid <= 0 { return -1; }
      var slot := -1;
      var i := 0;
      while i < pids.Length
        invariant 0 <= i <= pids.Length
        invariant forall k :: 0 <= k < i ==> pids[k] != pid
        invariant slot == -1 ==> forall k :: 0 <= k < i ==> pids[k] != 0
        invariant slot != -1 ==> 0 <= slot < i && pids[slot] == 0
        invariant slot != -1 ==> forall k :: 0 <= k < slot ==> pids[k] != 0
      {
        if pids[i] == pid {
          slot := i;
          break;
        } else if pids[i] == 0 && slot == -1 {
          slot := i;
        }
        i := i + 1;
      }
      ghost var before := View();
      if slot == -1 { return -1; }
      assert slot == Slot(before.pids, pid);
      if pids[slot] == 0 { pids[slot] := pid; }
      stats[slot] := usage;
      assert pids[..] == before.pids[slot := pid];
      return 0;
    }

    /** `shm_get_process_resources`; on an error the out-parameter is not written. */
    method GetProcessResources(pid: int) returns (rc: int, usage: Usage)
      requires Valid()
      ensures rc == if pid <= 0 then -1 else 0
      ensures rc == 0 ==> usage == Lookup(View(), pid)
    {
      usage := ZERO_USAGE;
      if pid <= 0 { return -1, usage; }
      var i := 0;
      while i < pids.Length
        invariant 0 <= i <= pids.Length
        invariant forall k :: 0 <= k < i ==> pids[k] != pid
      {
        if pids[i] == pid {
          assert i == First(View().pids, pid, 0);
          return 0, stats[i];
        }
        i := i + 1;
      }
      return 0, usage;
    }
  }
}
