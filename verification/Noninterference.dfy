/**
 * Serial runs of all tenant hooks: what one tenant observes does not depend on what the processes
 * of other tenants do. The tenants share the process table; a process is safe from the others
 * there once it is listed. The global QP count is an input of QP creation.
 */
module Noninterference {
  import opened Words
  import opened Verbs
  import opened ProcessTable
  import opened TenantRegistry
  import opened TenantHooks
  import opened TenantQuota

  /** A hook call of a process, or an administrative call. */
  datatype Move = HookMove(pid: int, call: HookCall) | AdminMove(admin: Call)

  /** The shared record and the in-process counters of every process. */
  datatype World = World(reg: Registry, table: Table, locals: map<int, Local>)

  ghost predicate SoundWorld(w: World) {
    Bounded(w.reg) && WellFormed(w.table)
  }

  function ProcIn(w: World, pid: int): Proc {
    Proc(w.reg, w.table, if pid in w.locals then w.locals[pid] else Local(0, 0, 0))
  }

  function Next(cfg: int -> Config, w: World, m: Move): (r: World)
    requires SoundWorld(w)
    ensures SoundWorld(r) && |r.reg.tenants| == |w.reg.tenants|
  {
    match m
    case HookMove(pid, call) =>
      var p := HookStep(cfg(pid), ProcIn(w, pid), pid, call);
      World(p.reg, p.table, w.locals[pid := p.local])
    case AdminMove(c) => w.(reg := Apply(w.reg, c))
  }

  /** The moves of tenant `t`: hooks of the processes bound to it and calls on its record. */
  predicate Concerns(maps: seq<Mapping>, t: nat, m: Move) {
    match m
    case HookMove(pid, _) => Owns(maps, t, pid)
    case AdminMove(c) =>
      match c
      case CreateTenant(id, _, _) => id == t
      case SetTenantStatus(id, _) => id == t
      case SetTenantQuota(id, _) => id == t
      case _ => true
  }

  /**
   * No call that rebinds processes or overwrites a usage record; a process of `t` that creates QPs
   * and reads the process table is listed in it from the start (table `start`).
   */
  ghost predicate Covered(cfg: int -> Config, start: Table, maps: seq<Mapping>, t: nat, m: Move) {
    match m
    case HookMove(pid, call) => call.CreateQp? && Owns(maps, t, pid) && ReadsTable(cfg(pid), pid) ==> pid in start.pids
    case AdminMove(c) => c.CreateTenant? || c.SetTenantStatus? || c.SetTenantQuota?
  }

  predicate ReadsTable(c: Config, pid: int) {
    c.mapped && pid > 0
  }

  function RunMoves(cfg: int -> Config, w: World, ms: seq<Move>): (r: World)
    requires SoundWorld(w)
    ensures SoundWorld(r) && |r.reg.tenants| == |w.reg.tenants|
    decreases |ms|
  {
    if ms == [] then w else RunMoves(cfg, Next(cfg, w, ms[0]), ms[1..])
  }

  /** The answers tenant `t` gets, in order. */
  function Observed(cfg: int -> Config, w: World, ms: seq<Move>, t: nat): seq<Verbs.Outcome>
    requires SoundWorld(w)
    decreases |ms|
  {
    if ms == [] then []
    else
      var m := ms[0];
      (if m.HookMove? && Concerns(w.reg.maps, t, m)
       then [OutcomeOf(cfg(m.pid), ProcIn(w, m.pid), m.pid, m.call)] else [])
      + Observed(cfg, Next(cfg, w, m), ms[1..], t)
  }

  /** The run without the moves of other tenants. */
  function Only(maps: seq<Mapping>, ms: seq<Move>, t: nat): seq<Move>
    decreases |ms|
  {
    if ms == [] then []
    else (if Concerns(maps, t, ms[0]) then [ms[0]] else []) + Only(maps, ms[1..], t)
  }

  /** Both tables list `pid` with the same usage. */
  ghost predicate ListedAlike(a: Table, b: Table, pid: int)
    requires WellFormed(a) && WellFormed(b)
  {
    pid in a.pids && pid in b.pids && Lookup(a, pid) == Lookup(b, pid)
  }

  /** Process `pid`, listed in `start` if `listed`, sees the same in both worlds. */
  ghost predicate SeesAlike(a: World, b: World, start: Table, pid: int)
    requires SoundWorld(a) && SoundWorld(b)
  {
    && ProcIn(a, pid).local == ProcIn(b, pid).local
    && (pid > 0 && pid in start.pids ==> ListedAlike(a.table, b.table, pid))
  }

  /** Two worlds that tenant `t` cannot tell apart. */
  ghost predicate Agree(a: World, b: World, start: Table, t: nat) {
    && SoundWorld(a) && SoundWorld(b) && t != 0
    && a.reg.maps == b.reg.maps
    && |a.reg.tenants| == |b.reg.tenants|
    && (t < |a.reg.tenants| ==> a.reg.tenants[t] == b.reg.tenants[t])
    && forall pid :: Owns(a.reg.maps, t, pid) ==> SeesAlike(a, b, start, pid)
  }

  lemma HookFrame(cfg: Config, p: Proc, pid: int, call: HookCall, t: nat)
    requires Sane(p) && t != 0
    ensures var r := HookStep(cfg, p, pid, call).reg;
            && r.maps == p.reg.maps
            && (t < |r.tenants| && !Owns(p.reg.maps, t, pid) ==> r.tenants[t] == p.reg.tenants[t])
  {
  }

  /** A hook of `pid` leaves the table record of any other listed process `q` alone. */
  lemma HookTableFrame(cfg: Config, p: Proc, pid: int, call: HookCall, q: int)
    requires Sane(p) && q > 0 && q != pid && q in p.table.pids
    ensures var r := HookStep(cfg, p, pid, call).table;
            q in r.pids && Lookup(r, q) == Lookup(p.table, q)
  {
    if call.CreateQp? {
      var l := Count(p.local, call);
      UpdateLookup(p.table, pid, Usage(l.qp, l.mr, l.mem), q);
      UpdateKeepsListed(p.table, pid, Usage(l.qp, l.mr, l.mem), q);
    }
  }

  /** What a process that sees the same in two states is told, and what its tenant's record becomes. */
  lemma OwnHookAgrees(cfg: Config, p: Proc, q: Proc, pid: int, call: HookCall, t: nat)
    requires Sane(p) && Sane(q) && t != 0
    requires p.reg.maps == q.reg.maps && |p.reg.tenants| == |q.reg.tenants|
    requires t < |p.reg.tenants| ==> p.reg.tenants[t] == q.reg.tenants[t]
    requires Owns(p.reg.maps, t, pid) && p.local == q.local
    requires call.CreateQp? && ReadsTable(cfg, pid) ==> ListedAlike(p.table, q.table, pid)
    ensures OutcomeOf(cfg, p, pid, call) == OutcomeOf(cfg, q, pid, call)
    ensures HookStep(cfg, p, pid, call).local == HookStep(cfg, q, pid, call).local
    ensures var r, s := HookStep(cfg, p, pid, call).reg, HookStep(cfg, q, pid, call).reg;
            t < |r.tenants| ==> r.tenants[t] == s.tenants[t]
  {
    OwnOutcomeAgrees(cfg, p, q, pid, call, t);
  }

  lemma OwnOutcomeAgrees(cfg: Config, p: Proc, q: Proc, pid: int, call: HookCall, t: nat)
    requires Sane(p) && Sane(q) && t != 0
    requires p.reg.maps == q.reg.maps && |p.reg.tenants| == |q.reg.tenants|
    requires t < |p.reg.tenants| ==> p.reg.tenants[t] == q.reg.tenants[t]
    requires Owns(p.reg.maps, t, pid)
    requires call.CreateQp? && ReadsTable(cfg, pid) ==> ListedAlike(p.table, q.table, pid)
    ensures OutcomeOf(cfg, p, pid, call) == OutcomeOf(cfg, q, pid, call)
  {
    assert CurrentTenant(cfg, p.reg, pid) == CurrentTenant(cfg, q.reg, pid);
  }

  lemma OwnTableAgrees(cfg: Config, p: Proc, q: Proc, pid: int, call: HookCall)
    requires Sane(p) && Sane(q) && p.local == q.local && pid > 0
    requires ListedAlike(p.table, q.table, pid)
    requires OutcomeOf(cfg, p, pid, call) == OutcomeOf(cfg, q, pid, call)
    ensures ListedAlike(HookStep(cfg, p, pid, call).table, HookStep(cfg, q, pid, call).table, pid)
  {
    if call.CreateQp? {
      var l := Count(p.local, call);
      UpdateLookup(p.table, pid, Usage(l.qp, l.mr, l.mem), pid);
      UpdateLookup(q.table, pid, Usage(l.qp, l.mr, l.mem), pid);
      UpdateKeepsListed(p.table, pid, Usage(l.qp, l.mr, l.mem), pid);
      UpdateKeepsListed(q.table, pid, Usage(l.qp, l.mr, l.mem), pid);
    }
  }

  /** A move of another tenant is invisible to `t`. */
  lemma ForeignMoveIsInvisible(cfg: int -> Config, a: World, b: World, m: Move, start: Table, t: nat)
    requires Agree(a, b, start, t) && Covered(cfg, start, a.reg.maps, t, m) && !Concerns(a.reg.maps, t, m)
    ensures Agree(Next(cfg, a, m), b, start, t)
  {
    if m.HookMove? {
      HookFrame(cfg(m.pid), ProcIn(a, m.pid), m.pid, m.call, t);
      forall pid | Owns(a.reg.maps, t, pid) ensures SeesAlike(Next(cfg, a, m), b, start, pid) {
        assert SeesAlike(a, b, start, pid);
        if pid > 0 && pid in start.pids {
          HookTableFrame(cfg(m.pid), ProcIn(a, m.pid), m.pid, m.call, pid);
        }
      }
    } else {
      assert forall pid :: Owns(a.reg.maps, t, pid) ==> SeesAlike(a, b, start, pid);
    }
  }

  /** A move of `t` gives the same answer and the same record in both worlds. */
  lemma OwnMoveAgrees(cfg: int -> Config, a: World, b: World, m: Move, start: Table, t: nat)
    requires Agree(a, b, start, t) && Covered(cfg, start, a.reg.maps, t, m) && Concerns(a.reg.maps, t, m)
    ensures Agree(Next(cfg, a, m), Next(cfg, b, m), start, t)
    ensures m.HookMove? ==>
              OutcomeOf(cfg(m.pid), ProcIn(a, m.pid), m.pid, m.call) ==
              OutcomeOf(cfg(m.pid), ProcIn(b, m.pid), m.pid, m.call)
  {
    if m.HookMove? {
      OwnHookMoveAgrees(cfg, a, b, m.pid, m.call, start, t);
    } else {
      forall pid | Owns(a.reg.maps, t, pid) ensures SeesAlike(Next(cfg, a, m), Next(cfg, b, m), start, pid) {
        assert SeesAlike(a, b, start, pid);
      }
    }
  }

  lemma OwnHookMoveAgrees(cfg: int -> Config, a: World, b: World, pid: int, call: HookCall, start: Table, t: nat)
    requires Agree(a, b, start, t) && Covered(cfg, start, a.reg.maps, t, HookMove(pid, call)) && Owns(a.reg.maps, t, pid)
    ensures Agree(Next(cfg, a, HookMove(pid, call)), Next(cfg, b, HookMove(pid, call)), start, t)
    ensures OutcomeOf(cfg(pid), ProcIn(a, pid), pid, call) == OutcomeOf(cfg(pid), ProcIn(b, pid), pid, call)
  {
    var m := HookMove(pid, call);
    var p, q := ProcIn(a, pid), ProcIn(b, pid);
    assert SeesAlike(a, b, start, pid);
    HookFrame(cfg(pid), p, pid, call, t);
    HookFrame(cfg(pid), q, pid, call, t);
    OwnHookAgrees(cfg(pid), p, q, pid, call, t);
    forall other | Owns(a.reg.maps, t, other) ensures SeesAlike(Next(cfg, a, m), Next(cfg, b, m), start, other) {
      assert SeesAlike(a, b, start, other);
      if other > 0 && other in start.pids {
        if other == pid {
          OwnTableAgrees(cfg(pid), p, q, pid, call);
        } else {
          HookTableFrame(cfg(pid), p, pid, call, other);
          HookTableFrame(cfg(pid), q, pid, call, other);
        }
      }
    }
  }

  lemma RunFirst(cfg: int -> Config, w: World, m: Move, rest: seq<Move>, t: nat)
    requires SoundWorld(w)
    ensures RunMoves(cfg, w, [m] + rest) == RunMoves(cfg, Next(cfg, w, m), rest)
    ensures Observed(cfg, w, [m] + rest, t) ==
            (if m.HookMove? && Concerns(w.reg.maps, t, m)
             then [OutcomeOf(cfg(m.pid), ProcIn(w, m.pid), m.pid, m.call)] else [])
            + Observed(cfg, Next(cfg, w, m), rest, t)
    ensures Only(w.reg.maps, [m] + rest, t) ==
            (if Concerns(w.reg.maps, t, m) then [m] else []) + Only(w.reg.maps, rest, t)
  {
    assert ([m] + rest)[1..] == rest;
  }

  ghost predicate AllCovered(cfg: int -> Config, start: Table, maps: seq<Mapping>, t: nat, ms: seq<Move>) {
    forall i :: 0 <= i < |ms| ==> Covered(cfg, start, maps, t, ms[i])
  }

  lemma {:induction false} FilteredRunAgrees(cfg: int -> Config, a: World, b: World, ms: seq<Move>, start: Table, t: nat)
    requires Agree(a, b, start, t) && AllCovered(cfg, start, a.reg.maps, t, ms)
    ensures Observed(cfg, a, ms, t) == Observed(cfg, b, Only(a.reg.maps, ms, t), t)
    ensures Agree(RunMoves(cfg, a, ms), RunMoves(cfg, b, Only(a.reg.maps, ms, t)), start, t)
    decreases |ms|
  {
    if ms != [] {
      var m, tail := ms[0], ms[1..];
      var own := Only(a.reg.maps, tail, t);
      assert ms == [m] + tail;
      assert Covered(cfg, start, a.reg.maps, t, m) && AllCovered(cfg, start, a.reg.maps, t, tail);
      RunFirst(cfg, a, m, tail, t);
      MapsKept(cfg, a, m);
      if Concerns(a.reg.maps, t, m) {
        OwnMoveAgrees(cfg, a, b, m, start, t);
        FilteredRunAgrees(cfg, Next(cfg, a, m), Next(cfg, b, m), tail, start, t);
        RunFirst(cfg, b, m, own, t);
      } else {
        ForeignMoveIsInvisible(cfg, a, b, m, start, t);
        FilteredRunAgrees(cfg, Next(cfg, a, m), b, tail, start, t);
        assert Only(a.reg.maps, ms, t) == own;
      }
    }
  }

  lemma MapsKept(cfg: int -> Config, w: World, m: Move)
    requires SoundWorld(w) && (m.AdminMove? ==> m.admin.CreateTenant? || m.admin.SetTenantStatus? || m.admin.SetTenantQuota?)
    ensures Next(cfg, w, m).reg.maps == w.reg.maps
  {
    if m.HookMove? {
      HookFrame(cfg(m.pid), ProcIn(w, m.pid), m.pid, m.call, 1);
    }
  }

  /**
   * Main result: deleting every step of the other tenants leaves all answers tenant `t` gets, and
   * its final record, unchanged. Processes of `t` that create QPs must be listed in the process
   * table at the start; what the other tenants create is not restricted.
   */
  lemma TenantsDoNotInterfere(cfg: int -> Config, w: World, ms: seq<Move>, t: nat)
    requires SoundWorld(w) && 0 < t < |w.reg.tenants| && AllCovered(cfg, w.table, w.reg.maps, t, ms)
    ensures var own := Only(w.reg.maps, ms, t);
            && Observed(cfg, w, ms, t) == Observed(cfg, w, own, t)
            && RunMoves(cfg, w, ms).reg.tenants[t] == RunMoves(cfg, w, own).reg.tenants[t]
  {
    FilteredRunAgrees(cfg, w, w, ms, w.table, t);
  }
}
