/**
 * src/rdma_hooks_tenant.c: the intercepted verbs calls of one process. Each hook checks the
 * tenant's record, calls the driver (its outcome is an input) and accounts for the result.
 */
module TenantHooks {
  import opened Words
  import opened Verbs
  import opened ProcessTable
  import opened TenantRegistry

  datatype Kind = Qp | Mr | Cq | Pd

  /**
   * The configuration the hooks read. `intercept` is `rdma_intercept_is_enabled()`, `tenants` is
   * `tenant_initialized`, `mapped` says that the process table is mapped.
   */
  datatype Config = Config(intercept: bool, tenants: bool, mapped: bool, qpControl: bool,
                           types: AllowedTypes, maxQpPerProcess: int, maxGlobalQp: int)

  /** Everything a hook of one process reads and writes. */
  datatype Proc = Proc(reg: Registry, table: Table, local: Local)

  /** One intercepted call; `ok` is the driver's verdict, `globalQp` the global count if readable. */
  datatype HookCall =
    | CreateQp(qpType: QpType, globalQp: Option<int>, ok: bool)
    | DestroyQp(ok: bool)
    | RegMr(length: nat, ok: bool)
    | DeregMr(length: nat, ok: bool)
    | CreateCq(ok: bool)
    | DestroyCq(ok: bool)
    | AllocPd(ok: bool)
    | DeallocPd(ok: bool)

  ghost predicate Sane(p: Proc) {
    Bounded(p.reg) && WellFormed(p.table)
  }

  /** `get_current_tenant_id`: 0 stands for the default tenant. */
  function CurrentTenant(cfg: Config, reg: Registry, pid: int): nat {
    var t := TenantOf(reg, pid);
    if cfg.tenants && t.Some? then t.value else 0
  }

  function Bump(u: TenantUsage, kind: Kind, delta: int): TenantUsage {
    match kind
    case Qp => u.(qp := u.qp + delta,
                  qpCreates := u.qpCreates + (if delta > 0 then 1 else 0),
                  qpDestroys := u.qpDestroys + (if delta < 0 then 1 else 0))
    case Mr => u.(mr := u.mr + delta,
                  mrRegs := u.mrRegs + (if delta > 0 then 1 else 0),
                  mrDeregs := u.mrDeregs + (if delta < 0 then 1 else 0))
    case Cq => u.(cq := u.cq + delta)
    case Pd => u.(pd := u.pd + delta)
  }

  /** `update_tenant_resource_count`, both of its critical sections. */
  function Account(cfg: Config, reg: Registry, tid: nat, kind: Kind, delta: int): (r: Registry)
    requires Bounded(reg)
    ensures Bounded(r) && |r.tenants| == |reg.tenants|
  {
    if tid == 0 || !cfg.tenants || GetUsage(reg, tid).None? then reg
    else UpdateUsage(reg, tid, Bump(GetUsage(reg, tid).value, kind, delta))
  }

  /** `check_tenant_qp_limit`. */
  predicate QpWithinTenant(cfg: Config, reg: Registry, tid: nat) {
    tid == 0 || !cfg.tenants ||
    (Existing(reg, tid) && Wrap32(reg.tenants[tid].usage.qp) < reg.tenants[tid].quota.maxQp)
  }

  /** `check_tenant_mr_limit_inline`; a memory quota of 0 means no memory limit. */
  predicate MrWithinTenant(cfg: Config, reg: Registry, tid: nat, length: nat) {
    tid == 0 || !cfg.tenants ||
    (Existing(reg, tid) &&
     var t := reg.tenants[tid];
     && Wrap32(t.usage.mr) < t.quota.maxMr
     && (t.quota.maxMem > 0 ==> Wrap64(t.usage.mem + length) <= t.quota.maxMem))
  }

  /** `check_qp_creation_restrictions`. */
  predicate QpAdmitted(cfg: Config, p: Proc, pid: int, call: HookCall)
    requires Sane(p) && call.CreateQp?
  {
    !cfg.qpControl ||
    (&& Allows(cfg.types, call.qpType)
     && QpWithinTenant(cfg, p.reg, CurrentTenant(cfg, p.reg, pid))
     && (cfg.mapped && pid > 0 ==> Wrap32(Wrap32(Lookup(p.table, pid).qp) + 1) <= cfg.maxQpPerProcess)
     && (call.globalQp.Some? ==> Wrap32(call.globalQp.value) < cfg.maxGlobalQp))
  }

  predicate Admitted(cfg: Config, p: Proc, pid: int, call: HookCall)
    requires Sane(p)
  {
    match call
    case CreateQp(_, _, _) => QpAdmitted(cfg, p, pid, call)
    case RegMr(length, _) => MrWithinTenant(cfg, p.reg, CurrentTenant(cfg, p.reg, pid), length)
    case _ => true
  }

  function OutcomeOf(cfg: Config, p: Proc, pid: int, call: HookCall): Outcome
    requires Sane(p)
  {
    if cfg.intercept && !Admitted(cfg, p, pid, call) then Denied
    else if call.ok then Done
    else DriverError
  }

  /** The in-process counters after a successful driver call. */
  function Count(l: Local, call: HookCall): Local {
    match call
    case CreateQp(_, _, _) => l.(qp := Wrap32(l.qp + 1))
    case DestroyQp(_) => l.(qp := DecrementIfPositive(l.qp))
    case RegMr(length, _) => l.(mr := Wrap32(l.mr + 1), mem := Wrap64(l.mem + length))
    case DeregMr(length, _) =>
      l.(mr := DecrementIfPositive(l.mr), mem := if l.mem >= length then l.mem - length else l.mem)
    case _ => l
  }

  function KindOf(call: HookCall): Kind {
    match call
    case CreateQp(_, _, _) => Qp
    case DestroyQp(_) => Qp
    case RegMr(_, _) => Mr
    case DeregMr(_, _) => Mr
    case CreateCq(_) => Cq
    case DestroyCq(_) => Cq
    case AllocPd(_) => Pd
    case DeallocPd(_) => Pd
  }

  function DeltaOf(call: HookCall): int {
    if call.CreateQp? || call.RegMr? || call.CreateCq? || call.AllocPd? then 1 else -1
  }

  function HookStep(cfg: Config, p: Proc, pid: int, call: HookCall): (q: Proc)
    requires Sane(p)
    ensures Sane(q) && |q.reg.tenants| == |p.reg.tenants|
  {
    if !cfg.intercept || !OutcomeOf(cfg, p, pid, call).Done? then p
    else
      var local := Count(p.local, call);
      Proc(Account(cfg, p.reg, CurrentTenant(cfg, p.reg, pid), KindOf(call), DeltaOf(call)),
           if call.CreateQp? && cfg.mapped then Update(p.table, pid, Usage(local.qp, local.mr, local.mem)) else p.table,
           local)
  }

  // ---------- one process ----------

  class TenantProcess {
    const pid: int
    const shm: TenantShm
    const table: SharedTable
    var cfg: Config
    var qpCount: int
    var mrCount: int
    var memUsed: int

    ghost predicate Valid()
      reads this, shm, shm.tenants, shm.maps
    {
      shm.Valid() && table.Valid()
    }

    ghost function View(): (p: Proc)
      requires Valid()
      reads this, shm, shm.tenants, shm.maps, table.pids, table.stats
      ensures Sane(p)
    {
      Proc(shm.View(), table.View(), Local(qpCount, mrCount, memUsed))
    }

    constructor (pid: int, shm: TenantShm, table: SharedTable, cfg: Config)
      requires shm.Valid() && table.Valid()
      ensures Valid() && this.pid == pid && this.shm == shm && this.table == table && this.cfg == cfg
      ensures View() == Proc(shm.View(), table.View(), Local(0, 0, 0))
    {
      this.pid, this.shm, this.table, this.cfg := pid, shm, table, cfg;
      qpCount, mrCount, memUsed := 0, 0, 0;
    }

    method GetCurrentTenantId() returns (tid: nat)
      requires Valid()
      ensures tid == CurrentTenant(cfg, shm.View(), pid)
    {
      if !cfg.tenants { return 0; }
      var rc, t := shm.GetProcessTenant(pid);
      return if rc != 0 then 0 else t;
    }

    method UpdateTenantResourceCount(tid: nat, kind: Kind, delta: int)
      requires Valid()
      modifies shm.tenants
      ensures Valid() && shm.View() == Account(cfg, old(shm.View()), tid, kind, delta)
    {
      if tid == 0 || !cfg.tenants { return; }
      var rc, usage := shm.GetResourceUsage(tid);
      if rc != 0 { return; }
      rc := shm.UpdateResourceUsage(tid, Bump(usage, kind, delta));
    }

    method CheckTenantQpLimit(tid: nat) returns (allowed: bool)
      requires Valid()
      ensures allowed == QpWithinTenant(cfg, shm.View(), tid)
    {
      if tid == 0 || !cfg.tenants { return true; }
      var rc, info := shm.GetInfo(tid);
      if rc != 0 { return false; }
      return Wrap32(info.value.usage.qp) < info.value.quota.maxQp;
    }

    method CheckTenantMrLimit(tid: nat, length: nat) returns (allowed: bool)
      requires Valid()
      ensures allowed == MrWithinTenant(cfg, shm.View(), tid, length)
    {
      if tid == 0 || !cfg.tenants { return true; }
      var rc, info := shm.GetInfo(tid);
      if rc != 0 { return false; }
      var t := info.value;
      if Wrap32(t.usage.mr) >= t.quota.maxMr { return false; }
      if t.quota.maxMem > 0 && Wrap64(t.usage.mem + length) > t.quota.maxMem { return false; }
      return true;
    }

    method CheckQpCreation(call: HookCall) returns (allowed: bool)
      requires Valid() && call.CreateQp?
      ensures allowed == QpAdmitted(cfg, View(), pid, call)
    {
      if !cfg.qpControl { return true; }
      match call.qpType {
        case RC => if !cfg.types.rc { return false; }
        case UC => if !cfg.types.uc { return false; }
        case UD => if !cfg.types.ud { return false; }
        case OtherType =>
      }
      var tid := GetCurrentTenantId();
      allowed := CheckTenantQpLimit(tid);
      if !allowed { return; }
      if cfg.mapped {
        var rc, usage := table.GetProcessResources(pid);
        if rc == 0 && Wrap32(Wrap32(usage.qp) + 1) > cfg.maxQpPerProcess { return false; }
      }
      if call.globalQp.Some? && Wrap32(call.globalQp.value) >= cfg.maxGlobalQp { return false; }
      return true;
    }

    /** `ibv_create_qp`. */
    method CreateQueuePair(call: HookCall) returns (outcome: Outcome)
      requires Valid() && call.CreateQp?
      modifies this`qpCount, shm.tenants, table.pids, table.stats
      ensures Valid() && outcome == OutcomeOf(cfg, old(View()), pid, call)
      ensures View() == HookStep(cfg, old(View()), pid, call)
    {
      if !cfg.intercept { return if call.ok then Done else DriverError; }
      var allowed := CheckQpCreation(call);
      if !allowed { return Denied; }
      if !call.ok { return DriverError; }
      qpCount := Wrap32(qpCount + 1);
      if cfg.mapped {
        var rc := table.UpdateProcessResources(pid, Usage(qpCount, mrCount, memUsed));
      }
      var tid := GetCurrentTenantId();
      UpdateTenantResourceCount(tid, Qp, 1);
      return Done;
    }

    /** `ibv_destroy_qp`. */
    method DestroyQueuePair(ok: bool) returns (outcome: Outcome)
      requires Valid()
      modifies this`qpCount, shm.tenants
      ensures Valid() && outcome == OutcomeOf(cfg, old(View()), pid, DestroyQp(ok))
      ensures View() == HookStep(cfg, old(View()), pid, DestroyQp(ok))
    {
      if !ok { return DriverError; }
      if !cfg.intercept { return Done; }
      if qpCount > 0 {
        qpCount := qpCount - 1;
      }
      var tid := GetCurrentTenantId();
      UpdateTenantResourceCount(tid, Qp, -1);
      return Done;
    }

    /** `__real_ibv_reg_mr_tenant`. */
    method RegisterMemory(length: nat, ok: bool) returns (outcome: Outcome)
      requires Valid()
      modifies this`mrCount, this`memUsed, shm.tenants
      ensures Valid() && outcome == OutcomeOf(cfg, old(View()), pid, RegMr(length, ok))
      ensures View() == HookStep(cfg, old(View()), pid, RegMr(length, ok))
    {
      if !cfg.intercept { return if ok then Done else DriverError; }
      var tid := GetCurrentTenantId();
      var allowed := CheckTenantMrLimit(tid, length);
      if !allowed { return Denied; }
      if !ok { return DriverError; }
      mrCount := Wrap32(mrCount + 1);
      memUsed := Wrap64(memUsed + length);
      UpdateTenantResourceCount(tid, Mr, 1);
      return Done;
    }

    /** `__real_ibv_dereg_mr_tenant`; `length` is the length of the region, 0 for NULL. */
    method DeregisterMemory(length: nat, ok: bool) returns (outcome: Outcome)
      requires Valid()
      modifies this`mrCount, this`memUsed, shm.tenants
      ensures Valid() && outcome == OutcomeOf(cfg, old(View()), pid, DeregMr(length, ok))
      ensures View() == HookStep(cfg, old(View()), pid, DeregMr(length, ok))
    {
      if !ok { return DriverError; }
      if !cfg.intercept { return Done; }
      if mrCount > 0 {
        mrCount := mrCount - 1;
      }
      if memUsed >= length {
        memUsed := memUsed - length;
      }
      var tid := GetCurrentTenantId();
      UpdateTenantResourceCount(tid, Mr, -1);
      return Done;
    }

    /** The completion-queue and protection-domain hooks, which only account. */
    method AccountOnly(call: HookCall) returns (outcome: Outcome)
      requires Valid() && (KindOf(call).Cq? || KindOf(call).Pd?)
      modifies shm.tenants
      ensures Valid() && outcome == OutcomeOf(cfg, old(View()), pid, call)
      ensures View() == HookStep(cfg, old(View()), pid, call)
    {
      if !call.ok { return DriverError; }
      if !cfg.intercept { return Done; }
      var tid := GetCurrentTenantId();
      UpdateTenantResourceCount(tid, KindOf(call), DeltaOf(call));
      return Done;
    }
  }
}
