/**
 * src/shm/shared_memory_tenant.c: tenant records, the pid-to-tenant slot array and the redundant
 * counters. Value-level functions specify each API call; the class runs the source's loops.
 * Every call is one critical section of the registry lock.
 */
module TenantRegistry {
  import opened Words
  import opened ProcessTable

  datatype Status = Inactive | Active | Suspended

  datatype Quota = Quota(maxQp: int, maxMr: int, maxMem: int, maxCq: int, maxPd: int)

  const DEFAULT_QUOTA := Quota(100, 1000, 1024 * 1024 * 1024, 100, 100)

  datatype TenantUsage = TenantUsage(qp: int, mr: int, cq: int, pd: int, mem: int,
                                     qpCreates: int, qpDestroys: int, mrRegs: int, mrDeregs: int)

  const ZERO_TENANT_USAGE := TenantUsage(0, 0, 0, 0, 0, 0, 0, 0, 0)

  const NAME_MAX := 64

  datatype Tenant = Tenant(id: int, name: string, status: Status, quota: Quota, usage: TenantUsage,
                           processCount: int, processes: seq<int>)

  datatype Mapping = Mapping(pid: int, tid: nat)

  const FREE := Mapping(0, 0)

  /** `tenant_shared_memory_t`; a process slot count applies to `maps` and every member list. */
  datatype Registry = Registry(tenants: seq<Tenant>, maps: seq<Mapping>, active: int, total: int)

  /**
   * Array bounds and word sizes: stored tenant ids index `tenants`, member lists have one slot
   * per process, the counters are 32-bit words.
   */
  ghost predicate Bounded(r: Registry) {
    && |r.tenants| > 0
    && 0 <= r.active < U32 && 0 <= r.total < U32
    && (forall i :: 0 <= i < |r.maps| ==> r.maps[i].tid < |r.tenants|)
    && (forall t :: 0 <= t < |r.tenants| ==> |r.tenants[t].processes| == |r.maps|)
  }

  function PidsOf(maps: seq<Mapping>): seq<int> {
    seq(|maps|, i requires 0 <= i < |maps| => maps[i].pid)
  }

  /** First mapping of `pid` at or after `from`, or the length. */
  function FirstPid(maps: seq<Mapping>, pid: int, from: nat): (r: nat)
    requires from <= |maps|
    ensures from <= r <= |maps|
    ensures r < |maps| ==> maps[r].pid == pid
    ensures forall k :: from <= k < r ==> maps[k].pid != pid
  {
    var r := First(PidsOf(maps), pid, from);
    assert forall k :: from <= k < r ==> PidsOf(maps)[k] == maps[k].pid;
    r
  }

  lemma FirstPidIs(maps: seq<Mapping>, pid: int, at: nat)
    requires at <= |maps| && (at < |maps| ==> maps[at].pid == pid)
    requires forall k :: 0 <= k < at ==> maps[k].pid != pid
    ensures FirstPid(maps, pid, 0) == at
  {
  }

  function InsertFirstFree(list: seq<int>, pid: int): (r: seq<int>)
    ensures |r| == |list|
  {
    var i := First(list, 0, 0);
    if i < |list| then list[i := pid] else list
  }

  function RemoveFirst(list: seq<int>, pid: int): (r: seq<int>)
    ensures |r| == |list|
  {
    var i := First(list, pid, 0);
    if i < |list| then list[i := 0] else list
  }

  function DecrementIfPositive(x: int): int {
    if x > 0 then x - 1 else x
  }

  predicate Existing(r: Registry, id: nat) {
    id < |r.tenants| && !r.tenants[id].status.Inactive?
  }

  function SetTenant(r: Registry, id: nat, t: Tenant): Registry
    requires id < |r.tenants|
  {
    r.(tenants := r.tenants[id := t])
  }

  // ---------- the API calls; `rc` is 0 or -1 as in the source ----------

  function NewTenant(id: int, name: Option<string>, quota: Option<Quota>, slots: nat): Tenant {
    var n := if name.Some? then name.value else "unnamed";
    Tenant(id, if |n| < NAME_MAX then n else n[..NAME_MAX - 1], Active,
           if quota.Some? then quota.value else DEFAULT_QUOTA,
           ZERO_TENANT_USAGE, 0, seq(slots, _ => 0))
  }

  predicate CanCreate(r: Registry, id: nat) {
    id != 0 && id < |r.tenants| && !Existing(r, id)
  }

  function Create(r: Registry, id: nat, name: Option<string>, quota: Option<Quota>): Registry {
    if !CanCreate(r, id) then r
    else SetTenant(r, id, NewTenant(id, name, quota, |r.maps|)).(active := Wrap32(r.active + 1))
  }

  /** The mappings of `maps[..k]` to `tid` are cleared. */
  function Purge(maps: seq<Mapping>, tid: nat, k: nat): (r: seq<Mapping>)
    requires k <= |maps|
    ensures |r| == |maps|
    ensures forall i :: 0 <= i < |r| ==> r[i] == if i < k && maps[i].tid == tid then FREE else maps[i]
  {
    seq(|maps|, i requires 0 <= i < |maps| => if i < k && maps[i].tid == tid then FREE else maps[i])
  }

  function CountTid(maps: seq<Mapping>, tid: nat, k: nat): nat
    requires k <= |maps|
  {
    if k == 0 then 0 else CountTid(maps, tid, k - 1) + if maps[k - 1].tid == tid then 1 else 0
  }

  lemma PurgeNext(maps: seq<Mapping>, tid: nat, k: nat)
    requires k < |maps|
    ensures Purge(maps, tid, 0) == maps
    ensures Purge(maps, tid, k)[k] == maps[k]
    ensures Purge(maps, tid, k + 1) ==
            if maps[k].tid == tid then Purge(maps, tid, k)[k := FREE] else Purge(maps, tid, k)
  {
  }

  predicate CanDelete(r: Registry, id: nat) {
    id != 0 && Existing(r, id)
  }

  function Delete(r: Registry, id: nat): Registry {
    if !CanDelete(r, id) then r
    else
      Registry(r.tenants[id := r.tenants[id].(status := Inactive, processCount := 0)],
               Purge(r.maps, id, |r.maps|),
               Wrap32(r.active - 1),
               Wrap32(r.total - CountTid(r.maps, id, |r.maps|)))
  }

  lemma DeleteBounded(r: Registry, id: nat)
    requires Bounded(r)
    ensures Bounded(Delete(r, id))
  {
  }

  function SetStatus(r: Registry, id: nat, status: Status): Registry {
    if !Existing(r, id) then r else SetTenant(r, id, r.tenants[id].(status := status))
  }

  function UpdateQuota(r: Registry, id: nat, quota: Quota): Registry {
    if !Existing(r, id) then r else SetTenant(r, id, r.tenants[id].(quota := quota))
  }

  predicate IsActive(r: Registry, id: nat) {
    id < |r.tenants| && r.tenants[id].status.Active?
  }

  /** The slot a binding of `pid` goes to: its own, else the first free one, else none. */
  function BindSlot(maps: seq<Mapping>, pid: int): (i: nat)
    ensures i <= |maps|
  {
    var own := FirstPid(maps, pid, 0);
    if own < |maps| then own else FirstPid(maps, 0, 0)
  }

  predicate CanBind(r: Registry, pid: int, tid: nat) {
    IsActive(r, tid) && BindSlot(r.maps, pid) < |r.maps|
  }

  function Bind(r: Registry, pid: int, tid: nat): Registry {
    if !CanBind(r, pid, tid) then r
    else
      var rebound := r.(maps := r.maps[BindSlot(r.maps, pid) := Mapping(pid, tid)]);
      if FirstPid(r.maps, pid, 0) < |r.maps| then rebound
      else
        var t := r.tenants[tid];
        SetTenant(rebound, tid, t.(processCount := Wrap32(t.processCount + 1),
                                   processes := InsertFirstFree(t.processes, pid)))
          .(total := Wrap32(r.total + 1))
  }

  predicate CanUnbind(r: Registry, pid: int) {
    FirstPid(r.maps, pid, 0) < |r.maps|
  }

  function Unbind(r: Registry, pid: int): Registry
    requires Bounded(r)
  {
    if !CanUnbind(r, pid) then r
    else
      var i := FirstPid(r.maps, pid, 0);
      var tid := r.maps[i].tid;
      var t := r.tenants[tid];
      SetTenant(r, tid, t.(processes := RemoveFirst(t.processes, pid),
                           processCount := DecrementIfPositive(t.processCount)))
        .(maps := r.maps[i := FREE], total := DecrementIfPositive(r.total))
  }

  /** `tenant_get_process_tenant`: none if the pid is not mapped. */
  function TenantOf(r: Registry, pid: int): Option<nat> {
    var i := FirstPid(r.maps, pid, 0);
    if i < |r.maps| then Some(r.maps[i].tid) else None
  }

  function UpdateUsage(r: Registry, id: nat, usage: TenantUsage): Registry {
    if !IsActive(r, id) then r else SetTenant(r, id, r.tenants[id].(usage := usage))
  }

  function GetUsage(r: Registry, id: nat): Option<TenantUsage> {
    if IsActive(r, id) then Some(r.tenants[id].usage) else None
  }

  /** One API call that may change the registry. */
  datatype Call =
    | CreateTenant(id: nat, name: Option<string>, newQuota: Option<Quota>)
    | DeleteTenant(id: nat)
    | SetTenantStatus(id: nat, status: Status)
    | SetTenantQuota(id: nat, quota: Quota)
    | BindProcess(pid: int, tid: nat)
    | UnbindProcess(pid: int)
    | SetUsage(id: nat, usage: TenantUsage)

  function Apply(r: Registry, c: Call): (s: Registry)
    requires Bounded(r)
    ensures Bounded(s) && |s.tenants| == |r.tenants| && |s.maps| == |r.maps|
  {
    match c
    case CreateTenant(id, name, quota) => Create(r, id, name, quota)
    case DeleteTenant(id) => Delete(r, id)
    case SetTenantStatus(id, status) => SetStatus(r, id, status)
    case SetTenantQuota(id, quota) => UpdateQuota(r, id, quota)
    case BindProcess(pid, tid) => Bind(r, pid, tid)
    case UnbindProcess(pid) => Unbind(r, pid)
    case SetUsage(id, usage) => UpdateUsage(r, id, usage)
  }

  /** Whether the call returns 0. */
  predicate Succeeds(r: Registry, c: Call) {
    match c
    case CreateTenant(id, _, _) => CanCreate(r, id)
    case DeleteTenant(id) => CanDelete(r, id)
    case SetTenantStatus(id, _) => Existing(r, id)
    case SetTenantQuota(id, _) => Existing(r, id)
    case BindProcess(pid, tid) => CanBind(r, pid, tid)
    case UnbindProcess(pid) => CanUnbind(r, pid)
    case SetUsage(id, _) => IsActive(r, id)
  }

  function Rc(success: bool): int {
    if success then 0 else -1
  }

  /** The segment after initialisation zeroed it. */
  function InitialRegistry(tenantCount: nat, slots: nat): Registry {
    var blank := Tenant(0, "", Inactive, Quota(0, 0, 0, 0, 0), ZERO_TENANT_USAGE, 0, seq(slots, _ => 0));
    Registry(seq(tenantCount, _ => blank), seq(slots, _ => FREE), 0, 0)
  }

  // ---------- the shared memory segment ----------

  class TenantShm {
    const tenants: array<Tenant>
    const maps: array<Mapping>
    var active: int
    var total: int

    ghost function View(): Registry
      reads this, tenants, maps
    {
      Registry(tenants[..], maps[..], active, total)
    }

    ghost predicate Valid()
      reads this, tenants, maps
    {
      Bounded(View())
    }

    constructor (tenantCount: nat, slots: nat)
      requires tenantCount > 0
      ensures Valid() && fresh(tenants) && fresh(maps)
      ensures View() == InitialRegistry(tenantCount, slots)
    {
      var blank := Tenant(0, "", Inactive, Quota(0, 0, 0, 0, 0), ZERO_TENANT_USAGE, 0, seq(slots, _ => 0));
      tenants := new Tenant[tenantCount](_ => blank);
      maps := new Mapping[slots](_ => FREE);
      active, total := 0, 0;
      new;
      assert View() == InitialRegistry(tenantCount, slots);
    }

    /** `tenant_create`; `None` stands for a NULL name or quota. */
    method CreateTenant(id: nat, name: Option<string>, quota: Option<Quota>) returns (rc: int)
      requires Valid()
      modifies this, tenants
      ensures View() == Create(old(View()), id, name, quota)
      ensures Valid() && rc == Rc(CanCreate(old(View()), id))
    {
      if id == 0 || id >= tenants.Length { return -1; }
      if !tenants[id].status.Inactive? { return -1; }
      var n := "unnamed";
      if name.Some? { n := name.value; }
      if |n| > NAME_MAX - 1 { n := n[..NAME_MAX - 1]; }
      var q := DEFAULT_QUOTA;
      if quota.Some? { q := quota.value; }
      tenants[id] := Tenant(id, n, Active, q, ZERO_TENANT_USAGE, 0, seq(maps.Length, _ => 0));
      active := Wrap32(active + 1);
      return 0;
    }

    /** `tenant_delete`. */
    method DeleteTenant(id: nat) returns (rc: int)
      requires Valid()
      modifies this, tenants, maps
      ensures View() == Delete(old(View()), id)
      ensures Valid() && rc == Rc(CanDelete(old(View()), id))
    {
      if id == 0 || id >= tenants.Length { return -1; }
      if tenants[id].status.Inactive? { return -1; }
      ClearMappings(id);
      tenants[id] := tenants[id].(status := Inactive, processCount := 0);
      active := Wrap32(active - 1);
      DeleteBounded(old(View()), id);
      return 0;
    }

    /** The loop of `tenant_delete` over the mappings. */
    method ClearMappings(id: nat)
      modifies maps, `total
      ensures maps[..] == Purge(old(maps[..]), id, maps.Length)
      ensures total == if CountTid(old(maps[..]), id, maps.Length) == 0 then old(total)
                       else Wrap32(old(total) - CountTid(old(maps[..]), id, maps.Length))
    {
      ghost var before := maps[..];
      var i := 0;
      while i < maps.Length
        invariant 0 <= i <= maps.Length
        invariant maps[..] == Purge(before, id, i)
        invariant total == if CountTid(before, id, i) == 0 then old(total)
                           else Wrap32(old(total) - CountTid(before, id, i))
      {
        PurgeNext(before, id, i);
        if maps[i].tid == id {
          maps[i] := FREE;
          total := Wrap32(total - 1);
        }
        i := i + 1;
      }
    }

    /** `tenant_set_status`. */
    method SetTenantStatus(id: nat, status: Status) returns (rc: int)
      requires Valid()
      modifies tenants
      ensures View() == SetStatus(old(View()), id, status)
      ensures Valid() && rc == Rc(Existing(old(View()), id))
    {
      if id >= tenants.Length || tenants[id].status.Inactive? { return -1; }
      tenants[id] := tenants[id].(status := status);
      return 0;
    }

    /** `tenant_update_quota`. */
    method SetTenantQuota(id: nat, quota: Quota) returns (rc: int)
      requires Valid()
      modifies tenants
      ensures View() == UpdateQuota(old(View()), id, quota)
      ensures Valid() && rc == Rc(Existing(old(View()), id))
    {
      if id >= tenants.Length || tenants[id].status.Inactive? { return -1; }
      tenants[id] := tenants[id].(quota := quota);
      return 0;
    }

    /** `tenant_bind_process`. */
    method BindProcess(pid: int, tid: nat) returns (rc: int)
      requires Valid()
      modifies this, tenants, maps
      ensures View() == Bind(old(View()), pid, tid)
      ensures Valid() && rc == Rc(CanBind(old(View()), pid, tid))
    {
      if tid >= tenants.Length || !tenants[tid].status.Active? { return -1; }
      var found, empty := -1, -1;
      var i := 0;
      while i < maps.Length
        invariant 0 <= i <= maps.Length
        invariant found == -1
        invariant forall k :: 0 <= k < i ==> maps[k].pid != pid
        invariant empty == -1 ==> forall k :: 0 <= k < i ==> maps[k].pid != 0
        invariant empty != -1 ==> 0 <= empty < i && maps[empty].pid == 0
        invariant empty != -1 ==> forall k :: 0 <= k < empty ==> maps[k].pid != 0
      {
        if maps[i].pid == pid {
          found := i;
          break;
        }
        if empty < 0 && maps[i].pid == 0 {
          empty := i;
        }
        i := i + 1;
      }
      FirstPidIs(maps[..], pid, i);
      var idx := if found >= 0 then found else empty;
      if idx < 0 {
        FirstPidIs(maps[..], 0, maps.Length);
        return -1;
      }
      assert found < 0 ==> FirstPid(maps[..], 0, 0) == empty by {
        if found < 0 { FirstPidIs(maps[..], 0, empty); }
      }
      var t := tenants[tid];
      if found < 0 {
        t := t.(processCount := Wrap32(t.processCount + 1));
        total := Wrap32(total + 1);
      }
      maps[idx] := Mapping(pid, tid);
      if found < 0 {
        var free := FindSlot(t.processes, 0);
        if free < |t.processes| {
          t := t.(processes := t.processes[free := pid]);
        }
      }
      tenants[tid] := t;
      assert tenants[..] == if found < 0 then old(tenants[..])[tid := t] else old(tenants[..]);
      return 0;
    }

    /** The scans of a member list for a free slot or a pid. */
    static method FindSlot(list: seq<int>, x: int) returns (i: nat)
      ensures i == First(list, x, 0)
    {
      i := 0;
      while i < |list|
        invariant 0 <= i <= |list|
        invariant First(list, x, 0) == First(list, x, i)
      {
        if list[i] == x { return; }
        i := i + 1;
      }
    }

    /** `tenant_unbind_process`. */
    method UnbindProcess(pid: int) returns (rc: int)
      requires Valid()
      modifies this, tenants, maps
      ensures View() == Unbind(old(View()), pid)
      ensures Valid() && rc == Rc(CanUnbind(old(View()), pid))
    {
      var i := 0;
      while i < maps.Length
        invariant 0 <= i <= maps.Length
        invariant forall k :: 0 <= k < i ==> maps[k].pid != pid
        invariant View() == old(View())
      {
        if maps[i].pid == pid {
          FirstPidIs(maps[..], pid, i);
          var tid := maps[i].tid;
          assert old(View()).maps[i] == maps[i];
          var t := tenants[tid];
          var j := FindSlot(t.processes, pid);
          if j < |t.processes| {
            t := t.(processes := t.processes[j := 0]);
          }
          if t.processCount > 0 {
            t := t.(processCount := t.processCount - 1);
          }
          tenants[tid] := t;
          maps[i] := FREE;
          if total > 0 {
            total := total - 1;
          }
          return 0;
        }
        i := i + 1;
      }
      return -1;
    }

    /** `tenant_get_process_tenant`. */
    method GetProcessTenant(pid: int) returns (rc: int, tid: nat)
      requires Valid()
      ensures rc == Rc(TenantOf(View(), pid).Some?)
      ensures tid == if TenantOf(View(), pid).Some? then TenantOf(View(), pid).value else 0
    {
      var i := 0;
      while i < maps.Length
        invariant 0 <= i <= maps.Length
        invariant forall k :: 0 <= k < i ==> maps[k].pid != pid
      {
        if maps[i].pid == pid {
          FirstPidIs(maps[..], pid, i);
          return 0, maps[i].tid;
        }
        i := i + 1;
      }
      return -1, 0;
    }

    /** `tenant_get_info`; the record is copied even when the call reports an absent tenant. */
    method GetInfo(id: nat) returns (rc: int, info: Option<Tenant>)
      requires Valid()
      ensures rc == Rc(Existing(View(), id))
      ensures info == if id < tenants.Length then Some(tenants[id]) else None
    {
      if id >= tenants.Length { return -1, None; }
      info := Some(tenants[id]);
      rc := if tenants[id].status.Inactive? then -1 else 0;
    }

    /** `tenant_get_resource_usage`. */
    method GetResourceUsage(id: nat) returns (rc: int, usage: TenantUsage)
      requires Valid()
      ensures rc == Rc(GetUsage(View(), id).Some?)
      ensures rc == 0 ==> GetUsage(View(), id) == Some(usage)
    {
      usage := ZERO_TENANT_USAGE;
      if id >= tenants.Length || !tenants[id].status.Active? { return -1, usage; }
      return 0, tenants[id].usage;
    }

    /** `tenant_update_resource_usage`. */
    method UpdateResourceUsage(id: nat, usage: TenantUsage) returns (rc: int)
      requires Valid()
      modifies tenants
      ensures View() == UpdateUsage(old(View()), id, usage)
      ensures Valid() && rc == Rc(IsActive(old(View()), id))
    {
      if id >= tenants.Length || !tenants[id].status.Active? { return -1; }
      tenants[id] := tenants[id].(usage := usage);
      return 0;
    }
  }
}
