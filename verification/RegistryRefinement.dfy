/**
 * The tenant registry refines a finite partial map from pids to tenants, with counters that are
 * the sizes of the sets they count.
 */
module RegistryRefinement {
  import opened Words
  import opened TenantRegistry

  ghost predicate UniquePids(maps: seq<Mapping>) {
    forall i, j :: 0 <= i < j < |maps| && maps[i].pid == maps[j].pid ==> maps[i].pid == 0
  }

  function UsedSlots(maps: seq<Mapping>): (n: nat)
    ensures n <= |maps|
  {
    if maps == [] then 0
    else UsedSlots(maps[..|maps| - 1]) + if maps[|maps| - 1].pid != 0 then 1 else 0
  }

  function LiveTenants(tenants: seq<Tenant>): (n: nat)
    ensures n <= |tenants|
  {
    if tenants == [] then 0
    else LiveTenants(tenants[..|tenants| - 1]) + if tenants[|tenants| - 1].status.Inactive? then 0 else 1
  }

  /** Used slots name existing tenants, free slots are blank. */
  ghost predicate SlotsMatch(maps: seq<Mapping>, tenants: seq<Tenant>) {
    forall i :: 0 <= i < |maps| ==>
      if maps[i].pid == 0 then maps[i] == FREE
      else maps[i].tid < |tenants| && !tenants[maps[i].tid].status.Inactive?
  }

  ghost predicate Inv(r: Registry) {
    && Bounded(r) && |r.maps| < U32 && |r.tenants| < U32
    && UniquePids(r.maps)
    && SlotsMatch(r.maps, r.tenants)
    && !Existing(r, 0)
    && r.total == UsedSlots(r.maps)
    && r.active == LiveTenants(r.tenants)
  }

  /** The abstract state: who is bound to whom, and the status of each tenant. */
  datatype Abstract = Abstract(bindings: map<int, nat>, statuses: seq<Status>)

  /** Each mapped pid with the tenant of its slot, which is the first one that holds it. */
  ghost function BindingsOf(maps: seq<Mapping>): (b: map<int, nat>)
    ensures forall p :: p in b <==> p != 0 && FirstPid(maps, p, 0) < |maps|
    ensures forall p :: p in b ==> b[p] == maps[FirstPid(maps, p, 0)].tid
  {
    if maps == [] then map[]
    else
      FirstPidOfPrefix(maps);
      var b, last := BindingsOf(maps[..|maps| - 1]), maps[|maps| - 1];
      if last.pid == 0 || last.pid in b then b else b[last.pid := last.tid]
  }

  lemma FirstPidOfPrefix(maps: seq<Mapping>)
    requires maps != []
    ensures var init := maps[..|maps| - 1];
            forall p :: FirstPid(maps, p, 0) ==
                        if FirstPid(init, p, 0) < |init| then FirstPid(init, p, 0)
                        else if maps[|init|].pid == p then |init| else |maps|
  {
    var init := maps[..|maps| - 1];
    forall p
      ensures FirstPid(maps, p, 0) ==
              if FirstPid(init, p, 0) < |init| then FirstPid(init, p, 0)
              else if maps[|init|].pid == p then |init| else |maps|
    {
      var i := FirstPid(init, p, 0);
      FirstPidIs(maps, p, if i < |init| then i else if maps[|init|].pid == p then |init| else |maps|);
    }
  }

  ghost function StatusesOf(tenants: seq<Tenant>): seq<Status> {
    seq(|tenants|, t requires 0 <= t < |tenants| => tenants[t].status)
  }

  ghost function Abs(r: Registry): Abstract {
    Abstract(BindingsOf(r.maps), StatusesOf(r.tenants))
  }

  ghost predicate Alive(a: Abstract, id: nat) {
    id < |a.statuses| && !a.statuses[id].Inactive?
  }

  ghost predicate AbstractSucceeds(a: Abstract, c: Call, slots: nat) {
    match c
    case CreateTenant(id, _, _) => id != 0 && id < |a.statuses| && !Alive(a, id)
    case DeleteTenant(id) => id != 0 && Alive(a, id)
    case SetTenantStatus(id, _) => Alive(a, id)
    case SetTenantQuota(id, _) => Alive(a, id)
    case SetUsage(id, _) => id < |a.statuses| && a.statuses[id].Active?
    case BindProcess(pid, tid) =>
      tid < |a.statuses| && a.statuses[tid].Active? && (pid in a.bindings || |a.bindings| < slots)
    case UnbindProcess(pid) => pid in a.bindings
  }

  ghost function AbstractApply(a: Abstract, c: Call, slots: nat): Abstract {
    if !AbstractSucceeds(a, c, slots) then a
    else
      match c
      case CreateTenant(id, _, _) => a.(statuses := a.statuses[id := Active])
      case DeleteTenant(id) =>
        Abstract(map p | p in a.bindings && a.bindings[p] != id :: a.bindings[p],
                 a.statuses[id := Inactive])
      case SetTenantStatus(id, status) => a.(statuses := a.statuses[id := status])
      case SetTenantQuota(_, _) => a
      case SetUsage(_, _) => a
      case BindProcess(pid, tid) => a.(bindings := a.bindings[pid := tid])
      case UnbindProcess(pid) => a.(bindings := a.bindings - {pid})
  }

  // ---------- slots, counters and the map ----------

  /** Under unique pids the number of used slots is the size of the map. */
  lemma {:induction false} UsedSlotsIsSize(maps: seq<Mapping>)
    requires UniquePids(maps)
    ensures |BindingsOf(maps)| == UsedSlots(maps)
  {
    if maps != [] {
      UsedSlotsIsSize(maps[..|maps| - 1]);
      FirstPidOfPrefix(maps);
    }
  }

  lemma {:induction false} FreeSlotIff(maps: seq<Mapping>)
    ensures UsedSlots(maps) < |maps| <==> FirstPid(maps, 0, 0) < |maps|
  {
    if maps != [] {
      FreeSlotIff(maps[..|maps| - 1]);
    }
  }

  lemma {:induction false} UsedSlotsWrite(maps: seq<Mapping>, i: nat, m: Mapping)
    requires i < |maps|
    ensures UsedSlots(maps[i := m]) ==
            UsedSlots(maps) - (if maps[i].pid != 0 then 1 else 0) + (if m.pid != 0 then 1 else 0)
  {
    var init := maps[..|maps| - 1];
    if i < |init| {
      assert maps[i := m][..|init|] == init[i := m];
      UsedSlotsWrite(init, i, m);
    } else {
      assert maps[i := m][..|init|] == init;
    }
  }

  lemma {:induction false} LiveTenantsWrite(tenants: seq<Tenant>, i: nat, t: Tenant)
    requires i < |tenants|
    ensures LiveTenants(tenants[i := t]) ==
            LiveTenants(tenants) - (if tenants[i].status.Inactive? then 0 else 1)
                                 + (if t.status.Inactive? then 0 else 1)
  {
    var init := tenants[..|tenants| - 1];
    if i < |init| {
      assert tenants[i := t][..|init|] == init[i := t];
      LiveTenantsWrite(init, i, t);
    } else {
      assert tenants[i := t][..|init|] == init;
    }
  }

  lemma PurgeFreesOne(maps: seq<Mapping>, id: nat, k: nat)
    requires k < |maps| && (maps[k].tid == id ==> maps[k].pid != 0)
    ensures UsedSlots(Purge(maps, id, k)) ==
            UsedSlots(Purge(maps, id, k + 1)) + (if maps[k].tid == id then 1 else 0)
  {
    var before := Purge(maps, id, k);
    PurgeNext(maps, id, k);
    UsedSlotsWrite(before, k, FREE);
  }

  lemma PurgeNothing(maps: seq<Mapping>, id: nat)
    ensures Purge(maps, id, 0) == maps
  {
  }

  ghost predicate PurgeBalances(maps: seq<Mapping>, id: nat, k: nat)
    requires k <= |maps|
  {
    UsedSlots(Purge(maps, id, k)) + CountTid(maps, id, k) == UsedSlots(maps)
  }

  lemma PurgeStepBalances(maps: seq<Mapping>, id: nat, k: nat)
    requires k < |maps| && (maps[k].tid == id ==> maps[k].pid != 0)
    requires PurgeBalances(maps, id, k)
    ensures PurgeBalances(maps, id, k + 1)
  {
    PurgeFreesOne(maps, id, k);
  }

  lemma {:induction false} PurgeCounts(maps: seq<Mapping>, id: nat, k: nat)
    requires k <= |maps|
    requires forall i :: 0 <= i < |maps| && maps[i].tid == id ==> maps[i].pid != 0
    ensures PurgeBalances(maps, id, k)
  {
    if k == 0 {
      PurgeNothing(maps, id);
    } else {
      PurgeCounts(maps, id, k - 1);
      PurgeStepBalances(maps, id, k - 1);
    }
  }

  ghost predicate Writable(maps: seq<Mapping>, i: nat, m: Mapping) {
    && UniquePids(maps) && i < |maps|
    && (m.pid == 0 || m.pid == maps[i].pid || FirstPid(maps, m.pid, 0) == |maps|)
  }

  lemma WriteSlotUnique(maps: seq<Mapping>, i: nat, m: Mapping)
    requires Writable(maps, i, m)
    ensures UniquePids(maps[i := m])
  {
  }

  lemma WriteSlotFinds(maps: seq<Mapping>, i: nat, m: Mapping, p: int)
    requires Writable(maps, i, m) && p != 0
    ensures FirstPid(maps[i := m], p, 0) ==
            if p == m.pid then i else if p == maps[i].pid then |maps| else FirstPid(maps, p, 0)
  {
    var w := maps[i := m];
    var at := if p == m.pid then i else if p == maps[i].pid then |maps| else FirstPid(maps, p, 0);
    assert forall k :: 0 <= k < |w| ==> w[k] == if k == i then m else maps[k];
    FirstPidIs(w, p, at);
  }

  lemma WriteSlotAt(maps: seq<Mapping>, i: nat, m: Mapping, p: int)
    requires Writable(maps, i, m)
    ensures var before, after := BindingsOf(maps), BindingsOf(maps[i := m]);
            && (p in after <==> p != 0 && (p == m.pid || (p in before && p != maps[i].pid)))
            && (p in after ==> after[p] == if p == m.pid then m.tid else before[p])
  {
    if p != 0 {
      WriteSlotFinds(maps, i, m, p);
    }
  }

  lemma SameMap(a: map<int, nat>, b: map<int, nat>)
    requires forall p :: p in a <==> p in b
    requires forall p :: p in a ==> a[p] == b[p]
    ensures a == b
  {
    assert forall p :: p in a.Keys ==> p in b.Keys;
    assert forall p :: p in b.Keys ==> p in a.Keys;
    assert a.Keys == b.Keys;
    assert forall p :: p in a.Keys ==> a[p] == b[p];
  }

  /** Writing one slot: its old pid leaves the map and its new pid enters. */
  lemma WriteSlot(maps: seq<Mapping>, i: nat, m: Mapping)
    requires Writable(maps, i, m)
    ensures BindingsOf(maps[i := m]) ==
            var rest := BindingsOf(maps) - {maps[i].pid};
            if m.pid == 0 then rest else rest[m.pid := m.tid]
  {
    var after := BindingsOf(maps[i := m]);
    var rest := BindingsOf(maps) - {maps[i].pid};
    var expected := if m.pid == 0 then rest else rest[m.pid := m.tid];
    forall p
      ensures p in after <==> p in expected
      ensures p in after ==> after[p] == expected[p]
    {
      WriteSlotAt(maps, i, m, p);
    }
    SameMap(after, expected);
  }

  // ---------- each call against the map ----------

  lemma PurgedSlotsMatch(maps: seq<Mapping>, tenants: seq<Tenant>, id: nat, t: Tenant)
    requires SlotsMatch(maps, tenants) && id < |tenants| && UniquePids(maps)
    ensures SlotsMatch(Purge(maps, id, |maps|), tenants[id := t])
    ensures UniquePids(Purge(maps, id, |maps|))
  {
  }

  lemma DeleteKeepsInv(r: Registry, id: nat)
    requires Inv(r) && CanDelete(r, id)
    ensures Inv(Delete(r, id))
  {
    var s := Delete(r, id);
    PurgeCounts(r.maps, id, |r.maps|);
    LiveTenantsWrite(r.tenants, id, s.tenants[id]);
    PurgedSlotsMatch(r.maps, r.tenants, id, s.tenants[id]);
    DeleteBounded(r, id);
  }

  lemma DeleteRefines(r: Registry, id: nat)
    requires Inv(r) && CanDelete(r, id)
    ensures Abs(Delete(r, id)) == AbstractApply(Abs(r), DeleteTenant(id), |r.maps|)
  {
    var s := Delete(r, id);
    DeleteFilters(r.maps, id);
    assert StatusesOf(s.tenants) == StatusesOf(r.tenants)[id := Inactive];
  }

  lemma PurgeFinds(maps: seq<Mapping>, id: nat, p: int)
    requires UniquePids(maps) && p != 0
    ensures var i := FirstPid(maps, p, 0);
            FirstPid(Purge(maps, id, |maps|), p, 0) == if i < |maps| && maps[i].tid == id then |maps| else i
  {
    var i, w := FirstPid(maps, p, 0), Purge(maps, id, |maps|);
    assert forall k :: 0 <= k < |w| && k != i ==> w[k].pid != p;
    FirstPidIs(w, p, if i < |maps| && maps[i].tid == id then |maps| else i);
  }

  lemma PurgedAt(maps: seq<Mapping>, id: nat, p: int)
    requires UniquePids(maps)
    ensures var b, w := BindingsOf(maps), BindingsOf(Purge(maps, id, |maps|));
            && (p in w <==> p in b && b[p] != id)
            && (p in w ==> w[p] == b[p])
  {
    if p != 0 {
      PurgeFinds(maps, id, p);
    }
  }

  lemma DeleteFilters(maps: seq<Mapping>, id: nat)
    requires UniquePids(maps)
    ensures var b := BindingsOf(maps);
            BindingsOf(Purge(maps, id, |maps|)) == map p | p in b && b[p] != id :: b[p]
  {
    var b, w := BindingsOf(maps), BindingsOf(Purge(maps, id, |maps|));
    var kept := map p | p in b && b[p] != id :: b[p];
    forall p
      ensures p in w <==> p in kept
      ensures p in w ==> w[p] == kept[p]
    {
      PurgedAt(maps, id, p);
    }
    SameMap(w, kept);
  }

  lemma BindSucceedsIff(r: Registry, pid: int, tid: nat)
    requires Inv(r) && pid != 0
    ensures CanBind(r, pid, tid) == AbstractSucceeds(Abs(r), BindProcess(pid, tid), |r.maps|)
  {
    FreeSlotIff(r.maps);
    UsedSlotsIsSize(r.maps);
  }

  /** What a binding writes to the mapping and to the tenant records. */
  lemma BindShape(r: Registry, pid: int, tid: nat)
    requires Bounded(r) && CanBind(r, pid, tid)
    ensures Bind(r, pid, tid).maps == r.maps[BindSlot(r.maps, pid) := Mapping(pid, tid)]
    ensures |Bind(r, pid, tid).tenants| == |r.tenants|
    ensures forall t :: 0 <= t < |r.tenants| ==> Bind(r, pid, tid).tenants[t].status == r.tenants[t].status
  {
  }

  lemma BoundSlotIsWritable(maps: seq<Mapping>, pid: int, tid: nat)
    requires UniquePids(maps) && pid != 0 && BindSlot(maps, pid) < |maps|
    ensures Writable(maps, BindSlot(maps, pid), Mapping(pid, tid))
    ensures maps[BindSlot(maps, pid)].pid == pid || maps[BindSlot(maps, pid)].pid == 0
  {
  }

  lemma BoundSlotsMatch(r: Registry, pid: int, tid: nat)
    requires Inv(r) && pid != 0 && CanBind(r, pid, tid)
    ensures SlotsMatch(Bind(r, pid, tid).maps, Bind(r, pid, tid).tenants)
  {
    BindShape(r, pid, tid);
  }

  lemma BindCounters(r: Registry, pid: int, tid: nat)
    requires Inv(r) && pid != 0 && CanBind(r, pid, tid)
    ensures var s := Bind(r, pid, tid);
            s.total == UsedSlots(s.maps) && s.active == LiveTenants(s.tenants)
  {
    var s := Bind(r, pid, tid);
    UsedSlotsWrite(r.maps, BindSlot(r.maps, pid), Mapping(pid, tid));
    LiveTenantsWrite(r.tenants, tid, s.tenants[tid]);
    assert s.tenants == r.tenants[tid := s.tenants[tid]];
  }

  lemma BindKeepsInv(r: Registry, pid: int, tid: nat)
    requires Inv(r) && pid != 0 && CanBind(r, pid, tid)
    ensures Inv(Bind(r, pid, tid))
  {
    BindShape(r, pid, tid);
    BoundSlotIsWritable(r.maps, pid, tid);
    WriteSlotUnique(r.maps, BindSlot(r.maps, pid), Mapping(pid, tid));
    BoundSlotsMatch(r, pid, tid);
    BindCounters(r, pid, tid);
    assert Bounded(Apply(r, BindProcess(pid, tid)));
  }

  lemma BindRefines(r: Registry, pid: int, tid: nat)
    requires Inv(r) && pid != 0 && CanBind(r, pid, tid)
    ensures Abs(Bind(r, pid, tid)) == Abs(r).(bindings := Abs(r).bindings[pid := tid])
  {
    var i, s, b := BindSlot(r.maps, pid), Bind(r, pid, tid), BindingsOf(r.maps);
    BindShape(r, pid, tid);
    BoundSlotIsWritable(r.maps, pid, tid);
    WriteSlot(r.maps, i, Mapping(pid, tid));
    RemovedAndSet(b, r.maps[i].pid, pid, tid);
    assert StatusesOf(s.tenants) == StatusesOf(r.tenants);
  }

  lemma RemovedAndSet(b: map<int, nat>, gone: int, pid: int, tid: nat)
    requires gone == pid || gone !in b
    ensures (b - {gone})[pid := tid] == b[pid := tid]
  {
  }

  lemma UnbindKeepsInv(r: Registry, pid: int)
    requires Inv(r) && pid != 0 && CanUnbind(r, pid)
    ensures Inv(Unbind(r, pid))
  {
    var i, s := FirstPid(r.maps, pid, 0), Unbind(r, pid);
    var tid := r.maps[i].tid;
    WriteSlotUnique(r.maps, i, FREE);
    UsedSlotsWrite(r.maps, i, FREE);
    LiveTenantsWrite(r.tenants, tid, s.tenants[tid]);
  }

  lemma UnbindRefines(r: Registry, pid: int)
    requires Inv(r) && pid != 0 && CanUnbind(r, pid)
    ensures pid in Abs(r).bindings
    ensures Abs(Unbind(r, pid)) == Abs(r).(bindings := Abs(r).bindings - {pid})
  {
    WriteSlot(r.maps, FirstPid(r.maps, pid, 0), FREE);
    assert StatusesOf(Unbind(r, pid).tenants) == StatusesOf(r.tenants);
  }

  /** Calls that only replace the record of tenant `id` and may change its status. */
  ghost predicate RecordCall(c: Call) {
    && !c.DeleteTenant? && !c.BindProcess? && !c.UnbindProcess?
    && (c.SetTenantStatus? ==> c.status != Inactive)
  }

  lemma RecordCallShape(r: Registry, c: Call)
    requires Bounded(r) && RecordCall(c) && Succeeds(r, c)
    ensures c.id < |r.tenants|
    ensures var s := Apply(r, c);
            && s == r.(tenants := r.tenants[c.id := s.tenants[c.id]],
                       active := if c.CreateTenant? then Wrap32(r.active + 1) else r.active)
            && Existing(s, c.id)
            && (c.CreateTenant? ==> !Existing(r, c.id) && c.id != 0)
            && (!c.CreateTenant? ==> Existing(r, c.id))
  {
  }

  lemma RecordCallKeepsInv(r: Registry, c: Call)
    requires Inv(r) && RecordCall(c) && Succeeds(r, c)
    ensures Inv(Apply(r, c))
  {
    RecordCallShape(r, c);
    LiveTenantsWrite(r.tenants, c.id, Apply(r, c).tenants[c.id]);
  }

  lemma RecordCallRefines(r: Registry, c: Call)
    requires Inv(r) && RecordCall(c) && Succeeds(r, c)
    ensures Abs(Apply(r, c)) == AbstractApply(Abs(r), c, |r.maps|)
  {
    var s := Apply(r, c);
    RecordCallShape(r, c);
    assert StatusesOf(s.tenants) == StatusesOf(r.tenants)[c.id := s.tenants[c.id].status];
  }

  // ---------- which calls keep the registry consistent ----------

  /** A caller can check this before the call. */
  ghost predicate Proper(r: Registry, c: Call) {
    match c
    case BindProcess(pid, _) => pid != 0
    case UnbindProcess(pid) => pid != 0 || r.total == 0
    case SetTenantStatus(_, status) => status != Inactive
    case _ => true
  }

  lemma ProperCallRefines(r: Registry, c: Call)
    requires Inv(r) && Proper(r, c) && (c.UnbindProcess? ==> c.pid != 0)
    ensures Inv(Apply(r, c))
    ensures Succeeds(r, c) == AbstractSucceeds(Abs(r), c, |r.maps|)
    ensures Abs(Apply(r, c)) == AbstractApply(Abs(r), c, |r.maps|)
  {
    if c.DeleteTenant? {
      if CanDelete(r, c.id) {
        DeleteKeepsInv(r, c.id);
        DeleteRefines(r, c.id);
      }
    } else if c.BindProcess? {
      BindSucceedsIff(r, c.pid, c.tid);
      if CanBind(r, c.pid, c.tid) {
        BindKeepsInv(r, c.pid, c.tid);
        BindRefines(r, c.pid, c.tid);
      }
    } else if c.UnbindProcess? {
      if CanUnbind(r, c.pid) {
        UnbindKeepsInv(r, c.pid);
        UnbindRefines(r, c.pid);
      }
    } else if Succeeds(r, c) {
      RecordCallKeepsInv(r, c);
      RecordCallRefines(r, c);
    }
  }

  /**
   * A successful call keeps the registry consistent exactly when it is proper: deactivating a
   * tenant through `tenant_set_status` or binding and unbinding pid 0 breaks a counter or a slot.
   */
  lemma CallKeepsRegistryIff(r: Registry, c: Call)
    requires Inv(r) && Succeeds(r, c)
    ensures Inv(Apply(r, c)) <==> Proper(r, c)
  {
    var s := Apply(r, c);
    if c.UnbindProcess? && c.pid == 0 {
      assert s.maps == r.maps;
      LiveTenantsWrite(r.tenants, 0, s.tenants[0]);
    } else if Proper(r, c) {
      ProperCallRefines(r, c);
    } else if c.SetTenantStatus? {
      LiveTenantsWrite(r.tenants, c.id, s.tenants[c.id]);
    } else {
      var i := FirstPid(r.maps, 0, 0);
      assert s.maps[i] == Mapping(0, c.tid);
    }
  }

  // ---------- whole runs ----------

  ghost predicate Regular(c: Call) {
    (c.BindProcess? || c.UnbindProcess? ==> c.pid != 0) && (c.SetTenantStatus? ==> c.status != Inactive)
  }

  function Run(r: Registry, calls: seq<Call>): (s: Registry)
    requires Bounded(r)
    ensures Bounded(s) && |s.tenants| == |r.tenants| && |s.maps| == |r.maps|
  {
    if calls == [] then r else Apply(Run(r, calls[..|calls| - 1]), calls[|calls| - 1])
  }

  ghost function AbstractRun(a: Abstract, calls: seq<Call>, slots: nat): Abstract {
    if calls == [] then a
    else AbstractApply(AbstractRun(a, calls[..|calls| - 1], slots), calls[|calls| - 1], slots)
  }

  /** Main result: every run of regular calls refines the abstract map. */
  lemma {:induction false} RunRefinesMap(r: Registry, calls: seq<Call>)
    requires Inv(r) && forall i :: 0 <= i < |calls| ==> Regular(calls[i])
    ensures Inv(Run(r, calls))
    ensures Abs(Run(r, calls)) == AbstractRun(Abs(r), calls, |r.maps|)
    ensures Run(r, calls).total == |Abs(Run(r, calls)).bindings|
  {
    if calls != [] {
      RunRefinesMap(r, calls[..|calls| - 1]);
      ProperCallRefines(Run(r, calls[..|calls| - 1]), calls[|calls| - 1]);
    }
    UsedSlotsIsSize(Run(r, calls).maps);
  }

  /** The lookup loop reads the abstract map, and a mapped tenant exists. */
  lemma LookupReadsMap(r: Registry, pid: int)
    requires Inv(r) && pid != 0
    ensures var b := Abs(r).bindings;
            TenantOf(r, pid) == if pid in b then Some(b[pid]) else None
    ensures TenantOf(r, pid).Some? ==> TenantOf(r, pid).value != 0 && Existing(r, TenantOf(r, pid).value)
  {
    var i := FirstPid(r.maps, pid, 0);
  }

  lemma InitialRegistryIsConsistent(tenantCount: nat, slots: nat)
    requires 0 < tenantCount < U32 && slots < U32
    ensures Inv(InitialRegistry(tenantCount, slots))
    ensures Abs(InitialRegistry(tenantCount, slots)).bindings == map[]
  {
    var r := InitialRegistry(tenantCount, slots);
    NothingUsed(r.maps);
    NothingLive(r.tenants);
    UsedSlotsIsSize(r.maps);
  }

  lemma {:induction false} NothingUsed(maps: seq<Mapping>)
    requires forall i :: 0 <= i < |maps| ==> maps[i] == FREE
    ensures UsedSlots(maps) == 0
  {
    if maps != [] {
      NothingUsed(maps[..|maps| - 1]);
    }
  }

  lemma {:induction false} NothingLive(tenants: seq<Tenant>)
    requires forall t :: 0 <= t < |tenants| ==> tenants[t].status.Inactive?
    ensures LiveTenants(tenants) == 0
  {
    if tenants != [] {
      NothingLive(tenants[..|tenants| - 1]);
    }
  }
}
