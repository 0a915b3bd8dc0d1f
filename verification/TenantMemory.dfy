/**
 * The memory quota of a tenant over serial runs of the hooks: it bounds each region, not their sum.
 */
module TenantMemory {
  import opened Words
  import opened Verbs
  import opened ProcessTable
  import opened TenantRegistry
  import opened TenantHooks
  import opened TenantQuota

  /** No live region of `t` is longer than `each`. */
  ghost predicate Fits(rs: seq<Resource>, maps: seq<Mapping>, t: nat, each: int) {
    forall i :: 0 <= i < |rs| && Owns(maps, t, rs[i].pid) ==> rs[i].length <= each
  }

  ghost predicate MemInv(s: System, t: nat, quota: Quota) {
    && Sound(s) && t != 0 && IsActive(s.reg, t) && s.reg.tenants[t].quota == quota
    && 0 <= quota.maxMr < U32 && 0 < quota.maxMem < U64
    && s.reg.tenants[t].usage.mem == 0
    && s.reg.tenants[t].usage.mr == CountOf(s.mrs, s.reg.maps, t) <= quota.maxMr
    && Fits(s.mrs, s.reg.maps, t, quota.maxMem)
  }

  /** The same for memory regions; also leaves the quota of `t` alone. */
  ghost predicate Fixed(s: System, e: Event, t: nat)
    requires Bounded(s.reg)
  {
    Quiet(s, e, t, s.mrs) && (e.Admin? && e.admin.SetTenantQuota? ==> e.admin.id != t)
  }

  ghost predicate FixedRun(cfg: int -> Config, s: System, es: seq<Event>, t: nat)
    requires Sound(s)
  {
    es == [] ||
    (FixedRun(cfg, s, es[..|es| - 1], t) && Fixed(Run(cfg, s, es[..|es| - 1]), es[|es| - 1], t))
  }

  /** A tenant just created, none of whose processes has a live region yet, satisfies the invariant. */
  lemma CreationStartsMemInv(cfg: int -> Config, s: System, t: nat, name: Option<string>, quota: Quota)
    requires Sound(s) && CanCreate(s.reg, t) && 0 <= quota.maxMr < U32 && 0 < quota.maxMem < U64
    requires forall i :: 0 <= i < |s.mrs| ==> !Owns(s.reg.maps, t, s.mrs[i].pid)
    ensures MemInv(Step(cfg, s, Admin(CreateTenant(t, name, Some(quota)))), t, quota)
  {
    OwnsNothing(s.mrs, s.reg.maps, t);
  }

  lemma FitsAppend(rs: seq<Resource>, r: Resource, maps: seq<Mapping>, t: nat, each: int)
    requires Fits(rs, maps, t, each) && (Owns(maps, t, r.pid) ==> r.length <= each)
    ensures Fits(rs + [r], maps, t, each)
  {
  }

  lemma FitsRemove(rs: seq<Resource>, i: nat, maps: seq<Mapping>, t: nat, each: int)
    requires Fits(rs, maps, t, each) && i < |rs|
    ensures Fits(Remove(rs, i), maps, t, each)
  {
    var out := Remove(rs, i);
    assert forall k :: 0 <= k < |out| ==> out[k] == rs[if k < i then k else k + 1];
  }

  /** A region that a process of `t` registers is within both quotas. */
  lemma AdmittedRegionFits(cfg: int -> Config, s: System, e: Event, t: nat, quota: Quota)
    requires Enforcing(cfg) && MemInv(s, t, quota) && Legal(s, e) && e.MrReg?
    requires Answer(cfg, s, e) == Some(Done) && Owns(s.reg.maps, t, e.pid)
    ensures e.length <= quota.maxMem && CountOf(s.mrs, s.reg.maps, t) < quota.maxMr
  {
    assert CurrentTenant(cfg(e.pid), s.reg, e.pid) == t;
    assert MrWithinTenant(cfg(e.pid), s.reg, t, e.length);
  }

  /** A registration leaves the mapping alone and counts, if it is done, for the tenant of its process. */
  lemma RegShape(cfg: int -> Config, s: System, e: Event, t: nat)
    requires Enforcing(cfg) && Sound(s) && e.MrReg? && t != 0 && IsActive(s.reg, t)
    ensures var r := Step(cfg, s, e);
            && Sound(r) && r.reg.maps == s.reg.maps && IsActive(r.reg, t)
            && r.reg.tenants[t].quota == s.reg.tenants[t].quota
            && r.reg.tenants[t].usage.mem == s.reg.tenants[t].usage.mem
            && r.reg.tenants[t].usage.mr ==
               s.reg.tenants[t].usage.mr + (if Answer(cfg, s, e) == Some(Done) && Owns(s.reg.maps, t, e.pid) then 1 else 0)
            && r.mrs == if Answer(cfg, s, e) == Some(Done) then s.mrs + [Resource(e.pid, e.length)] else s.mrs
  {
    HookOnTenant(cfg(e.pid), ProcOf(s, e.pid), e.pid, RegMr(e.length, e.ok), t);
    assert Step(cfg, s, e).reg == HookStep(cfg(e.pid), ProcOf(s, e.pid), e.pid, RegMr(e.length, e.ok)).reg;
  }

  lemma RegKeepsMemInv(cfg: int -> Config, s: System, e: Event, t: nat, quota: Quota)
    requires Enforcing(cfg) && MemInv(s, t, quota) && Legal(s, e) && e.MrReg?
    ensures MemInv(Step(cfg, s, e), t, quota)
  {
    var region := Resource(e.pid, e.length);
    RegShape(cfg, s, e, t);
    CountAppend(s.mrs, region, s.reg.maps, t);
    if Answer(cfg, s, e) == Some(Done) {
      if Owns(s.reg.maps, t, e.pid) {
        AdmittedRegionFits(cfg, s, e, t, quota);
      }
      FitsAppend(s.mrs, region, s.reg.maps, t, quota.maxMem);
    }
  }

  lemma DeregKeepsMemInv(cfg: int -> Config, s: System, e: Event, t: nat, quota: Quota)
    requires Enforcing(cfg) && MemInv(s, t, quota) && Legal(s, e) && e.MrDereg?
    ensures MemInv(Step(cfg, s, e), t, quota)
  {
    var region := s.mrs[e.slot];
    var call, p, r := DeregMr(region.length, e.ok), ProcOf(s, region.pid), Step(cfg, s, e);
    HookOnTenant(cfg(region.pid), p, region.pid, call, t);
    assert r.reg == HookStep(cfg(region.pid), p, region.pid, call).reg;
    CountRemove(s.mrs, e.slot, s.reg.maps, t);
    FitsRemove(s.mrs, e.slot, s.reg.maps, t, quota.maxMem);
    if OutcomeOf(cfg(region.pid), p, region.pid, call).Done? {
      assert r.mrs == Remove(s.mrs, e.slot);
    } else {
      assert r.mrs == s.mrs;
    }
  }

  lemma EventKeepsMemInv(cfg: int -> Config, s: System, e: Event, t: nat, quota: Quota)
    requires Enforcing(cfg) && MemInv(s, t, quota) && Legal(s, e) && Fixed(s, e, t)
    ensures MemInv(Step(cfg, s, e), t, quota)
  {
    if e.Admin? {
      AdminOnTenant(s, e, t, s.mrs);
      SameOwnersCount(s.mrs, s.reg.maps, Step(cfg, s, e).reg.maps, t);
    } else if e.MrReg? {
      RegKeepsMemInv(cfg, s, e, t, quota);
    } else if e.MrDereg? {
      DeregKeepsMemInv(cfg, s, e, t, quota);
    } else {
      var (pid, call) := HookOf(s, e).value;
      HookOnTenant(cfg(pid), ProcOf(s, pid), pid, call, t);
    }
  }

  lemma {:induction false} RunKeepsMemInv(cfg: int -> Config, s: System, es: seq<Event>, t: nat, quota: Quota)
    requires Enforcing(cfg) && MemInv(s, t, quota) && LegalRun(cfg, s, es) && FixedRun(cfg, s, es, t)
    ensures MemInv(Run(cfg, s, es), t, quota)
  {
    if es != [] {
      RunKeepsMemInv(cfg, s, es[..|es| - 1], t, quota);
      EventKeepsMemInv(cfg, Run(cfg, s, es[..|es| - 1]), es[|es| - 1], t, quota);
    }
  }

  lemma {:induction false} BytesBelow(rs: seq<Resource>, maps: seq<Mapping>, t: nat, each: nat)
    requires Fits(rs, maps, t, each)
    ensures BytesOf(rs, maps, t) <= CountOf(rs, maps, t) * each
  {
    if rs != [] {
      var init := rs[..|rs| - 1];
      assert forall i :: 0 <= i < |init| ==> init[i] == rs[i];
      BytesBelow(init, maps, t, each);
      var c := CountOf(init, maps, t);
      assert (c + 1) * each == c * each + each;
    }
  }

  /** The live bytes of `t` after a run. */
  ghost function LiveBytes(cfg: int -> Config, s: System, es: seq<Event>, t: nat): nat
    requires Sound(s)
  {
    var r := Run(cfg, s, es);
    BytesOf(r.mrs, r.reg.maps, t)
  }

  /** What the memory quota really bounds: each region, hence region count times quota in total. */
  lemma RegisteredBytesBound(cfg: int -> Config, s: System, es: seq<Event>, t: nat, quota: Quota)
    requires Enforcing(cfg) && MemInv(s, t, quota) && LegalRun(cfg, s, es) && FixedRun(cfg, s, es, t)
    ensures LiveBytes(cfg, s, es, t) <= quota.maxMr * quota.maxMem
  {
    var r := Run(cfg, s, es);
    RunKeepsMemInv(cfg, s, es, t, quota);
    BytesBelow(r.mrs, r.reg.maps, t, quota.maxMem);
    MulMonotone(CountOf(r.mrs, r.reg.maps, t), quota.maxMr, quota.maxMem);
  }

  lemma MulMonotone(a: nat, b: nat, c: nat)
    requires a <= b
    ensures a * c <= b * c
  {
  }

  /** The promise a cumulative memory quota makes. */
  ghost predicate CumulativeQuotaHolds(cfg: int -> Config, s: System, t: nat, quota: Quota)
    requires Sound(s)
  {
    forall es: seq<Event> :: LegalRun(cfg, s, es) && FixedRun(cfg, s, es, t) ==>
      LiveBytes(cfg, s, es, t) <= quota.maxMem
  }

  lemma FullRegionFits(cfg: int -> Config, s: System, t: nat, quota: Quota, pid: int)
    requires Enforcing(cfg) && MemInv(s, t, quota) && Owns(s.reg.maps, t, pid)
    requires CountOf(s.mrs, s.reg.maps, t) < quota.maxMr
    ensures Answer(cfg, s, MrReg(pid, quota.maxMem, true)) == Some(Done)
  {
    assert MrWithinTenant(cfg(pid), s.reg, t, quota.maxMem);
  }

  lemma RegistrationStep(cfg: int -> Config, s: System, e: Event)
    requires Sound(s) && e.MrReg? && Answer(cfg, s, e) == Some(Done)
    ensures Step(cfg, s, e).mrs == s.mrs + [Resource(e.pid, e.length)]
    ensures Step(cfg, s, e).reg.maps == s.reg.maps
  {
  }

  /** While the region count allows it, a region of the full memory quota is always admitted. */
  lemma FullRegionAdmitted(cfg: int -> Config, s: System, t: nat, quota: Quota, pid: int)
    requires Enforcing(cfg) && MemInv(s, t, quota) && Owns(s.reg.maps, t, pid)
    requires CountOf(s.mrs, s.reg.maps, t) < quota.maxMr
    ensures var r := Step(cfg, s, MrReg(pid, quota.maxMem, true));
            && r.reg.maps == s.reg.maps
            && CountOf(r.mrs, s.reg.maps, t) == CountOf(s.mrs, s.reg.maps, t) + 1
            && BytesOf(r.mrs, s.reg.maps, t) == BytesOf(s.mrs, s.reg.maps, t) + quota.maxMem
  {
    FullRegionFits(cfg, s, t, quota, pid);
    RegistrationStep(cfg, s, MrReg(pid, quota.maxMem, true));
    CountAppend(s.mrs, Resource(pid, quota.maxMem), s.reg.maps, t);
  }

  lemma FixedOne(cfg: int -> Config, s: System, es: seq<Event>, e: Event, t: nat)
    requires Sound(s)
    ensures FixedRun(cfg, s, es + [e], t) <==> FixedRun(cfg, s, es, t) && Fixed(Run(cfg, s, es), e, t)
  {
    assert (es + [e])[..|es|] == es;
  }

  /** A covered run of hooks after which tenant `t` has `n` regions of the full memory quota. */
  ghost predicate Registers(cfg: int -> Config, s: System, es: seq<Event>, t: nat, quota: Quota, n: nat)
    requires Sound(s)
  {
    && LegalRun(cfg, s, es) && FixedRun(cfg, s, es, t)
    && Run(cfg, s, es).reg.maps == s.reg.maps
    && CountOf(Run(cfg, s, es).mrs, s.reg.maps, t) == n
    && BytesOf(Run(cfg, s, es).mrs, s.reg.maps, t) == n * quota.maxMem
  }

  lemma DeregistrationStep(cfg: int -> Config, s: System)
    requires Enforcing(cfg) && Sound(s) && s.mrs != []
    ensures Step(cfg, s, MrDereg(0, true)).mrs == s.mrs[1..]
    ensures Step(cfg, s, MrDereg(0, true)).reg.maps == s.reg.maps
  {
    assert OutcomeOf(cfg(s.mrs[0].pid), ProcOf(s, s.mrs[0].pid), s.mrs[0].pid, DeregMr(s.mrs[0].length, true)).Done?;
    assert Remove(s.mrs, 0) == s.mrs[1..];
  }

  /** A covered run of hooks that leaves the mapping alone. */
  ghost predicate KeepsMaps(cfg: int -> Config, s: System, es: seq<Event>, t: nat)
    requires Sound(s)
  {
    LegalRun(cfg, s, es) && FixedRun(cfg, s, es, t) && Run(cfg, s, es).reg.maps == s.reg.maps
  }

  lemma OneMoreDeregistration(cfg: int -> Config, s: System, es: seq<Event>, t: nat)
    requires Enforcing(cfg) && Sound(s) && KeepsMaps(cfg, s, es, t) && Run(cfg, s, es).mrs != []
    ensures KeepsMaps(cfg, s, es + [MrDereg(0, true)], t)
    ensures |Run(cfg, s, es + [MrDereg(0, true)]).mrs| == |Run(cfg, s, es).mrs| - 1
  {
    RunOne(cfg, s, es, MrDereg(0, true));
    FixedOne(cfg, s, es, MrDereg(0, true), t);
    DeregistrationStep(cfg, Run(cfg, s, es));
  }

  /** Everything can be deregistered. */
  lemma Deregisters(cfg: int -> Config, s: System, t: nat, quota: Quota) returns (es: seq<Event>)
    requires Enforcing(cfg) && Sound(s)
    ensures Registers(cfg, s, es, t, quota, 0)
  {
    es := [];
    while Run(cfg, s, es).mrs != []
      invariant KeepsMaps(cfg, s, es, t)
      decreases |Run(cfg, s, es).mrs|
    {
      OneMoreDeregistration(cfg, s, es, t);
      es := es + [MrDereg(0, true)];
    }
  }

  lemma OneMoreRegion(cfg: int -> Config, s: System, es: seq<Event>, t: nat, quota: Quota, pid: int, n: nat)
    requires Enforcing(cfg) && MemInv(s, t, quota) && Owns(s.reg.maps, t, pid)
    requires Registers(cfg, s, es, t, quota, n) && n < quota.maxMr
    ensures Registers(cfg, s, es + [MrReg(pid, quota.maxMem, true)], t, quota, n + 1)
  {
    var e := MrReg(pid, quota.maxMem, true);
    RunKeepsMemInv(cfg, s, es, t, quota);
    RunOne(cfg, s, es, e);
    FixedOne(cfg, s, es, e, t);
    FullRegionAdmitted(cfg, Run(cfg, s, es), t, quota, pid);
    assert (n + 1) * quota.maxMem == n * quota.maxMem + quota.maxMem;
  }

  /** As many regions of the full memory quota as the MR quota allows: the bytes bound is reached. */
  lemma FullRegionsAddUp(cfg: int -> Config, s: System, t: nat, quota: Quota, pid: int, n: nat)
    returns (es: seq<Event>)
    requires Enforcing(cfg) && MemInv(s, t, quota) && Owns(s.reg.maps, t, pid)
    requires n <= quota.maxMr
    ensures Registers(cfg, s, es, t, quota, n)
  {
    es := Deregisters(cfg, s, t, quota);
    for k := 0 to n
      invariant Registers(cfg, s, es, t, quota, k)
    {
      OneMoreRegion(cfg, s, es, t, quota, pid, k);
      es := es + [MrReg(pid, quota.maxMem, true)];
    }
  }

  lemma LargeCountIsNotCumulative(cfg: int -> Config, s: System, t: nat, quota: Quota, pid: int)
    requires Enforcing(cfg) && MemInv(s, t, quota) && Owns(s.reg.maps, t, pid)
    requires quota.maxMr >= 2
    ensures !CumulativeQuotaHolds(cfg, s, t, quota)
  {
    var es := FullRegionsAddUp(cfg, s, t, quota, pid, 2);
  }

  lemma SmallCountIsCumulative(cfg: int -> Config, s: System, t: nat, quota: Quota)
    requires Enforcing(cfg) && MemInv(s, t, quota) && quota.maxMr <= 1
    ensures CumulativeQuotaHolds(cfg, s, t, quota)
  {
    forall es: seq<Event> | LegalRun(cfg, s, es) && FixedRun(cfg, s, es, t)
      ensures LiveBytes(cfg, s, es, t) <= quota.maxMem
    {
      RegisteredBytesBound(cfg, s, es, t, quota);
      MulMonotone(quota.maxMr, 1, quota.maxMem);
    }
  }

  /**
   * The memory quota is meant to be cumulative, but registration never adds to the recorded
   * memory. For a tenant with a process the cumulative promise holds
   * exactly when the MR quota allows at most one region.
   */
  lemma CumulativeQuotaHoldsIff(cfg: int -> Config, s: System, t: nat, quota: Quota, pid: int)
    requires Enforcing(cfg) && MemInv(s, t, quota) && Owns(s.reg.maps, t, pid)
    ensures CumulativeQuotaHolds(cfg, s, t, quota) <==> quota.maxMr <= 1
  {
    if quota.maxMr >= 2 {
      LargeCountIsNotCumulative(cfg, s, t, quota, pid);
    } else {
      SmallCountIsCumulative(cfg, s, t, quota);
    }
  }
}
