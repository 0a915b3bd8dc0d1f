/**
 * Serial runs of the tenant hooks of several processes over one registry: what the quotas of a
 * tenant really bound.
 */
module TenantQuota {
  import opened Words
  import opened Verbs
  import opened ProcessTable
  import opened TenantRegistry
  import opened TenantHooks
  import Refinement = RegistryRefinement

  /** A live QP or memory region: who created it and, for regions, its length. */
  datatype Resource = Resource(pid: int, length: nat)

  datatype System = System(reg: Registry, table: Table, locals: map<int, Local>,
                           qps: seq<Resource>, mrs: seq<Resource>)

  /** `slot` picks the live object to destroy; the driver never destroys one that is not live. */
  datatype Event =
    | QpCreate(pid: int, qpType: QpType, globalQp: Option<int>, ok: bool)
    | QpDestroy(slot: nat, ok: bool)
    | MrReg(pid: int, length: nat, ok: bool)
    | MrDereg(slot: nat, ok: bool)
    | Other(pid: int, call: HookCall)
    | Admin(admin: Call)

  ghost predicate Sound(s: System) {
    Bounded(s.reg) && WellFormed(s.table)
  }

  /** The process and call of an event that is a hook. */
  function HookOf(s: System, e: Event): Option<(int, HookCall)> {
    match e
    case QpCreate(pid, ty, g, ok) => Some((pid, CreateQp(ty, g, ok)))
    case QpDestroy(i, ok) => if i < |s.qps| then Some((s.qps[i].pid, DestroyQp(ok))) else None
    case MrReg(pid, len, ok) => Some((pid, RegMr(len, ok)))
    case MrDereg(i, ok) => if i < |s.mrs| then Some((s.mrs[i].pid, DeregMr(s.mrs[i].length, ok))) else None
    case Other(pid, call) => Some((pid, call))
    case Admin(_) => None
  }

  ghost predicate Legal(s: System, e: Event) {
    match e
    case QpDestroy(i, _) => i < |s.qps|
    case MrDereg(i, _) => i < |s.mrs|
    case MrReg(_, len, _) => len < U64
    case Other(_, call) => KindOf(call).Cq? || KindOf(call).Pd?
    case _ => true
  }

  function LocalOf(s: System, pid: int): Local {
    if pid in s.locals then s.locals[pid] else Local(0, 0, 0)
  }

  function ProcOf(s: System, pid: int): Proc {
    Proc(s.reg, s.table, LocalOf(s, pid))
  }

  function Answer(cfg: int -> Config, s: System, e: Event): Option<Outcome>
    requires Sound(s)
  {
    var h := HookOf(s, e);
    if h.None? then None
    else Some(OutcomeOf(cfg(h.value.0), ProcOf(s, h.value.0), h.value.0, h.value.1))
  }

  function Ledger(s: System, e: Event, done: bool): (seq<Resource>, seq<Resource>) {
    if !done then (s.qps, s.mrs)
    else
      match e
      case QpCreate(pid, _, _, _) => (s.qps + [Resource(pid, 0)], s.mrs)
      case QpDestroy(i, _) => (if i < |s.qps| then Remove(s.qps, i) else s.qps, s.mrs)
      case MrReg(pid, len, _) => (s.qps, s.mrs + [Resource(pid, len)])
      case MrDereg(i, _) => (s.qps, if i < |s.mrs| then Remove(s.mrs, i) else s.mrs)
      case _ => (s.qps, s.mrs)
  }

  function Step(cfg: int -> Config, s: System, e: Event): (r: System)
    requires Sound(s)
    ensures Sound(r) && |r.reg.tenants| == |s.reg.tenants|
  {
    if e.Admin? then s.(reg := Apply(s.reg, e.admin))
    else
      var h := HookOf(s, e);
      if h.None? then s
      else
        var (pid, call) := h.value;
        var p := HookStep(cfg(pid), ProcOf(s, pid), pid, call);
        var (qps, mrs) := Ledger(s, e, OutcomeOf(cfg(pid), ProcOf(s, pid), pid, call).Done?);
        System(p.reg, p.table, s.locals[pid := p.local], qps, mrs)
  }

  function Run(cfg: int -> Config, s: System, es: seq<Event>): (r: System)
    requires Sound(s)
    ensures Sound(r) && |r.reg.tenants| == |s.reg.tenants|
  {
    if es == [] then s else Step(cfg, Run(cfg, s, es[..|es| - 1]), es[|es| - 1])
  }

  ghost predicate LegalRun(cfg: int -> Config, s: System, es: seq<Event>)
    requires Sound(s)
  {
    es == [] ||
    (LegalRun(cfg, s, es[..|es| - 1]) && Legal(Run(cfg, s, es[..|es| - 1]), es[|es| - 1]))
  }

  // ---------- counting what a tenant owns ----------

  predicate Owns(maps: seq<Mapping>, t: nat, pid: int) {
    var i := FirstPid(maps, pid, 0);
    i < |maps| && maps[i].tid == t
  }

  function CountOf(rs: seq<Resource>, maps: seq<Mapping>, t: nat): nat {
    if rs == [] then 0
    else CountOf(rs[..|rs| - 1], maps, t) + if Owns(maps, t, rs[|rs| - 1].pid) then 1 else 0
  }

  function BytesOf(rs: seq<Resource>, maps: seq<Mapping>, t: nat): nat {
    if rs == [] then 0
    else
      var last := rs[|rs| - 1];
      BytesOf(rs[..|rs| - 1], maps, t) + if Owns(maps, t, last.pid) then last.length else 0
  }

  lemma {:induction false} CountRemove(rs: seq<Resource>, i: nat, maps: seq<Mapping>, t: nat)
    requires i < |rs|
    ensures CountOf(Remove(rs, i), maps, t) == CountOf(rs, maps, t) - (if Owns(maps, t, rs[i].pid) then 1 else 0)
  {
    var init, out := rs[..|rs| - 1], Remove(rs, i);
    if i == |init| {
      assert out == init;
    } else {
      assert out[..|out| - 1] == Remove(init, i) && out[|out| - 1] == rs[|init|];
      CountRemove(init, i, maps, t);
    }
  }

  lemma CountAppend(rs: seq<Resource>, r: Resource, maps: seq<Mapping>, t: nat)
    ensures CountOf(rs + [r], maps, t) == CountOf(rs, maps, t) + (if Owns(maps, t, r.pid) then 1 else 0)
    ensures BytesOf(rs + [r], maps, t) == BytesOf(rs, maps, t) + (if Owns(maps, t, r.pid) then r.length else 0)
  {
    assert (rs + [r])[..|rs|] == rs;
  }

  // ---------- what one event does to one tenant ----------

  ghost predicate Enforcing(cfg: int -> Config) {
    forall pid :: cfg(pid).intercept && cfg(pid).tenants && cfg(pid).qpControl
  }

  /** Every process with a resource in `rs` belongs to `t` after a change of the mapping iff it did before. */
  ghost predicate SameOwners(rs: seq<Resource>, before: seq<Mapping>, after: seq<Mapping>, t: nat) {
    forall i :: 0 <= i < |rs| ==> (Owns(after, t, rs[i].pid) <==> Owns(before, t, rs[i].pid))
  }

  /**
   * An administrative call that neither ends nor suspends tenant `t`, nor overwrites its usage
   * record, nor moves a process with a live resource into or out of it. Processes without one may
   * be bound, unbound and moved at any time, and other tenants may come and go.
   */
  ghost predicate Quiet(s: System, e: Event, t: nat, rs: seq<Resource>)
    requires Bounded(s.reg)
  {
    e.Admin? ==>
      && SameOwners(rs, s.reg.maps, Apply(s.reg, e.admin).maps, t)
      && match e.admin
         case DeleteTenant(id) => id != t
         case SetTenantStatus(id, _) => id != t
         case SetUsage(id, _) => id != t
         case _ => true
  }

  /** A new quota of `t`, if there is one, is a 32-bit word. */
  ghost predicate Benign(s: System, e: Event, t: nat)
    requires Bounded(s.reg)
  {
    Quiet(s, e, t, s.qps) && (e.Admin? && e.admin.SetTenantQuota? && e.admin.id == t ==> 0 <= e.admin.quota.maxQp < U32)
  }

  ghost predicate BenignRun(cfg: int -> Config, s: System, es: seq<Event>, t: nat)
    requires Sound(s)
  {
    es == [] ||
    (BenignRun(cfg, s, es[..|es| - 1], t) && Benign(Run(cfg, s, es[..|es| - 1]), es[|es| - 1], t))
  }

  lemma {:induction false} SameOwnersCount(rs: seq<Resource>, before: seq<Mapping>, after: seq<Mapping>, t: nat)
    requires SameOwners(rs, before, after, t)
    ensures CountOf(rs, after, t) == CountOf(rs, before, t)
  {
    if rs != [] {
      SameOwnersCount(rs[..|rs| - 1], before, after, t);
    }
  }

  /** A hook changes the record of tenant `t` only if it ran for one of its processes. */
  lemma HookOnTenant(cfg: Config, p: Proc, pid: int, call: HookCall, t: nat)
    requires Sane(p) && cfg.intercept && cfg.tenants && t != 0 && IsActive(p.reg, t)
    ensures var r := HookStep(cfg, p, pid, call).reg;
            && r.maps == p.reg.maps
            && |r.tenants| == |p.reg.tenants|
            && r.tenants[t] == if OutcomeOf(cfg, p, pid, call).Done? && Owns(p.reg.maps, t, pid)
                               then p.reg.tenants[t].(usage := Bump(p.reg.tenants[t].usage, KindOf(call), DeltaOf(call)))
                               else p.reg.tenants[t]
  {
  }

  lemma AdminOnTenant(s: System, e: Event, t: nat, rs: seq<Resource>)
    requires Bounded(s.reg) && e.Admin? && Quiet(s, e, t, rs) && IsActive(s.reg, t)
    ensures var r := Apply(s.reg, e.admin);
            && IsActive(r, t)
            && r.tenants[t].usage == s.reg.tenants[t].usage
            && r.tenants[t].quota == if e.admin.SetTenantQuota? && e.admin.id == t
                                     then e.admin.quota else s.reg.tenants[t].quota
  {
  }

  // ---------- QP quota ----------

  /** The usage record of `t` counts its live QPs, and stays below `hi`, as does its quota. */
  ghost predicate QpInv(s: System, t: nat, hi: int) {
    && Sound(s) && t != 0 && IsActive(s.reg, t)
    && s.reg.tenants[t].usage.qp == CountOf(s.qps, s.reg.maps, t) <= hi < U32
    && 0 <= s.reg.tenants[t].quota.maxQp <= hi
  }

  /** The largest QP quota of `t` that was ever in force, starting from `start`. */
  function MaxQuota(es: seq<Event>, t: nat, start: int): (m: int)
    ensures m >= start
  {
    if es == [] then start
    else
      var rest, e := MaxQuota(es[..|es| - 1], t, start), es[|es| - 1];
      if e.Admin? && e.admin.SetTenantQuota? && e.admin.id == t then Max(rest, e.admin.quota.maxQp) else rest
  }

  lemma CreateKeepsQpInv(cfg: int -> Config, s: System, e: Event, t: nat, hi: int)
    requires Enforcing(cfg) && QpInv(s, t, hi) && e.QpCreate?
    ensures QpInv(Step(cfg, s, e), t, hi)
  {
    var call := CreateQp(e.qpType, e.globalQp, e.ok);
    HookOnTenant(cfg(e.pid), ProcOf(s, e.pid), e.pid, call, t);
    CountAppend(s.qps, Resource(e.pid, 0), s.reg.maps, t);
    if OutcomeOf(cfg(e.pid), ProcOf(s, e.pid), e.pid, call).Done? && Owns(s.reg.maps, t, e.pid) {
      assert QpWithinTenant(cfg(e.pid), s.reg, t);
    }
  }

  lemma DestroyKeepsQpInv(cfg: int -> Config, s: System, e: Event, t: nat, hi: int)
    requires Enforcing(cfg) && QpInv(s, t, hi) && e.QpDestroy? && Legal(s, e)
    ensures QpInv(Step(cfg, s, e), t, hi)
  {
    var pid := s.qps[e.slot].pid;
    HookOnTenant(cfg(pid), ProcOf(s, pid), pid, DestroyQp(e.ok), t);
    CountRemove(s.qps, e.slot, s.reg.maps, t);
  }

  lemma OtherHooksKeepQpInv(cfg: int -> Config, s: System, e: Event, t: nat, hi: int)
    requires Enforcing(cfg) && QpInv(s, t, hi) && Legal(s, e) && !e.Admin? && !e.QpCreate? && !e.QpDestroy?
    ensures QpInv(Step(cfg, s, e), t, hi)
  {
    var (pid, call) := HookOf(s, e).value;
    HookOnTenant(cfg(pid), ProcOf(s, pid), pid, call, t);
    assert !KindOf(call).Qp?;
  }

  lemma EventKeepsQpInv(cfg: int -> Config, s: System, e: Event, t: nat, hi: int)
    requires Enforcing(cfg) && QpInv(s, t, hi) && Legal(s, e) && Benign(s, e, t)
    ensures QpInv(Step(cfg, s, e), t,
                  if e.Admin? && e.admin.SetTenantQuota? && e.admin.id == t then Max(hi, e.admin.quota.maxQp) else hi)
  {
    if e.Admin? {
      AdminOnTenant(s, e, t, s.qps);
      SameOwnersCount(s.qps, s.reg.maps, Step(cfg, s, e).reg.maps, t);
    } else if e.QpCreate? {
      CreateKeepsQpInv(cfg, s, e, t, hi);
    } else if e.QpDestroy? {
      DestroyKeepsQpInv(cfg, s, e, t, hi);
    } else {
      OtherHooksKeepQpInv(cfg, s, e, t, hi);
    }
  }

  /** An admitted creation ends at or below the quota in force at that moment. */
  lemma AdmittedCreateFitsQuota(cfg: int -> Config, s: System, e: Event, t: nat, hi: int)
    requires Enforcing(cfg) && QpInv(s, t, hi) && e.QpCreate? && Owns(s.reg.maps, t, e.pid)
    requires Answer(cfg, s, e) == Some(Done)
    ensures var u := Step(cfg, s, e).reg.tenants[t].usage;
            && u.qp == s.reg.tenants[t].usage.qp + 1 <= s.reg.tenants[t].quota.maxQp
            && u.qpCreates == s.reg.tenants[t].usage.qpCreates + 1
  {
    HookOnTenant(cfg(e.pid), ProcOf(s, e.pid), e.pid, HookOf(s, e).value.1, t);
  }

  /**
   * With a quota at or below the current usage every creation of the tenant is denied and leaves
   * the registry and the live QPs alone: lowering a quota blocks growth but revokes nothing.
   */
  lemma LoweredQuotaOnlyBlocks(cfg: int -> Config, s: System, e: Event, t: nat, hi: int)
    requires Enforcing(cfg) && QpInv(s, t, hi) && e.QpCreate? && Owns(s.reg.maps, t, e.pid)
    requires s.reg.tenants[t].usage.qp >= s.reg.tenants[t].quota.maxQp
    ensures Answer(cfg, s, e) == Some(Denied)
    ensures Step(cfg, s, e).reg == s.reg && Step(cfg, s, e).qps == s.qps
  {
  }

  /**
   * Main result: over every serial run with hot quota updates, and with processes and tenants
   * that come and go, the usage record equals the number of live QPs of the processes bound to
   * the tenant, and exceeds `hi` only up to a larger quota that came into force.
   */
  lemma {:induction false} SerialQuotaSafety(cfg: int -> Config, s: System, es: seq<Event>, t: nat, hi: int)
    requires Enforcing(cfg) && QpInv(s, t, hi) && LegalRun(cfg, s, es) && BenignRun(cfg, s, es, t)
    ensures QpInv(Run(cfg, s, es), t, MaxQuota(es, t, hi))
  {
    if es != [] {
      var init := es[..|es| - 1];
      SerialQuotaSafety(cfg, s, init, t, hi);
      EventKeepsQpInv(cfg, Run(cfg, s, init), es[|es| - 1], t, MaxQuota(init, t, hi));
    }
  }

  /** A tenant just created, none of whose processes has a live QP yet, satisfies the invariant. */
  lemma CreationStartsQpInv(cfg: int -> Config, s: System, t: nat, name: Option<string>, quota: Quota)
    requires Sound(s) && CanCreate(s.reg, t) && 0 <= quota.maxQp < U32
    requires forall i :: 0 <= i < |s.qps| ==> !Owns(s.reg.maps, t, s.qps[i].pid)
    ensures QpInv(Step(cfg, s, Admin(CreateTenant(t, name, Some(quota)))), t, quota.maxQp)
  {
    OwnsNothing(s.qps, s.reg.maps, t);
  }

  lemma {:induction false} OwnsNothing(rs: seq<Resource>, maps: seq<Mapping>, t: nat)
    requires forall i :: 0 <= i < |rs| ==> !Owns(maps, t, rs[i].pid)
    ensures CountOf(rs, maps, t) == 0
  {
    if rs != [] {
      OwnsNothing(rs[..|rs| - 1], maps, t);
    }
  }

  lemma RunOne(cfg: int -> Config, s: System, es: seq<Event>, e: Event)
    requires Sound(s)
    ensures Run(cfg, s, es + [e]) == Step(cfg, Run(cfg, s, es), e)
    ensures LegalRun(cfg, s, es + [e]) <==> LegalRun(cfg, s, es) && Legal(Run(cfg, s, es), e)
  {
    assert (es + [e])[..|es|] == es;
  }

  lemma BenignOne(cfg: int -> Config, s: System, es: seq<Event>, e: Event, t: nat)
    requires Sound(s)
    ensures BenignRun(cfg, s, es + [e], t) <==> BenignRun(cfg, s, es, t) && Benign(Run(cfg, s, es), e, t)
  {
    assert (es + [e])[..|es|] == es;
  }

  // ---------- binding a process ----------

  function LiveOf(rs: seq<Resource>, pid: int): nat {
    if rs == [] then 0 else LiveOf(rs[..|rs| - 1], pid) + if rs[|rs| - 1].pid == pid then 1 else 0
  }

  lemma BindOwns(r: Registry, pid: int, tid: nat, t: nat, p: int)
    requires CanBind(r, pid, tid) && pid != 0 && p != 0
    ensures Owns(Bind(r, pid, tid).maps, t, p) <==> if p == pid then t == tid else Owns(r.maps, t, p)
  {
    var i := BindSlot(r.maps, pid);
    var w := Bind(r, pid, tid).maps;
    assert w == r.maps[i := Mapping(pid, tid)];
    FirstPidIs(w, p, if p == pid then i else FirstPid(r.maps, p, 0));
  }

  /** A binding moves every live resource of the process, and no other, to the new tenant. */
  lemma {:induction false} BindCounts(r: Registry, pid: int, tid: nat, t: nat, rs: seq<Resource>)
    requires CanBind(r, pid, tid) && pid != 0 && forall i :: 0 <= i < |rs| ==> rs[i].pid != 0
    ensures CountOf(rs, Bind(r, pid, tid).maps, t) ==
            CountOf(rs, r.maps, t) - (if Owns(r.maps, t, pid) then LiveOf(rs, pid) else 0)
                                   + (if t == tid then LiveOf(rs, pid) else 0)
  {
    if rs != [] {
      BindCounts(r, pid, tid, t, rs[..|rs| - 1]);
      BindOwns(r, pid, tid, t, rs[|rs| - 1].pid);
    }
  }

  /** No resource belongs to `pid`, nor to pid 0. */
  ghost predicate Idle(rs: seq<Resource>, pid: int) {
    forall i :: 0 <= i < |rs| ==> rs[i].pid != pid && rs[i].pid != 0
  }

  /** Binding or unbinding a process without live resources, and deleting another tenant, is quiet. */
  lemma IdleBindIsQuiet(s: System, pid: int, tid: nat, t: nat, rs: seq<Resource>)
    requires Bounded(s.reg) && pid != 0 && Idle(rs, pid)
    ensures Quiet(s, Admin(BindProcess(pid, tid)), t, rs)
  {
    if CanBind(s.reg, pid, tid) {
      forall i | 0 <= i < |rs|
        ensures Owns(Bind(s.reg, pid, tid).maps, t, rs[i].pid) <==> Owns(s.reg.maps, t, rs[i].pid)
      {
        BindOwns(s.reg, pid, tid, t, rs[i].pid);
      }
    }
  }

  lemma IdleUnbindIsQuiet(s: System, pid: int, t: nat, rs: seq<Resource>)
    requires Bounded(s.reg) && pid != 0 && Idle(rs, pid)
    ensures Quiet(s, Admin(UnbindProcess(pid)), t, rs)
  {
    forall i | 0 <= i < |rs|
      ensures Owns(Unbind(s.reg, pid).maps, t, rs[i].pid) <==> Owns(s.reg.maps, t, rs[i].pid)
    {
      FirstPidIs(Unbind(s.reg, pid).maps, rs[i].pid, FirstPid(s.reg.maps, rs[i].pid, 0));
    }
  }

  lemma OtherDeletionIsQuiet(s: System, id: nat, t: nat, rs: seq<Resource>)
    requires Refinement.Inv(s.reg) && id != t && t != 0 && Idle(rs, 0)
    ensures Quiet(s, Admin(DeleteTenant(id)), t, rs)
  {
    if CanDelete(s.reg, id) {
      forall i | 0 <= i < |rs|
        ensures Owns(Delete(s.reg, id).maps, t, rs[i].pid) <==> Owns(s.reg.maps, t, rs[i].pid)
      {
        Refinement.PurgedAt(s.reg.maps, id, rs[i].pid);
      }
    }
  }

  /**
   * A binding keeps the usage record of `t` equal to its live QPs exactly when the process has no
   * live QP or does not enter or leave `t`: the usage record does not follow a moved process.
   */
  lemma BindKeepsQpInvIff(cfg: int -> Config, s: System, pid: int, tid: nat, t: nat, hi: int)
    requires QpInv(s, t, hi) && pid != 0 && CanBind(s.reg, pid, tid)
    requires forall i :: 0 <= i < |s.qps| ==> s.qps[i].pid != 0
    ensures QpInv(Step(cfg, s, Admin(BindProcess(pid, tid))), t, hi) <==>
            (LiveOf(s.qps, pid) == 0 || (Owns(s.reg.maps, t, pid) <==> t == tid))
  {
    BindCounts(s.reg, pid, tid, t, s.qps);
  }

  lemma UnbindOwns(r: Registry, pid: int, t: nat, p: int)
    requires Refinement.Inv(r) && CanUnbind(r, pid) && pid != 0 && t != 0
    ensures Owns(Unbind(r, pid).maps, t, p) <==> p != pid && Owns(r.maps, t, p)
  {
    var i := FirstPid(r.maps, pid, 0);
    var w := Unbind(r, pid).maps;
    assert w == r.maps[i := FREE];
    if p == pid {
      FirstPidIs(w, p, |w|);
    } else if p != 0 {
      FirstPidIs(w, p, FirstPid(r.maps, p, 0));
    }
  }

  lemma {:induction false} UnbindCounts(r: Registry, pid: int, t: nat, rs: seq<Resource>)
    requires Refinement.Inv(r) && CanUnbind(r, pid) && pid != 0 && t != 0
    ensures CountOf(rs, Unbind(r, pid).maps, t) ==
            CountOf(rs, r.maps, t) - (if Owns(r.maps, t, pid) then LiveOf(rs, pid) else 0)
  {
    if rs != [] {
      UnbindCounts(r, pid, t, rs[..|rs| - 1]);
      UnbindOwns(r, pid, t, rs[|rs| - 1].pid);
    }
  }

  /** The same for unbinding: exact unless a process of `t` leaves with live QPs. */
  lemma UnbindKeepsQpInvIff(cfg: int -> Config, s: System, pid: int, t: nat, hi: int)
    requires QpInv(s, t, hi) && Refinement.Inv(s.reg) && pid != 0 && CanUnbind(s.reg, pid)
    ensures QpInv(Step(cfg, s, Admin(UnbindProcess(pid))), t, hi) <==>
            (LiveOf(s.qps, pid) == 0 || !Owns(s.reg.maps, t, pid))
  {
    UnbindCounts(s.reg, pid, t, s.qps);
  }

  /**
   * A successful creation is counted exactly when the tenant is ACTIVE: a SUSPENDED tenant passes
   * the check, but accounting for it is refused.
   */
  lemma CreateIsCountedIffActive(cfg: Config, p: Proc, pid: int, call: HookCall, t: nat)
    requires Sane(p) && cfg.intercept && cfg.tenants && cfg.qpControl && call.CreateQp?
    requires t != 0 && Owns(p.reg.maps, t, pid) && OutcomeOf(cfg, p, pid, call).Done?
    ensures Existing(p.reg, t)
    ensures HookStep(cfg, p, pid, call).reg.tenants[t].usage.qp == p.reg.tenants[t].usage.qp + 1
            <==> p.reg.tenants[t].status.Active?
  {
  }

  /** On every covered run the live QPs of `t` stay at or below the largest quota in force. */
  ghost predicate QuotaHolds(cfg: int -> Config, s: System, t: nat, hi: int)
    requires Sound(s)
  {
    forall es: seq<Event> :: LegalRun(cfg, s, es) && BenignRun(cfg, s, es, t) ==>
      LiveQps(cfg, s, es, t) <= MaxQuota(es, t, hi)
  }

  /** The live QPs of `t` after a run. */
  ghost function LiveQps(cfg: int -> Config, s: System, es: seq<Event>, t: nat): nat
    requires Sound(s)
  {
    var r := Run(cfg, s, es);
    CountOf(r.qps, r.reg.maps, t)
  }

  /** The limit on the recorded count of the process never stops it. */
  predicate Unchecked(c: Config, t: Table, pid: int) {
    c.mapped && pid > 0 ==> c.maxQpPerProcess >= U32 - 1 || (!Accepts(t, pid) && c.maxQpPerProcess >= 1)
  }

  /** `t` is SUSPENDED and below its quota, and nothing else stops its process `pid`. */
  ghost predicate Unaccounted(cfg: int -> Config, s: System, t: nat, pid: int) {
    && Sound(s) && t != 0 && Existing(s.reg, t) && !IsActive(s.reg, t)
    && Wrap32(s.reg.tenants[t].usage.qp) < s.reg.tenants[t].quota.maxQp
    && Owns(s.reg.maps, t, pid) && Unchecked(cfg(pid), s.table, pid)
  }

  /** A covered run after which `t` has `n` more QPs, its record is as before, and it can go on. */
  ghost predicate Gains(cfg: int -> Config, s: System, es: seq<Event>, t: nat, pid: int, n: nat, lo: int, hi: int)
    requires Sound(s)
  {
    && LegalRun(cfg, s, es) && BenignRun(cfg, s, es, t) && MaxQuota(es, t, lo) == hi
    && Unaccounted(cfg, Run(cfg, s, es), t, pid)
    && Run(cfg, s, es).reg.tenants[t].usage == s.reg.tenants[t].usage
    && LiveQps(cfg, s, es, t) == CountOf(s.qps, s.reg.maps, t) + n
  }

  lemma UncheckedIsAdmitted(c: Config, p: Proc, pid: int)
    requires Sane(p) && Unchecked(c, p.table, pid)
    requires QpWithinTenant(c, p.reg, CurrentTenant(c, p.reg, pid))
    ensures QpAdmitted(c, p, pid, CreateQp(OtherType, None, true))
  {
    if pid > 0 && !Accepts(p.table, pid) {
      assert Lookup(p.table, pid) == ZERO_USAGE;
    }
  }

  lemma UnaccountedCreate(cfg: int -> Config, s: System, t: nat, pid: int)
    requires Enforcing(cfg) && Unaccounted(cfg, s, t, pid)
    ensures var r := Step(cfg, s, QpCreate(pid, OtherType, None, true));
            && r.reg == s.reg && Unchecked(cfg(pid), r.table, pid)
            && CountOf(r.qps, s.reg.maps, t) == CountOf(s.qps, s.reg.maps, t) + 1
  {
    var call := CreateQp(OtherType, None, true);
    assert CurrentTenant(cfg(pid), s.reg, pid) == t;
    UncheckedIsAdmitted(cfg(pid), ProcOf(s, pid), pid);
    assert OutcomeOf(cfg(pid), ProcOf(s, pid), pid, call) == Done;
    CountAppend(s.qps, Resource(pid, 0), s.reg.maps, t);
  }

  lemma OneMoreGain(cfg: int -> Config, s: System, es: seq<Event>, t: nat, pid: int, n: nat, lo: int, hi: int)
    requires Sound(s) && t < |s.reg.tenants| && Enforcing(cfg) && Gains(cfg, s, es, t, pid, n, lo, hi)
    ensures Gains(cfg, s, es + [QpCreate(pid, OtherType, None, true)], t, pid, n + 1, lo, hi)
  {
    var e := QpCreate(pid, OtherType, None, true);
    RunOne(cfg, s, es, e);
    BenignOne(cfg, s, es, e, t);
    UnaccountedCreate(cfg, Run(cfg, s, es), t, pid);
    assert (es + [e])[..|es|] == es;
  }

  /** A SUSPENDED tenant below its quota can create any number of QPs. */
  lemma SuspendedIsUnlimited(cfg: int -> Config, s: System, start: seq<Event>, t: nat, pid: int, n: nat, lo: int, hi: int)
    returns (es: seq<Event>)
    requires Sound(s) && t < |s.reg.tenants| && Enforcing(cfg) && Gains(cfg, s, start, t, pid, 0, lo, hi)
    ensures Gains(cfg, s, es, t, pid, n, lo, hi)
  {
    es := start;
    for k := 0 to n
      invariant Gains(cfg, s, es, t, pid, k, lo, hi)
    {
      OneMoreGain(cfg, s, es, t, pid, k, lo, hi);
      es := es + [QpCreate(pid, OtherType, None, true)];
    }
  }

  lemma NothingGained(cfg: int -> Config, s: System, t: nat, pid: int, lo: int)
    requires Unaccounted(cfg, s, t, pid)
    ensures Gains(cfg, s, [], t, pid, 0, lo, lo)
  {
  }

  /** A SUSPENDED tenant at its quota is below it once the quota is raised. */
  lemma RaisedQuotaGains(cfg: int -> Config, s: System, t: nat, pid: int)
    requires Sound(s) && t != 0 && Existing(s.reg, t) && !IsActive(s.reg, t)
    requires 0 <= s.reg.tenants[t].usage.qp == s.reg.tenants[t].quota.maxQp < U32 - 1
    requires Owns(s.reg.maps, t, pid) && Unchecked(cfg(pid), s.table, pid)
    ensures var q := s.reg.tenants[t].quota;
            Gains(cfg, s, [Admin(SetTenantQuota(t, q.(maxQp := q.maxQp + 1)))], t, pid, 0, q.maxQp, q.maxQp + 1)
  {
    var q := s.reg.tenants[t].quota;
    RaiseStep(cfg, s, t, q.(maxQp := q.maxQp + 1));
    OneAdminRun(cfg, s, SetTenantQuota(t, q.(maxQp := q.maxQp + 1)), t, q.maxQp);
  }

  lemma RaiseStep(cfg: int -> Config, s: System, t: nat, q: Quota)
    requires Sound(s) && Existing(s.reg, t) && 0 <= q.maxQp < U32
    ensures Step(cfg, s, Admin(SetTenantQuota(t, q))) ==
            s.(reg := s.reg.(tenants := s.reg.tenants[t := s.reg.tenants[t].(quota := q)]))
    ensures Benign(s, Admin(SetTenantQuota(t, q)), t)
  {
  }

  lemma MaxQuotaOne(e: Event, t: nat, start: int)
    ensures MaxQuota([e], t, start) ==
            if e.Admin? && e.admin.SetTenantQuota? && e.admin.id == t then Max(start, e.admin.quota.maxQp) else start
  {
    assert [e][..0] == [];
  }

  lemma OneAdminRun(cfg: int -> Config, s: System, c: Call, t: nat, start: int)
    requires Sound(s) && Benign(s, Admin(c), t)
    ensures Run(cfg, s, [Admin(c)]) == Step(cfg, s, Admin(c))
    ensures LegalRun(cfg, s, [Admin(c)]) && BenignRun(cfg, s, [Admin(c)], t)
    ensures MaxQuota([Admin(c)], t, start) ==
            if c.SetTenantQuota? && c.id == t then Max(start, c.quota.maxQp) else start
  {
    var es: seq<Event> := [Admin(c)];
    assert es[..|es| - 1] == [];
    assert Run(cfg, s, []) == s && LegalRun(cfg, s, []) && BenignRun(cfg, s, [], t);
    MaxQuotaOne(Admin(c), t, start);
  }

  lemma RaisedQuotaUnblocks(cfg: int -> Config, s: System, t: nat, pid: int) returns (es: seq<Event>, hi: int)
    requires Sound(s) && t != 0 && Existing(s.reg, t) && !IsActive(s.reg, t)
    requires 0 <= s.reg.tenants[t].usage.qp <= s.reg.tenants[t].quota.maxQp < U32
    requires s.reg.tenants[t].usage.qp < U32 - 1
    requires Owns(s.reg.maps, t, pid) && Unchecked(cfg(pid), s.table, pid)
    ensures Gains(cfg, s, es, t, pid, 0, s.reg.tenants[t].quota.maxQp, hi)
  {
    var q := s.reg.tenants[t].quota;
    if s.reg.tenants[t].usage.qp < q.maxQp {
      NothingGained(cfg, s, t, pid, q.maxQp);
      es, hi := [], q.maxQp;
    } else {
      RaisedQuotaGains(cfg, s, t, pid);
      es, hi := [Admin(SetTenantQuota(t, q.(maxQp := q.maxQp + 1)))], q.maxQp + 1;
    }
  }

  /**
   * The quota of an existing tenant holds on all runs exactly when the tenant is ACTIVE, that is,
   * not SUSPENDED.
   */
  lemma QuotaHoldsIffActive(cfg: int -> Config, s: System, t: nat, pid: int)
    requires Enforcing(cfg) && Sound(s) && t != 0 && Existing(s.reg, t)
    requires s.reg.tenants[t].usage.qp == CountOf(s.qps, s.reg.maps, t) <= s.reg.tenants[t].quota.maxQp < U32
    requires s.reg.tenants[t].usage.qp < U32 - 1
    requires Owns(s.reg.maps, t, pid) && Unchecked(cfg(pid), s.table, pid)
    ensures QuotaHolds(cfg, s, t, s.reg.tenants[t].quota.maxQp) <==> IsActive(s.reg, t)
  {
    var lo := s.reg.tenants[t].quota.maxQp;
    if IsActive(s.reg, t) {
      forall es: seq<Event> | LegalRun(cfg, s, es) && BenignRun(cfg, s, es, t)
        ensures LiveQps(cfg, s, es, t) <= MaxQuota(es, t, lo)
      {
        SerialQuotaSafety(cfg, s, es, t, lo);
      }
    } else {
      var start, hi := RaisedQuotaUnblocks(cfg, s, t, pid);
      var es := SuspendedIsUnlimited(cfg, s, start, t, pid, hi + 1, lo, hi);
      assert LiveQps(cfg, s, es, t) > MaxQuota(es, t, lo);
    }
  }
}
