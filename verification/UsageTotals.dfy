/**
 * The usage record of a tenant over serial runs: every counter is a number of calls that its
 * processes completed.
 */
module UsageTotals {
  import opened Words
  import opened Verbs
  import opened ProcessTable
  import opened TenantRegistry
  import opened TenantHooks
  import opened TenantQuota

  /** The name of a call, without its arguments. */
  datatype Tag = QpUp | QpDown | MrUp | MrDown | CqUp | CqDown | PdUp | PdDown

  function TagOf(call: HookCall): Tag {
    match call
    case CreateQp(_, _, _) => QpUp
    case DestroyQp(_) => QpDown
    case RegMr(_, _) => MrUp
    case DeregMr(_, _) => MrDown
    case CreateCq(_) => CqUp
    case DestroyCq(_) => CqDown
    case AllocPd(_) => PdUp
    case DeallocPd(_) => PdDown
  }

  /** The call that the event completes for a process of `t`, if it completes one. */
  ghost function CompletedTag(cfg: int -> Config, s: System, e: Event, t: nat): Option<Tag>
    requires Sound(s)
  {
    var h := HookOf(s, e);
    if h.Some? && Owns(s.reg.maps, t, h.value.0) && Answer(cfg, s, e) == Some(Done) then Some(TagOf(h.value.1)) else None
  }

  /** How many calls of this name the run completed for `t`. */
  ghost function Completed(cfg: int -> Config, s: System, es: seq<Event>, t: nat, tag: Tag): nat
    requires Sound(s)
  {
    if es == [] then 0
    else
      Completed(cfg, s, es[..|es| - 1], t, tag)
      + if CompletedTag(cfg, Run(cfg, s, es[..|es| - 1]), es[|es| - 1], t) == Some(tag) then 1 else 0
  }

  /** `t` stays ACTIVE and nobody overwrites its usage record; processes may come and go. */
  ghost predicate QuietRun(cfg: int -> Config, s: System, es: seq<Event>, t: nat)
    requires Sound(s)
  {
    es == [] ||
    (QuietRun(cfg, s, es[..|es| - 1], t) && Quiet(Run(cfg, s, es[..|es| - 1]), es[|es| - 1], t, []))
  }

  function One(done: Option<Tag>, tag: Tag): int {
    if done == Some(tag) then 1 else 0
  }

  /** From `u` to `v` exactly the counters of the completed call change. */
  ghost predicate Counts(u: TenantUsage, v: TenantUsage, done: Option<Tag>) {
    && v.qp == u.qp + One(done, QpUp) - One(done, QpDown)
    && v.qpCreates == u.qpCreates + One(done, QpUp) && v.qpDestroys == u.qpDestroys + One(done, QpDown)
    && v.mr == u.mr + One(done, MrUp) - One(done, MrDown)
    && v.mrRegs == u.mrRegs + One(done, MrUp) && v.mrDeregs == u.mrDeregs + One(done, MrDown)
    && v.cq == u.cq + One(done, CqUp) - One(done, CqDown)
    && v.pd == u.pd + One(done, PdUp) - One(done, PdDown)
    && v.mem == u.mem
  }

  lemma BumpCounts(u: TenantUsage, call: HookCall)
    ensures Counts(u, Bump(u, KindOf(call), DeltaOf(call)), Some(TagOf(call)))
  {
  }

  /** One event changes each counter by the call it completes. */
  lemma CountersStep(cfg: int -> Config, s: System, e: Event, t: nat)
    requires Enforcing(cfg) && Sound(s) && t != 0 && IsActive(s.reg, t) && Quiet(s, e, t, [])
    ensures IsActive(Step(cfg, s, e).reg, t)
    ensures Counts(s.reg.tenants[t].usage, Step(cfg, s, e).reg.tenants[t].usage, CompletedTag(cfg, s, e, t))
  {
    if e.Admin? {
      AdminOnTenant(s, e, t, []);
    } else if HookOf(s, e).Some? {
      HookCounts(cfg, s, e, t);
    }
  }

  lemma HookCounts(cfg: int -> Config, s: System, e: Event, t: nat)
    requires Enforcing(cfg) && Sound(s) && t != 0 && IsActive(s.reg, t) && !e.Admin? && HookOf(s, e).Some?
    ensures IsActive(Step(cfg, s, e).reg, t)
    ensures Counts(s.reg.tenants[t].usage, Step(cfg, s, e).reg.tenants[t].usage, CompletedTag(cfg, s, e, t))
  {
    var (pid, call) := HookOf(s, e).value;
    var r := HookStep(cfg(pid), ProcOf(s, pid), pid, call).reg;
    assert Step(cfg, s, e).reg == r;
    HookOnTenant(cfg(pid), ProcOf(s, pid), pid, call, t);
    BumpCounts(s.reg.tenants[t].usage, call);
    assert Answer(cfg, s, e) == Some(OutcomeOf(cfg(pid), ProcOf(s, pid), pid, call));
  }

  /**
   * Main result: over every serial run each counter of an ACTIVE tenant is its starting value plus
   * the completed calls that raise it minus those that lower it; the recorded memory never changes.
   */
  lemma {:induction false} CountersAreCalls(cfg: int -> Config, s: System, es: seq<Event>, t: nat)
    requires Enforcing(cfg) && Sound(s) && t != 0 && IsActive(s.reg, t) && QuietRun(cfg, s, es, t)
    ensures IsActive(Run(cfg, s, es).reg, t)
    ensures var u, v := s.reg.tenants[t].usage, Run(cfg, s, es).reg.tenants[t].usage;
            && v.qp == u.qp + Completed(cfg, s, es, t, QpUp) - Completed(cfg, s, es, t, QpDown)
            && v.qpCreates == u.qpCreates + Completed(cfg, s, es, t, QpUp)
            && v.qpDestroys == u.qpDestroys + Completed(cfg, s, es, t, QpDown)
            && v.mr == u.mr + Completed(cfg, s, es, t, MrUp) - Completed(cfg, s, es, t, MrDown)
            && v.mrRegs == u.mrRegs + Completed(cfg, s, es, t, MrUp)
            && v.mrDeregs == u.mrDeregs + Completed(cfg, s, es, t, MrDown)
            && v.cq == u.cq + Completed(cfg, s, es, t, CqUp) - Completed(cfg, s, es, t, CqDown)
            && v.pd == u.pd + Completed(cfg, s, es, t, PdUp) - Completed(cfg, s, es, t, PdDown)
            && v.mem == u.mem
  {
    if es != [] {
      CountersAreCalls(cfg, s, es[..|es| - 1], t);
      CountersStep(cfg, Run(cfg, s, es[..|es| - 1]), es[|es| - 1], t);
    }
  }
}
