/**
 * src/rdma_hooks_tenant.c, serial runs of several processes: the per-process QP limit, the local
 * counters, and which answer each admission check gives.
 */
module ProcessLimits {
  import opened Words
  import opened Verbs
  import opened ProcessTable
  import opened TenantRegistry
  import opened TenantHooks
  import opened TenantQuota

  // ---------- why a call is denied ----------

  predicate TypeForbidden(cfg: Config, t: QpType) {
    (t == RC && !cfg.types.rc) || (t == UC && !cfg.types.uc) || (t == UD && !cfg.types.ud)
  }

  /** The tenant the process belongs to, if tenants are in use. */
  ghost predicate Belongs(cfg: Config, p: Proc, pid: int, t: nat) {
    cfg.tenants && t != 0 && TenantOf(p.reg, pid) == Some(t)
  }

  /** Some tenant the process belongs to is gone or at its QP quota. */
  ghost predicate TenantFull(cfg: Config, p: Proc, pid: int) {
    exists t: nat :: Belongs(cfg, p, pid, t) &&
      (!Existing(p.reg, t) || p.reg.tenants[t].usage.qp >= p.reg.tenants[t].quota.maxQp)
  }

  /** The table is readable and the recorded count of the process is at its limit. */
  ghost predicate ProcessFull(cfg: Config, p: Proc, pid: int)
    requires Sane(p)
  {
    cfg.mapped && pid > 0 && cfg.maxQpPerProcess <= Lookup(p.table, pid).qp != U32 - 1
  }

  predicate GlobalFull(cfg: Config, g: Option<int>) {
    g.Some? && g.value >= cfg.maxGlobalQp
  }

  /** All counts that the checks read are machine words. */
  ghost predicate WordCounts(cfg: Config, p: Proc, pid: int)
    requires Sane(p)
  {
    && (forall t :: 0 <= t < |p.reg.tenants| ==>
          0 <= p.reg.tenants[t].usage.qp < U32 && 0 <= p.reg.tenants[t].usage.mr < U32
          && 0 <= p.reg.tenants[t].usage.mem < U64)
    && 0 <= Lookup(p.table, pid).qp < U32 && 0 <= cfg.maxQpPerProcess < U32
  }

  lemma TenantFullIff(cfg: Config, p: Proc, pid: int)
    requires Sane(p) && WordCounts(cfg, p, pid)
    ensures QpWithinTenant(cfg, p.reg, CurrentTenant(cfg, p.reg, pid)) <==> !TenantFull(cfg, p, pid)
  {
    var t := CurrentTenant(cfg, p.reg, pid);
    if t != 0 { assert Belongs(cfg, p, pid, t); }
    if !QpWithinTenant(cfg, p.reg, t) {
      assert Belongs(cfg, p, pid, t);
    }
  }

  /** A QP creation is denied exactly for one of four reasons, and never with QP control off. */
  lemma CreationDeniedIff(cfg: Config, p: Proc, pid: int, ty: QpType, g: Option<int>, ok: bool)
    requires Sane(p) && WordCounts(cfg, p, pid) && cfg.intercept
    requires g.Some? ==> 0 <= g.value < U32
    ensures OutcomeOf(cfg, p, pid, CreateQp(ty, g, ok)) == Denied <==>
            cfg.qpControl &&
            (TypeForbidden(cfg, ty) || TenantFull(cfg, p, pid) || ProcessFull(cfg, p, pid) || GlobalFull(cfg, g))
  {
    TenantFullIff(cfg, p, pid);
  }

  /** A tenant is at its MR quota, or its non-zero memory quota leaves no room for the region. */
  ghost predicate NoRoomFor(t: Tenant, length: nat) {
    t.usage.mr >= t.quota.maxMr ||
    (t.quota.maxMem > 0 && Wrap64(t.usage.mem + length) > t.quota.maxMem)
  }

  /** A registration is denied exactly if the tenant of the process is gone or has no room for it. */
  lemma RegistrationDeniedIff(cfg: Config, p: Proc, pid: int, length: nat, ok: bool)
    requires Sane(p) && WordCounts(cfg, p, pid) && cfg.intercept
    ensures OutcomeOf(cfg, p, pid, RegMr(length, ok)) == Denied <==>
            exists t: nat :: Belongs(cfg, p, pid, t) &&
              (!Existing(p.reg, t) || NoRoomFor(p.reg.tenants[t], length))
  {
    var t := CurrentTenant(cfg, p.reg, pid);
    if OutcomeOf(cfg, p, pid, RegMr(length, ok)) == Denied {
      assert Belongs(cfg, p, pid, t) && (!Existing(p.reg, t) || NoRoomFor(p.reg.tenants[t], length));
    }
  }

  /** With interception off every call gets the driver's verdict and nothing is counted. */
  lemma PassThrough(cfg: Config, p: Proc, pid: int, call: HookCall)
    requires Sane(p) && !cfg.intercept
    ensures OutcomeOf(cfg, p, pid, call) == if call.ok then Done else DriverError
    ensures HookStep(cfg, p, pid, call) == p
  {
  }

  /** A call that is not denied gets the driver's verdict; only QP creation and registration are ever denied. */
  lemma VerdictIs(cfg: Config, p: Proc, pid: int, call: HookCall)
    requires Sane(p)
    ensures OutcomeOf(cfg, p, pid, call) != Denied ==>
              OutcomeOf(cfg, p, pid, call) == if call.ok then Done else DriverError
    ensures OutcomeOf(cfg, p, pid, call) == Denied ==> call.CreateQp? || call.RegMr?
  {
  }

  /** A call that was not done leaves registry, table and counters alone. */
  lemma UndoneChangesNothing(cfg: Config, p: Proc, pid: int, call: HookCall)
    requires Sane(p) && OutcomeOf(cfg, p, pid, call) != Done
    ensures HookStep(cfg, p, pid, call) == p
  {
  }

  /** Whatever calls succeed, the local counters stay machine words: a decrement stops at zero. */
  lemma CountersStayWords(l: Local, call: HookCall)
    requires 0 <= l.qp && 0 <= l.mr && 0 <= l.mem && FitsWords(l)
    ensures var r := Count(l, call);
            && 0 <= r.qp && 0 <= r.mr && 0 <= r.mem && FitsWords(r)
            && (call.DestroyQp? && l.qp == 0 ==> r == l)
            && (call.DeregMr? && l.mr == 0 ==> r.mr == 0)
            && (call.DeregMr? && l.mem < call.length ==> r.mem == l.mem)
  {
  }

  // ---------- the local counters ----------

  function LiveBytesOf(rs: seq<Resource>, pid: int): nat {
    if rs == [] then 0
    else
      var last := rs[|rs| - 1];
      LiveBytesOf(rs[..|rs| - 1], pid) + if last.pid == pid then last.length else 0
  }

  lemma LiveAppend(rs: seq<Resource>, r: Resource, pid: int)
    ensures LiveOf(rs + [r], pid) == LiveOf(rs, pid) + (if r.pid == pid then 1 else 0)
    ensures LiveBytesOf(rs + [r], pid) == LiveBytesOf(rs, pid) + (if r.pid == pid then r.length else 0)
  {
    assert (rs + [r])[..|rs|] == rs;
  }

  lemma {:induction false} LiveRemove(rs: seq<Resource>, i: nat, pid: int)
    requires i < |rs|
    ensures LiveOf(Remove(rs, i), pid) == LiveOf(rs, pid) - (if rs[i].pid == pid then 1 else 0)
    ensures LiveBytesOf(Remove(rs, i), pid) == LiveBytesOf(rs, pid) - (if rs[i].pid == pid then rs[i].length else 0)
  {
    var init, out := rs[..|rs| - 1], Remove(rs, i);
    if i == |init| {
      assert out == init;
    } else {
      assert out[..|out| - 1] == Remove(init, i) && out[|out| - 1] == rs[|init|];
      LiveRemove(init, i, pid);
    }
  }

  /** What `pid` has live in the driver, as its counters should say. */
  function LiveCounts(s: System, pid: int): Local {
    Local(LiveOf(s.qps, pid), LiveOf(s.mrs, pid), LiveBytesOf(s.mrs, pid))
  }

  ghost predicate FitsWords(l: Local) {
    l.qp < U32 && l.mr < U32 && l.mem < U64
  }

  /** The local counters of `pid` are what it has live. */
  ghost predicate LocalExact(s: System, pid: int) {
    LocalOf(s, pid) == LiveCounts(s, pid) && FitsWords(LocalOf(s, pid))
  }

  /** What a call that was done adds to what its process has live. */
  function Gain(l: Local, call: HookCall): Local {
    match call
    case CreateQp(_, _, _) => l.(qp := l.qp + 1)
    case DestroyQp(_) => l.(qp := l.qp - 1)
    case RegMr(length, _) => l.(mr := l.mr + 1, mem := l.mem + length)
    case DeregMr(length, _) => l.(mr := l.mr - 1, mem := l.mem - length)
    case _ => l
  }

  /** An event changes the live resources of its own process by one call, and no other's. */
  lemma LiveStep(cfg: int -> Config, s: System, e: Event, pid: int)
    requires Sound(s) && Legal(s, e)
    ensures LiveCounts(Step(cfg, s, e), pid) ==
            var h := HookOf(s, e);
            if h.Some? && h.value.0 == pid && Answer(cfg, s, e) == Some(Done) then Gain(LiveCounts(s, pid), h.value.1)
            else LiveCounts(s, pid)
  {
    var done := Answer(cfg, s, e) == Some(Done);
    LedgerIs(cfg, s, e);
    if done { LedgerCounts(s, e, pid); }
  }

  lemma LedgerIs(cfg: int -> Config, s: System, e: Event)
    requires Sound(s) && Legal(s, e)
    ensures var r := Step(cfg, s, e);
            (r.qps, r.mrs) == if Answer(cfg, s, e) == Some(Done) then Ledger(s, e, true) else (s.qps, s.mrs)
  {
  }

  /** What is live of `pid` after a done event. */
  lemma LedgerCounts(s: System, e: Event, pid: int)
    requires Legal(s, e) && HookOf(s, e).Some?
    ensures var (qps, mrs) := Ledger(s, e, true);
            var (p, call) := HookOf(s, e).value;
            Local(LiveOf(qps, pid), LiveOf(mrs, pid), LiveBytesOf(mrs, pid)) ==
            if p == pid then Gain(LiveCounts(s, pid), call) else LiveCounts(s, pid)
  {
    match e
    case QpCreate(p, _, _, _) => LiveAppend(s.qps, Resource(p, 0), pid);
    case QpDestroy(i, _) => LiveRemove(s.qps, i, pid);
    case MrReg(p, len, _) => LiveAppend(s.mrs, Resource(p, len), pid);
    case MrDereg(i, _) => LiveRemove(s.mrs, i, pid);
    case Other(_, _) =>
  }

  lemma {:induction false} LiveAtLeast(rs: seq<Resource>, i: nat)
    requires i < |rs|
    ensures LiveOf(rs, rs[i].pid) > 0 && LiveBytesOf(rs, rs[i].pid) >= rs[i].length
  {
    var init := rs[..|rs| - 1];
    if i < |init| {
      LiveAtLeast(init, i);
    }
  }

  lemma LocalStep(cfg: int -> Config, s: System, e: Event, pid: int)
    requires Sound(s) && cfg(pid).intercept
    ensures LocalOf(Step(cfg, s, e), pid) ==
            var h := HookOf(s, e);
            if h.Some? && h.value.0 == pid && Answer(cfg, s, e) == Some(Done) then Count(LocalOf(s, pid), h.value.1)
            else LocalOf(s, pid)
  {
  }

  /** Counting and what is live agree, unless a word wraps around; the guards never suppress a decrement. */
  lemma CountIsGainIff(l: Local, call: HookCall)
    requires 0 <= l.qp && 0 <= l.mr && 0 <= l.mem && FitsWords(l)
    requires call.DestroyQp? ==> l.qp > 0
    requires call.DeregMr? ==> l.mr > 0 && l.mem >= call.length
    ensures Count(l, call) == Gain(l, call) && FitsWords(Count(l, call)) <==> FitsWords(Gain(l, call))
  {
  }

  lemma StepIsExactIff(cfg: int -> Config, s: System, e: Event, pid: int)
    requires Sound(s) && Legal(s, e) && cfg(pid).intercept && LocalExact(s, pid)
    ensures LocalExact(Step(cfg, s, e), pid) <==> FitsWords(LiveCounts(Step(cfg, s, e), pid))
  {
    LiveStep(cfg, s, e, pid);
    LocalStep(cfg, s, e, pid);
    var h := HookOf(s, e);
    if h.Some? && h.value.0 == pid && Answer(cfg, s, e) == Some(Done) {
      if e.QpDestroy? { LiveAtLeast(s.qps, e.slot); }
      if e.MrDereg? { LiveAtLeast(s.mrs, e.slot); }
      CountIsGainIff(LocalOf(s, pid), h.value.1);
    }
  }

  ghost predicate AlwaysExact(cfg: int -> Config, s: System, es: seq<Event>, pid: int)
    requires Sound(s)
  {
    LocalExact(Run(cfg, s, es), pid) && (es == [] || AlwaysExact(cfg, s, es[..|es| - 1], pid))
  }

  ghost predicate AlwaysFits(cfg: int -> Config, s: System, es: seq<Event>, pid: int)
    requires Sound(s)
  {
    FitsWords(LiveCounts(Run(cfg, s, es), pid)) && (es == [] || AlwaysFits(cfg, s, es[..|es| - 1], pid))
  }

  /**
   * Main result: over every legal run the local counters of a process are at all times its live
   * QPs, its live regions and their bytes, if and only if these fit the machine words.
   */
  lemma {:induction false} LocalsAreExactIff(cfg: int -> Config, s: System, es: seq<Event>, pid: int)
    requires Sound(s) && LegalRun(cfg, s, es) && cfg(pid).intercept && LocalExact(s, pid)
    ensures AlwaysExact(cfg, s, es, pid) <==> AlwaysFits(cfg, s, es, pid)
  {
    if es != [] {
      LocalsAreExactIff(cfg, s, es[..|es| - 1], pid);
      if AlwaysExact(cfg, s, es[..|es| - 1], pid) {
        StepIsExactIff(cfg, Run(cfg, s, es[..|es| - 1]), es[|es| - 1], pid);
      }
    }
  }

  // ---------- the per-process limit ----------

  /** Live QPs are counted locally, at most the recorded count, and that at most the limit. */
  ghost predicate Covers(cfg: int -> Config, s: System, pid: int) {
    && Sound(s) && cfg(pid).intercept && cfg(pid).qpControl && cfg(pid).mapped
    && pid > 0 && pid in s.table.pids && 0 <= cfg(pid).maxQpPerProcess < U32 - 1
    && LocalOf(s, pid).qp == LiveOf(s.qps, pid) <= Lookup(s.table, pid).qp <= cfg(pid).maxQpPerProcess
  }

  /** Only its own creations write the record of a listed process. */
  lemma RecordStep(cfg: int -> Config, s: System, e: Event, pid: int)
    requires Sound(s) && Legal(s, e) && cfg(pid).intercept && cfg(pid).mapped && pid > 0 && pid in s.table.pids
    ensures var r := Step(cfg, s, e);
            && pid in r.table.pids
            && Lookup(r.table, pid) ==
               if e.QpCreate? && e.pid == pid && Answer(cfg, s, e) == Some(Done)
               then var l := LocalOf(r, pid); Usage(l.qp, l.mr, l.mem)
               else Lookup(s.table, pid)
  {
    if e.QpCreate? {
      var l := Count(LocalOf(s, e.pid), CreateQp(e.qpType, e.globalQp, e.ok));
      UpdateLookup(s.table, e.pid, Usage(l.qp, l.mr, l.mem), pid);
      UpdateKeepsListed(s.table, e.pid, Usage(l.qp, l.mr, l.mem), pid);
    }
  }

  /** An admitted creation found the recorded count below the limit. */
  lemma AdmittedBelowLimit(cfg: int -> Config, s: System, e: Event, pid: int)
    requires Covers(cfg, s, pid) && e.QpCreate? && e.pid == pid && Answer(cfg, s, e) == Some(Done)
    ensures Lookup(s.table, pid).qp < cfg(pid).maxQpPerProcess
  {
    assert QpAdmitted(cfg(pid), ProcOf(s, pid), pid, CreateQp(e.qpType, e.globalQp, e.ok));
  }

  /** An own creation raises live and recorded count to the same new local count. */
  lemma CreationKeepsCover(cfg: int -> Config, s: System, e: Event, pid: int)
    requires Covers(cfg, s, pid) && Legal(s, e) && e.QpCreate? && e.pid == pid && Answer(cfg, s, e) == Some(Done)
    ensures Covers(cfg, Step(cfg, s, e), pid)
  {
    LiveStep(cfg, s, e, pid);
    LocalStep(cfg, s, e, pid);
    RecordStep(cfg, s, e, pid);
    AdmittedBelowLimit(cfg, s, e, pid);
  }

  /** Any other event leaves the record alone, and lowers local and live count together if at all. */
  lemma OtherEventKeepsCover(cfg: int -> Config, s: System, e: Event, pid: int)
    requires Covers(cfg, s, pid) && Legal(s, e)
    requires !(e.QpCreate? && e.pid == pid && Answer(cfg, s, e) == Some(Done))
    ensures Covers(cfg, Step(cfg, s, e), pid)
  {
    LiveStep(cfg, s, e, pid);
    LocalStep(cfg, s, e, pid);
    RecordStep(cfg, s, e, pid);
    if e.QpDestroy? { LiveAtLeast(s.qps, e.slot); }
  }

  lemma StepKeepsCover(cfg: int -> Config, s: System, e: Event, pid: int)
    requires Covers(cfg, s, pid) && Legal(s, e)
    ensures Covers(cfg, Step(cfg, s, e), pid)
  {
    if e.QpCreate? && e.pid == pid && Answer(cfg, s, e) == Some(Done) {
      CreationKeepsCover(cfg, s, e, pid);
    } else {
      OtherEventKeepsCover(cfg, s, e, pid);
    }
  }

  /**
   * Main result: over every legal run, whatever other processes and administrators do, the live
   * QPs of a listed process are at most its recorded count, which is at most its limit.
   */
  lemma {:induction false} ProcessLimitHolds(cfg: int -> Config, s: System, es: seq<Event>, pid: int)
    requires Covers(cfg, s, pid) && LegalRun(cfg, s, es)
    ensures Covers(cfg, Run(cfg, s, es), pid)
  {
    if es != [] {
      ProcessLimitHolds(cfg, s, es[..|es| - 1], pid);
      StepKeepsCover(cfg, Run(cfg, s, es[..|es| - 1]), es[|es| - 1], pid);
    }
  }

  /** A process whose recorded count is at the limit is denied, and nothing changes. */
  lemma FullProcessIsDenied(cfg: int -> Config, s: System, e: Event)
    requires Sound(s) && e.QpCreate? && cfg(e.pid).intercept && cfg(e.pid).qpControl && cfg(e.pid).mapped
    requires e.pid > 0 && 0 <= cfg(e.pid).maxQpPerProcess <= Lookup(s.table, e.pid).qp < U32 - 1
    ensures Answer(cfg, s, e) == Some(Denied)
    ensures var r := Step(cfg, s, e);
            r.reg == s.reg && r.table == s.table && r.qps == s.qps && r.mrs == s.mrs && LocalOf(r, e.pid) == LocalOf(s, e.pid)
  {
  }
}
