/**
 * src/rdma_hooks.c while the process table cannot be read: the eBPF reading decides, and the local
 * counter stands in for a missing or zero one. Also, what every admission means whichever count
 * decides.
 */
module FallbackAdmission {
  import opened Words
  import opened Verbs
  import opened ProcessTable
  import opened ProcessAdmission

  // ---------- one admission ----------

  /** The type of the request is not allowed by the configuration. */
  predicate TypeForbidden(cfg: Config, req: Request) {
    (req.qpType == RC && !cfg.types.rc) || (req.qpType == UC && !cfg.types.uc) || (req.qpType == UD && !cfg.types.ud)
  }

  /** The global count is at its maximum. */
  predicate GlobalFull(cfg: Config, g: Option<int>) {
    g.Some? && g.value >= cfg.maxGlobalQp
  }

  /** The count that the process is held to is at its limit; the largest word wraps to zero. */
  predicate AtLimit(count: int, max: int) {
    max <= count != U32 - 1
  }

  /** The table's record if it is readable, else a non-zero eBPF reading, else the local count. */
  ghost predicate Deciding(s: State, pid: int, env: Env, count: int)
    requires WellFormed(s.table)
  {
    && (env.mapped && pid > 0 ==> count == Lookup(s.table, pid).qp)
    && (!(env.mapped && pid > 0) && env.ebpf.Count? && env.ebpf.qp != 0 ==> count == env.ebpf.qp)
    && (!(env.mapped && pid > 0) && !(env.ebpf.Count? && env.ebpf.qp != 0) ==> count == s.local.qp)
  }

  /** All counts are 32-bit words. */
  ghost predicate Words32(cfg: Config, s: State, pid: int, env: Env)
    requires WellFormed(s.table)
  {
    && 0 <= Lookup(s.table, pid).qp < U32 && 0 <= s.local.qp < U32
    && (env.ebpf.Count? ==> 0 <= env.ebpf.qp < U32)
    && (env.globalQp.Some? ==> 0 <= env.globalQp.value < U32)
    && 0 <= cfg.maxQp < U32
  }

  /** A creation is denied exactly for one of five reasons, and never with QP control off. */
  lemma DeniedIff(cfg: Config, s: State, pid: int, req: Request, env: Env, count: int)
    requires WellFormed(s.table) && Words32(cfg, s, pid, env) && Deciding(s, pid, env, count)
    ensures !Admits(cfg, s, pid, req, env) <==>
            cfg.qpControl &&
            (TypeForbidden(cfg, req) || AtLimit(count, cfg.maxQp) || GlobalFull(cfg, env.globalQp)
             || req.sendWr > cfg.maxSendWr || req.recvWr > cfg.maxRecvWr)
  {
  }

  /** A non-zero reading at or above the limit denies, whatever the local count is. */
  lemma HighReadingDenies(cfg: Config, s: State, pid: int, req: Request, env: Env)
    requires WellFormed(s.table) && cfg.qpControl && !(env.mapped && pid > 0)
    requires env.ebpf.Count? && 0 < env.ebpf.qp && cfg.maxQp <= env.ebpf.qp < U32 - 1
    ensures !Admits(cfg, s, pid, req, env)
  {
  }

  /** After a creation the table's record of a process that it accepts is the local counters. */
  lemma CreateRecordsCounters(s: State, pid: int, env: Env)
    requires WellFormed(s.table) && env.mapped && Accepts(s.table, pid)
    ensures var r := AfterCreate(s, pid, env);
            && r.local == s.local.(qp := Wrap32(s.local.qp + 1))
            && Lookup(r.table, pid) == Usage(r.local.qp, r.local.mr, r.local.mem)
  {
    var l := s.local.(qp := Wrap32(s.local.qp + 1));
    UpdateLookup(s.table, pid, Usage(l.qp, l.mr, l.mem), pid);
  }

  /** While the table cannot be read it is not written either. */
  lemma UnmappedTableIsLeftAlone(s: State, pid: int, env: Env)
    requires WellFormed(s.table) && !env.mapped
    ensures AfterCreate(s, pid, env).table == s.table
  {
  }

  /** Whatever is created and destroyed, the local count stays a 32-bit word. */
  lemma CountStaysWord(s: State, pid: int, env: Env)
    requires WellFormed(s.table) && 0 <= s.local.qp < U32
    ensures 0 <= AfterCreate(s, pid, env).local.qp < U32
    ensures AfterDestroy(s).local.qp == if s.local.qp == 0 then 0 else s.local.qp - 1
  {
  }

  // ---------- runs without the table ----------

  /** Each creation brings its own eBPF reading; `ok` is the driver's verdict. */
  datatype Event = Create(req: Request, ebpf: Ebpf, globalQp: Option<int>, ok: bool) | Destroy(ok: bool)

  datatype Session = Session(state: State, live: nat)

  ghost predicate Legal(r: Session, e: Event) {
    match e
    case Create(_, _, _, _) => true
    case Destroy(ok) => ok ==> r.live > 0
  }

  function EnvOf(e: Event): Env
    requires e.Create?
  {
    Env(false, e.ebpf, e.globalQp)
  }

  function Step(cfg: Config, r: Session, pid: int, e: Event): (n: Session)
    requires WellFormed(r.state.table)
    ensures WellFormed(n.state.table)
  {
    match e
    case Create(req, _, _, ok) =>
      if ok && Admits(cfg, r.state, pid, req, EnvOf(e)) then Session(AfterCreate(r.state, pid, EnvOf(e)), r.live + 1) else r
    case Destroy(ok) =>
      if ok && r.live > 0 then Session(AfterDestroy(r.state), r.live - 1) else r
  }

  function RunAll(cfg: Config, r: Session, pid: int, es: seq<Event>): (n: Session)
    requires WellFormed(r.state.table)
    ensures WellFormed(n.state.table)
  {
    if es == [] then r else Step(cfg, RunAll(cfg, r, pid, es[..|es| - 1]), pid, es[|es| - 1])
  }

  ghost predicate LegalRun(cfg: Config, r: Session, pid: int, es: seq<Event>)
    requires WellFormed(r.state.table)
  {
    es == [] ||
    (LegalRun(cfg, r, pid, es[..|es| - 1]) && Legal(RunAll(cfg, r, pid, es[..|es| - 1]), es[|es| - 1]))
  }

  /** The local count is the live one, within the limit. */
  ghost predicate Within(cfg: Config, r: Session) {
    && WellFormed(r.state.table) && cfg.qpControl && 0 <= cfg.maxQp < U32 - 1
    && r.state.local.qp == r.live <= cfg.maxQp
  }

  /** The reading hides live QPs: it is not zero, and below the limit or about to wrap. */
  predicate Low(reading: Ebpf, max: int) {
    reading.Count? && reading.qp != 0 && (Wrap32(reading.qp) < max || Wrap32(reading.qp) == U32 - 1)
  }

  /** A creation that would be the one too many has a low reading, and nothing else stops it. */
  ghost predicate Exceeds(cfg: Config, r: Session, e: Event) {
    e.Create? && e.ok && r.live == cfg.maxQp && Low(e.ebpf, cfg.maxQp) && OtherwiseAllowed(cfg, e.req, e.globalQp)
  }

  lemma StepIsWithinIff(cfg: Config, r: Session, pid: int, e: Event)
    requires Within(cfg, r) && Legal(r, e)
    ensures Within(cfg, Step(cfg, r, pid, e)) <==> !Exceeds(cfg, r, e)
  {
    if e.Create? && r.live == cfg.maxQp {
      AdmittedAtLimitIff(cfg, r, pid, e);
    }
  }

  lemma AdmittedAtLimitIff(cfg: Config, r: Session, pid: int, e: Event)
    requires Within(cfg, r) && e.Create? && r.live == cfg.maxQp
    ensures Admits(cfg, r.state, pid, e.req, EnvOf(e)) <==>
            Low(e.ebpf, cfg.maxQp) && OtherwiseAllowed(cfg, e.req, e.globalQp)
  {
  }

  ghost predicate AlwaysWithin(cfg: Config, r: Session, pid: int, es: seq<Event>)
    requires WellFormed(r.state.table)
  {
    Within(cfg, RunAll(cfg, r, pid, es)) && (es == [] || AlwaysWithin(cfg, r, pid, es[..|es| - 1]))
  }

  ghost predicate NeverExceeds(cfg: Config, r: Session, pid: int, es: seq<Event>)
    requires WellFormed(r.state.table)
  {
    es == [] ||
    (NeverExceeds(cfg, r, pid, es[..|es| - 1]) && !Exceeds(cfg, RunAll(cfg, r, pid, es[..|es| - 1]), es[|es| - 1]))
  }

  /**
   * Main result: without the table the live QPs stay within the limit at all times if and only if
   * no creation that nothing else forbids comes with a low reading while the limit is reached.
   */
  lemma {:induction false} AlwaysWithinIff(cfg: Config, r: Session, pid: int, es: seq<Event>)
    requires Within(cfg, r) && LegalRun(cfg, r, pid, es)
    ensures AlwaysWithin(cfg, r, pid, es) <==> NeverExceeds(cfg, r, pid, es)
  {
    if es != [] {
      AlwaysWithinIff(cfg, r, pid, es[..|es| - 1]);
      if AlwaysWithin(cfg, r, pid, es[..|es| - 1]) {
        StepIsWithinIff(cfg, RunAll(cfg, r, pid, es[..|es| - 1]), pid, es[|es| - 1]);
      }
    }
  }

  /** Each reading is missing, zero, or a 32-bit count that covers the live QPs. */
  ghost predicate Trustworthy(cfg: Config, r: Session, pid: int, es: seq<Event>)
    requires WellFormed(r.state.table)
  {
    es == [] ||
    (var mid, e := RunAll(cfg, r, pid, es[..|es| - 1]), es[|es| - 1];
     && Trustworthy(cfg, r, pid, es[..|es| - 1])
     && (e.Create? && e.ebpf.Count? ==> e.ebpf.qp == 0 || mid.live <= e.ebpf.qp < U32 - 1))
  }

  /** With such readings the live QPs never exceed the limit. */
  lemma {:induction false} TrustworthyReadingsSuffice(cfg: Config, r: Session, pid: int, es: seq<Event>)
    requires Within(cfg, r) && LegalRun(cfg, r, pid, es) && Trustworthy(cfg, r, pid, es)
    ensures NeverExceeds(cfg, r, pid, es)
    ensures RunAll(cfg, r, pid, es).live <= cfg.maxQp
  {
    if es != [] {
      TrustworthyReadingsSuffice(cfg, r, pid, es[..|es| - 1]);
    }
    AlwaysWithinIff(cfg, r, pid, es);
  }
}
