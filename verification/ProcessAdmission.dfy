/**
 * src/rdma_hooks.c, one call at a time: which count decides about a QP creation and what the
 * process table then records. Destroying a QP never updates the table.
 */
module ProcessAdmission {
  import opened Words
  import opened Verbs
  import opened ProcessTable
  import LocalHooks

  datatype Config = Config(intercept: bool, qpControl: bool, types: AllowedTypes,
                           maxQp: int, maxGlobalQp: int, maxSendWr: int, maxRecvWr: int)

  datatype Request = Request(qpType: QpType, sendWr: int, recvWr: int)

  /**
   * What the environment answers: whether the process table is mapped, the eBPF reading (not
   * initialised, failed or a count), and the global QP count if it can be read.
   */
  datatype Ebpf = Uninitialised | Failed | Count(qp: int)

  datatype Env = Env(mapped: bool, ebpf: Ebpf, globalQp: Option<int>)

  datatype State = State(local: Local, table: Table)

  /** The count compared with the per-process limit: table first, then eBPF, then the local count. */
  function DecidingCount(s: State, pid: int, env: Env): int
    requires WellFormed(s.table)
  {
    if env.mapped && pid > 0 then Wrap32(Lookup(s.table, pid).qp)
    else if env.ebpf.Count? && !(env.ebpf.qp == 0 && s.local.qp > 0) then Wrap32(env.ebpf.qp)
    else s.local.qp
  }

  /** `check_qp_creation_restrictions`. */
  predicate Admits(cfg: Config, s: State, pid: int, req: Request, env: Env)
    requires WellFormed(s.table)
  {
    !cfg.qpControl ||
    (&& Allows(cfg.types, req.qpType)
     && Wrap32(DecidingCount(s, pid, env) + 1) <= cfg.maxQp
     && (env.globalQp.Some? ==> Wrap32(env.globalQp.value) < cfg.maxGlobalQp)
     && req.sendWr <= cfg.maxSendWr && req.recvWr <= cfg.maxRecvWr)
  }

  function AfterCreate(s: State, pid: int, env: Env): (r: State)
    requires WellFormed(s.table)
    ensures WellFormed(r.table)
  {
    var local := s.local.(qp := Wrap32(s.local.qp + 1));
    State(local, if env.mapped then Update(s.table, pid, Usage(local.qp, local.mr, local.mem)) else s.table)
  }

  function AfterDestroy(s: State): State {
    s.(local := s.local.(qp := if s.local.qp > 0 then s.local.qp - 1 else s.local.qp))
  }

  class Process {
    const pid: int
    const table: SharedTable
    var cfg: Config
    var qpCount: int
    var mrCount: int
    var memUsed: int

    ghost predicate Valid() {
      table.Valid()
    }

    ghost function View(): (s: State)
      requires Valid()
      reads this, table.pids, table.stats
      ensures WellFormed(s.table)
    {
      State(Local(qpCount, mrCount, memUsed), table.View())
    }

    constructor (pid: int, table: SharedTable, cfg: Config)
      requires table.Valid()
      ensures Valid() && this.pid == pid && this.table == table && this.cfg == cfg
      ensures View() == State(Local(0, 0, 0), table.View())
    {
      this.pid, this.table, this.cfg := pid, table, cfg;
      qpCount, mrCount, memUsed := 0, 0, 0;
    }

    method CheckQpCreation(req: Request, env: Env) returns (allowed: bool)
      requires Valid()
      ensures allowed == Admits(cfg, View(), pid, req, env)
    {
      if !cfg.qpControl { return true; }
      match req.qpType {
        case RC => if !cfg.types.rc { return false; }
        case UC => if !cfg.types.uc { return false; }
        case UD => if !cfg.types.ud { return false; }
        case OtherType =>
      }
      var err, usage := -1, ZERO_USAGE;
      if env.mapped {
        err, usage := table.GetProcessResources(pid);
      }
      if err == 0 {
        if Wrap32(Wrap32(usage.qp) + 1) > cfg.maxQp { return false; }
      } else if env.ebpf.Count? {
        var effective := if env.ebpf.qp == 0 && qpCount > 0 then qpCount else Wrap32(env.ebpf.qp);
        if Wrap32(effective + 1) > cfg.maxQp { return false; }
      } else if Wrap32(qpCount + 1) > cfg.maxQp {
        return false;
      }
      if env.globalQp.Some? && Wrap32(env.globalQp.value) >= cfg.maxGlobalQp { return false; }
      return req.sendWr <= cfg.maxSendWr && req.recvWr <= cfg.maxRecvWr;
    }

    /** `ibv_create_qp`. */
    method CreateQp(req: Request, env: Env, ok: bool) returns (outcome: Outcome)
      requires Valid()
      modifies this`qpCount, table.pids, table.stats
      ensures outcome == if cfg.intercept && !Admits(cfg, old(View()), pid, req, env) then Denied
                         else if ok then Done else DriverError
      ensures View() == if cfg.intercept && outcome.Done? then AfterCreate(old(View()), pid, env) else old(View())
    {
      if !cfg.intercept { return if ok then Done else DriverError; }
      var allowed := CheckQpCreation(req, env);
      if !allowed { return Denied; }
      if !ok { return DriverError; }
      qpCount := Wrap32(qpCount + 1);
      if env.mapped {
        var rc := table.UpdateProcessResources(pid, Usage(qpCount, mrCount, memUsed));
      }
      return Done;
    }

    /** `ibv_destroy_qp`. */
    method DestroyQp(ok: bool) returns (outcome: Outcome)
      requires Valid()
      modifies this`qpCount
      ensures outcome == if ok then Done else DriverError
      ensures View() == if cfg.intercept && ok then AfterDestroy(old(View())) else old(View())
    {
      if !ok { return DriverError; }
      if cfg.intercept && qpCount > 0 {
        qpCount := qpCount - 1;
      }
      return Done;
    }
  }

  /**
   * On the fallback path a serial creation is one thread of the concurrent model running its
   * check, driver call and increment in a row.
   */
  lemma SerialCreateIsThreadRun(cfg: Config, s: State, pid: int, req: Request, env: Env, live: nat)
    requires WellFormed(s.table) && cfg.qpControl && !env.mapped && !env.ebpf.Count?
    requires Admits(cfg, s, pid, req, env)
    ensures var t := LocalHooks.State(s.local.qp, live, [LocalHooks.Idle]);
            LocalHooks.Exec(t, [LocalHooks.Check(0)] + [LocalHooks.DriverCreate(0, true)] + [LocalHooks.Increment(0)], cfg.maxQp)
            == Some(LocalHooks.State(AfterCreate(s, pid, env).local.qp, live + 1, [LocalHooks.Idle]))
  {
    var t := LocalHooks.State(s.local.qp, live, [LocalHooks.Idle]);
    var check := [LocalHooks.Check(0)];
    assert [] + check == check;
    LocalHooks.ExecOne(t, [], LocalHooks.Check(0), cfg.maxQp);
    LocalHooks.ExecOne(t, check, LocalHooks.DriverCreate(0, true), cfg.maxQp);
    LocalHooks.ExecOne(t, check + [LocalHooks.DriverCreate(0, true)], LocalHooks.Increment(0), cfg.maxQp);
    assert t.threads[0 := LocalHooks.Admitted][0 := LocalHooks.Created][0 := LocalHooks.Idle] == [LocalHooks.Idle];
  }

  // ---------- admission through the process table ----------

  datatype Event =
    | Create(req: Request, globalQp: Option<int>, ok: bool)
    | Destroy(ok: bool)
    | Foreign(pid: int, usage: Usage)   // an update of another process's record

  /** `live` is the number of QPs this process has in the driver. */
  datatype Run = Run(state: State, live: nat)

  ghost predicate Sound(r: Run) {
    WellFormed(r.state.table)
  }

  /** The driver destroys only live QPs. */
  ghost predicate Legal(r: Run, pid: int, e: Event) {
    match e
    case Create(_, _, _) => true
    case Destroy(ok) => ok ==> r.live > 0
    case Foreign(q, _) => q != pid
  }

  function EnvOf(globalQp: Option<int>): Env {
    Env(true, Uninitialised, globalQp)
  }

  function Step(cfg: Config, r: Run, pid: int, e: Event): (n: Run)
    requires WellFormed(r.state.table)
    ensures WellFormed(n.state.table)
  {
    match e
    case Create(req, g, ok) =>
      if ok && Admits(cfg, r.state, pid, req, EnvOf(g))
      then Run(AfterCreate(r.state, pid, EnvOf(g)), r.live + 1) else r
    case Destroy(ok) =>
      if ok && r.live > 0 then Run(AfterDestroy(r.state), r.live - 1) else r
    case Foreign(q, u) => r.(state := r.state.(table := Update(r.state.table, q, u)))
  }

  function RunAll(cfg: Config, r: Run, pid: int, es: seq<Event>): (n: Run)
    requires WellFormed(r.state.table)
    ensures WellFormed(n.state.table)
  {
    if es == [] then r else Step(cfg, RunAll(cfg, r, pid, es[..|es| - 1]), pid, es[|es| - 1])
  }

  ghost predicate LegalRun(cfg: Config, r: Run, pid: int, es: seq<Event>)
    requires Sound(r)
  {
    es == [] ||
    (LegalRun(cfg, r, pid, es[..|es| - 1]) && Legal(RunAll(cfg, r, pid, es[..|es| - 1]), pid, es[|es| - 1]))
  }

  /** The recorded count never falls below the live count, nor above the limit. */
  ghost predicate Covers(cfg: Config, r: Run, pid: int) {
    && Sound(r) && pid > 0 && pid in r.state.table.pids
    && 0 <= cfg.maxQp < U32 - 1 && cfg.qpControl
    && r.state.local.qp == r.live <= Lookup(r.state.table, pid).qp <= cfg.maxQp
  }

  lemma StepKeepsCover(cfg: Config, r: Run, pid: int, e: Event)
    requires Covers(cfg, r, pid) && Legal(r, pid, e)
    ensures Covers(cfg, Step(cfg, r, pid, e), pid)
  {
    match e
    case Create(req, g, ok) =>
      if ok && Admits(cfg, r.state, pid, req, EnvOf(g)) {
        var l := r.state.local.(qp := r.live + 1);
        UpdateLookup(r.state.table, pid, Usage(l.qp, l.mr, l.mem), pid);
        UpdateKeepsListed(r.state.table, pid, Usage(l.qp, l.mr, l.mem), pid);
      }
    case Destroy(_) =>
    case Foreign(q, u) =>
      UpdateLookup(r.state.table, q, u, pid);
      UpdateKeepsListed(r.state.table, q, u, pid);
  }

  /** Main result: on the table path the live QPs never exceed the per-process limit. */
  lemma {:induction false} TableAdmissionIsSound(cfg: Config, r: Run, pid: int, es: seq<Event>)
    requires Covers(cfg, r, pid) && LegalRun(cfg, r, pid, es)
    ensures Covers(cfg, RunAll(cfg, r, pid, es), pid)
    ensures RunAll(cfg, r, pid, es).live <= Lookup(RunAll(cfg, r, pid, es).state.table, pid).qp <= cfg.maxQp
  {
    if es != [] {
      TableAdmissionIsSound(cfg, r, pid, es[..|es| - 1]);
      StepKeepsCover(cfg, RunAll(cfg, r, pid, es[..|es| - 1]), pid, es[|es| - 1]);
    }
  }

  /**
   * No limit holds for a process that the full table has no slot for, nor under a limit of
   * 2^32-1, which the 32-bit comparison can never exceed.
   */
  lemma {:induction false} UnlimitedCreations(cfg: Config, r: Run, pid: int, n: nat) returns (es: seq<Event>)
    requires Sound(r) && pid > 0 && cfg.maxSendWr >= 0 && cfg.maxRecvWr >= 0
    requires (!Accepts(r.state.table, pid) && cfg.maxQp > 0) || cfg.maxQp == U32 - 1
    ensures LegalRun(cfg, r, pid, es)
    ensures RunAll(cfg, r, pid, es).live == r.live + n
    ensures !Accepts(r.state.table, pid) ==> RunAll(cfg, r, pid, es).state.table == r.state.table
  {
    if n == 0 {
      es := [];
    } else {
      var before := UnlimitedCreations(cfg, r, pid, n - 1);
      OneMoreCreation(cfg, RunAll(cfg, r, pid, before), pid);
      es := before + [PLAIN_CREATE];
      assert es[..|es| - 1] == before;
    }
  }

  const PLAIN_CREATE := Create(Request(OtherType, 0, 0), None, true)

  lemma OneMoreCreation(cfg: Config, r: Run, pid: int)
    requires Sound(r) && pid > 0 && cfg.maxSendWr >= 0 && cfg.maxRecvWr >= 0
    requires (!Accepts(r.state.table, pid) && cfg.maxQp > 0) || cfg.maxQp == U32 - 1
    ensures Step(cfg, r, pid, PLAIN_CREATE).live == r.live + 1
    ensures !Accepts(r.state.table, pid) ==> Step(cfg, r, pid, PLAIN_CREATE).state.table == r.state.table
  {
    assert !Accepts(r.state.table, pid) ==> Lookup(r.state.table, pid) == ZERO_USAGE;
  }

  // ---------- other processes take the free slots ----------

  /** A pid above every listed one. */
  function FreshPid(pids: seq<int>, above: int): (q: int)
    ensures q > above && forall i :: 0 <= i < |pids| ==> pids[i] < q
  {
    if pids == [] then above + 1
    else
      var q, last := FreshPid(pids[..|pids| - 1], above), pids[|pids| - 1];
      if last < q then q else last + 1
  }

  /** The first `k` slots are taken, and none of them by `pid`. */
  ghost predicate TakenUpTo(t: Table, pid: int, k: nat) {
    k <= |t.pids| && pid !in t.pids && forall i :: 0 <= i < k ==> t.pids[i] != 0
  }

  /** A new process takes the first free slot. */
  lemma NewProcessTakes(t: Table, pid: int, k: nat)
    requires WellFormed(t) && pid > 0 && TakenUpTo(t, pid, k) && k < |t.pids| && t.pids[k] == 0
    ensures TakenUpTo(Update(t, FreshPid(t.pids, pid), ZERO_USAGE), pid, k + 1)
  {
    var q := FreshPid(t.pids, pid);
    FirstIs(t.pids, 0, k);
    FirstIs(t.pids, q, |t.pids|);
  }

  lemma RunOne(cfg: Config, r: Run, pid: int, es: seq<Event>, e: Event)
    requires Sound(r)
    ensures RunAll(cfg, r, pid, es + [e]) == Step(cfg, RunAll(cfg, r, pid, es), pid, e)
    ensures LegalRun(cfg, r, pid, es + [e]) <==> LegalRun(cfg, r, pid, es) && Legal(RunAll(cfg, r, pid, es), pid, e)
  {
    assert (es + [e])[..|es|] == es;
  }

  /** Other processes can fill the table while this one does nothing. */
  lemma {:induction false} OthersTake(cfg: Config, r: Run, pid: int, k: nat) returns (es: seq<Event>)
    requires Sound(r) && pid > 0 && pid !in r.state.table.pids && k <= |r.state.table.pids|
    ensures LegalRun(cfg, r, pid, es)
    ensures RunAll(cfg, r, pid, es).live == r.live
    ensures TakenUpTo(RunAll(cfg, r, pid, es).state.table, pid, k)
    ensures |RunAll(cfg, r, pid, es).state.table.pids| == |r.state.table.pids|
  {
    if k == 0 {
      es := [];
    } else {
      var before := OthersTake(cfg, r, pid, k - 1);
      var t := RunAll(cfg, r, pid, before).state.table;
      if t.pids[k - 1] == 0 {
        var e := Foreign(FreshPid(t.pids, pid), ZERO_USAGE);
        NewProcessTakes(t, pid, k - 1);
        RunOne(cfg, r, pid, before, e);
        es := before + [e];
        assert RunAll(cfg, r, pid, es) == Step(cfg, RunAll(cfg, r, pid, before), pid, e);
      } else {
        es := before;
        assert TakenUpTo(t, pid, k);
      }
    }
  }

  lemma {:induction false} RunsCompose(cfg: Config, r: Run, pid: int, es: seq<Event>, more: seq<Event>)
    requires Sound(r) && LegalRun(cfg, r, pid, es) && LegalRun(cfg, RunAll(cfg, r, pid, es), pid, more)
    ensures LegalRun(cfg, r, pid, es + more)
    ensures RunAll(cfg, r, pid, es + more) == RunAll(cfg, RunAll(cfg, r, pid, es), pid, more)
  {
    if more == [] {
      assert es + more == es;
    } else {
      var init := more[..|more| - 1];
      RunsCompose(cfg, r, pid, es, init);
      assert es + more == (es + init) + [more[|more| - 1]];
      RunOne(cfg, r, pid, es + init, more[|more| - 1]);
    }
  }

  /** An unlisted process can exceed any limit: others fill the table first, then nothing stops it. */
  lemma UnlistedExceeds(cfg: Config, r: Run, pid: int, n: nat) returns (es: seq<Event>)
    requires Sound(r) && pid > 0 && pid !in r.state.table.pids && cfg.maxQp > 0
    requires cfg.maxSendWr >= 0 && cfg.maxRecvWr >= 0
    ensures LegalRun(cfg, r, pid, es)
    ensures RunAll(cfg, r, pid, es).live == r.live + n
  {
    var fill := OthersTake(cfg, r, pid, |r.state.table.pids|);
    var full := RunAll(cfg, r, pid, fill);
    assert First(full.state.table.pids, 0, 0) == |full.state.table.pids|;
    var rest := UnlimitedCreations(cfg, full, pid, n);
    RunsCompose(cfg, r, pid, fill, rest);
    es := fill + rest;
  }

  ghost predicate LimitHolds(cfg: Config, r: Run, pid: int)
    requires Sound(r)
  {
    forall es: seq<Event> :: LegalRun(cfg, r, pid, es) ==> RunAll(cfg, r, pid, es).live <= cfg.maxQp
  }

  /**
   * The per-process limit holds on all runs, whatever other processes write, exactly when the
   * process is already listed in the table and the limit is not the largest 32-bit number. A free
   * slot is not enough: another process may take it.
   */
  lemma LimitHoldsIffListed(cfg: Config, r: Run, pid: int)
    requires Sound(r) && pid > 0 && cfg.qpControl && 0 < cfg.maxQp < U32
    requires cfg.maxSendWr >= 0 && cfg.maxRecvWr >= 0
    requires r.live == r.state.local.qp == 0 <= Lookup(r.state.table, pid).qp <= cfg.maxQp
    ensures LimitHolds(cfg, r, pid) <==> pid in r.state.table.pids && cfg.maxQp < U32 - 1
  {
    if cfg.maxQp == U32 - 1 {
      var es := UnlimitedCreations(cfg, r, pid, cfg.maxQp + 1);
      assert RunAll(cfg, r, pid, es).live > cfg.maxQp;
    } else if pid in r.state.table.pids {
      forall es: seq<Event> | LegalRun(cfg, r, pid, es)
        ensures RunAll(cfg, r, pid, es).live <= cfg.maxQp
      {
        TableAdmissionIsSound(cfg, r, pid, es);
      }
    } else {
      var es := UnlistedExceeds(cfg, r, pid, cfg.maxQp + 1);
      assert RunAll(cfg, r, pid, es).live > cfg.maxQp;
    }
  }

  // ---------- the price: the recorded count does not come down ----------

  /** The recorded count of `pid` fails the 32-bit comparison. */
  ghost predicate Exhausted(cfg: Config, r: Run, pid: int) {
    && Sound(r) && pid > 0 && cfg.qpControl
    && Wrap32(Wrap32(Lookup(r.state.table, pid).qp) + 1) > cfg.maxQp
  }

  lemma StepKeepsExhausted(cfg: Config, r: Run, pid: int, e: Event)
    requires Exhausted(cfg, r, pid) && Legal(r, pid, e)
    ensures Exhausted(cfg, Step(cfg, r, pid, e), pid) && Step(cfg, r, pid, e).live <= r.live
  {
    if e.Foreign? {
      UpdateLookup(r.state.table, e.pid, e.usage, pid);
    }
  }

  /**
   * Once the recorded count is at the limit no creation is admitted ever again, even after every
   * QP has been destroyed: destruction does not touch the table.
   */
  lemma {:induction false} ExhaustionIsForever(cfg: Config, r: Run, pid: int, es: seq<Event>, req: Request, g: Option<int>)
    requires Exhausted(cfg, r, pid) && LegalRun(cfg, r, pid, es)
    ensures Exhausted(cfg, RunAll(cfg, r, pid, es), pid)
    ensures !Admits(cfg, RunAll(cfg, r, pid, es).state, pid, req, EnvOf(g))
    ensures RunAll(cfg, r, pid, es).live <= r.live
  {
    if es != [] {
      var init := es[..|es| - 1];
      ExhaustionIsForever(cfg, r, pid, init, req, g);
      StepKeepsExhausted(cfg, RunAll(cfg, r, pid, init), pid, es[|es| - 1]);
    }
  }

  /** Some run leads to a state that admits the request. */
  ghost predicate EverAdmits(cfg: Config, r: Run, pid: int, req: Request, g: Option<int>)
    requires Sound(r)
  {
    exists es: seq<Event> ::
      LegalRun(cfg, r, pid, es) && Admits(cfg, RunAll(cfg, r, pid, es).state, pid, req, EnvOf(g))
  }

  /** The limits that do not depend on the count of the process. */
  predicate OtherwiseAllowed(cfg: Config, req: Request, g: Option<int>) {
    && Allows(cfg.types, req.qpType)
    && (g.Some? ==> Wrap32(g.value) < cfg.maxGlobalQp)
    && req.sendWr <= cfg.maxSendWr && req.recvWr <= cfg.maxRecvWr
  }

  /**
   * Some run leads to an admission of a request that nothing else forbids exactly when the
   * recorded count is below the limit now (2^32-1, which wraps to zero, counts as below).
   */
  lemma EverAdmitsIff(cfg: Config, r: Run, pid: int, req: Request, g: Option<int>)
    requires Sound(r) && pid > 0 && cfg.qpControl && OtherwiseAllowed(cfg, req, g)
    requires 0 <= cfg.maxQp < U32 && 0 <= Lookup(r.state.table, pid).qp < U32
    ensures EverAdmits(cfg, r, pid, req, g) <==>
            Lookup(r.state.table, pid).qp < cfg.maxQp || Lookup(r.state.table, pid).qp == U32 - 1
  {
    if Exhausted(cfg, r, pid) {
      forall es: seq<Event> | LegalRun(cfg, r, pid, es)
        ensures !Admits(cfg, RunAll(cfg, r, pid, es).state, pid, req, EnvOf(g))
      {
        ExhaustionIsForever(cfg, r, pid, es, req, g);
      }
    } else {
      var none: seq<Event> := [];
      assert LegalRun(cfg, r, pid, none) && Admits(cfg, RunAll(cfg, r, pid, none).state, pid, req, EnvOf(g));
    }
  }
}
