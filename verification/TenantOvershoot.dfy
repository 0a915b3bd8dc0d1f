/**
 * Concurrent QP creation and destruction by the threads of one tenant: the quota check, the driver
 * call and the two critical sections of the accounting are separate steps. While no usage update
 * is lost this refines the threads on a single counter; once updates are lost nothing is bounded.
 */
module TenantOvershoot {
  import opened Words
  import opened TenantRegistry
  import opened TenantHooks
  import UsageProtocol
  import LocalHooks

  /** Where a thread is between the quota check, the driver call and the accounting. */
  datatype Phase = Idle | Admitted | Created | Destroyed | Accounting

  /** `live` is the number of QPs of the tenant's processes in the driver. */
  datatype State = State(usage: UsageProtocol.Shared, phases: seq<Phase>, live: nat)

  /** `ok` is the driver's verdict; a thread destroys only a QP whose creation has returned. */
  datatype Action =
    | Check(thread: nat)
    | DriverCreate(thread: nat, ok: bool)
    | DriverDestroy(thread: nat, ok: bool)
    | Read(thread: nat)
    | Write(thread: nat)
    | NewQuota(quota: Quota)

  function Record(s: State, t: nat): Tenant
    requires t < |s.usage.reg.tenants|
  {
    s.usage.reg.tenants[t]
  }

  /** Thread `i` accounts exactly while it holds a QP record of `t`. */
  ghost predicate InStep(s: State, t: nat, i: nat)
    requires i < |s.phases| && i < |s.usage.hooks|
  {
    var h := s.usage.hooks[i];
    (s.phases[i].Accounting? <==> h.Holding?) && (h.Holding? ==> h.tid == t && h.kind == Qp)
  }

  ghost predicate Sound(s: State, t: nat) {
    && Bounded(s.usage.reg) && t != 0 && IsActive(s.usage.reg, t)
    && |s.phases| == |s.usage.hooks|
    && forall i :: 0 <= i < |s.phases| ==> InStep(s, t, i)
  }

  /** The accounting steps of the usage protocol. */
  function UsageAction(s: State, a: Action, t: nat): UsageProtocol.Action
    requires a.Read? || a.Write? || a.NewQuota?
    requires a.Read? ==> a.thread < |s.phases|
  {
    match a
    case Read(i) => UsageProtocol.Read(i, t, Qp, s.phases[i].Created?)
    case Write(i) => UsageProtocol.Write(i)
    case NewQuota(q) => UsageProtocol.Api(SetTenantQuota(t, q))
  }

  // ---------- the same threads on a single counter ----------

  /** A thread as `LocalHooks` sees it: the accounting that is under way counts as not yet done. */
  function Role(p: Phase, h: UsageProtocol.Hook): LocalHooks.Thread {
    match p
    case Idle => LocalHooks.Idle
    case Admitted => LocalHooks.Admitted
    case Created => LocalHooks.Created
    case Destroyed => LocalHooks.Destroyed
    case Accounting => if h.Holding? && h.up then LocalHooks.Created else LocalHooks.Destroyed
  }

  function Roles(s: State): seq<LocalHooks.Thread>
    requires |s.phases| == |s.usage.hooks|
  {
    seq(|s.phases|, i requires 0 <= i < |s.phases| => Role(s.phases[i], s.usage.hooks[i]))
  }

  ghost function Counter(s: State, t: nat): LocalHooks.State
    requires Sound(s, t)
  {
    LocalHooks.State(Record(s, t).usage.qp, s.live, Roles(s))
  }

  ghost predicate Enabled(s: State, t: nat, a: Action)
    requires Sound(s, t)
  {
    match a
    case Check(i) => i < |s.phases| && s.phases[i].Idle?
    case DriverCreate(i, _) => i < |s.phases| && s.phases[i].Admitted?
    case DriverDestroy(i, ok) =>
      && i < |s.phases| && s.phases[i].Idle?
      && (ok ==> s.live > LocalHooks.NumberOf(Roles(s), LocalHooks.Created))
    case Read(i) => i < |s.phases| && (s.phases[i].Created? || s.phases[i].Destroyed?)
    case Write(i) => i < |s.phases| && s.phases[i].Accounting?
    case NewQuota(q) => 0 <= q.maxQp < U32
  }

  ghost function Act(s: State, t: nat, a: Action): (r: State)
    requires Sound(s, t) && Enabled(s, t, a)
  {
    match a
    case Check(i) =>
      if Wrap32(Record(s, t).usage.qp) < Record(s, t).quota.maxQp then s.(phases := s.phases[i := Admitted]) else s
    case DriverCreate(i, ok) =>
      if ok then s.(live := s.live + 1, phases := s.phases[i := Created]) else s.(phases := s.phases[i := Idle])
    case DriverDestroy(i, ok) =>
      if ok then s.(live := s.live - 1, phases := s.phases[i := Destroyed]) else s
    case Read(i) =>
      assert InStep(s, t, i);
      s.(usage := UsageProtocol.Act(s.usage, UsageAction(s, a, t)), phases := s.phases[i := Accounting])
    case Write(i) =>
      assert InStep(s, t, i);
      s.(usage := UsageProtocol.Act(s.usage, UsageAction(s, a, t)), phases := s.phases[i := Idle])
    case NewQuota(_) => s.(usage := UsageProtocol.Act(s.usage, UsageAction(s, a, t)))
  }

  lemma ActKeepsSound(s: State, t: nat, a: Action)
    requires Sound(s, t) && Enabled(s, t, a)
    ensures Sound(Act(s, t, a), t)
    ensures |Act(s, t, a).phases| == |s.phases|
  {
    var r := Act(s, t, a);
    forall i | 0 <= i < |r.phases| ensures InStep(r, t, i) {
      assert InStep(s, t, i);
    }
  }

  ghost function Exec(s: State, t: nat, acts: seq<Action>): (r: Option<State>)
    requires Sound(s, t)
    ensures r.Some? ==> Sound(r.value, t) && |r.value.phases| == |s.phases|
  {
    if acts == [] then Some(s)
    else
      var mid := Exec(s, t, acts[..|acts| - 1]);
      var a := acts[|acts| - 1];
      if mid.Some? && Enabled(mid.value, t, a) then
        ActKeepsSound(mid.value, t, a);
        Some(Act(mid.value, t, a))
      else None
  }

  /** The check of the model is the check of the hooks. */
  lemma CheckIsTenantCheck(cfg: Config, s: State, t: nat, i: nat)
    requires Sound(s, t) && cfg.tenants && Enabled(s, t, Check(i))
    ensures Act(s, t, Check(i)).phases[i].Admitted? <==> QpWithinTenant(cfg, s.usage.reg, t)
  {
  }

  // ---------- no lost update ----------

  /** A write finds the record that its thread has read. */
  ghost predicate FindsWhatItRead(s: State, t: nat, a: Action)
    requires Sound(s, t) && Enabled(s, t, a)
  {
    a.Write? ==>
      assert InStep(s, t, a.thread);
      UsageProtocol.FindsWhatItRead(s.usage, UsageAction(s, a, t), t)
  }

  ghost predicate WritesFindWhatTheyRead(s: State, t: nat, acts: seq<Action>)
    requires Sound(s, t) && Exec(s, t, acts).Some?
  {
    acts == [] ||
    (WritesFindWhatTheyRead(s, t, acts[..|acts| - 1])
     && FindsWhatItRead(Exec(s, t, acts[..|acts| - 1]).value, t, acts[|acts| - 1]))
  }

  /** The largest QP quota in force, starting from `start`. */
  function MaxQuota(acts: seq<Action>, start: int): (m: int)
    ensures m >= start
  {
    if acts == [] then start
    else
      var rest, a := MaxQuota(acts[..|acts| - 1], start), acts[|acts| - 1];
      if a.NewQuota? then Max(rest, a.quota.maxQp) else rest
  }

  /** The step of the single counter that a step stands for, if it is one. */
  function CounterAction(s: State, a: Action): Option<LocalHooks.Action>
    requires a.Write? ==> a.thread < |s.usage.hooks|
  {
    match a
    case Check(i) => Some(LocalHooks.Check(i))
    case DriverCreate(i, ok) => Some(LocalHooks.DriverCreate(i, ok))
    case DriverDestroy(i, ok) => Some(LocalHooks.DriverDestroy(i, ok))
    case Read(_) => None
    case Write(i) =>
      if s.usage.hooks[i].Holding? && s.usage.hooks[i].up then Some(LocalHooks.Increment(i))
      else Some(LocalHooks.Decrement(i))
    case NewQuota(_) => None
  }

  /** Quota and counter of `t` are words, and the counter invariant holds for the limit `hi`. */
  ghost predicate Inv(s: State, t: nat, hi: nat) {
    && Sound(s, t) && |s.phases| > 0
    && 0 <= Record(s, t).quota.maxQp <= hi
    && hi + |s.phases| < U32
    && LocalHooks.Inv(Counter(s, t), hi)
  }

  lemma RolesWrite(s: State, r: State, i: nat)
    requires |s.phases| == |s.usage.hooks| == |r.phases| == |r.usage.hooks| && i < |s.phases|
    requires r.phases == s.phases[i := r.phases[i]] && r.usage.hooks == s.usage.hooks[i := r.usage.hooks[i]]
    ensures Roles(r) == Roles(s)[i := Role(r.phases[i], r.usage.hooks[i])]
  {
  }

  /** An admission, a driver call or a write that finds what it read is a step of the single counter. */
  lemma StepIsCounterStep(s: State, t: nat, a: Action, hi: nat)
    requires Inv(s, t, hi) && Enabled(s, t, a) && FindsWhatItRead(s, t, a)
    requires CounterAction(s, a).Some? && Act(s, t, a) != s
    ensures Sound(Act(s, t, a), t)
    ensures var c := CounterAction(s, a).value;
            && LocalHooks.Enabled(Counter(s, t), c)
            && Counter(Act(s, t, a), t) == LocalHooks.Act(Counter(s, t), c, hi)
  {
    var r := Act(s, t, a);
    ActKeepsSound(s, t, a);
    RolesWrite(s, r, a.thread);
    assert InStep(s, t, a.thread);
    if a.Check? {
      CheckPasses(s, t, hi);
    } else if a.Write? && !s.usage.hooks[a.thread].up {
      LocalHooks.NumberPositive(Roles(s), a.thread);
    }
  }

  lemma CheckPasses(s: State, t: nat, hi: nat)
    requires Inv(s, t, hi) && Wrap32(Record(s, t).usage.qp) < Record(s, t).quota.maxQp
    ensures LocalHooks.Passes(Record(s, t).usage.qp, hi)
  {
  }

  /** A read or a change of quota leaves the counter alone. */
  lemma OtherStepKeepsCounter(s: State, t: nat, a: Action)
    requires Sound(s, t) && Enabled(s, t, a) && (a.Read? || a.NewQuota?)
    ensures Sound(Act(s, t, a), t) && Counter(Act(s, t, a), t) == Counter(s, t)
  {
    var r := Act(s, t, a);
    ActKeepsSound(s, t, a);
    if a.Read? {
      RolesWrite(s, r, a.thread);
    }
    assert Roles(r) == Roles(s);
  }

  lemma InvIsMonotone(c: LocalHooks.State, lo: nat, hi: nat)
    requires LocalHooks.Inv(c, lo) && lo <= hi
    ensures LocalHooks.Inv(c, hi)
  {
  }

  lemma StepKeepsInv(s: State, t: nat, a: Action, hi: nat, top: nat)
    requires Inv(s, t, hi) && Enabled(s, t, a) && FindsWhatItRead(s, t, a)
    requires top == (if a.NewQuota? then Max(hi, a.quota.maxQp) else hi) && top + |s.phases| < U32
    ensures Inv(Act(s, t, a), t, top)
  {
    ActKeepsSound(s, t, a);
    if a.Read? || a.NewQuota? {
      OtherStepKeepsCounter(s, t, a);
      InvIsMonotone(Counter(s, t), hi, top);
    } else if Act(s, t, a) != s {
      StepIsCounterStep(s, t, a, hi);
      LocalHooks.ActKeepsInv(Counter(s, t), CounterAction(s, a).value, hi);
    }
  }

  /** Before any thread started; `t` may already have live QPs, all of them counted. */
  ghost predicate Initial(s: State, t: nat) {
    && Sound(s, t) && |s.phases| > 0
    && (forall i :: 0 <= i < |s.phases| ==> s.phases[i].Idle?)
    && Record(s, t).usage.qp == s.live
  }

  /** `threads` threads at rest over a registry. */
  function Start(reg: Registry, t: nat, threads: nat): State
    requires IsActive(reg, t) && reg.tenants[t].usage.qp >= 0
  {
    State(UsageProtocol.Shared(reg, seq(threads, _ => UsageProtocol.Ready)), seq(threads, _ => Idle),
          reg.tenants[t].usage.qp)
  }

  /** Any registry in which `t` is ACTIVE and counts its QPs is a starting point. */
  lemma StartIsInitial(reg: Registry, t: nat, threads: nat)
    requires Bounded(reg) && t != 0 && IsActive(reg, t) && reg.tenants[t].usage.qp >= 0 && threads > 0
    ensures Initial(Start(reg, t, threads), t)
  {
    var s := Start(reg, t, threads);
    assert forall i :: 0 <= i < |s.phases| ==> InStep(s, t, i);
  }

  lemma {:induction false} AllIdle(ts: seq<LocalHooks.Thread>)
    requires forall i :: 0 <= i < |ts| ==> ts[i].Idle?
    ensures LocalHooks.NumberOf(ts, LocalHooks.Admitted) == 0
    ensures LocalHooks.NumberOf(ts, LocalHooks.Created) == 0
    ensures LocalHooks.NumberOf(ts, LocalHooks.Destroyed) == 0
  {
    if ts != [] {
      AllIdle(ts[..|ts| - 1]);
    }
  }

  lemma {:induction false} RunKeepsInv(s: State, t: nat, acts: seq<Action>, hi: nat)
    requires Initial(s, t) && s.live <= hi && 0 <= Record(s, t).quota.maxQp <= hi
    requires Exec(s, t, acts).Some? && WritesFindWhatTheyRead(s, t, acts)
    requires MaxQuota(acts, hi) + |s.phases| < U32
    ensures Inv(Exec(s, t, acts).value, t, MaxQuota(acts, hi))
  {
    if acts == [] {
      AllIdle(Roles(s));
    } else {
      var init, a := acts[..|acts| - 1], acts[|acts| - 1];
      RunKeepsInv(s, t, init, hi);
      StepKeepsInv(Exec(s, t, init).value, t, a, MaxQuota(init, hi), MaxQuota(acts, hi));
    }
  }

  /**
   * Main result: on every interleaving in which no usage update is lost, the live QPs exceed the
   * largest quota so far in force by at most the number of threads minus one.
   */
  lemma TenantOvershootIsBounded(s: State, t: nat, acts: seq<Action>, hi: nat)
    requires Initial(s, t) && s.live <= hi && 0 <= Record(s, t).quota.maxQp <= hi
    requires Exec(s, t, acts).Some? && WritesFindWhatTheyRead(s, t, acts)
    requires MaxQuota(acts, hi) + |s.phases| < U32
    ensures Exec(s, t, acts).value.live <= MaxQuota(acts, hi) + |s.phases| - 1
  {
    RunKeepsInv(s, t, acts, hi);
  }

  // ---------- lost updates ----------

  lemma {:induction false} ExecAppend(s: State, t: nat, acts: seq<Action>, more: seq<Action>)
    requires Sound(s, t) && Exec(s, t, acts).Some?
    ensures Exec(s, t, acts + more) == Exec(Exec(s, t, acts).value, t, more)
  {
    if more == [] {
      assert acts + more == acts;
    } else {
      var init, a := more[..|more| - 1], more[|more| - 1];
      assert (acts + more)[..|acts + more| - 1] == acts + init && (acts + more)[|acts + more| - 1] == a;
      ExecAppend(s, t, acts, init);
    }
  }

  lemma ExecOne(s: State, t: nat, a: Action)
    requires Sound(s, t) && Enabled(s, t, a)
    ensures Exec(s, t, [a]) == Some(Act(s, t, a))
  {
    assert [a][..0] == [];
  }

  lemma ExecTwo(s: State, t: nat, a: Action, b: Action)
    requires Sound(s, t) && Enabled(s, t, a) && Sound(Act(s, t, a), t) && Enabled(Act(s, t, a), t, b)
    ensures Exec(s, t, [a] + [b]) == Some(Act(Act(s, t, a), t, b))
  {
    ExecOne(s, t, a);
    ExecAppend(s, t, [a], [b]);
    ExecOne(Act(s, t, a), t, b);
  }

  /** Threads 0 and 1 are in these phases. */
  ghost predicate Pair(s: State, t: nat, p: Phase, q: Phase) {
    Sound(s, t) && |s.phases| >= 2 && s.phases[0] == p && s.phases[1] == q
  }

  lemma BothCheck(s: State, t: nat)
    requires Pair(s, t, Idle, Idle) && 0 <= Record(s, t).usage.qp < Record(s, t).quota.maxQp < U32
    ensures Exec(s, t, [Check(0)] + [Check(1)]) == Some(s.(phases := s.phases[0 := Admitted][1 := Admitted]))
  {
    ActKeepsSound(s, t, Check(0));
    ExecTwo(s, t, Check(0), Check(1));
  }

  lemma BothCreate(s: State, t: nat)
    requires Pair(s, t, Admitted, Admitted)
    ensures Exec(s, t, [DriverCreate(0, true)] + [DriverCreate(1, true)]) ==
            Some(s.(live := s.live + 2, phases := s.phases[0 := Created][1 := Created]))
  {
    ActKeepsSound(s, t, DriverCreate(0, true));
    ExecTwo(s, t, DriverCreate(0, true), DriverCreate(1, true));
  }

  /** The state after threads 0 and 1 have read the record of `t` to count a creation. */
  ghost function AfterReads(s: State, t: nat): State
    requires Pair(s, t, Created, Created)
  {
    var h := UsageProtocol.Holding(t, Record(s, t).usage, Qp, true);
    State(UsageProtocol.Shared(s.usage.reg, s.usage.hooks[0 := h][1 := h]),
          s.phases[0 := Accounting][1 := Accounting], s.live)
  }

  lemma BothRead(s: State, t: nat)
    requires Pair(s, t, Created, Created)
    ensures Exec(s, t, [Read(0)] + [Read(1)]) == Some(AfterReads(s, t))
  {
    assert InStep(s, t, 0) && InStep(s, t, 1);
    ActKeepsSound(s, t, Read(0));
    ExecTwo(s, t, Read(0), Read(1));
  }

  /** Two writes of the same snapshot count once. */
  lemma BothWrite(s: State, t: nat) returns (r: State)
    requires Pair(s, t, Accounting, Accounting)
    requires forall i :: 0 <= i < 2 ==> s.usage.hooks[i] == UsageProtocol.Holding(t, Record(s, t).usage, Qp, true)
    ensures Exec(s, t, [Write(0)] + [Write(1)]) == Some(r) && Sound(r, t)
    ensures r.phases == s.phases[0 := Idle][1 := Idle] && r.live == s.live
    ensures Record(r, t) == Record(s, t).(usage := Bump(Record(s, t).usage, Qp, 1))
  {
    assert s.usage.hooks[0].Holding? && s.usage.hooks[1].Holding?;
    ActKeepsSound(s, t, Write(0));
    var mid := Act(s, t, Write(0));
    assert mid.usage.hooks[1] == s.usage.hooks[1];
    ActKeepsSound(mid, t, Write(1));
    ExecTwo(s, t, Write(0), Write(1));
    r := Act(mid, t, Write(1));
  }

  ghost predicate NoNewQuota(acts: seq<Action>) {
    forall i :: 0 <= i < |acts| ==> !acts[i].NewQuota?
  }

  lemma {:induction false} NoNewQuotaKeepsMax(acts: seq<Action>, start: int)
    requires NoNewQuota(acts)
    ensures MaxQuota(acts, start) == start
  {
    if acts != [] {
      NoNewQuotaKeepsMax(acts[..|acts| - 1], start);
    }
  }

  /** All threads are idle, and the recorded count `c` is below the quota. */
  ghost predicate Resting(s: State, t: nat, c: int) {
    && Sound(s, t) && |s.phases| >= 2
    && (forall i :: 0 <= i < |s.phases| ==> s.phases[i].Idle?)
    && Record(s, t).usage.qp == c && 0 <= c < Record(s, t).quota.maxQp < U32
  }

  lemma NoNewQuotaAppend(a: seq<Action>, b: seq<Action>)
    requires NoNewQuota(a) && NoNewQuota(b)
    ensures NoNewQuota(a + b)
  {
  }

  /** Both threads are admitted before either of them creates. */
  lemma TwoAdmitted(s: State, t: nat, c: int) returns (acts: seq<Action>, r: State)
    requires Resting(s, t, c)
    ensures NoNewQuota(acts) && Exec(s, t, acts) == Some(r) && Pair(r, t, Created, Created)
    ensures r == s.(live := s.live + 2, phases := s.phases[0 := Created][1 := Created])
  {
    BothCheck(s, t);
    var s1 := Exec(s, t, [Check(0)] + [Check(1)]).value;
    BothCreate(s1, t);
    r := Exec(s1, t, [DriverCreate(0, true)] + [DriverCreate(1, true)]).value;
    ExecAppend(s, t, [Check(0)] + [Check(1)], [DriverCreate(0, true)] + [DriverCreate(1, true)]);
    acts := [Check(0)] + [Check(1)] + ([DriverCreate(0, true)] + [DriverCreate(1, true)]);
    assert s1.phases[0 := Created][1 := Created] == s.phases[0 := Created][1 := Created];
  }

  /** Both threads read before either of them writes. */
  lemma TwoAccounted(s: State, t: nat) returns (acts: seq<Action>, r: State)
    requires Pair(s, t, Created, Created)
    ensures NoNewQuota(acts) && Exec(s, t, acts) == Some(r) && Sound(r, t)
    ensures r.phases == s.phases[0 := Idle][1 := Idle] && r.live == s.live
    ensures Record(r, t) == Record(s, t).(usage := Bump(Record(s, t).usage, Qp, 1))
  {
    BothRead(s, t);
    var s1 := AfterReads(s, t);
    r := BothWrite(s1, t);
    ExecAppend(s, t, [Read(0)] + [Read(1)], [Write(0)] + [Write(1)]);
    acts := [Read(0)] + [Read(1)] + ([Write(0)] + [Write(1)]);
    assert s1.phases[0 := Idle][1 := Idle] == s.phases[0 := Idle][1 := Idle];
  }

  /** Two overlapping creations are admitted and counted once. */
  lemma TwoCreationsCountOnce(s: State, t: nat, c: int) returns (acts: seq<Action>, r: State)
    requires Resting(s, t, c)
    ensures NoNewQuota(acts)
    ensures Exec(s, t, acts) == Some(r) && Sound(r, t)
    ensures r.phases == s.phases && r.live == s.live + 2
    ensures Record(r, t).quota == Record(s, t).quota && Record(r, t).usage.qp == c + 1
  {
    var first, mid := TwoAdmitted(s, t, c);
    var second, last := TwoAccounted(mid, t);
    ExecAppend(s, t, first, second);
    NoNewQuotaAppend(first, second);
    acts, r := first + second, last;
    assert r.phases == s.phases;
  }

  /** A destruction that no other thread overlaps counts exactly. */
  lemma OneDestruction(s: State, t: nat) returns (acts: seq<Action>, r: State)
    requires Sound(s, t) && |s.phases| >= 2 && s.live > 0
    requires forall i :: 0 <= i < |s.phases| ==> s.phases[i].Idle?
    ensures NoNewQuota(acts)
    ensures Exec(s, t, acts) == Some(r) && Sound(r, t)
    ensures r.phases == s.phases && r.live == s.live - 1
    ensures Record(r, t).quota == Record(s, t).quota && Record(r, t).usage.qp == Record(s, t).usage.qp - 1
  {
    AllIdle(Roles(s));
    var d := DriverDestroy(0, true);
    ActKeepsSound(s, t, d);
    ExecOne(s, t, d);
    var s1 := Act(s, t, d);
    var account;
    account, r := AccountDestruction(s1, t);
    ExecAppend(s, t, [d], account);
    NoNewQuotaAppend([d], account);
    acts := [d] + account;
    assert r.phases == s.phases;
  }

  lemma AccountDestruction(s: State, t: nat) returns (acts: seq<Action>, r: State)
    requires Sound(s, t) && |s.phases| > 0 && s.phases[0].Destroyed?
    ensures NoNewQuota(acts)
    ensures Exec(s, t, acts) == Some(r) && Sound(r, t)
    ensures r.phases == s.phases[0 := Idle] && r.live == s.live
    ensures Record(r, t) == Record(s, t).(usage := Bump(Record(s, t).usage, Qp, -1))
  {
    assert InStep(s, t, 0);
    ActKeepsSound(s, t, Read(0));
    var mid := Act(s, t, Read(0));
    assert mid.usage.hooks[0] == UsageProtocol.Holding(t, Record(s, t).usage, Qp, false);
    ActKeepsSound(mid, t, Write(0));
    ExecTwo(s, t, Read(0), Write(0));
    acts, r := [Read(0)] + [Write(0)], Act(mid, t, Write(0));
    assert r.phases == s.phases[0 := Idle];
  }

  /**
   * With two threads and lost updates no bound holds: two creations that count once and a
   * destruction that counts, repeated, let the live QPs grow while the recorded count stays.
   */
  lemma {:induction false} LostUpdatesExceed(s: State, t: nat, c: int, n: nat) returns (acts: seq<Action>, r: State)
    requires Resting(s, t, c)
    ensures NoNewQuota(acts)
    ensures Exec(s, t, acts) == Some(r) && Resting(r, t, c)
    ensures r.live == s.live + n && Record(r, t).quota == Record(s, t).quota
  {
    if n == 0 {
      acts, r := [], s;
    } else {
      var before, mid := LostUpdatesExceed(s, t, c, n - 1);
      var up, more := TwoCreationsCountOnce(mid, t, c);
      var down, less := OneDestruction(more, t);
      ExecAppend(s, t, before, up);
      ExecAppend(s, t, before + up, down);
      NoNewQuotaAppend(before, up);
      NoNewQuotaAppend(before + up, down);
      acts, r := before + up + down, less;
    }
  }

  // ---------- exactly when the bound holds ----------

  /** What thread 0 holds, if it holds a record, is the current one. */
  ghost predicate HoldsCurrent(s: State, t: nat)
    requires Sound(s, t) && |s.phases| == 1
  {
    s.usage.hooks[0].Holding? ==> s.usage.hooks[0].base == Record(s, t).usage
  }

  lemma OneThreadStep(s: State, t: nat, a: Action)
    requires Sound(s, t) && |s.phases| == 1 && Enabled(s, t, a) && HoldsCurrent(s, t)
    ensures FindsWhatItRead(s, t, a)
    ensures Sound(Act(s, t, a), t) && HoldsCurrent(Act(s, t, a), t)
  {
    assert InStep(s, t, 0);
    ActKeepsSound(s, t, a);
  }

  lemma {:induction false} OneThreadFindsWhatItRead(s: State, t: nat, acts: seq<Action>)
    requires Initial(s, t) && |s.phases| == 1 && Exec(s, t, acts).Some?
    ensures WritesFindWhatTheyRead(s, t, acts)
    ensures HoldsCurrent(Exec(s, t, acts).value, t)
  {
    if acts == [] {
      assert InStep(s, t, 0);
    } else {
      OneThreadFindsWhatItRead(s, t, acts[..|acts| - 1]);
      OneThreadStep(Exec(s, t, acts[..|acts| - 1]).value, t, acts[|acts| - 1]);
    }
  }

  /** On all interleavings whose quotas leave room in the word, the overshoot bound holds. */
  ghost predicate BoundHolds(s: State, t: nat, hi: nat)
    requires Sound(s, t)
  {
    forall acts: seq<Action> :: Exec(s, t, acts).Some? && MaxQuota(acts, hi) + |s.phases| < U32 ==>
      Exec(s, t, acts).value.live <= MaxQuota(acts, hi) + |s.phases| - 1
  }

  /** A tenant with room for another QP is bounded on all interleavings exactly if it has one thread. */
  lemma BoundHoldsIff(s: State, t: nat, hi: nat)
    requires Initial(s, t) && s.live < Record(s, t).quota.maxQp <= hi && hi + |s.phases| < U32
    ensures BoundHolds(s, t, hi) <==> |s.phases| == 1
  {
    if |s.phases| == 1 {
      forall acts: seq<Action> | Exec(s, t, acts).Some? && MaxQuota(acts, hi) + |s.phases| < U32
        ensures Exec(s, t, acts).value.live <= MaxQuota(acts, hi) + |s.phases| - 1
      {
        OneThreadFindsWhatItRead(s, t, acts);
        TenantOvershootIsBounded(s, t, acts, hi);
      }
    } else {
      var acts, r := LostUpdatesExceed(s, t, s.live, hi + |s.phases|);
      NoNewQuotaKeepsMax(acts, hi);
      assert Exec(s, t, acts).value.live > MaxQuota(acts, hi) + |s.phases| - 1;
    }
  }
}
