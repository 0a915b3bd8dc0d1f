/**
 * `update_tenant_resource_count` reads the usage record in one critical section and writes it
 * back in another, so concurrent hooks can lose updates. The record stays self-consistent all
 * the same: live counts equal creations minus destructions.
 */
module UsageProtocol {
  import opened Words
  import opened ProcessTable
  import opened TenantRegistry
  import opened TenantHooks

  /**
   * A hook thread between the two critical sections holds the record it has read and the change
   * it is about to make.
   */
  datatype Hook = Ready | Holding(tid: nat, base: TenantUsage, kind: Kind, up: bool)

  function Bumped(u: TenantUsage, kind: Kind, up: bool): TenantUsage {
    Bump(u, kind, if up then 1 else -1)
  }

  /** The record that a holding thread writes. */
  function Snapshot(h: Hook): TenantUsage
    requires h.Holding?
  {
    Bumped(h.base, h.kind, h.up)
  }

  datatype Shared = Shared(reg: Registry, hooks: seq<Hook>)

  datatype Action =
    | Read(thread: nat, tid: nat, kind: Kind, up: bool)
    | Write(thread: nat)
    | Api(call: Call)   // any other API call of any thread

  ghost predicate Enabled(s: Shared, a: Action) {
    match a
    case Read(i, tid, _, _) => i < |s.hooks| && s.hooks[i].Ready? && tid != 0
    case Write(i) => i < |s.hooks| && s.hooks[i].Holding?
    case Api(c) => !c.SetUsage?
  }

  ghost function Act(s: Shared, a: Action): (r: Shared)
    requires Bounded(s.reg) && Enabled(s, a)
    ensures Bounded(r.reg) && |r.hooks| == |s.hooks| && |r.reg.tenants| == |s.reg.tenants|
  {
    match a
    case Read(i, tid, kind, up) =>
      var u := GetUsage(s.reg, tid);
      if u.None? then s
      else s.(hooks := s.hooks[i := Holding(tid, u.value, kind, up)])
    case Write(i) =>
      var h := s.hooks[i];
      Shared(UpdateUsage(s.reg, h.tid, Snapshot(h)), s.hooks[i := Ready])
    case Api(c) => s.(reg := Apply(s.reg, c))
  }

  ghost function Exec(s: Shared, acts: seq<Action>): (r: Option<Shared>)
    requires Bounded(s.reg)
    ensures r.Some? ==>
              Bounded(r.value.reg) && |r.value.hooks| == |s.hooks| && |r.value.reg.tenants| == |s.reg.tenants|
  {
    if acts == [] then Some(s)
    else
      var mid := Exec(s, acts[..|acts| - 1]);
      var a := acts[|acts| - 1];
      if mid.Some? && Enabled(mid.value, a) then Some(Act(mid.value, a)) else None
  }

  predicate Consistent(u: TenantUsage) {
    u.qp == u.qpCreates - u.qpDestroys && u.mr == u.mrRegs - u.mrDeregs
  }

  ghost predicate AllConsistent(s: Shared) {
    && (forall t :: 0 <= t < |s.reg.tenants| ==> Consistent(s.reg.tenants[t].usage))
    && (forall i :: 0 <= i < |s.hooks| && s.hooks[i].Holding? ==> Consistent(s.hooks[i].base))
  }

  lemma ActKeepsConsistency(s: Shared, a: Action)
    requires Bounded(s.reg) && AllConsistent(s) && Enabled(s, a)
    ensures AllConsistent(Act(s, a))
  {
  }

  /** Every record and every snapshot in flight is consistent after any interleaving. */
  lemma {:induction false} RecordsStayConsistent(s: Shared, acts: seq<Action>)
    requires Bounded(s.reg) && AllConsistent(s) && Exec(s, acts).Some?
    ensures AllConsistent(Exec(s, acts).value)
  {
    if acts != [] {
      RecordsStayConsistent(s, acts[..|acts| - 1]);
      ActKeepsConsistency(Exec(s, acts[..|acts| - 1]).value, acts[|acts| - 1]);
    }
  }

  /** Run alone, the two critical sections are the accounting step of the serial hooks. */
  lemma ReadThenWriteIsAccount(cfg: Config, s: Shared, i: nat, tid: nat, kind: Kind, up: bool)
    requires Bounded(s.reg) && cfg.tenants && i < |s.hooks| && s.hooks[i].Ready? && tid != 0
    ensures var mid := Act(s, Read(i, tid, kind, up));
            (if Enabled(mid, Write(i)) then Act(mid, Write(i)).reg else mid.reg) ==
            Account(cfg, s.reg, tid, kind, if up then 1 else -1)
  {
  }

  lemma ExecOne(s: Shared, acts: seq<Action>, a: Action)
    requires Bounded(s.reg) && Exec(s, acts).Some? && Enabled(Exec(s, acts).value, a)
    ensures Exec(s, acts + [a]) == Some(Act(Exec(s, acts).value, a))
  {
    assert (acts + [a])[..|acts|] == acts;
  }

  // ---------- when every update is counted ----------

  /** The write of `a` replaces the record of tenant `t`; a write for an inactive tenant is refused. */
  ghost predicate WritesTo(s: Shared, a: Action, t: nat)
    requires Enabled(s, a)
  {
    a.Write? && s.hooks[a.thread].tid == t && IsActive(s.reg, t)
  }

  ghost predicate Recreates(s: Shared, a: Action, t: nat) {
    a.Api? && a.call.CreateTenant? && a.call.id == t && CanCreate(s.reg, t)
  }

  /** What the record of `t` should be after `a`: a write counts once, a new tenant starts at zero. */
  ghost function Counted(s: Shared, a: Action, t: nat, u: TenantUsage): TenantUsage
    requires Enabled(s, a)
  {
    if WritesTo(s, a, t) then Bumped(u, s.hooks[a.thread].kind, s.hooks[a.thread].up)
    else if Recreates(s, a, t) then ZERO_TENANT_USAGE
    else u
  }

  ghost predicate Ran(s: Shared, acts: seq<Action>) {
    Bounded(s.reg) && Exec(s, acts).Some?
  }

  lemma RanInit(s: Shared, acts: seq<Action>)
    requires Ran(s, acts) && acts != []
    ensures var init := acts[..|acts| - 1];
            && Ran(s, init) && Enabled(Exec(s, init).value, acts[|acts| - 1])
            && Exec(s, acts).value == Act(Exec(s, init).value, acts[|acts| - 1])
  {
  }

  /** The starting record of `t` changed by every completed write to it, each counted once. */
  ghost function Tally(s: Shared, acts: seq<Action>, t: nat): TenantUsage
    requires Ran(s, acts) && t < |s.reg.tenants|
  {
    if acts == [] then s.reg.tenants[t].usage
    else
      RanInit(s, acts);
      var init := acts[..|acts| - 1];
      Counted(Exec(s, init).value, acts[|acts| - 1], t, Tally(s, init, t))
  }

  ghost function UsageAfter(s: Shared, acts: seq<Action>, t: nat): TenantUsage
    requires Ran(s, acts) && t < |s.reg.tenants|
  {
    Exec(s, acts).value.reg.tenants[t].usage
  }

  /** The record is exact at every moment of the run. */
  ghost predicate AlwaysExact(s: Shared, acts: seq<Action>, t: nat)
    requires Ran(s, acts) && t < |s.reg.tenants|
  {
    UsageAfter(s, acts, t) == Tally(s, acts, t) &&
    (acts == [] || (RanInit(s, acts); AlwaysExact(s, acts[..|acts| - 1], t)))
  }

  /** A write to `t` finds the record it has read. */
  ghost predicate FindsWhatItRead(s: Shared, a: Action, t: nat)
    requires Enabled(s, a) && t < |s.reg.tenants|
  {
    WritesTo(s, a, t) ==> s.reg.tenants[t].usage == s.hooks[a.thread].base
  }

  ghost predicate WritesFindWhatTheyRead(s: Shared, acts: seq<Action>, t: nat)
    requires Ran(s, acts) && t < |s.reg.tenants|
  {
    acts == [] ||
    (RanInit(s, acts);
     && WritesFindWhatTheyRead(s, acts[..|acts| - 1], t)
     && FindsWhatItRead(Exec(s, acts[..|acts| - 1]).value, acts[|acts| - 1], t))
  }

  lemma BumpedInjective(u: TenantUsage, v: TenantUsage, kind: Kind, up: bool)
    ensures Bumped(u, kind, up) == Bumped(v, kind, up) <==> u == v
  {
  }

  /** A step counts exactly when it does not write back a stale record. */
  lemma StepCountsIff(s: Shared, a: Action, t: nat)
    requires Bounded(s.reg) && Enabled(s, a) && t < |s.reg.tenants|
    ensures Act(s, a).reg.tenants[t].usage == Counted(s, a, t, s.reg.tenants[t].usage)
            <==> FindsWhatItRead(s, a, t)
  {
    if WritesTo(s, a, t) {
      var h := s.hooks[a.thread];
      BumpedInjective(h.base, s.reg.tenants[t].usage, h.kind, h.up);
    }
  }

  /**
   * Main result: on every interleaving the record of `t` is exact at all times if and only if
   * every write to it finds the record that its thread has read.
   */
  lemma {:induction false} AlwaysExactIff(s: Shared, acts: seq<Action>, t: nat)
    requires Ran(s, acts) && t < |s.reg.tenants|
    ensures AlwaysExact(s, acts, t) <==> WritesFindWhatTheyRead(s, acts, t)
  {
    if acts != [] {
      RanInit(s, acts);
      AlwaysExactIff(s, acts[..|acts| - 1], t);
      StepCountsIff(Exec(s, acts[..|acts| - 1]).value, acts[|acts| - 1], t);
    }
  }

  // ---------- schedules that lose nothing ----------

  /** The record of the tenant that thread `i` holds has been replaced since the thread read it. */
  ghost predicate Disturbed(s: Shared, acts: seq<Action>, i: nat)
    requires Ran(s, acts) && i < |s.hooks|
  {
    acts == [] ||
    (RanInit(s, acts);
     var init, a := acts[..|acts| - 1], acts[|acts| - 1];
     var mid := Exec(s, init).value;
     if a.Read? && a.thread == i then false
     else Disturbed(s, init, i) ||
          (mid.hooks[i].Holding? && (WritesTo(mid, a, mid.hooks[i].tid) || Recreates(mid, a, mid.hooks[i].tid))))
  }

  /** No write to and no re-creation of `t` comes between a read of `t` and the write that follows it. */
  ghost predicate Undisturbed(s: Shared, acts: seq<Action>, t: nat)
    requires Ran(s, acts)
  {
    acts == [] ||
    (RanInit(s, acts);
     var init, a := acts[..|acts| - 1], acts[|acts| - 1];
     && Undisturbed(s, init, t)
     && (WritesTo(Exec(s, init).value, a, t) ==> !Disturbed(s, init, a.thread)))
  }

  ghost predicate BaseIsCurrent(s: Shared, i: nat)
    requires i < |s.hooks|
  {
    s.hooks[i].Holding? ==>
      s.hooks[i].tid < |s.reg.tenants| && s.reg.tenants[s.hooks[i].tid].usage == s.hooks[i].base
  }

  lemma StepKeepsBase(s: Shared, a: Action, i: nat)
    requires Bounded(s.reg) && Enabled(s, a) && i < |s.hooks|
    requires (a.Read? && a.thread == i) || BaseIsCurrent(s, i)
    requires s.hooks[i].Holding? ==> !WritesTo(s, a, s.hooks[i].tid) && !Recreates(s, a, s.hooks[i].tid)
    ensures BaseIsCurrent(Act(s, a), i)
  {
  }

  lemma {:induction false} UndisturbedBaseIsCurrent(s: Shared, acts: seq<Action>, i: nat)
    requires Ran(s, acts) && i < |s.hooks| && !Disturbed(s, acts, i)
    ensures BaseIsCurrent(Exec(s, acts).value, i)
  {
    RanInit(s, acts);
    var init, a := acts[..|acts| - 1], acts[|acts| - 1];
    if !(a.Read? && a.thread == i) {
      UndisturbedBaseIsCurrent(s, init, i);
    }
    StepKeepsBase(Exec(s, init).value, a, i);
  }

  /**
   * Main result: every interleaving with no write to, or re-creation of, tenant `t` between a read
   * of `t` and its write ends with the starting record changed by every completed write. Hooks of
   * different tenants may overlap freely.
   */
  lemma {:induction false} UndisturbedRunsCountAll(s: Shared, acts: seq<Action>, t: nat)
    requires Ran(s, acts) && t < |s.reg.tenants| && Undisturbed(s, acts, t)
    ensures WritesFindWhatTheyRead(s, acts, t)
    ensures UsageAfter(s, acts, t) == Tally(s, acts, t)
  {
    if acts != [] {
      RanInit(s, acts);
      var init, a := acts[..|acts| - 1], acts[|acts| - 1];
      UndisturbedRunsCountAll(s, init, t);
      if WritesTo(Exec(s, init).value, a, t) {
        UndisturbedBaseIsCurrent(s, init, a.thread);
      }
    }
    AlwaysExactIff(s, acts, t);
  }

  /**
   * Updates are lost otherwise: two creations of one tenant whose reads come before both writes
   * count once, from every state.
   */
  lemma ConcurrentCreationsCanCountOnce(s: Shared, t: nat) returns (acts: seq<Action>)
    requires Bounded(s.reg) && |s.hooks| == 2 && s.hooks[0].Ready? && s.hooks[1].Ready?
    requires t != 0 && IsActive(s.reg, t)
    ensures Exec(s, acts).Some?
    ensures acts == [Read(0, t, Qp, true), Read(1, t, Qp, true), Write(0), Write(1)]
    ensures Exec(s, acts).value.reg.tenants[t].usage.qp == s.reg.tenants[t].usage.qp + 1
  {
    var a1 := [] + [Read(0, t, Qp, true)];
    var a2 := a1 + [Read(1, t, Qp, true)];
    var a3 := a2 + [Write(0)];
    acts := a3 + [Write(1)];
    ExecOne(s, [], Read(0, t, Qp, true));
    ExecOne(s, a1, Read(1, t, Qp, true));
    ExecOne(s, a2, Write(0));
    ExecOne(s, a3, Write(1));
  }
}
