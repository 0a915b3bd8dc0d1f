/**
 * The tenant API at the granularity at which other threads could see it without the lock: the
 * scans of `tenant_delete`, `tenant_bind_process`, `tenant_unbind_process` and
 * `tenant_get_process_tenant` touch one mapping slot per small step.
 */
module SlotwiseRegistry {
  import opened Words
  import opened TenantRegistry
  import opened LockedRuns
  import Refinement = RegistryRefinement

  /** Loop variables of a call; `found` and `empty` are -1 until set, `answer` ends the call. */
  datatype Loop = Loop(i: nat, found: int, empty: int, answer: Option<Answer>)

  const LOOP_START := Loop(0, -1, -1, None)

  function Return(l: Loop, answer: Answer): Loop {
    l.(answer := Some(answer))
  }

  function DeleteStep(id: nat, r: Registry, l: Loop): (Registry, Loop) {
    if !CanDelete(r, id) then (r, Return(l, Code(-1)))
    else if l.i < |r.maps| then
      (if r.maps[l.i].tid == id then r.(maps := r.maps[l.i := FREE], total := Wrap32(r.total - 1)) else r,
       l.(i := l.i + 1))
    else
      (r.(tenants := r.tenants[id := r.tenants[id].(status := Inactive, processCount := 0)],
          active := Wrap32(r.active - 1)),
       Return(l, Code(0)))
  }

  /** The writes of a binding once the scan has chosen slot `idx`. */
  function WriteBinding(r: Registry, pid: int, tid: nat, idx: nat, isNew: bool): Registry
    requires IsActive(r, tid) && idx < |r.maps|
  {
    var mapped := r.(maps := r.maps[idx := Mapping(pid, tid)]);
    if !isNew then mapped
    else
      var t := r.tenants[tid];
      SetTenant(mapped, tid, t.(processCount := Wrap32(t.processCount + 1),
                                processes := InsertFirstFree(t.processes, pid)))
        .(total := Wrap32(r.total + 1))
  }

  function BindStep(pid: int, tid: nat, r: Registry, l: Loop): (Registry, Loop) {
    if !IsActive(r, tid) then (r, Return(l, Code(-1)))
    else if l.found < 0 && l.i < |r.maps| then
      (r,
       if r.maps[l.i].pid == pid then l.(found := l.i)
       else if l.empty < 0 && r.maps[l.i].pid == 0 then l.(empty := l.i, i := l.i + 1)
       else l.(i := l.i + 1))
    else
      var idx := if l.found >= 0 then l.found else l.empty;
      if 0 <= idx < |r.maps| then (WriteBinding(r, pid, tid, idx, l.found < 0), Return(l, Code(0)))
      else (r, Return(l, Code(-1)))
  }

  function LookupStep(pid: int, r: Registry, l: Loop): Loop {
    if l.i >= |r.maps| then Return(l, TenantIs(-1, 0))
    else if r.maps[l.i].pid == pid then Return(l, TenantIs(0, r.maps[l.i].tid))
    else l.(i := l.i + 1)
  }

  function UnbindStep(pid: int, r: Registry, l: Loop): (Registry, Loop)
    requires Bounded(r)
  {
    if l.i >= |r.maps| then (r, Return(l, Code(-1)))
    else if r.maps[l.i].pid == pid then
      var tid := r.maps[l.i].tid;
      var t := r.tenants[tid];
      (SetTenant(r, tid, t.(processes := RemoveFirst(t.processes, pid),
                            processCount := DecrementIfPositive(t.processCount)))
         .(maps := r.maps[l.i := FREE], total := DecrementIfPositive(r.total)),
       Return(l, Code(0)))
    else (r, l.(i := l.i + 1))
  }

  ghost function SmallStepOf(c: ApiCall, r: Registry, l: Loop): (Registry, Loop) {
    if l.answer.Some? then (r, l)
    else if c.AskTenant? then (r, LookupStep(c.pid, r, l))
    else if c.Change? && c.call.DeleteTenant? then DeleteStep(c.call.id, r, l)
    else if c.Change? && c.call.BindProcess? then BindStep(c.call.pid, c.call.tid, r, l)
    else if !Bounded(r) then (r, Return(l, Code(-1)))
    else if c.Change? && c.call.UnbindProcess? then UnbindStep(c.call.pid, r, l)
    else (Effect(r, c), Return(l, AnswerTo(r, c)))
  }

  ghost function SlotwiseApi(): Api<ApiCall, Registry, Loop> {
    Api((c: ApiCall) => LOOP_START, (c, r, l) => SmallStepOf(c, r, l), (c: ApiCall, l: Loop) => l.answer.Some?)
  }

  ghost function AnswerOf(): Loop -> Answer {
    (l: Loop) => if l.answer.Some? then l.answer.value else Code(-1)
  }

  lemma AloneUnfolds(r: Registry, c: ApiCall, n: nat)
    ensures Alone(SlotwiseApi(), c, r, 0) == (r, LOOP_START)
    ensures n > 0 ==>
              Alone(SlotwiseApi(), c, r, n) ==
              SmallStepOf(c, Alone(SlotwiseApi(), c, r, n - 1).0, Alone(SlotwiseApi(), c, r, n - 1).1)
  {
  }

  /** The state of an admissible deletion after `n` small steps. */
  ghost function Deleting(r: Registry, id: nat, n: nat): (Registry, Loop)
    requires CanDelete(r, id)
  {
    if n <= |r.maps| then
      (r.(maps := Purge(r.maps, id, n), total := Wrap32(r.total - CountTid(r.maps, id, n))),
       LOOP_START.(i := n))
    else (Delete(r, id), Return(LOOP_START.(i := |r.maps|), Code(0)))
  }

  lemma DeletingNext(r: Registry, id: nat, n: nat)
    requires CanDelete(r, id) && n > 0
    ensures SmallStepOf(Change(DeleteTenant(id)), Deleting(r, id, n - 1).0, Deleting(r, id, n - 1).1) == Deleting(r, id, n)
  {
    if n <= |r.maps| {
      var before, after := Purge(r.maps, id, n - 1), Purge(r.maps, id, n);
      assert after == if r.maps[n - 1].tid == id then before[n - 1 := FREE] else before;
    }
  }

  lemma {:induction false} AloneDelete(r: Registry, id: nat, n: nat)
    requires Bounded(r)
    ensures Alone(SlotwiseApi(), Change(DeleteTenant(id)), r, n) ==
            if CanDelete(r, id) then Deleting(r, id, n)
            else (r, if n > 0 then Return(LOOP_START, Code(-1)) else LOOP_START)
  {
    AloneUnfolds(r, Change(DeleteTenant(id)), n);
    if n > 0 {
      AloneDelete(r, id, n - 1);
      if CanDelete(r, id) { DeletingNext(r, id, n); }
    } else {
      assert Purge(r.maps, id, 0) == r.maps;
    }
  }

  /** What the scan of a binding has found in the first `i` slots. */
  ghost predicate Scanned(maps: seq<Mapping>, pid: int, l: Loop) {
    && l.i <= FirstPid(maps, pid, 0)
    && (l.found == -1 || l.found == l.i == FirstPid(maps, pid, 0) < |maps|)
    && (l.empty == -1 || l.empty == FirstPid(maps, 0, 0) < l.i)
    && (l.empty == -1 ==> l.i <= FirstPid(maps, 0, 0))
  }

  ghost predicate Binding(r: Registry, pid: int, tid: nat, s: Registry, l: Loop) {
    if l.answer.Some? then s == Bind(r, pid, tid) && l.answer.value == Code(Rc(CanBind(r, pid, tid)))
    else s == r && Scanned(r.maps, pid, l)
  }

  lemma BindingNext(r: Registry, pid: int, tid: nat, s: Registry, l: Loop)
    requires Bounded(r) && Binding(r, pid, tid, s, l)
    ensures var (s', l') := SmallStepOf(Change(BindProcess(pid, tid)), s, l);
            Binding(r, pid, tid, s', l')
  {
  }

  lemma {:induction false} AloneBind(r: Registry, pid: int, tid: nat, n: nat)
    requires Bounded(r)
    ensures var (s, l) := Alone(SlotwiseApi(), Change(BindProcess(pid, tid)), r, n);
            && Binding(r, pid, tid, s, l)
            && (l.answer.None? ==> n == l.i + if l.found >= 0 then 1 else 0)
  {
    AloneUnfolds(r, Change(BindProcess(pid, tid)), n);
    if n > 0 {
      AloneBind(r, pid, tid, n - 1);
      var (s, l) := Alone(SlotwiseApi(), Change(BindProcess(pid, tid)), r, n - 1);
      BindingNext(r, pid, tid, s, l);
    }
  }

  lemma {:induction false} AloneUnbind(r: Registry, pid: int, n: nat)
    requires Bounded(r)
    ensures var c := Change(UnbindProcess(pid));
            var (s, l) := Alone(SlotwiseApi(), c, r, n);
            if l.answer.Some? then s == Effect(r, c) && l.answer.value == AnswerTo(r, c)
            else s == r && l.i == n <= FirstPid(r.maps, pid, 0)
  {
    AloneUnfolds(r, Change(UnbindProcess(pid)), n);
    if n > 0 {
      AloneUnbind(r, pid, n - 1);
    }
  }

  lemma {:induction false} AloneLookup(r: Registry, pid: int, n: nat)
    requires Bounded(r)
    ensures var (s, l) := Alone(SlotwiseApi(), AskTenant(pid), r, n);
            && s == r
            && if l.answer.Some? then l.answer.value == AnswerTo(r, AskTenant(pid))
               else l.i == n <= FirstPid(r.maps, pid, 0)
  {
    AloneUnfolds(r, AskTenant(pid), n);
    if n > 0 {
      AloneLookup(r, pid, n - 1);
    }
  }

  /** A call that takes a single small step. */
  ghost predicate OneStep(c: ApiCall) {
    !c.AskTenant? && (c.Change? ==> !c.call.DeleteTenant? && !c.call.BindProcess? && !c.call.UnbindProcess?)
  }

  lemma {:induction false} AloneOther(r: Registry, c: ApiCall, n: nat)
    requires Bounded(r) && OneStep(c)
    ensures Alone(SlotwiseApi(), c, r, n) ==
            if n == 0 then (r, LOOP_START) else (Effect(r, c), Return(LOOP_START, AnswerTo(r, c)))
  {
    AloneUnfolds(r, c, n);
    if n > 0 {
      AloneOther(r, c, n - 1);
    }
  }

  lemma SlotwiseImplements()
    ensures Implements(SlotwiseApi(), AnswerOf())
  {
    forall c: ApiCall, r: Registry, n: nat |
      Bounded(r) && SlotwiseApi().ready(c, Alone(SlotwiseApi(), c, r, n).1)
      ensures Alone(SlotwiseApi(), c, r, n).0 == Effect(r, c)
      ensures AnswerOf()(Alone(SlotwiseApi(), c, r, n).1) == AnswerTo(r, c)
    {
      if OneStep(c) {
        AloneOther(r, c, n);
      } else if c.AskTenant? {
        AloneLookup(r, c.pid, n);
      } else if c.call.DeleteTenant? {
        AloneDelete(r, c.call.id, n);
      } else if c.call.UnbindProcess? {
        AloneUnbind(r, c.call.pid, n);
      } else {
        AloneBind(r, c.call.pid, c.call.tid, n);
      }
    }
  }

  /** Every call is ready after one small step more than there are slots. */
  lemma SlotwiseEnds(c: ApiCall, r: Registry, n: nat)
    requires Bounded(r) && n > |r.maps|
    ensures SlotwiseApi().ready(c, Alone(SlotwiseApi(), c, r, n).1)
  {
    if OneStep(c) {
      AloneOther(r, c, n);
    } else if c.AskTenant? {
      AloneLookup(r, c.pid, n);
    } else if c.call.DeleteTenant? {
      AloneDelete(r, c.call.id, n);
    } else if c.call.UnbindProcess? {
      AloneUnbind(r, c.call.pid, n);
    } else {
      AloneBind(r, c.call.pid, c.call.tid, n);
    }
  }

  /**
   * Concurrent slot-by-slot runs answer every finished call as the serial run does, and keep the
   * registry consistent whenever the lock is free.
   */
  lemma ConcurrentRunsKeepRegistry(s: System<ApiCall, Registry, Loop>, acts: seq<Action<ApiCall>>)
    requires Initial(s) && Refinement.Inv(s.shared) && Exec(SlotwiseApi(), s, acts).Some?
    ensures var r := Exec(SlotwiseApi(), s, acts).value;
            SerialAnswers(AnswerOf(), s.shared, r.finished)
    ensures var r := Exec(SlotwiseApi(), s, acts).value;
            var changes := Changes(r.acquired);
            !r.lock && (forall i :: 0 <= i < |changes| ==> Refinement.Regular(changes[i])) ==>
              && r.shared == Refinement.Run(s.shared, changes)
              && Refinement.Inv(r.shared)
              && Refinement.Abs(r.shared) ==
                 Refinement.AbstractRun(Refinement.Abs(s.shared), changes, |s.shared.maps|)
  {
    var r := Exec(SlotwiseApi(), s, acts).value;
    SlotwiseImplements();
    RegistryRunsAreSerial(SlotwiseApi(), AnswerOf(), s, acts);
    if !r.lock {
      var changes := Changes(r.acquired);
      RunCallsIsRun(s.shared, r.acquired);
      if forall i :: 0 <= i < |changes| ==> Refinement.Regular(changes[i]) {
        Refinement.RunRefinesMap(s.shared, changes);
      }
    }
  }
}
