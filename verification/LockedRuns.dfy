/**
 * The registry spin lock (`spin_lock`/`spin_unlock` around every tenant API call) as a state
 * machine. The critical sections are arbitrary programs of small steps on shared and local data;
 * any interleaving of them is a serial run in lock-acquisition order.
 */
module LockedRuns {
  import opened Words
  import opened TenantRegistry
  import Refinement = RegistryRefinement

  /**
   * A family of critical sections: the local data a call starts with, one small step of it, and
   * when it is ready to release the lock.
   */
  datatype Api<!C, !S, !L> = Api(start: C -> L, step: (C, S, L) -> (S, L), ready: (C, L) -> bool)

  datatype Thread<C, L> =
    | Outside
    | Trying(call: C)              // about to execute the test-and-set
    | Spinning(call: C)            // lost it; re-reads the lock word
    | Inside(call: C, steps: nat, local: L)

  /** A finished call, its number of small steps and its final local data (the return value). */
  datatype Finished<C, L> = Finished(call: C, steps: nat, local: L)

  /** `lock` is the lock word; `acquired` and `finished` are history. */
  datatype System<C, S, L> = System(shared: S, lock: bool, threads: seq<Thread<C, L>>,
                                    acquired: seq<C>, finished: seq<Finished<C, L>>)

  datatype Action<C> =
    | Invoke(thread: nat, call: C)
    | TestAndSet(thread: nat)
    | ReadLock(thread: nat)
    | SmallStep(thread: nat)
    | Release(thread: nat)

  predicate Enabled<C, S, L>(api: Api<C, S, L>, s: System<C, S, L>, a: Action<C>) {
    a.thread < |s.threads| &&
    var t := s.threads[a.thread];
    match a
    case Invoke(_, _) => t.Outside?
    case TestAndSet(_) => t.Trying?
    case ReadLock(_) => t.Spinning?
    case SmallStep(_) => t.Inside? && !api.ready(t.call, t.local)
    case Release(_) => t.Inside? && api.ready(t.call, t.local)
  }

  function Act<C, S, L>(api: Api<C, S, L>, s: System<C, S, L>, a: Action<C>): System<C, S, L>
    requires Enabled(api, s, a)
  {
    var i := a.thread;
    var t := s.threads[i];
    match a
    case Invoke(_, c) => s.(threads := s.threads[i := Trying(c)])
    case TestAndSet(_) =>
      if s.lock then s.(threads := s.threads[i := Spinning(t.call)])
      else s.(lock := true, threads := s.threads[i := Inside(t.call, 0, api.start(t.call))],
              acquired := s.acquired + [t.call])
    case ReadLock(_) =>
      if s.lock then s else s.(threads := s.threads[i := Trying(t.call)])
    case SmallStep(_) =>
      var (shared, local) := api.step(t.call, s.shared, t.local);
      s.(shared := shared, threads := s.threads[i := Inside(t.call, t.steps + 1, local)])
    case Release(_) =>
      s.(lock := false, threads := s.threads[i := Outside],
         finished := s.finished + [Finished(t.call, t.steps, t.local)])
  }

  function Exec<C, S, L>(api: Api<C, S, L>, s: System<C, S, L>, acts: seq<Action<C>>)
    : Option<System<C, S, L>>
  {
    if acts == [] then Some(s)
    else
      var mid := Exec(api, s, acts[..|acts| - 1]);
      var a := acts[|acts| - 1];
      if mid.Some? && Enabled(api, mid.value, a) then Some(Act(api, mid.value, a)) else None
  }

  // ---------- the serial meaning ----------

  /** A call alone in the critical section, after `n` small steps. */
  function Alone<C, S, L>(api: Api<C, S, L>, c: C, s: S, n: nat): (S, L) {
    if n == 0 then (s, api.start(c))
    else
      var (s', l') := Alone(api, c, s, n - 1);
      api.step(c, s', l')
  }

  /** The shared data after the finished calls ran one after the other. */
  function Serial<C, S, L>(api: Api<C, S, L>, s: S, done: seq<Finished<C, L>>): S {
    if done == [] then s
    else
      var last := done[|done| - 1];
      Alone(api, last.call, Serial(api, s, done[..|done| - 1]), last.steps).0
  }

  /** Every finished call also returned what it returns in the serial run. */
  predicate SerialResults<C, S, L(==)>(api: Api<C, S, L>, s: S, done: seq<Finished<C, L>>) {
    done == [] ||
    (var last, init := done[|done| - 1], done[..|done| - 1];
     && SerialResults(api, s, init)
     && Alone(api, last.call, Serial(api, s, init), last.steps).1 == last.local
     && api.ready(last.call, last.local))
  }

  function CallsOf<C, L>(done: seq<Finished<C, L>>): (cs: seq<C>)
    ensures |cs| == |done|
  {
    seq(|done|, i requires 0 <= i < |done| => done[i].call)
  }

  ghost predicate Initial<C, S, L>(s: System<C, S, L>) {
    && !s.lock && s.acquired == [] && s.finished == []
    && forall i :: 0 <= i < |s.threads| ==> s.threads[i].Outside?
  }

  /** At most one thread is inside, and the lock word says whether there is one. */
  ghost predicate Exclusive<C, S, L>(s: System<C, S, L>) {
    && (forall i, j :: 0 <= i < |s.threads| && 0 <= j < |s.threads| && s.threads[i].Inside? && s.threads[j].Inside?
          ==> i == j)
    && (s.lock <==> exists i :: 0 <= i < |s.threads| && s.threads[i].Inside?)
  }

  ghost predicate Linear<C, S, L>(api: Api<C, S, L>, s0: S, s: System<C, S, L>) {
    && SerialResults(api, s0, s.finished)
    && (!s.lock ==> s.shared == Serial(api, s0, s.finished) && s.acquired == CallsOf(s.finished))
    && (forall i :: 0 <= i < |s.threads| && s.threads[i].Inside? ==>
          var t := s.threads[i];
          && Alone(api, t.call, Serial(api, s0, s.finished), t.steps) == (s.shared, t.local)
          && s.acquired == CallsOf(s.finished) + [t.call])
  }

  lemma ActKeepsExclusive<C, S, L>(api: Api<C, S, L>, s: System<C, S, L>, a: Action<C>)
    requires Exclusive(s) && Enabled(api, s, a)
    ensures Exclusive(Act(api, s, a))
  {
    var r := Act(api, s, a);
    var i := a.thread;
    assert forall j :: 0 <= j < |s.threads| && j != i ==> r.threads[j] == s.threads[j];
    if r.lock {
      if a.TestAndSet? && !s.lock {
        assert r.threads[i].Inside?;
      } else {
        var j :| 0 <= j < |s.threads| && s.threads[j].Inside?;
        assert r.threads[j].Inside?;
      }
    }
  }

  lemma FinishedSnoc<C, S, L>(api: Api<C, S, L>, s0: S, done: seq<Finished<C, L>>, last: Finished<C, L>)
    requires SerialResults(api, s0, done) && api.ready(last.call, last.local)
    requires Alone(api, last.call, Serial(api, s0, done), last.steps).1 == last.local
    ensures SerialResults(api, s0, done + [last])
    ensures Serial(api, s0, done + [last]) == Alone(api, last.call, Serial(api, s0, done), last.steps).0
    ensures CallsOf(done + [last]) == CallsOf(done) + [last.call]
  {
    assert (done + [last])[..|done|] == done;
  }

  lemma ReleaseKeepsLinear<C, S, L>(api: Api<C, S, L>, s0: S, s: System<C, S, L>, a: Action<C>)
    requires Exclusive(s) && Linear(api, s0, s) && Enabled(api, s, a) && a.Release?
    ensures Linear(api, s0, Act(api, s, a))
  {
    var r, t := Act(api, s, a), s.threads[a.thread];
    var last := Finished(t.call, t.steps, t.local);
    assert r.finished == s.finished + [last];
    FinishedSnoc(api, s0, s.finished, last);
    forall i | 0 <= i < |r.threads| ensures !r.threads[i].Inside? {
      if i != a.thread { assert r.threads[i] == s.threads[i]; }
    }
  }

  lemma ActKeepsLinear<C, S, L>(api: Api<C, S, L>, s0: S, s: System<C, S, L>, a: Action<C>)
    requires Exclusive(s) && Linear(api, s0, s) && Enabled(api, s, a)
    ensures Linear(api, s0, Act(api, s, a))
  {
    if a.Release? {
      ReleaseKeepsLinear(api, s0, s, a);
    } else if a.SmallStep? {
      var t := s.threads[a.thread];
      assert Alone(api, t.call, Serial(api, s0, s.finished), t.steps + 1) == api.step(t.call, s.shared, t.local);
    }
  }

  /**
   * Main result: in every interleaving at most one thread is inside, and the shared data, the
   * results and the order of the finished calls are those of the serial run in acquisition order.
   */
  lemma {:induction false} EveryRunIsSerial<C, S, L>(api: Api<C, S, L>, s: System<C, S, L>, acts: seq<Action<C>>)
    requires Initial(s) && Exec(api, s, acts).Some?
    ensures Exclusive(Exec(api, s, acts).value)
    ensures Linear(api, s.shared, Exec(api, s, acts).value)
  {
    if acts != [] {
      var init := acts[..|acts| - 1];
      EveryRunIsSerial(api, s, init);
      ActKeepsExclusive(api, Exec(api, s, init).value, acts[|acts| - 1]);
      ActKeepsLinear(api, s.shared, Exec(api, s, init).value, acts[|acts| - 1]);
    }
  }

  // ---------- the tenant registry under the lock ----------

  /** A call of the tenant API: one that may change the registry, or one that only reads it. */
  datatype ApiCall = Change(call: Call) | AskTenant(pid: int) | AskInfo(id: nat) | AskUsage(id: nat)

  /** What the critical section of a call returns; the return code of an info call is read outside. */
  datatype Answer =
    | Code(rc: int)
    | TenantIs(rc: int, tid: nat)
    | InfoIs(record: Option<Tenant>)
    | UsageIs(rc: int, usage: Option<TenantUsage>)

  function Effect(r: Registry, c: ApiCall): (s: Registry)
    requires Bounded(r)
    ensures Bounded(s) && |s.tenants| == |r.tenants| && |s.maps| == |r.maps|
  {
    if c.Change? then Apply(r, c.call) else r
  }

  function AnswerTo(r: Registry, c: ApiCall): Answer {
    match c
    case Change(call) => Code(Rc(Succeeds(r, call)))
    case AskTenant(pid) =>
      var t := TenantOf(r, pid);
      TenantIs(Rc(t.Some?), if t.Some? then t.value else 0)
    case AskInfo(id) => InfoIs(if id < |r.tenants| then Some(r.tenants[id]) else None)
    case AskUsage(id) => UsageIs(Rc(GetUsage(r, id).Some?), GetUsage(r, id))
  }

  function RunCalls(r: Registry, calls: seq<ApiCall>): (s: Registry)
    requires Bounded(r)
    ensures Bounded(s) && |s.tenants| == |r.tenants| && |s.maps| == |r.maps|
  {
    if calls == [] then r else Effect(RunCalls(r, calls[..|calls| - 1]), calls[|calls| - 1])
  }

  /** The calls that may change the registry. */
  function Changes(calls: seq<ApiCall>): seq<Call> {
    if calls == [] then []
    else
      var last := calls[|calls| - 1];
      Changes(calls[..|calls| - 1]) + if last.Change? then [last.call] else []
  }

  lemma {:induction false} RunCallsIsRun(r: Registry, calls: seq<ApiCall>)
    requires Bounded(r)
    ensures RunCalls(r, calls) == Refinement.Run(r, Changes(calls))
  {
    if calls != [] {
      var init, last := calls[..|calls| - 1], calls[|calls| - 1];
      RunCallsIsRun(r, init);
      if last.Change? {
        assert Changes(calls)[..|Changes(calls)| - 1] == Changes(init);
      } else {
        assert Changes(calls) == Changes(init);
      }
    }
  }

  /** Run alone until it is ready, the critical section of `c` has the effect and answer of the API call. */
  ghost predicate Implements<L(!new)>(api: Api<ApiCall, Registry, L>, answer: L -> Answer) {
    forall c: ApiCall, r: Registry, n: nat :: Bounded(r) && api.ready(c, Alone(api, c, r, n).1) ==>
      Alone(api, c, r, n).0 == Effect(r, c) && answer(Alone(api, c, r, n).1) == AnswerTo(r, c)
  }

  /** Each finished call got the answer that it gets after the calls that finished before it. */
  ghost predicate SerialAnswers<L>(answer: L -> Answer, r: Registry, done: seq<Finished<ApiCall, L>>)
    requires Bounded(r)
  {
    done == [] ||
    (var last, init := done[|done| - 1], done[..|done| - 1];
     && SerialAnswers(answer, r, init)
     && answer(last.local) == AnswerTo(RunCalls(r, CallsOf(init)), last.call))
  }

  lemma {:induction false} SerialIsRun<L(!new)>(api: Api<ApiCall, Registry, L>, answer: L -> Answer, r: Registry,
                                                done: seq<Finished<ApiCall, L>>)
    requires Implements(api, answer) && Bounded(r) && SerialResults(api, r, done)
    ensures Serial(api, r, done) == RunCalls(r, CallsOf(done))
    ensures SerialAnswers(answer, r, done)
  {
    if done != [] {
      var init := done[..|done| - 1];
      SerialIsRun(api, answer, r, init);
      assert CallsOf(done)[..|done| - 1] == CallsOf(init);
    }
  }

  /**
   * However the threads were interleaved and however finely the calls step, every finished call
   * returned what it returns in the serial run in acquisition order, and whenever the lock is free
   * the registry is the one that this serial run leaves.
   */
  lemma RegistryRunsAreSerial<L(!new)>(api: Api<ApiCall, Registry, L>, answer: L -> Answer,
                                       s: System<ApiCall, Registry, L>, acts: seq<Action<ApiCall>>)
    requires Implements(api, answer) && Initial(s) && Bounded(s.shared)
    requires Exec(api, s, acts).Some?
    ensures var r := Exec(api, s, acts).value;
            && SerialAnswers(answer, s.shared, r.finished)
            && (!r.lock ==> r.acquired == CallsOf(r.finished) && r.shared == RunCalls(s.shared, r.acquired))
  {
    EveryRunIsSerial(api, s, acts);
    SerialIsRun(api, answer, s.shared, Exec(api, s, acts).value.finished);
  }
}
