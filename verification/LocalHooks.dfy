/**
 * src/rdma_hooks.c: QP admission of one process. Two counters decide: the local one when the
 * process table cannot be read, the table's otherwise.
 */
module LocalHooks {
  import opened Words
  import opened ProcessTable

  // ---------- several threads on the local counter ----------

  /** Where a thread is between the critical sections of `resource_mutex` and the driver calls. */
  datatype Thread =
    | Idle
    | Admitted     // passed the check, driver not called yet
    | Created      // driver created a QP, counter not incremented yet
    | Destroyed    // driver destroyed a QP, counter not decremented yet

  /** `count` is the 32-bit local counter, `live` the number of QPs that exist in the driver. */
  datatype State = State(count: int, live: nat, threads: seq<Thread>)

  /** `ok` is the driver's verdict; a thread destroys only a QP whose creation has returned. */
  datatype Action =
    | Check(thread: nat)
    | DriverCreate(thread: nat, ok: bool)
    | Increment(thread: nat)
    | DriverDestroy(thread: nat, ok: bool)
    | Decrement(thread: nat)

  function NumberOf(ts: seq<Thread>, x: Thread): (n: nat)
    ensures n <= |ts|
  {
    if ts == [] then 0 else NumberOf(ts[..|ts| - 1], x) + if ts[|ts| - 1] == x then 1 else 0
  }

  /** The comparison of the source, in 32-bit arithmetic. */
  predicate Passes(count: int, max: int) {
    Wrap32(count + 1) <= max
  }

  predicate Enabled(s: State, a: Action) {
    a.thread < |s.threads| &&
    match a
    case Check(i) => s.threads[i].Idle?
    case DriverCreate(i, _) => s.threads[i].Admitted?
    case Increment(i) => s.threads[i].Created?
    case DriverDestroy(i, ok) => s.threads[i].Idle? && (ok ==> s.live > NumberOf(s.threads, Created))
    case Decrement(i) => s.threads[i].Destroyed?
  }

  function Act(s: State, a: Action, max: int): (r: State)
    requires Enabled(s, a)
    ensures |r.threads| == |s.threads|
  {
    match a
    case Check(i) =>
      if Passes(s.count, max) then s.(threads := s.threads[i := Admitted]) else s
    case DriverCreate(i, ok) =>
      if ok then s.(live := s.live + 1, threads := s.threads[i := Created])
      else s.(threads := s.threads[i := Idle])
    case Increment(i) => s.(count := Wrap32(s.count + 1), threads := s.threads[i := Idle])
    case DriverDestroy(i, ok) =>
      if ok && s.live > 0 then s.(live := s.live - 1, threads := s.threads[i := Destroyed]) else s
    case Decrement(i) =>
      s.(count := if s.count > 0 then s.count - 1 else s.count, threads := s.threads[i := Idle])
  }

  function Exec(s: State, acts: seq<Action>, max: int): (r: Option<State>)
    ensures r.Some? ==> |r.value.threads| == |s.threads|
  {
    if acts == [] then Some(s)
    else
      var mid := Exec(s, acts[..|acts| - 1], max);
      var a := acts[|acts| - 1];
      if mid.Some? && Enabled(mid.value, a) then Some(Act(mid.value, a, max)) else None
  }

  function Start(threads: nat): State {
    State(0, 0, seq(threads, _ => Idle))
  }

  lemma {:induction false} NumberWrite(ts: seq<Thread>, i: nat, x: Thread, y: Thread)
    requires i < |ts|
    ensures NumberOf(ts[i := x], y) ==
            NumberOf(ts, y) - (if ts[i] == y then 1 else 0) + (if x == y then 1 else 0)
  {
    var init := ts[..|ts| - 1];
    if i < |init| {
      assert ts[i := x][..|init|] == init[i := x];
      NumberWrite(init, i, x, y);
    } else {
      assert ts[i := x][..|init|] == init;
    }
  }

  lemma {:induction false} NumbersAddUp(ts: seq<Thread>)
    ensures NumberOf(ts, Idle) + NumberOf(ts, Admitted) + NumberOf(ts, Created) + NumberOf(ts, Destroyed) == |ts|
  {
    if ts != [] {
      NumbersAddUp(ts[..|ts| - 1]);
    }
  }

  /** The counter lags the driver by exactly the calls in flight, and admissions are bounded. */
  ghost predicate Inv(s: State, max: int) {
    && 0 <= s.count < U32
    && s.live == s.count + NumberOf(s.threads, Created) - NumberOf(s.threads, Destroyed)
    && NumberOf(s.threads, Destroyed) <= s.count
    && s.count + NumberOf(s.threads, Admitted) + NumberOf(s.threads, Created) <= max + |s.threads| - 1
  }

  lemma ActKeepsInv(s: State, a: Action, max: nat)
    requires Inv(s, max) && Enabled(s, a) && max + |s.threads| < U32
    ensures Inv(Act(s, a, max), max)
    ensures a.Decrement? ==> s.count > 0
  {
    var i, r := a.thread, Act(s, a, max);
    NumbersAddUp(s.threads);
    NumberWrite(s.threads, i, r.threads[i], Idle);
    NumberWrite(s.threads, i, r.threads[i], Admitted);
    NumberWrite(s.threads, i, r.threads[i], Created);
    NumberWrite(s.threads, i, r.threads[i], Destroyed);
    assert r.threads == s.threads[i := r.threads[i]];
    if a.Decrement? || a.Check? {
      NumberPositive(s.threads, i);
    }
  }

  lemma {:induction false} NumberPositive(ts: seq<Thread>, i: nat)
    requires i < |ts|
    ensures NumberOf(ts, ts[i]) > 0
  {
    var init := ts[..|ts| - 1];
    if i < |init| {
      NumberPositive(init, i);
    }
  }

  lemma {:induction false} StartCounts(threads: nat)
    ensures NumberOf(Start(threads).threads, Admitted) == 0
    ensures NumberOf(Start(threads).threads, Created) == 0
    ensures NumberOf(Start(threads).threads, Destroyed) == 0
  {
    if threads > 0 {
      StartCounts(threads - 1);
      assert Start(threads).threads[..threads - 1] == Start(threads - 1).threads;
    }
  }

  lemma {:induction false} ExecKeepsInv(threads: nat, acts: seq<Action>, max: nat)
    requires threads > 0 && max + threads < U32 && Exec(Start(threads), acts, max).Some?
    ensures Inv(Exec(Start(threads), acts, max).value, max)
  {
    if acts == [] {
      StartCounts(threads);
    } else {
      ExecKeepsInv(threads, acts[..|acts| - 1], max);
      ActKeepsInv(Exec(Start(threads), acts[..|acts| - 1], max).value, acts[|acts| - 1], max);
    }
  }

  /**
   * Main result: with `threads` threads the live QPs never exceed the limit by more than
   * `threads - 1`, on any interleaving, and the guard of the decrement never suppresses one.
   */
  lemma OvershootIsBounded(threads: nat, acts: seq<Action>, max: nat)
    requires threads > 0 && max + threads < U32 && Exec(Start(threads), acts, max).Some?
    ensures Exec(Start(threads), acts, max).value.live <= max + threads - 1
    ensures forall i :: 0 <= i < threads && Exec(Start(threads), acts, max).value.threads[i].Destroyed? ==>
              Exec(Start(threads), acts, max).value.count > 0
  {
    var s := Exec(Start(threads), acts, max).value;
    ExecKeepsInv(threads, acts, max);
    forall i | 0 <= i < threads && s.threads[i].Destroyed? ensures s.count > 0 {
      NumberPositive(s.threads, i);
    }
  }

  /** The 32-bit comparison admits exactly below the limit, except at the top of the word. */
  lemma PassesIff(count: nat, max: nat)
    requires count < U32 && max < U32
    ensures Passes(count, max) <==> count < max || count == U32 - 1
  {
  }

  // ---------- the bound is reached ----------

  lemma ExecOne(s: State, acts: seq<Action>, a: Action, max: int)
    requires Exec(s, acts, max).Some? && Enabled(Exec(s, acts, max).value, a)
    ensures Exec(s, acts + [a], max) == Some(Act(Exec(s, acts, max).value, a, max))
  {
    assert (acts + [a])[..|acts|] == acts;
  }

  /** Thread 0 alone creates `n` QPs, one after the other. */
  lemma {:induction false} SerialCreations(threads: nat, n: nat, max: nat) returns (acts: seq<Action>)
    requires threads > 0 && n <= max < U32
    ensures Exec(Start(threads), acts, max) == Some(State(n, n, Start(threads).threads))
  {
    if n == 0 {
      acts := [];
    } else {
      var before := SerialCreations(threads, n - 1, max);
      ExecOne(Start(threads), before, Check(0), max);
      var a1 := before + [Check(0)];
      ExecOne(Start(threads), a1, DriverCreate(0, true), max);
      var a2 := a1 + [DriverCreate(0, true)];
      ExecOne(Start(threads), a2, Increment(0), max);
      acts := a2 + [Increment(0)];
      assert Start(threads).threads[0 := Admitted][0 := Created][0 := Idle] == Start(threads).threads;
    }
  }

  /** The first `k` threads are in state `x`, the others in state `y`. */
  function Split(threads: nat, k: nat, x: Thread, y: Thread): seq<Thread> {
    seq(threads, i => if i < k then x else y)
  }

  lemma {:induction false} AllPassTheCheck(threads: nat, k: nat, max: nat) returns (acts: seq<Action>)
    requires 0 < threads && k <= threads && 0 < max < U32
    ensures Exec(Start(threads), acts, max) ==
            Some(State(max - 1, max - 1, Split(threads, k, Admitted, Idle)))
  {
    if k == 0 {
      acts := SerialCreations(threads, max - 1, max);
      assert Start(threads).threads == Split(threads, 0, Admitted, Idle);
    } else {
      var before := AllPassTheCheck(threads, k - 1, max);
      ExecOne(Start(threads), before, Check(k - 1), max);
      acts := before + [Check(k - 1)];
      assert Split(threads, k - 1, Admitted, Idle)[k - 1 := Admitted] == Split(threads, k, Admitted, Idle);
    }
  }

  lemma {:induction false} AllCreate(threads: nat, k: nat, max: nat) returns (acts: seq<Action>)
    requires 0 < threads && k <= threads && 0 < max < U32
    ensures Exec(Start(threads), acts, max) ==
            Some(State(max - 1, max - 1 + k, Split(threads, k, Created, Admitted)))
  {
    if k == 0 {
      acts := AllPassTheCheck(threads, threads, max);
      assert Split(threads, threads, Admitted, Idle) == Split(threads, 0, Created, Admitted);
    } else {
      var before := AllCreate(threads, k - 1, max);
      ExecOne(Start(threads), before, DriverCreate(k - 1, true), max);
      acts := before + [DriverCreate(k - 1, true)];
      assert Split(threads, k - 1, Created, Admitted)[k - 1 := Created] == Split(threads, k, Created, Admitted);
    }
  }

  /** The overshoot bound is exact: some interleaving reaches it. */
  lemma OvershootIsReached(threads: nat, max: nat)
    requires threads > 0 && 0 < max && max + threads < U32
    ensures exists acts: seq<Action> ::
              Exec(Start(threads), acts, max).Some? &&
              Exec(Start(threads), acts, max).value.live == max + threads - 1
  {
    var acts := AllCreate(threads, threads, max);
    assert Exec(Start(threads), acts, max).value.live == max + threads - 1;
  }

  // ---------- where the bound stops ----------

  lemma {:induction false} SomeIncrement(threads: nat, k: nat, max: nat) returns (acts: seq<Action>)
    requires 0 < threads && k <= threads && 0 < max && max + k <= U32
    requires max < U32
    ensures Exec(Start(threads), acts, max) ==
            Some(State(max - 1 + k, max - 1 + threads, Split(threads, k, Idle, Created)))
  {
    if k == 0 {
      acts := AllCreate(threads, threads, max);
      assert Split(threads, threads, Created, Admitted) == Split(threads, 0, Idle, Created);
    } else {
      var before := SomeIncrement(threads, k - 1, max);
      ExecOne(Start(threads), before, Increment(k - 1), max);
      acts := before + [Increment(k - 1)];
      assert Split(threads, k - 1, Idle, Created)[k - 1 := Idle] == Split(threads, k, Idle, Created);
    }
  }

  /** When overshoot can fill the 32-bit counter, the check lets one more creation through. */
  lemma CounterTopExceeds(threads: nat, max: nat) returns (acts: seq<Action>)
    requires threads > 0 && 0 < max < U32 <= max + threads
    ensures Exec(Start(threads), acts, max).Some?
    ensures Exec(Start(threads), acts, max).value.live == max + threads
  {
    var full := SomeIncrement(threads, U32 - max, max);
    ExecOne(Start(threads), full, Check(0), max);
    ExecOne(Start(threads), full + [Check(0)], DriverCreate(0, true), max);
    acts := full + [Check(0)] + [DriverCreate(0, true)];
  }

  ghost predicate BoundHolds(threads: nat, max: nat) {
    forall acts: seq<Action> :: Exec(Start(threads), acts, max).Some? ==>
      Exec(Start(threads), acts, max).value.live <= max + threads - 1
  }

  /**
   * The overshoot bound holds on all interleavings exactly when limit and threads together stay
   * below 2^32, so that the counter cannot reach the word's top value.
   */
  lemma BoundHoldsIff(threads: nat, max: nat)
    requires threads > 0 && 0 < max < U32
    ensures BoundHolds(threads, max) <==> max + threads < U32
  {
    if max + threads < U32 {
      forall acts: seq<Action> | Exec(Start(threads), acts, max).Some?
        ensures Exec(Start(threads), acts, max).value.live <= max + threads - 1
      {
        OvershootIsBounded(threads, acts, max);
      }
    } else {
      var acts := CounterTopExceeds(threads, max);
    }
  }
}
