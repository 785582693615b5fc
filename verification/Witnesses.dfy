/**
 Runs that are possible: a resumed function with no budget does run, a timeout can be
 reported as a yield, and a budget can be cut short.
 */
module Witnesses {
  import opened Common
  import opened Programs
  import opened Machine
  import opened MachineInvariant
  import opened MachineProofs
  import opened Lifecycle
  import opened LifecycleProofs
  import opened Theorems
  import opened Progress
  import opened Slices

  /** A function that computes for ever. */
  const SPIN := Program(0, (regs: int, errno: int) => Compute(regs, errno), (regs: int, errno: int) => Return(0))

  function Last(run: seq<World>): World
    requires run != []
  {
    run[|run| - 1]
  }

  lemma Extended(run: seq<World>, ops: seq<Op>, op: Op)
    requires IsRun(run, ops) && Allowed(Last(run), op)
    ensures IsRun(run + [Perform(Last(run), op)], ops + [op])
  {
    var run', ops' := run + [Perform(Last(run), op)], ops + [op];
    assert run'[0] == run[0];
    forall k | 0 <= k < |ops'|
      ensures Allowed(run'[k], ops'[k]) && run'[k + 1] == Perform(run'[k], ops'[k])
    {
      if k < |ops| {
        assert run'[k] == run[k] && run'[k + 1] == run[k + 1] && ops'[k] == ops[k];
      }
    }
  }

  /** On the way to the first step of a function that was never resumed before, undisturbed, at clock `now`. */
  ghost predicate FirstSlice(m: State, us: nat, now: nat) {
    && !m.pending && m.now == now && m.us == us && m.fn.program == SPIN && (m.slice.stamped ==> m.slice.at == now)
    && (match m.pc
        case BlockFirst | Arm | SetSignal | SetSignalEnd | Bootstrap | SetDeadline => m.task.errno.None?
        case TakeCheckpoint | PutCheckpoint(_) | PutCheckpointEnd | Jump => m.task.errno.None?
        case Fun(f) => Before(f) || (f == OwnCode && m.fn.steps == 0)
        case _ => false)
  }

  lemma SetupStaysFirst(m: State, us: nat, now: nat)
    requires FirstSlice(m, us, now) && m.pc in {BlockFirst, Arm, SetSignal, SetSignalEnd, Bootstrap, SetDeadline}
    ensures SetupStep(m).pc.Crash? || FirstSlice(SetupStep(m), us, now)
  {
  }

  lemma SwitchStaysFirst(m: State, us: nat, now: nat)
    requires FirstSlice(m, us, now) && SwitchInv(m)
    ensures SwitchStep(m).pc.Crash? || FirstSlice(SwitchStep(m), us, now)
  {
  }

  lemma EntryStaysFirst(m: State, f: FunPc, us: nat, now: nat)
    requires FirstSlice(m, us, now) && At(m, f) && Before(f) && f != Invoke
    ensures EnableStep(m, f, 0).pc.Crash? || FirstSlice(EnableStep(m, f, 0), us, now)
  {
  }

  lemma InvokeStaysFirst(m: State, us: nat, now: nat)
    requires FirstSlice(m, us, now) && m.fn.closure.Function?
    ensures FirstSlice(UserStep(m, Invoke), us, now)
  {
  }

  lemma MainStaysFirst(m: State, us: nat, now: nat)
    requires Inv(m) && FirstSlice(m, us, now) && m.pc != Fun(OwnCode)
    ensures Enabled(m) && !IsUser(m.pc) && FirstSlice(MainStep(m, 0), us, now)
  {
    ProtocolGetsOn(m, 0);
    InvIsNoCrash(MainStep(m, 0));
    if m.pc.Fun? {
      if m.pc.f == Invoke {
        InvokesFunction(m);
        InvokeStaysFirst(m, us, now);
      } else {
        EntryStaysFirst(m, m.pc.f, us, now);
      }
    } else if m.pc in {BlockFirst, Arm, SetSignal, SetSignalEnd, Bootstrap, SetDeadline} {
      SetupStaysFirst(m.(sharedErrno := 0), us, now);
    } else {
      SwitchStaysFirst(m.(sharedErrno := 0), us, now);
    }
  }

  // ---- Building the runs ----

  lemma FirstWorld(now: nat)
    requires now < U64
    ensures IsRun([NewWorld(1, now)], [])
  {
    assert [NewWorld(1, now)][0] == NewWorld(1, now);
  }

  /** One function, launched at clock `now` and not resumed yet. */
  ghost predicate Launched(w: World, now: nat) {
    && w.current.None? && |w.entries| == 1 && w.m == NewThread(1, now)
    && w.entries[0].linger.Live? && w.entries[0].linger.continuation.task == DEFAULT_TASK
    && w.entries[0].fn == NewFn(SPIN)
  }

  lemma LaunchedIs(now: nat)
    ensures Launched(Launch(NewWorld(1, now), SPIN, 0, 0), now)
  {
    assert GroupBuilder(1)(0) == Some(0);
  }

  lemma LaunchedRun(now: nat) returns (run: seq<World>, ops: seq<Op>)
    requires now < U64
    ensures IsRun(run, ops) && ops == [DoLaunch(SPIN, 0, 0)] && Launched(Last(run), now)
  {
    FirstWorld(now);
    LaunchedIs(now);
    Extended([NewWorld(1, now)], [], DoLaunch(SPIN, 0, 0));
    run, ops := [NewWorld(1, now)] + [Launch(NewWorld(1, now), SPIN, 0, 0)], [] + [DoLaunch(SPIN, 0, 0)];
  }

  lemma ResumedIsFirst(w: World, us: nat, now: nat)
    requires WorldInv(w) && Launched(w, now)
    ensures FirstSlice(Begin(w, 0, us, 0).m, us, now) && Begin(w, 0, us, 0).m.slice == NEW_SLICE
  {
    assert TimedOk(w.entries[0], IsCurrent(w, 0));
    SlotIsParked(w, 0);
  }

  /** The run so far: the function was resumed at clock `now` with budget `us`, and never got into pause(). */
  ghost predicate Resumed(run: seq<World>, ops: seq<Op>, us: nat, now: nat) {
    && IsRun(run, ops) && |ops| >= 2 && ops[0] == DoLaunch(SPIN, 0, 0) && ops[1] == DoResume(0, us, 0)
    && Launched(run[1], now)
    && (forall l :: 2 <= l < |ops| ==> ops[l].Happens?)
    && (forall l :: 2 <= l < |run| ==> run[l].m.pc != Fun(ZeroDeadline))
  }

  lemma ResumedRun(us: nat, now: nat) returns (run: seq<World>, ops: seq<Op>)
    requires us < U64 && now < U64
    ensures Resumed(run, ops, us, now) && FirstSlice(Last(run).m, us, now) && Last(run).m.slice == NEW_SLICE
  {
    run, ops := LaunchedRun(now);
    EveryWorldIsSound(run, ops, |run| - 1);
    ResumedIsFirst(Last(run), us, now);
    Extended(run, ops, DoResume(0, us, 0));
    run, ops := run + [Perform(Last(run), DoResume(0, us, 0))], ops + [DoResume(0, us, 0)];
  }

  lemma EventExtends(run: seq<World>, ops: seq<Op>, us: nat, now: nat, e: Event) returns (run': seq<World>, ops': seq<Op>)
    requires Resumed(run, ops, us, now) && CanHappen(Last(run).m, e) && Step(Last(run).m, e).pc != Fun(ZeroDeadline)
    ensures Resumed(run', ops', us, now) && Last(run').m == Step(Last(run).m, e)
  {
    Extended(run, ops, Happens(e));
    run', ops' := run + [Perform(Last(run), Happens(e))], ops + [Happens(e)];
    assert run'[1] == run[1] && ops'[0] == ops[0] && ops'[1] == ops[1];
    forall l | 2 <= l < |run'|
      ensures run'[l].m.pc != Fun(ZeroDeadline)
    {
      assert l < |run| ==> run'[l] == run[l];
    }
    forall l | 2 <= l < |ops'|
      ensures ops'[l].Happens?
    {
      assert l < |ops| ==> ops'[l] == ops[l];
    }
  }

  /** The clock moves on to `at` before it is read for the deadline. */
  lemma LateRun(us: nat, now: nat, at: nat) returns (run: seq<World>, ops: seq<Op>)
    requires us < U64 && now <= at < U64
    ensures Resumed(run, ops, us, now) && FirstSlice(Last(run).m, us, at)
  {
    run, ops := ResumedRun(us, now);
    run, ops := EventExtends(run, ops, us, now, Clock(at));
  }

  /** The next step of the first slice: it can be taken, and is no step into pause(). */
  ghost predicate GoesOn(m: State, us: nat, at: nat) {
    var m' := MainStep(m, 0);
    var ok := CanHappen(m, Main(0)) && FirstSlice(m', us, at) && Rank(m'.pc) < Rank(m.pc);
    ok
  }

  lemma FirstGoesOn(m: State, us: nat, at: nat)
    requires Inv(m) && FirstSlice(m, us, at) && m.pc != Fun(OwnCode)
    ensures GoesOn(m, us, at)
  {
    MainStaysFirst(m, us, at);
    ProtocolGetsOn(m, 0);
  }

  lemma FirstIsNoPause(m: State, us: nat, at: nat)
    requires FirstSlice(m, us, at)
    ensures m.pc != Fun(ZeroDeadline)
  {
  }

  lemma MainGoesOn(run: seq<World>, ops: seq<Op>, us: nat, now: nat, at: nat)
    requires Resumed(run, ops, us, now) && FirstSlice(Last(run).m, us, at) && Last(run).m.pc != Fun(OwnCode)
    ensures GoesOn(Last(run).m, us, at) && MainStep(Last(run).m, 0).pc != Fun(ZeroDeadline)
  {
    Sound(run, ops, |run| - 1);
    FirstGoesOn(Last(run).m, us, at);
    FirstIsNoPause(MainStep(Last(run).m, 0), us, at);
  }

  /** The function gets to its own code. */
  lemma OwnCodeRun(us: nat, now: nat, at: nat) returns (run: seq<World>, ops: seq<Op>)
    requires us < U64 && now <= at < U64
    ensures Resumed(run, ops, us, now) && FirstSlice(Last(run).m, us, at) && Last(run).m.pc == Fun(OwnCode)
  {
    run, ops := LateRun(us, now, at);
    while Last(run).m.pc != Fun(OwnCode)
      invariant Resumed(run, ops, us, now) && FirstSlice(Last(run).m, us, at)
      decreases Rank(Last(run).m.pc)
    {
      MainGoesOn(run, ops, us, now, at);
      run, ops := EventExtends(run, ops, us, now, Main(0));
    }
  }

  lemma SpinSteps(m: State)
    requires FirstSlice(m, 0, 0) && m.pc == Fun(OwnCode)
    ensures MainStep(m, 0).fn.steps == 1 && MainStep(m, 0).us == 0 && MainStep(m, 0).pc == Fun(OwnCode)
  {
  }

  /** So a budget of 0 is not the no-op that the documentation says it is. */
  lemma ZeroBudgetRuns() returns (run: seq<World>, ops: seq<Op>)
    ensures Resumed(run, ops, 0, 0) && Last(run).m.us == 0 && Last(run).m.fn.steps == 1
  {
    run, ops := OwnCodeRun(0, 0, 0);
    SpinSteps(Last(run).m);
    run, ops := EventExtends(run, ops, 0, 0, Main(0));
  }

  // ---- Timeouts ----

  /** What the handler's pause leaves of the slice. */
  ghost predicate TimedOut(m: State, us: nat, at: nat) {
    m.us == us && m.now == at && !m.slice.called
  }

  lemma TickTimesOut(m: State, us: nat, at: nat)
    requires Inv(m) && FirstSlice(m, us, at) && m.pc == Fun(OwnCode) && Stamp(us, at) <= at
    ensures var m' := Step(Step(m, Tick), Deliver(0));
            && CanHappen(m, Tick) && Step(m, Tick).pc == Fun(OwnCode) && CanHappen(Step(m, Tick), Deliver(0))
            && m'.pc == Deschedule && m'.tls.task.errno.Some? && m'.taskCell == Free && TimedOut(m', us, at)
  {
    OwnCodeIsOpen(m);
    OwnCodeIsInTime(m);
    TickIsDue(m);
    HandlerPauses(Step(m, Tick), OwnCode, 0);
  }

  lemma DeschedulesPaused(m: State, us: nat, at: nat)
    requires m.pc == Deschedule && m.tls.task.errno.Some? && m.taskCell == Free && TimedOut(m, us, at)
    ensures var m' := MainStep(m, 0);
            && Enabled(m) && Enabled(m') && m'.pc.DescheduleEnd?
            && MainStep(m', 0).pc == Done(false) && TimedOut(MainStep(m', 0), us, at)
  {
  }

  lemma PausedRun(us: nat, now: nat, at: nat) returns (run: seq<World>, ops: seq<Op>)
    requires us < U64 && now <= at < U64 && Stamp(us, at) <= at
    ensures Resumed(run, ops, us, now) && TimedOut(Last(run).m, us, at)
    ensures Last(run).m.pc == Deschedule && Last(run).m.tls.task.errno.Some? && Last(run).m.taskCell == Free
  {
    run, ops := OwnCodeRun(us, now, at);
    Sound(run, ops, |run| - 1);
    TickTimesOut(Last(run).m, us, at);
    run, ops := EventExtends(run, ops, us, now, Tick);
    run, ops := EventExtends(run, ops, us, now, Deliver(0));
  }

  lemma DescheduledRun(us: nat, now: nat, at: nat) returns (run: seq<World>, ops: seq<Op>)
    requires us < U64 && now <= at < U64 && Stamp(us, at) <= at
    ensures Resumed(run, ops, us, now) && Last(run).m.pc == Done(false) && TimedOut(Last(run).m, us, at)
  {
    run, ops := PausedRun(us, now, at);
    DeschedulesPaused(Last(run).m, us, at);
    run, ops := EventExtends(run, ops, us, now, Main(0));
    run, ops := EventExtends(run, ops, us, now, Main(0));
  }

  lemma ResumedTimesOut(run: seq<World>, ops: seq<Op>, us: nat, now: nat)
    requires Resumed(run, ops, us, now) && Last(run).m.pc == Done(false)
    ensures TimesOut(run, ops, 1, |ops|, 0, us) && run[1].m.now == now
  {
    assert Starts(run[1], ops[1], 0, us);
  }

  /** A slice that begins at clock `now` and times out at clock `at`, when its deadline was taken. */
  lemma TimedOutRun(us: nat, now: nat, at: nat) returns (run: seq<World>, ops: seq<Op>)
    requires us < U64 && now <= at < U64 && Stamp(us, at) <= at
    ensures TimesOut(run, ops, 1, |ops|, 0, us) && run[1].m.now == now && TimedOut(Last(run).m, us, at)
  {
    run, ops := DescheduledRun(us, now, at);
    ResumedTimesOut(run, ops, us, now);
  }

  /** A timeout that is reported as a yield: at clock 0, with no budget. */
  lemma TimeoutCanLookLikeYield() returns (run: seq<World>, ops: seq<Op>)
    ensures TimesOut(run, ops, 1, |ops|, 0, 0) && Last(run).m.task.yielded
  {
    run, ops := TimedOutRun(0, 0, 0);
    PausedSlice(run, ops, |run| - 1);
  }

  /**
   A slice that gets less than its budget, since the sum wraps around: the clock has moved on
   between the call and the stamp, though at the call the sum still fitted.
   */
  lemma BudgetCanBeCutShort(now: nat, us: nat) returns (run: seq<World>, ops: seq<Op>)
    requires now < U64 && us < U64 && now + 2 * us * 1000 > U64
    ensures TimesOut(run, ops, 1, |ops|, 0, us) && run[1].m.now == now && Last(run).m.now < now + us * 1000
  {
    var at := if now + us * 1000 >= U64 then U64 - 1 else U64 - us * 1000;
    StampIsExactIff(us, at);
    run, ops := TimedOutRun(us, now, at);
  }

  /** When a caller can count on the budget, from the clock and the budget at the call. */
  lemma BudgetIsSureIff(now: nat, us: nat)
    requires now < U64 && us < U64
    ensures (forall run: seq<World>, ops: seq<Op>, j: nat, k: nat, i: nat ::
               TimesOut(run, ops, j, k, i, us) && run[j].m.now == now ==> run[k].m.now >= now + us * 1000)
       <==> now + 2 * us * 1000 <= U64
  {
    if now + 2 * us * 1000 <= U64 {
      forall run: seq<World>, ops: seq<Op>, j: nat, k: nat, i: nat | TimesOut(run, ops, j, k, i, us) && run[j].m.now == now
        ensures run[k].m.now >= now + us * 1000
      {
        BudgetFromTheCall(run, ops, j, k, i, us);
      }
    } else {
      var run, ops := BudgetCanBeCutShort(now, us);
    }
  }
}
