/**
 What libinger promises, for every run: every program, every number of timed
 functions, every budget, every clock reading, every tick, and every point at
 which the handler can land.
 */
module Theorems {
  import opened Common
  import opened Programs
  import opened Pools
  import opened Machine
  import opened MachineInvariant
  import opened MachineProofs
  import opened MachineFrame
  import opened Lifecycle
  import opened Accounting
  import opened Holdings
  import opened LifecycleProofs

  // ---- Safety at every interleaving point ----

  lemma Sound(run: seq<World>, ops: seq<Op>, k: nat)
    requires IsRun(run, ops) && k < |run|
    ensures !run[k].fault && Inv(run[k].m)
  {
    EveryWorldIsSound(run, ops, k);
  }

  lemma InvIsNoCrash(m: State)
    requires Inv(m)
    ensures !m.pc.Crash?
  {
  }

  /**
   No assertion, expect(), unchecked unwrap, borrow or abort() ever fails, but for the
   expect() on assign_group(), see LaunchFailsIffAllGroupsAreHeld, and on assign_signal(),
   see Signals.AssignFailsIffAllSignalsAreHeld.
   */
  lemma NothingEverFails(run: seq<World>, ops: seq<Op>, k: nat)
    requires IsRun(run, ops) && k < |run|
    ensures !run[k].fault && !run[k].m.pc.Crash?
  {
    Sound(run, ops, k);
    InvIsNoCrash(run[k].m);
  }

  lemma OutsideIsShared(m: State)
    requires Inv(m) && (m.pc.Idle? || m.pc.Done?)
    ensures m.group == Shared
  {
  }

  /** Whoever launches, resumes or drops is outside every preemptible function, as all three assert. */
  lemma CallersAreNotPreemptible(run: seq<World>, ops: seq<Op>, k: nat)
    requires IsRun(run, ops) && k < |run| && (run[k].current.None? || run[k].m.pc.Done?)
    ensures run[k].m.group == Shared
  {
    EveryWorldIsSound(run, ops, k);
    OutsideIsShared(run[k].m);
  }

  lemma DeferredIsMasked(m: State)
    requires Inv(m)
    ensures m.tls.deferred ==> m.blocked
  {
  }

  /** DEFERRED is only ever set while the preemption signal is blocked. */
  lemma DeferredOnlyWhenMasked(run: seq<World>, ops: seq<Op>, k: nat)
    requires IsRun(run, ops) && k < |run|
    ensures run[k].m.tls.deferred ==> run[k].m.blocked
  {
    EveryWorldIsSound(run, ops, k);
    DeferredIsMasked(run[k].m);
  }

  lemma OwnCodeIsOpen(m: State)
    requires Inv(m) && m.pc == Fun(OwnCode)
    ensures !m.blocked && !m.tls.deferred && m.tls.signal && m.group == Private(m.gid) && !Owing(m)
  {
  }

  /** While the function runs its own code, it can be preempted at once. */
  lemma OwnCodeIsPreemptible(run: seq<World>, ops: seq<Op>, k: nat)
    requires IsRun(run, ops) && k < |run| && run[k].m.pc == Fun(OwnCode)
    ensures !run[k].m.blocked && !run[k].m.tls.deferred && run[k].m.tls.signal
    ensures run[k].m.group == Private(run[k].m.gid)
  {
    Sound(run, ops, k);
    OwnCodeIsOpen(run[k].m);
  }

  /** The handler only ever runs over the timed function, and always knows the signal. */
  lemma DeliverableIsRelevant(m: State)
    requires Inv(m) && m.pending && !m.blocked
    ensures m.pc.Fun? && m.tls.signal && m.signalCell != Writing && m.taskCell == Free
  {
    if !m.pc.Fun? {
      MaskedOutside(m);
    }
  }

  /**
   Whenever the handler pauses, there is a call site to return to, no errno saved
   yet and a stamped deadline, and the interrupted code borrows neither TASK nor
   SIGNAL.  It is never run for a signal it does not know.
   */
  lemma HandlerIsSafe(run: seq<World>, ops: seq<Op>, k: nat, junk: int)
    requires IsRun(run, ops) && k < |run| && CanHappen(run[k].m, Deliver(junk))
    ensures run[k].m.tls.signal && run[k].m.pc.Fun?
    ensures run[k].m.group != Shared && run[k].m.now >= run[k].m.tls.deadline ==>
              && run[k].m.tls.task.checkpoint.Some? && run[k].m.tls.task.checkpoint.value.code == CallSite
              && run[k].m.tls.task.errno.None?
              && run[k].m.slice.stamped
              && run[k].m.signalCell == Free && run[k].m.taskCell == Free
  {
    EveryWorldIsSound(run, ops, k);
    DeliverableIsRelevant(run[k].m);
    if run[k].m.group != Shared && run[k].m.now >= run[k].m.tls.deadline {
      DueIsPausable(run[k].m, run[k].m.pc.f);
    }
  }

  /** A slice is never stuck: either a mainline step or the handler can go next. */
  lemma SliceIsNeverStuck(run: seq<World>, ops: seq<Op>, k: nat, junk: int)
    requires IsRun(run, ops) && k < |run| && run[k].current.Some? && !run[k].m.pc.Done?
    ensures CanHappen(run[k].m, Main(junk)) || CanHappen(run[k].m, Deliver(junk))
  {
    EveryWorldIsSound(run, ops, k);
  }

  // ---- No lost preemption ----

  /** A pause is owed: pause() was called, or a tick was handled at or past the deadline and deferred. */
  predicate Owing(m: State) {
    m.pc.Fun? && (m.slice.called || m.slice.overdue)
  }

  /** Until control is back at the call site, none of these events is a step of the function's own code. */
  ghost predicate QuietUntilPaused(m: State, events: seq<Event>)
    decreases |events|
  {
    m.pc == Deschedule ||
    (m.pc != Fun(OwnCode) && (events == [] || QuietUntilPaused(Step(m, events[0]), events[1..])))
  }

  lemma DisableKeepsOwing(m: State, f: FunPc, junk: int)
    requires At(m, f) && Owing(m) && After(f) && f != Exit
    ensures Owing(FunStep(m, f, junk))
  {
    DisableKeepsInv(m, f, junk);
    assert DisableStep(m, f).slice == m.slice;
  }

  lemma EnableKeepsOwing(m: State, f: FunPc, junk: int)
    requires At(m, f) && Owing(m) && Enabled(m) && (HookMasked(f) || f.Unblocked? || f.SwapDeferred?)
    ensures Owing(FunStep(m, f, junk))
  {
    EnableKeepsInv(m, f, junk);
    assert EnableStep(m, f, junk).slice == m.slice;
  }

  /** Mainline steps of the function, where a pause can be owed, do not cancel it. */
  lemma FunKeepsOwing(m: State, f: FunPc, junk: int)
    requires At(m, f) && Owing(m) && Enabled(m) && f != Exit
    ensures Owing(FunStep(m, f, junk))
  {
    if After(f) {
      DisableKeepsOwing(m, f, junk);
    } else if HookMasked(f) || f.Unblocked? || f.SwapDeferred? {
      EnableKeepsOwing(m, f, junk);
    } else {
      FunctionKeepsInv(m, f, junk);
    }
  }

  lemma MainKeepsOwing(m: State, junk: int)
    requires Inv(m) && Owing(m) && Enabled(m)
    ensures Owing(MainStep(m, junk)) || MainStep(m, junk).pc == Deschedule
  {
    if m.pc.f == Exit {
      Exits(m, junk);
    } else {
      FunKeepsOwing(m, m.pc.f, junk);
    }
  }

  lemma HandlerKeepsOwing(m: State, junk: int)
    requires Inv(m) && Owing(m) && CanHappen(m, Deliver(junk))
    ensures Owing(Step(m, Deliver(junk))) || Step(m, Deliver(junk)).pc == Deschedule
  {
    if m.group == Shared {
      HandlerDefers(m, m.pc.f, junk);
    } else {
      HandlerPauses(m, m.pc.f, junk);
    }
  }

  lemma OwingIsKept(m: State, e: Event)
    requires Inv(m) && Owing(m) && CanHappen(m, e)
    ensures Owing(Step(m, e)) || Step(m, e).pc == Deschedule
  {
    match e
    case Main(junk) => MainKeepsOwing(m, junk);
    case Deliver(junk) => HandlerKeepsOwing(m, junk);
    case Tick =>
    case Clock(_) =>
  }

  lemma {:induction false} OwedPauseComesFirst(m: State, events: seq<Event>)
    requires Inv(m) && Owing(m) && Possible(m, events)
    ensures QuietUntilPaused(m, events)
    decreases |events|
  {
    if m.pc == Fun(OwnCode) {
      OwnCodeIsOpen(m);
    }
    if events != [] {
      OwingIsKept(m, events[0]);
      if Step(m, events[0]).pc != Deschedule {
        StepKeepsInv(m, events[0]);
        OwedPauseComesFirst(Step(m, events[0]), events[1..]);
      }
    }
  }

  /**
   No lost preemption: once a tick has been handled at or past the deadline, or
   pause() has been called, the function takes no further step of its own code
   before it is back at the call site, whatever happens next.
   */
  lemma NoPreemptionIsLost(run: seq<World>, ops: seq<Op>, k: nat, junk: int, events: seq<Event>)
    requires IsRun(run, ops) && k < |run| && CanHappen(run[k].m, Deliver(junk))
    requires run[k].m.now >= run[k].m.tls.deadline
    requires Possible(Step(run[k].m, Deliver(junk)), events)
    ensures QuietUntilPaused(Step(run[k].m, Deliver(junk)), events)
  {
    var m := run[k].m;
    EveryWorldIsSound(run, ops, k);
    DeliverableIsRelevant(m);
    if m.group == Shared {
      HandlerDefers(m, m.pc.f, junk);
      HandlerKeepsInv(m, junk);
      OwedPauseComesFirst(Step(m, Deliver(junk)), events);
    } else {
      HandlerPauses(m, m.pc.f, junk);
    }
  }

  // ---- pause() ----

  lemma CalledWaitsInHook(m: State, junk: int)
    requires Inv(m) && m.pc.Fun? && m.slice.called && CanHappen(m, Deliver(junk)) && m.group != Shared
    ensures m.pc == Fun(Unblocked(Hook)) && m.tls.deadline == 0
  {
  }

  /** The pause that pause() asks for is taken in the hook when that call returns, and is marked as a yield. */
  lemma PauseIsTakenInHook(run: seq<World>, ops: seq<Op>, k: nat, junk: int)
    requires IsRun(run, ops) && k < |run| && CanHappen(run[k].m, Deliver(junk))
    requires run[k].m.slice.called && run[k].m.group != Shared
    ensures run[k].m.pc == Fun(Unblocked(Hook))
    ensures var m' := Step(run[k].m, Deliver(junk));
            && m'.pc == Deschedule && m'.tls.task.errno.Some? && m'.tls.task.yielded
            && m'.fn.pausesTaken == run[k].m.fn.pausesTaken + 1 == m'.fn.pauseCalls
  {
    Sound(run, ops, k);
    DeliverableIsRelevant(run[k].m);
    CalledWaitsInHook(run[k].m, junk);
    HandlerPauses(run[k].m, Unblocked(Hook), junk);
  }

  lemma CallsAreTaken(m: State)
    requires Inv(m) && m.pc.Fun?
    ensures m.fn.pauseCalls == m.fn.pausesTaken + (if m.slice.called then 1 else 0)
    ensures m.slice.called ==> m.pc != Fun(OwnCode) && m.pc != Fun(LibraryCode) && !After(m.pc.f)
  {
  }

  lemma CallsEqualOutside(m: State)
    requires Inv(m) && !m.pc.Fun? && !m.pc.Idle?
    ensures m.fn.pauseCalls == m.fn.pausesTaken
  {
  }

  /** Each call of pause() causes exactly one pause: none is skipped, merged or repeated, whatever ticks arrive. */
  lemma EachPauseCallPausesOnce(run: seq<World>, ops: seq<Op>, k: nat, i: nat)
    requires IsRun(run, ops) && k < |run| && i < |run[k].entries| && run[k].entries[i].linger.Live?
    ensures var w := run[k];
            if !IsCurrent(w, i) then w.entries[i].fn.pauseCalls == w.entries[i].fn.pausesTaken
            else if w.m.pc.Fun? then
              && w.m.fn.pauseCalls == w.m.fn.pausesTaken + (if w.m.slice.called then 1 else 0)
              && (w.m.slice.called ==> w.m.pc != Fun(OwnCode) && w.m.pc != Fun(LibraryCode))
            else w.m.fn.pauseCalls == w.m.fn.pausesTaken
  {
    EveryWorldIsSound(run, ops, k);
    assert TimedOk(run[k].entries[i], IsCurrent(run[k], i));
    if IsCurrent(run[k], i) {
      if run[k].m.pc.Fun? {
        CallsAreTaken(run[k].m);
      } else {
        CallsEqualOutside(run[k].m);
      }
    }
  }

  // ---- Budgets ----

  /** A paused slice: its stamp, when it was paused, and why. */
  lemma PausedSlice(run: seq<World>, ops: seq<Op>, k: nat)
    requires IsRun(run, ops) && k < |run| && run[k].m.pc == Done(false)
    ensures var m := run[k].m;
            && m.slice.at <= m.slice.pausedAt <= m.now
            && (!m.slice.called ==> m.slice.pausedAt >= Stamp(m.us, m.slice.at))
            && (m.task.yielded <==> m.slice.called || Stamp(m.us, m.slice.at) == 0)
  {
    Sound(run, ops, k);
    DoneSliceIsOk(run[k].m);
  }

  lemma DoneSliceIsOk(m: State)
    requires Inv(m) && m.pc == Done(false)
    ensures SliceOk(m, m.task.yielded)
  {
  }

  /** When the sum fits in 64 bits, a slice not ended by pause() gets its whole budget. */
  lemma BudgetIsHonoured(run: seq<World>, ops: seq<Op>, k: nat)
    requires IsRun(run, ops) && k < |run| && run[k].m.pc == Done(false) && !run[k].m.slice.called
    requires run[k].m.slice.at + run[k].m.us * 1000 < U64
    ensures run[k].m.slice.pausedAt >= run[k].m.slice.at + run[k].m.us * 1000
  {
    PausedSlice(run, ops, k);
  }

  lemma FinishedWithoutPause(m: State)
    requires Inv(m) && m.pc == Done(true)
    ensures !m.slice.called
  {
  }

  /**
   With the largest budget, a slice runs the function to completion, unless it called
   pause() or was still running at the last reading of a 64-bit clock.
   */
  lemma LargestBudgetIsUnlimited(run: seq<World>, ops: seq<Op>, k: nat)
    requires IsRun(run, ops) && k < |run| && run[k].m.pc.Done? && run[k].m.us == U64 - 1
    ensures run[k].m.slice.called ==> run[k].m.pc == Done(false)
    ensures run[k].m.pc == Done(false) ==> run[k].m.slice.called || run[k].m.slice.pausedAt == U64 - 1
  {
    if run[k].m.pc == Done(false) {
      PausedSlice(run, ops, k);
      ClockIsBounded(run, ops, k);
    } else {
      Sound(run, ops, k);
      FinishedWithoutPause(run[k].m);
    }
  }

  lemma LargestBudgetRunsOut(run: seq<World>, ops: seq<Op>, k: nat)
    requires IsRun(run, ops) && k < |run| && run[k].m.pc == Fun(OwnCode)
    requires run[k].m.us == U64 - 1
    ensures run[k].m.tls.deadline == U64 - 1
  {
    Sound(run, ops, k);
    OwnCodeIsStamped(run[k].m);
  }

  lemma OwnCodeIsStamped(m: State)
    requires Inv(m) && m.pc == Fun(OwnCode)
    ensures m.tls.deadline == Stamp(m.us, m.slice.at)
  {
  }

  /** A deadline is the budget past now exactly when the sum fits; otherwise it wraps, or stays a raw budget. */
  lemma StampIsExactIff(us: nat, now: nat)
    requires us < U64 && now < U64
    ensures Stamp(us, now) == now + us * 1000 <==> now + us * 1000 < U64
    ensures us * 1000 >= U64 ==> Stamp(us, now) == us
    ensures us * 1000 < U64 <= now + us * 1000 ==> Stamp(us, now) == now + us * 1000 - U64
  {
    if us * 1000 < U64 <= now + us * 1000 {
      assert (now + us * 1000) % U64 == now + us * 1000 - U64;
    }
  }

  /** The one way a timeout is reported as a yield: a deadline that comes out as zero. */
  lemma StampIsZeroIff(us: nat, now: nat)
    requires us < U64 && now < U64
    ensures Stamp(us, now) == 0 <==> (us == 0 && now == 0) || now + us * 1000 == U64
  {
    if us * 1000 < U64 <= now + us * 1000 {
      assert (now + us * 1000) % U64 == now + us * 1000 - U64;
    }
  }

  predicate Bounded(m: State) {
    m.now < U64 && m.us < U64
  }

  lemma BeginKeepsBounds(w: World, i: nat, us: nat, junk: int)
    requires Bounded(w.m) && us < U64 && i < |w.entries|
    ensures Bounded(Begin(w, i, us, junk).m)
  {
  }

  lemma LaunchKeepsBounds(w: World, program: Program, us: nat, junk: int)
    requires Bounded(w.m) && us < U64
    ensures Bounded(Launch(w, program, us, junk).m)
  {
    var g := TryAcquire(w.groups, GroupBuilder(w.limit));
    if g.1.Some? {
      BeginKeepsBounds(Construct(w.(groups := g.0), program, g.1.value), |w.entries|, us, junk);
    }
  }

  lemma CallsKeepBounds(w: World, op: Op)
    requires Allowed(w, op) && !op.Happens? && Bounded(w.m)
    ensures Bounded(Perform(w, op).m)
  {
    match op
    case DoLaunch(program, us, junk) => LaunchKeepsBounds(w, program, us, junk);
    case DoResume(i, us, junk) => BeginKeepsBounds(w, i, us, junk);
    case EndSlice =>
    case DoDrop(_) =>
    case DoCancel(_) =>
    case DoErase(_) =>
  }

  lemma ClockIsBounded(run: seq<World>, ops: seq<Op>, k: nat)
    requires IsRun(run, ops) && k < |run|
    ensures run[k].m.now < U64 && run[k].m.us < U64
  {
    for j := 0 to k
      invariant run[j].m.now < U64 && run[j].m.us < U64
    {
      if ops[j].Happens? {
        Sound(run, ops, j);
        StepFrame(run[j].m, ops[j].event);
      } else {
        CallsKeepBounds(run[j], ops[j]);
      }
    }
  }

  /**
   A paused function says it yielded exactly if it called pause(), except when the
   stamp itself came out as zero: at the epoch with no budget, or on wrap-around.
   */
  lemma YieldedIffPauseCalled(run: seq<World>, ops: seq<Op>, k: nat)
    requires IsRun(run, ops) && k < |run| && run[k].m.pc == Done(false)
    ensures var m := run[k].m;
            (m.task.yielded <==> m.slice.called) <==>
            (m.slice.called || !((m.us == 0 && m.slice.at == 0) || m.slice.at + m.us * 1000 == U64))
  {
    PausedSlice(run, ops, k);
    ClockIsBounded(run, ops, k);
    StampIsZeroIff(run[k].m.us, run[k].m.slice.at);
  }

  /** When poll() does not wake a function that timed out: exactly when its stamp came out as zero. */
  lemma WakeIsLostIff(run: seq<World>, ops: seq<Op>, k: nat)
    requires IsRun(run, ops) && k < |run| && run[k].m.pc == Done(false) && !run[k].m.slice.called
    ensures var m := run[k].m;
            m.task.yielded <==> (m.us == 0 && m.slice.at == 0) || m.slice.at + m.us * 1000 == U64
  {
    YieldedIffPauseCalled(run, ops, k);
  }

  // ---- Transparency ----

  /** The function of entry `i`, which the machine has while it runs. */
  function FnOf(w: World, i: nat): Fn
    requires i < |w.entries|
  {
    if IsCurrent(w, i) then w.m.fn else w.entries[i].fn
  }

  /** What entry `i`'s function would see if it ran now: nothing before it is called or after it has returned. */
  function Observes(w: World, i: nat): Option<View>
    requires i < |w.entries|
  {
    if IsCurrent(w, i) then
      if w.m.pc.Fun? && !Before(w.m.pc.f) && !After(w.m.pc.f)
      then Some(Seen(w.m.pc.f, w.m.regs, w.m.errno, w.m.sharedErrno)) else None
    else if w.entries[i].linger.Live? then PausedView(w.entries[i].linger.continuation.task)
    else None
  }

  function PausedView(task: Task): Option<View> {
    if task.errno.Some? && task.checkpoint.Some? && task.checkpoint.value.code.Interrupted? &&
       !Before(task.checkpoint.value.code.f) && !After(task.checkpoint.value.code.f)
    then Some(Seen(task.checkpoint.value.code.f, task.checkpoint.value.code.regs, task.errno.value, 0))
    else None
  }

  lemma RunningIsFaithful(m: State)
    requires Inv(m) && m.pc.Fun?
    ensures Faithful(m.fn, m.pc.f, m.regs, m.errno, m.sharedErrno)
  {
  }

  lemma PausedIsFaithful(fn: Fn, task: Task)
    requires HoldsPaused(fn, task) && PausedView(task).Some?
    ensures PausedView(task).value == Uninterrupted(fn.program, fn.startErrno, fn.steps)
  {
    assert task.checkpoint.value.code.f != LibraryCode && !Pausing(task.checkpoint.value.code.f);
  }

  /**
   Slicing is invisible: wherever a function has got to, over all its slices, it sees
   what it would see after as many steps of its uninterrupted run, errno included.
   */
  lemma SlicingIsTransparent(run: seq<World>, ops: seq<Op>, k: nat, i: nat)
    requires IsRun(run, ops) && k < |run| && i < |run[k].entries| && Observes(run[k], i).Some?
    ensures var fn := FnOf(run[k], i);
            fn.invoked == 1 && Observes(run[k], i).value == Uninterrupted(fn.program, fn.startErrno, fn.steps)
  {
    var w := run[k];
    EveryWorldIsSound(run, ops, k);
    assert TimedOk(w.entries[i], IsCurrent(w, i));
    if IsCurrent(w, i) {
      RunningIsFaithful(w.m);
    } else {
      PausedIsFaithful(w.entries[i].fn, w.entries[i].linger.continuation.task);
    }
  }

  lemma InvokedOnce(m: State)
    requires Inv(m) && !m.pc.Idle?
    ensures m.fn.invoked <= 1
  {
  }

  /** What an entry has delivered, and what that says of its function. */
  ghost predicate DeliveredRight(e: Timed) {
    && |e.delivered| <= 1
    && (e.delivered != [] ==>
          && e.fn.invoked == 1
          && Uninterrupted(e.fn.program, e.fn.startErrno, e.fn.steps).at == Ended(e.delivered[0])
          && (e.linger.Completion? ==> e.delivered == [Value(e.linger.value)]))
    && (e.linger.Poison? ==> e.delivered != [] && e.delivered[0].Panic?)
    && (e.linger.Live? ==> e.delivered == [])
    && (e.isComplete <==> e.linger.Completion?)
  }

  lemma EntryDeliversRight(e: Timed, running: bool)
    requires TimedOk(e, running)
    ensures DeliveredRight(e)
  {
  }

  /** The function is called at most once, and its result delivered at most once: the one its own run ends with. */
  lemma DeliveredOnceAndRight(run: seq<World>, ops: seq<Op>, k: nat, i: nat)
    requires IsRun(run, ops) && k < |run| && i < |run[k].entries|
    ensures FnOf(run[k], i).invoked <= 1 && DeliveredRight(run[k].entries[i])
  {
    EveryWorldIsSound(run, ops, k);
    EntryDeliversRight(run[k].entries[i], IsCurrent(run[k], i));
    if IsCurrent(run[k], i) {
      InvokedOnce(run[k].m);
    }
  }

  /** Later worlds hold the same function, further on: never restarted, never rewound. */
  ghost predicate Follows(fn: Fn, fn': Fn) {
    fn'.program == fn.program &&
    (fn.invoked == 1 ==> fn'.invoked == 1 && fn'.startErrno == fn.startErrno && fn'.steps >= fn.steps)
  }

  lemma EventFollows(w: World, e: Event, i: nat)
    requires Inv(w.m) && CanHappen(w.m, e) && i < |w.entries|
    ensures Follows(FnOf(w, i), FnOf(w.(m := Step(w.m, e)), i))
  {
    StepFrame(w.m, e);
  }

  lemma EndFollows(w: World, i: nat)
    requires CanEnd(w) && !End(w).fault && i < |w.entries|
    ensures |End(w).entries| == |w.entries| && Follows(FnOf(w, i), FnOf(End(w), i))
  {
  }

  lemma BeginFollows(w: World, j: nat, us: nat, junk: int, i: nat)
    requires w.current.None? && i < |w.entries| && j < |w.entries|
    ensures |Begin(w, j, us, junk).entries| == |w.entries| && Follows(FnOf(w, i), FnOf(Begin(w, j, us, junk), i))
  {
  }

  lemma LaunchFollows(w: World, program: Program, us: nat, junk: int, i: nat)
    requires w.current.None? && i < |w.entries|
    ensures i < |Launch(w, program, us, junk).entries| && Follows(FnOf(w, i), FnOf(Launch(w, program, us, junk), i))
  {
    var g := TryAcquire(w.groups, GroupBuilder(w.limit));
    if g.1.Some? {
      BeginFollows(Construct(w.(groups := g.0), program, g.1.value), |w.entries|, us, junk, i);
    }
  }

  lemma CallFollows(w: World, op: Op, i: nat)
    requires Allowed(w, op) && !op.Happens? && !op.EndSlice? && i < |w.entries|
    ensures i < |Perform(w, op).entries| && Follows(FnOf(w, i), FnOf(Perform(w, op), i))
  {
    match op
    case DoLaunch(program, us, junk) => LaunchFollows(w, program, us, junk, i);
    case DoResume(j, us, junk) => BeginFollows(w, j, us, junk, i);
    case DoDrop(_) =>
    case DoCancel(_) =>
    case DoErase(_) =>
  }

  lemma PerformFollows(w: World, op: Op, i: nat)
    requires WorldInv(w) && Allowed(w, op) && i < |w.entries|
    ensures i < |Perform(w, op).entries| && Follows(FnOf(w, i), FnOf(Perform(w, op), i))
  {
    if op.Happens? {
      EventFollows(w, op.event, i);
    } else if op.EndSlice? {
      PerformKeepsInv(w, op);
      EndFollows(w, i);
    } else {
      CallFollows(w, op, i);
    }
  }

  /**
   The slices of a function, one after another, are one run: with
   SlicingIsTransparent, what it has done so far is a prefix of its uninterrupted run.
   */
  lemma SlicesContinue(run: seq<World>, ops: seq<Op>, j: nat, k: nat, i: nat)
    requires IsRun(run, ops) && j <= k < |run| && i < |run[j].entries|
    ensures i < |run[k].entries| && Follows(FnOf(run[j], i), FnOf(run[k], i))
  {
    for l := j to k
      invariant i < |run[l].entries| && Follows(FnOf(run[j], i), FnOf(run[l], i))
    {
      EveryWorldIsSound(run, ops, l);
      PerformFollows(run[l], ops[l], i);
    }
  }

  // ---- Resources ----

  /**
   Clean slate: every thread-control block that is not installed has no bootstrap, a
   default task, no signal and no deferral, however the last slice on it ended; and
   every continuation that is not running has its block.
   */
  lemma UninstalledBlocksAreClean(run: seq<World>, ops: seq<Op>, k: nat)
    requires IsRun(run, ops) && k < |run|
    ensures forall t: nat :: t < run[k].limit && t !in RunningTcb(run[k]) ==> t in run[k].parked && Clean(run[k].parked[t])
    ensures forall i :: 0 <= i < |run[k].entries| && run[k].entries[i].linger.Live? && !IsCurrent(run[k], i) ==>
              run[k].entries[i].linger.continuation.tls.Some?
  {
    EveryWorldIsSound(run, ops, k);
    forall i | 0 <= i < |run[k].entries| && run[k].entries[i].linger.Live? && !IsCurrent(run[k], i)
      ensures run[k].entries[i].linger.continuation.tls.Some?
    {
      assert TimedOk(run[k].entries[i], IsCurrent(run[k], i));
    }
  }

  /**
   Each live continuation that is not running owns a group, a thread-control block and,
   exactly when it has started and not finished, a stack.
   */
  lemma LiveOwnsOneOfEach(run: seq<World>, ops: seq<Op>, k: nat, i: nat)
    requires IsRun(run, ops) && k < |run| && i < |run[k].entries|
    requires run[k].entries[i].linger.Live? && !IsCurrent(run[k], i)
    ensures var c, fn := run[k].entries[i].linger.continuation, run[k].entries[i].fn;
            && c.tls.Some? && (c.task.checkpoint.Some? <==> c.task.errno.Some?)
            && (c.task.checkpoint.None? ==> fn.invoked == 0)
  {
    EveryWorldIsSound(run, ops, k);
    assert TimedOk(run[k].entries[i], IsCurrent(run[k], i));
  }

  /** What entry `i` owns: while it runs, its block is the installed one and its stack the machine's. */
  function TcbOf(w: World, i: nat): Option<nat>
    requires i < |w.entries| && w.entries[i].linger.Live?
  {
    if IsCurrent(w, i) then Some(w.current.value.tcb) else w.entries[i].linger.continuation.tls
  }

  function OwnedStack(w: World, i: nat): Option<nat>
    requires i < |w.entries| && w.entries[i].linger.Live?
  {
    if IsCurrent(w, i) then Stack(w.m) else StackOf(w.entries[i].linger.continuation.task.checkpoint)
  }

  lemma GroupsDiffer(w: World, i: nat, j: nat)
    requires GroupsOk(w) && i < j < |w.entries| && w.entries[i].linger.Live? && w.entries[j].linger.Live?
    ensures w.entries[i].linger.continuation.group != w.entries[j].linger.continuation.group
  {
    var g := w.entries[i].linger.continuation.group;
    HeldPair(w.entries, OwnsGroup, i, j);
    BuiltGroups(w.limit, w.groups.calls, g);
    assert (OwnsGroup(w.entries[i]) + OwnsGroup(w.entries[j]))[g] <= Held(w.entries, OwnsGroup)[g] <= 1;
  }

  lemma TcbsDiffer(w: World, i: nat, j: nat)
    requires TcbsOk(w) && i < |w.entries| && j < |w.entries| && i != j && !IsCurrent(w, j)
    requires w.entries[i].linger.Live? && w.entries[j].linger.Live? && TcbOf(w, i).Some?
    ensures TcbOf(w, i) != TcbOf(w, j)
  {
    var t := TcbOf(w, i).value;
    BuiltFresh(w.limit, t);
    HeldMember(w.entries, OwnsTcb, j);
    assert (Held(w.entries, OwnsTcb) + RunningTcb(w))[t] <= 1;
    if !IsCurrent(w, i) {
      if i < j { HeldPair(w.entries, OwnsTcb, i, j); } else { HeldPair(w.entries, OwnsTcb, j, i); }
      assert (OwnsTcb(w.entries[i]) + OwnsTcb(w.entries[j]))[t] <= Held(w.entries, OwnsTcb)[t];
    }
  }

  lemma StacksDiffer(w: World, i: nat, j: nat)
    requires StacksOk(w) && i < |w.entries| && j < |w.entries| && i != j && !IsCurrent(w, j)
    requires w.entries[i].linger.Live? && w.entries[j].linger.Live? && OwnedStack(w, i).Some?
    ensures OwnedStack(w, i) != OwnedStack(w, j)
  {
    var s := OwnedStack(w, i).value;
    BuiltFresh(w.limit, s);
    HeldMember(w.entries, OwnsStack, j);
    assert (Held(w.entries, OwnsStack) + One(Stack(w.m)))[s] <= 1;
    if !IsCurrent(w, i) {
      if i < j { HeldPair(w.entries, OwnsStack, i, j); } else { HeldPair(w.entries, OwnsStack, j, i); }
      assert (OwnsStack(w.entries[i]) + OwnsStack(w.entries[j]))[s] <= Held(w.entries, OwnsStack)[s];
    }
  }

  /** No two live continuations, the running one included, own the same group, block or stack. */
  lemma OwnershipIsExact(run: seq<World>, ops: seq<Op>, k: nat, i: nat, j: nat)
    requires IsRun(run, ops) && k < |run| && i < j < |run[k].entries|
    requires run[k].entries[i].linger.Live? && run[k].entries[j].linger.Live?
    ensures run[k].entries[i].linger.continuation.group != run[k].entries[j].linger.continuation.group
    ensures TcbOf(run[k], i).Some? && TcbOf(run[k], j).Some? && TcbOf(run[k], i) != TcbOf(run[k], j)
    ensures OwnedStack(run[k], i).Some? && OwnedStack(run[k], j).Some? ==> OwnedStack(run[k], i) != OwnedStack(run[k], j)
  {
    var w := run[k];
    EveryWorldIsSound(run, ops, k);
    assert TimedOk(w.entries[i], IsCurrent(w, i)) && TimedOk(w.entries[j], IsCurrent(w, j));
    var a, b := if IsCurrent(w, j) then j else i, if IsCurrent(w, j) then i else j;
    GroupsDiffer(w, i, j);
    TcbsDiffer(w, a, b);
    if OwnedStack(w, a).Some? {
      StacksDiffer(w, a, b);
    }
  }

  lemma AssignedGroup(w: World, g: nat)
    requires GroupsOk(w) && TryAcquire(w.groups, GroupBuilder(w.limit)).1 == Some(g)
    ensures g !in Held(w.entries, OwnsGroup)
  {
    GroupAssignment(w);
    var groups := TryAcquire(w.groups, GroupBuilder(w.limit)).0;
    BuiltGroups(w.limit, groups.calls, g);
    assert (multiset(groups.free) + (Held(w.entries, OwnsGroup) + One(Some(g))))[g] <= 1;
  }

  /** No group is handed out while its libraries hold a half-run function, or while anyone else has it. */
  lemma AssignedGroupIsClean(run: seq<World>, ops: seq<Op>, k: nat, g: nat)
    requires IsRun(run, ops) && k < |run|
    requires TryAcquire(run[k].groups, GroupBuilder(run[k].limit)).1 == Some(g)
    ensures g !in run[k].dirty
    ensures forall i :: 0 <= i < |run[k].entries| && run[k].entries[i].linger.Live? ==>
              run[k].entries[i].linger.continuation.group != g
  {
    var w := run[k];
    EveryWorldIsSound(run, ops, k);
    AssignedGroup(w, g);
    HalfRunIsHeld(w.entries);
    forall i | 0 <= i < |w.entries| && w.entries[i].linger.Live?
      ensures w.entries[i].linger.continuation.group != g
    {
      HeldMember(w.entries, OwnsGroup, i);
      assert w.entries[i].linger.continuation.group in OwnsGroup(w.entries[i]);
    }
  }

  /** Between slices, a group holds a half-run function exactly if the continuation that owns it is paused. */
  lemma HalfRunIffPaused(run: seq<World>, ops: seq<Op>, k: nat, i: nat)
    requires IsRun(run, ops) && k < |run| && run[k].current.None?
    requires i < |run[k].entries| && run[k].entries[i].linger.Live?
    ensures run[k].entries[i].linger.continuation.group in run[k].dirty <==>
            run[k].entries[i].linger.continuation.task.errno.Some?
  {
    EveryWorldIsSound(run, ops, k);
    assert TimedOk(run[k].entries[i], IsCurrent(run[k], i));
    HalfRunOfEntry(run[k], i);
  }

  lemma HalfRunOfEntry(w: World, i: nat)
    requires GroupsOk(w) && DirtyOk(w) && i < |w.entries| && w.entries[i].linger.Live?
    ensures w.entries[i].linger.continuation.group in w.dirty <==> OwnsHalfRun(w.entries[i]) != multiset{}
  {
    var e := w.entries[i];
    var g := e.linger.continuation.group;
    HeldMember(w.entries, OwnsHalfRun, i);
    if OwnsHalfRun(e) == multiset{} {
      var gone := e.(linger := Dropped);
      HeldSame(w.entries, OwnsHalfRun, i, gone);
      HeldLoses(w.entries, OwnsGroup, i, gone);
      HalfRunIsHeld(w.entries[i := gone]);
      GroupsAreDistinct(w, g);
      assert Held(w.entries[i := gone], OwnsGroup)[g] == 0;
    }
  }

  /** After preallocation, the builders of stacks and thread-control blocks are never called again. */
  lemma PoolsNeverGrow(run: seq<World>, ops: seq<Op>, k: nat)
    requires IsRun(run, ops) && k < |run|
    ensures run[k].m.stacks.calls == run[k].limit && run[k].tcbs.calls == run[k].limit
  {
    EveryWorldIsSound(run, ops, k);
  }

  lemma LaunchAddsIffAssigned(w: World, program: Program, us: nat, junk: int)
    ensures |Launch(w, program, us, junk).entries| == |w.entries| <==> TryAcquire(w.groups, GroupBuilder(w.limit)).1.None?
  {
  }

  /** launch() fails exactly when as many functions as there are groups are live. */
  lemma LaunchFailsIffAllGroupsAreHeld(run: seq<World>, ops: seq<Op>, k: nat, program: Program, us: nat, junk: int)
    requires IsRun(run, ops) && k < |run| && run[k].current.None?
    ensures |Launch(run[k], program, us, junk).entries| == |run[k].entries| <==>
            |Held(run[k].entries, OwnsGroup)| == run[k].limit
  {
    EveryWorldIsSound(run, ops, k);
    GroupAssignment(run[k]);
    LaunchAddsIffAssigned(run[k], program, us, junk);
  }

  // ---- Completion ----

  lemma EndKeepsCompleted(w: World, i: nat)
    requires CanEnd(w) && i < |w.entries| && !w.entries[i].linger.Live?
    ensures i < |End(w).entries| && End(w).entries[i] == w.entries[i]
  {
  }

  lemma BeginKeepsCompleted(w: World, j: nat, us: nat, junk: int, i: nat)
    requires j < |w.entries| && i < |w.entries| && !w.entries[i].linger.Live?
    ensures i < |Begin(w, j, us, junk).entries| && Begin(w, j, us, junk).entries[i] == w.entries[i]
  {
  }

  lemma LaunchKeepsCompleted(w: World, program: Program, us: nat, junk: int, i: nat)
    requires i < |w.entries| && !w.entries[i].linger.Live?
    ensures i < |Launch(w, program, us, junk).entries| && Launch(w, program, us, junk).entries[i] == w.entries[i]
  {
    var g := TryAcquire(w.groups, GroupBuilder(w.limit));
    if g.1.Some? {
      BeginKeepsCompleted(Construct(w.(groups := g.0), program, g.1.value), |w.entries|, us, junk, i);
    }
  }

  lemma DropKeepsCompleted(w: World, j: nat, i: nat)
    requires j < |w.entries| && i < |w.entries| && !w.entries[i].linger.Live?
    ensures i < |DropLinger(w, j).entries| && DropLinger(w, j).entries[i] == w.entries[i]
    ensures i < |Cancel(w, j).entries| && Cancel(w, j).entries[i] == w.entries[i]
  {
  }

  lemma PerformKeepsCompleted(w: World, op: Op, i: nat)
    requires Allowed(w, op) && i < |w.entries| && !w.entries[i].linger.Live? && (op.EndSlice? ==> CanEnd(w))
    ensures i < |Perform(w, op).entries| && Perform(w, op).entries[i] == w.entries[i]
  {
    match op
    case DoLaunch(program, us, junk) => LaunchKeepsCompleted(w, program, us, junk, i);
    case DoResume(j, us, junk) => BeginKeepsCompleted(w, j, us, junk, i);
    case Happens(_) =>
    case EndSlice => EndKeepsCompleted(w, i);
    case DoDrop(j) => DropKeepsCompleted(w, j, i);
    case DoCancel(j) => DropKeepsCompleted(w, j, i);
    case DoErase(j) => EraseIsIdentity(w, j);
  }

  /** Once a function has completed, panicked, or been dropped or cancelled, nothing that is done changes it again. */
  lemma CompletedStaysSo(run: seq<World>, ops: seq<Op>, j: nat, k: nat, i: nat)
    requires IsRun(run, ops) && j <= k < |run| && i < |run[j].entries| && !run[j].entries[i].linger.Live?
    ensures i < |run[k].entries| && run[k].entries[i] == run[j].entries[i]
  {
    for l := j to k
      invariant i < |run[l].entries| && run[l].entries[i] == run[j].entries[i]
    {
      EveryWorldIsSound(run, ops, l);
      PerformKeepsCompleted(run[l], ops[l], i);
    }
  }
}
