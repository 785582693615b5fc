/**
 What resuming with a budget of 0 does: not the nothing that its documentation promises.
 This says exactly when the function can take a step before it is paused again.
 */
module ZeroBudget {
  import opened Common
  import opened Machine
  import opened MachineInvariant
  import opened MachineProofs
  import opened Lifecycle
  import opened LifecycleProofs
  import opened Theorems
  import opened Progress

  // ---- From the moment the signal is unblocked ----

  /** The function takes a step of its own before control is back at the call site. */
  ghost predicate StepsBeforePause(m: State, events: seq<Event>)
    decreases |events|
  {
    m.pc != Deschedule && events != [] &&
    ((m.pc == Fun(OwnCode) && events[0].Main?) || StepsBeforePause(Step(m, events[0]), events[1..]))
  }

  /** A tick that waits for the signal to be unblocked, past the deadline, comes before the function. */
  lemma {:induction false} WaitingTickComesFirst(m: State, events: seq<Event>)
    requires Inv(m) && m.pc == Fun(Unblocked(Schedule)) && m.pending && m.now >= m.tls.deadline && Possible(m, events)
    ensures !StepsBeforePause(m, events)
    decreases |events|
  {
    if events != [] {
      StepKeepsInv(m, events[0]);
      UnblockedIsOpen(m);
      match events[0] {
        case Main(_) =>
        case Deliver(junk) => HandlerPauses(m, Unblocked(Schedule), junk);
        case Tick => WaitingTickComesFirst(Step(m, Tick), events[1..]);
        case Clock(now) => WaitingTickComesFirst(Step(m, Clock(now)), events[1..]);
      }
    }
  }

  lemma UnblockedIsOpen(m: State)
    requires Inv(m) && m.pc == Fun(Unblocked(Schedule))
    ensures !m.blocked && m.group != Shared && At(m, Unblocked(Schedule))
  {
  }

  lemma ComesToInvoke(m: State)
    requires Inv(m) && m.pc == Fun(Unblocked(Schedule)) && !m.pending
    ensures Enabled(m) && At(MainStep(m, 0), Invoke)
  {
    ReturnsFromUnblock(m, Schedule, 0);
  }

  lemma InvokesNext(m: State)
    requires Inv(m) && m.pc == Fun(Unblocked(Schedule)) && !m.pending
    ensures var m1 := MainStep(m, 0);
            Enabled(m) && m1.pc == Fun(Invoke) && MainStep(m1, 0).pc == Fun(OwnCode)
  {
    ComesToInvoke(m);
    Invokes(MainStep(m, 0), 0);
  }

  lemma StartsAtOnce(m: State) returns (events: seq<Event>)
    requires Inv(m) && m.pc == Fun(Unblocked(Schedule)) && !m.pending
    ensures Possible(m, events) && StepsBeforePause(m, events)
  {
    InvokesNext(m);
    events := [Main(0), Main(0), Main(0)];
    ThreeMains(m);
  }

  lemma ThreeMains(m: State)
    requires Enabled(m) && m.pc == Fun(Unblocked(Schedule))
    requires MainStep(m, 0).pc == Fun(Invoke) && MainStep(MainStep(m, 0), 0).pc == Fun(OwnCode)
    ensures Possible(m, [Main(0), Main(0), Main(0)]) && StepsBeforePause(m, [Main(0), Main(0), Main(0)])
  {
    var events := [Main(0), Main(0), Main(0)];
    assert events[1..] == [Main(0), Main(0)] && events[1..][1..] == [Main(0)] && [Main(0)][1..] == [];
  }

  lemma StartsAfterTick(m: State) returns (events: seq<Event>)
    requires Inv(m) && m.pc == Fun(Unblocked(Schedule)) && m.pending && m.now < m.tls.deadline
    ensures Possible(m, events) && StepsBeforePause(m, events)
  {
    UnblockedIsOpen(m);
    HandlerLeavesNoTrace(m, Unblocked(Schedule), 0);
    StepKeepsInv(m, Deliver(0));
    var rest := StartsAtOnce(m.(pending := false));
    events := [Deliver(0)] + rest;
    assert events[1..] == rest;
  }

  ghost predicate CanStepFirst(m: State) {
    exists events :: Possible(m, events) && StepsBeforePause(m, events)
  }

  lemma CannotStepFirst(m: State)
    requires Inv(m) && m.pc == Fun(Unblocked(Schedule)) && m.pending && m.now >= m.tls.deadline
    ensures !CanStepFirst(m)
  {
    forall events | Possible(m, events)
      ensures !StepsBeforePause(m, events)
    {
      WaitingTickComesFirst(m, events);
    }
  }

  /** When schedule() has unblocked the signal, the function can still take a step exactly unless a tick waits past the deadline. */
  lemma FirstStepIff(m: State)
    requires Inv(m) && m.pc == Fun(Unblocked(Schedule))
    ensures CanStepFirst(m) <==> !(m.pending && m.now >= m.tls.deadline)
  {
    if !m.pending {
      var events := StartsAtOnce(m);
    } else if m.now < m.tls.deadline {
      var events := StartsAfterTick(m);
    } else {
      CannotStepFirst(m);
    }
  }

  // ---- On the way there ----

  predicate IsSetup(pc: Pc) {
    pc in {BlockFirst, Arm, SetSignal, SetSignalEnd, Bootstrap, SetDeadline}
  }

  predicate IsSwitch(pc: Pc) {
    pc in {TakeCheckpoint, PutCheckpointEnd, ResumeReadSignal, ResumeReadSignalEnd, MaskBlock, StampResume,
           SwitchGroup, RestoreErrno, Jump} || pc.PutCheckpoint?
  }

  /** A slice of a function that has not been called yet, up to where schedule() has unblocked the signal. */
  predicate Starting(m: State) {
    if m.pc.Fun? then Before(m.pc.f) && m.pc.f != Invoke
    else m.task.errno.None? && (IsSetup(m.pc) || IsSwitch(m.pc))
  }

  /** What the slice's one context jumps to, wherever that context is. */
  function Destination(m: State): Option<Code> {
    if m.pc.PutCheckpoint? then Some(m.pc.taken.code)
    else if m.tls.task.checkpoint.Some? then Some(m.tls.task.checkpoint.value.code)
    else if m.task.checkpoint.Some? then Some(m.task.checkpoint.value.code)
    else None
  }

  /** A slice of a function that was paused at `f`, up to the jump. */
  predicate Coming(m: State, f: FunPc) {
    && m.task.errno.Some? && (IsSetup(m.pc) || IsSwitch(m.pc)) && !m.tls.deferred
    && Destination(m).Some? && Destination(m).value.Interrupted? && Destination(m).value.f == f
  }

  /** Neither the clock, nor the budget, nor a waiting tick changes. */
  predicate SameCall(m: State, m': State) {
    m'.us == m.us && m'.now == m.now && m'.pending == m.pending
  }

  lemma StartingSetup(m: State)
    requires Starting(m) && IsSetup(m.pc)
    ensures SetupStep(m).pc.Crash? || (Starting(SetupStep(m)) && SameCall(m, SetupStep(m)))
  {
  }

  lemma StartingSwitch(m: State)
    requires Starting(m) && IsSwitch(m.pc) && SwitchInv(m)
    ensures SwitchStep(m).pc.Crash? || (Starting(SwitchStep(m)) && SameCall(m, SwitchStep(m)))
  {
  }

  lemma StartingEntry(m: State, f: FunPc, junk: int)
    requires ControlOk(m, f) && Before(f) && f != Invoke && f != Unblocked(Schedule)
    ensures var m' := EnableStep(m, f, junk);
            m'.pc.Crash? || (Starting(m') && SameCall(m, m'))
  {
  }

  lemma StartingGoesOn(m: State, junk: int)
    requires Inv(m) && Starting(m) && m.pc != Fun(Unblocked(Schedule))
    ensures Enabled(m) && !IsUser(m.pc) && Starting(MainStep(m, junk)) && SameCall(m, MainStep(m, junk))
  {
    ProtocolGetsOn(m, junk);
    InvIsNoCrash(MainStep(m, junk));
    if m.pc.Fun? {
      StartingEntry(m, m.pc.f, junk);
    } else if IsSetup(m.pc) {
      StartingSetup(m.(sharedErrno := junk));
    } else {
      StartingSwitch(m.(sharedErrno := junk));
    }
  }

  lemma ComingSetup(m: State, f: FunPc)
    requires Coming(m, f) && IsSetup(m.pc)
    ensures SetupStep(m).pc.Crash? || (Coming(SetupStep(m), f) && SameCall(m, SetupStep(m)))
  {
  }

  /** The jump: to where the function was paused, with nothing deferred. */
  predicate Arrived(m: State, f: FunPc) {
    m.pc == Fun(f) && !m.tls.deferred
  }

  lemma ComingSwitch(m: State, f: FunPc)
    requires Coming(m, f) && IsSwitch(m.pc) && SwitchInv(m)
    ensures var m' := SwitchStep(m);
            m'.pc.Crash? || ((Coming(m', f) || Arrived(m', f)) && SameCall(m, m'))
  {
  }

  lemma ComingSetupGoesOn(m: State, f: FunPc, junk: int)
    requires Inv(m) && Coming(m, f) && IsSetup(m.pc) && !MainStep(m, junk).pc.Crash?
    ensures Coming(MainStep(m, junk), f) && SameCall(m, MainStep(m, junk))
  {
    ComingSetup(m.(sharedErrno := junk), f);
  }

  lemma ComingSwitchGoesOn(m: State, f: FunPc, junk: int)
    requires Inv(m) && Coming(m, f) && IsSwitch(m.pc) && !MainStep(m, junk).pc.Crash?
    ensures (Coming(MainStep(m, junk), f) || Arrived(MainStep(m, junk), f)) && SameCall(m, MainStep(m, junk))
  {
    ComingSwitch(m.(sharedErrno := junk), f);
  }

  lemma ComingGoesOn(m: State, f: FunPc, junk: int)
    requires Inv(m) && Coming(m, f)
    ensures Enabled(m) && !IsUser(m.pc)
    ensures (Coming(MainStep(m, junk), f) || Arrived(MainStep(m, junk), f)) && SameCall(m, MainStep(m, junk))
  {
    ProtocolGetsOn(m, junk);
    InvIsNoCrash(MainStep(m, junk));
    if IsSetup(m.pc) {
      ComingSetupGoesOn(m, f, junk);
    } else {
      ComingSwitchGoesOn(m, f, junk);
    }
  }

  // ---- A tick that waits comes first ----

  lemma MaskedOnTheWay(m: State, f: FunPc)
    requires Inv(m) && m.pending && (Coming(m, f) || (Starting(m) && m.pc != Fun(Unblocked(Schedule))))
    ensures m.blocked
  {
    if !m.pc.Fun? {
      MaskedOutside(m);
    }
  }

  predicate OnTheWay(m: State) {
    Starting(m) || Coming(m, Unblocked(Schedule)) || Coming(m, Unblocked(Hook)) || (m.pc.Fun? && m.pc.f.Unblocked?)
  }

  /** No budget, a tick that waits, and the function still to come. */
  ghost predicate Waiting(m: State) {
    Inv(m) && m.pending && m.us == 0 && m.now < U64 && OnTheWay(m)
  }

  lemma UnblockedIsDue(m: State)
    requires Waiting(m) && m.pc.Fun? && m.pc.f.Unblocked?
    ensures Due(m, m.pc.f) && !Enabled(m)
  {
  }

  lemma WaitingGoesOn(m: State, junk: int)
    requires Waiting(m) && !(m.pc.Fun? && m.pc.f.Unblocked?)
    ensures m.blocked && m.pc != Fun(OwnCode) && Waiting(MainStep(m, junk))
  {
    if Starting(m) {
      MaskedOnTheWay(m, Invoke);
      StartingGoesOn(m, junk);
    } else {
      var f := if Coming(m, Unblocked(Schedule)) then Unblocked(Schedule) else Unblocked(Hook);
      MaskedOnTheWay(m, f);
      ComingGoesOn(m, f, junk);
    }
    StepKeepsInv(m, Main(junk));
  }

  lemma TimeKeepsWaiting(m: State, e: Event)
    requires Waiting(m) && CanHappen(m, e) && (e.Tick? || e.Clock?)
    ensures Waiting(Step(m, e))
  {
    StepKeepsInv(m, e);
  }

  /** Whatever happens, a function for which a tick waits takes no step. */
  lemma {:induction false} WaitingNeverSteps(m: State, events: seq<Event>)
    requires Waiting(m) && Possible(m, events)
    ensures !StepsBeforePause(m, events)
    decreases |events|
  {
    if events != [] {
      var e := events[0];
      if e.Tick? || e.Clock? {
        TimeKeepsWaiting(m, e);
        WaitingNeverSteps(Step(m, e), events[1..]);
      } else if m.pc.Fun? && m.pc.f.Unblocked? {
        UnblockedIsDue(m);
        HandlerPauses(m, m.pc.f, e.junk);
      } else {
        WaitingGoesOn(m, e.junk);
        WaitingNeverSteps(MainStep(m, e.junk), events[1..]);
      }
    }
  }

  // ---- A function that has returned has no step to take ----

  predicate Leaving(m: State) {
    Coming(m, LeaveGroup) || (m.pc.Fun? && After(m.pc.f))
  }

  lemma AfterFollowsAfter(m: State, f: FunPc)
    requires After(f) && f != Exit && DisableStep(m, f).pc.Fun?
    ensures After(DisableStep(m, f).pc.f)
  {
  }

  lemma ReturnedGoesOn(m: State, f: FunPc, junk: int)
    requires At(m, f) && After(f) && f != Exit
    ensures FunStep(m, f, junk).pc.Fun? && After(FunStep(m, f, junk).pc.f)
  {
    DisableKeepsInv(m, f, junk);
    AfterFollowsAfter(m, f);
  }

  lemma ReturnedEnds(m: State, f: FunPc, junk: int)
    requires At(m, f) && After(f)
    ensures FunStep(m, f, junk).pc == Deschedule || Leaving(FunStep(m, f, junk))
  {
    if f == Exit {
      Exits(m, junk);
    } else {
      ReturnedGoesOn(m, f, junk);
    }
  }

  lemma DeliveryKeepsPlace(m: State, junk: int)
    requires Inv(m) && m.pc.Fun? && CanHappen(m, Deliver(junk))
    ensures var m' := Step(m, Deliver(junk));
            m'.pc == Deschedule || m'.pc == m.pc
  {
    if m.group == Shared {
      SharedIsDeferrable(m, m.pc.f);
      HandlerIsDeferring(m, junk);
    } else if m.now >= m.tls.deadline {
      HandlerPauses(m, m.pc.f, junk);
    } else {
      HandlerLeavesNoTrace(m, m.pc.f, junk);
    }
  }

  lemma LeavingGoesOn(m: State, e: Event)
    requires Inv(m) && Leaving(m) && CanHappen(m, e)
    ensures Step(m, e).pc == Deschedule || Leaving(Step(m, e))
  {
    match e
    case Main(junk) => if m.pc.Fun? { ReturnedEnds(m, m.pc.f, junk); } else { ComingGoesOn(m, LeaveGroup, junk); }
    case Deliver(junk) => if m.pc.Fun? { DeliveryKeepsPlace(m, junk); } else { MaskedOnTheWay(m, LeaveGroup); }
    case Tick =>
    case Clock(_) =>
  }

  lemma {:induction false} LeavingNeverSteps(m: State, events: seq<Event>)
    requires Inv(m) && Leaving(m) && Possible(m, events)
    ensures !StepsBeforePause(m, events)
    decreases |events|
  {
    if events != [] {
      LeavingGoesOn(m, events[0]);
      if Step(m, events[0]).pc != Deschedule {
        StepKeepsInv(m, events[0]);
        LeavingNeverSteps(Step(m, events[0]), events[1..]);
      }
    }
  }

  // ---- Otherwise it can ----

  lemma StepsNow(m: State) returns (events: seq<Event>)
    requires m.pc == Fun(OwnCode)
    ensures Possible(m, events) && StepsBeforePause(m, events)
  {
    events := [Main(0)];
    assert events[1..] == [];
  }

  lemma StepsNext(m: State) returns (events: seq<Event>)
    requires Enabled(m) && m.pc.Fun? && MainStep(m, 0).pc == Fun(OwnCode)
    ensures Possible(m, events) && StepsBeforePause(m, events)
  {
    var rest := StepsNow(MainStep(m, 0));
    events := [Main(0)] + rest;
    assert events[1..] == rest;
  }

  /** Where the function was paused, and what must not wait for it there. */
  predicate StepsFrom(f: FunPc, pending: bool) {
    Pausable(f) && f != LeaveGroup && (f.Unblocked? ==> !pending)
  }

  lemma ArrivedSteps(m: State, f: FunPc) returns (events: seq<Event>)
    requires Inv(m) && Arrived(m, f) && StepsFrom(f, m.pending)
    ensures Possible(m, events) && StepsBeforePause(m, events)
  {
    match f {
      case Unblocked(who) =>
        if who == Schedule {
          events := StartsAtOnce(m);
        } else {
          ReturnsFromUnblock(m, Hook, 0);
          events := StepsNext(m);
        }
      case Invoke =>
        Invokes(m, 0);
        events := StepsNext(m);
      case SwapDeferred(_) =>
        FindsNothingDeferred(m, 0);
        events := StepsNext(m);
      case OwnCode => events := StepsNow(m);
    }
  }

  lemma {:induction false} ComingSteps(m: State, f: FunPc) returns (events: seq<Event>)
    requires Inv(m) && (Coming(m, f) || Arrived(m, f)) && StepsFrom(f, m.pending)
    ensures Possible(m, events) && StepsBeforePause(m, events)
    decreases if Arrived(m, f) then 0 else 1 + Rank(m.pc)
  {
    if Arrived(m, f) {
      events := ArrivedSteps(m, f);
    } else {
      ComingGoesOn(m, f, 0);
      ProtocolGetsOn(m, 0);
      var rest := ComingSteps(MainStep(m, 0), f);
      events := [Main(0)] + rest;
      assert events[1..] == rest;
    }
  }

  lemma {:induction false} StartingSteps(m: State) returns (events: seq<Event>)
    requires Inv(m) && Starting(m) && !m.pending
    ensures Possible(m, events) && StepsBeforePause(m, events)
    decreases Rank(m.pc)
  {
    if m.pc == Fun(Unblocked(Schedule)) {
      events := StartsAtOnce(m);
    } else {
      StartingGoesOn(m, 0);
      ProtocolGetsOn(m, 0);
      var rest := StartingSteps(MainStep(m, 0));
      events := [Main(0)] + rest;
      assert events[1..] == rest;
    }
  }

  // ---- At the call ----

  /** What the caller of resume() has: a function that was never called, or where it was paused; and perhaps a waiting tick. */
  predicate StepsWithoutBudget(task: Task, pending: bool) {
    if task.errno.None? then !pending
    else task.checkpoint.Some? && task.checkpoint.value.code.Interrupted? && StepsFrom(task.checkpoint.value.code.f, pending)
  }

  lemma NewSliceStepsIff(m: State)
    requires Inv(m) && Starting(m) && m.us == 0 && m.now < U64
    ensures CanStepFirst(m) <==> !m.pending
  {
    if m.pending {
      forall events | Possible(m, events)
        ensures !StepsBeforePause(m, events)
      {
        WaitingNeverSteps(m, events);
      }
    } else {
      var events := StartingSteps(m);
    }
  }

  lemma PausedCannotStep(m: State, f: FunPc)
    requires Inv(m) && Coming(m, f) && m.us == 0 && m.now < U64 && (f == LeaveGroup || (f.Unblocked? && m.pending))
    ensures !CanStepFirst(m)
  {
    forall events | Possible(m, events)
      ensures !StepsBeforePause(m, events)
    {
      if f == LeaveGroup {
        LeavingNeverSteps(m, events);
      } else {
        WaitingNeverSteps(m, events);
      }
    }
  }

  lemma PausedStepsIff(m: State, f: FunPc)
    requires Inv(m) && Coming(m, f) && Pausable(f) && m.us == 0 && m.now < U64
    ensures CanStepFirst(m) <==> StepsFrom(f, m.pending)
  {
    if StepsFrom(f, m.pending) {
      var events := ComingSteps(m, f);
    } else {
      PausedCannotStep(m, f);
    }
  }

  /** resume() has set off, with the continuation's task. */
  lemma BeginSetsOff(w: World, i: nat, junk: int)
    requires WorldInv(w) && w.current.None? && i < |w.entries| && w.entries[i].linger.Live?
    ensures var m, task := Begin(w, i, 0, junk).m, w.entries[i].linger.continuation.task;
            && Inv(m) && m.us == 0 && m.now == w.m.now && m.pending == w.m.pending
            && if task.errno.None? then Starting(m)
               else task.checkpoint.Some? && task.checkpoint.value.code.Interrupted?
                    && Coming(m, task.checkpoint.value.code.f) && Pausable(task.checkpoint.value.code.f)
  {
    assert TimedOk(w.entries[i], IsCurrent(w, i));
    SlotIsParked(w, i);
    BeginKeepsInv(w, i, 0, junk);
  }

  /**
   A budget of 0 is no no-op.  A function that was never called can take a step exactly if no
   tick waits; so can one that was paused while the signal was being unblocked.  One that
   was paused after it had returned cannot, and one paused anywhere else can.
   */
  lemma ZeroBudgetStepsIff(run: seq<World>, ops: seq<Op>, k: nat, i: nat, junk: int)
    requires IsRun(run, ops) && k < |run| && run[k].current.None?
    requires i < |run[k].entries| && run[k].entries[i].linger.Live?
    ensures CanStepFirst(Begin(run[k], i, 0, junk).m) <==>
            StepsWithoutBudget(run[k].entries[i].linger.continuation.task, run[k].m.pending)
  {
    var w := run[k];
    EveryWorldIsSound(run, ops, k);
    ClockIsBounded(run, ops, k);
    BeginSetsOff(w, i, junk);
    var task := w.entries[i].linger.continuation.task;
    if task.errno.None? {
      NewSliceStepsIff(Begin(w, i, 0, junk).m);
    } else {
      PausedStepsIff(Begin(w, i, 0, junk).m, task.checkpoint.value.code.f);
    }
  }
}
