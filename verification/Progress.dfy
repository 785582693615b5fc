/**
 That things do happen: the protocol always gets on, a tick past the deadline pauses the
 function at once, and a pause that is owed is taken when the call in progress returns.
 */
module Progress {
  import opened Common
  import opened Machine
  import opened MachineInvariant
  import opened MachineProofs
  import opened Lifecycle
  import opened Theorems

  // ---- Overhead ----

  /** How many more mainline steps the protocol can take on the function's stack, before its code or the call site. */
  function FunRank(f: FunPc): nat {
    match f
    case TakeBootstrap => 14
    case StampStart(_) => 13
    case EnterGroup(_) => 12
    case ReadSignal => 11
    case ReadSignalEnd => 10
    case ZeroDeadline => 13
    case PauseReadSignal => 12
    case PauseReadSignalEnd => 11
    case PauseBlock => 10
    case PauseDefer => 9
    case LeaveLibrary => 8
    case SwapDeferred(_) => 7
    case RereadSignal(_) => 6
    case RereadSignalEnd(_) => 5
    case Kill(_) => 4
    case Unblock(_) => 3
    case Unblocked(_) => 2
    case Invoke => 1
    case OwnCode => 0
    case LibraryCode => 0
    case LeaveGroup => 12
    case BlockSignal => 11
    case ClearSignal => 10
    case ClearSignalEnd => 9
    case ClearDeferred => 8
    case CheckTask => 7
    case Exit => 6
  }

  function Rank(pc: Pc): nat {
    match pc
    case Idle => 0
    case BlockFirst => 30
    case Arm => 29
    case SetSignal => 28
    case SetSignalEnd => 27
    case Bootstrap => 26
    case SetDeadline => 25
    case TakeCheckpoint => 24
    case PutCheckpoint(_) => 23
    case PutCheckpointEnd => 22
    case ResumeReadSignal => 21
    case ResumeReadSignalEnd => 20
    case MaskBlock => 19
    case StampResume => 18
    case SwitchGroup => 17
    case RestoreErrno => 16
    case Jump => 15
    case Fun(f) => FunRank(f)
    case Deschedule => 5
    case DescheduleEnd(_) => 4
    case Done(_) => 0
    case Crash(_) => 0
  }

  /** The function's own code and its library calls: what the protocol is overhead to. */
  predicate IsUser(pc: Pc) {
    pc == Fun(OwnCode) || pc == Fun(LibraryCode)
  }

  lemma SetupGetsOn(m: State)
    requires m.pc in {BlockFirst, Arm, SetSignal, SetSignalEnd, Bootstrap, SetDeadline}
    ensures SetupStep(m).pc.Crash? || Rank(SetupStep(m).pc) < Rank(m.pc)
  {
  }

  lemma SwitchGetsOn(m: State)
    requires SwitchInv(m)
    ensures SwitchStep(m).pc.Crash? || Rank(SwitchStep(m).pc) < Rank(m.pc)
  {
  }

  lemma DescheduleGetsOn(m: State)
    requires m.pc == Deschedule || m.pc.DescheduleEnd?
    ensures DescheduleStep(m).pc.Crash? || Rank(DescheduleStep(m).pc) < Rank(m.pc)
  {
  }

  lemma EntryGetsOn(m: State, f: FunPc, junk: int)
    requires f == TakeBootstrap || f.StampStart? || f.EnterGroup? || f == ReadSignal || f == ReadSignalEnd
    ensures EnableStep(m, f, junk).pc.Crash? || Rank(EnableStep(m, f, junk).pc) < FunRank(f)
  {
  }

  lemma FlagGetsOn(m: State, who: Caller, junk: int)
    ensures Rank(EnableStep(m, SwapDeferred(who), junk).pc) < FunRank(SwapDeferred(who))
  {
  }

  lemma RereadGetsOn(m: State, who: Caller, junk: int)
    ensures var m' := EnableStep(m, RereadSignal(who), junk);
            m'.pc.Crash? || Rank(m'.pc) < FunRank(RereadSignal(who))
  {
  }

  lemma UnblockGetsOn(m: State, f: FunPc, junk: int)
    requires f.RereadSignalEnd? || f.Kill? || f.Unblock? || f.Unblocked?
    ensures Rank(EnableStep(m, f, junk).pc) < FunRank(f)
  {
  }

  lemma PauseGetsOn(m: State, f: FunPc)
    requires Pausing(f)
    ensures PauseStep(m, f).pc.Crash? || Rank(PauseStep(m, f).pc) < FunRank(f)
  {
  }

  lemma LeavingGetsOn(m: State, f: FunPc)
    requires f == LeaveGroup || f == BlockSignal || f == ClearSignal || f == ClearSignalEnd
    ensures DisableStep(m, f).pc.Crash? || Rank(DisableStep(m, f).pc) < FunRank(f)
  {
  }

  lemma ReturningGetsOn(m: State, f: FunPc)
    requires f == ClearDeferred || f == CheckTask || f == Exit
    ensures DisableStep(m, f).pc.Crash? || Rank(DisableStep(m, f).pc) < FunRank(f)
  {
  }

  lemma CallGetsOn(m: State, f: FunPc)
    requires (f == Invoke && m.fn.closure.Function?) || f == LeaveLibrary
    ensures Rank(UserStep(m, f).pc) < FunRank(f)
  {
  }

  lemma InvokesFunction(m: State)
    requires FunInv(m, Invoke)
    ensures m.fn.closure.Function?
  {
  }

  lemma FunGetsOn(m: State, f: FunPc, junk: int)
    requires f != OwnCode && f != LibraryCode && (f == Invoke ==> m.fn.closure.Function?)
    ensures FunStep(m, f, junk).pc.Crash? || Rank(FunStep(m, f, junk).pc) < FunRank(f)
  {
    match f
    case TakeBootstrap | StampStart(_) | EnterGroup(_) | ReadSignal | ReadSignalEnd => EntryGetsOn(m, f, junk);
    case SwapDeferred(who) => FlagGetsOn(m, who, junk);
    case RereadSignal(who) => RereadGetsOn(m, who, junk);
    case RereadSignalEnd(_) | Kill(_) | Unblock(_) | Unblocked(_) => UnblockGetsOn(m, f, junk);
    case Invoke | LeaveLibrary => CallGetsOn(m, f);
    case ZeroDeadline | PauseReadSignal | PauseReadSignalEnd | PauseBlock | PauseDefer => PauseGetsOn(m, f);
    case LeaveGroup | BlockSignal | ClearSignal | ClearSignalEnd => LeavingGetsOn(m, f);
    case ClearDeferred | CheckTask | Exit => ReturningGetsOn(m, f);
  }

  /** Whatever the shared errno is left as, the mainline outside the function does the same. */
  lemma MainOutsideGetsOn(m: State, junk: int)
    requires Inv(m) && Enabled(m) && !m.pc.Fun?
    ensures MainStep(m, junk).pc.Crash? || Rank(MainStep(m, junk).pc) < Rank(m.pc)
  {
    var m' := m.(sharedErrno := junk);
    if m.pc in {BlockFirst, Arm, SetSignal, SetSignalEnd, Bootstrap, SetDeadline} {
      SetupGetsOn(m');
    } else if m.pc == Deschedule || m.pc.DescheduleEnd? {
      DescheduleGetsOn(m');
    } else {
      SwitchGetsOn(m');
    }
  }

  /** Every mainline step of the protocol brings it closer to the function's code, or back to the call site. */
  lemma ProtocolGetsOn(m: State, junk: int)
    requires Inv(m) && Enabled(m) && !IsUser(m.pc)
    ensures Rank(MainStep(m, junk).pc) < Rank(m.pc) && Inv(MainStep(m, junk))
  {
    StepKeepsInv(m, Main(junk));
    InvIsNoCrash(MainStep(m, junk));
    if m.pc.Fun? {
      if m.pc.f == Invoke {
        InvokesFunction(m);
      }
      FunGetsOn(m, m.pc.f, junk);
    } else {
      MainOutsideGetsOn(m, junk);
    }
  }

  /** No delivery, and no step of the function. */
  ghost predicate Undisturbed(m: State, events: seq<Event>)
    decreases |events|
  {
    events == [] ||
    (!events[0].Deliver? && !(events[0].Main? && IsUser(m.pc)) && Undisturbed(Step(m, events[0]), events[1..]))
  }

  function MainsIn(events: seq<Event>): nat {
    if events == [] then 0 else (if events[0].Main? then 1 else 0) + MainsIn(events[1..])
  }

  lemma {:induction false} UndisturbedIsShort(m: State, events: seq<Event>)
    requires Inv(m) && Possible(m, events) && Undisturbed(m, events)
    ensures MainsIn(events) <= Rank(m.pc)
    decreases |events|
  {
    if events != [] {
      StepKeepsInv(m, events[0]);
      if events[0].Main? {
        ProtocolGetsOn(m, events[0].junk);
      }
      UndisturbedIsShort(Step(m, events[0]), events[1..]);
    }
  }

  /**
   In every run and whatever happens next, at most 30 mainline steps of the protocol separate
   two steps of the function, deliveries, or the slice's end: it never goes round in circles.
   */
  lemma OverheadIsBounded(run: seq<World>, ops: seq<Op>, k: nat, events: seq<Event>)
    requires IsRun(run, ops) && k < |run| && Possible(run[k].m, events) && Undisturbed(run[k].m, events)
    ensures MainsIn(events) <= Rank(run[k].m.pc) <= 30
  {
    Sound(run, ops, k);
    UndisturbedIsShort(run[k].m, events);
  }

  // ---- Pauses happen ----

  /** What a paused function's task holds: where it was, its registers and its errno. */
  predicate HoldsWhere(task: Task, f: FunPc, m: State) {
    task.errno == Some(m.errno) && task.checkpoint.Some? && task.checkpoint.value.code == Interrupted(f, m.regs)
  }

  lemma TickIsDue(m: State)
    requires Inv(m) && m.pc == Fun(OwnCode) && m.now >= m.tls.deadline
    ensures CanHappen(m, Tick) && Due(Step(m, Tick), OwnCode)
  {
    TickKeepsInv(m);
  }

  /** A tick at or past the deadline, while the function runs its own code, pauses it on the spot. */
  lemma TickPausesAtOnce(run: seq<World>, ops: seq<Op>, k: nat, junk: int)
    requires IsRun(run, ops) && k < |run| && run[k].m.pc == Fun(OwnCode) && run[k].m.now >= run[k].m.tls.deadline
    ensures Possible(run[k].m, [Tick, Deliver(junk)])
    ensures var m' := Step(Step(run[k].m, Tick), Deliver(junk));
            m'.pc == Deschedule && HoldsWhere(m'.tls.task, OwnCode, run[k].m)
  {
    var m := run[k].m;
    Sound(run, ops, k);
    TickIsDue(m);
    HandlerPauses(Step(m, Tick), OwnCode, junk);
    assert [Tick, Deliver(junk)][1..] == [Deliver(junk)] && [Deliver(junk)][1..] == [];
  }

  /** ... which is what the last reading of a 64-bit clock does to the largest budget. */
  lemma LastReadingPauses(run: seq<World>, ops: seq<Op>, k: nat, junk: int)
    requires IsRun(run, ops) && k < |run| && run[k].m.pc == Fun(OwnCode)
    requires run[k].m.us == U64 - 1 && run[k].m.now == U64 - 1
    ensures Possible(run[k].m, [Tick, Deliver(junk)]) && Step(Step(run[k].m, Tick), Deliver(junk)).pc == Deschedule
  {
    LargestBudgetRunsOut(run, ops, k);
    TickPausesAtOnce(run, ops, k, junk);
  }

  // ---- Owed pauses ----

  /** Whether the handler can still defer, instead of pausing: once, since deferring masks the signal. */
  function Slack(m: State): nat {
    if !m.blocked && m.group == Shared then 1 else 0
  }

  /** Control is back at the call site at some point of these events. */
  ghost predicate ComesBack(m: State, events: seq<Event>)
    decreases |events|
  {
    m.pc == Deschedule || (events != [] && ComesBack(Step(m, events[0]), events[1..]))
  }

  /** Mainline steps and deliveries. */
  function Turns(events: seq<Event>): nat {
    if events == [] then 0 else (if events[0].Main? || events[0].Deliver? then 1 else 0) + Turns(events[1..])
  }

  /** No more slack than before, and no library call. */
  predicate KeepsSlack(m: State, m': State) {
    var ok := Slack(m') <= Slack(m) && m'.pc != Fun(LibraryCode);
    ok
  }

  lemma EnableKeepsSlack(m: State, f: FunPc, junk: int)
    requires ControlOk(m, f) && (HookMasked(f) || f == Unblocked(Hook) || f == SwapDeferred(Hook))
    ensures KeepsSlack(m, FunStep(m, f, junk))
  {
  }

  lemma PauseKeepsSlack(m: State, f: FunPc, junk: int)
    requires Pausing(f)
    ensures KeepsSlack(m, FunStep(m, f, junk))
  {
  }

  lemma BlockKeepsSlack(m: State, f: FunPc, junk: int)
    requires f == BlockSignal || f == ClearSignal || f == ClearSignalEnd
    ensures KeepsSlack(m, FunStep(m, f, junk))
  {
  }

  lemma CheckKeepsSlack(m: State, f: FunPc, junk: int)
    requires f == ClearDeferred || f == CheckTask
    ensures KeepsSlack(m, FunStep(m, f, junk))
  {
  }

  lemma ExitKeepsSlack(m: State, junk: int)
    requires ControlOk(m, Exit)
    ensures KeepsSlack(m, FunStep(m, Exit, junk))
  {
  }

  lemma DisableKeepsSlack(m: State, f: FunPc, junk: int)
    requires ControlOk(m, f) && After(f) && f != LeaveGroup
    ensures KeepsSlack(m, FunStep(m, f, junk))
  {
    if f == Exit {
      ExitKeepsSlack(m, junk);
    } else if f == ClearDeferred || f == CheckTask {
      CheckKeepsSlack(m, f, junk);
    } else {
      BlockKeepsSlack(m, f, junk);
    }
  }

  lemma LeavingKeepsSlack(m: State, junk: int)
    ensures KeepsSlack(m, FunStep(m, LeaveLibrary, junk))
  {
  }

  /** Where a pause can be owed, other than in a library call. */
  lemma WhereOwed(m: State, f: FunPc)
    requires OwingOk(m, f) && (m.slice.called || m.slice.overdue) && f != LibraryCode
    ensures HookMasked(f) || f == Unblocked(Hook) || f == SwapDeferred(Hook) || Pausing(f) || f == LeaveLibrary
         || (After(f) && f != LeaveGroup)
  {
  }

  lemma FunKeepsSlack(m: State, f: FunPc, junk: int)
    requires ControlOk(m, f) && OwingOk(m, f) && (m.slice.called || m.slice.overdue) && f != LibraryCode
    ensures KeepsSlack(m, FunStep(m, f, junk))
  {
    WhereOwed(m, f);
    if HookMasked(f) || f == Unblocked(Hook) || f == SwapDeferred(Hook) {
      EnableKeepsSlack(m, f, junk);
    } else if Pausing(f) {
      PauseKeepsSlack(m, f, junk);
    } else if f == LeaveLibrary {
      LeavingKeepsSlack(m, junk);
    } else {
      DisableKeepsSlack(m, f, junk);
    }
  }

  lemma MainKeepsSlack(m: State, junk: int)
    requires Inv(m) && Owing(m) && m.pc != Fun(LibraryCode)
    ensures KeepsSlack(m, MainStep(m, junk))
  {
    FunKeepsSlack(m, m.pc.f, junk);
  }

  lemma OwedMainGetsOn(m: State, junk: int)
    requires Inv(m) && Owing(m) && m.pc != Fun(LibraryCode) && Enabled(m)
    ensures var m' := MainStep(m, junk);
            m'.pc == Deschedule ||
            (Owing(m') && m'.pc != Fun(LibraryCode) && Rank(m'.pc) + Slack(m') < Rank(m.pc) + Slack(m))
  {
    if m.pc == Fun(OwnCode) {
      OwnCodeIsOpen(m);
    }
    OwingIsKept(m, Main(junk));
    ProtocolGetsOn(m, junk);
    MainKeepsSlack(m, junk);
  }

  lemma OwedDeliveryGetsOn(m: State, junk: int)
    requires Inv(m) && Owing(m) && CanHappen(m, Deliver(junk))
    ensures var m' := Step(m, Deliver(junk));
            m'.pc == Deschedule || (Owing(m') && m'.pc == m.pc && Slack(m') < Slack(m))
  {
    OwingIsKept(m, Deliver(junk));
    if m.group == Shared {
      SharedIsDeferrable(m, m.pc.f);
      HandlerIsDeferring(m, junk);
    } else {
      HandlerPauses(m, m.pc.f, junk);
    }
  }

  lemma {:induction false} OwedPauseComes(m: State, events: seq<Event>)
    requires Inv(m) && Owing(m) && m.pc != Fun(LibraryCode) && Possible(m, events)
    requires Turns(events) > Rank(m.pc) + Slack(m)
    ensures ComesBack(m, events)
    decreases |events|
  {
    var m' := Step(m, events[0]);
    StepKeepsInv(m, events[0]);
    match events[0] {
      case Main(junk) => OwedMainGetsOn(m, junk);
      case Deliver(junk) => OwedDeliveryGetsOn(m, junk);
      case Tick =>
      case Clock(_) =>
    }
    if m'.pc != Deschedule {
      OwedPauseComes(m', events[1..]);
    }
  }

  /**
   A pause that is owed is taken, whatever happens: outside library calls, no possible sequence of events
   has more mainline steps and deliveries than these without control coming back to the call site.
   */
  lemma OwedPauseHappens(run: seq<World>, ops: seq<Op>, k: nat, events: seq<Event>)
    requires IsRun(run, ops) && k < |run| && Owing(run[k].m) && run[k].m.pc != Fun(LibraryCode)
    requires Possible(run[k].m, events) && Turns(events) > Rank(run[k].m.pc) + Slack(run[k].m)
    ensures ComesBack(run[k].m, events)
  {
    Sound(run, ops, k);
    OwedPauseComes(run[k].m, events);
  }
}
