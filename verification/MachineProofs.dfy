/** Every micro-step, and the handler wherever it lands, keeps the invariant. */
module MachineProofs {
  import opened Common
  import opened Programs
  import opened Machine
  import opened MachineInvariant

  ghost predicate At(m: State, f: FunPc) {
    m.pc == Fun(f) && FunInv(m, f)
  }

  function StackOf(c: Option<Context>): Option<nat> {
    if c.Some? then Some(c.value.stack) else None
  }

  /** The one stack that the slice's only context owns, wherever that context is. */
  function Stack(m: State): Option<nat> {
    match m.pc
    case PutCheckpoint(taken) => Some(taken.stack)
    case DescheduleEnd(replaced) => StackOf(replaced.checkpoint)
    case _ => if m.tls.task.checkpoint.Some? then StackOf(m.tls.task.checkpoint) else StackOf(m.task.checkpoint)
  }

  /** The function only moves forward: it is invoked at most once, and then steps one step at a time. */
  ghost predicate Continues(fn: Fn, fn': Fn) {
    fn'.program == fn.program &&
    if fn.invoked == 0 then fn'.invoked == 0 || (fn'.invoked == 1 && fn'.steps == 0)
    else fn'.invoked == fn.invoked && fn'.startErrno == fn.startErrno && fn.steps <= fn'.steps <= fn.steps + 1
  }

  ghost predicate SameSlice(m: State, m': State) {
    m'.gid == m.gid && m'.us == m.us && (m.now < U64 ==> m'.now < U64) && (m'.pc.Idle? <==> m.pc.Idle?) &&
    Continues(m.fn, m'.fn)
  }

  ghost predicate Unmoved(m: State, m': State) {
    var same := m'.stacks == m.stacks && Stack(m') == Stack(m) && SameSlice(m, m');
    same
  }

  /** A step of the timed function to `f`, which keeps the invariant and the slice's stack. */
  ghost predicate Moves(m: State, m': State, f: FunPc) {
    At(m', f) && Unmoved(m, m')
  }

  /** The uninterrupted run, one step further on. */
  lemma OneStepMore(fn: Fn, seen: View)
    requires Underway(fn, seen)
    ensures Uninterrupted(fn.program, fn.startErrno, Stepped(fn).steps) == Advance(fn.program, seen)
  {
  }

  lemma Stays(m: State, m': State)
    requires m.pc.Fun? && m'.pc.Fun? && m'.stacks == m.stacks && m'.tls.task == m.tls.task && m'.task == m.task
    requires m'.gid == m.gid && m'.us == m.us && m'.now == m.now && Continues(m.fn, m'.fn)
    ensures Unmoved(m, m')
  {
  }

  lemma Arrives(m: State, m': State, f: FunPc)
    requires m'.pc == Fun(f) && ControlOk(m', f) && OwingOk(m', f)
    requires Faithful(m'.fn, f, m'.regs, m'.errno, m'.sharedErrno) && Unmoved(m, m')
    ensures Moves(m, m', f)
  {
  }

  // ---- schedule() and enable_preemption() ----

  lemma TakesBootstrap(m: State, junk: int)
    requires At(m, TakeBootstrap)
    ensures Moves(m, FunStep(m, TakeBootstrap, junk), StampStart(m.gid))
  {
  }

  lemma Stamps(m: State, junk: int)
    requires At(m, StampStart(m.gid))
    ensures Moves(m, FunStep(m, StampStart(m.gid), junk), EnterGroup(m.gid))
  {
  }

  lemma EntersGroup(m: State, junk: int)
    requires At(m, EnterGroup(m.gid))
    ensures Moves(m, FunStep(m, EnterGroup(m.gid), junk), ReadSignal)
  {
  }

  lemma ReadsSignal(m: State, junk: int)
    requires At(m, ReadSignal)
    ensures Moves(m, FunStep(m, ReadSignal, junk), ReadSignalEnd)
  {
  }

  lemma ReadSignalEnds(m: State, junk: int)
    requires At(m, ReadSignalEnd)
    ensures Moves(m, FunStep(m, ReadSignalEnd, junk), SwapDeferred(Schedule))
  {
  }

  lemma SwapsDeferredFirst(m: State, junk: int)
    requires At(m, SwapDeferred(Schedule))
    ensures Moves(m, FunStep(m, SwapDeferred(Schedule), junk), Unblock(Schedule))
  {
  }

  lemma FindsDeferred(m: State, junk: int)
    requires At(m, SwapDeferred(Hook)) && m.tls.deferred
    ensures Moves(m, FunStep(m, SwapDeferred(Hook), junk), RereadSignal(Hook))
  {
  }

  lemma FindsNothingDeferred(m: State, junk: int)
    requires At(m, SwapDeferred(Hook)) && !m.tls.deferred
    ensures Moves(m, FunStep(m, SwapDeferred(Hook), junk), OwnCode)
  {
  }

  lemma SwapsDeferredInHook(m: State, junk: int)
    requires At(m, SwapDeferred(Hook))
    ensures Moves(m, FunStep(m, SwapDeferred(Hook), junk), if m.tls.deferred then RereadSignal(Hook) else OwnCode)
  {
    if m.tls.deferred {
      FindsDeferred(m, junk);
    } else {
      FindsNothingDeferred(m, junk);
    }
  }

  lemma RereadsSignal(m: State, junk: int)
    requires At(m, RereadSignal(Hook))
    ensures Moves(m, FunStep(m, RereadSignal(Hook), junk), RereadSignalEnd(Hook))
  {
    var m' := FunStep(m, RereadSignal(Hook), junk);
    assert m' == Goto(m.(signalCell := Reading), RereadSignalEnd(Hook));
    Stays(m, m');
    assert ControlOk(m', RereadSignalEnd(Hook));
    assert OwingOk(m', RereadSignalEnd(Hook));
    Arrives(m, m', RereadSignalEnd(Hook));
  }

  lemma RereadSignalEnds(m: State, junk: int)
    requires At(m, RereadSignalEnd(Hook))
    ensures Moves(m, FunStep(m, RereadSignalEnd(Hook), junk), Kill(Hook))
  {
    var m' := FunStep(m, RereadSignalEnd(Hook), junk);
    assert m' == Goto(m.(signalCell := Free), Kill(Hook));
    Stays(m, m');
    assert ControlOk(m', Kill(Hook));
    assert OwingOk(m', Kill(Hook));
    Arrives(m, m', Kill(Hook));
  }

  lemma Kills(m: State, junk: int)
    requires At(m, Kill(Hook))
    ensures Moves(m, FunStep(m, Kill(Hook), junk), Unblock(Hook))
  {
    var m' := FunStep(m, Kill(Hook), junk);
    assert m' == Goto(m.(pending := true), Unblock(Hook));
    Stays(m, m');
    assert ControlOk(m', Unblock(Hook));
    assert OwingOk(m', Unblock(Hook));
    Arrives(m, m', Unblock(Hook));
  }

  lemma Unblocks(m: State, who: Caller, junk: int)
    requires At(m, Unblock(who))
    ensures Moves(m, FunStep(m, Unblock(who), junk), Unblocked(who))
  {
    var m' := FunStep(m, Unblock(who), junk);
    assert m' == Goto(m.(blocked := false), Unblocked(who));
    Stays(m, m');
    assert ControlOk(m', Unblocked(who));
    assert OwingOk(m', Unblocked(who));
    Arrives(m, m', Unblocked(who));
  }

  lemma ReturnsFromUnblock(m: State, who: Caller, junk: int)
    requires At(m, Unblocked(who)) && Enabled(m)
    ensures Moves(m, FunStep(m, Unblocked(who), junk), if who == Schedule then Invoke else OwnCode)
  {
  }

  // ---- The function ----

  lemma Invokes(m: State, junk: int)
    requires At(m, Invoke)
    ensures Moves(m, FunStep(m, Invoke, junk), OwnCode)
  {
  }

  lemma Computes(m: State, junk: int)
    requires At(m, OwnCode) && m.fn.program.own(m.regs, m.errno).Compute?
    ensures Moves(m, FunStep(m, OwnCode, junk), OwnCode)
  {
    var m' := FunStep(m, OwnCode, junk);
    assert m' == m.(fn := Stepped(m.fn), regs := m'.regs, errno := m'.errno);
    OneStepMore(m.fn, View(Own, m.regs, m.errno, 0));
    assert ControlOk(m', OwnCode);
    assert OwingOk(m', OwnCode);
    Arrives(m, m', OwnCode);
  }

  lemma EntersLibrary(m: State, junk: int)
    requires At(m, OwnCode) && m.fn.program.own(m.regs, m.errno).CallLibrary?
    ensures Moves(m, FunStep(m, OwnCode, junk), LibraryCode)
  {
    var m' := FunStep(m, OwnCode, junk);
    assert m' == Goto(m.(fn := Stepped(m.fn), regs := m'.regs, sharedErrno := m'.sharedErrno, group := Shared), LibraryCode);
    Stays(m, m');
    OneStepMore(m.fn, View(Own, m.regs, m.errno, 0));
    assert ControlOk(m', LibraryCode);
    assert OwingOk(m', LibraryCode);
    Arrives(m, m', LibraryCode);
  }

  lemma EntersPause(m: State, junk: int)
    requires At(m, OwnCode) && m.fn.program.own(m.regs, m.errno).CallPause?
    ensures Moves(m, FunStep(m, OwnCode, junk), ZeroDeadline)
  {
    var m' := FunStep(m, OwnCode, junk);
    assert m' == Goto(m.(fn := Stepped(m.fn), regs := m'.regs, group := Shared), ZeroDeadline);
    Stays(m, m');
    OneStepMore(m.fn, View(Own, m.regs, m.errno, 0));
    assert ControlOk(m', ZeroDeadline);
    assert OwingOk(m', ZeroDeadline);
    Arrives(m, m', ZeroDeadline);
  }

  lemma Finishes(m: State, junk: int)
    requires At(m, OwnCode) && m.fn.program.own(m.regs, m.errno).Finish?
    ensures Moves(m, FunStep(m, OwnCode, junk), LeaveGroup)
  {
    var m' := FunStep(m, OwnCode, junk);
    assert m' == Goto(m.(fn := m'.fn), LeaveGroup);
    OneStepMore(m.fn, View(Own, m.regs, m.errno, 0));
    assert ControlOk(m', LeaveGroup);
    assert OwingOk(m', LeaveGroup);
    Arrives(m, m', LeaveGroup);
  }

  lemma RunsOwnCode(m: State, junk: int)
    requires At(m, OwnCode)
    ensures Moves(m, FunStep(m, OwnCode, junk),
                  match m.fn.program.own(m.regs, m.errno)
               case Compute(_, _) => OwnCode
               case CallLibrary(_, _) => LibraryCode
               case CallPause(_) => ZeroDeadline
               case Finish(_) => LeaveGroup)
  {
    match m.fn.program.own(m.regs, m.errno)
    case Compute(_, _) => Computes(m, junk);
    case CallLibrary(_, _) => EntersLibrary(m, junk);
    case CallPause(_) => EntersPause(m, junk);
    case Finish(_) => Finishes(m, junk);
  }

  lemma WorksInLibrary(m: State, junk: int)
    requires At(m, LibraryCode) && m.fn.program.library(m.regs, m.sharedErrno).Work?
    ensures Moves(m, FunStep(m, LibraryCode, junk), LibraryCode)
  {
    var m' := FunStep(m, LibraryCode, junk);
    assert m' == m.(fn := Stepped(m.fn), regs := m'.regs, sharedErrno := m'.sharedErrno);
    OneStepMore(m.fn, View(InLibrary, m.regs, m.errno, m.sharedErrno));
    assert ControlOk(m', LibraryCode);
    assert OwingOk(m', LibraryCode);
    Arrives(m, m', LibraryCode);
  }

  lemma ReturnsFromLibrary(m: State, junk: int)
    requires At(m, LibraryCode) && m.fn.program.library(m.regs, m.sharedErrno).Return?
    ensures Moves(m, FunStep(m, LibraryCode, junk), LeaveLibrary)
  {
    var m' := FunStep(m, LibraryCode, junk);
    assert m' == Goto(m.(fn := Stepped(m.fn), regs := m'.regs), LeaveLibrary);
    Stays(m, m');
    OneStepMore(m.fn, View(InLibrary, m.regs, m.errno, m.sharedErrno));
    assert ControlOk(m', LeaveLibrary);
    assert OwingOk(m', LeaveLibrary);
    Arrives(m, m', LeaveLibrary);
  }

  lemma RunsLibrary(m: State, junk: int)
    requires At(m, LibraryCode)
    ensures Moves(m, FunStep(m, LibraryCode, junk),
                  if m.fn.program.library(m.regs, m.sharedErrno).Work? then LibraryCode else LeaveLibrary)
  {
    if m.fn.program.library(m.regs, m.sharedErrno).Work? {
      WorksInLibrary(m, junk);
    } else {
      ReturnsFromLibrary(m, junk);
    }
  }

  lemma LeavesLibrary(m: State, junk: int)
    requires At(m, LeaveLibrary)
    ensures Moves(m, FunStep(m, LeaveLibrary, junk), SwapDeferred(Hook))
  {
    var m' := FunStep(m, LeaveLibrary, junk);
    assert m' == Goto(m.(group := Private(m.gid)), SwapDeferred(Hook));
    Stays(m, m');
    assert ControlOk(m', SwapDeferred(Hook));
    assert OwingOk(m', SwapDeferred(Hook));
    Arrives(m, m', SwapDeferred(Hook));
  }

  // ---- pause() ----

  lemma ZeroesDeadline(m: State, junk: int)
    requires At(m, ZeroDeadline)
    ensures Moves(m, FunStep(m, ZeroDeadline, junk), PauseReadSignal)
  {
    var m' := FunStep(m, ZeroDeadline, junk);
    assert m' == Goto(m.(tls := m.tls.(deadline := 0), slice := m.slice.(called := true), fn := m.fn.(pauseCalls := m.fn.pauseCalls + 1)), PauseReadSignal);
    Stays(m, m');
    assert ControlOk(m', PauseReadSignal);
    assert OwingOk(m', PauseReadSignal);
    Arrives(m, m', PauseReadSignal);
  }

  lemma PauseReadsSignal(m: State, junk: int)
    requires At(m, PauseReadSignal)
    ensures Moves(m, FunStep(m, PauseReadSignal, junk), PauseReadSignalEnd)
  {
    var m' := FunStep(m, PauseReadSignal, junk);
    assert m' == Goto(m.(signalCell := Reading), PauseReadSignalEnd);
    Stays(m, m');
    assert ControlOk(m', PauseReadSignalEnd);
    assert OwingOk(m', PauseReadSignalEnd);
    Arrives(m, m', PauseReadSignalEnd);
  }

  lemma PauseReadSignalEnds(m: State, junk: int)
    requires At(m, PauseReadSignalEnd)
    ensures Moves(m, FunStep(m, PauseReadSignalEnd, junk), PauseBlock)
  {
    var m' := FunStep(m, PauseReadSignalEnd, junk);
    assert m' == Goto(m.(signalCell := Free), PauseBlock);
    Stays(m, m');
    assert ControlOk(m', PauseBlock);
    assert OwingOk(m', PauseBlock);
    Arrives(m, m', PauseBlock);
  }

  lemma PauseBlocks(m: State, junk: int)
    requires At(m, PauseBlock)
    ensures Moves(m, FunStep(m, PauseBlock, junk), PauseDefer)
  {
    var m' := FunStep(m, PauseBlock, junk);
    assert m' == Goto(m.(blocked := true), PauseDefer);
    Stays(m, m');
    assert ControlOk(m', PauseDefer);
    assert OwingOk(m', PauseDefer);
    Arrives(m, m', PauseDefer);
  }

  lemma PauseDefers(m: State, junk: int)
    requires At(m, PauseDefer)
    ensures Moves(m, FunStep(m, PauseDefer, junk), LeaveLibrary)
  {
    var m' := FunStep(m, PauseDefer, junk);
    assert m' == Goto(m.(tls := m.tls.(deferred := true), fn := Stepped(m.fn)), LeaveLibrary);
    Stays(m, m');
    OneStepMore(m.fn, View(InPause, m.regs, m.errno, 0));
    assert ControlOk(m', LeaveLibrary);
    assert OwingOk(m', LeaveLibrary);
    Arrives(m, m', LeaveLibrary);
  }

  // ---- disable_preemption() and the end of schedule() ----

  /** Once the signal is masked for good, all that can be owed is what is overdue. */
  lemma OwesTheSame(m: State, m': State, f: FunPc, f': FunPc)
    requires OwingOk(m, f) && f in {ClearSignal, ClearSignalEnd, ClearDeferred, CheckTask}
    requires f' in {ClearSignalEnd, ClearDeferred, CheckTask, Exit}
    requires m'.fn == m.fn && m'.slice == m.slice && m'.tls.deadline == m.tls.deadline && m'.now == m.now && m'.us == m.us
    ensures OwingOk(m', f')
  {
  }

  lemma LeavesGroup(m: State, junk: int)
    requires At(m, LeaveGroup)
    ensures Moves(m, FunStep(m, LeaveGroup, junk), BlockSignal)
  {
    var m' := FunStep(m, LeaveGroup, junk);
    assert m' == Goto(m.(group := Shared), BlockSignal);
    Stays(m, m');
    assert ControlOk(m', BlockSignal);
    assert OwingOk(m', BlockSignal);
    Arrives(m, m', BlockSignal);
  }

  lemma BlocksSignal(m: State, junk: int)
    requires At(m, BlockSignal)
    ensures Moves(m, FunStep(m, BlockSignal, junk), ClearSignal)
  {
    var m' := FunStep(m, BlockSignal, junk);
    assert m' == Goto(m.(blocked := true), ClearSignal);
    Stays(m, m');
    assert ControlOk(m', ClearSignal);
    assert OwingOk(m', ClearSignal);
    Arrives(m, m', ClearSignal);
  }

  lemma ClearsSignal(m: State, junk: int)
    requires At(m, ClearSignal)
    ensures Moves(m, FunStep(m, ClearSignal, junk), ClearSignalEnd)
  {
    var m' := FunStep(m, ClearSignal, junk);
    assert m' == Goto(m.(signalCell := Writing), ClearSignalEnd);
    Stays(m, m');
    assert ControlOk(m', ClearSignalEnd);
    OwesTheSame(m, m', ClearSignal, ClearSignalEnd);
    Arrives(m, m', ClearSignalEnd);
  }

  lemma ClearSignalEnds(m: State, junk: int)
    requires At(m, ClearSignalEnd)
    ensures Moves(m, FunStep(m, ClearSignalEnd, junk), ClearDeferred)
  {
    var m' := FunStep(m, ClearSignalEnd, junk);
    assert m' == Goto(m.(signalCell := Free, tls := m.tls.(signal := false)), ClearDeferred);
    Stays(m, m');
    assert ControlOk(m', ClearDeferred);
    OwesTheSame(m, m', ClearSignalEnd, ClearDeferred);
    Arrives(m, m', ClearDeferred);
  }

  lemma ClearsDeferred(m: State, junk: int)
    requires At(m, ClearDeferred)
    ensures Moves(m, FunStep(m, ClearDeferred, junk), CheckTask)
  {
    var m' := FunStep(m, ClearDeferred, junk);
    assert m' == Goto(m.(tls := m.tls.(deferred := false)), CheckTask);
    Stays(m, m');
    assert ControlOk(m', CheckTask);
    OwesTheSame(m, m', ClearDeferred, CheckTask);
    Arrives(m, m', CheckTask);
  }

  lemma FindsTaskInOrder(m: State, junk: int)
    requires m.taskCell == Free && m.tls.task.errno.None?
    ensures FunStep(m, CheckTask, junk) == Goto(m, Exit)
  {
  }

  lemma OnlyGoes(m: State, f: FunPc)
    requires m.pc.Fun?
    ensures Unmoved(m, Goto(m, f))
  {
  }

  lemma OnlyReturns(m: State)
    requires m.pc.Fun?
    ensures Unmoved(m, AtCallSite(m))
  {
  }

  lemma ExitIsControlled(m: State)
    requires ControlOk(m, CheckTask)
    ensures ControlOk(Goto(m, Exit), Exit)
  {
  }

  lemma ChecksTask(m: State, junk: int)
    requires At(m, CheckTask)
    ensures Moves(m, FunStep(m, CheckTask, junk), Exit)
  {
    FindsTaskInOrder(m, junk);
    ExitIsControlled(m);
    OwesTheSame(m, Goto(m, Exit), CheckTask, Exit);
    OnlyGoes(m, Exit);
    Arrives(m, Goto(m, Exit), Exit);
  }

  /** Returning from schedule(), to a call site that had the signal masked. */
  function AtCallSite(m: State): State {
    m.(blocked := true, pc := Deschedule)
  }

  lemma ExitReturns(m: State, junk: int)
    requires ControlOk(m, Exit)
    ensures FunStep(m, Exit, junk) == AtCallSite(m)
  {
  }

  lemma ReturnedIsDescheduled(m: State)
    requires ControlOk(m, Exit) && OwingOk(m, Exit) && Over(m.fn)
    ensures EndInv(AtCallSite(m))
  {
  }

  lemma Exits(m: State, junk: int)
    requires At(m, Exit)
    ensures FunStep(m, Exit, junk).pc == Deschedule && EndInv(FunStep(m, Exit, junk)) && Unmoved(m, FunStep(m, Exit, junk))
  {
    ExitReturns(m, junk);
    ReturnedIsDescheduled(m);
    OnlyReturns(m);
  }

  // ---- All function-side steps ----

  lemma EnableKeepsInv(m: State, f: FunPc, junk: int)
    requires At(m, f) && Enabled(m) && (Entering(f) || HookMasked(f) || f.Unblocked? || f.SwapDeferred?)
    ensures FunStep(m, f, junk).pc.Fun? && Moves(m, FunStep(m, f, junk), FunStep(m, f, junk).pc.f)
  {
    match f
    case TakeBootstrap => TakesBootstrap(m, junk);
    case StampStart(_) => Stamps(m, junk);
    case EnterGroup(_) => EntersGroup(m, junk);
    case ReadSignal => ReadsSignal(m, junk);
    case ReadSignalEnd => ReadSignalEnds(m, junk);
    case SwapDeferred(who) => if who == Schedule { SwapsDeferredFirst(m, junk); } else { SwapsDeferredInHook(m, junk); }
    case RereadSignal(_) => RereadsSignal(m, junk);
    case RereadSignalEnd(_) => RereadSignalEnds(m, junk);
    case Kill(_) => Kills(m, junk);
    case Unblock(who) => Unblocks(m, who, junk);
    case Unblocked(who) => ReturnsFromUnblock(m, who, junk);
  }

  lemma FunctionKeepsInv(m: State, f: FunPc, junk: int)
    requires At(m, f) && !After(f) && !(Entering(f) || HookMasked(f) || f.Unblocked? || f.SwapDeferred?)
    ensures FunStep(m, f, junk).pc.Fun? && Moves(m, FunStep(m, f, junk), FunStep(m, f, junk).pc.f)
  {
    match f
    case Invoke => Invokes(m, junk);
    case OwnCode => RunsOwnCode(m, junk);
    case LibraryCode => RunsLibrary(m, junk);
    case LeaveLibrary => LeavesLibrary(m, junk);
    case ZeroDeadline => ZeroesDeadline(m, junk);
    case PauseReadSignal => PauseReadsSignal(m, junk);
    case PauseReadSignalEnd => PauseReadSignalEnds(m, junk);
    case PauseBlock => PauseBlocks(m, junk);
    case PauseDefer => PauseDefers(m, junk);
  }

  lemma DisableKeepsInv(m: State, f: FunPc, junk: int)
    requires At(m, f) && After(f) && f != Exit
    ensures FunStep(m, f, junk).pc.Fun? && Moves(m, FunStep(m, f, junk), FunStep(m, f, junk).pc.f)
  {
    match f
    case LeaveGroup => LeavesGroup(m, junk);
    case BlockSignal => BlocksSignal(m, junk);
    case ClearSignal => ClearsSignal(m, junk);
    case ClearSignalEnd => ClearSignalEnds(m, junk);
    case ClearDeferred => ClearsDeferred(m, junk);
    case CheckTask => ChecksTask(m, junk);
  }

  lemma FunKeepsInv(m: State, f: FunPc, junk: int)
    requires At(m, f) && Enabled(m) && (m.pending ==> m.armed)
    ensures Inv(FunStep(m, f, junk)) && Unmoved(m, FunStep(m, f, junk))
  {
    if f == Exit {
      Exits(m, junk);
    } else if After(f) {
      DisableKeepsInv(m, f, junk);
    } else if Entering(f) || HookMasked(f) || f.Unblocked? || f.SwapDeferred? {
      EnableKeepsInv(m, f, junk);
    } else {
      FunctionKeepsInv(m, f, junk);
    }
  }

  // ---- Mainline steps ----

  lemma SetupKeepsInv(m: State)
    requires Inv(m) && m.pc in {BlockFirst, Arm, SetSignal, SetSignalEnd, Bootstrap, SetDeadline}
    ensures Inv(SetupStep(m))
  {
  }

  lemma TakeAndPutKeepInv(m: State)
    requires Inv(m) && (m.pc == TakeCheckpoint || m.pc.PutCheckpoint? || m.pc == PutCheckpointEnd)
    ensures Inv(SwitchStep(m))
  {
  }

  lemma ReenableKeepsInv(m: State)
    requires Inv(m) && m.pc in {ResumeReadSignal, ResumeReadSignalEnd, MaskBlock, StampResume}
    ensures Inv(SwitchStep(m))
  {
  }

  lemma ReturnToGroupKeepsInv(m: State)
    requires Inv(m) && (m.pc == SwitchGroup || m.pc == RestoreErrno)
    ensures Inv(SwitchStep(m))
  {
  }

  /** The jump into a fresh function starts schedule() with the signal still masked. */
  lemma JumpsIntoFresh(m: State)
    requires Inv(m) && m.pc == Jump && m.task.errno.None?
    ensures At(SwitchStep(m), TakeBootstrap)
  {
  }

  /** The jump into a paused function unmasks the signal and lands where it was paused. */
  lemma JumpsIntoPaused(m: State)
    requires Inv(m) && m.pc == Jump && m.task.errno.Some?
    ensures m.tls.task.checkpoint.Some? && m.tls.task.checkpoint.value.code.Interrupted?
    ensures At(SwitchStep(m), m.tls.task.checkpoint.value.code.f)
  {
  }

  lemma DescheduleKeepsInv(m: State)
    requires Inv(m) && (m.pc == Deschedule || m.pc.DescheduleEnd?)
    ensures Inv(DescheduleStep(m))
  {
  }

  lemma JunkKeepsInv(m: State, junk: int)
    requires Inv(m) && !m.pc.Fun?
    ensures Inv(m.(sharedErrno := junk))
  {
  }

  lemma SwitchKeepsInv(m: State)
    requires Inv(m)
    requires m.pc.PutCheckpoint? ||
             m.pc in {TakeCheckpoint, PutCheckpointEnd, ResumeReadSignal, ResumeReadSignalEnd, MaskBlock, StampResume,
                      SwitchGroup, RestoreErrno, Jump}
    ensures Inv(SwitchStep(m))
  {
    if m.pc == Jump {
      if m.task.errno.None? { JumpsIntoFresh(m); } else { JumpsIntoPaused(m); }
    } else if m.pc == SwitchGroup || m.pc == RestoreErrno {
      ReturnToGroupKeepsInv(m);
    } else if m.pc == TakeCheckpoint || m.pc.PutCheckpoint? || m.pc == PutCheckpointEnd {
      TakeAndPutKeepInv(m);
    } else {
      ReenableKeepsInv(m);
    }
  }

  lemma MainKeepsInv(m: State, junk: int)
    requires Inv(m) && Enabled(m)
    ensures Inv(MainStep(m, junk))
  {
    if m.pc.Fun? {
      FunKeepsInv(m, m.pc.f, junk);
    } else {
      JunkKeepsInv(m, junk);
      var m' := m.(sharedErrno := junk);
      if m.pc in {BlockFirst, Arm, SetSignal, SetSignalEnd, Bootstrap, SetDeadline} {
        SetupKeepsInv(m');
      } else if m.pc == Deschedule || m.pc.DescheduleEnd? {
        DescheduleKeepsInv(m');
      } else {
        SwitchKeepsInv(m');
      }
    }
  }

  // ---- The handler ----

  /** The state in which the handler finds a function it must pause. */
  ghost predicate Due(m: State, f: FunPc) {
    At(m, f) && m.pending && !m.blocked && m.group != Shared && m.now >= m.tls.deadline
  }

  lemma DueIsPausable(m: State, f: FunPc)
    requires Due(m, f)
    ensures Pausable(f) && m.tls.signal && m.signalCell == Free && m.taskCell == Free
  {
  }

  /** What the handler's pause does to the state. */
  ghost predicate PausedAt(m: State, m': State, f: FunPc) {
    var paused :=
      && m.tls.task.checkpoint.Some?
      && m'.tls.task ==
         Task(Some(m.errno), Some(Context(m.tls.task.checkpoint.value.stack, false, Interrupted(f, m.regs))), m.tls.deadline == 0)
      && m'.pc == Deschedule && m'.group == Shared && m'.blocked
      && !m'.tls.signal && !m'.tls.deferred && m'.tls.bootstrap == m.tls.bootstrap && m'.tls.deadline == m.tls.deadline
      && m'.signalCell == Free && m'.taskCell == Free
      && m'.armed == m.armed && m'.now == m.now && m'.us == m.us && m'.gid == m.gid
      && m'.task == m.task && m'.stacks == m.stacks
      && m'.fn == (if m.slice.called then m.fn.(pausesTaken := m.fn.pausesTaken + 1) else m.fn)
      && m'.slice == m.slice.(pausedAt := m.now, overdue := false);
    paused
  }

  /** Due, in the function's own group: the handler pauses it, and ends at the call site. */
  lemma HandlerPauses(m: State, f: FunPc, junk: int)
    requires Due(m, f)
    ensures PausedAt(m, Step(m, Deliver(junk)), f)
  {
    DueIsPausable(m, f);
  }

  lemma PausedIsDescheduled(m: State, m': State, f: FunPc)
    requires Due(m, f) && Pausable(f) && PausedAt(m, m', f)
    ensures EndInv(m') && Unmoved(m, m')
  {
  }

  /** Before the deadline, the handler leaves no trace: even errno is put back. */
  lemma HandlerLeavesNoTrace(m: State, f: FunPc, junk: int)
    requires At(m, f) && m.pending && !m.blocked && m.group != Shared && m.now < m.tls.deadline
    ensures Step(m, Deliver(junk)) == m.(pending := false)
  {
  }

  /** A signal that is not the thread's own is masked, and otherwise ignored. */
  lemma StrangeSignalIsMasked(m: State, junk: int)
    requires !m.tls.signal && m.signalCell != Writing
    ensures Step(m, Deliver(junk)) == m.(pending := false, blocked := true)
  {
  }

  lemma DeliveryKeepsInv(m: State, f: FunPc)
    requires At(m, f) && m.group != Shared && m.now < m.tls.deadline
    ensures Moves(m, m.(pending := false), f)
  {
  }

  lemma HandlerReturns(m: State, f: FunPc, junk: int)
    requires At(m, f) && m.pending && !m.blocked && m.group != Shared && m.now < m.tls.deadline
    ensures Moves(m, Step(m, Deliver(junk)), f)
  {
    HandlerLeavesNoTrace(m, f, junk);
    DeliveryKeepsInv(m, f);
  }

  /** What the handler does when it finds the function in a nonpreemptible call: mask the signal, set the flag. */
  function Deferring(m: State): State {
    DeferInHandler(m.(pending := false))
  }

  lemma HandlerIsDeferring(m: State, junk: int)
    requires m.group == Shared && m.tls.signal && m.signalCell != Writing
    ensures Step(m, Deliver(junk)) == Deferring(m)
  {
  }

  lemma SharedIsDeferrable(m: State, f: FunPc)
    requires ControlOk(m, f) && !m.blocked && m.group == Shared
    ensures m.tls.signal && m.signalCell != Writing
  {
  }

  lemma DeferringIsControlled(m: State, f: FunPc)
    requires ControlOk(m, f) && !m.blocked && m.group == Shared
    ensures ControlOk(Deferring(m), f)
  {
  }

  lemma DeferringIsRecorded(m: State, f: FunPc)
    requires ControlOk(m, f) && OwingOk(m, f) && !m.blocked && m.group == Shared
    ensures OwingOk(Deferring(m), f)
  {
  }

  lemma DeferringKeepsInv(m: State, f: FunPc)
    requires At(m, f) && !m.blocked && m.group == Shared
    ensures Moves(m, Deferring(m), f)
  {
    DeferringIsControlled(m, f);
    DeferringIsRecorded(m, f);
    Arrives(m, Deferring(m), f);
  }

  lemma HandlerDefers(m: State, f: FunPc, junk: int)
    requires At(m, f) && m.pending && !m.blocked && m.group == Shared
    ensures Moves(m, Step(m, Deliver(junk)), f)
    ensures Step(m, Deliver(junk)).blocked && Step(m, Deliver(junk)).tls.deferred
  {
    SharedIsDeferrable(m, f);
    HandlerIsDeferring(m, junk);
    DeferringKeepsInv(m, f);
  }

  /** Outside the timed function, the signal is masked whenever its timer runs. */
  lemma MaskedOutside(m: State)
    requires Inv(m) && !m.pc.Fun? && m.armed
    ensures m.blocked
  {
  }

  lemma HandlerKeepsInv(m: State, junk: int)
    requires Inv(m) && CanHappen(m, Deliver(junk))
    ensures Inv(Step(m, Deliver(junk))) && Unmoved(m, Step(m, Deliver(junk)))
  {
    if !m.pc.Fun? {
      MaskedOutside(m);
    } else if m.group == Shared {
      HandlerDefers(m, m.pc.f, junk);
    } else if m.now >= m.tls.deadline {
      DueIsPausable(m, m.pc.f);
      HandlerPauses(m, m.pc.f, junk);
      PausedIsDescheduled(m, Step(m, Deliver(junk)), m.pc.f);
    } else {
      HandlerReturns(m, m.pc.f, junk);
    }
  }

  lemma TickKeepsInv(m: State)
    requires Inv(m) && CanHappen(m, Tick)
    ensures Inv(Step(m, Tick))
  {
  }

  lemma ClockKeepsInv(m: State, now: nat)
    requires Inv(m) && CanHappen(m, Clock(now))
    ensures Inv(Step(m, Clock(now)))
  {
  }

  lemma StepKeepsInv(m: State, e: Event)
    requires Inv(m) && CanHappen(m, e)
    ensures Inv(Step(m, e))
  {
    match e
    case Main(junk) => MainKeepsInv(m, junk);
    case Deliver(junk) => HandlerKeepsInv(m, junk);
    case Tick => TickKeepsInv(m);
    case Clock(now) => ClockKeepsInv(m, now);
  }
}
