/**
 Exactly when a step of the machine fails, for any state whatsoever: what the code asserts,
 expects, borrows or unwraps.  In no run does any of it happen: see Theorems.NothingEverFails.
 */
module Faults {
  import opened Machine

  /** thread_signal() is called. */
  predicate ReadsSignal(pc: Pc) {
    pc == ResumeReadSignal || pc == Fun(ReadSignal) || pc == Fun(PauseReadSignal) || (pc.Fun? && pc.f.RereadSignal?)
  }

  /** SIGNAL.replace() is called. */
  predicate ReplacesSignal(pc: Pc) {
    pc == SetSignal || pc == Fun(ClearSignal)
  }

  /** TASK is borrowed to be changed. */
  predicate ChangesTask(pc: Pc) {
    pc.PutCheckpoint? || pc == Deschedule
  }

  /** SIGNAL is borrowed where that is not possible, or is not there for those who cannot do without. */
  predicate SignalFails(m: State) {
    || (ReadsSignal(m.pc) && m.signalCell == Writing)
    || (ReadsSignal(m.pc) && !m.tls.signal && m.pc != Fun(RereadSignal(Hook)))
    || (ReplacesSignal(m.pc) && m.signalCell != Free)
  }

  /** TASK is borrowed where that is not possible, or is in use when it should not be. */
  predicate TaskFails(m: State) {
    || (ChangesTask(m.pc) && m.taskCell != Free)
    || (m.pc.PutCheckpoint? && m.tls.task.checkpoint.Some?)
    || (m.pc == Fun(CheckTask) && (m.taskCell == Writing || m.tls.task.errno.Some?))
  }

  /** There is no context to jump to, or it is the wrong one. */
  predicate ContextFails(m: State) {
    || (m.pc == TakeCheckpoint && m.task.checkpoint.None?)
    || ((m.pc == MaskBlock || m.pc == Jump || m.pc == Fun(Exit)) && m.tls.task.checkpoint.None?)
    || (m.pc == Jump && m.tls.task.checkpoint.Some? && m.tls.task.checkpoint.value.code == CallSite)
    || (m.pc == Fun(Exit) && m.tls.task.checkpoint.Some? && m.tls.task.checkpoint.value.code != CallSite)
  }

  /** The function is bootstrapped twice or never, called for its result too early, or paused in its own group. */
  predicate FunctionFails(m: State) {
    || (m.pc == Bootstrap && m.task.errno.None? && m.tls.bootstrap.Some?)
    || (m.pc == Fun(TakeBootstrap) && m.tls.bootstrap.None?)
    || (m.pc == Fun(Invoke) && m.fn.closure.Returned?)
    || (m.pc == Fun(PauseReadSignal) && m.group != Shared)
  }

  predicate MainFails(m: State) {
    var fails := SignalFails(m) || TaskFails(m) || ContextFails(m) || FunctionFails(m);
    fails
  }

  lemma SetupCrashesIff(m: State)
    requires m.pc == BlockFirst || m.pc == Arm || m.pc == SetSignal || m.pc == SetSignalEnd || m.pc == Bootstrap ||
             m.pc == SetDeadline
    ensures SetupStep(m).pc.Crash? <==> MainFails(m)
  {
  }

  lemma PutCrashesIff(m: State)
    requires m.pc == TakeCheckpoint || m.pc.PutCheckpoint? || m.pc == PutCheckpointEnd || m.pc == ResumeReadSignal ||
             m.pc == ResumeReadSignalEnd
    ensures SwitchStep(m).pc.Crash? <==> MainFails(m)
  {
  }

  lemma JumpCrashesIff(m: State)
    requires m.pc == MaskBlock || m.pc == StampResume || m.pc == SwitchGroup || m.pc == RestoreErrno || m.pc == Jump
    ensures SwitchStep(m).pc.Crash? <==> MainFails(m)
  {
  }

  lemma DescheduleCrashesIff(m: State)
    requires m.pc == Deschedule || m.pc.DescheduleEnd?
    ensures DescheduleStep(m).pc.Crash? <==> MainFails(m)
  {
  }

  lemma EntryCrashesIff(m: State, f: FunPc, junk: int)
    requires m.pc == Fun(f)
    requires f == TakeBootstrap || f.StampStart? || f.EnterGroup? || f == ReadSignal || f == ReadSignalEnd
    ensures EnableStep(m, f, junk).pc.Crash? <==> MainFails(m)
  {
  }

  lemma EnableCrashesIff(m: State, f: FunPc, junk: int)
    requires m.pc == Fun(f)
    requires f.SwapDeferred? || f.RereadSignal? || f.RereadSignalEnd? || f.Kill? || f.Unblock? || f.Unblocked?
    ensures EnableStep(m, f, junk).pc.Crash? <==> MainFails(m)
  {
  }

  lemma InvokeCrashesIff(m: State)
    requires m.pc == Fun(Invoke)
    ensures UserStep(m, Invoke).pc.Crash? <==> MainFails(m)
  {
  }

  lemma UserCrashesNot(m: State, f: FunPc)
    requires m.pc == Fun(f) && (f == OwnCode || f == LibraryCode || f == LeaveLibrary)
    ensures !UserStep(m, f).pc.Crash? && !MainFails(m)
  {
  }

  lemma PauseCrashesIff(m: State, f: FunPc)
    requires m.pc == Fun(f)
    requires f == ZeroDeadline || f == PauseReadSignal || f == PauseReadSignalEnd || f == PauseBlock || f == PauseDefer
    ensures PauseStep(m, f).pc.Crash? <==> MainFails(m)
  {
  }

  lemma DisableCrashesIff(m: State, f: FunPc)
    requires m.pc == Fun(f)
    requires f == LeaveGroup || f == BlockSignal || f == ClearSignal || f == ClearSignalEnd || f == ClearDeferred
    ensures DisableStep(m, f).pc.Crash? <==> MainFails(m)
  {
  }

  lemma ExitCrashesIff(m: State, f: FunPc)
    requires m.pc == Fun(f) && (f == CheckTask || f == Exit)
    ensures DisableStep(m, f).pc.Crash? <==> MainFails(m)
  {
  }

  lemma FunCrashesIff(m: State, f: FunPc, junk: int)
    requires m.pc == Fun(f)
    ensures FunStep(m, f, junk).pc.Crash? <==> MainFails(m)
  {
    match f
    case TakeBootstrap | StampStart(_) | EnterGroup(_) | ReadSignal | ReadSignalEnd => EntryCrashesIff(m, f, junk);
    case SwapDeferred(_) | RereadSignal(_) | RereadSignalEnd(_) | Kill(_) | Unblock(_) | Unblocked(_) =>
      EnableCrashesIff(m, f, junk);
    case Invoke => InvokeCrashesIff(m);
    case OwnCode | LibraryCode | LeaveLibrary => UserCrashesNot(m, f);
    case ZeroDeadline | PauseReadSignal | PauseReadSignalEnd | PauseBlock | PauseDefer => PauseCrashesIff(m, f);
    case LeaveGroup | BlockSignal | ClearSignal | ClearSignalEnd | ClearDeferred => DisableCrashesIff(m, f);
    case CheckTask | Exit => ExitCrashesIff(m, f);
  }

  lemma JunkFailsNot(m: State, junk: int)
    ensures MainFails(m.(sharedErrno := junk)) <==> MainFails(m)
  {
  }

  /** A mainline step fails exactly if what it needs of SIGNAL, TASK, the context or the function is not so. */
  lemma MainCrashesIff(m: State, junk: int)
    requires !m.pc.Crash?
    ensures MainStep(m, junk).pc.Crash? <==> MainFails(m)
  {
    var m' := m.(sharedErrno := junk);
    JunkFailsNot(m, junk);
    match m.pc
    case BlockFirst | Arm | SetSignal | SetSignalEnd | Bootstrap | SetDeadline => SetupCrashesIff(m');
    case TakeCheckpoint | PutCheckpoint(_) | PutCheckpointEnd | ResumeReadSignal | ResumeReadSignalEnd => PutCrashesIff(m');
    case MaskBlock | StampResume | SwitchGroup | RestoreErrno | Jump => JumpCrashesIff(m');
    case Deschedule | DescheduleEnd(_) => DescheduleCrashesIff(m');
    case Fun(f) => FunCrashesIff(m, f, junk);
    case Idle | Done(_) =>
  }

  /** The handler would pause the function here. */
  predicate Pauses(m: State) {
    m.tls.signal && m.group != Shared && m.now >= m.tls.deadline
  }

  /** It could not: a borrow is in the way, or there is no call site to return to. */
  predicate CannotPause(m: State) {
    var fails := m.signalCell != Free || m.taskCell != Free || m.tls.task.checkpoint.None? || !m.pc.Fun? ||
                 m.tls.task.checkpoint.value.code != CallSite;
    fails
  }

  lemma PauseInHandlerCrashesIff(m: State, erryes: int)
    requires !m.pc.Crash?
    ensures PauseInHandler(m, erryes).pc.Crash? <==> CannotPause(m)
  {
  }

  lemma ErrnoMattersNot(m: State, value: int)
    ensures SetErrno(m, value).pc == m.pc && (CannotPause(SetErrno(m, value)) <==> CannotPause(m))
  {
  }

  /** The handler fails exactly if SIGNAL is being replaced, or it is to pause and cannot. */
  lemma HandlerCrashesIff(m: State, junk: int)
    requires !m.pc.Crash?
    ensures Handler(m, junk).pc.Crash? <==> m.signalCell == Writing || (Pauses(m) && CannotPause(m))
  {
    ErrnoMattersNot(m, junk);
    PauseInHandlerCrashesIff(SetErrno(m, junk), Errno(m));
  }
}
