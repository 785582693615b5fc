/**
 The inductive invariant of the preemption protocol: one clause per program
 point, kept by every mainline micro-step and by the handler wherever it lands.
 */
module MachineInvariant {
  import opened Common
  import opened Programs
  import opened Machine

  /** A virtual thread-control block as it must be whenever it is not installed. */
  predicate Clean(t: Tls) {
    !t.signal && !t.deferred && t.task == DEFAULT_TASK && t.bootstrap.None?
  }

  // ---- The timed function against its uninterrupted run ----

  /** Program points before the closure is called. */
  predicate Before(f: FunPc) {
    match f
    case TakeBootstrap | StampStart(_) | EnterGroup(_) | ReadSignal | ReadSignalEnd | Invoke => true
    case SwapDeferred(who) => who == Schedule
    case RereadSignal(who) => who == Schedule
    case RereadSignalEnd(who) => who == Schedule
    case Kill(who) => who == Schedule
    case Unblock(who) => who == Schedule
    case Unblocked(who) => who == Schedule
    case _ => false
  }

  /** Program points after the closure has returned. */
  predicate After(f: FunPc) {
    f == LeaveGroup || f == BlockSignal || f == ClearSignal || f == ClearSignalEnd || f == ClearDeferred ||
    f == CheckTask || f == Exit
  }

  /** Inside pause(). */
  predicate Pausing(f: FunPc) {
    f == ZeroDeadline || f == PauseReadSignal || f == PauseReadSignalEnd || f == PauseBlock || f == PauseDefer
  }

  /** Points at which the handler may pause the function. */
  predicate Pausable(f: FunPc) {
    f.Unblocked? || f == Invoke || f == OwnCode || f == SwapDeferred(Hook) || f == LeaveGroup
  }

  /** What the function can observe, if it is interrupted at `f`. */
  function Seen(f: FunPc, regs: int, errno: int, libraryErrno: int): View {
    if f == LibraryCode then View(InLibrary, regs, errno, libraryErrno)
    else if Pausing(f) then View(InPause, regs, errno, 0)
    else View(Own, regs, errno, 0)
  }

  predicate Untouched(fn: Fn) {
    fn.closure.Function? && fn.invoked == 0
  }

  ghost predicate Underway(fn: Fn, seen: View) {
    fn.closure.Empty? && fn.invoked == 1 && seen == Uninterrupted(fn.program, fn.startErrno, fn.steps)
  }

  ghost predicate Over(fn: Fn) {
    fn.closure.Returned? && fn.invoked == 1 &&
    Uninterrupted(fn.program, fn.startErrno, fn.steps).at == Ended(fn.closure.outcome)
  }

  /** The function is exactly where its uninterrupted run is after as many steps. */
  ghost predicate Faithful(fn: Fn, f: FunPc, regs: int, errno: int, libraryErrno: int) {
    if Before(f) then Untouched(fn)
    else if After(f) then Over(fn)
    else Underway(fn, Seen(f, regs, errno, libraryErrno))
  }

  /** A task that holds a paused function. */
  ghost predicate HoldsPaused(fn: Fn, task: Task) {
    task.errno.Some? && task.checkpoint.Some? && task.checkpoint.value.code.Interrupted? &&
    Pausable(task.checkpoint.value.code.f) &&
    Faithful(fn, task.checkpoint.value.code.f, task.checkpoint.value.code.regs, task.errno.value, 0)
  }

  /** The task of a live continuation between slices. */
  ghost predicate TaskReady(fn: Fn, task: Task) {
    fn.pauseCalls == fn.pausesTaken &&
    if task.errno.Some? then HoldsPaused(fn, task) else Untouched(fn) && task.checkpoint.None?
  }

  // ---- Mainline program points ----

  /** The checkpoint of a continuation that is about to be jumped into. */
  ghost predicate Loaded(m: State, checkpoint: Option<Context>) {
    checkpoint.Some? && m.fn.pauseCalls == m.fn.pausesTaken &&
    if m.task.errno.Some? then
      m.tls.bootstrap.None? && HoldsPaused(m.fn, m.task.(checkpoint := checkpoint))
    else
      m.tls.bootstrap == Some(m.gid) && Untouched(m.fn) && checkpoint.value.code == Entry && checkpoint.value.blocked
  }

  predicate CellsFree(m: State) {
    m.signalCell == Free && m.taskCell == Free
  }

  ghost predicate SetupInv(m: State) {
    m.group == Shared && m.taskCell == Free && !m.tls.deferred && m.tls.task == DEFAULT_TASK &&
    m.slice == NEW_SLICE &&
    match m.pc
    case BlockFirst =>
      m.signalCell == Free && (m.armed ==> m.blocked) && !m.tls.signal && m.tls.bootstrap.None? && TaskReady(m.fn, m.task)
    case Arm =>
      m.signalCell == Free && m.blocked && !m.tls.signal && m.tls.bootstrap.None? && TaskReady(m.fn, m.task)
    case SetSignal =>
      m.signalCell == Free && m.armed && m.blocked && !m.tls.signal && m.tls.bootstrap.None? && TaskReady(m.fn, m.task)
    case SetSignalEnd =>
      m.signalCell == Writing && m.armed && m.blocked && m.tls.bootstrap.None? && TaskReady(m.fn, m.task)
    case Bootstrap =>
      m.signalCell == Free && m.armed && m.blocked && m.tls.signal && m.tls.bootstrap.None? && TaskReady(m.fn, m.task)
    case SetDeadline =>
      m.signalCell == Free && m.armed && m.blocked && m.tls.signal && Loaded(m, m.task.checkpoint)
    case _ => false
  }

  ghost predicate SwitchInv(m: State) {
    m.armed && m.blocked && m.tls.signal && !m.tls.deferred && m.tls.task.errno.None? && !m.tls.task.yielded &&
    (m.pc != TakeCheckpoint ==> m.siteBlocked && m.task.checkpoint.None?) &&
    (if m.pc == TakeCheckpoint then Loaded(m, m.task.checkpoint)
     else if m.pc.PutCheckpoint? then Loaded(m, Some(m.pc.taken))
     else Loaded(m, m.tls.task.checkpoint)) &&
    (m.pc == SwitchGroup || m.pc == RestoreErrno || m.pc == Jump || m.slice == NEW_SLICE) &&
    match m.pc
    case TakeCheckpoint => CellsFree(m) && m.group == Shared && m.tls.task == DEFAULT_TASK && m.tls.deadline == m.us
    case PutCheckpoint(_) => CellsFree(m) && m.group == Shared && m.tls.task == DEFAULT_TASK && m.tls.deadline == m.us
    case PutCheckpointEnd =>
      m.signalCell == Free && m.taskCell == Writing && m.group == Shared && m.tls.deadline == m.us
    case ResumeReadSignal => CellsFree(m) && m.group == Shared && m.tls.deadline == m.us && m.task.errno.Some?
    case ResumeReadSignalEnd =>
      m.signalCell == Reading && m.taskCell == Free && m.group == Shared && m.tls.deadline == m.us && m.task.errno.Some?
    case MaskBlock => CellsFree(m) && m.group == Shared && m.tls.deadline == m.us && m.task.errno.Some?
    case StampResume =>
      CellsFree(m) && m.group == Shared && m.tls.deadline == m.us && m.task.errno.Some? &&
      !m.tls.task.checkpoint.value.blocked
    case SwitchGroup =>
      CellsFree(m) && m.group == Shared && m.task.errno.Some? && !m.tls.task.checkpoint.value.blocked && JustStamped(m)
    case RestoreErrno =>
      CellsFree(m) && m.group == Private(m.gid) && m.task.errno.Some? &&
      !m.tls.task.checkpoint.value.blocked && JustStamped(m)
    case Jump =>
      CellsFree(m) &&
      if m.task.errno.Some? then
        m.group == Private(m.gid) && !m.tls.task.checkpoint.value.blocked && JustStamped(m) &&
        m.errno == m.task.errno.value
      else m.group == Shared && m.tls.deadline == m.us && m.slice == NEW_SLICE
    case _ => false
  }

  predicate JustStamped(m: State) {
    m.slice.stamped && !m.slice.called && !m.slice.overdue && m.slice.at <= m.now &&
    m.tls.deadline == Stamp(m.us, m.slice.at)
  }

  // ---- Program points of the timed function ----

  /** Points on the way into the function, before preemption is enabled. */
  predicate Entering(f: FunPc) {
    f == TakeBootstrap || f.StampStart? || f.EnterGroup? || f == ReadSignal || f == ReadSignalEnd ||
    f == SwapDeferred(Schedule) || f == Unblock(Schedule)
  }

  /** The hook, from finding preemption deferred to unmasking the signal. */
  predicate HookMasked(f: FunPc) {
    f == RereadSignal(Hook) || f == RereadSignalEnd(Hook) || f == Kill(Hook) || f == Unblock(Hook)
  }

  /** Points at which only the handler can have masked the signal, by deferring. */
  predicate Deferrable(f: FunPc) {
    f == LibraryCode || f == ZeroDeadline || f == PauseReadSignal || f == PauseReadSignalEnd || f == PauseBlock ||
    f == LeaveLibrary || f == SwapDeferred(Hook) || f == BlockSignal
  }

  predicate Open(f: FunPc) {
    f.Unblocked? || f == Invoke || f == OwnCode || f == LeaveGroup
  }

  /** Points at which a preemption is owed, having been requested or deferred. */
  predicate MaybeOwing(f: FunPc) {
    Deferrable(f) || HookMasked(f) || f == Unblocked(Hook) || f == PauseDefer
  }

  predicate Reachable(f: FunPc, gid: nat) {
    match f
    case StampStart(g) => g == gid
    case EnterGroup(g) => g == gid
    case RereadSignal(who) => who == Hook
    case RereadSignalEnd(who) => who == Hook
    case Kill(who) => who == Hook
    case _ => true
  }

  predicate GroupOk(m: State, f: FunPc) {
    match f
    case TakeBootstrap | StampStart(_) | EnterGroup(_) | LibraryCode | ZeroDeadline | PauseReadSignal |
      PauseReadSignalEnd | PauseBlock | PauseDefer | LeaveLibrary | BlockSignal | ClearSignal | ClearSignalEnd |
      ClearDeferred | CheckTask | Exit => m.group == Shared
    case _ => m.group == Private(m.gid)
  }

  function CellAt(f: FunPc): Cell {
    match f
    case ReadSignalEnd | RereadSignalEnd(_) | PauseReadSignalEnd => Reading
    case ClearSignalEnd => Writing
    case _ => Free
  }

  predicate MaskOk(m: State, f: FunPc) {
    if Open(f) then !m.blocked && !m.tls.deferred
    else if Deferrable(f) then m.blocked == m.tls.deferred
    else if Entering(f) || HookMasked(f) || f == CheckTask || f == Exit then m.blocked && !m.tls.deferred
    else m.blocked
  }

  /** History: the deadline in force and the preemptions owed. */
  predicate OwingOk(m: State, f: FunPc) {
    var ok :=
      && m.fn.pauseCalls == m.fn.pausesTaken + (if m.slice.called then 1 else 0)
      && (if f == TakeBootstrap || f.StampStart? then m.tls.deadline == m.us && m.slice == NEW_SLICE
          else
            m.slice.stamped && m.slice.at <= m.now &&
            m.tls.deadline == if m.slice.called then 0 else Stamp(m.us, m.slice.at))
      && (m.slice.called ==> MaybeOwing(f) && f != LibraryCode && f != ZeroDeadline && f != BlockSignal)
      && (Pausing(f) && f != ZeroDeadline ==> m.slice.called)
      && (m.slice.overdue ==>
            m.now >= m.tls.deadline && (MaybeOwing(f) || After(f)) && f != LeaveGroup)
      && ((m.slice.called || m.slice.overdue) && (f == LeaveLibrary || f == SwapDeferred(Hook)) ==> m.tls.deferred)
      && (m.slice.overdue && (f == LibraryCode || f == ZeroDeadline) ==> m.tls.deferred)
      && ((m.slice.called || m.slice.overdue) && (f == Unblock(Hook) || f == Unblocked(Hook)) ==> m.pending);
    ok
  }

  /** Group, borrows, mask and thread-local variables at each point. */
  predicate ControlOk(m: State, f: FunPc) {
    var ok :=
      && m.armed
      && Reachable(f, m.gid)
      && GroupOk(m, f)
      && m.signalCell == CellAt(f) && m.taskCell == Free
      && (m.tls.signal <==> !(f == ClearDeferred || f == CheckTask || f == Exit))
      && MaskOk(m, f)
      && m.tls.bootstrap == (if f == TakeBootstrap then Some(m.gid) else None)
      && m.task.checkpoint.None?
      && m.tls.task.errno.None? && !m.tls.task.yielded
      && m.tls.task.checkpoint.Some? && m.tls.task.checkpoint.value.blocked && m.tls.task.checkpoint.value.code == CallSite;
    ok
  }

  ghost predicate FunInv(m: State, f: FunPc) {
    ControlOk(m, f) && OwingOk(m, f) && Faithful(m.fn, f, m.regs, m.errno, m.sharedErrno)
  }

  // ---- After the slice ----

  /** What the slice that just ended says about itself. */
  predicate SliceOk(m: State, yielded: bool) {
    m.slice.stamped && m.slice.at <= m.slice.pausedAt && m.slice.pausedAt <= m.now &&
    (!m.slice.called ==> m.slice.pausedAt >= Stamp(m.us, m.slice.at)) &&
    (yielded <==> m.slice.called || Stamp(m.us, m.slice.at) == 0)
  }

  ghost predicate Descheduled(m: State, task: Task) {
    m.fn.pauseCalls == m.fn.pausesTaken &&
    if task.errno.Some? then HoldsPaused(m.fn, task) && SliceOk(m, task.yielded)
    else Over(m.fn) && task.checkpoint.Some? && !m.slice.called
  }

  ghost predicate EndInv(m: State) {
    var ok :=
      m.group == Shared && m.armed && m.blocked && !m.tls.signal && !m.tls.deferred && m.tls.bootstrap.None? &&
      m.signalCell == Free &&
      match m.pc
      case Deschedule => m.taskCell == Free && m.task.checkpoint.None? && Descheduled(m, m.tls.task)
      case DescheduleEnd(replaced) =>
        m.taskCell == Writing && m.task.checkpoint.None? && m.tls.task == DEFAULT_TASK && Descheduled(m, replaced)
      case Done(finished) =>
        m.taskCell == Free && m.tls.task == DEFAULT_TASK && m.fn.pauseCalls == m.fn.pausesTaken &&
        if finished then Over(m.fn) && m.task.errno.None? && m.task.checkpoint.None? && !m.slice.called
        else HoldsPaused(m.fn, m.task) && SliceOk(m, m.task.yielded)
      case _ => false;
    ok
  }

  ghost predicate IdleInv(m: State) {
    m.group == Shared && CellsFree(m) && (m.armed ==> m.blocked) && Clean(m.tls)
  }

  ghost predicate Inv(m: State) {
    var atPc :=
      match m.pc
      case Idle => IdleInv(m)
      case BlockFirst | Arm | SetSignal | SetSignalEnd | Bootstrap | SetDeadline => SetupInv(m)
      case TakeCheckpoint | PutCheckpoint(_) | PutCheckpointEnd | ResumeReadSignal | ResumeReadSignalEnd | MaskBlock |
        StampResume | SwitchGroup | RestoreErrno | Jump => SwitchInv(m)
      case Fun(f) => FunInv(m, f)
      case Deschedule | DescheduleEnd(_) | Done(_) => EndInv(m)
      case Crash(_) => false;
    atPc && (m.pending ==> m.armed)
  }
}
