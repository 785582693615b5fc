/**
 One kernel thread running one slice of a timed function, as a machine that takes
 one micro-step at a time so that the timer signal's handler can be inserted
 between any two of them.

 Models resume(), setup_thread(), setup_stack(), switch_stack(), schedule(),
 preempt(), stamp() and pause() of src/linger.rs, and thread_signal(),
 enable_preemption(), disable_preemption(), defer_preemption() and
 thread_setup() of src/preemption.rs.
 */
module Machine {
  import opened Common
  import opened Programs
  import opened Pools

  const U64: nat := 0x1_0000_0000_0000_0000

  /** The library group the thread's calls are routed to. */
  datatype Group = Shared | Private(id: nat)

  /** The borrow state of a RefCell. */
  datatype Cell = Free | Reading | Writing

  /** Which caller of enable_preemption() is running: schedule(), or the return hook. */
  datatype Caller = Schedule | Hook

  /** Program points on the timed function's own stack. */
  datatype FunPc =
    // schedule()
    | TakeBootstrap
    | StampStart(g: nat)
    | EnterGroup(g: nat)
    | ReadSignal
    | ReadSignalEnd
    // enable_preemption(), shared by schedule() and the return hook
    | SwapDeferred(who: Caller)
    | RereadSignal(who: Caller)
    | RereadSignalEnd(who: Caller)
    | Kill(who: Caller)
    | Unblock(who: Caller)
    | Unblocked(who: Caller)
    // the timed function itself
    | Invoke
    | OwnCode
    | LibraryCode
    // pause()
    | ZeroDeadline
    | PauseReadSignal
    | PauseReadSignalEnd
    | PauseBlock
    | PauseDefer
    // libgotcha's way out of an outermost nonpreemptible call
    | LeaveLibrary
    // disable_preemption() and the end of schedule()
    | LeaveGroup
    | BlockSignal
    | ClearSignal
    | ClearSignalEnd
    | ClearDeferred
    | CheckTask
    | Exit

  /** Everything that would abort, panic or be undefined behaviour. */
  datatype Fault =
    | SignalBorrowed
    | TaskBorrowed
    | NoSignal
    | StillPreemptible
    | DoubleBootstrap
    | NoBootstrap
    | MissingContinuation
    | WouldNest
    | BadContext
    | UncheckedUnwrap
    | NullReturn
    | LeftErrno

  datatype Pc =
    | Idle
    // thread_setup()
    | BlockFirst
    | Arm
    | SetSignal
    | SetSignalEnd
    // resume()
    | Bootstrap
    | SetDeadline
    // switch_stack()
    | TakeCheckpoint
    | PutCheckpoint(taken: Context)
    | PutCheckpointEnd
    | ResumeReadSignal
    | ResumeReadSignalEnd
    | MaskBlock
    | StampResume
    | SwitchGroup
    | RestoreErrno
    | Jump
    | Fun(f: FunPc)
    | Deschedule
    | DescheduleEnd(replaced: Task)
    | Done(finished: bool)
    | Crash(why: Fault)

  /** What a saved context jumps to. */
  datatype Code = Entry | Interrupted(f: FunPc, regs: int) | CallSite

  /** A saved context: the stack it owns, its signal-mask bit, and where it goes. */
  datatype Context = Context(stack: nat, blocked: bool, code: Code)

  datatype Task = Task(errno: Option<int>, checkpoint: Option<Context>, yielded: bool)

  const DEFAULT_TASK := Task(None, None, false)

  /** The thread-local variables of one virtual thread-control block. */
  datatype Tls = Tls(
    signal: bool,
    deferred: bool,
    task: Task,
    deadline: nat,
    bootstrap: Option<nat>)

  /** The state of the boxed closure made by launch(). */
  datatype Closure = Function | Returned(outcome: Outcome) | Empty

  /**
   A timed function: its program and closure box.  The counters are history
   variables: nothing in the machine reads them.
   */
  datatype Fn = Fn(
    program: Program,
    closure: Closure,
    startErrno: int,
    invoked: nat,
    steps: nat,
    pauseCalls: nat,
    pausesTaken: nat)

  /** History of the current slice: nothing in the machine reads it. */
  datatype Slice = Slice(stamped: bool, at: nat, called: bool, overdue: bool, pausedAt: nat)

  const NEW_SLICE := Slice(false, 0, false, false, 0)

  datatype State = State(
    pc: Pc,
    group: Group,
    gid: nat,
    us: nat,
    armed: bool,
    blocked: bool,
    pending: bool,
    now: nat,
    errno: int,
    sharedErrno: int,
    tls: Tls,
    task: Task,
    siteBlocked: bool,
    fn: Fn,
    regs: int,
    signalCell: Cell,
    taskCell: Cell,
    stacks: Pool<nat>,
    slice: Slice)

  /** stamp(): a checked multiplication, then an addition that wraps in release builds. */
  function Stamp(us: nat, now: nat): nat {
    if us * 1000 < U64 then (now + us * 1000) % U64 else us
  }

  function Fail(m: State, why: Fault): State {
    m.(pc := Crash(why))
  }

  function Goto(m: State, f: FunPc): State {
    m.(pc := Fun(f))
  }

  /** thread_signal() on entry: takes a shared borrow of SIGNAL.  Finding None aborts or panics every caller but the hook. */
  function BorrowSignal(m: State, next: Pc): State {
    if m.signalCell == Writing then Fail(m, SignalBorrowed)
    else if !m.tls.signal then Fail(m, NoSignal)
    else m.(signalCell := Reading, pc := next)
  }

  /** SIGNAL.replace() on entry: takes an exclusive borrow. */
  function LockSignal(m: State, next: Pc): State {
    if m.signalCell != Free then Fail(m, SignalBorrowed)
    else m.(signalCell := Writing, pc := next)
  }

  function DoStamp(m: State): State {
    m.(tls := m.tls.(deadline := Stamp(m.tls.deadline, m.now)),
       slice := Slice(true, m.now, false, false, 0))
  }

  /** The builder of stacks and thread-control blocks: numbered in build order, and it cannot fail. */
  function Fresh(call: nat): Option<nat> {
    Some(call)
  }

  /** alloc_stack(): TryAcquire() with a builder that cannot fail. */
  function TakeStack(p: Pool<nat>): (r: (Pool<nat>, nat))
    ensures (r.0, Some(r.1)) == TryAcquire(p, Fresh)
  {
    if p.free == [] then (Pool([], p.calls + 1), p.calls)
    else (p.(free := p.free[..|p.free| - 1]), p.free[|p.free| - 1])
  }

  /** Whether a mainline micro-step can be taken now. */
  predicate Enabled(m: State) {
    match m.pc
    case Idle | Done(_) | Crash(_) => false
    // Unblocking a pending signal delivers it before pthread_sigmask() returns.
    case Fun(Unblocked(_)) => !(m.pending && !m.blocked)
    case _ => true
  }

  /** thread_setup() and resume(), up to the call of switch_stack(). */
  function SetupStep(m: State): State {
    match m.pc
    case BlockFirst => if m.armed then m.(pc := SetSignal) else m.(blocked := true, pc := Arm)
    case Arm => m.(armed := true, pc := SetSignal)
    case SetSignal => LockSignal(m, SetSignalEnd)
    case SetSignalEnd => m.(signalCell := Free, tls := m.tls.(signal := true), pc := Bootstrap)
    case Bootstrap =>
      if m.task.errno.Some? then m.(pc := SetDeadline)
      else if m.tls.bootstrap.Some? then Fail(m, DoubleBootstrap)
      else
        m.(stacks := TakeStack(m.stacks).0,
           task := m.task.(checkpoint := Some(Context(TakeStack(m.stacks).1, m.blocked, Entry))),
           tls := m.tls.(bootstrap := Some(m.gid)),
           pc := SetDeadline)
    case SetDeadline => m.(tls := m.tls.(deadline := m.us), pc := TakeCheckpoint)
    case _ => m
  }

  /** switch_stack(), up to the jump. */
  function SwitchStep(m: State): State {
    match m.pc
    case TakeCheckpoint =>
      if m.task.checkpoint.None? then Fail(m, MissingContinuation)
      else
        m.(task := m.task.(checkpoint := None),
           siteBlocked := m.blocked,
           pc := PutCheckpoint(m.task.checkpoint.value))
    case PutCheckpoint(context) =>
      if m.taskCell != Free then Fail(m, TaskBorrowed)
      else if m.tls.task.checkpoint.Some? then Fail(m, WouldNest)
      else
        m.(taskCell := Writing,
           tls := m.tls.(task := m.tls.task.(checkpoint := Some(context))),
           pc := PutCheckpointEnd)
    case PutCheckpointEnd =>
      m.(taskCell := Free, pc := if m.task.errno.Some? then ResumeReadSignal else Jump)
    case ResumeReadSignal => BorrowSignal(m, ResumeReadSignalEnd)
    case ResumeReadSignalEnd => m.(signalCell := Free, pc := MaskBlock)
    case MaskBlock =>
      if m.tls.task.checkpoint.None? then Fail(m, BadContext)
      else
        // The continuation's mask is the old one without the preemption signal.
        m.(blocked := true,
           tls := m.tls.(task := m.tls.task.(checkpoint := Some(m.tls.task.checkpoint.value.(blocked := false)))),
           pc := StampResume)
    case StampResume => DoStamp(m).(pc := SwitchGroup)
    case SwitchGroup => m.(group := Private(m.gid), pc := RestoreErrno)
    case RestoreErrno => m.(errno := if m.task.errno.Some? then m.task.errno.value else m.errno, pc := Jump)
    case Jump =>
      if m.tls.task.checkpoint.None? then Fail(m, BadContext)
      else
        var context := m.tls.task.checkpoint.value;
        var m' := m.(
          blocked := context.blocked,
          tls := m.tls.(task := m.tls.task.(checkpoint := Some(Context(context.stack, m.siteBlocked, CallSite)))));
        (match context.code
         case Entry => Goto(m', TakeBootstrap)
         case Interrupted(f, regs) => Goto(m'.(regs := regs), f)
         case CallSite => Fail(m, BadContext))
    case _ => m
  }

  /** The tail of switch_stack(), after control comes back to the call site. */
  function DescheduleStep(m: State): State {
    match m.pc
    case Deschedule =>
      if m.taskCell != Free then Fail(m, TaskBorrowed)
      else m.(taskCell := Writing, tls := m.tls.(task := DEFAULT_TASK), pc := DescheduleEnd(m.tls.task))
    case DescheduleEnd(descheduled) =>
      if descheduled.errno.Some? then m.(taskCell := Free, task := descheduled, pc := Done(false))
      else
        // Dropping the descheduled task returns its stack to the pool.
        m.(taskCell := Free,
           task := m.task.(errno := None),
           stacks := if descheduled.checkpoint.Some? then Release(m.stacks, descheduled.checkpoint.value.stack)
                     else m.stacks,
           pc := Done(true))
    case _ => m
  }

  /** schedule() and enable_preemption().  Before the function starts, errno is anybody's. */
  function EnableStep(m: State, f: FunPc, junk: int): State {
    match f
    case TakeBootstrap =>
      if m.tls.bootstrap.None? then Fail(m, NoBootstrap)
      else Goto(m.(tls := m.tls.(bootstrap := None)), StampStart(m.tls.bootstrap.value))
    case StampStart(g) => Goto(DoStamp(m), EnterGroup(g))
    case EnterGroup(g) => Goto(m.(group := Private(g), errno := junk), ReadSignal)
    case ReadSignal => BorrowSignal(m, Fun(ReadSignalEnd))
    case ReadSignalEnd => Goto(m.(signalCell := Free), SwapDeferred(Schedule))
    case SwapDeferred(who) =>
      var m' := m.(tls := m.tls.(deferred := false));
      if m.tls.deferred then Goto(m', RereadSignal(who))
      else if who == Schedule then Goto(m', Unblock(who))
      else Goto(m', OwnCode)
    case RereadSignal(who) =>
      // The hook drops the error, and so skips the rest.
      if who == Hook && m.signalCell != Writing && !m.tls.signal then Goto(m, OwnCode)
      else BorrowSignal(m, Fun(RereadSignalEnd(who)))
    case RereadSignalEnd(who) => Goto(m.(signalCell := Free), Kill(who))
    case Kill(who) => Goto(m.(pending := true), Unblock(who))
    case Unblock(who) => Goto(m.(blocked := false), Unblocked(who))
    case Unblocked(who) => Goto(m, if who == Schedule then Invoke else OwnCode)
    case _ => m
  }

  function Stepped(fn: Fn): Fn {
    fn.(steps := fn.steps + 1)
  }

  /** The timed function's own code, its library calls, and the way out of those. */
  function UserStep(m: State, f: FunPc): State {
    match f
    case Invoke => (
      match m.fn.closure
      case Function =>
        Goto(m.(regs := m.fn.program.entry,
                fn := m.fn.(closure := Empty, startErrno := m.errno, invoked := m.fn.invoked + 1, steps := 0)),
             OwnCode)
      case Returned(_) => Fail(m, NullReturn)
      case Empty => Goto(m, LeaveGroup))
    case OwnCode => (
      var m' := m.(fn := Stepped(m.fn));
      match m.fn.program.own(m.regs, m.errno)
      case Compute(regs, errno) => m'.(regs := regs, errno := errno)
      case CallLibrary(regs, errno) =>
        Goto(m'.(regs := regs, sharedErrno := errno, group := Shared), LibraryCode)
      case CallPause(regs) =>
        Goto(m'.(regs := regs, group := Shared), ZeroDeadline)
      case Finish(outcome) =>
        Goto(m'.(fn := m'.fn.(closure := Returned(outcome))), LeaveGroup))
    case LibraryCode => (
      var m' := m.(fn := Stepped(m.fn));
      match m.fn.program.library(m.regs, m.sharedErrno)
      case Work(regs, errno) => m'.(regs := regs, sharedErrno := errno)
      case Return(regs) => Goto(m'.(regs := regs), LeaveLibrary))
    case LeaveLibrary => Goto(m.(group := Private(m.gid)), SwapDeferred(Hook))
    case _ => m
  }

  /** pause(), and defer_preemption() when called outside the handler. */
  function PauseStep(m: State, f: FunPc): State {
    match f
    case ZeroDeadline =>
      Goto(m.(tls := m.tls.(deadline := 0),
              slice := m.slice.(called := true),
              fn := m.fn.(pauseCalls := m.fn.pauseCalls + 1)),
           PauseReadSignal)
    case PauseReadSignal =>
      if m.group != Shared then Fail(m, StillPreemptible) else BorrowSignal(m, Fun(PauseReadSignalEnd))
    case PauseReadSignalEnd => Goto(m.(signalCell := Free), PauseBlock)
    case PauseBlock => Goto(m.(blocked := true), PauseDefer)
    case PauseDefer => Goto(m.(tls := m.tls.(deferred := true), fn := Stepped(m.fn)), LeaveLibrary)
    case _ => m
  }

  /** disable_preemption(Some(signal)) and the end of schedule(). */
  function DisableStep(m: State, f: FunPc): State {
    match f
    case LeaveGroup => Goto(m.(group := Shared), BlockSignal)
    case BlockSignal => Goto(m.(blocked := true), ClearSignal)
    case ClearSignal => LockSignal(m, Fun(ClearSignalEnd))
    case ClearSignalEnd => Goto(m.(signalCell := Free, tls := m.tls.(signal := false)), ClearDeferred)
    case ClearDeferred => Goto(m.(tls := m.tls.(deferred := false)), CheckTask)
    case CheckTask =>
      if m.taskCell == Writing then Fail(m, TaskBorrowed)
      else if m.tls.task.errno.Some? then Fail(m, LeftErrno)
      else Goto(m, Exit)
    case Exit =>
      // Returning from schedule() resumes the call site held by the checkpoint.
      if m.tls.task.checkpoint.None? || m.tls.task.checkpoint.value.code != CallSite then Fail(m, BadContext)
      else m.(blocked := m.tls.task.checkpoint.value.blocked, pc := Deschedule)
    case _ => m
  }

  function FunStep(m: State, f: FunPc, junk: int): State {
    match f
    case TakeBootstrap | StampStart(_) | EnterGroup(_) | ReadSignal | ReadSignalEnd | SwapDeferred(_) |
      RereadSignal(_) | RereadSignalEnd(_) | Kill(_) | Unblock(_) | Unblocked(_) => EnableStep(m, f, junk)
    case Invoke | OwnCode | LibraryCode | LeaveLibrary => UserStep(m, f)
    case ZeroDeadline | PauseReadSignal | PauseReadSignalEnd | PauseBlock | PauseDefer => PauseStep(m, f)
    case LeaveGroup | BlockSignal | ClearSignal | ClearSignalEnd | ClearDeferred | CheckTask | Exit =>
      DisableStep(m, f)
  }

  /** One mainline micro-step.  Library calls made for the shared group clobber its errno. */
  function MainStep(m: State, junk: int): State {
    match m.pc
    case Idle | Done(_) | Crash(_) => m
    case BlockFirst | Arm | SetSignal | SetSignalEnd | Bootstrap | SetDeadline =>
      SetupStep(m.(sharedErrno := junk))
    case TakeCheckpoint | PutCheckpoint(_) | PutCheckpointEnd | ResumeReadSignal | ResumeReadSignalEnd | MaskBlock |
      StampResume | SwitchGroup | RestoreErrno | Jump => SwitchStep(m.(sharedErrno := junk))
    case Deschedule | DescheduleEnd(_) => DescheduleStep(m.(sharedErrno := junk))
    case Fun(f) => FunStep(m, f, junk)
  }

  function Errno(m: State): int {
    if m.group == Shared then m.sharedErrno else m.errno
  }

  /** `*errno() = value`, in whichever group is current. */
  function SetErrno(m: State, value: int): State {
    if m.group == Shared then m.(sharedErrno := value) else m.(errno := value)
  }

  /** disable_preemption(None), as the handler calls it: the signal is already masked. */
  function DisableInHandler(m: State): State {
    if m.signalCell != Free then Fail(m, SignalBorrowed)
    else m.(group := Shared, tls := m.tls.(signal := false, deferred := false))
  }

  /** swap(): the interrupted context (its mask had the signal unblocked) for the call site's. */
  function Swapped(m: State, erryes: int): State
    requires m.pc.Fun? && m.tls.task.checkpoint.Some?
  {
    var paused := Context(m.tls.task.checkpoint.value.stack, false, Interrupted(m.pc.f, m.regs));
    m.(tls := m.tls.(task := Task(Some(erryes), Some(paused), m.tls.deadline == 0)))
  }

  /** The handler's return, into the call site. */
  function Landed(m: State): State {
    m.(blocked := true,
       pc := Deschedule,
       slice := m.slice.(pausedAt := m.now, overdue := false),
       fn := if m.slice.called then m.fn.(pausesTaken := m.fn.pausesTaken + 1) else m.fn)
  }

  /** The branch of preempt() that pauses the function and returns into the call site. */
  function PauseInHandler(m: State, erryes: int): State {
    if m.taskCell != Free then Fail(m, TaskBorrowed)
    else if m.tls.task.checkpoint.None? then Fail(m, UncheckedUnwrap)
    else if !m.pc.Fun? || m.tls.task.checkpoint.value.code != CallSite then Fail(m, BadContext)
    else
      var m' := DisableInHandler(Swapped(m, erryes));
      if m'.pc.Crash? then m' else Landed(m')
  }

  /** defer_preemption(Some(mask)), as the handler calls it: the mask is the one restored on return. */
  function DeferInHandler(m: State): State {
    m.(blocked := true,
       tls := m.tls.(deferred := true),
       slice := m.slice.(overdue := m.slice.overdue || m.now >= m.tls.deadline))
  }

  /**
   preempt(), from delivery to return.  It is atomic because the kernel masks the
   signal inside its own handler.  `junk` is what the handler's own library calls
   leave in errno.
   */
  function Handler(m: State, junk: int): State {
    if m.signalCell == Writing then Fail(m, SignalBorrowed)
    else
      var erryes := Errno(m);
      var m' := SetErrno(m, junk);
      if m.tls.signal && m.group != Shared then
        if m.now >= m.tls.deadline then PauseInHandler(m', erryes)
        else SetErrno(m', erryes)
      else if m.tls.signal then
        SetErrno(DeferInHandler(m'), erryes)
      else SetErrno(m'.(blocked := true), erryes)
  }

  /** What can happen next. */
  datatype Event =
    | Main(junk: int)
    | Deliver(junk: int)
    | Tick
    | Clock(now: nat)

  predicate CanHappen(m: State, e: Event) {
    match e
    case Main(_) => Enabled(m)
    case Deliver(_) => m.pending && !m.blocked && !m.pc.Crash?
    case Tick => m.armed
    case Clock(now) => m.now <= now < U64
  }

  function Step(m: State, e: Event): State {
    match e
    case Main(junk) => MainStep(m, junk)
    case Deliver(junk) => Handler(m.(pending := false), junk)
    case Tick => m.(pending := true)
    case Clock(now) => m.(now := now)
  }

  /** A schedule: every listed event is possible when its turn comes. */
  predicate Possible(m: State, events: seq<Event>)
    decreases events
  {
    events == [] || (CanHappen(m, events[0]) && Possible(Step(m, events[0]), events[1..]))
  }

  function Run(m: State, events: seq<Event>): State
    decreases events
  {
    if events == [] then m else Run(Step(m, events[0]), events[1..])
  }
}
