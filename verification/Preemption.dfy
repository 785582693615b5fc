/**
 The functions of the protocol as they are written, on the thread's variables.  Every
 write is recorded, and the records are the machine's micro-steps, one for one and in
 order: that is what makes the machine, which can be interrupted between any two of
 them, a machine of this code.
 */
module Preemption {
  import opened Common
  import opened Pools
  import opened Machine

  /** `n` micro-steps of the timed function, with nothing in between. */
  function Steps(m: State, n: nat, junk: int): State {
    if n == 0 then m
    else
      var m' := Steps(m, n - 1, junk);
      if m'.pc.Fun? then FunStep(m', m'.pc.f, junk) else m'
  }

  /** State `i + 1` of the record is one micro-step after state `i`. */
  ghost predicate Linked(trace: seq<State>, i: nat, junk: int)
    requires i + 1 < |trace|
  {
    trace[i].pc.Fun? && trace[i + 1] == FunStep(trace[i], trace[i].pc.f, junk)
  }

  ghost predicate Chained(trace: seq<State>, junk: int) {
    forall i: nat :: i + 1 < |trace| ==> Linked(trace, i, junk)
  }

  lemma LinkedStays(trace: seq<State>, m: State, i: nat, junk: int)
    requires i + 1 < |trace| && Linked(trace, i, junk)
    ensures Linked(trace + [m], i, junk)
  {
    assert (trace + [m])[i] == trace[i] && (trace + [m])[i + 1] == trace[i + 1];
  }

  lemma LinkedLast(trace: seq<State>, m: State, junk: int)
    requires trace != [] && trace[|trace| - 1].pc.Fun?
    requires m == FunStep(trace[|trace| - 1], trace[|trace| - 1].pc.f, junk)
    ensures Linked(trace + [m], |trace| - 1, junk)
  {
    assert (trace + [m])[|trace| - 1] == trace[|trace| - 1] && (trace + [m])[|trace|] == m;
  }

  lemma Chains(trace: seq<State>, m: State, junk: int)
    requires Chained(trace, junk) && trace != [] && trace[|trace| - 1].pc.Fun?
    requires m == FunStep(trace[|trace| - 1], trace[|trace| - 1].pc.f, junk)
    ensures Chained(trace + [m], junk)
  {
    LinkedLast(trace, m, junk);
    forall i: nat | i + 1 < |trace + [m]|
      ensures Linked(trace + [m], i, junk)
    {
      if i + 1 < |trace| {
        LinkedStays(trace, m, i, junk);
      }
    }
  }

  /** The record has grown by `n` states. */
  ghost predicate Longer(trace: seq<State>, trace': seq<State>, n: nat) {
    var longer := |trace'| == |trace| + n && trace <= trace';
    longer
  }

  /** State `k + i` of the record is that after `i` micro-steps from state `k`. */
  ghost predicate StepsTo(trace: seq<State>, k: nat, i: nat, junk: int) {
    var there := k + i < |trace| && trace[k + i] == Steps(trace[k], i, junk);
    there
  }

  /** From index `k` on, the record has the states after 1, 2, ..., `n` micro-steps. */
  ghost predicate Records(trace: seq<State>, k: nat, n: nat, junk: int) {
    forall i: nat :: i <= n ==> StepsTo(trace, k, i, junk)
  }

  lemma LinkIsStep(trace: seq<State>, k: nat, i: nat, junk: int)
    requires StepsTo(trace, k, i, junk) && k + i + 1 < |trace| && Linked(trace, k + i, junk)
    ensures StepsTo(trace, k, i + 1, junk)
  {
  }

  lemma TraceIsStepsAt(trace: seq<State>, k: nat, n: nat, junk: int)
    requires Chained(trace, junk) && k + n < |trace|
    ensures StepsTo(trace, k, n, junk)
  {
    for i := 0 to n
      invariant StepsTo(trace, k, i, junk)
    {
      LinkIsStep(trace, k, i, junk);
    }
  }

  lemma TraceIsSteps(trace: seq<State>, k: nat, n: nat, junk: int)
    requires Chained(trace, junk) && k + n < |trace|
    ensures Records(trace, k, n, junk)
  {
    forall i: nat | i <= n
      ensures StepsTo(trace, k, i, junk)
    {
      TraceIsStepsAt(trace, k, i, junk);
    }
  }

  /** The first write of pause(), with what the history says of it. */
  function Requested(m: State): State {
    m.(pc := Fun(PauseReadSignal),
       tls := m.tls.(deadline := 0),
       slice := m.slice.(called := true),
       fn := m.fn.(pauseCalls := m.fn.pauseCalls + 1))
  }

  lemma RequestIs(m: State, junk: int)
    ensures FunStep(m, ZeroDeadline, junk) == Requested(m)
  {
  }

  /** How many micro-steps enable_preemption() takes from the flag on. */
  function SendLength(who: Caller, deferred: bool, signal: bool): nat {
    if deferred then if signal then 5 else 2
    else if who == Schedule then 2 else 1
  }

  function EnableLength(g: Option<nat>, deferred: bool, signal: bool): nat {
    if g.None? then SendLength(Hook, deferred, signal) else if !signal then 2 else 3 + SendLength(Schedule, deferred, signal)
  }

  class PreemptibleThread {
    var pc: Pc
    var group: Group
    var gid: nat
    var us: nat
    var armed: bool
    var blocked: bool
    var pending: bool
    var now: nat
    var errno: int
    var sharedErrno: int
    var signal: bool
    var deferred: bool
    var current: Task
    var deadline: nat
    var bootstrap: Option<nat>
    var task: Task
    var siteBlocked: bool
    var fn: Fn
    var regs: int
    var signalCell: Cell
    var taskCell: Cell
    var stacks: Pool<nat>
    var slice: Slice
    ghost var trace: seq<State>

    /** The record so far is a chain of micro-steps that ends here. */
    ghost predicate Recorded(junk: int)
      reads this
    {
      var recorded := trace != [] && trace[|trace| - 1] == State() && Chained(trace, junk);
      recorded
    }

    /** Records a write that is the micro-step from `before`. */
    ghost method Record(before: State, junk: int)
      requires trace != [] && trace[|trace| - 1] == before && Chained(trace, junk)
      requires before.pc.Fun? && State() == FunStep(before, before.pc.f, junk)
      modifies `trace
      ensures Recorded(junk) && Longer(old(trace), trace, 1)
    {
      Chains(trace, State(), junk);
      trace := trace + [State()];
    }

    function State(): State
      reads this
    {
      Machine.State.State(
        pc, group, gid, us, armed, blocked, pending, now, errno, sharedErrno,
        Tls(signal, deferred, current, deadline, bootstrap),
        task, siteBlocked, fn, regs, signalCell, taskCell, stacks, slice)
    }

    method Crashes(why: Fault)
      modifies `pc
      ensures State() == Fail(old(State()), why)
    {
      pc := Crash(why);
    }

    method StoreErrno(value: int)
      modifies `errno, `sharedErrno
      ensures State() == SetErrno(old(State()), value)
    {
      if group == Shared {
        sharedErrno := value;
      } else {
        errno := value;
      }
    }

    /** The handler's disable_preemption(None). */
    method DisableNone()
      modifies `pc, `group, `signal, `deferred
      ensures State() == DisableInHandler(old(State()))
    {
      if signalCell != Free {
        Crashes(SignalBorrowed);
      } else {
        group, signal, deferred := Shared, false, false;
      }
    }

    /** Swapping the interrupted context for the call site's. */
    method SwapContexts(erryes: int)
      requires pc.Fun? && current.checkpoint.Some?
      modifies `current
      ensures State() == Swapped(old(State()), erryes)
    {
      var paused := Context(current.checkpoint.value.stack, false, Interrupted(pc.f, regs));
      current := Task(Some(erryes), Some(paused), deadline == 0);
    }

    /** Returning from the handler, into the call site. */
    method Land()
      modifies `pc, `blocked, `fn, `slice
      ensures State() == Landed(old(State()))
    {
      blocked, pc := true, Deschedule;
      fn := if slice.called then fn.(pausesTaken := fn.pausesTaken + 1) else fn;
      slice := slice.(pausedAt := now, overdue := false);
    }

    /** The branch of the handler that pauses the function. */
    method PauseFunction(erryes: int)
      modifies `pc, `group, `signal, `deferred, `current, `blocked, `fn, `slice
      ensures State() == PauseInHandler(old(State()), erryes)
    {
      if taskCell != Free {
        Crashes(TaskBorrowed);
      } else if current.checkpoint.None? {
        Crashes(UncheckedUnwrap);
      } else if !pc.Fun? || current.checkpoint.value.code != CallSite {
        Crashes(BadContext);
      } else {
        SwapContexts(erryes);
        DisableNone();
        if !pc.Crash? {
          Land();
        }
      }
    }

    /** The handler's defer_preemption(): only the mask that it will return to changes. */
    method DeferUnderHandler()
      modifies `blocked, `deferred, `slice
      ensures State() == DeferInHandler(old(State()))
    {
      blocked, deferred := true, true;
      slice := slice.(overdue := slice.overdue || now >= deadline);
    }

    /** preempt(). */
    method Preempt(junk: int)
      modifies `pc, `group, `signal, `deferred, `current, `blocked, `fn, `slice, `errno, `sharedErrno
      ensures State() == Handler(old(State()), junk)
    {
      if signalCell == Writing {
        Crashes(SignalBorrowed);
        return;
      }
      var erryes := if group == Shared then sharedErrno else errno;
      StoreErrno(junk);
      if signal && group != Shared {
        if now >= deadline {
          PauseFunction(erryes);
        } else {
          StoreErrno(erryes);
        }
      } else {
        if signal {
          DeferUnderHandler();
        } else {
          blocked := true;
        }
        StoreErrno(erryes);
      }
    }

    /** stamp(). */
    method StampDeadline()
      modifies `deadline, `slice
      ensures State() == DoStamp(old(State()))
      ensures now + old(deadline) * 1000 < U64 ==> deadline == now + old(deadline) * 1000
      ensures old(deadline) * 1000 < U64 <= now + old(deadline) * 1000 && now < U64 ==>
                deadline == now + old(deadline) * 1000 - U64
      ensures old(deadline) * 1000 >= U64 ==> deadline == old(deadline)
    {
      deadline := if deadline * 1000 < U64 then (now + deadline * 1000) % U64 else deadline;
      slice := Slice(true, now, false, false, 0);
    }

    // ---- One write each ----

    method EnterPrivateGroup(g: nat, junk: int)
      requires pc == Fun(EnterGroup(g)) && Recorded(junk)
      modifies `group, `errno, `pc, `trace
      ensures Recorded(junk) && Longer(old(trace), trace, 1) && pc == Fun(ReadSignal) && group == Private(g)
    {
      ghost var before := State();
      group, errno, pc := Private(g), junk, Fun(ReadSignal);
      Record(before, junk);
    }

    /** thread_signal() begins by borrowing SIGNAL, and fails if there is none. */
    method BorrowSignal(f: FunPc, next: FunPc, junk: int)
      requires pc == Fun(f) && Recorded(junk) && signalCell == Free
      requires (f == ReadSignal && next == ReadSignalEnd) || (f.RereadSignal? && next == RereadSignalEnd(f.who))
            || (f == PauseReadSignal && next == PauseReadSignalEnd && group == Shared)
      modifies `pc, `signalCell, `trace
      ensures Recorded(junk) && Longer(old(trace), trace, 1)
      ensures if signal then pc == Fun(next) else pc == if f == RereadSignal(Hook) then Fun(OwnCode) else Crash(NoSignal)
    {
      ghost var before := State();
      if signal {
        signalCell, pc := Reading, Fun(next);
      } else {
        pc := if f == RereadSignal(Hook) then Fun(OwnCode) else Crash(NoSignal);
      }
      Record(before, junk);
    }

    /** ... and ends by giving it back. */
    method GiveSignalBack(f: FunPc, next: FunPc, junk: int)
      requires pc == Fun(f) && Recorded(junk)
      requires (f == ReadSignalEnd && next == SwapDeferred(Schedule)) || (f.RereadSignalEnd? && next == Kill(f.who))
            || (f == PauseReadSignalEnd && next == PauseBlock)
      modifies `pc, `signalCell, `trace
      ensures Recorded(junk) && Longer(old(trace), trace, 1) && pc == Fun(next) && signalCell == Free
    {
      ghost var before := State();
      signalCell, pc := Free, Fun(next);
      Record(before, junk);
    }

    method TakeDeferred(who: Caller, junk: int) returns (was: bool)
      requires pc == Fun(SwapDeferred(who)) && Recorded(junk)
      modifies `deferred, `pc, `trace
      ensures Recorded(junk) && Longer(old(trace), trace, 1) && was == old(deferred) && !deferred
      ensures pc == Fun(if was then RereadSignal(who) else if who == Schedule then Unblock(who) else OwnCode)
    {
      ghost var before := State();
      was, deferred := deferred, false;
      pc := Fun(if was then RereadSignal(who) else if who == Schedule then Unblock(who) else OwnCode);
      Record(before, junk);
    }

    method KillSelf(who: Caller, junk: int)
      requires pc == Fun(Kill(who)) && Recorded(junk)
      modifies `pending, `pc, `trace
      ensures Recorded(junk) && Longer(old(trace), trace, 1) && pc == Fun(Unblock(who)) && pending
    {
      ghost var before := State();
      pending, pc := true, Fun(Unblock(who));
      Record(before, junk);
    }

    method UnblockSignal(who: Caller, junk: int)
      requires pc == Fun(Unblock(who)) && Recorded(junk)
      modifies `blocked, `pc, `trace
      ensures Recorded(junk) && Longer(old(trace), trace, 1) && pc == Fun(Unblocked(who)) && !blocked
    {
      ghost var before := State();
      blocked, pc := false, Fun(Unblocked(who));
      Record(before, junk);
    }

    method ZeroTheDeadline(junk: int)
      requires pc == Fun(ZeroDeadline) && Recorded(junk)
      modifies `deadline, `slice, `fn, `pc, `trace
      ensures Recorded(junk) && Longer(old(trace), trace, 1) && pc == Fun(PauseReadSignal) && deadline == 0
    {
      ghost var before := State();
      TakeDeadline();
      RequestIs(before, junk);
      Record(before, junk);
    }

    method TakeDeadline()
      modifies `deadline, `slice, `fn, `pc
      ensures State() == Requested(old(State()))
    {
      deadline, pc := 0, Fun(PauseReadSignal);
      slice, fn := slice.(called := true), fn.(pauseCalls := fn.pauseCalls + 1);
    }

    method MaskForPause(junk: int)
      requires pc == Fun(PauseBlock) && Recorded(junk)
      modifies `blocked, `pc, `trace
      ensures Recorded(junk) && Longer(old(trace), trace, 1) && pc == Fun(PauseDefer) && blocked
    {
      ghost var before := State();
      blocked, pc := true, Fun(PauseDefer);
      Record(before, junk);
    }

    method SetDeferred(junk: int)
      requires pc == Fun(PauseDefer) && Recorded(junk)
      modifies `deferred, `fn, `pc, `trace
      ensures Recorded(junk) && Longer(old(trace), trace, 1) && pc == Fun(LeaveLibrary) && deferred
    {
      ghost var before := State();
      deferred, fn, pc := true, Stepped(fn), Fun(LeaveLibrary);
      Record(before, junk);
    }

    method EnterSharedGroup(junk: int)
      requires pc == Fun(LeaveGroup) && Recorded(junk)
      modifies `group, `pc, `trace
      ensures Recorded(junk) && Longer(old(trace), trace, 1) && pc == Fun(BlockSignal) && group == Shared
    {
      ghost var before := State();
      group, pc := Shared, Fun(BlockSignal);
      Record(before, junk);
    }

    method MaskForGood(junk: int)
      requires pc == Fun(BlockSignal) && Recorded(junk)
      modifies `blocked, `pc, `trace
      ensures Recorded(junk) && Longer(old(trace), trace, 1) && pc == Fun(ClearSignal) && blocked
    {
      ghost var before := State();
      blocked, pc := true, Fun(ClearSignal);
      Record(before, junk);
    }

    method LockSignal(junk: int)
      requires pc == Fun(ClearSignal) && Recorded(junk) && signalCell == Free
      modifies `signalCell, `pc, `trace
      ensures Recorded(junk) && Longer(old(trace), trace, 1) && pc == Fun(ClearSignalEnd)
    {
      ghost var before := State();
      signalCell, pc := Writing, Fun(ClearSignalEnd);
      Record(before, junk);
    }

    method ReplaceSignal(junk: int)
      requires pc == Fun(ClearSignalEnd) && Recorded(junk)
      modifies `signalCell, `signal, `pc, `trace
      ensures Recorded(junk) && Longer(old(trace), trace, 1) && pc == Fun(ClearDeferred) && !signal
    {
      ghost var before := State();
      signalCell, signal, pc := Free, false, Fun(ClearDeferred);
      Record(before, junk);
    }

    method StoreDeferred(junk: int)
      requires pc == Fun(ClearDeferred) && Recorded(junk)
      modifies `deferred, `pc, `trace
      ensures Recorded(junk) && Longer(old(trace), trace, 1) && pc == Fun(CheckTask) && !deferred
    {
      ghost var before := State();
      deferred, pc := false, Fun(CheckTask);
      Record(before, junk);
    }

    // ---- The functions ----

    /** thread_signal(), as every caller on the mainline uses it. */
    method ThreadSignal(f: FunPc, mid: FunPc, next: FunPc, junk: int) returns (ok: bool)
      requires pc == Fun(f) && Recorded(junk) && signalCell == Free
      requires (f == ReadSignal && mid == ReadSignalEnd && next == SwapDeferred(Schedule))
            || (f.RereadSignal? && mid == RereadSignalEnd(f.who) && next == Kill(f.who))
            || (f == PauseReadSignal && mid == PauseReadSignalEnd && next == PauseBlock && group == Shared)
      modifies `pc, `signalCell, `trace
      ensures Recorded(junk) && Longer(old(trace), trace, if ok then 2 else 1)
      ensures ok == signal && (ok ==> pc == Fun(next) && signalCell == Free)
    {
      BorrowSignal(f, mid, junk);
      ok := signal;
      if ok {
        GiveSignalBack(mid, next, junk);
      }
    }

    /** Reading the signal's number again, and sending it. */
    method Reraise(who: Caller, junk: int) returns (ok: bool)
      requires pc == Fun(RereadSignal(who)) && Recorded(junk) && signalCell == Free
      modifies `pc, `signalCell, `pending, `trace
      ensures Recorded(junk) && Longer(old(trace), trace, if ok then 3 else 1)
      ensures ok == signal && (ok ==> pending && pc == Fun(Unblock(who)))
    {
      ok := ThreadSignal(RereadSignal(who), RereadSignalEnd(who), Kill(who), junk);
      if ok {
        KillSelf(who, junk);
      }
    }

    /** enable_preemption() from the flag on: a deferred preemption is sent again before the signal is unmasked. */
    method SendAndUnblock(who: Caller, junk: int) returns (ok: bool)
      requires pc == Fun(SwapDeferred(who)) && Recorded(junk) && signalCell == Free
      modifies `pc, `signalCell, `deferred, `pending, `blocked, `trace
      ensures Recorded(junk) && Longer(old(trace), trace, SendLength(who, old(deferred), signal))
      ensures !deferred && ok == (signal || !old(deferred))
      ensures ok && old(deferred) ==> pending
      ensures ok && (old(deferred) || who == Schedule) ==> !blocked && pc == Fun(Unblocked(who))
    {
      var was := TakeDeferred(who, junk);
      ok := true;
      if was {
        ok := Reraise(who, junk);
      }
      if ok && (was || who == Schedule) {
        UnblockSignal(who, junk);
      }
    }

    method EnterAndRead(g: nat, junk: int) returns (ok: bool)
      requires pc == Fun(EnterGroup(g)) && Recorded(junk) && signalCell == Free
      modifies `pc, `group, `errno, `signalCell, `trace
      ensures Recorded(junk) && Longer(old(trace), trace, if ok then 3 else 2)
      ensures ok == signal && group == Private(g) && (ok ==> pc == Fun(SwapDeferred(Schedule)) && signalCell == Free)
    {
      EnterPrivateGroup(g, junk);
      ok := ThreadSignal(ReadSignal, ReadSignalEnd, SwapDeferred(Schedule), junk);
    }

    method EnableInOrder(g: Option<nat>, junk: int) returns (ok: bool)
      requires pc == Fun(if g.Some? then EnterGroup(g.value) else SwapDeferred(Hook)) && Recorded(junk) && signalCell == Free
      modifies `pc, `group, `errno, `signalCell, `deferred, `pending, `blocked, `trace
      ensures Recorded(junk) && Longer(old(trace), trace, EnableLength(g, old(deferred), signal))
      ensures ok == (signal || (g.None? && !old(deferred)))
      ensures ok && old(deferred) ==> pending && !blocked
      ensures ok && g.Some? ==> group == Private(g.value) && !blocked
    {
      if g.Some? {
        ok := EnterAndRead(g.value, junk);
        if ok {
          ok := SendAndUnblock(Schedule, junk);
        }
      } else {
        ok := SendAndUnblock(Hook, junk);
      }
    }

    /**
     enable_preemption(), up to the delivery of what unmasking the signal lets through.  The
     group comes first: otherwise the handler could run at once, and mask the signal again.
     */
    method EnablePreemption(g: Option<nat>, junk: int) returns (ok: bool)
      requires pc == Fun(if g.Some? then EnterGroup(g.value) else SwapDeferred(Hook)) && Recorded(junk) && signalCell == Free
      modifies `pc, `group, `errno, `signalCell, `deferred, `pending, `blocked, `trace
      ensures Recorded(junk) && Longer(old(trace), trace, EnableLength(g, old(deferred), signal))
      ensures Records(trace, |old(trace)| - 1, EnableLength(g, old(deferred), signal), junk)
      ensures ok == (signal || (g.None? && !old(deferred)))
      ensures ok && old(deferred) ==> pending && !blocked
      ensures ok && g.Some? ==> group == Private(g.value) && !blocked
    {
      ok := EnableInOrder(g, junk);
      TraceIsSteps(trace, |old(trace)| - 1, EnableLength(g, old(deferred), signal), junk);
    }

    /** defer_preemption(None): the signal is masked before the flag is set, so that nothing races on it. */
    method DeferPreemption(junk: int) returns (ok: bool)
      requires pc == Fun(PauseReadSignal) && Recorded(junk) && signalCell == Free && group == Shared
      modifies `pc, `fn, `signalCell, `blocked, `deferred, `trace
      ensures Recorded(junk) && Longer(old(trace), trace, if signal then 4 else 1)
      ensures ok == signal && (ok ==> pc == Fun(LeaveLibrary) && blocked && deferred)
    {
      ok := ThreadSignal(PauseReadSignal, PauseReadSignalEnd, PauseBlock, junk);
      if ok {
        MaskThenDefer(junk);
      }
    }

    method MaskThenDefer(junk: int)
      requires pc == Fun(PauseBlock) && Recorded(junk)
      modifies `pc, `fn, `blocked, `deferred, `trace
      ensures Recorded(junk) && Longer(old(trace), trace, 2) && pc == Fun(LeaveLibrary) && blocked && deferred
    {
      MaskForPause(junk);
      SetDeferred(junk);
    }

    /** pause(). */
    method Pause(junk: int) returns (ok: bool)
      requires pc == Fun(ZeroDeadline) && Recorded(junk) && signalCell == Free && group == Shared
      modifies `pc, `deadline, `slice, `fn, `signalCell, `blocked, `deferred, `trace
      ensures Recorded(junk) && Longer(old(trace), trace, if signal then 5 else 2)
      ensures Records(trace, |old(trace)| - 1, if signal then 5 else 2, junk)
      ensures ok == signal && deadline == 0 && (ok ==> pc == Fun(LeaveLibrary) && blocked && deferred)
    {
      ZeroTheDeadline(junk);
      ok := DeferPreemption(junk);
      TraceIsSteps(trace, |old(trace)| - 1, if signal then 5 else 2, junk);
    }

    method LeaveThenMask(junk: int)
      requires pc == Fun(LeaveGroup) && Recorded(junk)
      modifies `pc, `group, `blocked, `trace
      ensures Recorded(junk) && Longer(old(trace), trace, 2) && pc == Fun(ClearSignal) && group == Shared && blocked
    {
      EnterSharedGroup(junk);
      MaskForGood(junk);
    }

    method ClearSignalThenFlag(junk: int)
      requires pc == Fun(ClearSignal) && Recorded(junk) && signalCell == Free
      modifies `pc, `signal, `signalCell, `deferred, `trace
      ensures Recorded(junk) && Longer(old(trace), trace, 3) && pc == Fun(CheckTask) && !signal && !deferred
    {
      LockSignal(junk);
      ReplaceSignal(junk);
      StoreDeferred(junk);
    }

    /** disable_preemption(Some(signal)). */
    method DisablePreemption(junk: int)
      requires pc == Fun(LeaveGroup) && Recorded(junk) && signalCell == Free
      modifies `pc, `group, `blocked, `signal, `signalCell, `deferred, `trace
      ensures Recorded(junk) && Longer(old(trace), trace, 5)
      ensures Records(trace, |old(trace)| - 1, 5, junk)
      ensures group == Shared && blocked && !signal && !deferred && pc == Fun(CheckTask)
    {
      LeaveThenMask(junk);
      ClearSignalThenFlag(junk);
      TraceIsSteps(trace, |old(trace)| - 1, 5, junk);
    }
  }
}
