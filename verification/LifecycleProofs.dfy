/** Who owns what, kept by every operation and every machine event. */
module LifecycleProofs {
  import opened Common
  import opened Programs
  import opened Pools
  import opened Machine
  import opened MachineInvariant
  import opened MachineProofs
  import opened MachineFrame
  import opened Lifecycle
  import opened Accounting
  import opened Holdings

  // ---- Ownership ----

  function OwnsGroup(e: Timed): multiset<nat> {
    if e.linger.Live? then multiset{e.linger.continuation.group} else multiset{}
  }

  function OwnsTcb(e: Timed): multiset<nat> {
    if e.linger.Live? then One(e.linger.continuation.tls) else multiset{}
  }

  function OwnsStack(e: Timed): multiset<nat> {
    if e.linger.Live? then One(StackOf(e.linger.continuation.task.checkpoint)) else multiset{}
  }

  /** A continuation that is paused, or running now, has half-run its function. */
  function OwnsHalfRun(e: Timed): multiset<nat> {
    if e.linger.Live? && (e.linger.continuation.task.errno.Some? || e.linger.continuation.tls.None?)
    then multiset{e.linger.continuation.group} else multiset{}
  }

  predicate IsCurrent(w: World, i: nat) {
    w.current.Some? && w.current.value.index == i
  }

  function RunningTcb(w: World): multiset<nat> {
    if w.current.Some? then multiset{w.current.value.tcb} else multiset{}
  }

  ghost predicate GroupsOk(w: World) {
    Conserved(w.groups, GroupBuilder(w.limit), Held(w.entries, OwnsGroup))
  }

  ghost predicate TcbsOk(w: World) {
    w.tcbs.calls == w.limit && Conserved(w.tcbs, Fresh, Held(w.entries, OwnsTcb) + RunningTcb(w))
  }

  ghost predicate StacksOk(w: World) {
    w.m.stacks.calls == w.limit && Conserved(w.m.stacks, Fresh, Held(w.entries, OwnsStack) + One(Stack(w.m)))
  }

  ghost predicate DirtyOk(w: World) {
    forall g :: g in w.dirty <==> g in Held(w.entries, OwnsHalfRun)
  }

  ghost predicate ParkedOk(w: World) {
    forall t: nat :: t < w.limit && t !in RunningTcb(w) ==> t in w.parked && Clean(w.parked[t])
  }

  ghost predicate TimedOk(e: Timed, running: bool) {
    && (e.isComplete <==> e.linger.Completion?)
    && (e.linger.Live? ==>
          if running then e.linger.continuation.tls.None? && e.linger.continuation.task == DEFAULT_TASK
          else e.linger.continuation.tls.Some? && TaskReady(e.fn, e.linger.continuation.task))
    && (running ==> e.linger.Live?)
    && e.fn.invoked <= 1
    && DeliveredOk(e)
  }

  /** The result is delivered at most once, and it is the one the uninterrupted run ends with. */
  ghost predicate DeliveredOk(e: Timed) {
    && (e.linger.Live? ==> e.delivered == [])
    && (e.linger.Poison? ==> |e.delivered| == 1 && e.delivered[0].Panic?)
    && |e.delivered| <= 1
    && (|e.delivered| == 1 ==>
          e.fn.invoked == 1 && e.fn.closure.Empty? &&
          Uninterrupted(e.fn.program, e.fn.startErrno, e.fn.steps).at == Ended(e.delivered[0]) &&
          (e.linger.Completion? ==> e.delivered[0] == Value(e.linger.value)))
  }

  ghost predicate EntriesOk(w: World) {
    forall i :: 0 <= i < |w.entries| ==> TimedOk(w.entries[i], IsCurrent(w, i))
  }

  ghost predicate ThreadOk(w: World) {
    Inv(w.m) &&
    if w.current.Some? then
      && !w.m.pc.Idle? && w.current.value.index < |w.entries| && w.current.value.tcb < w.limit
      && w.entries[w.current.value.index].linger.Live?
      && w.entries[w.current.value.index].linger.continuation.group == w.m.gid
    else w.m.pc.Idle? && Stack(w.m).None?
  }

  ghost predicate Books(w: World) {
    GroupsOk(w) && TcbsOk(w) && StacksOk(w) && DirtyOk(w) && ParkedOk(w)
  }

  ghost predicate WorldInv(w: World) {
    !w.fault && Books(w) && EntriesOk(w) && ThreadOk(w)
  }

  // ---- What the books say ----

  lemma SlotIsParked(w: World, i: nat)
    requires TcbsOk(w) && ParkedOk(w) && w.current.None? && i < |w.entries|
    requires w.entries[i].linger.Live? && w.entries[i].linger.continuation.tls.Some?
    ensures var t := w.entries[i].linger.continuation.tls.value;
            t < w.limit && t in w.parked && Clean(w.parked[t])
  {
    var t := w.entries[i].linger.continuation.tls.value;
    HeldMember(w.entries, OwnsTcb, i);
    BuiltFresh(w.limit, t);
    assert t in OwnsTcb(w.entries[i]);
    assert t in Built(Fresh, w.limit);
  }

  /** No group is held twice, nor held and free. */
  lemma GroupsAreDistinct(w: World, g: nat)
    requires GroupsOk(w)
    ensures multiset(w.groups.free)[g] + Held(w.entries, OwnsGroup)[g] <= 1
  {
    BuiltGroups(w.limit, w.groups.calls, g);
  }

  lemma HalfRunIsHeld(es: seq<Timed>)
    ensures Held(es, OwnsHalfRun) <= Held(es, OwnsGroup)
  {
    HeldWithin(es, OwnsHalfRun, OwnsGroup);
  }

  // ---- resume() up to the slice ----

  predicate CanBegin(w: World, i: nat) {
    w.current.None? && i < |w.entries| && w.entries[i].linger.Live? &&
    w.entries[i].linger.continuation.tls.Some? && w.entries[i].linger.continuation.tls.value in w.parked
  }

  lemma BeginKeepsGroups(w: World, i: nat, us: nat, junk: int)
    requires GroupsOk(w) && CanBegin(w, i)
    ensures GroupsOk(Begin(w, i, us, junk))
  {
    HeldSame(w.entries, OwnsGroup, i, Begin(w, i, us, junk).entries[i]);
  }

  lemma BeginKeepsTcbs(w: World, i: nat, us: nat, junk: int)
    requires TcbsOk(w) && CanBegin(w, i)
    ensures TcbsOk(Begin(w, i, us, junk))
  {
    HeldLoses(w.entries, OwnsTcb, i, Begin(w, i, us, junk).entries[i]);
  }

  lemma BeginKeepsStacks(w: World, i: nat, us: nat, junk: int)
    requires StacksOk(w) && CanBegin(w, i) && Stack(w.m).None?
    requires Clean(w.parked[w.entries[i].linger.continuation.tls.value])
    ensures StacksOk(Begin(w, i, us, junk))
  {
    HeldLoses(w.entries, OwnsStack, i, Begin(w, i, us, junk).entries[i]);
  }

  lemma BeginKeepsDirty(w: World, i: nat, us: nat, junk: int)
    requires DirtyOk(w) && CanBegin(w, i)
    ensures DirtyOk(Begin(w, i, us, junk))
  {
    var e := Begin(w, i, us, junk).entries[i];
    if w.entries[i].linger.continuation.task.errno.Some? {
      HeldSame(w.entries, OwnsHalfRun, i, e);
      HeldMember(w.entries, OwnsHalfRun, i);
    } else {
      HeldGains(w.entries, OwnsHalfRun, i, e);
    }
  }

  lemma BeginKeepsParked(w: World, i: nat, us: nat, junk: int)
    requires ParkedOk(w) && CanBegin(w, i)
    ensures ParkedOk(Begin(w, i, us, junk))
  {
  }

  lemma BeginKeepsEntries(w: World, i: nat, us: nat, junk: int)
    requires EntriesOk(w) && CanBegin(w, i)
    ensures EntriesOk(Begin(w, i, us, junk))
  {
  }

  lemma BeginKeepsThread(w: World, i: nat, us: nat, junk: int)
    requires ThreadOk(w) && CanBegin(w, i)
    requires w.entries[i].linger.continuation.tls.value < w.limit
    requires Clean(w.parked[w.entries[i].linger.continuation.tls.value])
    requires TaskReady(w.entries[i].fn, w.entries[i].linger.continuation.task)
    ensures ThreadOk(Begin(w, i, us, junk))
  {
  }

  lemma BeginKeepsInv(w: World, i: nat, us: nat, junk: int)
    requires WorldInv(w) && w.current.None? && i < |w.entries|
    ensures WorldInv(Begin(w, i, us, junk))
  {
    if w.entries[i].linger.Live? {
      assert TimedOk(w.entries[i], IsCurrent(w, i));
      SlotIsParked(w, i);
      BeginKeepsGroups(w, i, us, junk);
      BeginKeepsTcbs(w, i, us, junk);
      BeginKeepsStacks(w, i, us, junk);
      BeginKeepsDirty(w, i, us, junk);
      BeginKeepsParked(w, i, us, junk);
      BeginKeepsEntries(w, i, us, junk);
      BeginKeepsThread(w, i, us, junk);
    }
  }

  // ---- Events of the machine ----

  lemma GroupsAreBounded(w: World)
    requires GroupsOk(w)
    ensures |Held(w.entries, OwnsGroup)| <= w.limit
  {
    BuiltGroups(w.limit, w.groups.calls, 0);
    assert |multiset(w.groups.free) + Held(w.entries, OwnsGroup)| == |w.groups.free| + |Held(w.entries, OwnsGroup)|;
  }

  /** A continuation that is about to take a stack has a group and no stack, so a stack is free. */
  lemma StackIsFree(w: World)
    requires GroupsOk(w) && StacksOk(w) && EntriesOk(w) && ThreadOk(w) && w.current.Some? && Stack(w.m).None?
    ensures w.m.stacks.free != []
  {
    var i := w.current.value.index;
    assert TimedOk(w.entries[i], true);
    HeldFewer(w.entries, OwnsStack, OwnsGroup, i);
    GroupsAreBounded(w);
    BuiltFresh(w.limit, 0);
    assert Held(w.entries, OwnsStack) + One(Stack(w.m)) == Held(w.entries, OwnsStack);
    assert |multiset(w.m.stacks.free) + Held(w.entries, OwnsStack)|
        == |w.m.stacks.free| + |Held(w.entries, OwnsStack)|;
  }

  lemma TakingKeepsStacks(w: World, m': State)
    requires StacksOk(w) && Stack(w.m).None? && w.m.stacks.free != []
    requires m'.stacks == TakeStack(w.m.stacks).0 && Stack(m') == Some(TakeStack(w.m.stacks).1)
    ensures StacksOk(w.(m := m'))
  {
    var held := Held(w.entries, OwnsStack);
    assert held + One(Stack(w.m)) == held;
    AcquireConserves(w.m.stacks, Fresh, held);
  }

  lemma GivingKeepsStacks(w: World, m': State)
    requires StacksOk(w) && Stack(w.m).Some?
    requires m'.stacks == Release(w.m.stacks, Stack(w.m).value) && Stack(m').None?
    ensures StacksOk(w.(m := m'))
  {
    var held := Held(w.entries, OwnsStack);
    ReleaseConserves(w.m.stacks, Fresh, held + One(Stack(w.m)), Stack(w.m).value);
    assert held + One(Stack(w.m)) - multiset{Stack(w.m).value} == held + One(Stack(m'));
  }

  lemma EventKeepsStacks(w: World, e: Event)
    requires GroupsOk(w) && StacksOk(w) && EntriesOk(w) && ThreadOk(w) && CanHappen(w.m, e)
    ensures StacksOk(w.(m := Step(w.m, e)))
  {
    StepFrame(w.m, e);
    if Takes(w.m, e) {
      StackIsFree(w);
      TakingKeepsStacks(w, Step(w.m, e));
    } else if Gives(w.m, e) {
      GivingKeepsStacks(w, Step(w.m, e));
    }
  }

  lemma EventKeepsThread(w: World, e: Event)
    requires ThreadOk(w) && CanHappen(w.m, e)
    ensures ThreadOk(w.(m := Step(w.m, e)))
  {
    StepKeepsInv(w.m, e);
    StepFrame(w.m, e);
  }

  lemma NewMachineKeepsRest(w: World, m': State)
    requires GroupsOk(w) && TcbsOk(w) && DirtyOk(w) && ParkedOk(w) && EntriesOk(w)
    ensures var w' := w.(m := m'); GroupsOk(w') && TcbsOk(w') && DirtyOk(w') && ParkedOk(w') && EntriesOk(w')
  {
    var w' := w.(m := m');
    assert RunningTcb(w') == RunningTcb(w);
    forall i | 0 <= i < |w.entries|
      ensures TimedOk(w'.entries[i], IsCurrent(w', i))
    {
      assert IsCurrent(w', i) == IsCurrent(w, i);
    }
  }

  lemma EventKeepsInv(w: World, e: Event)
    requires WorldInv(w) && CanHappen(w.m, e)
    ensures WorldInv(w.(m := Step(w.m, e)))
  {
    EventKeepsStacks(w, e);
    EventKeepsThread(w, e);
    NewMachineKeepsRest(w, Step(w.m, e));
  }

  // ---- Dropping a continuation ----

  predicate CanDrop(w: World, i: nat, e: Timed) {
    w.current.None? && i < |w.entries| && w.entries[i].linger.Live? &&
    w.entries[i].linger.continuation.tls.Some? && !e.linger.Live?
  }

  /** Replacing entry `i` by `e`, which drops the continuation it held. */
  function Replace(w: World, i: nat, e: Timed): World
    requires CanDrop(w, i, e)
  {
    DropContinuation(w.(entries := w.entries[i := e]), w.entries[i].linger.continuation)
  }

  lemma DropKeepsGroups(w: World, i: nat, e: Timed)
    requires GroupsOk(w) && CanDrop(w, i, e)
    ensures GroupsOk(Replace(w, i, e))
  {
    var g := w.entries[i].linger.continuation.group;
    HeldLoses(w.entries, OwnsGroup, i, e);
    ReleaseConserves(w.groups, GroupBuilder(w.limit), Held(w.entries, OwnsGroup), g);
    assert Held(w.entries[i := e], OwnsGroup) == Held(w.entries, OwnsGroup) - multiset{g};
  }

  lemma DropKeepsTcbs(w: World, i: nat, e: Timed)
    requires TcbsOk(w) && CanDrop(w, i, e)
    ensures TcbsOk(Replace(w, i, e))
  {
    var t := w.entries[i].linger.continuation.tls.value;
    var held := Held(w.entries, OwnsTcb) + RunningTcb(w);
    HeldLoses(w.entries, OwnsTcb, i, e);
    ReleaseConserves(w.tcbs, Fresh, held, t);
    assert Held(w.entries[i := e], OwnsTcb) + RunningTcb(w) == held - multiset{t};
  }

  /** With no slice running, all stacks in use belong to the entries. */
  lemma IdleStacks(w: World)
    requires Stack(w.m).None?
    ensures StacksOk(w) <==> w.m.stacks.calls == w.limit && Conserved(w.m.stacks, Fresh, Held(w.entries, OwnsStack))
  {
    assert Held(w.entries, OwnsStack) + One(Stack(w.m)) == Held(w.entries, OwnsStack);
  }

  lemma DropReturnsStack(w: World, i: nat, e: Timed)
    requires StacksOk(w) && CanDrop(w, i, e) && Stack(w.m).None?
    requires w.entries[i].linger.continuation.task.checkpoint.Some?
    ensures StacksOk(Replace(w, i, e))
  {
    var x := w.entries[i].linger.continuation.task.checkpoint.value.stack;
    IdleStacks(w);
    HeldLoses(w.entries, OwnsStack, i, e);
    ReleaseConserves(w.m.stacks, Fresh, Held(w.entries, OwnsStack), x);
    assert Held(w.entries[i := e], OwnsStack) == Held(w.entries, OwnsStack) - multiset{x};
    IdleStacks(Replace(w, i, e));
  }

  lemma DropKeepsStacks(w: World, i: nat, e: Timed)
    requires StacksOk(w) && CanDrop(w, i, e) && Stack(w.m).None?
    ensures StacksOk(Replace(w, i, e))
  {
    if w.entries[i].linger.continuation.task.checkpoint.Some? {
      DropReturnsStack(w, i, e);
    } else {
      HeldSame(w.entries, OwnsStack, i, e);
    }
  }

  /** Renewal happens exactly when it must: the group that goes back holds no half-run function. */
  lemma DropKeepsDirty(w: World, i: nat, e: Timed)
    requires GroupsOk(w) && DirtyOk(w) && CanDrop(w, i, e)
    ensures DirtyOk(Replace(w, i, e))
  {
    var g := w.entries[i].linger.continuation.group;
    HeldLoses(w.entries, OwnsHalfRun, i, e);
    if w.entries[i].linger.continuation.task.errno.Some? {
      HalfRunIsHeld(w.entries);
      GroupsAreDistinct(w, g);
      assert Held(w.entries[i := e], OwnsHalfRun)[g] == 0;
    }
  }

  lemma DropKeepsRest(w: World, i: nat, e: Timed)
    requires ParkedOk(w) && ThreadOk(w) && CanDrop(w, i, e)
    ensures ParkedOk(Replace(w, i, e)) && ThreadOk(Replace(w, i, e))
  {
  }

  /** Everything but the entries survives dropping the continuation of entry `i`. */
  lemma DropKeepsBooks(w: World, i: nat, e: Timed)
    requires !w.fault && Books(w) && ThreadOk(w) && CanDrop(w, i, e)
    ensures !Replace(w, i, e).fault && Books(Replace(w, i, e)) && ThreadOk(Replace(w, i, e))
  {
    DropKeepsGroups(w, i, e);
    DropKeepsTcbs(w, i, e);
    DropKeepsStacks(w, i, e);
    DropKeepsDirty(w, i, e);
    DropKeepsRest(w, i, e);
  }

  ghost predicate OthersOk(w: World, i: nat) {
    w.current.None? && forall j :: 0 <= j < |w.entries| && j != i ==> TimedOk(w.entries[j], false)
  }

  lemma DropKeepsInv(w: World, i: nat, e: Timed)
    requires !w.fault && Books(w) && ThreadOk(w) && CanDrop(w, i, e) && OthersOk(w, i) && TimedOk(e, false)
    ensures WorldInv(Replace(w, i, e))
  {
    DropKeepsBooks(w, i, e);
  }

  // ---- resume() after the slice ----

  /** A slice has ended. */
  predicate CanEnd(w: World) {
    w.current.Some? && w.m.pc.Done? && w.current.value.index < |w.entries| &&
    w.entries[w.current.value.index].linger.Live?
  }

  function Uninstalled(w: World): World
    requires CanEnd(w)
  {
    Uninstall(w, w.current.value.index, w.current.value.tcb)
  }

  lemma UninstallKeepsGroups(w: World)
    requires GroupsOk(w) && CanEnd(w)
    ensures GroupsOk(Uninstalled(w))
  {
    HeldSame(w.entries, OwnsGroup, w.current.value.index, Uninstalled(w).entries[w.current.value.index]);
  }

  lemma UninstallKeepsTcbs(w: World)
    requires TcbsOk(w) && CanEnd(w) && w.entries[w.current.value.index].linger.continuation.tls.None?
    ensures TcbsOk(Uninstalled(w))
  {
    HeldGains(w.entries, OwnsTcb, w.current.value.index, Uninstalled(w).entries[w.current.value.index]);
  }

  /** The stack goes from the machine back to the continuation. */
  lemma UninstallMovesStack(w: World)
    requires CanEnd(w) && w.m.tls.task == DEFAULT_TASK
    ensures OwnsStack(Uninstalled(w).entries[w.current.value.index]) == One(Stack(w.m))
    ensures Stack(Uninstalled(w).m).None?
  {
  }

  lemma UninstallKeepsStacks(w: World)
    requires StacksOk(w) && CanEnd(w) && w.m.tls.task == DEFAULT_TASK
    requires w.entries[w.current.value.index].linger.continuation.task == DEFAULT_TASK
    ensures StacksOk(Uninstalled(w))
  {
    UninstallMovesStack(w);
    HeldGains(w.entries, OwnsStack, w.current.value.index, Uninstalled(w).entries[w.current.value.index]);
    IdleStacks(Uninstalled(w));
  }

  lemma UninstallKeepsDirty(w: World)
    requires GroupsOk(w) && DirtyOk(w) && CanEnd(w)
    requires w.entries[w.current.value.index].linger.continuation.tls.None? && Inv(w.m)
    ensures DirtyOk(Uninstalled(w))
  {
    var i := w.current.value.index;
    var e := Uninstalled(w).entries[i];
    SliceEnds(w.m);
    if w.m.task.errno.Some? {
      HeldSame(w.entries, OwnsHalfRun, i, e);
    } else {
      var g := w.entries[i].linger.continuation.group;
      HeldLoses(w.entries, OwnsHalfRun, i, e);
      HalfRunIsHeld(w.entries);
      GroupsAreDistinct(w, g);
      assert Held(w.entries[i := e], OwnsHalfRun)[g] == 0;
    }
  }

  lemma UninstallKeepsParked(w: World)
    requires ParkedOk(w) && CanEnd(w) && Clean(w.m.tls)
    ensures ParkedOk(Uninstalled(w))
  {
  }

  lemma UninstallKeepsThread(w: World)
    requires ThreadOk(w) && CanEnd(w)
    ensures ThreadOk(Uninstalled(w))
  {
  }

  /** What the invariant says of a machine whose slice has ended. */
  lemma SliceEnds(m: State)
    requires Inv(m) && m.pc.Done?
    ensures Clean(m.tls) && m.fn.pauseCalls == m.fn.pausesTaken
    ensures if m.pc.finished then Over(m.fn) && m.task.errno.None? && m.task.checkpoint.None?
            else HoldsPaused(m.fn, m.task)
  {
  }

  lemma UninstallKeepsBooks(w: World)
    requires WorldInv(w) && CanEnd(w)
    ensures !Uninstalled(w).fault && Books(Uninstalled(w)) && ThreadOk(Uninstalled(w))
  {
    assert TimedOk(w.entries[w.current.value.index], true);
    SliceEnds(w.m);
    UninstallKeepsGroups(w);
    UninstallKeepsTcbs(w);
    UninstallKeepsStacks(w);
    UninstallKeepsDirty(w);
    UninstallKeepsParked(w);
    UninstallKeepsThread(w);
  }

  lemma UninstallKeepsOthers(w: World)
    requires EntriesOk(w) && CanEnd(w)
    ensures OthersOk(Uninstalled(w), w.current.value.index)
  {
    var i, w' := w.current.value.index, Uninstalled(w);
    forall j | 0 <= j < |w'.entries| && j != i
      ensures TimedOk(w'.entries[j], false)
    {
      assert TimedOk(w.entries[j], IsCurrent(w, j));
    }
  }

  lemma RetrievedIsOk(e: Timed)
    requires Over(e.fn) && e.delivered == []
    ensures TimedOk(Retrieved(e), false) && !Retrieved(e).linger.Live?
  {
  }

  lemma FinishedKeepsInv(w: World)
    requires WorldInv(w) && CanEnd(w) && w.m.pc.finished
    ensures WorldInv(End(w))
  {
    var i, w' := w.current.value.index, Uninstalled(w);
    assert TimedOk(w.entries[i], true);
    SliceEnds(w.m);
    UninstallKeepsBooks(w);
    UninstallKeepsOthers(w);
    RetrievedIsOk(w'.entries[i]);
    DropKeepsInv(w', i, Retrieved(w'.entries[i]));
  }

  lemma PausedKeepsInv(w: World)
    requires WorldInv(w) && CanEnd(w) && !w.m.pc.finished
    ensures WorldInv(End(w))
  {
    assert TimedOk(w.entries[w.current.value.index], true);
    SliceEnds(w.m);
    UninstallKeepsBooks(w);
    UninstallKeepsOthers(w);
    PausedIsOk(w);
  }

  lemma EndKeepsInv(w: World)
    requires WorldInv(w) && w.m.pc.Done?
    ensures WorldInv(End(w))
  {
    if w.m.pc.finished { FinishedKeepsInv(w); } else { PausedKeepsInv(w); }
  }

  lemma PausedIsOk(w: World)
    requires CanEnd(w) && OthersOk(Uninstalled(w), w.current.value.index)
    requires TimedOk(w.entries[w.current.value.index], true)
    requires HoldsPaused(w.m.fn, w.m.task) && w.m.fn.pauseCalls == w.m.fn.pausesTaken
    ensures EntriesOk(Uninstalled(w))
  {
    assert TimedOk(Uninstalled(w).entries[w.current.value.index], false);
  }

  // ---- drop and cancel() ----

  lemma AllOthersOk(w: World, i: nat)
    requires EntriesOk(w) && w.current.None?
    ensures OthersOk(w, i)
  {
    forall j | 0 <= j < |w.entries|
      ensures TimedOk(w.entries[j], false)
    {
      assert TimedOk(w.entries[j], IsCurrent(w, j));
    }
  }

  lemma GivingUpKeepsInv(w: World, i: nat, e: Timed)
    requires WorldInv(w) && w.current.None? && i < |w.entries| && w.entries[i].linger.Live?
    requires e == w.entries[i].(linger := Dropped) || e == w.entries[i].(linger := Completion(0), isComplete := true)
    ensures CanDrop(w, i, e) && WorldInv(Replace(w, i, e))
  {
    assert TimedOk(w.entries[i], IsCurrent(w, i));
    AllOthersOk(w, i);
    DropKeepsInv(w, i, e);
  }

  // ---- launch() ----

  /** A group was to be had, so fewer continuations than groups are live, and a block is free. */
  lemma TcbIsFree(w: World)
    requires TcbsOk(w) && w.current.None?
    requires |Held(w.entries, OwnsGroup)| < w.limit
    ensures w.tcbs.free != []
  {
    HeldAtMost(w.entries, OwnsTcb, OwnsGroup);
    BuiltFresh(w.limit, 0);
    assert Held(w.entries, OwnsTcb) + RunningTcb(w) == Held(w.entries, OwnsTcb);
    assert |multiset(w.tcbs.free) + Held(w.entries, OwnsTcb)| == |w.tcbs.free| + |Held(w.entries, OwnsTcb)|;
  }

  /** assign_group() fails exactly when every group is held by a live continuation. */
  lemma GroupAssignment(w: World)
    requires GroupsOk(w)
    ensures var g := TryAcquire(w.groups, GroupBuilder(w.limit));
            && Conserved(g.0, GroupBuilder(w.limit), Held(w.entries, OwnsGroup) + One(g.1))
            && (g.1.None? <==> |Held(w.entries, OwnsGroup)| == w.limit)
  {
    var g := TryAcquire(w.groups, GroupBuilder(w.limit));
    AcquireConserves(w.groups, GroupBuilder(w.limit), Held(w.entries, OwnsGroup));
    BuiltGroups(w.limit, w.groups.calls, 0);
    BuiltGroups(w.limit, g.0.calls, 0);
    assert |multiset(w.groups.free) + Held(w.entries, OwnsGroup)| == |w.groups.free| + |Held(w.entries, OwnsGroup)|;
    assert |multiset(g.0.free) + (Held(w.entries, OwnsGroup) + One(g.1))|
        == |g.0.free| + |Held(w.entries, OwnsGroup)| + |One(g.1)|;
  }

  ghost predicate NewGroupHeld(w: World, groups: Pool<nat>, g: nat) {
    Conserved(groups, GroupBuilder(w.limit), Held(w.entries, OwnsGroup) + multiset{g})
  }

  lemma ConstructKeepsGroups(w: World, program: Program, g: nat)
    requires NewGroupHeld(w, w.groups, g)
    ensures GroupsOk(Construct(w, program, g))
  {
    HeldAppend(w.entries, OwnsGroup, Construct(w, program, g).entries[|w.entries|]);
  }

  lemma ConstructKeepsTcbs(w: World, program: Program, g: nat)
    requires TcbsOk(w) && w.current.None? && w.tcbs.free != []
    ensures TcbsOk(Construct(w, program, g))
  {
    var w' := Construct(w, program, g);
    assert Held(w.entries, OwnsTcb) + RunningTcb(w) == Held(w.entries, OwnsTcb);
    AcquireConserves(w.tcbs, Fresh, Held(w.entries, OwnsTcb));
    HeldAppend(w.entries, OwnsTcb, w'.entries[|w.entries|]);
    assert Held(w'.entries, OwnsTcb) + RunningTcb(w') == Held(w'.entries, OwnsTcb);
  }

  lemma ConstructKeepsStacks(w: World, program: Program, g: nat)
    requires StacksOk(w)
    ensures StacksOk(Construct(w, program, g))
  {
    HeldAppend(w.entries, OwnsStack, Construct(w, program, g).entries[|w.entries|]);
  }

  lemma ConstructKeepsDirty(w: World, program: Program, g: nat)
    requires DirtyOk(w)
    ensures DirtyOk(Construct(w, program, g))
  {
    HeldAppend(w.entries, OwnsHalfRun, Construct(w, program, g).entries[|w.entries|]);
  }

  lemma ConstructKeepsRest(w: World, program: Program, g: nat)
    requires ParkedOk(w) && ThreadOk(w) && w.current.None? && w.tcbs.free != []
    ensures ParkedOk(Construct(w, program, g)) && ThreadOk(Construct(w, program, g))
  {
  }

  lemma ConstructKeepsEntries(w: World, program: Program, g: nat)
    requires EntriesOk(w) && w.current.None?
    ensures EntriesOk(Construct(w, program, g))
  {
    var w' := Construct(w, program, g);
    forall i | 0 <= i < |w'.entries|
      ensures TimedOk(w'.entries[i], IsCurrent(w', i))
    {
      if i < |w.entries| {
        assert TimedOk(w.entries[i], IsCurrent(w, i));
      }
    }
  }

  lemma ConstructKeepsInv(w: World, groups: Pool<nat>, program: Program, g: nat)
    requires WorldInv(w) && w.current.None?
    requires NewGroupHeld(w, groups, g) && |Held(w.entries, OwnsGroup)| < w.limit
    ensures WorldInv(Construct(w.(groups := groups), program, g))
  {
    var w' := w.(groups := groups);
    TcbIsFree(w);
    NewGroupsKeepRest(w, groups);
    ConstructKeepsGroups(w', program, g);
    ConstructKeepsTcbs(w', program, g);
    ConstructKeepsStacks(w', program, g);
    ConstructKeepsDirty(w', program, g);
    ConstructKeepsRest(w', program, g);
    ConstructKeepsEntries(w', program, g);
  }

  lemma NewGroupsKeepRest(w: World, groups: Pool<nat>)
    requires TcbsOk(w) && StacksOk(w) && DirtyOk(w) && ParkedOk(w) && EntriesOk(w) && ThreadOk(w)
    ensures var w' := w.(groups := groups);
            TcbsOk(w') && StacksOk(w') && DirtyOk(w') && ParkedOk(w') && EntriesOk(w') && ThreadOk(w')
  {
    var w' := w.(groups := groups);
    assert RunningTcb(w') == RunningTcb(w);
    forall i | 0 <= i < |w.entries|
      ensures TimedOk(w'.entries[i], IsCurrent(w', i))
    {
      assert IsCurrent(w', i) == IsCurrent(w, i);
    }
  }

  lemma NoGroupKeepsInv(w: World, groups: Pool<nat>)
    requires WorldInv(w) && Conserved(groups, GroupBuilder(w.limit), Held(w.entries, OwnsGroup))
    ensures WorldInv(w.(groups := groups))
  {
    NewGroupsKeepRest(w, groups);
  }

  lemma AssignedKeepsInv(w: World, groups: Pool<nat>, program: Program, g: nat, us: nat, junk: int)
    requires WorldInv(w) && w.current.None?
    requires NewGroupHeld(w, groups, g) && |Held(w.entries, OwnsGroup)| < w.limit
    ensures var w' := Construct(w.(groups := groups), program, g);
            WorldInv(w') && WorldInv(Begin(w', |w.entries|, us, junk))
  {
    ConstructKeepsInv(w, groups, program, g);
    BeginKeepsInv(Construct(w.(groups := groups), program, g), |w.entries|, us, junk);
  }

  lemma LaunchKeepsInv(w: World, program: Program, us: nat, junk: int)
    requires WorldInv(w) && w.current.None?
    ensures WorldInv(Launch(w, program, us, junk))
  {
    var g := TryAcquire(w.groups, GroupBuilder(w.limit));
    GroupAssignment(w);
    GroupsAreBounded(w);
    if g.1.None? {
      assert Held(w.entries, OwnsGroup) + One(g.1) == Held(w.entries, OwnsGroup);
      NoGroupKeepsInv(w, g.0);
    } else {
      AssignedKeepsInv(w, g.0, program, g.1.value, us, junk);
    }
  }

  // ---- The first world ----

  lemma {:induction false} NewBlocksAreClean(n: nat)
    ensures forall t: nat :: t < n ==> t in NewBlocks(n) && NewBlocks(n)[t] == NEW_TLS
    decreases n
  {
    if n > 0 {
      NewBlocksAreClean(n - 1);
    }
  }

  lemma PreallocatedPool(n: nat)
    ensures var p := Prealloc(Pool([], 0), Fresh, n).0;
            p.calls == n && Conserved(p, Fresh, multiset{})
  {
    PreallocShape(Pool([], 0), Fresh, n);
    PreallocConserves(Pool([], 0), Fresh, multiset{}, n);
  }

  lemma NewGroupsOk(limit: nat, now: nat)
    ensures GroupsOk(NewWorld(limit, now))
  {
    assert multiset(NewWorld(limit, now).groups.free) + Held(NewWorld(limit, now).entries, OwnsGroup) == multiset{};
  }

  lemma NewTcbsOk(limit: nat, now: nat)
    ensures TcbsOk(NewWorld(limit, now))
  {
    PreallocatedPool(limit);
    var w := NewWorld(limit, now);
    assert Held(w.entries, OwnsTcb) + RunningTcb(w) == multiset{};
  }

  lemma NewStacksOk(limit: nat, now: nat)
    ensures StacksOk(NewWorld(limit, now))
  {
    PreallocatedPool(limit);
    var w := NewWorld(limit, now);
    assert Held(w.entries, OwnsStack) + One(Stack(w.m)) == multiset{};
  }

  lemma NewThreadOk(limit: nat, now: nat)
    ensures ThreadOk(NewWorld(limit, now))
  {
  }

  lemma NewWorldInv(limit: nat, now: nat)
    ensures WorldInv(NewWorld(limit, now))
  {
    NewGroupsOk(limit, now);
    NewTcbsOk(limit, now);
    NewStacksOk(limit, now);
    NewThreadOk(limit, now);
    NewBlocksAreClean(limit);
    assert DirtyOk(NewWorld(limit, now));
  }

  // ---- Every run ----

  lemma PerformKeepsInv(w: World, op: Op)
    requires WorldInv(w) && Allowed(w, op)
    ensures WorldInv(Perform(w, op))
  {
    match op
    case DoLaunch(program, us, junk) => LaunchKeepsInv(w, program, us, junk);
    case DoResume(i, us, junk) => BeginKeepsInv(w, i, us, junk);
    case Happens(e) => EventKeepsInv(w, e);
    case EndSlice => EndKeepsInv(w);
    case DoDrop(i) => DoDropKeepsInv(w, i);
    case DoCancel(i) => DoCancelKeepsInv(w, i);
    case DoErase(i) => EraseIsIdentity(w, i);
  }

  lemma DoDropKeepsInv(w: World, i: nat)
    requires WorldInv(w) && w.current.None? && i < |w.entries|
    ensures WorldInv(DropLinger(w, i))
  {
    if w.entries[i].linger.Live? {
      GivingUpKeepsInv(w, i, w.entries[i].(linger := Dropped));
    }
  }

  lemma DoCancelKeepsInv(w: World, i: nat)
    requires WorldInv(w) && w.current.None? && i < |w.entries|
    ensures WorldInv(Cancel(w, i))
  {
    if w.entries[i].linger.Live? {
      GivingUpKeepsInv(w, i, w.entries[i].(linger := Completion(0), isComplete := true));
    }
  }

  /** erase() changes nothing but the type. */
  lemma EraseIsIdentity(w: World, i: nat)
    requires i < |w.entries|
    ensures w.(entries := w.entries[i := w.entries[i].(linger := Erase(w.entries[i].linger))]) == w
  {
    assert w.entries[i := w.entries[i].(linger := Erase(w.entries[i].linger))] == w.entries;
  }

  lemma EveryWorldIsSound(run: seq<World>, ops: seq<Op>, k: nat)
    requires IsRun(run, ops) && k < |run|
    ensures WorldInv(run[k])
  {
    var limit: nat, now: nat :| now < U64 && run[0] == NewWorld(limit, now);
    NewWorldInv(limit, now);
    for j := 0 to k
      invariant WorldInv(run[j])
    {
      PerformKeepsInv(run[j], ops[j]);
    }
  }
}
