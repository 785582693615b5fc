/** What each call on timed functions achieves, told from the worlds before and after it. */
module Calls {
  import opened Common
  import opened Programs
  import opened Pools
  import opened Machine
  import opened MachineInvariant
  import opened Lifecycle
  import opened Holdings
  import opened LifecycleProofs
  import opened Theorems

  /** No entry but `i` is touched, and none is added. */
  ghost predicate OnlyEntry(w: World, w': World, i: nat) {
    |w'.entries| == |w.entries| && forall j :: 0 <= j < |w.entries| && j != i ==> w'.entries[j] == w.entries[j]
  }

  // ---- Giving a continuation's resources back ----

  /** The group is free and holds no half-run function, and the block and the stack, if any, are free too. */
  ghost predicate GivenBack(w: World, c: Continuation) {
    && c.group in w.groups.free && c.group !in w.dirty
    && c.tls.Some? && c.tls.value in w.tcbs.free
    && (c.task.checkpoint.Some? ==> c.task.checkpoint.value.stack in w.m.stacks.free)
  }

  lemma Released(p: Pool<nat>, x: nat)
    ensures x in Release(p, x).free
  {
    assert Release(p, x).free[|p.free|] == x;
  }

  lemma ReplacedGivesBack(w: World, i: nat, e: Timed)
    requires CanDrop(w, i, e)
    requires w.entries[i].linger.continuation.task.errno.None? ==> w.entries[i].linger.continuation.group !in w.dirty
    ensures GivenBack(Replace(w, i, e), w.entries[i].linger.continuation)
    ensures OnlyEntry(w, Replace(w, i, e), i) && Replace(w, i, e).entries[i] == e && Replace(w, i, e).current.None?
  {
    var c := w.entries[i].linger.continuation;
    Released(w.groups, c.group);
    Released(w.tcbs, c.tls.value);
    if c.task.checkpoint.Some? {
      Released(w.m.stacks, c.task.checkpoint.value.stack);
    }
  }

  /**
   Dropping or cancelling a continuation renews its group if need be, and gives back all that
   it had; nothing else changes hands.
   */
  lemma GivingUpGivesBack(run: seq<World>, ops: seq<Op>, k: nat, i: nat)
    requires IsRun(run, ops) && k < |ops| && (ops[k] == DoDrop(i) || ops[k] == DoCancel(i))
    requires run[k].entries[i].linger.Live?
    ensures GivenBack(run[k + 1], run[k].entries[i].linger.continuation) && OnlyEntry(run[k], run[k + 1], i)
    ensures var e, e' := run[k].entries[i], run[k + 1].entries[i];
            && !e'.linger.Live? && e'.fn == e.fn && e'.delivered == []
            && (e'.linger.Completion? <==> ops[k].DoCancel?) && (e'.isComplete <==> ops[k].DoCancel?)
  {
    EveryWorldIsSound(run, ops, k);
    var w, e := run[k], run[k].entries[i];
    assert TimedOk(e, IsCurrent(w, i));
    HalfRunIffPaused(run, ops, k, i);
    ReplacedGivesBack(w, i, e.(linger := Dropped));
    ReplacedGivesBack(w, i, e.(linger := Completion(0), isComplete := true));
  }

  /** Giving up what is no continuation does nothing, and neither does resuming it. */
  lemma NothingLeftToDo(run: seq<World>, ops: seq<Op>, k: nat, i: nat)
    requires IsRun(run, ops) && k < |ops|
    requires (ops[k].DoResume? || ops[k].DoDrop? || ops[k].DoCancel?) && ops[k].index == i
    requires !run[k].entries[i].linger.Live?
    ensures run[k + 1] == run[k]
  {
  }

  /** After one function has been given up, another can be launched. */
  lemma GivingUpMakesRoom(run: seq<World>, ops: seq<Op>, k: nat, i: nat)
    requires IsRun(run, ops) && k + 1 < |ops| && (ops[k] == DoDrop(i) || ops[k] == DoCancel(i))
    requires run[k].entries[i].linger.Live? && ops[k + 1].DoLaunch?
    ensures |run[k + 2].entries| == |run[k + 1].entries| + 1
  {
    GivingUpGivesBack(run, ops, k, i);
    LaunchAdds(run[k + 1], ops[k + 1]);
  }

  lemma LaunchAdds(w: World, op: Op)
    requires Allowed(w, op) && op.DoLaunch? && TryAcquire(w.groups, GroupBuilder(w.limit)).1.Some?
    ensures |Perform(w, op).entries| == |w.entries| + 1
  {
  }

  // ---- The end of a slice ----

  lemma FinishedIsOver(w: World)
    requires WorldInv(w) && w.m.pc == Done(true)
    ensures CanEnd(w) && Over(w.m.fn) && w.m.task.errno.None? && w.m.task.checkpoint.None?
    ensures w.entries[w.current.value.index].delivered == []
  {
    assert TimedOk(w.entries[w.current.value.index], true);
    SliceEnds(w.m);
  }

  /** The entry of a function that has finished with this outcome. */
  function Ending(fn: Fn, o: Outcome): Timed {
    Timed(if o.Value? then Completion(o.value) else Poison, o.Value?, fn.(closure := Empty), [o])
  }

  lemma EndIs(w: World)
    requires CanEnd(w) && w.m.pc == Done(true) && w.m.fn.closure.Returned?
    requires w.entries[w.current.value.index].delivered == []
    ensures var i, e := w.current.value.index, Ending(w.m.fn, w.m.fn.closure.outcome);
            CanDrop(Uninstalled(w), i, e) && End(w) == Replace(Uninstalled(w), i, e)
  {
    var i, o := w.current.value.index, w.m.fn.closure.outcome;
    assert [] + [o] == [o];
    assert Retrieved(Uninstalled(w).entries[i]) == Ending(w.m.fn, o);
  }

  lemma UninstallFrame(w: World)
    requires CanEnd(w) && w.m.pc == Done(true) && w.m.fn.closure.Returned? && w.m.task.checkpoint.None?
    ensures var i := w.current.value.index;
            && OnlyEntry(w, Uninstalled(w), i)
            && Uninstalled(w).entries[i].linger.continuation.group == w.entries[i].linger.continuation.group
            && Uninstalled(w).entries[i].linger.continuation.tls == Some(w.current.value.tcb)
            && w.entries[i].linger.continuation.group !in Uninstalled(w).dirty
  {
  }

  /** What a call leaves of the function that it has run to its end. */
  ghost predicate Finishes(w: World, w': World, i: nat, e: Timed) {
    && i < |w.entries| && w.entries[i].linger.Live? && w.current.Some?
    && OnlyEntry(w, w', i) && w'.current.None? && w'.entries[i] == e
    && w.entries[i].linger.continuation.group in w'.groups.free && w.entries[i].linger.continuation.group !in w'.dirty
    && w.current.value.tcb in w'.tcbs.free
  }

  lemma EndFinishes(w: World)
    requires CanEnd(w) && w.m.pc == Done(true) && w.m.fn.closure.Returned? && w.m.task.checkpoint.None?
    requires w.entries[w.current.value.index].delivered == []
    ensures Finishes(w, End(w), w.current.value.index, Ending(w.m.fn, w.m.fn.closure.outcome))
  {
    EndIs(w);
    UninstallFrame(w);
    ReplacedGivesBack(Uninstalled(w), w.current.value.index, Ending(w.m.fn, w.m.fn.closure.outcome));
  }

  /**
   When a function has finished, resume() leaves its own result, which is the value that its
   uninterrupted run returns, or poison if that panics, and gives back its group and block.
   */
  lemma ResultIsDelivered(run: seq<World>, ops: seq<Op>, k: nat)
    requires IsRun(run, ops) && k < |ops| && ops[k] == EndSlice && run[k].m.pc == Done(true)
    ensures var fn := run[k].m.fn;
            var end := Uninterrupted(fn.program, fn.startErrno, fn.steps).at;
            && run[k].current.Some? && end.Ended?
            && Finishes(run[k], run[k + 1], run[k].current.value.index, Ending(fn, end.outcome))
  {
    EveryWorldIsSound(run, ops, k);
    FinishedIsOver(run[k]);
    EndFinishes(run[k]);
  }

  lemma PausedIsHeld(w: World)
    requires WorldInv(w) && w.m.pc == Done(false)
    ensures CanEnd(w) && w.entries[w.current.value.index].delivered == [] && !w.entries[w.current.value.index].isComplete
    ensures w.m.task.errno.Some? && w.m.task.checkpoint.Some?
  {
    assert TimedOk(w.entries[w.current.value.index], true);
    SliceEnds(w.m);
  }

  /** What a call leaves of the function that it has not run to its end. */
  ghost predicate Keeps(w: World, w': World, i: nat) {
    && i < |w.entries| && w.entries[i].linger.Live? && w.current.Some?
    && OnlyEntry(w, w', i) && w'.current.None?
    && w'.entries[i] == Timed(
         Live(Continuation(w.m.task, w.entries[i].linger.continuation.group, Some(w.current.value.tcb))),
         false, w.m.fn, [])
    && w'.groups == w.groups && w'.tcbs == w.tcbs && w'.m.stacks == w.m.stacks
  }

  lemma EndKeeps(w: World)
    requires CanEnd(w) && w.m.pc == Done(false)
    requires w.entries[w.current.value.index].delivered == [] && !w.entries[w.current.value.index].isComplete
    ensures Keeps(w, End(w), w.current.value.index)
  {
  }

  /** When it has been paused, its continuation has all that it had, and where it was paused. */
  lemma PausedIsKept(run: seq<World>, ops: seq<Op>, k: nat)
    requires IsRun(run, ops) && k < |ops| && ops[k] == EndSlice && run[k].m.pc == Done(false)
    ensures run[k].current.Some? && Keeps(run[k], run[k + 1], run[k].current.value.index)
    ensures run[k].m.task.errno.Some? && run[k].m.task.checkpoint.Some?
  {
    EveryWorldIsSound(run, ops, k);
    PausedIsHeld(run[k]);
    EndKeeps(run[k]);
  }

  // ---- Launching and resuming ----

  /** Entry `i` is being run with budget `us`, and its task and function are these. */
  ghost predicate Runs(w: World, i: nat, us: nat, task: Task, fn: Fn) {
    IsCurrent(w, i) && w.m.us == us && w.m.task == task && w.m.fn == fn && w.m.pc == BlockFirst
  }

  lemma BeginRuns(w: World, i: nat, us: nat, junk: int)
    requires WorldInv(w) && w.current.None? && i < |w.entries| && w.entries[i].linger.Live?
    ensures var e, w' := w.entries[i], Begin(w, i, us, junk);
            && Runs(w', i, us, e.linger.continuation.task, e.fn) && OnlyEntry(w, w', i)
            && e.linger.continuation.tls == Some(w'.current.value.tcb) && w'.m.gid == e.linger.continuation.group
            && w'.m.now == w.m.now && w'.m.pending == w.m.pending
  {
    assert TimedOk(w.entries[i], IsCurrent(w, i));
    SlotIsParked(w, i);
  }

  /** resume() runs the continuation's task and function, on its own block and group, with the budget given. */
  lemma ResumeRuns(run: seq<World>, ops: seq<Op>, k: nat)
    requires IsRun(run, ops) && k < |ops| && ops[k].DoResume? && run[k].entries[ops[k].index].linger.Live?
    ensures var i, w, w' := ops[k].index, run[k], run[k + 1];
            var e := w.entries[i];
            && Runs(w', i, ops[k].us, e.linger.continuation.task, e.fn) && OnlyEntry(w, w', i)
            && e.linger.continuation.tls == Some(w'.current.value.tcb) && w'.m.gid == e.linger.continuation.group
            && w'.m.now == w.m.now && w'.m.pending == w.m.pending
  {
    EveryWorldIsSound(run, ops, k);
    BeginRuns(run[k], ops[k].index, ops[k].us, ops[k].junk);
  }

  /** One more entry than before, with a function that has not been called. */
  ghost predicate AddsOne(w: World, w': World, program: Program) {
    && |w'.entries| == |w.entries| + 1 && w'.entries[..|w.entries|] == w.entries
    && w'.entries[|w.entries|].linger.Live? && w'.entries[|w.entries|].delivered == []
    && FnOf(w', |w.entries|).program == program && Untouched(FnOf(w', |w.entries|))
  }

  lemma ConstructAddsOne(w: World, program: Program, g: nat)
    requires w.current.None?
    ensures AddsOne(w, Construct(w, program, g), program)
    ensures Construct(w, program, g).m == w.m && Construct(w, program, g).current.None?
  {
    assert Construct(w, program, g).entries[..|w.entries|] == w.entries;
  }

  lemma BeginKeepsOne(w: World, w': World, w'': World, program: Program)
    requires AddsOne(w, w', program) && w'.current.None? && OnlyEntry(w', w'', |w.entries|)
    requires IsCurrent(w'', |w.entries|) && w''.m.fn == w'.entries[|w.entries|].fn
    requires w''.entries[|w.entries|].linger.Live? && w''.entries[|w.entries|].delivered == []
    ensures AddsOne(w, w'', program)
  {
    assert w''.entries[..|w.entries|] == w'.entries[..|w.entries|];
  }

  lemma BeginStaysLive(w: World, i: nat, us: nat, junk: int)
    requires i < |w.entries| && w.entries[i].linger.Live?
    ensures var w' := Begin(w, i, us, junk);
            |w'.entries| == |w.entries| && w'.entries[i].linger.Live? && w'.entries[i].delivered == w.entries[i].delivered
  {
  }

  /** What launch() makes of the world, if there is a group for the function. */
  ghost predicate Launches(w: World, w': World, program: Program, us: nat) {
    && AddsOne(w, w', program) && w'.m.now == w.m.now
    && if us == 0 then w'.m == w.m && w'.current.None? else IsCurrent(w', |w.entries|) && w'.m.us == us
  }

  lemma LaunchLaunches(w: World, program: Program, us: nat, junk: int)
    requires WorldInv(w) && w.current.None? && |Held(w.entries, OwnsGroup)| < w.limit
    ensures Launches(w, Launch(w, program, us, junk), program, us)
  {
    var g := TryAcquire(w.groups, GroupBuilder(w.limit));
    GroupAssignment(w);
    var w' := w.(groups := g.0);
    var w1 := Construct(w', program, g.1.value);
    ConstructKeepsInv(w, g.0, program, g.1.value);
    ConstructAddsOne(w', program, g.1.value);
    if us > 0 {
      BeginRuns(w1, |w.entries|, us, junk);
      BeginStaysLive(w1, |w.entries|, us, junk);
      BeginKeepsOne(w', w1, Begin(w1, |w.entries|, us, junk), program);
    }
  }

  /** launch() has failed. */
  ghost predicate FailsToLaunch(w: World, w': World) {
    w'.entries == w.entries && w'.current.None? && w'.m == w.m
  }

  lemma LaunchFails(w: World, program: Program, us: nat, junk: int)
    requires GroupsOk(w) && w.current.None? && |Held(w.entries, OwnsGroup)| == w.limit
    ensures FailsToLaunch(w, Launch(w, program, us, junk))
  {
    GroupAssignment(w);
  }

  /**
   launch() adds a continuation of the function given, exactly unless every group is held, and
   starts to run it exactly if the budget is not 0.
   */
  lemma LaunchRunsIff(run: seq<World>, ops: seq<Op>, k: nat)
    requires IsRun(run, ops) && k < |ops| && ops[k].DoLaunch?
    ensures if |Held(run[k].entries, OwnsGroup)| == run[k].limit then FailsToLaunch(run[k], run[k + 1])
            else Launches(run[k], run[k + 1], ops[k].program, ops[k].us)
  {
    EveryWorldIsSound(run, ops, k);
    GroupsAreBounded(run[k]);
    if |Held(run[k].entries, OwnsGroup)| == run[k].limit {
      LaunchFails(run[k], ops[k].program, ops[k].us, ops[k].junk);
    } else {
      LaunchLaunches(run[k], ops[k].program, ops[k].us, ops[k].junk);
    }
  }

  // ---- From launch to result ----

  /** Whatever is delivered for a launched function is what that function, run alone, ends with. */
  lemma DeliversWhatWasLaunched(run: seq<World>, ops: seq<Op>, j: nat, k: nat, o: Outcome)
    requires IsRun(run, ops) && j < k < |run| && ops[j].DoLaunch? && |run[j + 1].entries| > |run[j].entries|
    ensures |run[j].entries| < |run[k].entries|
    ensures o in run[k].entries[|run[j].entries|].delivered ==>
              exists errno: int, n: nat :: Uninterrupted(ops[j].program, errno, n).at == Ended(o)
  {
    var i := |run[j].entries|;
    LaunchRunsIff(run, ops, j);
    SlicesContinue(run, ops, j + 1, k, i);
    DeliveredOnceAndRight(run, ops, k, i);
    var e := run[k].entries[i];
    if o in e.delivered {
      DeliveredIsDone(run, ops, k, i);
      assert Uninterrupted(ops[j].program, e.fn.startErrno, e.fn.steps).at == Ended(o);
    }
  }

  lemma DeliveredIsDone(run: seq<World>, ops: seq<Op>, k: nat, i: nat)
    requires IsRun(run, ops) && k < |run| && i < |run[k].entries| && run[k].entries[i].delivered != []
    ensures FnOf(run[k], i) == run[k].entries[i].fn
  {
    EveryWorldIsSound(run, ops, k);
    assert TimedOk(run[k].entries[i], IsCurrent(run[k], i));
  }
}
