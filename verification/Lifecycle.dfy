/**
 Every timed function of one kernel thread: launching, resuming, dropping and
 cancelling them, over the reuse pools of groups, thread-control blocks and
 stacks.  A slice runs on the machine of module Machine, one event at a time.

 Models Linger, launch(), resume(), erase() and Drop for Continuation of
 src/linger.rs, the pools of src/groups.rs, src/localstores.rs and src/stacks.rs,
 and the C wrapper of src/ffi.rs.
 */
module Lifecycle {
  import opened Common
  import opened Programs
  import opened Pools
  import opened Machine

  /** `tls` is the slot borrowed from the pool: it is empty exactly while its block is installed. */
  datatype Continuation = Continuation(task: Task, group: nat, tls: Option<nat>)

  datatype Linger =
    | Completion(value: int)
    | Live(continuation: Continuation)
    | Poison
    | Dropped

  /**
   A timed function as its caller holds it, with the completion flag of the C
   wrapper.  `delivered` is history: the outcomes handed to the caller so far.
   */
  datatype Timed = Timed(linger: Linger, isComplete: bool, fn: Fn, delivered: seq<Outcome>)

  /** The function being resumed, and the thread-control block installed for it. */
  datatype Running = Running(index: nat, tcb: nat)

  /**
   `parked` holds the thread-local variables of every block that is not installed,
   and `dirty` the groups whose libraries hold a half-run function.
   */
  datatype World = World(
    limit: nat,
    entries: seq<Timed>,
    groups: Pool<nat>,
    tcbs: Pool<nat>,
    parked: map<nat, Tls>,
    dirty: set<nat>,
    current: Option<Running>,
    m: State,
    fault: bool)

  /** Group::new(): gives out each group once, and then fails. */
  function GroupBuilder(limit: nat): Builder<nat> {
    (call: nat) => if call < limit then Some(call) else None
  }

  const NEW_TLS := Tls(false, false, DEFAULT_TASK, 0, None)

  function NewFn(program: Program): Fn {
    Fn(program, Function, 0, 0, 0, 0, 0)
  }

  function NewThread(limit: nat, now: nat): State {
    State(
      Idle, Shared, 0, 0, false, false, false, now, 0, 0, NEW_TLS, DEFAULT_TASK, false,
      NewFn(Program(0, (regs: int, errno: int) => Finish(Value(0)), (regs: int, errno: int) => Return(0))), 0,
      Free, Free, Prealloc(Pool([], 0), Fresh, limit).0, NEW_SLICE)
  }

  function NewBlocks(n: nat): map<nat, Tls> {
    if n == 0 then map[] else NewBlocks(n - 1)[n - 1 := NEW_TLS]
  }

  /** The pools of stacks and blocks are preallocated to the group limit; groups are built on demand. */
  function NewWorld(limit: nat, now: nat): World {
    World(limit, [], Pool([], 0), Prealloc(Pool([], 0), Fresh, limit).0,
          NewBlocks(limit), {}, None, NewThread(limit, now), false)
  }

  // ---- Dropping a continuation ----

  /** Drop for Continuation, then its fields: the stack, the group and the slot go back to their pools. */
  function DropContinuation(w: World, c: Continuation): World {
    if c.tls.None? then w.(fault := true)
    else
      w.(
        // A half-run function is cleaned out of its group by renewing it.
        dirty := if c.task.errno.Some? then w.dirty - {c.group} else w.dirty,
        m := w.m.(stacks := if c.task.checkpoint.Some? then Release(w.m.stacks, c.task.checkpoint.value.stack)
                            else w.m.stacks),
        groups := Release(w.groups, c.group),
        tcbs := Release(w.tcbs, c.tls.value))
  }

  // ---- resume() ----

  /** resume(), up to installing the thread-control block: nothing happens unless it is a continuation. */
  function Begin(w: World, i: nat, us: nat, junk: int): World
    requires i < |w.entries|
  {
    var e := w.entries[i];
    if !e.linger.Live? then w
    else
      var c := e.linger.continuation;
      if c.tls.None? || c.tls.value !in w.parked then w.(fault := true)
      else
        w.(
          entries := w.entries[i := e.(linger := Live(c.(task := DEFAULT_TASK, tls := None)))],
          parked := w.parked - {c.tls.value},
          dirty := w.dirty + {c.group},
          current := Some(Running(i, c.tls.value)),
          m := w.m.(pc := BlockFirst, gid := c.group, us := us, errno := junk, tls := w.parked[c.tls.value],
                    task := c.task, fn := e.fn, slice := NEW_SLICE))
  }

  /** Uninstalling the block, and putting the continuation back. */
  function Uninstall(w: World, i: nat, tcb: nat): World
    requires i < |w.entries| && w.entries[i].linger.Live?
  {
    var c := Continuation(w.m.task, w.entries[i].linger.continuation.group, Some(tcb));
    w.(
      entries := w.entries[i := w.entries[i].(linger := Live(c), fn := w.m.fn)],
      parked := w.parked[tcb := w.m.tls],
      // Only a function that has returned and left no context behind is no longer half-run.
      dirty := if w.m.task.checkpoint.None? && w.m.fn.closure.Returned? then w.dirty - {c.group} else w.dirty,
      current := None,
      m := w.m.(pc := Idle, task := DEFAULT_TASK, tls := NEW_TLS))
  }

  /** The entry that takes the place of a continuation whose function has finished. */
  function Retrieved(e: Timed): Timed
    requires e.fn.closure.Returned?
  {
    var outcome := e.fn.closure.outcome;
    var linger := if outcome.Value? then Completion(outcome.value) else Poison;
    Timed(linger, linger.Completion?, e.fn.(closure := Empty), e.delivered + [outcome])
  }

  /** Calling the closure again to get the result out of it, and dropping the continuation. */
  function Retrieve(w: World, i: nat): World
    requires i < |w.entries| && w.entries[i].linger.Live?
  {
    var e := w.entries[i];
    if !e.fn.closure.Returned? then w.(fault := true)
    else DropContinuation(w.(entries := w.entries[i := Retrieved(e)]), e.linger.continuation)
  }

  /** resume() after switch_stack() returns. */
  function End(w: World): World {
    if w.current.None? || !w.m.pc.Done? || w.current.value.index >= |w.entries| ||
       !w.entries[w.current.value.index].linger.Live? then w.(fault := true)
    else
      var w' := Uninstall(w, w.current.value.index, w.current.value.tcb);
      if w.m.pc.finished then Retrieve(w', w.current.value.index) else w'
  }

  // ---- launch() ----

  /** The continuation, once a group has been assigned. */
  function Construct(w: World, program: Program, group: nat): World {
    var t := TryAcquire(w.tcbs, Fresh);
    w.(
      tcbs := t.0,
      parked := if t.0.calls > w.tcbs.calls then w.parked[w.tcbs.calls := NEW_TLS] else w.parked,
      entries := w.entries + [Timed(Live(Continuation(DEFAULT_TASK, group, t.1)), false, NewFn(program), [])])
  }

  /** launch(): panics when no group is left, and runs the function at once unless the budget is 0. */
  function Launch(w: World, program: Program, us: nat, junk: int): World {
    var g := TryAcquire(w.groups, GroupBuilder(w.limit));
    var w' := w.(groups := g.0);
    if g.1.None? then w'
    else
      var w'' := Construct(w', program, g.1.value);
      if us == 0 then w'' else Begin(w'', |w.entries|, us, junk)
  }

  // ---- Giving up ----

  /** Dropping a value that is not a continuation gives nothing back. */
  function DropLinger(w: World, i: nat): World
    requires i < |w.entries|
  {
    var e := w.entries[i];
    if e.linger.Live? then
      DropContinuation(w.(entries := w.entries[i := e.(linger := Dropped)]), e.linger.continuation)
    else w
  }

  /** cancel() of the C interface. */
  function Cancel(w: World, i: nat): World
    requires i < |w.entries|
  {
    var e := w.entries[i];
    if e.linger.Live? then
      DropContinuation(w.(entries := w.entries[i := e.(linger := Completion(0), isComplete := true)]),
                       e.linger.continuation)
    else w
  }

  /** erase(): moves every field into the new value. */
  function Erase(l: Linger): Linger {
    match l
    case Completion(value) => Completion(value)
    case Live(c) => Live(Continuation(c.task, c.group, c.tls))
    case Poison => Poison
    case Dropped => Dropped
  }

  // ---- Runs ----

  datatype Op =
    | DoLaunch(program: Program, us: nat, junk: int)
    | DoResume(index: nat, us: nat, junk: int)
    | Happens(event: Event)
    | EndSlice
    | DoDrop(index: nat)
    | DoCancel(index: nat)
    | DoErase(index: nat)

  /** The thread's caller acts only between slices; within one, the machine does. */
  predicate Allowed(w: World, op: Op) {
    match op
    case DoLaunch(_, us, _) => w.current.None? && us < U64
    case DoResume(i, us, _) => w.current.None? && i < |w.entries| && us < U64
    case Happens(e) => CanHappen(w.m, e)
    case EndSlice => w.m.pc.Done?
    case DoDrop(i) => w.current.None? && i < |w.entries|
    case DoCancel(i) => w.current.None? && i < |w.entries|
    case DoErase(i) => w.current.None? && i < |w.entries|
  }

  function Perform(w: World, op: Op): World
    requires Allowed(w, op)
  {
    match op
    case DoLaunch(program, us, junk) => Launch(w, program, us, junk)
    case DoResume(i, us, junk) => Begin(w, i, us, junk)
    case Happens(e) => w.(m := Step(w.m, e))
    case EndSlice => End(w)
    case DoDrop(i) => DropLinger(w, i)
    case DoCancel(i) => Cancel(w, i)
    case DoErase(i) => w.(entries := w.entries[i := w.entries[i].(linger := Erase(w.entries[i].linger))])
  }

  /** A run: the worlds it goes through, one per operation. */
  ghost predicate IsRun(run: seq<World>, ops: seq<Op>) {
    && |run| == |ops| + 1
    && (exists limit: nat, now: nat | now < U64 :: run[0] == NewWorld(limit, now))
    && forall k :: 0 <= k < |ops| ==> Allowed(run[k], ops[k]) && run[k + 1] == Perform(run[k], ops[k])
  }
}
