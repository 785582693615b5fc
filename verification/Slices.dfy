/** How long a slice is, counted from the call that starts it. */
module Slices {
  import opened Machine
  import opened MachineInvariant
  import opened MachineProofs
  import opened Lifecycle
  import opened LifecycleProofs
  import opened Holdings
  import opened Pools
  import opened Theorems
  import opened Progress

  // ---- The call, and what follows it ----

  /** The call starts a slice of entry `i` with budget `us`. */
  ghost predicate Starts(w: World, op: Op, i: nat, us: nat) {
    || (op.DoResume? && op.index == i && op.us == us && i < |w.entries| && w.entries[i].linger.Live?)
    || (op.DoLaunch? && op.us == us && us > 0 && i == |w.entries| && |Held(w.entries, OwnsGroup)| < w.limit)
  }

  /** World `k` is in the slice of entry `i` that call `j` started. */
  ghost predicate IsSlice(run: seq<World>, ops: seq<Op>, j: nat, k: nat, i: nat, us: nat) {
    && IsRun(run, ops) && j < k < |run| && Starts(run[j], ops[j], i, us)
    && forall l :: j < l < k ==> ops[l].Happens?
  }

  /** The slice has been paused, and its function has not called pause(). */
  ghost predicate TimesOut(run: seq<World>, ops: seq<Op>, j: nat, k: nat, i: nat, us: nat) {
    && IsSlice(run, ops, j, k, i, us) && run[k].m.pc == Done(false)
    && forall l :: j < l <= k ==> run[l].m.pc != Fun(ZeroDeadline)
  }

  /** The slice begins: the budget is the call's, the function the entry's. */
  predicate Begun(w: World, i: nat, us: nat, now: nat) {
    w.current.Some? && w.current.value.index == i && w.m.us == us && w.m.now == now && w.m.slice == NEW_SLICE
  }

  lemma BeginBegins(w: World, i: nat, us: nat, junk: int)
    requires WorldInv(w) && w.current.None? && i < |w.entries| && w.entries[i].linger.Live?
    ensures Begun(Begin(w, i, us, junk), i, us, w.m.now)
  {
    assert TimedOk(w.entries[i], IsCurrent(w, i));
    SlotIsParked(w, i);
  }

  lemma LaunchBegins(w: World, op: Op)
    requires WorldInv(w) && Allowed(w, op) && op.DoLaunch? && Starts(w, op, |w.entries|, op.us)
    ensures Begun(Perform(w, op), |w.entries|, op.us, w.m.now)
  {
    var g := TryAcquire(w.groups, GroupBuilder(w.limit));
    GroupAssignment(w);
    ConstructKeepsInv(w, g.0, op.program, g.1.value);
    BeginBegins(Construct(w.(groups := g.0), op.program, g.1.value), |w.entries|, op.us, op.junk);
  }

  lemma CallBegins(w: World, op: Op, i: nat, us: nat)
    requires WorldInv(w) && Allowed(w, op) && Starts(w, op, i, us)
    ensures Begun(Perform(w, op), i, us, w.m.now)
  {
    if op.DoResume? {
      BeginBegins(w, i, us, op.junk);
    } else {
      LaunchBegins(w, op);
    }
  }

  // ---- What a step does to the slice's history ----

  /** The stamp is taken from the clock, and only pause() calls pause(). */
  predicate Timely(m: State, m': State) {
    var ok :=
      && m'.us == m.us && m.now <= m'.now
      && (m'.slice.stamped ==> (m.slice.stamped && m'.slice.at == m.slice.at) || m'.slice.at == m.now)
      && (m'.slice.called ==> m.slice.called || m.pc == Fun(ZeroDeadline));
    ok
  }

  lemma SetupIsTimely(m: State)
    ensures Timely(m, SetupStep(m))
  {
  }

  /** What keeps the history as it is. */
  predicate SameHistory(m: State, m': State) {
    var ok := m'.us == m.us && m'.now == m.now && m'.slice == m.slice;
    ok
  }

  lemma PutIsTimely(m: State)
    requires m.pc == TakeCheckpoint || m.pc.PutCheckpoint? || m.pc == PutCheckpointEnd || m.pc == ResumeReadSignal
    ensures SameHistory(m, SwitchStep(m))
  {
  }

  lemma JumpIsTimely(m: State)
    requires m.pc == Jump
    ensures SameHistory(m, SwitchStep(m))
  {
  }

  lemma SwitchIsTimely(m: State)
    ensures Timely(m, SwitchStep(m))
  {
    if m.pc == TakeCheckpoint || m.pc.PutCheckpoint? || m.pc == PutCheckpointEnd || m.pc == ResumeReadSignal {
      PutIsTimely(m);
    } else if m.pc == Jump {
      JumpIsTimely(m);
    }
  }

  lemma DescheduleIsTimely(m: State)
    ensures Timely(m, DescheduleStep(m))
  {
  }

  lemma EnableIsTimely(m: State, f: FunPc, junk: int)
    ensures Timely(m, EnableStep(m, f, junk))
  {
  }

  lemma UserIsTimely(m: State, f: FunPc)
    ensures Timely(m, UserStep(m, f))
  {
  }

  lemma PauseIsTimely(m: State, f: FunPc)
    requires m.pc == Fun(f)
    ensures Timely(m, PauseStep(m, f))
  {
  }

  lemma DisableIsTimely(m: State, f: FunPc)
    ensures Timely(m, DisableStep(m, f))
  {
  }

  /** What changes neither the clock nor the stamp. */
  predicate KeepsStamp(m: State, m': State) {
    var ok := m'.us == m.us && m'.now == m.now && m'.slice.stamped == m.slice.stamped && m'.slice.at == m.slice.at &&
              m'.slice.called == m.slice.called;
    ok
  }

  lemma SwapKeepsStamp(m: State, erryes: int)
    requires m.pc.Fun? && m.tls.task.checkpoint.Some?
    ensures KeepsStamp(m, DisableInHandler(Swapped(m, erryes)))
  {
  }

  lemma LandingKeepsStamp(m: State)
    ensures KeepsStamp(m, Landed(m))
  {
  }

  lemma PauseInHandlerKeepsStamp(m: State, erryes: int)
    ensures KeepsStamp(m, PauseInHandler(m, erryes))
  {
    if m.pc.Fun? && m.tls.task.checkpoint.Some? {
      SwapKeepsStamp(m, erryes);
      LandingKeepsStamp(DisableInHandler(Swapped(m, erryes)));
    }
  }

  lemma SetErrnoKeepsStamp(m: State, value: int)
    ensures KeepsStamp(m, SetErrno(m, value)) && KeepsStamp(m, DeferInHandler(m))
  {
  }

  lemma HandlerKeepsStamp(m: State, junk: int)
    ensures KeepsStamp(m, Handler(m, junk))
  {
    var m', erryes := SetErrno(m, junk), Errno(m);
    SetErrnoKeepsStamp(m, junk);
    SetErrnoKeepsStamp(m', erryes);
    PauseInHandlerKeepsStamp(m', erryes);
    SetErrnoKeepsStamp(DeferInHandler(m'), erryes);
    SetErrnoKeepsStamp(m'.(blocked := true), erryes);
  }

  lemma FunIsTimely(m: State, f: FunPc, junk: int)
    requires m.pc == Fun(f)
    ensures Timely(m, FunStep(m, f, junk))
  {
    EnableIsTimely(m, f, junk);
    UserIsTimely(m, f);
    PauseIsTimely(m, f);
    DisableIsTimely(m, f);
  }

  lemma MainIsTimely(m: State, junk: int)
    ensures Timely(m, MainStep(m, junk))
  {
    if m.pc.Fun? {
      FunIsTimely(m, m.pc.f, junk);
    } else {
      SetupIsTimely(m.(sharedErrno := junk));
      SwitchIsTimely(m.(sharedErrno := junk));
      DescheduleIsTimely(m.(sharedErrno := junk));
    }
  }

  lemma StepIsTimely(m: State, e: Event)
    requires CanHappen(m, e)
    ensures Timely(m, Step(m, e))
  {
    match e
    case Main(junk) => MainIsTimely(m, junk);
    case Deliver(junk) => HandlerKeepsStamp(m.(pending := false), junk);
    case Tick =>
    case Clock(_) =>
  }

  // ---- Every world of a slice ----

  /** A slice that began at clock `since`. */
  predicate Lasts(m: State, us: nat, since: nat) {
    m.us == us && since <= m.now && (m.slice.stamped ==> since <= m.slice.at <= m.now)
  }

  lemma WorldOfSlice(run: seq<World>, ops: seq<Op>, j: nat, k: nat, i: nat, us: nat)
    requires IsSlice(run, ops, j, k, i, us)
    ensures Lasts(run[k].m, us, run[j].m.now)
    ensures IsCurrent(run[k], i)
    ensures (forall l :: j < l < k ==> run[l].m.pc != Fun(ZeroDeadline)) ==> !run[k].m.slice.called
  {
    EveryWorldIsSound(run, ops, j);
    CallBegins(run[j], ops[j], i, us);
    for n := j + 1 to k
      invariant Lasts(run[n].m, us, run[j].m.now) && IsCurrent(run[n], i)
      invariant (forall l :: j < l < n ==> run[l].m.pc != Fun(ZeroDeadline)) ==> !run[n].m.slice.called
    {
      StepIsTimely(run[n].m, ops[n].event);
    }
  }

  // ---- No earlier than the budget ----

  /**
   A slice that times out has had its whole budget, counted from the call, if the clock is
   so far from its end that even twice the budget does not take it there.
   */
  lemma BudgetFromTheCall(run: seq<World>, ops: seq<Op>, j: nat, k: nat, i: nat, us: nat)
    requires TimesOut(run, ops, j, k, i, us) && run[j].m.now + 2 * us * 1000 <= U64
    ensures run[k].m.now >= run[j].m.now + us * 1000
  {
    WorldOfSlice(run, ops, j, k, i, us);
    Sound(run, ops, k);
    DoneSliceIsOk(run[k].m);
    ClockIsBounded(run, ops, k);
    StampIsExactIff(us, run[k].m.slice.at);
  }

  // ---- No later than the budget allows ----

  lemma SwitchStampsOnce(m: State)
    requires SwitchInv(m) && m.slice.stamped
    ensures SwitchStep(m).slice == m.slice
  {
  }

  lemma EnableStampsOnce(m: State, f: FunPc, junk: int)
    requires OwingOk(m, f) && m.slice.stamped
    ensures EnableStep(m, f, junk).slice == m.slice
  {
  }

  lemma UserStampsNot(m: State, f: FunPc)
    ensures UserStep(m, f).slice == m.slice
  {
  }

  lemma DisableStampsNot(m: State, f: FunPc)
    ensures DisableStep(m, f).slice == m.slice
  {
  }

  lemma PauseStampsNot(m: State, f: FunPc)
    ensures PauseStep(m, f).slice.at == m.slice.at && (m.slice.stamped ==> PauseStep(m, f).slice.stamped)
  {
  }

  lemma FunStampsOnce(m: State, f: FunPc, junk: int)
    requires OwingOk(m, f) && m.slice.stamped
    ensures FunStep(m, f, junk).slice.at == m.slice.at && FunStep(m, f, junk).slice.stamped
  {
    EnableStampsOnce(m, f, junk);
    UserStampsNot(m, f);
    PauseStampsNot(m, f);
    DisableStampsNot(m, f);
  }

  lemma OutsideStampsOnce(m: State, junk: int)
    requires Inv(m) && !m.pc.Fun? && m.slice.stamped
    ensures MainStep(m, junk).slice == m.slice
  {
    var m' := m.(sharedErrno := junk);
    JunkKeepsInv(m, junk);
    if m.pc.PutCheckpoint? || m.pc in {TakeCheckpoint, PutCheckpointEnd, ResumeReadSignal, ResumeReadSignalEnd, MaskBlock,
                                       StampResume, SwitchGroup, RestoreErrno, Jump} {
      SwitchStampsOnce(m');
    }
  }

  /** Within a slice, the clock is read for the deadline once. */
  lemma StampedOnce(m: State, e: Event)
    requires Inv(m) && CanHappen(m, e) && m.slice.stamped
    ensures Step(m, e).slice.stamped && Step(m, e).slice.at == m.slice.at
  {
    match e
    case Main(junk) =>
      if m.pc.Fun? {
        FunStampsOnce(m, m.pc.f, junk);
      } else {
        OutsideStampsOnce(m, junk);
      }
    case Deliver(junk) => HandlerKeepsStamp(m.(pending := false), junk);
    case Tick =>
    case Clock(_) =>
  }

  lemma StampIsNear(us: nat, at: nat)
    ensures Stamp(us, at) <= at + us * 1000
  {
    if us * 1000 < U64 {
      assert (at + us * 1000) % U64 <= at + us * 1000;
    }
  }

  lemma OwnCodeIsInTime(m: State)
    requires Inv(m) && m.pc == Fun(OwnCode)
    ensures m.slice.stamped && m.slice.at <= m.now && m.tls.deadline == Stamp(m.us, m.slice.at)
  {
  }

  /** The deadline is no further from the first time the function runs its own code than the budget. */
  lemma DeadlineIsNear(run: seq<World>, ops: seq<Op>, j: nat, l: nat, k: nat, i: nat, us: nat)
    requires IsSlice(run, ops, j, k, i, us) && j < l <= k
    requires run[l].m.pc == Fun(OwnCode) && run[k].m.pc == Fun(OwnCode)
    ensures run[k].m.tls.deadline <= run[l].m.now + us * 1000
  {
    Sound(run, ops, l);
    OwnCodeIsInTime(run[l].m);
    for n := l to k
      invariant run[n].m.slice.stamped && run[n].m.slice.at == run[l].m.slice.at
    {
      Sound(run, ops, n);
      StampedOnce(run[n].m, ops[n].event);
    }
    Sound(run, ops, k);
    OwnCodeIsInTime(run[k].m);
    WorldOfSlice(run, ops, j, k, i, us);
    StampIsNear(us, run[l].m.slice.at);
  }

  /** Once the function has run its own code for its whole budget, any tick pauses it on the spot. */
  lemma BudgetRunsOut(run: seq<World>, ops: seq<Op>, j: nat, l: nat, k: nat, i: nat, us: nat, junk: int)
    requires IsSlice(run, ops, j, k, i, us) && j < l <= k
    requires run[l].m.pc == Fun(OwnCode) && run[k].m.pc == Fun(OwnCode)
    requires run[k].m.now >= run[l].m.now + us * 1000
    ensures Possible(run[k].m, [Tick, Deliver(junk)]) && Step(Step(run[k].m, Tick), Deliver(junk)).pc == Deschedule
  {
    DeadlineIsNear(run, ops, j, l, k, i, us);
    TickPausesAtOnce(run, ops, k, junk);
  }
}
