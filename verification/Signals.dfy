/**
 Preemption signals: assign_signal() of src/signals.rs, and PreemptionSignal with its
 timer in src/preemption.rs.  Any number of kernel threads set themselves up and tear
 themselves down, interleaved step by step.
 */
module Signals {
  import opened Common
  import opened Pools
  import opened Holdings

  /** How many notification signals there are. */
  const SIGNALS: nat := 16

  /** How many values the builder's atomic counter has before it wraps around. */
  const COUNTS: nat := 0x1_0000_0000_0000_0000

  /** The pool's builder: the next signal of the table, until the counter has run past its end. */
  function SignalBuilder(call: nat): Option<nat> {
    if call % COUNTS < SIGNALS then Some(call % COUNTS) else None
  }

  /** A kernel thread's preemption signal, from being assigned to being given back. */
  datatype Slot =
    | Unset
    | Assigned(signal: nat)
    | Ticking(signal: nat)
    | Stopped(signal: nat)

  /** `leaked` has the signals of the timers that could not be deleted, and so go on ticking. */
  datatype Table = Table(pool: Pool<nat>, slots: seq<Slot>, leaked: multiset<nat>)

  datatype Step =
    | Spawn
    | Assign(thread: nat)
    | Arm(thread: nat)
    | Abandon(thread: nat)
    | DeleteTimer(thread: nat, ok: bool)
    | GiveBack(thread: nat)

  predicate CanTake(t: Table, step: Step) {
    match step
    case Spawn => true
    case Assign(i) => i < |t.slots| && t.slots[i].Unset?
    case Arm(i) => i < |t.slots| && t.slots[i].Assigned?
    case Abandon(i) => i < |t.slots| && t.slots[i].Assigned?
    case DeleteTimer(i, _) => i < |t.slots| && t.slots[i].Ticking?
    case GiveBack(i) => i < |t.slots| && t.slots[i].Stopped?
  }

  /**
   PreemptionSignal::new() assigns a signal, and arms its timer unless a system call
   fails; dropping one deletes the timer first, and gives the signal back only then.
   */
  function Take(t: Table, step: Step): Table
    requires CanTake(t, step)
  {
    match step
    case Spawn => t.(slots := t.slots + [Unset])
    case Assign(i) =>
      var p := TryAcquire(t.pool, SignalBuilder);
      // With no signal left, this panics.
      t.(pool := p.0, slots := if p.1.Some? then t.slots[i := Assigned(p.1.value)] else t.slots)
    case Arm(i) => t.(slots := t.slots[i := Ticking(t.slots[i].signal)])
    case Abandon(i) => t.(pool := Release(t.pool, t.slots[i].signal), slots := t.slots[i := Unset])
    case DeleteTimer(i, ok) =>
      t.(slots := t.slots[i := Stopped(t.slots[i].signal)],
         leaked := if ok then t.leaked else t.leaked + multiset{t.slots[i].signal})
    case GiveBack(i) => t.(pool := Release(t.pool, t.slots[i].signal), slots := t.slots[i := Unset])
  }

  const NEW_TABLE := Table(Pool([], 0), [], multiset{})

  ghost predicate IsRun(run: seq<Table>, steps: seq<Step>) {
    && |run| == |steps| + 1 && run[0] == NEW_TABLE
    && forall k :: 0 <= k < |steps| ==> CanTake(run[k], steps[k]) && run[k + 1] == Take(run[k], steps[k])
  }

  // ---- Ownership ----

  function Owns(s: Slot): multiset<nat> {
    if s.Unset? then multiset{} else multiset{s.signal}
  }

  function Ticks(s: Slot): multiset<nat> {
    if s.Ticking? then multiset{s.signal} else multiset{}
  }

  /** The signals of all timers there are. */
  ghost function Timers(t: Table): multiset<nat> {
    Held(t.slots, Ticks) + t.leaked
  }

  ghost predicate Accounted(t: Table) {
    Conserved(t.pool, SignalBuilder, Held(t.slots, Owns))
  }

  lemma AssignIsAccounted(t: Table, i: nat)
    requires Accounted(t) && CanTake(t, Assign(i))
    ensures Accounted(Take(t, Assign(i)))
  {
    var p := TryAcquire(t.pool, SignalBuilder);
    AcquireConserves(t.pool, SignalBuilder, Held(t.slots, Owns));
    if p.1.Some? {
      HeldGains(t.slots, Owns, i, Assigned(p.1.value));
    } else {
      assert Held(t.slots, Owns) + One(p.1) == Held(t.slots, Owns);
    }
  }

  lemma ReturnIsAccounted(t: Table, i: nat)
    requires Accounted(t) && i < |t.slots| && !t.slots[i].Unset?
    ensures Accounted(t.(pool := Release(t.pool, t.slots[i].signal), slots := t.slots[i := Unset]))
  {
    var held, s := Held(t.slots, Owns), t.slots[i].signal;
    HeldMember(t.slots, Owns, i);
    assert s in Owns(t.slots[i]);
    ReleaseConserves(t.pool, SignalBuilder, held, s);
    HeldLoses(t.slots, Owns, i, Unset);
    assert held - multiset{s} == Held(t.slots[i := Unset], Owns);
  }

  lemma StepIsAccounted(t: Table, step: Step)
    requires Accounted(t) && CanTake(t, step)
    ensures Accounted(Take(t, step))
  {
    match step
    case Spawn => HeldAppend(t.slots, Owns, Unset);
    case Assign(i) => AssignIsAccounted(t, i);
    case Arm(i) => HeldSame(t.slots, Owns, i, Ticking(t.slots[i].signal));
    case Abandon(i) => ReturnIsAccounted(t, i);
    case DeleteTimer(i, _) => HeldSame(t.slots, Owns, i, Stopped(t.slots[i].signal));
    case GiveBack(i) => ReturnIsAccounted(t, i);
  }

  lemma EveryTableIsAccounted(run: seq<Table>, steps: seq<Step>, k: nat)
    requires IsRun(run, steps) && k < |run|
    ensures Accounted(run[k])
  {
    assert multiset(NEW_TABLE.pool.free) + Held(NEW_TABLE.slots, Owns) == multiset{};
    for j := 0 to k
      invariant Accounted(run[j])
    {
      StepIsAccounted(run[j], steps[j]);
    }
  }

  // ---- What the builder built ----

  lemma AnswerIs(call: nat)
    ensures call < COUNTS ==> SignalBuilder(call) == if call < SIGNALS then Some(call) else None
    ensures call == COUNTS ==> SignalBuilder(call) == Some(0)
  {
  }

  /** Signal `s` has been built once if it is among the first 16 and its turn has come, and there are no others. */
  ghost predicate BuiltInTurn(n: nat, s: nat) {
    var built := Built(SignalBuilder, n);
    built[s] == (if s < Min(n, SIGNALS) then 1 else 0) && |built| == Min(n, SIGNALS)
  }

  lemma BuildsAnother(n: nat, s: nat)
    requires n < COUNTS && BuiltInTurn(n, s)
    ensures BuiltInTurn(n + 1, s)
  {
    AnswerIs(n);
    var answer := if n < SIGNALS then Some(n) else None;
    assert Built(SignalBuilder, n + 1) == Built(SignalBuilder, n) + One(answer);
    assert One(answer)[s] == if n < SIGNALS && s == n then 1 else 0;
  }

  /** The first calls build signals 0 to 15, once each, and then nothing, until the counter wraps around. */
  lemma BuiltOnce(n: nat, s: nat)
    requires n <= COUNTS
    ensures BuiltInTurn(n, s)
  {
    for i := 0 to n
      invariant BuiltInTurn(i, s)
    {
      BuildsAnother(i, s);
    }
  }

  /** Then it starts again. */
  lemma BuiltTwice(n: nat)
    requires n > COUNTS
    ensures Built(SignalBuilder, n)[0] >= 2
  {
    BuiltOnce(COUNTS, 0);
    AnswerIs(COUNTS);
    assert Built(SignalBuilder, COUNTS + 1) == Built(SignalBuilder, COUNTS) + multiset{0};
    for i := COUNTS + 1 to n
      invariant Built(SignalBuilder, i)[0] >= 2
    {
    }
  }

  // ---- Every run ----

  /** Every signal is in one place at most exactly as long as the counter has not wrapped around. */
  lemma SignalsAreDistinctIff(run: seq<Table>, steps: seq<Step>, k: nat)
    requires IsRun(run, steps) && k < |run|
    ensures (forall s: nat :: multiset(run[k].pool.free)[s] + Held(run[k].slots, Owns)[s] <= 1)
       <==> run[k].pool.calls <= COUNTS
  {
    EveryTableIsAccounted(run, steps, k);
    var t := run[k];
    if t.pool.calls <= COUNTS {
      forall s: nat
        ensures multiset(t.pool.free)[s] + Held(t.slots, Owns)[s] <= 1
      {
        BuiltOnce(t.pool.calls, s);
      }
    } else {
      BuiltTwice(t.pool.calls);
      assert multiset(t.pool.free)[0] + Held(t.slots, Owns)[0] == Built(SignalBuilder, t.pool.calls)[0];
    }
  }

  /** Two threads never have the same signal, whatever they are doing with it. */
  lemma ThreadsHaveTheirOwn(run: seq<Table>, steps: seq<Step>, k: nat, i: nat, j: nat)
    requires IsRun(run, steps) && k < |run| && run[k].pool.calls <= COUNTS
    requires i < j < |run[k].slots| && !run[k].slots[i].Unset? && !run[k].slots[j].Unset?
    ensures run[k].slots[i].signal != run[k].slots[j].signal
  {
    var t := run[k];
    var s := t.slots[i].signal;
    EveryTableIsAccounted(run, steps, k);
    BuiltOnce(t.pool.calls, s);
    HeldPair(t.slots, Owns, i, j);
    assert Held(t.slots, Owns)[s] <= Built(SignalBuilder, t.pool.calls)[s] <= 1;
    assert (Owns(t.slots[i]) + Owns(t.slots[j]))[s] <= Held(t.slots, Owns)[s];
  }

  /** Whether assign_signal() finds a signal, told by the pool. */
  lemma AssignedIff(t: Table, i: nat)
    requires CanTake(t, Assign(i))
    ensures Take(t, Assign(i)).slots[i].Unset? <==> t.pool.free == [] && SignalBuilder(t.pool.calls).None?
  {
  }

  /** assign_signal() fails, which panics, exactly when as many threads as there are signals have one. */
  lemma AssignFailsIffAllSignalsAreHeld(run: seq<Table>, steps: seq<Step>, k: nat, i: nat)
    requires IsRun(run, steps) && k < |run| && run[k].pool.calls < COUNTS && CanTake(run[k], Assign(i))
    ensures Take(run[k], Assign(i)).slots[i].Unset? <==> |Held(run[k].slots, Owns)| == SIGNALS
  {
    var t := run[k];
    EveryTableIsAccounted(run, steps, k);
    BuiltOnce(t.pool.calls, 0);
    AnswerIs(t.pool.calls);
    AssignedIff(t, i);
    assert |multiset(t.pool.free) + Held(t.slots, Owns)| == |t.pool.free| + |Held(t.slots, Owns)|;
  }

  /** If every timer could be deleted, at most 16 tick, none on a signal that is free to be assigned. */
  lemma TimersAreDistinct(run: seq<Table>, steps: seq<Step>, k: nat, s: nat)
    requires IsRun(run, steps) && k < |run| && run[k].pool.calls <= COUNTS && run[k].leaked == multiset{}
    ensures multiset(run[k].pool.free)[s] + Timers(run[k])[s] <= 1
    ensures |Timers(run[k])| <= SIGNALS
  {
    var t := run[k];
    EveryTableIsAccounted(run, steps, k);
    BuiltOnce(t.pool.calls, s);
    HeldWithin(t.slots, Ticks, Owns);
    HeldAtMost(t.slots, Ticks, Owns);
    assert Timers(t) == Held(t.slots, Ticks);
    assert |multiset(t.pool.free) + Held(t.slots, Owns)| == |t.pool.free| + |Held(t.slots, Owns)|;
    assert multiset(t.pool.free)[s] + Held(t.slots, Owns)[s] == Built(SignalBuilder, t.pool.calls)[s];
  }

  /** A signal that is given back has no timer any more exactly if its timer could be deleted. */
  lemma GivenBackQuietIff(run: seq<Table>, steps: seq<Step>, k: nat, i: nat, ok: bool)
    requires IsRun(run, steps) && k < |run| && run[k].pool.calls <= COUNTS && run[k].leaked == multiset{}
    requires CanTake(run[k], DeleteTimer(i, ok))
    ensures var t := Take(Take(run[k], DeleteTimer(i, ok)), GiveBack(i));
            run[k].slots[i].signal in t.pool.free && (run[k].slots[i].signal !in Timers(t) <==> ok)
  {
    var t := run[k];
    var s := t.slots[i].signal;
    var deleted := Take(t, DeleteTimer(i, ok));
    var t' := Take(deleted, GiveBack(i));
    assert s == t'.pool.free[|t.pool.free|];
    TimersAreDistinct(run, steps, k, s);
    HeldLoses(t.slots, Ticks, i, Stopped(s));
    HeldSame(deleted.slots, Ticks, i, Unset);
    assert Held(t'.slots, Ticks)[s] == 0;
  }

  // ---- The table as an object ----

  /** thread_setup() as far as the signal is concerned: nothing if the thread has one already. */
  function SetUp(t: Table, i: nat, fails: bool): Table
    requires i < |t.slots| && (t.slots[i].Unset? || t.slots[i].Ticking?)
  {
    if t.slots[i].Ticking? then t
    else
      var t' := Take(t, Assign(i));
      if t'.slots[i].Unset? then t' else Take(t', if fails then Abandon(i) else Arm(i))
  }

  /** Drop for PreemptionSignal, and then for its fields. */
  function TornDown(t: Table, i: nat, ok: bool): Table
    requires i < |t.slots| && t.slots[i].Ticking?
  {
    Take(Take(t, DeleteTimer(i, ok)), GiveBack(i))
  }

  /** The signal has come off the top of the pool, or is the next one of the table. */
  predicate GoesOut(p: Pool<nat>, p': Pool<nat>, signal: nat) {
    if p.free != [] then p.free == p'.free + [signal] && p'.calls == p.calls
    else p'.free == [] && p'.calls == p.calls + 1 && SignalBuilder(p.calls) == Some(signal)
  }

  /** There was no signal to be had; or there was, and it is in the pool again. */
  predicate ComesToNothing(p: Pool<nat>, p': Pool<nat>, fails: bool) {
    if p.free != [] then fails && p' == p
    else
      && p'.calls == p.calls + 1
      && match SignalBuilder(p.calls)
         case None => p'.free == []
         case Some(signal) => fails && p'.free == [signal]
  }

  class Threads {
    const signals: SharedPool<nat>
    var slots: seq<Slot>
    var leaked: multiset<nat>
    /** What the table was after each step. */
    ghost var trace: seq<Table>

    ghost predicate Valid()
      reads this
    {
      signals.builder == SignalBuilder
    }

    ghost function State(): Table
      reads this, signals
    {
      Table(signals.State(), slots, leaked)
    }

    constructor ()
      ensures Valid() && fresh(signals) && State() == NEW_TABLE && trace == []
    {
      signals := new SharedPool(SignalBuilder);
      slots, leaked, trace := [], multiset{}, [];
    }

    /** assign_signal(): fails if there is none left, which panics. */
    method AssignSignal(i: nat) returns (ok: bool)
      requires Valid() && i < |slots| && slots[i].Unset?
      modifies `slots, `trace, signals
      ensures Valid() && State() == Take(old(State()), Assign(i)) && trace == old(trace) + [State()]
      ensures ok <==> slots[i].Assigned?
    {
      var signal := signals.TryFrom();
      ok := signal.Some?;
      if ok {
        slots := slots[i := Assigned(signal.value)];
      }
      trace := trace + [State()];
    }

    /** thread_setup(): fails if there is no signal to assign, or if a system call fails. */
    method ThreadSetup(i: nat, fails: bool) returns (ok: bool)
      requires Valid() && i < |slots| && (slots[i].Unset? || slots[i].Ticking?)
      modifies this, signals
      ensures Valid() && State() == SetUp(old(State()), i, fails)
      ensures ok <==> State().slots[i].Ticking?
      ensures old(slots[i]).Unset? ==> old(trace) + [Take(old(State()), Assign(i))] <= trace
      ensures |slots| == |old(slots)| && leaked == old(leaked)
      ensures forall j :: 0 <= j < |slots| && j != i ==> slots[j] == old(slots[j])
      ensures old(slots[i]).Ticking? ==> ok && slots[i] == old(slots[i]) && signals.State() == old(signals.State())
      ensures old(slots[i]).Unset? ==>
                if ok then !fails && slots[i].Ticking? && GoesOut(old(signals.State()), signals.State(), slots[i].signal)
                else slots[i].Unset? && ComesToNothing(old(signals.State()), signals.State(), fails)
    {
      if slots[i].Ticking? {
        return true;
      }
      ok := AssignSignal(i);
      if !ok {
        return;
      }
      if fails {
        // Dropping the signal that was assigned.
        signals.Push(slots[i].signal);
        slots := slots[i := Unset];
      } else {
        slots := slots[i := Ticking(slots[i].signal)];
      }
      trace := trace + [State()];
      ok := !fails;
    }

    /** Dropping a PreemptionSignal: its timer is deleted while the signal is still out of the pool. */
    method TearDown(i: nat, ok: bool)
      requires Valid() && i < |slots| && slots[i].Ticking?
      modifies this, signals
      ensures Valid() && State() == TornDown(old(State()), i, ok)
      ensures trace == old(trace) + [Take(old(State()), DeleteTimer(i, ok)), State()]
    {
      var signal := slots[i].signal;
      slots := slots[i := Stopped(signal)];
      if !ok {
        leaked := leaked + multiset{signal};
      }
      trace := trace + [State()];
      signals.Push(signal);
      slots := slots[i := Unset];
      trace := trace + [State()];
    }
  }
}
