/**
 The preemptive future of src/future.rs: each poll sends an item into a channel of
 capacity 1 and resumes the inner loop, which receives an item before each call of the
 polled function, and pauses after each call that is still pending.
 */
module Futures {
  import opened Common

  const CAPACITY: nat := 1

  /** Where the inner loop is. */
  datatype Inner = AtReceive | InCall | AtPause | Returning(value: int)

  /**
   Items are numbered in the order sent.  `running` says that a poll is in its slice.
   `calls` (the items received for the calls so far), `yielded` (the polls ended by the
   loop's own pause()) and `cuts` (those ended by a timeout, or by a pause() of the
   polled function) are history.
   */
  datatype Future = Future(
    fun: Option<Inner>,
    running: bool,
    channel: seq<nat>,
    polls: nat,
    calls: seq<nat>,
    yielded: nat,
    cuts: nat)

  const NEW_FUTURE := Future(Some(AtReceive), false, [], 0, [], 0, 0)

  /** `Cut` has what ended the slice, and what yielded() says of it: a timeout can be reported as a yield. */
  datatype Event =
    | Send
    | Receive
    | CallReturns(ready: Option<int>)
    | Pause
    | Cut(timeout: bool, yielded: bool)
    | Finish
    | Fail

  /** send() and recv() wait for room and for an item. */
  predicate CanHappen(f: Future, e: Event) {
    f.fun.Some? &&
    match e
    case Send => !f.running && |f.channel| < CAPACITY
    case Receive => f.running && f.fun.value == AtReceive && f.channel != []
    case CallReturns(_) => f.running && f.fun.value == InCall
    case Pause => f.running && f.fun.value == AtPause
    case Cut(timeout, yielded) => f.running && (timeout || (f.fun.value == InCall && yielded))
    case Finish => f.running && f.fun.value.Returning?
    case Fail => f.running
  }

  function Happen(f: Future, e: Event): Future
    requires CanHappen(f, e)
  {
    match e
    case Send => f.(running := true, channel := f.channel + [f.polls], polls := f.polls + 1)
    case Receive => f.(fun := Some(InCall), channel := f.channel[1..], calls := f.calls + [f.channel[0]])
    case CallReturns(ready) => f.(fun := Some(if ready.Some? then Returning(ready.value) else AtPause))
    case Pause => f.(fun := Some(AtReceive), running := false, yielded := f.yielded + 1)
    case Cut(_, _) => f.(running := false, cuts := f.cuts + 1)
    case Finish | Fail => f.(fun := None, running := false)
  }

  ghost predicate IsRun(run: seq<Future>, events: seq<Event>) {
    && |run| == |events| + 1 && run[0] == NEW_FUTURE
    && forall k :: 0 <= k < |events| ==> CanHappen(run[k], events[k]) && run[k + 1] == Happen(run[k], events[k])
  }

  // ---- The invariant ----

  function Numbers(from: nat, n: nat): seq<nat> {
    seq(n, i requires 0 <= i => from + i)
  }

  /** Whether a call has begun that has not been followed by a pause yet. */
  function Underway(f: Future): nat {
    if f.fun.Some? && f.fun.value != AtReceive then 1 else 0
  }

  ghost predicate ChannelOk(f: Future) {
    |f.calls| <= f.polls && f.calls == Numbers(0, |f.calls|) && f.channel == Numbers(|f.calls|, f.polls - |f.calls|)
  }

  ghost predicate CountsOk(f: Future) {
    f.fun.Some? ==>
      |f.calls| == f.yielded + Underway(f) && f.polls == f.yielded + f.cuts + if f.running then 1 else 0
  }

  ghost predicate Sound(f: Future) {
    var ok := ChannelOk(f) && CountsOk(f) && |f.channel| <= CAPACITY;
    ok
  }

  lemma NewIsSound()
    ensures Sound(NEW_FUTURE)
  {
    assert Numbers(0, 0) == [];
  }

  lemma SendKeepsChannel(f: Future)
    requires ChannelOk(f) && CanHappen(f, Send)
    ensures ChannelOk(Happen(f, Send))
  {
    var n := f.polls - |f.calls|;
    assert Numbers(|f.calls|, n + 1) == Numbers(|f.calls|, n) + [f.polls];
  }

  lemma ReceiveKeepsChannel(f: Future)
    requires ChannelOk(f) && CanHappen(f, Receive)
    ensures ChannelOk(Happen(f, Receive))
  {
    var c := |f.calls|;
    assert Numbers(c, f.polls - c)[1..] == Numbers(c + 1, f.polls - c - 1);
    assert Numbers(0, c + 1) == Numbers(0, c) + [c];
  }

  lemma EventKeepsSound(f: Future, e: Event)
    requires Sound(f) && CanHappen(f, e)
    ensures Sound(Happen(f, e))
  {
    match e
    case Send => SendKeepsChannel(f);
    case Receive => ReceiveKeepsChannel(f);
    case _ =>
  }

  lemma EveryFutureIsSound(run: seq<Future>, events: seq<Event>, k: nat)
    requires IsRun(run, events) && k < |run|
    ensures Sound(run[k])
  {
    NewIsSound();
    for j := 0 to k
      invariant Sound(run[j])
    {
      EventKeepsSound(run[j], events[j]);
    }
  }

  // ---- What it says ----

  /** Before its i-th call, the loop receives the i-th item, and the channel holds the rest of what was sent. */
  lemma CallsFollowItems(run: seq<Future>, events: seq<Event>, k: nat, i: nat)
    requires IsRun(run, events) && k < |run| && i < |run[k].calls|
    ensures run[k].calls[i] == i && |run[k].calls| + |run[k].channel| == run[k].polls
  {
    EveryFutureIsSound(run, events, k);
  }

  /** At each yield, the channel holds as many items as there were polls cut short. */
  lemma YieldLeavesCuts(run: seq<Future>, events: seq<Event>, k: nat)
    requires IsRun(run, events) && k < |events| && events[k] == Pause
    ensures |run[k + 1].channel| == run[k + 1].cuts
  {
    EveryFutureIsSound(run, events, k + 1);
  }

  /** The inner loop never waits for an item: there is one whenever it wants one. */
  lemma ReceiveNeverWaits(run: seq<Future>, events: seq<Event>, k: nat)
    requires IsRun(run, events) && k < |run|
    requires run[k].running && run[k].fun == Some(AtReceive)
    ensures CanHappen(run[k], Receive)
  {
    EveryFutureIsSound(run, events, k);
  }

  /**
   A poll does wait for room, and then for ever, since only a poll lets the loop receive:
   exactly if an earlier poll was cut short, not counting the cut of a call still under way.
   */
  lemma SendBlocksIff(run: seq<Future>, events: seq<Event>, k: nat)
    requires IsRun(run, events) && k < |run| && run[k].fun.Some? && !run[k].running
    ensures !CanHappen(run[k], Send) <==> run[k].cuts > Underway(run[k])
    ensures !CanHappen(run[k], Send) ==> forall e :: !CanHappen(run[k], e)
  {
    EveryFutureIsSound(run, events, k);
  }

  /** The shortest such run: one poll, timed out before the loop has received its item. */
  lemma SecondPollCanBlock() returns (run: seq<Future>, events: seq<Event>)
    ensures IsRun(run, events) && events == [Send, Cut(true, false)] && !CanHappen(run[2], Send) && run[2].fun.Some?
  {
    events := [Send, Cut(true, false)];
    var f := Happen(NEW_FUTURE, Send);
    run := [NEW_FUTURE, f, Happen(f, Cut(true, false))];
  }

  /** What the function is about to return is what its last call returned. */
  ghost predicate ReturnsLast(f: Future, events: seq<Event>) {
    f.fun.Some? && f.fun.value.Returning? ==>
      events != [] && exists j :: 0 <= j < |events| && events[j] == CallReturns(Some(f.fun.value.value)) &&
                                  forall l :: j < l < |events| ==> !events[l].CallReturns?
  }

  lemma ReturnsLastStep(f: Future, events: seq<Event>, e: Event)
    requires ReturnsLast(f, events) && CanHappen(f, e)
    ensures ReturnsLast(Happen(f, e), events + [e])
  {
    var f', events' := Happen(f, e), events + [e];
    if f'.fun.Some? && f'.fun.value.Returning? {
      if e.CallReturns? {
        assert events'[|events|] == CallReturns(Some(f'.fun.value.value));
      } else {
        var j :| 0 <= j < |events| && events[j] == CallReturns(Some(f.fun.value.value)) &&
                 forall l :: j < l < |events| ==> !events[l].CallReturns?;
        assert events'[j] == events[j];
      }
    }
  }

  /** The value with which a poll is ready is what the last call of the polled function returned. */
  lemma ReadyIsWhatWasReturned(run: seq<Future>, events: seq<Event>, k: nat)
    requires IsRun(run, events) && k < |events| && events[k] == Finish
    ensures run[k].fun.Some? && run[k].fun.value.Returning?
    ensures exists j :: 0 <= j < k && events[j] == CallReturns(Some(run[k].fun.value.value)) &&
                        forall l :: j < l < k ==> !events[l].CallReturns?
  {
    for n := 0 to k
      invariant ReturnsLast(run[n], events[..n])
    {
      ReturnsLastStep(run[n], events[..n], events[n]);
      assert events[..n + 1] == events[..n] + [events[n]];
    }
    var before := events[..k];
    var j :| 0 <= j < |before| && before[j] == CallReturns(Some(run[k].fun.value.value)) &&
             forall l :: j < l < |before| ==> !before[l].CallReturns?;
    assert events[j] == before[j];
    forall l | j < l < k
      ensures !events[l].CallReturns?
    {
      assert events[l] == before[l];
    }
  }

  // ---- The future as an object ----

  /** `Hangs` is a poll that never returns. */
  datatype Poll = Pending(wakes: bool) | Ready(value: int) | Failed | Hangs

  /** What the function does in a slice, and how that ends. */
  function Done(f: Future, events: seq<Event>): Option<Future>
    decreases |events|
  {
    if events == [] then Some(f)
    else
      var f' := Done(f, events[..|events| - 1]);
      var e := events[|events| - 1];
      if f'.Some? && CanHappen(f'.value, e) then Some(Happen(f'.value, e)) else None
  }

  predicate EndsSlice(e: Event) {
    e.Pause? || e.Cut? || e.Finish? || e.Fail?
  }

  /** What poll() makes of the end of its slice. */
  ghost predicate Answers(f: Future, slice: seq<Event>, result: Poll)
    requires slice != []
  {
    match slice[|slice| - 1]
    case Finish => result.Ready? && ReturnedValue(f, slice) == Some(result.value)
    case Fail => result == Failed
    case Cut(_, yielded) => result == Pending(!yielded)
    case _ => result == Pending(false)
  }

  /** A slice: events that can happen one after the other, of which just the last gives control back. */
  ghost predicate IsSlice(f: Future, events: seq<Event>) {
    && events != [] && EndsSlice(events[|events| - 1]) && (forall i :: 0 <= i < |events| - 1 ==> !EndsSlice(events[i]))
    && (forall i :: 0 <= i <= |events| ==> Done(f, events[..i]).Some?)
  }

  /** The value with which the function was about to return at the last event. */
  function ReturnedValue(f: Future, events: seq<Event>): Option<int> {
    if events == [] then None
    else
      var f' := Done(f, events[..|events| - 1]);
      if f'.Some? && f'.value.fun.Some? && f'.value.fun.value.Returning? then Some(f'.value.fun.value.value) else None
  }

  lemma DoneMore(f: Future, events: seq<Event>, i: nat)
    requires i < |events| && Done(f, events[..i]).Some? && Done(f, events[..i + 1]).Some?
    ensures CanHappen(Done(f, events[..i]).value, events[i])
    ensures Done(f, events[..i + 1]).value == Happen(Done(f, events[..i]).value, events[i])
  {
    assert events[..i + 1][..i] == events[..i];
  }

  class PreemptiveFuture {
    var fun: Option<Inner>
    var channel: seq<nat>
    var running: bool
    var polls: nat
    ghost var calls: seq<nat>
    ghost var yielded: nat
    ghost var cuts: nat

    ghost function State(): Future
      reads this
    {
      Future(fun, running, channel, polls, calls, yielded, cuts)
    }

    constructor ()
      ensures State() == NEW_FUTURE
    {
      fun, channel, running, polls := Some(AtReceive), [], false, 0;
      calls, yielded, cuts := [], 0, 0;
    }

    method Step(e: Event)
      requires CanHappen(State(), e)
      modifies this
      ensures State() == Happen(old(State()), e)
    {
      match e {
        case Send =>
          running, channel, polls := true, channel + [polls], polls + 1;
        case Receive =>
          fun, channel, calls := Some(InCall), channel[1..], calls + [channel[0]];
        case CallReturns(ready) =>
          fun := Some(if ready.Some? then Returning(ready.value) else AtPause);
        case Pause =>
          fun, running, yielded := Some(AtReceive), false, yielded + 1;
        case Cut(_, _) =>
          running, cuts := false, cuts + 1;
        case Finish | Fail =>
          fun, running := None, false;
      }
    }

    /** poll(): once the function has completed or failed, it stays pending, and nothing is sent. */
    method Poll(slice: seq<Event>) returns (result: Poll)
      requires CanHappen(State(), Send) ==> IsSlice(Happen(State(), Send), slice)
      requires !running
      modifies this
      ensures old(fun).None? ==> State() == old(State()) && result == Pending(false)
      ensures old(fun).Some? && !old(CanHappen(State(), Send)) ==> State() == old(State()) && result == Hangs
      ensures old(CanHappen(State(), Send)) ==>
                && Some(State()) == Done(Happen(old(State()), Send), slice)
                && Answers(Happen(old(State()), Send), slice, result)
      ensures old(CanHappen(State(), Send)) ==>
                var end := slice[|slice| - 1];
                && (result == Pending(true) <==> end.Cut? && !end.yielded)
                && (result == Pending(false) <==> end.Pause? || (end.Cut? && end.yielded))
                && (result.Ready? <==> end.Finish?) && (result.Failed? <==> end.Fail?)
      ensures result.Ready? || result.Failed? ==> fun.None?
      ensures result.Pending? && old(fun).Some? ==> fun.Some?
    {
      if fun.None? {
        return Pending(false);
      }
      if |channel| >= CAPACITY {
        return Hangs;
      }
      Step(Send);
      ghost var start := State();
      assert slice[..0] == [];
      result := Pending(false);
      for i := 0 to |slice|
        invariant Some(State()) == Done(start, slice[..i])
        invariant i > 0 ==> Answers(start, slice[..i], result)
      {
        DoneMore(start, slice, i);
        assert slice[..i + 1][..i] == slice[..i];
        match slice[i] {
          case Finish => result := Ready(fun.value.value);
          case Fail => result := Failed;
          case Cut(_, yielded) => result := Pending(!yielded);
          case _ => result := Pending(false);
        }
        Step(slice[i]);
      }
      assert slice[..|slice|] == slice;
    }
  }
}
