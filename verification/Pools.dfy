/**
 The reuse pool of src/reusable.rs: a stack of free values over a builder that may
 fail.  A builder is the list of answers its successive calls give, so it can be
 stateful and can fail at any call.
 */
module Pools {
  import opened Common

  type Builder<!T> = nat -> Option<T>

  /** The free values (the last is on top) and how many times the builder has been called. */
  datatype Pool<T> = Pool(free: seq<T>, calls: nat)

  function One<T(==)>(x: Option<T>): multiset<T> {
    if x.Some? then multiset{x.value} else multiset{}
  }

  /** The values the first `n` builder calls produced. */
  function Built<T(==)>(build: Builder<T>, n: nat): multiset<T>
    decreases n
  {
    if n == 0 then multiset{} else Built(build, n - 1) + One(build(n - 1))
  }

  /** The values of the successful attempts, in order. */
  function Successes<T>(xs: seq<Option<T>>): seq<T> {
    if xs == [] then []
    else Successes(xs[..|xs| - 1]) + (if xs[|xs| - 1].Some? then [xs[|xs| - 1].value] else [])
  }

  predicate AllSome<T>(xs: seq<Option<T>>) {
    forall i :: 0 <= i < |xs| ==> xs[i].Some?
  }

  /** Reusable::try_from(): pop, or else build. */
  function TryAcquire<T>(p: Pool<T>, build: Builder<T>): (Pool<T>, Option<T>) {
    if p.free != [] then (p.(free := p.free[..|p.free| - 1]), Some(p.free[|p.free| - 1]))
    else (p.(calls := p.calls + 1), build(p.calls))
  }

  /** Drop for Reusable. */
  function Release<T>(p: Pool<T>, x: T): Pool<T> {
    p.(free := p.free + [x])
  }

  function Attempts<T>(p: Pool<T>, build: Builder<T>, n: nat): (Pool<T>, seq<Option<T>>)
    decreases n
  {
    if n == 0 then (p, [])
    else
      var q := Attempts(p, build, n - 1);
      (TryAcquire(q.0, build).0, q.1 + [TryAcquire(q.0, build).1])
  }

  /** What the builder answers in calls `from` to `from + n - 1`. */
  function Answers<T>(build: Builder<T>, from: nat, n: nat): seq<Option<T>> {
    seq(n, i requires 0 <= i => build(from + i))
  }

  function Min(a: nat, b: nat): nat {
    if a <= b then a else b
  }

  /** Conservation: what was built is what is free and what is held. */
  ghost predicate Conserved<T>(p: Pool<T>, build: Builder<T>, held: multiset<T>) {
    multiset(p.free) + held == Built(build, p.calls)
  }

  lemma PopSplits<T>(s: seq<T>)
    requires s != []
    ensures multiset(s) == multiset(s[..|s| - 1]) + multiset{s[|s| - 1]}
  {
    assert s == s[..|s| - 1] + [s[|s| - 1]];
  }

  lemma AcquireConserves<T>(p: Pool<T>, build: Builder<T>, held: multiset<T>)
    requires Conserved(p, build, held)
    ensures Conserved(TryAcquire(p, build).0, build, held + One(TryAcquire(p, build).1))
  {
    if p.free != [] {
      PopSplits(p.free);
    }
  }

  lemma ReleaseConserves<T>(p: Pool<T>, build: Builder<T>, held: multiset<T>, x: T)
    requires Conserved(p, build, held) && x in held
    ensures Conserved(Release(p, x), build, held - multiset{x})
  {
  }

  /** A value that is given back is the next one to be had, and then the pool is as it was. */
  lemma LastInFirstOut<T>(p: Pool<T>, build: Builder<T>, x: T)
    ensures TryAcquire(Release(p, x), build) == (p, Some(x))
  {
    assert (p.free + [x])[..|p.free|] == p.free;
  }

  lemma SuccessesSnoc<T>(xs: seq<Option<T>>, x: Option<T>)
    ensures Successes(xs + [x]) == Successes(xs) + (if x.Some? then [x.value] else [])
    ensures multiset(Successes(xs + [x])) == multiset(Successes(xs)) + One(x)
  {
    assert (xs + [x])[..|xs|] == xs;
  }

  lemma AttemptConserves<T>(p: Pool<T>, build: Builder<T>, held: multiset<T>, xs: seq<Option<T>>)
    requires Conserved(p, build, held + multiset(Successes(xs)))
    ensures Conserved(TryAcquire(p, build).0, build, held + multiset(Successes(xs + [TryAcquire(p, build).1])))
  {
    var x := TryAcquire(p, build).1;
    AcquireConserves(p, build, held + multiset(Successes(xs)));
    SuccessesSnoc(xs, x);
    assert held + multiset(Successes(xs)) + One(x) == held + (multiset(Successes(xs)) + One(x));
  }

  ghost predicate AttemptsConserved<T>(p: Pool<T>, build: Builder<T>, held: multiset<T>, n: nat) {
    Conserved(Attempts(p, build, n).0, build, held + multiset(Successes(Attempts(p, build, n).1)))
  }

  lemma AttemptsConserve<T>(p: Pool<T>, build: Builder<T>, held: multiset<T>, n: nat)
    requires Conserved(p, build, held)
    ensures AttemptsConserved(p, build, held, n)
  {
    assert held + multiset(Successes<T>([])) == held;
    for i := 0 to n
      invariant AttemptsConserved(p, build, held, i)
    {
      AttemptConserves(Attempts(p, build, i).0, build, held, Attempts(p, build, i).1);
    }
  }

  /** The top `n` values, topmost first. */
  function Top<T>(s: seq<T>, n: nat): seq<T>
    requires n <= |s|
  {
    seq(n, i requires 0 <= i < n => s[|s| - 1 - i])
  }

  function Wrapped<T>(s: seq<T>): seq<Option<T>> {
    seq(|s|, i requires 0 <= i < |s| => Some(s[i]))
  }

  lemma {:induction false} SuccessesOfWrapped<T>(s: seq<T>)
    ensures Successes(Wrapped(s)) == s
    decreases |s|
  {
    if s != [] {
      SuccessesOfWrapped(s[..|s| - 1]);
      assert Wrapped(s)[..|s| - 1] == Wrapped(s[..|s| - 1]);
    }
  }

  /** The first attempts on a pool with enough values pop the top ones, topmost first. */
  lemma {:induction false} AttemptsPop<T>(p: Pool<T>, build: Builder<T>, n: nat)
    requires n <= |p.free|
    ensures Attempts(p, build, n).0 == p.(free := p.free[..|p.free| - n])
    ensures Attempts(p, build, n).1 == Wrapped(Top(p.free, n))
    decreases n
  {
    if n > 0 {
      AttemptsPop(p, build, n - 1);
      var s := p.free[..|p.free| - (n - 1)];
      assert s[..|s| - 1] == p.free[..|p.free| - n];
      assert Wrapped(Top(p.free, n)) == Wrapped(Top(p.free, n - 1)) + [Some(p.free[|p.free| - n])];
    }
  }

  /** Attempts on an empty pool are calls of the builder. */
  lemma {:induction false} AttemptsBuild<T>(p: Pool<T>, build: Builder<T>, n: nat)
    requires p.free == []
    ensures Attempts(p, build, n).0 == Pool([], p.calls + n)
    ensures Attempts(p, build, n).1 == Answers(build, p.calls, n)
    decreases n
  {
    if n > 0 {
      AttemptsBuild(p, build, n - 1);
    }
  }

  ghost predicate Composes<T>(p: Pool<T>, build: Builder<T>, m: nat, n: nat) {
    var first, second, all := Attempts(p, build, m), Attempts(Attempts(p, build, m).0, build, n), Attempts(p, build, m + n);
    all.0 == second.0 && all.1 == first.1 + second.1
  }

  lemma ComposesOneMore<T>(p: Pool<T>, build: Builder<T>, m: nat, n: nat)
    requires Composes(p, build, m, n)
    ensures Composes(p, build, m, n + 1)
  {
    var q := Attempts(p, build, m + n);
    assert Attempts(p, build, m + (n + 1)) == (TryAcquire(q.0, build).0, q.1 + [TryAcquire(q.0, build).1]);
  }

  lemma AttemptsCompose<T>(p: Pool<T>, build: Builder<T>, m: nat, n: nat)
    ensures Composes(p, build, m, n)
  {
    assert Attempts(p, build, m).1 + [] == Attempts(p, build, m).1;
    for i := 0 to n
      invariant Composes(p, build, m, i)
    {
      ComposesOneMore(p, build, m, i);
    }
  }

  /** Pool::prealloc(): take `n`, then drop every value taken, in the order taken, even after a failure. */
  function Prealloc<T>(p: Pool<T>, build: Builder<T>, n: nat): (Pool<T>, bool) {
    var q, xs := Attempts(p, build, n).0, Attempts(p, build, n).1;
    (q.(free := q.free + Successes(xs)), AllSome(xs))
  }

  /** prealloc() neither loses nor invents a value, also when the builder fails part-way. */
  lemma PreallocConserves<T>(p: Pool<T>, build: Builder<T>, held: multiset<T>, n: nat)
    requires Conserved(p, build, held)
    ensures Conserved(Prealloc(p, build, n).0, build, held)
  {
    AttemptsConserve(p, build, held, n);
    var q, xs := Attempts(p, build, n).0, Attempts(p, build, n).1;
    assert multiset(q.free + Successes(xs)) == multiset(q.free) + multiset(Successes(xs));
  }

  lemma {:induction false} SuccessesConcat<T>(xs: seq<Option<T>>, ys: seq<Option<T>>)
    ensures Successes(xs + ys) == Successes(xs) + Successes(ys)
  {
    if ys == [] {
      assert xs + ys == xs;
    } else {
      SuccessesConcat(xs, ys[..|ys| - 1]);
      assert (xs + ys)[..|xs + ys| - 1] == xs + ys[..|ys| - 1];
    }
  }

  lemma AllSomeConcat<T>(xs: seq<Option<T>>, ys: seq<Option<T>>)
    ensures AllSome(xs + ys) <==> AllSome(xs) && AllSome(ys)
  {
    assert forall i :: 0 <= i < |ys| ==> (xs + ys)[|xs| + i] == ys[i];
    assert forall i :: 0 <= i < |xs| ==> (xs + ys)[i] == xs[i];
  }

  /** `n` attempts pop what there is, topmost first, and only then call the builder. */
  lemma AttemptsShape<T>(p: Pool<T>, build: Builder<T>, n: nat)
    ensures var k := Min(n, |p.free|);
            Attempts(p, build, n) ==
            (Pool(p.free[..|p.free| - k], p.calls + (n - k)),
             Wrapped(Top(p.free, k)) + Answers(build, p.calls, n - k))
  {
    if n <= |p.free| {
      AttemptsPop(p, build, n);
      assert Wrapped(Top(p.free, n)) + Answers(build, p.calls, 0) == Wrapped(Top(p.free, n));
    } else {
      AttemptsBeyond(p, build, n);
    }
  }

  lemma AttemptsBeyond<T>(p: Pool<T>, build: Builder<T>, n: nat)
    requires n > |p.free|
    ensures Attempts(p, build, n) ==
            (Pool([], p.calls + (n - |p.free|)),
             Wrapped(Top(p.free, |p.free|)) + Answers(build, p.calls, n - |p.free|))
  {
    var k := |p.free|;
    AttemptsPop(p, build, k);
    AttemptsCompose(p, build, k, n - k);
    AttemptsBuild(p.(free := []), build, n - k);
  }

  /**
   A successful prealloc(n) on k values leaves the untouched prefix, then the top
   min(k, n) values reversed, then the new ones in build order; it is successful
   exactly when the builder never fails.
   */
  lemma PreallocShape<T>(p: Pool<T>, build: Builder<T>, n: nat)
    ensures var k := Min(n, |p.free|);
            Prealloc(p, build, n) ==
            (Pool(p.free[..|p.free| - k] + (Top(p.free, k) + Successes(Answers(build, p.calls, n - k))), p.calls + (n - k)),
             AllSome(Answers(build, p.calls, n - k)))
  {
    var k := Min(n, |p.free|);
    var answers := Answers(build, p.calls, n - k);
    AttemptsShape(p, build, n);
    SuccessesConcat(Wrapped(Top(p.free, k)), answers);
    SuccessesOfWrapped(Top(p.free, k));
    AllSomeConcat(Wrapped(Top(p.free, k)), answers);
  }

  // ---- Every interleaving ----

  datatype Operation<T> = Acquire | Drop(value: T) | Preallocate(count: nat)

  /** A pool together with the values its users hold. */
  datatype Usage<T> = Usage(pool: Pool<T>, held: multiset<T>)

  /** Only a held value can be dropped; `Drop` is where `held` loses it. */
  ghost predicate CanDo<T>(s: Usage<T>, op: Operation<T>) {
    op.Drop? ==> op.value in s.held
  }

  ghost function Do<T>(s: Usage<T>, build: Builder<T>, op: Operation<T>): Usage<T> {
    match op
    case Acquire => Usage(TryAcquire(s.pool, build).0, s.held + One(TryAcquire(s.pool, build).1))
    case Drop(x) => Usage(Release(s.pool, x), s.held - multiset{x})
    case Preallocate(n) => Usage(Prealloc(s.pool, build, n).0, s.held)
  }

  /** The state after the first `i` operations. */
  ghost function UsageAfter<T>(build: Builder<T>, ops: seq<Operation<T>>, i: nat): Usage<T>
    requires i <= |ops|
    decreases i
  {
    if i == 0 then Usage(Pool([], 0), multiset{}) else Do(UsageAfter(build, ops, i - 1), build, ops[i - 1])
  }

  lemma DoConserves<T>(s: Usage<T>, build: Builder<T>, op: Operation<T>)
    requires Conserved(s.pool, build, s.held) && CanDo(s, op)
    ensures Conserved(Do(s, build, op).pool, build, Do(s, build, op).held)
  {
    match op
    case Acquire => AcquireConserves(s.pool, build, s.held);
    case Drop(x) => ReleaseConserves(s.pool, build, s.held, x);
    case Preallocate(n) => PreallocConserves(s.pool, build, s.held, n);
  }

  ghost predicate ConservedAfter<T>(build: Builder<T>, ops: seq<Operation<T>>, i: nat)
    requires i <= |ops|
  {
    var s := UsageAfter(build, ops, i);
    Conserved(s.pool, build, s.held)
  }

  ghost predicate IsUsage<T>(build: Builder<T>, ops: seq<Operation<T>>) {
    forall i :: 0 <= i < |ops| ==> CanDo(UsageAfter(build, ops, i), ops[i])
  }

  lemma NextConserves<T>(build: Builder<T>, ops: seq<Operation<T>>, i: nat)
    requires i < |ops| && CanDo(UsageAfter(build, ops, i), ops[i]) && ConservedAfter(build, ops, i)
    ensures ConservedAfter(build, ops, i + 1)
  {
    DoConserves(UsageAfter(build, ops, i), build, ops[i]);
  }

  /** In every interleaving from an empty pool, no value is ever lost or duplicated. */
  lemma EveryRunConserves<T>(build: Builder<T>, ops: seq<Operation<T>>, n: nat)
    requires n <= |ops| && IsUsage(build, ops)
    ensures ConservedAfter(build, ops, n)
  {
    for i := 0 to n
      invariant ConservedAfter(build, ops, i)
    {
      NextConserves(build, ops, i);
    }
  }

  lemma DropOne<T>(free: seq<T>, swap: seq<Option<T>>, i: nat)
    requires i < |swap|
    ensures free + Successes(swap[..i + 1]) == free + Successes(swap[..i]) + (if swap[i].Some? then [swap[i].value] else [])
    ensures AllSome(swap[..i + 1]) <==> AllSome(swap[..i]) && swap[i].Some?
  {
    assert swap[..i + 1] == swap[..i] + [swap[i]];
    SuccessesSnoc(swap[..i], swap[i]);
    AllSomeConcat(swap[..i], [swap[i]]);
  }

  // ---- The pool as an object ----

  class SharedPool<T> {
    const builder: Builder<T>
    var values: seq<T>
    var calls: nat

    function State(): Pool<T>
      reads this
    {
      Pool(values, calls)
    }

    constructor (builder: Builder<T>)
      ensures this.builder == builder && State() == Pool([], 0)
    {
      this.builder := builder;
      values, calls := [], 0;
    }

    method TryFrom() returns (value: Option<T>)
      modifies this
      ensures (State(), value) == TryAcquire(old(State()), builder)
      ensures value.Some? && calls == old(calls) ==> old(values) == values + [value.value]
      ensures calls != old(calls) ==> old(values) == values == [] && calls == old(calls) + 1 && value == builder(old(calls))
      ensures value.None? ==> calls != old(calls)
    {
      if values != [] {
        value := Some(values[|values| - 1]);
        values := values[..|values| - 1];
      } else {
        value := builder(calls);
        calls := calls + 1;
      }
    }

    method Push(value: T)
      modifies this
      ensures State() == Release(old(State()), value)
      ensures values == old(values) + [value] && calls == old(calls)
    {
      values := values + [value];
    }

    /** The first half of prealloc(): take `count` values, keeping failures in the list. */
    method TakeAll(count: nat) returns (swap: seq<Option<T>>)
      modifies this
      ensures (State(), swap) == Attempts(old(State()), builder, count)
    {
      swap := [];
      for i := 0 to count
        invariant (State(), swap) == Attempts(old(State()), builder, i)
      {
        var value := TryFrom();
        swap := swap + [value];
      }
    }

    /** The second half: drop them in order; the first failure is reported, the rest is dropped all the same. */
    method DropAll(swap: seq<Option<T>>) returns (ok: bool)
      modifies this
      ensures State() == old(State()).(free := old(State()).free + Successes(swap))
      ensures ok == AllSome(swap)
    {
      ok := true;
      for i := 0 to |swap|
        invariant State() == old(State()).(free := old(State()).free + Successes(swap[..i]))
        invariant ok == AllSome(swap[..i])
      {
        DropOne(old(State()).free, swap, i);
        if swap[i].Some? {
          Push(swap[i].value);
        } else {
          ok := false;
        }
      }
      assert swap[..|swap|] == swap;
    }

    method PreAllocate(count: nat) returns (ok: bool)
      modifies this
      ensures (State(), ok) == Prealloc(old(State()), builder, count)
    {
      var swap := TakeAll(count);
      ok := DropAll(swap);
    }
  }
}
