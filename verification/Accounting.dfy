/** Counting what a sequence of owners holds. */
module Holdings {
  /** Everything the entries own, by `own`. */
  ghost function Held<E>(es: seq<E>, own: E -> multiset<nat>): multiset<nat>
    decreases |es|
  {
    if es == [] then multiset{} else Held(es[..|es| - 1], own) + own(es[|es| - 1])
  }

  lemma HeldAppend<E>(es: seq<E>, own: E -> multiset<nat>, e: E)
    ensures Held(es + [e], own) == Held(es, own) + own(e)
  {
    assert (es + [e])[..|es|] == es;
  }

  lemma {:induction false} HeldUpdate<E>(es: seq<E>, own: E -> multiset<nat>, i: nat, e: E)
    requires i < |es|
    ensures Held(es[i := e], own) + own(es[i]) == Held(es, own) + own(e)
    decreases |es|
  {
    var n := |es| - 1;
    if i == n {
      assert es[i := e][..n] == es[..n];
    } else {
      HeldUpdate(es[..n], own, i, e);
      assert es[i := e][..n] == es[..n][i := e];
      Exchange(Held(es[..n][i := e], own), own(es[i]), Held(es[..n], own), own(e), own(es[n]));
    }
  }

  lemma Exchange(a: multiset<nat>, b: multiset<nat>, c: multiset<nat>, d: multiset<nat>, z: multiset<nat>)
    requires a + b == c + d
    ensures a + z + b == c + z + d
  {
    assert a + z + b == a + b + z;
  }

  lemma HeldSame<E>(es: seq<E>, own: E -> multiset<nat>, i: nat, e: E)
    requires i < |es| && own(e) == own(es[i])
    ensures Held(es[i := e], own) == Held(es, own)
  {
    HeldUpdate(es, own, i, e);
    assert Held(es[i := e], own) == Held(es[i := e], own) + own(e) - own(e);
  }

  lemma HeldGains<E>(es: seq<E>, own: E -> multiset<nat>, i: nat, e: E)
    requires i < |es| && own(es[i]) == multiset{}
    ensures Held(es[i := e], own) == Held(es, own) + own(e)
  {
    HeldUpdate(es, own, i, e);
  }

  lemma HeldLoses<E>(es: seq<E>, own: E -> multiset<nat>, i: nat, e: E)
    requires i < |es| && own(e) == multiset{}
    ensures Held(es[i := e], own) + own(es[i]) == Held(es, own)
  {
    HeldUpdate(es, own, i, e);
  }

  lemma {:induction false} HeldMember<E>(es: seq<E>, own: E -> multiset<nat>, i: nat)
    requires i < |es|
    ensures own(es[i]) <= Held(es, own)
    decreases |es|
  {
    if i < |es| - 1 {
      HeldMember(es[..|es| - 1], own, i);
    }
  }

  lemma {:induction false} HeldPair<E>(es: seq<E>, own: E -> multiset<nat>, i: nat, j: nat)
    requires i < j < |es|
    ensures own(es[i]) + own(es[j]) <= Held(es, own)
    decreases |es|
  {
    var n := |es| - 1;
    if j == n {
      HeldMember(es[..n], own, i);
    } else {
      HeldPair(es[..n], own, i, j);
    }
  }

  /** Owners that own no more of one thing than of another do so in total. */
  lemma {:induction false} HeldAtMost<E(!new)>(es: seq<E>, few: E -> multiset<nat>, many: E -> multiset<nat>)
    requires forall e :: |few(e)| <= |many(e)|
    ensures |Held(es, few)| <= |Held(es, many)|
    decreases |es|
  {
    if es != [] {
      HeldAtMost(es[..|es| - 1], few, many);
    }
  }

  /** ... strictly, if one of them owns some of the one and none of the other. */
  lemma {:induction false} HeldFewer<E(!new)>(es: seq<E>, few: E -> multiset<nat>, many: E -> multiset<nat>, i: nat)
    requires forall e :: |few(e)| <= |many(e)|
    requires i < |es| && |few(es[i])| < |many(es[i])|
    ensures |Held(es, few)| < |Held(es, many)|
    decreases |es|
  {
    var n := |es| - 1;
    if i == n {
      HeldAtMost(es[..n], few, many);
    } else {
      HeldFewer(es[..n], few, many, i);
    }
  }

  lemma {:induction false} HeldWithin<E(!new)>(es: seq<E>, few: E -> multiset<nat>, many: E -> multiset<nat>)
    requires forall e :: few(e) <= many(e)
    ensures Held(es, few) <= Held(es, many)
    decreases |es|
  {
    if es != [] {
      HeldWithin(es[..|es| - 1], few, many);
    }
  }
}

/** What a bounded builder can have built. */
module Accounting {
  import opened Common
  import opened Pools
  import opened Machine
  import opened Lifecycle

  /** The values 0 to n - 1, once each. */
  lemma {:induction false} BuiltFresh(n: nat, x: nat)
    ensures Built(Fresh, n)[x] == (if x < n then 1 else 0)
    ensures |Built(Fresh, n)| == n
    decreases n
  {
    if n > 0 {
      BuiltFresh(n - 1, x);
    }
  }

  /** The first `i` calls built groups 0, 1, 2, ..., up to the limit. */
  ghost predicate NumbersGroups(limit: nat, i: nat) {
    Built(GroupBuilder(limit), i) == Built(Fresh, Min(i, limit))
  }

  lemma NumbersNextGroup(limit: nat, i: nat)
    requires NumbersGroups(limit, i)
    ensures NumbersGroups(limit, i + 1)
  {
    assert GroupBuilder(limit)(i) == if i < limit then Fresh(i) else None;
  }

  lemma BuiltGroupsAreNumbered(limit: nat, n: nat)
    ensures NumbersGroups(limit, n)
  {
    for i := 0 to n
      invariant NumbersGroups(limit, i)
    {
      NumbersNextGroup(limit, i);
    }
  }

  /** Groups 0 to `limit - 1`, once each, however often the builder is called. */
  lemma BuiltGroups(limit: nat, n: nat, x: nat)
    ensures Built(GroupBuilder(limit), n)[x] == (if x < Min(n, limit) then 1 else 0)
    ensures |Built(GroupBuilder(limit), n)| == Min(n, limit)
  {
    BuiltGroupsAreNumbered(limit, n);
    BuiltFresh(Min(n, limit), x);
  }
}
