/**
 How compiler/ingerc.cpp moves the labels that bound a landing pad's range: the begin
 label past the call that makes the value to be dropped, the end label up to the call
 that drops it, or to the function's epilogue.
 */
module IngercCpp {
  import opened Common

  /**
   A call has the function called, unless it is indirect, and the types that function takes
   and returns; a tail call is also a return.
   */
  datatype Inst =
    | Label(symbol: nat)
    | Call(callee: Option<nat>, types: set<nat>, tail: bool)
    | Cfi(id: nat)
    | Return(id: nat)
    | Plain(id: nat)

  type Block = seq<Inst>

  /** An iterator: the block that an instruction is in, and where in it. */
  datatype Pos = Pos(block: nat, index: nat)

  predicate IsPos(fn: seq<Block>, p: Pos) {
    p.block < |fn| && p.index < |fn[p.block]|
  }

  function At(fn: seq<Block>, p: Pos): Inst
    requires IsPos(fn, p)
  {
    fn[p.block][p.index]
  }

  /** nextInst(): the beginning of the next block comes after the end of a block, even if there is nothing there. */
  function NextInst(fn: seq<Block>, p: Pos): Option<Pos>
    requires IsPos(fn, p)
  {
    if p.index + 1 < |fn[p.block]| then Some(Pos(p.block, p.index + 1))
    else if p.block + 1 < |fn| then Some(Pos(p.block + 1, 0))
    else None
  }

  // ---- The instruction stream ----

  /** The instructions of the first `b` blocks, in order. */
  function Before(fn: seq<Block>, b: nat): seq<Inst>
    requires b <= |fn|
    decreases b
  {
    if b == 0 then [] else Before(fn, b - 1) + fn[b - 1]
  }

  function Stream(fn: seq<Block>): seq<Inst> {
    Before(fn, |fn|)
  }

  /** Where in the stream an instruction is. */
  function Offset(fn: seq<Block>, p: Pos): nat
    requires p.block <= |fn|
  {
    |Before(fn, p.block)| + p.index
  }

  lemma {:induction false} StreamSplits(fn: seq<Block>, b: nat, n: nat)
    requires b < n <= |fn|
    ensures Before(fn, b) + fn[b] <= Before(fn, n)
    decreases n
  {
    if b < n - 1 {
      StreamSplits(fn, b, n - 1);
    }
  }

  lemma StreamAt(fn: seq<Block>, p: Pos)
    requires IsPos(fn, p)
    ensures Offset(fn, p) < |Stream(fn)| && Stream(fn)[Offset(fn, p)] == At(fn, p)
  {
    StreamSplits(fn, p.block, |fn|);
    assert (Before(fn, p.block) + fn[p.block])[Offset(fn, p)] == At(fn, p);
  }

  /** nextInst() is the next instruction of the stream, unless the next block is empty. */
  lemma NextIsNext(fn: seq<Block>, p: Pos)
    requires IsPos(fn, p)
    ensures match NextInst(fn, p)
            case Some(q) =>
              && q.block < |fn| && (IsPos(fn, q) <==> fn[q.block] != []) && (q.block == p.block || q == Pos(p.block + 1, 0))
              && Offset(fn, q) == Offset(fn, p) + 1
            case None => p.block == |fn| - 1 && Offset(fn, p) + 1 == |Stream(fn)|
  {
  }

  /** Where in the stream a block begins. */
  function Start(fn: seq<Block>, b: nat): nat
    requires b <= |fn|
  {
    |Before(fn, b)|
  }

  lemma StartsGrow(fn: seq<Block>, b: nat, c: nat)
    requires b < c <= |fn|
    ensures Start(fn, b) + |fn[b]| <= Start(fn, c)
  {
    StreamSplits(fn, b, c);
  }

  /** No block begins with instruction `k` of the stream. */
  ghost predicate NotFirst(fn: seq<Block>, k: nat) {
    forall b :: 0 <= b < |fn| && fn[b] != [] ==> Start(fn, b) != k
  }

  lemma NotFirstIs(fn: seq<Block>, p: Pos)
    requires IsPos(fn, p)
    ensures NotFirst(fn, Offset(fn, p)) <==> p.index > 0
  {
    if p.index == 0 {
      assert fn[p.block] != [] && Start(fn, p.block) == Offset(fn, p);
    } else {
      forall b | 0 <= b < |fn| && fn[b] != []
        ensures Start(fn, b) != Offset(fn, p)
      {
        if b < p.block {
          StartsGrow(fn, b, p.block);
        } else if p.block < b {
          StartsGrow(fn, p.block, b);
        }
      }
    }
  }

  /** An empty block lies between instruction `i` of the stream and the next stop, or the end. */
  ghost predicate MeetsEmpty(fn: seq<Block>, i: nat, stop: Option<nat>) {
    exists b :: 0 <= b < |fn| && fn[b] == [] && i < Start(fn, b) && (stop.Some? ==> Start(fn, b) <= stop.value)
  }

  // ---- Moving an instruction ----

  function Without(s: seq<Inst>, i: nat): seq<Inst>
    requires i < |s|
  {
    s[..i] + s[i + 1..]
  }

  function With(s: seq<Inst>, i: nat, x: Inst): seq<Inst>
    requires i <= |s|
  {
    s[..i] + [x] + s[i..]
  }

  function Removed(fn: seq<Block>, p: Pos): seq<Block>
    requires IsPos(fn, p)
  {
    fn[p.block := Without(fn[p.block], p.index)]
  }

  function Inserted(fn: seq<Block>, p: Pos, x: Inst): seq<Block>
    requires p.block < |fn| && p.index <= |fn[p.block]|
  {
    fn[p.block := With(fn[p.block], p.index, x)]
  }

  lemma {:induction false} BeforeSame(fn: seq<Block>, b: nat, block: Block, n: nat)
    requires n <= b < |fn|
    ensures Before(fn[b := block], n) == Before(fn, n)
    decreases n
  {
    if n > 0 {
      BeforeSame(fn, b, block, n - 1);
    }
  }

  /** The stream, when one block is exchanged. */
  lemma {:induction false} StreamUpdate(fn: seq<Block>, b: nat, block: Block, n: nat)
    requires b < n <= |fn|
    ensures |Before(fn, b) + fn[b]| <= |Before(fn, n)|
    ensures Before(fn[b := block], n) == Before(fn, b) + block + Before(fn, n)[|Before(fn, b) + fn[b]|..]
    decreases n
  {
    var prefix := Before(fn, b) + fn[b];
    if b == n - 1 {
      BeforeSame(fn, b, block, b);
      assert Before(fn, n)[|prefix|..] == [];
    } else {
      StreamUpdate(fn, b, block, n - 1);
      assert Before(fn, n)[|prefix|..] == Before(fn, n - 1)[|prefix|..] + fn[n - 1];
      assert Before(fn[b := block], n) == Before(fn[b := block], n - 1) + fn[n - 1];
    }
  }

  lemma StreamParts(fn: seq<Block>, b: nat)
    requires b < |fn|
    ensures |Before(fn, b) + fn[b]| <= |Stream(fn)|
    ensures Stream(fn) == Before(fn, b) + fn[b] + Stream(fn)[|Before(fn, b) + fn[b]|..]
  {
    StreamUpdate(fn, b, fn[b], |fn|);
    assert fn[b := fn[b]] == fn;
  }

  lemma WithoutMiddle(a: seq<Inst>, m: seq<Inst>, z: seq<Inst>, i: nat)
    requires i < |m|
    ensures Without(a + m + z, |a| + i) == a + Without(m, i) + z
  {
    var s := a + m + z;
    assert s[..|a| + i] == a + m[..i];
    assert s[|a| + i + 1..] == m[i + 1..] + z;
  }

  lemma WithMiddle(a: seq<Inst>, m: seq<Inst>, z: seq<Inst>, i: nat, x: Inst)
    requires i <= |m|
    ensures With(a + m + z, |a| + i, x) == a + With(m, i, x) + z
  {
    var s := a + m + z;
    assert s[..|a| + i] == a + m[..i];
    assert s[|a| + i..] == m[i..] + z;
  }

  lemma RemovedFromStream(fn: seq<Block>, p: Pos)
    requires IsPos(fn, p)
    ensures Offset(fn, p) < |Stream(fn)| && Stream(Removed(fn, p)) == Without(Stream(fn), Offset(fn, p))
  {
    StreamAt(fn, p);
    StreamParts(fn, p.block);
    StreamUpdate(fn, p.block, Without(fn[p.block], p.index), |fn|);
    WithoutMiddle(Before(fn, p.block), fn[p.block], Stream(fn)[|Before(fn, p.block) + fn[p.block]|..], p.index);
  }

  lemma InsertedIntoStream(fn: seq<Block>, p: Pos, x: Inst)
    requires p.block < |fn| && p.index <= |fn[p.block]|
    ensures Offset(fn, p) <= |Stream(fn)| && Stream(Inserted(fn, p, x)) == With(Stream(fn), Offset(fn, p), x)
  {
    StreamParts(fn, p.block);
    StreamUpdate(fn, p.block, With(fn[p.block], p.index, x), |fn|);
    WithMiddle(Before(fn, p.block), fn[p.block], Stream(fn)[|Before(fn, p.block) + fn[p.block]|..], p.index, x);
  }

  /** Where the instruction at `q` is once the one at `p` has been taken out. */
  function Shifted(p: Pos, q: Pos): Pos {
    if q.block == p.block && q.index > p.index then Pos(q.block, q.index - 1) else q
  }

  lemma LaterBlock(fn: seq<Block>, p: Pos, q: Pos)
    requires IsPos(fn, p) && IsPos(fn, q) && Offset(fn, p) < Offset(fn, q)
    ensures p.block < q.block || (p.block == q.block && p.index < q.index)
  {
    if q.block < p.block {
      StreamSplits(fn, q.block, p.block);
    }
  }

  lemma ShiftedOffset(fn: seq<Block>, p: Pos, q: Pos)
    requires IsPos(fn, p) && IsPos(fn, q) && Offset(fn, p) < Offset(fn, q)
    ensures IsPos(Removed(fn, p), Shifted(p, q)) && Offset(Removed(fn, p), Shifted(p, q)) == Offset(fn, q) - 1
  {
    LaterBlock(fn, p, q);
    var block := Without(fn[p.block], p.index);
    if p.block == q.block {
      BeforeSame(fn, p.block, block, p.block);
    } else {
      StreamUpdate(fn, p.block, block, q.block);
    }
  }

  /** The instruction at `p`, put where `at` says relative to a later one at `q`: 0 is right before it, 1 right after. */
  function Moved(fn: seq<Block>, p: Pos, q: Pos, at: nat): seq<Block>
    requires IsPos(fn, p) && IsPos(fn, q) && Offset(fn, p) < Offset(fn, q) && at <= 1
  {
    ShiftedOffset(fn, p, q);
    Inserted(Removed(fn, p), Pos(Shifted(p, q).block, Shifted(p, q).index + at), At(fn, p))
  }

  /** The stream with the instruction at `i` moved forward, to right before the one that was at `j`. */
  function Slid(s: seq<Inst>, i: nat, j: nat): seq<Inst>
    requires i < j <= |s|
  {
    s[..i] + s[i + 1..j] + [s[i]] + s[j..]
  }

  lemma SlidIs(s: seq<Inst>, i: nat, j: nat)
    requires i < j <= |s|
    ensures With(Without(s, i), j - 1, s[i]) == Slid(s, i, j)
  {
    assert Without(s, i)[..j - 1] == s[..i] + s[i + 1..j];
    assert Without(s, i)[j - 1..] == s[j..];
  }

  lemma MovedInStream(fn: seq<Block>, p: Pos, q: Pos, at: nat)
    requires IsPos(fn, p) && IsPos(fn, q) && Offset(fn, p) < Offset(fn, q) && at <= 1
    ensures Offset(fn, q) + at <= |Stream(fn)|
    ensures Stream(Moved(fn, p, q, at)) == Slid(Stream(fn), Offset(fn, p), Offset(fn, q) + at)
  {
    StreamAt(fn, p);
    StreamAt(fn, q);
    ShiftedOffset(fn, p, q);
    RemovedFromStream(fn, p);
    InsertedIntoStream(Removed(fn, p), Pos(Shifted(p, q).block, Shifted(p, q).index + at), At(fn, p));
    SlidIs(Stream(fn), Offset(fn, p), Offset(fn, q) + at);
  }

  // ---- The code, which is everything but labels ----

  function Code(s: seq<Inst>): seq<Inst> {
    if s == [] then [] else Code(s[..|s| - 1]) + if s[|s| - 1].Label? then [] else [s[|s| - 1]]
  }

  lemma {:induction false} CodeConcat(a: seq<Inst>, b: seq<Inst>)
    ensures Code(a + b) == Code(a) + Code(b)
    decreases |b|
  {
    if b == [] {
      assert a + b == a;
    } else {
      CodeConcat(a, b[..|b| - 1]);
      assert (a + b)[..|a + b| - 1] == a + b[..|b| - 1];
    }
  }

  lemma CodeOfLabel(x: Inst)
    requires x.Label?
    ensures Code([x]) == []
  {
    assert [x][..0] == [];
  }

  /** A label adds nothing to the code, wherever it is. */
  lemma LabelIsNoCode(a: seq<Inst>, x: Inst, z: seq<Inst>)
    requires x.Label?
    ensures Code(a + [x] + z) == Code(a + z)
  {
    calc {
      Code(a + [x] + z);
      { CodeConcat(a + [x], z); }
      Code(a + [x]) + Code(z);
      { CodeConcat(a, [x]); CodeOfLabel(x); }
      Code(a) + [] + Code(z);
      Code(a) + Code(z);
      { CodeConcat(a, z); }
      Code(a + z);
    }
  }

  lemma CodeWithout(s: seq<Inst>, i: nat)
    requires i < |s| && s[i].Label?
    ensures Code(Without(s, i)) == Code(s)
  {
    calc {
      Code(s);
      { assert s[..i] + [s[i]] + s[i + 1..] == s; }
      Code(s[..i] + [s[i]] + s[i + 1..]);
      { LabelIsNoCode(s[..i], s[i], s[i + 1..]); }
      Code(Without(s, i));
    }
  }

  lemma CutIs(s: seq<Inst>, i: nat)
    requires i <= |s|
    ensures s[..i] + s[i..] == s
  {
  }

  lemma CodeWith(s: seq<Inst>, i: nat, x: Inst)
    requires i <= |s| && x.Label?
    ensures Code(With(s, i, x)) == Code(s)
  {
    CutIs(s, i);
    LabelIsNoCode(s[..i], x, s[i..]);
  }

  /** Every block keeps its code: all instructions but labels, in order. */
  predicate SameCode(fn: seq<Block>, fn': seq<Block>) {
    |fn'| == |fn| && forall b :: 0 <= b < |fn| ==> Code(fn'[b]) == Code(fn[b])
  }

  lemma MovedKeepsCode(fn: seq<Block>, p: Pos, q: Pos, at: nat)
    requires IsPos(fn, p) && IsPos(fn, q) && Offset(fn, p) < Offset(fn, q) && at <= 1 && At(fn, p).Label?
    ensures SameCode(fn, Moved(fn, p, q, at))
  {
    ShiftedOffset(fn, p, q);
    var removed, r := Removed(fn, p), Shifted(p, q);
    CodeWithout(fn[p.block], p.index);
    CodeWith(removed[r.block], r.index + at, At(fn, p));
  }

  // ---- Searching ----

  function FirstFrom(s: seq<Inst>, i: nat, stop: Inst -> bool): (r: Option<nat>)
    ensures r.Some? ==> i <= r.value < |s| && stop(s[r.value]) && forall k :: i <= k < r.value ==> !stop(s[k])
    ensures r.None? ==> forall k :: i <= k < |s| ==> !stop(s[k])
    decreases |s| - i
  {
    if i >= |s| then None else if stop(s[i]) then Some(i) else FirstFrom(s, i + 1, stop)
  }

  lemma FirstIs(s: seq<Inst>, i: nat, stop: Inst -> bool, k: nat)
    requires i <= k < |s| && stop(s[k]) && forall j :: i <= j < k ==> !stop(s[j])
    ensures FirstFrom(s, i, stop) == Some(k)
  {
  }

  /** What a search that found `r` says about the stream. */
  ghost predicate FoundAs(fn: seq<Block>, r: Option<Pos>, k: Option<nat>) {
    if r.Some? then IsPos(fn, r.value) && k == Some(Offset(fn, r.value)) else k.None?
  }

  /** How a walk ends: at an instruction, at the function's end, or at an iterator that has no instruction. */
  datatype Walked = Stopped(pos: Pos) | AtEnd | Nowhere

  /** No empty block lies between where the walk began and block `b`. */
  ghost predicate Clear(fn: seq<Block>, p: Pos, b: nat) {
    forall c :: p.block < c < b && c < |fn| ==> fn[c] != []
  }

  lemma ClearToStop(fn: seq<Block>, p: Pos, q: Pos)
    requires IsPos(fn, p) && IsPos(fn, q) && Clear(fn, p, q.block)
    ensures !MeetsEmpty(fn, Offset(fn, p), Some(Offset(fn, q)))
  {
    forall b | 0 <= b < |fn| && fn[b] == []
      ensures !(Offset(fn, p) < Start(fn, b) <= Offset(fn, q))
    {
      if b < p.block {
        StartsGrow(fn, b, p.block);
      } else if q.block < b {
        StartsGrow(fn, q.block, b);
      }
    }
  }

  lemma ClearToEnd(fn: seq<Block>, p: Pos)
    requires IsPos(fn, p) && Clear(fn, p, |fn|)
    ensures !MeetsEmpty(fn, Offset(fn, p), None)
  {
    forall b | 0 <= b < |fn| && fn[b] == []
      ensures Start(fn, b) <= Offset(fn, p)
    {
      if b < p.block {
        StartsGrow(fn, b, p.block);
      }
    }
  }

  /** What a walk from `p` says: it gets nowhere exactly if it meets an empty block first. */
  ghost predicate WalkedAs(fn: seq<Block>, p: Pos, r: Walked, k: Option<nat>)
    requires IsPos(fn, p)
  {
    && (r.Nowhere? <==> MeetsEmpty(fn, Offset(fn, p), k))
    && (r.Stopped? ==> IsPos(fn, r.pos) && k == Some(Offset(fn, r.pos)))
    && (r.AtEnd? ==> k.None?)
  }

  /** Where a walk from `p` that has come to `next` has got to in the stream. */
  function Reached(fn: seq<Block>, next: Option<Pos>): nat
    requires next.Some? ==> next.value.block < |fn|
  {
    if next.Some? then Offset(fn, next.value) else |Stream(fn)|
  }

  /** A walk that has met neither a stop nor an empty block so far. */
  ghost predicate Walking(fn: seq<Block>, p: Pos, next: Option<Pos>, stop: Inst -> bool)
    requires IsPos(fn, p)
  {
    && (next.Some? ==> next.value.block < |fn| && (IsPos(fn, next.value) || (fn[next.value.block] == [] && next.value.index == 0)))
    && Clear(fn, p, if next.Some? then next.value.block else |fn|)
    && Offset(fn, p) < Reached(fn, next)
    && FirstFrom(Stream(fn), Offset(fn, p) + 1, stop) == FirstFrom(Stream(fn), Reached(fn, next), stop)
  }

  lemma WalkBegins(fn: seq<Block>, p: Pos, stop: Inst -> bool)
    requires IsPos(fn, p)
    ensures Walking(fn, p, NextInst(fn, p), stop)
  {
    NextIsNext(fn, p);
  }

  lemma WalkGoesOn(fn: seq<Block>, p: Pos, q: Pos, stop: Inst -> bool)
    requires IsPos(fn, p) && IsPos(fn, q) && Walking(fn, p, Some(q), stop) && !stop(At(fn, q))
    ensures Walking(fn, p, NextInst(fn, q), stop)
    ensures Reached(fn, NextInst(fn, q)) == Offset(fn, q) + 1 <= |Stream(fn)|
  {
    StreamAt(fn, q);
    NextIsNext(fn, q);
  }

  lemma WalkEnds(fn: seq<Block>, p: Pos, next: Option<Pos>, stop: Inst -> bool)
    requires IsPos(fn, p) && Walking(fn, p, next, stop)
    requires next.Some? && IsPos(fn, next.value) ==> stop(At(fn, next.value))
    ensures WalkedAs(fn, p, if next.None? then AtEnd else if IsPos(fn, next.value) then Stopped(next.value) else Nowhere,
                     FirstFrom(Stream(fn), Offset(fn, p) + 1, stop))
  {
    if next.None? {
      ClearToEnd(fn, p);
    } else if IsPos(fn, next.value) {
      StreamAt(fn, next.value);
      ClearToStop(fn, p, next.value);
    } else {
      assert fn[next.value.block] == [] && Start(fn, next.value.block) == Reached(fn, next);
    }
  }

  /** The loops that go from instruction to instruction. */
  method Walk(fn: seq<Block>, p: Pos, stop: Inst -> bool) returns (r: Walked)
    requires IsPos(fn, p)
    ensures WalkedAs(fn, p, r, FirstFrom(Stream(fn), Offset(fn, p) + 1, stop))
  {
    WalkBegins(fn, p, stop);
    var next := NextInst(fn, p);
    while next.Some? && IsPos(fn, next.value) && !stop(At(fn, next.value))
      invariant Walking(fn, p, next, stop)
      decreases |Stream(fn)| + 1 - Reached(fn, next)
    {
      WalkGoesOn(fn, p, next.value, stop);
      next := NextInst(fn, next.value);
    }
    WalkEnds(fn, p, next, stop);
    r := if next.None? then AtEnd else if IsPos(fn, next.value) then Stopped(next.value) else Nowhere;
  }

  /** findInst(): block by block, and in each with find_if(). */
  method FindInst(fn: seq<Block>, pred: Inst -> bool) returns (r: Option<Pos>)
    ensures FoundAs(fn, r, FirstFrom(Stream(fn), 0, pred))
  {
    for b := 0 to |fn|
      invariant forall k :: 0 <= k < |Before(fn, b)| ==> !pred(Before(fn, b)[k])
    {
      for i := 0 to |fn[b]|
        invariant forall k :: 0 <= k < i ==> !pred(fn[b][k])
      {
        if pred(fn[b][i]) {
          FoundFirst(fn, Pos(b, i), pred);
          return Some(Pos(b, i));
        }
      }
    }
    r := None;
  }

  lemma FoundFirst(fn: seq<Block>, p: Pos, pred: Inst -> bool)
    requires IsPos(fn, p) && pred(At(fn, p))
    requires forall k :: 0 <= k < |Before(fn, p.block)| ==> !pred(Before(fn, p.block)[k])
    requires forall k :: 0 <= k < p.index ==> !pred(fn[p.block][k])
    ensures FirstFrom(Stream(fn), 0, pred) == Some(Offset(fn, p))
  {
    StreamAt(fn, p);
    StreamSplits(fn, p.block, |fn|);
    var prefix := Before(fn, p.block) + fn[p.block];
    assert forall k :: 0 <= k < Offset(fn, p) ==> Stream(fn)[k] == prefix[k];
    FirstIs(Stream(fn), 0, pred, Offset(fn, p));
  }

  // ---- The relocation ----

  function IsLabel(symbol: nat): Inst -> bool {
    (x: Inst) => x == Label(symbol)
  }

  /** isCallUsing(). */
  predicate IsCallUsing(x: Inst, dropped: nat) {
    x.Call? && dropped in x.types
  }

  /** isCallUsing() looks up the function of any call, and an indirect one has none. */
  predicate IsIndirect(x: Inst) {
    x.Call? && x.callee.None?
  }

  /** Where the search from the begin label stops. */
  function BeginStops(end: nat): Inst -> bool {
    (x: Inst) => x.Call? || x == Label(end)
  }

  /** Where the search from the end label stops. */
  function EndStops(dropFun: nat): Inst -> bool {
    (x: Inst) => (x.Call? && x.callee == Some(dropFun)) || x.Cfi? || x.Return? || (x.Call? && x.tail)
  }

  /** After the first call, if that makes the value and the one right before the label does not. */
  function BeginTarget(s: seq<Inst>, b: nat, end: nat, dropped: nat): (k: nat)
    requires 0 < b < |s|
    ensures b <= k < |s|
  {
    var k := FirstFrom(s, b + 1, BeginStops(end));
    if !IsCallUsing(s[b - 1], dropped) && k.Some? && IsCallUsing(s[k.value], dropped) then k.value else b
  }

  /** The begin label at `b`, moved to right after the instruction at `k`. */
  function BeginMoved(s: seq<Inst>, b: nat, k: nat): seq<Inst>
    requires b <= k < |s|
  {
    if k == b then s else Slid(s, b, k + 1)
  }

  /** Where the end label at `e` goes: before the stop, or one instruction further up if that is a CFI instruction. */
  function EndTarget(s: seq<Inst>, e: nat, dropFun: nat): nat
    requires FirstFrom(s, e + 1, EndStops(dropFun)).Some?
  {
    var k := FirstFrom(s, e + 1, EndStops(dropFun)).value;
    if s[k].Cfi? then k - 1 else k
  }

  predicate CanMoveEnd(s: seq<Inst>, e: nat, dropFun: nat) {
    && e + 1 < |s| && !s[e + 1].Cfi? && FirstFrom(s, e + 1, EndStops(dropFun)).Some?
  }

  function EndMoved(s: seq<Inst>, e: nat, dropFun: nat): seq<Inst>
    requires CanMoveEnd(s, e, dropFun)
  {
    Slid(s, e, EndTarget(s, e, dropFun))
  }

  /** `symbol` labels the instruction at `i`, and nothing else. */
  ghost predicate IsOnly(s: seq<Inst>, symbol: nat, i: nat) {
    i < |s| && s[i] == Label(symbol) && forall k :: 0 <= k < |s| && s[k] == Label(symbol) ==> k == i
  }

  /**
   Whether the begin label, instruction `b` of the stream, can be dealt with: it is not the
   first of its block and does not follow an indirect call directly, and if a call is looked
   for, no empty block lies before it and it is not indirect.
   */
  ghost predicate BeginSafe(fn: seq<Block>, b: nat, end: nat, dropped: nat) {
    var s := Stream(fn);
    var k := FirstFrom(s, b + 1, BeginStops(end));
    && 0 < b < |s| && NotFirst(fn, b) && !IsIndirect(s[b - 1])
    && (IsCallUsing(s[b - 1], dropped) || (!MeetsEmpty(fn, b, k) && (k.Some? ==> !IsIndirect(s[k.value]))))
  }

  /**
   Whether the end label, instruction `e`, can: there is a stop before any empty block, and if it
   is a CFI instruction, it neither follows the label directly nor begins a block.
   */
  ghost predicate EndSafe(fn: seq<Block>, e: nat, dropFun: nat) {
    var s := Stream(fn);
    var k := FirstFrom(s, e + 1, EndStops(dropFun));
    && k.Some? && !MeetsEmpty(fn, e, k)
    && (s[k.value].Cfi? ==> k.value != e + 1 && NotFirst(fn, k.value))
  }

  // ---- Where the labels may rest ----

  /** The drop call, a return or a tail call. */
  predicate EndsRange(x: Inst, dropFun: nat) {
    x.Return? || (x.Call? && (x.tail || x.callee == Some(dropFun)))
  }

  /**
   The end label, moved from `e` to `e'`, has passed no drop call, return, tail call or CFI
   instruction, and stands right before one of the first three, or before the instruction that
   precedes a CFI instruction.
   */
  ghost predicate EndRests(s: seq<Inst>, e: nat, e': nat, dropFun: nat) {
    && e <= e' && e' + 1 < |s|
    && (forall k :: e < k <= e' ==> !EndsRange(s[k], dropFun) && !s[k].Cfi?)
    && (EndsRange(s[e' + 1], dropFun) || (!s[e' + 1].Cfi? && e' + 2 < |s| && s[e' + 2].Cfi?))
  }

  /** The first call between `b` and `e`. */
  ghost predicate FirstCall(s: seq<Inst>, b: nat, e: nat, k: nat) {
    b < k < e <= |s| && s[k].Call? && forall j :: b < j < k ==> !s[j].Call?
  }

  /**
   The begin label, moved from `b` to `b'`: after the first call of the range if that makes the
   value and no such call stands right before the label; otherwise it stays.
   */
  ghost predicate BeginRests(s: seq<Inst>, b: nat, e: nat, b': nat, dropped: nat) {
    && 0 < b <= b' < e <= |s|
    && (b' != b ==> FirstCall(s, b, e, b'))
    && (b' != b <==> !(s[b - 1].Call? && dropped in s[b - 1].types) &&
                     exists k: nat :: FirstCall(s, b, e, k) && dropped in s[k].types)
  }

  lemma EndTargetRests(s: seq<Inst>, e: nat, dropFun: nat)
    requires CanMoveEnd(s, e, dropFun)
    ensures EndRests(s, e, EndTarget(s, e, dropFun) - 1, dropFun)
  {
  }

  lemma BeginTargetRests(s: seq<Inst>, end: nat, b: nat, e: nat, dropped: nat)
    requires 0 < b < e && IsOnly(s, end, e)
    ensures BeginRests(s, b, e, BeginTarget(s, b, end, dropped), dropped)
  {
    StopsBeforeEnd(s, end, b, e);
    var k := FirstFrom(s, b + 1, BeginStops(end));
    if k.value != e {
      assert FirstCall(s, b, e, k.value);
    }
  }

  /** The stream with the labels at `b` and `e` gone to `b'` and `e'`, and all else in order. */
  function Rearranged(s: seq<Inst>, b: nat, e: nat, b': nat, e': nat): seq<Inst>
    requires b <= b' < e <= e' < |s|
  {
    s[..b] + s[b + 1..b' + 1] + [s[b]] + s[b' + 1..e] + s[e + 1..e' + 1] + [s[e]] + s[e' + 1..]
  }

  /** Both labels have moved to where they may rest, and nothing else has. */
  ghost predicate RangeMoved(
    s: seq<Inst>, s': seq<Inst>, b: nat, e: nat, b': nat, e': nat, dropped: nat, dropFun: nat)
  {
    && b <= b' < e <= e' < |s| && s' == Rearranged(s, b, e, b', e')
    && BeginRests(s, b, e, b', dropped) && EndRests(s, e, e', dropFun)
  }

  // ---- ... on the stream ----

  lemma SlidEach(s: seq<Inst>, i: nat, j: nat)
    requires i < j <= |s|
    ensures |Slid(s, i, j)| == |s|
    ensures forall k :: 0 <= k < |s| ==>
              Slid(s, i, j)[k] == if k < i || j <= k then s[k] else if k == j - 1 then s[i] else s[k + 1]
  {
  }

  /** A label that is moved, or that another one is moved past, is still the only one of its symbol. */
  lemma OnlyAfterSlid(s: seq<Inst>, i: nat, j: nat, symbol: nat, x: nat)
    requires i < j <= |s| && IsOnly(s, symbol, x)
    ensures IsOnly(Slid(s, i, j), symbol, if x == i then j - 1 else if i < x < j then x - 1 else x)
  {
    SlidEach(s, i, j);
  }

  /** The search from the begin label comes no further than the end label. */
  lemma StopsBeforeEnd(s: seq<Inst>, end: nat, b: nat, e: nat)
    requires b < e && IsOnly(s, end, e)
    ensures var k := FirstFrom(s, b + 1, BeginStops(end));
            k.Some? && b < k.value <= e && (s[k.value].Call? ==> k.value < e)
  {
    assert BeginStops(end)(s[e]);
  }

  lemma TargetIsBeforeEnd(s: seq<Inst>, end: nat, b: nat, e: nat, dropped: nat)
    requires 0 < b < e && IsOnly(s, end, e)
    ensures b <= BeginTarget(s, b, end, dropped) < e
  {
    StopsBeforeEnd(s, end, b, e);
  }

  lemma SlidTail(s: seq<Inst>, i: nat, j: nat)
    requires i < j <= |s|
    ensures |Slid(s, i, j)| == |s| && Slid(s, i, j)[j..] == s[j..]
  {
  }

  lemma SlidesBeforeEnd(s: seq<Inst>, begin: nat, end: nat, b: nat, e: nat, k: nat)
    requires b < k < e && IsOnly(s, begin, b) && IsOnly(s, end, e)
    ensures var s' := Slid(s, b, k + 1);
            |s'| == |s| && IsOnly(s', begin, k) && IsOnly(s', end, e) && s'[k + 1..] == s[k + 1..]
  {
    OnlyAfterSlid(s, b, k + 1, begin, b);
    OnlyAfterSlid(s, b, k + 1, end, e);
    SlidTail(s, b, k + 1);
  }

  /** The begin label stays before the end label, which is where it was, and so is all that follows it. */
  lemma BeginStaysBefore(s: seq<Inst>, begin: nat, end: nat, b: nat, e: nat, k: nat)
    requires b <= k < e && IsOnly(s, begin, b) && IsOnly(s, end, e)
    ensures var s' := BeginMoved(s, b, k);
            |s'| == |s| && IsOnly(s', begin, k) && IsOnly(s', end, e) && s'[k + 1..] == s[k + 1..]
  {
    if k != b {
      SlidesBeforeEnd(s, begin, end, b, e, k);
    }
  }

  /** The end label only moves forward, and the begin label stays where it is. */
  lemma EndStaysAfter(s: seq<Inst>, begin: nat, end: nat, b: nat, e: nat, dropFun: nat)
    requires b < e && IsOnly(s, begin, b) && IsOnly(s, end, e) && CanMoveEnd(s, e, dropFun)
    ensures var s', e' := EndMoved(s, e, dropFun), EndTarget(s, e, dropFun) - 1;
            && |s'| == |s| && e <= e' < |s| && IsOnly(s', begin, b) && IsOnly(s', end, e')
            && s'[b + 1..e'] == s[b + 1..e] + s[e + 1..e' + 1]
  {
    var t := EndTarget(s, e, dropFun);
    OnlyAfterSlid(s, e, t, begin, b);
    OnlyAfterSlid(s, e, t, end, e);
  }

  lemma {:induction false} FirstFromSame(s: seq<Inst>, s': seq<Inst>, i: nat, stop: Inst -> bool)
    requires |s'| == |s| && forall k :: i <= k < |s| ==> s'[k] == s[k]
    ensures FirstFrom(s', i, stop) == FirstFrom(s, i, stop)
    decreases |s| - i
  {
    if i < |s| {
      FirstFromSame(s, s', i + 1, stop);
    }
  }

  lemma SuffixIs(s: seq<Inst>, s': seq<Inst>, i: nat, k: nat)
    requires |s'| == |s| && i <= k < |s| && s'[i..] == s[i..]
    ensures s'[k] == s[k]
  {
    assert s'[k] == s'[i..][k - i];
  }

  /** Moving the begin label does not change where the end label will go. */
  lemma EndTargetStays(s: seq<Inst>, s': seq<Inst>, b': nat, e: nat, dropFun: nat)
    requires CanMoveEnd(s, e, dropFun) && |s'| == |s| && b' < e && s'[b' + 1..] == s[b' + 1..]
    ensures CanMoveEnd(s', e, dropFun) && EndTarget(s', e, dropFun) == EndTarget(s, e, dropFun)
  {
    forall k | e <= k < |s|
      ensures s'[k] == s[k]
    {
      SuffixIs(s, s', b' + 1, k);
    }
    FirstFromSame(s, s', e + 1, EndStops(dropFun));
  }

  /**
   After both moves, the labels are still in order, all else is as it was, and what they bound is
   all the code from after the call that makes the value up to where the end label stopped.
   */
  lemma RangeIsKept(s: seq<Inst>, begin: nat, end: nat, b: nat, e: nat, dropped: nat, dropFun: nat)
    requires 0 < b < e && IsOnly(s, begin, b) && IsOnly(s, end, e) && CanMoveEnd(s, e, dropFun)
    ensures var b', e' := BeginTarget(s, b, end, dropped), EndTarget(s, e, dropFun) - 1;
            && b <= b' < e <= e' < |s| && CanMoveEnd(BeginMoved(s, b, b'), e, dropFun)
            && var s' := EndMoved(BeginMoved(s, b, b'), e, dropFun);
               && |s'| == |s| && IsOnly(s', begin, b') && IsOnly(s', end, e')
               && s'[b' + 1..e'] == s[b' + 1..e] + s[e + 1..e' + 1]
               && RangeMoved(s, s', b, e, b', e', dropped, dropFun)
  {
    TargetIsBeforeEnd(s, end, b, e, dropped);
    BeginTargetRests(s, end, b, e, dropped);
    EndTargetRests(s, e, dropFun);
    MovesKeepRange(s, begin, end, b, e, BeginTarget(s, b, end, dropped), dropFun);
    MovesRearrange(s, begin, end, b, e, BeginTarget(s, b, end, dropped), dropFun);
  }

  lemma RangeRests(s: seq<Inst>, begin: nat, end: nat, b: nat, e: nat, dropped: nat, dropFun: nat)
    requires 0 < b && IsRange(s, begin, end, b, e) && CanMoveEnd(s, e, dropFun)
    ensures var b', e' := BeginTarget(s, b, end, dropped), EndTarget(s, e, dropFun) - 1;
            && b <= b' < e <= e' < |s|
            && RangeMoved(s, Rearranged(s, b, e, b', e'), b, e, b', e', dropped, dropFun)
  {
    BeginTargetRests(s, end, b, e, dropped);
    EndTargetRests(s, e, dropFun);
  }

  lemma RangeMoves(s: seq<Inst>, s': seq<Inst>, begin: nat, end: nat, b: nat, e: nat, dropped: nat, dropFun: nat)
    returns (b': nat, e': nat)
    requires 0 < b && IsRange(s, begin, end, b, e) && CanMoveEnd(s, e, dropFun)
    requires b <= BeginTarget(s, b, end, dropped) < e < EndTarget(s, e, dropFun) <= |s|
    requires s' == Rearranged(s, b, e, BeginTarget(s, b, end, dropped), EndTarget(s, e, dropFun) - 1)
    ensures RangeMoved(s, s', b, e, b', e', dropped, dropFun)
  {
    b', e' := BeginTarget(s, b, end, dropped), EndTarget(s, e, dropFun) - 1;
    RangeRests(s, begin, end, b, e, dropped, dropFun);
  }

  lemma SlidTwice(s: seq<Inst>, b: nat, e: nat, b': nat, e': nat)
    requires b <= b' < e <= e' < |s|
    ensures Slid(BeginMoved(s, b, b'), e, e' + 1) == Rearranged(s, b, e, b', e')
  {
    if b == b' {
      assert s[..e] == s[..b] + s[b + 1..b + 1] + [s[b]] + s[b + 1..e];
    } else {
      var s1 := Slid(s, b, b' + 1);
      assert s1[..e] == s[..b] + s[b + 1..b' + 1] + [s[b]] + s[b' + 1..e];
      assert s1[e..] == s[e..];
      assert s1[e] == s[e] && s1[e + 1..e' + 1] == s[e + 1..e' + 1] && s1[e' + 1..] == s[e' + 1..];
    }
  }

  lemma MovesRearrange(s: seq<Inst>, begin: nat, end: nat, b: nat, e: nat, b': nat, dropFun: nat)
    requires b <= b' < e && IsOnly(s, begin, b) && IsOnly(s, end, e) && CanMoveEnd(s, e, dropFun)
    requires CanMoveEnd(BeginMoved(s, b, b'), e, dropFun)
    ensures e < EndTarget(s, e, dropFun) <= |s|
    ensures EndMoved(BeginMoved(s, b, b'), e, dropFun) == Rearranged(s, b, e, b', EndTarget(s, e, dropFun) - 1)
  {
    BeginStaysBefore(s, begin, end, b, e, b');
    EndTargetStays(s, BeginMoved(s, b, b'), b', e, dropFun);
    SlidTwice(s, b, e, b', EndTarget(s, e, dropFun) - 1);
  }

  lemma LabelsMove(s: seq<Inst>, s': seq<Inst>, begin: nat, end: nat, b: nat, e: nat, dropped: nat, dropFun: nat)
    returns (b': nat, e': nat)
    requires 0 < b && IsRange(s, begin, end, b, e) && CanMoveEnd(s, e, dropFun)
    requires var moved := BeginMoved(s, b, BeginTarget(s, b, end, dropped));
             CanMoveEnd(moved, e, dropFun) && s' == EndMoved(moved, e, dropFun)
    ensures RangeMoved(s, s', b, e, b', e', dropped, dropFun)
  {
    TargetIsBeforeEnd(s, end, b, e, dropped);
    MovesRearrange(s, begin, end, b, e, BeginTarget(s, b, end, dropped), dropFun);
    b', e' := RangeMoves(s, s', begin, end, b, e, dropped, dropFun);
  }

  lemma MovesKeepRange(s: seq<Inst>, begin: nat, end: nat, b: nat, e: nat, b': nat, dropFun: nat)
    requires b <= b' < e && IsOnly(s, begin, b) && IsOnly(s, end, e) && CanMoveEnd(s, e, dropFun)
    ensures var e' := EndTarget(s, e, dropFun) - 1;
            && e <= e' < |s| && CanMoveEnd(BeginMoved(s, b, b'), e, dropFun)
            && var s' := EndMoved(BeginMoved(s, b, b'), e, dropFun);
               && |s'| == |s| && IsOnly(s', begin, b') && IsOnly(s', end, e')
               && s'[b' + 1..e'] == s[b' + 1..e] + s[e + 1..e' + 1]
  {
    var s1 := BeginMoved(s, b, b');
    BeginStaysBefore(s, begin, end, b, e, b');
    EndTargetStays(s, s1, b', e, dropFun);
    EndStaysAfter(s1, begin, end, b', e, dropFun);
    SuffixSlices(s, s1, b', e, EndTarget(s, e, dropFun));
  }

  lemma SuffixSlices(s: seq<Inst>, s': seq<Inst>, b: nat, e: nat, t: nat)
    requires |s'| == |s| && b < e < t <= |s| && s'[b + 1..] == s[b + 1..]
    ensures s'[b + 1..e] == s[b + 1..e] && s'[e + 1..t] == s[e + 1..t]
  {
    forall k | b + 1 <= k < |s|
      ensures s'[k] == s[k]
    {
      SuffixIs(s, s', b + 1, k);
    }
  }

  // ---- ... on the blocks ----

  lemma PreviousInBlock(fn: seq<Block>, p: Pos)
    requires IsPos(fn, p) && p.index > 0
    ensures 0 < Offset(fn, p) < |Stream(fn)| && Stream(fn)[Offset(fn, p) - 1] == fn[p.block][p.index - 1]
  {
    StreamAt(fn, p);
    StreamAt(fn, Pos(p.block, p.index - 1));
  }

  predicate IsMove(fn: seq<Block>, p: Pos, q: Pos) {
    IsPos(fn, p) && IsPos(fn, q) && Offset(fn, p) < Offset(fn, q)
  }

  /** `fn'` is `fn` with the label at `p` moved to after instruction `k` of the stream, unless it is that itself. */
  ghost predicate IsMoved(fn: seq<Block>, p: Pos, k: nat, fn': seq<Block>)
    requires IsPos(fn, p)
  {
    if k == Offset(fn, p) then fn' == fn
    else exists q :: IsMove(fn, p, q) && Offset(fn, q) == k && fn' == Moved(fn, p, q, 1)
  }

  lemma MovesAfter(fn: seq<Block>, p: Pos, q: Pos)
    requires IsMove(fn, p, q) && At(fn, p).Label?
    ensures Offset(fn, q) < |Stream(fn)|
    ensures var fn' := Moved(fn, p, q, 1);
            && SameCode(fn, fn') && IsMoved(fn, p, Offset(fn, q), fn')
            && Stream(fn') == BeginMoved(Stream(fn), Offset(fn, p), Offset(fn, q))
  {
    StreamAt(fn, q);
    MovedInStream(fn, p, q, 1);
    MovedKeepsCode(fn, p, q, 1);
  }

  /** The first half: the begin label, found at `p`.  `None` stands for an assertion or an iterator gone astray. */
  method MoveBegin(fn: seq<Block>, p: Pos, end: nat, dropped: nat) returns (r: Option<seq<Block>>)
    requires IsPos(fn, p) && At(fn, p).Label?
    ensures r.Some? <==> BeginSafe(fn, Offset(fn, p), end, dropped)
    ensures r.Some? ==>
              var b, k := Offset(fn, p), BeginTarget(Stream(fn), Offset(fn, p), end, dropped);
              SameCode(fn, r.value) && IsMoved(fn, p, k, r.value) && Stream(r.value) == BeginMoved(Stream(fn), b, k)
  {
    StreamAt(fn, p);
    NotFirstIs(fn, p);
    if p.index == 0 {
      return None;
    }
    PreviousInBlock(fn, p);
    if IsIndirect(fn[p.block][p.index - 1]) {
      return None;
    }
    if IsCallUsing(fn[p.block][p.index - 1], dropped) {
      return Some(fn);
    }
    var next := Walk(fn, p, BeginStops(end));
    if next.Nowhere? {
      return None;
    }
    r := Some(fn);
    if next.Stopped? {
      StreamAt(fn, next.pos);
      if IsIndirect(At(fn, next.pos)) {
        return None;
      }
      if IsCallUsing(At(fn, next.pos), dropped) {
        MovesAfter(fn, p, next.pos);
        r := Some(Moved(fn, p, next.pos, 1));
      }
    }
  }

  lemma MovesBefore(fn: seq<Block>, p: Pos, q: Pos)
    requires IsMove(fn, p, q) && At(fn, p).Label?
    ensures Offset(fn, q) < |Stream(fn)|
    ensures SameCode(fn, Moved(fn, p, q, 0)) && Stream(Moved(fn, p, q, 0)) == Slid(Stream(fn), Offset(fn, p), Offset(fn, q))
  {
    StreamAt(fn, q);
    MovedInStream(fn, p, q, 0);
    MovedKeepsCode(fn, p, q, 0);
  }

  /** Where the end label at `p` goes, once the search has stopped at `q`. */
  function Above(fn: seq<Block>, p: Pos, q: Pos): Option<Pos>
    requires IsPos(fn, p) && IsPos(fn, q)
  {
    if !At(fn, q).Cfi? then Some(q)
    else if q.index == 0 || Offset(fn, q) == Offset(fn, p) + 1 then None
    else Some(Pos(q.block, q.index - 1))
  }

  lemma AboveIs(fn: seq<Block>, p: Pos, q: Pos, dropFun: nat)
    requires IsMove(fn, p, q) && FirstFrom(Stream(fn), Offset(fn, p) + 1, EndStops(dropFun)) == Some(Offset(fn, q))
    requires !MeetsEmpty(fn, Offset(fn, p), Some(Offset(fn, q)))
    ensures Above(fn, p, q).Some? <==> EndSafe(fn, Offset(fn, p), dropFun)
    ensures Above(fn, p, q).Some? ==>
              && CanMoveEnd(Stream(fn), Offset(fn, p), dropFun) && IsMove(fn, p, Above(fn, p, q).value)
              && Offset(fn, Above(fn, p, q).value) == EndTarget(Stream(fn), Offset(fn, p), dropFun)
  {
    StreamAt(fn, q);
    NotFirstIs(fn, q);
  }

  /** The second half: the end label, found at `p`. */
  method MoveEnd(fn: seq<Block>, p: Pos, dropFun: nat) returns (r: Option<seq<Block>>)
    requires IsPos(fn, p) && At(fn, p).Label?
    ensures r.Some? <==> EndSafe(fn, Offset(fn, p), dropFun)
    ensures r.Some? ==> CanMoveEnd(Stream(fn), Offset(fn, p), dropFun)
    ensures r.Some? ==> SameCode(fn, r.value) && Stream(r.value) == EndMoved(Stream(fn), Offset(fn, p), dropFun)
    ensures r.Some? ==>
              EndRests(Stream(fn), Offset(fn, p), EndTarget(Stream(fn), Offset(fn, p), dropFun) - 1, dropFun)
  {
    var next := Walk(fn, p, EndStops(dropFun));
    if !next.Stopped? {
      return None;
    }
    AboveIs(fn, p, next.pos, dropFun);
    var q := Above(fn, p, next.pos);
    if q.None? {
      return None;
    }
    MovesBefore(fn, p, q.value);
    EndTargetRests(Stream(fn), Offset(fn, p), dropFun);
    r := Some(Moved(fn, p, q.value, 0));
  }

  // ---- Moving the begin label does not change what happens to the end label ----

  lemma StartAfterMove(fn: seq<Block>, p: Pos, q: Pos, b: nat)
    requires IsMove(fn, p, q) && b <= |fn|
    ensures Start(Moved(fn, p, q, 1), b) == Start(fn, b) - if p.block < b <= q.block then 1 else 0
  {
    LaterBlock(fn, p, q);
    ShiftedOffset(fn, p, q);
    var removed, r := Removed(fn, p), Shifted(p, q);
    var left, filled := Without(fn[p.block], p.index), With(removed[r.block], r.index + 1, At(fn, p));
    if b <= p.block {
      BeforeSame(fn, p.block, left, b);
      BeforeSame(removed, r.block, filled, b);
    } else {
      StreamUpdate(fn, p.block, left, b);
      if b <= q.block {
        BeforeSame(removed, r.block, filled, b);
      } else {
        StreamUpdate(removed, r.block, filled, b);
      }
    }
  }

  /** Blocks that begin after instruction `e` are the same, and empty blocks stay so. */
  ghost predicate SameAfter(fn: seq<Block>, fn': seq<Block>, e: nat) {
    |fn'| == |fn| && forall b :: 0 <= b < |fn| ==>
      && (fn'[b] == [] <==> fn[b] == [])
      && (Start(fn', b) == Start(fn, b) || (Start(fn', b) <= e && Start(fn, b) <= e))
  }

  lemma MoveIsBefore(fn: seq<Block>, p: Pos, q: Pos, e: nat)
    requires IsMove(fn, p, q) && p.index > 0 && Offset(fn, q) < e
    ensures SameAfter(fn, Moved(fn, p, q, 1), e)
  {
    var fn' := Moved(fn, p, q, 1);
    ShiftedOffset(fn, p, q);
    forall b | 0 <= b < |fn|
      ensures fn'[b] == [] <==> fn[b] == []
      ensures Start(fn', b) == Start(fn, b) || (Start(fn', b) <= e && Start(fn, b) <= e)
    {
      StartAfterMove(fn, p, q, b);
      if b < q.block {
        StartsGrow(fn, b, q.block);
      }
    }
  }

  lemma MeetsEmptyStays(fn: seq<Block>, fn': seq<Block>, e: nat, stop: Option<nat>)
    requires SameAfter(fn, fn', e)
    ensures MeetsEmpty(fn', e, stop) <==> MeetsEmpty(fn, e, stop)
  {
    if MeetsEmpty(fn, e, stop) {
      var b :| 0 <= b < |fn| && fn[b] == [] && e < Start(fn, b) && (stop.Some? ==> Start(fn, b) <= stop.value);
      assert fn'[b] == [] && Start(fn', b) == Start(fn, b);
    }
    if MeetsEmpty(fn', e, stop) {
      var b :| 0 <= b < |fn'| && fn'[b] == [] && e < Start(fn', b) && (stop.Some? ==> Start(fn', b) <= stop.value);
      assert fn[b] == [] && Start(fn, b) == Start(fn', b);
    }
  }

  lemma NotFirstStays(fn: seq<Block>, fn': seq<Block>, e: nat, k: nat)
    requires SameAfter(fn, fn', e) && e < k
    ensures NotFirst(fn', k) <==> NotFirst(fn, k)
  {
    if !NotFirst(fn, k) {
      var b :| 0 <= b < |fn| && fn[b] != [] && Start(fn, b) == k;
      assert fn'[b] != [] && Start(fn', b) == k;
    }
    if !NotFirst(fn', k) {
      var b :| 0 <= b < |fn'| && fn'[b] != [] && Start(fn', b) == k;
      assert fn[b] != [] && Start(fn, b) == k;
    }
  }

  lemma StopStays(s: seq<Inst>, s': seq<Inst>, b': nat, e: nat, stop: Inst -> bool)
    requires b' < e < |s| == |s'| && s'[b' + 1..] == s[b' + 1..]
    ensures var k := FirstFrom(s, e + 1, stop);
            FirstFrom(s', e + 1, stop) == k && (k.Some? ==> s'[k.value] == s[k.value])
  {
    forall k | e <= k < |s|
      ensures s'[k] == s[k]
    {
      SuffixIs(s, s', b' + 1, k);
    }
    FirstFromSame(s, s', e + 1, stop);
  }

  lemma EndSafeStays(fn: seq<Block>, fn': seq<Block>, b': nat, e: nat, dropFun: nat)
    requires SameAfter(fn, fn', e) && b' < e < |Stream(fn)| == |Stream(fn')| && Stream(fn')[b' + 1..] == Stream(fn)[b' + 1..]
    ensures EndSafe(fn', e, dropFun) <==> EndSafe(fn, e, dropFun)
  {
    StopStays(Stream(fn), Stream(fn'), b', e, EndStops(dropFun));
    var k := FirstFrom(Stream(fn), e + 1, EndStops(dropFun));
    MeetsEmptyStays(fn, fn', e, k);
    if k.Some? {
      NotFirstStays(fn, fn', e, k.value);
    }
  }

  lemma OnlyIsFirst(s: seq<Inst>, symbol: nat, i: nat)
    requires IsOnly(s, symbol, i)
    ensures FirstFrom(s, 0, IsLabel(symbol)) == Some(i)
  {
    FirstIs(s, 0, IsLabel(symbol), i);
  }

  /** A landing pad's labels: one of each, in order. */
  ghost predicate IsRange(s: seq<Inst>, begin: nat, end: nat, b: nat, e: nat) {
    b < e && IsOnly(s, begin, b) && IsOnly(s, end, e)
  }

  lemma BeginThenEnd(fn: seq<Block>, fn1: seq<Block>, p: Pos, begin: nat, end: nat, e: nat, k: nat, dropFun: nat)
    requires IsPos(fn, p) && p.index > 0 && IsRange(Stream(fn), begin, end, Offset(fn, p), e) && Offset(fn, p) <= k < e
    requires Stream(fn1) == BeginMoved(Stream(fn), Offset(fn, p), k) && IsMoved(fn, p, k, fn1)
    ensures IsOnly(Stream(fn1), end, e) && (EndSafe(fn1, e, dropFun) <==> EndSafe(fn, e, dropFun))
  {
    BeginStaysBefore(Stream(fn), begin, end, Offset(fn, p), e, k);
    if k != Offset(fn, p) {
      var q :| IsMove(fn, p, q) && Offset(fn, q) == k && fn1 == Moved(fn, p, q, 1);
      MoveIsBefore(fn, p, q, e);
      EndSafeStays(fn, fn1, k, e, dropFun);
    }
  }

  /** What happens to one landing pad that has a call to drop a value, and labels. */
  method Relocate(
      fn: seq<Block>, begin: nat, end: nat, dropped: nat, dropFun: nat, ghost b: nat, ghost e: nat)
    returns (r: Option<seq<Block>>, ghost b': nat, ghost e': nat)
    requires IsRange(Stream(fn), begin, end, b, e)
    ensures r.Some? <==> BeginSafe(fn, b, end, dropped) && EndSafe(fn, e, dropFun)
    ensures r.Some? ==>
              var moved := BeginMoved(Stream(fn), b, BeginTarget(Stream(fn), b, end, dropped));
              SameCode(fn, r.value) && CanMoveEnd(moved, e, dropFun) && Stream(r.value) == EndMoved(moved, e, dropFun)
    ensures r.Some? ==> RangeMoved(Stream(fn), Stream(r.value), b, e, b', e', dropped, dropFun)
  {
    b', e' := b, e;
    OnlyIsFirst(Stream(fn), begin, b);
    var beginInst := FindInst(fn, IsLabel(begin));
    StreamAt(fn, beginInst.value);
    NotFirstIs(fn, beginInst.value);
    var moved := MoveBegin(fn, beginInst.value, end, dropped);
    if moved.None? {
      r := None;
      return;
    }
    TargetIsBeforeEnd(Stream(fn), end, b, e, dropped);
    BeginThenEnd(fn, moved.value, beginInst.value, begin, end, e, BeginTarget(Stream(fn), b, end, dropped), dropFun);
    // The iterator found before the move stays with its instruction, which is the only one with that label.
    OnlyIsFirst(Stream(moved.value), end, e);
    var endInst := FindInst(moved.value, IsLabel(end));
    StreamAt(moved.value, endInst.value);
    r := MoveEnd(moved.value, endInst.value, dropFun);
    if r.Some? {
      SafeCanMove(fn, e, dropFun);
      b', e' := LabelsMove(Stream(fn), Stream(r.value), begin, end, b, e, dropped, dropFun);
    }
  }

  lemma SafeCanMove(fn: seq<Block>, e: nat, dropFun: nat)
    requires EndSafe(fn, e, dropFun)
    ensures CanMoveEnd(Stream(fn), e, dropFun)
  {
  }

  // ---- When it succeeds, told of the instructions ----

  /** No empty block begins after instruction `i` and up to instruction `k`. */
  ghost predicate NoEmptyBlock(fn: seq<Block>, i: nat, k: nat) {
    forall c :: 0 <= c < |fn| && fn[c] == [] ==> Start(fn, c) <= i || k < Start(fn, c)
  }

  /** Instruction `k` is the first after `e` at which the end label has to stop. */
  ghost predicate FirstEnd(s: seq<Inst>, e: nat, k: nat, dropFun: nat) {
    && e < k < |s| && (EndsRange(s[k], dropFun) || s[k].Cfi?)
    && forall j :: e < j < k ==> !EndsRange(s[j], dropFun) && !s[j].Cfi?
  }

  lemma EndSafeIff(fn: seq<Block>, e: nat, dropFun: nat)
    ensures EndSafe(fn, e, dropFun) <==>
            exists k: nat ::
              && FirstEnd(Stream(fn), e, k, dropFun) && NoEmptyBlock(fn, e, k)
              && (Stream(fn)[k].Cfi? ==> k != e + 1 && NotFirst(fn, k))
  {
    var s := Stream(fn);
    var stop := FirstFrom(s, e + 1, EndStops(dropFun));
    if stop.Some? {
      assert FirstEnd(s, e, stop.value, dropFun);
    }
    forall k: nat | FirstEnd(s, e, k, dropFun)
      ensures stop == Some(k)
    {
      FirstIs(s, e + 1, EndStops(dropFun), k);
    }
  }

  /** Instruction `k` is the first call after `b`, or the end label at `e` if that comes first. */
  ghost predicate FirstCallOrEnd(s: seq<Inst>, b: nat, e: nat, k: nat) {
    FirstCall(s, b, e, k) || (k == e && forall j :: b < j < e < |s| ==> !s[j].Call?)
  }

  lemma FirstStopIs(s: seq<Inst>, end: nat, b: nat, e: nat, k: nat)
    requires b < e && IsOnly(s, end, e) && FirstCallOrEnd(s, b, e, k)
    ensures FirstFrom(s, b + 1, BeginStops(end)) == Some(k)
  {
    FirstIs(s, b + 1, BeginStops(end), k);
  }

  lemma FirstStopExists(s: seq<Inst>, end: nat, b: nat, e: nat) returns (k: nat)
    requires b < e && IsOnly(s, end, e)
    ensures FirstCallOrEnd(s, b, e, k) && FirstFrom(s, b + 1, BeginStops(end)) == Some(k)
  {
    StopsBeforeEnd(s, end, b, e);
    k := FirstFrom(s, b + 1, BeginStops(end)).value;
  }

  lemma BeginSafeIff(fn: seq<Block>, end: nat, b: nat, e: nat, dropped: nat)
    requires b < e && IsOnly(Stream(fn), end, e)
    ensures BeginSafe(fn, b, end, dropped) <==>
            && b > 0 && NotFirst(fn, b) && !(Stream(fn)[b - 1].Call? && Stream(fn)[b - 1].callee.None?)
            && ((Stream(fn)[b - 1].Call? && dropped in Stream(fn)[b - 1].types) ||
                exists k: nat ::
                  && FirstCallOrEnd(Stream(fn), b, e, k) && NoEmptyBlock(fn, b, k)
                  && (k != e ==> Stream(fn)[k].callee.Some?))
  {
    var k := FirstStopExists(Stream(fn), end, b, e);
    forall j: nat | FirstCallOrEnd(Stream(fn), b, e, j)
      ensures j == k
    {
      FirstStopIs(Stream(fn), end, b, e, j);
    }
  }

  // ---- Functions on which the pass fails, and one on which it does not ----

  lemma OneBlock(block: Block)
    ensures Stream([block]) == block && Start([block], 0) == 0
  {
    assert Before([block], 1) == Before([block], 0) + block;
  }

  lemma OneBlockIsPlain(block: Block, i: nat)
    requires block != [] && i > 0
    ensures NotFirst([block], i) && forall stop: Option<nat> :: !MeetsEmpty([block], i, stop)
  {
    OneBlock(block);
  }

  /** The first call after the begin label is indirect. */
  lemma IndirectCallAfterLabel(dropped: nat)
    ensures var fn := [[Plain(0), Label(1), Call(None, {}, false), Label(2), Plain(3), Return(4)]];
            IsRange(Stream(fn), 1, 2, 1, 3) && !BeginSafe(fn, 1, 2, dropped)
  {
    var block := [Plain(0), Label(1), Call(None, {}, false), Label(2), Plain(3), Return(4)];
    OneBlock(block);
    FirstIs(block, 2, BeginStops(2), 2);
  }

  /** An indirect call comes right before the begin label. */
  lemma IndirectCallBeforeLabel(dropped: nat)
    ensures var fn := [[Call(None, {}, false), Label(1), Plain(3), Label(2), Plain(3), Return(4)]];
            IsRange(Stream(fn), 1, 2, 1, 3) && !BeginSafe(fn, 1, 2, dropped)
  {
    OneBlock([Call(None, {}, false), Label(1), Plain(3), Label(2), Plain(3), Return(4)]);
  }

  /** A CFI instruction comes right after the end label. */
  lemma CfiAfterLabel(dropFun: nat)
    ensures var fn := [[Plain(0), Label(1), Plain(3), Label(2), Cfi(5), Return(4)]];
            IsRange(Stream(fn), 1, 2, 1, 3) && !EndSafe(fn, 3, dropFun)
  {
    var block := [Plain(0), Label(1), Plain(3), Label(2), Cfi(5), Return(4)];
    OneBlock(block);
    FirstIs(block, 4, EndStops(dropFun), 4);
  }

  /** A call that makes the value, and then a tail call: the labels end up right after the one and right before the other. */
  function Tame(dropped: nat, f: nat): Block {
    [Plain(0), Label(1), Call(Some(f), {dropped}, false), Label(2), Plain(3), Call(None, {}, true)]
  }

  lemma MakingCallIsPassed(dropped: nat, f: nat)
    ensures IsRange(Stream([Tame(dropped, f)]), 1, 2, 1, 3) && BeginSafe([Tame(dropped, f)], 1, 2, dropped)
    ensures BeginTarget(Stream([Tame(dropped, f)]), 1, 2, dropped) == 2
  {
    OneBlock(Tame(dropped, f));
    OneBlockIsPlain(Tame(dropped, f), 1);
    FirstIs(Tame(dropped, f), 2, BeginStops(2), 2);
  }

  lemma TailCallStops(dropped: nat, dropFun: nat, f: nat)
    ensures EndSafe([Tame(dropped, f)], 3, dropFun) && EndTarget(Stream([Tame(dropped, f)]), 3, dropFun) == 5
  {
    OneBlock(Tame(dropped, f));
    OneBlockIsPlain(Tame(dropped, f), 3);
    FirstIs(Tame(dropped, f), 4, EndStops(dropFun), 5);
  }
}
