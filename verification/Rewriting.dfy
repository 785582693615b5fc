/**
 The rewriting that compiler/ingerc.ts does, apart from the text it matches and
 inserts: what its loop makes of a function's lines, and why that function still
 does the same.
 */
module Rewriting {
  import opened Common

  /** Which lines the regular expressions match, and the lines to be inserted. */
  datatype Rules = Rules(
    header: string -> string,
    isRet: string -> bool,
    isCleanup: string -> bool,
    invoke: nat -> string,
    landing: nat -> string,
    cleanup: seq<string>)

  // ---- What processDefine() makes of the body ----

  /** What becomes of a line whose part begins at index `n`, which is also the number its label gets. */
  function Part(r: Rules, line: string, n: nat): seq<string> {
    if r.isRet(line) then [r.invoke(n), r.landing(n), line] else [line]
  }

  /** The rewriting of the first `i` lines. */
  function Expanded(r: Rules, fun: seq<string>, i: nat): seq<string>
    requires i <= |fun|
    decreases i
  {
    if i == 0 then []
    else Expanded(r, fun, i - 1) + Part(r, fun[i - 1], |Expanded(r, fun, i - 1)|)
  }

  /** Where the part of line `i` begins: at its invoke, if it is a return. */
  function Base(r: Rules, fun: seq<string>, i: nat): nat
    requires i <= |fun|
  {
    |Expanded(r, fun, i)|
  }

  predicate HasCleanup(r: Rules, fun: seq<string>, i: nat)
    requires i <= |fun|
  {
    exists j :: 0 <= j < i && r.isCleanup(fun[j])
  }

  /** `fun.splice(at, 0, lines)`. */
  function Splice(fun: seq<string>, at: nat, lines: seq<string>): seq<string>
    requires at <= |fun|
  {
    fun[..at] + lines + fun[at..]
  }

  /** The whole body, with a cleanup block before the closing brace unless there was one. */
  function Body(r: Rules, fun: seq<string>): seq<string>
    requires fun != []
  {
    var body := Expanded(r, fun, |fun|);
    if HasCleanup(r, fun, |fun|) || body == [] then body else Splice(body, |body| - 1, r.cleanup)
  }

  function Processed(r: Rules, fun: seq<string>): seq<string>
    requires fun != []
  {
    Body(r, fun[0 := r.header(fun[0])])
  }

  // ---- The loop ----

  lemma StepOver(r: Rules, fun: seq<string>, i: nat)
    requires i < |fun|
    ensures Expanded(r, fun, i) + Part(r, fun[i], Base(r, fun, i)) + fun[i + 1..]
         == Expanded(r, fun, i + 1) + fun[i + 1..]
  {
  }

  lemma CleanupSoFar(r: Rules, fun: seq<string>, i: nat)
    requires i < |fun|
    ensures HasCleanup(r, fun, i + 1) <==> HasCleanup(r, fun, i) || r.isCleanup(fun[i])
  {
  }

  lemma SpliceReturn(r: Rules, done: seq<string>, todo: seq<string>)
    requires todo != [] && r.isRet(todo[0])
    ensures Splice(done + todo, |done|, [r.invoke(|done|), r.landing(|done|)])
         == done + Part(r, todo[0], |done|) + todo[1..]
  {
  }

  lemma SkipLine(done: seq<string>, todo: seq<string>)
    requires todo != []
    ensures done + todo == done + [todo[0]] + todo[1..] && (done + todo)[|done|] == todo[0]
  {
  }

  /** What holds when `i` lines of the original are done: the index has moved along with the insertions. */
  ghost predicate Done(r: Rules, original: seq<string>, i: nat, fun: seq<string>, line: nat, cleanup: bool) {
    && i <= |original| && fun == Expanded(r, original, i) + original[i..]
    && line == Base(r, original, i) && (cleanup <==> HasCleanup(r, original, i))
  }

  /** One turn of the loop. */
  method Turn(r: Rules, fun: seq<string>, line: nat, cleanup: bool, ghost original: seq<string>, ghost i: nat)
    returns (fun': seq<string>, line': nat, cleanup': bool)
    requires i < |original| && Done(r, original, i, fun, line, cleanup) && !(r.isRet(original[i]) && r.isCleanup(original[i]))
    ensures Done(r, original, i + 1, fun', line', cleanup')
  {
    SkipLine(Expanded(r, original, i), original[i..]);
    StepOver(r, original, i);
    CleanupSoFar(r, original, i);
    fun', line', cleanup' := fun, line, cleanup;
    if r.isRet(fun[line]) {
      SpliceReturn(r, Expanded(r, original, i), original[i..]);
      fun' := Splice(fun, line, [r.invoke(line), r.landing(line)]);
      line' := line + 2;
    } else if r.isCleanup(fun[line]) {
      cleanup' := true;
    }
    line' := line' + 1;
  }

  lemma NotYet(r: Rules, original: seq<string>, i: nat, fun: seq<string>, line: nat, cleanup: bool)
    requires Done(r, original, i, fun, line, cleanup)
    ensures i < |original| <==> line < |fun|
    ensures i == |original| ==> fun == Expanded(r, original, |original|)
  {
  }

  /** processDefine(). */
  method ProcessDefine(r: Rules, input: seq<string>) returns (fun: seq<string>)
    requires input != [] && forall line :: !(r.isRet(line) && r.isCleanup(line))
    ensures fun == Processed(r, input)
  {
    fun := input[0 := r.header(input[0])];
    ghost var original := fun;
    ghost var i := 0;
    var cleanup := false;
    var line: nat := 0;
    NotYet(r, original, i, fun, line, cleanup);
    while line < |fun|
      invariant Done(r, original, i, fun, line, cleanup)
      invariant (i < |original| <==> line < |fun|) && (i == |original| ==> fun == Expanded(r, original, |original|))
      decreases |original| - i
    {
      fun, line, cleanup := Turn(r, fun, line, cleanup, original, i);
      i := i + 1;
      NotYet(r, original, i, fun, line, cleanup);
    }
    if !cleanup && fun != [] {
      fun := Splice(fun, |fun| - 1, r.cleanup);
    }
  }

  // ---- Structure ----

  /** Which lines of the expansion are the original ones. */
  function Kept(r: Rules, fun: seq<string>, i: nat): (mask: seq<bool>)
    requires i <= |fun|
    ensures |mask| == Base(r, fun, i)
    decreases i
  {
    if i == 0 then []
    else Kept(r, fun, i - 1) + Mask(r, fun[i - 1])
  }

  /** Which lines of a part are the original one. */
  function Mask(r: Rules, line: string): seq<bool> {
    if r.isRet(line) then [false, false, true] else [true]
  }

  function Select(lines: seq<string>, mask: seq<bool>): seq<string>
    requires |lines| == |mask|
    decreases |lines|
  {
    if lines == [] then []
    else Select(lines[..|lines| - 1], mask[..|mask| - 1]) + if mask[|mask| - 1] then [lines[|lines| - 1]] else []
  }

  lemma SelectSnoc(lines: seq<string>, mask: seq<bool>, line: string, keep: bool)
    requires |lines| == |mask|
    ensures Select(lines + [line], mask + [keep]) == Select(lines, mask) + if keep then [line] else []
  {
    assert (lines + [line])[..|lines|] == lines && (mask + [keep])[..|mask|] == mask;
  }

  lemma {:induction false} SelectConcat(a: seq<string>, b: seq<string>, ma: seq<bool>, mb: seq<bool>)
    requires |a| == |ma| && |b| == |mb|
    ensures Select(a + b, ma + mb) == Select(a, ma) + Select(b, mb)
    decreases |b|
  {
    var n := |b| - 1;
    if b == [] {
      assert a + b == a && ma + mb == ma;
    } else {
      SelectConcat(a, b[..n], ma, mb[..n]);
      SelectSnoc(a + b[..n], ma + mb[..n], b[n], mb[n]);
      assert a + b == a + b[..n] + [b[n]] && ma + mb == ma + mb[..n] + [mb[n]];
    }
  }

  lemma SelectOne(line: string, keep: bool)
    ensures Select([line], [keep]) == if keep then [line] else []
  {
    assert [line][..0] == [] && [keep][..0] == [];
  }

  lemma StripPart(r: Rules, line: string, n: nat)
    ensures Select(Part(r, line, n), Mask(r, line)) == [line]
  {
    if r.isRet(line) {
      SelectOne(r.invoke(n), false);
      SelectSnoc([r.invoke(n)], [false], r.landing(n), false);
      assert [r.invoke(n)] + [r.landing(n)] == [r.invoke(n), r.landing(n)] && [false] + [false] == [false, false];
      SelectSnoc([r.invoke(n), r.landing(n)], [false, false], line, true);
      assert [r.invoke(n), r.landing(n)] + [line] == Part(r, line, n);
      assert [false, false] + [true] == [false, false, true];
    } else {
      SelectOne(line, true);
    }
  }

  ghost predicate Stripped(r: Rules, fun: seq<string>, i: nat)
    requires i <= |fun|
  {
    Select(Expanded(r, fun, i), Kept(r, fun, i)) == fun[..i]
  }

  lemma StripsOneMore(
      before: seq<string>, mask: seq<bool>, part: seq<string>, kept: seq<bool>, prefix: seq<string>, line: string)
    requires |before| == |mask| && |part| == |kept| && Select(before, mask) == prefix && Select(part, kept) == [line]
    ensures Select(before + part, mask + kept) == prefix + [line]
  {
    SelectConcat(before, part, mask, kept);
  }

  lemma OneMore(r: Rules, fun: seq<string>, i: nat)
    requires i < |fun|
    ensures Expanded(r, fun, i + 1) == Expanded(r, fun, i) + Part(r, fun[i], Base(r, fun, i))
    ensures Kept(r, fun, i + 1) == Kept(r, fun, i) + Mask(r, fun[i])
    ensures |Part(r, fun[i], Base(r, fun, i))| == |Mask(r, fun[i])| && fun[..i + 1] == fun[..i] + [fun[i]]
  {
  }

  lemma StripStep(r: Rules, fun: seq<string>, i: nat)
    requires i < |fun| && Stripped(r, fun, i)
    ensures Stripped(r, fun, i + 1)
  {
    OneMore(r, fun, i);
    StripPart(r, fun[i], Base(r, fun, i));
    StripsOneMore(Expanded(r, fun, i), Kept(r, fun, i), Part(r, fun[i], Base(r, fun, i)), Mask(r, fun[i]), fun[..i], fun[i]);
  }

  lemma StripExpanded(r: Rules, fun: seq<string>)
    ensures Select(Expanded(r, fun, |fun|), Kept(r, fun, |fun|)) == fun
  {
    for i := 0 to |fun|
      invariant Stripped(r, fun, i)
    {
      StripStep(r, fun, i);
    }
    assert fun[..|fun|] == fun;
  }

  function NoneOf(n: nat): (mask: seq<bool>)
    ensures |mask| == n
  {
    seq(n, i => false)
  }

  /** Which lines of the rewritten body are the original ones. */
  function BodyKept(r: Rules, fun: seq<string>): (mask: seq<bool>)
    requires fun != []
    ensures |mask| == |Body(r, fun)|
  {
    var mask := Kept(r, fun, |fun|);
    if HasCleanup(r, fun, |fun|) || mask == [] then mask
    else mask[..|mask| - 1] + NoneOf(|r.cleanup|) + mask[|mask| - 1..]
  }

  lemma {:induction false} SelectNone(lines: seq<string>)
    ensures Select(lines, NoneOf(|lines|)) == []
    decreases |lines|
  {
    if lines != [] {
      SelectNone(lines[..|lines| - 1]);
      assert NoneOf(|lines|)[..|lines| - 1] == NoneOf(|lines| - 1);
    }
  }

  lemma SelectSpliced(a: seq<string>, b: seq<string>, ma: seq<bool>, mb: seq<bool>, lines: seq<string>)
    requires |a| == |ma| && |b| == |mb|
    ensures Select(a + lines + b, ma + NoneOf(|lines|) + mb) == Select(a + b, ma + mb)
  {
    calc {
      Select(a + lines + b, ma + NoneOf(|lines|) + mb);
      { SelectConcat(a + lines, b, ma + NoneOf(|lines|), mb); }
      Select(a + lines, ma + NoneOf(|lines|)) + Select(b, mb);
      { SelectConcat(a, lines, ma, NoneOf(|lines|)); SelectNone(lines); }
      Select(a, ma) + [] + Select(b, mb);
      Select(a, ma) + Select(b, mb);
      { SelectConcat(a, b, ma, mb); }
      Select(a + b, ma + mb);
    }
  }

  /** Lines spliced in can be deleted again. */
  lemma StripSplice(body: seq<string>, mask: seq<bool>, n: nat, lines: seq<string>)
    requires n <= |body| == |mask|
    ensures Select(Splice(body, n, lines), mask[..n] + NoneOf(|lines|) + mask[n..]) == Select(body, mask)
  {
    calc {
      Select(Splice(body, n, lines), mask[..n] + NoneOf(|lines|) + mask[n..]);
      { SelectSpliced(body[..n], body[n..], mask[..n], mask[n..], lines); }
      Select(body[..n] + body[n..], mask[..n] + mask[n..]);
      { assert body[..n] + body[n..] == body; }
      Select(body, mask[..n] + mask[n..]);
      { assert mask[..n] + mask[n..] == mask; }
      Select(body, mask);
    }
  }

  /** Deleting the inserted lines gives back the original body, exactly. */
  lemma StripGivesOriginal(r: Rules, fun: seq<string>)
    requires fun != []
    ensures Select(Body(r, fun), BodyKept(r, fun)) == fun
  {
    StripExpanded(r, fun);
    var body, mask := Expanded(r, fun, |fun|), Kept(r, fun, |fun|);
    if !HasCleanup(r, fun, |fun|) && body != [] {
      StripSplice(body, mask, |body| - 1, r.cleanup);
    }
  }

  lemma {:induction false} Grows(r: Rules, fun: seq<string>, i: nat, n: nat)
    requires i <= n <= |fun|
    ensures Base(r, fun, i) + (n - i) <= Base(r, fun, n)
    ensures Expanded(r, fun, n)[..Base(r, fun, i)] == Expanded(r, fun, i)
    decreases n - i
  {
    if i < n {
      Grows(r, fun, i, n - 1);
      var shorter := Expanded(r, fun, n - 1);
      assert Expanded(r, fun, n)[..|shorter|] == shorter;
      assert Expanded(r, fun, n)[..Base(r, fun, i)] == shorter[..Base(r, fun, i)];
    }
  }

  /** The part of line `i` is where it should be: every return right after its own invoke and label. */
  lemma PartIsInPlace(r: Rules, fun: seq<string>, i: nat)
    requires i < |fun|
    ensures Base(r, fun, i + 1) == Base(r, fun, i) + |Part(r, fun[i], Base(r, fun, i))| <= Base(r, fun, |fun|)
    ensures Expanded(r, fun, |fun|)[Base(r, fun, i)..Base(r, fun, i + 1)] == Part(r, fun[i], Base(r, fun, i))
  {
    Grows(r, fun, i + 1, |fun|);
    var b, e := Base(r, fun, i), Base(r, fun, i + 1);
    assert Expanded(r, fun, |fun|)[b..e] == Expanded(r, fun, i + 1)[b..e];
  }

  /** ... and no two returns share a label number, although the indices shift during the loop. */
  lemma LabelNumbersDiffer(r: Rules, fun: seq<string>, i: nat, j: nat)
    requires i < j < |fun|
    ensures Base(r, fun, i) < Base(r, fun, j)
  {
    Grows(r, fun, i, j);
  }

  // ---- Every line of the result ----

  /** A return with its own invoke and label, which have the invoke's index for their number. */
  ghost predicate IsReturnPart(r: Rules, body: seq<string>, b: nat) {
    b + 2 < |body| && body[b] == r.invoke(b) && body[b + 1] == r.landing(b) && r.isRet(body[b + 2])
  }

  /** Line `p` is one of the original that is no return, or of the cleanup block, or part of a return. */
  ghost predicate Explained(r: Rules, fun: seq<string>, body: seq<string>, p: nat)
    requires p < |body|
  {
    || (body[p] in fun && !r.isRet(body[p]))
    || body[p] in r.cleanup
    || (exists b: nat :: b <= p <= b + 2 && IsReturnPart(r, body, b))
  }

  lemma WhichPart(r: Rules, fun: seq<string>, p: nat) returns (i: nat)
    requires p < Base(r, fun, |fun|)
    ensures i < |fun| && Base(r, fun, i) <= p < Base(r, fun, i + 1)
  {
    i := 0;
    while p >= Base(r, fun, i + 1)
      invariant i < |fun| && Base(r, fun, i) <= p
      decreases |fun| - i
    {
      i := i + 1;
    }
  }

  lemma PartIsExplained(r: Rules, fun: seq<string>, i: nat, p: nat)
    requires i < |fun| - 1 && Base(r, fun, i) <= p < Base(r, fun, i + 1)
    ensures p < |Body(r, fun)| && Explained(r, fun, Body(r, fun), p)
  {
    if r.isRet(fun[i]) {
      ReturnPart(r, fun, i);
      assert IsReturnPart(r, Body(r, fun), Base(r, fun, i));
    } else {
      OtherPart(r, fun, i);
    }
  }

  lemma SpliceAtLast(before: seq<string>, last: string, lines: seq<string>)
    ensures Splice(before + [last], |before|, lines) == before + (lines + [last])
  {
    assert (before + [last])[..|before|] == before && (before + [last])[|before|..] == [last];
  }

  lemma Dropped(before: seq<string>, rest: seq<string>)
    ensures (before + rest)[|before|..] == rest
  {
  }

  /** The end of the body: a cleanup block unless there was one, and the last line. */
  lemma BodyEnds(r: Rules, fun: seq<string>)
    requires fun != [] && !r.isRet(fun[|fun| - 1])
    ensures var b, cleanup := Base(r, fun, |fun| - 1), if HasCleanup(r, fun, |fun|) then [] else r.cleanup;
            b <= |Body(r, fun)| && Body(r, fun)[b..] == cleanup + [fun[|fun| - 1]]
  {
    var before, last := Expanded(r, fun, |fun| - 1), fun[|fun| - 1];
    OneMore(r, fun, |fun| - 1);
    if HasCleanup(r, fun, |fun|) {
      Dropped(before, [last]);
      assert [] + [last] == [last];
    } else {
      SpliceAtLast(before, last, r.cleanup);
      Dropped(before, r.cleanup + [last]);
    }
  }

  lemma EndIsExplained(r: Rules, fun: seq<string>, p: nat)
    requires fun != [] && !r.isRet(fun[|fun| - 1]) && Base(r, fun, |fun| - 1) <= p < |Body(r, fun)|
    ensures Explained(r, fun, Body(r, fun), p)
  {
    BodyEnds(r, fun);
    var b := Base(r, fun, |fun| - 1);
    assert Body(r, fun)[p] == Body(r, fun)[b..][p - b];
  }

  /** There is nothing in the rewritten body but the original, the cleanup block and what guards the returns. */
  lemma EveryLineIsExplained(r: Rules, fun: seq<string>, p: nat)
    requires fun != [] && !r.isRet(fun[|fun| - 1]) && p < |Body(r, fun)|
    ensures Explained(r, fun, Body(r, fun), p)
  {
    var b := Base(r, fun, |fun| - 1);
    if p < b {
      Grows(r, fun, |fun| - 1, |fun|);
      var i := WhichPart(r, fun, p);
      if i == |fun| - 1 {
        assert false;
      }
      PartIsExplained(r, fun, i, p);
    } else {
      EndIsExplained(r, fun, p);
    }
  }

  /** No line that is inserted is a return. */
  ghost predicate InsertsNoReturn(r: Rules) {
    (forall n: nat :: !r.isRet(r.invoke(n)) && !r.isRet(r.landing(n))) && forall line :: line in r.cleanup ==> !r.isRet(line)
  }

  /** Then every return of the rewritten body has its own invoke and label. */
  lemma ReturnEndsPart(r: Rules, fun: seq<string>, body: seq<string>, p: nat)
    requires InsertsNoReturn(r) && p < |body| && Explained(r, fun, body, p) && r.isRet(body[p])
    ensures p >= 2 && IsReturnPart(r, body, p - 2)
  {
  }

  // ---- Cleanup blocks ----

  /** How many lines begin a cleanup block. */
  function Cleanups(r: Rules, lines: seq<string>): nat
    decreases |lines|
  {
    if lines == [] then 0
    else Cleanups(r, lines[..|lines| - 1]) + if r.isCleanup(lines[|lines| - 1]) then 1 else 0
  }

  lemma CleanupsSnoc(r: Rules, lines: seq<string>, line: string)
    ensures Cleanups(r, lines + [line]) == Cleanups(r, lines) + if r.isCleanup(line) then 1 else 0
  {
    assert (lines + [line])[..|lines|] == lines;
  }

  lemma {:induction false} CleanupsConcat(r: Rules, a: seq<string>, b: seq<string>)
    ensures Cleanups(r, a + b) == Cleanups(r, a) + Cleanups(r, b)
    decreases |b|
  {
    if b == [] {
      assert a + b == a;
    } else {
      CleanupsConcat(r, a, b[..|b| - 1]);
      CleanupsSnoc(r, a + b[..|b| - 1], b[|b| - 1]);
      assert a + b == a + b[..|b| - 1] + [b[|b| - 1]];
    }
  }

  lemma CleanupsOfPart(r: Rules, line: string, n: nat)
    requires !r.isCleanup(r.invoke(n)) && !r.isCleanup(r.landing(n))
    ensures Cleanups(r, Part(r, line, n)) == if r.isCleanup(line) then 1 else 0
  {
    CleanupsSnoc(r, [], line);
    assert [] + [line] == [line];
    if r.isRet(line) {
      CleanupsSnoc(r, [], r.invoke(n));
      assert [] + [r.invoke(n)] == [r.invoke(n)];
      CleanupsSnoc(r, [r.invoke(n)], r.landing(n));
      assert [r.invoke(n)] + [r.landing(n)] == [r.invoke(n), r.landing(n)];
      CleanupsSnoc(r, [r.invoke(n), r.landing(n)], line);
      assert [r.invoke(n), r.landing(n)] + [line] == Part(r, line, n);
    }
  }

  lemma CountsOneMore(r: Rules, before: seq<string>, part: seq<string>, prefix: seq<string>, line: string)
    requires Cleanups(r, before) == Cleanups(r, prefix) && Cleanups(r, part) == if r.isCleanup(line) then 1 else 0
    ensures Cleanups(r, before + part) == Cleanups(r, prefix + [line])
  {
    CleanupsConcat(r, before, part);
    CleanupsSnoc(r, prefix, line);
  }

  ghost predicate Counted(r: Rules, fun: seq<string>, i: nat)
    requires i <= |fun|
  {
    Cleanups(r, Expanded(r, fun, i)) == Cleanups(r, fun[..i]) && (Cleanups(r, fun[..i]) > 0 <==> HasCleanup(r, fun, i))
  }

  lemma CountStep(r: Rules, fun: seq<string>, i: nat)
    requires i < |fun| && Counted(r, fun, i)
    requires forall n: nat :: !r.isCleanup(r.invoke(n)) && !r.isCleanup(r.landing(n))
    ensures Counted(r, fun, i + 1)
  {
    OneMore(r, fun, i);
    CleanupSoFar(r, fun, i);
    CleanupsOfPart(r, fun[i], Base(r, fun, i));
    CleanupsSnoc(r, fun[..i], fun[i]);
    CountsOneMore(r, Expanded(r, fun, i), Part(r, fun[i], Base(r, fun, i)), fun[..i], fun[i]);
  }

  lemma CleanupsOfExpanded(r: Rules, fun: seq<string>)
    requires forall n: nat :: !r.isCleanup(r.invoke(n)) && !r.isCleanup(r.landing(n))
    ensures Counted(r, fun, |fun|)
  {
    for i := 0 to |fun|
      invariant Counted(r, fun, i)
    {
      CountStep(r, fun, i);
    }
  }

  /** The rewritten body has the cleanup blocks of the original, or else one. */
  lemma OneCleanup(r: Rules, fun: seq<string>)
    requires fun != [] && forall n: nat :: !r.isCleanup(r.invoke(n)) && !r.isCleanup(r.landing(n))
    requires Cleanups(r, r.cleanup) == 1
    ensures Cleanups(r, Body(r, fun)) == if Cleanups(r, fun) == 0 then 1 else Cleanups(r, fun)
  {
    CleanupsOfExpanded(r, fun);
    assert fun[..|fun|] == fun;
    Grows(r, fun, 0, |fun|);
    var body := Expanded(r, fun, |fun|);
    if !HasCleanup(r, fun, |fun|) {
      var n := |body| - 1;
      CleanupsConcat(r, body[..n] + r.cleanup, body[n..]);
      CleanupsConcat(r, body[..n], r.cleanup);
      CleanupsConcat(r, body[..n], body[n..]);
      assert body[..n] + body[n..] == body;
    }
  }

  // ---- Meaning ----

  /** What executing a line does: `out` is what can be observed of it. */
  datatype Effect =
    | Next(state: int, out: seq<int>)
    | Jump(name: string, state: int, out: seq<int>)
    | Return(value: int, out: seq<int>)
    | Stuck

  /** The meaning of lines, and which label a line declares. */
  datatype Language = Language(exec: (string, int) -> Effect, declares: (string, string) -> bool)

  datatype Result = Result(value: int, out: seq<int>)

  /** The first line from `i` on that declares a label. */
  function Find(l: Language, fun: seq<string>, name: string, i: nat): Option<nat>
    requires i <= |fun|
    decreases |fun| - i
  {
    if i == |fun| then None else if l.declares(fun[i], name) then Some(i) else Find(l, fun, name, i + 1)
  }

  function Observed(out: seq<int>, rest: Option<Result>): Option<Result> {
    if rest.Some? then Some(Result(rest.value.value, out + rest.value.out)) else None
  }

  /** Runs from line `pc` for at most `fuel` steps: the result, if it returns by then. */
  function Run(l: Language, fun: seq<string>, pc: nat, state: int, fuel: nat): Option<Result>
    decreases fuel
  {
    if fuel == 0 || pc >= |fun| then None
    else
      match l.exec(fun[pc], state)
      case Next(state', out) => Observed(out, Run(l, fun, pc + 1, state', fuel - 1))
      case Jump(name, state', out) =>
        var target := Find(l, fun, name, 0);
        if target.None? then None else Observed(out, Run(l, fun, target.value, state', fuel - 1))
      case Return(value, out) => Some(Result(value, out))
      case Stuck => None
  }

  /** A normally returning run, with this result. */
  ghost predicate Returns(l: Language, fun: seq<string>, pc: nat, state: int, result: Result) {
    exists fuel: nat :: Run(l, fun, pc, state, fuel) == Some(result)
  }

  /** What the epilogue function does: the state it leaves, and what can be observed of it. */
  type Epilogue = int -> (int, seq<int>)

  /**
   The inserted lines mean what they say: the epilogue function returns normally, so that its
   invoke goes to its label, and a label does nothing.  Each label is declared by its own line only.
   */
  ghost predicate Understands(l: Language, r: Rules, name: nat -> string, epilogue: Epilogue) {
    && CallAndJump(l.exec, r.invoke, name, epilogue) && DoNothing(l.exec, r.landing)
    && DeclareOwn(l.declares, r.landing, name) && DeclareNone(l.declares, r.invoke, name)
  }

  ghost predicate CallAndJump(
    exec: (string, int) -> Effect, line: nat -> string, name: nat -> string, epilogue: Epilogue)
  {
    forall n: nat, s: int :: exec(line(n), s) == Jump(name(n), epilogue(s).0, epilogue(s).1)
  }

  ghost predicate DoNothing(exec: (string, int) -> Effect, line: nat -> string) {
    forall n: nat, s: int :: exec(line(n), s) == Next(s, [])
  }

  ghost predicate DeclareOwn(declares: (string, string) -> bool, line: nat -> string, name: nat -> string) {
    forall m: nat, n: nat :: declares(line(m), name(n)) <==> m == n
  }

  ghost predicate DeclareNone(declares: (string, string) -> bool, line: nat -> string, name: nat -> string) {
    forall m: nat, n: nat :: !declares(line(m), name(n))
  }

  /** A label of the original: no inserted line before the cleanup block declares it, and no return does. */
  ghost predicate Foreign(l: Language, r: Rules, name: string) {
    && (forall n: nat :: !l.declares(r.invoke(n), name) && !l.declares(r.landing(n), name))
    && (forall line :: l.declares(line, name) ==> !r.isRet(line))
  }

  /**
   A function that uses no inserted name, jumps only to labels it has, and whose last
   line is no instruction and is never fallen into.
   */
  ghost predicate WellFormed(l: Language, r: Rules, name: nat -> string, fun: seq<string>) {
    && |fun| >= 2
    && (forall n: nat, i :: 0 <= i < |fun| ==> !l.declares(fun[i], name(n)))
    && (forall i, s: int :: 0 <= i < |fun| && l.exec(fun[i], s).Jump? ==>
          Foreign(l, r, l.exec(fun[i], s).name) && Find(l, fun, l.exec(fun[i], s).name, 0).Some?)
    && Inert(l, fun[|fun| - 1]) && !r.isRet(fun[|fun| - 1])
    && Terminator(l, fun[|fun| - 2])
  }

  /** A line that is neither an instruction nor a label. */
  ghost predicate Inert(l: Language, line: string) {
    (forall s: int :: l.exec(line, s).Stuck?) && (forall x: string :: !l.declares(line, x))
  }

  /** An instruction that never falls through to the next line. */
  ghost predicate Terminator(l: Language, line: string) {
    forall s: int :: !l.exec(line, s).Next?
  }

  lemma {:induction false} FindIs(l: Language, fun: seq<string>, name: string, i: nat, k: nat)
    requires i <= k < |fun| && l.declares(fun[k], name)
    requires forall j :: i <= j < k ==> !l.declares(fun[j], name)
    ensures Find(l, fun, name, i) == Some(k)
    decreases k - i
  {
    if i < k {
      FindIs(l, fun, name, i + 1, k);
    }
  }

  lemma {:induction false} FoundDeclares(l: Language, fun: seq<string>, name: string, i: nat)
    requires i <= |fun| && Find(l, fun, name, i).Some?
    ensures var k := Find(l, fun, name, i).value;
            i <= k < |fun| && l.declares(fun[k], name) && forall j :: i <= j < k ==> !l.declares(fun[j], name)
    decreases |fun| - i
  {
    if !l.declares(fun[i], name) {
      FoundDeclares(l, fun, name, i + 1);
    }
  }

  /** Lines that are not declared in the original are not declared by their parts. */
  lemma {:induction false} UndeclaredStaysSo(l: Language, r: Rules, fun: seq<string>, name: string, i: nat)
    requires i <= |fun| && Foreign(l, r, name) && forall j :: 0 <= j < i ==> !l.declares(fun[j], name)
    ensures forall p :: 0 <= p < Base(r, fun, i) ==> !l.declares(Expanded(r, fun, i)[p], name)
    decreases i
  {
    if i > 0 {
      UndeclaredStaysSo(l, r, fun, name, i - 1);
    }
  }

  /** No line of the parts before index `n` declares label `n`. */
  lemma {:induction false} LabelComesLater(
      l: Language, r: Rules, name: nat -> string, epilogue: Epilogue, fun: seq<string>, i: nat, n: nat)
    requires Understands(l, r, name, epilogue) && i <= |fun| && Base(r, fun, i) <= n
    requires forall j :: 0 <= j < |fun| ==> !l.declares(fun[j], name(n))
    ensures forall p :: 0 <= p < Base(r, fun, i) ==> !l.declares(Expanded(r, fun, i)[p], name(n))
    decreases i
  {
    if i > 0 {
      LabelComesLater(l, r, name, epilogue, fun, i - 1, n);
    }
  }

  /** Up to the last line, the body is the expansion, cleanup block or not. */
  lemma BodyBegins(r: Rules, fun: seq<string>, i: nat)
    requires i < |fun|
    ensures Base(r, fun, i) <= |Body(r, fun)| && Body(r, fun)[..Base(r, fun, i)] == Expanded(r, fun, i)
  {
    Grows(r, fun, i, |fun|);
    var body, b := Expanded(r, fun, |fun|), Base(r, fun, i);
    assert b <= |body| - 1;
    assert Body(r, fun)[..b] == body[..b];
  }

  lemma ReturnPart(r: Rules, fun: seq<string>, i: nat)
    requires i < |fun| - 1 && r.isRet(fun[i])
    ensures var b, body := Base(r, fun, i), Body(r, fun);
            && Base(r, fun, i + 1) == b + 3 <= |body|
            && body[b] == r.invoke(b) && body[b + 1] == r.landing(b) && body[b + 2] == fun[i]
  {
    var b, body := Base(r, fun, i), Body(r, fun);
    BodyBegins(r, fun, i + 1);
    var part := body[..b + 3];
    assert body[b] == part[b] && body[b + 1] == part[b + 1] && body[b + 2] == part[b + 2];
  }

  lemma OtherPart(r: Rules, fun: seq<string>, i: nat)
    requires i < |fun| - 1 && !r.isRet(fun[i])
    ensures var b, body := Base(r, fun, i), Body(r, fun);
            Base(r, fun, i + 1) == b + 1 <= |body| && body[b] == fun[i]
  {
    var b, body := Base(r, fun, i), Body(r, fun);
    BodyBegins(r, fun, i + 1);
    assert body[b] == body[..b + 1][b];
  }

  /** Whatever no line of the expansion before line `i` declares, no line of the body before it does. */
  lemma FindSkips(l: Language, r: Rules, fun: seq<string>, x: string, i: nat, k: nat)
    requires i < |fun| && Base(r, fun, i) <= k < |Body(r, fun)| && l.declares(Body(r, fun)[k], x)
    requires forall p :: 0 <= p < Base(r, fun, i) ==> !l.declares(Expanded(r, fun, i)[p], x)
    requires forall p :: Base(r, fun, i) <= p < k ==> !l.declares(Body(r, fun)[p], x)
    ensures Find(l, Body(r, fun), x, 0) == Some(k)
  {
    var b, body := Base(r, fun, i), Body(r, fun);
    BodyBegins(r, fun, i);
    forall p | 0 <= p < b
      ensures !l.declares(body[p], x)
    {
      assert body[p] == body[..b][p];
    }
    FindIs(l, body, x, 0, k);
  }

  /** A label of the original is found at the same line, wherever that now is. */
  lemma FindsOriginal(l: Language, r: Rules, fun: seq<string>, x: string)
    requires Foreign(l, r, x) && Find(l, fun, x, 0).Some? && fun != [] && Inert(l, fun[|fun| - 1])
    ensures var k := Find(l, fun, x, 0).value;
            k < |fun| - 1 && Find(l, Body(r, fun), x, 0) == Some(Base(r, fun, k))
  {
    FoundDeclares(l, fun, x, 0);
    var k := Find(l, fun, x, 0).value;
    OtherPart(r, fun, k);
    UndeclaredStaysSo(l, r, fun, x, k);
    FindSkips(l, r, fun, x, k, Base(r, fun, k));
  }

  /** An inserted label is found right after its invoke. */
  lemma FindsInserted(l: Language, r: Rules, name: nat -> string, epilogue: Epilogue, fun: seq<string>, i: nat)
    requires Understands(l, r, name, epilogue) && WellFormed(l, r, name, fun) && i < |fun| - 1 && r.isRet(fun[i])
    ensures Find(l, Body(r, fun), name(Base(r, fun, i)), 0) == Some(Base(r, fun, i) + 1)
  {
    var b := Base(r, fun, i);
    ReturnPart(r, fun, i);
    LabelComesLater(l, r, name, epilogue, fun, i, b);
    FindSkips(l, r, fun, name(b), i, b + 1);
  }

  // ---- Calling the epilogue before each return ----

  /** An effect, with something observed before it. */
  function After(out: seq<int>, e: Effect): Effect {
    match e
    case Next(state, more) => Next(state, out + more)
    case Jump(name, state, more) => Jump(name, state, out + more)
    case Return(value, more) => Return(value, out + more)
    case Stuck => Stuck
  }

  /** The state in which a line is executed, and what is observed before that. */
  function Arrival(r: Rules, epilogue: Epilogue, line: string, state: int): (int, seq<int>) {
    if r.isRet(line) then epilogue(state) else (state, [])
  }

  /** The language in which each return calls the epilogue function first. */
  function Calling(l: Language, r: Rules, epilogue: Epilogue): Language {
    Language(
      (line: string, state: int) =>
        After(Arrival(r, epilogue, line, state).1, l.exec(line, Arrival(r, epilogue, line, state).0)),
      l.declares)
  }

  lemma {:induction false} FindIsByName(l: Language, l': Language, fun: seq<string>, name: string, i: nat)
    requires l'.declares == l.declares && i <= |fun|
    ensures Find(l', fun, name, i) == Find(l, fun, name, i)
    decreases |fun| - i
  {
    if i < |fun| {
      FindIsByName(l, l', fun, name, i + 1);
    }
  }

  lemma ObservedNothing(rest: Option<Result>)
    ensures Observed([], rest) == rest
  {
    if rest.Some? {
      assert [] + rest.value.out == rest.value.out;
    }
  }

  lemma ObservedTwice(a: seq<int>, b: seq<int>, rest: Option<Result>)
    ensures Observed(a, Observed(b, rest)) == Observed(a + b, rest)
  {
    if rest.Some? {
      assert a + (b + rest.value.out) == a + b + rest.value.out;
    }
  }

  /** Passing the invoke and the label before a return takes two steps and calls the epilogue function once. */
  lemma PassesInvoke(
      l: Language, r: Rules, name: nat -> string, epilogue: Epilogue, fun: seq<string>, i: nat, state: int, fuel: nat)
    requires Understands(l, r, name, epilogue) && WellFormed(l, r, name, fun) && i < |fun| - 1 && r.isRet(fun[i])
    ensures var b, body := Base(r, fun, i), Body(r, fun);
            Run(l, body, b, state, fuel + 2) == Observed(epilogue(state).1, Run(l, body, b + 2, epilogue(state).0, fuel))
  {
    var b, body, state' := Base(r, fun, i), Body(r, fun), epilogue(state).0;
    ReturnPart(r, fun, i);
    FindsInserted(l, r, name, epilogue, fun, i);
    ObservedNothing(Run(l, body, b + 2, state', fuel));
    assert l.exec(body[b + 1], state') == Next(state', []);
    assert Run(l, body, b + 1, state', fuel + 1) == Run(l, body, b + 2, state', fuel);
  }

  /** Where an original line now is. */
  function Place(r: Rules, fun: seq<string>, i: nat): nat
    requires i < |fun|
  {
    Base(r, fun, i) + if r.isRet(fun[i]) then 2 else 0
  }

  /** A run that comes to a line's part comes to the line itself, having called the epilogue function if it is a return. */
  lemma ReachesLine(
      l: Language, r: Rules, name: nat -> string, epilogue: Epilogue, fun: seq<string>, i: nat, state: int, fuel: nat)
    requires Understands(l, r, name, epilogue) && WellFormed(l, r, name, fun) && i < |fun| - 1
    ensures var q, body, a := Place(r, fun, i), Body(r, fun), Arrival(r, epilogue, fun[i], state);
            && q + 1 == Base(r, fun, i + 1) <= |body| && body[q] == fun[i]
            && Run(l, body, Base(r, fun, i), state, fuel + q - Base(r, fun, i)) == Observed(a.1, Run(l, body, q, a.0, fuel))
  {
    if r.isRet(fun[i]) {
      ReturnPart(r, fun, i);
      PassesInvoke(l, r, name, epilogue, fun, i, state, fuel);
    } else {
      OtherPart(r, fun, i);
      ObservedNothing(Run(l, Body(r, fun), Place(r, fun, i), state, fuel));
    }
  }

  lemma {:induction false} MoreFuel(l: Language, fun: seq<string>, pc: nat, state: int, fuel: nat, more: nat)
    requires fuel <= more && Run(l, fun, pc, state, fuel).Some?
    ensures Run(l, fun, pc, state, more) == Run(l, fun, pc, state, fuel)
    decreases fuel
  {
    match l.exec(fun[pc], state)
    case Next(state', _) => MoreFuel(l, fun, pc + 1, state', fuel - 1, more - 1);
    case Jump(x, state', _) => MoreFuel(l, fun, Find(l, fun, x, 0).value, state', fuel - 1, more - 1);
    case Return(_, _) =>
  }

  /** A jump of the original goes to the same line, and that is not the last one. */
  lemma JumpsAlike(l: Language, r: Rules, name: nat -> string, fun: seq<string>, i: nat, state: int)
    requires WellFormed(l, r, name, fun) && i < |fun| && l.exec(fun[i], state).Jump?
    ensures var x := l.exec(fun[i], state).name;
            && Find(l, fun, x, 0).Some? && Find(l, fun, x, 0).value < |fun| - 1
            && Find(l, Body(r, fun), x, 0) == Some(Base(r, fun, Find(l, fun, x, 0).value))
  {
    FindsOriginal(l, r, fun, l.exec(fun[i], state).name);
  }

  /** What is observed of a line, and then of what follows it. */
  lemma ObservedAfter(out: seq<int>, more: seq<int>, a: Option<Result>, b: Option<Result>)
    requires a == b
    ensures Observed(out + more, a) == Observed(out, Observed(more, b))
  {
    ObservedTwice(out, more, b);
  }

  /** Two runs at the same line go on alike, if what follows it does. */
  lemma SameLine(
      l: Language, r: Rules, epilogue: Epilogue, fun: seq<string>, i: nat, fuel: nat,
      body: seq<string>, q: nat, more: nat, state: int)
    requires i < |fun| && q < |body| && body[q] == fun[i] && fuel > 0 && more > 0
    requires var l', a := Calling(l, r, epilogue), Arrival(r, epilogue, fun[i], state);
             var e := l.exec(fun[i], a.0);
             && (e.Next? ==> Run(l', fun, i + 1, e.state, fuel - 1) == Run(l, body, q + 1, e.state, more - 1))
             && (e.Jump? ==>
                   var there, here := Find(l', fun, e.name, 0), Find(l, body, e.name, 0);
                   && there.Some? && here.Some?
                   && Run(l', fun, there.value, e.state, fuel - 1) == Run(l, body, here.value, e.state, more - 1))
    ensures var a := Arrival(r, epilogue, fun[i], state);
            Run(Calling(l, r, epilogue), fun, i, state, fuel) == Observed(a.1, Run(l, body, q, a.0, more))
  {
    var l', a := Calling(l, r, epilogue), Arrival(r, epilogue, fun[i], state);
    var e := l.exec(fun[i], a.0);
    assert l'.exec(fun[i], state) == After(a.1, e);
    if e.Next? {
      ObservedAfter(a.1, e.out, Run(l', fun, i + 1, e.state, fuel - 1), Run(l, body, q + 1, e.state, more - 1));
    } else if e.Jump? {
      var there, here := Find(l', fun, e.name, 0).value, Find(l, body, e.name, 0).value;
      ObservedAfter(a.1, e.out, Run(l', fun, there, e.state, fuel - 1), Run(l, body, here, e.state, more - 1));
    }
  }

  lemma PlaceIs(r: Rules, fun: seq<string>, i: nat)
    requires i < |fun| - 1
    ensures Place(r, fun, i) + 1 == Base(r, fun, i + 1) <= |Body(r, fun)| && Body(r, fun)[Place(r, fun, i)] == fun[i]
  {
    if r.isRet(fun[i]) {
      ReturnPart(r, fun, i);
    } else {
      OtherPart(r, fun, i);
    }
  }

  /** What follows line `i` takes `rest` steps in the rewritten body, and comes to the same. */
  ghost predicate GoesAlike(
    l: Language, r: Rules, epilogue: Epilogue, fun: seq<string>, i: nat, state: int, fuel: nat, rest: nat)
    requires i < |fun| - 1 && fuel > 0
  {
    var l' := Calling(l, r, epilogue);
    var e := l.exec(fun[i], Arrival(r, epilogue, fun[i], state).0);
    && (e.Next? ==> Run(l', fun, i + 1, e.state, fuel - 1) == Run(l, Body(r, fun), Base(r, fun, i + 1), e.state, rest))
    && (e.Jump? ==>
          var there := Find(l', fun, e.name, 0);
          && there.Some? && there.value < |fun|
          && Find(l, Body(r, fun), e.name, 0) == Some(Base(r, fun, there.value))
          && Run(l', fun, there.value, e.state, fuel - 1)
             == Run(l, Body(r, fun), Base(r, fun, there.value), e.state, rest))
  }

  /** A line does in its new place what it did, if what follows does. */
  lemma LineAlike(l: Language, r: Rules, epilogue: Epilogue, fun: seq<string>, i: nat, state: int, fuel: nat, rest: nat)
    requires i < |fun| - 1 && fuel > 0 && GoesAlike(l, r, epilogue, fun, i, state, fuel, rest)
    ensures var a := Arrival(r, epilogue, fun[i], state);
            Observed(a.1, Run(l, Body(r, fun), Place(r, fun, i), a.0, rest + 1))
            == Run(Calling(l, r, epilogue), fun, i, state, fuel)
  {
    PlaceIs(r, fun, i);
    SameLine(l, r, epilogue, fun, i, fuel, Body(r, fun), Place(r, fun, i), rest + 1, state);
  }

  /** What follows a line returns, if the line does. */
  lemma GoesOn(l: Language, body: seq<string>, q: nat, state: int, fuel: nat)
    requires q < |body| && Run(l, body, q, state, fuel).Some?
    ensures var e := l.exec(body[q], state);
            && !e.Stuck? && fuel > 0
            && (e.Next? ==> Run(l, body, q + 1, e.state, fuel - 1).Some?)
            && (e.Jump? && Find(l, body, e.name, 0).Some? ==>
                  Run(l, body, Find(l, body, e.name, 0).value, e.state, fuel - 1).Some?)
  {
  }

  lemma {:induction false} ForwardRest(
      l: Language, r: Rules, name: nat -> string, epilogue: Epilogue, fun: seq<string>, i: nat, state: int, fuel: nat)
    returns (rest: nat)
    requires Understands(l, r, name, epilogue) && WellFormed(l, r, name, fun) && i < |fun| - 1
    requires Run(Calling(l, r, epilogue), fun, i, state, fuel).Some?
    ensures fuel > 0 && GoesAlike(l, r, epilogue, fun, i, state, fuel, rest)
    decreases fuel, 0
  {
    var l', state' := Calling(l, r, epilogue), Arrival(r, epilogue, fun[i], state).0;
    GoesOn(l', fun, i, state, fuel);
    var e := l.exec(fun[i], state');
    rest := 0;
    if e.Next? {
      NeverFallsOff(l, r, name, fun, i, state');
      rest := Forward(l, r, name, epilogue, fun, i + 1, e.state, fuel - 1);
    } else if e.Jump? {
      JumpsAlike(l, r, name, fun, i, state');
      FindIsByName(l, l', fun, e.name, 0);
      rest := Forward(l, r, name, epilogue, fun, Find(l, fun, e.name, 0).value, e.state, fuel - 1);
    }
  }

  lemma {:induction false} Forward(
      l: Language, r: Rules, name: nat -> string, epilogue: Epilogue, fun: seq<string>, i: nat, state: int, fuel: nat)
    returns (enough: nat)
    requires Understands(l, r, name, epilogue) && WellFormed(l, r, name, fun) && i < |fun| - 1
    requires Run(Calling(l, r, epilogue), fun, i, state, fuel).Some?
    ensures Run(l, Body(r, fun), Base(r, fun, i), state, enough) == Run(Calling(l, r, epilogue), fun, i, state, fuel)
    decreases fuel, 1
  {
    var rest := ForwardRest(l, r, name, epilogue, fun, i, state, fuel);
    LineAlike(l, r, epilogue, fun, i, state, fuel, rest);
    ReachesLine(l, r, name, epilogue, fun, i, state, rest + 1);
    enough := rest + 1 + Place(r, fun, i) - Base(r, fun, i);
  }

  lemma NeverFallsOff(l: Language, r: Rules, name: nat -> string, fun: seq<string>, i: nat, state: int)
    requires WellFormed(l, r, name, fun) && i < |fun| - 1 && l.exec(fun[i], state).Next?
    ensures i + 1 < |fun| - 1
  {
  }

  lemma ReachesLineAnyway(
      l: Language, r: Rules, name: nat -> string, epilogue: Epilogue, fun: seq<string>, i: nat, state: int, fuel: nat)
    requires Understands(l, r, name, epilogue) && WellFormed(l, r, name, fun) && i < |fun| - 1
    requires Run(l, Body(r, fun), Base(r, fun, i), state, fuel).Some?
    ensures var q, body, a := Place(r, fun, i), Body(r, fun), Arrival(r, epilogue, fun[i], state);
            && fuel > 0 && q + 1 == Base(r, fun, i + 1) <= |body| && body[q] == fun[i]
            && Run(l, body, Base(r, fun, i), state, fuel) == Observed(a.1, Run(l, body, q, a.0, fuel))
  {
    ReachesLine(l, r, name, epilogue, fun, i, state, fuel);
    MoreFuel(l, Body(r, fun), Base(r, fun, i), state, fuel, fuel + Place(r, fun, i) - Base(r, fun, i));
  }

  /** A run of the rewritten body that returns from a line goes on from where the line goes. */
  lemma LineGoesOn(
      l: Language, r: Rules, name: nat -> string, epilogue: Epilogue, fun: seq<string>, i: nat, state: int, fuel: nat)
    requires Understands(l, r, name, epilogue) && WellFormed(l, r, name, fun) && i < |fun| - 1
    requires Run(l, Body(r, fun), Base(r, fun, i), state, fuel).Some?
    ensures var e := l.exec(fun[i], Arrival(r, epilogue, fun[i], state).0);
            && fuel > 0
            && (e.Next? ==> i + 1 < |fun| - 1 && Run(l, Body(r, fun), Base(r, fun, i + 1), e.state, fuel - 1).Some?)
            && (e.Jump? ==>
                  var there := Find(l, fun, e.name, 0);
                  && there.Some? && there.value < |fun| - 1
                  && Find(l, Body(r, fun), e.name, 0) == Some(Base(r, fun, there.value))
                  && Run(l, Body(r, fun), Base(r, fun, there.value), e.state, fuel - 1).Some?)
  {
    var state' := Arrival(r, epilogue, fun[i], state).0;
    ReachesLineAnyway(l, r, name, epilogue, fun, i, state, fuel);
    GoesOn(l, Body(r, fun), Place(r, fun, i), state', fuel);
    var e := l.exec(fun[i], state');
    if e.Next? {
      NeverFallsOff(l, r, name, fun, i, state');
    } else if e.Jump? {
      JumpsAlike(l, r, name, fun, i, state');
    }
  }

  lemma {:induction false} BackwardRest(
      l: Language, r: Rules, name: nat -> string, epilogue: Epilogue, fun: seq<string>, i: nat, state: int, fuel: nat)
    requires Understands(l, r, name, epilogue) && WellFormed(l, r, name, fun) && i < |fun| - 1
    requires Run(l, Body(r, fun), Base(r, fun, i), state, fuel).Some?
    ensures fuel > 0 && GoesAlike(l, r, epilogue, fun, i, state, fuel, fuel - 1)
    decreases fuel, 0
  {
    LineGoesOn(l, r, name, epilogue, fun, i, state, fuel);
    var e := l.exec(fun[i], Arrival(r, epilogue, fun[i], state).0);
    if e.Next? {
      Backward(l, r, name, epilogue, fun, i + 1, e.state, fuel - 1);
    } else if e.Jump? {
      FindIsByName(l, Calling(l, r, epilogue), fun, e.name, 0);
      Backward(l, r, name, epilogue, fun, Find(l, fun, e.name, 0).value, e.state, fuel - 1);
    }
  }

  lemma {:induction false} Backward(
      l: Language, r: Rules, name: nat -> string, epilogue: Epilogue, fun: seq<string>, i: nat, state: int, fuel: nat)
    requires Understands(l, r, name, epilogue) && WellFormed(l, r, name, fun) && i < |fun| - 1
    requires Run(l, Body(r, fun), Base(r, fun, i), state, fuel).Some?
    ensures Run(Calling(l, r, epilogue), fun, i, state, fuel) == Run(l, Body(r, fun), Base(r, fun, i), state, fuel)
    decreases fuel, 1
  {
    BackwardRest(l, r, name, epilogue, fun, i, state, fuel);
    ReachesLineAnyway(l, r, name, epilogue, fun, i, state, fuel);
    LineAlike(l, r, epilogue, fun, i, state, fuel, fuel - 1);
  }

  /**
   The rewritten body returns what the original would return, and does what it would do, if each
   of its returns called the epilogue function first; and it returns only then.
   */
  lemma BodyMeansTheSame(
      l: Language, r: Rules, name: nat -> string, epilogue: Epilogue, fun: seq<string>, i: nat, state: int, result: Result)
    requires Understands(l, r, name, epilogue) && WellFormed(l, r, name, fun) && i < |fun| - 1
    ensures Returns(Calling(l, r, epilogue), fun, i, state, result) <==>
            Returns(l, Body(r, fun), Base(r, fun, i), state, result)
  {
    if Returns(Calling(l, r, epilogue), fun, i, state, result) {
      var fuel: nat :| Run(Calling(l, r, epilogue), fun, i, state, fuel) == Some(result);
      var enough := Forward(l, r, name, epilogue, fun, i, state, fuel);
    }
    if Returns(l, Body(r, fun), Base(r, fun, i), state, result) {
      var fuel: nat :| Run(l, Body(r, fun), Base(r, fun, i), state, fuel) == Some(result);
      Backward(l, r, name, epilogue, fun, i, state, fuel);
    }
  }

  // ---- The header line ----

  lemma {:induction false} FindPastHeader(l: Language, fun: seq<string>, header: string, x: string, i: nat)
    requires 1 <= i <= |fun|
    ensures Find(l, fun[0 := header], x, i) == Find(l, fun, x, i)
    decreases |fun| - i
  {
    if i < |fun| {
      FindPastHeader(l, fun, header, x, i + 1);
    }
  }

  lemma FindIgnoresHeader(l: Language, fun: seq<string>, header: string, x: string)
    requires fun != [] && Inert(l, fun[0]) && Inert(l, header)
    ensures Find(l, fun[0 := header], x, 0) == Find(l, fun, x, 0)
    ensures Find(l, fun, x, 0).Some? ==> Find(l, fun, x, 0).value >= 1
  {
    FindPastHeader(l, fun, header, x, 1);
    if Find(l, fun, x, 0).Some? {
      FoundDeclares(l, fun, x, 0);
    }
  }

  lemma {:induction false} RunIgnoresHeader(l: Language, fun: seq<string>, header: string, pc: nat, state: int, fuel: nat)
    requires fun != [] && Inert(l, fun[0]) && Inert(l, header) && pc >= 1
    ensures Run(l, fun[0 := header], pc, state, fuel) == Run(l, fun, pc, state, fuel)
    decreases fuel
  {
    if fuel > 0 && pc < |fun| {
      match l.exec(fun[pc], state) {
        case Next(state', _) => RunIgnoresHeader(l, fun, header, pc + 1, state', fuel - 1);
        case Jump(x, state', _) =>
          FindIgnoresHeader(l, fun, header, x);
          if Find(l, fun, x, 0).Some? {
            RunIgnoresHeader(l, fun, header, Find(l, fun, x, 0).value, state', fuel - 1);
          }
        case Return(_, _) =>
        case Stuck =>
      }
    }
  }

  /** A header that stays no instruction and no label may change freely. */
  ghost predicate HasHeader(l: Language, r: Rules, fun: seq<string>) {
    |fun| >= 3 && Inert(l, fun[0]) && Inert(l, r.header(fun[0])) && !r.isRet(r.header(fun[0]))
  }

  lemma HeaderStaysWellFormed(l: Language, r: Rules, name: nat -> string, fun: seq<string>)
    requires WellFormed(l, r, name, fun) && HasHeader(l, r, fun)
    ensures WellFormed(l, r, name, fun[0 := r.header(fun[0])])
  {
    var fun' := fun[0 := r.header(fun[0])];
    forall i, s: int | 0 <= i < |fun'| && l.exec(fun'[i], s).Jump?
      ensures Foreign(l, r, l.exec(fun'[i], s).name) && Find(l, fun', l.exec(fun'[i], s).name, 0).Some?
    {
      FindIgnoresHeader(l, fun, r.header(fun[0]), l.exec(fun[i], s).name);
    }
  }

  lemma InertStaysSo(l: Language, r: Rules, epilogue: Epilogue, line: string)
    requires Inert(l, line)
    ensures Inert(Calling(l, r, epilogue), line)
  {
    forall s: int
      ensures Calling(l, r, epilogue).exec(line, s).Stuck?
    {
      var s': int := Arrival(r, epilogue, line, s).0;
      assert l.exec(line, s').Stuck?;
      assert Calling(l, r, epilogue).exec(line, s) == After(Arrival(r, epilogue, line, s).1, l.exec(line, s'));
    }
  }

  /**
   What processDefine() makes of a function: it returns exactly when the original does, with the
   value and the effects of calling the epilogue function just before.
   */
  lemma MeansTheSame(
      l: Language, r: Rules, name: nat -> string, epilogue: Epilogue, fun: seq<string>, state: int, result: Result)
    requires Understands(l, r, name, epilogue) && WellFormed(l, r, name, fun) && HasHeader(l, r, fun)
    ensures Returns(Calling(l, r, epilogue), fun, 1, state, result) <==> Returns(l, Processed(r, fun), 1, state, result)
  {
    var fun', l' := fun[0 := r.header(fun[0])], Calling(l, r, epilogue);
    HeaderStaysWellFormed(l, r, name, fun);
    BodyMeansTheSame(l, r, name, epilogue, fun', 1, state, result);
    OtherPart(r, fun', 0);
    assert Base(r, fun', 1) == 1;
    InertStaysSo(l, r, epilogue, fun[0]);
    InertStaysSo(l, r, epilogue, r.header(fun[0]));
    forall fuel: nat
      ensures Run(l', fun', 1, state, fuel) == Run(l', fun, 1, state, fuel)
    {
      RunIgnoresHeader(l', fun, r.header(fun[0]), 1, state, fuel);
    }
  }

  /** Languages that agree on the lines of a function agree on its runs. */
  lemma {:induction false} RunIsByLines(l: Language, l': Language, fun: seq<string>, pc: nat, state: int, fuel: nat)
    requires l'.declares == l.declares && forall i, s: int :: 0 <= i < |fun| ==> l'.exec(fun[i], s) == l.exec(fun[i], s)
    ensures Run(l', fun, pc, state, fuel) == Run(l, fun, pc, state, fuel)
    decreases fuel
  {
    if fuel > 0 && pc < |fun| {
      match l.exec(fun[pc], state) {
        case Next(state', _) => RunIsByLines(l, l', fun, pc + 1, state', fuel - 1);
        case Jump(x, state', _) =>
          FindIsByName(l, l', fun, x, 0);
          if Find(l, fun, x, 0).Some? {
            RunIsByLines(l, l', fun, Find(l, fun, x, 0).value, state', fuel - 1);
          }
        case Return(_, _) =>
        case Stuck =>
      }
    }
  }
}
