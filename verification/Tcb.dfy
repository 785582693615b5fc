/**
 Virtual thread-control blocks: who may point the FS register where, and when a
 block is freed.  Models src/tcb.rs.  A block is the number `_dl_allocate_tls()`
 gave it; numbers are not reused, so that freeing can be counted.
 */
module Tcb {
  import opened Common

  const POINTER_GUARD: nat := 6
  const KERNEL_THREAD: nat := 90
  /** Words in a block: at least those that installing it touches. */
  const BLOCK_WORDS: nat := 91

  datatype MaybeMut = Ref(block: nat) | Mut(block: nat)

  /** A ThreadControlBlock; `None` once its contents have been taken. */
  type Tcb = Option<MaybeMut>

  datatype Guard = Guard(owned: Tcb, parent: Tcb)

  /** What is observable of a block's end: its destructors, with the block FS pointed to, and its release. */
  datatype Event = Destructors(block: nat) | Release(block: nat)

  /** The FS register, the live blocks, the next block to be allocated, and the history of releases. */
  datatype Cpu = Cpu(fs: nat, blocks: map<nat, seq<int>>, next: nat, log: seq<Event>)

  predicate Sane(c: Cpu) {
    c.fs in c.blocks && forall b <- c.blocks :: |c.blocks[b]| == BLOCK_WORDS && b < c.next
  }

  predicate Live(c: Cpu, t: Tcb) {
    t.Some? && t.value.block in c.blocks
  }

  function Inherit(words: seq<int>, from: seq<int>): seq<int>
    requires |words| == BLOCK_WORDS && |from| == BLOCK_WORDS
  {
    words[POINTER_GUARD := from[POINTER_GUARD]][KERNEL_THREAD := from[KERNEL_THREAD]]
  }

  /** ThreadControlBlock::new(): words 0 and 2 of the block point at the block. */
  function Allocated(c: Cpu, image: seq<int>): (r: Cpu)
    requires Sane(c) && |image| == BLOCK_WORDS
  {
    c.(blocks := c.blocks[c.next := image[0 := c.next][2 := c.next]], next := c.next + 1)
  }

  /** install_unguarded(): an owned block inherits two words from the current one. */
  function Installed(c: Cpu, t: Tcb): (r: Cpu)
    requires Sane(c) && Live(c, t)
    ensures Sane(r) && r.fs == t.value.block && r.blocks.Keys == c.blocks.Keys && r.next == c.next && r.log == c.log
    ensures forall b <- c.blocks :: b != r.fs ==> r.blocks[b] == c.blocks[b]
  {
    var b := t.value.block;
    if t.value.Mut? then c.(fs := b, blocks := c.blocks[b := Inherit(c.blocks[b], c.blocks[c.fs])]) else c.(fs := b)
  }

  /** unguarded_parent(): the block FS pointed to, if an owned one was installed over it. */
  function Parent(c: Cpu, t: Tcb): Tcb
    requires t.Some?
  {
    Some(Ref(if t.value.Mut? then c.fs else t.value.block))
  }

  /** A guard may be dropped: its parent is borrowed and live, and is not the block it would free. */
  predicate Droppable(c: Cpu, g: Guard) {
    Live(c, g.parent) && g.parent.value.Ref? &&
    (g.owned.Some? ==> Live(c, g.owned) && g.owned.value.block != g.parent.value.block)
  }

  /** Drop for ThreadControlBlock: an owned block is installed, so that its destructors can run, and freed. */
  function TcbDropped(c: Cpu, t: Tcb): Cpu
    requires Sane(c) && (t.Some? && t.value.Mut? ==> Live(c, t) && t.value.block != c.fs)
    decreases if t.Some? && t.value.Mut? then 2 else 0
  {
    if t.Some? && t.value.Mut? then GuardDropped(Installed(c, t), Guard(t, Parent(c, t))) else c
  }

  /** Drop for ThreadControlBlockGuard, then of its fields. */
  function GuardDropped(c: Cpu, g: Guard): Cpu
    requires Sane(c) && Droppable(c, g)
    decreases 1
  {
    if g.owned.Some? && g.owned.value.Mut? then
      var c' := Installed(c.(log := c.log + [Destructors(c.fs)]), g.parent);
      var c'' := c'.(blocks := c'.blocks - {g.owned.value.block}, log := c'.log + [Release(g.owned.value.block)]);
      TcbDropped(c'', g.parent)
    else
      TcbDropped(Installed(c, g.parent), g.parent)
  }

  /** uninstall(): the block leaves its guard, which is then dropped without it. */
  function Uninstalled(c: Cpu, g: Guard): Cpu
    requires Sane(c) && Droppable(c, g)
  {
    GuardDropped(c, g.(owned := None))
  }

  // ---- One block ----

  /** Dropping the guard of the installed block runs its destructors there, restores FS to the parent, and frees it. */
  lemma GuardDropFreesAndRestores(c: Cpu, b: nat, p: nat)
    requires Sane(c) && c.fs == b && p in c.blocks && p != b
    ensures GuardDropped(c, Guard(Some(Mut(b)), Some(Ref(p)))) ==
            c.(fs := p, blocks := c.blocks - {b}, log := c.log + [Destructors(b), Release(b)])
  {
    assert c.log + [Destructors(b)] + [Release(b)] == c.log + [Destructors(b), Release(b)];
  }

  /** Dropping an owned block that is not installed does the same, and leaves FS where it was. */
  lemma DropFreesAndRestores(c: Cpu, b: nat)
    requires Sane(c) && b in c.blocks && b != c.fs
    ensures TcbDropped(c, Some(Mut(b))) ==
            c.(blocks := c.blocks - {b}, log := c.log + [Destructors(b), Release(b)])
  {
    var c' := Installed(c, Some(Mut(b)));
    GuardDropFreesAndRestores(c', b, c.fs);
    assert c.blocks - {b} == c'.blocks - {b};
  }

  lemma UninstallRestores(c: Cpu, b: nat, p: nat)
    requires Sane(c) && b in c.blocks && p in c.blocks && p != b
    ensures Uninstalled(c, Guard(Some(Mut(b)), Some(Ref(p)))) == c.(fs := p)
  {
    assert Installed(c, Some(Ref(p))) == c.(fs := p);
    assert TcbDropped(c.(fs := p), Some(Ref(p))) == c.(fs := p);
  }

  /** All but words 6 and 90 of `words` is as in `was`, and those two are as in `from`. */
  ghost predicate Inherits(words: seq<int>, was: seq<int>, from: seq<int>) {
    && |words| == |was| == |from| == BLOCK_WORDS && words[6] == from[6] && words[90] == from[90]
    && forall w :: 0 <= w < BLOCK_WORDS && w != 6 && w != 90 ==> words[w] == was[w]
  }

  lemma InheritInherits(words: seq<int>, from: seq<int>)
    requires |words| == BLOCK_WORDS && |from| == BLOCK_WORDS
    ensures Inherits(Inherit(words, from), words, from)
  {
  }

  /** Installing an owned block and uninstalling it restores FS, and changes just two words, of just that block. */
  lemma InstallUninstallRoundTrip(c: Cpu, b: nat)
    requires Sane(c) && b in c.blocks && b != c.fs
    ensures var g := Guard(Some(Mut(b)), Parent(c, Some(Mut(b))));
            && Droppable(Installed(c, Some(Mut(b))), g)
            && Uninstalled(Installed(c, Some(Mut(b))), g) == c.(blocks := c.blocks[b := Inherit(c.blocks[b], c.blocks[c.fs])])
    ensures var c' := Uninstalled(Installed(c, Some(Mut(b))), Guard(Some(Mut(b)), Parent(c, Some(Mut(b)))));
            && c'.fs == c.fs && c'.blocks.Keys == c.blocks.Keys && c'.next == c.next && c'.log == c.log
            && (forall d <- c.blocks :: d != b ==> c'.blocks[d] == c.blocks[d])
            && Inherits(c'.blocks[b], c.blocks[b], c.blocks[c.fs])
  {
    UninstallRestores(Installed(c, Some(Mut(b))), b, c.fs);
    InheritInherits(c.blocks[b], c.blocks[c.fs]);
  }

  // ---- Any properly nested use ----

  /**
   A thread's use of its blocks: the base block that the system made, the guards of
   the installed ones, innermost last, the owned ones that are not installed, and
   whether an operation has failed.
   */
  datatype Nest = Nest(cpu: Cpu, base: nat, guards: seq<Guard>, idle: seq<nat>, failed: bool)

  datatype Op =
    | Create(image: seq<int>)
    | Install(index: nat)
    | Uninstall
    | DropGuard
    | DropTcb(index: nat)

  predicate Allowed(n: Nest, op: Op) {
    match op
    case Create(image) => |image| == BLOCK_WORDS
    case Install(i) => i < |n.idle|
    case Uninstall => n.guards != []
    case DropGuard => n.guards != []
    case DropTcb(i) => i < |n.idle|
  }

  function BlockOf(g: Guard): nat {
    if g.owned.Some? then g.owned.value.block else 0
  }

  /** The block FS should point to under these guards. */
  function Innermost(base: nat, guards: seq<Guard>): nat {
    if guards == [] then base else BlockOf(guards[|guards| - 1])
  }

  /** Each guard owns its block, and borrows the one installed before it. */
  ghost predicate Chained(base: nat, guards: seq<Guard>)
    decreases |guards|
  {
    guards == [] ||
    var rest := guards[..|guards| - 1];
    guards[|guards| - 1] == Guard(Some(Mut(Innermost(base, guards))), Some(Ref(Innermost(base, rest)))) &&
    Chained(base, rest)
  }

  function Blocks(guards: seq<Guard>): multiset<nat>
    decreases |guards|
  {
    if guards == [] then multiset{} else Blocks(guards[..|guards| - 1]) + multiset{BlockOf(guards[|guards| - 1])}
  }

  function Upto(n: nat): multiset<nat> {
    if n == 0 then multiset{} else Upto(n - 1) + multiset{n - 1}
  }

  /** The blocks released so far. */
  function Released(log: seq<Event>): multiset<nat>
    decreases |log|
  {
    if log == [] then multiset{}
    else Released(log[..|log| - 1]) +
         if log[|log| - 1].Release? then multiset{log[|log| - 1].block} else multiset{}
  }

  /** Every release comes right after the destructors ran with FS on that very block. */
  ghost predicate DestructorsFirst(log: seq<Event>)
    decreases |log|
  {
    log == [] ||
    (|log| >= 2 && log[|log| - 1].Release? && log[|log| - 2] == Destructors(log[|log| - 1].block) &&
     DestructorsFirst(log[..|log| - 2]))
  }

  /** Every owner's blocks, once each, are the live ones. */
  ghost predicate Owned(n: Nest) {
    multiset(n.cpu.blocks.Keys) == multiset{n.base} + Blocks(n.guards) + multiset(n.idle)
  }

  /** Live and released blocks are all that were ever allocated. */
  ghost predicate NoneLost(c: Cpu) {
    multiset(c.blocks.Keys) + Released(c.log) == Upto(c.next)
  }

  ghost predicate NestInv(n: Nest) {
    && !n.failed
    && Sane(n.cpu)
    && n.cpu.fs == Innermost(n.base, n.guards)
    && Chained(n.base, n.guards)
    && Owned(n)
    && NoneLost(n.cpu)
    && DestructorsFirst(n.cpu.log)
  }

  function Without(s: seq<nat>, i: nat): seq<nat>
    requires i < |s|
  {
    s[..i] + s[i + 1..]
  }

  lemma WithoutSplits(s: seq<nat>, i: nat)
    requires i < |s|
    ensures multiset(s) == multiset(Without(s, i)) + multiset{s[i]}
  {
    assert s == s[..i] + [s[i]] + s[i + 1..];
  }

  /** An idle block is live, and is not the one FS points to. */
  lemma IdleIsLive(n: Nest, i: nat)
    requires NestInv(n) && i < |n.idle|
    ensures n.idle[i] in n.cpu.blocks && n.idle[i] != n.cpu.fs
  {
    var b := n.idle[i];
    assert b in multiset(n.idle);
    assert b in multiset(n.cpu.blocks.Keys);
    InnermostIsOwned(n.base, n.guards);
    assert multiset(n.cpu.blocks.Keys)[n.cpu.fs] == 1;
  }

  lemma InnermostIsOwned(base: nat, guards: seq<Guard>)
    ensures Innermost(base, guards) in multiset{base} + Blocks(guards)
  {
  }

  lemma TopGuard(n: Nest)
    requires NestInv(n) && n.guards != []
    ensures var b := n.cpu.fs;
            var p := Innermost(n.base, n.guards[..|n.guards| - 1]);
            n.guards[|n.guards| - 1] == Guard(Some(Mut(b)), Some(Ref(p))) && p in n.cpu.blocks && p != b
  {
    var rest := n.guards[..|n.guards| - 1];
    var b, p := n.cpu.fs, Innermost(n.base, rest);
    InnermostIsOwned(n.base, rest);
    assert multiset(n.cpu.blocks.Keys) == (multiset{n.base} + Blocks(rest)) + multiset{b} + multiset(n.idle);
    assert p in multiset(n.cpu.blocks.Keys);
    assert multiset(n.cpu.blocks.Keys)[b] <= 1;
  }

  /** What the operation needs: its blocks live, and a guard that can be dropped. */
  predicate Demands(n: Nest, op: Op)
    requires Allowed(n, op)
  {
    Sane(n.cpu) &&
    match op
    case Create(_) => true
    case Install(i) => n.idle[i] in n.cpu.blocks && n.idle[i] != n.cpu.fs
    case Uninstall => Droppable(n.cpu, n.guards[|n.guards| - 1])
    case DropGuard => Droppable(n.cpu, n.guards[|n.guards| - 1])
    case DropTcb(i) => n.idle[i] in n.cpu.blocks && n.idle[i] != n.cpu.fs
  }

  function Perform(n: Nest, op: Op): Nest
    requires Allowed(n, op)
  {
    if !Demands(n, op) then n.(failed := true)
    else
      match op
      case Create(image) => n.(cpu := Allocated(n.cpu, image), idle := n.idle + [n.cpu.next])
      case Install(i) =>
        var t := Some(Mut(n.idle[i]));
        n.(cpu := Installed(n.cpu, t), guards := n.guards + [Guard(t, Parent(n.cpu, t))], idle := Without(n.idle, i))
      case Uninstall =>
        var g := n.guards[|n.guards| - 1];
        n.(cpu := Uninstalled(n.cpu, g), guards := n.guards[..|n.guards| - 1], idle := n.idle + [BlockOf(g)])
      case DropGuard =>
        n.(cpu := GuardDropped(n.cpu, n.guards[|n.guards| - 1]), guards := n.guards[..|n.guards| - 1])
      case DropTcb(i) =>
        n.(cpu := TcbDropped(n.cpu, Some(Mut(n.idle[i]))), idle := Without(n.idle, i))
  }

  lemma AllocationAddsBlock(c: Cpu, image: seq<int>)
    requires Sane(c) && |image| == BLOCK_WORDS
    ensures Sane(Allocated(c, image))
    ensures multiset(Allocated(c, image).blocks.Keys) == multiset(c.blocks.Keys) + multiset{c.next}
  {
    assert Allocated(c, image).blocks.Keys == c.blocks.Keys + {c.next};
  }

  lemma CreateKeepsOwned(n: Nest, image: seq<int>)
    requires Owned(n) && Sane(n.cpu) && |image| == BLOCK_WORDS
    ensures Owned(n.(cpu := Allocated(n.cpu, image), idle := n.idle + [n.cpu.next]))
  {
    AllocationAddsBlock(n.cpu, image);
    assert multiset(n.idle + [n.cpu.next]) == multiset(n.idle) + multiset{n.cpu.next};
    Associate(multiset{n.base} + Blocks(n.guards), multiset(n.idle), multiset{n.cpu.next});
  }

  lemma CreateLosesNone(c: Cpu, image: seq<int>)
    requires NoneLost(c) && Sane(c) && |image| == BLOCK_WORDS
    ensures NoneLost(Allocated(c, image))
  {
    AllocationAddsBlock(c, image);
    Exchange(multiset(c.blocks.Keys), multiset{c.next}, Released(c.log));
  }

  lemma CreateKeepsInv(n: Nest, image: seq<int>)
    requires NestInv(n) && |image| == BLOCK_WORDS
    ensures NestInv(Perform(n, Create(image)))
  {
    AllocationAddsBlock(n.cpu, image);
    CreateKeepsOwned(n, image);
    CreateLosesNone(n.cpu, image);
  }

  lemma Associate(a: multiset<nat>, b: multiset<nat>, c: multiset<nat>)
    ensures a + b + c == a + (b + c)
  {
  }

  lemma Exchange(a: multiset<nat>, b: multiset<nat>, c: multiset<nat>)
    ensures a + b + c == a + c + b
  {
  }

  lemma PushGuard(base: nat, guards: seq<Guard>, g: Guard)
    ensures Blocks(guards + [g]) == Blocks(guards) + multiset{BlockOf(g)}
    ensures Innermost(base, guards + [g]) == BlockOf(g)
    ensures Chained(base, guards) && g == Guard(Some(Mut(BlockOf(g))), Some(Ref(Innermost(base, guards)))) ==>
            Chained(base, guards + [g])
  {
    assert (guards + [g])[..|guards|] == guards;
  }

  lemma InstallKeepsInv(n: Nest, i: nat)
    requires NestInv(n) && i < |n.idle|
    ensures NestInv(Perform(n, Install(i)))
  {
    IdleIsLive(n, i);
    var t := Some(Mut(n.idle[i]));
    PushGuard(n.base, n.guards, Guard(t, Parent(n.cpu, t)));
    WithoutSplits(n.idle, i);
    assert multiset(n.cpu.blocks.Keys)
        == multiset{n.base} + (Blocks(n.guards) + multiset{n.idle[i]}) + multiset(Without(n.idle, i));
  }

  lemma UninstallKeepsInv(n: Nest)
    requires NestInv(n) && n.guards != []
    ensures NestInv(Perform(n, Uninstall))
  {
    var rest := n.guards[..|n.guards| - 1];
    var b, p := n.cpu.fs, Innermost(n.base, rest);
    TopGuard(n);
    UninstallRestores(n.cpu, b, p);
    assert multiset(n.idle + [b]) == multiset(n.idle) + multiset{b};
    assert multiset{n.base} + (Blocks(rest) + multiset{b}) + multiset(n.idle)
        == multiset{n.base} + Blocks(rest) + (multiset(n.idle) + multiset{b});
  }

  lemma LogRelease(log: seq<Event>, b: nat)
    ensures Released(log + [Destructors(b), Release(b)]) == Released(log) + multiset{b}
    ensures DestructorsFirst(log) ==> DestructorsFirst(log + [Destructors(b), Release(b)])
  {
    var log' := log + [Destructors(b), Release(b)];
    assert log'[..|log| + 1] == log + [Destructors(b)];
    assert (log + [Destructors(b)])[..|log|] == log && log'[..|log|] == log;
  }

  /** Releasing block `b` of `cpu`, wherever FS then points. */
  function Freed(c: Cpu, b: nat, fs: nat): Cpu {
    c.(fs := fs, blocks := c.blocks - {b}, log := c.log + [Destructors(b), Release(b)])
  }

  lemma FreeRemovesBlock(c: Cpu, b: nat, fs: nat)
    requires Sane(c) && NoneLost(c) && b in c.blocks && fs in c.blocks && fs != b
    ensures Sane(Freed(c, b, fs)) && NoneLost(Freed(c, b, fs))
    ensures multiset(Freed(c, b, fs).blocks.Keys) + multiset{b} == multiset(c.blocks.Keys)
  {
    LogRelease(c.log, b);
    var keys := multiset(Freed(c, b, fs).blocks.Keys);
    assert keys + multiset{b} == multiset(c.blocks.Keys);
    assert keys + (Released(c.log) + multiset{b}) == keys + multiset{b} + Released(c.log);
  }

  /** Releasing a block that its owner gives up keeps the account. */
  lemma FreeKeepsInv(n: Nest, b: nat, n': Nest)
    requires NestInv(n) && b in n.cpu.blocks && n'.base == n.base && !n'.failed
    requires n'.cpu == Freed(n.cpu, b, n'.cpu.fs) && n'.cpu.fs in n.cpu.blocks && n'.cpu.fs != b
    requires n'.cpu.fs == Innermost(n'.base, n'.guards) && Chained(n'.base, n'.guards)
    requires Blocks(n.guards) + multiset(n.idle) == Blocks(n'.guards) + multiset(n'.idle) + multiset{b}
    ensures NestInv(n')
  {
    FreeRemovesBlock(n.cpu, b, n'.cpu.fs);
    LogRelease(n.cpu.log, b);
    GivesUp(multiset(n'.cpu.blocks.Keys), multiset{n.base}, Blocks(n.guards), multiset(n.idle),
            Blocks(n'.guards), multiset(n'.idle), multiset{b});
  }

  lemma GivesUp(keys: multiset<nat>, base: multiset<nat>, g: multiset<nat>, i: multiset<nat>,
                g': multiset<nat>, i': multiset<nat>, b: multiset<nat>)
    requires keys + b == base + g + i && g + i == g' + i' + b
    ensures keys == base + g' + i'
  {
    assert base + g + i == base + (g + i);
    assert base + (g' + i' + b) == base + g' + i' + b;
    assert keys == keys + b - b;
  }

  lemma DropGuardKeepsInv(n: Nest)
    requires NestInv(n) && n.guards != []
    ensures NestInv(Perform(n, DropGuard))
  {
    var rest := n.guards[..|n.guards| - 1];
    TopGuard(n);
    GuardDropFreesAndRestores(n.cpu, n.cpu.fs, Innermost(n.base, rest));
    assert Blocks(n.guards) + multiset(n.idle) == Blocks(rest) + multiset(n.idle) + multiset{n.cpu.fs};
    FreeKeepsInv(n, n.cpu.fs, Perform(n, DropGuard));
  }

  lemma DropTcbKeepsInv(n: Nest, i: nat)
    requires NestInv(n) && i < |n.idle|
    ensures NestInv(Perform(n, DropTcb(i)))
  {
    IdleIsLive(n, i);
    DropFreesAndRestores(n.cpu, n.idle[i]);
    WithoutSplits(n.idle, i);
    FreeKeepsInv(n, n.idle[i], Perform(n, DropTcb(i)));
  }

  lemma PerformKeepsInv(n: Nest, op: Op)
    requires NestInv(n) && Allowed(n, op)
    ensures NestInv(Perform(n, op))
  {
    match op
    case Create(image) => CreateKeepsInv(n, image);
    case Install(i) => InstallKeepsInv(n, i);
    case Uninstall => UninstallKeepsInv(n);
    case DropGuard => DropGuardKeepsInv(n);
    case DropTcb(i) => DropTcbKeepsInv(n, i);
  }

  function NewNest(words: seq<int>): Nest {
    Nest(Cpu(0, map[0 := words], 1, []), 0, [], [], false)
  }

  ghost predicate IsRun(run: seq<Nest>, ops: seq<Op>) {
    && |run| == |ops| + 1
    && (exists words: seq<int> | |words| == BLOCK_WORDS :: run[0] == NewNest(words))
    && forall k :: 0 <= k < |ops| ==> Allowed(run[k], ops[k]) && run[k + 1] == Perform(run[k], ops[k])
  }

  lemma NewNestInv(words: seq<int>)
    requires |words| == BLOCK_WORDS
    ensures NestInv(NewNest(words))
  {
    assert Upto(1) == multiset{0};
    assert multiset(NewNest(words).cpu.blocks.Keys) == multiset{0};
  }

  lemma EveryNestIsSound(run: seq<Nest>, ops: seq<Op>, k: nat)
    requires IsRun(run, ops) && k < |run|
    ensures NestInv(run[k])
  {
    var words: seq<int> :| |words| == BLOCK_WORDS && run[0] == NewNest(words);
    NewNestInv(words);
    for j := 0 to k
      invariant NestInv(run[j])
    {
      PerformKeepsInv(run[j], ops[j]);
    }
  }

  /**
   Over any properly nested use: nothing fails, FS always points at a live block, every
   block is released at most once and only after its destructors ran while FS pointed
   to it, and none is lost.
   */
  lemma FsIsAlwaysSafe(run: seq<Nest>, ops: seq<Op>, k: nat, b: nat)
    requires IsRun(run, ops) && k < |run|
    ensures !run[k].failed
    ensures run[k].cpu.fs in run[k].cpu.blocks
    ensures DestructorsFirst(run[k].cpu.log)
    ensures Released(run[k].cpu.log)[b] <= 1
    ensures b < run[k].cpu.next ==> (b in run[k].cpu.blocks <==> b !in Released(run[k].cpu.log))
  {
    EveryNestIsSound(run, ops, k);
    UptoOnce(run[k].cpu.next, b);
  }

  lemma {:induction false} UptoOnce(n: nat, b: nat)
    ensures Upto(n)[b] == (if b < n then 1 else 0)
    decreases n
  {
    if n > 0 {
      UptoOnce(n - 1, b);
    }
  }

  // ---- The register and the blocks as the thread has them ----

  class Thread {
    var fs: nat
    var blocks: map<nat, seq<int>>
    var next: nat
    var log: seq<Event>

    function State(): Cpu
      reads this
    {
      Cpu(fs, blocks, next, log)
    }

    constructor (words: seq<int>)
      requires |words| == BLOCK_WORDS
      ensures State() == NewNest(words).cpu
    {
      fs, blocks, next, log := 0, map[0 := words], 1, [];
    }

    method New(image: seq<int>) returns (t: Tcb)
      requires Sane(State()) && |image| == BLOCK_WORDS
      modifies this
      ensures State() == Allocated(old(State()), image) && t == Some(Mut(old(next)))
      ensures var b := t.value.block;
              && b !in old(blocks) && blocks.Keys == old(blocks).Keys + {b} && fs == old(fs) && log == old(log)
              && (forall d <- old(blocks) :: blocks[d] == old(blocks)[d])
              && |blocks[b]| == |image| && blocks[b][0] == b && blocks[b][2] == b
              && forall w :: 0 <= w < |image| && w != 0 && w != 2 ==> blocks[b][w] == image[w]
    {
      t := Some(Mut(next));
      blocks := blocks[next := image[0 := next][2 := next]];
      next := next + 1;
    }

    /** Returns the block that was current, borrowed, if an owned one was installed over it. */
    method InstallUnguarded(t: Tcb) returns (cur: Tcb)
      requires Sane(State()) && Live(State(), t)
      modifies this`fs, this`blocks
      ensures State() == Installed(old(State()), t)
      ensures cur == if t.value.Mut? then Some(Ref(old(fs))) else None
      ensures fs == t.value.block && t.value.block in blocks
      ensures if t.value.Mut? then Inherits(blocks[fs], old(blocks)[t.value.block], old(blocks)[old(fs)])
              else blocks == old(blocks)
    {
      cur := None;
      if t.value.Mut? {
        cur := Some(Ref(fs));
        var words, current := blocks[t.value.block], blocks[fs];
        words := words[POINTER_GUARD := current[POINTER_GUARD]];
        words := words[KERNEL_THREAD := current[KERNEL_THREAD]];
        InheritInherits(blocks[t.value.block], current);
        blocks := blocks[t.value.block := words];
      }
      fs := t.value.block;
    }

    method InstallGuarded(t: Tcb) returns (g: Guard)
      requires Sane(State()) && Live(State(), t)
      modifies this`fs, this`blocks
      ensures State() == Installed(old(State()), t) && g == Guard(t, Parent(old(State()), t))
    {
      var cur := InstallUnguarded(t);
      g := Guard(t, if cur.Some? then cur else Some(Ref(fs)));
    }

    method UninstallGuard(g: Guard) returns (t: Tcb)
      requires Sane(State()) && Droppable(State(), g)
      modifies this
      ensures State() == Uninstalled(old(State()), g) && t == g.owned
    {
      t := g.owned;
      DropTheGuard(g.(owned := None));
    }

    method DropTheTcb(t: Tcb)
      requires Sane(State()) && (t.Some? && t.value.Mut? ==> Live(State(), t) && t.value.block != fs)
      modifies this
      ensures State() == TcbDropped(old(State()), t)
      decreases if t.Some? && t.value.Mut? then 2 else 0
    {
      if t.Some? && t.value.Mut? {
        var g := InstallGuarded(t);
        DropTheGuard(g);
      }
    }

    method DropTheGuard(g: Guard)
      requires Sane(State()) && Droppable(State(), g)
      modifies this
      ensures State() == GuardDropped(old(State()), g)
      decreases 1
    {
      var dealloc := None;
      if g.owned.Some? && g.owned.value.Mut? {
        log := log + [Destructors(fs)];
        dealloc := Some(g.owned.value.block);
      }
      var _ := InstallUnguarded(g.parent);
      if dealloc.Some? {
        blocks := blocks - {dealloc.value};
        log := log + [Release(dealloc.value)];
      }
      DropTheTcb(None);
      DropTheTcb(g.parent);
    }
  }
}
