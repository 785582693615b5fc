/**
 The LLVM IR rewriter of compiler/ingerc.ts: before every return of a function, an
 invoke of the epilogue function, so that llc has to emit exception tables for it.
 */
module IngercTs {
  import opened Common
  import opened Rewriting
  import opened Text

  // ---- Matching lines ----

  predicate IsWord(c: char) {
    'a' <= c <= 'z' || 'A' <= c <= 'Z' || '0' <= c <= '9' || c == '_'
  }

  /** /^  ret\b/ */
  predicate IsRet(line: string) {
    StartsWith(line, "  ret") && (|line| == 5 || !IsWord(line[5]))
  }

  /** /^cleanup:/ */
  predicate IsCleanup(line: string) {
    StartsWith(line, "cleanup:")
  }

  // ---- The inserted lines ----

  function Digit(n: nat): char
    requires n < 10
  {
    "0123456789"[n]
  }

  function Decimal(n: nat): (s: string)
    ensures s != [] && forall c <- s :: '0' <= c <= '9'
  {
    if n < 10 then [Digit(n)] else Decimal(n / 10) + [Digit(n % 10)]
  }

  function Label(n: nat): string {
    "ingerc" + Decimal(n)
  }

  function LabelLine(n: nat): string {
    Label(n) + ":"
  }

  function InvokeLine(epilogue: string, n: nat): string {
    "  invoke void @\"" + epilogue + "\"() to label %" + Label(n) + " unwind label %cleanup"
  }

  const CLEANUP: seq<string> := [
    "cleanup:",
    "  %ingerc = landingpad { i8*, i32 } cleanup",
    "  resume { i8*, i32 } %ingerc"
  ]

  // ---- The header ----

  const PERSONALITY: string :=
    "personality i32 (i32, i32, i64, %\"unwind::libunwind::_Unwind_Exception\"*, %\"unwind::libunwind::_Unwind_Context\"*)* @rust_eh_personality "

  /** /\bpersonality\b/ matches at `i`. */
  predicate PersonalityAt(line: string, i: nat) {
    OccursAt(line, "personality", i) &&
    (i == 0 || !IsWord(line[i - 1])) && (i + 11 == |line| || !IsWord(line[i + 11]))
  }

  predicate HasPersonality(line: string) {
    exists i: nat :: i < |line| && PersonalityAt(line, i)
  }

  predicate EndsLine(c: char) {
    c == '\n' || c == '\r' || c == '\U{2028}' || c == '\U{2029}'
  }

  /** /(!dbg .+)?{$/ matches at `i` of a line that ends with a brace. */
  predicate BraceMatch(line: string, i: nat) {
    i + 1 == |line| ||
    (i + 7 <= |line| && OccursAt(line, "!dbg ", i) && forall k :: i + 5 <= k < |line| - 1 ==> !EndsLine(line[k]))
  }

  /** The leftmost match from `i` on. */
  function FirstMatch(line: string, i: nat): (r: nat)
    requires i < |line|
    ensures i <= r < |line| && BraceMatch(line, r)
    ensures forall j :: i <= j < r ==> !BraceMatch(line, j)
    decreases |line| - i
  {
    if BraceMatch(line, i) then i else FirstMatch(line, i + 1)
  }

  function Header(line: string): string {
    if HasPersonality(line) || line == [] || line[|line| - 1] != '{' then line
    else line[..FirstMatch(line, 0)] + PERSONALITY + line[FirstMatch(line, 0)..]
  }

  function Ingerc(epilogue: string): Rules {
    Rules(Header, IsRet, IsCleanup, (n: nat) => InvokeLine(epilogue, n), LabelLine, CLEANUP)
  }

  // ---- Labels ----

  function DigitValue(c: char): int {
    c as int - '0' as int
  }

  function Number(s: string): int {
    if s == [] then 0 else Number(s[..|s| - 1]) * 10 + DigitValue(s[|s| - 1])
  }

  /** Different numbers are written differently. */
  lemma {:induction false} NumberOfDecimal(n: nat)
    ensures Number(Decimal(n)) == n
    decreases n
  {
    if n < 10 {
      assert Decimal(n)[..0] == [];
    } else {
      NumberOfDecimal(n / 10);
      assert Decimal(n)[..|Decimal(n)| - 1] == Decimal(n / 10);
    }
  }

  /** A name that can be a label: either in quotes, or without spaces and colons. */
  predicate IsName(x: string) {
    x != [] && (x[0] == '\"' || (' ' !in x && ':' !in x))
  }

  predicate Declares(line: string, x: string) {
    IsName(x) && StartsWith(line, x + ":")
  }

  /** The line has the name, and then a colon. */
  lemma DeclaresAt(line: string, x: string)
    requires Declares(line, x)
    ensures |line| > |x| && line[..|x|] == x && line[|x|] == ':' && line[0] == x[0]
  {
    assert line[..|x| + 1] == x + ":";
    assert line[|x|] == (x + ":")[|x|];
    assert line[..|x|] == (x + ":")[..|x|];
  }

  lemma LabelChars(n: nat)
    ensures Label(n)[0] == 'i' && ':' !in Label(n) && ' ' !in Label(n)
  {
  }

  lemma LabelIsOneName(m: nat, n: nat)
    requires Label(m) == Label(n)
    ensures m == n
  {
    assert Label(m)[6..] == Decimal(m) && Label(n)[6..] == Decimal(n);
    NumberOfDecimal(m);
    NumberOfDecimal(n);
  }

  /** A label line declares its own label and no other name. */
  lemma LabelLineDeclares(n: nat, x: string)
    ensures Declares(LabelLine(n), x) <==> x == Label(n)
  {
    LabelChars(n);
    var line := LabelLine(n);
    assert line[..|Label(n)|] == Label(n);
    assert forall k :: 0 <= k < |Label(n)| ==> line[k] == Label(n)[k];
    if Declares(line, x) {
      DeclaresAt(line, x);
      assert |x| == |Label(n)|;
    }
  }

  /** Indented lines declare nothing. */
  lemma IndentedDeclaresNothing(line: string, x: string)
    requires line != [] && line[0] == ' '
    ensures !Declares(line, x)
  {
    if Declares(line, x) {
      DeclaresAt(line, x);
    }
  }

  lemma InvokeIsIndented(epilogue: string, n: nat)
    ensures InvokeLine(epilogue, n) != [] && InvokeLine(epilogue, n)[0] == ' '
  {
  }

  const DEFINE: string := "define "

  lemma DefineChar(line: string, i: nat)
    requires StartsWith(line, DEFINE) && i < 7
    ensures line[i] == DEFINE[i] && line[i] != '{' && line[i] != '!' && line[i] != ':' && line[0] == 'd' && line[6] == ' '
  {
    assert line[i] == line[..7][i] && line[0] == line[..7][0] && line[6] == line[..7][6];
  }

  lemma DefineDeclaresNothing(line: string, x: string)
    requires StartsWith(line, DEFINE)
    ensures !Declares(line, x)
  {
    DefineChar(line, 0);
    if Declares(line, x) {
      DeclaresAt(line, x);
      assert forall k :: 0 <= k < |x| ==> x[k] == line[k];
      if |x| < 7 {
        DefineChar(line, |x|);
      }
    }
  }

  lemma MatchBegins(line: string, r: nat)
    requires r < |line| && line[|line| - 1] == '{' && BraceMatch(line, r)
    ensures line[r] == '{' || line[r] == '!'
  {
    if r + 1 != |line| {
      assert line[r] == line[r..r + 5][0];
    }
  }

  /** The personality goes in somewhere after `define `. */
  lemma HeaderKeepsDefine(line: string)
    requires StartsWith(line, DEFINE)
    ensures StartsWith(Header(line), DEFINE) && !IsRet(Header(line))
  {
    if Header(line) != line {
      var r := FirstMatch(line, 0);
      MatchBegins(line, r);
      if r < 7 {
        DefineChar(line, r);
      }
      assert Header(line)[..7] == line[..7];
    }
    DefineChar(Header(line), 0);
    if IsRet(Header(line)) {
      RetIsIndented(Header(line));
    }
  }

  // ---- The loop, on this text ----

  lemma RetIsIndented(line: string)
    requires IsRet(line)
    ensures line != [] && line[0] == ' '
  {
    assert line[..5][0] == ' ';
  }

  lemma CleanupIsNot(line: string)
    requires IsCleanup(line)
    ensures line != [] && line[0] == 'c'
  {
    assert line[..8][0] == 'c';
  }

  lemma NotBoth(line: string)
    ensures !(IsRet(line) && IsCleanup(line))
  {
    if IsRet(line) {
      RetIsIndented(line);
    }
    if IsCleanup(line) {
      CleanupIsNot(line);
    }
  }

  method ProcessLines(epilogue: string, input: seq<string>) returns (fun: seq<string>)
    requires input != []
    ensures fun == Processed(Ingerc(epilogue), input)
    ensures input[|input| - 1] == "}" ==>
              forall p: nat :: p < |fun| && (fun[p] == "  ret" || StartsWith(fun[p], "  ret ")) ==>
                IsGuarded(epilogue, fun, p)
  {
    forall line
      ensures !(IsRet(line) && IsCleanup(line))
    {
      NotBoth(line);
    }
    fun := ProcessDefine(Ingerc(epilogue), input);
    if input[|input| - 1] == "}" {
      forall p: nat | p < |fun| && (fun[p] == "  ret" || StartsWith(fun[p], "  ret "))
        ensures IsGuarded(epilogue, fun, p)
      {
        ReturnsAreGuarded(epilogue, input, p);
      }
    }
  }

  // ---- The result, line by line ----

  /** The two lines before line `p`, and their number: what every return is to have. */
  ghost predicate IsGuarded(epilogue: string, out: seq<string>, p: nat) {
    && 2 <= p < |out|
    && var ok :=
         && out[p - 2] == "  invoke void @\"" + epilogue + "\"() to label %ingerc" + Decimal(p - 2) + " unwind label %cleanup"
         && out[p - 1] == "ingerc" + Decimal(p - 2) + ":";
       ok
  }

  /** An invoke of a function without result or arguments. */
  predicate IsInvoke(line: string) {
    StartsWith(line, "  invoke void @\"")
  }

  lemma CharOf(line: string, prefix: string, i: nat)
    requires StartsWith(line, prefix) && i < |prefix|
    ensures i < |line| && line[i] == prefix[i]
  {
    assert line[i] == line[..|prefix|][i];
  }

  lemma InvokeIsNoReturn(epilogue: string, n: nat)
    ensures !StartsWith(InvokeLine(epilogue, n), "  ret")
  {
    assert InvokeLine(epilogue, n)[2] == 'i';
    if StartsWith(InvokeLine(epilogue, n), "  ret") {
      CharOf(InvokeLine(epilogue, n), "  ret", 2);
    }
  }

  lemma LabelLineIsNoReturn(n: nat)
    ensures !StartsWith(LabelLine(n), "  ret") && !IsInvoke(LabelLine(n))
  {
    assert LabelLine(n)[0] == 'i';
    if StartsWith(LabelLine(n), "  ret") {
      CharOf(LabelLine(n), "  ret", 0);
    }
    if IsInvoke(LabelLine(n)) {
      CharOf(LabelLine(n), "  invoke void @\"", 0);
    }
  }

  /** The fifth character tells `  resume` from `  ret`. */
  lemma CleanupIsNoReturn(line: string)
    requires line in CLEANUP
    ensures !StartsWith(line, "  ret") && !IsInvoke(line)
  {
    assert line[4] == 'n' || line[4] == 'n' || line[4] == 's';
    assert line[2] == 'e' || line[2] == '%' || line[2] == 'r';
    if StartsWith(line, "  ret") {
      CharOf(line, "  ret", 4);
    }
    if IsInvoke(line) {
      CharOf(line, "  invoke void @\"", 2);
    }
  }

  lemma BraceIsNoReturn()
    ensures !IsRet("}") && Header("}") == "}"
  {
    if IsRet("}") {
      RetIsIndented("}");
    }
  }

  /** The lines that the loop works on. */
  function Headed(fun: seq<string>): seq<string>
    requires fun != []
  {
    fun[0 := Header(fun[0])]
  }

  lemma LastIsBrace(fun: seq<string>)
    requires fun != [] && fun[|fun| - 1] == "}"
    ensures !IsRet(Headed(fun)[|fun| - 1])
  {
    BraceIsNoReturn();
  }

  lemma ExplainedOutput(epilogue: string, fun: seq<string>, p: nat)
    requires fun != [] && fun[|fun| - 1] == "}" && p < |Processed(Ingerc(epilogue), fun)|
    ensures Explained(Ingerc(epilogue), Headed(fun), Processed(Ingerc(epilogue), fun), p)
  {
    LastIsBrace(fun);
    EveryLineIsExplained(Ingerc(epilogue), Headed(fun), p);
  }

  lemma PartIsGuarded(epilogue: string, out: seq<string>, p: nat)
    requires p >= 2 && IsReturnPart(Ingerc(epilogue), out, p - 2)
    ensures IsGuarded(epilogue, out, p)
  {
    var n: nat := p - 2;
    assert out[n] == InvokeLine(epilogue, n) && out[n + 1] == LabelLine(n);
    assert InvokeLine(epilogue, n)
        == "  invoke void @\"" + epilogue + "\"() to label %ingerc" + Decimal(n) + " unwind label %cleanup";
    assert LabelLine(n) == "ingerc" + Decimal(n) + ":";
  }

  /** What the lines of a return's part are not. */
  lemma PartIsDistinct(epilogue: string, out: seq<string>, b: nat)
    requires IsReturnPart(Ingerc(epilogue), out, b)
    ensures !IsRet(out[b]) && !IsRet(out[b + 1]) && IsRet(out[b + 2])
    ensures !IsInvoke(out[b + 1]) && !IsInvoke(out[b + 2])
  {
    InvokeIsNoReturn(epilogue, b);
    LabelLineIsNoReturn(b);
    RetIsNoInvoke(out[b + 2]);
  }

  lemma PrintedReturn(line: string)
    requires StartsWith(line, "  ret") ==> line == "  ret" || StartsWith(line, "  ret ")
    ensures IsRet(line) <==> StartsWith(line, "  ret")
  {
    if StartsWith(line, "  ret ") {
      assert line[5] == line[..6][5];
    }
  }

  /** A line that is neither an original one nor of the cleanup block is part of a return. */
  lemma PartOf(epilogue: string, lines: seq<string>, out: seq<string>, p: nat) returns (b: nat)
    requires p < |out| && Explained(Ingerc(epilogue), lines, out, p)
    requires !(out[p] in lines && !IsRet(out[p])) && out[p] !in CLEANUP
    ensures b <= p <= b + 2 && IsReturnPart(Ingerc(epilogue), out, b)
  {
    assert Ingerc(epilogue).cleanup == CLEANUP && Ingerc(epilogue).isRet(out[p]) == IsRet(out[p]);
    b :| b <= p <= b + 2 && IsReturnPart(Ingerc(epilogue), out, b);
  }

  lemma NotCleanup(line: string)
    requires IsRet(line) || IsInvoke(line)
    ensures line !in CLEANUP
  {
    if line in CLEANUP {
      CleanupIsNoReturn(line);
    }
  }

  lemma IngercInsertsNoReturn(epilogue: string)
    ensures InsertsNoReturn(Ingerc(epilogue))
  {
    forall n: nat
      ensures !IsRet(InvokeLine(epilogue, n)) && !IsRet(LabelLine(n))
    {
      InvokeIsNoReturn(epilogue, n);
      LabelLineIsNoReturn(n);
    }
    forall line | line in CLEANUP
      ensures !IsRet(line)
    {
      CleanupIsNoReturn(line);
    }
  }

  lemma InvokeBeginsPart(epilogue: string, lines: seq<string>, out: seq<string>, p: nat)
    requires p < |out| && Explained(Ingerc(epilogue), lines, out, p) && out[p] !in lines && IsInvoke(out[p])
    ensures IsReturnPart(Ingerc(epilogue), out, p)
  {
    NotCleanup(out[p]);
    var b := PartOf(epilogue, lines, out, p);
    PartIsDistinct(epilogue, out, b);
  }

  /**
   In whatever the loop makes of a function, every return has, right before it, a label and an
   invoke of the epilogue function that goes on to that label; both have the invoke's index for
   their number.
   */
  lemma ReturnsAreGuarded(epilogue: string, fun: seq<string>, p: nat)
    requires fun != [] && fun[|fun| - 1] == "}" && p < |Processed(Ingerc(epilogue), fun)|
    requires var line := Processed(Ingerc(epilogue), fun)[p]; line == "  ret" || StartsWith(line, "  ret ")
    ensures IsGuarded(epilogue, Processed(Ingerc(epilogue), fun), p)
  {
    var out := Processed(Ingerc(epilogue), fun);
    ExplainedOutput(epilogue, fun, p);
    PrintedReturn(out[p]);
    RetStarts(out[p]);
    IngercInsertsNoReturn(epilogue);
    ReturnEndsPart(Ingerc(epilogue), Headed(fun), out, p);
    PartIsGuarded(epilogue, out, p);
  }

  lemma RetStarts(line: string)
    requires line == "  ret" || StartsWith(line, "  ret ")
    ensures StartsWith(line, "  ret")
  {
    if StartsWith(line, "  ret ") {
      assert line[..5] == line[..6][..5] == "  ret";
    }
  }

  lemma HeaderIsNoInvoke(line: string)
    requires StartsWith(line, DEFINE)
    ensures !IsInvoke(Header(line))
  {
    HeaderKeepsDefine(line);
    CharOf(Header(line), DEFINE, 0);
    if IsInvoke(Header(line)) {
      CharOf(Header(line), "  invoke void @\"", 0);
    }
  }

  lemma InvokeIsOld(fun: seq<string>, line: string)
    requires fun != [] && StartsWith(fun[0], DEFINE) && line in Headed(fun) && IsInvoke(line)
    ensures line in fun
  {
    HeaderIsNoInvoke(fun[0]);
  }

  /** The only new invokes of any function are those that guard a return. */
  lemma NoOtherInvokes(epilogue: string, fun: seq<string>, p: nat)
    requires fun != [] && StartsWith(fun[0], DEFINE) && fun[|fun| - 1] == "}" && p < |Processed(Ingerc(epilogue), fun)|
    requires IsInvoke(Processed(Ingerc(epilogue), fun)[p])
    ensures var out := Processed(Ingerc(epilogue), fun);
            out[p] in fun || (IsGuarded(epilogue, out, p + 2) && StartsWith(out[p + 2], "  ret"))
  {
    var out := Processed(Ingerc(epilogue), fun);
    ExplainedOutput(epilogue, fun, p);
    if out[p] in Headed(fun) {
      InvokeIsOld(fun, out[p]);
    } else {
      InvokeBeginsPart(epilogue, Headed(fun), out, p);
      PartIsGuarded(epilogue, out, p + 2);
    }
  }

  lemma RetIsNoInvoke(line: string)
    requires IsRet(line)
    ensures !IsInvoke(line)
  {
    CharOf(line, "  ret", 2);
    if IsInvoke(line) {
      CharOf(line, "  invoke void @\"", 2);
    }
  }

  // ---- The cleanup block that the invokes unwind to ----

  function CleanupLines(lines: seq<string>): nat
    decreases |lines|
  {
    if lines == [] then 0
    else CleanupLines(lines[..|lines| - 1]) + if StartsWith(lines[|lines| - 1], "cleanup:") then 1 else 0
  }

  lemma {:induction false} CleanupLinesAre(epilogue: string, lines: seq<string>)
    ensures CleanupLines(lines) == Cleanups(Ingerc(epilogue), lines)
    decreases |lines|
  {
    if lines != [] {
      CleanupLinesAre(epilogue, lines[..|lines| - 1]);
      assert Ingerc(epilogue).isCleanup(lines[|lines| - 1]) == IsCleanup(lines[|lines| - 1]);
    }
  }

  lemma {:induction false} HeaderKeepsCleanupLines(fun: seq<string>, header: string, i: nat)
    requires 1 <= i <= |fun| && !StartsWith(fun[0], "cleanup:") && !StartsWith(header, "cleanup:")
    ensures CleanupLines(fun[0 := header][..i]) == CleanupLines(fun[..i])
    decreases i
  {
    var fun' := fun[0 := header];
    assert fun'[..i][..i - 1] == fun'[..i - 1] && fun[..i][..i - 1] == fun[..i - 1];
    if i > 1 {
      HeaderKeepsCleanupLines(fun, header, i - 1);
    } else {
      assert fun'[..0] == [] && fun[..0] == [];
    }
  }

  lemma DefineIsNoCleanup(line: string)
    requires StartsWith(line, DEFINE)
    ensures !StartsWith(line, "cleanup:")
  {
    CharOf(line, DEFINE, 0);
    if StartsWith(line, "cleanup:") {
      CharOf(line, "cleanup:", 0);
    }
  }

  lemma NoCleanupInserted(epilogue: string, n: nat)
    ensures !IsCleanup(InvokeLine(epilogue, n)) && !IsCleanup(LabelLine(n))
  {
    InvokeIsIndented(epilogue, n);
    if IsCleanup(InvokeLine(epilogue, n)) {
      CleanupIsNot(InvokeLine(epilogue, n));
    }
    assert LabelLine(n)[0] == 'i';
    if IsCleanup(LabelLine(n)) {
      CleanupIsNot(LabelLine(n));
    }
  }

  lemma CountThree(a: string, b: string, c: string)
    requires StartsWith(a, "cleanup:") && !StartsWith(b, "cleanup:") && !StartsWith(c, "cleanup:")
    ensures CleanupLines([a, b, c]) == 1
  {
    assert [a, b, c][..2] == [a, b] && [a, b][..1] == [a] && [a][..0] == [];
    assert CleanupLines([a]) == 1 && CleanupLines([a, b]) == 1;
  }

  lemma BlockHasOne()
    ensures CleanupLines(CLEANUP) == 1
  {
    var a, b, c := CLEANUP[0], CLEANUP[1], CLEANUP[2];
    assert b[0] == ' ' && c[0] == ' ';
    if StartsWith(b, "cleanup:") {
      CharOf(b, "cleanup:", 0);
    }
    if StartsWith(c, "cleanup:") {
      CharOf(c, "cleanup:", 0);
    }
    assert a[..8] == "cleanup:";
    CountThree(a, b, c);
    assert CLEANUP == [a, b, c];
  }

  lemma HeadedCleanupLines(fun: seq<string>)
    requires fun != [] && StartsWith(fun[0], DEFINE)
    ensures CleanupLines(Headed(fun)) == CleanupLines(fun)
  {
    HeaderKeepsDefine(fun[0]);
    DefineIsNoCleanup(fun[0]);
    DefineIsNoCleanup(Header(fun[0]));
    HeaderKeepsCleanupLines(fun, Header(fun[0]), |fun|);
    assert Headed(fun)[..|fun|] == Headed(fun) && fun[..|fun|] == fun;
  }

  /** The result has the cleanup blocks of the function, or else one. */
  lemma CleanupIsThere(epilogue: string, fun: seq<string>)
    requires fun != [] && StartsWith(fun[0], DEFINE)
    ensures CleanupLines(Processed(Ingerc(epilogue), fun)) == if CleanupLines(fun) == 0 then 1 else CleanupLines(fun)
  {
    forall n: nat
      ensures !IsCleanup(InvokeLine(epilogue, n)) && !IsCleanup(LabelLine(n))
    {
      NoCleanupInserted(epilogue, n);
    }
    BlockHasOne();
    CleanupLinesAre(epilogue, CLEANUP);
    OneCleanup(Ingerc(epilogue), Headed(fun));
    CleanupLinesAre(epilogue, Headed(fun));
    CleanupLinesAre(epilogue, Processed(Ingerc(epilogue), fun));
    HeadedCleanupLines(fun);
  }

  lemma {:induction false} NoneMeansNone(lines: seq<string>, i: nat)
    requires CleanupLines(lines) == 0 && i < |lines|
    ensures !IsCleanup(lines[i])
    decreases |lines|
  {
    if i < |lines| - 1 {
      NoneMeansNone(lines[..|lines| - 1], i);
    }
  }

  /** One that was not there comes last, before the closing brace. */
  lemma CleanupComesLast(epilogue: string, fun: seq<string>)
    requires fun != [] && StartsWith(fun[0], DEFINE) && fun[|fun| - 1] == "}" && CleanupLines(fun) == 0
    ensures var out := Processed(Ingerc(epilogue), fun);
            && |out| >= 4 && out[|out| - 4] == "cleanup:"
            && out[|out| - 3] == "  %ingerc = landingpad { i8*, i32 } cleanup"
            && out[|out| - 2] == "  resume { i8*, i32 } %ingerc" && out[|out| - 1] == "}"
  {
    var r, lines, out := Ingerc(epilogue), Headed(fun), Processed(Ingerc(epilogue), fun);
    LastIsBrace(fun);
    HeadedCleanupLines(fun);
    forall i | 0 <= i < |lines|
      ensures !r.isCleanup(lines[i])
    {
      NoneMeansNone(lines, i);
    }
    BodyEnds(r, lines);
    BraceIsNoReturn();
    EndsWith(out, Base(r, lines, |lines| - 1), CLEANUP, lines[|lines| - 1]);
  }

  lemma EndsWith(out: seq<string>, b: nat, lines: seq<string>, last: string)
    requires b <= |out| && out[b..] == lines + [last] && |lines| == 3
    ensures |out| >= 4 && out[|out| - 4] == lines[0] && out[|out| - 3] == lines[1] && out[|out| - 2] == lines[2]
    ensures out[|out| - 1] == last
  {
    assert |out| == b + 4;
    assert out[b] == out[b..][0] && out[b + 1] == out[b..][1] && out[b + 2] == out[b..][2] && out[b + 3] == out[b..][3];
  }

  // ---- The header, as text ----

  /** A header without one gets a personality: before the brace at its end, and before debug information that ends there. */
  lemma HeaderGetsPersonality(line: string)
    requires line != [] && line[|line| - 1] == '{' && !HasPersonality(line)
    ensures exists i: nat ::
              && i < |line| && (line[i..] == "{" || (StartsWith(line[i..], "!dbg ") && |line| - i >= 7))
              && Header(line) ==
                 line[..i] +
                 "personality i32 (i32, i32, i64, %\"unwind::libunwind::_Unwind_Exception\"*, %\"unwind::libunwind::_Unwind_Context\"*)* @rust_eh_personality "
                 + line[i..]
  {
    var i := FirstMatch(line, 0);
    assert i + 1 == |line| ==> line[i..] == "{";
    assert i + 1 != |line| ==> line[i..][..5] == line[i..i + 5];
  }

  // ---- Meaning ----

  type Semantics = (string, int) -> Effect

  /** Labels, headers and closing braces are not instructions, and the epilogue function returns, having done `effect`. */
  ghost predicate IsLlvm(exec: Semantics, epilogue: string, effect: Epilogue) {
    && CallAndJump(exec, Ingerc(epilogue).invoke, Label, effect)
    && DoNothing(exec, LabelLine)
    && (forall line, s: int :: StartsWith(line, DEFINE) || line == "}" ==> exec(line, s).Stuck?)
  }

  /** A function definition that knows nothing of the labels to be inserted. */
  ghost predicate IsFunction(exec: Semantics, fun: seq<string>) {
    && |fun| >= 3 && StartsWith(fun[0], DEFINE) && fun[|fun| - 1] == "}"
    && Terminator(Language(exec, Declares), fun[|fun| - 2])
    && (forall n: nat, i :: 0 <= i < |fun| ==> !Declares(fun[i], Label(n)))
    && (forall i, s: int :: 0 <= i < |fun| && exec(fun[i], s).Jump? ==>
          IsTarget(exec, fun, exec(fun[i], s).name))
  }

  ghost predicate IsTarget(exec: Semantics, fun: seq<string>, x: string) {
    (forall n: nat :: x != Label(n)) && Find(Language(exec, Declares), fun, x, 0).Some?
  }

  lemma LabelsAreOwn()
    ensures DeclareOwn(Declares, LabelLine, Label)
  {
    forall m: nat, n: nat
      ensures Declares(LabelLine(m), Label(n)) <==> m == n
    {
      LabelLineDeclares(m, Label(n));
      if Label(m) == Label(n) {
        LabelIsOneName(m, n);
      }
    }
  }

  lemma InvokesDeclareNothing(epilogue: string)
    ensures DeclareNone(Declares, Ingerc(epilogue).invoke, Label)
  {
    forall m: nat, n: nat
      ensures !Declares(InvokeLine(epilogue, m), Label(n))
    {
      InvokeIsIndented(epilogue, m);
      IndentedDeclaresNothing(InvokeLine(epilogue, m), Label(n));
    }
  }

  lemma Understood(exec: Semantics, epilogue: string, effect: Epilogue)
    requires IsLlvm(exec, epilogue, effect)
    ensures Understands(Language(exec, Declares), Ingerc(epilogue), Label, effect)
  {
    LabelsAreOwn();
    InvokesDeclareNothing(epilogue);
  }

  lemma IsForeign(exec: Semantics, epilogue: string, x: string)
    requires forall n: nat :: x != Label(n)
    ensures Foreign(Language(exec, Declares), Ingerc(epilogue), x)
  {
    forall n: nat
      ensures !Declares(InvokeLine(epilogue, n), x) && !Declares(LabelLine(n), x)
    {
      InvokeIsIndented(epilogue, n);
      IndentedDeclaresNothing(InvokeLine(epilogue, n), x);
      LabelLineDeclares(n, x);
    }
    forall line | Declares(line, x)
      ensures !IsRet(line)
    {
      if IsRet(line) {
        RetIsIndented(line);
        IndentedDeclaresNothing(line, x);
      }
    }
  }

  lemma BraceIsInert(exec: Semantics, epilogue: string, effect: Epilogue)
    requires IsLlvm(exec, epilogue, effect)
    ensures Inert(Language(exec, Declares), "}") && !IsRet("}")
  {
    forall x
      ensures !Declares("}", x)
    {
      if Declares("}", x) {
        DeclaresAt("}", x);
      }
    }
  }

  lemma DefineIsInert(exec: Semantics, epilogue: string, effect: Epilogue, line: string)
    requires IsLlvm(exec, epilogue, effect) && StartsWith(line, DEFINE)
    ensures Inert(Language(exec, Declares), line)
  {
    forall x
      ensures !Declares(line, x)
    {
      DefineDeclaresNothing(line, x);
    }
  }

  lemma FunctionIsWellFormed(exec: Semantics, epilogue: string, effect: Epilogue, fun: seq<string>)
    requires IsLlvm(exec, epilogue, effect) && IsFunction(exec, fun)
    ensures WellFormed(Language(exec, Declares), Ingerc(epilogue), Label, fun)
    ensures HasHeader(Language(exec, Declares), Ingerc(epilogue), fun)
  {
    var l, r := Language(exec, Declares), Ingerc(epilogue);
    BraceIsInert(exec, epilogue, effect);
    HeaderKeepsDefine(fun[0]);
    DefineIsInert(exec, epilogue, effect, fun[0]);
    DefineIsInert(exec, epilogue, effect, Header(fun[0]));
    forall i, s: int | 0 <= i < |fun| && l.exec(fun[i], s).Jump?
      ensures Foreign(l, r, l.exec(fun[i], s).name) && Find(l, fun, l.exec(fun[i], s).name, 0).Some?
    {
      assert IsTarget(exec, fun, exec(fun[i], s).name);
      IsForeign(exec, epilogue, exec(fun[i], s).name);
    }
  }

  /** As LLVM prints it: what begins like a return is one. */
  ghost predicate IsPrinted(fun: seq<string>) {
    forall i :: 0 <= i < |fun| && StartsWith(fun[i], "  ret") ==> fun[i] == "  ret" || StartsWith(fun[i], "  ret ")
  }

  /** The meaning of instructions if each return called a function with this effect first. */
  function CallingFirst(exec: Semantics, effect: Epilogue): Semantics {
    (line: string, s: int) =>
      if StartsWith(line, "  ret") then After(effect(s).1, exec(line, effect(s).0)) else exec(line, s)
  }

  lemma AfterNothing(e: Effect)
    ensures After([], e) == e
  {
    match e
    case Next(_, out) => assert [] + out == out;
    case Jump(_, _, out) => assert [] + out == out;
    case Return(_, out) => assert [] + out == out;
    case Stuck =>
  }

  lemma CallsAlike(exec: Semantics, epilogue: string, effect: Epilogue, line: string, s: int)
    requires StartsWith(line, "  ret") ==> line == "  ret" || StartsWith(line, "  ret ")
    ensures Calling(Language(exec, Declares), Ingerc(epilogue), effect).exec(line, s) == CallingFirst(exec, effect)(line, s)
  {
    PrintedReturn(line);
    AfterNothing(exec(line, s));
    var a := Arrival(Ingerc(epilogue), effect, line, s);
    assert a == if StartsWith(line, "  ret") then effect(s) else (s, []);
    assert Calling(Language(exec, Declares), Ingerc(epilogue), effect).exec(line, s) == After(a.1, exec(line, a.0));
  }

  lemma RunsAlike(exec: Semantics, epilogue: string, effect: Epilogue, fun: seq<string>, state: int, result: Result)
    requires IsPrinted(fun)
    ensures Returns(Calling(Language(exec, Declares), Ingerc(epilogue), effect), fun, 1, state, result) <==>
            Returns(Language(CallingFirst(exec, effect), Declares), fun, 1, state, result)
  {
    var l, l' := Calling(Language(exec, Declares), Ingerc(epilogue), effect), Language(CallingFirst(exec, effect), Declares);
    forall i, s: int | 0 <= i < |fun|
      ensures l'.exec(fun[i], s) == l.exec(fun[i], s)
    {
      CallsAlike(exec, epilogue, effect, fun[i], s);
    }
    forall fuel: nat
      ensures Run(l', fun, 1, state, fuel) == Run(l, fun, 1, state, fuel)
    {
      RunIsByLines(l, l', fun, 1, state, fuel);
    }
  }

  /**
   For whatever LLVM's instructions mean, and whatever the epilogue function does: the rewritten
   function returns exactly when the original would if each of its returns called that function
   first, with the same value and effects.
   */
  lemma EpilogueComesBeforeReturn(
      exec: Semantics, epilogue: string, effect: Epilogue, fun: seq<string>, state: int, result: Result)
    requires IsLlvm(exec, epilogue, effect) && IsFunction(exec, fun) && IsPrinted(fun)
    ensures Returns(Language(CallingFirst(exec, effect), Declares), fun, 1, state, result) <==>
            Returns(Language(exec, Declares), Processed(Ingerc(epilogue), fun), 1, state, result)
  {
    Understood(exec, epilogue, effect);
    FunctionIsWellFormed(exec, epilogue, effect, fun);
    MeansTheSame(Language(exec, Declares), Ingerc(epilogue), Label, effect, fun, state, result);
    RunsAlike(exec, epilogue, effect, fun, state, result);
  }

  /** An epilogue function that does nothing, as llvm.donothing, which is the default. */
  const DO_NOTHING: Epilogue := (s: int) => (s, [])

  lemma NothingIsCalled(exec: Semantics, epilogue: string, fun: seq<string>, state: int, result: Result)
    ensures Returns(Calling(Language(exec, Declares), Ingerc(epilogue), DO_NOTHING), fun, 1, state, result) <==>
            Returns(Language(exec, Declares), fun, 1, state, result)
  {
    var l, l' := Language(exec, Declares), Calling(Language(exec, Declares), Ingerc(epilogue), DO_NOTHING);
    forall i, s: int | 0 <= i < |fun|
      ensures l'.exec(fun[i], s) == l.exec(fun[i], s)
    {
      AfterNothing(exec(fun[i], s));
      assert Arrival(Ingerc(epilogue), DO_NOTHING, fun[i], s) == (s, []);
    }
    forall fuel: nat
      ensures Run(l', fun, 1, state, fuel) == Run(l, fun, 1, state, fuel)
    {
      RunIsByLines(l, l', fun, 1, state, fuel);
    }
  }

  /**
   In particular, if the epilogue function does nothing, the rewritten function returns exactly
   when the original does, with the same value and effects.
   */
  lemma RewritingKeepsMeaning(exec: Semantics, epilogue: string, fun: seq<string>, state: int, result: Result)
    requires IsLlvm(exec, epilogue, DO_NOTHING) && IsFunction(exec, fun)
    ensures var l := Language(exec, Declares);
            Returns(l, fun, 1, state, result) <==> Returns(l, Processed(Ingerc(epilogue), fun), 1, state, result)
  {
    Understood(exec, epilogue, DO_NOTHING);
    FunctionIsWellFormed(exec, epilogue, DO_NOTHING, fun);
    MeansTheSame(Language(exec, Declares), Ingerc(epilogue), Label, DO_NOTHING, fun, state, result);
    NothingIsCalled(exec, epilogue, fun, state, result);
  }

  // ---- An epilogue function that can be heard ----

  /** Of these lines, only returns return, they do nothing else, and none says `word`. */
  ghost predicate OnlyReturnsReturn(exec: Semantics, fun: seq<string>, word: int) {
    forall i, s: int :: 0 <= i < |fun| ==>
      && (exec(fun[i], s).Return? ==> StartsWith(fun[i], "  ret"))
      && (StartsWith(fun[i], "  ret") ==> exec(fun[i], s).Return? || exec(fun[i], s).Stuck?)
      && (exec(fun[i], s).Stuck? || word !in exec(fun[i], s).out)
  }

  function Saying(word: int): Epilogue {
    (s: int) => (s, [word])
  }

  /** The word is said once: after `before`, and right before line `i` returns. */
  ghost predicate SaidBeforeReturn(
    exec: Semantics, fun: seq<string>, word: int, result: Result, before: seq<int>, i: nat, s: int)
  {
    && word !in before && i < |fun| && StartsWith(fun[i], "  ret") && exec(fun[i], s).Return?
    && word !in exec(fun[i], s).out
    && result == Result(exec(fun[i], s).value, before + [word] + exec(fun[i], s).out)
  }

  lemma {:induction false} SaysOnce(exec: Semantics, word: int, fun: seq<string>, pc: nat, state: int, fuel: nat)
    returns (before: seq<int>, i: nat, s: int)
    requires OnlyReturnsReturn(exec, fun, word)
    requires Run(Language(CallingFirst(exec, Saying(word)), Declares), fun, pc, state, fuel).Some?
    ensures SaidBeforeReturn(
              exec, fun, word, Run(Language(CallingFirst(exec, Saying(word)), Declares), fun, pc, state, fuel).value,
              before, i, s)
    decreases fuel
  {
    var l := Language(CallingFirst(exec, Saying(word)), Declares);
    var rest: seq<int>;
    match exec(fun[pc], state) {
      case Next(state', out) =>
        rest, i, s := SaysOnce(exec, word, fun, pc + 1, state', fuel - 1);
        before := out + rest;
        assert out + (rest + [word] + exec(fun[i], s).out) == before + [word] + exec(fun[i], s).out;
      case Jump(x, state', out) =>
        rest, i, s := SaysOnce(exec, word, fun, Find(l, fun, x, 0).value, state', fuel - 1);
        before := out + rest;
        assert out + (rest + [word] + exec(fun[i], s).out) == before + [word] + exec(fun[i], s).out;
      case Return(_, out) =>
        before, i, s := [], pc, state;
        assert before + [word] + out == [word] + out;
    }
  }

  /** An epilogue function that says a word is heard once in every run that returns: right before the return. */
  lemma EpilogueIsHeardOnce(exec: Semantics, epilogue: string, word: int, fun: seq<string>, state: int, result: Result)
    returns (before: seq<int>, i: nat, s: int)
    requires IsLlvm(exec, epilogue, Saying(word)) && IsFunction(exec, fun) && IsPrinted(fun)
    requires OnlyReturnsReturn(exec, fun, word)
    requires Returns(Language(exec, Declares), Processed(Ingerc(epilogue), fun), 1, state, result)
    ensures SaidBeforeReturn(exec, fun, word, result, before, i, s)
  {
    EpilogueComesBeforeReturn(exec, epilogue, Saying(word), fun, state, result);
    var fuel: nat :| Run(Language(CallingFirst(exec, Saying(word)), Declares), fun, 1, state, fuel) == Some(result);
    before, i, s := SaysOnce(exec, word, fun, 1, state, fuel);
  }
}
