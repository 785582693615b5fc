/**
 What compiler/ingerc.ts does with a whole LLVM IR file: cut it up into functions and
 the text between them, rewrite the functions, and put it together again.
 */
module IngercFile {
  import opened Common
  import opened Rewriting
  import opened Text
  import opened IngercTs

  const OPEN: string := "\ndefine "
  const CLOSE: string := "\n}\n"

  /** The lines handed to processDefine(). */
  function FunctionLines(head: string): seq<string> {
    Split(DEFINE + head + "\n}", "\n")
  }

  /** What a chunk becomes, when `rewrite` is done to the lines of a function. */
  function Rendered(rewrite: seq<string> -> seq<string>, chunk: string): string {
    var parts := Split(chunk, CLOSE);
    if |parts| >= 2 && parts[1] != "" then
      "\n" + Join(rewrite(FunctionLines(parts[0])), "\n") + "\n" + parts[1]
    else parts[0]
  }

  function RenderedBy(rewrite: seq<string> -> seq<string>): string -> string {
    (chunk: string) => Rendered(rewrite, chunk)
  }

  function AllRendered(rewrite: seq<string> -> seq<string>, chunks: seq<string>): string {
    Gathered(RenderedBy(rewrite), chunks)
  }

  function Declaration(epilogue: string): string {
    "\ndeclare void @\"" + epilogue + "\"()"
  }

  function ProcessedBy(epilogue: string): seq<string> -> seq<string> {
    (fun: seq<string>) => if fun == [] then [] else Processed(Ingerc(epilogue), fun)
  }

  /** The new contents, unless the file has been processed before. */
  function Rewritten(epilogue: string, file: string): Option<string> {
    if IndexOf(file, Declaration(epilogue), 0).Some? then None
    else Some(AllRendered(ProcessedBy(epilogue), Split(file, OPEN)) + Declaration(epilogue))
  }

  /** Whatever follows `define`, processDefine() gets a header, and a closing brace alone on the last line. */
  lemma FunctionLinesShape(head: string)
    ensures var fun := FunctionLines(head);
            |fun| >= 2 && StartsWith(fun[0], DEFINE) && fun[|fun| - 1] == "}"
  {
    var s := DEFINE + head;
    assert s + ['\n'] + "}" == s + "\n}";
    SplitLast(s, '\n', "}");
    SplitFirst(DEFINE, head, '\n');
  }

  /** A function whose lines stay the same is rendered as it was. */
  lemma UnchangedFunction(head: string)
    ensures "\n" + Join(FunctionLines(head), "\n") + "\n" == OPEN + head + CLOSE
  {
    JoinSplit(DEFINE + head + "\n}", "\n");
    assert "\n" + DEFINE == OPEN;
    assert "\n}" + "\n" == CLOSE;
    assert "\n" + (DEFINE + head + "\n}") + "\n" == ("\n" + DEFINE) + head + ("\n}" + "\n");
  }

  lemma UnchangedChunk(rewrite: seq<string> -> seq<string>, chunk: string)
    requires forall fun :: rewrite(fun) == fun
    ensures Rendered(rewrite, chunk) == Copied(chunk, OPEN, CLOSE)
  {
    UnchangedFunction(Split(chunk, CLOSE)[0]);
  }

  lemma UnchangedChunks(rewrite: seq<string> -> seq<string>, chunks: seq<string>)
    requires forall fun :: rewrite(fun) == fun
    ensures AllRendered(rewrite, chunks) == Copies(chunks, OPEN, CLOSE)
  {
    forall chunk
      ensures RenderedBy(rewrite)(chunk) == Copied(chunk, OPEN, CLOSE)
    {
      UnchangedChunk(rewrite, chunk);
    }
    GatheredCopies(RenderedBy(rewrite), chunks, OPEN, CLOSE);
  }

  /**
   Cutting up and putting together loses and adds nothing, so that only processDefine()
   changes the file, exactly if no function ends before the first `define` line and every
   `define` is followed by exactly one end of a function and then by some text.
   */
  lemma NothingLostIff(rewrite: seq<string> -> seq<string>, file: string)
    requires forall fun :: rewrite(fun) == fun
    ensures var chunks := Split(file, OPEN);
            AllRendered(rewrite, chunks) == file <==>
            |Split(chunks[0], CLOSE)| == 1 && forall c <- chunks[1..] :: ClosesOnce(c, CLOSE)
  {
    UnchangedChunks(rewrite, Split(file, OPEN));
    CopyIsFaithfulIff(file, OPEN, CLOSE);
  }

  lemma RenderedText(rewrite: seq<string> -> seq<string>, chunk: string, text: string)
    requires Split(chunk, CLOSE) == [text, ""]
    ensures RenderedBy(rewrite)(chunk) == text
  {
  }

  /** Of a last function with nothing after its end, a file loses the `define` and the closing brace, whatever the rewriting does. */
  lemma LastFunctionIsLost(rewrite: seq<string> -> seq<string>, file: string, text: string)
    requires var chunks := Split(file, OPEN);
             Split(chunks[|chunks| - 1], CLOSE) == [text, ""]
    ensures var chunks := Split(file, OPEN);
            AllRendered(rewrite, chunks) == AllRendered(rewrite, chunks[..|chunks| - 1]) + text
  {
    var chunks := Split(file, OPEN);
    var n := |chunks| - 1;
    RenderedText(rewrite, chunks[n], text);
    GatheredSnoc(RenderedBy(rewrite), chunks[..n], chunks[n]);
    assert chunks[..n] + [chunks[n]] == chunks;
  }

  /** The shortest such file. */
  lemma ALostFunction(rewrite: seq<string> -> seq<string>)
    ensures AllRendered(rewrite, Split(OPEN + CLOSE, OPEN)) == ""
  {
    assert OccursAt(OPEN + CLOSE, OPEN, 0);
    assert (OPEN + CLOSE)[|OPEN|..] == CLOSE;
    assert Split(CLOSE, OPEN) == [CLOSE];
    assert Split(OPEN + CLOSE, OPEN) == [""] + [CLOSE];
    SplitAtEnd("", CLOSE);
    assert "" + CLOSE == CLOSE;
    LastFunctionIsLost(rewrite, OPEN + CLOSE, "");
    assert Split(OPEN + CLOSE, OPEN)[..1] == [""];
    assert Split("", CLOSE) == [""] && [""][1..] == [];
  }

  lemma RenderedFunction(rewrite: seq<string> -> seq<string>, chunk: string, head: string, tail: string)
    requires Split(chunk, CLOSE) == [head, tail] && tail != ""
    ensures RenderedBy(rewrite)(chunk) == "\n" + Join(rewrite(FunctionLines(head)), "\n") + "\n" + tail
  {
  }

  /**
   Every function of the file that is followed by text is rewritten where it stands, its lines
   joined again, and what comes before and after it is dealt with on its own.
   */
  lemma EachFunctionIsRewritten(epilogue: string, file: string, k: nat, head: string, tail: string)
    requires Rewritten(epilogue, file).Some? && k < |Split(file, OPEN)|
    requires Split(Split(file, OPEN)[k], CLOSE) == [head, tail] && tail != ""
    ensures var chunks, out := Split(file, OPEN), Processed(Ingerc(epilogue), Split("define " + head + "\n}", "\n"));
            Rewritten(epilogue, file) ==
            Some(AllRendered(ProcessedBy(epilogue), chunks[..k]) + ("\n" + Join(out, "\n") + "\n" + tail) +
                 AllRendered(ProcessedBy(epilogue), chunks[k + 1..]) + "\ndeclare void @\"" + epilogue + "\"()")
  {
    var chunks, f := Split(file, OPEN), RenderedBy(ProcessedBy(epilogue));
    FunctionLinesShape(head);
    RenderedFunction(ProcessedBy(epilogue), chunks[k], head, tail);
    GatheredAround(f, chunks, k);
    DeclarationIs(AllRendered(ProcessedBy(epilogue), chunks), epilogue);
  }

  lemma DeclarationIs(text: string, epilogue: string)
    ensures text + Declaration(epilogue) == text + "\ndeclare void @\"" + epilogue + "\"()"
  {
  }

  /** In the lines it becomes, every return is guarded. */
  lemma EachReturnIsGuarded(epilogue: string, head: string, p: nat)
    requires p < |ProcessedBy(epilogue)(FunctionLines(head))|
    requires var line := ProcessedBy(epilogue)(FunctionLines(head))[p]; line == "  ret" || StartsWith(line, "  ret ")
    ensures IsGuarded(epilogue, ProcessedBy(epilogue)(FunctionLines(head)), p)
  {
    FunctionLinesShape(head);
    ReturnsAreGuarded(epilogue, FunctionLines(head), p);
  }

  /** A file is processed at most once. */
  lemma SecondTimeIsRefused(epilogue: string, file: string)
    requires Rewritten(epilogue, file).Some?
    ensures Rewritten(epilogue, Rewritten(epilogue, file).value).None?
  {
    var body := AllRendered(ProcessedBy(epilogue), Split(file, OPEN));
    var again := body + Declaration(epilogue);
    assert again[|body|..|body| + |Declaration(epilogue)|] == Declaration(epilogue);
    assert OccursAt(again, Declaration(epilogue), |body|);
  }
}
