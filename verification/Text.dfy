/** String.split() and Array.join(), as compiler/ingerc.ts uses them. */
module Text {
  import opened Common

  predicate StartsWith(s: string, prefix: string) {
    |s| >= |prefix| && s[..|prefix|] == prefix
  }

  predicate OccursAt(s: string, sep: string, i: nat) {
    i + |sep| <= |s| && s[i..i + |sep|] == sep
  }

  /** The first occurrence from `i` on. */
  function IndexOf(s: string, sep: string, i: nat): (r: Option<nat>)
    ensures r.Some? ==> i <= r.value && OccursAt(s, sep, r.value)
    ensures r.Some? ==> forall j: nat :: i <= j < r.value ==> !OccursAt(s, sep, j)
    ensures r.None? ==> forall j: nat :: i <= j ==> !OccursAt(s, sep, j)
    decreases |s| - i
  {
    if i + |sep| > |s| then None else if OccursAt(s, sep, i) then Some(i) else IndexOf(s, sep, i + 1)
  }

  function Split(s: string, sep: string): (parts: seq<string>)
    requires sep != ""
    ensures parts != []
    decreases |s|
  {
    var i := IndexOf(s, sep, 0);
    if i.None? then [s] else [s[..i.value]] + Split(s[i.value + |sep|..], sep)
  }

  function Join(parts: seq<string>, sep: string): string {
    if parts == [] then "" else if |parts| == 1 then parts[0] else parts[0] + sep + Join(parts[1..], sep)
  }

  lemma {:induction false} JoinSplit(s: string, sep: string)
    requires sep != ""
    ensures Join(Split(s, sep), sep) == s
    decreases |s|
  {
    var i := IndexOf(s, sep, 0);
    if i.Some? {
      var rest := s[i.value + |sep|..];
      JoinSplit(rest, sep);
      assert Split(s, sep)[1..] == Split(rest, sep);
      assert s == s[..i.value] + sep + rest;
    }
  }

  /** A separator in front of text that has none splits that text off. */
  lemma {:induction false} SplitLast(s: string, c: char, last: string)
    requires c !in last
    ensures Split(s + [c] + last, [c]) == Split(s, [c]) + [last]
    decreases |s|
  {
    var whole := s + [c] + last;
    var i := IndexOf(s, [c], 0);
    assert whole[|s|] == c;
    assert OccursAt(whole, [c], |s|);
    var j := IndexOf(whole, [c], 0).value;
    if i.None? {
      FirstIsHere(s, c, last);
      assert whole[|s| + 1..] == last;
      assert whole[..|s|] == s;
      NoneInside(last, c);
    } else {
      FirstIsInside(s, c, last);
      var rest := s[i.value + 1..];
      assert whole[i.value + 1..] == rest + [c] + last;
      assert whole[..i.value] == s[..i.value];
      SplitLast(rest, c, last);
    }
  }

  lemma At(s: string, c: char, i: nat)
    ensures OccursAt(s, [c], i) <==> i < |s| && s[i] == c
  {
    if i < |s| {
      assert s[i..i + 1] == [s[i]];
    }
  }

  lemma NoneInside(s: string, c: char)
    requires c !in s
    ensures Split(s, [c]) == [s]
  {
    if IndexOf(s, [c], 0).Some? {
      At(s, c, IndexOf(s, [c], 0).value);
    }
  }

  lemma FirstIsHere(s: string, c: char, last: string)
    requires IndexOf(s, [c], 0).None?
    ensures IndexOf(s + [c] + last, [c], 0) == Some(|s|)
  {
    var whole := s + [c] + last;
    At(whole, c, |s|);
    var j := IndexOf(whole, [c], 0).value;
    At(whole, c, j);
    At(s, c, j);
  }

  lemma FirstIsInside(s: string, c: char, last: string)
    requires IndexOf(s, [c], 0).Some?
    ensures IndexOf(s + [c] + last, [c], 0) == IndexOf(s, [c], 0)
  {
    var whole, i := s + [c] + last, IndexOf(s, [c], 0).value;
    At(s, c, i);
    At(whole, c, i);
    var j := IndexOf(whole, [c], 0).value;
    At(whole, c, j);
    At(s, c, j);
  }

  /** Splitting a text that starts with a separator-free prefix leaves that at the start of the first part. */
  lemma SplitFirst(prefix: string, s: string, c: char)
    requires c !in prefix
    ensures StartsWith(Split(prefix + s, [c])[0], prefix)
  {
    var whole := prefix + s;
    var i := IndexOf(whole, [c], 0);
    if i.Some? {
      At(whole, c, i.value);
      assert i.value >= |prefix|;
      assert whole[..i.value][..|prefix|] == prefix;
    } else {
      assert whole[..|prefix|] == prefix;
    }
  }

  // ---- Cutting a file up by opening and closing separators ----

  /** The text after `parts[0]`, when `parts` are its pieces. */
  function Rest(parts: seq<string>, sep: string): string {
    if parts == [] then "" else sep + parts[0] + Rest(parts[1..], sep)
  }

  lemma {:induction false} JoinIsRest(parts: seq<string>, sep: string)
    requires parts != []
    ensures Join(parts, sep) == parts[0] + Rest(parts[1..], sep)
    decreases |parts|
  {
    if |parts| == 1 {
      assert Join(parts, sep) == parts[0] + "";
    } else {
      JoinIsRest(parts[1..], sep);
      assert parts[0] + sep + (parts[1] + Rest(parts[2..], sep)) == parts[0] + (sep + parts[1] + Rest(parts[2..], sep));
      assert parts[1..][1..] == parts[2..];
    }
  }

  /** `chunk` has exactly one closing separator, with text after it. */
  predicate ClosesOnce(chunk: string, close: string)
    requires close != ""
  {
    var parts := Split(chunk, close);
    |parts| == 2 && parts[1] != ""
  }

  /** `chunk` is taken for a function: there is a non-empty piece after its first closing separator. */
  predicate Closes(chunk: string, close: string)
    requires close != ""
  {
    var parts := Split(chunk, close);
    |parts| >= 2 && parts[1] != ""
  }

  /** What is kept of a chunk, when functions are copied as they are. */
  function Copied(chunk: string, open: string, close: string): string
    requires close != ""
  {
    var parts := Split(chunk, close);
    if Closes(chunk, close) then open + parts[0] + close + parts[1] else parts[0]
  }

  function Copies(chunks: seq<string>, open: string, close: string): string
    requires close != ""
  {
    if chunks == [] then "" else Copied(chunks[0], open, close) + Copies(chunks[1..], open, close)
  }

  /** What `f` makes of the chunks, put together. */
  function Gathered(f: string -> string, chunks: seq<string>): string {
    if chunks == [] then "" else f(chunks[0]) + Gathered(f, chunks[1..])
  }

  lemma {:induction false} GatheredSnoc(f: string -> string, chunks: seq<string>, last: string)
    ensures Gathered(f, chunks + [last]) == Gathered(f, chunks) + f(last)
    decreases |chunks|
  {
    if chunks == [] {
      assert [] + [last] == [last] && [last][1..] == [];
    } else {
      GatheredSnoc(f, chunks[1..], last);
      assert (chunks + [last])[1..] == chunks[1..] + [last];
    }
  }

  lemma {:induction false} GatheredAround(f: string -> string, chunks: seq<string>, k: nat)
    requires k < |chunks|
    ensures Gathered(f, chunks) == Gathered(f, chunks[..k]) + f(chunks[k]) + Gathered(f, chunks[k + 1..])
    decreases k
  {
    if k > 0 {
      GatheredAround(f, chunks[1..], k - 1);
      assert chunks[1..][..k - 1] == chunks[..k][1..] && chunks[1..][k..] == chunks[k + 1..];
    } else {
      assert chunks[..0] == [];
    }
  }

  lemma {:induction false} GatheredCopies(f: string -> string, chunks: seq<string>, open: string, close: string)
    requires close != "" && forall c :: f(c) == Copied(c, open, close)
    ensures Gathered(f, chunks) == Copies(chunks, open, close)
    decreases |chunks|
  {
    if chunks != [] {
      GatheredCopies(f, chunks[1..], open, close);
    }
  }

  /** The pieces of a chunk cover it, and two of them only if there are no more. */
  lemma PiecesCover(chunk: string, close: string)
    requires close != ""
    ensures var parts := Split(chunk, close);
            && |chunk| >= |parts[0]| + |Rest(parts[1..], close)|
            && (|parts| == 1 ==> chunk == parts[0])
            && (|parts| == 2 ==> chunk == parts[0] + close + parts[1])
            && (|parts| >= 2 ==> |chunk| >= |parts[0]| + |close| + |parts[1]|)
            && (|parts| >= 3 ==> |chunk| > |parts[0]| + |close| + |parts[1]|)
  {
    var parts := Split(chunk, close);
    JoinSplit(chunk, close);
    JoinIsRest(parts, close);
    if |parts| >= 2 {
      assert parts[1..][0] == parts[1];
      assert parts[1..][1..] == parts[2..];
      if |parts| == 2 {
        assert Rest(parts[2..], close) == "";
      }
    }
  }

  /** A chunk never grows, and keeps its length exactly if it closes once. */
  lemma CopiedLength(chunk: string, open: string, close: string)
    requires open != "" && close != ""
    ensures |Copied(chunk, open, close)| <= |open + chunk|
    ensures |Copied(chunk, open, close)| == |open + chunk| <==> ClosesOnce(chunk, close)
    ensures ClosesOnce(chunk, close) ==> Copied(chunk, open, close) == open + chunk
  {
    PiecesCover(chunk, close);
    var parts := Split(chunk, close);
    if ClosesOnce(chunk, close) {
      assert open + parts[0] + close + parts[1] == open + (parts[0] + close + parts[1]);
    }
  }

  lemma {:induction false} CopiesLength(chunks: seq<string>, open: string, close: string)
    requires open != "" && close != ""
    ensures |Copies(chunks, open, close)| <= |Rest(chunks, open)|
    ensures |Copies(chunks, open, close)| == |Rest(chunks, open)| <==> forall c <- chunks :: ClosesOnce(c, close)
    ensures (forall c <- chunks :: ClosesOnce(c, close)) ==> Copies(chunks, open, close) == Rest(chunks, open)
    decreases |chunks|
  {
    if chunks != [] {
      CopiedLength(chunks[0], open, close);
      CopiesLength(chunks[1..], open, close);
      assert forall c :: c in chunks <==> c == chunks[0] || c in chunks[1..];
    }
  }

  /** There is no text before a separator at the very start. */
  lemma TextComesFirst(file: string, open: string)
    requires open != ""
    ensures StartsWith(file, open) ==> Split(file, open)[0] == ""
  {
    if StartsWith(file, open) {
      assert OccursAt(file, open, 0);
    }
  }

  /** A separator at the very end splits off an empty text. */
  lemma SplitAtEnd(s: string, sep: string)
    requires sep != "" && IndexOf(s + sep, sep, 0) == Some(|s|)
    ensures Split(s + sep, sep) == [s, ""]
  {
    assert (s + sep)[..|s|] == s;
    assert (s + sep)[|s| + |sep|..] == "";
    assert Split("", sep) == [""];
  }

  /** If the first chunk is taken for a function, it gets an opening that it did not have. */
  lemma FirstGetsOpening(file: string, open: string, close: string)
    requires open != "" && close != "" && Closes(Split(file, open)[0], close)
    ensures Copies(Split(file, open), open, close) != file
  {
    var chunks := Split(file, open);
    PiecesCover(chunks[0], close);
    TextComesFirst(file, open);
    assert Copied(chunks[0], open, close)[..|open|] == open;
    assert Copies(chunks, open, close)[..|open|] == open;
  }

  /**
   Cutting a file at the opening separators, each chunk at its closing ones, and putting
   it together again gives the file back exactly if the text before the first opening has
   no closing, and every later chunk has one, with text after it.
   */
  lemma CopyIsFaithfulIff(file: string, open: string, close: string)
    requires open != "" && close != ""
    ensures var chunks := Split(file, open);
            Copies(chunks, open, close) == file <==>
            |Split(chunks[0], close)| == 1 && forall c <- chunks[1..] :: ClosesOnce(c, close)
  {
    var chunks := Split(file, open);
    var first, rest, out := chunks[0], chunks[1..], Copied(chunks[0], open, close);
    JoinSplit(file, open);
    JoinIsRest(chunks, open);
    CopiesLength(rest, open, close);
    PiecesCover(first, close);
    assert file == first + Rest(rest, open);
    if |Split(first, close)| == 1 {
      assert out == first;
      assert Copies(chunks, open, close) == first + Copies(rest, open, close);
      if Copies(chunks, open, close) == file {
        assert |Copies(rest, open, close)| == |Rest(rest, open)|;
      }
    } else if Closes(first, close) {
      FirstGetsOpening(file, open, close);
    } else {
      assert |Copies(chunks, open, close)| < |file|;
    }
  }
}
