/** Applying the hunks at the positions their headers state, forwards and backwards. */
module Patching {
  import opened Wrappers
  import opened EditScripts
  import opened Hunks

  /** The number of lines before the ones a header names. A zero count names the line it follows. */
  function Offset(start: int, count: nat): int {
    if count == 0 then start else start - 1
  }

  /**
   * Patches `text` from line `from` on: every hunk must show the lines of `text` at the position its
   * header states, at or after the end of the hunk before it, and is replaced there by its new lines.
   */
  function Apply(text: seq<string>, hunks: seq<Hunk>, from: nat): Option<seq<string>>
    requires from <= |text|
    decreases |hunks|
  {
    if hunks == [] then Some(text[from..])
    else
      var h := hunks[0];
      var at := Offset(h.beforeStart, h.beforeCount);
      var end := at + h.beforeCount;
      if from <= at && end <= |text| && text[at..end] == Before(h.rows) then
        match Apply(text, hunks[1..], end)
        case None => None
        case Some(rest) => Some(text[from..at] + After(h.rows) + rest)
      else
        None
  }

  lemma BeforeSlice(rows: seq<Row>, i: nat, j: nat)
    requires i <= j <= |rows|
    ensures |Before(rows[..i])| <= |Before(rows[..j])| <= |Before(rows)|
    ensures Before(rows)[|Before(rows[..i])|..|Before(rows[..j])|] == Before(rows[i..j])
  {
    assert rows[..j] == rows[..i] + rows[i..j];
    BeforeConcat(rows[..i], rows[i..j]);
    assert rows == rows[..j] + rows[j..];
    BeforeConcat(rows[..j], rows[j..]);
  }

  lemma {:induction false} KeptRunIsShared(rows: seq<Row>)
    requires forall r :: 0 <= r < |rows| ==> rows[r].Keep?
    ensures Before(rows) == After(rows)
  {
    if rows != [] {
      KeptRunIsShared(rows[1..]);
    }
  }

  lemma FarRowsAreKept(rows: seq<Row>, context: nat, i: nat, j: nat)
    requires i <= j <= |rows| && forall r :: i <= r < j ==> !Near(rows, context, r)
    ensures Before(rows[i..j]) == After(rows[i..j])
  {
    forall r | 0 <= r < |rows[i..j]|
      ensures rows[i..j][r].Keep?
    {
      assert !Near(rows, context, i + r);
    }
    KeptRunIsShared(rows[i..j]);
  }

  /** The position a hunk's header states in the old text is where its rows begin there. */
  lemma HeaderPosition(rows: seq<Row>, span: Span)
    requires span.start <= span.end <= |rows|
    ensures var h := HunkAt(rows, span);
      && Offset(h.beforeStart, h.beforeCount) == |Before(rows[..span.start])|
      && Offset(h.beforeStart, h.beforeCount) + h.beforeCount == |Before(rows[..span.end])|
  {
    assert rows[..span.end] == rows[..span.start] + rows[span.start..span.end];
    BeforeConcat(rows[..span.start], rows[span.start..span.end]);
  }

  lemma HunksTail(rows: seq<Row>, spans: seq<Span>)
    requires spans != [] && Within(spans, |rows|)
    ensures Within(spans[1..], |rows|)
    ensures HunksOf(rows, spans)[0] == HunkAt(rows, spans[0])
    ensures HunksOf(rows, spans)[1..] == HunksOf(rows, spans[1..])
  {
  }

  lemma AfterParts(rows: seq<Row>, i: nat, s: nat, e: nat)
    requires i <= s <= e <= |rows|
    ensures After(rows[i..]) == After(rows[i..s]) + After(rows[s..e]) + After(rows[e..])
  {
    assert rows[i..] == rows[i..s] + (rows[s..e] + rows[e..]);
    AfterConcat(rows[i..s], rows[s..e] + rows[e..]);
    AfterConcat(rows[s..e], rows[e..]);
  }

  lemma ApplyFirst(text: seq<string>, hunks: seq<Hunk>, from: nat, at: nat, end: nat, rest: seq<string>)
    requires hunks != [] && from <= at <= end <= |text|
    requires at == Offset(hunks[0].beforeStart, hunks[0].beforeCount) && end == at + hunks[0].beforeCount
    requires text[at..end] == Before(hunks[0].rows)
    requires Apply(text, hunks[1..], end) == Some(rest)
    ensures Apply(text, hunks, from) == Some(text[from..at] + After(hunks[0].rows) + rest)
  {
  }

  lemma {:induction false} PatchFrom(rows: seq<Row>, context: nat, i: nat)
    requires i <= |rows|
    ensures Within(Spans(rows, context, i), |rows|)
    ensures |Before(rows[..i])| <= |Before(rows)|
    ensures Apply(Before(rows), HunksOf(rows, Spans(rows, context, i)), |Before(rows[..i])|) == Some(After(rows[i..]))
    decreases |rows| - i
  {
    SpansOrdered(rows, context, i);
    var spans := Spans(rows, context, i);
    var s := NextNear(rows, context, i);
    BeforeSlice(rows, i, s);
    FarRowsAreKept(rows, context, i, s);
    assert rows[..|rows|] == rows;
    if s == |rows| {
      assert rows[i..s] == rows[i..];
      assert Before(rows)[|Before(rows[..i])|..] == Before(rows[i..]);
    } else {
      var e := NextFar(rows, context, s);
      BeforeSlice(rows, s, e);
      PatchFrom(rows, context, e);
      HunksTail(rows, spans);
      assert spans[1..] == Spans(rows, context, e);
      HeaderPosition(rows, spans[0]);
      AfterParts(rows, i, s, e);
      ApplyFirst(Before(rows), HunksOf(rows, spans), |Before(rows[..i])|,
                 |Before(rows[..s])|, |Before(rows[..e])|, After(rows[e..]));
    }
  }

  /** Every hunk applied at the position its header states turns the old text into exactly the new one. */
  lemma PatchGivesAfter(rows: seq<Row>, context: nat)
    ensures Apply(Before(rows), HunksNear(rows, context, 0), 0) == Some(After(rows))
  {
    PatchFrom(rows, context, 0);
    assert rows[..0] == [];
    assert rows[0..] == rows;
  }

  // ----- The same, backwards -----

  function FlipRow(row: Row): Row {
    match row
    case Keep(line) => row
    case Add(line) => Del(line)
    case Del(line) => Add(line)
  }

  function Flip(rows: seq<Row>): (flipped: seq<Row>)
    ensures |flipped| == |rows|
    ensures forall r :: 0 <= r < |rows| ==> flipped[r] == FlipRow(rows[r])
  {
    seq(|rows|, r requires 0 <= r < |rows| => FlipRow(rows[r]))
  }

  /** A hunk read in the other direction: `-` and `+` exchanged in its header and its rows. */
  function FlipHunk(h: Hunk): Hunk {
    Hunk(h.afterStart, h.afterCount, h.beforeStart, h.beforeCount, Flip(h.rows))
  }

  function FlipHunks(hunks: seq<Hunk>): (flipped: seq<Hunk>)
    ensures |flipped| == |hunks|
    ensures forall k :: 0 <= k < |hunks| ==> flipped[k] == FlipHunk(hunks[k])
  {
    seq(|hunks|, k requires 0 <= k < |hunks| => FlipHunk(hunks[k]))
  }

  lemma {:induction false} FlippedTexts(rows: seq<Row>)
    ensures Before(Flip(rows)) == After(rows) && After(Flip(rows)) == Before(rows)
  {
    if rows != [] {
      FlippedTexts(rows[1..]);
      assert Flip(rows)[1..] == Flip(rows[1..]);
    }
  }

  lemma FlippedNear(rows: seq<Row>, context: nat, i: int)
    ensures Near(Flip(rows), context, i) == Near(rows, context, i)
  {
    var flipped := Flip(rows);
    forall c | 0 <= c < |rows|
      ensures flipped[c].Keep? == rows[c].Keep?
    {
    }
  }

  lemma {:induction false} FlippedNext(rows: seq<Row>, context: nat, i: nat)
    requires i <= |rows|
    ensures NextNear(Flip(rows), context, i) == NextNear(rows, context, i)
    ensures NextFar(Flip(rows), context, i) == NextFar(rows, context, i)
    decreases |rows| - i
  {
    if i < |rows| {
      FlippedNear(rows, context, i);
      FlippedNext(rows, context, i + 1);
    }
  }

  lemma {:induction false} FlippedSpans(rows: seq<Row>, context: nat, i: nat)
    requires i <= |rows|
    ensures Spans(Flip(rows), context, i) == Spans(rows, context, i)
    decreases |rows| - i
  {
    FlippedNext(rows, context, i);
    var s := NextNear(rows, context, i);
    if s < |rows| {
      FlippedNext(rows, context, s);
      FlippedSpans(rows, context, NextFar(rows, context, s));
    }
  }

  lemma FlippedHunk(rows: seq<Row>, span: Span)
    requires span.start <= span.end <= |rows|
    ensures HunkAt(Flip(rows), span) == FlipHunk(HunkAt(rows, span))
  {
    assert Flip(rows)[span.start..span.end] == Flip(rows[span.start..span.end]);
    assert Flip(rows)[..span.start] == Flip(rows[..span.start]);
    FlippedTexts(rows[span.start..span.end]);
    FlippedTexts(rows[..span.start]);
  }

  /** Read in the other direction, the same hunks turn the new text back into exactly the old one. */
  lemma PatchGivesBefore(rows: seq<Row>, context: nat)
    ensures Apply(After(rows), FlipHunks(HunksNear(rows, context, 0)), 0) == Some(Before(rows))
  {
    PatchGivesAfter(Flip(rows), context);
    FlippedTexts(rows);
    FlippedSpans(rows, context, 0);
    SpansOrdered(rows, context, 0);
    var spans := Spans(rows, context, 0);
    forall k | 0 <= k < |spans|
      ensures HunkAt(Flip(rows), spans[k]) == FlipHunk(HunkAt(rows, spans[k]))
    {
      FlippedHunk(rows, spans[k]);
    }
    assert HunksNear(Flip(rows), context, 0) == FlipHunks(HunksNear(rows, context, 0));
  }
}

/** `buildUnifiedDiff`. */
module UnifiedDiffs {
  import opened Wrappers
  import opened Lines
  import opened EditScripts
  import opened Hunks
  import opened Patching

  /** What follows the `--- before` and `+++ after` lines, or that there is nothing to show. */
  datatype Diff = NoChanges | Listing(rows: seq<Row>) | InHunks(hunks: seq<Hunk>) | OnlyFinalNewline

  method BuildUnifiedDiff(beforeText: string, afterText: string, context: Option<nat>) returns (diff: Diff)
    ensures diff.NoChanges? <==> beforeText == afterText
    ensures diff.Listing? ==> context.None? && diff.rows == EditScript(Split(beforeText), Split(afterText), 0, 0)
    ensures diff.InHunks? ==> context.Some? && diff.hunks != []
    ensures diff.InHunks? ==> diff.hunks == DiffHunks(beforeText, afterText, context.value)
    ensures diff.OnlyFinalNewline? <==>
              context.Some? && beforeText != afterText && DiffLines(beforeText, context) == DiffLines(afterText, context)
  {
    if beforeText == afterText {
      return NoChanges;
    }
    var before, after := DiffLines(beforeText, context), DiffLines(afterText, context);
    var lines := BuildEditScript(before, after);
    match context {
      case None =>
        ListingShowsChange(beforeText, afterText);
        return if lines == [] then OnlyFinalNewline else Listing(lines);
      case Some(n) =>
        var body := ContextHunks(lines, n);
        NoHunksSameLines(beforeText, afterText, n);
        return if body == [] then OnlyFinalNewline else InHunks(body);
    }
  }

  /** The hunks of the diff of two texts. */
  function DiffHunks(beforeText: string, afterText: string, context: nat): seq<Hunk> {
    var before, after := DiffLines(beforeText, Some(context)), DiffLines(afterText, Some(context));
    HunksNear(RemovalsFirst(EditScript(before, after, 0, 0), 0), context, 0)
  }

  lemma {:induction false} ScriptOfEqual(lines: seq<string>, i: nat)
    requires i <= |lines|
    ensures forall r :: 0 <= r < |EditScript(lines, lines, i, i)| ==> EditScript(lines, lines, i, i)[r].Keep?
    decreases |lines| - i
  {
    if i < |lines| {
      ScriptOfEqual(lines, i + 1);
    }
  }

  lemma {:induction false} KeptRowsStay(rows: seq<Row>, k: nat)
    requires k <= |rows| && forall r :: 0 <= r < |rows| ==> rows[r].Keep?
    ensures RemovalsFirst(rows, k) == rows[k..]
    decreases |rows| - k
  {
    if k < |rows| {
      KeptRowsStay(rows, k + 1);
    }
  }

  /** The hunks patch the old lines into the new ones and back. */
  lemma DiffPatches(beforeText: string, afterText: string, n: nat)
    ensures var before, after := DiffLines(beforeText, Some(n)), DiffLines(afterText, Some(n));
      var hunks := DiffHunks(beforeText, afterText, n);
      && Apply(before, hunks, 0) == Some(after)
      && Apply(after, FlipHunks(hunks), 0) == Some(before)
  {
    var before, after := DiffLines(beforeText, Some(n)), DiffLines(afterText, Some(n));
    var script := EditScript(before, after, 0, 0);
    ScriptRewrites(before, after, 0, 0);
    ReorderingKeepsTexts(script, 0);
    assert before[0..] == before && after[0..] == after && script[0..] == script;
    PatchGivesAfter(RemovalsFirst(script, 0), n);
    PatchGivesBefore(RemovalsFirst(script, 0), n);
  }

  /** No hunk is left exactly when the two texts have the same lines, and then they differ by one final newline. */
  lemma NoHunksSameLines(beforeText: string, afterText: string, n: nat)
    requires beforeText != afterText
    ensures DiffHunks(beforeText, afterText, n) == [] <==>
            DiffLines(beforeText, Some(n)) == DiffLines(afterText, Some(n))
    ensures DiffHunks(beforeText, afterText, n) == [] ==> FinalNewlineOnly(beforeText, afterText)
  {
    var before, after := DiffLines(beforeText, Some(n)), DiffLines(afterText, Some(n));
    DiffPatches(beforeText, afterText, n);
    if before == after {
      var script := EditScript(before, after, 0, 0);
      ScriptOfEqual(before, 0);
      KeptRowsStay(script, 0);
      assert NextNear(script, n, 0) == |script|;
      SameDiffLines(beforeText, afterText, Some(n));
    }
    if DiffHunks(beforeText, afterText, n) == [] {
      assert before[0..] == before;
    }
  }

  /** Without a context the texts' lines differ, so the listing is never empty. */
  lemma ListingShowsChange(beforeText: string, afterText: string)
    requires beforeText != afterText
    ensures Changes(EditScript(Split(beforeText), Split(afterText), 0, 0)) > 0
  {
    var before, after := Split(beforeText), Split(afterText);
    JoinSplit(beforeText);
    JoinSplit(afterText);
    ScriptRewrites(before, after, 0, 0);
    assert before[0..] == before && after[0..] == after;
    if Changes(EditScript(before, after, 0, 0)) == 0 {
      UnchangedTexts(EditScript(before, after, 0, 0));
    }
  }

  lemma {:induction false} UnchangedTexts(rows: seq<Row>)
    requires Changes(rows) == 0
    ensures Before(rows) == After(rows)
  {
    if rows != [] {
      UnchangedTexts(rows[1..]);
    }
  }
}
