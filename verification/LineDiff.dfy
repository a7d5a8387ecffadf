/** How `buildUnifiedDiff` cuts a text into lines. */
module Lines {
  import opened Wrappers

  /** `text.split("\n")`: one line more than the text has newlines. */
  function Split(text: string): (lines: seq<string>)
    ensures |lines| >= 1
  {
    if text == "" then
      [""]
    else
      var rest := Split(text[1..]);
      if text[0] == '\n' then [""] + rest else [[text[0]] + rest[0]] + rest[1..]
  }

  function Join(lines: seq<string>): string {
    if lines == [] then ""
    else if |lines| == 1 then lines[0]
    else lines[0] + "\n" + Join(lines[1..])
  }

  predicate EndsLine(text: string) {
    text == "" || text[|text| - 1] == '\n'
  }

  /** The lines a diff compares: with a context, without the blank one that splitting finds after a last newline. */
  function DiffLines(text: string, context: Option<nat>): seq<string> {
    var lines := Split(text);
    if context.Some? && EndsLine(text) then lines[..|lines| - 1] else lines
  }

  lemma {:induction false} JoinSplit(text: string)
    ensures Join(Split(text)) == text
  {
    if text != "" {
      var rest := Split(text[1..]);
      JoinSplit(text[1..]);
      if text[0] == '\n' {
        assert ([""] + rest)[1..] == rest;
      } else {
        assert ([[text[0]] + rest[0]] + rest[1..])[1..] == rest[1..];
      }
    }
  }

  lemma {:induction false} LastLine(text: string)
    ensures EndsLine(text) <==> Split(text)[|Split(text)| - 1] == ""
  {
    if text != "" {
      LastLine(text[1..]);
    }
  }

  lemma {:induction false} JoinBlankLine(lines: seq<string>)
    requires lines != []
    ensures Join(lines + [""]) == Join(lines) + "\n"
  {
    if |lines| > 1 {
      JoinBlankLine(lines[1..]);
      assert (lines + [""])[1..] == lines[1..] + [""];
    } else {
      assert (lines + [""])[1..] == [""];
    }
  }

  /** Two texts differ in nothing but one final newline. */
  predicate FinalNewlineOnly(a: string, b: string) {
    a == b + "\n" || b == a + "\n"
  }

  /** Counting lines as `diff -u` does confuses two texts only when one is the other with its final newline. */
  lemma SameDiffLines(a: string, b: string, context: Option<nat>)
    requires DiffLines(a, context) == DiffLines(b, context)
    ensures a == b || (context.Some? && FinalNewlineOnly(a, b))
  {
    var lines := DiffLines(a, context);
    TextOfLines(a, context);
    TextOfLines(b, context);
  }

  /** A text from the lines a diff compares, and whether it ends a line. */
  lemma TextOfLines(text: string, context: Option<nat>)
    ensures var lines := DiffLines(text, context);
      if context.None? || !EndsLine(text) then text == Join(lines) && lines != []
      else text == if lines == [] then "" else Join(lines) + "\n"
  {
    JoinSplit(text);
    if context.Some? && EndsLine(text) {
      var lines := DiffLines(text, context);
      LastLine(text);
      assert Split(text) == lines + [""];
      if lines != [] {
        JoinBlankLine(lines);
      }
    }
  }

  predicate NoNewline(line: string) {
    forall i :: 0 <= i < |line| ==> line[i] != '\n'
  }

  predicate AreLines(lines: seq<string>) {
    forall k :: 0 <= k < |lines| ==> NoNewline(lines[k])
  }

  /** A line ends at every newline. */
  lemma {:induction false} LinesEndAtNewlines(text: string)
    ensures AreLines(Split(text))
  {
    if text != "" {
      LinesEndAtNewlines(text[1..]);
      var rest := Split(text[1..]);
      assert AreLines(rest);
      if text[0] != '\n' {
        assert NoNewline([text[0]] + rest[0]);
      }
    }
  }

  /** So no other cut gives the text back: the lines of a text are the only ones that join to it. */
  lemma {:induction false} SplitIsOnlyCut(lines: seq<string>)
    requires lines != [] && AreLines(lines)
    ensures Split(Join(lines)) == lines
    decreases |lines|, |Join(lines)|
  {
    if |lines| == 1 {
      SplitOneLine(lines[0]);
    } else {
      SplitIsOnlyCut(lines[1..]);
      SplitFirstLine(lines[0], Join(lines[1..]));
      assert lines == [lines[0]] + lines[1..];
    }
  }

  lemma {:induction false} SplitOneLine(line: string)
    requires NoNewline(line)
    ensures Split(line) == [line]
  {
    if line != "" {
      SplitOneLine(line[1..]);
      assert [line[0]] + line[1..] == line;
    }
  }

  lemma {:induction false} SplitFirstLine(line: string, text: string)
    requires NoNewline(line)
    ensures Split(line + "\n" + text) == [line] + Split(text)
  {
    var all := line + "\n" + text;
    if line == "" {
      assert all[1..] == text;
    } else {
      SplitFirstLine(line[1..], text);
      assert all[1..] == line[1..] + "\n" + text;
      assert [line[0]] + line[1..] == line;
    }
  }

  /** The lines that are compared are the only ones that give the text, with its final newline where a context ends it. */
  lemma DiffLinesExactly(text: string, context: Option<nat>, lines: seq<string>)
    requires AreLines(lines)
    ensures AreLines(DiffLines(text, context))
    ensures lines == DiffLines(text, context) <==>
            if context.None? || !EndsLine(text) then lines != [] && text == Join(lines)
            else text == if lines == [] then "" else Join(lines) + "\n"
  {
    LinesEndAtNewlines(text);
    TextOfLines(text, context);
    if context.None? || !EndsLine(text) {
      if lines != [] {
        SplitIsOnlyCut(lines);
      }
    } else if lines != [] {
      SplitIsOnlyCut(lines);
      SplitFinalNewline(Join(lines));
    }
  }

  /** The converse: adding a final newline to an unterminated, non-empty text changes no line. */
  lemma FinalNewlineSameLines(a: string, context: nat)
    requires !EndsLine(a)
    ensures DiffLines(a, Some(context)) == DiffLines(a + "\n", Some(context))
  {
    SplitFinalNewline(a);
  }

  lemma {:induction false} SplitFinalNewline(a: string)
    ensures Split(a + "\n") == Split(a) + [""]
  {
    if a == "" {
      assert Split("\n") == [""] + Split("\n"[1..]);
    } else {
      SplitFinalNewline(a[1..]);
      assert (a + "\n")[1..] == a[1..] + "\n";
    }
  }
}

/** The edit script of two line sequences: the table and the walk of `buildUnifiedDiff`. */
module EditScripts {
  import opened Wrappers

  /** A row of a diff: two spaces, `+ ` or `- `, and the line. */
  datatype Row = Keep(line: string) | Add(line: string) | Del(line: string)

  /** What the rows show of the old text: the added rows dropped. */
  function Before(rows: seq<Row>): seq<string> {
    if rows == [] then []
    else (if rows[0].Add? then [] else [rows[0].line]) + Before(rows[1..])
  }

  /** What the rows show of the new text: the removed rows dropped. */
  function After(rows: seq<Row>): seq<string> {
    if rows == [] then []
    else (if rows[0].Del? then [] else [rows[0].line]) + After(rows[1..])
  }

  function Kept(rows: seq<Row>): seq<string> {
    if rows == [] then []
    else (if rows[0].Keep? then [rows[0].line] else []) + Kept(rows[1..])
  }

  /** The number of added and removed rows. */
  function Changes(rows: seq<Row>): nat {
    if rows == [] then 0
    else (if rows[0].Keep? then 0 else 1) + Changes(rows[1..])
  }

  predicate IsSubsequence(s: seq<string>, t: seq<string>) {
    if s == [] then true
    else if t == [] then false
    else (s[0] == t[0] && IsSubsequence(s[1..], t[1..])) || IsSubsequence(s, t[1..])
  }

  /** The recurrence the table is filled by, on the lines of `a` from `i` and of `b` from `j`. */
  function Lcs(a: seq<string>, b: seq<string>, i: nat, j: nat): nat
    requires i <= |a| && j <= |b|
    decreases |a| - i + |b| - j
  {
    if i == |a| || j == |b| then 0
    else if a[i] == b[j] then Lcs(a, b, i + 1, j + 1) + 1
    else Max(Lcs(a, b, i + 1, j), Lcs(a, b, i, j + 1))
  }

  /** The script the walk emits: keep equal lines, else add when that loses no common line, else remove. */
  function EditScript(a: seq<string>, b: seq<string>, i: nat, j: nat): seq<Row>
    requires i <= |a| && j <= |b|
    decreases |a| - i + |b| - j
  {
    if i < |a| && j < |b| && a[i] == b[j] then
      [Keep(a[i])] + EditScript(a, b, i + 1, j + 1)
    else if j < |b| && (i == |a| || Lcs(a, b, i, j + 1) >= Lcs(a, b, i + 1, j)) then
      [Add(b[j])] + EditScript(a, b, i, j + 1)
    else if i < |a| then
      [Del(a[i])] + EditScript(a, b, i + 1, j)
    else
      []
  }

  /** The cells of row `i`, from the row below it. */
  method FillRow(before: seq<string>, after: seq<string>, lcs: array2<nat>, i: nat)
    requires lcs.Length0 == |before| + 1 && lcs.Length1 == |after| + 1 && i < |before|
    requires forall p, q :: i < p <= |before| && 0 <= q <= |after| ==> lcs[p, q] == Lcs(before, after, p, q)
    requires lcs[i, |after|] == 0
    modifies lcs
    ensures forall q :: 0 <= q <= |after| ==> lcs[i, q] == Lcs(before, after, i, q)
    ensures forall p, q :: 0 <= p <= |before| && 0 <= q <= |after| && p != i ==> lcs[p, q] == old(lcs[p, q])
  {
    for j := |after| downto 0
      invariant forall q :: j <= q <= |after| ==> lcs[i, q] == Lcs(before, after, i, q)
      invariant forall p, q :: 0 <= p <= |before| && 0 <= q <= |after| && p != i ==> lcs[p, q] == old(lcs[p, q])
    {
      lcs[i, j] := if before[i] == after[j] then lcs[i + 1, j + 1] + 1 else Max(lcs[i + 1, j], lcs[i, j + 1]);
    }
  }

  method FillTable(before: seq<string>, after: seq<string>) returns (lcs: array2<nat>)
    ensures lcs.Length0 == |before| + 1 && lcs.Length1 == |after| + 1
    ensures forall p, q :: 0 <= p <= |before| && 0 <= q <= |after| ==> lcs[p, q] == Lcs(before, after, p, q)
  {
    var rows, cols := |before|, |after|;
    lcs := new nat[rows + 1, cols + 1]((_, _) => 0);
    for i := rows downto 0
      invariant forall p :: 0 <= p < i ==> lcs[p, cols] == 0
      invariant forall p, q :: i <= p <= rows && 0 <= q <= cols ==> lcs[p, q] == Lcs(before, after, p, q)
    {
      FillRow(before, after, lcs, i);
    }
  }

  /** What one more row in front shows. */
  lemma ConsRow(row: Row, rest: seq<Row>)
    ensures Before([row] + rest) == (if row.Add? then [] else [row.line]) + Before(rest)
    ensures After([row] + rest) == (if row.Del? then [] else [row.line]) + After(rest)
    ensures Kept([row] + rest) == (if row.Keep? then [row.line] else []) + Kept(rest)
  {
    ConsBefore(row, rest);
    ConsAfter(row, rest);
    assert ([row] + rest)[1..] == rest;
  }

  lemma ConsBefore(row: Row, rest: seq<Row>)
    ensures Before([row] + rest) == (if row.Add? then [] else [row.line]) + Before(rest)
  {
    assert ([row] + rest)[1..] == rest;
  }

  lemma ConsAfter(row: Row, rest: seq<Row>)
    ensures After([row] + rest) == (if row.Del? then [] else [row.line]) + After(rest)
  {
    assert ([row] + rest)[1..] == rest;
  }

  lemma AppendMany<T>(x: seq<T>, y: seq<T>, z: seq<T>)
    ensures x + (y + z) == (x + y) + z
  {
  }

  lemma AppendOne<T>(x: seq<T>, y: T, z: seq<T>)
    ensures x + ([y] + z) == (x + [y]) + z
  {
  }

  /** One step of the walk at `(i, j)`, read from the table: the row to emit and where to go on. */
  method WalkStep(before: seq<string>, after: seq<string>, lcs: array2<nat>, i: nat, j: nat)
    returns (row: Row, i': nat, j': nat)
    requires lcs.Length0 == |before| + 1 && lcs.Length1 == |after| + 1
    requires forall p, q :: 0 <= p <= |before| && 0 <= q <= |after| ==> lcs[p, q] == Lcs(before, after, p, q)
    requires i <= |before| && j <= |after| && (i < |before| || j < |after|)
    ensures i <= i' <= |before| && j <= j' <= |after| && i + j < i' + j'
    ensures EditScript(before, after, i, j) == [row] + EditScript(before, after, i', j')
  {
    if i < |before| && j < |after| && before[i] == after[j] {
      return Keep(before[i]), i + 1, j + 1;
    }
    if j < |after| && (i == |before| || lcs[i, j + 1] >= lcs[i + 1, j]) {
      return Add(after[j]), i, j + 1;
    }
    return Del(before[i]), i + 1, j;
  }

  method BuildEditScript(before: seq<string>, after: seq<string>) returns (lines: seq<Row>)
    ensures lines == EditScript(before, after, 0, 0)
  {
    var lcs := FillTable(before, after);
    lines := [];
    var i, j := 0, 0;
    while i < |before| || j < |after|
      invariant 0 <= i <= |before| && 0 <= j <= |after|
      invariant forall p, q :: 0 <= p <= |before| && 0 <= q <= |after| ==> lcs[p, q] == Lcs(before, after, p, q)
      invariant EditScript(before, after, 0, 0) == lines + EditScript(before, after, i, j)
      decreases |before| - i + |after| - j
    {
      var row, i', j' := WalkStep(before, after, lcs, i, j);
      AppendOne(lines, row, EditScript(before, after, i', j'));
      lines, i, j := lines + [row], i', j';
    }
  }

  /** One row more rewrites one line more of each text that it shows. */
  lemma OneRowRewrites(a: seq<string>, b: seq<string>, i: nat, j: nat, row: Row, rest: seq<Row>, i': nat, j': nat)
    requires i <= i' <= |a| && j <= j' <= |b| && Before(rest) == a[i'..] && After(rest) == b[j'..]
    requires if row.Add? then i' == i else i' == i + 1 && row.line == a[i]
    requires if row.Del? then j' == j else j' == j + 1 && row.line == b[j]
    ensures Before([row] + rest) == a[i..] && After([row] + rest) == b[j..]
    ensures |Kept([row] + rest)| == |Kept(rest)| + (if row.Keep? then 1 else 0)
  {
    ConsRow(row, rest);
  }

  /** The script rewrites `a` into `b` and keeps as many lines as the recurrence counts. */
  lemma {:induction false} ScriptRewrites(a: seq<string>, b: seq<string>, i: nat, j: nat)
    requires i <= |a| && j <= |b|
    ensures Before(EditScript(a, b, i, j)) == a[i..] && After(EditScript(a, b, i, j)) == b[j..]
    ensures |Kept(EditScript(a, b, i, j))| == Lcs(a, b, i, j)
    decreases |a| - i + |b| - j
  {
    if i < |a| && j < |b| && a[i] == b[j] {
      ScriptRewrites(a, b, i + 1, j + 1);
      OneRowRewrites(a, b, i, j, Keep(a[i]), EditScript(a, b, i + 1, j + 1), i + 1, j + 1);
    } else if j < |b| && (i == |a| || Lcs(a, b, i, j + 1) >= Lcs(a, b, i + 1, j)) {
      ScriptRewrites(a, b, i, j + 1);
      OneRowRewrites(a, b, i, j, Add(b[j]), EditScript(a, b, i, j + 1), i, j + 1);
    } else if i < |a| {
      ScriptRewrites(a, b, i + 1, j);
      OneRowRewrites(a, b, i, j, Del(a[i]), EditScript(a, b, i + 1, j), i + 1, j);
    }
  }

  lemma {:induction false} SubsequenceTails(s: seq<string>, t: seq<string>)
    requires s != [] && t != [] && IsSubsequence(s, t)
    ensures IsSubsequence(s[1..], t[1..])
  {
    if !(s[0] == t[0] && IsSubsequence(s[1..], t[1..])) {
      SubsequenceTails(s, t[1..]);
      SubsequenceWeaken(s[1..], t[1..]);
    }
  }

  lemma {:induction false} SubsequenceWeaken(s: seq<string>, t: seq<string>)
    requires t != [] && IsSubsequence(s, t[1..])
    ensures IsSubsequence(s, t)
  {
  }

  /** No common subsequence is longer than the recurrence counts. */
  lemma {:induction false} LcsBounds(s: seq<string>, a: seq<string>, b: seq<string>, i: nat, j: nat)
    requires i <= |a| && j <= |b| && IsSubsequence(s, a[i..]) && IsSubsequence(s, b[j..])
    ensures |s| <= Lcs(a, b, i, j)
    decreases |a| - i + |b| - j
  {
    if s != [] {
      assert a[i..][1..] == a[i + 1..] && b[j..][1..] == b[j + 1..];
      if a[i] == b[j] {
        SubsequenceTails(s, a[i..]);
        SubsequenceTails(s, b[j..]);
        LcsBounds(s[1..], a, b, i + 1, j + 1);
      } else if s[0] != a[i] {
        LcsBounds(s, a, b, i + 1, j);
      } else {
        LcsBounds(s, a, b, i, j + 1);
      }
    }
  }

  /** The kept lines of any script are a common subsequence, and its size and changes add up to the two texts. */
  lemma {:induction false} KeptIsCommon(rows: seq<Row>)
    ensures IsSubsequence(Kept(rows), Before(rows)) && IsSubsequence(Kept(rows), After(rows))
    ensures Changes(rows) + 2 * |Kept(rows)| == |Before(rows)| + |After(rows)|
  {
    if rows != [] {
      KeptIsCommon(rows[1..]);
      var k, b, a := Kept(rows), Before(rows), After(rows);
      if rows[0].Keep? {
        assert k[1..] == Kept(rows[1..]) && b[1..] == Before(rows[1..]) && a[1..] == After(rows[1..]);
      } else if rows[0].Del? {
        assert k == Kept(rows[1..]) && b[1..] == Before(rows[1..]) && a == After(rows[1..]);
        SubsequenceWeaken(k, b);
      } else {
        assert k == Kept(rows[1..]) && a[1..] == After(rows[1..]) && b == Before(rows[1..]);
        SubsequenceWeaken(k, a);
      }
    }
  }

  /** The kept lines are a longest common subsequence, so no script between the two texts changes fewer rows. */
  lemma ScriptIsMinimal(a: seq<string>, b: seq<string>, other: seq<Row>)
    requires Before(other) == a && After(other) == b
    ensures Changes(EditScript(a, b, 0, 0)) <= Changes(other)
    ensures forall s :: IsSubsequence(s, a) && IsSubsequence(s, b) ==> |s| <= |Kept(EditScript(a, b, 0, 0))|
    ensures IsSubsequence(Kept(EditScript(a, b, 0, 0)), a) && IsSubsequence(Kept(EditScript(a, b, 0, 0)), b)
  {
    assert a[0..] == a && b[0..] == b;
    ScriptRewrites(a, b, 0, 0);
    KeptIsCommon(EditScript(a, b, 0, 0));
    KeptIsCommon(other);
    LcsBounds(Kept(other), a, b, 0, 0);
    forall s | IsSubsequence(s, a) && IsSubsequence(s, b)
      ensures |s| <= |Kept(EditScript(a, b, 0, 0))|
    {
      LcsBounds(s, a, b, 0, 0);
    }
  }
}
