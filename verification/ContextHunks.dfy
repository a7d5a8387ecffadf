/** `contextHunks`: an edit script cut into the hunks of a unified diff. */
module Hunks {
  import opened Wrappers
  import opened EditScripts

  /** A hunk under its header `@@ -beforeStart,beforeCount +afterStart,afterCount @@`. */
  datatype Hunk = Hunk(beforeStart: int, beforeCount: nat, afterStart: int, afterCount: nat, rows: seq<Row>)

  datatype Span = Span(start: nat, end: nat)

  // ----- Removals before additions -----

  /** The removed rows from `i` on. */
  function Dels(rows: seq<Row>, i: nat): seq<Row>
    requires i <= |rows|
    decreases |rows| - i
  {
    if i == |rows| then [] else (if rows[i].Del? then [rows[i]] else []) + Dels(rows, i + 1)
  }

  /** The added rows from `i` on. */
  function Adds(rows: seq<Row>, i: nat): seq<Row>
    requires i <= |rows|
    decreases |rows| - i
  {
    if i == |rows| then [] else (if rows[i].Add? then [rows[i]] else []) + Adds(rows, i + 1)
  }

  /** Where the run of changed rows at `k` ends. */
  function RunEnd(rows: seq<Row>, k: nat): (end: nat)
    requires k <= |rows|
    ensures k <= end <= |rows|
    ensures forall i :: k <= i < end ==> !rows[i].Keep?
    ensures end < |rows| ==> rows[end].Keep?
    decreases |rows| - k
  {
    if k == |rows| || rows[k].Keep? then k else RunEnd(rows, k + 1)
  }

  /** The rows from `k` on, every run of changed rows with its removals moved before its additions. */
  function RemovalsFirst(rows: seq<Row>, k: nat): seq<Row>
    requires k <= |rows|
    decreases |rows| - k
  {
    if k == |rows| then []
    else if rows[k].Keep? then [rows[k]] + RemovalsFirst(rows, k + 1)
    else
      var run := rows[k..RunEnd(rows, k)];
      Dels(run, 0) + Adds(run, 0) + RemovalsFirst(rows, RunEnd(rows, k))
  }

  method OrderRun(ordered: seq<Row>, run: seq<Row>) returns (extended: seq<Row>)
    ensures extended == ordered + (Dels(run, 0) + Adds(run, 0))
  {
    extended := ordered;
    for i := 0 to |run|
      invariant extended + Dels(run, i) == ordered + Dels(run, 0)
    {
      if run[i].Del? {
        extended := extended + [run[i]];
      }
    }
    ghost var removed := extended;
    assert removed == ordered + Dels(run, 0);
    for i := 0 to |run|
      invariant extended + Adds(run, i) == removed + Adds(run, 0)
    {
      if run[i].Add? {
        extended := extended + [run[i]];
      }
    }
    assert extended == removed + Adds(run, 0);
  }

  method TakeRun(lines: seq<Row>, first: nat) returns (run: seq<Row>, k: nat)
    requires first < |lines| && !lines[first].Keep?
    ensures first < k <= |lines| && k == RunEnd(lines, first) && run == lines[first..k]
  {
    run, k := [], first;
    while k < |lines| && !lines[k].Keep?
      invariant first <= k <= |lines| && run == lines[first..k]
      invariant RunEnd(lines, first) == RunEnd(lines, k)
    {
      run := run + [lines[k]];
      k := k + 1;
    }
  }

  lemma RemovalsAtKeep(rows: seq<Row>, k: nat)
    requires k < |rows| && rows[k].Keep?
    ensures RemovalsFirst(rows, k) == [rows[k]] + RemovalsFirst(rows, k + 1)
  {
  }

  lemma RemovalsAtRun(rows: seq<Row>, k: nat, run: seq<Row>)
    requires k < |rows| && !rows[k].Keep? && run == rows[k..RunEnd(rows, k)]
    ensures RemovalsFirst(rows, k) == Dels(run, 0) + Adds(run, 0) + RemovalsFirst(rows, RunEnd(rows, k))
  {
  }

  method OrderRows(lines: seq<Row>) returns (ordered: seq<Row>)
    ensures ordered == RemovalsFirst(lines, 0)
  {
    ordered := [];
    var k := 0;
    while k < |lines|
      invariant 0 <= k <= |lines|
      invariant RemovalsFirst(lines, 0) == ordered + RemovalsFirst(lines, k)
    {
      if lines[k].Keep? {
        RemovalsAtKeep(lines, k);
        assert RemovalsFirst(lines, 0) == ordered + ([lines[k]] + RemovalsFirst(lines, k + 1));
        AppendOne(ordered, lines[k], RemovalsFirst(lines, k + 1));
        ordered := ordered + [lines[k]];
        k := k + 1;
      } else {
        var run, end := TakeRun(lines, k);
        ghost var part, rest := Dels(run, 0) + Adds(run, 0), RemovalsFirst(lines, end);
        RemovalsAtRun(lines, k, run);
        assert RemovalsFirst(lines, 0) == ordered + (part + rest);
        AppendMany(ordered, part, rest);
        ordered := OrderRun(ordered, run);
        k := end;
      }
    }
  }

  lemma {:induction false} BeforeConcat(x: seq<Row>, y: seq<Row>)
    ensures Before(x + y) == Before(x) + Before(y)
  {
    if x == [] {
      assert x + y == y;
    } else {
      BeforeConcat(x[1..], y);
      BeforeConcatRow(x[0], x[1..], y);
      assert x == [x[0]] + x[1..];
    }
  }

  lemma BeforeConcatRow(row: Row, tail: seq<Row>, y: seq<Row>)
    requires Before(tail + y) == Before(tail) + Before(y)
    ensures Before([row] + tail + y) == Before([row] + tail) + Before(y)
  {
    ConsBefore(row, tail);
    ConsBefore(row, tail + y);
    assert [row] + tail + y == [row] + (tail + y);
    AppendMany(if row.Add? then [] else [row.line], Before(tail), Before(y));
  }

  lemma {:induction false} AfterConcat(x: seq<Row>, y: seq<Row>)
    ensures After(x + y) == After(x) + After(y)
  {
    if x == [] {
      assert x + y == y;
    } else {
      AfterConcat(x[1..], y);
      AfterConcatRow(x[0], x[1..], y);
      assert x == [x[0]] + x[1..];
    }
  }

  lemma AfterConcatRow(row: Row, tail: seq<Row>, y: seq<Row>)
    requires After(tail + y) == After(tail) + After(y)
    ensures After([row] + tail + y) == After([row] + tail) + After(y)
  {
    ConsAfter(row, tail);
    ConsAfter(row, tail + y);
    assert [row] + tail + y == [row] + (tail + y);
    AppendMany(if row.Del? then [] else [row.line], After(tail), After(y));
  }

  lemma ProjectionsConcat(x: seq<Row>, y: seq<Row>)
    ensures Before(x + y) == Before(x) + Before(y)
    ensures After(x + y) == After(x) + After(y)
  {
    BeforeConcat(x, y);
    AfterConcat(x, y);
  }

  lemma {:induction false} DelsOfRun(run: seq<Row>, i: nat)
    requires i <= |run| && forall k :: 0 <= k < |run| ==> !run[k].Keep?
    ensures Before(Dels(run, i)) == Before(run[i..]) && After(Dels(run, i)) == []
    decreases |run| - i
  {
    if i < |run| {
      DelsOfRun(run, i + 1);
      assert run[i..][1..] == run[i + 1..];
      assert Dels(run, i) == (if run[i].Del? then [run[i]] else []) + Dels(run, i + 1);
      assert run[i].Del? ==> Dels(run, i)[1..] == Dels(run, i + 1);
      assert run[i].Add? ==> Dels(run, i) == Dels(run, i + 1);
    }
  }

  lemma {:induction false} AddsOfRun(run: seq<Row>, i: nat)
    requires i <= |run| && forall k :: 0 <= k < |run| ==> !run[k].Keep?
    ensures After(Adds(run, i)) == After(run[i..]) && Before(Adds(run, i)) == []
    decreases |run| - i
  {
    if i < |run| {
      AddsOfRun(run, i + 1);
      assert run[i..][1..] == run[i + 1..];
      assert Adds(run, i) == (if run[i].Add? then [run[i]] else []) + Adds(run, i + 1);
      assert run[i].Add? ==> Adds(run, i)[1..] == Adds(run, i + 1);
      assert run[i].Del? ==> Adds(run, i) == Adds(run, i + 1);
    }
  }

  lemma OrderedRun(rows: seq<Row>, k: nat, rest: seq<Row>)
    requires k < |rows| && !rows[k].Keep?
    ensures var run := rows[k..RunEnd(rows, k)];
      && Before(Dels(run, 0) + Adds(run, 0) + rest) == Before(run) + Before(rest)
      && After(Dels(run, 0) + Adds(run, 0) + rest) == After(run) + After(rest)
  {
    var run := rows[k..RunEnd(rows, k)];
    assert run[0..] == run;
    DelsOfRun(run, 0);
    AddsOfRun(run, 0);
    DelsThenAdds(run, Dels(run, 0), Adds(run, 0), rest);
  }

  lemma DelsThenAdds(run: seq<Row>, dels: seq<Row>, adds: seq<Row>, rest: seq<Row>)
    requires Before(dels) == Before(run) && After(dels) == [] && Before(adds) == [] && After(adds) == After(run)
    ensures Before(dels + adds + rest) == Before(run) + Before(rest)
    ensures After(dels + adds + rest) == After(run) + After(rest)
  {
    ProjectionsConcat(dels, adds);
    assert Before(run) + [] == Before(run) && [] + After(run) == After(run);
    ProjectionsConcat(dels + adds, rest);
  }

  /** Reordering the runs changes neither text. */
  lemma {:induction false} ReorderingKeepsTexts(rows: seq<Row>, k: nat)
    requires k <= |rows|
    ensures Before(RemovalsFirst(rows, k)) == Before(rows[k..])
    ensures After(RemovalsFirst(rows, k)) == After(rows[k..])
    decreases |rows| - k
  {
    if k < |rows| {
      if rows[k].Keep? {
        ReorderingKeepsTexts(rows, k + 1);
        assert rows[k..] == [rows[k]] + rows[k + 1..];
        ProjectionsConcat([rows[k]], rows[k + 1..]);
        ProjectionsConcat([rows[k]], RemovalsFirst(rows, k + 1));
      } else {
        var e := RunEnd(rows, k);
        ReorderingKeepsTexts(rows, e);
        assert rows[k..] == rows[k..e] + rows[e..];
        ProjectionsConcat(rows[k..e], rows[e..]);
        OrderedRun(rows, k, RemovalsFirst(rows, e));
      }
    }
  }

  /** Row `r` is not an addition followed by a removal. */
  predicate InOrder(rows: seq<Row>, r: nat)
    requires r + 1 < |rows|
  {
    rows[r].Add? ==> !rows[r + 1].Del?
  }

  lemma {:induction false} FilteredRows(run: seq<Row>, i: nat)
    requires i <= |run|
    ensures forall r :: 0 <= r < |Dels(run, i)| ==> Dels(run, i)[r].Del?
    ensures forall r :: 0 <= r < |Adds(run, i)| ==> Adds(run, i)[r].Add?
    decreases |run| - i
  {
    if i < |run| {
      FilteredRows(run, i + 1);
    }
  }

  /** After the reordering no removal follows an addition within a run. */
  lemma {:induction false} RemovalsComeFirst(rows: seq<Row>, k: nat)
    requires k <= |rows|
    ensures var ordered := RemovalsFirst(rows, k);
      && (forall r :: 0 <= r < |ordered| - 1 ==> InOrder(ordered, r))
      && (k < |rows| && rows[k].Keep? ==> ordered != [] && ordered[0].Keep?)
      && (k == |rows| ==> ordered == [])
    decreases |rows| - k
  {
    if k < |rows| {
      var ordered := RemovalsFirst(rows, k);
      if rows[k].Keep? {
        RemovalsComeFirst(rows, k + 1);
        var rest := RemovalsFirst(rows, k + 1);
        forall r | 0 <= r < |ordered| - 1
          ensures InOrder(ordered, r)
        {
          assert r > 0 ==> InOrder(rest, r - 1);
        }
      } else {
        var e := RunEnd(rows, k);
        var run := rows[k..e];
        var d, a, rest := Dels(run, 0), Adds(run, 0), RemovalsFirst(rows, e);
        RemovalsComeFirst(rows, e);
        FilteredRows(run, 0);
        forall r | 0 <= r < |ordered| - 1
          ensures InOrder(ordered, r)
        {
          assert r >= |d| + |a| ==> InOrder(rest, r - |d| - |a|);
        }
      }
    }
  }

  // ----- Where the hunks lie -----

  /** Row `i` is changed or within `context` rows of a changed row. */
  predicate Near(rows: seq<Row>, context: nat, i: int) {
    exists c :: 0 <= c < |rows| && !rows[c].Keep? && i - context <= c <= i + context
  }

  function NextNear(rows: seq<Row>, context: nat, i: nat): (n: nat)
    requires i <= |rows|
    ensures i <= n <= |rows|
    ensures forall r :: i <= r < n ==> !Near(rows, context, r)
    ensures n < |rows| ==> Near(rows, context, n)
    decreases |rows| - i
  {
    if i == |rows| || Near(rows, context, i) then i else NextNear(rows, context, i + 1)
  }

  function NextFar(rows: seq<Row>, context: nat, i: nat): (n: nat)
    requires i <= |rows|
    ensures i <= n <= |rows|
    ensures forall r :: i <= r < n ==> Near(rows, context, r)
    ensures n < |rows| ==> !Near(rows, context, n)
    decreases |rows| - i
  {
    if i == |rows| || !Near(rows, context, i) then i else NextFar(rows, context, i + 1)
  }

  /** The maximal runs of rows near a change, from row `i` on. */
  function Spans(rows: seq<Row>, context: nat, i: nat): seq<Span>
    requires i <= |rows|
    decreases |rows| - i
  {
    var s := NextNear(rows, context, i);
    if s == |rows| then []
    else
      var e := NextFar(rows, context, s);
      [Span(s, e)] + Spans(rows, context, e)
  }

  /** The hunk of one span, its header counted from the rows before it. A zero count names the line before. */
  function HunkAt(rows: seq<Row>, span: Span): Hunk
    requires span.start <= span.end <= |rows|
  {
    WithHeader(1 + |Before(rows[..span.start])|, 1 + |After(rows[..span.start])|, rows[span.start..span.end])
  }

  function WithHeader(beforeLine: nat, afterLine: nat, hunk: seq<Row>): Hunk {
    var beforeCount, afterCount := |Before(hunk)|, |After(hunk)|;
    Hunk(if beforeCount == 0 then beforeLine - 1 else beforeLine, beforeCount,
         if afterCount == 0 then afterLine - 1 else afterLine, afterCount, hunk)
  }

  predicate Within(spans: seq<Span>, n: nat) {
    forall k :: 0 <= k < |spans| ==> spans[k].start <= spans[k].end <= n
  }

  function HunksOf(rows: seq<Row>, spans: seq<Span>): (hunks: seq<Hunk>)
    requires Within(spans, |rows|)
    ensures |hunks| == |spans|
    ensures forall k :: 0 <= k < |spans| ==> hunks[k] == HunkAt(rows, spans[k])
  {
    seq(|spans|, k requires 0 <= k < |spans| => HunkAt(rows, spans[k]))
  }

  /** Row `r` lies in one of the spans. */
  predicate Covered(spans: seq<Span>, r: int) {
    exists k :: 0 <= k < |spans| && spans[k].start <= r < spans[k].end
  }

  /** The hunks are non-empty, in order and at least one row apart. */
  predicate Ordered(spans: seq<Span>, from: int, n: nat) {
    && (forall k :: 0 <= k < |spans| ==> spans[k].start < spans[k].end <= n)
    && (forall k :: 0 <= k < |spans| ==> from < spans[k].start)
    && (forall k :: 0 < k < |spans| ==> spans[k - 1].end < spans[k].start)
  }

  lemma FarMovesOn(rows: seq<Row>, context: nat, s: nat, e: nat)
    requires s < |rows| && Near(rows, context, s) && e == NextFar(rows, context, s)
    ensures s < e && NextNear(rows, context, e) >= e && (e < |rows| ==> NextNear(rows, context, e) > e)
  {
  }

  lemma OrderedCons(span: Span, rest: seq<Span>, from: int, n: nat)
    requires Ordered(rest, from, n) && span.start < span.end <= n
    requires rest != [] ==> span.end <= from
    ensures Ordered([span] + rest, span.start - 1, n)
  {
  }

  lemma {:induction false} SpansOrdered(rows: seq<Row>, context: nat, i: nat)
    requires i <= |rows|
    ensures Ordered(Spans(rows, context, i), NextNear(rows, context, i) - 1, |rows|)
    decreases |rows| - i
  {
    var s := NextNear(rows, context, i);
    if s < |rows| {
      var e := NextFar(rows, context, s);
      SpansOrdered(rows, context, e);
      FarMovesOn(rows, context, s, e);
      OrderedCons(Span(s, e), Spans(rows, context, e), NextNear(rows, context, e) - 1, |rows|);
    }
  }

  /** The hunks hold exactly the rows near a change, so every changed row is in one. */
  lemma {:induction false} SpansCover(rows: seq<Row>, context: nat, i: nat, r: nat)
    requires i <= r < |rows|
    ensures Near(rows, context, r) <==> Covered(Spans(rows, context, i), r)
    decreases |rows| - i
  {
    SpansOrdered(rows, context, i);
    var spans := Spans(rows, context, i);
    var s := NextNear(rows, context, i);
    if s < |rows| {
      var e := NextFar(rows, context, s);
      if e <= r {
        SpansCover(rows, context, e, r);
        var rest := Spans(rows, context, e);
        assert forall k :: 0 <= k < |rest| ==> spans[k + 1] == rest[k];
        if Covered(rest, r) {
          var k :| 0 <= k < |rest| && rest[k].start <= r < rest[k].end;
          assert spans[k + 1].start <= r < spans[k + 1].end;
        }
      } else if s <= r {
        assert spans[0].start <= r < spans[0].end;
      }
    }
  }

  /** A maximal run of near rows is the next span. */
  lemma SpanStep(rows: seq<Row>, context: nat, from: nat, s: nat, e: nat)
    requires from <= s < e <= |rows|
    requires forall r :: from <= r < s ==> !Near(rows, context, r)
    requires forall r :: s <= r < e ==> Near(rows, context, r)
    requires e < |rows| ==> !Near(rows, context, e)
    ensures Spans(rows, context, from) == [Span(s, e)] + Spans(rows, context, e)
  {
    assert NextNear(rows, context, from) == s by {
      assert Near(rows, context, s);
    }
    assert NextFar(rows, context, s) == e;
  }

  // ----- Cutting the hunks -----

  /** The indices of the changed rows, ascending. */
  predicate ChangedRows(changed: seq<nat>, rows: seq<Row>, n: nat)
    requires n <= |rows|
  {
    && (forall k :: 0 <= k < |changed| ==> changed[k] < n && !rows[changed[k]].Keep?)
    && (forall k, l :: 0 <= k < l < |changed| ==> changed[k] < changed[l])
    && (forall r :: 0 <= r < n && !rows[r].Keep? ==> r in changed)
  }

  method FindChanged(rows: seq<Row>) returns (changed: seq<nat>)
    ensures ChangedRows(changed, rows, |rows|)
  {
    changed := [];
    for r := 0 to |rows|
      invariant ChangedRows(changed, rows, r)
    {
      if !rows[r].Keep? {
        changed := changed + [r];
      }
    }
  }

  /** The hunks from row `i` on: one for each maximal run of rows near a change. */
  function HunksNear(rows: seq<Row>, context: nat, i: nat): seq<Hunk>
    requires i <= |rows|
  {
    SpansOrdered(rows, context, i);
    HunksOf(rows, Spans(rows, context, i))
  }

  /** Where the rows near changed row `c` end. */
  function LastNear(rows: seq<Row>, context: nat, c: nat): nat {
    if |rows| < c + context + 1 then |rows| else c + context + 1
  }

  /** Where the rows near changed row `c` begin. */
  function FirstNear(context: nat, c: nat): nat {
    if c < context then 0 else c - context
  }

  /** The cursor before row `cursor`: its line numbers in the two texts. */
  predicate AtLines(rows: seq<Row>, cursor: nat, beforeLine: nat, afterLine: nat) {
    cursor <= |rows| && beforeLine == 1 + |Before(rows[..cursor])| && afterLine == 1 + |After(rows[..cursor])|
  }

  /** The hunks cut so far end at row `from`, with changed row `k` next. */
  predicate CutUpTo(rows: seq<Row>, context: nat, changed: seq<nat>, k: nat, from: nat)
    requires k <= |changed|
  {
    && from == (if k == 0 then 0 else LastNear(rows, context, changed[k - 1]))
    && (0 < k < |changed| ==> changed[k] - changed[k - 1] - 1 > 2 * context)
  }

  lemma HunkStep(rows: seq<Row>, context: nat, from: nat, s: nat, e: nat)
    requires from <= s < e <= |rows|
    requires Spans(rows, context, from) == [Span(s, e)] + Spans(rows, context, e)
    ensures HunksNear(rows, context, from) == [HunkAt(rows, Span(s, e))] + HunksNear(rows, context, e)
  {
    SpansOrdered(rows, context, from);
    SpansOrdered(rows, context, e);
    HunksCons(rows, Span(s, e), Spans(rows, context, e));
  }

  lemma HunksCons(rows: seq<Row>, span: Span, rest: seq<Span>)
    requires Within(rest, |rows|) && span.start <= span.end <= |rows|
    ensures Within([span] + rest, |rows|)
    ensures HunksOf(rows, [span] + rest) == [HunkAt(rows, span)] + HunksOf(rows, rest)
  {
  }

  /** Changed rows `first` to `last`, each close enough to the next, are what one hunk shows. */
  predicate Group(changed: seq<nat>, context: nat, first: nat, last: nat) {
    && first <= last < |changed|
    && (forall k :: first < k <= last ==> changed[k] - changed[k - 1] - 1 <= 2 * context)
    && (last + 1 < |changed| ==> changed[last + 1] - changed[last] - 1 > 2 * context)
  }

  lemma GroupBounds(rows: seq<Row>, context: nat, changed: seq<nat>, first: nat, last: nat, from: nat)
    requires ChangedRows(changed, rows, |rows|) && first <= last < |changed|
    requires CutUpTo(rows, context, changed, first, from)
    ensures from <= FirstNear(context, changed[first]) < LastNear(rows, context, changed[last]) <= |rows|
    ensures changed[first] <= changed[last]
  {
  }

  /** The rows near a group are the next run. */
  lemma GroupIsRun(rows: seq<Row>, context: nat, changed: seq<nat>, first: nat, last: nat, from: nat)
    requires ChangedRows(changed, rows, |rows|) && Group(changed, context, first, last)
    requires CutUpTo(rows, context, changed, first, from)
    ensures var s, e := FirstNear(context, changed[first]), LastNear(rows, context, changed[last]);
      && from <= s < e <= |rows|
      && HunksNear(rows, context, from) == [HunkAt(rows, Span(s, e))] + HunksNear(rows, context, e)
  {
    GroupBounds(rows, context, changed, first, last, from);
    var s, e := FirstNear(context, changed[first]), LastNear(rows, context, changed[last]);
    forall r | from <= r < s
      ensures !Near(rows, context, r)
    {
      NotBetween(rows, context, changed, first, r);
    }
    forall r | s <= r < e
      ensures Near(rows, context, r)
    {
      WithinGroup(rows, context, changed, first, last, r);
    }
    if e < |rows| {
      NotBetween(rows, context, changed, last + 1, e);
    }
    SpanStep(rows, context, from, s, e);
    HunkStep(rows, context, from, s, e);
  }

  /** A row farther than `context` from both changed neighbours is near no change. */
  lemma NotBetween(rows: seq<Row>, context: nat, changed: seq<nat>, k: nat, r: nat)
    requires ChangedRows(changed, rows, |rows|) && k <= |changed|
    requires k > 0 ==> changed[k - 1] + context < r
    requires k < |changed| ==> r + context < changed[k]
    ensures !Near(rows, context, r)
  {
  }

  /** Every row between the ends of a group is near one of its changed rows. */
  lemma {:induction false} WithinGroup(rows: seq<Row>, context: nat, changed: seq<nat>, first: nat, last: nat, r: nat)
    requires ChangedRows(changed, rows, |rows|) && first <= last < |changed|
    requires forall k :: first < k <= last ==> changed[k] - changed[k - 1] - 1 <= 2 * context
    requires changed[first] - context <= r <= changed[last] + context
    ensures Near(rows, context, r)
    decreases last - first
  {
    if r <= changed[first] + context {
      assert !rows[changed[first]].Keep?;
    } else {
      WithinGroup(rows, context, changed, first + 1, last, r);
    }
  }

  method CountLines(rows: seq<Row>, from: nat, to: nat, beforeLine: nat, afterLine: nat) returns (b: nat, a: nat)
    requires from <= to <= |rows| && AtLines(rows, from, beforeLine, afterLine)
    ensures AtLines(rows, to, b, a)
  {
    b, a := beforeLine, afterLine;
    for cursor := from to to
      invariant AtLines(rows, cursor, b, a)
    {
      assert rows[..cursor + 1] == rows[..cursor] + [rows[cursor]];
      ProjectionsConcat(rows[..cursor], [rows[cursor]]);
      if !rows[cursor].Add? {
        b := b + 1;
      }
      if !rows[cursor].Del? {
        a := a + 1;
      }
    }
  }

  /** The last changed row of the group that starts at `first`. */
  method GroupEnd(changed: seq<nat>, context: nat, first: nat) returns (k: nat)
    requires first < |changed|
    ensures Group(changed, context, first, k)
  {
    k := first;
    while k + 1 < |changed| && changed[k + 1] - changed[k] - 1 <= 2 * context
      invariant first <= k < |changed|
      invariant forall l :: first < l <= k ==> changed[l] - changed[l - 1] - 1 <= 2 * context
    {
      k := k + 1;
    }
  }

  method NextHunk(ordered: seq<Row>, context: nat, changed: seq<nat>, first: nat, from: nat,
                  cursor: nat, beforeLine: nat, afterLine: nat)
    returns (hunk: Hunk, k: nat, start: nat, end: nat, b: nat, a: nat)
    requires ChangedRows(changed, ordered, |ordered|) && first < |changed|
    requires CutUpTo(ordered, context, changed, first, from)
    requires cursor <= from <= |ordered| && AtLines(ordered, cursor, beforeLine, afterLine)
    ensures first < k <= |changed| && CutUpTo(ordered, context, changed, k, end)
    ensures start <= end <= |ordered| && AtLines(ordered, start, b, a)
    ensures HunksNear(ordered, context, from) == [hunk] + HunksNear(ordered, context, end)
  {
    start := FirstNear(context, changed[first]);
    var last := GroupEnd(changed, context, first);
    GroupIsRun(ordered, context, changed, first, last, from);
    end := LastNear(ordered, context, changed[last]);
    b, a := CountLines(ordered, cursor, start, beforeLine, afterLine);
    hunk := WithHeader(b, a, ordered[start..end]);
    HeaderHere(ordered, start, end, b, a);
    k := last + 1;
  }

  lemma HeaderHere(rows: seq<Row>, start: nat, end: nat, b: nat, a: nat)
    requires start <= end <= |rows| && AtLines(rows, start, b, a)
    ensures WithHeader(b, a, rows[start..end]) == HunkAt(rows, Span(start, end))
  {
  }

  method ContextHunks(lines: seq<Row>, context: nat) returns (hunks: seq<Hunk>)
    ensures hunks == HunksNear(RemovalsFirst(lines, 0), context, 0)
  {
    var ordered := OrderRows(lines);
    var changed := FindChanged(ordered);
    hunks := [];
    var cursor, beforeLine, afterLine := 0, 1, 1;
    var k, from := 0, 0;
    while k < |changed|
      invariant 0 <= k <= |changed| && 0 <= cursor <= from <= |ordered| && CutUpTo(ordered, context, changed, k, from)
      invariant AtLines(ordered, cursor, beforeLine, afterLine)
      invariant HunksNear(ordered, context, 0) == hunks + HunksNear(ordered, context, from)
    {
      var hunk;
      hunk, k, cursor, from, beforeLine, afterLine :=
        NextHunk(ordered, context, changed, k, from, cursor, beforeLine, afterLine);
      AppendOne(hunks, hunk, HunksNear(ordered, context, from));
      hunks := hunks + [hunk];
    }
    NoHunkLeft(ordered, context, changed, from);
  }

  lemma NoHunkLeft(rows: seq<Row>, context: nat, changed: seq<nat>, from: nat)
    requires ChangedRows(changed, rows, |rows|) && CutUpTo(rows, context, changed, |changed|, from)
    ensures from <= |rows| && HunksNear(rows, context, from) == []
  {
    forall r | from <= r < |rows|
      ensures !Near(rows, context, r)
    {
      NotBetween(rows, context, changed, |changed|, r);
    }
  }
}
