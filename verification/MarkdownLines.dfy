/**
 What makes a line count, stated over its characters (backend/internal/workerloop/marker.go,
 backend/internal/workflow/parser.go), without the functions that scan it.
 */
module MarkdownLines {
  import opened Prelude
  import opened MarkdownScanner

  /** White space by code point. */
  lemma SpaceIff(c: char)
    ensures var n := c as int;
            IsSpace(c) <==> 9 <= n <= 13 || 0x2000 <= n <= 0x200A
                            || n in {0x20, 0x85, 0xA0, 0x1680, 0x2028, 0x2029, 0x202F, 0x205F, 0x3000}
  {
  }

  function NextColumn(c: char, was: nat): nat {
    if c == ' ' then was + 1 else was + 4 - was % 4
  }

  lemma {:induction false} IndentSnoc(s: string, c: char, i: nat, columns: nat)
    requires i <= |s| && (c == ' ' || c == '\t') && forall j :: i <= j < |s| ==> s[j] == ' ' || s[j] == '\t'
    ensures LeadingIndent(s, i, columns).1 == |s|
    ensures LeadingIndent(s + [c], i, columns) == (NextColumn(c, LeadingIndent(s, i, columns).0), |s| + 1)
    decreases |s| - i
  {
    assert (s + [c])[|s|] == c;
    if i == |s| {
      assert LeadingIndent(s + [c], |s| + 1, NextColumn(c, columns)) == (NextColumn(c, columns), |s| + 1);
    } else {
      assert (s + [c])[i] == s[i];
      hide NextColumn;
      IndentSnoc(s, c, i + 1, if s[i] == ' ' then columns + 1 else columns + 4 - columns % 4);
    }
  }

  /** One more character of leading white space: a space is one column, a tab goes to the next multiple of four. */
  lemma IndentStep(s: string, c: char)
    requires (c == ' ' || c == '\t') && forall j :: 0 <= j < |s| ==> s[j] == ' ' || s[j] == '\t'
    ensures var was, now := LeadingIndent(s, 0, 0), LeadingIndent(s + [c], 0, 0);
            && was.1 == |s| && now.1 == |s| + 1
            && (c == ' ' ==> now.0 == was.0 + 1)
            && (c == '\t' ==> was.0 < now.0 <= was.0 + 4 && now.0 % 4 == 0)
  {
    hide LeadingIndent, NextColumn;
    IndentSnoc(s, c, 0, 0);
    NextTab(c, LeadingIndent(s, 0, 0).0);
  }

  lemma NextTab(c: char, was: nat)
    ensures c == ' ' ==> NextColumn(c, was) == was + 1
    ensures c == '\t' ==> was < NextColumn(c, was) <= was + 4 && NextColumn(c, was) % 4 == 0
  {
  }

  /** A fence: at most three columns in, three or more of one of the two characters, counted to the end of their run. */
  lemma FenceIff(line: string)
    ensures var (columns, from) := LeadingIndent(line, 0, 0);
            && (FenceOf(line).Some? <==>
                  && columns <= 3 && from + 3 <= |line| && (line[from] == '`' || line[from] == '~')
                  && line[from + 1] == line[from] && line[from + 2] == line[from])
            && (FenceOf(line).Some? ==>
                  var (c, n) := FenceOf(line).value;
                  && c == line[from] && 3 <= n <= |line| - from && (forall j :: from <= j < from + n ==> line[j] == c)
                  && (from + n < |line| ==> line[from + n] != c))
  {
    var (columns, from) := LeadingIndent(line, 0, 0);
    hide LeadingIndent, RunLength;
    if from < |line| {
      RunAt(line, from);
      assert line[from..][0] == line[from] && |line[from..]| == |line| - from;
    }
  }

  /** The run at the start of the rest of a line is the run in the line. */
  lemma RunAt(line: string, from: nat)
    requires from < |line|
    ensures var n := RunLength(line[from..], line[from], 0);
            && from + n <= |line| && (forall j :: from <= j < from + n ==> line[j] == line[from])
            && (from + n < |line| ==> line[from + n] != line[from])
            && (n >= 3 <==> from + 3 <= |line| && line[from + 1] == line[from] && line[from + 2] == line[from])
  {
    var trimmed := line[from..];
    var n := RunLength(trimmed, line[from], 0);
    forall j | from <= j < from + n
      ensures line[j] == line[from]
    {
      assert trimmed[j - from] == line[j];
    }
  }

  /** A quoted line: its first visible character is the quotation mark. */
  lemma QuotedIff(line: string)
    ensures Quoted(line) <==> exists k :: 0 <= k < |line| && line[k] == '>' && forall j :: 0 <= j < k ==> IsSpace(line[j])
  {
    var i := FirstVisible(line, 0);
    if k :| 0 <= k < |line| && line[k] == '>' && forall j :: 0 <= j < k ==> IsSpace(line[j]) {
      SpaceIff('>');
      assert !IsSpace(line[k]);
      assert i == k;
    }
  }

  /** A line counts exactly outside fences, when it is no fence, less than four columns in, and not quoted where that matters. */
  lemma LiveIff(body: string, i: nat, dropQuoted: bool)
    requires LineStart(body, i)
    ensures var line := LineAt(body, i);
            Live(body, i, dropQuoted) <==>
            && FenceBefore(body, i) == Outside && FenceOf(line).None? && LeadingIndent(line, 0, 0).0 < 4
            && (dropQuoted ==> !Quoted(line))
  {
  }

  /** The line at `q` closes a fence of this character and length. */
  predicate Closes(body: string, q: nat, c: char, n: nat)
    requires LineStart(body, q)
  {
    var mark := FenceOf(LineAt(body, q));
    mark.Some? && mark.value.0 == c && mark.value.1 >= n
  }

  /** The line at `p` opened a fence that no line since has closed. */
  ghost predicate Opens(body: string, p: nat, i: nat, c: char, n: nat) {
    && p < i && LineStart(body, p) && FenceBefore(body, p) == Outside && FenceOf(LineAt(body, p)) == Some((c, n))
    && forall q :: p < q < i && LineStart(body, q) ==> !Closes(body, q, c, n)
  }

  /** The fence open at a line was opened by the line before it, or was open there and not closed by it. */
  lemma OpensNext(body: string, s: nat, i: nat, c: char, n: nat)
    requires s < i && LineStart(body, s) && LineStart(body, i) && forall q :: s < q < i ==> !LineStart(body, q)
    ensures (exists p: nat :: Opens(body, p, i, c, n)) <==>
            || (FenceBefore(body, s) == Outside && FenceOf(LineAt(body, s)) == Some((c, n)))
            || ((exists p: nat :: Opens(body, p, s, c, n)) && !Closes(body, s, c, n))
  {
    hide FenceOf, LineAt, FenceBefore, Closes;
    if p: nat :| Opens(body, p, i, c, n) {
      if p < s { assert Opens(body, p, s, c, n); }
    }
    if FenceBefore(body, s) == Outside && FenceOf(LineAt(body, s)) == Some((c, n)) { assert Opens(body, s, i, c, n); }
    if p: nat :| Opens(body, p, s, c, n) && !Closes(body, s, c, n) { assert Opens(body, p, i, c, n); }
  }

  /** A line is inside a fence exactly when an earlier line opened it and none since has closed it. */
  lemma {:induction false} InsideIff(body: string, i: nat, c: char, n: nat)
    requires LineStart(body, i)
    ensures FenceBefore(body, i) == Inside(c, n) <==> exists p: nat :: Opens(body, p, i, c, n)
    decreases i
  {
    hide FenceOf, LineAt, Opens;
    if i == 0 {
      assert forall p: nat :: !Opens(body, p, 0, c, n) by { NothingOpens(body, c, n); }
    } else {
      var s := StartOf(body, i - 1);
      assert forall q :: s < q < i ==> !LineStart(body, q);
      InsideIff(body, s, c, n);
      OpensNext(body, s, i, c, n);
    }
  }

  lemma NothingOpens(body: string, c: char, n: nat)
    ensures forall p: nat :: !Opens(body, p, 0, c, n)
  {
  }

  /** The marker stands at a place when it follows what is before it. */
  lemma OccursIff(s: string, i: nat, marker: string)
    ensures Occurs(s, marker, i) <==> exists before, behind :: s == before + marker + behind && |before| == i
  {
    if Occurs(s, marker, i) {
      assert s == s[..i] + marker + s[i + |marker|..];
    }
    if before, behind :| s == before + marker + behind && |before| == i {
      assert s[i..i + |marker|] == marker;
    }
  }
}
