/**
 Live Markdown lines and marker positions (backend/internal/workerloop/marker.go, backend/internal/workflow/parser.go).

 A body is a sequence of characters; positions count characters. The two scanners differ in one thing only: the worker
 loop also drops quoted lines.
 */
module MarkdownScanner {
  import opened Prelude

  /** `[start, end)` of a line, its line ending excluded. */
  datatype Span = Span(start: nat, end: nat)

  datatype Fence = Outside | Inside(character: char, length: nat)

  // ---------------------------------------------------------------- one line

  predicate IsSpace(c: char) {
    || '\t' <= c <= '\r' || c == ' ' || c == '\U{0085}' || c == '\U{00A0}' || c == '\U{1680}'
    || '\U{2000}' <= c <= '\U{200A}' || c == '\U{2028}' || c == '\U{2029}' || c == '\U{202F}' || c == '\U{205F}' || c == '\U{3000}'
  }

  predicate Blank(s: string) {
    forall i :: 0 <= i < |s| ==> IsSpace(s[i])
  }

  /** Columns and characters of the leading spaces and tabs from `i`, `columns` already counted; tabs stop at multiples of four. */
  function LeadingIndent(line: string, i: nat, columns: nat): (r: (nat, nat))
    requires i <= |line|
    ensures i <= r.1 <= |line| && columns <= r.0
    ensures forall j :: i <= j < r.1 ==> line[j] == ' ' || line[j] == '\t'
    ensures r.1 < |line| ==> line[r.1] != ' ' && line[r.1] != '\t'
    decreases |line| - i
  {
    if i < |line| && line[i] == ' ' then LeadingIndent(line, i + 1, columns + 1)
    else if i < |line| && line[i] == '\t' then LeadingIndent(line, i + 1, columns + 4 - columns % 4)
    else (columns, i)
  }

  method MarkdownLeadingIndent(line: string) returns (columns: nat, index: nat)
    ensures (columns, index) == LeadingIndent(line, 0, 0)
  {
    columns, index := 0, 0;
    while index < |line|
      invariant 0 <= index <= |line| && LeadingIndent(line, index, columns) == LeadingIndent(line, 0, 0)
    {
      match line[index] {
        case ' ' => columns, index := columns + 1, index + 1;
        case '\t' => columns, index := columns + 4 - columns % 4, index + 1;
        case _ => return;
      }
    }
  }

  /** How often the character repeats from `i`. */
  function RunLength(s: string, c: char, i: nat): (n: nat)
    requires i <= |s|
    ensures i + n <= |s| && (forall j :: i <= j < i + n ==> s[j] == c) && (i + n < |s| ==> s[i + n] != c)
    decreases |s| - i
  {
    if i < |s| && s[i] == c then 1 + RunLength(s, c, i + 1) else 0
  }

  /** The fence a line opens or closes: at most three columns in, at least three of the same character. */
  function FenceOf(line: string): Option<(char, nat)> {
    var (indent, from) := LeadingIndent(line, 0, 0);
    if indent > 3 then None
    else
      var trimmed := line[from..];
      if |trimmed| < 3 || (trimmed[0] != '`' && trimmed[0] != '~') then None
      else
        var n := RunLength(trimmed, trimmed[0], 0);
        if n >= 3 then Some((trimmed[0], n)) else None
  }

  method MarkdownFence(line: string) returns (r: Option<(char, nat)>)
    ensures r == FenceOf(line)
  {
    var indent, from := MarkdownLeadingIndent(line);
    if indent > 3 { return None; }
    var trimmed := line[from..];
    if |trimmed| < 3 || (trimmed[0] != '`' && trimmed[0] != '~') { return None; }
    var character := trimmed[0];
    var length := 0;
    while length < |trimmed| && trimmed[length] == character
      invariant 0 <= length <= |trimmed| && length + RunLength(trimmed, character, length) == RunLength(trimmed, character, 0)
    {
      length := length + 1;
    }
    return if length >= 3 then Some((character, length)) else None;
  }

  predicate IndentedCode(line: string) {
    LeadingIndent(line, 0, 0).0 >= 4
  }

  /** Position of the first character that is not white space. */
  function FirstVisible(s: string, i: nat): (r: nat)
    requires i <= |s|
    ensures i <= r <= |s| && (forall j :: i <= j < r ==> IsSpace(s[j])) && (r < |s| ==> !IsSpace(s[r]))
    decreases |s| - i
  {
    if i < |s| && IsSpace(s[i]) then FirstVisible(s, i + 1) else i
  }

  predicate Quoted(line: string) {
    var i := FirstVisible(line, 0);
    i < |line| && line[i] == '>'
  }

  function NextFence(fence: Fence, line: string): Fence {
    match FenceOf(line)
    case None => fence
    case Some((c, n)) =>
      match fence
      case Outside => Inside(c, n)
      case Inside(d, m) => if c == d && n >= m then Outside else fence
  }

  predicate LiveHere(fence: Fence, line: string, dropQuoted: bool) {
    fence == Outside && FenceOf(line).None? && !IndentedCode(line) && !(dropQuoted && Quoted(line))
  }

  // ---------------------------------------------------------------- lines of a body

  /** End of the line that begins at `i`: the next newline, or the end of the body. */
  function LineEnd(body: string, i: nat): (e: nat)
    requires i <= |body|
    ensures i <= e <= |body| && (forall j :: i <= j < e ==> body[j] != '\n') && (e < |body| ==> body[e] == '\n')
    decreases |body| - i
  {
    if i < |body| && body[i] != '\n' then LineEnd(body, i + 1) else i
  }

  function TrimReturn(s: string): (t: string)
    ensures |t| <= |s| && t == s[..|t|]
  {
    if s != "" && s[|s| - 1] == '\r' then s[..|s| - 1] else s
  }

  function LineAt(body: string, i: nat): (line: string)
    requires i <= |body|
    ensures i + |line| <= |body| && line == body[i..i + |line|]
  {
    var line := TrimReturn(body[i..LineEnd(body, i)]);
    assert line == body[i..i + |line|];
    line
  }

  predicate LineStart(body: string, i: nat) {
    i <= |body| && (i == 0 || body[i - 1] == '\n')
  }

  /** Start of the line that position `i` is on. */
  function StartOf(body: string, i: nat): (s: nat)
    requires i <= |body|
    ensures s <= i && LineStart(body, s) && (forall j :: s <= j < i ==> body[j] != '\n')
  {
    if i == 0 || body[i - 1] == '\n' then i else StartOf(body, i - 1)
  }

  /** The fence state the earlier lines leave to the line that starts at `i`. */
  function FenceBefore(body: string, i: nat): Fence
    requires LineStart(body, i)
    decreases i
  {
    if i == 0 then Outside
    else
      var p := StartOf(body, i - 1);
      NextFence(FenceBefore(body, p), LineAt(body, p))
  }

  /** A line that counts: outside fences, not a fence, not indented code, and for the worker loop not quoted. */
  predicate Live(body: string, i: nat, dropQuoted: bool) {
    LineStart(body, i) && LiveHere(FenceBefore(body, i), LineAt(body, i), dropQuoted)
  }

  // ---------------------------------------------------------------- the scanner

  /** The span a line contributes. */
  function Here(body: string, i: nat, fence: Fence, dropQuoted: bool): seq<Span>
    requires i <= |body|
  {
    if LiveHere(fence, LineAt(body, i), dropQuoted) then [Span(i, i + |LineAt(body, i)|)] else []
  }

  /** The spans the scanner reports from the line at `i` on. */
  function Spans(body: string, i: nat, fence: Fence, dropQuoted: bool): seq<Span>
    requires i <= |body|
    decreases |body| - i
  {
    if LineEnd(body, i) == |body| then Here(body, i, fence, dropQuoted)
    else Here(body, i, fence, dropQuoted) + Spans(body, LineEnd(body, i) + 1, NextFence(fence, LineAt(body, i)), dropQuoted)
  }

  function AllSpans(body: string, dropQuoted: bool): seq<Span> {
    Spans(body, 0, Outside, dropQuoted)
  }

  /** What one line does to the scanner: the state of the fence, and the span it reports. */
  method ScanLine(line: string, fence: Fence, dropQuoted: bool) returns (next: Fence, live: bool)
    ensures next == NextFence(fence, line) && live == LiveHere(fence, line, dropQuoted)
  {
    hide FenceOf, IndentedCode, Quoted;
    var inFence := fence.Inside?;
    var mark := MarkdownFence(line);
    if mark.Some? {
      var (character, length) := mark.value;
      if !inFence { return Inside(character, length), false; }
      if character == fence.character && length >= fence.length { return Outside, false; }
      return fence, false;
    }
    return fence, !inFence && !IndentedCode(line) && !(dropQuoted && Quoted(line));
  }

  lemma ScanStep(body: string, i: nat, fence: Fence, dropQuoted: bool)
    requires i <= |body|
    ensures Spans(body, i, fence, dropQuoted)
            == Here(body, i, fence, dropQuoted)
               + (if LineEnd(body, i) == |body| then [] else Spans(body, LineEnd(body, i) + 1, NextFence(fence, LineAt(body, i)), dropQuoted))
  {
    hide NextFence, LiveHere, Here, LineAt, LineEnd;
    if LineEnd(body, i) == |body| { assert Here(body, i, fence, dropQuoted) + [] == Here(body, i, fence, dropQuoted); }
  }

  method LiveLineSpans(body: string, dropQuoted: bool) returns (spans: seq<Span>)
    ensures spans == AllSpans(body, dropQuoted)
  {
    hide NextFence, LiveHere, LineEnd, LineAt, Spans;
    spans := [];
    var fence := Outside;
    var start := 0;
    while true
      invariant 0 <= start <= |body|
      invariant spans + Spans(body, start, fence, dropQuoted) == AllSpans(body, dropQuoted)
      decreases |body| - start
    {
      var end := LineEnd(body, start);
      var line := LineAt(body, start);
      ghost var before, was := spans, fence;
      ScanStep(body, start, fence, dropQuoted);
      var live: bool;
      fence, live := ScanLine(line, fence, dropQuoted);
      if live { spans := spans + [Span(start, start + |line|)]; }
      assert spans == before + Here(body, start, was, dropQuoted);
      if end == |body| { break; }
      start := end + 1;
    }
  }

  lemma NextLine(body: string, i: nat)
    requires LineStart(body, i) && LineEnd(body, i) < |body|
    ensures var n := LineEnd(body, i) + 1;
            && LineStart(body, n) && FenceBefore(body, n) == NextFence(FenceBefore(body, i), LineAt(body, i))
            && (forall j :: i < j < n ==> !LineStart(body, j))
  {
    hide LineAt, NextFence;
    var e := LineEnd(body, i);
    assert StartOf(body, e) == i;
  }

  /** A reported span is a live line. */
  ghost predicate Reported(body: string, s: Span, dropQuoted: bool) {
    Live(body, s.start, dropQuoted) && s.end == s.start + |LineAt(body, s.start)|
  }

  lemma HereReported(body: string, i: nat, dropQuoted: bool)
    requires LineStart(body, i)
    ensures var here := Here(body, i, FenceBefore(body, i), dropQuoted);
            && (here == [] <==> !Live(body, i, dropQuoted))
            && (here != [] ==> here == [Span(i, i + |LineAt(body, i)|)] && Reported(body, here[0], dropQuoted))
  {
  }

  /** Every reported span is a live line at or after the first one scanned. */
  lemma {:induction false} SpansSound(body: string, i: nat, dropQuoted: bool, s: Span)
    requires LineStart(body, i) && s in Spans(body, i, FenceBefore(body, i), dropQuoted)
    ensures i <= s.start && Reported(body, s, dropQuoted)
    decreases |body| - i
  {
    hide Here, Live, NextFence, LineEnd, LineAt;
    HereReported(body, i, dropQuoted);
    if LineEnd(body, i) < |body| {
      NextLine(body, i);
      if s in Spans(body, LineEnd(body, i) + 1, FenceBefore(body, LineEnd(body, i) + 1), dropQuoted) {
        SpansSound(body, LineEnd(body, i) + 1, dropQuoted, s);
      }
    }
  }

  /** Every live line at or after the first one scanned is reported. */
  lemma {:induction false} SpansComplete(body: string, i: nat, dropQuoted: bool, s: Span)
    requires LineStart(body, i) && i <= s.start && Reported(body, s, dropQuoted)
    ensures s in Spans(body, i, FenceBefore(body, i), dropQuoted)
    decreases |body| - i
  {
    hide Here, NextFence, LineAt, FenceBefore, LiveHere;
    HereReported(body, i, dropQuoted);
    if s.start > i {
      StartsAfter(body, i, s.start);
      NextLine(body, i);
      SpansComplete(body, LineEnd(body, i) + 1, dropQuoted, s);
    }
  }

  lemma StartsAfter(body: string, i: nat, k: nat)
    requires LineStart(body, i) && LineStart(body, k) && i < k
    ensures LineEnd(body, i) < k
  {
  }

  ghost predicate Ordered(spans: seq<Span>) {
    forall m, n :: 0 <= m < n < |spans| ==> spans[m].end < spans[n].start
  }

  lemma PrependOrdered(here: seq<Span>, rest: seq<Span>)
    requires Ordered(rest) && |here| <= 1 && (here != [] ==> forall n :: 0 <= n < |rest| ==> here[0].end < rest[n].start)
    ensures Ordered(here + rest)
  {
    assert here == [] ==> here + rest == rest;
  }

  /** Reported spans are disjoint and in order. */
  lemma {:induction false} SpansOrdered(body: string, i: nat, dropQuoted: bool)
    requires LineStart(body, i)
    ensures Ordered(Spans(body, i, FenceBefore(body, i), dropQuoted))
    decreases |body| - i
  {
    hide Here, NextFence, LineAt, FenceBefore, LiveHere, Live, LineEnd, Ordered;
    HereReported(body, i, dropQuoted);
    var here := Here(body, i, FenceBefore(body, i), dropQuoted);
    PrependOrdered(here, []) by { NoneOrdered(); }
    if LineEnd(body, i) == |body| {
      assert here + [] == here;
    } else {
      var e := LineEnd(body, i);
      NextLine(body, i);
      SpansOrdered(body, e + 1, dropQuoted);
      var rest := Spans(body, e + 1, FenceBefore(body, e + 1), dropQuoted);
      LineFits(body, i);
      forall n | 0 <= n < |rest|
        ensures e + 1 <= rest[n].start
      {
        SpansSound(body, e + 1, dropQuoted, rest[n]);
      }
      PrependOrdered(here, rest);
    }
  }

  lemma NoneOrdered()
    ensures Ordered([])
  {
  }

  lemma LineFits(body: string, i: nat)
    requires i <= |body|
    ensures i + |LineAt(body, i)| <= LineEnd(body, i)
  {
  }

  /** Soundness and completeness of the scanner against the fence fold: exactly the live lines, in order. */
  lemma ScannerIsExact(body: string, dropQuoted: bool, s: Span)
    ensures s in AllSpans(body, dropQuoted) <==> Reported(body, s, dropQuoted)
    ensures Ordered(AllSpans(body, dropQuoted))
  {
    assert FenceBefore(body, 0) == Outside;
    if s in AllSpans(body, dropQuoted) { SpansSound(body, 0, dropQuoted, s); }
    if Reported(body, s, dropQuoted) { SpansComplete(body, 0, dropQuoted, s); }
    SpansOrdered(body, 0, dropQuoted);
  }

  // ---------------------------------------------------------------- the two scanners

  function Unquoted(body: string, spans: seq<Span>): seq<Span>
    requires forall n :: 0 <= n < |spans| ==> spans[n].start <= |body|
  {
    if spans == [] then []
    else (if Quoted(LineAt(body, spans[0].start)) then [] else [spans[0]]) + Unquoted(body, spans[1..])
  }

  lemma HereUnquoted(body: string, i: nat, fence: Fence, rest: seq<Span>)
    requires i <= |body| && forall n :: 0 <= n < |rest| ==> rest[n].start <= |body|
    ensures forall n :: 0 <= n < |Here(body, i, fence, false) + rest| ==> (Here(body, i, fence, false) + rest)[n].start <= |body|
    ensures Unquoted(body, Here(body, i, fence, false) + rest) == Here(body, i, fence, true) + Unquoted(body, rest)
  {
    hide FenceOf, IndentedCode, Quoted, LineAt;
    var here := Here(body, i, fence, false);
    if here == [] {
      assert here + rest == rest;
    } else {
      assert (here + rest)[1..] == rest;
    }
  }

  /** The worker loop's spans are the workflow's spans without the quoted lines. */
  lemma {:induction false} WorkerSpansAreUnquoted(body: string, i: nat, fence: Fence)
    requires i <= |body|
    ensures forall n :: 0 <= n < |Spans(body, i, fence, false)| ==> Spans(body, i, fence, false)[n].start <= |body|
    ensures Spans(body, i, fence, true) == Unquoted(body, Spans(body, i, fence, false))
    decreases |body| - i
  {
    hide Here, NextFence, LineEnd, LineAt, Quoted;
    if LineEnd(body, i) == |body| {
      HereUnquoted(body, i, fence, []);
      assert Here(body, i, fence, false) + [] == Here(body, i, fence, false);
    } else {
      var next := NextFence(fence, LineAt(body, i));
      WorkerSpansAreUnquoted(body, LineEnd(body, i) + 1, next);
      HereUnquoted(body, i, fence, Spans(body, LineEnd(body, i) + 1, next, false));
    }
  }

  // ---------------------------------------------------------------- prefixes

  /** The spans of the lines that start before `k`. */
  function SpansBefore(body: string, i: nat, fence: Fence, dropQuoted: bool, k: nat): seq<Span>
    requires i <= |body|
    decreases |body| - i
  {
    if i >= k then []
    else if LineEnd(body, i) == |body| then Here(body, i, fence, dropQuoted)
    else Here(body, i, fence, dropQuoted) + SpansBefore(body, LineEnd(body, i) + 1, NextFence(fence, LineAt(body, i)), dropQuoted, k)
  }

  lemma {:induction false} LineEndOfPrefix(body: string, k: nat, i: nat)
    requires i < k <= |body| && body[k - 1] == '\n'
    ensures LineEnd(body[..k], i) == LineEnd(body, i) < k
    decreases k - i
  {
    if body[i] != '\n' { LineEndOfPrefix(body, k, i + 1); }
  }

  /** Before the cut, a prefix that ends with a newline has the lines of the whole body. */
  lemma PrefixLine(body: string, k: nat, i: nat)
    requires i < k <= |body| && body[k - 1] == '\n'
    ensures LineEnd(body[..k], i) == LineEnd(body, i) < k && LineAt(body[..k], i) == LineAt(body, i)
  {
    LineEndOfPrefix(body, k, i);
    assert body[..k][i..LineEnd(body, i)] == body[i..LineEnd(body, i)];
  }

  /** The empty line a prefix that ends with a newline has after it. */
  lemma TailLine(body: string, k: nat, fence: Fence, dropQuoted: bool)
    requires k <= |body|
    ensures Spans(body[..k], k, fence, dropQuoted) == if fence == Outside then [Span(k, k)] else []
  {
    assert LineAt(body[..k], k) == "";
  }

  /** Both scans agree up to the cut, where one goes on and the other sees an empty line. */
  lemma {:induction false} ScansAgree(body: string, k: nat, i: nat, dropQuoted: bool)
    requires LineStart(body, i) && LineStart(body, k) && i <= k && 0 < k
    ensures var before := SpansBefore(body, i, FenceBefore(body, i), dropQuoted, k);
            && Spans(body, i, FenceBefore(body, i), dropQuoted) == before + Spans(body, k, FenceBefore(body, k), dropQuoted)
            && Spans(body[..k], i, FenceBefore(body, i), dropQuoted)
               == before + (if FenceBefore(body, k) == Outside then [Span(k, k)] else [])
    decreases k - i
  {
    hide LiveHere, NextFence, LineEnd, LineAt, FenceBefore, Here;
    var f := FenceBefore(body, i);
    if i == k {
      TailLine(body, k, f, dropQuoted);
    } else {
      PrefixLine(body, k, i);
      NextLine(body, i);
      StartsAfter(body, i, k);
      var e := LineEnd(body, i) + 1;
      var g := FenceBefore(body, e);
      ScansAgree(body, k, e, dropQuoted);
      SameHere(body, body[..k], i, f, dropQuoted);
      var here := Here(body, i, f, dropQuoted);
      assert SpansBefore(body, i, f, dropQuoted, k) == here + SpansBefore(body, e, g, dropQuoted, k);
      hide Spans, SpansBefore;
      ScanStep(body, i, f, dropQuoted);
      ScanStep(body[..k], i, f, dropQuoted);
      Associate(here, SpansBefore(body, e, g, dropQuoted, k), Spans(body, k, FenceBefore(body, k), dropQuoted));
      Associate(here, SpansBefore(body, e, g, dropQuoted, k), if FenceBefore(body, k) == Outside then [Span(k, k)] else []);
    }
  }

  lemma SameHere(a: string, b: string, i: nat, fence: Fence, dropQuoted: bool)
    requires i <= |a| && i <= |b| && LineAt(a, i) == LineAt(b, i)
    ensures Here(a, i, fence, dropQuoted) == Here(b, i, fence, dropQuoted)
  {
  }

  lemma Associate(a: seq<Span>, b: seq<Span>, c: seq<Span>)
    ensures a + (b + c) == (a + b) + c
  {
  }

  /**
   The spans of a prefix ending at a newline are the whole body's spans up to the cut, followed by the empty line at the
   cut unless the cut is inside a fence.
   */
  lemma PrefixSpans(body: string, k: nat, dropQuoted: bool)
    requires 0 < k <= |body| && body[k - 1] == '\n'
    ensures var before := SpansBefore(body, 0, Outside, dropQuoted, k);
            && before <= AllSpans(body, dropQuoted)
            && AllSpans(body[..k], dropQuoted) == before + (if FenceBefore(body, k) == Outside then [Span(k, k)] else [])
  {
    assert FenceBefore(body, 0) == Outside;
    ScansAgree(body, k, 0, dropQuoted);
  }

  /**
   They are a prefix of the whole body's spans exactly when the cut is inside a fence, or the body goes on with an empty
   line there: otherwise the prefix reports an empty line at the cut that the body does not have.
   */
  lemma PrefixIff(body: string, k: nat, dropQuoted: bool)
    requires 0 < k <= |body| && body[k - 1] == '\n'
    ensures AllSpans(body[..k], dropQuoted) <= AllSpans(body, dropQuoted) <==>
            FenceBefore(body, k) != Outside || LineAt(body, k) == ""
  {
    PrefixSpans(body, k, dropQuoted);
    assert FenceBefore(body, 0) == Outside;
    ScansAgree(body, k, 0, dropQuoted);
    var before := SpansBefore(body, 0, Outside, dropQuoted, k);
    var rest := Spans(body, k, FenceBefore(body, k), dropQuoted);
    hide SpansBefore, FenceBefore, Spans;
    if FenceBefore(body, k) == Outside {
      CutSpan(body, k, dropQuoted);
      assert [Span(k, k)] <= rest <==> LineAt(body, k) == "";
      if before + [Span(k, k)] <= before + rest {
        assert (before + [Span(k, k)])[|before|] == (before + rest)[|before|];
      }
    } else {
      assert before + [] == before;
    }
  }

  /** What the whole body reports first from the cut on. */
  lemma CutSpan(body: string, k: nat, dropQuoted: bool)
    requires k <= |body|
    ensures [Span(k, k)] <= Spans(body, k, Outside, dropQuoted) <==> LineAt(body, k) == ""
  {
    var line := LineAt(body, k);
    var spans := Spans(body, k, Outside, dropQuoted);
    if line == "" {
      assert spans[0] == Span(k, k);
    } else if spans != [] {
      LaterSpans(body, k, Outside, dropQuoted);
    }
  }

  lemma LaterSpans(body: string, i: nat, fence: Fence, dropQuoted: bool)
    requires i <= |body| && Spans(body, i, fence, dropQuoted) != []
    ensures var first := Spans(body, i, fence, dropQuoted)[0]; first.start > i || first == Span(i, i + |LineAt(body, i)|)
    decreases |body| - i
  {
    hide LiveHere, NextFence, LineEnd, LineAt;
    if Here(body, i, fence, dropQuoted) == [] && LineEnd(body, i) < |body| {
      LaterSpans(body, LineEnd(body, i) + 1, NextFence(fence, LineAt(body, i)), dropQuoted);
    }
  }

  /** So the whole-body spans need not extend those of a prefix: cut before a line with text, the extra empty line is wrong. */
  lemma PrefixMayFail()
    ensures !(AllSpans("a\nb"[..2], false) <= AllSpans("a\nb", false))
  {
    var body := "a\nb";
    assert LineEnd(body, 0) == 1;
    assert LineAt(body, 0) == "a";
    assert FenceOf("a").None?;
    assert StartOf(body, 1) == 0;
    assert FenceBefore(body, 2) == Outside;
    assert LineAt(body, 2) == "b";
    PrefixIff(body, 2, false);
  }

  // ---------------------------------------------------------------- markers

  const RESULT_MARKER := "<!-- cddm-dashboard:result"
  const ENVELOPE_MARKER := "<!-- supervisor:event"

  predicate Occurs(s: string, marker: string, i: nat) {
    i + |marker| <= |s| && s[i..i + |marker|] == marker
  }

  /** First occurrence at or after `i`. */
  function IndexFrom(s: string, marker: string, i: nat): (r: Option<nat>)
    ensures r.Some? ==> i <= r.value && Occurs(s, marker, r.value) && forall j :: i <= j < r.value ==> !Occurs(s, marker, j)
    ensures r.None? ==> forall j :: i <= j ==> !Occurs(s, marker, j)
    decreases |s| - i
  {
    if i + |marker| > |s| then None
    else if Occurs(s, marker, i) then Some(i)
    else IndexFrom(s, marker, i + 1)
  }

  /** The marker of a line: what its first visible character begins. */
  function MarkerOf(line: string, marker: string): Option<nat> {
    var p := FirstVisible(line, 0);
    if Occurs(line, marker, p) then Some(p) else None
  }

  /** The only occurrence with nothing visible before it is the one at the first visible character. */
  lemma BlankBefore(line: string, marker: string, i: nat)
    requires marker != "" && !IsSpace(marker[0]) && Occurs(line, marker, i)
    ensures Blank(line[..i]) <==> i == FirstVisible(line, 0)
    ensures FirstVisible(line, 0) <= i
  {
    var p := FirstVisible(line, 0);
    assert line[i..i + |marker|][0] == line[i];
    if p < i { assert line[..i][p] == line[p]; }
  }

  /** The search within one line. */
  method MarkersOfLine(line: string, start: nat, marker: string) returns (found: seq<nat>)
    requires marker != "" && !IsSpace(marker[0])
    ensures found == if MarkerOf(line, marker).Some? then [start + MarkerOf(line, marker).value] else []
  {
    found := [];
    ghost var p := FirstVisible(line, 0);
    var searchFrom := 0;
    while true
      invariant 0 <= searchFrom <= |line|
      invariant found == if Occurs(line, marker, p) && p < searchFrom then [start + p] else []
      decreases |line| - searchFrom
    {
      var index := IndexFrom(line, marker, searchFrom);
      if index.None? { break; }
      BlankBefore(line, marker, index.value);
      if Blank(line[..index.value]) { found := found + [start + index.value]; }
      searchFrom := index.value + |marker|;
    }
  }

  function Positions(body: string, spans: seq<Span>, marker: string): seq<nat>
    requires forall n :: 0 <= n < |spans| ==> spans[n].start <= spans[n].end <= |body|
  {
    if spans == [] then []
    else
      var s := spans[|spans| - 1];
      var m := MarkerOf(body[s.start..s.end], marker);
      Positions(body, spans[..|spans| - 1], marker) + (if m.Some? then [s.start + m.value] else [])
  }

  /** Does a marker stand first on a live line, at `p`? */
  ghost predicate Stands(body: string, marker: string, dropQuoted: bool, p: nat) {
    exists i :: 0 <= i <= p && Live(body, i, dropQuoted) && MarkerOf(LineAt(body, i), marker) == Some(p - i)
  }

  lemma SpanOfLine(body: string, dropQuoted: bool, s: Span)
    requires s in AllSpans(body, dropQuoted)
    ensures s.start <= s.end <= |body| && body[s.start..s.end] == LineAt(body, s.start) && Live(body, s.start, dropQuoted)
  {
    ScannerIsExact(body, dropQuoted, s);
  }

  lemma SpansFit(body: string, dropQuoted: bool)
    ensures forall n :: 0 <= n < |AllSpans(body, dropQuoted)| ==>
              AllSpans(body, dropQuoted)[n].start <= AllSpans(body, dropQuoted)[n].end <= |body|
  {
    forall n | 0 <= n < |AllSpans(body, dropQuoted)|
      ensures AllSpans(body, dropQuoted)[n].start <= AllSpans(body, dropQuoted)[n].end <= |body|
    {
      SpanOfLine(body, dropQuoted, AllSpans(body, dropQuoted)[n]);
    }
  }

  /** `markerPositions` and `envelopeMarkerPositions`. */
  method MarkerPositions(body: string, marker: string, dropQuoted: bool) returns (positions: seq<nat>)
    requires marker != "" && !IsSpace(marker[0])
    ensures forall p :: p in positions <==> Stands(body, marker, dropQuoted, p)
    ensures forall m, n :: 0 <= m < n < |positions| ==> positions[m] < positions[n]
    ensures |positions| <= |AllSpans(body, dropQuoted)|
  {
    hide Live, LineAt, MarkerOf, AllSpans;
    var spans := LiveLineSpans(body, dropQuoted);
    SpansFit(body, dropQuoted);
    positions := [];
    var n := 0;
    while n < |spans|
      invariant 0 <= n <= |spans| && positions == Positions(body, spans[..n], marker)
    {
      assert spans[..n + 1][..n] == spans[..n];
      var line := body[spans[n].start..spans[n].end];
      var found := MarkersOfLine(line, spans[n].start, marker);
      positions := positions + found;
      n := n + 1;
    }
    assert spans[..n] == spans;
    forall p
      ensures p in positions <==> Stands(body, marker, dropQuoted, p)
    {
      PositionsExact(body, marker, dropQuoted, p);
    }
    PositionsOrdered(body, spans, marker, dropQuoted);
  }

  lemma {:induction false} PositionsMember(body: string, spans: seq<Span>, marker: string, p: nat)
    requires forall n :: 0 <= n < |spans| ==> spans[n].start <= spans[n].end <= |body|
    ensures p in Positions(body, spans, marker) <==>
            exists n :: 0 <= n < |spans| && spans[n].start <= p
              && MarkerOf(body[spans[n].start..spans[n].end], marker) == Some(p - spans[n].start)
    decreases |spans|
  {
    hide MarkerOf;
    if spans != [] {
      var n := |spans| - 1;
      PositionsMember(body, spans[..n], marker, p);
    }
  }

  /** The positions are exactly those where a marker stands first on a live line. */
  lemma PositionsExact(body: string, marker: string, dropQuoted: bool, p: nat)
    requires forall n :: 0 <= n < |AllSpans(body, dropQuoted)| ==>
               AllSpans(body, dropQuoted)[n].start <= AllSpans(body, dropQuoted)[n].end <= |body|
    ensures p in Positions(body, AllSpans(body, dropQuoted), marker) <==> Stands(body, marker, dropQuoted, p)
  {
    hide AllSpans, LineAt, MarkerOf, Live;
    var spans := AllSpans(body, dropQuoted);
    PositionsMember(body, spans, marker, p);
    if p in Positions(body, spans, marker) {
      var n :| 0 <= n < |spans| && spans[n].start <= p
        && MarkerOf(body[spans[n].start..spans[n].end], marker) == Some(p - spans[n].start);
      SpanOfLine(body, dropQuoted, spans[n]);
    }
    if Stands(body, marker, dropQuoted, p) {
      var i :| 0 <= i <= p && Live(body, i, dropQuoted) && MarkerOf(LineAt(body, i), marker) == Some(p - i);
      var s := Span(i, i + |LineAt(body, i)|);
      ScannerIsExact(body, dropQuoted, s);
      SpanOfLine(body, dropQuoted, s);
      var n :| 0 <= n < |spans| && spans[n] == s;
    }
  }

  /** Positions rise strictly, at most one to a live line. */
  lemma {:induction false} PositionsOrdered(body: string, spans: seq<Span>, marker: string, dropQuoted: bool)
    requires spans <= AllSpans(body, dropQuoted) && marker != ""
    requires forall n :: 0 <= n < |spans| ==> spans[n].start <= spans[n].end <= |body|
    ensures var ps := Positions(body, spans, marker);
            && |ps| <= |spans|
            && (forall m, n :: 0 <= m < n < |ps| ==> ps[m] < ps[n])
            && (forall m :: 0 <= m < |ps| ==> spans != [] && ps[m] < spans[|spans| - 1].end)
    decreases |spans|
  {
    hide AllSpans, MarkerOf;
    if spans != [] {
      var n := |spans| - 1;
      PositionsOrdered(body, spans[..n], marker, dropQuoted);
      ScannerIsExact(body, dropQuoted, spans[n]);
      var s := spans[n];
      MarkerInside(body[s.start..s.end], marker);
      if n > 0 {
        assert spans[n - 1] == AllSpans(body, dropQuoted)[n - 1] && spans[n] == AllSpans(body, dropQuoted)[n];
      }
    }
  }

  lemma MarkerInside(line: string, marker: string)
    requires marker != ""
    ensures MarkerOf(line, marker).Some? ==> MarkerOf(line, marker).value < |line|
  {
  }
}
