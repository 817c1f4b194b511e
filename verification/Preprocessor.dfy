/**
 The source-to-source passes of WorkerLoad. Two loops over std::regex_search turn
 `enqueue(q, x)` into `q[x]` and `n1ql("...")` into a tagged template. The searches are
 written out here as the matcher runs them: the leftmost start, each `.*` as long as possible
 and given back a character at a time, and `.` stopping at a line terminator. The loops are
 shown to be a rewrite of each line by itself.
 */
module Preprocessor {
  import opened Wrappers
  import opened Sequences
  import opened PreprocessorText

  /** The two passes: (enqueue\((.*)\, (.*)\)) and (n1ql\(")(.*)("\)). */
  datatype Pass = Enqueue | N1ql

  function Opener(pass: Pass): (s: string)
    ensures s != "" && NoTerminator(s)
  {
    match pass
    case Enqueue => "enqueue("
    case N1ql => "n1ql(\""
  }

  function Closer(pass: Pass): (s: string)
    ensures s != "" && NoTerminator(s)
  {
    match pass
    case Enqueue => ")"
    case N1ql => "\")"
  }

  const SEPARATOR := ", "

  /** What a match replaces the opener, the groups and the closer by, and what follows it. */
  datatype Cut = Cut(text: string, rest: string)

  function EnqueueText(queue: string, item: string): string {
    queue + "[" + item + "]"
  }

  function QueryText(query: string): string {
    "n1ql`" + query + "`"
  }

  // ---------------------------------------------------------------- the matcher

  /** (.*)\, (.*)\) : the first group gives characters back from position j until the
      separator and, as far behind it as possible, the closer fit. */
  function BackToSeparator(line: string, j: nat): Maybe<Cut>
    requires j <= |line|
    decreases j
  {
    var k := if OccursAt(line, SEPARATOR, j) then LastBetween(line, ")", j + 2, |line|) else -1;
    if k >= 0 then Just(Cut(EnqueueText(line[..j], line[j + 2..k]), line[k + 1..]))
    else if j == 0 then Nothing
    else BackToSeparator(line, j - 1)
  }

  /** What the pattern behind its opener matches on the rest of a line. */
  function MatchBody(pass: Pass, line: string): Maybe<Cut> {
    match pass
    case Enqueue => BackToSeparator(line, |line|)
    case N1ql =>
      var k := LastAt(line, "\")");
      if k < 0 then Nothing else Just(Cut(QueryText(line[..k]), line[k + 2..]))
  }

  /** The pattern matched at the very start of the text. */
  function MatchHere(pass: Pass, s: string): Maybe<Cut> {
    var n := |Opener(pass)|;
    if !OccursAt(s, Opener(pass), 0) then Nothing
    else
      var body := s[n..];
      var m := MatchBody(pass, LineOf(body));
      if m.Nothing? then Nothing else Just(Cut(m.value.text, m.value.rest + AfterLine(body)))
  }

  /** regex_search: prefix, replacement text and suffix of the leftmost match. */
  datatype Found = Found(prefix: string, text: string, suffix: string)

  function Search(pass: Pass, s: string): Maybe<Found> {
    var here := MatchHere(pass, s);
    if here.Just? then Just(Found("", here.value.text, here.value.rest))
    else if s == "" then Nothing
    else
      var later := Search(pass, s[1..]);
      if later.Nothing? then Nothing
      else Just(later.value.(prefix := [s[0]] + later.value.prefix))
  }

  // ---------------------------------------------------------------- one line by itself

  /** The body of a call on one line: the closer is the last one on the line and, for
      enqueue, the separator the last one before it. */
  function CutBody(pass: Pass, body: string): Maybe<Cut> {
    var k := LastAt(body, Closer(pass));
    if k < 0 then Nothing
    else
      var inner, rest := body[..k], body[k + |Closer(pass)|..];
      match pass
      case Enqueue =>
        var j := LastAt(inner, SEPARATOR);
        if j < 0 then Nothing else Just(Cut(EnqueueText(inner[..j], inner[j + 2..]), rest))
      case N1ql => Just(Cut(QueryText(inner), rest))
  }

  /** The match on one line, if any: the opener is the first one on the line. */
  function CutLine(pass: Pass, line: string): Maybe<Found> {
    var i := FirstAt(line, Opener(pass));
    if i < 0 then Nothing
    else
      var cut := CutBody(pass, line[i + |Opener(pass)|..]);
      if cut.Nothing? then Nothing else Just(Found(line[..i], cut.value.text, cut.value.rest))
  }

  function RewriteLine(pass: Pass, line: string): string {
    var m := CutLine(pass, line);
    if m.Nothing? then line else m.value.prefix + m.value.text + m.value.suffix
  }

  function Rewriter(pass: Pass): string -> string {
    (line: string) => RewriteLine(pass, line)
  }

  // ---------------------------------------------------------------- backtracking finds the last

  lemma LastInSuffix(s: string, literal: string, n: nat)
    requires n <= |s|
    ensures var k := LastAt(s, literal); LastAt(s[n..], literal) == if k >= n then k - n else -1
  {
    var k := LastAt(s, literal);
    var k' := if k >= n then k - n else -1;
    LastAtIs(s, literal, k);
    forall q: nat ensures OccursAt(s[n..], literal, q) <==> OccursAt(s, literal, n + q) {
      OccursInSuffix(s, literal, n, q);
    }
    LastAtIs(s[n..], literal, k');
  }

  /** Where the first group may end: a separator with the last closer behind it. */
  predicate CanSplit(line: string, k: int, j: nat) {
    OccursAt(line, SEPARATOR, j) && j + 2 <= k
  }

  function SplitAt(line: string, j: int, k: int): Maybe<Cut>
    requires j >= 0 ==> j + 2 <= k < |line|
  {
    if j < 0 then Nothing else Just(Cut(EnqueueText(line[..j], line[j + 2..k]), line[k + 1..]))
  }

  lemma SplitsHere(line: string, from: nat, k: int)
    requires k == LastAt(line, ")") && CanSplit(line, k, from)
    ensures BackToSeparator(line, from) == SplitAt(line, from, k)
  {
    LastAbove(line, ")", from + 2, |line|);
  }

  lemma GivesBack(line: string, from: nat, k: int)
    requires from <= |line| && k == LastAt(line, ")") && !CanSplit(line, k, from)
    ensures BackToSeparator(line, from) == if from == 0 then Nothing else BackToSeparator(line, from - 1)
  {
    LastAbove(line, ")", from + 2, |line|);
  }

  function SplitFrom(line: string, k: int, from: nat): (j: int)
    ensures -1 <= j <= from && (j >= 0 ==> CanSplit(line, k, j))
    decreases from
  {
    if CanSplit(line, k, from) then from else if from == 0 then -1 else SplitFrom(line, k, from - 1)
  }

  lemma {:induction false} BackToSplit(line: string, from: nat, k: int)
    requires from <= |line| && k == LastAt(line, ")")
    ensures var j := SplitFrom(line, k, from);
            BackToSeparator(line, from) == if j < 0 then Nothing else BackToSeparator(line, j)
    decreases from
  {
    if !CanSplit(line, k, from) {
      GivesBack(line, from, k);
      if from > 0 {
        BackToSplit(line, from - 1, k);
      }
    }
  }

  lemma {:induction false} SplitFromIsLast(line: string, k: int, from: nat)
    ensures forall q: nat :: CanSplit(line, k, q) && q <= from ==> q <= SplitFrom(line, k, from)
    decreases from
  {
    if !CanSplit(line, k, from) && from > 0 {
      SplitFromIsLast(line, k, from - 1);
    }
  }

  lemma SplitIsLastSeparator(line: string, k: nat)
    requires k <= |line|
    ensures SplitFrom(line, k, |line|) == LastAt(line[..k], SEPARATOR)
  {
    SplitFromIsLast(line, k, |line|);
    forall q: nat ensures CanSplit(line, k, q) <==> OccursAt(line[..k], SEPARATOR, q) {
      OccursInPrefix(line, SEPARATOR, k, q);
    }
    LastAtIs(line[..k], SEPARATOR, SplitFrom(line, k, |line|));
  }

  lemma CutSplits(line: string, k: nat, j: int)
    requires k == LastAt(line, ")") && j == LastAt(line[..k], SEPARATOR)
    ensures CutBody(Enqueue, line) == SplitAt(line, j, k)
  {
    if j >= 0 {
      assert line[..k][..j] == line[..j] && line[..k][j + 2..] == line[j + 2..k];
    }
  }

  /** Giving characters back one at a time ends at the last separator before the last closer. */
  lemma BacktrackingFindsLast(line: string)
    ensures BackToSeparator(line, |line|) == CutBody(Enqueue, line)
  {
    var k := LastAt(line, ")");
    BackToSplit(line, |line|, k);
    if k >= 0 {
      SplitIsLastSeparator(line, k);
      if SplitFrom(line, k, |line|) >= 0 {
        SplitsHere(line, SplitFrom(line, k, |line|), k);
      }
      CutSplits(line, k, LastAt(line[..k], SEPARATOR));
    }
  }

  lemma MatcherCutsBody(pass: Pass, line: string)
    ensures MatchBody(pass, line) == CutBody(pass, line)
  {
    if pass.Enqueue? {
      BacktrackingFindsLast(line);
    }
  }

  // ---------------------------------------------------------------- leftmost is the first opener

  lemma CutBodyOfSuffix(pass: Pass, body: string, n: nat)
    requires n <= |body| && CutBody(pass, body) == Nothing
    ensures CutBody(pass, body[n..]) == Nothing
  {
    LastInSuffix(body, Closer(pass), n);
    var k := LastAt(body, Closer(pass));
    if k >= n && pass.Enqueue? {
      assert body[n..][..k - n] == body[..k][n..];
      LastInSuffix(body[..k], SEPARATOR, n);
    }
  }

  lemma FirstInTail(s: string, literal: string)
    requires s != "" && literal != ""
    ensures OccursAt(s, literal, 0) ==> FirstAt(s, literal) == 0
    ensures !OccursAt(s, literal, 0) ==>
              var p := FirstAt(s[1..], literal); FirstAt(s, literal) == if p < 0 then -1 else p + 1
  {
    var p := FirstAt(s[1..], literal);
    FirstAtIs(s[1..], literal, p);
    FirstAtIs(s, literal, 0);
    forall q: nat ensures OccursAt(s[1..], literal, q) <==> OccursAt(s, literal, 1 + q) {
      OccursInSuffix(s, literal, 1, q);
    }
    if !OccursAt(s, literal, 0) {
      forall q: nat | OccursAt(s, literal, q) ensures 0 <= p && p + 1 <= q {
        OccursInSuffix(s, literal, 1, q - 1);
      }
      FirstAtIs(s, literal, if p < 0 then -1 else p + 1);
    }
  }

  /** A match further on, with more text before it. */
  function Later(before: string, m: Maybe<Found>): Maybe<Found> {
    if m.Nothing? then Nothing else Just(m.value.(prefix := before + m.value.prefix))
  }

  lemma LaterLater(a: string, b: string, m: Maybe<Found>)
    ensures Later(a, Later(b, m)) == Later(a + b, m)
  {
    if m.Just? {
      assert a + (b + m.value.prefix) == a + b + m.value.prefix;
    }
  }

  /** Looking at a line one character further on: if there is an opener here and it does not
      match, then no later one on the line does. */
  lemma CutLineTail(pass: Pass, line: string)
    requires line != ""
    requires OccursAt(line, Opener(pass), 0) ==> CutBody(pass, line[|Opener(pass)|..]) == Nothing
    ensures CutLine(pass, line) == Later([line[0]], CutLine(pass, line[1..]))
  {
    var n := |Opener(pass)|;
    FirstInTail(line, Opener(pass));
    var p := FirstAt(line[1..], Opener(pass));
    if p >= 0 {
      assert line[1..][p + n..] == line[1 + p + n..];
      if OccursAt(line, Opener(pass), 0) {
        CutBodyOfSuffix(pass, line[n..], 1 + p);
        assert line[n..][1 + p..] == line[1 + p + n..];
      } else {
        assert line[..p + 1] == [line[0]] + line[1..][..p];
      }
    }
  }

  lemma OpenerOnLine(pass: Pass, s: string)
    ensures OccursAt(s, Opener(pass), 0) <==> OccursAt(LineOf(s), Opener(pass), 0)
    ensures OccursAt(s, Opener(pass), 0) ==>
              var n := |Opener(pass)|;
              LineOf(s[n..]) == LineOf(s)[n..] && AfterLine(s[n..]) == AfterLine(s)
  {
    var o, n, line, rest := Opener(pass), |Opener(pass)|, LineOf(s), AfterLine(s);
    LineFacts(s);
    OccursInPrefix(s, o, |line|, 0);
    assert s[..|line|] == line;
    if OccursAt(s, o, 0) {
      assert forall i :: 0 <= i < n ==> s[i] == o[i];
      assert |line| < |s| ==> IsTerminator(s[|line|]);
      assert n <= |line|;
      assert s[n..] == line[n..] + rest;
      LineUnique(line[n..], rest);
    }
  }

  lemma NextChar(s: string)
    requires s != "" && !IsTerminator(s[0])
    ensures LineOf(s) == [s[0]] + LineOf(s[1..]) && AfterLine(s[1..]) == AfterLine(s)
  {
  }

  /** The leftmost match found by looking at one line after the other. */
  function ByLine(pass: Pass, s: string): Maybe<Found> {
    var line, rest := LineOf(s), AfterLine(s);
    var m := CutLine(pass, line);
    if m.Just? then Just(m.value.(suffix := m.value.suffix + rest))
    else if rest == "" then Nothing
    else Later(line + [rest[0]], Search(pass, rest[1..]))
  }

  lemma AtLineEnd(pass: Pass, s: string)
    requires s == "" || IsTerminator(s[0])
    ensures Search(pass, s) == ByLine(pass, s)
  {
    FirstAtIs("", Opener(pass), -1);
    StartsAlike(s, Opener(pass));
    assert LineOf(s) == "" && AfterLine(s) == s;
    if s != "" {
      assert "" + [s[0]] == [s[0]];
    }
  }

  /** At an opener the matcher's answer is the cut of the rest of the line. */
  lemma MatchAtOpener(pass: Pass, s: string)
    requires OccursAt(s, Opener(pass), 0)
    ensures |Opener(pass)| <= |LineOf(s)|
    ensures var cut := CutBody(pass, LineOf(s)[|Opener(pass)|..]);
            MatchHere(pass, s)
            == if cut.Nothing? then Nothing else Just(Cut(cut.value.text, cut.value.rest + AfterLine(s)))
  {
    OpenerOnLine(pass, s);
    MatcherCutsBody(pass, LineOf(s)[|Opener(pass)|..]);
  }

  lemma CutAtOpener(pass: Pass, line: string, cut: Cut)
    requires OccursAt(line, Opener(pass), 0) && CutBody(pass, line[|Opener(pass)|..]) == Just(cut)
    ensures CutLine(pass, line) == Just(Found("", cut.text, cut.rest))
  {
    StartsAlike(line, Opener(pass));
    FirstInTail(line, Opener(pass));
    assert line[..0] == "";
  }

  lemma AtMatch(pass: Pass, s: string)
    requires MatchHere(pass, s).Just?
    ensures Search(pass, s) == ByLine(pass, s)
  {
    OpenerOnLine(pass, s);
    MatchAtOpener(pass, s);
    CutAtOpener(pass, LineOf(s), CutBody(pass, LineOf(s)[|Opener(pass)|..]).value);
  }

  lemma BeforeMatch(pass: Pass, s: string)
    requires s != "" && !IsTerminator(s[0]) && MatchHere(pass, s).Nothing?
    requires Search(pass, s[1..]) == ByLine(pass, s[1..])
    ensures Search(pass, s) == ByLine(pass, s)
  {
    var line, rest := LineOf(s), AfterLine(s);
    OpenerOnLine(pass, s);
    if OccursAt(s, Opener(pass), 0) {
      MatchAtOpener(pass, s);
    }
    NextChar(s);
    CutLineTail(pass, line);
    assert line[1..] == LineOf(s[1..]);
    if rest != "" {
      LaterLater([s[0]], LineOf(s[1..]) + [rest[0]], Search(pass, rest[1..]));
      assert [s[0]] + (LineOf(s[1..]) + [rest[0]]) == line + [rest[0]];
    }
  }

  /** The search over the whole text looks at one line after the other. */
  lemma {:induction false} SearchIsLineByLine(pass: Pass, s: string)
    ensures Search(pass, s) == ByLine(pass, s)
    decreases |s|
  {
    if s == "" || IsTerminator(s[0]) {
      AtLineEnd(pass, s);
    } else if MatchHere(pass, s).Just? {
      AtMatch(pass, s);
    } else {
      SearchIsLineByLine(pass, s[1..]);
      BeforeMatch(pass, s);
    }
  }

  // ---------------------------------------------------------------- the loop rewrites each line

  lemma NoCloserNoCut(pass: Pass, line: string)
    requires LastAt(line, Closer(pass)) < 0
    ensures CutLine(pass, line) == Nothing
  {
    var i := FirstAt(line, Opener(pass));
    if i >= 0 {
      LastInSuffix(line, Closer(pass), i + |Opener(pass)|);
    }
  }

  lemma RestHasNoCloser(pass: Pass, body: string)
    requires CutBody(pass, body).Just?
    ensures LastAt(CutBody(pass, body).value.rest, Closer(pass)) < 0
  {
    LastInSuffix(body, Closer(pass), LastAt(body, Closer(pass)) + |Closer(pass)|);
  }

  /** What follows a match on its line has no closer, and so no match: one rewrite per line. */
  lemma OneMatchPerLine(pass: Pass, line: string)
    requires CutLine(pass, line).Just?
    ensures CutLine(pass, CutLine(pass, line).value.suffix) == Nothing
  {
    RestHasNoCloser(pass, line[FirstAt(line, Opener(pass)) + |Opener(pass)|..]);
    NoCloserNoCut(pass, CutLine(pass, line).value.suffix);
  }

  lemma CutLineShortens(pass: Pass, line: string)
    requires CutLine(pass, line).Just?
    ensures var m := CutLine(pass, line).value;
            |m.suffix| < |line| && (NoTerminator(line) ==> NoTerminator(m.suffix))
  {
  }

  /** One turn of the loop: the text up to the match is finished, the rest is still to do. */
  predicate StepDone(f: string -> string, s: string, m: Maybe<Found>) {
    if m.Nothing? then MapLines(f, s) == s
    else
      && |m.value.suffix| < |s|
      && MapLines(f, s) == m.value.prefix + m.value.text + MapLines(f, m.value.suffix)
  }

  lemma FirstLineStep(f: string -> string, s: string, m: Found)
    requires f(LineOf(s)) == m.prefix + m.text + m.suffix && f(m.suffix) == m.suffix
    requires NoTerminator(m.suffix) && |m.suffix| < |LineOf(s)|
    ensures StepDone(f, s, Just(m.(suffix := m.suffix + AfterLine(s))))
  {
    var line, c, more := Decompose(s);
    if AfterLine(s) != "" {
      FirstLine(f, line, c, more);
      FirstLine(f, m.suffix, c, more);
      Assoc(m.prefix + m.text, m.suffix, [c] + MapLines(f, more));
    } else {
      OnlyLine(f, line);
      OnlyLine(f, m.suffix);
      assert m.suffix + AfterLine(s) == m.suffix;
    }
  }

  lemma LaterLineStep(f: string -> string, s: string, m: Maybe<Found>)
    requires f(LineOf(s)) == LineOf(s) && AfterLine(s) != ""
    requires StepDone(f, AfterLine(s)[1..], m)
    ensures StepDone(f, s, Later(LineOf(s) + [AfterLine(s)[0]], m))
  {
    var line, c, more := Decompose(s);
    FirstLine(f, line, c, more);
    assert AfterLine(s)[1..] == more;
    if m.Just? {
      var done := MapLines(f, m.value.suffix);
      Assoc4([c], m.value.prefix, m.value.text, done);
      Assoc4(line, [c] + m.value.prefix, m.value.text, done);
      Assoc(line, [c], m.value.prefix);
    }
  }

  lemma {:induction false} SearchStep(pass: Pass, s: string)
    ensures StepDone(Rewriter(pass), s, Search(pass, s))
    decreases |s|
  {
    SearchIsLineByLine(pass, s);
    var f := Rewriter(pass);
    var m := CutLine(pass, LineOf(s));
    LineFacts(s);
    if m.Just? {
      OneMatchPerLine(pass, LineOf(s));
      CutLineShortens(pass, LineOf(s));
      FirstLineStep(f, s, m.value);
    } else if AfterLine(s) != "" {
      SearchStep(pass, AfterLine(s)[1..]);
      LaterLineStep(f, s, Search(pass, AfterLine(s)[1..]));
    } else {
      OnlyLine(f, s);
    }
  }

  lemma Turn(f: string -> string, result: string, content: string, m: Found, goal: string)
    requires StepDone(f, content, Just(m)) && result + MapLines(f, content) == goal
    ensures result + m.prefix + m.text + MapLines(f, m.suffix) == goal
  {
    Assoc4(result, m.prefix, m.text, MapLines(f, m.suffix));
  }

  /** A text after one of the loops. */
  function Rewritten(pass: Pass, source: string): string {
    MapLines(Rewriter(pass), source)
  }

  /** One preprocessing loop of WorkerLoad. */
  method RewriteAll(pass: Pass, source: string) returns (result: string)
    ensures result == Rewritten(pass, source)
  {
    result := "";
    var content := source;
    ghost var f := Rewriter(pass);
    var m := Search(pass, content);
    SearchStep(pass, content);
    while m.Just?
      invariant StepDone(f, content, m)
      invariant result + MapLines(f, content) == MapLines(f, source)
      decreases |content|
    {
      Turn(f, result, content, m.value, MapLines(f, source));
      result := result + m.value.prefix + m.value.text;
      content := m.value.suffix;
      m := Search(pass, content);
      SearchStep(pass, content);
    }
    result := result + content;
  }

  // ---------------------------------------------------------------- what a rewrite keeps

  lemma NoTerminatorConcat(a: string, b: string)
    ensures NoTerminator(a + b) <==> NoTerminator(a) && NoTerminator(b)
  {
    var s := a + b;
    assert forall i :: 0 <= i < |a| ==> s[i] == a[i];
    assert forall i :: 0 <= i < |b| ==> s[|a| + i] == b[i];
  }

  /** How much shorter a rewritten line is: the brackets replace 11 characters by 2, the
      backquotes 8 by 6. */
  function Saved(pass: Pass): nat {
    if pass.Enqueue? then 9 else 2
  }

  /** A rewritten line is still one line, and is shorter by a fixed amount. */
  lemma RewriteLineShape(pass: Pass, line: string)
    requires NoTerminator(line)
    ensures NoTerminator(RewriteLine(pass, line))
    ensures |RewriteLine(pass, line)| == |line| - if CutLine(pass, line).Just? then Saved(pass) else 0
  {
    var m := CutLine(pass, line);
    if m.Just? {
      var i := FirstAt(line, Opener(pass));
      var body := line[i + |Opener(pass)|..];
      CutBodyShape(pass, body);
      NoTerminatorConcat(line[..i], m.value.text);
      NoTerminatorConcat(line[..i] + m.value.text, m.value.suffix);
    }
  }

  lemma CutBodyShape(pass: Pass, body: string)
    requires NoTerminator(body) && CutBody(pass, body).Just?
    ensures var c := CutBody(pass, body).value;
            NoTerminator(c.text) && NoTerminator(c.rest)
            && |c.text| + |c.rest| == |body| + |Opener(pass)| - Saved(pass)
  {
    var k := LastAt(body, Closer(pass));
    var inner := body[..k];
    if pass.Enqueue? {
      var j := LastAt(inner, SEPARATOR);
      var queue, item := inner[..j], inner[j + 2..];
      NoTerminatorConcat(queue, "[");
      NoTerminatorConcat(queue + "[", item);
      NoTerminatorConcat(queue + "[" + item, "]");
    } else {
      NoTerminatorConcat("n1ql`", inner);
      NoTerminatorConcat("n1ql`" + inner, "`");
    }
  }

  /** The lines a pass rewrites. */
  function Rewrites(pass: Pass, lines: seq<string>): nat {
    if lines == [] then 0
    else (if CutLine(pass, lines[0]).Just? then 1 else 0) + Rewrites(pass, lines[1..])
  }

  lemma {:induction false} MapLinesLength(pass: Pass, s: string)
    ensures |MapLines(Rewriter(pass), s)| + Saved(pass) * Rewrites(pass, Lines(s)) == |s|
    decreases |s|
  {
    var f := Rewriter(pass);
    var line, c, more := Decompose(s);
    RewriteLineShape(pass, line);
    if AfterLine(s) == "" {
      OnlyLine(f, line);
      assert Lines(s)[1..] == [];
    } else {
      FirstLine(f, line, c, more);
      assert Lines(s)[1..] == Lines(more);
      MapLinesLength(pass, more);
    }
  }

  lemma RewriterKeepsLines(pass: Pass, s: string)
    ensures KeepsLines(Rewriter(pass), s)
  {
    LinesAreLines(s);
    forall i | 0 <= i < |Lines(s)| ensures NoTerminator(Rewriter(pass)(Lines(s)[i])) {
      RewriteLineShape(pass, Lines(s)[i]);
    }
  }

  // ---------------------------------------------------------------- WorkerLoad

  /** What becomes of one source line. */
  function ScriptLine(line: string): string {
    RewriteLine(N1ql, RewriteLine(Enqueue, line))
  }

  /** A handler's source after both loops. */
  function Script(source: string): string {
    MapLines(ScriptLine, source)
  }

  /** No match crosses a newline: the text in front of one and the text behind it are rewritten
      each by itself, and the newline stays. Text without one is one line. */
  lemma NothingCrossesNewline(pass: Pass, a: string, c: char, b: string)
    requires c == '\n' || c == '\r'
    ensures Rewritten(pass, a + [c] + b) == Rewritten(pass, a) + [c] + Rewritten(pass, b)
    ensures Script(a + [c] + b) == Script(a) + [c] + Script(b)
    ensures '\n' !in a && '\r' !in a ==> Rewritten(pass, a) == RewriteLine(pass, a) && Script(a) == ScriptLine(a)
  {
    MapLinesAtNewline(Rewriter(pass), a, c, b);
    MapLinesAtNewline(ScriptLine, a, c, b);
    LineHasNoNewline(a);
    LineFacts(a);
    if LineOf(a) == a {
      OnlyLine(Rewriter(pass), a);
      OnlyLine(ScriptLine, a);
    }
  }

  /** The preprocessing part of WorkerLoad. */
  method Preprocess(source: string, builtins: string) returns (script: string)
    ensures script == Script(source) + builtins
    ensures |script| == |source| - 9 * Rewrites(Enqueue, Lines(source))
                        - 2 * Rewrites(N1ql, Lines(Rewritten(Enqueue, source))) + |builtins|
    ensures StartsLineEnd(builtins) ==>
              && |Lines(source)| <= |Lines(script)|
              && (forall k :: 0 <= k < |Lines(source)| ==> Lines(script)[k] == ScriptLine(Lines(source)[k]))
              && Terminators(source) <= Terminators(script)
  {
    var temp := RewriteAll(Enqueue, source);
    script := RewriteAll(N1ql, temp);
    PassesCompose(source);
    MapLinesLength(Enqueue, source);
    MapLinesLength(N1ql, temp);
    ghost var rewritten := script;
    script := script + builtins;
    if StartsLineEnd(builtins) {
      ScriptLineByLine(source);
      LinesOfConcat(rewritten, builtins);
    }
  }

  lemma PassesCompose(source: string)
    ensures MapLines(Rewriter(N1ql), MapLines(Rewriter(Enqueue), source)) == MapLines(ScriptLine, source)
  {
    RewriterKeepsLines(Enqueue, source);
    MapLinesTwice(Rewriter(Enqueue), Rewriter(N1ql), ScriptLine, source);
  }

  /** Line k of the rewritten text is the rewrite of source line k. */
  lemma ScriptLineByLine(source: string)
    ensures var script := MapLines(ScriptLine, source);
            |Lines(script)| == |Lines(source)| && Terminators(script) == Terminators(source)
            && forall k :: 0 <= k < |Lines(source)| ==> Lines(script)[k] == ScriptLine(Lines(source)[k])
  {
    LinesAreLines(source);
    forall i | 0 <= i < |Lines(source)| ensures NoTerminator(ScriptLine(Lines(source)[i])) {
      RewriteLineShape(Enqueue, Lines(source)[i]);
      RewriteLineShape(N1ql, RewriteLine(Enqueue, Lines(source)[i]));
    }
    MapLinesByLine(ScriptLine, source);
  }
}
