/** Lines and occurrences of literals, for the preprocessor. */
module PreprocessorText {
  import opened Sequences

  /** What `.` does not match in the matcher's grammar, for single-byte characters. */
  predicate IsTerminator(c: char) {
    c == '\n' || c == '\r'
  }

  predicate NoTerminator(s: string) {
    forall i :: 0 <= i < |s| ==> !IsTerminator(s[i])
  }

  /** Where the line at the start of s ends. */
  function LineEnd(s: string): (n: nat)
    ensures n <= |s|
  {
    if s == "" || IsTerminator(s[0]) then 0 else 1 + LineEnd(s[1..])
  }

  function LineOf(s: string): string {
    s[..LineEnd(s)]
  }

  /** The terminator that ends the first line and everything behind it. */
  function AfterLine(s: string): string {
    s[LineEnd(s)..]
  }

  predicate StartsLineEnd(rest: string) {
    rest == "" || IsTerminator(rest[0])
  }

  lemma {:induction false} LineFacts(s: string)
    ensures NoTerminator(LineOf(s)) && StartsLineEnd(AfterLine(s)) && s == LineOf(s) + AfterLine(s)
  {
    if s != "" && !IsTerminator(s[0]) {
      LineFacts(s[1..]);
      assert LineOf(s) == [s[0]] + LineOf(s[1..]);
      assert AfterLine(s) == AfterLine(s[1..]);
    }
  }

  lemma {:induction false} LineUnique(line: string, rest: string)
    requires NoTerminator(line) && StartsLineEnd(rest)
    ensures LineOf(line + rest) == line && AfterLine(line + rest) == rest
  {
    var s := line + rest;
    if line == "" {
      assert s == rest;
    } else {
      assert s[1..] == line[1..] + rest;
      LineUnique(line[1..], rest);
      assert LineOf(s) == [line[0]] + LineOf(s[1..]);
    }
  }

  predicate OccursAt(s: string, literal: string, p: nat) {
    p + |literal| <= |s| && s[p..p + |literal|] == literal
  }

  /** p is the first place where the literal occurs, or -1 if it does not. */
  ghost predicate IsFirstAt(s: string, literal: string, p: int) {
    && p >= -1 && (p >= 0 ==> OccursAt(s, literal, p))
    && (forall q: nat :: OccursAt(s, literal, q) ==> 0 <= p <= q)
  }

  /** p is the last place where the literal occurs, or -1 if it does not. */
  ghost predicate IsLastAt(s: string, literal: string, p: int) {
    && p >= -1 && (p >= 0 ==> OccursAt(s, literal, p))
    && (forall q: nat :: OccursAt(s, literal, q) ==> q <= p)
  }

  function FirstAt(s: string, literal: string): (p: int)
    ensures p >= -1 && (p >= 0 ==> p + |literal| <= |s|)
  {
    FirstFrom(s, literal, 0)
  }

  function FirstFrom(s: string, literal: string, i: nat): (p: int)
    requires i <= |s|
    ensures p >= -1 && (p >= 0 ==> i <= p && p + |literal| <= |s|)
    decreases |s| - i
  {
    if OccursAt(s, literal, i) then i
    else if i == |s| then -1
    else FirstFrom(s, literal, i + 1)
  }

  function LastAt(s: string, literal: string): (p: int)
    ensures p >= -1 && (p >= 0 ==> p + |literal| <= |s|)
  {
    LastBetween(s, literal, 0, |s|)
  }

  /** The last place between lo and i where the literal occurs, looking from i downwards. */
  function LastBetween(s: string, literal: string, lo: nat, i: int): (p: int)
    ensures p == -1 || lo <= p <= i
    ensures p >= 0 ==> p + |literal| <= |s|
    decreases i
  {
    if i < lo then -1
    else if OccursAt(s, literal, i) then i
    else LastBetween(s, literal, lo, i - 1)
  }

  lemma {:induction false} FirstFromIsFirst(s: string, literal: string, i: nat)
    requires i <= |s|
    ensures var p := FirstFrom(s, literal, i);
            (p >= 0 ==> OccursAt(s, literal, p))
            && forall q: nat :: OccursAt(s, literal, q) && i <= q ==> 0 <= p <= q
    decreases |s| - i
  {
    if !OccursAt(s, literal, i) && i < |s| {
      FirstFromIsFirst(s, literal, i + 1);
    }
  }

  lemma {:induction false} LastBetweenIsLast(s: string, literal: string, lo: nat, i: int)
    ensures var p := LastBetween(s, literal, lo, i);
            (p >= 0 ==> OccursAt(s, literal, p))
            && forall q: nat :: OccursAt(s, literal, q) && lo <= q <= i ==> q <= p
    decreases i
  {
    if lo <= i && !OccursAt(s, literal, i) {
      LastBetweenIsLast(s, literal, lo, i - 1);
    }
  }

  /** A lower bound only matters if the last occurrence is below it. */
  lemma {:induction false} LastAbove(s: string, literal: string, lo: nat, i: int)
    ensures var p := LastBetween(s, literal, 0, i);
            LastBetween(s, literal, lo, i) == if p >= lo then p else -1
    decreases i
  {
    if 0 <= i && !OccursAt(s, literal, i) {
      LastAbove(s, literal, lo, i - 1);
    }
  }

  /** The search from the left finds the first occurrence, and only that. */
  lemma FirstAtIs(s: string, literal: string, p: int)
    ensures FirstAt(s, literal) == p <==> IsFirstAt(s, literal, p)
  {
    FirstFromIsFirst(s, literal, 0);
  }

  /** The search from the right finds the last occurrence, and only that. */
  lemma LastAtIs(s: string, literal: string, p: int)
    ensures LastAt(s, literal) == p <==> IsLastAt(s, literal, p)
  {
    LastBetweenIsLast(s, literal, 0, |s|);
  }

  lemma OccursInSuffix(s: string, literal: string, n: nat, p: nat)
    requires n <= |s|
    ensures OccursAt(s[n..], literal, p) <==> OccursAt(s, literal, n + p)
  {
    if n + p + |literal| <= |s| {
      assert s[n..][p..p + |literal|] == s[n + p..n + p + |literal|];
    }
  }

  lemma OccursInPrefix(s: string, literal: string, n: nat, p: nat)
    requires n <= |s|
    ensures OccursAt(s[..n], literal, p) <==> OccursAt(s, literal, p) && p + |literal| <= n
  {
    if p + |literal| <= n {
      assert s[..n][p..p + |literal|] == s[p..p + |literal|];
    }
  }

  lemma StartsAlike(s: string, literal: string)
    requires literal != ""
    ensures OccursAt(s, literal, 0) ==> s != "" && s[0] == literal[0]
  {
    if OccursAt(s, literal, 0) {
      assert s[..|literal|][0] == literal[0];
    }
  }

  // ---------------------------------------------------------------- rewriting line by line

  /** A rewrite of every line, with the terminators left in place. */
  function MapLines(f: string -> string, s: string): string
    decreases |s|
  {
    var rest := AfterLine(s);
    if rest == "" then f(s) else f(LineOf(s)) + ([rest[0]] + MapLines(f, rest[1..]))
  }

  /** The lines of a text, one more than it has terminators. */
  function Lines(s: string): (lines: seq<string>)
    ensures |lines| > 0
    decreases |s|
  {
    var rest := AfterLine(s);
    if rest == "" then [s] else [LineOf(s)] + Lines(rest[1..])
  }

  function Terminators(s: string): seq<char>
    decreases |s|
  {
    var rest := AfterLine(s);
    if rest == "" then [] else [rest[0]] + Terminators(rest[1..])
  }

  predicate KeepsLines(f: string -> string, s: string) {
    forall i :: 0 <= i < |Lines(s)| ==> NoTerminator(f(Lines(s)[i]))
  }

  /** One line and what follows it, seen by the functions on lines. */
  lemma FirstLine(f: string -> string, line: string, c: char, more: string)
    requires NoTerminator(line) && IsTerminator(c)
    ensures var s := line + ([c] + more);
            LineOf(s) == line && AfterLine(s) == [c] + more
            && MapLines(f, s) == f(line) + ([c] + MapLines(f, more))
            && Lines(s) == [line] + Lines(more) && Terminators(s) == [c] + Terminators(more)
  {
    LineUnique(line, [c] + more);
    assert ([c] + more)[1..] == more;
  }

  lemma OnlyLine(f: string -> string, line: string)
    requires NoTerminator(line)
    ensures LineOf(line) == line && AfterLine(line) == ""
    ensures MapLines(f, line) == f(line) && Lines(line) == [line] && Terminators(line) == []
  {
    LineUnique(line, "");
    assert line + "" == line;
  }

  /** A text is one line, or a line, a terminator and more text. */
  lemma Decompose(s: string) returns (line: string, c: char, more: string)
    ensures NoTerminator(line) && line == LineOf(s)
    ensures AfterLine(s) == "" ==> s == line
    ensures AfterLine(s) != "" ==> IsTerminator(c) && s == line + ([c] + more) && [c] + more == AfterLine(s)
  {
    LineFacts(s);
    line := LineOf(s);
    if AfterLine(s) != "" {
      c, more := AfterLine(s)[0], AfterLine(s)[1..];
    } else {
      c, more := '\n', "";
    }
  }

  /** Line k of the result is the rewrite of line k, and the terminators are the same. */
  lemma {:induction false} MapLinesByLine(f: string -> string, s: string)
    requires KeepsLines(f, s)
    ensures var r := MapLines(f, s);
            |Lines(r)| == |Lines(s)| && Terminators(r) == Terminators(s)
            && forall i :: 0 <= i < |Lines(s)| ==> Lines(r)[i] == f(Lines(s)[i])
    decreases |s|
  {
    var line, c, more := Decompose(s);
    if AfterLine(s) == "" {
      OnlyLine(f, line);
      assert NoTerminator(f(Lines(s)[0]));
      OnlyLine(f, f(line));
    } else {
      FirstLine(f, line, c, more);
      assert NoTerminator(f(Lines(s)[0]));
      assert forall i :: 0 <= i < |Lines(more)| ==> Lines(s)[i + 1] == Lines(more)[i];
      MapLinesByLine(f, more);
      FirstLine(f, f(line), c, MapLines(f, more));
    }
  }

  /** Rewriting twice, line by line, is rewriting each line twice. */
  lemma {:induction false} MapLinesTwice(f: string -> string, g: string -> string, h: string -> string, s: string)
    requires KeepsLines(f, s)
    requires forall i :: 0 <= i < |Lines(s)| ==> h(Lines(s)[i]) == g(f(Lines(s)[i]))
    ensures MapLines(g, MapLines(f, s)) == MapLines(h, s)
    decreases |s|
  {
    var line, c, more := Decompose(s);
    if AfterLine(s) == "" {
      OnlyLine(f, line);
      OnlyLine(h, line);
      assert NoTerminator(f(Lines(s)[0])) && h(Lines(s)[0]) == g(f(Lines(s)[0]));
      OnlyLine(g, f(line));
    } else {
      FirstLine(f, line, c, more);
      FirstLine(h, line, c, more);
      assert NoTerminator(f(Lines(s)[0])) && h(Lines(s)[0]) == g(f(Lines(s)[0]));
      assert forall i :: 0 <= i < |Lines(more)| ==> Lines(s)[i + 1] == Lines(more)[i];
      MapLinesTwice(f, g, h, more);
      FirstLine(g, f(line), c, MapLines(f, more));
    }
  }

  lemma {:induction false} LinesAreLines(s: string)
    ensures forall i :: 0 <= i < |Lines(s)| ==> NoTerminator(Lines(s)[i])
    decreases |s|
  {
    LineFacts(s);
    if AfterLine(s) != "" {
      LinesAreLines(AfterLine(s)[1..]);
    } else {
      assert LineOf(s) == s;
    }
  }

  /** Text that starts with a terminator begins a new line. */
  lemma {:induction false} LinesOfConcat(a: string, b: string)
    requires StartsLineEnd(b)
    ensures Lines(a) <= Lines(a + b) && Terminators(a) <= Terminators(a + b)
    decreases |a|
  {
    var f := (s: string) => s;
    var line, c, more := Decompose(a);
    if AfterLine(a) == "" {
      OnlyLine(f, line);
      if b == "" {
        assert a + b == a;
      } else {
        assert [b[0]] + b[1..] == b;
        FirstLine(f, line, b[0], b[1..]);
      }
    } else {
      LinesOfConcat(more, b);
      FirstLine(f, line, c, more);
      FirstLine(f, line, c, more + b);
      Behind(line, c, more, b);
    }
  }

  /** What ends a line, character by character. */
  lemma LineHasNoNewline(s: string)
    ensures LineOf(s) == s <==> '\n' !in s && '\r' !in s
  {
    LineFacts(s);
    if '\n' !in s && '\r' !in s {
      assert NoTerminator(s);
      assert s + "" == s;
      LineUnique(s, "");
    }
    if LineOf(s) == s {
      assert NoTerminator(s);
    }
  }

  /** Text on both sides of a newline is rewritten by itself. */
  lemma {:induction false} MapLinesAtNewline(f: string -> string, a: string, c: char, b: string)
    requires c == '\n' || c == '\r'
    ensures MapLines(f, a + [c] + b) == MapLines(f, a) + [c] + MapLines(f, b)
    decreases |a|
  {
    var line, d, more := Decompose(a);
    Assoc(a, [c], b);
    if AfterLine(a) == "" {
      FirstLine(f, line, c, b);
      OnlyLine(f, line);
      Assoc(f(line), [c], MapLines(f, b));
    } else {
      MapLinesAtNewline(f, more, c, b);
      FirstLine(f, line, d, more);
      FirstLine(f, line, d, more + [c] + b);
      Behind(line, d, more, [c] + b);
      Assoc(more, [c], b);
      Behind(f(line), d, MapLines(f, more), [c] + MapLines(f, b));
      Assoc(MapLines(f, more), [c], MapLines(f, b));
      Assoc(MapLines(f, a), [c], MapLines(f, b));
    }
  }

  lemma Behind(line: string, d: char, more: string, rest: string)
    ensures line + ([d] + more) + rest == line + ([d] + (more + rest))
  {
    Assoc(line, [d] + more, rest);
    Assoc([d], more, rest);
  }
}
