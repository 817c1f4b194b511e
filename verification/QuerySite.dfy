/**
 A query call on a line that the enqueue pass rewrites too. That pass takes an opener, a separator
 and a closer out of the line wherever it finds them, inside a query as well; the exact condition
 under which the query still stands after it is given here.
 */
module QuerySite {
  import opened Wrappers
  import opened PreprocessorText
  import opened Preprocessor
  import opened Template

  // ---------------------------------------------------------------- the literals, character by character

  predicate OpensQuery(s: string, q: int) {
    && 0 <= q && q + 6 <= |s|
    && s[q] == 'n' && s[q + 1] == '1' && s[q + 2] == 'q' && s[q + 3] == 'l' && s[q + 4] == '(' && s[q + 5] == '"'
  }

  predicate ClosesQuery(s: string, q: int) {
    0 <= q && q + 2 <= |s| && s[q] == '"' && s[q + 1] == ')'
  }

  predicate OpensEnqueue(s: string, q: int) {
    && 0 <= q && q + 8 <= |s|
    && s[q] == 'e' && s[q + 1] == 'n' && s[q + 2] == 'q' && s[q + 3] == 'u'
    && s[q + 4] == 'e' && s[q + 5] == 'u' && s[q + 6] == 'e' && s[q + 7] == '('
  }

  predicate Separates(s: string, q: int) {
    0 <= q && q + 2 <= |s| && s[q] == ',' && s[q + 1] == ' '
  }

  lemma OccursByChar(s: string, literal: string, q: nat)
    ensures OccursAt(s, literal, q) <==> q + |literal| <= |s| && forall t :: 0 <= t < |literal| ==> s[q + t] == literal[t]
  {
    if q + |literal| <= |s| {
      var part := s[q..q + |literal|];
      assert forall t :: 0 <= t < |literal| ==> part[t] == s[q + t];
    }
  }

  lemma OpensQueryIs(s: string, q: nat)
    ensures OccursAt(s, Opener(N1ql), q) <==> OpensQuery(s, q)
  {
    OccursByChar(s, Opener(N1ql), q);
    var l := Opener(N1ql);
    assert l[0] == 'n' && l[1] == '1' && l[2] == 'q' && l[3] == 'l' && l[4] == '(' && l[5] == '"';
  }

  lemma ClosesQueryIs(s: string, q: nat)
    ensures OccursAt(s, Closer(N1ql), q) <==> ClosesQuery(s, q)
  {
    OccursByChar(s, Closer(N1ql), q);
  }

  lemma OpensEnqueueIs(s: string, q: nat)
    ensures OccursAt(s, Opener(Enqueue), q) ==> OpensEnqueue(s, q)
  {
    OccursByChar(s, Opener(Enqueue), q);
    var l := Opener(Enqueue);
    assert l[0] == 'e' && l[1] == 'n' && l[2] == 'q' && l[3] == 'u' && l[4] == 'e' && l[5] == 'u' && l[6] == 'e' && l[7] == '(';
  }

  lemma SeparatesIs(s: string, q: nat)
    ensures OccursAt(s, SEPARATOR, q) ==> Separates(s, q)
  {
    OccursByChar(s, SEPARATOR, q);
  }

  // ---------------------------------------------------------------- the query on a line

  /** The query pass finds an opener at lo and a closer that ends at hi. */
  ghost predicate QueryAt(line: string, lo: nat, hi: nat) {
    && OpensQuery(line, lo) && ClosesQuery(line, hi - 2) && lo + 8 <= hi
    && (forall q :: OpensQuery(line, q) ==> lo <= q) && (forall q :: ClosesQuery(line, q) ==> q <= hi - 2)
  }

  lemma QueryFound(line: string, lo: nat, hi: nat)
    requires QueryAt(line, lo, hi)
    ensures FirstAt(line, Opener(N1ql)) == lo && LastAt(line, Closer(N1ql)) == hi - 2
  {
    forall q: nat ensures OccursAt(line, Opener(N1ql), q) <==> OpensQuery(line, q) {
      OpensQueryIs(line, q);
    }
    forall q: nat ensures OccursAt(line, Closer(N1ql), q) <==> ClosesQuery(line, q) {
      ClosesQueryIs(line, q);
    }
    FirstAtIs(line, Opener(N1ql), lo);
    LastAtIs(line, Closer(N1ql), hi - 2);
  }

  lemma FoundAt(line: string)
    requires CutLine(N1ql, line).Just?
    ensures var m := CutLine(N1ql, line).value;
            |m.prefix| + 8 <= |line| - |m.suffix| && QueryAt(line, |m.prefix|, |line| - |m.suffix|)
  {
    var i := FirstAt(line, Opener(N1ql));
    var k := LastAt(line, Closer(N1ql));
    LastInSuffix(line, Closer(N1ql), i + 6);
    FirstAtIs(line, Opener(N1ql), i);
    LastAtIs(line, Closer(N1ql), k);
    OpensQueryIs(line, i);
    ClosesQueryIs(line, k);
    forall q | OpensQuery(line, q) ensures i <= q {
      OpensQueryIs(line, q);
    }
    forall q | ClosesQuery(line, q) ensures q <= k {
      ClosesQueryIs(line, q);
    }
  }

  lemma CutAt(line: string, lo: nat, hi: nat)
    requires QueryAt(line, lo, hi)
    ensures CutLine(N1ql, line) == Just(Found(line[..lo], QueryText(line[lo + 6..hi - 2]), line[hi..]))
  {
    QueryFound(line, lo, hi);
    LastInSuffix(line, Closer(N1ql), lo + 6);
    assert line[lo + 6..][..hi - 8 - lo] == line[lo + 6..hi - 2];
    assert line[lo + 6..][hi - 6 - lo..] == line[hi..];
  }

  // ---------------------------------------------------------------- the enqueue pass on that line

  /** Where the three pieces stand that the enqueue pass replaces. */
  datatype Site = Site(opener: nat, separator: nat, closer: nat)

  function EnqueueSite(line: string): Maybe<Site> {
    var i := FirstAt(line, Opener(Enqueue));
    if i < 0 then Nothing
    else
      var rest := line[i + 8..];
      var k := LastAt(rest, Closer(Enqueue));
      if k < 0 then Nothing
      else
        var j := LastAt(rest[..k], SEPARATOR);
        if j < 0 then Nothing else Just(Site(i, i + 8 + j, i + 8 + k))
  }

  predicate InOrder(line: string, site: Site) {
    site.opener + 8 <= site.separator && site.separator + 2 <= site.closer < |line|
  }

  /** What stands at a site; its closer is the last one on the line. */
  ghost predicate AtSite(line: string, site: Site) {
    && InOrder(line, site)
    && OpensEnqueue(line, site.opener) && Separates(line, site.separator) && line[site.closer] == ')'
    && forall q :: site.closer < q < |line| ==> line[q] != ')'
  }

  /** The line with the three pieces replaced. */
  function Edited(line: string, site: Site): string
    requires InOrder(line, site)
  {
    line[..site.opener] + (line[site.opener + 8..site.separator] + "[" + line[site.separator + 2..site.closer] + "]")
    + line[site.closer + 1..]
  }

  lemma LastParen(line: string, i: nat, k: nat)
    requires i <= |line| && LastAt(line[i..], ")") == k
    ensures i + k < |line| && line[i + k] == ')' && forall q :: i + k < q < |line| ==> line[q] != ')'
  {
    var rest := line[i..];
    LastAtIs(rest, ")", k);
    OccursByChar(rest, ")", k);
    forall q | i + k < q < |line| ensures line[q] != ')' {
      OccursByChar(rest, ")", q - i);
    }
  }

  lemma SiteStands(line: string)
    requires EnqueueSite(line).Just?
    ensures AtSite(line, EnqueueSite(line).value)
  {
    var i := FirstAt(line, Opener(Enqueue));
    var rest := line[i + 8..];
    var k := LastAt(rest, ")");
    var j := LastAt(rest[..k], SEPARATOR);
    FirstAtIs(line, Opener(Enqueue), i);
    OpensEnqueueIs(line, i);
    LastParen(line, i + 8, k);
    LastAtIs(rest[..k], SEPARATOR, j);
    SeparatesIs(rest[..k], j);
  }

  lemma SiteIsCut(line: string)
    ensures CutLine(Enqueue, line).Just? <==> EnqueueSite(line).Just?
    ensures EnqueueSite(line).Just? ==>
              && InOrder(line, EnqueueSite(line).value)
              && RewriteLine(Enqueue, line) == Edited(line, EnqueueSite(line).value)
  {
    if EnqueueSite(line).Just? {
      SiteStands(line);
      CutAtSite(line, EnqueueSite(line).value);
    } else {
      NoSite(line);
    }
  }

  lemma NoSite(line: string)
    requires EnqueueSite(line).Nothing?
    ensures CutLine(Enqueue, line).Nothing?
  {
  }

  lemma CutAtSite(line: string, site: Site)
    requires EnqueueSite(line) == Just(site) && InOrder(line, site)
    ensures CutLine(Enqueue, line)
            == Just(Found(line[..site.opener],
                          EnqueueText(line[site.opener + 8..site.separator], line[site.separator + 2..site.closer]),
                          line[site.closer + 1..]))
  {
    var i, j, k := site.opener + 8, site.separator - site.opener - 8, site.closer - site.opener - 8;
    CutSplits(line[i..], k, j);
    Parts(line, i, j, k);
  }

  lemma Parts(line: string, i: nat, j: nat, k: nat)
    requires i <= |line| && j + 2 <= k && i + k < |line|
    ensures line[i..][..j] == line[i..i + j]
    ensures line[i..][j + 2..k] == line[i + j + 2..i + k]
    ensures line[i..][k + 1..] == line[i + k + 1..]
  {
  }

  /** Where a character of the edited line comes from. */
  function Origin(site: Site, x: int): int {
    if x < site.opener then x else if x < site.separator - 8 then x + 8 else x + 9
  }

  predicate IsBracket(site: Site, x: int) {
    x == site.separator - 8 || x == site.closer - 9
  }

  lemma EditedAt(line: string, site: Site)
    requires InOrder(line, site)
    ensures |Edited(line, site)| == |line| - 9
    ensures forall x :: 0 <= x < |line| - 9 && !IsBracket(site, x) ==> Edited(line, site)[x] == line[Origin(site, x)]
    ensures forall x :: 0 <= x < |line| - 9 && IsBracket(site, x) ==> Edited(line, site)[x] in "[]"
  {
  }

  /** The line without the word at o. */
  function Without(line: string, o: nat): string
    requires o + 8 <= |line|
  {
    line[..o] + line[o + 8..]
  }

  /** An opener of the edited line is one of the line, or is joined where the word was. */
  lemma OpenersStay(line: string, site: Site, q: int)
    requires InOrder(line, site) && OpensQuery(Edited(line, site), q)
    ensures OpensQuery(line, Origin(site, q)) || (site.opener - 6 < q < site.opener && OpensQuery(Without(line, site.opener), q))
  {
    EditedAt(line, site);
    assert !IsBracket(site, q) && !IsBracket(site, q + 1) && !IsBracket(site, q + 2);
    assert !IsBracket(site, q + 3) && !IsBracket(site, q + 4) && !IsBracket(site, q + 5);
  }

  lemma ClosersStay(line: string, site: Site, q: int)
    requires InOrder(line, site) && ClosesQuery(Edited(line, site), q)
    ensures ClosesQuery(line, Origin(site, q)) || (q == site.opener - 1 && ClosesQuery(Without(line, site.opener), q))
  {
    EditedAt(line, site);
    assert !IsBracket(site, q) && !IsBracket(site, q + 1);
  }

  // ---------------------------------------------------------------- the exact condition

  /** None of the three pieces lies in the call. */
  predicate Outside(site: Site, lo: nat, hi: nat) {
    && (site.opener + 8 <= lo || hi <= site.opener)
    && (site.separator + 2 <= lo || hi <= site.separator)
    && (site.closer < lo || hi <= site.closer)
  }

  /** Taking the word out joins an opener in front of the call, or a closer behind it. */
  predicate Joins(line: string, site: Site, lo: nat)
    requires site.opener + 8 <= |line|
  {
    var joined := Without(line, site.opener);
    if site.opener < lo then exists q :: site.opener - 6 < q < site.opener && OpensQuery(joined, q)
    else ClosesQuery(joined, site.opener - 1)
  }

  predicate SparedBy(line: string, site: Site, lo: nat, hi: nat) {
    site.opener + 8 <= |line| && Outside(site, lo, hi) && !Joins(line, site, lo)
  }

  /** Where the call stands once the pieces in front of it are replaced. */
  function Image(site: Site, lo: nat): int {
    lo - (if site.opener < lo then 8 else 0) - (if site.separator < lo then 1 else 0)
  }

  /** No piece sticks out of the body or the text around the call. */
  lemma Placed(line: string, site: Site, lo: nat, hi: nat)
    requires AtSite(line, site) && QueryAt(line, lo, hi)
    ensures site.opener + 8 <= lo || (lo + 6 <= site.opener && site.opener + 8 <= hi - 2) || hi <= site.opener
    ensures site.separator + 2 <= lo || (lo + 6 <= site.separator && site.separator + 2 <= hi - 2) || hi <= site.separator
    ensures hi - 1 <= site.closer
  {
  }

  /** The call moves as a whole. */
  lemma CallMoves(line: string, site: Site, lo: nat, hi: nat)
    requires AtSite(line, site) && QueryAt(line, lo, hi) && Outside(site, lo, hi)
    ensures 0 <= Image(site, lo) && Image(site, lo) + (hi - lo) <= |Edited(line, site)|
    ensures Edited(line, site)[Image(site, lo)..Image(site, lo) + (hi - lo)] == line[lo..hi]
  {
    Placed(line, site, lo, hi);
    EditedAt(line, site);
    var at, edited, n := Image(site, lo), Edited(line, site), hi - lo;
    var moved, call := edited[at..at + n], line[lo..hi];
    forall t | 0 <= t < n ensures moved[t] == call[t] {
      assert !IsBracket(site, at + t) && Origin(site, at + t) == lo + t;
    }
  }

  lemma SameBody(a: string, i: nat, b: string, j: nat, n: nat)
    requires 8 <= n && i + n <= |a| && j + n <= |b| && a[i..i + n] == b[j..j + n]
    ensures a[i + 6..i + n - 2] == b[j + 6..j + n - 2]
  {
    Inner(a, i, n);
    Inner(b, j, n);
  }

  lemma Inner(a: string, i: nat, n: nat)
    requires 8 <= n && i + n <= |a|
    ensures a[i..i + n][6..n - 2] == a[i + 6..i + n - 2]
  {
    var whole := a[i..i + n];
    var l, r := whole[6..n - 2], a[i + 6..i + n - 2];
    forall t | 0 <= t < |l| ensures l[t] == r[t] {
      assert l[t] == whole[6 + t];
    }
  }

  lemma CutMoved(line: string, edited: string, lo: nat, at: int, n: nat)
    requires MovedTo(line, edited, lo, at, n)
    ensures Makes(edited, line[lo + 6..lo + n - 2], at)
  {
    CutAt(edited, at, at + n);
    SameBody(edited, at, line, lo, n);
  }

  lemma NoneInFront(line: string, site: Site, lo: nat, hi: nat, q: int)
    requires AtSite(line, site) && QueryAt(line, lo, hi) && Outside(site, lo, hi) && !Joins(line, site, lo)
    requires OpensQuery(Edited(line, site), q)
    ensures Image(site, lo) <= q
  {
    Placed(line, site, lo, hi);
    OpenersStay(line, site, q);
  }

  lemma NoneBehind(line: string, site: Site, lo: nat, hi: nat, q: int)
    requires AtSite(line, site) && QueryAt(line, lo, hi) && Outside(site, lo, hi) && !Joins(line, site, lo)
    requires ClosesQuery(Edited(line, site), q)
    ensures q <= Image(site, lo) + (hi - lo) - 2
  {
    Placed(line, site, lo, hi);
    ClosersStay(line, site, q);
  }

  /** The n characters of the call at lo stand at `at` now, and the query pass finds them there. */
  ghost predicate MovedTo(line: string, edited: string, lo: nat, at: int, n: nat) {
    && 0 <= at && at + n <= |edited| && lo + n <= |line|
    && edited[at..at + n] == line[lo..lo + n] && QueryAt(edited, at, at + n)
  }

  lemma StaysPut(line: string, site: Site, lo: nat, hi: nat)
    requires AtSite(line, site) && QueryAt(line, lo, hi) && Outside(site, lo, hi) && !Joins(line, site, lo)
    ensures MovedTo(line, Edited(line, site), lo, Image(site, lo), hi - lo)
  {
    var at, edited := Image(site, lo), Edited(line, site);
    CallMoves(line, site, lo, hi);
    SameCall(line, edited, lo, at, hi - lo);
    forall q | OpensQuery(edited, q) ensures at <= q {
      NoneInFront(line, site, lo, hi, q);
    }
    forall q | ClosesQuery(edited, q) ensures q <= at + (hi - lo) - 2 {
      NoneBehind(line, site, lo, hi, q);
    }
  }

  lemma SameCall(line: string, edited: string, lo: nat, at: nat, n: nat)
    requires 8 <= n && lo + n <= |line| && at + n <= |edited| && edited[at..at + n] == line[lo..lo + n]
    requires OpensQuery(line, lo) && ClosesQuery(line, lo + n - 2)
    ensures OpensQuery(edited, at) && ClosesQuery(edited, at + n - 2)
  {
    var a, b := edited[at..at + n], line[lo..lo + n];
    assert forall x :: 0 <= x < n ==> a[x] == edited[at + x] && b[x] == line[lo + x];
    assert a[0] == b[0] && a[1] == b[1] && a[2] == b[2] && a[3] == b[3] && a[4] == b[4] && a[5] == b[5];
    assert a[n - 2] == b[n - 2] && a[n - 1] == b[n - 1];
  }

  /** A piece inside the call: no closer is left where the call would end. */
  lemma PieceInside(line: string, site: Site, lo: nat, hi: nat)
    requires AtSite(line, site) && QueryAt(line, lo, hi) && !Outside(site, lo, hi)
    ensures !ClosesQuery(Edited(line, site), Image(site, lo) + (hi - lo) - 2)
  {
    Placed(line, site, lo, hi);
    var r := Image(site, lo) + (hi - lo) - 2;
    if ClosesQuery(Edited(line, site), r) {
      ClosersStay(line, site, r);
    }
  }

  /** The word taken out joins an opener or a closer: the query starts earlier or ends later. */
  lemma PieceJoined(line: string, site: Site, lo: nat, hi: nat)
    requires AtSite(line, site) && QueryAt(line, lo, hi) && Outside(site, lo, hi) && Joins(line, site, lo)
    ensures 0 <= Image(site, lo) ==> !QueryAt(Edited(line, site), Image(site, lo), Image(site, lo) + (hi - lo))
  {
    Placed(line, site, lo, hi);
    if site.opener < lo {
      var q :| site.opener - 6 < q < site.opener && OpensQuery(Without(line, site.opener), q);
      JoinedOpener(line, site, q);
    } else {
      JoinedCloser(line, site);
    }
  }

  lemma JoinedOpener(line: string, site: Site, q: int)
    requires AtSite(line, site) && site.opener - 6 < q < site.opener && OpensQuery(Without(line, site.opener), q)
    ensures OpensQuery(Edited(line, site), q)
  {
    EditedAt(line, site);
    assert Without(line, site.opener)[site.separator - 8] == ',';
  }

  lemma JoinedCloser(line: string, site: Site)
    requires AtSite(line, site) && ClosesQuery(Without(line, site.opener), site.opener - 1)
    ensures ClosesQuery(Edited(line, site), site.opener - 1)
  {
    EditedAt(line, site);
    assert Without(line, site.opener)[site.separator - 8] == ',';
  }

  /** The query pass makes a template of the body at the given place. */
  predicate Makes(edited: string, body: string, at: int) {
    var m := CutLine(N1ql, edited);
    m.Just? && m.value.text == QueryText(body) && |m.value.prefix| == at
  }

  /** After the enqueue pass, it still makes one of this body where the call was. */
  predicate Survives(line: string, lo: nat, hi: nat)
    requires lo + 8 <= hi <= |line|
  {
    var site := EnqueueSite(line);
    Makes(RewriteLine(Enqueue, line), line[lo + 6..hi - 2], if site.Just? then Image(site.value, lo) else lo)
  }

  /** What a caller can see in the line: the enqueue pass finds nothing, or it takes its three
      pieces from outside the call and joins nothing by it. */
  predicate Spared(line: string, lo: nat, hi: nat) {
    EnqueueSite(line).Just? ==> SparedBy(line, EnqueueSite(line).value, lo, hi)
  }

  /** The query of a line survives the enqueue pass if and only if the line spares it. */
  lemma SurvivesExactly(line: string, lo: nat, hi: nat)
    requires QueryAt(line, lo, hi)
    ensures Survives(line, lo, hi) <==> Spared(line, lo, hi)
  {
    if EnqueueSite(line).Nothing? {
      SiteIsCut(line);
      CutAt(line, lo, hi);
    } else {
      var site := EnqueueSite(line).value;
      AfterEnqueue(line, site, lo, hi);
      MakesExactly(line, RewriteLine(Enqueue, line), lo, hi, Image(site, lo), SparedBy(line, site, lo, hi));
    }
  }

  lemma AfterEnqueue(line: string, site: Site, lo: nat, hi: nat)
    requires QueryAt(line, lo, hi) && EnqueueSite(line) == Just(site)
    ensures StandsIf(line, RewriteLine(Enqueue, line), lo, Image(site, lo), hi - lo, SparedBy(line, site, lo, hi))
  {
    SiteStands(line);
    SiteIsCut(line);
    StandsExactly(line, site, lo, hi);
  }

  /** The query pass finds just the call in its new place, if and only if the site spares it. */
  ghost predicate StandsIf(line: string, edited: string, lo: nat, at: int, n: nat, spared: bool) {
    && (spared ==> MovedTo(line, edited, lo, at, n))
    && (0 <= at && QueryAt(edited, at, at + n) ==> spared)
  }

  lemma StandsExactly(line: string, site: Site, lo: nat, hi: nat)
    requires QueryAt(line, lo, hi) && AtSite(line, site)
    ensures StandsIf(line, Edited(line, site), lo, Image(site, lo), hi - lo, SparedBy(line, site, lo, hi))
  {
    if SparedBy(line, site, lo, hi) {
      StaysPut(line, site, lo, hi);
    } else if Outside(site, lo, hi) {
      PieceJoined(line, site, lo, hi);
    } else {
      PieceInside(line, site, lo, hi);
    }
  }

  lemma MakesExactly(line: string, edited: string, lo: nat, hi: nat, at: int, spared: bool)
    requires lo + 8 <= hi <= |line| && StandsIf(line, edited, lo, at, hi - lo, spared)
    ensures Makes(edited, line[lo + 6..hi - 2], at) <==> spared
  {
    if spared {
      CutMoved(line, edited, lo, at, hi - lo);
    }
    if Makes(edited, line[lo + 6..hi - 2], at) {
      MadeAt(edited, line[lo + 6..hi - 2], at);
    }
  }

  lemma MadeAt(edited: string, body: string, at: int)
    requires Makes(edited, body, at)
    ensures 0 <= at && QueryAt(edited, at, at + |body| + 8)
  {
    var m := CutLine(N1ql, edited).value;
    FoundAt(edited);
    var hi := |edited| - |m.suffix|;
    CutAt(edited, |m.prefix|, hi);
    assert |m.text| == |QueryText(edited[|m.prefix| + 6..hi - 2])| == hi - |m.prefix| - 2;
  }

  // ---------------------------------------------------------------- the whole way

  /** A line with a query on it, through both passes: if the line spares the call, the script holds
      a tagged template whose query is the substituted body, between the rewritten surroundings. */
  lemma QueryMeaning(line: string, lo: nat, hi: nat, env: Environment)
    requires QueryAt(line, lo, hi) && Spared(line, lo, hi) && Substitute(line[lo + 6..hi - 2], env).Just?
    ensures var script := ScriptLine(line);
            var m := CutLine(N1ql, RewriteLine(Enqueue, line));
            && m.Just?
            && var start := |m.value.prefix + "n1ql`"|;
               && start <= |script| && script[..start] == m.value.prefix + "n1ql`"
               && Means(ReadTemplate(script[start..]), env, Substitute(line[lo + 6..hi - 2], env).value, m.value.suffix)
  {
    SurvivesExactly(line, lo, hi);
    var m := CutLine(N1ql, RewriteLine(Enqueue, line)).value;
    ScriptText(m.prefix, line[lo + 6..hi - 2], m.suffix);
    TemplateMeansBody(line[lo + 6..hi - 2], env, m.suffix);
  }

  lemma LastParenIs(line: string, i: nat, k: nat)
    requires i + k < |line| && line[i + k] == ')' && forall q :: i + k < q < |line| ==> line[q] != ')'
    ensures LastAt(line[i..], ")") == k
  {
    var rest := line[i..];
    OccursByChar(rest, ")", k);
    forall q: nat | OccursAt(rest, ")", q) ensures q <= k {
      OccursByChar(rest, ")", q);
      assert rest[q] == line[i + q];
    }
    LastAtIs(rest, ")", k);
  }

  lemma LastSeparatorIs(s: string, j: nat)
    requires Separates(s, j) && forall q :: j < q < |s| ==> s[q] != ','
    ensures LastAt(s, SEPARATOR) == j
  {
    OccursByChar(s, SEPARATOR, j);
    forall q: nat | OccursAt(s, SEPARATOR, q) ensures q <= j {
      SeparatesIs(s, q);
    }
    LastAtIs(s, SEPARATOR, j);
  }

  /** Reading a site off a line that starts with it. */
  lemma SiteIs(line: string, p: nat, c: nat)
    requires AtSite(line, Site(0, p, c)) && forall q :: p < q < c ==> line[q] != ','
    ensures EnqueueSite(line) == Just(Site(0, p, c))
  {
    var rest := line[8..];
    OccursByChar(line, Opener(Enqueue), 0);
    FirstAtIs(line, Opener(Enqueue), 0);
    LastParenIs(line, 8, c - 8);
    var inner := rest[..c - 8];
    assert forall q :: 0 <= q < c - 8 ==> inner[q] == line[8 + q];
    LastSeparatorIs(inner, p - 8);
  }

  predicate EnqueuedQuery(line: string) {
    line == "enqueue(q, n1ql(\"a, b\"))"
  }

  predicate CutQuery(edited: string) {
    edited == "q, n1ql(\"a[b\")]"
  }

  lemma EnqueuedQueryAt(line: string)
    requires EnqueuedQuery(line)
    ensures QueryAt(line, 11, 23) && line[17..21] == "a, b"
  {
  }

  lemma EnqueuedAtSite(line: string)
    requires EnqueuedQuery(line)
    ensures AtSite(line, Site(0, 18, 23)) && forall q :: 18 < q < 23 ==> line[q] != ','
  {
  }

  lemma EnqueuedQueryCut(line: string)
    requires EnqueuedQuery(line)
    ensures CutQuery(Edited(line, Site(0, 18, 23)))
  {
    assert line[..0] == "" && line[8..18] == "q, n1ql(\"a" && line[20..23] == "b\")" && line[24..] == "";
  }

  lemma CutQueryAt(edited: string)
    requires CutQuery(edited)
    ensures QueryAt(edited, 3, 14) && edited[..3] == "q, " && edited[9..12] == "a[b" && edited[14..] == "]"
  {
  }

  /** A separator in a query that is enqueued: the enqueue pass cuts the query "a, b" and not the
      call, and the query that is left is a[b. */
  lemma SeparatorInQuery(line: string)
    requires EnqueuedQuery(line)
    ensures QueryAt(line, 11, 23) && line[17..21] == "a, b" && !Spared(line, 11, 23)
    ensures CutLine(N1ql, RewriteLine(Enqueue, line)) == Just(Found("q, ", QueryText("a[b"), "]"))
  {
    EnqueuedQueryAt(line);
    EnqueuedAtSite(line);
    SiteIs(line, 18, 23);
    EnqueuedQueryCut(line);
    SiteIsCut(line);
    CutQueryAt(RewriteLine(Enqueue, line));
    CutAt(RewriteLine(Enqueue, line), 3, 14);
  }
}
