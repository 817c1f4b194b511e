/**
 Text shared by the two sides of the metadata bucket: decimal rendering of a CAS, and the
 two `;` splitters (Go's strings.Split and the C++ getline loop of worker.cc) that have to
 agree on what a timer marker holds.
 */
module Text {
  import opened Sequences

  // ---------------------------------------------------------------- decimal numbers

  predicate IsDigit(c: char) {
    '0' <= c <= '9'
  }

  predicate AllDigits(s: string) {
    forall i :: 0 <= i < |s| ==> IsDigit(s[i])
  }

  function Digit(d: nat): (c: char)
    requires d < 10
    ensures IsDigit(c) && c as int - '0' as int == d
  {
    (d + '0' as int) as char
  }

  /** An unsigned number as `ostream <<` and `%d` print it. */
  function Decimal(n: nat): (s: string)
    ensures |s| > 0 && AllDigits(s)
  {
    if n < 10 then [Digit(n)] else Decimal(n / 10) + [Digit(n % 10)]
  }

  function ReadDecimal(s: string): nat
    requires AllDigits(s)
  {
    if s == "" then 0 else 10 * ReadDecimal(s[..|s| - 1]) + (s[|s| - 1] as int - '0' as int)
  }

  lemma {:induction false} DecimalRoundTrip(n: nat)
    ensures ReadDecimal(Decimal(n)) == n
  {
    if n < 10 {
      assert Decimal(n)[..0] == "";
      assert ReadDecimal(Decimal(n)[..0]) == 0;
    } else {
      DecimalRoundTrip(n / 10);
      assert Decimal(n)[..|Decimal(n)| - 1] == Decimal(n / 10);
    }
  }

  /** Distinct numbers have distinct decimal keys. */
  lemma DecimalInjective(m: nat, n: nat)
    requires Decimal(m) == Decimal(n)
    ensures m == n
  {
    DecimalRoundTrip(m);
    DecimalRoundTrip(n);
  }

  lemma DecimalExample()
    ensures Decimal(407) == "407"
  {
    assert Decimal(4) == "4" && Decimal(40) == "40";
  }

  /** Text that is the decimal rendering of a number, without leading zeros. */
  predicate IsDecimal(s: string) {
    AllDigits(s) && Decimal(ReadDecimal(s)) == s
  }

  lemma DecimalIs(n: nat)
    ensures IsDecimal(Decimal(n))
  {
    DecimalRoundTrip(n);
  }

  lemma EmptyIsNoDecimal()
    ensures !IsDecimal("")
  {
  }

  // ---------------------------------------------------------------- splitting

  /** First position of `d` in `s`, or |s|. */
  function IndexOf(s: string, d: char): (i: nat)
    ensures IsFirst(s, d, i)
  {
    if s == "" || s[0] == d then 0 else 1 + IndexOf(s[1..], d)
  }

  predicate IsFirst(s: string, d: char, i: nat) {
    i <= |s| && (forall k :: 0 <= k < i ==> s[k] != d) && (i < |s| ==> s[i] == d)
  }

  /** Go's strings.Split for a one-character separator: the pieces between separators. */
  function GoSplit(s: string, d: char): (r: seq<string>)
    ensures |r| > 0
  {
    if s == "" then [""]
    else if s[0] == d then [""] + GoSplit(s[1..], d)
    else
      var rest := GoSplit(s[1..], d);
      [[s[0]] + rest[0]] + rest[1..]
  }

  /** What repeated getline reads: a line ends at a delimiter or at end of input, and there
      is no line once the input is exhausted. */
  function GetlineTokens(s: string, d: char): seq<string>
    decreases |s|
  {
    if s == "" then []
    else
      var i := IndexOf(s, d);
      if i == |s| then [s] else [s[..i]] + GetlineTokens(s[i + 1..], d)
  }

  predicate EndsWith(s: string, d: char) {
    s != "" && s[|s| - 1] == d
  }

  lemma {:induction false} GoSplitAtIndex(s: string, d: char)
    ensures var i := IndexOf(s, d);
            GoSplit(s, d) == if i < |s| then [s[..i]] + GoSplit(s[i + 1..], d) else [s]
  {
    if s == "" {
    } else if s[0] == d {
      assert s[..0] == "";
    } else {
      GoSplitAtIndex(s[1..], d);
      var i := IndexOf(s, d);
      assert [s[0]] + s[1..][..i - 1] == s[..i];
      if i < |s| {
        assert s[1..][i..] == s[i + 1..];
      } else {
        assert [s[0]] + s[1..] == s;
      }
    }
  }

  /** Splitting distributes over a separator. */
  lemma {:induction false} GoSplitConcat(a: string, b: string, d: char)
    ensures GoSplit(a + [d] + b, d) == GoSplit(a, d) + GoSplit(b, d)
    decreases |a|
  {
    var s := a + [d] + b;
    if a == "" {
      assert s[0] == d && s[1..] == b;
    } else {
      assert s[0] == a[0] && s[1..] == a[1..] + [d] + b;
      GoSplitConcat(a[1..], b, d);
      if a[0] != d {
        HeadOf(GoSplit(a[1..], d), GoSplit(b, d));
      } else {
        Assoc([""], GoSplit(a[1..], d), GoSplit(b, d));
      }
    }
  }

  lemma HeadOf(x: seq<string>, y: seq<string>)
    requires x != []
    ensures (x + y)[0] == x[0] && (x + y)[1..] == x[1..] + y
  {
  }

  /** Text without the separator is one piece. */
  lemma {:induction false} GoSplitWhole(s: string, d: char)
    requires d !in s
    ensures GoSplit(s, d) == [s]
  {
    GoSplitAtIndex(s, d);
  }

  /** The Go split is the C++ split plus one empty token exactly when the text is empty or
      ends in the separator. */
  lemma {:induction false} SplitterRelation(s: string, d: char)
    ensures GoSplit(s, d) == GetlineTokens(s, d) + TrailingToken(s, d)
    decreases |s|
  {
    var i := IndexOf(s, d);
    GoSplitAtIndex(s, d);
    if i < |s| {
      var head, rest := [s[..i]], s[i + 1..];
      SplitterRelation(rest, d);
      GetlineAtIndex(s, d);
      Assoc(head, GetlineTokens(rest, d), TrailingToken(rest, d));
      TrailingOfRest(s, i, d);
    } else if s != "" {
      LastToken(s, d);
      assert !EndsWith(s, d);
      assert [s] + [] == [s];
    } else {
      assert [] + [""] == [""];
    }
  }

  lemma TrailingOfRest(s: string, i: nat, d: char)
    requires i < |s| && s[i] == d
    ensures TrailingToken(s, d) == TrailingToken(s[i + 1..], d)
  {
    var rest := s[i + 1..];
    assert rest != "" ==> rest[|rest| - 1] == s[|s| - 1];
  }

  lemma {:induction false} GetlineAtIndex(s: string, d: char)
    requires IndexOf(s, d) < |s|
    ensures GetlineTokens(s, d) == [s[..IndexOf(s, d)]] + GetlineTokens(s[IndexOf(s, d) + 1..], d)
  {
  }

  /** The empty token that only the Go split produces. */
  function TrailingToken(s: string, d: char): seq<string> {
    if s == "" || EndsWith(s, d) then [""] else []
  }

  /** Every id followed by the delimiter, the way RegisterCallback builds a marker. */
  function Terminated(ids: seq<string>, d: char): string {
    if ids == [] then "" else Terminated(ids[..|ids| - 1], d) + ids[|ids| - 1] + [d]
  }

  lemma {:induction false} TerminatedFromFront(ids: seq<string>, d: char)
    requires ids != []
    ensures Terminated(ids, d) == ids[0] + [d] + Terminated(ids[1..], d)
  {
    var n := |ids| - 1;
    if n > 0 {
      TerminatedFromFront(ids[..n], d);
      assert ids[..n][1..] == ids[1..][..n - 1];
      assert ids[1..][n - 1] == ids[n];
    } else {
      assert ids[..0] == [] && ids[1..] == [];
    }
  }

  lemma {:induction false} IndexOfUnique(s: string, d: char, i: nat)
    requires IsFirst(s, d, i)
    ensures IndexOf(s, d) == i
  {
  }

  /** A marker splits back to exactly the ids appended to it, in append order. */
  lemma {:induction false} MarkerRoundTrip(ids: seq<string>, d: char)
    requires forall id :: id in ids ==> d !in id
    ensures GetlineTokens(Terminated(ids, d), d) == ids
    ensures GoSplit(Terminated(ids, d), d) == ids + [""]
  {
    var s := Terminated(ids, d);
    if ids != [] {
      TerminatedFromFront(ids, d);
      FirstToken(ids[0], Terminated(ids[1..], d), d);
      MarkerRoundTrip(ids[1..], d);
      assert [ids[0]] + ids[1..] == ids;
    }
    SplitterRelation(s, d);
  }

  lemma FirstToken(id: string, rest: string, d: char)
    requires d !in id
    ensures GetlineTokens(id + [d] + rest, d) == [id] + GetlineTokens(rest, d)
  {
    var s := id + [d] + rest;
    assert forall k :: 0 <= k < |id| ==> s[k] == id[k] && id[k] in id;
    IndexOfUnique(s, d, |id|);
    assert s[..|id|] == id && s[|id| + 1..] == rest;
    GetlineAtIndex(s, d);
  }

  /** worker.cc split: a stringstream read position that getline moves past each token. */
  method Split(s: string, delim: char) returns (elems: seq<string>)
    ensures elems == GetlineTokens(s, delim)
    ensures GoSplit(s, delim) == elems + TrailingToken(s, delim)
  {
    elems := [];
    var pos := 0;
    assert s[0..] == s;
    while pos < |s|
      invariant 0 <= pos <= |s|
      invariant elems + GetlineTokens(s[pos..], delim) == GetlineTokens(s, delim)
    {
      var end := pos;
      while end < |s| && s[end] != delim
        invariant pos <= end <= |s|
        invariant forall k :: pos <= k < end ==> s[k] != delim
      {
        end := end + 1;
      }
      ghost var next := if end < |s| then end + 1 else end;
      NextToken(s, pos, end, delim);
      Assoc(elems, [s[pos..end]], GetlineTokens(s[next..], delim));
      elems := elems + [s[pos..end]];
      pos := if end < |s| then end + 1 else end;
    }
    SplitterRelation(s, delim);
  }

  lemma {:induction false} NextToken(s: string, pos: nat, end: nat, d: char)
    requires pos < |s| && pos <= end <= |s|
    requires forall k :: pos <= k < end ==> s[k] != d
    requires end < |s| ==> s[end] == d
    ensures GetlineTokens(s[pos..], d)
         == [s[pos..end]] + GetlineTokens(s[if end < |s| then end + 1 else end..], d)
  {
    var t := s[pos..];
    IndexOfUnique(t, d, end - pos);
    assert t[..end - pos] == s[pos..end];
    if end < |s| {
      GetlineAtIndex(t, d);
      assert t[end - pos + 1..] == s[end + 1..];
    } else {
      LastToken(t, d);
      assert s[end..] == "" && s[pos..end] == t;
      assert [t] + GetlineTokens("", d) == [t];
    }
  }

  /** Text without a delimiter is one token. */
  lemma {:induction false} LastToken(t: string, d: char)
    requires t != "" && IndexOf(t, d) == |t|
    ensures GetlineTokens(t, d) == [t]
  {
  }
}
