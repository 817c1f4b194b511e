/**
 The asset loop of storeAppSetup, on values. The loop ranges over one slice and deletes from
 another slice of the same backing array, so a deletion moves the entries under the loop's feet.
 What the loop leaves is compared with the list without its doomed entries.
 */
module AssetList {
  import opened Sequences

  /** How the loop ends: the request handler panics on a slice bound, or a list is left. */
  datatype Outcome<T> = Panic | Done(kept: seq<T>)

  /** The backing array after append(s[:i], s[i+1:]...) for a slice s of its first len entries. */
  function Shifted<T>(backing: seq<T>, len: nat, i: nat): (r: seq<T>)
    requires i < len <= |backing|
    ensures |r| == |backing|
  {
    backing[..i] + backing[i + 1..len] + backing[len - 1..]
  }

  /** The loop from index i on, for an alias of the whole backing array and a slice of its
      first len entries. */
  ghost function Loop<T>(backing: seq<T>, len: nat, i: nat, doomed: set<T>): Outcome<T>
    requires i <= |backing| && len <= |backing|
    decreases |backing| - i
  {
    if i == |backing| then Done(backing[..len])
    else if backing[i] !in doomed then Loop(backing, len, i + 1, doomed)
    else if len <= 1 then Loop(backing, 0, i + 1, doomed)
    else if i >= len then Panic
    else Loop(Shifted(backing, len, i), len - 1, i + 1, doomed)
  }

  /** The entries the loop looks at, in order. */
  ghost function Looked<T>(backing: seq<T>, len: nat, i: nat, doomed: set<T>): seq<T>
    requires i <= |backing| && len <= |backing|
    decreases |backing| - i
  {
    if i == |backing| then []
    else if backing[i] !in doomed then [backing[i]] + Looked(backing, len, i + 1, doomed)
    else if len <= 1 then [backing[i]] + Looked(backing, 0, i + 1, doomed)
    else if i >= len then [backing[i]]
    else [backing[i]] + Looked(Shifted(backing, len, i), len - 1, i + 1, doomed)
  }

  // ---------------------------------------------------------------- the reference

  /** The entries from position p on that are not to be deleted. */
  ghost function Kept<T>(all: seq<T>, p: nat, doomed: set<T>): seq<T>
    decreases |all| - p
  {
    if p >= |all| then []
    else if all[p] in doomed then Kept(all, p + 1, doomed)
    else [all[p]] + Kept(all, p + 1, doomed)
  }

  ghost function Deletes<T>(all: seq<T>, p: nat, doomed: set<T>): nat
    decreases |all| - p
  {
    if p >= |all| then 0 else (if all[p] in doomed then 1 else 0) + Deletes(all, p + 1, doomed)
  }

  ghost predicate NoneAdjacent<T>(all: seq<T>, p: nat, doomed: set<T>) {
    forall k :: p <= k < |all| - 1 ==> !(all[k] in doomed && all[k + 1] in doomed)
  }

  ghost predicate LastDoomed<T>(all: seq<T>, doomed: set<T>) {
    all != [] && all[|all| - 1] in doomed
  }

  /** The lists on which the loop does what it is for. */
  ghost predicate Fits<T>(all: seq<T>, doomed: set<T>) {
    || (NoneAdjacent(all, 0, doomed) && (LastDoomed(all, doomed) ==> Deletes(all, 0, doomed) <= 1))
    || (2 <= |all| <= 3 && Deletes(all, 0, doomed) == |all|)
  }

  // ---------------------------------------------------------------- what the loop does

  /** Walking the original list: behind a deletion the loop passes over one entry unseen. */
  ghost function Swept<T>(all: seq<T>, p: nat, doomed: set<T>): seq<T>
    decreases |all| - p
  {
    if p >= |all| then []
    else if all[p] !in doomed then [all[p]] + Swept(all, p + 1, doomed)
    else if p + 1 < |all| then [all[p + 1]] + Swept(all, p + 2, doomed)
    else []
  }

  /** The deletions made on that walk. */
  ghost function Seen<T>(all: seq<T>, p: nat, doomed: set<T>): nat
    decreases |all| - p
  {
    if p >= |all| then 0
    else if all[p] !in doomed then Seen(all, p + 1, doomed)
    else 1 + Seen(all, p + 2, doomed)
  }

  /** Where the walk ends: behind the list, or one further if the last entry was deleted. */
  ghost function End<T>(all: seq<T>, p: nat, doomed: set<T>): nat
    decreases |all| - p
  {
    if p >= |all| then p
    else if all[p] !in doomed then End(all, p + 1, doomed)
    else End(all, p + 2, doomed)
  }

  /** The iterations left when the walk has ended. They all look at the last entry again. */
  ghost function Late<T>(all: seq<T>, doomed: set<T>): int {
    |all| + Seen(all, 0, doomed) - End(all, 0, doomed)
  }

  ghost function AfterLate<T>(kept: seq<T>, late: int, lastDoomed: bool): Outcome<T> {
    if late <= 0 || !lastDoomed then Done(kept)
    else if |kept| <= 1 then Done([])
    else Panic
  }

  /** The backing array in the middle of the walk: p entries are behind, c of them deleted. */
  ghost predicate Midway<T>(backing: seq<T>, len: nat, i: nat, all: seq<T>, p: nat) {
    && |backing| == |all| && i <= p <= |all| && len == |all| - (p - i)
    && backing[i..len] == all[p..]
    && (forall k :: len <= k < |all| ==> backing[k] == all[|all| - 1])
  }

  ghost predicate AllLast<T>(backing: seq<T>, i: nat, last: T) {
    forall k :: i <= k < |backing| ==> backing[k] == last
  }

  lemma {:induction false} LateLoop<T>(backing: seq<T>, len: nat, i: nat, doomed: set<T>, last: T)
    requires len <= i <= |backing| && AllLast(backing, i, last)
    ensures Loop(backing, len, i, doomed) == AfterLate(backing[..len], |backing| - i, last in doomed)
    decreases |backing| - i
  {
    if i < |backing| {
      if last !in doomed {
        LateLoop(backing, len, i + 1, doomed, last);
      } else if len <= 1 {
        LateLoop(backing, 0, i + 1, doomed, last);
      }
    }
  }

  lemma ShiftMidway<T>(backing: seq<T>, len: nat, i: nat, all: seq<T>, p: nat)
    requires Midway(backing, len, i, all, p) && p + 1 < |all|
    ensures i + 1 < len && backing[i + 1] == all[p + 1]
    ensures Midway(Shifted(backing, len, i), len - 1, i + 1, all, p + 2)
  {
    var r := Shifted(backing, len, i);
    assert len - i == |backing[i..len]| == |all[p..]| == |all| - p;
    assert backing[i..len][1] == all[p..][1] && backing[i..len][len - 1 - i] == all[p..][|all| - 1 - p];
    assert r[i + 1..len - 1] == backing[i + 2..len] == backing[i..len][2..] == all[p..][2..] == all[p + 2..];
    forall k | len - 1 <= k < |all| ensures r[k] == all[|all| - 1] {
      assert r[k] == backing[k];
    }
  }

  lemma KeepMidway<T>(backing: seq<T>, len: nat, i: nat, all: seq<T>, p: nat)
    requires Midway(backing, len, i, all, p) && p < |all|
    ensures i < len && backing[i] == all[p] && Midway(backing, len, i + 1, all, p + 1)
  {
    assert len - i == |backing[i..len]| == |all[p..]| == |all| - p;
    assert backing[i..len][0] == all[p..][0];
    assert backing[i + 1..len] == backing[i..len][1..] == all[p..][1..] == all[p + 1..];
  }

  lemma WalkedAll<T>(backing: seq<T>, len: nat, i: nat, doomed: set<T>, all: seq<T>)
    requires Midway(backing, len, i, all, |all|)
    ensures Loop(backing, len, i, doomed) == AfterLate(backing[..i], |all| - i, LastDoomed(all, doomed))
  {
    if i < |all| {
      LateLoop(backing, len, i, doomed, all[|all| - 1]);
    }
  }

  lemma DeleteLast<T>(backing: seq<T>, len: nat, i: nat, doomed: set<T>, all: seq<T>, p: nat)
    requires Midway(backing, len, i, all, p) && p + 1 == |all| && all[p] in doomed
    ensures Loop(backing, len, i, doomed) == AfterLate(backing[..i], |all| - i - 1, true)
  {
    KeepMidway(backing, len, i, all, p);
    if len > 1 {
      assert Shifted(backing, len, i) == backing;
    }
    LateLoop(backing, len - 1, i + 1, doomed, all[p]);
  }

  /** What the loop leaves, told from the middle of the walk. */
  ghost function Foreseen<T>(done: seq<T>, i: nat, doomed: set<T>, all: seq<T>, p: nat): Outcome<T> {
    AfterLate(done + Swept(all, p, doomed),
              |all| - i + Seen(all, p, doomed) - (End(all, p, doomed) - p), LastDoomed(all, doomed))
  }

  lemma ForeseenKeep<T>(done: seq<T>, i: nat, doomed: set<T>, all: seq<T>, p: nat)
    requires p < |all| && all[p] !in doomed
    ensures Foreseen(done, i, doomed, all, p) == Foreseen(done + [all[p]], i + 1, doomed, all, p + 1)
  {
    Assoc(done, [all[p]], Swept(all, p + 1, doomed));
  }

  lemma ForeseenDelete<T>(done: seq<T>, i: nat, doomed: set<T>, all: seq<T>, p: nat)
    requires p + 1 < |all| && all[p] in doomed
    ensures Foreseen(done, i, doomed, all, p) == Foreseen(done + [all[p + 1]], i + 1, doomed, all, p + 2)
  {
    Assoc(done, [all[p + 1]], Swept(all, p + 2, doomed));
  }

  lemma ForeseenEnd<T>(done: seq<T>, i: nat, doomed: set<T>, all: seq<T>, p: nat)
    requires p == |all| || (p + 1 == |all| && all[p] in doomed)
    ensures Foreseen(done, i, doomed, all, p)
            == AfterLate(done, |all| - i - (if p == |all| then 0 else 1), LastDoomed(all, doomed))
  {
    assert done + [] == done;
    if p + 1 == |all| {
      assert Seen(all, p, doomed) == 1 && End(all, p, doomed) == p + 2;
    }
  }

  lemma LoopKeeps<T>(backing: seq<T>, len: nat, i: nat, doomed: set<T>, all: seq<T>, p: nat)
    requires Midway(backing, len, i, all, p) && p < |all| && all[p] !in doomed
    requires i < |all| ==> Loop(backing, len, i + 1, doomed) == Foreseen(backing[..i + 1], i + 1, doomed, all, p + 1)
    ensures Loop(backing, len, i, doomed) == Foreseen(backing[..i], i, doomed, all, p)
  {
    KeepMidway(backing, len, i, all, p);
    assert backing[..i + 1] == backing[..i] + [all[p]];
    ForeseenKeep(backing[..i], i, doomed, all, p);
  }

  lemma LoopDeletes<T>(backing: seq<T>, len: nat, i: nat, doomed: set<T>, all: seq<T>, p: nat, next: seq<T>)
    requires Midway(backing, len, i, all, p) && p + 1 < |all| && all[p] in doomed
    requires i < len && next == Shifted(backing, len, i)
    requires Loop(next, len - 1, i + 1, doomed) == Foreseen(next[..i + 1], i + 1, doomed, all, p + 2)
    ensures Loop(backing, len, i, doomed) == Foreseen(backing[..i], i, doomed, all, p)
  {
    KeepMidway(backing, len, i, all, p);
    ShiftMidway(backing, len, i, all, p);
    assert next[..i + 1] == backing[..i] + [all[p + 1]];
    ForeseenDelete(backing[..i], i, doomed, all, p);
    assert Loop(backing, len, i, doomed) == Loop(next, len - 1, i + 1, doomed);
  }

  /** The loop is the walk over the original list, and then the late iterations. */
  lemma {:induction false} LoopWalks<T>(backing: seq<T>, len: nat, i: nat, doomed: set<T>, all: seq<T>, p: nat)
    requires Midway(backing, len, i, all, p)
    ensures Loop(backing, len, i, doomed) == Foreseen(backing[..i], i, doomed, all, p)
    decreases |all| - p
  {
    if p == |all| {
      WalkedAll(backing, len, i, doomed, all);
      ForeseenEnd(backing[..i], i, doomed, all, p);
    } else {
      KeepMidway(backing, len, i, all, p);
      if all[p] !in doomed {
        LoopWalks(backing, len, i + 1, doomed, all, p + 1);
        LoopKeeps(backing, len, i, doomed, all, p);
      } else if p + 1 == |all| {
        DeleteLast(backing, len, i, doomed, all, p);
        ForeseenEnd(backing[..i], i, doomed, all, p);
      } else {
        ShiftMidway(backing, len, i, all, p);
        var next := Shifted(backing, len, i);
        LoopWalks(next, len - 1, i + 1, doomed, all, p + 2);
        LoopDeletes(backing, len, i, doomed, all, p, next);
      }
    }
  }

  /** What the whole loop leaves. */
  lemma WholeLoop<T>(all: seq<T>, doomed: set<T>)
    ensures Loop(all, |all|, 0, doomed)
            == AfterLate(Swept(all, 0, doomed), Late(all, doomed), LastDoomed(all, doomed))
  {
    LoopWalks(all, |all|, 0, doomed, all, 0);
    assert all[..0] + Swept(all, 0, doomed) == Swept(all, 0, doomed);
  }

  // ---------------------------------------------------------------- when that is right

  lemma {:induction false} SweptSize<T>(all: seq<T>, p: nat, doomed: set<T>)
    requires p <= |all|
    ensures |Swept(all, p, doomed)| + Seen(all, p, doomed) == |all| - p
    decreases |all| - p
  {
    if p < |all| {
      if all[p] !in doomed {
        SweptSize(all, p + 1, doomed);
      } else if p + 1 < |all| {
        SweptSize(all, p + 2, doomed);
      } else {
        assert Seen(all, p + 2, doomed) == 0;
      }
    }
  }

  lemma {:induction false} KeptSize<T>(all: seq<T>, p: nat, doomed: set<T>)
    requires p <= |all|
    ensures |Kept(all, p, doomed)| + Deletes(all, p, doomed) == |all| - p
    decreases |all| - p
  {
    if p < |all| {
      KeptSize(all, p + 1, doomed);
    }
  }

  /** The walk makes every deletion just if no two doomed entries are neighbours. */
  lemma {:induction false} SeesAllDeletes<T>(all: seq<T>, p: nat, doomed: set<T>)
    ensures Seen(all, p, doomed) <= Deletes(all, p, doomed)
    ensures Seen(all, p, doomed) == Deletes(all, p, doomed) <==> NoneAdjacent(all, p, doomed)
    decreases |all| - p
  {
    if p < |all| {
      SeesAllDeletes(all, p + 1, doomed);
      SeesAllDeletes(all, p + 2, doomed);
      NoneAdjacentStep(all, p, doomed);
    }
  }

  lemma NoneAdjacentStep<T>(all: seq<T>, p: nat, doomed: set<T>)
    requires p < |all|
    ensures NoneAdjacent(all, p, doomed)
            <==> NoneAdjacent(all, p + 1, doomed) && (p + 1 < |all| ==> !(all[p] in doomed && all[p + 1] in doomed))
  {
  }

  lemma {:induction false} SweepsRight<T>(all: seq<T>, p: nat, doomed: set<T>)
    requires NoneAdjacent(all, p, doomed)
    ensures Swept(all, p, doomed) == Kept(all, p, doomed)
    decreases |all| - p
  {
    if p < |all| {
      if all[p] !in doomed {
        SweepsRight(all, p + 1, doomed);
      } else if p + 1 < |all| {
        SweepsRight(all, p + 2, doomed);
      }
    }
  }

  lemma {:induction false} EndsBehind<T>(all: seq<T>, p: nat, doomed: set<T>)
    requires p <= |all|
    ensures |all| <= End(all, p, doomed) <= |all| + 1
    ensures End(all, p, doomed) == |all| + 1 ==> LastDoomed(all, doomed) && Seen(all, p, doomed) >= 1
    ensures LastDoomed(all, doomed) && NoneAdjacent(all, p, doomed) && p < |all| ==> End(all, p, doomed) == |all| + 1
    ensures 2 * Seen(all, p, doomed) <= |all| - p + 1
    decreases |all| - p
  {
    if p < |all| {
      if all[p] !in doomed {
        EndsBehind(all, p + 1, doomed);
      } else if p + 1 < |all| {
        EndsBehind(all, p + 2, doomed);
      }
    }
  }

  lemma {:induction false} CountsDoomed<T>(all: seq<T>, p: nat, doomed: set<T>)
    requires p <= |all|
    ensures Deletes(all, p, doomed) <= |all| - p
    ensures Deletes(all, p, doomed) == |all| - p ==> forall k :: p <= k < |all| ==> all[k] in doomed
    ensures LastDoomed(all, doomed) && p < |all| ==> Deletes(all, p, doomed) >= 1
    decreases |all| - p
  {
    if p < |all| {
      CountsDoomed(all, p + 1, doomed);
    }
  }

  /** Two or three entries, all doomed: the late iteration empties the list after all. */
  lemma SmallLists<T>(all: seq<T>, doomed: set<T>)
    requires 2 <= |all| <= 3 && Deletes(all, 0, doomed) == |all|
    ensures LastDoomed(all, doomed) && Late(all, doomed) == 1 && |Swept(all, 0, doomed)| == 1
  {
    CountsDoomed(all, 0, doomed);
    SweptSize(all, 0, doomed);
    KeptSize(all, 0, doomed);
    assert Seen(all, 0, doomed) == 1 + Seen(all, 2, doomed);
    assert End(all, 0, doomed) == End(all, 2, doomed);
    if |all| == 3 {
      assert Seen(all, 2, doomed) == 1 + Seen(all, 4, doomed);
    }
  }

  lemma FitsIsRight<T>(all: seq<T>, doomed: set<T>)
    requires Fits(all, doomed)
    ensures Loop(all, |all|, 0, doomed) == Done(Kept(all, 0, doomed))
  {
    WholeLoop(all, doomed);
    SweptSize(all, 0, doomed);
    KeptSize(all, 0, doomed);
    if 2 <= |all| <= 3 && Deletes(all, 0, doomed) == |all| {
      SmallLists(all, doomed);
    } else {
      SeesAllDeletes(all, 0, doomed);
      EndsBehind(all, 0, doomed);
      SweepsRight(all, 0, doomed);
    }
  }

  lemma RightFits<T>(all: seq<T>, doomed: set<T>)
    requires Loop(all, |all|, 0, doomed) == Done(Kept(all, 0, doomed))
    ensures Fits(all, doomed)
  {
    WholeLoop(all, doomed);
    SweptSize(all, 0, doomed);
    KeptSize(all, 0, doomed);
    SeesAllDeletes(all, 0, doomed);
    EndsBehind(all, 0, doomed);
    CountsDoomed(all, 0, doomed);
  }

  /** The exact condition under which the loop leaves the list without its doomed entries. */
  lemma EditIsRight<T>(all: seq<T>, doomed: set<T>)
    ensures Loop(all, |all|, 0, doomed) == Done(Kept(all, 0, doomed)) <==> Fits(all, doomed)
  {
    if Fits(all, doomed) {
      FitsIsRight(all, doomed);
    }
    if Loop(all, |all|, 0, doomed) == Done(Kept(all, 0, doomed)) {
      RightFits(all, doomed);
    }
  }

  /** One deletion at most is always made right. */
  lemma OneDeleteFits<T>(all: seq<T>, doomed: set<T>)
    requires Deletes(all, 0, doomed) <= 1
    ensures NoneAdjacent(all, 0, doomed) && Fits(all, doomed)
  {
    forall k | 0 <= k < |all| - 1 ensures !(all[k] in doomed && all[k + 1] in doomed) {
      DeletesFrom(all, 0, k, doomed);
    }
  }

  lemma {:induction false} DeletesFrom<T>(all: seq<T>, p: nat, q: nat, doomed: set<T>)
    requires p <= q
    ensures Deletes(all, q, doomed) <= Deletes(all, p, doomed)
    decreases q - p
  {
    if p < q {
      DeletesFrom(all, p + 1, q, doomed);
    }
  }

  // ---------------------------------------------------------------- the entries it looks at

  /** The loop looks at nothing but entries of the list. */
  lemma {:induction false} LookedInside<T>(backing: seq<T>, len: nat, i: nat, doomed: set<T>)
    requires i <= |backing| && len <= |backing|
    ensures forall x :: x in Looked(backing, len, i, doomed) ==> x in backing
    decreases |backing| - i
  {
    if i < |backing| {
      if backing[i] !in doomed {
        LookedInside(backing, len, i + 1, doomed);
      } else if len <= 1 {
        LookedInside(backing, 0, i + 1, doomed);
      } else if i < len {
        LookedInside(Shifted(backing, len, i), len - 1, i + 1, doomed);
      }
    }
  }

  /** x is looked at on the walk from position p on. */
  ghost predicate Walked<T>(all: seq<T>, p: nat, doomed: set<T>, x: T)
    decreases |all| - p
  {
    p < |all| && (all[p] == x || Walked(all, if all[p] in doomed then p + 2 else p + 1, doomed, x))
  }

  lemma {:induction false} LateLooked<T>(backing: seq<T>, len: nat, i: nat, doomed: set<T>, last: T, x: T)
    requires len <= i <= |backing| && AllLast(backing, i, last)
    ensures x in Looked(backing, len, i, doomed) <==> i < |backing| && x == last
    decreases |backing| - i
  {
    if i < |backing| {
      LateLooked(backing, if last in doomed then 0 else len, i + 1, doomed, last, x);
    }
  }

  /** x is looked at on the walk or, as the last entry, after it. */
  ghost predicate LookedFrom<T>(i: nat, all: seq<T>, p: nat, doomed: set<T>, x: T) {
    || Walked(all, p, doomed, x)
    || (all != [] && x == all[|all| - 1] && |all| - i + Seen(all, p, doomed) > End(all, p, doomed) - p)
  }

  lemma WalkedLast<T>(backing: seq<T>, len: nat, i: nat, all: seq<T>, p: nat, doomed: set<T>, x: T)
    requires Midway(backing, len, i, all, p)
    requires p == |all| || (p + 1 == |all| && all[p] in doomed)
    ensures x in Looked(backing, len, i, doomed) <==> LookedFrom(i, all, p, doomed, x)
  {
    if p < |all| {
      KeepMidway(backing, len, i, all, p);
      assert len > 1 ==> Shifted(backing, len, i) == backing;
      LateLooked(backing, len - 1, i + 1, doomed, all[p], x);
      assert Looked(backing, len, i, doomed) == [all[p]] + Looked(backing, len - 1, i + 1, doomed);
      assert !Walked(all, p + 2, doomed, x);
    } else if i < |all| {
      LateLooked(backing, len, i, doomed, all[|all| - 1], x);
    }
  }

  lemma LookDeletes<T>(backing: seq<T>, len: nat, i: nat, all: seq<T>, p: nat, doomed: set<T>, x: T, next: seq<T>)
    requires i + 1 < len <= |backing| && p + 1 < |all| && backing[i] == all[p] && all[p] in doomed
    requires |backing| == |all| && next == Shifted(backing, len, i)
    requires x in Looked(next, len - 1, i + 1, doomed) <==> LookedFrom(i + 1, all, p + 2, doomed, x)
    ensures x in Looked(backing, len, i, doomed) <==> LookedFrom(i, all, p, doomed, x)
  {
    assert Looked(backing, len, i, doomed) == [backing[i]] + Looked(next, len - 1, i + 1, doomed);
  }

  lemma {:induction false} LookWalks<T>(backing: seq<T>, len: nat, i: nat, all: seq<T>, p: nat, doomed: set<T>, x: T)
    requires Midway(backing, len, i, all, p)
    ensures x in Looked(backing, len, i, doomed) <==> LookedFrom(i, all, p, doomed, x)
    decreases |all| - p
  {
    if p == |all| || (p + 1 == |all| && all[p] in doomed) {
      WalkedLast(backing, len, i, all, p, doomed, x);
    } else {
      KeepMidway(backing, len, i, all, p);
      if all[p] !in doomed {
        LookWalks(backing, len, i + 1, all, p + 1, doomed, x);
      } else {
        ShiftMidway(backing, len, i, all, p);
        var next := Shifted(backing, len, i);
        LookWalks(next, len - 1, i + 1, all, p + 2, doomed, x);
        LookDeletes(backing, len, i, all, p, doomed, x, next);
      }
    }
  }

  ghost predicate Distinct<T>(all: seq<T>) {
    forall i, j :: 0 <= i < j < |all| ==> all[i] != all[j]
  }

  lemma {:induction false} WalkedBehind<T>(all: seq<T>, p: nat, doomed: set<T>, j: nat)
    requires Distinct(all) && NoneAdjacent(all, p, doomed) && j < |all|
    ensures Walked(all, p, doomed, all[j]) <==> p <= j && (p == j || all[j - 1] !in doomed)
    decreases |all| - p
  {
    if p < |all| {
      WalkedBehind(all, if all[p] in doomed then p + 2 else p + 1, doomed, j);
    }
  }

  /** When the loop is right about the list, it still passes over the entry behind a deleted
      one, unless that entry is the last. */
  lemma LooksAt<T>(all: seq<T>, doomed: set<T>, j: nat)
    requires Distinct(all) && NoneAdjacent(all, 0, doomed) && j < |all|
    requires LastDoomed(all, doomed) ==> Deletes(all, 0, doomed) <= 1
    ensures all[j] in Looked(all, |all|, 0, doomed) <==> j == 0 || all[j - 1] !in doomed || j == |all| - 1
  {
    LookWalks(all, |all|, 0, all, 0, doomed, all[j]);
    WalkedBehind(all, 0, doomed, j);
    EndsBehind(all, 0, doomed);
    SeesAllDeletes(all, 0, doomed);
    if j == |all| - 1 && j > 0 && all[j - 1] in doomed {
      DeletesFrom(all, 0, j - 1, doomed);
    }
  }
}
