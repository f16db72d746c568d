/**
 * The icon CAPTCHA of app/routes/home.py: a 3x3 grid holding two to four copies of
 * one target icon among distractors, and the check of a user's selection against
 * the stored solution. The random choices are parameters: `targetDraw` picks the
 * target, `countDraw` the number of copies, `pick(k)` the distractor appended at
 * length `k`, and `draw(i)` the swap partner drawn for position `i` by the shuffle.
 */
module Captcha {
  import opened Wrappers

  /** `ICONS`, in insertion order: (key, CSS class). */
  const Icons: seq<(string, string)> := [
    ("icon_car", "fa-car"), ("icon_tree", "fa-tree"), ("icon_user", "fa-user"),
    ("icon_home", "fa-home"), ("icon_bell", "fa-bell"), ("icon_camera", "fa-camera"),
    ("icon_plane", "fa-plane"), ("icon_star", "fa-star"), ("icon_heart", "fa-heart")]

  const GridSize: nat := 9
  const MinCorrect: nat := 2
  const MaxCorrect: nat := 4
  const DefaultLanguage: string := "hy"
  const FallbackName: string := "Icon"

  /** No two icons share a class. */
  lemma IconClassesDistinct()
    ensures |Icons| == 9
    ensures forall i, j :: 0 <= i < j < |Icons| ==> Icons[i].1 != Icons[j].1
  {
  }

  /** `[v for k, v in ICONS.items() if k != target_key]`. */
  function Distractors(t: nat): (r: seq<string>)
    requires t < |Icons|
    ensures |r| == |Icons| - 1
    ensures forall i :: 0 <= i < |r| ==> r[i] != Icons[t].1
    ensures forall i :: 0 <= i < |Icons| && i != t ==> Icons[i].1 in r
  {
    IconClassesDistinct();
    var r := seq(|Icons| - 1, i requires 0 <= i < |Icons| - 1 => if i < t then Icons[i].1 else Icons[i + 1].1);
    assert forall i :: 0 <= i < |Icons| && i != t ==> Icons[i].1 in r by {
      forall i | 0 <= i < |Icons| && i != t ensures Icons[i].1 in r {
        if i < t { assert r[i] == Icons[i].1; } else { assert r[i - 1] == Icons[i].1; }
      }
    }
    r
  }

  /** How often `x` occurs in `s`. */
  function Count(s: seq<string>, x: string): nat {
    multiset(s)[x]
  }

  /** The grid before shuffling: `num_correct` targets, then distractors up to nine. */
  method FillGrid(t: nat, numCorrect: nat, pick: nat -> nat) returns (grid: seq<string>)
    requires t < |Icons| && MinCorrect <= numCorrect <= MaxCorrect
    ensures |grid| == GridSize
    ensures Count(grid, Icons[t].1) == numCorrect
    ensures forall i :: 0 <= i < |grid| ==> grid[i] == Icons[t].1 || grid[i] in Distractors(t)
  {
    var target := Icons[t].1;
    var distractors := Distractors(t);
    grid := [];
    while |grid| < numCorrect
      invariant |grid| <= numCorrect
      invariant multiset(grid)[target] == |grid|
      invariant forall i :: 0 <= i < |grid| ==> grid[i] == target
    {
      grid := grid + [target];
    }
    while |grid| < GridSize
      invariant numCorrect <= |grid| <= GridSize
      invariant multiset(grid)[target] == numCorrect
      invariant forall i :: 0 <= i < |grid| ==> grid[i] == target || grid[i] in distractors
      decreases GridSize - |grid|
    {
      var d := distractors[pick(|grid|) % |distractors|];
      assert d != target;
      grid := grid + [d];
    }
  }

  /** `random.shuffle`: for `i` from 8 down to 1, swap position `i` with the drawn
      position below or at it. The contents are permuted, never changed. */
  method Shuffle(items: seq<string>, draw: nat -> nat) returns (r: seq<string>)
    ensures |r| == |items| && multiset(r) == multiset(items)
  {
    r := items;
    var i := |r|;
    while i > 1
      invariant 0 <= i <= |r| && |r| == |items|
      invariant multiset(r) == multiset(items)
    {
      i := i - 1;
      var j := draw(i) % (i + 1);
      r := r[i := r[j]][j := r[i]];
    }
  }

  /** `[i for i, x in enumerate(grid) if x == target]`. */
  method MatchingIndices(grid: seq<string>, target: string) returns (idx: seq<int>)
    ensures forall k :: 0 <= k < |idx| ==> 0 <= idx[k] < |grid| && grid[idx[k]] == target
    ensures forall i :: 0 <= i < |grid| && grid[i] == target ==> i in idx
    ensures forall a, b :: 0 <= a < b < |idx| ==> idx[a] < idx[b]
    ensures |idx| == Count(grid, target)
  {
    idx := [];
    var i := 0;
    while i < |grid|
      invariant 0 <= i <= |grid|
      invariant idx == Matches(grid, target, i)
    {
      assert Matches(grid, target, i + 1) == Matches(grid, target, i) + (if grid[i] == target then [i] else []);
      if grid[i] == target {
        idx := idx + [i];
      }
      i := i + 1;
    }
    MatchesAll(grid, target);
  }

  /** The matches over the whole grid are the promised correct indices. */
  lemma MatchesAll(grid: seq<string>, target: string)
    ensures var idx := Matches(grid, target, |grid|);
            && (forall k :: 0 <= k < |idx| ==> 0 <= idx[k] < |grid| && grid[idx[k]] == target)
            && (forall i :: 0 <= i < |grid| && grid[i] == target ==> i in idx)
            && (forall a, b :: 0 <= a < b < |idx| ==> idx[a] < idx[b])
            && |idx| == Count(grid, target)
  {
    MatchesSound(grid, target, |grid|);
    MatchesComplete(grid, target, |grid|);
    MatchesAscending(grid, target, |grid|);
    MatchesCount(grid, target, |grid|);
    assert grid[..|grid|] == grid;
  }

  /** The cells before `n` that show `target`, in ascending order. */
  function Matches(grid: seq<string>, target: string, n: nat): seq<int>
    requires n <= |grid|
  {
    if n == 0 then [] else Matches(grid, target, n - 1) + (if grid[n - 1] == target then [n - 1] else [])
  }

  /** Every listed index is a cell before `n` that shows the target. */
  lemma {:induction false} MatchesSound(grid: seq<string>, target: string, n: nat)
    requires n <= |grid|
    ensures forall k :: 0 <= k < |Matches(grid, target, n)| ==>
              0 <= Matches(grid, target, n)[k] < n && grid[Matches(grid, target, n)[k]] == target
  {
    if n > 0 {
      MatchesSound(grid, target, n - 1);
    }
  }

  /** Every cell before `n` that shows the target is listed. */
  lemma {:induction false} MatchesComplete(grid: seq<string>, target: string, n: nat)
    requires n <= |grid|
    ensures forall m :: 0 <= m < n && grid[m] == target ==> m in Matches(grid, target, n)
  {
    if n > 0 {
      MatchesComplete(grid, target, n - 1);
    }
  }

  /** The listed indices are strictly increasing. */
  lemma {:induction false} MatchesAscending(grid: seq<string>, target: string, n: nat)
    requires n <= |grid|
    ensures forall a, b :: 0 <= a < b < |Matches(grid, target, n)| ==> Matches(grid, target, n)[a] < Matches(grid, target, n)[b]
  {
    if n > 0 {
      MatchesAscending(grid, target, n - 1);
      MatchesSound(grid, target, n - 1);
    }
  }

  /** As many indices are listed as the prefix holds copies of the target. */
  lemma {:induction false} MatchesCount(grid: seq<string>, target: string, n: nat)
    requires n <= |grid|
    ensures |Matches(grid, target, n)| == multiset(grid[..n])[target]
  {
    if n > 0 {
      MatchesCount(grid, target, n - 1);
      assert grid[..n] == grid[..n - 1] + [grid[n - 1]];
    }
  }

  /** `TRANSLATIONS.get(lang, {}).get(target_key, "Icon")`. */
  function TargetName(translations: map<string, map<string, string>>, lang: string, key: string): (r: string)
    ensures lang !in translations ==> r == FallbackName
    ensures lang in translations && key in translations[lang] ==> r == translations[lang][key]
    ensures lang in translations && key !in translations[lang] ==> r == FallbackName
  {
    if lang in translations && key in translations[lang] then translations[lang][key] else FallbackName
  }

  /** A generated puzzle: what the page shows and what the session keeps. */
  datatype Puzzle = Puzzle(targetName: string, grid: seq<string>, solution: seq<int>)

  /** `get_captcha_puzzle`, with the session's language and the random draws as inputs. */
  method GetCaptchaPuzzle(translations: map<string, map<string, string>>, lang: Option<string>,
                          targetDraw: nat, countDraw: nat, pick: nat -> nat, draw: nat -> nat)
    returns (p: Puzzle)
    ensures |p.grid| == GridSize
    ensures var target := Icons[targetDraw % |Icons|];
            && p.targetName == TargetName(translations, lang.GetOr(DefaultLanguage), target.0)
            && MinCorrect <= |p.solution| <= MaxCorrect
            && |p.solution| == Count(p.grid, target.1)
            && (forall i :: 0 <= i < GridSize ==> (i in p.solution <==> p.grid[i] == target.1))
    ensures forall a, b :: 0 <= a < b < |p.solution| ==> p.solution[a] < p.solution[b]
  {
    var t := targetDraw % |Icons|;
    var numCorrect := MinCorrect + countDraw % (MaxCorrect - MinCorrect + 1);
    var filled := FillGrid(t, numCorrect, pick);
    var grid := Shuffle(filled, draw);
    assert Count(grid, Icons[t].1) == numCorrect;
    var idx := MatchingIndices(grid, Icons[t].1);
    forall i | 0 <= i < GridSize && i in idx ensures grid[i] == Icons[t].1 {
      var k :| 0 <= k < |idx| && idx[k] == i;
    }
    var solution := Sort(idx);
    SortedUnique(solution, idx);
    p := Puzzle(TargetName(translations, lang.GetOr(DefaultLanguage), Icons[t].0), grid, solution);
  }

  /** Ascending order. */
  predicate Sorted(s: seq<int>) {
    forall a, b :: 0 <= a < b < |s| ==> s[a] <= s[b]
  }

  /** Insert `x` at its place in a sorted sequence: the result starts with the smaller
      of `x` and the old first element. */
  function Insert(x: int, s: seq<int>): (r: seq<int>)
    requires Sorted(s)
    ensures Sorted(r) && multiset(r) == multiset(s) + multiset{x}
    ensures |r| == |s| + 1 && r[0] == (if |s| == 0 || x <= s[0] then x else s[0])
    decreases |s|
  {
    if |s| == 0 then [x]
    else if x <= s[0] then
      SortedCons(x, s);
      [x] + s
    else
      assert s == [s[0]] + s[1..];
      SortedTail(s);
      var rest := Insert(x, s[1..]);
      SortedCons(s[0], rest);
      [s[0]] + rest
  }

  /** Putting an element no larger than the first in front keeps a sequence sorted. */
  lemma SortedCons(y: int, t: seq<int>)
    requires Sorted(t) && (|t| > 0 ==> y <= t[0])
    ensures Sorted([y] + t)
  {
  }

  /** `sorted(xs)`. */
  function Sort(xs: seq<int>): (r: seq<int>)
    ensures Sorted(r) && multiset(r) == multiset(xs)
    decreases |xs|
  {
    if |xs| == 0 then []
    else
      assert xs == [xs[0]] + xs[1..];
      Insert(xs[0], Sort(xs[1..]))
  }

  /** Two sorted sequences with the same elements are equal. */
  lemma {:induction false} SortedUnique(a: seq<int>, b: seq<int>)
    requires Sorted(a) && Sorted(b) && multiset(a) == multiset(b)
    ensures a == b
    decreases |a|
  {
    assert |a| == |multiset(a)| == |multiset(b)| == |b|;
    if |a| > 0 {
      SortedHeads(a, b);
      SortedUnique(a[1..], b[1..]);
      assert a == [a[0]] + a[1..];
      assert b == [b[0]] + b[1..];
    }
  }

  /** Two non-empty sorted sequences with the same elements start alike, and their
      tails are again sorted with the same elements. */
  lemma SortedHeads(a: seq<int>, b: seq<int>)
    requires Sorted(a) && Sorted(b) && multiset(a) == multiset(b) && |a| > 0 && |b| > 0
    ensures a[0] == b[0]
    ensures Sorted(a[1..]) && Sorted(b[1..]) && multiset(a[1..]) == multiset(b[1..])
  {
    assert a[0] in multiset(b) && b[0] in multiset(a);
    SortedHeadLeast(b, a[0]);
    SortedHeadLeast(a, b[0]);
    MultisetTail(a);
    MultisetTail(b);
    SortedTail(a);
    SortedTail(b);
  }

  /** The first element of a sorted sequence is its least. */
  lemma SortedHeadLeast(a: seq<int>, x: int)
    requires Sorted(a) && x in multiset(a)
    ensures |a| > 0 && a[0] <= x
  {
    var k :| 0 <= k < |a| && a[k] == x;
  }

  /** The tail of a sorted sequence is sorted. */
  lemma SortedTail(a: seq<int>)
    requires Sorted(a) && |a| > 0
    ensures Sorted(a[1..])
  {
  }

  /** Dropping the first element removes one copy of it from the multiset. */
  lemma MultisetTail(a: seq<int>)
    requires |a| > 0
    ensures multiset(a[1..]) == multiset(a) - multiset{a[0]}
  {
    assert a == [a[0]] + a[1..];
  }

  /** The selection check `sorted(selection) == solution`, for a sorted solution, holds
      exactly when the selection has the solution's elements in any order. */
  lemma SelectionOrderIrrelevant(selection: seq<int>, solution: seq<int>)
    requires Sorted(solution)
    ensures Sort(selection) == solution <==> multiset(selection) == multiset(solution)
  {
    if multiset(selection) == multiset(solution) {
      SortedUnique(Sort(selection), solution);
    }
  }
}
