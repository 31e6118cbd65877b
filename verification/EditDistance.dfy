/** Edit distance between readings: the two-row dynamic program of the corpus builder
    (tools/dictionary/build_frozen_corpus_v2.py), proved to compute the smallest number of
    one-character insertions, deletions and substitutions, and the q-gram bound that
    follows from it. */
module EditDistance {

  function Init(s: string): (r: string)
    requires s != ""
    ensures |r| == |s| - 1
  {
    s[..|s| - 1]
  }

  function Last(s: string): char
    requires s != ""
  {
    s[|s| - 1]
  }

  function Min(a: nat, b: nat): nat {
    if a <= b then a else b
  }

  function Max(a: nat, b: nat): nat {
    if a >= b then a else b
  }

  function Mismatch(a: char, b: char): nat {
    if a == b then 0 else 1
  }

  /** The recurrence on prefixes that the dynamic program tabulates. */
  function Edit(a: string, b: string): nat
    decreases |a| + |b|
  {
    if a == "" then |b|
    else if b == "" then |a|
    else
      Min(Min(Edit(a, Init(b)) + 1, Edit(Init(a), b) + 1),
          Edit(Init(a), Init(b)) + Mismatch(Last(a), Last(b)))
  }

  /** One unfolding of the recurrence, for proofs that keep `Edit` folded. */
  lemma {:induction false} Unfold(a: string, b: string)
    ensures a == "" ==> Edit(a, b) == |b|
    ensures b == "" ==> Edit(a, b) == |a|
    ensures a != "" && b != "" ==>
      && Edit(a, b) <= Edit(a, Init(b)) + 1
      && Edit(a, b) <= Edit(Init(a), b) + 1
      && Edit(a, b) <= Edit(Init(a), Init(b)) + Mismatch(Last(a), Last(b))
      && (|| Edit(a, b) == Edit(a, Init(b)) + 1
          || Edit(a, b) == Edit(Init(a), b) + 1
          || Edit(a, b) == Edit(Init(a), Init(b)) + Mismatch(Last(a), Last(b)))
  {
  }

  // ---------------------------------------------------------------- the loop

  lemma {:induction false} CellIsRecurrence(left: string, right: string, i: nat, j: nat)
    requires i < |left| && j < |right|
    ensures Edit(left[..i + 1], right[..j + 1])
         == Min(Min(Edit(left[..i + 1], right[..j]) + 1, Edit(left[..i], right[..j + 1]) + 1),
                Edit(left[..i], right[..j]) + Mismatch(left[i], right[j]))
  {
    hide Edit;
    assert Init(left[..i + 1]) == left[..i] && Init(right[..j + 1]) == right[..j];
    Unfold(left[..i + 1], right[..j + 1]);
  }

  lemma {:induction false} EmptyPrefix(right: string)
    ensures forall k :: 0 <= k <= |right| ==> Edit("", right[..k]) == k
  {
  }

  lemma {:induction false} EmptySuffix(left: string)
    ensures Edit(left, "") == |left|
  {
  }

  /** The two-row loop, with the swap that makes `right` the shorter string. */
  method LevenshteinDistance(left0: string, right0: string) returns (distance: nat)
    ensures distance == Edit(left0, right0)
  {
    hide Edit;
    var left, right := left0, right0;
    if |left| < |right| {
      left, right := right, left;
      Symmetric(left0, right0);
    }
    var previous := seq(|right| + 1, k => k);
    EmptyPrefix(right);
    var i := 0;
    while i < |left|
      invariant 0 <= i <= |left|
      invariant |previous| == |right| + 1
      invariant forall k :: 0 <= k < |previous| ==> previous[k] == Edit(left[..i], right[..k])
    {
      var current := [i + 1];
      EmptySuffix(left[..i + 1]);
      var j := 0;
      while j < |right|
        invariant 0 <= j <= |right|
        invariant |current| == j + 1
        invariant forall k :: 0 <= k < |current| ==> current[k] == Edit(left[..i + 1], right[..k])
      {
        var cell := Min(Min(current[j] + 1, previous[j + 1] + 1),
                        previous[j] + Mismatch(left[i], right[j]));
        CellIsRecurrence(left, right, i, j);
        current := current + [cell];
        j := j + 1;
      }
      previous := current;
      i := i + 1;
    }
    assert left[..|left|] == left && right[..|right|] == right;
    distance := previous[|right|];
  }

  // ------------------------------------------------------- elementary bounds

  lemma {:induction false} Symmetric(a: string, b: string)
    ensures Edit(a, b) == Edit(b, a)
    decreases |a| + |b|
  {
    if a != "" && b != "" {
      Symmetric(a, Init(b));
      Symmetric(Init(a), b);
      Symmetric(Init(a), Init(b));
    }
  }

  /** The distance lies between the length difference and the longer length. */
  lemma {:induction false} LengthBounds(a: string, b: string)
    ensures |a| <= |b| + Edit(a, b)
    ensures |b| <= |a| + Edit(a, b)
    ensures Edit(a, b) <= Max(|a|, |b|)
    decreases |a| + |b|
  {
    if a != "" && b != "" {
      LengthBounds(a, Init(b));
      LengthBounds(Init(a), b);
      LengthBounds(Init(a), Init(b));
    }
  }

  lemma {:induction false} ZeroIffEqual(a: string, b: string)
    ensures Edit(a, b) == 0 <==> a == b
    decreases |a| + |b|
  {
    if a != "" && b != "" {
      ZeroIffEqual(Init(a), Init(b));
      assert a == Init(a) + [Last(a)] && b == Init(b) + [Last(b)];
    }
  }

  // ------------------------------------------- reference: chains of one edit

  /** `t` is `s` with one piece of at most one character replaced by another: an insertion,
      a deletion or a substitution. */
  ghost predicate EditAt(p: string, x: string, y: string, q: string, s: string, t: string) {
    |x| <= 1 && |y| <= 1 && x != y && s == p + x + q && t == p + y + q
  }

  ghost predicate OneEdit(s: string, t: string) {
    exists p, x, y, q :: EditAt(p, x, y, q, s, t)
  }

  /** A sequence of strings, each one edit away from the one before it. */
  ghost predicate EditChain(chain: seq<string>, s: string, t: string) {
    && |chain| > 0
    && chain[0] == s
    && chain[|chain| - 1] == t
    && forall k :: 0 <= k < |chain| - 1 ==> OneEdit(chain[k], chain[k + 1])
  }

  lemma {:induction false} CommonLastCharacter(s: string, t: string, u: string)
    requires s != "" && t != "" && u != "" && Last(s) == Last(t)
    requires Edit(Init(s), u) <= Edit(Init(t), u) + 1
    requires Edit(s, Init(u)) <= Edit(t, Init(u)) + 1
    requires Edit(Init(s), Init(u)) <= Edit(Init(t), Init(u)) + 1
    ensures Edit(s, u) <= Edit(t, u) + 1
  {
    hide Edit;
    Unfold(s, u);
    Unfold(t, u);
  }

  /** Adding, removing or replacing the last character. */
  lemma {:induction false} EndEditMovesByOne(p: string, x: string, y: string, u: string)
    requires |x| <= 1 && |y| <= 1
    ensures Edit(p + x, u) <= Edit(p + y, u) + 1
    decreases |u|
  {
    hide Edit;
    var s, t := p + x, p + y;
    LengthBounds(s, u);
    Unfold(s, u);
    Unfold(t, u);
    if u != "" && t != "" {
      EndEditMovesByOne(p, x, y, Init(u));
      if x == "" {
        assert s == p && p + x == p;
        EndRemoved(p, y, u);
      } else {
        assert Init(s) == p;
        if y == "" { assert t == p; } else { assert Init(t) == p; }
      }
    }
  }

  /** Removing the last character, if any. */
  lemma {:induction false} EndRemoved(p: string, y: string, u: string)
    requires |y| <= 1 && u != "" && p + y != ""
    requires Edit(p, Init(u)) <= Edit(p + y, Init(u)) + 1
    ensures Edit(p, u) <= Edit(p + y, u) + 1
  {
    hide Edit;
    Unfold(p + y, u);
    Unfold(p, u);
    LengthBounds(p + y, u);
    if y == "" {
      assert p + y == p;
    } else {
      assert Init(p + y) == p;
    }
  }

  /** One edit of the left string moves the recurrence by at most one. */
  lemma {:induction false} OneEditMovesByOne(p: string, x: string, y: string, q: string, u: string)
    requires |x| <= 1 && |y| <= 1
    ensures Edit(p + x + q, u) <= Edit(p + y + q, u) + 1
    decreases |q| + |u|
  {
    var s, t := p + x + q, p + y + q;
    if u == "" || t == "" {
      LengthBounds(s, u);
    } else if q == "" {
      assert s == p + x && t == p + y;
      EndEditMovesByOne(p, x, y, u);
    } else {
      assert Init(s) == p + x + Init(q) && Init(t) == p + y + Init(q);
      OneEditMovesByOne(p, x, y, Init(q), u);
      OneEditMovesByOne(p, x, y, q, Init(u));
      OneEditMovesByOne(p, x, y, Init(q), Init(u));
      CommonLastCharacter(s, t, u);
    }
  }

  lemma {:induction false} ChainTail(chain: seq<string>, s: string, t: string)
    requires EditChain(chain, s, t) && |chain| > 1
    ensures EditChain(chain[1..], chain[1], t) && OneEdit(s, chain[1])
  {
    forall k | 0 <= k < |chain[1..]| - 1
      ensures OneEdit(chain[1..][k], chain[1..][k + 1])
    {
      assert OneEdit(chain[k + 1], chain[k + 2]);
    }
  }

  /** Lower bound: no chain of single edits is shorter than the computed distance. */
  lemma {:induction false} NoShorterChain(chain: seq<string>, s: string, t: string)
    requires EditChain(chain, s, t)
    ensures Edit(s, t) <= |chain| - 1
    decreases |chain|
  {
    if |chain| == 1 {
      ZeroIffEqual(s, t);
    } else {
      ChainTail(chain, s, t);
      NoShorterChain(chain[1..], chain[1], t);
      var p, x, y, q :| EditAt(p, x, y, q, s, chain[1]);
      OneEditMovesByOne(p, x, y, q, t);
    }
  }

  lemma {:induction false} PrependStep(s: string, chain: seq<string>, m: string, t: string)
    requires EditChain(chain, m, t) && OneEdit(s, m)
    ensures EditChain([s] + chain, s, t)
  {
    var c := [s] + chain;
    forall k | 0 <= k < |c| - 1 ensures OneEdit(c[k], c[k + 1]) {
      if k > 0 { assert OneEdit(chain[k - 1], chain[k]); }
    }
  }

  lemma {:induction false} AppendStep(chain: seq<string>, s: string, m: string, t: string)
    requires EditChain(chain, s, m) && OneEdit(m, t)
    ensures EditChain(chain + [t], s, t)
  {
    var c := chain + [t];
    forall k | 0 <= k < |c| - 1 ensures OneEdit(c[k], c[k + 1]) {
      if k < |chain| - 1 { assert OneEdit(chain[k], chain[k + 1]); }
    }
  }

  /** Appending the same character to every string of a chain keeps it a chain. */
  lemma {:induction false} ExtendChain(chain: seq<string>, s: string, t: string, c: char)
    returns (longer: seq<string>)
    requires EditChain(chain, s, t)
    ensures EditChain(longer, s + [c], t + [c]) && |longer| == |chain|
  {
    longer := seq(|chain|, k requires 0 <= k < |chain| => chain[k] + [c]);
    forall k | 0 <= k < |longer| - 1 ensures OneEdit(longer[k], longer[k + 1]) {
      assert OneEdit(chain[k], chain[k + 1]);
      var p, x, y, q :| EditAt(p, x, y, q, chain[k], chain[k + 1]);
      assert p + x + q + [c] == p + x + (q + [c]) && p + y + q + [c] == p + y + (q + [c]);
      assert EditAt(p, x, y, q + [c], longer[k], longer[k + 1]);
    }
  }

  lemma {:induction false} DropLast(s: string)
    requires s != ""
    ensures OneEdit(s, Init(s)) && OneEdit(Init(s), s)
  {
    assert EditAt(Init(s), [Last(s)], "", "", s, Init(s));
    assert EditAt(Init(s), "", [Last(s)], "", Init(s), s);
  }

  lemma {:induction false} ReplaceLast(s: string, c: char)
    requires s != "" && Last(s) != c
    ensures OneEdit(s, Init(s) + [c])
  {
    assert EditAt(Init(s), [Last(s)], [c], "", s, Init(s) + [c]);
  }

  /** Upper bound: the computed distance is reached by an explicit chain. */
  lemma {:induction false} ShortestChain(a: string, b: string) returns (chain: seq<string>)
    ensures EditChain(chain, a, b) && |chain| == Edit(a, b) + 1
    decreases |a| + |b|
  {
    if a == "" && b == "" {
      chain := [""];
    } else if b == "" || (a != "" && Edit(a, b) == Edit(Init(a), b) + 1) {
      chain := ShortestChain(Init(a), b);
      DropLast(a);
      PrependStep(a, chain, Init(a), b);
      chain := [a] + chain;
    } else if a == "" || Edit(a, b) == Edit(a, Init(b)) + 1 {
      chain := ShortestChain(a, Init(b));
      DropLast(b);
      AppendStep(chain, a, Init(b), b);
      chain := chain + [b];
    } else {
      chain := ShortestChain(Init(a), Init(b));
      chain := ExtendChain(chain, Init(a), Init(b), Last(b));
      assert Init(b) + [Last(b)] == b && Init(a) + [Last(a)] == a;
      if Last(a) != Last(b) {
        ReplaceLast(a, Last(b));
        PrependStep(a, chain, Init(a) + [Last(b)], b);
        chain := [a] + chain;
      }
    }
  }

  /** The recurrence is the minimum number of single edits: it is the length of a chain, and
      of no shorter one. */
  lemma {:induction false} EditIsMinimum(a: string, b: string, n: nat)
    ensures Edit(a, b) <= n <==> exists chain :: EditChain(chain, a, b) && |chain| <= n + 1
  {
    if Edit(a, b) <= n {
      var chain := ShortestChain(a, b);
      assert EditChain(chain, a, b) && |chain| <= n + 1;
    }
    forall chain | EditChain(chain, a, b) && |chain| <= n + 1 ensures Edit(a, b) <= n {
      NoShorterChain(chain, a, b);
    }
  }

  // ------------------------------------------------------------ q-gram bound

  /** All windows of three characters, with multiplicity. */
  ghost function Windows(s: string): (w: multiset<string>)
    ensures |w| == if |s| < 3 then 0 else |s| - 2
  {
    if |s| < 3 then multiset{} else Windows(Init(s)) + multiset{s[|s| - 3..]}
  }

  lemma {:induction false} WindowsOfParts(u: string, v: string)
    ensures Windows(u) + Windows(v) <= Windows(u + v)
    decreases |v|
  {
    if v == "" {
      assert u + v == u;
    } else {
      WindowsOfParts(u, Init(v));
      assert Init(u + v) == u + Init(v);
      assert |u + v| >= 3 ==> Windows(u + v) == Windows(u + Init(v)) + multiset{(u + v)[|u + v| - 3..]};
      if |v| >= 3 {
        assert Windows(v) == Windows(Init(v)) + multiset{v[|v| - 3..]};
        assert (u + v)[|u + v| - 3..] == v[|v| - 3..];
      } else {
        assert Windows(v) == multiset{} && Windows(Init(v)) == multiset{};
      }
      hide Windows;
    }
  }

  /** Both sides of a one-character hole keep their windows. */
  lemma {:induction false} WindowsAroundHole(p: string, x: string, q: string)
    requires |x| <= 1
    ensures Windows(p) + Windows(q) <= Windows(p + x + q)
    ensures |Windows(p + x + q)| <= |Windows(p) + Windows(q)| + 3
  {
    WindowsOfParts(x, q);
    WindowsOfParts(p, x + q);
    assert p + (x + q) == p + x + q;
  }

  lemma {:induction false} WithinCommonPart(a: multiset<string>, b: multiset<string>, kept: multiset<string>)
    requires kept <= a && kept <= b
    ensures |a - b| <= |a| - |kept|
  {
    assert a == kept + (a - kept);
    assert a - b <= a - kept;
    SubMultisetSize(a - b, a - kept);
  }

  /** One edit loses at most three windows. */
  lemma {:induction false} OneEditLosesThree(s: string, t: string)
    requires OneEdit(s, t)
    ensures |Windows(s) - Windows(t)| <= 3
  {
    var p, x, y, q :| EditAt(p, x, y, q, s, t);
    WindowsAroundHole(p, x, q);
    WindowsAroundHole(p, y, q);
    WithinCommonPart(Windows(s), Windows(t), Windows(p) + Windows(q));
  }

  lemma {:induction false} SubMultisetSize(a: multiset<string>, b: multiset<string>)
    requires a <= b
    ensures |a| <= |b|
  {
    assert b == a + (b - a);
  }

  lemma {:induction false} DifferenceTriangle(a: multiset<string>, b: multiset<string>, c: multiset<string>)
    ensures |a - c| <= |a - b| + |b - c|
  {
    assert a - c <= (a - b) + (b - c);
    SubMultisetSize(a - c, (a - b) + (b - c));
  }

  lemma {:induction false} ChainLosesThreePerStep(chain: seq<string>, s: string, t: string)
    requires EditChain(chain, s, t)
    ensures |Windows(s) - Windows(t)| <= 3 * (|chain| - 1)
    decreases |chain|
  {
    if |chain| == 1 {
      assert Windows(s) - Windows(t) == multiset{};
    } else {
      ChainTail(chain, s, t);
      ChainLosesThreePerStep(chain[1..], chain[1], t);
      OneEditLosesThree(s, chain[1]);
      DifferenceTriangle(Windows(s), Windows(chain[1]), Windows(t));
    }
  }

  /** The q-gram lemma: `d` edits lose at most `3 d` of the three-character windows. */
  lemma {:induction false} QGramBound(a: string, b: string)
    ensures |Windows(a) - Windows(b)| <= 3 * Edit(a, b)
  {
    var chain := ShortestChain(a, b);
    ChainLosesThreePerStep(chain, a, b);
  }
}
