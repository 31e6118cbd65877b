/** The near-duplicate search of the frozen corpus builder: similarity metrics, the inverted
    3-gram index with its length filter, and the proof that it reports exactly what a
    comparison of all pairs reports (tools/dictionary/build_frozen_corpus_v2.py:731-847). */
module NearDuplicates {
  import opened EditDistance
  import opened Orders
  import opened Results

  const JACCARD_THRESHOLD := 8_000
  const LEVENSHTEIN_THRESHOLD := 9_000
  const FULL := 10_000

  /** A corpus row: its identifier and its reading after near-duplicate normalization. */
  datatype Row = Row(id: string, text: string)

  datatype Scope = FormalV2 | PilotV1ToFormalV2

  datatype Pair = Pair(caseIds: (string, string), scope: Scope, jaccard: nat, levenshtein: nat)

  // ----------------------------------------------------------------- metrics

  function Gram(s: string, k: nat): string
    requires k + 3 <= |s|
  {
    s[k..k + 3]
  }

  function Trigrams(s: string): set<string> {
    if s == "" then {}
    else if |s| < 3 then {s}
    else set k | 0 <= k < |s| - 2 :: Gram(s, k)
  }

  /** Floor division, `//`. */
  function Floor(n: nat, d: nat): nat
    requires d > 0
  {
    n / d
  }

  function Jaccard(a: string, b: string): nat {
    var union := Trigrams(a) + Trigrams(b);
    if union == {} then FULL else Floor(|Trigrams(a) * Trigrams(b)| * FULL, |union|)
  }

  lemma {:induction false} DistanceBelowMaximum(a: string, b: string)
    ensures Edit(a, b) <= Max(|a|, |b|)
  {
    LengthBounds(a, b);
  }

  function Similarity(a: string, b: string): nat {
    var denominator := Max(|a|, |b|);
    if denominator == 0 then FULL
    else DistanceBelowMaximum(a, b); Floor((denominator - Edit(a, b)) * FULL, denominator)
  }

  method LevenshteinSimilarity(a: string, b: string) returns (points: nat)
    ensures points == Similarity(a, b)
  {
    var denominator := Max(|a|, |b|);
    if denominator == 0 {
      return FULL;
    }
    var distance := LevenshteinDistance(a, b);
    DistanceBelowMaximum(a, b);
    points := Floor((denominator - distance) * FULL, denominator);
  }

  /** What "near-duplicate" means: one of the two metrics reaches its threshold. */
  predicate Near(a: string, b: string) {
    Jaccard(a, b) >= JACCARD_THRESHOLD || Similarity(a, b) >= LEVENSHTEIN_THRESHOLD
  }

  predicate ShareTrigram(a: string, b: string) {
    Trigrams(a) * Trigrams(b) != {}
  }

  // ------------------------------------- the index loses no near-duplicate pair

  lemma {:induction false} FloorAtLeast(n: nat, d: nat, t: nat)
    requires d > 0
    ensures n / d >= t <==> n >= t * d
  {
    if n / d >= t {
      assert n >= n / d * d >= t * d;
    }
    if n / d < t {
      assert n < (n / d + 1) * d <= t * d;
    }
  }

  /** The similarity threshold is a bound on the distance: at most a tenth of the longer text. */
  lemma {:induction false} SimilarityThreshold(a: string, b: string)
    requires Max(|a|, |b|) > 0
    ensures Similarity(a, b) >= LEVENSHTEIN_THRESHOLD <==> 10 * Edit(a, b) <= Max(|a|, |b|)
  {
    var m, d := Max(|a|, |b|), Edit(a, b);
    DistanceBelowMaximum(a, b);
    FloorAtLeast((m - d) * FULL, m, LEVENSHTEIN_THRESHOLD);
  }

  lemma {:induction false} WindowAt(s: string, g: string) returns (k: nat)
    requires g in Windows(s)
    ensures k + 3 <= |s| && g == Gram(s, k)
    decreases |s|
  {
    var front, last := Init(s), s[|s| - 3..];
    assert Windows(s) == Windows(front) + multiset{last};
    hide Windows;
    k := |s| - 3;
    if g != last {
      assert g in Windows(front);
      k := WindowAt(front, g);
    }
  }

  lemma {:induction false} WindowIsTrigram(s: string, g: string)
    requires g in Windows(s)
    ensures g in Trigrams(s)
  {
    hide Windows;
    var k := WindowAt(s, g);
  }

  /** At most a tenth of the longer text edited leaves a common 3-gram. */
  lemma {:induction false} CloseTextsShareTrigram(a: string, b: string)
    requires 10 * Edit(a, b) <= Max(|a|, |b|)
    requires |a| > 0
    ensures ShareTrigram(a, b)
  {
    ZeroIffEqual(a, b);
    if a == b {
      FirstTrigram(a);
    } else if |a| >= |b| {
      QGramBound(a, b);
      LongTextsShareTrigram(a, b);
    } else {
      Symmetric(a, b);
      QGramBound(b, a);
      LongTextsShareTrigram(b, a);
    }
  }

  lemma {:induction false} FirstTrigram(a: string)
    requires a != ""
    ensures Trigrams(a) != {}
  {
    if |a| >= 3 { assert Gram(a, 0) in Trigrams(a); }
  }

  lemma {:induction false} DisjointDifference(a: multiset<string>, b: multiset<string>)
    requires a !! b
    ensures a - b == a
  {
  }

  lemma {:induction false} LongTextsShareTrigram(a: string, b: string)
    requires |a| >= 10 && |Windows(a) - Windows(b)| * 10 <= 3 * |a|
    ensures ShareTrigram(a, b)
  {
    if Windows(a) !! Windows(b) {
      DisjointDifference(Windows(a), Windows(b));
      assert false;
    }
    var g :| g in Windows(a) && g in Windows(b);
    WindowIsTrigram(a, g);
    WindowIsTrigram(b, g);
    assert g in Trigrams(a) * Trigrams(b);
  }

  /** Index completeness: with a non-empty left text, every near pair shares a 3-gram. */
  lemma {:induction false} NearTextsShareTrigram(a: string, b: string)
    requires a != "" && Near(a, b)
    ensures ShareTrigram(a, b)
  {
    FirstTrigram(a);
    if Jaccard(a, b) >= JACCARD_THRESHOLD {
      assert Trigrams(a) * Trigrams(b) == {} ==> Jaccard(a, b) == 0;
    } else {
      SimilarityThreshold(a, b);
      CloseTextsShareTrigram(a, b);
    }
  }

  /** The length filter is sound: it bounds the similarity from above. */
  lemma {:induction false} LengthFilter(a: string, b: string)
    requires Max(|a|, |b|) > 0
    ensures Similarity(a, b) <= Min(|a|, |b|) * FULL / Max(|a|, |b|)
  {
    LengthBounds(a, b);
    var m := Max(|a|, |b|);
    DivMonotone((m - Edit(a, b)) * FULL, Min(|a|, |b|) * FULL, m);
  }

  lemma {:induction false} DivMonotone(x: nat, y: nat, d: nat)
    requires x <= y && d > 0
    ensures x / d <= y / d
  {
    FloorAtLeast(y, d, x / d);
    FloorAtLeast(x, d, x / d);
  }

  // ------------------------------------------------------- all-pairs reference

  function Ids(left: Row, right: Row): (string, string) {
    if StringLe(left.id, right.id) then (left.id, right.id) else (right.id, left.id)
  }

  /** The report of one comparison: one record for a near pair, nothing otherwise. */
  function Report(left: Row, right: Row, scope: Scope): seq<Pair> {
    if Near(left.text, right.text)
    then [Pair(Ids(left, right), scope, Jaccard(left.text, right.text), Similarity(left.text, right.text))]
    else []
  }

  function ReportAll(left: seq<Row>, right: seq<Row>, scope: Scope, at: seq<(nat, nat)>): (r: seq<Pair>)
    requires forall c :: c in at ==> c.0 < |left| && c.1 < |right|
  {
    if at == [] then []
    else
      var c := at[|at| - 1];
      ReportAll(left, right, scope, at[..|at| - 1]) + Report(left[c.0], right[c.1], scope)
  }

  /** All pairs of two index ranges in lexicographic order, optionally only those with i < j. */
  function Row0(i: nat, from: nat, n: nat): seq<(nat, nat)>
    decreases n
  {
    if n <= from then [] else Row0(i, from, n - 1) + [(i, n - 1)]
  }

  function Grid(m: nat, n: nat, upper: bool): seq<(nat, nat)> {
    if m == 0 then [] else Grid(m - 1, n, upper) + Row0(m - 1, if upper then m else 0, n)
  }

  lemma {:induction false} Row0Has(i: nat, from: nat, n: nat, c: (nat, nat))
    ensures c in Row0(i, from, n) <==> c.0 == i && from <= c.1 < n
    decreases n
  {
    if n > from {
      Row0Has(i, from, n - 1, c);
      assert Row0(i, from, n) == Row0(i, from, n - 1) + [(i, n - 1)];
      hide Row0;
    }
  }

  lemma {:induction false} Row0Sorted(i: nat, from: nat, n: nat)
    ensures StrictlySorted(Row0(i, from, n))
    decreases n
  {
    if n > from {
      var before, c := Row0(i, from, n - 1), (i, n - 1);
      assert Row0(i, from, n) == before + [c];
      hide Row0;
      Row0Sorted(i, from, n - 1);
      forall b | b in before ensures IndexLess(b, c) {
        Row0Has(i, from, n - 1, b);
      }
      SortedThen(before, [c]);
    }
  }

  /** A sorted list followed by a sorted list of larger ones is sorted. */
  lemma {:induction false} SortedThen(a: seq<(nat, nat)>, b: seq<(nat, nat)>)
    requires StrictlySorted(a) && StrictlySorted(b)
    requires forall x, y :: x in a && y in b ==> IndexLess(x, y)
    ensures StrictlySorted(a + b)
  {
    hide IndexLess;
    var all := a + b;
    forall i, j | 0 <= i < j < |all| ensures IndexLess(all[i], all[j]) {
      if i < |a| && j >= |a| {
        assert a[i] in a && b[j - |a|] in b;
      }
    }
  }

  function RowOf(m: nat, n: nat, upper: bool): seq<(nat, nat)> {
    Row0(m, if upper then m + 1 else 0, n)
  }

  lemma {:induction false} GridHas(m: nat, n: nat, upper: bool, c: (nat, nat))
    ensures c in Grid(m, n, upper) <==> c.0 < m && c.1 < n && (upper ==> c.0 < c.1)
  {
    if m > 0 {
      assert Grid(m, n, upper) == Grid(m - 1, n, upper) + RowOf(m - 1, n, upper);
      Row0Has(m - 1, if upper then m else 0, n, c);
      GridHas(m - 1, n, upper, c);
      hide Grid, Row0;
    }
  }

  lemma {:induction false} GridStep(m: nat, n: nat, upper: bool)
    ensures m == 0 ==> Grid(m, n, upper) == [] && StrictlySorted(Grid(m, n, upper))
    ensures m > 0 ==> Grid(m, n, upper) == Grid(m - 1, n, upper) + RowOf(m - 1, n, upper)
  {
  }

  lemma {:induction false} GridSorted(m: nat, n: nat, upper: bool)
    ensures StrictlySorted(Grid(m, n, upper))
  {
    hide Grid, StrictlySorted, Row0, IndexLess;
    GridStep(m, n, upper);
    if m > 0 {
      var above, row := Grid(m - 1, n, upper), RowOf(m - 1, n, upper);
      GridSorted(m - 1, n, upper);
      Row0Sorted(m - 1, if upper then m else 0, n);
      forall x, y | x in above && y in row ensures IndexLess(x, y) {
        GridHas(m - 1, n, upper, x);
        Row0Has(m - 1, if upper then m else 0, n, y);
        EarlierRow(x, y);
      }
      SortedThen(above, row);
    }
  }

  lemma {:induction false} EarlierRow(x: (nat, nat), y: (nat, nat))
    requires x.0 < y.0
    ensures IndexLess(x, y)
  {
  }

  /** The grid is what it says: every pair of indices once, in lexicographic order. */
  lemma {:induction false} GridElements(m: nat, n: nat, upper: bool)
    ensures StrictlySorted(Grid(m, n, upper))
    ensures forall c :: c in Grid(m, n, upper) <==> c.0 < m && c.1 < n && (upper ==> c.0 < c.1)
  {
    hide Grid, StrictlySorted;
    GridSorted(m, n, upper);
    forall c: (nat, nat) ensures c in Grid(m, n, upper) <==> c.0 < m && c.1 < n && (upper ==> c.0 < c.1) {
      GridHas(m, n, upper, c);
    }
  }

  /** Comparing all pairs without an index: the meaning of the search. */
  function AllPairs(formal: seq<Row>, pilot: seq<Row>): seq<Pair> {
    GridElements(|formal|, |formal|, true);
    GridElements(|formal|, |pilot|, false);
    ReportAll(formal, formal, FormalV2, Grid(|formal|, |formal|, true))
    + ReportAll(formal, pilot, PilotV1ToFormalV2, Grid(|formal|, |pilot|, false))
  }

  /** The index pairs among `at` whose texts are near. */
  function NearAt(left: seq<Row>, right: seq<Row>, at: seq<(nat, nat)>): set<(nat, nat)>
    requires forall c :: c in at ==> c.0 < |left| && c.1 < |right|
  {
    set c | c in at && Near(left[c.0].text, right[c.1].text)
  }

  predicate ReportsAt(p: Pair, left: seq<Row>, right: seq<Row>, scope: Scope, c: (nat, nat))
    requires c.0 < |left| && c.1 < |right|
  {
    Report(left[c.0], right[c.1], scope) == [p]
  }

  predicate ReportedAt(p: Pair, left: seq<Row>, right: seq<Row>, scope: Scope, at: seq<(nat, nat)>)
    requires forall c :: c in at ==> c.0 < |left| && c.1 < |right|
  {
    exists c :: c in at && ReportsAt(p, left, right, scope, c)
  }

  /** As many records as near pairs: none is missed or repeated. */
  lemma {:induction false} ReportedOnce(left: seq<Row>, right: seq<Row>, scope: Scope, at: seq<(nat, nat)>)
    requires forall c :: c in at ==> c.0 < |left| && c.1 < |right|
    requires StrictlySorted(at)
    ensures |ReportAll(left, right, scope, at)| == |NearAt(left, right, at)|
  {
    if at != [] {
      var front, last := at[..|at| - 1], at[|at| - 1];
      ReportedOnce(left, right, scope, front);
      NearAtLast(left, right, at);
      hide Near, StrictlySorted, NearAt;
    }
  }

  lemma {:induction false} NearAtLast(left: seq<Row>, right: seq<Row>, at: seq<(nat, nat)>)
    requires at != [] && forall c :: c in at ==> c.0 < |left| && c.1 < |right|
    requires StrictlySorted(at)
    ensures var front, last := at[..|at| - 1], at[|at| - 1];
      && (forall c :: c in front ==> c.0 < |left| && c.1 < |right|) && last !in NearAt(left, right, front)
      && NearAt(left, right, at) == NearAt(left, right, front)
           + (if Near(left[last.0].text, right[last.1].text) then {last} else {})
  {
    hide Near;
    var front, last := at[..|at| - 1], at[|at| - 1];
    assert forall c :: c in at <==> c in front || c == last;
    assert last !in front;
  }

  /** The records are those of the near pairs. */
  lemma {:induction false} ReportedMembers(p: Pair, left: seq<Row>, right: seq<Row>, scope: Scope,
      at: seq<(nat, nat)>)
    requires forall c :: c in at ==> c.0 < |left| && c.1 < |right|
    ensures p in ReportAll(left, right, scope, at) <==> ReportedAt(p, left, right, scope, at)
  {
    if at != [] {
      ReportedMembers(p, left, right, scope, at[..|at| - 1]);
      LastReported(p, left, right, scope, at);
      hide ReportedAt, Report;
    }
  }

  lemma {:induction false} LastReported(p: Pair, left: seq<Row>, right: seq<Row>, scope: Scope, at: seq<(nat, nat)>)
    requires at != [] && forall c :: c in at ==> c.0 < |left| && c.1 < |right|
    ensures var front, last := at[..|at| - 1], at[|at| - 1];
      (forall c :: c in front ==> c.0 < |left| && c.1 < |right|)
      && (ReportedAt(p, left, right, scope, at) <==>
            ReportedAt(p, left, right, scope, front) || p in Report(left[last.0], right[last.1], scope))
  {
    var front, last := at[..|at| - 1], at[|at| - 1];
    assert last in at;
    assert forall c :: c in at <==> c in front || c == last;
    assert p in Report(left[last.0], right[last.1], scope) <==> ReportsAt(p, left, right, scope, last);
    hide ReportsAt, Report;
  }

  /** The record of a near pair i, j; `upper` asks for i < j. */
  predicate IsNearPair(p: Pair, left: seq<Row>, right: seq<Row>, scope: Scope, upper: bool) {
    exists i, j :: 0 <= i < |left| && 0 <= j < |right| && (upper ==> i < j) && ReportsAt(p, left, right, scope, (i, j))
  }

  lemma {:induction false} GridReports(p: Pair, left: seq<Row>, right: seq<Row>, scope: Scope, upper: bool)
    ensures (forall c :: c in Grid(|left|, |right|, upper) ==> c.0 < |left| && c.1 < |right|)
      && (ReportedAt(p, left, right, scope, Grid(|left|, |right|, upper)) <==> IsNearPair(p, left, right, scope, upper))
  {
    GridElements(|left|, |right|, upper);
    hide ReportsAt, Grid, StrictlySorted;
    var grid := Grid(|left|, |right|, upper);
    if c :| c in grid && ReportsAt(p, left, right, scope, c) {
      assert c == (c.0, c.1);
    }
    if i, j :| 0 <= i < |left| && 0 <= j < |right| && (upper ==> i < j) && ReportsAt(p, left, right, scope, (i, j)) {
      assert (i, j) in grid;
    }
  }

  /** The search reports one record for every near formal pair i < j and every near formal-pilot pair,
      and nothing else. */
  lemma {:induction false} AllPairsMeans(formal: seq<Row>, pilot: seq<Row>, p: Pair)
    ensures p in AllPairs(formal, pilot) <==>
      IsNearPair(p, formal, formal, FormalV2, true) || IsNearPair(p, formal, pilot, PilotV1ToFormalV2, false)
    ensures |AllPairs(formal, pilot)| == |NearIndices(formal, formal, true)| + |NearIndices(formal, pilot, false)|
  {
    GridReports(p, formal, formal, FormalV2, true);
    GridReports(p, formal, pilot, PilotV1ToFormalV2, false);
    GridElements(|formal|, |formal|, true);
    GridElements(|formal|, |pilot|, false);
    ReportedOnce(formal, formal, FormalV2, Grid(|formal|, |formal|, true));
    ReportedOnce(formal, pilot, PilotV1ToFormalV2, Grid(|formal|, |pilot|, false));
    ReportedMembers(p, formal, formal, FormalV2, Grid(|formal|, |formal|, true));
    ReportedMembers(p, formal, pilot, PilotV1ToFormalV2, Grid(|formal|, |pilot|, false));
    NearIndicesAre(formal, formal, true);
    NearIndicesAre(formal, pilot, false);
    hide IsNearPair, ReportedAt, ReportAll, Grid, NearAt, NearIndices;
  }

  /** The near pairs of indices. */
  function NearIndices(left: seq<Row>, right: seq<Row>, upper: bool): set<(nat, nat)> {
    set i, j | 0 <= i < |left| && 0 <= j < |right| && (upper ==> i < j) && Near(left[i].text, right[j].text) :: (i, j)
  }

  lemma {:induction false} NearIndicesAre(left: seq<Row>, right: seq<Row>, upper: bool)
    ensures (forall c :: c in Grid(|left|, |right|, upper) ==> c.0 < |left| && c.1 < |right|)
      && NearAt(left, right, Grid(|left|, |right|, upper)) == NearIndices(left, right, upper)
  {
    GridElements(|left|, |right|, upper);
    hide Near, Grid, StrictlySorted;
  }

  /** Reporting on a sorted selection of a sorted list is reporting on the whole list, when
      everything left out reports nothing. */
  lemma {:induction false} SelectionSuffices(
      left: seq<Row>, right: seq<Row>, scope: Scope, part: seq<(nat, nat)>, whole: seq<(nat, nat)>)
    requires StrictlySorted(part) && StrictlySorted(whole)
    requires forall c :: c in part ==> c in whole
    requires forall c :: c in whole ==> c.0 < |left| && c.1 < |right|
    requires forall c :: c in whole && c !in part ==> Report(left[c.0], right[c.1], scope) == []
    ensures ReportAll(left, right, scope, part) == ReportAll(left, right, scope, whole)
    decreases |whole|
  {
    hide Report;
    if whole == [] {
      SomeElement(part);
    } else {
      var last, rest := whole[|whole| - 1], whole[..|whole| - 1];
      assert last in whole;
      assert forall c :: c in whole <==> c in rest || c == last;
      NotAgain(whole);
      if last in part {
        LastIsShared(part, whole);
        SelectionSuffices(left, right, scope, part[..|part| - 1], rest);
      } else {
        SelectionSuffices(left, right, scope, part, rest);
      }
    }
  }

  lemma {:induction false} SomeElement(s: seq<(nat, nat)>)
    ensures s == [] || exists c :: c in s
  {
    assert s == [] || s[0] in s;
  }

  lemma {:induction false} NotAgain(s: seq<(nat, nat)>)
    requires StrictlySorted(s) && s != []
    ensures s[|s| - 1] !in s[..|s| - 1] && StrictlySorted(s[..|s| - 1])
  {
    forall k | 0 <= k < |s| - 1 ensures s[k] != s[|s| - 1] {
      assert IndexLess(s[k], s[|s| - 1]);
    }
  }

  lemma {:induction false} LastIsShared(part: seq<(nat, nat)>, whole: seq<(nat, nat)>)
    requires StrictlySorted(part) && StrictlySorted(whole) && whole != []
    requires forall c :: c in part ==> c in whole
    requires whole[|whole| - 1] in part
    ensures part[|part| - 1] == whole[|whole| - 1] && StrictlySorted(part[..|part| - 1])
    ensures forall k :: 0 <= k < |part| - 1 ==> part[k] in whole[..|whole| - 1]
    ensures var shorter, rest, last := part[..|part| - 1], whole[..|whole| - 1], whole[|whole| - 1];
      (forall c :: c in shorter ==> c in rest) && forall c :: c in part <==> c in shorter || c == last
  {
    var n := |part| - 1;
    var k :| 0 <= k < |part| && part[k] == whole[|whole| - 1];
    assert part[n] in whole;
    var j :| 0 <= j < |whole| && whole[j] == part[n];
    assert IndexLess(whole[j], whole[|whole| - 1]) || j == |whole| - 1;
    assert IndexLess(part[k], part[n]) || k == n;
    forall i | 0 <= i < n ensures part[i] in whole[..|whole| - 1] {
      assert IndexLess(part[i], part[n]) && part[i] in whole;
    }
  }

  // -------------------------------------------------------------- the search

  /** The posting list of `g` holds the rows below `n` whose text has `g`, in increasing order. */
  ghost predicate PostingOk(list: seq<nat>, rows: seq<Row>, n: nat, g: string)
    requires n <= |rows|
  {
    && (forall i, j :: 0 <= i < j < |list| ==> list[i] < list[j])
    && (forall k: nat :: k in list <==> k < n && g in Trigrams(rows[k].text))
  }

  function ListOf(index: map<string, seq<nat>>, g: string): seq<nat> {
    if g in index then index[g] else []
  }

  /** An index over the rows below `n`, where the grams in `done` already list row `n` too. */
  ghost predicate IndexOk(index: map<string, seq<nat>>, rows: seq<Row>, n: nat, done: set<string>)
    requires n < |rows| || (n == |rows| && done == {})
  {
    forall g: string :: PostingOk(ListOf(index, g), rows, if g in done then n + 1 else n, g)
  }

  lemma {:induction false} PostingGrows(list: seq<nat>, rows: seq<Row>, n: nat, g: string)
    requires n < |rows| && PostingOk(list, rows, n, g)
    ensures g in Trigrams(rows[n].text) ==> PostingOk(list + [n], rows, n + 1, g)
    ensures g !in Trigrams(rows[n].text) ==> PostingOk(list, rows, n + 1, g)
  {
    if g in Trigrams(rows[n].text) {
      forall k: nat ensures k in list + [n] <==> k < n + 1 && g in Trigrams(rows[k].text) {
        assert k in list + [n] <==> k in list || k == n;
      }
      forall i, j | 0 <= i < j < |list + [n]| ensures (list + [n])[i] < (list + [n])[j] {
        assert list + [n] == list[..|list|] + [n];
        assert i < |list| && list[i] in list;
      }
    }
  }

  lemma {:induction false} RowDone(index: map<string, seq<nat>>, rows: seq<Row>, n: nat)
    requires n < |rows| && IndexOk(index, rows, n, Trigrams(rows[n].text))
    ensures IndexOk(index, rows, n + 1, {})
  {
    forall g: string ensures PostingOk(ListOf(index, g), rows, n + 1, g) {
      if g !in Trigrams(rows[n].text) {
        PostingGrows(ListOf(index, g), rows, n, g);
      }
    }
  }

  lemma {:induction false} GramAdded(index: map<string, seq<nat>>, rows: seq<Row>, n: nat, done: set<string>,
      gram: string)
    requires n < |rows| && IndexOk(index, rows, n, done)
    requires gram in Trigrams(rows[n].text) && gram !in done
    ensures IndexOk(index[gram := ListOf(index, gram) + [n]], rows, n, done + {gram})
  {
    var index' := index[gram := ListOf(index, gram) + [n]];
    PostingGrows(ListOf(index, gram), rows, n, gram);
    forall g: string
      ensures PostingOk(ListOf(index', g), rows, if g in done + {gram} then n + 1 else n, g)
    {
      assert PostingOk(ListOf(index, g), rows, if g in done then n + 1 else n, g);
    }
  }

  lemma {:induction false} EmptyIndex(rows: seq<Row>)
    ensures IndexOk(map[], rows, 0, {})
  {
  }

  /** The inverted index of one corpus. */
  method BuildPostings(rows: seq<Row>) returns (index: map<string, seq<nat>>)
    ensures IndexOk(index, rows, |rows|, {})
  {
    hide IndexOk, PostingOk, Trigrams;
    index := map[];
    EmptyIndex(rows);
    for n := 0 to |rows|
      invariant IndexOk(index, rows, n, {})
    {
      var all := Trigrams(rows[n].text);
      var grams := all;
      ghost var done := {};
      while grams != {}
        invariant done + grams == all && done !! grams
        invariant IndexOk(index, rows, n, done)
        decreases grams
      {
        var gram :| gram in grams;
        GramAdded(index, rows, n, done, gram);
        index := index[gram := ListOf(index, gram) + [n]];
        grams := grams - {gram};
        done := done + {gram};
      }
      assert done == all;
      RowDone(index, rows, n);
    }
  }

  ghost predicate FormalCandidate(formal: seq<Row>, c: (nat, nat)) {
    c.0 < c.1 < |formal| && ShareTrigram(formal[c.0].text, formal[c.1].text)
  }

  ghost predicate PilotCandidate(formal: seq<Row>, pilot: seq<Row>, c: (nat, nat)) {
    c.0 < |formal| && c.1 < |pilot| && ShareTrigram(formal[c.0].text, pilot[c.1].text)
  }

  /** The pairs that one posting list contributes. */
  method CandidatesOfList(list: seq<nat>, other: seq<nat>)
    returns (within: set<(nat, nat)>, across: set<(nat, nat)>)
    requires forall i, j :: 0 <= i < j < |list| ==> list[i] < list[j]
    ensures forall c :: c in within <==> c.0 in list && c.1 in list && c.0 < c.1
    ensures forall c :: c in across <==> c.0 in list && c.1 in other
  {
    within, across := {}, {};
    for offset := 0 to |list|
      invariant forall c :: c in within <==> c.0 in list[..offset] && c.1 in list && c.0 < c.1
      invariant forall c :: c in across <==> c.0 in list[..offset] && c.1 in other
    {
      var leftIndex := list[offset];
      assert list[..offset + 1] == list[..offset] + [leftIndex];
      ghost var within0, across0 := within, across;
      for k := offset + 1 to |list|
        invariant forall c :: c in within <==>
          c in within0 || (c.0 == leftIndex && c.1 in list[offset + 1..k])
      {
        assert list[offset + 1..k + 1] == list[offset + 1..k] + [list[k]];
        within := within + {(leftIndex, list[k])};
      }
      LaterIsLarger(list, offset);
      for k := 0 to |other|
        invariant forall c :: c in across <==> c in across0 || (c.0 == leftIndex && c.1 in other[..k])
      {
        assert other[..k + 1] == other[..k] + [other[k]];
        across := across + {(leftIndex, other[k])};
      }
      assert other[..|other|] == other;
    }
    assert list[..|list|] == list;
  }

  lemma {:induction false} LaterIsLarger(list: seq<nat>, offset: nat)
    requires forall i, j :: 0 <= i < j < |list| ==> list[i] < list[j]
    requires offset < |list|
    ensures forall x :: x in list[offset + 1..|list|] <==> x in list && list[offset] < x
  {
    forall x | x in list && list[offset] < x ensures x in list[offset + 1..|list|] {
      var k :| 0 <= k < |list| && list[k] == x;
      assert k > offset;
      assert list[offset + 1..|list|][k - offset - 1] == x;
    }
  }

  /** Candidate generation: exactly the index pairs whose texts share a 3-gram. */
  method Candidates(formal: seq<Row>, pilot: seq<Row>)
    returns (within: set<(nat, nat)>, across: set<(nat, nat)>)
    ensures forall c :: c in within <==> FormalCandidate(formal, c)
    ensures forall c :: c in across <==> PilotCandidate(formal, pilot, c)
  {
    hide SharedWithin, SharedAcross, FormalCandidate, PilotCandidate, PostingOk, Trigrams;
    var formalPostings := BuildPostings(formal);
    var pilotPostings := BuildPostings(pilot);
    within, across := {}, {};
    NothingShared(formal, pilot);
    var grams := formalPostings.Keys;
    ghost var done := {};
    while grams != {}
      invariant done + grams == formalPostings.Keys && done !! grams
      invariant forall c :: c in within <==> SharedWithin(formal, done, c)
      invariant forall c :: c in across <==> SharedAcross(formal, pilot, done, c)
      decreases grams
    {
      var gram :| gram in grams;
      assert PostingOk(ListOf(formalPostings, gram), formal, |formal|, gram);
      assert PostingOk(ListOf(pilotPostings, gram), pilot, |pilot|, gram);
      GramSearched(formal, pilot, done, gram, formalPostings[gram], ListOf(pilotPostings, gram));
      var w, a := CandidatesOfList(formalPostings[gram], ListOf(pilotPostings, gram));
      within, across := within + w, across + a;
      grams := grams - {gram};
      done := done + {gram};
    }
    AllGramsIndexed(formal, pilot, formalPostings);
  }

  ghost predicate SharedWithin(formal: seq<Row>, grams: set<string>, c: (nat, nat)) {
    && c.0 < c.1 < |formal|
    && exists g :: g in grams && g in Trigrams(formal[c.0].text) && g in Trigrams(formal[c.1].text)
  }

  ghost predicate SharedAcross(formal: seq<Row>, pilot: seq<Row>, grams: set<string>, c: (nat, nat)) {
    && c.0 < |formal| && c.1 < |pilot|
    && exists g :: g in grams && g in Trigrams(formal[c.0].text) && g in Trigrams(pilot[c.1].text)
  }

  lemma {:induction false} NothingShared(formal: seq<Row>, pilot: seq<Row>)
    ensures forall c :: !SharedWithin(formal, {}, c) && !SharedAcross(formal, pilot, {}, c)
  {
  }

  /** One more gram adds the pairs its posting lists hold. */
  lemma {:induction false} GramSearched(formal: seq<Row>, pilot: seq<Row>, done: set<string>, gram: string,
      list: seq<nat>, other: seq<nat>)
    requires PostingOk(list, formal, |formal|, gram) && PostingOk(other, pilot, |pilot|, gram)
    ensures forall i, j :: 0 <= i < j < |list| ==> list[i] < list[j]
    ensures forall c :: SharedWithin(formal, done + {gram}, c) <==>
      SharedWithin(formal, done, c) || (c.0 in list && c.1 in list && c.0 < c.1)
    ensures forall c :: SharedAcross(formal, pilot, done + {gram}, c) <==>
      SharedAcross(formal, pilot, done, c) || (c.0 in list && c.1 in other)
  {
    hide Trigrams;
  }

  /** Every 3-gram of a formal text is a key of the index, so the keys miss no shared gram. */
  lemma {:induction false} AllGramsIndexed(formal: seq<Row>, pilot: seq<Row>, index: map<string, seq<nat>>)
    requires IndexOk(index, formal, |formal|, {})
    ensures forall c :: SharedWithin(formal, index.Keys, c) <==> FormalCandidate(formal, c)
    ensures forall c :: SharedAcross(formal, pilot, index.Keys, c) <==> PilotCandidate(formal, pilot, c)
  {
    forall k: nat, g | k < |formal| && g in Trigrams(formal[k].text) ensures g in index.Keys {
      assert PostingOk(ListOf(index, g), formal, |formal|, g);
    }
    forall c: (nat, nat) ensures SharedWithin(formal, index.Keys, c) <==> FormalCandidate(formal, c) {
      if FormalCandidate(formal, c) {
        var g :| g in Trigrams(formal[c.0].text) * Trigrams(formal[c.1].text);
      }
    }
    forall c: (nat, nat) ensures SharedAcross(formal, pilot, index.Keys, c) <==> PilotCandidate(formal, pilot, c) {
      if PilotCandidate(formal, pilot, c) {
        var g :| g in Trigrams(formal[c.0].text) * Trigrams(pilot[c.1].text);
      }
    }
  }

  /** One comparison, with the length filter in front of the expensive metric. */
  method Consider(left: Row, right: Row, scope: Scope, pairs: seq<Pair>) returns (extended: seq<Pair>)
    ensures extended == pairs + Report(left, right, scope)
  {
    var jaccard := Jaccard(left.text, right.text);
    var maximumLength := Max(|left.text|, |right.text|);
    var maximumPossible :=
      if maximumLength == 0 then FULL
      else Min(|left.text|, |right.text|) * FULL / maximumLength;
    if jaccard < JACCARD_THRESHOLD && maximumPossible < LEVENSHTEIN_THRESHOLD {
      LengthFilter(left.text, right.text);
      return pairs;
    }
    var levenshtein := LevenshteinSimilarity(left.text, right.text);
    if jaccard < JACCARD_THRESHOLD && levenshtein < LEVENSHTEIN_THRESHOLD {
      return pairs;
    }
    extended := pairs + [Pair(Ids(left, right), scope, jaccard, levenshtein)];
  }

  method ConsiderAll(left: seq<Row>, right: seq<Row>, scope: Scope, at: seq<(nat, nat)>, pairs: seq<Pair>)
    returns (extended: seq<Pair>)
    requires forall c :: c in at ==> c.0 < |left| && c.1 < |right|
    ensures extended == pairs + ReportAll(left, right, scope, at)
  {
    extended := pairs;
    for k := 0 to |at|
      invariant extended == pairs + ReportAll(left, right, scope, at[..k])
    {
      assert at[..k + 1][..k] == at[..k];
      extended := Consider(left[at[k].0], right[at[k].1], scope, extended);
    }
    assert at[..|at|] == at;
  }

  /** Restricting the comparison to index candidates changes nothing. */
  lemma {:induction false} IndexedIsAllPairs(
      formal: seq<Row>, right: seq<Row>, scope: Scope, upper: bool, candidates: seq<(nat, nat)>)
    requires forall r :: r in formal ==> r.text != ""
    requires StrictlySorted(candidates)
    requires forall c :: c in candidates <==>
      c.0 < |formal| && c.1 < |right| && (upper ==> c.0 < c.1) && ShareTrigram(formal[c.0].text, right[c.1].text)
    requires forall c :: c in Grid(|formal|, |right|, upper) ==> c.0 < |formal| && c.1 < |right|
    ensures ReportAll(formal, right, scope, candidates)
         == ReportAll(formal, right, scope, Grid(|formal|, |right|, upper))
  {
    var grid := Grid(|formal|, |right|, upper);
    GridElements(|formal|, |right|, upper);
    forall c | c in grid && c !in candidates ensures Report(formal[c.0], right[c.1], scope) == [] {
      assert formal[c.0] in formal;
      if Near(formal[c.0].text, right[c.1].text) {
        NearTextsShareTrigram(formal[c.0].text, right[c.1].text);
      }
    }
    SelectionSuffices(formal, right, scope, candidates, grid);
  }

  /** The search. It fails exactly when a formal text is empty, and otherwise returns what a
      comparison of all pairs returns, in report order. */
  method FindNearDuplicatePairs(formalRows: seq<Row>, pilotRows: seq<Row>, nearText: string -> string)
    returns (result: Result<seq<Pair>>)
    ensures result.Err? <==> exists k :: 0 <= k < |formalRows| && nearText(formalRows[k].text) == ""
    ensures result.Ok? ==>
      result.value == SortPairs(AllPairs(Normalized("", formalRows, nearText),
                                         Normalized(PILOT_PREFIX, pilotRows, nearText)))
  {
    hide SortPairs, ReportAll, Grid, ShareTrigram, StrictlySorted;
    var formal := Normalized("", formalRows, nearText);
    var pilot := Normalized(PILOT_PREFIX, pilotRows, nearText);
    if exists k :: 0 <= k < |formal| && formal[k].text == "" {
      return Err("formal reading becomes empty under near-duplicate normalization");
    }
    var within, across := Candidates(formal, pilot);
    var sortedWithin := SortIndexPairs(within);
    var sortedAcross := SortIndexPairs(across);
    var pairs := ConsiderAll(formal, formal, FormalV2, sortedWithin, []);
    pairs := ConsiderAll(formal, pilot, PilotV1ToFormalV2, sortedAcross, pairs);
    GridElements(|formal|, |formal|, true);
    GridElements(|formal|, |pilot|, false);
    IndexedIsAllPairs(formal, formal, FormalV2, true, sortedWithin);
    IndexedIsAllPairs(formal, pilot, PilotV1ToFormalV2, false, sortedAcross);
    assert pairs == AllPairs(formal, pilot);
    result := Ok(SortPairs(pairs));
  }

  const PILOT_PREFIX := "pilot-v1:"

  function Normalized(prefix: string, rows: seq<Row>, nearText: string -> string): (r: seq<Row>)
    ensures |r| == |rows|
    ensures forall k :: 0 <= k < |rows| ==> r[k] == Row(prefix + rows[k].id, nearText(rows[k].text))
  {
    seq(|rows|, k requires 0 <= k < |rows| => Row(prefix + rows[k].id, nearText(rows[k].text)))
  }

  // ------------------------------------------------------------ report order

  function ScopeRank(s: Scope): nat {
    if s.FormalV2? then 0 else 1
  }

  /** The sort key: scope, then the sorted pair of identifiers. */
  predicate PairLe(a: Pair, b: Pair) {
    if a.scope != b.scope then ScopeRank(a.scope) < ScopeRank(b.scope)
    else if a.caseIds.0 != b.caseIds.0 then StringLe(a.caseIds.0, b.caseIds.0)
    else StringLe(a.caseIds.1, b.caseIds.1)
  }

  /** Stable insertion: after every record that is not greater. */
  function Insert(p: Pair, sorted: seq<Pair>): seq<Pair> {
    if sorted == [] then [p]
    else if PairLe(sorted[|sorted| - 1], p) then sorted + [p]
    else Insert(p, sorted[..|sorted| - 1]) + [sorted[|sorted| - 1]]
  }

  function SortPairs(pairs: seq<Pair>): seq<Pair> {
    if pairs == [] then []
    else Insert(pairs[|pairs| - 1], SortPairs(pairs[..|pairs| - 1]))
  }

  ghost predicate Ordered(s: seq<Pair>) {
    forall i, j :: 0 <= i < j < |s| ==> PairLe(s[i], s[j])
  }

  lemma {:induction false} PairLeTotal(a: Pair, b: Pair)
    ensures PairLe(a, b) || PairLe(b, a)
  {
    StringLeTotal(a.caseIds.0, b.caseIds.0);
    StringLeTotal(a.caseIds.1, b.caseIds.1);
  }

  lemma {:induction false} PairLeTransitive(a: Pair, b: Pair, c: Pair)
    requires PairLe(a, b) && PairLe(b, c)
    ensures PairLe(a, c)
  {
    if a.scope == b.scope == c.scope {
      if a.caseIds.0 != b.caseIds.0 && b.caseIds.0 != c.caseIds.0 {
        StringLeTransitive(a.caseIds.0, b.caseIds.0, c.caseIds.0);
        StringLeTotal(a.caseIds.0, b.caseIds.0);
      } else if a.caseIds.0 == b.caseIds.0 == c.caseIds.0 {
        StringLeTransitive(a.caseIds.1, b.caseIds.1, c.caseIds.1);
      }
    }
  }

  lemma {:induction false} InsertPermutes(p: Pair, sorted: seq<Pair>)
    ensures multiset(Insert(p, sorted)) == multiset(sorted) + multiset{p}
    decreases |sorted|
  {
    hide PairLe;
    if sorted != [] {
      var n := |sorted| - 1;
      assert sorted == sorted[..n] + [sorted[n]];
      InsertPermutes(p, sorted[..n]);
    }
  }

  lemma {:induction false} InsertElements(p: Pair, sorted: seq<Pair>, x: Pair)
    ensures x in Insert(p, sorted) <==> x in sorted || x == p
    decreases |sorted|
  {
    hide PairLe;
    if sorted != [] {
      var n := |sorted| - 1;
      assert x in sorted <==> x in sorted[..n] || x == sorted[n];
      InsertElements(p, sorted[..n], x);
    }
  }

  lemma {:induction false} InsertOrders(p: Pair, sorted: seq<Pair>)
    requires Ordered(sorted)
    ensures Ordered(Insert(p, sorted))
    decreases |sorted|
  {
    hide PairLe;
    if sorted != [] {
      var n := |sorted| - 1;
      var last, front := sorted[n], sorted[..n];
      if PairLe(last, p) {
        forall i | 0 <= i < n ensures PairLe(sorted[i], p) {
          PairLeTransitive(sorted[i], last, p);
        }
      } else {
        PairLeTotal(last, p);
        InsertOrders(p, front);
        forall i | 0 <= i < |Insert(p, front)| ensures PairLe(Insert(p, front)[i], last) {
          InsertElements(p, front, Insert(p, front)[i]);
        }
      }
    }
  }

  lemma {:induction false} SortPairsPermutes(pairs: seq<Pair>)
    ensures multiset(SortPairs(pairs)) == multiset(pairs)
  {
    if pairs != [] {
      var n := |pairs| - 1;
      SortPairsPermutes(pairs[..n]);
      assert pairs == pairs[..n] + [pairs[n]];
      InsertPermutes(pairs[n], SortPairs(pairs[..n]));
      hide Insert;
    }
  }

  /** The report is ordered by scope and identifiers and is a permutation of the reports made. */
  lemma {:induction false} SortPairsOrders(pairs: seq<Pair>)
    ensures Ordered(SortPairs(pairs))
    ensures multiset(SortPairs(pairs)) == multiset(pairs)
  {
    SortPairsPermutes(pairs);
    hide PairLe, Insert;
    if pairs != [] {
      var n := |pairs| - 1;
      SortPairsOrders(pairs[..n]);
      InsertOrders(pairs[n], SortPairs(pairs[..n]));
      hide Ordered;
    }
  }
}
