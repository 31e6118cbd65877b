/** The comparison of two conversion quality reports on the same corpus
    (tools/dictionary/compare_conversion_quality.py:255-354). Backend names come stripped. */
module ReportComparison {
  import opened Results
  import opened ConversionReports

  datatype Winner = A | B | Tie

  function WinnerOf(a: Option<nat>, b: Option<nat>): Winner {
    if a.None? && b.None? then Tie
    else if a.None? then B
    else if b.None? then A
    else if a.value < b.value then A
    else if b.value < a.value then B
    else Tie
  }

  datatype CaseComparison = CaseComparison(
    id: string, a: CaseReport, b: CaseReport, winner: Winner, rankDelta: Option<int>)

  datatype Metrics = Metrics(top1Hits: int, top1Rate: real, topKHits: int, topKRate: real)

  datatype Comparison = Comparison(
    topK: nat, aName: string, bName: string, aMetrics: Metrics, bMetrics: Metrics, delta: Metrics,
    aWins: nat, bWins: nat, ties: nat, cases: seq<CaseComparison>)

  function CompareCase(a: CaseReport, b: CaseReport): CaseComparison {
    var aRank, bRank := RankOf(a), RankOf(b);
    CaseComparison(a.id, a, b, WinnerOf(aRank, bRank),
                   if aRank.Some? && bRank.Some? then Some(bRank.value - aRank.value) else None)
  }

  function CompareCases(a: seq<CaseReport>, b: seq<CaseReport>): (cases: seq<CaseComparison>)
    requires |a| == |b|
    ensures |cases| == |a| && forall k :: 0 <= k < |a| ==> cases[k] == CompareCase(a[k], b[k])
  {
    seq(|a|, k requires 0 <= k < |a| => CompareCase(a[k], b[k]))
  }

  function Wins(cases: seq<CaseComparison>, winner: Winner): nat {
    if cases == [] then 0
    else Wins(cases[..|cases| - 1], winner) + if cases[|cases| - 1].winner == winner then 1 else 0
  }

  function MetricsOf(cases: seq<CaseReport>): Metrics
    requires cases != []
  {
    var top1, topK := Tally(Scores(cases), Top1, None), Tally(Scores(cases), TopK, None);
    Metrics(top1, Rate(top1, |cases|), topK, Rate(topK, |cases|))
  }

  function Minus(m: Metrics, n: Metrics): Metrics {
    Metrics(m.top1Hits - n.top1Hits, m.top1Rate - n.top1Rate, m.topKHits - n.topKHits, m.topKRate - n.topKRate)
  }

  function Negated(m: Metrics): Metrics {
    Metrics(-m.top1Hits, -m.top1Rate, -m.topKHits, -m.topKRate)
  }

  predicate SameCase(a: CaseReport, b: CaseReport) {
    a.id == b.id && a.category == b.category && a.reading == b.reading && a.expected == b.expected
  }

  /** Two valid reports on the same cases in the same order. */
  ghost predicate Comparable(a: Report, b: Report) {
    && Valid(a) && Valid(b) && a.topK == b.topK && |a.cases| == |b.cases|
    && forall k :: 0 <= k < |a.cases| ==> SameCase(a.cases[k], b.cases[k])
  }

  function ComparisonOf(a: Report, b: Report, aName: string, bName: string): Comparison
    requires |a.cases| == |b.cases| > 0
  {
    var cases := CompareCases(a.cases, b.cases);
    var aMetrics, bMetrics := MetricsOf(a.cases), MetricsOf(b.cases);
    Comparison(a.topK, aName, bName, aMetrics, bMetrics, Minus(bMetrics, aMetrics),
               Wins(cases, A), Wins(cases, B), Wins(cases, Tie), cases)
  }

  method CompareReports(a: Report, b: Report, aName: string, bName: string) returns (r: Result<Comparison>)
    ensures r.Ok? <==> aName != "" && bName != "" && aName != bName && Comparable(a, b)
    ensures r.Ok? ==> r.value == ComparisonOf(a, b, aName, bName)
  {
    hide Valid, CompareCases, Wins, MetricsOf, Minus;
    if aName == "" || bName == "" || aName == bName {
      return Err("names must be non-empty and distinct");
    }
    var aOk := ValidateReport(a);
    if !aOk { return Err("a_report is invalid"); }
    var bOk := ValidateReport(b);
    if !bOk { return Err("b_report is invalid"); }
    if a.topK != b.topK { return Err("report top_k is inconsistent"); }
    if |a.cases| != |b.cases| { return Err("report case ids are inconsistent"); }
    for n := 0 to |a.cases|
      invariant forall k :: 0 <= k < n ==> a.cases[k].id == b.cases[k].id
    {
      if a.cases[n].id != b.cases[n].id { return Err("report case ids are inconsistent"); }
    }
    var same, cases, aWins, bWins, ties := CompareEach(a.cases, b.cases);
    if !same { return Err("case is inconsistent"); }
    ValidIsNotEmpty(a);
    var aMetrics, bMetrics := MetricsOf(a.cases), MetricsOf(b.cases);
    r := Ok(Comparison(a.topK, aName, bName, aMetrics, bMetrics, Minus(bMetrics, aMetrics), aWins, bWins, ties, cases));
  }

  lemma {:induction false} ValidIsNotEmpty(r: Report)
    requires Valid(r)
    ensures r.cases != []
  {
  }

  method CompareEach(a: seq<CaseReport>, b: seq<CaseReport>)
    returns (same: bool, cases: seq<CaseComparison>, aWins: nat, bWins: nat, ties: nat)
    requires |a| == |b|
    ensures same <==> forall k :: 0 <= k < |a| ==> SameCase(a[k], b[k])
    ensures same ==> cases == CompareCases(a, b)
    ensures same ==> aWins == Wins(cases, A) && bWins == Wins(cases, B) && ties == Wins(cases, Tie)
  {
    hide CompareCase;
    same, cases, aWins, bWins, ties := true, [], 0, 0, 0;
    for n := 0 to |a|
      invariant same && forall k :: 0 <= k < n ==> SameCase(a[k], b[k])
      invariant |cases| == n && forall k :: 0 <= k < n ==> cases[k] == CompareCase(a[k], b[k])
      invariant aWins == Wins(cases, A) && bWins == Wins(cases, B) && ties == Wins(cases, Tie)
    {
      if !SameCase(a[n], b[n]) {
        same := false;
        return;
      }
      var c := CompareCase(a[n], b[n]);
      match c.winner {
        case A => aWins := aWins + 1;
        case B => bWins := bWins + 1;
        case Tie => ties := ties + 1;
      }
      assert (cases + [c])[..n] == cases;
      cases := cases + [c];
    }
  }

  // ------------------------------------------------------------------ what it means

  /** Lower is better, and any rank is better than none. */
  predicate Better(a: Option<nat>, b: Option<nat>) {
    a.Some? && (b.None? || a.value < b.value)
  }

  lemma {:induction false} WinnerRanksBetter(a: Option<nat>, b: Option<nat>)
    ensures WinnerOf(a, b) == A <==> Better(a, b)
    ensures WinnerOf(a, b) == B <==> Better(b, a)
    ensures WinnerOf(a, b) == Tie <==> a == b
  {
  }

  /** Every case is won once or tied. */
  lemma {:induction false} WinsPartition(cases: seq<CaseComparison>)
    ensures Wins(cases, A) + Wins(cases, B) + Wins(cases, Tie) == |cases|
  {
    if cases != [] { WinsPartition(cases[..|cases| - 1]); }
  }

  function SwapWinner(w: Winner): Winner {
    match w
    case A => B
    case B => A
    case Tie => Tie
  }

  function SwapCase(c: CaseComparison): CaseComparison {
    CaseComparison(c.b.id, c.b, c.a, SwapWinner(c.winner), if c.rankDelta.Some? then Some(-c.rankDelta.value) else None)
  }

  lemma {:induction false} SwappedWins(cases: seq<CaseComparison>, swapped: seq<CaseComparison>, w: Winner)
    requires |swapped| == |cases| && forall k :: 0 <= k < |cases| ==> swapped[k] == SwapCase(cases[k])
    ensures Wins(swapped, SwapWinner(w)) == Wins(cases, w)
  {
    if cases != [] { SwappedWins(cases[..|cases| - 1], swapped[..|cases| - 1], w); }
  }

  /** Swapping the reports is allowed exactly when comparing them is, and it swaps the wins, keeps the
      ties and negates every delta. */
  lemma {:induction false} SwapReports(a: Report, b: Report, aName: string, bName: string)
    ensures Comparable(a, b) <==> Comparable(b, a)
    ensures Comparable(a, b) ==>
      var c, swapped := ComparisonOf(a, b, aName, bName), ComparisonOf(b, a, bName, aName);
      && swapped.aWins == c.bWins && swapped.bWins == c.aWins && swapped.ties == c.ties
      && swapped.delta == Negated(c.delta) && swapped.aMetrics == c.bMetrics && swapped.bMetrics == c.aMetrics
      && |swapped.cases| == |c.cases| && forall k :: 0 <= k < |c.cases| ==> swapped.cases[k] == SwapCase(c.cases[k])
  {
    hide Valid, Wins, MetricsOf;
    if |a.cases| == |b.cases| {
      var cases, swapped := CompareCases(a.cases, b.cases), CompareCases(b.cases, a.cases);
      SwappedWins(cases, swapped, A);
      SwappedWins(cases, swapped, B);
      SwappedWins(cases, swapped, Tie);
    }
  }

  /** A hit one backend has over the other is a case it wins, so no delta exceeds the wins. */
  lemma {:induction false} DeltaWithinWins(a: seq<CaseReport>, b: seq<CaseReport>, metric: Metric)
    requires |a| == |b|
    ensures Tally(Scores(b), metric, None) - Tally(Scores(a), metric, None) <= Wins(CompareCases(a, b), B)
    ensures Tally(Scores(a), metric, None) - Tally(Scores(b), metric, None) <= Wins(CompareCases(a, b), A)
  {
    if a != [] {
      var n := |a| - 1;
      DeltaWithinWins(a[..n], b[..n], metric);
      assert Scores(a)[..n] == Scores(a[..n]) && Scores(b)[..n] == Scores(b[..n]);
      assert CompareCases(a, b)[..n] == CompareCases(a[..n], b[..n]);
      WinnerRanksBetter(RankOf(a[n]), RankOf(b[n]));
      hide ExpectedRank;
    }
  }
}
