/** Conversion quality reports and the validator every consumer applies to them
    (tools/dictionary/compare_conversion_quality.py:52-252). Rates are exact rationals. */
module ConversionReports {
  import opened Results
  import opened Sequences

  datatype CaseReport = CaseReport(
    id: string, category: string, reading: string, expected: seq<string>, observed: seq<string>,
    top1: bool, topKHit: Option<bool>)

  datatype CategoryReport = CategoryReport(
    total: nat, top1: nat, top1Rate: real, topK: Option<nat>, topKRate: Option<real>)

  datatype Report = Report(
    topK: nat, corpusCases: nat, evaluatedCases: nat, missingResults: seq<string>,
    top1Hits: nat, top1Rate: real, topKHits: Option<nat>, topKRate: Option<real>,
    byCategory: map<string, CategoryReport>, cases: seq<CaseReport>)

  /** The 1-based position of the first expected candidate. */
  function ExpectedRank(expected: seq<string>, observed: seq<string>): (rank: Option<nat>)
    ensures rank.None? <==> forall c :: c in observed ==> c !in expected
    ensures rank.Some? ==> 1 <= rank.value <= |observed| && observed[rank.value - 1] in expected
    ensures rank.Some? ==> forall k :: 0 <= k < rank.value - 1 ==> observed[k] !in expected
  {
    if observed == [] then None
    else if observed[0] in expected then Some(1)
    else
      match ExpectedRank(expected, observed[1..])
      case None => None
      case Some(rank) =>
        assert forall k :: 1 <= k < rank ==> observed[k] == observed[1..][k - 1];
        Some(rank + 1)
  }

  function RankOf(c: CaseReport): Option<nat> {
    ExpectedRank(c.expected, c.observed)
  }

  // ----------------------------------------------------------------------- tallies

  datatype Metric = Total | Top1 | TopK

  /** One case as the totals see it. */
  datatype Score = Score(category: string, top1: bool, topK: bool)

  function ScoreOf(c: CaseReport): Score {
    Score(c.category, RankOf(c) == Some(1), RankOf(c).Some?)
  }

  function Scores(cases: seq<CaseReport>): (scores: seq<Score>)
    ensures |scores| == |cases| && forall k :: 0 <= k < |cases| ==> scores[k] == ScoreOf(cases[k])
  {
    seq(|cases|, k requires 0 <= k < |cases| => ScoreOf(cases[k]))
  }

  function Point(s: Score, metric: Metric): nat {
    match metric
    case Total => 1
    case Top1 => if s.top1 then 1 else 0
    case TopK => if s.topK then 1 else 0
  }

  /** Over all cases, or those of one category. */
  function Tally(scores: seq<Score>, metric: Metric, within: Option<string>): nat {
    if scores == [] then 0
    else
      var last := scores[|scores| - 1];
      Tally(scores[..|scores| - 1], metric, within)
      + if within == None || within == Some(last.category) then Point(last, metric) else 0
  }

  lemma {:induction false} TallyNext(scores: seq<Score>, s: Score, metric: Metric, within: Option<string>)
    ensures Tally(scores + [s], metric, within)
      == Tally(scores, metric, within) + if within == None || within == Some(s.category) then Point(s, metric) else 0
  {
    assert (scores + [s])[..|scores|] == scores;
  }

  lemma {:induction false} TallyBounds(scores: seq<Score>, within: Option<string>)
    ensures Tally(scores, Top1, within) <= Tally(scores, Total, within) <= |scores|
    ensures Tally(scores, TopK, within) <= Tally(scores, Total, within)
    ensures within == None ==> Tally(scores, Total, within) == |scores|
  {
    if scores != [] { TallyBounds(scores[..|scores| - 1], within); }
  }

  ghost function Categories(scores: seq<Score>): set<string> {
    set s | s in scores :: s.category
  }

  lemma {:induction false} CategoryCounted(scores: seq<Score>, category: string)
    ensures category in Categories(scores) <==> Tally(scores, Total, Some(category)) > 0
  {
    if scores != [] {
      var front, last := scores[..|scores| - 1], scores[|scores| - 1];
      CategoryCounted(front, category);
      assert scores == front + [last];
      assert Categories(scores) == Categories(front) + {last.category};
    }
  }

  // -------------------------------------------------------------------- validation

  function Rate(hits: nat, total: nat): real
    requires total > 0
  {
    hits as real / total as real
  }

  const Tolerance: real := 0.000000000001

  predicate RateOk(rate: real, expected: real) {
    0.0 <= rate <= 1.0 && -Tolerance <= rate - expected <= Tolerance
  }

  predicate CaseValid(c: CaseReport, topK: nat) {
    && c.id != "" && c.category != "" && c.reading != ""
    && c.expected != [] && "" !in c.expected && NoRepeats(c.expected)
    && "" !in c.observed && |c.observed| <= topK
    && c.top1 == (RankOf(c) == Some(1))
    && (topK != 1 ==> c.topKHit == Some(RankOf(c).Some?))
  }

  predicate DistinctIDs(cases: seq<CaseReport>) {
    forall i, j :: 0 <= i < j < |cases| ==> cases[i].id != cases[j].id
  }

  predicate TotalsOk(r: Report, scores: seq<Score>)
    requires scores != []
  {
    && r.top1Hits == Tally(scores, Top1, None)
    && RateOk(r.top1Rate, Rate(Tally(scores, Top1, None), |scores|))
    && (r.topK != 1 ==>
          && r.topKHits == Some(Tally(scores, TopK, None))
          && r.topKRate.Some? && RateOk(r.topKRate.value, Rate(Tally(scores, TopK, None), |scores|)))
  }

  predicate CategoryOk(values: CategoryReport, topK: nat, total: nat, top1: nat, topKHits: nat)
    requires total > 0
  {
    && values.total == total && values.top1 == top1
    && RateOk(values.top1Rate, Rate(top1, total))
    && (topK != 1 ==>
          && values.topK == Some(topKHits)
          && values.topKRate.Some? && RateOk(values.topKRate.value, Rate(topKHits, total)))
  }

  ghost predicate CategoriesOk(r: Report, scores: seq<Score>) {
    && r.byCategory.Keys == Categories(scores)
    && forall category :: category in r.byCategory ==> CategoryFits(r, scores, category)
  }

  ghost predicate CategoryFits(r: Report, scores: seq<Score>, category: string)
    requires category in r.byCategory
  {
    var within := Some(category);
    && Tally(scores, Total, within) > 0
    && CategoryOk(r.byCategory[category], r.topK, Tally(scores, Total, within),
                  Tally(scores, Top1, within), Tally(scores, TopK, within))
  }

  /** A complete report whose every number follows from its cases. */
  ghost predicate Valid(r: Report) {
    && r.topK >= 1 && r.missingResults == [] && r.cases != []
    && r.corpusCases == |r.cases| && r.evaluatedCases == |r.cases|
    && DistinctIDs(r.cases)
    && (forall k :: 0 <= k < |r.cases| ==> CaseValid(r.cases[k], r.topK))
    && TotalsOk(r, Scores(r.cases))
    && CategoriesOk(r, Scores(r.cases))
  }

  // ------------------------------------------------------------------ the validator

  datatype Counters = Counters(total: nat, top1: nat, topK: nat)

  function CountersOf(scores: seq<Score>, within: Option<string>): Counters {
    Counters(Tally(scores, Total, within), Tally(scores, Top1, within), Tally(scores, TopK, within))
  }

  function Add(counters: Counters, s: Score): Counters {
    Counters(counters.total + 1, counters.top1 + Point(s, Top1), counters.topK + Point(s, TopK))
  }

  lemma {:induction false} CountersNext(scores: seq<Score>, s: Score, within: Option<string>)
    ensures CountersOf(scores + [s], within)
      == if within == None || within == Some(s.category) then Add(CountersOf(scores, within), s)
         else CountersOf(scores, within)
  {
    hide Tally;
    TallyNext(scores, s, Total, within);
    TallyNext(scores, s, Top1, within);
    TallyNext(scores, s, TopK, within);
  }

  /** `by_category` of a loop that has read these scores. */
  ghost predicate Grouped(byCategory: map<string, Counters>, scores: seq<Score>) {
    && byCategory.Keys == Categories(scores)
    && forall category :: category in byCategory ==> byCategory[category] == CountersOf(scores, Some(category))
  }

  /** `setdefault` and the three increments. */
  function CountIn(byCategory: map<string, Counters>, s: Score): map<string, Counters> {
    var before := if s.category in byCategory then byCategory[s.category] else Counters(0, 0, 0);
    byCategory[s.category := Add(before, s)]
  }

  lemma {:induction false} GroupedNext(byCategory: map<string, Counters>, scores: seq<Score>, s: Score)
    requires Grouped(byCategory, scores)
    ensures Grouped(CountIn(byCategory, s), scores + [s])
  {
    hide CountersOf;
    var next := CountIn(byCategory, s);
    assert Categories(scores + [s]) == Categories(scores) + {s.category};
    forall category | category in next ensures next[category] == CountersOf(scores + [s], Some(category)) {
      CountersNext(scores, s, Some(category));
      if category !in byCategory { Uncounted(scores, category); }
    }
  }

  lemma {:induction false} Uncounted(scores: seq<Score>, category: string)
    requires category !in Categories(scores)
    ensures CountersOf(scores, Some(category)) == Counters(0, 0, 0)
  {
    CategoryCounted(scores, category);
    TallyBounds(scores, Some(category));
  }

  lemma {:induction false} ScoresNext(cases: seq<CaseReport>, n: nat)
    requires n < |cases|
    ensures Scores(cases[..n + 1]) == Scores(cases[..n]) + [ScoreOf(cases[n])]
  {
  }

  /** The cases one by one: their own checks, and the counts the totals are compared with. */
  method ValidateCases(cases: seq<CaseReport>, topK: nat)
    returns (ok: bool, overall: Counters, byCategory: map<string, Counters>)
    ensures ok <==> DistinctIDs(cases) && forall k :: 0 <= k < |cases| ==> CaseValid(cases[k], topK)
    ensures ok ==> overall == CountersOf(Scores(cases), None) && Grouped(byCategory, Scores(cases))
  {
    hide CaseValid, Tally, Grouped, CountIn, ExpectedRank;
    ok, overall, byCategory := true, Counters(0, 0, 0), map[];
    var seenIDs: set<string> := {};
    NothingGrouped();
    for n := 0 to |cases|
      invariant ok && DistinctIDs(cases[..n]) && forall k :: 0 <= k < n ==> CaseValid(cases[k], topK)
      invariant seenIDs == set c | c in cases[..n] :: c.id
      invariant overall == CountersOf(Scores(cases[..n]), None) && Grouped(byCategory, Scores(cases[..n]))
    {
      hide CountersOf, Add, Scores, ScoreOf;
      var c := cases[n];
      if c.id in seenIDs || !CaseValid(c, topK) {
        ok := false;
        Repeated(cases, n);
        return;
      }
      assert cases[..n + 1] == cases[..n] + [c];
      seenIDs := seenIDs + {c.id};
      ScoresNext(cases, n);
      CountersNext(Scores(cases[..n]), ScoreOf(c), None);
      GroupedNext(byCategory, Scores(cases[..n]), ScoreOf(c));
      overall, byCategory := Add(overall, ScoreOf(c)), CountIn(byCategory, ScoreOf(c));
    }
    assert cases[..|cases|] == cases;
  }

  lemma {:induction false} NothingGrouped()
    ensures Grouped(map[], Scores([])) && CountersOf(Scores([]), None) == Counters(0, 0, 0)
  {
    assert Scores([]) == [];
  }

  lemma {:induction false} Repeated(cases: seq<CaseReport>, n: nat)
    requires n < |cases|
    ensures (exists c :: c in cases[..n] && c.id == cases[n].id) ==> !DistinctIDs(cases)
  {
    if c :| c in cases[..n] && c.id == cases[n].id {
      var k :| 0 <= k < n && cases[k] == c;
    }
  }

  /** The validator accepts exactly the reports whose every number follows from their cases. */
  method ValidateReport(r: Report) returns (ok: bool)
    ensures ok <==> Valid(r)
  {
    hide Tally, CaseValid, CategoryOk, RateOk;
    if r.topK < 1 || r.missingResults != [] || r.cases == [] || r.corpusCases != |r.cases|
       || r.evaluatedCases != |r.cases| {
      return false;
    }
    var overall, byCategory;
    ok, overall, byCategory := ValidateCases(r.cases, r.topK);
    if !ok { return; }
    ghost var scores := Scores(r.cases);
    if r.top1Hits != overall.top1 || !RateOk(r.top1Rate, Rate(overall.top1, |r.cases|))
       || (r.topK != 1 && (r.topKHits != Some(overall.topK) || r.topKRate.None?
            || !RateOk(r.topKRate.value, Rate(overall.topK, |r.cases|)))) {
      return false;
    }
    if r.byCategory.Keys != byCategory.Keys {
      return false;
    }
    var categories := byCategory.Keys;
    ghost var checked: set<string> := {};
    while categories != {}
      invariant checked + categories == byCategory.Keys
      invariant forall category :: category in checked ==> CategoryFits(r, scores, category)
    {
      var category :| category in categories;
      var counters := byCategory[category];
      CategoryCounted(scores, category);
      if !CategoryOk(r.byCategory[category], r.topK, counters.total, counters.top1, counters.topK) {
        return false;
      }
      checked := checked + {category};
      categories := categories - {category};
    }
  }
}
