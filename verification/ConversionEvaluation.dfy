/** The evaluator that produces conversion quality reports, and when the validator accepts them
    (tools/dictionary/evaluate_conversion_quality.py:94-156). */
module ConversionEvaluation {
  import opened Results
  import opened Sequences
  import opened ConversionReports
  import Tsv = CorpusTsv

  type Row = Tsv.Row

  function NonEmpty(s: seq<string>): (r: seq<string>)
    ensures "" !in r && forall v :: v in r <==> v in s && v != ""
  {
    if s == [] then [] else (if s[0] == "" then [] else [s[0]]) + NonEmpty(s[1..])
  }

  function Alternatives(row: Row): seq<string> {
    NonEmpty(Tsv.Split(row.expected, '|'))
  }

  /** The case of a row that has a result. */
  function CaseOf(row: Row, result: seq<string>, topK: nat): CaseReport {
    var expected, observed := Alternatives(row), TakeUpTo(result, topK);
    CaseReport(row.id, row.category, row.reading, expected, observed,
               result != [] && result[0] in expected,
               if topK == 1 then None else Some(exists v :: v in observed && v in expected))
  }

  function Evaluated(corpus: seq<Row>, results: map<string, seq<string>>, topK: nat): seq<CaseReport> {
    if corpus == [] then []
    else
      var last := corpus[|corpus| - 1];
      Evaluated(corpus[..|corpus| - 1], results, topK)
      + if last.id in results then [CaseOf(last, results[last.id], topK)] else []
  }

  function Missing(corpus: seq<Row>, results: map<string, seq<string>>): seq<string> {
    if corpus == [] then []
    else
      var last := corpus[|corpus| - 1];
      Missing(corpus[..|corpus| - 1], results) + if last.id in results then [] else [last.id]
  }

  /** The flags the evaluator wrote; with a window of one, both hits are the same. */
  function Flags(c: CaseReport): Score {
    Score(c.category, c.top1, if c.topKHit.Some? then c.topKHit.value else c.top1)
  }

  function AllFlags(cases: seq<CaseReport>): (scores: seq<Score>)
    ensures |scores| == |cases| && forall k :: 0 <= k < |cases| ==> scores[k] == Flags(cases[k])
  {
    seq(|cases|, k requires 0 <= k < |cases| => Flags(cases[k]))
  }

  function RateOrZero(hits: nat, total: nat): real {
    if total == 0 then 0.0 else Rate(hits, total)
  }

  function Summarize(counters: Counters, topK: nat): CategoryReport {
    CategoryReport(counters.total, counters.top1, RateOrZero(counters.top1, counters.total),
                   if topK == 1 then None else Some(counters.topK),
                   if topK == 1 then None else Some(RateOrZero(counters.topK, counters.total)))
  }

  /** The report on these cases. */
  ghost function ReportOn(cases: seq<CaseReport>, missing: seq<string>, corpusCases: nat, topK: nat): Report {
    var scores := AllFlags(cases);
    var overall := Summarize(CountersOf(scores, None), topK);
    Report(topK, corpusCases, |cases|, missing, overall.top1, overall.top1Rate, overall.topK, overall.topKRate,
           map category | category in Categories(scores) :: Summarize(CountersOf(scores, Some(category)), topK), cases)
  }

  lemma {:induction false} FlagsNext(cases: seq<CaseReport>, c: CaseReport)
    ensures AllFlags(cases + [c]) == AllFlags(cases) + [Flags(c)]
  {
  }

  method Evaluate(corpus: seq<Row>, results: map<string, seq<string>>, topK: nat) returns (r: Report)
    ensures r == ReportOn(Evaluated(corpus, results, topK), Missing(corpus, results), |corpus|, topK)
  {
    var cases: seq<CaseReport>, byCategory: map<string, Counters>, missing: seq<string> := [], map[], [];
    assert Grouped(byCategory, AllFlags([]));
    hide CaseOf, Grouped, CountIn, CountersOf, AllFlags, Flags, Summarize;
    for n := 0 to |corpus|
      invariant cases == Evaluated(corpus[..n], results, topK) && missing == Missing(corpus[..n], results)
      invariant Grouped(byCategory, AllFlags(cases))
    {
      var row := corpus[n];
      assert corpus[..n + 1][..n] == corpus[..n];
      if row.id !in results {
        missing := missing + [row.id];
      } else {
        var c := CaseOf(row, results[row.id], topK);
        FlagsNext(cases, c);
        GroupedNext(byCategory, AllFlags(cases), Flags(c));
        byCategory := CountIn(byCategory, Flags(c));
        cases := cases + [c];
      }
    }
    assert corpus[..|corpus|] == corpus;
    r := Assemble(CountersOf(AllFlags(cases), None), byCategory, cases, missing, |corpus|, topK);
    Assembled(byCategory, cases, missing, |corpus|, topK);
  }

  function Assemble(overall: Counters, byCategory: map<string, Counters>, cases: seq<CaseReport>,
                    missing: seq<string>, corpusCases: nat, topK: nat): Report
  {
    var rates := Summarize(overall, topK);
    Report(topK, corpusCases, |cases|, missing, rates.top1, rates.top1Rate, rates.topK, rates.topKRate,
           map category | category in byCategory :: Summarize(byCategory[category], topK), cases)
  }

  lemma {:induction false} Assembled(byCategory: map<string, Counters>, cases: seq<CaseReport>, missing: seq<string>,
                  corpusCases: nat, topK: nat)
    requires Grouped(byCategory, AllFlags(cases))
    ensures Assemble(CountersOf(AllFlags(cases), None), byCategory, cases, missing, corpusCases, topK)
      == ReportOn(cases, missing, corpusCases, topK)
  {
    hide CountersOf, Summarize, AllFlags, Categories;
    var scores := AllFlags(cases);
    assert (map category | category in byCategory :: Summarize(byCategory[category], topK))
      == map category | category in Categories(scores) :: Summarize(CountersOf(scores, Some(category)), topK);
  }

  // ------------------------------------------------------- agreement with the validator

  /** What the validator needs of a row and its candidates. */
  predicate RowUsable(row: Row, result: seq<string>, topK: nat) {
    && row.id != "" && row.category != "" && row.reading != ""
    && Alternatives(row) != [] && NoRepeats(Alternatives(row))
    && "" !in TakeUpTo(result, topK)
  }

  predicate Usable(corpus: seq<Row>, results: map<string, seq<string>>, topK: nat) {
    && topK >= 1 && corpus != []
    && (forall i, j :: 0 <= i < j < |corpus| ==> corpus[i].id != corpus[j].id)
    && forall i :: 0 <= i < |corpus| ==>
         corpus[i].id in results && RowUsable(corpus[i], results[corpus[i].id], topK)
  }

  /** The evaluator's flags are the validator's ranks. */
  lemma {:induction false} FlagsAreRanks(row: Row, result: seq<string>, topK: nat)
    requires topK >= 1
    ensures var c := CaseOf(row, result, topK);
      && c.top1 == (RankOf(c) == Some(1))
      && (topK != 1 ==> c.topKHit == Some(RankOf(c).Some?))
      && Flags(c) == ScoreOf(c)
  {
  }

  lemma {:induction false} CaseAgrees(row: Row, result: seq<string>, topK: nat)
    requires topK >= 1
    ensures CaseValid(CaseOf(row, result, topK), topK) <==> RowUsable(row, result, topK)
  {
    FlagsAreRanks(row, result, topK);
    hide RankOf, Alternatives;
  }

  /** With no row missing, the cases are the rows, in order. */
  lemma {:induction false} CasesAreRows(corpus: seq<Row>, results: map<string, seq<string>>, topK: nat)
    ensures Missing(corpus, results) == [] <==> forall i :: 0 <= i < |corpus| ==> corpus[i].id in results
    ensures Missing(corpus, results) == [] ==>
      |Evaluated(corpus, results, topK)| == |corpus|
    ensures Missing(corpus, results) == [] ==> forall i :: 0 <= i < |corpus| ==>
      Evaluated(corpus, results, topK)[i] == CaseOf(corpus[i], results[corpus[i].id], topK)
  {
    hide CaseOf;
    if corpus != [] {
      var front, last := corpus[..|corpus| - 1], corpus[|corpus| - 1];
      CasesAreRows(front, results, topK);
      assert Missing(corpus, results) == Missing(front, results) + if last.id in results then [] else [last.id];
      assert forall i :: 0 <= i < |front| ==> front[i] == corpus[i];
      if Missing(corpus, results) == [] {
        assert Evaluated(corpus, results, topK)
          == Evaluated(front, results, topK) + [CaseOf(last, results[last.id], topK)];
      }
    }
  }

  lemma {:induction false} SameFlags(cases: seq<CaseReport>)
    requires forall k :: 0 <= k < |cases| ==> Flags(cases[k]) == ScoreOf(cases[k])
    ensures AllFlags(cases) == Scores(cases)
  {
  }

  lemma {:induction false} ExactRateOk(hits: nat, total: nat)
    requires hits <= total && total > 0
    ensures RateOk(Rate(hits, total), Rate(hits, total))
  {
  }

  /** Totals computed from the cases pass the validator's recomputation of them. */
  lemma {:induction false} TotalsAgree(cases: seq<CaseReport>, missing: seq<string>, corpusCases: nat, topK: nat)
    requires cases != [] && AllFlags(cases) == Scores(cases)
    ensures TotalsOk(ReportOn(cases, missing, corpusCases, topK), Scores(cases))
    ensures CategoriesOk(ReportOn(cases, missing, corpusCases, topK), Scores(cases))
  {
    hide Tally, RateOk, Rate, Categories;
    var scores := Scores(cases);
    TallyBounds(scores, None);
    ExactRateOk(Tally(scores, Top1, None), |scores|);
    ExactRateOk(Tally(scores, TopK, None), |scores|);
    var r := ReportOn(cases, missing, corpusCases, topK);
    forall category | category in r.byCategory ensures CategoryFits(r, scores, category) {
      CategoryAgrees(scores, category, topK);
    }
  }

  lemma {:induction false} CategoryAgrees(scores: seq<Score>, category: string, topK: nat)
    requires category in Categories(scores)
    ensures var within := Some(category);
      && Tally(scores, Total, within) > 0
      && CategoryOk(Summarize(CountersOf(scores, within), topK), topK, Tally(scores, Total, within),
                    Tally(scores, Top1, within), Tally(scores, TopK, within))
  {
    hide Tally, RateOk, Rate;
    var within := Some(category);
    CategoryCounted(scores, category);
    TallyBounds(scores, within);
    ExactRateOk(Tally(scores, Top1, within), Tally(scores, Total, within));
    ExactRateOk(Tally(scores, TopK, within), Tally(scores, Total, within));
  }

  /** The evaluator's report is accepted exactly for complete results on a usable corpus: every row has a
      result, identifiers are distinct, alternatives are distinct and the observed candidates non-empty. */
  lemma {:induction false} ProducerValidatorAgreement(corpus: seq<Row>, results: map<string, seq<string>>, topK: nat)
    ensures Valid(ReportOn(Evaluated(corpus, results, topK), Missing(corpus, results), |corpus|, topK))
      <==> Usable(corpus, results, topK)
  {
    hide RowUsable, CaseValid, TotalsOk, CategoriesOk, AllFlags, Scores, Evaluated, Missing;
    var cases, missing := Evaluated(corpus, results, topK), Missing(corpus, results);
    CasesAreRows(corpus, results, topK);
    if missing == [] && topK >= 1 {
      forall i | 0 <= i < |corpus|
        ensures Flags(cases[i]) == ScoreOf(cases[i]) && cases[i].id == corpus[i].id
          && (CaseValid(cases[i], topK) <==> RowUsable(corpus[i], results[corpus[i].id], topK))
      {
        FlagsAreRanks(corpus[i], results[corpus[i].id], topK);
        CaseAgrees(corpus[i], results[corpus[i].id], topK);
      }
      if cases != [] {
        SameFlags(cases);
        TotalsAgree(cases, missing, |corpus|, topK);
      }
    }
  }
}
