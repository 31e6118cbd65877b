/** The Top-1 accounting of the two merge policies over a corpus
    (tools/dictionary/evaluate_mozc_hybrid_spike.py:175-190, 262-375). */
module HybridAccounting {
  import opened Results
  import opened Sequences
  import opened ConversionReports
  import opened HybridMerge

  datatype Case = Case(expected: seq<string>, hazkey: seq<string>, mozc: seq<string>)

  datatype MissClass = HazkeyTop1Rescue | BelowTop1Both | BelowTop1HazkeyOnly | BelowTop1MozcOnly | BothAbsent

  function ClassifyMozcTop1Miss(hazkeyRank: Option<nat>, mozcRank: Option<nat>): (r: Result<MissClass>)
    ensures r.Err? <==> mozcRank == Some(1)
    ensures r.Ok? && r.value.HazkeyTop1Rescue? <==> hazkeyRank == Some(1) && mozcRank != Some(1)
    ensures r.Ok? && r.value.BothAbsent? <==> hazkeyRank.None? && mozcRank.None?
  {
    if mozcRank == Some(1) then Err("classification requires a Mozc Top-1 miss")
    else if hazkeyRank == Some(1) then Ok(HazkeyTop1Rescue)
    else if hazkeyRank.Some? && mozcRank.Some? then Ok(BelowTop1Both)
    else if hazkeyRank.Some? then Ok(BelowTop1HazkeyOnly)
    else if mozcRank.Some? then Ok(BelowTop1MozcOnly)
    else Ok(BothAbsent)
  }

  // --------------------------------------------------------------- what is counted

  /** Settings of one report: the window and the normalization. */
  datatype Setup = Setup(topK: nat, nfc: string -> string)

  function HazkeyRank(c: Case, setup: Setup): Option<nat> {
    ExpectedRank(c.expected, TakeUpTo(c.hazkey, setup.topK))
  }

  function MozcRank(c: Case, setup: Setup): Option<nat> {
    ExpectedRank(c.expected, TakeUpTo(c.mozc, setup.topK))
  }

  function HybridRank(c: Case, setup: Setup): Option<nat> {
    ExpectedRank(c.expected,
                 Hybrid(TakeUpTo(c.hazkey, setup.topK), TakeUpTo(c.mozc, setup.topK), setup.topK, setup.nfc))
  }

  function H0Rank(c: Case, setup: Setup): Option<nat> {
    ExpectedRank(c.expected,
                 H0(TakeUpTo(c.hazkey, setup.topK), TakeUpTo(c.mozc, setup.topK), setup.topK, setup.nfc))
  }

  datatype Metric =
    | HazkeyHits | MozcHits | HybridHits | H0Hits
    | Rescued | Regressed | H0Rescued | H0Regressed
    | BackendOracle | UnionOracle
    | Missed(class_: MissClass)

  /** What the report knows of one case. */
  datatype Verdict = Verdict(hazkeyRank: Option<nat>, mozcRank: Option<nat>, hybridTop1: bool, h0Top1: bool)

  function VerdictOn(c: Case, setup: Setup): Verdict {
    Verdict(HazkeyRank(c, setup), MozcRank(c, setup), HybridRank(c, setup) == Some(1), H0Rank(c, setup) == Some(1))
  }

  predicate Scores(v: Verdict, metric: Metric) {
    var hazkeyTop1, mozcTop1 := v.hazkeyRank == Some(1), v.mozcRank == Some(1);
    match metric
    case HazkeyHits => hazkeyTop1
    case MozcHits => mozcTop1
    case HybridHits => v.hybridTop1
    case H0Hits => v.h0Top1
    case Rescued => !mozcTop1 && v.hybridTop1
    case Regressed => mozcTop1 && !v.hybridTop1
    case H0Rescued => !mozcTop1 && v.h0Top1
    case H0Regressed => mozcTop1 && !v.h0Top1
    case BackendOracle => hazkeyTop1 || mozcTop1
    case UnionOracle => v.hazkeyRank.Some? || v.mozcRank.Some?
    case Missed(class_) => ClassifyMozcTop1Miss(v.hazkeyRank, v.mozcRank) == Ok(class_)
  }

  function Point(v: Verdict, metric: Metric): nat {
    if Scores(v, metric) then 1 else 0
  }

  function Tally(cases: seq<Case>, setup: Setup, metric: Metric): nat {
    if cases == [] then 0
    else Tally(cases[..|cases| - 1], setup, metric) + Point(VerdictOn(cases[|cases| - 1], setup), metric)
  }

  // ------------------------------------------------------------------- accounting

  lemma {:induction false} RankOfTop(expected: seq<string>, observed: seq<string>)
    ensures ExpectedRank(expected, observed) == Some(1) <==>
      match Top(observed) case None => false case Some(c) => c in expected
  {
  }

  /** What the merges guarantee about the verdict on one case. */
  lemma {:induction false} TopRanks(c: Case, setup: Setup)
    requires setup.topK > 0
    ensures Consistent(VerdictOn(c, setup), c.mozc == [])
  {
    var hazkey, mozc := TakeUpTo(c.hazkey, setup.topK), TakeUpTo(c.mozc, setup.topK);
    MergedTop1(hazkey, mozc, setup.topK, setup.nfc);
    RankOfTop(c.expected, hazkey);
    RankOfTop(c.expected, mozc);
    RankOfTop(c.expected, Hybrid(hazkey, mozc, setup.topK, setup.nfc));
    RankOfTop(c.expected, H0(hazkey, mozc, setup.topK, setup.nfc));
    hide ExpectedRank, Hybrid, H0, OneSidedConsensus;
  }

  predicate Consistent(v: Verdict, mozcEmpty: bool) {
    && (v.hybridTop1 ==> v.hazkeyRank == Some(1) || v.mozcRank == Some(1))
    && (v.mozcRank == Some(1) ==> v.h0Top1)
    && (v.h0Top1 && v.mozcRank != Some(1) <==> mozcEmpty && v.hazkeyRank == Some(1))
  }

  /** How the verdicts on one case are related: the oracles are ceilings, a rescue needs Hazkey's
      Top-1, and H0 regresses nothing and rescues only where Mozc is empty. */
  lemma {:induction false} CaseAccounting(v: Verdict, mozcEmpty: bool)
    requires Consistent(v, mozcEmpty)
    ensures Scores(v, HybridHits) ==> Scores(v, BackendOracle)
    ensures Scores(v, H0Hits) ==> Scores(v, BackendOracle)
    ensures Scores(v, BackendOracle) ==> Scores(v, UnionOracle)
    ensures Scores(v, Rescued) ==> Scores(v, Missed(HazkeyTop1Rescue))
    ensures !Scores(v, H0Regressed)
    ensures Scores(v, H0Rescued) <==> mozcEmpty && Scores(v, HazkeyHits)
  {
  }

  function Misses(cases: seq<Case>, setup: Setup): nat {
    Tally(cases, setup, Missed(HazkeyTop1Rescue)) + Tally(cases, setup, Missed(BelowTop1Both))
    + Tally(cases, setup, Missed(BelowTop1HazkeyOnly)) + Tally(cases, setup, Missed(BelowTop1MozcOnly))
    + Tally(cases, setup, Missed(BothAbsent))
  }

  /** The identities the report relies on: the miss classes partition the misses, net hits are
      rescues less regressions, and the oracles are the ceilings they are called. */
  lemma {:induction false} Accounting(cases: seq<Case>, setup: Setup)
    requires setup.topK > 0
    ensures Tally(cases, setup, MozcHits) + Misses(cases, setup) == |cases|
    ensures Tally(cases, setup, HybridHits) + Tally(cases, setup, Regressed)
      == Tally(cases, setup, MozcHits) + Tally(cases, setup, Rescued)
    ensures Tally(cases, setup, H0Hits) == Tally(cases, setup, MozcHits) + Tally(cases, setup, H0Rescued)
    ensures Tally(cases, setup, H0Regressed) == 0
    ensures Tally(cases, setup, HybridHits) <= Tally(cases, setup, BackendOracle)
    ensures Tally(cases, setup, H0Hits) <= Tally(cases, setup, BackendOracle) <= Tally(cases, setup, UnionOracle)
    ensures Tally(cases, setup, BackendOracle)
      == Tally(cases, setup, MozcHits) + Tally(cases, setup, Missed(HazkeyTop1Rescue))
    ensures Tally(cases, setup, UnionOracle) + Tally(cases, setup, Missed(BothAbsent)) == |cases|
    ensures Tally(cases, setup, Rescued) <= Tally(cases, setup, Missed(HazkeyTop1Rescue))
  {
    if cases != [] {
      var c := cases[|cases| - 1];
      Accounting(cases[..|cases| - 1], setup);
      TopRanks(c, setup);
      CaseAccounting(VerdictOn(c, setup), c.mozc == []);
      CasePartition(VerdictOn(c, setup));
      hide Scores, VerdictOn;
    }
  }

  lemma {:induction false} CasePartition(v: Verdict)
    ensures Point(v, MozcHits) + Point(v, Missed(HazkeyTop1Rescue)) + Point(v, Missed(BelowTop1Both))
      + Point(v, Missed(BelowTop1HazkeyOnly)) + Point(v, Missed(BelowTop1MozcOnly)) + Point(v, Missed(BothAbsent)) == 1
    ensures Point(v, BackendOracle) == Point(v, MozcHits) + Point(v, Missed(HazkeyTop1Rescue))
    ensures Point(v, UnionOracle) + Point(v, Missed(BothAbsent)) == 1
    ensures Point(v, HybridHits) + Point(v, Regressed) == Point(v, MozcHits) + Point(v, Rescued)
    ensures Point(v, H0Hits) + Point(v, H0Regressed) == Point(v, MozcHits) + Point(v, H0Rescued)
  {
  }

  // ------------------------------------------------------------------- the report

  datatype HitCounters = HitCounters(
    hazkeyHits: nat, mozcHits: nat, hybridHits: nat, h0Hits: nat,
    rescued: nat, regressed: nat, h0Rescued: nat, h0Regressed: nat,
    backendOracle: nat, unionOracle: nat, misses: map<MissClass, nat>)
  {
    function Of(metric: Metric): nat {
      match metric
      case HazkeyHits => hazkeyHits
      case MozcHits => mozcHits
      case HybridHits => hybridHits
      case H0Hits => h0Hits
      case Rescued => rescued
      case Regressed => regressed
      case H0Rescued => h0Rescued
      case H0Regressed => h0Regressed
      case BackendOracle => backendOracle
      case UnionOracle => unionOracle
      case Missed(class_) => if class_ in misses then misses[class_] else 0
    }
  }

  /** Every counter of the report is the tally of its metric. */
  ghost predicate Reports(counters: HitCounters, cases: seq<Case>, setup: Setup) {
    forall metric :: counters.Of(metric) == Tally(cases, setup, metric)
  }

  function Bit(b: bool): nat {
    if b then 1 else 0
  }

  /** The counters have an entry for every miss class. */
  predicate Complete(counters: HitCounters) {
    counters.misses.Keys == {HazkeyTop1Rescue, BelowTop1Both, BelowTop1HazkeyOnly, BelowTop1MozcOnly, BothAbsent}
  }

  method Judge(c: Case, setup: Setup) returns (r: Result<Verdict>)
    ensures r.Ok? <==> setup.topK >= 1
    ensures r.Ok? ==> r.value == VerdictOn(c, setup)
  {
    hide ExpectedRank, Hybrid, H0, OneSidedConsensus, TakeUpTo;
    var hazkey, mozc := TakeUpTo(c.hazkey, setup.topK), TakeUpTo(c.mozc, setup.topK);
    var hybrid := MergeCandidates(hazkey, mozc, setup.topK, setup.nfc);
    if hybrid.Err? { return Err(hybrid.message); }
    var runtimeH0 := MergePreservingMozcTop1(hazkey, mozc, setup.topK, setup.nfc);
    r := Ok(Verdict(ExpectedRank(c.expected, hazkey), ExpectedRank(c.expected, mozc),
                    ExpectedRank(c.expected, hybrid.value.candidates) == Some(1),
                    ExpectedRank(c.expected, runtimeH0.value.candidates) == Some(1)));
  }

  /** One case added to the counters. */
  method CountCase(v: Verdict, counters: HitCounters) returns (next: HitCounters)
    requires Complete(counters)
    ensures Complete(next) && forall metric :: next.Of(metric) == counters.Of(metric) + Point(v, metric)
  {
    var hazkeyTop1, mozcTop1 := v.hazkeyRank == Some(1), v.mozcRank == Some(1);
    var misses := counters.misses;
    if !mozcTop1 {
      var classification := ClassifyMozcTop1Miss(v.hazkeyRank, v.mozcRank).value;
      misses := misses[classification := misses[classification] + 1];
    }
    var rescued, regressed := counters.rescued, counters.regressed;
    if !mozcTop1 && v.hybridTop1 {
      rescued := rescued + 1;
    } else if mozcTop1 && !v.hybridTop1 {
      regressed := regressed + 1;
    }
    next := HitCounters(
      counters.hazkeyHits + Bit(hazkeyTop1), counters.mozcHits + Bit(mozcTop1),
      counters.hybridHits + Bit(v.hybridTop1), counters.h0Hits + Bit(v.h0Top1),
      rescued, regressed,
      counters.h0Rescued + Bit(!mozcTop1 && v.h0Top1), counters.h0Regressed + Bit(mozcTop1 && !v.h0Top1),
      counters.backendOracle + Bit(hazkeyTop1 || mozcTop1),
      counters.unionOracle + Bit(v.hazkeyRank.Some? || v.mozcRank.Some?), misses);
  }

  lemma {:induction false} ReportBalances(counters: HitCounters, cases: seq<Case>, setup: Setup)
    requires Complete(counters) && Reports(counters, cases, setup) && (setup.topK >= 1 || cases == [])
    ensures counters.misses[HazkeyTop1Rescue] + counters.misses[BelowTop1Both] + counters.misses[BelowTop1HazkeyOnly]
      + counters.misses[BelowTop1MozcOnly] + counters.misses[BothAbsent] == |cases| - counters.mozcHits
    ensures counters.hybridHits - counters.mozcHits == counters.rescued - counters.regressed
  {
    hide Tally, Reports, Complete;
    Balanced(cases, setup);
    MissCounter(counters, cases, setup, HazkeyTop1Rescue);
    MissCounter(counters, cases, setup, BelowTop1Both);
    MissCounter(counters, cases, setup, BelowTop1HazkeyOnly);
    MissCounter(counters, cases, setup, BelowTop1MozcOnly);
    MissCounter(counters, cases, setup, BothAbsent);
    HitCountersAre(counters, cases, setup);
  }

  lemma {:induction false} MissCounter(counters: HitCounters, cases: seq<Case>, setup: Setup, class_: MissClass)
    requires Complete(counters) && Reports(counters, cases, setup)
    ensures class_ in counters.misses && counters.misses[class_] == Tally(cases, setup, Missed(class_))
  {
    hide Tally;
    assert class_ in counters.misses.Keys;
    assert counters.Of(Missed(class_)) == Tally(cases, setup, Missed(class_));
  }

  lemma {:induction false} HitCountersAre(counters: HitCounters, cases: seq<Case>, setup: Setup)
    requires Reports(counters, cases, setup)
    ensures counters.hybridHits == Tally(cases, setup, HybridHits) && counters.mozcHits == Tally(cases, setup, MozcHits)
    ensures counters.rescued == Tally(cases, setup, Rescued) && counters.regressed == Tally(cases, setup, Regressed)
  {
    hide Tally;
    assert counters.Of(HybridHits) == Tally(cases, setup, HybridHits);
    assert counters.Of(MozcHits) == Tally(cases, setup, MozcHits);
    assert counters.Of(Rescued) == Tally(cases, setup, Rescued);
    assert counters.Of(Regressed) == Tally(cases, setup, Regressed);
  }

  /** The two identities the report asserts, with or without cases. */
  lemma {:induction false} Balanced(cases: seq<Case>, setup: Setup)
    requires setup.topK >= 1 || cases == []
    ensures Tally(cases, setup, MozcHits) + Misses(cases, setup) == |cases|
    ensures Tally(cases, setup, HybridHits) + Tally(cases, setup, Regressed)
      == Tally(cases, setup, MozcHits) + Tally(cases, setup, Rescued)
  {
    if setup.topK >= 1 { Accounting(cases, setup); }
  }

  /** The report: every counter is the tally of its metric, and neither internal assertion of the
      accounting ever fails. */
  method EvaluateRuns(cases: seq<Case>, setup: Setup) returns (r: Result<HitCounters>)
    ensures r.Ok? <==> setup.topK >= 1 || cases == []
    ensures r.Ok? ==> Reports(r.value, cases, setup)
  {
    hide Point, VerdictOn;
    var counters := HitCounters(0, 0, 0, 0, 0, 0, 0, 0, 0, 0,
      map[HazkeyTop1Rescue := 0, BelowTop1Both := 0, BelowTop1HazkeyOnly := 0,
            BelowTop1MozcOnly := 0, BothAbsent := 0]);
    for n := 0 to |cases|
      invariant setup.topK >= 1 || n == 0
      invariant Complete(counters) && Reports(counters, cases[..n], setup)
    {
      var verdict := Judge(cases[n], setup);
      if verdict.Err? { return Err(verdict.message); }
      assert cases[..n + 1][..n] == cases[..n];
      counters := CountCase(verdict.value, counters);
    }
    assert cases[..|cases|] == cases;
    ReportBalances(counters, cases, setup);
    var misses := counters.misses;
    var classified := misses[HazkeyTop1Rescue] + misses[BelowTop1Both] + misses[BelowTop1HazkeyOnly]
      + misses[BelowTop1MozcOnly] + misses[BothAbsent];
    if classified != |cases| - counters.mozcHits {
      assert false;
    }
    if counters.hybridHits - counters.mozcHits != counters.rescued - counters.regressed {
      assert false;
    }
    r := Ok(counters);
  }
}