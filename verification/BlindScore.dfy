/** Unblinding: the preference counts of the blind A/B report
    (tools/dictionary/blind_conversion_ab.py:792-814, 1021-1063). */
module BlindScore {
  import opened Results
  import opened BlindKey
  import opened SignTest

  datatype Judgment = PreferX | PreferY | Even | BothBad

  /** A case of the key with the reviewer's judgment of its two sides. */
  datatype Judged = Judged(keyCase: KeyCase, judgment: Judgment)

  datatype Outcome = Outcome(wins: nat, losses: nat, ties: nat, bothBad: nat)

  const NoOutcome := Outcome(0, 0, 0, 0)

  /** The backend the reviewer preferred. */
  function Winner(c: Judged): Option<string> {
    match c.judgment
    case PreferX => Some(c.keyCase.x)
    case PreferY => Some(c.keyCase.y)
    case _ => None
  }

  /** What one case is worth to a backend. */
  function Share(c: Judged, backend: string): Outcome {
    if c.judgment == Even then Outcome(0, 0, 1, 0)
    else if c.judgment == BothBad then Outcome(0, 0, 0, 1)
    else if Winner(c) == Some(backend) then Outcome(1, 0, 0, 0)
    else Outcome(0, 1, 0, 0)
  }

  function Plus(a: Outcome, b: Outcome): Outcome {
    Outcome(a.wins + b.wins, a.losses + b.losses, a.ties + b.ties, a.bothBad + b.bothBad)
  }

  /** What all cases, or those of one category, are worth to a backend. */
  function Total(cases: seq<Judged>, backend: string, within: Option<string>): Outcome {
    if cases == [] then NoOutcome
    else
      var last := cases[|cases| - 1];
      Plus(Total(cases[..|cases| - 1], backend, within),
           if within == None || within == Some(last.keyCase.category) then Share(last, backend) else NoOutcome)
  }

  lemma {:induction false} TotalNext(cases: seq<Judged>, c: Judged, backend: string, within: Option<string>)
    ensures Total(cases + [c], backend, within) == Plus(Total(cases, backend, within),
      if within == None || within == Some(c.keyCase.category) then Share(c, backend) else NoOutcome)
  {
    assert (cases + [c])[..|cases|] == cases;
  }

  predicate BetweenTwo(c: KeyCase, a: string, b: string) {
    (c.x == a && c.y == b) || (c.x == b && c.y == a)
  }

  // ---------------------------------------------------------------------- scoring

  /** Adds one judgment to the outcomes of the two backends on its sides. */
  method RecordOutcome(outcomes: map<string, Outcome>, c: Judged)
    returns (next: map<string, Outcome>, winner: Option<string>)
    requires c.keyCase.x in outcomes && c.keyCase.y in outcomes && c.keyCase.x != c.keyCase.y
    ensures next.Keys == outcomes.Keys && winner == Winner(c)
    ensures forall backend :: backend in next ==>
      next[backend] == if backend == c.keyCase.x || backend == c.keyCase.y
        then Plus(outcomes[backend], Share(c, backend)) else outcomes[backend]
  {
    var x, y := c.keyCase.x, c.keyCase.y;
    if c.judgment == Even {
      next := outcomes[x := outcomes[x].(ties := outcomes[x].ties + 1)];
      next := next[y := next[y].(ties := next[y].ties + 1)];
      return next, None;
    }
    if c.judgment == BothBad {
      next := outcomes[x := outcomes[x].(bothBad := outcomes[x].bothBad + 1)];
      next := next[y := next[y].(bothBad := next[y].bothBad + 1)];
      return next, None;
    }
    var won := if c.judgment == PreferX then x else y;
    var lost := if c.judgment == PreferX then y else x;
    next := outcomes[won := outcomes[won].(wins := outcomes[won].wins + 1)];
    next := next[lost := next[lost].(losses := next[lost].losses + 1)];
    winner := Some(won);
  }

  /** The outcome tables hold the totals of the cases read so far. */
  ghost predicate Scored(outcomes: map<string, Outcome>, cases: seq<Judged>, a: string, b: string,
      within: Option<string>) {
    outcomes == map[a := Total(cases, a, within), b := Total(cases, b, within)]
  }

  lemma {:induction false} ScoredNext(outcomes: map<string, Outcome>, next: map<string, Outcome>,
      cases: seq<Judged>, c: Judged, a: string, b: string, within: Option<string>)
    requires a != b && BetweenTwo(c.keyCase, a, b) && Scored(outcomes, cases, a, b, within)
    requires within == None || within == Some(c.keyCase.category)
    requires next.Keys == outcomes.Keys
    requires forall backend :: backend in next ==> next[backend] == Plus(outcomes[backend], Share(c, backend))
    ensures Scored(next, cases + [c], a, b, within)
  {
    hide Total, Share, Plus;
    TotalNext(cases, c, a, within);
    TotalNext(cases, c, b, within);
  }

  ghost predicate ScoredByCategory(byCategory: map<string, map<string, Outcome>>, cases: seq<Judged>, a: string,
      b: string) {
    && (forall category :: category in byCategory <==> exists c :: c in cases && c.keyCase.category == category)
    && forall category :: category in byCategory ==> Scored(byCategory[category], cases, a, b, Some(category))
  }

  lemma {:induction false} NothingWithin(cases: seq<Judged>, backend: string, category: string)
    requires forall c :: c in cases ==> c.keyCase.category != category
    ensures Total(cases, backend, Some(category)) == NoOutcome
  {
    if cases != [] {
      NothingWithin(cases[..|cases| - 1], backend, category);
      assert cases[|cases| - 1] in cases;
    }
  }

  lemma {:induction false} ByCategoryNext(byCategory: map<string, map<string, Outcome>>,
      perCategory: map<string, Outcome>, cases: seq<Judged>, c: Judged, a: string, b: string)
    requires ScoredByCategory(byCategory, cases, a, b)
    requires Scored(perCategory, cases + [c], a, b, Some(c.keyCase.category))
    ensures ScoredByCategory(byCategory[c.keyCase.category := perCategory], cases + [c], a, b)
  {
    hide Total, Share, Plus;
    var next := byCategory[c.keyCase.category := perCategory];
    forall category | category in next ensures Scored(next[category], cases + [c], a, b, Some(category)) {
      if category != c.keyCase.category {
        Elsewhere(cases, c, a, category);
        Elsewhere(cases, c, b, category);
      }
    }
    CategoriesNext(byCategory, cases, c, a, b);
  }

  lemma {:induction false} Elsewhere(cases: seq<Judged>, c: Judged, backend: string, category: string)
    requires category != c.keyCase.category
    ensures Total(cases + [c], backend, Some(category)) == Total(cases, backend, Some(category))
  {
    hide Total, Share;
    TotalNext(cases, c, backend, Some(category));
    assert Plus(Total(cases, backend, Some(category)), NoOutcome) == Total(cases, backend, Some(category));
  }

  lemma {:induction false} CategoriesNext(byCategory: map<string, map<string, Outcome>>, cases: seq<Judged>,
      c: Judged, a: string, b: string)
    requires ScoredByCategory(byCategory, cases, a, b)
    ensures forall category :: (category in byCategory || category == c.keyCase.category) <==>
      exists d :: d in cases + [c] && d.keyCase.category == category
  {
    hide Scored;
    forall category
      ensures (category in byCategory || category == c.keyCase.category) <==>
        exists d :: d in cases + [c] && d.keyCase.category == category
    {
      if category in byCategory {
        var d :| d in cases && d.keyCase.category == category;
        assert d in cases + [c];
      }
      if category == c.keyCase.category { assert c in cases + [c]; }
    }
  }

  lemma {:induction false} TableOfCategory(byCategory: map<string, map<string, Outcome>>, cases: seq<Judged>,
      category: string, a: string, b: string)
    requires ScoredByCategory(byCategory, cases, a, b)
    ensures Scored(if category in byCategory then byCategory[category] else map[a := NoOutcome, b := NoOutcome],
                   cases, a, b, Some(category))
  {
    if category !in byCategory {
      NothingWithin(cases, a, category);
      NothingWithin(cases, b, category);
    }
  }

  lemma {:induction false} NothingScored(a: string, b: string)
    ensures Scored(map[a := NoOutcome, b := NoOutcome], [], a, b, None) && ScoredByCategory(map[], [], a, b)
  {
  }

  /** One more case in an outcome table. */
  method ScoreOne(outcomes: map<string, Outcome>, c: Judged, ghost cases: seq<Judged>, a: string, b: string,
                  ghost within: Option<string>) returns (next: map<string, Outcome>)
    requires a != b && BetweenTwo(c.keyCase, a, b) && Scored(outcomes, cases, a, b, within)
    requires within == None || within == Some(c.keyCase.category)
    ensures Scored(next, cases + [c], a, b, within)
  {
    hide Total, Share, Plus;
    var winner;
    next, winner := RecordOutcome(outcomes, c);
    ScoredNext(outcomes, next, cases, c, a, b, within);
  }

  /** Scores a packet whose cases all set the two backends against each other. */
  method Score(cases: seq<Judged>, a: string, b: string)
    returns (outcomes: map<string, Outcome>, byCategory: map<string, map<string, Outcome>>)
    requires a != b && forall c :: c in cases ==> BetweenTwo(c.keyCase, a, b)
    ensures Scored(outcomes, cases, a, b, None) && ScoredByCategory(byCategory, cases, a, b)
  {
    outcomes, byCategory := map[a := NoOutcome, b := NoOutcome], map[];
    NothingScored(a, b);
    hide Total, Share, Plus, Scored, ScoredByCategory, BetweenTwo;
    for n := 0 to |cases|
      invariant Scored(outcomes, cases[..n], a, b, None) && ScoredByCategory(byCategory, cases[..n], a, b)
    {
      var c := cases[n];
      assert c in cases && cases[..n + 1] == cases[..n] + [c];
      var category := c.keyCase.category;
      TableOfCategory(byCategory, cases[..n], category, a, b);
      var perCategory := if category in byCategory then byCategory[category] else map[a := NoOutcome, b := NoOutcome];
      outcomes := ScoreOne(outcomes, c, cases[..n], a, b, None);
      perCategory := ScoreOne(perCategory, c, cases[..n], a, b, Some(category));
      ByCategoryNext(byCategory, perCategory, cases[..n], c, a, b);
      byCategory := byCategory[category := perCategory];
    }
    assert cases[..|cases|] == cases;
  }

  // ------------------------------------------------------------------ what it means

  /** One backend's wins are the other's losses, and every case counts once for each. */
  lemma {:induction false} OutcomesMirror(cases: seq<Judged>, a: string, b: string, within: Option<string>)
    requires a != b && forall c :: c in cases ==> BetweenTwo(c.keyCase, a, b)
    ensures var p, q := Total(cases, a, within), Total(cases, b, within);
      p.wins == q.losses && p.losses == q.wins && p.ties == q.ties && p.bothBad == q.bothBad
    ensures var p := Total(cases, a, within);
      within == None ==> p.wins + p.losses + p.ties + p.bothBad == |cases|
  {
    hide Share, BetweenTwo;
    if cases != [] {
      OutcomesMirror(cases[..|cases| - 1], a, b, within);
      assert cases[|cases| - 1] in cases;
      SharesMirror(cases[|cases| - 1], a, b);
    }
  }

  lemma {:induction false} SharesMirror(c: Judged, a: string, b: string)
    requires a != b && BetweenTwo(c.keyCase, a, b)
    ensures var p, q := Share(c, a), Share(c, b);
      && p.wins == q.losses && p.losses == q.wins && p.ties == q.ties && p.bothBad == q.bothBad
      && p.wins + p.losses + p.ties + p.bothBad == 1
  {
  }

  /** The same judgment of the same pair, shown with the sides exchanged. */
  function Mirror(c: Judged): Judged {
    Judged(c.keyCase.(x := c.keyCase.y, y := c.keyCase.x),
           match c.judgment case PreferX => PreferY case PreferY => PreferX case other => other)
  }

  /** Which side a backend was shown on does not matter to its score. */
  lemma {:induction false} PlacementIsImmaterial(cases: seq<Judged>, shown: seq<Judged>, backend: string,
      within: Option<string>)
    requires |shown| == |cases| && forall k :: 0 <= k < |cases| ==> shown[k] in {cases[k], Mirror(cases[k])}
    ensures Total(shown, backend, within) == Total(cases, backend, within)
  {
    hide Share, Mirror, Plus;
    if cases != [] {
      var n := |cases| - 1;
      PlacementIsImmaterial(cases[..n], shown[..n], backend, within);
      assert shown[n] in {cases[n], Mirror(cases[n])};
      MirrorScoresAlike(cases[n], backend);
    }
  }

  lemma {:induction false} MirrorScoresAlike(c: Judged, backend: string)
    ensures Share(Mirror(c), backend) == Share(c, backend)
    ensures Mirror(c).keyCase.category == c.keyCase.category
  {
  }

  /** Both backends are reported with the same significance. */
  lemma {:induction false} SameSignificance(cases: seq<Judged>, a: string, b: string, within: Option<string>)
    requires a != b && forall c :: c in cases ==> BetweenTwo(c.keyCase, a, b)
    ensures var p, q := Total(cases, a, within), Total(cases, b, within);
      Uncapped(p.wins, p.losses) == Uncapped(q.wins, q.losses)
  {
    OutcomesMirror(cases, a, b, within);
    SymmetricInSides(Total(cases, a, within).wins, Total(cases, a, within).losses);
  }
}
