/** Balanced X/Y placement of the blind A/B packet and the balance checks its validator applies
    (tools/dictionary/blind_conversion_ab.py:327-370, 615-704). Digests are arbitrary sort keys. */
module BlindPlacement {
  import opened Orders
  import opened Sequences

  datatype Case = Case(id: string, category: string)

  /** One entry of the insertion-ordered dictionary from categories to their case IDs. */
  datatype Group = Group(category: string, ids: seq<string>)

  predicate DistinctIDs(corpus: seq<Case>) {
    forall i, j :: 0 <= i < j < |corpus| ==> corpus[i].id != corpus[j].id
  }

  function Sum(s: seq<nat>): nat {
    if s == [] then 0 else Sum(s[..|s| - 1]) + s[|s| - 1]
  }

  // -------------------------------------------------------------- what is counted

  /** The IDs of a category, and those of them that put the first backend on X. */
  ghost function Members(corpus: seq<Case>, category: string): set<string> {
    set c | c in corpus && c.category == category :: c.id
  }

  ghost function AllIDs(corpus: seq<Case>): set<string> {
    set c | c in corpus :: c.id
  }

  predicate Near(a: nat, b: nat) {
    a <= b + 1 && b <= a + 1
  }

  /** The first backend is on X in about half of the cases, overall and in each category. */
  ghost predicate Balanced(corpus: seq<Case>, firstOnX: set<string>) {
    && Near(|firstOnX * AllIDs(corpus)|, |AllIDs(corpus) - firstOnX|)
    && forall category :: Near(|firstOnX * Members(corpus, category)|, |Members(corpus, category) - firstOnX|)
  }

  // --------------------------------------------------------------------- grouping

  ghost predicate GroupsOk(groups: seq<Group>, rows: seq<Case>) {
    && DistinctCategories(groups)
    && (forall c :: c in rows ==> exists i :: 0 <= i < |groups| && groups[i].category == c.category)
    && (forall i :: 0 <= i < |groups| ==> GroupOk(groups[i], rows))
    && Sum(Sizes(groups)) == |rows|
  }

  ghost predicate GroupOk(g: Group, rows: seq<Case>) {
    NoRepeats(g.ids) && forall id :: id in g.ids <==> Case(id, g.category) in rows
  }

  function Sizes(groups: seq<Group>): (s: seq<nat>)
    ensures |s| == |groups| && forall i :: 0 <= i < |groups| ==> s[i] == |groups[i].ids|
  {
    seq(|groups|, i requires 0 <= i < |groups| => |groups[i].ids|)
  }

  lemma {:induction false} SumUpdate(s: seq<nat>, k: nat, v: nat)
    requires k < |s|
    ensures Sum(s[k := v]) + s[k] == Sum(s) + v
  {
    var n := |s| - 1;
    if k == n {
      assert s[k := v][..n] == s[..n];
    } else {
      assert s[k := v][..n] == s[..n][k := v];
      SumUpdate(s[..n], k, v);
    }
  }

  lemma {:induction false} SumAppend(s: seq<nat>, v: nat)
    ensures Sum(s + [v]) == Sum(s) + v
  {
    assert (s + [v])[..|s|] == s;
  }

  method FindGroup(groups: seq<Group>, category: string) returns (k: nat)
    ensures k <= |groups|
    ensures forall i :: 0 <= i < k ==> groups[i].category != category
    ensures k < |groups| ==> groups[k].category == category
  {
    k := 0;
    while k < |groups| && groups[k].category != category
      invariant 0 <= k <= |groups|
      invariant forall i :: 0 <= i < k ==> groups[i].category != category
    {
      k := k + 1;
    }
  }

  lemma {:induction false} GroupGrows(g: Group, rows: seq<Case>, row: Case)
    requires GroupOk(g, rows) && forall c :: c in rows ==> c.id != row.id
    ensures g.category == row.category ==> GroupOk(g.(ids := g.ids + [row.id]), rows + [row])
    ensures g.category != row.category ==> GroupOk(g, rows + [row])
  {
    var g' := g.(ids := g.ids + [row.id]);
    assert row.id in g.ids ==> Case(row.id, g.category) in rows;
    if g.category == row.category {
      forall i, j | 0 <= i < j < |g'.ids| ensures g'.ids[i] != g'.ids[j] {
        assert g.ids[i] in g.ids;
      }
    }
  }

  lemma {:induction false} NewGroup(row: Case, rows: seq<Case>)
    requires forall c :: c in rows ==> c.category != row.category
    ensures GroupOk(Group(row.category, [row.id]), rows + [row])
  {
    forall id ensures id in [row.id] <==> Case(id, row.category) in rows + [row] {
      if Case(id, row.category) in rows { assert false; }
    }
  }

  method GroupByCategory(corpus: seq<Case>) returns (groups: seq<Group>)
    requires DistinctIDs(corpus)
    ensures GroupsOk(groups, corpus)
  {
    groups := [];
    for n := 0 to |corpus|
      invariant GroupsOk(groups, corpus[..n])
    {
      var row := corpus[n];
      ghost var rows := corpus[..n];
      assert corpus[..n + 1] == rows + [row];
      var k := FindGroup(groups, row.category);
      if k < |groups| {
        ExtendGroup(groups, k, rows, row);
        groups := groups[k := groups[k].(ids := groups[k].ids + [row.id])];
      } else {
        AddGroup(groups, rows, row);
        groups := groups + [Group(row.category, [row.id])];
      }
    }
    assert corpus[..|corpus|] == corpus;
  }

  lemma {:induction false} ExtendGroup(groups: seq<Group>, k: nat, rows: seq<Case>, row: Case)
    requires GroupsOk(groups, rows) && k < |groups| && groups[k].category == row.category
    requires forall c :: c in rows ==> c.id != row.id
    ensures GroupsOk(groups[k := groups[k].(ids := groups[k].ids + [row.id])], rows + [row])
  {
    var groups' := groups[k := groups[k].(ids := groups[k].ids + [row.id])];
    forall i | 0 <= i < |groups'| ensures GroupOk(groups'[i], rows + [row]) {
      GroupGrows(groups[i], rows, row);
    }
    assert Sizes(groups') == Sizes(groups)[k := |groups[k].ids| + 1];
    SumUpdate(Sizes(groups), k, |groups[k].ids| + 1);
    forall c | c in rows + [row] ensures exists i :: 0 <= i < |groups'| && groups'[i].category == c.category {
      var i :| 0 <= i < |groups| && groups[i].category == (if c in rows then c else row).category;
      assert groups'[i].category == groups[i].category;
    }
  }

  lemma {:induction false} AddGroup(groups: seq<Group>, rows: seq<Case>, row: Case)
    requires GroupsOk(groups, rows) && forall i :: 0 <= i < |groups| ==> groups[i].category != row.category
    requires forall c :: c in rows ==> c.id != row.id
    ensures GroupsOk(groups + [Group(row.category, [row.id])], rows + [row])
  {
    var g := Group(row.category, [row.id]);
    var groups' := groups + [g];
    NewGroup(row, rows);
    forall i | 0 <= i < |groups'| ensures GroupOk(groups'[i], rows + [row]) {
      if i < |groups| { GroupGrows(groups[i], rows, row); }
    }
    assert Sizes(groups') == Sizes(groups) + [1];
    SumAppend(Sizes(groups), 1);
    forall c | c in rows + [row] ensures exists i :: 0 <= i < |groups'| && groups'[i].category == c.category {
      if c in rows {
        var i :| 0 <= i < |groups| && groups[i].category == c.category;
        assert groups'[i].category == c.category;
      } else {
        assert groups'[|groups|] == g;
      }
    }
  }

  // ---------------------------------------------------------------------- sorting

  /** `sorted` by a digest: stable insertion. */
  function SortByKey(s: seq<string>, key: string -> nat): seq<string> {
    if s == [] then [] else InsertByKey(s[|s| - 1], SortByKey(s[..|s| - 1], key), key)
  }

  function InsertByKey(x: string, s: seq<string>, key: string -> nat): seq<string> {
    if s == [] || key(s[|s| - 1]) <= key(x) then s + [x]
    else InsertByKey(x, s[..|s| - 1], key) + [s[|s| - 1]]
  }

  lemma {:induction false} InsertPermutes(x: string, s: seq<string>, key: string -> nat)
    requires NoRepeats(s) && x !in s
    ensures NoRepeats(InsertByKey(x, s, key)) && |InsertByKey(x, s, key)| == |s| + 1
    ensures forall y :: y in InsertByKey(x, s, key) <==> y in s || y == x
    decreases |s|
  {
    if s != [] && key(s[|s| - 1]) > key(x) {
      var front, last := s[..|s| - 1], s[|s| - 1];
      InsertPermutes(x, front, key);
      assert last !in front && s == front + [last];
    }
  }

  lemma {:induction false} SortPermutes(s: seq<string>, key: string -> nat)
    requires NoRepeats(s)
    ensures NoRepeats(SortByKey(s, key)) && |SortByKey(s, key)| == |s|
    ensures forall y :: y in SortByKey(s, key) <==> y in s
  {
    if s != [] {
      var front, last := s[..|s| - 1], s[|s| - 1];
      SortPermutes(front, key);
      assert last !in front && s == front + [last];
      InsertPermutes(last, SortByKey(front, key), key);
    }
  }

  // ---------------------------------------------------------------------- quotas

  function OddCategories(groups: seq<Group>): seq<string> {
    if groups == [] then []
    else
      var g := groups[|groups| - 1];
      OddCategories(groups[..|groups| - 1]) + if |g.ids| % 2 == 1 then [g.category] else []
  }

  function Halves(groups: seq<Group>): (s: seq<nat>)
    ensures |s| == |groups| && forall i :: 0 <= i < |groups| ==> s[i] == |groups[i].ids| / 2
  {
    seq(|groups|, i requires 0 <= i < |groups| => |groups[i].ids| / 2)
  }

  ghost predicate DistinctCategories(groups: seq<Group>) {
    forall i, j :: 0 <= i < j < |groups| ==> groups[i].category != groups[j].category
  }

  ghost predicate IsOdd(groups: seq<Group>, category: string) {
    exists i :: 0 <= i < |groups| && groups[i].category == category && |groups[i].ids| % 2 == 1
  }

  lemma {:induction false} OddCategoriesAre(groups: seq<Group>)
    requires DistinctCategories(groups)
    ensures NoRepeats(OddCategories(groups))
    ensures forall c :: c in OddCategories(groups) <==> IsOdd(groups, c)
  {
    if groups != [] {
      var n := |groups| - 1;
      var front, last := groups[..n], groups[n];
      OddCategoriesAre(front);
      assert !IsOdd(front, last.category);
      assert forall c :: IsOdd(groups, c) <==> IsOdd(front, c) || (c == last.category && |last.ids| % 2 == 1) by {
        forall c ensures IsOdd(groups, c) <==> IsOdd(front, c) || (c == last.category && |last.ids| % 2 == 1) {
          OddLast(groups, c);
        }
      }
      hide IsOdd, DistinctCategories;
    }
  }

  lemma {:induction false} OddLast(groups: seq<Group>, c: string)
    requires groups != []
    ensures var n := |groups| - 1;
      IsOdd(groups, c) <==> IsOdd(groups[..n], c) || (c == groups[n].category && |groups[n].ids| % 2 == 1)
  {
    var n := |groups| - 1;
    if i :| 0 <= i < n && groups[..n][i].category == c && |groups[..n][i].ids| % 2 == 1 {
      assert groups[i].category == c;
    }
    if i :| 0 <= i < |groups| && groups[i].category == c && |groups[i].ids| % 2 == 1 {
      assert i < n ==> groups[..n][i].category == c;
    }
  }

  /** Sizes are twice their halves, and one more for every odd category. */
  lemma {:induction false} SizesAreHalves(groups: seq<Group>)
    ensures Sum(Sizes(groups)) == 2 * Sum(Halves(groups)) + |OddCategories(groups)|
  {
    if groups != [] {
      var n := |groups| - 1;
      SizesAreHalves(groups[..n]);
      assert Sizes(groups)[..n] == Sizes(groups[..n]) && Halves(groups)[..n] == Halves(groups[..n]);
      assert |groups[n].ids| == 2 * (|groups[n].ids| / 2) + |groups[n].ids| % 2;
    }
  }

  /** The number of odd categories that get one more first-backend placement lies between none
      and all of them. */
  lemma {:induction false} ExtrasInRange(total: nat, odd: nat, halves: nat, target: nat)
    requires total == 2 * halves + odd
    requires target == total / 2 || (total % 2 == 1 && target == total / 2 + 1)
    ensures halves <= target <= halves + odd
  {
  }

  /** The quota of each category: half of it, and one more for the chosen odd ones. */
  ghost predicate QuotasOk(quotas: seq<nat>, groups: seq<Group>, chosen: seq<string>) {
    && |quotas| == |groups|
    && forall i :: 0 <= i < |groups| ==>
         quotas[i] == |groups[i].ids| / 2 + if groups[i].category in chosen then 1 else 0
  }

  method Quotas(groups: seq<Group>, target: nat, categoryOrder: string -> nat) returns (quotas: seq<nat>)
    requires DistinctCategories(groups)
    requires Sum(Halves(groups)) <= target <= Sum(Halves(groups)) + |OddCategories(groups)|
    ensures |quotas| == |groups| && Sum(quotas) == target
    ensures Halved(quotas, groups)
  {
    quotas := Halves(groups);
    var extrasNeeded := target - Sum(quotas);
    OddCategoriesAre(groups);
    SortPermutes(OddCategories(groups), categoryOrder);
    var chosen := SortByKey(OddCategories(groups), categoryOrder)[..extrasNeeded];
    NoneRaised(groups, chosen);
    hide OddCategories, SortByKey, Halves, Sum, IsOdd, DistinctCategories, QuotasOk, Halved;
    for n := 0 to |chosen|
      invariant QuotasOk(quotas, groups, chosen[..n]) && Sum(quotas) == Sum(Halves(groups)) + n
    {
      assert chosen[n] in OddCategories(groups);
      OddIsGroup(groups, chosen[n]);
      var k := FindGroup(groups, chosen[n]);
      OneQuotaEach(quotas, groups, chosen[..n]);
      SumUpdate(quotas, k, quotas[k] + 1);
      QuotaRaised(quotas, groups, chosen, n, k);
      quotas := quotas[k := quotas[k] + 1];
    }
    assert chosen[..|chosen|] == chosen;
    ChosenAreOdd(groups, chosen);
    RaisedAreHalved(quotas, groups, chosen);
  }

  /** Half of each category, rounded down or, where it is odd, up. */
  ghost predicate Halved(quotas: seq<nat>, groups: seq<Group>) {
    && |quotas| == |groups|
    && forall i :: 0 <= i < |groups| ==>
         quotas[i] == |groups[i].ids| / 2 || (|groups[i].ids| % 2 == 1 && quotas[i] == |groups[i].ids| / 2 + 1)
  }

  lemma {:induction false} NoneRaised(groups: seq<Group>, chosen: seq<string>)
    ensures QuotasOk(Halves(groups), groups, chosen[..0])
  {
  }

  lemma {:induction false} OneQuotaEach(quotas: seq<nat>, groups: seq<Group>, chosen: seq<string>)
    requires QuotasOk(quotas, groups, chosen)
    ensures |quotas| == |groups|
  {
  }

  lemma {:induction false} RaisedAreHalved(quotas: seq<nat>, groups: seq<Group>, chosen: seq<string>)
    requires QuotasOk(quotas, groups, chosen)
    requires forall i :: 0 <= i < |groups| && groups[i].category in chosen ==> |groups[i].ids| % 2 == 1
    ensures Halved(quotas, groups)
  {
  }

  lemma {:induction false} OddIsGroup(groups: seq<Group>, category: string)
    requires IsOdd(groups, category)
    ensures exists i :: 0 <= i < |groups| && groups[i].category == category
  {
  }

  lemma {:induction false} ChosenAreOdd(groups: seq<Group>, chosen: seq<string>)
    requires DistinctCategories(groups) && forall c :: c in chosen ==> c in OddCategories(groups)
    ensures forall i :: 0 <= i < |groups| && groups[i].category in chosen ==> |groups[i].ids| % 2 == 1
  {
    OddCategoriesAre(groups);
    hide OddCategories;
    forall i | 0 <= i < |groups| && groups[i].category in chosen ensures |groups[i].ids| % 2 == 1 {
      assert groups[i].category in OddCategories(groups);
      var j :| 0 <= j < |groups| && groups[j].category == groups[i].category && |groups[j].ids| % 2 == 1;
    }
  }

  lemma {:induction false} QuotaRaised(quotas: seq<nat>, groups: seq<Group>, chosen: seq<string>, n: nat, k: nat)
    requires n < |chosen| && QuotasOk(quotas, groups, chosen[..n]) && NoRepeats(chosen)
    requires DistinctCategories(groups) && k < |groups| && groups[k].category == chosen[n]
    ensures QuotasOk(quotas[k := quotas[k] + 1], groups, chosen[..n + 1])
  {
    assert chosen[..n + 1] == chosen[..n] + [chosen[n]];
    assert chosen[n] !in chosen[..n];
  }

  // -------------------------------------------------------------------- placement

  /** The first backend goes on X for the first `quotas[i]` cases of each category in digest order. */
  ghost predicate PlacedOk(groups: seq<Group>, quotas: seq<nat>, n: nat, firstOnX: set<string>)
    requires n <= |groups| && |quotas| == |groups|
  {
    && |firstOnX| == Sum(quotas[..n])
    && Within(groups, n, firstOnX)
    && Shares(groups, quotas, n, firstOnX)
  }

  ghost predicate Within(groups: seq<Group>, n: nat, placed: set<string>)
    requires n <= |groups|
  {
    forall id :: id in placed ==> exists i :: 0 <= i < n && id in groups[i].ids
  }

  ghost predicate Shares(groups: seq<Group>, quotas: seq<nat>, n: nat, placed: set<string>)
    requires n <= |groups| && |quotas| == |groups|
  {
    forall i :: 0 <= i < n ==> |placed * Elements(groups[i].ids)| == quotas[i]
  }

  ghost predicate Disjoint(groups: seq<Group>) {
    forall i, j, id :: 0 <= i < j < |groups| && id in groups[i].ids ==> id !in groups[j].ids
  }

  lemma {:induction false} CategoriesDisjoint(groups: seq<Group>, corpus: seq<Case>)
    requires GroupsOk(groups, corpus) && DistinctIDs(corpus)
    ensures Disjoint(groups)
  {
    forall i, j, id | 0 <= i < j < |groups| && id in groups[i].ids ensures id !in groups[j].ids {
      assert GroupOk(groups[i], corpus) && GroupOk(groups[j], corpus);
      OneCategory(corpus, id, groups[i].category, groups[j].category);
    }
  }

  lemma {:induction false} OneCategory(corpus: seq<Case>, id: string, a: string, b: string)
    requires DistinctIDs(corpus)
    ensures Case(id, a) in corpus && Case(id, b) in corpus ==> a == b
  {
  }

  /** Nothing placed for the first `n` groups belongs to the `n`-th. */
  lemma {:induction false} PlacedElsewhere(groups: seq<Group>, quotas: seq<nat>, n: nat, firstOnX: set<string>)
    requires n < |groups| && |quotas| == |groups| && PlacedOk(groups, quotas, n, firstOnX) && Disjoint(groups)
    ensures firstOnX !! Elements(groups[n].ids)
  {
    forall id | id in firstOnX ensures id !in groups[n].ids {
      var i :| 0 <= i < n && id in groups[i].ids;
    }
  }

  lemma {:induction false} PlaceGroup(groups: seq<Group>, quotas: seq<nat>, n: nat, firstOnX: set<string>,
      prefix: seq<string>)
    requires n < |groups| && |quotas| == |groups| && PlacedOk(groups, quotas, n, firstOnX) && Disjoint(groups)
    requires NoRepeats(prefix) && |prefix| == quotas[n] && forall id :: id in prefix ==> id in groups[n].ids
    ensures PlacedOk(groups, quotas, n + 1, firstOnX + Elements(prefix))
  {
    hide Within, Shares, Sum;
    var added := Elements(prefix);
    CountElements(prefix);
    PlacedElsewhere(groups, quotas, n, firstOnX);
    assert added <= Elements(groups[n].ids);
    PlacedSum(quotas, n, firstOnX, added, Elements(groups[n].ids));
    PlacedShares(groups, quotas, n, firstOnX, added);
    PlacedCover(groups, n, firstOnX, prefix);
  }

  lemma {:induction false} PlacedShares(groups: seq<Group>, quotas: seq<nat>, n: nat, firstOnX: set<string>,
      added: set<string>)
    requires n < |groups| && |quotas| == |groups| && Shares(groups, quotas, n, firstOnX) && Disjoint(groups)
    requires added <= Elements(groups[n].ids) && |added| == quotas[n] && firstOnX !! Elements(groups[n].ids)
    ensures Shares(groups, quotas, n + 1, firstOnX + added)
  {
    hide Disjoint, Elements;
    forall i | 0 <= i < n + 1 ensures |(firstOnX + added) * Elements(groups[i].ids)| == quotas[i] {
      if i < n {
        SharesUnchanged(firstOnX, added, groups, i, n);
      } else {
        assert (firstOnX + added) * Elements(groups[n].ids) == added;
      }
    }
  }

  lemma {:induction false} PlacedSum(quotas: seq<nat>, n: nat, firstOnX: set<string>, added: set<string>,
      ids: set<string>)
    requires n < |quotas| && |firstOnX| == Sum(quotas[..n]) && |added| == quotas[n]
    requires added <= ids && firstOnX !! ids
    ensures |firstOnX + added| == Sum(quotas[..n + 1])
  {
    assert quotas[..n + 1] == quotas[..n] + [quotas[n]];
    SumAppend(quotas[..n], quotas[n]);
    assert firstOnX !! added;
  }

  lemma {:induction false} PlacedCover(groups: seq<Group>, n: nat, firstOnX: set<string>, prefix: seq<string>)
    requires n < |groups| && Within(groups, n, firstOnX)
    requires forall id :: id in prefix ==> id in groups[n].ids
    ensures Within(groups, n + 1, firstOnX + Elements(prefix))
  {
    forall id | id in firstOnX + Elements(prefix) ensures exists i :: 0 <= i < n + 1 && id in groups[i].ids {
      if id in firstOnX {
        var i :| 0 <= i < n && id in groups[i].ids;
      } else {
        assert id in groups[n].ids;
      }
    }
  }

  lemma {:induction false} SharesUnchanged(firstOnX: set<string>, added: set<string>, groups: seq<Group>, i: nat,
      n: nat)
    requires i < n < |groups| && Disjoint(groups) && added <= Elements(groups[n].ids)
    ensures (firstOnX + added) * Elements(groups[i].ids) == firstOnX * Elements(groups[i].ids)
  {
    forall id | id in added ensures id !in groups[i].ids {
      assert id in groups[n].ids;
    }
  }

  lemma {:induction false} NothingPlaced(groups: seq<Group>, quotas: seq<nat>)
    requires |quotas| == |groups|
    ensures PlacedOk(groups, quotas, 0, {})
  {
    assert quotas[..0] == [];
  }

  /** The placement: exactly `target` cases have the first backend on X. */
  method Place(corpus: seq<Case>, oddOwner: bool, categoryOrder: string -> nat,
      placementOrder: (string, string) -> nat)
    returns (firstOnX: set<string>)
    requires DistinctIDs(corpus)
    ensures |firstOnX| == |corpus| / 2 + if |corpus| % 2 == 1 && oddOwner then 1 else 0
    ensures Balanced(corpus, firstOnX)
  {
    hide *;
    var targetFirstX := |corpus| / 2;
    if |corpus| % 2 == 1 && oddOwner {
      targetFirstX := targetFirstX + 1;
    }
    var groups := GroupByCategory(corpus);
    SizesAreHalves(groups);
    GroupsAreFine(groups, corpus);
    ExtrasInRange(|corpus|, |OddCategories(groups)|, Sum(Halves(groups)), targetFirstX);
    var quotas := Quotas(groups, targetFirstX, categoryOrder);
    CategoriesDisjoint(groups, corpus);
    firstOnX := {};
    NothingPlaced(groups, quotas);
    for n := 0 to |groups|
      invariant PlacedOk(groups, quotas, n, firstOnX)
    {
      var g := groups[n];
      var ordered := SortByKey(g.ids, id => placementOrder(g.category, id));
      SortPermutes(g.ids, id => placementOrder(g.category, id));
      QuotaFits(quotas, groups, n);
      var prefix := ordered[..quotas[n]];
      PrefixRepeatsNothing(ordered, quotas[n]);
      PlaceGroup(groups, quotas, n, firstOnX, prefix);
      firstOnX := firstOnX + Elements(prefix);
    }
    PlacedCount(groups, quotas, firstOnX);
    QuotasBalance(corpus, groups, quotas, firstOnX);
  }

  lemma {:induction false} GroupsAreFine(groups: seq<Group>, corpus: seq<Case>)
    requires GroupsOk(groups, corpus)
    ensures DistinctCategories(groups) && Sum(Sizes(groups)) == |corpus|
    ensures forall i :: 0 <= i < |groups| ==> NoRepeats(groups[i].ids)
  {
  }

  lemma {:induction false} QuotaFits(quotas: seq<nat>, groups: seq<Group>, n: nat)
    requires Halved(quotas, groups) && n < |groups|
    ensures quotas[n] <= |groups[n].ids|
  {
  }

  lemma {:induction false} PrefixRepeatsNothing(s: seq<string>, n: nat)
    requires NoRepeats(s) && n <= |s|
    ensures NoRepeats(s[..n])
  {
  }

  lemma {:induction false} PlacedCount(groups: seq<Group>, quotas: seq<nat>, firstOnX: set<string>)
    requires |quotas| == |groups| && PlacedOk(groups, quotas, |groups|, firstOnX)
    ensures |firstOnX| == Sum(quotas)
  {
    assert quotas[..|groups|] == quotas;
  }

  lemma {:induction false} HalfIsNear(s: set<string>, x: set<string>)
    requires |x * s| == |s| / 2 || (|s| % 2 == 1 && |x * s| == |s| / 2 + 1)
    ensures Near(|x * s|, |s - x|)
  {
    assert s == x * s + (s - x);
  }

  lemma {:induction false} QuotasBalance(corpus: seq<Case>, groups: seq<Group>, quotas: seq<nat>,
      firstOnX: set<string>)
    requires DistinctIDs(corpus) && GroupsOk(groups, corpus) && |quotas| == |groups|
    requires PlacedOk(groups, quotas, |groups|, firstOnX)
    requires |firstOnX| == |corpus| / 2 || (|corpus| % 2 == 1 && |firstOnX| == |corpus| / 2 + 1)
    requires Halved(quotas, groups)
    ensures Balanced(corpus, firstOnX)
  {
    hide Near, GroupsOk, PlacedOk, Halved, DistinctIDs, Members, AllIDs;
    CountIDs(corpus);
    PlacedInCorpus(corpus, groups, quotas, firstOnX);
    HalfIsNear(AllIDs(corpus), firstOnX);
    forall category ensures Near(|firstOnX * Members(corpus, category)|, |Members(corpus, category) - firstOnX|) {
      CategoryBalance(corpus, groups, quotas, firstOnX, category);
    }
  }

  lemma {:induction false} PlacedInCorpus(corpus: seq<Case>, groups: seq<Group>, quotas: seq<nat>,
      firstOnX: set<string>)
    requires GroupsOk(groups, corpus) && |quotas| == |groups| && PlacedOk(groups, quotas, |groups|, firstOnX)
    ensures firstOnX * AllIDs(corpus) == firstOnX
  {
    forall id | id in firstOnX ensures id in AllIDs(corpus) {
      var i :| 0 <= i < |groups| && id in groups[i].ids;
      assert GroupOk(groups[i], corpus) && Case(id, groups[i].category) in corpus;
    }
  }

  lemma {:induction false} NoMembers(corpus: seq<Case>, groups: seq<Group>, category: string)
    requires GroupsOk(groups, corpus) && forall i :: 0 <= i < |groups| ==> groups[i].category != category
    ensures Members(corpus, category) == {}
  {
  }

  lemma {:induction false} CategoryBalance(corpus: seq<Case>, groups: seq<Group>, quotas: seq<nat>,
      firstOnX: set<string>, category: string)
    requires GroupsOk(groups, corpus) && |quotas| == |groups| && PlacedOk(groups, quotas, |groups|, firstOnX)
    requires Halved(quotas, groups)
    ensures Near(|firstOnX * Members(corpus, category)|, |Members(corpus, category) - firstOnX|)
  {
    hide Near, Members, GroupOk, Sum, Sizes, Elements;
    if i :| 0 <= i < |groups| && groups[i].category == category {
      GroupIsMembers(groups[i], corpus);
      HalfIsNear(Members(corpus, category), firstOnX);
    } else {
      NoMembers(corpus, groups, category);
      HalfIsNear({}, firstOnX);
    }
  }

  lemma {:induction false} GroupIsMembers(g: Group, corpus: seq<Case>)
    requires GroupOk(g, corpus)
    ensures Elements(g.ids) == Members(corpus, g.category) && |Members(corpus, g.category)| == |g.ids|
  {
    forall id ensures id in Elements(g.ids) <==> id in Members(corpus, g.category) {
      assert id in g.ids <==> Case(id, g.category) in corpus;
    }
    CountElements(g.ids);
  }

  lemma {:induction false} CountIDs(corpus: seq<Case>)
    requires DistinctIDs(corpus)
    ensures |AllIDs(corpus)| == |corpus|
  {
    if corpus != [] {
      var front, last := corpus[..|corpus| - 1], corpus[|corpus| - 1];
      CountIDs(front);
      assert corpus == front + [last];
      assert AllIDs(corpus) == AllIDs(front) + {last.id};
      assert last.id !in AllIDs(front);
    }
  }
}
