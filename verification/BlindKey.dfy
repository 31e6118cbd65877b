/** The private key of the blind A/B packet: the loop that fills it and the checks its validator
    applies (tools/dictionary/blind_conversion_ab.py:372-421, 615-704). */
module BlindKey {
  import opened Orders
  import opened Results
  import opened Sequences
  import opened BlindPlacement

  datatype KeyCase = KeyCase(opaqueID: string, original: string, category: string, x: string, y: string)

  datatype Key = Key(cases: seq<KeyCase>, placementX: map<string, nat>, placementY: map<string, nat>)

  /** What the balance checks count. */
  datatype Place = OnX(backend: string) | OnY(backend: string) | OnXWithin(category: string, backend: string)

  predicate At(c: KeyCase, p: Place) {
    match p
    case OnX(backend) => c.x == backend
    case OnY(backend) => c.y == backend
    case OnXWithin(category, backend) => c.category == category && c.x == backend
  }

  function Tally(cases: seq<KeyCase>, p: Place): nat {
    if cases == [] then 0
    else Tally(cases[..|cases| - 1], p) + if At(cases[|cases| - 1], p) then 1 else 0
  }

  /** A key the validator lets through, for the backend labels `a` and `b`. */
  ghost predicate Accepted(key: Key, a: string, b: string) {
    && WellFormed(key.cases, a, b)
    && key.placementX == map[a := Tally(key.cases, OnX(a)), b := Tally(key.cases, OnX(b))]
    && key.placementY == map[a := Tally(key.cases, OnY(a)), b := Tally(key.cases, OnY(b))]
    && Near(Tally(key.cases, OnX(a)), Tally(key.cases, OnX(b)))
    && forall category ::
         Near(Tally(key.cases, OnXWithin(category, a)), Tally(key.cases, OnXWithin(category, b)))
  }

  ghost predicate WellFormed(cases: seq<KeyCase>, a: string, b: string) {
    && (forall i, j :: 0 <= i < j < |cases| ==> cases[i].opaqueID != cases[j].opaqueID)
    && (forall i, j :: 0 <= i < j < |cases| ==> cases[i].original != cases[j].original)
    && (forall i :: 0 <= i < |cases| ==> {cases[i].x, cases[i].y} == {a, b})
  }

  // ------------------------------------------------------------------- counters

  /** The counters hold the tallies of the cases read so far. */
  ghost predicate Counted(cases: seq<KeyCase>, a: string, b: string, x: map<string, nat>, y: map<string, nat>) {
    && x == map[a := Tally(cases, OnX(a)), b := Tally(cases, OnX(b))]
    && y == map[a := Tally(cases, OnY(a)), b := Tally(cases, OnY(b))]
  }

  ghost predicate CountedWithin(cases: seq<KeyCase>, a: string, b: string,
      byCategory: map<string, map<string, nat>>) {
    && (forall c :: c in cases ==> c.category in byCategory)
    && forall category :: category in byCategory ==>
         byCategory[category]
           == map[a := Tally(cases, OnXWithin(category, a)), b := Tally(cases, OnXWithin(category, b))]
  }

  lemma {:induction false} TallyNext(cases: seq<KeyCase>, c: KeyCase, p: Place)
    ensures Tally(cases + [c], p) == Tally(cases, p) + if At(c, p) then 1 else 0
  {
    assert (cases + [c])[..|cases|] == cases;
  }

  lemma {:induction false} NobodyWithin(cases: seq<KeyCase>, category: string, backend: string)
    requires forall c :: c in cases ==> c.category != category
    ensures Tally(cases, OnXWithin(category, backend)) == 0
  {
    if cases != [] {
      NobodyWithin(cases[..|cases| - 1], category, backend);
      assert cases[|cases| - 1] in cases;
    }
  }

  lemma {:induction false} CountNext(cases: seq<KeyCase>, c: KeyCase, a: string, b: string, x: map<string, nat>,
      y: map<string, nat>)
    requires a != b && {c.x, c.y} == {a, b} && Counted(cases, a, b, x, y)
    ensures c.x in x && c.y in y
    ensures Counted(cases + [c], a, b, x[c.x := x[c.x] + 1], y[c.y := y[c.y] + 1])
  {
    hide Tally;
    Sides(c, a, b);
    TallyNext(cases, c, OnX(a));
    TallyNext(cases, c, OnX(b));
    TallyNext(cases, c, OnY(a));
    TallyNext(cases, c, OnY(b));
  }

  lemma {:induction false} Sides(c: KeyCase, a: string, b: string)
    requires a != b && {c.x, c.y} == {a, b}
    ensures (c.x == a && c.y == b) || (c.x == b && c.y == a)
  {
    assert c.x in {a, b} && c.y in {a, b} && a in {c.x, c.y} && b in {c.x, c.y};
  }

  /** `setdefault` and the increment. */
  function CountWithin(byCategory: map<string, map<string, nat>>, c: KeyCase, a: string, b: string)
    : map<string, map<string, nat>>
  {
    var counts := if c.category in byCategory then byCategory[c.category] else map[a := 0, b := 0];
    byCategory[c.category := if c.x in counts then counts[c.x := counts[c.x] + 1] else counts]
  }

  lemma {:induction false} CountNextWithin(cases: seq<KeyCase>, c: KeyCase, a: string, b: string,
                        byCategory: map<string, map<string, nat>>, byCategory': map<string, map<string, nat>>)
    requires a != b && (c.x == a || c.x == b) && CountedWithin(cases, a, b, byCategory)
    requires byCategory' == CountWithin(byCategory, c, a, b)
    ensures CountedWithin(cases + [c], a, b, byCategory')
  {
    hide Tally;
    forall category | category in byCategory'
      ensures byCategory'[category]
        == map[a := Tally(cases + [c], OnXWithin(category, a)), b := Tally(cases + [c], OnXWithin(category, b))]
    {
      CountNextIn(cases, c, a, b, byCategory, category);
    }
  }

  lemma {:induction false} CountNextIn(cases: seq<KeyCase>, c: KeyCase, a: string, b: string,
      byCategory: map<string, map<string, nat>>, category: string)
    requires a != b && (c.x == a || c.x == b) && CountedWithin(cases, a, b, byCategory)
    requires category in CountWithin(byCategory, c, a, b)
    ensures CountWithin(byCategory, c, a, b)[category]
      == map[a := Tally(cases + [c], OnXWithin(category, a)), b := Tally(cases + [c], OnXWithin(category, b))]
  {
    hide Tally;
    TallyNext(cases, c, OnXWithin(category, a));
    TallyNext(cases, c, OnXWithin(category, b));
    if category !in byCategory {
      NobodyWithin(cases, category, a);
      NobodyWithin(cases, category, b);
    }
  }

  lemma {:induction false} EveryCategoryNear(cases: seq<KeyCase>, a: string, b: string,
      byCategory: map<string, map<string, nat>>)
    requires CountedWithin(cases, a, b, byCategory)
    requires forall category :: category in byCategory ==>
      Near(Tally(cases, OnXWithin(category, a)), Tally(cases, OnXWithin(category, b)))
    ensures forall category :: Near(Tally(cases, OnXWithin(category, a)), Tally(cases, OnXWithin(category, b)))
  {
    forall category ensures Near(Tally(cases, OnXWithin(category, a)), Tally(cases, OnXWithin(category, b))) {
      if category !in byCategory {
        NobodyWithin(cases, category, a);
        NobodyWithin(cases, category, b);
      }
    }
  }

  // ------------------------------------------------------------------ validation

  /** The duplicate and backend checks of one case, and its counts. */
  method ReadCases(cases: seq<KeyCase>, a: string, b: string)
    returns (ok: bool, x: map<string, nat>, y: map<string, nat>, byCategory: map<string, map<string, nat>>)
    requires a != b
    ensures ok <==> WellFormed(cases, a, b)
    ensures ok ==> Counted(cases, a, b, x, y) && CountedWithin(cases, a, b, byCategory)
  {
    hide Tally;
    x, y, byCategory := map[a := 0, b := 0], map[a := 0, b := 0], map[];
    ok := true;
    var opaqueIDs: set<string>, originals: set<string> := {}, {};
    EmptyTallies(a, b);
    for n := 0 to |cases|
      invariant ok && WellFormed(cases[..n], a, b)
      invariant opaqueIDs == set c | c in cases[..n] :: c.opaqueID
      invariant originals == set c | c in cases[..n] :: c.original
      invariant Counted(cases[..n], a, b, x, y) && CountedWithin(cases[..n], a, b, byCategory)
    {
      hide Counted, CountedWithin, CountWithin, WellFormed;
      var c := cases[n];
      assert cases[..n + 1] == cases[..n] + [c];
      if c.opaqueID in opaqueIDs || c.original in originals || {c.x, c.y} != {a, b} {
        ok := false;
        Refused(cases, n, a, b);
        return;
      }
      Grows(cases, n, a, b);
      CountNext(cases[..n], c, a, b, x, y);
      Sides(c, a, b);
      CountNextWithin(cases[..n], c, a, b, byCategory, CountWithin(byCategory, c, a, b));
      opaqueIDs, originals := opaqueIDs + {c.opaqueID}, originals + {c.original};
      x, y := x[c.x := x[c.x] + 1], y[c.y := y[c.y] + 1];
      byCategory := CountWithin(byCategory, c, a, b);
    }
    assert cases[..|cases|] == cases;
  }

  lemma {:induction false} EmptyTallies(a: string, b: string)
    ensures Counted([], a, b, map[a := 0, b := 0], map[a := 0, b := 0]) && CountedWithin([], a, b, map[])
  {
  }

  lemma {:induction false} Refused(cases: seq<KeyCase>, n: nat, a: string, b: string)
    requires n < |cases|
    requires (exists c :: c in cases[..n] && c.opaqueID == cases[n].opaqueID)
      || (exists c :: c in cases[..n] && c.original == cases[n].original) || {cases[n].x, cases[n].y} != {a, b}
    ensures !WellFormed(cases, a, b)
  {
    if c :| c in cases[..n] && (c.opaqueID == cases[n].opaqueID || c.original == cases[n].original) {
      var i :| 0 <= i < n && cases[i] == c;
    }
  }

  lemma {:induction false} Grows(cases: seq<KeyCase>, n: nat, a: string, b: string)
    requires n < |cases| && WellFormed(cases[..n], a, b)
    requires (forall c :: c in cases[..n] ==> c.opaqueID != cases[n].opaqueID && c.original != cases[n].original)
    requires {cases[n].x, cases[n].y} == {a, b}
    ensures WellFormed(cases[..n + 1], a, b)
  {
    var longer := cases[..n + 1];
    forall i, j | 0 <= i < j < |longer|
      ensures longer[i].opaqueID != longer[j].opaqueID && longer[i].original != longer[j].original
    {
      assert longer[i] == cases[..n][i];
      assert j < n ==> longer[j] == cases[..n][j];
    }
    forall i | 0 <= i < |longer| ensures {longer[i].x, longer[i].y} == {a, b} {
      assert i < n ==> longer[i] == cases[..n][i];
    }
  }

  /** The validator: accepts exactly the well-formed keys whose recorded placement is the one of the
      cases and is balanced overall and within every category. */
  method ValidateKey(key: Key, a: string, b: string) returns (ok: bool)
    requires a != b
    ensures ok <==> Accepted(key, a, b)
  {
    hide Tally;
    var x, y, byCategory;
    ok, x, y, byCategory := ReadCases(key.cases, a, b);
    if !ok { return; }
    if key.placementX != x || key.placementY != y || !Near(x[a], x[b]) {
      return false;
    }
    var categories := byCategory.Keys;
    ghost var checked: set<string> := {};
    while categories != {}
      invariant checked + categories == byCategory.Keys
      invariant forall category :: category in checked ==>
        Near(Tally(key.cases, OnXWithin(category, a)), Tally(key.cases, OnXWithin(category, b)))
    {
      var category :| category in categories;
      if !Near(byCategory[category][a], byCategory[category][b]) {
        return false;
      }
      checked := checked + {category};
      categories := categories - {category};
    }
    EveryCategoryNear(key.cases, a, b, byCategory);
  }

  // ----------------------------------------------------------------- construction

  /** The cases of one backend on X, by original identifier. */
  ghost function IDsAt(cases: seq<KeyCase>, p: Place): set<string> {
    set c | c in cases && At(c, p) :: c.original
  }

  lemma {:induction false} TallyCountsIDs(cases: seq<KeyCase>, p: Place)
    requires forall i, j :: 0 <= i < j < |cases| ==> cases[i].original != cases[j].original
    ensures Tally(cases, p) == |IDsAt(cases, p)|
  {
    if cases != [] {
      var front, last := cases[..|cases| - 1], cases[|cases| - 1];
      TallyCountsIDs(front, p);
      LastID(cases, p);
    }
  }

  lemma {:induction false} LastID(cases: seq<KeyCase>, p: Place)
    requires forall i, j :: 0 <= i < j < |cases| ==> cases[i].original != cases[j].original
    requires cases != []
    ensures var front, last := cases[..|cases| - 1], cases[|cases| - 1];
      && IDsAt(cases, p) == IDsAt(front, p) + (if At(last, p) then {last.original} else {})
      && last.original !in IDsAt(front, p)
  {
    hide At;
    var front, last := cases[..|cases| - 1], cases[|cases| - 1];
    assert cases == front + [last];
    forall c | c in front ensures c.original != last.original {
      var i :| 0 <= i < |front| && front[i] == c;
    }
  }

  predicate Known(corpus: seq<Case>, id: string) {
    exists c :: c in corpus && c.id == id
  }

  function CategoryOf(corpus: seq<Case>, id: string): (category: string)
    requires Known(corpus, id)
    ensures Case(id, category) in corpus
  {
    if corpus[0].id == id then corpus[0].category else CategoryOf(corpus[1..], id)
  }

  function Entry(id: string, corpus: seq<Case>, firstOnX: set<string>, opaqueOf: string -> string,
                 first: string, second: string): (c: KeyCase)
    requires Known(corpus, id)
    ensures c.opaqueID == opaqueOf(id) && c.original == id && Case(id, c.category) in corpus
  {
    var (x, y) := if id in firstOnX then (first, second) else (second, first);
    KeyCase(opaqueOf(id), id, CategoryOf(corpus, id), x, y)
  }

  /** The key entries of the review positions `ordered`. */
  ghost predicate Filled(cases: seq<KeyCase>, ordered: seq<string>, corpus: seq<Case>, firstOnX: set<string>,
                         opaqueOf: string -> string, first: string, second: string) {
    && |cases| == |ordered|
    && forall i :: 0 <= i < |cases| ==>
         && Known(corpus, ordered[i])
         && cases[i] == Entry(ordered[i], corpus, firstOnX, opaqueOf, first, second)
  }

  /** The key has one entry per corpus case, with its category and the side of the first backend. */
  ghost predicate Describes(cases: seq<KeyCase>, corpus: seq<Case>, firstOnX: set<string>, first: string,
      second: string) {
    && (forall c :: c in corpus ==> exists k :: k in cases && k.original == c.id && k.category == c.category)
    && forall k :: k in cases ==>
         Case(k.original, k.category) in corpus && k.x == if k.original in firstOnX then first else second
  }

  /** Fills the key in review order; refuses exactly when two cases get the same opaque handle. */
  method BuildKey(corpus: seq<Case>, firstOnX: set<string>, reviewOrder: string -> nat, opaqueOf: string -> string,
                  first: string, second: string) returns (r: Result<Key>)
    requires DistinctIDs(corpus) && Balanced(corpus, firstOnX) && first != second
    ensures r.Ok? <==> forall c, d :: c in corpus && d in corpus && opaqueOf(c.id) == opaqueOf(d.id) ==> c.id == d.id
    ensures r.Ok? ==> Accepted(r.value, first, second) && Accepted(r.value, second, first)
    ensures r.Ok? ==> |r.value.cases| == |corpus|
    ensures r.Ok? ==> Describes(r.value.cases, corpus, firstOnX, first, second)
  {
    hide Tally, SortByKey, Balanced, Accepted, Describes, Filled, WellFormed, Counted, Entry, DistinctIDs;
    var ordered := ReviewOrder(corpus, reviewOrder);
    var cases: seq<KeyCase>, opaqueIDs: set<string> := [], {};
    var placementX, placementY := map[first := 0, second := 0], map[first := 0, second := 0];
    EmptyTallies(first, second);
    NothingFilled(corpus, firstOnX, opaqueOf, first, second);
    for n := 0 to |ordered|
      invariant Filled(cases, ordered[..n], corpus, firstOnX, opaqueOf, first, second)
      invariant opaqueIDs == set c | c in cases :: c.opaqueID
      invariant WellFormed(cases, first, second)
      invariant Counted(cases, first, second, placementX, placementY)
    {
      var c := Entry(ordered[n], corpus, firstOnX, opaqueOf, first, second);
      if c.opaqueID in opaqueIDs {
        Collision(cases, ordered, n, corpus, firstOnX, opaqueOf, first, second);
        return Err("opaque case handle collision");
      }
      FilledNext(cases, ordered, n, corpus, firstOnX, opaqueOf, first, second);
      CountNext(cases, c, first, second, placementX, placementY);
      opaqueIDs := opaqueIDs + {c.opaqueID};
      placementX, placementY := placementX[c.x := placementX[c.x] + 1], placementY[c.y := placementY[c.y] + 1];
      cases := cases + [c];
    }
    assert ordered[..|ordered|] == ordered;
    Listed(cases, ordered, corpus, firstOnX, opaqueOf, first, second);
    r := Ok(Key(cases, placementX, placementY));
    BuiltIsAccepted(r.value, corpus, firstOnX, first, second);
    NoCollision(cases, ordered, corpus, firstOnX, opaqueOf, first, second);
  }

  /** The corpus identifiers in the order of their digests. */
  function ReviewOrder(corpus: seq<Case>, reviewOrder: string -> nat): (ordered: seq<string>)
    requires DistinctIDs(corpus)
    ensures NoRepeats(ordered) && |ordered| == |corpus|
    ensures forall c :: c in corpus ==> c.id in ordered
    ensures forall i :: 0 <= i < |ordered| ==> Known(corpus, ordered[i])
  {
    var ids := seq(|corpus|, i requires 0 <= i < |corpus| => corpus[i].id);
    SortPermutes(ids, reviewOrder);
    IDsListed(corpus, ids);
    AllKnown(corpus, ids, SortByKey(ids, reviewOrder));
    SortByKey(ids, reviewOrder)
  }

  lemma {:induction false} AllKnown(corpus: seq<Case>, ids: seq<string>, ordered: seq<string>)
    requires |ids| == |corpus| && forall i :: 0 <= i < |ids| ==> ids[i] == corpus[i].id
    requires forall id :: id in ordered ==> id in ids
    ensures forall i :: 0 <= i < |ordered| ==> Known(corpus, ordered[i])
  {
    forall i | 0 <= i < |ordered| ensures Known(corpus, ordered[i]) {
      assert ordered[i] in ids;
      var j :| 0 <= j < |ids| && ids[j] == ordered[i];
      var c := corpus[j];
      assert c in corpus && c.id == ordered[i];
    }
  }

  lemma {:induction false} NothingFilled(corpus: seq<Case>, firstOnX: set<string>, opaqueOf: string -> string,
      first: string, second: string)
    ensures Filled([], [], corpus, firstOnX, opaqueOf, first, second) && WellFormed([], first, second)
  {
  }

  lemma {:induction false} FilledNext(cases: seq<KeyCase>, ordered: seq<string>, n: nat, corpus: seq<Case>,
      firstOnX: set<string>, opaqueOf: string -> string, first: string, second: string)
    requires n < |ordered| && Filled(cases, ordered[..n], corpus, firstOnX, opaqueOf, first, second)
    requires NoRepeats(ordered) && WellFormed(cases, first, second)
    requires Known(corpus, ordered[n])
    requires forall c :: c in cases ==> c.opaqueID != opaqueOf(ordered[n])
    ensures var c := Entry(ordered[n], corpus, firstOnX, opaqueOf, first, second);
      && {c.x, c.y} == {first, second}
      && WellFormed(cases + [c], first, second)
      && Filled(cases + [c], ordered[..n + 1], corpus, firstOnX, opaqueOf, first, second)
  {
    hide WellFormed, Known;
    var c := Entry(ordered[n], corpus, firstOnX, opaqueOf, first, second);
    assert {c.x, c.y} == {first, second};
    OriginalsDiffer(cases, ordered, n, corpus, firstOnX, opaqueOf, first, second);
    assert (cases + [c])[..n] == cases && (cases + [c])[..n + 1] == cases + [c];
    Grows(cases + [c], n, first, second);
    EntryAppended(cases, ordered[..n], ordered[n], corpus, firstOnX, opaqueOf, first, second);
    assert ordered[..n + 1] == ordered[..n] + [ordered[n]];
  }

  lemma {:induction false} EntryAppended(cases: seq<KeyCase>, ordered: seq<string>, id: string, corpus: seq<Case>,
      firstOnX: set<string>, opaqueOf: string -> string, first: string, second: string)
    requires Filled(cases, ordered, corpus, firstOnX, opaqueOf, first, second) && Known(corpus, id)
    ensures var c := Entry(id, corpus, firstOnX, opaqueOf, first, second);
      Filled(cases + [c], ordered + [id], corpus, firstOnX, opaqueOf, first, second)
  {
    hide Known, Entry;
  }

  lemma {:induction false} OriginalsDiffer(cases: seq<KeyCase>, ordered: seq<string>, n: nat, corpus: seq<Case>,
      firstOnX: set<string>, opaqueOf: string -> string, first: string, second: string)
    requires n < |ordered| && NoRepeats(ordered)
    requires Filled(cases, ordered[..n], corpus, firstOnX, opaqueOf, first, second)
    ensures forall k :: k in cases ==> k.original != ordered[n]
  {
    hide Known;
    forall k | k in cases ensures k.original != ordered[n] {
      var i :| 0 <= i < n && cases[i] == k;
      assert ordered[..n][i] == ordered[i];
    }
  }

  lemma {:induction false} IDsListed(corpus: seq<Case>, ids: seq<string>)
    requires |ids| == |corpus| && forall i :: 0 <= i < |ids| ==> ids[i] == corpus[i].id
    ensures forall c :: c in corpus ==> c.id in ids
  {
    forall c | c in corpus ensures c.id in ids {
      var i :| 0 <= i < |corpus| && corpus[i] == c;
      assert ids[i] == c.id;
    }
  }

  lemma {:induction false} Collision(cases: seq<KeyCase>, ordered: seq<string>, n: nat, corpus: seq<Case>,
      firstOnX: set<string>, opaqueOf: string -> string, first: string, second: string)
    requires n < |ordered| && Filled(cases, ordered[..n], corpus, firstOnX, opaqueOf, first, second)
    requires NoRepeats(ordered) && Known(corpus, ordered[n])
    requires exists c :: c in cases && c.opaqueID == opaqueOf(ordered[n])
    ensures exists c, d :: c in corpus && d in corpus && opaqueOf(c.id) == opaqueOf(d.id) && c.id != d.id
  {
    var i :| 0 <= i < n && cases[i].opaqueID == opaqueOf(ordered[n]);
    assert ordered[..n][i] == ordered[i];
    var c :| c in corpus && c.id == ordered[n];
    var d := Case(ordered[i], cases[i].category);
    assert d in corpus && opaqueOf(c.id) == opaqueOf(d.id);
  }

  lemma {:induction false} NoCollision(cases: seq<KeyCase>, ordered: seq<string>, corpus: seq<Case>,
      firstOnX: set<string>, opaqueOf: string -> string, first: string, second: string)
    requires Filled(cases, ordered, corpus, firstOnX, opaqueOf, first, second) && WellFormed(cases, first, second)
    requires forall c :: c in corpus ==> c.id in ordered
    ensures forall c, d :: c in corpus && d in corpus && opaqueOf(c.id) == opaqueOf(d.id) ==> c.id == d.id
  {
    forall c, d | c in corpus && d in corpus && opaqueOf(c.id) == opaqueOf(d.id) ensures c.id == d.id {
      var i :| 0 <= i < |ordered| && ordered[i] == c.id;
      var j :| 0 <= j < |ordered| && ordered[j] == d.id;
      assert cases[i].opaqueID == cases[j].opaqueID;
      if i < j || j < i { assert false; }
    }
  }

  /** Every case of the corpus has its entry in the key, with its own category. */
  lemma {:induction false} Listed(cases: seq<KeyCase>, ordered: seq<string>, corpus: seq<Case>, firstOnX: set<string>,
               opaqueOf: string -> string, first: string, second: string)
    requires Filled(cases, ordered, corpus, firstOnX, opaqueOf, first, second) && DistinctIDs(corpus)
    requires forall c :: c in corpus ==> c.id in ordered
    ensures Describes(cases, corpus, firstOnX, first, second) && |cases| == |ordered|
  {
    forall c | c in corpus ensures exists k :: k in cases && k.original == c.id && k.category == c.category {
      var i :| 0 <= i < |ordered| && ordered[i] == c.id;
      assert Case(ordered[i], cases[i].category) in corpus;
      OneCategory(corpus, c.id, c.category, cases[i].category);
      assert cases[i] in cases;
    }
  }

  lemma {:induction false} EitherOrder(cases: seq<KeyCase>, first: string, second: string)
    requires WellFormed(cases, first, second)
    ensures WellFormed(cases, second, first) && forall m: nat, n: nat :: Near(m, n) == Near(n, m)
  {
    assert {first, second} == {second, first};
  }

  /** The balance of the placement is the balance the validator measures. */
  lemma {:induction false} BuiltIsAccepted(key: Key, corpus: seq<Case>, firstOnX: set<string>, first: string,
      second: string)
    requires first != second && Balanced(corpus, firstOnX) && WellFormed(key.cases, first, second)
    requires Counted(key.cases, first, second, key.placementX, key.placementY)
    requires Describes(key.cases, corpus, firstOnX, first, second)
    ensures Accepted(key, first, second) && Accepted(key, second, first)
  {
    hide Near, Tally, WellFormed, Describes, AllIDs, Members;
    SidesOfAll(key.cases, corpus, firstOnX, first, second);
    EitherOrder(key.cases, first, second);
    assert Near(Tally(key.cases, OnX(first)), Tally(key.cases, OnX(second)));
    forall category
      ensures Near(Tally(key.cases, OnXWithin(category, first)), Tally(key.cases, OnXWithin(category, second)))
    {
      SidesOfCategory(key.cases, corpus, firstOnX, first, second, category);
    }
  }

  lemma {:induction false} SidesOfAll(cases: seq<KeyCase>, corpus: seq<Case>, firstOnX: set<string>,
      first: string, second: string)
    requires first != second && WellFormed(cases, first, second)
    requires Describes(cases, corpus, firstOnX, first, second)
    ensures Tally(cases, OnX(first)) == |firstOnX * AllIDs(corpus)|
    ensures Tally(cases, OnX(second)) == |AllIDs(corpus) - firstOnX|
  {
    hide Tally;
    TallyCountsIDs(cases, OnX(first));
    TallyCountsIDs(cases, OnX(second));
    assert IDsAt(cases, OnX(first)) == firstOnX * AllIDs(corpus);
    assert IDsAt(cases, OnX(second)) == AllIDs(corpus) - firstOnX;
  }

  lemma {:induction false} SidesOfCategory(cases: seq<KeyCase>, corpus: seq<Case>, firstOnX: set<string>,
      first: string, second: string, category: string)
    requires first != second && WellFormed(cases, first, second)
    requires Describes(cases, corpus, firstOnX, first, second)
    ensures Tally(cases, OnXWithin(category, first)) == |firstOnX * Members(corpus, category)|
    ensures Tally(cases, OnXWithin(category, second)) == |Members(corpus, category) - firstOnX|
  {
    hide Tally;
    TallyCountsIDs(cases, OnXWithin(category, first));
    TallyCountsIDs(cases, OnXWithin(category, second));
    assert IDsAt(cases, OnXWithin(category, first)) == firstOnX * Members(corpus, category);
    assert IDsAt(cases, OnXWithin(category, second)) == Members(corpus, category) - firstOnX;
  }
}
