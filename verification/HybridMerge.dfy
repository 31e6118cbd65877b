/** Order-preserving merges of two candidate lists
    (tools/dictionary/evaluate_mozc_hybrid_spike.py:71-172). `nfc` is Unicode NFC. */
module HybridMerge {
  import opened Results
  import opened Sequences

  const MozcStablePrefix: nat := 3

  // ----------------------------------------------------------------- deduplication

  /** The surfaces of a list of candidates. */
  function Surfaces(s: seq<string>, nfc: string -> string): set<string> {
    set c | c in s :: nfc(c)
  }

  ghost predicate DistinctSurfaces(s: seq<string>, nfc: string -> string) {
    forall i, j :: 0 <= i < j < |s| ==> nfc(s[i]) != nfc(s[j])
  }

  /** The first candidate of every surface, in order. */
  function Dedup(s: seq<string>, nfc: string -> string): seq<string> {
    if s == [] then []
    else
      var front, last := s[..|s| - 1], s[|s| - 1];
      Dedup(front, nfc) + if nfc(last) in Surfaces(front, nfc) then [] else [last]
  }

  lemma {:induction false} DedupNext(s: seq<string>, c: string, nfc: string -> string)
    ensures Dedup(s + [c], nfc) == Dedup(s, nfc) + if nfc(c) in Surfaces(s, nfc) then [] else [c]
    ensures Surfaces(s + [c], nfc) == Surfaces(s, nfc) + {nfc(c)}
  {
    assert (s + [c])[..|s|] == s;
  }

  lemma {:induction false} DedupPrefix(s: seq<string>, rest: seq<string>, nfc: string -> string)
    ensures Dedup(s, nfc) <= Dedup(s + rest, nfc)
  {
    if rest == [] {
      assert s + rest == s;
    } else {
      var n := |rest| - 1;
      DedupPrefix(s, rest[..n], nfc);
      assert s + rest == s + rest[..n] + [rest[n]];
      DedupNext(s + rest[..n], rest[n], nfc);
    }
  }

  /** Deduplication keeps one candidate per surface and loses no surface. */
  lemma {:induction false} DedupKeepsSurfaces(s: seq<string>, nfc: string -> string)
    ensures DistinctSurfaces(Dedup(s, nfc), nfc)
    ensures Surfaces(Dedup(s, nfc), nfc) == Surfaces(s, nfc)
    ensures forall c :: c in Dedup(s, nfc) ==> c in s
  {
    if s != [] {
      var front, last := s[..|s| - 1], s[|s| - 1];
      DedupKeepsSurfaces(front, nfc);
      assert s == front + [last];
      DedupNext(front, last, nfc);
      assert forall c :: c in Dedup(front, nfc) ==> nfc(c) in Surfaces(Dedup(front, nfc), nfc);
    }
  }

  /** Position `k` is the first with its surface. */
  predicate IsFirst(s: seq<string>, k: nat, nfc: string -> string)
    requires k < |s|
  {
    forall i :: 0 <= i < k ==> nfc(s[i]) != nfc(s[k])
  }

  /** The positions of the first candidates. */
  ghost function Firsts(s: seq<string>, nfc: string -> string): seq<nat> {
    if s == [] then []
    else
      var n := |s| - 1;
      Firsts(s[..n], nfc) + if nfc(s[n]) in Surfaces(s[..n], nfc) then [] else [n]
  }

  /** Order is preserved: the result reads the input at increasing positions. */
  lemma {:induction false} DedupKeepsOrder(s: seq<string>, nfc: string -> string)
    ensures |Firsts(s, nfc)| == |Dedup(s, nfc)|
    ensures var at := Firsts(s, nfc);
      && (forall i :: 0 <= i < |at| ==> at[i] < |s| && s[at[i]] == Dedup(s, nfc)[i])
      && forall i, j :: 0 <= i < j < |at| ==> at[i] < at[j]
  {
    hide Surfaces;
    if s != [] {
      DedupKeepsOrder(s[..|s| - 1], nfc);
    }
  }

  /** Those positions are the ones of the candidates no earlier one equals. */
  lemma {:induction false} FirstsAre(s: seq<string>, nfc: string -> string)
    ensures forall k: nat :: k in Firsts(s, nfc) <==> k < |s| && IsFirst(s, k, nfc)
  {
    if s != [] {
      var n := |s| - 1;
      FirstsAre(s[..n], nfc);
      LastIsFirst(s, nfc);
      hide Surfaces, IsFirst;
      forall k: nat ensures k in Firsts(s, nfc) <==> k < |s| && IsFirst(s, k, nfc) {
        if k < n { FirstOfFront(s, k, nfc); }
      }
    }
  }

  lemma {:induction false} LastIsFirst(s: seq<string>, nfc: string -> string)
    requires s != []
    ensures IsFirst(s, |s| - 1, nfc) <==> nfc(s[|s| - 1]) !in Surfaces(s[..|s| - 1], nfc)
  {
    if i :| 0 <= i < |s| - 1 && nfc(s[i]) == nfc(s[|s| - 1]) {
      assert s[i] in s[..|s| - 1];
    }
  }

  lemma {:induction false} FirstOfFront(s: seq<string>, k: nat, nfc: string -> string)
    requires k < |s| - 1
    ensures IsFirst(s, k, nfc) <==> IsFirst(s[..|s| - 1], k, nfc)
  {
  }

  function Flatten(groups: seq<seq<string>>): seq<string> {
    if groups == [] then [] else Flatten(groups[..|groups| - 1]) + groups[|groups| - 1]
  }

  /** The first `limit` deduplicated candidates; no limit is ever met when it is zero. */
  function Unique(s: seq<string>, limit: nat, nfc: string -> string): seq<string> {
    var all := Dedup(s, nfc);
    if 0 < limit <= |all| then all[..limit] else all
  }

  lemma {:induction false} UniqueReached(s: seq<string>, rest: seq<string>, limit: nat, nfc: string -> string)
    requires |Dedup(s, nfc)| == limit > 0
    ensures Unique(s + rest, limit, nfc) == Dedup(s, nfc)
  {
    DedupPrefix(s, rest, nfc);
  }

  lemma {:induction false} FlattenPrefix(groups: seq<seq<string>>, n: nat)
    requires n <= |groups|
    ensures Flatten(groups[..n]) <= Flatten(groups)
  {
    if n < |groups| {
      var front := groups[..|groups| - 1];
      FlattenPrefix(front, n);
      assert front[..n] == groups[..n];
    } else {
      assert groups[..n] == groups;
    }
  }

  method UniqueSurfaces(groups: seq<seq<string>>, suggestionLimit: nat, nfc: string -> string)
    returns (candidates: seq<string>)
    ensures candidates == Unique(Flatten(groups), suggestionLimit, nfc)
  {
    candidates := [];
    var seen: set<string> := {};
    var done := false;
    for g := 0 to |groups|
      invariant candidates == Dedup(Flatten(groups[..g]), nfc) && seen == Surfaces(Flatten(groups[..g]), nfc)
      invariant |candidates| < suggestionLimit || suggestionLimit == 0
    {
      hide *;
      ghost var before := Flatten(groups[..g]);
      done, candidates, seen := UniqueOfGroup(groups[g], suggestionLimit, nfc, before, candidates, seen);
      if done {
        ghost var k :| 0 <= k <= |groups[g]| && candidates == Dedup(before + groups[g][..k], nfc);
        Remaining(groups, g, k);
        UniqueReached(before + groups[g][..k], Flatten(groups)[|before| + k..], suggestionLimit, nfc);
        return;
      }
      FlattenNext(groups, g);
    }
    assert groups[..|groups|] == groups;
  }

  lemma {:induction false} FlattenNext(groups: seq<seq<string>>, g: nat)
    requires g < |groups|
    ensures Flatten(groups[..g + 1]) == Flatten(groups[..g]) + groups[g]
  {
    assert groups[..g + 1][..g] == groups[..g];
  }

  /** The inner loop: `done` when the limit is reached within the group. */
  method UniqueOfGroup(group: seq<string>, suggestionLimit: nat, nfc: string -> string, ghost before: seq<string>,
                       candidates: seq<string>, seen: set<string>)
    returns (done: bool, candidates': seq<string>, seen': set<string>)
    requires candidates == Dedup(before, nfc) && seen == Surfaces(before, nfc)
    requires |candidates| < suggestionLimit || suggestionLimit == 0
    ensures !done ==> candidates' == Dedup(before + group, nfc) && seen' == Surfaces(before + group, nfc)
    ensures !done ==> |candidates'| < suggestionLimit || suggestionLimit == 0
    ensures done ==> |candidates'| == suggestionLimit > 0
    ensures done ==> exists k :: 0 <= k <= |group| && candidates' == Dedup(before + group[..k], nfc)
  {
    hide Dedup, Surfaces;
    candidates', seen', done := candidates, seen, false;
    assert before + group[..0] == before;
    for k := 0 to |group|
      invariant candidates' == Dedup(before + group[..k], nfc) && seen' == Surfaces(before + group[..k], nfc)
      invariant |candidates'| < suggestionLimit || suggestionLimit == 0
    {
      var normalized := nfc(group[k]);
      assert before + group[..k + 1] == before + group[..k] + [group[k]];
      DedupNext(before + group[..k], group[k], nfc);
      if normalized !in seen' {
        seen' := seen' + {normalized};
        candidates' := candidates' + [group[k]];
        if |candidates'| == suggestionLimit {
          done := true;
          return;
        }
      }
    }
    assert group[..|group|] == group;
  }

  lemma {:induction false} Remaining(groups: seq<seq<string>>, g: nat, k: nat)
    requires g < |groups| && k <= |groups[g]|
    ensures var read := Flatten(groups[..g]) + groups[g][..k];
      |read| <= |Flatten(groups)| && read + Flatten(groups)[|read|..] == Flatten(groups)
  {
    FlattenPrefix(groups, g + 1);
    assert groups[..g + 1][..g] == groups[..g];
    assert Flatten(groups[..g + 1]) == Flatten(groups[..g]) + groups[g];
  }

  // ------------------------------------------------------------------ what Unique keeps

  lemma {:induction false} SurfaceCount(s: seq<string>, nfc: string -> string)
    requires DistinctSurfaces(s, nfc)
    ensures |Surfaces(s, nfc)| == |s|
  {
    if s != [] {
      var front, last := s[..|s| - 1], s[|s| - 1];
      SurfaceCount(front, nfc);
      assert s == front + [last];
      assert Surfaces(s, nfc) == Surfaces(front, nfc) + {nfc(last)};
    }
  }

  lemma {:induction false} DedupFirst(s: seq<string>, nfc: string -> string)
    requires s != []
    ensures Dedup(s, nfc) != [] && Dedup(s, nfc)[0] == s[0]
  {
    if |s| > 1 { DedupFirst(s[..|s| - 1], nfc); }
  }

  /** A limited selection: distinct surfaces of `s`, as many as the limit allows, headed by `s`'s own head. */
  ghost predicate Selects(out: seq<string>, surfaces: set<string>, from: seq<string>, limit: nat,
      nfc: string -> string) {
    && DistinctSurfaces(out, nfc)
    && (forall c :: c in out ==> c in from)
    && |out| == (if |surfaces| < limit then |surfaces| else limit)
    && Surfaces(out, nfc) <= surfaces
    && (|surfaces| <= limit ==> Surfaces(out, nfc) == surfaces)
  }

  lemma {:induction false} UniqueSelects(s: seq<string>, limit: nat, nfc: string -> string)
    requires limit > 0
    ensures Selects(Unique(s, limit, nfc), Surfaces(s, nfc), s, limit, nfc)
    ensures s != [] ==> Unique(s, limit, nfc) != [] && Unique(s, limit, nfc)[0] == s[0]
  {
    hide Dedup;
    var all := Dedup(s, nfc);
    DedupKeepsSurfaces(s, nfc);
    SurfaceCount(all, nfc);
    if s != [] { DedupFirst(s, nfc); }
    var out := Unique(s, limit, nfc);
    assert out <= all;
    assert Surfaces(out, nfc) <= Surfaces(all, nfc) by {
      forall c | c in out ensures c in all {}
    }
    assert |all| <= limit ==> out == all;
  }

  lemma {:induction false} UniquePrefix(s: seq<string>, rest: seq<string>, limit: nat, nfc: string -> string)
    requires limit > 0
    ensures Unique(s, limit, nfc) <= Unique(s + rest, limit, nfc)
  {
    DedupPrefix(s, rest, nfc);
  }

  // ------------------------------------------------------------------------ merging

  datatype Decision =
    | NoCandidates | HazkeyFallbackMozcEmpty | KeepMozcHazkeyEmpty | PromoteHazkeyOneSidedConsensus | KeepMozcTop1

  datatype Merged = Merged(candidates: seq<string>, decision: Decision)

  /** Hazkey's first candidate is below Mozc's first, which Hazkey does not offer at all. */
  predicate OneSidedConsensus(hazkey: seq<string>, mozc: seq<string>, nfc: string -> string) {
    && hazkey != [] && mozc != []
    && nfc(hazkey[0]) in Surfaces(mozc[1..], nfc)
    && nfc(mozc[0]) !in Surfaces(hazkey, nfc)
  }

  function PromotedOrder(hazkey: seq<string>, mozc: seq<string>): seq<string>
    requires hazkey != []
  {
    [hazkey[0]] + mozc + hazkey[1..]
  }

  function StableOrder(hazkey: seq<string>, mozc: seq<string>): seq<string> {
    TakeUpTo(mozc, MozcStablePrefix) + hazkey + From(mozc, MozcStablePrefix)
  }

  /** What the diagnostic policy puts out: Mozc first, unless one-sided consensus promotes. */
  function Hybrid(hazkey: seq<string>, mozc: seq<string>, limit: nat, nfc: string -> string): seq<string> {
    Unique(if OneSidedConsensus(hazkey, mozc, nfc) then PromotedOrder(hazkey, mozc) else StableOrder(hazkey, mozc),
           limit, nfc)
  }

  /** What the deployed policy, H0, puts out. */
  function H0(hazkey: seq<string>, mozc: seq<string>, limit: nat, nfc: string -> string): seq<string> {
    Unique(StableOrder(hazkey, mozc), limit, nfc)
  }

  predicate Explains(decision: Decision, hazkey: seq<string>, mozc: seq<string>, promoted: bool) {
    match decision
    case NoCandidates => hazkey == [] && mozc == []
    case HazkeyFallbackMozcEmpty => hazkey != [] && mozc == []
    case KeepMozcHazkeyEmpty => hazkey == [] && mozc != []
    case PromoteHazkeyOneSidedConsensus => promoted
    case KeepMozcTop1 => hazkey != [] && mozc != [] && !promoted
  }

  lemma {:induction false} FlattenThree(a: seq<string>, b: seq<string>, c: seq<string>)
    ensures Flatten([a, b, c]) == a + b + c
  {
    FlattenOne(a);
    assert [a, b, c][..2] == [a, b] && [a, b][..1] == [a];
  }

  lemma {:induction false} FlattenOne(a: seq<string>)
    ensures Flatten([a]) == a
  {
    assert [a][..0] == [];
  }

  lemma {:induction false} NothingToMerge(limit: nat, nfc: string -> string)
    ensures Unique(StableOrder([], []), limit, nfc) == []
  {
  }

  lemma {:induction false} OneListOrder(a: seq<string>)
    ensures StableOrder(a, []) == a && StableOrder([], a) == a
  {
  }

  method MergeCandidates(hazkey: seq<string>, mozc: seq<string>, limit: nat, nfc: string -> string)
    returns (r: Result<Merged>)
    ensures r.Ok? <==> limit >= 1
    ensures r.Ok? ==> r.value.candidates == Hybrid(hazkey, mozc, limit, nfc)
    ensures r.Ok? ==> Explains(r.value.decision, hazkey, mozc, OneSidedConsensus(hazkey, mozc, nfc))
  {
    hide Unique, StableOrder, Flatten;
    if limit < 1 { return Err("suggestion_limit must be positive"); }
    OneListOrder(hazkey);
    OneListOrder(mozc);
    FlattenOne(hazkey);
    FlattenOne(mozc);
    var candidates;
    if mozc == [] {
      if hazkey == [] {
        NothingToMerge(limit, nfc);
        return Ok(Merged([], NoCandidates));
      }
      candidates := UniqueSurfaces([hazkey], limit, nfc);
      return Ok(Merged(candidates, HazkeyFallbackMozcEmpty));
    }
    if hazkey == [] {
      candidates := UniqueSurfaces([mozc], limit, nfc);
      return Ok(Merged(candidates, KeepMozcHazkeyEmpty));
    }
    var hazkeyTop, mozcTop := nfc(hazkey[0]), nfc(mozc[0]);
    var hazkeyTopBelowMozc := exists c | c in mozc[1..] :: nfc(c) == hazkeyTop;
    var mozcTopInHazkey := exists c | c in hazkey :: nfc(c) == mozcTop;
    if hazkeyTopBelowMozc && !mozcTopInHazkey {
      FlattenThree([hazkey[0]], mozc, hazkey[1..]);
      candidates := UniqueSurfaces([[hazkey[0]], mozc, hazkey[1..]], limit, nfc);
      return Ok(Merged(candidates, PromoteHazkeyOneSidedConsensus));
    }
    candidates := MergeStable(hazkey, mozc, limit, nfc);
    r := Ok(Merged(candidates, KeepMozcTop1));
  }

  /** Mozc's stable prefix, then Hazkey, then the rest of Mozc. */
  method MergeStable(hazkey: seq<string>, mozc: seq<string>, limit: nat, nfc: string -> string)
    returns (candidates: seq<string>)
    ensures candidates == H0(hazkey, mozc, limit, nfc)
  {
    var first, rest := TakeUpTo(mozc, MozcStablePrefix), From(mozc, MozcStablePrefix);
    FlattenThree(first, hazkey, rest);
    candidates := UniqueSurfaces([first, hazkey, rest], limit, nfc);
  }

  method MergePreservingMozcTop1(hazkey: seq<string>, mozc: seq<string>, limit: nat, nfc: string -> string)
    returns (r: Result<Merged>)
    ensures r.Ok? <==> limit >= 1
    ensures r.Ok? ==> r.value.candidates == H0(hazkey, mozc, limit, nfc)
    ensures r.Ok? ==> Explains(r.value.decision, hazkey, mozc, false)
  {
    hide Unique, StableOrder, Flatten;
    if limit < 1 { return Err("suggestion_limit must be positive"); }
    OneListOrder(hazkey);
    OneListOrder(mozc);
    FlattenOne(hazkey);
    FlattenOne(mozc);
    var candidates;
    if mozc == [] {
      if hazkey == [] {
        NothingToMerge(limit, nfc);
        return Ok(Merged([], NoCandidates));
      }
      candidates := UniqueSurfaces([hazkey], limit, nfc);
      return Ok(Merged(candidates, HazkeyFallbackMozcEmpty));
    }
    if hazkey == [] {
      candidates := UniqueSurfaces([mozc], limit, nfc);
      return Ok(Merged(candidates, KeepMozcHazkeyEmpty));
    }
    candidates := MergeStable(hazkey, mozc, limit, nfc);
    r := Ok(Merged(candidates, KeepMozcTop1));
  }

  // ---------------------------------------------------------- what merging guarantees

  lemma {:induction false} OrdersCoverBoth(hazkey: seq<string>, mozc: seq<string>)
    ensures forall c :: c in StableOrder(hazkey, mozc) <==> c in hazkey + mozc
    ensures hazkey != [] ==> forall c :: c in PromotedOrder(hazkey, mozc) <==> c in hazkey + mozc
  {
    assert mozc == TakeUpTo(mozc, MozcStablePrefix) + From(mozc, MozcStablePrefix);
    if hazkey != [] {
      assert hazkey == [hazkey[0]] + hazkey[1..];
    }
  }

  lemma {:induction false} SameCandidatesSameSurfaces(a: seq<string>, b: seq<string>, nfc: string -> string)
    requires forall c :: c in a <==> c in b
    ensures Surfaces(a, nfc) == Surfaces(b, nfc)
  {
  }

  /** Either policy's output is duplicate-free, as long as the limit allows, from the two lists, and
      holds every surface of either list when the limit allows that. */
  lemma {:induction false} MergesSelect(hazkey: seq<string>, mozc: seq<string>, limit: nat, nfc: string -> string)
    requires limit > 0
    ensures var both := hazkey + mozc;
      && Selects(Hybrid(hazkey, mozc, limit, nfc), Surfaces(both, nfc), both, limit, nfc)
      && Selects(H0(hazkey, mozc, limit, nfc), Surfaces(both, nfc), both, limit, nfc)
  {
    var both := hazkey + mozc;
    OrdersCoverBoth(hazkey, mozc);
    UniqueSelects(StableOrder(hazkey, mozc), limit, nfc);
    SameCandidatesSameSurfaces(StableOrder(hazkey, mozc), both, nfc);
    if hazkey != [] {
      UniqueSelects(PromotedOrder(hazkey, mozc), limit, nfc);
      SameCandidatesSameSurfaces(PromotedOrder(hazkey, mozc), both, nfc);
    }
    hide Unique, StableOrder, PromotedOrder, Surfaces;
  }

  /** The head of a list, as the only candidate counted by Top-1. */
  function Top(s: seq<string>): Option<string> {
    if s == [] then None else Some(s[0])
  }

  /** Top-1 is Mozc's, except where Mozc has none or the diagnostic policy promotes Hazkey's. */
  lemma {:induction false} MergedTop1(hazkey: seq<string>, mozc: seq<string>, limit: nat, nfc: string -> string)
    requires limit > 0
    ensures Top(H0(hazkey, mozc, limit, nfc)) == if mozc != [] then Top(mozc) else Top(hazkey)
    ensures Top(Hybrid(hazkey, mozc, limit, nfc))
      == if mozc != [] && !OneSidedConsensus(hazkey, mozc, nfc) then Top(mozc) else Top(hazkey)
  {
    UniqueSelects(StableOrder(hazkey, mozc), limit, nfc);
    if hazkey != [] { UniqueSelects(PromotedOrder(hazkey, mozc), limit, nfc); }
    NothingToMerge(limit, nfc);
    hide Unique;
  }

  /** H0 keeps Mozc's first three candidates, up to duplicates and the limit, in front. */
  lemma {:induction false} H0KeepsStablePrefix(hazkey: seq<string>, mozc: seq<string>, limit: nat,
      nfc: string -> string)
    requires limit > 0
    ensures Unique(TakeUpTo(mozc, MozcStablePrefix), limit, nfc) <= H0(hazkey, mozc, limit, nfc)
  {
    UniquePrefix(TakeUpTo(mozc, MozcStablePrefix), hazkey + From(mozc, MozcStablePrefix), limit, nfc);
    assert StableOrder(hazkey, mozc)
      == TakeUpTo(mozc, MozcStablePrefix) + (hazkey + From(mozc, MozcStablePrefix));
  }
}
