/** The orders the corpus tools sort by: code-point order on strings, lexicographic order on
    index pairs, and a stable sort by key. */
module Orders {

  predicate StringLe(a: string, b: string) {
    a == "" || (b != "" && (a[0] < b[0] || (a[0] == b[0] && StringLe(a[1..], b[1..]))))
  }

  lemma {:induction false} StringLeTotal(a: string, b: string)
    ensures StringLe(a, b) || StringLe(b, a)
    ensures StringLe(a, b) && StringLe(b, a) ==> a == b
  {
    if a != "" && b != "" && a[0] == b[0] {
      StringLeTotal(a[1..], b[1..]);
      assert a == [a[0]] + a[1..] && b == [b[0]] + b[1..];
    }
  }

  lemma {:induction false} StringLeTransitive(a: string, b: string, c: string)
    requires StringLe(a, b) && StringLe(b, c)
    ensures StringLe(a, c)
  {
    if a != "" && a[0] == b[0] == c[0] {
      StringLeTransitive(a[1..], b[1..], c[1..]);
    }
  }

  predicate IndexLess(a: (nat, nat), b: (nat, nat)) {
    a.0 < b.0 || (a.0 == b.0 && a.1 < b.1)
  }

  ghost predicate StrictlySorted(s: seq<(nat, nat)>) {
    forall i, j :: 0 <= i < j < |s| ==> IndexLess(s[i], s[j])
  }

  /** `sorted` on a set of index pairs. */
  method SortIndexPairs(pairs: set<(nat, nat)>) returns (sorted: seq<(nat, nat)>)
    ensures StrictlySorted(sorted)
    ensures forall c :: c in sorted <==> c in pairs
  {
    sorted := [];
    var rest := pairs;
    while rest != {}
      invariant StrictlySorted(sorted)
      invariant rest <= pairs
      invariant forall c :: c in sorted <==> c in pairs - rest
      decreases rest
    {
      var c :| c in rest;
      var k := 0;
      while k < |sorted| && IndexLess(sorted[k], c)
        invariant 0 <= k <= |sorted|
        invariant forall i :: 0 <= i < k ==> IndexLess(sorted[i], c)
      {
        k := k + 1;
      }
      Inserted(sorted, k, c);
      sorted := sorted[..k] + [c] + sorted[k..];
      rest := rest - {c};
    }
  }

  lemma {:induction false} Inserted(s: seq<(nat, nat)>, k: nat, c: (nat, nat))
    requires StrictlySorted(s) && k <= |s| && c !in s
    requires forall i :: 0 <= i < k ==> IndexLess(s[i], c)
    requires k < |s| ==> !IndexLess(s[k], c)
    ensures StrictlySorted(s[..k] + [c] + s[k..])
    ensures forall x :: x in s[..k] + [c] + s[k..] <==> x in s || x == c
  {
    forall i | k <= i < |s| ensures IndexLess(c, s[i]) {
      assert s[k] in s && s[k] != c;
      assert i > k ==> IndexLess(s[k], s[i]);
    }
    assert s == s[..k] + s[k..];
  }
}
