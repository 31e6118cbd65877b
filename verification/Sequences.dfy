/** Sequences without repetition, and prefixes that may be shorter than asked for. */
module Sequences {

  predicate NoRepeats<T(==)>(s: seq<T>) {
    forall i, j :: 0 <= i < j < |s| ==> s[i] != s[j]
  }

  function Elements<T>(s: seq<T>): set<T> {
    set x | x in s
  }

  lemma {:induction false} CountElements<T>(s: seq<T>)
    requires NoRepeats(s)
    ensures |Elements(s)| == |s|
  {
    if s != [] {
      var front, last := s[..|s| - 1], s[|s| - 1];
      CountElements(front);
      assert Elements(s) == Elements(front) + {last};
      assert last !in front;
    }
  }

  lemma {:induction false} Pigeonhole(slots: seq<nat>, n: nat)
    requires NoRepeats(slots) && forall s :: s in slots ==> s < n
    ensures |slots| <= n
    decreases n
  {
    if slots != [] {
      assert slots[0] in slots;
      if k :| 0 <= k < |slots| && slots[k] == n - 1 {
        var rest := slots[..k] + slots[k + 1..];
        forall s | s in rest ensures s < n - 1 {
          var m :| 0 <= m < |rest| && rest[m] == s;
          var p := if m < k then m else m + 1;
          assert rest[m] == slots[p] && slots[p] in slots;
          assert p < k ==> slots[p] != slots[k];
        }
        Pigeonhole(rest, n - 1);
      } else {
        Pigeonhole(slots, n - 1);
      }
    }
  }

  /** `s[:n]`. */
  function TakeUpTo<T>(s: seq<T>, n: nat): seq<T> {
    if |s| <= n then s else s[..n]
  }

  /** `s[n:]`. */
  function From<T>(s: seq<T>, n: nat): seq<T> {
    if |s| <= n then [] else s[n..]
  }
}
