/** Client-side numbering of server effects and the ledger that applies them once
    (fcitx5-hazkey/src/hazkey_session_client.cpp:810-858, hazkey_session_client.h:65-83,
    hazkey_effect_ledger.cpp). */
module EffectNumbering {
  import opened ImeProtocol
  import opened Results

  /** The affine map of the current server namespace and the next unused global number. */
  datatype Numbering = Numbering(
    anchored: bool, rawAnchor: uint64, globalAnchor: uint64, highestRaw: uint64, next: uint64)

  const INITIAL := Numbering(false, 0, 0, 0, 1)

  function FreshNamespace(n: Numbering): Numbering {
    n.(anchored := false, rawAnchor := 0, globalAnchor := 0, highestRaw := 0)
  }

  function MaxOf(a: uint64, b: uint64): uint64 {
    if a >= b then a else b
  }

  function Anchor(n: Numbering, raw: uint64): Numbering {
    if n.anchored then n
    else n.(anchored := true, rawAnchor := raw, globalAnchor := n.next)
  }

  /** The number given to one effect: 0 when it is unnumbered, older than the namespace's
      anchor, or beyond the 64-bit range. */
  function Translate(n: Numbering, raw: uint64): uint64
    requires n.anchored
  {
    if raw < n.rawAnchor || raw - n.rawAnchor > MAX_UINT64 - n.globalAnchor then 0
    else n.globalAnchor + (raw - n.rawAnchor)
  }

  function Advance(n: Numbering, raw: uint64, id: uint64): Numbering
    requires id != 0
  {
    n.(highestRaw := MaxOf(n.highestRaw, raw),
       next := if id == MAX_UINT64 then id else MaxOf(n.next, id + 1))
  }

  function NumberOne(n: Numbering, raw: uint64): (Numbering, uint64) {
    if raw == 0 then (n, 0)
    else
      var a := Anchor(n, raw);
      var id := Translate(a, raw);
      if id == 0 then (a, 0) else (Advance(a, raw, id), id)
  }

  // ------------------------------------------------------- history and invariant

  /** One confirmed effect: the namespace it came from, as sent, and as numbered. */
  datatype Confirmed = Confirmed(namespace: nat, raw: Effect, effect: Effect)

  function Raws(t: seq<Confirmed>): (r: seq<Effect>)
    ensures |r| == |t| && forall k :: 0 <= k < |t| ==> r[k] == t[k].raw
  {
    seq(|t|, k requires 0 <= k < |t| => t[k].raw)
  }

  function Effects(t: seq<Confirmed>): (r: seq<Effect>)
    ensures |r| == |t| && forall k :: 0 <= k < |t| ==> r[k] == t[k].effect
  {
    seq(|t|, k requires 0 <= k < |t| => t[k].effect)
  }

  /** An effect is dropped only when it precedes its namespace's first numbered effect, or
      would leave the 64-bit range. */
  ghost predicate DroppedForCause(t: seq<Confirmed>, i: nat)
    requires i < |t|
  {
    t[i].raw.id != 0 && t[i].effect.id == 0 ==>
      exists j :: 0 <= j < i && t[j].namespace == t[i].namespace && t[j].effect.id != 0
        && (t[i].raw.id < t[j].raw.id || t[j].effect.id - t[j].raw.id + t[i].raw.id > MAX_UINT64)
  }

  ghost predicate EntryInRange(n: Numbering, ns: nat, c: Confirmed) {
    && c.namespace <= ns
    && c.effect.content == c.raw.content
    && (c.effect.id != 0 ==>
          && c.raw.id != 0
          && (c.effect.id < n.next || c.effect.id == n.next == MAX_UINT64)
          && (c.namespace == ns ==> n.anchored && c.effect.id - c.raw.id == n.globalAnchor - n.rawAnchor)
          && (c.namespace < ns && n.anchored ==>
                c.effect.id < n.globalAnchor || c.effect.id == n.globalAnchor == MAX_UINT64))
  }

  /** Two confirmed effects, the first confirmed earlier. */
  ghost predicate PairInOrder(a: Confirmed, b: Confirmed) {
    && a.namespace <= b.namespace
    && (a.effect.id != 0 && b.effect.id != 0 ==>
          && (a.namespace == b.namespace ==> a.effect.id - a.raw.id == b.effect.id - b.raw.id)
          && (a.namespace < b.namespace ==>
                a.effect.id < b.effect.id || a.effect.id == b.effect.id == MAX_UINT64))
  }

  ghost predicate HasAnchor(n: Numbering, ns: nat, t: seq<Confirmed>) {
    exists j :: 0 <= j < |t| && t[j].namespace == ns
      && t[j].raw.id == n.rawAnchor && t[j].effect.id == n.globalAnchor
  }

  ghost predicate NumberingOk(n: Numbering, ns: nat, t: seq<Confirmed>) {
    && n.next >= 1
    && (n.anchored ==> n.globalAnchor >= 1 && n.globalAnchor <= n.next && HasAnchor(n, ns, t))
    && (forall i :: 0 <= i < |t| ==> EntryInRange(n, ns, t[i]))
    && (forall i, j :: 0 <= i < j < |t| ==> PairInOrder(t[i], t[j]))
    && (forall i :: 0 <= i < |t| ==> DroppedForCause(t, i))
  }

  /** Starting a namespace keeps everything numbered so far below what comes next. */
  lemma {:induction false} FreshNamespaceOk(n: Numbering, ns: nat, t: seq<Confirmed>)
    requires NumberingOk(n, ns, t)
    ensures NumberingOk(FreshNamespace(n), ns + 1, t)
  {
    var f := FreshNamespace(n);
    forall i | 0 <= i < |t| ensures EntryInRange(f, ns + 1, t[i]) {
      assert EntryInRange(n, ns, t[i]);
    }
  }

  /** Gluing one more entry to a good history. */
  lemma {:induction false} Appended(n: Numbering, ns: nat, t: seq<Confirmed>, c: Confirmed)
    requires n.next >= 1
    requires n.anchored ==> n.globalAnchor >= 1 && n.globalAnchor <= n.next && HasAnchor(n, ns, t + [c])
    requires forall i :: 0 <= i < |t| ==> EntryInRange(n, ns, t[i]) && PairInOrder(t[i], c)
    requires forall i, j :: 0 <= i < j < |t| ==> PairInOrder(t[i], t[j])
    requires forall i :: 0 <= i < |t| ==> DroppedForCause(t, i)
    requires EntryInRange(n, ns, c) && DroppedForCause(t + [c], |t|)
    ensures NumberingOk(n, ns, t + [c])
  {
    var t' := t + [c];
    forall i | 0 <= i < |t'| ensures DroppedForCause(t', i) {
      if i < |t| {
        assert DroppedForCause(t, i);
        if t[i].raw.id != 0 && t[i].effect.id == 0 {
          var j :| 0 <= j < i && t[j].namespace == t[i].namespace && t[j].effect.id != 0
            && (t[i].raw.id < t[j].raw.id || t[j].effect.id - t[j].raw.id + t[i].raw.id > MAX_UINT64);
          assert t'[j] == t[j];
        }
      }
    }
    forall i, j | 0 <= i < j < |t'| ensures PairInOrder(t'[i], t'[j]) {
      if j < |t| { assert PairInOrder(t[i], t[j]); }
    }
  }

  lemma {:induction false} AnchorStays(n: Numbering, n': Numbering, ns: nat, t: seq<Confirmed>, c: Confirmed)
    requires HasAnchor(n, ns, t) && n'.rawAnchor == n.rawAnchor && n'.globalAnchor == n.globalAnchor
    ensures HasAnchor(n', ns, t + [c])
  {
    var j :| 0 <= j < |t| && t[j].namespace == ns
      && t[j].raw.id == n.rawAnchor && t[j].effect.id == n.globalAnchor;
    assert (t + [c])[j] == t[j];
  }

  /** Numbering one more effect keeps the invariant: the map stays affine within the namespace
      and above every earlier one, and no step leaves the 64-bit range. */
  lemma {:induction false} NumberOneOk(n: Numbering, ns: nat, t: seq<Confirmed>, raw: Effect)
    requires NumberingOk(n, ns, t)
    ensures var (n', id) := NumberOne(n, raw.id);
      NumberingOk(n', ns, t + [Confirmed(ns, raw, raw.(id := id))])
  {
    var (n', id) := NumberOne(n, raw.id);
    var c := Confirmed(ns, raw, raw.(id := id));
    forall i | 0 <= i < |t| ensures EntryInRange(n', ns, t[i]) && PairInOrder(t[i], c) {
      assert EntryInRange(n, ns, t[i]);
    }
    if n.anchored {
      AnchorStays(n, n', ns, t, c);
      if raw.id != 0 && id == 0 {
        AnchorDropsForCause(n, ns, t, c);
      }
    } else if raw.id != 0 {
      assert id == n.next;
      assert (t + [c])[|t|] == c;
    }
    Appended(n', ns, t, c);
  }

  lemma {:induction false} AnchorDropsForCause(n: Numbering, ns: nat, t: seq<Confirmed>, c: Confirmed)
    requires n.anchored && n.globalAnchor >= 1 && HasAnchor(n, ns, t)
    requires c.namespace == ns && c.effect.id == 0 && Translate(n, c.raw.id) == 0
    ensures DroppedForCause(t + [c], |t|)
  {
    var j :| 0 <= j < |t| && t[j].namespace == ns
      && t[j].raw.id == n.rawAnchor && t[j].effect.id == n.globalAnchor;
    assert (t + [c])[j] == t[j];
  }

  // -------------------------------------------------------- numbering a response

  /** The numbered form of a list of raw effects, and the numbering after it. */
  function NumberAll(n: Numbering, raws: seq<Effect>): (Numbering, seq<Effect>)
  {
    if raws == [] then (n, [])
    else
      var (m, done) := NumberAll(n, raws[..|raws| - 1]);
      var last := raws[|raws| - 1];
      var (n', id) := NumberOne(m, last.id);
      (n', done + [last.(id := id)])
  }

  function Confirm(ns: nat, raws: seq<Effect>, effects: seq<Effect>): (c: seq<Confirmed>)
    requires |raws| == |effects|
    ensures Raws(c) == raws && Effects(c) == effects
  {
    seq(|raws|, k requires 0 <= k < |raws| => Confirmed(ns, raws[k], effects[k]))
  }

  lemma {:induction false} NumberAllOk(n: Numbering, ns: nat, t: seq<Confirmed>, raws: seq<Effect>)
    requires NumberingOk(n, ns, t)
    ensures var (n', effects) := NumberAll(n, raws);
      |effects| == |raws| && NumberingOk(n', ns, t + Confirm(ns, raws, effects))
  {
    hide NumberingOk, NumberOne;
    if raws == [] {
      assert t + Confirm(ns, [], []) == t;
    } else {
      var front, last := raws[..|raws| - 1], raws[|raws| - 1];
      NumberAllOk(n, ns, t, front);
      var (m, done) := NumberAll(n, front);
      NumberOneOk(m, ns, t + Confirm(ns, front, done), last);
      var (n', effects) := NumberAll(n, raws);
      var id := NumberOne(m, last.id).1;
      assert t + Confirm(ns, raws, effects)
          == t + Confirm(ns, front, done) + [Confirmed(ns, last, last.(id := id))];
    }
  }

  // ------------------------------------------------------------------- ledger

  /** The ledger's high-water mark after offering it these effects in order. */
  function HighWater(high: uint64, effects: seq<Effect>): (h: uint64)
    ensures h >= high
  {
    if effects == [] then high
    else MaxOf(HighWater(high, effects[..|effects| - 1]), effects[|effects| - 1].id)
  }

  /** The effects the ledger lets through. */
  function Accepted(high: uint64, effects: seq<Effect>): seq<Effect> {
    if effects == [] then []
    else
      var front, last := effects[..|effects| - 1], effects[|effects| - 1];
      Accepted(high, front) + if last.id > HighWater(high, front) then [last] else []
  }

  predicate IncreasingIDs(s: seq<Effect>) {
    forall i, j :: 0 <= i < j < |s| ==> s[i].id < s[j].id
  }

  class EffectLedger {
    var highestApplied: uint64
    var appliedCount: nat

    constructor ()
      ensures highestApplied == 0 && appliedCount == 0
    {
      highestApplied, appliedCount := 0, 0;
    }

    method Claim(effectID: uint64) returns (fresh_: bool)
      modifies this
      ensures fresh_ <==> effectID > old(highestApplied)
      ensures highestApplied == MaxOf(old(highestApplied), effectID)
      ensures appliedCount == old(appliedCount) + if fresh_ then 1 else 0
    {
      if effectID == 0 || effectID <= highestApplied {
        return false;
      }
      highestApplied := effectID;
      appliedCount := appliedCount + 1;
      return true;
    }

    method Clear()
      modifies this
      ensures highestApplied == 0 && appliedCount == 0
    {
      highestApplied, appliedCount := 0, 0;
    }

    /** The caller's loop over the effects of a response (hazkey_state.cpp:622-627): each one
        is applied only when the ledger grants it. */
    method Apply(effects: seq<Effect>) returns (applied: seq<Effect>)
      modifies this
      ensures applied == Accepted(old(highestApplied), effects)
      ensures highestApplied == HighWater(old(highestApplied), effects)
      ensures appliedCount == old(appliedCount) + |applied|
    {
      applied := [];
      for k := 0 to |effects|
        invariant applied == Accepted(old(highestApplied), effects[..k])
        invariant highestApplied == HighWater(old(highestApplied), effects[..k])
        invariant appliedCount == old(appliedCount) + |applied|
      {
        assert effects[..k + 1][..k] == effects[..k];
        var granted := Claim(effects[k].id);
        if granted {
          applied := applied + [effects[k]];
        }
      }
      assert effects[..|effects|] == effects;
    }
  }

  /** Whatever is offered, in whatever order and however often, the numbers let through are
      strictly increasing: no number is applied twice. */
  lemma {:induction false} AcceptedIncrease(high: uint64, effects: seq<Effect>)
    ensures IncreasingIDs(Accepted(high, effects))
    ensures forall e :: e in Accepted(high, effects) ==> high < e.id <= HighWater(high, effects)
    ensures forall e :: e in Accepted(high, effects) ==> e in effects
  {
    if effects != [] {
      AcceptedIncrease(high, effects[..|effects| - 1]);
    }
  }

  lemma {:induction false} NextAccepted(high: uint64, effects: seq<Effect>)
    requires effects != []
    ensures var front, last := effects[..|effects| - 1], effects[|effects| - 1];
      HighWater(high, front) < last.id || (front == [] && high < last.id) ==>
        Accepted(high, effects) == Accepted(high, front) + [last] && HighWater(high, effects) == last.id
  {
  }

  /** Effects offered with increasing numbers are all let through. */
  lemma {:induction false} IncreasingAreAccepted(high: uint64, effects: seq<Effect>)
    requires IncreasingIDs(effects)
    requires effects != [] ==> high < effects[0].id
    ensures Accepted(high, effects) == effects
    ensures effects != [] ==> HighWater(high, effects) == effects[|effects| - 1].id
  {
    if effects != [] {
      var front, last := effects[..|effects| - 1], effects[|effects| - 1];
      assert front != [] ==> front[0] == effects[0] && front[|front| - 1].id < last.id;
      IncreasingAreAccepted(high, front);
      NextAccepted(high, effects);
      hide Accepted, HighWater;
      assert effects == front + [last];
    }
  }

  // ---------------------------------------------------------------- main results

  /** Between two clearings, one server effect has one number: within a namespace the map is
      strictly increasing, and every namespace lies above the earlier ones until the last
      64-bit number is reached. */
  lemma {:induction false} NumbersAreFaithful(n: Numbering, ns: nat, t: seq<Confirmed>, i: nat, j: nat)
    requires NumberingOk(n, ns, t) && i < |t| && j < |t|
    requires t[i].effect.id != 0 && t[j].effect.id != 0
    ensures t[i].namespace == t[j].namespace ==>
      (t[i].raw.id < t[j].raw.id <==> t[i].effect.id < t[j].effect.id)
    ensures t[i].namespace < t[j].namespace ==>
      (t[i].effect.id < t[j].effect.id <==> t[i].effect.id != MAX_UINT64)
  {
    if i < j {
      assert PairInOrder(t[i], t[j]);
    } else if j < i {
      assert PairInOrder(t[j], t[i]);
    }
  }

  /** At most once: however the confirmed effects are delivered - reordered, dropped or
      repeated - two applied effects never stem from the same server effect. */
  lemma {:induction false} AppliedAtMostOnce(
      n: Numbering, ns: nat, t: seq<Confirmed>, delivered: seq<Effect>, x: nat, y: nat, i: nat, j: nat)
    requires NumberingOk(n, ns, t)
    requires x < y < |Accepted(0, delivered)| && i < |t| && j < |t|
    requires t[i].effect == Accepted(0, delivered)[x] && t[j].effect == Accepted(0, delivered)[y]
    ensures t[i].namespace != t[j].namespace || t[i].raw.id != t[j].raw.id
  {
    AcceptedIncrease(0, delivered);
    assert Accepted(0, delivered)[x] in Accepted(0, delivered);
    NumbersAreFaithful(n, ns, t, i, j);
    NumbersAreFaithful(n, ns, t, j, i);
  }

  /** What the server promises: numbered effects whose numbers increase within a namespace. */
  ghost predicate ServerIncreases(t: seq<Confirmed>) {
    && (forall i :: 0 <= i < |t| ==> t[i].raw.id != 0)
    && (forall i, j :: 0 <= i < j < |t| && t[i].namespace == t[j].namespace ==> t[i].raw.id < t[j].raw.id)
  }

  /** The 64-bit range is not used up. */
  ghost predicate RangeLeft(t: seq<Confirmed>) {
    && (forall i :: 0 <= i < |t| ==> t[i].effect.id != MAX_UINT64)
    && (forall i, j :: 0 <= i < |t| && 0 <= j < |t| && t[i].namespace == t[j].namespace && t[j].effect.id != 0 ==>
          t[j].effect.id - t[j].raw.id + t[i].raw.id <= MAX_UINT64)
  }

  /** Exactly once: from an increasing server, effects delivered in confirmation order are all
      applied, in that order. */
  lemma {:induction false} AppliedExactlyOnce(n: Numbering, ns: nat, t: seq<Confirmed>)
    requires NumberingOk(n, ns, t) && ServerIncreases(t) && RangeLeft(t)
    ensures Accepted(0, Effects(t)) == Effects(t)
  {
    forall i | 0 <= i < |t| ensures t[i].effect.id != 0 {
      assert DroppedForCause(t, i);
    }
    forall i, j | 0 <= i < j < |t| ensures Effects(t)[i].id < Effects(t)[j].id {
      assert PairInOrder(t[i], t[j]);
    }
    IncreasingAreAccepted(0, Effects(t));
  }
}
