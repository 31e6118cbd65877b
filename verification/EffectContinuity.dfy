/** What the server promises about effect numbers, session by session, and what the client must do for
    that promise to carry over to its own namespaces
    (hazkey-server/Sources/hazkey-server/CompositionSession.swift:119-146,
    fcitx5-hazkey/src/hazkey_session_client.cpp:297-351, 454-579, 810-858). */
module EffectContinuity {
  import opened ImeProtocol
  import opened Results
  import opened RecoveryMaterial
  import opened Transcript
  import opened EffectNumbering

  // ------------------------------------------------------------ the server's promise

  /** The highest of these numbers, and of `floor`. */
  function Highest(effects: seq<Effect>, floor: nat): (h: nat)
    ensures h >= floor && forall i :: 0 <= i < |effects| ==> effects[i].id <= h
  {
    if effects == [] then floor
    else
      var h := Highest(effects[..|effects| - 1], floor);
      var last := effects[|effects| - 1].id;
      assert forall i :: 0 <= i < |effects| ==> effects[i].id <= h || i == |effects| - 1;
      if last > h then last else h
  }

  /** Numbers that strictly increase from above `floor`. */
  predicate Increasing(effects: seq<Effect>, floor: nat) {
    IncreasingIDs(effects) && forall i :: 0 <= i < |effects| ==> floor < effects[i].id
  }

  /** The last number a session restored from this checkpoint counts as used. */
  function Restored(checkpoint: string, nextOf: string -> nat): nat {
    if nextOf(checkpoint) == 0 then 0 else nextOf(checkpoint) - 1
  }

  /** Where the server continues from when it answers this action. */
  ghost function Base(log: seq<Event>, s: string, purpose: Purpose, action: Action, nextOf: string -> nat): nat {
    if purpose == Restoring && action.command.RestoreCheckpoint? then Restored(action.command.state, nextOf)
    else Issued(log, s, nextOf)
  }

  /** The highest number session `s` is known to have issued; a new session starts at nothing, a restored
      one at its checkpoint. */
  ghost function Issued(log: seq<Event>, s: string, nextOf: string -> nat): nat {
    if log == [] then 0
    else
      var front, last := log[..|log| - 1], log[|log| - 1];
      if last == Opened(s) then 0
      else if Succeeded(last) && last.session == s then
        Highest(EffectsOf(last.response),
                if last.purpose == Restoring && last.action.command.RestoreCheckpoint?
                then Restored(last.action.command.state, nextOf) else Issued(front, s, nextOf))
      else Issued(front, s, nextOf)
  }

  /** A successful answer numbers its effects upwards from where the session stands, its checkpoint
      covers every number issued, and it leaves no older checkpoint standing beside new effects. */
  ghost predicate AnswerKept(
      response: Option<Response>, base: nat, held: bool, nextOf: string -> nat)
  {
    IsSuccessful(response) ==>
      var snapshot := response.value.payload.snapshot.value;
      && Increasing(snapshot.effects, base)
      && (snapshot.recovery.Some? ==> Highest(snapshot.effects, base) <= Restored(snapshot.recovery.value, nextOf))
      && (snapshot.recovery.None? && held ==> snapshot.effects == [])
  }

  ghost predicate Promised(log: seq<Event>, nextOf: string -> nat) {
    log == [] ||
    var front, last := log[..|log| - 1], log[|log| - 1];
    && Promised(front, nextOf)
    && (Succeeded(last) ==>
          AnswerKept(last.response, Base(front, last.session, last.purpose, last.action, nextOf),
                     last.held.checkpoint != "", nextOf))
  }

  ghost function IssuedAfter(log: seq<Event>, e: Event, s: string, nextOf: string -> nat): nat {
    if e == Opened(s) then 0
    else if Succeeded(e) && e.session == s
    then Highest(EffectsOf(e.response), Base(log, s, e.purpose, e.action, nextOf))
    else Issued(log, s, nextOf)
  }

  lemma {:induction false} AppendPromise(log: seq<Event>, e: Event, nextOf: string -> nat)
    ensures Promised(log + [e], nextOf) <==> Promised(log, nextOf) && (Succeeded(e) ==>
      AnswerKept(e.response, Base(log, e.session, e.purpose, e.action, nextOf), e.held.checkpoint != "", nextOf))
    ensures forall s :: Issued(log + [e], s, nextOf) == IssuedAfter(log, e, s, nextOf)
  {
    assert (log + [e])[..|log|] == log;
  }

  /** The part of the transcript that concerns one session. */
  function OfSession(log: seq<Event>, s: string): seq<Event> {
    if log == [] then []
    else
      var last := log[|log| - 1];
      OfSession(log[..|log| - 1], s) + if last.session == s then [last] else []
  }

  lemma {:induction false} OfSessionAppend(log: seq<Event>, e: Event, s: string)
    ensures OfSession(log + [e], s) == OfSession(log, s) + if e.session == s then [e] else []
  {
    assert (log + [e])[..|log|] == log;
  }

  lemma {:induction false} IssuedIsPerSession(log: seq<Event>, s: string, nextOf: string -> nat)
    ensures Issued(log, s, nextOf) == Issued(OfSession(log, s), s, nextOf)
  {
    if log != [] {
      hide Issued, OfSession;
      var front, last := log[..|log| - 1], log[|log| - 1];
      IssuedIsPerSession(front, s, nextOf);
      IssuedStep(front, last, s, nextOf);
      assert log == front + [last];
    } else {
      assert OfSession(log, s) == log;
    }
  }

  lemma {:induction false} IssuedStep(front: seq<Event>, last: Event, s: string, nextOf: string -> nat)
    requires Issued(front, s, nextOf) == Issued(OfSession(front, s), s, nextOf)
    ensures Issued(front + [last], s, nextOf) == Issued(OfSession(front + [last], s), s, nextOf)
  {
    hide Issued, Promised, AnswerKept, Highest, EffectsOf, OfSession;
    AppendPromise(front, last, nextOf);
    AppendPromise(OfSession(front, s), last, nextOf);
    OfSessionAppend(front, last, s);
    assert last.session != s ==> OfSession(front, s) + [] == OfSession(front, s);
  }

  /** The last event of a transcript keeps the promise. */
  ghost predicate LastKept(front: seq<Event>, last: Event, nextOf: string -> nat) {
    Succeeded(last) ==>
      AnswerKept(last.response, Base(front, last.session, last.purpose, last.action, nextOf),
                 last.held.checkpoint != "", nextOf)
  }

  ghost predicate PromisedBy(log: seq<Event>, s: string, nextOf: string -> nat) {
    Promised(OfSession(log, s), nextOf)
  }

  lemma {:induction false} PromiseStep(front: seq<Event>, last: Event, s: string, nextOf: string -> nat)
    ensures PromisedBy(front + [last], s, nextOf) <==>
      PromisedBy(front, s, nextOf) && (last.session == s ==> LastKept(front, last, nextOf))
  {
    hide Issued, Promised, AnswerKept, OfSession;
    IssuedIsPerSession(front, last.session, nextOf);
    AppendPromise(OfSession(front, s), last, nextOf);
    OfSessionAppend(front, last, s);
    assert last.session != s ==> OfSession(front, s) + [] == OfSession(front, s);
  }

  /** The promise is one about each session alone: however the sessions are interleaved, it is kept on the
      whole exactly when every session keeps it. */
  lemma {:induction false} PromiseIsPerSession(log: seq<Event>, nextOf: string -> nat)
    ensures Promised(log, nextOf) <==> forall s :: PromisedBy(log, s, nextOf)
  {
    if log == [] {
      assert forall s :: OfSession(log, s) == log;
    } else {
      var front, last := log[..|log| - 1], log[|log| - 1];
      PromiseIsPerSession(front, nextOf);
      InEverySession(front, last, nextOf);
      AppendPromise(front, last, nextOf);
      assert log == front + [last];
    }
  }

  lemma {:induction false} InEverySession(front: seq<Event>, last: Event, nextOf: string -> nat)
    ensures (forall s :: PromisedBy(front + [last], s, nextOf)) <==>
      (forall s :: PromisedBy(front, s, nextOf)) && LastKept(front, last, nextOf)
  {
    hide PromisedBy, LastKept;
    PromiseStep(front, last, last.session, nextOf);
    forall s
      ensures PromisedBy(front + [last], s, nextOf) <==>
        PromisedBy(front, s, nextOf) && (last.session == s ==> LastKept(front, last, nextOf))
    {
      PromiseStep(front, last, s, nextOf);
    }
  }

  // ---------------------------------------------------------- the client's namespaces

  /** No number confirmed in namespace `ns` lies above `bound`. */
  predicate UpTo(t: seq<Confirmed>, ns: nat, bound: nat) {
    forall i :: 0 <= i < |t| && t[i].namespace == ns ==> t[i].raw.id <= bound
  }

  /** Confirming numbers from above everything in the current namespace keeps them increasing there. */
  lemma {:induction false} ConfirmKeepsIncrease(
      t: seq<Confirmed>, ns: nat, raws: seq<Effect>, effects: seq<Effect>, base: nat)
    requires ServerIncreases(t) && UpTo(t, ns, base) && Increasing(raws, base) && |raws| == |effects|
    ensures var t' := t + Confirm(ns, raws, effects);
      ServerIncreases(t') && UpTo(t', ns, Highest(raws, base))
  {
    var t' := t + Confirm(ns, raws, effects);
    forall i, j | 0 <= i < j < |t'| && t'[i].namespace == t'[j].namespace ensures t'[i].raw.id < t'[j].raw.id {
      if i >= |t| {
        assert raws[i - |t|].id < raws[j - |t|].id;
      }
    }
  }

  /** A namespace nothing was anchored in holds nothing an increasing server sent. */
  lemma {:induction false} UnanchoredIsEmpty(n: Numbering, ns: nat, t: seq<Confirmed>)
    requires NumberingOk(n, ns, t) && ServerIncreases(t) && !n.anchored
    ensures forall i :: 0 <= i < |t| ==> t[i].namespace != ns
  {
    assert forall j :: 0 <= j < |t| ==> EntryInRange(n, ns, t[j]) && (t[j].effect.id != 0 ==> t[j].namespace != ns);
    forall i | 0 <= i < |t| ensures t[i].namespace != ns {
      assert DroppedForCause(t, i);
    }
  }

  /** A namespace that was just started holds nothing. */
  lemma {:induction false} FreshIsEmpty(n: Numbering, ns: nat, t: seq<Confirmed>)
    requires NumberingOk(n, ns, t)
    ensures forall i :: 0 <= i < |t| ==> t[i].namespace != ns + 1
  {
    forall i | 0 <= i < |t| ensures t[i].namespace != ns + 1 {
      assert EntryInRange(n, ns, t[i]);
    }
  }

  /** The numbers confirmed so far increase within each namespace, and the checkpoint covers those of
      the current one. */
  ghost predicate SequencedIn(t: seq<Confirmed>, ns: nat, checkpoint: string, nextOf: string -> nat) {
    ServerIncreases(t) && (checkpoint != "" ==> UpTo(t, ns, Restored(checkpoint, nextOf)))
  }

  /** A successful answer continues above everything confirmed in namespace `ns`; `issued` is the highest
      number its session has issued with it. */
  ghost predicate AnsweredIn(
      t: seq<Confirmed>, ns: nat, response: Option<Response>, held: bool, issued: nat, nextOf: string -> nat)
  {
    IsSuccessful(response) ==>
      exists base: nat ::
        && UpTo(t, ns, base) && AnswerKept(response, base, held, nextOf)
        && issued == Highest(EffectsOf(response), base)
  }

  /** A transmission, seen from the numbers its session has issued. */
  lemma {:induction false} SentPromise(
      log: seq<Event>, log': seq<Event>, s: string, a: Action, purpose: Purpose, held: Material,
      response: Option<Response>, nextOf: string -> nat, t: seq<Confirmed>, ns: nat, checkpoint: string)
    requires Sent(log, log', s, a, purpose, held, response) && purpose != Disposition
    requires Promised(log', nextOf)
    ensures Promised(log, nextOf)
    ensures AnsweredIn([], ns, response, held.checkpoint != "", Issued(log', s, nextOf), nextOf)
    ensures SequencedIn(t, ns, checkpoint, nextOf)
      && (if purpose == Restoring then checkpoint != "" && a.command == Command.RestoreCheckpoint(checkpoint)
          else UpTo(t, ns, Issued(log, s, nextOf)))
      ==> AnsweredIn(t, ns, response, held.checkpoint != "", Issued(log', s, nextOf), nextOf)
    ensures !IsSuccessful(response) ==> Issued(log', s, nextOf) == Issued(log, s, nextOf)
    ensures forall x :: x != s ==> Issued(log', x, nextOf) == Issued(log, x, nextOf)
  {
    hide Promised, AnswerKept, Issued, EffectsOf, Highest, Restored;
    var e := Acted(s, a, purpose, held, response);
    var e0 := Acted(s, a, purpose, held, None);
    if log' == log + [e] {
      AppendPromise(log, e, nextOf);
    } else {
      AppendPromise(log, e0, nextOf);
      AppendPromise(log + [e0], e, nextOf);
    }
    var base := Base(log, s, purpose, a, nextOf);
    assert UpTo([], ns, base);
    assert IsSuccessful(response) ==> AnswerKept(response, base, held.checkpoint != "", nextOf);
  }

  /** Events that answer nothing change no session's numbers, except that a new session starts at none. */
  lemma {:induction false} QuietPromise(log: seq<Event>, e: Event, nextOf: string -> nat)
    requires !Succeeded(e)
    ensures Promised(log + [e], nextOf) <==> Promised(log, nextOf)
    ensures forall x :: Issued(log + [e], x, nextOf) == if e == Opened(x) then 0 else Issued(log, x, nextOf)
  {
    AppendPromise(log, e, nextOf);
  }

  /** Confirming an answer keeps the numbers increasing, under its own checkpoint or - when it brings
      none - under the one held before. */
  lemma {:induction false} AnswerConfirmed(
      t: seq<Confirmed>, ns: nat, checkpoint: string, response: Option<Response>, issued: nat,
      effects: seq<Effect>, nextOf: string -> nat)
    requires SequencedIn(t, ns, checkpoint, nextOf) && IsSuccessful(response)
    requires AnsweredIn(t, ns, response, checkpoint != "", issued, nextOf)
    requires |effects| == |EffectsOf(response)|
    ensures var t' := t + Confirm(ns, EffectsOf(response), effects);
      var recovery := response.value.payload.snapshot.value.recovery;
      && SequencedIn(t', ns, if recovery.Some? then recovery.value else checkpoint, nextOf)
      && SequencedIn(t', ns, "", nextOf) && UpTo(t', ns, issued)
  {
    hide Highest, Confirm;
    var raws := EffectsOf(response);
    var base: nat :|
      UpTo(t, ns, base) && AnswerKept(response, base, checkpoint != "", nextOf) && issued == Highest(raws, base);
    ConfirmKeepsIncrease(t, ns, raws, effects, base);
    if raws == [] {
      NothingConfirmed(t, ns);
    }
  }

  lemma {:induction false} NothingSequenced(ns: nat, checkpoint: string, nextOf: string -> nat)
    ensures SequencedIn([], ns, checkpoint, nextOf) && forall b: nat :: UpTo([], ns, b)
  {
  }

  /** No answer is above anything. */
  lemma {:induction false} NothingAnswered()
    ensures forall t, ns, held, issued, nextOf :: AnsweredIn(t, ns, None, held, issued, nextOf)
  {
  }

  lemma {:induction false} NothingConfirmed(t: seq<Confirmed>, ns: nat)
    ensures t + Confirm(ns, [], []) == t
  {
  }

  /** A namespace just started is empty, so any session may be followed in it. */
  lemma {:induction false} FreshFollows(
      n: Numbering, ns: nat, next: nat, t: seq<Confirmed>, checkpoint: string, nextOf: string -> nat)
    requires NumberingOk(n, ns, t) && SequencedIn(t, ns, checkpoint, nextOf) && next == ns + 1
    ensures SequencedIn(t, next, checkpoint, nextOf) && forall b: nat :: UpTo(t, next, b)
    ensures forall response, held, issued ::
      AnsweredIn([], ns, response, held, issued, nextOf) ==> AnsweredIn(t, next, response, held, issued, nextOf)
  {
    FreshIsEmpty(n, ns, t);
    hide AnswerKept, Highest, NumberingOk, ServerIncreases, IsSuccessful;
  }

  // ------------------------------------------------------- exactly when nothing is lost

  lemma {:induction false} HighWaterIsReached(effects: seq<Effect>, i: nat)
    requires i < |effects|
    ensures effects[i].id <= HighWater(0, effects)
  {
    if i < |effects| - 1 { HighWaterIsReached(effects[..|effects| - 1], i); }
  }

  lemma {:induction false} HighWaterBelow(effects: seq<Effect>, bound: uint64)
    requires bound > 0 && forall i :: 0 <= i < |effects| ==> effects[i].id < bound
    ensures HighWater(0, effects) < bound
  {
    if effects != [] {
      var front := effects[..|effects| - 1];
      assert forall i :: 0 <= i < |front| ==> front[i] == effects[i];
      HighWaterBelow(front, bound);
    }
  }

  /** The client starts talking to a session that numbers from one. With everything confirmed so far
      handed over, the ledger lets the session's next effect through, whatever its number, if and only
      if the current namespace is not anchored. */
  lemma {:induction false} NewSessionLosesNothingIff(n: Numbering, ns: nat, t: seq<Confirmed>)
    requires NumberingOk(n, ns, t) && ServerIncreases(t) && n.next < MAX_UINT64
    ensures (forall raw: uint64 :: raw >= 1 ==> NumberOne(n, raw).1 > HighWater(0, Effects(t))) <==> !n.anchored
  {
    var high := HighWater(0, Effects(t));
    if n.anchored {
      FirstIsLost(n, ns, t);
      var one: uint64 := 1;
      assert NumberOne(n, one).1 <= high;
    } else {
      forall i | 0 <= i < |t| ensures Effects(t)[i].id < n.next {
        assert EntryInRange(n, ns, t[i]);
      }
      HighWaterBelow(Effects(t), n.next);
    }
  }

  /** In an anchored namespace the number one is either too old or taken already. */
  lemma {:induction false} FirstIsLost(n: Numbering, ns: nat, t: seq<Confirmed>)
    requires NumberingOk(n, ns, t) && ServerIncreases(t) && n.anchored
    ensures NumberOne(n, 1).1 <= HighWater(0, Effects(t))
  {
    var j :| 0 <= j < |t| && t[j].namespace == ns && t[j].raw.id == n.rawAnchor && t[j].effect.id == n.globalAnchor;
    HighWaterIsReached(Effects(t), j);
    assert n.rawAnchor >= 1;
  }

  /** A run that loses a commit although the server keeps its promise: one action, a close, and one more
      action, which the client sends in a new session without starting a namespace. */
  lemma {:induction false} CommitLostAfterClose(content: string, other: string)
    ensures var log := LossyLog(content, other);
      && Promised(log, TwoNext) && RecoverySafe(log) && NoReuse(log) && OneEnvelopePerKey(log)
      && EffectsIn(log, 0) == [Effect(1, content), Effect(1, other)]
    ensures var (n, first) := NumberAll(INITIAL, [Effect(1, content)]);
      var (n', second) := NumberAll(n, [Effect(1, other)]);
      Accepted(0, first + second) == first
  {
    LossyReadings(content, other);
    TwoKeys(content, other);
    NumberedAlike(content, other);
    hide Promised, RecoverySafe, NoReuse, EffectsIn, NumberAll, Accepted, OneEnvelopePerKey, LossyLog;
  }

  lemma {:induction false} TwoKeys(content: string, other: string)
    ensures OneEnvelopePerKey(LossyLog(content, other))
  {
    hide Commit;
    var log := LossyLog(content, other);
    assert forall e :: e in log && e.Acted? ==> e == FirstSend(content) || e == SecondSend(other);
  }

  lemma {:induction false} LossyReadings(content: string, other: string)
    ensures var log := LossyLog(content, other);
      && Promised(log, TwoNext) && RecoverySafe(log) && NoReuse(log)
      && EffectsIn(log, 0) == [Effect(1, content), Effect(1, other)]
  {
    hide Promised, AnswerKept, Issued, RecoverySafe, EffectsIn, NoReuse, Unknown, Commit, IsSuccessful,
      EffectsOf;
    Nothing();
    var one := [Opened("a")];
    assert [] + one == one;
    Steps([], Opened("a"), TwoNext);
    CommitStep(one, "a", FirstSend(content), content);
    var two := one + [FirstSend(content)];
    Steps(two, Closed("a"), TwoNext);
    var three := two + [Closed("a")];
    Steps(three, Opened("b"), TwoNext);
    var four := three + [Opened("b")];
    CommitStep(four, "b", SecondSend(other), other);
  }

  /** One more answered commit, the first in its session. */
  lemma {:induction false} CommitStep(log: seq<Event>, s: string, e: Event, content: string)
    requires e.Acted? && e.session == s && e.purpose == Semantic && e.response == Commit(1, content)
    requires Promised(log, TwoNext) && RecoverySafe(log) && NoReuse(log) && !Unknown(log)
    requires Issued(log, s, TwoNext) == 0
    ensures Promised(log + [e], TwoNext) && RecoverySafe(log + [e]) && NoReuse(log + [e]) && !Unknown(log + [e])
    ensures EffectsIn(log + [e], 0) == EffectsIn(log, 0) + [Effect(1, content)]
  {
    hide Promised, AnswerKept, Issued, RecoverySafe, EffectsIn, NoReuse, Unknown, Commit, IsSuccessful,
      EffectsOf;
    CommitKept(content, e.held.checkpoint != "");
    Steps(log, e, TwoNext);
  }

  lemma {:induction false} Nothing()
    ensures Promised([], TwoNext) && RecoverySafe([]) && NoReuse([]) && EffectsIn([], 0) == [] && !Unknown([])
  {
  }

  lemma {:induction false} CommitKept(content: string, held: bool)
    ensures IsSuccessful(Commit(1, content)) && EffectsOf(Commit(1, content)) == [Effect(1, content)]
    ensures AnswerKept(Commit(1, content), 0, held, TwoNext)
  {
  }

  lemma {:induction false} NumberSingle(n: Numbering, e: Effect)
    ensures NumberAll(n, [e]).0 == NumberOne(n, e.id).0
    ensures NumberAll(n, [e]).1 == [e.(id := NumberOne(n, e.id).1)]
  {
    var s := [e];
    assert s[..|s| - 1] == [];
    var (m, done) := NumberAll(n, s[..|s| - 1]);
    assert m == n && done == [];
    hide NumberOne;
  }

  lemma {:induction false} NumberedAlike(content: string, other: string)
    ensures var (n, first) := NumberAll(INITIAL, [Effect(1, content)]);
      var (n', second) := NumberAll(n, [Effect(1, other)]);
      Accepted(0, first + second) == first
  {
    NumberSingle(INITIAL, Effect(1, content));
    var (n, first) := NumberAll(INITIAL, [Effect(1, content)]);
    NumberSingle(n, Effect(1, other));
    var (n', second) := NumberAll(n, [Effect(1, other)]);
    assert first == [Effect(1, content)] && second == [Effect(1, other)];
    var both := first + second;
    assert both[..1] == first && first[..0] == [];
    assert Accepted(0, first) == first && HighWater(0, first) == 1;
  }

  /** A server whose only checkpoint continues at two. */
  function TwoNext(checkpoint: string): nat {
    2
  }

  lemma {:induction false} Steps(log: seq<Event>, e: Event, nextOf: string -> nat)
    ensures Promised(log + [e], nextOf) <==> Promised(log, nextOf) && (Succeeded(e) ==>
      AnswerKept(e.response, Base(log, e.session, e.purpose, e.action, nextOf), e.held.checkpoint != "", nextOf))
    ensures forall s :: Issued(log + [e], s, nextOf) == IssuedAfter(log, e, s, nextOf)
    ensures RecoverySafe(log + [e]) <==> RecoverySafe(log) && StepSafe(log, e)
    ensures EffectsIn(log + [e], 0) == EffectsIn(log, 0) + EventEffects(e)
    ensures NoReuse(log + [e]) <==> NoReuse(log) && (e.Opened? ==> e !in log)
    ensures Unknown(log + [e]) <==> e.Acted? && e.purpose in {Restoring, Fallback} && IsUncertain(e.response)
  {
    AppendPromise(log, e, nextOf);
    Append(log, e, 0);
  }

  function Commit(id: uint64, content: string): Option<Response> {
    Some(Response(Success, "", ActionResult(Success,
      Some(Snapshot(1, Idle, [], 0, [Effect(id, content)], Some("checkpoint"), false, "")))))
  }

  function FirstSend(content: string): Event {
    Acted("a", Action(Generated(PlainPrefix, 1), 0, OtherCommand("")), Semantic, NOTHING, Commit(1, content))
  }

  function SecondSend(other: string): Event {
    Acted("b", Action(Generated(PlainPrefix, 2), 0, OtherCommand("")), Semantic,
      Material("checkpoint", "", NO_GUARDS), Commit(1, other))
  }

  function LossyLog(content: string, other: string): seq<Event> {
    [Opened("a")] + [FirstSend(content)] + [Closed("a")] + [Opened("b")] + [SecondSend(other)]
  }
}
