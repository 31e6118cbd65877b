/** What becomes of the user's input as the client moves from session to session: what the transcript
    says the client holds, which session the server keeps it in, and when a key reaches a session that
    does not have it (fcitx5-hazkey/src/hazkey_session_client.cpp:223-351, 353-610, 892-898). */
module InputContinuity {
  import opened ImeProtocol
  import opened Results
  import opened RecoveryMaterial
  import opened Transcript

  // ------------------------------------------------------------ what is held, and where

  /** The visible text is inserted again after a change of context. */
  predicate Reinserts(purpose: Purpose, action: Action) {
    purpose == Fallback && action.requestID.Generated? && action.requestID.prefix == ContextFallbackPrefix
  }

  /** The material after one answer: only a success changes it, and text re-inserted after a change of context
      leaves no reason against inserting it once more. */
  ghost function TakenBy(m: Material, purpose: Purpose, action: Action, response: Option<Response>): Material {
    if purpose == Disposition || !IsSuccessful(response) then m
    else
      var taken := Taken(m, response.value.payload.snapshot.value, action.command);
      if Reinserts(purpose, action) then taken.(guards := NO_GUARDS) else taken
  }

  ghost function TakenAfter(m: Material, e: Event): Material {
    if e.Acted? then TakenBy(m, e.purpose, e.action, e.response) else m
  }

  /** The material an ordinary client holds after this transcript, having held nothing at `start`. */
  ghost function MaterialIn(log: seq<Event>, start: nat): Material {
    if |log| <= start then NOTHING
    else TakenAfter(MaterialIn(log[..|log| - 1], start), log[|log| - 1])
  }

  /** The session that last confirmed the input. */
  ghost function Home(log: seq<Event>, start: nat): Option<string> {
    if |log| <= start then None
    else if Succeeded(log[|log| - 1]) then Some(log[|log| - 1].session)
    else Home(log[..|log| - 1], start)
  }

  /** What is recorded as held is what the transcript says is held - nothing for a secure client. */
  ghost predicate HeldThere(front: seq<Event>, start: nat, secure: bool, held: Material) {
    if secure then !Holding(held) else held == MaterialIn(front, start)
  }

  ghost predicate StepRemembered(front: seq<Event>, last: Event, start: nat, secure: bool) {
    match last
    case Acted(_, _, purpose, held, _) => purpose != Disposition ==> HeldThere(front, start, secure, held)
    case GaveUp(_, held) => HeldThere(front, start, secure, held)
    case _ => true
  }

  ghost predicate Remembered(log: seq<Event>, start: nat, secure: bool) {
    |log| <= start ||
    (Remembered(log[..|log| - 1], start, secure) && StepRemembered(log[..|log| - 1], log[|log| - 1], start, secure))
  }

  /** Session `s` has the input: it confirmed it last, or is one of those entered without it. */
  ghost predicate HasInput(log: seq<Event>, start: nat, lapses: set<string>, s: string) {
    Home(log, start) == Some(s) || s in lapses
  }

  /** Keys go only where the held input is. */
  ghost predicate StepKept(front: seq<Event>, last: Event, start: nat, lapses: set<string>) {
    last.Acted? && last.purpose == Semantic && Holding(last.held) ==> HasInput(front, start, lapses, last.session)
  }

  ghost predicate InputKept(log: seq<Event>, start: nat, lapses: set<string>) {
    |log| <= start ||
    (InputKept(log[..|log| - 1], start, lapses) && StepKept(log[..|log| - 1], log[|log| - 1], start, lapses))
  }

  /** This event hands over exactly what is held: the very checkpoint, or the very text where nothing
      speaks against it. */
  predicate Offers(e: Event, m: Material) {
    && e.Acted?
    && ((e.purpose == Restoring && m.checkpoint != "" && e.action.command == RestoreCheckpoint(m.checkpoint))
        || (e.purpose == Fallback && PlainText(m) && e.action.command == InsertText(m.text)))
  }

  /** The transcript ends with session `s` taking over `m`. */
  ghost predicate BroughtOver(log: seq<Event>, s: string, m: Material) {
    log != [] &&
    var last := log[|log| - 1];
    Succeeded(last) && last.session == s && last.held == m && Offers(last, m)
  }

  // ------------------------------------------------------------------ one more event

  lemma {:induction false} AppendInput(log: seq<Event>, e: Event, start: nat, secure: bool, lapses: set<string>)
    requires start <= |log|
    ensures MaterialIn(log + [e], start) == TakenAfter(MaterialIn(log, start), e)
    ensures Home(log + [e], start) == if Succeeded(e) then Some(e.session) else Home(log, start)
    ensures Remembered(log + [e], start, secure) <==>
      Remembered(log, start, secure) && StepRemembered(log, e, start, secure)
    ensures InputKept(log + [e], start, lapses) <==>
      InputKept(log, start, lapses) && StepKept(log, e, start, lapses)
  {
    assert (log + [e])[..|log|] == log;
  }

  /** A transmission, as `Transcript.SentReadings` for the other readings. */
  lemma {:induction false} SentInput(
      log: seq<Event>, log': seq<Event>, s: string, a: Action, purpose: Purpose, held: Material,
      response: Option<Response>, start: nat, secure: bool, lapses: set<string>)
    requires Sent(log, log', s, a, purpose, held, response) && purpose != Disposition && start <= |log|
    requires HeldThere(log, start, secure, held)
    requires purpose == Semantic && Holding(held) ==> HasInput(log, start, lapses, s)
    ensures MaterialIn(log', start) == TakenBy(MaterialIn(log, start), purpose, a, response)
    ensures Home(log', start) == if IsSuccessful(response) then Some(s) else Home(log, start)
    ensures Remembered(log, start, secure) ==> Remembered(log', start, secure)
    ensures InputKept(log, start, lapses) ==> InputKept(log', start, lapses)
  {
    hide MaterialIn, Home, Remembered, InputKept, IsSuccessful;
    var e := Acted(s, a, purpose, held, response);
    var e0 := Acted(s, a, purpose, held, None);
    NoneIsNoSuccess();
    if log' == log + [e] {
      AppendInput(log, e, start, secure, lapses);
    } else {
      AppendInput(log, e0, start, secure, lapses);
      AppendInput(log + [e0], e, start, secure, lapses);
    }
  }

  lemma {:induction false} NoneIsNoSuccess()
    ensures !IsSuccessful(None)
  {
  }

  lemma {:induction false} NotTaken(m: Material, purpose: Purpose, action: Action, response: Option<Response>)
    ensures !IsSuccessful(response) ==> TakenBy(m, purpose, action, response) == m
  {
  }

  /** An answered offer ends the transcript with the session taking over what was held. */
  lemma {:induction false} SentBringsOver(
      log: seq<Event>, log': seq<Event>, s: string, a: Action, purpose: Purpose, held: Material,
      response: Option<Response>)
    requires Sent(log, log', s, a, purpose, held, response) && purpose in {Restoring, Fallback}
    requires StepSafe(log, Acted(s, a, purpose, held, response)) && IsSuccessful(response)
    ensures BroughtOver(log', s, held)
  {
  }

  /** Opening, closing, disposing and giving up leave the held material and its session alone. */
  lemma {:induction false} QuietInput(log: seq<Event>, e: Event, start: nat, secure: bool, lapses: set<string>)
    requires start <= |log| && (e.Acted? ==> e.purpose == Disposition)
    requires e.GaveUp? ==> HeldThere(log, start, secure, e.held)
    ensures MaterialIn(log + [e], start) == MaterialIn(log, start)
    ensures Home(log + [e], start) == Home(log, start)
    ensures Remembered(log + [e], start, secure) <==> Remembered(log, start, secure)
    ensures InputKept(log + [e], start, lapses) <==> InputKept(log, start, lapses)
  {
    AppendInput(log, e, start, secure, lapses);
  }

  lemma {:induction false} NothingYet(log: seq<Event>, start: nat, secure: bool, lapses: set<string>)
    requires start == |log|
    ensures MaterialIn(log, start) == NOTHING && Home(log, start) == None
    ensures Remembered(log, start, secure) && InputKept(log, start, lapses)
  {
  }

  lemma {:induction false} WiderLapses(log: seq<Event>, start: nat, lapses: set<string>, wider: set<string>)
    requires InputKept(log, start, lapses) && lapses <= wider
    ensures InputKept(log, start, wider)
  {
    if |log| > start {
      WiderLapses(log[..|log| - 1], start, lapses, wider);
    }
  }

  // -------------------------------------------------------------- readings by position

  lemma {:induction false} KeptThroughout(log: seq<Event>, start: nat, secure: bool, lapses: set<string>, i: nat)
    requires Remembered(log, start, secure) && InputKept(log, start, lapses) && start <= i < |log|
    ensures StepRemembered(log[..i], log[i], start, secure) && StepKept(log[..i], log[i], start, lapses)
  {
    if i < |log| - 1 {
      KeptThroughout(log[..|log| - 1], start, secure, lapses, i);
      assert log[..|log| - 1][..i] == log[..i];
    }
  }

  /** `log[j]` is the last answer the client took over. */
  ghost predicate LastAnswer(log: seq<Event>, start: nat, j: int) {
    start <= j < |log| && Succeeded(log[j]) && forall k :: j < k < |log| ==> !Succeeded(log[k])
  }

  lemma {:induction false} HomeIsThere(log: seq<Event>, start: nat)
    ensures Home(log, start).Some? ==>
      exists j ::
        && LastAnswer(log, start, j) && log[j].session == Home(log, start).value
        && MaterialIn(log, start) == MaterialIn(log[..j + 1], start)
    ensures Home(log, start).None? ==> MaterialIn(log, start) == NOTHING
  {
    if |log| > start {
      hide MaterialIn, Home, Succeeded, TakenBy;
      var front, last := log[..|log| - 1], log[|log| - 1];
      AppendInput(front, last, start, false, {});
      QuietStep(MaterialIn(front, start), last);
      assert front + [last] == log;
      if Succeeded(last) {
        assert log[..|log| - 1 + 1] == log;
        assert LastAnswer(log, start, |log| - 1);
      } else {
        HomeIsThere(front, start);
        if Home(front, start).Some? {
          var j :| LastAnswer(front, start, j) && front[j].session == Home(front, start).value
            && MaterialIn(front, start) == MaterialIn(front[..j + 1], start);
          assert front[..j + 1] == log[..j + 1];
          assert LastAnswer(log, start, j);
        }
      }
    }
  }

  lemma {:induction false} QuietStep(m: Material, e: Event)
    ensures !Succeeded(e) ==> TakenAfter(m, e) == m
  {
  }

  /** A key sent while input is held goes to the session whose answer the held input comes from: that
      session confirmed it last, and nothing was confirmed since - unless the session was entered without
      bringing the input over. */
  lemma {:induction false} KeysFollowTheInput(log: seq<Event>, start: nat, lapses: set<string>, i: nat)
    requires Remembered(log, start, false) && InputKept(log, start, lapses) && start <= i < |log|
    requires log[i].Acted? && log[i].purpose == Semantic && Holding(log[i].held) && log[i].session !in lapses
    ensures exists j ::
      && LastAnswer(log[..i], start, j) && log[j].session == log[i].session
      && log[i].held == MaterialIn(log[..j + 1], start)
  {
    KeptThroughout(log, start, false, lapses, i);
    HomeIsThere(log[..i], start);
    var j :| LastAnswer(log[..i], start, j) && log[..i][j].session == log[i].session
      && MaterialIn(log[..i], start) == MaterialIn(log[..i][..j + 1], start);
    assert log[..i][..j + 1] == log[..j + 1];
  }

  /** Input moves to another session only by being handed to it: the first answer taken over there is a
      restore of the held checkpoint, or an insertion of the held text. */
  lemma {:induction false} InputMovesWhole(log: seq<Event>, start: nat, lapses: set<string>, i: nat)
    requires Remembered(log, start, false) && InputKept(log, start, lapses) && RecoverySafe(log)
    requires start <= i < |log| && Succeeded(log[i])
    requires Holding(MaterialIn(log[..i], start)) && !HasInput(log[..i], start, lapses, log[i].session)
    ensures BroughtOver(log[..i + 1], log[i].session, MaterialIn(log[..i], start))
  {
    KeptThroughout(log, start, false, lapses, i);
    SafeThroughout(log, i);
  }

  /** Where the input is, a session was opened. */
  lemma {:induction false} HomeWasOpened(log: seq<Event>, start: nat, next: nat)
    requires LogOk(log, next) && Home(log, start).Some?
    ensures Opened(Home(log, start).value) in log
  {
    HomeIsThere(log, start);
    var j :| LastAnswer(log, start, j) && log[j].session == Home(log, start).value
      && MaterialIn(log, start) == MaterialIn(log[..j + 1], start);
    assert log[j] in log;
  }

  // -------------------------------------------------------------------- a lost composition

  /** A run that loses a composition although nothing was refused or dismissed: the first action leaves a
      checkpoint and a text, the restore after a change of the frontend goes unanswered, and the next key
      goes to a session that was opened without restoring anything. Its answer replaces what was held. */
  lemma {:induction false} CompositionLost()
    ensures var log := LostComposition();
      && RecoverySafe(log) && NoReuse(log) && OneEnvelopePerKey(log) && Remembered(log, 0, false)
      && Refusals(log) == 0 && !Unknown(log)
    ensures MaterialIn(BeforeTheKey(), 0) == HELD
    ensures MaterialIn(LostComposition(), 0) == Material("other checkpoint", "y", NO_GUARDS)
    ensures forall e :: e in LostComposition() && Succeeded(e) ==> !Offers(e, HELD)
    ensures !InputKept(LostComposition(), 0, {}) && InputKept(LostComposition(), 0, {"c"})
  {
    FourKeys();
    UpToTheKey();
    KeyTaken(HELD, "y", "other checkpoint");
    hide OneEnvelopePerKey, NoReuse, RecoverySafe, Remembered, InputKept, MaterialIn, Home, Refusals, Unknown,
      Taken, BeforeTheKey;
    Steps(BeforeTheKey(), Key("c", 4, HELD, Typed("y", "other checkpoint")));
    assert LostComposition() == BeforeTheKey() + [Key("c", 4, HELD, Typed("y", "other checkpoint"))];
  }

  lemma {:induction false} FourKeys()
    ensures OneEnvelopePerKey(LostComposition())
    ensures forall e :: e in LostComposition() && Succeeded(e) ==> !Offers(e, HELD)
  {
    hide Typed, IsSuccessful;
    var log := LostComposition();
    assert forall e :: e in log && e.Acted? ==> e == log[1] || e == log[4] || e == log[5] || e == log[8];
    NoneIsNoSuccess();
  }

  lemma {:induction false} KeyTaken(m: Material, text: string, checkpoint: string)
    requires m.guards == NO_GUARDS
    ensures IsSuccessful(Typed(text, checkpoint))
    ensures Taken(m, Typed(text, checkpoint).value.payload.snapshot.value, OtherCommand(""))
      == Material(checkpoint, text, NO_GUARDS)
  {
    var spans := [Span(text, Underline)];
    assert spans[..0] == [];
    assert PreeditText(spans) == PreeditText([]) + text == text;
    assert forall k :: 0 <= k < |spans| ==> spans[k].style != Active;
  }

  /** Nothing was refused, forgotten or reissued, and `held` is in the session opened first. */
  ghost predicate Harmless(log: seq<Event>, held: Material) {
    && RecoverySafe(log) && NoReuse(log) && Remembered(log, 0, false) && Refusals(log) == 0
    && MaterialIn(log, 0) == held && Home(log, 0) == Some("a") && InputKept(log, 0, {}) && InputKept(log, 0, {"c"})
  }

  lemma {:induction false} FirstKey()
    ensures Harmless(BeforeTheKey()[..2], HELD)
  {
    KeyTaken(NOTHING, "x", "checkpoint");
    NothingSaid();
    hide NoReuse, RecoverySafe, Remembered, InputKept, MaterialIn, Home, Refusals, Unknown, Taken, Typed;
    var one := [Opened("a")];
    assert [] + one == one;
    Steps([], one[0]);
    var key := Key("a", 1, NOTHING, Typed("x", "checkpoint"));
    Steps(one, key);
    assert BeforeTheKey()[..2] == one + [key];
  }

  /** Opening and closing sessions does no harm, whoever holds what. */
  lemma {:induction false} HarmlessStep(log: seq<Event>, e: Event)
    requires Harmless(log, HELD) && (e.Opened? || e.Closed?) && e !in log
    ensures Harmless(log + [e], HELD) && !Unknown(log + [e])
  {
    hide NoReuse, RecoverySafe, Remembered, InputKept, MaterialIn, Home, Refusals, Unknown;
    Steps(log, e);
  }

  lemma {:induction false} FirstSession()
    ensures Harmless(BeforeTheKey()[..4], HELD)
  {
    FirstKey();
    hide Harmless, Typed;
    var log := BeforeTheKey();
    HarmlessStep(log[..2], log[2]);
    assert log[..3] == log[..2] + [log[2]];
    HarmlessStep(log[..3], log[3]);
    assert log[..4] == log[..3] + [log[3]];
  }

  lemma {:induction false} UpToTheKey()
    ensures Harmless(BeforeTheKey(), HELD) && !Unknown(BeforeTheKey())
  {
    FirstSession();
    hide NoReuse, RecoverySafe, Remembered, InputKept, MaterialIn, Home, Refusals, Unknown, Taken;
    var four := BeforeTheKey()[..4];
    var five := four + [Unanswered()];
    Steps(four, five[4]);
    var six := five + [Discarded()];
    Steps(five, six[5]);
    var seven := six + [Closed("b")];
    HarmlessStep(six, seven[6]);
    HarmlessStep(seven, Opened("c"));
    assert BeforeTheKey() == seven + [Opened("c")];
  }

  lemma {:induction false} NothingSaid()
    ensures RecoverySafe([]) && NoReuse([]) && Remembered([], 0, false) && Refusals([]) == 0 && !Unknown([])
    ensures MaterialIn([], 0) == NOTHING && Home([], 0) == None && InputKept([], 0, {}) && InputKept([], 0, {"c"})
  {
  }

  lemma {:induction false} Steps(log: seq<Event>, e: Event)
    ensures RecoverySafe(log + [e]) <==> RecoverySafe(log) && StepSafe(log, e)
    ensures NoReuse(log + [e]) <==> NoReuse(log) && (e.Opened? ==> e !in log)
    ensures Refusals(log + [e]) == Refusals(log) + if e.GaveUp? then 1 else 0
    ensures Unknown(log + [e]) <==> e.Acted? && e.purpose in {Restoring, Fallback} && IsUncertain(e.response)
    ensures MaterialIn(log + [e], 0) == TakenAfter(MaterialIn(log, 0), e)
    ensures Home(log + [e], 0) == if Succeeded(e) then Some(e.session) else Home(log, 0)
    ensures Remembered(log + [e], 0, false) <==> Remembered(log, 0, false) && StepRemembered(log, e, 0, false)
    ensures InputKept(log + [e], 0, {}) <==> InputKept(log, 0, {}) && StepKept(log, e, 0, {})
    ensures InputKept(log + [e], 0, {"c"}) <==> InputKept(log, 0, {"c"}) && StepKept(log, e, 0, {"c"})
  {
    Append(log, e, 0);
    AppendInput(log, e, 0, false, {});
    AppendInput(log, e, 0, false, {"c"});
  }

  const HELD := Material("checkpoint", "x", NO_GUARDS)

  function Typed(text: string, checkpoint: string): Option<Response> {
    Some(Response(Success, "", ActionResult(Success,
      Some(Snapshot(1, Composing, [Span(text, Underline)], 0, [], Some(checkpoint), false, "")))))
  }

  function Key(session: string, number: nat, held: Material, response: Option<Response>): Event {
    Acted(session, Action(Generated(PlainPrefix, number), 0, OtherCommand("")), Semantic, held, response)
  }

  function Unanswered(): Event {
    Acted("b", Action(Generated(ContextRestorePrefix, 2), 0, RestoreCheckpoint("checkpoint")), Restoring, HELD, None)
  }

  function Discarded(): Event {
    Acted("b", Action(Generated(DiscardPrefix, 3), 0, ResolvePendingLearning(false)), Disposition, HELD, None)
  }

  function BeforeTheKey(): seq<Event> {
    [Opened("a"), Key("a", 1, NOTHING, Typed("x", "checkpoint")), Closed("a"), Opened("b"), Unanswered(),
     Discarded(), Closed("b"), Opened("c")]
  }

  function LostComposition(): seq<Event> {
    BeforeTheKey() + [Key("c", 4, HELD, Typed("y", "other checkpoint"))]
  }
}
