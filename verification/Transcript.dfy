/** The client's transcript: everything it opened, sent, closed and gave up, and the two disciplines
    the transcript must obey - one envelope per server cache key, and safe recovery: no text fallback
    over an unrejected restore, nothing given up that was not definitely refused
    (fcitx5-hazkey/src/hazkey_session_client.cpp:353-795). */
module Transcript {
  import opened ImeProtocol
  import opened Results
  import opened RecoveryJournals
  import opened RecoveryMaterial

  /** Why an action envelope was sent. */
  datatype Purpose = Semantic | Restoring | Fallback | Disposition

  /** `held` is the recovery material the client held when it sent the action or gave up. */
  datatype Event =
    | Opened(session: string)
    | Acted(session: string, action: Action, purpose: Purpose, held: Material, response: Option<Response>)
    | Closed(session: string)
    // Abandoned without being asked to, in this session.
    | GaveUp(session: string, held: Material)

  // ------------------------------------------------------ wire-binding discipline

  /** The environment's part: the server never hands out a session ID twice. */
  ghost predicate NoReuse(log: seq<Event>) {
    log == [] ||
    var front, last := log[..|log| - 1], log[|log| - 1];
    NoReuse(front) && (last.Opened? ==> last !in front)
  }

  /** An answer the client took over. */
  predicate Succeeded(e: Event) {
    e.Acted? && e.purpose != Disposition && IsSuccessful(e.response)
  }

  predicate SameKey(e: Event, f: Event) {
    e.Acted? && f.Acted? && e.session == f.session && e.action.requestID == f.action.requestID
  }

  /** The client's part: the envelopes sent are a function of (session ID, request ID). */
  ghost predicate OneEnvelopePerKey(log: seq<Event>) {
    forall e, f :: e in log && f in log && SameKey(e, f) ==> e.action == f.action
  }

  /** No envelope under this key differs from `a`. */
  ghost predicate Bound(log: seq<Event>, a: Action, session: string) {
    forall e :: e in log && e.Acted? && e.session == session && e.action.requestID == a.requestID ==> e.action == a
  }

  /** No envelope under this key at all. */
  ghost predicate Clean(log: seq<Event>, requestID: RequestID, session: string) {
    forall e :: e in log && e.Acted? && e.session == session ==> e.action.requestID != requestID
  }

  predicate Below(requestID: RequestID, next: nat) {
    requestID.Generated? ==> requestID.number < next
  }

  ghost predicate LogOk(log: seq<Event>, next: nat) {
    && OneEnvelopePerKey(log)
    && Opened("") !in log
    && (forall e :: e in log && e.Acted? ==> Opened(e.session) in log && Below(e.action.requestID, next))
  }

  ghost predicate Known(log: seq<Event>, session: string) {
    session == "" || Opened(session) in log
  }

  /** A journal entry agrees with everything sent under its own key, and its ID is unused in
      the current session unless it was sent there. */
  ghost predicate EntryOk(log: seq<Event>, e: JournalEntry, id: string) {
    && Bound(log, e.action, e.sessionID)
    && (e.sessionID != id || !e.sent ==> Clean(log, e.requestID, id))
  }

  ghost predicate EntriesOk(log: seq<Event>, entries: seq<JournalEntry>, id: string) {
    forall e :: e in entries ==> EntryOk(log, e, id)
  }

  ghost predicate EntriesBelow(entries: seq<JournalEntry>, next: nat) {
    forall e :: e in entries ==> Below(e.requestID, next) && e.requestID == e.action.requestID
  }

  ghost predicate Used(log: seq<Event>, entries: seq<JournalEntry>, requestID: RequestID) {
    || (exists e :: e in log && e.Acted? && e.action.requestID == requestID)
    || (exists e :: e in entries && e.requestID == requestID)
  }

  ghost predicate Unmentioned(entries: seq<JournalEntry>, requestID: RequestID) {
    forall e :: e in entries ==> e.requestID != requestID
  }

  /** Opening a session the server never named before: nothing was ever sent under it, and
      bindings to every other session are as they were. */
  lemma {:induction false} AppendOpened(log: seq<Event>, s: string, next: nat)
    requires LogOk(log, next) && s != "" && Opened(s) !in log
    ensures LogOk(log + [Opened(s)], next) && Known(log + [Opened(s)], s)
    ensures forall r :: Clean(log + [Opened(s)], r, s)
  {
  }

  lemma {:induction false} QuietKeepsEntries(log: seq<Event>, e: Event, entries: seq<JournalEntry>, id: string)
    requires EntriesOk(log, entries, id) && !e.Acted?
    ensures EntriesOk(log + [e], entries, id)
  {
    forall x | x in entries ensures EntryOk(log + [e], x, id) {
      assert EntryOk(log, x, id);
    }
  }

  /** Entries look the same from a session under which nothing was sent. */
  lemma {:induction false} EntriesFromCleanSession(log: seq<Event>, entries: seq<JournalEntry>, id: string, s: string)
    requires EntriesOk(log, entries, id)
    requires forall r :: Clean(log, r, s)
    ensures EntriesOk(log, entries, s)
  {
    forall e | e in entries ensures EntryOk(log, e, s) {
      assert EntryOk(log, e, id);
    }
  }

  lemma {:induction false} NothingUnderNoSession(log: seq<Event>, next: nat)
    requires LogOk(log, next)
    ensures forall r :: Clean(log, r, "")
  {
  }

  lemma {:induction false} AppendQuiet(log: seq<Event>, e: Event, next: nat)
    requires LogOk(log, next) && (e.Closed? || e.GaveUp?)
    ensures LogOk(log + [e], next)
  {
  }

  /** Sending an envelope that agrees with its key. */
  lemma {:induction false} AppendActed(log: seq<Event>, e: Event, next: nat)
    requires e.Acted? && LogOk(log, next) && Opened(e.session) in log
    requires Bound(log, e.action, e.session) && Below(e.action.requestID, next)
    ensures LogOk(log + [e], next) && Bound(log + [e], e.action, e.session)
  {
  }

  lemma {:induction false} ActedKeepsEntries(log: seq<Event>, e: Event, entries: seq<JournalEntry>, id: string)
    requires e.Acted? && EntriesOk(log, entries, id) && Unmentioned(entries, e.action.requestID)
    requires forall x :: x in entries ==> x.requestID == x.action.requestID
    ensures EntriesOk(log + [e], entries, id)
  {
    forall x | x in entries ensures EntryOk(log + [e], x, id) {
      assert EntryOk(log, x, id);
    }
  }

  /** A number not yet drawn is free under every session and in the journal. */
  lemma {:induction false} FreshNumber(log: seq<Event>, entries: seq<JournalEntry>, prefix: Prefix, next: nat)
    requires LogOk(log, next) && EntriesBelow(entries, next)
    ensures LogOk(log, next + 1) && EntriesBelow(entries, next + 1)
    ensures forall s :: Clean(log, Generated(prefix, next), s)
    ensures Unmentioned(entries, Generated(prefix, next))
  {
  }

  // ----------------------------------------------------------- combined states

  /** The run so far kept the assumptions: no session ID reissued, no caller-supplied request
      ID used twice. */
  ghost predicate Benign(callerReused: bool, log: seq<Event>) {
    !callerReused && NoReuse(log)
  }

  /** The transcript is disciplined and the journal entries can be sent in session `id`. */
  ghost predicate WireAt(log: seq<Event>, next: nat, entries: seq<JournalEntry>, id: string) {
    LogOk(log, next) && Known(log, id) && EntriesOk(log, entries, id)
  }

  /** The envelope `a` may be (re)sent in session `s`. */
  ghost predicate Pinned(log: seq<Event>, next: nat, entries: seq<JournalEntry>, a: Action, s: string) {
    && WireAt(log, next, entries, s) && Bound(log, a, s)
  }

  /** A first transmission and at most one retry, after no answer at all. */
  ghost predicate Sent(
      log: seq<Event>, log': seq<Event>, s: string, a: Action, purpose: Purpose, held: Material,
      response: Option<Response>)
  {
    || log' == log + [Acted(s, a, purpose, held, response)]
    || log' == log + [Acted(s, a, purpose, held, None)] + [Acted(s, a, purpose, held, response)]
  }

  // -------------------------------------------------------- recovery discipline

  /** The log ends in a restore of session `s` that the server explicitly rejected, possibly
      followed by the transmissions of a fallback. */
  ghost predicate EndsInRejection(log: seq<Event>, s: string) {
    log != [] &&
    var front, last := log[..|log| - 1], log[|log| - 1];
    && last.Acted? && last.session == s
    && ((last.purpose == Restoring && IsRejected(last.response))
        || (last.purpose == Fallback && EndsInRejection(front, s)))
  }

  /** The log ends in a text fallback of session `s` that the server explicitly rejected. */
  ghost predicate EndsInRefusedText(log: seq<Event>, s: string) {
    log != [] &&
    var last := log[|log| - 1];
    last.Acted? && last.session == s && last.purpose == Fallback && IsRejected(last.response)
  }

  /** The log ends in a restore or fallback whose outcome is unknown. */
  ghost predicate Unknown(log: seq<Event>) {
    log != [] &&
    var last := log[|log| - 1];
    last.Acted? && last.purpose in {Restoring, Fallback} && IsUncertain(last.response)
  }

  /** The log does not end in an action that the server did, or may have done. */
  ghost predicate Declined(log: seq<Event>) {
    log != [] &&
    var last := log[|log| - 1];
    last.Acted? ==> IsRejected(last.response)
  }

  lemma {:induction false} DeclinedIsKnown(log: seq<Event>)
    requires Declined(log)
    ensures !Unknown(log)
  {
  }

  /** Only what is held is offered: that very checkpoint, or that very text when nothing speaks against
      it. Text is re-inserted only without a checkpoint, or directly after the server explicitly rejected
      restoring it in the same session. No semantic action follows an unknown restore or fallback.
      Input is given up only when some recovery material was held and every form of it was explicitly
      rejected in this session or could not be offered - never after a success or an unknown outcome. */
  ghost predicate StepSafe(front: seq<Event>, last: Event) {
    match last
    case Acted(s, a, purpose, held, _) =>
      && (purpose == Restoring ==> held.checkpoint != "" && a.command == RestoreCheckpoint(held.checkpoint))
      && (purpose == Fallback ==> PlainText(held) && a.command == InsertText(held.text))
      && (purpose == Fallback && held.checkpoint != "" ==> EndsInRejection(front, s))
      && (purpose == Semantic ==> !Unknown(front))
    case GaveUp(s, held) =>
      && Declined(front) && Holding(held)
      && (held.checkpoint != "" ==> EndsInRejection(front, s))
      && (PlainText(held) ==> EndsInRefusedText(front, s))
    case _ => true
  }

  ghost predicate RecoverySafe(log: seq<Event>) {
    log == [] || (RecoverySafe(log[..|log| - 1]) && StepSafe(log[..|log| - 1], log[|log| - 1]))
  }

  /** The server explicitly rejected restoring a checkpoint in session `s`, and nothing but attempts to
      re-insert text there came after it. */
  ghost predicate RejectedBefore(log: seq<Event>, s: string) {
    exists j :: 0 <= j < |log| && RejectedRestore(log[j], s) && forall k :: j < k < |log| ==> TextSent(log[k], s)
  }

  predicate RejectedRestore(e: Event, s: string) {
    e.Acted? && e.session == s && e.purpose == Restoring && IsRejected(e.response)
  }

  predicate TextSent(e: Event, s: string) {
    e.Acted? && e.session == s && e.purpose == Fallback
  }

  lemma {:induction false} RejectionIsThere(log: seq<Event>, s: string)
    ensures EndsInRejection(log, s) <==> RejectedBefore(log, s)
  {
    if log != [] {
      var front, last := log[..|log| - 1], log[|log| - 1];
      RejectionIsThere(front, s);
      if EndsInRejection(log, s) {
        if RejectedRestore(last, s) {
          assert RejectedRestore(log[|log| - 1], s);
        } else {
          var j :|
            0 <= j < |front| && RejectedRestore(front[j], s) && forall k :: j < k < |front| ==> TextSent(front[k], s);
          assert RejectedRestore(log[j], s) && forall k :: j < k < |log| ==> TextSent(log[k], s);
        }
      }
      if RejectedBefore(log, s) {
        var j :| 0 <= j < |log| && RejectedRestore(log[j], s) && forall k :: j < k < |log| ==> TextSent(log[k], s);
        if j < |front| {
          assert TextSent(log[|log| - 1], s) && RejectedRestore(front[j], s);
          assert forall k :: j < k < |front| ==> TextSent(front[k], s);
        }
      }
    }
  }

  lemma {:induction false} SafeThroughout(log: seq<Event>, i: nat)
    requires RecoverySafe(log) && i < |log|
    ensures StepSafe(log[..i], log[i])
  {
    if i < |log| - 1 {
      SafeThroughout(log[..|log| - 1], i);
      assert log[..|log| - 1][..i] == log[..i];
    }
  }

  /** Wherever input is given up, something was held; a checkpoint had been offered to that very session
      and rejected, and so had every text that could be offered; and the last thing sent was neither
      done nor possibly done. */
  lemma {:induction false} GivenUpForCause(log: seq<Event>, i: nat)
    requires RecoverySafe(log) && i < |log| && log[i].GaveUp?
    ensures i > 0 && Holding(log[i].held)
    ensures log[i].held.checkpoint != "" ==> RejectedBefore(log[..i], log[i].session)
    ensures PlainText(log[i].held) ==> TextSent(log[i - 1], log[i].session) && IsRejected(log[i - 1].response)
    ensures log[i - 1].Acted? ==> !IsSuccessful(log[i - 1].response) && !IsUncertain(log[i - 1].response)
  {
    SafeThroughout(log, i);
    RejectionIsThere(log[..i], log[i].session);
  }

  /** Directly after a restore or fallback whose outcome is unknown nothing is given up and no key is
      sent, and text over a held checkpoint only once its restore has been rejected. */
  lemma {:induction false} UncertaintyIsRespected(log: seq<Event>, i: nat)
    requires RecoverySafe(log) && i + 1 < |log| && Unknown(log[..i + 1])
    ensures !log[i + 1].GaveUp? && !(log[i + 1].Acted? && log[i + 1].purpose == Semantic)
    ensures log[i + 1].Acted? && log[i + 1].purpose == Fallback && log[i + 1].held.checkpoint != "" ==>
      RejectedBefore(log[..i + 1], log[i + 1].session)
  {
    SafeThroughout(log, i + 1);
    if log[i + 1].Acted? {
      RejectionIsThere(log[..i + 1], log[i + 1].session);
    }
  }

  /** How often input was given up. */
  ghost function Refusals(log: seq<Event>): nat {
    if log == [] then 0 else Refusals(log[..|log| - 1]) + if log[|log| - 1].GaveUp? then 1 else 0
  }

  // ---------------------------------------------------------- confirmed effects

  /** The effects of every successful response the client used, in order, since `start`. */
  ghost function EffectsIn(log: seq<Event>, start: nat): seq<Effect>
  {
    if |log| <= start then []
    else EffectsIn(log[..|log| - 1], start) + EventEffects(log[|log| - 1])
  }

  ghost function EventEffects(e: Event): seq<Effect> {
    if Succeeded(e) then EffectsOf(e.response) else []
  }

  /** The answer that settles a journaled action: a success, or a definite rejection other than a stale
      revision - which for a learning resolution settles nothing. */
  predicate Resolves(response: Option<Response>, command: Command) {
    IsSuccessful(response) || (IsRejected(response) && !IsStale(response) && !command.ResolvePendingLearning?)
  }

  function ResolvedOf(purpose: Purpose, command: Command, response: Option<Response>): seq<Command> {
    if purpose == Semantic && Resolves(response, command) then [command] else []
  }

  function ResolvedBy(e: Event): seq<Command> {
    if e.Acted? then ResolvedOf(e.purpose, e.action.command, e.response) else []
  }

  /** The semantic actions the server settled, in the order of its answers. */
  ghost function ResolvedIn(log: seq<Event>): seq<Command> {
    if log == [] then [] else ResolvedIn(log[..|log| - 1]) + ResolvedBy(log[|log| - 1])
  }

  /** Appending one event extends each reading of the log by that event. */
  lemma {:induction false} Append(log: seq<Event>, e: Event, start: nat)
    requires start <= |log|
    ensures EffectsIn(log + [e], start) == EffectsIn(log, start) + EventEffects(e)
    ensures ResolvedIn(log + [e]) == ResolvedIn(log) + ResolvedBy(e)
    ensures NoReuse(log + [e]) <==> NoReuse(log) && (e.Opened? ==> e !in log)
    ensures RecoverySafe(log + [e]) <==> RecoverySafe(log) && StepSafe(log, e)
    ensures Refusals(log + [e]) == Refusals(log) + if e.GaveUp? then 1 else 0
    ensures Unknown(log + [e]) <==> e.Acted? && e.purpose in {Restoring, Fallback} && IsUncertain(e.response)
    ensures Declined(log + [e]) <==> (e.Acted? ==> IsRejected(e.response))
    ensures EndsInRejection(log + [e], if e.Acted? then e.session else "") <==>
      e.Acted? && ((e.purpose == Restoring && IsRejected(e.response))
                   || (e.purpose == Fallback && EndsInRejection(log, e.session)))
    ensures e.Acted? ==>
      (EndsInRefusedText(log + [e], e.session) <==> e.purpose == Fallback && IsRejected(e.response))
  {
    assert (log + [e])[..|log|] == log;
  }

  // --------------------------------------------------------- learning decisions

  /** The journaled learning resolutions, in recorded order. */
  function DecisionsOf(entries: seq<JournalEntry>): seq<bool> {
    if entries == [] then []
    else DecisionIn(entries[0].action.command) + DecisionsOf(entries[1..])
  }

  function DecisionIn(c: Command): seq<bool> {
    if c.ResolvePendingLearning? then [c.commit] else []
  }

  function FirstDecision(entries: seq<JournalEntry>): Option<bool> {
    var d := DecisionsOf(entries);
    if d == [] then None else Some(d[0])
  }

  lemma {:induction false} DecisionsAppend(entries: seq<JournalEntry>, e: JournalEntry)
    ensures DecisionsOf(entries + [e]) == DecisionsOf(entries) + DecisionIn(e.action.command)
  {
    if entries == [] {
      assert [e][1..] == [];
    } else {
      assert (entries + [e])[1..] == entries[1..] + [e];
      DecisionsAppend(entries[1..], e);
    }
  }

  /** Decisions depend on the semantic actions alone, not on IDs, revisions or bindings. */
  lemma {:induction false} DecisionsFollowCommands(a: seq<JournalEntry>, b: seq<JournalEntry>)
    requires Commands(a) == Commands(b)
    ensures DecisionsOf(a) == DecisionsOf(b)
  {
    assert |a| == |Commands(a)| == |b|;
    if a != [] {
      assert Commands(a)[0] == Commands(b)[0];
      assert Commands(a[1..]) == Commands(a)[1..] == Commands(b)[1..] == Commands(b[1..]);
      DecisionsFollowCommands(a[1..], b[1..]);
    }
  }

  // ------------------------------------------------------ steps of the protocol

  /** Sending `a` where it is pinned keeps the discipline, there and for every other session. */
  lemma {:induction false} SentKeepsWire(
      log: seq<Event>, log': seq<Event>, s: string, a: Action, purpose: Purpose, held: Material,
      response: Option<Response>, next: nat, entries: seq<JournalEntry>)
    requires Sent(log, log', s, a, purpose, held, response)
    requires s != "" && Pinned(log, next, entries, a, s) && Below(a.requestID, next)
    requires EntriesBelow(entries, next) && Unmentioned(entries, a.requestID)
    ensures Pinned(log', next, entries, a, s)
    ensures forall x :: WireAt(log, next, entries, x) ==> WireAt(log', next, entries, x)
    ensures forall b: Action, x: string :: b.requestID != a.requestID && Bound(log, b, x) ==> Bound(log', b, x)
    ensures forall r, x :: r != a.requestID && Clean(log, r, x) ==> Clean(log', r, x)
    ensures forall x :: x != s && Bound(log, a, x) ==> Bound(log', a, x)
  {
    var e := Acted(s, a, purpose, held, response);
    var e0 := Acted(s, a, purpose, held, None);
    if log' == log + [e] {
      OneSendKeepsWire(log, e, next, entries);
    } else {
      OneSendKeepsWire(log, e0, next, entries);
      OneSendKeepsWire(log + [e0], e, next, entries);
    }
  }

  lemma {:induction false} OneSendKeepsWire(log: seq<Event>, e: Event, next: nat, entries: seq<JournalEntry>)
    requires e.Acted? && e.session != "" && Pinned(log, next, entries, e.action, e.session)
    requires Below(e.action.requestID, next)
    requires EntriesBelow(entries, next) && Unmentioned(entries, e.action.requestID)
    ensures Pinned(log + [e], next, entries, e.action, e.session)
    ensures forall x :: WireAt(log, next, entries, x) ==> WireAt(log + [e], next, entries, x)
    ensures forall b: Action, x: string ::
      b.requestID != e.action.requestID && Bound(log, b, x) ==> Bound(log + [e], b, x)
    ensures forall r, x :: r != e.action.requestID && Clean(log, r, x) ==> Clean(log + [e], r, x)
    ensures forall x :: x != e.session && Bound(log, e.action, x) ==> Bound(log + [e], e.action, x)
  {
    AppendActed(log, e, next);
    forall x | WireAt(log, next, entries, x) ensures WireAt(log + [e], next, entries, x) {
      ActedKeepsEntries(log, e, entries, x);
    }
  }

  /** The other readings of the log after a transmission. */
  lemma {:induction false} SentReadings(
      log: seq<Event>, log': seq<Event>, s: string, a: Action, purpose: Purpose, held: Material,
      response: Option<Response>, start: nat)
    requires Sent(log, log', s, a, purpose, held, response)
    requires start <= |log| && purpose != Disposition
    ensures |log| < |log'|
    ensures EffectsIn(log', start) == EffectsIn(log, start) + if IsSuccessful(response) then EffectsOf(response) else []
    ensures ResolvedIn(log') == ResolvedIn(log) + ResolvedOf(purpose, a.command, response)
    ensures NoReuse(log') <==> NoReuse(log)
    ensures RecoverySafe(log) && StepSafe(log, Acted(s, a, purpose, held, None)) ==> RecoverySafe(log')
    ensures Refusals(log') == Refusals(log)
    ensures Unknown(log') <==> purpose in {Restoring, Fallback} && IsUncertain(response)
    ensures Declined(log') <==> IsRejected(response)
    ensures purpose == Restoring && IsRejected(response) ==> EndsInRejection(log', s)
    ensures purpose == Fallback && EndsInRejection(log, s) ==> EndsInRejection(log', s)
    ensures purpose == Fallback && IsRejected(response) ==> EndsInRefusedText(log', s)
  {
    hide EffectsIn, ResolvedIn, ResolvedOf, NoReuse, RecoverySafe, Refusals, EndsInRejection,
      EndsInRefusedText, Unknown, Declined, IsSuccessful, IsUncertain, IsRejected, EffectsOf;
    var e := Acted(s, a, purpose, held, response);
    var e0 := Acted(s, a, purpose, held, None);
    if log' == log + [e] {
      ActedReadings(log, e, start);
    } else {
      ActedReadings(log, e0, start);
      ActedReadings(log + [e0], e, start);
    }
  }

  /** The readings after one event; a fallback's unanswered first transmission keeps the rejection in sight. */
  lemma {:induction false} ActedReadings(log: seq<Event>, e: Event, start: nat)
    requires e.Acted? && start <= |log| && e.purpose != Disposition
    ensures EffectsIn(log + [e], start)
      == EffectsIn(log, start) + if IsSuccessful(e.response) then EffectsOf(e.response) else []
    ensures ResolvedIn(log + [e]) == ResolvedIn(log) + ResolvedOf(e.purpose, e.action.command, e.response)
    ensures e.response == None ==>
      EffectsIn(log + [e], start) == EffectsIn(log, start) && ResolvedIn(log + [e]) == ResolvedIn(log)
    ensures NoReuse(log + [e]) <==> NoReuse(log)
    ensures RecoverySafe(log + [e]) <==> RecoverySafe(log) && StepSafe(log, e)
    ensures Refusals(log + [e]) == Refusals(log)
    ensures Unknown(log + [e]) <==> e.purpose in {Restoring, Fallback} && IsUncertain(e.response)
    ensures Declined(log + [e]) <==> IsRejected(e.response)
    ensures e.purpose == Restoring && IsRejected(e.response) ==> EndsInRejection(log + [e], e.session)
    ensures e.purpose == Fallback && EndsInRejection(log, e.session) ==> EndsInRejection(log + [e], e.session)
    ensures e.purpose == Fallback && IsRejected(e.response) ==> EndsInRefusedText(log + [e], e.session)
  {
    Append(log, e, start);
  }

  /** Drawing a request number for a new action. */
  lemma {:induction false} FreshIsPinned(log: seq<Event>, next: nat, entries: seq<JournalEntry>, a: Action, s: string)
    requires WireAt(log, next, entries, s) && EntriesBelow(entries, next)
    requires a.requestID.Generated? && a.requestID.number == next
    ensures Pinned(log, next + 1, entries, a, s) && EntriesBelow(entries, next + 1)
    ensures Unmentioned(entries, a.requestID) && Below(a.requestID, next + 1)
    ensures forall x :: WireAt(log, next, entries, x) ==> WireAt(log, next + 1, entries, x)
    ensures forall x :: Clean(log, a.requestID, x)
  {
    FreshNumber(log, entries, a.requestID.prefix, next);
  }

  /** Moving to a session the server just created. */
  lemma {:induction false} OpenedIsFresh(log: seq<Event>, next: nat, entries: seq<JournalEntry>, id: string,
      s: string)
    requires WireAt(log, next, entries, id) && s != "" && NoReuse(log + [Opened(s)])
    ensures WireAt(log + [Opened(s)], next, entries, s)
    ensures forall x :: WireAt(log, next, entries, x) ==> WireAt(log + [Opened(s)], next, entries, x)
    ensures forall r :: Clean(log + [Opened(s)], r, s)
    ensures forall b: Action, x: string :: Bound(log, b, x) ==> Bound(log + [Opened(s)], b, x)
    ensures forall r, x :: Clean(log, r, x) ==> Clean(log + [Opened(s)], r, x)
  {
    Append(log, Opened(s), 0);
    AppendOpened(log, s, next);
    QuietKeepsEntries(log, Opened(s), entries, id);
    EntriesFromCleanSession(log + [Opened(s)], entries, id, s);
    forall x | WireAt(log, next, entries, x) ensures WireAt(log + [Opened(s)], next, entries, x) {
      QuietKeepsEntries(log, Opened(s), entries, x);
    }
  }

  /** Leaving every session. */
  lemma {:induction false} NoSessionWire(log: seq<Event>, next: nat, entries: seq<JournalEntry>, id: string)
    requires WireAt(log, next, entries, id)
    ensures WireAt(log, next, entries, "")
    ensures forall r :: Clean(log, r, "")
  {
    NothingUnderNoSession(log, next);
    EntriesFromCleanSession(log, entries, id, "");
  }

  /** Closing a session or giving up sends no action. */
  lemma {:induction false} QuietKeepsWire(log: seq<Event>, e: Event, next: nat, entries: seq<JournalEntry>, s: string)
    requires WireAt(log, next, entries, s) && (e.Closed? || e.GaveUp?)
    ensures forall x :: WireAt(log, next, entries, x) ==> WireAt(log + [e], next, entries, x)
    ensures forall b: Action, x: string :: Bound(log, b, x) ==> Bound(log + [e], b, x)
    ensures forall r, x :: Clean(log, r, x) ==> Clean(log + [e], r, x)
  {
    AppendQuiet(log, e, next);
    forall x | WireAt(log, next, entries, x) ensures WireAt(log + [e], next, entries, x) {
      QuietKeepsEntries(log, e, entries, x);
    }
  }
}
