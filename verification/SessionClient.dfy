/** The client side of IME Protocol v2: one session with its journal, recovery material and
    buffered effects, driven over an arbitrary transport
    (fcitx5-hazkey/src/hazkey_session_client.cpp, hazkey_session_client.h). */
module SessionClient {
  import opened ImeProtocol
  import opened Results
  import opened RecoveryJournals
  import opened EffectNumbering
  import opened RecoveryMaterial
  import opened Transcript
  import opened EffectContinuity
  import opened InputContinuity

  datatype Outcome = Recovered | Uncertain | Refused

  datatype FlushResult = FlushResult(completed: bool, response: Option<Response>)

  const DEFAULT_SNAPSHOT := Snapshot(0, PhaseUnspecified, [], 0, [], None, false, "")

  /** The stored form of a snapshot; a snapshot of default values serializes to nothing. */
  function Serialized(s: Snapshot): Option<Snapshot> {
    if s == DEFAULT_SNAPSHOT then None else Some(s)
  }

  /** Leaving the program or crossing the secure-input boundary. */
  predicate CrossesDomain(previous: ClientContext, next: ClientContext) {
    previous.secureInput != next.secureInput || previous.program != next.program
  }

  /** Effects that a transmission's answer adds to what must be confirmed. */
  ghost function OwedBy(response: Option<Response>): seq<Effect> {
    if IsSuccessful(response) then EffectsOf(response) else []
  }

  ghost predicate EntryConsistent(e: JournalEntry) {
    e.requestID == e.action.requestID && e.expectedRevision == e.action.expectedRevision
  }

  /** Only the head of the journal may be in flight. */
  ghost predicate OnlyHeadSent(pending: seq<JournalEntry>) {
    forall k :: 1 <= k < |pending| ==> !pending[k].sent
  }

  ghost predicate PendingOk(pending: seq<JournalEntry>, next: nat) {
    && (forall e :: e in pending ==> EntryConsistent(e))
    && OnlyHeadSent(pending)
    && EntriesBelow(pending, next)
  }

  /** Handed-over, buffered and in-flight effects are the confirmed ones: always as a
      collection, and in confirmation order unless an opportunistic send overtook the buffer. */
  ghost predicate Conserved(
      ordered: bool, delivered: seq<Effect>, buffered: seq<Effect>, inFlight: seq<Effect>, confirmed: seq<Effect>)
  {
    && (ordered ==> delivered + buffered + inFlight == confirmed)
    && multiset(delivered) + multiset(buffered) + multiset(inFlight) == multiset(confirmed)
  }

  lemma {:induction false} HandOverConserves(o: bool, d: seq<Effect>, b: seq<Effect>, f: seq<Effect>, c: seq<Effect>)
    requires Conserved(o, d, b, f, c)
    ensures Conserved(o && (b == [] || f == []), d + f, b, [], c)
  {
    if b == [] || f == [] {
      assert d + b + f == (d + f) + b + [];
    }
  }

  lemma {:induction false} AttachConserves(o: bool, d: seq<Effect>, b: seq<Effect>, f: seq<Effect>, c: seq<Effect>)
    requires Conserved(o, d, b, f, c)
    ensures Conserved(o, d, [], b + f, c)
  {
    assert d + b + f == d + [] + (b + f);
  }

  lemma {:induction false} ConfirmConserves(o: bool, d: seq<Effect>, b: seq<Effect>, f: seq<Effect>, c: seq<Effect>)
    requires Conserved(o, d, b, [], c)
    ensures Conserved(o, d, b, f, c + f)
  {
    assert d + b + [] == d + b;
  }

  lemma {:induction false} CollectConserves(o: bool, d: seq<Effect>, b: seq<Effect>, f: seq<Effect>, c: seq<Effect>)
    requires Conserved(o, d, b, f, c)
    ensures Conserved(o, d, b + f, [], c)
  {
    assert d + b + f == d + (b + f) + [];
  }

  class ClientSession {
    const journal: RecoveryJournal
    const ledger: EffectLedger
    var context: ClientContext
    var id: string
    var capabilities: Capabilities
    var revision: uint64
    var numbering: Numbering
    var replayedEffects: seq<Effect>
    var recoveryCheckpoint: string
    var fallbackComposition: string
    var unsafe: FallbackGuards
    // The process-wide counter behind every generated request ID.
    var nextRequestID: nat

    // Everything opened, sent and closed, and whether a caller ever supplied a used ID.
    ghost var log: seq<Event>
    ghost var callerReused: bool
    // Effect accounting since the last clearing of effects.
    ghost var epoch: nat
    ghost var namespace: nat
    ghost var confirmed: seq<Confirmed>
    ghost var delivered: seq<Effect>
    ghost var inFlight: seq<Effect>
    ghost var ordered: bool
    // How often input was given up because every form of it was refused, and how often it was
    // dismissed because the caller asked for it or left the program.
    ghost var abandonments: nat
    ghost var dismissals: nat
    // No session was entered outside recovery while an earlier session's numbers were still mapped.
    ghost var continuous: bool
    // The sessions entered outside recovery while there was input to bring over.
    ghost var lapses: set<string>
    // The next effect number in each checkpoint, which only the server can read.
    ghost const nextOf: string -> nat
    // The learning resolutions the server confirmed.
    ghost var settled: seq<bool>
    // The semantic actions the server settled, in the order of its answers.
    ghost var resolved: seq<Command>

    constructor (context: ClientContext, ghost nextOf: string -> nat)
      ensures Valid() && this.context == context && this.nextOf == nextOf
      ensures log == [] && !callerReused && journal.pending == [] && delivered == [] && ordered
      ensures resolved == [] && settled == []
      ensures abandonments == dismissals == 0 && continuous && Attached() && lapses == {} && Moored()
      ensures fresh(journal) && fresh(ledger) && journal.limit == 64 && ledger.highestApplied == 0
    {
      hide Remembered, InputKept, MaterialIn, Home, TakenBy, BroughtOver, LogOk, EntriesOk, EntriesBelow,
        Bound, Clean, NoReuse, NumberingOk, EffectsIn, ResolvedIn, Resolves, RecoverySafe, EndsInRejection,
        EndsInRefusedText, Declined, Unknown, Refusals, Promised, Issued, SequencedIn, AnsweredIn, UpTo,
        Conserved, PendingOk, WireAt, Effects, Raws, DistinctIDs, Below, Unmentioned;
      journal := new RecoveryJournal(64);
      ledger := new EffectLedger();
      this.context := context;
      this.nextOf := nextOf;
      id, revision := "", 0;
      capabilities := Capabilities(1, 0, 0, false, false, None);
      numbering, replayedEffects := INITIAL, [];
      recoveryCheckpoint, fallbackComposition, unsafe := "", "", NO_GUARDS;
      nextRequestID := 1;
      log, callerReused, epoch, namespace := [], false, 0, 0;
      abandonments, dismissals, continuous, lapses := 0, 0, true, {};
      confirmed, delivered, inFlight, ordered, settled, resolved := [], [], [], true, [], [];
      new;
      NothingPending(nextRequestID);
      NothingSequenced(namespace, recoveryCheckpoint, nextOf);
      NothingHappened(nextRequestID);
      NothingYet(log, epoch, context.secureInput, lapses);
    }

    // ------------------------------------------------------------- invariant

    ghost predicate Accounts(owed: seq<Effect>)
      reads `log, `epoch, `namespace, `numbering, `confirmed, `ordered, `delivered, `replayedEffects,
        `inFlight
    {
      && epoch <= |log|
      && Raws(confirmed) + owed == EffectsIn(log, epoch)
      && NumberingOk(numbering, namespace, confirmed)
      && Conserved(ordered, delivered, replayedEffects, inFlight, Effects(confirmed))
    }

    /** The settled actions and the times input was given up are those of the transcript. */
    ghost predicate Traced()
      reads `log, `resolved, `abandonments
    {
      resolved == ResolvedIn(log) && abandonments == Refusals(log) && journal.limit == 64
    }

    /** The environment kept its promises, and every session was entered continuously. */
    ghost predicate Trusted()
      reads `log, `callerReused, `continuous
    {
      continuous && Benign(callerReused, log) && Promised(log, nextOf)
    }

    /** The confirmed numbers increase, and the held checkpoint covers those of namespace `ns`. */
    ghost predicate SequencedAt(ns: nat)
      reads `log, `callerReused, `continuous, `confirmed, `recoveryCheckpoint
    {
      Trusted() ==> SequencedIn(confirmed, ns, recoveryCheckpoint, nextOf)
    }

    /** Session `x` continues the current namespace: it will only issue numbers above those confirmed there. */
    ghost predicate Follows(x: string)
      reads `log, `callerReused, `continuous, `confirmed, `namespace
    {
      Trusted() ==> UpTo(confirmed, namespace, Issued(log, x, nextOf))
    }

    /** The answer of the current session lies above what is confirmed of `t` in the current namespace. */
    ghost predicate Answered(t: seq<Confirmed>, response: Option<Response>)
      reads `log, `callerReused, `continuous, `namespace, `id, `recoveryCheckpoint
    {
      Trusted() ==> AnsweredIn(t, namespace, response, recoveryCheckpoint != "", Issued(log, id, nextOf), nextOf)
    }

    /** What there is to bring over to another session. */
    ghost function Held(): Material
      reads `recoveryCheckpoint, `fallbackComposition, `unsafe
    {
      Material(recoveryCheckpoint, fallbackComposition, unsafe)
    }

    /** The transcript records what was held at each step, and that keys went only where the input was. */
    ghost predicate Recalled()
      reads `log, `epoch, `context, `lapses
    {
      Remembered(log, epoch, context.secureInput) && InputKept(log, epoch, lapses)
    }

    /** According to the transcript an ordinary client holds `m`. */
    ghost predicate Tied(m: Material)
      reads `log, `epoch, `context
    {
      context.secureInput || MaterialIn(log, epoch) == m
    }

    /** Whatever is held, session `x` has it. */
    ghost predicate Housed(x: string)
      reads `log, `epoch, `lapses, `recoveryCheckpoint, `fallbackComposition
    {
      HasMaterial() ==> HasInput(log, epoch, lapses, x)
    }

    /** No restore or fallback is left undecided, what is held is what the transcript says, and the current
        session has it and continues the namespace. */
    ghost predicate Resting()
      reads `log, `callerReused, `continuous, `confirmed, `namespace, `id, `epoch, `context, `lapses,
        `recoveryCheckpoint, `fallbackComposition, `unsafe
    {
      !Unknown(log) && Tied(Held()) && (id != "" ==> Follows(id) && Housed(id))
    }

    /** Entering a session would leave no input behind. */
    ghost predicate Moored()
      reads `id, `recoveryCheckpoint, `fallbackComposition
    {
      id != "" || !HasMaterial()
    }

    /** Entering a session would not mix two sessions' numbers. */
    ghost predicate Attached()
      reads `id, `numbering
    {
      id != "" || !numbering.anchored
    }

    ghost predicate HasMaterial()
      reads `recoveryCheckpoint, `fallbackComposition
    {
      recoveryCheckpoint != "" || fallbackComposition != ""
    }

    /** Nothing of a secure composition is retained. */
    ghost predicate SecureOk()
      reads `context, `recoveryCheckpoint, `fallbackComposition, `replayedEffects, journal
    {
      context.secureInput ==>
        && recoveryCheckpoint == "" && fallbackComposition == ""
        && journal.pending == [] && journal.lastSnapshot == None && replayedEffects == []
    }

    ghost predicate Wire(entries: seq<JournalEntry>)
      reads `log, `callerReused, `nextRequestID, `id
    {
      Benign(callerReused, log) ==> WireAt(log, nextRequestID, entries, id)
    }

    /** The invariant while a call is under way, with `owed` still to be confirmed. */
    ghost predicate Inv(entries: seq<JournalEntry>, owed: seq<Effect>)
      reads `log, `resolved, `callerReused, `nextRequestID, `id, `epoch, `continuous, `namespace, `numbering,
        `confirmed, `ordered, `abandonments, `delivered, `replayedEffects, `inFlight, `context, `lapses,
        `recoveryCheckpoint, `fallbackComposition, journal
    {
      Core(entries, owed) && SequencedAt(namespace)
    }

    ghost predicate Core(entries: seq<JournalEntry>, owed: seq<Effect>)
      reads `log, `resolved, `callerReused, `nextRequestID, `id, `epoch, `continuous, `namespace, `numbering,
        `confirmed, `ordered, `abandonments, `delivered, `replayedEffects, `inFlight, `context, `lapses,
        `recoveryCheckpoint, `fallbackComposition, journal
    {
      Tracked(owed) && EntriesBelow(entries, nextRequestID) && Wire(entries)
    }

    /** What the client keeps track of agrees with the transcript, whatever the sessions are called. */
    ghost predicate Tracked(owed: seq<Effect>)
      reads `log, `resolved, `nextRequestID, `epoch, `namespace, `numbering, `confirmed, `ordered,
        `abandonments, `delivered, `replayedEffects, `inFlight, `context, `lapses, `recoveryCheckpoint,
        `fallbackComposition, journal
    {
      && journal.Valid() && PendingOk(journal.pending, nextRequestID)
      && Traced()
      && Accounts(owed)
      && SecureOk()
      && Recalled()
      && RecoverySafe(log)
    }

    /** The invariant between calls, over every run and every behaviour of the transport. */
    ghost predicate Valid()
      reads `log, `resolved, `callerReused, `nextRequestID, `id, `epoch, `continuous, `namespace, `numbering,
        `confirmed, `ordered, `abandonments, `delivered, `replayedEffects, `inFlight, `context, `lapses,
        `recoveryCheckpoint, `fallbackComposition, `unsafe, journal
    {
      Inv(journal.pending, []) && inFlight == [] && Resting()
    }

    /** While a replacement session is being prepared: the action can still be resent in the
        stale session, and nothing under its ID has reached the replacement. */
    ghost predicate Away(stale: string, a: Action, entries: seq<JournalEntry>)
      reads `log, `callerReused, `nextRequestID, `id
    {
      && Below(a.requestID, nextRequestID)
      && Unmentioned(entries, a.requestID)
      && (Benign(callerReused, log) && id != "" ==> id != stale)
      && (Benign(callerReused, log) ==>
            Pinned(log, nextRequestID, entries, a, stale) && Clean(log, a.requestID, id))
    }

    /** The action may be sent, or sent again, in the current session. */
    ghost predicate Sendable(a: Action, entries: seq<JournalEntry>)
      reads `log, `callerReused, `nextRequestID, `id
    {
      && Below(a.requestID, nextRequestID)
      && Unmentioned(entries, a.requestID)
      && (Benign(callerReused, log) ==> Pinned(log, nextRequestID, entries, a, id))
    }

    // ------------------------------------------------------------- transport

    /** The transport: any answer, or none. */
    method Exchange() returns (response: Option<Response>)
    {
      response := *;
    }

    method Send(action: Action, ghost purpose: Purpose) returns (response: Option<Response>)
      modifies `log
      ensures log == old(log) + [Acted(id, action, purpose, Held(), response)]
    {
      response := Exchange();
      log := log + [Acted(id, action, purpose, Held(), response)];
    }

    /** One transmission, repeated byte for byte once when nothing came back. */
    method Transmit(action: Action, retry: bool, ghost purpose: Purpose) returns (response: Option<Response>)
      modifies `log
      ensures Sent(old(log), log, id, action, purpose, Held(), response)
      ensures !retry ==> |log| == |old(log)| + 1
      ensures retry && response.None? ==> |log| == |old(log)| + 2
    {
      response := Send(action, purpose);
      if response.None? && retry {
        response := Send(action, purpose);
      }
    }

    /** Sends an action that is pinned in the current session. */
    method SendWithRetry(action: Action, retry: bool, ghost purpose: Purpose,
                         ghost entries: seq<JournalEntry>, ghost stale: string, ghost a: Action)
      returns (response: Option<Response>)
      requires id != "" && purpose != Disposition && Inv(entries, []) && Sendable(action, entries)
      requires Offered(purpose, action) && Tied(Held())
      requires purpose == Semantic ==> !Unknown(log) && Housed(id)
      modifies `log, `resolved
      ensures Inv(entries, OwedBy(response))
      ensures purpose == Restoring || old(Follows(id)) ==> Answered(confirmed, response)
      ensures Answered([], response) && (Trusted() ==> old(Trusted()))
      ensures !IsSuccessful(response) ==>
        (old(Follows(id)) ==> Follows(id)) && (old(Housed(stale)) ==> Housed(stale))
      ensures (Benign(callerReused, log) ==> stale != id) && old(Follows(stale)) ==> Follows(stale)
      ensures Unknown(log) <==> purpose in {Restoring, Fallback} && IsUncertain(response)
      ensures Declined(log) <==> IsRejected(response)
      ensures purpose == Fallback && IsRejected(response) ==> EndsInRefusedText(log, id)
      ensures purpose == Fallback && old(EndsInRejection(log, id)) ==> EndsInRejection(log, id)
      ensures Sent(old(log), log, id, action, purpose, Held(), response)
      ensures resolved == old(resolved) + ResolvedOf(purpose, action.command, response) && |log| > |old(log)|
      ensures !retry ==> |log| == |old(log)| + 1
      ensures retry && response.None? ==> |log| == |old(log)| + 2
      ensures Benign(callerReused, log) <==> old(Benign(callerReused, log))
      ensures Sendable(action, entries)
      ensures old(Away(stale, a, entries)) && a.requestID != action.requestID ==> Away(stale, a, entries)
      ensures purpose == Restoring && IsRejected(response) ==> EndsInRejection(log, id)
      ensures Tied(TakenBy(Held(), purpose, action, response))
      ensures Home(log, epoch) == if IsSuccessful(response) then Some(id) else old(Home(log, epoch))
      ensures purpose != Semantic && IsSuccessful(response) ==> BroughtOver(log, id, Held())
    {
      hide Tracked, WireAt, SequencedIn, EndsInRejection, EndsInRefusedText, Unknown, Declined, MaterialIn,
        Home, TakenBy, Promised, Issued, UpTo, AnsweredIn, EntriesBelow, Clean, Bound, Below, Unmentioned;
      response := SendTracked(action, retry, purpose);
      if Trusted() {
        SentPromise(old(log), log, id, action, purpose, Held(), response, nextOf, confirmed, namespace,
          recoveryCheckpoint);
      }
      if old(Benign(callerReused, log)) {
        SentKeepsWire(old(log), log, id, action, purpose, Held(), response, nextRequestID, entries);
      }
    }

    /** Only what is held is offered to a session: its checkpoint, or its text where that may be inserted. */
    ghost predicate Offered(purpose: Purpose, action: Action)
      reads `log, `id, `recoveryCheckpoint, `fallbackComposition, `unsafe
    {
      && (purpose == Restoring ==> recoveryCheckpoint != "" && action.command == RestoreCheckpoint(recoveryCheckpoint))
      && (purpose == Fallback ==> CanUseStoredTextFallback() && action.command == InsertText(fallbackComposition))
      && (purpose == Fallback && recoveryCheckpoint != "" ==> EndsInRejection(log, id))
    }

    /** The transmissions and the record of what they settled. */
    method SendTracked(action: Action, retry: bool, ghost purpose: Purpose) returns (response: Option<Response>)
      requires purpose != Disposition && Tracked([]) && Offered(purpose, action) && Tied(Held())
      requires purpose == Semantic ==> !Unknown(log) && Housed(id)
      modifies `log, `resolved
      ensures Tracked(OwedBy(response)) && Sent(old(log), log, id, action, purpose, Held(), response)
      ensures resolved == old(resolved) + ResolvedOf(purpose, action.command, response) && |log| > |old(log)|
      ensures !retry ==> |log| == |old(log)| + 1
      ensures retry && response.None? ==> |log| == |old(log)| + 2
      ensures NoReuse(log) <==> old(NoReuse(log))
      ensures Unknown(log) <==> purpose in {Restoring, Fallback} && IsUncertain(response)
      ensures Declined(log) <==> IsRejected(response)
      ensures purpose == Fallback && IsRejected(response) ==> EndsInRefusedText(log, id)
      ensures purpose == Fallback && old(EndsInRejection(log, id)) ==> EndsInRejection(log, id)
      ensures purpose == Restoring && IsRejected(response) ==> EndsInRejection(log, id)
      ensures Tied(TakenBy(Held(), purpose, action, response))
      ensures Home(log, epoch) == if IsSuccessful(response) then Some(id) else old(Home(log, epoch))
      ensures purpose != Semantic && IsSuccessful(response) ==> BroughtOver(log, id, Held())
    {
      hide Remembered, InputKept, MaterialIn, Home, TakenBy, BroughtOver, NoReuse, NumberingOk, EffectsIn,
        ResolvedIn, Resolves, RecoverySafe, EndsInRejection, EndsInRefusedText, Declined, Unknown, Refusals,
        Conserved, PendingOk, IsSuccessful, IsRejected, IsUncertain, Effects, Raws, DistinctIDs, Sent;
      response := Transmit(action, retry, purpose);
      resolved := resolved + ResolvedOf(purpose, action.command, response);
      ghost var held := Held();
      SentInput(old(log), log, id, action, purpose, held, response, epoch, context.secureInput, lapses);
      if purpose != Semantic && IsSuccessful(response) {
        SentBringsOver(old(log), log, id, action, purpose, held, response);
      }
      SentReadings(old(log), log, id, action, purpose, held, response, epoch);
    }

    method Open(tryConnect: bool) returns (ok: bool)
      modifies `id, `capabilities, `revision, `log
      ensures !ok ==> id == old(id) && capabilities == old(capabilities) && revision == old(revision) && log == old(log)
      ensures ok ==> id != "" && revision == 0 && log == old(log) + [Opened(id)]
    {
      var response := Exchange();
      if response.None? || response.value.status != Success || !response.value.payload.OpenResult?
         || response.value.payload.sessionID == "" {
        return false;
      }
      var result := response.value.payload;
      id := result.sessionID;
      capabilities := Capabilities(
        if result.protocolVersion == 0 then 1 else result.protocolVersion,
        result.featureBits, result.maxSnapshotVersion, result.recoverySupport,
        result.idempotentRequestSupport, result.persistentLearning);
      revision := 0;
      log := log + [Opened(id)];
      return true;
    }

    /** Opening keeps the invariant, whatever session the client was bound to before. */
    method OpenFresh(tryConnect: bool, ghost entries: seq<JournalEntry>, ghost stale: string, ghost a: Action)
      returns (ok: bool)
      requires Inv(entries, []) && inFlight == []
      modifies `id, `capabilities, `revision, `log
      ensures Inv(entries, [])
      ensures !ok ==> id == old(id) && capabilities == old(capabilities) && revision == old(revision) && log == old(log)
      ensures ok ==> id != "" && revision == 0 && log == old(log) + [Opened(id)]
      ensures ok && Benign(callerReused, log) ==> old(Benign(callerReused, log)) && Clean(log, a.requestID, id)
      ensures ok && old(Away(stale, a, entries)) ==>
        Away(stale, a, entries) && (Benign(callerReused, log) ==> id != stale)
      ensures ok ==> Declined(log) && !Unknown(log)
      ensures Trusted() ==> old(Trusted())
      ensures ok && old(Away(stale, a, entries) && Follows(stale)) ==> Follows(stale)
      ensures (old(Tied(Held())) ==> Tied(Held())) && (old(Housed(stale)) ==> Housed(stale))
    {
      hide Remembered, InputKept, MaterialIn, Home, TakenBy, BroughtOver, LogOk, EntriesOk, EntriesBelow,
        Bound, Clean, NoReuse, NumberingOk, EffectsIn, ResolvedIn, Resolves, RecoverySafe, EndsInRejection,
        EndsInRefusedText, Declined, Unknown, Refusals, Promised, Issued, SequencedIn, AnsweredIn, UpTo,
        Conserved, PendingOk, WireAt, Effects, Raws, DistinctIDs, Below, Unmentioned;
      ok := Open(tryConnect);
      if ok {
        Append(old(log), Opened(id), epoch);
        OpenedIsNeutral(old(log), id);
        QuietPromise(old(log), Opened(id), nextOf);
        QuietInput(old(log), Opened(id), epoch, context.secureInput, lapses);
        if Benign(callerReused, log) {
          OpenedIsFresh(old(log), nextRequestID, entries, old(id), id);
          if old(Away(stale, a, entries)) {
            KnownSessionsDiffer(old(log), nextRequestID, entries, stale, id);
          }
        }
      }
    }

    // ---------------------------------------------- effects and snapshots

    /** Renumbers the effects of a response in place. */
    method NormalizeEffectIDs(response: Response, ghost owed: seq<Effect>, ghost entries: seq<JournalEntry>)
      returns (normalized: Response)
      requires response.payload.TopLevelSnapshot? ==> response.payload.top.effects == []
      requires inFlight == [] && owed == EffectsOf(Some(response))
      requires Core(entries, owed)
      modifies `numbering, `confirmed, `inFlight
      ensures Core(entries, [])
      ensures inFlight == EffectsOf(Some(normalized))
      ensures (numbering, inFlight) == NumberAll(old(numbering), owed)
      ensures |inFlight| == |owed| && confirmed == old(confirmed) + Confirm(namespace, owed, inFlight)
      ensures normalized == if HasSnapshot(response) then WithEffects(response, inFlight) else response
    {
      hide Core, NumberAll, Confirm;
      normalized := response;
      var numbered := ConfirmEffects(EffectsOf(Some(response)), entries);
      if HasSnapshot(response) {
        normalized := WithEffects(response, numbered);
      }
    }

    /** Numbers what is owed; from then on it is confirmed and on its way. */
    method ConfirmEffects(owed: seq<Effect>, ghost entries: seq<JournalEntry>) returns (numbered: seq<Effect>)
      requires inFlight == [] && Core(entries, owed)
      modifies `numbering, `confirmed, `inFlight
      ensures Core(entries, []) && inFlight == numbered
      ensures (numbering, inFlight) == NumberAll(old(numbering), owed)
      ensures |inFlight| == |owed| && confirmed == old(confirmed) + Confirm(namespace, owed, inFlight)
    {
      hide Recalled, NumberingOk, EffectsIn, Effects, Raws, NumberAll, Confirm, PendingOk, EntriesBelow,
        Traced, Wire, RecoverySafe, SecureOk, DistinctIDs, Conserved;
      NumberAllOk(numbering, namespace, confirmed, owed);
      numbered := NumberEffects(owed, confirmed);
      ConfirmedExtends(confirmed, namespace, owed, numbered);
      ConfirmConserves(ordered, delivered, replayedEffects, numbered, Effects(confirmed));
      inFlight := numbered;
      confirmed := confirmed + Confirm(namespace, owed, numbered);
    }

    method NumberEffects(effects: seq<Effect>, ghost t: seq<Confirmed>) returns (numbered: seq<Effect>)
      requires NumberingOk(numbering, namespace, t)
      modifies `numbering
      ensures (numbering, numbered) == NumberAll(old(numbering), effects)
    {
      hide NumberingOk, NumberOne;
      numbered := [];
      for k := 0 to |effects|
        invariant (numbering, numbered) == NumberAll(old(numbering), effects[..k])
      {
        StaysPositive(old(numbering), namespace, t, effects[..k]);
        var number := NormalizeOne(effects[k].id);
        numbered := numbered + [effects[k].(id := number)];
        assert effects[..k + 1][..k] == effects[..k];
      }
      assert effects[..|effects|] == effects;
    }

    method NormalizeOne(rawID: uint64) returns (number: uint64)
      requires Positive(numbering)
      modifies `numbering
      ensures (numbering, number) == NumberOne(old(numbering), rawID)
    {
      if rawID == 0 {
        return 0;
      }
      if !numbering.anchored {
        numbering := numbering.(anchored := true, rawAnchor := rawID, globalAnchor := numbering.next);
      }
      if rawID < numbering.rawAnchor {
        return 0;
      }
      var delta: uint64 := rawID - numbering.rawAnchor;
      if delta > MAX_UINT64 - numbering.globalAnchor {
        return 0;
      }
      number := numbering.globalAnchor + delta;
      var highest := if numbering.highestRaw >= rawID then numbering.highestRaw else rawID;
      if number == MAX_UINT64 {
        numbering := numbering.(highestRaw := highest, next := number);
      } else {
        var next: uint64 := if numbering.next >= number + 1 then numbering.next else number + 1;
        numbering := numbering.(highestRaw := highest, next := next);
      }
    }

    method TextOf(spans: seq<Span>) returns (text: string)
      ensures text == PreeditText(spans)
    {
      text := "";
      for k := 0 to |spans|
        invariant text == PreeditText(spans[..k])
      {
        text := text + spans[k].text;
        assert spans[..k + 1][..k] == spans[..k];
      }
      assert spans[..|spans|] == spans;
    }

    method FindActiveSpan(spans: seq<Span>) returns (found: bool)
      ensures found <==> HasActiveSpan(spans)
    {
      found := false;
      for k := 0 to |spans|
        invariant !found
        invariant forall i :: 0 <= i < k ==> spans[i].style != Active
      {
        if spans[k].style == Active {
          return true;
        }
      }
    }

    /** The client's view is the one of this response's snapshot. */
    ghost predicate TookOver(response: Response)
      reads `revision, `recoveryCheckpoint, `fallbackComposition, `context, journal`lastSnapshot
    {
      HasSnapshot(response) ==>
        var snapshot := response.payload.snapshot.value;
        && revision == snapshot.revision
        && (context.secureInput ==>
              recoveryCheckpoint == "" && fallbackComposition == "" && journal.lastSnapshot == None)
        && (!context.secureInput ==>
              && (snapshot.recovery.Some? ==> recoveryCheckpoint == snapshot.recovery.value)
              && fallbackComposition == PreeditText(snapshot.preedit) && journal.lastSnapshot == Serialized(snapshot))
    }

    /** Takes over the snapshot of an action response. Only a trusted success may touch the
        recovery material; a failure snapshot advances the revision alone. */
    method UpdateSnapshot(response: Response, command: Command, ghost entries: seq<JournalEntry>)
      requires Core(entries, [])
      requires if HasSnapshot(response) && TrustedSuccess(response)
        then SequencedAfter(response.payload.snapshot.value.recovery) else SequencedAt(namespace)
      modifies `revision, `unsafe, `recoveryCheckpoint, `fallbackComposition, journal`lastSnapshot
      ensures revision == if HasSnapshot(response) then response.payload.snapshot.value.revision else old(revision)
      ensures !(HasSnapshot(response) && TrustedSuccess(response)) ==>
        && unsafe == old(unsafe) && recoveryCheckpoint == old(recoveryCheckpoint)
        && fallbackComposition == old(fallbackComposition) && journal.lastSnapshot == old(journal.lastSnapshot)
      ensures HasSnapshot(response) && TrustedSuccess(response) ==>
        var snapshot := response.payload.snapshot.value;
        && unsafe == GuardsAfter(old(unsafe), snapshot, command)
        && recoveryCheckpoint == (if context.secureInput then ""
                                  else if snapshot.recovery.Some? then snapshot.recovery.value
                                  else old(recoveryCheckpoint))
        && fallbackComposition == (if context.secureInput then "" else PreeditText(snapshot.preedit))
        && journal.lastSnapshot == (if context.secureInput then None else Serialized(snapshot))
        && (context.secureInput || Held() == Taken(old(Held()), snapshot, command))
      ensures Inv(entries, [])
    {
      hide Accounts, Traced, Wire, RecoverySafe, SequencedIn, PendingOk, EntriesBelow, Trusted, GuardsAfter,
        Serialized, PreeditText, DistinctIDs, EffectsOf, IsSuccessful;
      if !HasSnapshot(response) {
        return;
      }
      var snapshot := response.payload.snapshot.value;
      revision := snapshot.revision;
      if !TrustedSuccess(response) {
        return;
      }
      UpdateGuards(snapshot, command);
      UpdateMaterial(snapshot);
    }

    /** The recovery material of a confirmed snapshot; nothing of a secure one is retained. */
    method UpdateMaterial(snapshot: Snapshot)
      modifies `recoveryCheckpoint, `fallbackComposition, journal`lastSnapshot
      ensures recoveryCheckpoint == (if context.secureInput then ""
                                     else if snapshot.recovery.Some? then snapshot.recovery.value
                                     else old(recoveryCheckpoint))
      ensures fallbackComposition == (if context.secureInput then "" else PreeditText(snapshot.preedit))
      ensures journal.lastSnapshot == (if context.secureInput then None else Serialized(snapshot))
    {
      if context.secureInput {
        recoveryCheckpoint := "";
        fallbackComposition := "";
        journal.ConfirmSnapshot(None);
      } else if snapshot.recovery.Some? {
        recoveryCheckpoint := snapshot.recovery.value;
      }
      if !context.secureInput {
        journal.ConfirmSnapshot(Serialized(snapshot));
        fallbackComposition := TextOf(snapshot.preedit);
      }
    }

    /** Which text-only fallbacks the snapshot rules out. */
    method UpdateGuards(snapshot: Snapshot, command: Command)
      modifies `unsafe
      ensures unsafe == GuardsAfter(old(unsafe), snapshot, command)
    {
      if snapshot.phase == Idle {
        unsafe := unsafe.(reconversion := false, direct := false);
      } else if command.Reconvert? || snapshot.phase == Reconverting {
        unsafe := unsafe.(reconversion := true);
      }
      if snapshot.phase != Idle && (command.CommitUnicodeInput? || command.TransformActiveSegment?) {
        unsafe := unsafe.(direct := true);
      }
      unsafe := unsafe.(unicode := snapshot.phase == Phase.UnicodeInput);
      var hasActivePresentation := FindActiveSpan(snapshot.preedit);
      unsafe := unsafe.(presentation :=
        snapshot.phase != Composing || snapshot.candidateCount != 0 || hasActivePresentation);
    }

    predicate CanUseStoredTextFallback()
      reads `fallbackComposition, `unsafe
    {
      fallbackComposition != "" && unsafe == NO_GUARDS
    }

    /** Buffers the effects of a confirmed response for the next handover. */
    method CollectResponseEffects(response: Response, ghost entries: seq<JournalEntry>)
      requires Core(entries, []) && !context.secureInput
      requires inFlight == EffectsOf(Some(response))
      modifies `replayedEffects, `inFlight
      ensures Core(entries, []) && inFlight == [] && (old(Inv(entries, [])) ==> Inv(entries, []))
      ensures replayedEffects == old(replayedEffects) + EffectsOf(Some(response))
    {
      hide Recalled, Traced, Wire, RecoverySafe, PendingOk, EntriesBelow, SequencedAt, NumberingOk, EffectsIn,
        Conserved;
      CollectConserves(ordered, delivered, replayedEffects, inFlight, Effects(confirmed));
      replayedEffects := replayedEffects + EffectsOf(Some(response));
      inFlight := [];
    }

    /** A new server namespace: earlier numbers stay taken. */
    method BeginFreshEffectNamespace(
        ghost entries: seq<JournalEntry>, ghost owed: seq<Effect>, ghost response: Option<Response>)
      requires Inv(entries, owed)
      modifies `numbering, `namespace
      ensures Inv(entries, owed)
      ensures numbering == FreshNamespace(old(numbering)) && namespace == old(namespace) + 1
      ensures SequencedAt(old(namespace)) && forall x :: Follows(x)
      ensures old(Answered([], response)) ==> Answered(confirmed, response)
    {
      hide Recalled, Traced, Wire, RecoverySafe, PendingOk, EntriesBelow, NumberingOk, EffectsIn, Conserved,
        Benign, Promised, SequencedIn, AnsweredIn, UpTo, Issued;
      FreshNamespaceOk(numbering, namespace, confirmed);
      if Trusted() {
        FreshFollows(numbering, namespace, namespace + 1, confirmed, recoveryCheckpoint, nextOf);
      }
      numbering := numbering.(anchored := false, rawAnchor := 0, globalAnchor := 0, highestRaw := 0);
      namespace := namespace + 1;
    }

    /** The numbers stay increasing under whichever checkpoint the snapshot leaves in force. */
    ghost predicate SequencedAfter(recovery: Option<string>)
      reads `log, `callerReused, `continuous, `confirmed, `namespace, `recoveryCheckpoint
    {
      Trusted() ==>
        && SequencedIn(confirmed, namespace, "", nextOf)
        && SequencedIn(confirmed, namespace, if recovery.Some? then recovery.value else recoveryCheckpoint, nextOf)
    }

    lemma {:induction false} ConfirmedSequence(before: seq<Confirmed>, response: Response)
      requires IsSuccessful(Some(response)) && |inFlight| == |EffectsOf(Some(response))|
      requires confirmed == before + Confirm(namespace, EffectsOf(Some(response)), inFlight)
      requires Trusted() ==> SequencedIn(before, namespace, recoveryCheckpoint, nextOf)
      requires Answered(before, Some(response))
      ensures Follows(id) && SequencedAfter(response.payload.snapshot.value.recovery)
    {
      hide SequencedIn, AnsweredIn, UpTo, Issued, Promised, Benign, Confirm;
      if Trusted() {
        AnswerConfirmed(before, namespace, recoveryCheckpoint, Some(response), Issued(log, id, nextOf),
          inFlight, nextOf);
      }
    }

    /** Post-processing of a final answer: strips what must not be delivered, renumbers the
        rest and takes over the snapshot. */
    method Finish(response: Response, command: Command, ghost entries: seq<JournalEntry>) returns (r: Response)
      requires Inv(entries, OwedBy(Some(response))) && inFlight == [] && Answered(confirmed, Some(response))
      modifies `numbering, `confirmed, `inFlight, `revision, `unsafe, `recoveryCheckpoint,
        `fallbackComposition, journal`lastSnapshot
      ensures Inv(entries, []) && inFlight == EffectsOf(Some(r))
      ensures IsSuccessful(Some(response)) || old(Follows(id)) ==> Follows(id)
      ensures SameVerdict(r, response) && (!IsSuccessful(Some(r)) ==> EffectsOf(Some(r)) == [])
      ensures if IsSuccessful(Some(r)) then TookOver(r) else HasSnapshot(r) ==>
        revision == r.payload.snapshot.value.revision
      ensures !IsSuccessful(Some(r)) ==>
        && unsafe == old(unsafe) && recoveryCheckpoint == old(recoveryCheckpoint)
        && fallbackComposition == old(fallbackComposition) && journal.lastSnapshot == old(journal.lastSnapshot)
        && numbering == old(numbering) && confirmed == old(confirmed)
      ensures IsSuccessful(Some(response)) && !context.secureInput ==>
        Held() == Taken(old(Held()), response.payload.snapshot.value, command)
    {
      hide Core, Trusted, Answered, Follows;
      r := response;
      if !TrustedSuccess(r) {
        if HasSnapshot(r) {
          r := WithEffects(r, []);
        }
        if r.payload.TopLevelSnapshot? {
          r := r.(payload := r.payload.(top := r.payload.top.(effects := [])));
        }
      }
      NumberNothing(numbering);
      r := NormalizeEffectIDs(r, EffectsOf(Some(r)), entries);
      if !IsSuccessful(Some(response)) {
        NothingConfirmed(old(confirmed), namespace);
      }
      if IsSuccessful(Some(response)) {
        ConfirmedSequence(old(confirmed), response);
        TakenIgnoresEffects(Held(), response.payload.snapshot.value, inFlight, command);
      }
      UpdateSnapshot(r, command, entries);
    }

    // ------------------------------------------------ leaving a server session

    ghost method NoteClosed(entries: seq<JournalEntry>, stale: string, a: Action)
      requires Inv(entries, [])
      modifies `log
      ensures Inv(entries, []) && log == old(log) + [Closed(id)] && !Unknown(log)
      ensures old(Away(stale, a, entries)) ==> Away(stale, a, entries)
      ensures old(Follows(stale)) ==> Follows(stale)
      ensures (old(Tied(Held())) ==> Tied(Held())) && (old(Housed(stale)) ==> Housed(stale))
      ensures (Benign(callerReused, log) <==> old(Benign(callerReused, log))) && (Trusted() <==> old(Trusted()))
    {
      hide Remembered, InputKept, MaterialIn, Home, TakenBy, BroughtOver, EntriesBelow, Clean, NumberingOk,
        EffectsIn, ResolvedIn, RecoverySafe, EndsInRejection, EndsInRefusedText, Declined, Unknown, Refusals,
        Promised, Issued, SequencedIn, AnsweredIn, UpTo, Conserved, PendingOk, WireAt, Below, Unmentioned;
      Append(log, Closed(id), epoch);
      QuietPromise(log, Closed(id), nextOf);
      QuietInput(log, Closed(id), epoch, context.secureInput, lapses);
      if Benign(callerReused, log) {
        QuietKeepsWire(log, Closed(id), nextRequestID, entries, id);
      }
      log := log + [Closed(id)];
    }

    /** Input is given up only for the reasons the transcript's discipline allows. */
    ghost method NoteGivenUp(e: Event)
      requires Inv([], []) && e.GaveUp? && StepSafe(log, e) && e.held == Held() && HasMaterial() && Tied(Held())
      modifies `log, `abandonments
      ensures Tied(Held()) && Inv([], []) && !Unknown(log)
      ensures log == old(log) + [e] && abandonments == old(abandonments) + 1
      ensures Benign(callerReused, log) <==> old(Benign(callerReused, log))
    {
      hide Remembered, InputKept, MaterialIn, Home, TakenBy, BroughtOver, EntriesBelow, Clean, NumberingOk,
        EffectsIn, ResolvedIn, RecoverySafe, EndsInRejection, EndsInRefusedText, Declined, Unknown, Refusals,
        Promised, Issued, SequencedIn, AnsweredIn, UpTo, Conserved, PendingOk, WireAt, Below, Unmentioned;
      Append(log, e, epoch);
      QuietPromise(log, e, nextOf);
      QuietInput(log, e, epoch, context.secureInput, lapses);
      if Benign(callerReused, log) {
        QuietKeepsWire(log, e, nextRequestID, [], id);
      }
      log := log + [e];
      abandonments := abandonments + 1;
    }

    /** Hands a learning disposition (never for secure input) and a close to the lifecycle
        transport. Their answers are not used. */
    method Dispose(prefix: Prefix, commit: bool, ghost entries: seq<JournalEntry>, ghost stale: string,
        ghost a: Action)
      requires id != "" && Inv(entries, [])
      modifies `log, `nextRequestID
      ensures Inv(entries, [])
      ensures old(Away(stale, a, entries)) ==> Away(stale, a, entries)
      ensures Benign(callerReused, log) <==> old(Benign(callerReused, log))
      ensures Disposed(old(log), log, id, context.secureInput, prefix, old(nextRequestID), revision, commit)
      ensures nextRequestID >= old(nextRequestID)
      ensures !Unknown(log) && (old(Follows(stale)) ==> Follows(stale))
      ensures (old(Tied(Held())) ==> Tied(Held())) && (old(Housed(stale)) ==> Housed(stale))
    {
      hide Inv, Follows, Answered, Trusted, Away, Sendable, Unknown, Declined, Housed, Tied, Benign;
      if !context.secureInput {
        var action := Action(Generated(prefix, nextRequestID), revision, ResolvePendingLearning(commit));
        var e := SendDisposition(action, entries, stale, a);
      }
      NoteClosed(entries, stale, a);
    }

    method SendDisposition(action: Action, ghost entries: seq<JournalEntry>, ghost stale: string, ghost a: Action)
      returns (ghost e: Event)
      requires id != "" && Inv(entries, [])
      requires action.requestID.Generated? && action.requestID.number == nextRequestID
      modifies `log, `nextRequestID
      ensures Inv(entries, []) && nextRequestID == old(nextRequestID) + 1
      ensures e.Acted? && e.session == id && e.action == action && e.purpose == Disposition && log == old(log) + [e]
      ensures old(Away(stale, a, entries)) ==> Away(stale, a, entries)
      ensures Benign(callerReused, log) <==> old(Benign(callerReused, log))
      ensures old(Follows(stale)) ==> Follows(stale)
      ensures (old(Tied(Held())) ==> Tied(Held())) && (old(Housed(stale)) ==> Housed(stale))
    {
      hide Remembered, InputKept, MaterialIn, Home, TakenBy, BroughtOver, LogOk, EntriesOk, EntriesBelow,
        Bound, Clean, NoReuse, NumberingOk, EffectsIn, ResolvedIn, Resolves, RecoverySafe, EndsInRejection,
        EndsInRefusedText, Declined, Unknown, Refusals, Promised, Issued, SequencedIn, AnsweredIn, UpTo,
        Conserved, PendingOk, WireAt, Effects, Raws, DistinctIDs, Below, Unmentioned;
      DrawNumber(action, entries, stale, a);
      ghost var log0 := log;
      var response := Send(action, Disposition);
      e := Acted(id, action, Disposition, Held(), response);
      Append(log0, e, epoch);
      QuietInput(log0, e, epoch, context.secureInput, lapses);
      QuietPromise(log0, e, nextOf);
      if Benign(callerReused, log) {
        OneSendKeepsWire(log0, e, nextRequestID, entries);
      }
    }

    /** Draws the next request number for a new action. */
    method DrawNumber(action: Action, ghost entries: seq<JournalEntry>, ghost stale: string, ghost a: Action)
      requires Inv(entries, [])
      requires action.requestID.Generated? && action.requestID.number == nextRequestID
      modifies `nextRequestID
      ensures nextRequestID == old(nextRequestID) + 1 && Inv(entries, [])
      ensures Sendable(action, entries) && Unmentioned(journal.pending, action.requestID)
      ensures old(Away(stale, a, entries)) ==> Away(stale, a, entries) && a.requestID != action.requestID
    {
      hide Accounts, Recalled, Traced, RecoverySafe, SequencedAt, Clean, WireAt, Benign;
      nextRequestID := nextRequestID + 1;
      if Benign(callerReused, log) {
        FreshIsPinned(log, nextRequestID - 1, entries, action, id);
      }
    }

    /** Disposes of an uncertain replacement session and returns to `stale`, keeping every piece
        of recovery material for a later attempt. */
    method DiscardServerNamespacePreservingRecovery(
        ghost entries: seq<JournalEntry>, ghost stale: string, ghost a: Action)
      requires id != "" && Inv(entries, [])
      modifies `log, `nextRequestID, `id, `revision
      ensures Inv(entries, []) && id == "" && revision == 0 && |log| > |old(log)|
      ensures old(Away(stale, a, entries)) ==> Away(stale, a, entries)
      ensures Benign(callerReused, log) <==> old(Benign(callerReused, log))
      ensures Disposed(old(log), log, old(id), context.secureInput, DiscardPrefix, old(nextRequestID),
                       old(revision), false)
      ensures nextRequestID >= old(nextRequestID) && !Unknown(log) && (old(Follows(stale)) ==> Follows(stale))
      ensures (old(Tied(Held())) ==> Tied(Held())) && (old(Housed(stale)) ==> Housed(stale))
    {
      hide Tracked, WireAt, SequencedIn, EndsInRejection, EndsInRefusedText, Unknown, Declined, MaterialIn,
        Home, TakenBy, Promised, Issued, UpTo, AnsweredIn, EntriesBelow, Clean, Bound, Below, Unmentioned;
      Dispose(DiscardPrefix, false, entries, stale, a);
      LeaveSession(entries);
      revision := 0;
    }

    /** Without a session every entry stays sendable. */
    method LeaveSession(ghost entries: seq<JournalEntry>)
      requires Inv(entries, [])
      modifies `id
      ensures id == "" && Inv(entries, []) && (Benign(callerReused, log) ==> forall r :: Clean(log, r, id))
    {
      hide Tracked, WireAt, SequencedIn, EndsInRejection, EndsInRefusedText, Unknown, Declined, MaterialIn,
        Home, TakenBy, Promised, Issued, UpTo, AnsweredIn, EntriesBelow, Clean, Bound, Below, Unmentioned;
      if Benign(callerReused, log) {
        NoSessionWire(log, nextRequestID, entries, id);
      }
      id := "";
    }

    /** The decision a journaled resolution already made, if any. */
    method FirstJournaledDecision() returns (decision: Option<bool>)
      ensures decision == FirstDecision(journal.pending)
    {
      for k := 0 to |journal.pending|
        invariant DecisionsOf(journal.pending) == DecisionsOf(journal.pending[k..])
      {
        var command := journal.pending[k].action.command;
        if command.ResolvePendingLearning? {
          return Some(command.commit);
        }
      }
      return None;
    }

    /** The abandonment boundary, asked for by the caller. */
    method FinalizeWithoutUITarget(preferredCommit: bool)
      requires Valid()
      modifies `log, `nextRequestID, `id, `revision, `recoveryCheckpoint, `fallbackComposition, `unsafe,
        journal, ledger, `numbering, `replayedEffects, `epoch, `continuous, `namespace, `confirmed,
        `delivered, `inFlight, `ordered, `dismissals
      ensures Dismissed() && |log| >= |old(log)|
      ensures var decision := FirstDecision(old(journal.pending));
        if old(id) == "" then log == old(log)
        else Disposed(old(log), log, old(id), context.secureInput, AbandonPrefix, old(nextRequestID), old(revision),
                      if decision.Some? then decision.value else preferredCommit)
      ensures Benign(callerReused, log) <==> old(Benign(callerReused, log))
      ensures nextRequestID >= old(nextRequestID)
    {
      hide Inv, Core, Trusted, Follows, Unknown, Disposed, Benign, Forgotten, DecisionsOf;
      DropEntries(journal.pending);
      dismissals := dismissals + 1;
      Dismiss(preferredCommit);
    }

    /** The abandonment boundary after every form of the input was definitely refused in this session. */
    method GiveUp()
      requires Inv([], []) && id != "" && HasMaterial() && Declined(log) && Tied(Held())
      requires recoveryCheckpoint != "" ==> EndsInRejection(log, id)
      requires CanUseStoredTextFallback() && !context.secureInput ==> EndsInRefusedText(log, id)
      modifies `log, `nextRequestID, `id, `revision, `recoveryCheckpoint, `fallbackComposition, `unsafe,
        journal, ledger, `numbering, `replayedEffects, `epoch, `continuous, `namespace, `confirmed,
        `delivered, `inFlight, `ordered, `abandonments
      ensures Abandoned() && |log| > |old(log)| && continuous && StaysContinuous()
      ensures var decision := FirstDecision(old(journal.pending));
        Disposed(old(log) + [GaveUp(old(id), old(Held()))], log, old(id), context.secureInput, AbandonPrefix,
                 old(nextRequestID), old(revision), decision.Some? && decision.value)
      ensures Benign(callerReused, log) <==> old(Benign(callerReused, log))
      ensures nextRequestID >= old(nextRequestID)
    {
      hide Inv, Valid, Tied, Benign, Disposed, Unknown, Declined, EndsInRejection, EndsInRefusedText;
      SecureHoldsNothing([]);
      NoteGivenUp(GaveUp(id, Held()));
      Dismiss(false);
    }

    /** Hands over the learning decision - the journaled one if there is one - and forgets everything
        local. */
    method Dismiss(preferredCommit: bool)
      requires Inv([], []) && (id == "" ==> !Unknown(log))
      modifies `log, `nextRequestID, `id, `revision, `recoveryCheckpoint, `fallbackComposition, `unsafe,
        journal, ledger, `numbering, `replayedEffects, `epoch, `continuous, `namespace, `confirmed,
        `delivered, `inFlight, `ordered
      ensures Valid() && Forgotten() && |log| >= |old(log)|
      ensures var decision := FirstDecision(old(journal.pending));
        if old(id) == "" then log == old(log)
        else Disposed(old(log), log, old(id), context.secureInput, AbandonPrefix, old(nextRequestID), old(revision),
                      if decision.Some? then decision.value else preferredCommit)
      ensures Benign(callerReused, log) <==> old(Benign(callerReused, log))
      ensures nextRequestID >= old(nextRequestID)
    {
      hide Accounts, Recalled, RecoverySafe, Wire, Traced, SequencedAt, PendingOk, Unknown, Valid, Forgotten,
        Benign;
      var decision := FirstJournaledDecision();
      var commit := if decision.Some? then decision.value else preferredCommit;
      if id != "" {
        Dispose(AbandonPrefix, commit, [], "", Action(NoRequestID, 0, Reconvert));
      }
      Forget();
    }

    method Forget()
      requires RecoverySafe(log) && Wire([]) && Traced() && !Unknown(log)
      modifies `id, `revision, `recoveryCheckpoint, `fallbackComposition, `unsafe, journal, ledger,
        `numbering, `replayedEffects, `epoch, `continuous, `namespace, `confirmed, `delivered, `inFlight,
        `ordered
      ensures Valid() && Forgotten()
    {
      hide Valid;
      if Benign(callerReused, log) {
        NoSessionWire(log, nextRequestID, [], id);
      }
      id, revision := "", 0;
      ForgetLocal();
    }

    /** Clears the recovery material, the journal and the effects. */
    method ForgetLocal()
      requires RecoverySafe(log) && Wire([]) && Traced() && id == "" && !Unknown(log)
      modifies `recoveryCheckpoint, `fallbackComposition, `unsafe, journal, ledger, `numbering,
        `replayedEffects, `epoch, `continuous, `namespace, `confirmed, `delivered, `inFlight, `ordered
      ensures Valid() && NothingRetained() && epoch == |log| && numbering == INITIAL && continuous
    {
      hide RecoverySafe, Wire, Traced, Unknown, Valid, Accounts, Recalled, MaterialIn;
      recoveryCheckpoint, fallbackComposition, unsafe := "", "", NO_GUARDS;
      journal.Clear();
      ClearEffects();
      StartsAfresh();
    }

    lemma {:induction false} StartsAfresh()
      requires RecoverySafe(log) && Wire([]) && Traced() && id == "" && !Unknown(log) && journal.Valid()
      requires NothingRetained() && Accounts([]) && Recalled() && MaterialIn(log, epoch) == NOTHING
      ensures Valid()
    {
      hide RecoverySafe, Wire, Traced, Unknown, Accounts, Recalled, MaterialIn, Follows, Housed, SequencedIn,
        Trusted, DistinctIDs;
      NothingPending(nextRequestID);
      NothingSequenced(namespace, "", nextOf);
    }

    ghost predicate NothingRetained()
      reads `recoveryCheckpoint, `fallbackComposition, `unsafe, `replayedEffects, `delivered, `inFlight,
        `confirmed, `ordered, journal, ledger
    {
      && ledger.highestApplied == 0
      && recoveryCheckpoint == "" && fallbackComposition == "" && unsafe == NO_GUARDS
      && journal.pending == [] && journal.lastSnapshot == None
      && replayedEffects == [] && delivered == [] && inFlight == [] && confirmed == [] && ordered
    }

    /** Nothing of the old composition, journal or effects is left. */
    ghost predicate Forgotten()
      reads this, journal, ledger
    {
      && id == "" && revision == 0 && recoveryCheckpoint == "" && fallbackComposition == "" && unsafe == NO_GUARDS
      && journal.pending == [] && journal.lastSnapshot == None
      && replayedEffects == [] && delivered == [] && inFlight == [] && confirmed == [] && ordered && epoch == |log|
      && numbering == INITIAL && ledger.highestApplied == 0 && continuous
    }

    method ClearEffects()
      modifies ledger, `numbering, `replayedEffects, `epoch, `continuous, `namespace, `confirmed, `delivered,
        `inFlight, `ordered
      ensures Accounts([]) && Recalled() && MaterialIn(log, epoch) == NOTHING
      ensures numbering == INITIAL && replayedEffects == [] && ledger.highestApplied == 0
      ensures epoch == |log| && confirmed == [] && delivered == [] && inFlight == [] && ordered && continuous
    {
      numbering, replayedEffects := INITIAL, [];
      ledger.Clear();
      epoch, namespace, confirmed, delivered, inFlight, ordered := |log|, 0, [], [], [], true;
      continuous := true;
      NothingYet(log, epoch, context.secureInput, lapses);
    }

    // ----------------------------------------------- replacing a lost session

    /** The recovery material, the journal, the buffered effects and their numbering are
        untouched. */
    twostate predicate MaterialKept()
      reads this, journal
    {
      && recoveryCheckpoint == old(recoveryCheckpoint) && fallbackComposition == old(fallbackComposition)
      && unsafe == old(unsafe) && journal.lastSnapshot == old(journal.lastSnapshot)
      && journal.pending == old(journal.pending) && replayedEffects == old(replayedEffects)
      && numbering == old(numbering) && namespace == old(namespace) && confirmed == old(confirmed)
    }

    /** Takes over a successful recovery answer: its effects are buffered for the next handover. */
    method Adopt(response: Response, action: Action, ghost purpose: Purpose, ghost entries: seq<JournalEntry>)
      requires Inv(entries, EffectsOf(Some(response))) && inFlight == [] && !context.secureInput
      requires IsSuccessful(Some(response)) && Answered(confirmed, Some(response))
      requires purpose != Disposition && !Reinserts(purpose, action)
      requires Tied(TakenBy(Held(), purpose, action, Some(response))) && Home(log, epoch) == Some(id)
      modifies `numbering, `confirmed, `inFlight, `replayedEffects, `revision, `unsafe, `recoveryCheckpoint,
        `fallbackComposition, journal`lastSnapshot
      ensures Inv(entries, []) && inFlight == [] && old(replayedEffects) <= replayedEffects
      ensures Follows(id) && Tied(Held()) && Housed(id)
    {
      hide Core, Trusted, Answered, Follows, SequencedAfter, SequencedIn, UpTo, Issued, MaterialIn, Home,
        Taken, NumberAll, Confirm, Serialized, PreeditText, GuardsAfter, Raws, Effects;
      var normalized := NormalizeEffectIDs(response, EffectsOf(Some(response)), entries);
      ConfirmedSequence(old(confirmed), response);
      TakenIgnoresEffects(Held(), response.payload.snapshot.value, inFlight, action.command);
      CollectResponseEffects(normalized, entries);
      UpdateSnapshot(normalized, action.command, entries);
    }

    /** Sends an offer of what is held to the replacement session; the action that waits keeps its place. */
    method SendOffer(action: Action, ghost purpose: Purpose, ghost entries: seq<JournalEntry>, ghost stale: string,
        ghost a: Action)
      returns (response: Option<Response>)
      requires id != "" && Inv(entries, []) && purpose in {Restoring, Fallback} && Offered(purpose, action)
      requires action.requestID.Generated? && action.requestID.number == nextRequestID
      requires Away(stale, a, entries) && Tied(Held()) && Housed(stale) && Follows(stale)
      modifies `log, `resolved, `nextRequestID
      ensures Inv(entries, OwedBy(response)) && Away(stale, a, entries)
      ensures resolved == old(resolved) && |log| >= |old(log)| && nextRequestID >= old(nextRequestID)
      ensures Benign(callerReused, log) <==> old(Benign(callerReused, log))
      ensures IsSuccessful(response) ==>
        && !Unknown(log) && Home(log, epoch) == Some(id) && BroughtOver(log, id, Held())
        && (purpose == Restoring ==> Answered(confirmed, response)) && Answered([], response)
        && Tied(TakenBy(Held(), purpose, action, response)) && !IsUncertain(response)
      ensures !IsSuccessful(response) ==> OwedBy(response) == [] && Tied(Held()) && Housed(stale) && Follows(stale)
      ensures !IsSuccessful(response) && !IsUncertain(response) ==> Declined(log)
      ensures purpose == Restoring && !IsSuccessful(response) && !IsUncertain(response) ==> EndsInRejection(log, id)
      ensures purpose == Fallback && !IsSuccessful(response) && !IsUncertain(response) ==> EndsInRefusedText(log, id)
      ensures purpose == Fallback && old(EndsInRejection(log, id)) ==> EndsInRejection(log, id)
    {
      hide Inv, Tied, Housed, Follows, Answered, Trusted, Away, Sendable, Benign, Sent, MaterialIn, Home,
        TakenBy, BroughtOver, Offered, EndsInRejection, EndsInRefusedText, Declined, Unknown, Clean, Below,
        Unmentioned;
      DrawNumber(action, entries, stale, a);
      response := SendWithRetry(action, capabilities.idempotentRequestSupport, purpose, entries, stale, a);
      ResponsesPartition(response);
      NotTaken(Held(), purpose, action, response);
    }

    /** Offers the checkpoint to the replacement session. */
    method RestoreInReplacement(ghost entries: seq<JournalEntry>, ghost stale: string, ghost a: Action)
      returns (outcome: Outcome)
      requires id != "" && Inv(entries, []) && inFlight == [] && recoveryCheckpoint != "" && Follows(stale)
      requires Away(stale, a, entries) && Tied(Held()) && Housed(stale)
      modifies `log, `resolved, `nextRequestID, `numbering, `confirmed, `inFlight, `replayedEffects,
        `revision, `unsafe, `recoveryCheckpoint, `fallbackComposition, journal`lastSnapshot
      ensures resolved == old(resolved) && |log| >= |old(log)|
      ensures Inv(entries, []) && inFlight == [] && Away(stale, a, entries)
      ensures Benign(callerReused, log) <==> old(Benign(callerReused, log))
      ensures outcome != Recovered ==> MaterialKept() && revision == old(revision) && Follows(stale) && Housed(stale)
      ensures outcome == Recovered ==>
        !Unknown(log) && Follows(id) && Housed(id) && BroughtOver(log, id, old(Held()))
      ensures Tied(Held())
      ensures outcome == Refused ==> Declined(log) && EndsInRejection(log, id)
      ensures old(replayedEffects) <= replayedEffects && nextRequestID >= old(nextRequestID)
    {
      hide Inv, Tied, Housed, Follows, Answered, Trusted, Away, Benign, MaterialIn, Home, TakenBy,
        BroughtOver, Unknown, Declined, EndsInRejection, EndsInRefusedText, FreshNamespace;
      SecureHoldsNothing(entries);
      var restore := Action(Generated(RecoverPrefix, nextRequestID), 0, RestoreCheckpoint(recoveryCheckpoint));
      var response := SendOffer(restore, Restoring, entries, stale, a);
      if IsSuccessful(response) {
        Adopt(response.value, restore, Restoring, entries);
        return Recovered;
      }
      return if IsUncertain(response) then Uncertain else Refused;
    }

    /** The effects of re-inserted text belong to a fresh namespace. */
    method AdoptFallback(response: Response, action: Action, ghost entries: seq<JournalEntry>)
      requires Inv(entries, EffectsOf(Some(response))) && inFlight == [] && !context.secureInput
      requires IsSuccessful(Some(response)) && Answered([], Some(response))
      requires unsafe == NO_GUARDS && !Reinserts(Fallback, action)
      requires Tied(TakenBy(Held(), Fallback, action, Some(response))) && Home(log, epoch) == Some(id)
      modifies `numbering, `namespace, `confirmed, `inFlight, `replayedEffects, `revision, `unsafe,
        `recoveryCheckpoint, `fallbackComposition, journal`lastSnapshot
      ensures Inv(entries, []) && inFlight == [] && old(replayedEffects) <= replayedEffects
      ensures Follows(id) && namespace == old(namespace) + 1 && Tied(Held()) && Housed(id)
    {
      hide *;
      BeginFreshEffectNamespace(entries, EffectsOf(Some(response)), Some(response));
      unsafe := NO_GUARDS;
      Adopt(response, action, Fallback, entries);
    }

    /** Re-inserts the visible text into the replacement session. */
    method InsertFallbackInReplacement(ghost entries: seq<JournalEntry>, ghost stale: string, ghost a: Action)
      returns (outcome: Outcome)
      requires id != "" && Inv(entries, []) && inFlight == [] && !context.secureInput && CanUseStoredTextFallback()
      requires recoveryCheckpoint != "" ==> EndsInRejection(log, id)
      requires Follows(stale)
      requires Away(stale, a, entries) && Tied(Held()) && Housed(stale)
      modifies `log, `resolved, `nextRequestID, `numbering, `namespace, `confirmed, `inFlight,
        `replayedEffects, `revision, `unsafe, `recoveryCheckpoint, `fallbackComposition, journal`lastSnapshot
      ensures resolved == old(resolved) && |log| >= |old(log)|
      ensures Inv(entries, []) && inFlight == [] && Away(stale, a, entries)
      ensures Benign(callerReused, log) <==> old(Benign(callerReused, log))
      ensures outcome != Recovered ==> MaterialKept() && revision == old(revision) && Follows(stale) && Housed(stale)
      ensures outcome == Recovered ==>
        !Unknown(log) && Follows(id) && Housed(id) && BroughtOver(log, id, old(Held()))
      ensures Tied(Held())
      ensures outcome == Refused ==> Declined(log) && EndsInRefusedText(log, id)
      ensures outcome == Refused && recoveryCheckpoint != "" ==> EndsInRejection(log, id)
      ensures old(replayedEffects) <= replayedEffects && nextRequestID >= old(nextRequestID)
    {
      hide Inv, Tied, Housed, Follows, Answered, Trusted, Away, Benign, MaterialIn, Home, TakenBy,
        BroughtOver, Unknown, Declined, EndsInRejection, EndsInRefusedText, FreshNamespace;
      var fallback := Action(Generated(FallbackPrefix, nextRequestID), 0, InsertText(fallbackComposition));
      var response := SendOffer(fallback, Fallback, entries, stale, a);
      if IsSuccessful(response) {
        AdoptFallback(response.value, fallback, entries);
        return Recovered;
      }
      return if IsUncertain(response) then Uncertain else Refused;
    }

    /** Rebinds to the stale session, where the action may still be sent. */
    method ReturnTo(staleSessionID: string, staleRevision: uint64, ghost entries: seq<JournalEntry>, ghost a: Action)
      requires Inv(entries, []) && Away(staleSessionID, a, entries)
      modifies `id, `revision
      ensures id == staleSessionID && revision == staleRevision
      ensures Inv(entries, []) && Sendable(a, entries)
    {
      hide Tracked, WireAt, SequencedIn, EndsInRejection, EndsInRefusedText, Unknown, Declined, MaterialIn,
        Home, TakenBy, Promised, Issued, UpTo, AnsweredIn, EntriesBelow, Clean, Bound, Below, Unmentioned;
      id, revision := staleSessionID, staleRevision;
    }

    /** Steps off a lost session. */
    method LeaveStale(ghost entries: seq<JournalEntry>, ghost a: Action)
      requires Inv(entries, []) && Sendable(a, entries)
      modifies `id
      ensures id == "" && Inv(entries, []) && Away(old(id), a, entries)
    {
      hide Tracked, WireAt, SequencedIn, EndsInRejection, EndsInRefusedText, Unknown, Declined, MaterialIn,
        Home, TakenBy, Promised, Issued, UpTo, AnsweredIn, EntriesBelow, Clean, Bound, Below, Unmentioned;
      if Benign(callerReused, log) {
        NoSessionWire(log, nextRequestID, entries, id);
      }
      id := "";
    }

    /** The journal, the handed-over effects and the epoch of a call that abandoned nothing. */
    twostate predicate BoundaryFree()
      reads this, journal, ledger
    {
      && ledger.highestApplied == old(ledger.highestApplied)
      && journal.pending == old(journal.pending) && delivered == old(delivered) && ordered == old(ordered)
      && epoch == old(epoch) && abandonments == old(abandonments) && old(replayedEffects) <= replayedEffects
    }

    /** Everything was given up. `Valid` ties the count to the transcript, where every such event comes
        directly after the refusals that caused it. */
    twostate predicate Abandoned()
      reads this, journal, ledger
    {
      abandonments == old(abandonments) + 1 && dismissals == old(dismissals) && Valid() && Forgotten()
    }

    /** Everything was dismissed, as the caller asked. */
    twostate predicate Dismissed()
      reads this, journal, ledger
    {
      abandonments == old(abandonments) && dismissals == old(dismissals) + 1 && Valid() && Forgotten()
    }

    /** After SESSION_NOT_FOUND: opens a replacement session and brings the composition over, or
        gives up. Giving up either leaves the stale binding and all recovery material as they
        were, or - when the server definitely refused every recovery form - abandons the input. */
    method RecoverNamespace(tryConnect: bool, ghost entries: seq<JournalEntry>, ghost a: Action)
      returns (resumed: bool)
      requires id != "" && Inv(entries, []) && inFlight == [] && Sendable(a, entries) && Resting()
      modifies `log, `resolved, `nextRequestID, `id, `capabilities, `revision, `recoveryCheckpoint,
        `fallbackComposition, `unsafe, journal, ledger, `numbering, `replayedEffects, `epoch, `continuous,
        `namespace, `confirmed, `delivered, `inFlight, `ordered, `abandonments
      ensures resolved == old(resolved)
      ensures Onward()
      ensures abandonments != old(abandonments) ==> old(HasMaterial())
      ensures StaysContinuous()
      ensures resumed ==>
        && id != "" && Inv(entries, []) && inFlight == [] && Away(old(id), a, entries) && BoundaryFree() && Resting()
        && (Benign(callerReused, log) ==> id != old(id)) && (old(HasMaterial()) ==> BroughtOver(log, id, old(Held())))
      ensures !resumed && abandonments == old(abandonments) ==>
        && id == old(id) && revision == old(revision) && Inv(entries, []) && inFlight == []
        && Sendable(a, entries) && BoundaryFree() && MaterialKept() && Resting()
      ensures abandonments != old(abandonments) ==> !resumed && Abandoned()
    {
      hide Inv, Follows, Answered, Trusted, Away, Sendable, Unknown, Declined, Housed, Tied, Benign;
      var staleSessionID, staleRevision := id, revision;
      resumed := OpenReplacement(tryConnect, entries, a);
      if resumed {
        resumed := RecoverComposition(staleSessionID, staleRevision, entries, a);
      }
    }

    /** A session that can take the composition over, or the stale binding again. */
    method OpenReplacement(tryConnect: bool, ghost entries: seq<JournalEntry>, ghost a: Action) returns (ok: bool)
      requires id != "" && Inv(entries, []) && inFlight == [] && Sendable(a, entries) && Follows(id) && !Unknown(log)
      requires Tied(Held()) && Housed(id)
      modifies `log, `nextRequestID, `id, `capabilities, `revision
      ensures nextRequestID >= old(nextRequestID) && |log| >= |old(log)|
      ensures Benign(callerReused, log) ==> old(Benign(callerReused, log))
      ensures Inv(entries, []) && Follows(old(id)) && Tied(Held()) && Housed(old(id))
      ensures ok ==>
        id != "" && Away(old(id), a, entries) && (Benign(callerReused, log) ==> id != old(id)) && Declined(log)
      ensures !ok ==> id == old(id) && revision == old(revision) && Sendable(a, entries) && !Unknown(log)
    {
      hide *;
      var staleSessionID, staleRevision := id, revision;
      LeaveStale(entries, a);
      ok := OpenFresh(tryConnect, entries, staleSessionID, a);
      if !ok {
        ReturnTo(staleSessionID, staleRevision, entries, a);
      } else if !capabilities.SupportsV2() {
        DiscardServerNamespacePreservingRecovery(entries, staleSessionID, a);
        ReturnTo(staleSessionID, staleRevision, entries, a);
        ok := false;
      }
    }

    /** Restore, then plain text, in the replacement session. `refused` says that some recovery
        form exists and none of them can be used. */
    method BringOver(ghost entries: seq<JournalEntry>, ghost stale: string, ghost a: Action)
      returns (outcome: Outcome, refused: bool)
      requires id != "" && Inv(entries, []) && inFlight == [] && Away(stale, a, entries)
      requires Follows(stale) && Declined(log) && Tied(Held()) && Housed(stale)
      modifies `log, `resolved, `nextRequestID, `numbering, `namespace, `confirmed, `inFlight,
        `replayedEffects, `revision, `unsafe, `recoveryCheckpoint, `fallbackComposition, journal`lastSnapshot
      ensures resolved == old(resolved) && |log| >= |old(log)|
      ensures Inv(entries, []) && inFlight == [] && Away(stale, a, entries)
      ensures Benign(callerReused, log) <==> old(Benign(callerReused, log))
      ensures outcome != Recovered ==> MaterialKept() && Follows(stale) && Housed(stale)
      ensures outcome == Recovered ==> Resting() && BroughtOver(log, id, old(Held()))
      ensures Tied(Held())
      ensures outcome == Refused ==>
        && (refused <==> recoveryCheckpoint != "" || (fallbackComposition != ""
                         && !(CanUseStoredTextFallback() && context.secureInput)))
        && Declined(log) && (recoveryCheckpoint != "" ==> EndsInRejection(log, id))
        && (CanUseStoredTextFallback() && !context.secureInput ==> EndsInRefusedText(log, id))
      ensures old(replayedEffects) <= replayedEffects && nextRequestID >= old(nextRequestID)
    {
      hide Inv, Follows, Answered, Trusted, Away, Sendable, Unknown, Declined, Housed, Tied, Benign;
      refused := fallbackComposition != "" && !CanUseStoredTextFallback();
      outcome := Refused;
      if recoveryCheckpoint != "" {
        outcome := RestoreInReplacement(entries, stale, a);
        refused := true;
      }
      if outcome == Refused {
        revision := 0;
        if CanUseStoredTextFallback() && !context.secureInput {
          outcome := InsertFallbackInReplacement(entries, stale, a);
          refused := true;
        }
      }
    }

    method RecoverComposition(staleSessionID: string, staleRevision: uint64,
                              ghost entries: seq<JournalEntry>, ghost a: Action)
      returns (resumed: bool)
      requires id != "" && Inv(entries, []) && inFlight == [] && Away(staleSessionID, a, entries)
      requires Follows(staleSessionID) && Declined(log) && staleSessionID != ""
      requires Tied(Held()) && Housed(staleSessionID)
      modifies `log, `resolved, `nextRequestID, `id, `revision, `recoveryCheckpoint, `fallbackComposition,
        `unsafe, journal, ledger, `numbering, `replayedEffects, `epoch, `continuous, `namespace, `confirmed,
        `delivered, `inFlight, `ordered, `abandonments
      ensures resolved == old(resolved) && |log| >= |old(log)|
      ensures nextRequestID >= old(nextRequestID)
      ensures Benign(callerReused, log) <==> old(Benign(callerReused, log))
      ensures abandonments != old(abandonments) ==> old(HasMaterial())
      ensures StaysContinuous()
      ensures resumed ==>
        && id == old(id) && Inv(entries, []) && inFlight == [] && Away(staleSessionID, a, entries) && BoundaryFree()
        && Resting() && (old(HasMaterial()) ==> BroughtOver(log, id, old(Held())))
      ensures !resumed && abandonments == old(abandonments) ==>
        && id == staleSessionID && revision == staleRevision && Inv(entries, []) && inFlight == []
        && Sendable(a, entries) && BoundaryFree() && MaterialKept() && Resting()
      ensures abandonments != old(abandonments) ==> !resumed && Abandoned()
    {
      hide Resting, Tied, Housed, BroughtOver, MaterialIn, Home, Inv, Core, SequencedAt, Answered, Trusted,
        Follows, Away, Sendable, Steady, Valid, Forgotten, Disposed, Benign, ResolvedOf, IsSuccessful,
        IsUncertain, IsRejected, IsStale, EffectsOf, OwedBy, Commands, DecisionsOf, DecisionIn,
        EndsInRejection, EndsInRefusedText, Declined, Unknown, Below, Unmentioned, AtHead, SentHead;
      var hadRecoveryMaterial := recoveryCheckpoint != "" || fallbackComposition != "";
      SecureHoldsNothing(entries);
      var outcome, refused := BringOver(entries, staleSessionID, a);
      assert BoundaryFree();
      resumed := FinishRecovery(outcome, hadRecoveryMaterial, refused, staleSessionID, staleRevision, entries, a);
      assert !resumed && abandonments == old(abandonments) ==> MaterialKept();
    }

    /** Acts on the outcome: an unknown one keeps everything and returns to the stale binding, a definite
        refusal of all there was gives up, anything else goes on in the replacement. */
    method FinishRecovery(outcome: Outcome, hadRecoveryMaterial: bool, refused: bool,
                          staleSessionID: string, staleRevision: uint64,
                          ghost entries: seq<JournalEntry>, ghost a: Action)
      returns (resumed: bool)
      requires id != "" && Inv(entries, []) && inFlight == [] && Away(staleSessionID, a, entries)
      requires staleSessionID != ""
      requires if outcome == Recovered then Resting()
        else Follows(staleSessionID) && Tied(Held()) && Housed(staleSessionID)
      requires outcome == Refused ==>
        && (hadRecoveryMaterial <==> HasMaterial()) && (hadRecoveryMaterial ==> refused)
        && Declined(log) && (recoveryCheckpoint != "" ==> EndsInRejection(log, id))
        && (CanUseStoredTextFallback() && !context.secureInput ==> EndsInRefusedText(log, id))
      modifies `log, `nextRequestID, `id, `revision, `recoveryCheckpoint, `fallbackComposition, `unsafe,
        journal, ledger, `numbering, `replayedEffects, `epoch, `continuous, `namespace, `confirmed,
        `delivered, `inFlight, `ordered, `abandonments
      ensures |log| >= |old(log)| && nextRequestID >= old(nextRequestID) && StaysContinuous()
      ensures Benign(callerReused, log) <==> old(Benign(callerReused, log))
      ensures resumed <==> outcome == Recovered || (outcome == Refused && !hadRecoveryMaterial)
      ensures resumed ==>
        && id == old(id) && Inv(entries, []) && inFlight == [] && Away(staleSessionID, a, entries) && BoundaryFree()
        && Resting() && log == old(log) && replayedEffects == old(replayedEffects)
      ensures outcome == Uncertain ==>
        && id == staleSessionID && revision == staleRevision && Inv(entries, []) && inFlight == []
        && Sendable(a, entries) && BoundaryFree() && MaterialKept() && Resting()
      ensures outcome == Refused && hadRecoveryMaterial ==> Abandoned()
    {
      hide Inv, Core, SequencedAt, Answered, Trusted, Follows, Away, Sendable, Steady, Valid, Forgotten,
        Disposed, Benign, ResolvedOf, IsSuccessful, IsUncertain, IsRejected, IsStale, EffectsOf, OwedBy,
        Commands, DecisionsOf, DecisionIn, EndsInRejection, EndsInRefusedText, Declined, Unknown, Below,
        Unmentioned, AtHead, SentHead;
      if outcome == Uncertain {
        DiscardServerNamespacePreservingRecovery(entries, staleSessionID, a);
        ReturnTo(staleSessionID, staleRevision, entries, a);
        return false;
      }
      if outcome == Refused && hadRecoveryMaterial && refused {
        DropEntries(entries);
        GiveUp();
        return false;
      }
      if outcome == Refused && !hadRecoveryMaterial {
        BeginFreshEffectNamespace(entries, [], None);
        DeclinedIsKnown(log);
      }
      return true;
    }

    lemma {:induction false} DropEntries(entries: seq<JournalEntry>)
      requires Inv(entries, [])
      ensures Inv([], []) && journal.Valid()
    {
      hide Accounts, Recalled, RecoverySafe, Traced, SecureOk, PendingOk, SequencedAt, WireAt, Benign;
      if Benign(callerReused, log) {
        WithoutEntries(log, nextRequestID, entries, id);
      }
      NothingPending(nextRequestID);
    }

    // --------------------------------------------------------------- one action

    /** Executing one action abandoned nothing. `a0` is the envelope asked for, `a` the one
        last sent, which differs only when a replacement session was entered. */
    twostate predicate Executed(a0: Action, new a: Action, new response: Option<Response>, entries: seq<JournalEntry>)
      reads this, journal, ledger
    {
      && Inv(entries, []) && inFlight == EffectsOf(response) && BoundaryFree() && Sendable(a, entries)
      && (id == old(id) && Benign(callerReused, log) ==> a == a0)
      && (id == "" ==> old(id) == "" && response.None?)
      && (!IsSuccessful(response) ==> EffectsOf(response) == [])
    }

    /** An action of this purpose may be sent now. */
    ghost predicate Sendworthy(purpose: Purpose, action: Action)
      reads `log, `callerReused, `continuous, `confirmed, `namespace, `id, `epoch, `context, `lapses,
        `recoveryCheckpoint, `fallbackComposition, `unsafe
    {
      && Tied(Held())
      && (purpose == Semantic ==> !Unknown(log) && (id != "" ==> Housed(id)))
      && (purpose != Semantic ==> id != "")
      && (purpose != Restoring && id != "" ==> Follows(id))
      && Offered(purpose, action)
    }

    /** What the transcript says of an action's answer. */
    ghost predicate Recorded(purpose: Purpose, response: Option<Response>)
      reads `log, `id
    {
      && (purpose == Semantic || !IsUncertain(response) ==> !Unknown(log))
      && (IsRejected(response) ==> Declined(log))
      && (purpose == Restoring && IsRejected(response) ==> EndsInRejection(log, id))
      && (purpose == Fallback && IsRejected(response) ==> EndsInRefusedText(log, id))
    }

    /** Between calls a key may be sent. */
    lemma {:induction false} RestingSends(action: Action)
      requires Resting()
      ensures Sendworthy(Semantic, action)
    {
      hide Unknown, Tied, Housed, Follows;
    }

    /** What no call takes back: transcript and request numbers only grow, and a promise of the environment
        once broken stays broken. */
    twostate predicate Onward()
      reads `log, `nextRequestID, `callerReused
    {
      && |log| >= |old(log)| && nextRequestID >= old(nextRequestID)
      && (Benign(callerReused, log) ==> old(Benign(callerReused, log)))
    }

    /** A client that entered its session continuously still has, and one in a session, or without input to
        bring over, enters none without it. */
    twostate predicate StaysContinuous()
      reads `id, `numbering, `continuous, `lapses, `recoveryCheckpoint, `fallbackComposition
    {
      && (old(Attached() && continuous) ==> Attached() && continuous)
      && (old(Moored()) ==> Moored() && lapses == old(lapses))
    }

    /** What an answer that was taken over leaves of the input, in the session that gave it. */
    ghost predicate Landed(purpose: Purpose, action: Action, response: Option<Response>)
      reads `log, `id, `epoch, `context, `lapses, `recoveryCheckpoint, `fallbackComposition, `unsafe
    {
      && Tied(if IsSuccessful(response) && Reinserts(purpose, action) then Held().(guards := NO_GUARDS) else Held())
      && (id != "" && (purpose == Semantic || IsSuccessful(response)) ==> Housed(id))
    }

    /** As `Landed`, before the answer is taken over. */
    ghost predicate Arrived(purpose: Purpose, action: Action, response: Option<Response>)
      reads `log, `id, `epoch, `context, `lapses, `recoveryCheckpoint, `fallbackComposition, `unsafe
    {
      && Tied(TakenBy(Held(), purpose, action, response))
      && (if IsSuccessful(response) then Home(log, epoch) == Some(id)
          else purpose == Semantic && id != "" ==> Housed(id))
    }

    /** What one action leaves behind: the record of its answer, the input where the answer came from, and
        a session that continues the namespace. */
    ghost predicate Concluded(purpose: Purpose, action: Action, response: Option<Response>)
      reads `log, `callerReused, `continuous, `confirmed, `namespace, `id, `epoch, `context, `lapses,
        `recoveryCheckpoint, `fallbackComposition, `unsafe, `revision, journal`lastSnapshot
    {
      && Recorded(purpose, response) && Landed(purpose, action, response)
      && ((purpose != Restoring || IsSuccessful(response)) && id != "" ==> Follows(id))
      && (IsSuccessful(response) ==> TookOver(response.value))
    }

    /** An answer that is no success leaves everything as it is. */
    lemma {:induction false} NothingTakenOver(purpose: Purpose, action: Action, response: Option<Response>)
      requires Answering(purpose, action, response) && !IsSuccessful(response)
      ensures Concluded(purpose, action, response)
    {
      hide Unknown, MaterialIn, Home, TakenBy, BroughtOver, Follows, TookOver, IsRejected, IsUncertain,
        IsSuccessful, Housed, Recorded;
      NotTaken(Held(), purpose, action, response);
    }

    /** After a key nothing is left undecided. */
    lemma {:induction false} KeyRests(action: Action, response: Option<Response>)
      requires Concluded(Semantic, action, response)
      ensures Resting()
    {
      hide Unknown, Tied, Housed, Follows, TookOver, IsRejected, IsUncertain;
    }

    /** One action in the session the client is in, or opens: the same envelope, retried only over the
        normal transport, and no recovery. */
    method ExecuteInPlace(action: Action, tryConnect: bool, bestEffort: bool, lifecycle: bool,
                          ghost purpose: Purpose, ghost entries: seq<JournalEntry>)
      returns (response: Option<Response>)
      requires Inv(entries, []) && inFlight == [] && Sendable(action, entries)
      requires purpose != Disposition && Sendworthy(purpose, action)
      modifies `id, `capabilities, `revision, `log, `resolved, `continuous, `lapses, `numbering, `confirmed,
        `inFlight, `unsafe, `recoveryCheckpoint, `fallbackComposition, journal`lastSnapshot
      ensures Executed(action, action, response, entries) && Concluded(purpose, action, response)
      ensures resolved == old(resolved) + ResolvedOf(purpose, action.command, response)
      ensures (id == "" || |log| > |old(log)|) && (old(id) != "" ==> id == old(id))
      ensures Onward() && StaysContinuous() && (Trusted() ==> old(Trusted()))
      ensures purpose == Fallback && old(EndsInRejection(log, id)) ==> EndsInRejection(log, id)
      ensures !IsSuccessful(response) ==> MaterialKept()
      ensures purpose != Semantic && IsSuccessful(response) ==> BroughtOver(log, id, old(Held()))
    {
      hide Answering, Sendworthy, HasMaterial, Attached, Moored, Inv, Core, Valid, SequencedAt, Answered,
        Trusted, Follows, Sendable, Benign, ResolvedOf, IsSuccessful, IsUncertain, IsRejected, EffectsOf,
        OwedBy, EndsInRejection, EndsInRefusedText, Declined, Unknown, SameVerdict, Recorded, Landed, Arrived,
        TakenBy, Home, MaterialIn, Tied, Housed, TookOver, BroughtOver, Forgotten, Concluded, Held;
      NoAnswer();
      response := Attempt(action, tryConnect, bestEffort, lifecycle, purpose, entries);
      if response.Some? {
        response := Conclude(response.value, action, purpose, entries);
      } else {
        NothingTakenOver(purpose, action, response);
      }
    }

    /** One semantic action: opens if necessary, sends, retries, and on a lost session recovers
        and sends again in the replacement. */
    method ExecuteV2(action0: Action, tryConnect: bool, ghost entries: seq<JournalEntry>)
      returns (response: Option<Response>, action: Action)
      requires Inv(entries, []) && inFlight == [] && Sendable(action0, entries)
      requires Sendworthy(Semantic, action0)
      modifies `log, `resolved, `nextRequestID, `id, `capabilities, `revision, `recoveryCheckpoint,
        `fallbackComposition, `unsafe, journal, ledger, `numbering, `replayedEffects, `epoch, `continuous,
        `namespace, `confirmed, `delivered, `inFlight, `ordered, `abandonments, `lapses
      ensures resolved == old(resolved) + ResolvedOf(Semantic, action0.command, response)
      ensures (id == "" || |log| > |old(log)|) && Onward() && StaysContinuous()
      ensures action.requestID == action0.requestID && action.command == action0.command
      ensures abandonments == old(abandonments) ==>
        Executed(action0, action, response, entries) && Concluded(Semantic, action, response)
      ensures abandonments != old(abandonments) ==> Abandoned() && response.None? && old(HasMaterial())
    {
      hide Answering, Sendworthy, HasMaterial, Attached, Moored, Inv, Core, Valid, SequencedAt, Answered,
        Trusted, Follows, Sendable, Benign, ResolvedOf, IsSuccessful, IsUncertain, IsRejected, EffectsOf,
        OwedBy, EndsInRejection, EndsInRefusedText, Declined, Unknown, SameVerdict, Recorded, Landed, Arrived,
        TakenBy, Home, MaterialIn, Tied, Housed, TookOver, BroughtOver, Forgotten, Concluded;
      NoAnswer();
      response, action := Deliver(action0, tryConnect, entries);
      if response.Some? {
        response := Conclude(response.value, action, Semantic, entries);
      } else if abandonments == old(abandonments) {
        NothingTakenOver(Semantic, action, response);
      }
    }

    /** The transmissions of one action: in the current session and, when that is lost, in a
        replacement. The answer is not yet post-processed. */
    method Deliver(action0: Action, tryConnect: bool, ghost entries: seq<JournalEntry>)
      returns (response: Option<Response>, action: Action)
      requires Inv(entries, []) && inFlight == [] && Sendable(action0, entries)
      requires Sendworthy(Semantic, action0)
      modifies `log, `resolved, `nextRequestID, `id, `capabilities, `revision, `recoveryCheckpoint,
        `fallbackComposition, `unsafe, journal, ledger, `numbering, `replayedEffects, `epoch, `continuous,
        `namespace, `confirmed, `delivered, `inFlight, `ordered, `abandonments, `lapses
      ensures resolved == old(resolved) + ResolvedOf(Semantic, action0.command, response)
      ensures (id == "" || |log| > |old(log)|) && Onward() && StaysContinuous()
      ensures action.requestID == action0.requestID && action.command == action0.command
      ensures abandonments == old(abandonments) ==>
        Delivered(action0, action, response, entries) && Answering(Semantic, action, response)
      ensures abandonments != old(abandonments) ==> Abandoned() && response.None? && old(HasMaterial())
    {
      hide Inv, Follows, Answered, Trusted, Away, Sendable, Unknown, Declined, Housed, Tied, Benign;
      NoAnswer();
      action := action0;
      response := Attempt(action, tryConnect, false, false, Semantic, entries);
      if response.Some? && response.value.status == SessionNotFound {
        NothingTakenOver(Semantic, action, response);
        KeyRests(action, response);
        response, action := RecoverAndResend(action, tryConnect, entries);
      }
    }

    /** As `Executed`, before post-processing. */
    twostate predicate Delivered(a0: Action, new a: Action, new response: Option<Response>,
        entries: seq<JournalEntry>)
      reads this, journal, ledger
    {
      && Inv(entries, OwedBy(response)) && inFlight == [] && BoundaryFree() && Sendable(a, entries)
      && (id == old(id) && Benign(callerReused, log) ==> a == a0)
      && (id == "" ==> old(id) == "" && response.None?)
    }

    /** As `Concluded`, before post-processing. */
    ghost predicate Answering(purpose: Purpose, action: Action, response: Option<Response>)
      reads `log, `callerReused, `continuous, `confirmed, `namespace, `id, `epoch, `context, `lapses,
        `recoveryCheckpoint, `fallbackComposition, `unsafe
    {
      && Recorded(purpose, response) && Arrived(purpose, action, response) && Answered(confirmed, response)
      && (purpose != Restoring && !IsSuccessful(response) && id != "" ==> Follows(id))
    }

    /** Opens if necessary and sends; without a session there is no answer. */
    method Attempt(action: Action, tryConnect: bool, bestEffort: bool, lifecycle: bool,
                   ghost purpose: Purpose, ghost entries: seq<JournalEntry>)
      returns (response: Option<Response>)
      requires Inv(entries, []) && inFlight == [] && Sendable(action, entries) && purpose != Disposition
      requires Sendworthy(purpose, action)
      modifies `id, `capabilities, `revision, `log, `resolved, `continuous, `lapses
      ensures Delivered(action, action, response, entries) && Answering(purpose, action, response)
      ensures resolved == old(resolved) + ResolvedOf(purpose, action.command, response)
      ensures (id == "" || |log| > |old(log)|) && (old(id) != "" ==> id == old(id))
      ensures Onward() && StaysContinuous() && (Trusted() ==> old(Trusted()))
      ensures purpose == Fallback && old(EndsInRejection(log, id)) ==> EndsInRejection(log, id)
      ensures purpose != Semantic && IsSuccessful(response) ==> BroughtOver(log, id, old(Held()))
    {
      hide Inv, Tied, Housed, Answering, Follows, Trusted, Sendable, Unknown, EndsInRejection, BroughtOver,
        Benign, IsSuccessful, ResolvedOf, OwedBy, HasMaterial, Attached;
      NoAnswer();
      response := None;
      var ok := EnsureOpen(action, tryConnect, entries);
      if ok {
        response := SendHere(action, bestEffort || lifecycle, purpose, entries);
      } else {
        NobodyAnswers(action);
      }
    }

    lemma {:induction false} NobodyAnswers(action: Action)
      requires id == "" && !Unknown(log) && Tied(Held())
      ensures Answering(Semantic, action, None)
    {
      hide Tied, Unknown, Declined, EndsInRejection, EndsInRefusedText, TakenBy;
      NoAnswer();
      NothingAnswered();
      NotTaken(Held(), Semantic, action, None);
    }

    /** Sends in the current session; only over the normal transport is an unanswered envelope repeated. */
    method SendHere(action: Action, bounded: bool, ghost purpose: Purpose, ghost entries: seq<JournalEntry>)
      returns (response: Option<Response>)
      requires id != "" && Inv(entries, []) && Sendable(action, entries) && purpose != Disposition
      requires Sendworthy(purpose, action)
      modifies `log, `resolved
      ensures Inv(entries, OwedBy(response)) && Sendable(action, entries) && Answering(purpose, action, response)
      ensures resolved == old(resolved) + ResolvedOf(purpose, action.command, response) && |log| > |old(log)|
      ensures (Benign(callerReused, log) <==> old(Benign(callerReused, log))) && (Trusted() ==> old(Trusted()))
      ensures purpose == Fallback && old(EndsInRejection(log, id)) ==> EndsInRejection(log, id)
      ensures purpose != Semantic && IsSuccessful(response) ==> BroughtOver(log, id, Held())
    {
      hide Inv, Tied, Follows, Trusted, Answered, Sendable, Away, Offered, Unknown, Declined, EndsInRejection,
        EndsInRefusedText, BroughtOver, Benign, IsSuccessful, IsRejected, IsUncertain, ResolvedOf, OwedBy,
        Sent, TakenBy, MaterialIn, Home;
      var retry := !bounded && capabilities.idempotentRequestSupport;
      response := SendWithRetry(action, retry, purpose, entries, id, action);
    }

    /** A session lost for good is no answer; anything else is post-processed. */
    method Conclude(response: Response, action: Action, ghost purpose: Purpose, ghost entries: seq<JournalEntry>)
      returns (r: Option<Response>)
      requires Inv(entries, OwedBy(Some(response))) && inFlight == [] && purpose != Disposition && id != ""
      requires Answering(purpose, action, Some(response))
      modifies `numbering, `confirmed, `inFlight, `revision, `unsafe, `recoveryCheckpoint,
        `fallbackComposition, journal`lastSnapshot
      ensures Inv(entries, []) && inFlight == EffectsOf(r) && Attached() && Moored()
      ensures Concluded(purpose, action, r)
      ensures ResolvedOf(purpose, action.command, r) == ResolvedOf(purpose, action.command, Some(response))
      ensures if response.status == SessionNotFound then r == None else r.Some? && SameVerdict(r.value, response)
      ensures !IsSuccessful(r) ==> EffectsOf(r) == [] && MaterialKept()
      ensures IsSuccessful(r) <==> IsSuccessful(Some(response))
    {
      hide MaterialIn, Home, EntriesBelow, Clean, EndsInRejection, EndsInRefusedText, Declined, Unknown,
        Below, Unmentioned, Inv, Resting, Core, SequencedAt, Answered, Trusted, Follows;
      NoAnswer();
      if response.status == SessionNotFound {
        return None;
      }
      var finished := Finish(response, action.command, entries);
      SameVerdictResolves(finished, response, action.command);
      r := Some(finished);
    }

    method EnsureOpen(a: Action, tryConnect: bool, ghost entries: seq<JournalEntry>) returns (ok: bool)
      requires Inv(entries, []) && inFlight == [] && Sendable(a, entries)
      requires (id == "" ==> !Unknown(log)) && Tied(Held())
      modifies `id, `capabilities, `revision, `log, `continuous, `lapses
      ensures Inv(entries, []) && Sendable(a, entries) && Tied(Held())
      ensures ok <==> id != ""
      ensures old(id) == "" ==> Resting()
      ensures old(id) != "" ==> continuous == old(continuous)
      ensures lapses == old(lapses) + if ok && old(id) == "" && HasMaterial() then {id} else {}
      ensures StaysContinuous() && (Trusted() ==> old(Trusted()))
      ensures |log| >= |old(log)|
      ensures old(id) != "" ==>
        id == old(id) && log == old(log) && revision == old(revision) && capabilities == old(capabilities)
      ensures Benign(callerReused, log) ==> old(Benign(callerReused, log))
    {
      hide Tracked, WireAt, SequencedIn, EndsInRejection, EndsInRefusedText, Unknown, Declined, MaterialIn,
        Home, TakenBy, Promised, Issued, UpTo, AnsweredIn, EntriesBelow, Clean, Bound, Below, Unmentioned;
      ok := true;
      if id == "" {
        SendableIsAway(a, entries);
        ok := OpenFresh(tryConnect, entries, "", a);
        if ok {
          AwayIsSendable(a, entries);
          AttachNamespace(entries);
        }
      }
    }

    /** A session entered outside recovery: its numbers continue the current namespace only if nothing
        is mapped there yet, and it has the input only if there is none. */
    ghost method AttachNamespace(entries: seq<JournalEntry>)
      requires Inv(entries, [])
      modifies `continuous, `lapses
      ensures Inv(entries, []) && Follows(id) && Housed(id)
      ensures continuous == (old(continuous) && !numbering.anchored)
      ensures lapses == old(lapses) + if HasMaterial() then {id} else {}
    {
      hide Tracked, Wire, Housed, EntriesBelow, Benign, Promised, NumberingOk, Issued;
      NoteLapse(entries);
      HasNumbering(entries);
      continuous := continuous && !numbering.anchored;
      if Trusted() {
        UnanchoredIsEmpty(numbering, namespace, confirmed);
      }
    }

    ghost method NoteLapse(entries: seq<JournalEntry>)
      requires Inv(entries, [])
      modifies `lapses
      ensures Inv(entries, []) && Housed(id) && lapses == old(lapses) + if HasMaterial() then {id} else {}
    {
      hide MaterialIn, Home, InputKept, Remembered, Accounts, Traced, Wire, RecoverySafe, SequencedAt,
        PendingOk, EntriesBelow;
      if HasMaterial() {
        WiderLapses(log, epoch, lapses, lapses + {id});
        lapses := lapses + {id};
      }
    }

    lemma {:induction false} SendableIsAway(a: Action, entries: seq<JournalEntry>)
      requires id == "" && Sendable(a, entries)
      ensures Away("", a, entries)
    {
      hide Tracked, WireAt, SequencedIn, EndsInRejection, EndsInRefusedText, Unknown, Declined, MaterialIn,
        Home, TakenBy, Promised, Issued, UpTo, AnsweredIn, EntriesBelow, Clean, Bound, Below, Unmentioned;
      if Benign(callerReused, log) {
        NoSessionWire(log, nextRequestID, entries, id);
      }
    }

    lemma {:induction false} AwayIsSendable(a: Action, entries: seq<JournalEntry>)
      requires Inv(entries, []) && Away("", a, entries)
      ensures Sendable(a, entries)
    {
    }

    /** The resend in a replacement session, under the revision the recovery reached. */
    method RecoverAndResend(action0: Action, tryConnect: bool, ghost entries: seq<JournalEntry>)
      returns (response: Option<Response>, action: Action)
      requires id != "" && Inv(entries, []) && inFlight == [] && Sendable(action0, entries) && Resting()
      modifies `log, `resolved, `nextRequestID, `id, `capabilities, `revision, `recoveryCheckpoint,
        `fallbackComposition, `unsafe, journal, ledger, `numbering, `replayedEffects, `epoch, `continuous,
        `namespace, `confirmed, `delivered, `inFlight, `ordered, `abandonments
      ensures resolved == old(resolved) + ResolvedOf(Semantic, action0.command, response)
      ensures action.requestID == action0.requestID && action.command == action0.command
      ensures Onward() && StaysContinuous()
      ensures abandonments == old(abandonments) ==>
        && id != "" && Inv(entries, OwedBy(response)) && inFlight == [] && BoundaryFree() && Sendable(action, entries)
        && Answering(Semantic, action, response)
        && (id != old(id) ==> action == action0.(expectedRevision := revision))
        && (id == old(id) && Benign(callerReused, log) ==> action == action0)
      ensures abandonments != old(abandonments) ==> Abandoned() && response.None? && old(HasMaterial())
    {
      hide Inv, SequencedAt, Trusted, Follows, Tied, Benign, Sendable, Away, BroughtOver, Sent, Unknown,
        Declined, EndsInRejection, EndsInRefusedText, TakenBy, MaterialIn, Home, IsRejected, IsUncertain;
      NoAnswer();
      NothingAnswered();
      response, action := None, action0;
      NotTaken(Held(), Semantic, action, response);
      var resumed := RecoverNamespace(tryConnect, entries, action);
      if resumed {
        action := action.(expectedRevision := revision);
        ResendIsPinned(old(id), action0, action, entries);
        response := SendWithRetry(action, capabilities.idempotentRequestSupport, Semantic, entries, id, action);
      }
    }

    lemma {:induction false} ResendIsPinned(stale: string, a: Action, a': Action, entries: seq<JournalEntry>)
      requires Inv(entries, []) && Away(stale, a, entries)
      requires a'.requestID == a.requestID
      ensures Sendable(a', entries)
    {
    }

    // ------------------------------------------------------ the journal's head

    /** The journal's head is this action, bound to the current session. */
    ghost predicate AtHead(a: Action)
      reads journal, `id
    {
      && journal.pending != [] && journal.pending[0].action == a
      && journal.pending[0].requestID == a.requestID && journal.pending[0].sessionID == id
    }

    /** Everything between calls, with a response's effects possibly still in flight. */
    ghost predicate Steady(response: Option<Response>)
      reads `log, `resolved, `callerReused, `nextRequestID, `id, `epoch, `continuous, `namespace, `numbering,
        `confirmed, `ordered, `abandonments, `delivered, `replayedEffects, `inFlight, `context, `lapses,
        `recoveryCheckpoint, `fallbackComposition, `unsafe, journal
    {
      Inv(journal.pending, []) && inFlight == EffectsOf(response) && Resting()
    }

    /** The journal kept its tail, and its head kept its meaning. */
    twostate predicate HeadKept()
      reads journal
    {
      && old(journal.pending) != [] && |journal.pending| == |old(journal.pending)|
      && journal.pending[1..] == old(journal.pending)[1..]
      && journal.pending[0].action.command == old(journal.pending)[0].action.command
    }

    /** No abandonment, nothing handed over, nothing buffered lost. */
    twostate predicate SameEpoch()
      reads this, ledger
    {
      && ledger.highestApplied == old(ledger.highestApplied)
      && delivered == old(delivered) && ordered == old(ordered) && epoch == old(epoch)
      && abandonments == old(abandonments) && old(replayedEffects) <= replayedEffects
    }

    /** The head travelled: it is marked sent under the current session, and - on a benign run -
        is exactly the envelope that travelled. */
    ghost predicate SentHead(a: Action)
      reads `log, `callerReused, `id, journal
    {
      && journal.pending != [] && journal.pending[0].sent && journal.pending[0].sessionID == id
      && journal.pending[0].requestID == a.requestID && journal.pending[0].action.command == a.command
      && (Benign(callerReused, log) ==> journal.pending[0].action == a)
    }

    /** Marks the head as sent, executes it, and records under which binding it travelled. */
    method SendHead(action0: Action, tryConnect: bool, lifecycle: bool)
      returns (response: Option<Response>, action: Action)
      requires Steady(None) && AtHead(action0)
      modifies `log, `resolved, `nextRequestID, `id, `capabilities, `revision, `recoveryCheckpoint,
        `fallbackComposition, `unsafe, journal, ledger, `numbering, `replayedEffects, `epoch, `continuous,
        `namespace, `confirmed, `delivered, `inFlight, `ordered, `abandonments, `lapses
      ensures resolved == old(resolved) + ResolvedOf(Semantic, action0.command, response)
      ensures response.Some? ==> |log| > |old(log)|
      ensures id == "" || |log| > |old(log)|
      ensures Onward()
      ensures action.command == action0.command && action.requestID == action0.requestID
      ensures lifecycle ==> replayedEffects == old(replayedEffects) && abandonments == old(abandonments)
      ensures StaysContinuous()
      ensures abandonments == old(abandonments) ==>
        && Steady(response) && SameEpoch() && HeadKept() && SentHead(action)
        && (!IsSuccessful(response) ==> EffectsOf(response) == [])
      ensures abandonments != old(abandonments) ==> Abandoned() && response.None?
    {
      hide MaterialIn, Home, TakenBy, BroughtOver, EntriesBelow, Clean, EndsInRejection, EndsInRefusedText,
        Declined, Unknown, Below, Unmentioned, Inv, Attached, Resting, Concluded, Tied, Housed, Core,
        SequencedAt, Answered, Trusted, Follows, Disposed, Sendable, Benign, EffectsOf, IsSuccessful;
      NoAnswer();
      MarkHeadSent(action0);
      ghost var head, rest := journal.pending[0], journal.pending[1..];
      var boundSessionID := id;
      RestingSends(action0);
      if lifecycle {
        action := action0;
        response := ExecuteInPlace(action, tryConnect, false, true, Semantic, rest);
      } else {
        response, action := ExecuteV2(action0, tryConnect, rest);
      }
      if abandonments == old(abandonments) {
        KeyRests(action, response);
      }
      if id != "" && id != boundSessionID {
        Rebind(action0.requestID, action, rest);
      } else if id != "" || journal.pending != [] {
        HeadStays(action0, action, rest);
      }
    }

    method MarkHeadSent(action: Action)
      requires Steady(None) && AtHead(action)
      modifies journal`pending
      ensures HeadKept() && AtHead(action) && journal.pending[0].sent
      ensures Inv(journal.pending[1..], []) && inFlight == [] && Sendable(action, journal.pending[1..]) && Resting()
    {
      hide NumberingOk, EffectsIn, ResolvedIn, RecoverySafe, EndsInRejection, Refusals, Promised, Issued,
        SequencedIn, UpTo, Conserved, Clean, Accounts, Unknown;
      ghost var before := journal.pending;
      var ok := journal.MarkSent(action.requestID);
      assert Index(before, action.requestID) == 0;
      TailWire(log, nextRequestID, before, id, callerReused);
      MarkedHead(before, nextRequestID);
    }

    method Rebind(requestID: RequestID, action: Action, ghost rest: seq<JournalEntry>)
      requires Inv(rest, []) && Sendable(action, rest) && id != "" && action.requestID == requestID
      requires journal.pending != [] && journal.pending[1..] == rest && journal.pending[0].sent
      requires journal.pending[0].requestID == requestID
      requires journal.pending[0].action.command == action.command
      modifies journal`pending
      ensures HeadKept() && Inv(journal.pending, []) && SentHead(action)
    {
      var ok := journal.RebindSent(requestID, action, action.expectedRevision, id);
    }

    lemma {:induction false} HeadStays(a0: Action, a: Action, rest: seq<JournalEntry>)
      requires Inv(rest, []) && Sendable(a, rest)
      requires journal.pending != [] && journal.pending[1..] == rest && journal.pending[0].sent
      requires AtHead(a0) && a.requestID == a0.requestID && a.command == a0.command
      requires Benign(callerReused, log) ==> a == a0
      ensures Inv(journal.pending, []) && SentHead(a)
    {
    }

    /** Gives the head a fresh ID and the current revision; it counts as never sent. */
    method ReplaceHead(prefix: Prefix, requestID: RequestID, action0: Action, ghost response: Option<Response>)
      returns (action: Action)
      requires Steady(response) && journal.pending != [] && journal.pending[0].requestID == requestID
      requires journal.pending[0].action.command == action0.command
      modifies `nextRequestID, journal`pending
      ensures Steady(response) && HeadKept() && AtHead(action) && !journal.pending[0].sent
      ensures action == Action(Generated(prefix, old(nextRequestID)), revision, action0.command)
      ensures nextRequestID == old(nextRequestID) + 1
    {
      hide Accounts, Recalled, RecoverySafe, Traced, SequencedAt, Resting, NoReuse;
      action := Action(Generated(prefix, nextRequestID), revision, action0.command);
      if Benign(callerReused, log) {
        FreshIsPinned(log, nextRequestID, journal.pending, action, id);
      }
      nextRequestID := nextRequestID + 1;
      var ok := journal.Replace(requestID, JournalEntry(action.requestID, action, action.expectedRevision, id, false));
    }

    method AcknowledgeHead(requestID: RequestID, ghost response: Option<Response>)
      requires Steady(response) && journal.pending != [] && journal.pending[0].requestID == requestID
      modifies journal`pending
      ensures Steady(response) && journal.pending == old(journal.pending)[1..]
    {
      hide NumberingOk, EffectsIn, ResolvedIn, RecoverySafe, EndsInRejection, EndsInRefusedText, Declined,
        Unknown, Refusals, Promised, Issued, SequencedIn, AnsweredIn, UpTo, Conserved, Clean;
      WithoutHead(journal.pending);
      journal.Acknowledge(requestID);
    }

    /** What becomes of the journal's head: acknowledged by a success or by a definite rejection
        of an ordinary action; otherwise kept with its meaning - as the exact envelope that
        travelled while the outcome is unknown, under a fresh ID after a definite answer. */
    twostate predicate HeadResolved(new response: Option<Response>, command: Command)
      reads `id, journal
    {
      if Resolves(response, command)
      then old(journal.pending) != [] && journal.pending == old(journal.pending)[1..]
      else
        && HeadKept()
        && (IsUncertain(response) ==> journal.pending[0].sent && journal.pending[0].sessionID == id)
        && (IsRejected(response) ==> !journal.pending[0].sent)
    }

    /** Acts on an answer that is not stale: keeps, re-keys or acknowledges the head. */
    method Settle(response: Option<Response>, requestID: RequestID, action: Action, collectEffects: bool)
      requires Steady(response) && SentHead(action) && requestID == action.requestID && !IsStale(response)
      requires !context.secureInput && (!IsSuccessful(response) ==> EffectsOf(response) == [])
      modifies `nextRequestID, journal`pending, `replayedEffects, `inFlight, `settled
      ensures Steady(if collectEffects then None else response) && HeadResolved(response, action.command)
      ensures nextRequestID >= old(nextRequestID) && old(replayedEffects) <= replayedEffects
      ensures settled == old(settled) + if IsSuccessful(response) then DecisionIn(action.command) else []
      ensures !collectEffects ==> replayedEffects == old(replayedEffects)
    {
      hide Tracked, Wire, SequencedAt, Follows, Answered, Trusted, Away, Sendable, Unknown, Declined, Housed,
        Tied;
      NoAnswer();
      ResponsesPartition(response);
      Verdicts(response, action.command);
      if !IsSuccessful(response) {
        if IsUncertain(response) {
        } else if action.command.ResolvePendingLearning? {
          var retry := ReplaceHead(LearningRetryPrefix, requestID, action, response);
        } else {
          AcknowledgeHead(requestID, response);
        }
        return;
      }
      settled := settled + DecisionIn(action.command);
      if collectEffects {
        HasNumbering(journal.pending);
        CollectResponseEffects(response.value, journal.pending);
        AcknowledgeHead(requestID, None);
      } else {
        AcknowledgeHead(requestID, response);
      }
    }

    /** Sends the head of the journal, at most twice when the first answer is stale. */
    method ExecuteJournaledV2(action0: Action, tryConnect: bool, collectEffects: bool, lifecycle: bool)
      returns (response: Option<Response>)
      requires Steady(None) && AtHead(action0) && !context.secureInput
      modifies `log, `resolved, `nextRequestID, `id, `capabilities, `revision, `recoveryCheckpoint,
        `fallbackComposition, `unsafe, journal, ledger, `numbering, `replayedEffects, `epoch, `continuous,
        `namespace, `confirmed, `delivered, `inFlight, `ordered, `abandonments, `settled, `lapses
      ensures StaysContinuous()
      ensures resolved == old(resolved) + ResolvedOf(Semantic, action0.command, response)
      ensures id == "" || |log| > |old(log)|
      ensures IsStale(response) ==> |log| >= |old(log)| + 2
      ensures Onward()
      ensures !IsSuccessful(response) ==> EffectsOf(response) == []
      ensures settled == old(settled) + if IsSuccessful(response) then DecisionIn(action0.command) else []
      ensures lifecycle && !collectEffects ==>
        replayedEffects == old(replayedEffects) && abandonments == old(abandonments)
      ensures abandonments == old(abandonments) ==>
        && Steady(if collectEffects then None else response) && SameEpoch() && HeadResolved(response, action0.command)
      ensures abandonments != old(abandonments) ==> Abandoned() && response.None?
    {
      hide Inv, Attached, Resting, Core, SequencedAt, Answered, Trusted, Follows, Away, Sendable, Steady,
        Valid, Forgotten, Disposed, Benign, ResolvedOf, IsSuccessful, IsUncertain, IsRejected, IsStale,
        EffectsOf, OwedBy, Commands, DecisionsOf, DecisionIn, EndsInRejection, EndsInRefusedText, Declined,
        Unknown, Below, Unmentioned, SentHead;
      NoAnswerIsUncertain();
      var action := action0;
      response := None;
      for staleAttempt := 0 to 2
        invariant Onward() && StaysContinuous()
        invariant Steady(None) && SameEpoch() && AtHead(action) && HeadKept() && action.command == action0.command
        invariant settled == old(settled) && resolved == old(resolved) && |log| >= |old(log)| + staleAttempt
        invariant staleAttempt > 0 ==>
          IsStale(response) && EffectsOf(response) == [] && !journal.pending[0].sent
        invariant lifecycle ==> replayedEffects == old(replayedEffects)
      {
        response, action := AttemptHead(action, tryConnect, collectEffects, lifecycle);
        if !IsStale(response) {
          return;
        }
        StaleIsRejected(response);
      }
      StaleIsRejected(response);
      Verdicts(response, action0.command);
      NothingInFlight(response);
    }

    lemma {:induction false} NothingInFlight(response: Option<Response>)
      requires Steady(None) && EffectsOf(response) == []
      ensures Steady(response)
    {
      hide Inv, Attached, Resting, Core, SequencedAt, Answered, Trusted, Follows;
    }

    /** One attempt at the head: a stale answer re-keys it, any other is acted on. */
    method AttemptHead(action0: Action, tryConnect: bool, collectEffects: bool, lifecycle: bool)
      returns (response: Option<Response>, action: Action)
      requires Steady(None) && AtHead(action0) && !context.secureInput
      modifies `log, `resolved, `nextRequestID, `id, `capabilities, `revision, `recoveryCheckpoint,
        `fallbackComposition, `unsafe, journal, ledger, `numbering, `replayedEffects, `epoch, `continuous,
        `namespace, `confirmed, `delivered, `inFlight, `ordered, `abandonments, `settled, `lapses
      ensures StaysContinuous()
      ensures resolved == old(resolved) + ResolvedOf(Semantic, action0.command, response)
      ensures (id == "" || |log| > |old(log)|) && (response.Some? ==> |log| > |old(log)|)
      ensures Onward()
      ensures !IsSuccessful(response) ==> EffectsOf(response) == []
      ensures settled == old(settled) + if IsSuccessful(response) then DecisionIn(action0.command) else []
      ensures lifecycle && (!collectEffects || IsStale(response)) ==> replayedEffects == old(replayedEffects)
      ensures lifecycle ==> abandonments == old(abandonments)
      ensures IsStale(response) ==>
        && Steady(None) && SameEpoch() && AtHead(action) && HeadKept() && action.command == action0.command
        && !journal.pending[0].sent
      ensures !IsStale(response) && abandonments == old(abandonments) ==>
        && Steady(if collectEffects then None else response) && SameEpoch() && HeadResolved(response, action0.command)
      ensures abandonments != old(abandonments) ==> Abandoned() && response.None?
    {
      hide Inv, Attached, Resting, Core, SequencedAt, Answered, Trusted, Follows, Away, Sendable, Valid,
        Forgotten, Disposed, Benign, ResolvedOf, IsSuccessful, IsUncertain, IsRejected, IsStale, EffectsOf,
        OwedBy, Commands, DecisionsOf, DecisionIn, EndsInRejection, EndsInRefusedText, Declined, Unknown,
        Below, Unmentioned;
      NoAnswer();
      NoAnswerIsUncertain();
      response, action := SendHead(action0, tryConnect, lifecycle);
      Verdicts(response, action0.command);
      if IsStale(response) {
        StaleIsRejected(response);
        action := ReplaceHead(PlainPrefix, action0.requestID, action, response);
      } else if response.Some? {
        Settle(response, action0.requestID, action, collectEffects);
      }
    }

    // ------------------------------------------------------------- the replay

    /** A head that never reached this session may take the current revision before it is sent
        there; one that did keeps its exact envelope. */
    method PrepareHead(entry: JournalEntry) returns (action: Action)
      requires Steady(None) && journal.pending != [] && journal.pending[0] == entry
      modifies journal`pending
      ensures !entry.sent || entry.sessionID != id ==> action == entry.action.(expectedRevision := revision)
      ensures Steady(None) && HeadKept() && AtHead(action) && action.command == entry.action.command
      ensures entry.sent && entry.sessionID == id ==> action == entry.action && journal.pending == old(journal.pending)
    {
      hide Accounts, Recalled, RecoverySafe, Traced, SequencedAt, Follows, Tied, Unknown, LogOk, Clean, Bound;
      action := entry.action;
      if !entry.sent || entry.sessionID != id {
        action := action.(expectedRevision := revision);
        RebaseKeepsWire(log, nextRequestID, journal.pending, id, callerReused, action);
        if entry.sent {
          var ok := journal.Replace(entry.requestID,
            JournalEntry(entry.requestID, action, action.expectedRevision, id, false));
        } else {
          var ok := journal.RebaseUnsent(entry.requestID, action, action.expectedRevision, id);
        }
      }
    }

    /** The settled actions followed by the journaled ones are what they were: actions leave the
        journal only by being settled, one by one, in recorded order. */
    twostate predicate InOrder()
      reads `resolved, journal
    {
      resolved + Commands(journal.pending) == old(resolved) + Commands(old(journal.pending))
    }

    /** As `InOrder`, with one more action journaled behind the others. */
    twostate predicate InOrderWith(command: Command)
      reads `resolved, journal
    {
      resolved + Commands(journal.pending) == old(resolved) + Commands(old(journal.pending)) + [command]
    }

    /** What is left of the journal is its tail: the same semantic actions in the same order. */
    twostate predicate Remaining()
      reads journal
    {
      && |journal.pending| <= |old(journal.pending)|
      && Commands(journal.pending) == Commands(old(journal.pending))[|old(journal.pending)| - |journal.pending|..]
    }

    /** Resolutions are only settled, never lost, changed or reordered. */
    twostate predicate DecisionsKept()
      reads `settled, journal
    {
      && old(settled) <= settled
      && settled + DecisionsOf(journal.pending) == old(settled) + DecisionsOf(old(journal.pending))
    }

    /** As `DecisionsKept`, behind which the command's own resolution was journaled. */
    twostate predicate DecisionAdded(command: Command)
      reads `settled, journal
    {
      && old(settled) <= settled
      && settled + DecisionsOf(journal.pending)
           == old(settled) + DecisionsOf(old(journal.pending)) + DecisionIn(command)
    }

    /** Resolves the head, or keeps it. */
    method ReplayHead(entry: JournalEntry, tryConnect: bool, lifecycle: bool) returns (response: Option<Response>)
      requires Steady(None) && journal.pending != [] && journal.pending[0] == entry && !context.secureInput
      modifies `log, `resolved, `nextRequestID, `id, `capabilities, `revision, `recoveryCheckpoint,
        `fallbackComposition, `unsafe, journal, ledger, `numbering, `replayedEffects, `epoch, `continuous,
        `namespace, `confirmed, `delivered, `inFlight, `ordered, `abandonments, `settled, `lapses
      ensures StaysContinuous()
      ensures id == "" || |log| > |old(log)|
      ensures Onward()
      ensures !IsSuccessful(response) ==> EffectsOf(response) == []
      ensures abandonments == old(abandonments) ==>
        && Steady(None) && SameEpoch() && HeadResolved(response, entry.action.command) && DecisionsKept()
        && InOrder()
      ensures abandonments != old(abandonments) ==> Abandoned() && response.None?
    {
      hide Inv, Follows, Answered, Trusted, Away, Sendable, Unknown, Declined, Housed, Tied, Benign;
      NoAnswerIsUncertain();
      var action := PrepareHead(entry);
      ghost var prepared := journal.pending;
      response := ExecuteJournaledV2(action, tryConnect, true, lifecycle);
      Verdicts(response, entry.action.command);
      if abandonments == old(abandonments) {
        HeadMoves(old(resolved), old(journal.pending), prepared, journal.pending, response, entry.action.command);
        DecisionMoves(old(settled), old(journal.pending), prepared, journal.pending, response, entry.action.command);
      }
    }

    /** Replays the journal in order. The journal that is left is always a suffix of the
        recorded actions; it is empty when the replay reports completion. */
    method ReplayPendingV2(tryConnect: bool, lifecycle: bool, trackTerminal: bool)
      returns (drained: bool, terminalFailure: Option<Response>, confirmedAfterTerminalFailure: bool)
      requires Steady(None) && !context.secureInput
      modifies `log, `resolved, `nextRequestID, `id, `capabilities, `revision, `recoveryCheckpoint,
        `fallbackComposition, `unsafe, journal, ledger, `numbering, `replayedEffects, `epoch, `continuous,
        `namespace, `confirmed, `delivered, `inFlight, `ordered, `abandonments, `settled, `lapses
      ensures StaysContinuous()
      ensures |log| >= |old(log)| && (old(journal.pending) != [] ==> id == "" || |log| > |old(log)|)
      ensures abandonments == old(abandonments) ==> InOrder()
      ensures Onward()
      ensures old(journal.pending) == [] ==>
        drained && terminalFailure.None? && replayedEffects == old(replayedEffects)
        && journal.lastSnapshot == old(journal.lastSnapshot)
      ensures drained ==> Steady(None) && SameEpoch() && DecisionsKept() && journal.pending == []
      ensures !drained && abandonments == old(abandonments) ==>
        && Steady(None) && SameEpoch() && DecisionsKept() && journal.pending != [] && Remaining()
      ensures abandonments != old(abandonments) ==> !drained && Abandoned()
      ensures !trackTerminal ==> terminalFailure == None
      ensures terminalFailure.Some? ==> IsRejected(terminalFailure) && EffectsOf(terminalFailure) == []
      ensures confirmedAfterTerminalFailure ==> terminalFailure.Some?
    {
      hide Inv, Attached, Resting, Core, SequencedAt, Answered, Trusted, Follows, Away, Sendable, Steady,
        Valid, Disposed, Benign, ResolvedOf, IsSuccessful, IsUncertain, IsRejected, IsStale, EffectsOf,
        OwedBy, Commands, DecisionsOf, DecisionIn, EndsInRejection, EndsInRefusedText, Declined, Unknown,
        Below, Unmentioned, AtHead, SentHead;
      NoAnswer();
      NoAnswerIsUncertain();
      terminalFailure, confirmedAfterTerminalFailure := None, false;
      var pending := journal.pending;
      for k := 0 to |pending|
        invariant Onward() && StaysContinuous()
        invariant Steady(None) && SameEpoch() && DecisionsKept() && journal.pending == pending[k..]
        invariant InOrder() && |log| >= |old(log)| && (k == 0 || id == "" || |log| > |old(log)|)
        invariant !trackTerminal ==> terminalFailure == None
        invariant k == 0 ==> terminalFailure.None? && replayedEffects == old(replayedEffects)
        invariant k == 0 ==> journal.lastSnapshot == old(journal.lastSnapshot)
        invariant terminalFailure.Some? ==> IsRejected(terminalFailure) && EffectsOf(terminalFailure) == []
        invariant confirmedAfterTerminalFailure ==> terminalFailure.Some?
      {
        var entry := pending[k];
        var response := ReplayHead(entry, tryConnect, lifecycle);
        ResponsesPartition(response);
        Verdicts(response, entry.action.command);
        if IsSuccessful(response) && trackTerminal && terminalFailure.Some? {
          confirmedAfterTerminalFailure := true;
        }
        if !IsSuccessful(response) {
          if entry.action.command.ResolvePendingLearning? || IsUncertain(response) || IsStale(response) {
            if journal.pending != [] {
              SameMeaning(pending, k, journal.pending);
              assert Remaining();
            }
            return false, terminalFailure, confirmedAfterTerminalFailure;
          }
          if trackTerminal {
            terminalFailure := response;
          }
        }
      }
      return true, terminalFailure, confirmedAfterTerminalFailure;
    }

    // -------------------------------------------------------- handing effects over

    /** Puts the buffered effects in front of the response's own. */
    method AttachReplayedEffects(response: Response) returns (r: Response)
      requires Steady(Some(response))
      modifies `replayedEffects, `inFlight
      ensures Steady(Some(r)) && SameVerdict(r, response)
      ensures if HasSnapshot(response)
        then EffectsOf(Some(r)) == old(replayedEffects) + EffectsOf(Some(response)) && replayedEffects == []
        else r == response && replayedEffects == old(replayedEffects)
    {
      hide Recalled, Traced, Wire, RecoverySafe, PendingOk, SequencedAt, Resting, NumberingOk, EffectsIn,
        Conserved;
      r := response;
      if replayedEffects == [] || !HasSnapshot(response) {
        return;
      }
      r := WithEffects(response, replayedEffects + EffectsOf(Some(response)));
      AttachConserves(ordered, delivered, replayedEffects, inFlight, Effects(confirmed));
      inFlight := replayedEffects + inFlight;
      replayedEffects := [];
    }

    /** A synthetic response with the newest snapshot and all buffered effects. */
    method MakeFlushResponse() returns (r: Option<Response>)
      requires Steady(None)
      modifies `replayedEffects, `inFlight
      ensures Steady(r)
      ensures r.Some? <==> journal.lastSnapshot.Some?
      ensures r.Some? ==> IsSuccessful(r) && EffectsOf(r) == old(replayedEffects) && replayedEffects == []
      ensures r.None? ==> replayedEffects == old(replayedEffects)
    {
      hide Inv, Attached, Resting, Core, SequencedAt, Answered, Trusted, Follows;
      if journal.lastSnapshot.None? {
        return None;
      }
      var snapshot := journal.lastSnapshot.value.(effects := []);
      var response := Response(Success, "", ActionResult(Success, Some(snapshot)));
      var attached := AttachReplayedEffects(response);
      r := Some(attached);
    }

    method MakeEffectHandoffResponse(status: Status) returns (r: Option<Response>)
      requires Steady(None)
      modifies `replayedEffects, `inFlight
      ensures Steady(r)
      ensures r.Some? <==> journal.lastSnapshot.Some?
      ensures r.Some? ==> r.value.status == status && EffectsOf(r) == old(replayedEffects) && replayedEffects == []
      ensures r.None? ==> replayedEffects == old(replayedEffects)
    {
      hide Inv, Attached, Resting, Core, SequencedAt, Answered, Trusted, Follows;
      var flush := MakeFlushResponse();
      if flush.None? {
        return None;
      }
      r := Some(flush.value.(status := status, payload := flush.value.payload.(inner := status)));
    }

    /** The moment a response is returned to the caller. It keeps confirmation order when the
        buffer is empty or the response carries nothing. */
    ghost method HandOver(response: Option<Response>)
      requires Steady(response)
      modifies `delivered, `inFlight, `ordered
      ensures Valid() && delivered == old(delivered) + EffectsOf(response)
      ensures ordered == (old(ordered) && (replayedEffects == [] || EffectsOf(response) == []))
    {
      hide Recalled, Traced, Wire, RecoverySafe, PendingOk, SequencedAt, Resting, NumberingOk, EffectsIn,
        Conserved, EffectsOf, SecureOk, Effects, Raws, DistinctIDs;
      HandOverConserves(ordered, delivered, replayedEffects, inFlight, Effects(confirmed));
      ordered := ordered && (replayedEffects == [] || EffectsOf(response) == []);
      delivered := delivered + inFlight;
      inFlight := [];
    }

    // ---------------------------------------------------------------- new actions

    /** Completes an action: the caller's request ID or a fresh one, and the current revision. */
    method NewAction(command: Command, supplied: Option<string>, prefix: Prefix) returns (action: Action)
      requires Steady(None)
      modifies `nextRequestID, `callerReused
      ensures Steady(None) && Onward()
      ensures action.expectedRevision == revision && action.command == command
      ensures action.requestID ==
        if supplied.Some? then Supplied(supplied.value) else Generated(prefix, old(nextRequestID))
      ensures Below(action.requestID, nextRequestID)
      ensures Benign(callerReused, log) ==> forall s :: Clean(log, action.requestID, s)
      ensures supplied.None? ==> Unmentioned(journal.pending, action.requestID)
      ensures journal.pending == [] ==> Sendable(action, [])
      ensures supplied.Some? ==> callerReused == (old(callerReused) || Used(log, journal.pending, action.requestID))
      ensures supplied.None? ==> callerReused == old(callerReused)
    {
      hide NoReuse, NumberingOk, EffectsIn, ResolvedIn, Resolves, RecoverySafe, EndsInRejection,
        EndsInRefusedText, Declined, Unknown, Refusals, Promised, Issued, SequencedIn, AnsweredIn, UpTo,
        Conserved, Effects, Raws;
      var requestID;
      if supplied.Some? {
        requestID := Supplied(supplied.value);
        callerReused := callerReused || Used(log, journal.pending, requestID);
      } else {
        requestID := Generated(prefix, nextRequestID);
        nextRequestID := nextRequestID + 1;
      }
      action := Action(requestID, revision, command);
    }

    /** Journals an action behind everything already pending. */
    method RecordAction(action: Action) returns (ok: bool)
      requires Steady(None) && Below(action.requestID, nextRequestID) && !context.secureInput
      requires Benign(callerReused, log) ==> forall s :: Clean(log, action.requestID, s)
      modifies journal`pending
      ensures Steady(None)
      ensures
        || (ok && journal.pending == old(journal.pending)
                    + [JournalEntry(action.requestID, action, action.expectedRevision, id, false)])
        || (journal.pending == old(journal.pending)
            && (ok ==> exists e :: e in journal.pending && e.action == action))
      ensures |old(journal.pending)| < 64 && Unmentioned(old(journal.pending), action.requestID) ==> ok
      ensures old(journal.pending) == [] ==> ok && journal.pending != []
      ensures old(journal.pending) == [] && ok ==> AtHead(action)
    {
      hide NumberingOk, EffectsIn, ResolvedIn, RecoverySafe, EndsInRejection, EndsInRefusedText, Declined,
        Unknown, Refusals, Promised, Issued, SequencedIn, AnsweredIn, UpTo, Conserved;
      if Benign(callerReused, log) {
        RecordKeepsWire(log, nextRequestID, journal.pending, id,
                        JournalEntry(action.requestID, action, action.expectedRevision, id, false));
      }
      ok := journal.Record(JournalEntry(action.requestID, action, action.expectedRevision, id, false));
    }

    // ------------------------------------------------------------ the interface

    /** A call without an abandonment boundary hands over exactly the effects it returns. */
    twostate predicate Handed(new response: Option<Response>)
      reads `delivered, `epoch, `abandonments, `ordered, ledger
    {
      && ledger.highestApplied == old(ledger.highestApplied)
      && abandonments == old(abandonments) && epoch == old(epoch)
      && delivered == old(delivered) + EffectsOf(response) && ordered == old(ordered)
    }

    /** Decides what a transaction returns. */
    method FinishTransact(response: Option<Response>) returns (r: Option<Response>)
      requires Steady(response) && (!IsSuccessful(response) ==> EffectsOf(response) == [])
      modifies `replayedEffects, `inFlight, `delivered, `ordered
      ensures StaysContinuous()
      ensures IsSuccessful(r) ==> IsSuccessful(response)
      ensures Valid() && Handed(r)
      ensures old(replayedEffects) == [] && response.None? ==>
        r.None? && delivered == old(delivered) && replayedEffects == []
    {
      hide Inv, Attached, Resting, Core, SequencedAt, Answered, Trusted, Follows;
      NoAnswer();
      ResponsesPartition(response);
      r := None;
      if response.None? || IsUncertain(response) {
        if replayedEffects != [] {
          r := MakeEffectHandoffResponse(RetryableTransportError);
        }
      } else {
        var attached := AttachReplayedEffects(response.value);
        r := Some(attached);
        if replayedEffects != [] {
          var status := attached.status;
          if status == Success && !(attached.payload.ActionResult? && attached.payload.inner == Success) {
            status := RetryableTransportError;
          }
          r := MakeEffectHandoffResponse(status);
        }
      }
      HandOver(r);
    }

    /** One secure transmission: nothing is journaled. */
    method ExecuteSecure(action0: Action, tryConnect: bool)
      returns (response: Option<Response>, action: Action)
      requires Steady(None) && context.secureInput && journal.pending == [] && Sendable(action0, [])
      modifies `log, `resolved, `nextRequestID, `id, `capabilities, `revision, `recoveryCheckpoint,
        `fallbackComposition, `unsafe, journal, ledger, `numbering, `replayedEffects, `epoch, `continuous,
        `namespace, `confirmed, `delivered, `inFlight, `ordered, `abandonments, `callerReused, `lapses
      ensures StaysContinuous()
      ensures resolved == old(resolved) + ResolvedOf(Semantic, action0.command, response)
      ensures response.Some? ==> |log| > |old(log)|
      ensures id == "" || |log| > |old(log)|
      ensures Onward() && action.command == action0.command
      ensures (!IsSuccessful(response) ==> EffectsOf(response) == []) && journal.pending == [] && Steady(response)
      ensures SameEpoch()
    {
      hide Inv, Follows, Answered, Trusted, Away, Sendable, Unknown, Declined, Housed, Tied, Benign;
      NoAnswer();
      SecureHoldsNothing([]);
      response, action := ExecuteV2(action0, tryConnect, []);
    }

    lemma {:induction false} SecureHoldsNothing(entries: seq<JournalEntry>)
      requires Inv(entries, [])
      ensures context.secureInput ==> !HasMaterial()
    {
    }

    /** The journal of a secure session is already empty; clearing it changes nothing. */
    method ClearSecureJournal()
      requires Steady(None) && context.secureInput
      modifies journal
      ensures Steady(None) && journal.pending == [] && journal.lastSnapshot == None && old(journal.pending) == []
    {
      journal.Clear();
    }

    /** A secure session buffers no effects. */
    lemma {:induction false} SecureBuffersNothing(response: Option<Response>)
      requires Steady(response) && context.secureInput
      ensures replayedEffects == []
    {
    }

    /** Secure text travels once - once more under a fresh ID when the answer is stale - and is
        never journaled. */
    method TransactSecure(command: Command, supplied: Option<string>, tryConnect: bool)
      returns (response: Option<Response>)
      requires Valid() && context.secureInput
      modifies `log, `resolved, `nextRequestID, `id, `capabilities, `revision, `recoveryCheckpoint,
        `fallbackComposition, `unsafe, journal, ledger, `numbering, `replayedEffects, `epoch, `continuous,
        `namespace, `confirmed, `delivered, `inFlight, `ordered, `abandonments, `callerReused, `lapses
      ensures Onward() && StaysContinuous()
      ensures resolved == old(resolved) + ResolvedOf(Semantic, command, response)
      ensures id == "" || |log| > |old(log)|
      ensures IsStale(response) ==> |log| >= |old(log)| + 2
      ensures Valid() && old(journal.pending) == [] && journal.pending == [] && settled == old(settled)
      ensures Handed(response)
    {
      hide Inv, Attached, Resting, Core, SequencedAt, Answered, Trusted, Follows, Away, Sendable, Disposed,
        Benign, ResolvedOf, IsSuccessful, IsUncertain, IsRejected, IsStale, EffectsOf, OwedBy, Commands,
        DecisionsOf, DecisionIn, EndsInRejection, EndsInRefusedText, Declined, Unknown, Below, Unmentioned,
        AtHead, SentHead;
      NoAnswer();
      ClearSecureJournal();
      response := SendSecure(command, supplied, tryConnect);
      SecureBuffersNothing(response);
      HandOver(response);
    }

    method SendSecure(command: Command, supplied: Option<string>, tryConnect: bool)
      returns (response: Option<Response>)
      requires Steady(None) && context.secureInput && journal.pending == []
      modifies `log, `resolved, `nextRequestID, `id, `capabilities, `revision, `recoveryCheckpoint,
        `fallbackComposition, `unsafe, journal, ledger, `numbering, `replayedEffects, `epoch, `continuous,
        `namespace, `confirmed, `delivered, `inFlight, `ordered, `abandonments, `callerReused, `lapses
      ensures Onward() && StaysContinuous()
      ensures resolved == old(resolved) + ResolvedOf(Semantic, command, response)
      ensures id == "" || |log| > |old(log)|
      ensures IsStale(response) ==> |log| >= |old(log)| + 2
      ensures journal.pending == [] && Steady(response) && SameEpoch()
    {
      hide Inv, Attached, Resting, Core, SequencedAt, Answered, Trusted, Follows, Away, Sendable, Valid,
        Forgotten, Disposed, Benign, ResolvedOf, IsSuccessful, IsUncertain, IsRejected, IsStale, EffectsOf,
        OwedBy, Commands, DecisionsOf, DecisionIn, EndsInRejection, EndsInRefusedText, Declined, Unknown,
        Below, Unmentioned, AtHead, SentHead;
      NoAnswer();
      NoAnswerIsUncertain();
      var action := NewAction(command, supplied, PlainPrefix);
      response, action := ExecuteSecure(action, tryConnect);
      if IsStale(response) {
        StaleIsRejected(response);
        action := Action(Generated(SecurePrefix, nextRequestID), revision, action.command);
        DrawNumber(action, [], "", action);
        response, action := ExecuteSecure(action, tryConnect);
      }
    }

    /** With nothing left pending, records one action, sends it and hands its effects over. */
    method TransactJournaled(command: Command, supplied: Option<string>, tryConnect: bool)
      returns (r: Option<Response>)
      requires Steady(None) && !context.secureInput && journal.pending == []
      modifies `log, `resolved, `nextRequestID, `id, `capabilities, `revision, `recoveryCheckpoint,
        `fallbackComposition, `unsafe, journal, ledger, `numbering, `replayedEffects, `epoch, `continuous,
        `namespace, `confirmed, `delivered, `inFlight, `ordered, `abandonments, `settled, `callerReused,
        `lapses
      ensures Onward() && StaysContinuous()
      ensures Valid() && (id == "" || |log| > |old(log)|)
      ensures abandonments == old(abandonments) ==> Handed(r) && SettledOrPending(command, r)
      ensures abandonments != old(abandonments) ==> Abandoned() && r.None?
    {
      hide Inv, Resting, Attached, Commands, DecisionsOf, DecisionIn, IsSuccessful, EffectsOf, Benign,
        Resolves;
      NoAnswer();
      var response := RecordAndSend(command, supplied, tryConnect);
      r := FinishTransact(response);
    }

    method RecordAndSend(command: Command, supplied: Option<string>, tryConnect: bool)
      returns (response: Option<Response>)
      requires Steady(None) && !context.secureInput && journal.pending == []
      modifies `log, `resolved, `nextRequestID, `id, `capabilities, `revision, `recoveryCheckpoint,
        `fallbackComposition, `unsafe, journal, ledger, `numbering, `replayedEffects, `epoch, `continuous,
        `namespace, `confirmed, `delivered, `inFlight, `ordered, `abandonments, `settled, `callerReused,
        `lapses
      ensures Onward() && StaysContinuous()
      ensures id == "" || |log| > |old(log)|
      ensures !IsSuccessful(response) ==> EffectsOf(response) == []
      ensures abandonments == old(abandonments) ==>
        Steady(response) && SameEpoch() && SettledOrPending(command, response)
      ensures abandonments != old(abandonments) ==> Abandoned() && response.None?
    {
      hide Inv, Resting, SequencedAt, Answered, Trusted, Follows, Away, Sendable, Disposed, Benign,
        IsSuccessful, IsUncertain, IsRejected, IsStale, EffectsOf, OwedBy, Commands, DecisionsOf,
        EndsInRejection, EndsInRefusedText, Declined, Unknown, Below, Unmentioned, SentHead, Core, Attached;
      NoAnswer();
      NoAnswerIsUncertain();
      var action := NewAction(command, supplied, PlainPrefix);
      var recorded := RecordAction(action);
      if !recorded {
        assert false;
      }
      ghost var recordedEntries := journal.pending;
      OneEntry(recordedEntries);
      response := ExecuteJournaledV2(action, tryConnect, false, false);
      Verdicts(response, command);
      OneEntry(journal.pending);
    }

    /** The command was settled, or is the journal's only entry; a success means it was settled. */
    twostate predicate SettledOrPending(command: Command, new r: Option<Response>)
      reads `resolved, `settled, journal
    {
      || (journal.pending == [] && resolved == old(resolved) + [command]
          && settled == old(settled) + DecisionIn(command))
      || (Commands(journal.pending) == [command] && DecisionsOf(journal.pending) == DecisionIn(command)
          && resolved == old(resolved) && settled == old(settled) && !IsSuccessful(r))
    }

    /** What a transaction did: with everything journaled before it settled, the command was settled
        too or waits alone in the journal; otherwise some earlier action still waits, or no session
        could be opened. Success means the command itself was settled. */
    twostate predicate Transacted(command: Command, new r: Option<Response>)
      reads `id, `resolved, `settled, journal
    {
      TransactedFrom(old(resolved), old(settled), old(journal.pending), command, r)
    }

    /** `Transacted`, of what was settled and journaled before. */
    ghost predicate TransactedFrom(
        resolved0: seq<Command>, settled0: seq<bool>, pending0: seq<JournalEntry>, command: Command,
        r: Option<Response>)
      reads `id, `resolved, `settled, journal
    {
      var pending := journal.pending;
      && settled0 <= settled
      && (|| (&& resolved + Commands(pending) == resolved0 + Commands(pending0) + [command]
              && settled + DecisionsOf(pending) == settled0 + DecisionsOf(pending0) + DecisionIn(command)
              && (pending == [] || (Commands(pending) == [command] && !IsSuccessful(r))))
          || (&& resolved + Commands(pending) == resolved0 + Commands(pending0)
              && settled + DecisionsOf(pending) == settled0 + DecisionsOf(pending0)
              && |pending| <= |pending0| && Commands(pending) == Commands(pending0)[|pending0| - |pending|..]
              && (pending != [] || id == "") && !IsSuccessful(r)))
    }

    lemma {:induction false} NothingTransacted(command: Command)
      requires id == ""
      ensures TransactedFrom(resolved, settled, journal.pending, command, None)
    {
      assert Commands(journal.pending)[0..] == Commands(journal.pending);
    }

    /** Sends one semantic action after everything journaled before it. */
    method TransactV2(command: Command, supplied: Option<string>, tryConnect: bool) returns (r: Option<Response>)
      requires Valid()
      modifies `log, `resolved, `nextRequestID, `id, `capabilities, `revision, `recoveryCheckpoint,
        `fallbackComposition, `unsafe, journal, ledger, `numbering, `replayedEffects, `epoch, `continuous,
        `namespace, `confirmed, `delivered, `inFlight, `ordered, `abandonments, `settled, `callerReused,
        `lapses
      ensures Onward() && StaysContinuous()
      ensures Valid() && (id == "" || |log| > |old(log)|)
      ensures !old(context.secureInput) && abandonments == old(abandonments) ==> Handed(r) && Transacted(command, r)
      ensures abandonments != old(abandonments) ==> Abandoned() && r.None?
      ensures old(context.secureInput) ==>
        && journal.pending == old(journal.pending) == [] && settled == old(settled)
        && resolved == old(resolved) + ResolvedOf(Semantic, command, r) && Handed(r)
    {
      hide Valid, Forgotten, Benign, ResolvedOf, IsSuccessful, EffectsOf, Attached, Moored, HasMaterial,
        TransactedFrom;
      NoAnswer();
      NothingAdded();
      var ok := OpenIfNeeded(tryConnect);
      if !ok {
        NothingTransacted(command);
        return None;
      }
      r := TransactOpened(command, supplied, tryConnect);
    }

    method TransactOpened(command: Command, supplied: Option<string>, tryConnect: bool)
      returns (r: Option<Response>)
      requires Valid()
      modifies `log, `resolved, `nextRequestID, `id, `capabilities, `revision, `recoveryCheckpoint,
        `fallbackComposition, `unsafe, journal, ledger, `numbering, `replayedEffects, `epoch, `continuous,
        `namespace, `confirmed, `delivered, `inFlight, `ordered, `abandonments, `settled, `callerReused,
        `lapses
      ensures Onward() && StaysContinuous()
      ensures Valid() && (id == "" || |log| > |old(log)|)
      ensures abandonments == old(abandonments) ==> Handed(r)
      ensures abandonments != old(abandonments) ==> Abandoned() && r.None?
      ensures if context.secureInput
        then
          && abandonments == old(abandonments) && journal.pending == old(journal.pending) == []
          && settled == old(settled) && resolved == old(resolved) + ResolvedOf(Semantic, command, r)
        else abandonments == old(abandonments) ==> Transacted(command, r)
    {
      hide Valid, Forgotten, Benign, ResolvedOf, IsSuccessful, EffectsOf, Commands, DecisionsOf, DecisionIn,
        Attached, Moored, HasMaterial, TransactedFrom;
      if context.secureInput {
        r := TransactSecure(command, supplied, tryConnect);
      } else {
        r := TransactOrdinary(command, supplied, tryConnect);
      }
    }

    /** A session to transact in. */
    method OpenIfNeeded(tryConnect: bool) returns (ok: bool)
      requires Valid()
      modifies `id, `capabilities, `revision, `log, `continuous, `lapses
      ensures lapses == old(lapses) + if ok && old(id) == "" && HasMaterial() then {id} else {}
      ensures ok && old(id) == "" ==> continuous == (old(continuous) && !numbering.anchored)
      ensures Valid() && StaysContinuous() && (ok <==> id != "")
      ensures (old(id) != "" ==> id == old(id) && continuous == old(continuous))
      ensures log == old(log) + if ok && old(id) == "" then [Opened(id)] else []
      ensures Benign(callerReused, log) ==> old(Benign(callerReused, log))
    {
      hide Core, SequencedAt, Answered, Trusted, Follows, Benign, Unknown, Declined;
      ok := true;
      if id == "" {
        ok := OpenFresh(tryConnect, journal.pending, "", Action(NoRequestID, 0, Reconvert));
        if ok {
          AttachNamespace(journal.pending);
        }
      }
    }

    lemma {:induction false} NothingAdded()
      requires Valid()
      ensures context.secureInput ==> journal.pending == []
    {
    }

    /** Replays what is pending; only a drained journal lets the new action through. */
    method TransactOrdinary(command: Command, supplied: Option<string>,
        tryConnect: bool) returns (r: Option<Response>)
      requires Valid() && !context.secureInput
      modifies `log, `resolved, `nextRequestID, `id, `capabilities, `revision, `recoveryCheckpoint,
        `fallbackComposition, `unsafe, journal, ledger, `numbering, `replayedEffects, `epoch, `continuous,
        `namespace, `confirmed, `delivered, `inFlight, `ordered, `abandonments, `settled, `callerReused,
        `lapses
      ensures Onward() && StaysContinuous()
      ensures Valid() && (id == "" || |log| > |old(log)|)
      ensures abandonments == old(abandonments) ==> Handed(r) && Transacted(command, r)
      ensures abandonments != old(abandonments) ==> Abandoned() && r.None?
    {
      hide Inv, Attached, Resting, Core, SequencedAt, Answered, Trusted, Follows, Away, Sendable, Disposed,
        Benign, ResolvedOf, IsSuccessful, IsUncertain, IsRejected, IsStale, EffectsOf, OwedBy, Commands,
        DecisionsOf, DecisionIn, EndsInRejection, EndsInRefusedText, Declined, Unknown, Below, Unmentioned,
        AtHead, SentHead;
      NoAnswer();
      var drained, _, _ := ReplayPendingV2(tryConnect, false, false);
      if !drained {
        r := FinishTransact(None);
        return;
      }
      r := TransactAfter(command, supplied, tryConnect, old(resolved), Commands(old(journal.pending)),
        old(settled), DecisionsOf(old(journal.pending)));
    }

    /** One more action behind those the replay settled. */
    method TransactAfter(command: Command, supplied: Option<string>, tryConnect: bool,
                         ghost r0: seq<Command>, ghost c0: seq<Command>, ghost s0: seq<bool>, ghost d0: seq<bool>)
      returns (r: Option<Response>)
      requires Steady(None) && !context.secureInput && journal.pending == []
      requires resolved + Commands([]) == r0 + c0 && settled + DecisionsOf([]) == s0 + d0 && s0 <= settled
      modifies `log, `resolved, `nextRequestID, `id, `capabilities, `revision, `recoveryCheckpoint,
        `fallbackComposition, `unsafe, journal, ledger, `numbering, `replayedEffects, `epoch, `continuous,
        `namespace, `confirmed, `delivered, `inFlight, `ordered, `abandonments, `settled, `callerReused,
        `lapses
      ensures Onward() && StaysContinuous()
      ensures Valid() && (id == "" || |log| > |old(log)|)
      ensures abandonments == old(abandonments) ==>
        && Handed(r) && resolved + Commands(journal.pending) == r0 + c0 + [command]
        && settled + DecisionsOf(journal.pending) == s0 + d0 + DecisionIn(command) && s0 <= settled
        && (journal.pending == [] || (Commands(journal.pending) == [command] && !IsSuccessful(r)))
      ensures abandonments != old(abandonments) ==> Abandoned() && r.None?
    {
      hide Inv, Attached, Resting, Core, Valid, Steady, Forgotten, Benign, IsSuccessful, EffectsOf, Commands,
        DecisionsOf, DecisionIn;
      ghost var r1, s1 := resolved, settled;
      r := TransactJournaled(command, supplied, tryConnect);
      if abandonments == old(abandonments) {
        DrainedThen(r0, c0, r1, resolved, s0, d0, s1, settled, journal.pending, command);
      }
    }

    /** An opportunistic action: never journaled, never retried, and only when nothing is pending. */
    method TransactV2BestEffort(command: Command, supplied: Option<string>) returns (response: Option<Response>)
      requires Valid()
      modifies `log, `resolved, `nextRequestID, `id, `capabilities, `revision, `recoveryCheckpoint,
        `fallbackComposition, `unsafe, journal, ledger, `numbering, `replayedEffects, `epoch, `continuous,
        `namespace, `confirmed, `delivered, `inFlight, `ordered, `abandonments, `settled, `callerReused,
        `lapses
      ensures Onward() && StaysContinuous()
      ensures resolved == old(resolved) + ResolvedOf(Semantic, command, response)
      ensures old(id) != "" && old(journal.pending) == [] ==> |log| > |old(log)|
      ensures Valid() && id == old(id) && journal.pending == old(journal.pending) && settled == old(settled)
      ensures id == "" || journal.pending != [] ==> response.None? && log == old(log)
      ensures abandonments == old(abandonments) && epoch == old(epoch) && replayedEffects == old(replayedEffects)
      ensures ledger.highestApplied == old(ledger.highestApplied)
      ensures delivered == old(delivered) + EffectsOf(response)
      ensures ordered == (old(ordered) && (old(replayedEffects) == [] || EffectsOf(response) == []))
    {
      hide Inv, Follows, Answered, Trusted, Away, Sendable, Unknown, Declined, Housed, Tied, Benign;
      NoAnswer();
      response := None;
      if id == "" || journal.pending != [] {
        return;
      }
      response := SendOpportunistic(command, supplied);
      HandOver(response);
    }

    /** One new action, sent once and never journaled. */
    method SendOpportunistic(command: Command, supplied: Option<string>) returns (response: Option<Response>)
      requires Valid() && id != "" && journal.pending == []
      modifies `log, `resolved, `nextRequestID, `id, `capabilities, `revision, `recoveryCheckpoint,
        `fallbackComposition, `unsafe, journal, ledger, `numbering, `replayedEffects, `epoch, `continuous,
        `namespace, `confirmed, `delivered, `inFlight, `ordered, `abandonments, `settled, `callerReused,
        `lapses
      ensures StaysContinuous() && SameEpoch() && replayedEffects == old(replayedEffects)
      ensures Onward()
      ensures resolved == old(resolved) + ResolvedOf(Semantic, command, response) && |log| > |old(log)|
      ensures Steady(response) && id == old(id) && journal.pending == [] && settled == old(settled)
    {
      hide Tracked, WireAt, SequencedIn, EndsInRejection, EndsInRefusedText, Unknown, Declined, MaterialIn,
        Home, TakenBy, Promised, Issued, UpTo, AnsweredIn, EntriesBelow, Clean, Bound, Below, Unmentioned;
      NoAnswer();
      var action := NewAction(command, supplied, BestEffortPrefix);
      response := ExecuteInPlace(action, false, true, false, Semantic, []);
    }

    method HasPendingLearningResolution() returns (found: bool)
      ensures found <==> DecisionsOf(journal.pending) != []
    {
      for k := 0 to |journal.pending|
        invariant DecisionsOf(journal.pending) == DecisionsOf(journal.pending[k..])
      {
        if journal.pending[k].action.command.ResolvePendingLearning? {
          return true;
        }
      }
      return false;
    }

    /** Journals a learning resolution, unless an earlier one is still undecided, and sends it at
        once when it concerns learning the server confirmed as staged and nothing precedes it. */
    method TransactV2DurableBestEffort(command: Command,
        supplied: Option<string>) returns (response: Option<Response>)
      requires Valid()
      modifies `log, `resolved, `nextRequestID, `id, `capabilities, `revision, `recoveryCheckpoint,
        `fallbackComposition, `unsafe, journal, ledger, `numbering, `replayedEffects, `epoch, `continuous,
        `namespace, `confirmed, `delivered, `inFlight, `ordered, `abandonments, `settled, `callerReused,
        `lapses
      ensures Onward() && StaysContinuous()
      ensures Valid()
      ensures old(context.secureInput) || !command.ResolvePendingLearning?
              || DecisionsOf(old(journal.pending)) != [] ==>
        response.None? && journal.pending == old(journal.pending) && log == old(log) && settled == old(settled)
      ensures
        || (InOrder() && DecisionsKept() && journal.pending == old(journal.pending) && response.None?)
        || (InOrderWith(command) && DecisionAdded(command))
      ensures !old(context.secureInput) && command.ResolvePendingLearning?
              && DecisionsOf(old(journal.pending)) == [] && supplied.None? && |old(journal.pending)| < 64 ==>
        InOrderWith(command)
      ensures abandonments == old(abandonments) && epoch == old(epoch)
      ensures ledger.highestApplied == old(ledger.highestApplied)
      ensures
        && (DecisionsKept() || DecisionAdded(command))
        && delivered == old(delivered) + EffectsOf(response)
        && (old(ordered) && old(replayedEffects) == [] ==> ordered)
    {
      hide Inv, Attached, Resting, Core, SequencedAt, Answered, Trusted, Follows, Away, Sendable, Forgotten,
        Disposed, Benign, ResolvedOf, IsSuccessful, IsUncertain, IsRejected, IsStale, EffectsOf, OwedBy,
        Commands, DecisionsOf, DecisionIn, EndsInRejection, EndsInRefusedText, Declined, Unknown, Below,
        Unmentioned, AtHead, SentHead;
      NoAnswer();
      response := None;
      if context.secureInput || !command.ResolvePendingLearning? {
        return;
      }
      var earlier := HasPendingLearningResolution();
      if earlier {
        return;
      }
      var recorded;
      recorded, response := JournalResolution(command, supplied);
      HandOver(response);
    }

    /** Journals a resolution and sends it if it is the only entry. */
    method JournalResolution(command: Command, supplied: Option<string>)
      returns (recorded: bool, response: Option<Response>)
      requires Steady(None) && !context.secureInput && command.ResolvePendingLearning?
      requires DecisionsOf(journal.pending) == []
      modifies `log, `resolved, `nextRequestID, `id, `capabilities, `revision, `recoveryCheckpoint,
        `fallbackComposition, `unsafe, journal, ledger, `numbering, `replayedEffects, `epoch, `continuous,
        `namespace, `confirmed, `delivered, `inFlight, `ordered, `abandonments, `settled, `callerReused,
        `lapses
      ensures Onward() && StaysContinuous()
      ensures Steady(response) && SameEpoch() && replayedEffects == old(replayedEffects)
      ensures recorded ==> InOrderWith(command) && DecisionAdded(command)
      ensures !recorded ==> InOrder() && DecisionsKept() && journal.pending == old(journal.pending) && response.None?
      ensures supplied.None? && |old(journal.pending)| < 64 ==> recorded
    {
      hide Inv, Attached, Resting, Core, SequencedAt, Answered, Trusted, Follows, Steady, Sendable, Valid,
        Forgotten, Benign, EffectsOf, Commands, DecisionsOf, DecisionIn, AtHead, IsSuccessful;
      NoAnswer();
      response := None;
      var action;
      recorded, action := RecordResolution(command, supplied);
      if recorded {
        response := SendIfStaged(action);
        assert resolved + Commands(journal.pending) == old(resolved) + (Commands(old(journal.pending)) + [command]);
        assert settled + DecisionsOf(journal.pending)
          == old(settled) + (DecisionsOf(old(journal.pending)) + DecisionIn(command));
      }
    }

    /** Journals a resolution behind actions none of which is one. */
    method RecordResolution(command: Command, supplied: Option<string>) returns (recorded: bool, action: Action)
      requires Steady(None) && !context.secureInput && command.ResolvePendingLearning?
      requires DecisionsOf(journal.pending) == []
      modifies `nextRequestID, `callerReused, journal`pending
      ensures Onward() && Steady(None)
      ensures !recorded ==> journal.pending == old(journal.pending)
      ensures supplied.None? && |old(journal.pending)| < 64 ==> recorded
      ensures recorded ==>
        && Commands(journal.pending) == Commands(old(journal.pending)) + [command]
        && DecisionsOf(journal.pending) == DecisionsOf(old(journal.pending)) + DecisionIn(command)
        && (|journal.pending| == 1 ==> AtHead(action))
    {
      hide Inv, Follows, Answered, Trusted, Away, Sendable, Unknown, Declined, Housed, Tied, Benign;
      action := NewAction(command, supplied, DurablePrefix);
      recorded := RecordAction(action);
      NoDecisionNoResolution(old(journal.pending));
      DecisionsAppend(old(journal.pending), JournalEntry(action.requestID, action, action.expectedRevision, id, false));
    }

    /** Sends the only journaled action when the server confirmed that learning is staged. */
    method SendIfStaged(action: Action) returns (response: Option<Response>)
      requires Steady(None) && !context.secureInput && (|journal.pending| == 1 ==> AtHead(action))
      modifies `log, `resolved, `nextRequestID, `id, `capabilities, `revision, `recoveryCheckpoint,
        `fallbackComposition, `unsafe, journal, ledger, `numbering, `replayedEffects, `epoch, `continuous,
        `namespace, `confirmed, `delivered, `inFlight, `ordered, `abandonments, `settled, `lapses
      ensures Onward() && StaysContinuous()
      ensures InOrder()
      ensures |old(journal.pending)| == 1
              && old(journal.lastSnapshot.Some? && journal.lastSnapshot.value.pendingLearning) ==>
        id == "" || |log| > |old(log)|
      ensures Steady(response) && SameEpoch() && replayedEffects == old(replayedEffects) && DecisionsKept()
    {
      hide Inv, Follows, Answered, Trusted, Away, Sendable, Unknown, Declined, Housed, Tied, Benign;
      NoAnswer();
      response := None;
      var stagedOnServer := journal.lastSnapshot.Some? && journal.lastSnapshot.value.pendingLearning;
      if stagedOnServer && |journal.pending| == 1 {
        OneEntry(journal.pending);
        response := ExecuteJournaledV2(action, false, false, true);
        Verdicts(response, action.command);
        OneEntry(journal.pending);
        HeadMoves(old(resolved), old(journal.pending), old(journal.pending), journal.pending, response, action.command);
      }
    }

    /** The answer of a flush in which the server rejected some entry: the failure status, the
        newest snapshot that may be shown, and every buffered effect. */
    method TerminalFailureWithEffectHandoff(terminalFailure: Response, confirmedAfter: bool)
      returns (r: Option<Response>)
      requires Steady(None) && IsRejected(Some(terminalFailure)) && EffectsOf(Some(terminalFailure)) == []
      modifies `replayedEffects, `inFlight
      ensures Steady(r) && EffectsOf(r) + replayedEffects == old(replayedEffects)
      ensures !IsSuccessful(r) && (replayedEffects == [] || EffectsOf(r) == [])
    {
      hide Inv, Attached, Resting, Core, SequencedAt, Answered, Trusted, Follows;
      var failureStatus := terminalFailure.status;
      if failureStatus == Success {
        failureStatus := if terminalFailure.payload.ActionResult? then terminalFailure.payload.inner
                         else RetryableTransportError;
        if failureStatus == Success {
          failureStatus := RetryableTransportError;
        }
      }
      if journal.lastSnapshot.Some? && (!HasSnapshot(terminalFailure) || confirmedAfter) {
        var latest := MakeEffectHandoffResponse(failureStatus);
        if latest.Some? {
          return Some(latest.value.(errorMessage := terminalFailure.errorMessage));
        }
      }
      var attached := AttachReplayedEffects(terminalFailure);
      if replayedEffects == [] {
        return Some(attached);
      }
      r := MakeEffectHandoffResponse(failureStatus);
    }

    /** Replays every deferred action and returns one response with all buffered effects. */
    method FlushPendingV2(tryConnect: bool) returns (r: FlushResult)
      requires Valid()
      modifies `log, `resolved, `nextRequestID, `id, `capabilities, `revision, `recoveryCheckpoint,
        `fallbackComposition, `unsafe, journal, ledger, `numbering, `replayedEffects, `epoch, `continuous,
        `namespace, `confirmed, `delivered, `inFlight, `ordered, `abandonments, `settled, `callerReused,
        `lapses
      ensures Onward() && StaysContinuous()
      ensures Valid() && (r.completed ==> journal.pending == [])
      ensures old(context.secureInput) ==>
        r == FlushResult(true, None) && replayedEffects == [] && delivered == [] && confirmed == [] && ordered
        && ledger.highestApplied == 0 && abandonments == old(abandonments)
      ensures !old(context.secureInput) && abandonments == old(abandonments) ==>
        && Handed(r.response) && InOrder() && DecisionsKept() && Remaining()
      ensures abandonments != old(abandonments) ==> Abandoned() && EffectsOf(r.response) == []
      ensures |log| >= |old(log)| && (old(context.secureInput) ==> resolved == old(resolved) && log == old(log))
      ensures !old(context.secureInput) && old(journal.pending) != [] && (old(id) != "" || tryConnect) ==>
        id == "" || |log| > |old(log)|
      ensures old(journal.pending) == [] && old(replayedEffects) == [] ==> r == FlushResult(true, None)
      ensures !old(context.secureInput) && old(journal.pending) == [] && old(journal.lastSnapshot).Some? ==>
        r.completed && EffectsOf(r.response) == old(replayedEffects)
      ensures r.completed && IsSuccessful(r.response) ==> replayedEffects == []
    {
      hide Inv, Follows, Answered, Trusted, Away, Sendable, Unknown, Declined, Housed, Tied, Benign;
      NoAnswer();
      if context.secureInput {
        ClearSecure();
        return FlushResult(true, None);
      }
      if journal.pending == [] && replayedEffects == [] {
        return FlushResult(true, None);
      }
      if id == "" && !tryConnect && journal.pending != [] {
        return FlushResult(false, None);
      }
      var drained, terminalFailure, confirmedAfter := ReplayPendingV2(tryConnect, !tryConnect, true);
      r := FinishFlush(drained, terminalFailure, confirmedAfter);
    }

    method FinishFlush(drained: bool, terminalFailure: Option<Response>,
        confirmedAfter: bool) returns (r: FlushResult)
      requires Steady(None) && (terminalFailure.Some? ==> EffectsOf(terminalFailure) == [])
      requires drained ==> journal.pending == []
      requires terminalFailure.Some? ==> IsRejected(terminalFailure)
      modifies `replayedEffects, `inFlight, `delivered, `ordered
      ensures StaysContinuous()
      ensures Valid() && Handed(r.response) && (r.completed ==> journal.pending == [])
      ensures old(replayedEffects) == [] ==> EffectsOf(r.response) == [] && replayedEffects == []
      ensures EffectsOf(r.response) + replayedEffects == old(replayedEffects)
      ensures drained && terminalFailure.None? && old(journal.lastSnapshot).Some? ==>
        r.completed && EffectsOf(r.response) == old(replayedEffects)
      ensures r.completed && IsSuccessful(r.response) ==> replayedEffects == []
    {
      hide Inv, Attached, Resting, Core, SequencedAt, Answered, Trusted, Follows;
      if terminalFailure.Some? {
        var handoff := TerminalFailureWithEffectHandoff(terminalFailure.value, confirmedAfter);
        HandOver(handoff);
        return FlushResult(journal.pending == [], handoff);
      }
      if !drained {
        var replayOnly := None;
        if replayedEffects != [] {
          replayOnly := MakeEffectHandoffResponse(RetryableTransportError);
        }
        HandOver(replayOnly);
        return FlushResult(false, replayOnly);
      }
      var response := MakeFlushResponse();
      HandOver(response);
      return FlushResult(response.Some?, response);
    }

    method ClearSecure()
      requires Valid() && context.secureInput
      modifies journal, ledger, `numbering, `replayedEffects, `epoch, `continuous, `namespace, `confirmed,
        `delivered, `inFlight, `ordered
      ensures Valid() && journal.pending == [] && replayedEffects == [] && delivered == [] && confirmed == [] && ordered
      ensures ledger.highestApplied == 0 && continuous && numbering == INITIAL
    {
      hide Accounts, Recalled, RecoverySafe, Wire, Traced, PendingOk, Unknown, SequencedIn, UpTo, Benign;
      ClearSecureJournal();
      ClearEffects();
      NothingSequenced(namespace, recoveryCheckpoint, nextOf);
    }

    // --------------------------------------------------------- context changes

    /** Closes the session, refusing while anything is still to be replayed or handed over. */
    method Close(tryConnect: bool) returns (closed: bool)
      requires Valid()
      modifies `log, `id, `revision
      ensures old(id) != "" && journal.pending == [] && replayedEffects == [] ==> |log| > |old(log)|
      ensures old(id) == "" ==> (closed <==> journal.pending == [] && replayedEffects == [])
      ensures Valid() && (closed ==> id == "" && journal.pending == [] && replayedEffects == []) && |log| >= |old(log)|
      ensures journal.pending != [] || replayedEffects != [] || old(id) == "" ==>
        id == old(id) && revision == old(revision) && log == old(log)
      ensures (Benign(callerReused, log) <==> old(Benign(callerReused, log))) && (Trusted() <==> old(Trusted()))
      ensures id == "" || id == old(id)
    {
      hide Inv, Follows, Answered, Trusted, Away, Sendable, Unknown, Declined, Housed, Tied, Benign;
      if id == "" {
        return journal.pending == [] && replayedEffects == [];
      }
      if journal.pending != [] || replayedEffects != [] {
        return false;
      }
      var response := Exchange();
      NoteClosed(journal.pending, id, Action(NoRequestID, 0, Reconvert));
      closed := response.Some? && (response.value.status == Success || response.value.status == SessionNotFound);
      if response.None? || closed {
        LeaveSession(journal.pending);
        revision := 0;
      }
    }

    /** A switch to another program or across the secure boundary forgets the old domain. */
    method EnterContext(next: ClientContext, clearPreedit: bool)
      requires Valid() && id == ""
      requires clearPreedit <==> CrossesDomain(context, next)
      modifies `context, `recoveryCheckpoint, `fallbackComposition, `unsafe, journal, ledger, `numbering,
        `replayedEffects, `epoch, `continuous, `namespace, `confirmed, `delivered, `inFlight, `ordered,
        `dismissals
      ensures Valid() && context == next && (old(continuous) ==> continuous)
      ensures clearPreedit ==> NothingRetained() && dismissals == old(dismissals) + 1 && numbering == INITIAL
      ensures !clearPreedit ==> MaterialKept() && SameEpoch() && dismissals == old(dismissals)
    {
      hide Accounts, Remembered, InputKept, MaterialIn, Home, RecoverySafe, Traced, PendingOk, SequencedAt,
        Wire, Benign, Unknown, NothingRetained;
      if clearPreedit {
        ForgetDomain();
        NothingYet(log, epoch, next.secureInput, lapses);
      }
      context := next;
    }

    method ForgetDomain()
      requires Valid() && id == ""
      modifies `recoveryCheckpoint, `fallbackComposition, `unsafe, journal, ledger, `numbering,
        `replayedEffects, `epoch, `continuous, `namespace, `confirmed, `delivered, `inFlight, `ordered,
        `dismissals
      ensures Valid() && NothingRetained() && dismissals == old(dismissals) + 1
      ensures continuous && numbering == INITIAL && epoch == |log|
      ensures recoveryCheckpoint == "" && fallbackComposition == "" && unsafe == NO_GUARDS && replayedEffects == []
      ensures journal.pending == [] && journal.lastSnapshot == None
    {
      hide Valid;
      ValidWithoutEntries();
      ForgetLocal();
      dismissals := dismissals + 1;
    }

    lemma {:induction false} ValidWithoutEntries()
      requires Valid()
      ensures RecoverySafe(log) && Wire([]) && Traced() && !Unknown(log)
    {
      hide Accounts, Recalled, RecoverySafe, Traced, SequencedAt, PendingOk, WireAt, Benign, Unknown;
      if Benign(callerReused, log) {
        WithoutEntries(log, nextRequestID, journal.pending, id);
      }
    }

    /** What the answer to a restore means. */
    lemma {:induction false} Restored(action: Action, response: Option<Response>)
      requires Concluded(Restoring, action, response)
      ensures Tied(Held()) && (IsSuccessful(response) ==> Resting())
      ensures !IsSuccessful(response) && !IsUncertain(response) ==> Declined(log) && EndsInRejection(log, id)
      ensures IsSuccessful(response) ==> response.Some? && HasSnapshot(response.value) && !IsUncertain(response)
      ensures ResolvedOf(Restoring, action.command, response) == []
    {
      hide Unknown, Tied, Housed, Follows, TookOver, EndsInRejection, Declined, EndsInRefusedText;
    }

    /** Offers the checkpoint to the session just opened for a context update. */
    method RestoreInContext() returns (outcome: Outcome)
      requires Inv(journal.pending, []) && inFlight == [] && Tied(Held())
      requires id != "" && recoveryCheckpoint != "" && !context.secureInput
      modifies `log, `resolved, `nextRequestID, `id, `capabilities, `revision, `recoveryCheckpoint,
        `fallbackComposition, `unsafe, `numbering, `replayedEffects, `continuous, `confirmed, `inFlight,
        `lapses, journal`lastSnapshot
      ensures resolved == old(resolved)
      ensures Onward() && id == old(id) && old(replayedEffects) <= replayedEffects
      ensures Inv(journal.pending, []) && inFlight == [] && StaysContinuous() && Tied(Held())
      ensures outcome != Recovered ==> MaterialKept()
      ensures outcome == Recovered ==> Resting() && BroughtOver(log, id, old(Held()))
      ensures outcome == Refused ==> Declined(log) && EndsInRejection(log, id)
    {
      hide Inv, Core, Resting, Tied, Follows, Trusted, Answered, SequencedAt, Benign, EndsInRejection,
        Declined, Unknown, EffectsOf, IsSuccessful, IsUncertain, BroughtOver, HasMaterial, Attached;
      ghost var entries := journal.pending;
      var response := OfferCheckpoint(entries);
      if IsSuccessful(response) {
        HasNumbering(entries);
        CollectResponseEffects(response.value, entries);
        return Recovered;
      }
      return if IsUncertain(response) then Uncertain else Refused;
    }

    method OfferCheckpoint(ghost entries: seq<JournalEntry>) returns (response: Option<Response>)
      requires Inv(entries, []) && inFlight == [] && id != "" && Tied(Held()) && recoveryCheckpoint != ""
      modifies `log, `resolved, `nextRequestID, `id, `capabilities, `revision, `recoveryCheckpoint,
        `fallbackComposition, `unsafe, `numbering, `continuous, `confirmed, `inFlight, `lapses,
        journal`lastSnapshot
      ensures resolved == old(resolved) && Onward() && id == old(id) && StaysContinuous()
      ensures Inv(entries, []) && inFlight == EffectsOf(response) && Tied(Held())
      ensures IsSuccessful(response) ==> response.Some? && Resting() && BroughtOver(log, id, old(Held()))
      ensures !IsSuccessful(response) ==> EffectsOf(response) == [] && MaterialKept()
      ensures !IsSuccessful(response) && !IsUncertain(response) ==> Declined(log) && EndsInRejection(log, id)
    {
      hide Inv, Core, Resting, Tied, Housed, Concluded, SequencedAt, Answered, Trusted, Follows, Benign,
        Sendable, Clean, Below, Unmentioned, EndsInRejection, Declined, Unknown, EffectsOf, IsSuccessful,
        IsUncertain, BroughtOver, HasMaterial, ResolvedOf, Attached, BoundaryFree;
      var restore := Action(Generated(ContextRestorePrefix, nextRequestID), revision,
        RestoreCheckpoint(recoveryCheckpoint));
      DrawNumber(restore, entries, "", restore);
      response := ExecuteInPlace(restore, true, false, false, Restoring, entries);
      Restored(restore, response);
    }

    lemma {:induction false} Settled()
      requires !Unknown(log) && Tied(Held()) && Follows(id) && Housed(id)
      ensures Resting()
    {
    }

    /** Re-inserts the visible text under a fresh effect namespace; on an unknown outcome the old
        namespace map is put back exactly. */
    method InsertFallbackInContext() returns (outcome: Outcome)
      requires Inv(journal.pending, []) && inFlight == [] && Tied(Held())
      requires id != "" && CanUseStoredTextFallback() && !context.secureInput
      requires recoveryCheckpoint != "" ==> EndsInRejection(log, id)
      modifies `log, `resolved, `nextRequestID, `id, `capabilities, `revision, `recoveryCheckpoint,
        `fallbackComposition, `unsafe, `numbering, `replayedEffects, `continuous, `namespace, `confirmed,
        `inFlight, `lapses, journal`lastSnapshot
      ensures resolved == old(resolved)
      ensures Onward() && id == old(id) && old(replayedEffects) <= replayedEffects
      ensures Inv(journal.pending, []) && inFlight == [] && StaysContinuous() && Tied(Held())
      ensures outcome == Uncertain ==> MaterialKept()
      ensures outcome == Recovered ==> Resting() && BroughtOver(log, id, old(Held()))
      ensures outcome == Refused ==>
        && recoveryCheckpoint == old(recoveryCheckpoint) && fallbackComposition == old(fallbackComposition)
        && unsafe == old(unsafe) && Declined(log) && EndsInRefusedText(log, id)
        && (recoveryCheckpoint != "" ==> EndsInRejection(log, id))
    {
      hide Inv, Resting, Tied, Housed, HasMaterial, SequencedAt, Core, Valid, Answered, Trusted, Follows,
        Away, Sendable, Steady, Forgotten, Disposed, Benign, IsSuccessful, IsUncertain, IsRejected, IsStale,
        EffectsOf, OwedBy, EndsInRejection, EndsInRefusedText, Declined, Unknown, Below, Unmentioned,
        TookOver, SameVerdict, FreshNamespace, ResolvedOf, Recorded, MaterialIn, Home, TakenBy, BroughtOver;
      NoAnswer();
      ghost var entries := journal.pending;
      var previous := numbering;
      var response := InsertFreshly(entries);
      outcome := AfterFallbackInContext(response, previous, entries);
      if outcome == Recovered {
        Settled();
      }
    }

    /** The fallback travels under a fresh namespace, so on a failure the old map is all there is to put back. */
    method InsertFreshly(ghost entries: seq<JournalEntry>) returns (response: Option<Response>)
      requires Inv(entries, []) && inFlight == [] && id != "" && Tied(Held()) && CanUseStoredTextFallback()
      requires recoveryCheckpoint != "" ==> EndsInRejection(log, id)
      modifies `log, `resolved, `nextRequestID, `id, `capabilities, `revision, `recoveryCheckpoint,
        `fallbackComposition, `unsafe, `numbering, `continuous, `namespace, `confirmed, `inFlight, `lapses,
        journal`lastSnapshot
      ensures resolved == old(resolved) && Onward() && id == old(id) && StaysContinuous()
      ensures IsSuccessful(response) ==>
        && !Unknown(log) && Follows(id) && Housed(id) && Tied(Held().(guards := NO_GUARDS))
        && BroughtOver(log, id, old(Held()))
      ensures !IsSuccessful(response) && !IsUncertain(response) ==>
        Declined(log) && EndsInRefusedText(log, id) && (recoveryCheckpoint != "" ==> EndsInRejection(log, id))
      ensures Inv(entries, []) && inFlight == EffectsOf(response)
      ensures !IsSuccessful(response) ==>
        && EffectsOf(response) == [] && Held() == old(Held()) && Tied(Held())
        && journal.lastSnapshot == old(journal.lastSnapshot) && confirmed == old(confirmed)
        && numbering == FreshNamespace(old(numbering)) && namespace == old(namespace) + 1
        && NumberingOk(old(numbering), namespace - 1, confirmed) && SequencedAt(namespace - 1)
    {
      hide Inv, Tied, Housed, HasMaterial, SequencedAt, Follows, Benign, IsSuccessful, IsUncertain, EffectsOf,
        EndsInRejection, EndsInRefusedText, Declined, Unknown, FreshNamespace, NumberingOk, BroughtOver;
      HasNumbering(entries);
      BeginFreshEffectNamespace(entries, [], None);
      response := SendFallbackInContext(entries);
    }

    method SendFallbackInContext(ghost entries: seq<JournalEntry>) returns (response: Option<Response>)
      requires Inv(entries, []) && inFlight == [] && id != "" && Follows(id) && namespace > 0
      requires SequencedAt(namespace - 1) && Tied(Held()) && CanUseStoredTextFallback()
      requires recoveryCheckpoint != "" ==> EndsInRejection(log, id)
      modifies `log, `resolved, `nextRequestID, `id, `capabilities, `revision, `recoveryCheckpoint,
        `fallbackComposition, `unsafe, `numbering, `continuous, `confirmed, `inFlight, `lapses,
        journal`lastSnapshot
      ensures resolved == old(resolved) && |log| > |old(log)|
      ensures Onward() && id == old(id) && StaysContinuous()
      ensures IsSuccessful(response) ==>
        && !Unknown(log) && Follows(id) && Housed(id) && Tied(Held().(guards := NO_GUARDS))
        && BroughtOver(log, id, old(Held()))
      ensures !IsSuccessful(response) && !IsUncertain(response) ==>
        Declined(log) && EndsInRefusedText(log, id) && (recoveryCheckpoint != "" ==> EndsInRejection(log, id))
      ensures Inv(entries, []) && inFlight == EffectsOf(response)
      ensures !IsSuccessful(response) ==>
        EffectsOf(response) == [] && MaterialKept() && SequencedAt(namespace - 1) && Tied(Held())
    {
      hide Inv, Follows, Answered, Trusted, Away, Sendable, Unknown, Declined, Housed, Tied, Benign;
      var fallback := Action(Generated(ContextFallbackPrefix, nextRequestID), revision,
        InsertText(fallbackComposition));
      DrawNumber(fallback, entries, "", fallback);
      response := ExecuteInPlace(fallback, true, false, false, Fallback, entries);
      ResponsesPartition(response);
      Verdicts(response, Reconvert);
    }

    method AfterFallbackInContext(response: Option<Response>, previous: Numbering, ghost entries: seq<JournalEntry>)
      returns (outcome: Outcome)
      requires Inv(entries, []) && inFlight == EffectsOf(response) && !context.secureInput
      requires !IsSuccessful(response) ==>
        && EffectsOf(response) == [] && numbering == FreshNamespace(previous) && namespace > 0
        && NumberingOk(previous, namespace - 1, confirmed) && SequencedAt(namespace - 1)
      modifies `numbering, `namespace, `unsafe, `replayedEffects, `inFlight
      ensures Inv(entries, []) && inFlight == [] && old(replayedEffects) <= replayedEffects
      ensures outcome == Uncertain ==> numbering == previous && namespace == old(namespace) - 1
      ensures outcome != Recovered ==> unsafe == old(unsafe) && replayedEffects == old(replayedEffects)
      ensures outcome == Recovered ==> unsafe == NO_GUARDS
      ensures outcome != Uncertain ==> numbering == old(numbering) && namespace == old(namespace)
      ensures outcome ==
        (if IsSuccessful(response) then Recovered else if IsUncertain(response) then Uncertain else Refused)
    {
      hide Inv, Attached, Resting, Core, SequencedAt, Answered, Trusted, Follows, IsUncertain;
      if IsSuccessful(response) {
        unsafe := NO_GUARDS;
        HasNumbering(entries);
        CollectResponseEffects(response.value, entries);
        return Recovered;
      }
      if IsUncertain(response) {
        RollBackNumbering(previous, entries);
        return Uncertain;
      }
      return Refused;
    }

    lemma {:induction false} HasNumbering(entries: seq<JournalEntry>)
      requires Inv(entries, [])
      ensures NumberingOk(numbering, namespace, confirmed) && Core(entries, [])
    {
    }

    /** Undoes the start of a namespace in which nothing was numbered. */
    method RollBackNumbering(previous: Numbering, ghost entries: seq<JournalEntry>)
      requires Inv(entries, []) && numbering == FreshNamespace(previous) && namespace > 0
      requires NumberingOk(previous, namespace - 1, confirmed) && SequencedAt(namespace - 1)
      modifies `numbering, `namespace
      ensures Inv(entries, []) && numbering == previous && namespace == old(namespace) - 1
    {
      hide Recalled, Traced, Wire, RecoverySafe, PendingOk, EntriesBelow, SequencedAt, NumberingOk, EffectsIn,
        Conserved;
      numbering := numbering.(anchored := previous.anchored, rawAnchor := previous.rawAnchor,
                              globalAnchor := previous.globalAnchor, highestRaw := previous.highestRaw);
      namespace := namespace - 1;
    }

    /** After reopening in the same domain: brings the composition over. Failure keeps all
        recovery material, or - when every form was definitely refused - abandons the input. */
    method RestoreAfterReopening() returns (ok: bool)
      requires Inv(journal.pending, []) && inFlight == [] && Declined(log) && Tied(Held())
      requires id != "" && !context.secureInput
      modifies `log, `resolved, `nextRequestID, `id, `capabilities, `revision, `recoveryCheckpoint,
        `fallbackComposition, `unsafe, journal, ledger, `numbering, `replayedEffects, `epoch, `continuous,
        `namespace, `confirmed, `delivered, `inFlight, `ordered, `abandonments, `lapses
      ensures resolved == old(resolved)
      ensures Onward()
      ensures Valid() && (old(continuous) ==> continuous) && lapses == old(lapses)
      ensures ok ==> SameEpoch() && id == old(id) && journal.pending == old(journal.pending)
      ensures ok && old(HasMaterial()) ==> BroughtOver(log, id, old(Held()))
      ensures !ok && abandonments == old(abandonments) ==> SameEpoch() && id == "" && MaterialKept()
      ensures abandonments != old(abandonments) ==> !ok && Abandoned() && old(HasMaterial())
    {
      hide MaterialIn, Home, TakenBy, BroughtOver, EntriesBelow, Clean, EndsInRejection, EndsInRefusedText,
        Declined, Unknown, Below, Unmentioned, Inv, Core, SequencedAt, Answered, Trusted, Follows, Disposed,
        Benign, Sendable, EffectsOf, Valid, BoundaryFree, Forgotten;
      var hadRecoveryMaterial := recoveryCheckpoint != "" || fallbackComposition != "";
      var outcome, refused, freshNamespace := OfferInContext();
      if outcome == Refused {
        DeclinedIsKnown(log);
      }
      ok := FinishReopening(outcome, hadRecoveryMaterial && refused, freshNamespace);
    }

    /** Restore, then plain text, in the session just opened. `refused` says that some recovery form exists
        and none of them can be used. */
    method OfferInContext() returns (outcome: Outcome, refused: bool, freshNamespace: bool)
      requires Inv(journal.pending, []) && inFlight == [] && Declined(log) && Tied(Held())
      requires id != "" && !context.secureInput
      modifies `log, `resolved, `nextRequestID, `id, `capabilities, `revision, `recoveryCheckpoint,
        `fallbackComposition, `unsafe, `numbering, `replayedEffects, `continuous, `namespace, `confirmed,
        `inFlight, `lapses, journal`lastSnapshot
      ensures resolved == old(resolved)
      ensures Onward() && id == old(id) && old(replayedEffects) <= replayedEffects
      ensures Inv(journal.pending, []) && inFlight == [] && StaysContinuous() && Tied(Held())
      ensures outcome == Uncertain ==> MaterialKept()
      ensures outcome == Recovered ==> Resting() && BroughtOver(log, id, old(Held()))
      ensures outcome == Refused ==>
        && Held() == old(Held()) && Declined(log) && (recoveryCheckpoint != "" ==> EndsInRejection(log, id))
        && (CanUseStoredTextFallback() ==> EndsInRefusedText(log, id))
        && (refused <==> HasMaterial()) && (!refused ==> !freshNamespace)
    {
      hide Inv, Follows, Answered, Trusted, Away, Sendable, Unknown, Declined, Housed, Tied, Benign;
      refused := fallbackComposition != "" && !CanUseStoredTextFallback();
      outcome, freshNamespace := Refused, false;
      if recoveryCheckpoint != "" {
        outcome := RestoreInContext();
        refused := true;
      }
      if outcome == Refused && CanUseStoredTextFallback() {
        outcome := InsertFallbackInContext();
        freshNamespace, refused := true, true;
      }
    }

    method FinishReopening(outcome: Outcome, refused: bool, freshNamespace: bool) returns (ok: bool)
      requires Inv(journal.pending, []) && inFlight == [] && id != "" && !context.secureInput
      requires (outcome == Recovered ==> Resting()) && Tied(Held())
      requires outcome == Refused ==>
        && (refused <==> HasMaterial()) && (!refused ==> !freshNamespace)
        && Declined(log) && !Unknown(log) && (recoveryCheckpoint != "" ==> EndsInRejection(log, id))
        && (CanUseStoredTextFallback() ==> EndsInRefusedText(log, id))
      modifies `log, `nextRequestID, `id, `capabilities, `revision, `recoveryCheckpoint, `fallbackComposition,
        `unsafe, journal, ledger, `numbering, `replayedEffects, `epoch, `continuous, `namespace, `confirmed,
        `delivered, `inFlight, `ordered, `abandonments
      ensures nextRequestID >= old(nextRequestID)
      ensures Benign(callerReused, log) <==> old(Benign(callerReused, log))
      ensures Valid() && (old(continuous) ==> continuous)
      ensures ok <==> outcome == Recovered || (outcome == Refused && !refused)
      ensures ok ==> SameEpoch() && id == old(id) && journal.pending == old(journal.pending) && log == old(log)
      ensures outcome == Uncertain ==> SameEpoch() && id == "" && MaterialKept()
      ensures outcome == Refused && refused ==> Abandoned()
      ensures |log| >= |old(log)|
    {
      hide MaterialIn, Home, TakenBy, BroughtOver, EntriesBelow, Clean, EndsInRejection, EndsInRefusedText,
        Declined, Unknown, Below, Unmentioned, Inv, Core, SequencedAt, Answered, Trusted, Follows, Disposed,
        Benign, Sendable, EffectsOf, Forgotten;
      if outcome == Uncertain {
        DiscardServerNamespacePreservingRecovery(journal.pending, "", Action(NoRequestID, 0, Reconvert));
        return false;
      }
      if outcome == Refused && refused {
        if !freshNamespace {
          BeginFreshEffectNamespace(journal.pending, [], None);
        }
        DropEntries(journal.pending);
        GiveUp();
        return false;
      }
      if outcome == Refused && !freshNamespace {
        BeginFreshEffectNamespace(journal.pending, [], None);
      }
      return true;
    }

    method Reopen(clearPreedit: bool) returns (ok: bool)
      requires Valid() && id == ""
      modifies `log, `resolved, `nextRequestID, `id, `capabilities, `revision, `recoveryCheckpoint,
        `fallbackComposition, `unsafe, journal, ledger, `numbering, `replayedEffects, `epoch, `continuous,
        `namespace, `confirmed, `delivered, `inFlight, `ordered, `abandonments, `lapses
      ensures resolved == old(resolved)
      ensures Onward()
      ensures ok ==> id != ""
      ensures !ok ==> id == "" || |log| > |old(log)|
      ensures Valid()
      ensures old(continuous) && (id == "" || !old(numbering).anchored) ==> continuous
      ensures old(continuous) && !context.secureInput && !clearPreedit && capabilities.SupportsV2() ==> continuous
      ensures clearPreedit ==> MaterialKept() && SameEpoch() && (old(NothingRetained()) ==> NothingRetained())
      ensures abandonments == old(abandonments) ==> SameEpoch()
      ensures abandonments != old(abandonments) ==>
        && !ok && !clearPreedit && !context.secureInput
        && Abandoned() && ledger.highestApplied == 0 && delivered == [] && ordered
      ensures abandonments == old(abandonments) ==> journal.pending == old(journal.pending)
      ensures !ok && abandonments == old(abandonments) ==> MaterialKept()
      ensures !old(HasMaterial()) || id == "" || (!clearPreedit && capabilities.SupportsV2()) ==>
        lapses == old(lapses)
      ensures ok && old(HasMaterial()) && !clearPreedit && capabilities.SupportsV2() ==>
        BroughtOver(log, id, old(Held()))
    {
      hide Inv, Core, Valid, Resting, SequencedAt, Answered, Trusted, Follows, Benign, Declined, Unknown,
        Tied, Housed, BroughtOver;
      var reopened := OpenInContext();
      if !reopened {
        return false;
      }
      if !capabilities.SupportsV2() || context.secureInput || clearPreedit {
        EnterWithout();
        return true;
      }
      ok := RestoreAfterReopening();
    }

    method OpenInContext() returns (ok: bool)
      requires Valid() && id == ""
      modifies `id, `capabilities, `revision, `log
      ensures Onward() && Inv(journal.pending, []) && inFlight == [] && Tied(Held()) && !Unknown(log)
      ensures if ok then id != "" && Declined(log) && |log| > |old(log)| else Valid() && id == ""
      ensures context.secureInput ==> !HasMaterial()
    {
      hide Inv, Follows, Tied, Housed, Unknown, Declined, Benign;
      ok := OpenFresh(true, journal.pending, "", Action(NoRequestID, 0, Reconvert));
      SecureHoldsNothing(journal.pending);
    }

    /** The session just opened is entered without bringing anything over. */
    ghost method EnterWithout()
      requires Inv(journal.pending, []) && inFlight == [] && !Unknown(log) && Tied(Held())
      modifies `continuous, `lapses
      ensures Valid() && continuous == (old(continuous) && !numbering.anchored)
      ensures lapses == old(lapses) + if HasMaterial() then {id} else {}
    {
      hide Inv, Unknown, Tied, Housed, Follows;
      AttachNamespace(journal.pending);
    }

    /** Everything belonging to the program or secure domain just left was dismissed. */
    twostate predicate LeftDomain()
      reads `abandonments, `dismissals, `delivered, `ordered, journal, ledger
    {
      && abandonments == old(abandonments) && dismissals == old(dismissals) + 1
      && ledger.highestApplied == 0 && delivered == [] && ordered && journal.pending == []
    }

    /** Follows the application to a new context, reopening the session where needed. */
    method UpdateContext(next: ClientContext) returns (ok: bool)
      requires Valid()
      modifies `log, `resolved, `nextRequestID, `id, `capabilities, `revision, `recoveryCheckpoint,
        `fallbackComposition, `unsafe, journal, ledger, `numbering, `replayedEffects, `context, `epoch,
        `continuous, `namespace, `confirmed, `delivered, `inFlight, `ordered, `abandonments, `dismissals,
        `lapses
      ensures resolved == old(resolved)
      ensures Onward()
      ensures ok ==> id != "" && context == next
      ensures old(continuous) && (CrossesDomain(old(context), next) || id == "") ==> continuous
      ensures old(continuous) && !next.secureInput && capabilities.SupportsV2() ==> continuous
      ensures !ok ==> id == "" || |log| > |old(log)| || old(journal.pending) != [] || old(replayedEffects) != []
      ensures Valid()
      ensures context == next || (context == old(context) && !ok && MaterialKept())
      ensures CrossesDomain(old(context), next) ==>
        (context == next && NothingRetained()) || (context == old(context) && !ok && MaterialKept())
      ensures !CrossesDomain(old(context), next) && !ok && abandonments == old(abandonments) ==> MaterialKept()
      ensures abandonments == old(abandonments) && dismissals == old(dismissals) ==> SameEpoch()
      ensures dismissals != old(dismissals) ==> LeftDomain() && CrossesDomain(old(context), next)
      ensures abandonments != old(abandonments) ==>
        && !ok && !CrossesDomain(old(context), next) && !next.secureInput
        && Abandoned() && ledger.highestApplied == 0 && delivered == [] && ordered
      ensures abandonments == old(abandonments) && dismissals == old(dismissals) ==>
        journal.pending == old(journal.pending)
      ensures !old(HasMaterial()) || id == "" || CrossesDomain(old(context), next) || capabilities.SupportsV2() ==>
        lapses == old(lapses)
      ensures ok && old(HasMaterial()) && |log| > |old(log)|
              && !CrossesDomain(old(context), next) && capabilities.SupportsV2() ==>
        BroughtOver(log, id, old(Held()))
    {
      hide MaterialIn, Home, TakenBy, BroughtOver, EntriesBelow, Clean, EndsInRejection, EndsInRefusedText,
        Declined, Unknown, Below, Unmentioned, Inv, Core, SequencedAt, Answered, Trusted, Follows, Disposed,
        Benign, EffectsOf, Forgotten, Valid, Resting, Attached, NothingRetained, FreshNamespace;
      var contextChanged := context != next;
      var clearPreedit := CrossesDomain(context, next);
      if !contextChanged && id != "" && capabilities.SupportsV2() {
        return true;
      }
      var left := LeaveContext(next, contextChanged, clearPreedit);
      if !left {
        return false;
      }
      ok := Reopen(clearPreedit);
    }

    /** Closes the session of the old context and enters the new one. */
    method LeaveContext(next: ClientContext, contextChanged: bool, clearPreedit: bool) returns (left: bool)
      requires Valid() && (contextChanged <==> context != next) && (clearPreedit <==> CrossesDomain(context, next))
      modifies `log, `id, `revision, `context, `recoveryCheckpoint, `fallbackComposition, `unsafe, journal,
        ledger, `numbering, `replayedEffects, `epoch, `continuous, `namespace, `confirmed, `delivered,
        `inFlight, `ordered, `dismissals
      ensures Valid() && |log| >= |old(log)| && (old(continuous) ==> continuous)
      ensures Benign(callerReused, log) <==> old(Benign(callerReused, log))
      ensures left ==> id == "" && context == next
      ensures left && clearPreedit ==>
        journal.pending == [] && NothingRetained() && LeftDomain() && !numbering.anchored && !HasMaterial()
      ensures !left ==>
        && context == old(context)
        && (id == "" || |log| > |old(log)| || old(journal.pending) != [] || old(replayedEffects) != [])
      ensures !left || !clearPreedit ==> MaterialKept() && SameEpoch() && dismissals == old(dismissals)
    {
      hide Inv, Core, SequencedAt, Answered, Trusted, Follows, Benign, EffectsOf, Resting, Attached;
      if contextChanged || id != "" {
        var closed := Close(false);
        if !closed {
          return false;
        }
      }
      if contextChanged {
        EnterContext(next, clearPreedit);
      }
      return true;
    }

    /** The abandonment boundary with the default decision to discard. */
    method AbandonUnconfirmedInput()
      requires Valid()
      modifies `log, `nextRequestID, `id, `capabilities, `revision, `recoveryCheckpoint, `fallbackComposition,
        `unsafe, journal, ledger, `numbering, `replayedEffects, `epoch, `continuous, `namespace, `confirmed,
        `delivered, `inFlight, `ordered, `dismissals, `lapses
      ensures nextRequestID >= old(nextRequestID)
      ensures Benign(callerReused, log) <==> old(Benign(callerReused, log))
      ensures Dismissed()
    {
      hide Inv, Attached, Resting, Core, SequencedAt, Answered, Trusted, Follows, Disposed, Benign, Forgotten;
      FinalizeWithoutUITarget(false);
    }
  }

  /** What leaving session `s` puts on the wire. */
  ghost predicate Disposed(
      log: seq<Event>, log': seq<Event>, s: string, secure: bool, prefix: Prefix, number: nat,
      revision: uint64, commit: bool)
  {
    if secure then log' == log + [Closed(s)]
    else
      && |log'| == |log| + 2
      && log' == log + [log'[|log|], Closed(s)]
      && log'[|log|].Acted? && log'[|log|].session == s && log'[|log|].purpose == Disposition
      && log'[|log|].action == Action(Generated(prefix, number), revision, ResolvePendingLearning(commit))
  }

  /** The client draws the same conclusions from both responses. */
  ghost predicate SameVerdict(a: Response, b: Response) {
    && a.status == b.status && HasSnapshot(a) == HasSnapshot(b)
    && a.payload.ActionResult? == b.payload.ActionResult?
    && (a.payload.ActionResult? ==> a.payload.inner == b.payload.inner)
  }

  lemma {:induction false} SameVerdictResolves(a: Response, b: Response, command: Command)
    requires SameVerdict(a, b)
    ensures Resolves(Some(a), command) <==> Resolves(Some(b), command)
  {
  }

  lemma {:induction false} NumberNothing(n: Numbering)
    ensures NumberAll(n, []) == (n, [])
  {
  }

  lemma {:induction false} WithoutEntries(log: seq<Event>, next: nat, entries: seq<JournalEntry>, id: string)
    requires WireAt(log, next, entries, id)
    ensures WireAt(log, next, [], id) && EntriesBelow([], next)
  {
  }

  /** No answer, and a lost session, confirm and refuse nothing. */
  lemma {:induction false} NoAnswer()
    ensures EffectsOf(None) == [] && OwedBy(None) == [] && !IsRejected(None) && !IsSuccessful(None)
    ensures forall r: Response :: r.status == SessionNotFound ==> OwedBy(Some(r)) == [] && !IsSuccessful(Some(r))
    ensures forall p, c :: ResolvedOf(p, c, None) == []
    ensures forall r: Response, p, c :: r.status == SessionNotFound ==> ResolvedOf(p, c, Some(r)) == []
  {
  }

  lemma {:induction false} NoAnswerIsUncertain()
    ensures IsUncertain(None) && !IsStale(None)
  {
  }

  lemma {:induction false} StaleIsRejected(response: Option<Response>)
    requires IsStale(response)
    ensures IsRejected(response) && !IsUncertain(response) && !IsSuccessful(response)
    ensures forall p, c :: ResolvedOf(p, c, response) == []
  {
  }

  lemma {:induction false} SameMeaning(all: seq<JournalEntry>, k: nat, left: seq<JournalEntry>)
    requires k < |all| && |left| == |all| - k && left[1..] == all[k..][1..]
    requires left[0].action.command == all[k].action.command
    ensures Commands(left) == Commands(all)[k..]
  {
    forall i | 0 <= i < |left| ensures Commands(left)[i] == Commands(all)[k..][i] {
      if i > 0 { assert left[i] == left[1..][i - 1] == all[k..][i]; }
    }
  }

  lemma {:induction false} DecisionsOfHead(before: seq<JournalEntry>, after: seq<JournalEntry>)
    requires before != []
    ensures DecisionsOf(before) == DecisionIn(before[0].action.command) + DecisionsOf(before[1..])
    ensures |after| == |before| && after[1..] == before[1..] && after[0].action.command == before[0].action.command ==>
      DecisionsOf(after) == DecisionsOf(before)
  {
  }

  lemma {:induction false} CommandsOfHead(before: seq<JournalEntry>, after: seq<JournalEntry>)
    requires before != []
    ensures Commands(before) == [before[0].action.command] + Commands(before[1..])
    ensures |after| == |before| && after[1..] == before[1..] && after[0].action.command == before[0].action.command ==>
      Commands(after) == Commands(before)
  {
    if |after| == |before| && after[1..] == before[1..] && after[0].action.command == before[0].action.command {
      SameMeaning(before, 0, after);
    }
  }

  lemma {:induction false} Verdicts(response: Option<Response>, command: Command)
    ensures IsSuccessful(response) ==> Resolves(response, command)
    ensures !IsSuccessful(response) && !IsUncertain(response) ==> IsRejected(response)
    ensures IsUncertain(response) || IsStale(response) ==> !Resolves(response, command)
    ensures !IsSuccessful(response) && !IsUncertain(response) && !IsStale(response) ==>
      (Resolves(response, command) <==> !command.ResolvePendingLearning?)
  {
  }

  lemma {:induction false} Regroup<T>(a: seq<T>, b: seq<T>, c: seq<T>)
    ensures a + b + c == a + (b + c) && a + [] + c == a + c
  {
  }

  /** Settling the head moves its command from the journal to the settled ones. */
  lemma {:induction false} HeadMoves(r: seq<Command>, before: seq<JournalEntry>, prepared: seq<JournalEntry>,
      after: seq<JournalEntry>, response: Option<Response>, command: Command)
    requires before != [] && |prepared| == |before| && prepared[1..] == before[1..]
    requires prepared[0].action.command == before[0].action.command == command
    requires if Resolves(response, command) then after == prepared[1..]
      else |after| == |prepared| && after[1..] == prepared[1..] && after[0].action.command == command
    ensures r + ResolvedOf(Semantic, command, response) + Commands(after) == r + Commands(before)
  {
    hide Resolves, Commands;
    CommandsOfHead(before, prepared);
    CommandsOfHead(prepared, after);
    Regroup(r, [command], Commands(prepared[1..]));
    Regroup(r, [], Commands(after));
  }

  /** Likewise for learning decisions: only a success settles one. */
  lemma {:induction false} DecisionMoves(s: seq<bool>, before: seq<JournalEntry>, prepared: seq<JournalEntry>,
      after: seq<JournalEntry>, response: Option<Response>, command: Command)
    requires before != [] && |prepared| == |before| && prepared[1..] == before[1..]
    requires prepared[0].action.command == before[0].action.command == command
    requires if Resolves(response, command) then after == prepared[1..]
      else |after| == |prepared| && after[1..] == prepared[1..] && after[0].action.command == command
    ensures var settled := s + if IsSuccessful(response) then DecisionIn(command) else [];
      s <= settled && settled + DecisionsOf(after) == s + DecisionsOf(before)
  {
    hide IsSuccessful, IsUncertain, IsRejected, IsStale, DecisionsOf;
    DecisionsOfHead(before, prepared);
    DecisionsOfHead(prepared, after);
    Regroup(s, DecisionIn(command), DecisionsOf(prepared[1..]));
    Regroup(s, [], DecisionsOf(after));
  }

  /** One more action behind a drained journal. */
  lemma {:induction false} DrainedThen(r0: seq<Command>, c0: seq<Command>, r1: seq<Command>, r2: seq<Command>,
                    s0: seq<bool>, d0: seq<bool>, s1: seq<bool>, s2: seq<bool>, p: seq<JournalEntry>, command: Command)
    requires r1 + Commands([]) == r0 + c0 && s1 + DecisionsOf([]) == s0 + d0
    requires
      || (p == [] && r2 == r1 + [command] && s2 == s1 + DecisionIn(command))
      || (Commands(p) == [command] && DecisionsOf(p) == DecisionIn(command) && r2 == r1 && s2 == s1)
    ensures r2 + Commands(p) == r0 + c0 + [command]
    ensures s2 + DecisionsOf(p) == s0 + d0 + DecisionIn(command)
    ensures s0 <= s1 ==> s0 <= s2
  {
  }

  lemma {:induction false} OneEntry(p: seq<JournalEntry>)
    ensures |p| == 1 ==> DecisionsOf(p) == DecisionIn(p[0].action.command) && Commands(p) == [p[0].action.command]
    ensures p == [] ==> DecisionsOf(p) == []
  {
  }

  lemma {:induction false} NoDecisionNoResolution(p: seq<JournalEntry>)
    ensures DecisionsOf(p) == [] ==> forall e :: e in p ==> !e.action.command.ResolvePendingLearning?
  {
    if p != [] {
      NoDecisionNoResolution(p[1..]);
      assert forall e :: e in p ==> e == p[0] || e in p[1..];
    }
  }

  lemma {:induction false} NothingHappened(next: nat)
    ensures RecoverySafe([]) && !Unknown([]) && Refusals([]) == 0 && ResolvedIn([]) == [] && EffectsIn([], 0) == []
    ensures WireAt([], next, [], "") && NumberingOk(INITIAL, 0, []) && Conserved(true, [], [], [], [])
    ensures Raws([]) == [] && Effects([]) == []
  {
  }

  lemma {:induction false} NothingPending(next: nat)
    ensures PendingOk([], next) && EntriesBelow([], next) && DistinctIDs([])
  {
  }

  ghost predicate Positive(n: Numbering) {
    n.next >= 1 && (n.anchored ==> n.globalAnchor >= 1)
  }

  lemma {:induction false} StaysPositive(n: Numbering, ns: nat, t: seq<Confirmed>, raws: seq<Effect>)
    requires NumberingOk(n, ns, t)
    ensures Positive(NumberAll(n, raws).0)
  {
    NumberAllOk(n, ns, t, raws);
  }

  /** The head's envelope may be sent again in the session it is bound to. */
  lemma {:induction false} TailWire(log: seq<Event>, next: nat, p: seq<JournalEntry>, id: string, reused: bool)
    requires p != [] && p[0].sessionID == id
    requires Benign(reused, log) ==> WireAt(log, next, p, id)
    ensures Benign(reused, log) ==> Pinned(log, next, p[1..], p[0].action, id)
  {
    hide LogOk, Benign;
    if Benign(reused, log) {
      assert p[0] in p && EntryOk(log, p[0], id);
      forall x | x in p[1..] ensures EntryOk(log, x, id) {
        assert x in p;
      }
    }
  }

  /** Marking the head as sent changes nothing else. */
  lemma {:induction false} MarkedHead(p: seq<JournalEntry>, next: nat)
    requires p != [] && PendingOk(p, next) && DistinctIDs(p)
    ensures var p' := p[0 := p[0].(sent := true)];
      PendingOk(p', next) && p'[1..] == p[1..]
    ensures EntriesBelow(p[1..], next) && Unmentioned(p[1..], p[0].requestID) && Below(p[0].requestID, next)
  {
    var p' := p[0 := p[0].(sent := true)];
    forall e | e in p' ensures EntryConsistent(e) && Below(e.requestID, next) && e.requestID == e.action.requestID {
      assert p[0] in p && (e == p'[0] || e in p);
    }
    forall e | e in p[1..]
      ensures e.requestID != p[0].requestID && Below(e.requestID, next) && e.requestID == e.action.requestID
    {
      var k :| 0 <= k < |p[1..]| && p[1..][k] == e;
      assert p[k + 1] == e && e in p;
    }
    assert p[0] in p;
  }

  /** An entry whose ID is unused in session `id` may take any envelope there. */
  lemma {:induction false} RebaseKeepsWire(log: seq<Event>, next: nat, p: seq<JournalEntry>, id: string,
      reused: bool, a: Action)
    requires p != [] && a.requestID == p[0].requestID && (!p[0].sent || p[0].sessionID != id)
    requires Benign(reused, log) ==> WireAt(log, next, p, id)
    ensures Benign(reused, log) ==>
      WireAt(log, next, p[0 := JournalEntry(p[0].requestID, a, a.expectedRevision, id, false)], id)
  {
    var e := JournalEntry(p[0].requestID, a, a.expectedRevision, id, false);
    if Benign(reused, log) {
      assert p[0] in p;
      assert EntryOk(log, p[0], id);
      forall x | x in p[0 := e] ensures EntryOk(log, x, id) {
        assert x == e || x in p;
      }
    }
  }

  lemma {:induction false} RecordKeepsWire(log: seq<Event>, next: nat, p: seq<JournalEntry>, id: string,
      e: JournalEntry)
    requires WireAt(log, next, p, id) && forall s :: Clean(log, e.requestID, s)
    requires e.requestID == e.action.requestID
    ensures WireAt(log, next, p + [e], id)
  {
    forall x | x in p + [e] ensures EntryOk(log, x, id) {
      if x in p {
        assert EntryOk(log, x, id);
      } else {
        assert Clean(log, e.requestID, e.sessionID) && Clean(log, e.requestID, id);
      }
    }
  }

  lemma {:induction false} KnownSessionsDiffer(log: seq<Event>, next: nat, entries: seq<JournalEntry>,
      stale: string, s: string)
    requires WireAt(log, next, entries, stale) && Opened(s) !in log && s != ""
    ensures s != stale
  {
  }

  lemma {:induction false} OpenedIsNeutral(log: seq<Event>, s: string)
    ensures EventEffects(Opened(s)) == []
  {
  }

  lemma {:induction false} ConfirmedExtends(t: seq<Confirmed>, ns: nat, raws: seq<Effect>, effects: seq<Effect>)
    requires |raws| == |effects|
    ensures Raws(t + Confirm(ns, raws, effects)) == Raws(t) + raws
    ensures Effects(t + Confirm(ns, raws, effects)) == Effects(t) + effects
  {
  }
}
