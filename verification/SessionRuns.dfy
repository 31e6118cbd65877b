/** Whole runs of the session client: any sequence of calls, any transport, and the input
    method applying the effects of every returned response
    (fcitx5-hazkey/src/hazkey_state.cpp:434-452, 600-664). */
module SessionRuns {
  import opened ImeProtocol
  import opened Results
  import opened RecoveryJournals
  import opened RecoveryMaterial
  import opened EffectNumbering
  import opened Transcript
  import opened EffectContinuity
  import opened InputContinuity
  import opened SessionClient

  datatype Call =
    | Transact(command: Command, supplied: Option<string>, tryConnect: bool)
    | BestEffort(command: Command, supplied: Option<string>)
    | Durable(command: Command, supplied: Option<string>)
    | Flush(tryConnect: bool)
    | ChangeContext(next: ClientContext)
    | Finalize(preferredCommit: bool)
    | CloseSession(tryConnect: bool)

  /** Calls that never overtake the effect buffer. */
  predicate KeepsOrder(c: Call) {
    !c.BestEffort? && !c.Durable?
  }

  /** Learning resolutions enter only through the durable path. */
  predicate ResolvesDurably(c: Call) {
    (c.Transact? ==> !c.command.ResolvePendingLearning?)
    && (c.BestEffort? ==> !c.command.ResolvePendingLearning?)
  }

  lemma {:induction false} HighWaterConcat(h: uint64, a: seq<Effect>, b: seq<Effect>)
    ensures HighWater(h, a + b) == HighWater(HighWater(h, a), b)
    ensures Accepted(h, a + b) == Accepted(h, a) + Accepted(HighWater(h, a), b)
    decreases |b|
  {
    if b == [] {
      assert a + b == a;
    } else {
      var front, last := b[..|b| - 1], b[|b| - 1];
      HighWaterConcat(h, a, front);
      assert (a + b)[..|a + b| - 1] == a + front;
    }
  }

  /** Calls that never leave a session the client could have stayed in. */
  predicate StaysAttached(c: Call) {
    !c.ChangeContext? && !c.CloseSession?
  }

  /** Calls that dismiss everything: the caller asks for it, or leaves the program or secure domain. */
  predicate Dismisses(c: Call, context: ClientContext) {
    c.Finalize? || (c.ChangeContext? && CrossesDomain(context, c.next))
  }

  /** The learning decisions among these commands. */
  function DecisionsIn(commands: seq<Command>): seq<bool> {
    if commands == [] then []
    else DecisionsIn(commands[..|commands| - 1]) + DecisionIn(commands[|commands| - 1])
  }

  predicate Carries(call: Call, command: Command) {
    (call.Transact? || call.BestEffort? || call.Durable?) && command == call.command
  }

  /** Nothing recorded is lost: the settled actions followed by the journaled ones are what they were, with at
      most the call's own command added behind them, and so are the learning decisions. */
  twostate predicate Booked(s: ClientSession, call: Call, new added: seq<Command>, new decided: seq<bool>)
    reads s, s.journal
  {
    && s.resolved + Commands(s.journal.pending) == old(s.resolved + Commands(s.journal.pending)) + added
    && s.settled + DecisionsOf(s.journal.pending) == old(s.settled + DecisionsOf(s.journal.pending)) + decided
    && (added == [] || (|added| == 1 && Carries(call, added[0])))
    && (ResolvesDurably(call) ==> decided == DecisionsIn(added))
  }

  /** What one call does to the handed-over effects, to the ledger and to the recorded actions. They start over
      only where the caller dismissed the input or flushes a secure session, or where the transcript shows
      that the server refused all of it. */
  twostate predicate Step(s: ClientSession, call: Call, new effects: seq<Effect>, new added: seq<Command>,
      new decided: seq<bool>)
    reads s, s.ledger, s.journal
  {
    || (s.delivered == old(s.delivered) + effects && s.ledger.highestApplied == old(s.ledger.highestApplied)
        && Booked(s, call, added, decided)
        && s.epoch == old(s.epoch) && s.dismissals == old(s.dismissals) && Refusals(s.log) == old(Refusals(s.log)))
    || (s.delivered == [] && effects == [] && s.ledger.highestApplied == 0
        && s.journal.pending == [] && added == [] && decided == []
        && (if Refusals(s.log) != old(Refusals(s.log))
            then Refusals(s.log) == old(Refusals(s.log)) + 1 && s.dismissals == old(s.dismissals)
              && !call.Finalize? && !call.CloseSession? && !old(s.context.secureInput)
            else if call.Flush? then old(s.context.secureInput) && s.dismissals == old(s.dismissals)
            else Dismisses(call, old(s.context)) && s.dismissals == old(s.dismissals) + 1))
  }

  /** What every call keeps: the ordering of effects unless it overtakes the buffer, at most one journaled
      learning decision unless it journals one past the durable path, and an unbroken line of sessions
      unless it leaves one. A session is entered without the input only by a client that holds some, and
      has no session or leaves it. */
  twostate predicate Kept(s: ClientSession, call: Call)
    reads s, s.journal
  {
    && (KeepsOrder(call) && old(s.ordered) ==> s.ordered)
    && (ResolvesDurably(call) && |DecisionsOf(old(s.journal.pending))| <= 1 ==> |DecisionsOf(s.journal.pending)| <= 1)
    && (StaysAttached(call) ==> s.StaysContinuous())
    && (s.lapses != old(s.lapses) ==> old(s.HasMaterial()) && (old(s.id) == "" || call.ChangeContext?))
    && (!call.ChangeContext? ==> s.context == old(s.context))
  }

  method PerformTransact(s: ClientSession, call: Call)
    returns (effects: seq<Effect>, ghost added: seq<Command>, ghost decided: seq<bool>)
    requires s.Valid() && call.Transact?
    modifies s, s.journal, s.ledger
    ensures s.Valid() && Step(s, call, effects, added, decided) && Kept(s, call)
    ensures Benign(s.callerReused, s.log) ==> old(Benign(s.callerReused, s.log))
  {
    hide ClientSession.Valid, Benign, DecisionsOf, DecisionsIn, DecisionIn, EffectsOf,
      ClientSession.Remaining, Refusals, ResolvedOf, Commands, IsSuccessful;
    NoDecisions();
    CountsRefusals(s);
    var r := s.TransactV2(call.command, call.supplied, call.tryConnect);
    effects := EffectsOf(r);
    CountsRefusals(s);
    added, decided := [], [];
    if s.abandonments == old(s.abandonments) {
      added := if s.resolved + Commands(s.journal.pending) == old(s.resolved + Commands(s.journal.pending))
        then [] else [call.command];
      decided := if s.settled + DecisionsOf(s.journal.pending) == old(s.settled + DecisionsOf(s.journal.pending))
        then [] else DecisionIn(call.command);
      OneOrNone(call.command, r);
    }
  }

  lemma {:induction false} OneOrNone(command: Command, r: Option<Response>)
    ensures ResolvedOf(Semantic, command, r) in {[], [command]} && (r.None? ==> ResolvedOf(Semantic, command, r) == [])
    ensures |DecisionIn(command)| <= 1
    ensures !command.ResolvePendingLearning? ==> DecisionIn(command) == []
  {
  }

  lemma {:induction false} NoDecisions()
    ensures DecisionsOf([]) == [] && EffectsOf(None) == [] && DecisionsIn([]) == [] && Commands([]) == []
    ensures forall command :: DecisionsIn([command]) == DecisionIn(command)
  {
    forall command: Command ensures DecisionsIn([command]) == DecisionIn(command) {
      assert [command][..0] == [];
    }
  }

  method PerformBestEffort(s: ClientSession, call: Call)
    returns (effects: seq<Effect>, ghost added: seq<Command>, ghost decided: seq<bool>)
    requires s.Valid() && call.BestEffort?
    modifies s, s.journal, s.ledger
    ensures s.Valid() && Step(s, call, effects, added, decided) && Kept(s, call)
    ensures Benign(s.callerReused, s.log) ==> old(Benign(s.callerReused, s.log))
  {
    hide ClientSession.Valid, Benign, DecisionsOf, DecisionsIn, DecisionIn, EffectsOf, Refusals, Commands,
      ResolvedOf;
    CountsRefusals(s);
    NoDecisions();
    var r := s.TransactV2BestEffort(call.command, call.supplied);
    effects := EffectsOf(r);
    CountsRefusals(s);
    OneOrNone(call.command, r);
    added, decided := ResolvedOf(Semantic, call.command, r), [];
  }

  method PerformDurable(s: ClientSession, call: Call)
    returns (effects: seq<Effect>, ghost added: seq<Command>, ghost decided: seq<bool>)
    requires s.Valid() && call.Durable?
    modifies s, s.journal, s.ledger
    ensures s.Valid() && Step(s, call, effects, added, decided) && Kept(s, call)
    ensures Benign(s.callerReused, s.log) ==> old(Benign(s.callerReused, s.log))
  {
    hide ClientSession.Valid, Benign, DecisionsOf, DecisionsIn, DecisionIn, EffectsOf, Refusals, Commands,
      ResolvedOf;
    CountsRefusals(s);
    NoDecisions();
    var r := s.TransactV2DurableBestEffort(call.command, call.supplied);
    effects := EffectsOf(r);
    CountsRefusals(s);
    added := if s.resolved + Commands(s.journal.pending) == old(s.resolved + Commands(s.journal.pending))
      then [] else [call.command];
    decided := if s.settled + DecisionsOf(s.journal.pending) == old(s.settled + DecisionsOf(s.journal.pending))
      then [] else DecisionIn(call.command);
    OneOrNone(call.command, r);
  }

  method PerformFinalize(s: ClientSession, preferredCommit: bool)
    requires s.Valid()
    modifies s, s.journal, s.ledger
    ensures s.Dismissed() && s.lapses == old(s.lapses) && s.context == old(s.context)
    ensures Benign(s.callerReused, s.log) ==> old(Benign(s.callerReused, s.log))
  {
    hide ClientSession.Valid, Benign, ClientSession.Forgotten;
    s.FinalizeWithoutUITarget(preferredCommit);
  }

  method PerformFlush(s: ClientSession, call: Call) returns (effects: seq<Effect>)
    requires s.Valid() && call.Flush?
    modifies s, s.journal, s.ledger
    ensures s.Valid() && Step(s, call, effects, [], []) && Kept(s, call)
    ensures Benign(s.callerReused, s.log) ==> old(Benign(s.callerReused, s.log))
  {
    hide ClientSession.Valid, Benign, DecisionsOf, DecisionsIn, EffectsOf, Refusals, Commands,
      ClientSession.Remaining;
    NoDecisions();
    CountsRefusals(s);
    var r := s.FlushPendingV2(call.tryConnect);
    effects := EffectsOf(r.response);
    CountsRefusals(s);
  }

  method PerformChange(s: ClientSession, call: Call)
    requires s.Valid() && call.ChangeContext?
    modifies s, s.journal, s.ledger
    ensures s.Valid() && Step(s, call, [], [], []) && Kept(s, call)
    ensures Benign(s.callerReused, s.log) ==> old(Benign(s.callerReused, s.log))
  {
    hide ClientSession.Valid, Benign, DecisionsOf, DecisionsIn, Refusals, Commands, BroughtOver,
      ClientSession.NothingRetained;
    NoDecisions();
    CountsRefusals(s);
    var r := s.UpdateContext(call.next);
    CountsRefusals(s);
  }

  method PerformOther(s: ClientSession, call: Call)
    requires s.Valid() && (call.Finalize? || call.CloseSession?)
    modifies s, s.journal, s.ledger
    ensures s.Valid() && Step(s, call, [], [], []) && Kept(s, call)
    ensures Benign(s.callerReused, s.log) ==> old(Benign(s.callerReused, s.log))
  {
    hide ClientSession.Valid, Benign, DecisionsOf, DecisionsIn, Refusals, Commands;
    NoDecisions();
    CountsRefusals(s);
    if call.Finalize? {
      PerformFinalize(s, call.preferredCommit);
    } else {
      var r := s.Close(call.tryConnect);
    }
    CountsRefusals(s);
  }

  /** `added` and `decided` are what the call recorded. */
  method Perform(s: ClientSession, call: Call)
    returns (effects: seq<Effect>, ghost added: seq<Command>, ghost decided: seq<bool>)
    requires s.Valid()
    modifies s, s.journal, s.ledger
    ensures s.Valid() && Step(s, call, effects, added, decided) && Kept(s, call)
    ensures Benign(s.callerReused, s.log) ==> old(Benign(s.callerReused, s.log))
  {
    hide ClientSession.Valid, Benign, DecisionsOf, Refusals, Booked, Kept;
    effects, added, decided := [], [], [];
    if call.Transact? {
      effects, added, decided := PerformTransact(s, call);
    } else if call.BestEffort? {
      effects, added, decided := PerformBestEffort(s, call);
    } else if call.Durable? {
      effects, added, decided := PerformDurable(s, call);
    } else if call.Flush? {
      effects := PerformFlush(s, call);
    } else if call.ChangeContext? {
      PerformChange(s, call);
    } else {
      PerformOther(s, call);
    }
  }

  /** The actions recorded since everything was last dismissed, refused or flushed as secure, and their
      learning decisions, behind those settled before. */
  datatype Books = Books(settled: seq<Command>, recorded: seq<Command>, confirmed: seq<bool>, decided: seq<bool>)

  /** The recorded actions are commands of these calls, in the order of the calls. */
  ghost predicate DrawnFrom(recorded: seq<Command>, calls: seq<Call>) {
    recorded == [] ||
    (calls != [] &&
     var earlier := calls[..|calls| - 1];
     || DrawnFrom(recorded, earlier)
     || (Carries(calls[|calls| - 1], recorded[|recorded| - 1]) && DrawnFrom(recorded[..|recorded| - 1], earlier)))
  }

  /** What was recorded is what is settled, followed by what is journaled - in this order. */
  ghost predicate Balanced(b: Books, s: ClientSession)
    reads s, s.journal
  {
    && s.resolved + Commands(s.journal.pending) == b.settled + b.recorded
    && s.settled + DecisionsOf(s.journal.pending) == b.confirmed + b.decided
  }

  /** One more call, which recorded at most its own command. */
  lemma {:induction false} DrawnOn(recorded: seq<Command>, calls: seq<Call>, call: Call, added: seq<Command>)
    requires DrawnFrom(recorded, calls) && (added == [] || (|added| == 1 && Carries(call, added[0])))
    ensures DrawnFrom(recorded + added, calls + [call])
    ensures DecisionsIn(recorded + added) == DecisionsIn(recorded) + DecisionsIn(added)
  {
    assert (calls + [call])[..|calls|] == calls;
    if added == [] {
      assert recorded + added == recorded;
    } else {
      assert (recorded + added)[..|recorded|] == recorded && added[..0] == [];
    }
  }

  /** What holds in every state of every run. */
  ghost predicate RunOk(s: ClientSession, applied: seq<Effect>, books: Books)
    reads s, s.journal, s.ledger
  {
    // The envelopes sent are a function of (session ID, request ID) whenever the server never
    // reissues a session ID and no caller reuses a request ID of its own.
    && (Benign(s.callerReused, s.log) ==> OneEnvelopePerKey(s.log))
    // Text is re-inserted only without a checkpoint or after its explicit rejection, and input is given
    // up only when every form of it was; nothing is left undecided between calls.
    && RecoverySafe(s.log) && !Unknown(s.log)
    // What is held is what the last confirmed snapshots left, and keys go only where it is.
    && s.Tied(s.Held()) && Remembered(s.log, s.epoch, s.context.secureInput)
    && InputKept(s.log, s.epoch, s.lapses)
    // The confirmed effects are the effects of the successful responses, in order.
    && Raws(s.confirmed) == EffectsIn(s.log, s.epoch)
    // Handed-over and buffered effects are exactly the confirmed ones.
    && multiset(s.delivered) + multiset(s.replayedEffects) == multiset(Effects(s.confirmed))
    && (s.ordered ==> s.delivered + s.replayedEffects == Effects(s.confirmed))
    // The settled actions are those of the transcript, in the order of the server's answers, and every
    // recorded action is either settled or still journaled, in recorded order.
    && s.resolved == ResolvedIn(s.log) && Balanced(books, s)
    // Applied is what the ledger let through of what was handed over.
    && applied == Accepted(0, s.delivered)
    && IncreasingIDs(applied)
    // Secure input retains nothing.
    && s.SecureOk()
    // The journal keeps distinct IDs within its bound, with at most the head in flight.
    && DistinctIDs(s.journal.pending) && |s.journal.pending| <= s.journal.limit && OnlyHeadSent(s.journal.pending)
  }

  lemma {:induction false} ValidRunOk(s: ClientSession, applied: seq<Effect>, books: Books)
    requires s.Valid() && applied == Accepted(0, s.delivered) && Balanced(books, s)
    ensures RunOk(s, applied, books)
  {
    hide NumberingOk, NoReuse, Effects, Raws, EffectsIn, ResolvedIn, RecoverySafe, Refusals, Unknown,
      Promised, Issued, SequencedIn, UpTo, Accepted, Remembered, InputKept, MaterialIn, Home, Balanced;
    AcceptedIncrease(0, s.delivered);
    assert Raws(s.confirmed) + [] == Raws(s.confirmed);
    assert s.delivered + s.replayedEffects + [] == s.delivered + s.replayedEffects;
    assert multiset(s.delivered) + multiset(s.replayedEffects) + multiset([]) ==
      multiset(s.delivered) + multiset(s.replayedEffects);
  }

  /** One call, followed by the input method applying what was returned. The books start over only where the
      caller dismissed the input or flushes a secure session, or where the server refused all of it. */
  method PerformAndApply(s: ClientSession, call: Call, ghost calls: seq<Call>, ghost applied0: seq<Effect>,
                         ghost books0: Books)
    returns (ghost applied: seq<Effect>, ghost books: Books)
    requires s.Valid() && applied0 == Accepted(0, s.delivered) && s.ledger.highestApplied == HighWater(0, s.delivered)
    requires Balanced(books0, s) && DrawnFrom(books0.recorded, calls)
    modifies s, s.journal, s.ledger
    ensures s.Valid() && Kept(s, call)
    ensures applied == Accepted(0, s.delivered) && s.ledger.highestApplied == HighWater(0, s.delivered)
    ensures Balanced(books, s) && DrawnFrom(books.recorded, calls + [call])
    ensures ResolvesDurably(call) && books0.decided == DecisionsIn(books0.recorded) ==>
      books.decided == DecisionsIn(books.recorded)
    ensures books.settled != books0.settled || books.confirmed != books0.confirmed ==>
      || Refusals(s.log) > old(Refusals(s.log)) || Dismisses(call, old(s.context))
      || (call.Flush? && old(s.context.secureInput))
    ensures Refusals(s.log) >= old(Refusals(s.log)) && s.dismissals >= old(s.dismissals)
    ensures s.dismissals > old(s.dismissals) ==> Dismisses(call, old(s.context))
  {
    hide ClientSession.Valid, Benign, DecisionsOf, DecisionsIn, Accepted, HighWater, Refusals, Commands,
      DrawnFrom, Kept;
    var effects, added, decided := Perform(s, call);
    ghost var handed :=
      s.delivered == old(s.delivered) + effects && s.ledger.highestApplied == old(s.ledger.highestApplied);
    var now := s.ledger.Apply(effects);
    HighWaterConcat(0, old(s.delivered), effects);
    NothingOffered();
    NoDecisions();
    applied := if handed then applied0 + now else [];
    DrawnOn(books0.recorded, calls, call, added);
    NothingDrawn(calls + [call]);
    books := Books(books0.settled, books0.recorded + added, books0.confirmed, books0.decided + decided);
    if !Balanced(books, s) {
      books := Books(s.resolved, [], s.settled, []);
    }
  }

  /** Any run: every call is followed by the input method applying what was returned. */
  method Run(context: ClientContext, calls: seq<Call>, ghost nextOf: string -> nat)
    returns (s: ClientSession, ghost applied: seq<Effect>, ghost books: Books)
    ensures fresh(s) && s.Valid() && RunOk(s, applied, books) && s.nextOf == nextOf
    ensures (forall k :: 0 <= k < |calls| ==> KeepsOrder(calls[k])) ==> s.ordered
    ensures (forall k :: 0 <= k < |calls| ==> ResolvesDurably(calls[k])) ==>
      |DecisionsOf(s.journal.pending)| <= 1 && books.decided == DecisionsIn(books.recorded)
    ensures (forall k :: 0 <= k < |calls| ==> StaysAttached(calls[k])) ==> s.continuous && s.lapses == {}
    ensures (forall k :: 0 <= k < |calls| ==> !calls[k].Finalize? && !calls[k].ChangeContext?) ==> s.dismissals == 0
    // What was recorded comes from the calls; nothing of it is written off while nobody dismisses anything
    // and the server does not refuse everything.
    ensures DrawnFrom(books.recorded, calls)
    ensures (forall k :: 0 <= k < |calls| ==> !calls[k].Finalize? && !calls[k].ChangeContext?)
            && !context.secureInput && Refusals(s.log) == 0 ==>
      books.settled == [] && books.confirmed == []
    // Whatever the environment answers, as long as it keeps its own promises.
    ensures s.ordered && s.Trusted() && RangeLeft(s.confirmed) ==> applied == s.delivered
  {
    hide ClientSession.Valid, Benign, DecisionsOf, DecisionsIn, Accepted, HighWater, Refusals, Commands,
      DrawnFrom, RunOk, Balanced;
    s := new ClientSession(context, nextOf);
    applied, books := [], Books([], [], [], []);
    NoDecisions();
    NothingOffered();
    NothingDrawn(calls[..0]);
    NothingBooked(s);
    CountsRefusals(s);
    for n := 0 to |calls|
      invariant s.Valid() && fresh(s) && fresh(s.journal) && fresh(s.ledger)
      invariant applied == Accepted(0, s.delivered) && s.ledger.highestApplied == HighWater(0, s.delivered)
      invariant s.nextOf == nextOf
      invariant (forall k :: 0 <= k < n ==> KeepsOrder(calls[k])) ==> s.ordered
      invariant (forall k :: 0 <= k < n ==> StaysAttached(calls[k])) ==>
        s.Attached() && s.continuous && s.Moored() && s.lapses == {}
      invariant (forall k :: 0 <= k < n ==> !calls[k].Finalize? && !calls[k].ChangeContext?) ==>
        s.dismissals == 0 && s.context == context
      invariant (forall k :: 0 <= k < n ==> ResolvesDurably(calls[k])) ==>
        |DecisionsOf(s.journal.pending)| <= 1 && books.decided == DecisionsIn(books.recorded)
      invariant Balanced(books, s) && DrawnFrom(books.recorded, calls[..n])
      invariant (forall k :: 0 <= k < n ==> !calls[k].Finalize? && !calls[k].ChangeContext?)
                && !context.secureInput && Refusals(s.log) == 0 ==>
        books.settled == [] && books.confirmed == []
    {
      applied, books := PerformAndApply(s, calls[n], calls[..n], applied, books);
      assert calls[..n] + [calls[n]] == calls[..n + 1];
    }
    assert calls[..|calls|] == calls;
    ValidRunOk(s, applied, books);
    if s.ordered && s.Trusted() && RangeLeft(s.confirmed) {
      OrderedRunsApplyOnce(s);
    }
  }

  lemma {:induction false} NothingBooked(s: ClientSession)
    requires s.resolved == [] && s.settled == [] && s.journal.pending == []
    ensures Balanced(Books([], [], [], []), s)
  {
  }

  lemma {:induction false} NothingDrawn(calls: seq<Call>)
    ensures DrawnFrom([], calls)
  {
  }

  lemma {:induction false} NothingOffered()
    ensures Accepted(0, []) == [] && HighWater(0, []) == 0
  {
  }

  /** With a server that keeps its promise session by session, an order-keeping client that entered every
      session continuously applies everything handed over exactly once, in confirmation order. */
  lemma {:induction false} OrderedRunsApplyOnce(s: ClientSession)
    requires s.Valid() && s.ordered
    requires s.continuous && Benign(s.callerReused, s.log) && Promised(s.log, s.nextOf) && RangeLeft(s.confirmed)
    ensures Accepted(0, s.delivered) == s.delivered
  {
    hide NoReuse, EffectsIn, RecoverySafe, Refusals, Unknown, Promised, Issued, UpTo, Accepted, LogOk;
    AppliedExactlyOnce(s.numbering, s.namespace, s.confirmed);
    AcceptedIncrease(0, Effects(s.confirmed));
    assert s.delivered + s.replayedEffects + [] == s.delivered + s.replayedEffects == Effects(s.confirmed);
    forall i, j | 0 <= i < j < |s.delivered| ensures s.delivered[i].id < s.delivered[j].id {
      assert s.delivered[i] == Effects(s.confirmed)[i] && s.delivered[j] == Effects(s.confirmed)[j];
    }
    if s.delivered != [] {
      assert s.delivered[0] == Effects(s.confirmed)[0];
      assert Effects(s.confirmed)[0] in Accepted(0, Effects(s.confirmed));
    }
    IncreasingAreAccepted(0, s.delivered);
  }

  /** The client is about to enter a session outside recovery, with everything confirmed handed over.
      Whatever number the session starts from, its effects pass the ledger if and only if no earlier
      session's numbers are mapped - which is exactly when the session is entered continuously. */
  lemma {:induction false} EnteringLosesNothingIff(s: ClientSession)
    requires s.Valid() && s.ordered && s.replayedEffects == [] && s.numbering.next < MAX_UINT64
    requires s.continuous && Benign(s.callerReused, s.log) && Promised(s.log, s.nextOf)
    ensures (forall raw: uint64 :: raw >= 1 ==> NumberOne(s.numbering, raw).1 > HighWater(0, s.delivered))
      <==> !s.numbering.anchored
  {
    hide NoReuse, EffectsIn, RecoverySafe, Refusals, Unknown, Promised, Issued, UpTo, LogOk;
    assert s.delivered + s.replayedEffects + [] == s.delivered == Effects(s.confirmed);
    NewSessionLosesNothingIff(s.numbering, s.namespace, s.confirmed);
  }

  /** The client, which holds no session, enters one outside recovery and sends a key there. The key goes
      where the held input is if and only if there is none - which a caller can see beforehand from the
      checkpoint and the composition. */
  lemma {:induction false} EnteringKeepsInputIff(s: ClientSession, t: string, a: Action, response: Option<Response>)
    requires s.Valid() && s.id == "" && Benign(s.callerReused, s.log)
    requires Opened(t) !in s.log && t !in s.lapses
    ensures InputKept(s.log + [Opened(t)] + [Acted(t, a, Semantic, s.Held(), response)], s.epoch, s.lapses)
      <==> !s.HasMaterial()
  {
    hide NoReuse, EffectsIn, RecoverySafe, Refusals, Unknown, Promised, Issued, UpTo, OneEnvelopePerKey,
      MaterialIn, Home, Remembered, InputKept;
    var entered, key := Opened(t), Acted(t, a, Semantic, s.Held(), response);
    AppendInput(s.log, entered, s.epoch, s.context.secureInput, s.lapses);
    AppendInput(s.log + [entered], key, s.epoch, s.context.secureInput, s.lapses);
    if Home(s.log, s.epoch).Some? {
      HomeWasOpened(s.log, s.epoch, s.nextRequestID);
    }
  }

  lemma {:induction false} KeysLeaveInputBehind(s: ClientSession)
    requires s.Valid() && s.id == "" && s.HasMaterial() && Benign(s.callerReused, s.log)
    ensures forall t: string, a: Action, response: Option<Response> :: Opened(t) !in s.log && t !in s.lapses ==>
      !InputKept(s.log + [Opened(t)] + [Acted(t, a, Semantic, s.Held(), response)], s.epoch, s.lapses)
  {
    hide InputKept, ClientSession.Valid, Benign;
    forall t: string, a: Action, response: Option<Response> | Opened(t) !in s.log && t !in s.lapses
      ensures !InputKept(s.log + [Opened(t)] + [Acted(t, a, Semantic, s.Held(), response)], s.epoch, s.lapses)
    {
      EnteringKeepsInputIff(s, t, a, response);
    }
  }

  lemma {:induction false} OpenedNew(log: seq<Event>, t: string, reused: bool)
    requires Benign(reused, log + [Opened(t)])
    ensures Benign(reused, log) && Opened(t) !in log
  {
    Append(log, Opened(t), 0);
  }

  /** A change of context whose restore stays unanswered leaves the client without a session, holding all it
      held; the next key then opens a session that has none of it, and goes there. */
  method ChangeThenOpen(s: ClientSession, next: ClientContext) returns (reopened: bool)
    requires s.Valid() && s.HasMaterial() && !CrossesDomain(s.context, next)
    modifies s, s.journal, s.ledger
    ensures s.Valid()
    ensures reopened && s.abandonments == old(s.abandonments) ==>
      && s.Held() == old(s.Held()) && s.lapses == old(s.lapses) + {s.id}
      && (Benign(s.callerReused, s.log) && s.id !in old(s.lapses) ==>
            forall a: Action, response: Option<Response> ::
              !InputKept(s.log + [Acted(s.id, a, Semantic, s.Held(), response)], s.epoch, old(s.lapses)))
  {
    hide ClientSession.Valid, Benign, InputKept, BroughtOver;
    reopened := s.UpdateContext(next);
    if reopened || s.id != "" {
      return false;
    }
    ghost var log, lapses := s.log, s.lapses;
    if s.HasMaterial() && Benign(s.callerReused, log) {
      KeysLeaveInputBehind(s);
    }
    reopened := s.OpenIfNeeded(true);
    if Benign(s.callerReused, s.log) && s.id !in lapses && reopened {
      OpenedNew(log, s.id, s.callerReused);
    }
  }

  /** The client closes its session and opens the next one for a key: the numbers of the old session stay
      mapped. With everything confirmed handed over, an effect the new session numbers one is then too old
      for the ledger, or taken. */
  method CloseThenOpen(s: ClientSession) returns (reopened: bool)
    requires s.Valid() && s.id != "" && s.numbering.anchored && s.ordered && s.Trusted()
    modifies s
    ensures s.Valid() && s.numbering == old(s.numbering) && s.delivered == old(s.delivered)
    ensures reopened ==> NumberOne(s.numbering, 1).1 <= HighWater(0, s.delivered) && !s.continuous
  {
    hide ClientSession.Valid, NumberOne, HighWater, Benign, Promised;
    reopened := s.Close(true);
    if reopened {
      FirstAfterClose(s);
      reopened := s.OpenIfNeeded(true);
    }
  }

  lemma {:induction false} FirstAfterClose(s: ClientSession)
    requires s.Valid() && s.numbering.anchored && s.ordered && s.Trusted() && s.replayedEffects == []
    ensures NumberOne(s.numbering, 1).1 <= HighWater(0, s.delivered)
  {
    hide NoReuse, EffectsIn, RecoverySafe, Refusals, Unknown, Promised, Issued, UpTo, LogOk;
    assert s.delivered + s.replayedEffects + [] == s.delivered == Effects(s.confirmed);
    FirstIsLost(s.numbering, s.namespace, s.confirmed);
  }

  lemma {:induction false} CountsRefusals(s: ClientSession)
    requires s.Valid()
    ensures s.abandonments == Refusals(s.log)
  {
  }
}
