/** The server's side of effect numbering: allocation, the checkpoint taken at every revision, and
    restoration in a replacement session
    (hazkey-server/Sources/hazkey-server/CompositionSession.swift:81-147,
    hazkey-server/Sources/hazkey-server/ImeReducer.swift:1577-1649). */
module EffectAllocation {
  import opened ImeProtocol
  import opened Results
  import opened RecoveryMaterial
  import opened Transcript
  import opened EffectContinuity

  /** The counters of a checkpoint; `wellFormed` stands for the checks on its composition. */
  datatype Checkpoint = Checkpoint(
    revision: uint64, nextCandidateGeneration: uint64, nextEffectID: uint64, secureInput: bool, wellFormed: bool)

  /** `&+= 1`. */
  function Wrapped(x: uint64): uint64 {
    if x == MAX_UINT64 then 0 else x + 1
  }

  predicate Restorable(c: Checkpoint, revision: uint64) {
    && !c.secureInput && c.revision >= revision && c.revision < MAX_UINT64
    && c.nextCandidateGeneration < MAX_UINT64
    && 0 < c.nextEffectID < MAX_UINT64 && c.wellFormed
  }

  class CompositionSession {
    var revision: uint64
    var nextCandidateGeneration: uint64
    var nextEffectID: uint64
    const secureInput: bool
    var recoveryCheckpoint: Option<Checkpoint>

    constructor (secureInput: bool)
      ensures this.secureInput == secureInput
      ensures revision == 0 && nextCandidateGeneration == 0 && nextEffectID == 1 && recoveryCheckpoint == None
    {
      this.secureInput := secureInput;
      revision, nextCandidateGeneration, nextEffectID, recoveryCheckpoint := 0, 0, 1, None;
    }

    method AllocateEffectID() returns (id: uint64)
      modifies this`nextEffectID
      ensures id == old(nextEffectID) && nextEffectID == Wrapped(id)
    {
      id := nextEffectID;
      nextEffectID := Wrapped(nextEffectID);
    }

    /** Secure text leaves no checkpoint; otherwise the checkpoint covers every number handed out. */
    method AdvanceRevision(wellFormed: bool)
      modifies this`revision, this`recoveryCheckpoint
      ensures revision == Wrapped(old(revision))
      ensures recoveryCheckpoint == if secureInput then None
        else Some(Checkpoint(revision, nextCandidateGeneration, nextEffectID, false, wellFormed))
    {
      revision := Wrapped(revision);
      if secureInput {
        recoveryCheckpoint := None;
        return;
      }
      recoveryCheckpoint := Some(Checkpoint(revision, nextCandidateGeneration, nextEffectID, secureInput, wellFormed));
    }

    /** One successful action with `count` effects, numbered before its checkpoint is taken. */
    method Act(count: nat, wellFormed: bool) returns (ids: seq<uint64>)
      modifies this
      ensures |ids| == count
      ensures old(nextEffectID) + count <= MAX_UINT64 ==>
        && nextEffectID == old(nextEffectID) + count
        && forall k :: 0 <= k < count ==> ids[k] == old(nextEffectID) + k
      ensures recoveryCheckpoint.Some? <==> !secureInput
      ensures recoveryCheckpoint.Some? ==> recoveryCheckpoint.value.nextEffectID == nextEffectID
    {
      ids := [];
      for n := 0 to count
        invariant |ids| == n
        invariant old(nextEffectID) + count <= MAX_UINT64 ==>
          && nextEffectID == old(nextEffectID) + n
          && forall k :: 0 <= k < n ==> ids[k] == old(nextEffectID) + k
      {
        var id := AllocateEffectID();
        ids := ids + [id];
      }
      AdvanceRevision(wellFormed);
    }

    /** Restores a decoded checkpoint (`None`: not decodable). A refused checkpoint changes nothing; an
        accepted one continues its effect numbers and skips one candidate generation. */
    method RestoreCheckpoint(checkpoint: Option<Checkpoint>, wellFormed: bool) returns (status: Status)
      modifies this
      ensures status == Success <==> !secureInput && checkpoint.Some? && Restorable(checkpoint.value, old(revision))
      ensures status != Success ==>
        && revision == old(revision) && nextCandidateGeneration == old(nextCandidateGeneration)
        && nextEffectID == old(nextEffectID) && recoveryCheckpoint == old(recoveryCheckpoint)
      ensures status == Success ==>
        && revision == checkpoint.value.revision + 1
        && nextCandidateGeneration == checkpoint.value.nextCandidateGeneration + 1
        && nextEffectID == checkpoint.value.nextEffectID
        && recoveryCheckpoint == Some(Checkpoint(revision, nextCandidateGeneration, nextEffectID, false, wellFormed))
    {
      if secureInput { return SecureInputViolation; }
      if checkpoint.None? { return InvalidAction; }
      var c := checkpoint.value;
      if c.secureInput { return SecureInputViolation; }
      if c.revision < revision { return StaleRevision; }
      if c.revision == MAX_UINT64 || c.nextCandidateGeneration == MAX_UINT64
         || c.nextEffectID == 0 || c.nextEffectID == MAX_UINT64 || !c.wellFormed {
        return InvalidAction;
      }
      revision := c.revision;
      nextCandidateGeneration := Wrapped(c.nextCandidateGeneration);
      nextEffectID := c.nextEffectID;
      AdvanceRevision(wellFormed);
      status := Success;
    }
  }

  // ---------------------------------------------------------- keeping the promise

  /** What happens in one session: an action with the effects it has and the rest of its snapshot; the
      latest envelope once more, answered from the request cache; an action answered without success.
      `held` is what the client holds when it sends, `arrives` whether the answer reaches it. */
  datatype Step =
    | Do(action: Action, fallback: bool, held: Material, contents: seq<string>, frame: Snapshot,
         wellFormed: bool, arrives: bool)
    | Again(arrives: bool)
    | Refuse(action: Action, purpose: Purpose, held: Material, response: Option<Response>)

  datatype Restoration = Restoration(action: Action, held: Material, frame: Snapshot, wellFormed: bool, arrives: bool)

  /** The next number in an encoded checkpoint. */
  function NextOf(decode: string -> Option<Checkpoint>): string -> nat {
    (data: string) => if decode(data).Some? then decode(data).value.nextEffectID else 0
  }

  function Total(steps: seq<Step>): nat {
    if steps == [] then 0 else (if steps[0].Do? then |steps[0].contents| else 0) + Total(steps[1..])
  }

  function Numbered(ids: seq<uint64>, contents: seq<string>): (effects: seq<Effect>)
    requires |ids| == |contents|
    ensures |effects| == |ids| && forall k :: 0 <= k < |ids| ==> effects[k].id == ids[k]
  {
    seq(|ids|, k requires 0 <= k < |ids| => Effect(ids[k], contents[k]))
  }

  function Answered(effects: seq<Effect>, frame: Snapshot, revision: uint64,
      recovery: Option<string>): Option<Response> {
    Some(Response(Success, "", ActionResult(Success,
      Some(frame.(revision := revision, effects := effects, recovery := recovery)))))
  }

  /** This answer keeps the promise, and leaves the session's next number above everything issued. */
  ghost predicate Kept(log: seq<Event>, e: Event, next: nat, nextOf: string -> nat) {
    Succeeded(e) &&
    var base := Base(log, e.session, e.purpose, e.action, nextOf);
    AnswerKept(e.response, base, e.held.checkpoint != "", nextOf) && Highest(EffectsOf(e.response), base) < next
  }

  /** The session's next number lies above everything issued, also with its stored answer. */
  ghost predicate Ready(
      log: seq<Event>, s: string, stored: Option<Event>, next: nat, nextOf: string -> nat)
  {
    && Promised(log, nextOf) && Issued(log, s, nextOf) < next
    && (stored.Some? ==> stored.value.session == s && Kept(log, stored.value, next, nextOf))
  }

  lemma {:induction false} ConsecutiveHighest(effects: seq<Effect>, base: nat, from: nat)
    requires base < from && forall k :: 0 <= k < |effects| ==> effects[k].id == from + k
    ensures Highest(effects, base) < from + |effects|
  {
    if effects != [] {
      ConsecutiveHighest(effects[..|effects| - 1], base, from);
    }
  }

  /** Consecutive numbers from above everything issued, with a checkpoint behind the last, keep the promise. */
  lemma {:induction false} ConsecutiveIsKept(
      log: seq<Event>, e: Event, effects: seq<Effect>, frame: Snapshot, revision: uint64,
      recovery: Option<string>, from: nat, nextOf: string -> nat)
    requires e.Acted? && e.purpose != Disposition && e.response == Answered(effects, frame, revision, recovery)
    requires Base(log, e.session, e.purpose, e.action, nextOf) < from
    requires forall k :: 0 <= k < |effects| ==> effects[k].id == from + k
    requires if recovery.Some? then nextOf(recovery.value) == from + |effects| else e.held.checkpoint == ""
    ensures Kept(log, e, from + |effects|, nextOf)
  {
    ConsecutiveHighest(effects, Base(log, e.session, e.purpose, e.action, nextOf), from);
  }

  /** Delivering the stored answer, or losing it once more. */
  lemma {:induction false} Delivered(
      log: seq<Event>, s: string, e: Event, next: nat, nextOf: string -> nat)
    requires Ready(log, s, Some(e), next, nextOf)
    ensures Ready(log + [e], s, None, next, nextOf)
    ensures Ready(log + [e.(response := None)], s, Some(e), next, nextOf)
  {
    hide AnswerKept, Highest, EffectsOf, Promised, Issued;
    AppendPromise(log, e, nextOf);
    AppendPromise(log, e.(response := None), nextOf);
  }

  lemma {:induction false} Unsuccessful(
      log: seq<Event>, s: string, e: Event, stored: Option<Event>, next: nat,
      nextOf: string -> nat)
    requires Ready(log, s, stored, next, nextOf) && e.Acted? && !Succeeded(e)
    ensures Ready(log + [e], s, stored, next, nextOf)
  {
    hide AnswerKept, Highest, EffectsOf, Promised, Issued;
    AppendPromise(log, e, nextOf);
  }

  /** What a session's run looks like from outside. */
  ghost predicate Shows(step: Step, e: Event, s: string) {
    && e.Acted? && e.session == s
    && match step
       case Do(action, fallback, held, contents, _, _, arrives) =>
         && e.action == action && e.purpose == (if fallback then Fallback else Semantic)
         && (arrives ==> IsSuccessful(e.response) && |EffectsOf(e.response)| == |contents|)
       case Again(_) => true
       case Refuse(action, purpose, _, response) => e.action == action && e.purpose == purpose && e.response == response
  }

  /** Restores go to sessions that have issued nothing yet. */
  method ServeRestoration(session: CompositionSession, s: string, r: Restoration, encode: Checkpoint -> string,
                          decode: string -> Option<Checkpoint>, ghost log: seq<Event>)
    returns (e: Event)
    requires forall c :: decode(encode(c)) == Some(c)
    requires r.action.command.RestoreCheckpoint? && session.nextEffectID == 1
    requires Ready(log, s, None, 1, NextOf(decode)) && Issued(log, s, NextOf(decode)) == 0
    modifies session
    ensures Ready(log, s, None, session.nextEffectID, NextOf(decode))
    ensures e.Acted? && e.session == s && e.action == r.action && e.purpose == Restoring
    ensures Succeeded(e) ==> Kept(log, e, session.nextEffectID, NextOf(decode))
    ensures session.nextEffectID == 1 || session.nextEffectID == NextOf(decode)(r.action.command.state) > 0
  {
    var status := session.RestoreCheckpoint(decode(r.action.command.state), r.wellFormed);
    if status != Success {
      return Acted(s, r.action, Restoring, r.held, Some(Response(status, "", ActionResult(status, None))));
    }
    var recovery := Some(encode(session.recoveryCheckpoint.value));
    e := Acted(s, r.action, Restoring, r.held, Answered([], r.frame, session.revision, recovery));
    ConsecutiveIsKept(log, e, [], r.frame, session.revision, recovery, session.nextEffectID, NextOf(decode));
  }

  /** Numbers the effects of an action and takes the checkpoint behind them. */
  method ServeAction(session: CompositionSession, s: string, step: Step, encode: Checkpoint -> string,
                     decode: string -> Option<Checkpoint>, ghost stored: Option<Event>, ghost log: seq<Event>)
    returns (e: Event)
    requires forall c :: decode(encode(c)) == Some(c)
    requires step.Do? && Allowed(step, session.secureInput) && session.nextEffectID + |step.contents| < MAX_UINT64
    requires Ready(log, s, stored, session.nextEffectID, NextOf(decode))
    modifies session
    ensures Ready(log, s, None, session.nextEffectID, NextOf(decode))
    ensures Kept(log, e, session.nextEffectID, NextOf(decode))
    ensures session.nextEffectID == old(session.nextEffectID) + |step.contents|
    ensures e.session == s && e.action == step.action && e.purpose == (if step.fallback then Fallback else Semantic)
    ensures IsSuccessful(e.response) && |EffectsOf(e.response)| == |step.contents|
  {
    ghost var from := session.nextEffectID;
    var ids := session.Act(|step.contents|, step.wellFormed);
    var effects := Numbered(ids, step.contents);
    var recovery := if session.recoveryCheckpoint.Some? then Some(encode(session.recoveryCheckpoint.value)) else None;
    e := Acted(s, step.action, if step.fallback then Fallback else Semantic, step.held,
               Answered(effects, step.frame, session.revision, recovery));
    ConsecutiveIsKept(log, e, effects, step.frame, session.revision, recovery, from, NextOf(decode));
  }

  /** Restores are sent on their own, and nothing is held in a secure session. */
  predicate Allowed(step: Step, secureInput: bool) {
    match step
    case Do(action, _, held, _, _, _, _) =>
      !action.command.RestoreCheckpoint? && (secureInput ==> held.checkpoint == "")
    case Again(_) => true
    case Refuse(_, _, _, response) => !IsSuccessful(response)
  }

  /** The promise the client's exactly-once result rests on, derived: a session that is opened, perhaps
      restored, and then served step by step - with answers lost and repeated envelopes answered from the
      cache - keeps it, as long as its numbers stay within 64 bits. */
  method Serve(s: string, secureInput: bool, restoration: Option<Restoration>, steps: seq<Step>,
               encode: Checkpoint -> string, decode: string -> Option<Checkpoint>)
    returns (log: seq<Event>)
    requires forall c :: decode(encode(c)) == Some(c)
    requires restoration.Some? ==> restoration.value.action.command.RestoreCheckpoint?
    requires forall k :: 0 <= k < |steps| ==> Allowed(steps[k], secureInput)
    requires 1 + Total(steps) < MAX_UINT64
    requires restoration.Some? ==> NextOf(decode)(restoration.value.action.command.state) + Total(steps) < MAX_UINT64
    ensures Promised(log, NextOf(decode))
    ensures |log| == (if restoration.Some? then 2 else 1) + |steps| && log[0] == Opened(s)
    ensures forall k :: 0 <= k < |steps| ==> Shows(steps[k], log[|log| - |steps| + k], s)
  {
    var session := new CompositionSession(secureInput);
    var stored: Option<Event> := None;
    log := [Opened(s)];
    Opening(s, NextOf(decode));
    if restoration.Some? {
      var e := ServeRestoration(session, s, restoration.value, encode, decode, log);
      log, stored := Record(log, s, e, restoration.value.arrives, session.nextEffectID, NextOf(decode));
    }
    ghost var first := |log|;
    hide Ready, Shows, Allowed, Issued;
    for k := 0 to |steps|
      invariant fresh(session) && session.secureInput == secureInput
      invariant Ready(log, s, stored, session.nextEffectID, NextOf(decode))
      invariant session.nextEffectID + Total(steps[k..]) < MAX_UINT64
      invariant |log| == first + k && log[0] == Opened(s)
      invariant forall i :: 0 <= i < k ==> Shows(steps[i], log[first + i], s)
    {
      assert steps[k..][0] == steps[k] && steps[k..][1..] == steps[k + 1..];
      ghost var before := log;
      log, stored := ServeStep(session, s, steps[k], encode, decode, log, stored);
      assert log == before + [log[first + k]];
    }
    IsReady(log, s, stored, session.nextEffectID, NextOf(decode));
  }

  method ServeStep(session: CompositionSession, s: string, step: Step, encode: Checkpoint -> string,
                   decode: string -> Option<Checkpoint>, log: seq<Event>, stored: Option<Event>)
    returns (log': seq<Event>, stored': Option<Event>)
    requires forall c :: decode(encode(c)) == Some(c)
    requires Allowed(step, session.secureInput) && session.nextEffectID + Total([step]) < MAX_UINT64
    requires Ready(log, s, stored, session.nextEffectID, NextOf(decode))
    modifies session
    ensures Ready(log', s, stored', session.nextEffectID, NextOf(decode))
    ensures session.nextEffectID == old(session.nextEffectID) + Total([step])
    ensures |log'| == |log| + 1 && log' == log + [log'[|log|]] && Shows(step, log'[|log|], s)
  {
    hide Promised, Issued, AnswerKept, Highest, Kept;
    assert [step][1..] == [];
    match step {
      case Do(_, _, _, _, _, _, arrives) =>
        var e := ServeAction(session, s, step, encode, decode, stored, log);
        KeptSucceeded(log, e, session.nextEffectID, NextOf(decode));
        log', stored' := Record(log, s, e, arrives, session.nextEffectID, NextOf(decode));
      case Again(arrives) =>
        if stored.Some? {
          KeptSucceeded(log, stored.value, session.nextEffectID, NextOf(decode));
          log', stored' := Record(log, s, stored.value, arrives, session.nextEffectID, NextOf(decode));
        } else {
          var e := Acted(s, Action(NoRequestID, 0, Reconvert), Semantic, NOTHING, None);
          Unsuccessful(log, s, e, stored, session.nextEffectID, NextOf(decode));
          log', stored' := log + [e], stored;
        }
      case Refuse(action, purpose, held, response) =>
        var e := Acted(s, action, purpose, held, response);
        Unsuccessful(log, s, e, stored, session.nextEffectID, NextOf(decode));
        log', stored' := log + [e], stored;
    }
  }

  lemma {:induction false} KeptSucceeded(log: seq<Event>, e: Event, next: nat, nextOf: string -> nat)
    requires Kept(log, e, next, nextOf)
    ensures Succeeded(e)
  {
  }

  lemma {:induction false} IsReady(log: seq<Event>, s: string, stored: Option<Event>, next: nat,
      nextOf: string -> nat)
    requires Ready(log, s, stored, next, nextOf)
    ensures Promised(log, nextOf)
  {
  }

  lemma {:induction false} Opening(s: string, nextOf: string -> nat)
    ensures Ready([Opened(s)], s, None, 1, nextOf) && Issued([Opened(s)], s, nextOf) == 0
  {
    assert [Opened(s)][..0] == [];
  }

  /** An answer is delivered, or lost and kept for a repeated envelope. */
  method Record(log: seq<Event>, s: string, e: Event, arrives: bool, ghost next: nat,
                ghost nextOf: string -> nat)
    returns (log': seq<Event>, stored: Option<Event>)
    requires e.Acted? && e.session == s && Ready(log, s, None, next, nextOf)
    requires Succeeded(e) ==> Kept(log, e, next, nextOf)
    ensures Ready(log', s, stored, next, nextOf)
    ensures log' == log + [if arrives then e else e.(response := None)]
    ensures stored == if Succeeded(e) && !arrives then Some(e) else None
  {
    hide Kept, Issued, Promised;
    if Succeeded(e) {
      Delivered(log, s, e, next, nextOf);
      return log + [if arrives then e else e.(response := None)], if arrives then None else Some(e);
    }
    Unsuccessful(log, s, if arrives then e else e.(response := None), None, next, nextOf);
    return log + [if arrives then e else e.(response := None)], None;
  }
}
