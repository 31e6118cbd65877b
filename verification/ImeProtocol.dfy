/** Values of IME Protocol v2 as the client sees them (protocol/base.proto,
    protocol/commands.proto), and the response predicates of
    fcitx5-hazkey/src/hazkey_session_client.cpp:16-57. */
module ImeProtocol {
  import opened Results

  const MAX_UINT64: int := 0xFFFF_FFFF_FFFF_FFFF

  type uint64 = x: int | 0 <= x <= MAX_UINT64

  datatype Status =
    | Unspecified | Success | Failed | SessionNotFound | StaleRevision | StaleCandidate
    | InvalidAction | ConverterUnavailable | SecureInputViolation | MalformedRequest
    | RetryableTransportError

  datatype Phase =
    | PhaseUnspecified | Idle | Composing | Previewing | Selecting | Reconverting | UnicodeInput

  datatype Style = StyleUnspecified | Plain | Underline | Active

  datatype Span = Span(text: string, style: Style)

  /** A client effect: its number and everything else it carries. */
  datatype Effect = Effect(id: uint64, content: string)

  /** `others` stands for the snapshot fields this client never inspects. */
  datatype Snapshot = Snapshot(
    revision: uint64, phase: Phase, preedit: seq<Span>, candidateCount: nat,
    effects: seq<Effect>, recovery: Option<string>, pendingLearning: bool, others: string)

  datatype Payload =
    | NoPayload
    | TopLevelSnapshot(top: Snapshot)
    | ActionResult(inner: Status, snapshot: Option<Snapshot>)
    | OpenResult(sessionID: string, protocolVersion: nat, featureBits: uint64,
                 maxSnapshotVersion: nat, recoverySupport: bool,
                 idempotentRequestSupport: bool, persistentLearning: Option<bool>)

  datatype Response = Response(status: Status, errorMessage: string, payload: Payload)

  /** The prefixes under which the client numbers its own request IDs. */
  datatype Prefix =
    | PlainPrefix | SecurePrefix | BestEffortPrefix | DurablePrefix | LearningRetryPrefix
    | RecoverPrefix | FallbackPrefix | ContextRestorePrefix | ContextFallbackPrefix
    | AbandonPrefix | DiscardPrefix | LifecyclePrefix

  datatype RequestID =
    | NoRequestID
    | Generated(prefix: Prefix, number: nat)
    | Supplied(text: string)

  datatype Command =
    | InsertText(text: string)
    | RestoreCheckpoint(state: string)
    | ResolvePendingLearning(commit: bool)
    | Reconvert
    | CommitUnicodeInput
    | TransformActiveSegment(form: nat)
    | OtherCommand(bytes: string)

  /** A HandleImeAction message. Two messages are equal iff their serializations are. */
  datatype Action = Action(requestID: RequestID, expectedRevision: uint64, command: Command)

  datatype ClientContext = ClientContext(program: string, frontend: string, secureInput: bool)

  datatype Capabilities = Capabilities(
    protocolVersion: nat, featureBits: uint64, maxSnapshotVersion: nat, recoverySupport: bool,
    idempotentRequestSupport: bool, persistentLearning: Option<bool>)
  {
    predicate SupportsV2() {
      protocolVersion >= 2 && idempotentRequestSupport
    }
  }

  // ------------------------------------------------------ response predicates

  predicate HasSnapshot(r: Response) {
    r.payload.ActionResult? && r.payload.snapshot.Some?
  }

  predicate IsStale(r: Option<Response>) {
    && r.Some? && r.value.status == StaleRevision
    && r.value.payload.ActionResult? && r.value.payload.inner == StaleRevision
  }

  predicate IsSuccessful(r: Option<Response>) {
    && r.Some? && r.value.status == Success
    && HasSnapshot(r.value) && r.value.payload.inner == Success
  }

  predicate IsUncertain(r: Option<Response>) {
    if r.None? || r.value.status in {Unspecified, SessionNotFound, RetryableTransportError} then true
    else if r.value.status != Success then false
    else if !r.value.payload.ActionResult? then true
    else
      || r.value.payload.inner in {Unspecified, SessionNotFound, RetryableTransportError}
      || (r.value.payload.inner == Success && r.value.payload.snapshot.None?)
  }

  /** The server definitely answered, and definitely did not perform the action. */
  predicate IsRejected(r: Option<Response>) {
    !IsSuccessful(r) && !IsUncertain(r)
  }

  predicate TrustedSuccess(r: Response) {
    r.status == Success && r.payload.ActionResult? && r.payload.inner == Success
  }

  /** The effects a response carries for the caller. */
  function EffectsOf(r: Option<Response>): seq<Effect> {
    if r.Some? && HasSnapshot(r.value) then r.value.payload.snapshot.value.effects else []
  }

  function WithEffects(r: Response, effects: seq<Effect>): (w: Response)
    requires HasSnapshot(r)
    ensures HasSnapshot(w) && w.status == r.status && w.payload.inner == r.payload.inner
    ensures EffectsOf(Some(w)) == effects
  {
    r.(payload := r.payload.(snapshot := Some(r.payload.snapshot.value.(effects := effects))))
  }

  /** A response is exactly one of successful, uncertain and rejected, and a stale answer is a
      rejection: the client never treats one answer two ways. */
  lemma {:induction false} ResponsesPartition(r: Option<Response>)
    ensures !(IsSuccessful(r) && IsUncertain(r))
    ensures IsStale(r) ==> IsRejected(r)
    ensures IsSuccessful(r) <==> r.Some? && TrustedSuccess(r.value) && HasSnapshot(r.value)
    ensures r.Some? && TrustedSuccess(r.value) && !IsSuccessful(r) ==> IsUncertain(r)
  {
  }
}
