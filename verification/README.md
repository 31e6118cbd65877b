# Hazkey verification project

A Dafny model of the parts of Hazkey that carry protocols and arguments, and proofs about it. `dafny verify
dfyconfig.toml` checks everything.

**IME Protocol v2, client side.** `ImeProtocol`, `RecoveryJournal`, `RecoveryMaterial`, `EffectNumbering`,
`Transcript`, `SessionClient` and `SessionRuns` model a session client that journals semantic actions, sends them over a
transport that may answer anything or nothing, retries, rebases, rebinds them to replacement sessions and
acknowledges them, while it renumbers server effects across server namespaces. The transport is arbitrary. A ghost
transcript records everything opened, sent and closed; a ghost account records every confirmed effect and every
settled action. The invariant `ClientSession.Valid` and the contracts of all operations hold over every run
(`SessionRuns.Run`). The transcript also carries the recovery discipline: no text over an unrejected checkpoint, no key
over an undecided restore, and nothing given up that was not definitely refused. `InputContinuity` reads off the
transcript what the client holds and which session has it, and when a key reaches a session that does not.
`EffectContinuity` states what the server promises about effect numbers, session by session, and what the client must do
for that to carry over to its own namespaces; `EffectAllocation` derives the promise from the server's allocation,
checkpoints and restores.

**Shared stream connector.** `StreamFraming`, `LifecycleQueue` and `ServerConnector` model one resumable
exchange at the head of a byte stream, with a lifecycle queue behind it and three caller policies, over a socket that
moves any part of what it is given.

**Near-duplicate search.** `EditDistance`, `Orders` and `NearDuplicates` prove the two-row distance loop and the
completeness of the 3-gram index with its length filter; the source argues that only in a comment.

**Blind A/B packets.** `BlindPlacement`, `BlindKey`, `BlindScore` and `SignTest`: balanced placement, a key its own
validator accepts, unblinded scores, and the sign test in exact rationals.

**Version requirement tables.** `VersionRequirements` is the bounded walk over an untrusted ELF table;
`VersionLayout` proves that it accepts every table of the usual layout.

**Candidate merging, quality reports and the corpus TSV.** `HybridMerge`, `HybridAccounting`, `ConversionReports`,
`ConversionEvaluation`, `ReportComparison` and `CorpusTsv`.

## Results worth knowing

- The frozen-corpus TSV does not round-trip all rows its field checks admit: `str.splitlines` also breaks at U+2028
  and U+2029, which are not control characters. `CorpusTsv.EncodeThenParse` and `CorpusTsv.ParseThenEncode` give the
  exact conditions, `CorpusTsv.SeparatorLosesRow` a row. The parser's message says that files must use LF line
  endings; it also accepts files whose lines end in another separator, as long as the last one is LF.
- The sign test before capping exceeds one exactly on a draw, so capping matters only there.
- The evaluator filters empty alternatives but not repeated ones, which its validator refuses; the exact agreement is
  `ConversionEvaluation.ProducerValidatorAgreement`.
- One envelope per server cache key needs two things of the environment: the server never hands out a session ID
  twice, and no caller reuses a request ID of its own. Both are explicit (`Transcript.Benign`).
- Exactly-once application of effects fails when a session is closed and the next one is opened by a transaction: `close`
  keeps the map of the old session's numbers, and opening neither restores nor starts a namespace, so a commit of the new
  session can get a number the ledger has already seen. `EffectContinuity.CommitLostAfterClose` is such a run. The exact
  condition is checkable before the open: everything passes if and only if no numbers are mapped
  (`SessionRuns.EnteringLosesNothingIff`). Runs that never leave a session, and replacements entered by recovery, always
  meet it (`SessionRuns.Run`).
- Input can be lost although nothing was refused and nobody dismissed it: a restore after a context change stays
  unanswered, the client keeps checkpoint and text without a session, and the next transaction or flush opens one without
  restoring anything; its answer replaces what was held. `InputContinuity.CompositionLost` is such a run, and
  `SessionRuns.ChangeThenOpen` takes the client there. The exact condition is checkable before the call: a key sent to a
  session opened that way leaves input behind if and only if `hasRecoveryCheckpoint() || hasFallbackComposition()` held
  (`SessionRuns.EnteringKeepsInputIff`). Runs without closes and context changes never meet it (`SessionRuns.Run`).
- The work budget of the version walk refuses only tables with overlapping entries (`AlignedFitBudget`); a table laid
  out back to back uses it up exactly (`StructuresFound`).

## Model

| member | source | states |
|---|---|---|
| `SessionRuns.Run` | fcitx5-hazkey/src/hazkey_session_client.cpp:353-1176 | Every run - any calls, any transport - keeps: one envelope per (session ID, request ID); safe recovery, so that input is given up only where a caller dismissed it or every form of it was definitely refused; what is held is what the last confirmed snapshots left, and a key goes only to the session that has it - confirmed there, or handed over by a restore or re-insertion - except sessions entered while input was held, of which there are none without closes and context changes; handed-over and buffered effects are the confirmed ones, in order when no call overtakes the buffer; settled actions are those the server answered; every recorded action and learning decision is settled or still journaled, in recorded order, since everything was last dismissed, refused or flushed as secure; nothing secure is retained; the journal has distinct IDs, is bounded, and only its head is in flight; at most one learning decision when resolutions use the durable path. When the server keeps its per-session promise and every session is entered continuously - as it always is without closes and context changes - every handed-over effect is applied exactly once. |
| `SessionRuns.ValidRunOk` | fcitx5-hazkey/src/hazkey_session_client.cpp:353-1176 | Each state that satisfies the invariant and the ledger's reading has all of those properties. |
| `SessionRuns.OrderedRunsApplyOnce` | fcitx5-hazkey/src/hazkey_session_client.cpp:860-892 | From the server's promise about each session alone, and sessions entered continuously: everything an order-keeping client hands over passes the high-water mark, in order. |
| `SessionRuns.EnteringLosesNothingIff` | fcitx5-hazkey/src/hazkey_session_client.cpp:895-898 | Before a session is entered outside recovery, with everything handed over: every number it may start from passes the ledger if and only if no earlier session's numbers are still mapped. |
| `SessionRuns.EnteringKeepsInputIff` | fcitx5-hazkey/src/hazkey_session_client.cpp:894-898 | A client without a session enters one outside recovery and sends a key: the key goes where the held input is if and only if it holds neither a checkpoint nor a composition. |
| `SessionRuns.ChangeThenOpen` | fcitx5-hazkey/src/hazkey_session_client.cpp:268-285 | A context change that fails without a refusal keeps all that was held; when the next key then opens a session, whatever it sends there leaves that input behind. |
| `SessionRuns.CloseThenOpen` | fcitx5-hazkey/src/hazkey_session_client.cpp:108-144 | Closing and opening again keeps the old numbers mapped: an effect the next session numbers one does not pass the ledger. |
| `SessionRuns.HighWaterConcat` | fcitx5-hazkey/src/hazkey_state.cpp:434-452 | Applying two batches one after the other accepts and remembers what applying their concatenation does. |
| `SessionRuns.Perform` | fcitx5-hazkey/src/hazkey_session_client.cpp:76-1176 | One call of any kind keeps the invariant, hands over exactly the effects it returns, and leaves settled actions followed by journaled ones as they were, with at most its own command behind them - likewise the learning decisions. This starts over only when the caller dismisses the input, leaves the program or secure domain or flushes a secure session, or with one more recorded refusal of all input - never in a secure session; order, the single-decision bound and continuity are lost only by the kinds of call that may, and a session is entered without the held input only by a client that has no session or leaves it. |
| `SessionRuns.PerformAndApply` | fcitx5-hazkey/src/hazkey_state.cpp:600-664 | One call and the application of what it returned carry on the books: what was recorded is what is settled followed by what is journaled; they are written off only by a dismissal, a refusal of all input or a secure flush. |
| `Transcript.SentKeepsWire` | fcitx5-hazkey/src/hazkey_session_client.cpp:353-369 | Sending - once, or byte for byte twice - an envelope that agrees with everything sent under its key keeps one envelope per key in every session. |
| `Transcript.OpenedIsFresh` | fcitx5-hazkey/src/hazkey_session_client.cpp:76-106 | In a session whose ID the server never used before, no request ID has been used, and every older binding is kept. |
| `Transcript.FreshIsPinned` | fcitx5-hazkey/src/hazkey_session_client.cpp:912-916 | A fresh request number is unused in every session and unmentioned in the journal. |
| `Transcript.NoSessionWire` | fcitx5-hazkey/src/hazkey_session_client.cpp:150-176 | Without a session any journal entry may be sent next, and the discipline still holds. |
| `Transcript.SentReadings` | fcitx5-hazkey/src/hazkey_session_client.cpp:361-369 | What a transmission adds to the confirmed effects, the settled actions and the recovery discipline, whether or not it was repeated. |
| `Transcript.RejectionIsThere` | fcitx5-hazkey/src/hazkey_session_client.cpp:495-523 | The recovery discipline's recursive reading means: some restore of this session was explicitly rejected, and only attempts to re-insert text came after it. |
| `Transcript.GivenUpForCause` | fcitx5-hazkey/src/hazkey_session_client.cpp:561-572 | Wherever a disciplined transcript gives input up, something was held; a held checkpoint had been offered to that session and rejected, so had every text that could be offered, and nothing sent last was done or possibly done. |
| `Transcript.UncertaintyIsRespected` | fcitx5-hazkey/src/hazkey_session_client.cpp:508-523 | Directly after a restore or fallback of unknown outcome a disciplined transcript gives nothing up, sends no semantic action, and inserts no text over an unrejected checkpoint. |
| `Transcript.DecisionsFollowCommands` | fcitx5-hazkey/src/hazkey_session_client.cpp:798-808 | The journaled learning decisions depend on the semantic actions alone, not on IDs, revisions or bindings. |
| `ImeProtocol.ResponsesPartition` | fcitx5-hazkey/src/hazkey_session_client.cpp:16-57 | Successful, uncertain and rejected exclude each other, stale answers are rejections, and a trusted success without a snapshot is uncertain. |
| `RecoveryJournals.RecoveryJournal.Record` | fcitx5-hazkey/src/hazkey_recovery_journal.cpp:5-24 | Appends without evicting; a known ID is accepted only for the same wire binding; a full journal refuses. |
| `RecoveryJournals.RecoveryJournal.Replace` | fcitx5-hazkey/src/hazkey_recovery_journal.cpp:26-44 | Replaces exactly one entry in place, never duplicating another entry's ID. |
| `RecoveryJournals.RecoveryJournal.MarkSent` | fcitx5-hazkey/src/hazkey_recovery_journal.cpp:46-56 | Marks exactly the entry with this ID. |
| `RecoveryJournals.RecoveryJournal.RebaseUnsent` | fcitx5-hazkey/src/hazkey_recovery_journal.cpp:58-72 | Rewrites only an unsent entry. |
| `RecoveryJournals.RecoveryJournal.RebindSent` | fcitx5-hazkey/src/hazkey_recovery_journal.cpp:74-88 | Rewrites only a sent entry. |
| `RecoveryJournals.RecoveryJournal.Acknowledge` | fcitx5-hazkey/src/hazkey_recovery_journal.cpp:90-97 | Drops exactly the entries with this ID and keeps the others in order. |
| `RecoveryJournals.WithoutHead` | fcitx5-hazkey/src/hazkey_recovery_journal.cpp:90-97 | In a duplicate-free journal, acknowledging the head drops the head and nothing else. |
| `RecoveryJournals.WithoutKeepsOthers` | fcitx5-hazkey/src/hazkey_recovery_journal.cpp:90-97 | What remains is duplicate-free and holds exactly the other entries. |
| `RecoveryJournals.RecoveryJournal.Clear` | fcitx5-hazkey/src/hazkey_recovery_journal.cpp:103-106 | Empties the journal and forgets the snapshot. |
| `EffectNumbering.NumberOneOk` | fcitx5-hazkey/src/hazkey_session_client.cpp:810-858 | Numbering one effect keeps the whole history's namespace map, order, range and reasons for dropped effects. |
| `EffectNumbering.NumberAllOk` | fcitx5-hazkey/src/hazkey_session_client.cpp:810-858 | So does numbering all effects of a response. |
| `EffectNumbering.FreshNamespaceOk` | fcitx5-hazkey/src/hazkey_session_client.h:78-83 | A fresh namespace keeps everything numbered so far below what comes next. |
| `EffectNumbering.NumbersAreFaithful` | fcitx5-hazkey/src/hazkey_session_client.cpp:810-858 | Within a namespace the map is strictly increasing both ways; across namespaces the later number is larger, exactly until the last 64-bit number is reached. |
| `EffectNumbering.AppliedAtMostOnce` | fcitx5-hazkey/src/hazkey_effect_ledger.cpp:3-13 | However confirmed effects are reordered, dropped or repeated on delivery, two applied effects never stem from the same server effect. |
| `EffectNumbering.AppliedExactlyOnce` | fcitx5-hazkey/src/hazkey_effect_ledger.cpp:3-13 | Numbers that increase within each of the client's namespaces are all applied, in order, when delivered in confirmation order. The hypothesis is derived for whole runs, see `SessionRuns.OrderedRunsApplyOnce`. |
| `EffectNumbering.AcceptedIncrease` | fcitx5-hazkey/src/hazkey_effect_ledger.cpp:3-13 | What the ledger lets through has strictly increasing numbers above the mark it started from. |
| `EffectNumbering.IncreasingAreAccepted` | fcitx5-hazkey/src/hazkey_effect_ledger.cpp:3-13 | Increasing numbers above the mark are all let through. |
| `EffectNumbering.EffectLedger.Claim` | fcitx5-hazkey/src/hazkey_effect_ledger.cpp:3-13 | Accepts exactly numbers above the high-water mark and raises it. |
| `EffectNumbering.EffectLedger.Clear` | fcitx5-hazkey/src/hazkey_effect_ledger.cpp:15-18 | Resets the mark. |
| `EffectNumbering.EffectLedger.Apply` | fcitx5-hazkey/src/hazkey_state.cpp:622-627 | Applying a batch leaves the mark and the accepted effects of the specification. |
| `EffectAllocation.CompositionSession.AllocateEffectID` | hazkey-server/Sources/hazkey-server/CompositionSession.swift:119-122 | Hands out the next number and wraps like `&+=`. |
| `EffectAllocation.CompositionSession.AdvanceRevision` | hazkey-server/Sources/hazkey-server/CompositionSession.swift:124-146 | Takes a checkpoint covering every number handed out; a secure session keeps none. |
| `EffectAllocation.CompositionSession.Act` | hazkey-server/Sources/hazkey-server/CompositionSession.swift:119-146 | The effects of one action get consecutive numbers, all below the checkpoint's next number. |
| `EffectAllocation.CompositionSession.RestoreCheckpoint` | hazkey-server/Sources/hazkey-server/ImeReducer.swift:1577-1649 | Accepts exactly restorable checkpoints; a refused one changes nothing; an accepted one continues the effect numbers and skips a generation. |
| `EffectAllocation.Serve` | hazkey-server/Sources/hazkey-server/CompositionSession.swift:81-147 | The server keeps the promise the client relies on: a session that is opened, perhaps restored, and served action by action, with answers lost and the latest envelope answered again from the cache, numbers upwards from its checkpoint and covers every number by the next one. |
| `EffectContinuity.PromiseIsPerSession` | hazkey-server/Sources/hazkey-server/CompositionSession.swift:81-147 | The promise concerns each session alone: it is kept on the whole transcript exactly when every session keeps it. |
| `EffectContinuity.SentPromise` | fcitx5-hazkey/src/hazkey_session_client.cpp:353-369 | What a transmission does to the numbers its session has issued: a successful restore continues from its checkpoint, anything else from what the session issued before. |
| `EffectContinuity.AnswerConfirmed` | fcitx5-hazkey/src/hazkey_session_client.cpp:589-624 | Confirming such an answer keeps the numbers increasing in the client's namespace, under its new checkpoint or the one still held. |
| `EffectContinuity.UnanchoredIsEmpty` | fcitx5-hazkey/src/hazkey_session_client.cpp:810-858 | Before its first numbered effect a namespace holds nothing, so any session may be followed in it. |
| `EffectContinuity.FreshFollows` | fcitx5-hazkey/src/hazkey_session_client.h:78-83 | In a namespace just started any session may be followed. |
| `EffectContinuity.NewSessionLosesNothingIff` | fcitx5-hazkey/src/hazkey_session_client.cpp:895-898 | A new session's effects all pass the ledger, whatever they start from, if and only if no earlier session's numbers are mapped. |
| `EffectContinuity.CommitLostAfterClose` | fcitx5-hazkey/src/hazkey_session_client.cpp:108-144 | A run that loses a commit: transact, close, transact. The server keeps its promise and the transcript every discipline, and the second session's first effect gets the first one's number, as `SessionRuns.CloseThenOpen` shows of the client itself. |
| `InputContinuity.SentInput` | fcitx5-hazkey/src/hazkey_session_client.cpp:353-446 | A transmission leaves the material of its confirmed snapshot, held in the session that answered; without a success nothing changes; a recorded and kept input stays so. |
| `InputContinuity.HomeIsThere` | fcitx5-hazkey/src/hazkey_session_client.cpp:370-446 | The session that has the input is the one of the last answer taken over, and the material is what that answer left. |
| `InputContinuity.KeysFollowTheInput` | fcitx5-hazkey/src/hazkey_session_client.cpp:353-369 | A key sent while input is held goes to the very session whose answer that input comes from, unless the session was entered without bringing it over. |
| `InputContinuity.InputMovesWhole` | fcitx5-hazkey/src/hazkey_session_client.cpp:483-579 | Input moves to another session only by a successful restore of exactly the held checkpoint, or insertion of exactly the held text where nothing spoke against it. |
| `InputContinuity.CompositionLost` | fcitx5-hazkey/src/hazkey_session_client.cpp:268-285 | A run that loses a composition although every discipline is kept, nothing is refused and nothing dismissed: an unanswered restore after a context change, then a key. No event offers the held input successfully. |
| `RecoveryMaterial.PlainTextOnly` | fcitx5-hazkey/src/hazkey_session_client.cpp:393-428 | Stored text may be re-inserted exactly after a plainly composing snapshot with no candidate, no active segment, no reconversion and no direct surface since idle. |
| `SessionClient.ClientSession.SendWithRetry` | fcitx5-hazkey/src/hazkey_session_client.cpp:361-369 | Sends one envelope, and the same envelope once more exactly when nothing came back and the retry is allowed; the settled actions grow by this one iff it was settled. No semantic action goes out over an undecided restore or to a session that does not have the held input, no text over an unrejected restore; a session is offered the held checkpoint and text and nothing else. |
| `SessionClient.ClientSession.OpenFresh` | fcitx5-hazkey/src/hazkey_session_client.cpp:76-106 | Opening binds a fresh session or changes nothing, and keeps every journaled and pending binding sendable. |
| `SessionClient.ClientSession.UpdateSnapshot` | fcitx5-hazkey/src/hazkey_session_client.cpp:370-446 | What a snapshot leaves as revision, checkpoint, fallback text, guards and last snapshot; secure input leaves none of it. |
| `SessionClient.ClientSession.NormalizeEffectIDs` | fcitx5-hazkey/src/hazkey_session_client.cpp:810-858 | Renumbers the effects of a response in place and records them as confirmed, keeping all effect accounting. |
| `SessionClient.ClientSession.AttachNamespace` | fcitx5-hazkey/src/hazkey_session_client.cpp:895-898 | Entering a session outside recovery is continuous exactly when nothing is mapped, and the session is recorded as entered without the input exactly when there is some. |
| `SessionClient.ClientSession.CollectResponseEffects` | fcitx5-hazkey/src/hazkey_session_client.cpp:860-871 | Buffers the effects of a confirmed response behind those already buffered. |
| `SessionClient.ClientSession.AttachReplayedEffects` | fcitx5-hazkey/src/hazkey_session_client.cpp:873-892 | Puts the buffered effects in front of the response's own and empties the buffer, or changes nothing when there is no snapshot. |
| `SessionClient.ClientSession.BeginFreshEffectNamespace` | fcitx5-hazkey/src/hazkey_session_client.h:78-83 | Starts a namespace without losing or renumbering any confirmed effect. |
| `SessionClient.ClientSession.ClearEffects` | fcitx5-hazkey/src/hazkey_session_client.h:69-77 | Starts a new effect epoch: nothing confirmed, delivered or buffered, numbering and ledger at their start. |
| `SessionClient.ClientSession.Finish` | fcitx5-hazkey/src/hazkey_session_client.cpp:589-624 | Keeps the verdict; only a trusted success delivers effects or changes the recovery material, which then is what its snapshot leaves. |
| `SessionClient.ClientSession.DiscardServerNamespacePreservingRecovery` | fcitx5-hazkey/src/hazkey_session_client.cpp:150-176 | Disposes of an uncertain replacement with a discarding resolution and a close, keeping every piece of recovery material and the stale binding usable. |
| `SessionClient.ClientSession.FinalizeWithoutUITarget` | fcitx5-hazkey/src/hazkey_session_client.cpp:178-225 | The abandonment boundary asked for by the caller: counted as a dismissal. |
| `SessionClient.ClientSession.Dismiss` | fcitx5-hazkey/src/hazkey_session_client.cpp:178-225 | Transmits the first journaled learning decision - the default only when there is none - then a close, and forgets everything local. |
| `SessionClient.ClientSession.GiveUp` | fcitx5-hazkey/src/hazkey_session_client.cpp:561-572 | Abandons only with material held and every form of it definitely refused in this session; the transcript records exactly what was held. |
| `SessionClient.ClientSession.RestoreInReplacement` | fcitx5-hazkey/src/hazkey_session_client.cpp:495-523 | Recovered means that this session successfully restored exactly the held checkpoint; anything but a success leaves all material as it was, and only an explicit rejection permits the fallback. |
| `SessionClient.ClientSession.InsertFallbackInReplacement` | fcitx5-hazkey/src/hazkey_session_client.cpp:524-560 | Recovered means that this session successfully inserted exactly the held text; it is offered only where it is permitted, and anything but a success leaves all material as it was. |
| `SessionClient.ClientSession.RecoverNamespace` | fcitx5-hazkey/src/hazkey_session_client.cpp:461-579 | A lost session is replaced by a different one in which the action is still unsent, whose numbers continue the namespace and which, if anything was held, has just restored exactly that checkpoint or taken exactly that text; or the stale binding and all material are as before; or material was held and given up for a recorded refusal. No journaled action is settled meanwhile. |
| `SessionClient.ClientSession.RecoverComposition` | fcitx5-hazkey/src/hazkey_session_client.cpp:483-579 | Resumes only with the held checkpoint restored or the held text inserted in the replacement, or with nothing held; otherwise returns to the stale binding with everything kept, or gives up held material with the refusals recorded. |
| `SessionClient.ClientSession.FinishRecovery` | fcitx5-hazkey/src/hazkey_session_client.cpp:508-579 | Uncertain keeps everything and returns to the stale binding; refused with material gives up; refused without material starts a namespace; recovered goes on. |
| `SessionClient.ClientSession.RecoverAndResend` | fcitx5-hazkey/src/hazkey_session_client.cpp:581-587 | Resends in the replacement session the same action under exactly the revision the recovery reached, within the one-envelope discipline. |
| `SessionClient.ClientSession.ExecuteV2` | fcitx5-hazkey/src/hazkey_session_client.cpp:353-624 | One semantic action with recovery over any transport: settled iff its final answer settles it, effects only on success, at least one transmission once a session exists. Afterwards what is held is what the transcript says and the session has it; input is given up only if material was held and its refusal is recorded. |
| `SessionClient.ClientSession.ExecuteInPlace` | fcitx5-hazkey/src/hazkey_session_client.cpp:353-624 | The same without recovery, for restores, re-insertions and the best-effort and lifecycle transports: the same envelope in the same session, nothing abandoned, all material kept on failure; a successful restore or insertion took over exactly what was held. |
| `SessionClient.ClientSession.SendHead` | fcitx5-hazkey/src/hazkey_session_client.cpp:708-726 | The head is marked sent and recorded under the binding and envelope it travelled with, unless the input was given up for recorded refusals. |
| `SessionClient.ClientSession.Settle` | fcitx5-hazkey/src/hazkey_session_client.cpp:757-793 | A success or definite rejection drops exactly the head; an unknown outcome keeps the envelope that travelled; a rejected learning resolution is re-keyed. |
| `SessionClient.ClientSession.ReplaceHead` | fcitx5-hazkey/src/hazkey_session_client.cpp:728-754 | The head gets a fresh ID and the current revision, keeps its meaning, and counts as unsent. |
| `SessionClient.ClientSession.ExecuteJournaledV2` | fcitx5-hazkey/src/hazkey_session_client.cpp:699-796 | The head is settled or kept with its meaning; its tail never changes; a stale answer is returned only after a second transmission. The one exception is input given up for recorded refusals. |
| `SessionClient.ClientSession.PrepareHead` | fcitx5-hazkey/src/hazkey_session_client.cpp:641-667 | An entry that never reached this session takes exactly the current revision; one that did keeps its exact envelope. |
| `SessionClient.ClientSession.ReplayPendingV2` | fcitx5-hazkey/src/hazkey_session_client.cpp:626-697 | Settled actions followed by journaled ones never change: actions leave the journal one by one, in recorded order, only by being settled. True means the journal is empty; false leaves a non-empty suffix, or input given up for recorded refusals; a non-empty journal is always acted on. |
| `SessionClient.ClientSession.NewAction` | fcitx5-hazkey/src/hazkey_session_client.cpp:912-916 | The caller's request ID or a fresh number, under the current revision. |
| `SessionClient.ClientSession.TransactV2` | fcitx5-hazkey/src/hazkey_session_client.cpp:894-976 | The command is settled or waits alone behind a drained journal, or an earlier action still waits; success is reported only when the command itself was settled; exactly the returned effects are handed over. Input is given up only to a recorded refusal of every form of it, and a client that has a session, or holds nothing, sends no key to a session without the input. |
| `SessionClient.ClientSession.OpenIfNeeded` | fcitx5-hazkey/src/hazkey_session_client.cpp:895-898 | Opens exactly when there is no session; numbering and material stay, the new session is continuous exactly when nothing is mapped, and lacks the input exactly when some is held. |
| `SessionClient.ClientSession.TransactSecure` | fcitx5-hazkey/src/hazkey_session_client.cpp:901-928 | Secure text is sent, once more under a fresh ID when stale, never journaled and never given up. |
| `SessionClient.ClientSession.TransactV2BestEffort` | fcitx5-hazkey/src/hazkey_session_client.cpp:978-995 | Sends only when nothing is pending, leaves journal and buffer alone, and hands over exactly its own effects. |
| `SessionClient.ClientSession.HasPendingLearningResolution` | fcitx5-hazkey/src/hazkey_session_client.cpp:798-808 | True exactly when a resolution is journaled. |
| `SessionClient.ClientSession.TransactV2DurableBestEffort` | fcitx5-hazkey/src/hazkey_session_client.cpp:997-1048 | The first resolution wins: a later one changes nothing; the first one is journaled behind everything pending. |
| `SessionClient.ClientSession.SendIfStaged` | fcitx5-hazkey/src/hazkey_session_client.cpp:1038-1047 | A lone resolution of staged learning is transmitted when a session exists; it is settled or kept in order, without disturbing buffered effects. |
| `SessionClient.ClientSession.MakeFlushResponse` | fcitx5-hazkey/src/hazkey_session_client.cpp:1050-1068 | A response exists exactly when there is a snapshot, and then carries and empties the whole buffer. |
| `SessionClient.ClientSession.MakeEffectHandoffResponse` | fcitx5-hazkey/src/hazkey_session_client.cpp:1070-1080 | The same under another status. |
| `SessionClient.ClientSession.TerminalFailureWithEffectHandoff` | fcitx5-hazkey/src/hazkey_session_client.cpp:1104-1143 | A rejected replay hands over every buffered effect it can and is never reported as a success. |
| `SessionClient.ClientSession.FlushPendingV2` | fcitx5-hazkey/src/hazkey_session_client.cpp:1082-1176 | Settles in recorded order, completes only with an empty journal, hands over exactly the returned effects, and with nothing pending returns the whole buffer; input is given up only to recorded refusals and, as in a transaction, never left behind by a client that has a session. |
| `SessionClient.ClientSession.Close` | fcitx5-hazkey/src/hazkey_session_client.cpp:108-144 | Closes only with nothing to replay or hand over; without a session it says whether that is so. Nothing but the binding, the revision and the transcript changes. |
| `SessionClient.ClientSession.RestoreInContext` | fcitx5-hazkey/src/hazkey_session_client.cpp:268-289 | Recovered means that the session just opened successfully restored exactly the held checkpoint; anything else keeps all material. |
| `SessionClient.ClientSession.InsertFallbackInContext` | fcitx5-hazkey/src/hazkey_session_client.cpp:297-331 | Recovered means that exactly the held text was inserted, under a fresh effect namespace; an unknown outcome keeps all material, numbering included. |
| `SessionClient.ClientSession.RestoreAfterReopening` | fcitx5-hazkey/src/hazkey_session_client.cpp:258-351 | Success with material held means that it was restored or re-inserted in the reopened session; an unknown outcome unbinds and keeps everything; otherwise material was held and given up for recorded refusals. The journal changes only when input is given up. |
| `SessionClient.ClientSession.RollBackNumbering` | fcitx5-hazkey/src/hazkey_session_client.cpp:318-327 | Puts the old namespace map back exactly, with every confirmed effect still numbered by it. |
| `SessionClient.ClientSession.FinishReopening` | fcitx5-hazkey/src/hazkey_session_client.cpp:332-351 | Uncertain keeps everything and unbinds; definitely refused gives up; anything else goes on with the journal untouched. |
| `SessionClient.ClientSession.UpdateContext` | fcitx5-hazkey/src/hazkey_session_client.cpp:227-351 | Leaving the program or crossing the secure boundary retains nothing of the old domain; a refused change keeps all material, or - in the same domain - gives it up for recorded refusals; success means a bound session in the new context, which in the same domain has just restored or taken exactly what was held. The journal is untouched unless the domain was left or the input given up. |
| `SessionClient.ClientSession.AbandonUnconfirmedInput` | fcitx5-hazkey/src/hazkey_session_client.cpp:146-148 | Dismisses everything, once. |
| `StreamFraming.DecodeBigEndian` | fcitx5-hazkey/src/hazkey_server_connector.cpp:86-114 | Decoding a length prefix gives the length back. |
| `StreamFraming.BigEndianDecode` | fcitx5-hazkey/src/hazkey_server_connector.cpp:233-244 | Every four bytes are the prefix of their own decoding. |
| `StreamFraming.FramingUnique` | fcitx5-hazkey/src/hazkey_server_connector.cpp:86-114 | A byte stream of length-prefixed frames has one reading. |
| `StreamFraming.StreamFront` | fcitx5-hazkey/src/hazkey_server_connector.cpp:86-114 | The stream of all frames is the stream of all but the last, followed by the last frame. |
| `ServerConnectors.AnswersArePaired` | fcitx5-hazkey/src/hazkey_server_connector.cpp:157-283 | On a live socket, what was written is the frames of the completed exchanges and a prefix of the head's, what was read is their answers and the head's part; the k-th answer belongs to the k-th frame. |
| `ServerConnectors.HeadCompletes` | fcitx5-hazkey/src/hazkey_server_connector.cpp:157-283 | A completed head leaves the stream between two frames. |
| `ServerConnectors.OwnFrameOrRetry` | fcitx5-hazkey/src/hazkey_server_connector.cpp:285-313 | A completed exchange carries its own request, or is the one stale retry of the exchange right before it, with the same session and decision. |
| `ServerConnectors.RetryKeepsDecision` | fcitx5-hazkey/src/hazkey_server_connector.cpp:285-313 | A stale retry changes nothing but request ID and revision. |
| `ServerConnectors.ServerConnector.MakeExchange` | fcitx5-hazkey/src/hazkey_server_connector.cpp:86-114 | A frame that fits gets its length prefix and the budgets of its policy - none for a normal caller, the best-effort or the lifecycle ones otherwise, counted from now; one that does not fit is refused. |
| `ServerConnectors.ServerConnector.SendOutbound` | fcitx5-hazkey/src/hazkey_server_connector.cpp:172-205 | Partial sends, pauses and failures keep the stream synchronised at exact offsets. |
| `ServerConnectors.ServerConnector.ReadHeader` | fcitx5-hazkey/src/hazkey_server_connector.cpp:207-231 | Partial reads of the header keep the stream synchronised. |
| `ServerConnectors.ServerConnector.ReadBody` | fcitx5-hazkey/src/hazkey_server_connector.cpp:246-270 | Partial reads of the body keep the stream synchronised. |
| `ServerConnectors.ServerConnector.AdvanceExchange` | fcitx5-hazkey/src/hazkey_server_connector.cpp:157-283 | Completes only with a whole, parsed answer; pauses only for a caller with a deadline; changes nothing but progress. |
| `ServerConnectors.ServerConnector.HeadDeadline` | fcitx5-hazkey/src/hazkey_server_connector.cpp:575-593 | Never later than the caller's deadline, the head's resume budget from now, or the head's inherited expiry, and always one of these three. |
| `ServerConnectors.ServerConnector.AdvanceOnce` | fcitx5-hazkey/src/hazkey_server_connector.cpp:566-593 | A lifecycle head with 16 advances behind it, and any expired head, is lost without moving a byte; otherwise one attempt is counted. |
| `ServerConnectors.ServerConnector.RetryHead` | fcitx5-hazkey/src/hazkey_server_connector.cpp:599-619 | The stale retry takes the head with the inherited disposition, creation and expiry. |
| `ServerConnectors.ServerConnector.AdvancePending` | fcitx5-hazkey/src/hazkey_server_connector.cpp:566-625 | Ends with the disposition's own final answer, a paused head, or a lost one with its cause; at most one retry. A head that pauses has had one attempt counted, or was finished and is its own retry. |
| `ServerConnectors.ServerConnector.RetryStale` | fcitx5-hazkey/src/hazkey_server_connector.cpp:599-619 | A stale disposition is retried exactly when it is the head's first, and is lost only when the retry cannot be framed. |
| `ServerConnectors.ServerConnector.CloseBrokenSocket` | fcitx5-hazkey/src/hazkey_server_connector.cpp:539-549 | A connected socket is dropped only for a cause that exists - failed I/O, an oversized or unreadable answer, an expired head, spent advances or budget, an unframeable frame - and takes the head and everything queued with it, with the reason recorded. |
| `ServerConnectors.ServerConnector.EnqueueRequest` | fcitx5-hazkey/src/hazkey_server_connector.cpp:511-520 | A disposition is owned before the stream is contended for. |
| `ServerConnectors.ServerConnector.FinishHead` | fcitx5-hazkey/src/hazkey_server_connector.cpp:627-646 | A caller gets the answer only of an exchange made for its own request, and always gets that one. |
| `ServerConnectors.ServerConnector.TakeLifecycleHead` | fcitx5-hazkey/src/hazkey_server_connector.cpp:649-662 | The oldest disposition becomes the head, in order, or dies with its socket. |
| `ServerConnectors.ServerConnector.HandOffNewLifecycleQueue` | fcitx5-hazkey/src/hazkey_server_connector.cpp:648-673 | Afterwards the queue is empty or a head is paused on the stream. |
| `ServerConnectors.ServerConnector.DrainLifecycleQueue` | fcitx5-hazkey/src/hazkey_server_connector.cpp:694-726 | Sends every queued disposition in order; stops only at the caller's own answer, a paused head or a dropped socket. |
| `ServerConnectors.ServerConnector.ServeHead` | fcitx5-hazkey/src/hazkey_server_connector.cpp:675-691 | A caller that finds a paused head counts one attempt on it, finishes it, or drops its socket for a recorded cause, before anything of its own. |
| `ServerConnectors.ServerConnector.TransactOwnFrame` | fcitx5-hazkey/src/hazkey_server_connector.cpp:735-764 | Sends the caller's own frame behind an empty queue and returns its answer, unless the frame is paused at the head or the socket was dropped for a recorded cause. |
| `ServerConnectors.ServerConnector.EnsureSocket` | fcitx5-hazkey/src/hazkey_server_connector.cpp:551-561 | Without a socket nothing queued survives, and only a normal caller connects. |
| `ServerConnectors.ServerConnector.Transact` | fcitx5-hazkey/src/hazkey_server_connector.cpp:495-764 | Any policy over any socket: a response only from an exchange for this request completed in this call; a lifecycle request is ticketed; a normal caller serves a paused head first, leaves the queue empty or a head paused, and misses its answer only when a head is paused, no connection exists, or the socket was dropped - which never happens without a recorded cause. |
| `LifecycleQueues.LifecycleQueue.Enqueue` | fcitx5-hazkey/src/hazkey_server_connector.cpp:515-519 | Keeps the queue duplicate-free and gives the disposition a ticket. |
| `LifecycleQueues.LifecycleQueue.TakeHead` | fcitx5-hazkey/src/hazkey_server_connector.cpp:694-703 | Takes the oldest ticket and records it as head, in order. |
| `LifecycleQueues.LifecycleQueue.RemoveAnswered` | fcitx5-hazkey/src/hazkey_server_connector.cpp:681-687 | Removes exactly the equal disposition, with its reason. |
| `LifecycleQueues.LifecycleQueue.DropDisconnected` | fcitx5-hazkey/src/hazkey_server_connector.cpp:535-549 | Drops everything, each ticket with its reason. |
| `EditDistance.LevenshteinDistance` | tools/dictionary/build_frozen_corpus_v2.py:748-763 | The two-row loop with its length swap computes the edit distance. |
| `EditDistance.EditIsMinimum` | tools/dictionary/build_frozen_corpus_v2.py:748-763 | That distance is the least number of single insertions, deletions and substitutions from one text to the other: some chain has that length and none is shorter. |
| `EditDistance.NoShorterChain` | tools/dictionary/build_frozen_corpus_v2.py:748-763 | No chain of single edits is shorter than the distance. |
| `EditDistance.ShortestChain` | tools/dictionary/build_frozen_corpus_v2.py:748-763 | Some chain of single edits is exactly that long. |
| `EditDistance.Symmetric` | tools/dictionary/build_frozen_corpus_v2.py:748-763 | The distance is symmetric. |
| `EditDistance.LengthBounds` | tools/dictionary/build_frozen_corpus_v2.py:812-818 | It lies between the length difference and the longer length. |
| `EditDistance.ZeroIffEqual` | tools/dictionary/build_frozen_corpus_v2.py:748-763 | It is zero exactly for equal texts. |
| `EditDistance.OneEditLosesThree` | tools/dictionary/build_frozen_corpus_v2.py:784-788 | One edit destroys at most three of a text's 3-character windows. |
| `EditDistance.QGramBound` | tools/dictionary/build_frozen_corpus_v2.py:784-788 | d edits leave all but 3d windows. |
| `NearDuplicates.LevenshteinSimilarity` | tools/dictionary/build_frozen_corpus_v2.py:766-770 | The similarity in basis points. |
| `NearDuplicates.SimilarityThreshold` | tools/dictionary/build_frozen_corpus_v2.py:766-770 | Nine thousand basis points are reached exactly when the distance is at most a tenth of the longer text. |
| `NearDuplicates.NearTextsShareTrigram` | tools/dictionary/build_frozen_corpus_v2.py:784-788 | Every near pair with a non-empty left text shares a 3-gram, so the index misses none. |
| `NearDuplicates.LengthFilter` | tools/dictionary/build_frozen_corpus_v2.py:812-823 | The length filter bounds the similarity from above, so it discards no near pair. |
| `NearDuplicates.BuildPostings` | tools/dictionary/build_frozen_corpus_v2.py:789-796 | The posting lists hold exactly the rows having each gram, in increasing order. |
| `NearDuplicates.CandidatesOfList` | tools/dictionary/build_frozen_corpus_v2.py:798-805 | One posting list proposes exactly its ordered pairs. |
| `NearDuplicates.Candidates` | tools/dictionary/build_frozen_corpus_v2.py:798-805 | The candidates are exactly the pairs sharing a 3-gram. |
| `NearDuplicates.Consider` | tools/dictionary/build_frozen_corpus_v2.py:807-837 | The filtered comparison of one pair reports what the unfiltered comparison does. |
| `NearDuplicates.ConsiderAll` | tools/dictionary/build_frozen_corpus_v2.py:839-846 | Considering candidates in order reports exactly theirs. |
| `NearDuplicates.SelectionSuffices` | tools/dictionary/build_frozen_corpus_v2.py:839-846 | Reporting on a selection equals reporting on all pairs when the rest reports nothing. |
| `NearDuplicates.IndexedIsAllPairs` | tools/dictionary/build_frozen_corpus_v2.py:784-846 | Reporting on the candidates equals reporting on all pairs of the scope. |
| `NearDuplicates.AllPairsMeans` | tools/dictionary/build_frozen_corpus_v2.py:773-847 | The all-pairs reference holds one record for every near formal pair i < j and every near formal-pilot pair, and nothing else. |
| `NearDuplicates.GridElements` | tools/dictionary/build_frozen_corpus_v2.py:773-847 | The reference enumerates every pair of indices once, in order. |
| `NearDuplicates.FindNearDuplicatePairs` | tools/dictionary/build_frozen_corpus_v2.py:773-847 | Fails exactly for an empty formal text; otherwise returns exactly the all-pairs result in report order. |
| `NearDuplicates.SortPairsOrders` | tools/dictionary/build_frozen_corpus_v2.py:847 | The report is a permutation of the records, ordered by scope and identifiers. |
| `Orders.SortIndexPairs` | tools/dictionary/build_frozen_corpus_v2.py:839-841 | Sorting a set of index pairs lists exactly its elements in increasing order. |
| `Orders.StringLeTotal` | tools/dictionary/build_frozen_corpus_v2.py:847 | Code-point order is total and antisymmetric. |
| `Orders.StringLeTransitive` | tools/dictionary/build_frozen_corpus_v2.py:847 | And transitive. |
| `BlindPlacement.GroupByCategory` | tools/dictionary/blind_conversion_ab.py:337-339 | Each category's group holds exactly its cases, without repetition. |
| `BlindPlacement.OddCategoriesAre` | tools/dictionary/blind_conversion_ab.py:344-354 | The odd categories are exactly those of odd size, once each. |
| `BlindPlacement.SizesAreHalves` | tools/dictionary/blind_conversion_ab.py:340-343 | The corpus size is twice the sum of the halves plus the number of odd categories. |
| `BlindPlacement.ExtrasInRange` | tools/dictionary/blind_conversion_ab.py:343 | The extras needed lie between none and all odd categories. |
| `BlindPlacement.Quotas` | tools/dictionary/blind_conversion_ab.py:340-355 | The quotas sum to the target, and each is half of its category, rounded either way only when odd. |
| `BlindPlacement.SortPermutes` | tools/dictionary/blind_conversion_ab.py:357-366 | Sorting by digest is a permutation. |
| `BlindPlacement.Place` | tools/dictionary/blind_conversion_ab.py:327-370 | For every corpus and every digest order the first backend is on X exactly the target number of times, and balanced within one overall and in each category. |
| `BlindPlacement.QuotasBalance` | tools/dictionary/blind_conversion_ab.py:340-370 | Quotas that are halves balance every category and the corpus. |
| `BlindKey.ValidateKey` | tools/dictionary/blind_conversion_ab.py:615-704 | Accepts exactly the keys with distinct handles and identifiers, proper backends, recorded counts that match, and balance overall and in every category. |
| `BlindKey.ReadCases` | tools/dictionary/blind_conversion_ab.py:618-669 | The counters of the loop are the tallies of the cases. |
| `BlindKey.BuildKey` | tools/dictionary/blind_conversion_ab.py:372-421 | Fails exactly on a handle collision; otherwise lists every case once with its category and side, and passes the validator for either order of the backends. |
| `BlindKey.BuiltIsAccepted` | tools/dictionary/blind_conversion_ab.py:372-421 | A balanced placement, filled in, is what the validator accepts. |
| `BlindKey.TallyCountsIDs` | tools/dictionary/blind_conversion_ab.py:660-667 | A tally over distinct cases is the size of the set it counts. |
| `BlindScore.RecordOutcome` | tools/dictionary/blind_conversion_ab.py:796-814 | Adds one judgment to both backends' outcomes and names the preferred backend. |
| `BlindScore.Score` | tools/dictionary/blind_conversion_ab.py:1025-1063 | The overall and per-category outcomes are the totals of the judged cases. |
| `BlindScore.OutcomesMirror` | tools/dictionary/blind_conversion_ab.py:796-814 | One backend's wins are the other's losses, and every case counts once for each. |
| `BlindScore.PlacementIsImmaterial` | tools/dictionary/blind_conversion_ab.py:810-814 | Showing any cases with the sides exchanged changes no score. |
| `BlindScore.SameSignificance` | tools/dictionary/blind_conversion_ab.py:835-843 | Both backends are reported with the same significance. |
| `SignTest.TwoSidedSignTest` | tools/dictionary/blind_conversion_ab.py:835-843 | The loop computes the capped probability; none without a decisive case. |
| `SignTest.TwiceTheTail` | tools/dictionary/blind_conversion_ab.py:835-843 | Unless it is a draw, twice the tail counts at most all outcomes. |
| `SignTest.CappedExactlyOnDraw` | tools/dictionary/blind_conversion_ab.py:835-843 | The probability before capping exceeds one exactly on a draw, and is positive. |
| `SignTest.SymmetricInSides` | tools/dictionary/blind_conversion_ab.py:835-843 | Wins and losses may be exchanged. |
| `SignTest.MoreEvenIsLessSignificant` | tools/dictionary/blind_conversion_ab.py:835-843 | For a fixed total it does not fall as the smaller count grows. |
| `SignTest.RowSum` | tools/dictionary/blind_conversion_ab.py:839-842 | The binomial row sums to the power of two it is divided by. |
| `SignTest.TailsEqual` | tools/dictionary/blind_conversion_ab.py:839-842 | Both tails count the same. |
| `SignTest.ChooseIsQuotient` | tools/dictionary/blind_conversion_ab.py:839-842 | The coefficients are the factorial quotients `math.comb` returns. |
| `SignTest.ChooseSymmetric` | tools/dictionary/blind_conversion_ab.py:839-842 | The coefficients are symmetric. |
| `VersionRequirements.SliceElf` | packaging/scripts/verify_mozc_artifact_bundle.py:379-388 | Succeeds exactly in range, with exactly those bytes. |
| `VersionRequirements.ElfString` | packaging/scripts/verify_mozc_artifact_bundle.py:391-406 | Succeeds exactly when an ASCII string closed by its first NUL starts there, and returns it. |
| `VersionRequirements.OneStringPerOffset` | packaging/scripts/verify_mozc_artifact_bundle.py:391-406 | There is at most one such string. |
| `VersionRequirements.ReadRequirement` | packaging/scripts/verify_mozc_artifact_bundle.py:559-581 | Reads a requirement exactly when it is in range, versioned, non-empty, and within the work left. |
| `VersionRequirements.ReadAuxiliary` | packaging/scripts/verify_mozc_artifact_bundle.py:589-606 | Reads an auxiliary entry exactly when it and its name are in range. |
| `VersionRequirements.WalkAuxiliaries` | packaging/scripts/verify_mozc_artifact_bundle.py:581-616 | The inner loop reads the declared auxiliary entries in order, or the table is not well formed. |
| `VersionRequirements.WalkRequirements` | packaging/scripts/verify_mozc_artifact_bundle.py:541-630 | For any bytes: accepts exactly the well-formed tables - complete chains, in range, no shared structure, within budget - and returns exactly the versions they name; whatever the outcome, the structures read are in range, and they and the one whose reading failed are at distinct offsets and at most one per 16 bytes. |
| `VersionRequirements.ChainMovesForward` | packaging/scripts/verify_mozc_artifact_bundle.py:617-630 | The accepted requirement chain advances at least one structure a step. |
| `VersionRequirements.AuxiliaryChainMovesForward` | packaging/scripts/verify_mozc_artifact_bundle.py:607-616 | So does every auxiliary chain. |
| `VersionRequirements.AlignedFitBudget` | packaging/scripts/verify_mozc_artifact_bundle.py:541-546 | Distinct aligned structures never exceed the budget, so it refuses only tables with overlapping entries. |
| `VersionLayout.LaidOutIsAccepted` | packaging/scripts/verify_mozc_artifact_bundle.py:541-630 | Every table laid out back to back, of any size, is accepted, and its versions are exactly the names it refers to. |
| `VersionLayout.StructuresFound` | packaging/scripts/verify_mozc_artifact_bundle.py:541-630 | On such a table the walk reads every structure once, using exactly the whole budget. |
| `HybridMerge.UniqueSurfaces` | tools/dictionary/evaluate_mozc_hybrid_spike.py:77-91 | The nested loop with its early return yields the first candidates of distinct surface, up to the limit. |
| `HybridMerge.DedupKeepsSurfaces` | tools/dictionary/evaluate_mozc_hybrid_spike.py:77-91 | Deduplication leaves one candidate per surface and loses no surface. |
| `HybridMerge.DedupKeepsOrder` | tools/dictionary/evaluate_mozc_hybrid_spike.py:77-91 | It reads the input at increasing positions. |
| `HybridMerge.FirstsAre` | tools/dictionary/evaluate_mozc_hybrid_spike.py:77-91 | Those are the positions no earlier surface equals. |
| `HybridMerge.UniqueSelects` | tools/dictionary/evaluate_mozc_hybrid_spike.py:77-91 | A limited selection has as many distinct surfaces as the limit allows, headed by the input's head. |
| `HybridMerge.MergeCandidates` | tools/dictionary/evaluate_mozc_hybrid_spike.py:94-140 | The diagnostic policy: its output, its decision, and its one error. |
| `HybridMerge.MergePreservingMozcTop1` | tools/dictionary/evaluate_mozc_hybrid_spike.py:143-172 | The deployed policy H0: its output, its decision, and its one error. |
| `HybridMerge.MergesSelect` | tools/dictionary/evaluate_mozc_hybrid_spike.py:94-172 | Both outputs are duplicate-free, within the limit, from the two lists, and complete when the limit allows. |
| `HybridMerge.MergedTop1` | tools/dictionary/evaluate_mozc_hybrid_spike.py:94-172 | H0's Top-1 is Mozc's whenever Mozc has one; the diagnostic policy differs exactly on one-sided consensus. |
| `HybridMerge.H0KeepsStablePrefix` | tools/dictionary/evaluate_mozc_hybrid_spike.py:143-172 | H0 keeps Mozc's first three, deduplicated, in front. |
| `ConversionReports.ExpectedRank` | tools/dictionary/compare_conversion_quality.py:97-102 | The first position, from one, of an expected candidate; none exactly when there is none. |
| `HybridAccounting.ClassifyMozcTop1Miss` | tools/dictionary/evaluate_mozc_hybrid_spike.py:175-190 | An error exactly on a Top-1 hit; a rescue exactly when Hazkey is first; both absent exactly when neither has it. |
| `HybridAccounting.TopRanks` | tools/dictionary/evaluate_mozc_hybrid_spike.py:299-341 | What the merges guarantee of one case: the hybrid's hit is one backend's, H0 keeps Mozc's hit and rescues only where Mozc is empty. |
| `HybridAccounting.Accounting` | tools/dictionary/evaluate_mozc_hybrid_spike.py:367-380 | Miss classes partition the misses, net hits are rescues less regressions, H0 never regresses, hits are at most the Top-1 oracle, which is at most the union oracle; both oracles in terms of the classes. |
| `HybridAccounting.EvaluateRuns` | tools/dictionary/evaluate_mozc_hybrid_spike.py:284-375 | Every counter is the tally of its metric, and neither internal assertion ever fails. |
| `ConversionReports.ValidateReport` | tools/dictionary/compare_conversion_quality.py:105-252 | Accepts exactly the complete reports whose every number follows from their cases. |
| `ConversionReports.ValidateCases` | tools/dictionary/compare_conversion_quality.py:129-193 | The loop's counts are the tallies of the recomputed ranks. |
| `ConversionReports.TallyBounds` | tools/dictionary/compare_conversion_quality.py:195-206 | Hits are at most the total, so every rate is within zero and one. |
| `ConversionReports.CategoryCounted` | tools/dictionary/compare_conversion_quality.py:217-250 | A category is counted exactly when it has a case, so no rate divides by zero. |
| `ConversionEvaluation.Evaluate` | tools/dictionary/evaluate_conversion_quality.py:94-156 | The evaluator's report is the one of its evaluated cases and missing rows. |
| `ConversionEvaluation.FlagsAreRanks` | tools/dictionary/evaluate_conversion_quality.py:104-106 | The evaluator's two flags say what the validator recomputes from the ranks. |
| `ConversionEvaluation.CasesAreRows` | tools/dictionary/evaluate_conversion_quality.py:98-103 | Nothing is missing exactly when every row has a result, and then the cases are the rows in order. |
| `ConversionEvaluation.ProducerValidatorAgreement` | tools/dictionary/evaluate_conversion_quality.py:94-156 | The validator accepts the evaluator's report exactly when the window is positive, the corpus is non-empty with distinct identifiers, every row has a result, alternatives are distinct and the observed candidates are non-empty. |
| `ReportComparison.CompareReports` | tools/dictionary/compare_conversion_quality.py:281-354 | Succeeds exactly for distinct names and two valid reports on the same cases, with winners, deltas and metrics of the specification. |
| `ReportComparison.WinnerRanksBetter` | tools/dictionary/compare_conversion_quality.py:267-278 | A backend wins exactly with the better rank; a tie is exactly equality. |
| `ReportComparison.WinsPartition` | tools/dictionary/compare_conversion_quality.py:302-309 | Wins and ties add up to the cases. |
| `ReportComparison.SwapReports` | tools/dictionary/compare_conversion_quality.py:281-354 | Swapping the reports swaps the wins, keeps the ties and negates every delta. |
| `ReportComparison.DeltaWithinWins` | tools/dictionary/compare_conversion_quality.py:338-344 | No hit delta exceeds the winner's wins. |
| `CorpusTsv.KatakanaToHiragana` | tools/dictionary/build_frozen_corpus.py:197-207 | The loop maps the code points between two normalizations. |
| `CorpusTsv.ParseTsv` | tools/dictionary/build_frozen_corpus.py:309-337 | Succeeds exactly on texts that hold some rows, and returns those. |
| `CorpusTsv.OneReading` | tools/dictionary/build_frozen_corpus.py:309-337 | A text holds at most one list of rows. |
| `CorpusTsv.EncodeThenParse` | tools/dictionary/build_frozen_corpus.py:221-228 | Encoded rows are read back if and only if every row passes the parser's own checks and holds neither U+2028 nor U+2029. |
| `CorpusTsv.EncodedOnlyIfClean` | tools/dictionary/build_frozen_corpus.py:309-337 | Valid rows whose encoding parses at all hold no such separator. |
| `CorpusTsv.ParseThenEncode` | tools/dictionary/build_frozen_corpus.py:221-228 | Encoding a parse restores the text if and only if LF is its only line break. |
| `CorpusTsv.SeparatorLosesRow` | tools/dictionary/build_frozen_corpus.py:210-218 | A concrete row that passes every field check and cannot be read back. |

## Left out

- Sockets, `select`, process start, connection retries and real clocks: nondeterministic outcomes and ticks; loops over
  them carry an arbitrary bound on attempts that achieve nothing.
- The Protobuf wire format: a message is its value, so serialization always succeeds and is injective; the branches for
  unparsable journal entries and failed serialization are not part of this model.
- SHA-256, HMAC, JSON and Unicode normalization: arbitrary functions or parameters.
- The recovery and UI callbacks, Fcitx and Qt code, and the Swift converter and reducer beyond numbering and restore.
- Wilson intervals and percentile statistics: floating-point rounding is their point. The adoption gates, license and
  bundle audits: long equality checks.
- `session_client` context fields other than program, frontend and the secure flag; snapshot fields the client never reads.
- SessionClient.ClientSession: the request counter is unbounded where the source has a 64-bit one; the flags against text
  fallback and the numbering fields are grouped in two records.
- SessionClient.ClientSession.ExecuteV2: the source's one function with an allowSessionRecovery flag is two methods here, with
  recovery (`ExecuteV2`) and without (`ExecuteInPlace`).
- SessionRuns.Run: the order of handed-over effects is promised only for runs without best-effort and durable calls,
  because those do not attach the buffer; the collection of effects is conserved in every run.
- EffectNumbering.AppliedExactlyOnce: holds while the 64-bit range lasts; at saturation numbers repeat, as in the source.
- EffectAllocation.Serve: holds while a session's numbers stay below 2^64 - 1, because the source's counter wraps; a
  repeated envelope is the session's latest one, as the client repeats them, so older cache entries are not modelled; a
  checkpoint that cannot be encoded, which the source silently leaves out, is not part of this model.
- EffectContinuity.SentPromise: a caller that itself sends a RestoreCheckpoint command as an ordinary action is covered by
  the recovery and envelope disciplines, but the promise assumed of the server then does not describe that restore.
- Generated request IDs are structural, so a caller-supplied ID that spells a generated one, such as "fcitx-7", never equals
  it here; in the source it would collide.
- ServerConnectors.ServerConnector.Transact: the stream and queue locks are a nondeterministic failure to lock and
  arrivals between steps; the exchange is a value in a field; no claim is made that an answer eventually arrives.
- NearDuplicates.FindNearDuplicatePairs: works on rows after near-text normalization, which is a parameter; fingerprints
  and the review file are not part of this model.
- BlindKey.ValidateKey: covers the duplicate, backend, count and balance checks, not hashes, schema and JSON shape.
- BlindPlacement.Place: digests are arbitrary sort keys.
- SignTest.TwoSidedSignTest: exact rationals where the source divides floats.
- VersionRequirements.WalkRequirements: starts at the two sliced tables; the ELF header, program headers, interpreter and
  section lookup before it, and the version comparison after it, are not part of this model. Error messages are merged.
- HybridAccounting.EvaluateRuns: counters only; input validation, per-case records and rates are left out.
- ConversionReports.ValidateReport: typed fields replace the JSON type checks; rates are exact with the source's absolute
  tolerance.
- ConversionEvaluation.Evaluate: rates are exact where the source divides floats; reading the corpus and result files is
  not part of this model.
- ReportComparison.CompareReports: names are taken as already stripped; the input and output files are left out.
- CorpusTsv.ParseTsv: works on decoded text, so invalid UTF-8 is not part of this model; error messages are merged.
