/** What the client holds to bring a composition over to another session: the server's checkpoint, the
    visible text, and the reasons why that text may not be inserted again
    (fcitx5-hazkey/src/hazkey_session_client.cpp:370-446, hazkey_session_client.h). */
module RecoveryMaterial {
  import opened ImeProtocol
  import opened Results

  /** The four reasons why the visible text may not be re-inserted as plain text. */
  datatype FallbackGuards = FallbackGuards(
    reconversion: bool, unicode: bool, direct: bool, presentation: bool)

  const NO_GUARDS := FallbackGuards(false, false, false, false)

  datatype Material = Material(checkpoint: string, text: string, guards: FallbackGuards)

  const NOTHING := Material("", "", NO_GUARDS)

  predicate Holding(m: Material) {
    m.checkpoint != "" || m.text != ""
  }

  predicate PlainText(m: Material) {
    m.text != "" && m.guards == NO_GUARDS
  }

  function PreeditText(spans: seq<Span>): string {
    if spans == [] then "" else PreeditText(spans[..|spans| - 1]) + spans[|spans| - 1].text
  }

  ghost predicate HasActiveSpan(spans: seq<Span>) {
    exists k :: 0 <= k < |spans| && spans[k].style == Active
  }

  ghost function GuardsAfter(g: FallbackGuards, s: Snapshot, c: Command): FallbackGuards {
    FallbackGuards(
      s.phase != Idle && (g.reconversion || c.Reconvert? || s.phase == Reconverting),
      s.phase == Phase.UnicodeInput,
      s.phase != Idle && (g.direct || c.CommitUnicodeInput? || c.TransformActiveSegment?),
      s.phase != Composing || s.candidateCount != 0 || HasActiveSpan(s.preedit))
  }

  /** Stored text is re-inserted only after a plainly composing snapshot: no candidate window,
      no active segment, and no reconversion or direct surface since the last idle phase. */
  lemma {:induction false} PlainTextOnly(g: FallbackGuards, s: Snapshot, c: Command)
    ensures var g' := GuardsAfter(g, s, c);
      !g'.reconversion && !g'.unicode && !g'.direct && !g'.presentation <==>
        && s.phase == Composing && s.candidateCount == 0 && !HasActiveSpan(s.preedit)
        && !g.reconversion && !g.direct
        && !c.Reconvert? && !c.CommitUnicodeInput? && !c.TransformActiveSegment?
  {
  }

  /** The material a confirmed snapshot leaves: its text, and its checkpoint or - when it brings none - the
      one held before. */
  ghost function Taken(m: Material, s: Snapshot, c: Command): Material {
    Material(if s.recovery.Some? then s.recovery.value else m.checkpoint, PreeditText(s.preedit),
             GuardsAfter(m.guards, s, c))
  }

  /** Effects are no recovery material. */
  lemma {:induction false} TakenIgnoresEffects(m: Material, s: Snapshot, effects: seq<Effect>, c: Command)
    ensures Taken(m, s.(effects := effects), c) == Taken(m, s, c)
  {
  }
}
