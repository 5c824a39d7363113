/** `process_segments`: every segment goes through stage 1 (transcription of
    the audio) and stage 2 (clean-up of the raw text). A stage whose artifact
    file already exists is skipped; otherwise a project is selected afresh
    from the ledger, the remote call is made, its estimated cost is recorded
    only when it succeeded, and its text (or an error marker when it failed) is
    written as the artifact. The run stops with `None` as soon as no project is
    available. The artifact files are a map keyed by (segment, stage); the
    remote calls are oracles (`SegmentInputs`); each call made is logged with
    the project and the prompt it used. */
module Pipeline {
  import opened Text
  import opened Optional
  import opened Ledger
  import opened Remote

  /** `raw_{i:03d}.txt` and `processed_{i:03d}.txt`. */
  datatype Stage = Raw | Processed

  type Artifacts = map<(nat, Stage), string>

  /** What the outside world does for one segment: the duration of the
      exported segment as the audio library reads it back, the date each
      `get_available_project` sees, what each stage-1 request would do, and
      what the single stage-2 request would do. */
  datatype SegmentInputs = SegmentInputs(
    durationMs: nat,
    transcriptionDay: string,
    transcriptionAttempts: seq<Attempt>,
    cleanupDay: string,
    cleanupAttempt: Attempt)

  predicate InputsWellFormed(inputs: seq<SegmentInputs>) {
    forall k :: 0 <= k < |inputs| ==> |inputs[k].transcriptionAttempts| >= MaxRetries
  }

  /** One remote stage invocation: segment, stage, the project it was billed
      to, and the prompt text sent. */
  datatype RemoteCall = RemoteCall(segment: nat, stage: Stage, projectId: string, prompt: string)

  /** Everything a run changes: the ledger, the artifact files, the calls made,
      `processed_transcriptions`, and every `time.sleep` in order. */
  datatype RunState = RunState(
    ledger: LedgerState,
    artifacts: Artifacts,
    calls: seq<RemoteCall>,
    outputs: seq<string>,
    sleeps: seq<nat>)

  datatype StageResult =
    | Aborted(state: RunState)
    | Completed(state: RunState, text: string)

  // ----- prompts -----------------------------------------------------------

  /** Where a segment sits in the recording, as the prompt suffixes see it. */
  datatype Position = First | Last | Middle

  /** `if i == 0 ... elif i == len(segments) - 1 ... else ...`: a single
      segment counts as the first, not the last. */
  function PositionOf(i: nat, n: nat): (p: Position)
    ensures p == First <==> i == 0
    ensures p == Last <==> i != 0 && i + 1 == n
  {
    if i == 0 then First else if i + 1 == n then Last else Middle
  }

  /** `(חלק {i+1} מתוך {n})`. */
  function PartOf(i: nat, n: nat): string {
    "(חלק " + NatToString(i + 1) + " מתוך " + NatToString(n) + ")"
  }

  /** The suffix that `process_segments` adds to the stage-1 prompt: a blank
      line, then the segment's place; a segment other than the first also
      gets its part number out of `n`. */
  function TranscriptionSuffix(i: nat, n: nat): (suffix: string)
    ensures StartsWith(suffix, "\n\n")
    ensures PositionOf(i, n) != First ==> EndsWith(suffix, PartOf(i, n) + ".")
  {
    var sentence := match PositionOf(i, n)
      case First => "זהו החלק הראשון של ההקלטה."
      case Last => "זהו החלק האחרון של ההקלטה " + (PartOf(i, n) + ".")
      case Middle => "זהו חלק אמצעי של ההקלטה " + (PartOf(i, n) + ".");
    var suffix := "\n\n" + sentence;
    assert suffix[..2] == "\n\n";
    assert PositionOf(i, n) != First ==> suffix[|suffix| - |PartOf(i, n) + "."|..] == PartOf(i, n) + ".";
    suffix
  }

  /** The stage-1 prompt: the base prompt, kept as it is, then the suffix. */
  function TranscriptionPrompt(base: string, i: nat, n: nat): (prompt: string)
    ensures StartsWith(prompt, base) && EndsWith(prompt, TranscriptionSuffix(i, n))
  {
    var prompt := base + TranscriptionSuffix(i, n);
    assert prompt[..|base|] == base;
    assert prompt[|prompt| - |TranscriptionSuffix(i, n)|..] == TranscriptionSuffix(i, n);
    prompt
  }

  const CleanupInstruction: string := "עבד את הטקסט הגולמי לתמלול נקי ומדויק."

  /** The stage-2 system message of `process_segments`: the base prompt and
      a blank line, the segment's place (with its part number unless it is
      the first), and the clean-up instruction. */
  function CleanupSystemMessage(base: string, i: nat, n: nat): (m: string)
    ensures StartsWith(m, base + "\n\n")
    ensures EndsWith(m, CleanupInstruction)
  {
    var m := base + "\n\n" + CleanupPlace(i, n) + CleanupInstruction;
    assert m[..|base + "\n\n"|] == base + "\n\n";
    assert m[|m| - |CleanupInstruction|..] == CleanupInstruction;
    m
  }

  /** The sentence of the stage-2 system message that names the segment's
      place. */
  function CleanupPlace(i: nat, n: nat): string {
    match PositionOf(i, n)
    case First => "זהו החלק הראשון של השיעור. "
    case Last => "זהו החלק האחרון של השיעור " + PartOf(i, n) + ". "
    case Middle => "זהו חלק אמצעי של השיעור " + PartOf(i, n) + ". "
  }

  /** The stage-2 prompt: the system message, then the raw text. */
  function CleanupPrompt(base: string, i: nat, n: nat, raw: string): (prompt: string)
    ensures EndsWith(prompt, raw)
  {
    var prompt := CleanupSystemMessage(base, i, n) + "\n\nטקסט גולמי לעיבוד:\n" + raw;
    assert prompt[|prompt| - |raw|..] == raw;
    prompt
  }

  /** The base prompt of `process_segments`: the custom prompt unless it is
      blank. */
  function BasePrompt(custom: string, defaultPrompt: string): (base: string)
    ensures Strip(custom) == "" ==> base == defaultPrompt
    ensures Strip(custom) != "" ==> base == custom
  {
    if Strip(custom) == "" then defaultPrompt else custom
  }

  // ----- token estimates ---------------------------------------------------

  /** `int(seconds * 5)`: five tokens per second of audio, truncated, i.e. one
      token per full 200 ms. */
  function TranscriptionTokens(durationMs: nat): (t: nat)
    ensures t * 200 <= durationMs < (t + 1) * 200
  {
    var t := durationMs * 5 / 1000;
    assert durationMs * 5 == t * 1000 + (durationMs * 5) % 1000;
    t
  }

  /** `int(len(prompt) * 1.5) + int(len(raw_text) * 2)`. */
  function CleanupTokens(prompt: string, raw: string): (t: nat)
    ensures 2 * t <= 3 * |prompt| + 4 * |raw| < 2 * t + 2
  {
    3 * |prompt| / 2 + 2 * |raw|
  }

  // ----- error markers -----------------------------------------------------

  const ErrorOpen: string := "[שגיאה: "

  /** The stage-1 artifact after a failure, written by the handler of stage 1. */
  function TranscriptionErrorText(i: nat, message: string): (r: string)
    ensures |ErrorOpen| <= |r| && r[..|ErrorOpen|] == ErrorOpen
    ensures EndsWith(r, message + "]")
  {
    var r := ErrorOpen + "שגיאה בתמלול מקטע " + NatToString(i + 1) + ": " + message + "]";
    assert r[|r| - |message + "]"|..] == message + "]";
    r
  }

  /** The stage-2 artifact after a failure, written by the handler of
      stage 2: the marker, a blank line, and the raw text so that nothing is
      lost. */
  function CleanupErrorText(i: nat, message: string, raw: string): (r: string)
    ensures |ErrorOpen| <= |r| && r[..|ErrorOpen|] == ErrorOpen
    ensures EndsWith(r, "]\n\n" + raw)
  {
    var r := ErrorOpen + "שגיאה בעיבוד מקטע " + NatToString(i + 1) + " עם LLM: " + message + "]\n\n" + raw;
    assert r[|r| - |"]\n\n" + raw|..] == "]\n\n" + raw;
    r
  }

  // ----- the stages --------------------------------------------------------

  /** `if not project_id`: no project, or an empty id. */
  predicate Unavailable(chosen: Option<string>) {
    chosen.None? || chosen.value == ""
  }

  /** No listed id is the empty string. */
  predicate NoBlankIds(ids: seq<string>) {
    forall j :: 0 <= j < |ids| ==> ids[j] != ""
  }

  /** What one stage may do to the files and the log: every existing artifact
      stays as it is, only the stage's own artifact can be added, a completed
      stage's text is that artifact, and at most one call is logged, for that
      artifact, and only when it was missing. */
  predicate StageEffect(st: RunState, r: StageResult, i: nat, stage: Stage) {
    && r.state.outputs == st.outputs
    && (forall key :: key in st.artifacts ==> key in r.state.artifacts && r.state.artifacts[key] == st.artifacts[key])
    && (forall key :: key in r.state.artifacts && key !in st.artifacts ==> key == (i, stage))
    && (r.Completed? ==> (i, stage) in r.state.artifacts && r.text == r.state.artifacts[(i, stage)])
    && |st.calls| <= |r.state.calls| <= |st.calls| + 1 && r.state.calls[..|st.calls|] == st.calls
    && (|r.state.calls| > |st.calls| ==>
          && (i, stage) !in st.artifacts
          && r.state.calls[|st.calls|].segment == i && r.state.calls[|st.calls|].stage == stage)
  }

  /** The ledger only grows: it stays well formed, keeps every project, and no
      total usage goes down. */
  predicate LedgerGrows(a: LedgerState, b: LedgerState) {
    && (WellFormed(a) ==> WellFormed(b))
    && a.projects.Keys <= b.projects.Keys
    && forall p :: p in a.projects ==> b.projects[p].totalUsage >= a.projects[p].totalUsage
  }

  lemma LedgerGrowsTransitive(a: LedgerState, b: LedgerState, c: LedgerState)
    requires LedgerGrows(a, b) && LedgerGrows(b, c)
    ensures LedgerGrows(a, c)
  {
  }

  /** Stage 1 of segment `i` of `n`. An existing raw artifact
      is used as it is, without selecting a project; otherwise the project is
      selected afresh, and the usage is recorded only when the transcription
      succeeded, a failure leaving the error marker as the artifact. */
  function TranscriptionStage(st: RunState, ids: seq<string>, base: string, i: nat, n: nat, input: SegmentInputs,
                              outcome: CallResult, pauses: seq<nat>): (r: StageResult)
    ensures StageEffect(st, r, i, Raw)
    ensures LedgerGrows(st.ledger, r.state.ledger)
    ensures (i, Raw) in st.artifacts ==> r == Completed(st, st.artifacts[(i, Raw)])
    ensures r.Aborted? && NoBlankIds(ids) ==> Exhausted(r.state.ledger, ids)
  {
    if (i, Raw) in st.artifacts then
      Completed(st, st.artifacts[(i, Raw)])
    else
      SelectKeepsTotals(st.ledger, ids, input.transcriptionDay);
      var sel := Select(st.ledger, ids, input.transcriptionDay);
      if Unavailable(sel.chosen) then
        Aborted(st.(ledger := sel.ledger))
      else
        var id := sel.chosen.value;
        var ledger := if outcome.Ok? then AddUsage(sel.ledger, id, TranscriptionTokens(input.durationMs)) else sel.ledger;
        var text := if outcome.Ok? then outcome.text else TranscriptionErrorText(i, outcome.message);
        Completed(RunState(ledger, st.artifacts[(i, Raw) := text],
                           st.calls + [RemoteCall(i, Raw, id, TranscriptionPrompt(base, i, n))],
                           st.outputs, st.sleeps + pauses),
                  text)
  }

  /** Stage 2 of segment `i` of `n` on the raw text, whatever
      stage 1 left, error marker included. Same discipline as stage 1: no
      selection for an existing artifact, a fresh selection otherwise, usage
      only on success, the marker followed by the raw text on failure. */
  function CleanupStage(st: RunState, ids: seq<string>, base: string, i: nat, n: nat, input: SegmentInputs, raw: string,
                        outcome: CallResult): (r: StageResult)
    ensures StageEffect(st, r, i, Processed) && r.state.sleeps == st.sleeps
    ensures LedgerGrows(st.ledger, r.state.ledger)
    ensures (i, Processed) in st.artifacts ==> r == Completed(st, st.artifacts[(i, Processed)])
    ensures r.Aborted? && NoBlankIds(ids) ==> Exhausted(r.state.ledger, ids)
  {
    if (i, Processed) in st.artifacts then
      Completed(st, st.artifacts[(i, Processed)])
    else
      SelectKeepsTotals(st.ledger, ids, input.cleanupDay);
      var sel := Select(st.ledger, ids, input.cleanupDay);
      if Unavailable(sel.chosen) then
        Aborted(st.(ledger := sel.ledger))
      else
        var id := sel.chosen.value;
        var prompt := CleanupPrompt(base, i, n, raw);
        var ledger := if outcome.Ok? then AddUsage(sel.ledger, id, CleanupTokens(prompt, raw)) else sel.ledger;
        var text := if outcome.Ok? then outcome.text else CleanupErrorText(i, outcome.message, raw);
        Completed(RunState(ledger, st.artifacts[(i, Processed) := text],
                           st.calls + [RemoteCall(i, Processed, id, prompt)],
                           st.outputs, st.sleeps),
                  text)
  }

  /** Stage 1 without its artifact: a fresh selection; no project aborts
      with the ledger the selection left; otherwise one call on the chosen
      project, whose usage grows by the estimate only when the transcription
      succeeded, a failure leaving the error marker as the text. */
  lemma TranscriptionStageFresh(st: RunState, ids: seq<string>, base: string, i: nat, n: nat, input: SegmentInputs,
                                outcome: CallResult, pauses: seq<nat>)
    requires (i, Raw) !in st.artifacts
    ensures var r := TranscriptionStage(st, ids, base, i, n, input, outcome, pauses);
      var sel := Select(st.ledger, ids, input.transcriptionDay);
      && (r.Aborted? <==> Unavailable(sel.chosen))
      && (r.Aborted? ==> r.state == st.(ledger := sel.ledger))
      && (r.Completed? ==>
            && r.state.calls == st.calls + [RemoteCall(i, Raw, sel.chosen.value, TranscriptionPrompt(base, i, n))]
            && r.state.sleeps == st.sleeps + pauses
            && (outcome.Ok? ==>
                  (r.text == outcome.text
                   && r.state.ledger == AddUsage(sel.ledger, sel.chosen.value, TranscriptionTokens(input.durationMs))))
            && (outcome.Failed? ==>
                  (r.text == TranscriptionErrorText(i, outcome.message) && r.state.ledger == sel.ledger)))
  {
  }

  /** Stage 2 without its artifact: the same discipline as stage 1, the
      usage estimated from the prompt and the raw text, a failure leaving
      the marker followed by the raw text. */
  lemma CleanupStageFresh(st: RunState, ids: seq<string>, base: string, i: nat, n: nat, input: SegmentInputs, raw: string,
                          outcome: CallResult)
    requires (i, Processed) !in st.artifacts
    ensures var r := CleanupStage(st, ids, base, i, n, input, raw, outcome);
      var sel := Select(st.ledger, ids, input.cleanupDay);
      && (r.Aborted? <==> Unavailable(sel.chosen))
      && (r.Aborted? ==> r.state == st.(ledger := sel.ledger))
      && (r.Completed? ==>
            && r.state.calls == st.calls + [RemoteCall(i, Processed, sel.chosen.value, CleanupPrompt(base, i, n, raw))]
            && (outcome.Ok? ==>
                  (r.text == outcome.text
                   && r.state.ledger == AddUsage(sel.ledger, sel.chosen.value, CleanupTokens(CleanupPrompt(base, i, n, raw), raw))))
            && (outcome.Failed? ==>
                  (r.text == CleanupErrorText(i, outcome.message, raw) && r.state.ledger == sel.ledger)))
  {
  }

  /** What one segment step may do to the files and the log: every existing
      artifact stays, new artifacts are the segment's own, at most two calls
      are logged, all for the segment's missing artifacts, stage 1 before
      stage 2; a completed step leaves both artifacts and appends the clean
      one to the outputs; an aborted one leaves the outputs alone. */
  predicate StepEffect(st: RunState, r: StageResult, i: nat) {
    && (forall key :: key in st.artifacts ==> key in r.state.artifacts && r.state.artifacts[key] == st.artifacts[key])
    && (forall key :: key in r.state.artifacts && key !in st.artifacts ==> key.0 == i)
    && |st.calls| <= |r.state.calls| <= |st.calls| + 2 && r.state.calls[..|st.calls|] == st.calls
    && (forall k :: |st.calls| <= k < |r.state.calls| ==>
          r.state.calls[k].segment == i && (i, r.state.calls[k].stage) !in st.artifacts)
    && (|r.state.calls| == |st.calls| + 2 ==>
          r.state.calls[|st.calls|].stage == Raw && r.state.calls[|st.calls| + 1].stage == Processed)
    && (r.Aborted? ==> r.state.outputs == st.outputs)
    && (r.Completed? ==>
          && (i, Raw) in r.state.artifacts && (i, Processed) in r.state.artifacts
          && r.text == r.state.artifacts[(i, Processed)]
          && r.state.outputs == st.outputs + [r.text])
  }

  /** One iteration of the segment loop: stage 1, stage 2 on its text, the
      clean text appended, and the 2-second pause unless it is the last
      segment. A segment with both artifacts costs nothing. */
  function SegmentStep(st: RunState, ids: seq<string>, base: string, i: nat, n: nat, input: SegmentInputs): (r: StageResult)
    requires |input.transcriptionAttempts| >= MaxRetries
    ensures StepEffect(st, r, i)
    ensures LedgerGrows(st.ledger, r.state.ledger)
    ensures r.Aborted? && NoBlankIds(ids) ==> Exhausted(r.state.ledger, ids)
    ensures (i, Raw) in st.artifacts && (i, Processed) in st.artifacts ==>
      && r.Completed? && r.text == st.artifacts[(i, Processed)]
      && r.state.ledger == st.ledger && r.state.calls == st.calls && r.state.artifacts == st.artifacts
  {
    var t := TranscriptionStage(st, ids, base, i, n, input, TranscribeOutcome(input.transcriptionAttempts),
                                Backoff(AttemptsMade(input.transcriptionAttempts)));
    match t
    case Aborted(s1) =>
      AbortedEffects(st, t, i, Raw);
      t
    case Completed(s1, raw) =>
      var c := CleanupStage(s1, ids, base, i, n, input, raw, CleanupOutcome(input.cleanupAttempt));
      LedgerGrowsTransitive(st.ledger, s1.ledger, c.state.ledger);
      match c
      case Aborted(s2) =>
        ComposeEffects(st, t, c, c, i);
        c
      case Completed(s2, processed) =>
        var r := Completed(s2.(outputs := s2.outputs + [processed],
                               sleeps := s2.sleeps + (if i + 1 < n then [2] else [])),
                           processed);
        ComposeEffects(st, t, c, r, i);
        r
  }

  /** The call stage 1 logs carries the segment's stage-1 prompt. */
  lemma TranscriptionStagePrompt(st: RunState, ids: seq<string>, base: string, i: nat, n: nat, input: SegmentInputs,
                                 outcome: CallResult, pauses: seq<nat>)
    ensures var r := TranscriptionStage(st, ids, base, i, n, input, outcome, pauses);
      forall call :: call in r.state.calls[|st.calls|..] ==>
        call.stage == Raw && call.prompt == TranscriptionPrompt(base, i, n)
  {
    var r := TranscriptionStage(st, ids, base, i, n, input, outcome, pauses);
    if (i, Raw) in st.artifacts || r.Aborted? {
      assert r.state.calls[|st.calls|..] == [];
    } else {
      TranscriptionStageFresh(st, ids, base, i, n, input, outcome, pauses);
      assert r.state.calls[|st.calls|..] == [r.state.calls[|st.calls|]];
    }
  }

  /** The call stage 2 logs carries the stage-2 prompt on the raw text. */
  lemma CleanupStagePrompt(st: RunState, ids: seq<string>, base: string, i: nat, n: nat, input: SegmentInputs, raw: string,
                           outcome: CallResult)
    ensures var r := CleanupStage(st, ids, base, i, n, input, raw, outcome);
      forall call :: call in r.state.calls[|st.calls|..] ==>
        call.stage == Processed && call.prompt == CleanupPrompt(base, i, n, raw)
  {
    var r := CleanupStage(st, ids, base, i, n, input, raw, outcome);
    if (i, Processed) in st.artifacts || r.Aborted? {
      assert r.state.calls[|st.calls|..] == [];
    } else {
      CleanupStageFresh(st, ids, base, i, n, input, raw, outcome);
      assert r.state.calls[|st.calls|..] == [r.state.calls[|st.calls|]];
    }
  }

  /** A log extended twice: what the second extension adds over the first is
      what either one added. */
  lemma SuffixMembers(c0: seq<RemoteCall>, c1: seq<RemoteCall>, c2: seq<RemoteCall>)
    requires |c0| <= |c1| <= |c2| && c1[..|c0|] == c0 && c2[..|c1|] == c1
    ensures forall call :: call in c2[|c0|..] ==> call in c1[|c0|..] || call in c2[|c1|..]
  {
    assert c2[|c0|..] == c1[|c0|..] + c2[|c1|..];
  }

  /** What one pass sends: every stage-1 call carries the segment's stage-1
      prompt and every stage-2 call the stage-2 prompt on the raw text the
      pass leaves as the segment's raw artifact. */
  lemma SegmentStepPrompts(st: RunState, ids: seq<string>, base: string, i: nat, n: nat, input: SegmentInputs)
    requires |input.transcriptionAttempts| >= MaxRetries
    ensures var r := SegmentStep(st, ids, base, i, n, input);
      forall call :: call in r.state.calls[|st.calls|..] ==>
        && (i, Raw) in r.state.artifacts
        && (call.stage == Raw ==> call.prompt == TranscriptionPrompt(base, i, n))
        && (call.stage == Processed ==> call.prompt == CleanupPrompt(base, i, n, r.state.artifacts[(i, Raw)]))
  {
    var outcome := TranscribeOutcome(input.transcriptionAttempts);
    var pauses := Backoff(AttemptsMade(input.transcriptionAttempts));
    var t := TranscriptionStage(st, ids, base, i, n, input, outcome, pauses);
    TranscriptionStagePrompt(st, ids, base, i, n, input, outcome, pauses);
    if t.Completed? {
      var c := CleanupStage(t.state, ids, base, i, n, input, t.text, CleanupOutcome(input.cleanupAttempt));
      CleanupStagePrompt(t.state, ids, base, i, n, input, t.text, CleanupOutcome(input.cleanupAttempt));
      SuffixMembers(st.calls, t.state.calls, c.state.calls);
    }
  }

  /** What one pass waits for: a completed pass has slept the back-off
      pauses of its transcription attempts (none when the raw artifact was
      already there), then 2 seconds unless the segment is the last. */
  lemma SegmentStepPauses(st: RunState, ids: seq<string>, base: string, i: nat, n: nat, input: SegmentInputs)
    requires |input.transcriptionAttempts| >= MaxRetries
    ensures var r := SegmentStep(st, ids, base, i, n, input);
      r.Completed? ==>
        r.state.sleeps == st.sleeps
                          + (if (i, Raw) in st.artifacts then [] else Backoff(AttemptsMade(input.transcriptionAttempts)))
                          + (if i + 1 < n then [2] else [])
  {
    var outcome := TranscribeOutcome(input.transcriptionAttempts);
    var pauses := Backoff(AttemptsMade(input.transcriptionAttempts));
    var t := TranscriptionStage(st, ids, base, i, n, input, outcome, pauses);
    if (i, Raw) !in st.artifacts {
      TranscriptionStageFresh(st, ids, base, i, n, input, outcome, pauses);
    }
  }

  lemma AbortedEffects(st: RunState, t: StageResult, i: nat, stage: Stage)
    requires StageEffect(st, t, i, stage) && t.Aborted?
    ensures StepEffect(st, t, i)
  {
  }

  /** Stage 1 then stage 2: their effects make up a step's. */
  lemma ComposeEffects(st: RunState, t: StageResult, c: StageResult, r: StageResult, i: nat)
    requires t.Completed? && StageEffect(st, t, i, Raw) && StageEffect(t.state, c, i, Processed)
    requires r.state.ledger == c.state.ledger && r.state.artifacts == c.state.artifacts && r.state.calls == c.state.calls
    requires c.Aborted? ==> r == c
    requires c.Completed? ==> r == Completed(r.state, c.text) && r.state.outputs == c.state.outputs + [c.text]
    ensures StepEffect(st, r, i)
  {
    var s1 := t.state;
    var calls := r.state.calls;
    assert calls[..|st.calls|] == s1.calls[..|st.calls|];
    forall k | |st.calls| <= k < |calls|
      ensures calls[k].segment == i && (i, calls[k].stage) !in st.artifacts
    {
      if k < |s1.calls| {
        assert calls[k] == s1.calls[k];
      }
    }
    if |calls| == |st.calls| + 2 {
      assert calls[|st.calls|] == s1.calls[|st.calls|];
    }
  }

  datatype RunOutcome = RunOutcome(state: RunState, result: Option<seq<string>>)

  /** The segments a run from `i` on started: the ones it completed and,
      when it stopped, the one it stopped in. */
  function Reached(st: RunState, r: RunOutcome, i: nat): int {
    i + (|r.state.outputs| - |st.outputs|) + (if r.result.None? then 1 else 0)
  }

  /** The segments from `i` on: `None` as soon as a step aborts, which
      happens only when no listed project is left for the day, the outputs
      once every segment is done. Artifacts are added only for the segments
      the run started. */
  function RunFrom(st: RunState, ids: seq<string>, base: string, inputs: seq<SegmentInputs>, i: nat): (r: RunOutcome)
    requires InputsWellFormed(inputs) && i <= |inputs|
    ensures r.result.Some? ==> r.result.value == r.state.outputs
    ensures LedgerGrows(st.ledger, r.state.ledger)
    ensures |st.outputs| <= |r.state.outputs| && Reached(st, r, i) <= |inputs|
    ensures r.result.Some? ==> Reached(st, r, i) == |inputs|
    ensures r.result.None? && NoBlankIds(ids) ==> Exhausted(r.state.ledger, ids)
    ensures ArtifactsExtend(st.artifacts, r.state.artifacts, i, Reached(st, r, i))
    ensures BothCached(st.artifacts, i, |inputs|) ==>
      && r.state.ledger == st.ledger && r.state.calls == st.calls && r.state.artifacts == st.artifacts
      && r.result.Some?
    decreases |inputs| - i
  {
    if i == |inputs| then
      ArtifactsExtendRefl(st.artifacts, i);
      RunOutcome(st, Some(st.outputs))
    else
      var step := SegmentStep(st, ids, base, i, |inputs|, inputs[i]);
      StepArtifacts(st, step, i);
      match step
      case Aborted(s) =>
        RunOutcome(s, None)
      case Completed(s, _) =>
        var r := RunFrom(s, ids, base, inputs, i + 1);
        LedgerGrowsTransitive(st.ledger, s.ledger, r.state.ledger);
        ArtifactsExtendCompose(st.artifacts, s.artifacts, r.state.artifacts, i, i + 1, Reached(s, r, i + 1));
        r
  }

  /** A whole `process_segments` call on a ledger and the artifacts found:
      when it completes, one clean text per segment, each the segment's
      stage-2 artifact; when it stops, every listed project is used up for
      the day. Either way the artifacts found are kept, the ledger only
      grows, and a remote call is made only for a missing artifact, never
      twice for the same one. */
  function Run(ledger: LedgerState, artifacts: Artifacts, ids: seq<string>, base: string, inputs: seq<SegmentInputs>): (r: RunOutcome)
    requires InputsWellFormed(inputs)
    ensures r.result.Some? ==>
      && |r.result.value| == |inputs|
      && forall k :: 0 <= k < |inputs| ==>
           (k, Raw) in r.state.artifacts && (k, Processed) in r.state.artifacts
           && r.result.value[k] == r.state.artifacts[(k, Processed)]
    ensures r.result.None? && NoBlankIds(ids) ==> Exhausted(r.state.ledger, ids)
    ensures LedgerGrows(ledger, r.state.ledger)
    ensures ArtifactsExtend(artifacts, r.state.artifacts, 0, |inputs|)
    ensures CallsForMissing([], r.state.calls, artifacts, 0, |inputs|)
  {
    var st := RunState(ledger, artifacts, [], [], []);
    RunOutputs(st, ids, base, inputs, 0);
    RunCallsOnlyMissing(st, ids, base, inputs, 0);
    RunFrom(st, ids, base, inputs, 0)
  }

  // ----- properties of a run -----------------------------------------------

  /** `after` keeps every artifact of `before` unchanged and adds only
      artifacts of segments in `[lo, hi)`. */
  predicate ArtifactsExtend(before: Artifacts, after: Artifacts, lo: nat, hi: int) {
    && (forall key :: key in before ==> key in after && after[key] == before[key])
    && (forall key :: key in after && key !in before ==> lo <= key.0 < hi)
  }

  lemma StepArtifacts(st: RunState, step: StageResult, i: nat)
    requires StepEffect(st, step, i)
    ensures ArtifactsExtend(st.artifacts, step.state.artifacts, i, i + 1)
  {
  }

  lemma ArtifactsExtendRefl(a: Artifacts, i: nat)
    ensures ArtifactsExtend(a, a, i, i)
  {
  }

  lemma ArtifactsExtendCompose(a: Artifacts, b: Artifacts, c: Artifacts, lo: nat, mid: nat, hi: int)
    requires lo <= mid <= hi
    requires ArtifactsExtend(a, b, lo, mid) && ArtifactsExtend(b, c, mid, hi)
    ensures ArtifactsExtend(a, c, lo, hi)
  {
  }

  /** `after` extends the log `before` with calls only for (segment, stage)
      pairs missing from `arts`, of segments in `[lo, hi)`, none twice. */
  predicate CallsForMissing(before: seq<RemoteCall>, after: seq<RemoteCall>, arts: Artifacts, lo: nat, hi: int) {
    && |before| <= |after| && after[..|before|] == before
    && (forall k :: |before| <= k < |after| ==>
          (after[k].segment, after[k].stage) !in arts && lo <= after[k].segment < hi)
    && (forall a, b :: |before| <= a < b < |after| ==>
          (after[a].segment, after[a].stage) != (after[b].segment, after[b].stage))
  }

  lemma StepCallsForMissing(st: RunState, step: StageResult, i: nat)
    requires StepEffect(st, step, i)
    ensures CallsForMissing(st.calls, step.state.calls, st.artifacts, i, i + 1)
  {
    var calls := step.state.calls;
    forall a, b | |st.calls| <= a < b < |calls|
      ensures (calls[a].segment, calls[a].stage) != (calls[b].segment, calls[b].stage)
    {
      assert a == |st.calls| && b == |st.calls| + 1;
    }
  }

  /** Two stretches of log, the second for segments after the first. */
  lemma CallsForMissingCompose(c0: seq<RemoteCall>, c1: seq<RemoteCall>, c2: seq<RemoteCall>,
                               a0: Artifacts, a1: Artifacts, lo: nat, mid: nat, hi: int)
    requires CallsForMissing(c0, c1, a0, lo, mid) && CallsForMissing(c1, c2, a1, mid, hi)
    requires lo <= mid <= hi && forall key :: key in a0 ==> key in a1
    ensures CallsForMissing(c0, c2, a0, lo, hi)
  {
    assert c2[..|c0|] == c2[..|c1|][..|c0|];
    forall k | |c0| <= k < |c2|
      ensures (c2[k].segment, c2[k].stage) !in a0 && lo <= c2[k].segment < hi
    {
      if k < |c1| {
        assert c2[k] == c1[k];
      }
    }
    forall a, b | |c0| <= a < b < |c2|
      ensures (c2[a].segment, c2[a].stage) != (c2[b].segment, c2[b].stage)
    {
      if b < |c1| {
        assert c2[a] == c1[a] && c2[b] == c1[b];
      } else if a < |c1| {
        assert c2[a] == c1[a];
      }
    }
  }

  /** Resuming does not call again: every remote call of a run is for a
      (segment, stage) that had no artifact when the run started, of a
      segment the run started, and no pair is called twice. */
  lemma {:induction false} RunCallsOnlyMissing(st: RunState, ids: seq<string>, base: string, inputs: seq<SegmentInputs>, i: nat)
    requires InputsWellFormed(inputs) && i <= |inputs|
    ensures var r := RunFrom(st, ids, base, inputs, i);
      CallsForMissing(st.calls, r.state.calls, st.artifacts, i, Reached(st, r, i))
    decreases |inputs| - i
  {
    if i < |inputs| {
      var step := SegmentStep(st, ids, base, i, |inputs|, inputs[i]);
      StepCallsForMissing(st, step, i);
      if step.Completed? {
        var s := step.state;
        var r := RunFrom(s, ids, base, inputs, i + 1);
        assert RunFrom(st, ids, base, inputs, i) == r;
        RunCallsOnlyMissing(s, ids, base, inputs, i + 1);
        CallsForMissingCompose(st.calls, s.calls, r.state.calls, st.artifacts, s.artifacts, i, i + 1, Reached(s, r, i + 1));
      }
    } else {
      assert st.calls[..|st.calls|] == st.calls;
    }
  }

  /** A completed run returns one clean text per segment, each the segment's
      stage-2 artifact, and every segment then has both artifacts. */
  lemma {:induction false} RunOutputs(st: RunState, ids: seq<string>, base: string, inputs: seq<SegmentInputs>, i: nat)
    requires InputsWellFormed(inputs) && i <= |inputs|
    requires |st.outputs| == i
    requires forall k :: 0 <= k < i ==> (k, Raw) in st.artifacts && (k, Processed) in st.artifacts
                                         && st.outputs[k] == st.artifacts[(k, Processed)]
    ensures var r := RunFrom(st, ids, base, inputs, i);
      r.result.Some? ==>
        && |r.result.value| == |inputs|
        && forall k :: 0 <= k < |inputs| ==>
             (k, Raw) in r.state.artifacts && (k, Processed) in r.state.artifacts
             && r.result.value[k] == r.state.artifacts[(k, Processed)]
    decreases |inputs| - i
  {
    if i < |inputs| {
      var step := SegmentStep(st, ids, base, i, |inputs|, inputs[i]);
      if step.Completed? {
        var s := step.state;
        forall k | 0 <= k < i + 1
          ensures (k, Raw) in s.artifacts && (k, Processed) in s.artifacts
          ensures s.outputs[k] == s.artifacts[(k, Processed)]
        {
          if k < i {
            assert s.outputs[k] == st.outputs[k];
          }
        }
        RunOutputs(s, ids, base, inputs, i + 1);
      }
    }
  }

  /** Every segment in `[lo, hi)` has both artifacts. */
  predicate BothCached(arts: Artifacts, lo: nat, hi: nat) {
    forall k :: lo <= k < hi ==> (k, Raw) in arts && (k, Processed) in arts
  }

  /** Resuming over a complete set of artifacts calls nothing, spends
      nothing and writes nothing, and it returns the stored clean text of
      every segment, in order. */
  lemma FullyCachedRunIsFree(ledger: LedgerState, artifacts: Artifacts, ids: seq<string>, base: string,
                             inputs: seq<SegmentInputs>)
    requires InputsWellFormed(inputs)
    requires BothCached(artifacts, 0, |inputs|)
    ensures var r := Run(ledger, artifacts, ids, base, inputs);
      && r.state.ledger == ledger && r.state.calls == [] && r.state.artifacts == artifacts
      && r.result.Some? && |r.result.value| == |inputs|
      && forall k :: 0 <= k < |inputs| ==> r.result.value[k] == artifacts[(k, Processed)]
  {
    RunOutputs(RunState(ledger, artifacts, [], [], []), ids, base, inputs, 0);
  }

  // ----- the imperative loop -----------------------------------------------

  /** Stage 1 against the ledger object. */
  method RunTranscriptionStage(manager: TokenUsageManager, st: RunState, ids: seq<string>, base: string,
                               i: nat, n: nat, input: SegmentInputs) returns (r: StageResult)
    requires manager.Valid() && st.ledger == manager.State()
    requires |input.transcriptionAttempts| >= MaxRetries
    modifies manager
    ensures manager.Valid()
    ensures r == TranscriptionStage(st, ids, base, i, n, input, TranscribeOutcome(input.transcriptionAttempts),
                                    Backoff(AttemptsMade(input.transcriptionAttempts)))
    ensures r.state.ledger == manager.State()
    ensures (manager.State() == old(manager.State()) && manager.saved == old(manager.saved))
            || manager.saved == Some(manager.State())
  {
    if (i, Raw) in st.artifacts {
      return Completed(st, st.artifacts[(i, Raw)]);
    }
    var chosen := manager.GetAvailableProject(ids, input.transcriptionDay);
    if chosen.None? || chosen.value == "" {
      return Aborted(st.(ledger := manager.State()));
    }
    var projectId := chosen.value;
    var prompt := TranscriptionPrompt(base, i, n);
    var outcome, backoff := TranscribeWithGemini(input.transcriptionAttempts);
    var text: string;
    if outcome.Ok? {
      manager.RecordUsage(projectId, TranscriptionTokens(input.durationMs));
      text := outcome.text;
    } else {
      text := TranscriptionErrorText(i, outcome.message);
    }
    r := Completed(RunState(manager.State(), st.artifacts[(i, Raw) := text],
                            st.calls + [RemoteCall(i, Raw, projectId, prompt)],
                            st.outputs, st.sleeps + backoff),
                   text);
  }

  /** Stage 2 against the ledger object. */
  method RunCleanupStage(manager: TokenUsageManager, st: RunState, ids: seq<string>, base: string,
                         i: nat, n: nat, input: SegmentInputs, raw: string) returns (r: StageResult)
    requires manager.Valid() && st.ledger == manager.State()
    modifies manager
    ensures manager.Valid()
    ensures r == CleanupStage(st, ids, base, i, n, input, raw, CleanupOutcome(input.cleanupAttempt))
    ensures r.state.ledger == manager.State()
    ensures (manager.State() == old(manager.State()) && manager.saved == old(manager.saved))
            || manager.saved == Some(manager.State())
  {
    if (i, Processed) in st.artifacts {
      return Completed(st, st.artifacts[(i, Processed)]);
    }
    var chosen := manager.GetAvailableProject(ids, input.cleanupDay);
    if chosen.None? || chosen.value == "" {
      return Aborted(st.(ledger := manager.State()));
    }
    var projectId := chosen.value;
    var prompt := CleanupPrompt(base, i, n, raw);
    var tokens := CleanupTokens(prompt, raw);
    var outcome := CleanupOutcome(input.cleanupAttempt);
    var text: string;
    if outcome.Ok? {
      manager.RecordUsage(projectId, tokens);
      text := outcome.text;
    } else {
      text := CleanupErrorText(i, outcome.message, raw);
    }
    r := Completed(RunState(manager.State(), st.artifacts[(i, Processed) := text],
                            st.calls + [RemoteCall(i, Processed, projectId, prompt)],
                            st.outputs, st.sleeps),
                   text);
  }

  /** One pass of the segment loop over the ledger object: stage 1, stage 2
      on its text, the clean text collected and the pause recorded. */
  method ProcessSegment(manager: TokenUsageManager, st: RunState, ids: seq<string>, base: string,
                        i: nat, n: nat, input: SegmentInputs)
    returns (r: StageResult)
    requires manager.Valid() && st.ledger == manager.State()
    requires |input.transcriptionAttempts| >= MaxRetries
    modifies manager
    ensures manager.Valid()
    ensures r == SegmentStep(st, ids, base, i, n, input)
    ensures r.state.ledger == manager.State()
    ensures (manager.State() == old(manager.State()) && manager.saved == old(manager.saved))
            || manager.saved == Some(manager.State())
  {
    var stage1 := RunTranscriptionStage(manager, st, ids, base, i, n, input);
    if stage1.Aborted? {
      return stage1;
    }
    var stage2 := RunCleanupStage(manager, stage1.state, ids, base, i, n, input, stage1.text);
    if stage2.Aborted? {
      return stage2;
    }
    var pause: seq<nat> := if i + 1 < n then [2] else [];
    r := Completed(stage2.state.(outputs := stage2.state.outputs + [stage2.text],
                                 sleeps := stage2.state.sleeps + pause),
                   stage2.text);
  }

  /** `process_segments` over the ledger object: the loop over the segments,
      proved to do what `Run` says. The ledger file holds the final ledger
      whenever the run changed it. */
  method ProcessSegments(manager: TokenUsageManager, ids: seq<string>, base: string,
                         inputs: seq<SegmentInputs>, found: Artifacts)
    returns (result: Option<seq<string>>, final: RunState)
    requires manager.Valid() && InputsWellFormed(inputs)
    modifies manager
    ensures manager.Valid()
    ensures RunOutcome(final, result) == Run(old(manager.State()), found, ids, base, inputs)
    ensures final.ledger == manager.State()
    ensures (manager.State() == old(manager.State()) && manager.saved == old(manager.saved))
            || manager.saved == Some(manager.State())
  {
    var st := RunState(manager.State(), found, [], [], []);
    var n := |inputs|;
    var i := 0;
    while i < n
      invariant 0 <= i <= n
      invariant manager.Valid() && st.ledger == manager.State()
      invariant RunFrom(st, ids, base, inputs, i) == Run(old(manager.State()), found, ids, base, inputs)
      invariant (manager.State() == old(manager.State()) && manager.saved == old(manager.saved))
                || manager.saved == Some(manager.State())
    {
      var step := ProcessSegment(manager, st, ids, base, i, n, inputs[i]);
      if step.Aborted? {
        return None, step.state;
      }
      st := step.state;
      i := i + 1;
    }
    result, final := Some(st.outputs), st;
  }
}
