# Gemini transcriber: a verified model of its core

The repository is a Streamlit application that transcribes long Hebrew
audio recordings with Google's Gemini models. This project models its core
in Dafny and proves properties of that model. The core is the file
`streamlit-transcription-app.py`.

- **Segmentation.** The recording is cut into overlapping windows. A segment
  length that does not exceed the overlap is refused.
- **Token ledger (`TokenUsageManager`).** It keeps, for each Google Cloud
  project, a daily limit, a daily usage and a total usage. The daily
  counters are reset when the date changes. A project is chosen from an
  ordered list by the first one still under its limit. The ledger is written
  to its JSON file after every change.
- **Remote calls.** Stage 1 transcribes a segment. It makes up to three
  attempts, pausing 2 and then 4 seconds, and extracts the text from the
  response. Stage 2 cleans up the raw text with a single request.
- **`process_segments`.**
  - Every segment goes through both stages.
  - A stage whose artifact file already exists is skipped.
  - Otherwise a project is selected afresh from the ledger, and the run
    stops when none is available.
  - Usage is recorded only when the call succeeded.
  - A failure leaves an error marker as the artifact, and stage 2 works on
    whatever stage 1 left.
- **`combine_transcriptions`.** The clean texts are joined with paragraph
  breaks.
- **`process_audio`.** It parses the comma-separated project list and glues
  the steps together.

The model is split into a few modules:

| file | module | what it holds |
|---|---|---|
| `text.dfy` | `Text` | Python's `str.strip`, `str.endswith`, `str(int)` and `str.split(",")` on code-point strings |
| `option.dfy` | `Optional` | `Option` |
| `segmenter.dfy` | `Segmenter` | the segment count and windows, and the segmentation loop as a method |
| `ledger.dfy` | `Ledger` | the ledger as pure functions on `LedgerState`, plus the class `TokenUsageManager` that changes its fields in place, proved against those functions |
| `remote.dfy` | `Remote` | the retry loop of `transcribe_with_gemini` as a method, what it returns or raises, response extraction, and the single stage-2 request |
| `pipeline.dfy` | `Pipeline` | the prompts, the token estimates, the error markers, the two stages and the run as functions, and the segment loop as methods over the ledger object |
| `combiner.dfy` | `Combiner` | `combine_transcriptions` as a loop method proved against a recursive definition, and a reference reading of it |
| `app.dfy` | `App` | project-id parsing, the register loop, and `process_audio` |

The outside world enters as parameters:

- **The clock.** It is the date string each reading of "today" would give.
- **The JSON file.** It is the stored ledger that is loaded, plus a `saved`
  field holding the ledger last written.
- **The audio library.** It supplies the decoded length of the recording
  and of each exported segment.
- **The HTTP requests.** For each attempt, an oracle says whether it raised
  or what status, body and parsed payload it returned.
- **The temporary directory.** Its artifact files are a map keyed by
  segment and stage.

Each remote call made is logged with its project and prompt, so that "no
call for an existing artifact" can be stated. Each `time.sleep` is recorded
instead of performed.

Behaviour worth knowing:

- **Account selection.** The project is re-selected from the ledger before
  every uncached stage, not once per run.
- **A single part.** It is returned by `combine_transcriptions` unstripped.
- **Retry pauses.** The retry loop sleeps only between attempts: 2 seconds,
  then 4, and never after the last attempt.
- **Stage 2.** It makes one request with no retry and does not strip the
  text. A missing text path in its response is a failure, not an empty text.
- **All attempts raised.** When every stage-1 attempt raised, the
  `response` variable is never bound. Reading it raises `UnboundLocalError`,
  and the stage records that exception's text in its error marker.

## Model

| member | source | states |
|---|---|---|
| Text.Strip | streamlit-transcription-app.py:216 | the stripped string is no longer than the input and neither starts nor ends with whitespace |
| Text.StripIsSlice | streamlit-transcription-app.py:216 | the stripped string is the input minus a leading and a trailing run of whitespace, and only whitespace is removed |
| Text.StripOfStripped | streamlit-transcription-app.py:231 | a string without whitespace at either end is its own strip |
| Text.StripIdempotent | streamlit-transcription-app.py:231 | stripping twice is stripping once |
| Text.StripInside | streamlit-transcription-app.py:231 | every character of the stripped string occurs in the input, so stripping a comma-free piece gives a comma-free id |
| Text.NatToString | streamlit-transcription-app.py:424 | `str(n)` is a non-empty string of decimal digits with no leading zero |
| Text.NatToStringRoundTrip | streamlit-transcription-app.py:424 | reading the digits of `str(n)` back gives `n` |
| Text.NatToStringInjective | streamlit-transcription-app.py:424 | different part numbers print differently |
| Text.EndsWith | streamlit-transcription-app.py:581 | `s.endswith(suffix)` holds exactly when `s` is some string followed by `suffix` |
| Text.SplitOnComma | streamlit-transcription-app.py:231 | `split(",")` gives at least one piece, and no piece holds a comma |
| Text.SplitOnCommaConcat | streamlit-transcription-app.py:231 | the pieces of `a + "," + b` are the pieces of `a` followed by those of `b` |
| Text.SplitJoinRoundTrip | streamlit-transcription-app.py:231 | joining the pieces of `split(",")` with commas gives the input back |
| Segmenter.SegmentCount | streamlit-transcription-app.py:273-276 | the floor-division formula is the ceiling of (total - overlap) / effective length, and 0 exactly when the recording is no longer than the overlap |
| Segmenter.Segment | streamlit-transcription-app.py:265-298 | the configuration is refused exactly when the segment length in ms does not exceed the overlap in ms; otherwise the loop yields the windows `[i*eff, min(total, i*eff + length))` |
| Segmenter.WindowStartBound | streamlit-transcription-app.py:288 | every window starts inside `[0, total - overlap)`, and each start is one effective length after the previous one |
| Segmenter.WindowsShape | streamlit-transcription-app.py:286-298 | every window lies inside the recording, is non-empty and at most one segment long; consecutive windows start one effective length apart, leave no gap, and overlap by exactly the overlap; all but the last have full length |
| Segmenter.WindowsEnds | streamlit-transcription-app.py:276-289 | there are no windows exactly when the recording is no longer than the overlap; otherwise the first window starts at 0 and the last ends at the end of the recording |
| Segmenter.WindowsCover | streamlit-transcription-app.py:286-298 | every millisecond of a recording longer than the overlap lies in some window |
| Segmenter.ExampleThreeWindows | streamlit-transcription-app.py:274-289 | 130 s cut into 60 s segments with 10 s overlap gives windows 0-60 s, 50-110 s and 100-130 s |
| Segmenter.ExampleInvalidConfig | streamlit-transcription-app.py:269-271 | a 5 s segment with a 10 s overlap is refused |
| Ledger.EmptyLedger | streamlit-transcription-app.py:69-73 | the default ledger has no project and is dated today |
| Ledger.Register | streamlit-transcription-app.py:98-110 | an unknown project is appended with the limit and zero usage; a known one gets the new limit and keeps its usage; no other project changes; well-formedness is kept |
| Ledger.AddUsage | streamlit-transcription-app.py:112-120 | the tokens are added to both the daily and the total usage, an unknown project first being registered with the default limit; nothing else changes; well-formedness is kept |
| Ledger.ResetIfNeeded | streamlit-transcription-app.py:83-96 | on a new date every daily usage becomes 0 and limits and totals stay; on the same date nothing changes; the date becomes today |
| Ledger.ResetIdempotent | streamlit-transcription-app.py:83-96 | resetting twice on the same date is resetting once |
| Ledger.FirstAvailable | streamlit-transcription-app.py:126-134 | the scan stops at the first listed id that is unknown or under its limit, and every id before it is neither |
| Ledger.Select | streamlit-transcription-app.py:122-136 | after the reset, no project is chosen exactly when no listed id is available, and exactly when every listed id is then a known project at or over its daily limit; a chosen id is listed and available; an unknown chosen id is registered with the default limit; otherwise the ledger is only reset |
| Ledger.SelectRespectsOrder | streamlit-transcription-app.py:126-134 | when the id at position `j` is available, the chosen id is at position `j` or earlier |
| Ledger.SelectKeepsTotals | streamlit-transcription-app.py:122-136 | selection forgets no project and changes no total usage |
| Ledger.RowsOfAt | streamlit-transcription-app.py:143-154 | the `k`-th row is the row of the `k`-th id |
| Ledger.SummaryRowsFaithful | streamlit-transcription-app.py:138-156 | the summary has one row per project, each with that project's limit, usage and total, and remaining = limit - usage |
| Ledger.KeysMatchOrder | streamlit-transcription-app.py:143 | a well-formed ledger lists as many projects in its order as its map holds |
| Ledger.DistinctSeqCard | streamlit-transcription-app.py:143 | a repetition-free list has as many distinct entries as elements |
| Ledger.ExampleRecordTwiceThenNewDay | streamlit-transcription-app.py:83-120 | recording 100 tokens twice gives 200 daily and total; the next day daily usage is 0 and the total is still 200 |
| Ledger.TokenUsageManager.constructor | streamlit-transcription-app.py:56-73 | the ledger is the stored one when the file was readable, otherwise empty and dated today; loading writes nothing |
| Ledger.TokenUsageManager.Save | streamlit-transcription-app.py:75-81 | the file holds the current ledger |
| Ledger.TokenUsageManager.ResetDailyCountersIfNeeded | streamlit-transcription-app.py:83-96 | the zeroing loop leaves `ResetIfNeeded` of the old ledger, and the file is written only when the date changed |
| Ledger.TokenUsageManager.RegisterProject | streamlit-transcription-app.py:98-110 | the ledger becomes `Register` of the old one, and the file is always written |
| Ledger.TokenUsageManager.RecordUsage | streamlit-transcription-app.py:112-120 | the ledger becomes `AddUsage` of the old one, and the file is always written |
| Ledger.TokenUsageManager.GetAvailableProject | streamlit-transcription-app.py:122-136 | the new ledger and the returned id are exactly `Select` of the old ledger; the file holds the ledger whenever it changed |
| Ledger.TokenUsageManager.GetUsageSummary | streamlit-transcription-app.py:138-156 | after the reset, the rows are `SummaryRows` of the reset ledger, one per project in insertion order |
| Remote.AttemptsMade | streamlit-transcription-app.py:189-195 | between 1 and 3 attempts run, every attempt but the last got no 200, fewer than 3 means the last got a 200, and some attempt got a 200 exactly when the last did |
| Remote.UntilOkCount | streamlit-transcription-app.py:190-195 | the count of attempts up to and including the first 200 |
| Remote.LastAnswered | streamlit-transcription-app.py:192 | the index of the last attempt that produced a response (the one `response` holds), every later attempt having raised |
| Remote.GeminiStatusMessage | streamlit-transcription-app.py:207-208 | the stage-1 error for a non-200 status opens with the Gemini failure prefix and ends with `: ` and the response body |
| Remote.TranscribeOutcome | streamlit-transcription-app.py:189-221 | a success needs a 200 on the last attempt made; without one the outcome is the unbound-`response` error or a message opening with the Gemini failure prefix |
| Remote.ExtractTranscript | streamlit-transcription-app.py:210-221 | a text found is stripped, a missing key or index gives `""`, and it raises exactly when the body is not JSON or a level of the path has the wrong type, with that exception's text |
| Remote.TranscribeWithGemini | streamlit-transcription-app.py:189-221 | the retry loop returns `TranscribeOutcome` of the attempts and sleeps exactly `Backoff` of the number of attempts made |
| Remote.UntilOkCountAt | streamlit-transcription-app.py:194-195 | the loop stops right after the first 200 |
| Remote.BackoffSchedule | streamlit-transcription-app.py:199-205 | at most two pauses, 2 seconds then 4 |
| Remote.TranscribeSucceedsIff | streamlit-transcription-app.py:189-221 | stage 1 succeeds exactly when one of the first three attempts got a 200 whose body reads without raising, and the outcome is then the extraction from the first 200 |
| Remote.AllAttemptsRaised | streamlit-transcription-app.py:201-207 | three raised attempts mean three attempts, pauses of 2 and 4 seconds and the unbound-`response` error |
| Remote.LastStatusReported | streamlit-transcription-app.py:207-208 | with no 200, the error reports the status and body of the last attempt that answered |
| Remote.CleanupOutcome | streamlit-transcription-app.py:521-527 | the single stage-2 request succeeds exactly on a 200 whose text path exists, returns that text unstripped, and raises with the transport error or the status and body otherwise |
| Remote.ApiStatusMessage | streamlit-transcription-app.py:523-524 | the stage-2 error for a non-200 status opens with the API failure prefix and ends with `: ` and the response body |
| Pipeline.PositionOf | streamlit-transcription-app.py:421-426 | a segment is the first exactly when `i == 0` and the last exactly when it is not the first and `i == n - 1`, so a single segment counts as the first |
| Pipeline.TranscriptionSuffix | streamlit-transcription-app.py:421-426 | the stage-1 suffix opens with a blank line, and for any segment but the first ends with its part number out of the segment count and a full stop |
| Pipeline.TranscriptionPrompt | streamlit-transcription-app.py:420-426 | the stage-1 prompt is the base prompt, kept as it is, followed by the suffix |
| Pipeline.CleanupSystemMessage | streamlit-transcription-app.py:476-495 | the stage-2 system message opens with the base prompt and a blank line and ends with the clean-up instruction |
| Pipeline.CleanupPrompt | streamlit-transcription-app.py:476-498 | the stage-2 prompt ends with the raw text |
| Pipeline.BasePrompt | streamlit-transcription-app.py:340-386 | a blank custom prompt gives the default, and any other is used as it is |
| Pipeline.TranscriptionTokens | streamlit-transcription-app.py:437-438 | `int(seconds * 5)` is the number of whole 200 ms periods in the segment |
| Pipeline.CleanupTokens | streamlit-transcription-app.py:501-503 | the estimate is `floor(1.5 * len(prompt)) + 2 * len(raw)` |
| Pipeline.TranscriptionErrorText | streamlit-transcription-app.py:449-451 | the stage-1 marker opens with `[שגיאה: ` and ends with the exception text and `]` |
| Pipeline.CleanupErrorText | streamlit-transcription-app.py:539-541 | the stage-2 marker opens with `[שגיאה: ` and ends with `]`, a blank line and the raw text |
| Pipeline.LedgerGrowsTransitive | streamlit-transcription-app.py:388-554 | the ledger-only-grows relation composes across steps |
| Pipeline.TranscriptionStage | streamlit-transcription-app.py:393-455 | the stage keeps every artifact and adds only its own, logs at most one call and only when its artifact was missing, never lowers a total, uses an existing raw artifact without selecting a project, and aborts only when every listed project is used up (no id being blank) |
| Pipeline.TranscriptionStageFresh | streamlit-transcription-app.py:401-455 | without its artifact, stage 1 aborts exactly when the fresh selection finds no project; otherwise it calls once on the chosen project and keeps the back-off pauses; a success records the duration estimate and keeps the text; a failure records nothing and keeps the marker |
| Pipeline.CleanupStage | streamlit-transcription-app.py:457-545 | the same artifact and log discipline for stage 2, which never pauses, uses an existing clean artifact without selecting a project, and aborts only when every listed project is used up (no id being blank) |
| Pipeline.CleanupStageFresh | streamlit-transcription-app.py:465-545 | without its artifact, stage 2 aborts exactly when the fresh selection finds no project, and otherwise calls once with the prompt built on stage 1's text; a success records the prompt-based estimate and keeps the reply; a failure records nothing and keeps the marker followed by the raw text |
| Pipeline.TranscriptionStagePrompt | streamlit-transcription-app.py:420-434 | the call stage 1 logs is a stage-1 call with the segment's stage-1 prompt |
| Pipeline.CleanupStagePrompt | streamlit-transcription-app.py:476-498 | the call stage 2 logs is a stage-2 call with the stage-2 prompt on the raw text it was given |
| Pipeline.SegmentStep | streamlit-transcription-app.py:390-552 | one loop pass keeps old artifacts, adds only the segment's own, logs at most two calls (stage 1 before stage 2, only for missing artifacts) and appends the clean text; an aborted pass leaves the outputs alone and, when no id is blank, every listed project used up; a segment with both artifacts costs nothing |
| Pipeline.SegmentStepPrompts | streamlit-transcription-app.py:420-498 | every stage-1 call of a pass carries the segment's stage-1 prompt and every stage-2 call the stage-2 prompt on the raw artifact the pass leaves |
| Pipeline.SegmentStepPauses | streamlit-transcription-app.py:434-552 | a completed pass has slept the back-off pauses of its transcription (none when the raw artifact existed), then 2 seconds unless its segment is the last |
| Pipeline.AbortedEffects | streamlit-transcription-app.py:402-406 | a stage-1 abort is a valid loop pass |
| Pipeline.ComposeEffects | streamlit-transcription-app.py:390-547 | the effects of stage 1 followed by stage 2 make up a loop pass's |
| Pipeline.RunFrom | streamlit-transcription-app.py:390-554 | a completed run returns its collected outputs, one per remaining segment; a run that stops leaves every listed project used up (no id being blank); the ledger only grows; artifacts are kept and added only for the segments the run started; a run over fully cached segments changes nothing and completes |
| Pipeline.Run | streamlit-transcription-app.py:335-554 | a completed call returns one clean text per segment, each its stage-2 artifact; a stopped call leaves every listed project used up; found artifacts are kept, the ledger only grows, and calls are made only for missing artifacts, never twice for one |
| Pipeline.StepArtifacts | streamlit-transcription-app.py:394-461 | a loop pass adds artifacts only for its own segment |
| Pipeline.ArtifactsExtendRefl | streamlit-transcription-app.py:554 | an empty run adds no artifact |
| Pipeline.ArtifactsExtendCompose | streamlit-transcription-app.py:390 | artifact growth composes across consecutive segments |
| Pipeline.StepCallsForMissing | streamlit-transcription-app.py:397-467 | a loop pass calls only for its segment's missing artifacts, never twice for one |
| Pipeline.CallsForMissingCompose | streamlit-transcription-app.py:390 | the property above composes across consecutive segments |
| Pipeline.RunCallsOnlyMissing | streamlit-transcription-app.py:396-470 | resuming makes no call for an artifact that already existed, calls only for the segments the run started (those it completed and the one it stopped in), and never calls twice for one segment and stage |
| Pipeline.RunOutputs | streamlit-transcription-app.py:547-554 | a completed run returns one text per segment, each the segment's stage-2 artifact, in order |
| Pipeline.FullyCachedRunIsFree | streamlit-transcription-app.py:396-464 | with every artifact present, a run calls nothing, spends nothing, writes nothing and returns the stored clean texts in order |
| Pipeline.RunTranscriptionStage | streamlit-transcription-app.py:393-455 | stage 1 run against the ledger object does what `TranscriptionStage` says, with the outcome and pauses of the retry loop |
| Pipeline.RunCleanupStage | streamlit-transcription-app.py:457-545 | stage 2 run against the ledger object does what `CleanupStage` says, with the outcome of the single request |
| Pipeline.ProcessSegment | streamlit-transcription-app.py:390-552 | one pass over the ledger object does what `SegmentStep` says; the file holds the ledger whenever it changed |
| Pipeline.ProcessSegments | streamlit-transcription-app.py:388-554 | the loop over the ledger object returns what `Run` says, with the ledger object ending in the run's final ledger |
| Combiner.ClosedShape | streamlit-transcription-app.py:581-582 | adding the break, when needed, keeps the text and leaves it ending with a paragraph break |
| Combiner.AppendShape | streamlit-transcription-app.py:578-585 | an append keeps the text so far and ends with a paragraph break followed by the stripped segment |
| Combiner.CombinePrefixShape | streamlit-transcription-app.py:571-585 | the combined text starts with the first text kept as it is, and ends with a break followed by the last text stripped |
| Combiner.Combined | streamlit-transcription-app.py:560-568 | nothing to combine gives `None`, and a single text is returned as it is |
| Combiner.AppendSegment | streamlit-transcription-app.py:578-585 | one loop pass strips the segment, adds the break only when missing, and appends |
| Combiner.CombineStep | streamlit-transcription-app.py:574-585 | the pass for the `i`-th text extends the combination of the first `i` texts to the first `i + 1` |
| Combiner.CombineTranscriptions | streamlit-transcription-app.py:555-588 | the loop returns `Combined` of its input |
| Combiner.CombineIsParagraphs | streamlit-transcription-app.py:574-585 | when the first text does not end with a paragraph break and no later text is blank, the result is the first text followed by every later text stripped, each after exactly one break |
| Combiner.ParagraphStep | streamlit-transcription-app.py:581-585 | appending a non-blank segment to a text without a final break adds exactly one break, and the result again has none |
| Combiner.CombineLength | streamlit-transcription-app.py:574-585 | the result's length lies between the sum of the stripped lengths and that sum plus two per later text |
| Combiner.ExampleSingle | streamlit-transcription-app.py:560-568 | `["a "]` combines to `"a "` unstripped, and no texts to `None` |
| Combiner.ExampleStripped | streamlit-transcription-app.py:574-585 | `["a", " b "]` combines to `"a\n\nb"` |
| Combiner.ExampleBreakKept | streamlit-transcription-app.py:581-582 | `["a\n\n", "b"]` combines to `"a\n\nb"`, and the break is not doubled |
| Combiner.ExampleBlankMiddle | streamlit-transcription-app.py:578-585 | a blank middle text adds a break and no text, and the next text needs no second break |
| App.NonBlankStripped | streamlit-transcription-app.py:231 | every piece that strips to something non-empty yields that id, and each id has no whitespace at either end and no comma |
| App.NonBlankStrippedFromPieces | streamlit-transcription-app.py:231 | every id is the strip of some piece |
| App.NonBlankStrippedConcat | streamlit-transcription-app.py:231 | the ids keep the order of the pieces: those of `p + q` are those of `p` followed by those of `q` |
| App.ParseProjectIds | streamlit-transcription-app.py:231 | every id is non-blank, its own strip and comma-free, every piece that strips to something non-empty yields an id, and every id is the strip of a piece |
| App.ParseProjectIdsConcat | streamlit-transcription-app.py:231 | the ids keep the order of the field: those of `a + "," + b` are those of `a` followed by those of `b` |
| App.ExampleNoIds | streamlit-transcription-app.py:231-234 | an empty field and a field of one comma give no project |
| App.RegisterAll | streamlit-transcription-app.py:236-237 | every listed id is registered with the default limit, no usage changes, and projects not listed are untouched |
| App.RegisterAllAppends | streamlit-transcription-app.py:236-237 | an id the ledger did not know starts with the default limit and no usage, and the unknown ids are appended to the order once each, as they first occur |
| App.RegisterProjects | streamlit-transcription-app.py:236-237 | the register loop over the ledger object does what `RegisterAll` says and leaves the file holding the ledger |
| App.ProcessAudio | streamlit-transcription-app.py:224-326 | no ids, undecodable audio or an invalid configuration give `None`; otherwise the segments run from an empty artifact directory, an aborted or empty run gives `None` (an aborted one leaving every listed project used up), and otherwise the result is the combination of the run's texts and the summaries are taken before and after |

## Left out

- The Streamlit user interface: the sidebar, progress bars, status messages, the download button and the page layout.
- HTTP details: building the URL and JSON payload, base64 encoding, temperature and output-token settings. Each request is an oracle outcome.
- Audio decoding, slicing and MP3 export belong to the audio library outside this model. The recording's length and each segment's decoded length are inputs.
- A segment whose re-decoding fails inside the stage-1 handler, which the model assumes always succeeds.
- File I/O and the JSON format of the ledger. The stored ledger is an input and the file is the `saved` field. A corrupt or unreadable file is an absent stored ledger.
- The temporary files themselves are not modelled; the artifacts are a map.
- `time.sleep` is recorded and not performed. The clock is a date string passed to each operation that reads it.
- Ledger.TokenUsageManager.GetUsageSummary: it omits the floating-point `percent_used` column, which is display only.
- Pipeline.TranscriptionTokens: it is the exact floor of milliseconds / 200, the real-number value of `int(seconds * 5)`; the two floating-point roundings of the source (the division by 1000 and the multiplication by 5) are not modelled, so where they land just below a whole number the source can give one less.
- Pipeline.CleanupTokens: it computes `int(len * 1.5)` exactly with integers, which agrees with the source for lengths below 2^51, where `1.5 * len` is exact in floating point.
- Remote.ExtractTranscript: a `text` value in the response that is not a string is not modelled. In stage 1 its `.strip()` would raise `AttributeError` before any usage is recorded; in stage 2 the usage would be recorded and writing the artifact would then raise `TypeError`, leaving the error marker followed by the raw text.
- Remote.UnboundResponseMessage is the wording of Python 3.11 and later.
- The long default prompt text is a parameter, not spelled out.
- The outer exception handler of `process_audio` and its traceback printing.
- `process_audio` always runs in a fresh temporary directory, so the resume branch never fires there. Resume is modelled and proved on `process_segments` with any set of existing artifacts.
- The explicit `"daily_usage" in ...` test of the reset loop, because every project the model can build has that key.
- The application's entry point, which handles the API key, the model choice and the upload widget.
