/** The remote language-model calls, seen from the caller. The HTTP request
    itself is an oracle: each attempt either raised (a transport error, with
    the exception's text) or produced a response with a status code, a raw
    body and what `response.json()` makes of it. Stage 1 goes through
    `transcribe_with_gemini` (up to three attempts, with back-off); stage 2 is
    a single inline request in `process_segments`. */
module Remote {
  import opened Text
  import opened Optional

  /** `max_retries`. */
  const MaxRetries: nat := 3

  /** What `response.json()` and the lookup
      `["candidates"][0]["content"]["parts"][0]["text"]` give: the decoder
      raised; the path is missing (a `KeyError` or `IndexError`, with its
      text); the path runs into a value of the wrong type, such as `null`
      where an object was expected (a `TypeError`, with its text); or the
      string found there. */
  datatype Payload =
    | NotJson(error: string)
    | MissingText(error: string)
    | BadShape(error: string)
    | HasText(text: string)

  /** The payloads whose reading raises an exception that no handler of
      the extraction catches. */
  predicate Raises(p: Payload) {
    p.NotJson? || p.BadShape?
  }

  /** One `requests.post`. */
  datatype Attempt =
    | Raised(error: string)
    | Response(status: nat, body: string, payload: Payload)

  /** A stage's remote call: its text, or the text of the exception it raised
      (`str(e)` in the caller's handler). */
  datatype CallResult = Ok(text: string) | Failed(message: string)

  /** The text of the `UnboundLocalError` that the status test after the
      retry loop raises when every attempt raised and `response` was never
      bound (Python 3.11 wording). */
  const UnboundResponseMessage: string :=
    "cannot access local variable 'response' where it is not associated with a value"

  /** The exception text of `transcribe_with_gemini` for a non-200 status. */
  const GeminiStatusPrefix: string := "בקשת Gemini נכשלה עם קוד "
  const ApiStatusPrefix: string := "בקשת API נכשלה עם קוד "

  function GeminiStatusMessage(status: nat, body: string): (m: string)
    ensures StartsWith(m, GeminiStatusPrefix)
    ensures EndsWith(m, ": " + body)
  {
    var m := GeminiStatusPrefix + NatToString(status) + ": " + body;
    assert m[..|GeminiStatusPrefix|] == GeminiStatusPrefix;
    assert m[|m| - |": " + body|..] == ": " + body;
    m
  }


  /** The exception text of stage 2 for a non-200 status. */
  function ApiStatusMessage(status: nat, body: string): (m: string)
    ensures StartsWith(m, ApiStatusPrefix)
    ensures EndsWith(m, ": " + body)
  {
    var m := ApiStatusPrefix + NatToString(status) + ": " + body;
    assert m[..|ApiStatusPrefix|] == ApiStatusPrefix;
    assert m[|m| - |": " + body|..] == ": " + body;
    m
  }

  predicate IsOk(a: Attempt) {
    a.Response? && a.status == 200
  }

  /** How many attempts run: up to and including the first 200, at most
      `MaxRetries`. */
  function AttemptsMade(attempts: seq<Attempt>): (m: nat)
    requires |attempts| >= MaxRetries
    ensures 1 <= m <= MaxRetries
    ensures forall j :: 0 <= j < m - 1 ==> !IsOk(attempts[j])
    ensures m < MaxRetries ==> IsOk(attempts[m - 1])
    ensures (exists j :: 0 <= j < MaxRetries && IsOk(attempts[j])) <==> IsOk(attempts[m - 1])
  {
    UntilOkCount(attempts[..MaxRetries])
  }

  function UntilOkCount(a: seq<Attempt>): (m: nat)
    requires |a| >= 1
    ensures 1 <= m <= |a|
    ensures forall j :: 0 <= j < m - 1 ==> !IsOk(a[j])
    ensures m < |a| ==> IsOk(a[m - 1])
    ensures (exists j :: 0 <= j < |a| && IsOk(a[j])) <==> IsOk(a[m - 1])
    decreases |a|
  {
    if |a| == 1 || IsOk(a[0]) then 1
    else
      var m := 1 + UntilOkCount(a[1..]);
      assert forall j :: 1 <= j < |a| ==> a[j] == a[1..][j - 1];
      m
  }

  /** The index of the most recent attempt that produced a response, -1 when
      every attempt raised. */
  function LastAnswered(a: seq<Attempt>): (j: int)
    ensures -1 <= j < |a|
    ensures j >= 0 ==> a[j].Response?
    ensures forall k :: j < k < |a| ==> a[k].Raised?
    decreases |a|
  {
    if a == [] then -1
    else if a[|a| - 1].Response? then |a| - 1
    else LastAnswered(a[..|a| - 1])
  }

  /** What the variable `response` holds after the loop (`None` when it was
      never bound). */
  function LastResponse(a: seq<Attempt>): Option<Attempt> {
    var j := LastAnswered(a);
    if j < 0 then None else Some(a[j])
  }

  /** The pauses of the retry loop: `2 * (retry + 1)` seconds after each
      failed attempt except the last, so 2 and then 4. */
  function Backoff(made: nat): (sleeps: seq<nat>)
    requires made >= 1
  {
    seq(made - 1, k => 2 * (k + 1))
  }

  /** The extraction at the end of `transcribe_with_gemini`: the stripped
      text; `""` when the path is missing, the only case its handler catches;
      the exception itself when the body is not JSON or the path has the
      wrong type. */
  function ExtractTranscript(p: Payload): (r: CallResult)
    ensures p.HasText? ==> r == Ok(Strip(p.text))
    ensures p.MissingText? ==> r == Ok("")
    ensures r.Failed? <==> Raises(p)
    ensures r.Failed? ==> r.message == p.error
  {
    match p
    case NotJson(e) => Failed(e)
    case MissingText(_) => Ok("")
    case BadShape(e) => Failed(e)
    case HasText(t) => Ok(Strip(t))
  }

  /** What `transcribe_with_gemini` returns or raises, given what each of
      its requests would do. */
  function TranscribeOutcome(attempts: seq<Attempt>): (r: CallResult)
    requires |attempts| >= MaxRetries
    ensures r.Ok? ==> IsOk(attempts[AttemptsMade(attempts) - 1])
    ensures !IsOk(attempts[AttemptsMade(attempts) - 1]) ==>
              r.Failed? && (r.message == UnboundResponseMessage || StartsWith(r.message, GeminiStatusPrefix))
  {
    match LastResponse(attempts[..AttemptsMade(attempts)])
    case None => Failed(UnboundResponseMessage)
    case Some(resp) =>
      if resp.status != 200 then Failed(GeminiStatusMessage(resp.status, resp.body))
      else ExtractTranscript(resp.payload)
  }

  /** The retry loop of `transcribe_with_gemini`: it stops at
      the first 200, sleeps only between attempts, raises for a final non-200
      response or an unbound `response`, and extracts the text otherwise. The
      sleeps are returned instead of performed. */
  method TranscribeWithGemini(attempts: seq<Attempt>) returns (result: CallResult, sleeps: seq<nat>)
    requires |attempts| >= MaxRetries
    ensures result == TranscribeOutcome(attempts)
    ensures sleeps == Backoff(AttemptsMade(attempts))
  {
    var response: Option<Attempt> := None;
    sleeps := [];
    var retry := 0;
    while retry < MaxRetries
      invariant 0 <= retry <= MaxRetries
      invariant forall j :: 0 <= j < retry ==> !IsOk(attempts[j])
      invariant response == LastResponse(attempts[..retry])
      invariant sleeps == seq(if retry < MaxRetries then retry else MaxRetries - 1, k => 2 * (k + 1))
    {
      var attempt := attempts[retry];
      assert attempts[..retry + 1][..retry] == attempts[..retry];
      if attempt.Response? {
        response := Some(attempt);
        if attempt.status == 200 {
          assert UntilOkCount(attempts[..MaxRetries]) == retry + 1 by {
            UntilOkCountAt(attempts[..MaxRetries], retry);
          }
          assert attempts[..AttemptsMade(attempts)] == attempts[..retry + 1];
          break;
        }
      }
      if retry < MaxRetries - 1 {
        sleeps := sleeps + [2 * (retry + 1)];
      }
      retry := retry + 1;
    }
    if retry == MaxRetries {
      assert AttemptsMade(attempts) == MaxRetries;
    }
    if response.None? {
      result := Failed(UnboundResponseMessage);
      return;
    }
    var resp := response.value;
    if resp.status != 200 {
      result := Failed(GeminiStatusMessage(resp.status, resp.body));
      return;
    }
    result := ExtractTranscript(resp.payload);
  }

  /** The count of attempts ends at the first 200. */
  lemma UntilOkCountAt(a: seq<Attempt>, i: nat)
    requires i < |a| && IsOk(a[i])
    requires forall j :: 0 <= j < i ==> !IsOk(a[j])
    ensures UntilOkCount(a) == i + 1
  {
  }

  /** At most three attempts and at most two pauses, the pauses growing: 2
      seconds, then 4. */
  lemma BackoffSchedule(attempts: seq<Attempt>)
    requires |attempts| >= MaxRetries
    ensures var sleeps := Backoff(AttemptsMade(attempts));
      && |sleeps| < MaxRetries
      && sleeps == [2, 4][..|sleeps|]
  {
    var m := AttemptsMade(attempts);
    var sleeps := Backoff(m);
    assert |sleeps| == m - 1;
    assert forall k :: 0 <= k < |sleeps| ==> sleeps[k] == [2, 4][k];
  }

  /** The call succeeds exactly when one of the first three attempts got a
      200 whose body is JSON; the text is then that of the first such
      response, stripped (or `""` when the path is missing). */
  lemma TranscribeSucceedsIff(attempts: seq<Attempt>)
    requires |attempts| >= MaxRetries
    ensures TranscribeOutcome(attempts).Ok? <==>
              exists j :: && 0 <= j < MaxRetries && IsOk(attempts[j]) && !Raises(attempts[j].payload)
                          && forall k :: 0 <= k < j ==> !IsOk(attempts[k])
    ensures forall j :: 0 <= j < MaxRetries && IsOk(attempts[j]) && (forall k :: 0 <= k < j ==> !IsOk(attempts[k])) ==>
              TranscribeOutcome(attempts) == ExtractTranscript(attempts[j].payload)
  {
    var m := AttemptsMade(attempts);
    var made := attempts[..m];
    assert made[m - 1] == attempts[m - 1];
    if IsOk(attempts[m - 1]) {
      assert LastResponse(made) == Some(attempts[m - 1]);
      forall j | 0 <= j < MaxRetries && IsOk(attempts[j]) && (forall k :: 0 <= k < j ==> !IsOk(attempts[k]))
        ensures j == m - 1
      {
      }
    } else {
      assert forall j :: 0 <= j < MaxRetries ==> !IsOk(attempts[j]);
      var j := LastAnswered(made);
      if j >= 0 {
        assert made[j] == attempts[j] && !IsOk(attempts[j]);
      }
    }
  }

  /** Three transport failures in a row: three attempts, pauses of 2 and 4
      seconds, and the unbound-`response` error. */
  lemma AllAttemptsRaised(attempts: seq<Attempt>)
    requires |attempts| >= MaxRetries
    requires forall j :: 0 <= j < MaxRetries ==> attempts[j].Raised?
    ensures AttemptsMade(attempts) == MaxRetries
    ensures Backoff(AttemptsMade(attempts)) == [2, 4]
    ensures TranscribeOutcome(attempts) == Failed(UnboundResponseMessage)
  {
    assert !IsOk(attempts[0]) && !IsOk(attempts[1]);
    var made := attempts[..MaxRetries];
    assert forall j :: 0 <= j < |made| ==> made[j].Raised?;
  }

  /** No 200 among three attempts of which at least one answered: the error
      reports the status and body of the last answer. */
  lemma LastStatusReported(attempts: seq<Attempt>, j: nat)
    requires |attempts| >= MaxRetries
    requires forall k :: 0 <= k < MaxRetries ==> !IsOk(attempts[k])
    requires j < MaxRetries && attempts[j].Response?
    requires forall k :: j < k < MaxRetries ==> attempts[k].Raised?
    ensures TranscribeOutcome(attempts) == Failed(GeminiStatusMessage(attempts[j].status, attempts[j].body))
  {
    var made := attempts[..MaxRetries];
    assert AttemptsMade(attempts) == MaxRetries;
    assert made[j].Response?;
    assert LastAnswered(made) == j;
  }

  /** The inline stage-2 request of `process_segments`: one attempt, no
      retry; a non-200 status, a body that is not JSON, a missing path and a
      path of the wrong type all raise; the text is taken as it is, without
      stripping. */
  function CleanupOutcome(a: Attempt): (r: CallResult)
    ensures r.Ok? <==> IsOk(a) && a.payload.HasText?
    ensures r.Ok? ==> r.text == a.payload.text
    ensures a.Raised? ==> r == Failed(a.error)
    ensures a.Response? && a.status != 200 ==> r == Failed(ApiStatusMessage(a.status, a.body))
  {
    match a
    case Raised(e) => Failed(e)
    case Response(status, body, payload) =>
      if status != 200 then Failed(ApiStatusMessage(status, body))
      else match payload
        case NotJson(e) => Failed(e)
        case MissingText(e) => Failed(e)
        case BadShape(e) => Failed(e)
        case HasText(t) => Ok(t)
  }
}
