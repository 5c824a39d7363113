/** `process_audio`: parse the project list, register every project, show the
    usage, cut the recording, run the two stages over every segment in a
    fresh temporary directory, combine the clean texts and show the usage
    again. The recording's length is given as the audio library would decode
    it (`None` when decoding fails). */
module App {
  import opened Text
  import opened Optional
  import opened Ledger
  import opened Segmenter
  import opened Remote
  import opened Pipeline
  import opened Combiner

  /** Non-blank, no whitespace at either end, no comma. */
  predicate IsCleanId(x: string) {
    x != "" && !IsSpace(x[0]) && !IsSpace(x[|x| - 1]) && ',' !in x
  }

  /** The stripped, non-blank pieces of `pieces`, in order. */
  function NonBlankStripped(pieces: seq<string>): (ids: seq<string>)
    requires forall k :: 0 <= k < |pieces| ==> ',' !in pieces[k]
    ensures |ids| <= |pieces|
    ensures forall k :: 0 <= k < |ids| ==> IsCleanId(ids[k])
    ensures forall k :: 0 <= k < |pieces| && Strip(pieces[k]) != "" ==> Strip(pieces[k]) in ids
    decreases |pieces|
  {
    if pieces == [] then []
    else
      var rest := NonBlankStripped(pieces[1..]);
      var head := Strip(pieces[0]);
      StripInside(pieces[0]);
      assert forall k :: 1 <= k < |pieces| ==> pieces[k] == pieces[1..][k - 1];
      if head != "" then [head] + rest else rest
  }

  /** `x` is what stripping some piece gives. */
  predicate StripOfSomePiece(pieces: seq<string>, x: string) {
    exists k :: 0 <= k < |pieces| && Strip(pieces[k]) == x
  }

  /** Every id is the strip of some piece. */
  lemma {:induction false} NonBlankStrippedFromPieces(pieces: seq<string>)
    requires forall k :: 0 <= k < |pieces| ==> ',' !in pieces[k]
    ensures forall x :: x in NonBlankStripped(pieces) ==> StripOfSomePiece(pieces, x)
    decreases |pieces|
  {
    if pieces != [] {
      var tail := pieces[1..];
      NonBlankStrippedFromPieces(tail);
      forall x | x in NonBlankStripped(pieces)
        ensures StripOfSomePiece(pieces, x)
      {
        if x in NonBlankStripped(tail) {
          var j :| 0 <= j < |tail| && Strip(tail[j]) == x;
          assert pieces[j + 1] == tail[j];
        } else {
          assert Strip(pieces[0]) == x;
        }
      }
    }
  }

  /** The ids keep the order of the pieces: those of `p + q` are those of `p`
      followed by those of `q`. */
  lemma {:induction false} NonBlankStrippedConcat(p: seq<string>, q: seq<string>)
    requires forall k :: 0 <= k < |p| ==> ',' !in p[k]
    requires forall k :: 0 <= k < |q| ==> ',' !in q[k]
    ensures NonBlankStripped(p + q) == NonBlankStripped(p) + NonBlankStripped(q)
    decreases |p|
  {
    if p == [] {
      assert p + q == q;
    } else {
      assert (p + q)[1..] == p[1..] + q;
      NonBlankStrippedConcat(p[1..], q);
    }
  }

  /** Project ids from the comma-separated field, as the list comprehension
      of `process_audio` builds them: each piece stripped, blank pieces
      dropped. No id is blank, none has whitespace at either end, none holds
      a comma, every non-blank piece yields one, and every id comes from a
      piece. */
  function ParseProjectIds(text: string): (ids: seq<string>)
    ensures forall k :: 0 <= k < |ids| ==> IsCleanId(ids[k]) && Strip(ids[k]) == ids[k]
    ensures forall k :: 0 <= k < |SplitOnComma(text)| && Strip(SplitOnComma(text)[k]) != "" ==>
              Strip(SplitOnComma(text)[k]) in ids
    ensures forall x :: x in ids ==> StripOfSomePiece(SplitOnComma(text), x)
  {
    var ids := NonBlankStripped(SplitOnComma(text));
    NonBlankStrippedFromPieces(SplitOnComma(text));
    assert forall k :: 0 <= k < |ids| ==> Strip(ids[k]) == ids[k] by {
      forall k | 0 <= k < |ids|
        ensures Strip(ids[k]) == ids[k]
      {
        StripOfStripped(ids[k]);
      }
    }
    ids
  }

  /** The ids keep the order of the field: those of `a + "," + b` are the
      ids of `a` followed by the ids of `b`. */
  lemma ParseProjectIdsConcat(a: string, b: string)
    ensures ParseProjectIds(a + "," + b) == ParseProjectIds(a) + ParseProjectIds(b)
  {
    SplitOnCommaConcat(a, b);
    NonBlankStrippedConcat(SplitOnComma(a), SplitOnComma(b));
  }

  /** An empty field, or one of commas only, gives no project. */
  lemma ExampleNoIds()
    ensures ParseProjectIds("") == []
    ensures ParseProjectIds(",") == []
  {
    assert SplitOnComma("") == [""];
    assert ","[1..] == "";
    assert SplitOnComma(",") == ["", ""];
    assert Strip("") == "";
  }

  /** The ids of the list that are not in `known`, each once, in the order
      of their first occurrence. */
  function NewIds(ids: seq<string>, known: set<string>): (r: seq<string>)
    ensures forall x :: x in r <==> x in ids && x !in known
    ensures forall a, b :: 0 <= a < b < |r| ==> r[a] != r[b]
    decreases |ids|
  {
    if ids == [] then []
    else
      var init := ids[..|ids| - 1];
      var last := ids[|ids| - 1];
      assert forall x :: x in ids <==> x in init || x == last;
      var prev := NewIds(init, known);
      if last in known || last in init then prev else prev + [last]
  }

  /** `register_project(id)` for every id in turn, with the default limit. */
  function RegisterAll(s: LedgerState, ids: seq<string>): (r: LedgerState)
    ensures WellFormed(s) ==> WellFormed(r)
    ensures r.projects.Keys == s.projects.Keys + set id | id in ids
    ensures forall id :: id in ids ==> r.projects[id].dailyLimit == DefaultDailyLimit
    ensures forall p :: p in s.projects ==>
              r.projects[p].dailyUsage == s.projects[p].dailyUsage && r.projects[p].totalUsage == s.projects[p].totalUsage
    ensures forall p :: p in s.projects && p !in ids ==> r.projects[p] == s.projects[p]
    ensures r.lastUpdated == s.lastUpdated
    decreases |ids|
  {
    if ids == [] then s
    else
      var prev := RegisterAll(s, ids[..|ids| - 1]);
      assert forall id :: id in ids <==> id in ids[..|ids| - 1] || id == ids[|ids| - 1];
      Register(prev, ids[|ids| - 1], DefaultDailyLimit)
  }

  /** An id the ledger did not know starts with the default limit and no
      usage, and the unknown ids are appended to the order as they first
      occur in the list. */
  lemma {:induction false} RegisterAllAppends(s: LedgerState, ids: seq<string>)
    ensures var r := RegisterAll(s, ids);
      && r.order == s.order + NewIds(ids, s.projects.Keys)
      && forall id :: id in ids && id !in s.projects ==> r.projects[id] == Account(DefaultDailyLimit, 0, 0)
    decreases |ids|
  {
    if ids != [] {
      var init := ids[..|ids| - 1];
      var last := ids[|ids| - 1];
      assert forall x :: x in ids <==> x in init || x == last;
      RegisterAllAppends(s, init);
    }
  }

  /** The loop of `process_audio` that registers every listed project. */
  method RegisterProjects(manager: TokenUsageManager, ids: seq<string>)
    requires manager.Valid()
    modifies manager
    ensures manager.Valid()
    ensures manager.State() == RegisterAll(old(manager.State()), ids)
    ensures ids != [] ==> manager.saved == Some(manager.State())
    ensures ids == [] ==> manager.saved == old(manager.saved)
  {
    var i := 0;
    while i < |ids|
      invariant 0 <= i <= |ids|
      invariant manager.Valid()
      invariant manager.State() == RegisterAll(old(manager.State()), ids[..i])
      invariant i > 0 ==> manager.saved == Some(manager.State())
      invariant i == 0 ==> manager.saved == old(manager.saved)
    {
      assert ids[..i + 1][..i] == ids[..i];
      manager.RegisterProject(ids[i], DefaultDailyLimit);
      i := i + 1;
    }
    assert ids[..i] == ids;
  }

  /** The dates each clock reading of a call sees. */
  datatype Clock = Clock(atLoad: string, beforeSummary: string, afterSummary: string)

  /** `process_audio` on the ledger file's content. It returns the combined
      text, the ledger object and the two usage summaries it shows. Nothing
      is combined when the project list is blank, the audio cannot be
      decoded, the segment length does not exceed the overlap, a stage finds
      no project (every listed project has then used up its daily limit),
      or there are no segments; the run always starts from an empty
      temporary directory. */
  method ProcessAudio(stored: Option<LedgerState>, clock: Clock, projectsText: string,
                      segmentLengthMinutes: nat, overlapSeconds: nat, decodedMs: Option<nat>,
                      customPrompt: string, defaultPrompt: string, inputs: seq<SegmentInputs>)
    returns (result: Option<string>, manager: TokenUsageManager,
             before: seq<SummaryRow>, after: seq<SummaryRow>)
    requires stored.Some? ==> WellFormed(stored.value)
    requires InputsWellFormed(inputs)
    requires decodedMs.Some? && OverlapMs(overlapSeconds) < SegmentLengthMs(segmentLengthMinutes) ==>
               |inputs| == SegmentCount(decodedMs.value, SegmentLengthMs(segmentLengthMinutes), OverlapMs(overlapSeconds))
    ensures fresh(manager) && manager.Valid()
    ensures var loaded := if stored.Some? then stored.value else EmptyLedger(clock.atLoad);
            var ids := ParseProjectIds(projectsText);
            && (ids == [] ==> result == None && manager.State() == loaded && before == [] && after == [])
            && (ids != [] ==>
                  var shown := ResetIfNeeded(RegisterAll(loaded, ids), clock.beforeSummary);
                  && before == SummaryRows(shown)
                  && (decodedMs.None? || SegmentLengthMs(segmentLengthMinutes) <= OverlapMs(overlapSeconds) ==>
                        result == None && manager.State() == shown)
                  && (decodedMs.Some? && OverlapMs(overlapSeconds) < SegmentLengthMs(segmentLengthMinutes) ==>
                        var run := Run(shown, map[], ids, BasePrompt(customPrompt, defaultPrompt), inputs);
                        && (run.result.None? || run.result.value == [] ==>
                              result == None && manager.State() == run.state.ledger)
                        && (run.result.None? ==> Exhausted(manager.State(), ids))
                        && (run.result.Some? && run.result.value != [] ==>
                              && result == Combined(run.result.value)
                              && manager.State() == ResetIfNeeded(run.state.ledger, clock.afterSummary)
                              && after == SummaryRows(manager.State()))))
  {
    manager := new TokenUsageManager(stored, clock.atLoad);
    before, after := [], [];
    var ids := ParseProjectIds(projectsText);
    if ids == [] {
      return None, manager, before, after;
    }
    RegisterProjects(manager, ids);
    before := manager.GetUsageSummary(clock.beforeSummary);
    if decodedMs.None? {
      return None, manager, before, after;
    }
    var plan := Segment(segmentLengthMinutes, overlapSeconds, decodedMs.value);
    if plan.InvalidConfig? {
      return None, manager, before, after;
    }
    var base := BasePrompt(customPrompt, defaultPrompt);
    assert NoBlankIds(ids);
    var outputs, final := ProcessSegments(manager, ids, base, inputs, map[]);
    if outputs.None? || outputs.value == [] {
      return None, manager, before, after;
    }
    result := CombineTranscriptions(outputs.value);
    after := manager.GetUsageSummary(clock.afterSummary);
  }
}
