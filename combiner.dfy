/** `combine_transcriptions`: the clean segment texts are joined into one
    document. Nothing to combine gives `None`; a single text is returned as
    it is; otherwise the first text is kept as it is and every later one is
    stripped and appended after a paragraph break, the break being added only
    when the text so far does not already end with one. */
module Combiner {
  import opened Text
  import opened Optional

  const ParagraphBreak: string := "\n\n"

  /** The text so far, closed with a paragraph break unless it already
      ends with one. */
  function Closed(combined: string): string {
    if EndsWith(combined, ParagraphBreak) then combined else combined + ParagraphBreak
  }

  /** Appending one later segment to the text so far. */
  function Append(combined: string, segment: string): string {
    Closed(combined) + Strip(segment)
  }

  /** The first `k` texts combined. */
  function CombinePrefix(parts: seq<string>, k: nat): string
    requires 1 <= k <= |parts|
    decreases k
  {
    if k == 1 then parts[0] else Append(CombinePrefix(parts, k - 1), parts[k - 1])
  }

  /** Closing keeps the text and leaves it ending with a paragraph break. */
  lemma ClosedShape(combined: string)
    ensures EndsWith(Closed(combined), ParagraphBreak)
    ensures |combined| <= |Closed(combined)| && Closed(combined)[..|combined|] == combined
  {
    if !EndsWith(combined, ParagraphBreak) {
      var g := combined + ParagraphBreak;
      assert g[|g| - 2..] == ParagraphBreak;
      PrefixOfConcat(combined, combined, ParagraphBreak);
    }
  }

  /** An append keeps the text so far and ends with a paragraph break
      followed by the stripped segment. */
  lemma AppendShape(combined: string, segment: string)
    ensures EndsWith(Append(combined, segment), ParagraphBreak + Strip(segment))
    ensures |combined| <= |Append(combined, segment)| && Append(combined, segment)[..|combined|] == combined
  {
    ClosedShape(combined);
    EndsWithConcat(Closed(combined), ParagraphBreak, Strip(segment));
    PrefixOfConcat(combined, Closed(combined), Strip(segment));
  }

  /** The combined text starts with the first text, kept as it is, and
      ends with the last later text, stripped, after a paragraph break. */
  lemma {:induction false} CombinePrefixShape(parts: seq<string>, k: nat)
    requires 1 <= k <= |parts|
    ensures |parts[0]| <= |CombinePrefix(parts, k)| && CombinePrefix(parts, k)[..|parts[0]|] == parts[0]
    ensures k > 1 ==> EndsWith(CombinePrefix(parts, k), ParagraphBreak + Strip(parts[k - 1]))
    decreases k
  {
    if k > 1 {
      var prev := CombinePrefix(parts, k - 1);
      CombinePrefixShape(parts, k - 1);
      AppendShape(prev, parts[k - 1]);
      var r := CombinePrefix(parts, k);
      assert r[..|parts[0]|] == r[..|prev|][..|parts[0]|];
    }
  }

  /** What `combine_transcriptions` returns. */
  function Combined(parts: seq<string>): (r: Option<string>)
    ensures r.None? <==> parts == []
    ensures |parts| == 1 ==> r == Some(parts[0])
  {
    if parts == [] then None else Some(CombinePrefix(parts, |parts|))
  }

  /** One pass of the loop of `combine_transcriptions`: strip the segment,
      add the paragraph break when the text so far lacks one, append. */
  method AppendSegment(combined: string, segment: string) returns (r: string)
    ensures r == Append(combined, segment)
  {
    var segmentText := Strip(segment);
    r := combined;
    if !EndsWith(r, ParagraphBreak) {
      r := r + ParagraphBreak;
    }
    r := r + segmentText;
  }

  /** The pass for the `i`-th text turns the first `i` texts combined into
      the first `i + 1`. */
  method CombineStep(parts: seq<string>, i: nat, combined: string) returns (r: string)
    requires 1 <= i < |parts|
    requires combined == CombinePrefix(parts, i)
    ensures r == CombinePrefix(parts, i + 1)
  {
    r := AppendSegment(combined, parts[i]);
  }

  /** The loop of `combine_transcriptions`, proved to give `Combined`. */
  method CombineTranscriptions(parts: seq<string>) returns (r: Option<string>)
    ensures r == Combined(parts)
  {
    if |parts| == 0 {
      return None;
    }
    var combined := parts[0];
    if |parts| > 1 {
      var i := 1;
      while i < |parts|
        invariant 1 <= i <= |parts|
        invariant combined == CombinePrefix(parts, i)
      {
        combined := CombineStep(parts, i, combined);
        i := i + 1;
      }
      assert i == |parts|;
    }
    assert combined == CombinePrefix(parts, |parts|);
    r := Some(combined);
  }

  /** The reference reading: the first text, then each later text stripped
      and preceded by one paragraph break. */
  function Paragraphs(parts: seq<string>, k: nat): string
    requires 1 <= k <= |parts|
    decreases k
  {
    if k == 1 then parts[0] else Paragraphs(parts, k - 1) + ParagraphBreak + Strip(parts[k - 1])
  }

  /** When the first text does not end with a paragraph break and no later
      text is blank, combining puts exactly one break between texts. */
  lemma {:induction false} CombineIsParagraphs(parts: seq<string>, k: nat)
    requires 1 <= k <= |parts|
    requires !EndsWith(parts[0], ParagraphBreak)
    requires forall j :: 1 <= j < |parts| ==> Strip(parts[j]) != ""
    ensures CombinePrefix(parts, k) == Paragraphs(parts, k)
    ensures !EndsWith(CombinePrefix(parts, k), ParagraphBreak)
    decreases k
  {
    if k > 1 {
      CombineIsParagraphs(parts, k - 1);
      ParagraphStep(CombinePrefix(parts, k - 1), parts[k - 1]);
    }
  }

  /** Appending a non-blank segment to a text that does not end with a
      paragraph break adds exactly one break, and the result again does not
      end with one. */
  lemma ParagraphStep(prev: string, segment: string)
    requires !EndsWith(prev, ParagraphBreak)
    requires Strip(segment) != ""
    ensures Append(prev, segment) == prev + ParagraphBreak + Strip(segment)
    ensures !EndsWith(Append(prev, segment), ParagraphBreak)
  {
    var last := Strip(segment);
    var r := prev + ParagraphBreak + last;
    assert r[|r| - 1] == last[|last| - 1];
  }

  /** The combined text is at least as long as the first text plus every
      later text stripped, and at most one paragraph break longer per later
      text. */
  lemma {:induction false} CombineLength(parts: seq<string>, k: nat)
    requires 1 <= k <= |parts|
    ensures StrippedLength(parts, k) <= |CombinePrefix(parts, k)| <= StrippedLength(parts, k) + 2 * (k - 1)
    decreases k
  {
    if k > 1 {
      CombineLength(parts, k - 1);
    }
  }

  /** `|parts[0]|` plus the stripped lengths of `parts[1..k]`. */
  function StrippedLength(parts: seq<string>, k: nat): nat
    requires 1 <= k <= |parts|
    decreases k
  {
    if k == 1 then |parts[0]| else StrippedLength(parts, k - 1) + |Strip(parts[k - 1])|
  }

  /** A single text is returned as it is, unstripped. */
  lemma ExampleSingle()
    ensures Combined(["a "]) == Some("a ")
    ensures Combined([]) == None
  {
  }

  /** Later texts are stripped. */
  lemma ExampleStripped()
    ensures Combined(["a", " b "]) == Some("a\n\nb")
  {
    assert SkipSpace(" b ", 0) == 1;
    assert SkipSpaceBack(" b ", 1, 3) == 2;
    assert Strip(" b ") == "b";
    var p := ["a", " b "];
    assert !EndsWith("a", ParagraphBreak);
    assert Append("a", " b ") == "a\n\nb";
    assert CombinePrefix(p, 2) == Append(CombinePrefix(p, 1), p[1]);
  }

  /** A break already there is not doubled. */
  lemma ExampleBreakKept()
    ensures Combined(["a\n\n", "b"]) == Some("a\n\nb")
  {
    StripOfStripped("b");
    assert EndsWith("a\n\n", ParagraphBreak);
    var p := ["a\n\n", "b"];
    assert Append("a\n\n", "b") == "a\n\nb";
    assert CombinePrefix(p, 2) == Append(CombinePrefix(p, 1), p[1]);
  }

  /** A blank later text adds a break but no text, and the next one needs no
      second break. */
  lemma ExampleBlankMiddle()
    ensures Combined(["a", " ", "b"]) == Some("a\n\nb")
  {
    var p := ["a", " ", "b"];
    assert CombinePrefix(p, 2) == "a\n\n" by {
      assert SkipSpace(" ", 0) == 1;
      assert Strip(" ") == "";
      assert !EndsWith("a", ParagraphBreak);
      assert CombinePrefix(p, 2) == Append(CombinePrefix(p, 1), p[1]);
    }
    assert CombinePrefix(p, 3) == "a\n\nb" by {
      StripOfStripped("b");
      assert EndsWith("a\n\n", ParagraphBreak);
      assert CombinePrefix(p, 3) == Append(CombinePrefix(p, 2), p[2]);
    }
  }
}
