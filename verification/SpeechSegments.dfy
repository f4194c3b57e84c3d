/** Splitting speech into segments a synthesis backend can take, and accepting a plan that was prepared
    elsewhere (services/tts/src/openclaw_local_tts/speech_segments.py).

    How the text falls into paragraphs and sentences is given.  `budget` is what a segment is measured
    by: the segment itself, or the segment with its controls restored.
 */
module SpeechSegments {
  import opened Collections
  import opened Wrappers
  import opened SpeechText

  datatype Segment = Segment(text: string, pause: nat)

  datatype Profile = Profile(
    minChars: nat, paragraphPause: nat, sentencePause: nat, clausePause: nat, fragmentPause: nat)

  datatype Limits = Limits(word: char -> bool, budget: string -> string, maxWords: nat, maxChars: nat)

  /** What split_speech_text asks of its limits before it starts. */
  ghost predicate Usable(l: Limits) { WordClass(l.word) && l.maxWords >= 1 && l.maxChars >= 64 }

  predicate Within(l: Limits, text: string) {
    |l.budget(text)| <= l.maxChars && WordCount(l.word, l.budget(text)) <= l.maxWords
  }

  ghost predicate Plain(l: Limits) { forall text :: l.budget(text) == text }

  // ----- where a sentence that is too long is cut

  function Least(a: nat, b: nat): nat { if a <= b then a else b }

  /** The largest cut the limits allow by themselves. */
  function HardLimit(l: Limits, text: string): (n: nat)
    ensures n <= |text| && n <= l.maxChars
  {
    var n := Least(|text|, l.maxChars);
    if WordCount(l.word, text) > l.maxWords then Least(n, WordEnd(l.word, text, l.maxWords, 0)) else n
  }

  predicate GapStart(text: string, i: nat)
    requires i < |text|
  {
    Space(text[i]) && (i == 0 || !Space(text[i - 1]))
  }

  /** The last gap before `end` that begins at `from` or later and leaves a text within the limits. */
  function SafeGap(l: Limits, text: string, end: nat): Option<nat>
    requires end <= |text|
  {
    if end <= 1 then None
    else if GapStart(text, end - 1) && Within(l, text[..end - 1]) then Some(end - 1)
    else SafeGap(l, text, end - 1)
  }

  predicate ClauseMark(c: char) { c == ';' || c == ':' || c == ',' || c as int == 0x2013 || c as int == 0x2014 }

  /** The end of the gap that begins at `i`. */
  function GapEnd(text: string, i: nat): (end: nat)
    requires i <= |text|
    ensures i <= end <= |text|
    decreases |text| - i
  {
    if i < |text| && Space(text[i]) then GapEnd(text, i + 1) else i
  }

  /** The end of the last clause mark with a gap after it, counting marks before `end`. */
  function LastClauseEnd(window: string, end: nat): (r: Option<nat>)
    requires end <= |window|
    ensures r.Some? ==> 0 < r.value <= |window|
  {
    if end == 0 then None
    else if ClauseMark(window[end - 1]) && end < |window| && Space(window[end]) then Some(GapEnd(window, end))
    else LastClauseEnd(window, end - 1)
  }

  function LastGapStart(window: string, end: nat): (r: Option<nat>)
    requires end <= |window|
    ensures r.Some? ==> r.value < end
  {
    if end == 0 then None else if GapStart(window, end - 1) then Some(end - 1) else LastGapStart(window, end - 1)
  }

  /** The cut inside the window: after a clause, else before a gap, else at its end; nothing before
      45% of the window counts. */
  function CutIn(window: string): (n: nat)
    requires window != ""
    ensures 0 < n <= |window|
  {
    var preferred := if |window| * 45 / 100 < 1 then 1 else |window| * 45 / 100;
    var clause := LastClauseEnd(window, |window|);
    var gap := LastGapStart(window, |window|);
    if clause.Some? && clause.value >= preferred then clause.value
    else if gap.Some? && gap.value >= preferred then gap.value
    else |window|
  }

  /** A clause mark with a gap after it, the gap ending at `end`. */
  predicate ClauseEnd(window: string, end: nat) {
    && end <= |window|
    && exists i: nat :: i + 1 < end && ClauseMark(window[i]) && GapEnd(window, i + 1) == end
  }

  predicate GapAt(window: string, i: nat) { i < |window| && GapStart(window, i) }

  lemma {:induction false} LastClauseEndIsLast(window: string, end: nat)
    requires end <= |window|
    ensures var r := LastClauseEnd(window, end);
            && (r.Some? ==> ClauseEnd(window, r.value))
            && forall i :: 0 <= i < end && ClauseMark(window[i]) && i + 1 < |window| && Space(window[i + 1]) ==>
                 r.Some? && GapEnd(window, i + 1) <= r.value
    decreases end
  {
    if end > 0 {
      if ClauseMark(window[end - 1]) && end < |window| && Space(window[end]) {
        GapGrows(window, end);
        forall i | 0 <= i < end && ClauseMark(window[i]) && i + 1 < |window| && Space(window[i + 1])
          ensures GapEnd(window, i + 1) <= GapEnd(window, end)
        {
          GapStops(window, i + 1, end);
        }
      } else {
        LastClauseEndIsLast(window, end - 1);
      }
    }
  }

  lemma GapGrows(window: string, i: nat)
    requires i < |window| && Space(window[i])
    ensures GapEnd(window, i) > i
  {
  }

  /** A gap that begins before a mark ends before it, or the two gaps are the same. */
  lemma {:induction false} GapStops(window: string, i: nat, end: nat)
    requires i <= end <= |window| && (end == i || !Space(window[end - 1]))
    ensures GapEnd(window, i) <= GapEnd(window, end)
    decreases end - i
  {
    if i < end && Space(window[i]) { GapStops(window, i + 1, end); }
  }

  lemma {:induction false} LastGapStartIsLast(window: string, end: nat)
    requires end <= |window|
    ensures var r := LastGapStart(window, end);
            && (r.Some? ==> GapAt(window, r.value))
            && forall i :: 0 <= i < end && GapStart(window, i) ==> r.Some? && i <= r.value
    decreases end
  {
    if end > 0 { LastGapStartIsLast(window, end - 1); }
  }

  /** The cut is after the last clause end past 45% of the window; failing that, before the last gap
      past it; failing that, at the end. */
  lemma CutIsPreferred(window: string)
    requires window != ""
    ensures var n, preferred := CutIn(window), if |window| * 45 / 100 < 1 then 1 else |window| * 45 / 100;
            if exists e: nat :: ClauseEnd(window, e) && e >= preferred
            then ClauseEnd(window, n) && n >= preferred && forall e: nat :: ClauseEnd(window, e) ==> e <= n
            else if exists i: nat :: GapAt(window, i) && i >= preferred
            then GapAt(window, n) && n >= preferred && forall i: nat :: GapAt(window, i) ==> i <= n
            else n == |window|
  {
    LastClauseEndIsLast(window, |window|);
    LastGapStartIsLast(window, |window|);
    forall e: nat | ClauseEnd(window, e)
      ensures LastClauseEnd(window, |window|).Some? && e <= LastClauseEnd(window, |window|).value
    {
      var i: nat :| i + 1 < e && ClauseMark(window[i]) && GapEnd(window, i + 1) == e;
      assert Space(window[i + 1]);
    }
  }

  /** How much of a text that is too long makes the next piece, if it can be cut at all. */
  function NextCut(l: Limits, text: string): (r: Option<nat>)
    requires text != ""
    ensures r.Some? ==> 0 < r.value <= |text|
  {
    var hard := HardLimit(l, text);
    if hard == 0 then None
    else if Within(l, text[..hard]) then Some(CutIn(text[..hard]))
    else
      match SafeGap(l, text, hard)
      case None => None
      case Some(gap) => SafeGapBounds(l, text, hard); Some(CutIn(text[..gap]))
  }

  lemma {:induction false} SafeGapBounds(l: Limits, text: string, end: nat)
    requires end <= |text|
    ensures SafeGap(l, text, end).Some? ==>
              0 < SafeGap(l, text, end).value < end && Within(l, text[..SafeGap(l, text, end).value])
  {
    if end > 1 { SafeGapBounds(l, text, end - 1); }
  }

  /** The pieces of a text that is already stripped; None when an atomic unit exceeds the limits. */
  function Pieces(l: Limits, text: string): Option<seq<string>>
    decreases |text|
  {
    if text == "" then Some([])
    else if Within(l, text) then Some([text])
    else
      match NextCut(l, text)
      case None => None
      case Some(n) =>
        StripNotLonger(text[n..]);
        match Pieces(l, Strip(text[n..]))
        case None => None
        case Some(rest) => Some([Strip(text[..n])] + rest)
  }

  lemma StripNotLonger(s: string)
    ensures |Strip(s)| <= |s|
  {
    var lo, hi := StripShape(s);
  }

  /** A sentence cut until every piece is within the limits. */
  method BoundSentence(l: Limits, sentence: string) returns (pieces: Option<seq<string>>)
    ensures pieces == Pieces(l, Strip(sentence))
  {
    var remaining, done := Strip(sentence), [];
    PrependNothing(Pieces(l, remaining));
    while remaining != ""
      invariant Pieces(l, Strip(sentence)) == Prepend(done, Pieces(l, remaining))
      decreases |remaining|
    {
      if Within(l, remaining) {
        assert done + [remaining] == done + ([remaining] + []);
        return Some(done + [remaining]);
      }
      var cut := NextCut(l, remaining);
      if cut.None? { return None; }
      StripNotLonger(remaining[cut.value..]);
      var piece := Strip(remaining[..cut.value]);
      PrependPrepend(done, piece, Pieces(l, Strip(remaining[cut.value..])));
      done := done + [piece];
      remaining := Strip(remaining[cut.value..]);
    }
    assert done + [] == done;
    return Some(done);
  }

  function Prepend(first: seq<string>, rest: Option<seq<string>>): Option<seq<string>> {
    if rest.None? then None else Some(first + rest.value)
  }

  lemma PrependNothing(rest: Option<seq<string>>)
    ensures Prepend([], rest) == rest
  {
    if rest.Some? { assert [] + rest.value == rest.value; }
  }

  lemma PrependPrepend(first: seq<string>, piece: string, rest: Option<seq<string>>)
    ensures Prepend(first, Prepend([piece], rest)) == Prepend(first + [piece], rest)
  {
    if rest.Some? { assert first + ([piece] + rest.value) == (first + [piece]) + rest.value; }
  }

  // ----- the pieces of a sentence

  function SpokenAll(texts: seq<string>): string {
    if texts == [] then "" else Spoken(texts[0]) + SpokenAll(texts[1..])
  }

  ghost predicate Units(l: Limits, texts: seq<string>) {
    forall k :: 0 <= k < |texts| ==>
      texts[k] != "" && Trimmed(texts[k]) && (Plain(l) ==> Within(l, texts[k]))
  }

  lemma HardLimitHolds(l: Limits, text: string)
    requires Usable(l) && text != ""
    ensures HardLimit(l, text) > 0
    ensures forall n: nat :: n <= HardLimit(l, text) ==> WordCount(l.word, text[..n]) <= l.maxWords
  {
    var hard := HardLimit(l, text);
    if WordCount(l.word, text) > l.maxWords {
      var end := WordEnd(l.word, text, l.maxWords, 0);
      assert text[..0] == "";
      WordEndCounts(l.word, text, l.maxWords, 0);
      assert end > 0;
      forall n: nat | n <= hard ensures WordCount(l.word, text[..n]) <= l.maxWords {
        assert text[..end][..n] == text[..n];
        PrefixHasFewerWords(l.word, text[..end], n);
      }
    } else {
      forall n: nat | n <= hard ensures WordCount(l.word, text[..n]) <= l.maxWords {
        PrefixHasFewerWords(l.word, text, n);
      }
    }
  }

  /** A hard limit short of the text and of the character limit is the end of the last word allowed. */
  lemma HardLimitEndsAWord(l: Limits, text: string)
    requires Usable(l) && HardLimit(l, text) < Least(|text|, l.maxChars)
    ensures var n := HardLimit(l, text); WordCount(l.word, text[..n]) == l.maxWords && !l.word(text[n])
  {
    assert text[..0] == "";
    WordEndCounts(l.word, text, l.maxWords, 0);
    WordEndIsEnd(l.word, text, l.maxWords, 0);
  }

  /** A cut piece is never empty, and is within the limits when the text is measured as it is. */
  lemma CutPieceFits(l: Limits, text: string)
    requires Usable(l) && text != "" && Trimmed(text)
    ensures Plain(l) ==> NextCut(l, text).Some?
    ensures NextCut(l, text).Some? ==>
              var piece := Strip(text[..NextCut(l, text).value]);
              piece != "" && Trimmed(piece) && (Plain(l) ==> Within(l, piece))
  {
    HardLimitHolds(l, text);
    var hard := HardLimit(l, text);
    if Plain(l) { assert Within(l, text[..hard]); }
    if NextCut(l, text).Some? {
      var n := NextCut(l, text).value;
      var head := text[..n];
      var lo, hi := StripShape(head);
      StripKeepsSpeech(head);
      StripHasFewerWords(l.word, head);
      SafeGapBounds(l, text, hard);
      if Plain(l) {
        assert n <= hard;
        assert WordCount(l.word, text[..n]) <= l.maxWords;
        assert l.budget(Strip(head)) == Strip(head);
      }
    }
  }

  lemma {:induction false} PieceBefore(l: Limits, text: string, n: nat, tail: seq<string>)
    requires n <= |text| && Units(l, tail) && SpokenAll(tail) == Spoken(Strip(text[n..]))
    requires var piece := Strip(text[..n]); piece != "" && Trimmed(piece) && (Plain(l) ==> Within(l, piece))
    ensures Units(l, [Strip(text[..n])] + tail) && SpokenAll([Strip(text[..n])] + tail) == Spoken(text)
  {
    hide Within, Plain, Strip, Trimmed;
    var all := [Strip(text[..n])] + tail;
    assert all[1..] == tail;
    StripKeepsSpoken(text[..n]);
    StripKeepsSpoken(text[n..]);
    SpokenConcat(text[..n], text[n..]);
    assert text[..n] + text[n..] == text;
  }

  /** Cutting loses, repeats and reorders nothing that is spoken; every piece is a trimmed, non-empty
      text; and measured as it is, any text can be cut, into pieces within the limits. */
  lemma {:induction false} PiecesHold(l: Limits, text: string)
    requires Usable(l) && Trimmed(text)
    ensures Plain(l) ==> Pieces(l, text).Some?
    ensures Pieces(l, text).Some? ==>
              Units(l, Pieces(l, text).value) && SpokenAll(Pieces(l, text).value) == Spoken(text)
    decreases |text|
  {
    if text == "" {
    } else if Within(l, text) {
      assert [text][1..] == [];
    } else {
      CutPieceFits(l, text);
      hide Within, Plain, Units, Usable, NextCut, Strip;
      var cut := NextCut(l, text);
      if cut.Some? {
        var rest := Strip(text[cut.value..]);
        StripNotLonger(text[cut.value..]);
        var lo, hi := StripShape(text[cut.value..]);
        PiecesHold(l, rest);
        if Pieces(l, rest).Some? { PieceBefore(l, text, cut.value, Pieces(l, rest).value); }
      }
    }
  }

  // ----- packing pieces into segments

  function Candidate(current: string, unit: string): string {
    if current == "" then unit else Strip(current + " " + unit)
  }

  predicate MustClose(l: Limits, target: nat, current: string, unit: string) {
    && current != ""
    && (WordCount(l.word, l.budget(Candidate(current, unit))) > target || !Within(l, Candidate(current, unit)))
  }

  function Packed(l: Limits, target: nat, current: string, units: seq<string>): seq<string>
    decreases |units|
  {
    if units == [] then if current == "" then [] else [current]
    else if MustClose(l, target, current, units[0]) then [current] + Packed(l, target, units[0], units[1..])
    else Packed(l, target, Candidate(current, units[0]), units[1..])
  }

  predicate EndsIn(text: string, marks: string) { text != "" && text[|text| - 1] in marks }

  function PauseAfter(p: Profile, text: string, paragraphEnd: bool): nat {
    var stripped := StripRight(text);
    if paragraphEnd then p.paragraphPause
    else if EndsIn(stripped, ".!?\U{00BB}\U{201D}") then p.sentencePause
    else if EndsIn(stripped, ";:,\U{2013}\U{2014}") then p.clausePause
    else p.fragmentPause
  }

  /** The segments of one paragraph; only its last one can carry the pause between paragraphs. */
  function WithPauses(p: Profile, texts: seq<string>, paragraphEnd: bool): seq<Segment> {
    if texts == [] then []
    else [Segment(texts[0], PauseAfter(p, texts[0], paragraphEnd && |texts| == 1))] +
         WithPauses(p, texts[1..], paragraphEnd)
  }

  ghost predicate Spoke(texts: seq<string>) {
    forall k :: 0 <= k < |texts| ==> texts[k] != "" && Trimmed(texts[k])
  }

  /** Two trimmed texts with a space between them are trimmed. */
  lemma CandidateIsPlain(current: string, unit: string)
    requires unit != "" && Trimmed(current) && Trimmed(unit)
    ensures Candidate(current, unit) != "" && Trimmed(Candidate(current, unit))
    ensures current != "" ==> Candidate(current, unit) == current + " " + unit
    ensures Spoken(Candidate(current, unit)) == Spoken(current) + Spoken(unit)
  {
    if current != "" {
      StripNothing(current + " " + unit);
      SpokenConcat(current + " ", unit);
      SpokenConcat(current, " ");
      assert Spoken(" ") == "" by { assert " "[1..] == ""; }
    }
  }

  lemma {:induction false} PackedIsNonEmpty(l: Limits, target: nat, current: string, units: seq<string>)
    requires current != "" && Trimmed(current) && Spoke(units)
    ensures Packed(l, target, current, units) != []
    decreases |units|
  {
    if units != [] && !MustClose(l, target, current, units[0]) {
      CandidateIsPlain(current, units[0]);
      PackedIsNonEmpty(l, target, Candidate(current, units[0]), units[1..]);
    }
  }

  /** A segment that is closed before others is not the last of its paragraph. */
  lemma CloseSegment(p: Profile, done: seq<Segment>, current: string, rest: seq<string>, paragraphEnd: bool)
    requires rest != []
    ensures done + WithPauses(p, [current] + rest, paragraphEnd) ==
            (done + [Segment(current, PauseAfter(p, current, false))]) + WithPauses(p, rest, paragraphEnd)
  {
    assert ([current] + rest)[1..] == rest;
  }

  method PackParagraph(l: Limits, p: Profile, target: nat, units: seq<string>, paragraphEnd: bool)
      returns (segments: seq<Segment>)
    requires Spoke(units)
    ensures segments == WithPauses(p, Packed(l, target, "", units), paragraphEnd)
  {
    hide PauseAfter, Within, WordCount;
    var current, i := "", 0;
    segments := [];
    assert units[0..] == units;
    while i < |units|
      invariant 0 <= i <= |units| && Trimmed(current)
      invariant segments + WithPauses(p, Packed(l, target, current, units[i..]), paragraphEnd) ==
                WithPauses(p, Packed(l, target, "", units), paragraphEnd)
    {
      assert units[i..][0] == units[i] && units[i..][1..] == units[i + 1..];
      CandidateIsPlain(current, units[i]);
      if MustClose(l, target, current, units[i]) {
        PackedIsNonEmpty(l, target, units[i], units[i + 1..]);
        CloseSegment(p, segments, current, Packed(l, target, units[i], units[i + 1..]), paragraphEnd);
        segments := segments + [Segment(current, PauseAfter(p, current, false))];
        current := units[i];
      } else {
        current := Candidate(current, units[i]);
      }
      i := i + 1;
    }
    if current != "" { segments := segments + [Segment(current, PauseAfter(p, current, paragraphEnd))]; }
  }

  lemma SpokenFirst(first: string, rest: seq<string>)
    ensures SpokenAll([first] + rest) == Spoken(first) + SpokenAll(rest)
  {
    assert ([first] + rest)[1..] == rest;
  }

  lemma {:induction false} PackingSpeaks(l: Limits, target: nat, current: string, units: seq<string>)
    requires Spoke(units) && Trimmed(current)
    ensures SpokenAll(Packed(l, target, current, units)) == Spoken(current) + SpokenAll(units)
    decreases |units|
  {
    hide Within, WordCount;
    if units == [] {
      if current != "" { assert [current][1..] == []; }
    } else {
      CandidateIsPlain(current, units[0]);
      hide Spoken;
      if MustClose(l, target, current, units[0]) {
        SpokenFirst(current, Packed(l, target, units[0], units[1..]));
        PackingSpeaks(l, target, units[0], units[1..]);
      } else {
        PackingSpeaks(l, target, Candidate(current, units[0]), units[1..]);
        Regroup(Spoken(current), Spoken(units[0]), SpokenAll(units[1..]));
      }
    }
  }

  lemma {:induction false} PackingFits(l: Limits, target: nat, current: string, units: seq<string>)
    requires Units(l, units) && Trimmed(current) && (current != "" && Plain(l) ==> Within(l, current))
    ensures Units(l, Packed(l, target, current, units))
    decreases |units|
  {
    hide Within, Plain, WordCount, Spoken;
    if units != [] {
      CandidateIsPlain(current, units[0]);
      if MustClose(l, target, current, units[0]) {
        PackingFits(l, target, units[0], units[1..]);
      } else {
        PackingFits(l, target, Candidate(current, units[0]), units[1..]);
      }
    }
  }

  predicate OnTarget(l: Limits, target: nat, text: string) {
    WordCount(l.word, l.budget(text)) <= target && Within(l, text)
  }

  /** `next` begins with a unit that `text` had no room for. */
  ghost predicate HadNoRoom(l: Limits, target: nat, text: string, next: string, units: seq<string>) {
    exists j :: 0 <= j < |units| && units[j] <= next && !OnTarget(l, target, Candidate(text, units[j]))
  }

  ghost predicate Greedy(l: Limits, target: nat, texts: seq<string>, units: seq<string>) {
    forall k, m :: 0 <= k && m == k + 1 && m < |texts| ==> HadNoRoom(l, target, texts[k], texts[m], units)
  }

  /** Packing is greedy: a text is closed only when the next unit does not fit, and a text of several units is
      within the target and the limits. */
  lemma {:induction false} PackingIsGreedy(l: Limits, target: nat, current: string, units: seq<string>)
    requires Spoke(units) && Trimmed(current)
    ensures var r := Packed(l, target, current, units);
            && Greedy(l, target, r, units)
            && (current != "" ==> r != [] && current <= r[0])
            && forall k :: 0 <= k < |r| ==> r[k] in units || r[k] == current || OnTarget(l, target, r[k])
    decreases |units|
  {
    hide Within, WordCount, Spoken;
    if units != [] {
      CandidateIsPlain(current, units[0]);
      if MustClose(l, target, current, units[0]) {
        PackingIsGreedy(l, target, units[0], units[1..]);
        ClosedForRoom(l, target, current, Packed(l, target, units[0], units[1..]), units);
      } else {
        PackingIsGreedy(l, target, Candidate(current, units[0]), units[1..]);
        LaterUnits(l, target, Packed(l, target, current, units), units);
      }
    }
  }

  lemma LaterUnits(l: Limits, target: nat, texts: seq<string>, units: seq<string>)
    requires units != [] && Greedy(l, target, texts, units[1..])
    ensures Greedy(l, target, texts, units)
  {
    hide OnTarget, Candidate;
    forall k, m | 0 <= k && m == k + 1 && m < |texts| ensures HadNoRoom(l, target, texts[k], texts[m], units) {
      assert HadNoRoom(l, target, texts[k], texts[m], units[1..]);
      var j :| 0 <= j < |units[1..]| && units[1..][j] <= texts[m] &&
               !OnTarget(l, target, Candidate(texts[k], units[1..][j]));
      assert units[j + 1] == units[1..][j];
    }
  }

  lemma ClosedForRoom(l: Limits, target: nat, text: string, rest: seq<string>, units: seq<string>)
    requires units != [] && rest != [] && units[0] <= rest[0] && Greedy(l, target, rest, units[1..])
    requires !OnTarget(l, target, Candidate(text, units[0]))
    ensures Greedy(l, target, [text] + rest, units)
  {
    hide OnTarget, Candidate;
    LaterUnits(l, target, rest, units);
    var all := [text] + rest;
    forall k, m | 0 <= k && m == k + 1 && m < |all| ensures HadNoRoom(l, target, all[k], all[m], units) {
      if k > 0 { assert HadNoRoom(l, target, rest[k - 1], rest[m - 1], units); }
    }
  }

  // ----- merging short neighbours

  function Combined(left: Segment, right: Segment): Segment { Segment(left.text + " " + right.text, right.pause) }

  predicate Mergeable(l: Limits, minChars: nat, left: Segment, right: Segment) {
    && Least(|l.budget(left.text)|, |l.budget(right.text)|) < minChars
    && Within(l, Combined(left, right).text)
  }

  function MergedAt(segments: seq<Segment>, index: nat): (r: seq<Segment>)
    requires index + 1 < |segments|
    ensures |r| == |segments| - 1
  {
    segments[..index] + [Combined(segments[index], segments[index + 1])] + segments[index + 2..]
  }

  function Merged(l: Limits, minChars: nat, segments: seq<Segment>, index: nat): seq<Segment>
    decreases |segments|, |segments| - index
  {
    if index + 1 >= |segments| then segments
    else if Mergeable(l, minChars, segments[index], segments[index + 1])
    then Merged(l, minChars, MergedAt(segments, index), if index == 0 then 0 else index - 1)
    else Merged(l, minChars, segments, index + 1)
  }

  /** The list is changed in place; after a merge the new segment is compared with the one before it. */
  method MergeShort(l: Limits, minChars: nat, given: seq<Segment>) returns (segments: seq<Segment>)
    ensures segments == Merged(l, minChars, given, 0)
  {
    segments := given;
    var index := 0;
    while index + 1 < |segments|
      invariant 0 <= index
      invariant Merged(l, minChars, segments, index) == Merged(l, minChars, given, 0)
      decreases |segments|, |segments| - index
    {
      var left, right := segments[index], segments[index + 1];
      if Mergeable(l, minChars, left, right) {
        segments := segments[..index] + [Combined(left, right)] + segments[index + 2..];
        index := if index - 1 > 0 then index - 1 else 0;
      } else {
        index := index + 1;
      }
    }
  }

  ghost predicate NoneMergeable(l: Limits, minChars: nat, segments: seq<Segment>, end: nat) {
    forall k :: 0 <= k < end && k + 1 < |segments| ==> !Mergeable(l, minChars, segments[k], segments[k + 1])
  }

  /** The loop ends with no neighbours left that should have been merged. */
  lemma {:induction false} MergingIsComplete(l: Limits, minChars: nat, segments: seq<Segment>, index: nat)
    requires NoneMergeable(l, minChars, segments, index)
    ensures var r := Merged(l, minChars, segments, index); NoneMergeable(l, minChars, r, |r|)
    decreases |segments|, |segments| - index
  {
    if index + 1 < |segments| {
      if Mergeable(l, minChars, segments[index], segments[index + 1]) {
        var next := MergedAt(segments, index);
        assert forall k :: 0 <= k < index ==> next[k] == segments[k];
        MergingIsComplete(l, minChars, next, if index == 0 then 0 else index - 1);
      } else {
        MergingIsComplete(l, minChars, segments, index + 1);
      }
    }
  }

  function Texts(segments: seq<Segment>): seq<string> {
    seq(|segments|, i requires 0 <= i < |segments| => segments[i].text)
  }

  lemma {:induction false} SpokenAllConcat(a: seq<string>, b: seq<string>)
    ensures SpokenAll(a + b) == SpokenAll(a) + SpokenAll(b)
    decreases |a|
  {
    if a == [] {
      assert a + b == b;
    } else {
      assert (a + b)[1..] == a[1..] + b;
      SpokenAllConcat(a[1..], b);
    }
  }

  lemma SpokenReplace(before: seq<string>, left: string, right: string, both: string, after: seq<string>)
    requires Spoken(both) == Spoken(left) + Spoken(right)
    ensures SpokenAll(before + [both] + after) == SpokenAll(before + [left, right] + after)
  {
    SpokenAllConcat(before + [left, right], after);
    SpokenAllConcat(before, [left, right]);
    SpokenAllConcat(before + [both], after);
    SpokenAllConcat(before, [both]);
    assert [left, right][1..] == [right] && SpokenAll([right]) == Spoken(right) && SpokenAll([both]) == Spoken(both);
  }

  lemma MergedTexts(segments: seq<Segment>, index: nat)
    requires index + 1 < |segments|
    ensures var before, after := Texts(segments[..index]), Texts(segments[index + 2..]);
            && Texts(segments) == before + [segments[index].text, segments[index + 1].text] + after
            && Texts(MergedAt(segments, index)) ==
               before + [Combined(segments[index], segments[index + 1]).text] + after
  {
  }

  lemma UnitsReplace(l: Limits, before: seq<string>, left: string, right: string, both: string, after: seq<string>)
    requires Units(l, before + [left, right] + after) && Units(l, [both])
    ensures Units(l, before + [both] + after)
  {
    var was, now := before + [left, right] + after, before + [both] + after;
    assert [both][0] == both;
    assert forall k :: 0 <= k < |before| ==> now[k] == was[k];
    assert forall k :: |before| < k < |now| ==> now[k] == was[k + 1];
  }

  lemma MergeOneHolds(l: Limits, segments: seq<Segment>, index: nat)
    requires index + 1 < |segments| && Units(l, Texts(segments))
    requires Within(l, Combined(segments[index], segments[index + 1]).text)
    ensures Units(l, Texts(MergedAt(segments, index)))
    ensures SpokenAll(Texts(MergedAt(segments, index))) == SpokenAll(Texts(segments))
  {
    var left, right := segments[index].text, segments[index + 1].text;
    var both := Combined(segments[index], segments[index + 1]).text;
    assert Texts(segments)[index] == left && Texts(segments)[index + 1] == right;
    CandidateIsPlain(left, right);
    MergedTexts(segments, index);
    var before, after := Texts(segments[..index]), Texts(segments[index + 2..]);
    SpokenReplace(before, left, right, both, after);
    UnitsReplace(l, before, left, right, both, after);
  }

  lemma {:induction false} MergingHolds(l: Limits, minChars: nat, segments: seq<Segment>, index: nat)
    requires Units(l, Texts(segments))
    ensures var r := Merged(l, minChars, segments, index);
            Units(l, Texts(r)) && SpokenAll(Texts(r)) == SpokenAll(Texts(segments))
    decreases |segments|, |segments| - index
  {
    if index + 1 < |segments| {
      if Mergeable(l, minChars, segments[index], segments[index + 1]) {
        MergeOneHolds(l, segments, index);
        MergingHolds(l, minChars, MergedAt(segments, index), if index == 0 then 0 else index - 1);
      } else {
        MergingHolds(l, minChars, segments, index + 1);
      }
    }
  }

  // ----- the whole text

  datatype Error = InvalidLimits | AtomicUnitTooLong

  function AllPieces(l: Limits, sentences: seq<string>): Option<seq<string>>
    decreases |sentences|
  {
    if sentences == [] then Some([])
    else
      match Pieces(l, Strip(sentences[0]))
      case None => None
      case Some(first) => Prepend(first, AllPieces(l, sentences[1..]))
  }

  function Paragraphs(l: Limits, p: Profile, target: nat, paragraphs: seq<seq<string>>): Option<seq<Segment>>
    decreases |paragraphs|
  {
    if paragraphs == [] then Some([])
    else
      match AllPieces(l, paragraphs[0])
      case None => None
      case Some(units) =>
        Before(WithPauses(p, Packed(l, target, "", units), |paragraphs| > 1),
               Paragraphs(l, p, target, paragraphs[1..]))
  }

  function Before(first: seq<Segment>, rest: Option<seq<Segment>>): Option<seq<Segment>> {
    if rest.None? then None else Some(first + rest.value)
  }

  lemma BeforeBefore(a: seq<Segment>, b: seq<Segment>, rest: Option<seq<Segment>>)
    ensures Before(a, Before(b, rest)) == Before(a + b, rest) && Before([], rest) == rest
  {
    if rest.Some? { assert a + (b + rest.value) == (a + b) + rest.value && [] + rest.value == rest.value; }
  }

  function Split(l: Limits, p: Profile, target: nat, blank: bool, paragraphs: seq<seq<string>>)
      : Result<seq<Segment>, Error>
  {
    if blank then Ok([])
    else if target < 1 || l.maxWords < target || l.maxChars < 64 then Err(InvalidLimits)
    else
      match Paragraphs(l, p, target, paragraphs)
      case None => Err(AtomicUnitTooLong)
      case Some(segments) => Ok(if p.minChars > 0 then Merged(l, p.minChars, segments, 0) else segments)
  }

  function Flat(paragraphs: seq<seq<string>>): seq<string> {
    if paragraphs == [] then [] else paragraphs[0] + Flat(paragraphs[1..])
  }

  lemma {:induction false} AllPiecesHold(l: Limits, sentences: seq<string>)
    requires Usable(l)
    ensures Plain(l) ==> AllPieces(l, sentences).Some?
    ensures AllPieces(l, sentences).Some? ==>
              && Units(l, AllPieces(l, sentences).value)
              && SpokenAll(AllPieces(l, sentences).value) == SpokenAll(sentences)
    decreases |sentences|
  {
    if sentences != [] {
      var lo, hi := StripShape(sentences[0]);
      PiecesHold(l, Strip(sentences[0]));
      StripKeepsSpoken(sentences[0]);
      AllPiecesHold(l, sentences[1..]);
      if AllPieces(l, sentences).Some? {
        SpokenAllConcat(Pieces(l, Strip(sentences[0])).value, AllPieces(l, sentences[1..]).value);
      }
    }
  }

  lemma {:induction false} PausesKeepTexts(p: Profile, texts: seq<string>, paragraphEnd: bool)
    ensures Texts(WithPauses(p, texts, paragraphEnd)) == texts
    decreases |texts|
  {
    if texts != [] {
      PausesKeepTexts(p, texts[1..], paragraphEnd);
      var all, tail := WithPauses(p, texts, paragraphEnd), WithPauses(p, texts[1..], paragraphEnd);
      assert forall k :: 0 < k < |all| ==> Texts(all)[k] == Texts(tail)[k - 1];
    }
  }

  lemma ParagraphHolds(l: Limits, p: Profile, target: nat, sentences: seq<string>, paragraphEnd: bool)
    requires Usable(l) && AllPieces(l, sentences).Some?
    ensures var texts := Texts(WithPauses(p, Packed(l, target, "", AllPieces(l, sentences).value), paragraphEnd));
            Units(l, texts) && SpokenAll(texts) == SpokenAll(sentences)
  {
    var units := AllPieces(l, sentences).value;
    AllPiecesHold(l, sentences);
    PackingFits(l, target, "", units);
    PackingSpeaks(l, target, "", units);
    PausesKeepTexts(p, Packed(l, target, "", units), paragraphEnd);
  }

  lemma UnitsConcat(l: Limits, a: seq<string>, b: seq<string>)
    requires Units(l, a) && Units(l, b)
    ensures Units(l, a + b)
  {
  }

  lemma TextsConcat(a: seq<Segment>, b: seq<Segment>)
    ensures Texts(a + b) == Texts(a) + Texts(b)
  {
  }

  lemma {:induction false} ParagraphsHold(l: Limits, p: Profile, target: nat, paragraphs: seq<seq<string>>)
    requires Usable(l)
    ensures Plain(l) ==> Paragraphs(l, p, target, paragraphs).Some?
    ensures Paragraphs(l, p, target, paragraphs).Some? ==>
              var texts := Texts(Paragraphs(l, p, target, paragraphs).value);
              Units(l, texts) && SpokenAll(texts) == SpokenAll(Flat(paragraphs))
    decreases |paragraphs|
  {
    hide Units, PauseAfter;
    if paragraphs == [] {
      assert Units(l, Texts([])) by { NoUnits(l); }
    } else {
      AllPiecesHold(l, paragraphs[0]);
      ParagraphsHold(l, p, target, paragraphs[1..]);
      if Paragraphs(l, p, target, paragraphs).Some? {
        var rest := Paragraphs(l, p, target, paragraphs[1..]).value;
        var first := WithPauses(p, Packed(l, target, "", AllPieces(l, paragraphs[0]).value), |paragraphs| > 1);
        ParagraphHolds(l, p, target, paragraphs[0], |paragraphs| > 1);
        TextsConcat(first, rest);
        UnitsConcat(l, Texts(first), Texts(rest));
        SpokenAllConcat(Texts(first), Texts(rest));
        SpokenAllConcat(paragraphs[0], Flat(paragraphs[1..]));
      }
    }
  }

  lemma NoUnits(l: Limits)
    ensures Texts([]) == [] && Units(l, [])
  {
  }

  /** Splitting loses, repeats and reorders nothing that is spoken.  Measured as it is, any text splits
      without an error into non-empty trimmed segments within the limits.  With a minimum length, no
      two neighbours are left that could still be merged. */
  lemma SplitKeepsTheText(l: Limits, p: Profile, target: nat, paragraphs: seq<seq<string>>)
    requires WordClass(l.word) && 1 <= target <= l.maxWords && l.maxChars >= 64
    ensures var r := Split(l, p, target, false, paragraphs);
            && (Plain(l) ==> r.Ok?)
            && (r.Ok? ==> SpokenAll(Texts(r.value)) == SpokenAll(Flat(paragraphs)) && Units(l, Texts(r.value)))
            && (r.Ok? && p.minChars > 0 ==> NoneMergeable(l, p.minChars, r.value, |r.value|))
  {
    ParagraphsHold(l, p, target, paragraphs);
    var segments := Paragraphs(l, p, target, paragraphs);
    if segments.Some? && p.minChars > 0 {
      MergingHolds(l, p.minChars, segments.value, 0);
      MergingIsComplete(l, p.minChars, segments.value, 0);
    }
  }

  method SplitParagraph(l: Limits, p: Profile, target: nat, sentences: seq<string>, paragraphEnd: bool)
      returns (segments: Option<seq<Segment>>)
    requires Usable(l)
    ensures segments ==
            match AllPieces(l, sentences)
            case None => None
            case Some(units) => Some(WithPauses(p, Packed(l, target, "", units), paragraphEnd))
  {
    var units: seq<string>, i := [], 0;
    PrependNothing(AllPieces(l, sentences));
    assert sentences[0..] == sentences;
    while i < |sentences|
      invariant 0 <= i <= |sentences|
      invariant AllPieces(l, sentences) == Prepend(units, AllPieces(l, sentences[i..]))
    {
      assert sentences[i..][0] == sentences[i] && sentences[i..][1..] == sentences[i + 1..];
      var pieces := BoundSentence(l, sentences[i]);
      if pieces.None? { return None; }
      PrependTwice(units, pieces.value, AllPieces(l, sentences[i + 1..]));
      units := units + pieces.value;
      i := i + 1;
    }
    assert units + [] == units;
    AllPiecesHold(l, sentences);
    var packed := PackParagraph(l, p, target, units, paragraphEnd);
    return Some(packed);
  }

  lemma PrependTwice(a: seq<string>, b: seq<string>, rest: Option<seq<string>>)
    ensures Prepend(a, Prepend(b, rest)) == Prepend(a + b, rest)
  {
    if rest.Some? { assert a + (b + rest.value) == (a + b) + rest.value; }
  }

  method SplitSpeechText(l: Limits, p: Profile, target: nat, blank: bool, paragraphs: seq<seq<string>>)
      returns (r: Result<seq<Segment>, Error>)
    requires WordClass(l.word)
    ensures r == Split(l, p, target, blank, paragraphs)
  {
    if blank { return Ok([]); }
    if target < 1 || l.maxWords < target || l.maxChars < 64 { return Err(InvalidLimits); }
    var segments: seq<Segment>, i := [], 0;
    assert paragraphs[0..] == paragraphs;
    BeforeBefore([], [], Paragraphs(l, p, target, paragraphs));
    while i < |paragraphs|
      invariant 0 <= i <= |paragraphs|
      invariant Paragraphs(l, p, target, paragraphs) == Before(segments, Paragraphs(l, p, target, paragraphs[i..]))
    {
      assert paragraphs[i..][0] == paragraphs[i] && paragraphs[i..][1..] == paragraphs[i + 1..];
      var some := SplitParagraph(l, p, target, paragraphs[i], i < |paragraphs| - 1);
      if some.None? { return Err(AtomicUnitTooLong); }
      BeforeBefore(segments, some.value, Paragraphs(l, p, target, paragraphs[i + 1..]));
      segments := segments + some.value;
      i := i + 1;
    }
    assert segments + [] == segments;
    if p.minChars > 0 { segments := MergeShort(l, p.minChars, segments); }
    return Ok(segments);
  }
}
