/** Accepting a segmentation that was prepared elsewhere, never repairing it
    (`validate_prepared_segments` in services/tts/src/openclaw_local_tts/speech_segments.py).
 */
module PreparedSpeech {
  import opened Wrappers
  import opened SpeechText

  datatype Item = Item(text: string, pause: int)

  /** The backend's limits and the pauses of its profile. */
  datatype Backend = Backend(word: char -> bool, maxWords: nat, maxChars: nat, pauses: set<int>)

  datatype Problem = WrongCount | NotTrimmed | TooLong | WrongPause | NotTheInput | SplitsWord | NotCovered

  const MAX_ITEMS: nat := 128

  predicate Allowed(b: Backend, item: Item) {
    && item.text != "" && Trimmed(item.text)
    && |item.text| <= b.maxChars && WordCount(b.word, item.text) <= b.maxWords
    && (item.pause == 0 || item.pause in b.pauses)
  }

  /** The first place from `i` on that is not white space. */
  function SkipSpace(text: string, i: nat): (r: nat)
    requires i <= |text|
    ensures i <= r <= |text| && Blank(text[i..r]) && (r < |text| ==> !Space(text[r]))
    decreases |text| - i
  {
    if i < |text| && Space(text[i]) then
      var r := SkipSpace(text, i + 1);
      assert text[i..r] == [text[i]] + text[i + 1..r];
      r
    else i
  }

  predicate Holds(text: string, at: nat, unit: string) { at + |unit| <= |text| && text[at..at + |unit|] == unit }

  predicate CutsWord(b: Backend, text: string, at: nat) {
    0 < at < |text| && b.word(text[at - 1]) && b.word(text[at])
  }

  /** What is wrong with the items from `i` on, given that those before them end at `cursor`. */
  function Fault(b: Backend, text: string, items: seq<Item>, i: nat, cursor: nat): Option<Problem>
    requires i <= |items| && cursor <= |text|
    decreases |items| - i
  {
    if i == |items| then if Strip(text[cursor..]) != "" then Some(NotCovered) else None
    else
      var unit := items[i].text;
      if unit == "" || unit != Strip(unit) then Some(NotTrimmed)
      else if |unit| > b.maxChars || WordCount(b.word, unit) > b.maxWords then Some(TooLong)
      else if items[i].pause != 0 && items[i].pause !in b.pauses then Some(WrongPause)
      else
        var at := SkipSpace(text, cursor);
        if !Holds(text, at, unit) then Some(NotTheInput)
        else if CutsWord(b, text, at + |unit|) then Some(SplitsWord)
        else Fault(b, text, items, i + 1, at + |unit|)
  }

  method Validate(b: Backend, text: string, items: seq<Item>) returns (problem: Option<Problem>)
    ensures problem == if 1 <= |items| <= MAX_ITEMS then Fault(b, text, items, 0, 0) else Some(WrongCount)
  {
    if !(1 <= |items| <= MAX_ITEMS) { return Some(WrongCount); }
    var cursor: nat, i: nat := 0, 0;
    while i < |items|
      invariant 0 <= i <= |items| && cursor <= |text|
      invariant Fault(b, text, items, i, cursor) == Fault(b, text, items, 0, 0)
    {
      var unit := items[i].text;
      if unit == "" || unit != Strip(unit) { return Some(NotTrimmed); }
      if |unit| > b.maxChars || WordCount(b.word, unit) > b.maxWords { return Some(TooLong); }
      if items[i].pause != 0 && items[i].pause !in b.pauses { return Some(WrongPause); }
      ghost var before := cursor;
      while cursor < |text| && Space(text[cursor])
        invariant before <= cursor <= |text| && SkipSpace(text, cursor) == SkipSpace(text, before)
      {
        cursor := cursor + 1;
      }
      if !Holds(text, cursor, unit) { return Some(NotTheInput); }
      if CutsWord(b, text, cursor + |unit|) { return Some(SplitsWord); }
      cursor := cursor + |unit|;
      i := i + 1;
    }
    return if Strip(text[cursor..]) != "" then Some(NotCovered) else None;
  }

  // ----- a partition of the text

  function EndOf(items: seq<Item>, starts: seq<nat>, k: nat): nat
    requires k <= |items| == |starts|
  {
    if k == 0 then 0 else starts[k - 1] + |items[k - 1].text|
  }

  /** Item `k` is allowed and stands in the text after nothing but white space; it ends no word early. */
  ghost predicate Placed(b: Backend, text: string, items: seq<Item>, starts: seq<nat>, k: nat)
    requires k < |items| == |starts|
  {
    var before, after := EndOf(items, starts, k), EndOf(items, starts, k + 1);
    && Allowed(b, items[k])
    && before <= starts[k] && Holds(text, starts[k], items[k].text) && Blank(text[before..starts[k]])
    && !CutsWord(b, text, after)
  }

  /** `starts` lays the items out over the text, in order and with only white space around them. */
  ghost predicate Partition(b: Backend, text: string, items: seq<Item>, starts: seq<nat>) {
    && |starts| == |items|
    && (forall k :: 0 <= k < |items| ==> Placed(b, text, items, starts, k))
    && EndOf(items, starts, |items|) <= |text| && Blank(text[EndOf(items, starts, |items|)..])
  }

  lemma TrimmedIffStrip(s: string)
    ensures Trimmed(s) <==> Strip(s) == s
  {
    var lo, hi := StripShape(s);
  }

  lemma BlankIffStrip(s: string)
    ensures Strip(s) == "" <==> Blank(s)
  {
    var lo, hi := StripShape(s);
    if Strip(s) == "" {
      assert s == s[..lo] + s[hi..];
    } else {
      assert Strip(s)[0] == s[lo];
    }
  }

  /** Items laid out from `cursor` on begin where white space ends. */
  lemma {:induction false} StartIsForced(text: string, cursor: nat, at: nat)
    requires cursor <= at < |text| && !Space(text[at]) && Blank(text[cursor..at])
    ensures SkipSpace(text, cursor) == at
    decreases at - cursor
  {
    if cursor < at {
      assert text[cursor..at][0] == text[cursor] && text[cursor..at][1..] == text[cursor + 1..at];
      StartIsForced(text, cursor + 1, at);
    }
  }

  /** The places where the scan finds the items. */
  function Starts(text: string, items: seq<Item>, i: nat, cursor: nat): (r: seq<nat>)
    requires i <= |items|
    ensures |r| == |items| - i
    decreases |items| - i
  {
    if i == |items| then []
    else
      var at := if cursor <= |text| then SkipSpace(text, cursor) else cursor;
      [at] + Starts(text, items, i + 1, at + |items[i].text|)
  }

  /** One item of the scan. */
  lemma FaultlessItem(b: Backend, text: string, items: seq<Item>, i: nat, cursor: nat)
    requires i < |items| && cursor <= |text|
    ensures Fault(b, text, items, i, cursor).None? <==>
            var at := SkipSpace(text, cursor);
            && Allowed(b, items[i]) && Holds(text, at, items[i].text) && !CutsWord(b, text, at + |items[i].text|)
            && Fault(b, text, items, i + 1, at + |items[i].text|).None?
  {
    TrimmedIffStrip(items[i].text);
  }

  lemma {:induction false} FaultlessIsLaidOut(b: Backend, text: string, items: seq<Item>, starts: seq<nat>, i: nat)
    requires i <= |items| == |starts| && EndOf(items, starts, i) <= |text|
    requires starts[i..] == Starts(text, items, i, EndOf(items, starts, i))
    requires Fault(b, text, items, i, EndOf(items, starts, i)).None?
    ensures EndOf(items, starts, |items|) <= |text| && Blank(text[EndOf(items, starts, |items|)..])
    ensures forall k :: i <= k < |items| ==> Placed(b, text, items, starts, k)
    decreases |items| - i
  {
    var cursor := EndOf(items, starts, i);
    if i == |items| {
      BlankIffStrip(text[cursor..]);
    } else {
      FaultlessItem(b, text, items, i, cursor);
      hide Fault, Allowed, Holds, CutsWord, Blank;
      var at := SkipSpace(text, cursor);
      assert starts[i..][0] == starts[i] == at;
      assert starts[i + 1..] == starts[i..][1..] == Starts(text, items, i + 1, at + |items[i].text|);
      assert Placed(b, text, items, starts, i);
      assert EndOf(items, starts, i + 1) <= |text| by { HoldsInside(text, at, items[i].text); }
      FaultlessIsLaidOut(b, text, items, starts, i + 1);
    }
  }

  lemma HoldsInside(text: string, at: nat, unit: string)
    requires Holds(text, at, unit)
    ensures at + |unit| <= |text|
  {
  }

  lemma {:induction false} PlacedIsFound(b: Backend, text: string, items: seq<Item>, starts: seq<nat>, k: nat)
    requires k < |items| == |starts| && Placed(b, text, items, starts, k)
    ensures var end := starts[k] + |items[k].text|;
            && EndOf(items, starts, k) <= starts[k] && EndOf(items, starts, k + 1) == end <= |text|
            && SkipSpace(text, EndOf(items, starts, k)) == starts[k]
            && Allowed(b, items[k]) && Holds(text, starts[k], items[k].text) && !CutsWord(b, text, end)
  {
    var at, unit := starts[k], items[k].text;
    assert text[at..at + |unit|][0] == text[at];
    StartIsForced(text, EndOf(items, starts, k), at);
  }

  lemma {:induction false} LaidOutIsFaultless(b: Backend, text: string, items: seq<Item>, starts: seq<nat>, i: nat)
    requires Partition(b, text, items, starts) && i <= |items|
    ensures EndOf(items, starts, i) <= |text| && Fault(b, text, items, i, EndOf(items, starts, i)).None?
    decreases |items| - i
  {
    if i == |items| {
      BlankIffStrip(text[EndOf(items, starts, i)..]);
    } else {
      LaidOutIsFaultless(b, text, items, starts, i + 1);
      PlacedIsFound(b, text, items, starts, i);
      FaultlessItem(b, text, items, i, EndOf(items, starts, i));
    }
  }

  lemma {:induction false} LaidOutIsForced(b: Backend, text: string, items: seq<Item>, starts: seq<nat>, i: nat)
    requires Partition(b, text, items, starts) && i <= |items|
    ensures starts[i..] == Starts(text, items, i, EndOf(items, starts, i))
    decreases |items| - i
  {
    if i < |items| {
      LaidOutIsForced(b, text, items, starts, i + 1);
      PlacedIsFound(b, text, items, starts, i);
      hide Placed, Partition, Blank, Fault, Allowed, Holds, CutsWord;
      assert starts[i..] == [starts[i]] + starts[i + 1..];
    }
  }

  /** A plan is accepted exactly when its items, all allowed, can be laid out over the text; and there is
      only one way to do so. */
  lemma AcceptedIsPartition(b: Backend, text: string, items: seq<Item>)
    ensures Fault(b, text, items, 0, 0).None? <==> exists starts :: Partition(b, text, items, starts)
    ensures forall starts :: Partition(b, text, items, starts) ==> starts == Starts(text, items, 0, 0)
  {
    if Fault(b, text, items, 0, 0).None? {
      var starts := Starts(text, items, 0, 0);
      assert starts[0..] == starts;
      FaultlessIsLaidOut(b, text, items, starts, 0);
      assert Partition(b, text, items, starts);
    }
    forall starts | Partition(b, text, items, starts)
      ensures Fault(b, text, items, 0, 0).None? && starts == Starts(text, items, 0, 0)
    {
      LaidOutIsFaultless(b, text, items, starts, 0);
      LaidOutIsForced(b, text, items, starts, 0);
      assert starts[0..] == starts;
    }
  }
}
