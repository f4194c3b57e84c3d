/** Which expression plans are accepted, and the emotions they put in force
    (`prepare_expression_segments` in services/tts/src/openclaw_local_tts/expression.py). */
module PlanAcceptance {
  import opened Collections
  import opened Wrappers
  import opened SpeechExpression

  predicate Allowed(r: Reading, caps: Capabilities, part: Part) {
    match part
    case EventPart(name) => name in caps.events
    case TextPart(text, emotion, emphasis) =>
      && text != "" && !r.raw(text) && (emotion.Some? ==> emotion.value in caps.emotions)
      && (emphasis ==> EmphasisAllowed(caps, text))
  }

  predicate AllAllowed(r: Reading, caps: Capabilities, parts: seq<Part>) {
    forall i :: 0 <= i < |parts| ==> Allowed(r, caps, parts[i])
  }

  /** How many controls a part counts as. */
  function Weight(part: Part): nat {
    match part
    case EventPart(_) => 1
    case TextPart(_, emotion, emphasis) => (if emotion.Some? then 1 else 0) + (if emphasis then 1 else 0)
  }

  function Weights(parts: seq<Part>): nat {
    if parts == [] then 0 else Weight(parts[0]) + Weights(parts[1..])
  }

  /** No control of the part, which begins at `offset`, falls inside a word. */
  predicate Whole(r: Reading, text: string, offset: nat, part: Part) {
    && (Weight(part) > 0 ==> !CutsWord(r, text, offset))
    && (part.TextPart? && part.emphasis ==> !CutsWord(r, text, offset + |part.text|))
  }

  predicate AllWhole(r: Reading, text: string, offset: nat, parts: seq<Part>)
    decreases |parts|
  {
    parts == [] || (Whole(r, text, offset, parts[0]) && AllWhole(r, text, offset + |TextOf(parts[0])|, parts[1..]))
  }

  /** The emotions of the parts, each where its part begins. */
  function Moods(offset: nat, parts: seq<Part>): seq<Change>
    decreases |parts|
  {
    if parts == [] then []
    else
      (if parts[0].TextPart? && parts[0].emotion.Some? then [Change(offset, parts[0].emotion.value)] else [])
      + Moods(offset + |TextOf(parts[0])|, parts[1..])
  }

  predicate NoneCut(r: Reading, text: string, boundaries: seq<nat>) {
    forall i :: 0 <= i < |boundaries| ==> !CutsWord(r, text, boundaries[i])
  }

  lemma NoneCutConcat(r: Reading, text: string, a: seq<nat>, b: seq<nat>)
    ensures NoneCut(r, text, a + b) <==> NoneCut(r, text, a) && NoneCut(r, text, b)
  {
    hide CutsWord;
    assert forall i :: 0 <= i < |a| ==> (a + b)[i] == a[i];
    assert forall i :: 0 <= i < |b| ==> (a + b)[|a| + i] == b[i];
  }

  /** The places where the controls of a part begin and end. */
  function Ends(offset: nat, part: Part): seq<nat> {
    match part
    case EventPart(_) => [offset]
    case TextPart(text, emotion, emphasis) =>
      (if emotion.Some? then [offset] else []) + (if emphasis then [offset, offset + |text|] else [])
  }

  lemma EndsAreWhole(r: Reading, text: string, offset: nat, part: Part)
    ensures NoneCut(r, text, Ends(offset, part)) <==> Whole(r, text, offset, part)
  {
    hide CutsWord;
    var ends := Ends(offset, part);
    if Weight(part) > 0 { assert ends[0] == offset; }
    if part.TextPart? && part.emphasis { assert ends[|ends| - 1] == offset + |part.text|; }
  }

  lemma OnePart(r: Reading, caps: Capabilities, b: Built, part: Part)
    requires AddPart(r, caps, b, part).Ok?
    ensures var u := AddPart(r, caps, b, part).value;
            && u.source == b.source + TextOf(part) && u.controls == b.controls + Weight(part)
            && u.changes == b.changes + Moods(|b.source|, [part])
            && u.boundaries == b.boundaries + Ends(|b.source|, part)
    ensures Allowed(r, caps, part)
  {
    AddPartShape(r, caps, b, part);
    assert [part][1..] == [] && [part][0] == part;
  }

  lemma PartIsAllowed(r: Reading, caps: Capabilities, b: Built, part: Part)
    requires Allowed(r, caps, part) && b.controls + Weight(part) <= MAX_CONTROLS
    ensures AddPart(r, caps, b, part).Ok?
  {
  }

  lemma {:induction false} PartsGather(r: Reading, caps: Capabilities, b: Built, parts: seq<Part>)
    requires AddParts(r, caps, b, parts).Ok?
    ensures var u := AddParts(r, caps, b, parts).value;
            && u.source == b.source + PlainText(parts) && u.controls == b.controls + Weights(parts)
            && u.changes == b.changes + Moods(|b.source|, parts)
    ensures AllAllowed(r, caps, parts)
    decreases |parts|
  {
    hide Allowed, AddPart, TextOf, Weight;
    if parts == [] {
      assert b.source + "" == b.source && b.changes + [] == b.changes;
    } else {
      var u := AddPart(r, caps, b, parts[0]).value;
      OnePart(r, caps, b, parts[0]);
      PartsGather(r, caps, u, parts[1..]);
      Regroup(b.source, TextOf(parts[0]), PlainText(parts[1..]));
      FirstMood(|b.source|, parts);
      Regroup(b.changes, Moods(|b.source|, [parts[0]]), Moods(|u.source|, parts[1..]));
      forall i | 0 < i < |parts| ensures Allowed(r, caps, parts[i]) { assert parts[i] == parts[1..][i - 1]; }
    }
  }

  lemma FirstMood(offset: nat, parts: seq<Part>)
    requires parts != []
    ensures Moods(offset, parts) == Moods(offset, [parts[0]]) + Moods(offset + |TextOf(parts[0])|, parts[1..])
  {
    assert [parts[0]][1..] == [] && [parts[0]][0] == parts[0];
    assert Moods(offset + |TextOf(parts[0])|, []) == [];
  }

  lemma {:induction false} PartsAreCut(r: Reading, caps: Capabilities, text: string, b: Built, parts: seq<Part>)
    requires AddParts(r, caps, b, parts).Ok?
    ensures NoneCut(r, text, AddParts(r, caps, b, parts).value.boundaries) <==>
            NoneCut(r, text, b.boundaries) && AllWhole(r, text, |b.source|, parts)
    decreases |parts|
  {
    hide Allowed, AddPart, NoneCut, Whole, TextOf, Weight, Ends, Moods;
    if parts != [] {
      OnePart(r, caps, b, parts[0]);
      NoneCutConcat(r, text, b.boundaries, Ends(|b.source|, parts[0]));
      EndsAreWhole(r, text, |b.source|, parts[0]);
      PartsAreCut(r, caps, text, AddPart(r, caps, b, parts[0]).value, parts[1..]);
    }
  }

  lemma {:induction false} PartsAreAllowed(r: Reading, caps: Capabilities, b: Built, parts: seq<Part>)
    requires AllAllowed(r, caps, parts)
    requires b.controls + Weights(parts) <= MAX_CONTROLS
    ensures AddParts(r, caps, b, parts).Ok?
    decreases |parts|
  {
    hide Allowed, AddPart, TextOf, Weight, Moods, Ends;
    if parts != [] {
      PartIsAllowed(r, caps, b, parts[0]);
      OnePart(r, caps, b, parts[0]);
      PartsAreAllowed(r, caps, AddPart(r, caps, b, parts[0]).value, parts[1..]);
    }
  }

  /** A plan is accepted exactly when the text and the overall emotion are allowed, there are 1 to 128 parts,
      each of them allowed, with at most 64 controls in all, which spell out the text and cut no word.
      The emotions it puts in force are the overall one and those of its parts. */
  lemma AcceptedPlans(r: Reading, caps: Capabilities, text: string, emotion: Option<string>, parts: seq<Part>)
    ensures Build(r, caps, text, emotion, parts).Ok? <==>
            && !r.raw(text) && (emotion.Some? ==> emotion.value in caps.emotions) && 1 <= |parts| <= MAX_PARTS
            && AllAllowed(r, caps, parts)
            && (if emotion.Some? then 1 else 0) + Weights(parts) <= MAX_CONTROLS
            && PlainText(parts) == text && AllWhole(r, text, 0, parts)
    ensures Build(r, caps, text, emotion, parts).Ok? ==>
              Build(r, caps, text, emotion, parts).value.changes ==
              (if emotion.Some? then [Change(0, emotion.value)] else []) + Moods(0, parts)
  {
    var b := Begin(emotion);
    assert NoneCut(r, text, b.boundaries);
    hide AllAllowed, CutsWord, AllWhole, AddParts, Moods, Weights, PlainText;
    if AllAllowed(r, caps, parts) && b.controls + Weights(parts) <= MAX_CONTROLS {
      PartsAreAllowed(r, caps, b, parts);
    }
    if AddParts(r, caps, b, parts).Ok? {
      PartsGather(r, caps, b, parts);
      PartsAreCut(r, caps, text, b, parts);
      assert "" + PlainText(parts) == PlainText(parts);
    }
  }
}
