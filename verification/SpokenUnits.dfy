/** What the rendered units of an expression plan say, taken together
    (`_render_prepared` in services/tts/src/openclaw_local_tts/expression.py).
 */
module SpokenUnits {
  import opened Collections
  import opened Wrappers
  import opened SpeechText
  import P = PreparedSpeech
  import E = SpeechExpression
  import opened SpeechRendering

  // ----- what the units cover

  function CoveredAll(text: string, outputs: seq<Output>): string {
    if outputs == [] then "" else Covered(text, outputs[0].chunks) + CoveredAll(text, outputs[1..])
  }

  lemma CoveredFirst(text: string, outputs: seq<Output>, i: nat)
    requires i < |outputs|
    ensures Spoken(CoveredAll(text, outputs[i..])) ==
            Spoken(Covered(text, outputs[i].chunks)) + Spoken(CoveredAll(text, outputs[i + 1..]))
  {
    hide Spoken;
    assert outputs[i..][0] == outputs[i] && outputs[i..][1..] == outputs[i + 1..];
    SpokenConcat(Covered(text, outputs[i].chunks), CoveredAll(text, outputs[i + 1..]));
  }

  lemma {:induction false} OneSegmentSpeaks(b: P.Backend, text: string, items: seq<P.Item>, starts: seq<nat>,
                                            outputs: seq<Output>, i: nat)
    requires i < |items| == |starts| == |outputs| && P.Placed(b, text, items, starts, i)
    requires Fits(text, items, starts, outputs[i], i) && P.EndOf(items, starts, i + 1) <= |text|
    requires Spoken(CoveredAll(text, outputs[i + 1..])) == Spoken(text[P.EndOf(items, starts, i + 1)..])
    ensures P.EndOf(items, starts, i) <= |text|
    ensures Spoken(CoveredAll(text, outputs[i..])) == Spoken(text[P.EndOf(items, starts, i)..])
  {
    hide Spoken, CoveredAll;
    P.PlacedIsFound(b, text, items, starts, i);
    SegmentSpeaks(text, P.EndOf(items, starts, i), starts[i], items[i].text);
    CoveredFirst(text, outputs, i);
  }

  lemma {:induction false} NothingLeft(text: string, outputs: seq<Output>, end: nat)
    requires end <= |text| && Blank(text[end..])
    ensures Spoken(CoveredAll(text, outputs[|outputs|..])) == Spoken(text[end..])
  {
    BlankIsSilent(text[end..]);
  }

  lemma {:induction false} CoveredSpeaks(b: P.Backend, text: string, items: seq<P.Item>, starts: seq<nat>,
                                         outputs: seq<Output>, i: nat)
    requires P.Partition(b, text, items, starts) && |outputs| == |items| && i <= |items|
    requires forall k :: 0 <= k < |items| ==> Fits(text, items, starts, outputs[k], k)
    ensures P.EndOf(items, starts, i) <= |text|
    ensures Spoken(CoveredAll(text, outputs[i..])) == Spoken(text[P.EndOf(items, starts, i)..])
    decreases |items| - i
  {
    hide Spoken, CoveredAll, Blank, Fits, P.Placed;
    var end := P.EndOf(items, starts, i);
    if i == |items| {
      NothingLeft(text, outputs, end);
    } else {
      CoveredSpeaks(b, text, items, starts, outputs, i + 1);
      OneSegmentSpeaks(b, text, items, starts, outputs, i);
    }
  }

  lemma GapUnitRest(gap: string, unit: string, rest: string)
    requires Blank(gap)
    ensures Spoken(gap + (unit + rest)) == Spoken(unit) + Spoken(rest)
  {
    BlankIsSilent(gap);
    hide Spoken;
    SpokenConcat(gap, unit + rest);
    SpokenConcat(unit, rest);
    assert "" + (Spoken(unit) + Spoken(rest)) == Spoken(unit) + Spoken(rest);
  }

  lemma SplitTwice(text: string, a: nat, b: nat, c: nat)
    requires a <= b <= c <= |text|
    ensures text[a..] == text[a..b] + (text[b..c] + text[c..])
  {
    assert text[b..c] + text[c..] == text[b..];
    assert text[a..b] + text[b..] == text[a..];
  }

  lemma {:induction false} SegmentSpeaks(text: string, end: nat, start: nat, unit: string)
    requires end <= start && P.Holds(text, start, unit) && Blank(text[end..start])
    ensures Spoken(text[end..]) == Spoken(unit) + Spoken(text[start + |unit|..])
  {
    hide Spoken, Blank;
    SplitTwice(text, end, start, start + |unit|);
    GapUnitRest(text[end..start], unit, text[start + |unit|..]);
  }

  // ----- words and signs of the markup

  /** Emitted text is words of the plain text, signs of the markup, and emotions put before units. */
  datatype Bit = Plain(text: string) | Sign(text: string) | Heading(text: string)

  function PieceBits(pieces: seq<E.Piece>): seq<Bit> {
    if pieces == [] then []
    else
      (if pieces[0].Words? then [Sign("((("), Plain(pieces[0].text), Sign(")))")]
       else [Sign("[" + pieces[0].emotion + "]")]) + PieceBits(pieces[1..])
  }

  function ChunkBits(chunk: Chunk): seq<Bit> {
    match chunk
    case Said(text) => [Plain(text)]
    case Control(op) => if op.Emphasis? then PieceBits(op.pieces) else [Sign(E.Markup(op))]
  }

  function Bits(chunks: seq<Chunk>): seq<Bit> {
    if chunks == [] then [] else ChunkBits(chunks[0]) + Bits(chunks[1..])
  }

  function AllBits(outputs: seq<Output>): seq<Bit> {
    if outputs == [] then [] else Bits(outputs[0].chunks) + AllBits(outputs[1..])
  }

  /** Everything the bits say. */
  function Sound(bits: seq<Bit>): string {
    if bits == [] then "" else Spoken(bits[0].text) + Sound(bits[1..])
  }

  /** The words alone. */
  function Words(bits: seq<Bit>): string {
    if bits == [] then "" else (if bits[0].Plain? then Spoken(bits[0].text) else "") + Words(bits[1..])
  }

  /** The bits without what was put before the units. */
  function Body(bits: seq<Bit>): seq<Bit> {
    if bits == [] then [] else (if bits[0].Heading? then [] else [bits[0]]) + Body(bits[1..])
  }

  lemma FirstBit(bit: Bit, rest: seq<Bit>)
    ensures Sound([bit] + rest) == Spoken(bit.text) + Sound(rest)
    ensures Words([bit] + rest) == (if bit.Plain? then Spoken(bit.text) else "") + Words(rest)
    ensures Body([bit] + rest) == (if bit.Heading? then [] else [bit]) + Body(rest)
  {
    assert ([bit] + rest)[1..] == rest;
  }

  lemma {:induction false} BitsConcat(a: seq<Bit>, b: seq<Bit>)
    ensures Sound(a + b) == Sound(a) + Sound(b) && Words(a + b) == Words(a) + Words(b)
    ensures Body(a + b) == Body(a) + Body(b)
    decreases |a|
  {
    if a == [] {
      assert a + b == b;
    } else {
      var bit, rest := a[0], a[1..];
      assert a + b == [bit] + (rest + b) && a == [bit] + rest;
      hide Spoken, Sound, Words, Body;
      BitsConcat(rest, b);
      FirstBit(bit, rest + b);
      FirstBit(bit, rest);
      Regroup(Spoken(bit.text), Sound(rest), Sound(b));
      Regroup(if bit.Plain? then Spoken(bit.text) else "", Words(rest), Words(b));
      Regroup(if bit.Heading? then [] else [bit], Body(rest), Body(b));
    }
  }

  lemma OneBit(bit: Bit)
    ensures Sound([bit]) == Spoken(bit.text) && Words([bit]) == if bit.Plain? then Spoken(bit.text) else ""
    ensures Body([bit]) == if bit.Heading? then [] else [bit]
  {
    assert [bit][1..] == [];
  }

  lemma WordsInSigns(text: string)
    ensures var bits := [Sign("((("), Plain(text), Sign(")))")];
            Sound(bits) == Spoken("(((" + text + ")))") && Words(bits) == Spoken(text)
  {
    hide Spoken, Sound, Words, Body;
    var a, b, c := Sign("((("), Plain(text), Sign(")))");
    assert [a, b, c] == [a] + ([b] + [c]);
    BitsConcat([a], [b] + [c]);
    BitsConcat([b], [c]);
    OneBit(a);
    OneBit(b);
    OneBit(c);
    SpokenThree("(((", text, ")))");
  }

  /** One piece of an emphasis, as it is shown. */
  function Shown(piece: E.Piece): string {
    if piece.Words? then "(((" + piece.text + ")))" else "[" + piece.emotion + "]"
  }

  lemma PieceSays(piece: E.Piece)
    ensures var bits := PieceBits([piece]);
            Sound(bits) == Spoken(Shown(piece)) && Words(bits) == (if piece.Words? then Spoken(piece.text) else "")
  {
    var own := if piece.Words? then [Sign("((("), Plain(piece.text), Sign(")))")]
               else [Sign("[" + piece.emotion + "]")];
    assert [piece][1..] == [] && PieceBits([piece]) == own + [] == own;
    hide Spoken, PieceBits;
    if piece.Words? {
      WordsInSigns(piece.text);
    } else {
      OneBit(Sign("[" + piece.emotion + "]"));
    }
  }

  lemma FirstPiece(pieces: seq<E.Piece>)
    requires pieces != []
    ensures PieceBits(pieces) == PieceBits([pieces[0]]) + PieceBits(pieces[1..])
    ensures E.ShowPieces(pieces) ==
            if |pieces| == 1 then Shown(pieces[0]) else Shown(pieces[0]) + " " + E.ShowPieces(pieces[1..])
  {
    assert [pieces[0]][1..] == [] && [pieces[0]][0] == pieces[0];
  }

  lemma {:induction false} PiecesSay(pieces: seq<E.Piece>)
    ensures Sound(PieceBits(pieces)) == Spoken(E.ShowPieces(pieces))
    ensures Words(PieceBits(pieces)) == Spoken(E.WordsOf(pieces))
    decreases |pieces|
  {
    if pieces != [] {
      var first, rest := pieces[0], pieces[1..];
      var words := if first.Words? then first.text else "";
      hide Sound, Words, Shown;
      assert E.WordsOf(pieces) == words + E.WordsOf(rest);
      assert Spoken("") == "" && E.ShowPieces([]) == "";
      hide Spoken, PieceBits, E.ShowPieces, E.WordsOf;
      FirstPiece(pieces);
      PiecesSay(rest);
      PieceSays(first);
      BitsConcat(PieceBits([first]), PieceBits(rest));
      BlankSaysNothing();
      SpokenThree(Shown(first), " ", E.ShowPieces(rest));
      SpokenConcat(words, E.WordsOf(rest));
    }
  }

  /** A control's bits say its markup, and their words what it covers. */
  lemma ControlSays(text: string, op: E.Op)
    requires E.Faithful(text, op)
    ensures Sound(ChunkBits(Control(op))) == Spoken(Show([Control(op)]))
    ensures Words(ChunkBits(Control(op))) == Spoken(CoveredBy(text, Control(op)))
  {
    var markup := E.Markup(op);
    assert [Control(op)][1..] == [] && Spoken("") == "";
    hide Spoken;
    BlankSaysNothing();
    SpokenThree(" ", markup, " ");
    var shown := if E.Left(op) == E.Right(op) then " " + markup + " " else markup;
    assert Show([Control(op)]) == shown + "" == shown;
    if op.Emphasis? { PiecesSay(op.pieces); } else { OneBit(Sign(markup)); }
  }

  lemma FirstChunk(text: string, chunks: seq<Chunk>)
    requires chunks != []
    ensures Show(chunks) == Show([chunks[0]]) + Show(chunks[1..])
    ensures Controls(chunks) == Controls([chunks[0]]) + Controls(chunks[1..])
  {
    ShowConcat([chunks[0]], chunks[1..]);
    ControlsConcat([chunks[0]], chunks[1..]);
    assert [chunks[0]] + chunks[1..] == chunks;
  }

  lemma ChunkSays(text: string, chunk: Chunk)
    requires chunk.Control? ==> E.Faithful(text, chunk.op)
    ensures Sound(ChunkBits(chunk)) == Spoken(Show([chunk]))
    ensures Words(ChunkBits(chunk)) == Spoken(CoveredBy(text, chunk))
  {
    if chunk.Control? {
      ControlSays(text, chunk.op);
    } else {
      OneBit(Plain(chunk.text));
      assert [chunk][1..] == [] && Show([chunk]) == chunk.text + "" == chunk.text;
    }
  }

  /** The chunks of a unit show words and signs; the words are those of the text the chunks cover. */
  lemma {:induction false} ChunksSay(text: string, chunks: seq<Chunk>)
    requires E.AllFaithful(text, Controls(chunks))
    ensures Sound(Bits(chunks)) == Spoken(Show(chunks)) && Words(Bits(chunks)) == Spoken(Covered(text, chunks))
    decreases |chunks|
  {
    if chunks != [] {
      var first, rest := chunks[0], chunks[1..];
      FirstChunk(text, chunks);
      assert [first][1..] == [] && [first][0] == first;
      if first.Control? { assert Controls(chunks)[0] == first.op; }
      assert forall i :: 0 <= i < |Controls(rest)| ==>
               Controls(rest)[i] == Controls(chunks)[i + if first.Control? then 1 else 0];
      hide Spoken, Sound, Words, ChunkBits, Show, CoveredBy, E.Faithful;
      ChunksSay(text, rest);
      ChunkSays(text, first);
      BitsConcat(ChunkBits(first), Bits(rest));
      SpokenConcat(Show([first]), Show(rest));
      SpokenConcat(CoveredBy(text, first), Covered(text, rest));
    }
  }

  // ----- the units together

  function AllText(outputs: seq<Output>): string {
    if outputs == [] then "" else outputs[0].text + AllText(outputs[1..])
  }

  ghost predicate SaysSomehow(output: Output) { exists emotion :: Says(output, emotion) }

  ghost predicate AllSaySomehow(outputs: seq<Output>) {
    forall k :: 0 <= k < |outputs| ==> SaysSomehow(outputs[k])
  }

  /** The bits of one unit, with the emotion put before it, if any. */
  lemma OneUnit(text: string, output: Output) returns (bits: seq<Bit>)
    requires E.AllFaithful(text, Controls(output.chunks)) && SaysSomehow(output)
    ensures Sound(bits) == Spoken(output.text) && Words(bits) == Spoken(Covered(text, output.chunks))
    ensures Body(bits) == Body(Bits(output.chunks))
  {
    var emotion :| Says(output, emotion);
    ChunksSay(text, output.chunks);
    hide Spoken, Show, Bits, Covered;
    if Spoken(output.text) == Spoken(Show(output.chunks)) {
      bits := Bits(output.chunks);
    } else {
      var heading := Heading("[" + emotion.value + "] ");
      bits := [heading] + Bits(output.chunks);
      BitsConcat([heading], Bits(output.chunks));
      OneBit(heading);
    }
  }

  lemma FaithfulParts(text: string, outputs: seq<Output>)
    requires outputs != [] && E.AllFaithful(text, AllControls(outputs))
    ensures E.AllFaithful(text, Controls(outputs[0].chunks)) && E.AllFaithful(text, AllControls(outputs[1..]))
  {
    hide E.Faithful;
    var first, rest := Controls(outputs[0].chunks), AllControls(outputs[1..]);
    var all := AllControls(outputs);
    assert all == first + rest;
    hide AllControls, Controls;
    forall i | 0 <= i < |first| ensures E.Faithful(text, first[i]) { assert all[i] == first[i]; }
    forall i | 0 <= i < |rest| ensures E.Faithful(text, rest[i]) { assert all[|first| + i] == rest[i]; }
  }

  /** All emitted text is words and signs: the words are what the units cover, the signs are the markup of
      their controls, and besides these only emotions are put before units. */
  lemma {:induction false} UnitsSound(text: string, outputs: seq<Output>) returns (bits: seq<Bit>)
    requires E.AllFaithful(text, AllControls(outputs)) && AllSaySomehow(outputs)
    ensures Sound(bits) == Spoken(AllText(outputs)) && Words(bits) == Spoken(CoveredAll(text, outputs))
    ensures Body(bits) == Body(AllBits(outputs))
    decreases |outputs|
  {
    bits := [];
    if outputs != [] {
      FaithfulParts(text, outputs);
      hide E.AllFaithful, SaysSomehow, Spoken, Sound, Words, Bits, Body, Covered;
      var first := OneUnit(text, outputs[0]);
      var rest := UnitsSound(text, outputs[1..]);
      bits := first + rest;
      BitsConcat(first, rest);
      BitsConcat(Bits(outputs[0].chunks), AllBits(outputs[1..]));
      SpokenConcat(outputs[0].text, AllText(outputs[1..]));
      SpokenConcat(Covered(text, outputs[0].chunks), CoveredAll(text, outputs[1..]));
    }
  }

  /** The signs among the bits. */
  function Signs(bits: seq<Bit>): seq<string> {
    if bits == [] then [] else (if bits[0].Sign? then [bits[0].text] else []) + Signs(bits[1..])
  }

  /** The signs of the controls, one control after another. */
  function SignsOf(ops: seq<E.Op>): seq<string> {
    if ops == [] then [] else Signs(ChunkBits(Control(ops[0]))) + SignsOf(ops[1..])
  }

  lemma {:induction false} SignsConcat(a: seq<Bit>, b: seq<Bit>)
    ensures Signs(a + b) == Signs(a) + Signs(b)
    decreases |a|
  {
    if a == [] {
      assert a + b == b;
    } else {
      assert (a + b)[1..] == a[1..] + b && (a + b)[0] == a[0];
      SignsConcat(a[1..], b);
    }
  }

  lemma {:induction false} SignsOfConcat(a: seq<E.Op>, b: seq<E.Op>)
    ensures SignsOf(a + b) == SignsOf(a) + SignsOf(b)
    decreases |a|
  {
    hide Signs, ChunkBits;
    if a == [] {
      assert a + b == b;
    } else {
      assert (a + b)[1..] == a[1..] + b && (a + b)[0] == a[0];
      SignsOfConcat(a[1..], b);
    }
  }

  lemma {:induction false} ChunkSigns(chunks: seq<Chunk>)
    ensures Signs(Bits(chunks)) == SignsOf(Controls(chunks))
    decreases |chunks|
  {
    if chunks != [] {
      ChunkSigns(chunks[1..]);
      SignsConcat(ChunkBits(chunks[0]), Bits(chunks[1..]));
      if chunks[0].Control? {
        assert ([chunks[0].op] + Controls(chunks[1..]))[1..] == Controls(chunks[1..]);
      } else {
        assert [Plain(chunks[0].text)][1..] == [] && [] + Controls(chunks[1..]) == Controls(chunks[1..]);
      }
    }
  }

  lemma {:induction false} UnitSigns(outputs: seq<Output>)
    ensures Signs(AllBits(outputs)) == SignsOf(AllControls(outputs))
    decreases |outputs|
  {
    if outputs != [] {
      hide Bits, Controls, Signs, SignsOf;
      UnitSigns(outputs[1..]);
      ChunkSigns(outputs[0].chunks);
      SignsConcat(Bits(outputs[0].chunks), AllBits(outputs[1..]));
      SignsOfConcat(Controls(outputs[0].chunks), AllControls(outputs[1..]));
    } else {
      assert Signs([]) == [] && SignsOf([]) == [];
    }
  }

  lemma {:induction false} BodySigns(bits: seq<Bit>)
    ensures Signs(Body(bits)) == Signs(bits)
    decreases |bits|
  {
    if bits != [] {
      BodySigns(bits[1..]);
      SignsConcat(if bits[0].Heading? then [] else [bits[0]], Body(bits[1..]));
      assert [bits[0]][1..] == [];
    }
  }

  // ----- from the plan to the units

  lemma CompleteIsSaid(b: P.Backend, text: string, items: seq<P.Item>, starts: seq<nat>, ops: seq<E.Op>,
                       changes: seq<E.Change>, outputs: seq<Output>) returns (bits: seq<Bit>)
    requires P.Partition(b, text, items, starts) && Complete(text, items, starts, ops, changes, outputs)
    requires E.AllFaithful(text, ops)
    ensures Spoken(AllText(outputs)) == Sound(bits) && Words(bits) == Spoken(text) && Signs(bits) == SignsOf(ops)
  {
    hide E.Faithful, Says, Spoken, Sound, Words, Body, Signs, SignsOf, AllControls, CoveredAll, AllText, P.Placed,
         Fits;
    CoveredSpeaks(b, text, items, starts, outputs, 0);
    assert outputs[0..] == outputs && text[0..] == text;
    forall k | 0 <= k < |outputs| ensures SaysSomehow(outputs[k]) {
      assert Says(outputs[k], E.EmotionAt(changes, starts[0 + k]));
    }
    bits := UnitsSound(text, outputs);
    BodySigns(bits);
    BodySigns(AllBits(outputs));
    UnitSigns(outputs);
  }

  /** An accepted plan on an accepted segmentation: if rendering succeeds, there is one unit for each
      segment, holding its text, and the units carry the plan's events and emphases once each and in order.
      The emitted text, white space aside, is words and signs with at most an emotion before each unit:
      the words are the plan's text, no character lost or repeated, and the signs are those of its
      controls, once each and in order. */
  lemma {:induction false} PlanIsRendered(
    r: E.Reading, caps: E.Capabilities, b: P.Backend, text: string, emotion: Option<string>, parts: seq<E.Part>,
    items: seq<P.Item>, sentences: set<nat>, outputs: seq<Output>) returns (starts: seq<nat>, bits: seq<Bit>)
    requires items != [] && E.Build(r, caps, text, emotion, parts).Ok? && P.Fault(b, text, items, 0, 0).None?
    requires var built := E.Build(r, caps, text, emotion, parts).value;
             Ok(outputs) ==
             Render(text, items, E.SentenceEmotions(text, sentences, built.ops, built.changes), built.changes)
    ensures P.Partition(b, text, items, starts)
    ensures var built := E.Build(r, caps, text, emotion, parts).value;
            var ops := E.SentenceEmotions(text, sentences, built.ops, built.changes);
            && Complete(text, items, starts, ops, built.changes, outputs)
            && E.Asked(text, ops) == E.Requests(parts) && E.AllFaithful(text, ops)
            && Signs(bits) == SignsOf(ops)
    ensures Spoken(AllText(outputs)) == Sound(bits) && Words(bits) == Spoken(E.PlainText(parts))
  {
    var built := E.Build(r, caps, text, emotion, parts).value;
    var ops := E.SentenceEmotions(text, sentences, built.ops, built.changes);
    E.BuiltIsThePlan(r, caps, text, emotion, parts);
    E.TagsKeepThePlan(text, sentences, built.ops, built.changes, E.Requests(parts));
    P.AcceptedIsPartition(b, text, items);
    starts :| P.Partition(b, text, items, starts);
    RenderedExactly(b, text, items, starts, ops, built.changes);
    hide E.Gathered, E.SentenceEmotions, E.Build, Render, E.Ordered;
    bits := CompleteIsSaid(b, text, items, starts, ops, built.changes, outputs);
  }
}
