/** Projecting the controls of an expression plan onto prepared segments
    (`_render_prepared` in services/tts/src/openclaw_local_tts/expression.py).
 */
module SpeechRendering {
  import opened Collections
  import opened Wrappers
  import opened SpeechText
  import P = PreparedSpeech
  import E = SpeechExpression

  const MAX_RENDERED_UNIT: nat := 8192

  /** A unit is built of stretches of the text and controls. */
  datatype Chunk = Said(text: string) | Control(op: E.Op)

  datatype Output = Output(chunks: seq<Chunk>, text: string, pause: int)

  function Slice(text: string, a: nat, b: nat): string { if a <= b <= |text| then text[a..b] else "" }

  /** A control the segment that ends at `end` leaves for the next one; an event at its end stays. */
  predicate Later(op: E.Op, end: nat) { E.Left(op) > end || (E.Left(op) == end && !op.Event?) }

  datatype Taken = Taken(chunks: seq<Chunk>, rest: seq<E.Op>)

  function Larger(a: nat, b: nat): nat { if a >= b then a else b }

  /** The chunks of the segment `start..end` from `cursor` on; None when an emphasis crosses its ends. */
  function Take(text: string, start: nat, end: nat, cursor: nat, pending: seq<E.Op>): Option<Taken>
    decreases |pending|
  {
    if pending == [] || Later(pending[0], end) then Some(Taken([Said(Slice(text, cursor, end))], pending))
    else if pending[0].Emphasis? && (pending[0].left < start || pending[0].right > end) then None
    else
      var at := Larger(start, E.Left(pending[0]));
      TakenOnto([Said(Slice(text, cursor, at)), Control(pending[0])],
                Take(text, start, end, Larger(at, E.Right(pending[0])), pending[1..]))
  }

  function TakenOnto(first: seq<Chunk>, later: Option<Taken>): Option<Taken> {
    if later.None? then None else Some(Taken(first + later.value.chunks, later.value.rest))
  }

  // ----- the text of a unit

  function Show(chunks: seq<Chunk>): string {
    if chunks == [] then ""
    else
      (match chunks[0]
       case Said(text) => text
       case Control(op) => if E.Left(op) == E.Right(op) then " " + E.Markup(op) + " " else E.Markup(op))
      + Show(chunks[1..])
  }

  predicate Gap(c: char) { c == ' ' || c == '\t' }

  /** Every run of blanks and tabs becomes one blank. */
  function Squeeze(s: string): string {
    if s == "" then ""
    else if !Gap(s[0]) then [s[0]] + Squeeze(s[1..])
    else if |s| > 1 && Gap(s[1]) then Squeeze(s[1..])
    else " " + Squeeze(s[1..])
  }

  /** White space directly before a punctuation mark goes. */
  function DropGaps(s: string): string
    decreases |s|
  {
    if s == "" then ""
    else if !Space(s[0]) then [s[0]] + DropGaps(s[1..])
    else
      var end := P.SkipSpace(s, 0);
      if end < |s| && s[end] in ".,;:!?" then [s[end]] + DropGaps(s[end + 1..])
      else if end == 0 then s
      else s[..end] + DropGaps(s[end..])
  }

  predicate Lower(c: char) { 'a' <= c <= 'z' }

  /** Whether the text begins with a tag, from `i` on inside it. */
  predicate TagCloses(s: string, i: nat)
    decreases |s| - i
  {
    i < |s| && (if Lower(s[i]) then TagCloses(s, i + 1) else s[i] == ']' && i > 1)
  }

  predicate BeginsWithTag(s: string) { s != "" && s[0] == '[' && TagCloses(s, 1) }

  function Prefixed(s: string, emotion: Option<string>): string {
    if emotion.Some? && !BeginsWithTag(s) then "[" + emotion.value + "] " + s else s
  }

  function Value(chunks: seq<Chunk>, emotion: Option<string>): string {
    Prefixed(DropGaps(Strip(Squeeze(Show(chunks)))), emotion)
  }

  // ----- all units

  datatype Rendering = Rendering(outputs: seq<Output>, rest: seq<E.Op>, end: nat)

  function StartOf(text: string, end: nat): nat { if end <= |text| then P.SkipSpace(text, end) else end }

  function Units(text: string, items: seq<P.Item>, changes: seq<E.Change>, i: nat, end: nat, pending: seq<E.Op>)
      : Result<Rendering, E.Problem>
    requires i <= |items|
    decreases |items| - i
  {
    if i == |items| then Ok(Rendering([], pending, end))
    else
      var start := StartOf(text, end);
      var stop := start + |items[i].text|;
      match Take(text, start, stop, start, pending)
      case None => Err(E.SplitsEmphasis)
      case Some(t) =>
        var value := Value(t.chunks, E.EmotionAt(changes, start));
        if |value| > MAX_RENDERED_UNIT then Err(E.UnitTooLong)
        else Onto([Output(t.chunks, value, items[i].pause)], Units(text, items, changes, i + 1, stop, t.rest))
  }

  function Onto(first: seq<Output>, later: Result<Rendering, E.Problem>): Result<Rendering, E.Problem> {
    match later
    case Err(problem) => later
    case Ok(r) => Ok(r.(outputs := first + r.outputs))
  }

  function JoinMarkup(ops: seq<E.Op>): string {
    if ops == [] then ""
    else if |ops| == 1 then E.Markup(ops[0])
    else E.Markup(ops[0]) + " " + JoinMarkup(ops[1..])
  }

  function AsControls(ops: seq<E.Op>): seq<Chunk> {
    seq(|ops|, i requires 0 <= i < |ops| => Control(ops[i]))
  }

  /** A control after the last unit that is not an event in trailing white space. */
  predicate Stray(text: string, end: nat, op: E.Op) {
    op.Emphasis? || Strip(Slice(text, end, E.Left(op))) != ""
  }

  /** Events in trailing white space belong to the last unit. */
  function Finish(text: string, r: Rendering): Result<seq<Output>, E.Problem>
    requires r.outputs != []
  {
    if r.rest == [] then Ok(r.outputs)
    else if exists i :: 0 <= i < |r.rest| && Stray(text, r.end, r.rest[i]) then Err(E.SplitsEmphasis)
    else
      var last := r.outputs[|r.outputs| - 1];
      var value := last.text + " " + JoinMarkup(r.rest);
      if |value| > MAX_RENDERED_UNIT then Err(E.UnitTooLong)
      else Ok(r.outputs[..|r.outputs| - 1] + [Output(last.chunks + AsControls(r.rest), value, last.pause)])
  }

  lemma UnitsAreItems(text: string, items: seq<P.Item>, changes: seq<E.Change>, i: nat, end: nat, pending: seq<E.Op>)
    requires i <= |items|
    ensures var r := Units(text, items, changes, i, end, pending); r.Ok? ==> |r.value.outputs| == |items| - i
    decreases |items| - i
  {
    if i < |items| {
      var start := StartOf(text, end);
      var t := Take(text, start, start + |items[i].text|, start, pending);
      if t.Some? { UnitsAreItems(text, items, changes, i + 1, start + |items[i].text|, t.value.rest); }
    }
  }

  function Render(text: string, items: seq<P.Item>, ops: seq<E.Op>, changes: seq<E.Change>)
      : Result<seq<Output>, E.Problem>
    requires items != []
  {
    UnitsAreItems(text, items, changes, 0, 0, ops);
    match Units(text, items, changes, 0, 0, ops)
    case Err(problem) => Err(problem)
    case Ok(r) => Finish(text, r)
  }

  // ----- what the chunks hold

  function Controls(chunks: seq<Chunk>): seq<E.Op> {
    if chunks == [] then []
    else (if chunks[0].Control? then [chunks[0].op] else []) + Controls(chunks[1..])
  }

  /** The text the chunks stand for: an emphasis stands for the words it covers. */
  function Covered(text: string, chunks: seq<Chunk>): string {
    if chunks == [] then "" else CoveredBy(text, chunks[0]) + Covered(text, chunks[1..])
  }

  function CoveredBy(text: string, chunk: Chunk): string {
    match chunk
    case Said(said) => said
    case Control(op) => Slice(text, E.Left(op), E.Right(op))
  }

  predicate Within(op: E.Op, start: nat, end: nat) { op.Emphasis? ==> start <= op.left && op.right <= end }

  ghost predicate AllFrom(ops: seq<E.Op>, from: nat) { forall i :: 0 <= i < |ops| ==> from <= E.Left(ops[i]) }

  lemma TwoChunks(text: string, said: string, op: E.Op, later: seq<Chunk>)
    ensures var all := [Said(said), Control(op)] + later;
            && Controls(all) == [op] + Controls(later)
            && Covered(text, all) == said + (Slice(text, E.Left(op), E.Right(op)) + Covered(text, later))
  {
    var all := [Said(said), Control(op)] + later;
    assert all[1..][1..] == later && all[1..][0] == Control(op);
    assert [] + Controls(all[1..]) == Controls(all[1..]);
  }

  lemma OneChunk(text: string, said: string)
    ensures Controls([Said(said)]) == [] && Covered(text, [Said(said)]) == said
  {
    assert [Said(said)][1..] == [] && said + "" == said;
  }

  /** The position of the next control, and what comes before and with it. */
  lemma NextStretch(text: string, start: nat, end: nat, cursor: nat, op: E.Op)
    requires start <= cursor <= end <= |text| && E.Left(op) <= E.Right(op)
    requires op.Emphasis? ==> start <= E.Left(op) && E.Right(op) <= end
    requires !op.Emphasis? ==> E.Right(op) == E.Left(op) <= end
    requires cursor <= Larger(start, E.Left(op))
    ensures var at := Larger(start, E.Left(op));
            var next := Larger(at, E.Right(op));
            && start <= next <= end
            && Slice(text, cursor, at) + (Slice(text, E.Left(op), E.Right(op)) + text[next..end]) == text[cursor..end]
  {
  }

  lemma RestFollows(ops: seq<E.Op>, length: nat)
    requires E.Ordered(ops, length) && ops != []
    ensures E.Ordered(ops[1..], length) && AllFrom(ops[1..], E.Right(ops[0])) && AllFrom(ops, E.Left(ops[0]))
    ensures E.Left(ops[0]) <= E.Right(ops[0]) <= length && (!ops[0].Emphasis? ==> E.Left(ops[0]) == E.Right(ops[0]))
  {
  }

  lemma FromEarlier(ops: seq<E.Op>, a: nat, b: nat)
    requires AllFrom(ops, b) && a <= b
    ensures AllFrom(ops, a)
  {
  }

  ghost predicate AllWithin(ops: seq<E.Op>, start: nat, end: nat) {
    forall i :: 0 <= i < |ops| ==> Within(ops[i], start, end)
  }

  /** What a segment takes is the first of the pending controls; it covers exactly the segment. */
  ghost predicate TakesFirst(text: string, start: nat, end: nat, cursor: nat, pending: seq<E.Op>, t: Taken) {
    && start <= cursor <= end <= |text|
    && Controls(t.chunks) + t.rest == pending && Covered(text, t.chunks) == text[cursor..end]
    && AllFrom(t.rest, end) && E.Ordered(t.rest, |text|) && AllWithin(Controls(t.chunks), start, end)
  }

  lemma TakesNone(text: string, start: nat, end: nat, cursor: nat, pending: seq<E.Op>)
    requires start <= cursor <= end <= |text| && E.Ordered(pending, |text|)
    requires pending == [] || Later(pending[0], end)
    ensures TakesFirst(text, start, end, cursor, pending, Taken([Said(Slice(text, cursor, end))], pending))
  {
    OneChunk(text, Slice(text, cursor, end));
    if pending != [] {
      RestFollows(pending, |text|);
      FromEarlier(pending, end, E.Left(pending[0]));
    }
  }

  lemma TakesOne(text: string, start: nat, end: nat, cursor: nat, pending: seq<E.Op>, later: Taken)
    requires pending != [] && cursor <= Larger(start, E.Left(pending[0])) && start <= cursor <= end <= |text|
    requires E.Left(pending[0]) <= E.Right(pending[0]) && Within(pending[0], start, end)
    requires !pending[0].Emphasis? ==> E.Right(pending[0]) == E.Left(pending[0]) <= end
    requires var next := Larger(Larger(start, E.Left(pending[0])), E.Right(pending[0]));
             TakesFirst(text, start, end, next, pending[1..], later)
    ensures var at := Larger(start, E.Left(pending[0]));
            TakesFirst(text, start, end, cursor, pending,
                       Taken([Said(Slice(text, cursor, at)), Control(pending[0])] + later.chunks, later.rest))
  {
    var op := pending[0];
    NextStretch(text, start, end, cursor, op);
    TwoChunks(text, Slice(text, cursor, Larger(start, E.Left(op))), op, later.chunks);
    hide E.Ordered, AllFrom, Controls, Covered, Slice, Within;
    Regroup([op], Controls(later.chunks), later.rest);
    assert pending == [op] + pending[1..];
  }

  lemma {:induction false} TakeHolds(text: string, start: nat, end: nat, cursor: nat, pending: seq<E.Op>)
    requires E.Ordered(pending, |text|) && start <= cursor <= end <= |text|
    requires cursor == start || AllFrom(pending, cursor)
    requires Take(text, start, end, cursor, pending).Some?
    ensures TakesFirst(text, start, end, cursor, pending, Take(text, start, end, cursor, pending).value)
    decreases |pending|
  {
    hide TakesFirst, E.Ordered, Slice;
    if pending == [] || Later(pending[0], end) {
      TakesNone(text, start, end, cursor, pending);
    } else {
      var at := Larger(start, E.Left(pending[0]));
      var next := Larger(at, E.Right(pending[0]));
      RestFollows(pending, |text|);
      TakeHolds(text, start, end, next, pending[1..]);
      TakesOne(text, start, end, cursor, pending, Take(text, start, end, next, pending[1..]).value);
    }
  }

  /** An emphasis that makes the segment fail begins before its end without lying in it. */
  lemma {:induction false} TakeFails(text: string, start: nat, end: nat, cursor: nat, pending: seq<E.Op>)
    requires Take(text, start, end, cursor, pending).None?
    ensures exists i :: 0 <= i < |pending| && pending[i].Emphasis? && pending[i].left < end &&
                        !Within(pending[i], start, end)
    decreases |pending|
  {
    if pending[0].Emphasis? && (pending[0].left < start || pending[0].right > end) {
      assert !Within(pending[0], start, end);
    } else {
      var at := Larger(start, E.Left(pending[0]));
      TakeFails(text, start, end, Larger(at, E.Right(pending[0])), pending[1..]);
      var i :| 0 <= i < |pending[1..]| && pending[1..][i].Emphasis? && pending[1..][i].left < end &&
               !Within(pending[1..][i], start, end);
      assert pending[i + 1] == pending[1..][i];
    }
  }

  // ----- the units of a partition

  function AllControls(outputs: seq<Output>): seq<E.Op> {
    if outputs == [] then [] else Controls(outputs[0].chunks) + AllControls(outputs[1..])
  }

  /** Unit `k` covers exactly its segment, holds only emphasis that lies in it, and keeps its pause. */
  ghost predicate Fits(text: string, items: seq<P.Item>, starts: seq<nat>, output: Output, k: nat)
    requires k < |items| == |starts|
  {
    && Covered(text, output.chunks) == items[k].text && output.pause == items[k].pause
    && AllWithin(Controls(output.chunks), starts[k], P.EndOf(items, starts, k + 1))
  }

  ghost predicate Nowhere(items: seq<P.Item>, starts: seq<nat>, op: E.Op)
    requires |starts| == |items|
  {
    op.Emphasis? && forall k :: 0 <= k < |items| ==> !Within(op, starts[k], P.EndOf(items, starts, k + 1))
  }

  ghost predicate SomeNowhere(items: seq<P.Item>, starts: seq<nat>, ops: seq<E.Op>)
    requires |starts| == |items|
  {
    exists i :: 0 <= i < |ops| && Nowhere(items, starts, ops[i])
  }

  lemma {:induction false} EndsGrow(b: P.Backend, text: string, items: seq<P.Item>, starts: seq<nat>, j: nat, k: nat)
    requires P.Partition(b, text, items, starts) && j <= k <= |items|
    ensures P.EndOf(items, starts, j) <= P.EndOf(items, starts, k) <= |text|
    ensures k < |items| ==> P.EndOf(items, starts, j) <= starts[k]
    decreases k - j
  {
    P.LaidOutIsFaultless(b, text, items, starts, k);
    if k < |items| { P.PlacedIsFound(b, text, items, starts, k); }
    if j < k {
      EndsGrow(b, text, items, starts, j, k - 1);
      P.PlacedIsFound(b, text, items, starts, k - 1);
    }
  }

  /** An emphasis that begins after segment `i - 1` and before the end of segment `i`, but does not lie in
      segment `i`, lies in no segment. */
  lemma CrossingIsNowhere(b: P.Backend, text: string, items: seq<P.Item>, starts: seq<nat>, i: nat, op: E.Op)
    requires P.Partition(b, text, items, starts) && i <= |items| && op.Emphasis? && op.left < op.right
    requires P.EndOf(items, starts, i) <= op.left
    requires i < |items| ==>
               op.left < P.EndOf(items, starts, i + 1) && !Within(op, starts[i], P.EndOf(items, starts, i + 1))
    ensures Nowhere(items, starts, op)
  {
    forall k | 0 <= k < |items| ensures !Within(op, starts[k], P.EndOf(items, starts, k + 1)) {
      if k < i {
        EndsGrow(b, text, items, starts, k + 1, i);
      } else if k > i {
        EndsGrow(b, text, items, starts, i + 1, k);
      }
    }
  }

  /** The units from `i` on. */
  ghost predicate UnitsFit(text: string, items: seq<P.Item>, starts: seq<nat>, i: nat, pending: seq<E.Op>, r: Rendering)
    requires i <= |items| == |starts|
  {
    && |r.outputs| == |items| - i && r.end == P.EndOf(items, starts, |items|)
    && AllControls(r.outputs) + r.rest == pending
    && AllFrom(r.rest, r.end) && E.Ordered(r.rest, |text|)
    && (forall k :: 0 <= k < |r.outputs| ==> Fits(text, items, starts, r.outputs[k], i + k))
  }

  lemma OneMoreUnit(text: string, items: seq<P.Item>, starts: seq<nat>, i: nat, pending: seq<E.Op>, t: Taken,
                    output: Output, r: Rendering)
    requires i < |items| == |starts| && UnitsFit(text, items, starts, i + 1, t.rest, r)
    requires output.chunks == t.chunks && Controls(t.chunks) + t.rest == pending && Fits(text, items, starts, output, i)
    ensures UnitsFit(text, items, starts, i, pending, r.(outputs := [output] + r.outputs))
  {
    var all := [output] + r.outputs;
    assert all[1..] == r.outputs;
    assert AllControls(all) == Controls(output.chunks) + AllControls(r.outputs);
    hide AllControls, Controls, Fits;
    Regroup(Controls(t.chunks), AllControls(r.outputs), r.rest);
    assert forall k :: 0 < k < |all| ==> all[k] == r.outputs[k - 1] && i + k == (i + 1) + (k - 1);
  }

  lemma SuffixNowhere(items: seq<P.Item>, starts: seq<nat>, before: seq<E.Op>, ops: seq<E.Op>)
    requires |starts| == |items| && SomeNowhere(items, starts, ops)
    ensures SomeNowhere(items, starts, before + ops)
  {
    var i :| 0 <= i < |ops| && Nowhere(items, starts, ops[i]);
    assert (before + ops)[|before| + i] == ops[i];
  }

  /** Where segment `i` lies, and what it takes. */
  lemma UnitTakes(b: P.Backend, text: string, items: seq<P.Item>, starts: seq<nat>, i: nat, pending: seq<E.Op>)
    requires P.Partition(b, text, items, starts) && i < |items|
    requires E.Ordered(pending, |text|) && AllFrom(pending, P.EndOf(items, starts, i))
    ensures var stop := P.EndOf(items, starts, i + 1);
            && StartOf(text, P.EndOf(items, starts, i)) == starts[i] && stop == starts[i] + |items[i].text|
            && (Take(text, starts[i], stop, starts[i], pending).Some? ==>
                  var t := Take(text, starts[i], stop, starts[i], pending).value;
                  && Controls(t.chunks) + t.rest == pending && Covered(text, t.chunks) == items[i].text
                  && AllFrom(t.rest, stop) && E.Ordered(t.rest, |text|)
                  && AllWithin(Controls(t.chunks), starts[i], stop))
            && (Take(text, starts[i], stop, starts[i], pending).None? ==> SomeNowhere(items, starts, pending))
  {
    var stop := P.EndOf(items, starts, i + 1);
    EndsGrow(b, text, items, starts, i, i);
    P.PlacedIsFound(b, text, items, starts, i);
    if Take(text, starts[i], stop, starts[i], pending).Some? {
      TakeHolds(text, starts[i], stop, starts[i], pending);
    } else {
      TakeFails(text, starts[i], stop, starts[i], pending);
      var j :| 0 <= j < |pending| && pending[j].Emphasis? && pending[j].left < stop &&
               !Within(pending[j], starts[i], stop);
      CrossingIsNowhere(b, text, items, starts, i, pending[j]);
    }
  }

  /** Rendering segment `i` once it is known what it takes. */
  lemma UnitsNext(text: string, items: seq<P.Item>, changes: seq<E.Change>, i: nat, end: nat, start: nat, stop: nat,
                  pending: seq<E.Op>)
    requires i < |items| && StartOf(text, end) == start && stop == start + |items[i].text|
    ensures var r := Units(text, items, changes, i, end, pending);
            match Take(text, start, stop, start, pending)
            case None => r == Err(E.SplitsEmphasis)
            case Some(t) =>
              var value := Value(t.chunks, E.EmotionAt(changes, start));
              || r == Err(E.UnitTooLong)
              || r == Onto([Output(t.chunks, value, items[i].pause)], Units(text, items, changes, i + 1, stop, t.rest))
  {
  }

  ghost predicate UnitsGood(text: string, items: seq<P.Item>, starts: seq<nat>, i: nat, pending: seq<E.Op>,
                            r: Result<Rendering, E.Problem>)
    requires i <= |items| == |starts|
  {
    && (r.Ok? ==> UnitsFit(text, items, starts, i, pending, r.value))
    && (r == Err(E.SplitsEmphasis) ==> SomeNowhere(items, starts, pending))
  }

  lemma UnitGood(text: string, items: seq<P.Item>, starts: seq<nat>, i: nat, pending: seq<E.Op>, t: Taken,
                 value: string, later: Result<Rendering, E.Problem>)
    requires i < |items| == |starts|
    requires Controls(t.chunks) + t.rest == pending && Covered(text, t.chunks) == items[i].text
    requires AllWithin(Controls(t.chunks), starts[i], P.EndOf(items, starts, i + 1))
    requires UnitsGood(text, items, starts, i + 1, t.rest, later)
    ensures UnitsGood(text, items, starts, i, pending, Onto([Output(t.chunks, value, items[i].pause)], later))
  {
    hide UnitsFit, SomeNowhere, AllWithin, Controls, Covered;
    if later.Ok? {
      OneMoreUnit(text, items, starts, i, pending, t, Output(t.chunks, value, items[i].pause), later.value);
    }
    if later == Err(E.SplitsEmphasis) { SuffixNowhere(items, starts, Controls(t.chunks), t.rest); }
  }

  lemma UnitShape(b: P.Backend, text: string, items: seq<P.Item>, starts: seq<nat>, changes: seq<E.Change>, i: nat,
                  pending: seq<E.Op>, t: Taken, later: Result<Rendering, E.Problem>)
    requires P.Partition(b, text, items, starts) && i < |items|
    requires E.Ordered(pending, |text|) && AllFrom(pending, P.EndOf(items, starts, i))
    requires var stop := P.EndOf(items, starts, i + 1);
             && Take(text, starts[i], stop, starts[i], pending) == Some(t)
             && later == Units(text, items, changes, i + 1, stop, t.rest)
    requires UnitsGood(text, items, starts, i + 1, t.rest, later)
    ensures UnitsGood(text, items, starts, i, pending,
                      Units(text, items, changes, i, P.EndOf(items, starts, i), pending))
  {
    hide P.Placed, Take, Value, Covered, Controls, AllWithin, SomeNowhere;
    var end, stop := P.EndOf(items, starts, i), P.EndOf(items, starts, i + 1);
    UnitTakes(b, text, items, starts, i, pending);
    UnitsNext(text, items, changes, i, end, starts[i], stop, pending);
    hide UnitsFit, SomeNowhere, AllWithin, Controls, Covered, Take, Value, Units, P.Partition, E.Ordered, AllFrom;
    UnitGood(text, items, starts, i, pending, t, Value(t.chunks, E.EmotionAt(changes, starts[i])), later);
  }

  lemma CrossingFails(text: string, items: seq<P.Item>, starts: seq<nat>, i: nat, pending: seq<E.Op>)
    requires i <= |items| == |starts| && SomeNowhere(items, starts, pending)
    ensures UnitsGood(text, items, starts, i, pending, Err(E.SplitsEmphasis))
  {
  }

  lemma NoUnits(text: string, items: seq<P.Item>, starts: seq<nat>, changes: seq<E.Change>, pending: seq<E.Op>)
    requires |starts| == |items|
    requires E.Ordered(pending, |text|) && AllFrom(pending, P.EndOf(items, starts, |items|))
    ensures UnitsGood(text, items, starts, |items|, pending,
                      Units(text, items, changes, |items|, P.EndOf(items, starts, |items|), pending))
  {
    assert [] + pending == pending;
  }

  lemma {:induction false} UnitsHold(b: P.Backend, text: string, items: seq<P.Item>, starts: seq<nat>,
                                     changes: seq<E.Change>, i: nat, pending: seq<E.Op>)
    requires P.Partition(b, text, items, starts) && i <= |items|
    requires E.Ordered(pending, |text|) && AllFrom(pending, P.EndOf(items, starts, i))
    ensures UnitsGood(text, items, starts, i, pending,
                      Units(text, items, changes, i, P.EndOf(items, starts, i), pending))
    decreases |items| - i
  {
    hide P.Placed, Take, Value, Covered, Controls, AllWithin, SomeNowhere, UnitsGood, Units;
    if i == |items| {
      NoUnits(text, items, starts, changes, pending);
    } else {
      var stop := P.EndOf(items, starts, i + 1);
      UnitTakes(b, text, items, starts, i, pending);
      UnitsNext(text, items, changes, i, P.EndOf(items, starts, i), starts[i], stop, pending);
      var taken := Take(text, starts[i], stop, starts[i], pending);
      hide AllFrom, E.Ordered;
      if taken.Some? {
        UnitsHold(b, text, items, starts, changes, i + 1, taken.value.rest);
        UnitShape(b, text, items, starts, changes, i, pending, taken.value,
                  Units(text, items, changes, i + 1, stop, taken.value.rest));
      } else {
        CrossingFails(text, items, starts, i, pending);
      }
    }
  }

  // ----- the end of the text

  lemma SliceIsBlank(text: string, end: nat, at: nat)
    requires end <= |text| && Blank(text[end..])
    ensures Strip(Slice(text, end, at)) == ""
  {
    P.BlankIffStrip(Slice(text, end, at));
  }

  lemma {:induction false} AllControlsConcat(a: seq<Output>, b: seq<Output>)
    ensures AllControls(a + b) == AllControls(a) + AllControls(b)
    decreases |a|
  {
    if a == [] {
      assert a + b == b;
    } else {
      assert (a + b)[1..] == a[1..] + b;
      AllControlsConcat(a[1..], b);
      Regroup(Controls(a[0].chunks), AllControls(a[1..]), AllControls(b));
    }
  }

  lemma {:induction false} ControlsConcat(a: seq<Chunk>, b: seq<Chunk>)
    ensures Controls(a + b) == Controls(a) + Controls(b)
    decreases |a|
  {
    if a == [] {
      assert a + b == b;
    } else {
      assert (a + b)[1..] == a[1..] + b && (a + b)[0] == a[0];
      ControlsConcat(a[1..], b);
      Regroup(if a[0].Control? then [a[0].op] else [], Controls(a[1..]), Controls(b));
    }
  }

  lemma {:induction false} CoveredConcat(text: string, a: seq<Chunk>, b: seq<Chunk>)
    ensures Covered(text, a + b) == Covered(text, a) + Covered(text, b)
    decreases |a|
  {
    hide Slice;
    if a == [] {
      assert a + b == b;
    } else {
      assert (a + b)[1..] == a[1..] + b && (a + b)[0] == a[0];
      CoveredConcat(text, a[1..], b);
      Regroup(CoveredBy(text, a[0]), Covered(text, a[1..]), Covered(text, b));
    }
  }

  lemma {:induction false} PointsCoverNothing(text: string, ops: seq<E.Op>)
    requires forall i :: 0 <= i < |ops| ==> !ops[i].Emphasis?
    ensures Controls(AsControls(ops)) == ops && Covered(text, AsControls(ops)) == ""
    decreases |ops|
  {
    if ops != [] {
      PointsCoverNothing(text, ops[1..]);
      assert AsControls(ops)[1..] == AsControls(ops[1..]);
    }
  }

  /** Every control once and in order, and each unit covers its segment. */
  ghost predicate InPlace(text: string, items: seq<P.Item>, starts: seq<nat>, ops: seq<E.Op>, outputs: seq<Output>)
    requires |starts| == |items|
  {
    && |outputs| == |items| && AllControls(outputs) == ops
    && forall k :: 0 <= k < |items| ==> Fits(text, items, starts, outputs[k], k)
  }

  /** Points after the last segment go to the last unit and cover nothing. */
  lemma LastUnitFits(text: string, items: seq<P.Item>, starts: seq<nat>, k: nat, output: Output, rest: seq<E.Op>,
                     value: string)
    requires k < |items| == |starts| && Fits(text, items, starts, output, k)
    requires forall i :: 0 <= i < |rest| ==> !rest[i].Emphasis?
    ensures Fits(text, items, starts, Output(output.chunks + AsControls(rest), value, output.pause), k)
    ensures Controls(output.chunks + AsControls(rest)) == Controls(output.chunks) + rest
  {
    PointsCoverNothing(text, rest);
    ControlsConcat(output.chunks, AsControls(rest));
    CoveredConcat(text, output.chunks, AsControls(rest));
    assert Covered(text, output.chunks) + "" == Covered(text, output.chunks);
  }

  lemma {:induction false} LastUnitCompletes(text: string, items: seq<P.Item>, starts: seq<nat>, ops: seq<E.Op>,
      before: seq<Output>,
                          last: Output, rest: seq<E.Op>, value: string)
    requires |starts| == |items| == |before| + 1 && AllControls(before + [last]) + rest == ops
    requires forall k :: 0 <= k < |before| ==> Fits(text, items, starts, before[k], k)
    requires Fits(text, items, starts, last, |before|)
    requires forall i :: 0 <= i < |rest| ==> !rest[i].Emphasis?
    ensures InPlace(text, items, starts, ops,
                     before + [Output(last.chunks + AsControls(rest), value, last.pause)])
  {
    var final := Output(last.chunks + AsControls(rest), value, last.pause);
    LastUnitFits(text, items, starts, |before|, last, rest, value);
    LastControls(before, last);
    LastControls(before, final);
    hide Fits, Controls, AllControls, AsControls;
    Regroup(AllControls(before), Controls(last.chunks), rest);
    forall k | 0 <= k < |items| ensures Fits(text, items, starts, (before + [final])[k], k) {
      if k == |before| { assert (before + [final])[k] == final; } else { assert (before + [final])[k] == before[k]; }
    }
  }

  lemma RestIsPoints(text: string, r: Rendering)
    requires r.outputs != [] && Finish(text, r).Ok?
    ensures forall i :: 0 <= i < |r.rest| ==> !r.rest[i].Emphasis?
  {
    forall i | 0 <= i < |r.rest| ensures !r.rest[i].Emphasis? { assert !Stray(text, r.end, r.rest[i]); }
  }

  lemma FinishCompletes(text: string, items: seq<P.Item>, starts: seq<nat>, ops: seq<E.Op>, r: Rendering)
    requires items != [] && |starts| == |items| && UnitsFit(text, items, starts, 0, ops, r) && Finish(text, r).Ok?
    ensures InPlace(text, items, starts, ops, Finish(text, r).value)
  {
    hide Fits, AllFrom, AllControls, Controls, AsControls, JoinMarkup, E.Ordered, Stray;
    forall k | 0 <= k < |items| ensures Fits(text, items, starts, r.outputs[k], k) { assert 0 + k == k; }
    if r.rest == [] {
      assert AllControls(r.outputs) + [] == AllControls(r.outputs);
    } else {
      RestIsPoints(text, r);
      var n := |r.outputs| - 1;
      assert r.outputs[..n] + [r.outputs[n]] == r.outputs;
      LastUnitCompletes(text, items, starts, ops, r.outputs[..n], r.outputs[n], r.rest,
                        r.outputs[n].text + " " + JoinMarkup(r.rest));
    }
  }

  lemma LastControls(before: seq<Output>, last: Output)
    ensures AllControls(before + [last]) == AllControls(before) + Controls(last.chunks)
  {
    AllControlsConcat(before, [last]);
    assert [last][1..] == [] && Controls(last.chunks) + [] == Controls(last.chunks);
  }

  /** What is left over can only fail on an emphasis that lies in no segment. */
  lemma FinishFails(b: P.Backend, text: string, items: seq<P.Item>, starts: seq<nat>, ops: seq<E.Op>, r: Rendering)
    requires P.Partition(b, text, items, starts) && items != [] && UnitsFit(text, items, starts, 0, ops, r)
    requires Finish(text, r) == Err(E.SplitsEmphasis)
    ensures SomeNowhere(items, starts, ops)
  {
    var i :| 0 <= i < |r.rest| && Stray(text, r.end, r.rest[i]);
    SliceIsBlank(text, r.end, E.Left(r.rest[i]));
    CrossingIsNowhere(b, text, items, starts, |items|, r.rest[i]);
    SuffixNowhere(items, starts, AllControls(r.outputs), r.rest);
  }

  lemma {:induction false} AllControlsAreIn(text: string, items: seq<P.Item>, starts: seq<nat>,
      outputs: seq<Output>, i: nat)
    requires |starts| == |items| && i + |outputs| == |items|
    requires forall k :: 0 <= k < |outputs| ==> Fits(text, items, starts, outputs[k], i + k)
    ensures !SomeNowhere(items, starts, AllControls(outputs))
    decreases |outputs|
  {
    if outputs != [] {
      assert forall k :: 0 <= k < |outputs[1..]| ==> outputs[1..][k] == outputs[k + 1] && (i + 1) + k == i + (k + 1);
      AllControlsAreIn(text, items, starts, outputs[1..], i + 1);
      var first := Controls(outputs[0].chunks);
      assert Fits(text, items, starts, outputs[0], i + 0);
      forall j | 0 <= j < |AllControls(outputs)| ensures !Nowhere(items, starts, AllControls(outputs)[j]) {
        if j < |first| {
          assert Within(first[j], starts[i], P.EndOf(items, starts, i + 1));
        } else {
          assert AllControls(outputs)[j] == AllControls(outputs[1..])[j - |first|];
        }
      }
    }
  }

  lemma {:induction false} UnitsErr(text: string, items: seq<P.Item>, changes: seq<E.Change>, i: nat, end: nat,
      pending: seq<E.Op>)
    requires i <= |items|
    ensures var r := Units(text, items, changes, i, end, pending);
            r.Err? ==> r.error == E.SplitsEmphasis || r.error == E.UnitTooLong
    decreases |items| - i
  {
    hide Take, Value;
    if i < |items| {
      var start := StartOf(text, end);
      var t := Take(text, start, start + |items[i].text|, start, pending);
      if t.Some? { UnitsErr(text, items, changes, i + 1, start + |items[i].text|, t.value.rest); }
    }
  }

  // ----- what a unit says

  lemma SpokenHead(c: char, s: string)
    ensures Spoken([c] + s) == (if Space(c) then "" else [c]) + Spoken(s)
  {
    assert ([c] + s)[1..] == s;
  }

  lemma {:induction false} SqueezeSpeaks(s: string)
    ensures Spoken(Squeeze(s)) == Spoken(s)
    decreases |s|
  {
    if s != "" {
      SqueezeSpeaks(s[1..]);
      SpokenHead(s[0], Squeeze(s[1..]));
      SpokenHead(' ', Squeeze(s[1..]));
      assert s == [s[0]] + s[1..];
    }
  }

  lemma {:induction false} BlankBefore(s: string, n: nat)
    requires n <= |s| && Blank(s[..n])
    ensures Spoken(s) == Spoken(s[n..])
  {
    BlankIsSilent(s[..n]);
    SpokenConcat(s[..n], s[n..]);
    assert s[..n] + s[n..] == s && "" + Spoken(s[n..]) == Spoken(s[n..]);
  }

  lemma {:induction false} DropGapsSpeaks(s: string)
    ensures Spoken(DropGaps(s)) == Spoken(s)
    decreases |s|
  {
    if s == "" {
    } else if !Space(s[0]) {
      DropGapsSpeaks(s[1..]);
      SpokenHead(s[0], DropGaps(s[1..]));
    } else {
      var end := P.SkipSpace(s, 0);
      assert s[0..end] == s[..end];
      BlankBefore(s, end);
      if end < |s| && s[end] in ".,;:!?" {
        DropGapsSpeaks(s[end + 1..]);
        SpokenHead(s[end], DropGaps(s[end + 1..]));
        assert s[end..] == [s[end]] + s[end + 1..];
        SpokenHead(s[end], s[end + 1..]);
      } else if end > 0 {
        DropGapsSpeaks(s[end..]);
        BlankIsSilent(s[..end]);
        SpokenConcat(s[..end], DropGaps(s[end..]));
        assert "" + Spoken(DropGaps(s[end..])) == Spoken(DropGaps(s[end..]));
      }
    }
  }

  /** Tidying a unit changes only white space; at most the emotion in force is put before it. */
  lemma {:induction false} UnitSaysItsChunks(chunks: seq<Chunk>, emotion: Option<string>)
    ensures Spoken(Value(chunks, emotion)) == Spoken(Show(chunks)) ||
            (emotion.Some? &&
             Spoken(Value(chunks, emotion)) == Spoken("[" + emotion.value + "] ") + Spoken(Show(chunks)))
  {
    var shown := Show(chunks);
    SqueezeSpeaks(shown);
    StripKeepsSpoken(Squeeze(shown));
    DropGapsSpeaks(Strip(Squeeze(shown)));
    if emotion.Some? { SpokenConcat("[" + emotion.value + "] ", DropGaps(Strip(Squeeze(shown)))); }
  }

  /** The text of a unit is what its chunks show, but for white space; at most the emotion in force where
      the unit begins is put before it. */
  ghost predicate Says(output: Output, emotion: Option<string>) {
    || Spoken(output.text) == Spoken(Show(output.chunks))
    || (emotion.Some? && Spoken(output.text) == Spoken("[" + emotion.value + "] ") + Spoken(Show(output.chunks)))
  }

  ghost predicate AllSay(changes: seq<E.Change>, starts: seq<nat>, outputs: seq<Output>, i: nat)
    requires i + |outputs| <= |starts|
  {
    forall k :: 0 <= k < |outputs| ==> Says(outputs[k], E.EmotionAt(changes, starts[i + k]))
  }

  lemma OneMoreSays(changes: seq<E.Change>, starts: seq<nat>, output: Output, later: seq<Output>, i: nat)
    requires i + 1 + |later| <= |starts| && Says(output, E.EmotionAt(changes, starts[i]))
    requires AllSay(changes, starts, later, i + 1)
    ensures AllSay(changes, starts, [output] + later, i)
  {
    hide Says;
    var all := [output] + later;
    forall k | 0 <= k < |all| ensures Says(all[k], E.EmotionAt(changes, starts[i + k])) {
      if k > 0 { assert all[k] == later[k - 1] && i + k == (i + 1) + (k - 1); }
    }
  }

  lemma {:induction false} UnitsSay(b: P.Backend, text: string, items: seq<P.Item>, starts: seq<nat>,
                                    changes: seq<E.Change>, i: nat, pending: seq<E.Op>)
    requires P.Partition(b, text, items, starts) && i <= |items|
    requires E.Ordered(pending, |text|) && AllFrom(pending, P.EndOf(items, starts, i))
    ensures var r := Units(text, items, changes, i, P.EndOf(items, starts, i), pending);
            r.Ok? ==> |r.value.outputs| == |items| - i && AllSay(changes, starts, r.value.outputs, i)
    decreases |items| - i
  {
    hide P.Placed, Take, Value, Covered, Controls, AllWithin, SomeNowhere, Says, Units;
    if i == |items| {
      NoOutputs(text, items, changes, P.EndOf(items, starts, i), pending);
    } else {
      var stop := P.EndOf(items, starts, i + 1);
      UnitTakes(b, text, items, starts, i, pending);
      UnitsNext(text, items, changes, i, P.EndOf(items, starts, i), starts[i], stop, pending);
      var taken := Take(text, starts[i], stop, starts[i], pending);
      hide AllFrom, E.Ordered, P.Partition;
      if taken.Some? {
        var emotion := E.EmotionAt(changes, starts[i]);
        var output := Output(taken.value.chunks, Value(taken.value.chunks, emotion), items[i].pause);
        UnitsSay(b, text, items, starts, changes, i + 1, taken.value.rest);
        ValueSays(taken.value.chunks, emotion, items[i].pause);
        var later := Units(text, items, changes, i + 1, stop, taken.value.rest);
        if later.Ok? { OneMoreSays(changes, starts, output, later.value.outputs, i); }
      }
    }
  }

  lemma NoOutputs(text: string, items: seq<P.Item>, changes: seq<E.Change>, end: nat, pending: seq<E.Op>)
    ensures Units(text, items, changes, |items|, end, pending) == Ok(Rendering([], pending, end))
  {
  }

  lemma ValueSays(chunks: seq<Chunk>, emotion: Option<string>, pause: int)
    ensures Says(Output(chunks, Value(chunks, emotion), pause), emotion)
  {
    UnitSaysItsChunks(chunks, emotion);
  }

  lemma {:induction false} ShowConcat(a: seq<Chunk>, b: seq<Chunk>)
    ensures Show(a + b) == Show(a) + Show(b)
    decreases |a|
  {
    hide E.Markup;
    if a == [] {
      assert a + b == b;
    } else {
      assert (a + b)[1..] == a[1..] + b && (a + b)[0] == a[0];
      ShowConcat(a[1..], b);
    }
  }

  lemma SpokenThree(a: string, b: string, c: string)
    ensures Spoken(a + b + c) == Spoken(a) + Spoken(b) + Spoken(c)
  {
    SpokenConcat(a + b, c);
    SpokenConcat(a, b);
  }

  lemma BlankSaysNothing()
    ensures Spoken(" ") == ""
  {
    assert " "[1..] == "";
  }

  lemma BetweenBlanks(blank: string, markup: string)
    requires Spoken(blank) == ""
    ensures Spoken(blank + markup + blank) == Spoken(markup)
  {
    hide Spoken;
    SpokenThree(blank, markup, blank);
    assert "" + Spoken(markup) + "" == Spoken(markup);
  }

  lemma BeforeBlank(blank: string, markup: string, rest: string)
    requires Spoken(blank) == ""
    ensures Spoken(markup + blank + rest) == Spoken(markup) + Spoken(rest)
  {
    hide Spoken;
    SpokenThree(markup, blank, rest);
    assert Spoken(markup) + "" + Spoken(rest) == Spoken(markup) + Spoken(rest);
  }

  lemma MarkupSays(blank: string, markup: string, joined: string, rest: string)
    requires Spoken(blank) == "" && Spoken(joined) == Spoken(rest)
    ensures Spoken(markup + blank + joined) == Spoken(blank + markup + blank + rest)
    ensures Spoken(markup + blank + joined) == Spoken(markup + rest)
  {
    hide Spoken;
    BetweenBlanks(blank, markup);
    SpokenConcat(blank + markup + blank, rest);
    SpokenConcat(markup, rest);
    BeforeBlank(blank, markup, joined);
  }

  /** Joined with blanks or shown as chunks, controls say the same. */
  lemma {:induction false} JoinedSays(ops: seq<E.Op>)
    ensures Spoken(JoinMarkup(ops)) == Spoken(Show(AsControls(ops)))
    decreases |ops|
  {
    hide Spoken, E.Markup;
    if ops != [] {
      JoinedSays(ops[1..]);
      var chunks := AsControls(ops);
      assert chunks[1..] == AsControls(ops[1..]) && chunks[0] == Control(ops[0]);
      BlankSaysNothing();
      MarkupSays(" ", E.Markup(ops[0]), JoinMarkup(ops[1..]), Show(chunks[1..]));
      if |ops| == 1 {
        BetweenBlanks(" ", E.Markup(ops[0]));
        assert ops[1..] == [] && chunks[1..] == [] && E.Markup(ops[0]) + "" == E.Markup(ops[0]);
      }
    }
  }

  /** Controls in trailing white space are said after the last unit. */
  lemma LastSays(last: Output, emotion: Option<string>, rest: seq<E.Op>)
    requires Says(last, emotion)
    ensures Says(Output(last.chunks + AsControls(rest), last.text + " " + JoinMarkup(rest), last.pause), emotion)
  {
    hide Spoken, Show, JoinMarkup, AsControls;
    JoinedSays(rest);
    BlankSaysNothing();
    SpokenThree(last.text, " ", JoinMarkup(rest));
    ShowConcat(last.chunks, AsControls(rest));
    SpokenConcat(Show(last.chunks), Show(AsControls(rest)));
  }

  lemma FinishSays(text: string, starts: seq<nat>, changes: seq<E.Change>, r: Rendering)
    requires r.outputs != [] && |r.outputs| <= |starts| && AllSay(changes, starts, r.outputs, 0) && Finish(text, r).Ok?
    ensures |Finish(text, r).value| == |r.outputs| && AllSay(changes, starts, Finish(text, r).value, 0)
  {
    if r.rest != [] {
      var n := |r.outputs| - 1;
      var last, all := r.outputs[n], Finish(text, r).value;
      assert Says(r.outputs[n], E.EmotionAt(changes, starts[0 + n]));
      LastSays(last, E.EmotionAt(changes, starts[n]), r.rest);
      hide Says, JoinMarkup, AsControls;
      forall k | 0 <= k < |all| ensures Says(all[k], E.EmotionAt(changes, starts[0 + k])) {
        if k < n { assert all[k] == r.outputs[k] && Says(r.outputs[k], E.EmotionAt(changes, starts[0 + k])); }
      }
    }
  }

  /** What is true of a rendering that succeeds: every control once and in order, each unit covers its
      segment, and its text says what it holds. */
  ghost predicate Complete(text: string, items: seq<P.Item>, starts: seq<nat>, ops: seq<E.Op>,
                           changes: seq<E.Change>, outputs: seq<Output>)
    requires |starts| == |items|
  {
    InPlace(text, items, starts, ops, outputs) && AllSay(changes, starts, outputs, 0)
  }

  /** Rendering a plan's controls onto a partition of the text: if it succeeds, every control comes out
      exactly once and in order, each unit covers exactly its own segment, and the text of each unit is
      what it covers and the markup of its controls, but for white space.  Unless a unit becomes too long,
      it succeeds exactly when every emphasis lies in one segment. */
  lemma RenderedExactly(b: P.Backend, text: string, items: seq<P.Item>, starts: seq<nat>, ops: seq<E.Op>,
                        changes: seq<E.Change>)
    requires P.Partition(b, text, items, starts) && items != [] && E.Ordered(ops, |text|)
    ensures var r := Render(text, items, ops, changes);
            && (r.Ok? ==> Complete(text, items, starts, ops, changes, r.value) && !SomeNowhere(items, starts, ops))
            && (r.Err? ==> r.error == E.UnitTooLong || (r.error == E.SplitsEmphasis && SomeNowhere(items, starts, ops)))
  {
    UnitsAreItems(text, items, changes, 0, 0, ops);
    UnitsHold(b, text, items, starts, changes, 0, ops);
    UnitsSay(b, text, items, starts, changes, 0, ops);
    UnitsErr(text, items, changes, 0, 0, ops);
    var units := Units(text, items, changes, 0, 0, ops);
    hide AllSay;
    if units.Ok? {
      var r := units.value;
      if Finish(text, r).Ok? {
        FinishCompletes(text, items, starts, ops, r);
        FinishSays(text, starts, changes, r);
        AllControlsAreIn(text, items, starts, Finish(text, r).value, 0);
      } else if Finish(text, r).error == E.SplitsEmphasis {
        FinishFails(b, text, items, starts, ops, r);
      }
    }
  }

  // ----- the loops

  lemma TakenOntoTaken(a: seq<Chunk>, b: seq<Chunk>, later: Option<Taken>)
    ensures TakenOnto(a, TakenOnto(b, later)) == TakenOnto(a + b, later) && TakenOnto([], later) == later
  {
    if later.Some? {
      assert a + (b + later.value.chunks) == (a + b) + later.value.chunks;
      assert [] + later.value.chunks == later.value.chunks;
    }
  }

  /** The controls a segment takes, until one belongs to a later segment. */
  method TakeControls(text: string, start: nat, end: nat, pending: seq<E.Op>) returns (taken: Option<Taken>)
    ensures taken == Take(text, start, end, start, pending)
  {
    var chunks: seq<Chunk>, cursor: nat, consumed: nat := [], start, 0;
    assert pending[0..] == pending;
    TakenOntoTaken([], [], Take(text, start, end, start, pending));
    while consumed < |pending| && !Later(pending[consumed], end)
      invariant consumed <= |pending|
      invariant Take(text, start, end, start, pending) ==
                TakenOnto(chunks, Take(text, start, end, cursor, pending[consumed..]))
    {
      var op := pending[consumed];
      assert pending[consumed..][0] == op && pending[consumed..][1..] == pending[consumed + 1..];
      if op.Emphasis? && (op.left < start || op.right > end) { return None; }
      var at := Larger(start, E.Left(op));
      var more := [Said(Slice(text, cursor, at)), Control(op)];
      cursor := Larger(at, E.Right(op));
      TakenOntoTaken(chunks, more, Take(text, start, end, cursor, pending[consumed + 1..]));
      chunks := chunks + more;
      consumed := consumed + 1;
    }
    return Some(Taken(chunks + [Said(Slice(text, cursor, end))], pending[consumed..]));
  }

  lemma OntoOnto(a: seq<Output>, b: seq<Output>, later: Result<Rendering, E.Problem>)
    ensures Onto(a, Onto(b, later)) == Onto(a + b, later) && Onto([], later) == later
  {
    if later.Ok? {
      assert a + (b + later.value.outputs) == (a + b) + later.value.outputs;
      assert [] + later.value.outputs == later.value.outputs;
    }
  }

  method RenderPrepared(text: string, items: seq<P.Item>, ops: seq<E.Op>, changes: seq<E.Change>)
      returns (r: Result<seq<Output>, E.Problem>)
    requires items != []
    ensures r == Render(text, items, ops, changes)
  {
    hide Take, Value, StartOf;
    var rendered: seq<Output>, end: nat, pending, i := [], 0, ops, 0;
    OntoOnto([], [], Units(text, items, changes, 0, 0, ops));
    while i < |items|
      invariant 0 <= i <= |items| && |rendered| == i
      invariant Units(text, items, changes, 0, 0, ops) == Onto(rendered, Units(text, items, changes, i, end, pending))
    {
      var start := StartOf(text, end);
      var stop := start + |items[i].text|;
      var taken := TakeControls(text, start, stop, pending);
      if taken.None? { return Err(E.SplitsEmphasis); }
      var value := Value(taken.value.chunks, E.EmotionAt(changes, start));
      if |value| > MAX_RENDERED_UNIT { return Err(E.UnitTooLong); }
      var unit := Output(taken.value.chunks, value, items[i].pause);
      OntoOnto(rendered, [unit], Units(text, items, changes, i + 1, stop, taken.value.rest));
      rendered, pending, end := rendered + [unit], taken.value.rest, stop;
      i := i + 1;
    }
    assert rendered + [] == rendered;
    return Finish(text, Rendering(rendered, pending, end));
  }
}
