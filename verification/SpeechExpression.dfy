/** Expression plans: building the controls of a plan, placing emotion tags at sentence starts, and
    projecting the controls onto prepared segments (`prepare_expression_segments`,
    `_sentence_emotions` and `_render_prepared` in services/tts/src/openclaw_local_tts/expression.py).

    Where sentences begin, which characters make up words and which text is raw markup are given.
 */
module SpeechExpression {
  import opened Collections
  import opened Wrappers
  import opened SpeechText
  import P = PreparedSpeech

  // ----- plans and controls

  datatype Part = EventPart(name: string) | TextPart(text: string, emotion: Option<string>, emphasis: bool)

  datatype Piece = Words(text: string) | Mark(emotion: string)

  /** A control at its place in the plain text. */
  datatype Op =
    | Event(at: nat, name: string)
    | Tag(at: nat, emotion: string)
    | Emphasis(left: nat, right: nat, pieces: seq<Piece>)

  function Left(op: Op): nat { if op.Emphasis? then op.left else op.at }

  function Right(op: Op): nat { if op.Emphasis? then op.right else op.at }

  function ShowPieces(pieces: seq<Piece>): string {
    if pieces == [] then ""
    else
      var first := if pieces[0].Words? then "(((" + pieces[0].text + ")))" else "[" + pieces[0].emotion + "]";
      if |pieces| == 1 then first else first + " " + ShowPieces(pieces[1..])
  }

  function Markup(op: Op): string {
    match op
    case Event(_, name) => "<" + name + ">"
    case Tag(_, emotion) => "[" + emotion + "]"
    case Emphasis(_, _, pieces) => ShowPieces(pieces)
  }

  datatype Change = Change(at: nat, emotion: string)

  datatype Capabilities = Capabilities(emotions: set<string>, events: set<string>, emphasis: bool)

  datatype Reading = Reading(word: char -> bool, raw: string -> bool)

  datatype Problem =
    | RawControl | UnsupportedEmotion | WrongPartCount | UnsupportedEvent | EmptyText | UnsupportedEmphasis
    | TooManyControls | NotTheText | SplitsWord | SplitsEmphasis | UnitTooLong

  const MAX_PARTS: nat := 128
  const MAX_CONTROLS: nat := 64
  const MAX_EMPHASIS: nat := 80

  /** What the loop over the parts has gathered. */
  datatype Built = Built(source: string, ops: seq<Op>, changes: seq<Change>, boundaries: seq<nat>, controls: nat)

  predicate EmphasisAllowed(caps: Capabilities, text: string) {
    && caps.emphasis && 1 <= |text| <= MAX_EMPHASIS
    && forall i :: 0 <= i < |text| ==> text[i] !in "()\r\n"
  }

  function AddPart(r: Reading, caps: Capabilities, b: Built, part: Part): Result<Built, Problem> {
    var offset := |b.source|;
    match part
    case EventPart(name) =>
      if name !in caps.events then Err(UnsupportedEvent)
      else if b.controls + 1 > MAX_CONTROLS then Err(TooManyControls)
      else Ok(b.(ops := b.ops + [Event(offset, name)], boundaries := b.boundaries + [offset],
                 controls := b.controls + 1))
    case TextPart(text, emotion, emphasis) =>
      if text == "" then Err(EmptyText)
      else if r.raw(text) then Err(RawControl)
      else if emotion.Some? && emotion.value !in caps.emotions then Err(UnsupportedEmotion)
      else
        var u := if emotion.None? then b.(source := b.source + text)
                 else b.(source := b.source + text, changes := b.changes + [Change(offset, emotion.value)],
                         boundaries := b.boundaries + [offset], controls := b.controls + 1);
        if !emphasis then Ok(u)
        else if !EmphasisAllowed(caps, text) then Err(UnsupportedEmphasis)
        else if u.controls + 1 > MAX_CONTROLS then Err(TooManyControls)
        else Ok(u.(ops := u.ops + [Emphasis(offset, offset + |text|, [Words(text)])],
                   boundaries := u.boundaries + [offset, offset + |text|], controls := u.controls + 1))
  }

  function AddParts(r: Reading, caps: Capabilities, b: Built, parts: seq<Part>): Result<Built, Problem>
    decreases |parts|
  {
    if parts == [] then Ok(b)
    else
      match AddPart(r, caps, b, parts[0])
      case Err(problem) => Err(problem)
      case Ok(u) => AddParts(r, caps, u, parts[1..])
  }

  function Begin(emotion: Option<string>): Built {
    if emotion.Some? then Built("", [], [Change(0, emotion.value)], [], 1) else Built("", [], [], [], 0)
  }

  predicate CutsWord(r: Reading, text: string, at: nat) {
    0 < at < |text| && r.word(text[at - 1]) && r.word(text[at])
  }

  function Build(r: Reading, caps: Capabilities, text: string, emotion: Option<string>, parts: seq<Part>)
      : Result<Built, Problem>
  {
    if r.raw(text) then Err(RawControl)
    else if emotion.Some? && emotion.value !in caps.emotions then Err(UnsupportedEmotion)
    else if !(1 <= |parts| <= MAX_PARTS) then Err(WrongPartCount)
    else
      match AddParts(r, caps, Begin(emotion), parts)
      case Err(problem) => Err(problem)
      case Ok(b) =>
        if b.controls > MAX_CONTROLS then Err(TooManyControls)
        else if b.source != text then Err(NotTheText)
        else if exists i :: 0 <= i < |b.boundaries| && CutsWord(r, text, b.boundaries[i]) then Err(SplitsWord)
        else Ok(b)
  }

  // ----- what a plan asks for

  /** The vocal events and emphasised texts of a plan, in order. */
  datatype Request = Voice(name: string) | Stress(text: string)

  function RequestOf(part: Part): seq<Request> {
    match part
    case EventPart(name) => [Voice(name)]
    case TextPart(text, _, emphasis) => if emphasis then [Stress(text)] else []
  }

  function Requests(parts: seq<Part>): seq<Request> {
    if parts == [] then [] else RequestOf(parts[0]) + Requests(parts[1..])
  }

  function TextOf(part: Part): string { if part.TextPart? then part.text else "" }

  function PlainText(parts: seq<Part>): string {
    if parts == [] then "" else TextOf(parts[0]) + PlainText(parts[1..])
  }

  /** The control a part adds at this place. */
  function OpsOf(offset: nat, part: Part): seq<Op> {
    match part
    case EventPart(name) => [Event(offset, name)]
    case TextPart(text, _, emphasis) => if emphasis then [Emphasis(offset, offset + |text|, [Words(text)])] else []
  }

  /** Controls do not overlap and come in the order of the text. */
  ghost predicate Ordered(ops: seq<Op>, length: nat) {
    && (forall i :: 0 <= i < |ops| ==> Left(ops[i]) <= Right(ops[i]) <= length)
    && (forall i :: 0 <= i < |ops| && ops[i].Emphasis? ==> ops[i].left < ops[i].right)
    && (forall i, j :: 0 <= i < j < |ops| ==> Right(ops[i]) <= Left(ops[j]))
  }

  /** What the controls stand for in the text. */
  function AskedBy(text: string, op: Op): seq<Request> {
    match op
    case Event(_, name) => [Voice(name)]
    case Tag(_, _) => []
    case Emphasis(left, right, _) => if left <= right <= |text| then [Stress(text[left..right])] else []
  }

  function Asked(text: string, ops: seq<Op>): seq<Request> {
    if ops == [] then [] else AskedBy(text, ops[0]) + Asked(text, ops[1..])
  }

  lemma {:induction false} AskedConcat(text: string, a: seq<Op>, b: seq<Op>)
    ensures Asked(text, a + b) == Asked(text, a) + Asked(text, b)
    decreases |a|
  {
    if a == [] {
      assert a + b == b;
    } else {
      assert (a + b)[1..] == a[1..] + b;
      AskedConcat(text, a[1..], b);
    }
  }

  /** More text after the controls changes nothing they stand for. */
  lemma {:induction false} AskedGrows(text: string, more: string, ops: seq<Op>)
    requires forall i :: 0 <= i < |ops| ==> Left(ops[i]) <= Right(ops[i]) <= |text|
    ensures Asked(text + more, ops) == Asked(text, ops)
    decreases |ops|
  {
    if ops != [] {
      AskedGrows(text, more, ops[1..]);
      if ops[0].Emphasis? { assert (text + more)[ops[0].left..ops[0].right] == text[ops[0].left..ops[0].right]; }
    }
  }

  /** Emphasis without tags, on the words it covers. */
  ghost predicate PlainOp(op: Op, source: string) {
    && !op.Tag?
    && (op.Emphasis? ==> op.left < op.right <= |source| && op.pieces == [Words(source[op.left..op.right])])
  }

  /** The controls gathered so far stand for `asked`. */
  ghost predicate Gathered(source: string, ops: seq<Op>, asked: seq<Request>) {
    Ordered(ops, |source|) && Asked(source, ops) == asked && forall i :: 0 <= i < |ops| ==> PlainOp(ops[i], source)
  }

  lemma AddPartShape(r: Reading, caps: Capabilities, b: Built, part: Part)
    requires AddPart(r, caps, b, part).Ok?
    ensures var u := AddPart(r, caps, b, part).value;
            u.source == b.source + TextOf(part) && u.ops == b.ops + OpsOf(|b.source|, part)
    ensures part.TextPart? ==> part.text != ""
  {
    assert b.source + "" == b.source && b.ops + [] == b.ops;
  }

  lemma PlainOpGrows(op: Op, source: string, more: string)
    requires PlainOp(op, source)
    ensures PlainOp(op, source + more)
  {
    if op.Emphasis? { assert (source + more)[op.left..op.right] == source[op.left..op.right]; }
  }

  lemma OrderedGrows(ops: seq<Op>, length: nat, part: Part)
    requires Ordered(ops, length) && (part.TextPart? ==> part.text != "")
    ensures Ordered(ops + OpsOf(length, part), length + |TextOf(part)|)
  {
  }

  lemma AddedOpHolds(source: string, part: Part)
    requires part.TextPart? ==> part.text != ""
    ensures var added, grown := OpsOf(|source|, part), source + TextOf(part);
            Asked(grown, added) == RequestOf(part) && forall i :: 0 <= i < |added| ==> PlainOp(added[i], grown)
  {
    var added, grown := OpsOf(|source|, part), source + TextOf(part);
    assert grown[|source|..|grown|] == TextOf(part);
    assert added != [] ==> added[1..] == [];
  }

  lemma OneMoreOp(source: string, ops: seq<Op>, asked: seq<Request>, part: Part)
    requires Gathered(source, ops, asked) && (part.TextPart? ==> part.text != "")
    ensures Gathered(source + TextOf(part), ops + OpsOf(|source|, part), asked + RequestOf(part))
  {
    var grown, added := source + TextOf(part), OpsOf(|source|, part);
    AskedGrows(source, TextOf(part), ops);
    AskedConcat(grown, ops, added);
    OrderedGrows(ops, |source|, part);
    AddedOpHolds(source, part);
    forall i | 0 <= i < |ops| ensures PlainOp(ops[i], grown) { PlainOpGrows(ops[i], source, TextOf(part)); }
    hide PlainOp, Ordered, Asked, OpsOf, RequestOf;
    forall i | 0 <= i < |ops + added| ensures PlainOp((ops + added)[i], grown) {
      if i >= |ops| { assert (ops + added)[i] == added[i - |ops|]; }
    }
  }

  lemma {:induction false} AddPartsGather(
      r: Reading, caps: Capabilities, b: Built, parts: seq<Part>, asked: seq<Request>)
    requires Gathered(b.source, b.ops, asked) && AddParts(r, caps, b, parts).Ok?
    ensures var u := AddParts(r, caps, b, parts).value;
            Gathered(u.source, u.ops, asked + Requests(parts)) && u.source == b.source + PlainText(parts)
    decreases |parts|
  {
    hide Gathered, RequestOf, TextOf;
    if parts == [] {
      assert asked + [] == asked && b.source + "" == b.source;
    } else {
      var u := AddPart(r, caps, b, parts[0]).value;
      AddPartShape(r, caps, b, parts[0]);
      OneMoreOp(b.source, b.ops, asked, parts[0]);
      AddPartsGather(r, caps, u, parts[1..], asked + RequestOf(parts[0]));
      Regroup(asked, RequestOf(parts[0]), Requests(parts[1..]));
      Regroup(b.source, TextOf(parts[0]), PlainText(parts[1..]));
    }
  }

  method BuildControls(r: Reading, caps: Capabilities, text: string, emotion: Option<string>, parts: seq<Part>)
      returns (built: Result<Built, Problem>)
    ensures built == Build(r, caps, text, emotion, parts)
  {
    if r.raw(text) { return Err(RawControl); }
    if emotion.Some? && emotion.value !in caps.emotions { return Err(UnsupportedEmotion); }
    if !(1 <= |parts| <= MAX_PARTS) { return Err(WrongPartCount); }
    var b, i := Begin(emotion), 0;
    assert parts[0..] == parts;
    while i < |parts|
      invariant 0 <= i <= |parts|
      invariant AddParts(r, caps, b, parts[i..]) == AddParts(r, caps, Begin(emotion), parts)
    {
      assert parts[i..][0] == parts[i] && parts[i..][1..] == parts[i + 1..];
      var next := AddPart(r, caps, b, parts[i]);
      if next.Err? { return Err(next.error); }
      b := next.value;
      i := i + 1;
    }
    if b.controls > MAX_CONTROLS { return Err(TooManyControls); }
    if b.source != text { return Err(NotTheText); }
    var k := 0;
    while k < |b.boundaries|
      invariant 0 <= k <= |b.boundaries|
      invariant forall i :: 0 <= i < k ==> !CutsWord(r, text, b.boundaries[i])
    {
      if CutsWord(r, text, b.boundaries[k]) { return Err(SplitsWord); }
      k := k + 1;
    }
    return Ok(b);
  }

  lemma NothingGathered()
    ensures Gathered("", [], [])
  {
  }

  /** A plan that is accepted spells out the plain text, and its controls are its requests, in order. */
  lemma {:induction false} BuiltIsThePlan(r: Reading, caps: Capabilities, text: string, emotion: Option<string>,
      parts: seq<Part>)
    requires Build(r, caps, text, emotion, parts).Ok?
    ensures text == PlainText(parts)
    ensures Gathered(text, Build(r, caps, text, emotion, parts).value.ops, Requests(parts))
  {
    hide Gathered, Requests, AddParts, PlainText;
    NothingGathered();
    AddPartsGather(r, caps, Begin(emotion), parts, []);
    assert "" + PlainText(parts) == PlainText(parts);
    assert [] + Requests(parts) == Requests(parts);
  }

  // ----- emotion tags at sentence starts

  function EmotionAt(changes: seq<Change>, offset: nat): Option<string> {
    if changes == [] then None
    else if changes[|changes| - 1].at <= offset then Some(changes[|changes| - 1].emotion)
    else EmotionAt(changes[..|changes| - 1], offset)
  }

  /** A change speaks at its first spoken character. */
  predicate Speaks(text: string, changes: seq<Change>, at: nat)
    requires at <= |text|
  {
    at < |text| && exists i :: 0 <= i < |changes| && changes[i].at <= |text| && P.SkipSpace(text, changes[i].at) == at
  }

  /** The tags the text is owed from `at` on, at the sentence starts and where changes speak. */
  function TagsFrom(text: string, starts: set<nat>, changes: seq<Change>, at: nat): seq<Op>
    requires at <= |text|
    decreases |text| - at
  {
    var emotion := EmotionAt(changes, at);
    var here := if (at in starts || Speaks(text, changes, at)) && emotion.Some? then [Tag(at, emotion.value)] else [];
    if at == |text| then here else here + TagsFrom(text, starts, changes, at + 1)
  }

  predicate Inside(op: Op, tag: Op) { op.Emphasis? && op.left < Left(tag) < op.right }

  function InteriorOf(op: Op, tags: seq<Op>): seq<Op> {
    if tags == [] then []
    else (if Inside(op, tags[0]) then [tags[0]] else []) + InteriorOf(op, tags[1..])
  }

  /** Emphasised text cut where tags fall inside it. */
  function Pieced(text: string, cursor: nat, right: nat, interior: seq<Op>): seq<Piece>
    requires cursor <= right <= |text|
    decreases |interior|
  {
    if interior == [] || !interior[0].Tag? || !(cursor < interior[0].at < right) then [Words(text[cursor..right])]
    else
      [Words(StripRight(text[cursor..interior[0].at])), Mark(interior[0].emotion)]
      + Pieced(text, interior[0].at, right, interior[1..])
  }

  function WithTags(text: string, op: Op, tags: seq<Op>): Op {
    if op.Emphasis? && op.left <= op.right <= |text| && InteriorOf(op, tags) != []
    then op.(pieces := Pieced(text, op.left, op.right, InteriorOf(op, tags)))
    else op
  }

  function AllWithTags(text: string, ops: seq<Op>, tags: seq<Op>): seq<Op> {
    seq(|ops|, i requires 0 <= i < |ops| => WithTags(text, ops[i], tags))
  }

  function Outside(ops: seq<Op>, tags: seq<Op>): seq<Op> {
    if tags == [] then []
    else (if exists i :: 0 <= i < |ops| && Inside(ops[i], tags[0]) then [] else [tags[0]]) + Outside(ops, tags[1..])
  }

  function Rank(op: Op): nat { match op case Event(_, _) => 0 case Tag(_, _) => 1 case Emphasis(_, _, _) => 2 }

  predicate NotAfter(a: Op, b: Op) { Left(a) < Left(b) || (Left(a) == Left(b) && Rank(a) <= Rank(b)) }

  /** A stable sort: each control goes after all those that do not come after it. */
  function Insert(sorted: seq<Op>, op: Op): seq<Op> {
    if sorted == [] then [op]
    else if NotAfter(sorted[|sorted| - 1], op) then sorted + [op]
    else Insert(sorted[..|sorted| - 1], op) + [sorted[|sorted| - 1]]
  }

  function InsertAll(sorted: seq<Op>, ops: seq<Op>): seq<Op>
    decreases |ops|
  {
    if ops == [] then sorted else InsertAll(Insert(sorted, ops[0]), ops[1..])
  }

  function SentenceEmotions(text: string, starts: set<nat>, ops: seq<Op>, changes: seq<Change>): seq<Op> {
    if changes == [] then ops
    else
      var tags := TagsFrom(text, starts, changes, 0);
      InsertAll([], AllWithTags(text, ops, tags) + Outside(ops, tags))
  }

  // ----- tags keep what was asked

  /** The words of an emphasis, tags left out. */
  function WordsOf(pieces: seq<Piece>): string {
    if pieces == [] then "" else (if pieces[0].Words? then pieces[0].text else "") + WordsOf(pieces[1..])
  }

  lemma StripRightKeepsSpoken(s: string)
    ensures Spoken(StripRight(s)) == Spoken(s)
  {
    var n := StripRightShape(s);
    BlankIsSilent(s[n..]);
    SpokenConcat(s[..n], s[n..]);
    assert s[..n] + s[n..] == s;
  }

  lemma WordsFirst(first: Piece, rest: seq<Piece>)
    ensures WordsOf([first] + rest) == if first.Words? then first.text + WordsOf(rest) else WordsOf(rest)
  {
    assert ([first] + rest)[1..] == rest && "" + WordsOf(rest) == WordsOf(rest);
  }

  lemma TwoPieces(head: string, emotion: string, rest: seq<Piece>)
    ensures WordsOf([Words(head), Mark(emotion)] + rest) == head + WordsOf(rest)
  {
    WordsFirst(Mark(emotion), rest);
    WordsFirst(Words(head), [Mark(emotion)] + rest);
    assert [Words(head), Mark(emotion)] + rest == [Words(head)] + ([Mark(emotion)] + rest);
  }

  lemma {:induction false} SpokenAlike(a: string, b: string, x: string, y: string)
    requires Spoken(a) == Spoken(x) && Spoken(b) == Spoken(y)
    ensures Spoken(a + b) == Spoken(x + y)
  {
    SpokenConcat(a, b);
    SpokenConcat(x, y);
  }

  lemma {:induction false} PiecesSpeak(text: string, cursor: nat, right: nat, interior: seq<Op>)
    requires cursor <= right <= |text|
    ensures Spoken(WordsOf(Pieced(text, cursor, right, interior))) == Spoken(text[cursor..right])
    decreases |interior|
  {
    hide Spoken, StripRight;
    if interior == [] || !interior[0].Tag? || !(cursor < interior[0].at < right) {
      WordsFirst(Words(text[cursor..right]), []);
      assert text[cursor..right] + "" == text[cursor..right];
    } else {
      var at := interior[0].at;
      var rest := Pieced(text, at, right, interior[1..]);
      PiecesSpeak(text, at, right, interior[1..]);
      TwoPieces(StripRight(text[cursor..at]), interior[0].emotion, rest);
      StripRightKeepsSpoken(text[cursor..at]);
      SpokenAlike(StripRight(text[cursor..at]), WordsOf(rest), text[cursor..at], text[at..right]);
      assert text[cursor..at] + text[at..right] == text[cursor..right];
    }
  }

  /** An emphasis speaks the words it covers. */
  ghost predicate Faithful(text: string, op: Op) {
    op.Emphasis? ==> op.left < op.right <= |text| && Spoken(WordsOf(op.pieces)) == Spoken(text[op.left..op.right])
  }

  lemma WithTagsHolds(text: string, op: Op, tags: seq<Op>)
    requires PlainOp(op, text)
    ensures var u := WithTags(text, op, tags);
            && Left(u) == Left(op) && Right(u) == Right(op) && Rank(u) == Rank(op)
            && AskedBy(text, u) == AskedBy(text, op) && Faithful(text, u)
  {
    if op.Emphasis? {
      PiecesSpeak(text, op.left, op.right, InteriorOf(op, tags));
      assert op.pieces[1..] == [] && WordsOf(op.pieces) == text[op.left..op.right] + "";
      assert text[op.left..op.right] + "" == text[op.left..op.right];
    }
  }

  lemma {:induction false} AskedSame(text: string, a: seq<Op>, b: seq<Op>)
    requires |a| == |b| && forall i :: 0 <= i < |a| ==> AskedBy(text, a[i]) == AskedBy(text, b[i])
    ensures Asked(text, a) == Asked(text, b)
    decreases |a|
  {
    if a != [] { AskedSame(text, a[1..], b[1..]); }
  }

  predicate SamePlace(a: Op, b: Op) { Left(a) == Left(b) && Right(a) == Right(b) && Rank(a) == Rank(b) }

  lemma AllWithTagsHold(text: string, ops: seq<Op>, tags: seq<Op>)
    requires Ordered(ops, |text|) && forall i :: 0 <= i < |ops| ==> PlainOp(ops[i], text)
    ensures var all := AllWithTags(text, ops, tags);
            && Ordered(all, |text|) && Asked(text, all) == Asked(text, ops)
            && (forall i :: 0 <= i < |all| ==> Faithful(text, all[i]) && SamePlace(all[i], ops[i]))
  {
    var all := AllWithTags(text, ops, tags);
    forall i | 0 <= i < |all|
      ensures AskedBy(text, all[i]) == AskedBy(text, ops[i]) && Faithful(text, all[i])
      ensures Left(all[i]) == Left(ops[i]) && Right(all[i]) == Right(ops[i]) && Rank(all[i]) == Rank(ops[i])
    {
      WithTagsHolds(text, ops[i], tags);
    }
    AskedSame(text, all, ops);
  }

  lemma {:induction false} InsertPlace(sorted: seq<Op>, op: Op) returns (k: nat)
    ensures k <= |sorted| && Insert(sorted, op) == sorted[..k] + [op] + sorted[k..]
    ensures k > 0 ==> NotAfter(sorted[k - 1], op)
    ensures forall i :: k <= i < |sorted| ==> !NotAfter(sorted[i], op)
    decreases |sorted|
  {
    if sorted == [] || NotAfter(sorted[|sorted| - 1], op) {
      k := |sorted|;
    } else {
      var rest := sorted[..|sorted| - 1];
      k := InsertPlace(rest, op);
      assert sorted == rest + [sorted[|sorted| - 1]];
      assert sorted[k..] == rest[k..] + [sorted[|sorted| - 1]];
    }
  }

  /** Controls that are in order already stay as they are. */
  lemma {:induction false} InsertOrdered(done: seq<Op>, ops: seq<Op>, length: nat)
    requires Ordered(done + ops, length) && forall i :: 0 <= i < |done + ops| ==> !(done + ops)[i].Tag?
    ensures InsertAll(done, ops) == done + ops
    decreases |ops|
  {
    if ops == [] {
      assert done + [] == done;
    } else {
      var all := done + ops;
      assert all[|done|] == ops[0];
      if done != [] {
        assert all[|done| - 1] == done[|done| - 1];
        assert Right(all[|done| - 1]) <= Left(all[|done|]);
      }
      assert Insert(done, ops[0]) == done + [ops[0]];
      assert (done + [ops[0]]) + ops[1..] == all;
      InsertOrdered(done + [ops[0]], ops[1..], length);
    }
  }

  /** No emphasis of `ops` has the tag inside. */
  ghost predicate Clear(ops: seq<Op>, tag: Op) { forall i :: 0 <= i < |ops| ==> !Inside(ops[i], tag) }

  ghost predicate Settled(text: string, ops: seq<Op>, asked: seq<Request>) {
    Ordered(ops, |text|) && Asked(text, ops) == asked && AllFaithful(text, ops)
  }

  ghost predicate AllFaithful(text: string, ops: seq<Op>) { forall i :: 0 <= i < |ops| ==> Faithful(text, ops[i]) }

  lemma FaithfulInsert(text: string, ops: seq<Op>, tag: Op, k: nat)
    requires AllFaithful(text, ops) && tag.Tag? && k <= |ops|
    ensures AllFaithful(text, ops[..k] + [tag] + ops[k..])
  {
    var all := ops[..k] + [tag] + ops[k..];
    forall i | 0 <= i < |all| ensures Faithful(text, all[i]) {
      if i != k { assert all[i] == ops[if i < k then i else i - 1]; }
    }
  }

  lemma ClearInsert(ops: seq<Op>, tag: Op, other: Op)
    requires tag.Tag? && Clear(ops, other)
    ensures Clear(Insert(ops, tag), other)
  {
    var k := InsertPlace(ops, tag);
    var all := ops[..k] + [tag] + ops[k..];
    forall i | 0 <= i < |all| ensures !Inside(all[i], other) {
      if i != k { assert all[i] == ops[if i < k then i else i - 1]; }
    }
  }

  /** The tag stands after all that ends before it and before all that begins after it. */
  lemma TagFits(ops: seq<Op>, length: nat, tag: Op, k: nat)
    requires Ordered(ops, length) && tag.Tag? && Clear(ops, tag) && k <= |ops|
    requires k > 0 ==> NotAfter(ops[k - 1], tag)
    requires forall i :: k <= i < |ops| ==> !NotAfter(ops[i], tag)
    ensures forall i :: 0 <= i < k ==> Right(ops[i]) <= tag.at
    ensures forall i :: k <= i < |ops| ==> tag.at <= Left(ops[i])
  {
    if k > 0 {
      assert !Inside(ops[k - 1], tag);
      assert Right(ops[k - 1]) <= tag.at;
      forall i | 0 <= i < k ensures Right(ops[i]) <= tag.at {
        if i < k - 1 { assert Right(ops[i]) <= Left(ops[k - 1]) <= Right(ops[k - 1]); }
      }
    }
  }

  lemma OrderedInsert(ops: seq<Op>, length: nat, tag: Op, k: nat)
    requires Ordered(ops, length) && tag.Tag? && tag.at <= length && k <= |ops|
    requires forall i :: 0 <= i < k ==> Right(ops[i]) <= tag.at
    requires forall i :: k <= i < |ops| ==> tag.at <= Left(ops[i])
    ensures Ordered(ops[..k] + [tag] + ops[k..], length)
  {
    var all := ops[..k] + [tag] + ops[k..];
    assert forall i :: 0 <= i < k ==> all[i] == ops[i];
    assert all[k] == tag;
    assert forall i :: k < i < |all| ==> all[i] == ops[i - 1];
  }

  lemma TagAsksNothing(text: string, tag: Op)
    requires tag.Tag?
    ensures Asked(text, [tag]) == []
  {
    assert [tag][1..] == [];
  }

  lemma AskedAround(text: string, before: seq<Op>, tag: Op, after: seq<Op>)
    requires tag.Tag?
    ensures Asked(text, before + [tag] + after) == Asked(text, before) + Asked(text, after)
  {
    hide Asked;
    AskedConcat(text, before + [tag], after);
    AskedConcat(text, before, [tag]);
    TagAsksNothing(text, tag);
    assert Asked(text, before) + [] == Asked(text, before);
  }

  lemma AskedInsert(text: string, ops: seq<Op>, tag: Op, k: nat)
    requires tag.Tag? && k <= |ops|
    ensures Asked(text, ops[..k] + [tag] + ops[k..]) == Asked(text, ops)
  {
    hide Asked;
    AskedAround(text, ops[..k], tag, ops[k..]);
    AskedConcat(text, ops[..k], ops[k..]);
    assert ops[..k] + ops[k..] == ops;
  }

  lemma InsertTag(text: string, ops: seq<Op>, asked: seq<Request>, tag: Op)
    requires Settled(text, ops, asked) && tag.Tag? && tag.at <= |text| && Clear(ops, tag)
    ensures Settled(text, Insert(ops, tag), asked)
  {
    var k := InsertPlace(ops, tag);
    TagFits(ops, |text|, tag, k);
    OrderedInsert(ops, |text|, tag, k);
    AskedInsert(text, ops, tag, k);
    FaithfulInsert(text, ops, tag, k);
  }

  lemma {:induction false} InsertTags(text: string, ops: seq<Op>, asked: seq<Request>, tags: seq<Op>)
    requires Settled(text, ops, asked)
    requires forall k :: 0 <= k < |tags| ==> tags[k].Tag? && tags[k].at <= |text| && Clear(ops, tags[k])
    ensures Settled(text, InsertAll(ops, tags), asked)
    decreases |tags|
  {
    hide Settled;
    if tags != [] {
      InsertTag(text, ops, asked, tags[0]);
      forall k | 0 < k < |tags| ensures Clear(Insert(ops, tags[0]), tags[k]) { ClearInsert(ops, tags[0], tags[k]); }
      InsertTags(text, Insert(ops, tags[0]), asked, tags[1..]);
    }
  }

  lemma {:induction false} TagsAreTags(text: string, starts: set<nat>, changes: seq<Change>, at: nat)
    requires at <= |text|
    ensures forall k :: 0 <= k < |TagsFrom(text, starts, changes, at)| ==>
              var tag := TagsFrom(text, starts, changes, at)[k]; tag.Tag? && tag.at <= |text|
    decreases |text| - at
  {
    if at < |text| { TagsAreTags(text, starts, changes, at + 1); }
  }

  lemma {:induction false} OutsideIsClear(ops: seq<Op>, tags: seq<Op>, length: nat)
    requires forall k :: 0 <= k < |tags| ==> tags[k].Tag? && tags[k].at <= length
    ensures forall k :: 0 <= k < |Outside(ops, tags)| ==>
              var tag := Outside(ops, tags)[k]; tag.Tag? && tag.at <= length && Clear(ops, tag)
    decreases |tags|
  {
    if tags != [] { OutsideIsClear(ops, tags[1..], length); }
  }

  lemma {:induction false} InsertAllConcat(sorted: seq<Op>, a: seq<Op>, b: seq<Op>)
    ensures InsertAll(sorted, a + b) == InsertAll(InsertAll(sorted, a), b)
    decreases |a|
  {
    if a == [] {
      assert a + b == b;
    } else {
      assert (a + b)[1..] == a[1..] + b && (a + b)[0] == a[0];
      InsertAllConcat(Insert(sorted, a[0]), a[1..], b);
    }
  }

  lemma WithTagsSettle(text: string, ops: seq<Op>, tags: seq<Op>, asked: seq<Request>)
    requires Gathered(text, ops, asked)
    ensures Settled(text, AllWithTags(text, ops, tags), asked)
  {
    AllWithTagsHold(text, ops, tags);
  }

  lemma WithTagsStayOrdered(text: string, ops: seq<Op>, tags: seq<Op>, asked: seq<Request>)
    requires Gathered(text, ops, asked)
    ensures InsertAll([], AllWithTags(text, ops, tags)) == AllWithTags(text, ops, tags)
  {
    var all := AllWithTags(text, ops, tags);
    AllWithTagsHold(text, ops, tags);
    forall i | 0 <= i < |all| ensures !all[i].Tag? { assert SamePlace(all[i], ops[i]) && PlainOp(ops[i], text); }
    hide AllWithTags, Asked, Faithful, Ordered, Gathered;
    SortedStays(all, |text|);
  }

  lemma SortedStays(ops: seq<Op>, length: nat)
    requires Ordered(ops, length) && forall i :: 0 <= i < |ops| ==> !ops[i].Tag?
    ensures InsertAll([], ops) == ops
  {
    assert [] + ops == ops;
    InsertOrdered([], ops, length);
  }

  lemma WithTagsStayClear(text: string, ops: seq<Op>, tags: seq<Op>, asked: seq<Request>, tag: Op)
    requires Gathered(text, ops, asked) && Clear(ops, tag)
    ensures Clear(AllWithTags(text, ops, tags), tag)
  {
    var all := AllWithTags(text, ops, tags);
    forall i | 0 <= i < |all| ensures !Inside(all[i], tag) {
      WithTagsHolds(text, ops[i], tags);
      assert !Inside(ops[i], tag);
    }
  }

  lemma NoTagsNeeded(text: string, ops: seq<Op>, asked: seq<Request>)
    requires Gathered(text, ops, asked)
    ensures Settled(text, ops, asked)
  {
    forall i | 0 <= i < |ops| ensures Faithful(text, ops[i]) { WithTagsHolds(text, ops[i], []); }
  }

  /** Placing the tags moves no event or emphasis and changes no spoken word of it. */
  lemma TagsKeepThePlan(text: string, starts: set<nat>, ops: seq<Op>, changes: seq<Change>, asked: seq<Request>)
    requires Gathered(text, ops, asked)
    ensures Settled(text, SentenceEmotions(text, starts, ops, changes), asked)
  {
    if changes == [] {
      NoTagsNeeded(text, ops, asked);
    } else {
      var tags := TagsFrom(text, starts, changes, 0);
      var all, outside := AllWithTags(text, ops, tags), Outside(ops, tags);
      WithTagsSettle(text, ops, tags, asked);
      WithTagsStayOrdered(text, ops, tags, asked);
      TagsAreTags(text, starts, changes, 0);
      OutsideIsClear(ops, tags, |text|);
      forall k | 0 <= k < |outside| ensures Clear(all, outside[k]) {
        WithTagsStayClear(text, ops, tags, asked, outside[k]);
      }
      hide Gathered, Settled, Clear, AllWithTags, Outside;
      InsertAllConcat([], all, outside);
      InsertTags(text, all, asked, outside);
    }
  }
}
