/** Where the emotion tags of an expression plan end up (`_sentence_emotions` and `_emotion_at` in
    services/tts/src/openclaw_local_tts/expression.py). */
module TagPlacement {
  import opened Wrappers
  import opened SpeechText
  import opened SpeechExpression

  // ----- which tags are owed

  ghost predicate InForce(changes: seq<Change>, offset: nat, i: nat) {
    i < |changes| && changes[i].at <= offset && forall j :: i < j < |changes| ==> changes[j].at > offset
  }

  /** The emotion of the last change that begins at the offset or before it, and none before the first. */
  lemma {:induction false} EmotionIsLatest(changes: seq<Change>, offset: nat)
    ensures EmotionAt(changes, offset).None? <==> forall i :: 0 <= i < |changes| ==> changes[i].at > offset
    ensures forall i: nat :: InForce(changes, offset, i) ==> EmotionAt(changes, offset) == Some(changes[i].emotion)
    decreases |changes|
  {
    if changes != [] && changes[|changes| - 1].at > offset {
      var before := changes[..|changes| - 1];
      EmotionIsLatest(before, offset);
      forall i: nat | InForce(changes, offset, i) ensures InForce(before, offset, i) && before[i] == changes[i] {
      }
    }
  }

  ghost predicate Owed(text: string, starts: set<nat>, changes: seq<Change>, op: Op) {
    && op.Tag? && op.at <= |text| && (op.at in starts || Speaks(text, changes, op.at))
    && EmotionAt(changes, op.at) == Some(op.emotion)
  }

  ghost predicate Rising(tags: seq<Op>) {
    && (forall i :: 0 <= i < |tags| ==> tags[i].Tag?)
    && (forall i, j :: 0 <= i < j < |tags| ==> Left(tags[i]) < Left(tags[j]))
  }

  /** One tag for each sentence start and each place a change speaks that has an emotion in force. */
  lemma {:induction false} TagsAreOwed(text: string, starts: set<nat>, changes: seq<Change>, at: nat)
    requires at <= |text|
    ensures Rising(TagsFrom(text, starts, changes, at))
    ensures forall op :: op in TagsFrom(text, starts, changes, at) <==> Owed(text, starts, changes, op) && at <= op.at
    decreases |text| - at
  {
    hide EmotionAt, Speaks;
    if at < |text| { TagsAreOwed(text, starts, changes, at + 1); }
  }

  // ----- the tags a control carries

  function HostedBy(op: Op, tags: seq<Op>): seq<Op> {
    match op
    case Event(_, _) => []
    case Tag(_, _) => [op]
    case Emphasis(_, _, _) => InteriorOf(op, tags)
  }

  /** The tags the controls carry, in their order: on their own, or inside an emphasis. */
  function Hosted(ops: seq<Op>, tags: seq<Op>): seq<Op> {
    if ops == [] then [] else HostedBy(ops[0], tags) + Hosted(ops[1..], tags)
  }

  lemma {:induction false} HostedConcat(a: seq<Op>, b: seq<Op>, tags: seq<Op>)
    ensures Hosted(a + b, tags) == Hosted(a, tags) + Hosted(b, tags)
    decreases |a|
  {
    if a == [] {
      assert a + b == b;
    } else {
      assert (a + b)[1..] == a[1..] + b;
      HostedConcat(a[1..], b, tags);
    }
  }

  lemma {:induction false} HostedInsert(ops: seq<Op>, op: Op, tags: seq<Op>)
    ensures multiset(Hosted(Insert(ops, op), tags)) == multiset(Hosted(ops, tags)) + multiset(HostedBy(op, tags))
  {
    hide Insert, HostedBy, NotAfter;
    var k := InsertPlace(ops, op);
    assert [op][1..] == [] && Hosted([op], tags) == HostedBy(op, tags);
    hide Hosted;
    HostedConcat(ops[..k] + [op], ops[k..], tags);
    HostedConcat(ops[..k], [op], tags);
    HostedConcat(ops[..k], ops[k..], tags);
    assert ops[..k] + ops[k..] == ops;
    CountedAround(Hosted(ops[..k], tags), HostedBy(op, tags), Hosted(ops[k..], tags));
  }

  lemma CountedAround(a: seq<Op>, b: seq<Op>, c: seq<Op>)
    ensures multiset(a + b + c) == multiset(a + c) + multiset(b)
  {
  }

  lemma {:induction false} HostedInsertAll(sorted: seq<Op>, ops: seq<Op>, tags: seq<Op>)
    ensures multiset(Hosted(InsertAll(sorted, ops), tags)) ==
            multiset(Hosted(sorted, tags)) + multiset(Hosted(ops, tags))
    decreases |ops|
  {
    hide HostedBy;
    if ops != [] {
      HostedInsert(sorted, ops[0], tags);
      HostedInsertAll(Insert(sorted, ops[0]), ops[1..], tags);
    }
  }

  lemma {:induction false} SameInterior(a: Op, b: Op, tags: seq<Op>)
    requires a.Emphasis? && b.Emphasis? && a.left == b.left && a.right == b.right
    ensures InteriorOf(a, tags) == InteriorOf(b, tags)
    decreases |tags|
  {
    if tags != [] { SameInterior(a, b, tags[1..]); }
  }

  lemma {:induction false} HostedWithTags(text: string, ops: seq<Op>, tags: seq<Op>)
    ensures Hosted(AllWithTags(text, ops, tags), tags) == Hosted(ops, tags)
    decreases |ops|
  {
    if ops != [] {
      var all := AllWithTags(text, ops, tags);
      assert all[1..] == AllWithTags(text, ops[1..], tags);
      if ops[0].Emphasis? { SameInterior(all[0], ops[0], tags); }
      HostedWithTags(text, ops[1..], tags);
    }
  }

  lemma {:induction false} TagsHostThemselves(some: seq<Op>, tags: seq<Op>)
    requires forall i :: 0 <= i < |some| ==> some[i].Tag?
    ensures Hosted(some, tags) == some
    decreases |some|
  {
    if some != [] { TagsHostThemselves(some[1..], tags); }
  }

  // ----- every tag has one place

  ghost predicate Surrounded(ops: seq<Op>, tag: Op) { exists i :: 0 <= i < |ops| && Inside(ops[i], tag) }

  lemma SurroundedFirst(ops: seq<Op>, length: nat, tag: Op)
    requires ops != [] && Ordered(ops, length)
    ensures Surrounded(ops, tag) <==> Inside(ops[0], tag) || Surrounded(ops[1..], tag)
    ensures !(Inside(ops[0], tag) && Surrounded(ops[1..], tag))
    ensures Ordered(ops[1..], length)
  {
    if Surrounded(ops, tag) {
      var i :| 0 <= i < |ops| && Inside(ops[i], tag);
      if i > 0 { assert Inside(ops[1..][i - 1], tag); }
    }
    if Surrounded(ops[1..], tag) {
      var i :| 0 <= i < |ops[1..]| && Inside(ops[1..][i], tag);
      assert Inside(ops[i + 1], tag) && Right(ops[0]) <= Left(ops[i + 1]);
    }
  }

  ghost predicate NoTag(ops: seq<Op>) { forall i :: 0 <= i < |ops| ==> !ops[i].Tag? }

  /** A tag is inside at most one control. */
  lemma {:induction false} OneHost(ops: seq<Op>, length: nat, tags: seq<Op>)
    requires Ordered(ops, length) && NoTag(ops) && tags != []
    ensures multiset(Hosted(ops, tags)) ==
            multiset(Hosted(ops, tags[1..])) + (if Surrounded(ops, tags[0]) then multiset{tags[0]} else multiset{})
    decreases |ops|
  {
    if ops != [] {
      SurroundedFirst(ops, length, tags[0]);
      OneHost(ops[1..], length, tags);
      var first := if Inside(ops[0], tags[0]) then [tags[0]] else [];
      assert HostedBy(ops[0], tags) == first + HostedBy(ops[0], tags[1..]);
      hide Ordered, NoTag, HostedBy, Surrounded, Inside;
      assert Hosted(ops, tags) == first + HostedBy(ops[0], tags[1..]) + Hosted(ops[1..], tags);
    }
  }

  lemma OutsideFirst(ops: seq<Op>, tags: seq<Op>)
    requires tags != []
    ensures multiset(Outside(ops, tags)) ==
            multiset(Outside(ops, tags[1..])) + (if Surrounded(ops, tags[0]) then multiset{} else multiset{tags[0]})
  {
    hide Inside;
    assert Surrounded(ops, tags[0]) ==> Outside(ops, tags) == [] + Outside(ops, tags[1..]);
  }

  lemma {:induction false} InsideOrOutside(ops: seq<Op>, length: nat, tags: seq<Op>)
    requires Ordered(ops, length) && NoTag(ops)
    ensures multiset(Hosted(ops, tags)) + multiset(Outside(ops, tags)) == multiset(tags)
    decreases |tags|
  {
    hide Hosted, Ordered, NoTag, Inside;
    if tags == [] {
      NoneHosted(ops);
    } else {
      OneHost(ops, length, tags);
      InsideOrOutside(ops, length, tags[1..]);
      OutsideFirst(ops, tags);
      CountedAfter(tags);
    }
  }

  lemma {:induction false} NoneHosted(ops: seq<Op>)
    requires NoTag(ops)
    ensures Hosted(ops, []) == []
    decreases |ops|
  {
    if ops != [] { NoneHosted(ops[1..]); }
  }

  ghost predicate Leftmost(tags: seq<Op>, from: nat, to: nat) {
    && (forall i :: 0 <= i < |tags| ==> from <= Left(tags[i]) <= to)
    && (forall i, j :: 0 <= i < j < |tags| ==> Left(tags[i]) <= Left(tags[j]))
  }

  lemma {:induction false} InteriorRises(op: Op, tags: seq<Op>)
    requires op.Emphasis? && op.left <= op.right && Rising(tags)
    ensures Rising(InteriorOf(op, tags)) && Leftmost(InteriorOf(op, tags), op.left, op.right)
    ensures forall tag :: tag in InteriorOf(op, tags) <==> tag in tags && Inside(op, tag)
    decreases |tags|
  {
    if tags != [] {
      InteriorRises(op, tags[1..]);
      assert tags == [tags[0]] + tags[1..];
      var rest := InteriorOf(op, tags[1..]);
      forall i | 0 <= i < |rest| ensures Left(tags[0]) < Left(rest[i]) { assert rest[i] in rest; }
    }
  }

  lemma {:induction false} HostedRises(ops: seq<Op>, length: nat, tags: seq<Op>, from: nat)
    requires Ordered(ops, length) && Rising(tags) && (ops != [] ==> from <= Left(ops[0]))
    ensures Leftmost(Hosted(ops, tags), from, length)
    decreases |ops|
  {
    if ops != [] {
      var op := ops[0];
      assert Right(op) <= length;
      HostedRises(ops[1..], length, tags, Right(op));
      if op.Emphasis? { InteriorRises(op, tags); }
      assert Leftmost(HostedBy(op, tags), Left(op), Right(op));
    }
  }

  lemma SameFirst(some: seq<Op>, tags: seq<Op>, from: nat, to: nat)
    requires Leftmost(some, from, to) && Rising(tags) && multiset(some) == multiset(tags) && tags != []
    ensures some != [] && some[0] == tags[0]
  {
    assert tags[0] in multiset(some);
    var j :| 0 <= j < |some| && some[j] == tags[0];
    assert some[0] in multiset(tags);
    var i :| 0 <= i < |tags| && tags[i] == some[0];
  }

  lemma CountedAfter(s: seq<Op>)
    requires s != []
    ensures multiset(s) == multiset{s[0]} + multiset(s[1..])
    ensures multiset(s[1..]) == multiset(s) - multiset{s[0]}
  {
    assert s == [s[0]] + s[1..];
  }

  /** Sequences with the same elements in rising order are the same. */
  lemma {:induction false} RisingIsUnique(some: seq<Op>, tags: seq<Op>, from: nat, to: nat)
    requires Leftmost(some, from, to) && Rising(tags) && multiset(some) == multiset(tags)
    ensures some == tags
    decreases |tags|
  {
    if tags == [] {
      assert |multiset(some)| == 0;
    } else {
      SameFirst(some, tags, from, to);
      CountedAfter(some);
      CountedAfter(tags);
      assert Leftmost(some[1..], from, to) && Rising(tags[1..]);
      hide Leftmost, Rising;
      RisingIsUnique(some[1..], tags[1..], from, to);
      assert some == [some[0]] + some[1..] && tags == [tags[0]] + tags[1..];
    }
  }

  // ----- where an emphasis is cut

  /** The pieces are the words of the emphasis with one mark at the place of each tag. */
  ghost predicate CutAt(text: string, left: nat, pieces: seq<Piece>, interior: seq<Op>) {
    && |pieces| == 2 * |interior| + 1 && pieces[|pieces| - 1].Words?
    && forall k :: 0 <= k < |interior| ==> MarkedAt(text, left, pieces, 2 * k + 1, interior[k])
  }

  ghost predicate MarkedAt(text: string, left: nat, pieces: seq<Piece>, n: nat, tag: Op) {
    && 1 <= n < |pieces| && tag.Tag? && left <= tag.at <= |text|
    && pieces[n] == Mark(tag.emotion) && pieces[n - 1].Words?
    && Spoken(WordsOf(pieces[..n])) == Spoken(text[left..tag.at])
  }

  lemma MarkMoves(text: string, left: nat, head: string, tag: Op, pieces: seq<Piece>, n: nat, later: Op)
    requires tag.Tag? && left <= tag.at <= |text| && Spoken(head) == Spoken(text[left..tag.at])
    requires MarkedAt(text, tag.at, pieces, n, later)
    ensures MarkedAt(text, left, [Words(head), Mark(tag.emotion)] + pieces, n + 2, later)
  {
    var all := [Words(head), Mark(tag.emotion)] + pieces;
    hide Spoken, WordsOf;
    assert all[..n + 2] == [Words(head), Mark(tag.emotion)] + pieces[..n];
    TwoPieces(head, tag.emotion, pieces[..n]);
    SpokenAlike(head, WordsOf(pieces[..n]), text[left..tag.at], text[tag.at..later.at]);
    assert text[left..tag.at] + text[tag.at..later.at] == text[left..later.at];
  }

  lemma {:induction false} FirstMark(text: string, left: nat, head: string, tag: Op, pieces: seq<Piece>)
    requires tag.Tag? && left <= tag.at <= |text| && Spoken(head) == Spoken(text[left..tag.at])
    ensures MarkedAt(text, left, [Words(head), Mark(tag.emotion)] + pieces, 1, tag)
  {
    var all := [Words(head), Mark(tag.emotion)] + pieces;
    assert all[..1] == [Words(head)] && [Words(head)][1..] == [] && head + "" == head;
  }

  lemma {:induction false} PiecesAreMarked(text: string, cursor: nat, right: nat, interior: seq<Op>)
    requires cursor <= right <= |text| && Rising(interior)
    requires forall k :: 0 <= k < |interior| ==> cursor < Left(interior[k]) < right
    ensures CutAt(text, cursor, Pieced(text, cursor, right, interior), interior)
    decreases |interior|
  {
    hide MarkedAt, StripRight;
    if interior != [] {
      var at := interior[0].at;
      var head := StripRight(text[cursor..at]);
      var rest := Pieced(text, at, right, interior[1..]);
      PiecesAreMarked(text, at, right, interior[1..]);
      StripRightKeepsSpoken(text[cursor..at]);
      FirstMark(text, cursor, head, interior[0], rest);
      forall k | 0 < k < |interior|
        ensures MarkedAt(text, cursor, Pieced(text, cursor, right, interior), 2 * k + 1, interior[k])
      {
        assert MarkedAt(text, at, rest, 2 * (k - 1) + 1, interior[1..][k - 1]);
        MarkMoves(text, cursor, head, interior[0], rest, 2 * (k - 1) + 1, interior[k]);
      }
    }
  }

  ghost predicate Marked(text: string, op: Op, tags: seq<Op>) {
    op.Emphasis? ==> CutAt(text, op.left, op.pieces, InteriorOf(op, tags))
  }

  lemma WithTagsIsMarked(text: string, op: Op, tags: seq<Op>)
    requires PlainOp(op, text) && Rising(tags)
    ensures Marked(text, WithTags(text, op, tags), tags)
  {
    if op.Emphasis? {
      InteriorRises(op, tags);
      var interior := InteriorOf(op, tags);
      forall k | 0 <= k < |interior| ensures op.left < Left(interior[k]) < op.right {
        assert interior[k] in interior;
      }
      PiecesAreMarked(text, op.left, op.right, interior);
      SameInterior(op, WithTags(text, op, tags), tags);
    }
  }

  ghost predicate AllMarked(text: string, ops: seq<Op>, tags: seq<Op>) {
    forall i :: 0 <= i < |ops| ==> Marked(text, ops[i], tags)
  }

  lemma {:induction false} InsertAllMarks(text: string, sorted: seq<Op>, ops: seq<Op>, tags: seq<Op>)
    requires AllMarked(text, sorted, tags) && AllMarked(text, ops, tags)
    ensures AllMarked(text, InsertAll(sorted, ops), tags)
    decreases |ops|
  {
    hide Marked;
    if ops != [] {
      var k := InsertPlace(sorted, ops[0]);
      InsertAllMarks(text, Insert(sorted, ops[0]), ops[1..], tags);
    }
  }

  lemma WithTagsAreMarked(text: string, ops: seq<Op>, tags: seq<Op>, asked: seq<Request>)
    requires Gathered(text, ops, asked) && Rising(tags)
    ensures AllMarked(text, AllWithTags(text, ops, tags), tags)
  {
    hide Ordered, Asked, Rising, Marked;
    forall i | 0 <= i < |ops| ensures Marked(text, WithTags(text, ops[i], tags), tags) {
      WithTagsIsMarked(text, ops[i], tags);
    }
  }

  /** At one place events come first, then tags, then an emphasis. */
  ghost predicate Sorted(ops: seq<Op>) { forall i, j :: 0 <= i < j < |ops| ==> NotAfter(ops[i], ops[j]) }

  lemma {:induction false} InsertAllSorts(sorted: seq<Op>, ops: seq<Op>)
    requires Sorted(sorted)
    ensures Sorted(InsertAll(sorted, ops))
    decreases |ops|
  {
    if ops != [] {
      InsertSorts(sorted, ops[0]);
      InsertAllSorts(Insert(sorted, ops[0]), ops[1..]);
    }
  }

  lemma InsertSorts(sorted: seq<Op>, op: Op)
    requires Sorted(sorted)
    ensures Sorted(Insert(sorted, op))
  {
    hide Insert;
    var k := InsertPlace(sorted, op);
    var all := sorted[..k] + [op] + sorted[k..];
    forall i | 0 <= i < k ensures NotAfter(sorted[i], op) {
      if i < k - 1 { assert NotAfter(sorted[i], sorted[k - 1]); }
    }
    forall i, j | 0 <= i < j < |all| ensures NotAfter(all[i], all[j]) {
      if i != k && j != k { assert NotAfter(sorted[if i < k then i else i - 1], sorted[if j < k then j else j - 1]); }
    }
  }

  lemma NoTagYet(text: string, ops: seq<Op>, asked: seq<Request>)
    requires Gathered(text, ops, asked)
    ensures NoTag(ops) && Ordered(ops, |text|)
  {
    forall i | 0 <= i < |ops| ensures !ops[i].Tag? { assert PlainOp(ops[i], text); }
  }

  lemma {:induction false} TagsAreHosted(text: string, ops: seq<Op>, tags: seq<Op>, asked: seq<Request>)
    requires Gathered(text, ops, asked) && Rising(tags)
    requires forall k :: 0 <= k < |Outside(ops, tags)| ==> Outside(ops, tags)[k].Tag?
    requires Ordered(InsertAll([], AllWithTags(text, ops, tags) + Outside(ops, tags)), |text|)
    ensures Hosted(InsertAll([], AllWithTags(text, ops, tags) + Outside(ops, tags)), tags) == tags
  {
    NoTagYet(text, ops, asked);
    hide Ordered, Gathered, AllWithTags, Outside, Rising, NoTag;
    var all, outside := AllWithTags(text, ops, tags), Outside(ops, tags);
    TagsHostThemselves(outside, tags);
    HostedWithTags(text, ops, tags);
    HostedConcat(all, outside, tags);
    InsideOrOutside(ops, |text|, tags);
    HostedInsertAll([], all + outside, tags);
    HostedRises(InsertAll([], all + outside), |text|, tags, 0);
    RisingIsUnique(Hosted(InsertAll([], all + outside), tags), tags, 0, |text|);
  }

  /** Every owed tag is placed exactly once and in the order of the text, on its own outside the emphases or as
      a mark at its place in the emphasis around it; no other tag or mark is placed.  At one place events stand
      before tags and tags before an emphasis. */
  lemma TagsArePlaced(text: string, starts: set<nat>, ops: seq<Op>, changes: seq<Change>, asked: seq<Request>)
    requires Gathered(text, ops, asked) && changes != []
    ensures var tags, placed := TagsFrom(text, starts, changes, 0), SentenceEmotions(text, starts, ops, changes);
            Hosted(placed, tags) == tags && AllMarked(text, placed, tags) && Sorted(placed)
  {
    var tags := TagsFrom(text, starts, changes, 0);
    var all, outside := AllWithTags(text, ops, tags), Outside(ops, tags);
    TagsKeepThePlan(text, starts, ops, changes, asked);
    assert Ordered(InsertAll([], all + outside), |text|);
    TagsAreTags(text, starts, changes, 0);
    OutsideIsClear(ops, tags, |text|);
    TagsAreOwed(text, starts, changes, 0);
    hide Ordered, Marked, Gathered, Settled, AllWithTags, Outside, TagsFrom, Rising;
    TagsAreHosted(text, ops, tags, asked);
    WithTagsAreMarked(text, ops, tags, asked);
    TagsAreMarked(text, outside, tags);
    InsertAllMarks(text, [], all + outside, tags);
    InsertAllSorts([], all + outside);
  }

  lemma TagsAreMarked(text: string, some: seq<Op>, tags: seq<Op>)
    requires forall i :: 0 <= i < |some| ==> some[i].Tag?
    ensures AllMarked(text, some, tags)
  {
  }
}
