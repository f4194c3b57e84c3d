/** The length-prefixed speech stream: the server's frame writer (`_append_pause` and `generate` in
    services/tts/src/openclaw_local_tts/app.py), the client's reader (`readMore`, `readFrame` and `pull`
    in packages/openclaw-local-media/src/speech-provider.ts) and the batch form the two must agree with
    (`join_speech_segments` in services/tts/src/openclaw_local_tts/audio.py).
 */
module PcmStream {
  import opened Wrappers

  type Byte = b: int | 0 <= b < 256

  const MAX_STREAM_BYTES: nat := 64 * 1024 * 1024

  datatype Rendered = Rendered(data: seq<Byte>, rate: nat)

  // ----- frames on the wire

  function BigEndian(n: nat): (r: seq<Byte>)
    requires n < 0x1_0000_0000
    ensures |r| == 4
  {
    var high: int, middle: int, low: int := n / 0x100_0000, n / 0x1_0000 % 256, n / 0x100 % 256;
    var last: int := n % 256;
    [high, middle, low, last]
  }

  function ReadBigEndian(b: seq<Byte>): nat
    requires |b| >= 4
  {
    var high: nat, middle: nat, low: nat, last: nat := b[0], b[1], b[2], b[3];
    high * 0x100_0000 + middle * 0x1_0000 + low * 0x100 + last
  }

  lemma BigEndianRoundTrip(n: nat, more: seq<Byte>)
    requires n < 0x1_0000_0000
    ensures ReadBigEndian(BigEndian(n) + more) == n
  {
    var b := BigEndian(n) + more;
    assert b[..4] == BigEndian(n);
    assert n / 0x1_0000 == n / 0x100_0000 * 256 + n / 0x1_0000 % 256;
    assert n / 0x100 == n / 0x1_0000 * 256 + n / 0x100 % 256;
  }

  lemma Digits(a: nat, b: nat, c: nat, d: nat)
    requires a < 256 && b < 256 && c < 256 && d < 256
    ensures var n := a * 0x100_0000 + b * 0x1_0000 + c * 0x100 + d;
            && n < 0x1_0000_0000 && n / 0x100_0000 == a && n / 0x1_0000 == a * 256 + b
            && n / 0x100 == (a * 256 + b) * 256 + c
  {
  }

  lemma {:induction false} BigEndianUnique(b: seq<Byte>)
    requires |b| >= 4
    ensures ReadBigEndian(b) < 0x1_0000_0000 && b[..4] == BigEndian(ReadBigEndian(b))
  {
    Digits(b[0], b[1], b[2], b[3]);
    var n := ReadBigEndian(b);
    assert b[..4] == [b[0], b[1], b[2], b[3]];
  }

  function Frame(audio: seq<Byte>): seq<Byte>
    requires |audio| <= MAX_STREAM_BYTES
  {
    BigEndian(|audio|) + audio
  }

  const TERMINATOR: seq<Byte> := [0, 0, 0, 0]

  function Flat(chunks: seq<seq<Byte>>): seq<Byte> {
    if chunks == [] then [] else chunks[0] + Flat(chunks[1..])
  }

  predicate WholeSamples(audio: seq<Byte>) { audio != [] && |audio| % 2 == 0 }

  /** Frames that fit a stream of which `used` bytes are spent. */
  predicate Sendable(used: nat, frames: seq<seq<Byte>>)
    decreases |frames|
  {
    frames == [] ||
    (WholeSamples(frames[0]) && used + |frames[0]| <= MAX_STREAM_BYTES && Sendable(used + |frames[0]|, frames[1..]))
  }

  function Encoded(used: nat, frames: seq<seq<Byte>>): seq<Byte>
    requires Sendable(used, frames)
    decreases |frames|
  {
    if frames == [] then TERMINATOR else Frame(frames[0]) + Encoded(used + |frames[0]|, frames[1..])
  }

  // ----- the writer

  function Silence(n: nat): seq<Byte> { seq(2 * n, _ => 0) }

  predicate PauseAllowed(pause: int) { 0 <= pause <= 2000 }

  function Pause(rate: nat, pause: int): seq<Byte>
    requires PauseAllowed(pause)
  {
    Silence(rate * pause / 1000)
  }

  function AppendPause(rendered: Rendered, pause: int): Option<seq<Byte>> {
    if !WholeSamples(rendered.data) || !PauseAllowed(pause) then None
    else Some(rendered.data + Pause(rendered.rate, pause))
  }

  /** The pause after segment `i`: the last one is dropped. */
  function PauseAfter(pauses: seq<int>, i: nat): int {
    if i + 1 < |pauses| then pauses[i] else 0
  }

  datatype Wire = Wire(bytes: seq<Byte>, complete: bool)

  function Generate(rendered: seq<Rendered>, pauses: seq<int>, i: nat, total: nat): Wire
    requires i <= |rendered|
    decreases |rendered| - i
  {
    if i == |rendered| then
      if i == |pauses| then Wire(TERMINATOR, true) else Wire([], false)
    else
      match AppendPause(rendered[i], PauseAfter(pauses, i))
      case None => Wire([], false)
      case Some(audio) =>
        if total + |audio| > MAX_STREAM_BYTES then Wire([], false)
        else
          After(Frame(audio), Generate(rendered, pauses, i + 1, total + |audio|))
  }

  function After(sent: seq<Byte>, rest: Wire): Wire { Wire(sent + rest.bytes, rest.complete) }

  lemma AfterFrame(sent: seq<Byte>, frame: seq<Byte>, rest: Wire)
    ensures After(sent, After(frame, rest)) == After(sent + frame, rest)
  {
    assert sent + (frame + rest.bytes) == (sent + frame) + rest.bytes;
  }

  /** What the server yields, chunk by chunk, until it ends or fails. */
  method WriteStream(rendered: seq<Rendered>, pauses: seq<int>) returns (wire: Wire)
    ensures wire == Generate(rendered, pauses, 0, 0)
  {
    var bytes: seq<Byte>, total: nat, index := [], 0, 0;
    while index < |rendered|
      invariant 0 <= index <= |rendered|
      invariant Generate(rendered, pauses, 0, 0) == After(bytes, Generate(rendered, pauses, index, total))
    {
      var pause := if index < |pauses| - 1 then pauses[index] else 0;
      var audio := AppendPause(rendered[index], pause);
      if audio.None? || total + |audio.value| > MAX_STREAM_BYTES {
        assert bytes + [] == bytes;
        return Wire(bytes, false);
      }
      AfterFrame(bytes, Frame(audio.value), Generate(rendered, pauses, index + 1, total + |audio.value|));
      bytes, total := bytes + Frame(audio.value), total + |audio.value|;
      index := index + 1;
    }
    assert bytes + [] == bytes;
    wire := if index != |pauses| then Wire(bytes, false) else Wire(bytes + TERMINATOR, true);
  }

  // ----- the batch form

  function JoinFrom(rendered: seq<Rendered>, pauses: seq<int>, rate: nat, i: nat): Option<seq<Byte>>
    requires i <= |rendered| == |pauses|
    decreases |rendered| - i
  {
    if i == |rendered| then Some([])
    else if rendered[i].rate != rate || !WholeSamples(rendered[i].data) then None
    else if i + 1 < |rendered| && !PauseAllowed(pauses[i]) then None
    else
      var pause := if i + 1 < |rendered| then Pause(rate, pauses[i]) else [];
      Onto(rendered[i].data + pause, JoinFrom(rendered, pauses, rate, i + 1))
  }

  function Onto(first: seq<Byte>, rest: Option<seq<Byte>>): Option<seq<Byte>> {
    if rest.None? then None else Some(first + rest.value)
  }

  lemma OntoOnto(a: seq<Byte>, b: seq<Byte>, rest: Option<seq<Byte>>)
    ensures Onto(a, Onto(b, rest)) == Onto(a + b, rest) && Onto([], rest) == rest
  {
    if rest.Some? { assert a + (b + rest.value) == (a + b) + rest.value && [] + rest.value == rest.value; }
  }

  function Join(rendered: seq<Rendered>, pauses: seq<int>): Option<seq<Byte>> {
    if rendered == [] || |rendered| != |pauses| then None
    else JoinFrom(rendered, pauses, rendered[0].rate, 0)
  }

  method JoinSpeechSegments(rendered: seq<Rendered>, pauses: seq<int>) returns (output: Option<seq<Byte>>)
    ensures output == Join(rendered, pauses)
  {
    hide Pause;
    if rendered == [] || |rendered| != |pauses| { return None; }
    var rate := rendered[0].rate;
    var bytes: seq<Byte>, index := [], 0;
    OntoOnto([], [], JoinFrom(rendered, pauses, rate, 0));
    while index < |rendered|
      invariant 0 <= index <= |rendered|
      invariant Join(rendered, pauses) == Onto(bytes, JoinFrom(rendered, pauses, rate, index))
    {
      if rendered[index].rate != rate { return None; }
      if rendered[index].data == [] || |rendered[index].data| % 2 != 0 { return None; }
      var part := rendered[index].data;
      if index < |rendered| - 1 {
        if pauses[index] < 0 || pauses[index] > 2000 { return None; }
        part := part + Pause(rate, pauses[index]);
      } else {
        assert part + [] == part;
      }
      OntoOnto(bytes, part, JoinFrom(rendered, pauses, rate, index + 1));
      bytes := bytes + part;
      index := index + 1;
    }
    assert bytes + [] == bytes;
    return Some(bytes);
  }

  // ----- stream and batch agree

  predicate OneRate(rendered: seq<Rendered>, rate: nat) {
    forall k :: 0 <= k < |rendered| ==> rendered[k].rate == rate
  }

  /** The frames the writer means to send from segment `i` on. */
  function Frames(rendered: seq<Rendered>, pauses: seq<int>, i: nat): seq<seq<Byte>>
    requires i <= |rendered| == |pauses|
    requires forall k :: i <= k < |rendered| ==> PauseAllowed(PauseAfter(pauses, k))
    decreases |rendered| - i
  {
    if i == |rendered| then []
    else [rendered[i].data + Pause(rendered[i].rate, PauseAfter(pauses, i))] + Frames(rendered, pauses, i + 1)
  }

  /** A pause is silence, short of its time by less than one sample. */
  lemma PauseIsSilence(rate: nat, pause: int)
    requires PauseAllowed(pause)
    ensures var samples := |Pause(rate, pause)| / 2;
            1000 * samples <= rate * pause < 1000 * (samples + 1) && |Pause(rate, pause)| == 2 * samples
    ensures forall b :: b in Pause(rate, pause) ==> b == 0
  {
    var n := rate * pause;
    assert n == n / 1000 * 1000 + n % 1000;
  }

  lemma PauseIsWhole(data: seq<Byte>, rate: nat, pause: int)
    requires WholeSamples(data) && PauseAllowed(pause)
    ensures WholeSamples(data + Pause(rate, pause)) && Pause(rate, 0) == []
  {
    assert rate * 0 / 1000 == 0;
  }

  lemma {:induction false} GenerateAgrees(rendered: seq<Rendered>, pauses: seq<int>, rate: nat, i: nat, total: nat)
    requires i <= |rendered| == |pauses| && OneRate(rendered, rate) && total <= MAX_STREAM_BYTES
    ensures var wire, joined := Generate(rendered, pauses, i, total), JoinFrom(rendered, pauses, rate, i);
            && (wire.complete <==> joined.Some? && total + |joined.value| <= MAX_STREAM_BYTES)
            && (wire.complete ==> (forall k :: i <= k < |rendered| ==> PauseAllowed(PauseAfter(pauses, k))))
            && (wire.complete ==>
                  var frames := Frames(rendered, pauses, i);
                  Sendable(total, frames) && wire.bytes == Encoded(total, frames) && Flat(frames) == joined.value)
    decreases |rendered| - i
  {
    if i < |rendered| {
      var audio := AppendPause(rendered[i], PauseAfter(pauses, i));
      if audio.Some? {
        PauseIsWhole(rendered[i].data, rate, PauseAfter(pauses, i));
        if total + |audio.value| <= MAX_STREAM_BYTES {
          GenerateAgrees(rendered, pauses, rate, i + 1, total + |audio.value|);
          if Generate(rendered, pauses, i, total).complete {
            var frames := Frames(rendered, pauses, i);
            assert frames[0] == audio.value && frames[1..] == Frames(rendered, pauses, i + 1);
          }
        }
      }
    }
  }

  /** The stream is completed exactly when the batch form succeeds within the size limit; then the
      frames on the wire, put together, are the batch form. */
  lemma {:induction false} StreamAgreesWithBatch(rendered: seq<Rendered>, pauses: seq<int>, rate: nat)
    requires rendered != [] && OneRate(rendered, rate)
    ensures var wire, joined := Generate(rendered, pauses, 0, 0), Join(rendered, pauses);
            && (wire.complete <==> joined.Some? && |joined.value| <= MAX_STREAM_BYTES)
            && (wire.complete ==>
                  exists frames :: frames != [] && Sendable(0, frames) && wire.bytes == Encoded(0, frames) &&
                                   Flat(frames) == joined.value)
  {
    if Generate(rendered, pauses, 0, 0).complete { GeneratesAll(rendered, pauses, 0, 0); }
    if |rendered| == |pauses| {
      GenerateAgrees(rendered, pauses, rate, 0, 0);
      if Generate(rendered, pauses, 0, 0).complete { assert Frames(rendered, pauses, 0) != []; }
    }
  }

  /** A completed stream has a pause for each segment. */
  lemma {:induction false} GeneratesAll(rendered: seq<Rendered>, pauses: seq<int>, i: nat, total: nat)
    requires i <= |rendered| && Generate(rendered, pauses, i, total).complete
    ensures |rendered| == |pauses|
    decreases |rendered| - i
  {
    if i < |rendered| {
      GeneratesAll(rendered, pauses, i + 1, total + |AppendPause(rendered[i], PauseAfter(pauses, i)).value|);
    }
  }

  // ----- the reader

  /** Read chunks until `n` bytes are buffered or the response ends. */
  function Fill(buffered: seq<Byte>, chunks: seq<seq<Byte>>, n: nat): (seq<Byte>, seq<seq<Byte>>)
    decreases |chunks|
  {
    if |buffered| >= n || chunks == [] then (buffered, chunks)
    else Fill(buffered + chunks[0], chunks[1..], n)
  }

  datatype Reader = Reader(buffered: seq<Byte>, chunks: seq<seq<Byte>>, totalLength: nat)

  datatype Outcome = Audio(frame: seq<Byte>) | End | Fault

  function ReadFrame(r: Reader): (Reader, Outcome) {
    var (head, later) := Fill(r.buffered, r.chunks, 4);
    if |head| < 4 then (Reader(head, later, r.totalLength), Fault)
    else
      var length := ReadBigEndian(head);
      if length == 0 then (Reader(head[4..], later, r.totalLength), End)
      else if length > MAX_STREAM_BYTES || length % 2 != 0 then (Reader(head, later, r.totalLength), Fault)
      else
        var (all, rest) := Fill(head, later, 4 + length);
        if |all| < 4 + length then (Reader(all, rest, r.totalLength), Fault)
        else
          var u := Reader(all[4 + length..], rest, r.totalLength + length);
          (u, if u.totalLength > MAX_STREAM_BYTES then Fault else Audio(all[4..4 + length]))
  }

  datatype Delivery = Delivery(frames: seq<seq<Byte>>, closed: bool)

  lemma {:induction false} FillKeeps(buffered: seq<Byte>, chunks: seq<seq<Byte>>, n: nat)
    ensures var (all, rest) := Fill(buffered, chunks, n);
            && all + Flat(rest) == buffered + Flat(chunks) && |rest| <= |chunks|
            && (|all| < n ==> rest == [])
    decreases |chunks|
  {
    if |buffered| < n && chunks != [] {
      FillKeeps(buffered + chunks[0], chunks[1..], n);
      assert buffered + Flat(chunks) == (buffered + chunks[0]) + Flat(chunks[1..]);
    }
  }

  function Left(r: Reader): nat { |r.buffered| + |Flat(r.chunks)| }

  lemma AudioShrinks(r: Reader)
    ensures ReadFrame(r).1.Audio? ==> Left(ReadFrame(r).0) < Left(r)
  {
    FillKeeps(r.buffered, r.chunks, 4);
    var (head, later) := Fill(r.buffered, r.chunks, 4);
    if |head| >= 4 { FillKeeps(head, later, 4 + ReadBigEndian(head)); }
  }

  /** What the consumer of the stream is given, and whether it is closed without an error. */
  function ReadAll(r: Reader): Delivery
    decreases Left(r)
  {
    AudioShrinks(r);
    var (u, outcome) := ReadFrame(r);
    match outcome
    case Audio(frame) => var rest := ReadAll(u); Delivery([frame] + rest.frames, rest.closed)
    case End => Delivery([], u.totalLength != 0 && u.buffered == [])
    case Fault => Delivery([], false)
  }

  // ----- exactly which responses are accepted

  /** Some of the chunks, read whole, carry exactly `wire`. */
  ghost predicate Carries(buffered: seq<Byte>, chunks: seq<seq<Byte>>, wire: seq<Byte>) {
    exists k :: 0 <= k <= |chunks| && buffered + Flat(chunks[..k]) == wire
  }

  lemma FlatHead(chunks: seq<seq<Byte>>, k: nat)
    requires 0 < k <= |chunks|
    ensures Flat(chunks[..k]) == chunks[0] + Flat(chunks[1..][..k - 1])
  {
    assert chunks[..k][1..] == chunks[1..][..k - 1];
  }

  lemma {:induction false} FillCarries(buffered: seq<Byte>, chunks: seq<seq<Byte>>, wire: seq<Byte>, n: nat)
    requires Carries(buffered, chunks, wire) && n <= |wire|
    ensures var (all, rest) := Fill(buffered, chunks, n);
            Carries(all, rest, wire) && n <= |all| <= |wire| && all == wire[..|all|]
    decreases |chunks|
  {
    var k :| 0 <= k <= |chunks| && buffered + Flat(chunks[..k]) == wire;
    if |buffered| < n {
      assert k > 0;
      FlatHead(chunks, k);
      assert (buffered + chunks[0]) + Flat(chunks[1..][..k - 1]) == wire;
      FillCarries(buffered + chunks[0], chunks[1..], wire, n);
    }
  }

  lemma CarriesDrop(buffered: seq<Byte>, chunks: seq<seq<Byte>>, wire: seq<Byte>, n: nat)
    requires Carries(buffered, chunks, wire) && n <= |buffered|
    ensures n <= |wire| && wire[..n] == buffered[..n] && Carries(buffered[n..], chunks, wire[n..])
  {
    var k :| 0 <= k <= |chunks| && buffered + Flat(chunks[..k]) == wire;
    assert wire[n..] == buffered[n..] + Flat(chunks[..k]);
  }

  lemma {:induction false} FillRecovers(buffered: seq<Byte>, chunks: seq<seq<Byte>>, wire: seq<Byte>, n: nat)
    requires var (all, rest) := Fill(buffered, chunks, n); Carries(all, rest, wire)
    ensures Carries(buffered, chunks, wire)
    decreases |chunks|
  {
    if |buffered| < n && chunks != [] {
      FillRecovers(buffered + chunks[0], chunks[1..], wire, n);
      var k :| 0 <= k <= |chunks[1..]| && (buffered + chunks[0]) + Flat(chunks[1..][..k]) == wire;
      FlatHead(chunks, k + 1);
      assert buffered + Flat(chunks[..k + 1]) == wire;
    }
  }

  lemma HeadOf(wire: seq<Byte>, head: seq<Byte>)
    requires 4 <= |head| <= |wire| && head == wire[..|head|]
    ensures ReadBigEndian(head) == ReadBigEndian(wire)
  {
  }

  lemma FrameTaken(wire: seq<Byte>, all: seq<Byte>, frame: seq<Byte>, more: seq<Byte>)
    requires |frame| <= MAX_STREAM_BYTES && wire == Frame(frame) + more
    requires 4 + |frame| <= |all| <= |wire| && all == wire[..|all|]
    ensures all[4..4 + |frame|] == frame && wire[4 + |frame|..] == more
  {
    assert all[4..4 + |frame|] == wire[4..4 + |frame|];
  }

  /** The next frame carried is the next frame read. */
  lemma CarriedFrame(r: Reader, frame: seq<Byte>, more: seq<Byte>)
    requires WholeSamples(frame) && r.totalLength + |frame| <= MAX_STREAM_BYTES
    requires Carries(r.buffered, r.chunks, Frame(frame) + more)
    ensures var (u, outcome) := ReadFrame(r);
            outcome == Audio(frame) && u.totalLength == r.totalLength + |frame| && Carries(u.buffered, u.chunks, more)
  {
    var wire, n := Frame(frame) + more, |frame|;
    FillCarries(r.buffered, r.chunks, wire, 4);
    var (head, later) := Fill(r.buffered, r.chunks, 4);
    HeadOf(wire, head);
    assert wire == BigEndian(n) + (frame + more);
    BigEndianRoundTrip(n, frame + more);
    FillCarries(head, later, wire, 4 + n);
    var (all, rest) := Fill(head, later, 4 + n);
    CarriesDrop(all, rest, wire, 4 + n);
    FrameTaken(wire, all, frame, more);
  }

  lemma CarriedEnd(r: Reader)
    requires Carries(r.buffered, r.chunks, TERMINATOR)
    ensures var (u, outcome) := ReadFrame(r);
            outcome == End && u.totalLength == r.totalLength && u.buffered == []
  {
    FillCarries(r.buffered, r.chunks, TERMINATOR, 4);
    assert Fill(r.buffered, r.chunks, 4).0 == TERMINATOR;
    assert ReadBigEndian(TERMINATOR) == 0;
  }

  /** A response that carries encoded frames is delivered and closed. */
  lemma {:induction false} CarriedIsRead(r: Reader, frames: seq<seq<Byte>>)
    requires Sendable(r.totalLength, frames) && Carries(r.buffered, r.chunks, Encoded(r.totalLength, frames))
    requires frames != [] || r.totalLength > 0
    ensures ReadAll(r) == Delivery(frames, true)
    decreases |frames|
  {
    if frames == [] {
      CarriedEnd(r);
    } else {
      CarriedFrame(r, frames[0], Encoded(r.totalLength + |frames[0]|, frames[1..]));
      AudioShrinks(r);
      CarriedIsRead(ReadFrame(r).0, frames[1..]);
    }
  }

  lemma FrameWasCarried(r: Reader, more: seq<Byte>)
    requires ReadFrame(r).1.Audio? && Carries(ReadFrame(r).0.buffered, ReadFrame(r).0.chunks, more)
    ensures var (u, outcome) := ReadFrame(r);
            && WholeSamples(outcome.frame) && u.totalLength == r.totalLength + |outcome.frame| <= MAX_STREAM_BYTES
            && Carries(r.buffered, r.chunks, Frame(outcome.frame) + more)
  {
    var (u, outcome) := ReadFrame(r);
    var (head, later) := Fill(r.buffered, r.chunks, 4);
    var n := ReadBigEndian(head);
    var (all, rest) := Fill(head, later, 4 + n);
    BigEndianUnique(head);
    FillKeepsHead(head, later, 4 + n);
    assert all[..4] == head[..4] == BigEndian(n);
    assert outcome.frame == all[4..4 + n] && u.buffered == all[4 + n..];
    assert all == all[..4] + all[4..4 + n] + all[4 + n..];
    assert all == Frame(outcome.frame) + u.buffered;
    CarriesBefore(u.buffered, rest, more, Frame(outcome.frame));
    FillRecovers(head, later, Frame(outcome.frame) + more, 4 + n);
    FillRecovers(r.buffered, r.chunks, Frame(outcome.frame) + more, 4);
  }

  lemma CarriesBefore(buffered: seq<Byte>, chunks: seq<seq<Byte>>, wire: seq<Byte>, first: seq<Byte>)
    requires Carries(buffered, chunks, wire)
    ensures Carries(first + buffered, chunks, first + wire)
  {
    var k :| 0 <= k <= |chunks| && buffered + Flat(chunks[..k]) == wire;
    assert (first + buffered) + Flat(chunks[..k]) == first + wire;
  }

  lemma EndWasCarried(r: Reader)
    requires ReadFrame(r).1.End? && ReadFrame(r).0.buffered == []
    ensures ReadFrame(r).0.totalLength == r.totalLength && Carries(r.buffered, r.chunks, TERMINATOR)
  {
    var (head, later) := Fill(r.buffered, r.chunks, 4);
    BigEndianUnique(head);
    assert head == head[..4] + head[4..];
    assert head + Flat(later[..0]) == TERMINATOR;
    FillRecovers(r.buffered, r.chunks, TERMINATOR, 4);
  }

  /** A response that is closed without an error carried encoded frames. */
  lemma {:induction false} ReadIsCarried(r: Reader)
    requires ReadAll(r).closed
    ensures var frames := ReadAll(r).frames;
            && Sendable(r.totalLength, frames) && (frames != [] || r.totalLength > 0)
            && Carries(r.buffered, r.chunks, Encoded(r.totalLength, frames))
    decreases Left(r)
  {
    var (u, outcome) := ReadFrame(r);
    if outcome.Audio? {
      AudioShrinks(r);
      ReadIsCarried(u);
      var frames, tail := ReadAll(r).frames, ReadAll(u).frames;
      assert frames[0] == outcome.frame && frames[1..] == tail;
      FrameWasCarried(r, Encoded(u.totalLength, tail));
    } else {
      EndWasCarried(r);
    }
  }

  lemma {:induction false} FillKeepsHead(buffered: seq<Byte>, chunks: seq<seq<Byte>>, n: nat)
    ensures buffered <= Fill(buffered, chunks, n).0
    decreases |chunks|
  {
    if |buffered| < n && chunks != [] { FillKeepsHead(buffered + chunks[0], chunks[1..], n); }
  }

  function Fresh(chunks: seq<seq<Byte>>): Reader { Reader([], chunks, 0) }

  /** The reader delivers `frames` and closes exactly when a whole number of chunks from the start carry
      these frames and the terminator; later chunks are never looked at. */
  lemma AcceptedResponses(chunks: seq<seq<Byte>>, frames: seq<seq<Byte>>)
    ensures ReadAll(Fresh(chunks)) == Delivery(frames, true) <==>
            frames != [] && Sendable(0, frames) &&
            exists k :: 0 <= k <= |chunks| && Flat(chunks[..k]) == Encoded(0, frames)
  {
    if ReadAll(Fresh(chunks)) == Delivery(frames, true) {
      ReadIsCarried(Fresh(chunks));
      var k :| 0 <= k <= |chunks| && [] + Flat(chunks[..k]) == Encoded(0, frames);
      assert Flat(chunks[..k]) == Encoded(0, frames);
    }
    if frames != [] && Sendable(0, frames) {
      if k :| 0 <= k <= |chunks| && Flat(chunks[..k]) == Encoded(0, frames) {
        assert [] + Flat(chunks[..k]) == Encoded(0, frames);
        CarriedIsRead(Fresh(chunks), frames);
      }
    }
  }

  /** Whatever chunks the network makes of a completed stream, the reader delivers the batch audio. */
  lemma {:induction false} RoundTrip(rendered: seq<Rendered>, pauses: seq<int>, rate: nat, chunks: seq<seq<Byte>>)
    requires rendered != [] && OneRate(rendered, rate)
    requires Generate(rendered, pauses, 0, 0).complete && Flat(chunks) == Generate(rendered, pauses, 0, 0).bytes
    ensures var delivery := ReadAll(Fresh(chunks));
            && delivery.closed && |delivery.frames| == |rendered| && Sendable(0, delivery.frames)
            && Encoded(0, delivery.frames) == Generate(rendered, pauses, 0, 0).bytes
            && Join(rendered, pauses) == Some(Flat(delivery.frames))
  {
    assert |rendered| == |pauses| by { GeneratesAll(rendered, pauses, 0, 0); }
    GenerateAgrees(rendered, pauses, rate, 0, 0);
    var frames := Frames(rendered, pauses, 0);
    FramesCount(rendered, pauses, 0);
    assert chunks[..|chunks|] == chunks && [] + Flat(chunks) == Encoded(0, frames);
    CarriedIsRead(Fresh(chunks), frames);
  }

  lemma {:induction false} FramesCount(rendered: seq<Rendered>, pauses: seq<int>, i: nat)
    requires i <= |rendered| == |pauses|
    requires forall k :: i <= k < |rendered| ==> PauseAllowed(PauseAfter(pauses, k))
    ensures |Frames(rendered, pauses, i)| == |rendered| - i
    decreases |rendered| - i
  {
    if i < |rendered| { FramesCount(rendered, pauses, i + 1); }
  }

  lemma {:induction false} FirstLength(used: nat, frames: seq<seq<Byte>>, more: seq<Byte>)
    requires Sendable(used, frames)
    ensures ReadBigEndian(Encoded(used, frames) + more) == if frames == [] then 0 else |frames[0]|
    ensures frames != [] ==>
              Encoded(used, frames) + more == Frame(frames[0]) + (Encoded(used + |frames[0]|, frames[1..]) + more)
  {
    if frames != [] {
      var rest := Encoded(used + |frames[0]|, frames[1..]);
      BigEndianRoundTrip(|frames[0]|, frames[0] + rest + more);
      assert Encoded(used, frames) + more == BigEndian(|frames[0]|) + (frames[0] + rest + more);
    }
  }

  /** No encoding goes on where another one ends. */
  lemma {:induction false} EncodingEnds(used: nat, a: seq<seq<Byte>>, b: seq<seq<Byte>>, more: seq<Byte>)
    requires Sendable(used, a) && Sendable(used, b) && Encoded(used, a) + more == Encoded(used, b)
    ensures more == []
    decreases |a|
  {
    FirstLength(used, a, more);
    FirstLength(used, b, []);
    assert Encoded(used, b) + [] == Encoded(used, b);
    if a != [] {
      var n := |a[0]|;
      var left, right := Encoded(used + n, a[1..]) + more, Encoded(used + n, b[1..]);
      assert Frame(a[0]) + left == Frame(b[0]) + right;
      assert (Frame(a[0]) + left)[4 + n..] == left && (Frame(b[0]) + right)[4 + n..] == right;
      EncodingEnds(used + n, a[1..], b[1..], more);
    }
  }

  /** Bytes after the terminator are noticed only when they share its chunk: the same bytes are refused
      in one chunk and accepted in two. */
  lemma TrailingBytesDependOnChunks(frames: seq<seq<Byte>>, extra: seq<Byte>)
    requires frames != [] && Sendable(0, frames) && extra != []
    ensures var wire := Encoded(0, frames);
            && Flat([wire + extra]) == Flat([wire, extra])
            && ReadAll(Fresh([wire, extra])) == Delivery(frames, true)
            && !ReadAll(Fresh([wire + extra])).closed
  {
    var wire := Encoded(0, frames);
    var split: seq<seq<Byte>>, whole: seq<seq<Byte>> := [wire, extra], [wire + extra];
    assert split[1..] == [extra] && split[1..][1..] == whole[1..] == split[..1][1..];
    assert split[..1] == [wire];
    assert Flat(split[..1]) == wire;
    AcceptedResponses(split, frames);
    assert whole[..0] == [] && whole[..1] == whole;
    if ReadAll(Fresh(whole)).closed {
      var read := ReadAll(Fresh(whole)).frames;
      AcceptedResponses(whole, read);
      var k :| 0 <= k <= |whole| && Flat(whole[..k]) == Encoded(0, read);
      FirstLength(0, read, []);
      assert k == 1 && wire + extra == Encoded(0, read);
      EncodingEnds(0, frames, read, extra);
    }
  }

  // ----- the reader's variables

  class FrameReader {
    var chunks: seq<seq<Byte>>
    var buffered: seq<Byte>
    var totalLength: nat
    var complete: bool

    ghost function Now(): Reader
      reads this
    {
      Reader(buffered, chunks, totalLength)
    }

    constructor (chunks: seq<seq<Byte>>)
      ensures Now() == Fresh(chunks) && !complete
    {
      this.chunks, buffered, totalLength, complete := chunks, [], 0, false;
    }

    /** The next chunk of the response, or its end. */
    method ReadMore() returns (ok: bool)
      modifies `buffered, `chunks
      ensures ok == (old(chunks) != [])
      ensures ok ==> buffered == old(buffered) + old(chunks)[0] && chunks == old(chunks)[1..]
      ensures !ok ==> buffered == old(buffered) && chunks == old(chunks)
    {
      if chunks == [] { return false; }
      buffered, chunks := buffered + chunks[0], chunks[1..];
      return true;
    }

    method FillTo(n: nat) returns (ok: bool)
      modifies `buffered, `chunks
      ensures (buffered, chunks) == Fill(old(buffered), old(chunks), n) && ok == (|buffered| >= n)
    {
      while |buffered| < n
        invariant Fill(buffered, chunks, n) == Fill(old(buffered), old(chunks), n)
        decreases |chunks|, n - |buffered|
      {
        ok := ReadMore();
        if !ok { return; }
      }
      ok := true;
    }

    method NextFrame() returns (outcome: Outcome)
      modifies this
      ensures (Now(), outcome) == ReadFrame(old(Now()))
      ensures complete == (old(complete) || outcome.End?)
    {
      var ok := FillTo(4);
      if !ok { return Fault; }
      var length := ReadBigEndian(buffered);
      if length == 0 {
        buffered, complete := buffered[4..], true;
        return End;
      }
      if length > MAX_STREAM_BYTES || length % 2 != 0 { return Fault; }
      ok := FillTo(4 + length);
      if !ok { return Fault; }
      var frame := buffered[4..4 + length];
      buffered := buffered[4 + length..];
      totalLength := totalLength + length;
      return if totalLength > MAX_STREAM_BYTES then Fault else Audio(frame);
    }

    /** Pull until the stream is closed or errored. */
    method Deliver() returns (frames: seq<seq<Byte>>, closed: bool)
      requires !complete
      modifies this
      ensures Delivery(frames, closed) == ReadAll(old(Now()))
    {
      frames, closed := [], false;
      while true
        invariant var rest := ReadAll(Now());
                  ReadAll(old(Now())) == Delivery(frames + rest.frames, rest.closed)
        invariant !complete
        decreases Left(Now())
      {
        AudioShrinks(Now());
        ghost var before := Now();
        var outcome := NextFrame();
        if !outcome.Audio? {
          closed := complete && totalLength != 0 && |buffered| == 0;
          assert frames + [] == frames;
          return;
        }
        assert frames + ([outcome.frame] + ReadAll(Now()).frames) == (frames + [outcome.frame]) + ReadAll(Now()).frames;
        frames := frames + [outcome.frame];
      }
    }
  }
}
