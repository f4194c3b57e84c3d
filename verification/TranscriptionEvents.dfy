/** The incremental reader of the speech-to-text event stream (`readTranscriptionEvents` in
    packages/openclaw-local-media/src/transcription-events.ts).  It follows the event stream format of
    sections 9.2.5 and 9.2.6 of the WHATWG HTML Standard, narrowed to three blank-line forms.

    Text arrives decoded; `Parse` stands for what JSON and the checks on its fields make of the data.
 */
module TranscriptionEvents {
  import opened Wrappers

  const MAX_RESPONSE_BYTES: nat := 256 * 1024

  // ----- frames

  predicate HasPrefixAt(text: string, i: nat, prefix: string) {
    i + |prefix| <= |text| && text[i..i + |prefix|] == prefix
  }

  /** The length of the separator at `i`, or 0: CR LF CR LF, LF LF or CR CR. */
  function SeparatorAt(text: string, i: nat): nat {
    if i + 4 <= |text| && text[i] == '\r' && text[i + 1] == '\n' && text[i + 2] == '\r' && text[i + 3] == '\n' then 4
    else if i + 2 <= |text| && text[i] == text[i + 1] && (text[i] == '\n' || text[i] == '\r') then 2
    else 0
  }

  /** The place of the leftmost separator from `i` on, or the end of the text. */
  function FirstSeparator(text: string, i: nat): (at: nat)
    requires i <= |text|
    ensures i <= at <= |text|
    ensures at < |text| ==> SeparatorAt(text, at) > 0
    ensures forall j :: i <= j < at ==> SeparatorAt(text, j) == 0
    decreases |text| - i
  {
    if i == |text| || SeparatorAt(text, i) > 0 then i else FirstSeparator(text, i + 1)
  }

  datatype Pieces = Pieces(frames: seq<string>, rest: string)

  function Cut(text: string): string
    requires FirstSeparator(text, 0) < |text|
  {
    var at := FirstSeparator(text, 0);
    text[at + SeparatorAt(text, at)..]
  }

  function Split(text: string): Pieces
    decreases |text|
  {
    var at := FirstSeparator(text, 0);
    if at == |text| then Pieces([], text)
    else
      var tail := Split(Cut(text));
      Pieces([text[..at]] + tail.frames, tail.rest)
  }

  // ----- the data of a frame

  /** Lines end with CR LF, LF or CR. */
  function Lines(text: string, from: nat, i: nat): seq<string>
    requires from <= i <= |text|
    decreases |text| - i
  {
    if i == |text| then [text[from..]]
    else if text[i] == '\r' && i + 1 < |text| && text[i + 1] == '\n' then [text[from..i]] + Lines(text, i + 2, i + 2)
    else if text[i] == '\n' || text[i] == '\r' then [text[from..i]] + Lines(text, i + 1, i + 1)
    else Lines(text, from, i + 1)
  }

  predicate IsData(line: string) { line == "data" || HasPrefixAt(line, 0, "data:") }

  function DataOf(line: string): string
    requires IsData(line)
  {
    var value := if |line| < 5 then "" else line[5..];
    if value != "" && value[0] == ' ' then value[1..] else value
  }

  function DataLines(lines: seq<string>): seq<string> {
    if lines == [] then []
    else (if IsData(lines[0]) then [DataOf(lines[0])] else []) + DataLines(lines[1..])
  }

  function JoinLines(lines: seq<string>): string {
    if lines == [] then "" else if |lines| == 1 then lines[0] else lines[0] + "\n" + JoinLines(lines[1..])
  }

  // ----- events

  datatype Event = SpeechConfirmed | TranscriptDone(text: string) | Invalid

  type Parse = string -> Event

  /** Frames without data carry no event. */
  function EventOf(parse: Parse, frame: string): Option<Event> {
    var data := DataLines(Lines(frame, 0, 0));
    if data == [] then None else Some(parse(JoinLines(data)))
  }

  datatype Reader =
    | Reading(pending: string, confirmed: bool, terminal: Option<string>)
    | Failed(confirmed: bool)

  function Start(): Reader { Reading("", false, None) }

  function Consume(parse: Parse, r: Reader, frame: string): Reader {
    match r
    case Failed(_) => r
    case Reading(pending, confirmed, terminal) =>
      match EventOf(parse, frame)
      case None => r
      case Some(event) =>
        if terminal.Some? then Failed(confirmed)
        else match event
          case SpeechConfirmed => if confirmed then Failed(true) else r.(confirmed := true)
          case TranscriptDone(text) => r.(terminal := Some(text))
          case Invalid => Failed(confirmed)
  }

  /** Consume every complete frame that is pending. */
  function Drain(parse: Parse, r: Reader): Reader
    decreases if r.Reading? then |r.pending| else 0
  {
    if r.Failed? || FirstSeparator(r.pending, 0) == |r.pending| then r
    else
      var at := FirstSeparator(r.pending, 0);
      var next := Consume(parse, r, r.pending[..at]);
      if next.Failed? then next else Drain(parse, next.(pending := Cut(r.pending)))
  }

  function Receive(parse: Parse, r: Reader, text: string): Reader {
    if r.Failed? then r else Drain(parse, r.(pending := r.pending + text))
  }

  function ReceiveAll(parse: Parse, r: Reader, chunks: seq<string>): Reader
    decreases |chunks|
  {
    if chunks == [] then r else ReceiveAll(parse, Receive(parse, r, chunks[0]), chunks[1..])
  }

  function Finish(r: Reader): Option<string> {
    if r.Reading? && r.pending == "" then r.terminal else None
  }

  // ----- splitting does not depend on chunking

  /** A separator cannot begin before one that is complete: the forms do not overlap that way. */
  lemma {:induction false} NoEarlierSeparator(a: string, b: string, i: nat)
    requires i < FirstSeparator(a, 0) < |a|
    ensures SeparatorAt(a + b, i) == 0
  {
    assert SeparatorAt(a, i) == 0 && SeparatorAt(a, FirstSeparator(a, 0)) > 0;
  }

  lemma {:induction false} FirstIs(text: string, i: nat, at: nat)
    requires i <= at < |text| && SeparatorAt(text, at) > 0
    requires forall j :: i <= j < at ==> SeparatorAt(text, j) == 0
    ensures FirstSeparator(text, i) == at
    decreases at - i
  {
    if i < at { FirstIs(text, i + 1, at); }
  }

  /** More text neither moves nor changes the first separator. */
  lemma SeparatorStays(a: string, b: string)
    requires FirstSeparator(a, 0) < |a|
    ensures FirstSeparator(a + b, 0) == FirstSeparator(a, 0)
    ensures SeparatorAt(a + b, FirstSeparator(a, 0)) == SeparatorAt(a, FirstSeparator(a, 0))
  {
    forall i | 0 <= i < FirstSeparator(a, 0) ensures SeparatorAt(a + b, i) == 0 { NoEarlierSeparator(a, b, i); }
    FirstIs(a + b, 0, FirstSeparator(a, 0));
  }

  lemma CutGrows(a: string, b: string)
    requires FirstSeparator(a, 0) < |a|
    ensures FirstSeparator(a + b, 0) == FirstSeparator(a, 0)
    ensures (a + b)[..FirstSeparator(a, 0)] == a[..FirstSeparator(a, 0)] && Cut(a + b) == Cut(a) + b
  {
    SeparatorStays(a, b);
  }

  /** Splitting the first part, and later what was left of it with the second part, is splitting the
      whole text. */
  lemma {:induction false} SplitIncrementally(a: string, b: string)
    ensures var first := Split(a);
            var second := Split(first.rest + b);
            Split(a + b) == Pieces(first.frames + second.frames, second.rest)
    decreases |a|
  {
    var at := FirstSeparator(a, 0);
    if at == |a| {
      assert [] + Split(a + b).frames == Split(a + b).frames;
    } else {
      CutGrows(a, b);
      SplitIncrementally(Cut(a), b);
      var tail := Split(Cut(a));
      var second := Split(tail.rest + b);
      assert [a[..at]] + (tail.frames + second.frames) == ([a[..at]] + tail.frames) + second.frames;
    }
  }

  predicate IsSeparator(s: string) { s == "\r\n\r\n" || s == "\n\n" || s == "\r\r" }

  predicate Weaves(text: string, frames: seq<string>, separators: seq<string>, rest: string)
    decreases |frames|
  {
    && |separators| == |frames|
    && (if frames == [] then text == rest
        else
          && IsSeparator(separators[0])
          && frames[0] + separators[0] <= text
          && Weaves(text[|frames[0] + separators[0]|..], frames[1..], separators[1..], rest))
  }

  function Separators(text: string): seq<string>
    decreases |text|
  {
    var at := FirstSeparator(text, 0);
    if at == |text| then [] else [text[at..at + SeparatorAt(text, at)]] + Separators(Cut(text))
  }

  lemma WeaveOne(text: string, frames: seq<string>, separators: seq<string>, rest: string)
    requires FirstSeparator(text, 0) < |text| && Weaves(Cut(text), frames, separators, rest)
    ensures var at := FirstSeparator(text, 0);
            Weaves(text, [text[..at]] + frames, [text[at..at + SeparatorAt(text, at)]] + separators, rest)
  {
    var at := FirstSeparator(text, 0);
    var mark := text[at..at + SeparatorAt(text, at)];
    assert text[..at] + mark == text[..at + |mark|];
    assert ([text[..at]] + frames)[1..] == frames && ([mark] + separators)[1..] == separators;
  }

  /** The frames, each followed by its separator, and then the rest, are the text. */
  lemma {:induction false} SplitIsPartition(text: string)
    ensures Weaves(text, Split(text).frames, Separators(text), Split(text).rest)
    decreases |text|
  {
    if FirstSeparator(text, 0) < |text| {
      SplitIsPartition(Cut(text));
      WeaveOne(text, Split(Cut(text)).frames, Separators(Cut(text)), Split(Cut(text)).rest);
    }
  }

  /** No frame holds a separator, and neither does the rest. */
  lemma {:induction false} SplitIsComplete(text: string)
    ensures forall k :: 0 <= k < |Split(text).frames| ==>
              FirstSeparator(Split(text).frames[k], 0) == |Split(text).frames[k]|
    ensures FirstSeparator(Split(text).rest, 0) == |Split(text).rest|
    decreases |text|
  {
    if FirstSeparator(text, 0) < |text| {
      SplitIsComplete(Cut(text));
      PrefixHasNone(text);
    }
  }

  lemma {:induction false} NoneIsEnd(text: string, i: nat)
    requires i <= |text| && forall j :: i <= j < |text| ==> SeparatorAt(text, j) == 0
    ensures FirstSeparator(text, i) == |text|
    decreases |text| - i
  {
    if i < |text| { NoneIsEnd(text, i + 1); }
  }

  lemma PrefixHasNone(text: string)
    requires FirstSeparator(text, 0) < |text|
    ensures var at := FirstSeparator(text, 0); FirstSeparator(text[..at], 0) == at
  {
    var at := FirstSeparator(text, 0);
    forall i | 0 <= i < at ensures SeparatorAt(text[..at], i) == 0 { assert SeparatorAt(text, i) == 0; }
    NoneIsEnd(text[..at], 0);
  }

  // ----- reading does not depend on chunking

  lemma {:induction false} DrainTwice(parse: Parse, r: Reader, more: string)
    requires r.Reading?
    ensures Drain(parse, r.(pending := r.pending + more)) == Receive(parse, Drain(parse, r), more)
    decreases |r.pending|
  {
    var at := FirstSeparator(r.pending, 0);
    if at < |r.pending| {
      CutGrows(r.pending, more);
      var frame := r.pending[..at];
      var next := Consume(parse, r, frame);
      var later := Consume(parse, r.(pending := r.pending + more), frame);
      if next.Reading? {
        assert later == next.(pending := r.pending + more);
        DrainTwice(parse, next.(pending := Cut(r.pending)), more);
      }
    }
  }

  function Flat(chunks: seq<string>): string {
    if chunks == [] then "" else chunks[0] + Flat(chunks[1..])
  }

  /** Reading the chunks one by one ends in the same state as reading their text at once. */
  predicate Drained(r: Reader) { r.Reading? ==> FirstSeparator(r.pending, 0) == |r.pending| }

  lemma ReceiveTwice(parse: Parse, r: Reader, a: string, b: string)
    ensures Receive(parse, Receive(parse, r, a), b) == Receive(parse, r, a + b)
    ensures Drained(Receive(parse, r, a))
  {
    hide FirstSeparator, SeparatorAt, Consume, Cut;
    if r.Reading? {
      DrainTwice(parse, r.(pending := r.pending + a), b);
      assert r.pending + (a + b) == (r.pending + a) + b;
      DrainedHasNone(parse, r.(pending := r.pending + a));
    }
  }

  /** Reading the chunks one by one ends in the same state as reading their text at once. */
  lemma {:induction false} ChunksDoNotMatter(parse: Parse, r: Reader, chunks: seq<string>)
    requires Drained(r)
    ensures ReceiveAll(parse, r, chunks) == Receive(parse, r, Flat(chunks))
    decreases |chunks|
  {
    if chunks == [] {
      if r.Reading? { assert r.pending + "" == r.pending; }
    } else {
      ReceiveTwice(parse, r, chunks[0], Flat(chunks[1..]));
      ChunksDoNotMatter(parse, Receive(parse, r, chunks[0]), chunks[1..]);
    }
  }

  lemma {:induction false} DrainedHasNone(parse: Parse, r: Reader)
    ensures Drained(Drain(parse, r))
    decreases if r.Reading? then |r.pending| else 0
  {
    if r.Reading? && FirstSeparator(r.pending, 0) < |r.pending| {
      var next := Consume(parse, r, r.pending[..FirstSeparator(r.pending, 0)]);
      if next.Reading? { DrainedHasNone(parse, next.(pending := Cut(r.pending))); }
    }
  }

  // ----- which streams are accepted

  function Events(parse: Parse, frames: seq<string>): seq<Event> {
    if frames == [] then []
    else
      var rest := Events(parse, frames[1..]);
      match EventOf(parse, frames[0])
      case None => rest
      case Some(event) => [event] + rest
  }

  /** The events a reader in this state may still be given. */
  predicate MayFollow(confirmed: bool, terminal: Option<string>, events: seq<Event>, result: string) {
    match terminal
    case Some(text) => events == [] && text == result
    case None =>
      events == [TranscriptDone(result)] || (!confirmed && events == [SpeechConfirmed, TranscriptDone(result)])
  }

  lemma ConsumeAdvances(parse: Parse, r: Reader, frame: string, events: seq<Event>, result: string)
    requires r.Reading?
    ensures EventOf(parse, frame).None? ==> Consume(parse, r, frame) == r
    ensures EventOf(parse, frame).Some? ==>
              var next := Consume(parse, r, frame);
              MayFollow(r.confirmed, r.terminal, [EventOf(parse, frame).value] + events, result) <==>
              next.Reading? && MayFollow(next.confirmed, next.terminal, events, result)
  {
    if EventOf(parse, frame).Some? {
      var event := EventOf(parse, frame).value;
      var all := [event] + events;
      assert all[0] == event && all[1..] == events;
      if event == SpeechConfirmed && events == [TranscriptDone(result)] {
        assert all == [SpeechConfirmed, TranscriptDone(result)];
      }
    }
  }

  lemma {:induction false} DrainAccepts(parse: Parse, r: Reader, result: string)
    requires r.Reading?
    ensures Finish(Drain(parse, r)) == Some(result) <==>
            Split(r.pending).rest == "" &&
            MayFollow(r.confirmed, r.terminal, Events(parse, Split(r.pending).frames), result)
    decreases |r.pending|
  {
    var at := FirstSeparator(r.pending, 0);
    if at < |r.pending| {
      var frame, tail := r.pending[..at], Split(Cut(r.pending));
      assert Split(r.pending).frames[1..] == tail.frames;
      ConsumeAdvances(parse, r, frame, Events(parse, tail.frames), result);
      var next := Consume(parse, r, frame);
      if next.Reading? { DrainAccepts(parse, next.(pending := Cut(r.pending)), result); }
    }
  }

  /** A stream is accepted, however it is chunked, exactly when it ends with a separator and its events
      are one `transcript.done` after at most one `speech.confirmed`. */
  lemma AcceptedStreams(parse: Parse, chunks: seq<string>, result: string)
    ensures var events := Events(parse, Split(Flat(chunks)).frames);
            Finish(ReceiveAll(parse, Start(), chunks)) == Some(result) <==>
            Split(Flat(chunks)).rest == "" &&
            (events == [TranscriptDone(result)] || events == [SpeechConfirmed, TranscriptDone(result)])
  {
    ChunksDoNotMatter(parse, Start(), chunks);
    assert "" + Flat(chunks) == Flat(chunks);
    DrainAccepts(parse, Reading(Flat(chunks), false, None), result);
  }

  // ----- what the server writes

  /** One event as the server puts it on the wire; `json` is on one line. */
  function ServerEvent(json: string): string { "data: " + json + "\n\n" }

  function Wire(payloads: seq<string>): string
    decreases |payloads|
  {
    if payloads == [] then "" else ServerEvent(payloads[0]) + Wire(payloads[1..])
  }

  predicate OneLine(s: string) { forall i :: 0 <= i < |s| ==> s[i] != '\r' && s[i] != '\n' }

  function Parsed(parse: Parse, payloads: seq<string>): seq<Event>
    decreases |payloads|
  {
    if payloads == [] then [] else [parse(payloads[0])] + Parsed(parse, payloads[1..])
  }

  lemma EventIsCut(json: string, more: string)
    requires OneLine(json)
    ensures var frame, text := "data: " + json, ServerEvent(json) + more;
            && FirstSeparator(text, 0) == |frame| < |text| && text[..|frame|] == frame && Cut(text) == more
  {
    var frame, text := "data: " + json, ServerEvent(json) + more;
    assert text == frame + ("\n\n" + more);
    assert forall i :: 0 <= i < |frame| ==> text[i] == frame[i] && frame[i] != '\r' && frame[i] != '\n';
    assert text[|frame|] == '\n' && text[|frame| + 1] == '\n';
    FirstIs(text, 0, |frame|);
  }

  lemma {:induction false} PlainLine(text: string, from: nat, i: nat)
    requires from <= i <= |text| && OneLine(text)
    ensures Lines(text, from, i) == [text[from..]]
    decreases |text| - i
  {
    if i < |text| {
      PlainLine(text, from, i + 1);
    }
  }

  lemma EventIsRead(parse: Parse, json: string)
    requires OneLine(json)
    ensures EventOf(parse, "data: " + json) == Some(parse(json))
  {
    var frame := "data: " + json;
    PlainLine(frame, 0, 0);
    assert frame[0..] == frame && frame[0..0 + 5] == "data:" && frame[5..] == " " + json;
    assert (" " + json)[1..] == json;
    assert DataLines([frame]) == [json];
  }

  /** Splitting what the server wrote gives back its events. */
  lemma {:induction false} ServerEventsAreRead(parse: Parse, payloads: seq<string>)
    requires forall k :: 0 <= k < |payloads| ==> OneLine(payloads[k])
    ensures Split(Wire(payloads)).rest == ""
    ensures Events(parse, Split(Wire(payloads)).frames) == Parsed(parse, payloads)
    decreases |payloads|
  {
    if payloads != [] {
      var json, rest := payloads[0], Wire(payloads[1..]);
      EventIsCut(json, rest);
      EventIsRead(parse, json);
      ServerEventsAreRead(parse, payloads[1..]);
      var frames := Split(Wire(payloads)).frames;
      assert frames[0] == "data: " + json && frames[1..] == Split(rest).frames;
    }
  }

  /** Whatever chunks the network makes of the server's events, the client accepts them exactly when
      they are one transcript after at most one confirmation. */
  lemma {:induction false} ServerStreamIsAccepted(parse: Parse, payloads: seq<string>, chunks: seq<string>,
      result: string)
    requires forall k :: 0 <= k < |payloads| ==> OneLine(payloads[k])
    requires Flat(chunks) == Wire(payloads)
    ensures Finish(ReceiveAll(parse, Start(), chunks)) == Some(result) <==>
            Parsed(parse, payloads) == [TranscriptDone(result)] ||
            Parsed(parse, payloads) == [SpeechConfirmed, TranscriptDone(result)]
  {
    ServerEventsAreRead(parse, payloads);
    AcceptedStreams(parse, chunks, result);
  }

  // ----- the reader's variables

  datatype Chunk = Chunk(text: string, bytes: nat)

  class EventReader {
    const parse: Parse
    var bytes: nat
    var pending: string
    var confirmed: bool
    var terminal: Option<string>
    var failed: bool

    ghost function Now(): Reader
      reads this
    {
      if failed then Failed(confirmed) else Reading(pending, confirmed, terminal)
    }

    constructor (parse: Parse)
      ensures this.parse == parse && bytes == 0 && Now() == Start()
    {
      this.parse := parse;
      bytes, pending, confirmed, terminal, failed := 0, "", false, None, false;
    }

    method TakeFrame(frame: string)
      requires !failed
      modifies `confirmed, `terminal, `failed
      ensures Now() == Consume(parse, old(Now()), frame)
    {
      var data := DataLines(Lines(frame, 0, 0));
      if data == [] { return; }
      var event := parse(JoinLines(data));
      if terminal.Some? {
        failed := true;
      } else if event.SpeechConfirmed? {
        if confirmed { failed := true; }
        confirmed := true;
      } else if event.TranscriptDone? {
        terminal := Some(event.text);
      } else {
        failed := true;
      }
    }

    /** One chunk of the response; over the size limit nothing of it is looked at. */
    method TakeChunk(chunk: Chunk)
      requires !failed
      modifies this
      ensures bytes == old(bytes) + chunk.bytes
      ensures Now() == if bytes > MAX_RESPONSE_BYTES then Failed(old(confirmed))
                       else Receive(parse, old(Now()), chunk.text)
    {
      bytes := bytes + chunk.bytes;
      if bytes > MAX_RESPONSE_BYTES {
        failed := true;
        return;
      }
      pending := pending + chunk.text;
      while !failed && FirstSeparator(pending, 0) < |pending|
        invariant Drain(parse, Now()) == Receive(parse, old(Now()), chunk.text)
        invariant bytes == old(bytes) + chunk.bytes
        decreases !failed, |pending|
      {
        var at := FirstSeparator(pending, 0);
        var length := SeparatorAt(pending, at);
        TakeFrame(pending[..at]);
        pending := pending[at + length..];
      }
    }

    method TakeEnd() returns (result: Option<string>)
      requires !failed
      ensures result == Finish(Now())
    {
      result := if |pending| != 0 then None else terminal;
    }
  }
}
