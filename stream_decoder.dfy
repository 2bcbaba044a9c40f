/** The line framing of the streamed chat-completion body in background.js: `push()`
    keeps a carry-over buffer `partialResponse`, appends each decoded chunk to it,
    splits on line feeds, puts the final piece back into the buffer and turns every
    complete `data: ` line into at most one `CHAT_STREAM_CHUNK` message.

    This is a subset of the Server-Sent Events framing of the WHATWG HTML Standard,
    section 9.2: no carriage-return handling, no `event:`/`id:` fields, no joining of
    multi-line data, and the space after the colon is required. */
module StreamDecoder {
  import opened Text
  import opened Wire

  /** What `JSON.parse(payload)` followed by reading `parsed.choices[0]?.delta?.content`
      gives: a thrown error (also a `TypeError` on a `null` document), no content
      field, or the content text. */
  datatype ParseOutcome = ParseFailed | NoContent | Content(text: string)

  /** JSON parsing and field extraction are not modelled; they are supplied as a function. */
  type Parser = string -> ParseOutcome

  /** Framing result: the complete lines and what stays in the carry-over buffer. */
  datatype Framed = Framed(lines: seq<string>, rest: string)

  // ---------------------------------------------------------------------------
  // Splitting

  /** Index of the first line feed. */
  function FirstNewline(s: string): (i: nat)
    requires '\n' in s
    ensures i < |s| && s[i] == '\n' && '\n' !in s[..i]
  {
    if s[0] == '\n' then 0
    else
      assert s == [s[0]] + s[1..];
      var j := FirstNewline(s[1..]);
      assert s[..j + 1] == [s[0]] + s[1..][..j];
      j + 1
  }

  /** `s.split('\n')`: the pieces between line feeds, always at least one. */
  function Split(s: string): (parts: seq<string>)
    ensures |parts| >= 1
    decreases |s|
  {
    if '\n' !in s then [s]
    else
      var i := FirstNewline(s);
      [s[..i]] + Split(s[i + 1..])
  }

  /** No piece of a split holds a line feed. */
  lemma {:induction false} SplitPiecesClean(s: string)
    ensures forall k :: 0 <= k < |Split(s)| ==> '\n' !in Split(s)[k]
    decreases |s|
  {
    if '\n' in s {
      var i := FirstNewline(s);
      SplitPiecesClean(s[i + 1..]);
      assert Split(s) == [s[..i]] + Split(s[i + 1..]);
    }
  }

  /** Where the first line feed is, a split cuts. */
  lemma SplitAt(s: string, n: nat)
    requires n < |s| && s[n] == '\n' && '\n' !in s[..n]
    ensures Split(s) == [s[..n]] + Split(s[n + 1..])
  {
  }

  /** A line-feed-free piece followed by a line feed is split off first. */
  lemma SplitCons(x: string, t: string)
    requires '\n' !in x
    ensures Split(x + "\n" + t) == [x] + Split(t)
  {
    var s := x + "\n" + t;
    assert s[..|x|] == x;
    assert s[|x| + 1..] == t;
    assert s[|x|] == '\n';
    SplitAt(s, |x|);
  }

  /** Every line followed by its line feed. */
  function Terminated(lines: seq<string>): string {
    if lines == [] then "" else lines[0] + "\n" + Terminated(lines[1..])
  }

  lemma {:induction false} TerminatedAppend(a: seq<string>, b: seq<string>)
    ensures Terminated(a + b) == Terminated(a) + Terminated(b)
  {
    if a != [] {
      assert (a + b)[1..] == a[1..] + b;
      TerminatedAppend(a[1..], b);
    } else {
      assert a + b == b;
    }
  }

  /** The pieces of a split, put back together with their line feeds, give the input. */
  lemma {:induction false} SplitRestores(s: string)
    ensures var parts := Split(s);
      Terminated(parts[..|parts| - 1]) + parts[|parts| - 1] == s
    decreases |s|
  {
    if '\n' in s {
      var i := FirstNewline(s);
      var x, t := s[..i], s[i + 1..];
      CutAt(s, i);
      SplitCons(x, t);
      SplitRestores(t);
      RestoreCons(x, Split(t));
    }
  }

  lemma CutAt(s: string, i: nat)
    requires i < |s| && s[i] == '\n'
    ensures s == s[..i] + "\n" + s[i + 1..]
  {
  }

  /** The last piece and the ones before it, after one more piece in front. */
  lemma PopCons(x: string, tail: seq<string>)
    requires |tail| >= 1
    ensures ([x] + tail)[..|tail|] == [x] + tail[..|tail| - 1]
    ensures ([x] + tail)[|tail|] == tail[|tail| - 1]
  {
  }

  /** Putting back a split with one more piece in front. */
  lemma RestoreCons(x: string, tail: seq<string>)
    requires |tail| >= 1
    ensures var parts := [x] + tail;
      Terminated(parts[..|parts| - 1]) + parts[|parts| - 1]
        == x + "\n" + (Terminated(tail[..|tail| - 1]) + tail[|tail| - 1])
  {
    var init := tail[..|tail| - 1];
    PopCons(x, tail);
    assert ([x] + init)[1..] == init;
    assert Terminated([x] + init) == x + "\n" + Terminated(init);
  }

  /** A split finds exactly the line-feed-free pieces a string was built from. */
  lemma {:induction false} SplitOfTerminated(lines: seq<string>, rest: string)
    requires forall k :: 0 <= k < |lines| ==> '\n' !in lines[k]
    requires '\n' !in rest
    ensures Split(Terminated(lines) + rest) == lines + [rest]
  {
    if lines == [] {
      assert Terminated(lines) + rest == rest;
    } else {
      var tail := Terminated(lines[1..]) + rest;
      assert Terminated(lines) + rest == lines[0] + "\n" + tail;
      SplitCons(lines[0], tail);
      SplitOfTerminated(lines[1..], rest);
      assert lines == [lines[0]] + lines[1..];
    }
  }

  /** One `push()` on decoded text: append to the buffer, split, and pop the last
      piece back into the buffer. */
  function Step(buffer: string, text: string): Framed {
    var parts := Split(buffer + text);
    Framed(parts[..|parts| - 1], parts[|parts| - 1])
  }

  /** After a step the buffer holds no line feed, no complete line holds one, and the
      complete lines with their line feeds followed by the buffer are the text so far. */
  lemma StepAccounts(buffer: string, text: string)
    ensures var f := Step(buffer, text);
      && '\n' !in f.rest
      && (forall k :: 0 <= k < |f.lines| ==> '\n' !in f.lines[k])
      && Terminated(f.lines) + f.rest == buffer + text
  {
    SplitRestores(buffer + text);
    SplitPiecesClean(buffer + text);
  }

  // ---------------------------------------------------------------------------
  // A character-at-a-time reference for the framing

  /** The framing as a state machine over characters: the state is the buffer; a line
      feed emits the buffer as a line and empties it, any other character is appended. */
  function Scan(buffer: string, text: string): (f: Framed)
    decreases |text|
  {
    if text == [] then Framed([], buffer)
    else if text[0] == '\n' then
      var g := Scan("", text[1..]);
      Framed([buffer] + g.lines, g.rest)
    else Scan(buffer + [text[0]], text[1..])
  }

  /** Feeding `a + b` to the state machine is feeding `a`, then `b` from the state reached. */
  lemma {:induction false} ScanAppend(buffer: string, a: string, b: string)
    ensures var f := Scan(buffer, a); var g := Scan(f.rest, b);
      Scan(buffer, a + b) == Framed(f.lines + g.lines, g.rest)
    decreases |a|
  {
    if a == [] {
      assert a + b == b;
    } else {
      assert (a + b)[0] == a[0];
      assert (a + b)[1..] == a[1..] + b;
      if a[0] == '\n' {
        ScanAppend("", a[1..], b);
      } else {
        ScanAppend(buffer + [a[0]], a[1..], b);
      }
    }
  }

  /** Split-and-pop, as `push()` does it, agrees with the character state machine
      whenever the buffer holds no line feed. */
  lemma {:induction false} StepIsScan(buffer: string, text: string)
    requires '\n' !in buffer
    ensures Step(buffer, text) == Scan(buffer, text)
    decreases |text|
  {
    if text == [] {
      assert buffer + text == buffer;
    } else if text[0] == '\n' {
      assert text == "\n" + text[1..];
      StepNewline(buffer, text[1..]);
      StepIsScan("", text[1..]);
    } else {
      var next := buffer + [text[0]];
      assert buffer + text == next + text[1..];
      NoNewlineSnoc(buffer, text[0]);
      StepIsScan(next, text[1..]);
    }
  }

  /** A line feed at the front of the text completes the buffer as a line. */
  lemma StepNewline(buffer: string, rest: string)
    requires '\n' !in buffer
    ensures Step(buffer, "\n" + rest) == Framed([buffer] + Step("", rest).lines, Step("", rest).rest)
  {
    var s := buffer + ("\n" + rest);
    assert s == buffer + "\n" + rest;
    SplitCons(buffer, rest);
    var tail := Split(rest);
    var parts := Split(s);
    assert parts == [buffer] + tail;
    assert |parts| - 1 == |tail|;
    PopCons(buffer, tail);
    assert "" + rest == rest;
    assert Step("", rest) == Framed(tail[..|tail| - 1], tail[|tail| - 1]);
    assert Step(buffer, "\n" + rest) == Framed(parts[..|tail|], parts[|tail|]);
  }

  lemma NoNewlineSnoc(buffer: string, c: char)
    requires '\n' !in buffer && c != '\n'
    ensures '\n' !in buffer + [c]
  {
    var next := buffer + [c];
    assert forall j :: 0 <= j < |next| ==> next[j] == if j < |buffer| then buffer[j] else c;
  }

  // ---------------------------------------------------------------------------
  // A whole stream

  /** The text of all chunks received, in order. */
  function Concat(chunks: seq<string>): string {
    if chunks == [] then "" else Concat(chunks[..|chunks| - 1]) + chunks[|chunks| - 1]
  }

  /** `push()` called once per chunk, starting from the given buffer. */
  function Feed(buffer: string, chunks: seq<string>): (f: Framed)
  {
    if chunks == [] then Framed([], buffer)
    else
      var f := Feed(buffer, chunks[..|chunks| - 1]);
      var g := Step(f.rest, chunks[|chunks| - 1]);
      Framed(f.lines + g.lines, g.rest)
  }

  /** Feeding one more chunk is one more `push()`. */
  lemma FeedSnoc(buffer: string, chunks: seq<string>, text: string)
    ensures var f := Feed(buffer, chunks); var g := Step(f.rest, text);
      Feed(buffer, chunks + [text]) == Framed(f.lines + g.lines, g.rest)
  {
    assert (chunks + [text])[..|chunks|] == chunks;
  }

  /** Chunk-boundary independence of the framing: feeding the chunks one at a time gives
      the same lines and the same buffer as feeding their concatenation in one chunk. */
  lemma {:induction false} FeedIsStepOfConcat(buffer: string, chunks: seq<string>)
    requires '\n' !in buffer
    ensures Feed(buffer, chunks) == Step(buffer, Concat(chunks))
  {
    if chunks == [] {
      assert buffer + "" == buffer;
      assert Split(buffer) == [buffer];
    } else {
      var init, last := chunks[..|chunks| - 1], chunks[|chunks| - 1];
      FeedIsStepOfConcat(buffer, init);
      var f := Feed(buffer, init);
      StepIsScan(buffer, Concat(init));
      StepAccounts(buffer, Concat(init));
      StepIsScan(f.rest, last);
      ScanAppend(buffer, Concat(init), last);
      StepIsScan(buffer, Concat(chunks));
    }
  }

  /** After every chunk the buffer holds no line feed, and the complete lines, each with
      its line feed, followed by the buffer, are exactly the text received. */
  lemma FeedAccountsForAllText(chunks: seq<string>)
    ensures '\n' !in Feed("", chunks).rest
    ensures forall k :: 0 <= k < |Feed("", chunks).lines| ==> '\n' !in Feed("", chunks).lines[k]
    ensures Terminated(Feed("", chunks).lines) + Feed("", chunks).rest == Concat(chunks)
  {
    FeedIsStepOfConcat("", chunks);
    StepAccounts("", Concat(chunks));
    assert "" + Concat(chunks) == Concat(chunks);
  }

  // ---------------------------------------------------------------------------
  // Classifying complete lines

  const DataPrefix: string := "data: "
  const DoneSentinel: string := "[DONE]"

  /** How `lines.forEach` treats one complete line. */
  datatype LineKind =
    | NotData                    // does not start with `data: `: ignored
    | DoneMarker                 // payload `[DONE]`: ignored
    | Malformed(payload: string) // JSON.parse threw: logged and skipped
    | NoDelta                    // no content, or empty content: nothing sent
    | Delta(text: string)        // non-empty content: one chunk message

  function Classify(parse: Parser, line: string): LineKind {
    if !StartsWith(line, DataPrefix) then NotData
    else
      var payload := line[|DataPrefix|..];
      if payload == DoneSentinel then DoneMarker
      else match parse(payload)
        case ParseFailed => Malformed(payload)
        case NoContent => NoDelta
        case Content(t) => if t == "" then NoDelta else Delta(t)
  }

  /** A line yields a chunk exactly when it is a `data: ` line whose payload, the line
      without its first six characters, is not `[DONE]` and parses to non-empty content. */
  lemma DeltaExactly(parse: Parser, line: string, t: string)
    ensures Classify(parse, line) == Delta(t) <==>
      && |line| >= 6 && line[..6] == "data: "
      && line[6..] != "[DONE]"
      && parse(line[6..]) == Content(t)
      && t != ""
  {
  }

  /** The messages one line causes. */
  function LineEvents(id: string, parse: Parser, line: string): seq<Event> {
    match Classify(parse, line)
    case Delta(t) => [ChatStreamChunk(id, t)]
    case _ => []
  }

  /** The messages `lines.forEach` sends for a batch of complete lines: only chunk
      messages, all for the stream's message id, none with empty text. */
  function Events(id: string, parse: Parser, lines: seq<string>): seq<Event> {
    if lines == [] then [] else LineEvents(id, parse, lines[0]) + Events(id, parse, lines[1..])
  }

  /** Only chunk messages come out of a batch, at most one per line, all for the
      stream's message id and none with empty text. */
  lemma {:induction false} EventsAreChunks(id: string, parse: Parser, lines: seq<string>)
    ensures |Events(id, parse, lines)| <= |lines|
    ensures forall e :: e in Events(id, parse, lines) ==> e.ChatStreamChunk? && e.messageId == id && e.chunk != ""
  {
    if lines != [] {
      EventsAreChunks(id, parse, lines[1..]);
    }
  }

  /** Lines are handled one by one, in order, independently of each other. */
  lemma {:induction false} EventsAppend(id: string, parse: Parser, a: seq<string>, b: seq<string>)
    ensures Events(id, parse, a + b) == Events(id, parse, a) + Events(id, parse, b)
  {
    if a == [] {
      assert a + b == b;
    } else {
      assert (a + b)[0] == a[0];
      assert (a + b)[1..] == a[1..] + b;
      EventsAppend(id, parse, a[1..], b);
    }
  }

  /** A line that yields no chunk (not `data: `, `[DONE]`, empty content or a payload that
      fails to parse) can be dropped without changing what the neighbouring lines yield:
      a malformed line does not stop the rest of the batch. */
  lemma SilentLineDroppable(id: string, parse: Parser, a: seq<string>, line: string, b: seq<string>)
    requires !Classify(parse, line).Delta?
    ensures Events(id, parse, a + [line] + b) == Events(id, parse, a + b)
  {
    var one := Events(id, parse, [line]);
    assert one == [] by {
      assert [line][1..] == [] && [line][0] == line;
      assert LineEvents(id, parse, line) == [];
      assert one == LineEvents(id, parse, [line][0]) + Events(id, parse, [line][1..]);
    }
    EventsAppend(id, parse, a, [line]);
    EventsAppend(id, parse, a + [line], b);
    EventsAppend(id, parse, a, b);
  }

  /** Every chunk sent comes, in order, from some line of the batch that classifies as a delta. */
  lemma {:induction false} EventsComeFromDeltaLines(id: string, parse: Parser, lines: seq<string>, k: nat)
    requires k < |Events(id, parse, lines)|
    ensures exists i, t ::
      && 0 <= i < |lines|
      && Classify(parse, lines[i]) == Delta(t)
      && Events(id, parse, lines)[k] == ChatStreamChunk(id, t)
  {
    var head := LineEvents(id, parse, lines[0]);
    var es := Events(id, parse, lines);
    if k < |head| {
      assert es[k] == head[k];
      assert Classify(parse, lines[0]) == Delta(es[k].chunk);
    } else {
      EventsComeFromDeltaLines(id, parse, lines[1..], k - |head|);
      assert es[k] == Events(id, parse, lines[1..])[k - |head|];
      var i, t :| 0 <= i < |lines[1..]| && Classify(parse, lines[1..][i]) == Delta(t)
        && Events(id, parse, lines[1..])[k - |head|] == ChatStreamChunk(id, t);
      assert lines[i + 1] == lines[1..][i];
    }
  }

  /** Everything sent for a stream that ends normally: the start message, one chunk
      per delta line, and one end message. */
  function Transcript(id: string, parse: Parser, chunks: seq<string>): seq<Event> {
    [ChatStreamStart(id)] + Events(id, parse, Feed("", chunks).lines) + [ChatStreamEnd(id, false)]
  }

  /** The transcript opens with the start message, every middle message is a chunk for
      the stream's id, and exactly one end message closes it. */
  lemma TranscriptShape(id: string, parse: Parser, chunks: seq<string>)
    ensures var t := Transcript(id, parse, chunks);
      && |t| >= 2
      && t[0] == ChatStreamStart(id)
      && t[|t| - 1] == ChatStreamEnd(id, false)
      && (forall k :: 0 < k < |t| - 1 ==> t[k].ChatStreamChunk? && t[k].messageId == id)
      && (forall k :: 0 <= k < |t| - 1 ==> !t[k].ChatStreamEnd?)
  {
    var es := Events(id, parse, Feed("", chunks).lines);
    EventsAreChunks(id, parse, Feed("", chunks).lines);
    var t := Transcript(id, parse, chunks);
    assert forall k :: 0 < k < |t| - 1 ==> t[k] == es[k - 1];
  }

  /** However the body is cut into chunks, the same messages are sent. */
  lemma ChunkBoundaryIndependence(id: string, parse: Parser, chunks: seq<string>)
    ensures Transcript(id, parse, chunks) == Transcript(id, parse, [Concat(chunks)])
  {
    FeedIsStepOfConcat("", chunks);
    FeedIsStepOfConcat("", [Concat(chunks)]);
    assert [Concat(chunks)][..0] == [];
    assert Concat([Concat(chunks)]) == Concat(chunks);
  }

  /** Text after the last line feed is never sent: appending an unterminated fragment
      to a stream changes nothing that is emitted before the end message. */
  lemma UnterminatedTailNeverSent(id: string, parse: Parser, chunks: seq<string>, tail: string)
    requires '\n' !in tail
    ensures Transcript(id, parse, chunks + [tail]) == Transcript(id, parse, chunks)
  {
    var all := chunks + [tail];
    assert all[..|all| - 1] == chunks;
    var f := Feed("", chunks);
    FeedAccountsForAllText(chunks);
    SplitOfTerminated([], f.rest + tail);
    assert Terminated([]) + (f.rest + tail) == f.rest + tail;
    assert Step(f.rest, tail).lines == [];
    assert f.lines + [] == f.lines;
  }

  // ---------------------------------------------------------------------------
  // The reader loop as state

  /** What has been sent while the stream is open. */
  function Sent(id: string, parse: Parser, chunks: seq<string>): seq<Event> {
    [ChatStreamStart(id)] + Events(id, parse, Feed("", chunks).lines)
  }

  lemma SentSnoc(id: string, parse: Parser, chunks: seq<string>, text: string)
    ensures var f := Step(Feed("", chunks).rest, text);
      && Feed("", chunks + [text]).rest == f.rest
      && Sent(id, parse, chunks + [text]) == Sent(id, parse, chunks) + Events(id, parse, f.lines)
  {
    var f := Step(Feed("", chunks).rest, text);
    var lines := Feed("", chunks).lines;
    FeedSnoc("", chunks, text);
    EventsAppend(id, parse, lines, f.lines);
    var a, b, c := [ChatStreamStart(id)], Events(id, parse, lines), Events(id, parse, f.lines);
    assert Sent(id, parse, chunks + [text]) == a + (b + c);
    assert a + (b + c) == (a + b) + c;
  }

  /** The state `push()` closes over: the stream's message id, the carry-over buffer and
      the messages sent so far. `chunks` and `ending` record, for the proof, the chunk
      texts received and the closing messages. */
  class StreamReader {
    const messageId: string
    const parse: Parser
    var partialResponse: string
    var outbox: seq<Event>
    var finished: bool
    ghost var chunks: seq<string>
    ghost var ending: seq<Event>

    ghost predicate Valid()
      reads this
    {
      && partialResponse == Feed("", chunks).rest
      && outbox == Sent(messageId, parse, chunks) + ending
      && (finished <==> ending != [])
    }

    /** The response is OK: `partialResponse` starts empty and the start message goes out. */
    constructor (messageId: string, parse: Parser)
      ensures Valid() && !finished
      ensures this.messageId == messageId && this.parse == parse
      ensures chunks == [] && partialResponse == ""
      ensures outbox == [ChatStreamStart(messageId)]
    {
      this.messageId := messageId;
      this.parse := parse;
      partialResponse := "";
      outbox := [ChatStreamStart(messageId)];
      finished := false;
      chunks := [];
      ending := [];
    }

    /** `reader.read()` resolved with `done == false` and a chunk decoding to `text`. */
    method Push(text: string)
      requires Valid() && !finished
      modifies this
      ensures Valid() && !finished
      ensures chunks == old(chunks) + [text]
      ensures partialResponse == Step(old(partialResponse), text).rest
      ensures '\n' !in partialResponse
      ensures outbox == old(outbox) + Events(messageId, parse, Step(old(partialResponse), text).lines)
    {
      var framed := Step(partialResponse, text);
      StepAccounts(partialResponse, text);
      SentSnoc(messageId, parse, chunks, text);
      assert outbox == Sent(messageId, parse, chunks);
      partialResponse := framed.rest;
      SendChunks(framed.lines);
      chunks := chunks + [text];
      assert outbox == Sent(messageId, parse, chunks) + ending;
    }

    /** `lines.forEach(...)`: one chunk message per delta line, in order. */
    method SendChunks(lines: seq<string>)
      modifies this`outbox
      ensures outbox == old(outbox) + Events(messageId, parse, lines)
    {
      var i := 0;
      while i < |lines|
        invariant 0 <= i <= |lines|
        invariant outbox == old(outbox) + Events(messageId, parse, lines[..i])
      {
        var kind := Classify(parse, lines[i]);
        if kind.Delta? {
          outbox := outbox + [ChatStreamChunk(messageId, kind.text)];
        }
        EventsAppend(messageId, parse, lines[..i], [lines[i]]);
        assert lines[..i + 1] == lines[..i] + [lines[i]];
        i := i + 1;
      }
      assert lines[..|lines|] == lines;
    }

    /** `reader.read()` resolved with `done == true`: the end message goes out and
        whatever is left in the buffer is dropped. */
    method Done()
      requires Valid() && !finished
      modifies this
      ensures Valid() && finished
      ensures chunks == old(chunks) && partialResponse == old(partialResponse)
      ensures outbox == old(outbox) + [ChatStreamEnd(messageId, false)]
      ensures outbox == Transcript(messageId, parse, chunks)
    {
      outbox := outbox + [ChatStreamEnd(messageId, false)];
      ending := [ChatStreamEnd(messageId, false)];
      finished := true;
    }

    /** `reader.read()` rejected: an error message and an end message flagged as an error. */
    method ReadFailed(error: string)
      requires Valid() && !finished
      modifies this
      ensures Valid() && finished
      ensures chunks == old(chunks) && partialResponse == old(partialResponse)
      ensures outbox == old(outbox) + [ChatError(error), ChatStreamEnd(messageId, true)]
    {
      outbox := outbox + [ChatError(error), ChatStreamEnd(messageId, true)];
      ending := [ChatError(error), ChatStreamEnd(messageId, true)];
      finished := true;
    }
  }
}
