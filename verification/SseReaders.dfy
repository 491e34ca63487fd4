/** The two other SSE readers: `iter_sse_frames` of the chat client and `_parse_sse_blocks` of
    the live runner, and where they agree with the parser of testkit/sse.py. */
module SseReaders {
  import opened Common
  import opened Sse
  import opened SseRoundTrip

  // ---------------------------------------------------------------- Python's text primitives

  /** The separators of `str.splitlines`. */
  predicate IsLineBreak(c: char) {
    var n := c as int;
    10 <= n <= 13 || 28 <= n <= 30 || n == 0x85 || n == 0x2028 || n == 0x2029
  }

  function LStrip(s: string): string {
    if s != [] && IsSpace(s[0]) then LStrip(s[1..]) else s
  }

  function RStrip(s: string): string {
    if s != [] && IsSpace(s[|s| - 1]) then RStrip(s[..|s| - 1]) else s
  }

  function Strip(s: string): string {
    RStrip(LStrip(s))
  }

  predicate StartsWith(s: string, prefix: string) {
    prefix <= s
  }

  /** Length of the first line of `s` without its separator. */
  function LineLength(s: string): (n: nat)
    ensures n <= |s|
  {
    if s == [] || IsLineBreak(s[0]) then 0 else 1 + LineLength(s[1..])
  }

  /** `str.splitlines()`. */
  function PyLines(s: string): seq<string>
    decreases |s|
  {
    if s == [] then []
    else
      var n := LineLength(s);
      if n == |s| then [s]
      else if s[n] == '\r' && n + 1 < |s| && s[n + 1] == '\n' then [s[..n]] + PyLines(s[n + 2..])
      else [s[..n]] + PyLines(s[n + 1..])
  }

  // ---------------------------------------------------------------- the chat client

  /** A chat frame: the joined data and the integer id, when the `id:` line held one. */
  datatype ChatFrame = ChatFrame(data: string, eventId: Option<int>)

  datatype ChatState = ChatState(dataLines: seq<string>, eventId: Option<int>)

  const ChatStart := ChatState([], None)

  type ToInt = string -> Option<int>

  function ChatLine(st: ChatState, line: string, toInt: ToInt): ChatState {
    if StartsWith(line, ":") then st
    else if StartsWith(line, "id:") then
      var n := toInt(Strip(line[3..]));
      if n.Some? then st.(eventId := n) else st
    else if StartsWith(line, "data:") then st.(dataLines := st.dataLines + [LStrip(line[5..])])
    else if line == [] && st.dataLines != [] then ChatStart
    else st
  }

  function ChatYield(st: ChatState): seq<ChatFrame> {
    if st.dataLines == [] then [] else [ChatFrame(Join(st.dataLines), st.eventId)]
  }

  /** The frames completed by blank lines, and where the reader stands after them. */
  datatype ChatRun = ChatRun(frames: seq<ChatFrame>, st: ChatState)

  function ChatThen(frames: seq<ChatFrame>, r: ChatRun): ChatRun {
    ChatRun(frames + r.frames, r.st)
  }

  function ChatRead(st: ChatState, lines: seq<string>, toInt: ToInt): ChatRun
    decreases |lines|
  {
    if lines == [] then ChatRun([], st)
    else if lines[0] == [] then ChatThen(ChatYield(st), ChatRead(ChatLine(st, lines[0], toInt), lines[1..], toInt))
    else ChatRead(ChatLine(st, lines[0], toInt), lines[1..], toInt)
  }

  /** All frames of a body; `clean` says whether it ended without a transport error, in which
      case an unterminated frame is yielded too. */
  function ChatBody(lines: seq<string>, clean: bool, toInt: ToInt): seq<ChatFrame> {
    var r := ChatRead(ChatStart, lines, toInt);
    if clean then r.frames + ChatYield(r.st) else r.frames
  }

  /** The body of the reading loop of `iter_sse_frames`. */
  method ReadChatLine(st: ChatState, line: string, toInt: ToInt) returns (yielded: seq<ChatFrame>, st': ChatState)
    ensures yielded == (if line == [] then ChatYield(st) else []) && st' == ChatLine(st, line, toInt)
  {
    var dataLines, eventId := st.dataLines, st.eventId;
    yielded := [];
    if StartsWith(line, ":") {
    } else if StartsWith(line, "id:") {
      var n := toInt(Strip(line[3..]));
      if n.Some? {
        eventId := n;
      }
    } else if StartsWith(line, "data:") {
      dataLines := dataLines + [LStrip(line[5..])];
    } else if line == [] && dataLines != [] {
      yielded := [ChatFrame(Join(dataLines), eventId)];
      dataLines, eventId := [], None;
    }
    st' := ChatState(dataLines, eventId);
  }

  /** `iter_sse_frames`. */
  method IterSseFrames(lines: seq<string>, clean: bool, toInt: ToInt) returns (frames: seq<ChatFrame>)
    ensures frames == ChatBody(lines, clean, toInt)
  {
    var st := ChatStart;
    frames := [];
    assert lines[0..] == lines;
    for i := 0 to |lines|
      invariant ChatThen(frames, ChatRead(st, lines[i..], toInt)) == ChatRead(ChatStart, lines, toInt)
    {
      ghost var rest := lines[i..];
      assert rest[0] == lines[i] && rest[1..] == lines[i + 1..];
      var yielded;
      yielded, st := ReadChatLine(st, lines[i], toInt);
      frames := frames + yielded;
    }
    assert lines[|lines|..] == [];
    if clean {
      frames := frames + ChatYield(st);
    }
  }

  /** The complete lines of a text, and what follows the last of them. */
  function TextLines(text: string): (seq<string>, string)
    decreases |text|
  {
    match FirstLine(text)
    case None => ([], text)
    case Some((line, rest)) => var (lines, left) := TextLines(rest); ([line] + lines, left)
  }

  // ---------------------------------------------------------------- the live runner

  /** A parsed JSON object: its text and the SSE id, when the block had one. */
  datatype LiveEvent = LiveEvent(data: string, sseId: Option<string>)

  type IsObject = string -> bool

  /** Length of a match of `\r?\n\r?\n` at the start of `s`, 0 when there is none. */
  function SeparatorLength(s: string): (n: nat)
    ensures n <= |s|
  {
    var i := if |s| > 0 && s[0] == '\r' then 1 else 0;
    if i < |s| && s[i] == '\n' then
      var j := if i + 1 < |s| && s[i + 1] == '\r' then i + 2 else i + 1;
      if j < |s| && s[j] == '\n' then j + 1 else 0
    else 0
  }

  /** The text before the first separator and after it. */
  function FirstBlock(s: string): (r: Option<(string, string)>)
    ensures r.Some? ==> |r.value.1| < |s|
  {
    if s == [] then None
    else
      var n := SeparatorLength(s);
      if n > 0 then Some(([], s[n..]))
      else
        match FirstBlock(s[1..])
        case None => None
        case Some((block, rest)) => Some(([s[0]] + block, rest))
  }

  function SplitBlocks(s: string): (seq<string>, string)
    decreases |s|
  {
    match FirstBlock(s)
    case None => ([], s)
    case Some((block, rest)) => var (blocks, left) := SplitBlocks(rest); ([block] + blocks, left)
  }

  /** The events of a block's lines, given the id seen so far. */
  function LineEvents(lines: seq<string>, sseId: Option<string>, isObject: IsObject): seq<LiveEvent>
    decreases |lines|
  {
    if lines == [] then []
    else
      var line := lines[0];
      if StartsWith(line, "id:") then
        var id := Strip(line[3..]);
        LineEvents(lines[1..], if id == [] then None else Some(id), isObject)
      else if StartsWith(line, "data:") then
        var raw := Strip(line[5..]);
        (if raw != [] && isObject(raw) then [LiveEvent(raw, sseId)] else []) + LineEvents(lines[1..], sseId, isObject)
      else LineEvents(lines[1..], sseId, isObject)
  }

  function BlockEvents(block: string, isObject: IsObject): seq<LiveEvent> {
    var trimmed := Strip(block);
    if trimmed == [] || trimmed[0] == ':' then [] else LineEvents(PyLines(trimmed), None, isObject)
  }

  function AllEvents(blocks: seq<string>, isObject: IsObject): seq<LiveEvent> {
    if blocks == [] then [] else BlockEvents(blocks[0], isObject) + AllEvents(blocks[1..], isObject)
  }

  /** The events of the complete blocks of a buffer and what is left of it. */
  datatype LiveParsed = LiveParsed(events: seq<LiveEvent>, rest: string)

  function ParseBlocks(buffer: string, isObject: IsObject): LiveParsed
    decreases |buffer|
  {
    match FirstBlock(buffer)
    case None => LiveParsed([], buffer)
    case Some((block, rest)) => LiveThen(BlockEvents(block, isObject), ParseBlocks(rest, isObject))
  }

  lemma {:induction false} ParseIsSplit(buffer: string, isObject: IsObject)
    ensures ParseBlocks(buffer, isObject) == LiveParsed(AllEvents(SplitBlocks(buffer).0, isObject), SplitBlocks(buffer).1)
    decreases |buffer|
  {
    if FirstBlock(buffer).Some? {
      var (block, rest) := FirstBlock(buffer).value;
      ParseIsSplit(rest, isObject);
      assert SplitBlocks(buffer).0[1..] == SplitBlocks(rest).0;
    }
  }

  function LiveThen(events: seq<LiveEvent>, r: LiveParsed): LiveParsed {
    LiveParsed(events + r.events, r.rest)
  }

  /** The inner loop of `_parse_sse_blocks`. */
  method ReadBlockLines(lines: seq<string>, isObject: IsObject) returns (events: seq<LiveEvent>)
    ensures events == LineEvents(lines, None, isObject)
  {
    var sseId: Option<string> := None;
    events := [];
    assert lines[0..] == lines;
    for k := 0 to |lines|
      invariant events + LineEvents(lines[k..], sseId, isObject) == LineEvents(lines, None, isObject)
    {
      ghost var below := lines[k..];
      assert below[0] == lines[k] && below[1..] == lines[k + 1..];
      var line := lines[k];
      if StartsWith(line, "id:") {
        var id := Strip(line[3..]);
        sseId := if id == [] then None else Some(id);
      } else if StartsWith(line, "data:") {
        var raw := Strip(line[5..]);
        if raw != [] && isObject(raw) {
          events := events + [LiveEvent(raw, sseId)];
        }
      }
    }
  }

  method ReadBlock(block: string, isObject: IsObject) returns (events: seq<LiveEvent>)
    ensures events == BlockEvents(block, isObject)
  {
    var trimmed := Strip(block);
    if trimmed == [] || trimmed[0] == ':' {
      return [];
    }
    events := ReadBlockLines(PyLines(trimmed), isObject);
  }

  lemma {:induction false} AllEventsAppend(xs: seq<string>, ys: seq<string>, isObject: IsObject)
    ensures AllEvents(xs + ys, isObject) == AllEvents(xs, isObject) + AllEvents(ys, isObject)
  {
    if xs == [] {
      assert xs + ys == ys;
    } else {
      assert (xs + ys)[1..] == xs[1..] + ys;
      AllEventsAppend(xs[1..], ys, isObject);
    }
  }

  /** `_parse_sse_blocks`. */
  method ParseSseBlocks(buffer: string, isObject: IsObject) returns (events: seq<LiveEvent>, rest: string)
    ensures LiveParsed(events, rest) == ParseBlocks(buffer, isObject)
  {
    ParseIsSplit(buffer, isObject);
    var (blocks, left) := SplitBlocks(buffer);
    events := ReadBlocks(blocks, isObject);
    rest := left;
  }

  /** The outer loop of `_parse_sse_blocks`. */
  method ReadBlocks(blocks: seq<string>, isObject: IsObject) returns (events: seq<LiveEvent>)
    ensures events == AllEvents(blocks, isObject)
  {
    events := [];
    for i := 0 to |blocks|
      invariant events == AllEvents(blocks[..i], isObject)
    {
      AllEventsSnoc(blocks, i, isObject);
      var found := ReadBlock(blocks[i], isObject);
      events := events + found;
    }
    assert blocks[..|blocks|] == blocks;
  }

  lemma {:induction false} AllEventsSnoc(blocks: seq<string>, i: nat, isObject: IsObject)
    requires i < |blocks|
    ensures AllEvents(blocks[..i + 1], isObject) == AllEvents(blocks[..i], isObject) + BlockEvents(blocks[i], isObject)
  {
    assert blocks[..i + 1] == blocks[..i] + [blocks[i]];
    AllEventsAppend(blocks[..i], [blocks[i]], isObject);
    assert AllEvents([blocks[i]], isObject) == BlockEvents(blocks[i], isObject) + AllEvents([blocks[i]][1..], isObject);
    assert [blocks[i]][1..] == [];
  }

  // ---------------------------------------------------------------- chunks

  /** The separator is decided by four characters. */
  lemma {:induction false} SeparatorDecided(s: string, more: string)
    requires |s| >= 4
    ensures SeparatorLength(s + more) == SeparatorLength(s)
  {
    assert (s + more)[0] == s[0] && (s + more)[1] == s[1] && (s + more)[2] == s[2] && (s + more)[3] == s[3];
  }

  lemma {:induction false} SeparatorFound(s: string, more: string)
    requires SeparatorLength(s) > 0
    ensures SeparatorLength(s + more) == SeparatorLength(s)
  {
    assert forall i :: 0 <= i < |s| ==> (s + more)[i] == s[i];
  }

  lemma {:induction false} BlockHasTwo(s: string)
    requires FirstBlock(s).Some?
    ensures |s| >= 2
  {
  }

  /** A short text whose separator comes later does not start with one, whatever follows. */
  lemma {:induction false} ShortBlock(s: string, more: string)
    requires s != [] && |s| <= 3 && SeparatorLength(s) == 0 && FirstBlock(s[1..]).Some?
    ensures SeparatorLength(s + more) == 0
  {
    var t := s[1..];
    BlockHasTwo(t);
    assert |s| == 3 && t == [s[1], s[2]];
    if SeparatorLength(t) == 0 {
      BlockHasTwo(t[1..]);
    }
    assert s[1] == '\n' && s[2] == '\n';
    assert (s + more)[0] == s[0] && (s + more)[1] == s[1] && (s + more)[2] == s[2];
  }

  lemma {:induction false} FirstBlockExtends(s: string, more: string)
    requires FirstBlock(s).Some?
    ensures FirstBlock(s + more) == Some((FirstBlock(s).value.0, FirstBlock(s).value.1 + more))
    decreases |s|
  {
    var n := SeparatorLength(s);
    if n > 0 {
      SeparatorFound(s, more);
      assert (s + more)[n..] == s[n..] + more;
    } else {
      if |s| >= 4 {
        SeparatorDecided(s, more);
      } else {
        ShortBlock(s, more);
      }
      assert (s + more)[1..] == s[1..] + more && (s + more)[0] == s[0];
      FirstBlockExtends(s[1..], more);
    }
  }

  /** The runner's reading loop: append a chunk, parse, keep the rest. */
  function LiveFeed(chunks: seq<string>, buffer: string, isObject: IsObject): LiveParsed {
    if chunks == [] then ParseBlocks(buffer, isObject)
    else
      var first := ParseBlocks(buffer + chunks[0], isObject);
      LiveThen(first.events, LiveFeed(chunks[1..], first.rest, isObject))
  }

  lemma {:induction false} ParseBlocksExtends(s: string, more: string, isObject: IsObject)
    ensures ParseBlocks(s + more, isObject) ==
      var first := ParseBlocks(s, isObject);
      LiveThen(first.events, ParseBlocks(first.rest + more, isObject))
    decreases |s|
  {
    if FirstBlock(s).Some? {
      FirstBlockExtends(s, more);
      var (block, rest) := FirstBlock(s).value;
      ParseBlocksExtends(rest, more, isObject);
      var first := ParseBlocks(rest, isObject);
      var second := ParseBlocks(first.rest + more, isObject);
      assert BlockEvents(block, isObject) + (first.events + second.events)
          == BlockEvents(block, isObject) + first.events + second.events;
    }
  }

  /** The runner's events do not depend on the chunks, for any text. */
  lemma {:induction false} LiveChunkIndependence(chunks: seq<string>, buffer: string, isObject: IsObject)
    ensures LiveFeed(chunks, buffer, isObject) == ParseBlocks(buffer + Concat(chunks), isObject)
    decreases |chunks|
  {
    if chunks == [] {
      assert buffer + Concat(chunks) == buffer;
    } else {
      var head, tail := buffer + chunks[0], Concat(chunks[1..]);
      var first := ParseBlocks(head, isObject);
      LiveChunkIndependence(chunks[1..], first.rest, isObject);
      ParseBlocksExtends(head, tail, isObject);
      ConcatStep(buffer, chunks);
    }
  }
}
