/** On the streams the gateway writes, the three SSE readers deliver the same (id, data) pairs. */
module SseAgreement {
  import opened Common
  import opened Sse
  import opened SseRoundTrip
  import opened SseReaders

  predicate Clean(s: string) {
    forall c :: c in s ==> !IsLineBreak(c)
  }

  /** Non-empty and without whitespace at either end. */
  predicate Tight(s: string) {
    s != [] && !IsSpace(s[0]) && !IsSpace(s[|s| - 1])
  }

  /** An event frame: single-line JSON-object data, optional id and event name. */
  predicate EventFrame(f: Frame, isObject: IsObject) {
    && f.comment.None?
    && f.data.Some? && Clean(f.data.value) && Tight(f.data.value) && isObject(f.data.value)
    && (f.id.Some? ==> Clean(f.id.value) && Tight(f.id.value))
    && (f.event.Some? ==> Clean(f.event.value))
  }

  /** The only line separator is LF. */
  predicate OnlyLf(s: string) {
    forall c :: c in s ==> c == '\n' || !IsLineBreak(c)
  }

  /** A comment-only frame, possibly of several lines. */
  predicate Ping(f: Frame) {
    f.id.None? && f.event.None? && f.data.None? && f.comment.Some? && OnlyLf(f.comment.value)
  }

  predicate Stream(frames: seq<Frame>, isObject: IsObject) {
    forall f :: f in frames ==> EventFrame(f, isObject) || Ping(f)
  }

  datatype Delivery = Delivery(id: Option<string>, data: string)

  /** What a stream means: the event frames, in order. */
  function Meaning(frames: seq<Frame>): seq<Delivery> {
    if frames == [] then []
    else (if frames[0].data.Some? then [Delivery(frames[0].id, frames[0].data.value)] else []) + Meaning(frames[1..])
  }

  function LiveMeaning(ds: seq<Delivery>): seq<LiveEvent> {
    if ds == [] then [] else [LiveEvent(ds[0].data, ds[0].id)] + LiveMeaning(ds[1..])
  }

  function ChatId(id: Option<string>, toInt: ToInt): Option<int> {
    if id.None? then None else toInt(id.value)
  }

  function ChatMeaning(ds: seq<Delivery>, toInt: ToInt): seq<ChatFrame> {
    if ds == [] then [] else [ChatFrame(ds[0].data, ChatId(ds[0].id, toInt))] + ChatMeaning(ds[1..], toInt)
  }

  // ---------------------------------------------------------------- stripping

  lemma {:induction false} CleanNoBreak(s: string)
    requires Clean(s)
    ensures NoBreak(s)
  {
    assert '\n' in s ==> !IsLineBreak('\n');
    assert '\r' in s ==> !IsLineBreak('\r');
  }

  lemma {:induction false} StripSpaced(s: string)
    requires Tight(s)
    ensures LStrip(" " + s) == s && Strip(" " + s) == s && Strip(s) == s
  {
    assert IsSpace(' ');
    assert (" " + s)[1..] == s;
  }

  lemma {:induction false} RStripHead(s: string)
    requires s != [] && !IsSpace(s[0])
    ensures RStrip(s) != [] && RStrip(s)[0] == s[0]
    decreases |s|
  {
    if IsSpace(s[|s| - 1]) {
      RStripHead(s[..|s| - 1]);
    }
  }

  // ---------------------------------------------------------------- the lines of a frame

  lemma {:induction false} StreamFrameOk(f: Frame, isObject: IsObject)
    requires EventFrame(f, isObject) || Ping(f)
    ensures WellFormed(f) && WireLines(f) != [] && GoodLines(WireLines(f))
  {
    if EventFrame(f, isObject) {
      CleanNoBreak(f.data.value);
      if f.id.Some? { CleanNoBreak(f.id.value); }
      if f.event.Some? { CleanNoBreak(f.event.value); }
    } else {
      assert IsLineBreak('\r') && NoCr(f.comment.value);
    }
    WireLinesGood(f);
  }

  lemma {:induction false} SplitClean(s: string)
    requires NoBreak(s)
    ensures SplitLines(s) == [s]
  {
    if s != [] {
      SplitClean(s[1..]);
      assert s[0] in s;
      assert [s[0]] + s[1..] == s;
    }
  }

  lemma {:induction false} EventLines(f: Frame, isObject: IsObject)
    requires EventFrame(f, isObject)
    ensures WireLines(f) == OneLine("id: ", f.id) + OneLine("event: ", f.event) + ["data: " + f.data.value]
  {
    var d := f.data.value;
    CleanNoBreak(d);
    SplitClean(d);
    assert Prefixed("data: ", [d]) == ["data: " + d] + Prefixed("data: ", [d][1..]);
    assert FieldLines("data: ", f.data) == ["data: " + d];
  }

  // ---------------------------------------------------------------- the live runner

  /** A text the block separator does not split. */
  predicate Compact(s: string) {
    && NoCr(s)
    && (s != [] ==> s[|s| - 1] != '\n')
    && (forall i {:trigger s[i]} :: 0 <= i < |s| - 1 && s[i] == '\n' ==> s[i + 1] != '\n')
  }

  lemma {:induction false} FirstBlockOf(s: string, rest: string)
    requires Compact(s)
    ensures FirstBlock(s + "\n\n" + rest) == Some((s, rest))
    decreases |s|
  {
    var text := s + "\n\n" + rest;
    if s == [] {
      assert text[0] == '\n' && text[1] == '\n' && text[2..] == rest;
    } else {
      assert text[0] == s[0] && text[1..] == s[1..] + "\n\n" + rest;
      assert s[0] == '\n' ==> text[1] == s[1] && s[1] in s;
      assert SeparatorLength(text) == 0;
      forall i {:trigger s[1..][i]} | 0 <= i < |s[1..]| - 1 && s[1..][i] == '\n' ensures s[1..][i + 1] != '\n' {
        assert s[1..][i] == s[i + 1] && s[1..][i + 1] == s[i + 2];
      }
      FirstBlockOf(s[1..], rest);
      assert [s[0]] + s[1..] == s;
    }
  }

  lemma {:induction false} JoinCompact(lines: seq<string>)
    requires lines != [] && GoodLines(lines)
    ensures Compact(Join(lines)) && Join(lines) != [] && Join(lines)[0] != '\n'
    ensures lines[0] != [] && Join(lines)[0] == lines[0][0]
    decreases |lines|
  {
    var first := lines[0];
    assert first in lines;
    forall i | 0 <= i < |first| ensures first[i] != '\n' {
      assert first[i] in first;
    }
    if |lines| > 1 {
      var rest := Join(lines[1..]);
      JoinCompact(lines[1..]);
      var s := first + "\n" + rest;
      assert s[|s| - 1] == rest[|rest| - 1];
      forall i {:trigger s[i]} | 0 <= i < |s| - 1 && s[i] == '\n' ensures s[i + 1] != '\n' {
        if i == |first| {
          assert s[i + 1] == rest[0];
        } else {
          assert s[i] == rest[i - |first| - 1] && s[i + 1] == rest[i - |first|];
        }
      }
    }
  }

  lemma {:induction false} LineLengthOf(line: string, rest: string)
    requires Clean(line) && (rest == [] || IsLineBreak(rest[0]))
    ensures LineLength(line + rest) == |line|
  {
    if line == [] {
      assert line + rest == rest;
    } else {
      assert line[0] in line;
      assert (line + rest)[1..] == line[1..] + rest;
      LineLengthOf(line[1..], rest);
    }
  }

  lemma {:induction false} PyLinesOfJoin(lines: seq<string>)
    requires GoodLines(lines) && forall line :: line in lines ==> Clean(line)
    ensures PyLines(Join(lines)) == lines
    decreases |lines|
  {
    if lines != [] {
      var first := lines[0];
      assert first in lines;
      if |lines| == 1 {
        LineLengthOf(first, []);
        assert first + [] == first;
      } else {
        var rest := Join(lines[1..]);
        var s := Join(lines);
        assert s == first + ("\n" + rest);
        LineLengthOf(first, "\n" + rest);
        assert s[|first|] == '\n' && s[..|first|] == first && s[|first| + 1..] == rest;
        PyLinesOfJoin(lines[1..]);
        assert [first] + lines[1..] == lines;
      }
    }
  }

  lemma {:induction false} DataLineEvents(id: Option<string>, d: string, isObject: IsObject)
    requires Tight(d) && isObject(d)
    ensures LineEvents(["data: " + d], id, isObject) == [LiveEvent(d, id)]
  {
    var data := "data: " + d;
    StripSpaced(d);
    assert data[5..] == " " + d && StartsWith(data, "data:") && data[0] == 'd';
    assert LineEvents([data], id, isObject) == [LiveEvent(d, id)] + LineEvents([data][1..], id, isObject);
  }

  lemma {:induction false} NamedLineEvents(id: Option<string>, event: Option<string>, lines: seq<string>, isObject: IsObject)
    ensures LineEvents(OneLine("event: ", event) + lines, id, isObject) == LineEvents(lines, id, isObject)
  {
    if event.Some? {
      var all := OneLine("event: ", event) + lines;
      assert all[0] == "event: " + event.value && all[0][0] == 'e' && all[1..] == lines;
    } else {
      assert OneLine("event: ", event) + lines == lines;
    }
  }

  lemma {:induction false} IdLineEvents(id: Option<string>, lines: seq<string>, isObject: IsObject)
    requires id.Some? ==> Tight(id.value)
    ensures LineEvents(OneLine("id: ", id) + lines, None, isObject) == LineEvents(lines, id, isObject)
  {
    if id.Some? {
      var line, all := "id: " + id.value, OneLine("id: ", id) + lines;
      StripSpaced(id.value);
      assert line[3..] == " " + id.value && StartsWith(line, "id:");
      assert all[0] == line && all[1..] == lines;
    } else {
      assert OneLine("id: ", id) + lines == lines;
    }
  }

  lemma {:induction false} EventLineEvents(f: Frame, isObject: IsObject)
    requires EventFrame(f, isObject)
    ensures LineEvents(WireLines(f), None, isObject) == [LiveEvent(f.data.value, f.id)]
  {
    var data := ["data: " + f.data.value];
    EventLines(f, isObject);
    assert WireLines(f) == OneLine("id: ", f.id) + (OneLine("event: ", f.event) + data);
    IdLineEvents(f.id, OneLine("event: ", f.event) + data, isObject);
    NamedLineEvents(f.id, f.event, data, isObject);
    DataLineEvents(f.id, f.data.value, isObject);
  }

  lemma {:induction false} EventBlock(f: Frame, isObject: IsObject)
    requires EventFrame(f, isObject)
    ensures BlockEvents(Join(WireLines(f)), isObject) == [LiveEvent(f.data.value, f.id)]
  {
    var lines := WireLines(f);
    StreamFrameOk(f, isObject);
    EventBlockTight(f, isObject);
    StripSpaced(Join(lines));
    EventLinesClean(f, isObject);
    PyLinesOfJoin(lines);
    EventLineEvents(f, isObject);
  }

  lemma {:induction false} EventLinesClean(f: Frame, isObject: IsObject)
    requires EventFrame(f, isObject)
    ensures forall line :: line in WireLines(f) ==> Clean(line)
  {
    EventLines(f, isObject);
    assert Clean("id: ") && Clean("event: ") && Clean("data: ");
  }

  lemma {:induction false} JoinLast(lines: seq<string>)
    requires lines != [] && lines[|lines| - 1] != []
    ensures Join(lines) != [] && Join(lines)[|Join(lines)| - 1] == var l := lines[|lines| - 1]; l[|l| - 1]
  {
    if |lines| > 1 {
      JoinLast(lines[1..]);
    }
  }

  lemma {:induction false} EventBlockTight(f: Frame, isObject: IsObject)
    requires EventFrame(f, isObject)
    ensures Tight(Join(WireLines(f))) && Join(WireLines(f))[0] != ':'
  {
    var lines := WireLines(f);
    EventLines(f, isObject);
    StreamFrameOk(f, isObject);
    JoinCompact(lines);
    JoinLast(lines);
    assert lines[0][0] in {'i', 'e', 'd'};
  }

  lemma {:induction false} PingBlock(f: Frame, isObject: IsObject)
    requires Ping(f)
    ensures BlockEvents(Join(WireLines(f)), isObject) == []
  {
    StreamFrameOk(f, isObject);
    var lines := WireLines(f);
    JoinCompact(lines);
    assert lines[0][0] == ':';
    RStripHead(Join(lines));
  }

  lemma {:induction false} LiveReads(frames: seq<Frame>, isObject: IsObject)
    requires Stream(frames, isObject)
    ensures ParseBlocks(WireAll(frames), isObject) == LiveParsed(LiveMeaning(Meaning(frames)), [])
    decreases |frames|
  {
    if frames != [] {
      var f, rest := frames[0], WireAll(frames[1..]);
      assert f in frames;
      StreamFrameOk(f, isObject);
      JoinCompact(WireLines(f));
      FirstBlockOf(Join(WireLines(f)), rest);
      assert WireAll(frames) == Join(WireLines(f)) + "\n\n" + rest;
      LiveReads(frames[1..], isObject);
      if f.data.Some? {
        EventBlock(f, isObject);
        assert Meaning(frames)[1..] == Meaning(frames[1..]);
      } else {
        PingBlock(f, isObject);
        assert Meaning(frames) == Meaning(frames[1..]);
      }
    }
  }

  // ---------------------------------------------------------------- the chat client

  lemma {:induction false} TextLinesCons(line: string, tail: string)
    requires NoBreak(line)
    ensures TextLines(line + "\n" + tail) == ([line] + TextLines(tail).0, TextLines(tail).1)
  {
    var text := line + "\n" + tail;
    assert text[..|line|] == line && text[|line|] == '\n' && text[|line| + 1..] == tail;
    FirstLineAt(text, |line|);
  }

  lemma {:induction false} BlockStep(lines: seq<string>, rest: string)
    requires lines != []
    ensures Block(lines) + rest == lines[0] + "\n" + (Block(lines[1..]) + rest)
  {
  }

  lemma {:induction false} TextLinesOf(lines: seq<string>, rest: string)
    requires AllNoBreak(lines)
    ensures TextLines(Block(lines) + rest).0 == lines + TextLines(rest).0
    ensures TextLines(Block(lines) + rest).1 == TextLines(rest).1
    decreases |lines|
  {
    if lines == [] {
      assert Block(lines) + rest == rest;
    } else {
      assert lines[0] in lines;
      BlockStep(lines, rest);
      TextLinesOf(lines[1..], rest);
      TextLinesCons(lines[0], Block(lines[1..]) + rest);
      FirstOf(lines, TextLines(rest).0);
    }
  }

  lemma {:induction false} FirstOf(lines: seq<string>, more: seq<string>)
    requires lines != []
    ensures [lines[0]] + (lines[1..] + more) == lines + more
  {
  }

  /** Lines that leave the chat reader as they found it. */
  lemma {:induction false} ChatComments(st: ChatState, lines: seq<string>, more: seq<string>, toInt: ToInt)
    requires forall line :: line in lines ==> StartsWith(line, ":")
    ensures ChatRead(st, lines + more, toInt) == ChatRead(st, more, toInt)
    decreases |lines|
  {
    if lines == [] {
      assert lines + more == more;
    } else {
      assert lines[0] in lines;
      assert (lines + more)[1..] == lines[1..] + more;
      ChatComments(st, lines[1..], more, toInt);
    }
  }

  lemma {:induction false} ChatStep(st: ChatState, line: string, more: seq<string>, toInt: ToInt)
    ensures ChatRead(st, [line] + more, toInt) ==
      var rest := ChatRead(ChatLine(st, line, toInt), more, toInt);
      if line == [] then ChatThen(ChatYield(st), rest) else rest
  {
    assert ([line] + more)[1..] == more;
  }

  lemma {:induction false} ChatIdLine(st: ChatState, id: string, toInt: ToInt)
    requires Tight(id) && st.eventId.None?
    ensures ChatLine(st, "id: " + id, toInt) == st.(eventId := toInt(id))
  {
    var line := "id: " + id;
    StripSpaced(id);
    assert line[3..] == " " + id && StartsWith(line, "id:") && line[0] == 'i';
  }

  lemma {:induction false} ChatDataLine(st: ChatState, data: string, toInt: ToInt)
    requires Tight(data)
    ensures ChatLine(st, "data: " + data, toInt) == st.(dataLines := st.dataLines + [data])
  {
    var line := "data: " + data;
    StripSpaced(data);
    assert line[5..] == " " + data && StartsWith(line, "data:") && line[0] == 'd';
  }

  function HeaderLines(f: Frame): seq<string> {
    OneLine("id: ", f.id) + OneLine("event: ", f.event)
  }

  /** An event line changes nothing. */
  lemma {:induction false} ChatEventName(st: ChatState, event: Option<string>, more: seq<string>, toInt: ToInt)
    ensures ChatRead(st, OneLine("event: ", event) + more, toInt) == ChatRead(st, more, toInt)
  {
    if event.Some? {
      var line := "event: " + event.value;
      assert line[0] == 'e' && OneLine("event: ", event) == [line];
      ChatStep(st, line, more, toInt);
    } else {
      assert OneLine("event: ", event) + more == more;
    }
  }

  lemma {:induction false} ChatIdName(id: Option<string>, more: seq<string>, toInt: ToInt)
    requires id.Some? ==> Tight(id.value)
    ensures ChatRead(ChatStart, OneLine("id: ", id) + more, toInt) == ChatRead(ChatState([], ChatId(id, toInt)), more, toInt)
  {
    if id.Some? {
      ChatIdLine(ChatStart, id.value, toInt);
      assert OneLine("id: ", id) == ["id: " + id.value];
      ChatStep(ChatStart, "id: " + id.value, more, toInt);
    } else {
      assert OneLine("id: ", id) + more == more;
    }
  }

  lemma {:induction false} ChatHeader(f: Frame, more: seq<string>, toInt: ToInt)
    requires f.id.Some? ==> Tight(f.id.value)
    ensures ChatRead(ChatStart, HeaderLines(f) + more, toInt) == ChatRead(ChatState([], ChatId(f.id, toInt)), more, toInt)
  {
    var tail := OneLine("event: ", f.event) + more;
    assert HeaderLines(f) + more == OneLine("id: ", f.id) + tail;
    ChatIdName(f.id, tail, toInt);
    ChatEventName(ChatState([], ChatId(f.id, toInt)), f.event, more, toInt);
  }

  /** The lines of one event frame, read from a frame boundary. */
  lemma {:induction false} ChatEvent(f: Frame, more: seq<string>, isObject: IsObject, toInt: ToInt)
    requires EventFrame(f, isObject)
    ensures ChatRead(ChatStart, WireLines(f) + [[]] + more, toInt) ==
      ChatThen([ChatFrame(f.data.value, ChatId(f.id, toInt))], ChatRead(ChatStart, more, toInt))
  {
    EventLines(f, isObject);
    Regroup(HeaderLines(f), "data: " + f.data.value, more);
    ChatHeader(f, ["data: " + f.data.value] + ([[]] + more), toInt);
    ChatData(ChatId(f.id, toInt), f.data.value, more, toInt);
  }

  lemma {:induction false} Regroup(header: seq<string>, data: string, more: seq<string>)
    ensures header + [data] + [[]] + more == header + ([data] + ([[]] + more))
  {
  }

  /** A data line and the blank line after it. */
  lemma {:induction false} ChatData(id: Option<int>, d: string, more: seq<string>, toInt: ToInt)
    requires Tight(d)
    ensures ChatRead(ChatState([], id), ["data: " + d] + ([[]] + more), toInt)
      == ChatThen([ChatFrame(d, id)], ChatRead(ChatStart, more, toInt))
  {
    var st := ChatState([], id);
    ChatDataLine(st, d, toInt);
    ChatStep(st, "data: " + d, [[]] + more, toInt);
    assert st.dataLines + [d] == [d];
    ChatStep(ChatState([d], id), [], more, toInt);
  }

  lemma {:induction false} PrefixedStarts(prefix: string, parts: seq<string>)
    ensures forall line :: line in Prefixed(prefix, parts) ==> StartsWith(line, prefix)
  {
    if parts != [] {
      PrefixedStarts(prefix, parts[1..]);
    }
  }

  lemma {:induction false} ChatPing(f: Frame, more: seq<string>, toInt: ToInt)
    requires Ping(f)
    ensures ChatRead(ChatStart, WireLines(f) + [[]] + more, toInt) == ChatRead(ChatStart, more, toInt)
  {
    var lines := WireLines(f);
    PrefixedStarts(": ", SplitLines(f.comment.value));
    assert lines == Prefixed(": ", SplitLines(f.comment.value));
    assert lines + [[]] + more == lines + ([[]] + more);
    ChatComments(ChatStart, lines, [[]] + more, toInt);
    ChatStep(ChatStart, [], more, toInt);
  }

  /** The lines of a printed stream: each frame's lines and a blank one. */
  function StreamLines(frames: seq<Frame>): seq<string> {
    if frames == [] then [] else WireLines(frames[0]) + [[]] + StreamLines(frames[1..])
  }

  lemma {:induction false} BlockAppend(lines: seq<string>)
    ensures Block(lines + [[]]) == Block(lines) + "\n"
    decreases |lines|
  {
    if lines == [] {
      assert lines + [[]] == [[]];
      assert (lines + [[]])[1..] == lines;
    } else {
      assert (lines + [[]])[1..] == lines[1..] + [[]];
      BlockAppend(lines[1..]);
    }
  }

  lemma {:induction false} LinesOfBlock(lines: seq<string>, tail: string)
    requires lines != [] && GoodLines(lines)
    ensures TextLines(Join(lines) + "\n\n" + tail).0 == lines + [[]] + TextLines(tail).0
    ensures TextLines(Join(lines) + "\n\n" + tail).1 == TextLines(tail).1
  {
    BlockIsJoin(lines);
    BlockAppend(lines);
    assert Join(lines) + "\n\n" == Block(lines + [[]]);
    TextLinesOf(lines + [[]], tail);
  }

  lemma {:induction false} FrameLines(f: Frame, tail: string)
    requires WireLines(f) != [] && GoodLines(WireLines(f))
    ensures TextLines(FrameWire(f) + tail).0 == WireLines(f) + [[]] + TextLines(tail).0
    ensures TextLines(FrameWire(f) + tail).1 == TextLines(tail).1
  {
    LinesOfBlock(WireLines(f), tail);
  }

  lemma {:induction false} WireStep(frames: seq<Frame>, rest: string)
    requires frames != []
    ensures WireAll(frames) + rest == FrameWire(frames[0]) + (WireAll(frames[1..]) + rest)
  {
  }

  lemma {:induction false} LinesStep(frames: seq<Frame>, more: seq<string>)
    requires frames != []
    ensures StreamLines(frames) + more == WireLines(frames[0]) + [[]] + (StreamLines(frames[1..]) + more)
  {
  }

  lemma {:induction false} StreamTextLines(frames: seq<Frame>, isObject: IsObject, rest: string)
    requires Stream(frames, isObject)
    ensures TextLines(WireAll(frames) + rest).0 == StreamLines(frames) + TextLines(rest).0
    ensures TextLines(WireAll(frames) + rest).1 == TextLines(rest).1
    decreases |frames|
  {
    if frames == [] {
      assert WireAll(frames) + rest == rest;
      assert StreamLines(frames) + TextLines(rest).0 == TextLines(rest).0;
    } else {
      assert frames[0] in frames;
      StreamFrameOk(frames[0], isObject);
      StreamTextLines(frames[1..], isObject, rest);
      FrameLines(frames[0], WireAll(frames[1..]) + rest);
      WireStep(frames, rest);
      LinesStep(frames, TextLines(rest).0);
    }
  }

  /** From a frame boundary the lines yield `frames` and lead back to a frame boundary. */
  ghost predicate Yields(lines: seq<string>, frames: seq<ChatFrame>, toInt: ToInt) {
    forall more :: ChatRead(ChatStart, lines + more, toInt) == ChatThen(frames, ChatRead(ChatStart, more, toInt))
  }

  lemma {:induction false} ThenThen(fs: seq<ChatFrame>, gs: seq<ChatFrame>, r: ChatRun)
    ensures ChatThen(fs, ChatThen(gs, r)) == ChatThen(fs + gs, r)
  {
    assert fs + (gs + r.frames) == fs + gs + r.frames;
  }

  lemma {:induction false} YieldsConcat(xs: seq<string>, fs: seq<ChatFrame>, ys: seq<string>, gs: seq<ChatFrame>, toInt: ToInt)
    requires Yields(xs, fs, toInt) && Yields(ys, gs, toInt)
    ensures Yields(xs + ys, fs + gs, toInt)
  {
    forall more ensures ChatRead(ChatStart, xs + ys + more, toInt) == ChatThen(fs + gs, ChatRead(ChatStart, more, toInt)) {
      assert xs + ys + more == xs + (ys + more);
      ThenThen(fs, gs, ChatRead(ChatStart, more, toInt));
    }
  }

  lemma {:induction false} OneMeaning(f: Frame, toInt: ToInt)
    ensures f.data.Some? ==> ChatMeaning(Meaning([f]), toInt) == [ChatFrame(f.data.value, ChatId(f.id, toInt))]
    ensures f.data.None? ==> ChatMeaning(Meaning([f]), toInt) == []
  {
    assert [f][1..] == [];
    if f.data.Some? {
      assert Meaning([f]) == [Delivery(f.id, f.data.value)];
      assert Meaning([f])[1..] == [];
    }
  }

  lemma {:induction false} EventYields(f: Frame, isObject: IsObject, toInt: ToInt)
    requires EventFrame(f, isObject)
    ensures Yields(WireLines(f) + [[]], [ChatFrame(f.data.value, ChatId(f.id, toInt))], toInt)
  {
    forall more ensures ChatRead(ChatStart, WireLines(f) + [[]] + more, toInt)
      == ChatThen([ChatFrame(f.data.value, ChatId(f.id, toInt))], ChatRead(ChatStart, more, toInt))
    {
      ChatEvent(f, more, isObject, toInt);
    }
  }

  lemma {:induction false} PingYields(f: Frame, toInt: ToInt)
    requires Ping(f)
    ensures Yields(WireLines(f) + [[]], [], toInt)
  {
    forall more ensures ChatRead(ChatStart, WireLines(f) + [[]] + more, toInt) == ChatThen([], ChatRead(ChatStart, more, toInt)) {
      ChatPing(f, more, toInt);
      var r := ChatRead(ChatStart, more, toInt);
      assert [] + r.frames == r.frames;
    }
  }

  lemma {:induction false} FrameYields(f: Frame, isObject: IsObject, toInt: ToInt)
    requires EventFrame(f, isObject) || Ping(f)
    ensures Yields(WireLines(f) + [[]], ChatMeaning(Meaning([f]), toInt), toInt)
  {
    OneMeaning(f, toInt);
    if f.data.Some? {
      EventYields(f, isObject, toInt);
    } else {
      PingYields(f, toInt);
    }
  }

  lemma {:induction false} ChatMeaningAppend(xs: seq<Delivery>, ys: seq<Delivery>, toInt: ToInt)
    ensures ChatMeaning(xs + ys, toInt) == ChatMeaning(xs, toInt) + ChatMeaning(ys, toInt)
    decreases |xs|
  {
    if xs == [] {
      assert xs + ys == ys;
    } else {
      assert (xs + ys)[1..] == xs[1..] + ys;
      ChatMeaningAppend(xs[1..], ys, toInt);
    }
  }

  lemma {:induction false} NothingYields(toInt: ToInt)
    ensures Yields([], [], toInt)
  {
    forall more ensures ChatRead(ChatStart, [] + more, toInt) == ChatThen([], ChatRead(ChatStart, more, toInt)) {
      assert [] + more == more;
      var r := ChatRead(ChatStart, more, toInt);
      assert [] + r.frames == r.frames;
    }
  }

  lemma {:induction false} MeaningStep(frames: seq<Frame>, toInt: ToInt)
    requires frames != []
    ensures ChatMeaning(Meaning(frames), toInt) == ChatMeaning(Meaning([frames[0]]), toInt) + ChatMeaning(Meaning(frames[1..]), toInt)
  {
    var f := frames[0];
    assert [f][1..] == [];
    assert Meaning(frames) == Meaning([f]) + Meaning(frames[1..]);
    ChatMeaningAppend(Meaning([f]), Meaning(frames[1..]), toInt);
  }

  lemma {:induction false} StreamYields(frames: seq<Frame>, isObject: IsObject, toInt: ToInt)
    requires Stream(frames, isObject)
    ensures Yields(StreamLines(frames), ChatMeaning(Meaning(frames), toInt), toInt)
    decreases |frames|
  {
    if frames == [] {
      NothingYields(toInt);
    } else {
      var f, tail := frames[0], frames[1..];
      assert f in frames;
      FrameYields(f, isObject, toInt);
      StreamYields(tail, isObject, toInt);
      MeaningStep(frames, toInt);
      YieldsConcat(WireLines(f) + [[]], ChatMeaning(Meaning([f]), toInt), StreamLines(tail), ChatMeaning(Meaning(tail), toInt), toInt);
    }
  }

  // ---------------------------------------------------------------- agreement

  /** The client's line decoder: append a chunk, take the complete lines, keep the rest. */
  function LineFeed(chunks: seq<string>, buf: string): (seq<string>, string)
    decreases |chunks|
  {
    if chunks == [] then TextLines(buf)
    else
      var (lines, rest) := TextLines(buf + chunks[0]);
      var (more, left) := LineFeed(chunks[1..], rest);
      (lines + more, left)
  }

  lemma {:induction false} TextLinesExtend(buf: string, more: string)
    ensures TextLines(buf + more).0 == TextLines(buf).0 + TextLines(TextLines(buf).1 + more).0
    ensures TextLines(buf + more).1 == TextLines(TextLines(buf).1 + more).1
    decreases |buf|
  {
    if FirstLine(buf).Some? {
      FirstLineExtends(buf, more);
      TextLinesExtend(FirstLine(buf).value.1, more);
    }
  }

  lemma {:induction false} LineChunkIndependence(chunks: seq<string>, buf: string)
    ensures LineFeed(chunks, buf) == TextLines(buf + Concat(chunks))
    decreases |chunks|
  {
    if chunks == [] {
      assert buf + Concat(chunks) == buf;
    } else {
      var head, tail := buf + chunks[0], Concat(chunks[1..]);
      LineChunkIndependence(chunks[1..], TextLines(head).1);
      TextLinesExtend(head, tail);
      ConcatStep(buf, chunks);
    }
  }

  lemma {:induction false} TestKitReads(frames: seq<Frame>, chunks: seq<string>, isObject: IsObject)
    requires Stream(frames, isObject) && Concat(chunks) == WireAll(frames)
    ensures FeedAll(chunks, [], NothingPending) == Parsed(frames, [], NothingPending)
  {
    forall f | f in frames ensures WellFormed(f) {
      StreamFrameOk(f, isObject);
    }
    RoundTrip(frames, chunks);
  }

  lemma {:induction false} RunnerReads(frames: seq<Frame>, chunks: seq<string>, isObject: IsObject)
    requires Stream(frames, isObject) && Concat(chunks) == WireAll(frames)
    ensures LiveFeed(chunks, [], isObject) == LiveParsed(LiveMeaning(Meaning(frames)), [])
  {
    assert [] + Concat(chunks) == Concat(chunks);
    LiveChunkIndependence(chunks, [], isObject);
    LiveReads(frames, isObject);
  }

  lemma {:induction false} ClientLines(frames: seq<Frame>, chunks: seq<string>, isObject: IsObject)
    requires Stream(frames, isObject) && Concat(chunks) == WireAll(frames)
    ensures LineFeed(chunks, []).0 == StreamLines(frames) && LineFeed(chunks, []).1 == []
  {
    assert [] + Concat(chunks) == Concat(chunks);
    LineChunkIndependence(chunks, []);
    WholeTextLines(frames, isObject);
  }

  lemma {:induction false} WholeTextLines(frames: seq<Frame>, isObject: IsObject)
    requires Stream(frames, isObject)
    ensures TextLines(WireAll(frames)).0 == StreamLines(frames) && TextLines(WireAll(frames)).1 == []
  {
    assert WireAll(frames) + [] == WireAll(frames);
    StreamTextLines(frames, isObject, []);
    NoFirstLine([]);
  }

  lemma {:induction false} ClientReads(frames: seq<Frame>, clean: bool, isObject: IsObject, toInt: ToInt)
    requires Stream(frames, isObject)
    ensures ChatBody(StreamLines(frames), clean, toInt) == ChatMeaning(Meaning(frames), toInt)
  {
    StreamYields(frames, isObject, toInt);
    assert StreamLines(frames) + [] == StreamLines(frames);
  }

  /** Whatever the chunks, the test parser, the live runner and the chat client deliver the same
      pairs from a printed stream of event frames and pings, and leave nothing unread. */
  lemma {:induction false} ReadersAgree(frames: seq<Frame>, chunks: seq<string>, isObject: IsObject, toInt: ToInt)
    requires Stream(frames, isObject) && Concat(chunks) == WireAll(frames)
    ensures FeedAll(chunks, [], NothingPending) == Parsed(frames, [], NothingPending)
    ensures LiveFeed(chunks, [], isObject) == LiveParsed(LiveMeaning(Meaning(frames)), [])
    ensures LineFeed(chunks, []).1 == []
    ensures forall clean :: ChatBody(LineFeed(chunks, []).0, clean, toInt) == ChatMeaning(Meaning(frames), toInt)
  {
    TestKitReads(frames, chunks, isObject);
    RunnerReads(frames, chunks, isObject);
    ClientLines(frames, chunks, isObject);
    forall clean ensures ChatBody(StreamLines(frames), clean, toInt) == ChatMeaning(Meaning(frames), toInt) {
      ClientReads(frames, clean, isObject, toInt);
    }
  }
}
