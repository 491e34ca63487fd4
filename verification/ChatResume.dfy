/** The chat client's reconnecting pump against a gateway that replays its log after
    Last-Event-ID, with connections that may be cut at any character. */
module ChatResume {
  import opened Common
  import opened Sse
  import opened SseRoundTrip
  import opened SseReaders
  import opened SseAgreement

  /** One logged event: its integer id and its single-line JSON-object data. */
  datatype Entry = Entry(id: int, data: string)

  /** How ids are printed and read, and what counts as a JSON object. */
  datatype Codec = Codec(show: int -> string, toInt: ToInt, isObject: IsObject)

  /** `int(str(n)) == n`, and printed integers have no whitespace or line breaks. */
  ghost predicate Numerals(c: Codec) {
    forall n :: c.toInt(c.show(n)) == Some(n) && Clean(c.show(n)) && Tight(c.show(n))
  }

  ghost predicate Log(log: seq<Entry>, c: Codec) {
    && (forall i, j :: 0 <= i < j < |log| ==> log[i].id < log[j].id)
    && (forall i :: 0 <= i < |log| ==> Clean(log[i].data) && Tight(log[i].data) && c.isObject(log[i].data))
  }

  function EntryFrame(e: Entry, c: Codec): Frame {
    Frame(Some(c.show(e.id)), Some(e.data), None, None)
  }

  function EntryFrames(log: seq<Entry>, c: Codec): seq<Frame> {
    if log == [] then [] else [EntryFrame(log[0], c)] + EntryFrames(log[1..], c)
  }

  /** What the gateway sends after `last`. */
  function Replay(log: seq<Entry>, last: Option<int>): seq<Entry> {
    if log == [] then []
    else if last.Some? && log[0].id <= last.value then Replay(log[1..], last)
    else [log[0]] + Replay(log[1..], last)
  }

  function IdBearing(frames: seq<Frame>): seq<Frame> {
    if frames == [] then []
    else if frames[0].id.Some? then [frames[0]] + IdBearing(frames[1..])
    else IdBearing(frames[1..])
  }

  /** A connection: what the gateway sends on it, how many characters arrive, and whether the
      body then ends cleanly or with a transport error. */
  datatype Connection = Connection(sent: seq<Frame>, cut: nat, clean: bool)

  /** The gateway's side: the id-bearing frames are the replay; id-less events and pings may be
      interleaved. */
  ghost predicate Serves(x: Connection, log: seq<Entry>, last: Option<int>, c: Codec) {
    && Stream(x.sent, c.isObject)
    && IdBearing(x.sent) == EntryFrames(Replay(log, last), c)
    && x.cut <= |WireAll(x.sent)|
  }

  // ---------------------------------------------------------------- the client

  /** The lines the HTTP client hands over: a last unterminated one only on a clean end. */
  function ReceivedLines(text: string, clean: bool): seq<string> {
    var (lines, left) := TextLines(text);
    if clean && left != [] then lines + [left] else lines
  }

  function Received(x: Connection, c: Codec): seq<ChatFrame>
    requires x.cut <= |WireAll(x.sent)|
  {
    ChatBody(ReceivedLines(WireAll(x.sent)[..x.cut], x.clean), x.clean, c.toInt)
  }

  function LastId(frames: seq<ChatFrame>, last: Option<int>): Option<int> {
    if frames == [] then last
    else LastId(frames[1..], if frames[0].eventId.Some? then frames[0].eventId else last)
  }

  class Pump {
    var queue: seq<ChatFrame>
    var lastEventId: Option<int>

    constructor ()
      ensures queue == [] && lastEventId == None
    {
      queue, lastEventId := [], None;
    }

    /** The frame loop of `_pump_sse_connection`. */
    method PumpConnection(lines: seq<string>, clean: bool, toInt: ToInt)
      modifies this
      ensures queue == old(queue) + ChatBody(lines, clean, toInt)
      ensures lastEventId == LastId(ChatBody(lines, clean, toInt), old(lastEventId))
    {
      var frames := IterSseFrames(lines, clean, toInt);
      PutFrames(frames);
    }

    method PutFrames(frames: seq<ChatFrame>)
      modifies this
      ensures queue == old(queue) + frames && lastEventId == LastId(frames, old(lastEventId))
    {
      assert frames[0..] == frames;
      for i := 0 to |frames|
        invariant queue == old(queue) + frames[..i]
        invariant LastId(frames[i..], lastEventId) == LastId(frames, old(lastEventId))
      {
        assert frames[i..][1..] == frames[i + 1..];
        if frames[i].eventId.Some? {
          lastEventId := frames[i].eventId;
        }
        queue := queue + [frames[i]];
      }
    }
  }

  // ---------------------------------------------------------------- where a cut falls

  function Wires(sent: seq<Frame>): seq<string> {
    seq(|sent|, i requires 0 <= i < |sent| => FrameWire(sent[i]))
  }

  /** How many pieces arrive whole, and how many characters of the next one. */
  datatype Cut = Cut(whole: nat, extra: nat)

  function CutOf(pieces: seq<string>, cut: nat): Cut
    decreases |pieces|
  {
    if pieces == [] || cut < |pieces[0]| then Cut(0, cut)
    else
      var rest := CutOf(pieces[1..], cut - |pieces[0]|);
      Cut(rest.whole + 1, rest.extra)
  }

  /** The offset of the data line within a printed event frame. */
  function DataOffset(f: Frame): nat {
    |Block(HeaderLines(f))|
  }

  /** The cut of an event frame leaves its data line begun but its data incomplete. */
  predicate Torn(f: Frame, p: nat) {
    f.data.Some? && DataOffset(f) + 5 <= p < DataOffset(f) + 6 + |f.data.value|
  }

  /** What a clean end makes of the first `p` characters of a frame. */
  function Remnant(f: Frame, p: nat, toInt: ToInt): seq<ChatFrame> {
    if f.data.None? || p < DataOffset(f) + 5 then []
    else
      var d := f.data.value;
      var m := if p < DataOffset(f) + 6 then 0 else p - DataOffset(f) - 6;
      [ChatFrame(if m < |d| then d[..m] else d, ChatId(f.id, toInt))]
  }

  lemma {:induction false} CutSplits(pieces: seq<string>, cut: nat)
    requires cut <= |Concat(pieces)|
    ensures var x := CutOf(pieces, cut);
      && x.whole <= |pieces|
      && (x.whole < |pieces| ==> x.extra < |pieces[x.whole]|)
      && Concat(pieces)[..cut] == Concat(pieces[..x.whole]) + (if x.whole == |pieces| then [] else pieces[x.whole][..x.extra])
    decreases |pieces|
  {
    var x := CutOf(pieces, cut);
    if pieces != [] {
      var first, rest := pieces[0], Concat(pieces[1..]);
      if cut < |first| {
        assert pieces[..0] == [];
        assert (first + rest)[..cut] == first[..cut];
      } else {
        CutSplits(pieces[1..], cut - |first|);
        assert pieces[..x.whole][1..] == pieces[1..][..x.whole - 1];
        assert (first + rest)[..cut] == first + rest[..cut - |first|];
      }
    }
  }

  lemma {:induction false} WireAllIsConcat(sent: seq<Frame>)
    ensures WireAll(sent) == Concat(Wires(sent))
    decreases |sent|
  {
    if sent != [] {
      WireAllIsConcat(sent[1..]);
      assert Wires(sent)[1..] == Wires(sent[1..]);
    }
  }

  lemma {:induction false} CutWire(sent: seq<Frame>, cut: nat)
    requires cut <= |WireAll(sent)|
    ensures var x := CutOf(Wires(sent), cut);
      && x.whole <= |sent|
      && (x.whole < |sent| ==> x.extra < |FrameWire(sent[x.whole])|)
      && WireAll(sent)[..cut] == WireAll(sent[..x.whole]) + (if x.whole == |sent| then [] else FrameWire(sent[x.whole])[..x.extra])
  {
    WireAllIsConcat(sent);
    CutSplits(Wires(sent), cut);
    var x := CutOf(Wires(sent), cut);
    WireAllIsConcat(sent[..x.whole]);
    assert Wires(sent)[..x.whole] == Wires(sent[..x.whole]);
  }

  /** A prefix of a block of lines: some whole lines and the beginning of the next. */
  lemma {:induction false} PrefixLines(lines: seq<string>, p: nat) returns (j: nat)
    requires AllNoBreak(lines) && p < |Block(lines)|
    ensures j < |lines|
    ensures TextLines(Block(lines)[..p]).0 == lines[..j]
    ensures TextLines(Block(lines)[..p]).1 <= lines[j]
    ensures p == |Block(lines[..j])| + |TextLines(Block(lines)[..p]).1|
    decreases |lines|
  {
    var line := lines[0];
    assert line in lines;
    var text := Block(lines)[..p];
    if p <= |line| {
      j := 0;
      assert text == line[..p];
      forall c | c in text ensures c in line {}
      NoFirstLine(text);
      assert lines[..0] == [];
    } else {
      var rest := Block(lines[1..])[..p - |line| - 1];
      assert text == line + "\n" + rest;
      TextLinesCons(line, rest);
      var i := PrefixLines(lines[1..], p - |line| - 1);
      j := i + 1;
      assert lines[..j] == [line] + lines[1..][..i];
      assert lines[..j][1..] == lines[1..][..i];
    }
  }

  // ---------------------------------------------------------------- reading a cut connection

  ghost predicate Quiet(lines: seq<string>) {
    forall line :: line in lines ==> line != [] && !StartsWith(line, "data:")
  }

  /** Lines that are neither blank nor data yield nothing. */
  lemma {:induction false} QuietRead(st: ChatState, lines: seq<string>, toInt: ToInt)
    requires Quiet(lines)
    ensures ChatRead(st, lines, toInt).frames == [] && ChatRead(st, lines, toInt).st.dataLines == st.dataLines
    decreases |lines|
  {
    if lines != [] {
      assert lines[0] in lines;
      forall line | line in lines[1..] ensures line in lines {}
      QuietRead(ChatLine(st, lines[0], toInt), lines[1..], toInt);
    }
  }

  lemma {:induction false} QuietBody(lines: seq<string>, clean: bool, toInt: ToInt)
    requires Quiet(lines)
    ensures ChatBody(lines, clean, toInt) == []
  {
    QuietRead(ChatStart, lines, toInt);
  }

  lemma {:induction false} BlockSnoc(lines: seq<string>, line: string)
    ensures Block(lines + [line]) == Block(lines) + line + "\n"
    decreases |lines|
  {
    if lines == [] {
      assert lines + [line] == [line];
      assert [line][1..] == [];
    } else {
      assert (lines + [line])[1..] == lines[1..] + [line];
      BlockSnoc(lines[1..], line);
    }
  }

  lemma {:induction false} BlockLength(lines: seq<string>, j: nat)
    requires j < |lines|
    ensures |Block(lines[..j])| + |lines[j]| + 1 <= |Block(lines)|
    decreases |lines|
  {
    if j == 0 {
      assert lines[..0] == [];
    } else {
      assert lines[..j][1..] == lines[1..][..j - 1];
      BlockLength(lines[1..], j - 1);
    }
  }

  lemma {:induction false} BlockOf(lines: seq<string>)
    requires lines != [] && GoodLines(lines)
    ensures Join(lines) + "\n\n" == Block(lines + [[]]) && AllNoBreak(lines + [[]])
  {
    BlockIsJoin(lines);
    BlockAppend(lines);
  }

  lemma {:induction false} FrameBlock(f: Frame)
    requires WireLines(f) != [] && GoodLines(WireLines(f))
    ensures FrameWire(f) == Block(WireLines(f) + [[]]) && AllNoBreak(WireLines(f) + [[]])
  {
    BlockOf(WireLines(f));
  }

  lemma {:induction false} NotData(line: string)
    requires line != [] && line[0] != 'd'
    ensures !StartsWith(line, "data:")
  {
    assert "data:"[0] == 'd';
  }

  lemma {:induction false} QuietLines(lines: seq<string>, j: nat, left: string, clean: bool)
    requires forall line :: line in lines ==> line != [] && line[0] != 'd'
    requires j <= |lines| && left <= (if j < |lines| then lines[j] else [])
    ensures Quiet(if clean && left != [] then lines[..j] + [left] else lines[..j])
  {
    var front := lines[..j];
    assert forall line :: line in front ==> line in lines;
    if left != [] {
      assert lines[j] in lines && left[0] == lines[j][0];
    }
    var got := if clean && left != [] then front + [left] else front;
    forall line | line in got ensures line != [] && !StartsWith(line, "data:") {
      if line in front {
        assert line in lines;
      } else {
        assert line == left;
      }
      NotData(line);
    }
  }

  /** A cut among lines that begin with anything but a `d` or a blank yields nothing. */
  lemma {:induction false} QuietCut(lines: seq<string>, p: nat, clean: bool, toInt: ToInt)
    requires AllNoBreak(lines + [[]]) && p < |Block(lines + [[]])|
    requires forall line :: line in lines ==> line != [] && line[0] != 'd'
    ensures ChatBody(ReceivedLines(Block(lines + [[]])[..p], clean), clean, toInt) == []
  {
    var all := lines + [[]];
    var j := PrefixLines(all, p);
    var left := TextLines(Block(all)[..p]).1;
    assert all[..j] == lines[..j];
    QuietLines(lines, j, left, clean);
    QuietBody(ReceivedLines(Block(all)[..p], clean), clean, toInt);
  }

  lemma {:induction false} PingCut(f: Frame, p: nat, clean: bool, c: Codec)
    requires Ping(f) && p < |FrameWire(f)|
    ensures ChatBody(ReceivedLines(FrameWire(f)[..p], clean), clean, c.toInt) == []
  {
    StreamFrameOk(f, c.isObject);
    FrameBlock(f);
    var lines := Prefixed(": ", SplitLines(f.comment.value));
    PrefixedStarts(": ", SplitLines(f.comment.value));
    assert WireLines(f) == lines;
    forall line | line in lines ensures line != [] && line[0] != 'd' {
      assert StartsWith(line, ": ");
      assert line[0] == ':';
    }
    QuietCut(lines, p, clean, c.toInt);
  }

  /** What the client makes of the beginning of a data line. */
  lemma {:induction false} DataPart(d: string, part: string)
    requires Tight(d) && 5 <= |part| && part <= "data: " + d
    ensures part[0] == 'd' && StartsWith(part, "data:")
    ensures LStrip(part[5..]) == if |part| < 6 then [] else part[6..]
  {
    var line := "data: " + d;
    assert part == line[..|part|];
    assert line[..5] == "data:" && part[..5] == line[..5];
    if |part| > 5 {
      assert part[5] == line[5] == ' ' && IsSpace(' ');
      assert part[5..][1..] == part[6..];
      if |part| > 6 {
        assert part[6] == line[6] == d[0];
      }
    }
  }

  lemma {:induction false} DataPartLine(st: ChatState, d: string, part: string, toInt: ToInt)
    requires Tight(d) && 5 <= |part| && part <= "data: " + d && st.dataLines == []
    ensures ChatLine(st, part, toInt) == st.(dataLines := [if |part| < 6 then [] else part[6..]])
  {
    DataPart(d, part);
    assert !StartsWith(part, ":") && !StartsWith(part, "id:");
    assert st.dataLines + [LStrip(part[5..])] == [LStrip(part[5..])];
  }

  lemma {:induction false} DataLineCut(f: Frame, part: string, toInt: ToInt)
    requires f.id.Some? ==> Tight(f.id.value)
    requires f.data.Some? && Tight(f.data.value) && 5 <= |part| && part <= "data: " + f.data.value
    ensures ChatRead(ChatStart, HeaderLines(f) + [part], toInt)
      == ChatRun([], ChatState([if |part| < 6 then [] else part[6..]], ChatId(f.id, toInt)))
  {
    var st := ChatState([], ChatId(f.id, toInt));
    ChatHeader(f, [part], toInt);
    DataPartLine(st, f.data.value, part, toInt);
    assert [part] == [part] + [];
    ChatStep(st, part, [], toInt);
  }

  lemma {:induction false} HeaderLinesStart(f: Frame)
    ensures forall line :: line in HeaderLines(f) ==> line != [] && line[0] != 'd'
  {
  }

  /** The lines `before` and the part `left` of the next one read as the frame's remnant. */
  ghost predicate CutReads(f: Frame, before: seq<string>, left: string, clean: bool, toInt: ToInt) {
    ChatBody(if clean && left != [] then before + [left] else before, clean, toInt)
    == if clean then Remnant(f, |Block(before)| + |left|, toInt) else []
  }

  /** A cut in the header. */
  lemma {:induction false} HeaderCut(f: Frame, before: seq<string>, left: string, clean: bool, toInt: ToInt)
    requires |before| < |HeaderLines(f)| && before == HeaderLines(f)[..|before|] && left <= HeaderLines(f)[|before|]
    ensures CutReads(f, before, left, clean, toInt)
  {
    HeaderLinesStart(f);
    QuietLines(HeaderLines(f), |before|, left, clean);
    QuietBody(if clean && left != [] then before + [left] else before, clean, toInt);
    BlockLength(HeaderLines(f), |before|);
  }

  /** A cut in the data line. */
  lemma {:induction false} DataCut(f: Frame, left: string, clean: bool, toInt: ToInt)
    requires f.id.Some? ==> Tight(f.id.value)
    requires f.data.Some? && Tight(f.data.value) && left <= "data: " + f.data.value
    ensures CutReads(f, HeaderLines(f), left, clean, toInt)
  {
    if clean && |left| >= 5 {
      DataBegun(f, left, toInt);
    } else {
      DataNotBegun(f, left, clean, toInt);
    }
  }

  /** The field name has not arrived, or the line is not handed over. */
  lemma {:induction false} DataNotBegun(f: Frame, left: string, clean: bool, toInt: ToInt)
    requires f.data.Some? && (!clean || |left| < 5)
    ensures CutReads(f, HeaderLines(f), left, clean, toInt)
  {
    var header := HeaderLines(f);
    HeaderLinesStart(f);
    QuietLines(header, |header|, [], clean);
    assert header[..|header|] == header;
    if clean && left != [] {
      assert Quiet(header + [left]);
      QuietBody(header + [left], clean, toInt);
    } else {
      QuietBody(header, clean, toInt);
    }
  }

  lemma {:induction false} DataBegun(f: Frame, left: string, toInt: ToInt)
    requires f.id.Some? ==> Tight(f.id.value)
    requires f.data.Some? && Tight(f.data.value) && |left| >= 5 && left <= "data: " + f.data.value
    ensures CutReads(f, HeaderLines(f), left, true, toInt)
  {
    DataLineCut(f, left, toInt);
    RestOfData(f.data.value, left);
  }

  lemma {:induction false} RestOfData(d: string, left: string)
    requires |left| >= 5 && left <= "data: " + d
    ensures |left| >= 6 ==> |left| - 6 <= |d| && left[6..] == d[..|left| - 6]
    ensures d[..|d|] == d
  {
  }

  /** A cut after the data line. */
  lemma {:induction false} AfterDataCut(f: Frame, clean: bool, toInt: ToInt)
    requires f.id.Some? ==> Tight(f.id.value)
    requires f.data.Some? && Tight(f.data.value)
    ensures CutReads(f, HeaderLines(f) + ["data: " + f.data.value], [], clean, toInt)
  {
    var data := "data: " + f.data.value;
    DataLineCut(f, data, toInt);
    assert data[6..] == f.data.value;
    BlockSnoc(HeaderLines(f), data);
  }

  /** A frame of `header` and `data` lines was cut after `before` and inside the next line. */
  ghost predicate CutPlace(header: seq<string>, data: string, before: seq<string>, left: string) {
    || (|before| < |header| && before == header[..|before|] && left <= header[|before|])
    || (before == header && left <= data)
    || (before == header + [data] && left == [])
  }

  lemma {:induction false} CutsAtPlace(header: seq<string>, data: string, j: nat, left: string)
    requires var lines := header + [data] + [[]]; j < |lines| && left <= lines[j]
    ensures CutPlace(header, data, (header + [data] + [[]])[..j], left)
  {
    var lines := header + [data] + [[]];
    if j < |header| {
      assert lines[..j] == header[..j];
    } else if j == |header| {
      assert lines[..j] == header;
    } else {
      assert lines[..j] == header + [data];
    }
  }

  lemma {:induction false} EventCutAt(f: Frame, before: seq<string>, left: string, clean: bool, toInt: ToInt)
    requires f.id.Some? ==> Tight(f.id.value)
    requires f.data.Some? && Tight(f.data.value)
    requires CutPlace(HeaderLines(f), "data: " + f.data.value, before, left)
    ensures CutReads(f, before, left, clean, toInt)
  {
    var header := HeaderLines(f);
    if |before| < |header| {
      HeaderCut(f, before, left, clean, toInt);
    } else if before == header {
      DataCut(f, left, clean, toInt);
    } else {
      AfterDataCut(f, clean, toInt);
    }
  }

  /** Where a cut after `p` characters of an event frame falls. */
  lemma {:induction false} EventPlace(f: Frame, p: nat, c: Codec) returns (before: seq<string>, left: string)
    requires EventFrame(f, c.isObject) && p < |FrameWire(f)|
    ensures TextLines(FrameWire(f)[..p]) == (before, left) && p == |Block(before)| + |left|
    ensures CutPlace(HeaderLines(f), "data: " + f.data.value, before, left)
  {
    StreamFrameOk(f, c.isObject);
    EventLines(f, c.isObject);
    FrameBlock(f);
    var lines := WireLines(f) + [[]];
    var j := PrefixLines(lines, p);
    before, left := lines[..j], TextLines(Block(lines)[..p]).1;
    CutsAtPlace(HeaderLines(f), "data: " + f.data.value, j, left);
  }

  lemma {:induction false} CutReadsAs(f: Frame, before: seq<string>, left: string, clean: bool, toInt: ToInt, got: seq<string>, p: nat)
    requires CutReads(f, before, left, clean, toInt)
    requires got == (if clean && left != [] then before + [left] else before) && p == |Block(before)| + |left|
    ensures ChatBody(got, clean, toInt) == if clean then Remnant(f, p, toInt) else []
  {
  }

  lemma {:induction false} EventCut(f: Frame, p: nat, clean: bool, c: Codec)
    requires EventFrame(f, c.isObject) && p < |FrameWire(f)|
    ensures ChatBody(ReceivedLines(FrameWire(f)[..p], clean), clean, c.toInt)
      == if clean then Remnant(f, p, c.toInt) else []
  {
    var before, left := EventPlace(f, p, c);
    var got := ReceivedLines(FrameWire(f)[..p], clean);
    EventCutAt(f, before, left, clean, c.toInt);
    CutReadsAs(f, before, left, clean, c.toInt, got, p);
  }

  lemma {:induction false} PartCut(f: Frame, p: nat, clean: bool, c: Codec)
    requires (EventFrame(f, c.isObject) || Ping(f)) && p < |FrameWire(f)|
    ensures ChatBody(ReceivedLines(FrameWire(f)[..p], clean), clean, c.toInt)
      == if clean then Remnant(f, p, c.toInt) else []
  {
    if f.data.Some? {
      EventCut(f, p, clean, c);
    } else {
      PingCut(f, p, clean, c);
    }
  }

  lemma {:induction false} LinesAfterWhole(front: seq<Frame>, part: string, clean: bool, c: Codec)
    requires Stream(front, c.isObject)
    ensures ReceivedLines(WireAll(front) + part, clean) == StreamLines(front) + ReceivedLines(part, clean)
  {
    StreamTextLines(front, c.isObject, part);
  }

  lemma {:induction false} BodyAfterWhole(front: seq<Frame>, lines: seq<string>, clean: bool, c: Codec)
    requires Stream(front, c.isObject)
    ensures ChatBody(StreamLines(front) + lines, clean, c.toInt)
      == ChatMeaning(Meaning(front), c.toInt) + ChatBody(lines, clean, c.toInt)
  {
    StreamYields(front, c.isObject, c.toInt);
    BodyAfter(StreamLines(front), ChatMeaning(Meaning(front), c.toInt), lines, clean, c.toInt);
  }

  /** Lines that yield frames, and then more lines. */
  lemma {:induction false} BodyAfter(first: seq<string>, frames: seq<ChatFrame>, lines: seq<string>, clean: bool, toInt: ToInt)
    requires Yields(first, frames, toInt)
    ensures ChatBody(first + lines, clean, toInt) == frames + ChatBody(lines, clean, toInt)
  {
    var r := ChatRead(ChatStart, lines, toInt);
    assert ChatRead(ChatStart, first + lines, toInt) == ChatThen(frames, r);
    assert frames + r.frames + ChatYield(r.st) == frames + (r.frames + ChatYield(r.st));
  }

  /** A cut connection delivers the frames that arrived whole and, after a clean end, the
      remnant of the next one. */
  lemma {:induction false} ReceivedIs(x: Connection, c: Codec)
    requires Stream(x.sent, c.isObject) && x.cut <= |WireAll(x.sent)|
    ensures var at := CutOf(Wires(x.sent), x.cut);
      at.whole <= |x.sent|
      && Received(x, c) == ChatMeaning(Meaning(x.sent[..at.whole]), c.toInt)
           + (if x.clean && at.whole < |x.sent| then Remnant(x.sent[at.whole], at.extra, c.toInt) else [])
  {
    var at := CutOf(Wires(x.sent), x.cut);
    CutWire(x.sent, x.cut);
    var front := x.sent[..at.whole];
    var part := if at.whole == |x.sent| then [] else FrameWire(x.sent[at.whole])[..at.extra];
    LinesAfterWhole(front, part, x.clean, c);
    BodyAfterWhole(front, ReceivedLines(part, x.clean), x.clean, c);
    if at.whole < |x.sent| {
      assert x.sent[at.whole] in x.sent;
      PartCut(x.sent[at.whole], at.extra, x.clean, c);
    } else {
      QuietBody(ReceivedLines(part, x.clean), x.clean, c.toInt);
    }
  }

  // ---------------------------------------------------------------- every schedule of connections

  datatype Client = Client(queue: seq<ChatFrame>, last: Option<int>)

  const NewClient := Client([], None)

  function Connect(cl: Client, x: Connection, c: Codec): Client
    requires x.cut <= |WireAll(x.sent)|
  {
    Client(cl.queue + Received(x, c), LastId(Received(x, c), cl.last))
  }

  /** Every connection is served from the log after the client's Last-Event-ID at that time. */
  ghost predicate Schedule(cl: Client, xs: seq<Connection>, log: seq<Entry>, c: Codec)
    decreases |xs|
  {
    xs == [] || (Serves(xs[0], log, cl.last, c) && Schedule(Connect(cl, xs[0], c), xs[1..], log, c))
  }

  ghost function AfterAll(cl: Client, xs: seq<Connection>, log: seq<Entry>, c: Codec): Client
    requires Schedule(cl, xs, log, c)
    decreases |xs|
  {
    if xs == [] then cl else AfterAll(Connect(cl, xs[0], c), xs[1..], log, c)
  }

  function WithId(queue: seq<ChatFrame>): seq<ChatFrame> {
    if queue == [] then []
    else if queue[0].eventId.Some? then [queue[0]] + WithId(queue[1..])
    else WithId(queue[1..])
  }

  function LogFrames(log: seq<Entry>): (r: seq<ChatFrame>)
    ensures |r| == |log|
    ensures forall i :: 0 <= i < |log| ==> r[i] == ChatFrame(log[i].data, Some(log[i].id))
  {
    if log == [] then [] else [ChatFrame(log[0].data, Some(log[0].id))] + LogFrames(log[1..])
  }

  /** The connection ended cleanly inside the data of a logged frame. */
  predicate TornEnd(x: Connection) {
    var at := CutOf(Wires(x.sent), x.cut);
    x.clean && at.whole < |x.sent| && x.sent[at.whole].id.Some? && Torn(x.sent[at.whole], at.extra)
  }

  /** What arrived includes the ids of all the logged frames that were sent: no such frame lies after
      the whole ones, or the data line of the only one was begun when the body ended cleanly. */
  predicate Reaches(x: Connection) {
    var at := CutOf(Wires(x.sent), x.cut);
    && at.whole <= |x.sent|
    && (|| IdBearing(x.sent[at.whole..]) == []
        || (x.clean && at.whole < |x.sent| && Begun(x.sent[at.whole], at.extra) && IdBearing(x.sent[at.whole + 1..]) == []))
  }

  predicate Begun(f: Frame, p: nat) {
    f.data.Some? && p >= DataOffset(f) + 5
  }

  lemma {:induction false} WithIdAppend(xs: seq<ChatFrame>, ys: seq<ChatFrame>)
    ensures WithId(xs + ys) == WithId(xs) + WithId(ys)
    decreases |xs|
  {
    if xs == [] {
      assert xs + ys == ys;
    } else {
      assert (xs + ys)[1..] == xs[1..] + ys;
      WithIdAppend(xs[1..], ys);
    }
  }

  lemma {:induction false} LastIdIs(frames: seq<ChatFrame>, last: Option<int>)
    ensures LastId(frames, last) == var w := WithId(frames); if w == [] then last else w[|w| - 1].eventId
    decreases |frames|
  {
    if frames != [] {
      LastIdIs(frames[1..], if frames[0].eventId.Some? then frames[0].eventId else last);
    }
  }

  /** With increasing ids the replay after the n-th id is the rest of the log. */
  lemma {:induction false} ReplayIsRest(log: seq<Entry>, n: nat, last: Option<int>)
    requires n <= |log| && forall i, j :: 0 <= i < j < |log| ==> log[i].id < log[j].id
    requires if n == 0 then last.None? || forall i :: 0 <= i < |log| ==> last.value < log[i].id else last == Some(log[n - 1].id)
    ensures Replay(log, last) == log[n..]
    decreases |log|
  {
    if log != [] {
      var rest := log[1..];
      forall i, j | 0 <= i < j < |rest| ensures rest[i].id < rest[j].id {
        assert rest[i] == log[i + 1] && rest[j] == log[j + 1];
      }
      if n == 0 {
        ReplayIsRest(rest, 0, last);
        assert log == [log[0]] + rest;
      } else {
        assert log[0].id <= last.value;
        if n == 1 {
          forall i | 0 <= i < |rest| ensures last.value < rest[i].id {
            assert rest[i] == log[i + 1];
          }
        }
        ReplayIsRest(rest, n - 1, last);
        assert log[n..] == rest[n - 1..];
      }
    }
  }

  lemma {:induction false} IdBearingAt(sent: seq<Frame>, k: nat)
    requires k <= |sent|
    ensures IdBearing(sent[..k]) <= IdBearing(sent)
    ensures k < |sent| && sent[k].id.Some? ==>
      |IdBearing(sent[..k])| < |IdBearing(sent)| && IdBearing(sent)[|IdBearing(sent[..k])|] == sent[k]
    decreases |sent|
  {
    if sent != [] && k > 0 {
      assert sent[..k][1..] == sent[1..][..k - 1];
      IdBearingAt(sent[1..], k - 1);
    } else {
      assert sent[..k] == [];
    }
  }

  lemma {:induction false} IdBearingSplit(sent: seq<Frame>, k: nat)
    requires k <= |sent|
    ensures IdBearing(sent) == IdBearing(sent[..k]) + IdBearing(sent[k..])
    decreases |sent|
  {
    if k > 0 {
      assert sent[..k][1..] == sent[1..][..k - 1];
      IdBearingSplit(sent[1..], k - 1);
    } else {
      assert sent[..k] == [] && sent[k..] == sent;
    }
  }

  /** A connection that is delivered whole reaches every logged frame. */
  lemma {:induction false} WholeReaches(x: Connection)
    requires x.cut == |WireAll(x.sent)|
    ensures Reaches(x)
  {
    WireAllIsConcat(x.sent);
    CutAtEnd(Wires(x.sent));
  }

  lemma {:induction false} CutAtEnd(pieces: seq<string>)
    ensures CutOf(pieces, |Concat(pieces)|).whole == |pieces|
    decreases |pieces|
  {
    if pieces != [] {
      CutAtEnd(pieces[1..]);
    }
  }

  lemma {:induction false} EntryFramesAt(log: seq<Entry>, c: Codec, i: nat)
    requires i < |log|
    ensures |EntryFrames(log, c)| == |log| && EntryFrames(log, c)[i] == EntryFrame(log[i], c)
    decreases |log|
  {
    if i > 0 {
      EntryFramesAt(log[1..], c, i - 1);
    } else if |log| > 1 {
      EntryFramesAt(log[1..], c, 0);
    }
  }

  /** Frames that arrived whole: their id-bearing part, as the client sees it. */
  lemma {:induction false} WholeFrames(sent: seq<Frame>, entries: seq<Entry>, c: Codec)
    requires Numerals(c) && Stream(sent, c.isObject) && IdBearing(sent) == EntryFrames(entries, c)
    ensures WithId(ChatMeaning(Meaning(sent), c.toInt)) == LogFrames(entries)
    decreases |sent|
  {
    if sent != [] {
      var f, rest := sent[0], sent[1..];
      assert f in sent;
      forall g | g in rest ensures g in sent {}
      if f.id.Some? {
        assert entries != [];
        assert f == EntryFrame(entries[0], c) && IdBearing(rest) == EntryFrames(entries[1..], c) by {
          assert EntryFrames(entries, c)[1..] == EntryFrames(entries[1..], c);
          assert IdBearing(sent)[1..] == IdBearing(rest);
        }
        WholeFrames(rest, entries[1..], c);
        assert Meaning(sent)[1..] == Meaning(rest);
        assert ChatMeaning(Meaning(sent), c.toInt)[1..] == ChatMeaning(Meaning(rest), c.toInt);
      } else {
        WholeFrames(rest, entries, c);
        if f.data.Some? {
          assert Meaning(sent)[1..] == Meaning(rest);
          assert ChatMeaning(Meaning(sent), c.toInt)[1..] == ChatMeaning(Meaning(rest), c.toInt);
        } else {
          assert Meaning(sent) == Meaning(rest);
        }
      }
    }
  }

  lemma {:induction false} EntryCount(log: seq<Entry>, c: Codec)
    ensures |EntryFrames(log, c)| == |log|
    decreases |log|
  {
    if log != [] {
      EntryCount(log[1..], c);
    }
  }

  lemma {:induction false} EntryFramesPrefix(log: seq<Entry>, c: Codec, m: nat)
    requires m <= |log|
    ensures |EntryFrames(log, c)| == |log| && EntryFrames(log, c)[..m] == EntryFrames(log[..m], c)
    decreases |log|
  {
    EntryCount(log, c);
    if m > 0 {
      EntryFramesPrefix(log[1..], c, m - 1);
      assert log[..m][1..] == log[1..][..m - 1];
    }
  }

  /** The frames that arrived whole are the first entries, and the frame that was cut, if it
      bears an id, is the next one. */
  lemma {:induction false} WholePart(sent: seq<Frame>, k: nat, entries: seq<Entry>, c: Codec)
    requires Numerals(c) && Stream(sent, c.isObject) && IdBearing(sent) == EntryFrames(entries, c) && k <= |sent|
    ensures var m := |IdBearing(sent[..k])|;
      && m <= |entries|
      && WithId(ChatMeaning(Meaning(sent[..k]), c.toInt)) == LogFrames(entries[..m])
      && (k < |sent| && sent[k].id.Some? ==> m < |entries| && sent[k] == EntryFrame(entries[m], c))
  {
    var front := sent[..k];
    var m := |IdBearing(front)|;
    IdBearingAt(sent, k);
    EntryCount(entries, c);
    EntryFramesPrefix(entries, c, m);
    forall f | f in front ensures f in sent {}
    WholeFrames(front, entries[..m], c);
    if k < |sent| && sent[k].id.Some? {
      EntryFramesAt(entries, c, m);
    }
  }

  /** What a clean end makes of a cut logged frame: nothing, or one frame with its id, whose data
      is right exactly when the cut did not tear it. */
  lemma {:induction false} CutEntry(e: Entry, p: nat, c: Codec)
    requires Numerals(c) && e.data != []
    ensures var f, r := EntryFrame(e, c), Remnant(EntryFrame(e, c), p, c.toInt);
      (r == [] && !Torn(f, p))
      || (|r| == 1 && r[0].eventId == Some(e.id) && (r[0].data == e.data <==> !Torn(f, p)))
  {
    var f := EntryFrame(e, c);
    var off := DataOffset(f);
    if p >= off + 5 {
      var m := if p < off + 6 then 0 else p - off - 6;
      assert m < |e.data| ==> |e.data[..m]| == m;
    }
  }

  /** `frames` carries the ids of `entries` from its `n`-th on. */
  ghost predicate SameIds(frames: seq<ChatFrame>, entries: seq<Entry>, n: nat) {
    n + |frames| <= |entries|
    && forall i :: 0 <= i < |frames| ==> frames[i].eventId == Some(entries[n + i].id)
  }

  ghost predicate SameData(frames: seq<ChatFrame>, entries: seq<Entry>, n: nat)
    requires n + |frames| <= |entries|
  {
    forall i :: 0 <= i < |frames| ==> frames[i].data == entries[n + i].data
  }

  lemma {:induction false} RemnantWithId(rest: seq<ChatFrame>)
    requires |rest| <= 1
    ensures WithId(rest) == if rest != [] && rest[0].eventId.Some? then [rest[0]] else []
  {
    if rest != [] {
      assert rest[1..] == [];
    }
  }

  /** The id-bearing frames of one connection: whole entries, and perhaps a remnant of the next. */
  lemma {:induction false} DeliveredShape(x: Connection, entries: seq<Entry>, c: Codec, m: nat, rest: seq<ChatFrame>)
    requires Numerals(c) && Stream(x.sent, c.isObject) && IdBearing(x.sent) == EntryFrames(entries, c)
    requires x.cut <= |WireAll(x.sent)|
    requires var at := CutOf(Wires(x.sent), x.cut);
      && at.whole <= |x.sent| && m == |IdBearing(x.sent[..at.whole])|
      && rest == if x.clean && at.whole < |x.sent| then Remnant(x.sent[at.whole], at.extra, c.toInt) else []
    ensures m <= |entries| && WithId(Received(x, c)) == LogFrames(entries[..m]) + WithId(rest)
  {
    var at := CutOf(Wires(x.sent), x.cut);
    ReceivedIs(x, c);
    WholePart(x.sent, at.whole, entries, c);
    WithIdAppend(ChatMeaning(Meaning(x.sent[..at.whole]), c.toInt), rest);
  }

  /** What the remnant is worth. */
  lemma {:induction false} RemnantDelivers(f: Frame, p: nat, entries: seq<Entry>, m: nat, c: Codec)
    requires Numerals(c) && (f.id.Some? ==> m < |entries| && f == EntryFrame(entries[m], c) && entries[m].data != [])
    requires m <= |entries|
    ensures var got := WithId(Remnant(f, p, c.toInt));
      |got| <= 1 && SameIds(got, entries, m) && (SameData(got, entries, m) <==> !(f.id.Some? && Torn(f, p)))
  {
    RemnantWithId(Remnant(f, p, c.toInt));
    if f.id.Some? {
      CutEntry(entries[m], p, c);
    }
  }

  /** Whether the remnant counts. */
  lemma {:induction false} RemnantCounts(f: Frame, p: nat, c: Codec)
    requires Numerals(c) && (f.id.Some? ==> exists e: Entry :: f == EntryFrame(e, c))
    ensures |WithId(Remnant(f, p, c.toInt))| == if f.id.Some? && Begun(f, p) then 1 else 0
  {
    RemnantWithId(Remnant(f, p, c.toInt));
  }

  /** All the entries arrive exactly when the connection reaches them. */
  lemma {:induction false} DeliversAll(x: Connection, entries: seq<Entry>, c: Codec, m: nat, rest: seq<ChatFrame>)
    requires Numerals(c) && Stream(x.sent, c.isObject) && IdBearing(x.sent) == EntryFrames(entries, c)
    requires var at := CutOf(Wires(x.sent), x.cut);
      && at.whole <= |x.sent| && m == |IdBearing(x.sent[..at.whole])|
      && rest == if x.clean && at.whole < |x.sent| then Remnant(x.sent[at.whole], at.extra, c.toInt) else []
    ensures m + |WithId(rest)| == |entries| <==> Reaches(x)
  {
    var at := CutOf(Wires(x.sent), x.cut);
    EntryCount(entries, c);
    IdBearingSplit(x.sent, at.whole);
    if at.whole < |x.sent| {
      var f := x.sent[at.whole];
      assert x.sent[at.whole..][1..] == x.sent[at.whole + 1..];
      WholePart(x.sent, at.whole, entries, c);
      RemnantCounts(f, at.extra, c);
    }
  }

  /** What one connection delivers of the entries it is served. */
  lemma {:induction false} ConnectionDelivers(x: Connection, entries: seq<Entry>, c: Codec)
    requires Numerals(c) && Stream(x.sent, c.isObject) && IdBearing(x.sent) == EntryFrames(entries, c)
    requires x.cut <= |WireAll(x.sent)| && forall i :: 0 <= i < |entries| ==> entries[i].data != []
    ensures var got := WithId(Received(x, c));
      && SameIds(got, entries, 0) && (SameData(got, entries, 0) <==> !TornEnd(x))
      && (|got| == |entries| <==> Reaches(x))
  {
    var at := CutOf(Wires(x.sent), x.cut);
    CutWire(x.sent, x.cut);
    var m := |IdBearing(x.sent[..at.whole])|;
    var rest := if x.clean && at.whole < |x.sent| then Remnant(x.sent[at.whole], at.extra, c.toInt) else [];
    DeliveredShape(x, entries, c, m, rest);
    RestDelivers(x, at, entries, m, c, rest);
    WholeRight(entries, m);
    LastDecides(LogFrames(entries[..m]), WithId(rest), entries);
    DeliversAll(x, entries, c, m, rest);
  }

  lemma {:induction false} WholeRight(entries: seq<Entry>, m: nat)
    requires m <= |entries|
    ensures var whole := LogFrames(entries[..m]); |whole| == m && SameIds(whole, entries, 0) && SameData(whole, entries, 0)
  {
  }

  lemma {:induction false} RestDelivers(x: Connection, at: Cut, entries: seq<Entry>, m: nat, c: Codec, rest: seq<ChatFrame>)
    requires Numerals(c) && Stream(x.sent, c.isObject) && IdBearing(x.sent) == EntryFrames(entries, c)
    requires at == CutOf(Wires(x.sent), x.cut) && at.whole <= |x.sent| && m == |IdBearing(x.sent[..at.whole])| <= |entries|
    requires rest == if x.clean && at.whole < |x.sent| then Remnant(x.sent[at.whole], at.extra, c.toInt) else []
    requires forall i :: 0 <= i < |entries| ==> entries[i].data != []
    ensures |WithId(rest)| <= 1 && SameIds(WithId(rest), entries, m) && (SameData(WithId(rest), entries, m) <==> !TornEnd(x))
  {
    if x.clean && at.whole < |x.sent| {
      WholePart(x.sent, at.whole, entries, c);
      RemnantDelivers(x.sent[at.whole], at.extra, entries, m, c);
    }
  }

  /** The whole frames are right, so at most the last frame decides. */
  lemma {:induction false} LastDecides(whole: seq<ChatFrame>, rest: seq<ChatFrame>, entries: seq<Entry>)
    requires SameIds(whole, entries, 0) && SameData(whole, entries, 0)
    requires |rest| <= 1 && SameIds(rest, entries, |whole|)
    ensures SameIds(whole + rest, entries, 0)
    ensures SameData(whole + rest, entries, 0) <==> SameData(rest, entries, |whole|)
  {
    if rest != [] {
      assert (whole + rest)[|whole|] == rest[0];
    }
  }

  /** Invariant of a client: it holds ids of a prefix of the log, and the last of them. */
  ghost predicate HasPrefix(cl: Client, log: seq<Entry>) {
    var q := WithId(cl.queue);
    SameIds(q, log, 0) && cl.last == if q == [] then None else Some(log[|q| - 1].id)
  }

  lemma {:induction false} Combine(q: seq<ChatFrame>, got: seq<ChatFrame>, log: seq<Entry>)
    requires SameIds(q, log, 0) && SameIds(got, log[|q|..], 0)
    ensures SameIds(q + got, log, 0)
    ensures SameData(q + got, log, 0) <==> SameData(q, log, 0) && SameData(got, log[|q|..], 0)
  {
    var all := q + got;
    if SameData(all, log, 0) {
      forall i | 0 <= i < |q| ensures q[i].data == log[i].data {
        assert all[i] == q[i];
      }
      forall i | 0 <= i < |got| ensures got[i].data == log[|q|..][i].data {
        assert all[|q| + i] == got[i];
      }
    }
  }

  lemma {:induction false} ClientStep(cl: Client, frames: seq<ChatFrame>, log: seq<Entry>)
    requires HasPrefix(cl, log)
    requires SameIds(WithId(frames), log[|WithId(cl.queue)|..], 0)
    ensures HasPrefix(Client(cl.queue + frames, LastId(frames, cl.last)), log)
    ensures |WithId(cl.queue + frames)| == |WithId(cl.queue)| + |WithId(frames)|
    ensures SameData(WithId(cl.queue + frames), log, 0)
      <==> SameData(WithId(cl.queue), log, 0) && SameData(WithId(frames), log[|WithId(cl.queue)|..], 0)
  {
    WithIdAppend(cl.queue, frames);
    LastIdIs(frames, cl.last);
    Combine(WithId(cl.queue), WithId(frames), log);
  }

  lemma {:induction false} ServedRest(cl: Client, log: seq<Entry>, c: Codec)
    requires Log(log, c) && HasPrefix(cl, log)
    ensures var rest := log[|WithId(cl.queue)|..];
      Replay(log, cl.last) == rest && forall i :: 0 <= i < |rest| ==> rest[i].data != []
  {
    ReplayIsRest(log, |WithId(cl.queue)|, cl.last);
  }

  lemma {:induction false} ConnectKeeps(cl: Client, x: Connection, log: seq<Entry>, c: Codec)
    requires Numerals(c) && Log(log, c) && HasPrefix(cl, log) && Serves(x, log, cl.last, c)
    ensures HasPrefix(Connect(cl, x, c), log)
    ensures SameData(WithId(Connect(cl, x, c).queue), log, 0) <==> SameData(WithId(cl.queue), log, 0) && !TornEnd(x)
    ensures |WithId(Connect(cl, x, c).queue)| == |log| <==> Reaches(x)
    ensures |WithId(cl.queue)| == |log| ==> Reaches(x)
  {
    ServedRest(cl, log, c);
    ConnectionDelivers(x, log[|WithId(cl.queue)|..], c);
    ClientStep(cl, Received(x, c), log);
  }

  lemma {:induction false} ScheduleKeeps(cl: Client, xs: seq<Connection>, log: seq<Entry>, c: Codec)
    requires Numerals(c) && Log(log, c) && HasPrefix(cl, log) && Schedule(cl, xs, log, c)
    ensures HasPrefix(AfterAll(cl, xs, log, c), log)
    ensures SameData(WithId(AfterAll(cl, xs, log, c).queue), log, 0)
      <==> SameData(WithId(cl.queue), log, 0) && forall x :: x in xs ==> !TornEnd(x)
    ensures |WithId(AfterAll(cl, xs, log, c).queue)| == |log|
      <==> |WithId(cl.queue)| == |log| || exists x :: x in xs && Reaches(x)
    decreases |xs|
  {
    if xs != [] {
      ConnectKeeps(cl, xs[0], log, c);
      ScheduleKeeps(Connect(cl, xs[0], c), xs[1..], log, c);
      assert forall x :: x in xs <==> x == xs[0] || x in xs[1..];
    }
  }

  /** For every log and every schedule of connections cut at any character, the client receives
      the ids of a prefix of the log, each once and in order; and it receives the logged data
      with them exactly when no connection ended cleanly inside the data of a logged frame. The
      prefix is the whole log exactly when some connection reached its end. */
  lemma {:induction false} ExactlyOnce(xs: seq<Connection>, log: seq<Entry>, c: Codec)
    requires Numerals(c) && Log(log, c) && Schedule(NewClient, xs, log, c)
    ensures var q := WithId(AfterAll(NewClient, xs, log, c).queue);
      && SameIds(q, log, 0) && (SameData(q, log, 0) <==> forall x :: x in xs ==> !TornEnd(x))
      && (|q| == |log| <==> log == [] || exists x :: x in xs && Reaches(x))
      && ((exists x :: x in xs && x.cut == |WireAll(x.sent)|) ==> |q| == |log|)
  {
    forall x | x in xs && x.cut == |WireAll(x.sent)| ensures Reaches(x) {
      WholeReaches(x);
    }
    ScheduleKeeps(NewClient, xs, log, c);
  }

  /** Length of a printed event frame. */
  lemma {:induction false} FrameLength(f: Frame, isObject: IsObject)
    requires EventFrame(f, isObject)
    ensures |FrameWire(f)| > DataOffset(f) + 6
  {
    var data := "data: " + f.data.value;
    StreamFrameOk(f, isObject);
    EventLines(f, isObject);
    FrameBlock(f);
    assert WireLines(f) == HeaderLines(f) + [data];
    BlockSnoc(HeaderLines(f), data);
    BlockSnoc(HeaderLines(f) + [data], []);
  }

  /** Torn data does reach the queue, whatever is logged: a connection that ends cleanly right after
      the colon of the data line delivers the frame's id without its data. */
  lemma {:induction false} TornHappens(e: Entry, c: Codec) returns (x: Connection)
    requires Numerals(c) && Log([e], c)
    ensures Schedule(NewClient, [x], [e], c)
    ensures var q := WithId(AfterAll(NewClient, [x], [e], c).queue); SameIds(q, [e], 0) && !SameData(q, [e], 0)
  {
    var f := EntryFrame(e, c);
    assert [e][0] == e && EventFrame(f, c.isObject);
    FrameLength(f, c.isObject);
    x := Connection([f], DataOffset(f) + 5, true);
    assert WireAll([f]) == FrameWire(f) + WireAll([f][1..]) && [f][1..] == [];
    assert Replay([e], None) == [[e][0]] + Replay([e][1..], None) && [e][1..] == [];
    assert EntryFrames([e], c) == [f] + EntryFrames([e][1..], c);
    assert IdBearing([f]) == [f] + IdBearing([f][1..]);
    assert Serves(x, [e], None, c);
    assert [x][1..] == [] && x in [x];
    assert CutOf(Wires([f]), x.cut) == Cut(0, x.cut) by { assert Wires([f])[0] == FrameWire(f); }
    assert TornEnd(x);
    ExactlyOnce([x], [e], c);
  }
}
