/** `_frame_wire` of regression/drivers/gateway.py against the parser of testkit/sse.py. */
module SseRoundTrip {
  import opened Common
  import opened Sse

  /** `s.split("\n")`: never empty. */
  function SplitLines(s: string): (r: seq<string>)
    ensures r != []
  {
    if s == [] then [[]]
    else
      var rest := SplitLines(s[1..]);
      if s[0] == '\n' then [[]] + rest else [[s[0]] + rest[0]] + rest[1..]
  }

  function Prefixed(prefix: string, parts: seq<string>): (r: seq<string>)
    ensures |r| == |parts|
  {
    if parts == [] then [] else [prefix + parts[0]] + Prefixed(prefix, parts[1..])
  }

  function FieldLines(prefix: string, value: Option<string>): seq<string> {
    if value.None? then [] else Prefixed(prefix, SplitLines(value.value))
  }

  function OneLine(prefix: string, value: Option<string>): seq<string> {
    if value.None? then [] else [prefix + value.value]
  }

  function WireLines(f: Frame): seq<string> {
    OneLine("id: ", f.id) + OneLine("event: ", f.event) + FieldLines("data: ", f.data) + FieldLines(": ", f.comment)
  }

  function FrameWire(f: Frame): string {
    Join(WireLines(f)) + "\n\n"
  }

  function WireAll(frames: seq<Frame>): string {
    if frames == [] then [] else FrameWire(frames[0]) + WireAll(frames[1..])
  }

  // ---------------------------------------------------------------- which frames survive

  predicate NoCr(s: string) { '\r' !in s }

  /** The frames the wire format can carry. */
  predicate WellFormed(f: Frame) {
    && (f.id.Some? || f.event.Some? || f.data.Some? || f.comment.Some?)
    && (f.id.Some? ==> NoBreak(f.id.value))
    && (f.event.Some? ==> NoBreak(f.event.value))
    && (f.data.Some? ==> NoCr(f.data.value))
    && (f.comment.Some? ==> NoCr(f.comment.value))
  }

  // ---------------------------------------------------------------- joining and splitting

  lemma {:induction false} JoinFirst(c: char, parts: seq<string>)
    requires |parts| > 1
    ensures Join([[c] + parts[0]] + parts[1..]) == [c] + Join(parts)
  {
    var longer := [[c] + parts[0]] + parts[1..];
    assert longer[1..] == parts[1..];
    assert Join(longer) == [c] + parts[0] + "\n" + Join(parts[1..]);
  }

  lemma {:induction false} JoinTail(parts: seq<string>)
    requires parts != []
    ensures Join([[]] + parts) == "\n" + Join(parts)
  {
    assert ([[]] + parts)[1..] == parts;
    assert [] + "\n" == "\n";
  }

  lemma {:induction false} JoinSplit(s: string)
    ensures Join(SplitLines(s)) == s
    decreases |s|
  {
    if s != [] {
      var rest := SplitLines(s[1..]);
      JoinSplit(s[1..]);
      assert s == [s[0]] + s[1..];
      if s[0] == '\n' {
        JoinTail(rest);
      } else if |rest| == 1 {
        assert rest[1..] == [] && SplitLines(s) == [[s[0]] + rest[0]];
      } else {
        JoinFirst(s[0], rest);
      }
    }
  }

  predicate AllNoBreak(parts: seq<string>) {
    forall part :: part in parts ==> NoBreak(part)
  }

  lemma {:induction false} SplitNoBreak(s: string)
    requires NoCr(s)
    ensures AllNoBreak(SplitLines(s))
  {
    if s != [] {
      var rest := SplitLines(s[1..]);
      SplitNoBreak(s[1..]);
      assert rest[0] in rest;
    }
  }

  lemma {:induction false} JoinNoCr(parts: seq<string>)
    requires AllNoBreak(parts)
    ensures NoCr(Join(parts))
  {
    if parts != [] {
      assert parts[0] in parts;
      JoinNoCr(parts[1..]);
    }
  }

  // ---------------------------------------------------------------- lines to fields

  predicate GoodLine(line: string) {
    line != [] && NoBreak(line)
  }

  predicate GoodLines(lines: seq<string>) {
    forall line :: line in lines ==> GoodLine(line)
  }

  function ApplyAll(p: Pending, lines: seq<string>): Pending
    decreases |lines|
  {
    if lines == [] then p else ApplyAll(ApplyLine(p, lines[0]), lines[1..])
  }

  lemma {:induction false} ApplyAllAppend(p: Pending, xs: seq<string>, ys: seq<string>)
    ensures ApplyAll(p, xs + ys) == ApplyAll(ApplyAll(p, xs), ys)
    decreases |xs|
  {
    if xs == [] {
      assert xs + ys == ys;
    } else {
      assert (xs + ys)[1..] == xs[1..] + ys;
      ApplyAllAppend(ApplyLine(p, xs[0]), xs[1..], ys);
    }
  }

  lemma {:induction false} ConsumeLine(line: string, rest: string, p: Pending)
    requires NoBreak(line)
    ensures Consume(line + "\n" + rest, p) ==
      if line == [] then After(Dispatched(p), Consume(rest, if p.touched then NothingPending else p))
      else Consume(rest, ApplyLine(p, line))
  {
    var buf := line + "\n" + rest;
    assert buf[..|line|] == line && buf[|line|] == '\n' && buf[|line| + 1..] == rest;
    FirstLineAt(buf, |line|);
  }

  /** Lines with their terminators. */
  function Block(lines: seq<string>): string {
    if lines == [] then [] else lines[0] + "\n" + Block(lines[1..])
  }

  lemma {:induction false} BlockIsJoin(lines: seq<string>)
    requires lines != []
    ensures Block(lines) == Join(lines) + "\n"
  {
    if |lines| > 1 {
      BlockIsJoin(lines[1..]);
    }
  }

  lemma {:induction false} ConsumeBlock(lines: seq<string>, rest: string, p: Pending)
    requires GoodLines(lines)
    ensures Consume(Block(lines) + rest, p) == Consume(rest, ApplyAll(p, lines))
    decreases |lines|
  {
    if lines == [] {
      assert Block(lines) + rest == rest;
    } else {
      var tail := Block(lines[1..]) + rest;
      assert lines[0] in lines;
      assert Block(lines) + rest == lines[0] + "\n" + tail;
      ConsumeLine(lines[0], tail, p);
      ConsumeBlock(lines[1..], rest, ApplyLine(p, lines[0]));
    }
  }

  lemma {:induction false} ApplyId(p: Pending, v: string)
    ensures ApplyLine(p, "id: " + v) == p.(touched := true, id := Some(v))
  {
    FieldSplit("id", " " + v);
    assert "id" + ":" + (" " + v) == "id: " + v;
    assert (" " + v)[1..] == v;
  }

  lemma {:induction false} ApplyEvent(p: Pending, v: string)
    ensures ApplyLine(p, "event: " + v) == p.(touched := true, event := Some(v))
  {
    FieldSplit("event", " " + v);
    assert "event" + ":" + (" " + v) == "event: " + v;
    assert (" " + v)[1..] == v;
  }

  lemma {:induction false} ApplyData(p: Pending, v: string)
    ensures ApplyLine(p, "data: " + v) == p.(touched := true, data := p.data + [v])
  {
    FieldSplit("data", " " + v);
    assert "data" + ":" + (" " + v) == "data: " + v;
    assert (" " + v)[1..] == v;
  }

  lemma {:induction false} ApplyComment(p: Pending, v: string)
    ensures ApplyLine(p, ": " + v) == p.(touched := true, comments := p.comments + [v])
  {
    assert (": " + v)[1..] == " " + v && (" " + v)[1..] == v;
  }

  lemma {:induction false} FieldSplit(name: string, raw: string)
    requires ':' !in name
    ensures SplitField(name + ":" + raw) == (name, raw)
  {
    var line := name + ":" + raw;
    if name == [] {
      assert line[1..] == raw;
    } else {
      assert line[0] == name[0];
      assert line[1..] == name[1..] + ":" + raw;
      FieldSplit(name[1..], raw);
      assert [name[0]] + name[1..] == name;
    }
  }

  lemma {:induction false} ApplyDataLines(p: Pending, parts: seq<string>)
    requires p.touched
    ensures ApplyAll(p, Prefixed("data: ", parts)) == p.(data := p.data + parts)
    decreases |parts|
  {
    if parts == [] {
      assert p.data + parts == p.data;
    } else {
      ApplyData(p, parts[0]);
      ApplyDataLines(p.(data := p.data + [parts[0]]), parts[1..]);
      assert p.data + [parts[0]] + parts[1..] == p.data + parts;
    }
  }

  lemma {:induction false} ApplyCommentLines(p: Pending, parts: seq<string>)
    requires p.touched
    ensures ApplyAll(p, Prefixed(": ", parts)) == p.(comments := p.comments + parts)
    decreases |parts|
  {
    if parts == [] {
      assert p.comments + parts == p.comments;
    } else {
      ApplyComment(p, parts[0]);
      ApplyCommentLines(p.(comments := p.comments + [parts[0]]), parts[1..]);
      assert p.comments + [parts[0]] + parts[1..] == p.comments + parts;
    }
  }

  function Parts(value: Option<string>): seq<string> {
    if value.None? then [] else SplitLines(value.value)
  }

  lemma {:induction false} ApplyDataField(p: Pending, data: Option<string>)
    ensures ApplyAll(p, FieldLines("data: ", data)) ==
      p.(touched := p.touched || data.Some?, data := p.data + Parts(data))
  {
    if data.Some? {
      var parts := SplitLines(data.value);
      ApplyData(p, parts[0]);
      ApplyDataLines(p.(touched := true, data := p.data + [parts[0]]), parts[1..]);
      assert p.data + [parts[0]] + parts[1..] == p.data + parts;
    } else {
      assert p.data + [] == p.data;
    }
  }

  lemma {:induction false} ApplyCommentField(p: Pending, comment: Option<string>)
    ensures ApplyAll(p, FieldLines(": ", comment)) ==
      p.(touched := p.touched || comment.Some?, comments := p.comments + Parts(comment))
  {
    if comment.Some? {
      var parts := SplitLines(comment.value);
      ApplyComment(p, parts[0]);
      ApplyCommentLines(p.(touched := true, comments := p.comments + [parts[0]]), parts[1..]);
      assert p.comments + [parts[0]] + parts[1..] == p.comments + parts;
    } else {
      assert p.comments + [] == p.comments;
    }
  }

  lemma {:induction false} ApplyOneLine(p: Pending, f: Frame)
    ensures ApplyAll(p, OneLine("id: ", f.id)) ==
      if f.id.Some? then p.(touched := true, id := f.id) else p
    ensures ApplyAll(p, OneLine("event: ", f.event)) ==
      if f.event.Some? then p.(touched := true, event := f.event) else p
  {
    if f.id.Some? { ApplyId(p, f.id.value); }
    if f.event.Some? { ApplyEvent(p, f.event.value); }
  }

  /** The id and event lines of a frame. */
  lemma {:induction false} ApplyHeader(f: Frame)
    ensures ApplyAll(NothingPending, OneLine("id: ", f.id) + OneLine("event: ", f.event))
      == Pending(f.id, f.event, [], [], f.id.Some? || f.event.Some?)
  {
    ApplyAllAppend(NothingPending, OneLine("id: ", f.id), OneLine("event: ", f.event));
    ApplyOneLine(NothingPending, f);
    ApplyOneLine(Pending(f.id, None, [], [], f.id.Some?), f);
  }

  /** The data and comment lines of a frame. */
  lemma {:induction false} ApplyBody(q: Pending, f: Frame)
    requires q.data == [] && q.comments == []
    ensures ApplyAll(q, FieldLines("data: ", f.data) + FieldLines(": ", f.comment))
      == q.(data := Parts(f.data), comments := Parts(f.comment), touched := q.touched || f.data.Some? || f.comment.Some?)
  {
    ApplyAllAppend(q, FieldLines("data: ", f.data), FieldLines(": ", f.comment));
    ApplyDataField(q, f.data);
    assert [] + Parts(f.data) == Parts(f.data);
    var r := q.(data := Parts(f.data), touched := q.touched || f.data.Some?);
    ApplyCommentField(r, f.comment);
    assert [] + Parts(f.comment) == Parts(f.comment);
  }

  lemma {:induction false} ApplyWire(f: Frame)
    requires WellFormed(f)
    ensures ApplyAll(NothingPending, WireLines(f)) == Pending(f.id, f.event, Parts(f.data), Parts(f.comment), true)
  {
    ApplyHeader(f);
    ApplyBody(Pending(f.id, f.event, [], [], f.id.Some? || f.event.Some?), f);
    ApplyTwo(OneLine("id: ", f.id), OneLine("event: ", f.event), FieldLines("data: ", f.data), FieldLines(": ", f.comment));
  }

  lemma {:induction false} ApplyTwo(a: seq<string>, b: seq<string>, c: seq<string>, d: seq<string>)
    ensures ApplyAll(NothingPending, a + b + c + d) == ApplyAll(ApplyAll(NothingPending, a + b), c + d)
  {
    assert a + b + c + d == (a + b) + (c + d);
    ApplyAllAppend(NothingPending, a + b, c + d);
  }

  lemma {:induction false} PrefixedGood(prefix: string, parts: seq<string>)
    requires GoodLine(prefix) && AllNoBreak(parts)
    ensures GoodLines(Prefixed(prefix, parts))
  {
    if parts != [] {
      assert parts[0] in parts;
      PrefixedGood(prefix, parts[1..]);
    }
  }

  lemma {:induction false} WireLinesGood(f: Frame)
    requires WellFormed(f)
    ensures WireLines(f) != [] && GoodLines(WireLines(f))
  {
    if f.data.Some? {
      SplitNoBreak(f.data.value);
      PrefixedGood("data: ", SplitLines(f.data.value));
    }
    if f.comment.Some? {
      SplitNoBreak(f.comment.value);
      PrefixedGood(": ", SplitLines(f.comment.value));
    }
  }

  lemma {:induction false} JoinedParts(value: Option<string>)
    ensures Joined(Parts(value)) == value
  {
    if value.Some? { JoinSplit(value.value); }
  }

  /** A printed frame is read back, whatever follows it. */
  lemma {:induction false} FrameReadBack(f: Frame, rest: string)
    requires WellFormed(f)
    ensures Consume(FrameWire(f) + rest, NothingPending) == After([f], Consume(rest, NothingPending))
  {
    var lines := WireLines(f);
    WireLinesGood(f);
    BlockIsJoin(lines);
    assert FrameWire(f) + rest == Block(lines) + ([] + "\n" + rest);
    ConsumeBlock(lines, [] + "\n" + rest, NothingPending);
    ApplyWire(f);
    ConsumeLine([], rest, ApplyAll(NothingPending, lines));
    JoinedParts(f.data);
    JoinedParts(f.comment);
  }

  predicate AllWellFormed(frames: seq<Frame>) {
    forall f :: f in frames ==> WellFormed(f)
  }

  lemma {:induction false} WireReadBack(frames: seq<Frame>)
    requires AllWellFormed(frames)
    ensures ParseText(WireAll(frames)) == Parsed(frames, [], NothingPending)
  {
    if frames != [] {
      assert frames[0] in frames;
      FrameReadBack(frames[0], WireAll(frames[1..]));
      WireReadBack(frames[1..]);
      assert frames == [frames[0]] + frames[1..];
    }
  }

  // ---------------------------------------------------------------- what the parser can return

  predicate OptionNoBreak(v: Option<string>) {
    v.Some? ==> NoBreak(v.value)
  }

  ghost predicate PendingOk(p: Pending) {
    && OptionNoBreak(p.id) && OptionNoBreak(p.event) && AllNoBreak(p.data) && AllNoBreak(p.comments)
    && p.touched == (p.id.Some? || p.event.Some? || p.data != [] || p.comments != [])
  }

  lemma {:induction false} FirstLineNoBreak(buf: string)
    ensures FirstLine(buf).Some? ==> NoBreak(FirstLine(buf).value.0)
  {
    if buf != [] {
      FirstLineNoBreak(buf[1..]);
    }
  }

  lemma {:induction false} SplitFieldNoBreak(line: string)
    requires NoBreak(line)
    ensures NoBreak(SplitField(line).1)
  {
    if line != [] && line[0] != ':' {
      SplitFieldNoBreak(line[1..]);
    }
  }

  lemma {:induction false} ApplyOk(p: Pending, line: string)
    requires PendingOk(p) && NoBreak(line)
    ensures PendingOk(ApplyLine(p, line))
  {
    SplitFieldNoBreak(line);
  }

  lemma {:induction false} DispatchedOk(p: Pending)
    requires PendingOk(p)
    ensures AllWellFormed(Dispatched(p))
  {
    JoinNoCr(p.data);
    JoinNoCr(p.comments);
  }

  lemma {:induction false} ConsumeOk(buf: string, p: Pending)
    requires PendingOk(p)
    ensures AllWellFormed(Consume(buf, p).frames) && PendingOk(Consume(buf, p).pending)
    decreases |buf|
  {
    FirstLineNoBreak(buf);
    if FirstLine(buf).Some? {
      var (line, rest) := FirstLine(buf).value;
      if line == [] {
        DispatchedOk(p);
        ConsumeOk(rest, if p.touched then NothingPending else p);
      } else {
        ApplyOk(p, line);
        ConsumeOk(rest, ApplyLine(p, line));
      }
    }
  }

  // ---------------------------------------------------------------- main results

  /** Frames printed one after the other and fed in any chunks come back exactly, nothing left
      over, if and only if every frame is well formed. */
  lemma {:induction false} RoundTrip(frames: seq<Frame>, chunks: seq<string>)
    requires Concat(chunks) == WireAll(frames)
    ensures FeedAll(chunks, [], NothingPending) == Parsed(frames, [], NothingPending) <==> AllWellFormed(frames)
  {
    ChunkIndependence(chunks, [], NothingPending);
    assert [] + Concat(chunks) == Concat(chunks);
    ConsumeOk(WireAll(frames), NothingPending);
    if AllWellFormed(frames) {
      WireReadBack(frames);
    }
  }

  /** Printing what was parsed from any text and parsing again changes nothing. */
  lemma {:induction false} ReprintStable(text: string)
    ensures ParseText(WireAll(ParseText(text).frames)) == Parsed(ParseText(text).frames, [], NothingPending)
  {
    ConsumeOk(text, NothingPending);
    WireReadBack(ParseText(text).frames);
  }

  // ---------------------------------------------------------------- finish against a blank line

  /** A leftover line whose meaning changes when a CR is part of it. */
  predicate CrMatters(p: Pending, line: string) {
    line != [] &&
    (line[0] == ':'
     || (SplitField(line).0 in {"id", "event", "data"}
         && !(line == "id" && p.id == Some([]))
         && !(line == "event" && p.event == Some([]))))
  }

  predicate EndsInCr(buf: string) {
    buf != [] && buf[|buf| - 1] == '\r'
  }

  lemma {:induction false} LeftoverShape(buf: string)
    requires FirstLine(buf).None?
    ensures NoBreak(if EndsInCr(buf) then buf[..|buf| - 1] else buf)
  {
    if |buf| > 1 {
      LeftoverShape(buf[1..]);
      assert EndsInCr(buf[1..]) == EndsInCr(buf);
      if EndsInCr(buf) {
        assert buf[..|buf| - 1] == [buf[0]] + buf[1..][..|buf| - 2];
      }
    }
  }

  lemma {:induction false} SplitFieldCr(line: string)
    ensures ':' in line ==> SplitField(line + "\r") == (SplitField(line).0, SplitField(line).1 + "\r")
    ensures ':' !in line ==> SplitField(line + "\r") == (line + "\r", []) && SplitField(line) == (line, [])
  {
    var text := line + "\r";
    if line == [] {
      assert text[0] == '\r' && text[1..] == [];
      assert SplitField(text[1..]) == ([], []);
      assert [text[0]] + [] == text;
    } else {
      assert text[1..] == line[1..] + "\r";
      assert line == [line[0]] + line[1..];
      if line[0] != ':' {
        SplitFieldCr(line[1..]);
        assert [line[0]] + (line[1..] + "\r") == text;
      }
    }
  }

  lemma {:induction false} JoinAppend(parts: seq<string>, v: string)
    ensures Join(parts + [v]) == if parts == [] then v else Join(parts) + "\n" + v
  {
    if parts != [] {
      assert (parts + [v])[1..] == parts[1..] + [v];
      JoinAppend(parts[1..], v);
    }
  }

  lemma {:induction false} FieldValueCr(raw: string)
    ensures FieldValue(raw + "\r") == FieldValue(raw) + "\r"
  {
    if raw != [] {
      assert (raw + "\r")[1..] == raw[1..] + "\r";
    }
  }

  /** A longer last part, or one part more, gives a different text. */
  lemma {:induction false} JoinedDiffer(parts: seq<string>, v: string)
    ensures Joined(parts + [v]) != Joined(parts + [v + "\r"])
    ensures Joined(parts + [v]) != Joined(parts)
  {
    JoinAppend(parts, v);
    JoinAppend(parts, v + "\r");
    assert |Join(parts + [v])| != |Join(parts + [v + "\r"])|;
    assert parts != [] ==> |Join(parts + [v])| != |Join(parts)|;
  }

  lemma {:induction false} CommentCr(p: Pending, line: string)
    requires line != [] && line[0] == ':'
    ensures Dispatched(ApplyLine(p, line + "\r")) != Dispatched(ApplyLine(p, line))
  {
    FieldValueCr(line[1..]);
    assert (line + "\r")[0] == ':' && (line + "\r")[1..] == line[1..] + "\r";
    JoinedDiffer(p.comments, FieldValue(line[1..]));
  }

  lemma {:induction false} NamedCr(p: Pending, line: string)
    requires line != [] && line[0] != ':' && ':' in line
    ensures Dispatched(ApplyLine(p, line + "\r")) == Dispatched(ApplyLine(p, line))
      <==> SplitField(line).0 !in {"id", "event", "data"}
  {
    var raw := SplitField(line).1;
    SplitFieldCr(line);
    FieldValueCr(raw);
    assert (line + "\r")[0] == line[0];
    JoinedDiffer(p.data, FieldValue(raw));
  }

  lemma {:induction false} BareCr(p: Pending, line: string)
    requires PendingOk(p) && line != [] && ':' !in line
    ensures Dispatched(ApplyLine(p, line + "\r")) == Dispatched(ApplyLine(p, line)) <==> !CrMatters(p, line)
  {
    SplitFieldCr(line);
    assert (line + "\r")[0] == line[0] && (line + "\r")[|line|] == '\r';
    assert ApplyLine(p, line + "\r") == p;
    JoinedDiffer(p.data, FieldValue([]));
  }

  /** Whether the CR changes what the last line contributes. */
  lemma {:induction false} CrChangesFrame(p: Pending, line: string)
    requires PendingOk(p) && line != []
    ensures Dispatched(ApplyLine(p, line + "\r")) == Dispatched(ApplyLine(p, line)) <==> !CrMatters(p, line)
  {
    if line[0] == ':' {
      CommentCr(p, line);
    } else if ':' in line {
      assert line != "id" && line != "event";
      NamedCr(p, line);
    } else {
      BareCr(p, line);
    }
  }

  lemma {:induction false} LoneCr(p: Pending)
    ensures ApplyLine(p, "\r") == p
  {
    SplitFieldCr([]);
    assert [] + "\r" == "\r";
  }

  /** What a blank line after the leftover gives: the leftover's line, without a CR, and the frame. */
  lemma {:induction false} BlankLineReads(buf: string, line: string, p: Pending)
    requires FirstLine(buf).None? && line == if EndsInCr(buf) then buf[..|buf| - 1] else buf
    ensures Consume(buf + "\n\n", p).frames == Dispatched(if line == [] then p else ApplyLine(p, line))
  {
    LeftoverShape(buf);
    if EndsInCr(buf) {
      assert buf == line + "\r";
      assert buf + "\n\n" == line + "\r\n" + "\n";
      LineThenBlank(line, "\r\n", p);
    } else {
      assert buf + "\n\n" == line + "\n" + "\n";
      LineThenBlank(line, "\n", p);
    }
  }

  /** A line with its terminator, LF or CR LF, and a blank line. */
  lemma {:induction false} LineThenBlank(line: string, end: string, p: Pending)
    requires NoBreak(line) && end in {"\n", "\r\n"}
    ensures Consume(line + end + "\n", p).frames == Dispatched(if line == [] then p else ApplyLine(p, line))
  {
    var text := line + end + "\n";
    assert text[..|line|] == line && text[|line| + |end|..] == "\n";
    assert end == "\n" ==> text[|line|] == '\n' && text[|line| + 1..] == "\n";
    assert end == "\r\n" ==> text[|line|] == '\r' && text[|line| + 1] == '\n' && text[|line| + 2..] == "\n";
    FirstLineAt(text, |line|);
    assert FirstLine(text) == Some((line, "\n"));
    var q := if line == [] then (if p.touched then NothingPending else p) else ApplyLine(p, line);
    BlankLast(q);
    if line == [] {
      assert Consume(text, p).frames == Dispatched(p) + Consume("\n", q).frames;
      assert Dispatched(p) + [] == Dispatched(p);
    }
  }

  lemma {:induction false} BlankLast(q: Pending)
    ensures Consume("\n", q).frames == Dispatched(q)
    ensures !q.touched ==> Consume("\n", q).frames == []
  {
    assert FirstLine("\n") == Some(([], "\n"[1..])) && "\n"[1..] == [];
    assert FirstLine([]).None?;
    assert Dispatched(q) + [] == Dispatched(q);
  }

  /** Closing the stream gives what a blank line would have given, except when the leftover ends
      in a CR that becomes part of a field. */
  lemma {:induction false} FinishIsBlankLine(buf: string, p: Pending)
    requires FirstLine(buf).None? && PendingOk(p)
    ensures Flushed(buf, p) == Consume(buf + "\n\n", p).frames
            <==> !(EndsInCr(buf) && CrMatters(p, buf[..|buf| - 1]))
  {
    var line := if EndsInCr(buf) then buf[..|buf| - 1] else buf;
    BlankLineReads(buf, line, p);
    if EndsInCr(buf) {
      assert buf == line + "\r";
      if line == [] {
        assert buf == "\r";
        LoneCr(p);
      } else {
        CrChangesFrame(p, line);
      }
    }
  }

  /** A comment whose CR is still waiting when the stream closes keeps it. */
  lemma {:induction false} FinishDiffers()
    ensures FirstLine(":\r").None?
    ensures Flushed(":\r", NothingPending) != Consume(":\r" + "\n\n", NothingPending).frames
  {
    var buf := ":\r";
    assert FirstLine(buf).None? by { assert buf[1..] == "\r"; }
    assert EndsInCr(buf) && buf[..|buf| - 1] == ":";
    FinishIsBlankLine(buf, NothingPending);
  }
}
