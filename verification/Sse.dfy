/** The incremental SSE parser of testkit/sse.py, on decoded text. */
module Sse {
  import opened Common

  datatype Frame = Frame(id: Option<string>, data: Option<string>, comment: Option<string>, event: Option<string>)

  /** The fields collected since the last dispatch. */
  datatype Pending = Pending(id: Option<string>, event: Option<string>, data: seq<string>, comments: seq<string>, touched: bool)

  const NothingPending := Pending(None, None, [], [], false)

  // ---------------------------------------------------------------- lines and fields

  function FieldValue(raw: string): string {
    if raw != [] && raw[0] == ' ' then raw[1..] else raw
  }

  /** The first line of `buf` and what follows its terminator: LF, CR LF, or a CR that is
      not the last character. */
  function FirstLine(buf: string): (r: Option<(string, string)>)
    ensures r.Some? ==> |r.value.1| < |buf|
  {
    if buf == [] then None
    else if buf[0] == '\n' then Some(([], buf[1..]))
    else if buf[0] == '\r' then
      if |buf| == 1 then None else Some(([], if buf[1] == '\n' then buf[2..] else buf[1..]))
    else
      match FirstLine(buf[1..])
      case None => None
      case Some((line, rest)) => Some(([buf[0]] + line, rest))
  }

  predicate NoBreak(s: string) {
    '\n' !in s && '\r' !in s
  }

  /** `line.split(":", 1)`, with the whole line as the name when there is no colon. */
  function SplitField(line: string): (r: (string, string)) {
    if line == [] then ([], [])
    else if line[0] == ':' then ([], line[1..])
    else var (name, raw) := SplitField(line[1..]); ([line[0]] + name, raw)
  }

  function ApplyLine(p: Pending, line: string): Pending {
    if line != [] && line[0] == ':' then
      p.(touched := true, comments := p.comments + [FieldValue(line[1..])])
    else
      var (name, raw) := SplitField(line);
      var value := FieldValue(raw);
      if name == "id" then p.(touched := true, id := Some(value))
      else if name == "event" then p.(touched := true, event := Some(value))
      else if name == "data" then p.(touched := true, data := p.data + [value])
      else p
  }

  /** What a line says, by what stands before its first colon; without one the value is empty. */
  lemma {:induction false} LineMeans(p: Pending, name: string, value: string)
    requires ':' !in name
    ensures FieldValue(" " + value) == value && (value == [] || value[0] != ' ' ==> FieldValue(value) == value)
    ensures ApplyLine(p, ":" + value) == p.(touched := true, comments := p.comments + [FieldValue(value)])
    ensures name == "id" ==> ApplyLine(p, name + ":" + value) == p.(touched := true, id := Some(FieldValue(value)))
    ensures name == "event" ==> ApplyLine(p, name + ":" + value) == p.(touched := true, event := Some(FieldValue(value)))
    ensures name == "data" ==> ApplyLine(p, name + ":" + value) == p.(touched := true, data := p.data + [FieldValue(value)])
    ensures name != "" && name !in {"id", "event", "data"} ==> ApplyLine(p, name + ":" + value) == p
    ensures name != "" ==> ApplyLine(p, name) == ApplyLine(p, name + ":")
  {
    assert (" " + value)[1..] == value && (":" + value)[1..] == value;
    SplitAtColon(name, value);
    SplitAtColon(name, []);
    SplitWhole(name);
    assert name + ":" + [] == name + ":";
    if name != [] {
      assert name[0] in name && (name + ":" + value)[0] == name[0] && (name + ":")[0] == name[0];
    }
  }

  lemma {:induction false} SplitAtColon(name: string, value: string)
    requires ':' !in name
    ensures SplitField(name + ":" + value) == (name, value)
    decreases |name|
  {
    var line := name + ":" + value;
    if name == [] {
      assert line[1..] == value;
    } else {
      assert line[1..] == name[1..] + ":" + value;
      SplitAtColon(name[1..], value);
      assert [name[0]] + name[1..] == name && name[0] in name;
    }
  }

  lemma {:induction false} SplitWhole(name: string)
    requires ':' !in name
    ensures SplitField(name) == (name, [])
    decreases |name|
  {
    if name != [] {
      SplitWhole(name[1..]);
      assert [name[0]] + name[1..] == name && name[0] in name;
    }
  }

  function Join(parts: seq<string>): string {
    if parts == [] then [] else if |parts| == 1 then parts[0] else parts[0] + "\n" + Join(parts[1..])
  }

  function Joined(parts: seq<string>): Option<string> {
    if parts == [] then None else Some(Join(parts))
  }

  function Dispatched(p: Pending): seq<Frame> {
    if p.touched then [Frame(p.id, Joined(p.data), Joined(p.comments), p.event)] else []
  }

  /** What is left once every complete line of the buffer has been consumed. */
  datatype Parsed = Parsed(frames: seq<Frame>, buf: string, pending: Pending)

  function After(frames: seq<Frame>, r: Parsed): Parsed {
    Parsed(frames + r.frames, r.buf, r.pending)
  }

  /** The consume loop. */
  function Consume(buf: string, p: Pending): Parsed
    decreases |buf|
  {
    match FirstLine(buf)
    case None => Parsed([], buf, p)
    case Some((line, rest)) =>
      if line == [] then
        After(Dispatched(p), Consume(rest, if p.touched then NothingPending else p))
      else
        Consume(rest, ApplyLine(p, line))
  }

  /** The frames `finish` adds: a non-empty leftover counts as a last line, whatever it ends in. */
  function Flushed(buf: string, p: Pending): seq<Frame> {
    Dispatched(if buf == [] then p else ApplyLine(p, buf))
  }

  /** Everything read from a whole text. */
  function ParseText(text: string): Parsed {
    Consume(text, NothingPending)
  }

  function ReadToEnd(text: string): seq<Frame> {
    var r := ParseText(text);
    r.frames + Flushed(r.buf, r.pending)
  }

  // ---------------------------------------------------------------- the parser object

  /** `_take_line` as written: a scan for the first break. */
  method TakeLine(buf: string) returns (r: Option<(string, string)>)
    ensures r == FirstLine(buf)
  {
    var index := 0;
    while index < |buf|
      invariant 0 <= index <= |buf|
      invariant NoBreak(buf[..index])
    {
      var c := buf[index];
      if c == '\n' {
        // The source would strip a CR from the end of the line here; there is never one.
        assert index > 0 ==> buf[index - 1] != '\r' by { assert index > 0 ==> buf[..index][index - 1] == buf[index - 1]; }
        FirstLineAt(buf, index);
        return Some((buf[..index], buf[index + 1..]));
      }
      if c == '\r' {
        FirstLineAt(buf, index);
        if index + 1 >= |buf| {
          return None;
        }
        var rest := if buf[index + 1] == '\n' then index + 2 else index + 1;
        return Some((buf[..index], buf[rest..]));
      }
      index := index + 1;
    }
    assert buf[..index] == buf;
    NoFirstLine(buf);
    return None;
  }

  lemma {:induction false} FirstLineAt(buf: string, i: nat)
    requires i < |buf| && NoBreak(buf[..i]) && (buf[i] == '\n' || buf[i] == '\r')
    ensures FirstLine(buf) ==
      if buf[i] == '\n' then Some((buf[..i], buf[i + 1..]))
      else if i + 1 == |buf| then None
      else Some((buf[..i], if buf[i + 1] == '\n' then buf[i + 2..] else buf[i + 1..]))
  {
    if i > 0 {
      assert buf[..i][0] == buf[0];
      assert buf[1..][..i - 1] == buf[..i][1..];
      FirstLineAt(buf[1..], i - 1);
      assert buf[..i] == [buf[0]] + buf[1..][..i - 1];
    }
  }

  lemma {:induction false} NoFirstLine(buf: string)
    requires NoBreak(buf)
    ensures FirstLine(buf) == None
  {
    if buf != [] {
      NoFirstLine(buf[1..]);
    }
  }

  class SseParser {
    var buf: string
    var id: Option<string>
    var event: Option<string>
    var data: seq<string>
    var comments: seq<string>
    var touched: bool

    function State(): Pending reads this {
      Pending(id, event, data, comments, touched)
    }

    /** Between dispatches nothing is set. */
    predicate Valid() reads this {
      !touched ==> State() == NothingPending
    }

    constructor ()
      ensures Valid() && buf == [] && State() == NothingPending
    {
      buf, id, event, data, comments, touched := [], None, None, [], [], false;
    }

    method Apply(line: string)
      requires Valid()
      modifies this
      ensures Valid()
      ensures buf == old(buf) && State() == ApplyLine(old(State()), line)
    {
      if line != [] && line[0] == ':' {
        touched := true;
        comments := comments + [FieldValue(line[1..])];
        return;
      }
      var (name, raw) := SplitField(line);
      var value := FieldValue(raw);
      if name == "id" {
        touched, id := true, Some(value);
      } else if name == "event" {
        touched, event := true, Some(value);
      } else if name == "data" {
        touched, data := true, data + [value];
      }
    }

    method Dispatch() returns (frames: seq<Frame>)
      requires Valid()
      modifies this
      ensures frames == Dispatched(old(State()))
      ensures buf == old(buf)
      ensures State() == NothingPending
    {
      if !touched {
        return [];
      }
      frames := [Frame(id, Joined(data), Joined(comments), event)];
      id, event, data, comments, touched := None, None, [], [], false;
    }

    method Feed(text: string) returns (frames: seq<Frame>)
      requires Valid()
      modifies this
      ensures Valid()
      ensures Parsed(frames, buf, State()) == Consume(old(buf) + text, old(State()))
    {
      buf := buf + text;
      frames := [];
      ghost var goal := Consume(buf, State());
      while true
        invariant Valid()
        invariant goal == After(frames, Consume(buf, State()))
        decreases |buf|
      {
        var split := TakeLine(buf);
        if split.None? {
          return;
        }
        var line := split.value.0;
        buf := split.value.1;
        if line == [] {
          var dispatched := Dispatch();
          AfterAfter(frames, dispatched, Consume(buf, State()));
          frames := frames + dispatched;
        } else {
          Apply(line);
        }
      }
    }

    method Finish() returns (frames: seq<Frame>)
      requires Valid()
      modifies this
      ensures var r := Consume(old(buf), old(State()));
        frames == r.frames + Flushed(r.buf, r.pending)
      ensures buf == [] && State() == NothingPending
    {
      frames := Feed([]);
      assert old(buf) + [] == old(buf);
      if buf != [] {
        Apply(buf);
        buf := [];
      }
      var dispatched := Dispatch();
      frames := frames + dispatched;
    }
  }

  // ---------------------------------------------------------------- chunks

  function Concat(chunks: seq<string>): string {
    if chunks == [] then [] else chunks[0] + Concat(chunks[1..])
  }

  lemma {:induction false} ConcatStep(buf: string, chunks: seq<string>)
    requires chunks != []
    ensures (buf + chunks[0]) + Concat(chunks[1..]) == buf + Concat(chunks)
  {
  }

  /** More text after a complete line does not change the line: a trailing CR waits. */
  lemma {:induction false} FirstLineExtends(buf: string, more: string)
    requires FirstLine(buf).Some?
    ensures FirstLine(buf + more) == Some((FirstLine(buf).value.0, FirstLine(buf).value.1 + more))
  {
    assert (buf + more)[1..] == buf[1..] + more;
    if buf[0] == '\r' {
      assert (buf + more)[2..] == buf[2..] + more;
    } else if buf[0] != '\n' {
      FirstLineExtends(buf[1..], more);
    }
  }

  /** Consuming text in two pieces is consuming it at once. */
  lemma {:induction false} ConsumeSplit(buf: string, more: string, p: Pending)
    ensures Consume(buf + more, p) ==
      var first := Consume(buf, p);
      After(first.frames, Consume(first.buf + more, first.pending))
    decreases |buf|
  {
    if FirstLine(buf).Some? {
      FirstLineExtends(buf, more);
      var (line, rest) := FirstLine(buf).value;
      if line == [] {
        var q := if p.touched then NothingPending else p;
        ConsumeSplit(rest, more, q);
        var first := Consume(rest, q);
        AfterAfter(Dispatched(p), first.frames, Consume(first.buf + more, first.pending));
      } else {
        ConsumeSplit(rest, more, ApplyLine(p, line));
      }
    }
  }

  lemma {:induction false} AfterAfter(xs: seq<Frame>, ys: seq<Frame>, r: Parsed)
    ensures After(xs, After(ys, r)) == After(xs + ys, r)
  {
    assert xs + (ys + r.frames) == xs + ys + r.frames;
  }

  /** Feeding chunks one after the other. */
  function FeedAll(chunks: seq<string>, buf: string, p: Pending): Parsed {
    if chunks == [] then Consume(buf, p)
    else
      var first := Consume(buf + chunks[0], p);
      After(first.frames, FeedAll(chunks[1..], first.buf, first.pending))
  }

  /** Frames, leftover and pending fields do not depend on how the text was cut, even when a
      CR LF pair straddles two chunks. */
  lemma {:induction false} ChunkIndependence(chunks: seq<string>, buf: string, p: Pending)
    ensures FeedAll(chunks, buf, p) == Consume(buf + Concat(chunks), p)
    decreases |chunks|
  {
    if chunks == [] {
      assert buf + Concat(chunks) == buf;
    } else {
      var head, tail := buf + chunks[0], Concat(chunks[1..]);
      var first := Consume(head, p);
      ChunkIndependence(chunks[1..], first.buf, first.pending);
      ConsumeSplit(head, tail, p);
      ConcatStep(buf, chunks);
    }
  }

  lemma {:induction false} WholeText(chunks: seq<string>)
    ensures FeedAll(chunks, [], NothingPending) == ParseText(Concat(chunks))
  {
    ChunkIndependence(chunks, [], NothingPending);
    assert [] + Concat(chunks) == Concat(chunks);
  }

  lemma {:induction false} FeedAllStep(chunks: seq<string>, i: nat, buf: string, p: Pending, frames: seq<Frame>)
    requires i < |chunks|
    ensures var first := Consume(buf + chunks[i], p);
      After(frames, FeedAll(chunks[i..], buf, p)) == After(frames + first.frames, FeedAll(chunks[i + 1..], first.buf, first.pending))
  {
    var first := Consume(buf + chunks[i], p);
    assert chunks[i..][0] == chunks[i] && chunks[i..][1..] == chunks[i + 1..];
    AfterAfter(frames, first.frames, FeedAll(chunks[i + 1..], first.buf, first.pending));
  }

  /** The testkit's `iter_sse_frames`: every split of a text into chunks gives the frames of
      the whole text, the flushed one included. */
  method ReadChunks(chunks: seq<string>) returns (frames: seq<Frame>)
    ensures frames == ReadToEnd(Concat(chunks))
  {
    var parser := new SseParser();
    frames := [];
    ghost var goal := FeedAll(chunks, [], NothingPending);
    WholeText(chunks);
    assert chunks[0..] == chunks;
    for i := 0 to |chunks|
      invariant parser.Valid()
      invariant goal == After(frames, FeedAll(chunks[i..], parser.buf, parser.State()))
    {
      FeedAllStep(chunks, i, parser.buf, parser.State(), frames);
      var more := parser.Feed(chunks[i]);
      frames := frames + more;
    }
    assert chunks[|chunks|..] == [];
    ghost var end := Consume(parser.buf, parser.State());
    assert goal == After(frames, end);
    var last := parser.Finish();
    assert frames + (end.frames + Flushed(end.buf, end.pending)) == frames + end.frames + Flushed(end.buf, end.pending);
    frames := frames + last;
  }
}
