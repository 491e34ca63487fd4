/** What the chat client's and the live runner's readers make of any text at all, position by position:
    where a frame ends, which lines it is made of, and where a block ends. */
module SseSegments {
  import opened Common
  import opened Sse
  import opened SseRoundTrip
  import opened SseReaders

  // ---------------------------------------------------------------- the chat client

  /** The data of some lines: what follows `data:`, without leading whitespace, of each that has it. */
  function DataOf(lines: seq<string>): seq<string>
    decreases |lines|
  {
    if lines == [] then []
    else
      var n := |lines| - 1;
      if StartsWith(lines[n], "data:") then DataOf(lines[..n]) + [LStrip(lines[n][5..])] else DataOf(lines[..n])
  }

  /** The last of their ids that is a number. */
  function IdOf(lines: seq<string>, toInt: ToInt): Option<int>
    decreases |lines|
  {
    if lines == [] then None
    else
      var n := |lines| - 1;
      if StartsWith(lines[n], "id:") && toInt(Strip(lines[n][3..])).Some? then toInt(Strip(lines[n][3..]))
      else IdOf(lines[..n], toInt)
  }

  /** No blank line among them comes after a data line. */
  ghost predicate Unbroken(lines: seq<string>) {
    forall j :: 0 <= j < |lines| && lines[j] == "" ==> DataOf(lines[..j]) == []
  }

  /** The lines of the k-th frame: those after the blank line that ended the one before. */
  function Part(lines: seq<string>, ends: seq<nat>, k: nat): seq<string>
    requires k <= |ends| && forall i :: 0 <= i < |ends| ==> ends[i] < |lines|
    requires Increasing(ends)
  {
    lines[(if k == 0 then 0 else ends[k - 1] + 1)..(if k == |ends| then |lines| else ends[k])]
  }

  /** What a frame is made of: its data lines, joined, and the last number among their ids. */
  ghost predicate Makes(part: seq<string>, toInt: ToInt, frame: ChatFrame) {
    DataOf(part) != [] && Unbroken(part) && frame == ChatFrame(Join(DataOf(part)), IdOf(part, toInt))
  }

  /** Every frame ends with the first blank line after data, and is made of the lines since the last. */
  ghost predicate Frames(lines: seq<string>, toInt: ToInt, frames: seq<ChatFrame>, ends: seq<nat>) {
    && |ends| == |frames| && Increasing(ends) && (forall k :: 0 <= k < |ends| ==> ends[k] < |lines|)
    && (forall k :: 0 <= k < |ends| ==> lines[ends[k]] == "" && Makes(Part(lines, ends, k), toInt, frames[k]))
  }

  /** What is pending: the lines after the last frame. */
  ghost predicate Pends(lines: seq<string>, toInt: ToInt, ends: seq<nat>, st: ChatState)
    requires Increasing(ends) && forall k :: 0 <= k < |ends| ==> ends[k] < |lines|
  {
    var part := Part(lines, ends, |ends|);
    Unbroken(part) && st == ChatState(DataOf(part), IdOf(part, toInt))
  }

  lemma {:induction false} ReadSnoc(st: ChatState, lines: seq<string>, line: string, toInt: ToInt)
    ensures var r := ChatRead(st, lines, toInt);
      ChatRead(st, lines + [line], toInt)
        == ChatRun(r.frames + (if line == [] then ChatYield(r.st) else []), ChatLine(r.st, line, toInt))
    decreases |lines|
  {
    if lines == [] {
      assert lines + [line] == [line] && [line][1..] == [];
    } else {
      assert (lines + [line])[1..] == lines[1..] + [line] && (lines + [line])[0] == lines[0];
      ReadSnoc(ChatLine(st, lines[0], toInt), lines[1..], line, toInt);
    }
  }

  /** One more line of a frame that is not ended. */
  lemma {:induction false} PartSnoc(part: seq<string>, line: string, toInt: ToInt)
    requires Unbroken(part) && (line == "" ==> DataOf(part) == [])
    ensures Unbroken(part + [line])
    ensures ChatState(DataOf(part + [line]), IdOf(part + [line], toInt)) == ChatLine(ChatState(DataOf(part), IdOf(part, toInt)), line, toInt)
  {
    var more := part + [line];
    assert more[..|part|] == part;
    forall j | 0 <= j < |more| && more[j] == "" ensures DataOf(more[..j]) == [] {
      if j < |part| {
        assert more[..j] == part[..j];
      }
    }
    Prefixes(line);
  }

  /** A line starts with at most one of the prefixes. */
  lemma {:induction false} Prefixes(line: string)
    ensures StartsWith(line, "data:") ==> !StartsWith(line, ":") && !StartsWith(line, "id:")
    ensures StartsWith(line, "id:") ==> !StartsWith(line, ":")
  {
    if StartsWith(line, "data:") {
      assert line[0] == "data:"[0] == 'd';
    }
    if StartsWith(line, "id:") {
      assert line[0] == "id:"[0] == 'i';
    }
    if StartsWith(line, ":") {
      assert line[0] == ":"[0] == ':';
    }
  }

  lemma {:induction false} PartKept(lines: seq<string>, line: string, ends: seq<nat>, k: nat)
    requires Increasing(ends) && forall i :: 0 <= i < |ends| ==> ends[i] < |lines|
    requires k < |ends|
    ensures Part(lines + [line], ends, k) == Part(lines, ends, k)
  {
  }

  lemma {:induction false} FramesKept(lines: seq<string>, line: string, toInt: ToInt, frames: seq<ChatFrame>, ends: seq<nat>)
    requires Frames(lines, toInt, frames, ends)
    ensures Frames(lines + [line], toInt, frames, ends)
  {
    forall k | 0 <= k < |ends| ensures Part(lines + [line], ends, k) == Part(lines, ends, k) {
      PartKept(lines, line, ends, k);
    }
  }

  /** A blank line after data ends the frame. */
  lemma {:induction false} FrameEnds(lines: seq<string>, toInt: ToInt, frames: seq<ChatFrame>, ends: seq<nat>, st: ChatState)
    requires Frames(lines, toInt, frames, ends) && Pends(lines, toInt, ends, st) && st.dataLines != []
    ensures Frames(lines + [""], toInt, frames + ChatYield(st), ends + [|lines|])
    ensures Pends(lines + [""], toInt, ends + [|lines|], ChatStart)
  {
    var last := Part(lines, ends, |ends|);
    assert Makes(last, toInt, ChatFrame(Join(st.dataLines), st.eventId));
    OneMoreFrame(lines, toInt, frames, ends, ChatFrame(Join(st.dataLines), st.eventId));
    NothingPends(lines, toInt, ends);
  }

  lemma {:induction false} NothingPends(lines: seq<string>, toInt: ToInt, ends: seq<nat>)
    requires Increasing(ends) && forall i :: 0 <= i < |ends| ==> ends[i] < |lines|
    ensures Increasing(ends + [|lines|]) && Pends(lines + [""], toInt, ends + [|lines|], ChatStart)
  {
    var all, more := lines + [""], ends + [|lines|];
    assert Part(all, more, |more|) == [];
  }

  lemma {:induction false} OneMoreFrame(lines: seq<string>, toInt: ToInt, frames: seq<ChatFrame>, ends: seq<nat>, frame: ChatFrame)
    requires Frames(lines, toInt, frames, ends) && Makes(Part(lines, ends, |ends|), toInt, frame)
    ensures Frames(lines + [""], toInt, frames + [frame], ends + [|lines|])
  {
    var all, more, framed := lines + [""], ends + [|lines|], frames + [frame];
    forall k | 0 <= k < |more| ensures more[k] < |all| && all[more[k]] == "" {
    }
    forall k | 0 <= k < |more| ensures Makes(Part(all, more, k), toInt, framed[k]) {
      SamePart(lines, ends, k);
      if k < |ends| {
        assert framed[k] == frames[k];
      }
    }
  }

  lemma {:induction false} SamePart(lines: seq<string>, ends: seq<nat>, k: nat)
    requires Increasing(ends) && (forall i :: 0 <= i < |ends| ==> ends[i] < |lines|) && k <= |ends|
    ensures Increasing(ends + [|lines|])
    ensures Part(lines + [""], ends + [|lines|], k) == Part(lines, ends, k)
  {
  }

  lemma {:induction false} LinePends(lines: seq<string>, line: string, toInt: ToInt, ends: seq<nat>, st: ChatState)
    requires Increasing(ends) && forall k :: 0 <= k < |ends| ==> ends[k] < |lines|
    requires Pends(lines, toInt, ends, st) && (line == "" ==> st.dataLines == [])
    ensures Pends(lines + [line], toInt, ends, ChatLine(st, line, toInt))
  {
    var part := Part(lines, ends, |ends|);
    assert Part(lines + [line], ends, |ends|) == part + [line];
    PartSnoc(part, line, toInt);
  }

  /** For every sequence of lines, the chat client yields a frame at each blank line that comes after a
      data line since the last frame, made of the data lines since then, joined, and of the last number
      among their ids; what follows the last frame is kept, and yielded at a clean end if it has data. */
  lemma {:induction false} ChatFramesMean(lines: seq<string>, toInt: ToInt) returns (ends: seq<nat>)
    ensures var r := ChatRead(ChatStart, lines, toInt);
      Frames(lines, toInt, r.frames, ends) && Pends(lines, toInt, ends, r.st)
    decreases |lines|
  {
    ends := [];
    if lines != [] {
      var n := |lines| - 1;
      var front, line := lines[..n], lines[n];
      assert lines == front + [line];
      ends := ChatFramesMean(front, toInt);
      var r := ChatRead(ChatStart, front, toInt);
      ReadSnoc(ChatStart, front, line, toInt);
      if line == [] && r.st.dataLines != [] {
        NoPrefix();
        FrameEnds(front, toInt, r.frames, ends, r.st);
        ends := ends + [n];
      } else {
        assert r.frames + [] == r.frames;
        FramesKept(front, line, toInt, r.frames, ends);
        LinePends(front, line, toInt, ends, r.st);
      }
    }
  }

  lemma {:induction false} NoPrefix()
    ensures !StartsWith("", ":") && !StartsWith("", "id:") && !StartsWith("", "data:")
  {
  }

  // ---------------------------------------------------------------- the live runner

  /** The separators of blocks. */
  const Separators := {"\n\n", "\r\n\n", "\n\r\n", "\r\n\r\n"}

  /** A separator is recognised iff the text starts with one. */
  lemma {:induction false} SeparatorMeans(s: string)
    ensures SeparatorLength(s) > 0 ==> s[..SeparatorLength(s)] in Separators
    ensures SeparatorLength(s) == 0 ==> forall sep :: sep in Separators ==> !(sep <= s)
  {
    if SeparatorLength(s) > 0 {
      if s[0] == '\n' {
        assert if s[1] == '\r' then s[..3] == "\n\r\n" else s[..2] == "\n\n";
      } else {
        assert if s[2] == '\r' then s[..4] == "\r\n\r\n" else s[..3] == "\r\n\n";
      }
    }
    assert "\n\n" <= s ==> s[0] == '\n' && s[1] == '\n';
    assert "\r\n\n" <= s ==> s[0] == '\r' && s[1] == '\n' && s[2] == '\n';
    assert "\n\r\n" <= s ==> s[0] == '\n' && s[1] == '\r' && s[2] == '\n';
    assert "\r\n\r\n" <= s ==> s[0] == '\r' && s[1] == '\n' && s[2] == '\r' && s[3] == '\n';
  }

  /** No separator starts in the first `n` characters. */
  ghost predicate NoneBefore(s: string, n: nat)
    requires n <= |s|
  {
    forall i :: 0 <= i < n ==> SeparatorLength(s[i..]) == 0
  }

  /** The text is the block, the first separator in it, and the rest. */
  ghost predicate Cuts(s: string, block: string, rest: string) {
    && |block| < |s| && NoneBefore(s, |block|) && SeparatorLength(s[|block|..]) > 0
    && s == block + s[|block|..][..SeparatorLength(s[|block|..])] + rest
  }

  lemma {:induction false} LaterSeparators(c: char, tail: string, n: nat)
    requires SeparatorLength([c] + tail) == 0 && n <= |tail| && NoneBefore(tail, n)
    ensures NoneBefore([c] + tail, n + 1)
  {
    var s := [c] + tail;
    forall i | 0 <= i < n + 1 ensures SeparatorLength(s[i..]) == 0 {
      if i > 0 {
        assert s[i..] == tail[i - 1..];
      } else {
        assert s[0..] == s;
      }
    }
  }

  lemma {:induction false} Reassociate(a: string, b: string, c: string, d: string)
    ensures a + (b + c + d) == (a + b) + c + d
  {
  }

  lemma {:induction false} CutsLater(c: char, tail: string, block: string, rest: string)
    requires SeparatorLength([c] + tail) == 0 && Cuts(tail, block, rest)
    ensures Cuts([c] + tail, [c] + block, rest)
  {
    LaterSeparators(c, tail, |block|);
    var sep := tail[|block|..][..SeparatorLength(tail[|block|..])];
    Reassociate([c], block, sep, rest);
    assert ([c] + tail)[|[c] + block|..] == tail[|block|..];
  }

  /** The first block is what stands before the first place where a separator starts, and what is left
      is what stands after that separator; without such a place there is no block. */
  lemma {:induction false} FirstBlockMeans(s: string)
    ensures FirstBlock(s).None? ==> NoneBefore(s, |s|)
    ensures FirstBlock(s).Some? ==> Cuts(s, FirstBlock(s).value.0, FirstBlock(s).value.1)
    decreases |s|
  {
    if s != [] {
      var c, tail := s[0], s[1..];
      assert s == [c] + tail;
      if SeparatorLength(s) > 0 {
        CutsHere(s);
      } else {
        FirstBlockMeans(tail);
        FirstBlockLater(c, tail);
      }
    }
  }

  lemma {:induction false} CutsHere(s: string)
    requires s != [] && SeparatorLength(s) > 0
    ensures Cuts(s, [], s[SeparatorLength(s)..])
  {
    assert s[0..] == s;
  }

  lemma {:induction false} FirstBlockLater(c: char, tail: string)
    requires SeparatorLength([c] + tail) == 0
    requires FirstBlock(tail).None? ==> NoneBefore(tail, |tail|)
    requires FirstBlock(tail).Some? ==> Cuts(tail, FirstBlock(tail).value.0, FirstBlock(tail).value.1)
    ensures FirstBlock([c] + tail).None? ==> NoneBefore([c] + tail, |tail| + 1)
    ensures FirstBlock([c] + tail).Some? ==> Cuts([c] + tail, FirstBlock([c] + tail).value.0, FirstBlock([c] + tail).value.1)
  {
    assert ([c] + tail)[1..] == tail;
    if FirstBlock(tail).Some? {
      CutsLater(c, tail, FirstBlock(tail).value.0, FirstBlock(tail).value.1);
    } else {
      LaterSeparators(c, tail, |tail|);
    }
  }

  /** The id a data line bears: that of the last id line before it in its block, if it has one. */
  function IdBefore(lines: seq<string>, first: Option<string>): Option<string>
    decreases |lines|
  {
    if lines == [] then first
    else
      var n := |lines| - 1;
      if StartsWith(lines[n], "id:") then (if Strip(lines[n][3..]) == [] then None else Some(Strip(lines[n][3..])))
      else IdBefore(lines[..n], first)
  }

  /** A data line whose text is a JSON object. */
  predicate Bears(line: string, isObject: IsObject) {
    StartsWith(line, "data:") && Strip(line[5..]) != [] && isObject(Strip(line[5..]))
  }

  ghost predicate EventFrom(lines: seq<string>, first: Option<string>, e: LiveEvent, i: nat)
    requires i < |lines|
  {
    |lines[i]| >= 5 && e == LiveEvent(Strip(lines[i][5..]), IdBefore(lines[..i], first))
  }

  ghost predicate EventsAt(lines: seq<string>, first: Option<string>, events: seq<LiveEvent>, at: seq<nat>, isObject: IsObject) {
    && |at| == |events| && Increasing(at)
    && (forall i: nat :: i in at <==> i < |lines| && Bears(lines[i], isObject))
    && (forall k :: 0 <= k < |at| ==> at[k] < |lines| && EventFrom(lines, first, events[k], at[k]))
  }

  lemma {:induction false} LineEventsSnoc(lines: seq<string>, line: string, first: Option<string>, isObject: IsObject)
    ensures LineEvents(lines + [line], first, isObject) == LineEvents(lines, first, isObject)
      + (if Bears(line, isObject) then [LiveEvent(Strip(line[5..]), IdBefore(lines, first))] else [])
    decreases |lines|
  {
    Prefixes(line);
    if lines == [] {
      assert lines + [line] == [line] && [line][1..] == [];
    } else {
      var rest, next := lines[1..], LineId(lines[0], first);
      assert (lines + [line])[1..] == rest + [line] && (lines + [line])[0] == lines[0];
      LineEventsSnoc(rest, line, next, isObject);
      IdBeforeCons(lines, first);
      Prefixes(lines[0]);
    }
  }

  function LineId(line: string, first: Option<string>): Option<string> {
    if !StartsWith(line, "id:") then first else if Strip(line[3..]) == [] then None else Some(Strip(line[3..]))
  }

  lemma {:induction false} IdBeforeCons(lines: seq<string>, first: Option<string>)
    requires lines != []
    ensures IdBefore(lines, first) == IdBefore(lines[1..], LineId(lines[0], first))
    decreases |lines|
  {
    var n := |lines| - 1;
    if n > 0 && !StartsWith(lines[n], "id:") {
      IdBeforeCons(lines[..n], first);
      assert lines[..n][1..] == lines[1..][..n - 1];
    } else if n == 0 {
      assert lines[..0] == [];
    }
  }

  lemma {:induction false} EventKept(lines: seq<string>, line: string, first: Option<string>, e: LiveEvent, i: nat)
    requires i < |lines| && EventFrom(lines, first, e, i)
    ensures EventFrom(lines + [line], first, e, i)
  {
    assert (lines + [line])[..i] == lines[..i];
  }

  lemma {:induction false} EventsKept(lines: seq<string>, line: string, first: Option<string>, events: seq<LiveEvent>, at: seq<nat>, isObject: IsObject)
    requires EventsAt(lines, first, events, at, isObject) && !Bears(line, isObject)
    ensures EventsAt(lines + [line], first, events, at, isObject)
  {
    forall k | 0 <= k < |at| ensures EventFrom(lines + [line], first, events[k], at[k]) {
      EventKept(lines, line, first, events[k], at[k]);
    }
  }

  lemma {:induction false} OneMoreEvent(lines: seq<string>, line: string, first: Option<string>, events: seq<LiveEvent>, at: seq<nat>, isObject: IsObject)
    requires EventsAt(lines, first, events, at, isObject) && Bears(line, isObject)
    ensures EventsAt(lines + [line], first, events + [LiveEvent(Strip(line[5..]), IdBefore(lines, first))], at + [|lines|], isObject)
  {
    var all, places := lines + [line], at + [|lines|];
    var more := events + [LiveEvent(Strip(line[5..]), IdBefore(lines, first))];
    forall k | 0 <= k < |places| ensures places[k] < |all| && EventFrom(all, first, more[k], places[k]) {
      if k < |at| {
        EventKept(lines, line, first, events[k], at[k]);
      } else {
        assert all[..|lines|] == lines;
      }
    }
    assert forall k :: 0 <= k < |at| ==> at[k] in at;
  }

  /** The events of a block are its data lines with JSON objects, in order, each with its own text and
      the id before it. */
  lemma {:induction false} LineEventsMean(lines: seq<string>, first: Option<string>, isObject: IsObject) returns (at: seq<nat>)
    ensures EventsAt(lines, first, LineEvents(lines, first, isObject), at, isObject)
    decreases |lines|
  {
    at := [];
    if lines != [] {
      var n := |lines| - 1;
      var front, line := lines[..n], lines[n];
      assert lines == front + [line];
      at := LineEventsMean(front, first, isObject);
      LineEventsSnoc(front, line, first, isObject);
      var events := LineEvents(front, first, isObject);
      if Bears(line, isObject) {
        OneMoreEvent(front, line, first, events, at, isObject);
        at := at + [n];
      } else {
        EventsKept(front, line, first, events, at, isObject);
        assert events + [] == events;
      }
    }
  }

  ghost predicate AllSpace(s: string) {
    forall c :: c in s ==> IsSpace(c)
  }

  lemma {:induction false} LStripSpace(pad: string, s: string)
    requires AllSpace(pad)
    ensures LStrip(pad + s) == LStrip(s)
    decreases |pad|
  {
    if pad == [] {
      assert pad + s == s;
    } else {
      assert pad[0] in pad && (pad + s)[1..] == pad[1..] + s;
      LStripSpace(pad[1..], s);
    }
  }

  lemma {:induction false} RStripSpace(s: string, pad: string)
    requires AllSpace(pad)
    ensures RStrip(s + pad) == RStrip(s)
    decreases |pad|
  {
    if pad == [] {
      assert s + pad == s;
    } else {
      var n := |pad| - 1;
      assert pad[n] in pad && (s + pad)[..|s| + n] == s + pad[..n];
      RStripSpace(s, pad[..n]);
    }
  }

  lemma {:induction false} LStripAppend(s: string, pad: string)
    requires AllSpace(pad)
    ensures LStrip(s + pad) == if AllSpace(s) then [] else LStrip(s) + pad
    decreases |s|
  {
    if s == [] {
      assert s + pad == pad + [];
      LStripSpace(pad, []);
    } else if IsSpace(s[0]) {
      assert (s + pad)[1..] == s[1..] + pad;
      LStripAppend(s[1..], pad);
      assert AllSpace(s) <==> AllSpace(s[1..]) by {
        assert s == [s[0]] + s[1..];
      }
    } else {
      assert s[0] in s;
    }
  }

  /** Whitespace around a block does not matter. */
  lemma {:induction false} BlockTrims(before: string, block: string, behind: string, isObject: IsObject)
    requires AllSpace(before) && AllSpace(behind)
    ensures BlockEvents(before + block + behind, isObject) == BlockEvents(block, isObject)
  {
    assert before + block + behind == before + (block + behind);
    LStripSpace(before, block + behind);
    LStripAppend(block, behind);
    if AllSpace(block) {
      LStripSpace(block, []);
      assert block + [] == block;
    } else {
      RStripSpace(LStrip(block), behind);
    }
  }

  /** A block of comments says nothing. */
  lemma {:induction false} CommentBlock(block: string, isObject: IsObject)
    requires block != [] && block[0] == ':'
    ensures BlockEvents(block, isObject) == []
  {
    RStripHead(block);
  }

  lemma {:induction false} RStripHead(s: string)
    requires s != [] && !IsSpace(s[0])
    ensures RStrip(s) != [] && RStrip(s)[0] == s[0]
    decreases |s|
  {
    if IsSpace(s[|s| - 1]) {
      RStripHead(s[..|s| - 1]);
    }
  }
}
