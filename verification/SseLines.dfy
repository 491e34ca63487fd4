/** Why the models may end lines at CR, LF and CR LF where the HTTP client splits as `str.splitlines`
    does: the streams of SseAgreement hold no other separator than LF. */
module SseLines {
  import opened Sse
  import opened SseRoundTrip
  import opened SseReaders
  import opened SseAgreement

  lemma {:induction false} SplitParts(s: string)
    requires OnlyLf(s)
    ensures forall part :: part in SplitLines(s) ==> Clean(part)
    decreases |s|
  {
    if s != [] {
      var rest := SplitLines(s[1..]);
      assert forall c :: c in s[1..] ==> c in s;
      SplitParts(s[1..]);
      assert s[0] in s && rest[0] in rest;
      assert s[0] != '\n' ==> Clean([s[0]] + rest[0]);
    }
  }

  lemma {:induction false} PrefixedClean(prefix: string, parts: seq<string>)
    requires Clean(prefix) && forall part :: part in parts ==> Clean(part)
    ensures forall line :: line in Prefixed(prefix, parts) ==> Clean(line)
    decreases |parts|
  {
    if parts != [] {
      assert parts[0] in parts && Clean(prefix + parts[0]);
      PrefixedClean(prefix, parts[1..]);
    }
  }

  lemma {:induction false} PingLinesClean(f: Frame)
    requires Ping(f)
    ensures forall line :: line in WireLines(f) ==> Clean(line)
  {
    SplitParts(f.comment.value);
    assert Clean(": ");
    PrefixedClean(": ", SplitLines(f.comment.value));
    assert WireLines(f) == Prefixed(": ", SplitLines(f.comment.value));
  }

  lemma {:induction false} JoinOnlyLf(lines: seq<string>)
    requires forall line :: line in lines ==> Clean(line)
    ensures OnlyLf(Join(lines))
    decreases |lines|
  {
    if |lines| > 0 {
      assert Clean(lines[0]);
      JoinOnlyLf(lines[1..]);
    }
  }

  lemma {:induction false} FrameOnlyLf(f: Frame, isObject: IsObject)
    requires EventFrame(f, isObject) || Ping(f)
    ensures OnlyLf(FrameWire(f))
  {
    if EventFrame(f, isObject) {
      EventLinesClean(f, isObject);
    } else {
      PingLinesClean(f);
    }
    JoinOnlyLf(WireLines(f));
  }

  /** The text of a stream breaks lines at LF only. */
  lemma {:induction false} StreamOnlyLf(frames: seq<Frame>, isObject: IsObject)
    requires Stream(frames, isObject)
    ensures OnlyLf(WireAll(frames))
    decreases |frames|
  {
    if frames != [] {
      assert frames[0] in frames;
      FrameOnlyLf(frames[0], isObject);
      StreamOnlyLf(frames[1..], isObject);
    }
  }

  lemma {:induction false} LineIsClean(text: string)
    requires OnlyLf(text)
    ensures Clean(text[..LineLength(text)])
    ensures LineLength(text) < |text| ==> text[LineLength(text)] == '\n'
    decreases |text|
  {
    if text != [] && !IsLineBreak(text[0]) {
      assert forall c :: c in text[1..] ==> c in text;
      LineIsClean(text[1..]);
      var n := LineLength(text[1..]);
      assert text[..n + 1] == [text[0]] + text[1..][..n];
    }
  }

  /** The lines of a text, with the unterminated last one if it is not empty. */
  function AllLines(text: string): seq<string> {
    var (lines, left) := TextLines(text);
    if left != [] then lines + [left] else lines
  }

  lemma {:induction false} AllLinesCons(line: string, rest: string)
    requires NoBreak(line)
    ensures AllLines(line + "\n" + rest) == [line] + AllLines(rest)
  {
    TextLinesCons(line, rest);
    var lines := TextLines(rest).0;
    assert [line] + (lines + [TextLines(rest).1]) == [line] + lines + [TextLines(rest).1];
  }

  lemma {:induction false} AllLinesOne(text: string)
    requires NoBreak(text)
    ensures AllLines(text) == if text == [] then [] else [text]
  {
    NoFirstLine(text);
  }

  /** On such a text `str.splitlines` and the models' line rule give the same lines. */
  lemma {:induction false} SplitlinesAgrees(text: string)
    requires OnlyLf(text)
    ensures PyLines(text) == AllLines(text)
    decreases |text|
  {
    var n := LineLength(text);
    LineIsClean(text);
    CleanNoBreak(text[..n]);
    if n == |text| {
      assert text[..n] == text;
      AllLinesOne(text);
    } else {
      var rest := text[n + 1..];
      assert forall c :: c in rest ==> c in text;
      SplitlinesAgrees(rest);
      assert text == text[..n] + "\n" + rest;
      AllLinesCons(text[..n], rest);
    }
  }

  /** Whatever of a stream has arrived, the client's decoder gives the models' lines. */
  lemma {:induction false} StreamSplitlines(frames: seq<Frame>, cut: nat, isObject: IsObject)
    requires Stream(frames, isObject) && cut <= |WireAll(frames)|
    ensures PyLines(WireAll(frames)[..cut]) == AllLines(WireAll(frames)[..cut])
  {
    StreamOnlyLf(frames, isObject);
    assert forall c :: c in WireAll(frames)[..cut] ==> c in WireAll(frames);
    SplitlinesAgrees(WireAll(frames)[..cut]);
  }
}
