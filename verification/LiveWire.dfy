/** The live runner from the text on the wire: connections that carry printed frames, cut after any
    character and read in any chunks (regression/t4/runner.py). */
module LiveWire {
  import opened Common
  import opened Sse
  import opened SseRoundTrip
  import opened SseReaders
  import opened SseAgreement
  import opened StepSchedule
  import L = LiveTurn

  /** What the JSON of an event says. */
  datatype Body = Body(requestId: string, kind: L.Kind, event: Event)

  type Decode = string -> Body

  function FrameOf(e: LiveEvent, decode: Decode): L.LiveFrame {
    var body := decode(e.data);
    L.LiveFrame(e.sseId, body.requestId, body.kind, body.event)
  }

  function FramesOf(events: seq<LiveEvent>, decode: Decode): seq<L.LiveFrame>
    decreases |events|
  {
    if events == [] then [] else [FrameOf(events[0], decode)] + FramesOf(events[1..], decode)
  }

  /** One batch for each chunk: append it, parse, keep the rest. */
  function Batches(chunks: seq<string>, buffer: string, isObject: IsObject, decode: Decode): seq<seq<L.LiveFrame>>
    decreases |chunks|
  {
    if chunks == [] then []
    else
      var first := ParseBlocks(buffer + chunks[0], isObject);
      [FramesOf(first.events, decode)] + Batches(chunks[1..], first.rest, isObject, decode)
  }

  /** The loop that turns chunks into batches. */
  method ReadBatches(chunks: seq<string>, isObject: IsObject, decode: Decode) returns (batches: seq<seq<L.LiveFrame>>)
    ensures batches == Batches(chunks, [], isObject, decode)
  {
    batches := [];
    var buffer: string := [];
    assert chunks[0..] == chunks;
    for i := 0 to |chunks|
      invariant batches + Batches(chunks[i..], buffer, isObject, decode) == Batches(chunks, [], isObject, decode)
    {
      assert chunks[i..][0] == chunks[i] && chunks[i..][1..] == chunks[i + 1..];
      var events, rest := ParseSseBlocks(buffer + chunks[i], isObject);
      var batch := ToFrames(events, decode);
      batches, buffer := batches + [batch], rest;
    }
    assert chunks[|chunks|..] == [];
  }

  method ToFrames(events: seq<LiveEvent>, decode: Decode) returns (frames: seq<L.LiveFrame>)
    ensures frames == FramesOf(events, decode)
  {
    frames := [];
    assert events[0..] == events;
    for i := 0 to |events|
      invariant frames + FramesOf(events[i..], decode) == FramesOf(events, decode)
    {
      assert events[i..][0] == events[i] && events[i..][1..] == events[i + 1..];
      frames := frames + [FrameOf(events[i], decode)];
    }
    assert events[|events|..] == [];
  }

  lemma {:induction false} FramesOfAppend(xs: seq<LiveEvent>, ys: seq<LiveEvent>, decode: Decode)
    ensures FramesOf(xs + ys, decode) == FramesOf(xs, decode) + FramesOf(ys, decode)
    decreases |xs|
  {
    if xs == [] {
      assert xs + ys == ys;
    } else {
      assert (xs + ys)[1..] == xs[1..] + ys;
      FramesOfAppend(xs[1..], ys, decode);
    }
  }

  /** What a parse leaves holds no complete block. */
  lemma {:induction false} RestIsOpen(buffer: string, isObject: IsObject)
    ensures FirstBlock(ParseBlocks(buffer, isObject).rest).None?
    decreases |buffer|
  {
    if FirstBlock(buffer).Some? {
      RestIsOpen(FirstBlock(buffer).value.1, isObject);
    }
  }

  /** The batches together are the events of the whole text, however it is cut into chunks. */
  lemma {:induction false} BatchesFlatten(chunks: seq<string>, buffer: string, isObject: IsObject, decode: Decode)
    requires FirstBlock(buffer).None?
    ensures L.Flatten(Batches(chunks, buffer, isObject, decode)) == FramesOf(LiveFeed(chunks, buffer, isObject).events, decode)
    decreases |chunks|
  {
    if chunks != [] {
      var first := ParseBlocks(buffer + chunks[0], isObject);
      RestIsOpen(buffer + chunks[0], isObject);
      BatchesFlatten(chunks[1..], first.rest, isObject, decode);
      FramesOfAppend(first.events, LiveFeed(chunks[1..], first.rest, isObject).events, decode);
      FlattenCons(FramesOf(first.events, decode), Batches(chunks[1..], first.rest, isObject, decode));
    }
  }

  lemma {:induction false} FlattenCons(batch: seq<L.LiveFrame>, batches: seq<seq<L.LiveFrame>>)
    ensures L.Flatten([batch] + batches) == batch + L.Flatten(batches)
  {
    assert ([batch] + batches)[1..] == batches;
  }

  /** A connection on the wire: the frames the gateway writes, the chunks in which some of their text
      arrives, and how many chunks arrive within the grace after completion. */
  datatype WireLink = WireLink(sent: seq<Frame>, chunks: seq<string>, grace: nat)

  /** The frames of a stream as the runner sees them. */
  function SentFrames(sent: seq<Frame>, decode: Decode): seq<L.LiveFrame> {
    FramesOf(LiveMeaning(Meaning(sent)), decode)
  }

  /** Each frame received was sent at its position, with its id and what its data says. */
  ghost predicate Carried(frames: seq<L.LiveFrame>, sent: seq<Frame>, decode: Decode, at: seq<nat>) {
    && |at| == |frames| && Increasing(at)
    && (forall k :: 0 <= k < |at| ==> at[k] < |sent| && CarriedAs(frames[k], sent[at[k]], decode))
  }

  ghost predicate CarriedAs(g: L.LiveFrame, f: Frame, decode: Decode) {
    f.data.Some? && g.id == f.id && Body(g.requestId, g.kind, g.event) == decode(f.data.value)
  }

  /** They are the frames with data, in order. */
  lemma {:induction false} SentMeans(sent: seq<Frame>, decode: Decode) returns (at: seq<nat>)
    ensures Carried(SentFrames(sent, decode), sent, decode, at)
    ensures forall i: nat :: i in at <==> i < |sent| && sent[i].data.Some?
    decreases |sent|
  {
    at := [];
    if sent != [] {
      var rest := SentMeans(sent[1..], decode);
      if sent[0].data.Some? {
        var g := FrameOf(LiveEvent(sent[0].data.value, sent[0].id), decode);
        SentHead(sent, decode);
        CarriedFirst(g, SentFrames(sent[1..], decode), sent, decode, rest);
        at := [0] + Later(rest);
      } else {
        assert Meaning(sent) == Meaning(sent[1..]);
        CarriedNext(SentFrames(sent[1..], decode), sent, decode, rest);
        at := Later(rest);
      }
    }
  }

  lemma {:induction false} CarriedNext(frames: seq<L.LiveFrame>, sent: seq<Frame>, decode: Decode, at: seq<nat>)
    requires sent != [] && Carried(frames, sent[1..], decode, at)
    ensures Carried(frames, sent, decode, Later(at))
  {
    LaterIncreasing(at);
  }

  lemma {:induction false} CarriedFirst(g: L.LiveFrame, frames: seq<L.LiveFrame>, sent: seq<Frame>, decode: Decode, at: seq<nat>)
    requires sent != [] && Carried(frames, sent[1..], decode, at) && CarriedAs(g, sent[0], decode)
    ensures Carried([g] + frames, sent, decode, [0] + Later(at))
  {
    LaterIncreasing(at);
    CarriedNext(frames, sent, decode, at);
    var more, places := [g] + frames, [0] + Later(at);
    forall k | 0 <= k < |places| ensures places[k] < |sent| && CarriedAs(more[k], sent[places[k]], decode) {
      if k > 0 {
        assert places[k] == Later(at)[k - 1] && more[k] == frames[k - 1];
      }
    }
  }

  lemma {:induction false} SentHead(sent: seq<Frame>, decode: Decode)
    requires sent != [] && sent[0].data.Some?
    ensures SentFrames(sent, decode) == [FrameOf(LiveEvent(sent[0].data.value, sent[0].id), decode)] + SentFrames(sent[1..], decode)
  {
    var d := Delivery(sent[0].id, sent[0].data.value);
    assert Meaning(sent) == [d] + Meaning(sent[1..]) && ([d] + Meaning(sent[1..]))[1..] == Meaning(sent[1..]);
    var e := LiveEvent(sent[0].data.value, sent[0].id);
    assert LiveMeaning(Meaning(sent)) == [e] + LiveMeaning(Meaning(sent[1..]));
    assert ([e] + LiveMeaning(Meaning(sent[1..])))[1..] == LiveMeaning(Meaning(sent[1..]));
  }

  function LinkOf(w: WireLink, isObject: IsObject, decode: Decode): L.Link {
    L.Link(SentFrames(w.sent, decode), Batches(w.chunks, [], isObject, decode), w.grace)
  }

  function LinksOf(ws: seq<WireLink>, isObject: IsObject, decode: Decode): seq<L.Link>
    decreases |ws|
  {
    if ws == [] then [] else [LinkOf(ws[0], isObject, decode)] + LinksOf(ws[1..], isObject, decode)
  }

  /** The gateway prints a stream whose id-bearing events are the replay, and the connection delivers
      its text up to any character. */
  ghost predicate WireServes(w: WireLink, log: seq<L.LiveFrame>, resume: Option<string>, isObject: IsObject, decode: Decode) {
    && Stream(w.sent, isObject)
    && L.WithId(SentFrames(w.sent, decode)) == L.Replay(log, resume)
    && Concat(w.chunks) <= WireAll(w.sent)
  }

  /** A text that arrives only in part parses to the first of its events. */
  lemma {:induction false} PartParses(text: string, whole: string, isObject: IsObject)
    requires text <= whole
    ensures ParseBlocks(text, isObject).events <= ParseBlocks(whole, isObject).events
  {
    assert whole == text + whole[|text|..];
    ParseBlocksExtends(text, whole[|text|..], isObject);
  }

  lemma {:induction false} FramesOfPrefix(xs: seq<LiveEvent>, ys: seq<LiveEvent>, decode: Decode)
    requires xs <= ys
    ensures FramesOf(xs, decode) <= FramesOf(ys, decode)
  {
    assert ys == xs + ys[|xs|..];
    FramesOfAppend(xs, ys[|xs|..], decode);
  }

  predicate Arrived(w: WireLink) {
    Concat(w.chunks) == WireAll(w.sent)
  }

  /** A connection whose whole text arrives delivers everything it was sent. */
  lemma {:induction false} WholeDelivers(w: WireLink, isObject: IsObject, decode: Decode)
    requires Stream(w.sent, isObject) && Arrived(w)
    ensures L.Delivers(LinkOf(w, isObject, decode))
  {
    ChunksParse(w.chunks, isObject, decode);
    LiveReads(w.sent, isObject);
    assert L.Flatten(LinkOf(w, isObject, decode).batches) == SentFrames(w.sent, decode);
  }

  lemma {:induction false} ChunksParse(chunks: seq<string>, isObject: IsObject, decode: Decode)
    ensures L.Flatten(Batches(chunks, [], isObject, decode)) == FramesOf(ParseBlocks(Concat(chunks), isObject).events, decode)
  {
    var text := Concat(chunks);
    NothingFirst();
    BatchesFlatten(chunks, [], isObject, decode);
    assert [] + text == text;
    LiveChunkIndependence(chunks, [], isObject);
  }

  /** The connection on which the turn ends. */
  function LastWire(cfg: L.Setting, t: L.Turn, ws: seq<WireLink>, isObject: IsObject, decode: Decode): WireLink
    requires ws != []
    decreases |ws|
  {
    var (t', s) := L.ReadStream(cfg, t, Batches(ws[0].chunks, [], isObject, decode), ws[0].grace);
    if s.Dropped? && s.resumeId.Some? && |ws| > 1 then LastWire(cfg, t', ws[1..], isObject, decode) else ws[0]
  }

  lemma {:induction false} LastWireIs(cfg: L.Setting, t: L.Turn, ws: seq<WireLink>, log: seq<L.LiveFrame>, resume: Option<string>,
                                      isObject: IsObject, decode: Decode)
    requires ws != [] && WireServed(cfg, t, ws, log, resume, isObject, decode)
    ensures |LinksOf(ws, isObject, decode)| == |ws|
    ensures L.LastRead(cfg, t, LinksOf(ws, isObject, decode)) == LinkOf(LastWire(cfg, t, ws, isObject, decode), isObject, decode)
    ensures Stream(LastWire(cfg, t, ws, isObject, decode).sent, isObject)
    decreases |ws|
  {
    var links := LinksOf(ws, isObject, decode);
    assert links[0] == LinkOf(ws[0], isObject, decode) && links[1..] == LinksOf(ws[1..], isObject, decode);
    LinksCount(ws, isObject, decode);
    var (t', s) := L.ReadStream(cfg, t, links[0].batches, links[0].grace);
    if s.Dropped? && s.resumeId.Some? && |ws| > 1 {
      LastWireIs(cfg, t', ws[1..], log, s.resumeId, isObject, decode);
    }
  }

  lemma {:induction false} LinksCount(ws: seq<WireLink>, isObject: IsObject, decode: Decode)
    ensures |LinksOf(ws, isObject, decode)| == |ws|
    decreases |ws|
  {
    if ws != [] {
      LinksCount(ws[1..], isObject, decode);
    }
  }

  lemma {:induction false} WireLinkServes(w: WireLink, log: seq<L.LiveFrame>, resume: Option<string>, isObject: IsObject, decode: Decode)
    requires WireServes(w, log, resume, isObject, decode)
    ensures L.Serves(LinkOf(w, isObject, decode), log, resume)
  {
    var text := Concat(w.chunks);
    ChunksParse(w.chunks, isObject, decode);
    PartParses(text, WireAll(w.sent), isObject);
    LiveReads(w.sent, isObject);
    FramesOfPrefix(ParseBlocks(text, isObject).events, LiveMeaning(Meaning(w.sent)), decode);
  }

  lemma {:induction false} NothingFirst()
    ensures FirstBlock([]).None?
  {
  }

  ghost predicate WireServed(cfg: L.Setting, t: L.Turn, ws: seq<WireLink>, log: seq<L.LiveFrame>, resume: Option<string>,
                             isObject: IsObject, decode: Decode)
    decreases |ws|
  {
    ws == [] ||
    (WireServes(ws[0], log, resume, isObject, decode) &&
     var (t', s) := L.ReadStream(cfg, t, Batches(ws[0].chunks, [], isObject, decode), ws[0].grace);
     (s.Dropped? && s.resumeId.Some? ==> WireServed(cfg, t', ws[1..], log, s.resumeId, isObject, decode)))
  }

  lemma {:induction false} WireIsServed(cfg: L.Setting, t: L.Turn, ws: seq<WireLink>, log: seq<L.LiveFrame>, resume: Option<string>,
                                        isObject: IsObject, decode: Decode)
    requires WireServed(cfg, t, ws, log, resume, isObject, decode)
    ensures L.Served(cfg, t, LinksOf(ws, isObject, decode), log, resume)
    decreases |ws|
  {
    if ws != [] {
      WireLinkServes(ws[0], log, resume, isObject, decode);
      var links := LinksOf(ws, isObject, decode);
      assert links[0] == LinkOf(ws[0], isObject, decode) && links[1..] == LinksOf(ws[1..], isObject, decode);
      var (t', s) := L.ReadStream(cfg, t, links[0].batches, links[0].grace);
      if s.Dropped? && s.resumeId.Some? {
        WireIsServed(cfg, t', ws[1..], log, s.resumeId, isObject, decode);
      }
    }
  }

  /** From the wire: for every accepted scenario, every history of its schedule, every log, and every
      schedule of connections that carry printed frames and pings, each cut after any character and
      read in any chunks, the turn is right about the log; and if its stream ended early on a
      connection whose whole text had arrived, it has come to the end of the log. */
  lemma {:induction false} WireExactlyOnce(cfg: L.Setting, seen: seq<Event>, post: L.Post, ws: seq<WireLink>, log: seq<L.LiveFrame>,
                        isObject: IsObject, decode: Decode)
    requires LiveStepRules(cfg.steps).Ok? && L.Log(log)
    requires WireServed(cfg, L.StartTurn(seen), ws, log, None, isObject, decode)
    ensures var (t, s) := L.Collect(cfg, L.StartTurn(seen), post, LinksOf(ws, isObject, decode));
      && L.TurnRight(cfg, t, s, log)
      && (s.Ended? ==> ws != [])
      && (s.Ended? && Arrived(LastWire(cfg, L.StartTurn(seen), ws, isObject, decode)) ==> L.UpTo(cfg, t, log, |log|))
  {
    WireIsServed(cfg, L.StartTurn(seen), ws, log, None, isObject, decode);
    L.LiveExactlyOnce(cfg, seen, post, LinksOf(ws, isObject, decode), log);
    if ws != [] {
      LastWireIs(cfg, L.StartTurn(seen), ws, log, None, isObject, decode);
      var last := LastWire(cfg, L.StartTurn(seen), ws, isObject, decode);
      if Arrived(last) {
        WholeDelivers(last, isObject, decode);
      }
    }
  }
}
