/** Chunks of an owned response arrive before, while and after its stream is armed; each must reach the
    parser once, in order. */
module OwnedStream {
  import opened Tables

  const MAX_STREAM := 4 * 1024 * 1024

  type Bytes = seq<bv8>

  /** Base64 decoding; None for malformed input. */
  type Decoder = string -> Option<Bytes>

  /** `fed` is what the incremental decoder and the parser were given, chunk by chunk. */
  datatype Stream = Stream(fed: seq<Bytes>, pending: seq<string>, armed: bool, finished: bool, received: nat)

  /** A request's stream: unknown or dropped, being read, or flushed into the parser exactly once. */
  datatype Life = Absent | Open(stream: Stream) | Flushed(result: seq<Bytes>)

  datatype Event = Request | Drop | Arm(buffered: Option<string>) | Data(chunk: string) | Finished

  // ---------------------------------------------------------------- one stream

  /** The counter runs on past the cap, so after the first chunk that does not fit nothing more is fed. */
  function Feed(d: Decoder, s: Stream, encoded: string): Stream {
    if s.received >= MAX_STREAM then s
    else match d(encoded)
      case None => s
      case Some(bytes) =>
        var s1 := s.(received := s.received + |bytes|);
        if s1.received > MAX_STREAM then s1 else s1.(fed := s1.fed + [bytes])
  }

  function FeedAll(d: Decoder, s: Stream, chunks: seq<string>): Stream {
    if chunks == [] then s else Feed(d, FeedAll(d, s, chunks[..|chunks| - 1]), chunks[|chunks| - 1])
  }

  function Size(chunks: seq<string>): nat {
    if chunks == [] then 0 else Size(chunks[..|chunks| - 1]) + |chunks[|chunks| - 1]|
  }

  function Armed(d: Decoder, s: Stream, buffered: Option<string>): Stream {
    var s1 := if buffered.Some? then Feed(d, s, buffered.value) else s;
    FeedAll(d, s1.(armed := true), s1.pending).(pending := [])
  }

  function Settle(s: Stream): Life {
    if s.armed && s.finished then Flushed(s.fed) else Open(s)
  }

  predicate Fits(s: Stream, chunk: string) { Size(s.pending) + |chunk| <= 2 * MAX_STREAM }

  function Step(d: Decoder, l: Life, e: Event): Life {
    match e
    case Request => Open(Stream([], [], false, false, 0))
    case Drop => if l.Open? then Absent else l
    case Arm(buffered) => if l.Open? then Settle(Armed(d, l.stream, buffered)) else l
    case Data(chunk) =>
      if !l.Open? then l
      else if l.stream.armed then Open(Feed(d, l.stream, chunk))
      else if Fits(l.stream, chunk) then Open(l.stream.(pending := l.stream.pending + [chunk]))
      else l
    case Finished => if l.Open? then Settle(l.stream.(finished := true)) else l
  }

  function Run(d: Decoder, events: seq<Event>): Life {
    if events == [] then Step(d, Absent, Request)
    else Step(d, Run(d, events[..|events| - 1]), events[|events| - 1])
  }

  // ---------------------------------------------------------------- what arrived

  /** The data chunks in arrival order. */
  function Arrivals(events: seq<Event>): seq<string> {
    if events == [] then []
    else
      var last := events[|events| - 1];
      Arrivals(events[..|events| - 1]) + if last.Data? then [last.chunk] else []
  }

  function Count(events: seq<Event>, kind: Event -> bool): nat {
    if events == [] then 0
    else Count(events[..|events| - 1], kind) + if kind(events[|events| - 1]) then 1 else 0
  }

  function ArmCount(events: seq<Event>): nat { Count(events, (e: Event) => e.Arm?) }

  function FinishCount(events: seq<Event>): nat { Count(events, (e: Event) => e.Finished?) }

  /** What was buffered before the stream was armed. */
  function Buffered(events: seq<Event>): seq<string> {
    if events == [] then []
    else
      var last := events[|events| - 1];
      if last.Arm? && last.buffered.Some? then [last.buffered.value] else Buffered(events[..|events| - 1])
  }

  /** The readable chunks, decoded. */
  function DecodeAll(d: Decoder, chunks: seq<string>): seq<Bytes> {
    if chunks == [] then []
    else
      var last := d(chunks[|chunks| - 1]);
      DecodeAll(d, chunks[..|chunks| - 1]) + if last.Some? then [last.value] else []
  }

  /** The arriving chunks that are fed or held; before arming a chunk that does not fit is skipped. */
  function Held(events: seq<Event>): seq<string>
    decreases events, 0
  {
    if events == [] then []
    else
      var before, last := events[..|events| - 1], events[|events| - 1];
      Held(before) + if last.Data? && Kept(before, last.chunk) then [last.chunk] else []
  }

  predicate Kept(before: seq<Event>, chunk: string)
    decreases before, 1
  {
    ArmCount(before) > 0 || Size(Held(before)) + |chunk| <= 2 * MAX_STREAM
  }

  function Skipped(events: seq<Event>): seq<string> {
    if events == [] then []
    else
      var before, last := events[..|events| - 1], events[|events| - 1];
      Skipped(before) + if last.Data? && !Kept(before, last.chunk) then [last.chunk] else []
  }

  /** All decoded bytes, one after the other. */
  function Flat(chunks: seq<Bytes>): Bytes {
    if chunks == [] then [] else Flat(chunks[..|chunks| - 1]) + chunks[|chunks| - 1]
  }

  /** A browser arms a stream once, finishes it once, and sends no data after that. */
  ghost predicate Orderly(events: seq<Event>) {
    && ArmCount(events) <= 1 && FinishCount(events) <= 1
    && (forall i :: 0 <= i < |events| ==> !events[i].Request? && !events[i].Drop?)
    && (forall i, j :: 0 <= i < j < |events| && events[i].Finished? ==> !events[j].Data?)
  }

  // ---------------------------------------------------------------- feeding

  function Fresh(): Stream { Stream([], [], false, false, 0) }

  lemma FeedKeepsPending(d: Decoder, s: Stream, chunk: string)
    ensures Feed(d, s, chunk).(fed := s.fed, received := s.received) == s
  {
  }

  lemma {:induction false} FeedAllKeepsFlags(d: Decoder, s: Stream, chunks: seq<string>)
    ensures FeedAll(d, s, chunks).(fed := s.fed, received := s.received) == s
  {
    if chunks != [] {
      FeedAllKeepsFlags(d, s, chunks[..|chunks| - 1]);
      FeedKeepsPending(d, FeedAll(d, s, chunks[..|chunks| - 1]), chunks[|chunks| - 1]);
    }
  }

  predicate SameFeed(a: Stream, b: Stream) { a.fed == b.fed && a.received == b.received }

  /** Feeding looks at nothing but what was fed before. */
  lemma {:induction false} FeedAllAlike(d: Decoder, a: Stream, b: Stream, chunks: seq<string>)
    requires SameFeed(a, b)
    ensures SameFeed(FeedAll(d, a, chunks), FeedAll(d, b, chunks))
  {
    if chunks != [] {
      FeedAllAlike(d, a, b, chunks[..|chunks| - 1]);
    }
  }

  lemma {:induction false} FeedAllAppend(d: Decoder, s: Stream, a: seq<string>, b: seq<string>)
    ensures FeedAll(d, s, a + b) == FeedAll(d, FeedAll(d, s, a), b)
    decreases |b|
  {
    if b == [] {
      assert a + b == a;
    } else {
      FeedAllAppend(d, s, a, b[..|b| - 1]);
      assert (a + b)[..|a + b| - 1] == a + b[..|b| - 1];
    }
  }

  lemma FeedOne(d: Decoder, s: Stream, chunks: seq<string>, chunk: string)
    ensures FeedAll(d, s, chunks + [chunk]) == Feed(d, FeedAll(d, s, chunks), chunk)
  {
    assert (chunks + [chunk])[..|chunks|] == chunks;
  }

  // ---------------------------------------------------------------- what every interleaving makes of a stream

  /** What reaches the parser: the buffered chunk, then every kept one. */
  function Given(events: seq<Event>): seq<string> { Buffered(events) + Held(events) }

  ghost predicate Explains(d: Decoder, events: seq<Event>, l: Life) {
    var fed := FeedAll(d, Fresh(), Given(events));
    if ArmCount(events) == 1 && FinishCount(events) == 1 then l == Flushed(fed.fed)
    else
      l.Open? && l.stream.armed == (ArmCount(events) == 1) && l.stream.finished == (FinishCount(events) == 1) &&
      if l.stream.armed then l.stream.pending == [] && SameFeed(l.stream, fed)
      else l.stream.pending == Held(events) && SameFeed(l.stream, Fresh())
  }

  lemma {:induction false} NoArmNoBuffer(events: seq<Event>)
    requires ArmCount(events) == 0
    ensures Buffered(events) == []
  {
    if events != [] {
      NoArmNoBuffer(events[..|events| - 1]);
    }
  }

  lemma OrderlyPrefix(events: seq<Event>)
    requires Orderly(events) && events != []
    ensures Orderly(events[..|events| - 1])
  {
  }

  lemma {:induction false} FinishedBefore(events: seq<Event>)
    requires FinishCount(events) >= 1
    ensures exists i :: 0 <= i < |events| && events[i].Finished?
  {
    if !events[|events| - 1].Finished? {
      FinishedBefore(events[..|events| - 1]);
      var i :| 0 <= i < |events| - 1 && events[..|events| - 1][i].Finished?;
      assert events[i].Finished?;
    }
  }

  lemma DataExplains(d: Decoder, before: seq<Event>, chunk: string, l: Life)
    requires Explains(d, before, l) && FinishCount(before) == 0 && ArmCount(before) <= 1
    ensures Explains(d, before + [Data(chunk)], Step(d, l, Data(chunk)))
  {
    var events := before + [Data(chunk)];
    assert events[..|before|] == before;
    assert Buffered(events) == Buffered(before);
    if l.stream.armed {
      assert Given(events) == Given(before) + [chunk];
      FeedOne(d, Fresh(), Given(before), chunk);
    }
  }

  lemma ArmExplains(d: Decoder, before: seq<Event>, buffered: Option<string>, l: Life)
    requires Explains(d, before, l) && ArmCount(before) == 0
    ensures Explains(d, before + [Arm(buffered)], Step(d, l, Arm(buffered)))
  {
    var events := before + [Arm(buffered)];
    assert events[..|before|] == before;
    NoArmNoBuffer(before);
    assert Held(events) == Held(before);
    var first := if buffered.Some? then [buffered.value] else [];
    assert Buffered(events) == first;
    var s := l.stream;
    var s1 := if buffered.Some? then Feed(d, s, buffered.value) else s;
    FeedAllAlike(d, s, Fresh(), first);
    assert s1 == FeedAll(d, s, first) by {
      if buffered.Some? {
        FeedOne(d, s, [], buffered.value);
        assert [] + [buffered.value] == first;
        FeedKeepsPending(d, s, buffered.value);
      }
    }
    FeedAllKeepsFlags(d, s, first);
    FeedAllAppend(d, Fresh(), first, Held(before));
    FeedAllAlike(d, s1.(armed := true), FeedAll(d, Fresh(), first), Held(before));
    FeedAllKeepsFlags(d, s1.(armed := true), Held(before));
  }

  lemma FinishExplains(d: Decoder, before: seq<Event>, l: Life)
    requires Explains(d, before, l) && FinishCount(before) == 0 && ArmCount(before) <= 1
    ensures Explains(d, before + [Finished], Step(d, l, Finished))
  {
    var events := before + [Finished];
    assert events[..|before|] == before;
    assert Given(events) == Given(before);
  }

  lemma {:induction false} RunExplains(d: Decoder, events: seq<Event>)
    requires Orderly(events)
    ensures Explains(d, events, Run(d, events))
  {
    if events != [] {
      var n := |events| - 1;
      OrderlyPrefix(events);
      RunExplains(d, events[..n]);
      assert events == events[..n] + [events[n]];
      match events[n] {
        case Data(chunk) =>
          if FinishCount(events[..n]) >= 1 {
            FinishedBefore(events[..n]);
            assert false;
          }
          DataExplains(d, events[..n], chunk, Run(d, events[..n]));
        case Arm(buffered) => ArmExplains(d, events[..n], buffered, Run(d, events[..n]));
        case Finished => FinishExplains(d, events[..n], Run(d, events[..n]));
        case _ =>
      }
    }
  }

  // ---------------------------------------------------------------- bytes

  lemma {:induction false} DecodeAppend(d: Decoder, a: seq<string>, b: seq<string>)
    ensures DecodeAll(d, a + b) == DecodeAll(d, a) + DecodeAll(d, b)
    decreases |b|
  {
    if b == [] {
      assert a + b == a;
    } else {
      DecodeAppend(d, a, b[..|b| - 1]);
      assert (a + b)[..|a + b| - 1] == a + b[..|b| - 1];
    }
  }

  lemma {:induction false} FlatAppend(a: seq<Bytes>, b: seq<Bytes>)
    ensures Flat(a + b) == Flat(a) + Flat(b)
    decreases |b|
  {
    if b == [] {
      assert a + b == a;
    } else {
      FlatAppend(a, b[..|b| - 1]);
      assert (a + b)[..|a + b| - 1] == a + b[..|b| - 1];
    }
  }

  /** What these chunks decode to. */
  function BytesOf(d: Decoder, chunks: seq<string>): Bytes { Flat(DecodeAll(d, chunks)) }

  lemma BytesAppend(d: Decoder, a: seq<string>, b: seq<string>)
    ensures BytesOf(d, a + b) == BytesOf(d, a) + BytesOf(d, b)
  {
    DecodeAppend(d, a, b);
    FlatAppend(DecodeAll(d, a), DecodeAll(d, b));
  }

  lemma FlatOne(bytes: Bytes)
    ensures Flat([bytes]) == bytes
  {
    assert [bytes][..0] == [] && [] + bytes == bytes;
  }

  lemma DecodeOne(d: Decoder, chunk: string)
    ensures DecodeAll(d, [chunk]) == if d(chunk).Some? then [d(chunk).value] else []
  {
    assert [chunk][..0] == [];
  }

  lemma BytesOfOne(d: Decoder, chunk: string)
    ensures BytesOf(d, [chunk]) == if d(chunk).Some? then d(chunk).value else []
  {
    DecodeOne(d, chunk);
    if d(chunk).Some? {
      FlatOne(d(chunk).value);
    }
  }

  /** The counter runs with the bytes until they pass the cap, and what is fed never does. */
  ghost predicate Feeds(s: Stream, all: Bytes) {
    |Flat(s.fed)| <= MAX_STREAM &&
    if |all| <= MAX_STREAM then Flat(s.fed) == all && s.received == |all| else s.received >= MAX_STREAM
  }

  lemma FeedBytes(d: Decoder, s: Stream, all: Bytes, chunk: string)
    requires Feeds(s, all)
    ensures Feeds(Feed(d, s, chunk), all + BytesOf(d, [chunk]))
  {
    BytesOfOne(d, chunk);
    if d(chunk).Some? {
      var bytes := d(chunk).value;
      FlatAppend(s.fed, [bytes]);
      FlatOne(bytes);
    } else {
      assert all + [] == all;
    }
  }

  lemma {:induction false} FedBytes(d: Decoder, chunks: seq<string>)
    ensures Feeds(FeedAll(d, Fresh(), chunks), BytesOf(d, chunks))
  {
    if chunks != [] {
      var n := |chunks| - 1;
      FedBytes(d, chunks[..n]);
      FeedBytes(d, FeedAll(d, Fresh(), chunks[..n]), BytesOf(d, chunks[..n]), chunks[n]);
      assert chunks == chunks[..n] + [chunks[n]];
      BytesAppend(d, chunks[..n], [chunks[n]]);
    }
  }

  /** Kept and skipped chunks make up what arrived. */
  ghost predicate Split(d: Decoder, arrived: seq<string>, kept: seq<string>, skipped: seq<string>) {
    |BytesOf(d, arrived)| == |BytesOf(d, kept)| + |BytesOf(d, skipped)| &&
    (BytesOf(d, skipped) == [] ==> BytesOf(d, arrived) == BytesOf(d, kept))
  }

  lemma SplitOne(d: Decoder, arrived: seq<string>, kept: seq<string>, skipped: seq<string>, chunk: string)
    requires Split(d, arrived, kept, skipped)
    ensures Split(d, arrived + [chunk], kept + [chunk], skipped) && Split(d, arrived + [chunk], kept, skipped + [chunk])
  {
    BytesAppend(d, arrived, [chunk]);
    BytesAppend(d, kept, [chunk]);
    BytesAppend(d, skipped, [chunk]);
  }

  lemma Unchanged(chunks: seq<string>)
    ensures chunks + [] == chunks
  {
  }

  lemma {:induction false} KeptAndSkipped(d: Decoder, events: seq<Event>)
    ensures Split(d, Arrivals(events), Held(events), Skipped(events))
  {
    if events != [] {
      var before, last := events[..|events| - 1], events[|events| - 1];
      KeptAndSkipped(d, before);
      if last.Data? {
        SplitOne(d, Arrivals(before), Held(before), Skipped(before), last.chunk);
      }
      Unchanged(Held(before));
      Unchanged(Skipped(before));
      Unchanged(Arrivals(before));
    }
  }

  // ---------------------------------------------------------------- main results

  /** Everything a finished stream was given, in arrival order. */
  function Everything(d: Decoder, events: seq<Event>): Bytes { BytesOf(d, Buffered(events) + Arrivals(events)) }

  /** Any interleaving of one arming, one finish and the data before it flushes the stream once, and the parser was
      given every decoded byte once, in arrival order, exactly when they fit the decoded cap and no chunk with
      anything in it was too large to hold before the stream was armed. */
  lemma EveryByteOnceIff(d: Decoder, events: seq<Event>)
    requires Orderly(events) && ArmCount(events) == 1 && FinishCount(events) == 1
    ensures Run(d, events).Flushed?
    ensures Flat(Run(d, events).result) == Everything(d, events) <==>
              |Everything(d, events)| <= MAX_STREAM && BytesOf(d, Skipped(events)) == []
  {
    RunExplains(d, events);
    FedBytes(d, Given(events));
    KeptAndSkipped(d, events);
    BytesAppend(d, Buffered(events), Held(events));
    BytesAppend(d, Buffered(events), Arrivals(events));
  }

  /** Nothing is skipped while the arriving data fits what may be held. */
  lemma {:induction false} SmallIsKept(events: seq<Event>)
    requires Size(Arrivals(events)) <= 2 * MAX_STREAM
    ensures Held(events) == Arrivals(events) && Skipped(events) == []
  {
    if events != [] {
      var before, last := events[..|events| - 1], events[|events| - 1];
      if last.Data? {
        assert (Arrivals(before) + [last.chunk])[..|Arrivals(before)|] == Arrivals(before);
      } else {
        assert Arrivals(events) == Arrivals(before);
      }
      SmallIsKept(before);
    }
  }

  ghost predicate WithinLimits(d: Decoder, events: seq<Event>) {
    Size(Arrivals(events)) <= 2 * MAX_STREAM && |Everything(d, events)| <= MAX_STREAM
  }

  /** Within both limits, the caps themselves included, every byte is fed once in arrival order. */
  lemma EveryByteOnce(d: Decoder, events: seq<Event>)
    requires Orderly(events) && ArmCount(events) == 1 && FinishCount(events) == 1 && WithinLimits(d, events)
    ensures Run(d, events).Flushed? && Flat(Run(d, events).result) == Everything(d, events)
  {
    SmallIsKept(events);
    EveryByteOnceIff(d, events);
  }

  /** So the moment of arming does not matter. */
  lemma ArmingTimeIsIrrelevant(d: Decoder, a: seq<Event>, b: seq<Event>)
    requires Orderly(a) && WithinLimits(d, a) && ArmCount(a) == 1 && FinishCount(a) == 1
    requires Orderly(b) && WithinLimits(d, b) && ArmCount(b) == 1 && FinishCount(b) == 1
    requires Arrivals(a) == Arrivals(b) && Buffered(a) == Buffered(b)
    ensures Run(d, a) == Run(d, b)
  {
    SmallIsKept(a);
    SmallIsKept(b);
    RunExplains(d, a);
    RunExplains(d, b);
  }

  /** Once flushed, a stream is flushed for good: unless its request is seen again, nothing that still arrives
      changes what the parser was given. */
  lemma {:induction false} FlushedForGood(d: Decoder, before: seq<Event>, after: seq<Event>)
    requires Run(d, before).Flushed? && forall i :: 0 <= i < |after| ==> !after[i].Request?
    ensures Run(d, before + after) == Run(d, before)
    decreases |after|
  {
    if after == [] {
      assert before + after == before;
    } else {
      var n := |after| - 1;
      FlushedForGood(d, before, after[..n]);
      assert (before + after)[..|before + after| - 1] == before + after[..n];
    }
  }

  lemma FeedStaysWithinCap(d: Decoder, s: Stream, chunk: string)
    requires |Flat(s.fed)| <= MAX_STREAM && |Flat(s.fed)| <= s.received
    ensures var next := Feed(d, s, chunk);
            |Flat(next.fed)| <= MAX_STREAM && |Flat(next.fed)| <= next.received && s.fed <= next.fed
  {
    if d(chunk).Some? {
      FlatAppend(s.fed, [d(chunk).value]);
      FlatOne(d(chunk).value);
    }
  }

  lemma {:induction false} FeedAllStaysWithinCap(d: Decoder, s: Stream, chunks: seq<string>)
    requires |Flat(s.fed)| <= MAX_STREAM && |Flat(s.fed)| <= s.received
    ensures var next := FeedAll(d, s, chunks); |Flat(next.fed)| <= MAX_STREAM && |Flat(next.fed)| <= next.received
  {
    if chunks != [] {
      FeedAllStaysWithinCap(d, s, chunks[..|chunks| - 1]);
      FeedStaysWithinCap(d, FeedAll(d, s, chunks[..|chunks| - 1]), chunks[|chunks| - 1]);
    }
  }

  /** In every reachable state, orderly or not, no stream has been given more than the decoded cap. */
  lemma {:induction false} FedWithinCap(d: Decoder, events: seq<Event>)
    ensures var l := Run(d, events);
            match l
            case Absent => true
            case Open(s) => |Flat(s.fed)| <= MAX_STREAM && |Flat(s.fed)| <= s.received
            case Flushed(result) => |Flat(result)| <= MAX_STREAM
  {
    if events != [] {
      FedWithinCap(d, events[..|events| - 1]);
      var l, e := Run(d, events[..|events| - 1]), events[|events| - 1];
      if l.Open? {
        match e
        case Data(chunk) => FeedStaysWithinCap(d, l.stream, chunk);
        case Arm(buffered) =>
          var s1 := if buffered.Some? then Feed(d, l.stream, buffered.value) else l.stream;
          if buffered.Some? {
            FeedStaysWithinCap(d, l.stream, buffered.value);
          }
          FeedAllStaysWithinCap(d, s1.(armed := true), s1.pending);
        case _ =>
      }
    }
  }

  /** Before arming, a chunk too large to hold is skipped although a later one may still be held: the one way
      to lose a chunk from the middle. */
  lemma OversizedChunkIsSkipped(d: Decoder, big: string, small: string, bytes: Bytes)
    requires |big| > 2 * MAX_STREAM && |small| <= 2 * MAX_STREAM && d(small) == Some(bytes) && |bytes| <= MAX_STREAM
    ensures Run(d, [Data(big), Data(small), Arm(None), Finished]) == Flushed([bytes])
  {
    var held := Stream([], [small], false, false, 0);
    assert [Data(big)][..0] == [] && [Data(big), Data(small)][..1] == [Data(big)];
    assert Run(d, [Data(big)]) == Open(Stream([], [], false, false, 0));
    assert Size([]) == 0 && [] + [small] == [small];
    assert Run(d, [Data(big), Data(small)]) == Open(held);
    assert [Data(big), Data(small), Arm(None)][..2] == [Data(big), Data(small)];
    var s := held.(armed := true);
    assert [small][..0] == [];
    assert FeedAll(d, s, [small]) == Feed(d, s, small);
    assert [] + [bytes] == [bytes];
    assert Run(d, [Data(big), Data(small), Arm(None)]) == Open(s.(fed := [bytes], received := |bytes|, pending := []));
    assert [Data(big), Data(small), Arm(None), Finished][..3] == [Data(big), Data(small), Arm(None)];
  }

  // ---------------------------------------------------------------- the owner of all streams

  /** The browser's answer to the request to stream a response. */
  datatype Answer = Refusal | Streaming(buffered: Option<string>)

  function ArmEvent(answer: Answer): Event {
    match answer case Refusal => Drop case Streaming(buffered) => Arm(buffered)
  }

  class OwnedToolStream {
    const decode: Decoder
    var streams: map<string, Stream>
    var flushed: map<string, seq<Bytes>>

    constructor (decode: Decoder)
      ensures this.decode == decode && streams == map[] && flushed == map[]
    {
      this.decode, streams, flushed := decode, map[], map[];
    }

    ghost function LifeOf(id: string): Life
      reads this
    {
      if id in streams then Open(streams[id]) else if id in flushed then Flushed(flushed[id]) else Absent
    }

    /** Only the stream with this id was affected. */
    twostate predicate OnlyStream(id: string)
      reads this
    {
      forall other :: other != id ==> LifeOf(other) == old(LifeOf(other))
    }

    method OnRequest(id: string)
      modifies this
      ensures LifeOf(id) == Step(decode, old(LifeOf(id)), Request) && OnlyStream(id)
    {
      streams := streams[id := Stream([], [], false, false, 0)];
    }

    method Flush(id: string, stream: Stream)
      modifies this
      ensures LifeOf(id) == Flushed(stream.fed) && OnlyStream(id)
    {
      streams := streams - {id};
      flushed := flushed[id := stream.fed];
    }

    method FeedChunk(stream: Stream, encoded: string) returns (next: Stream)
      ensures next == Feed(decode, stream, encoded)
    {
      next := stream;
      if stream.received >= MAX_STREAM {
        return;
      }
      var bytes := decode(encoded);
      if bytes.None? {
        return;
      }
      next := next.(received := next.received + |bytes.value|);
      if next.received > MAX_STREAM {
        return;
      }
      next := next.(fed := next.fed + [bytes.value]);
    }

    method FeedPending(stream: Stream) returns (next: Stream)
      ensures next == FeedAll(decode, stream, stream.pending).(pending := [])
    {
      next := stream;
      var n := 0;
      while n < |stream.pending|
        invariant 0 <= n <= |stream.pending|
        invariant next == FeedAll(decode, stream, stream.pending[..n])
      {
        assert stream.pending[..n + 1][..n] == stream.pending[..n];
        next := FeedChunk(next, stream.pending[n]);
        n := n + 1;
      }
      assert stream.pending[..n] == stream.pending;
      next := next.(pending := []);
    }

    /** The browser answered the request to stream this response; a refusal forgets the stream. */
    method ArmStream(id: string, answer: Answer)
      modifies this
      ensures LifeOf(id) == Step(decode, old(LifeOf(id)), ArmEvent(answer)) && OnlyStream(id)
    {
      if id !in streams {
        return;
      }
      if answer.Refusal? {
        streams, flushed := streams - {id}, flushed - {id};
        return;
      }
      var stream := streams[id];
      if answer.buffered.Some? {
        stream := FeedChunk(stream, answer.buffered.value);
        FeedKeepsPending(decode, streams[id], answer.buffered.value);
      }
      FeedAllKeepsFlags(decode, stream.(armed := true), stream.pending);
      stream := FeedPending(stream.(armed := true));
      streams := streams[id := stream];
      if stream.finished {
        Flush(id, stream);
      }
    }

    method PendingSize(stream: Stream) returns (size: nat)
      ensures size == Size(stream.pending)
    {
      size := 0;
      for n := 0 to |stream.pending|
        invariant size == Size(stream.pending[..n])
      {
        assert stream.pending[..n + 1][..n] == stream.pending[..n];
        size := size + |stream.pending[n]|;
      }
      assert stream.pending[..|stream.pending|] == stream.pending;
    }

    /** Data of an inactive page is ignored. */
    method OnData(id: string, chunk: string, active: bool)
      modifies this
      ensures LifeOf(id) == if active then Step(decode, old(LifeOf(id)), Data(chunk)) else old(LifeOf(id))
      ensures OnlyStream(id)
    {
      if id !in streams || !active {
        return;
      }
      var stream := streams[id];
      if stream.armed {
        var next := FeedChunk(stream, chunk);
        streams := streams[id := next];
      } else {
        var size := PendingSize(stream);
        if size + |chunk| <= 2 * MAX_STREAM {
          streams := streams[id := stream.(pending := stream.pending + [chunk])];
        }
      }
    }

    method OnFinished(id: string)
      modifies this
      ensures LifeOf(id) == Step(decode, old(LifeOf(id)), Finished) && OnlyStream(id)
    {
      if id !in streams {
        return;
      }
      var stream := streams[id].(finished := true);
      streams := streams[id := stream];
      if stream.armed {
        Flush(id, stream);
      }
    }
  }
}
