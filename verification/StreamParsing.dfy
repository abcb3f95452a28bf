/** From network events to the parsed answer: any interleaving of arming, data and finish gives the snapshot of
    one pass over the decoded bytes. */
module StreamParsing {
  import opened Tables
  import opened Captures
  import opened SseEvents
  import S = SseStream
  import O = OwnedStream

  /** An incremental text decoder: what each byte adds to the text, given the bytes carried over, and what the
      bytes left at the end become. */
  datatype TextDecoder = TextDecoder(next: (O.Bytes, bv8) -> (O.Bytes, string), last: O.Bytes -> string)

  /** The carry and the text after these bytes, from this carry. */
  function Decode(t: TextDecoder, carry: O.Bytes, bytes: O.Bytes): (O.Bytes, string) {
    if bytes == [] then (carry, "")
    else
      var n := |bytes| - 1;
      var (before, text) := Decode(t, carry, bytes[..n]);
      var (after, more) := t.next(before, bytes[n]);
      (after, text + more)
  }

  /** The text of a whole stream. */
  function TextOf(t: TextDecoder, bytes: O.Bytes): string {
    var (carry, text) := Decode(t, [], bytes);
    text + t.last(carry)
  }

  lemma {:induction false} DecodeAppend(t: TextDecoder, carry: O.Bytes, a: O.Bytes, b: O.Bytes)
    ensures var (c1, t1) := Decode(t, carry, a);
            var (c2, t2) := Decode(t, c1, b);
            Decode(t, carry, a + b) == (c2, t1 + t2)
    decreases |b|
  {
    var (c1, t1) := Decode(t, carry, a);
    if b == [] {
      assert a + b == a && t1 + "" == t1;
    } else {
      var n := |b| - 1;
      DecodeAppend(t, carry, a, b[..n]);
      assert (a + b)[..|a + b| - 1] == a + b[..n] && (a + b)[|a + b| - 1] == b[n];
      var (c2, t2) := Decode(t, c1, b[..n]);
      assert (t1 + t2) + t.next(c2, b[n]).1 == t1 + (t2 + t.next(c2, b[n]).1);
    }
  }

  /** The pieces of text the parser is fed, one per chunk of bytes, and the carry after them. */
  function Pieces(t: TextDecoder, chunks: seq<O.Bytes>): (O.Bytes, seq<string>) {
    if chunks == [] then ([], [])
    else
      var n := |chunks| - 1;
      var (carry, pieces) := Pieces(t, chunks[..n]);
      var (after, piece) := Decode(t, carry, chunks[n]);
      (after, pieces + [piece])
  }

  /** Where the bytes are cut does not matter to the text. */
  lemma {:induction false} PiecesAreText(t: TextDecoder, chunks: seq<O.Bytes>)
    ensures var (carry, pieces) := Pieces(t, chunks);
            Decode(t, [], O.Flat(chunks)) == (carry, S.Concat(pieces))
  {
    if chunks != [] {
      var n := |chunks| - 1;
      var (carry, pieces) := Pieces(t, chunks[..n]);
      var (after, piece) := Decode(t, carry, chunks[n]);
      PiecesAreText(t, chunks[..n]);
      DecodeAppend(t, [], O.Flat(chunks[..n]), chunks[n]);
      assert (pieces + [piece])[..|pieces|] == pieces;
    }
  }

  /** Everything the parser is fed of a flushed stream: its pieces, then what the decoder still held. */
  function Fed(t: TextDecoder, chunks: seq<O.Bytes>): seq<string> {
    var (carry, pieces) := Pieces(t, chunks);
    pieces + [t.last(carry)]
  }

  lemma FedIsText(t: TextDecoder, chunks: seq<O.Bytes>)
    ensures S.Concat(Fed(t, chunks)) == TextOf(t, O.Flat(chunks))
  {
    var (carry, pieces) := Pieces(t, chunks);
    PiecesAreText(t, chunks);
    assert (pieces + [t.last(carry)])[..|pieces|] == pieces;
  }

  /** The parser publishes a snapshot after every piece but the last. */
  function Watched(pieces: seq<string>): seq<S.Action> {
    if pieces == [] then []
    else
      var n := |pieces| - 1;
      (if n == 0 then [] else Watched(pieces[..n]) + [S.Poll]) + [S.Chunk(pieces[n])]
  }

  lemma {:induction false} WatchedChunks(pieces: seq<string>)
    ensures S.ChunksOf(Watched(pieces)) == pieces
  {
    if pieces != [] {
      var n := |pieces| - 1;
      var before := if n == 0 then [] else Watched(pieces[..n]) + [S.Poll];
      if n == 0 {
        assert pieces[..0] == [];
      } else {
        WatchedChunks(pieces[..n]);
        assert before[..|before| - 1] == Watched(pieces[..n]);
        assert pieces[..n] + [] == pieces[..n];
      }
      assert Watched(pieces)[..|Watched(pieces)| - 1] == before;
      assert pieces[..n] + [pieces[n]] == pieces;
    }
  }

  /** What the parser shows after the flush of a stream with these chunks, read after every piece. */
  function Parsed(p: Parser, t: TextDecoder, chunks: seq<O.Bytes>, stop: Option<CaptureStatus>): S.Snapshot {
    S.Shows(S.Finish(p, S.ActAll(p, S.Start(), Watched(Fed(t, chunks)))), stop)
  }

  /** Any interleaving of one arming, one finish and the data before it, within the byte limits, parses to the
      snapshot of one pass over everything that arrived, unless a reading on the way found an answer past its
      cap. */
  lemma AnyInterleavingParsesAlike(
      d: O.Decoder, t: TextDecoder, p: Parser, events: seq<O.Event>, stop: Option<CaptureStatus>)
    requires O.Orderly(events) && O.ArmCount(events) == 1 && O.FinishCount(events) == 1 && O.WithinLimits(d, events)
    requires O.Run(d, events).Flushed? ==> S.NeverLong(p, S.Start(), Watched(Fed(t, O.Run(d, events).result)))
    ensures O.Run(d, events).Flushed?
    ensures Parsed(p, t, O.Run(d, events).result, stop) == S.ParseBody(p, TextOf(t, O.Everything(d, events)), stop)
  {
    O.EveryByteOnce(d, events);
    var pieces := Fed(t, O.Run(d, events).result);
    S.PollingIsTransparentIff(p, S.Start(), Watched(pieces));
    WatchedChunks(pieces);
    FedIsText(t, O.Run(d, events).result);
    S.ChunkIndependence(p, pieces, stop);
  }
}
