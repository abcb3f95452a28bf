/** Passive parsing of one owned response stream: framing into lines and events, the size cap, and the
    snapshot. The result depends only on the concatenated input. */
module SseStream {
  import opened Tables
  import opened DisplayBlocks
  import opened Captures
  import opened SseEvents

  const MAX_SSE := 4 * 1024 * 1024

  /** `log` is history: the events decoded so far. */
  datatype State = State(buffer: string, data: seq<string>, received: nat, overflow: bool, view: View, log: seq<Event>)

  function Start(): State { State("", [], 0, false, Blank(), []) }

  // ---------------------------------------------------------------- framing

  function Done(): Event {
    Event(true, false, false, false, None, None, None, Patch(Absent, Default, Nothing))
  }

  /** The event a payload stands for; unreadable payloads and non-objects are dropped. */
  function Decoded(p: Parser, payload: string): Option<Event> {
    if payload == "[DONE]" then Some(Done()) else p.decode(payload)
  }

  function Flush(p: Parser, s: State): State {
    if s.data == [] then s
    else match Decoded(p, Join(s.data))
      case None => s.(data := [])
      case Some(e) => s.(data := [], view := Consume(p, s.view, e), log := s.log + [e])
  }

  function DropSpace(text: string): string {
    if HasPrefix(" ", text) then text[1..] else text
  }

  function HandleLine(p: Parser, s: State, line: string): State {
    if line == "" then Flush(p, s)
    else if HasPrefix("data:", line) then s.(data := s.data + [DropSpace(line[5..])])
    else s
  }

  /** A line without its carriage return. */
  function Chomp(line: string): string {
    if line != "" && line[|line| - 1] == '\r' then line[..|line| - 1] else line
  }

  /** One character at a time: the reference that any chunking is measured against. */
  function Push(p: Parser, s: State, c: char): State {
    if c == '\n' then HandleLine(p, s.(buffer := ""), Chomp(s.buffer)) else s.(buffer := s.buffer + [c])
  }

  function Scan(p: Parser, s: State, text: string): State {
    if text == "" then s else Push(p, Scan(p, s, text[..|text| - 1]), text[|text| - 1])
  }

  function Room(s: State): nat {
    if s.received > MAX_SSE then 0 else MAX_SSE - s.received
  }

  function Feed(p: Parser, s: State, chunk: string): State {
    if chunk == "" || s.overflow then s
    else Scan(p, s.(received := s.received + |chunk|, overflow := |chunk| > Room(s)), Take(chunk, Room(s)))
  }

  function Finish(p: Parser, s: State): State {
    Flush(p, if s.buffer == "" then s else HandleLine(p, s.(buffer := ""), Chomp(s.buffer)))
  }

  ghost predicate Valid(p: Parser, s: State) {
    && '\n' !in s.buffer
    && (!s.overflow ==> s.received <= MAX_SSE)
    && s.view == ConsumeAll(p, Blank(), s.log)
  }

  // ---------------------------------------------------------------- the snapshot

  datatype Snapshot = Snapshot(
    status: CaptureStatus, text: string,
    conversation: Option<string>, message: Option<string>, parent: Option<string>,
    observed: seq<Message>, blocks: seq<Shown>, endedWithoutAnswer: bool, streamError: bool)

  predicate TooLong(s: State) { !s.view.ambiguous && |Prose(s.view.parts)| > MAX_CHARS }

  /** Reading a snapshot marks an oversized answer for good. */
  function Polled(s: State): State {
    if TooLong(s) then s.(overflow := true) else s
  }

  function Shows(s: State, stop: Option<CaptureStatus>): Snapshot {
    var v := s.view;
    if v.ambiguous then Snapshot(Unknown, "", None, None, None, [], [], false, false)
    else
      var text := Take(Prose(v.parts), MAX_CHARS);
      var status :=
        if v.streamError then Cut
        else if stop.Some? && !stop.value.Unknown? then stop.value
        else if v.complete && v.seenFinal && text != "" && !s.overflow && !TooLong(s) then Complete
        else if text != "" then Partial
        else Unknown;
      Snapshot(status, text, v.conversation, v.message, v.parent, v.observed, v.blocks,
               v.complete && v.sawReasoning && text == "" && !v.seenFinal, v.streamError)
  }

  function ParseBody(p: Parser, body: string, stop: Option<CaptureStatus>): Snapshot {
    Shows(Finish(p, Feed(p, Start(), body)), stop)
  }

  // ---------------------------------------------------------------- any chunking gives one result

  /** Equal but for the counter, which stops mattering at the cap. */
  predicate Same(a: State, b: State) {
    a.overflow == b.overflow && a.(received := b.received) == b && (!a.overflow ==> a == b)
  }

  lemma {:induction false} ScanAppend(p: Parser, s: State, a: string, b: string)
    ensures Scan(p, s, a + b) == Scan(p, Scan(p, s, a), b)
    decreases |b|
  {
    if b == "" {
      assert a + b == a;
    } else {
      ScanAppend(p, s, a, b[..|b| - 1]);
      assert (a + b)[..|a + b| - 1] == a + b[..|b| - 1];
    }
  }

  /** Framing never looks at the counter or the cap. */
  lemma PushIgnoresCap(p: Parser, s: State, c: char, received: nat, overflow: bool)
    ensures Push(p, s.(received := received, overflow := overflow), c) ==
              Push(p, s, c).(received := received, overflow := overflow)
  {
  }

  lemma {:induction false} ScanIgnoresCap(p: Parser, s: State, text: string, received: nat, overflow: bool)
    ensures Scan(p, s.(received := received, overflow := overflow), text)
              == Scan(p, s, text).(received := received, overflow := overflow)
  {
    if text != "" {
      ScanIgnoresCap(p, s, text[..|text| - 1], received, overflow);
      PushIgnoresCap(p, Scan(p, s, text[..|text| - 1]), text[|text| - 1], received, overflow);
    }
  }

  lemma FeedForm(p: Parser, s: State, chunk: string)
    requires !s.overflow && s.received <= MAX_SSE
    ensures Feed(p, s, chunk) == Scan(p, s, Take(chunk, Room(s))).(received := s.received + |chunk|,
                                                                   overflow := |chunk| > Room(s))
  {
    if chunk == "" {
      assert Take(chunk, Room(s)) == "";
    } else {
      ScanIgnoresCap(p, s, Take(chunk, Room(s)), s.received + |chunk|, |chunk| > Room(s));
    }
  }

  lemma {:induction false} ScanKeepsCap(p: Parser, s: State, text: string)
    ensures Scan(p, s, text).received == s.received && Scan(p, s, text).overflow == s.overflow
  {
    if text != "" {
      ScanKeepsCap(p, s, text[..|text| - 1]);
    }
  }

  /** Splitting a chunk anywhere, inside a line ending or across the cap, changes nothing. */
  lemma SplitChunk(p: Parser, s: State, a: string, b: string)
    requires !s.overflow ==> s.received <= MAX_SSE
    ensures Same(Feed(p, Feed(p, s, a), b), Feed(p, s, a + b))
  {
    if s.overflow || a == "" || b == "" {
      assert a == "" ==> a + b == b;
      assert b == "" ==> a + b == a;
    } else {
      var room := Room(s);
      FeedForm(p, s, a);
      FeedForm(p, s, a + b);
      if |a| > room {
        assert Take(a + b, room) == Take(a, room);
      } else {
        var s1 := Feed(p, s, a);
        assert Take(a, room) == a;
        FeedForm(p, s1, b);
        assert Take(a + b, room) == a + Take(b, Room(s1));
        ScanAppend(p, s, a, Take(b, Room(s1)));
        ScanIgnoresCap(p, Scan(p, s, a), Take(b, Room(s1)), s1.received, s1.overflow);
      }
    }
  }

  function Concat(chunks: seq<string>): string {
    if chunks == [] then "" else Concat(chunks[..|chunks| - 1]) + chunks[|chunks| - 1]
  }

  function FeedAll(p: Parser, s: State, chunks: seq<string>): State {
    if chunks == [] then s else Feed(p, FeedAll(p, s, chunks[..|chunks| - 1]), chunks[|chunks| - 1])
  }

  lemma {:induction false} FeedAllIsFeed(p: Parser, s: State, chunks: seq<string>)
    requires !s.overflow ==> s.received <= MAX_SSE
    ensures Same(FeedAll(p, s, chunks), Feed(p, s, Concat(chunks)))
  {
    if chunks != [] {
      var n := |chunks| - 1;
      FeedAllIsFeed(p, s, chunks[..n]);
      SplitChunk(p, s, Concat(chunks[..n]), chunks[n]);
    }
  }

  lemma SameSnapshot(p: Parser, a: State, b: State, stop: Option<CaptureStatus>)
    requires Same(a, b)
    ensures Shows(Finish(p, a), stop) == Shows(Finish(p, b), stop)
  {
  }

  /** Any split of a stream into chunks parses to the same snapshot as its concatenation in one pass. */
  lemma ChunkIndependence(p: Parser, chunks: seq<string>, stop: Option<CaptureStatus>)
    ensures Shows(Finish(p, FeedAll(p, Start(), chunks)), stop) == ParseBody(p, Concat(chunks), stop)
  {
    FeedAllIsFeed(p, Start(), chunks);
    SameSnapshot(p, FeedAll(p, Start(), chunks), Feed(p, Start(), Concat(chunks)), stop);
  }

  // ---------------------------------------------------------------- what the characters mean

  lemma {:induction false} ScanWithoutNewline(p: Parser, s: State, text: string)
    requires '\n' !in text
    ensures Scan(p, s, text) == s.(buffer := s.buffer + text)
  {
    if text == "" {
      assert s.buffer + text == s.buffer;
    } else {
      ScanWithoutNewline(p, s, text[..|text| - 1]);
      assert s.buffer + text[..|text| - 1] + [text[|text| - 1]] == s.buffer + text;
    }
  }

  /** A complete line is handled once, without its line ending. */
  lemma ScanLine(p: Parser, s: State, line: string)
    requires '\n' !in line
    ensures Scan(p, s, line + "\n") == HandleLine(p, s.(buffer := ""), Chomp(s.buffer + line))
  {
    ScanWithoutNewline(p, s, line);
    assert (line + "\n")[..|line + "\n"| - 1] == line;
  }

  function Lines(lines: seq<string>, ending: string): string {
    if lines == [] then "" else Lines(lines[..|lines| - 1], ending) + (lines[|lines| - 1] + ending)
  }

  function HandleAll(p: Parser, s: State, lines: seq<string>): State {
    if lines == [] then s else HandleLine(p, HandleAll(p, s, lines[..|lines| - 1]), lines[|lines| - 1])
  }

  predicate PlainLine(line: string) {
    '\n' !in line && (line == "" || line[|line| - 1] != '\r')
  }

  lemma HandleKeepsBuffer(p: Parser, s: State, line: string)
    ensures HandleLine(p, s, line).buffer == s.buffer
  {
  }

  function Ending(crlf: bool): string { if crlf then "\r\n" else "\n" }

  function Return(crlf: bool): string { if crlf then "\r" else "" }

  lemma EndingSplits(line: string, crlf: bool)
    requires PlainLine(line)
    ensures line + Ending(crlf) == (line + Return(crlf)) + "\n"
    ensures '\n' !in line + Return(crlf) && Chomp(line + Return(crlf)) == line
  {
  }

  lemma ScanPlainLine(p: Parser, s: State, line: string, crlf: bool)
    requires s.buffer == "" && PlainLine(line)
    ensures Scan(p, s, line + Ending(crlf)) == HandleLine(p, s, line)
  {
    var text := line + Return(crlf);
    EndingSplits(line, crlf);
    ScanLine(p, s, text);
    assert s.buffer + text == text && s.(buffer := "") == s;
  }

  ghost predicate AllPlain(lines: seq<string>) {
    forall i :: 0 <= i < |lines| ==> PlainLine(lines[i])
  }

  lemma PlainPrefix(lines: seq<string>)
    requires AllPlain(lines) && lines != []
    ensures AllPlain(lines[..|lines| - 1]) && PlainLine(lines[|lines| - 1])
  {
  }

  lemma ScanNextLine(p: Parser, s: State, text: string, line: string, crlf: bool)
    requires Scan(p, s, text).buffer == "" && PlainLine(line)
    ensures Scan(p, s, text + (line + Ending(crlf))) == HandleLine(p, Scan(p, s, text), line)
    ensures HandleLine(p, Scan(p, s, text), line).buffer == ""
  {
    ScanAppend(p, s, text, line + Ending(crlf));
    ScanPlainLine(p, Scan(p, s, text), line, crlf);
    HandleKeepsBuffer(p, Scan(p, s, text), line);
  }

  /** Lines mean the same whether they end in LF or in CR LF. */
  lemma {:induction false} LineEndings(p: Parser, s: State, lines: seq<string>, crlf: bool)
    requires s.buffer == "" && AllPlain(lines)
    ensures Scan(p, s, Lines(lines, Ending(crlf))) == HandleAll(p, s, lines)
    ensures HandleAll(p, s, lines).buffer == ""
  {
    if lines != [] {
      var n := |lines| - 1;
      PlainPrefix(lines);
      LineEndings(p, s, lines[..n], crlf);
      ScanNextLine(p, s, Lines(lines[..n], Ending(crlf)), lines[n], crlf);
    }
  }

  // ---------------------------------------------------------------- polling

  datatype Action = Chunk(text: string) | Poll

  function Act(p: Parser, s: State, a: Action): State {
    match a
    case Chunk(text) => Feed(p, s, text)
    case Poll => Polled(s)
  }

  function ActAll(p: Parser, s: State, actions: seq<Action>): State {
    if actions == [] then s else Act(p, ActAll(p, s, actions[..|actions| - 1]), actions[|actions| - 1])
  }

  function ChunksOf(actions: seq<Action>): seq<string> {
    if actions == [] then []
    else
      var last := actions[|actions| - 1];
      ChunksOf(actions[..|actions| - 1]) + if last.Chunk? then [last.text] else []
  }

  /** No reading finds an answer past the answer cap while the parser still takes input. */
  ghost predicate NeverLong(p: Parser, s: State, actions: seq<Action>) {
    forall i :: 0 <= i < |actions| && actions[i].Poll? ==>
      var read := ActAll(p, s, actions[..i]); read.overflow || !TooLong(read)
  }

  lemma NeverLongPrefix(p: Parser, s: State, actions: seq<Action>)
    requires actions != []
    ensures var n := |actions| - 1;
            NeverLong(p, s, actions) <==>
              NeverLong(p, s, actions[..n]) &&
              (actions[n].Poll? ==> ActAll(p, s, actions[..n]).overflow || !TooLong(ActAll(p, s, actions[..n])))
  {
    var n := |actions| - 1;
    assert forall i :: 0 <= i < n ==> actions[..n][i] == actions[i] && actions[..n][..i] == actions[..i];
    if NeverLong(p, s, actions[..n]) &&
        (actions[n].Poll? ==> ActAll(p, s, actions[..n]).overflow || !TooLong(ActAll(p, s, actions[..n]))) {
      forall i | 0 <= i < |actions| && actions[i].Poll?
        ensures var read := ActAll(p, s, actions[..i]); read.overflow || !TooLong(read)
      {
        if i < n {
          assert actions[..n][i].Poll?;
        }
      }
    }
  }

  /** Where a reading has stopped the parser, the unread one has more room or has taken more. */
  predicate Behind(stopped: State, unread: State) {
    stopped.overflow && stopped.received <= unread.received &&
    (stopped.received == unread.received ==> !unread.overflow)
  }

  lemma ChunkKeepsBehind(p: Parser, stopped: State, unread: State, chunk: string)
    requires Behind(stopped, unread)
    ensures Behind(Feed(p, stopped, chunk), Feed(p, unread, chunk))
  {
    if chunk != "" && !unread.overflow {
      ScanKeepsCap(p, unread.(received := unread.received + |chunk|, overflow := |chunk| > Room(unread)),
                   Take(chunk, Room(unread)));
    }
  }

  lemma PollForm(s: State)
    ensures Polled(s) == s <==> s.overflow || !TooLong(s)
  {
    assert s.overflow ==> s.(overflow := true) == s;
  }

  lemma {:induction false} ReadOrUnread(p: Parser, s: State, actions: seq<Action>)
    ensures var acted, unread := ActAll(p, s, actions), FeedAll(p, s, ChunksOf(actions));
            if NeverLong(p, s, actions) then acted == unread else Behind(acted, unread)
  {
    if actions != [] {
      var n := |actions| - 1;
      NeverLongPrefix(p, s, actions);
      ReadOrUnread(p, s, actions[..n]);
      if actions[n].Chunk? {
        assert (ChunksOf(actions[..n]) + [actions[n].text])[..|ChunksOf(actions[..n])|] == ChunksOf(actions[..n]);
        if !NeverLong(p, s, actions[..n]) {
          ChunkKeepsBehind(p, ActAll(p, s, actions[..n]), FeedAll(p, s, ChunksOf(actions[..n])), actions[n].text);
        }
      } else {
        assert ChunksOf(actions[..n]) + [] == ChunksOf(actions[..n]);
        PollForm(ActAll(p, s, actions[..n]));
      }
    }
  }

  /** Over any sequence of chunks and readings, what is parsed is what would have been parsed without the readings
      exactly when none of them finds an answer past its cap while the parser still takes input. */
  lemma PollingIsTransparentIff(p: Parser, s: State, actions: seq<Action>)
    ensures ActAll(p, s, actions) == FeedAll(p, s, ChunksOf(actions)) <==> NeverLong(p, s, actions)
  {
    ReadOrUnread(p, s, actions);
  }

  // ---------------------------------------------------------------- a reading that stops the parser

  /** An answer node with this text. */
  function AnswerEvent(text: string): Event {
    var m := Message(Some("m"), "assistant", None, None, None, "", false, "text", false, false, [text]);
    Event(false, false, false, false, Some(m), None, None, Patch(Absent, Default, Nothing))
  }

  /** A parser whose every payload is that answer. */
  function Echo(text: string): Parser {
    Parser(payload => Some(AnswerEvent(text)), (nodes, id) => false)
  }

  function LongText(): string { seq(MAX_CHARS + 1, i => 'a') }

  lemma LongProse(text: string)
    requires |text| > 0 && Stripped(text)
    ensures Prose([text]) == text
  {
    assert [text][1..] == [] && [text] + [] == [text];
    assert NonEmpty([text]) == [text];
  }

  lemma AnswerConsumed(text: string, v: View)
    requires v == Blank() || (v.parts == [text] && v.message == Some("m") && !v.ambiguous)
    ensures var after := Consume(Echo(text), v, AnswerEvent(text));
            after.parts == [text] && after.message == Some("m") && !after.ambiguous
  {
  }

  lemma DataLine(p: Parser, s: State, line: string)
    requires s.data == [] && line == "data:x"
    ensures HandleLine(p, s, line) == s.(data := ["x"])
  {
    var text := line[5..];
    assert |text| == 1 && text[0] == 'x';
    assert !HasPrefix(" ", text);
    assert text == "x" && line[..5] == "data:";
    assert [] + ["x"] == ["x"];
  }

  /** One event with that answer, fed to a parser between lines. */
  lemma AnswerFed(p: Parser, s: State, line: string)
    requires s.buffer == "" && s.data == [] && !s.overflow && s.received < 100 && line == "data:x"
    requires p.decode("x").Some?
    ensures var e, after := p.decode("x").value, Feed(p, s, line + "\n" + "\n");
            after == s.(received := s.received + 8, log := s.log + [e], view := Consume(p, s.view, e))
  {
    var text := line + "\n" + "\n";
    var s1 := s.(received := s.received + 8);
    FeedForm(p, s, text);
    ScanAppend(p, s, line + "\n", "\n");
    assert line + "\n" + "" == line + "\n";
    ScanPlainLine(p, s, line, false);
    DataLine(p, s1, line);
    var s2 := s.(data := ["x"]);
    assert "" + "\n" == "\n";
    ScanPlainLine(p, s2, "", false);
    assert Join(["x"]) == "x";
  }

  lemma ChunksAre(line: string)
    ensures ChunksOf([Chunk(line), Poll, Chunk(line)]) == [line, line]
  {
    var c, actions := Chunk(line), [Chunk(line), Poll, Chunk(line)];
    assert actions[..2] == [c, Poll] && [c, Poll][..1] == [c] && [c][..0] == [];
    assert ChunksOf([c]) == [line] by { assert [] + [line] == [line]; }
    assert ChunksOf([c, Poll]) == [line] by { assert [line] + [] == [line]; }
  }

  lemma PollStops(p: Parser, line: string)
    requires var s1 := Feed(p, Start(), line);
             TooLong(s1) && |s1.log| == 1 && |Feed(p, s1, line).log| == 2
    ensures var actions := [Chunk(line), Poll, Chunk(line)];
            |ActAll(p, Start(), actions).log| == 1 && |FeedAll(p, Start(), ChunksOf(actions)).log| == 2
  {
    var c, actions := Chunk(line), [Chunk(line), Poll, Chunk(line)];
    var s1 := Feed(p, Start(), line);
    assert actions[..2] == [c, Poll] && [c, Poll][..1] == [c] && [c][..0] == [];
    assert ActAll(p, Start(), [c]) == s1;
    assert ActAll(p, Start(), [c, Poll]) == s1.(overflow := true);
    ChunksAre(line);
    assert [line, line][..1] == [line] && [line][..0] == [];
    assert FeedAll(p, Start(), [line]) == s1;
  }

  /** Reading the snapshot of an oversized answer stops the parser: the next event is lost. */
  lemma PollExample()
    ensures var p, line := Echo(LongText()), "data:x" + "\n" + "\n";
            var actions := [Chunk(line), Poll, Chunk(line)];
            |ActAll(p, Start(), actions).log| == 1 && |FeedAll(p, Start(), ChunksOf(actions)).log| == 2
  {
    var p, line := Echo(LongText()), "data:x" + "\n" + "\n";
    AnswerFed(p, Start(), "data:x");
    AnswerConsumed(LongText(), Blank());
    LongProse(LongText());
    AnswerFed(p, Feed(p, Start(), line), "data:x");
    PollStops(p, line);
  }

  // ---------------------------------------------------------------- the parser's state is its event log

  lemma FlushKeepsValid(p: Parser, s: State)
    requires Valid(p, s)
    ensures Valid(p, Flush(p, s)) && s.log <= Flush(p, s).log
  {
    if s.data != [] && Decoded(p, Join(s.data)).Some? {
      var e := Decoded(p, Join(s.data)).value;
      assert (s.log + [e])[..|s.log|] == s.log;
    }
  }

  lemma HandleKeepsValid(p: Parser, s: State, line: string)
    requires Valid(p, s)
    ensures Valid(p, HandleLine(p, s, line)) && s.log <= HandleLine(p, s, line).log
  {
    if line == "" {
      FlushKeepsValid(p, s);
    }
  }

  lemma {:induction false} ScanKeepsValid(p: Parser, s: State, text: string)
    requires Valid(p, s)
    ensures Valid(p, Scan(p, s, text)) && s.log <= Scan(p, s, text).log
  {
    if text != "" {
      ScanKeepsValid(p, s, text[..|text| - 1]);
      var s1 := Scan(p, s, text[..|text| - 1]);
      HandleKeepsValid(p, s1.(buffer := ""), Chomp(s1.buffer));
    }
  }

  lemma FeedKeepsValid(p: Parser, s: State, chunk: string)
    requires Valid(p, s)
    ensures Valid(p, Feed(p, s, chunk)) && s.log <= Feed(p, s, chunk).log
  {
    if chunk != "" && !s.overflow {
      FeedForm(p, s, chunk);
      ScanKeepsValid(p, s, Take(chunk, Room(s)));
    }
  }

  lemma {:induction false} FeedAllKeepsValid(p: Parser, s: State, chunks: seq<string>)
    requires Valid(p, s)
    ensures Valid(p, FeedAll(p, s, chunks)) && s.log <= FeedAll(p, s, chunks).log
  {
    if chunks != [] {
      FeedAllKeepsValid(p, s, chunks[..|chunks| - 1]);
      FeedKeepsValid(p, FeedAll(p, s, chunks[..|chunks| - 1]), chunks[|chunks| - 1]);
    }
  }

  lemma LogGrowthIsLater(p: Parser, s: State, after: State, chunks: seq<string>)
    requires Valid(p, s) && after == FeedAll(p, s, chunks)
    ensures Extends(s.view, after.view)
  {
    FeedAllKeepsValid(p, s, chunks);
    var rest := after.log[|s.log|..];
    assert after.log == s.log + rest;
    ConsumeAllAppend(p, Blank(), s.log, rest);
    RunIsLater(p, s.view, rest);
  }

  /** Ambiguity is forever and hides everything: whatever else is fed, every later snapshot is empty. */
  lemma AmbiguityHides(p: Parser, s: State, chunks: seq<string>, stop: Option<CaptureStatus>)
    requires Valid(p, s) && s.view.ambiguous
    ensures var shown := Shows(FeedAll(p, s, chunks), stop);
            shown.status.Unknown? && shown.text == "" && shown.conversation.None? && shown.message.None? &&
            shown.parent.None? && shown.observed == [] && shown.blocks == []
  {
    LogGrowthIsLater(p, s, FeedAll(p, s, chunks), chunks);
  }

  /** While a stream stays unambiguous, the conversation, parent and message it first reported are the ones
      it reports ever after. */
  lemma IdentityIsStable(p: Parser, s: State, chunks: seq<string>, stop: Option<CaptureStatus>)
    requires Valid(p, s) && !FeedAll(p, s, chunks).view.ambiguous
    ensures var before, after := Shows(s, stop), Shows(FeedAll(p, s, chunks), stop);
            (before.conversation.Some? ==> after.conversation == before.conversation) &&
            (before.parent.Some? ==> after.parent == before.parent) &&
            (s.view.seenFinal ==> after.message == before.message)
  {
    LogGrowthIsLater(p, s, FeedAll(p, s, chunks), chunks);
  }

  // ---------------------------------------------------------------- the framing loop

  lemma HandleIgnoresBuffer(p: Parser, s: State, buffer: string, line: string)
    ensures HandleLine(p, s.(buffer := buffer), line).(buffer := s.buffer) == HandleLine(p, s, line)
    ensures HandleLine(p, s.(buffer := buffer), line).buffer == buffer
  {
  }

  /** Handling the first line of a buffer is scanning it and keeping the rest. */
  lemma LineTaken(p: Parser, s: State, index: nat)
    requires index < |s.buffer| && s.buffer[index] == '\n' && '\n' !in s.buffer[..index]
    ensures var after := HandleLine(p, s.(buffer := s.buffer[index + 1..]), Chomp(s.buffer[..index]));
            after.buffer == s.buffer[index + 1..] &&
            after.(buffer := "") == Scan(p, s.(buffer := ""), s.buffer[..index + 1])
  {
    var line := s.buffer[..index];
    assert s.buffer[..index + 1] == line + "\n" && "" + line == line;
    ScanLine(p, s.(buffer := ""), line);
    HandleIgnoresBuffer(p, s.(buffer := ""), s.buffer[index + 1..], Chomp(line));
  }

  lemma SplitText(done: string, buffer: string, n: nat)
    requires n <= |buffer|
    ensures done + buffer == (done + buffer[..n]) + buffer[n..]
  {
    assert buffer == buffer[..n] + buffer[n..];
  }

  lemma DrainedTail(p: Parser, begin: State, done: string, s: State)
    requires s.(buffer := "") == Scan(p, begin, done) && '\n' !in s.buffer
    ensures s == Scan(p, begin, done + s.buffer)
  {
    ScanAppend(p, begin, done, s.buffer);
    ScanWithoutNewline(p, Scan(p, begin, done), s.buffer);
    assert "" + s.buffer == s.buffer;
  }

  class SseFraming {
    const p: Parser
    var lineBuffer: string
    var dataLines: seq<string>
    var received: nat
    var overflow: bool
    var view: View
    ghost var log: seq<Event>

    constructor (p: Parser)
      ensures this.p == p && Current() == Start() && Valid(p, Current())
    {
      this.p := p;
      lineBuffer, dataLines, received, overflow, view, log := "", [], 0, false, Blank(), [];
    }

    ghost function Current(): State
      reads this
    {
      State(lineBuffer, dataLines, received, overflow, view, log)
    }

    method FlushEvent()
      modifies this
      ensures Current() == Flush(p, old(Current()))
    {
      if dataLines == [] {
        return;
      }
      var payload := Join(dataLines);
      dataLines := [];
      if payload == "[DONE]" {
        log := log + [Done()];
        view := view.(complete := true);
        return;
      }
      var event := p.decode(payload);
      if event.Some? {
        log := log + [event.value];
        view := Consume(p, view, event.value);
      }
    }

    method ProcessLine(line: string)
      modifies this
      ensures Current() == HandleLine(p, old(Current()), line)
    {
      if line == "" {
        FlushEvent();
      } else if HasPrefix("data:", line) {
        dataLines := dataLines + [DropSpace(line[5..])];
      }
    }

    method FindNewline() returns (index: nat)
      ensures index <= |lineBuffer| && '\n' !in lineBuffer[..index]
      ensures index < |lineBuffer| ==> lineBuffer[index] == '\n'
    {
      index := 0;
      while index < |lineBuffer| && lineBuffer[index] != '\n'
        invariant index <= |lineBuffer| && '\n' !in lineBuffer[..index]
      {
        index := index + 1;
      }
    }

    /** Handle the first complete line of the buffer. */
    method TakeLine(index: nat)
      requires index < |lineBuffer| && lineBuffer[index] == '\n' && '\n' !in lineBuffer[..index]
      modifies this
      ensures lineBuffer == old(lineBuffer)[index + 1..]
      ensures Current().(buffer := "") == Scan(p, old(Current()).(buffer := ""), old(lineBuffer)[..index + 1])
    {
      LineTaken(p, Current(), index);
      var line := Chomp(lineBuffer[..index]);
      lineBuffer := lineBuffer[index + 1..];
      ProcessLine(line);
    }

    /** Handle every complete line of the buffer and keep the rest. */
    method DrainLines()
      modifies this
      ensures Current() == Scan(p, old(Current()).(buffer := ""), old(lineBuffer))
      ensures '\n' !in lineBuffer
    {
      ghost var text, done := lineBuffer, "";
      ghost var begin := Current().(buffer := "");
      var index := FindNewline();
      assert text == "" + lineBuffer;
      while index < |lineBuffer|
        invariant 0 <= index <= |lineBuffer| && '\n' !in lineBuffer[..index]
        invariant index < |lineBuffer| ==> lineBuffer[index] == '\n'
        invariant text == done + lineBuffer
        invariant Current().(buffer := "") == Scan(p, begin, done)
        decreases |lineBuffer|
      {
        ghost var before := lineBuffer;
        TakeLine(index);
        SplitText(done, before, index + 1);
        ScanAppend(p, begin, done, before[..index + 1]);
        done := done + before[..index + 1];
        index := FindNewline();
      }
      DrainedTail(p, begin, done, Current());
    }

    /** Append admitted text and handle the lines it completes. */
    method Admit(text: string)
      requires '\n' !in lineBuffer
      modifies this
      ensures Current() == Scan(p, old(Current()), text) && '\n' !in lineBuffer
    {
      ghost var s := Current();
      lineBuffer := lineBuffer + text;
      DrainLines();
      ScanWithoutNewline(p, s.(buffer := ""), s.buffer);
      assert "" + s.buffer == s.buffer;
      ScanAppend(p, s.(buffer := ""), s.buffer, text);
    }

    /** Whole lines are found by searching, yet the effect is that of reading one character at a time. */
    method FeedChunk(chunk: string)
      requires '\n' !in lineBuffer && (!overflow ==> received <= MAX_SSE)
      modifies this
      ensures Current() == Feed(p, old(Current()), chunk) && '\n' !in lineBuffer
    {
      if chunk == "" || overflow {
        return;
      }
      var remaining := MAX_SSE - received;
      received := received + |chunk|;
      if |chunk| > remaining {
        overflow := true;
        Admit(chunk[..remaining]);
      } else {
        Admit(chunk);
      }
    }

    method FinishStream()
      modifies this
      ensures Current() == Finish(p, old(Current()))
    {
      if lineBuffer != "" {
        var line := Chomp(lineBuffer);
        lineBuffer := "";
        ProcessLine(line);
      }
      FlushEvent();
    }

    /** Reading the result; only an oversized answer leaves a mark. */
    method TakeSnapshot(stop: Option<CaptureStatus>) returns (shown: Snapshot)
      modifies this
      ensures Current() == Polled(old(Current()))
      ensures shown == Shows(old(Current()), stop)
    {
      if view.ambiguous {
        return Snapshot(Unknown, "", None, None, None, [], [], false, false);
      }
      var text := Prose(view.parts);
      if |text| > MAX_CHARS {
        text := text[..MAX_CHARS];
        overflow := true;
      }
      var status := Unknown;
      if view.streamError {
        status := Cut;
      } else if stop.Some? && !stop.value.Unknown? {
        status := stop.value;
      } else if view.complete && view.seenFinal && text != "" && !overflow {
        status := Complete;
      } else if text != "" {
        status := Partial;
      }
      shown := Snapshot(status, text, view.conversation, view.message, view.parent, view.observed, view.blocks,
                        view.complete && view.sawReasoning && text == "" && !view.seenFinal, view.streamError);
    }
  }
}
