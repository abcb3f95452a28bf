/** The answer a reader sees for a saved row, and why no writer ever makes it shorter. */
module VisibleText {
  import opened Tables
  import opened DisplayBlocks
  import opened BlockMerge
  import opened ToolCalls
  import opened Captures
  import opened AnswerWriters

  function Join(parts: seq<string>): string {
    if parts == [] then ""
    else if |parts| == 1 then parts[0]
    else parts[0] + "\n\n" + Join(parts[1..])
  }

  function Prose(bs: seq<Block>): seq<string> {
    if bs == [] then []
    else (if bs[0].Text? then [bs[0].text] else []) + Prose(bs[1..])
  }

  /** Visible prose of the normalized blocks. */
  function DisplayText(sim: Similarity, blocks: Stored): string {
    Take(Join(Prose(Normalize(sim, blocks))), MAX_CHARS)
  }

  /** Stripped texts of every stored text item, valid or not. */
  function RawProse(raws: seq<Raw>): seq<string> {
    if raws == [] then []
    else (if raws[0].Object? && raws[0].kind == Some("text") && raws[0].text.Some? then [Strip(raws[0].text.value)]
          else [])
         + RawProse(raws[1..])
  }

  function Unmerged(blocks: Stored): string
    requires blocks.Items?
  {
    Join(RawProse(blocks.items))
  }

  /** Legacy rows whose text is exactly the duplicated concatenation show the cleaned blocks instead. */
  function Visible(sim: Similarity, row: Saved): string {
    if row.blocks.Unreadable? then row.text
    else if |DisplayText(sim, row.blocks)| < |Unmerged(row.blocks)| && Strip(row.text) == Unmerged(row.blocks)
      then DisplayText(sim, row.blocks)
    else row.text
  }

  // ---------------------------------------------------------------- the functions in use

  /** An environment that shows and merges transcripts as this system does. */
  ghost predicate Faithful(env: Env, sim: Similarity) {
    && (forall row :: env.visible(row) == Visible(sim, row))
    && (forall blocks :: env.display(blocks) == DisplayText(sim, blocks))
    && (forall was, now :: env.mergeBlocks(was, now) == MergeBlocks(sim, was, now))
  }

  /** The environment in use, which shows that one can be faithful. */
  function Transcripts(sim: Similarity, same: Activity, size: Sizing): (env: Env)
    ensures Faithful(env, sim)
  {
    Env(row => Visible(sim, row), blocks => DisplayText(sim, blocks),
        (was, now) => MergeBlocks(sim, was, now), (was, now) => MergeToolCalls(same, size, was, now))
  }

  // ---------------------------------------------------------------- growth

  lemma VisibleBound(sim: Similarity, row: Saved)
    ensures |Visible(sim, row)| <= |row.text|
    ensures Visible(sim, row) == row.text ||
            (row.blocks.Items? && Strip(row.text) == Unmerged(row.blocks) &&
             Visible(sim, row) == DisplayText(sim, row.blocks))
  {
  }

  lemma {:induction false} RawProseOfBlocks(bs: seq<Block>)
    requires AllWellFormed(bs)
    ensures RawProse(ToRaws(bs)) == Prose(bs)
  {
    if bs != [] {
      assert ToRaws(bs)[1..] == ToRaws(bs[1..]);
      assert WellFormed(bs[0]);
      RawProseOfBlocks(bs[1..]);
    }
  }

  /** Rows whose blocks are in canonical form show their saved text, if that text is bounded. */
  lemma CanonicalShowsText(sim: Similarity, text: string, bs: seq<Block>)
    requires TieSymmetric(sim) && Canonical(sim, bs) && |text| <= MAX_CHARS
    ensures Visible(sim, Saved(text, Items(ToRaws(bs)))) == text
  {
    CanonicalIffFixed(sim, bs);
    RawProseOfBlocks(bs);
  }

  /** The stored text duplicates prose that normalization removes. */
  predicate LegacyDuplicate(sim: Similarity, blocks: Stored) {
    blocks.Items? && |DisplayText(sim, blocks)| < |Unmerged(blocks)|
  }

  /** Whether a writer looks at the capture's own text although its blocks show `shown`. */
  predicate ReadsText(w: Writer, c: Capture, shown: string) {
    match w
    case Write => c.source.Sse? || shown == ""
    case Observe => c.source.Sse? || shown == ""
    case RecoverResponse => shown == ""
    case RecoverReply => true
    case ObserveTools => false
  }

  /** A capture without blocks that spells out exactly the duplicated concatenation of a legacy row, whose own
      saved text is something else, longer than its cleaned blocks and no longer than the capture. */
  predicate RevivesDuplicate(sim: Similarity, row: Saved, w: Writer, c: Capture) {
    var shown := DisplayText(sim, row.blocks);
    c.displayBlocks == [] && LegacyDuplicate(sim, row.blocks) && ReadsText(w, c, shown) &&
    |shown| < |row.text| <= |Take(c.text, MAX_CHARS)| &&
    Strip(row.text) != Unmerged(row.blocks) && Strip(Take(c.text, MAX_CHARS)) == Unmerged(row.blocks)
  }

  /** What each writer leaves in the text column when no blocks arrive and the saved text is longer than what
      the saved blocks show. */
  lemma TextTaken(env: Env, row: Saved, w: Writer, c: Capture, shown: string)
    requires env.mergeBlocks(row.blocks, c.displayBlocks) == row.blocks
    requires env.display(row.blocks) == shown && env.visible(row) == row.text
    requires |shown| < |row.text| <= MAX_CHARS
    ensures Apply(env, row, w, c) ==
              if ReadsText(w, c, shown) && |row.text| <= |Take(c.text, MAX_CHARS)|
              then row.(text := Take(c.text, MAX_CHARS)) else row
  {
  }

  /** The columns a writer leaves when it writes at all. */
  predicate Written(sim: Similarity, row: Saved, c: Capture, after: Saved) {
    after.blocks == MergeBlocks(sim, row.blocks, c.displayBlocks) &&
    |after.text| <= MAX_CHARS && |after.text| >= |Visible(sim, row)|
  }

  lemma WriteFacts(env: Env, sim: Similarity, row: Saved, c: Capture)
    requires Faithful(env, sim) && |row.text| <= MAX_CHARS
    ensures Written(sim, row, c, WriteText(env, row, c))
  {
    VisibleBound(sim, row);
  }

  lemma RecoverFacts(env: Env, sim: Similarity, row: Saved, c: Capture)
    requires Faithful(env, sim) && |row.text| <= MAX_CHARS
    ensures var r := RecoverText(env, row, c); r.Some? ==> Written(sim, row, c, r.value)
    ensures var r := RecoverReplyText(env, row, c); r.Some? ==> Written(sim, row, c, r.value)
  {
    VisibleBound(sim, row);
  }

  lemma ObserveFacts(env: Env, sim: Similarity, row: Saved, c: Capture)
    requires Faithful(env, sim) && |row.text| <= MAX_CHARS
    ensures var r := ObserveText(env, row, c); r.Some? ==> Written(sim, row, c, r.value)
    ensures Written(sim, row, c, ObserveToolsText(env, row, c))
  {
    VisibleBound(sim, row);
  }

  lemma WriterFacts(env: Env, sim: Similarity, row: Saved, w: Writer, c: Capture)
    requires Faithful(env, sim) && |row.text| <= MAX_CHARS
    ensures Apply(env, row, w, c) == row || Written(sim, row, c, Apply(env, row, w, c))
  {
    match w
    case Write => WriteFacts(env, sim, row, c);
    case RecoverResponse => RecoverFacts(env, sim, row, c);
    case RecoverReply => RecoverFacts(env, sim, row, c);
    case Observe => ObserveFacts(env, sim, row, c);
    case ObserveTools => ObserveFacts(env, sim, row, c);
  }

  /** Outside that case the visible length cannot fall while the blocks stay. */
  lemma ShortensWithoutBlocks(env: Env, sim: Similarity, row: Saved, after: Saved)
    requires after.blocks == row.blocks && (after == row || |after.text| >= |Visible(sim, row)|)
    requires LegacyDuplicate(sim, row.blocks) && |DisplayText(sim, row.blocks)| < |row.text| ==>
               Strip(row.text) == Unmerged(row.blocks)
    ensures |Visible(sim, after)| >= |Visible(sim, row)|
  {
  }

  /** A writer shortens the visible answer exactly when it revives a legacy duplicate. */
  lemma ShortensIff(env: Env, sim: Similarity, row: Saved, w: Writer, c: Capture)
    requires Faithful(env, sim) && TieSymmetric(sim) && |row.text| <= MAX_CHARS
    ensures |Visible(sim, Apply(env, row, w, c))| < |Visible(sim, row)| <==> RevivesDuplicate(sim, row, w, c)
  {
    var after := Apply(env, row, w, c);
    WriterFacts(env, sim, row, w, c);
    if c.displayBlocks != [] {
      if after != row {
        MergeResult(sim, row.blocks, c.displayBlocks);
        CanonicalShowsText(sim, after.text, Normalize(sim, after.blocks));
      }
    } else if LegacyDuplicate(sim, row.blocks) && |DisplayText(sim, row.blocks)| < |row.text| &&
              Strip(row.text) != Unmerged(row.blocks) {
      TextTaken(env, row, w, c, DisplayText(sim, row.blocks));
    } else {
      ShortensWithoutBlocks(env, sim, row, after);
    }
  }

  /** The corner is real: a saved answer of one character disappears behind invalid legacy blocks. */
  lemma RevivalExample(env: Env, sim: Similarity)
    requires Faithful(env, sim)
    ensures var row := Saved("a", Items([Object(Some("text"), Some("x"), Some("ab"), None, None)]));
            var c := Capture(Sse, Partial, "ab", None, None, None, None, [], false, [], []);
            Visible(sim, row) == "a" && Visible(sim, Apply(env, row, Write, c)) == ""
  {
    var raw := Object(Some("text"), Some("x"), Some("ab"), None, None);
    var blocks := Items([raw]);
    assert Stripped("ab") && Stripped("a");
    assert Accept(raw, 0) == None;
    assert [raw][1..] == [];
    assert Normalize(sim, blocks) == [];
    assert RawProse([raw]) == ["ab"];
  }

  // ---------------------------------------------------------------- runs

  datatype Event = Event(writer: Writer, capture: Capture)

  function Run(env: Env, row: Saved, events: seq<Event>): Saved
    decreases |events|
  {
    if events == [] then row
    else Run(env, Apply(env, row, events[0].writer, events[0].capture), events[1..])
  }

  /** Rows written by this code from an empty list of blocks. */
  ghost predicate Current(sim: Similarity, row: Saved) {
    |row.text| <= MAX_CHARS && row.blocks.Items? &&
    exists bs :: Canonical(sim, bs) && row.blocks == Items(ToRaws(bs))
  }

  lemma EmptyRowIsCurrent(sim: Similarity)
    ensures Current(sim, Saved("", Items([])))
  {
    assert Canonical(sim, []) && Items([]) == Items(ToRaws([]));
  }

  lemma ApplyKeepsCurrent(env: Env, sim: Similarity, row: Saved, w: Writer, c: Capture)
    requires Faithful(env, sim) && TieSymmetric(sim) && Current(sim, row)
    ensures Current(sim, Apply(env, row, w, c))
    ensures |Visible(sim, Apply(env, row, w, c))| >= |Visible(sim, row)|
  {
    WriterFacts(env, sim, row, w, c);
    ShortensIff(env, sim, row, w, c);
    var bs :| Canonical(sim, bs) && row.blocks == Items(ToRaws(bs));
    CanonicalIffFixed(sim, bs);
    RawProseOfBlocks(bs);
    if c.displayBlocks != [] {
      MergeResult(sim, row.blocks, c.displayBlocks);
      var out := Normalize(sim, MergeBlocks(sim, row.blocks, c.displayBlocks));
      assert Canonical(sim, out) && MergeBlocks(sim, row.blocks, c.displayBlocks) == Items(ToRaws(out));
    }
    VisibleBound(sim, Apply(env, row, w, c));
  }

  /** No sequence of writes, observations and recoveries ever shortens the visible answer of a row. */
  lemma {:induction false} VisibleNeverShrinks(env: Env, sim: Similarity, row: Saved, events: seq<Event>)
    requires Faithful(env, sim) && TieSymmetric(sim) && Current(sim, row)
    ensures |Visible(sim, Run(env, row, events))| >= |Visible(sim, row)|
    decreases |events|
  {
    if events != [] {
      ApplyKeepsCurrent(env, sim, row, events[0].writer, events[0].capture);
      VisibleNeverShrinks(env, sim, Apply(env, row, events[0].writer, events[0].capture), events[1..]);
    }
  }

  /** No event of the run revives the duplicate of the row it meets. */
  ghost predicate NeverRevives(env: Env, sim: Similarity, row: Saved, events: seq<Event>)
    decreases |events|
  {
    events == [] ||
    (!RevivesDuplicate(sim, row, events[0].writer, events[0].capture) &&
     NeverRevives(env, sim, Apply(env, row, events[0].writer, events[0].capture), events[1..]))
  }

  /** A legacy row keeps its visible length too, as long as no event revives its duplicate. */
  lemma {:induction false} LegacyNeverShrinks(env: Env, sim: Similarity, row: Saved, events: seq<Event>)
    requires Faithful(env, sim) && TieSymmetric(sim) && |row.text| <= MAX_CHARS && NeverRevives(env, sim, row, events)
    ensures |Visible(sim, Run(env, row, events))| >= |Visible(sim, row)|
    decreases |events|
  {
    if events != [] {
      WriterFacts(env, sim, row, events[0].writer, events[0].capture);
      ShortensIff(env, sim, row, events[0].writer, events[0].capture);
      LegacyNeverShrinks(env, sim, Apply(env, row, events[0].writer, events[0].capture), events[1..]);
    }
  }

  /** A capture without blocks whose text is the duplicated concatenation of these blocks. */
  predicate SpellsOut(c: Capture, blocks: Stored) {
    c.displayBlocks == [] && blocks.Items? && Strip(Take(c.text, MAX_CHARS)) == Unmerged(blocks)
  }

  /** A duplicate short enough for some text to spell it out. */
  predicate Revivable(sim: Similarity, blocks: Stored) {
    LegacyDuplicate(sim, blocks) && |Unmerged(blocks)| <= MAX_CHARS
  }

  lemma CanonicalIsNotRevivable(sim: Similarity, bs: seq<Block>)
    requires TieSymmetric(sim) && Canonical(sim, bs)
    ensures !Revivable(sim, Items(ToRaws(bs)))
  {
    CanonicalIffFixed(sim, bs);
    RawProseOfBlocks(bs);
  }

  lemma MergedIsNotRevivable(sim: Similarity, was: Stored, incoming: seq<Raw>)
    requires TieSymmetric(sim) && incoming != []
    ensures !Revivable(sim, MergeBlocks(sim, was, incoming))
  {
    MergeResult(sim, was, incoming);
    var bs := Normalize(sim, MergeBlocks(sim, was, incoming));
    assert MergeBlocks(sim, was, incoming) == Items(ToRaws(bs));
    CanonicalIsNotRevivable(sim, bs);
  }

  /** Blocks are replaced only by canonical ones, which hold no duplicate to revive. */
  lemma BlocksAfter(env: Env, sim: Similarity, row: Saved, w: Writer, c: Capture)
    requires Faithful(env, sim) && TieSymmetric(sim) && |row.text| <= MAX_CHARS
    ensures var after := Apply(env, row, w, c).blocks;
            after == row.blocks || (c.displayBlocks != [] && !Revivable(sim, after))
  {
    WriterFacts(env, sim, row, w, c);
    if c.displayBlocks != [] {
      MergedIsNotRevivable(sim, row.blocks, c.displayBlocks);
    }
  }

  /** It is enough to look at the captures: a run in which none spells out the row's duplicate never revives it. */
  lemma {:induction false} UnspelledNeverRevives(
      env: Env, sim: Similarity, row: Saved, events: seq<Event>, duplicate: Stored)
    requires Faithful(env, sim) && TieSymmetric(sim) && |row.text| <= MAX_CHARS
    requires row.blocks == duplicate || !Revivable(sim, row.blocks)
    requires forall i :: 0 <= i < |events| ==> !SpellsOut(events[i].capture, duplicate)
    ensures NeverRevives(env, sim, row, events)
    decreases |events|
  {
    if events != [] {
      var w, c := events[0].writer, events[0].capture;
      WriterFacts(env, sim, row, w, c);
      BlocksAfter(env, sim, row, w, c);
      UnspelledNeverRevives(env, sim, Apply(env, row, w, c), events[1..], duplicate);
    }
  }
}
