/** What one decoded event of an owned response stream does: identity binding, the answer, visible prose
    and observed tool nodes. */
module SseEvents {
  import opened Tables
  import opened DisplayBlocks
  import opened Captures

  const MAX_PART := 16
  const MAX_BLOCKS := 256
  const MAX_TOOL_PART := 64000

  /** The fields of a message node the parser looks at. `call` says that its content is an invocation. */
  datatype Message = Message(
    id: Option<string>, role: string, recipient: Option<string>, channel: Option<string>,
    metaChannel: Option<string>, messageType: string, hidden: bool, contentType: string,
    call: bool, finished: bool, parts: seq<string>)

  datatype Path = Absent | Part(index: nat) | TextPath | StatusPath | EndTurnPath | MessagePath | OtherPath

  datatype PatchOp = Default | Append | Replace | Add | PatchList | OtherOp

  datatype Value =
    | Nothing
    | Text(text: string)
    | True
    | Record(nested: Option<Message>, self: Option<Message>, conversation: Option<string>, parent: Option<string>)
    | List(patches: seq<Patch>)
    | OtherValue

  datatype Patch = Patch(path: Path, op: PatchOp, value: Value)

  /** `done` is the end-of-stream marker; the others are decoded JSON objects. */
  datatype Event = Event(
    done: bool, empty: bool, failure: bool, streamComplete: bool, message: Option<Message>,
    conversation: Option<string>, parent: Option<string>, patch: Patch)

  /** `decode` reads a payload as an event; `recorded` says whether the tool collector keeps a call with this
      id after the observed nodes. */
  datatype Parser = Parser(decode: string -> Option<Event>, recorded: (seq<Message>, string) -> bool)

  // ---------------------------------------------------------------- node predicates

  predicate OneOf(o: Option<string>, s: string) { o.None? || o.value == s }

  predicate Private(m: Message) {
    m.messageType == "analysis" || m.messageType == "thought" || m.messageType == "reasoning_recap"
  }

  predicate FinalAssistant(m: Message) {
    m.role == "assistant" && OneOf(m.recipient, "all") && OneOf(m.channel, "final") && OneOf(m.metaChannel, "final")
    && !Private(m) && !m.hidden && m.contentType == "text"
  }

  predicate VisibleAssistant(m: Message) {
    m.role == "assistant" && OneOf(m.recipient, "all") && !m.hidden && !Private(m)
    && (OneOf(m.channel, "commentary") || OneOf(m.channel, "final"))
    && (OneOf(m.metaChannel, "commentary") || OneOf(m.metaChannel, "final")) && m.contentType == "text"
  }

  predicate Reasoning(m: Message) {
    m.role == "assistant" &&
    (m.contentType == "thoughts" || m.contentType == "reasoning_recap" || m.channel == Some("analysis"))
  }

  /** The tool collector claims the node. */
  predicate Tool(m: Message) {
    !m.hidden && (m.role == "tool" || (m.role == "assistant" && m.call))
  }

  /** A node whose text is the answer. */
  predicate AnswerNode(m: Message) { FinalAssistant(m) && !Tool(m) }

  /** Tool results and private reasoning are never the answer. */
  lemma AnswerIsPublic(m: Message)
    requires AnswerNode(m)
    ensures m.role != "tool" && !Reasoning(m) && !Private(m) && !m.hidden
  {
  }

  // ---------------------------------------------------------------- parts

  function Join(parts: seq<string>): string {
    if parts == [] then "" else if |parts| == 1 then parts[0] else parts[0] + "\n" + Join(parts[1..])
  }

  function NonEmpty(parts: seq<string>): seq<string> {
    if parts == [] then []
    else if parts[0] == "" then NonEmpty(parts[1..]) else [parts[0]] + NonEmpty(parts[1..])
  }

  function Prose(parts: seq<string>): string { Strip(Join(NonEmpty(parts))) }

  function Extend(parts: seq<string>, index: nat): (r: seq<string>)
    ensures |r| > index
  {
    if |parts| > index then parts else parts + seq(index + 1 - |parts|, _ => "")
  }

  /** One text patch; None when the operation is unknown. */
  function Edited(was: string, op: PatchOp, text: string): Option<string> {
    if op.Default? || op.Append? then Some(was + text)
    else if op.Replace? || op.Add? then Some(text) else None
  }

  /** An unknown operation still leaves the list long enough. */
  function PatchPart(parts: seq<string>, index: nat, op: PatchOp, text: string): seq<string> {
    var extended := Extend(parts, index);
    match Edited(extended[index], op, text)
    case Some(s) => extended[index := s]
    case None => extended
  }

  function OrElse(a: Option<string>, b: Option<string>): Option<string> {
    if a.Some? then a else b
  }

  // ---------------------------------------------------------------- state

  datatype Shown = TextShown(id: string, parts: seq<string>) | ToolShown(id: string)

  datatype View = View(
    parts: seq<string>, lastPart: nat,
    conversation: Option<string>, message: Option<string>, parent: Option<string>,
    tracking: bool, seenFinal: bool, sawReasoning: bool, complete: bool, ambiguous: bool,
    progress: nat, streamError: bool,
    observed: seq<Message>, toolMessage: Option<Message>,
    visible: Option<string>, blocks: seq<Shown>)

  function Blank(): View {
    View([], 0, None, None, None, false, false, false, false, false, 0, false, [], None, None, [])
  }

  // ---------------------------------------------------------------- transitions

  function Bind(v: View, conversation: Option<string>, parent: Option<string>): View {
    var clash := (conversation.Some? && v.conversation.Some? && v.conversation != conversation)
                 || (parent.Some? && v.parent.Some? && v.parent != parent);
    v.(ambiguous := v.ambiguous || clash,
       conversation := OrElse(v.conversation, conversation), parent := OrElse(v.parent, parent))
  }

  /** Index of the text block of a message from `from` on; |blocks| when there is none. */
  function FindText(blocks: seq<Shown>, id: string, from: nat := 0): (i: nat)
    requires from <= |blocks|
    ensures from <= i <= |blocks|
    ensures i < |blocks| ==> blocks[i].TextShown? && blocks[i].id == id
    ensures forall k :: from <= k < i ==> !(blocks[k].TextShown? && blocks[k].id == id)
    decreases |blocks| - from
  {
    if from == |blocks| || (blocks[from].TextShown? && blocks[from].id == id) then from
    else FindText(blocks, id, from + 1)
  }

  function RememberTool(p: Parser, v: View, m: Message): View {
    if m.id.Some? && |v.blocks| < MAX_BLOCKS && p.recorded(v.observed, m.id.value) && ToolShown(m.id.value) !in v.blocks
    then v.(visible := None, blocks := v.blocks + [ToolShown(m.id.value)])
    else v.(visible := None)
  }

  /** The text block now being written and the block list; a shorter replay never replaces longer prose. */
  function KeepText(blocks: seq<Shown>, m: Message): (Option<string>, seq<Shown>) {
    if !VisibleAssistant(m) || m.id.None? then (None, blocks)
    else
      var i := FindText(blocks, m.id.value);
      if i == |blocks| then
        if |blocks| >= MAX_BLOCKS then (None, blocks) else (m.id, blocks + [TextShown(m.id.value, m.parts)])
      else if |Join(m.parts)| >= |Join(blocks[i].parts)| then (m.id, blocks[i := TextShown(m.id.value, m.parts)])
      else (m.id, blocks)
  }

  function RememberText(v: View, m: Message): View {
    var kept := KeepText(v.blocks, m);
    v.(visible := kept.0, blocks := kept.1)
  }

  function Remember(p: Parser, v: View, m: Message): View {
    if Tool(m) then RememberTool(p, v, m) else RememberText(v, m)
  }

  /** What an answer node adds once its branch identity has been checked. */
  function TakeAnswer(v: View, m: Message): View {
    if v.seenFinal && m.id != v.message then v.(ambiguous := true, tracking := false)
    else if v.ambiguous then v
    else
      var longer := |Join(m.parts)| >= |Join(v.parts)|;
      v.(seenFinal := true, tracking := true, message := m.id,
         parts := if longer then m.parts else v.parts,
         lastPart := if longer then (if |m.parts| == 0 then 0 else |m.parts| - 1) else v.lastPart,
         complete := v.complete || m.finished)
  }

  /** The state once a node's prose and tool details are noted, before its branch is considered. */
  function Noted(p: Parser, v: View, m: Message): View {
    var v1 := v.(sawReasoning := v.sawReasoning || Reasoning(m),
                 observed := if Tool(m) then v.observed + [m] else v.observed);
    Remember(p, v1, m).(toolMessage := if Tool(m) then Some(m) else None)
  }

  /** What a noted node does to the branch: tool nodes bind the conversation only, other nodes but the
      answer's end its tracking. */
  function Judge(v: View, m: Message, conversation: Option<string>, parent: Option<string>): View {
    if Tool(m) then Bind(v, conversation, None).(tracking := false)
    else if !FinalAssistant(m) then v.(tracking := false)
    else TakeAnswer(Bind(v, conversation, parent), m)
  }

  function ConsumeMessage(p: Parser, v: View, m: Message, conversation: Option<string>, parent: Option<string>): View {
    Judge(Noted(p, v, m), m, conversation, parent)
  }

  /** The part a tool or prose patch addresses. */
  function PartOf(path: Path): Option<nat> {
    match path
    case Absent => Some(0)
    case TextPath => Some(0)
    case Part(i) => Some(i)
    case _ => None
  }

  function PatchTool(v: View, patch: Patch): View
    requires v.toolMessage.Some?
  {
    var m := v.toolMessage.value;
    match (PartOf(patch.path), patch.value)
    case (Some(i), Text(text)) =>
      if i > MAX_PART then v
      else
        var extended := Extend(m.parts, i);
        (match Edited(extended[i], patch.op, text)
         case None => v
         case Some(s) =>
           var next := m.(parts := extended[i := Take(s, MAX_TOOL_PART)]);
           v.(toolMessage := Some(next), observed := v.observed + [next]))
    case _ => v
  }

  function PatchVisible(v: View, patch: Patch): View {
    match (PartOf(patch.path), patch.value, v.visible)
    case (Some(i), Text(text), Some(id)) =>
      var k := FindText(v.blocks, id);
      if i > MAX_PART || k == |v.blocks| then v
      else v.(blocks := v.blocks[k := TextShown(id, PatchPart(v.blocks[k].parts, i, patch.op, text))])
    case _ => v
  }

  function EditAnswer(v: View, index: nat, patch: Patch): View {
    if index > MAX_PART || !patch.value.Text? then v
    else
      var edited := v.(parts := PatchPart(v.parts, index, patch.op, patch.value.text));
      if Edited("", patch.op, "").Some? then edited.(lastPart := index) else edited
  }

  function PatchAnswer(v: View, patch: Patch): View {
    if !v.tracking || v.ambiguous then v
    else match patch.path
      case StatusPath => if patch.value == Value.Text("finished_successfully") then v.(complete := true) else v
      case EndTurnPath => if patch.value.True? then v.(complete := true) else v
      case Absent => EditAnswer(v, v.lastPart, patch)
      case Part(i) => EditAnswer(v, i, patch)
      case _ => v
  }

  function ApplyPatch(v: View, patch: Patch): View {
    if v.toolMessage.Some? && !v.ambiguous then PatchTool(v, patch)
    else PatchAnswer(PatchVisible(v, patch), patch)
  }

  function ApplyPatches(v: View, patches: seq<Patch>): View {
    if patches == [] then v
    else ApplyPatch(ApplyPatches(v, patches[..|patches| - 1]), patches[|patches| - 1])
  }

  /** The message an event carries, with the identities that come with it. */
  function Carried(e: Event): Option<(Message, Option<string>, Option<string>)> {
    if e.message.Some? then Some((e.message.value, e.conversation, e.parent))
    else if !e.patch.value.Record? then None
    else
      var r := e.patch.value;
      if r.nested.Some? then Some((r.nested.value, OrElse(r.conversation, e.conversation), OrElse(r.parent, e.parent)))
      else if (e.patch.op.Add? || e.patch.op.Replace?) && e.patch.path.MessagePath? && r.self.Some? then
        Some((r.self.value, e.conversation, e.parent))
      else None
  }

  /** An event that changes the message in progress. */
  function Advance(p: Parser, v: View, e: Event): View {
    match Carried(e)
    case Some(c) => ConsumeMessage(p, v, c.0, c.1, c.2)
    case None =>
      if e.patch.value.List? && (e.patch.op.Default? || e.patch.op.PatchList?)
      then ApplyPatches(v, e.patch.value.patches)
      else ApplyPatch(v, e.patch)
  }

  function Consume(p: Parser, v: View, e: Event): View {
    var v1 := v.(progress := v.progress + 1);
    if e.done then v.(complete := true)
    else if e.empty then v
    else if e.failure then v1.(streamError := true)
    else if e.streamComplete then Bind(v1, e.conversation, e.parent).(complete := true)
    else Advance(p, v1, e)
  }

  function ConsumeAll(p: Parser, v: View, events: seq<Event>): View {
    if events == [] then v
    else Consume(p, ConsumeAll(p, v, events[..|events| - 1]), events[|events| - 1])
  }

  // ---------------------------------------------------------------- identity and ambiguity

  /** Bindings are written once, ambiguity is forever, and after ambiguity the answer is frozen. */
  ghost predicate Extends(v: View, after: View) {
    && (v.ambiguous ==> after.ambiguous && after.parts == v.parts)
    && (v.conversation.Some? ==> after.conversation == v.conversation)
    && (v.parent.Some? ==> after.parent == v.parent)
    && (v.seenFinal ==> after.seenFinal && after.message == v.message)
    && (v.complete ==> after.complete) && (v.streamError ==> after.streamError)
    && v.progress <= after.progress && v.observed <= after.observed
  }

  /** The same state but for visible prose. */
  predicate SameBranch(v: View, after: View) {
    after.(visible := v.visible, blocks := v.blocks) == v
  }

  lemma RememberToolKeepsBranch(p: Parser, v: View, m: Message)
    ensures SameBranch(v, RememberTool(p, v, m))
  {
  }

  lemma RememberTextKeepsBranch(v: View, m: Message)
    ensures SameBranch(v, RememberText(v, m))
  {
  }

  lemma RememberKeepsBranch(p: Parser, v: View, m: Message)
    ensures SameBranch(v, Remember(p, v, m))
  {
    RememberToolKeepsBranch(p, v, m);
    RememberTextKeepsBranch(v, m);
  }

  lemma PatchVisibleKeepsBranch(v: View, patch: Patch)
    ensures SameBranch(v, PatchVisible(v, patch))
  {
  }

  /** A tool patch changes only the tool node and what the collector observed of it. */
  lemma PatchToolKeepsBranch(v: View, patch: Patch)
    requires v.toolMessage.Some?
    ensures var after := PatchTool(v, patch);
            after.(toolMessage := v.toolMessage, observed := v.observed) == v && v.observed <= after.observed &&
            after.toolMessage.Some?
  {
  }

  /** An answer patch needs the answer node tracked and unambiguous, and changes only the answer. */
  lemma PatchAnswerKeepsBranch(v: View, patch: Patch)
    ensures var after := PatchAnswer(v, patch);
            after.(parts := v.parts, lastPart := v.lastPart, complete := v.complete) == v &&
            (v.complete ==> after.complete) && (after != v ==> v.tracking && !v.ambiguous)
  {
  }

  lemma SameBranchIsLater(v: View, after: View)
    requires SameBranch(v, after)
    ensures Extends(v, after) && after.tracking == v.tracking && after.toolMessage == v.toolMessage
  {
  }

  lemma PatchIsLater(v: View, patch: Patch)
    ensures Extends(v, ApplyPatch(v, patch))
  {
    if v.toolMessage.Some? && !v.ambiguous {
      PatchToolKeepsBranch(v, patch);
    } else {
      var v1 := PatchVisible(v, patch);
      PatchVisibleKeepsBranch(v, patch);
      SameBranchIsLater(v, v1);
      PatchAnswerKeepsBranch(v1, patch);
    }
  }

  lemma {:induction false} PatchesAreLater(v: View, patches: seq<Patch>)
    ensures Extends(v, ApplyPatches(v, patches))
  {
    if patches != [] {
      PatchesAreLater(v, patches[..|patches| - 1]);
      PatchIsLater(ApplyPatches(v, patches[..|patches| - 1]), patches[|patches| - 1]);
    }
  }

  lemma BindIsLater(v: View, conversation: Option<string>, parent: Option<string>)
    ensures Extends(v, Bind(v, conversation, parent))
  {
  }

  lemma TakeAnswerIsLater(v: View, m: Message)
    ensures Extends(v, TakeAnswer(v, m))
  {
  }

  lemma ExtendsChains(a: View, b: View, c: View)
    requires Extends(a, b) && Extends(b, c)
    ensures Extends(a, c)
  {
  }

  lemma NotedIsLater(p: Parser, v: View, m: Message)
    ensures Extends(v, Noted(p, v, m))
    ensures Noted(p, v, m).tracking == v.tracking && Noted(p, v, m).parts == v.parts
    ensures Noted(p, v, m).seenFinal == v.seenFinal && Noted(p, v, m).message == v.message
  {
    var v1 := v.(sawReasoning := v.sawReasoning || Reasoning(m),
                 observed := if Tool(m) then v.observed + [m] else v.observed);
    RememberKeepsBranch(p, v1, m);
  }

  lemma JudgeIsLater(v: View, m: Message, conversation: Option<string>, parent: Option<string>)
    ensures Extends(v, Judge(v, m, conversation, parent))
  {
    if Tool(m) {
      BindIsLater(v, conversation, None);
    } else if FinalAssistant(m) {
      BindIsLater(v, conversation, parent);
      TakeAnswerIsLater(Bind(v, conversation, parent), m);
      ExtendsChains(v, Bind(v, conversation, parent), TakeAnswer(Bind(v, conversation, parent), m));
    }
  }

  lemma MessageIsLater(p: Parser, v: View, m: Message, conversation: Option<string>, parent: Option<string>)
    ensures Extends(v, ConsumeMessage(p, v, m, conversation, parent))
  {
    NotedIsLater(p, v, m);
    JudgeIsLater(Noted(p, v, m), m, conversation, parent);
    ExtendsChains(v, Noted(p, v, m), ConsumeMessage(p, v, m, conversation, parent));
  }

  lemma AdvanceIsLater(p: Parser, v: View, e: Event)
    ensures Extends(v, Advance(p, v, e))
  {
    match Carried(e)
    case Some(c) => MessageIsLater(p, v, c.0, c.1, c.2);
    case None =>
      if e.patch.value.List? {
        PatchesAreLater(v, e.patch.value.patches);
      }
      PatchIsLater(v, e.patch);
  }

  lemma ConsumeIsLater(p: Parser, v: View, e: Event)
    ensures Extends(v, Consume(p, v, e))
  {
    var v1 := v.(progress := v.progress + 1);
    AdvanceIsLater(p, v1, e);
    BindIsLater(v1, e.conversation, e.parent);
    ExtendsChains(v, v1, Advance(p, v1, e));
  }

  /** For every event sequence: the first conversation, parent and final message id are never replaced, and
      an ambiguous stream stays ambiguous with its answer frozen. */
  lemma {:induction false} RunIsLater(p: Parser, v: View, events: seq<Event>)
    ensures Extends(v, ConsumeAll(p, v, events))
  {
    if events != [] {
      var n := |events| - 1;
      RunIsLater(p, v, events[..n]);
      ConsumeIsLater(p, ConsumeAll(p, v, events[..n]), events[n]);
    }
  }

  // ---------------------------------------------------------------- where the answer comes from

  function CurrentAfter(current: Option<Message>, e: Event): Option<Message> {
    if !e.done && !e.empty && !e.failure && !e.streamComplete && Carried(e).Some? then Some(Carried(e).value.0)
    else current
  }

  /** The node that patches after these events are about. */
  function Current(events: seq<Event>): Option<Message> {
    if events == [] then None else CurrentAfter(Current(events[..|events| - 1]), events[|events| - 1])
  }

  ghost predicate TracksAnswer(v: View, current: Option<Message>) {
    && (v.tracking ==> v.seenFinal && current.Some? && AnswerNode(current.value) && current.value.id == v.message)
    && (!v.seenFinal ==> v.parts == [])
    && (v.toolMessage.Some? ==> !v.tracking)
  }

  lemma PatchKeepsTracking(v: View, patch: Patch, current: Option<Message>)
    requires TracksAnswer(v, current)
    ensures TracksAnswer(ApplyPatch(v, patch), current) && ApplyPatch(v, patch).tracking == v.tracking
    ensures ApplyPatch(v, patch).parts != v.parts ==> v.tracking
  {
    if v.toolMessage.Some? && !v.ambiguous {
      PatchToolKeepsBranch(v, patch);
    } else {
      PatchVisibleKeepsBranch(v, patch);
      PatchAnswerKeepsBranch(PatchVisible(v, patch), patch);
    }
  }

  lemma {:induction false} PatchesKeepTracking(v: View, patches: seq<Patch>, current: Option<Message>)
    requires TracksAnswer(v, current)
    ensures TracksAnswer(ApplyPatches(v, patches), current) && ApplyPatches(v, patches).tracking == v.tracking
    ensures ApplyPatches(v, patches).parts != v.parts ==> v.tracking
  {
    if patches != [] {
      PatchesKeepTracking(v, patches[..|patches| - 1], current);
      PatchKeepsTracking(ApplyPatches(v, patches[..|patches| - 1]), patches[|patches| - 1], current);
    }
  }

  lemma TakeAnswerTracks(v: View, m: Message)
    requires v.tracking ==> v.seenFinal
    requires !v.seenFinal ==> v.parts == []
    ensures var after := TakeAnswer(v, m);
            (after.tracking ==> after.seenFinal && after.message == m.id) && (!after.seenFinal ==> after.parts == []) &&
            (after.parts != v.parts ==> after.tracking) && after.toolMessage == v.toolMessage
  {
  }

  lemma JudgeTracks(v: View, m: Message, conversation: Option<string>, parent: Option<string>)
    requires (v.tracking ==> v.seenFinal) && (!v.seenFinal ==> v.parts == []) && (v.toolMessage.Some? ==> Tool(m))
    ensures TracksAnswer(Judge(v, m, conversation, parent), Some(m))
    ensures Judge(v, m, conversation, parent).parts != v.parts ==> Judge(v, m, conversation, parent).tracking
  {
    TakeAnswerTracks(Bind(v, conversation, parent), m);
  }

  lemma MessageKeepsTracking(p: Parser, v: View, m: Message, conversation: Option<string>, parent: Option<string>,
                             current: Option<Message>)
    requires TracksAnswer(v, current)
    ensures TracksAnswer(ConsumeMessage(p, v, m, conversation, parent), Some(m))
    ensures ConsumeMessage(p, v, m, conversation, parent).parts != v.parts ==>
              ConsumeMessage(p, v, m, conversation, parent).tracking
  {
    NotedIsLater(p, v, m);
    JudgeTracks(Noted(p, v, m), m, conversation, parent);
  }

  lemma AdvanceKeepsTracking(p: Parser, v: View, e: Event, current: Option<Message>)
    requires TracksAnswer(v, current)
    ensures TracksAnswer(Advance(p, v, e), if Carried(e).Some? then Some(Carried(e).value.0) else current)
    ensures Advance(p, v, e).parts != v.parts ==> Advance(p, v, e).tracking
  {
    match Carried(e)
    case Some(c) => MessageKeepsTracking(p, v, c.0, c.1, c.2, current);
    case None =>
      if e.patch.value.List? {
        PatchesKeepTracking(v, e.patch.value.patches, current);
      }
      PatchKeepsTracking(v, e.patch, current);
  }

  lemma ConsumeKeepsTracking(p: Parser, v: View, e: Event, current: Option<Message>)
    requires TracksAnswer(v, current)
    ensures TracksAnswer(Consume(p, v, e), CurrentAfter(current, e))
    ensures Consume(p, v, e).parts != v.parts ==> Consume(p, v, e).tracking
  {
    AdvanceKeepsTracking(p, v.(progress := v.progress + 1), e, current);
  }

  lemma {:induction false} RunTracksAnswer(p: Parser, events: seq<Event>)
    ensures TracksAnswer(ConsumeAll(p, Blank(), events), Current(events))
    ensures events != [] ==>
              var before := ConsumeAll(p, Blank(), events[..|events| - 1]);
              var after := ConsumeAll(p, Blank(), events);
              after.parts != before.parts ==> after.tracking
  {
    if events != [] {
      var n := |events| - 1;
      RunTracksAnswer(p, events[..n]);
      ConsumeKeepsTracking(p, ConsumeAll(p, Blank(), events[..n]), events[n], Current(events[..n]));
    }
  }

  lemma {:induction false} ConsumeAllAppend(p: Parser, v: View, a: seq<Event>, b: seq<Event>)
    ensures ConsumeAll(p, v, a + b) == ConsumeAll(p, ConsumeAll(p, v, a), b)
    decreases |b|
  {
    if b == [] {
      assert a + b == a;
    } else {
      var n := |b| - 1;
      ConsumeAllAppend(p, v, a, b[..n]);
      assert (a + b)[..|a + b| - 1] == a + b[..n];
    }
  }

  /** When the last event changes the answer, the node being written is the answer's and carries its id. */
  lemma LastWriterIsAuthor(p: Parser, events: seq<Event>)
    requires events != []
    requires ConsumeAll(p, Blank(), events).parts != ConsumeAll(p, Blank(), events[..|events| - 1]).parts
    ensures var author := Current(events);
            author.Some? && AnswerNode(author.value) && author.value.id == ConsumeAll(p, Blank(), events).message
    ensures ConsumeAll(p, Blank(), events).seenFinal
  {
    RunTracksAnswer(p, events);
  }

  /** No event changes the message id once the answer was seen. */
  lemma MessageStays(p: Parser, events: seq<Event>, n: nat)
    requires n <= |events| && ConsumeAll(p, Blank(), events[..n]).seenFinal
    ensures ConsumeAll(p, Blank(), events).message == ConsumeAll(p, Blank(), events[..n]).message
  {
    ConsumeAllAppend(p, Blank(), events[..n], events[n..]);
    assert events[..n] + events[n..] == events;
    RunIsLater(p, ConsumeAll(p, Blank(), events[..n]), events[n..]);
  }

  /** For every stream and every event of it that changes the answer: the node being written then is a final
      assistant node, neither a tool's nor reasoning, private or hidden, and its id is the message id the whole
      stream ends with. */
  lemma AnswerHasOneAuthor(p: Parser, events: seq<Event>, i: nat)
    requires i < |events|
    requires ConsumeAll(p, Blank(), events[..i + 1]).parts != ConsumeAll(p, Blank(), events[..i]).parts
    ensures var author := Current(events[..i + 1]);
            author.Some? && AnswerNode(author.value) && author.value.id == ConsumeAll(p, Blank(), events).message &&
            author.value.role != "tool" && !Reasoning(author.value) && !Private(author.value) && !author.value.hidden
  {
    assert events[..i + 1][..i] == events[..i];
    LastWriterIsAuthor(p, events[..i + 1]);
    MessageStays(p, events, i + 1);
    AnswerIsPublic(Current(events[..i + 1]).value);
  }
}
