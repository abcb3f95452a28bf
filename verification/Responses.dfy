/** Saved responses of fresh chats: one row per send id, written under capture leases. */
module Responses {
  import opened Tables
  import opened DisplayBlocks
  import opened ToolCalls
  import opened Captures
  import AW = AnswerWriters

  const MAX_OWNED_TAB_AGE: Time := 900.0

  datatype Status =
    | Queued | Submitted | Accepted | Generating | Partial
    | Completed | Interrupted | Unavailable | OutcomeUnknown | Stopped

  datatype Response = Response(
    jobName: string, userText: string, saved: Saved, tools: StoredCalls,
    status: Status, source: string, conversationId: string, messageId: string, parentId: string,
    createdAt: Time, acceptedAt: Time, updatedAt: Time, finishedAt: Time,
    owner: string, deadline: Time, liveAt: Time)

  type Table = map<string, Response>

  predicate Capturing(s: Status) { s.Accepted? || s.Generating? }

  predicate Live(s: Status) { Capturing(s) || s.Partial? }

  predicate Settled(s: Status) { s.Completed? || s.Interrupted? || s.Unavailable? || s.Stopped? }

  // ---------------------------------------------------------------- identities

  predicate LowerHex(c: char) { Digit(c) || 'a' <= c <= 'f' }

  function LowerChar(c: char): char {
    if 'A' <= c <= 'Z' then (c as int + 32) as char else c
  }

  function Lower(s: string): (r: string)
    ensures |r| == |s|
  {
    seq(|s|, i requires 0 <= i < |s| => LowerChar(s[i]))
  }

  /** The canonical lower-case text of a UUID. */
  predicate IsUuid(s: string) {
    |s| == 36 && forall i :: 0 <= i < 36 ==>
      if i == 8 || i == 13 || i == 18 || i == 23 then s[i] == '-' else LowerHex(s[i])
  }

  // ---------------------------------------------------------------- row updates

  function NewResponse(userText: string, jobName: string, at: Time): Response {
    Response(jobName, Take(userText, MAX_CHARS), Saved("", Items([])), Calls([]), Queued, "", "", "", "",
             at, 0.0, at, 0.0, "", 0.0, 0.0)
  }

  function SubmitRow(r: Response, at: Time): Response {
    if r.status.Queued? then
      r.(status := Submitted, source := "fire_and_forget", acceptedAt := at, updatedAt := at, finishedAt := at,
         owner := "", deadline := 0.0)
    else r
  }

  predicate Acceptable(s: Status) { s.Queued? || s.Unavailable? || s.OutcomeUnknown? }

  function AcceptRow(r: Response, owner: string, deadline: Time, at: Time): Response {
    if deadline > at && Acceptable(r.status) then
      r.(status := Accepted, acceptedAt := at, updatedAt := at, owner := owner, deadline := deadline)
    else r
  }

  /** Evidence strong enough to accept a send whose POST failed: an owned page showing an answer. */
  predicate AcceptanceEvidence(c: Capture) {
    c.source.Dom? && (c.status.Partial? || c.status.Complete?) && c.text != "" && Given(c.observerId) &&
    c.conversationId.Some? && IsUuid(c.conversationId.value) && c.messageId.Some? && IsUuid(c.messageId.value)
  }

  function AcceptObservedRow(env: Env, r: Response, owner: string, c: Capture, deadline: Time, at: Time): Response {
    if deadline > at && AcceptanceEvidence(c) && Acceptable(r.status)
       && r.acceptedAt == 0.0 && r.conversationId == "" && r.messageId == "" then
      var complete := c.status.Complete?;
      r.(status := if complete then Completed else Generating, source := "dom",
         saved := Saved(Take(c.text, MAX_CHARS), env.mergeBlocks(Items([]), c.displayBlocks)),
         tools := env.mergeTools(Calls([]), c.toolCalls),
         conversationId := c.conversationId.value, messageId := c.messageId.value,
         parentId := OrKeep(c.parentId, ""),
         acceptedAt := at, updatedAt := at, finishedAt := if complete then at else 0.0,
         owner := if complete then "" else owner, deadline := deadline)
    else r
  }

  /** The WHERE clause of a capture owner's writes. */
  predicate Leased(r: Response, owner: string, at: Time) {
    r.owner == owner && Capturing(r.status) && r.deadline > at
  }

  function GeneratingRow(r: Response, owner: string, at: Time): Response {
    if Leased(r, owner, at) && r.status.Accepted? then r.(status := Generating, updatedAt := at) else r
  }

  function BindRow(r: Response, owner: string, conversation: Option<string>, at: Time): Response {
    if Given(conversation) && Leased(r, owner, at)
       && (r.conversationId == "" || r.conversationId == conversation.value) then
      r.(conversationId := conversation.value, updatedAt := at)
    else r
  }

  predicate Differs(was: string, now: Option<string>) {
    was != "" && Given(now) && was != now.value
  }

  /** A snapshot for another reply or conversation. A page read may advance the message id of one turn
      when its caller has verified the unit on the same conversation. */
  predicate Foreign(r: Response, c: Capture, allowAdvance: bool) {
    Differs(r.conversationId, c.conversationId) || Differs(r.parentId, c.parentId) ||
    (Differs(r.messageId, c.messageId) &&
     !(allowAdvance && c.source.Dom? && Given(c.observerId) && c.conversationId == Some(r.conversationId)))
  }

  function WithIds(r: Response, c: Capture): Response {
    r.(conversationId := OrKeep(c.conversationId, r.conversationId),
       messageId := OrKeep(c.messageId, r.messageId),
       parentId := OrKeep(c.parentId, r.parentId))
  }

  function SourceName(s: Source): string {
    if s.Sse? then "sse" else "dom"
  }

  function WriteRow(env: Env, r: Response, owner: string, c: Capture, allowAdvance: bool, at: Time): Response {
    if !Leased(r, owner, at) || Foreign(r, c, allowAdvance) then r
    else
      var complete := c.status.Complete? && c.text != "" && (Given(c.messageId) || Given(c.observerId));
      var prior := env.visible(r.saved);
      var tools := env.mergeTools(r.tools, c.toolCalls);
      var blocks := env.mergeBlocks(r.saved.blocks, c.displayBlocks);
      var sent := Take(c.text, MAX_CHARS);
      var text := if c.source.Dom? then Take(AW.OrElse(env.display(blocks), sent), MAX_CHARS) else sent;
      if text == "" then
        if tools == r.tools && blocks == r.saved.blocks && WithIds(r, c) == r then r
        else WithIds(r, c).(tools := tools, saved := Saved(r.saved.text, blocks), updatedAt := at)
      else
        var kept := if |text| < |prior| then prior else text;
        if !complete && r.status.Generating? && kept == prior && tools == r.tools && blocks == r.saved.blocks
           && r.source == SourceName(c.source) && WithIds(r, c) == r then r
        else
          WithIds(r, c).(saved := Saved(kept, blocks), tools := tools,
                         status := if complete then Completed else Generating,
                         source := SourceName(c.source), updatedAt := at,
                         finishedAt := if complete then at else 0.0,
                         owner := if complete then "" else owner)
  }

  function RenewRow(r: Response, owner: string, deadline: Time, at: Time): Response {
    if deadline > at && Leased(r, owner, at) && r.deadline < deadline then r.(deadline := deadline) else r
  }

  function FinishRow(r: Response, owner: string, status: Status, at: Time): Response {
    if r.owner == owner && Capturing(r.status) && (status.Interrupted? || status.Unavailable?) then
      r.(status := status, updatedAt := at, finishedAt := at, owner := "")
    else r
  }

  function UnavailableRow(r: Response, at: Time): Response {
    if r.status.Queued? then r.(status := Unavailable, updatedAt := at, finishedAt := at) else r
  }

  function UncertainRow(r: Response, at: Time): Response {
    if (r.status.Queued? || r.status.Unavailable?) && r.acceptedAt == 0.0 && r.conversationId == "" then
      r.(status := OutcomeUnknown, updatedAt := at, finishedAt := at)
    else r
  }

  function DetachRow(r: Response, at: Time): Response {
    if Live(r.status) && r.owner != "" && r.deadline > at then
      r.(status := Generating, owner := "", deadline := Earlier(r.deadline, at + MAX_OWNED_TAB_AGE), finishedAt := 0.0)
    else r
  }

  function OrphanRow(r: Response, dead: set<string>, at: Time): Response {
    if Capturing(r.status) && (r.deadline <= at || r.owner in dead) then
      r.(status := Interrupted, updatedAt := at, finishedAt := at, owner := "")
    else r
  }

  predicate Recoverable(s: Status) { s.Interrupted? || s.Unavailable? || Capturing(s) }

  function ObserveLiveRow(r: Response, conversation: string, at: Time): Response {
    if conversation != "" && r.conversationId == conversation && r.owner == "" && Recoverable(r.status)
       && r.liveAt == 0.0 then r.(liveAt := at)
    else r
  }

  predicate RecoveryEvidence(c: Capture) {
    (c.text != "" || c.toolCalls != []) && Given(c.conversationId) &&
    (c.text == "" || c.status.Partial? || c.status.Complete?) && (Given(c.messageId) || Given(c.observerId))
  }

  /** The snapshot names another message that is not part of the verified turn. */
  predicate OtherTurn(messageId: string, c: Capture) {
    Differs(messageId, c.messageId) && messageId !in c.turnMessageIds
  }

  predicate RecoveryTarget(r: Response, c: Capture) {
    RecoveryEvidence(c) && Recoverable(r.status) && r.conversationId == c.conversationId.value && r.owner == ""
    && !OtherTurn(r.messageId, c)
  }

  function RecoverRow(env: Env, r: Response, c: Capture, at: Time): Response {
    if !RecoveryTarget(r, c) then r
    else match AW.RecoverText(env, r.saved, c)
      case None => r
      case Some(saved) =>
        var blocks := env.mergeBlocks(r.saved.blocks, c.displayBlocks);
        var text := Take(AW.OrElse(env.display(blocks), c.text), MAX_CHARS);
        var prior := env.visible(r.saved);
        var complete := c.status.Complete? && text != "" && |text| >= |prior|;
        var tools := env.mergeTools(r.tools, c.toolCalls);
        var progressed := saved.text != prior || tools != r.tools || saved.blocks != r.saved.blocks;
        r.(saved := saved, tools := tools, source := "history_dom",
           messageId := OrKeep(c.messageId, r.messageId), parentId := OrKeep(c.parentId, r.parentId),
           status := if complete then Completed else r.status,
           liveAt := if complete then 0.0 else if progressed then at else r.liveAt,
           updatedAt := if progressed || complete then at else r.updatedAt,
           deadline := if !complete && progressed && Capturing(r.status) then at + MAX_OWNED_TAB_AGE else r.deadline,
           finishedAt := if complete then at else r.finishedAt)
  }

  /** Bind a missing message id after the exact branch was verified on the page. `first` says that every
      reply of this chat is still queued. */
  function BindParentRow(r: Response, conversation: string, messageId: string, answer: string, first: bool): Response {
    if IsUuid(Lower(conversation)) && IsUuid(Lower(messageId)) && first
       && (Settled(r.status) || r.status.OutcomeUnknown?)
       && r.conversationId == conversation && r.messageId == "" && r.saved.text == answer then
      r.(messageId := Lower(messageId), status := if r.status.OutcomeUnknown? then Interrupted else r.status)
    else r
  }

  function StopRow(r: Response, at: Time): Response {
    if r.status.Queued? || Capturing(r.status) || r.status.Interrupted? || r.status.Unavailable? then
      r.(status := Stopped, liveAt := 0.0, owner := "", deadline := 0.0, updatedAt := at, finishedAt := at)
    else r
  }

  /** A merged follow-up rewrites the prompt of a chat that is still queued. */
  function RetellRow(r: Response, userText: string, at: Time): Response {
    if r.status.Queued? then r.(userText := userText, updatedAt := at) else r
  }

  function NameJobRow(r: Response, jobName: string): Response {
    if jobName != "" && r.jobName == "" then r.(jobName := jobName) else r
  }

  // ---------------------------------------------------------------- operations on one row

  datatype RowOp =
    | Submit
    | Accept(owner: string, deadline: Time)
    | AcceptObserved(owner: string, capture: Capture, deadline: Time)
    | MarkGenerating(owner: string)
    | BindRoute(owner: string, conversation: Option<string>)
    | Write(owner: string, capture: Capture, allowAdvance: bool)
    | Renew(owner: string, deadline: Time)
    | Finish(owner: string, outcome: Status)
    | MarkUnavailable
    | MarkUncertain
    | Detach
    | RecoverOrphan(dead: set<string>)
    | ObserveLive(observed: string)
    | RecoverHistorical(capture: Capture)
    | BindParent(observed: string, messageId: string, answer: string, first: bool)
    | Stop
    | NameJob(jobName: string)
    | Retell(userText: string)

  function ApplyRow(env: Env, r: Response, op: RowOp, at: Time): Response {
    match op
    case Submit => SubmitRow(r, at)
    case Accept(owner, deadline) => AcceptRow(r, owner, deadline, at)
    case AcceptObserved(owner, c, deadline) => AcceptObservedRow(env, r, owner, c, deadline, at)
    case MarkGenerating(owner) => GeneratingRow(r, owner, at)
    case BindRoute(owner, conversation) => BindRow(r, owner, conversation, at)
    case Write(owner, c, allowAdvance) => WriteRow(env, r, owner, c, allowAdvance, at)
    case Renew(owner, deadline) => RenewRow(r, owner, deadline, at)
    case Finish(owner, outcome) => FinishRow(r, owner, outcome, at)
    case MarkUnavailable => UnavailableRow(r, at)
    case MarkUncertain => UncertainRow(r, at)
    case Detach => DetachRow(r, at)
    case RecoverOrphan(dead) => OrphanRow(r, dead, at)
    case ObserveLive(observed) => ObserveLiveRow(r, observed, at)
    case RecoverHistorical(c) => RecoverRow(env, r, c, at)
    case BindParent(observed, messageId, answer, first) => BindParentRow(r, observed, messageId, answer, first)
    case Stop => StopRow(r, at)
    case NameJob(name) => NameJobRow(r, name)
    case Retell(userText) => RetellRow(r, userText, at)
  }

  /** The owner an operation writes for, if it is guarded by one. */
  function GuardOwner(op: RowOp): Option<string> {
    match op
    case MarkGenerating(owner) => Some(owner)
    case BindRoute(owner, _) => Some(owner)
    case Write(owner, _, _) => Some(owner)
    case Renew(owner, _) => Some(owner)
    case Finish(owner, _) => Some(owner)
    case _ => None
  }

  /** Operations that start a capture must name who captures. */
  predicate Proper(op: RowOp) {
    (op.Accept? || op.AcceptObserved? ==> op.owner != "")
  }

  // ---------------------------------------------------------------- lifecycle

  /** A capture owner is recorded only while the response is being captured. */
  predicate OwnerShape(r: Response) {
    (r.owner != "" ==> Capturing(r.status)) && r.acceptedAt >= 0.0
  }

  predicate Final(s: Status) { s.Completed? || s.Stopped? || s.Submitted? }

  ghost predicate Evolves(r: Response, after: Response) {
    && OwnerShape(after)
    && (r.conversationId != "" ==> after.conversationId == r.conversationId)
    && (Final(r.status) ==> after.status == r.status && after.saved == r.saved && after.tools == r.tools)
    && (r.acceptedAt > 0.0 ==> after.acceptedAt > 0.0)
    && after.createdAt == r.createdAt
  }

  lemma RowEvolves(env: Env, r: Response, op: RowOp, at: Time)
    requires OwnerShape(r) && Proper(op) && at > 0.0
    ensures Evolves(r, ApplyRow(env, r, op, at))
  {
  }

  /** A call by anyone but the recorded capture owner changes nothing. */
  lemma StaleOwnerChangesNothing(env: Env, r: Response, op: RowOp, at: Time)
    requires GuardOwner(op).Some? && GuardOwner(op).value != r.owner
    ensures ApplyRow(env, r, op, at) == r
  {
  }

  /** A live capture can only be extended: past its deadline no owner's write, binding or renewal counts. */
  lemma ExpiredLeaseChangesNothing(env: Env, r: Response, op: RowOp, at: Time)
    requires GuardOwner(op).Some? && !op.Finish? && r.deadline <= at
    ensures ApplyRow(env, r, op, at) == r
  {
  }

  /** The message id of a row changes only by binding a missing one or by advancing within a verified turn. */
  predicate Advances(r: Response, op: RowOp) {
    match op
    case Write(_, c, allowAdvance) => allowAdvance && Differs(r.messageId, c.messageId)
    case RecoverHistorical(c) => Differs(r.messageId, c.messageId)
    case _ => false
  }

  lemma MessageIdIsStable(env: Env, r: Response, op: RowOp, at: Time)
    requires r.messageId != "" && !Advances(r, op)
    ensures ApplyRow(env, r, op, at).messageId == r.messageId
  {
  }

  /** A conversation id, once bound, is kept by every operation at any time. */
  lemma ConversationIdIsStable(env: Env, r: Response, op: RowOp, at: Time)
    requires r.conversationId != ""
    ensures ApplyRow(env, r, op, at).conversationId == r.conversationId
  {
  }

  /** An acceptance receipt never disappears. */
  lemma ReceiptIsPermanent(env: Env, r: Response, op: RowOp, at: Time)
    requires r.acceptedAt > 0.0 && at > 0.0
    ensures ApplyRow(env, r, op, at).acceptedAt > 0.0
  {
  }

  /** The answer columns change only through the writers whose growth is proved, or by first acceptance. */
  lemma AnswerFollowsWriters(env: Env, r: Response, op: RowOp, at: Time)
    ensures var after := ApplyRow(env, r, op, at);
            after.saved == r.saved ||
            (op.Write? && after.saved == AW.Apply(env, r.saved, AW.Write, op.capture)) ||
            (op.RecoverHistorical? && after.saved == AW.Apply(env, r.saved, AW.RecoverResponse, op.capture)) ||
            (op.AcceptObserved? && r.acceptedAt == 0.0)
  {
  }

  // ---------------------------------------------------------------- the table

  function UpdateAt(env: Env, rows: Table, id: string, op: RowOp, at: Time): Table {
    if id in rows then rows[id := ApplyRow(env, rows[id], op, at)] else rows
  }

  function EnsureQueued(rows: Table, id: string, userText: string, jobName: string, at: Time): Table {
    if id in rows then rows[id := NameJobRow(rows[id], jobName)]
    else rows[id := NewResponse(userText, jobName, at)]
  }

  datatype Op =
    | Ensure(id: string, userText: string, jobName: string)
    | One(id: string, op: RowOp)
    | DetachAll(ids: set<string>)
    | RecoverOrphans(dead: set<string>)
    | ProjectUncertain(ids: set<string>)

  function Apply(env: Env, rows: Table, op: Op, at: Time): Table {
    match op
    case Ensure(id, userText, jobName) => EnsureQueued(rows, id, userText, jobName, at)
    case One(id, rowOp) => UpdateAt(env, rows, id, rowOp, at)
    case DetachAll(ids) => map id | id in rows :: if id in ids then DetachRow(rows[id], at) else rows[id]
    case RecoverOrphans(dead) => map id | id in rows :: OrphanRow(rows[id], dead, at)
    case ProjectUncertain(ids) => map id | id in rows :: if id in ids then UncertainRow(rows[id], at) else rows[id]
  }

  ghost predicate Valid(rows: Table) {
    forall id :: id in rows ==> OwnerShape(rows[id])
  }

  /** The row operation an operation amounts to for one send id. */
  function OpFor(op: Op, id: string): Option<RowOp> {
    match op
    case Ensure(i, _, jobName) => if i == id then Some(NameJob(jobName)) else None
    case One(i, rowOp) => if i == id then Some(rowOp) else None
    case DetachAll(ids) => if id in ids then Some(Detach) else None
    case RecoverOrphans(dead) => Some(RecoverOrphan(dead))
    case ProjectUncertain(ids) => if id in ids then Some(MarkUncertain) else None
  }

  lemma ApplyIsPointwise(env: Env, rows: Table, op: Op, at: Time, id: string)
    requires id in rows
    ensures id in Apply(env, rows, op, at)
    ensures Apply(env, rows, op, at)[id] ==
              match OpFor(op, id) case None => rows[id] case Some(o) => ApplyRow(env, rows[id], o, at)
  {
  }

  lemma NewRowsAreQueued(env: Env, rows: Table, op: Op, at: Time, id: string)
    requires id !in rows && id in Apply(env, rows, op, at)
    ensures op.Ensure? && op.id == id && Apply(env, rows, op, at)[id] == NewResponse(op.userText, op.jobName, at)
  {
  }

  // ---------------------------------------------------------------- runs

  datatype Event = Event(op: Op, at: Time)

  ghost predicate ProperEvent(e: Event) {
    e.at > 0.0 && (e.op.One? ==> Proper(e.op.op))
  }

  function Run(env: Env, rows: Table, events: seq<Event>): Table
    decreases |events|
  {
    if events == [] then rows else Run(env, Apply(env, rows, events[0].op, events[0].at), events[1..])
  }

  lemma ApplyEvolves(env: Env, rows: Table, e: Event)
    requires Valid(rows) && ProperEvent(e)
    ensures Valid(Apply(env, rows, e.op, e.at))
    ensures forall id :: id in rows ==>
              id in Apply(env, rows, e.op, e.at) && Evolves(rows[id], Apply(env, rows, e.op, e.at)[id])
  {
    var after := Apply(env, rows, e.op, e.at);
    forall id | id in rows ensures id in after && Evolves(rows[id], after[id]) {
      ApplyIsPointwise(env, rows, e.op, e.at, id);
      if OpFor(e.op, id).Some? {
        RowEvolves(env, rows[id], OpFor(e.op, id).value, e.at);
      }
    }
    forall id | id in after ensures OwnerShape(after[id]) {
      if id !in rows {
        NewRowsAreQueued(env, rows, e.op, e.at, id);
      }
    }
  }

  /** Over every run of the row writers: a conversation id is written once, completed, stopped and
      submitted responses keep their status and content, an acceptance receipt never disappears, and an
      owner is recorded only while a response is being captured. */
  lemma {:induction false} RunEvolves(env: Env, rows: Table, events: seq<Event>)
    requires Valid(rows) && forall i :: 0 <= i < |events| ==> ProperEvent(events[i])
    ensures Valid(Run(env, rows, events))
    ensures forall id :: id in rows ==> id in Run(env, rows, events) && Evolves(rows[id], Run(env, rows, events)[id])
    decreases |events|
  {
    if events != [] {
      var next := Apply(env, rows, events[0].op, events[0].at);
      ApplyEvolves(env, rows, events[0]);
      RunEvolves(env, next, events[1..]);
      forall id | id in rows ensures Evolves(rows[id], Run(env, rows, events)[id]) {
        assert Evolves(rows[id], next[id]) && Evolves(next[id], Run(env, next, events[1..])[id]);
      }
    }
  }

  // ---------------------------------------------------------------- the store

  class ResponseStore {
    const env: Env
    var rows: Table

    constructor (env: Env)
      ensures this.env == env && rows == map[]
    {
      this.env := env;
      rows := map[];
    }

    method Accept(id: string, owner: string, deadline: Time, at: Time) returns (ok: bool)
      modifies this
      ensures rows == Apply(env, old(rows), One(id, RowOp.Accept(owner, deadline)), at)
      ensures ok <==> deadline > at && id in old(rows) && Acceptable(old(rows)[id].status)
      ensures ok ==> rows[id].status.Accepted? && rows[id].owner == owner && rows[id].deadline == deadline
    {
      if deadline <= at {
        return false;
      }
      ok := id in rows && Acceptable(rows[id].status);
      if ok {
        rows := rows[id := rows[id].(status := Accepted, acceptedAt := at, updatedAt := at,
                                     owner := owner, deadline := deadline)];
      }
    }

    method BindConversationRoute(id: string, owner: string, conversation: Option<string>, at: Time) returns (ok: bool)
      modifies this
      ensures rows == Apply(env, old(rows), One(id, BindRoute(owner, conversation)), at)
      ensures ok ==>
                id in old(rows) && Leased(old(rows)[id], owner, at) && Some(rows[id].conversationId) == conversation
    {
      if !Given(conversation) {
        return false;
      }
      ok := id in rows && Leased(rows[id], owner, at)
            && (rows[id].conversationId == "" || rows[id].conversationId == conversation.value);
      if ok {
        rows := rows[id := rows[id].(conversationId := conversation.value, updatedAt := at)];
      }
    }

    /** The row an accepted snapshot leaves: a shorter one keeps the saved text, a repeated one writes
        nothing, and completion releases the lease. */
    method WriteSnapshot(row: Response, owner: string, capture: Capture, allowAdvance: bool, at: Time)
      returns (next: Response)
      requires Leased(row, owner, at) && !Foreign(row, capture, allowAdvance)
      ensures next == WriteRow(env, row, owner, capture, allowAdvance, at)
    {
      var text := Take(capture.text, MAX_CHARS);
      var complete := capture.status.Complete? && text != "" && (Given(capture.messageId) || Given(capture.observerId));
      var prior := env.visible(row.saved);
      var tools := env.mergeTools(row.tools, capture.toolCalls);
      var blocks := env.mergeBlocks(row.saved.blocks, capture.displayBlocks);
      if capture.source.Dom? {
        text := Take(AW.OrElse(env.display(blocks), text), MAX_CHARS);
      }
      var repeated := tools == row.tools && blocks == row.saved.blocks && WithIds(row, capture) == row;
      if text == "" {
        if repeated {
          return row;
        }
        return WithIds(row, capture).(tools := tools, saved := Saved(row.saved.text, blocks), updatedAt := at);
      }
      if |text| < |prior| {
        text := prior;
      }
      if !complete && row.status.Generating? && text == prior && repeated && row.source == SourceName(capture.source) {
        return row;
      }
      next := WithIds(row, capture).(
        saved := Saved(text, blocks), tools := tools, status := if complete then Completed else Generating,
        source := SourceName(capture.source), updatedAt := at, finishedAt := if complete then at else 0.0,
        owner := if complete then "" else owner);
    }

    /** A stale owner and a snapshot of another branch change nothing. */
    method Write(id: string, owner: string, capture: Capture, allowAdvance: bool, at: Time) returns (ok: bool)
      modifies this
      ensures rows == Apply(env, old(rows), One(id, RowOp.Write(owner, capture, allowAdvance)), at)
      ensures ok <==>
                id in old(rows) && Leased(old(rows)[id], owner, at) && !Foreign(old(rows)[id], capture, allowAdvance)
      ensures !ok ==> rows == old(rows)
    {
      ok := id in rows && Leased(rows[id], owner, at) && !Foreign(rows[id], capture, allowAdvance);
      if ok {
        var next := WriteSnapshot(rows[id], owner, capture, allowAdvance, at);
        rows := rows[id := next];
      }
    }

    method RenewCaptureDeadline(id: string, owner: string, deadline: Time, at: Time) returns (ok: bool)
      modifies this
      ensures rows == Apply(env, old(rows), One(id, Renew(owner, deadline)), at)
      ensures ok <==>
                deadline > at && id in old(rows) && Leased(old(rows)[id], owner, at) &&
                old(rows)[id].deadline < deadline
    {
      ok := deadline > at && id in rows && Leased(rows[id], owner, at) && rows[id].deadline < deadline;
      if ok {
        rows := rows[id := rows[id].(deadline := deadline)];
      }
    }

    /** Owners that are still live are detached with at most the normal idle budget; nothing is revived. */
    method PrepareDeploymentRecovery(ids: set<string>, at: Time)
      modifies this
      ensures rows == Apply(env, old(rows), DetachAll(ids), at)
      ensures forall id :: id in old(rows) ==>
                (id in rows && rows[id].deadline <= old(rows)[id].deadline &&
                 (old(rows)[id].deadline <= at ==> rows[id] == old(rows)[id]))
    {
      rows := map id | id in rows :: if id in ids then DetachRow(rows[id], at) else rows[id];
    }

    method RecoverHistoricalResponse(id: string, capture: Capture, at: Time) returns (ok: bool)
      modifies this
      ensures rows == Apply(env, old(rows), One(id, RecoverHistorical(capture)), at)
      ensures ok <==> id in old(rows) && RecoveryTarget(old(rows)[id], capture) &&
                      AW.RecoverText(env, old(rows)[id].saved, capture).Some?
    {
      if id !in rows || !RecoveryTarget(rows[id], capture) {
        return false;
      }
      ok := AW.RecoverText(env, rows[id].saved, capture).Some?;
      rows := rows[id := RecoverRow(env, rows[id], capture, at)];
    }
  }
}
