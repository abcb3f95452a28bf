/** Manual replies to saved chats: an ordered table of turns rewritten under irreversible dispatch leases. */
module Replies {
  import opened Tables
  import opened DisplayBlocks
  import opened ToolCalls
  import opened Captures
  import AW = AnswerWriters
  import R = Responses

  datatype Status =
    | Queued | Prepared | PreflightFailed | Dispatching | OutcomeUnknown | Accepted | Generating
    | Completed | Interrupted | Stopped | Cancelled | Merged

  datatype Reply = Reply(
    replyId: string, sendId: string, conversationId: string, parentId: string, userText: string,
    saved: Saved, tools: StoredCalls, messageId: string, responseParentId: string,
    status: Status, queuedByUser: bool, owner: string, deadline: Time, liveAt: Time,
    createdAt: Time, acceptedAt: Time, finishedAt: Time, updatedAt: Time)

  /** A turn of the branch; cancelled and merged rows are receipts only. */
  predicate Turn(r: Reply) { !r.status.Cancelled? && !r.status.Merged? }

  /** A turn the next one may be attached to. */
  predicate Settled(r: Reply) {
    (r.status.Completed? || r.status.Interrupted? || r.status.Stopped?) && r.messageId != ""
  }

  predicate InFlight(s: Status) { s.Dispatching? || s.Accepted? || s.Generating? }

  function NewReply(replyId: string, sendId: string, conversationId: string, parentId: string, userText: string,
                    messageId: string, status: Status, queuedByUser: bool, at: Time): Reply
  {
    Reply(replyId, sendId, conversationId, parentId, userText, Saved("", Items([])), Calls([]),
          messageId, "", status, queuedByUser, "", 0.0, 0.0, at, 0.0, 0.0, at)
  }

  // ---------------------------------------------------------------- row updates

  function PreflightRow(r: Reply, at: Time): Reply {
    if r.status.Prepared? then r.(status := PreflightFailed, updatedAt := at) else r
  }

  function RearmRow(r: Reply, at: Time): Reply {
    if r.status.PreflightFailed? then r.(status := Prepared, updatedAt := at) else r
  }

  function AuthorizeRow(r: Reply): Reply {
    if r.status.Prepared? then r.(queuedByUser := true) else r
  }

  predicate Claimable(r: Reply, owner: string, deadline: Time, at: Time) {
    owner != "" && deadline > at && r.status.Prepared?
  }

  function ClaimRow(r: Reply, owner: string, deadline: Time, at: Time): Reply {
    if Claimable(r, owner, deadline, at) then
      r.(status := Dispatching, owner := owner, deadline := deadline, updatedAt := at)
    else r
  }

  function FirstAccepted(r: Reply, at: Time): Time {
    if r.acceptedAt > 0.0 then r.acceptedAt else at
  }

  function AcknowledgeRow(r: Reply, owner: string, conversation: string, parent: string, at: Time): Reply {
    if r.status.Dispatching? && r.owner == owner && r.deadline > at
       && r.conversationId == conversation && r.parentId == parent then
      r.(status := Accepted, updatedAt := at, acceptedAt := FirstAccepted(r, at))
    else r
  }

  function AcceptedRow(r: Reply, owner: string, conversation: string, parent: string, messageId: string,
                       responseParent: string, at: Time): Reply
  {
    if messageId != "" && messageId != parent && responseParent != messageId
       && (r.status.Dispatching? || r.status.Accepted?) && r.messageId == ""
       && r.owner == owner && r.deadline > at && r.conversationId == conversation && r.parentId == parent then
      r.(status := Accepted, messageId := messageId, responseParentId := responseParent,
         updatedAt := at, acceptedAt := FirstAccepted(r, at))
    else r
  }

  predicate Observable(r: Reply, owner: string, c: Capture, at: Time) {
    var expected := if r.responseParentId != "" then r.responseParentId else r.parentId;
    r.owner == owner && (r.status.Accepted? || r.status.Generating?) && r.deadline > at
    && c.conversationId == Some(r.conversationId) && c.messageId == Some(r.messageId)
    && (c.parentId == Some(expected) || (c.source.Dom? && c.parentId.None?))
  }

  function ObserveRow(env: Env, r: Reply, owner: string, c: Capture, at: Time): Reply {
    if !Observable(r, owner, c, at) then r
    else match AW.ObserveText(env, r.saved, c)
      case None => r
      case Some(saved) =>
        var complete := c.status.Complete?;
        r.(status := if complete then Completed else Generating, saved := saved,
           tools := env.mergeTools(r.tools, c.toolCalls),
           updatedAt := at, finishedAt := if complete then at else r.finishedAt,
           owner := if complete then "" else owner)
  }

  function ObserveToolsRow(env: Env, r: Reply, owner: string, c: Capture, at: Time): Reply {
    if (c.toolCalls != [] || c.displayBlocks != []) && Given(c.conversationId)
       && r.owner == owner && InFlight(r.status) && r.deadline > at && c.conversationId == Some(r.conversationId) then
      r.(tools := env.mergeTools(r.tools, c.toolCalls),
         saved := AW.ObserveToolsText(env, r.saved, c), updatedAt := at)
    else r
  }

  function RenewRow(r: Reply, owner: string, deadline: Time, at: Time): Reply {
    if deadline > at && r.owner == owner && InFlight(r.status) && r.deadline > at then
      r.(deadline := deadline, updatedAt := at)
    else r
  }

  function FinishRow(r: Reply, owner: string, uncertain: bool, at: Time): Reply {
    if r.owner == owner && InFlight(r.status) then
      r.(status := if uncertain && r.status.Dispatching? then OutcomeUnknown else Interrupted,
         owner := "", updatedAt := at)
    else r
  }

  function OrphanRow(r: Reply, dead: set<string>, at: Time): Reply {
    if InFlight(r.status) && (r.deadline <= at || r.owner in dead) then
      r.(status := if r.status.Dispatching? then OutcomeUnknown else Interrupted, owner := "", updatedAt := at)
    else r
  }

  function DetachRow(r: Reply, at: Time): Reply {
    if (r.status.Accepted? || r.status.Generating?) && r.owner != "" && r.deadline > at then
      r.(status := Generating, owner := "", deadline := Earlier(r.deadline, at + R.MAX_OWNED_TAB_AGE),
         finishedAt := 0.0)
    else r
  }

  predicate Recoverable(s: Status) {
    s.OutcomeUnknown? || s.Interrupted? || s.Accepted? || s.Generating?
  }

  function ObserveLoadedRow(r: Reply, conversation: string, parent: string, at: Time): Reply {
    if conversation != "" && parent != "" && r.conversationId == conversation && r.parentId == parent
       && r.owner == "" && Recoverable(r.status) && r.liveAt == 0.0 then r.(liveAt := at)
    else r
  }

  predicate RecoveryTarget(r: Reply, c: Capture) {
    && Given(c.conversationId) && Given(c.parentId)
    && (c.text != "" || c.toolCalls != [] || c.verifiedGenerating)
    && (c.text == "" || c.status.Partial? || c.status.Complete?)
    && (Given(c.messageId) || Given(c.observerId))
    && Recoverable(r.status) && r.owner == ""
    && c.conversationId == Some(r.conversationId) && c.parentId == Some(r.parentId)
    && !R.OtherTurn(r.messageId, c)
  }

  /** `verified`: the original is settled and this reply hangs on it or on a settled predecessor. */
  function RecoverRow(env: Env, r: Reply, c: Capture, verified: bool, at: Time): Reply {
    if !RecoveryTarget(r, c) || !verified then r
    else match AW.RecoverReplyText(env, r.saved, c)
      case None => r
      case Some(saved) =>
        var sent := Take(c.text, MAX_CHARS);
        var complete := c.status.Complete? && sent != "" && |sent| >= |r.saved.text|;
        var tools := env.mergeTools(r.tools, c.toolCalls);
        var progressed := saved != r.saved || tools != r.tools;
        r.(saved := saved, tools := tools, messageId := OrKeep(c.messageId, r.messageId),
           status := if complete then Completed else r.status,
           liveAt := if complete then 0.0 else if progressed then at else r.liveAt,
           updatedAt := if progressed || complete then at else r.updatedAt,
           finishedAt := if complete then at else r.finishedAt,
           deadline := if !complete && progressed && (r.status.Accepted? || r.status.Generating?)
                       then at + R.MAX_OWNED_TAB_AGE else r.deadline)
  }

  predicate Bindable(r: Reply) {
    (r.status.Completed? || r.status.Interrupted? || r.status.OutcomeUnknown? || r.status.Stopped?)
    && r.messageId == "" && r.owner == ""
  }

  /** `verified`: the exact tip of the branch was proved on the page. */
  function BindParentRow(r: Reply, messageId: string, verified: bool, at: Time): Reply {
    if verified && R.IsUuid(R.Lower(messageId)) && Bindable(r) then
      r.(messageId := R.Lower(messageId), status := if r.status.OutcomeUnknown? then Interrupted else r.status,
         updatedAt := at)
    else r
  }

  function StopRow(r: Reply, at: Time): Reply {
    if r.status.Queued? || r.status.Prepared? then
      r.(status := Cancelled, owner := "", deadline := 0.0, updatedAt := at)
    else if InFlight(r.status) || r.status.Interrupted? || r.status.OutcomeUnknown? then
      r.(status := Stopped, owner := "", deadline := 0.0, liveAt := 0.0, updatedAt := at, finishedAt := at)
    else r
  }

  datatype RowOp =
    | FailPreflight | Rearm | Authorize
    | Claim(owner: string, deadline: Time)
    | Acknowledge(owner: string, conversation: string, parent: string)
    | AcceptMessage(owner: string, conversation: string, parent: string, messageId: string, responseParent: string)
    | Observe(owner: string, capture: Capture)
    | ObserveTools(owner: string, capture: Capture)
    | Renew(owner: string, deadline: Time)
    | Finish(owner: string, uncertain: bool)
    | RecoverOrphan(dead: set<string>)
    | Detach
    | ObserveLoaded(conversation: string, parent: string)
    | RecoverHistorical(capture: Capture, verified: bool)
    | BindParent(messageId: string, verified: bool)
    | Stop

  function ApplyRow(env: Env, r: Reply, op: RowOp, at: Time): Reply {
    match op
    case FailPreflight => PreflightRow(r, at)
    case Rearm => RearmRow(r, at)
    case Authorize => AuthorizeRow(r)
    case Claim(owner, deadline) => ClaimRow(r, owner, deadline, at)
    case Acknowledge(owner, conversation, parent) => AcknowledgeRow(r, owner, conversation, parent, at)
    case AcceptMessage(owner, conversation, parent, m, responseParent) =>
      AcceptedRow(r, owner, conversation, parent, m, responseParent, at)
    case Observe(owner, c) => ObserveRow(env, r, owner, c, at)
    case ObserveTools(owner, c) => ObserveToolsRow(env, r, owner, c, at)
    case Renew(owner, deadline) => RenewRow(r, owner, deadline, at)
    case Finish(owner, uncertain) => FinishRow(r, owner, uncertain, at)
    case RecoverOrphan(dead) => OrphanRow(r, dead, at)
    case Detach => DetachRow(r, at)
    case ObserveLoaded(conversation, parent) => ObserveLoadedRow(r, conversation, parent, at)
    case RecoverHistorical(c, verified) => RecoverRow(env, r, c, verified, at)
    case BindParent(m, verified) => BindParentRow(r, m, verified, at)
    case Stop => StopRow(r, at)
  }

  // ---------------------------------------------------------------- what one row operation keeps

  /** Statuses of a reply whose dispatch was never claimed. */
  predicate Unclaimed(s: Status) {
    s.Queued? || s.Prepared? || s.PreflightFailed? || s.Cancelled? || s.Merged?
  }

  /** Identity is fixed; receipts stay receipts; a settled turn stays settled; waiting turns are bound only
      by the branch walk; a claim is the only way out of the unclaimed statuses and nothing leads back. */
  ghost predicate RowStep(r: Reply, after: Reply, op: RowOp) {
    && after.replyId == r.replyId && after.sendId == r.sendId && after.userText == r.userText
    && after.createdAt == r.createdAt
    && after.conversationId == r.conversationId && after.parentId == r.parentId
    && (!Turn(r) ==> after == r)
    && (Settled(r) ==> Settled(after) && Turn(after))
    && (r.status.Queued? ==> after.status.Queued? || after.status.Cancelled?)
    && (after.status.Queued? ==> r.status.Queued?)
    && (!Turn(after) ==> !Turn(r) || (op.Stop? && Unclaimed(r.status) && after.status.Cancelled?))
    && (Unclaimed(after.status) ==> Unclaimed(r.status))
    && (Unclaimed(r.status) && !Unclaimed(after.status) ==>
          op.Claim? && r.status.Prepared? && after.status.Dispatching? &&
          Claimable(r, op.owner, op.deadline, after.updatedAt))
  }

  /** Operations fed by what a page or stream shows. */
  predicate FromCapture(op: RowOp) { op.Observe? || op.ObserveTools? || op.RecoverHistorical? }

  lemma ObserveSteps(env: Env, r: Reply, owner: string, c: Capture, at: Time)
    ensures RowStep(r, ObserveRow(env, r, owner, c, at), Observe(owner, c))
    ensures RowStep(r, ObserveToolsRow(env, r, owner, c, at), ObserveTools(owner, c))
  {
  }

  lemma RecoverSteps(env: Env, r: Reply, c: Capture, verified: bool, at: Time)
    ensures RowStep(r, RecoverRow(env, r, c, verified, at), RecoverHistorical(c, verified))
  {
  }

  /** Operations guarded by the lease of a dispatch. */
  predicate ByHolder(op: RowOp) { op.Claim? || op.Acknowledge? || op.AcceptMessage? || op.Renew? || op.Finish? }

  lemma HolderSteps(env: Env, r: Reply, op: RowOp, at: Time)
    requires ByHolder(op)
    ensures RowStep(r, ApplyRow(env, r, op, at), op)
  {
  }

  lemma MaintenanceSteps(env: Env, r: Reply, op: RowOp, at: Time)
    requires !FromCapture(op) && !ByHolder(op)
    ensures RowStep(r, ApplyRow(env, r, op, at), op)
  {
  }

  lemma RowSteps(env: Env, r: Reply, op: RowOp, at: Time)
    ensures RowStep(r, ApplyRow(env, r, op, at), op)
  {
    match op
    case Observe(owner, c) => ObserveSteps(env, r, owner, c, at);
    case ObserveTools(owner, c) => ObserveSteps(env, r, owner, c, at);
    case RecoverHistorical(c, verified) => RecoverSteps(env, r, c, verified, at);
    case _ =>
      if ByHolder(op) {
        HolderSteps(env, r, op, at);
      } else {
        MaintenanceSteps(env, r, op, at);
      }
  }

  /** Replacing the message id of a settled turn, which only a verified multi-message turn allows. */
  predicate Advances(r: Reply, op: RowOp) {
    op.RecoverHistorical? && R.Differs(r.messageId, op.capture.messageId)
  }

  lemma MessageIdIsStable(env: Env, r: Reply, op: RowOp, at: Time)
    requires Settled(r) && !Advances(r, op)
    ensures ApplyRow(env, r, op, at).messageId == r.messageId
  {
  }

  // ---------------------------------------------------------------- the branch walk

  /** The message the next turn of this chat must answer, walking the first n rows of the table; None when
      an unresolved or unlinked turn blocks the branch. */
  function Walk(replies: seq<Reply>, n: nat, send: string, conversation: string, first: string): Option<string>
    requires n <= |replies|
  {
    if n == 0 then Some(first)
    else
      var parent := Walk(replies, n - 1, send, conversation, first);
      var r := replies[n - 1];
      if parent.None? || r.sendId != send || !Turn(r) then parent
      else if !Settled(r) || r.conversationId != conversation || r.parentId != parent.value then None
      else Some(r.messageId)
  }

  /** A settled, identified original that replies can be attached to. */
  predicate Anchored(responses: R.Table, send: string) {
    send in responses && R.Settled(responses[send].status) &&
    responses[send].conversationId != "" && responses[send].messageId != ""
  }

  function Tip(replies: seq<Reply>, n: nat, responses: R.Table, send: string): Option<string>
    requires n <= |replies|
  {
    if send in responses then
      Walk(replies, n, send, responses[send].conversationId, responses[send].messageId)
    else None
  }

  /** Row k may be dispatched next: explicitly queued, and everything before it in its chat is settled and linked. */
  predicate Ready(replies: seq<Reply>, responses: R.Table, exclude: set<string>, k: nat) {
    k < |replies| &&
    var r := replies[k];
    r.queuedByUser && (r.status.Queued? || r.status.Prepared?) && r.replyId !in exclude &&
    Anchored(responses, r.sendId) &&
    var tip := Tip(replies, k, responses, r.sendId);
    tip.Some? &&
    (r.status.Queued? || (r.conversationId == responses[r.sendId].conversationId && r.parentId == tip.value))
  }

  /** The first ready row from k on; |replies| when there is none. */
  function NextReady(replies: seq<Reply>, responses: R.Table, exclude: set<string>, k: nat): (n: nat)
    requires k <= |replies|
    ensures k <= n <= |replies|
    ensures n < |replies| ==> Ready(replies, responses, exclude, n)
    ensures forall i :: k <= i < n ==> !Ready(replies, responses, exclude, i)
    decreases |replies| - k
  {
    if k == |replies| || Ready(replies, responses, exclude, k) then k
    else NextReady(replies, responses, exclude, k + 1)
  }

  function Find(replies: seq<Reply>, replyId: string): (i: nat)
    ensures i <= |replies|
    ensures i < |replies| ==> replies[i].replyId == replyId
    ensures forall k :: 0 <= k < i ==> replies[k].replyId != replyId
  {
    if replies == [] || replies[0].replyId == replyId then 0 else 1 + Find(replies[1..], replyId)
  }

  predicate Blank(text: string) { Strip(text) == "" }

  predicate Outstanding(s: Status) {
    s.Queued? || s.Prepared? || s.PreflightFailed? || InFlight(s) || s.OutcomeUnknown?
  }

  function CountOutstanding(replies: seq<Reply>, send: string): nat {
    if replies == [] then 0
    else (if replies[0].sendId == send && Outstanding(replies[0].status) then 1 else 0)
         + CountOutstanding(replies[1..], send)
  }

  const MAX_OUTSTANDING := 20
  const MAX_FOLLOWUP := 32000

  predicate IdChar(c: char) {
    '0' <= c <= '9' || 'a' <= c <= 'z' || 'A' <= c <= 'Z' || c == '_' || c == '-'
  }

  /** The form of a follow-up's identifier. */
  predicate FollowupId(replyId: string) {
    16 <= |replyId| <= 200 && forall i :: 0 <= i < |replyId| ==> IdChar(replyId[i])
  }

  predicate FollowupAllowed(replies: seq<Reply>, responses: R.Table, send: string, replyId: string, text: string) {
    FollowupId(replyId) && !Blank(text) && |text| <= MAX_FOLLOWUP && Find(replies, replyId) == |replies| &&
    send in responses
    && CountOutstanding(replies, send) < MAX_OUTSTANDING
  }

  // ---------------------------------------------------------------- recovery proofs over the table

  /** Some other settled reply of the chat carries this message id. */
  predicate Predecessor(replies: seq<Reply>, r: Reply) {
    exists i :: 0 <= i < |replies| && replies[i].sendId == r.sendId && replies[i].replyId != r.replyId &&
                replies[i].conversationId == r.conversationId && replies[i].messageId == r.parentId &&
                (replies[i].status.Completed? || replies[i].status.Interrupted? || replies[i].status.Stopped?)
  }

  predicate VerifiedParent(replies: seq<Reply>, responses: R.Table, r: Reply) {
    r.sendId in responses && R.Settled(responses[r.sendId].status) &&
    responses[r.sendId].conversationId == r.conversationId &&
    (responses[r.sendId].messageId == r.parentId || Predecessor(replies, r))
  }

  /** Index of the last row before n that belongs to the chat and is not queued. */
  function LastUnqueued(replies: seq<Reply>, n: nat, send: string): Option<nat>
    requires n <= |replies|
  {
    if n == 0 then None
    else if replies[n - 1].sendId == send && !replies[n - 1].status.Queued? then Some(n - 1)
    else LastUnqueued(replies, n - 1, send)
  }

  predicate VerifiedTip(replies: seq<Reply>, responses: R.Table, send: string, k: nat, conversation: string,
                        previousParent: string, userText: string, answer: string, messageId: string)
  {
    k < |replies| && R.IsUuid(R.Lower(conversation)) && R.IsUuid(R.Lower(previousParent)) &&
    R.Lower(messageId) != R.Lower(previousParent) &&
    send in responses && R.Settled(responses[send].status) && responses[send].conversationId == conversation &&
    LastUnqueued(replies, |replies|, send) == Some(k) &&
    replies[k].conversationId == conversation && replies[k].parentId == previousParent &&
    replies[k].userText == userText && replies[k].saved.text == answer &&
    var before := LastUnqueued(replies, k, send);
    (if before.Some? && before.value < |replies| then replies[before.value].messageId else responses[send].messageId)
      == previousParent
  }

  // ---------------------------------------------------------------- table operations

  datatype Intent = Intent(replyId: string, conversationId: string, parentId: string, text: string)

  datatype Op =
    | Prepare(send: string, intent: Intent)
    | QueueExplicit(send: string, intent: Intent)
    | Followup(send: string, replyId: string, text: string)
    | Merge(send: string, replyId: string, text: string, hash: string)
    | BindNext(exclude: set<string>)
    | One(replyId: string, op: RowOp)
    | RecoverReply(replyId: string, capture: Capture)
    | RecoverTip(send: string, replyId: string, conversation: string, previousParent: string,
                 userText: string, answer: string, messageId: string)
    | StopChat(send: string)
    | RecoverOrphans(dead: set<string>)
    | DetachAll(ids: set<string>)

  predicate Preparable(replies: seq<Reply>, responses: R.Table, send: string, intent: Intent) {
    Find(replies, intent.replyId) == |replies| && Anchored(responses, send) &&
    intent.conversationId == responses[send].conversationId &&
    Tip(replies, |replies|, responses, send) == Some(intent.parentId)
  }

  function PrepareAll(replies: seq<Reply>, responses: R.Table, send: string, intent: Intent, at: Time): seq<Reply> {
    if Preparable(replies, responses, send, intent) then
      replies + [NewReply(intent.replyId, send, intent.conversationId, intent.parentId, intent.text, "", Prepared,
                          false, at)]
    else replies
  }

  predicate SameIntent(r: Reply, send: string, intent: Intent) {
    r.sendId == send && r.conversationId == intent.conversationId && r.parentId == intent.parentId &&
    r.userText == intent.text
  }

  function UpdateOne(env: Env, replies: seq<Reply>, k: nat, op: RowOp, at: Time): seq<Reply> {
    if k < |replies| then replies[k := ApplyRow(env, replies[k], op, at)] else replies
  }

  function BoundRow(r: Reply, conversation: string, parent: string, at: Time): Reply {
    if r.status.Queued? then r.(status := Prepared, conversationId := conversation, parentId := parent, updatedAt := at)
    else r
  }

  function BindNextIn(replies: seq<Reply>, responses: R.Table, exclude: set<string>, at: Time): seq<Reply> {
    var k := NextReady(replies, responses, exclude, 0);
    if k == |replies| then replies
    else
      var send := replies[k].sendId;
      replies[k := BoundRow(replies[k], responses[send].conversationId, Tip(replies, k, responses, send).value, at)]
  }

  /** An explicit click prepares the intent, rearms it after a failed preflight, and authorizes the worker. */
  function QueueExplicitIn(env: Env, replies: seq<Reply>, responses: R.Table, send: string, intent: Intent,
                           at: Time): seq<Reply> {
    var prepared := PrepareAll(replies, responses, send, intent, at);
    var k := Find(prepared, intent.replyId);
    if k < |prepared| && SameIntent(prepared[k], send, intent) then
      UpdateOne(env, UpdateOne(env, prepared, k, Rearm, at), k, Authorize, at)
    else prepared
  }

  function Apply(env: Env, replies: seq<Reply>, responses: R.Table, op: Op, at: Time): seq<Reply> {
    match op
    case Prepare(send, intent) => PrepareAll(replies, responses, send, intent, at)
    case QueueExplicit(send, intent) => QueueExplicitIn(env, replies, responses, send, intent, at)
    case Followup(send, replyId, text) =>
      if FollowupAllowed(replies, responses, send, replyId, text) then
        replies + [NewReply(replyId, send, "", "", text, "", Queued, true, at)]
      else replies
    case Merge(send, replyId, text, hash) =>
      if FollowupAllowed(replies, responses, send, replyId, text) then
        replies + [NewReply(replyId, send, "", "", text, hash, Merged, true, at)]
      else replies
    case BindNext(exclude) => BindNextIn(replies, responses, exclude, at)
    case One(replyId, rowOp) =>
      // Recovery proofs are established by the two table operations below, never supplied by a caller.
      if rowOp.RecoverHistorical? || rowOp.BindParent? || rowOp.Stop? then replies
      else UpdateOne(env, replies, Find(replies, replyId), rowOp, at)
    case RecoverReply(replyId, c) =>
      var k := Find(replies, replyId);
      UpdateOne(env, replies, k,
                RecoverHistorical(c, k < |replies| && VerifiedParent(replies, responses, replies[k])), at)
    case RecoverTip(send, replyId, conversation, previousParent, userText, answer, messageId) =>
      var k := Find(replies, replyId);
      UpdateOne(env, replies, k,
                BindParent(messageId, VerifiedTip(replies, responses, send, k, conversation, previousParent, userText,
                                                  answer, messageId)), at)
    case StopChat(send) => Update(replies, (r: Reply) => if r.sendId == send then StopRow(r, at) else r)
    case RecoverOrphans(dead) => Update(replies, (r: Reply) => OrphanRow(r, dead, at))
    case DetachAll(ids) => Update(replies, (r: Reply) => if r.replyId in ids then DetachRow(r, at) else r)
  }
}
