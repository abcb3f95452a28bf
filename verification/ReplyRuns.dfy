/** Reply branches over whole runs: the shape of a chat, its parent chain, and the single click of a claim. */
module ReplyRuns {
  import opened Tables
  import opened Captures
  import opened Replies
  import R = Responses

  // ---------------------------------------------------------------- what every table operation keeps

  predicate SameChat(a: Reply, b: Reply) { a.sendId == b.sendId }

  ghost predicate Keeps(r: Reply, after: Reply) {
    && after.replyId == r.replyId && after.sendId == r.sendId && after.userText == r.userText
    && after.conversationId == r.conversationId && after.parentId == r.parentId
    && (!Turn(r) ==> after == r)
    && (Settled(r) ==> Settled(after))
    && (r.status.Queued? ==> after.status.Queued? || after.status.Cancelled?)
    && (after.status.Queued? ==> r.status.Queued?)
    && (Turn(r) && !Turn(after) ==> after.status.Cancelled?)
    && (Unclaimed(after.status) ==> Unclaimed(r.status))
  }

  /** A waiting turn bound to its parent by the branch walk. */
  ghost predicate Bound(replies: seq<Reply>, responses: R.Table, op: Op, at: Time, i: nat)
    requires i < |replies|
  {
    op.BindNext? && i == NextReady(replies, responses, op.exclude, 0)
  }

  lemma ApplyRowKeeps(env: Env, r: Reply, op: RowOp, at: Time)
    ensures Keeps(r, ApplyRow(env, r, op, at))
  {
    RowSteps(env, r, op, at);
  }

  lemma UpdateOneKeeps(env: Env, replies: seq<Reply>, k: nat, op: RowOp, at: Time)
    ensures |UpdateOne(env, replies, k, op, at)| == |replies|
    ensures forall i :: 0 <= i < |replies| ==> Keeps(replies[i], UpdateOne(env, replies, k, op, at)[i])
  {
    if k < |replies| {
      ApplyRowKeeps(env, replies[k], op, at);
    }
  }

  lemma SweepKeeps(env: Env, replies: seq<Reply>, responses: R.Table, op: Op, at: Time)
    requires op.StopChat? || op.RecoverOrphans? || op.DetachAll?
    ensures |Apply(env, replies, responses, op, at)| == |replies|
    ensures forall i :: 0 <= i < |replies| ==> Keeps(replies[i], Apply(env, replies, responses, op, at)[i])
  {
    forall i | 0 <= i < |replies| ensures Keeps(replies[i], Apply(env, replies, responses, op, at)[i]) {
      var rowOp := match op case RecoverOrphans(dead) => RecoverOrphan(dead) case DetachAll(_) => Detach case _ => Stop;
      ApplyRowKeeps(env, replies[i], rowOp, at);
    }
  }

  lemma InsertKeeps(env: Env, replies: seq<Reply>, responses: R.Table, op: Op, at: Time)
    requires op.Prepare? || op.QueueExplicit? || op.Followup? || op.Merge?
    ensures |replies| <= |Apply(env, replies, responses, op, at)| <= |replies| + 1
    ensures forall i :: 0 <= i < |replies| ==> Keeps(replies[i], Apply(env, replies, responses, op, at)[i])
  {
    if op.QueueExplicit? {
      var prepared := PrepareAll(replies, responses, op.send, op.intent, at);
      var k := Find(prepared, op.intent.replyId);
      UpdateOneKeeps(env, prepared, k, Rearm, at);
      UpdateOneKeeps(env, UpdateOne(env, prepared, k, Rearm, at), k, Authorize, at);
    }
  }

  /** Rows keep their place; all but the one being bound keep identity, lineage and receipts. */
  lemma ApplyKeeps(env: Env, replies: seq<Reply>, responses: R.Table, op: Op, at: Time)
    ensures |replies| <= |Apply(env, replies, responses, op, at)| <= |replies| + 1
    ensures forall i :: 0 <= i < |replies| ==>
              Keeps(replies[i], Apply(env, replies, responses, op, at)[i]) || Bound(replies, responses, op, at, i)
  {
    match op
    case One(replyId, rowOp) => UpdateOneKeeps(env, replies, Find(replies, replyId), rowOp, at);
    case RecoverReply(replyId, c) =>
      var k := Find(replies, replyId);
      UpdateOneKeeps(env, replies, k,
                     RecoverHistorical(c, k < |replies| && VerifiedParent(replies, responses, replies[k])), at);
    case RecoverTip(send, replyId, conversation, previousParent, userText, answer, messageId) =>
      var k := Find(replies, replyId);
      UpdateOneKeeps(env, replies, k,
        BindParent(messageId, VerifiedTip(replies, responses, send, k, conversation, previousParent, userText, answer,
                                          messageId)), at);
    case BindNext(_) =>
    case StopChat(_) => SweepKeeps(env, replies, responses, op, at);
    case RecoverOrphans(_) => SweepKeeps(env, replies, responses, op, at);
    case DetachAll(_) => SweepKeeps(env, replies, responses, op, at);
    case _ => InsertKeeps(env, replies, responses, op, at);
  }

  /** A new row waits unbound, is a receipt, or is prepared on the verified tip of its chat. */
  ghost predicate NewRowOk(replies: seq<Reply>, responses: R.Table, op: Op, r: Reply) {
    || r.status.Queued? || r.status.Merged?
    || ((op.Prepare? || op.QueueExplicit?) && r.status.Prepared? &&
        Preparable(replies, responses, op.send, op.intent) &&
        r.sendId == op.send && r.conversationId == op.intent.conversationId && r.parentId == op.intent.parentId)
  }

  lemma NewRows(env: Env, replies: seq<Reply>, responses: R.Table, op: Op, at: Time)
    requires |Apply(env, replies, responses, op, at)| > |replies|
    ensures NewRowOk(replies, responses, op, Apply(env, replies, responses, op, at)[|replies|])
    ensures Find(replies, Apply(env, replies, responses, op, at)[|replies|].replyId) == |replies|
    ensures Unclaimed(Apply(env, replies, responses, op, at)[|replies|].status)
  {
    if op.QueueExplicit? {
      var prepared := PrepareAll(replies, responses, op.send, op.intent, at);
      var k := Find(prepared, op.intent.replyId);
      UpdateOneKeeps(env, prepared, k, Rearm, at);
      UpdateOneKeeps(env, UpdateOne(env, prepared, k, Rearm, at), k, Authorize, at);
    }
  }

  // ---------------------------------------------------------------- the branch walk, declaratively

  /** The last turn of the chat among the first n rows. */
  function LastTurn(replies: seq<Reply>, n: nat, send: string): (i: Option<nat>)
    requires n <= |replies|
    ensures i.Some? ==> i.value < n && replies[i.value].sendId == send && Turn(replies[i.value])
    ensures i.Some? ==> forall k :: i.value < k < n && replies[k].sendId == send ==> !Turn(replies[k])
    ensures i.None? ==> forall k :: 0 <= k < n && replies[k].sendId == send ==> !Turn(replies[k])
  {
    if n == 0 then None
    else if replies[n - 1].sendId == send && Turn(replies[n - 1]) then Some(n - 1)
    else LastTurn(replies, n - 1, send)
  }

  /** The message a turn at row n must answer: its predecessor's, or the original's for the first. */
  function PreviousMessage(replies: seq<Reply>, n: nat, send: string, first: string): string
    requires n <= |replies|
  {
    match LastTurn(replies, n, send)
    case None => first
    case Some(i) => replies[i].messageId
  }

  ghost predicate Attached(replies: seq<Reply>, i: nat, conversation: string, first: string)
    requires i < |replies|
  {
    replies[i].conversationId == conversation &&
    replies[i].parentId == PreviousMessage(replies, i, replies[i].sendId, first)
  }

  /** The walk succeeds exactly on branches whose turns are all settled and attached in order. */
  lemma {:induction false} WalkIsExact(replies: seq<Reply>, n: nat, send: string, conversation: string, first: string)
    requires n <= |replies|
    ensures Walk(replies, n, send, conversation, first).Some? <==>
              forall i :: 0 <= i < n && replies[i].sendId == send && Turn(replies[i]) ==>
                Settled(replies[i]) && Attached(replies, i, conversation, first)
    ensures Walk(replies, n, send, conversation, first).Some? ==>
              Walk(replies, n, send, conversation, first).value == PreviousMessage(replies, n, send, first)
  {
    if n > 0 {
      WalkIsExact(replies, n - 1, send, conversation, first);
    }
  }

  // ---------------------------------------------------------------- invariants

  ghost predicate UniqueReplies(replies: seq<Reply>) {
    forall i, j :: 0 <= i < j < |replies| ==> replies[i].replyId != replies[j].replyId
  }

  /** A chat is settled turns, then at most one unsettled turn, then queued ones: whatever precedes a turn
      that left the queue is settled. */
  ghost predicate Shape(replies: seq<Reply>) {
    forall i, j | 0 <= i < j < |replies| && SameChat(replies[i], replies[j]) && Turn(replies[i]) &&
                  Turn(replies[j]) && !replies[j].status.Queued? :: Settled(replies[i])
  }

  ghost predicate Chained(replies: seq<Reply>, responses: R.Table, j: nat)
    requires j < |replies|
  {
    var r := replies[j];
    r.sendId in responses && responses[r.sendId].conversationId != "" && responses[r.sendId].messageId != "" &&
    Attached(replies, j, responses[r.sendId].conversationId, responses[r.sendId].messageId)
  }

  /** Every bound turn answers its predecessor, in the conversation of its original. */
  ghost predicate Chain(replies: seq<Reply>, responses: R.Table) {
    forall j :: 0 <= j < |replies| && Turn(replies[j]) && !replies[j].status.Queued? ==> Chained(replies, responses, j)
  }

  lemma UniqueGrows(replies: seq<Reply>, after: seq<Reply>)
    requires UniqueReplies(replies) && |replies| <= |after| <= |replies| + 1
    requires forall i :: 0 <= i < |replies| ==> after[i].replyId == replies[i].replyId
    requires |after| > |replies| ==> forall i :: 0 <= i < |replies| ==> replies[i].replyId != after[|replies|].replyId
    ensures UniqueReplies(after)
  {
  }

  lemma UniqueIsKept(env: Env, replies: seq<Reply>, responses: R.Table, op: Op, at: Time)
    requires UniqueReplies(replies)
    ensures UniqueReplies(Apply(env, replies, responses, op, at))
  {
    var after := Apply(env, replies, responses, op, at);
    ApplyKeeps(env, replies, responses, op, at);
    if |after| > |replies| {
      NewRows(env, replies, responses, op, at);
    }
    UniqueGrows(replies, after);
  }

  /** The row the walk binds has only settled, attached turns before it. */
  lemma BoundIsReady(replies: seq<Reply>, responses: R.Table, exclude: set<string>)
    requires NextReady(replies, responses, exclude, 0) < |replies|
    ensures var k := NextReady(replies, responses, exclude, 0);
            var send := replies[k].sendId;
            Anchored(responses, send) && Tip(replies, k, responses, send).Some? &&
            Tip(replies, k, responses, send).value == PreviousMessage(replies, k, send, responses[send].messageId) &&
            forall i :: 0 <= i < k && replies[i].sendId == send && Turn(replies[i]) ==>
              Settled(replies[i]) && Attached(replies, i, responses[send].conversationId, responses[send].messageId)
  {
    var k := NextReady(replies, responses, exclude, 0);
    var send := replies[k].sendId;
    assert Ready(replies, responses, exclude, k);
    WalkIsExact(replies, k, send, responses[send].conversationId, responses[send].messageId);
  }

  lemma PreparedIsTip(replies: seq<Reply>, responses: R.Table, send: string, intent: Intent)
    requires Preparable(replies, responses, send, intent)
    ensures Anchored(responses, send) && intent.conversationId == responses[send].conversationId
    ensures intent.parentId == PreviousMessage(replies, |replies|, send, responses[send].messageId)
    ensures forall i :: 0 <= i < |replies| && replies[i].sendId == send && Turn(replies[i]) ==> Settled(replies[i])
  {
    WalkIsExact(replies, |replies|, send, responses[send].conversationId, responses[send].messageId);
  }

  lemma SettledBefore(env: Env, replies: seq<Reply>, responses: R.Table, op: Op, at: Time, i: nat, j: nat)
    requires Shape(replies) && i < j <= |replies| && Turn(replies[i])
    requires var after := Apply(env, replies, responses, op, at);
             j < |after| && Turn(after[j]) && !after[j].status.Queued? && replies[i].sendId == after[j].sendId
    ensures Settled(replies[i])
  {
    ApplyKeeps(env, replies, responses, op, at);
    if j == |replies| {
      NewRows(env, replies, responses, op, at);
      PreparedIsTip(replies, responses, op.send, op.intent);
    } else if Bound(replies, responses, op, at, j) {
      BoundIsReady(replies, responses, op.exclude);
    }
  }

  lemma ShapeIsKept(env: Env, replies: seq<Reply>, responses: R.Table, op: Op, at: Time)
    requires Shape(replies)
    ensures Shape(Apply(env, replies, responses, op, at))
  {
    var after := Apply(env, replies, responses, op, at);
    ApplyKeeps(env, replies, responses, op, at);
    forall i, j | 0 <= i < j < |after| && SameChat(after[i], after[j]) && Turn(after[i]) && Turn(after[j]) &&
                  !after[j].status.Queued?
      ensures Settled(after[i])
    {
      SettledBefore(env, replies, responses, op, at, i, j);
    }
  }

  // ---------------------------------------------------------------- the parent chain

  /** Replacing a bound message id, which only a verified multi-message turn may do. */
  predicate AdvancesReply(replies: seq<Reply>, op: Op) {
    op.RecoverReply? &&
    var k := Find(replies, op.replyId);
    k < |replies| && R.Differs(replies[k].messageId, op.capture.messageId)
  }

  lemma UpdateKeepsMessage(env: Env, replies: seq<Reply>, k: nat, op: RowOp, at: Time, i: nat)
    requires i < |replies| && Settled(replies[i]) && (k == i ==> !Advances(replies[i], op))
    ensures UpdateOne(env, replies, k, op, at)[i].messageId == replies[i].messageId
  {
    if k == i {
      MessageIdIsStable(env, replies[i], op, at);
    }
  }

  lemma SweepKeepsMessage(env: Env, replies: seq<Reply>, responses: R.Table, op: Op, at: Time, i: nat)
    requires i < |replies| && Settled(replies[i]) && (op.StopChat? || op.RecoverOrphans? || op.DetachAll?)
    ensures |Apply(env, replies, responses, op, at)| == |replies|
    ensures Apply(env, replies, responses, op, at)[i].messageId == replies[i].messageId
  {
  }

  lemma InsertKeepsMessage(env: Env, replies: seq<Reply>, responses: R.Table, op: Op, at: Time, i: nat)
    requires i < |replies| && (op.Prepare? || op.QueueExplicit? || op.Followup? || op.Merge? || op.BindNext?)
    ensures |Apply(env, replies, responses, op, at)| >= |replies|
    ensures Apply(env, replies, responses, op, at)[i].messageId == replies[i].messageId
  {
  }

  lemma SettledMessageIsStable(env: Env, replies: seq<Reply>, responses: R.Table, op: Op, at: Time, i: nat)
    requires i < |replies| && Settled(replies[i]) && !AdvancesReply(replies, op)
    ensures i < |Apply(env, replies, responses, op, at)|
    ensures Apply(env, replies, responses, op, at)[i].messageId == replies[i].messageId
  {
    match op
    case One(replyId, rowOp) =>
      if !rowOp.RecoverHistorical? {
        UpdateKeepsMessage(env, replies, Find(replies, replyId), rowOp, at, i);
      }
    case RecoverReply(replyId, c) =>
      var k := Find(replies, replyId);
      UpdateKeepsMessage(env, replies, k,
                         RecoverHistorical(c, k < |replies| && VerifiedParent(replies, responses, replies[k])), at, i);
    case RecoverTip(send, replyId, conversation, previousParent, userText, answer, messageId) =>
      var k := Find(replies, replyId);
      UpdateKeepsMessage(env, replies, k,
        BindParent(messageId, VerifiedTip(replies, responses, send, k, conversation, previousParent, userText, answer,
                                          messageId)), at, i);
    case StopChat(_) => SweepKeepsMessage(env, replies, responses, op, at, i);
    case RecoverOrphans(_) => SweepKeepsMessage(env, replies, responses, op, at, i);
    case DetachAll(_) => SweepKeepsMessage(env, replies, responses, op, at, i);
    case _ => InsertKeepsMessage(env, replies, responses, op, at, i);
  }

  /** Turns that stay in place keep naming the same predecessor message. */
  lemma PreviousIsStable(replies: seq<Reply>, after: seq<Reply>, n: nat, send: string, first: string)
    requires n <= |replies| && n <= |after|
    requires forall i :: 0 <= i < n && replies[i].sendId == send ==>
               after[i].sendId == send && (!Turn(replies[i]) ==> !Turn(after[i])) &&
               (Turn(replies[i]) ==> Turn(after[i]) && after[i].messageId == replies[i].messageId)
    requires forall i :: 0 <= i < n && replies[i].sendId != send ==> after[i].sendId != send
    ensures PreviousMessage(after, n, send, first) == PreviousMessage(replies, n, send, first)
  {
    assert forall i :: 0 <= i < n && replies[i].sendId == send ==> (Turn(replies[i]) <==> Turn(after[i]));
  }

  lemma StablePredecessors(replies: seq<Reply>, after: seq<Reply>, j: nat, send: string)
    requires j <= |replies| && j <= |after|
    requires forall i :: 0 <= i < j ==> after[i].sendId == replies[i].sendId && (!Turn(replies[i]) ==> !Turn(after[i]))
    requires forall i :: 0 <= i < j && replies[i].sendId == send && Turn(replies[i]) ==>
               Turn(after[i]) && after[i].messageId == replies[i].messageId
    ensures forall first :: PreviousMessage(after, j, send, first) == PreviousMessage(replies, j, send, first)
  {
    forall first ensures PreviousMessage(after, j, send, first) == PreviousMessage(replies, j, send, first) {
      PreviousIsStable(replies, after, j, send, first);
    }
  }

  /** The turns before one that has left the queue are settled, so no operation moves them. */
  lemma PredecessorsAreStable(env: Env, replies: seq<Reply>, responses: R.Table, op: Op, at: Time, j: nat)
    requires Shape(replies) && !AdvancesReply(replies, op)
    requires var after := Apply(env, replies, responses, op, at);
             j < |after| && Turn(after[j]) && !after[j].status.Queued?
    ensures j <= |replies|
    ensures forall first :: var send := Apply(env, replies, responses, op, at)[j].sendId;
              PreviousMessage(Apply(env, replies, responses, op, at), j, send, first) ==
                PreviousMessage(replies, j, send, first)
  {
    var after := Apply(env, replies, responses, op, at);
    var send := after[j].sendId;
    ApplyKeeps(env, replies, responses, op, at);
    ShapeIsKept(env, replies, responses, op, at);
    forall i | 0 <= i < j && replies[i].sendId == send && Turn(replies[i])
      ensures Turn(after[i]) && after[i].messageId == replies[i].messageId
    {
      SettledBefore(env, replies, responses, op, at, i, j);
      SettledMessageIsStable(env, replies, responses, op, at, i);
    }
    StablePredecessors(replies, after, j, send);
  }

  lemma ChainIsKept(env: Env, replies: seq<Reply>, responses: R.Table, op: Op, at: Time)
    requires Shape(replies) && Chain(replies, responses) && !AdvancesReply(replies, op)
    ensures Chain(Apply(env, replies, responses, op, at), responses)
  {
    var after := Apply(env, replies, responses, op, at);
    ApplyKeeps(env, replies, responses, op, at);
    ShapeIsKept(env, replies, responses, op, at);
    forall j | 0 <= j < |after| && Turn(after[j]) && !after[j].status.Queued?
      ensures Chained(after, responses, j)
    {
      if j == |replies| {
        NewRows(env, replies, responses, op, at);
        PreparedIsTip(replies, responses, op.send, op.intent);
      } else if Bound(replies, responses, op, at, j) {
        BoundIsReady(replies, responses, op.exclude);
      }
      PredecessorsAreStable(env, replies, responses, op, at, j);
    }
  }

  // ---------------------------------------------------------------- the parent chain under response writers

  /** Replacing the message id of an original, which only a verified multi-message turn may do. */
  predicate AdvancesOriginal(responses: R.Table, op: R.Op) {
    op.One? && op.id in responses && R.Advances(responses[op.id], op.op)
  }

  lemma ResponsesKeepChain(env: Env, replies: seq<Reply>, responses: R.Table, op: R.Op, at: Time)
    requires Chain(replies, responses) && !AdvancesOriginal(responses, op)
    ensures Chain(replies, R.Apply(env, responses, op, at))
  {
    var after := R.Apply(env, responses, op, at);
    forall j | 0 <= j < |replies| && Turn(replies[j]) && !replies[j].status.Queued?
      ensures Chained(replies, after, j)
    {
      var send := replies[j].sendId;
      assert Chained(replies, responses, j);
      R.ApplyIsPointwise(env, responses, op, at, send);
      var rowOp := R.OpFor(op, send);
      if rowOp.Some? {
        R.MessageIdIsStable(env, responses[send], rowOp.value, at);
        R.ConversationIdIsStable(env, responses[send], rowOp.value, at);
      }
    }
  }

  // ---------------------------------------------------------------- runs

  datatype Phase = Preflight | Claimed | Clicked

  /** One execution of the dispatch routine for one saved intent. */
  datatype Thread = Thread(replyId: string, owner: string, phase: Phase)

  datatype World = World(now: Time, replies: seq<Reply>, responses: R.Table, threads: seq<Thread>)

  datatype Event =
    | Advance(seconds: Time)
    | WriteReplies(op: Op)
    | WriteResponses(rop: R.Op)
    | Launch(replyId: string, owner: string)
    | ClaimReply(thread: nat, deadline: Time, admitted: bool)
    | Click(thread: nat)

  /** Events that are not enabled leave the world unchanged, so every event sequence is a run; a crashed
      thread is one with no further events. Only the dispatch routine claims. */
  function Step(env: Env, w: World, e: Event): World {
    match e
    case Advance(s) => if s >= 0.0 then w.(now := w.now + s) else w
    case WriteReplies(op) =>
      if op.One? && op.op.Claim? then w
      else w.(replies := Apply(env, w.replies, w.responses, op, w.now))
    case WriteResponses(op) => w.(responses := R.Apply(env, w.responses, op, w.now))
    case Launch(replyId, owner) => w.(threads := w.threads + [Thread(replyId, owner, Preflight)])
    case ClaimReply(t, deadline, admitted) =>
      if t < |w.threads| && w.threads[t].phase.Preflight? && admitted then
        var k := Find(w.replies, w.threads[t].replyId);
        if k < |w.replies| && Claimable(w.replies[k], w.threads[t].owner, deadline, w.now) then
          w.(replies := UpdateOne(env, w.replies, k, Claim(w.threads[t].owner, deadline), w.now),
             threads := w.threads[t := w.threads[t].(phase := Claimed)])
        else w
      else w
    case Click(t) =>
      if t < |w.threads| && w.threads[t].phase.Claimed? then
        w.(threads := w.threads[t := w.threads[t].(phase := Clicked)])
      else w
  }

  function Run(env: Env, w: World, events: seq<Event>): World
    decreases |events|
  {
    if events == [] then w else Run(env, Step(env, w, events[0]), events[1..])
  }

  /** An empty reply table beside any saved responses. */
  function Start(now: Time, responses: R.Table): World {
    World(now, [], responses, [])
  }

  predicate AdvancesMessage(w: World, e: Event) {
    (e.WriteReplies? && AdvancesReply(w.replies, e.op)) ||
    (e.WriteResponses? && AdvancesOriginal(w.responses, e.rop))
  }

  /** No event of the run replaces a bound message id. */
  predicate Steady(env: Env, w: World, events: seq<Event>)
    decreases |events|
  {
    events == [] || (!AdvancesMessage(w, events[0]) && Steady(env, Step(env, w, events[0]), events[1..]))
  }

  predicate Holds(t: Thread) { !t.phase.Preflight? }

  ghost predicate ThreadOk(replies: seq<Reply>, t: Thread) {
    Holds(t) ==> exists k :: 0 <= k < |replies| && replies[k].replyId == t.replyId && !Unclaimed(replies[k].status)
  }

  ghost predicate Inv(w: World) {
    && UniqueReplies(w.replies) && Shape(w.replies)
    && (forall t :: 0 <= t < |w.threads| ==> ThreadOk(w.replies, w.threads[t]))
    && (forall s, t :: 0 <= s < t < |w.threads| && Holds(w.threads[s]) && Holds(w.threads[t]) ==>
          w.threads[s].replyId != w.threads[t].replyId)
  }

  lemma WriteKeepsThreads(env: Env, w: World, op: Op)
    requires Inv(w)
    ensures forall t :: 0 <= t < |w.threads| ==> ThreadOk(Apply(env, w.replies, w.responses, op, w.now), w.threads[t])
  {
    var after := Apply(env, w.replies, w.responses, op, w.now);
    ApplyKeeps(env, w.replies, w.responses, op, w.now);
    forall t | 0 <= t < |w.threads| && Holds(w.threads[t]) ensures ThreadOk(after, w.threads[t]) {
      assert ThreadOk(w.replies, w.threads[t]);
      var k :| 0 <= k < |w.replies| && w.replies[k].replyId == w.threads[t].replyId && !Unclaimed(w.replies[k].status);
      assert after[k].replyId == w.threads[t].replyId && !Unclaimed(after[k].status);
    }
  }

  /** A successful claim is the table operation Claim on one row. */
  lemma ClaimIsWrite(env: Env, w: World, t: nat, deadline: Time)
    requires t < |w.threads|
    ensures UpdateOne(env, w.replies, Find(w.replies, w.threads[t].replyId), Claim(w.threads[t].owner, deadline), w.now)
              == Apply(env, w.replies, w.responses, One(w.threads[t].replyId, Claim(w.threads[t].owner, deadline)),
                       w.now)
  {
  }

  lemma ClaimKeepsInv(env: Env, w: World, t: nat, deadline: Time, admitted: bool)
    requires Inv(w)
    ensures Inv(Step(env, w, ClaimReply(t, deadline, admitted)))
  {
    var after := Step(env, w, ClaimReply(t, deadline, admitted));
    if after != w {
      var op := One(w.threads[t].replyId, Claim(w.threads[t].owner, deadline));
      var k := Find(w.replies, w.threads[t].replyId);
      ClaimIsWrite(env, w, t, deadline);
      UniqueIsKept(env, w.replies, w.responses, op, w.now);
      ShapeIsKept(env, w.replies, w.responses, op, w.now);
      WriteKeepsThreads(env, w, op);
      assert after.replies[k].replyId == w.threads[t].replyId && !Unclaimed(after.replies[k].status);
      forall s | 0 <= s < |w.threads| && s != t && Holds(w.threads[s])
        ensures w.threads[s].replyId != w.threads[t].replyId
      {
        assert ThreadOk(w.replies, w.threads[s]);
      }
    }
  }

  lemma StepKeepsInv(env: Env, w: World, e: Event)
    requires Inv(w)
    ensures Inv(Step(env, w, e))
  {
    match e
    case WriteReplies(op) =>
      UniqueIsKept(env, w.replies, w.responses, op, w.now);
      ShapeIsKept(env, w.replies, w.responses, op, w.now);
      WriteKeepsThreads(env, w, op);
    case ClaimReply(t, deadline, admitted) => ClaimKeepsInv(env, w, t, deadline, admitted);
    case _ =>
  }

  lemma {:induction false} RunKeepsInv(env: Env, w: World, events: seq<Event>)
    requires Inv(w)
    ensures Inv(Run(env, w, events))
    decreases |events|
  {
    if events != [] {
      StepKeepsInv(env, w, events[0]);
      RunKeepsInv(env, Step(env, w, events[0]), events[1..]);
    }
  }

  lemma StepKeepsChain(env: Env, w: World, e: Event)
    requires Inv(w) && Chain(w.replies, w.responses) && !AdvancesMessage(w, e)
    ensures Chain(Step(env, w, e).replies, Step(env, w, e).responses)
  {
    match e
    case WriteReplies(op) => ChainIsKept(env, w.replies, w.responses, op, w.now);
    case WriteResponses(op) => ResponsesKeepChain(env, w.replies, w.responses, op, w.now);
    case ClaimReply(t, deadline, admitted) =>
      if Step(env, w, e) != w {
        ClaimIsWrite(env, w, t, deadline);
        ChainIsKept(env, w.replies, w.responses, One(w.threads[t].replyId, Claim(w.threads[t].owner, deadline)), w.now);
      }
    case _ =>
  }

  lemma {:induction false} RunKeepsChain(env: Env, w: World, events: seq<Event>)
    requires Inv(w) && Chain(w.replies, w.responses) && Steady(env, w, events)
    ensures Chain(Run(env, w, events).replies, Run(env, w, events).responses)
    decreases |events|
  {
    if events != [] {
      StepKeepsChain(env, w, events[0]);
      StepKeepsInv(env, w, events[0]);
      RunKeepsChain(env, Step(env, w, events[0]), events[1..]);
    }
  }

  // ---------------------------------------------------------------- main results

  /** In every reachable state a chat is settled turns, then at most one unsettled turn, then queued ones. */
  lemma BranchShape(env: Env, now: Time, responses: R.Table, events: seq<Event>)
    ensures Shape(Run(env, Start(now, responses), events).replies)
    ensures UniqueReplies(Run(env, Start(now, responses), events).replies)
  {
    RunKeepsInv(env, Start(now, responses), events);
  }

  /** One reply of a chat is in flight at a time: two turns that have left the queue and are not settled
      are the same row. */
  lemma OneInFlight(env: Env, now: Time, responses: R.Table, events: seq<Event>, i: nat, j: nat)
    requires var rows := Run(env, Start(now, responses), events).replies;
             i < |rows| && j < |rows| && SameChat(rows[i], rows[j]) &&
             Turn(rows[i]) && !rows[i].status.Queued? && !Settled(rows[i]) &&
             Turn(rows[j]) && !rows[j].status.Queued? && !Settled(rows[j])
    ensures i == j
  {
    BranchShape(env, now, responses, events);
  }

  /** Whatever the state, the worker binds only the first waiting turn of a chat whose earlier turns are all
      settled and attached in order, to the message of the last of them. */
  lemma BindsTheTip(replies: seq<Reply>, responses: R.Table, exclude: set<string>, at: Time, i: nat)
    requires i < |replies| && BindNextIn(replies, responses, exclude, at)[i] != replies[i]
    requires |BindNextIn(replies, responses, exclude, at)| == |replies|
    ensures var after := BindNextIn(replies, responses, exclude, at)[i];
            var send := replies[i].sendId;
            replies[i].status.Queued? && replies[i].queuedByUser && Anchored(responses, send) &&
            after.status.Prepared? && after.conversationId == responses[send].conversationId &&
            after.parentId == PreviousMessage(replies, i, send, responses[send].messageId) &&
            forall k :: 0 <= k < i && replies[k].sendId == send && Turn(replies[k]) ==>
              Settled(replies[k]) && Attached(replies, k, responses[send].conversationId, responses[send].messageId)
  {
    BoundIsReady(replies, responses, exclude);
  }

  /** No reply id is ever claimed, hence clicked, by two executions. */
  lemma NeverClickedTwice(env: Env, now: Time, responses: R.Table, events: seq<Event>, s: nat, t: nat)
    requires var w := Run(env, Start(now, responses), events);
             s < |w.threads| && t < |w.threads| && Holds(w.threads[s]) && Holds(w.threads[t]) &&
             w.threads[s].replyId == w.threads[t].replyId
    ensures s == t
  {
    RunKeepsInv(env, Start(now, responses), events);
  }

  /** Unless a verified turn replaced a bound message id, every bound reply of every reachable state answers
      the message of its predecessor, or of the original, and shares the original's conversation. */
  lemma ParentChain(env: Env, now: Time, responses: R.Table, events: seq<Event>, j: nat)
    requires Steady(env, Start(now, responses), events)
    requires var rows := Run(env, Start(now, responses), events).replies;
             j < |rows| && Turn(rows[j]) && !rows[j].status.Queued?
    ensures var w := Run(env, Start(now, responses), events);
            var send := w.replies[j].sendId;
            send in w.responses && w.responses[send].messageId != "" &&
            w.replies[j].conversationId == w.responses[send].conversationId != "" &&
            w.replies[j].parentId == PreviousMessage(w.replies, j, send, w.responses[send].messageId)
  {
    RunKeepsChain(env, Start(now, responses), events);
    var w := Run(env, Start(now, responses), events);
    assert Chained(w.replies, w.responses, j);
  }
}
