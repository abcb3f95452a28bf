/** The closing transaction of a stop: what it ends, what no later event can undo, and the slots it frees. */
module StoppedChats {
  import opened Tables
  import opened Captures
  import opened Replies
  import R = Responses
  import Runs = ReplyRuns
  import F = Fleet

  /** Statuses a stopped chat leaves behind for good. */
  predicate Ended(s: Status) { s.Completed? || s.Stopped? || s.Cancelled? || s.Merged? }

  /** What a stop makes of one reply: a waiting one is withdrawn, an unfinished one is stopped. */
  predicate StoppedAs(was: Status, now: Status) {
    if was.Queued? || was.Prepared? then now.Cancelled?
    else if Ended(was) || was.PreflightFailed? then now == was
    else now.Stopped?
  }

  /** The part of a row a stop protects. */
  ghost predicate Frozen(r: Reply, after: Reply) {
    after.sendId == r.sendId && after.status == r.status && after.saved == r.saved && after.tools == r.tools
  }

  lemma EndedRowStays(env: Env, r: Reply, op: RowOp, at: Time)
    requires Ended(r.status)
    ensures Frozen(r, ApplyRow(env, r, op, at))
  {
  }

  lemma SweepFreezes(env: Env, replies: seq<Reply>, responses: R.Table, op: Op, at: Time, i: nat)
    requires i < |replies| && Ended(replies[i].status) && (op.StopChat? || op.RecoverOrphans? || op.DetachAll?)
    ensures |Apply(env, replies, responses, op, at)| == |replies|
    ensures Frozen(replies[i], Apply(env, replies, responses, op, at)[i])
  {
    var rowOp := match op case RecoverOrphans(dead) => RecoverOrphan(dead) case DetachAll(_) => Detach case _ => Stop;
    EndedRowStays(env, replies[i], rowOp, at);
  }

  lemma UpdateFreezes(env: Env, replies: seq<Reply>, k: nat, op: RowOp, at: Time, i: nat)
    requires i < |replies| && Ended(replies[i].status)
    ensures |UpdateOne(env, replies, k, op, at)| == |replies|
    ensures Frozen(replies[i], UpdateOne(env, replies, k, op, at)[i])
  {
    if k == i {
      EndedRowStays(env, replies[i], op, at);
    }
  }

  lemma InsertFreezes(env: Env, replies: seq<Reply>, responses: R.Table, op: Op, at: Time, i: nat)
    requires i < |replies| && Ended(replies[i].status)
    requires op.Prepare? || op.QueueExplicit? || op.Followup? || op.Merge? || op.BindNext?
    ensures |Apply(env, replies, responses, op, at)| >= |replies|
    ensures Frozen(replies[i], Apply(env, replies, responses, op, at)[i])
  {
    if op.QueueExplicit? {
      var prepared := PrepareAll(replies, responses, op.send, op.intent, at);
      var k := Find(prepared, op.intent.replyId);
      UpdateFreezes(env, prepared, k, Rearm, at, i);
      UpdateFreezes(env, UpdateOne(env, prepared, k, Rearm, at), k, Authorize, at, i);
    }
  }

  lemma EndedStays(env: Env, replies: seq<Reply>, responses: R.Table, op: Op, at: Time, i: nat)
    requires i < |replies| && Ended(replies[i].status)
    ensures |Apply(env, replies, responses, op, at)| >= |replies|
    ensures Frozen(replies[i], Apply(env, replies, responses, op, at)[i])
  {
    match op
    case One(replyId, rowOp) => UpdateFreezes(env, replies, Find(replies, replyId), rowOp, at, i);
    case RecoverReply(replyId, c) =>
      var k := Find(replies, replyId);
      UpdateFreezes(env, replies, k,
                    RecoverHistorical(c, k < |replies| && VerifiedParent(replies, responses, replies[k])), at, i);
    case RecoverTip(send, replyId, conversation, previousParent, userText, answer, messageId) =>
      var k := Find(replies, replyId);
      UpdateFreezes(env, replies, k,
        BindParent(messageId, VerifiedTip(replies, responses, send, k, conversation, previousParent, userText, answer,
                                          messageId)), at, i);
    case StopChat(_) => SweepFreezes(env, replies, responses, op, at, i);
    case RecoverOrphans(_) => SweepFreezes(env, replies, responses, op, at, i);
    case DetachAll(_) => SweepFreezes(env, replies, responses, op, at, i);
    case _ => InsertFreezes(env, replies, responses, op, at, i);
  }

  lemma StepFreezes(env: Env, w: Runs.World, e: Runs.Event, i: nat)
    requires i < |w.replies| && Ended(w.replies[i].status)
    ensures |Runs.Step(env, w, e).replies| >= |w.replies|
    ensures Frozen(w.replies[i], Runs.Step(env, w, e).replies[i])
  {
    match e
    case WriteReplies(op) => EndedStays(env, w.replies, w.responses, op, w.now, i);
    case ClaimReply(t, deadline, admitted) =>
      if t < |w.threads| {
        UpdateFreezes(env, w.replies, Find(w.replies, w.threads[t].replyId), Claim(w.threads[t].owner, deadline),
                      w.now, i);
      }
    case _ =>
  }

  lemma {:induction false} RunFreezes(env: Env, w: Runs.World, events: seq<Runs.Event>, i: nat)
    requires i < |w.replies| && Ended(w.replies[i].status)
    ensures |Runs.Run(env, w, events).replies| >= |w.replies|
    ensures Frozen(w.replies[i], Runs.Run(env, w, events).replies[i])
    decreases |events|
  {
    if events != [] {
      StepFreezes(env, w, events[0], i);
      RunFreezes(env, Runs.Step(env, w, events[0]), events[1..], i);
    }
  }

  // ---------------------------------------------------------------- main results

  /** After a chat is stopped, whatever runs later, whoever still holds a lease and whatever a page shows: a
      reply that was waiting stays withdrawn, one that was unfinished stays stopped, and neither status nor
      answer of the chat's replies changes again. */
  lemma StopIsFinal(env: Env, w: Runs.World, send: string, events: seq<Runs.Event>, i: nat)
    requires i < |w.replies| && w.replies[i].sendId == send && !w.replies[i].status.PreflightFailed?
    ensures var later := Runs.Run(env, Runs.Step(env, w, Runs.WriteReplies(StopChat(send))), events).replies;
            i < |later| && StoppedAs(w.replies[i].status, later[i].status) &&
            later[i].saved == w.replies[i].saved && later[i].tools == w.replies[i].tools
  {
    var stopped := Runs.Step(env, w, Runs.WriteReplies(StopChat(send)));
    assert stopped.replies[i] == StopRow(w.replies[i], w.now);
    RunFreezes(env, stopped, events, i);
  }

  ghost predicate Dispatched(w: Runs.World, i: nat) {
    i < |w.replies| && w.replies[i].status.Dispatching?
  }

  /** These events dispatch the reply at place i. */
  ghost predicate Dispatches(env: Env, w: Runs.World, events: seq<Runs.Event>, i: nat) {
    Dispatched(Runs.Run(env, w, events), i)
  }

  lemma RunOne(env: Env, w: Runs.World, e: Runs.Event, rest: seq<Runs.Event>)
    ensures Runs.Run(env, w, [e] + rest) == Runs.Run(env, Runs.Step(env, w, e), rest)
  {
    assert ([e] + rest)[1..] == rest;
  }

  lemma FindUnique(replies: seq<Reply>, i: nat)
    requires Runs.UniqueReplies(replies) && i < |replies|
    ensures Find(replies, replies[i].replyId) == i
  {
    var k := Find(replies, replies[i].replyId);
    assert k <= i;
  }

  /** An explicit click on a reply whose preflight failed rearms and authorizes it. */
  lemma ClickRearms(env: Env, replies: seq<Reply>, responses: R.Table, i: nat, at: Time)
    requires Runs.UniqueReplies(replies) && i < |replies| && replies[i].status.PreflightFailed?
    ensures var r := replies[i];
            var click := QueueExplicit(r.sendId, Intent(r.replyId, r.conversationId, r.parentId, r.userText));
            var after := Apply(env, replies, responses, click, at);
            |after| == |replies| && Runs.UniqueReplies(after) && after[i].replyId == r.replyId &&
            after[i].status.Prepared?
  {
    FindUnique(replies, i);
  }

  lemma ClaimDispatches(env: Env, w: Runs.World, i: nat)
    requires Runs.UniqueReplies(w.replies) && i < |w.replies| && w.replies[i].status.Prepared?
    ensures var launched := Runs.Step(env, w, Runs.Launch(w.replies[i].replyId, "tab"));
            Dispatched(Runs.Step(env, launched, Runs.ClaimReply(|w.threads|, w.now + 1.0, true)), i)
  {
    FindUnique(w.replies, i);
  }

  /** Three events that dispatch a reply whose preflight failed, also after a stop. */
  lemma Resumes(env: Env, w: Runs.World, i: nat) returns (events: seq<Runs.Event>)
    requires Runs.UniqueReplies(w.replies) && i < |w.replies| && w.replies[i].status.PreflightFailed?
    ensures Dispatched(Runs.Run(env, w, events), i)
  {
    var r := w.replies[i];
    var click := Runs.WriteReplies(QueueExplicit(r.sendId,
                                                 Intent(r.replyId, r.conversationId, r.parentId, r.userText)));
    var w1 := Runs.Step(env, w, click);
    ClickRearms(env, w.replies, w.responses, i, w.now);
    var launch, claim := Runs.Launch(r.replyId, "tab"), Runs.ClaimReply(|w.threads|, w.now + 1.0, true);
    ClaimDispatches(env, w1, i);
    events := [click] + ([launch] + ([claim] + []));
    RunOne(env, w, click, [launch] + ([claim] + []));
    RunOne(env, w1, launch, [claim] + []);
    RunOne(env, Runs.Step(env, w1, launch), claim, []);
  }

  lemma StopKeepsUnique(env: Env, w: Runs.World, send: string)
    requires Runs.UniqueReplies(w.replies)
    ensures Runs.UniqueReplies(Runs.Step(env, w, Runs.WriteReplies(StopChat(send))).replies)
  {
    Runs.UniqueIsKept(env, w.replies, w.responses, StopChat(send), w.now);
  }

  /** The exception to finality: after a stop, some continuation dispatches a reply of the chat exactly when its
      preflight had failed, for a stop leaves such a reply alone. */
  lemma ResumesIff(env: Env, w: Runs.World, send: string, i: nat)
    requires Runs.UniqueReplies(w.replies) && i < |w.replies| && w.replies[i].sendId == send
    ensures var stopped := Runs.Step(env, w, Runs.WriteReplies(StopChat(send)));
            (exists events :: Dispatches(env, stopped, events, i)) <==> w.replies[i].status.PreflightFailed?
  {
    var stopped := Runs.Step(env, w, Runs.WriteReplies(StopChat(send)));
    assert stopped.replies[i] == StopRow(w.replies[i], w.now);
    if w.replies[i].status.PreflightFailed? {
      StopKeepsUnique(env, w, send);
      var events := Resumes(env, stopped, i);
      assert Dispatches(env, stopped, events, i);
    } else {
      forall events ensures !Dispatches(env, stopped, events, i) {
        StopIsFinal(env, w, send, events, i);
      }
    }
  }

  // ---------------------------------------------------------------- the original of a stopped chat

  /** No writer brings a response from here back into capture. */
  predicate Closed(r: R.Response) {
    R.Final(r.status) || (r.status.Partial? && r.owner == "")
  }

  lemma ClosedRowStays(env: Env, r: R.Response, op: R.RowOp, at: Time)
    requires Closed(r)
    ensures Closed(R.ApplyRow(env, r, op, at))
  {
  }

  lemma {:induction false} ClosedStays(env: Env, rows: R.Table, events: seq<R.Event>, send: string)
    requires send in rows && Closed(rows[send])
    ensures send in R.Run(env, rows, events) && Closed(R.Run(env, rows, events)[send])
    decreases |events|
  {
    if events != [] {
      var e := events[0];
      R.ApplyIsPointwise(env, rows, e.op, e.at, send);
      if R.OpFor(e.op, send).Some? {
        ClosedRowStays(env, rows[send], R.OpFor(e.op, send).value, e.at);
      }
      ClosedStays(env, R.Apply(env, rows, e.op, e.at), events[1..], send);
    }
  }

  /** These events bring the response into capture. */
  ghost predicate Recaptures(env: Env, rows: R.Table, events: seq<R.Event>, send: string) {
    var after := R.Run(env, rows, events);
    send in after && R.Capturing(after[send].status)
  }

  lemma AcceptCaptures(env: Env, rows: R.Table, send: string)
    requires send in rows && rows[send].status.OutcomeUnknown?
    ensures Recaptures(env, rows, [R.Event(R.One(send, R.Accept("tab", 2.0)), 1.0)], send)
  {
    var e := R.Event(R.One(send, R.Accept("tab", 2.0)), 1.0);
    assert [e][1..] == [];
    assert R.Run(env, rows, [e]) == R.Apply(env, rows, e.op, e.at);
  }

  /** After a stop, some continuation captures the chat's original answer exactly when its outcome was unknown, for
      a stop leaves such a response alone and the store still accepts it. */
  lemma CaptureResumesIff(env: Env, rows: R.Table, send: string, at: Time)
    requires send in rows && R.OwnerShape(rows[send])
    ensures var stopped := R.Apply(env, rows, R.One(send, R.Stop), at);
            (exists events :: Recaptures(env, stopped, events, send)) <==> rows[send].status.OutcomeUnknown?
  {
    var stopped := R.Apply(env, rows, R.One(send, R.Stop), at);
    assert stopped[send] == R.StopRow(rows[send], at);
    if rows[send].status.OutcomeUnknown? {
      AcceptCaptures(env, stopped, send);
    } else {
      forall events ensures !Recaptures(env, stopped, events, send) {
        ClosedStays(env, stopped, events, send);
      }
    }
  }

  /** Status partial is counted as a capture but not stopped; no writer assigns it. */
  lemma NoWriterAssignsPartial(env: Env, r: R.Response, op: R.RowOp, at: Time)
    requires !r.status.Partial?
    ensures !R.ApplyRow(env, r, op, at).status.Partial?
  {
  }

  lemma StopEndsCapture(env: Env, responses: R.Table, send: string, at: Time)
    requires send in responses ==> !responses[send].status.Partial?
    ensures F.CaptureIds(R.Apply(env, responses, R.One(send, R.Stop), at), at) == F.CaptureIds(responses, at) - {send}
  {
  }

  lemma StopEndsReplies(env: Env, replies: seq<Reply>, responses: R.Table, send: string, at: Time)
    ensures F.ReplyIds(Apply(env, replies, responses, StopChat(send), at), at) == F.ReplyIds(replies, at) - {send}
  {
    var after := Apply(env, replies, responses, StopChat(send), at);
    forall id | id in F.ReplyIds(replies, at) && id != send ensures id in F.ReplyIds(after, at) {
      var i :| 0 <= i < |replies| && F.LiveReply(replies[i], at) && replies[i].sendId == id;
      assert after[i] == replies[i];
    }
  }

  /** A stopped chat gives back its slot, and no other chat's. */
  lemma StopFreesItsSlot(env: Env, w: F.World, send: string)
    requires send in w.responses ==> !w.responses[send].status.Partial?
    ensures var half := F.Step(env, w, F.Respond(R.One(send, R.Stop)));
            F.CapturedIds(F.Step(env, half, F.Reply(StopChat(send)))) == F.CapturedIds(w) - {send}
  {
    var half := F.Step(env, w, F.Respond(R.One(send, R.Stop)));
    StopEndsCapture(env, w.responses, send, w.now);
    StopEndsReplies(env, w.replies, half.responses, send, w.now);
  }
}
