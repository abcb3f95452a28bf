/** The visible answer over whole runs: no operation on a saved response or reply ever shortens it. */
module AnswerGrowth {
  import opened Tables
  import opened DisplayBlocks
  import opened BlockMerge
  import opened Captures
  import P = Replies
  import PR = ReplyRuns
  import R = Responses
  import VT = VisibleText
  import AW = AnswerWriters

  function Shown(env: Env, s: Saved): nat { |env.visible(s)| }

  function NoAnswer(): Saved { Saved("", Items([])) }

  // ---------------------------------------------------------------- responses

  /** Nothing is captured, bound or answered before the first acceptance. */
  predicate Receipted(r: R.Response) {
    && R.OwnerShape(r) && (R.Capturing(r.status) ==> r.acceptedAt > 0.0)
    && (r.acceptedAt == 0.0 ==> r.saved == NoAnswer() && r.conversationId == "")
  }

  /** A row kept by this code: a current answer, and none before the first acceptance. */
  ghost predicate Kept(sim: Similarity, r: R.Response) {
    VT.Current(sim, r.saved) && Receipted(r)
  }

  lemma ObservedIsCurrent(sim: Similarity, c: Capture)
    requires TieSymmetric(sim)
    ensures VT.Current(sim, Saved(Take(c.text, MAX_CHARS), MergeBlocks(sim, Items([]), c.displayBlocks)))
  {
    if c.displayBlocks == [] {
      VT.EmptyRowIsCurrent(sim);
    } else {
      MergeResult(sim, Items([]), c.displayBlocks);
      var out := Normalize(sim, MergeBlocks(sim, Items([]), c.displayBlocks));
      assert Canonical(sim, out) && MergeBlocks(sim, Items([]), c.displayBlocks) == Items(ToRaws(out));
    }
  }

  lemma StaysReceipted(env: Env, r: R.Response, op: R.RowOp, at: Time)
    requires Receipted(r) && at > 0.0
    ensures Receipted(R.ApplyRow(env, r, op, at))
  {
  }

  lemma EmptyShowsNothing(env: Env, sim: Similarity)
    requires VT.Faithful(env, sim)
    ensures Shown(env, NoAnswer()) == 0
  {
    VT.VisibleBound(sim, NoAnswer());
  }

  lemma ResponseGrows(env: Env, sim: Similarity, r: R.Response, op: R.RowOp, at: Time)
    requires VT.Faithful(env, sim) && TieSymmetric(sim) && Kept(sim, r) && at > 0.0
    ensures Kept(sim, R.ApplyRow(env, r, op, at))
    ensures Shown(env, R.ApplyRow(env, r, op, at).saved) >= Shown(env, r.saved)
  {
    var after := R.ApplyRow(env, r, op, at);
    StaysReceipted(env, r, op, at);
    R.AnswerFollowsWriters(env, r, op, at);
    if after.saved != r.saved {
      if op.AcceptObserved? {
        ObservedIsCurrent(sim, op.capture);
        EmptyShowsNothing(env, sim);
      } else {
        VT.ApplyKeepsCurrent(env, sim, r.saved, if op.Write? then AW.Write else AW.RecoverResponse, op.capture);
      }
    }
  }

  lemma NewResponseIsKept(sim: Similarity, userText: string, jobName: string, at: Time)
    ensures Kept(sim, R.NewResponse(userText, jobName, at))
  {
    VT.EmptyRowIsCurrent(sim);
  }

  ghost predicate AllKept(sim: Similarity, rows: R.Table) {
    forall id :: id in rows ==> Kept(sim, rows[id])
  }

  ghost predicate Grew(env: Env, rows: R.Table, after: R.Table) {
    forall id :: id in rows ==> id in after && Shown(env, after[id].saved) >= Shown(env, rows[id].saved)
  }

  lemma ApplyGrows(env: Env, sim: Similarity, rows: R.Table, op: R.Op, at: Time)
    requires VT.Faithful(env, sim) && TieSymmetric(sim) && AllKept(sim, rows) && at > 0.0
    ensures AllKept(sim, R.Apply(env, rows, op, at)) && Grew(env, rows, R.Apply(env, rows, op, at))
  {
    var after := R.Apply(env, rows, op, at);
    forall id | id in rows
      ensures id in after && Kept(sim, after[id]) && Shown(env, after[id].saved) >= Shown(env, rows[id].saved)
    {
      R.ApplyIsPointwise(env, rows, op, at, id);
      if R.OpFor(op, id).Some? {
        ResponseGrows(env, sim, rows[id], R.OpFor(op, id).value, at);
      }
    }
    forall id | id in after && id !in rows ensures Kept(sim, after[id]) {
      R.NewRowsAreQueued(env, rows, op, at, id);
      NewResponseIsKept(sim, op.userText, op.jobName, at);
    }
  }

  /** Over any run of the response operations, from any rows this code has kept, no visible answer ever gets
      shorter. */
  lemma {:induction false} ResponsesNeverShrink(env: Env, sim: Similarity, rows: R.Table, events: seq<R.Event>)
    requires VT.Faithful(env, sim) && TieSymmetric(sim) && AllKept(sim, rows) && forall i :: 0 <= i < |events| ==>
               events[i].at > 0.0
    ensures AllKept(sim, R.Run(env, rows, events)) && Grew(env, rows, R.Run(env, rows, events))
    decreases |events|
  {
    if events != [] {
      var next := R.Apply(env, rows, events[0].op, events[0].at);
      ApplyGrows(env, sim, rows, events[0].op, events[0].at);
      ResponsesNeverShrink(env, sim, next, events[1..]);
      forall id | id in rows
        ensures id in R.Run(env, rows, events) &&
                Shown(env, R.Run(env, rows, events)[id].saved) >= Shown(env, rows[id].saved)
      {
        assert id in next;
      }
    }
  }

  // ---------------------------------------------------------------- replies

  /** The writer a reply operation amounts to. */
  function WriterOf(op: P.RowOp): Option<(AW.Writer, Capture)> {
    match op
    case Observe(_, c) => Some((AW.Observe, c))
    case ObserveTools(_, c) => Some((AW.ObserveTools, c))
    case RecoverHistorical(c, _) => Some((AW.RecoverReply, c))
    case _ => None
  }

  lemma ReplyFollowsWriters(env: Env, r: P.Reply, op: P.RowOp, at: Time)
    ensures var after := P.ApplyRow(env, r, op, at);
            after.saved == r.saved ||
            (WriterOf(op).Some? && after.saved == AW.Apply(env, r.saved, WriterOf(op).value.0, WriterOf(op).value.1))
  {
  }

  lemma ReplyGrows(env: Env, sim: Similarity, r: P.Reply, op: P.RowOp, at: Time)
    requires VT.Faithful(env, sim) && TieSymmetric(sim) && VT.Current(sim, r.saved)
    ensures VT.Current(sim, P.ApplyRow(env, r, op, at).saved)
    ensures Shown(env, P.ApplyRow(env, r, op, at).saved) >= Shown(env, r.saved)
  {
    ReplyFollowsWriters(env, r, op, at);
    if WriterOf(op).Some? {
      VT.ApplyKeepsCurrent(env, sim, r.saved, WriterOf(op).value.0, WriterOf(op).value.1);
    }
  }

  ghost predicate ReplyGrew(env: Env, sim: Similarity, r: P.Reply, after: P.Reply) {
    VT.Current(sim, after.saved) && Shown(env, after.saved) >= Shown(env, r.saved)
  }

  ghost predicate AllCurrent(sim: Similarity, replies: seq<P.Reply>) {
    forall i :: 0 <= i < |replies| ==> VT.Current(sim, replies[i].saved)
  }

  lemma UpdateGrows(env: Env, sim: Similarity, replies: seq<P.Reply>, k: nat, op: P.RowOp, at: Time, i: nat)
    requires VT.Faithful(env, sim) && TieSymmetric(sim) && AllCurrent(sim, replies) && i < |replies|
    ensures ReplyGrew(env, sim, replies[i], P.UpdateOne(env, replies, k, op, at)[i])
  {
    if k == i {
      ReplyGrows(env, sim, replies[i], op, at);
    }
  }

  /** Operations on one row; the others leave every saved answer as it is. */
  predicate OnOneRow(op: P.Op) { op.One? || op.RecoverReply? || op.RecoverTip? }

  lemma OthersKeepAnswers(env: Env, replies: seq<P.Reply>, responses: R.Table, op: P.Op, at: Time, i: nat)
    requires i < |replies| && !OnOneRow(op) && i < |P.Apply(env, replies, responses, op, at)|
    ensures P.Apply(env, replies, responses, op, at)[i].saved == replies[i].saved
  {
  }

  lemma RowGrows(env: Env, sim: Similarity, replies: seq<P.Reply>, responses: R.Table, op: P.Op, at: Time, i: nat)
    requires VT.Faithful(env, sim) && TieSymmetric(sim) && AllCurrent(sim, replies) && i < |replies| &&
             i < |P.Apply(env, replies, responses, op, at)|
    ensures ReplyGrew(env, sim, replies[i], P.Apply(env, replies, responses, op, at)[i])
  {
    match op
    case One(replyId, rowOp) =>
      if !(rowOp.RecoverHistorical? || rowOp.BindParent? || rowOp.Stop?) {
        UpdateGrows(env, sim, replies, P.Find(replies, replyId), rowOp, at, i);
      }
    case RecoverReply(replyId, c) =>
      var k := P.Find(replies, replyId);
      UpdateGrows(env, sim, replies, k,
                  P.RecoverHistorical(c, k < |replies| && P.VerifiedParent(replies, responses, replies[k])), at, i);
    case RecoverTip(send, replyId, conversation, previousParent, userText, answer, messageId) =>
      var k := P.Find(replies, replyId);
      UpdateGrows(env, sim, replies, k,
        P.BindParent(messageId,
                     P.VerifiedTip(replies, responses, send, k, conversation, previousParent, userText, answer,
                                   messageId)), at, i);
    case _ => OthersKeepAnswers(env, replies, responses, op, at, i);
  }

  lemma NewReplyIsEmpty(env: Env, replies: seq<P.Reply>, responses: R.Table, op: P.Op, at: Time)
    requires |P.Apply(env, replies, responses, op, at)| > |replies|
    ensures P.Apply(env, replies, responses, op, at)[|replies|].saved == NoAnswer()
  {
  }

  ghost predicate TableGrew(env: Env, sim: Similarity, replies: seq<P.Reply>, after: seq<P.Reply>) {
    |replies| <= |after| && AllCurrent(sim, after) && forall i :: 0 <= i < |replies| ==>
      ReplyGrew(env, sim, replies[i], after[i])
  }

  lemma AllRowsGrew(env: Env, sim: Similarity, replies: seq<P.Reply>, after: seq<P.Reply>)
    requires |replies| <= |after| <= |replies| + 1
    requires forall i :: 0 <= i < |replies| ==> ReplyGrew(env, sim, replies[i], after[i])
    requires |after| > |replies| ==> VT.Current(sim, after[|replies|].saved)
    ensures TableGrew(env, sim, replies, after)
  {
  }

  lemma NewRowsAreCurrent(env: Env, sim: Similarity, replies: seq<P.Reply>, responses: R.Table, op: P.Op, at: Time)
    ensures |P.Apply(env, replies, responses, op, at)| > |replies| ==>
              VT.Current(sim, P.Apply(env, replies, responses, op, at)[|replies|].saved)
  {
    VT.EmptyRowIsCurrent(sim);
    if |P.Apply(env, replies, responses, op, at)| > |replies| {
      NewReplyIsEmpty(env, replies, responses, op, at);
    }
  }

  lemma ReplyTableGrows(env: Env, sim: Similarity, replies: seq<P.Reply>, responses: R.Table, op: P.Op, at: Time)
    requires VT.Faithful(env, sim) && TieSymmetric(sim) && AllCurrent(sim, replies)
    ensures TableGrew(env, sim, replies, P.Apply(env, replies, responses, op, at))
  {
    PR.ApplyKeeps(env, replies, responses, op, at);
    var after := P.Apply(env, replies, responses, op, at);
    forall i | 0 <= i < |replies| ensures ReplyGrew(env, sim, replies[i], after[i]) {
      RowGrows(env, sim, replies, responses, op, at, i);
    }
    NewRowsAreCurrent(env, sim, replies, responses, op, at);
    AllRowsGrew(env, sim, replies, after);
  }

  datatype ReplyEvent = ReplyEvent(op: P.Op, responses: R.Table, at: Time)

  function RunReplies(env: Env, replies: seq<P.Reply>, events: seq<ReplyEvent>): seq<P.Reply>
    decreases |events|
  {
    if events == [] then replies
    else RunReplies(env, P.Apply(env, replies, events[0].responses, events[0].op, events[0].at), events[1..])
  }

  lemma GrowthChains(env: Env, sim: Similarity, a: seq<P.Reply>, b: seq<P.Reply>, c: seq<P.Reply>)
    requires TableGrew(env, sim, a, b) && TableGrew(env, sim, b, c)
    ensures TableGrew(env, sim, a, c)
  {
    forall i | 0 <= i < |a| ensures ReplyGrew(env, sim, a[i], c[i]) {
      assert ReplyGrew(env, sim, a[i], b[i]) && ReplyGrew(env, sim, b[i], c[i]);
    }
  }

  /** Over any run of the reply operations, whatever the responses do meanwhile, no reply's visible answer
      ever gets shorter. */
  lemma {:induction false} RepliesNeverShrink(env: Env, sim: Similarity, replies: seq<P.Reply>, events: seq<ReplyEvent>)
    requires VT.Faithful(env, sim) && TieSymmetric(sim) && AllCurrent(sim, replies)
    ensures TableGrew(env, sim, replies, RunReplies(env, replies, events))
    decreases |events|
  {
    if events != [] {
      var e := events[0];
      var next := P.Apply(env, replies, e.responses, e.op, e.at);
      ReplyTableGrows(env, sim, replies, e.responses, e.op, e.at);
      RepliesNeverShrink(env, sim, next, events[1..]);
      GrowthChains(env, sim, replies, next, RunReplies(env, next, events[1..]));
    }
  }
}
