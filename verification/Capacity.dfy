/** The shared concurrency cap over every run, and exactly which steps can pass it. */
module Capacity {
  import opened Tables
  import opened Captures
  import opened Fleet
  import Q = DeliveryQueue
  import R = Responses
  import P = Replies

  // ---------------------------------------------------------------- where a new slot can come from

  /** Starting a capture for a delivery that no longer runs: its lease was swept before the receipt came. */
  predicate LateAcceptance(w: World, e: Event) {
    e.Respond? && e.rop.One? && (e.rop.op.Accept? || e.rop.op.AcceptObserved?) && e.rop.id !in Q.RunningIds(w.rows)
  }

  /** Historical progress on a capture whose deadline has already passed. */
  predicate RevivesResponse(w: World, e: Event) {
    e.Respond? && e.rop.One? && e.rop.op.RecoverHistorical? && e.rop.id in w.responses &&
    R.Capturing(w.responses[e.rop.id].status) && w.responses[e.rop.id].deadline <= w.now
  }

  predicate RevivesReply(w: World, e: Event) {
    e.Reply? && e.pop.RecoverReply? &&
    var k := P.Find(w.replies, e.pop.replyId);
    k < |w.replies| && P.InFlight(w.replies[k].status) && w.replies[k].deadline <= w.now
  }

  predicate Unguarded(w: World, e: Event) {
    LateAcceptance(w, e) || RevivesResponse(w, e) || RevivesReply(w, e)
  }

  lemma ResponseStaysLive(env: Env, r: R.Response, op: R.RowOp, at: Time)
    requires LiveCapture(R.ApplyRow(env, r, op, at), at) && !op.Accept? && !op.AcceptObserved?
    requires op.RecoverHistorical? ==> !(R.Capturing(r.status) && r.deadline <= at)
    ensures LiveCapture(r, at)
  {
  }

  lemma ReplyStaysLive(env: Env, r: P.Reply, op: P.RowOp, at: Time)
    requires LiveReply(P.ApplyRow(env, r, op, at), at) && !op.Claim?
    requires op.RecoverHistorical? ==> !(P.InFlight(r.status) && r.deadline <= at)
    ensures LiveReply(r, at)
  {
  }

  /** Response writers open no slot beyond those of running deliveries. */
  lemma RespondOpensNothing(env: Env, w: World, op: R.Op)
    requires !Unguarded(w, Respond(op))
    ensures Active(w.(responses := R.Apply(env, w.responses, op, w.now))) <= Active(w)
  {
    var after := w.(responses := R.Apply(env, w.responses, op, w.now));
    forall id | id in CaptureIds(after.responses, w.now) ensures id in Active(w) {
      if id in w.responses {
        R.ApplyIsPointwise(env, w.responses, op, w.now, id);
        var rowOp := R.OpFor(op, id);
        if rowOp.Some? && !rowOp.value.Accept? && !rowOp.value.AcceptObserved? {
          ResponseStaysLive(env, w.responses[id], rowOp.value, w.now);
        }
      } else {
        R.NewRowsAreQueued(env, w.responses, op, w.now, id);
      }
    }
  }

  lemma QueueOpensNothing(rows: seq<Q.Delivery>, at: Time, op: Q.Op)
    requires !op.ClaimNext?
    ensures Q.RunningIds(Q.Apply(rows, at, op)) <= Q.RunningIds(rows)
  {
  }

  lemma ClaimOpensOne(rows: seq<Q.Delivery>, at: Time, owner: string, lease: Time, captures: set<string>,
                      maxActive: int)
    ensures var after := Q.Claim(rows, at, owner, lease, captures, Some(maxActive));
            |Q.RunningIds(after) + captures| <= |Q.RunningIds(rows) + captures| ||
            |Q.RunningIds(after) + captures| <= maxActive
  {
    var after := Q.Claim(rows, at, owner, lease, captures, Some(maxActive));
    var swept := Q.Expire(rows, at);
    Q.ClaimEffect(rows, at, owner, lease, captures, Some(maxActive));
    assert Q.RunningIds(swept) <= Q.RunningIds(rows);
    SubsetSize(Q.RunningIds(swept) + captures, Q.RunningIds(rows) + captures);
    var claimed := Q.Claimed(rows, at, captures, Some(maxActive));
    if claimed.Some? {
      var id := rows[claimed.value].sendId;
      assert Q.RunningIds(after) <= Q.RunningIds(swept) + {id};
      SubsetSize(Q.RunningIds(after) + captures, Q.RunningIds(swept) + captures + {id});
    }
  }

  lemma OneReplyOpensNothing(env: Env, replies: seq<P.Reply>, k: nat, op: P.RowOp, at: Time)
    requires !op.Claim?
    requires op.RecoverHistorical? && k < |replies| ==> !(P.InFlight(replies[k].status) && replies[k].deadline <= at)
    ensures ReplyIds(P.UpdateOne(env, replies, k, op, at), at) <= ReplyIds(replies, at)
  {
    var after := P.UpdateOne(env, replies, k, op, at);
    forall i | 0 <= i < |after| && LiveReply(after[i], at) ensures after[i].sendId in ReplyIds(replies, at) {
      if i == k {
        ReplyStaysLive(env, replies[k], op, at);
        P.RowSteps(env, replies[k], op, at);
      }
    }
  }

  lemma SweepOpensNothing(env: Env, replies: seq<P.Reply>, responses: R.Table, op: P.Op, at: Time)
    requires op.StopChat? || op.RecoverOrphans? || op.DetachAll?
    ensures ReplyIds(P.Apply(env, replies, responses, op, at), at) <= ReplyIds(replies, at)
  {
    var after := P.Apply(env, replies, responses, op, at);
    forall i | 0 <= i < |after| && LiveReply(after[i], at) ensures after[i].sendId in ReplyIds(replies, at) {
      var rowOp :=
        match op case RecoverOrphans(dead) => P.RecoverOrphan(dead) case DetachAll(_) => P.Detach case _ => P.Stop;
      P.RowSteps(env, replies[i], rowOp, at);
      if after[i] != replies[i] {
        ReplyStaysLive(env, replies[i], rowOp, at);
      }
    }
  }

  lemma AppendOpensNothing(replies: seq<P.Reply>, r: P.Reply, at: Time)
    requires !P.InFlight(r.status)
    ensures ReplyIds(replies + [r], at) <= ReplyIds(replies, at)
  {
  }

  lemma QueueExplicitOpensNothing(env: Env, replies: seq<P.Reply>, responses: R.Table, send: string, intent: P.Intent,
                                  at: Time)
    ensures ReplyIds(P.QueueExplicitIn(env, replies, responses, send, intent, at), at) <= ReplyIds(replies, at)
  {
    var prepared := P.PrepareAll(replies, responses, send, intent, at);
    var k := P.Find(prepared, intent.replyId);
    if P.Preparable(replies, responses, send, intent) {
      AppendOpensNothing(replies, prepared[|replies|], at);
    }
    OneReplyOpensNothing(env, prepared, k, P.Rearm, at);
    OneReplyOpensNothing(env, P.UpdateOne(env, prepared, k, P.Rearm, at), k, P.Authorize, at);
  }

  /** Reply writers other than the claim open no slot. */
  lemma ReplyOpensNothing(env: Env, w: World, op: P.Op)
    requires !(op.One? && op.op.Claim?) && !RevivesReply(w, Reply(op))
    ensures ReplyIds(P.Apply(env, w.replies, w.responses, op, w.now), w.now) <= ReplyIds(w.replies, w.now)
  {
    match op
    case Prepare(send, intent) =>
      if P.Preparable(w.replies, w.responses, send, intent) {
        AppendOpensNothing(w.replies, P.Apply(env, w.replies, w.responses, op, w.now)[|w.replies|], w.now);
      }
    case QueueExplicit(send, intent) => QueueExplicitOpensNothing(env, w.replies, w.responses, send, intent, w.now);
    case Followup(send, id, text) =>
      AppendOpensNothing(w.replies, P.NewReply(id, send, "", "", text, "", P.Queued, true, w.now), w.now);
    case Merge(send, id, text, hash) =>
      AppendOpensNothing(w.replies, P.NewReply(id, send, "", "", text, hash, P.Merged, true, w.now), w.now);
    case BindNext(exclude) =>
    case One(id, rowOp) =>
      if !rowOp.RecoverHistorical? {
        OneReplyOpensNothing(env, w.replies, P.Find(w.replies, id), rowOp, w.now);
      }
    case RecoverReply(id, c) =>
      var k := P.Find(w.replies, id);
      OneReplyOpensNothing(env, w.replies, k,
        P.RecoverHistorical(c, k < |w.replies| && P.VerifiedParent(w.replies, w.responses, w.replies[k])), w.now);
    case RecoverTip(send, id, conversation, previous, userText, answer, messageId) =>
      var k := P.Find(w.replies, id);
      OneReplyOpensNothing(env, w.replies, k,
        P.BindParent(messageId,
                     P.VerifiedTip(w.replies, w.responses, send, k, conversation, previous, userText, answer,
                                   messageId)), w.now);
    case _ => SweepOpensNothing(env, w.replies, w.responses, op, w.now);
  }

  lemma ClaimReplyOpensOne(env: Env, replies: seq<P.Reply>, responses: R.Table, id: string, owner: string,
                           deadline: Time, at: Time)
    ensures var k := P.Find(replies, id);
            ReplyIds(P.Apply(env, replies, responses, P.One(id, P.Claim(owner, deadline)), at), at)
              <= ReplyIds(replies, at) + if k < |replies| then {replies[k].sendId} else {}
  {
  }

  lemma OneMoreFits(running: set<string>, captures: set<string>, before: set<string>, after: set<string>,
                    chat: set<string>, maxActive: int)
    requires after <= before + chat && |chat| <= 1 && |running + (captures + before)| < maxActive
    ensures |running + (captures + after)| <= maxActive
  {
    var was, now := running + (captures + before), running + (captures + after);
    SubsetSize(now, was + chat);
    assert |was + chat| <= |was| + |chat|;
  }

  lemma ClaimReplyKeepsCap(env: Env, w: World, id: string, owner: string, deadline: Time)
    requires |Active(w)| <= w.maxActive
    ensures |Active(ReplyClaimed(env, w, id, owner, deadline))| <= w.maxActive
  {
    if |Active(w)| < w.maxActive {
      ClaimReplyOpensOne(env, w.replies, w.responses, id, owner, deadline, w.now);
      var k := P.Find(w.replies, id);
      OneMoreFits(Q.RunningIds(w.rows), CaptureIds(w.responses, w.now), ReplyIds(w.replies, w.now),
                  ReplyIds(P.Apply(env, w.replies, w.responses, P.One(id, P.Claim(owner, deadline)), w.now), w.now),
                  if k < |w.replies| then {w.replies[k].sendId} else {}, w.maxActive);
    }
  }

  /** Steps that open no slot. */
  lemma NothingOpens(env: Env, w: World, e: Event)
    requires !Unguarded(w, e) && !e.ClaimNext? && !e.ClaimReply? && !e.Reply? && !e.Respond?
    ensures Active(Step(env, w, e)) <= Active(w)
  {
    match e
    case Queue(op) => if !op.ClaimNext? { QueueOpensNothing(w.rows, w.now, op); }
    case CollectReceipts => RespondOpensNothing(env, w, R.ProjectUncertain(UncertainIds(w.rows)));
    case ReconcileReceipts(batch) => QueueOpensNothing(w.rows, w.now, Q.Reconcile(batch));
    case _ =>
  }

  lemma WritesOpenNothing(env: Env, w: World, e: Event)
    requires !Unguarded(w, e) && (e.Reply? || e.Respond?)
    ensures Active(Step(env, w, e)) <= Active(w)
  {
    match e
    case Respond(op) => RespondOpensNothing(env, w, op);
    case Reply(op) => if !(op.One? && op.op.Claim?) { ReplyOpensNothing(env, w, op); }
  }

  lemma StepKeepsLimit(env: Env, w: World, e: Event)
    ensures Step(env, w, e).maxActive == w.maxActive
  {
  }

  /** Every step keeps the number of occupied slots, or leaves it within the cap, unless it is one of the
      three unguarded ones. */
  lemma StepKeepsCap(env: Env, w: World, e: Event)
    requires |Active(w)| <= w.maxActive && !Unguarded(w, e)
    ensures |Active(Step(env, w, e))| <= Step(env, w, e).maxActive == w.maxActive
  {
    StepKeepsLimit(env, w, e);
    if e.ClaimNext? {
      ClaimOpensOne(w.rows, w.now, e.owner, e.leaseSeconds, CapturedIds(w), w.maxActive);
    } else if e.ClaimReply? {
      ClaimReplyKeepsCap(env, w, e.replyId, e.owner, e.deadline);
    } else {
      if e.Reply? || e.Respond? {
        WritesOpenNothing(env, w, e);
      } else {
        NothingOpens(env, w, e);
      }
      SubsetSize(Active(Step(env, w, e)), Active(w));
    }
  }

  predicate Guarded(env: Env, w: World, events: seq<Event>)
    decreases |events|
  {
    events == [] || (!Unguarded(w, events[0]) && Guarded(env, Step(env, w, events[0]), events[1..]))
  }

  /** Over every run without those steps the cap is never exceeded. */
  lemma {:induction false} CapHolds(env: Env, w: World, events: seq<Event>)
    requires |Active(w)| <= w.maxActive && Guarded(env, w, events)
    ensures |Active(Run(env, w, events))| <= w.maxActive
    decreases |events|
  {
    if events != [] {
      StepKeepsCap(env, w, events[0]);
      CapHolds(env, Step(env, w, events[0]), events[1..]);
    }
  }
}
