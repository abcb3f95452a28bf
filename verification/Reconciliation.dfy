/** Two databases, two transactions: a quarantined delivery succeeds only on a durable acceptance receipt. */
module Reconciliation {
  import opened Tables
  import opened Captures
  import opened Fleet
  import Q = DeliveryQueue
  import R = Responses

  predicate Receipt(responses: R.Table, id: string) {
    id in responses && responses[id].acceptedAt > 0.0
  }

  ghost predicate Inv(w: World) {
    w.now > 0.0 && forall id :: id in w.proofs ==> Receipt(w.responses, id)
  }

  lemma ReceiptsLast(env: Env, responses: R.Table, op: R.Op, at: Time, id: string)
    requires at > 0.0 && Receipt(responses, id)
    ensures Receipt(R.Apply(env, responses, op, at), id)
  {
    R.ApplyIsPointwise(env, responses, op, at, id);
    if R.OpFor(op, id).Some? {
      R.ReceiptIsPermanent(env, responses[id], R.OpFor(op, id).value, at);
    }
  }

  lemma StepKeepsReceipts(env: Env, w: World, e: Event, id: string)
    requires w.now > 0.0 && Receipt(w.responses, id)
    ensures Receipt(Step(env, w, e).responses, id)
  {
    match e
    case Respond(op) => ReceiptsLast(env, w.responses, op, w.now, id);
    case CollectReceipts => ReceiptsLast(env, w.responses, R.ProjectUncertain(UncertainIds(w.rows)), w.now, id);
    case _ =>
  }

  lemma StepKeepsInv(env: Env, w: World, e: Event)
    requires Inv(w)
    ensures Inv(Step(env, w, e))
  {
    var after := Step(env, w, e);
    forall id | id in after.proofs ensures Receipt(after.responses, id) {
      StepKeepsReceipts(env, w, e, id);
    }
  }

  lemma {:induction false} RunKeepsInv(env: Env, w: World, events: seq<Event>)
    requires Inv(w)
    ensures Inv(Run(env, w, events))
    ensures forall id :: Receipt(w.responses, id) ==> Receipt(Run(env, w, events).responses, id)
    decreases |events|
  {
    if events != [] {
      StepKeepsInv(env, w, events[0]);
      forall id | Receipt(w.responses, id) ensures Receipt(Step(env, w, events[0]).responses, id) {
        StepKeepsReceipts(env, w, events[0], id);
      }
      RunKeepsInv(env, Step(env, w, events[0]), events[1..]);
    }
  }

  lemma QueueKeepsEnded(rows: seq<Q.Delivery>, at: Time, op: Q.Op, i: nat)
    requires i < |rows| && Q.Terminal(rows[i].status) && Q.LeaseShape(rows[i]) && !op.Reconcile?
    ensures i < |Q.Apply(rows, at, op)|
    ensures var d := Q.Apply(rows, at, op)[i];
            d.sendId == rows[i].sendId && Q.LeaseShape(d) && d.status == rows[i].status
  {
    Q.RowSteps(rows, at, op, i);
    if op.ClaimNext? {
      Q.ClaimEffect(rows, at, op.owner, op.leaseSeconds, op.captures, op.maxActive);
    }
  }

  lemma OthersKeepRows(env: Env, w: World, e: Event)
    requires !e.Queue? && !e.ClaimNext? && !e.ReconcileReceipts?
    ensures Step(env, w, e).rows == w.rows
  {
  }

  lemma BatchKeepsEnded(rows: seq<Q.Delivery>, at: Time, batch: set<string>, i: nat)
    requires i < |rows| && Q.Terminal(rows[i].status) && Q.LeaseShape(rows[i])
    ensures var after := Q.Apply(rows, at, Q.Reconcile(batch));
            i < |after| && after[i].sendId == rows[i].sendId && Q.LeaseShape(after[i]) &&
            (after[i].status == rows[i].status ||
             (rows[i].status.OutcomeUnknown? && after[i].status.Succeeded? && rows[i].sendId in batch))
  {
  }

  /** Ended, under the same id, and changed only by a collected receipt. */
  ghost predicate StillEnded(w: World, e: Event, after: World, i: nat)
    requires i < |w.rows|
  {
    i < |after.rows| && after.rows[i].sendId == w.rows[i].sendId && Q.LeaseShape(after.rows[i]) &&
    (after.rows[i].status == w.rows[i].status ||
     (w.rows[i].status.OutcomeUnknown? && after.rows[i].status.Succeeded? && e.ReconcileReceipts? &&
      w.rows[i].sendId in w.proofs))
  }

  /** A step leaves an ended delivery as it is, or moves it from unknown to succeeded on a collected receipt. */
  lemma StepKeepsEnded(env: Env, w: World, e: Event, i: nat)
    requires i < |w.rows| && Q.Terminal(w.rows[i].status) && Q.LeaseShape(w.rows[i])
    ensures StillEnded(w, e, Step(env, w, e), i)
  {
    match e
    case Queue(op) => if !op.ClaimNext? && !op.Reconcile? { QueueKeepsEnded(w.rows, w.now, op, i); }
    case ClaimNext(owner, lease) =>
      QueueKeepsEnded(w.rows, w.now, Q.ClaimNext(owner, lease, CapturedIds(w), Some(w.maxActive)), i);
    case ReconcileReceipts(batch) => BatchKeepsEnded(w.rows, w.now, batch, i);
    case _ => OthersKeepRows(env, w, e);
  }

  /** From any state whose collected receipts are real, in every later state: a delivery that had ended is
      still ended and never claimable again, and if it went from unknown to succeeded then its acceptance
      receipt is in the response table, there to stay. */
  lemma {:induction false} SucceedsOnlyWithReceipt(env: Env, w: World, events: seq<Event>, i: nat)
    requires Inv(w) && i < |w.rows| && Q.Terminal(w.rows[i].status) && Q.LeaseShape(w.rows[i])
    ensures i < |Run(env, w, events).rows|
    ensures var later := Run(env, w, events);
            later.rows[i].sendId == w.rows[i].sendId &&
            Q.Terminal(later.rows[i].status) && (forall at :: !Q.Claimable(later.rows[i], at)) &&
            (later.rows[i].status == w.rows[i].status ||
             (w.rows[i].status.OutcomeUnknown? && later.rows[i].status.Succeeded? &&
              Receipt(later.responses, w.rows[i].sendId)))
    decreases |events|
  {
    if events != [] {
      var next := Step(env, w, events[0]);
      StepKeepsEnded(env, w, events[0], i);
      StepKeepsInv(env, w, events[0]);
      SucceedsOnlyWithReceipt(env, next, events[1..], i);
      if next.rows[i].status != w.rows[i].status {
        StepKeepsReceipts(env, w, events[0], w.rows[i].sendId);
        RunKeepsInv(env, next, events[1..]);
      }
    }
  }

  /** One undisturbed reconciliation: a quarantined delivery succeeds exactly when its receipt confirms it;
      an absent receipt authorizes nothing. Nothing else in the queue moves. */
  lemma ReconcilesExactly(env: Env, w: World, i: nat)
    requires i < |w.rows|
    ensures var collected := Step(env, w, CollectReceipts);
            var after := Step(env, collected, ReconcileReceipts(ConfirmedIds(w.rows, w.responses)));
            i < |after.rows| &&
            (after.rows[i].status.Succeeded? <==>
               w.rows[i].status.Succeeded? ||
               (w.rows[i].status.OutcomeUnknown? && w.rows[i].sendId in w.responses &&
                Confirmed(w.responses[w.rows[i].sendId]))) &&
            (after.rows[i].status.Succeeded? || after.rows[i] == w.rows[i])
  {
    assert w.rows[i].status.OutcomeUnknown? ==> w.rows[i].sendId in UncertainIds(w.rows);
  }

  /** A response that reconciliation relabels as unknown was never accepted. */
  lemma RelabelsOnlyUnaccepted(env: Env, w: World, id: string)
    requires id in w.responses
    ensures var after := Step(env, w, CollectReceipts).responses;
            id in after &&
            (after[id].status != w.responses[id].status ==>
               !Receipt(w.responses, id) && w.responses[id].conversationId == "" && after[id].status.OutcomeUnknown? &&
               exists i :: 0 <= i < |w.rows| && w.rows[i].sendId == id && w.rows[i].status.OutcomeUnknown?)
  {
    R.ApplyIsPointwise(env, w.responses, R.ProjectUncertain(UncertainIds(w.rows)), w.now, id);
  }
}
