/** Fresh-chat dispatch: how a sender's report is classified, what receipt the worker commits, and why
    no interleaving of workers, crashes, renewals, expiries and retries can submit a prompt twice. */
module Dispatch {
  import opened Tables
  import opened DeliveryQueue

  // ---------------------------------------------------------------- sender outcome classification

  /** What can escape the browser coroutine. */
  datatype Raised =
    | RateLimit(retryAfter: nat) | NotAccepted | AcceptanceUnknown | Backend | Timeout | OtherError
    | ProcessExit

  /** What the calling thread sees of the background dispatch when it stops waiting for the handshake. */
  datatype Report =
    | ThreadUnavailable
    | Handshake(received: bool, confirmed: bool, raised: Option<Raised>)

  datatype Outcome =
    | Returned | RateLimited(retryAfter: nat) | Rejected | OutcomeUnknown | Unavailable | Unexpected | Crashed

  function Surface(e: Raised): Outcome {
    match e
    case RateLimit(s) => Outcome.RateLimited(s)
    case NotAccepted => Rejected
    case AcceptanceUnknown => Outcome.OutcomeUnknown
    case Backend => Unavailable
    case Timeout => Unexpected
    case OtherError => Unexpected
    case ProcessExit => Crashed
  }

  /** The capturing sender: `started` is the flag set just before the Send control is clicked. */
  function Classify(r: Report, started: bool): Outcome {
    match r
    case ThreadUnavailable => Unavailable
    case Handshake(received, confirmed, error) =>
      if confirmed then Returned
      else if !received then Outcome.OutcomeUnknown
      else match error
        case Some(Timeout) => if started then Outcome.OutcomeUnknown else Unavailable
        case Some(e) =>
          if started && !e.RateLimit? && !e.NotAccepted? && !e.AcceptanceUnknown? then Outcome.OutcomeUnknown
          else Surface(e)
        case None => if started then Outcome.OutcomeUnknown else Unavailable
  }

  /** The send-only sender runs in the calling thread and treats every error after the click as unknown. */
  function ClassifySendOnly(error: Option<Raised>, started: bool): Outcome {
    match error
    case None => Returned
    case Some(AcceptanceUnknown) => Outcome.OutcomeUnknown
    case Some(ProcessExit) => Crashed
    case Some(RateLimit(s)) => if started then Outcome.OutcomeUnknown else Outcome.RateLimited(s)
    case Some(_) => if started then Outcome.OutcomeUnknown else Unavailable
  }

  /** Outcomes after which the worker may hand the delivery back for another attempt. */
  predicate Replayable(o: Outcome) {
    o.RateLimited? || o.Rejected? || o.Unavailable? || o.Unexpected?
  }

  /** Outcomes that say the service turned the prompt down. */
  predicate TurnedDown(o: Outcome) {
    o.RateLimited? || o.Rejected?
  }

  /** A sender never reports a replayable outcome for a prompt it may have submitted: either the Send
      control was not reached, or the service turned the prompt down. */
  lemma ReplayIsSafe(r: Report, error: Option<Raised>, started: bool)
    requires r.ThreadUnavailable? ==> !started
    ensures Replayable(Classify(r, started)) && started ==> TurnedDown(Classify(r, started))
    ensures Replayable(Classify(r, started)) ==> r.ThreadUnavailable? || r.received
    ensures Replayable(ClassifySendOnly(error, started)) ==> !started
  {
  }

  // ---------------------------------------------------------------- worker receipts

  const MAX_REJECTED_ATTEMPTS := 5

  function RetryDelay(attempt: nat): Time {
    var exponent := if attempt == 0 then 0 else if attempt - 1 > 12 then 12 else attempt - 1;
    Earlier(300.0, 2.0 * Pow2(exponent) as real)
  }

  /** The queue write `_deliver_one` makes for an outcome, for a delivery claimed after `prior` retries. */
  function ReceiptFor(o: Outcome, id: string, owner: string, prior: nat, now: Time, error: string): Op
    requires !o.Crashed?
  {
    var attempt := prior + 1;
    var retry := RetryClaim(id, owner, Retrying, now + RetryDelay(attempt), attempt, error);
    var bounded := if attempt >= MAX_REJECTED_ATTEMPTS then FailClaim(id, owner, DeadLettered, error) else retry;
    match o
    case Returned => CompleteClaim(id, owner)
    case RateLimited(s) =>
      RetryClaim(id, owner, Status.RateLimited, now + Later(RetryDelay(attempt), s as real), attempt, error)
    case Unavailable => retry
    case Rejected => bounded
    case Unexpected => bounded
    case OutcomeUnknown => FailClaim(id, owner, Status.OutcomeUnknown, error)
  }

  lemma ReceiptForIsReplayable(o: Outcome, id: string, owner: string, prior: nat, now: Time, error: string)
    requires !o.Crashed?
    ensures ReceiptFor(o, id, owner, prior, now, error).RetryClaim? ==>
              Replayable(o) && Retryable(ReceiptFor(o, id, owner, prior, now, error).status)
    ensures ReceiptFor(o, id, owner, prior, now, error).FailClaim? ==>
              Terminal(ReceiptFor(o, id, owner, prior, now, error).status)
  {
  }

  /** Another attempt, or the dead-letter status once they are used up. */
  method RetryOrBury(queue: DeliveryQueueStore, record: Delivery, owner: string, error: string, now: Time)
    returns (committed: bool)
    requires queue.Consistent()
    modifies queue
    ensures queue.Consistent()
    ensures queue.rows == Apply(old(queue.rows), now,
                                ReceiptFor(Rejected, record.sendId, owner, record.retryAttempt, now, error))
    ensures committed <==> exists i ::
              0 <= i < |old(queue.rows)| && Owned(old(queue.rows)[i], record.sendId, owner, now)
  {
    var attempt := record.retryAttempt + 1;
    if attempt >= MAX_REJECTED_ATTEMPTS {
      committed := queue.FailClaim(record.sendId, owner, DeadLettered, error, now);
    } else {
      committed := queue.RetryClaim(record.sendId, owner, Retrying, now + RetryDelay(attempt), attempt, error, now);
    }
  }

  /** The worker's last step: one guarded queue write, chosen by the outcome. `leaseLost` is what the lease
      renewer reported. Nothing is written for a lost lease after success. */
  method WriteReceipt(queue: DeliveryQueueStore, o: Outcome, record: Delivery, owner: string, leaseLost: bool,
                      error: string, now: Time) returns (committed: bool)
    requires queue.Consistent() && !o.Crashed?
    modifies queue
    ensures queue.Consistent()
    ensures queue.rows == if leaseLost && o.Returned? then old(queue.rows)
                          else Apply(old(queue.rows), now,
                                     ReceiptFor(o, record.sendId, owner, record.retryAttempt, now, error))
    ensures committed && !o.Returned? ==> exists i ::
              0 <= i < |old(queue.rows)| && Owned(old(queue.rows)[i], record.sendId, owner, now)
  {
    var attempt := record.retryAttempt + 1;
    var delay := RetryDelay(attempt);
    match o {
      case Returned =>
        if leaseLost {
          return false;
        }
        committed := queue.CompleteClaim(record.sendId, owner, now);
      case RateLimited(seconds) =>
        delay := Later(delay, seconds as real);
        committed := queue.RetryClaim(record.sendId, owner, Status.RateLimited, now + delay, attempt, error, now);
      case Unavailable =>
        committed := queue.RetryClaim(record.sendId, owner, Retrying, now + delay, attempt, error, now);
      case OutcomeUnknown =>
        committed := queue.FailClaim(record.sendId, owner, Status.OutcomeUnknown, error, now);
      case Rejected =>
        committed := RetryOrBury(queue, record, owner, error, now);
      case Unexpected =>
        committed := RetryOrBury(queue, record, owner, error, now);
      case Crashed =>
        assert false;
    }
  }

  // ---------------------------------------------------------------- runs

  datatype Written = Unwritten | HandedBack | Failed | Completed | Refused

  /** One claim of one row. `alive` says its browser thread may still reach the Send control. */
  datatype Attempt = Attempt(
    row: nat, owner: string, started: bool, alive: bool, outcome: Option<Outcome>, receipt: Written)

  datatype World = World(now: Time, sendOnly: bool, rows: seq<Delivery>, attempts: seq<Attempt>)

  datatype Event =
    | Advance(seconds: Time)
    | Maintain(op: Op)
    | Claim(owner: string, leaseSeconds: Time, captures: set<string>, maxActive: Option<int>)
    | DropRemovedJob(attempt: nat, error: string)
    | ClickSend(attempt: nat)
    | SenderEnds(attempt: nat, report: Report)
    | SendOnlyEnds(attempt: nat, raised: Option<Raised>)
    | Settle(attempt: nat, leaseLost: bool, error: string)

  /** Queue writes that need no claim: enqueueing, sweeps, renewals, cancellation, reconciliation, edits. */
  predicate Unclaimed(op: Op) {
    !op.ClaimNext? && !op.RetryClaim? && !op.CompleteClaim? && !op.FailClaim?
  }

  function Open(w: World, k: nat): bool {
    k < |w.attempts| && w.attempts[k].outcome.None?
  }

  function ReceiptKind(op: Op): Written {
    match op
    case RetryClaim(_, _, _, _, _, _) => HandedBack
    case CompleteClaim(_, _) => Completed
    case _ => Failed
  }

  function Finish(w: World, k: nat, o: Outcome, alive: bool): World
    requires k < |w.attempts|
  {
    w.(attempts := w.attempts[k := w.attempts[k].(outcome := Some(o), alive := alive)])
  }

  function Commit(w: World, k: nat, op: Op): World
    requires k < |w.attempts| && w.attempts[k].row < |w.rows|
  {
    var a := w.attempts[k];
    var d := w.rows[a.row];
    var owned := Owned(d, d.sendId, a.owner, w.now);
    var acknowledged := op.CompleteClaim? && d.status.Succeeded?;
    w.(rows := Apply(w.rows, w.now, op),
       attempts := w.attempts[k := a.(receipt := if owned || acknowledged then ReceiptKind(op) else Written.Refused)])
  }

  /** Events that are not enabled leave the world unchanged, so every event sequence is a run. A crash is
      the absence of the crashed worker's further events. */
  function Step(w: World, e: Event): World {
    match e
    case Advance(s) => if s >= 0.0 then w.(now := w.now + s) else w
    case Maintain(op) => if Unclaimed(op) then w.(rows := Apply(w.rows, w.now, op)) else w
    case Claim(owner, lease, captures, maxActive) =>
      var claimed := Claimed(w.rows, w.now, captures, maxActive);
      var rows := DeliveryQueue.Claim(w.rows, w.now, owner, lease, captures, maxActive);
      if claimed.Some? then
        w.(rows := rows, attempts := w.attempts + [Attempt(claimed.value, owner, false, true, None, Unwritten)])
      else w.(rows := rows)
    case DropRemovedJob(k, error) =>
      if Open(w, k) && !w.attempts[k].started && w.attempts[k].alive && w.attempts[k].receipt.Unwritten?
         && w.attempts[k].row < |w.rows| then
        var dead := w.(attempts := w.attempts[k := w.attempts[k].(alive := false)]);
        var d := w.rows[w.attempts[k].row];
        Commit(dead, k, FailClaim(d.sendId, w.attempts[k].owner, Status.Cancelled, error))
      else w
    case ClickSend(k) =>
      if k < |w.attempts| && w.attempts[k].alive && !w.attempts[k].started then
        w.(attempts := w.attempts[k := w.attempts[k].(started := true)])
      else w
    case SenderEnds(k, r) =>
      if Open(w, k) && w.attempts[k].alive && !w.sendOnly
         && (r.ThreadUnavailable? || r.confirmed ==> w.attempts[k].started == r.Handshake?) then
        Finish(w, k, Classify(r, w.attempts[k].started), r.Handshake? && !r.received)
      else w
    case SendOnlyEnds(k, error) =>
      if Open(w, k) && w.attempts[k].alive && w.sendOnly then
        Finish(w, k, ClassifySendOnly(error, w.attempts[k].started), false)
      else w
    case Settle(k, leaseLost, error) =>
      if k < |w.attempts| && w.attempts[k].row < |w.rows| && w.attempts[k].receipt.Unwritten?
         && w.attempts[k].outcome.Some? && !w.attempts[k].outcome.value.Crashed? then
        var a := w.attempts[k];
        var d := w.rows[a.row];
        if leaseLost && a.outcome.value.Returned? then
          w.(attempts := w.attempts[k := a.(receipt := Written.Refused)])
        else Commit(w, k, ReceiptFor(a.outcome.value, d.sendId, a.owner, d.retryAttempt, w.now, error))
      else w
  }

  function Run(w: World, events: seq<Event>): World
    decreases |events|
  {
    if events == [] then w else Run(Step(w, events[0]), events[1..])
  }

  function Start(now: Time, sendOnly: bool): World {
    World(now, sendOnly, [], [])
  }

  // ---------------------------------------------------------------- the invariant

  /** The attempt may have put the prompt in front of the service. */
  predicate MaySubmit(a: Attempt) {
    a.started && !(a.outcome.Some? && TurnedDown(a.outcome.value))
  }

  ghost predicate AttemptOk(w: World, a: Attempt) {
    && a.row < |w.rows|
    && (a.outcome.Some? && Replayable(a.outcome.value) ==> !a.alive && !MaySubmit(a) && (w.sendOnly ==> !a.started))
    && (a.receipt.HandedBack? ==> a.outcome.Some? && Replayable(a.outcome.value))
    && (Waiting(w.rows[a.row].status) ==> a.receipt.HandedBack?)
  }

  ghost predicate Inv(w: World) {
    && Valid(w.rows)
    && (forall k :: 0 <= k < |w.attempts| ==> AttemptOk(w, w.attempts[k]))
    && (forall i, j :: 0 <= i < j < |w.attempts| && w.attempts[i].row == w.attempts[j].row ==>
          w.attempts[i].receipt.HandedBack?)
  }

  /** A write by a claim holder touches no row but its own. */
  lemma ReceiptTouchesOneRow(rows: seq<Delivery>, at: Time, op: Op, r: nat, i: nat)
    requires Valid(rows) && r < |rows| && i < |rows| && i != r
    requires (op.RetryClaim? || op.FailClaim? || op.CompleteClaim?) && op.id == rows[r].sendId
    ensures |Apply(rows, at, op)| == |rows| && Apply(rows, at, op)[i] == rows[i]
  {
  }

  /** A waiting row after a receipt was waiting before, or the receipt handed it back under a live lease. */
  lemma HandBackNeedsLease(rows: seq<Delivery>, at: Time, op: Op, r: nat)
    requires Valid(rows) && r < |rows|
    requires (op.RetryClaim? || op.FailClaim? || op.CompleteClaim?) && op.id == rows[r].sendId
    requires op.FailClaim? ==> Terminal(op.status)
    ensures r < |Apply(rows, at, op)|
    ensures Waiting(Apply(rows, at, op)[r].status) ==>
              Waiting(rows[r].status) || (op.RetryClaim? && Owned(rows[r], op.id, op.owner, at))
  {
  }

  lemma CommitKeepsInv(w: World, k: nat, op: Op)
    requires Valid(w.rows) && k < |w.attempts| && w.attempts[k].receipt.Unwritten?
    requires forall i :: 0 <= i < |w.attempts| ==> AttemptOk(w, w.attempts[i])
    requires forall i, j :: 0 <= i < j < |w.attempts| && w.attempts[i].row == w.attempts[j].row ==>
               w.attempts[i].receipt.HandedBack?
    requires (op.RetryClaim? || op.FailClaim? || op.CompleteClaim?)
    requires w.attempts[k].row < |w.rows|
    requires op.id == w.rows[w.attempts[k].row].sendId && op.owner == w.attempts[k].owner
    requires op.RetryClaim? ==> w.attempts[k].outcome.Some? && Replayable(w.attempts[k].outcome.value)
    requires op.FailClaim? ==> Terminal(op.status)
    ensures Inv(Commit(w, k, op))
  {
    var a := w.attempts[k];
    var after := Commit(w, k, op);
    ApplyKeepsRows(w.rows, w.now, op);
    assert AttemptOk(w, a);
    HandBackNeedsLease(w.rows, w.now, op, a.row);
    forall i | 0 <= i < |after.attempts| ensures AttemptOk(after, after.attempts[i]) {
      assert AttemptOk(w, w.attempts[i]);
      if w.attempts[i].row != a.row {
        ReceiptTouchesOneRow(w.rows, w.now, op, a.row, w.attempts[i].row);
      }
    }
  }

  lemma MaintainKeepsInv(w: World, op: Op)
    requires Inv(w) && Unclaimed(op)
    ensures Inv(w.(rows := Apply(w.rows, w.now, op)))
  {
    ApplyKeepsRows(w.rows, w.now, op);
    forall k | 0 <= k < |w.attempts| ensures AttemptOk(w.(rows := Apply(w.rows, w.now, op)), w.attempts[k]) {
      assert AttemptOk(w, w.attempts[k]);
      var r := w.attempts[k].row;
      assert RowStep(w.rows[r], Apply(w.rows, w.now, op)[r], op);
    }
  }

  /** A table in which nothing new waits, and the claimed row no longer does. */
  lemma ClaimFrame(w: World, rows: seq<Delivery>, claimed: nat, owner: string)
    requires Inv(w) && Valid(rows) && |rows| == |w.rows| && claimed < |rows|
    requires forall i :: 0 <= i < |rows| && Waiting(rows[i].status) ==> Waiting(w.rows[i].status)
    requires Waiting(w.rows[claimed].status) && !Waiting(rows[claimed].status)
    ensures Inv(w.(rows := rows, attempts := w.attempts + [Attempt(claimed, owner, false, true, None, Unwritten)]))
  {
    var after := w.(rows := rows, attempts := w.attempts + [Attempt(claimed, owner, false, true, None, Unwritten)]);
    forall k | 0 <= k < |w.attempts|
      ensures AttemptOk(after, w.attempts[k])
      ensures w.attempts[k].row == claimed ==> w.attempts[k].receipt.HandedBack?
    {
      assert AttemptOk(w, w.attempts[k]);
    }
  }

  lemma SweepFrame(w: World, rows: seq<Delivery>)
    requires Inv(w) && Valid(rows) && |rows| == |w.rows|
    requires forall i :: 0 <= i < |rows| && Waiting(rows[i].status) ==> Waiting(w.rows[i].status)
    ensures Inv(w.(rows := rows))
  {
    forall k | 0 <= k < |w.attempts| ensures AttemptOk(w.(rows := rows), w.attempts[k]) {
      assert AttemptOk(w, w.attempts[k]);
    }
  }

  /** What the claim transaction does to the rows. */
  lemma ClaimedRows(rows: seq<Delivery>, at: Time, owner: string, lease: Time, captures: set<string>,
                    maxActive: Option<int>)
    requires Valid(rows)
    ensures var after := DeliveryQueue.Claim(rows, at, owner, lease, captures, maxActive);
            var claimed := Claimed(rows, at, captures, maxActive);
            Valid(after) && |after| == |rows| &&
            (forall i :: 0 <= i < |rows| && Waiting(after[i].status) ==> Waiting(rows[i].status)) &&
            (claimed.Some? ==>
               claimed.value < |rows| && Waiting(rows[claimed.value].status) && !Waiting(after[claimed.value].status))
  {
    ApplyKeepsRows(rows, at, Op.ClaimNext(owner, lease, captures, maxActive));
    ClaimEffect(rows, at, owner, lease, captures, maxActive);
  }

  lemma ClaimKeepsInv(w: World, owner: string, lease: Time, captures: set<string>, maxActive: Option<int>)
    requires Inv(w)
    ensures Inv(Step(w, Claim(owner, lease, captures, maxActive)))
  {
    var rows := DeliveryQueue.Claim(w.rows, w.now, owner, lease, captures, maxActive);
    var claimed := Claimed(w.rows, w.now, captures, maxActive);
    ClaimedRows(w.rows, w.now, owner, lease, captures, maxActive);
    if claimed.Some? {
      ClaimFrame(w, rows, claimed.value, owner);
    } else {
      SweepFrame(w, rows);
    }
  }

  lemma TimeKeepsInv(w: World, after: World)
    requires Inv(w) && after == w.(now := after.now)
    ensures Inv(after)
  {
    forall k | 0 <= k < |w.attempts| ensures AttemptOk(after, w.attempts[k]) {
      assert AttemptOk(w, w.attempts[k]);
    }
  }

  lemma DropKeepsInv(w: World, k: nat, error: string)
    requires Inv(w)
    ensures Inv(Step(w, DropRemovedJob(k, error)))
  {
    if Step(w, DropRemovedJob(k, error)) != w {
      var a := w.attempts[k];
      assert AttemptOk(w, a);
      var dead := w.(attempts := w.attempts[k := a.(alive := false)]);
      forall i | 0 <= i < |dead.attempts| ensures AttemptOk(dead, dead.attempts[i]) {
        assert AttemptOk(w, w.attempts[i]);
      }
      CommitKeepsInv(dead, k, FailClaim(w.rows[a.row].sendId, a.owner, Status.Cancelled, error));
    }
  }

  /** Events that only rewrite one attempt without a hand-back. */
  lemma AttemptChangeKeepsInv(w: World, after: World, k: nat)
    requires Inv(w) && after.rows == w.rows && after.sendOnly == w.sendOnly
    requires |after.attempts| == |w.attempts|
    requires forall i :: 0 <= i < |w.attempts| && i != k ==> after.attempts[i] == w.attempts[i]
    requires k < |w.attempts| && after.attempts[k] != w.attempts[k] ==>
               var a, b := w.attempts[k], after.attempts[k];
               b.row == a.row && (a.receipt.HandedBack? ==> b.receipt.HandedBack? && b.outcome == a.outcome) &&
               (b.receipt.HandedBack? ==> a.receipt.HandedBack?) &&
               (a.receipt != b.receipt ==> a.receipt.Unwritten?) &&
               (b.outcome.Some? && Replayable(b.outcome.value) ==>
                  !b.alive && !MaySubmit(b) && (w.sendOnly ==> !b.started))
    ensures Inv(after)
  {
    forall i | 0 <= i < |after.attempts| ensures AttemptOk(after, after.attempts[i]) {
      assert AttemptOk(w, w.attempts[i]);
    }
  }

  lemma SettleKeepsInv(w: World, k: nat, leaseLost: bool, error: string)
    requires Inv(w)
    ensures Inv(Step(w, Settle(k, leaseLost, error)))
  {
    var e := Settle(k, leaseLost, error);
    if Step(w, e) != w {
      var a := w.attempts[k];
      var d := w.rows[a.row];
      if leaseLost && a.outcome.value.Returned? {
        AttemptChangeKeepsInv(w, Step(w, e), k);
      } else {
        ReceiptForIsReplayable(a.outcome.value, d.sendId, a.owner, d.retryAttempt, w.now, error);
        CommitKeepsInv(w, k, ReceiptFor(a.outcome.value, d.sendId, a.owner, d.retryAttempt, w.now, error));
      }
    }
  }

  lemma StepKeepsInv(w: World, e: Event)
    requires Inv(w)
    ensures Inv(Step(w, e))
  {
    match e
    case Advance(_) => TimeKeepsInv(w, Step(w, e));
    case Maintain(op) => if Unclaimed(op) { MaintainKeepsInv(w, op); }
    case Claim(owner, lease, captures, maxActive) => ClaimKeepsInv(w, owner, lease, captures, maxActive);
    case DropRemovedJob(k, error) => DropKeepsInv(w, k, error);
    case Settle(k, leaseLost, error) => SettleKeepsInv(w, k, leaseLost, error);
    case ClickSend(k) => AttemptChangeKeepsInv(w, Step(w, e), k);
    case SenderEnds(k, r) =>
      if Step(w, e) != w {
        ReplayIsSafe(r, None, w.attempts[k].started);
        AttemptChangeKeepsInv(w, Step(w, e), k);
      }
    case SendOnlyEnds(k, error) =>
      if Step(w, e) != w {
        ReplayIsSafe(Handshake(true, true, None), error, w.attempts[k].started);
        AttemptChangeKeepsInv(w, Step(w, e), k);
      }
  }

  lemma {:induction false} RunKeepsInv(w: World, events: seq<Event>)
    requires Inv(w)
    ensures Inv(Run(w, events))
    decreases |events|
  {
    if events != [] {
      StepKeepsInv(w, events[0]);
      RunKeepsInv(Step(w, events[0]), events[1..]);
    }
  }

  // ---------------------------------------------------------------- main results

  lemma {:induction false} RunKeepsMode(w: World, events: seq<Event>)
    ensures Run(w, events).sendOnly == w.sendOnly
    decreases |events|
  {
    if events != [] {
      RunKeepsMode(Step(w, events[0]), events[1..]);
    }
  }

  /** At most once. In every reachable state, whenever a delivery was claimed again after an attempt, that
      attempt's thread can no longer reach the Send control and it either never did, or the service turned
      the prompt down; a send-only attempt that was followed by another never reached it at all. */
  lemma AtMostOnce(now: Time, sendOnly: bool, events: seq<Event>, i: nat, j: nat)
    requires i < j < |Run(Start(now, sendOnly), events).attempts|
    requires var w := Run(Start(now, sendOnly), events);
             w.attempts[i].row < |w.rows| && w.attempts[j].row < |w.rows| &&
             w.rows[w.attempts[i].row].sendId == w.rows[w.attempts[j].row].sendId
    ensures var a := Run(Start(now, sendOnly), events).attempts[i];
            !a.alive && !MaySubmit(a) && (sendOnly ==> !a.started) &&
            (a.started ==> a.outcome.Some? && TurnedDown(a.outcome.value))
  {
    RunKeepsInv(Start(now, sendOnly), events);
    RunKeepsMode(Start(now, sendOnly), events);
    var w := Run(Start(now, sendOnly), events);
    assert AttemptOk(w, w.attempts[i]);
    assert w.attempts[i].row == w.attempts[j].row;
  }

  /** Two attempts for one send id never both may have submitted its prompt. */
  lemma NeverSubmittedTwice(now: Time, sendOnly: bool, events: seq<Event>, i: nat, j: nat)
    requires var w := Run(Start(now, sendOnly), events);
             i < |w.attempts| && j < |w.attempts| && i != j &&
             w.attempts[i].row < |w.rows| && w.attempts[j].row < |w.rows| &&
             w.rows[w.attempts[i].row].sendId == w.rows[w.attempts[j].row].sendId
    ensures var w := Run(Start(now, sendOnly), events); !(MaySubmit(w.attempts[i]) && MaySubmit(w.attempts[j]))
  {
    if i < j {
      AtMostOnce(now, sendOnly, events, i, j);
    } else {
      AtMostOnce(now, sendOnly, events, j, i);
    }
  }

  function Claims(attempts: seq<Attempt>, r: nat): nat {
    if attempts == [] then 0
    else Claims(attempts[..|attempts| - 1], r) + if attempts[|attempts| - 1].row == r then 1 else 0
  }

  function HandBacks(attempts: seq<Attempt>, r: nat): nat {
    if attempts == [] then 0
    else HandBacks(attempts[..|attempts| - 1], r) +
         if attempts[|attempts| - 1].row == r && attempts[|attempts| - 1].receipt.HandedBack? then 1 else 0
  }

  lemma {:induction false} AllHandedBack(attempts: seq<Attempt>, r: nat)
    requires forall k :: 0 <= k < |attempts| && attempts[k].row == r ==> attempts[k].receipt.HandedBack?
    ensures Claims(attempts, r) == HandBacks(attempts, r)
  {
    if attempts != [] {
      AllHandedBack(attempts[..|attempts| - 1], r);
    }
  }

  lemma {:induction false} AllButLastHandedBack(attempts: seq<Attempt>, r: nat)
    requires forall i, j :: 0 <= i < j < |attempts| && attempts[i].row == attempts[j].row ==>
               attempts[i].receipt.HandedBack?
    ensures HandBacks(attempts, r) <= Claims(attempts, r) <= HandBacks(attempts, r) + 1
  {
    if attempts != [] {
      var n := |attempts| - 1;
      if attempts[n].row == r {
        AllHandedBack(attempts[..n], r);
      } else {
        AllButLastHandedBack(attempts[..n], r);
      }
    }
  }

  /** Claims and hand-backs of a delivery balance: they differ by at most the one attempt still
      outstanding, and by none while the delivery waits. */
  lemma ClaimsBalance(now: Time, sendOnly: bool, events: seq<Event>, r: nat)
    requires r < |Run(Start(now, sendOnly), events).rows|
    ensures var w := Run(Start(now, sendOnly), events);
            0 <= Claims(w.attempts, r) - HandBacks(w.attempts, r) <= 1 &&
            (Waiting(w.rows[r].status) ==> Claims(w.attempts, r) == HandBacks(w.attempts, r))
  {
    RunKeepsInv(Start(now, sendOnly), events);
    var w := Run(Start(now, sendOnly), events);
    AllButLastHandedBack(w.attempts, r);
    if Waiting(w.rows[r].status) {
      forall k | 0 <= k < |w.attempts| && w.attempts[k].row == r ensures w.attempts[k].receipt.HandedBack? {
        assert AttemptOk(w, w.attempts[k]);
      }
      AllHandedBack(w.attempts, r);
    }
  }

  lemma MaintenanceKeepsQuarantine(rows: seq<Delivery>, at: Time, op: Op, r: nat)
    requires r < |rows| && Terminal(rows[r].status) && LeaseShape(rows[r]) && !op.ClaimNext?
    ensures r < |Apply(rows, at, op)| && Terminal(Apply(rows, at, op)[r].status)
    ensures Apply(rows, at, op)[r].status == rows[r].status ||
            (rows[r].status.OutcomeUnknown? && Apply(rows, at, op)[r].status.Succeeded? && op.Reconcile?)
  {
    RowSteps(rows, at, op, r);
  }

  lemma OtherClaim(attempts: seq<Attempt>, a: Attempt, r: nat)
    requires a.row != r
    ensures Claims(attempts + [a], r) == Claims(attempts, r)
  {
    assert (attempts + [a])[..|attempts|] == attempts;
  }

  lemma ClaimKeepsQuarantine(w: World, owner: string, lease: Time, captures: set<string>, maxActive: Option<int>,
                             r: nat)
    requires r < |w.rows| && Terminal(w.rows[r].status)
    ensures var after := Step(w, Claim(owner, lease, captures, maxActive));
            r < |after.rows| && after.rows[r].status == w.rows[r].status &&
            Claims(after.attempts, r) == Claims(w.attempts, r)
  {
    ClaimEffect(w.rows, w.now, owner, lease, captures, maxActive);
    var claimed := Claimed(w.rows, w.now, captures, maxActive);
    if claimed.Some? {
      OtherClaim(w.attempts, Attempt(claimed.value, owner, false, true, None, Unwritten), r);
    }
  }

  /** Still ended, unless reconciled from unknown to succeeded. */
  ghost predicate StillEnded(before: Status, after: Status) {
    Terminal(after) && (after == before || (before.OutcomeUnknown? && after.Succeeded?))
  }

  lemma {:induction false} SameRowsSameClaims(a: seq<Attempt>, b: seq<Attempt>, r: nat)
    requires |a| == |b| && forall k :: 0 <= k < |a| ==> a[k].row == b[k].row
    ensures Claims(a, r) == Claims(b, r)
  {
    if a != [] {
      SameRowsSameClaims(a[..|a| - 1], b[..|b| - 1], r);
    }
  }

  lemma CommitKeepsTerminal(w: World, k: nat, op: Op, r: nat)
    requires r < |w.rows| && Terminal(w.rows[r].status)
    requires k < |w.attempts| && w.attempts[k].row < |w.rows|
    requires op.RetryClaim? || op.FailClaim? || op.CompleteClaim?
    ensures r < |Commit(w, k, op).rows| && Commit(w, k, op).rows[r].status == w.rows[r].status
    ensures Claims(Commit(w, k, op).attempts, r) == Claims(w.attempts, r)
  {
    SameRowsSameClaims(w.attempts, Commit(w, k, op).attempts, r);
  }

  lemma OtherStepsKeepQuarantine(w: World, e: Event, r: nat)
    requires r < |w.rows| && Terminal(w.rows[r].status) && !e.Maintain? && !e.Claim?
    ensures r < |Step(w, e).rows| && Step(w, e).rows[r].status == w.rows[r].status
    ensures Claims(Step(w, e).attempts, r) == Claims(w.attempts, r)
  {
    match e
    case DropRemovedJob(k, error) =>
      if Step(w, e) != w {
        var a := w.attempts[k];
        CommitKeepsTerminal(w.(attempts := w.attempts[k := a.(alive := false)]), k,
                            FailClaim(w.rows[a.row].sendId, a.owner, Status.Cancelled, error), r);
        SameRowsSameClaims(w.attempts, w.attempts[k := a.(alive := false)], r);
      }
    case Settle(k, leaseLost, error) =>
      if Step(w, e) != w {
        var a := w.attempts[k];
        var d := w.rows[a.row];
        if leaseLost && a.outcome.value.Returned? {
          SameRowsSameClaims(w.attempts, Step(w, e).attempts, r);
        } else {
          CommitKeepsTerminal(w, k, ReceiptFor(a.outcome.value, d.sendId, a.owner, d.retryAttempt, w.now, error), r);
        }
      }
    case _ => SameRowsSameClaims(w.attempts, Step(w, e).attempts, r);
  }

  lemma StepKeepsQuarantine(w: World, e: Event, r: nat)
    requires Inv(w) && r < |w.rows| && Terminal(w.rows[r].status)
    ensures r < |Step(w, e).rows| && StillEnded(w.rows[r].status, Step(w, e).rows[r].status)
    ensures Claims(Step(w, e).attempts, r) == Claims(w.attempts, r)
  {
    match e
    case Maintain(op) => if Unclaimed(op) { MaintenanceKeepsQuarantine(w.rows, w.now, op, r); }
    case Claim(owner, lease, captures, maxActive) => ClaimKeepsQuarantine(w, owner, lease, captures, maxActive, r);
    case _ => OtherStepsKeepQuarantine(w, e, r);
  }

  /** Once a delivery is quarantined by lease expiry, or ended in any other way, no continuation of the run
      ever claims it again; the only later change is a reconciliation from unknown to succeeded. */
  lemma {:induction false} NeverClaimedAgain(w: World, events: seq<Event>, r: nat)
    requires Inv(w) && r < |w.rows| && Terminal(w.rows[r].status)
    ensures r < |Run(w, events).rows| && StillEnded(w.rows[r].status, Run(w, events).rows[r].status)
    ensures Claims(Run(w, events).attempts, r) == Claims(w.attempts, r)
    decreases |events|
  {
    if events != [] {
      StepKeepsQuarantine(w, events[0], r);
      StepKeepsInv(w, events[0]);
      NeverClaimedAgain(Step(w, events[0]), events[1..], r);
    }
  }
}
