/** The queue, the saved responses and the replies as one system: who occupies a dispatch slot, and how
    the two databases are reconciled. */
module Fleet {
  import opened Tables
  import opened Captures
  import Q = DeliveryQueue
  import R = Responses
  import P = Replies

  datatype World = World(
    now: Time, maxActive: int, rows: seq<Q.Delivery>, responses: R.Table, replies: seq<P.Reply>,
    proofs: set<string>)

  // ---------------------------------------------------------------- shared slots

  /** Fresh chats of this program; other rows never occupy a slot. */
  predicate Tracked(id: string) {
    HasPrefix("scheduled-", id) || HasPrefix("manual-", id)
  }

  predicate LiveCapture(r: R.Response, now: Time) {
    R.Live(r.status) && r.deadline > now
  }

  predicate LiveReply(r: P.Reply, now: Time) {
    P.InFlight(r.status) && r.deadline > now
  }

  function CaptureIds(responses: R.Table, now: Time): set<string> {
    set id | id in responses && Tracked(id) && LiveCapture(responses[id], now)
  }

  function ReplyIds(replies: seq<P.Reply>, now: Time): set<string> {
    set i | 0 <= i < |replies| && LiveReply(replies[i], now) :: replies[i].sendId
  }

  function CapturedIds(w: World): set<string> {
    CaptureIds(w.responses, w.now) + ReplyIds(w.replies, w.now)
  }

  /** Everything that occupies a slot, counted once per send id. */
  function Active(w: World): set<string> {
    Q.RunningIds(w.rows) + CapturedIds(w)
  }

  // ---------------------------------------------------------------- steps

  datatype Event =
    | Advance(seconds: Time)
    | Queue(qop: Q.Op)
    | ClaimNext(owner: string, leaseSeconds: Time)
    | Respond(rop: R.Op)
    | Reply(pop: P.Op)
    | ClaimReply(replyId: string, owner: string, deadline: Time)
    | CollectReceipts
    | ReconcileReceipts(batch: set<string>)

  predicate Confirmed(r: R.Response) {
    r.acceptedAt > 0.0 &&
    (r.status.Accepted? || r.status.Generating? || r.status.Completed? || r.status.Interrupted? ||
     r.status.Unavailable?)
  }

  function UncertainIds(rows: seq<Q.Delivery>): set<string> {
    set i | 0 <= i < |rows| && rows[i].status.OutcomeUnknown? :: rows[i].sendId
  }

  /** The quarantined deliveries whose acceptance the response database proves. */
  function ConfirmedIds(rows: seq<Q.Delivery>, responses: R.Table): set<string> {
    set id | id in UncertainIds(rows) && id in responses && Confirmed(responses[id])
  }

  /** An explicit reply is claimed only while a slot is free. */
  function ReplyClaimed(env: Env, w: World, id: string, owner: string, deadline: Time): World {
    if |Active(w)| >= w.maxActive then w
    else w.(replies := P.Apply(env, w.replies, w.responses, P.One(id, P.Claim(owner, deadline)), w.now))
  }

  /** Claims read the captures while they hold the queue's write lock. Reconciliation reads receipts in one
      transaction and rewrites the queue in a later one; anything may happen in between. */
  function Step(env: Env, w: World, e: Event): World {
    match e
    case Advance(s) => if s >= 0.0 then w.(now := w.now + s) else w
    case Queue(op) => if op.ClaimNext? || op.Reconcile? then w else w.(rows := Q.Apply(w.rows, w.now, op))
    case ClaimNext(owner, lease) => w.(rows := Q.Claim(w.rows, w.now, owner, lease, CapturedIds(w), Some(w.maxActive)))
    case Respond(op) => w.(responses := R.Apply(env, w.responses, op, w.now))
    case Reply(op) =>
      if op.One? && op.op.Claim? then w else w.(replies := P.Apply(env, w.replies, w.responses, op, w.now))
    case ClaimReply(id, owner, deadline) => ReplyClaimed(env, w, id, owner, deadline)
    case CollectReceipts =>
      w.(proofs := w.proofs + ConfirmedIds(w.rows, w.responses),
         responses := R.Apply(env, w.responses, R.ProjectUncertain(UncertainIds(w.rows)), w.now))
    case ReconcileReceipts(batch) =>
      if batch <= w.proofs then w.(rows := Q.Apply(w.rows, w.now, Q.Reconcile(batch))) else w
  }

  function Run(env: Env, w: World, events: seq<Event>): World
    decreases |events|
  {
    if events == [] then w else Run(env, Step(env, w, events[0]), events[1..])
  }
}
