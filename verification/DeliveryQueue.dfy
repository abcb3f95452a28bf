/** The fresh-chat delivery queue: guarded in-place updates of the job_deliveries table. */
module DeliveryQueue {
  import opened Tables

  datatype Status =
    | Queued | Running | Retrying | RateLimited
    | Succeeded | Cancelled | DeadLettered | OutcomeUnknown

  datatype Delivery = Delivery(
    sendId: string, message: string, images: seq<string>, clientId: string,
    oneTime: bool, pinChat: bool, priority: int,
    status: Status, lastError: string,
    createdAt: Time, updatedAt: Time, retryAt: Time, retryAttempt: nat, finishedAt: Time,
    leaseOwner: string, leaseAcquiredAt: Time, leaseExpiresAt: Time)

  /** What a producer hands to the queue. */
  datatype Request = Request(
    sendId: string, message: string, images: seq<string>, clientId: string,
    oneTime: bool, pinChat: bool, createdAt: Time)

  const EXPIRED_LEASE_ERROR := "Worker lease expired before a durable send receipt; acceptance is unknown."

  predicate Waiting(s: Status) {
    s.Queued? || s.Retrying? || s.RateLimited?
  }

  predicate Retryable(s: Status) {
    s.Retrying? || s.RateLimited?
  }

  predicate Terminal(s: Status) {
    s.Succeeded? || s.Cancelled? || s.DeadLettered? || s.OutcomeUnknown?
  }

  // ---------------------------------------------------------------- row updates

  function Released(d: Delivery): Delivery {
    d.(leaseOwner := "", leaseAcquiredAt := 0.0, leaseExpiresAt := 0.0)
  }

  predicate Expired(d: Delivery, at: Time) {
    d.status.Running? && d.leaseExpiresAt <= at
  }

  function ExpireRow(d: Delivery, at: Time): Delivery {
    if Expired(d, at) then
      Released(d).(status := OutcomeUnknown, lastError := EXPIRED_LEASE_ERROR,
                   updatedAt := at, finishedAt := at, retryAt := 0.0)
    else d
  }

  /** The WHERE clause shared by every write of a claim holder. */
  predicate Owned(d: Delivery, id: string, owner: string, at: Time) {
    d.sendId == id && d.status.Running? && d.leaseOwner == owner && d.leaseExpiresAt > at
  }

  function LeaseEnd(at: Time, leaseSeconds: Time): Time {
    at + Later(1.0, leaseSeconds)
  }

  function RenewRow(d: Delivery, id: string, owner: string, leaseSeconds: Time, at: Time): Delivery {
    if Owned(d, id, owner, at) then d.(updatedAt := at, leaseExpiresAt := LeaseEnd(at, leaseSeconds)) else d
  }

  function RetryRow(d: Delivery, id: string, owner: string, status: Status, retryAt: Time,
                    attempt: nat, error: string, at: Time): Delivery
  {
    if Owned(d, id, owner, at) then
      Released(d).(status := status, lastError := error, retryAt := retryAt,
                   retryAttempt := attempt, updatedAt := at)
    else d
  }

  function CompleteRow(d: Delivery, id: string, owner: string, at: Time): Delivery {
    if Owned(d, id, owner, at) then
      Released(d).(status := Succeeded, lastError := "", retryAt := 0.0, updatedAt := at,
                   finishedAt := if d.finishedAt > 0.0 then d.finishedAt else at)
    else d
  }

  function FailRow(d: Delivery, id: string, owner: string, status: Status, error: string, at: Time): Delivery {
    if Owned(d, id, owner, at) then
      Released(d).(status := status, lastError := error, retryAt := 0.0, finishedAt := at, updatedAt := at)
    else d
  }

  function CancelRow(d: Delivery, id: string, error: string, at: Time): Delivery {
    if d.sendId == id && Waiting(d.status) then
      Released(d).(status := Cancelled, lastError := error, retryAt := 0.0, finishedAt := at, updatedAt := at)
    else d
  }

  function ReconcileRow(d: Delivery, confirmed: set<string>, at: Time): Delivery {
    if d.sendId in confirmed && d.status.OutcomeUnknown? then
      d.(status := Succeeded, lastError := "", retryAt := 0.0, updatedAt := at,
         finishedAt := if d.finishedAt > 0.0 then d.finishedAt else at)
    else d
  }

  function BumpRow(d: Delivery, id: string, priority: int): Delivery {
    if d.sendId == id && Waiting(d.status) then d.(priority := priority) else d
  }

  function PromoteRow(d: Delivery, id: string): Delivery {
    if d.sendId == id && !d.oneTime && Waiting(d.status) then d.(oneTime := true) else d
  }

  /** A first delivery no worker has touched: the only one whose prompt may still change. */
  predicate Untouched(d: Delivery) {
    d.status.Queued? && d.leaseOwner == "" && d.retryAttempt == 0
  }

  function EditRow(d: Delivery, id: string, message: string, at: Time): Delivery {
    if d.sendId == id && Untouched(d) then d.(message := message, updatedAt := at) else d
  }

  function ClaimedRow(d: Delivery, owner: string, leaseSeconds: Time, at: Time): Delivery {
    d.(status := Running, updatedAt := at, leaseOwner := owner, leaseAcquiredAt := at,
       leaseExpiresAt := LeaseEnd(at, leaseSeconds))
  }

  // ---------------------------------------------------------------- dispatch order

  predicate Claimable(d: Delivery, at: Time) {
    Waiting(d.status) && d.retryAt <= at
  }

  function DispatchClass(d: Delivery): int {
    if HasPrefix("manual:", d.clientId) then 0 else if d.oneTime then 1 else 2
  }

  /** ORDER BY queue_priority, dispatch class; the row number settles ties. */
  predicate Before(a: Delivery, b: Delivery) {
    a.priority < b.priority || (a.priority == b.priority && DispatchClass(a) < DispatchClass(b))
  }

  /** Row i is the one a claim must take: claimable, and nothing claimable is ahead of it. */
  ghost predicate IsNext(rows: seq<Delivery>, at: Time, i: nat) {
    i < |rows| && Claimable(rows[i], at) &&
    forall j :: 0 <= j < |rows| && Claimable(rows[j], at) ==>
      !Before(rows[j], rows[i]) && (j < i ==> Before(rows[i], rows[j]))
  }

  function BestOf(rows: seq<Delivery>, at: Time, n: nat): Option<nat>
    requires n <= |rows|
  {
    if n == 0 then None
    else
      var prior := BestOf(rows, at, n - 1);
      if !Claimable(rows[n - 1], at) then prior
      else if prior.None? || (prior.value < |rows| && Before(rows[n - 1], rows[prior.value])) then Some(n - 1)
      else prior
  }

  function Next(rows: seq<Delivery>, at: Time): Option<nat> {
    BestOf(rows, at, |rows|)
  }

  lemma {:induction false} BestOfIsLeast(rows: seq<Delivery>, at: Time, n: nat)
    requires n <= |rows|
    ensures match BestOf(rows, at, n)
            case None => forall j :: 0 <= j < n ==> !Claimable(rows[j], at)
            case Some(i) => i < n && IsNext(rows[..n], at, i)
  {
    if n > 0 {
      BestOfIsLeast(rows, at, n - 1);
      assert forall j :: 0 <= j < n - 1 ==> rows[..n][j] == rows[..n - 1][j];
    }
  }

  /** The chosen row is the unique least claimable one, and there is one whenever any is claimable. */
  lemma NextIsExact(rows: seq<Delivery>, at: Time)
    ensures Next(rows, at).None? <==> forall j :: 0 <= j < |rows| ==> !Claimable(rows[j], at)
    ensures forall i: nat :: Next(rows, at) == Some(i) <==> IsNext(rows, at, i)
  {
    BestOfIsLeast(rows, at, |rows|);
    assert rows[..|rows|] == rows;
  }

  // ---------------------------------------------------------------- table operations

  datatype Op =
    | Enqueue(request: Request)
    | ExpireLeases
    | ClaimNext(owner: string, leaseSeconds: Time, captures: set<string>, maxActive: Option<int>)
    | RenewLease(id: string, owner: string, leaseSeconds: Time)
    | RetryClaim(id: string, owner: string, status: Status, retryAt: Time, attempt: nat, error: string)
    | CompleteClaim(id: string, owner: string)
    | FailClaim(id: string, owner: string, status: Status, error: string)
    | CancelPending(id: string, error: string)
    | Reconcile(confirmed: set<string>)
    | BumpToFront(id: string)
    | PromoteOneTime(id: string)
    | EditPrompt(id: string, message: string)

  predicate Clashes(d: Delivery, r: Request) {
    d.sendId == r.sendId || (r.clientId != "" && d.clientId == r.clientId)
  }

  predicate Fresh(rows: seq<Delivery>, r: Request) {
    forall i :: 0 <= i < |rows| ==> !Clashes(rows[i], r)
  }

  function NewRow(r: Request): Delivery {
    Delivery(r.sendId, r.message, r.images, r.clientId, r.oneTime, r.pinChat, 0,
             Queued, "", r.createdAt, r.createdAt, 0.0, 0, 0.0, "", 0.0, 0.0)
  }

  function RunningIds(rows: seq<Delivery>): (ids: set<string>) {
    set i | 0 <= i < |rows| && rows[i].status.Running? :: rows[i].sendId
  }

  predicate HasSlot(rows: seq<Delivery>, captures: set<string>, maxActive: Option<int>) {
    maxActive.None? || |RunningIds(rows) + captures| < maxActive.value
  }

  function MinPriority(rows: seq<Delivery>): int {
    if |rows| == 0 then 0
    else if |rows| == 1 then rows[0].priority
    else
      var rest := MinPriority(rows[1..]);
      if rows[0].priority <= rest then rows[0].priority else rest
  }

  function Expire(rows: seq<Delivery>, at: Time): seq<Delivery> {
    Update(rows, d => ExpireRow(d, at))
  }

  /** The row the claim takes after the expiry sweep, if the cap leaves a slot. */
  function Claimed(rows: seq<Delivery>, at: Time, captures: set<string>, maxActive: Option<int>): Option<nat> {
    var swept := Expire(rows, at);
    if HasSlot(swept, captures, maxActive) then Next(swept, at) else None
  }

  function Claim(rows: seq<Delivery>, at: Time, owner: string, leaseSeconds: Time,
                 captures: set<string>, maxActive: Option<int>): seq<Delivery>
  {
    var swept := Expire(rows, at);
    match Claimed(rows, at, captures, maxActive)
    case Some(i) => if i < |swept| then swept[i := ClaimedRow(swept[i], owner, leaseSeconds, at)] else swept
    case None => swept
  }

  /** One committed transaction at time `at`. */
  function Apply(rows: seq<Delivery>, at: Time, op: Op): seq<Delivery> {
    match op
    case Enqueue(r) =>
      if r.sendId != "" && r.message != "" && Fresh(rows, r) then rows + [NewRow(r)] else rows
    case ExpireLeases => Expire(rows, at)
    case ClaimNext(owner, lease, captures, maxActive) => Claim(rows, at, owner, lease, captures, maxActive)
    case RenewLease(id, owner, lease) => Update(rows, d => RenewRow(d, id, owner, lease, at))
    case RetryClaim(id, owner, status, retryAt, attempt, error) =>
      if Retryable(status) then Update(rows, d => RetryRow(d, id, owner, status, retryAt, attempt, error, at))
      else rows
    case CompleteClaim(id, owner) => Update(rows, d => CompleteRow(d, id, owner, at))
    case FailClaim(id, owner, status, error) =>
      if Terminal(status) && !status.Succeeded? then Update(rows, d => FailRow(d, id, owner, status, error, at))
      else rows
    case CancelPending(id, error) => Update(rows, d => CancelRow(d, id, error, at))
    case Reconcile(confirmed) => Update(rows, d => ReconcileRow(d, confirmed, at))
    case BumpToFront(id) => var p := MinPriority(rows) - 1; Update(rows, d => BumpRow(d, id, p))
    case PromoteOneTime(id) => Update(rows, d => PromoteRow(d, id))
    case EditPrompt(id, message) => Update(rows, d => EditRow(d, id, message, at))
  }

  // ---------------------------------------------------------------- what every operation keeps

  ghost predicate UniqueIds(rows: seq<Delivery>) {
    forall i, j :: 0 <= i < j < |rows| ==>
      rows[i].sendId != rows[j].sendId && (rows[i].clientId != "" ==> rows[i].clientId != rows[j].clientId)
  }

  ghost predicate LeaseShape(d: Delivery) {
    d.status.Running? || d.leaseOwner == ""
  }

  ghost predicate Valid(rows: seq<Delivery>) {
    UniqueIds(rows) && forall i :: 0 <= i < |rows| ==> LeaseShape(rows[i])
  }

  /** The status graph of one row. Waiting is left only by a claim or a cancellation, running is
      reached only by a claim, and no terminal status ever becomes claimable again. */
  ghost predicate Evolves(before: Status, after: Status) {
    before == after
    || (Waiting(before) && (after.Running? || after.Cancelled?))
    || (before.Running? && (Retryable(after) || Terminal(after)))
    || (before.OutcomeUnknown? && after.Succeeded?)
  }

  /** What identifies a delivery never changes. */
  ghost predicate SameDelivery(a: Delivery, b: Delivery) {
    a.sendId == b.sendId && a.clientId == b.clientId && a.images == b.images &&
    a.pinChat == b.pinChat && a.createdAt == b.createdAt
  }

  ghost predicate RowStep(before: Delivery, after: Delivery, op: Op) {
    SameDelivery(before, after) && Evolves(before.status, after.status) && LeaseShape(after) &&
    (after.message != before.message ==> op.EditPrompt? && Untouched(before) && Untouched(after))
  }

  lemma ClaimSteps(rows: seq<Delivery>, at: Time, op: Op, i: nat)
    requires i < |rows| && LeaseShape(rows[i]) && op.ClaimNext?
    ensures i < |Apply(rows, at, op)| && RowStep(rows[i], Apply(rows, at, op)[i], op)
  {
    var swept := Expire(rows, at);
    NextIsExact(swept, at);
    assert swept[i] == ExpireRow(rows[i], at);
  }

  /** A claim holder's writes. */
  lemma HolderSteps(rows: seq<Delivery>, at: Time, op: Op, i: nat)
    requires i < |rows| && LeaseShape(rows[i])
    requires op.RenewLease? || op.RetryClaim? || op.CompleteClaim? || op.FailClaim?
    ensures i < |Apply(rows, at, op)| && RowStep(rows[i], Apply(rows, at, op)[i], op)
  {
  }

  lemma MaintenanceSteps(rows: seq<Delivery>, at: Time, op: Op, i: nat)
    requires i < |rows| && LeaseShape(rows[i])
    requires !op.ClaimNext? && !op.RenewLease? && !op.RetryClaim? && !op.CompleteClaim? && !op.FailClaim?
    ensures i < |Apply(rows, at, op)| && RowStep(rows[i], Apply(rows, at, op)[i], op)
  {
  }

  lemma RowSteps(rows: seq<Delivery>, at: Time, op: Op, i: nat)
    requires i < |rows| && LeaseShape(rows[i])
    ensures i < |Apply(rows, at, op)| && RowStep(rows[i], Apply(rows, at, op)[i], op)
  {
    if op.ClaimNext? {
      ClaimSteps(rows, at, op, i);
    } else if op.RenewLease? || op.RetryClaim? || op.CompleteClaim? || op.FailClaim? {
      HolderSteps(rows, at, op, i);
    } else {
      MaintenanceSteps(rows, at, op, i);
    }
  }

  /** Every operation keeps the table consistent, keeps each row's identity and place, and moves its
      status only along Evolves; the prompt changes only while the delivery is untouched. */
  lemma ApplyKeepsRows(rows: seq<Delivery>, at: Time, op: Op)
    requires Valid(rows)
    ensures Valid(Apply(rows, at, op))
    ensures |rows| <= |Apply(rows, at, op)| <= |rows| + 1
    ensures forall i :: 0 <= i < |rows| ==> RowStep(rows[i], Apply(rows, at, op)[i], op)
  {
    var after := Apply(rows, at, op);
    forall i | 0 <= i < |rows| ensures RowStep(rows[i], after[i], op) {
      RowSteps(rows, at, op, i);
    }
    assert |after| == |rows| || (op.Enqueue? && after == rows + [NewRow(op.request)]);
  }

  lemma ClaimKeepsValid(rows: seq<Delivery>, at: Time, owner: string, lease: Time,
                        captures: set<string>, maxActive: Option<int>)
    requires Valid(rows)
    ensures Valid(Claim(rows, at, owner, lease, captures, maxActive))
  {
    ApplyKeepsRows(rows, at, Op.ClaimNext(owner, lease, captures, maxActive));
  }

  /** A claim runs exactly the row it names, which was waiting; every other row only expires. */
  lemma ClaimEffect(rows: seq<Delivery>, at: Time, owner: string, lease: Time,
                    captures: set<string>, maxActive: Option<int>)
    ensures |Claim(rows, at, owner, lease, captures, maxActive)| == |rows|
    ensures match Claimed(rows, at, captures, maxActive)
            case None => Claim(rows, at, owner, lease, captures, maxActive) == Expire(rows, at)
            case Some(i) =>
              i < |rows| && Claimable(rows[i], at) &&
              Claim(rows, at, owner, lease, captures, maxActive) ==
                Expire(rows, at)[i := ClaimedRow(rows[i], owner, lease, at)]
  {
    NextIsExact(Expire(rows, at), at);
  }

  /** Only a claim makes a row run, and it can only be the row that Claimed names. */
  lemma OnlyClaimsRun(rows: seq<Delivery>, at: Time, op: Op, i: nat)
    requires i < |rows| && !rows[i].status.Running? && Apply(rows, at, op)[i].status.Running?
    requires |rows| <= |Apply(rows, at, op)|
    ensures op.ClaimNext? && Claimed(rows, at, op.captures, op.maxActive) == Some(i)
    ensures Claimable(rows[i], at) && Apply(rows, at, op)[i].leaseOwner == op.owner
  {
    if op.ClaimNext? {
      NextIsExact(Expire(rows, at), at);
    }
  }

  // ---------------------------------------------------------------- the store

  datatype CompletionAction = Commit | Acknowledge | Reject

  /** How a worker that reports success must be answered. */
  function ActionFor(d: Delivery, owner: string): CompletionAction {
    if d.status.Succeeded? then Acknowledge
    else if !d.status.Running? || d.leaseOwner != owner then Reject
    else Commit
  }

  datatype Receipt = Receipt(row: Delivery, created: bool) | Refused

  class DeliveryQueueStore {
    var rows: seq<Delivery>

    ghost predicate Consistent()
      reads this
    {
      Valid(rows)
    }

    constructor ()
      ensures Consistent() && rows == []
    {
      rows := [];
    }

    /** Insert once per send id and client id; a repeated request gets the saved row back untouched. */
    method EnqueueIdempotent(request: Request) returns (receipt: Receipt)
      requires Consistent()
      modifies this
      ensures Consistent() && rows == Apply(old(rows), request.createdAt, Enqueue(request))
      ensures receipt.Refused? <==> request.sendId == "" || request.message == ""
      ensures receipt.Receipt? ==> receipt.row in rows && Clashes(receipt.row, request)
      ensures receipt.Receipt? ==> (receipt.created <==> Fresh(old(rows), request))
      ensures receipt.Receipt? && (exists i :: 0 <= i < |rows| && rows[i].sendId == request.sendId) ==>
                receipt.row.sendId == request.sendId
    {
      ApplyKeepsRows(rows, request.createdAt, Enqueue(request));
      if request.sendId == "" || request.message == "" {
        return Refused;
      }
      var created := Fresh(rows, request);
      if created {
        rows := rows + [NewRow(request)];
        assert Clashes(rows[|rows| - 1], request);
      }
      var byClient: Option<nat> := None;
      var n := 0;
      while n < |rows|
        invariant n <= |rows|
        invariant forall j :: 0 <= j < n ==> rows[j].sendId != request.sendId
        invariant byClient.None? ==> forall j :: 0 <= j < n ==> !Clashes(rows[j], request)
        invariant byClient.Some? ==> byClient.value < n && Clashes(rows[byClient.value], request)
      {
        if rows[n].sendId == request.sendId {
          return Receipt(rows[n], created);
        }
        if byClient.None? && request.clientId != "" && rows[n].clientId == request.clientId {
          byClient := Some(n);
        }
        n := n + 1;
      }
      if byClient.Some? {
        return Receipt(rows[byClient.value], created);
      }
      assert false;
      return Refused;
    }

    /** Quarantine every running row whose lease has run out; nothing is retried. */
    method ExpireLeases(at: Time) returns (expired: set<string>)
      requires Consistent()
      modifies this
      ensures Consistent() && rows == Apply(old(rows), at, Op.ExpireLeases)
      ensures expired == set i | 0 <= i < |old(rows)| && Expired(old(rows)[i], at) :: old(rows)[i].sendId
    {
      ApplyKeepsRows(rows, at, Op.ExpireLeases);
      expired := set i | 0 <= i < |rows| && Expired(rows[i], at) :: rows[i].sendId;
      rows := Expire(rows, at);
    }

    /** The ORDER BY ... LIMIT 1 subquery. */
    method SelectNext(at: Time) returns (best: Option<nat>)
      ensures best == Next(rows, at)
      ensures best.None? <==> forall j :: 0 <= j < |rows| ==> !Claimable(rows[j], at)
      ensures best.Some? ==> IsNext(rows, at, best.value)
    {
      best := None;
      for n := 0 to |rows|
        invariant best == BestOf(rows, at, n)
        invariant best.Some? ==> best.value < n
      {
        if Claimable(rows[n], at) && (best.None? || Before(rows[n], rows[best.value])) {
          best := Some(n);
        }
      }
      NextIsExact(rows, at);
    }

    /** Sweep, count the shared slots, then claim the next delivery in dispatch order, all atomically. */
    method ClaimNext(owner: string, leaseSeconds: Time, at: Time, captures: set<string>, maxActive: Option<int>)
      returns (record: Option<Delivery>, ghost place: nat)
      requires Consistent()
      modifies this
      ensures Consistent() && rows == Apply(old(rows), at, Op.ClaimNext(owner, leaseSeconds, captures, maxActive))
      ensures record.Some? <==>
                HasSlot(Expire(old(rows), at), captures, maxActive) &&
                exists j :: 0 <= j < |old(rows)| && Claimable(Expire(old(rows), at)[j], at)
      ensures record.Some? ==>
                IsNext(Expire(old(rows), at), at, place) && place < |rows| && rows[place] == record.value &&
                record.value == ClaimedRow(Expire(old(rows), at)[place], owner, leaseSeconds, at)
    {
      ClaimKeepsValid(rows, at, owner, leaseSeconds, captures, maxActive);
      rows := Expire(rows, at);
      record, place := None, 0;
      if HasSlot(rows, captures, maxActive) {
        var best := SelectNext(at);
        if best.Some? {
          rows := rows[best.value := ClaimedRow(rows[best.value], owner, leaseSeconds, at)];
          record, place := Some(rows[best.value]), best.value;
        }
      }
    }

    method RenewLease(id: string, owner: string, leaseSeconds: Time, at: Time) returns (ok: bool)
      requires Consistent()
      modifies this
      ensures Consistent() && rows == Apply(old(rows), at, Op.RenewLease(id, owner, leaseSeconds))
      ensures ok <==> (exists i :: 0 <= i < |old(rows)| && Owned(old(rows)[i], id, owner, at))
    {
      ApplyKeepsRows(rows, at, Op.RenewLease(id, owner, leaseSeconds));
      ok := exists i :: 0 <= i < |rows| && Owned(rows[i], id, owner, at);
      rows := Update(rows, d => RenewRow(d, id, owner, leaseSeconds, at));
    }

    /** Only a live claim of this owner can be handed back for a later attempt. */
    method RetryClaim(id: string, owner: string, status: Status, retryAt: Time, attempt: nat,
                      error: string, at: Time) returns (ok: bool)
      requires Consistent()
      modifies this
      ensures Consistent()
      ensures rows == Apply(old(rows), at, Op.RetryClaim(id, owner, status, retryAt, attempt, error))
      ensures ok <==> Retryable(status) && (exists i :: 0 <= i < |old(rows)| && Owned(old(rows)[i], id, owner, at))
    {
      ApplyKeepsRows(rows, at, Op.RetryClaim(id, owner, status, retryAt, attempt, error));
      if !Retryable(status) {
        return false;
      }
      ok := exists i :: 0 <= i < |rows| && Owned(rows[i], id, owner, at);
      rows := Update(rows, d => RetryRow(d, id, owner, status, retryAt, attempt, error, at));
    }

    /** Success is committed under a live lease, or acknowledged when it is already recorded. */
    method CompleteClaim(id: string, owner: string, at: Time) returns (ok: bool)
      requires Consistent()
      modifies this
      ensures Consistent() && rows == Apply(old(rows), at, Op.CompleteClaim(id, owner))
      ensures ok <==>
                exists i ::
                  0 <= i < |old(rows)| &&
                  ((old(rows)[i].sendId == id && old(rows)[i].status.Succeeded?) || Owned(old(rows)[i], id, owner, at))
      ensures ok <==> (exists i :: 0 <= i < |rows| && rows[i].sendId == id && rows[i].status.Succeeded?)
    {
      ApplyKeepsRows(rows, at, Op.CompleteClaim(id, owner));
      ok := false;
      ghost var before := rows;
      var after := Update(rows, d => CompleteRow(d, id, owner, at));
      for n := 0 to |rows|
        invariant rows == before
        invariant ok <==> exists i :: 0 <= i < n && rows[i].sendId == id &&
                                      (rows[i].status.Succeeded? || Owned(rows[i], id, owner, at))
      {
        if rows[n].sendId == id {
          var action := ActionFor(rows[n], owner);
          ok := action == Acknowledge || (action == Commit && rows[n].leaseExpiresAt > at);
        }
      }
      rows := after;
      assert forall i :: 0 <= i < |rows| ==>
        ((rows[i].sendId == id && rows[i].status.Succeeded?) <==>
         (before[i].sendId == id && (before[i].status.Succeeded? || Owned(before[i], id, owner, at))));
    }

    method FailClaim(id: string, owner: string, status: Status, error: string, at: Time) returns (ok: bool)
      requires Consistent()
      modifies this
      ensures Consistent() && rows == Apply(old(rows), at, Op.FailClaim(id, owner, status, error))
      ensures ok <==>
                Terminal(status) && !status.Succeeded? &&
                (exists i :: 0 <= i < |old(rows)| && Owned(old(rows)[i], id, owner, at))
    {
      ApplyKeepsRows(rows, at, Op.FailClaim(id, owner, status, error));
      if !Terminal(status) || status.Succeeded? {
        return false;
      }
      ok := exists i :: 0 <= i < |rows| && Owned(rows[i], id, owner, at);
      rows := Update(rows, d => FailRow(d, id, owner, status, error, at));
    }

    /** Only a delivery no worker holds can be withdrawn. */
    method CancelPending(id: string, error: string, at: Time) returns (ok: bool)
      requires Consistent()
      modifies this
      ensures Consistent() && rows == Apply(old(rows), at, Op.CancelPending(id, error))
      ensures ok <==> (exists i :: 0 <= i < |old(rows)| && old(rows)[i].sendId == id && Waiting(old(rows)[i].status))
    {
      ApplyKeepsRows(rows, at, Op.CancelPending(id, error));
      ok := exists i :: 0 <= i < |rows| && rows[i].sendId == id && Waiting(rows[i].status);
      rows := Update(rows, d => CancelRow(d, id, error, at));
    }

    /** Quarantined deliveries whose acceptance another store has proven become successful, and no other row
        changes; none of them can be claimed again. */
    method ReconcileAccepted(confirmed: set<string>, at: Time)
      requires Consistent()
      modifies this
      ensures Consistent() && rows == Apply(old(rows), at, Op.Reconcile(confirmed))
      ensures |rows| == |old(rows)|
      ensures forall i | 0 <= i < |rows| && old(rows)[i].status.OutcomeUnknown? && old(rows)[i].sendId in confirmed ::
                rows[i].status.Succeeded? && SameDelivery(old(rows)[i], rows[i]) &&
                rows[i].message == old(rows)[i].message
      ensures forall i | 0 <= i < |rows| &&
              !(old(rows)[i].status.OutcomeUnknown? && old(rows)[i].sendId in confirmed) ::
                rows[i] == old(rows)[i]
      ensures forall i | 0 <= i < |rows| && rows[i] != old(rows)[i] :: forall later :: !Claimable(rows[i], later)
    {
      ApplyKeepsRows(rows, at, Op.Reconcile(confirmed));
      rows := Update(rows, d => ReconcileRow(d, confirmed, at));
    }
  }
}
