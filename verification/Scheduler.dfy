/** Occurrences of one recurring job: when it is due, which row an occurrence becomes, and how far apart rows
    are over ticks, crashes, manual fires and pauses. */
module Scheduler {
  import opened Tables

  const JITTER_FRACTION: Time := 0.2
  const JITTER_CAP: Time := 300.0

  datatype RowStatus = Waiting | Running | Succeeded | Failed

  /** A delivery of the job; `marker` stands for the send id derived from it. */
  datatype Row = Row(marker: Time, createdAt: Time, status: RowStatus, finishedAt: Time)

  /** The saved state of an interval job. `delivery` and `completed` are the last delivery recorded and the
      last one reconciled, named by their markers. */
  datatype Job = Job(
    lastSent: Time, lastUncertain: Time, nextDue: Time, initialDue: Time, lastEnqueued: Time, manualFire: Time,
    paused: bool, delivery: Option<Time>, completed: Option<Time>)

  /** The job's definition: a positive interval, exact or jittered. */
  datatype Plan = Plan(interval: Time, exact: bool)

  // ---------------------------------------------------------------- policy

  function JitterLimit(plan: Plan): Time {
    if plan.exact then 0.0 else Earlier(JITTER_CAP, Later(0.0, plan.interval) * JITTER_FRACTION)
  }

  function LastAttempt(j: Job): Time { Later(j.lastSent, j.lastUncertain) }

  function LatestDispatch(j: Job): Time { Later(Later(LastAttempt(j), j.lastEnqueued), j.manualFire) }

  function IntervalFloor(plan: Plan, j: Job): Time {
    if LatestDispatch(j) > 0.0 then LatestDispatch(j) + plan.interval else 0.0
  }

  function DueIn(plan: Plan, j: Job, now: Time): Time {
    var wait := Later(0.0, IntervalFloor(plan, j) - now);
    if j.nextDue > 0.0 && j.lastSent >= j.lastUncertain then Later(wait, j.nextDue - now)
    else if LastAttempt(j) > 0.0 then wait
    else if j.initialDue > 0.0 then Later(wait, j.initialDue - now)
    else wait
  }

  function Marker(j: Job): Time {
    if j.lastUncertain > j.lastSent then j.lastUncertain
    else if j.nextDue > 0.0 then j.nextDue
    else if j.initialDue > 0.0 then j.initialDue
    else if j.lastSent > 0.0 then j.lastSent
    else 0.0
  }

  predicate Unscheduled(j: Job) {
    j.lastSent == 0.0 && j.lastUncertain == 0.0 && j.lastEnqueued == 0.0 && j.initialDue == 0.0 && j.nextDue == 0.0
  }

  function EnsureInitial(j: Job, now: Time, jitter: Time): Job {
    if Unscheduled(j) then j.(initialDue := now + Later(0.0, jitter)) else j
  }

  predicate Pending(s: RowStatus) { s.Waiting? || s.Running? }

  function FindRow(rows: seq<Row>, marker: Time, from: nat := 0): (i: nat)
    requires from <= |rows|
    ensures from <= i <= |rows|
    ensures i < |rows| ==> rows[i].marker == marker
    ensures forall k :: from <= k < i ==> rows[k].marker != marker
    decreases |rows| - from
  {
    if from == |rows| || rows[from].marker == marker then from else FindRow(rows, marker, from + 1)
  }

  predicate DeliveryPending(j: Job, rows: seq<Row>) {
    j.delivery.Some? &&
    var i := FindRow(rows, j.delivery.value);
    i < |rows| && Pending(rows[i].status)
  }

  predicate ShouldEnqueue(plan: Plan, j: Job, rows: seq<Row>, now: Time) {
    !j.paused && DueIn(plan, j, now) <= 0.0 && !DeliveryPending(j, rows)
  }

  /** The terminal delivery that has not been reconciled. */
  predicate Reconcilable(j: Job, rows: seq<Row>) {
    j.delivery.Some? && j.completed != j.delivery &&
    var i := FindRow(rows, j.delivery.value);
    i < |rows| && !Pending(rows[i].status)
  }

  /** A random delay drawn for the next occurrence; none for exact intervals. */
  function Drawn(plan: Plan, jitter: Time): Time {
    Earlier(JitterLimit(plan), Later(0.0, jitter))
  }

  function Reconciled(plan: Plan, j: Job, r: Row, jitter: Time): Job {
    var due := r.finishedAt + plan.interval + Drawn(plan, jitter);
    var next := if j.manualFire > 0.0 then Later(due, j.manualFire + plan.interval) else due;
    var j1 := j.(initialDue := 0.0, nextDue := next, completed := Some(r.marker));
    if r.status.Succeeded? then j1.(lastSent := r.finishedAt, lastUncertain := 0.0) else j1
  }

  function Recorded(j: Job, r: Row): Job {
    j.(lastEnqueued := r.createdAt, delivery := Some(r.marker))
  }

  // ---------------------------------------------------------------- steps

  /** History: rows created and manual fires, in order. */
  datatype Entry = Created(marker: Time, at: Time) | Fired(at: Time)

  datatype World = World(now: Time, job: Job, rows: seq<Row>, log: seq<Entry>)

  datatype Event =
    | Advance(seconds: Time)
    | Reconcile(jitter: Time)
    | Enqueue(initialJitter: Time, crash: bool)
    | FireNow
    | SetPaused(paused: bool)
    | Dispatch(marker: Time)
    | Retry(marker: Time)
    | End(marker: Time, ok: bool)
    | Confirm(marker: Time)

  function SetRow(w: World, marker: Time, from: RowStatus, to: RowStatus, finish: bool): World {
    var i := FindRow(w.rows, marker);
    if i < |w.rows| && w.rows[i].status == from then
      w.(rows := w.rows[i := w.rows[i].(status := to, finishedAt := if finish then w.now else w.rows[i].finishedAt)])
    else w
  }

  function ReconcileJob(plan: Plan, w: World, jitter: Time): World {
    if Reconcilable(w.job, w.rows) then
      w.(job := Reconciled(plan, w.job, w.rows[FindRow(w.rows, w.job.delivery.value)], jitter))
    else w
  }

  /** The row key is derived from the marker and inserted at most once; a crash loses only the metadata. */
  function EnqueueJob(plan: Plan, w: World, jitter: Time, crash: bool): World {
    var j := EnsureInitial(w.job, w.now, jitter);
    var w1 := w.(job := j);
    if !ShouldEnqueue(plan, j, w.rows, w.now) then w1
    else
      var i := FindRow(w.rows, Marker(j));
      var w2 := if i < |w.rows| then w1
                else w1.(rows := w.rows + [Row(Marker(j), w.now, Waiting, 0.0)],
                         log := w.log + [Created(Marker(j), w.now)]);
      if crash then w2 else w2.(job := Recorded(j, w2.rows[i]))
  }

  function FireJobNow(plan: Plan, w: World): World {
    var j := w.job.(initialDue := 0.0, nextDue := w.now + plan.interval, manualFire := w.now);
    var fired := w.(log := w.log + [Fired(w.now)]);
    if w.job.delivery.None? then fired.(job := j)
    else
      var i := FindRow(w.rows, w.job.delivery.value);
      if i < |w.rows| && w.rows[i].status.Waiting? then
        fired.(job := j.(completed := w.job.delivery),
               rows := w.rows[i := w.rows[i].(status := Failed, finishedAt := w.now)])
      else fired.(job := j)
  }

  function Step(plan: Plan, w: World, e: Event): World {
    match e
    case Advance(s) => if s >= 0.0 then w.(now := w.now + s) else w
    case Reconcile(jitter) => ReconcileJob(plan, w, jitter)
    case Enqueue(jitter, crash) => EnqueueJob(plan, w, jitter, crash)
    case FireNow => FireJobNow(plan, w)
    case SetPaused(p) => w.(job := w.job.(paused := p))
    case Dispatch(m) => SetRow(w, m, Waiting, Running, false)
    case Retry(m) => SetRow(w, m, Running, Waiting, false)
    case End(m, ok) => SetRow(w, m, Running, if ok then Succeeded else Failed, true)
    case Confirm(m) => SetRow(w, m, Failed, Succeeded, false)
  }

  function Run(plan: Plan, w: World, events: seq<Event>): World
    decreases |events|
  {
    if events == [] then w else Run(plan, Step(plan, w, events[0]), events[1..])
  }

  /** A job without history, perhaps with a chosen first time. */
  function Start(now: Time, initialDue: Time): World {
    World(now, Job(0.0, 0.0, 0.0, initialDue, 0.0, 0.0, false, None, None), [], [])
  }

  // ---------------------------------------------------------------- the invariant

  /** The earliest moment at which the next occurrence may be enqueued. */
  function Gate(plan: Plan, j: Job): Time { Later(Marker(j), IntervalFloor(plan, j)) }

  ghost predicate RowOk(r: Row, now: Time) {
    0.0 < r.marker <= r.createdAt <= now && (!Pending(r.status) ==> r.createdAt <= r.finishedAt <= now)
  }

  ghost predicate JobOk(j: Job, now: Time) {
    && j.lastUncertain == 0.0 && 0.0 <= j.lastSent <= now && 0.0 <= j.lastEnqueued <= now && 0.0 <= j.manualFire <= now
    && j.nextDue >= 0.0 && j.initialDue >= 0.0
    && (j.lastSent > 0.0 || j.manualFire > 0.0 ==> j.nextDue > 0.0)
    && (j.lastEnqueued > 0.0 ==> j.nextDue > 0.0 || j.initialDue > 0.0)
  }

  /** The next occurrence is the last row again, or a later one at least an interval after it. */
  ghost predicate NextIsLater(plan: Plan, j: Job, r: Row) {
    Marker(j) == r.marker || (Marker(j) > r.marker && Gate(plan, j) >= r.createdAt + plan.interval)
  }

  ghost predicate RowsIncrease(rows: seq<Row>) {
    forall i, k :: 0 <= i < k < |rows| ==> rows[i].marker < rows[k].marker
  }

  /** The recorded delivery has not been reconciled. */
  predicate Unreconciled(j: Job) { j.delivery.Some? && j.completed != j.delivery }

  /** Reconciling delivery d now would place the next occurrence an interval after this moment, or later. */
  function Base(j: Job, d: Row): Time { Later(d.finishedAt, j.manualFire) }

  /** Whatever delay is drawn, reconciling d names the occurrence m again. */
  predicate NamesAgain(plan: Plan, j: Job, d: Row, m: Time) {
    Base(j, d) + plan.interval == m && (plan.exact || d.finishedAt + JitterLimit(plan) <= j.manualFire)
  }

  /** Reconciling d names the newest row r again, or an occurrence at least an interval after it. */
  predicate Closed(plan: Plan, j: Job, d: Row, r: Row) {
    !Pending(d.status) && d.finishedAt <= r.createdAt &&
    (Base(j, d) >= r.createdAt || (Marker(j) == r.marker && NamesAgain(plan, j, d, r.marker)))
  }

  /** The recorded delivery exists. Until it is reconciled it is the newest row, or ended before the newest row
      was created and can no longer misplace the next occurrence. */
  ghost predicate DeliveryOk(plan: Plan, j: Job, rows: seq<Row>) {
    j.delivery.Some? ==>
      var i := FindRow(rows, j.delivery.value);
      i < |rows| && j.lastEnqueued == rows[i].createdAt &&
      (Unreconciled(j) ==>
         j.lastSent <= rows[i].createdAt && (i == |rows| - 1 || Closed(plan, j, rows[i], rows[|rows| - 1])))
  }

  /** While the newest row is still the next occurrence, nothing was sent after it was created. */
  ghost predicate SentBefore(j: Job, rows: seq<Row>) {
    |rows| > 0 && Marker(j) == rows[|rows| - 1].marker ==> j.lastSent <= rows[|rows| - 1].createdAt
  }

  ghost predicate EntryOk(plan: Plan, w: World, e: Entry) {
    match e
    case Created(m, at) => |w.rows| > 0 && m <= w.rows[|w.rows| - 1].marker && at <= w.rows[|w.rows| - 1].createdAt
    case Fired(at) => 0.0 < at <= w.job.manualFire
  }

  ghost predicate Inv(plan: Plan, w: World) {
    && plan.interval > 0.0 && w.now > 0.0
    && JobOk(w.job, w.now)
    && (forall i :: 0 <= i < |w.rows| ==> RowOk(w.rows[i], w.now))
    && RowsIncrease(w.rows) && DeliveryOk(plan, w.job, w.rows) && SentBefore(w.job, w.rows)
    && (|w.rows| > 0 ==> !Unscheduled(w.job) && NextIsLater(plan, w.job, w.rows[|w.rows| - 1]))
    && (forall i :: 0 <= i < |w.log| ==> EntryOk(plan, w, w.log[i]))
  }

  /** Rows are named in increasing order, at least an interval apart, and at least an interval after any
      manual fire that precedes them. */
  ghost predicate Spaced(plan: Plan, log: seq<Entry>) {
    forall i, k | 0 <= i < k < |log| && log[k].Created? ::
      log[k].at >= log[i].at + plan.interval && (log[i].Created? ==> log[i].marker < log[k].marker)
  }

  // ---------------------------------------------------------------- each step keeps it

  lemma DueMeansGate(plan: Plan, j: Job, now: Time)
    requires JobOk(j, now) && plan.interval > 0.0 && DueIn(plan, j, now) <= 0.0
    requires j.nextDue > 0.0 || j.initialDue > 0.0
    ensures Gate(plan, j) <= now
  {
  }

  lemma FiredFloor(plan: Plan, j: Job, now: Time)
    requires JobOk(j, now) && j.manualFire > 0.0
    ensures IntervalFloor(plan, j) >= j.manualFire + plan.interval
  {
  }

  /** Markers increase, so a row is found at its own place. */
  lemma FoundAtPlace(rows: seq<Row>, i: nat)
    requires RowsIncrease(rows) && i < |rows|
    ensures FindRow(rows, rows[i].marker) == i
  {
  }

  lemma ReconciledIsLater(plan: Plan, j: Job, d: Row, r: Row, jitter: Time, now: Time)
    requires plan.interval > 0.0 && JobOk(j, now) && RowOk(d, now) && RowOk(r, now) && !Pending(d.status)
    requires j.lastEnqueued == d.createdAt && j.lastSent <= d.createdAt && (d == r || Closed(plan, j, d, r))
    ensures var after := Reconciled(plan, j, d, jitter);
            JobOk(after, now) && NextIsLater(plan, after, r) &&
            (Marker(after) == r.marker ==> after.lastSent <= r.createdAt)
  {
    var after := Reconciled(plan, j, d, jitter);
    assert 0.0 <= Drawn(plan, jitter) <= JitterLimit(plan);
    assert Marker(after) == after.nextDue >= Base(j, d) + plan.interval;
  }

  lemma ReconcileKeepsInv(plan: Plan, w: World, jitter: Time)
    requires Inv(plan, w)
    ensures Inv(plan, ReconcileJob(plan, w, jitter))
  {
    var after := ReconcileJob(plan, w, jitter);
    if Reconcilable(w.job, w.rows) {
      var i := FindRow(w.rows, w.job.delivery.value);
      assert RowOk(w.rows[i], w.now) && RowOk(w.rows[|w.rows| - 1], w.now);
      ReconciledIsLater(plan, w.job, w.rows[i], w.rows[|w.rows| - 1], jitter, w.now);
      forall k | 0 <= k < |w.log| ensures EntryOk(plan, after, w.log[k]) {
        assert EntryOk(plan, w, w.log[k]);
      }
    }
  }

  lemma InitialKeepsInv(plan: Plan, w: World, jitter: Time)
    requires Inv(plan, w)
    ensures Inv(plan, w.(job := EnsureInitial(w.job, w.now, jitter)))
    ensures EnsureInitial(w.job, w.now, jitter).nextDue > 0.0 ||
            EnsureInitial(w.job, w.now, jitter).initialDue > 0.0 || |w.rows| > 0
  {
    var after := w.(job := EnsureInitial(w.job, w.now, jitter));
    forall k | 0 <= k < |w.log| ensures EntryOk(plan, after, w.log[k]) {
      assert EntryOk(plan, w, w.log[k]);
    }
  }

  /** The due occurrence has no row yet. */
  predicate AddsRow(plan: Plan, w: World, jitter: Time) {
    var j := EnsureInitial(w.job, w.now, jitter);
    ShouldEnqueue(plan, j, w.rows, w.now) && FindRow(w.rows, Marker(j)) == |w.rows|
  }

  /** A crash that loses the metadata of a new row is harmless unless an ended delivery is still to be
      reconciled and that will place the next occurrence less than an interval from now: the delivery ended and
      the last manual fire happened before now, and the new row is not the occurrence they name anyway. */
  predicate Careful(plan: Plan, w: World, e: Event) {
    e.Enqueue? && e.crash && AddsRow(plan, w, e.initialJitter) && Unreconciled(w.job) ==>
      var i := FindRow(w.rows, w.job.delivery.value);
      i == |w.rows| || Base(w.job, w.rows[i]) >= w.now || NamesAgain(plan, w.job, w.rows[i], Marker(w.job))
  }

  ghost predicate Extends(plan: Plan, w: World, log: seq<Entry>, after: World) {
    && |log| <= |after.log| <= |log| + 1 && after.log[..|log|] == log
    && (|after.log| > |log| && after.log[|log|].Created? ==>
          forall i :: 0 <= i < |log| ==>
            after.log[|log|].at >= log[i].at + plan.interval &&
            (log[i].Created? ==> log[i].marker < after.log[|log|].marker))
  }

  /** Row and log after an occurrence became a new row, with the job's metadata recorded or lost. */
  function Added(w: World, job: Job): World {
    var m := Marker(w.job);
    w.(job := job, rows := w.rows + [Row(m, w.now, Waiting, 0.0)], log := w.log + [Created(m, w.now)])
  }

  /** A search for a marker is not changed by rows added later, unless it was not there. */
  lemma {:induction false} FindInLonger(rows: seq<Row>, longer: seq<Row>, marker: Time)
    requires |longer| == |rows| + 1 && longer[..|rows|] == rows
    ensures FindRow(rows, marker) < |rows| ==> FindRow(longer, marker) == FindRow(rows, marker)
    ensures FindRow(rows, marker) == |rows| && longer[|rows|].marker == marker ==> FindRow(longer, marker) == |rows|
  {
    assert forall i :: 0 <= i < |rows| ==> longer[i] == rows[i];
  }

  lemma NewRowDelivery(plan: Plan, w: World, job: Job)
    requires Inv(plan, w) && (w.job.nextDue > 0.0 || w.job.initialDue > 0.0)
    requires DueIn(plan, w.job, w.now) <= 0.0 && FindRow(w.rows, Marker(w.job)) == |w.rows|
    requires job == Recorded(w.job, Row(Marker(w.job), w.now, Waiting, 0.0)) ||
             (job == w.job && !DeliveryPending(w.job, w.rows) && Careful(plan, w, Enqueue(0.0, true)) && !w.job.paused)
    ensures DeliveryOk(plan, job, Added(w, job).rows) && SentBefore(job, Added(w, job).rows)
  {
    var rows := Added(w, job).rows;
    if job == w.job && job.delivery.Some? {
      var i := FindRow(w.rows, job.delivery.value);
      assert rows[i] == w.rows[i];
      FindInLonger(w.rows, rows, job.delivery.value);
      assert RowOk(w.rows[i], w.now);
    } else if job != w.job {
      FindInLonger(w.rows, rows, Marker(w.job));
    }
  }

  lemma NewRowIsLast(plan: Plan, w: World)
    requires Inv(plan, w) && Gate(plan, w.job) <= w.now && FindRow(w.rows, Marker(w.job)) == |w.rows|
    ensures forall i :: 0 <= i < |w.rows| ==> w.rows[i].marker < Marker(w.job)
    ensures |w.rows| > 0 ==> w.now >= w.rows[|w.rows| - 1].createdAt + plan.interval
  {
    if |w.rows| > 0 {
      assert w.rows[|w.rows| - 1].marker != Marker(w.job);
    }
  }

  lemma LogPrecedesNewRow(plan: Plan, w: World, k: nat)
    requires Inv(plan, w) && Gate(plan, w.job) <= w.now && FindRow(w.rows, Marker(w.job)) == |w.rows| && k < |w.log|
    ensures w.now >= w.log[k].at + plan.interval
    ensures w.log[k].Created? ==> w.log[k].marker < Marker(w.job) && w.log[k].at <= w.now
  {
    NewRowIsLast(plan, w);
    assert EntryOk(plan, w, w.log[k]);
    if w.log[k].Fired? {
      if w.job.manualFire > 0.0 {
        FiredFloor(plan, w.job, w.now);
      }
    }
  }

  lemma NewRowKeepsInv(plan: Plan, w: World, job: Job)
    requires Inv(plan, w) && (w.job.nextDue > 0.0 || w.job.initialDue > 0.0)
    requires DueIn(plan, w.job, w.now) <= 0.0 && FindRow(w.rows, Marker(w.job)) == |w.rows|
    requires job == Recorded(w.job, Row(Marker(w.job), w.now, Waiting, 0.0)) ||
             (job == w.job && !DeliveryPending(w.job, w.rows) && Careful(plan, w, Enqueue(0.0, true)) && !w.job.paused)
    ensures Inv(plan, Added(w, job)) && Extends(plan, w, w.log, Added(w, job))
  {
    var after := Added(w, job);
    DueMeansGate(plan, w.job, w.now);
    NewRowIsLast(plan, w);
    NewRowDelivery(plan, w, job);
    forall k | 0 <= k < |w.log|
      ensures EntryOk(plan, after, w.log[k])
      ensures w.now >= w.log[k].at + plan.interval && (w.log[k].Created? ==> w.log[k].marker < Marker(w.job))
    {
      LogPrecedesNewRow(plan, w, k);
      assert EntryOk(plan, w, w.log[k]);
    }
  }

  /** An occurrence whose row exists is the newest row; recording it again changes nothing else. */
  lemma SameRowKeepsInv(plan: Plan, w: World)
    requires Inv(plan, w) && FindRow(w.rows, Marker(w.job)) < |w.rows|
    ensures FindRow(w.rows, Marker(w.job)) == |w.rows| - 1
    ensures Inv(plan, w.(job := Recorded(w.job, w.rows[|w.rows| - 1])))
  {
    var n := |w.rows| - 1;
    var i := FindRow(w.rows, Marker(w.job));
    var after := w.(job := Recorded(w.job, w.rows[n]));
    assert RowOk(w.rows[n], w.now);
    assert i == n;
    forall k | 0 <= k < |w.log| ensures EntryOk(plan, after, w.log[k]) {
      assert EntryOk(plan, w, w.log[k]);
    }
  }

  lemma EnqueueKeepsInv(plan: Plan, w: World, jitter: Time, crash: bool)
    requires Inv(plan, w) && Careful(plan, w, Enqueue(jitter, crash))
    ensures Inv(plan, EnqueueJob(plan, w, jitter, crash)) && Extends(plan, w, w.log, EnqueueJob(plan, w, jitter, crash))
  {
    InitialKeepsInv(plan, w, jitter);
    var w1 := w.(job := EnsureInitial(w.job, w.now, jitter));
    if ShouldEnqueue(plan, w1.job, w1.rows, w1.now) {
      if FindRow(w1.rows, Marker(w1.job)) < |w1.rows| {
        SameRowKeepsInv(plan, w1);
      } else {
        if |w1.rows| > 0 {
          assert RowOk(w1.rows[|w1.rows| - 1], w1.now);
        }
        var r := Row(Marker(w1.job), w1.now, Waiting, 0.0);
        NewRowKeepsInv(plan, w1, if crash then w1.job else Recorded(w1.job, r));
      }
    }
  }

  /** Rows keep their names, and what has ended stays as it is. */
  ghost predicate SameRows(rows: seq<Row>, after: seq<Row>) {
    |after| == |rows| && forall i :: 0 <= i < |rows| ==>
      after[i].marker == rows[i].marker && after[i].createdAt == rows[i].createdAt &&
      (!Pending(rows[i].status) ==> !Pending(after[i].status) && after[i].finishedAt == rows[i].finishedAt)
  }

  lemma {:induction false} SameFind(rows: seq<Row>, after: seq<Row>, marker: Time, from: nat)
    requires SameRows(rows, after) && from <= |rows|
    ensures FindRow(after, marker, from) == FindRow(rows, marker, from)
    decreases |rows| - from
  {
    if from < |rows| && rows[from].marker != marker {
      SameFind(rows, after, marker, from + 1);
    }
  }

  lemma SameRowsDelivery(plan: Plan, j: Job, rows: seq<Row>, after: seq<Row>)
    requires SameRows(rows, after) && DeliveryOk(plan, j, rows) && SentBefore(j, rows)
    ensures DeliveryOk(plan, j, after) && SentBefore(j, after)
  {
    if j.delivery.Some? {
      SameFind(rows, after, j.delivery.value, 0);
    }
  }

  /** A manual fire leaves a delivery that was still to be reconciled withdrawn, newest, or harmless. */
  lemma FireDelivery(plan: Plan, j: Job, fired: Job, rows: seq<Row>, now: Time)
    requires plan.interval > 0.0 && now > 0.0 && DeliveryOk(plan, j, rows)
    requires forall i :: 0 <= i < |rows| ==> RowOk(rows[i], now)
    requires fired == j.(initialDue := 0.0, nextDue := now + plan.interval, manualFire := now)
    ensures DeliveryOk(plan, fired, rows) && DeliveryOk(plan, fired.(completed := j.delivery), rows)
  {
    if |rows| > 0 {
      assert RowOk(rows[|rows| - 1], now);
    }
  }

  lemma FiredRows(w: World, after: World, plan: Plan)
    requires after == FireJobNow(plan, w) && forall i :: 0 <= i < |w.rows| ==> RowOk(w.rows[i], w.now)
    ensures SameRows(w.rows, after.rows) && forall i :: 0 <= i < |after.rows| ==> RowOk(after.rows[i], w.now)
  {
    forall i | 0 <= i < |after.rows| ensures RowOk(after.rows[i], w.now) {
      assert RowOk(w.rows[i], w.now);
    }
  }

  lemma FiredLog(plan: Plan, w: World, after: World)
    requires Inv(plan, w) && after.now == w.now && after.job.manualFire == w.now && after.log == w.log + [Fired(w.now)]
    requires JobOk(after.job, w.now) && (forall i :: 0 <= i < |after.rows| ==> RowOk(after.rows[i], w.now))
    requires SameRows(w.rows, after.rows) && DeliveryOk(plan, after.job, after.rows) &&
             SentBefore(after.job, after.rows)
    requires !Unscheduled(after.job) && (|w.rows| > 0 ==> NextIsLater(plan, after.job, after.rows[|w.rows| - 1]))
    ensures Inv(plan, after) && Extends(plan, w, w.log, after)
  {
    forall k | 0 <= k < |w.log| ensures EntryOk(plan, after, w.log[k]) {
      assert EntryOk(plan, w, w.log[k]);
    }
  }

  lemma SameRowsFired(plan: Plan, w: World, after: World)
    requires Inv(plan, w) && after == FireJobNow(plan, w) && SameRows(w.rows, after.rows)
    requires DeliveryOk(plan, after.job, w.rows)
    ensures DeliveryOk(plan, after.job, after.rows) && SentBefore(after.job, after.rows)
    ensures JobOk(after.job, w.now) && !Unscheduled(after.job)
    ensures |w.rows| > 0 ==> NextIsLater(plan, after.job, after.rows[|w.rows| - 1])
  {
    if |w.rows| > 0 {
      assert RowOk(w.rows[|w.rows| - 1], w.now);
    }
    assert Marker(after.job) == w.now + plan.interval;
    SameRowsDelivery(plan, after.job, w.rows, after.rows);
  }

  lemma FireKeepsInv(plan: Plan, w: World)
    requires Inv(plan, w)
    ensures Inv(plan, FireJobNow(plan, w)) && Extends(plan, w, w.log, FireJobNow(plan, w))
  {
    var after := FireJobNow(plan, w);
    FireDelivery(plan, w.job, w.job.(initialDue := 0.0, nextDue := w.now + plan.interval, manualFire := w.now), w.rows,
                 w.now);
    FiredRows(w, after, plan);
    SameRowsFired(plan, w, after);
    FiredLog(plan, w, after);
  }

  lemma SetRowKeepsInv(plan: Plan, w: World, marker: Time, from: RowStatus, to: RowStatus, finish: bool)
    requires Inv(plan, w) && (finish ==> from.Running?) && (!finish ==> Pending(to) || !Pending(from))
    requires Pending(to) ==> Pending(from)
    ensures Inv(plan, SetRow(w, marker, from, to, finish))
  {
    var after := SetRow(w, marker, from, to, finish);
    forall i | 0 <= i < |after.rows| ensures RowOk(after.rows[i], after.now) {
      assert RowOk(w.rows[i], w.now);
    }
    assert SameRows(w.rows, after.rows);
    SameRowsDelivery(plan, w.job, w.rows, after.rows);
    forall k | 0 <= k < |w.log| ensures EntryOk(plan, after, w.log[k]) {
      assert EntryOk(plan, w, w.log[k]);
    }
  }

  lemma QuietKeepsInv(plan: Plan, w: World, seconds: Time, paused: bool)
    requires Inv(plan, w) && seconds >= 0.0
    ensures Inv(plan, w.(now := w.now + seconds)) && Inv(plan, w.(job := w.job.(paused := paused)))
  {
    forall i | 0 <= i < |w.rows| ensures RowOk(w.rows[i], w.now + seconds) {
      assert RowOk(w.rows[i], w.now);
    }
    forall k | 0 <= k < |w.log|
      ensures EntryOk(plan, w.(now := w.now + seconds), w.log[k]) &&
              EntryOk(plan, w.(job := w.job.(paused := paused)), w.log[k])
    {
      assert EntryOk(plan, w, w.log[k]);
    }
  }

  /** What the workers report. */
  predicate FromWorker(e: Event) { e.Dispatch? || e.Retry? || e.End? || e.Confirm? }

  lemma WorkerKeepsInv(plan: Plan, w: World, e: Event)
    requires Inv(plan, w) && FromWorker(e)
    ensures Inv(plan, Step(plan, w, e)) && Step(plan, w, e).log == w.log
  {
    match e
    case Dispatch(m) => SetRowKeepsInv(plan, w, m, Waiting, Running, false);
    case Retry(m) => SetRowKeepsInv(plan, w, m, Running, Waiting, false);
    case End(m, ok) => SetRowKeepsInv(plan, w, m, Running, if ok then Succeeded else Failed, true);
    case Confirm(m) => SetRowKeepsInv(plan, w, m, Failed, Succeeded, false);
  }

  lemma StepKeepsInv(plan: Plan, w: World, e: Event)
    requires Inv(plan, w) && Careful(plan, w, e)
    ensures Inv(plan, Step(plan, w, e)) && Extends(plan, w, w.log, Step(plan, w, e))
  {
    match e
    case Advance(s) => if s >= 0.0 { QuietKeepsInv(plan, w, s, false); }
    case Reconcile(jitter) => ReconcileKeepsInv(plan, w, jitter);
    case Enqueue(jitter, crash) => EnqueueKeepsInv(plan, w, jitter, crash);
    case FireNow => FireKeepsInv(plan, w);
    case SetPaused(p) => QuietKeepsInv(plan, w, 0.0, p);
    case _ => WorkerKeepsInv(plan, w, e);
  }

  // ---------------------------------------------------------------- main results

  /** No crash of the run loses the metadata of a row while an older delivery waits to be reconciled. */
  predicate CarefulRun(plan: Plan, w: World, events: seq<Event>)
    decreases |events|
  {
    events == [] || (Careful(plan, w, events[0]) && CarefulRun(plan, Step(plan, w, events[0]), events[1..]))
  }

  lemma SpacedGrows(plan: Plan, w: World, after: World)
    requires Spaced(plan, w.log) && Extends(plan, w, w.log, after)
    ensures Spaced(plan, after.log)
  {
    assert forall i :: 0 <= i < |w.log| ==> after.log[i] == after.log[..|w.log|][i];
  }

  lemma {:induction false} RunStaysSpaced(plan: Plan, w: World, events: seq<Event>)
    requires Inv(plan, w) && Spaced(plan, w.log) && CarefulRun(plan, w, events)
    ensures Inv(plan, Run(plan, w, events)) && Spaced(plan, Run(plan, w, events).log)
    decreases |events|
  {
    if events != [] {
      StepKeepsInv(plan, w, events[0]);
      SpacedGrows(plan, w, Step(plan, w, events[0]));
      RunStaysSpaced(plan, Step(plan, w, events[0]), events[1..]);
    }
  }

  /** Over any run of ticks, crashes, manual fires, pauses and worker outcomes, occurrences are named in
      increasing order, rows are at least an interval apart, and at least an interval after any manual fire
      that precedes them. */
  lemma OccurrencesAreSpaced(plan: Plan, now: Time, initialDue: Time, events: seq<Event>)
    requires plan.interval > 0.0 && now > 0.0 && initialDue >= 0.0 && CarefulRun(plan, Start(now, initialDue), events)
    ensures Spaced(plan, Run(plan, Start(now, initialDue), events).log)
  {
    RunStaysSpaced(plan, Start(now, initialDue), events);
  }

  /** A tick reconciles before it enqueues; unless a worker ends the delivery in between, its crash is harmless. */
  lemma TickIsCareful(plan: Plan, w: World, jitter: Time, initialJitter: Time, crash: bool)
    requires Inv(plan, w)
    ensures Careful(plan, ReconcileJob(plan, w, jitter), Enqueue(initialJitter, crash))
  {
    var w1 := ReconcileJob(plan, w, jitter);
    if Unreconciled(w1.job) {
      assert DeliveryPending(w1.job, w1.rows);
    }
  }

  // ---------------------------------------------------------------- a crash between the row and its metadata

  /** Steps that write the saved schedule. */
  predicate WritesSchedule(w: World, e: Event) {
    e.FireNow? || (e.Reconcile? && Reconcilable(w.job, w.rows)) || (e.Enqueue? && !e.crash)
  }

  predicate Unwritten(plan: Plan, w: World, events: seq<Event>)
    decreases |events|
  {
    events == [] || (!WritesSchedule(w, events[0]) && Unwritten(plan, Step(plan, w, events[0]), events[1..]))
  }

  /** The next occurrence already has the row at place i, the last one. */
  ghost predicate Placed(w: World, i: nat) {
    |w.rows| == i + 1 && FindRow(w.rows, Marker(w.job)) == i && !Unscheduled(w.job)
  }

  lemma {:induction false} SameMarkers(rows: seq<Row>, after: seq<Row>, marker: Time, from: nat)
    requires |after| == |rows| && from <= |rows| && forall i :: 0 <= i < |rows| ==> after[i].marker == rows[i].marker
    ensures FindRow(after, marker, from) == FindRow(rows, marker, from)
    decreases |rows| - from
  {
    if from < |rows| && rows[from].marker != marker {
      SameMarkers(rows, after, marker, from + 1);
    }
  }

  lemma SetRowStaysPlaced(w: World, i: nat, marker: Time, from: RowStatus, to: RowStatus, finish: bool)
    requires Placed(w, i)
    ensures Placed(SetRow(w, marker, from, to, finish), i)
  {
    SameMarkers(w.rows, SetRow(w, marker, from, to, finish).rows, Marker(w.job), 0);
  }

  lemma StepStaysPlaced(plan: Plan, w: World, e: Event, i: nat)
    requires Placed(w, i) && !WritesSchedule(w, e)
    ensures Placed(Step(plan, w, e), i)
  {
    match e
    case Dispatch(m) => SetRowStaysPlaced(w, i, m, Waiting, Running, false);
    case Retry(m) => SetRowStaysPlaced(w, i, m, Running, Waiting, false);
    case End(m, ok) => SetRowStaysPlaced(w, i, m, Running, if ok then Succeeded else Failed, true);
    case Confirm(m) => SetRowStaysPlaced(w, i, m, Failed, Succeeded, false);
    case _ =>
  }

  lemma {:induction false} RunStaysPlaced(plan: Plan, w: World, events: seq<Event>, i: nat)
    requires Placed(w, i) && Unwritten(plan, w, events)
    ensures Placed(Run(plan, w, events), i)
    decreases |events|
  {
    if events != [] {
      StepStaysPlaced(plan, w, events[0], i);
      RunStaysPlaced(plan, Step(plan, w, events[0]), events[1..], i);
    }
  }

  lemma {:induction false} KeepsMarkers(plan: Plan, w: World, events: seq<Event>, i: nat)
    requires Placed(w, i) && Unwritten(plan, w, events)
    ensures Marker(Run(plan, w, events).job) == Marker(w.job)
    decreases |events|
  {
    if events != [] {
      StepStaysPlaced(plan, w, events[0], i);
      KeepsMarkers(plan, Step(plan, w, events[0]), events[1..], i);
    }
  }

  /** After a crash between a row and its metadata, whatever happens before the schedule is next written, further
      crashes included: no enqueue adds a second row for the occurrence, and one that goes through records the
      row that is there. */
  lemma CrashAddsNoSecondRow(plan: Plan, w: World, jitter: Time, events: seq<Event>, again: Time)
    requires w.now > 0.0 && AddsRow(plan, w, jitter) && Unwritten(plan, EnqueueJob(plan, w, jitter, true), events)
    ensures var later := Run(plan, EnqueueJob(plan, w, jitter, true), events);
            var next := EnqueueJob(plan, later, again, false);
            |later.rows| == |w.rows| + 1 && next.rows == later.rows && next.log == later.log &&
            (ShouldEnqueue(plan, later.job, later.rows, later.now) ==>
               next.job.delivery == Some(Marker(EnsureInitial(w.job, w.now, jitter))))
  {
    var crashed := EnqueueJob(plan, w, jitter, true);
    var marker := Marker(EnsureInitial(w.job, w.now, jitter));
    FindInLonger(w.rows, crashed.rows, marker);
    RunStaysPlaced(plan, crashed, events, |w.rows|);
    KeepsMarkers(plan, crashed, events, |w.rows|);
  }

  // ---------------------------------------------------------------- exactly which crashes break the spacing

  /** A delay the scheduler may draw that names an occurrence other than m, less than an interval from now. */
  lemma BadDelay(plan: Plan, j: Job, d: Row, m: Time, now: Time) returns (delay: Time)
    requires plan.interval > 0.0 && JobOk(j, now) && RowOk(d, now) && !Pending(d.status)
    requires Base(j, d) < now && !NamesAgain(plan, j, d, m)
    ensures var next := Reconciled(plan, j, d, delay).nextDue;
            next != m && Base(j, d) + plan.interval <= next < now + plan.interval
  {
    if Base(j, d) + plan.interval != m {
      delay := 0.0;
    } else {
      var low, high := Base(j, d) - d.finishedAt, Earlier(JitterLimit(plan), now - d.finishedAt);
      assert low < high;
      delay := (low + high) / 2.0;
      assert low < delay < high && Drawn(plan, delay) == delay;
    }
  }

  /** The delivery is reconciled with that delay: the new occurrence is due before an interval has passed. */
  lemma MisplacedNext(plan: Plan, w: World, delay: Time) returns (at: Time)
    requires plan.interval > 0.0 && w.now > 0.0 && JobOk(w.job, w.now) && Reconcilable(w.job, w.rows) && !w.job.paused
    requires var d := w.rows[FindRow(w.rows, w.job.delivery.value)];
             RowOk(d, w.now) && w.job.lastEnqueued == d.createdAt && w.job.lastSent <= d.createdAt &&
             var next := Reconciled(plan, w.job, d, delay).nextDue;
             FindRow(w.rows, next) == |w.rows| && Base(w.job, d) + plan.interval <= next < w.now + plan.interval
    ensures var d := w.rows[FindRow(w.rows, w.job.delivery.value)];
            var next := Reconciled(plan, w.job, d, delay).nextDue;
            var after := Step(plan, Step(plan, Step(plan, w, Reconcile(delay)), Advance(at)), Enqueue(0.0, false));
            after.log == w.log + [Created(next, w.now + at)] && 0.0 <= at < plan.interval
  {
    var d := w.rows[FindRow(w.rows, w.job.delivery.value)];
    var j := Reconciled(plan, w.job, d, delay);
    at := Later(0.0, j.nextDue - w.now);
    var w2 := w.(job := j, now := w.now + at);
    assert Step(plan, Step(plan, w, Reconcile(delay)), Advance(at)) == w2;
    assert LatestDispatch(j) + plan.interval <= w2.now;
    assert DueIn(plan, j, w2.now) <= 0.0 && EnsureInitial(j, w2.now, 0.0) == j && Marker(j) == j.nextDue;
    assert !DeliveryPending(j, w2.rows);
  }

  /** The name of the misplaced occurrence is new. */
  lemma MisplacedIsNew(plan: Plan, w: World, jitter: Time, next: Time)
    requires Inv(plan, w) && AddsRow(plan, w, jitter) && Unreconciled(w.job)
    requires var d := w.rows[FindRow(w.rows, w.job.delivery.value)];
             next >= Base(w.job, d) + plan.interval && next != Marker(w.job)
    ensures FindRow(EnqueueJob(plan, w, jitter, true).rows, next) == |w.rows| + 1
  {
    var i, n := FindRow(w.rows, w.job.delivery.value), |w.rows| - 1;
    var rows := EnqueueJob(plan, w, jitter, true).rows;
    assert RowOk(w.rows[i], w.now) && RowOk(w.rows[n], w.now);
    assert rows == w.rows + [Row(Marker(w.job), w.now, Waiting, 0.0)];
    assert Marker(w.job) != w.rows[n].marker by { FoundAtPlace(w.rows, n); }
    assert next > w.rows[n].marker;
    assert forall k :: 0 <= k < n ==> w.rows[k].marker < w.rows[n].marker;
    assert forall k :: 0 <= k < |w.rows| ==> rows[k] == w.rows[k];
  }

  lemma TooClose(plan: Plan, log: seq<Entry>, m: Time, at: Time, next: Time, later: Time)
    requires later < at + plan.interval
    ensures !Spaced(plan, log + [Created(m, at)] + [Created(next, later)])
  {
    var all := log + [Created(m, at)] + [Created(next, later)];
    assert all[|log|] == Created(m, at) && all[|log| + 1] == Created(next, later);
  }

  lemma RunThree(plan: Plan, w: World, a: Event, b: Event, c: Event)
    requires !a.Enqueue? && !b.Enqueue? && (c.Enqueue? ==> !c.crash)
    ensures Run(plan, w, [a, b, c]) == Step(plan, Step(plan, Step(plan, w, a), b), c)
    ensures CarefulRun(plan, w, [a, b, c])
  {
    var w1 := Step(plan, w, a);
    var w2 := Step(plan, w1, b);
    assert [a, b, c][1..] == [b, c] && [b, c][1..] == [c] && [c][1..] == [];
    assert Run(plan, w2, [c]) == Step(plan, w2, c) && CarefulRun(plan, w2, [c]);
    assert Run(plan, w1, [b, c]) == Run(plan, w2, [c]) && CarefulRun(plan, w1, [b, c]);
  }

  /** A crash that is not careful lets a reconciliation and one more tick break the spacing. */
  lemma UncarefulBreaksSpacing(plan: Plan, w: World, jitter: Time) returns (events: seq<Event>)
    requires Inv(plan, w) && !Careful(plan, w, Enqueue(jitter, true))
    ensures var crashed := EnqueueJob(plan, w, jitter, true);
            CarefulRun(plan, crashed, events) && !Spaced(plan, Run(plan, crashed, events).log)
  {
    var crashed := EnqueueJob(plan, w, jitter, true);
    var i := FindRow(w.rows, w.job.delivery.value);
    var d := w.rows[i];
    assert RowOk(d, w.now);
    var delay := BadDelay(plan, w.job, d, Marker(w.job), w.now);
    var next := Reconciled(plan, w.job, d, delay).nextDue;
    MisplacedIsNew(plan, w, jitter, next);
    FindInLonger(w.rows, crashed.rows, w.job.delivery.value);
    assert crashed == Added(w, w.job) && crashed.rows[i] == d;
    var at := MisplacedNext(plan, crashed, delay);
    events := [Reconcile(delay), Advance(at), Enqueue(0.0, false)];
    RunThree(plan, crashed, events[0], events[1], events[2]);
    TooClose(plan, w.log, Marker(w.job), w.now, next, w.now + at);
  }

  /** Crashes break the spacing exactly when they are not careful: after a crash of the next enqueue every
      careful continuation keeps rows an interval apart if and only if that crash was careful. */
  lemma CrashIsSafeIff(plan: Plan, w: World, jitter: Time)
    requires Inv(plan, w) && Spaced(plan, w.log)
    ensures Careful(plan, w, Enqueue(jitter, true)) <==>
              forall events :: CarefulRun(plan, EnqueueJob(plan, w, jitter, true), events) ==>
                Spaced(plan, Run(plan, EnqueueJob(plan, w, jitter, true), events).log)
  {
    var crashed := EnqueueJob(plan, w, jitter, true);
    if Careful(plan, w, Enqueue(jitter, true)) {
      StepKeepsInv(plan, w, Enqueue(jitter, true));
      SpacedGrows(plan, w, crashed);
      forall events | CarefulRun(plan, crashed, events) ensures Spaced(plan, Run(plan, crashed, events).log) {
        RunStaysSpaced(plan, crashed, events);
      }
    } else {
      var events := UncarefulBreaksSpacing(plan, w, jitter);
    }
  }

  // ---------------------------------------------------------------- the race the condition excludes

  function RaceStart(): seq<Event> { [Enqueue(0.0, false), Dispatch(10.0), Advance(40.0), FireNow] }

  function RaceWork(): seq<Event> { [Advance(150.0), Reconcile(0.0), End(10.0, true), Advance(1.0)] }

  function RaceEnd(): seq<Event> { [Enqueue(0.0, true), Reconcile(0.0), Advance(99.0), Enqueue(0.0, false)] }

  lemma RaceStarts(plan: Plan) returns (w1: World)
    requires plan == Plan(100.0, true)
    ensures Step(plan, Start(10.0, 0.0), Enqueue(0.0, false)) == w1
    ensures w1 == World(10.0, Job(0.0, 0.0, 0.0, 10.0, 10.0, 0.0, false, Some(10.0), None),
                        [Row(10.0, 10.0, Waiting, 0.0)], [Created(10.0, 10.0)])
  {
    w1 := World(10.0, Job(0.0, 0.0, 0.0, 10.0, 10.0, 0.0, false, Some(10.0), None),
                [Row(10.0, 10.0, Waiting, 0.0)], [Created(10.0, 10.0)]);
  }

  lemma RaceFires(plan: Plan, w1: World) returns (w4: World)
    requires plan == Plan(100.0, true)
    requires w1 == World(10.0, Job(0.0, 0.0, 0.0, 10.0, 10.0, 0.0, false, Some(10.0), None),
                         [Row(10.0, 10.0, Waiting, 0.0)], [Created(10.0, 10.0)])
    ensures Step(plan, Step(plan, Step(plan, w1, Dispatch(10.0)), Advance(40.0)), FireNow) == w4
    ensures w4 == World(50.0, Job(0.0, 0.0, 150.0, 0.0, 10.0, 50.0, false, Some(10.0), None),
                        [Row(10.0, 10.0, Running, 0.0)], [Created(10.0, 10.0), Fired(50.0)])
  {
    var w2 := w1.(rows := [Row(10.0, 10.0, Running, 0.0)]);
    assert Step(plan, w1, Dispatch(10.0)) == w2;
    w4 := World(50.0, Job(0.0, 0.0, 150.0, 0.0, 10.0, 50.0, false, Some(10.0), None),
                [Row(10.0, 10.0, Running, 0.0)], [Created(10.0, 10.0), Fired(50.0)]);
  }

  lemma RaceEndsDelivery(plan: Plan, w4: World) returns (w8: World)
    requires plan == Plan(100.0, true)
    requires w4 == World(50.0, Job(0.0, 0.0, 150.0, 0.0, 10.0, 50.0, false, Some(10.0), None),
                         [Row(10.0, 10.0, Running, 0.0)], [Created(10.0, 10.0), Fired(50.0)])
    ensures Step(plan, Step(plan, Step(plan, Step(plan, w4, Advance(150.0)), Reconcile(0.0)), End(10.0, true)),
                 Advance(1.0)) == w8
    ensures w8 == w4.(now := 201.0, rows := [Row(10.0, 10.0, Succeeded, 200.0)])
  {
    var w6 := w4.(now := 200.0);
    assert Step(plan, Step(plan, w4, Advance(150.0)), Reconcile(0.0)) == w6;
    assert Step(plan, w6, End(10.0, true)) == w6.(rows := [Row(10.0, 10.0, Succeeded, 200.0)]);
    w8 := w4.(now := 201.0, rows := [Row(10.0, 10.0, Succeeded, 200.0)]);
  }

  lemma RaceCrashes(plan: Plan, w8: World) returns (w9: World)
    requires plan == Plan(100.0, true)
    requires w8 == World(201.0, Job(0.0, 0.0, 150.0, 0.0, 10.0, 50.0, false, Some(10.0), None),
                         [Row(10.0, 10.0, Succeeded, 200.0)], [Created(10.0, 10.0), Fired(50.0)])
    ensures Step(plan, w8, Enqueue(0.0, true)) == w9
    ensures w9 == w8.(rows := [Row(10.0, 10.0, Succeeded, 200.0), Row(150.0, 201.0, Waiting, 0.0)],
                      log := [Created(10.0, 10.0), Fired(50.0), Created(150.0, 201.0)])
  {
    w9 := w8.(rows := w8.rows + [Row(150.0, 201.0, Waiting, 0.0)], log := w8.log + [Created(150.0, 201.0)]);
  }

  lemma RaceEnds(plan: Plan, w: World)
    requires plan == Plan(100.0, true)
    requires w == World(201.0, Job(0.0, 0.0, 150.0, 0.0, 10.0, 50.0, false, Some(10.0), None),
                        [Row(10.0, 10.0, Succeeded, 200.0), Row(150.0, 201.0, Waiting, 0.0)],
                        [Created(10.0, 10.0), Fired(50.0), Created(150.0, 201.0)])
    ensures Step(plan, Step(plan, Step(plan, w, Reconcile(0.0)), Advance(99.0)), Enqueue(0.0, false)).log
              == [Created(10.0, 10.0), Fired(50.0), Created(150.0, 201.0), Created(300.0, 300.0)]
    ensures !Spaced(plan, [Created(10.0, 10.0), Fired(50.0), Created(150.0, 201.0), Created(300.0, 300.0)])
  {
    var log := [Created(10.0, 10.0), Fired(50.0), Created(150.0, 201.0), Created(300.0, 300.0)];
    assert log[2].at + 100.0 > log[3].at && log[3].Created?;
  }

  lemma RunStep(plan: Plan, w: World, e: Event, rest: seq<Event>)
    ensures Run(plan, w, [e] + rest) == Run(plan, Step(plan, w, e), rest)
  {
    assert ([e] + rest)[1..] == rest;
  }

  lemma Unroll2(plan: Plan, w: World, a: Event, b: Event, rest: seq<Event>)
    ensures Run(plan, w, [a, b] + rest) == Run(plan, Step(plan, Step(plan, w, a), b), rest)
  {
    RunStep(plan, w, a, [b] + rest);
    RunStep(plan, Step(plan, w, a), b, rest);
    assert [a] + ([b] + rest) == [a, b] + rest;
  }

  lemma Unroll4(plan: Plan, w: World, a: Event, b: Event, c: Event, d: Event, rest: seq<Event>)
    ensures Run(plan, w, [a, b, c, d] + rest) ==
              Run(plan, Step(plan, Step(plan, Step(plan, Step(plan, w, a), b), c), d), rest)
  {
    Unroll2(plan, w, a, b, [c, d] + rest);
    Unroll2(plan, Step(plan, Step(plan, w, a), b), c, d, rest);
    assert [a, b] + ([c, d] + rest) == [a, b, c, d] + rest;
  }

  lemma UnrollRace(plan: Plan, w0: World, w1: World, w4: World, w8: World, w9: World)
    requires Step(plan, w0, Enqueue(0.0, false)) == w1
    requires Step(plan, Step(plan, Step(plan, w1, Dispatch(10.0)), Advance(40.0)), FireNow) == w4
    requires Step(plan, Step(plan, Step(plan, Step(plan, w4, Advance(150.0)), Reconcile(0.0)), End(10.0, true)),
                  Advance(1.0)) == w8
    requires Step(plan, w8, Enqueue(0.0, true)) == w9
    ensures Run(plan, w0, RaceStart() + (RaceWork() + RaceEnd()))
              == Step(plan, Step(plan, Step(plan, w9, Reconcile(0.0)), Advance(99.0)), Enqueue(0.0, false))
  {
    Unroll4(plan, w0, Enqueue(0.0, false), Dispatch(10.0), Advance(40.0), FireNow, RaceWork() + RaceEnd());
    Unroll4(plan, w4, Advance(150.0), Reconcile(0.0), End(10.0, true), Advance(1.0), RaceEnd());
    Unroll4(plan, w8, Enqueue(0.0, true), Reconcile(0.0), Advance(99.0), Enqueue(0.0, false), []);
    assert RaceEnd() + [] == RaceEnd();
  }

  /** A worker ends a running delivery between the reconciliation and the enqueueing of one tick, after a
      manual fire has already named the next occurrence, and the tick crashes before it records the new row:
      the old delivery is reconciled later and names yet another occurrence, less than an interval on. */
  lemma RaceExample()
    ensures var plan := Plan(100.0, true);
            Run(plan, Start(10.0, 0.0), RaceStart() + (RaceWork() + RaceEnd())).log ==
              [Created(10.0, 10.0), Fired(50.0), Created(150.0, 201.0), Created(300.0, 300.0)]
            && !Spaced(plan, Run(plan, Start(10.0, 0.0), RaceStart() + (RaceWork() + RaceEnd())).log)
  {
    var plan := Plan(100.0, true);
    var w1 := RaceStarts(plan);
    var w4 := RaceFires(plan, w1);
    var w8 := RaceEndsDelivery(plan, w4);
    var w9 := RaceCrashes(plan, w8);
    RaceEnds(plan, w9);
    UnrollRace(plan, Start(10.0, 0.0), w1, w4, w8, w9);
  }

  // ---------------------------------------------------------------- the producer

  class SchedulerProducer {
    const plan: Plan
    var job: Job
    var rows: seq<Row>
    ghost var log: seq<Entry>

    constructor (plan: Plan, initialDue: Time)
      ensures this.plan == plan && forall now :: Current(now) == Start(now, initialDue)
    {
      this.plan := plan;
      job, rows, log := Job(0.0, 0.0, 0.0, initialDue, 0.0, 0.0, false, None, None), [], [];
    }

    ghost function Current(now: Time): World
      reads this
    {
      World(now, job, rows, log)
    }

    method GetRow(marker: Time) returns (i: nat)
      ensures i == FindRow(rows, marker)
    {
      i := 0;
      while i < |rows| && rows[i].marker != marker
        invariant 0 <= i <= |rows| && FindRow(rows, marker) == FindRow(rows, marker, i)
      {
        i := i + 1;
      }
    }

    /** A finished delivery moves the schedule on, once. */
    method ReconcileTerminal(jitter: Time, now: Time) returns (advanced: bool)
      modifies this`job
      ensures Current(now) == ReconcileJob(plan, old(Current(now)), jitter)
      ensures advanced <==> Reconcilable(old(job), rows)
      ensures advanced ==>
                job.completed == job.delivery &&
                job.nextDue >= plan.interval + rows[FindRow(rows, job.delivery.value)].finishedAt
    {
      if job.delivery.None? || job.completed == job.delivery {
        return false;
      }
      var i := GetRow(job.delivery.value);
      if i == |rows| || Pending(rows[i].status) {
        return false;
      }
      var r := rows[i];
      var due := r.finishedAt + plan.interval + Drawn(plan, jitter);
      if job.manualFire > 0.0 {
        due := Later(due, job.manualFire + plan.interval);
      }
      job := job.(initialDue := 0.0, nextDue := due, completed := Some(r.marker));
      if r.status.Succeeded? {
        job := job.(lastSent := r.finishedAt, lastUncertain := 0.0);
      }
      advanced := true;
    }

    /** Insert the due occurrence, unless its row exists already, then record it. */
    method EnqueueIfDue(jitter: Time, now: Time) returns (created: bool)
      modifies this
      ensures Current(now) == EnqueueJob(plan, old(Current(now)), jitter, false)
      ensures created <==> |rows| > |old(rows)|
      ensures created ==>
                |rows| == |old(rows)| + 1 &&
                rows[|old(rows)|] == Row(Marker(EnsureInitial(old(job), now, jitter)), now, Waiting, 0.0)
    {
      if job.lastSent == 0.0 && job.lastUncertain == 0.0 && job.lastEnqueued == 0.0 && job.initialDue == 0.0 &&
          job.nextDue == 0.0 {
        job := job.(initialDue := now + Later(0.0, jitter));
      }
      created := false;
      if !ShouldEnqueue(plan, job, rows, now) {
        return;
      }
      var marker := Marker(job);
      var i := GetRow(marker);
      if i == |rows| {
        rows := rows + [Row(marker, now, Waiting, 0.0)];
        log := log + [Created(marker, now)];
        created := true;
      }
      job := job.(lastEnqueued := rows[i].createdAt, delivery := Some(marker));
    }

    /** A manual fire restarts the countdown and withdraws a scheduled delivery no worker holds. */
    method FireNow(now: Time)
      modifies this
      ensures Current(now) == FireJobNow(plan, old(Current(now)))
      ensures Marker(job) == now + plan.interval || job.lastUncertain > job.lastSent || now + plan.interval <= 0.0
    {
      log := log + [Fired(now)];
      var last := job.delivery;
      job := job.(initialDue := 0.0, nextDue := now + plan.interval, manualFire := now);
      if last.Some? {
        var i := GetRow(last.value);
        if i < |rows| && rows[i].status.Waiting? {
          rows := rows[i := rows[i].(status := Failed, finishedAt := now)];
          job := job.(completed := last);
        }
      }
    }

    /** One scheduler tick for this job. */
    method Tick(jitter: Time, initialJitter: Time, now: Time) returns (work: nat)
      modifies this
      ensures Current(now) == EnqueueJob(plan, ReconcileJob(plan, old(Current(now)), jitter), initialJitter, false)
      ensures work <= 2
    {
      var advanced := ReconcileTerminal(jitter, now);
      var created := EnqueueIfDue(initialJitter, now);
      work := (if advanced then 1 else 0) + if created then 1 else 0;
    }
  }
}
