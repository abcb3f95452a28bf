/** Queue start estimates: a list of next-free times popped and pushed by each queued job computes the exact
    first-come-first-served schedule. */
module SlotProjection {
  import opened Tables

  // ---------------------------------------------------------------- the schedule being estimated

  /** How many of these end times lie after t. */
  function CountAfter(ends: seq<Time>, t: Time): nat {
    if ends == [] then 0
    else CountAfter(ends[..|ends| - 1], t) + if ends[|ends| - 1] > t then 1 else 0
  }

  /** How many of these jobs, each lasting `duration`, run at t. */
  function CountRunning(starts: seq<Time>, duration: Time, t: Time): nat {
    if starts == [] then 0
    else
      var s := starts[|starts| - 1];
      CountRunning(starts[..|starts| - 1], duration, t) + if s <= t < s + duration then 1 else 0
  }

  /** Occupied slots at t: runs that were active at time 0, by when they end, and jobs started since. */
  function Busy(initial: seq<Time>, starts: seq<Time>, duration: Time, t: Time): nat {
    CountAfter(initial, t) + CountRunning(starts, duration, t)
  }

  function LastStart(starts: seq<Time>): Time {
    if starts == [] then 0.0 else starts[|starts| - 1]
  }

  /** The first moment, not before the previous start, at which a slot is free. */
  ghost predicate EarliestStart(limit: nat, initial: seq<Time>, starts: seq<Time>, duration: Time, t: Time) {
    t >= LastStart(starts) && Busy(initial, starts, duration, t) < limit &&
    forall u :: LastStart(starts) <= u < t ==> Busy(initial, starts, duration, u) >= limit
  }

  // ---------------------------------------------------------------- the projection

  /** `available` is the heap, read in order; `initial` and `starts` are history. */
  datatype Projection = Projection(limit: nat, duration: Time, available: seq<Time>, initial: seq<Time>,
                                   starts: seq<Time>)

  function Insert(sorted: seq<Time>, x: Time): seq<Time> {
    if sorted == [] || sorted[|sorted| - 1] <= x then sorted + [x]
    else Insert(sorted[..|sorted| - 1], x) + [sorted[|sorted| - 1]]
  }

  function Heapify(times: seq<Time>): seq<Time> {
    if times == [] then [] else Insert(Heapify(times[..|times| - 1]), times[|times| - 1])
  }

  function Begin(limit: int, remaining: seq<Time>, duration: Time): Projection {
    Projection(if limit < 1 then 1 else limit, duration, Heapify(remaining), remaining, [])
  }

  /** The time the last popped slot becomes free; 0 when a slot is free already. */
  function StartTime(p: Projection): Time {
    if |p.available| >= p.limit >= 1 then p.available[|p.available| - p.limit] else 0.0
  }

  /** How many slots are popped. */
  function Popped(p: Projection): nat {
    if |p.available| >= p.limit >= 1 then |p.available| - p.limit + 1 else 0
  }

  function Enqueue(p: Projection): Projection {
    var s := StartTime(p);
    p.(available := Insert(p.available[Popped(p)..], s + p.duration), starts := p.starts + [s])
  }

  function EnqueueMany(p: Projection, n: nat): Projection {
    if n == 0 then p else Enqueue(EnqueueMany(p, n - 1))
  }

  // ---------------------------------------------------------------- sorted lists and counting

  predicate Sorted(times: seq<Time>) {
    forall i, j :: 0 <= i < j < |times| ==> times[i] <= times[j]
  }

  lemma {:induction false} InsertMembers(sorted: seq<Time>, x: Time)
    ensures |Insert(sorted, x)| == |sorted| + 1
    ensures forall y :: y in Insert(sorted, x) <==> y in sorted || y == x
  {
    if !(sorted == [] || sorted[|sorted| - 1] <= x) {
      var n := |sorted| - 1;
      InsertMembers(sorted[..n], x);
      assert sorted == sorted[..n] + [sorted[n]];
    }
  }

  lemma SortedAppend(a: seq<Time>, y: Time)
    requires Sorted(a) && forall e :: e in a ==> e <= y
    ensures Sorted(a + [y])
  {
    assert forall i :: 0 <= i < |a| ==> a[i] in a;
  }

  lemma {:induction false} InsertSorts(sorted: seq<Time>, x: Time)
    requires Sorted(sorted)
    ensures Sorted(Insert(sorted, x))
  {
    if !(sorted == [] || sorted[|sorted| - 1] <= x) {
      var n := |sorted| - 1;
      InsertSorts(sorted[..n], x);
      InsertMembers(sorted[..n], x);
      SortedAppend(Insert(sorted[..n], x), sorted[n]);
    }
  }

  lemma {:induction false} InsertCounts(sorted: seq<Time>, x: Time, t: Time)
    ensures CountAfter(Insert(sorted, x), t) == CountAfter(sorted, t) + if x > t then 1 else 0
  {
    if sorted == [] || sorted[|sorted| - 1] <= x {
      assert (sorted + [x])[..|sorted|] == sorted;
    } else {
      var n := |sorted| - 1;
      InsertCounts(sorted[..n], x, t);
      var r := Insert(sorted[..n], x);
      assert (r + [sorted[n]])[..|r|] == r;
    }
  }

  lemma {:induction false} HeapifySorts(times: seq<Time>)
    ensures Sorted(Heapify(times)) && |Heapify(times)| == |times|
    ensures forall y :: y in Heapify(times) <==> y in times
  {
    if times != [] {
      HeapifySorts(times[..|times| - 1]);
      InsertSorts(Heapify(times[..|times| - 1]), times[|times| - 1]);
      InsertMembers(Heapify(times[..|times| - 1]), times[|times| - 1]);
    }
  }

  lemma {:induction false} HeapifyCounts(times: seq<Time>, t: Time)
    ensures CountAfter(Heapify(times), t) == CountAfter(times, t)
  {
    if times != [] {
      HeapifyCounts(times[..|times| - 1], t);
      InsertCounts(Heapify(times[..|times| - 1]), times[|times| - 1], t);
    }
  }

  lemma {:induction false} CountAtMost(ends: seq<Time>, k: nat, t: Time)
    requires k <= |ends| && forall i :: 0 <= i < k ==> ends[i] <= t
    ensures CountAfter(ends, t) <= |ends| - k
  {
    if |ends| > 0 {
      CountAtMost(ends[..|ends| - 1], if k < |ends| then k else k - 1, t);
    }
  }

  lemma {:induction false} CountAtLeast(ends: seq<Time>, k: nat, t: Time)
    requires k <= |ends| && forall i :: k <= i < |ends| ==> ends[i] > t
    ensures CountAfter(ends, t) >= |ends| - k
  {
    if |ends| > k {
      CountAtLeast(ends[..|ends| - 1], k, t);
    }
  }

  /** Ends that are over need not be counted. */
  lemma {:induction false} CountDrop(ends: seq<Time>, k: nat, t: Time)
    requires k <= |ends| && forall i :: 0 <= i < k ==> ends[i] <= t
    ensures CountAfter(ends[k..], t) == CountAfter(ends, t)
  {
    if k == |ends| {
      CountAtMost(ends, k, t);
    } else {
      CountDrop(ends[..|ends| - 1], k, t);
      assert ends[k..][..|ends[k..]| - 1] == ends[..|ends| - 1][k..];
    }
  }

  lemma {:induction false} CountShrinks(ends: seq<Time>, t: Time, u: Time)
    requires t <= u
    ensures CountAfter(ends, u) <= CountAfter(ends, t)
  {
    if ends != [] {
      CountShrinks(ends[..|ends| - 1], t, u);
    }
  }

  lemma {:induction false} RunningShrinks(starts: seq<Time>, duration: Time, t: Time, u: Time)
    requires t <= u && forall i :: 0 <= i < |starts| ==> starts[i] <= t
    ensures CountRunning(starts, duration, u) <= CountRunning(starts, duration, t)
  {
    if starts != [] {
      RunningShrinks(starts[..|starts| - 1], duration, t, u);
    }
  }

  // ---------------------------------------------------------------- the invariant

  /** From the last start on, the list counts exactly the occupied slots; nothing in it ends before then. */
  ghost predicate Valid(p: Projection) {
    && p.limit >= 1 && p.duration >= 0.0
    && Sorted(p.available) && Sorted(p.starts)
    && (forall i :: 0 <= i < |p.starts| ==> 0.0 <= p.starts[i] <= LastStart(p.starts))
    && (forall e :: e in p.available ==> e >= LastStart(p.starts))
    && (forall t :: t >= LastStart(p.starts) ==> CountAfter(p.available, t) == Busy(p.initial, p.starts, p.duration, t))
    && (|p.available| < p.limit ==> LastStart(p.starts) == 0.0)
  }

  lemma BeginIsValid(limit: int, remaining: seq<Time>, duration: Time)
    requires duration >= 0.0 && forall e :: e in remaining ==> e >= 0.0
    ensures Valid(Begin(limit, remaining, duration))
  {
    HeapifySorts(remaining);
    forall t | t >= 0.0 ensures CountAfter(Heapify(remaining), t) == Busy(remaining, [], duration, t) {
      HeapifyCounts(remaining, t);
    }
  }

  lemma CutSorted(times: seq<Time>, k: nat)
    requires Sorted(times) && k < |times|
    ensures CountAfter(times, times[k]) < |times| - k
    ensures forall u :: u < times[k] ==> CountAfter(times, u) >= |times| - k
  {
    CountAtMost(times, k + 1, times[k]);
    forall u | u < times[k] ensures CountAfter(times, u) >= |times| - k {
      CountAtLeast(times, k, u);
    }
  }

  /** Where the sorted list is cut: at most limit - 1 runs last beyond the start, and at any earlier moment at
      least `limit` do. */
  lemma CutCounts(p: Projection)
    requires Valid(p)
    ensures StartTime(p) >= LastStart(p.starts)
    ensures CountAfter(p.available, StartTime(p)) < p.limit
    ensures forall u :: LastStart(p.starts) <= u < StartTime(p) ==> CountAfter(p.available, u) >= p.limit
  {
    var n := |p.available|;
    if n >= p.limit {
      CutSorted(p.available, n - p.limit);
      assert p.available[n - p.limit] in p.available;
    } else {
      CountAtMost(p.available, 0, 0.0);
    }
  }

  /** The projected start is the earliest one at which fewer than `limit` slots are busy. */
  lemma StartIsEarliest(p: Projection)
    requires Valid(p)
    ensures EarliestStart(p.limit, p.initial, p.starts, p.duration, StartTime(p))
  {
    CutCounts(p);
  }

  lemma DropSorted(times: seq<Time>, k: nat, s: Time)
    requires Sorted(times) && k <= |times| && (forall i :: 0 <= i < k ==> times[i] <= s) &&
             (forall i :: k <= i < |times| ==> times[i] >= s)
    ensures Sorted(times[k..]) && forall e :: e in times[k..] ==> e >= s
    ensures forall t :: t >= s ==> CountAfter(times[k..], t) == CountAfter(times, t)
  {
    forall t | t >= s ensures CountAfter(times[k..], t) == CountAfter(times, t) {
      CountDrop(times, k, t);
    }
  }

  /** The popped slots are free by the start, the others are not free before it. */
  lemma RestCounts(p: Projection)
    requires Valid(p)
    ensures Sorted(p.available[Popped(p)..])
    ensures forall e :: e in p.available[Popped(p)..] ==> e >= StartTime(p)
    ensures forall t :: t >= StartTime(p) ==> CountAfter(p.available[Popped(p)..], t) == CountAfter(p.available, t)
  {
    forall i | 0 <= i < |p.available|
      ensures if i < Popped(p) then p.available[i] <= StartTime(p) else p.available[i] >= StartTime(p)
    {
      assert p.available[i] in p.available;
    }
    DropSorted(p.available, Popped(p), StartTime(p));
  }

  lemma StartedCounts(p: Projection, t: Time)
    requires Valid(p) && t >= StartTime(p)
    ensures Busy(p.initial, p.starts + [StartTime(p)], p.duration, t)
              == Busy(p.initial, p.starts, p.duration, t) + if StartTime(p) + p.duration > t then 1 else 0
  {
    assert (p.starts + [StartTime(p)])[..|p.starts|] == p.starts;
  }

  lemma PushedCounts(p: Projection, t: Time)
    requires Valid(p) && t >= StartTime(p) >= LastStart(p.starts)
    ensures CountAfter(Enqueue(p).available, t) == Busy(p.initial, p.starts + [StartTime(p)], p.duration, t)
  {
    var rest := p.available[Popped(p)..];
    assert CountAfter(rest, t) == CountAfter(p.available, t) by { RestCounts(p); }
    assert CountAfter(p.available, t) == Busy(p.initial, p.starts, p.duration, t);
    StartedCounts(p, t);
    InsertCounts(rest, StartTime(p) + p.duration, t);
  }

  lemma EnqueueKeepsValid(p: Projection)
    requires Valid(p)
    ensures Valid(Enqueue(p)) && LastStart(Enqueue(p).starts) == StartTime(p)
  {
    var s := StartTime(p);
    CutCounts(p);
    RestCounts(p);
    InsertSorts(p.available[Popped(p)..], s + p.duration);
    InsertMembers(p.available[Popped(p)..], s + p.duration);
    forall t | t >= s ensures CountAfter(Enqueue(p).available, t) == Busy(p.initial, p.starts + [s], p.duration, t) {
      PushedCounts(p, t);
    }
  }

  lemma {:induction false} ManyAreValid(p: Projection, n: nat)
    requires Valid(p)
    ensures Valid(EnqueueMany(p, n)) && EnqueueMany(p, n).initial == p.initial
    ensures EnqueueMany(p, n).limit == p.limit && EnqueueMany(p, n).duration == p.duration
    ensures |EnqueueMany(p, n).starts| == |p.starts| + n
  {
    if n > 0 {
      ManyAreValid(p, n - 1);
      EnqueueKeepsValid(EnqueueMany(p, n - 1));
    }
  }

  // ---------------------------------------------------------------- main results

  /** For any cap, any active runs, even more of them than the cap, and any number of queued jobs: each job's
      projected start is the first moment, not before its predecessor's start, with a free slot. */
  lemma ScheduleIsExact(limit: int, remaining: seq<Time>, duration: Time, n: nat)
    requires duration >= 0.0 && forall e :: e in remaining ==> e >= 0.0
    ensures var p := EnqueueMany(Begin(limit, remaining, duration), n);
            |p.starts| == n && Sorted(p.starts) && p.initial == remaining &&
            EarliestStart(if limit < 1 then 1 else limit, remaining, p.starts, duration, StartTime(p)) &&
            EnqueueMany(Begin(limit, remaining, duration), n + 1).starts == p.starts + [StartTime(p)]
  {
    BeginIsValid(limit, remaining, duration);
    ManyAreValid(Begin(limit, remaining, duration), n);
    StartIsEarliest(EnqueueMany(Begin(limit, remaining, duration), n));
  }

  lemma AddedJobFits(p: Projection, t: Time)
    requires Valid(p) && t >= StartTime(p)
    ensures Busy(p.initial, Enqueue(p).starts, p.duration, t) <= p.limit
  {
    var s := StartTime(p);
    CutCounts(p);
    assert (p.starts + [s])[..|p.starts|] == p.starts;
    CountShrinks(p.initial, s, t);
    RunningShrinks(p.starts, p.duration, s, t);
  }

  /** A job that starts later does not occupy a slot yet. */
  lemma LaterJobWaits(p: Projection, t: Time)
    requires Valid(p) && t < StartTime(p)
    ensures Busy(p.initial, Enqueue(p).starts, p.duration, t) == Busy(p.initial, p.starts, p.duration, t)
  {
    assert (p.starts + [StartTime(p)])[..|p.starts|] == p.starts;
  }

  lemma {:induction false} OccupancyWithin(p: Projection, n: nat, t: Time)
    requires Valid(p) && p.starts == [] && n > 0 && t >= StartTime(p)
    ensures Busy(p.initial, EnqueueMany(p, n).starts, p.duration, t) <= p.limit
  {
    ManyAreValid(p, n - 1);
    var q := EnqueueMany(p, n - 1);
    if t >= StartTime(q) {
      AddedJobFits(q, t);
    } else {
      LaterJobWaits(q, t);
      if n > 1 {
        OccupancyWithin(p, n - 1, t);
      }
    }
  }

  /** From the first projected start on, the schedule never occupies more slots than the cap. */
  lemma OccupancyNeverPassesCap(limit: int, remaining: seq<Time>, duration: Time, n: nat, t: Time)
    requires duration >= 0.0 && n > 0 && forall e :: e in remaining ==> e >= 0.0
    requires t >= StartTime(Begin(limit, remaining, duration))
    ensures Busy(remaining, EnqueueMany(Begin(limit, remaining, duration), n).starts, duration, t)
              <= if limit < 1 then 1 else limit
  {
    BeginIsValid(limit, remaining, duration);
    OccupancyWithin(Begin(limit, remaining, duration), n, t);
  }

  // ---------------------------------------------------------------- the class

  function Ceil(x: Time): (n: int)
    ensures n as real - 1.0 < x <= n as real
  {
    -((-x).Floor)
  }

  lemma EnqueueIsEarliest(p: Projection)
    requires Valid(p)
    ensures Valid(Enqueue(p)) && LastStart(Enqueue(p).starts) == StartTime(p) >= 0.0
    ensures EarliestStart(p.limit, p.initial, p.starts, p.duration, StartTime(p))
  {
    EnqueueKeepsValid(p);
    StartIsEarliest(p);
  }

  function Max(a: int, b: int): int { if a >= b then a else b }

  class SlotProjector {
    const limit: nat
    const duration: Time
    var available: seq<Time>
    ghost var initial: seq<Time>
    ghost var starts: seq<Time>

    ghost function Current(): Projection
      reads this
    {
      Projection(limit, duration, available, initial, starts)
    }

    constructor (limit: int, remaining: seq<Time>, duration: Time)
      requires duration >= 0.0 && forall e :: e in remaining ==> e >= 0.0
      ensures Current() == Begin(limit, remaining, duration) && Valid(Current())
    {
      this.limit := if limit < 1 then 1 else limit;
      this.duration := duration;
      available, initial, starts := Heapify(remaining), remaining, [];
      new;
      BeginIsValid(limit, remaining, duration);
    }

    /** Pop slots until one is free; the last popped one is free last. */
    method PopSlots() returns (at: Time)
      requires limit >= 1
      modifies this`available
      ensures available == old(available)[Popped(old(Current()))..] && at == StartTime(old(Current()))
    {
      at := 0.0;
      ghost var n := 0;
      while |available| >= limit
        invariant 0 <= n <= |old(available)| && available == old(available)[n..]
        invariant |old(available)| - n >= limit - 1 || n == 0
        invariant at == if n == 0 then 0.0 else old(available)[n - 1]
        decreases |available|
      {
        at := available[0];
        available := available[1..];
        n := n + 1;
      }
    }

    /** Pop slots until one is free and push the new occupant. */
    method Occupy() returns (at: Time)
      requires limit >= 1
      modifies this`available, this`starts
      ensures Current() == Enqueue(old(Current())) && at == StartTime(old(Current()))
    {
      at := PopSlots();
      available := Insert(available, at + duration);
      starts := starts + [at];
    }

    /** Add one queued job and report whole seconds until it starts. */
    method EnqueueJob() returns (startsIn: int)
      requires Valid(Current())
      modifies this`available, this`starts
      ensures Current() == Enqueue(old(Current())) && Valid(Current())
      ensures EarliestStart(limit, initial, old(starts), duration, LastStart(starts))
      ensures startsIn >= 0 && startsIn as real - 1.0 < LastStart(starts) <= startsIn as real
    {
      EnqueueIsEarliest(Current());
      var at := Occupy();
      startsIn := Max(0, Ceil(at));
    }
  }
}
