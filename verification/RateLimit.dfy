/** Rate-limit backoff: bounds of one transition, when a deadline may shrink, and why saving and restoring it
    across restarts is invisible. */
module RateLimit {
  import opened Tables

  const DEFAULT_RETRY_AFTER: Time := 300.0
  const JITTER_CAP: Time := 60.0
  const JITTER_FRACTION: Time := 0.1
  const DEFAULT_CAP: Time := 1800.0
  const DEFAULT_RESET: Time := 1800.0

  datatype Backoff = Backoff(attempts: nat, blockedUntil: Time, lastLimitedAt: Time)

  datatype Saved = Saved(attempts: nat, blockedUntilEpoch: Time, lastLimitedEpoch: Time)

  /** The two thresholds a backoff is configured with. */
  datatype Limits = Limits(cap: Time, reset: Time)

  function Clear(): Backoff { Backoff(0, 0.0, 0.0) }

  function Remaining(s: Backoff, now: Time): Time { Later(0.0, s.blockedUntil - now) }

  function Snapshot(s: Backoff, now: Time, wall: Time): Saved {
    var age := if s.attempts > 0 then Later(0.0, now - s.lastLimitedAt) else 0.0;
    Saved(s.attempts, wall + Remaining(s, now), wall - age)
  }

  function Restore(saved: Saved, now: Time, wall: Time, limits: Limits): Backoff {
    var remaining := Later(0.0, saved.blockedUntilEpoch - wall);
    var age := if saved.lastLimitedEpoch != 0.0 then Later(0.0, wall - saved.lastLimitedEpoch) else 0.0;
    if saved.attempts == 0 || (remaining <= 0.0 && age >= limits.reset) then Clear()
    else Backoff(saved.attempts, now + remaining, now - age)
  }

  /** The last limit lies so far back that the next one counts as the first. */
  predicate Stale(s: Backoff, now: Time, limits: Limits) {
    s.attempts > 0 && s.lastLimitedAt != 0.0 && now - s.lastLimitedAt >= limits.reset
  }

  function Floor(attempts: nat, retryAfter: Time, limits: Limits): Time
    requires attempts >= 1
  {
    var exponent := if attempts - 1 > 20 then 20 else attempts - 1;
    Later(Earlier(limits.cap, DEFAULT_RETRY_AFTER * Pow2(exponent) as real), Later(0.0, retryAfter))
  }

  function JitterBound(floor: Time): Time { Earlier(JITTER_CAP, floor * JITTER_FRACTION) }

  /** The random share of the bound, drawn in seconds and clamped to it. */
  function Jitter(floor: Time, drawn: Time): (j: Time)
    ensures floor >= 0.0 ==> 0.0 <= j <= JitterBound(floor)
  {
    Later(0.0, Earlier(JitterBound(floor), drawn))
  }

  function Transition(s: Backoff, retryAfter: Time, now: Time, drawn: Time, limits: Limits): Backoff {
    var base := if Stale(s, now, limits) then Clear() else s;
    var attempts := base.attempts + 1;
    var floor := Floor(attempts, retryAfter, limits);
    Backoff(attempts, Later(base.blockedUntil, now + floor + Jitter(floor, drawn)), now)
  }

  // ---------------------------------------------------------------- one transition

  /** After a limit the wait is at least the capped exponential and the server's own, and at most that plus
      the smaller of a minute and a tenth, unless an older deadline lies further out. */
  lemma TransitionBounds(s: Backoff, retryAfter: Time, now: Time, drawn: Time, limits: Limits)
    requires now >= 0.0
    ensures var base := if Stale(s, now, limits) then Clear() else s;
            var after := Transition(s, retryAfter, now, drawn, limits);
            var floor := Floor(base.attempts + 1, retryAfter, limits);
            after.attempts == base.attempts + 1 && after.lastLimitedAt == now &&
            Remaining(after, now) >= floor >= retryAfter &&
            (Remaining(after, now) <= floor + JitterBound(floor) ||
             (after.blockedUntil == s.blockedUntil && !Stale(s, now, limits)))
  {
  }

  /** A limit pulls the deadline in exactly when the reset forgets a deadline further out than the new one. */
  lemma DeadlineShrinksIff(s: Backoff, retryAfter: Time, now: Time, drawn: Time, limits: Limits)
    requires now >= 0.0
    ensures Transition(s, retryAfter, now, drawn, limits).blockedUntil < s.blockedUntil <==>
              Stale(s, now, limits) &&
              s.blockedUntil > now + Floor(1, retryAfter, limits) + Jitter(Floor(1, retryAfter, limits), drawn)
  {
  }

  datatype Limit = Limit(at: Time, retryAfter: Time, drawn: Time)

  function Record(s: Backoff, seen: seq<Limit>, limits: Limits): Backoff {
    if seen == [] then s
    else
      var last := seen[|seen| - 1];
      Transition(Record(s, seen[..|seen| - 1], limits), last.retryAfter, last.at, last.drawn, limits)
  }

  /** It happens: a wait of two hours asked for by the server is forgotten when the next limit comes half an
      hour later. */
  lemma ShrinkExample()
    ensures var limits := Limits(DEFAULT_CAP, DEFAULT_RESET);
            var seen := [Limit(100.0, 7200.0, 0.0), Limit(1900.0, 0.0, 0.0)];
            Record(Clear(), seen[..1], limits).blockedUntil == 7300.0 &&
            Record(Clear(), seen, limits).blockedUntil == 2200.0
  {
    var limits := Limits(DEFAULT_CAP, DEFAULT_RESET);
    var seen := [Limit(100.0, 7200.0, 0.0), Limit(1900.0, 0.0, 0.0)];
    assert seen[..1] == [seen[0]] && seen[..1][..0] == [];
    assert Pow2(0) == 1;
    assert Floor(1, 7200.0, limits) == 7200.0 && Floor(1, 0.0, limits) == 300.0;
    assert Record(Clear(), seen[..1], limits) == Backoff(1, 7300.0, 100.0);
  }

  lemma FreshGrows(s: Backoff, l: Limit, limits: Limits)
    requires l.at - s.lastLimitedAt < limits.reset
    ensures Transition(s, l.retryAfter, l.at, l.drawn, limits).blockedUntil >= s.blockedUntil
    ensures Transition(s, l.retryAfter, l.at, l.drawn, limits).lastLimitedAt == l.at
  {
  }

  lemma RecordNext(s: Backoff, seen: seq<Limit>, j: nat, limits: Limits)
    requires 0 < j <= |seen|
    ensures var l := seen[j - 1];
            Record(s, seen[..j], limits) ==
              Transition(Record(s, seen[..j - 1], limits), l.retryAfter, l.at, l.drawn, limits)
  {
    assert seen[..j][..j - 1] == seen[..j - 1];
  }

  lemma RecordedAt(s: Backoff, seen: seq<Limit>, j: nat, limits: Limits)
    requires 0 < j <= |seen|
    ensures Record(s, seen[..j], limits).lastLimitedAt == seen[j - 1].at
  {
    RecordNext(s, seen, j, limits);
  }

  /** While limits keep coming less than the reset apart, no deadline is ever pulled in. */
  lemma {:induction false} DeadlinesGrow(seen: seq<Limit>, limits: Limits, i: nat, j: nat)
    requires 0 < i <= j <= |seen|
    requires forall k :: 0 < k < |seen| ==> seen[k].at - seen[k - 1].at < limits.reset
    ensures Record(Clear(), seen[..i], limits).blockedUntil <= Record(Clear(), seen[..j], limits).blockedUntil
    decreases j
  {
    if i < j {
      DeadlinesGrow(seen, limits, i, j - 1);
      RecordNext(Clear(), seen, j, limits);
      RecordedAt(Clear(), seen, j - 1, limits);
      FreshGrows(Record(Clear(), seen[..j - 1], limits), seen[j - 1], limits);
    }
  }

  // ---------------------------------------------------------------- restarts are invisible

  /** Two states that no later limit or reading can tell apart: the same wait and the same age, or one that
      the next limit will reset and one already cleared. */
  ghost predicate Alike(live: Backoff, t: Time, restored: Backoff, u: Time, limits: Limits) {
    || (live.attempts == 0 && restored.attempts == 0 && Remaining(live, t) == 0.0 == Remaining(restored, u))
    || (live.attempts == restored.attempts > 0 && Remaining(live, t) == Remaining(restored, u) &&
        t - live.lastLimitedAt == u - restored.lastLimitedAt >= 0.0 &&
        live.lastLimitedAt != 0.0 && restored.lastLimitedAt != 0.0)
    || (Stale(live, t, limits) && Remaining(live, t) == 0.0 && restored.attempts == 0 && Remaining(restored, u) == 0.0)
  }

  lemma AlikeWaits(live: Backoff, t: Time, restored: Backoff, u: Time, d: Time, limits: Limits)
    requires Alike(live, t, restored, u, limits) && d >= 0.0
    ensures Alike(live, t + d, restored, u + d, limits) && Remaining(live, t + d) == Remaining(restored, u + d)
  {
  }

  /** Alike states take the same transition, report the same wait and stay alike. */
  lemma AlikeTransitions(live: Backoff, t: Time, restored: Backoff, u: Time, retryAfter: Time, drawn: Time,
                         limits: Limits)
    requires Alike(live, t, restored, u, limits) && t > 0.0 && u > 0.0
    ensures var a := Transition(live, retryAfter, t, drawn, limits);
            var b := Transition(restored, retryAfter, u, drawn, limits);
            Alike(a, t, b, u, limits) && Remaining(a, t) == Remaining(b, u)
  {
  }

  /** Neither the stored moment nor the restored one lands on the zero that stands for "never", or nothing is
      left to remember anyway. */
  predicate AvoidsZero(s: Backoff, now: Time, wall: Time, later: Time, down: Time, limits: Limits) {
    s.attempts > 0 ==>
      var age := Later(0.0, now - s.lastLimitedAt);
      var over := Remaining(s, now) <= down;
      if wall - age == 0.0 then age + down == 0.0 || (over && limits.reset <= 0.0)
      else later != age + down || (over && age + down >= limits.reset)
  }

  /** Saving at one moment and restoring after any downtime, on any new clock, gives a state like the one that
      had simply waited, exactly when the zero is avoided. */
  lemma RestoreIsAlikeIff(live: Backoff, t: Time, restored: Backoff, u: Time, wall: Time, down: Time, later: Time,
                          limits: Limits)
    requires Alike(live, t, restored, u, limits) && down >= 0.0 && later > 0.0
    ensures Alike(live, t + down, Restore(Snapshot(restored, u, wall), later, wall + down, limits), later, limits) <==>
              AvoidsZero(restored, u, wall, later, down, limits)
  {
  }

  // ---------------------------------------------------------------- runs

  datatype Event =
    | Wait(seconds: Time)
    | Limited(retryAfter: Time, drawn: Time)
    | Restart(down: Time, clock: Time)

  /** A process with its own clock; `waits` is what it reports after each event. */
  datatype Process = Process(state: Backoff, clock: Time, wall: Time, waits: seq<Time>)

  function Report(p: Process): Process { p.(waits := p.waits + [Remaining(p.state, p.clock)]) }

  /** The process that restarts: it saves its backoff, is down for a while, and restores it on a new clock. */
  function Restarting(p: Process, e: Event, limits: Limits): Process {
    match e
    case Wait(d) => Report(p.(clock := p.clock + d, wall := p.wall + d))
    case Limited(r, f) => Report(p.(state := Transition(p.state, r, p.clock, f, limits)))
    case Restart(d, clock) =>
      Report(p.(state := Restore(Snapshot(p.state, p.clock, p.wall), clock, p.wall + d, limits), clock := clock,
                wall := p.wall + d))
  }

  /** The process that never does. */
  function Lasting(p: Process, e: Event, limits: Limits): Process {
    Restarting(p, if e.Restart? then Wait(e.down) else e, limits)
  }

  function RunRestarting(p: Process, events: seq<Event>, limits: Limits): Process {
    if events == [] then p
    else Restarting(RunRestarting(p, events[..|events| - 1], limits), events[|events| - 1], limits)
  }

  function RunLasting(p: Process, events: seq<Event>, limits: Limits): Process {
    if events == [] then p else Lasting(RunLasting(p, events[..|events| - 1], limits), events[|events| - 1], limits)
  }

  /** Time moves forward, new clocks are positive, and no restart hits a zero. */
  ghost predicate Orderly(p: Process, events: seq<Event>, limits: Limits) {
    forall i :: 0 <= i < |events| ==>
      match events[i]
      case Wait(d) => d >= 0.0
      case Limited(_, _) => true
      case Restart(d, clock) =>
        d >= 0.0 && clock > 0.0 &&
        var q := RunRestarting(p, events[..i], limits);
        AvoidsZero(q.state, q.clock, q.wall, clock, d, limits)
  }

  ghost predicate InStep(live: Process, restarted: Process, limits: Limits) {
    live.clock > 0.0 && restarted.clock > 0.0 && live.waits == restarted.waits && live.wall == restarted.wall &&
    Alike(live.state, live.clock, restarted.state, restarted.clock, limits)
  }

  lemma StaysInStep(live: Process, restarted: Process, e: Event, limits: Limits)
    requires InStep(live, restarted, limits)
    requires match e
             case Wait(d) => d >= 0.0
             case Limited(_, _) => true
             case Restart(d, clock) =>
               d >= 0.0 && clock > 0.0 && AvoidsZero(restarted.state, restarted.clock, restarted.wall, clock, d, limits)
    ensures InStep(Lasting(live, e, limits), Restarting(restarted, e, limits), limits)
  {
    match e
    case Wait(d) => AlikeWaits(live.state, live.clock, restarted.state, restarted.clock, d, limits);
    case Limited(r, f) => AlikeTransitions(live.state, live.clock, restarted.state, restarted.clock, r, f, limits);
    case Restart(d, later) =>
      RestoreIsAlikeIff(live.state, live.clock, restarted.state, restarted.clock, restarted.wall, d, later, limits);
  }

  /** Over every run, with any number of restarts, limits and pauses, the process that restarts reports the
      same waits as the one that never did. */
  lemma {:induction false} RestartsAreInvisible(clock: Time, wall: Time, events: seq<Event>, limits: Limits)
    requires clock > 0.0 && Orderly(Process(Clear(), clock, wall, []), events, limits)
    ensures var p := Process(Clear(), clock, wall, []);
            InStep(RunLasting(p, events, limits), RunRestarting(p, events, limits), limits)
  {
    if events != [] {
      var n := |events| - 1;
      var p := Process(Clear(), clock, wall, []);
      forall i | 0 <= i < n ensures events[..n][..i] == events[..i] {}
      RestartsAreInvisible(clock, wall, events[..n], limits);
      var live, restarted := RunLasting(p, events[..n], limits), RunRestarting(p, events[..n], limits);
      StaysInStep(live, restarted, events[n], limits);
    }
  }

  lemma OneByOne<T>(a: T, b: T, c: T, d: T)
    ensures [a, b, c, d] == [a, b, c] + [d] && [a, b, c] == [a, b] + [c] && [a, b] == [a] + [b] && [a] == [] + [a]
  {
  }

  lemma RunSnoc(p: Process, events: seq<Event>, e: Event, limits: Limits)
    ensures RunRestarting(p, events + [e], limits) == Restarting(RunRestarting(p, events, limits), e, limits)
    ensures RunLasting(p, events + [e], limits) == Lasting(RunLasting(p, events, limits), e, limits)
  {
    assert (events + [e])[..|events|] == events;
  }

  lemma RunFour(p: Process, a: Event, b: Event, c: Event, d: Event, limits: Limits)
    ensures RunRestarting(p, [a, b, c, d], limits) ==
              Restarting(Restarting(Restarting(Restarting(p, a, limits), b, limits), c, limits), d, limits)
    ensures RunLasting(p, [a, b, c, d], limits) ==
              Lasting(Lasting(Lasting(Lasting(p, a, limits), b, limits), c, limits), d, limits)
  {
    OneByOne(a, b, c, d);
    RunSnoc(p, [], a, limits);
    RunSnoc(p, [a], b, limits);
    RunSnoc(p, [a, b], c, limits);
    RunSnoc(p, [a, b, c], d, limits);
  }

  /** The corner the condition excludes: a restart puts the last limit exactly at clock zero, so it never counts as
      stale and the next limit waits twice as long as it would have. */
  lemma ZeroExample()
    ensures var limits, p := Limits(DEFAULT_CAP, DEFAULT_RESET), Process(Clear(), 100.0, 5000.0, []);
            var events := [Limited(0.0, 0.0), Restart(200.0, 200.0), Wait(1800.0), Limited(0.0, 0.0)];
            RunLasting(p, events, limits).waits == [300.0, 100.0, 0.0, 300.0] &&
            RunRestarting(p, events, limits).waits == [300.0, 100.0, 0.0, 600.0]
  {
    var limits, p := Limits(DEFAULT_CAP, DEFAULT_RESET), Process(Clear(), 100.0, 5000.0, []);
    RunFour(p, Limited(0.0, 0.0), Restart(200.0, 200.0), Wait(1800.0), Limited(0.0, 0.0), limits);
    assert Pow2(0) == 1 && Pow2(1) == 2;
    assert Floor(1, 0.0, limits) == 300.0 && Floor(2, 0.0, limits) == 600.0;
    var first := Process(Backoff(1, 400.0, 100.0), 100.0, 5000.0, [300.0]);
    assert Restarting(p, Limited(0.0, 0.0), limits) == first;
    assert Restarting(first, Restart(200.0, 200.0), limits) ==
      Process(Backoff(1, 300.0, 0.0), 200.0, 5200.0, [300.0] + [100.0]);
    assert Lasting(first, Restart(200.0, 200.0), limits) ==
      Process(Backoff(1, 400.0, 100.0), 300.0, 5200.0, [300.0] + [100.0]);
  }

  // ---------------------------------------------------------------- the class

  class RateLimitBackoff {
    const limits: Limits
    var attempts: nat
    var blockedUntil: Time
    var lastLimitedAt: Time

    ghost function State(): Backoff
      reads this
    {
      Backoff(attempts, blockedUntil, lastLimitedAt)
    }

    constructor (limits: Limits)
      ensures this.limits == limits && State() == Clear()
    {
      this.limits := limits;
      attempts, blockedUntil, lastLimitedAt := 0, 0.0, 0.0;
    }

    /** One observed limit; `delay` is how long to wait from now. */
    method RecordLimit(retryAfter: Time, drawn: Time, now: Time) returns (delay: Time)
      modifies this
      ensures State() == Transition(old(State()), retryAfter, now, drawn, limits)
      ensures delay == Remaining(State(), now) && delay >= 0.0
    {
      if attempts > 0 && lastLimitedAt != 0.0 && now - lastLimitedAt >= limits.reset {
        attempts, blockedUntil, lastLimitedAt := 0, 0.0, 0.0;
      }
      attempts := attempts + 1;
      var floor := Floor(attempts, retryAfter, limits);
      var jitter := Jitter(floor, drawn);
      blockedUntil := Later(blockedUntil, now + floor + jitter);
      lastLimitedAt := now;
      delay := Later(0.0, blockedUntil - now);
    }

    method Save(now: Time, wall: Time) returns (saved: Saved)
      ensures saved == Snapshot(State(), now, wall)
    {
      var age := 0.0;
      if attempts > 0 {
        age := Later(0.0, now - lastLimitedAt);
      }
      saved := Saved(attempts, wall + Later(0.0, blockedUntil - now), wall - age);
    }

    /** A saved backoff that has run out is dropped, any other resumes with what is left of it. */
    method Load(saved: Saved, now: Time, wall: Time)
      modifies this
      ensures State() == Restore(saved, now, wall, limits)
      ensures attempts > 0 ==> Remaining(State(), now) == Later(0.0, saved.blockedUntilEpoch - wall)
    {
      var restored := Restore(saved, now, wall, limits);
      attempts, blockedUntil, lastLimitedAt := restored.attempts, restored.blockedUntil, restored.lastLimitedAt;
    }
  }
}
