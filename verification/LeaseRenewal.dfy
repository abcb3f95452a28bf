/** The background renewer of a delivery lease: storage failures are retried until just before the lease
    could run out, and the sender is told in time. */
module LeaseRenewal {
  import opened Tables

  const LEASE: Time := 300.0
  const RENEW: Time := 30.0
  const RETRY: Time := 2.0

  /** One renewal call: it takes `took` seconds and, when it renews, commits `at` that moment within them. */
  datatype Reply = Renewed(at: Time) | Refused | Failure
  datatype Call = Call(reply: Reply, took: Time)

  /** `leaseEnd` is the lease as the queue has it; `ending` says how the renewer stopped, if it did. */
  datatype Ending = Watching | LostInTime | LostLease
  datatype Renewer = Renewer(now: Time, wait: Time, safe: Time, leaseEnd: Time, ending: Ending)

  function Begin(now: Time, leaseEnd: Time): Renewer {
    Renewer(now, RENEW, now + (LEASE - RENEW), leaseEnd, Watching)
  }

  /** One turn of the loop: wait, call, and decide how long to wait next. */
  function Turn(r: Renewer, c: Call): Renewer {
    if !r.ending.Watching? then r
    else
      var done := r.now + r.wait + c.took;
      match c.reply
      case Renewed(at) => Renewer(done, RENEW, done + (LEASE - RENEW), at + LEASE, Watching)
      case Refused => r.(now := done, ending := LostLease)
      case Failure =>
        if done >= r.safe then r.(now := done, ending := LostInTime)
        else r.(now := done, wait := Earlier(RETRY, r.safe - done))
  }

  function Turns(r: Renewer, calls: seq<Call>): Renewer {
    if calls == [] then r else Turn(Turns(r, calls[..|calls| - 1]), calls[|calls| - 1])
  }

  /** A call is prompt when it takes less than half the renewal interval and commits while it runs. */
  predicate Prompt(r: Renewer, c: Call) {
    0.0 <= c.took < RENEW / 2.0 &&
    (c.reply.Renewed? ==> r.now + r.wait <= c.reply.at <= r.now + r.wait + c.took)
  }

  ghost predicate AllPrompt(r: Renewer, calls: seq<Call>) {
    forall i :: 0 <= i < |calls| ==> Prompt(Turns(r, calls[..i]), calls[i])
  }

  /** The next call begins and ends while the lease is live. */
  ghost predicate Protected(r: Renewer) {
    && r.now < r.leaseEnd
    && (r.ending.Watching? ==> r.wait > 0.0 && r.now + r.wait <= r.safe && r.safe + RENEW / 2.0 <= r.leaseEnd)
  }

  lemma {:induction false} StaysProtected(r: Renewer, calls: seq<Call>)
    requires Protected(r) && AllPrompt(r, calls)
    ensures Turns(r, calls).ending.LostLease? || Protected(Turns(r, calls))
  {
    if calls != [] {
      var n := |calls| - 1;
      forall i | 0 <= i < n ensures Prompt(Turns(r, calls[..n][..i]), calls[..n][i]) {
        assert calls[..n][..i] == calls[..i];
      }
      StaysProtected(r, calls[..n]);
    }
  }

  /** From a lease claimed less than half a renewal interval before the renewer starts, whatever the storage
      does: as long as calls are prompt, the renewer watches a live lease, or has given it up while it was
      still live, or the queue itself has refused it. */
  lemma NeverWatchesAnExpiredLease(now: Time, claimedAt: Time, calls: seq<Call>)
    requires claimedAt <= now <= claimedAt + RENEW / 2.0 && AllPrompt(Begin(now, claimedAt + LEASE), calls)
    ensures var r := Turns(Begin(now, claimedAt + LEASE), calls);
            r.ending.LostLease? || r.now < r.leaseEnd
  {
    StaysProtected(Begin(now, claimedAt + LEASE), calls);
  }

  /** A renewer that has stopped takes no further turn. */
  lemma {:induction false} StoppedIsFinal(r: Renewer, calls: seq<Call>, n: nat)
    requires n <= |calls| && !Turns(r, calls[..n]).ending.Watching?
    ensures Turns(r, calls) == Turns(r, calls[..n])
  {
    if n == |calls| {
      assert calls[..n] == calls;
    } else {
      assert calls[..|calls| - 1][..n] == calls[..n];
      StoppedIsFinal(r, calls[..|calls| - 1], n);
    }
  }

  /** The loop of the renewer thread. It stops at the first lost lease, or when told to, here after the last
      call. */
  method RenewUntilDone(start: Time, leaseEnd: Time, calls: seq<Call>) returns (lost: bool)
    ensures lost <==> !Turns(Begin(start, leaseEnd), calls).ending.Watching?
  {
    lost := false;
    var now, wait, safe := start, RENEW, start + (LEASE - RENEW);
    ghost var r := Begin(start, leaseEnd);
    var n := 0;
    while n < |calls| && !lost
      invariant 0 <= n <= |calls|
      invariant r == Turns(Begin(start, leaseEnd), calls[..n])
      invariant lost <==> !r.ending.Watching?
      invariant !lost ==> r.now == now && r.wait == wait && r.safe == safe
      decreases |calls| - n
    {
      assert calls[..n + 1][..n] == calls[..n];
      var call := calls[n];
      now := now + wait + call.took;
      match call.reply {
        case Renewed(_) =>
          wait, safe := RENEW, now + (LEASE - RENEW);
        case Refused =>
          lost := true;
        case Failure =>
          if now >= safe {
            lost := true;
          } else {
            wait := Earlier(RETRY, safe - now);
          }
      }
      r := Turn(r, call);
      n := n + 1;
    }
    if lost {
      StoppedIsFinal(Begin(start, leaseEnd), calls, n);
    }
    assert n == |calls| ==> calls[..n] == calls;
  }
}
