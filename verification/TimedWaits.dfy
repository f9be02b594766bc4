/** The two loops that wait for a given time: Engine::awaitFor and the timed
    IODevice::syncReceive. */
module TimedWaits {
  const INT_MAX: int := 0x7FFF_FFFF
  const NS_PER_MS := 1000000

  /** clock(k) is the elapsed time, in nanoseconds, at the k-th reading; it grows with
      every round. */
  ghost predicate Advances(clock: nat -> int) {
    clock(0) >= 0 && forall k: nat :: clock(k) < clock(k + 1)
  }

  /** The timeout of one round: the whole milliseconds that remain, clamped. */
  function Timeout(remaining: int): (ms: int)
    requires remaining > 0
    ensures 0 <= ms <= INT_MAX && ms * NS_PER_MS <= remaining
    ensures ms < INT_MAX ==> remaining < (ms + 1) * NS_PER_MS
  {
    var ms := remaining / NS_PER_MS;
    if ms > INT_MAX then INT_MAX else ms
  }

  /** What the polls of a wait owe: each is made while time remains, with the timeout
      above, which does not reach beyond the end. */
  ghost predicate WaitedRight(duration: int, clock: nat -> int, timeouts: seq<int>) {
    forall k: nat :: k < |timeouts| ==>
      && clock(k) < duration && timeouts[k] == Timeout(duration - clock(k))
      && clock(k) + timeouts[k] * NS_PER_MS <= duration
  }

  /** A wait that ends by the clock ends at the first reading that shows no time left,
      late by no more than what its last poll took beyond its timeout. */
  ghost predicate EndedRight(duration: int, clock: nat -> int, timeouts: seq<int>) {
    var n := |timeouts|;
    && clock(n) >= duration
    && (n > 0 ==> clock(n) - duration <= clock(n) - clock(n - 1) - timeouts[n - 1] * NS_PER_MS)
  }

  /** Engine::awaitFor. */
  method AwaitFor(duration: int, clock: nat -> int) returns (timeouts: seq<int>)
    requires Advances(clock)
    ensures WaitedRight(duration, clock, timeouts) && EndedRight(duration, clock, timeouts)
  {
    timeouts := [];
    var elapsed := clock(0);
    while elapsed < duration
      invariant elapsed == clock(|timeouts|)
      invariant WaitedRight(duration, clock, timeouts)
      decreases duration - elapsed
    {
      assert clock(|timeouts|) < clock(|timeouts| + 1);
      timeouts := timeouts + [Timeout(duration - elapsed)];
      elapsed := clock(|timeouts|);
    }
  }

  datatype PollResult = NothingYet | Readable(readOk: bool) | PollError

  datatype Outcome = Received | ReadFailed | PollFailed | TimedOut | NotConfigured

  /** How a poll result other than a timeout ends the receive. */
  function Ending(p: PollResult): Outcome
    requires !p.NothingYet?
  {
    if p.PollError? then PollFailed else if p.readOk then Received else ReadFailed
  }

  /** The timed syncReceive: it ends with the first poll that found something, or failed,
      and reports a timeout only when none did before the full duration had passed. */
  method SyncReceive(hasHandle: bool, duration: int, clock: nat -> int, polls: nat -> PollResult)
    returns (outcome: Outcome, timeouts: seq<int>)
    requires Advances(clock)
    ensures outcome == NotConfigured <==> !hasHandle
    ensures !hasHandle ==> timeouts == []
    ensures WaitedRight(duration, clock, timeouts)
    ensures outcome == TimedOut ==>
              && EndedRight(duration, clock, timeouts)
              && forall k: nat :: k < |timeouts| ==> polls(k) == NothingYet
    ensures hasHandle && outcome != TimedOut ==>
              && |timeouts| > 0
              && (forall k: nat :: k < |timeouts| - 1 ==> polls(k) == NothingYet)
              && polls(|timeouts| - 1) != NothingYet
              && (outcome == PollFailed <==> polls(|timeouts| - 1) == PollError)
              && (outcome == Received <==> polls(|timeouts| - 1) == Readable(true))
              && (outcome == ReadFailed <==> polls(|timeouts| - 1) == Readable(false))
  {
    timeouts := [];
    if !hasHandle {
      return NotConfigured, timeouts;
    }
    var elapsed := clock(0);
    while elapsed < duration
      invariant elapsed == clock(|timeouts|)
      invariant forall k: nat :: k < |timeouts| ==> polls(k) == NothingYet
      invariant WaitedRight(duration, clock, timeouts)
      decreases duration - elapsed
    {
      assert clock(|timeouts|) < clock(|timeouts| + 1);
      var resp := polls(|timeouts|);
      timeouts := timeouts + [Timeout(duration - elapsed)];
      if !resp.NothingYet? {
        return Ending(resp), timeouts;
      }
      elapsed := clock(|timeouts|);
    }
    return TimedOut, timeouts;
  }
}
