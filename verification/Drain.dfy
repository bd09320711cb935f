/**
 * ExtendLifeService of ExtendHostLifeExtensions.cs: on shutdown, poll the connection count every
 * 5 seconds until it is zero or 30 minutes are over, then wait 5 seconds more. Times are in
 * milliseconds since StopAsync was called.
 */
module Drain {
  import opened ConnectionState

  const HOST_TIMEOUT := 31 * 60_000
  const DEADLINE := 30 * 60_000
  const POLL_INTERVAL := 5_000
  const TAIL := 5_000

  /**
   * What happens around the service: the steps of calls before each poll, how long each round of
   * the loop takes, how late the deadline timer fires and how long the tail takes.
   */
  datatype Surroundings = Surroundings(traffic: nat -> seq<Step>, round: nat -> nat, lag: nat, tail: nat)

  /** Delays are never short, and a round takes at most `most`. */
  ghost predicate Within(w: Surroundings, most: nat) {
    forall i :: POLL_INTERVAL <= w.round(i) <= most
  }

  /** When the poll with index `i` happens, if the loop gets there. */
  function PollTime(w: Surroundings, i: nat): nat {
    if i == 0 then 0 else PollTime(w, i - 1) + w.round(i - 1)
  }

  /** What the poll with index `i` finds. */
  function AtPoll(w: Surroundings, s: Calls, i: nat): Calls {
    After(if i == 0 then s else AtPoll(w, s, i - 1), w.traffic(i))
  }

  lemma {:induction false} PollsAreSpaced(w: Surroundings, most: nat, i: nat)
    requires Within(w, most)
    ensures PollTime(w, i) >= i * POLL_INTERVAL
  {
    if i > 0 {
      PollsAreSpaced(w, most, i - 1);
    }
  }

  /** `end` is when the host may go on, `polls` how often the count was read, `drained` whether it was zero. */
  datatype Stopped = Stopped(end: nat, polls: nat, drained: bool, calls: Calls)

  /** A poll before the deadline that reads zero. */
  predicate QuietPoll(w: Surroundings, s: Calls, i: nat) {
    PollTime(w, i) < DEADLINE + w.lag && AtPoll(w, s, i).count == 0
  }

  /** The loop ends after the first quiet poll, or when the deadline has passed without one. */
  ghost predicate Ends(w: Surroundings, s: Calls, r: Stopped) {
    && (forall i | 0 <= i < r.polls - 1 :: !QuietPoll(w, s, i))
    && (r.drained ==> r.polls > 0 && QuietPoll(w, s, r.polls - 1) && r.calls == AtPoll(w, s, r.polls - 1)
                      && r.end == PollTime(w, r.polls - 1) + w.tail)
    && (!r.drained ==> (forall i :: !QuietPoll(w, s, i)) && PollTime(w, r.polls) >= DEADLINE + w.lag
                       && r.end == PollTime(w, r.polls) + w.tail)
    && (r.polls > 0 ==> PollTime(w, r.polls - 1) < DEADLINE + w.lag)
  }

  class ExtendLifeService {
    const connectionState: ConnectionStateProvider

    constructor (connectionState: ConnectionStateProvider)
      ensures this.connectionState == connectionState
    {
      this.connectionState := connectionState;
    }

    method StopAsync(s: Calls, w: Surroundings, ghost most: nat) returns (r: Stopped)
      requires Within(w, most) && connectionState.referenceCount == s.count
      modifies connectionState
      ensures Ends(w, s, r) && connectionState.referenceCount == r.calls.count
    {
      var clock, polls, drained, calls := MonitorDisconnectAsync(s, w, most);
      r := Stopped(clock + w.tail, polls, drained, calls);
    }

    method MonitorDisconnectAsync(s: Calls, w: Surroundings, ghost most: nat)
      returns (clock: nat, polls: nat, drained: bool, calls: Calls)
      requires Within(w, most) && connectionState.referenceCount == s.count
      modifies connectionState
      ensures Ends(w, s, Stopped(clock + w.tail, polls, drained, calls))
      ensures connectionState.referenceCount == calls.count
    {
      clock, polls, drained, calls := 0, 0, false, s;
      while clock < DEADLINE + w.lag
        invariant clock == PollTime(w, polls) && !drained
        invariant calls == if polls == 0 then s else AtPoll(w, s, polls - 1)
        invariant connectionState.referenceCount == calls.count
        invariant forall i | 0 <= i < polls :: !QuietPoll(w, s, i)
        invariant polls > 0 ==> PollTime(w, polls - 1) < DEADLINE + w.lag
        decreases DEADLINE + w.lag - clock
      {
        calls := Serve(connectionState, calls, w.traffic(polls));
        var remainConnections := connectionState.referenceCount;
        polls := polls + 1;
        if remainConnections == 0 {
          drained := true;
          break;
        }
        clock := clock + w.round(polls - 1);
      }
      if !drained {
        NoQuietPollLater(w, s, most, polls);
      }
    }
  }

  lemma {:induction false} PollTimeMonotone(w: Surroundings, most: nat, i: nat, j: nat)
    requires Within(w, most) && i <= j
    ensures PollTime(w, i) <= PollTime(w, j)
    decreases j
  {
    if i < j {
      PollTimeMonotone(w, most, i, j - 1);
    }
  }

  lemma {:induction false} NoQuietPollLater(w: Surroundings, s: Calls, most: nat, polls: nat)
    requires Within(w, most) && PollTime(w, polls) >= DEADLINE + w.lag
    requires forall i | 0 <= i < polls :: !QuietPoll(w, s, i)
    ensures forall i: nat :: !QuietPoll(w, s, i)
  {
    forall i: nat
      ensures !QuietPoll(w, s, i)
    {
      if i >= polls {
        PollTimeMonotone(w, most, polls, i);
      }
    }
  }

  /**
   * The shutdown takes at most the deadline, the lag of its timer, one round and the tail, and
   * polls at most once per interval. That is below the host timeout when lag, round and tail
   * leave it a minute.
   */
  lemma {:induction false} DrainBound(w: Surroundings, most: nat, s: Calls, r: Stopped)
    requires Within(w, most) && Ends(w, s, r)
    ensures r.end < 30 * 60_000 + w.lag + most + w.tail
    ensures r.polls <= (30 * 60_000 + w.lag + 4_999) / 5_000
    ensures HOST_TIMEOUT == 31 * 60_000 && (w.lag + most + w.tail <= 60_000 ==> r.end < HOST_TIMEOUT)
  {
    if r.polls > 0 {
      PollsAreSpaced(w, most, r.polls - 1);
      assert PollTime(w, r.polls) == PollTime(w, r.polls - 1) + w.round(r.polls - 1);
    }
  }

  /** With delays of nominal length: at most 360 polls, and over after 30 minutes and 5 seconds. */
  lemma {:induction false} NominalDrain(w: Surroundings, s: Calls, r: Stopped)
    requires Within(w, POLL_INTERVAL) && w.lag == 0 && w.tail == TAIL && Ends(w, s, r)
    ensures r.polls <= 360 && r.end <= 30 * 60_000 + 5_000
    ensures !r.drained ==> r.polls == 360 && r.end == 30 * 60_000 + 5_000
    ensures r.drained ==> r.polls > 0 && r.end == (r.polls - 1) * 5_000 + 5_000
  {
    DrainBound(w, POLL_INTERVAL, s, r);
    NominalPollTime(w, r.polls);
    if r.polls > 0 {
      NominalPollTime(w, r.polls - 1);
    }
  }

  lemma {:induction false} NominalPollTime(w: Surroundings, i: nat)
    requires Within(w, POLL_INTERVAL)
    ensures PollTime(w, i) == i * POLL_INTERVAL
  {
    if i > 0 {
      NominalPollTime(w, i - 1);
      assert w.round(i - 1) == POLL_INTERVAL;
    }
  }

  /**
   * Leaving before the deadline means that every call that had connected by then had disconnected,
   * as long as fewer than 2^32 calls were open; and a poll with all calls gone is never passed over.
   */
  lemma {:induction false} DrainedMeansNoOpenCalls(w: Surroundings, past: seq<Step>, r: Stopped)
    requires Ends(w, After(NO_CALLS, past), r)
    ensures r.drained && |Open(r.calls)| < 0x1_0000_0000 ==> r.calls.connected == r.calls.disconnected
    ensures forall i: nat :: PollTime(w, i) < DEADLINE + w.lag
              && AtPoll(w, After(NO_CALLS, past), i).connected == AtPoll(w, After(NO_CALLS, past), i).disconnected
              ==> r.drained && r.polls <= i + 1
  {
    var s := After(NO_CALLS, past);
    if r.drained {
      var steps := AtPollIsReachable(w, past, r.polls - 1);
      CounterExactBelowLimit(steps);
    }
    forall i: nat | PollTime(w, i) < DEADLINE + w.lag && AtPoll(w, s, i).connected == AtPoll(w, s, i).disconnected
      ensures r.drained && r.polls <= i + 1
    {
      var steps := AtPollIsReachable(w, past, i);
      assert Open(AtPoll(w, s, i)) == {};
      CounterExactBelowLimit(steps);
      assert QuietPoll(w, s, i);
    }
  }

  lemma {:induction false} AtPollIsReachable(w: Surroundings, past: seq<Step>, i: nat) returns (steps: seq<Step>)
    ensures AtPoll(w, After(NO_CALLS, past), i) == After(NO_CALLS, steps)
  {
    if i == 0 {
      steps := past + w.traffic(0);
      AfterConcat(NO_CALLS, past, w.traffic(0));
    } else {
      var before := AtPollIsReachable(w, past, i - 1);
      steps := before + w.traffic(i);
      AfterConcat(NO_CALLS, before, w.traffic(i));
    }
  }
}
