/**
 * ConnectionStateProvider of ExtendHostLifeExtensions.cs, shared by all Subscribe calls of
 * ConnectorService.cs: each call connects, then registers a callback that disconnects on the
 * cancellation of its token. Cancellation may come at any moment, also before the registration.
 */
module ConnectionState {

  /** 32-bit wrap-around, as Interlocked.Increment and Interlocked.Decrement have it. */
  function Wrap32(n: int): (r: int)
    ensures -0x8000_0000 <= r < 0x8000_0000
    ensures -0x8000_0000 <= n < 0x8000_0000 ==> r == n
  {
    (n + 0x8000_0000) % 0x1_0000_0000 - 0x8000_0000
  }

  lemma {:induction false} WrapAgain(n: int, d: int)
    ensures Wrap32(Wrap32(n) + d) == Wrap32(n + d)
  {
    var q := (n + 0x8000_0000) / 0x1_0000_0000;
    assert Wrap32(n) == n - q * 0x1_0000_0000;
    WrapPeriodic(n + d, q);
  }

  lemma {:induction false} WrapPeriodic(n: int, q: int)
    ensures Wrap32(n - q * 0x1_0000_0000) == Wrap32(n)
    decreases if q < 0 then -q else q
  {
    if q > 0 {
      WrapPeriodic(n, q - 1);
    } else if q < 0 {
      WrapPeriodic(n, q + 1);
    }
  }

  class ConnectionStateProvider {
    var referenceCount: int

    constructor ()
      ensures referenceCount == 0
    {
      referenceCount := 0;
    }

    method Connect()
      modifies this
      ensures referenceCount == Wrap32(old(referenceCount) + 1)
    {
      referenceCount := Wrap32(referenceCount + 1);
    }

    method Disconnect()
      modifies this
      ensures referenceCount == Wrap32(old(referenceCount) - 1)
    {
      referenceCount := Wrap32(referenceCount - 1);
    }
  }

  type CallId = nat

  /** Which calls have reached which point; `cancelled` is the environment's doing. */
  datatype Calls = Calls(
    count: int,
    connected: set<CallId>,
    registered: set<CallId>,
    cancelled: set<CallId>,
    disconnected: set<CallId>)

  const NO_CALLS := Calls(0, {}, {}, {}, {})

  datatype Step = Connect(c: CallId) | Register(c: CallId) | Cancel(c: CallId) | RunCallback(c: CallId)

  /** A callback runs once, after both the registration and the cancellation, in whichever order they come. */
  predicate Enabled(s: Calls, step: Step) {
    match step
    case Connect(c) => c !in s.connected
    case Register(c) => c in s.connected && c !in s.registered
    case Cancel(c) => c !in s.cancelled
    case RunCallback(c) => c in s.registered && c in s.cancelled && c !in s.disconnected
  }

  function Next(s: Calls, step: Step): Calls {
    if !Enabled(s, step) then s
    else
      match step
      case Connect(c) => s.(connected := s.connected + {c}, count := Wrap32(s.count + 1))
      case Register(c) => s.(registered := s.registered + {c})
      case Cancel(c) => s.(cancelled := s.cancelled + {c})
      case RunCallback(c) => s.(disconnected := s.disconnected + {c}, count := Wrap32(s.count - 1))
  }

  function After(s: Calls, steps: seq<Step>): Calls {
    if steps == [] then s else Next(After(s, steps[..|steps| - 1]), steps[|steps| - 1])
  }

  /** The calls that have connected and not disconnected. */
  function Open(s: Calls): set<CallId> {
    s.connected - s.disconnected
  }

  predicate Counted(s: Calls) {
    && s.disconnected <= s.registered <= s.connected
    && s.disconnected <= s.cancelled
    && s.count == Wrap32(|Open(s)|)
  }

  lemma {:induction false} OneMore(all: set<CallId>, gone: set<CallId>, c: CallId)
    requires gone <= all && c !in all
    ensures |(all + {c}) - gone| == |all - gone| + 1
  {
    assert (all + {c}) - gone == (all - gone) + {c};
  }

  lemma {:induction false} OneLess(all: set<CallId>, gone: set<CallId>, c: CallId)
    requires c in all - gone
    ensures |all - (gone + {c})| == |all - gone| - 1
  {
    assert all - (gone + {c}) == (all - gone) - {c};
  }

  lemma {:induction false} StepKeepsCount(s: Calls, step: Step)
    requires Counted(s)
    ensures Counted(Next(s, step))
  {
    var t := Next(s, step);
    if Enabled(s, step) {
      match step
      case Connect(c) =>
        OneMore(s.connected, s.disconnected, c);
        WrapAgain(|Open(s)|, 1);
      case RunCallback(c) =>
        OneLess(s.connected, s.disconnected, c);
        WrapAgain(|Open(s)|, -1);
      case _ =>
        assert Open(t) == Open(s);
    }
  }

  /** Over every interleaving of any number of calls the counter is the number of open calls, in 32 bits. */
  lemma {:induction false} CounterCountsOpenCalls(s: Calls, steps: seq<Step>)
    requires Counted(s)
    ensures Counted(After(s, steps))
  {
    if steps != [] {
      CounterCountsOpenCalls(s, steps[..|steps| - 1]);
      StepKeepsCount(After(s, steps[..|steps| - 1]), steps[|steps| - 1]);
    }
  }

  /** It is the exact number, and never negative, as long as fewer than 2^31 calls are open. */
  lemma {:induction false} CounterExactBelowLimit(steps: seq<Step>)
    ensures var s := After(NO_CALLS, steps);
            && (|Open(s)| < 0x8000_0000 <==> s.count == |Open(s)|)
            && (|Open(s)| < 0x8000_0000 ==> s.count >= 0)
            && (|Open(s)| < 0x1_0000_0000 ==> (s.count == 0 <==> s.connected == s.disconnected))
  {
    assert Open(NO_CALLS) == {};
    CounterCountsOpenCalls(NO_CALLS, steps);
    var s := After(NO_CALLS, steps);
    if s.connected == s.disconnected {
      assert Open(s) == {};
    } else {
      var c :| c in s.connected && c !in s.disconnected;
      assert c in Open(s);
    }
  }

  /** What has happened to a call is what the steps of its own did to it; the callback needs all three before it. */
  lemma {:induction false} CallHistory(steps: seq<Step>, c: CallId)
    ensures var s := After(NO_CALLS, steps);
            && (c in s.connected <==> Connect(c) in steps)
            && (c in s.cancelled <==> Cancel(c) in steps)
            && (c in s.registered <==>
                  exists i, j :: 0 <= i < j < |steps| && steps[i] == Connect(c) && steps[j] == Register(c))
            && (c in s.disconnected ==>
                  RunCallback(c) in steps && Cancel(c) in steps && Connect(c) in steps && Register(c) in steps)
  {
    if steps != [] {
      var n := |steps| - 1;
      var before, last := steps[..n], steps[n];
      CallHistory(before, c);
      assert forall i | 0 <= i < n :: before[i] == steps[i];
      if Connect(c) in before {
        var i :| 0 <= i < n && before[i] == Connect(c);
        assert last == Register(c) ==> steps[i] == Connect(c) && steps[n] == Register(c);
      }
    }
  }

  lemma {:induction false} AfterConcat(s: Calls, a: seq<Step>, b: seq<Step>)
    ensures After(s, a + b) == After(After(s, a), b)
    decreases |b|
  {
    if b == [] {
      assert a + b == a;
    } else {
      AfterConcat(s, a, b[..|b| - 1]);
      assert (a + b)[..|a + b| - 1] == a + b[..|b| - 1];
    }
  }

  /** The calls' own code acting on the shared provider, step by step. */
  method Serve(provider: ConnectionStateProvider, s: Calls, steps: seq<Step>) returns (t: Calls)
    requires provider.referenceCount == s.count
    modifies provider
    ensures t == After(s, steps) && provider.referenceCount == t.count
  {
    t := s;
    for i := 0 to |steps|
      invariant t == After(s, steps[..i])
      invariant provider.referenceCount == t.count
    {
      assert steps[..i + 1][..i] == steps[..i];
      var step := steps[i];
      if Enabled(t, step) {
        match step {
          case Connect(_) => provider.Connect();
          case RunCallback(_) => provider.Disconnect();
          case _ =>
        }
      }
      t := Next(t, step);
    }
    assert steps[..|steps|] == steps;
  }
}
