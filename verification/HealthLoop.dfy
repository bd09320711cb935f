/** HealthCheckAsync of AgonesSdk.cs, with the command loop and the host acting between its steps. */
module HealthLoop {
  import opened Basics

  datatype Exn = ObjectDisposed | OperationCanceled | OtherFault(code: int)

  /** How a call of Health ends; nobody looks at its boolean. */
  datatype Ping = Returned(ok: bool) | Threw(ex: Exn)

  datatype Clause = CatchObjectDisposed | CatchException

  const CLAUSES := [CatchObjectDisposed, CatchException]

  predicate Matches(clause: Clause, ex: Exn) {
    clause.CatchException? || ex.ObjectDisposed?
  }

  /** The first clause that takes the exception; without one it goes on up. */
  function Handler(clauses: seq<Clause>, ex: Exn): Option<Clause> {
    if clauses == [] then None
    else if Matches(clauses[0], ex) then Some(clauses[0])
    else Handler(clauses[1..], ex)
  }

  datatype Entry = Pinged | Logged(clause: Clause, ex: Exn)

  /** Where the loop stands: before a check, in the call or the delay, finished, or left by an exception. */
  datatype Place = AtCheck | AtToken | Calling | Waiting | Ended | Faulted(ex: Exn)

  datatype Health = Health(enabled: bool, tokenCancelled: bool, place: Place, log: seq<Entry>)

  const STARTED := Health(true, false, AtCheck, [])

  /** A move of the loop, with the fate of the ping if it ends one; a command; the host's token. */
  datatype Move = Loop(ping: Ping) | Unhealthy | OtherCommand | CancelToken

  /** The try statement when the call ends. */
  function AfterCall(s: Health, ping: Ping): Health {
    match ping
    case Returned(_) => s.(place := Waiting)
    case Threw(ex) =>
      match Handler(CLAUSES, ex)
      case Some(clause) => s.(place := Waiting, log := s.log + [Logged(clause, ex)])
      case None => s.(place := Faulted(ex))
  }

  function Step(s: Health, m: Move): Health {
    match m
    case Unhealthy => s.(enabled := false)
    case OtherCommand => s
    case CancelToken => s.(tokenCancelled := true)
    case Loop(ping) =>
      match s.place
      case AtCheck => s.(place := if s.enabled then AtToken else Ended)
      case AtToken =>
        if s.tokenCancelled then s.(place := Faulted(OperationCanceled))
        else s.(place := Calling, log := s.log + [Pinged])
      case Calling => AfterCall(s, ping)
      case Waiting => s.(place := AtCheck)
      case Ended => s
      case Faulted(_) => s
  }

  function Run(s: Health, moves: seq<Move>): Health
    decreases |moves|
  {
    if moves == [] then s else Run(Step(s, moves[0]), moves[1..])
  }

  /** The loop as an object; `schedule` is what the loop and the others do, in the order in which they get to run. */
  class HealthChecker {
    var healthEnabled: bool
    var tokenCancelled: bool
    var log: seq<Entry>
    var schedule: seq<Move>
    ghost var place: Place

    constructor (schedule: seq<Move>)
      ensures Now() == STARTED && this.schedule == schedule
    {
      healthEnabled, tokenCancelled, log, place := true, false, [], AtCheck;
      this.schedule := schedule;
    }

    ghost function Now(): Health
      reads this
    {
      Health(healthEnabled, tokenCancelled, place, log)
    }

    /** Lets the others run until it is the loop's turn; none when that turn never comes. */
    method Resume() returns (turn: Option<Ping>)
      modifies this`healthEnabled, this`tokenCancelled, this`schedule
      ensures match turn
              case Some(ping) => |schedule| < |old(schedule)|
                                 && Run(Step(Now(), Loop(ping)), schedule) == old(Run(Now(), schedule))
              case None => schedule == [] && Now() == old(Run(Now(), schedule))
    {
      while schedule != []
        invariant |schedule| <= |old(schedule)|
        invariant Run(Now(), schedule) == old(Run(Now(), schedule))
        decreases |schedule|
      {
        var m := schedule[0];
        schedule := schedule[1..];
        match m {
          case Loop(ping) => return Some(ping);
          case Unhealthy => healthEnabled := false;
          case CancelToken => tokenCancelled := true;
          case OtherCommand =>
        }
      }
      turn := None;
    }

    /** The call of Health between its catch clauses; what comes out is an exception that no clause took. */
    method Guarded(ping: Ping) returns (thrown: Option<Exn>)
      modifies this`log
      ensures var t := AfterCall(old(Now()), ping);
              log == t.log && thrown == if t.place.Faulted? then Some(t.place.ex) else None
    {
      thrown := if ping.Threw? then Some(ping.ex) else None;
      if ping.Threw? {
        EverythingIsCaught(ping.ex);
      }
      if thrown.Some? {
        if thrown.value.ObjectDisposed? {
          log := log + [Logged(CatchObjectDisposed, thrown.value)];
          thrown := None;
        } else {
          log := log + [Logged(CatchException, thrown.value)];
          thrown := None;
        }
      }
    }

    /** One call of Health from its start to the delay behind it. */
    method Call(ghost whole: Health) returns (thrown: Option<Exn>)
      requires Run(Now().(place := Calling, log := log + [Pinged]), schedule) == whole
      modifies this
      ensures |schedule| <= |old(schedule)| && Run(Now(), schedule) == whole
      ensures thrown == if place.Faulted? then Some(place.ex) else None
      ensures place.Faulted? || place.Waiting? || schedule == []
    {
      log := log + [Pinged];
      place := Calling;
      var turn := Resume();
      if turn.None? { return None; }
      thrown := Guarded(turn.value);
      place := if thrown.Some? then Faulted(thrown.value) else Waiting;
    }

    /**
     * The loop. It ends by its flag or with the exception it returns, or it is still waiting for
     * a turn when the schedule is over; all that it and the others did is the run of the schedule.
     */
    method HealthCheckAsync() returns (thrown: Option<Exn>)
      requires place.AtCheck?
      modifies this
      ensures Run(Now(), schedule) == old(Run(Now(), schedule))
      ensures thrown == if place.Faulted? then Some(place.ex) else None
      ensures schedule == [] || place.Ended? || place.Faulted?
    {
      thrown := None;
      ghost var whole := Run(Now(), schedule);
      while true
        invariant place.AtCheck? && thrown.None?
        invariant Run(Now(), schedule) == whole
        decreases |schedule|
      {
        var turn := Resume();
        if turn.None? { return; }
        if !healthEnabled {
          place := Ended;
          return;
        }
        place := AtToken;
        assert Run(Now(), schedule) == whole;
        turn := Resume();
        if turn.None? { return; }
        if tokenCancelled {
          place := Faulted(OperationCanceled);
          return Some(OperationCanceled);
        }
        thrown := Call(whole);
        if thrown.Some? { return; }
        turn := Resume();
        if turn.None? { return; }
        place := AtCheck;
      }
    }
  }

  // ---- One round ----

  /**
   * A round that nobody disturbs: first the flag is looked at, then the token, then there is one
   * ping, whose exception is logged, and after the delay the loop is at its check again.
   */
  lemma {:induction false} OneRound(s: Health, a: Ping, b: Ping, ping: Ping, c: Ping)
    requires s.place.AtCheck?
    ensures !s.enabled ==> Step(s, Loop(a)) == s.(place := Ended)
    ensures s.enabled && s.tokenCancelled ==> Run(s, [Loop(a), Loop(b)]) == s.(place := Faulted(OperationCanceled))
    ensures s.enabled && !s.tokenCancelled ==>
              var failed := if ping.Returned? then []
                            else if ping.ex.ObjectDisposed? then [Logged(CatchObjectDisposed, ping.ex)]
                            else [Logged(CatchException, ping.ex)];
              Run(s, [Loop(a), Loop(b), Loop(ping), Loop(c)]) == s.(log := s.log + [Pinged] + failed)
  {
    if ping.Threw? {
      EverythingIsCaught(ping.ex);
    }
    RunTwo(s, Loop(a), Loop(b));
    RunConcat(s, [Loop(a), Loop(b)], [Loop(ping), Loop(c)]);
    RunTwo(Run(s, [Loop(a), Loop(b)]), Loop(ping), Loop(c));
    assert [Loop(a), Loop(b)] + [Loop(ping), Loop(c)] == [Loop(a), Loop(b), Loop(ping), Loop(c)];
    if s.enabled && !s.tokenCancelled {
      var called := s.(place := Calling, log := s.log + [Pinged]);
      assert Step(Step(s, Loop(a)), Loop(b)) == called;
      var failed: seq<Entry> := if ping.Returned? then []
                                else if ping.ex.ObjectDisposed? then [Logged(CatchObjectDisposed, ping.ex)]
                                else [Logged(CatchException, ping.ex)];
      assert ping.Returned? ==> s.log + [Pinged] + failed == s.log + [Pinged];
      assert Step(called, Loop(ping)) == called.(place := Waiting, log := s.log + [Pinged] + failed);
      assert Step(Step(called, Loop(ping)), Loop(c)) == s.(log := s.log + [Pinged] + failed);
    }
  }

  lemma {:induction false} RunTwo(s: Health, m: Move, n: Move)
    ensures Run(s, [m, n]) == Step(Step(s, m), n)
  {
    assert [m, n][1..] == [n] && [n][1..] == [];
    assert Run(s, [m, n]) == Run(Step(s, m), [n]);
    assert Run(Step(s, m), [n]) == Run(Step(Step(s, m), n), []);
  }

  // ---- How the loop can end ----

  /** Two of the clauses are there, and together they take everything. */
  lemma {:induction false} EverythingIsCaught(ex: Exn)
    ensures Handler(CLAUSES, ex) == Some(if ex.ObjectDisposed? then CatchObjectDisposed else CatchException)
  {
    assert CLAUSES[1..] == [CatchException];
  }

  /** The loop is about to find the token cancelled. */
  predicate FindsToken(s: Health, m: Move) {
    m.Loop? && s.place.AtToken? && s.tokenCancelled
  }

  /** The loop is about to find the flag cleared. */
  predicate FindsFlag(s: Health, m: Move) {
    m.Loop? && s.place.AtCheck? && !s.enabled
  }

  lemma {:induction false} StepEnds(s: Health, m: Move)
    requires !s.place.Ended? && !s.place.Faulted?
    ensures var t := Step(s, m);
            && (t.place.Faulted? <==> FindsToken(s, m))
            && (t.place.Faulted? ==> t.place.ex == OperationCanceled)
            && (t.place.Ended? <==> FindsFlag(s, m))
  {
    if m.Loop? && m.ping.Threw? {
      EverythingIsCaught(m.ping.ex);
    }
  }

  lemma {:induction false} StaysOver(s: Health, moves: seq<Move>)
    requires s.place.Ended? || s.place.Faulted?
    ensures Run(s, moves).place == s.place
    decreases |moves|
  {
    if moves != [] {
      StaysOver(Step(s, moves[0]), moves[1..]);
    }
  }

  lemma {:induction false} RunFirst(s: Health, moves: seq<Move>, i: nat)
    requires i < |moves|
    ensures Run(s, moves[..i + 1]) == Run(Step(s, moves[0]), moves[1..][..i])
  {
    assert moves[..i + 1][1..] == moves[1..][..i];
  }

  ghost predicate SomeTime(s: Health, moves: seq<Move>, found: (Health, Move) -> bool) {
    exists i | 0 <= i < |moves| :: found(Run(s, moves[..i]), moves[i])
  }

  lemma {:induction false} SomeTimeCons(s: Health, moves: seq<Move>, found: (Health, Move) -> bool)
    requires moves != []
    ensures SomeTime(s, moves, found) <==> found(s, moves[0]) || SomeTime(Step(s, moves[0]), moves[1..], found)
  {
    var t, rest := Step(s, moves[0]), moves[1..];
    assert moves[..0] == [];
    forall i | 0 <= i < |rest|
      ensures found(Run(t, rest[..i]), rest[i]) == found(Run(s, moves[..i + 1]), moves[i + 1])
    {
      RunFirst(s, moves, i);
    }
    if found(s, moves[0]) {
      assert found(Run(s, moves[..0]), moves[0]);
    }
    if i :| 0 <= i < |rest| && found(Run(t, rest[..i]), rest[i]) {
      assert found(Run(s, moves[..i + 1]), moves[i + 1]);
    }
    if i :| 0 <= i < |moves| && found(Run(s, moves[..i]), moves[i]) {
      assert i > 0 ==> found(Run(t, rest[..i - 1]), rest[i - 1]);
    }
  }

  lemma {:induction false} Never(s: Health, moves: seq<Move>, found: (Health, Move) -> bool)
    requires s.place.Ended? || s.place.Faulted?
    requires forall t: Health, m :: found(t, m) ==> !t.place.Ended? && !t.place.Faulted?
    ensures !SomeTime(s, moves, found)
  {
    forall i | 0 <= i < |moves|
      ensures !found(Run(s, moves[..i]), moves[i])
    {
      StaysOver(s, moves[..i]);
    }
  }

  /**
   * Whatever the pings do: an exception leaves the loop exactly when the loop finds the token
   * cancelled at its own check, and it is the one thrown there; and the loop ends quietly exactly
   * when it finds the flag cleared.
   */
  lemma {:induction false} FailingPingsNeverEnd(s: Health, moves: seq<Move>)
    requires !s.place.Ended? && !s.place.Faulted?
    ensures var place := Run(s, moves).place;
            && (place.Faulted? <==> SomeTime(s, moves, FindsToken))
            && (place.Faulted? ==> place.ex == OperationCanceled)
            && (place.Ended? <==> SomeTime(s, moves, FindsFlag))
    decreases |moves|
  {
    if moves != [] {
      var t, rest := Step(s, moves[0]), moves[1..];
      StepEnds(s, moves[0]);
      SomeTimeCons(s, moves, FindsToken);
      SomeTimeCons(s, moves, FindsFlag);
      if t.place.Ended? || t.place.Faulted? {
        StaysOver(t, rest);
        Never(t, rest, FindsToken);
        Never(t, rest, FindsFlag);
      } else {
        FailingPingsNeverEnd(t, rest);
      }
    }
  }

  // ---- What failing pings leave behind ----

  function PingOf(e: Entry): Option<()> {
    if e.Pinged? then Some(()) else None
  }

  function FailureOf(e: Entry): Option<Exn> {
    if e.Logged? then Some(e.ex) else None
  }

  function Pings(log: seq<Entry>): nat {
    |Collect(log, PingOf)|
  }

  function Failures(log: seq<Entry>): seq<Exn> {
    Collect(log, FailureOf)
  }

  function ThrownBy(ping: Ping): seq<Exn> {
    if ping.Threw? then [ping.ex] else []
  }

  /** The calls of Health that end in a run. */
  function Fates(s: Health, moves: seq<Move>): seq<Ping>
    decreases |moves|
  {
    if moves == [] then []
    else (if moves[0].Loop? && s.place.Calling? then [moves[0].ping] else []) + Fates(Step(s, moves[0]), moves[1..])
  }

  function Thrown(fates: seq<Ping>): seq<Exn> {
    if fates == [] then [] else ThrownBy(fates[0]) + Thrown(fates[1..])
  }

  function InCall(s: Health): nat {
    if s.place.Calling? then 1 else 0
  }

  lemma {:induction false} AfterCallLogs(s: Health, ping: Ping)
    ensures var t := AfterCall(s, ping);
            t.place.Waiting? && Pings(t.log) == Pings(s.log) && Failures(t.log) == Failures(s.log) + ThrownBy(ping)
  {
    if ping.Threw? {
      EverythingIsCaught(ping.ex);
      var entry := Logged(Handler(CLAUSES, ping.ex).value, ping.ex);
      CollectAppend(s.log, entry, PingOf);
      CollectAppend(s.log, entry, FailureOf);
    }
  }

  lemma {:induction false} StepLogs(s: Health, m: Move)
    ensures var t := Step(s, m);
            var ended := if m.Loop? && s.place.Calling? then [m.ping] else [];
            && Failures(t.log) == Failures(s.log) + Thrown(ended)
            && Pings(t.log) + InCall(s) == Pings(s.log) + InCall(t) + |ended|
  {
    if m.Loop? && s.place.Calling? {
      AfterCallLogs(s, m.ping);
      ThrownCons(m.ping, []);
      assert [m.ping] + [] == [m.ping] && Thrown([]) == [];
    } else {
      CollectAppend(s.log, Pinged, PingOf);
      CollectAppend(s.log, Pinged, FailureOf);
    }
  }

  /**
   * Every call that throws is logged once with its exception, in order, and nothing else is; and
   * every call that starts ends, unless it is the one still in flight.
   */
  lemma {:induction false} FailuresAreLogged(s: Health, moves: seq<Move>)
    ensures var t := Run(s, moves);
            && Failures(t.log) == Failures(s.log) + Thrown(Fates(s, moves))
            && Pings(t.log) + InCall(s) == Pings(s.log) + InCall(t) + |Fates(s, moves)|
    decreases |moves|
  {
    if moves != [] {
      var t, rest := Step(s, moves[0]), moves[1..];
      StepLogs(s, moves[0]);
      FailuresAreLogged(t, rest);
      if moves[0].Loop? && s.place.Calling? {
        ThrownCons(moves[0].ping, []);
        ThrownCons(moves[0].ping, Fates(t, rest));
        assert [moves[0].ping] + [] == [moves[0].ping] && Thrown([]) == [];
      } else {
        assert [] + Fates(t, rest) == Fates(t, rest);
      }
    }
  }

  lemma {:induction false} ThrownCons(ping: Ping, fates: seq<Ping>)
    ensures Thrown([ping] + fates) == ThrownBy(ping) + Thrown(fates)
  {
    assert ([ping] + fates)[1..] == fates;
  }

  /** Equal but for what is logged about failures. */
  predicate Alike(s: Health, t: Health) {
    s.enabled == t.enabled && s.tokenCancelled == t.tokenCancelled && s.place == t.place && Pings(s.log) == Pings(t.log)
  }

  /** The same moves, the pings ending as they like. */
  predicate SameButFates(a: seq<Move>, b: seq<Move>) {
    |a| == |b| && forall i | 0 <= i < |a| :: a[i] == b[i] || (a[i].Loop? && b[i].Loop?)
  }

  /** The fate of the pings decides nothing but the log: not when the loop pings, and not how it ends. */
  lemma {:induction false} FatesDecideNothing(s: Health, t: Health, a: seq<Move>, b: seq<Move>)
    requires Alike(s, t) && SameButFates(a, b)
    ensures Alike(Run(s, a), Run(t, b))
    decreases |a|
  {
    if a != [] {
      StepAlike(s, t, a[0], b[0]);
      FatesDecideNothing(Step(s, a[0]), Step(t, b[0]), a[1..], b[1..]);
    }
  }

  lemma {:induction false} StepAlike(s: Health, t: Health, m: Move, n: Move)
    requires Alike(s, t) && (m == n || (m.Loop? && n.Loop?))
    ensures Alike(Step(s, m), Step(t, n))
  {
    StepLogs(s, m);
    StepLogs(t, n);
    if m.Loop? && n.Loop? {
      AfterCallLogs(s, m.ping);
      AfterCallLogs(t, n.ping);
    }
  }

  // ---- The flag ----

  /** From a cleared flag on: the flag stays cleared, and only a loop already past its check starts one more ping. */
  lemma {:induction false} ClearedStaysCleared(s: Health, moves: seq<Move>)
    requires !s.enabled
    ensures var t := Run(s, moves);
            && !t.enabled
            && Pings(t.log) <= Pings(s.log) + (if s.place.AtToken? then 1 else 0)
            && (t.place.AtToken? ==> s.place.AtToken? && Pings(t.log) == Pings(s.log))
    decreases |moves|
  {
    if moves != [] {
      StepLogs(s, moves[0]);
      ClearedStaysCleared(Step(s, moves[0]), moves[1..]);
    }
  }

  lemma {:induction false} RunConcat(s: Health, a: seq<Move>, b: seq<Move>)
    ensures Run(s, a + b) == Run(Run(s, a), b)
    decreases |a|
  {
    if a == [] {
      assert a + b == b;
    } else {
      RunConcat(Step(s, a[0]), a[1..], b);
      assert (a + b)[1..] == a[1..] + b;
    }
  }

  /** Over every interleaving: once UNHEALTHY is handled, at most one more ping starts and the flag stays false. */
  lemma {:induction false} AtMostOnePingAfterUnhealthy(before: seq<Move>, after: seq<Move>)
    ensures var s := Run(STARTED, before);
            var t := Run(STARTED, before + [Unhealthy] + after);
            !t.enabled && Pings(t.log) <= Pings(s.log) + (if s.place.AtToken? then 1 else 0)
  {
    RunConcat(STARTED, before, [Unhealthy]);
    RunConcat(STARTED, before + [Unhealthy], after);
    assert [Unhealthy][1..] == [];
    ClearedStaysCleared(Run(STARTED, before + [Unhealthy]), after);
  }
}
