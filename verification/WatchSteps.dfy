/**
 * An execution of a watch one entry at a time: what happens next follows from what has happened
 * so far. The pump with its nested handlers does exactly these steps.
 */
module WatchSteps {
  import opened Basics
  import opened TextLines
  import opened Watch
  import opened WatchLaws

  function Last(log: seq<Entry>): Entry
    requires log != []
  {
    log[|log| - 1]
  }

  function Front(log: seq<Entry>): seq<Entry>
    requires log != []
  {
    log[..|log| - 1]
  }

  /** The cancellation source has been cancelled: from the start, by a callback, or by the timer at a line. */
  predicate FlagSet(h: Handlers, cancelled: bool, log: seq<Entry>) {
    if log == [] then cancelled
    else
      || FlagSet(h, cancelled, Front(log))
      || (if Last(log).GotLine? then h.timer(log) else Last(log).did.cancels)
  }

  /** The last entry is a call that threw. */
  predicate JustThrew(log: seq<Entry>) {
    log != [] && !Last(log).GotLine? && Last(log).did.thrown.Some?
  }

  /** What goes wrong with a line before any callback is called. */
  function LineError(h: Handlers, line: string): Exn
    requires !h.decode(line).Event?
  {
    if h.decode(line).Undecodable? then DecodeFault(line)
    else if h.statusDecodes(line) then KubernetesException(line)
    else StatusFault(line)
  }

  /** How many handlers the last call, if it is an OnError, is already behind: the try block, then two catch blocks. */
  function Depth(h: Handlers, log: seq<Entry>): nat {
    if log == [] || !Last(log).ErrorCall? then 0
    else
      var before := Front(log);
      if EndsInLine(before) then
        if h.decode(Last(before).line).Null? && h.statusDecodes(Last(before).line) then 0 else 1
      else if JustThrew(before) then Depth(h, before) + 1
      else 2
  }

  function Error(h: Handlers, log: seq<Entry>, ex: Exn): Entry {
    ErrorCall(ex, h.onError(log, ex), true)
  }

  function Close(h: Handlers, log: seq<Entry>): Entry {
    ClosedCall(h.onClosed(log), false)
  }

  /** The entry that follows a log; none when the execution is over. */
  function NextEntry(h: Handlers, cancelled: bool, reader: Option<Script>, log: seq<Entry>): Option<Entry> {
    if log != [] && Last(log).ClosedCall? then None
    else if EndsInLine(log) then
      if FlagSet(h, cancelled, log) then Some(Close(h, log))
      else
        var line := Last(log).line;
        match h.decode(line)
        case Event(event) => Some(EventCall(event, h.onEvent(log, event), true))
        case _ => Some(Error(h, log, LineError(h, line)))
    else if JustThrew(log) && Depth(h, log) < 2 then Some(Error(h, log, Last(log).did.thrown.value))
    else if Depth(h, log) >= 2 then Some(Close(h, log))
    else if reader.None? then Some(Error(h, log, FactoryFault))
    else
      var taken := |Collect(log, LineOf)|;
      if taken < |reader.value.lines| then Some(GotLine(reader.value.lines[taken]))
      else if reader.value.broken then Some(Error(h, log, ReaderFault))
      else Some(Close(h, log))
  }

  /** Every entry is the one that follows the entries in front of it. */
  predicate Follows(h: Handlers, cancelled: bool, reader: Option<Script>, log: seq<Entry>) {
    forall i | 0 <= i < |log| :: NextEntry(h, cancelled, reader, log[..i]) == Some(log[i])
  }

  lemma {:induction false} FollowsAppend(h: Handlers, cancelled: bool, reader: Option<Script>, log: seq<Entry>,
                                         e: Entry)
    requires Follows(h, cancelled, reader, log) && NextEntry(h, cancelled, reader, log) == Some(e)
    ensures Follows(h, cancelled, reader, log + [e])
  {
    var after := log + [e];
    forall i | 0 <= i < |after|
      ensures NextEntry(h, cancelled, reader, after[..i]) == Some(after[i])
    {
      assert after[..i] == log[..i];
    }
  }

  lemma {:induction false} Appends(log: seq<Entry>, e: Entry)
    ensures log + [e] != [] && Front(log + [e]) == log && Last(log + [e]) == e
  {}

  /** The machine agrees with the log. */
  predicate Agrees(h: Handlers, cancelled: bool, reader: Option<Script>, p: Progress) {
    && Follows(h, cancelled, reader, p.log)
    && p.cancelled == FlagSet(h, cancelled, p.log)
    && p.watching
  }

  lemma {:induction false} RaiseAgrees(h: Handlers, cancelled: bool, reader: Option<Script>, p: Progress, e: Entry)
    requires Agrees(h, cancelled, reader, p) && NextEntry(h, cancelled, reader, p.log) == Some(e) && !e.GotLine?
    ensures Agrees(h, cancelled, reader, Raise(p, e).now)
  {
    FollowsAppend(h, cancelled, reader, p.log, e);
    Appends(p.log, e);
  }

  /** A call has just returned or thrown inside the loop, and its exception, if any, is on its way up. */
  predicate Called(h: Handlers, s: Step, depth: nat) {
    var log := s.now.log;
    && log != [] && !Last(log).GotLine? && !Last(log).ClosedCall?
    && Last(log).did.thrown == s.thrown && Depth(h, log) <= depth
  }

  lemma {:induction false} TryLineAgrees(h: Handlers, cancelled: bool, reader: Option<Script>, p: Progress,
                                         line: string)
    requires Agrees(h, cancelled, reader, p) && !p.cancelled
    requires EndsInLine(p.log) && Last(p.log).line == line
    requires h.decode(line).Event? || (h.decode(line).Null? && h.statusDecodes(line))
    ensures var s := TryLine(h, p, line);
            Agrees(h, cancelled, reader, s.now) && Called(h, s, 0)
  {
    var e := if h.decode(line).Event? then EventEntry(h, p, h.decode(line).event)
             else ErrorEntry(h, p, KubernetesException(line));
    RaiseAgrees(h, cancelled, reader, p, e);
    Appends(p.log, e);
  }

  /** The catch block around one line, for an exception of the line itself or of a call. */
  lemma {:induction false} CatchAgrees(h: Handlers, cancelled: bool, reader: Option<Script>, p: Progress, ex: Exn)
    requires Agrees(h, cancelled, reader, p)
    requires NextEntry(h, cancelled, reader, p.log) == Some(Error(h, p.log, ex))
    requires if JustThrew(p.log) then Depth(h, p.log) == 0
             else EndsInLine(p.log) && !(h.decode(Last(p.log).line).Null? && h.statusDecodes(Last(p.log).line))
    ensures var s := RaiseError(h, p, ex);
            Agrees(h, cancelled, reader, s.now) && Called(h, s, 1)
  {
    var e := Error(h, p.log, ex);
    assert e == ErrorEntry(h, p, ex);
    RaiseAgrees(h, cancelled, reader, p, e);
    Appends(p.log, e);
  }

  lemma {:induction false} HandleLineAgrees(h: Handlers, cancelled: bool, reader: Option<Script>, p: Progress,
                                            line: string)
    requires Agrees(h, cancelled, reader, p) && !p.cancelled
    requires EndsInLine(p.log) && Last(p.log).line == line
    ensures var s := HandleLine(h, p, line);
            Agrees(h, cancelled, reader, s.now) && Called(h, s, 1)
  {
    var tried := TryLine(h, p, line);
    if h.decode(line).Event? || (h.decode(line).Null? && h.statusDecodes(line)) {
      TryLineAgrees(h, cancelled, reader, p, line);
      if tried.thrown.Some? {
        CatchAgrees(h, cancelled, reader, tried.now, tried.thrown.value);
      }
    } else {
      CatchAgrees(h, cancelled, reader, p, LineError(h, line));
    }
  }

  /** Between two lines: nothing is on its way up. */
  predicate Idle(h: Handlers, log: seq<Entry>) {
    !EndsInLine(log) && !JustThrew(log) && Depth(h, log) < 2 && (log != [] ==> !Last(log).ClosedCall?)
  }

  lemma {:induction false} ReceiveAgrees(h: Handlers, cancelled: bool, reader: Option<Script>, p: Progress,
                                         script: Script)
    requires Agrees(h, cancelled, reader, p) && Idle(h, p.log) && script.lines != []
    requires reader.Some? && Collect(p.log, LineOf) + script.lines == reader.value.lines
    ensures var q := Receive(h, p, script.lines[0]);
            && Agrees(h, cancelled, reader, q) && EndsInLine(q.log) && Last(q.log).line == script.lines[0]
            && Collect(q.log, LineOf) + script.lines[1..] == reader.value.lines
  {
    var line := script.lines[0];
    var e := GotLine(line);
    assert reader.value.lines[|Collect(p.log, LineOf)|] == line;
    FollowsAppend(h, cancelled, reader, p.log, e);
    Appends(p.log, e);
    ReceiveAdds(h, p, line);
    Regroup(Collect(p.log, LineOf), line, script.lines[1..]);
    assert script.lines == [line] + script.lines[1..];
  }

  /** What the handlers around the loop are left to do: report an exception, or close. */
  predicate Leaves(h: Handlers, cancelled: bool, reader: Option<Script>, s: Step) {
    var log := s.now.log;
    && Agrees(h, cancelled, reader, s.now)
    && (s.thrown.None? ==> NextEntry(h, cancelled, reader, log) == Some(Close(h, log)))
    && (s.thrown.Some? ==>
          && NextEntry(h, cancelled, reader, log) == Some(Error(h, log, s.thrown.value))
          && !EndsInLine(log) && (JustThrew(log) ==> Depth(h, log) == 1))
  }

  lemma {:induction false} EndAgrees(h: Handlers, cancelled: bool, reader: Option<Script>, p: Progress, script: Script)
    requires Agrees(h, cancelled, reader, p) && Idle(h, p.log) && script.lines == []
    requires reader.Some? && Collect(p.log, LineOf) + script.lines == reader.value.lines
    requires script.broken == reader.value.broken
    ensures Leaves(h, cancelled, reader, Pump(h, p, script).0)
  {
    assert Collect(p.log, LineOf) + [] == Collect(p.log, LineOf);
  }

  /** After a line: either the exception of the second OnError is on its way up, or the loop goes on. */
  lemma {:induction false} AfterLine(h: Handlers, cancelled: bool, reader: Option<Script>, s: Step)
    requires Agrees(h, cancelled, reader, s.now) && Called(h, s, 1)
    requires s.thrown.Some? ==> Depth(h, s.now.log) == 1
    ensures s.thrown.Some? ==> Leaves(h, cancelled, reader, s)
    ensures s.thrown.None? ==> Idle(h, s.now.log)
  {}

  /** An exception that leaves the handling of a line was thrown in its catch block. */
  lemma {:induction false} EscapesAtOne(h: Handlers, p: Progress, line: string)
    requires EndsInLine(p.log) && Last(p.log).line == line
    ensures var s := HandleLine(h, p, line);
            s.thrown.Some? ==> s.now.log != [] && Depth(h, s.now.log) == 1
  {
    var tried := TryLine(h, p, line);
    if tried.thrown.Some? {
      Appends(tried.now.log, ErrorEntry(h, tried.now, tried.thrown.value));
      if tried.now != p {
        var e := if h.decode(line).Event? then EventEntry(h, p, h.decode(line).event)
                 else ErrorEntry(h, p, KubernetesException(line));
        Appends(p.log, e);
      }
    }
  }

  lemma {:induction false} PumpAgrees(h: Handlers, cancelled: bool, reader: Option<Script>, p: Progress, script: Script)
    requires Agrees(h, cancelled, reader, p) && Idle(h, p.log)
    requires reader.Some? && Collect(p.log, LineOf) + script.lines == reader.value.lines
    requires script.broken == reader.value.broken
    ensures Leaves(h, cancelled, reader, Pump(h, p, script).0)
    decreases |script.lines|
  {
    if script.lines == [] {
      EndAgrees(h, cancelled, reader, p, script);
    } else {
      var line, rest := script.lines[0], script.(lines := script.lines[1..]);
      var q := Receive(h, p, line);
      PumpUnfolds(h, p, script);
      ReceiveAgrees(h, cancelled, reader, p, script);
      if !q.cancelled {
        var s := HandleLine(h, q, line);
        HandleLineAgrees(h, cancelled, reader, q, line);
        HandleLineAdds(h, q, line);
        EscapesAtOne(h, q, line);
        AfterLine(h, cancelled, reader, s);
        if s.thrown.None? {
          PumpAgrees(h, cancelled, reader, s.now, rest);
        }
      }
    }
  }

  lemma {:induction false} FinishFollows(h: Handlers, cancelled: bool, reader: Option<Script>, pumped: Step)
    requires Leaves(h, cancelled, reader, pumped)
    ensures var log := Finish(h, pumped).now.log;
            Follows(h, cancelled, reader, log) && NextEntry(h, cancelled, reader, log).None?
  {
    var caught := Caught(h, pumped);
    if pumped.thrown.Some? {
      var e := Error(h, pumped.now.log, pumped.thrown.value);
      RaiseAgrees(h, cancelled, reader, pumped.now, e);
      Appends(pumped.now.log, e);
      assert Depth(h, caught.now.log) == 2;
    }
    FollowsAppend(h, cancelled, reader, caught.now.log, Close(h, caught.now.log));
    Appends(caught.now.log, Close(h, caught.now.log));
  }

  /**
   * Every execution, whatever stream and callbacks do: each entry is the one that must follow the
   * entries in front of it, with the line, event, exception and behaviour that it must have, and
   * the log stops where nothing follows.
   */
  lemma {:induction false} ExecutionFollows(h: Handlers, cancelled: bool, reader: Option<Script>)
    ensures var log := Execution(h, cancelled, reader).now.log;
            Follows(h, cancelled, reader, log) && NextEntry(h, cancelled, reader, log).None?
  {
    var start := Begun(cancelled);
    if reader.Some? {
      assert Collect(start.log, LineOf) + reader.value.lines == reader.value.lines;
      PumpAgrees(h, cancelled, reader, start, reader.value);
    }
    assert Leaves(h, cancelled, reader, Pumped(h, cancelled, reader));
    FinishFollows(h, cancelled, reader, Pumped(h, cancelled, reader));
    assert Execution(h, cancelled, reader) == Finish(h, Pumped(h, cancelled, reader));
  }

  /** Two logs that follow the same steps to their ends are the same, so the steps determine the execution. */
  lemma {:induction false} StepsDetermine(h: Handlers, cancelled: bool, reader: Option<Script>, log: seq<Entry>)
    requires Follows(h, cancelled, reader, log) && NextEntry(h, cancelled, reader, log).None?
    ensures log == Execution(h, cancelled, reader).now.log
  {
    ExecutionFollows(h, cancelled, reader);
    var other := Execution(h, cancelled, reader).now.log;
    SamePrefix(h, cancelled, reader, log, other, if |log| <= |other| then |log| else |other|);
    assert log[..|log|] == log && other[..|other|] == other;
  }

  lemma {:induction false} TakeOneMore(log: seq<Entry>, n: nat)
    requires 0 < n <= |log|
    ensures log[..n] == log[..n - 1] + [log[n - 1]]
  {}

  lemma {:induction false} SamePrefix(h: Handlers, cancelled: bool, reader: Option<Script>,
                                      a: seq<Entry>, b: seq<Entry>, n: nat)
    requires Follows(h, cancelled, reader, a) && Follows(h, cancelled, reader, b) && n <= |a| && n <= |b|
    ensures a[..n] == b[..n]
  {
    if n > 0 {
      SamePrefix(h, cancelled, reader, a, b, n - 1);
      assert Some(a[n - 1]) == NextEntry(h, cancelled, reader, a[..n - 1]);
      assert Some(b[n - 1]) == NextEntry(h, cancelled, reader, b[..n - 1]);
      TakeOneMore(a, n);
      TakeOneMore(b, n);
    }
  }

  /**
   * The exception of every OnError: behind a line it is what is wrong with that line, behind a
   * call it is exactly what that call threw, and otherwise the factory or the reader failed.
   */
  lemma {:induction false} ErrorsAreExplained(h: Handlers, cancelled: bool, reader: Option<Script>, i: nat)
    requires i < |Execution(h, cancelled, reader).now.log| && Execution(h, cancelled, reader).now.log[i].ErrorCall?
    ensures var log := Execution(h, cancelled, reader).now.log;
            var ex := log[i].ex;
            if i > 0 && log[i - 1].GotLine? then
              var line := log[i - 1].line;
              match h.decode(line)
              case Undecodable => ex == DecodeFault(line)
              case Null => ex == if h.statusDecodes(line) then KubernetesException(line) else StatusFault(line)
              case Event(_) => false
            else if i > 0 && log[i - 1].did.thrown.Some? then ex == log[i - 1].did.thrown.value
            else if reader.None? then i == 0 && ex == FactoryFault
            else ex == ReaderFault && reader.value.broken && Collect(log[..i], LineOf) == reader.value.lines
  {
    var log := Execution(h, cancelled, reader).now.log;
    ExecutionFollows(h, cancelled, reader);
    assert NextEntry(h, cancelled, reader, log[..i]) == Some(log[i]);
    if i > 0 {
      assert Last(log[..i]) == log[i - 1];
    }
    if reader.Some? {
      TakenIsPrefix(h, cancelled, reader.value, i);
    } else if i > 0 {
      FactoryComesFirst(h, cancelled, log, i);
    }
  }

  lemma {:induction false} TakenIsPrefix(h: Handlers, cancelled: bool, script: Script, i: nat)
    requires i <= |Execution(h, cancelled, Some(script)).now.log|
    ensures Collect(Execution(h, cancelled, Some(script)).now.log[..i], LineOf) <= script.lines
  {
    var log := Execution(h, cancelled, Some(script)).now.log;
    LinesConserved(h, cancelled, script);
    CollectConcat(log[..i], log[i..], LineOf);
    assert log == log[..i] + log[i..];
  }

  /** Without a reader the log is one OnError and the close. */
  lemma {:induction false} FactoryComesFirst(h: Handlers, cancelled: bool, log: seq<Entry>, i: nat)
    requires Follows(h, cancelled, None, log) && 0 < i < |log|
    ensures log[i].ClosedCall?
  {
    assert log[..0] == [];
    assert Some(log[0]) == NextEntry(h, cancelled, None, log[..0]);
    assert Some(log[1]) == NextEntry(h, cancelled, None, log[..1]);
    assert log[..1] == [log[0]] && Front([log[0]]) == [];
    assert Last(log[..2]) == log[1];
  }
}
