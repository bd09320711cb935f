/** What holds of every execution of a watch, whatever the stream and the callbacks do. */
module WatchLaws {
  import opened Basics
  import opened TextLines
  import opened Watch

  function LineOf(e: Entry): Option<string> {
    if e.GotLine? then Some(e.line) else None
  }

  function EventOf(e: Entry): Option<WatchEvent> {
    if e.EventCall? then Some(e.event) else None
  }

  function ReturnedEventOf(e: Entry): Option<WatchEvent> {
    if e.EventCall? && e.did.thrown.None? then Some(e.event) else None
  }

  function ErrorOf(e: Entry): Option<Exn> {
    if e.ErrorCall? then Some(e.ex) else None
  }

  function ClosedOf(e: Entry): Option<Behaviour> {
    if e.ClosedCall? then Some(e.did) else None
  }

  /** One entry more in each of the projections. */
  lemma {:induction false} Appended(log: seq<Entry>, e: Entry)
    ensures Collect(log + [e], LineOf) == Collect(log, LineOf) + One(LineOf(e))
    ensures Collect(log + [e], EventOf) == Collect(log, EventOf) + One(EventOf(e))
    ensures Collect(log + [e], ReturnedEventOf) == Collect(log, ReturnedEventOf) + One(ReturnedEventOf(e))
    ensures Collect(log + [e], ErrorOf) == Collect(log, ErrorOf) + One(ErrorOf(e))
    ensures Collect(log + [e], ClosedOf) == Collect(log, ClosedOf) + One(ClosedOf(e))
  {
    CollectAppend(log, e, LineOf);
    CollectAppend(log, e, EventOf);
    CollectAppend(log, e, ReturnedEventOf);
    CollectAppend(log, e, ErrorOf);
    CollectAppend(log, e, ClosedOf);
  }

  function Raised(log: seq<Entry>): nat {
    |Collect(log, ErrorOf)|
  }

  /** The last call was an OnError that threw. */
  predicate ErrorEscaped(log: seq<Entry>) {
    log != [] && log[|log| - 1].ErrorCall? && log[|log| - 1].did.thrown.Some?
  }

  function LastThrown(log: seq<Entry>): Option<Exn> {
    if log != [] && !log[|log| - 1].GotLine? then log[|log| - 1].did.thrown else None
  }

  // ---- One line ----

  /** Equal but for error calls. */
  predicate SameButErrors(a: seq<Entry>, b: seq<Entry>) {
    && Collect(a, LineOf) == Collect(b, LineOf)
    && Collect(a, EventOf) == Collect(b, EventOf)
    && Collect(a, ReturnedEventOf) == Collect(b, ReturnedEventOf)
    && Collect(a, ClosedOf) == Collect(b, ClosedOf)
  }

  lemma {:induction false} RaiseErrorAdds(h: Handlers, p: Progress, ex: Exn)
    ensures var s := RaiseError(h, p, ex);
            && SameButErrors(s.now.log, p.log)
            && Raised(s.now.log) == Raised(p.log) + 1
            && s.now.log != [] && s.now.log[|s.now.log| - 1].ErrorCall?
            && LastThrown(s.now.log) == s.thrown && ErrorEscaped(s.now.log) == s.thrown.Some?
  {
    Appended(p.log, ErrorEntry(h, p, ex));
  }

  lemma {:induction false} RaiseEventAdds(h: Handlers, p: Progress, e: WatchEvent)
    ensures var s := RaiseEvent(h, p, e);
            && Collect(s.now.log, LineOf) == Collect(p.log, LineOf)
            && Collect(s.now.log, ClosedOf) == Collect(p.log, ClosedOf)
            && Collect(s.now.log, EventOf) == Collect(p.log, EventOf) + [e]
            && Collect(s.now.log, ReturnedEventOf)
               == Collect(p.log, ReturnedEventOf) + (if s.thrown.None? then [e] else [])
            && Raised(s.now.log) == Raised(p.log)
            && s.now.log != [] && s.now.log[|s.now.log| - 1].EventCall?
  {
    Appended(p.log, EventEntry(h, p, e));
  }

  /** What the try block adds: the event if there is one, or the error for null, never a line or a close. */
  lemma {:induction false} TryLineAdds(h: Handlers, p: Progress, line: string)
    ensures var s := TryLine(h, p, line);
            && Collect(s.now.log, LineOf) == Collect(p.log, LineOf)
            && Collect(s.now.log, ClosedOf) == Collect(p.log, ClosedOf)
            && Collect(s.now.log, EventOf) == Collect(p.log, EventOf) + One(EventIn(h, line))
            && (s.thrown.None? ==> s.now.log != [] && !s.now.log[|s.now.log| - 1].GotLine? && !ErrorEscaped(s.now.log))
  {
    match h.decode(line)
    case Undecodable =>
    case Event(e) => RaiseEventAdds(h, p, e);
    case Null => RaiseErrorAdds(h, p, KubernetesException(line));
  }

  /** What handling a line adds: an exception escapes only when the last call is an OnError that threw it. */
  lemma {:induction false} HandleLineAdds(h: Handlers, p: Progress, line: string)
    ensures var s := HandleLine(h, p, line);
            && Collect(s.now.log, LineOf) == Collect(p.log, LineOf)
            && Collect(s.now.log, ClosedOf) == Collect(p.log, ClosedOf)
            && Collect(s.now.log, EventOf) == Collect(p.log, EventOf) + One(EventIn(h, line))
            && s.now.log != [] && !s.now.log[|s.now.log| - 1].GotLine?
            && ErrorEscaped(s.now.log) == s.thrown.Some?
            && (s.thrown.Some? ==> s.thrown == LastThrown(s.now.log))
  {
    TryLineAdds(h, p, line);
    var tried := TryLine(h, p, line);
    if tried.thrown.Some? {
      RaiseErrorAdds(h, tried.now, tried.thrown.value);
    }
  }

  function EventIn(h: Handlers, line: string): Option<WatchEvent> {
    match h.decode(line)
    case Event(e) => Some(e)
    case _ => None
  }

  // ---- The loop: no line lost, no line twice ----

  /** The loop, one line at a time. */
  lemma {:induction false} PumpUnfolds(h: Handlers, p: Progress, script: Script)
    requires script.lines != []
    ensures var line, rest := script.lines[0], script.(lines := script.lines[1..]);
            var q := Receive(h, p, line);
            var handled := HandleLine(h, q, line);
            Pump(h, p, script) ==
              if q.cancelled then (Step(q, None), rest)
              else if handled.thrown.Some? then (handled, rest)
              else Pump(h, handled.now, rest)
  {}

  lemma {:induction false} Regroup<T>(a: seq<T>, x: T, b: seq<T>)
    ensures (a + [x]) + b == a + ([x] + b)
  {}

  lemma {:induction false} ReceiveAdds(h: Handlers, p: Progress, line: string)
    ensures var q := Receive(h, p, line);
            && Collect(q.log, LineOf) == Collect(p.log, LineOf) + [line]
            && Collect(q.log, EventOf) == Collect(p.log, EventOf)
            && Collect(q.log, ReturnedEventOf) == Collect(p.log, ReturnedEventOf)
            && Collect(q.log, ClosedOf) == Collect(p.log, ClosedOf)
            && Raised(q.log) == Raised(p.log) && !ErrorEscaped(q.log)
  {
    Appended(p.log, GotLine(line));
  }

  /** Lines received so far and lines still in the reader always make up the lines of the stream. */
  lemma {:induction false} PumpConservesLines(h: Handlers, p: Progress, script: Script)
    ensures var (s, left) := Pump(h, p, script);
            && Collect(s.now.log, LineOf) + left.lines == Collect(p.log, LineOf) + script.lines
            && left.broken == script.broken
            && (s.thrown.None? && !s.now.cancelled ==> left.lines == [] && !script.broken)
    decreases |script.lines|
  {
    if script.lines != [] {
      var line, rest := script.lines[0], script.(lines := script.lines[1..]);
      var q := Receive(h, p, line);
      var handled := HandleLine(h, q, line);
      PumpUnfolds(h, p, script);
      ReceiveAdds(h, p, line);
      Regroup(Collect(p.log, LineOf), line, rest.lines);
      assert script.lines == [line] + rest.lines;
      HandleLineAdds(h, q, line);
      if !q.cancelled && handled.thrown.None? {
        PumpConservesLines(h, handled.now, rest);
      }
    }
  }

  /** How a log of the loop ends: an exception that escapes is the one OnError just threw, or the reader's. */
  lemma {:induction false} PumpEnds(h: Handlers, p: Progress, script: Script)
    requires !ErrorEscaped(p.log)
    ensures var s := Pump(h, p, script).0;
            && Collect(s.now.log, ClosedOf) == Collect(p.log, ClosedOf)
            && (s.thrown.None? ==> !ErrorEscaped(s.now.log))
    decreases |script.lines|
  {
    if script.lines != [] {
      var line, rest := script.lines[0], script.(lines := script.lines[1..]);
      var q := Receive(h, p, line);
      var handled := HandleLine(h, q, line);
      PumpUnfolds(h, p, script);
      ReceiveAdds(h, p, line);
      HandleLineAdds(h, q, line);
      if !q.cancelled && handled.thrown.None? {
        PumpEnds(h, handled.now, rest);
      }
    }
  }

  // ---- Whole executions ----

  function Pumped(h: Handlers, cancelled: bool, reader: Option<Script>): Step {
    var start := Begun(cancelled);
    if reader.Some? then Pump(h, start, reader.value).0 else Step(start, Some(FactoryFault))
  }

  /** The lines the execution took are a prefix of the stream, and the reader still holds exactly the others. */
  lemma {:induction false} LinesConserved(h: Handlers, cancelled: bool, script: Script)
    ensures var run := Execution(h, cancelled, Some(script));
            var left := Pump(h, Begun(cancelled), script).1;
            Collect(run.now.log, LineOf) + left.lines == script.lines
  {
    PumpConservesLines(h, Begun(cancelled), script);
    FinishAdds(h, Pumped(h, cancelled, Some(script)));
  }

  lemma {:induction false} RaiseClosedAdds(h: Handlers, p: Progress)
    ensures var s := RaiseClosed(h, p);
            && Collect(s.now.log, LineOf) == Collect(p.log, LineOf)
            && Collect(s.now.log, EventOf) == Collect(p.log, EventOf)
            && Collect(s.now.log, ReturnedEventOf) == Collect(p.log, ReturnedEventOf)
            && Raised(s.now.log) == Raised(p.log)
            && |Collect(s.now.log, ClosedOf)| == |Collect(p.log, ClosedOf)| + 1
  {
    Appended(p.log, ClosedEntry(h, p));
  }

  lemma {:induction false} FinishAdds(h: Handlers, pumped: Step)
    ensures var run := Finish(h, pumped);
            && Collect(run.now.log, LineOf) == Collect(pumped.now.log, LineOf)
            && Collect(run.now.log, EventOf) == Collect(pumped.now.log, EventOf)
            && Collect(run.now.log, ReturnedEventOf) == Collect(pumped.now.log, ReturnedEventOf)
            && Raised(run.now.log) == Raised(pumped.now.log) + (if pumped.thrown.Some? then 1 else 0)
            && |Collect(run.now.log, ClosedOf)| == |Collect(pumped.now.log, ClosedOf)| + 1
  {
    if pumped.thrown.Some? {
      RaiseErrorAdds(h, pumped.now, pumped.thrown.value);
    }
    RaiseClosedAdds(h, Caught(h, pumped).now.(watching := false));
  }

  /** OnClosed is raised exactly once, as the very last call. */
  lemma {:induction false} ClosedExactlyOnce(h: Handlers, cancelled: bool, reader: Option<Script>)
    ensures var log := Execution(h, cancelled, reader).now.log;
            |Collect(log, ClosedOf)| == 1 && log[|log| - 1].ClosedCall?
  {
    if reader.Some? {
      PumpEnds(h, Begun(cancelled), reader.value);
    }
    FinishAdds(h, Pumped(h, cancelled, reader));
    assert Execution(h, cancelled, reader) == Finish(h, Pumped(h, cancelled, reader));
  }

  /**
   * The task fails exactly when OnClosed threw, or the call just before it was an OnError that
   * threw; and it fails with that exception, the one of OnClosed first.
   */
  lemma {:induction false} FailsOnlyByCallbacks(h: Handlers, cancelled: bool, reader: Option<Script>)
    ensures var run := Execution(h, cancelled, reader);
            var before := run.now.log[..|run.now.log| - 1];
            run.thrown == if LastThrown(run.now.log).Some? then LastThrown(run.now.log)
                          else if ErrorEscaped(before) then LastThrown(before) else None
  {
    if reader.Some? {
      PumpEnds(h, Begun(cancelled), reader.value);
    }
    FinishFails(h, Pumped(h, cancelled, reader));
  }

  lemma {:induction false} FinishFails(h: Handlers, pumped: Step)
    requires pumped.thrown.None? ==> !ErrorEscaped(pumped.now.log)
    ensures var run := Finish(h, pumped);
            var before := run.now.log[..|run.now.log| - 1];
            run.thrown == if LastThrown(run.now.log).Some? then LastThrown(run.now.log)
                          else if ErrorEscaped(before) then LastThrown(before) else None
  {
    if pumped.thrown.Some? {
      RaiseErrorAdds(h, pumped.now, pumped.thrown.value);
    }
    var caught := Caught(h, pumped);
    WithoutLast(caught.now.log, ClosedEntry(h, caught.now.(watching := false)));
  }

  // ---- Which lines are processed ----

  predicate EndsInLine(log: seq<Entry>) {
    log != [] && log[|log| - 1].GotLine?
  }

  /** The lines received, without the last one when the flag was found set after it. */
  function Processed(log: seq<Entry>): seq<string> {
    var lines := Collect(log, LineOf);
    if EndsInLine(log) && lines != [] then lines[..|lines| - 1] else lines
  }

  function EventsIn(h: Handlers): string -> Option<WatchEvent> {
    line => EventIn(h, line)
  }

  lemma {:induction false} ReceivedIsNotProcessed(h: Handlers, p: Progress, line: string)
    ensures var q := Receive(h, p, line);
            EndsInLine(q.log) && Processed(q.log) == Collect(p.log, LineOf)
  {
    ReceiveAdds(h, p, line);
    WithoutLast(Collect(p.log, LineOf), line);
  }

  lemma {:induction false} HandledIsProcessed(h: Handlers, p: Progress, line: string)
    ensures var log := HandleLine(h, Receive(h, p, line), line).now.log;
            !EndsInLine(log) && Processed(log) == Collect(p.log, LineOf) + [line]
  {
    ReceiveAdds(h, p, line);
    HandleLineAdds(h, Receive(h, p, line), line);
  }

  lemma {:induction false} WithoutLast<T>(a: seq<T>, x: T)
    ensures var s := a + [x]; s != [] && s[..|s| - 1] == a
  {}

  lemma {:induction false} PumpRaisesDecoded(h: Handlers, p: Progress, script: Script)
    requires !EndsInLine(p.log)
    requires Collect(p.log, EventOf) == Collect(Processed(p.log), EventsIn(h))
    ensures var log := Pump(h, p, script).0.now.log;
            Collect(log, EventOf) == Collect(Processed(log), EventsIn(h))
    decreases |script.lines|
  {
    if script.lines != [] {
      var line, rest := script.lines[0], script.(lines := script.lines[1..]);
      var q := Receive(h, p, line);
      var handled := HandleLine(h, q, line);
      PumpUnfolds(h, p, script);
      ReceiveAdds(h, p, line);
      HandleLineAdds(h, q, line);
      ReceivedIsNotProcessed(h, p, line);
      HandledIsProcessed(h, p, line);
      CollectAppend(Collect(p.log, LineOf), line, EventsIn(h));
      if !q.cancelled && handled.thrown.None? {
        PumpRaisesDecoded(h, handled.now, rest);
      }
    }
  }

  /** The calls of an execution without the closing one. */
  function BeforeClose(h: Handlers, cancelled: bool, reader: Option<Script>): seq<Entry> {
    var log := Execution(h, cancelled, reader).now.log;
    if log == [] then [] else log[..|log| - 1]
  }

  lemma {:induction false} BeforeCloseIs(h: Handlers, cancelled: bool, reader: Option<Script>)
    ensures var pumped := Pumped(h, cancelled, reader);
            BeforeClose(h, cancelled, reader) == Caught(h, pumped).now.log
  {
    var pumped := Pumped(h, cancelled, reader);
    var caught := Caught(h, pumped);
    assert Execution(h, cancelled, reader) == Finish(h, pumped);
    assert Finish(h, pumped).now.log == caught.now.log + [ClosedEntry(h, caught.now.(watching := false))];
  }

  lemma {:induction false} PumpThrowsSettled(h: Handlers, p: Progress, script: Script)
    requires !EndsInLine(p.log)
    ensures var s := Pump(h, p, script).0;
            s.thrown.Some? ==> !EndsInLine(s.now.log)
    decreases |script.lines|
  {
    if script.lines != [] {
      var line := script.lines[0];
      PumpUnfolds(h, p, script);
      HandledIsProcessed(h, p, line);
      PumpThrowsSettled(h, HandleLine(h, Receive(h, p, line), line).now, script.(lines := script.lines[1..]));
    }
  }

  /**
   * OnEvent is called for exactly the events that the processed lines decode to, in stream
   * order; and a line is received but not processed only as the last call before OnClosed,
   * when the cancellation flag was found set.
   */
  lemma {:induction false} EventsAreDecoded(h: Handlers, cancelled: bool, script: Script)
    ensures var before := BeforeClose(h, cancelled, Some(script));
            Collect(before, EventOf) == Collect(Processed(before), EventsIn(h))
    ensures Processed(BeforeClose(h, cancelled, Some(script))) <= script.lines
  {
    var start := Begun(cancelled);
    PumpRaisesDecoded(h, start, script);
    PumpConservesLines(h, start, script);
    PumpThrowsSettled(h, start, script);
    BeforeCloseIs(h, cancelled, Some(script));
    CaughtProcesses(h, Pumped(h, cancelled, Some(script)));
    ProcessedIsPrefix(Pumped(h, cancelled, Some(script)).now.log, Pump(h, start, script).1.lines);
  }

  lemma {:induction false} CaughtProcesses(h: Handlers, pumped: Step)
    requires pumped.thrown.Some? ==> !EndsInLine(pumped.now.log)
    ensures var log := Caught(h, pumped).now.log;
            Processed(log) == Processed(pumped.now.log) && Collect(log, EventOf) == Collect(pumped.now.log, EventOf)
  {
    if pumped.thrown.Some? {
      RaiseErrorAdds(h, pumped.now, pumped.thrown.value);
    }
  }

  lemma {:induction false} ProcessedIsPrefix(log: seq<Entry>, left: seq<string>)
    ensures Processed(log) <= Collect(log, LineOf) + left
  {
    var lines := Collect(log, LineOf);
    if lines != [] {
      assert lines[..|lines| - 1] <= lines + left;
    }
  }

  // ---- An OnError that never throws ----

  ghost predicate NeverThrows(h: Handlers) {
    forall log, ex :: h.onError(log, ex).thrown.None?
  }

  function Answered(log: seq<Entry>): nat {
    |Collect(log, ReturnedEventOf)| + Raised(log)
  }

  lemma {:induction false} QuietError(h: Handlers, p: Progress, ex: Exn)
    requires NeverThrows(h)
    ensures var s := RaiseError(h, p, ex);
            s.thrown.None? && Answered(s.now.log) == Answered(p.log) + 1
  {
    RaiseErrorAdds(h, p, ex);
    assert h.onError(p.log, ex).thrown.None?;
  }

  lemma {:induction false} HandledOnce(h: Handlers, p: Progress, line: string)
    requires NeverThrows(h)
    ensures var s := HandleLine(h, p, line);
            s.thrown.None? && Answered(s.now.log) == Answered(p.log) + 1
  {
    match h.decode(line)
    case Undecodable => QuietError(h, p, DecodeFault(line));
    case Event(e) =>
      RaiseEventAdds(h, p, e);
      var raised := RaiseEvent(h, p, e);
      if raised.thrown.Some? {
        QuietError(h, raised.now, raised.thrown.value);
      }
    case Null =>
      QuietError(h, p, KubernetesException(line));
      QuietError(h, p, StatusFault(line));
  }

  lemma {:induction false} PumpAnswersEach(h: Handlers, p: Progress, script: Script)
    requires NeverThrows(h) && !EndsInLine(p.log)
    requires Answered(p.log) == |Processed(p.log)|
    ensures var (s, left) := Pump(h, p, script);
            && Answered(s.now.log) == |Processed(s.now.log)|
            && (s.thrown.Some? <==> script.broken && left.lines == [] && !EndsInLine(s.now.log))
    decreases |script.lines|
  {
    if script.lines != [] {
      var line, rest := script.lines[0], script.(lines := script.lines[1..]);
      var q := Receive(h, p, line);
      PumpUnfolds(h, p, script);
      ReceiveAdds(h, p, line);
      ReceivedIsNotProcessed(h, p, line);
      HandledIsProcessed(h, p, line);
      HandledOnce(h, q, line);
      if !q.cancelled {
        PumpAnswersEach(h, HandleLine(h, q, line).now, rest);
      }
    }
  }

  /**
   * When OnError never throws, every processed line is answered once, by an OnEvent that
   * returns or by one OnError; a reader that fails adds one more OnError, and nothing else does.
   */
  lemma {:induction false} LineAccounting(h: Handlers, cancelled: bool, script: Script)
    requires NeverThrows(h)
    ensures var pumped, left := Pumped(h, cancelled, Some(script)), Pump(h, Begun(cancelled), script).1;
            var readerFailed := script.broken && left.lines == [] && !EndsInLine(pumped.now.log);
            && Answered(Execution(h, cancelled, Some(script)).now.log)
            == |Processed(pumped.now.log)| + (if readerFailed then 1 else 0)
            && (!readerFailed ==> BeforeClose(h, cancelled, Some(script)) == pumped.now.log)
  {
    PumpAnswersEach(h, Begun(cancelled), script);
    FinishAdds(h, Pumped(h, cancelled, Some(script)));
    BeforeCloseIs(h, cancelled, Some(script));
  }

  // ---- An OnError that always throws ----

  ghost predicate AlwaysThrows(h: Handlers) {
    forall log, ex :: h.onError(log, ex).thrown.Some?
  }

  /** The first thing that goes wrong, found by raising events only. */
  datatype Fault = NoFault | ReaderTrouble | LineTrouble | NullTrouble

  function LineFault(h: Handlers, p: Progress, line: string): (f: Fault)
    ensures f.NoFault? ==> h.decode(line).Event?
  {
    match h.decode(line)
    case Undecodable => LineTrouble
    case Null => if h.statusDecodes(line) then NullTrouble else LineTrouble
    case Event(e) => if h.onEvent(p.log, e).thrown.Some? then LineTrouble else NoFault
  }

  function FirstFault(h: Handlers, p: Progress, script: Script): Fault
    decreases |script.lines|
  {
    if script.lines == [] then (if script.broken then ReaderTrouble else NoFault)
    else
      var line, rest := script.lines[0], script.(lines := script.lines[1..]);
      var q := Receive(h, p, line);
      if q.cancelled then NoFault
      else if LineFault(h, q, line) != NoFault then LineFault(h, q, line)
      else FirstFault(h, RaiseEvent(h, q, h.decode(line).event).now, rest)
  }

  function ErrorCalls(f: Fault): nat {
    match f
    case NoFault => 0
    case ReaderTrouble => 1
    case LineTrouble => 2
    case NullTrouble => 3
  }

  lemma {:induction false} NullThrowing(h: Handlers, p: Progress, line: string)
    requires AlwaysThrows(h) && h.decode(line).Null?
    ensures var s := HandleLine(h, p, line);
            s.thrown.Some? && Raised(s.now.log) == Raised(p.log) + (if h.statusDecodes(line) then 2 else 1)
  {
    if h.statusDecodes(line) {
      var first := RaiseError(h, p, KubernetesException(line));
      RaiseErrorAdds(h, p, KubernetesException(line));
      RaiseErrorAdds(h, first.now, first.thrown.value);
    } else {
      RaiseErrorAdds(h, p, StatusFault(line));
    }
  }

  /** One line: the last of the error calls comes from the outer handler. */
  lemma {:induction false} LineThrowing(h: Handlers, p: Progress, line: string)
    requires AlwaysThrows(h)
    ensures var s, f := HandleLine(h, p, line), LineFault(h, p, line);
            && (f == NoFault ==> s == RaiseEvent(h, p, h.decode(line).event) && s.thrown.None?)
            && (f != NoFault ==> s.thrown.Some?)
            && Raised(s.now.log) + (if f == NoFault then 0 else 1) == Raised(p.log) + ErrorCalls(f)
  {
    match h.decode(line)
    case Undecodable => RaiseErrorAdds(h, p, DecodeFault(line));
    case Null => NullThrowing(h, p, line);
    case Event(e) =>
      var raised := RaiseEvent(h, p, e);
      RaiseEventAdds(h, p, e);
      if raised.thrown.Some? {
        RaiseErrorAdds(h, raised.now, raised.thrown.value);
      }
  }

  lemma {:induction false} PumpThrowing(h: Handlers, p: Progress, script: Script)
    requires AlwaysThrows(h)
    ensures var s, f := Pump(h, p, script).0, FirstFault(h, p, script);
            && (s.thrown.Some? <==> f != NoFault)
            && Raised(s.now.log) + (if s.thrown.Some? then 1 else 0) == Raised(p.log) + ErrorCalls(f)
    decreases |script.lines|
  {
    if script.lines != [] {
      var line, rest := script.lines[0], script.(lines := script.lines[1..]);
      var q := Receive(h, p, line);
      PumpUnfolds(h, p, script);
      ReceiveAdds(h, p, line);
      LineThrowing(h, q, line);
      if !q.cancelled && LineFault(h, q, line).NoFault? {
        PumpThrowing(h, HandleLine(h, q, line).now, rest);
      }
    }
  }

  /**
   * An OnError that always throws ends the execution at the first fault: it is called once for
   * a factory or reader failure, twice for an undecodable line or a throwing OnEvent, three
   * times for a null event.
   */
  lemma {:induction false} ThrowingOnErrorCounts(h: Handlers, cancelled: bool, reader: Option<Script>)
    requires AlwaysThrows(h)
    ensures Raised(Execution(h, cancelled, reader).now.log)
         == if reader.None? then 1 else ErrorCalls(FirstFault(h, Begun(cancelled), reader.value))
  {
    if reader.Some? {
      PumpThrowing(h, Begun(cancelled), reader.value);
    }
    FinishAdds(h, Pumped(h, cancelled, reader));
  }

  // ---- Undisturbed executions ----

  ghost predicate NeverCancels(h: Handlers) {
    && (forall log :: !h.timer(log))
    && (forall log, e :: !h.onEvent(log, e).cancels)
    && (forall log, ex :: !h.onError(log, ex).cancels)
  }

  lemma {:induction false} LineUndisturbed(h: Handlers, p: Progress, line: string)
    requires NeverCancels(h) && !p.cancelled
    ensures var q := Receive(h, p, line);
            !q.cancelled && !HandleLine(h, q, line).now.cancelled
  {}

  lemma {:induction false} PumpUndisturbed(h: Handlers, p: Progress, script: Script)
    requires NeverThrows(h) && NeverCancels(h) && !p.cancelled && !EndsInLine(p.log)
    ensures var (s, left) := Pump(h, p, script);
            !s.now.cancelled && left.lines == [] && !EndsInLine(s.now.log)
    decreases |script.lines|
  {
    if script.lines != [] {
      var line, rest := script.lines[0], script.(lines := script.lines[1..]);
      var q := Receive(h, p, line);
      PumpUnfolds(h, p, script);
      HandledIsProcessed(h, p, line);
      HandledOnce(h, q, line);
      LineUndisturbed(h, p, line);
      PumpUndisturbed(h, HandleLine(h, q, line).now, rest);
    }
  }

  /** With nothing cancelling, every line of the stream is processed, whatever goes wrong with other lines. */
  lemma {:induction false} UndisturbedProcessesAll(h: Handlers, script: Script)
    requires NeverThrows(h) && NeverCancels(h)
    ensures var log := Execution(h, false, Some(script)).now.log;
            && Collect(log, LineOf) == script.lines
            && Collect(log, EventOf) == Collect(script.lines, EventsIn(h))
  {
    var start := Begun(false);
    PumpUndisturbed(h, start, script);
    LinesConserved(h, false, script);
    PumpRaisesDecoded(h, start, script);
    FinishAdds(h, Pumped(h, false, Some(script)));
    PumpConservesLines(h, start, script);
  }

  // ---- Cancellation ----

  predicate Cancels(e: Entry) {
    !e.GotLine? && e.did.cancels
  }

  predicate Quiet(log: seq<Entry>) {
    forall i | 0 <= i < |log| :: !Cancels(log[i])
  }

  function LinesAfter(log: seq<Entry>, i: nat): nat
    requires i < |log|
  {
    |Collect(log[i + 1..], LineOf)|
  }

  /** After any call that cancels, at most `n` more lines are received. */
  predicate StopsWithin(log: seq<Entry>, n: nat) {
    forall i | 0 <= i < |log| && Cancels(log[i]) :: LinesAfter(log, i) <= n
  }

  lemma {:induction false} LinesAfterAppend(log: seq<Entry>, e: Entry, i: nat)
    requires i < |log|
    ensures LinesAfter(log + [e], i) == LinesAfter(log, i) + (if e.GotLine? then 1 else 0)
  {
    assert (log + [e])[i + 1..] == log[i + 1..] + [e];
    CollectAppend(log[i + 1..], e, LineOf);
  }

  lemma {:induction false} StopsAppend(log: seq<Entry>, e: Entry, n: nat)
    requires StopsWithin(log, n)
    ensures StopsWithin(log + [e], n + (if e.GotLine? then 1 else 0))
  {
    var after := log + [e];
    forall i | 0 <= i < |after| && Cancels(after[i])
      ensures LinesAfter(after, i) <= n + (if e.GotLine? then 1 else 0)
    {
      if i < |log| {
        LinesAfterAppend(log, e, i);
      } else {
        assert after[i + 1..] == [];
      }
    }
  }

  /** At a loop head: nothing was received after a cancelling call, and the flag tells whether there was one. */
  predicate Tidy(p: Progress) {
    StopsWithin(p.log, 0) && (!p.cancelled ==> Quiet(p.log))
  }

  lemma {:induction false} RaiseTidy(p: Progress, e: Entry)
    requires Tidy(p) && !e.GotLine?
    ensures Tidy(Raise(p, e).now)
  {
    StopsAppend(p.log, e, 0);
  }

  lemma {:induction false} HandleLineTidy(h: Handlers, p: Progress, line: string)
    requires Tidy(p)
    ensures Tidy(HandleLine(h, p, line).now)
  {
    var tried := TryLine(h, p, line);
    if h.decode(line).Event? {
      RaiseTidy(p, EventEntry(h, p, h.decode(line).event));
    } else if h.decode(line).Null? {
      RaiseTidy(p, ErrorEntry(h, p, KubernetesException(line)));
    }
    if tried.thrown.Some? {
      RaiseTidy(tried.now, ErrorEntry(h, tried.now, tried.thrown.value));
    }
  }

  lemma {:induction false} PumpStops(h: Handlers, p: Progress, script: Script)
    requires Tidy(p)
    ensures StopsWithin(Pump(h, p, script).0.now.log, 1)
    decreases |script.lines|
  {
    if script.lines != [] {
      var line := script.lines[0];
      var q := Receive(h, p, line);
      PumpUnfolds(h, p, script);
      StopsAppend(p.log, GotLine(line), 0);
      if !q.cancelled {
        assert Tidy(q);
        HandleLineTidy(h, q, line);
        PumpStops(h, HandleLine(h, q, line).now, script.(lines := script.lines[1..]));
      }
    }
  }

  /** After the first callback that cancels, at most one more line is taken from the reader. */
  lemma {:induction false} AtMostOneLineAfterCancel(h: Handlers, cancelled: bool, reader: Option<Script>)
    ensures StopsWithin(Execution(h, cancelled, reader).now.log, 1)
  {
    if reader.Some? {
      PumpStops(h, Begun(cancelled), reader.value);
    }
    var pumped := Pumped(h, cancelled, reader);
    var before := BeforeClose(h, cancelled, reader);
    BeforeCloseIs(h, cancelled, reader);
    if pumped.thrown.Some? {
      StopsAppend(pumped.now.log, ErrorEntry(h, pumped.now, pumped.thrown.value), 1);
    }
    assert Execution(h, cancelled, reader) == Finish(h, pumped);
    StopsAppend(before, ClosedEntry(h, Caught(h, pumped).now.(watching := false)), 1);
  }

  // ---- Watching ----

  /** Nothing but lines and callbacks that found Watching true. */
  predicate Watched(log: seq<Entry>) {
    forall i | 0 <= i < |log| :: log[i].GotLine? || (!log[i].ClosedCall? && log[i].watching)
  }

  lemma {:induction false} HandleLineWatched(h: Handlers, p: Progress, line: string)
    requires p.watching && Watched(p.log)
    ensures var now := HandleLine(h, p, line).now; now.watching && Watched(now.log)
  {
    assert Watched(TryLine(h, p, line).now.log);
  }

  lemma {:induction false} PumpWatched(h: Handlers, p: Progress, script: Script)
    requires p.watching && Watched(p.log)
    ensures var now := Pump(h, p, script).0.now; now.watching && Watched(now.log)
    decreases |script.lines|
  {
    if script.lines != [] {
      var line := script.lines[0];
      var q := Receive(h, p, line);
      PumpUnfolds(h, p, script);
      assert Watched(q.log);
      HandleLineWatched(h, q, line);
      PumpWatched(h, HandleLine(h, q, line).now, script.(lines := script.lines[1..]));
    }
  }

  /** Watching is true at every OnEvent and OnError of an execution, and false at OnClosed and afterwards. */
  lemma {:induction false} WatchingDuringCallbacks(h: Handlers, cancelled: bool, reader: Option<Script>)
    ensures var now := Execution(h, cancelled, reader).now;
            && now.log != [] && Watched(now.log[..|now.log| - 1])
            && now.log[|now.log| - 1].ClosedCall? && !now.log[|now.log| - 1].watching && !now.watching
  {
    if reader.Some? {
      PumpWatched(h, Begun(cancelled), reader.value);
    }
    var pumped := Pumped(h, cancelled, reader);
    assert Watched(pumped.now.log) && pumped.now.watching;
    assert Watched(Caught(h, pumped).now.log);
    BeforeCloseIs(h, cancelled, reader);
    assert Execution(h, cancelled, reader) == Finish(h, pumped);
  }

  /**
   * From the text of a response to the callbacks: with nothing cancelling, an execution on the
   * reader left by the response takes exactly the lines of the text, whichever way it is cut,
   * each once and in order, and raises exactly the events they decode to.
   */
  lemma {:induction false} EveryLineOnce(h: Handlers, ps: seq<Piece>)
    requires Cutting(ps) && NeverThrows(h) && NeverCancels(h)
    ensures var log := Execution(h, false, Some(ScriptOf(Source(Rebuild(ps), false)))).now.log;
            && Collect(log, LineOf) == LinesOf(ps)
            && Collect(log, EventOf) == Collect(LinesOf(ps), EventsIn(h))
            && |Collect(log, ReturnedEventOf)| + Raised(log) == |ps|
  {
    var script := ScriptOf(Source(Rebuild(ps), false));
    LinesOfCutting(ps);
    UndisturbedProcessesAll(h, script);
    LineAccounting(h, false, script);
    var start := Begun(false);
    PumpUndisturbed(h, start, script);
    PumpConservesLines(h, start, script);
  }
}
