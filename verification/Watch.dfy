/**
 * Watch<T>.Execute of Watch.cs: the pump that reads lines, decodes them and raises the events,
 * with its two nested handlers and the closing event.
 *
 * A callback may do anything a caller's delegate may do, so it is an arbitrary function of
 * everything that has happened in the execution so far; the same goes for a timer that cancels.
 */
module Watch {
  import opened Basics
  import opened TextLines
  import opened PeekableReader

  datatype WatchEventType = Added | Modified | Deleted | Error | Bookmark

  /** The object of an event, or one whose object or metadata is null. */
  datatype Item = Missing | Named(ns: string, name: string)

  datatype WatchEvent = WatchEvent(kind: WatchEventType, item: Item)

  /** What decoding a line as an event gives: an exception, null, or an event. */
  datatype Decoded = Undecodable | Null | Event(event: WatchEvent)

  datatype Exn =
    | RequestFault | FactoryFault | ReaderFault
    | DecodeFault(line: string) | StatusFault(line: string)
    | KubernetesException(line: string)
    | CallbackFault(code: int)

  /** What one callback invocation did: whether it cancelled the source, and what it threw. */
  datatype Behaviour = Behaviour(cancels: bool, thrown: Option<Exn>)

  /** What happens in an execution; a call comes with the value that Watching has while it runs. */
  datatype Entry =
    | GotLine(line: string)
    | EventCall(event: WatchEvent, did: Behaviour, watching: bool)
    | ErrorCall(ex: Exn, did: Behaviour, watching: bool)
    | ClosedCall(did: Behaviour, watching: bool)

  /** The decoders and callbacks of one watch, and the timer of its cancellation source. */
  datatype Handlers = Handlers(
    decode: string -> Decoded,
    statusDecodes: string -> bool,
    onEvent: (seq<Entry>, WatchEvent) -> Behaviour,
    onError: (seq<Entry>, Exn) -> Behaviour,
    onClosed: seq<Entry> -> Behaviour,
    timer: seq<Entry> -> bool)

  /** The calls made so far, the flag of the cancellation source, which never goes back, and Watching. */
  datatype Progress = Progress(log: seq<Entry>, cancelled: bool, watching: bool) {

    function Calls(e: Entry, did: Behaviour): Progress {
      Progress(log + [e], cancelled || did.cancels, watching)
    }
  }

  /** The start of an execution. */
  function Begun(cancelled: bool): Progress {
    Progress([], cancelled, true)
  }

  /** A progress together with the exception that is on its way up, if any. */
  datatype Step = Step(now: Progress, thrown: Option<Exn>)

  function EventEntry(h: Handlers, p: Progress, e: WatchEvent): Entry {
    EventCall(e, h.onEvent(p.log, e), p.watching)
  }

  function ErrorEntry(h: Handlers, p: Progress, ex: Exn): Entry {
    ErrorCall(ex, h.onError(p.log, ex), p.watching)
  }

  function ClosedEntry(h: Handlers, p: Progress): Entry {
    ClosedCall(h.onClosed(p.log), p.watching)
  }

  function Raise(p: Progress, e: Entry): Step
    requires !e.GotLine?
  {
    Step(p.Calls(e, e.did), e.did.thrown)
  }

  function RaiseEvent(h: Handlers, p: Progress, e: WatchEvent): Step {
    Raise(p, EventEntry(h, p, e))
  }

  function RaiseError(h: Handlers, p: Progress, ex: Exn): Step {
    Raise(p, ErrorEntry(h, p, ex))
  }

  function RaiseClosed(h: Handlers, p: Progress): Step {
    Raise(p, ClosedEntry(h, p))
  }

  /** The try block around one line. */
  function TryLine(h: Handlers, p: Progress, line: string): Step {
    match h.decode(line)
    case Undecodable => Step(p, Some(DecodeFault(line)))
    case Event(e) => RaiseEvent(h, p, e)
    case Null =>
      if h.statusDecodes(line) then RaiseError(h, p, KubernetesException(line))
      else Step(p, Some(StatusFault(line)))
  }

  /** A line with its handler; an exception that leaves it was thrown by OnError. */
  function HandleLine(h: Handlers, p: Progress, line: string): Step {
    var tried := TryLine(h, p, line);
    if tried.thrown.Some? then RaiseError(h, tried.now, tried.thrown.value) else tried
  }

  /** The flag is looked at after a line has been read, so that line is lost when it is set. */
  function Receive(h: Handlers, p: Progress, line: string): Progress {
    var log := p.log + [GotLine(line)];
    p.(log := log, cancelled := p.cancelled || h.timer(log))
  }

  /** The loop over the lines of the reader, and what the reader still holds afterwards. */
  function Pump(h: Handlers, p: Progress, script: Script): (Step, Script)
    decreases |script.lines|
  {
    var (r, rest) := Next(script);
    match r
    case End => (Step(p, None), rest)
    case Failed => (Step(p, Some(ReaderFault)), rest)
    case Line(line) =>
      var q := Receive(h, p, line);
      if q.cancelled then (Step(q, None), rest)
      else
        var handled := HandleLine(h, q, line);
        if handled.thrown.Some? then (handled, rest) else Pump(h, handled.now, rest)
  }

  /** The catch block around the loop. */
  function Caught(h: Handlers, pumped: Step): Step {
    if pumped.thrown.Some? then RaiseError(h, pumped.now, pumped.thrown.value) else pumped
  }

  /** The catch and finally blocks around the loop. */
  function Finish(h: Handlers, pumped: Step): Step {
    var caught := Caught(h, pumped);
    var closed := RaiseClosed(h, caught.now.(watching := false));
    if closed.thrown.Some? then closed else Step(closed.now, caught.thrown)
  }

  /** One execution from the first call on: no script when the factory throws. */
  function Execution(h: Handlers, cancelled: bool, reader: Option<Script>): Step {
    var start := Begun(cancelled);
    Finish(h, if reader.Some? then Pump(h, start, reader.value).0 else Step(start, Some(FactoryFault)))
  }

  class CancellationTokenSource {
    var requested: bool

    constructor ()
      ensures !requested
    {
      requested := false;
    }
  }

  class Watch {
    const h: Handlers
    const cts: CancellationTokenSource
    var watching: bool
    var log: seq<Entry>
    var streamReader: PeekableStreamReader?

    constructor (h: Handlers, cts: CancellationTokenSource?)
      ensures this.h == h && !watching && log == [] && streamReader == null
      ensures if cts != null then this.cts == cts else fresh(this.cts) && !this.cts.requested
    {
      var source := cts;
      if source == null {
        source := new CancellationTokenSource();
      }
      this.h := h;
      this.cts := source;
      watching := false;
      log := [];
      streamReader := null;
    }

    ghost function Now(): Progress
      reads this, cts
    {
      Progress(log, cts.requested, watching)
    }

    method Record(e: Entry, did: Behaviour)
      modifies this`log, cts
      ensures Now() == old(Now()).Calls(e, did)
    {
      log := log + [e];
      cts.requested := cts.requested || did.cancels;
    }

    method OnEvent(e: WatchEvent) returns (thrown: Option<Exn>)
      modifies this`log, cts
      ensures Step(Now(), thrown) == RaiseEvent(h, old(Now()), e)
    {
      var did := h.onEvent(log, e);
      Record(EventCall(e, did, watching), did);
      thrown := did.thrown;
    }

    method OnError(ex: Exn) returns (thrown: Option<Exn>)
      modifies this`log, cts
      ensures Step(Now(), thrown) == RaiseError(h, old(Now()), ex)
    {
      var did := h.onError(log, ex);
      Record(ErrorCall(ex, did, watching), did);
      thrown := did.thrown;
    }

    method OnClosed() returns (thrown: Option<Exn>)
      modifies this`log, cts
      ensures Step(Now(), thrown) == RaiseClosed(h, old(Now()))
    {
      var did := h.onClosed(log);
      Record(ClosedCall(did, watching), did);
      thrown := did.thrown;
    }

    /** The body of the loop after the check of the flag. */
    method ProcessLine(line: string) returns (thrown: Option<Exn>)
      modifies this`log, cts
      ensures Step(Now(), thrown) == HandleLine(h, old(Now()), line)
    {
      thrown := None;
      match h.decode(line) {
        case Undecodable =>
          thrown := Some(DecodeFault(line));
        case Event(e) =>
          thrown := OnEvent(e);
        case Null =>
          if h.statusDecodes(line) {
            thrown := OnError(KubernetesException(line));
          } else {
            thrown := Some(StatusFault(line));
          }
      }
      if thrown.Some? {
        thrown := OnError(thrown.value);
      }
    }

    /** The loop; it ends with the stream, the flag, or an exception. */
    method ReadLoop(reader: PeekableStreamReader) returns (thrown: Option<Exn>)
      requires reader.Valid()
      modifies this`log, cts, reader
      ensures reader.Valid()
      ensures (Step(Now(), thrown), reader.View()) == Pump(h, old(Now()), old(reader.View()))
    {
      thrown := None;
      ghost var whole := Pump(h, Now(), reader.View());
      while true
        invariant reader.Valid() && thrown == None
        invariant Pump(h, Now(), reader.View()) == whole
        decreases |reader.View().lines|
      {
        var r := reader.ReadLineAsync();
        match r {
          case End => return;
          case Failed => return Some(ReaderFault);
          case Line(line) =>
            log := log + [GotLine(line)];
            cts.requested := cts.requested || h.timer(log);
            if cts.requested {
              return;
            }
            thrown := ProcessLine(line);
            if thrown.Some? {
              return;
            }
        }
      }
    }

    /** `reader` is what the factory returns, null when it throws; `thrown` is what leaves the task. */
    method Execute(reader: PeekableStreamReader?) returns (thrown: Option<Exn>)
      requires reader != null ==> reader.Valid()
      modifies this, cts, reader
      ensures !watching
      ensures reader != null ==> reader.Valid() && streamReader == reader
      ensures var script := if reader == null then None else Some(old(reader.View()));
              Step(Now(), thrown) == Execution(h, old(cts.requested), script)
      ensures reader != null ==> reader.View() == Pump(h, Begun(old(cts.requested)), old(reader.View())).1
    {
      watching := true;
      log := [];
      if reader == null {
        thrown := Some(FactoryFault);
      } else {
        streamReader := reader;
        thrown := ReadLoop(reader);
      }
      if thrown.Some? {
        thrown := OnError(thrown.value);
      }
      watching := false;
      var closing := OnClosed();
      if closing.Some? {
        thrown := closing;
      }
    }
  }
}
