/**
 * WatchPods2, WatchDeployments2 and WatchJobs2 of KubernetesController.cs: a watch whose callbacks
 * collect the items of ADDED events and cancel after 5 of them (jobs: 1), or on the first error.
 */
module Controller {
  import opened Basics
  import opened TextLines
  import opened PeekableReader
  import opened Query
  import opened WatchDetection
  import opened WatchHandler
  import opened Watch
  import opened WatchLaws

  const NULL_REFERENCE := CallbackFault(0)

  /** The three endpoints differ in the limit, and in that the jobs one rethrows from OnError. */
  datatype Endpoint = Endpoint(limit: nat, rethrows: bool)

  const PODS := Endpoint(5, false)
  const DEPLOYMENTS := Endpoint(5, false)
  const JOBS := Endpoint(1, true)

  /** The item of an event that gets into the result list. */
  function CollectedOf(e: Entry): Option<Item> {
    if e.EventCall? && e.event.kind.Added? && e.event.item.Named? then Some(e.event.item) else None
  }

  function Collected(log: seq<Entry>): seq<Item> {
    Collect(log, CollectedOf)
  }

  /** The logging in front touches the metadata, so an item without it throws before anything is counted. */
  function OnEventDoes(p: Endpoint, log: seq<Entry>, e: WatchEvent): Behaviour {
    if e.item.Missing? then Behaviour(false, Some(NULL_REFERENCE))
    else Behaviour(e.kind.Added? && |Collected(log)| + 1 >= p.limit, None)
  }

  function OnErrorDoes(p: Endpoint, ex: Exn): Behaviour {
    Behaviour(true, if p.rethrows then Some(ex) else None)
  }

  function CollectorHandlers(p: Endpoint, decode: string -> Decoded, statusDecodes: string -> bool,
                             timer: seq<Entry> -> bool): Handlers {
    Handlers(decode, statusDecodes,
             (log, e) => OnEventDoes(p, log, e), (log, ex) => OnErrorDoes(p, ex), log => Behaviour(false, None),
             timer)
  }

  /** The callbacks as the endpoints write them, over their captured variables. */
  class Collector {
    const p: Endpoint
    const cts: CancellationTokenSource
    var added: int
    var result: seq<Item>

    constructor (p: Endpoint, cts: CancellationTokenSource)
      ensures this.p == p && this.cts == cts && Tracks([])
    {
      this.p := p;
      this.cts := cts;
      added := 0;
      result := [];
    }

    /** The captured variables after the calls of `log`. */
    ghost predicate Tracks(log: seq<Entry>)
      reads this
    {
      added == |Collected(log)| && result == Collected(log)
    }

    method OnEvent(e: WatchEvent, ghost log: seq<Entry>, ghost watching: bool) returns (thrown: Option<Exn>)
      requires Tracks(log)
      modifies this, cts
      ensures var did := OnEventDoes(p, log, e);
              && thrown == did.thrown && cts.requested == (old(cts.requested) || did.cancels)
              && Tracks(log + [EventCall(e, did, watching)])
    {
      CollectAppend(log, EventCall(e, OnEventDoes(p, log, e), watching), CollectedOf);
      if e.item.Missing? {
        return Some(NULL_REFERENCE);
      }
      if e.kind.Added? {
        added := added + 1;
        if added >= p.limit {
          cts.requested := true;
        }
        result := result + [e.item];
      }
      thrown := None;
    }

    method OnError(ex: Exn, ghost log: seq<Entry>, ghost watching: bool) returns (thrown: Option<Exn>)
      requires Tracks(log)
      modifies cts
      ensures var did := OnErrorDoes(p, ex);
              && thrown == did.thrown && cts.requested == (old(cts.requested) || did.cancels)
              && Tracks(log + [ErrorCall(ex, did, watching)])
    {
      CollectAppend(log, ErrorCall(ex, OnErrorDoes(p, ex), watching), CollectedOf);
      cts.requested := true;
      thrown := if p.rethrows then Some(ex) else None;
    }
  }

  // ---- What is collected ----

  function AddedIn(h: Handlers, line: string): Option<Item> {
    match h.decode(line)
    case Event(WatchEvent(Added, item)) => Some(item)
    case _ => None
  }

  function AddedPick(h: Handlers): string -> Option<Item> {
    line => AddedIn(h, line)
  }

  /** The items of all ADDED events of a stream, in order. */
  function AddedItems(h: Handlers, lines: seq<string>): seq<Item> {
    Collect(lines, AddedPick(h))
  }

  lemma {:induction false} AddedItemsStep(h: Handlers, got: seq<Item>, script: Script)
    requires script.lines != []
    ensures got + AddedItems(h, script.lines)
         == (got + One(AddedIn(h, script.lines[0]))) + AddedItems(h, script.lines[1..])
  {
    CollectCons(script.lines[0], script.lines[1..], AddedPick(h));
    assert script.lines == [script.lines[0]] + script.lines[1..];
  }

  lemma {:induction false} CollectedAfterErrors(log: seq<Entry>, e: Entry)
    requires !e.EventCall?
    ensures Collected(log + [e]) == Collected(log)
  {
    CollectAppend(log, e, CollectedOf);
  }

  /** A line is good for the endpoints when it decodes to an event with an item. */
  predicate GoodLine(h: Handlers, line: string) {
    h.decode(line).Event? && h.decode(line).event.item.Named?
  }

  lemma {:induction false} RaiseCollects(p: Endpoint, h: Handlers, now: Progress)
    requires h == CollectorHandlers(p, h.decode, h.statusDecodes, h.timer)
    ensures forall ex :: Collected(RaiseError(h, now, ex).now.log) == Collected(now.log)
    ensures forall ex :: RaiseError(h, now, ex).now.cancelled
    ensures forall e :: Collected(RaiseEvent(h, now, e).now.log)
                     == Collected(now.log) + One(if e.kind.Added? && e.item.Named? then Some(e.item) else None)
  {
    forall ex
      ensures Collected(RaiseError(h, now, ex).now.log) == Collected(now.log)
    {
      CollectAppend(now.log, ErrorEntry(h, now, ex), CollectedOf);
    }
    forall e
      ensures Collected(RaiseEvent(h, now, e).now.log)
           == Collected(now.log) + One(if e.kind.Added? && e.item.Named? then Some(e.item) else None)
    {
      CollectAppend(now.log, EventEntry(h, now, e), CollectedOf);
    }
  }

  /** A line that is no event of an item is reported, which cancels. */
  lemma {:induction false} BadLineCancels(p: Endpoint, h: Handlers, now: Progress, line: string)
    requires h == CollectorHandlers(p, h.decode, h.statusDecodes, h.timer) && !GoodLine(h, line)
    ensures var s := HandleLine(h, now, line);
            s.now.cancelled && Collected(s.now.log) == Collected(now.log)
  {
    RaiseCollects(p, h, now);
    RaiseCollects(p, h, TryLine(h, now, line).now);
  }

  /** One line: a good one adds its ADDED item and may reach the limit; any other one cancels. */
  lemma {:induction false} LineCollects(p: Endpoint, h: Handlers, now: Progress, line: string)
    requires h == CollectorHandlers(p, h.decode, h.statusDecodes, h.timer)
    ensures var s := HandleLine(h, now, line);
            && (GoodLine(h, line) ==>
                  && s.thrown.None?
                  && Collected(s.now.log) == Collected(now.log) + One(AddedIn(h, line))
                  && s.now.cancelled == (now.cancelled
                       || (AddedIn(h, line).Some? && |Collected(s.now.log)| >= p.limit)))
            && (!GoodLine(h, line) ==> s.now.cancelled && Collected(s.now.log) == Collected(now.log))
  {
    if GoodLine(h, line) {
      RaiseCollects(p, h, now);
    } else {
      BadLineCancels(p, h, now, line);
    }
  }

  /** Once the flag is set nothing more is collected. */
  lemma {:induction false} PumpCancelled(p: Endpoint, h: Handlers, now: Progress, script: Script)
    requires now.cancelled
    ensures Collected(Pump(h, now, script).0.now.log) == Collected(now.log)
  {
    if script.lines != [] {
      CollectedAfterErrors(now.log, GotLine(script.lines[0]));
    }
  }

  lemma {:induction false} PumpCollects(p: Endpoint, h: Handlers, now: Progress, script: Script)
    requires h == CollectorHandlers(p, h.decode, h.statusDecodes, h.timer)
    requires !now.cancelled && |Collected(now.log)| < p.limit
    ensures var got := Collected(Pump(h, now, script).0.now.log);
            got <= Collected(now.log) + AddedItems(h, script.lines) && |got| <= p.limit
    decreases |script.lines|
  {
    if script.lines != [] {
      var line, rest := script.lines[0], script.(lines := script.lines[1..]);
      var q := Receive(h, now, line);
      var s := HandleLine(h, q, line);
      PumpUnfolds(h, now, script);
      CollectedAfterErrors(now.log, GotLine(line));
      AddedItemsStep(h, Collected(now.log), script);
      LineCollects(p, h, q, line);
      if !q.cancelled && s.thrown.None? {
        if s.now.cancelled {
          PumpCancelled(p, h, s.now, rest);
        } else {
          PumpCollects(p, h, s.now, rest);
        }
      }
    }
  }

  lemma {:induction false} FinishCollects(h: Handlers, pumped: Step)
    ensures Collected(Finish(h, pumped).now.log) == Collected(pumped.now.log)
  {
    if pumped.thrown.Some? {
      CollectedAfterErrors(pumped.now.log, ErrorEntry(h, pumped.now, pumped.thrown.value));
    }
    var caught := Caught(h, pumped).now.(watching := false);
    CollectedAfterErrors(caught.log, ClosedEntry(h, caught));
  }

  /**
   * Whatever the stream, the errors and the timer: the collected items are a prefix of the items
   * of the ADDED events, never longer than the limit.
   */
  lemma {:induction false} CollectedIsBoundedPrefix(p: Endpoint, h: Handlers, script: Script)
    requires p.limit > 0 && h == CollectorHandlers(p, h.decode, h.statusDecodes, h.timer)
    ensures var got := Collected(Execution(h, false, Some(script)).now.log);
            got <= AddedItems(h, script.lines) && |got| <= p.limit
  {
    PumpCollects(p, h, Begun(false), script);
    FinishCollects(h, Pumped(h, false, Some(script)));
    assert Collected([]) + AddedItems(h, script.lines) == AddedItems(h, script.lines);
  }

  function Min(a: nat, b: nat): nat {
    if a < b then a else b
  }

  /** The lines before the first one that is no event of an item. */
  function GoodPrefix(h: Handlers, lines: seq<string>): seq<string> {
    if lines == [] || !GoodLine(h, lines[0]) then [] else [lines[0]] + GoodPrefix(h, lines[1..])
  }

  lemma {:induction false} GoodPrefixAll(h: Handlers, lines: seq<string>)
    requires forall i | 0 <= i < |lines| :: GoodLine(h, lines[i])
    ensures GoodPrefix(h, lines) == lines
  {
    if lines != [] {
      GoodPrefixAll(h, lines[1..]);
    }
  }

  lemma {:induction false} GoodPrefixStep(h: Handlers, got: seq<Item>, script: Script)
    requires script.lines != [] && GoodLine(h, script.lines[0])
    ensures got + AddedItems(h, GoodPrefix(h, script.lines))
         == (got + One(AddedIn(h, script.lines[0]))) + AddedItems(h, GoodPrefix(h, script.lines[1..]))
  {
    CollectCons(script.lines[0], GoodPrefix(h, script.lines[1..]), AddedPick(h));
  }

  lemma {:induction false} PumpCollectsAll(p: Endpoint, h: Handlers, now: Progress, script: Script)
    requires h == CollectorHandlers(p, h.decode, h.statusDecodes, h.timer)
    requires !now.cancelled && |Collected(now.log)| < p.limit
    requires forall log :: !h.timer(log)
    ensures var all := Collected(now.log) + AddedItems(h, GoodPrefix(h, script.lines));
            Collected(Pump(h, now, script).0.now.log) == all[..Min(p.limit, |all|)]
    decreases |script.lines|
  {
    if script.lines == [] {
      assert AddedItems(h, GoodPrefix(h, script.lines)) == [];
    } else {
      var line, rest := script.lines[0], script.(lines := script.lines[1..]);
      var q := Receive(h, now, line);
      var s := HandleLine(h, q, line);
      PumpUnfolds(h, now, script);
      CollectedAfterErrors(now.log, GotLine(line));
      LineCollects(p, h, q, line);
      if GoodLine(h, line) {
        GoodPrefixStep(h, Collected(now.log), script);
        if s.now.cancelled {
          PumpCancelled(p, h, s.now, rest);
        } else {
          PumpCollectsAll(p, h, s.now, rest);
        }
      } else {
        assert AddedItems(h, GoodPrefix(h, script.lines)) == [];
        PumpCancelled(p, h, s.now, rest);
      }
    }
  }

  /**
   * Without a timer it is exactly the first items in front of the first bad line, as many as
   * there are up to the limit, however the stream ends.
   */
  lemma {:induction false} CollectedIsExact(p: Endpoint, h: Handlers, script: Script)
    requires p.limit > 0 && h == CollectorHandlers(p, h.decode, h.statusDecodes, h.timer)
    requires forall log :: !h.timer(log)
    ensures var all := AddedItems(h, GoodPrefix(h, script.lines));
            Collected(Execution(h, false, Some(script)).now.log) == all[..Min(p.limit, |all|)]
  {
    PumpCollectsAll(p, h, Begun(false), script);
    FinishCollects(h, Pumped(h, false, Some(script)));
    assert Collected([]) + AddedItems(h, GoodPrefix(h, script.lines)) == AddedItems(h, GoodPrefix(h, script.lines));
  }

  // ---- The endpoint ----

  datatype Request = Request(resourceVersion: Option<string>, selector: Option<string>, timeoutSeconds: Option<int>)

  /** How the server answers one GET, and what of it can be decoded. */
  datatype Answer = Answer(success: bool, origin: Source, decodes: string -> bool)

  /** Without a given version the endpoint lists first; a list it cannot get or read ends the request. */
  predicate ListingFails(request: Request, listing: Answer) {
    Text(request.resourceVersion) == ""
    && (!listing.success || listing.origin.broken || !listing.decodes(listing.origin.text))
  }

  /** The reader that Watch is given, if the watching list call and its decoding succeed. */
  function WatchedReader(answer: Answer): Option<Script> {
    if answer.success && FirstLineBody(answer.origin).Ok? && answer.decodes(FirstLineBody(answer.origin).value)
    then Some(ScriptOf(answer.origin))
    else None
  }

  function EndpointResult(request: Request, listing: Answer, watched: Answer, h: Handlers): Result<seq<Item>, Exn> {
    var run := Execution(h, false, WatchedReader(watched));
    if ListingFails(request, listing) then Err(RequestFault)
    else if run.thrown.Some? then Err(run.thrown.value)
    else Ok(Collected(run.now.log))
  }

  method FindVersion(request: Request, listing: Answer) returns (ok: bool)
    ensures ok == !ListingFails(request, listing)
    ensures ok <==> (request.resourceVersion.Some? && request.resourceVersion.value != "")
                    || (listing.success && !listing.origin.broken && listing.decodes(listing.origin.text))
  {
    if Text(request.resourceVersion) != "" {
      return true;
    }
    var query := BuildListQuery(false, request.selector, request.timeoutSeconds);
    ListDetectionExact(false, request.selector, request.timeoutSeconds);
    var content, _ := GetApiAsync(query, listing.success, listing.origin,
                                  ListParams(false, request.selector, request.timeoutSeconds));
    ok := content.Ok? && listing.decodes(content.value);
  }

  method Watch2(p: Endpoint, request: Request, listing: Answer, watched: Answer,
                decode: string -> Decoded, statusDecodes: string -> bool, timer: seq<Entry> -> bool)
    returns (result: Result<seq<Item>, Exn>)
    ensures result == EndpointResult(request, listing, watched, CollectorHandlers(p, decode, statusDecodes, timer))
  {
    var cts := new CancellationTokenSource();
    var found := FindVersion(request, listing);
    if !found {
      return Err(RequestFault);
    }
    var query := BuildListQuery(true, request.selector, request.timeoutSeconds);
    ListDetectionExact(true, request.selector, request.timeoutSeconds);
    var content, res := GetApiAsync(query, watched.success, watched.origin,
                                    ListParams(true, request.selector, request.timeoutSeconds));
    var reader: PeekableStreamReader? := null;
    if content.Ok? && watched.decodes(content.value) && res.separated != null {
      reader := res.separated.streamReader;
    }
    var watch := new Watch(CollectorHandlers(p, decode, statusDecodes, timer), cts);
    var thrown := watch.Execute(reader);
    if thrown.Some? {
      return Err(thrown.value);
    }
    result := Ok(Collect(watch.log, CollectedOf));
  }

  // ---- The three endpoints by name ----

  /** The exceptions that an execution hands to OnError. */
  function Errors(h: Handlers, reader: Option<Script>): seq<Exn> {
    Collect(Execution(h, false, reader).now.log, ErrorOf)
  }

  /** The callbacks of the pods, deployments and jobs endpoints. */
  ghost predicate PodsHandlers(h: Handlers) {
    h == CollectorHandlers(PODS, h.decode, h.statusDecodes, h.timer)
  }

  ghost predicate DeploymentsHandlers(h: Handlers) {
    h == CollectorHandlers(DEPLOYMENTS, h.decode, h.statusDecodes, h.timer)
  }

  ghost predicate JobsHandlers(h: Handlers) {
    h == CollectorHandlers(JOBS, h.decode, h.statusDecodes, h.timer)
  }

  /** Errors never make the pods and deployments endpoints fail: they return what they have. */
  lemma {:induction false} PodsAndDeploymentsReturn(request: Request, listing: Answer, watched: Answer, h: Handlers)
    requires PodsHandlers(h) || DeploymentsHandlers(h)
    ensures EndpointResult(request, listing, watched, h) ==
            if ListingFails(request, listing) then Err(RequestFault)
            else Ok(Collected(Execution(h, false, WatchedReader(watched)).now.log))
  {
    FailsOnlyByCallbacks(h, false, WatchedReader(watched));
  }

  /** All errors so far are the one on its way up. */
  predicate OneError(log: seq<Entry>, thrown: Option<Exn>) {
    forall ex <- Collect(log, ErrorOf) :: thrown == Some(ex)
  }

  lemma {:induction false} JobsRaise(h: Handlers, p: Progress, ex: Exn)
    requires JobsHandlers(h) && OneError(p.log, Some(ex))
    ensures var s := RaiseError(h, p, ex);
            s.thrown == Some(ex) && OneError(s.now.log, Some(ex)) && Collect(s.now.log, ErrorOf) != []
  {
    CollectAppend(p.log, ErrorEntry(h, p, ex), ErrorOf);
  }

  lemma {:induction false} JobsTry(h: Handlers, p: Progress, line: string)
    requires JobsHandlers(h) && Collect(p.log, ErrorOf) == [] && !GoodLine(h, line)
    ensures var tried := TryLine(h, p, line);
            tried.thrown == Some(FaultOf(h, line)) && OneError(tried.now.log, tried.thrown)
  {
    match h.decode(line)
    case Event(e) => CollectAppend(p.log, EventEntry(h, p, e), ErrorOf);
    case Null => JobsRaise(h, p, KubernetesException(line));
    case Undecodable =>
  }

  lemma {:induction false} JobsLine(h: Handlers, p: Progress, line: string)
    requires JobsHandlers(h) && Collect(p.log, ErrorOf) == []
    ensures var s := HandleLine(h, p, line);
            OneError(s.now.log, s.thrown) && (s.thrown.Some? <==> !GoodLine(h, line))
            && (!GoodLine(h, line) ==> s.thrown == Some(FaultOf(h, line)))
  {
    if GoodLine(h, line) {
      CollectAppend(p.log, EventEntry(h, p, h.decode(line).event), ErrorOf);
    } else {
      JobsTry(h, p, line);
      JobsRaise(h, TryLine(h, p, line).now, FaultOf(h, line));
    }
  }

  /** What the jobs endpoint is told about a bad line. */
  function FaultOf(h: Handlers, line: string): Exn {
    match h.decode(line)
    case Undecodable => DecodeFault(line)
    case Null => if h.statusDecodes(line) then KubernetesException(line) else StatusFault(line)
    case Event(_) => NULL_REFERENCE
  }

  lemma {:induction false} JobsPump(h: Handlers, p: Progress, script: Script)
    requires JobsHandlers(h) && Collect(p.log, ErrorOf) == []
    ensures var s := Pump(h, p, script).0; OneError(s.now.log, s.thrown)
    decreases |script.lines|
  {
    if script.lines != [] {
      var line, rest := script.lines[0], script.(lines := script.lines[1..]);
      var q := Receive(h, p, line);
      var s := HandleLine(h, q, line);
      PumpUnfolds(h, p, script);
      CollectAppend(p.log, GotLine(line), ErrorOf);
      JobsLine(h, q, line);
      if !q.cancelled && s.thrown.None? {
        NoErrors(s.now.log);
        JobsPump(h, s.now, rest);
      }
    }
  }

  lemma {:induction false} NoErrors(log: seq<Entry>)
    requires OneError(log, None)
    ensures Collect(log, ErrorOf) == []
  {
    if Collect(log, ErrorOf) != [] {
      assert Collect(log, ErrorOf)[0] in Collect(log, ErrorOf);
    }
  }

  lemma {:induction false} JobsFinish(h: Handlers, pumped: Step)
    requires JobsHandlers(h) && OneError(pumped.now.log, pumped.thrown)
    ensures var s := Finish(h, pumped);
            s.thrown == pumped.thrown && OneError(s.now.log, s.thrown)
            && (s.thrown.Some? <==> Collect(s.now.log, ErrorOf) != [])
  {
    var caught := Caught(h, pumped);
    if pumped.thrown.Some? {
      JobsRaise(h, pumped.now, pumped.thrown.value);
    } else {
      NoErrors(pumped.now.log);
    }
    var p := caught.now.(watching := false);
    CollectAppend(p.log, ClosedEntry(h, p), ErrorOf);
  }

  /** The jobs endpoint fails exactly when an error was raised, with the exception that OnError was given first. */
  lemma {:induction false} ErrorsFailJobs(request: Request, listing: Answer, watched: Answer, h: Handlers)
    requires JobsHandlers(h)
    ensures var errors := Errors(h, WatchedReader(watched));
            && EndpointResult(request, listing, watched, h) ==
               (if ListingFails(request, listing) then Err(RequestFault)
                else if errors != [] then Err(errors[0])
                else Ok(Collected(Execution(h, false, WatchedReader(watched)).now.log)))
            && forall i | 0 <= i < |errors| :: errors[i] == errors[0]
  {
    var reader := WatchedReader(watched);
    var pumped := Pumped(h, false, reader);
    if reader.Some? {
      JobsPump(h, Begun(false), reader.value);
    }
    assert OneError(pumped.now.log, pumped.thrown);
    JobsFinish(h, pumped);
    var errors := Errors(h, reader);
    assert forall i | 0 <= i < |errors| :: errors[i] in errors;
  }

  /** Whatever the server, the errors and the timer do, a result holds first items only, and no more than the limit. */
  lemma {:induction false} EndpointResultIsBoundedPrefix(request: Request, listing: Answer, watched: Answer,
                                                         h: Handlers)
    requires PodsHandlers(h) || DeploymentsHandlers(h) || JobsHandlers(h)
    ensures var r := EndpointResult(request, listing, watched, h);
            r.Ok? ==> r.value <= AddedItems(h, Lines(watched.origin)) && |r.value| <= (if JobsHandlers(h) then 1 else 5)
  {
    var p := if JobsHandlers(h) then JOBS else if PodsHandlers(h) then PODS else DEPLOYMENTS;
    if WatchedReader(watched).Some? {
      CollectedIsBoundedPrefix(p, h, ScriptOf(watched.origin));
    } else {
      FinishCollects(h, Pumped(h, false, None));
    }
  }

  /** The watch can start: a good status, and a first line, or an empty body, that reads as a list. */
  predicate CanWatch(watched: Answer) {
    var lines := Lines(watched.origin);
    && watched.success
    && (if lines == [] then !watched.origin.broken && watched.decodes("") else watched.decodes(lines[0]))
  }

  lemma {:induction false} WatchedReaderIs(watched: Answer)
    ensures WatchedReader(watched) == if CanWatch(watched) then Some(ScriptOf(watched.origin)) else None
  {}

  /**
   * Pods and deployments without a timer: exactly the first five items in front of the first bad
   * line, however the response ends; none when the watch cannot start.
   */
  lemma {:induction false} EndpointReturnsFirstItems(request: Request, listing: Answer, watched: Answer, h: Handlers)
    requires PodsHandlers(h) || DeploymentsHandlers(h)
    requires !ListingFails(request, listing) && forall log :: !h.timer(log)
    ensures var all := if CanWatch(watched) then AddedItems(h, GoodPrefix(h, Lines(watched.origin))) else [];
            EndpointResult(request, listing, watched, h) == Ok(all[..Min(5, |all|)])
  {
    PodsAndDeploymentsReturn(request, listing, watched, h);
    WatchedReaderIs(watched);
    if CanWatch(watched) {
      CollectedIsExact(if PodsHandlers(h) then PODS else DEPLOYMENTS, h, ScriptOf(watched.origin));
    } else {
      FinishCollects(h, Pumped(h, false, None));
    }
  }

  /** The first line that decides a jobs request: a bad one, or one with an ADDED item. */
  function Deciding(h: Handlers, lines: seq<string>): (i: nat)
    ensures i <= |lines|
    ensures i < |lines| ==> !GoodLine(h, lines[i]) || AddedIn(h, lines[i]).Some?
  {
    if lines == [] || !GoodLine(h, lines[0]) || AddedIn(h, lines[0]).Some? then 0 else 1 + Deciding(h, lines[1..])
  }

  /** How the reading of a jobs request ends: the reader fails only when it is asked for a line behind the last one. */
  function JobsOutcome(h: Handlers, script: Script): Result<seq<Item>, Exn> {
    var lines, i := script.lines, Deciding(h, script.lines);
    if i < |lines| && !GoodLine(h, lines[i]) then Err(FaultOf(h, lines[i]))
    else if i + 1 >= |lines| && script.broken then Err(ReaderFault)
    else if i < |lines| then Ok([AddedIn(h, lines[i]).value])
    else Ok([])
  }

  lemma {:induction false} DecidingStep(h: Handlers, script: Script)
    requires script.lines != [] && GoodLine(h, script.lines[0]) && AddedIn(h, script.lines[0]).None?
    ensures JobsOutcome(h, script) == JobsOutcome(h, script.(lines := script.lines[1..]))
  {}

  /** With the flag set, one more line is taken, and the reader fails only if there is none. */
  lemma {:induction false} JobsStopped(h: Handlers, p: Progress, script: Script)
    requires p.cancelled
    ensures Pump(h, p, script).0.thrown == if script.lines == [] && script.broken then Some(ReaderFault) else None
  {}

  lemma {:induction false} JobsPumpOutcome(h: Handlers, p: Progress, script: Script)
    requires JobsHandlers(h) && Collect(p.log, ErrorOf) == [] && Collected(p.log) == [] && !p.cancelled
    requires forall log :: !h.timer(log)
    ensures var s := Pump(h, p, script).0;
            JobsOutcome(h, script) == if s.thrown.Some? then Err(s.thrown.value) else Ok(Collected(s.now.log))
    decreases |script.lines|
  {
    if script.lines != [] {
      var line, rest := script.lines[0], script.(lines := script.lines[1..]);
      var q := Receive(h, p, line);
      var s := HandleLine(h, q, line);
      PumpUnfolds(h, p, script);
      CollectAppend(p.log, GotLine(line), ErrorOf);
      CollectedAfterErrors(p.log, GotLine(line));
      JobsLine(h, q, line);
      LineCollects(JOBS, h, q, line);
      assert !q.cancelled && Collected(q.log) == [];
      assert GoodLine(h, line) ==> Collected(s.now.log) == One(AddedIn(h, line));
      if GoodLine(h, line) && AddedIn(h, line).None? {
        NoErrors(s.now.log);
        DecidingStep(h, script);
        JobsPumpOutcome(h, s.now, rest);
      } else if GoodLine(h, line) {
        JobsStopped(h, s.now, rest);
        PumpCancelled(JOBS, h, s.now, rest);
      }
    }
  }

  /**
   * Jobs without a timer, exactly: the first line that is bad or ADDED decides, a bad one by its
   * fault, an ADDED one as the only item, unless the reader fails right behind it.
   */
  lemma {:induction false} JobsReturnFirstItem(request: Request, listing: Answer, watched: Answer, h: Handlers)
    requires JobsHandlers(h) && !ListingFails(request, listing) && forall log :: !h.timer(log)
    ensures EndpointResult(request, listing, watched, h) ==
            if CanWatch(watched) then JobsOutcome(h, ScriptOf(watched.origin)) else Err(FactoryFault)
  {
    WatchedReaderIs(watched);
    var pumped := Pumped(h, false, WatchedReader(watched));
    if CanWatch(watched) {
      JobsPump(h, Begun(false), ScriptOf(watched.origin));
      JobsPumpOutcome(h, Begun(false), ScriptOf(watched.origin));
    }
    assert OneError(pumped.now.log, pumped.thrown);
    JobsFinish(h, pumped);
    FinishCollects(h, pumped);
  }
}
