/** WatchPodsAsync and its Deployment and Job twins: list for a version, then watch from it for one event. */
module ListThenWatch {
  import opened Basics
  import opened ApiServer
  import opened TextLines
  import opened Query
  import opened WatchDetection
  import opened WatchHandler
  import Decimal

  /** WatchJobsAsync takes its version from the deployments. */
  function ListedKind(kind: Kind): Kind {
    if kind.Job? then Deployment else kind
  }

  predicate Concerns(c: Change, kind: Kind, ns: string) {
    c.key.kind == kind && c.key.ns == ns
  }

  /** The first change of a kind in a namespace after a version: what a watch from there delivers first. */
  function FirstAfter(history: seq<Change>, kind: Kind, ns: string, version: nat): Option<Change> {
    if history == [] then None
    else if Concerns(history[0], kind, ns) && history[0].version > version then Some(history[0])
    else FirstAfter(history[1..], kind, ns, version)
  }

  // ---- The event on its way to the client ----

  /** The changes that a watch from a version delivers, one to a line. */
  function Delivered(history: seq<Change>, kind: Kind, ns: string, version: nat): seq<Change> {
    if history == [] then []
    else
      var rest := Delivered(history[1..], kind, ns, version);
      if Concerns(history[0], kind, ns) && history[0].version > version then [history[0]] + rest else rest
  }

  /** The JSON text of an event, and the reader of such a text. */
  datatype Wire = Wire(encode: Change -> string, decode: string -> Option<Change>)

  ghost predicate Faithful(wire: Wire) {
    forall c :: BreakFree(wire.encode(c)) && wire.encode(c) != "" && wire.decode(wire.encode(c)) == Some(c)
  }

  function Body(wire: Wire, events: seq<Change>): string {
    if events == [] then "" else wire.encode(events[0]) + "\n" + Body(wire, events[1..])
  }

  lemma {:induction false} FirstDelivered(history: seq<Change>, kind: Kind, ns: string, version: nat)
    ensures var events := Delivered(history, kind, ns, version);
            FirstAfter(history, kind, ns, version) == if events == [] then None else Some(events[0])
  {
    if history != [] {
      FirstDelivered(history[1..], kind, ns, version);
    }
  }

  /** The first event of a body survives both readers; without one, the text is null or cannot be read. */
  lemma {:induction false} FirstEventArrives(wire: Wire, events: seq<Change>, broken: bool)
    requires Faithful(wire)
    ensures StreamContent(Source(Body(wire, events), broken)) ==
            if events != [] then Ok(Some(wire.encode(events[0]))) else if broken then Err(ReadError) else Ok(None)
  {
    var s := Source(Body(wire, events), broken);
    if events != [] {
      FirstBreak(wire.encode(events[0]), "\n", Body(wire, events[1..]));
      BodyRead(s);
    } else if !broken {
      ReadLineIsNext(s);
      TwoLayerFirstLine(s);
    }
  }

  /** What can leave a watch call instead of an event; the JSON reader takes no null for a text. */
  datatype WatchFault = ListFailed | Http(error: HttpError) | NullText | NotAnEvent

  function Deserialize(wire: Wire, content: Option<string>): Result<Change, WatchFault> {
    if content.None? then Err(NullText)
    else
      var event := wire.decode(content.value);
      if event.Some? then Ok(event.value) else Err(NotAnEvent)
  }

  /** The outcome of WatchPodsHttpAsync for one response. */
  function Answer(wire: Wire, success: bool, origin: Source): Result<Change, WatchFault> {
    if !success then Err(Http(StatusError))
    else
      match StreamContent(origin)
      case Err(e) => Err(Http(e))
      case Ok(content) => Deserialize(wire, content)
  }

  /**
   * Whatever the server sends, the call fails on a null text exactly when the response ends
   * without any line or opens with an empty one.
   */
  lemma {:induction false} NullTextIff(wire: Wire, origin: Source)
    ensures Answer(wire, true, origin) == Err(NullText) <==>
            (if Lines(origin) == [] then !origin.broken else Lines(origin)[0] == "")
  {
    if Lines(origin) != [] {
      BodyRead(origin);
    } else if !origin.broken {
      ReadLineIsNext(Source("", false));
    }
  }

  /** The server's response to a watch from a version, which ends or breaks after the changes. */
  datatype Connection = Connection(success: bool, broken: bool)

  function WatchResult(wire: Wire, history: seq<Change>, kind: Kind, ns: string, since: nat, connection: Connection)
    : Result<Change, WatchFault>
  {
    Answer(wire, connection.success, Source(Body(wire, Delivered(history, kind, ns, since)), connection.broken))
  }

  /** The fault of a watch that has no event to deliver. */
  function QuietFault(connection: Connection): WatchFault {
    if connection.broken then Http(ReadError) else NullText
  }

  /** The watch returns the first change after the version, and fails exactly when there is none. */
  lemma {:induction false} WatchResultExact(wire: Wire, history: seq<Change>, kind: Kind, ns: string, since: nat,
                                            connection: Connection)
    requires Faithful(wire)
    ensures var first := FirstAfter(history, kind, ns, since);
            WatchResult(wire, history, kind, ns, since, connection) ==
            if !connection.success then Err(Http(StatusError))
            else if first.Some? then Ok(first.value) else Err(QuietFault(connection))
  {
    FirstDelivered(history, kind, ns, since);
    FirstEventArrives(wire, Delivered(history, kind, ns, since), connection.broken);
  }

  /** One pod, listed at its own version: a watch that sees nothing new until the stream ends throws. */
  lemma {:induction false} QuietWatchThrows(wire: Wire, body: string)
    requires Faithful(wire)
    ensures var history := [Added(1, Key(Pod, "default", "web"), body)];
            && WatchResult(wire, history, Pod, "default", 1, Connection(true, false)) == Err(NullText)
            && WatchResult(wire, history, Pod, "default", 0, Connection(true, false)) == Ok(history[0])
  {
    var history := [Added(1, Key(Pod, "default", "web"), body)];
    assert history[1..] == [];
    WatchResultExact(wire, history, Pod, "default", 1, Connection(true, false));
    WatchResultExact(wire, history, Pod, "default", 0, Connection(true, false));
  }

  /** WatchPodsHttpAsync on a stream with the changes after a version: the query, the two readers and the decoder. */
  method WatchHttpAsync(history: seq<Change>, kind: Kind, ns: string, since: nat, timeoutSeconds: Option<int>,
                        wire: Wire, connection: Connection)
    returns (event: Result<Change, WatchFault>)
    ensures event == WatchResult(wire, history, kind, ns, since, connection)
  {
    var version := Some(Decimal.Print(since));
    var events := Delivered(history, kind, ns, since);
    var query := BuildWatchQuery(version, None, timeoutSeconds);
    WatchDetectionExact(version, None, timeoutSeconds);
    var content, _ := GetStreamApiAsync(query, connection.success, Source(Body(wire, events), connection.broken),
                                        WatchParams(version, None, timeoutSeconds));
    if content.Err? {
      return Err(Http(content.error));
    }
    event := Deserialize(wire, content.value);
  }

  // ---- The protocol ----

  /** What listing a kind in a namespace shows. */
  function Snapshot(objects: map<Key, string>, kind: Kind, ns: string): map<Key, string> {
    map key | key in objects && key.kind == kind && key.ns == ns :: objects[key]
  }

  datatype Watched = Watched(event: Result<Change, WatchFault>, listed: Option<map<Key, string>>, since: nat)

  /**
   * `between` are the writes of other clients between the list and the watch, `later` those
   * while the watch is open. The call returns the first matching change, or fails when the stream
   * ends without one. With a given version nothing is listed. The watch path has no form for all
   * namespaces, hence the namespace is not empty.
   */
  method WatchAsync(server: Server, kind: Kind, ns: string, resourceVersion: Option<nat>, listFails: bool,
                    timeoutSeconds: Option<int>, wire: Wire, connection: Connection, between: seq<Op>, later: seq<Op>)
    returns (w: Watched)
    requires ns != "" && server.store.Valid() && Faithful(wire)
    modifies server
    ensures w.event == Err(ListFailed) <==> resourceVersion.None? && listFails
    ensures w.event == Err(ListFailed) ==> server.store == old(server.store)
    ensures w.event != Err(ListFailed) ==>
              && server.store == old(server.store).PerformAll(between + later)
              && w.since == (if resourceVersion.Some? then resourceVersion.value else old(server.store).version)
              && w.listed == (if resourceVersion.Some? then None
                              else Some(Snapshot(old(server.store).Objects(),
                                                 if kind.Job? then Deployment else kind, ns)))
              && IsOutcome(server.store, kind, ns, w.since, connection, w.event)
              && (resourceVersion.None? ==> GapFree(server.store, kind, ns, w))
  {
    ghost var start := server.store;
    var since, listed := 0, None;
    if resourceVersion.Some? {
      since := resourceVersion.value;
    } else if listFails {
      return Watched(Err(ListFailed), None, 0);
    } else {
      since := server.store.version;
      listed := Some(Snapshot(server.store.Objects(), ListedKind(kind), ns));
    }
    server.OtherClients(between);
    server.OtherClients(later);
    var event := WatchHttpAsync(server.store.history, kind, ns, since, timeoutSeconds, wire, connection);
    w := Watched(event, listed, since);
    PerformAllConcat(start, between, later);
    HistoryGrows(start, between + later);
    WatchResultExact(wire, server.store.history, kind, ns, since, connection);
    FirstAfterIsEarliest(server.store, kind, ns, since);
    if resourceVersion.None? {
      WatchIsGapFree(start, server.store, kind, ns, w);
    }
  }

  /**
   * The exact outcome of a watch on a server that answers it: the earliest change above `since`,
   * and a fault exactly when no change qualifies.
   */
  ghost predicate IsOutcome(s: Store, kind: Kind, ns: string, since: nat, connection: Connection,
                            event: Result<Change, WatchFault>) {
    if !connection.success then event == Err(Http(StatusError))
    else if event.Ok? then IsEarliest(s, kind, ns, since, Some(event.value))
    else event == Err(QuietFault(connection)) && IsEarliest(s, kind, ns, since, None)
  }

  /** The event is the change with the lowest version above `since`, and there is one if any change qualifies. */
  ghost predicate IsEarliest(s: Store, kind: Kind, ns: string, since: nat, event: Option<Change>) {
    && (event.Some? ==>
          && event.value in s.history && Qualifies(event.value, kind, ns, since)
          && forall c <- s.history :: (Qualifies(c, kind, ns, since) ==> event.value.version <= c.version))
    && (event.None? ==> forall c <- s.history :: !Qualifies(c, kind, ns, since))
  }

  /** The objects right after the change with a version: the changes up to it, replayed. */
  function ObjectsAt(s: Store, version: nat): map<Key, string> {
    Replay(UpTo(s.history, version))
  }

  function UpTo(history: seq<Change>, version: nat): seq<Change> {
    if history == [] || history[0].version > version then [] else [history[0]] + UpTo(history[1..], version)
  }

  /**
   * Applying the event to what was listed gives the state right after the event. The claim is
   * about the listed kind, so for jobs it says nothing and only the event itself is right.
   */
  ghost predicate GapFree(after: Store, kind: Kind, ns: string, w: Watched)
  {
    ListedKind(kind) == kind && w.event.Ok? && w.listed.Some? ==>
      Applied(w.listed.value, w.event.value) == Snapshot(ObjectsAt(after, w.event.value.version), kind, ns)
  }

  predicate Qualifies(c: Change, kind: Kind, ns: string, since: nat) {
    Concerns(c, kind, ns) && c.version > since
  }

  /** Where the search stops: at the first qualifying change, or at the end. */
  lemma {:induction false} FirstAfterIndex(history: seq<Change>, kind: Kind, ns: string, since: nat) returns (k: nat)
    ensures k <= |history|
    ensures forall i | 0 <= i < k :: !Qualifies(history[i], kind, ns, since)
    ensures k < |history| ==> Qualifies(history[k], kind, ns, since)
    ensures FirstAfter(history, kind, ns, since) == if k < |history| then Some(history[k]) else None
  {
    if history == [] || Qualifies(history[0], kind, ns, since) {
      k := 0;
    } else {
      var j := FirstAfterIndex(history[1..], kind, ns, since);
      k := j + 1;
    }
  }

  lemma {:induction false} FirstAfterIsEarliest(s: Store, kind: Kind, ns: string, since: nat)
    requires s.Valid()
    ensures IsEarliest(s, kind, ns, since, FirstAfter(s.history, kind, ns, since))
  {
    var k := FirstAfterIndex(s.history, kind, ns, since);
    forall c <- s.history | Qualifies(c, kind, ns, since)
      ensures k < |s.history| && s.history[k].version <= c.version
    {
      var i :| 0 <= i < |s.history| && s.history[i] == c;
      assert k <= i;
    }
  }

  /** A change elsewhere does not show in a snapshot; one that concerns it shows as itself. */
  lemma {:induction false} SnapshotApplied(objects: map<Key, string>, c: Change, kind: Kind, ns: string)
    ensures Snapshot(Applied(objects, c), kind, ns) ==
            if Concerns(c, kind, ns) then Applied(Snapshot(objects, kind, ns), c) else Snapshot(objects, kind, ns)
  {}

  /** Replaying the changes from `lo` on, none of which concerns the snapshot. */
  lemma {:induction false} SnapshotStays(history: seq<Change>, lo: nat, hi: nat, kind: Kind, ns: string)
    requires lo <= hi <= |history|
    requires forall i | lo <= i < hi :: !Concerns(history[i], kind, ns)
    ensures Snapshot(Replay(history[..hi]), kind, ns) == Snapshot(Replay(history[..lo]), kind, ns)
    decreases hi
  {
    if lo < hi {
      SnapshotStays(history, lo, hi - 1, kind, ns);
      assert history[..hi] == history[..hi - 1] + [history[hi - 1]];
      ReplayAppend(history[..hi - 1], history[hi - 1]);
      SnapshotApplied(Replay(history[..hi - 1]), history[hi - 1], kind, ns);
    }
  }

  lemma {:induction false} UpToIsPrefix(history: seq<Change>, i: nat)
    requires i < |history|
    requires forall i, j | 0 <= i < j < |history| :: history[i].version < history[j].version
    ensures UpTo(history, history[i].version) == history[..i + 1]
  {
    if i > 0 {
      UpToIsPrefix(history[1..], i - 1);
      assert history[..i + 1] == [history[0]] + history[1..][..i];
    } else if |history| > 1 {
      assert history[1..][0].version > history[0].version;
    }
  }

  /** Changes newer than the list lie behind the listed history. */
  lemma {:induction false} NewerLiesBehind(before: Store, after: Store, i: nat)
    requires before.Valid() && before.history <= after.history
    requires i < |after.history| && after.history[i].version > before.version
    ensures i >= |before.history|
  {
    assert forall k | 0 <= k < |before.history| :: after.history[k] == before.history[k];
  }

  /** No change of the listed kind lies between the list and the event. */
  lemma {:induction false} NothingBetween(before: Store, after: Store, kind: Kind, ns: string, i: nat)
    requires after.Valid() && i < |after.history|
    requires forall k | |before.history| <= k < |after.history| :: after.history[k].version > before.version
    requires IsEarliest(after, kind, ns, before.version, Some(after.history[i]))
    ensures forall j | |before.history| <= j < i :: !Concerns(after.history[j], kind, ns)
  {
    forall j | |before.history| <= j < i
      ensures !Concerns(after.history[j], kind, ns)
    {
      assert after.history[j] in after.history && after.history[j].version < after.history[i].version;
      assert !Qualifies(after.history[j], kind, ns, before.version);
    }
  }

  lemma {:induction false} ReplayedToEvent(h: seq<Change>, n: nat, i: nat, kind: Kind, ns: string)
    requires n <= i < |h| && Concerns(h[i], kind, ns)
    requires forall j | n <= j < i :: !Concerns(h[j], kind, ns)
    ensures Snapshot(Replay(h[..i + 1]), kind, ns) == Applied(Snapshot(Replay(h[..n]), kind, ns), h[i])
  {
    SnapshotStays(h, n, i, kind, ns);
    assert h[..i + 1] == h[..i] + [h[i]];
    ReplayAppend(h[..i], h[i]);
    SnapshotApplied(Replay(h[..i]), h[i], kind, ns);
  }

  lemma {:induction false} WatchIsGapFree(before: Store, after: Store, kind: Kind, ns: string, w: Watched)
    requires before.Valid() && after.Valid() && before.history <= after.history
    requires forall i | |before.history| <= i < |after.history| :: after.history[i].version > before.version
    requires w.since == before.version
    requires w.event.Ok? ==> IsEarliest(after, kind, ns, w.since, Some(w.event.value))
    requires w.listed == Some(Snapshot(before.Objects(), ListedKind(kind), ns))
    ensures GapFree(after, kind, ns, w)
  {
    if w.event.Ok? {
      var h := after.history;
      var i :| 0 <= i < |h| && h[i] == w.event.value;
      NewerLiesBehind(before, after, i);
      NothingBetween(before, after, kind, ns, i);
      assert h[..|before.history|] == before.history;
      ReplayedToEvent(h, |before.history|, i, kind, ns);
      UpToIsPrefix(h, i);
    }
  }
}
