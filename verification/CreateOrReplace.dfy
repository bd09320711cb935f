/** CreateOrReplacePodHttpAsync and its Deployment and Job twins: list, then one PUT or POST. */
module CreateOrReplace {
  import opened Basics
  import opened ApiServer

  /** The metadata of the posted manifest; a manifest without metadata is possible, and so is metadata without name. */
  datatype Metadata = NoMetadata | NoName | Name(name: string)

  datatype Manifest = Manifest(metadata: Metadata, body: string)

  datatype Request = ListRequest(kind: Kind, ns: string) | PutRequest(key: Key) | PostRequest(kind: Kind, ns: string)

  datatype CallError = ListFailed | NullReference | WriteFailed | BadResponse

  /**
   * What the world does around one call: whether the list call or its decoding fails, what other
   * clients write between the list and the write, whether the server refuses the write for
   * reasons of its own, and whether the response of the write can be decoded.
   */
  datatype Surroundings = Surroundings(listFails: bool, between: seq<Op>, refused: bool, responseDecodes: bool)

  /** Which bodies a label selector selects; an empty selector selects all. */
  datatype Selector = Everything | Matching(selects: string -> bool) {
    predicate Shows(body: string) {
      Everything? || selects(body)
    }
  }

  /** The names that listing a kind in a namespace shows. */
  function Listed(s: Store, kind: Kind, ns: string, selector: Selector): set<string> {
    set key | key in s.Objects() && key.kind == kind && key.ns == ns && selector.Shows(s.Objects()[key]) :: key.name
  }

  /** The write that follows a list; none when looking for the name dereferences null. */
  function Decide(listed: set<string>, kind: Kind, ns: string, m: Manifest): Option<Request> {
    if m.metadata.NoMetadata? && listed != {} then None
    else if m.metadata.Name? && m.metadata.name in listed then Some(PutRequest(Key(kind, ns, m.metadata.name)))
    else Some(PostRequest(kind, ns))
  }

  /** What the server makes of a write request: a POST takes the name from the manifest, which must have one. */
  function OpOf(request: Request, m: Manifest): Option<Op> {
    match request
    case PutRequest(key) => Some(Put(key, m.body))
    case PostRequest(kind, ns) => if m.metadata.Name? then Some(Post(Key(kind, ns, m.metadata.name), m.body)) else None
    case ListRequest(_, _) => None
  }

  predicate Takes(s: Store, request: Request, m: Manifest, refused: bool) {
    !refused && OpOf(request, m).Some? && s.Accepts(OpOf(request, m).value)
  }

  /** How a call ends: the store, the requests sent, whether this client's write took effect, and the result. */
  datatype Ended = Ended(store: Store, sent: seq<Request>, wrote: bool, result: Result<string, CallError>)

  function Call(s: Store, kind: Kind, ns: string, m: Manifest, selector: Selector, w: Surroundings): Ended {
    var list := ListRequest(kind, ns);
    if w.listFails then Ended(s, [list], false, Err(ListFailed))
    else
      var t := s.PerformAll(w.between);
      match Decide(Listed(s, kind, ns, selector), kind, ns, m)
      case None => Ended(t, [list], false, Err(NullReference))
      case Some(request) =>
        if !Takes(t, request, m, w.refused) then Ended(t, [list, request], false, Err(WriteFailed))
        else Ended(t.Perform(OpOf(request, m).value), [list, request], true,
                   if w.responseDecodes then Ok(m.body) else Err(BadResponse))
  }

  method SendWrite(server: Server, request: Request, m: Manifest, refused: bool) returns (ok: bool)
    modifies server
    ensures ok == Takes(old(server.store), request, m, refused)
    ensures server.store ==
            if ok then old(server.store).Perform(OpOf(request, m).value) else old(server.store)
  {
    var op := OpOf(request, m);
    if op.None? {
      return false;
    }
    ok := server.Write(op.value, refused);
  }

  method CreateOrReplaceHttpAsync(server: Server, kind: Kind, ns: string, m: Manifest, selector: Selector,
                                  w: Surroundings)
    returns (result: Result<string, CallError>, sent: seq<Request>, wrote: bool)
    modifies server
    ensures Ended(server.store, sent, wrote, result) == Call(old(server.store), kind, ns, m, selector, w)
  {
    wrote := false;
    sent := [ListRequest(kind, ns)];
    if w.listFails {
      return Err(ListFailed), sent, false;
    }
    var listed := Listed(server.store, kind, ns, selector);
    server.OtherClients(w.between);
    var request := Decide(listed, kind, ns, m);
    if request.None? {
      return Err(NullReference), sent, false;
    }
    sent := sent + [request.value];
    wrote := SendWrite(server, request.value, m, w.refused);
    if !wrote {
      result := Err(WriteFailed);
    } else if !w.responseDecodes {
      result := Err(BadResponse);
    } else {
      result := Ok(m.body);
    }
  }

  // ---- What a call does ----

  predicate Writes(r: Request) {
    !r.ListRequest?
  }

  function WriteRequest(r: Request): Option<Request> {
    if Writes(r) then Some(r) else None
  }

  /** Once the list has been searched, exactly one write request is sent. */
  lemma {:induction false} ExactlyOneWrite(s: Store, kind: Kind, ns: string, m: Manifest, selector: Selector,
                                           w: Surroundings)
    ensures var found := !w.listFails && !(m.metadata.NoMetadata? && Listed(s, kind, ns, selector) != {});
            |Collect(Call(s, kind, ns, m, selector, w).sent, WriteRequest)| == if found then 1 else 0
  {
    var request := Decide(Listed(s, kind, ns, selector), kind, ns, m);
    CountListAlone(kind, ns);
    if request.Some? {
      CountListAndWrite(kind, ns, request.value);
    }
  }

  /**
   * With other clients writing in between, the write binds the name to the body and touches
   * nothing else, or the call fails having changed nothing itself. Only a write that took effect
   * can be reported as done.
   */
  lemma {:induction false} WriteOrNoChange(s: Store, kind: Kind, ns: string, m: Manifest, selector: Selector,
                                           w: Surroundings)
    ensures var e := Call(s, kind, ns, m, selector, w);
            var t := if w.listFails then s else s.PerformAll(w.between);
            && (e.wrote ==> m.metadata.Name?)
            && (e.wrote ==> e.store.Objects() == t.Objects()[Key(kind, ns, m.metadata.name) := m.body])
            && (!e.wrote ==> e.store == t && e.result.Err?)
            && (e.result.Ok? <==> e.wrote && w.responseDecodes)
  {
    var request := Decide(Listed(s, kind, ns, selector), kind, ns, m);
    if request.Some? && OpOf(request.value, m).Some? {
      PerformObjects(s.PerformAll(w.between), OpOf(request.value, m).value);
    }
  }

  /** The requests of a call: a list, and then a PUT of a name that was listed, or else a POST. */
  lemma {:induction false} SentExactly(s: Store, kind: Kind, ns: string, m: Manifest, selector: Selector,
                                       w: Surroundings)
    ensures var listed := Listed(s, kind, ns, selector);
            Call(s, kind, ns, m, selector, w).sent ==
            [ListRequest(kind, ns)]
            + (if w.listFails || (m.metadata.NoMetadata? && listed != {}) then []
               else if m.metadata.Name? && m.metadata.name in listed then [PutRequest(Key(kind, ns, m.metadata.name))]
               else [PostRequest(kind, ns)])
  {}

  /** The result of a call, by what went wrong first. */
  lemma {:induction false} ResultExactly(s: Store, kind: Kind, ns: string, m: Manifest, selector: Selector,
                                         w: Surroundings)
    ensures var e := Call(s, kind, ns, m, selector, w);
            e.result == if w.listFails then Err(ListFailed)
                        else if m.metadata.NoMetadata? && Listed(s, kind, ns, selector) != {} then Err(NullReference)
                        else if !e.wrote then Err(WriteFailed)
                        else if !w.responseDecodes then Err(BadResponse)
                        else Ok(m.body)
  {}

  lemma {:induction false} CountListAlone(kind: Kind, ns: string)
    ensures Collect([ListRequest(kind, ns)], WriteRequest) == []
  {
    CollectAppend([], ListRequest(kind, ns), WriteRequest);
    assert [] + [ListRequest(kind, ns)] == [ListRequest(kind, ns)];
  }

  lemma {:induction false} CountListAndWrite(kind: Kind, ns: string, request: Request)
    requires Writes(request)
    ensures |Collect([ListRequest(kind, ns), request], WriteRequest)| == 1
  {
    CountListAlone(kind, ns);
    CollectAppend([ListRequest(kind, ns)], request, WriteRequest);
    assert [ListRequest(kind, ns)] + [request] == [ListRequest(kind, ns), request];
  }

  /** The exact race: the write takes effect when the listing is still right about the name, and fails otherwise. */
  lemma {:induction false} WritesIffListingHolds(s: Store, kind: Kind, ns: string, name: string, body: string,
                                                 selector: Selector, w: Surroundings)
    requires !w.listFails
    ensures var e := Call(s, kind, ns, Manifest(Name(name), body), selector, w);
            var existsAtWrite := Key(kind, ns, name) in s.PerformAll(w.between).Objects();
            e.wrote == (!w.refused && (name in Listed(s, kind, ns, selector)) == existsAtWrite)
  {}

  /** A name is listed exactly when the object exists and the selector shows it. */
  lemma {:induction false} ListedIff(s: Store, kind: Kind, ns: string, selector: Selector, name: string)
    ensures var key := Key(kind, ns, name);
            name in Listed(s, kind, ns, selector) <==> key in s.Objects() && selector.Shows(s.Objects()[key])
  {
    var key := Key(kind, ns, name);
    if key in s.Objects() && selector.Shows(s.Objects()[key]) {
      assert key.name in Listed(s, kind, ns, selector);
    }
  }

  /**
   * Undisturbed, the call is a map update, unless the selector hides an existing object: then the
   * name looks free, the POST conflicts, and nothing changes.
   */
  lemma {:induction false} RefinesMapUpdate(s: Store, kind: Kind, ns: string, name: string, body: string,
                                            selector: Selector)
    ensures var e := Call(s, kind, ns, Manifest(Name(name), body), selector, Surroundings(false, [], false, true));
            var key := Key(kind, ns, name);
            if key in s.Objects() && !selector.Shows(s.Objects()[key])
            then e.store == s && e.result == Err(WriteFailed)
            else e.store.Objects() == s.Objects()[key := body] && e.result == Ok(body)
  {
    ListedIff(s, kind, ns, selector, name);
    var w := Surroundings(false, [], false, true);
    WritesIffListingHolds(s, kind, ns, name, body, selector, w);
    WriteOrNoChange(s, kind, ns, Manifest(Name(name), body), selector, w);
  }

  /** Two undisturbed calls: the second one replaces what the first one put, whatever was there. */
  lemma {:induction false} SecondCallReplaces(s: Store, kind: Kind, ns: string, name: string, first: string,
                                              second: string)
    ensures var w := Surroundings(false, [], false, true);
            var after := Call(s, kind, ns, Manifest(Name(name), first), Everything, w);
            var again := Call(after.store, kind, ns, Manifest(Name(name), second), Everything, w);
            && again.sent == [ListRequest(kind, ns), PutRequest(Key(kind, ns, name))]
            && again.store.Objects() == s.Objects()[Key(kind, ns, name) := second]
  {
    var w := Surroundings(false, [], false, true);
    var after := Call(s, kind, ns, Manifest(Name(name), first), Everything, w);
    RefinesMapUpdate(s, kind, ns, name, first, Everything);
    RefinesMapUpdate(after.store, kind, ns, name, second, Everything);
    ListedIff(after.store, kind, ns, Everything, name);
  }

  /** One pod that the selector does not show: the call conflicts and the pod stays as it was. */
  lemma {:induction false} HiddenPodConflicts(body: string)
    ensures var s := Store(1, [Added(1, Key(Pod, "default", "web"), "old")]);
            var w := Surroundings(false, [], false, true);
            var e := Call(s, Pod, "default", Manifest(Name("web"), body), Matching(_ => false), w);
            e.store == s && e.result == Err(WriteFailed)
  {
    var key := Key(Pod, "default", "web");
    var history := [Added(1, key, "old")];
    assert history == [] + history;
    ReplayAppend([], history[0]);
    assert Replay(history) == map[key := "old"];
    RefinesMapUpdate(Store(1, history), Pod, "default", "web", body, Matching(_ => false));
  }
}
