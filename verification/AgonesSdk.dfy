/** SendRequestAsync of AgonesSdk.cs and the cache of request bodies that all sends share. */
module AgonesSdk {
  import opened Basics

  const EMPTY_BODY := "{}"

  /** The static dictionary: request text to the text of the stored content. */
  class JsonCache {
    var entries: map<string, string>

    constructor ()
      ensures entries == map[]
    {
      entries := map[];
    }

    method TryAdd(key: string, text: string)
      modifies this
      ensures entries == Added(old(entries), key, text)
    {
      if key !in entries {
        entries := entries[key := text];
      }
    }
  }

  /** ConcurrentDictionary.TryAdd never replaces. */
  function Added(entries: map<string, string>, key: string, text: string): map<string, string> {
    if key in entries then entries else entries[key := text]
  }

  function Found(entries: map<string, string>, key: string): Option<string> {
    if key in entries then Some(entries[key]) else None
  }

  const OK := 200

  /** What comes back for a request: an exception of the client, or a status and a text. */
  datatype Transport = NoAnswer | Answer(status: int, content: string)

  class AgonesSdk {
    const jsonCache: JsonCache

    constructor (jsonCache: JsonCache)
      modifies jsonCache
      ensures this.jsonCache == jsonCache
      ensures jsonCache.entries == Added(old(jsonCache.entries), "{}", "{}")
    {
      this.jsonCache := jsonCache;
      new;
      jsonCache.TryAdd(EMPTY_BODY, EMPTY_BODY);
    }

    /**
     * The body that goes with the request, if any, and the result of the call. A miss stores the
     * content without attaching it. `decode` is the JSON reader: a response, null, or an exception.
     */
    method SendRequestAsync(json: string, useCache: bool, cancelled: bool, transport: Transport,
                            decode: string -> Result<Option<string>, ()>)
      returns (content: Option<string>, ok: bool, response: Option<string>)
      modifies jsonCache
      ensures content == if useCache && !cancelled then Found(old(jsonCache.entries), json) else None
      ensures jsonCache.entries ==
              if useCache && !cancelled then Added(old(jsonCache.entries), json, json) else old(jsonCache.entries)
      ensures ok <==> !cancelled && transport.Answer? && transport.status == 200 && decode(transport.content).Ok?
      ensures response == if !cancelled && transport.Answer? && decode(transport.content).Ok?
                          then decode(transport.content).value else None
    {
      content, ok, response := None, false, None;
      if cancelled {
        return;
      }
      if useCache {
        if json in jsonCache.entries {
          content := Some(jsonCache.entries[json]);
        } else {
          jsonCache.TryAdd(json, json);
        }
      }
      if transport.NoAnswer? {
        return;
      }
      var decoded := decode(transport.content);
      if decoded.Err? {
        return;
      }
      response := decoded.value;
      ok := transport.status == OK;
    }
  }

  // ---- Sends that overlap: looking up and storing are separate steps ----

  datatype CacheStep = Lookup(json: string) | Store(json: string) | NewSdk

  function Do(entries: map<string, string>, step: CacheStep): map<string, string> {
    match step
    case Lookup(_) => entries
    case Store(json) => Added(entries, json, json)
    case NewSdk => Added(entries, EMPTY_BODY, EMPTY_BODY)
  }

  /** The cache after some steps of any number of SDK instances and sends, interleaved in any way. */
  function Cache(steps: seq<CacheStep>): map<string, string> {
    if steps == [] then map[] else Do(Cache(steps[..|steps| - 1]), steps[|steps| - 1])
  }

  predicate Puts(step: CacheStep, json: string) {
    step == Store(json) || (step.NewSdk? && json == EMPTY_BODY)
  }

  /** The cache holds exactly the texts stored so far, each under itself. */
  lemma {:induction false} CacheHoldsStored(steps: seq<CacheStep>, json: string)
    ensures Found(Cache(steps), json) ==
            if exists i | 0 <= i < |steps| :: Puts(steps[i], json) then Some(json) else None
  {
    if steps != [] {
      var before, last := steps[..|steps| - 1], steps[|steps| - 1];
      CacheHoldsStored(before, json);
      assert forall i | 0 <= i < |before| :: steps[i] == before[i];
    }
  }

  /** What the send whose lookup is step `i` attaches. */
  function Attached(steps: seq<CacheStep>, i: nat): Option<string>
    requires i < |steps| && steps[i].Lookup?
  {
    Found(Cache(steps[..i]), steps[i].json)
  }

  /**
   * In every interleaving, a send attaches its own text or nothing, and it attaches exactly when
   * some earlier send had stored that text; "{}" is there from the first SDK instance on.
   */
  lemma {:induction false} AttachedIffStored(steps: seq<CacheStep>, i: nat)
    requires i < |steps| && steps[i].Lookup?
    ensures Attached(steps, i) ==
            if exists j | 0 <= j < i :: Puts(steps[j], steps[i].json) then Some(steps[i].json) else None
    ensures steps[0].NewSdk? && steps[i].json == "{}" ==> Attached(steps, i) == Some("{}")
  {
    CacheHoldsStored(steps[..i], steps[i].json);
    assert forall j | 0 <= j < i :: steps[..i][j] == steps[j];
    assert steps[0].NewSdk? && steps[i].json == EMPTY_BODY ==> Puts(steps[0], EMPTY_BODY);
  }

  // ---- Sends one after the other ----

  /** The bodies attached by a sequence of cached sends, each finished before the next. */
  function Bodies(entries: map<string, string>, jsons: seq<string>): seq<Option<string>>
    decreases |jsons|
  {
    if jsons == [] then []
    else [Found(entries, jsons[0])] + Bodies(Added(entries, jsons[0], jsons[0]), jsons[1..])
  }

  /** A body other than "{}" is attached exactly from its second send on. */
  lemma {:induction false} SecondSendAttaches(entries: map<string, string>, jsons: seq<string>, i: nat)
    requires i < |jsons|
    requires forall k <- entries :: entries[k] == k
    ensures |Bodies(entries, jsons)| == |jsons|
    ensures Bodies(entries, jsons)[i] == if jsons[i] in entries || jsons[i] in jsons[..i] then Some(jsons[i]) else None
    decreases |jsons|
  {
    if i > 0 {
      SecondSendAttaches(Added(entries, jsons[0], jsons[0]), jsons[1..], i - 1);
      assert jsons[..i] == [jsons[0]] + jsons[1..][..i - 1];
    } else if |jsons| > 1 {
      SecondSendAttaches(Added(entries, jsons[0], jsons[0]), jsons[1..], 0);
    }
  }

  /** The first send of a new body goes out without any, although the cache is there to provide it. */
  lemma {:induction false} FirstSendIsBare(json: string)
    requires json != "{}"
    ensures Bodies(map["{}" := "{}"], [json, json]) == [None, Some(json)]
  {
    var seeded := map[EMPTY_BODY := EMPTY_BODY];
    SecondSendAttaches(seeded, [json, json], 0);
    SecondSendAttaches(seeded, [json, json], 1);
  }

  /** The cached POSTs of one instance, one after the other, whatever is answered. */
  method SendAll(sdk: AgonesSdk, jsons: seq<string>, answers: nat -> Transport,
                 decode: string -> Result<Option<string>, ()>)
    returns (bodies: seq<Option<string>>)
    modifies sdk.jsonCache
    ensures bodies == Bodies(old(sdk.jsonCache.entries), jsons)
  {
    bodies := [];
    for i := 0 to |jsons|
      invariant bodies + Bodies(sdk.jsonCache.entries, jsons[i..]) == Bodies(old(sdk.jsonCache.entries), jsons)
    {
      assert jsons[i..][1..] == jsons[i + 1..];
      var body, _, _ := sdk.SendRequestAsync(jsons[i], true, false, answers(i), decode);
      bodies := bodies + [body];
    }
  }
}
