/**
 * WatcherDelegatingHandler.cs and the GET calls of Kubernetes.cs: the response body of a watch
 * is replaced by its first line, and the reader that peeked that line is kept for Watch.Execute.
 */
module WatchHandler {
  import opened Basics
  import opened TextLines
  import opened PeekableReader
  import opened Query
  import opened WatchDetection

  datatype HttpMethod = Get | Post | Put | Delete

  datatype HttpError = ReadError | StatusError

  class LineSeparatedHttpContent {
    const origin: Source
    var streamReader: PeekableStreamReader?

    constructor (origin: Source)
      ensures this.origin == origin && streamReader == null
    {
      this.origin := origin;
      streamReader := null;
    }

    /** Writes the first line of the origin, without its break; nothing when the origin is empty. */
    method SerializeToStreamAsync() returns (body: Result<string, HttpError>)
      modifies this
      ensures streamReader != null && fresh(streamReader) && streamReader.Valid()
      ensures streamReader.View() == ScriptOf(origin)
      ensures body == FirstLineBody(origin)
    {
      streamReader := new PeekableStreamReader(origin);
      var firstLine := streamReader.PeekLineAsync();
      match firstLine {
        case Line(line) => body := Ok(line);
        case End => body := Ok("");
        case Failed => body := Err(ReadError);
      }
    }
  }

  function FirstLineBody(origin: Source): Result<string, HttpError> {
    match Next(ScriptOf(origin)).0
    case Line(line) => Ok(line)
    case End => Ok("")
    case Failed => Err(ReadError)
  }

  /** Content is the origin itself, or the line-separated wrapper when there is one. */
  class HttpResponseMessage {
    const success: bool
    const origin: Source
    var separated: LineSeparatedHttpContent?

    constructor (success: bool, origin: Source)
      ensures this.success == success && this.origin == origin && separated == null
    {
      this.success := success;
      this.origin := origin;
      separated := null;
    }
  }

  /** The delegating handler, given the response of the inner handler. */
  method SendAsync(originResponse: HttpResponseMessage, httpMethod: HttpMethod, query: string)
    requires originResponse.separated == null
    modifies originResponse
    ensures originResponse.separated != null <==>
            originResponse.success && httpMethod.Get? && IsWatchQuery(query)
    ensures var content := originResponse.separated;
            content != null ==>
              fresh(content) && content.origin == originResponse.origin && content.streamReader == null
  {
    if originResponse.success && httpMethod.Get? {
      var index := IndexOf(query, PATTERN);
      if index > 0 && (query[index - 1] == '&' || query[index - 1] == '?') {
        originResponse.separated := new LineSeparatedHttpContent(originResponse.origin);
      }
    }
  }

  /** The whole text of a body, or the failure of the connection that carries it. */
  function WholeText(origin: Source): Result<string, HttpError> {
    if origin.broken then Err(ReadError) else Ok(origin.text)
  }

  predicate Watched(success: bool, ps: seq<Param>) {
    success && IsWatchQuery(Render(ps))
  }

  /** The text GetApiAsync returns; buffering the body comes before the check of the status. */
  function ListContent(success: bool, origin: Source, ps: seq<Param>): Result<string, HttpError> {
    var body := if Watched(success, ps) then FirstLineBody(origin) else WholeText(origin);
    if body.Err? then body else if success then body else Err(StatusError)
  }

  /** GetApiAsync: sends, buffers the body, checks the status and returns the body. */
  method GetApiAsync(query: StringBuilder?, success: bool, origin: Source, ghost ps: seq<Param>)
    returns (content: Result<string, HttpError>, res: HttpResponseMessage)
    requires if query == null then ps == [] else query.text == Render(ps)
    ensures fresh(res) && res.success == success && res.origin == origin
    ensures content == ListContent(success, origin, ps)
    ensures !Watched(success, ps) ==>
              content == if origin.broken then Err(ReadError) else if success then Ok(origin.text) else Err(StatusError)
    ensures Watched(success, ps) ==>
              content == if Lines(origin) != [] then Ok(Lines(origin)[0])
                         else if origin.broken then Err(ReadError) else Ok("")
    ensures res.separated != null <==> Watched(success, ps)
    ensures Watched(success, ps) ==>
      var reader := res.separated.streamReader;
      reader != null && fresh(reader) && reader.Valid() && reader.View() == ScriptOf(origin)
  {
    var url := new UriBuilder();
    SetQuery(url, query);
    assert url.query == Render(ps);
    res := new HttpResponseMessage(success, origin);
    SendAsync(res, Get, url.query);
    if res.separated != null {
      content := res.separated.SerializeToStreamAsync();
    } else {
      content := WholeText(origin);
    }
    if content.Ok? && !res.success {
      content := Err(StatusError);
    }
  }

  /** What one ReadLineAsync on a stream gives its caller; the end of the stream is null. */
  function PlainFirstLine(origin: Source): Result<Option<string>, HttpError> {
    match Next(ScriptOf(origin)).0
    case Line(line) => Ok(Some(line))
    case End => Ok(None)
    case Failed => Err(ReadError)
  }

  /** What GetStreamApiAsync returns for a watch: a second reader takes its line from the body of the first. */
  function StreamContent(origin: Source): Result<Option<string>, HttpError> {
    match FirstLineBody(origin)
    case Ok(body) => PlainFirstLine(Source(body, false))
    case Err(e) => Err(e)
  }

  lemma {:induction false} FirstLineBreakFree(s: Source)
    ensures var (r, _) := ReadLine(s);
            r.Line? ==> BreakFree(r.line)
  {
    BreakAtFirst(s.text);
  }

  lemma {:induction false} RereadLine(line: string)
    requires BreakFree(line)
    ensures ReadLine(Source(line, false)).0 == if line == "" then End else Line(line)
  {
    BreakAtIs(line, |line|);
  }

  /**
   * GetStreamApiAsync: the status is checked first, then the stream of the content is read.
   * For a watch that stream holds the peeked line only, so a second reader takes the line
   * from a body that no longer ends in a break.
   */
  method GetStreamApiAsync(query: StringBuilder?, success: bool, origin: Source, ghost ps: seq<Param>)
    returns (content: Result<Option<string>, HttpError>, res: HttpResponseMessage)
    requires if query == null then ps == [] else query.text == Render(ps)
    ensures fresh(res) && res.success == success && res.origin == origin
    ensures !success ==> content == Err(StatusError)
    ensures res.separated != null <==> Watched(success, ps)
    ensures Watched(success, ps) ==> content == StreamContent(origin)
    ensures Watched(success, ps) ==>
      var reader := res.separated.streamReader;
      reader != null && fresh(reader) && reader.Valid() && reader.View() == ScriptOf(origin)
    ensures success && !Watched(success, ps) ==> content == PlainFirstLine(origin)
  {
    var url := new UriBuilder();
    SetQuery(url, query);
    assert url.query == Render(ps);
    res := new HttpResponseMessage(success, origin);
    SendAsync(res, Get, url.query);
    if !res.success {
      return Err(StatusError), res;
    }
    var stream := origin;
    if res.separated != null {
      var body := res.separated.SerializeToStreamAsync();
      if body.Err? {
        return Err(ReadError), res;
      }
      stream := Source(body.value, false);
    }
    var reader := new PeekableStreamReader(stream);
    var line := reader.ReadLineAsync();
    match line {
      case Line(l) => content := Ok(Some(l));
      case End => content := Ok(None);
      case Failed => content := Err(ReadError);
    }
  }

  /** The body of a watch, read again. */
  lemma {:induction false} BodyRead(origin: Source)
    requires Lines(origin) != []
    ensures var line := Lines(origin)[0];
            StreamContent(origin) == Ok(if line == "" then None else Some(line))
  {
    var line := Lines(origin)[0];
    ReadLineIsNext(origin);
    FirstLineBreakFree(origin);
    ReadLineIsNext(Source(line, false));
    RereadLine(line);
  }

  /**
   * The first line passes through two readers, the peeked body between them. It arrives as a
   * single reader would deliver it exactly when it is not empty; an empty one arrives as the
   * null of an empty stream. Without any line both readers agree.
   */
  lemma {:induction false} TwoLayerFirstLine(origin: Source)
    ensures StreamContent(origin) == PlainFirstLine(origin) <==> (Lines(origin) == [] || Lines(origin)[0] != "")
    ensures Lines(origin) != [] && Lines(origin)[0] == "" ==>
              StreamContent(origin) == Ok(None) && PlainFirstLine(origin) == Ok(Some(""))
  {
    if Lines(origin) != [] {
      BodyRead(origin);
    } else if !origin.broken {
      ReadLineIsNext(Source("", false));
    }
  }

  /** A response that opens with an empty line: a plain read sees the line, the watch path sees null. */
  lemma {:induction false} EmptyFirstLine(rest: string)
    ensures PlainFirstLine(Source("\n" + rest, false)) == Ok(Some(""))
    ensures StreamContent(Source("\n" + rest, false)) == Ok(None)
  {
    var s := Source("\n" + rest, false);
    assert s.text[0] == '\n';
    BreakAtIs(s.text, 0);
    ReadLineIsNext(s);
    assert s.text[..0] == "";
    TwoLayerFirstLine(s);
  }
}
