/** The query builder of Kubernetes.cs and the request queries of its Pod, Deployment and Job parts. */
module Query {
  import opened Basics
  import opened Percent
  import Decimal

  /** A null value is None; the builder treats it like the empty one. */
  datatype Param = Param(key: string, value: Option<string>)

  function Text(value: Option<string>): string {
    if value.Some? then value.value else ""
  }

  function Pair(p: Param): string {
    EscapeDataString(p.key) + "=" + EscapeDataString(Text(p.value))
  }

  /** The parameters in order, the first one led by `lead`, the others by '&'. */
  function Rendered(ps: seq<Param>, lead: char): string {
    if ps == [] then "" else Segment(lead, ps[0]) + Rendered(ps[1..], '&')
  }

  function Render(ps: seq<Param>): string {
    Rendered(ps, '?')
  }

  /** One parameter with the separator in front of it. */
  function Segment(lead: char, p: Param): string {
    [lead] + Pair(p)
  }

  lemma {:induction false} RenderedCons(p: Param, ps: seq<Param>, lead: char)
    ensures Rendered([p] + ps, lead) == Segment(lead, p) + Rendered(ps, '&')
  {
    assert ([p] + ps)[1..] == ps;
  }

  lemma {:induction false} RenderedAppend(ps: seq<Param>, p: Param, lead: char)
    ensures Rendered(ps + [p], lead) == Rendered(ps, lead) + Segment(if ps == [] then lead else '&', p)
    decreases |ps|
  {
    if ps == [] {
      RenderedCons(p, [], lead);
      assert ps + [p] == [p] + [];
      assert Rendered(ps, lead) == "" && Rendered([], '&') == "";
    } else {
      RenderedAppend(ps[1..], p, '&');
      RenderedCons(ps[0], ps[1..] + [p], lead);
      RenderedCons(ps[0], ps[1..], lead);
      assert ps + [p] == [ps[0]] + (ps[1..] + [p]) && ps == [ps[0]] + ps[1..];
      Regrouped(Segment(lead, ps[0]), Rendered(ps[1..], '&'), Segment('&', p));
    }
  }

  // ---- Reading a query back ----

  function ParsePair(t: string): Option<(string, string)> {
    var k := IndexOfChar(t, '=');
    if k == |t| then None
    else
      match (Unescape(t[..k]), Unescape(t[k + 1..]))
      case (Some(key), Some(value)) => Some((key, value))
      case _ => None
  }

  function ParsePairs(parts: seq<string>): Option<seq<(string, string)>> {
    if parts == [] then Some([])
    else
      match (ParsePair(parts[0]), ParsePairs(parts[1..]))
      case (Some(p), Some(rest)) => Some([p] + rest)
      case _ => None
  }

  /** A server's reading: drop the '?', split at '&', split each part at its first '=', decode both sides. */
  function ParseQuery(query: string): Option<seq<(string, string)>> {
    if query == "" then Some([])
    else if query[0] != '?' then None
    else ParsePairs(Split(query[1..], '&'))
  }

  function Sent(ps: seq<Param>): seq<(string, string)> {
    if ps == [] then [] else [(ps[0].key, Text(ps[0].value))] + Sent(ps[1..])
  }

  lemma {:induction false} NoSeparators(s: string)
    ensures '&' !in EscapeDataString(s) && '=' !in EscapeDataString(s) && '?' !in EscapeDataString(s)
  {
    EscapeAlphabet(s);
  }

  lemma {:induction false} ParsePairRoundTrip(p: Param)
    ensures '&' !in Pair(p)
    ensures ParsePair(Pair(p)) == Some((p.key, Text(p.value)))
  {
    var k, v := EscapeDataString(p.key), EscapeDataString(Text(p.value));
    NoSeparators(p.key);
    NoSeparators(Text(p.value));
    assert Pair(p)[..|k|] == k && Pair(p)[|k| + 1..] == v;
    IndexOfCharIs(Pair(p), '=', |k|);
    EscapeRoundTrip(p.key);
    EscapeRoundTrip(Text(p.value));
  }

  lemma {:induction false} ParsePairsRoundTrip(ps: seq<Param>)
    requires ps != []
    ensures ParsePairs(Split(Rendered(ps, '&')[1..], '&')) == Some(Sent(ps))
    decreases |ps|
  {
    var pair, tail := Pair(ps[0]), Rendered(ps[1..], '&');
    DropLead('&', pair, tail);
    ParsePairRoundTrip(ps[0]);
    if ps[1..] == [] {
      SplitOne(pair, '&');
      assert pair + "" == pair;
      ParsePairsCons(pair, []);
    } else {
      ParsePairsRoundTrip(ps[1..]);
      DropLead('&', Pair(ps[1]), Rendered(ps[1..][1..], '&'));
      SplitAtTail(pair, tail);
      ParsePairsCons(pair, Split(tail[1..], '&'));
    }
  }

  lemma {:induction false} SplitAtTail(pair: string, tail: string)
    requires '&' !in pair && tail != "" && tail[0] == '&'
    ensures Split(pair + tail, '&') == [pair] + Split(tail[1..], '&')
  {
    assert pair + tail == pair + ['&'] + tail[1..];
    SplitCons(pair, tail[1..], '&');
  }

  lemma {:induction false} ParsePairsCons(part: string, parts: seq<string>)
    requires ParsePair(part).Some? && ParsePairs(parts).Some?
    ensures ParsePairs([part] + parts) == Some([ParsePair(part).value] + ParsePairs(parts).value)
  {
    assert ([part] + parts)[1..] == parts;
  }

  /** A server reads back exactly the parameters that were added, in order; null and empty values agree. */
  lemma {:induction false} QueryRoundTrip(ps: seq<Param>)
    ensures ParseQuery(Render(ps)) == Some(Sent(ps))
  {
    if ps != [] {
      ParsePairsRoundTrip(ps);
      LeadDoesNotMatter(ps);
    }
  }

  lemma {:induction false} LeadDoesNotMatter(ps: seq<Param>)
    requires ps != []
    ensures Render(ps) != "" && Render(ps)[0] == '?' && Render(ps)[1..] == Rendered(ps, '&')[1..]
  {
    DropLead('?', Pair(ps[0]), Rendered(ps[1..], '&'));
    DropLead('&', Pair(ps[0]), Rendered(ps[1..], '&'));
  }

  lemma {:induction false} DropLead(c: char, a: string, b: string)
    ensures var s := [c] + a + b; s != "" && s[0] == c && s[1..] == a + b
  {}

  // ---- The builder ----

  datatype ArgumentNull = ArgumentNull(name: string)

  class StringBuilder {
    var text: string

    constructor ()
      ensures text == ""
    {
      text := "";
    }

    method Append(s: string)
      modifies this
      ensures text == old(text) + s
    {
      text := text + s;
    }
  }

  method AddQueryParameter(sb: StringBuilder?, key: Option<string>, value: Option<string>)
    returns (r: Result<(), ArgumentNull>)
    modifies sb
    ensures r.Ok? <==> sb != null && Text(key) != ""
    ensures sb == null ==> r == Err(ArgumentNull("sb"))
    ensures sb != null && Text(key) == "" ==> r == Err(ArgumentNull("key")) && sb.text == old(sb.text)
    ensures r.Ok? ==> forall ps :: old(sb.text) == Render(ps) ==> sb.text == Render(ps + [Param(key.value, value)])
  {
    if sb == null {
      return Err(ArgumentNull("sb"));
    }
    if Text(key) == "" {
      return Err(ArgumentNull("key"));
    }
    ghost var before := sb.text;
    sb.Append(if |sb.text| != 0 then "&" else "?");
    sb.Append(EscapeDataString(key.value));
    sb.Append("=");
    if Text(value) != "" {
      sb.Append(EscapeDataString(value.value));
    }
    r := Ok(());
    ghost var p := Param(key.value, value);
    assert sb.text == before + Segment(if before == "" then '?' else '&', p) by {
      AppendedSegment(before, p);
    }
    forall ps | before == Render(ps)
      ensures sb.text == Render(ps + [p])
    {
      RenderedAppend(ps, p, '?');
      if ps != [] {
        LeadDoesNotMatter(ps);
      }
    }
  }

  lemma {:induction false} AppendedSegment(before: string, p: Param)
    ensures before + [if before == "" then '?' else '&']
            + EscapeDataString(p.key) + "=" + EscapeDataString(Text(p.value))
         == before + Segment(if before == "" then '?' else '&', p)
    ensures Text(p.value) == "" ==> EscapeDataString(Text(p.value)) == ""
  {}

  class UriBuilder {
    var query: string

    constructor ()
      ensures query == ""
    {
      query := "";
    }

    /** The setter of UriBuilder.Query puts the '?' in front of a non-empty value. */
    method AssignQuery(value: string)
      modifies this
      ensures query == if value == "" then "" else "?" + value
    {
      query := if value == "" then "" else "?" + value;
    }
  }

  method SetQuery(uriBuilder: UriBuilder, query: StringBuilder?)
    modifies uriBuilder
    ensures query == null ==> uriBuilder.query == old(uriBuilder.query)
    ensures query != null ==> forall ps :: query.text == Render(ps) ==>
              uriBuilder.query == if ps == [] then old(uriBuilder.query) else Render(ps)
  {
    if query != null && |query.text| > 0 {
      uriBuilder.AssignQuery(query.text[1..]);
      assert forall ps :: query.text == Render(ps) && ps != [] && query.text != "?" ==>
                            "?" + query.text[1..] == Render(ps);
      forall ps | query.text == Render(ps)
        ensures ps != [] && query.text != "?"
      {
        assert |Pair(ps[0])| >= 1;
      }
    }
  }

  // ---- The queries that the client sends ----

  function SelectorParam(selector: Option<string>): seq<Param> {
    if Text(selector) == "" then [] else [Param("labelSelector", selector)]
  }

  function TimeoutParam(timeoutSeconds: Option<int>): seq<Param> {
    if timeoutSeconds.None? then [] else [Param("timeoutSeconds", Some(Decimal.Print(timeoutSeconds.value)))]
  }

  function WatchParam(watch: bool): seq<Param> {
    if watch then [Param("watch", Some("true"))] else []
  }

  function VersionParam(resourceVersion: Option<string>): seq<Param> {
    if Text(resourceVersion) == "" then [] else [Param("resourceVersion", resourceVersion)]
  }

  /** GetPodsHttpAsync; without the watch flag also the queries of get, delete and create-or-replace. */
  function ListParams(watch: bool, selector: Option<string>, timeoutSeconds: Option<int>): seq<Param> {
    WatchParam(watch) + SelectorParam(selector) + TimeoutParam(timeoutSeconds)
  }

  /** WatchPodsHttpAsync. */
  function WatchParams(resourceVersion: Option<string>, selector: Option<string>, timeoutSeconds: Option<int>)
    : seq<Param>
  {
    WatchParam(true) + VersionParam(resourceVersion) + SelectorParam(selector) + TimeoutParam(timeoutSeconds)
  }

  /** A server reads these pairs, and behind them the timeout as a number if there is one, and nothing else. */
  predicate ReadsAs(text: string, pairs: seq<(string, string)>, timeoutSeconds: Option<int>) {
    var got := ParseQuery(text);
    && got.Some?
    && (timeoutSeconds.None? ==> got.value == pairs)
    && (timeoutSeconds.Some? ==>
          && |got.value| == |pairs| + 1 && got.value[..|pairs|] == pairs
          && got.value[|pairs|].0 == "timeoutSeconds" && Decimal.Parse(got.value[|pairs|].1) == timeoutSeconds)
  }

  lemma {:induction false} SentConcat(a: seq<Param>, b: seq<Param>)
    ensures Sent(a + b) == Sent(a) + Sent(b)
  {
    if a == [] {
      assert a + b == b;
    } else {
      SentConcat(a[1..], b);
      assert (a + b)[1..] == a[1..] + b;
    }
  }

  lemma {:induction false} SentOne(p: Param)
    ensures Sent([p]) == [(p.key, Text(p.value))] && Sent([]) == []
  {}

  lemma {:induction false} TimeoutReads(ps: seq<Param>, timeoutSeconds: Option<int>)
    ensures ReadsAs(Render(ps + TimeoutParam(timeoutSeconds)), Sent(ps), timeoutSeconds)
  {
    QueryRoundTrip(ps + TimeoutParam(timeoutSeconds));
    SentConcat(ps, TimeoutParam(timeoutSeconds));
    if timeoutSeconds.Some? {
      SentOne(TimeoutParam(timeoutSeconds)[0]);
      Decimal.ParsePrint(timeoutSeconds.value);
    } else {
      assert ps + [] == ps;
    }
  }

  /** The pairs of a list query, as a server reads them. */
  lemma {:induction false} ListQueryReads(watch: bool, selector: Option<string>, timeoutSeconds: Option<int>)
    ensures ReadsAs(Render(ListParams(watch, selector, timeoutSeconds)),
                    (if watch then [("watch", "true")] else [])
                    + (if selector.Some? && selector.value != "" then [("labelSelector", selector.value)] else []),
                    timeoutSeconds)
  {
    var ps := WatchParam(watch) + SelectorParam(selector);
    TimeoutReads(ps, timeoutSeconds);
    SentConcat(WatchParam(watch), SelectorParam(selector));
    SentOne(Param("watch", Some("true")));
    SentOne(Param("labelSelector", selector));
  }

  /** The pairs of a watch query, as a server reads them. */
  lemma {:induction false} WatchQueryReads(version: Option<string>, selector: Option<string>,
                                           timeoutSeconds: Option<int>)
    ensures ReadsAs(Render(WatchParams(version, selector, timeoutSeconds)),
                    [("watch", "true")]
                    + (if version.Some? && version.value != "" then [("resourceVersion", version.value)] else [])
                    + (if selector.Some? && selector.value != "" then [("labelSelector", selector.value)] else []),
                    timeoutSeconds)
  {
    var ps := WatchParam(true) + VersionParam(version);
    TimeoutReads(ps + SelectorParam(selector), timeoutSeconds);
    SentConcat(ps, SelectorParam(selector));
    SentConcat(WatchParam(true), VersionParam(version));
    SentOne(Param("watch", Some("true")));
    SentOne(Param("resourceVersion", version));
    SentOne(Param("labelSelector", selector));
  }

  /** How two parameters look in a URL. */
  lemma {:induction false} QueryText()
    ensures Render([Param("a", Some("b")), Param("c", None)]) == "?a=b&c="
  {
    EscapesItselfIff('a');
    EscapesItselfIff('b');
    EscapesItselfIff('c');
    RenderedCons(Param("a", Some("b")), [Param("c", None)], '?');
    RenderedCons(Param("c", None), [], '&');
    assert [Param("a", Some("b"))] + [Param("c", None)] == [Param("a", Some("b")), Param("c", None)];
    assert [Param("c", None)] + [] == [Param("c", None)];
  }

  method AddSelectorAndTimeout(sb: StringBuilder, selector: Option<string>, timeoutSeconds: Option<int>,
                               ghost ps: seq<Param>)
    requires sb.text == Render(ps)
    modifies sb
    ensures sb.text == Render(ps + SelectorParam(selector) + TimeoutParam(timeoutSeconds))
  {
    var r;
    ghost var qs := ps;
    if Text(selector) != "" {
      r := AddQueryParameter(sb, Some("labelSelector"), selector);
      qs := qs + [Param("labelSelector", selector)];
    }
    assert qs == ps + SelectorParam(selector);
    if timeoutSeconds.Some? {
      r := AddQueryParameter(sb, Some("timeoutSeconds"), Some(Decimal.Print(timeoutSeconds.value)));
      qs := qs + [Param("timeoutSeconds", Some(Decimal.Print(timeoutSeconds.value)))];
    }
    assert qs == ps + SelectorParam(selector) + TimeoutParam(timeoutSeconds);
  }

  method BuildListQuery(watch: bool, selector: Option<string>, timeoutSeconds: Option<int>)
    returns (query: StringBuilder)
    ensures fresh(query) && query.text == Render(ListParams(watch, selector, timeoutSeconds))
    ensures ReadsAs(query.text,
                    (if watch then [("watch", "true")] else [])
                    + (if selector.Some? && selector.value != "" then [("labelSelector", selector.value)] else []),
                    timeoutSeconds)
  {
    query := new StringBuilder();
    AddWatch(query, watch);
    AddSelectorAndTimeout(query, selector, timeoutSeconds, WatchParam(watch));
    ListQueryReads(watch, selector, timeoutSeconds);
  }

  method AddWatch(sb: StringBuilder, watch: bool)
    requires sb.text == ""
    modifies sb
    ensures sb.text == Render(WatchParam(watch))
  {
    assert sb.text == Render([]);
    if watch {
      var r := AddQueryParameter(sb, Some("watch"), Some("true"));
      assert [] + [Param("watch", Some("true"))] == WatchParam(true);
    }
  }

  method AddVersion(sb: StringBuilder, resourceVersion: Option<string>)
    requires sb.text == Render(WatchParam(true))
    modifies sb
    ensures sb.text == Render(WatchParam(true) + VersionParam(resourceVersion))
  {
    assert WatchParam(true) + [] == WatchParam(true);
    if Text(resourceVersion) != "" {
      var r := AddQueryParameter(sb, Some("resourceVersion"), resourceVersion);
    }
  }

  method BuildWatchQuery(resourceVersion: Option<string>, selector: Option<string>, timeoutSeconds: Option<int>)
    returns (query: StringBuilder)
    ensures fresh(query) && query.text == Render(WatchParams(resourceVersion, selector, timeoutSeconds))
    ensures ReadsAs(query.text,
                    [("watch", "true")]
                    + (if resourceVersion.Some? && resourceVersion.value != ""
                       then [("resourceVersion", resourceVersion.value)] else [])
                    + (if selector.Some? && selector.value != "" then [("labelSelector", selector.value)] else []),
                    timeoutSeconds)
  {
    query := new StringBuilder();
    AddWatch(query, true);
    AddVersion(query, resourceVersion);
    AddSelectorAndTimeout(query, selector, timeoutSeconds, WatchParam(true) + VersionParam(resourceVersion));
    WatchQueryReads(resourceVersion, selector, timeoutSeconds);
  }
}
