/** How WatcherDelegatingHandler.SendAsync recognises a watch: by searching the text of the query. */
module WatchDetection {
  import opened Basics
  import opened Percent
  import opened Query

  const PATTERN := "watch=true"

  /** Ordinal String.IndexOf: the first position where `pattern` occurs, or -1. */
  function IndexOf(s: string, pattern: string): (r: int)
    ensures -1 <= r <= |s|
    ensures r >= 0 ==> pattern <= s[r..]
    ensures forall j | 0 <= j < |s| && (r < 0 || j < r) :: !(pattern <= s[j..])
  {
    if pattern <= s then 0
    else if s == "" then -1
    else
      var r := IndexOf(s[1..], pattern);
      assert forall j | 0 < j < |s| :: s[j..] == s[1..][j - 1..];
      if r < 0 then -1 else r + 1
  }

  predicate IsWatchQuery(query: string) {
    var index := IndexOf(query, PATTERN);
    index > 0 && (query[index - 1] == '&' || query[index - 1] == '?')
  }

  /** For every text: the first "watch=true" in it, if there is one, has a '?' or a '&' in front of it. */
  lemma {:induction false} IsWatchQueryIff(query: string)
    ensures IsWatchQuery(query) <==>
            exists k ::
              && 0 < k < |query| && "watch=true" <= query[k..] && (query[k - 1] == '?' || query[k - 1] == '&')
              && forall j | 0 <= j < k :: !("watch=true" <= query[j..])
  {
    var index := IndexOf(query, PATTERN);
    if IsWatchQuery(query) {
      assert query[index..] != "";
    }
  }

  /** A parameter whose key ends in "watch" and whose value starts with "true". */
  predicate LooksLikeWatch(p: Param) {
    EndsWith(p.key, "watch") && StartsWith(Text(p.value), "true")
  }

  function FirstLookalike(ps: seq<Param>): Option<Param> {
    if ps == [] then None
    else if LooksLikeWatch(ps[0]) then Some(ps[0])
    else FirstLookalike(ps[1..])
  }

  lemma {:induction false} IndexOfIs(s: string, pattern: string, r: nat)
    requires r <= |s| && pattern != "" && pattern <= s[r..]
    requires forall j | 0 <= j < r :: !(pattern <= s[j..])
    ensures IndexOf(s, pattern) == r
  {}

  lemma {:induction false} IndexOfShift(a: string, b: string, pattern: string)
    requires pattern != ""
    requires forall j | 0 <= j < |a| :: !(pattern <= (a + b)[j..])
    ensures var r := IndexOf(b, pattern);
            IndexOf(a + b, pattern) == if r < 0 then -1 else |a| + r
  {
    var s, r := a + b, IndexOf(b, pattern);
    forall j | |a| <= j <= |s|
      ensures s[j..] == b[j - |a|..]
    {}
    if r >= 0 {
      IndexOfIs(s, pattern, |a| + r);
    }
  }

  predicate OccursAt(s: string, j: nat) {
    j + 10 <= |s| && s[j..j + 10] == PATTERN
  }

  lemma {:induction false} OccursAtIsPrefix(s: string, j: nat)
    requires j <= |s|
    ensures OccursAt(s, j) <==> PATTERN <= s[j..]
  {
    assert j + 10 <= |s| ==> s[j..j + 10] == s[j..][..10];
  }

  predicate Escaped(s: string) {
    forall i | 0 <= i < |s| :: EscapedChar(s[i])
  }

  /** `s` is one rendered parameter, followed by nothing or by the next one. */
  predicate Laid(s: string, lead: char, k: string, v: string, tail: string) {
    && (lead == '?' || lead == '&') && Escaped(k) && Escaped(v) && (tail == "" || tail[0] == '&')
    && |s| == |k| + |v| + |tail| + 2
    && s[0] == lead && s[1..|k| + 1] == k && s[|k| + 1] == '=' && s[|k| + 2..|k| + |v| + 2] == v
    && s[|k| + |v| + 2..] == tail
  }

  lemma {:induction false} LaidChars(s: string, lead: char, k: string, v: string, tail: string)
    requires Laid(s, lead, k, v, tail)
    ensures forall i | 1 <= i <= |k| || |k| + 2 <= i < |k| + |v| + 2 :: EscapedChar(s[i])
    ensures tail != "" ==> s[|k| + |v| + 2] == '&'
  {
    forall i | 1 <= i <= |k|
      ensures EscapedChar(s[i])
    {
      assert s[i] == s[1..|k| + 1][i - 1];
    }
    forall i | |k| + 2 <= i < |k| + |v| + 2
      ensures EscapedChar(s[i])
    {
      assert s[i] == s[|k| + 2..|k| + |v| + 2][i - |k| - 2];
    }
    assert tail != "" ==> s[|k| + |v| + 2] == s[|k| + |v| + 2..][0];
  }

  lemma {:induction false} OccursChars(s: string, j: nat)
    requires OccursAt(s, j)
    ensures s[j] == 'w' && s[j + 5] == '='
    ensures forall i | j <= i < j + 10 :: s[i] != '&'
  {
    forall i | j <= i < j + 10
      ensures s[i] == PATTERN[i - j]
    {
      assert s[i] == s[j..j + 10][i - j];
    }
  }

  /** The pattern holds one '=' and no '&', so it can only sit across the '=' of the parameter. */
  lemma {:induction false} SitsAcrossEquals(s: string, lead: char, k: string, v: string, tail: string, j: nat)
    requires Laid(s, lead, k, v, tail) && OccursAt(s, j) && j < |k| + |v| + 2
    ensures 1 <= j == |k| - 4 && |v| >= 4
  {
    LaidChars(s, lead, k, v, tail);
    OccursChars(s, j);
  }

  lemma {:induction false} OccursThenLooks(s: string, lead: char, k: string, v: string, tail: string, j: nat)
    requires Laid(s, lead, k, v, tail) && OccursAt(s, j) && j < |k| + |v| + 2
    ensures j == |k| - 4 && EndsWith(k, "watch") && StartsWith(v, "true")
  {
    SitsAcrossEquals(s, lead, k, v, tail, j);
    var e := |k| + 1;
    assert k[|k| - 5..] == s[1..e][j - 1..] == s[j..j + 5] == s[j..j + 10][..5] == "watch";
    assert v[..4] == s[e + 1..e + 5] == s[j..j + 10][6..] == "true";
  }

  lemma {:induction false} LooksThenOccurs(s: string, lead: char, k: string, v: string, tail: string)
    requires Laid(s, lead, k, v, tail) && EndsWith(k, "watch") && StartsWith(v, "true")
    ensures OccursAt(s, |k| - 4)
  {
    var e, j := |k| + 1, |k| - 4;
    assert s[j..e] == "watch" by {
      assert s[j..e] == s[1..e][j - 1..];
    }
    assert s[e + 1..e + 5] == "true" by {
      assert s[e + 1..e + 5] == s[e + 1..|k| + |v| + 2][..4];
    }
    assert s[j..j + 10] == s[j..e] + [s[e]] + s[e + 1..e + 5];
    assert "watch" + ['='] + "true" == PATTERN;
  }

  lemma {:induction false} SegmentLaid(lead: char, p: Param, tail: string)
    requires lead == '?' || lead == '&'
    requires tail == "" || tail[0] == '&'
    ensures Laid(Segment(lead, p) + tail, lead, EscapeDataString(p.key), EscapeDataString(Text(p.value)), tail)
    ensures LooksLikeWatch(p) ==
            (EndsWith(EscapeDataString(p.key), "watch") && StartsWith(EscapeDataString(Text(p.value)), "true"))
  {
    EscapeAlphabet(p.key);
    EscapeAlphabet(Text(p.value));
    EscapeSuffix(p.key, "watch");
    EscapePrefix(Text(p.value), "true");
    LaidOut(lead, EscapeDataString(p.key), EscapeDataString(Text(p.value)), tail);
  }

  lemma {:induction false} LaidOut(lead: char, k: string, v: string, tail: string)
    requires lead == '?' || lead == '&'
    requires tail == "" || tail[0] == '&'
    requires forall c <- k :: EscapedChar(c)
    requires forall c <- v :: EscapedChar(c)
    ensures Laid([lead] + (k + "=" + v) + tail, lead, k, v, tail)
  {}

  lemma {:induction false} EscapedWatch(key: string)
    requires EndsWith(EscapeDataString(key), "watch")
    ensures |EscapeDataString(key)| == 5 <==> key == "watch"
  {
    EscapeSuffix(key, "watch");
    EscapeLength(key);
  }

  lemma {:induction false} FoundInFirst(s: string, lead: char, k: string, v: string, tail: string)
    requires Laid(s, lead, k, v, tail) && EndsWith(k, "watch") && StartsWith(v, "true")
    ensures IsWatchQuery(s) <==> |k| == 5
  {
    LaidChars(s, lead, k, v, tail);
    LooksThenOccurs(s, lead, k, v, tail);
    var at := |k| - 4;
    OccursAtIsPrefix(s, at);
    forall j | 0 <= j < at
      ensures !(PATTERN <= s[j..])
    {
      OccursAtIsPrefix(s, j);
      if OccursAt(s, j) {
        OccursThenLooks(s, lead, k, v, tail, j);
      }
    }
    IndexOfIs(s, PATTERN, at);
  }

  lemma {:induction false} NoneInFirst(a: string, lead: char, k: string, v: string, tail: string, j: nat)
    requires Laid(a + tail, lead, k, v, tail) && !(EndsWith(k, "watch") && StartsWith(v, "true"))
    requires j < |a|
    ensures !(PATTERN <= (a + tail)[j..])
  {
    OccursAtIsPrefix(a + tail, j);
    if OccursAt(a + tail, j) {
      OccursThenLooks(a + tail, lead, k, v, tail, j);
    }
  }

  lemma {:induction false} NotFoundInFirst(a: string, lead: char, k: string, v: string, tail: string)
    requires Laid(a + tail, lead, k, v, tail) && !(EndsWith(k, "watch") && StartsWith(v, "true"))
    ensures IsWatchQuery(a + tail) <==> IsWatchQuery(tail)
  {
    forall j | 0 <= j < |a|
      ensures !(PATTERN <= (a + tail)[j..])
    {
      NoneInFirst(a, lead, k, v, tail, j);
    }
    IndexOfShift(a, tail, PATTERN);
    NotAtZero(tail);
    SameCharBefore(a, tail, IndexOf(tail, PATTERN));
  }

  lemma {:induction false} NotAtZero(tail: string)
    requires tail == "" || tail[0] == '&'
    ensures IndexOf(tail, PATTERN) != 0
  {
    assert PATTERN[0] == 'w';
  }

  lemma {:induction false} SameCharBefore(a: string, tail: string, r: int)
    requires r <= |tail|
    ensures r > 0 ==> (a + tail)[|a| + r - 1] == tail[r - 1]
  {}

  /**
   * For every list of parameters, the search succeeds exactly when the first parameter that
   * looks like a watch is one: an earlier "rewatch=true" hides it, and "watch=trueish" passes.
   */
  lemma {:induction false} DetectionIsFirstLookalike(ps: seq<Param>, lead: char)
    requires lead == '?' || lead == '&'
    ensures IsWatchQuery(Rendered(ps, lead)) <==>
            FirstLookalike(ps).Some? && FirstLookalike(ps).value.key == "watch"
    decreases |ps|
  {
    if ps != [] {
      var tail := Rendered(ps[1..], '&');
      if ps[1..] != [] {
        DropLead('&', Pair(ps[1]), Rendered(ps[1..][1..], '&'));
      }
      var k, v := EscapeDataString(ps[0].key), EscapeDataString(Text(ps[0].value));
      SegmentLaid(lead, ps[0], tail);
      if LooksLikeWatch(ps[0]) {
        FoundInFirst(Segment(lead, ps[0]) + tail, lead, k, v, tail);
        EscapedWatch(ps[0].key);
      } else {
        NotFoundInFirst(Segment(lead, ps[0]), lead, k, v, tail);
        DetectionIsFirstLookalike(ps[1..], '&');
      }
    }
  }

  lemma {:induction false} NoLookalike(ps: seq<Param>)
    requires forall i | 0 <= i < |ps| :: !EndsWith(ps[i].key, "watch")
    ensures FirstLookalike(ps).None?
  {
    if ps != [] {
      NoLookalike(ps[1..]);
    }
  }

  lemma {:induction false} WatchComesFirst(rest: seq<Param>)
    ensures FirstLookalike(WatchParam(true) + rest) == Some(Param("watch", Some("true")))
  {
    assert EndsWith("watch", "watch") && StartsWith("true", "true");
  }

  lemma {:induction false} ListLookalike(watch: bool, selector: Option<string>, timeoutSeconds: Option<int>)
    ensures FirstLookalike(ListParams(watch, selector, timeoutSeconds))
         == if watch then Some(Param("watch", Some("true"))) else None
  {
    var rest := SelectorParam(selector) + TimeoutParam(timeoutSeconds);
    if watch {
      assert ListParams(watch, selector, timeoutSeconds) == WatchParam(true) + rest;
      WatchComesFirst(rest);
    } else {
      assert ListParams(watch, selector, timeoutSeconds) == rest;
      NoLookalike(rest);
    }
  }

  /** The list queries are recognised exactly when the watch parameter was asked for, whatever the selector. */
  lemma {:induction false} ListDetectionExact(watch: bool, selector: Option<string>, timeoutSeconds: Option<int>)
    ensures IsWatchQuery(Render(ListParams(watch, selector, timeoutSeconds))) <==> watch
  {
    DetectionIsFirstLookalike(ListParams(watch, selector, timeoutSeconds), '?');
    ListLookalike(watch, selector, timeoutSeconds);
  }

  /** The watch queries are always recognised, whatever the version and the selector. */
  lemma {:induction false} WatchDetectionExact(resourceVersion: Option<string>, selector: Option<string>,
                                               timeoutSeconds: Option<int>)
    ensures IsWatchQuery(Render(WatchParams(resourceVersion, selector, timeoutSeconds)))
  {
    var rest := VersionParam(resourceVersion) + SelectorParam(selector) + TimeoutParam(timeoutSeconds);
    assert WatchParams(resourceVersion, selector, timeoutSeconds) == WatchParam(true) + rest;
    DetectionIsFirstLookalike(WatchParam(true) + rest, '?');
    WatchComesFirst(rest);
  }

  /** Queries the client does not build can defeat the search, by an earlier key or a longer value. */
  lemma {:induction false} HiddenWatch(ps: seq<Param>)
    ensures !IsWatchQuery(Render([Param("rewatch", Some("true"))] + ps))
    ensures IsWatchQuery(Render([Param("watch", Some("trueish"))] + ps))
  {
    var hidden, trueish := Param("rewatch", Some("true")), Param("watch", Some("trueish"));
    assert EndsWith("rewatch", "watch") && EndsWith("watch", "watch");
    assert StartsWith("true", "true") && StartsWith("trueish", "true");
    assert LooksLikeWatch(hidden) && LooksLikeWatch(trueish);
    DetectionIsFirstLookalike([hidden] + ps, '?');
    DetectionIsFirstLookalike([trueish] + ps, '?');
  }
}
