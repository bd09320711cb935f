/** Small vocabulary shared by the other modules. */
module Basics {

  datatype Option<+T> = None | Some(value: T)

  datatype Result<+T, +E> = Ok(value: T) | Err(error: E)

  /** The values that `pick` selects from the entries of `log`, in order. */
  function Collect<E, T>(log: seq<E>, pick: E -> Option<T>): seq<T> {
    if log == [] then []
    else
      var last := pick(log[|log| - 1]);
      Collect(log[..|log| - 1], pick) + (if last.Some? then [last.value] else [])
  }

  lemma {:induction false} CollectAppend<E, T>(log: seq<E>, entry: E, pick: E -> Option<T>)
    ensures Collect(log + [entry], pick)
         == Collect(log, pick) + (if pick(entry).Some? then [pick(entry).value] else [])
  {
    assert (log + [entry])[..|log|] == log;
  }

  lemma {:induction false} CollectConcat<E, T>(a: seq<E>, b: seq<E>, pick: E -> Option<T>)
    ensures Collect(a + b, pick) == Collect(a, pick) + Collect(b, pick)
  {
    if b == [] {
      assert a + b == a;
    } else {
      var front := b[..|b| - 1];
      assert a + b == (a + front) + [b[|b| - 1]];
      CollectConcat(a, front, pick);
      CollectAppend(a + front, b[|b| - 1], pick);
    }
  }

  function One<T>(o: Option<T>): seq<T> {
    if o.Some? then [o.value] else []
  }

  lemma {:induction false} CollectCons<E, T>(entry: E, log: seq<E>, pick: E -> Option<T>)
    ensures Collect([entry] + log, pick) == One(pick(entry)) + Collect(log, pick)
  {
    CollectConcat([entry], log, pick);
    CollectAppend([], entry, pick);
    assert [] + [entry] == [entry];
    assert Collect([], pick) == [];
  }

  lemma {:induction false} Regrouped<T>(a: seq<T>, b: seq<T>, c: seq<T>)
    ensures a + (b + c) == (a + b) + c
  {}

  /** Splitting at every `sep`, as String.Split and strings.Split do: always at least one part. */
  function Split(s: string, sep: char): (parts: seq<string>)
    ensures parts != []
  {
    var k := IndexOfChar(s, sep);
    if k == |s| then [s] else [s[..k]] + Split(s[k + 1..], sep)
  }

  /** The first position of `c`, or the length of `s`. */
  function IndexOfChar(s: string, c: char): (k: nat)
    ensures k <= |s|
    ensures c !in s[..k]
    ensures k < |s| ==> s[k] == c
  {
    if s == [] || s[0] == c then 0
    else
      var k := 1 + IndexOfChar(s[1..], c);
      assert s[..k] == [s[0]] + s[1..][..k - 1];
      k
  }

  lemma {:induction false} IndexOfCharIs(s: string, c: char, k: nat)
    requires k <= |s| && c !in s[..k] && (k < |s| ==> s[k] == c)
    ensures IndexOfChar(s, c) == k
  {
    if s != [] && k > 0 {
      assert s[0] in s[..k];
      assert s[1..][..k - 1] == s[..k][1..];
      IndexOfCharIs(s[1..], c, k - 1);
    }
  }

  lemma {:induction false} SplitCons(a: string, rest: string, sep: char)
    requires sep !in a
    ensures Split(a + [sep] + rest, sep) == [a] + Split(rest, sep)
  {
    var s := a + [sep] + rest;
    assert s[..|a|] == a;
    IndexOfCharIs(s, sep, |a|);
    assert s[|a| + 1..] == rest;
  }

  lemma {:induction false} SplitOne(a: string, sep: char)
    requires sep !in a
    ensures Split(a, sep) == [a]
  {
    assert a[..|a|] == a;
    IndexOfCharIs(a, sep, |a|);
  }

  /** Joining with `sep` between the parts, as strings.Join does. */
  function Join(parts: seq<string>, sep: char): string {
    if parts == [] then ""
    else if |parts| == 1 then parts[0]
    else parts[0] + [sep] + Join(parts[1..], sep)
  }

  lemma {:induction false} JoinSplit(s: string, sep: char)
    ensures Join(Split(s, sep), sep) == s
    decreases |s|
  {
    var k := IndexOfChar(s, sep);
    if k < |s| {
      JoinSplit(s[k + 1..], sep);
      assert Split(s, sep)[1..] == Split(s[k + 1..], sep);
      assert s == s[..k] + [s[k]] + s[k + 1..];
    }
  }
}
