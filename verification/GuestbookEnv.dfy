/** EnvHandler of the guestbook's main.go: the environment as a map. */
module GuestbookEnv {
  import opened Basics

  function KeyOf(item: string): string {
    Split(item, '=')[0]
  }

  function ValueOf(item: string): string {
    Join(Split(item, '=')[1..], '=')
  }

  /** An item is cut at its first '=' only, so key and value rebuild it; without '=' it is all key. */
  lemma {:induction false} ItemRebuilds(item: string)
    ensures '=' !in KeyOf(item)
    ensures item == if '=' in item then KeyOf(item) + "=" + ValueOf(item) else KeyOf(item)
    ensures '=' !in item ==> ValueOf(item) == ""
  {
    var k := IndexOfChar(item, '=');
    if k == |item| {
      assert item[..k] == item;
      SplitOne(item, '=');
    } else {
      assert item == item[..k] + ['='] + item[k + 1..];
      SplitCons(item[..k], item[k + 1..], '=');
      JoinSplit(item[k + 1..], '=');
    }
  }

  /** The last item with a key decides its value. */
  ghost predicate LastWins(items: seq<string>, environment: map<string, string>) {
    && (forall i | 0 <= i < |items| :: KeyOf(items[i]) in environment)
    && (forall key <- environment :: LastIs(items, key, environment[key]))
  }

  /** The last item with the key has the value. */
  ghost predicate LastIs(items: seq<string>, key: string, value: string) {
    exists i ::
      && 0 <= i < |items| && KeyOf(items[i]) == key && ValueOf(items[i]) == value
      && forall j | i < j < |items| :: KeyOf(items[j]) != key
  }

  lemma {:induction false} LastIsAppend(items: seq<string>, item: string, key: string, value: string)
    requires LastIs(items, key, value) && KeyOf(item) != key
    ensures LastIs(items + [item], key, value)
  {
    var i :| && 0 <= i < |items| && KeyOf(items[i]) == key && ValueOf(items[i]) == value
             && forall j | i < j < |items| :: KeyOf(items[j]) != key;
    assert (items + [item])[i] == items[i];
  }

  lemma {:induction false} LastIsNew(items: seq<string>, item: string)
    ensures LastIs(items + [item], KeyOf(item), ValueOf(item))
  {
    assert (items + [item])[|items|] == item;
  }

  method EnvHandler(items: seq<string>) returns (environment: map<string, string>)
    ensures LastWins(items, environment)
  {
    environment := map[];
    for n := 0 to |items|
      invariant LastWins(items[..n], environment)
    {
      LastWinsAppend(items[..n], items[n], environment);
      assert items[..n + 1] == items[..n] + [items[n]];
      var splits := Split(items[n], '=');
      environment := environment[splits[0] := Join(splits[1..], '=')];
    }
    assert items[..|items|] == items;
  }

  lemma {:induction false} LastWinsAppend(items: seq<string>, item: string, environment: map<string, string>)
    requires LastWins(items, environment)
    ensures LastWins(items + [item], environment[KeyOf(item) := ValueOf(item)])
  {
    var after := environment[KeyOf(item) := ValueOf(item)];
    LastIsNew(items, item);
    forall key <- after
      ensures LastIs(items + [item], key, after[key])
    {
      if key != KeyOf(item) {
        LastIsAppend(items, item, key, environment[key]);
      }
    }
  }
}
