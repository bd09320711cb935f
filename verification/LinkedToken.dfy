/**
 * LinkedCancellationTokenSource of WatcherDelegatingHandler.cs: one token for two. A source is
 * linked only when both tokens can be cancelled; otherwise the token that can be is taken over.
 */
module LinkedToken {

  /** Sources are numbered in the order of their creation, so a linked source has a higher number than its two. */
  type SourceId = nat

  /** A token that can never be cancelled, or the token of a source. */
  datatype Token = Never | Of(source: SourceId) {
    predicate CanBeCanceled() {
      Of?
    }
  }

  /** What a program does with its sources. */
  datatype Act = NewSource | NewLinked(a: SourceId, b: SourceId) | Cancel(source: SourceId)

  datatype World = World(count: nat, links: map<SourceId, (SourceId, SourceId)>, requested: set<SourceId>) {

    predicate Valid() {
      && (forall l <- links :: links[l].0 < l && links[l].1 < l && l < count)
      && (forall l <- links :: links[l].0 in requested || links[l].1 in requested ==> l in requested)
      && (forall i <- requested :: i < count)
    }

    predicate Requested(t: Token) {
      t.Of? && t.source in requested
    }

    /** The sources below `n` that cancelling `id` reaches: itself, and any source linked to a reached one. */
    function Reached(id: SourceId, n: nat): set<SourceId> {
      if n == 0 then {}
      else
        var before := Reached(id, n - 1);
        if n - 1 == id || (n - 1 in links && (links[n - 1].0 in before || links[n - 1].1 in before))
        then before + {n - 1} else before
    }

    function Do(act: Act): World {
      match act
      case NewSource => World(count + 1, links, requested)
      case NewLinked(a, b) =>
        if a < count && b < count
        then World(count + 1, links[count := (a, b)],
                   requested + (if a in requested || b in requested then {count} else {}))
        else this
      case Cancel(id) => if id < count then World(count, links, requested + Reached(id, count)) else this
    }

    function DoAll(acts: seq<Act>): World
      decreases |acts|
    {
      if acts == [] then this else Do(acts[0]).DoAll(acts[1..])
    }
  }

  /** The constructor: the world after it, and the token it selects. */
  function Select(w: World, token1: Token, token2: Token): (World, Token) {
    if token1.CanBeCanceled() && token2.CanBeCanceled()
    then (w.Do(NewLinked(token1.source, token2.source)), Of(w.count))
    else (w, if token1.CanBeCanceled() then token1 else token2)
  }

  lemma {:induction false} ReachedStable(w: World, id: SourceId, n: nat, m: nat)
    requires n <= m
    ensures forall i | 0 <= i < n :: i in w.Reached(id, n) <==> i in w.Reached(id, m)
    ensures forall i <- w.Reached(id, m) :: i < m
    decreases m
  {
    if m > 0 {
      ReachedStable(w, id, if n < m then n else m - 1, m - 1);
    }
  }

  /** A linked source is reached exactly when one of its two is, unless it is cancelled itself. */
  lemma {:induction false} LinkedReached(w: World, id: SourceId, l: SourceId)
    requires w.Valid() && l in w.links && l != id
    ensures var reached := w.Reached(id, w.count);
            l in reached <==> w.links[l].0 in reached || w.links[l].1 in reached
  {
    ReachedStable(w, id, l, w.count);
    ReachedStable(w, id, l + 1, w.count);
    ReachedStable(w, id, l, l);
    var before := w.Reached(id, l);
    assert w.Reached(id, l + 1) ==
           if w.links[l].0 in before || w.links[l].1 in before then before + {l} else before;
  }

  lemma {:induction false} DoKeepsValid(w: World, act: Act)
    requires w.Valid()
    ensures w.Do(act).Valid()
    ensures w.Do(act).count >= w.count
  {
    if act.Cancel? && act.source < w.count {
      CancelKeepsValid(w, act.source);
    }
  }

  lemma {:induction false} CancelKeepsValid(w: World, id: SourceId)
    requires w.Valid() && id < w.count
    ensures w.Do(Cancel(id)).Valid()
  {
    var reached := w.Reached(id, w.count);
    ReachedStable(w, id, w.count, w.count);
    ReachedStable(w, id, id + 1, w.count);
    forall l <- w.links | w.links[l].0 in reached || w.links[l].1 in reached
      ensures l in reached
    {
      if l != id {
        LinkedReached(w, id, l);
      }
    }
  }

  predicate Agrees(w: World, token1: Token, token2: Token, selected: Token) {
    w.Requested(selected) <==> w.Requested(token1) || w.Requested(token2)
  }

  /** The selected token is one of the two with the other one inert, or that of a source linked to both. */
  predicate Tied(w: World, token1: Token, token2: Token, selected: Token) {
    || (selected == token1 && !token2.CanBeCanceled())
    || (selected == token2 && !token1.CanBeCanceled())
    || (token1.Of? && token2.Of? && selected.Of? && selected.source in w.links
        && w.links[selected.source] == (token1.source, token2.source)
        && Agrees(w, token1, token2, selected))
  }

  lemma {:induction false} SelectTies(w: World, token1: Token, token2: Token)
    requires w.Valid()
    requires (token1.Of? ==> token1.source < w.count) && (token2.Of? ==> token2.source < w.count)
    ensures var (after, selected) := Select(w, token1, token2);
            after.Valid() && Tied(after, token1, token2, selected)
  {
    if token1.CanBeCanceled() && token2.CanBeCanceled() {
      DoKeepsValid(w, NewLinked(token1.source, token2.source));
    }
  }

  lemma {:induction false} DoKeepsTie(w: World, token1: Token, token2: Token, selected: Token, act: Act)
    requires w.Valid() && Tied(w, token1, token2, selected)
    requires act.Cancel? && Of(act.source) == selected ==> selected == token1 || selected == token2
    ensures Tied(w.Do(act), token1, token2, selected)
  {
    if selected.Of? && selected.source in w.links && act.Cancel? && act.source != selected.source {
      LinkedReached(w, act.source, selected.source);
    }
  }

  lemma {:induction false} RunKeepsTie(w: World, token1: Token, token2: Token, selected: Token, acts: seq<Act>)
    requires w.Valid() && Tied(w, token1, token2, selected)
    requires Cancel(if selected.Of? then selected.source else 0) !in acts || selected == token1 || selected == token2
    ensures Tied(w.DoAll(acts), token1, token2, selected)
    decreases |acts|
  {
    if acts != [] {
      assert acts[0] in acts;
      DoKeepsTie(w, token1, token2, selected, acts[0]);
      DoKeepsValid(w, acts[0]);
      RunKeepsTie(w.Do(acts[0]), token1, token2, selected, acts[1..]);
    }
  }

  /**
   * After the construction, in every run of a program that creates, links and cancels sources,
   * the selected token is cancelled exactly when one of the two tokens is, for all four
   * combinations of tokens and whatever was cancelled before. The linked source is private to
   * the constructed value, so the run does not cancel it directly.
   */
  lemma {:induction false} LinkedTokenAgreement(w: World, token1: Token, token2: Token, acts: seq<Act>)
    requires w.Valid()
    requires (token1.Of? ==> token1.source < w.count) && (token2.Of? ==> token2.source < w.count)
    requires token1.Of? && token2.Of? ==> Cancel(w.count) !in acts
    ensures var (after, selected) := Select(w, token1, token2);
            Agrees(after.DoAll(acts), token1, token2, selected)
  {
    var (after, selected) := Select(w, token1, token2);
    SelectTies(w, token1, token2);
    RunKeepsTie(after, token1, token2, selected, acts);
  }
}
