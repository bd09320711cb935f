/**
 * Any number of create-or-replace calls for one name at the same time: each lists, and later
 * writes what its own listing told it, with all the others acting in between.
 */
module CreateRace {
  import opened Basics
  import opened ApiServer
  import opened CreateOrReplace

  type Caller = nat

  /** A caller lists, a caller writes (the server may refuse), or some other client does something. */
  datatype Move = Lists(caller: Caller) | Writes(caller: Caller, refused: bool) | Foreign(op: Op)

  /** The name that all want, and the body and the label selector that each of them brings. */
  datatype Race = Race(kind: Kind, ns: string, name: string, body: Caller -> string, selector: Caller -> Selector) {
    function Target(): Key {
      Key(kind, ns, name)
    }

    function ManifestOf(c: Caller): Manifest {
      Manifest(Name(name), body(c))
    }
  }

  /** How a write ended: it took effect, or the server refused it, or the name had been created or deleted meanwhile. */
  datatype Outcome = Took | Refused | Outdated

  /** The request each caller has decided on, how its write ended, and whose write took effect last. */
  datatype State = State(store: Store, decided: map<Caller, Request>, ended: map<Caller, Outcome>, last: Option<Caller>)

  function Do(r: Race, s: State, m: Move): State {
    match m
    case Foreign(op) => s.(store := s.store.Perform(op))
    case Lists(c) =>
      var request := Decide(Listed(s.store, r.kind, r.ns, r.selector(c)), r.kind, r.ns, r.ManifestOf(c));
      if c in s.decided || request.None? then s else s.(decided := s.decided[c := request.value])
    case Writes(c, refused) =>
      if c !in s.decided || c in s.ended then s
      else if refused then s.(ended := s.ended[c := Refused])
      else if Takes(s.store, s.decided[c], r.ManifestOf(c), false)
      then State(s.store.Perform(OpOf(s.decided[c], r.ManifestOf(c)).value), s.decided, s.ended[c := Took], Some(c))
      else s.(ended := s.ended[c := Outdated])
  }

  function After(r: Race, s: State, moves: seq<Move>): State {
    if moves == [] then s else Do(r, After(r, s, moves[..|moves| - 1]), moves[|moves| - 1])
  }

  function Start(store: Store): State {
    State(store, map[], map[], None)
  }

  /** The callers that created the object. */
  function Creators(decided: map<Caller, Request>, ended: map<Caller, Outcome>): set<Caller> {
    set c | c in ended && c in decided && decided[c].PostRequest? && ended[c].Took?
  }

  predicate LeavesAlone(r: Race, m: Move) {
    m.Foreign? ==> m.op.key != r.Target()
  }

  /** Who may decide and end how, as long as no other client touches the name, which was free at the start. */
  predicate FairCalls(r: Race, present: bool, decided: map<Caller, Request>, ended: map<Caller, Outcome>) {
    && (forall c <- decided ::
          decided[c] == PostRequest(r.kind, r.ns) || (present && decided[c] == PutRequest(r.Target())))
    && (forall c <- ended :: c in decided)
    && (forall c <- ended :: ended[c].Outdated? ==> decided[c].PostRequest?)
    && (!present ==> forall c <- ended :: ended[c].Refused?)
    && (present ==> |Creators(decided, ended)| == 1)
  }

  /** The object is there exactly when some call took effect, and then it is the last such call's. */
  predicate FairObject(r: Race, objects: map<Key, string>, ended: map<Caller, Outcome>, last: Option<Caller>) {
    && (r.Target() in objects <==> last.Some?)
    && (last.Some? ==> last.value in ended && ended[last.value].Took? && objects[r.Target()] == r.body(last.value))
  }

  predicate Fair(r: Race, s: State) {
    && FairCalls(r, r.Target() in s.store.Objects(), s.decided, s.ended)
    && FairObject(r, s.store.Objects(), s.ended, s.last)
  }

  /** A write takes effect unless it is refused, or is a POST for a name that is taken by now. */
  function OutcomeOf(present: bool, request: Request, refused: bool): Outcome {
    if refused then Refused else if present && request.PostRequest? then Outdated else Took
  }

  lemma {:induction false} EndKeepsFair(r: Race, present: bool, decided: map<Caller, Request>,
                                        ended: map<Caller, Outcome>,
                                        c: Caller, refused: bool)
    requires FairCalls(r, present, decided, ended) && c in decided && c !in ended
    ensures var outcome := OutcomeOf(present, decided[c], refused);
            FairCalls(r, present || outcome.Took?, decided, ended[c := outcome])
  {
    var after := ended[c := OutcomeOf(present, decided[c], refused)];
    if present || refused {
      assert Creators(decided, after) == Creators(decided, ended);
    } else {
      assert Creators(decided, after) == {c};
    }
  }

  lemma {:induction false} DecisionKeepsFair(r: Race, present: bool, decided: map<Caller, Request>,
                                             ended: map<Caller, Outcome>, c: Caller, request: Request)
    requires FairCalls(r, present, decided, ended) && c !in decided
    requires request == PostRequest(r.kind, r.ns) || (present && request == PutRequest(r.Target()))
    ensures FairCalls(r, present, decided[c := request], ended)
  {
    assert Creators(decided[c := request], ended) == Creators(decided, ended);
  }

  lemma {:induction false} WriteTakes(r: Race, s: State, c: Caller, refused: bool)
    requires Fair(r, s) && c in s.decided && c !in s.ended
    ensures var outcome := OutcomeOf(r.Target() in s.store.Objects(), s.decided[c], refused);
            var t := Do(r, s, Writes(c, refused));
            && t.decided == s.decided && t.ended == s.ended[c := outcome]
            && t.last == (if outcome.Took? then Some(c) else s.last)
            && t.store.Objects() ==
               (if outcome.Took? then s.store.Objects()[r.Target() := r.body(c)] else s.store.Objects())
  {
    PerformObjects(s.store, OpOf(s.decided[c], r.ManifestOf(c)).value);
  }

  lemma {:induction false} MoveKeepsFair(r: Race, s: State, m: Move)
    requires Fair(r, s) && LeavesAlone(r, m)
    ensures Fair(r, Do(r, s, m))
  {
    match m
    case Foreign(op) => PerformObjects(s.store, op);
    case Lists(c) =>
      if c !in s.decided {
        ListedIff(s.store, r.kind, r.ns, r.selector(c), r.name);
        var request := Decide(Listed(s.store, r.kind, r.ns, r.selector(c)), r.kind, r.ns, r.ManifestOf(c)).value;
        DecisionKeepsFair(r, r.Target() in s.store.Objects(), s.decided, s.ended, c, request);
      }
    case Writes(c, refused) =>
      if c in s.decided && c !in s.ended {
        WriteTakes(r, s, c, refused);
        EndKeepsFair(r, r.Target() in s.store.Objects(), s.decided, s.ended, c, refused);
      }
  }

  lemma {:induction false} RunKeepsFair(r: Race, store: Store, moves: seq<Move>)
    requires r.Target() !in store.Objects()
    requires forall i | 0 <= i < |moves| :: LeavesAlone(r, moves[i])
    ensures Fair(r, After(r, Start(store), moves))
  {
    if moves != [] {
      RunKeepsFair(r, store, moves[..|moves| - 1]);
      MoveKeepsFair(r, After(r, Start(store), moves[..|moves| - 1]), moves[|moves| - 1]);
    }
  }

  /** The outcome once the object is there: one creator, and the body of the last write that took effect. */
  predicate OneWinner(r: Race, s: State, creator: Caller) {
    && creator in s.ended
    && (forall c <- s.ended :: c in s.decided)
    && (forall c <- s.ended :: s.ended[c].Outdated? ==> s.decided[c].PostRequest? && c != creator)
    && (forall c <- s.ended :: s.ended[c].Took? ==> s.decided[c].PutRequest? || c == creator)
    && s.last.Some? && s.last.value in s.ended && s.ended[s.last.value].Took?
    && r.Target() in s.store.Objects() && s.store.Objects()[r.Target()] == r.body(s.last.value)
  }

  /**
   * The race for a free name that nobody else touches, over every interleaving of any number of
   * callers, whatever their selectors hide and whatever the server refuses. The name stays free
   * as long as the server refuses every write. Otherwise exactly one call has created the
   * object; every other one that was not refused replaced it, or wanted to create it too late;
   * and the object holds the body of the last call that took effect.
   */
  lemma {:induction false} OneCallerCreates(r: Race, store: Store, moves: seq<Move>)
    requires r.Target() !in store.Objects()
    requires forall i | 0 <= i < |moves| :: LeavesAlone(r, moves[i])
    ensures var s := After(r, Start(store), moves);
            if r.Target() !in s.store.Objects() then forall c <- s.ended :: s.ended[c].Refused?
            else exists creator :: Creators(s.decided, s.ended) == {creator} && OneWinner(r, s, creator)
  {
    RunKeepsFair(r, store, moves);
    var s := After(r, Start(store), moves);
    if r.Target() in s.store.Objects() {
      var creator :| creator in Creators(s.decided, s.ended);
      OnlyMember(Creators(s.decided, s.ended), creator);
      assert forall c <- s.ended ::
        c in Creators(s.decided, s.ended) <==> (s.decided[c].PostRequest? && s.ended[c].Took?);
      assert OneWinner(r, s, creator);
    }
  }

  lemma {:induction false} OnlyMember(all: set<Caller>, c: Caller)
    requires c in all && |all| == 1
    ensures all == {c}
  {
    assert |all - {c}| == 0;
  }

  // ---- One caller alone is the call ----

  function Foreigns(ops: seq<Op>): seq<Move> {
    seq(|ops|, i requires 0 <= i < |ops| => Foreign(ops[i]))
  }

  lemma {:induction false} AfterOneMore(r: Race, s: State, moves: seq<Move>, m: Move)
    ensures After(r, s, moves + [m]) == Do(r, After(r, s, moves), m)
  {
    assert (moves + [m])[..|moves|] == moves;
  }

  lemma {:induction false} ForeignsTail(m: Move, ops: seq<Op>)
    requires ops != []
    ensures [m] + Foreigns(ops) == [m] + Foreigns(ops[..|ops| - 1]) + [Foreign(ops[|ops| - 1])]
    ensures ops == ops[..|ops| - 1] + [ops[|ops| - 1]]
  {}

  lemma {:induction false} AfterForeigns(r: Race, s: State, m: Move, ops: seq<Op>)
    ensures var t := Do(r, s, m); After(r, s, [m] + Foreigns(ops)) == t.(store := t.store.PerformAll(ops))
    decreases |ops|
  {
    if ops == [] {
      AfterOneMore(r, s, [], m);
      assert [m] + Foreigns(ops) == [] + [m];
    } else {
      var init, last := ops[..|ops| - 1], ops[|ops| - 1];
      AfterForeigns(r, s, m, init);
      ForeignsTail(m, ops);
      AfterOneMore(r, s, [m] + Foreigns(init), Foreign(last));
      PerformAllConcat(Do(r, s, m).store, init, [last]);
    }
  }

  /** A caller that races with foreign clients only ends exactly as the create-or-replace call does. */
  lemma {:induction false} AloneIsTheCall(r: Race, store: Store, c: Caller, between: seq<Op>, refused: bool)
    ensures var w := Surroundings(false, between, refused, true);
            var e := Call(store, r.kind, r.ns, r.ManifestOf(c), r.selector(c), w);
            var s := After(r, Start(store), [Lists(c)] + Foreigns(between) + [Writes(c, refused)]);
            && s.store == e.store && c in s.ended
            && (s.ended[c].Took? <==> e.wrote) && (s.ended[c].Refused? <==> refused)
  {
    AfterForeigns(r, Start(store), Lists(c), between);
    AfterOneMore(r, Start(store), [Lists(c)] + Foreigns(between), Writes(c, refused));
  }

  // ---- Conservation, with other clients doing anything ----

  function Successes(s: State): set<Caller> {
    set c | c in s.ended && s.ended[c].Took?
  }

  /** The foreign requests that take effect in a run. */
  function ForeignChanges(r: Race, s: State, moves: seq<Move>): nat {
    if moves == [] then 0
    else
      var before, m := After(r, s, moves[..|moves| - 1]), moves[|moves| - 1];
      ForeignChanges(r, s, moves[..|moves| - 1])
      + (if m.Foreign? && before.store.Accepts(m.op) then 1 else 0)
  }

  lemma {:induction false} MoveAccounts(r: Race, s: State, m: Move)
    ensures var t := Do(r, s, m);
            |t.store.history| - |s.store.history| ==
            |Successes(t)| - |Successes(s)| + (if m.Foreign? && s.store.Accepts(m.op) then 1 else 0)
  {
    var t := Do(r, s, m);
    if m.Writes? && m.caller in s.decided && m.caller !in s.ended && t.ended[m.caller].Took? {
      assert Successes(t) == Successes(s) + {m.caller};
    } else {
      assert Successes(t) == Successes(s);
    }
  }

  /**
   * Over every interleaving with clients that do anything, every change on the server is
   * accounted for: one for each call that took effect, none for a call that failed.
   */
  lemma {:induction false} ChangesAccounted(r: Race, store: Store, moves: seq<Move>)
    ensures var s := After(r, Start(store), moves);
            |s.store.history| == |store.history| + |Successes(s)| + ForeignChanges(r, Start(store), moves)
  {
    if moves == [] {
      assert Successes(Start(store)) == {};
    } else {
      ChangesAccounted(r, store, moves[..|moves| - 1]);
      MoveAccounts(r, After(r, Start(store), moves[..|moves| - 1]), moves[|moves| - 1]);
    }
  }
}
