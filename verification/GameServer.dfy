/** readWriteLoop of main.go: one datagram after the other is answered until the process exits. */
module GameServer {
  import opened Basics
  import opened UdpText

  datatype SdkCall =
    | Shutdown | Ready | Allocate | Reserve | WatchGameServer | GetGameServer
    | SetLabel(key: string, value: string) | SetAnnotation(key: string, value: string)

  /** The text is trimmed when it is read, and once more for its words. */
  function OrderOf(datagram: string): Order {
    Parse(Trim(Trim(datagram)), Trim(datagram))
  }

  function Orders(datagrams: seq<string>): seq<Order> {
    seq(|datagrams|, i requires 0 <= i < |datagrams| => OrderOf(datagrams[i]))
  }

  /** What the loop does to the world. */
  datatype Effect = Reply(text: string) | Sdk(call: SdkCall)

  /** The loop is waiting for a datagram, or the process has ended. */
  datatype Status = Running | Exited(code: int) | Panicked

  /** The effects so far and whether the stop channel is closed. */
  datatype Server = Server(effects: seq<Effect>, stopped: bool, status: Status)

  /**
   * Which sends and SDK calls fail, given the effects before them; the name in the answer of the
   * SDK, none when that comes without metadata; and the clock.
   */
  datatype Surroundings = Surroundings(
    fails: (seq<Effect>, Effect) -> bool,
    name: seq<Effect> -> Option<string>,
    now: string)

  const EXIT_ERROR := 1

  /** An effect whose failure is fatal: log.Fatalf exits with status 1. */
  function Try(w: Surroundings, s: Server, e: Effect): Server
    requires s.status.Running?
  {
    if w.fails(s.effects, e) then s.(status := Exited(EXIT_ERROR)) else s.(effects := s.effects + [e])
  }

  function Then(w: Surroundings, s: Server, e: Effect): Server {
    if s.status.Running? then Try(w, s, e) else s
  }

  function Ack(txt: string): Effect {
    Reply("ACK: Echo says " + txt + "\n")
  }

  const LABEL_ERROR := Reply("ERROR: Invalid LABEL command, must use zero or 2 arguments")
  const ANNOTATION_ERROR := Reply("ERROR: Invalid ANNOTATION command, must use zero or 2 arguments\n")

  /** The shutdown call of EXIT may fail without consequence. */
  function Leave(w: Surroundings, s: Server): Server {
    if !s.status.Running? then s
    else
      var call := Sdk(Shutdown);
      s.(effects := s.effects + (if w.fails(s.effects, call) then [] else [call]), status := Exited(0))
  }

  /** The reply with the name; a nil dereference panics when there is none. */
  function Named(w: Surroundings, s: Server, name: Option<string>): Server {
    if !s.status.Running? then s
    else if name.None? then s.(status := Panicked)
    else Try(w, s, Reply("NAME: " + name.value + "\n"))
  }

  /** The switch on the first word, and the acknowledgement behind it. */
  function Handle(w: Surroundings, s: Server, o: Order): Server
    requires s.status.Running?
  {
    var args, txt := o.args, o.text;
    match o.verb
    case Exit => Leave(w, Try(w, s, Reply("ACK: Echo says " + txt + "Exit detected" + "\n")))
    case Unhealthy =>
      // closing a closed channel panics
      if s.stopped then s.(status := Panicked) else Try(w, s.(stopped := true), Ack(txt))
    case GameServer =>
      Then(w, Named(w, Try(w, s, Sdk(GetGameServer)), w.name(s.effects)), Ack(txt))
    case CallReady => Then(w, Try(w, s, Sdk(Ready)), Ack(txt))
    case CallAllocate => Then(w, Try(w, s, Sdk(Allocate)), Ack(txt))
    case CallReserve => Then(w, Try(w, s, Sdk(Reserve)), Ack(txt))
    case Watch => Then(w, Try(w, s, Sdk(WatchGameServer)), Ack(txt))
    case Label =>
      if |args| == 0 then Then(w, Try(w, s, Sdk(SetLabel("timestamp", w.now))), Ack(txt))
      else if |args| == 2 then Then(w, Try(w, s, Sdk(SetLabel(args[0], args[1]))), Ack(txt))
      else Try(w, s, LABEL_ERROR)
    case Crash => s.(status := Exited(EXIT_ERROR))
    case Annotation =>
      if |args| == 0 then Then(w, Try(w, s, Sdk(SetAnnotation("timestamp", w.now))), Ack(txt))
      else if |args| == 2 then Then(w, Try(w, s, Sdk(SetAnnotation(args[0], args[1]))), Ack(txt))
      else Try(w, s, ANNOTATION_ERROR)
    case Echo => Try(w, s, Ack(txt))
  }

  /** The loop on the datagrams that arrive, and how many of them it reads. */
  function Serve(w: Surroundings, s: Server, orders: seq<Order>): (Server, nat)
    decreases |orders|
  {
    if !s.status.Running? || orders == [] then (s, 0)
    else
      var (t, n) := Serve(w, Handle(w, s, orders[0]), orders[1..]);
      (t, n + 1)
  }

  /** After the datagrams the connection stays silent, or a failing read ends a process that still runs. */
  function Closed(s: Server, breaks: bool): Server {
    if breaks && s.status.Running? then s.(status := Exited(EXIT_ERROR)) else s
  }

  const STARTED := Server([], false, Running)

  /** The process: its connection, SDK and stop channel seen through their effects. */
  class Process {
    const w: Surroundings
    var effects: seq<Effect>
    var stopped: bool
    var status: Status

    constructor (w: Surroundings)
      ensures this.w == w && State() == STARTED
    {
      this.w := w;
      effects, stopped, status := [], false, Running;
    }

    ghost function State(): Server
      reads this
    {
      Server(effects, stopped, status)
    }

    /** respond, or an SDK call: nothing happens any more once the process has ended. */
    method Attempt(e: Effect)
      modifies this
      ensures State() == Then(w, old(State()), e)
    {
      if status.Running? {
        if w.fails(effects, e) {
          status := Exited(EXIT_ERROR);
        } else {
          effects := effects + [e];
        }
      }
    }

    method RespondName(name: Option<string>)
      modifies this
      ensures State() == Named(w, old(State()), name)
    {
      if name.Some? {
        Attempt(Reply("NAME: " + name.value + "\n"));
      } else if status.Running? {
        status := Panicked;
      }
    }

    method ExitProcess()
      modifies this
      ensures State() == Leave(w, old(State()))
    {
      if status.Running? {
        if !w.fails(effects, Sdk(Shutdown)) {
          effects := effects + [Sdk(Shutdown)];
        }
        status := Exited(0);
      }
    }

    method Obey(o: Order)
      requires status.Running?
      modifies this
      ensures State() == Handle(w, old(State()), o)
    {
      var args, txt := o.args, o.text;
      match o.verb {
        case Exit =>
          Attempt(Reply("ACK: Echo says " + txt + "Exit detected" + "\n"));
          ExitProcess();
          return;
        case Unhealthy =>
          if stopped {
            status := Panicked;
            return;
          }
          stopped := true;
        case GameServer =>
          var name := w.name(effects);
          Attempt(Sdk(GetGameServer));
          RespondName(name);
        case CallReady => Attempt(Sdk(Ready));
        case CallAllocate => Attempt(Sdk(Allocate));
        case CallReserve => Attempt(Sdk(Reserve));
        case Watch => Attempt(Sdk(WatchGameServer));
        case Label =>
          if |args| == 0 {
            Attempt(Sdk(SetLabel("timestamp", w.now)));
          } else if |args| == 2 {
            Attempt(Sdk(SetLabel(args[0], args[1])));
          } else {
            Attempt(LABEL_ERROR);
            return;
          }
        case Crash =>
          status := Exited(EXIT_ERROR);
          return;
        case Annotation =>
          if |args| == 0 {
            Attempt(Sdk(SetAnnotation("timestamp", w.now)));
          } else if |args| == 2 {
            Attempt(Sdk(SetAnnotation(args[0], args[1])));
          } else {
            Attempt(ANNOTATION_ERROR);
            return;
          }
        case Echo =>
      }
      Attempt(Ack(txt));
    }

    /** The endless loop, on the orders that the datagrams are. */
    method Loop(orders: seq<Order>) returns (read: nat)
      requires status.Running?
      modifies this
      ensures (State(), read) == Serve(w, old(State()), orders)
    {
      read := 0;
      while status.Running? && read < |orders|
        invariant read <= |orders|
        invariant var (t, n) := Serve(w, State(), orders[read..]);
                  (t, read + n) == Serve(w, old(State()), orders)
        decreases |orders| - read
      {
        assert orders[read..][1..] == orders[read + 1..];
        Obey(orders[read]);
        read := read + 1;
      }
    }

    /** The loop; after the datagrams the connection stays silent or breaks. */
    method ReadWriteLoop(datagrams: seq<string>, breaks: bool) returns (read: nat)
      requires status.Running?
      modifies this
      ensures var (t, n) := Serve(w, old(State()), Orders(datagrams));
              State() == Closed(t, breaks) && read == n
    {
      read := Loop(Orders(datagrams));
      if status.Running? && breaks {
        status := Exited(EXIT_ERROR);
      }
    }
  }

  // ---- What clients see ----

  function ReplyOf(e: Effect): Option<string> {
    if e.Reply? then Some(e.text) else None
  }

  function Replies(effects: seq<Effect>): nat {
    |Collect(effects, ReplyOf)|
  }

  ghost predicate NeverFails(w: Surroundings) {
    forall effects, e :: !w.fails(effects, e)
  }

  lemma {:induction false} ThenReplies(w: Surroundings, s: Server, e: Effect)
    requires NeverFails(w) && s.status.Running?
    ensures Then(w, s, e) == s.(effects := s.effects + [e])
    ensures Replies(s.effects + [e]) == Replies(s.effects) + (if e.Reply? then 1 else 0)
  {
    CollectAppend(s.effects, e, ReplyOf);
    assert !w.fails(s.effects, e);
  }

  /** Closing the closed channel again. */
  predicate ClosesTwice(s: Server, command: Verb) {
    s.stopped && command.Unhealthy?
  }

  /** An SDK call or a reply in front of the acknowledgement. */
  lemma {:induction false} ThenAck(w: Surroundings, s: Server, e: Effect, txt: string)
    requires NeverFails(w) && s.status.Running?
    ensures var t := Then(w, Try(w, s, e), Ack(txt));
            && Replies(t.effects) == Replies(s.effects) + (if e.Reply? then 2 else 1)
            && t.stopped == s.stopped && t.status.Running?
    ensures var t := Try(w, s, e);
            && Replies(t.effects) == Replies(s.effects) + (if e.Reply? then 1 else 0)
            && t.stopped == s.stopped && t.status.Running?
  {
    ThenReplies(w, s, e);
    ThenReplies(w, Try(w, s, e), Ack(txt));
  }

  /** A GAMESERVER whose answer lacks the metadata with the name. */
  predicate Nameless(w: Surroundings, s: Server, o: Order) {
    o.verb.GameServer? && w.name(s.effects).None?
  }

  predicate Panics(w: Surroundings, s: Server, o: Order) {
    ClosesTwice(s, o.verb) || Nameless(w, s, o)
  }

  function AnswersTo(w: Surroundings, s: Server, o: Order): nat {
    if o.verb.Crash? || Panics(w, s, o) then 0 else if o.verb.GameServer? then 2 else 1
  }

  function StatusAfter(w: Surroundings, s: Server, o: Order): Status {
    if o.verb.Exit? then Exited(0)
    else if o.verb.Crash? then Exited(EXIT_ERROR)
    else if Panics(w, s, o) then Panicked else Running
  }

  /** How many replies a datagram gets, and whether the loop goes on. */
  predicate Answers(w: Surroundings, s: Server, t: Server, o: Order) {
    && Replies(t.effects) == Replies(s.effects) + AnswersTo(w, s, o)
    && t.stopped == (s.stopped || o.verb.Unhealthy?)
    && t.status == StatusAfter(w, s, o)
  }

  lemma {:induction false} LabelAnswers(w: Surroundings, s: Server, o: Order)
    requires NeverFails(w) && s.status.Running? && o.verb.Label?
    ensures Answers(w, s, Handle(w, s, o), o)
  {
    var args, txt := o.args, o.text;
    ThenAck(w, s, LABEL_ERROR, txt);
    ThenAck(w, s, Sdk(SetLabel("timestamp", w.now)), txt);
    if |args| == 2 {
      ThenAck(w, s, Sdk(SetLabel(args[0], args[1])), txt);
    }
  }

  lemma {:induction false} AnnotationAnswers(w: Surroundings, s: Server, o: Order)
    requires NeverFails(w) && s.status.Running? && o.verb.Annotation?
    ensures Answers(w, s, Handle(w, s, o), o)
  {
    var args, txt := o.args, o.text;
    ThenAck(w, s, ANNOTATION_ERROR, txt);
    ThenAck(w, s, Sdk(SetAnnotation("timestamp", w.now)), txt);
    if |args| == 2 {
      ThenAck(w, s, Sdk(SetAnnotation(args[0], args[1])), txt);
    }
  }

  lemma {:induction false} NameAnswers(w: Surroundings, s: Server, o: Order)
    requires NeverFails(w) && s.status.Running? && o.verb.GameServer?
    ensures Answers(w, s, Handle(w, s, o), o)
  {
    var name := w.name(s.effects);
    ThenReplies(w, s, Sdk(GetGameServer));
    if name.Some? {
      ThenAck(w, Try(w, s, Sdk(GetGameServer)), Reply("NAME: " + name.value + "\n"), o.text);
    }
  }

  /** One datagram when nothing fails. */
  lemma {:induction false} HandleAnswers(w: Surroundings, s: Server, o: Order)
    requires NeverFails(w) && s.status.Running?
    ensures Answers(w, s, Handle(w, s, o), o)
  {
    var txt := o.text;
    match o.verb
    case Exit =>
      var last := Reply("ACK: Echo says " + txt + "Exit detected" + "\n");
      ThenReplies(w, s, last);
      ThenReplies(w, Try(w, s, last), Sdk(Shutdown));
    case Unhealthy =>
      if !s.stopped {
        ThenReplies(w, s.(stopped := true), Ack(txt));
      }
    case GameServer =>
      NameAnswers(w, s, o);
    case CallReady => ThenAck(w, s, Sdk(Ready), txt);
    case CallAllocate => ThenAck(w, s, Sdk(Allocate), txt);
    case CallReserve => ThenAck(w, s, Sdk(Reserve), txt);
    case Watch => ThenAck(w, s, Sdk(WatchGameServer), txt);
    case Label => LabelAnswers(w, s, o);
    case Annotation => AnnotationAnswers(w, s, o);
    case Crash =>
    case Echo =>
      ThenReplies(w, s, Ack(txt));
  }

  lemma {:induction false} ServeUnfolds(w: Surroundings, s: Server, orders: seq<Order>)
    requires s.status.Running? && orders != []
    ensures var (t, n) := Serve(w, Handle(w, s, orders[0]), orders[1..]);
            Serve(w, s, orders) == (t, n + 1)
  {}

  /** The state in front of each datagram. */
  function Before(w: Surroundings, s: Server, orders: seq<Order>, i: nat): Server
    requires i <= |orders|
  {
    Serve(w, s, orders[..i]).0
  }

  lemma {:induction false} BeforeCons(w: Surroundings, s: Server, orders: seq<Order>, i: nat)
    requires s.status.Running? && i < |orders|
    ensures Before(w, s, orders, 0) == s
    ensures Before(w, s, orders, i + 1) == Before(w, Handle(w, s, orders[0]), orders[1..], i)
  {
    assert orders[..i + 1][1..] == orders[1..][..i];
    assert orders[..0] == [];
  }

  /** An UNHEALTHY that is not the first one. */
  predicate UnhealthyAgain(orders: seq<Order>, i: nat, stopped: bool)
    requires i < |orders|
  {
    orders[i].verb.Unhealthy? && (stopped || exists j | 0 <= j < i :: orders[j].verb.Unhealthy?)
  }

  /** A datagram that ends the loop, given the ones before it. */
  predicate Ends(w: Surroundings, s: Server, orders: seq<Order>, i: nat)
    requires i < |orders|
  {
    || orders[i].verb.Exit? || orders[i].verb.Crash?
    || UnhealthyAgain(orders, i, s.stopped) || Nameless(w, Before(w, s, orders, i), orders[i])
  }

  function GameServerOf(o: Order): Option<Order> {
    if o.verb.GameServer? then Some(o) else None
  }

  lemma {:induction false} AgainShift(orders: seq<Order>, i: nat, stopped: bool)
    requires 0 < i < |orders|
    ensures UnhealthyAgain(orders, i, stopped)
         == UnhealthyAgain(orders[1..], i - 1, stopped || orders[0].verb.Unhealthy?)
  {
    assert forall j | 0 <= j < |orders| - 1 :: orders[1..][j] == orders[j + 1];
    if j :| 0 <= j < i && orders[j].verb.Unhealthy? {
      assert j > 0 ==> orders[1..][j - 1].verb.Unhealthy?;
    }
  }

  lemma {:induction false} EndsShift(w: Surroundings, s: Server, orders: seq<Order>, i: nat)
    requires s.status.Running? && 0 < i < |orders|
    requires Handle(w, s, orders[0]).stopped == (s.stopped || orders[0].verb.Unhealthy?)
    ensures Ends(w, s, orders, i) == Ends(w, Handle(w, s, orders[0]), orders[1..], i - 1)
  {
    AgainShift(orders, i, s.stopped);
    BeforeCons(w, s, orders, i - 1);
  }

  lemma {:induction false} GameServersCons(orders: seq<Order>, n: nat)
    requires 0 < n <= |orders|
    ensures |Collect(orders[..n], GameServerOf)|
         == |Collect(orders[1..][..n - 1], GameServerOf)| + (if orders[0].verb.GameServer? then 1 else 0)
  {
    assert orders[..n] == [orders[0]] + orders[1..][..n - 1];
    CollectCons(orders[0], orders[1..][..n - 1], GameServerOf);
  }

  /** The loop ends after the first datagram that ends it, and only then; the reason is the status. */
  predicate StopsAtFirstEnd(w: Surroundings, s: Server, orders: seq<Order>, n: nat, status: Status) {
    && n <= |orders|
    && (forall i | 0 <= i < n - 1 :: !Ends(w, s, orders, i))
    && (status.Running? ==> n == |orders| && (n > 0 ==> !Ends(w, s, orders, n - 1)))
    && (!status.Running? ==> n > 0 && Ends(w, s, orders, n - 1))
    && (!status.Running? ==> status == (if orders[n - 1].verb.Exit? then Exited(0)
                                        else if orders[n - 1].verb.Crash? then Exited(1) else Panicked))
  }

  lemma {:induction false} FirstEnds(w: Surroundings, s: Server, orders: seq<Order>)
    requires NeverFails(w) && s.status.Running? && orders != []
    ensures Ends(w, s, orders, 0) <==> !Handle(w, s, orders[0]).status.Running?
  {
    HandleAnswers(w, s, orders[0]);
    BeforeCons(w, s, orders, 0);
  }

  /**
   * When nothing fails, the loop reads up to the first EXIT, CRASH, second UNHEALTHY or
   * GAMESERVER without a name, and nothing after it.
   */
  lemma {:induction false} ServeStops(w: Surroundings, s: Server, orders: seq<Order>)
    requires NeverFails(w) && s.status.Running?
    ensures var (t, n) := Serve(w, s, orders);
            StopsAtFirstEnd(w, s, orders, n, t.status)
    decreases |orders|
  {
    if orders != [] {
      var first, rest := Handle(w, s, orders[0]), orders[1..];
      HandleAnswers(w, s, orders[0]);
      FirstEnds(w, s, orders);
      ServeUnfolds(w, s, orders);
      if first.status.Running? {
        ServeStops(w, first, rest);
        var (t, n) := Serve(w, first, rest);
        StopsShift(w, s, orders, n, t.status);
      }
    }
  }

  lemma {:induction false} StopsShift(w: Surroundings, s: Server, orders: seq<Order>, n: nat, status: Status)
    requires s.status.Running? && orders != [] && !Ends(w, s, orders, 0)
    requires Handle(w, s, orders[0]).stopped == (s.stopped || orders[0].verb.Unhealthy?)
    requires StopsAtFirstEnd(w, Handle(w, s, orders[0]), orders[1..], n, status)
    ensures StopsAtFirstEnd(w, s, orders, n + 1, status)
  {
    forall i | 0 < i < |orders|
      ensures Ends(w, s, orders, i) == Ends(w, Handle(w, s, orders[0]), orders[1..], i - 1)
    {
      EndsShift(w, s, orders, i);
    }
  }

  predicate SomeUnhealthy(orders: seq<Order>) {
    exists i | 0 <= i < |orders| :: orders[i].verb.Unhealthy?
  }

  lemma {:induction false} SomeUnhealthyCons(orders: seq<Order>, n: nat)
    requires n < |orders|
    ensures SomeUnhealthy(orders[..n + 1]) == (orders[0].verb.Unhealthy? || SomeUnhealthy(orders[1..][..n]))
  {
    assert orders[..n + 1] == [orders[0]] + orders[1..][..n];
    assert forall i | 0 <= i < n :: orders[..n + 1][i + 1] == orders[1..][..n][i];
    assert orders[..n + 1][0] == orders[0];
  }

  /** The stop channel is closed exactly when an UNHEALTHY was read. */
  lemma {:induction false} ServeClosesStop(w: Surroundings, s: Server, orders: seq<Order>)
    requires NeverFails(w) && s.status.Running?
    ensures var (t, n) := Serve(w, s, orders);
            n <= |orders| && t.stopped == (s.stopped || SomeUnhealthy(orders[..n]))
    decreases |orders|
  {
    if orders != [] {
      var first, rest := Handle(w, s, orders[0]), orders[1..];
      HandleAnswers(w, s, orders[0]);
      ServeUnfolds(w, s, orders);
      if first.status.Running? {
        ServeClosesStop(w, first, rest);
        SomeUnhealthyCons(orders, Serve(w, first, rest).1);
      } else {
        SomeUnhealthyCons(orders, 0);
        assert rest[..0] == [];
      }
    }
  }

  /** The replies that the last datagram read did not get. */
  function Unanswered(orders: seq<Order>, n: nat, status: Status): nat {
    if status.Panicked? && 0 < n <= |orders| && orders[n - 1].verb.GameServer? then 2
    else if status.Panicked? || status == Exited(1) then 1 else 0
  }

  /**
   * When nothing fails, the loop sends one reply for each datagram read and one more for each
   * GAMESERVER, but none for a CRASH or for the UNHEALTHY or GAMESERVER that panics.
   */
  lemma {:induction false} ServeAnswers(w: Surroundings, s: Server, orders: seq<Order>)
    requires NeverFails(w) && s.status.Running?
    ensures var (t, n) := Serve(w, s, orders);
            && n <= |orders|
            && Replies(t.effects) == Replies(s.effects) + n + |Collect(orders[..n], GameServerOf)|
                 - Unanswered(orders, n, t.status)
    decreases |orders|
  {
    if orders == [] {
      assert orders[..0] == [];
    } else {
      var first, rest := Handle(w, s, orders[0]), orders[1..];
      HandleAnswers(w, s, orders[0]);
      ServeUnfolds(w, s, orders);
      if first.status.Running? {
        ServeAnswers(w, first, rest);
      }
      var (t, n) := Serve(w, first, rest);
      GameServersCons(orders, n + 1);
      assert rest[..0] == [] && Collect([], GameServerOf) == [];
    }
  }

  // ---- What a run without failures does ----

  /** The SDK call for the words of a datagram that is acknowledged behind it. */
  function CallOn(words: seq<string>, now: string): seq<Effect>
    requires words != []
  {
    if words[0] == "READY" then [Sdk(Ready)]
    else if words[0] == "ALLOCATE" then [Sdk(Allocate)]
    else if words[0] == "RESERVE" then [Sdk(Reserve)]
    else if words[0] == "WATCH" then [Sdk(WatchGameServer)]
    else if words[0] == "LABEL" && |words| == 1 then [Sdk(SetLabel("timestamp", now))]
    else if words[0] == "LABEL" && |words| == 3 then [Sdk(SetLabel(words[1], words[2]))]
    else if words[0] == "ANNOTATION" && |words| == 1 then [Sdk(SetAnnotation("timestamp", now))]
    else if words[0] == "ANNOTATION" && |words| == 3 then [Sdk(SetAnnotation(words[1], words[2]))]
    else []
  }

  /** All that one datagram makes the process do, given its words, the name of the game server and the stop channel. */
  function DoneOn(words: seq<string>, text: string, name: Option<string>, stopped: bool, now: string): seq<Effect>
    requires words != []
  {
    var ack := [Reply("ACK: Echo says " + text + "\n")];
    if words[0] == "EXIT" then [Reply("ACK: Echo says " + text + "Exit detected" + "\n"), Sdk(Shutdown)]
    else if words[0] == "CRASH" || (words[0] == "UNHEALTHY" && stopped) then []
    else if words[0] == "GAMESERVER" && name.None? then [Sdk(GetGameServer)]
    else if words[0] == "GAMESERVER" then [Sdk(GetGameServer), Reply("NAME: " + name.value + "\n")] + ack
    else if words[0] == "LABEL" && |words| != 1 && |words| != 3 then
      [Reply("ERROR: Invalid LABEL command, must use zero or 2 arguments")]
    else if words[0] == "ANNOTATION" && |words| != 1 && |words| != 3 then
      [Reply("ERROR: Invalid ANNOTATION command, must use zero or 2 arguments\n")]
    else CallOn(words, now) + ack
  }

  function OnDatagram(w: Surroundings, seen: seq<Effect>, stopped: bool, datagram: string): seq<Effect> {
    seen + DoneOn(Split(Trim(datagram), ' '), Trim(datagram), w.name(seen), stopped, w.now)
  }

  predicate IsUnhealthy(datagram: string) {
    Split(Trim(datagram), ' ')[0] == "UNHEALTHY"
  }

  /** What one datagram adds to what has been done, given whether the stop channel is closed. */
  type Deed = (seq<Effect>, bool, string) -> seq<Effect>

  function DeedOf(w: Surroundings): Deed {
    (seen, stopped, datagram) => OnDatagram(w, seen, stopped, datagram)
  }

  /** All that has been done after some datagrams. */
  function DoneFor(deed: Deed, closes: string -> bool, seen: seq<Effect>, stopped: bool, datagrams: seq<string>)
    : seq<Effect>
    decreases |datagrams|
  {
    if datagrams == [] then seen
    else
      DoneFor(deed, closes, deed(seen, stopped, datagrams[0]), stopped || closes(datagrams[0]), datagrams[1..])
  }

  lemma {:induction false} OrderWords(datagram: string)
    ensures var words, o := Split(Trim(datagram), ' '), OrderOf(datagram);
            words == [words[0]] + o.args && o.verb == VerbOf(words[0]) && o.text == Trim(datagram)
  {
    TrimTwice(datagram);
  }

  /** Two effects in a row, and one. */
  lemma {:induction false} Both(w: Surroundings, s: Server, e: Effect, f: Effect)
    requires NeverFails(w) && s.status.Running?
    ensures Then(w, Try(w, s, e), f) == s.(effects := s.effects + [e, f])
    ensures Try(w, s, e) == s.(effects := s.effects + [e])
  {
    ThenReplies(w, s, e);
    ThenReplies(w, Try(w, s, e), f);
    assert s.effects + [e] + [f] == s.effects + [e, f];
  }

  lemma {:induction false} ExitDoes(w: Surroundings, s: Server, last: Effect)
    requires NeverFails(w) && s.status.Running?
    ensures Leave(w, Try(w, s, last)) == s.(effects := s.effects + [last, Sdk(Shutdown)], status := Exited(0))
  {
    Both(w, s, last, Sdk(Shutdown));
    assert !w.fails(s.effects + [last], Sdk(Shutdown));
    assert s.effects + [last] + [Sdk(Shutdown)] == s.effects + [last, Sdk(Shutdown)];
  }

  lemma {:induction false} NameDoes(w: Surroundings, s: Server, name: Option<string>, ack: Effect)
    requires NeverFails(w) && s.status.Running?
    ensures var t := Then(w, Named(w, Try(w, s, Sdk(GetGameServer)), name), ack);
            t.effects == s.effects + [Sdk(GetGameServer)]
                         + (if name.Some? then [Reply("NAME: " + name.value + "\n"), ack] else [])
  {
    ThenReplies(w, s, Sdk(GetGameServer));
    if name.Some? {
      Both(w, Try(w, s, Sdk(GetGameServer)), Reply("NAME: " + name.value + "\n"), ack);
    }
  }

  lemma {:induction false} LabelDoes(w: Surroundings, s: Server, o: Order, words: seq<string>)
    requires NeverFails(w) && s.status.Running? && (o.verb.Label? || o.verb.Annotation?)
    requires words != [] && words == [words[0]] + o.args && o.verb == VerbOf(words[0])
    ensures Handle(w, s, o).effects == s.effects + DoneOn(words, o.text, w.name(s.effects), s.stopped, w.now)
  {
    VerbIs(words[0]);
    var ack := Ack(o.text);
    Both(w, s, LABEL_ERROR, ack);
    Both(w, s, ANNOTATION_ERROR, ack);
    Both(w, s, Sdk(SetLabel("timestamp", w.now)), ack);
    Both(w, s, Sdk(SetAnnotation("timestamp", w.now)), ack);
    if |o.args| == 2 {
      assert words[1] == o.args[0] && words[2] == o.args[1];
      Both(w, s, Sdk(SetLabel(words[1], words[2])), ack);
      Both(w, s, Sdk(SetAnnotation(words[1], words[2])), ack);
    }
  }

  lemma {:induction false} CallDoes(w: Surroundings, s: Server, o: Order, words: seq<string>, call: SdkCall)
    requires NeverFails(w) && s.status.Running?
    requires words != [] && words == [words[0]] + o.args && o.verb == VerbOf(words[0])
    requires (o.verb.CallReady? && call == Ready) || (o.verb.CallAllocate? && call == Allocate)
             || (o.verb.CallReserve? && call == Reserve) || (o.verb.Watch? && call == WatchGameServer)
    ensures Handle(w, s, o).effects == s.effects + DoneOn(words, o.text, w.name(s.effects), s.stopped, w.now)
  {
    VerbIs(words[0]);
    Both(w, s, Sdk(call), Ack(o.text));
    assert [Sdk(call)] + [Ack(o.text)] == [Sdk(call), Ack(o.text)];
  }

  lemma {:induction false} HandleDoes(w: Surroundings, s: Server, o: Order, words: seq<string>)
    requires NeverFails(w) && s.status.Running?
    requires words != [] && words == [words[0]] + o.args && o.verb == VerbOf(words[0])
    ensures Handle(w, s, o).effects == s.effects + DoneOn(words, o.text, w.name(s.effects), s.stopped, w.now)
    ensures Handle(w, s, o).stopped == (s.stopped || words[0] == "UNHEALTHY")
  {
    HandleAnswers(w, s, o);
    VerbIs(words[0]);
    var ack := Ack(o.text);
    match o.verb
    case Exit => ExitDoes(w, s, Reply("ACK: Echo says " + o.text + "Exit detected" + "\n"));
    case Unhealthy => if !s.stopped { Both(w, s.(stopped := true), ack, ack); }
    case GameServer => NameDoes(w, s, w.name(s.effects), ack);
    case CallReady => CallDoes(w, s, o, words, Ready);
    case CallAllocate => CallDoes(w, s, o, words, Allocate);
    case CallReserve => CallDoes(w, s, o, words, Reserve);
    case Watch => CallDoes(w, s, o, words, WatchGameServer);
    case Label => LabelDoes(w, s, o, words);
    case Annotation => LabelDoes(w, s, o, words);
    case Crash =>
    case Echo => Both(w, s, ack, ack);
  }

  /** One datagram in front of others. */
  lemma {:induction false} DoneCons(deed: Deed, closes: string -> bool, seen: seq<Effect>, stopped: bool,
                                    datagrams: seq<string>, n: nat, first: seq<Effect>, all: seq<Effect>)
    requires n < |datagrams| && first == deed(seen, stopped, datagrams[0])
    requires all == DoneFor(deed, closes, first, stopped || closes(datagrams[0]), datagrams[1..][..n])
    ensures all == DoneFor(deed, closes, seen, stopped, datagrams[..n + 1])
  {
    var read := datagrams[..n + 1];
    assert read[0] == datagrams[0] && read[1..] == datagrams[1..][..n];
  }

  lemma {:induction false} DoneOne(deed: Deed, closes: string -> bool, seen: seq<Effect>, stopped: bool,
                                   datagrams: seq<string>)
    requires datagrams != []
    ensures deed(seen, stopped, datagrams[0]) == DoneFor(deed, closes, seen, stopped, datagrams[..1])
  {
    var first := deed(seen, stopped, datagrams[0]);
    assert datagrams[1..][..0] == [];
    DoneCons(deed, closes, seen, stopped, datagrams, 0, first, first);
  }

  function Parsed(parse: string -> Order, datagrams: seq<string>): seq<Order> {
    seq(|datagrams|, i requires 0 <= i < |datagrams| => parse(datagrams[i]))
  }

  /** The order of a datagram does the deed of that datagram. */
  predicate DoesAt(w: Surroundings, parse: string -> Order, deed: Deed, closes: string -> bool, u: Server, d: string) {
    u.status.Running? ==>
      && Handle(w, u, parse(d)).effects == deed(u.effects, u.stopped, d)
      && Handle(w, u, parse(d)).stopped == (u.stopped || closes(d))
  }

  ghost predicate Does(w: Surroundings, parse: string -> Order, deed: Deed, closes: string -> bool) {
    forall u: Server, d: string :: DoesAt(w, parse, deed, closes, u, d)
  }

  /** However datagrams become orders: what the orders do one by one, the run does in sequence. */
  lemma {:induction false} RunDoes(w: Surroundings, s: Server, parse: string -> Order, deed: Deed,
                                   closes: string -> bool, datagrams: seq<string>)
    requires s.status.Running? && Does(w, parse, deed, closes)
    ensures var (t, n) := Serve(w, s, Parsed(parse, datagrams));
            n <= |datagrams| && t.effects == DoneFor(deed, closes, s.effects, s.stopped, datagrams[..n])
    decreases |datagrams|
  {
    var orders := Parsed(parse, datagrams);
    if datagrams == [] {
      assert orders == [] && datagrams[..0] == [];
    } else {
      var u, rest := Handle(w, s, parse(datagrams[0])), datagrams[1..];
      assert DoesAt(w, parse, deed, closes, s, datagrams[0]);
      assert orders[1..] == Parsed(parse, rest);
      ServeUnfolds(w, s, orders);
      if u.status.Running? {
        RunDoes(w, u, parse, deed, closes, rest);
        var (t, n) := Serve(w, u, Parsed(parse, rest));
        DoneCons(deed, closes, s.effects, s.stopped, datagrams, n, u.effects, t.effects);
      } else {
        DoneOne(deed, closes, s.effects, s.stopped, datagrams);
      }
    }
  }

  /**
   * When nothing fails, everything that the process does is determined by the datagrams read:
   * for each in order, its SDK call and its replies, by the words of the datagram.
   */
  lemma {:induction false} ServeEffects(w: Surroundings, s: Server, datagrams: seq<string>)
    requires NeverFails(w) && s.status.Running?
    ensures var (t, n) := Serve(w, s, Orders(datagrams));
            && n <= |datagrams|
            && t.effects == DoneFor(DeedOf(w), IsUnhealthy, s.effects, s.stopped, datagrams[..n])
  {
    EveryDatagramDoes(w);
    OrdersAreParsed(datagrams);
    RunDoes(w, s, OrderOf, DeedOf(w), IsUnhealthy, datagrams);
  }

  lemma {:induction false} OrdersAreParsed(datagrams: seq<string>)
    ensures Orders(datagrams) == Parsed(OrderOf, datagrams)
  {}

  lemma {:induction false} DatagramDoes(w: Surroundings, u: Server, d: string)
    requires NeverFails(w)
    ensures DoesAt(w, OrderOf, DeedOf(w), IsUnhealthy, u, d)
  {
    if u.status.Running? {
      OrderWords(d);
      HandleDoes(w, u, OrderOf(d), Split(Trim(d), ' '));
    }
  }

  lemma {:induction false} EveryDatagramDoes(w: Surroundings)
    requires NeverFails(w)
    ensures Does(w, OrderOf, DeedOf(w), IsUnhealthy)
  {
    forall u: Server, d: string
      ensures DoesAt(w, OrderOf, DeedOf(w), IsUnhealthy, u, d)
    {
      DatagramDoes(w, u, d);
    }
  }

  // ---- When sends and SDK calls fail ----

  function Unfailing(w: Surroundings): Surroundings {
    w.(fails := (_, _) => false)
  }

  /**
   * `t` is `u` cut short by a fatal failure, if any: the same effects up to the failure and exit
   * status 1. Only the shutdown call of EXIT may be missing without ending anything.
   */
  predicate Cut(t: Server, u: Server) {
    if t.status.Running? then t == u
    else
      && t.effects <= u.effects
      && (t.status == Exited(1)
          || (t.status == u.status && t.stopped == u.stopped && u.effects in {t.effects, t.effects + [Sdk(Shutdown)]}))
  }

  lemma {:induction false} ThenCut(w: Surroundings, t: Server, u: Server, e: Effect)
    requires Cut(t, u)
    ensures Cut(Then(w, t, e), Then(Unfailing(w), u, e)) && u.effects <= Then(Unfailing(w), u, e).effects
  {}

  lemma {:induction false} NamedCut(w: Surroundings, t: Server, u: Server, name: Option<string>)
    requires Cut(t, u)
    ensures Cut(Named(w, t, name), Named(Unfailing(w), u, name)) && u.effects <= Named(Unfailing(w), u, name).effects
  {}

  lemma {:induction false} LeaveCut(w: Surroundings, t: Server, u: Server)
    requires Cut(t, u)
    ensures Cut(Leave(w, t), Leave(Unfailing(w), u)) && u.effects <= Leave(Unfailing(w), u).effects
  {
    assert t.effects + [] == t.effects;
  }

  /** Most commands are an effect, and the acknowledgement behind it. */
  lemma {:induction false} TwoCut(w: Surroundings, s: Server, e: Effect, f: Effect)
    requires s.status.Running?
    ensures var free := Unfailing(w);
            && Cut(Try(w, s, e), Try(free, s, e)) && Cut(Then(w, Try(w, s, e), f), Then(free, Try(free, s, e), f))
            && s.effects <= Try(free, s, e).effects <= Then(free, Try(free, s, e), f).effects
  {
    ThenCut(w, s, s, e);
    ThenCut(w, Try(w, s, e), Try(Unfailing(w), s, e), f);
  }

  lemma {:induction false} LabelCut(w: Surroundings, s: Server, o: Order)
    requires s.status.Running? && (o.verb.Label? || o.verb.Annotation?)
    ensures Cut(Handle(w, s, o), Handle(Unfailing(w), s, o))
    ensures s.effects <= Handle(Unfailing(w), s, o).effects
  {
    var args, ack := o.args, Ack(o.text);
    TwoCut(w, s, LABEL_ERROR, ack);
    TwoCut(w, s, ANNOTATION_ERROR, ack);
    TwoCut(w, s, Sdk(SetLabel("timestamp", w.now)), ack);
    TwoCut(w, s, Sdk(SetAnnotation("timestamp", w.now)), ack);
    if |args| == 2 {
      TwoCut(w, s, Sdk(SetLabel(args[0], args[1])), ack);
      TwoCut(w, s, Sdk(SetAnnotation(args[0], args[1])), ack);
    }
  }

  lemma {:induction false} HandleCut(w: Surroundings, s: Server, o: Order)
    requires s.status.Running?
    ensures Cut(Handle(w, s, o), Handle(Unfailing(w), s, o))
    ensures s.effects <= Handle(Unfailing(w), s, o).effects
  {
    var txt, free := o.text, Unfailing(w);
    var ack := Ack(txt);
    match o.verb
    case Exit =>
      var last := Reply("ACK: Echo says " + txt + "Exit detected" + "\n");
      TwoCut(w, s, last, ack);
      LeaveCut(w, Try(w, s, last), Try(free, s, last));
    case Unhealthy => if !s.stopped { TwoCut(w, s.(stopped := true), ack, ack); }
    case GameServer =>
      var name, call := w.name(s.effects), Sdk(GetGameServer);
      TwoCut(w, s, call, ack);
      NamedCut(w, Try(w, s, call), Try(free, s, call), name);
      ThenCut(w, Named(w, Try(w, s, call), name), Named(free, Try(free, s, call), name), ack);
    case CallReady => TwoCut(w, s, Sdk(Ready), ack);
    case CallAllocate => TwoCut(w, s, Sdk(Allocate), ack);
    case CallReserve => TwoCut(w, s, Sdk(Reserve), ack);
    case Watch => TwoCut(w, s, Sdk(WatchGameServer), ack);
    case Label => LabelCut(w, s, o);
    case Annotation => LabelCut(w, s, o);
    case Crash =>
    case Echo => TwoCut(w, s, ack, ack);
  }

  lemma {:induction false} ServeGrows(w: Surroundings, s: Server, orders: seq<Order>)
    ensures s.effects <= Serve(Unfailing(w), s, orders).0.effects
    decreases |orders|
  {
    if s.status.Running? && orders != [] {
      ServeUnfolds(Unfailing(w), s, orders);
      HandleCut(w, s, orders[0]);
      ServeGrows(w, Handle(Unfailing(w), s, orders[0]), orders[1..]);
    }
  }

  /**
   * Whatever sends and SDK calls fail: the process does what it would do without failures, its
   * panics included, up to the first fatal one, which ends it with status 1; and it never reads
   * further than it would have.
   */
  lemma {:induction false} ServeCut(w: Surroundings, s: Server, orders: seq<Order>)
    requires s.status.Running?
    ensures var (t, n) := Serve(w, s, orders);
            var (u, m) := Serve(Unfailing(w), s, orders);
            Cut(t, u) && n <= m && (t.status != Exited(1) ==> n == m)
    decreases |orders|
  {
    if orders != [] {
      var free, rest := Unfailing(w), orders[1..];
      var t, u := Handle(w, s, orders[0]), Handle(free, s, orders[0]);
      ServeUnfolds(w, s, orders);
      ServeUnfolds(free, s, orders);
      HandleCut(w, s, orders[0]);
      ServeGrows(w, u, rest);
      if t.status.Running? {
        ServeCut(w, t, rest);
      }
    }
  }
}
