/** ServerLoop of EchoUdpServer.cs: the port of the game server that shares the health flag with the SDK. */
module EchoUdpServer {
  import opened Basics
  import opened UdpText
  import Decimal
  import HealthLoop

  datatype SdkCall =
    | Shutdown | Ready | Allocate | Reserve(seconds: string) | WatchGameServer | GetGameServer
    | SetLabel(key: string, value: string) | SetAnnotation(key: string, value: string)

  datatype Effect = Reply(text: string) | Sdk(call: SdkCall)

  datatype Fault = NotReady | Crashed | IndexOutOfRange | NullReference | SocketFault

  /** The loop waits for a datagram, has left after EXIT, or has thrown. */
  datatype Status = Listening | Done | Threw(fault: Fault)

  datatype Server = Server(effects: seq<Effect>, healthEnabled: bool, status: Status)

  /** GameServerResponse of Responses.cs; every reference in it can be null. */
  datatype GameServerResponse = GameServerResponse(status: Option<GameServerStatus>)
  datatype GameServerStatus = GameServerStatus(address: Option<string>, ports: Option<seq<Option<int>>>)

  /** The answers of the SDK, the sends that fail, given what has been done before, and the clock. */
  datatype Surroundings = Surroundings(
    ready: bool,
    gameServer: seq<Effect> -> Option<GameServerResponse>,
    sendFails: (seq<Effect>, string) -> bool,
    now: string)

  const LABEL_ERROR := "ERROR: Invalid LABEL command, must use zero or 2 arguments\n"
  const ANNOTATION_ERROR := "ERROR: Invalid ANNOTATION command, must use zero or 2 arguments\n"

  function OrderOf(packet: string): Order {
    Parse(Trim(packet), Trim(packet))
  }

  function Orders(packets: seq<string>): seq<Order> {
    seq(|packets|, i requires 0 <= i < |packets| => OrderOf(packets[i]))
  }

  // ---- What an order asks for ----

  /** Key and value for LABEL and ANNOTATION; none when the number of arguments is wrong. */
  function Pair(args: seq<string>, now: string): Option<(string, string)> {
    if |args| == 0 then Some(("timestamp", now))
    else if |args| == 2 then Some((args[0], args[1])) else None
  }

  /** The SDK call of a command, if it gets that far. */
  function CallFor(o: Order, now: string): Option<SdkCall> {
    match o.verb
    case Exit => Some(Shutdown)
    case GameServer => Some(GetGameServer)
    case CallReady => Some(Ready)
    case CallAllocate => Some(Allocate)
    case CallReserve => if o.args == [] then None else Some(Reserve(o.args[0]))
    case Watch => Some(WatchGameServer)
    case Label =>
      var pair := Pair(o.args, now);
      if pair.Some? then Some(SetLabel(pair.value.0, pair.value.1)) else None
    case Annotation =>
      var pair := Pair(o.args, now);
      if pair.Some? then Some(SetAnnotation(pair.value.0, pair.value.1)) else None
    case Unhealthy | Crash | Echo => None
  }

  /** The text `address:port` of a response: the first null or missing port on the way throws. */
  function AddressOf(response: Option<GameServerResponse>): Result<string, Fault> {
    if response.None? || response.value.status.None? then Err(NullReference)
    else
      var status := response.value.status.value;
      if status.ports.None? then Err(NullReference)
      else if status.ports.value == [] then Err(IndexOutOfRange)
      else if status.ports.value[0].None? then Err(NullReference)
      else Ok((if status.address.Some? then status.address.value else "")
              + ":" + Decimal.Print(status.ports.value[0].value) + "\n")
  }

  datatype Answer = Silent | Says(text: string) | Fails(fault: Fault)

  function Ack(text: string): string {
    "ACK: " + text + "\n"
  }

  /** What a command sends back, or the exception that its evaluation ends in. */
  function AnswerTo(w: Surroundings, seen: seq<Effect>, o: Order): Answer {
    match o.verb
    case Exit | Echo => Says(Ack(o.text))
    case GameServer =>
      var address := AddressOf(w.gameServer(seen));
      if address.Ok? then Says(address.value) else Fails(address.error)
    case CallReserve => if o.args == [] then Fails(IndexOutOfRange) else Silent
    case Label => if |o.args| in {0, 2} then Silent else Says(LABEL_ERROR)
    case Annotation => if |o.args| in {0, 2} then Silent else Says(ANNOTATION_ERROR)
    case Crash => Fails(Crashed)
    case Unhealthy | CallReady | CallAllocate | Watch => Silent
  }

  function Called(effects: seq<Effect>, call: Option<SdkCall>): seq<Effect> {
    if call.Some? then effects + [Sdk(call.value)] else effects
  }

  function Send(w: Surroundings, s: Server, text: string): Server {
    if w.sendFails(s.effects, text) then s.(status := Threw(SocketFault)) else s.(effects := s.effects + [Reply(text)])
  }

  /** One datagram: the SDK call, then the answer; EXIT leaves once it has answered. */
  function Handle(w: Surroundings, s: Server, o: Order): Server
    requires s.status.Listening?
  {
    var called := Server(Called(s.effects, CallFor(o, w.now)), s.healthEnabled && !o.verb.Unhealthy?, Listening);
    match AnswerTo(w, s.effects, o)
    case Silent => called
    case Fails(fault) => called.(status := Threw(fault))
    case Says(text) =>
      var told := Send(w, called, text);
      if told.status.Listening? && o.verb.Exit? then told.(status := Done) else told
  }

  /** The loop on the datagrams that arrive, and how many of them it reads. */
  function Serve(w: Surroundings, s: Server, orders: seq<Order>): (Server, nat)
    decreases |orders|
  {
    if !s.status.Listening? || orders == [] then (s, 0)
    else
      var (t, n) := Serve(w, Handle(w, s, orders[0]), orders[1..]);
      (t, n + 1)
  }

  /** The server marks itself as ready before it listens, and gives up when it is not let. */
  function Opened(w: Surroundings): Server {
    Server([Sdk(Ready)], true, if w.ready then Listening else Threw(NotReady))
  }

  /** After the datagrams the socket stays silent, or breaks under a loop that still listens. */
  function Closed(s: Server, breaks: bool): Server {
    if breaks && s.status.Listening? then s.(status := Threw(SocketFault)) else s
  }

  class EchoUdpServer {
    const w: Surroundings
    var effects: seq<Effect>
    var healthEnabled: bool
    var status: Status

    constructor (w: Surroundings)
      ensures this.w == w && State() == Server([], true, Listening)
    {
      this.w := w;
      effects, healthEnabled, status := [], true, Listening;
    }

    ghost function State(): Server
      reads this
    {
      Server(effects, healthEnabled, status)
    }

    method Call(call: SdkCall)
      modifies this`effects
      ensures effects == old(effects) + [Sdk(call)]
    {
      effects := effects + [Sdk(call)];
    }

    method Respond(text: string)
      requires status.Listening? || status.Done?
      modifies this`effects, this`status
      ensures var failed := w.sendFails(old(effects), text);
              && status == (if failed then Threw(SocketFault) else old(status))
              && effects == (if failed then old(effects) else old(effects) + [Reply(text)])
    {
      if w.sendFails(effects, text) {
        status := Threw(SocketFault);
      } else {
        effects := effects + [Reply(text)];
      }
    }

    /** The switch, with `continue` and `break` both going back to the loop. */
    method Obey(o: Order)
      requires status.Listening?
      modifies this
      ensures State() == Handle(w, old(State()), o)
    {
      match o.verb {
        case Exit =>
          status := Done;
          Call(Shutdown);
          Respond(Ack(o.text));
        case Unhealthy =>
          healthEnabled := false;
        case GameServer =>
          var response := w.gameServer(effects);
          Call(GetGameServer);
          var address := AddressOf(response);
          if address.Err? {
            status := Threw(address.error);
          } else {
            Respond(address.value);
          }
        case CallReady => Call(Ready);
        case CallAllocate => Call(Allocate);
        case CallReserve =>
          if o.args == [] {
            status := Threw(IndexOutOfRange);
          } else {
            Call(Reserve(o.args[0]));
          }
        case Watch => Call(WatchGameServer);
        case Label =>
          var pair := Pair(o.args, w.now);
          if pair.Some? {
            Call(SetLabel(pair.value.0, pair.value.1));
          } else {
            Respond(LABEL_ERROR);
          }
        case Annotation =>
          var pair := Pair(o.args, w.now);
          if pair.Some? {
            Call(SetAnnotation(pair.value.0, pair.value.1));
          } else {
            Respond(ANNOTATION_ERROR);
          }
        case Crash =>
          status := Threw(Crashed);
        case Echo =>
          Respond(Ack(o.text));
      }
    }

    /** The loop on the orders that the datagrams are. */
    method Listen(orders: seq<Order>) returns (read: nat)
      requires status.Listening?
      modifies this
      ensures (State(), read) == Serve(w, old(State()), orders)
    {
      read := 0;
      while status.Listening? && read < |orders|
        invariant read <= |orders|
        invariant var (t, n) := Serve(w, State(), orders[read..]);
                  (t, read + n) == Serve(w, old(State()), orders)
        decreases |orders| - read
      {
        assert orders[read..][1..] == orders[read + 1..];
        Obey(orders[read]);
        read := read + 1;
      }
    }

    /** Ready, then the loop; after the datagrams the socket stays silent or breaks. */
    method ServerLoop(packets: seq<string>, breaks: bool) returns (read: nat)
      requires State() == Server([], true, Listening)
      modifies this
      ensures var (t, n) := Serve(w, Opened(w), Orders(packets));
              State() == Closed(t, breaks) && read == n
    {
      Call(Ready);
      assert effects == [Sdk(Ready)];
      if !w.ready {
        status := Threw(NotReady);
        return 0;
      }
      assert State() == Opened(w);
      read := Listen(Orders(packets));
      if status.Listening? && breaks {
        status := Threw(SocketFault);
      }
    }
  }

  // ---- When the loop stops ----

  /** A datagram that ends the loop whatever came before: EXIT, CRASH, or RESERVE without its argument. */
  predicate AlwaysEnds(o: Order) {
    o.verb.Exit? || o.verb.Crash? || LacksArgument(o)
  }

  predicate LacksArgument(o: Order) {
    o.verb.CallReserve? && o.args == []
  }

  predicate HasPort(r: Option<GameServerResponse>) {
    && r.Some? && r.value.status.Some? && r.value.status.value.ports.Some?
    && r.value.status.value.ports.value != [] && r.value.status.value.ports.value[0].Some?
  }

  /** There is a list of ports, with nothing in it. */
  predicate LacksPorts(r: Option<GameServerResponse>) {
    && r.Some? && r.value.status.Some? && r.value.status.value.ports.Some?
    && r.value.status.value.ports.value == []
  }

  lemma {:induction false} AddressFaults(r: Option<GameServerResponse>)
    ensures AddressOf(r).Ok? <==> HasPort(r)
    ensures AddressOf(r) == Err(IndexOutOfRange) <==> LacksPorts(r)
    ensures AddressOf(r) == Err(NullReference) <==> !HasPort(r) && !LacksPorts(r)
  {}

  /** A GAMESERVER whose response has no first port. */
  predicate BadAnswer(w: Surroundings, s: Server, o: Order) {
    o.verb.GameServer? && !HasPort(w.gameServer(s.effects))
  }

  /** A reply that the socket does not take. */
  predicate Unsendable(w: Surroundings, s: Server, o: Order) {
    var answer := AnswerTo(w, s.effects, o);
    answer.Says? && w.sendFails(Called(s.effects, CallFor(o, w.now)), answer.text)
  }

  predicate Ends(w: Surroundings, s: Server, o: Order) {
    AlwaysEnds(o) || BadAnswer(w, s, o) || Unsendable(w, s, o)
  }

  /** What ended the loop, read off its status. */
  predicate EndedBy(w: Surroundings, s: Server, o: Order, status: Status) {
    && (status.Done? <==> o.verb.Exit? && !Unsendable(w, s, o))
    && (status == Threw(Crashed) <==> o.verb.Crash?)
    && (status == Threw(SocketFault) <==> Unsendable(w, s, o))
    && (status == Threw(IndexOutOfRange) <==>
          LacksArgument(o) || (o.verb.GameServer? && LacksPorts(w.gameServer(s.effects))))
    && (status == Threw(NullReference) <==>
          BadAnswer(w, s, o) && !LacksPorts(w.gameServer(s.effects)))
    && status != Threw(NotReady)
  }

  lemma {:induction false} OneStep(w: Surroundings, s: Server, o: Order)
    requires s.status.Listening?
    ensures var t := Handle(w, s, o);
            && (t.status.Listening? <==> !Ends(w, s, o))
            && EndedBy(w, s, o, t.status)
  {
    AddressFaults(w.gameServer(s.effects));
  }

  /** The state in front of each datagram. */
  function Before(w: Surroundings, s: Server, orders: seq<Order>, i: nat): Server
    requires i <= |orders|
  {
    Serve(w, s, orders[..i]).0
  }

  /** No datagram before the last one read ends the loop, and the last one does, as the status says. */
  predicate StopsAtFirstEnd(w: Surroundings, s: Server, orders: seq<Order>, n: nat, status: Status) {
    && n <= |orders|
    && (forall i | 0 <= i < n :: Before(w, s, orders, i).status.Listening?)
    && (forall i | 0 <= i < n - 1 :: !Ends(w, Before(w, s, orders, i), orders[i]))
    && (if status.Listening? then n == |orders| && (n > 0 ==> !Ends(w, Before(w, s, orders, n - 1), orders[n - 1]))
        else n > 0 && Ends(w, Before(w, s, orders, n - 1), orders[n - 1])
             && EndedBy(w, Before(w, s, orders, n - 1), orders[n - 1], status))
  }

  lemma {:induction false} ServeUnfolds(w: Surroundings, s: Server, orders: seq<Order>)
    requires s.status.Listening? && orders != []
    ensures var (t, n) := Serve(w, Handle(w, s, orders[0]), orders[1..]);
            Serve(w, s, orders) == (t, n + 1)
  {}

  lemma {:induction false} BeforeCons(w: Surroundings, s: Server, orders: seq<Order>, i: nat)
    requires s.status.Listening? && i < |orders|
    ensures Before(w, s, orders, 0) == s
    ensures Before(w, s, orders, i + 1) == Before(w, Handle(w, s, orders[0]), orders[1..], i)
  {
    assert orders[..i + 1][1..] == orders[1..][..i];
    assert orders[..0] == [];
  }

  lemma {:induction false} StopsCons(w: Surroundings, s: Server, orders: seq<Order>, n: nat, status: Status)
    requires s.status.Listening? && orders != [] && !Ends(w, s, orders[0])
    requires StopsAtFirstEnd(w, Handle(w, s, orders[0]), orders[1..], n, status)
    ensures StopsAtFirstEnd(w, s, orders, n + 1, status)
  {
    var t, rest := Handle(w, s, orders[0]), orders[1..];
    forall i | 0 <= i < |orders|
      ensures Before(w, s, orders, i) == if i == 0 then s else Before(w, t, rest, i - 1)
    {
      BeforeCons(w, s, orders, if i == 0 then 0 else i - 1);
    }
    assert forall i | 0 < i < |orders| :: orders[i] == rest[i - 1];
  }

  /** Nothing is read after the first datagram that ends the loop, and the status tells what it was. */
  lemma {:induction false} ServeStops(w: Surroundings, s: Server, orders: seq<Order>)
    requires s.status.Listening?
    ensures var (t, n) := Serve(w, s, orders);
            StopsAtFirstEnd(w, s, orders, n, t.status)
    decreases |orders|
  {
    if orders != [] {
      var first := Handle(w, s, orders[0]);
      ServeUnfolds(w, s, orders);
      OneStep(w, s, orders[0]);
      BeforeCons(w, s, orders, 0);
      if first.status.Listening? {
        ServeStops(w, first, orders[1..]);
        var (t, n) := Serve(w, first, orders[1..]);
        StopsCons(w, s, orders, n, t.status);
      }
    }
  }

  /** A GAMESERVER answered with an empty list of ports fails as a RESERVE without argument does. */
  lemma {:induction false} NoPortsLikeNoArgument(w: Surroundings, s: Server, address: Option<string>, text: string)
    requires s.status.Listening?
    requires w.gameServer(s.effects) == Some(GameServerResponse(Some(GameServerStatus(address, Some([])))))
    ensures Handle(w, s, Order(Verb.GameServer, [], text)).status == Threw(IndexOutOfRange)
    ensures Handle(w, s, Order(CallReserve, [], text)).status == Threw(IndexOutOfRange)
  {
    OneStep(w, s, Order(Verb.GameServer, [], text));
    OneStep(w, s, Order(CallReserve, [], text));
  }

  // ---- What clients and the SDK see ----

  /** The SDK call for the words of a datagram. */
  function CallOn(words: seq<string>, now: string): seq<Effect>
    requires words != []
  {
    if words[0] == "EXIT" then [Sdk(Shutdown)]
    else if words[0] == "GAMESERVER" then [Sdk(GetGameServer)]
    else if words[0] == "READY" then [Sdk(Ready)]
    else if words[0] == "ALLOCATE" then [Sdk(Allocate)]
    else if words[0] == "WATCH" then [Sdk(WatchGameServer)]
    else if words[0] == "RESERVE" && |words| >= 2 then [Sdk(Reserve(words[1]))]
    else if words[0] == "LABEL" && |words| == 1 then [Sdk(SetLabel("timestamp", now))]
    else if words[0] == "LABEL" && |words| == 3 then [Sdk(SetLabel(words[1], words[2]))]
    else if words[0] == "ANNOTATION" && |words| == 1 then [Sdk(SetAnnotation("timestamp", now))]
    else if words[0] == "ANNOTATION" && |words| == 3 then [Sdk(SetAnnotation(words[1], words[2]))]
    else []
  }

  /** The words that are not replied to. */
  predicate Unanswered(words: seq<string>)
    requires words != []
  {
    || words[0] == "UNHEALTHY" || words[0] == "READY" || words[0] == "ALLOCATE" || words[0] == "RESERVE"
    || words[0] == "WATCH" || words[0] == "CRASH"
    || ((words[0] == "LABEL" || words[0] == "ANNOTATION") && (|words| == 1 || |words| == 3))
  }

  /** The reply to the words of a datagram, given the SDK's answer to a GAMESERVER; none when it has no first port. */
  function ReplyOn(words: seq<string>, text: string, response: Option<GameServerResponse>): seq<Effect>
    requires words != []
  {
    if Unanswered(words) then []
    else if words[0] == "GAMESERVER" then
      if !HasPort(response) then []
      else
        var status := response.value.status.value;
        var address := if status.address.Some? then status.address.value else "";
        [Reply(address + ":" + Decimal.Print(status.ports.value[0].value) + "\n")]
    else if words[0] == "LABEL" then [Reply("ERROR: Invalid LABEL command, must use zero or 2 arguments\n")]
    else if words[0] == "ANNOTATION" then [Reply("ERROR: Invalid ANNOTATION command, must use zero or 2 arguments\n")]
    else [Reply("ACK: " + text + "\n")]
  }

  lemma {:induction false} OrderWords(packet: string)
    ensures var words, o := Split(Trim(packet), ' '), OrderOf(packet);
            words == [words[0]] + o.args && o.verb == VerbOf(words[0]) && o.text == Trim(packet)
  {}

  lemma {:induction false} CallIsOn(o: Order, words: seq<string>, now: string)
    requires words != [] && words == [words[0]] + o.args && o.verb == VerbOf(words[0])
    ensures Called([], CallFor(o, now)) == CallOn(words, now)
  {
    VerbIs(words[0]);
  }

  lemma {:induction false} AnswerIsOn(w: Surroundings, seen: seq<Effect>, o: Order, words: seq<string>)
    requires words != [] && words == [words[0]] + o.args && o.verb == VerbOf(words[0])
    ensures var answer := AnswerTo(w, seen, o);
            ReplyOn(words, o.text, w.gameServer(seen)) == if answer.Says? then [Reply(answer.text)] else []
  {
    VerbIs(words[0]);
  }

  /** All that has been done after one datagram more: its SDK call, and its reply unless something was thrown. */
  function OnDatagram(w: Surroundings, seen: seq<Effect>, packet: string, threw: bool): seq<Effect> {
    var words := Split(Trim(packet), ' ');
    var called := seen + CallOn(words, w.now);
    if threw then called else called + ReplyOn(words, Trim(packet), w.gameServer(seen))
  }

  /** What one datagram adds to what has been done; the flag says that the loop threw over it. */
  type Deed = (seq<Effect>, string, bool) -> seq<Effect>

  function DeedOf(w: Surroundings): Deed {
    (seen, packet, threw) => OnDatagram(w, seen, packet, threw)
  }

  /** All that the loop has done after some datagrams; over the last one it may have thrown. */
  function DoneFor(deed: Deed, seen: seq<Effect>, packets: seq<string>, threw: bool): seq<Effect>
    decreases |packets|
  {
    if packets == [] then seen
    else DoneFor(deed, deed(seen, packets[0], |packets| == 1 && threw), packets[1..], threw)
  }

  lemma {:induction false} HandleDoes(w: Surroundings, s: Server, o: Order, words: seq<string>)
    requires s.status.Listening?
    requires words != [] && words == [words[0]] + o.args && o.verb == VerbOf(words[0])
    ensures var t, called := Handle(w, s, o), s.effects + CallOn(words, w.now);
            t.effects == if t.status.Threw? then called else called + ReplyOn(words, o.text, w.gameServer(s.effects))
  {
    CallIsOn(o, words, w.now);
    AnswerIsOn(w, s.effects, o, words);
    CalledFrom(s.effects, CallFor(o, w.now));
    HandleEffects(w, s, o);
  }

  lemma {:induction false} CalledFrom(effects: seq<Effect>, call: Option<SdkCall>)
    ensures Called(effects, call) == effects + Called([], call)
  {}

  lemma {:induction false} HandleEffects(w: Surroundings, s: Server, o: Order)
    requires s.status.Listening?
    ensures var t, called, answer := Handle(w, s, o), Called(s.effects, CallFor(o, w.now)), AnswerTo(w, s.effects, o);
            t.effects == called + (if answer.Says? && !t.status.Threw? then [Reply(answer.text)] else [])
  {}

  /** One datagram in front of others. */
  lemma {:induction false} DoneCons(deed: Deed, seen: seq<Effect>, packets: seq<string>, n: nat, threw: bool,
                                    first: seq<Effect>, all: seq<Effect>)
    requires n < |packets| && first == deed(seen, packets[0], n == 0 && threw)
    requires all == DoneFor(deed, first, packets[1..][..n], threw)
    ensures all == DoneFor(deed, seen, packets[..n + 1], threw)
  {
    var read := packets[..n + 1];
    assert read[0] == packets[0] && read[1..] == packets[1..][..n];
  }

  lemma {:induction false} DoneOne(deed: Deed, seen: seq<Effect>, packets: seq<string>, threw: bool)
    requires packets != []
    ensures deed(seen, packets[0], threw) == DoneFor(deed, seen, packets[..1], threw)
  {
    assert packets[1..][..0] == [];
    DoneCons(deed, seen, packets, 0, threw, deed(seen, packets[0], threw), deed(seen, packets[0], threw));
  }

  function Parsed(parse: string -> Order, packets: seq<string>): seq<Order> {
    seq(|packets|, i requires 0 <= i < |packets| => parse(packets[i]))
  }

  /** The order of a datagram does the deed of that datagram. */
  predicate DoesAt(w: Surroundings, parse: string -> Order, deed: Deed, u: Server, p: string) {
    u.status.Listening? ==>
      Handle(w, u, parse(p)).effects == deed(u.effects, p, Handle(w, u, parse(p)).status.Threw?)
  }

  ghost predicate Does(w: Surroundings, parse: string -> Order, deed: Deed) {
    forall u: Server, p: string :: DoesAt(w, parse, deed, u, p)
  }

  /** However datagrams become orders: what the orders do one by one, the run does in sequence. */
  lemma {:induction false} RunDoes(w: Surroundings, s: Server, parse: string -> Order, deed: Deed, packets: seq<string>)
    requires s.status.Listening? && Does(w, parse, deed)
    ensures var (t, n) := Serve(w, s, Parsed(parse, packets));
            n <= |packets| && t.effects == DoneFor(deed, s.effects, packets[..n], t.status.Threw?)
    decreases |packets|
  {
    var orders := Parsed(parse, packets);
    if packets == [] {
      assert orders == [] && packets[..0] == [];
    } else {
      var u, rest := Handle(w, s, parse(packets[0])), packets[1..];
      assert DoesAt(w, parse, deed, s, packets[0]);
      assert orders[1..] == Parsed(parse, rest);
      ServeUnfolds(w, s, orders);
      if u.status.Listening? {
        RunDoes(w, u, parse, deed, rest);
        var (t, n) := Serve(w, u, Parsed(parse, rest));
        ReadsNoneListening(w, u, Parsed(parse, rest));
        DoneCons(deed, s.effects, packets, n, t.status.Threw?, u.effects, t.effects);
      } else {
        DoneOne(deed, s.effects, packets, u.status.Threw?);
      }
    }
  }

  lemma {:induction false} ReadsNoneListening(w: Surroundings, s: Server, orders: seq<Order>)
    requires s.status.Listening?
    ensures var (t, n) := Serve(w, s, orders); n == 0 ==> t == s
  {}

  /**
   * What the loop did in front of its clients and of the SDK is determined by the datagrams read:
   * behind the first Ready, for each in order its SDK call and then its reply, the reply to a
   * GAMESERVER being the address that the SDK gave at that moment; only a datagram over which the
   * loop threw lacks its reply.
   */
  lemma {:induction false} ServeEffects(w: Surroundings, packets: seq<string>)
    ensures var (t, n) := Serve(w, Opened(w), Orders(packets));
            && n <= |packets| && t.effects == DoneFor(DeedOf(w), [Sdk(Ready)], packets[..n], t.status.Threw?)
            && (!w.ready ==> n == 0 && t.status == Threw(NotReady))
  {
    if w.ready {
      EveryDatagramDoes(w);
      OrdersAreParsed(packets);
      RunDoes(w, Opened(w), OrderOf, DeedOf(w), packets);
    } else {
      assert packets[..0] == [];
    }
  }

  lemma {:induction false} OrdersAreParsed(packets: seq<string>)
    ensures Orders(packets) == Parsed(OrderOf, packets)
  {}

  lemma {:induction false} DatagramDoes(w: Surroundings, u: Server, p: string)
    ensures DoesAt(w, OrderOf, DeedOf(w), u, p)
  {
    if u.status.Listening? {
      OrderWords(p);
      HandleDoes(w, u, OrderOf(p), Split(Trim(p), ' '));
    }
  }

  lemma {:induction false} EveryDatagramDoes(w: Surroundings)
    ensures Does(w, OrderOf, DeedOf(w))
  {
    forall u: Server, p: string
      ensures DoesAt(w, OrderOf, DeedOf(w), u, p)
    {
      DatagramDoes(w, u, p);
    }
  }

  // ---- The flag that the health loop polls ----

  /** What a datagram is to the health loop. */
  function MoveOf(o: Order): HealthLoop.Move {
    if o.verb.Unhealthy? then HealthLoop.Unhealthy else HealthLoop.OtherCommand
  }

  function MovesOf(orders: seq<Order>): seq<HealthLoop.Move> {
    if orders == [] then [] else [MoveOf(orders[0])] + MovesOf(orders[1..])
  }

  /**
   * The flag after serving is the one the health loop sees when exactly the datagrams read are
   * its command moves: nothing but UNHEALTHY clears it and nothing sets it again.
   */
  lemma {:induction false} FlagFollowsCommands(w: Surroundings, s: Server, orders: seq<Order>,
                                               health: HealthLoop.Health)
    requires health.enabled == s.healthEnabled
    ensures var (t, n) := Serve(w, s, orders);
            n <= |orders| && t.healthEnabled == HealthLoop.Run(health, MovesOf(orders[..n])).enabled
    decreases |orders|
  {
    if !s.status.Listening? || orders == [] {
      assert orders[..0] == [];
    } else {
      var m, rest := MoveOf(orders[0]), orders[1..];
      ServeUnfolds(w, s, orders);
      FlagFollowsCommands(w, Handle(w, s, orders[0]), rest, HealthLoop.Step(health, m));
      var (t, n) := Serve(w, Handle(w, s, orders[0]), rest);
      MovesOfCons(orders, n);
      RunCons(health, m, MovesOf(rest[..n]));
    }
  }

  lemma {:induction false} MovesOfCons(orders: seq<Order>, n: nat)
    requires n < |orders|
    ensures MovesOf(orders[..n + 1]) == [MoveOf(orders[0])] + MovesOf(orders[1..][..n])
  {
    assert orders[..n + 1][1..] == orders[1..][..n];
  }

  lemma {:induction false} RunCons(health: HealthLoop.Health, m: HealthLoop.Move, moves: seq<HealthLoop.Move>)
    ensures HealthLoop.Run(health, [m] + moves) == HealthLoop.Run(HealthLoop.Step(health, m), moves)
  {
    assert ([m] + moves)[1..] == moves;
  }
}
