/** The text of a datagram as both game servers take it apart. */
module UdpText {
  import opened Basics

  /** unicode.IsSpace and Char.IsWhiteSpace. */
  predicate IsSpace(c: char) {
    var n := c as int;
    9 <= n <= 13 || n == 0x20 || n == 0x85 || n == 0xA0 || n == 0x1680 || 0x2000 <= n <= 0x200A
    || n == 0x2028 || n == 0x2029 || n == 0x202F || n == 0x205F || n == 0x3000
  }

  /** The white space of Unicode, character by character. */
  lemma {:induction false} SpaceIs(c: char)
    ensures IsSpace(c) <==> c as int in {
      0x09, 0x0A, 0x0B, 0x0C, 0x0D, 0x20, 0x85, 0xA0, 0x1680,
      0x2000, 0x2001, 0x2002, 0x2003, 0x2004, 0x2005, 0x2006, 0x2007, 0x2008, 0x2009, 0x200A,
      0x2028, 0x2029, 0x202F, 0x205F, 0x3000}
  {}

  function TrimStart(s: string): string {
    if s != "" && IsSpace(s[0]) then TrimStart(s[1..]) else s
  }

  function TrimEnd(s: string): string {
    if s != "" && IsSpace(s[|s| - 1]) then TrimEnd(s[..|s| - 1]) else s
  }

  function Trim(s: string): string {
    TrimEnd(TrimStart(s))
  }

  lemma {:induction false} TrimEndKeepsStart(s: string)
    requires s == "" || !IsSpace(s[0])
    ensures TrimEnd(s) == "" || !IsSpace(TrimEnd(s)[0])
    ensures TrimEnd(s) != "" ==> !IsSpace(TrimEnd(s)[|TrimEnd(s)| - 1])
    decreases |s|
  {
    if s != "" && IsSpace(s[|s| - 1]) {
      TrimEndKeepsStart(s[..|s| - 1]);
    }
  }

  lemma {:induction false} TrimStartStops(s: string)
    ensures TrimStart(s) == "" || !IsSpace(TrimStart(s)[0])
  {
    if s != "" && IsSpace(s[0]) {
      TrimStartStops(s[1..]);
    }
  }

  /** Trimming twice, as the Go server does, is trimming once. */
  lemma {:induction false} TrimTwice(s: string)
    ensures Trim(Trim(s)) == Trim(s)
  {
    TrimStartStops(s);
    TrimEndKeepsStart(TrimStart(s));
  }

  predicate AllSpace(s: string) {
    forall c <- s :: IsSpace(c)
  }

  /** Trimming takes white space away from both ends, all of it and nothing else. */
  lemma {:induction false} TrimIs(s: string) returns (front: string, back: string)
    ensures s == front + Trim(s) + back && AllSpace(front) && AllSpace(back)
    ensures Trim(s) != "" ==> !IsSpace(Trim(s)[0]) && !IsSpace(Trim(s)[|Trim(s)| - 1])
  {
    front := TrimStartTakes(s);
    back := TrimEndTakes(TrimStart(s));
    TrimStartStops(s);
    TrimEndKeepsStart(TrimStart(s));
    TrimEndStops(TrimStart(s));
  }

  lemma {:induction false} TrimStartTakes(s: string) returns (front: string)
    ensures s == front + TrimStart(s) && AllSpace(front)
  {
    if s != "" && IsSpace(s[0]) {
      var rest := TrimStartTakes(s[1..]);
      front := [s[0]] + rest;
    } else {
      front := "";
    }
  }

  lemma {:induction false} TrimEndTakes(s: string) returns (back: string)
    ensures s == TrimEnd(s) + back && AllSpace(back)
  {
    if s != "" && IsSpace(s[|s| - 1]) {
      var rest := TrimEndTakes(s[..|s| - 1]);
      back := rest + [s[|s| - 1]];
    } else {
      back := "";
    }
  }

  lemma {:induction false} TrimEndStops(s: string)
    ensures TrimEnd(s) != "" ==> !IsSpace(TrimEnd(s)[|TrimEnd(s)| - 1])
  {
    if s != "" && IsSpace(s[|s| - 1]) {
      TrimEndStops(s[..|s| - 1]);
    }
  }

  /** The words that both servers know, and no other. */
  lemma {:induction false} VerbIs(word: string)
    ensures VerbOf(word).Exit? <==> word == "EXIT"
    ensures VerbOf(word).Unhealthy? <==> word == "UNHEALTHY"
    ensures VerbOf(word).GameServer? <==> word == "GAMESERVER"
    ensures VerbOf(word).CallReady? <==> word == "READY"
    ensures VerbOf(word).CallAllocate? <==> word == "ALLOCATE"
    ensures VerbOf(word).CallReserve? <==> word == "RESERVE"
    ensures VerbOf(word).Watch? <==> word == "WATCH"
    ensures VerbOf(word).Label? <==> word == "LABEL"
    ensures VerbOf(word).Annotation? <==> word == "ANNOTATION"
    ensures VerbOf(word).Crash? <==> word == "CRASH"
  {}

  function Parts(txt: string): (parts: seq<string>)
    ensures parts != []
  {
    Split(txt, ' ')
  }

  /** The first word of a datagram; anything unknown is just echoed. */
  datatype Verb =
    | Exit | Unhealthy | GameServer | CallReady | CallAllocate | CallReserve | Watch
    | Label | Annotation | Crash | Echo

  function VerbOf(word: string): Verb {
    match word
    case "EXIT" => Exit
    case "UNHEALTHY" => Unhealthy
    case "GAMESERVER" => GameServer
    case "READY" => CallReady
    case "ALLOCATE" => CallAllocate
    case "RESERVE" => CallReserve
    case "WATCH" => Watch
    case "LABEL" => Label
    case "CRASH" => Crash
    case "ANNOTATION" => Annotation
    case _ => Echo
  }

  /** A datagram as the switches see it: its first word, the words behind it, and its text. */
  datatype Order = Order(verb: Verb, args: seq<string>, text: string)

  function Parse(words: string, text: string): Order {
    var parts := Parts(words);
    Order(VerbOf(parts[0]), parts[1..], text)
  }
}
