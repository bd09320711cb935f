/** The command words of the C# and the Go game server, side by side. */
module Dispatch {
  import opened Basics
  import opened UdpText
  import EchoUdpServer
  import GameServer

  /** What the Go server can read of one datagram, in bytes. */
  const BUFFER := 1024

  /** Texts with one byte for each character. */
  predicate Ascii(datagram: string) {
    forall c <- datagram :: c as int < 128
  }

  /** The part of a datagram that reaches the Go server. */
  function Buffered(datagram: string): string
    requires Ascii(datagram)
  {
    if |datagram| <= BUFFER then datagram else datagram[..BUFFER]
  }

  /** A text that both read whole is the same order to both, although the Go server trims it twice. */
  lemma {:induction false} SameDispatch(datagram: string)
    ensures EchoUdpServer.OrderOf(datagram) == GameServer.OrderOf(datagram)
    ensures Ascii(datagram) && |datagram| <= BUFFER ==>
              EchoUdpServer.OrderOf(datagram) == GameServer.OrderOf(Buffered(datagram))
  {
    TrimTwice(datagram);
  }

  function FirstWord(text: string): string {
    Parts(Trim(text))[0]
  }

  lemma {:induction false} TrimStartPrefix(s: string, n: nat)
    requires n <= |s|
    ensures TrimStart(s[..n]) <= TrimStart(s)
  {
    if n > 0 && IsSpace(s[0]) {
      TrimStartPrefix(s[1..], n - 1);
      assert s[..n][1..] == s[1..][..n - 1];
    }
  }

  lemma {:induction false} TrimEndPrefix(p: string, s: string)
    requires p <= s
    ensures TrimEnd(p) <= TrimEnd(s)
    decreases |s|
  {
    if s != "" && IsSpace(s[|s| - 1]) {
      if p != s {
        TrimEndPrefix(p, s[..|s| - 1]);
      }
    } else {
      TrimEndShortens(p);
    }
  }

  lemma {:induction false} TrimEndShortens(s: string)
    ensures TrimEnd(s) <= s
  {
    if s != "" && IsSpace(s[|s| - 1]) {
      TrimEndShortens(s[..|s| - 1]);
    }
  }

  /** The first word of a text and of a prefix of it are the same when it fits into the prefix, and only then. */
  lemma {:induction false} WordOfPrefix(p: string, s: string)
    requires p <= s
    ensures Parts(p)[0] == Parts(s)[0] <==> |Parts(s)[0]| <= |p|
  {
    var k := IndexOfChar(s, ' ');
    assert Parts(s)[0] == s[..k];
    assert Parts(p)[0] == p[..IndexOfChar(p, ' ')];
    if k <= |p| {
      assert p[..k] == s[..k];
      IndexOfCharIs(p, ' ', k);
    }
  }

  lemma {:induction false} VerbsDiffer(a: string, b: string)
    requires a != b && VerbOf(a) == VerbOf(b)
    ensures VerbOf(a).Echo?
  {}

  /**
   * For every datagram, however long: the Go server acts on the same command as the C# one exactly
   * when the part that reaches it, trimmed, is at least as long as the first word, or when
   * neither the word nor what is left of it is a command.
   */
  lemma {:induction false} SameCommandIff(datagram: string)
    requires Ascii(datagram)
    ensures EchoUdpServer.OrderOf(datagram).verb == GameServer.OrderOf(Buffered(datagram)).verb <==>
            (|FirstWord(datagram)| <= |Trim(Buffered(datagram))|
             || (VerbOf(FirstWord(datagram)).Echo? && VerbOf(FirstWord(Buffered(datagram))).Echo?))
  {
    var seen := Buffered(datagram);
    if |datagram| > BUFFER {
      TrimStartPrefix(datagram, BUFFER);
      TrimEndPrefix(TrimStart(seen), TrimStart(datagram));
    }
    WordOfPrefix(Trim(seen), Trim(datagram));
    TrimTwice(seen);
    if FirstWord(seen) != FirstWord(datagram) && VerbOf(FirstWord(seen)) == VerbOf(FirstWord(datagram)) {
      VerbsDiffer(FirstWord(seen), FirstWord(datagram));
    }
  }

  predicate Blank(s: string) {
    forall i | 0 <= i < |s| :: s[i] == ' '
  }

  lemma {:induction false} TrimBlank(blank: string, s: string)
    requires Blank(blank)
    ensures TrimStart(blank + s) == TrimStart(s)
  {
    if blank == "" {
      assert blank + s == s;
    } else {
      TrimBlank(blank[1..], s);
      assert (blank + s)[1..] == blank[1..] + s;
    }
  }

  lemma {:induction false} WordBehindBlank(blank: string, word: string)
    requires Blank(blank) && ' ' !in word && Trim(word) == word
    ensures EchoUdpServer.OrderOf(blank + word).verb == VerbOf(word)
    ensures GameServer.OrderOf(blank + word).verb == VerbOf(word)
  {
    TrimBlank(blank, word);
    SplitOne(word, ' ');
    SameDispatch(blank + word);
  }

  lemma {:induction false} Words()
    ensures ' ' !in "EXIT" && Trim("EXIT") == "EXIT" && VerbOf("EXIT").Exit?
    ensures ' ' !in "" && Trim("") == "" && VerbOf("").Echo?
  {}

  /** EXIT behind more spaces than the Go server can read: it ends the one server and is no command for the other. */
  lemma {:induction false} LongDatagramDiffers(blank: string)
    requires Blank(blank) && |blank| >= BUFFER
    ensures Ascii(blank + "EXIT")
    ensures EchoUdpServer.OrderOf(blank + "EXIT").verb.Exit?
    ensures GameServer.OrderOf(Buffered(blank + "EXIT")).verb.Echo?
  {
    Words();
    WordBehindBlank(blank, "EXIT");
    WordBehindBlank(blank[..BUFFER], "");
    assert (blank + "EXIT")[..BUFFER] == blank[..BUFFER] + "";
  }
}
