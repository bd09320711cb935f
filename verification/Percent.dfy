/**
 * Uri.EscapeDataString: percent-encoding (RFC 3986, sections 2.1 and 2.3) of the UTF-8 form
 * (RFC 3629, section 3) of a text, with the decoder a server applies.
 */
module Percent {
  import opened Basics

  type Byte = b: int | 0 <= b < 256

  // ---- UTF-8 ----

  function Utf8(c: char): (bs: seq<Byte>)
    ensures 1 <= |bs| <= 4
  {
    var n := c as int;
    if n < 0x80 then [n]
    else if n < 0x800 then [0xC0 + n / 64, 0x80 + n % 64]
    else if n < 0x1_0000 then [0xE0 + n / 4096, 0x80 + n / 64 % 64, 0x80 + n % 64]
    else [0xF0 + n / 262144, 0x80 + n / 4096 % 64, 0x80 + n / 64 % 64, 0x80 + n % 64]
  }

  function Utf8All(s: string): seq<Byte> {
    if s == "" then [] else Utf8(s[0]) + Utf8All(s[1..])
  }

  predicate IsTail(b: Byte) {
    0x80 <= b < 0xC0
  }

  function TailBits(b: Byte): int {
    b - 0x80
  }

  predicate IsScalar(n: int) {
    0 <= n < 0xD800 || 0xE000 <= n < 0x11_0000
  }

  /** The first character and the number of bytes it takes; overlong forms and surrogates are malformed. */
  function Utf8First(bs: seq<Byte>): (r: Option<(char, nat)>)
    requires bs != []
    ensures r.Some? ==> 1 <= r.value.1 <= |bs|
  {
    if bs[0] < 0x80 then Some((bs[0] as char, 1))
    else if 0xC0 <= bs[0] < 0xE0 && |bs| >= 2 && IsTail(bs[1]) then
      var n: int := (bs[0] as int - 0xC0) * 64 + TailBits(bs[1]);
      if 0x80 <= n then Some((n as char, 2)) else None
    else if 0xE0 <= bs[0] < 0xF0 && |bs| >= 3 && IsTail(bs[1]) && IsTail(bs[2]) then
      var n: int := (bs[0] as int - 0xE0) * 4096 + TailBits(bs[1]) * 64 + TailBits(bs[2]);
      if 0x800 <= n && IsScalar(n) then Some((n as char, 3)) else None
    else if 0xF0 <= bs[0] && |bs| >= 4 && IsTail(bs[1]) && IsTail(bs[2]) && IsTail(bs[3]) then
      var n: int := (bs[0] as int - 0xF0) * 262144 + TailBits(bs[1]) * 4096 + TailBits(bs[2]) * 64 + TailBits(bs[3]);
      if 0x1_0000 <= n && IsScalar(n) then Some((n as char, 4)) else None
    else None
  }

  function Utf8Decode(bs: seq<Byte>): Option<string> {
    if bs == [] then Some("")
    else
      match Utf8First(bs)
      case None => None
      case Some((c, n)) =>
        match Utf8Decode(bs[n..])
        case None => None
        case Some(rest) => Some([c] + rest)
  }

  lemma {:induction false} DivideTwice(n: nat)
    ensures n / 4096 == n / 64 / 64
  {}

  lemma {:induction false} Split64(n: nat)
    ensures n == n / 64 * 64 + n % 64
    ensures n == n / 4096 * 4096 + n / 64 % 64 * 64 + n % 64
    ensures n == n / 262144 * 262144 + n / 4096 % 64 * 4096 + n / 64 % 64 * 64 + n % 64
  {
    var q := n / 64;
    var r := q / 64;
    DivideTwice(n);
    DivideTwice(q);
    assert n / 4096 == r && n / 262144 == r / 64;
    assert n == q * 64 + n % 64 && q == r * 64 + q % 64 && r == r / 64 * 64 + r % 64;
  }

  lemma {:induction false} Utf8FirstOfShort(c: char, rest: seq<Byte>)
    requires c as int < 0x800
    ensures Utf8First(Utf8(c) + rest) == Some((c, |Utf8(c)|))
  {
    var n := c as int;
    var bs := Utf8(c) + rest;
    Split64(n);
    assert bs[0] == Utf8(c)[0];
    if n >= 0x80 {
      assert bs[1] == Utf8(c)[1];
    }
  }

  lemma {:induction false} Utf8FirstOfMiddle(c: char, rest: seq<Byte>)
    requires 0x800 <= c as int < 0x1_0000
    ensures Utf8First(Utf8(c) + rest) == Some((c, |Utf8(c)|))
  {
    var bs := Utf8(c) + rest;
    Split64(c as int);
    assert bs[0] == Utf8(c)[0] && bs[1] == Utf8(c)[1] && bs[2] == Utf8(c)[2];
  }

  lemma {:induction false} Utf8FirstOfLong(c: char, rest: seq<Byte>)
    requires 0x1_0000 <= c as int
    ensures Utf8First(Utf8(c) + rest) == Some((c, |Utf8(c)|))
  {
    var bs := Utf8(c) + rest;
    Split64(c as int);
    assert bs[0] == Utf8(c)[0] && bs[1] == Utf8(c)[1] && bs[2] == Utf8(c)[2] && bs[3] == Utf8(c)[3];
  }

  /** The decoder takes exactly the bytes of the first character. */
  lemma {:induction false} Utf8FirstOfUtf8(c: char, rest: seq<Byte>)
    ensures Utf8First(Utf8(c) + rest) == Some((c, |Utf8(c)|))
  {
    if c as int < 0x800 {
      Utf8FirstOfShort(c, rest);
    } else if c as int < 0x1_0000 {
      Utf8FirstOfMiddle(c, rest);
    } else {
      Utf8FirstOfLong(c, rest);
    }
  }

  lemma {:induction false} Utf8RoundTrip(s: string)
    ensures Utf8Decode(Utf8All(s)) == Some(s)
  {
    if s != "" {
      var rest := Utf8All(s[1..]);
      Utf8FirstOfUtf8(s[0], rest);
      Utf8RoundTrip(s[1..]);
      assert Utf8All(s)[|Utf8(s[0])|..] == rest;
      assert s == [s[0]] + s[1..];
    }
  }

  /** The table of RFC 3629, section 3: how many bytes a character takes, and the bits that they hold. */
  lemma {:induction false} Utf8Table(c: char)
    ensures var n, bs := c as int, Utf8(c);
            && (n < 0x80 ==> bs == [n])
            && (0x80 <= n < 0x800 ==>
                  && |bs| == 2 && 0xC0 <= bs[0] < 0xE0 && 0x80 <= bs[1] < 0xC0
                  && n == (bs[0] as int - 0xC0) * 0x40 + (bs[1] as int - 0x80))
            && (0x800 <= n < 0x1_0000 ==>
                  && |bs| == 3 && 0xE0 <= bs[0] < 0xF0 && 0x80 <= bs[1] < 0xC0 && 0x80 <= bs[2] < 0xC0
                  && n == (bs[0] as int - 0xE0) * 0x1000 + (bs[1] as int - 0x80) * 0x40 + (bs[2] as int - 0x80))
            && (0x1_0000 <= n ==>
                  && |bs| == 4 && 0xF0 <= bs[0] < 0xF8
                  && 0x80 <= bs[1] < 0xC0 && 0x80 <= bs[2] < 0xC0 && 0x80 <= bs[3] < 0xC0
                  && n == (bs[0] as int - 0xF0) * 0x4_0000 + (bs[1] as int - 0x80) * 0x1000
                          + (bs[2] as int - 0x80) * 0x40 + (bs[3] as int - 0x80))
  {
    Split64(c as int);
  }

  // ---- Percent-encoding ----

  predicate Unreserved(c: char) {
    'a' <= c <= 'z' || 'A' <= c <= 'Z' || '0' <= c <= '9' || c in "-._~"
  }

  function HexDigit(n: nat): (c: char)
    requires n < 16
    ensures '0' <= c <= '9' || 'A' <= c <= 'F'
  {
    if n < 10 then (('0' as int) + n) as char else (('A' as int) + n - 10) as char
  }

  function HexValue(c: char): (r: Option<nat>)
    ensures r.Some? ==> r.value < 16
  {
    if '0' <= c <= '9' then Some(c as int - '0' as int)
    else if 'A' <= c <= 'F' then Some(c as int - 'A' as int + 10)
    else if 'a' <= c <= 'f' then Some(c as int - 'a' as int + 10)
    else None
  }

  function PercentByte(b: Byte): string {
    ['%', HexDigit(b / 16), HexDigit(b % 16)]
  }

  function PercentBytes(bs: seq<Byte>): string {
    if bs == [] then "" else PercentByte(bs[0]) + PercentBytes(bs[1..])
  }

  function EscapeChar(c: char): string {
    if Unreserved(c) then [c] else PercentBytes(Utf8(c))
  }

  function EscapeDataString(s: string): string {
    if s == "" then "" else EscapeChar(s[0]) + EscapeDataString(s[1..])
  }

  function PercentDecode(text: string): Option<seq<Byte>> {
    if text == "" then Some([])
    else if text[0] == '%' then
      if |text| < 3 then None
      else
        match (HexValue(text[1]), HexValue(text[2]), PercentDecode(text[3..]))
        case (Some(h), Some(l), Some(rest)) => Some([h * 16 + l] + rest)
        case _ => None
    else if text[0] as int >= 0x80 then None
    else
      match PercentDecode(text[1..])
      case None => None
      case Some(rest) => Some([text[0] as int] + rest)
  }

  function Unescape(text: string): Option<string> {
    match PercentDecode(text)
    case None => None
    case Some(bs) => Utf8Decode(bs)
  }

  lemma {:induction false} HexRoundTrip(n: nat)
    requires n < 16
    ensures HexValue(HexDigit(n)) == Some(n)
  {}

  lemma {:induction false} DecodePercentByte(b: Byte, tail: string)
    requires PercentDecode(tail).Some?
    ensures PercentDecode(PercentByte(b) + tail) == Some([b] + PercentDecode(tail).value)
  {
    var text, h, l := PercentByte(b) + tail, HexDigit(b / 16), HexDigit(b % 16);
    assert text[0] == '%' && text[1] == h && text[2] == l;
    assert text[3..] == tail;
    HexRoundTrip(b / 16);
    HexRoundTrip(b % 16);
  }

  lemma {:induction false} DecodePercentBytes(bs: seq<Byte>, tail: string)
    requires PercentDecode(tail).Some?
    ensures PercentDecode(PercentBytes(bs) + tail) == Some(bs + PercentDecode(tail).value)
  {
    if bs == [] {
      assert PercentBytes(bs) + tail == tail;
      assert bs + PercentDecode(tail).value == PercentDecode(tail).value;
    } else {
      var rest := PercentBytes(bs[1..]) + tail;
      DecodePercentBytes(bs[1..], tail);
      DecodePercentByte(bs[0], rest);
      Regrouped(PercentByte(bs[0]), PercentBytes(bs[1..]), tail);
      Regrouped([bs[0]], bs[1..], PercentDecode(tail).value);
      assert bs == [bs[0]] + bs[1..];
    }
  }

  lemma {:induction false} DecodeEscaped(s: string)
    ensures PercentDecode(EscapeDataString(s)) == Some(Utf8All(s))
  {
    if s != "" {
      DecodeEscaped(s[1..]);
      var tail := EscapeDataString(s[1..]);
      if Unreserved(s[0]) {
        assert ([s[0]] + tail)[1..] == tail;
        assert Utf8(s[0]) == [s[0] as int];
      } else {
        DecodePercentBytes(Utf8(s[0]), tail);
      }
    }
  }

  /** Every text comes back from its escaped form. */
  lemma {:induction false} EscapeRoundTrip(s: string)
    ensures Unescape(EscapeDataString(s)) == Some(s)
  {
    DecodeEscaped(s);
    Utf8RoundTrip(s);
  }

  /** Escaped text is made of unreserved characters and upper-case triplets: no separator occurs in it. */
  predicate EscapedChar(c: char) {
    Unreserved(c) || c == '%'
  }

  lemma {:induction false} EscapeCharAlphabet(c: char)
    ensures EscapeChar(c) != ""
    ensures forall d <- EscapeChar(c) :: EscapedChar(d)
    ensures Unreserved(c) || forall d <- EscapeChar(c) :: !('a' <= d <= 'z')
  {
    if !Unreserved(c) {
      PercentBytesAlphabet(Utf8(c));
    }
  }

  lemma {:induction false} PercentBytesAlphabet(bs: seq<Byte>)
    ensures bs != [] ==> PercentBytes(bs) != ""
    ensures forall d <- PercentBytes(bs) :: (EscapedChar(d) && !('a' <= d <= 'z'))
  {
    if bs != [] {
      PercentBytesAlphabet(bs[1..]);
    }
  }

  lemma {:induction false} EscapeAlphabet(s: string)
    ensures forall d <- EscapeDataString(s) :: EscapedChar(d)
    ensures s != "" ==> EscapeDataString(s) != ""
  {
    if s != "" {
      EscapeCharAlphabet(s[0]);
      EscapeAlphabet(s[1..]);
    }
  }

  /** Text of unreserved characters and of triplets with upper-case digits (RFC 3986, sections 2.1 and 2.3). */
  predicate UnreservedOrTriplets(t: string) {
    || t == ""
    || (('A' <= t[0] <= 'Z' || 'a' <= t[0] <= 'z' || '0' <= t[0] <= '9' || t[0] in {'-', '.', '_', '~'})
        && UnreservedOrTriplets(t[1..]))
    || (|t| >= 3 && t[0] == '%' && UpperHex(t[1]) && UpperHex(t[2]) && UnreservedOrTriplets(t[3..]))
  }

  predicate UpperHex(c: char) {
    '0' <= c <= '9' || 'A' <= c <= 'F'
  }

  lemma {:induction false} TripletsAppend(bs: seq<Byte>, tail: string)
    requires UnreservedOrTriplets(tail)
    ensures UnreservedOrTriplets(PercentBytes(bs) + tail)
  {
    if bs == [] {
      assert PercentBytes(bs) + tail == tail;
    } else {
      var rest := PercentBytes(bs[1..]) + tail;
      TripletsAppend(bs[1..], tail);
      Regrouped(PercentByte(bs[0]), PercentBytes(bs[1..]), tail);
      assert (PercentByte(bs[0]) + rest)[3..] == rest;
    }
  }

  /** Escaped text holds nothing else, for every text. */
  lemma {:induction false} EscapeIsTriplets(s: string)
    ensures UnreservedOrTriplets(EscapeDataString(s))
  {
    if s != "" {
      EscapeIsTriplets(s[1..]);
      var tail := EscapeDataString(s[1..]);
      if Unreserved(s[0]) {
        assert ([s[0]] + tail)[1..] == tail;
      } else {
        TripletsAppend(Utf8(s[0]), tail);
      }
    }
  }

  lemma {:induction false} PercentBytesLength(bs: seq<Byte>)
    ensures |PercentBytes(bs)| == 3 * |bs|
  {
    if bs != [] {
      PercentBytesLength(bs[1..]);
    }
  }

  /** Exactly letters, digits, '-', '.', '_' and '~' stand for themselves; any other byte becomes a triplet. */
  lemma {:induction false} EscapesItselfIff(c: char)
    ensures EscapeDataString([c]) == [c] <==>
            ('A' <= c <= 'Z' || 'a' <= c <= 'z' || '0' <= c <= '9' || c == '-' || c == '.' || c == '_' || c == '~')
    ensures EscapeDataString([c]) != [c] ==> |EscapeDataString([c])| == 3 * |Utf8(c)|
  {
    EscapeOne(c);
    PercentBytesLength(Utf8(c));
  }

  /** A blank and a character of three bytes, as they are sent. */
  lemma {:induction false} EscapeExamples()
    ensures EscapeDataString(" ") == "%20"
    ensures EscapeDataString("\U{2262}") == "%E2%89%A2"
  {
    EscapeOne(' ');
    assert Utf8(' ') == [0x20];
    EscapeOne('\U{2262}');
    assert Utf8('\U{2262}') == [0xE2, 0x89, 0xA2];
    assert [0xE2, 0x89, 0xA2][1..] == [0x89, 0xA2] && [0x89, 0xA2][1..] == [0xA2];
  }

  // ---- Lower-case words survive escaping at both ends ----

  predicate StartsWith(s: string, p: string) {
    p <= s
  }

  predicate EndsWith(s: string, p: string) {
    |p| <= |s| && s[|s| - |p|..] == p
  }

  predicate LowerCase(p: string) {
    forall i | 0 <= i < |p| :: 'a' <= p[i] <= 'z'
  }

  lemma {:induction false} EscapeCons(c: char, s: string)
    ensures EscapeDataString([c] + s) == EscapeChar(c) + EscapeDataString(s)
  {
    assert ([c] + s)[1..] == s;
  }

  lemma {:induction false} EscapeOne(c: char)
    ensures EscapeDataString([c]) == EscapeChar(c)
  {
    assert [c][1..] == "";
    assert EscapeDataString("") == "";
  }

  lemma {:induction false} EscapeAppend(s: string, c: char)
    ensures EscapeDataString(s + [c]) == EscapeDataString(s) + EscapeChar(c)
  {
    if s == "" {
      EscapeOne(c);
      assert s + [c] == [c];
    } else {
      EscapeAppend(s[1..], c);
      EscapeCons(s[0], s[1..] + [c]);
      EscapeCons(s[0], s[1..]);
      assert s + [c] == [s[0]] + (s[1..] + [c]) && s == [s[0]] + s[1..];
      Regrouped(EscapeChar(s[0]), EscapeDataString(s[1..]), EscapeChar(c));
    }
  }

  lemma {:induction false} EscapePrefix(s: string, p: string)
    requires LowerCase(p)
    ensures StartsWith(EscapeDataString(s), p) <==> StartsWith(s, p)
    decreases |p|
  {
    if p != "" && s != "" {
      var x, tail := EscapeChar(s[0]), EscapeDataString(s[1..]);
      EscapeCharAlphabet(s[0]);
      EscapePrefix(s[1..], p[1..]);
      assert (x + tail)[0] == x[0] && x[0] in x;
      if Unreserved(s[0]) {
        assert (x + tail)[1..] == tail;
        assert p <= x + tail <==> p[0] == s[0] && p[1..] <= tail;
        assert p <= s <==> p[0] == s[0] && p[1..] <= s[1..];
      }
    }
  }

  lemma {:induction false} EscapeSuffix(s: string, p: string)
    requires LowerCase(p)
    ensures EndsWith(EscapeDataString(s), p) <==> EndsWith(s, p)
    decreases |p|
  {
    if p != "" && s != "" {
      var front, last := s[..|s| - 1], s[|s| - 1];
      assert s == front + [last];
      EscapeAppend(front, last);
      EscapeCharAlphabet(last);
      var head, x := EscapeDataString(front), EscapeChar(last);
      var q, z := p[..|p| - 1], p[|p| - 1];
      assert LowerCase(q);
      EscapeSuffix(front, q);
      EndsWithSnoc(s, p);
      EndsWithSnoc(head + x, p);
      assert (head + x)[|head + x| - 1] == x[|x| - 1] && x[|x| - 1] in x;
      if Unreserved(last) {
        assert (head + x)[..|head + x| - 1] == head;
      }
    }
  }

  lemma {:induction false} EndsWithSnoc(s: string, p: string)
    requires s != "" && p != ""
    ensures EndsWith(s, p) <==> s[|s| - 1] == p[|p| - 1] && EndsWith(s[..|s| - 1], p[..|p| - 1])
  {
    var front, q := s[..|s| - 1], p[..|p| - 1];
    assert p == q + [p[|p| - 1]];
    if |p| <= |s| {
      assert s[|s| - |p|..] == front[|front| - |q|..] + [s[|s| - 1]];
    }
  }

  lemma {:induction false} EscapeLength(s: string)
    ensures |EscapeDataString(s)| >= |s|
    ensures (forall i | 0 <= i < |s| :: Unreserved(s[i])) ==> EscapeDataString(s) == s
  {
    if s != "" {
      EscapeCharAlphabet(s[0]);
      EscapeLength(s[1..]);
      assert s == [s[0]] + s[1..];
    }
  }
}
