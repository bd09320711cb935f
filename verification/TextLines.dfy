/**
 * The text side of a watch response: what StreamReader.ReadLineAsync returns for the
 * characters of a connection that ends, or that breaks, after them.
 */
module TextLines {

  /** `text` is still to arrive; afterwards the connection ends, or fails when `broken`. */
  datatype Source = Source(text: string, broken: bool)

  datatype Read = Line(line: string) | End | Failed

  predicate IsBreak(c: char) {
    c == '\r' || c == '\n'
  }

  /** The first line break in `text`, or its length. */
  function BreakAt(text: string): (k: nat)
    ensures k <= |text|
    ensures k < |text| ==> IsBreak(text[k])
  {
    if text == [] || IsBreak(text[0]) then 0 else 1 + BreakAt(text[1..])
  }

  lemma {:induction false} BreakAtFirst(text: string)
    ensures var k := BreakAt(text);
            && (forall i | 0 <= i < k :: !IsBreak(text[i]))
            && (k < |text| ==> IsBreak(text[k]))
  {
    if text != [] && !IsBreak(text[0]) {
      BreakAtFirst(text[1..]);
    }
  }

  /** CR, LF and CRLF each end a line. */
  function StopLength(text: string, k: nat): (n: nat)
    requires k < |text|
    ensures 1 <= n <= 2 && k + n <= |text|
  {
    if text[k] == '\r' && k + 1 < |text| && text[k + 1] == '\n' then 2 else 1
  }

  /**
   * One ReadLineAsync call. A line is complete at its break, or at the end of the text.
   * After a CR the reader looks at one more character, so a break of the connection right
   * there loses the line, as it loses an unterminated one.
   */
  function ReadLine(s: Source): (Read, Source) {
    var k := BreakAt(s.text);
    if s.broken && (k == |s.text| || (k + 1 == |s.text| && s.text[k] == '\r')) then (Failed, Source("", true))
    else if k < |s.text| then (Line(s.text[..k]), s.(text := s.text[k + StopLength(s.text, k)..]))
    else if s.text == "" then (End, s)
    else (Line(s.text), Source("", false))
  }

  /** All lines that reading `s` to its end delivers. */
  function Lines(s: Source): seq<string>
    decreases |s.text|
  {
    var (r, rest) := ReadLine(s);
    if r.Line? then [r.line] + Lines(rest) else []
  }

  /** A reader seen as the lines still to come, then the end or the failure. */
  datatype Script = Script(lines: seq<string>, broken: bool)

  function ScriptOf(s: Source): Script {
    Script(Lines(s), s.broken)
  }

  function Next(script: Script): (Read, Script) {
    if script.lines != [] then (Line(script.lines[0]), script.(lines := script.lines[1..]))
    else if script.broken then (Failed, script)
    else (End, script)
  }

  lemma {:induction false} ReadLineIsNext(s: Source)
    ensures var (r, rest) := ReadLine(s);
            (r, ScriptOf(rest)) == Next(ScriptOf(s))
  {
    var (r, rest) := ReadLine(s);
    if r.Line? {
      assert ([r.line] + Lines(rest))[1..] == Lines(rest);
    }
  }

  // ---- What the lines of a text are, independently of the reader ----

  datatype Piece = Piece(line: string, stop: string)

  predicate IsStop(stop: string) {
    stop == "\r" || stop == "\n" || stop == "\r\n"
  }

  predicate BreakFree(line: string) {
    forall i | 0 <= i < |line| :: !IsBreak(line[i])
  }

  function Rebuild(ps: seq<Piece>): string {
    if ps == [] then "" else ps[0].line + ps[0].stop + Rebuild(ps[1..])
  }

  function LinesOf(ps: seq<Piece>): seq<string> {
    seq(|ps|, i requires 0 <= i < |ps| => ps[i].line)
  }

  /**
   * A cutting of a text into lines: breaks only in the stops, every line stopped except
   * possibly a non-empty last one, and no CR LF pair torn apart.
   */
  predicate Cutting(ps: seq<Piece>) {
    ps == [] ||
    (&& BreakFree(ps[0].line)
     && (IsStop(ps[0].stop) || (ps[0].stop == "" && ps[0].line != "" && |ps| == 1))
     && (ps[0].stop == "\r" ==> !("\n" <= Rebuild(ps[1..])))
     && Cutting(ps[1..]))
  }

  lemma {:induction false} BreakAtIs(text: string, k: nat)
    requires k <= |text|
    requires forall i | 0 <= i < k :: !IsBreak(text[i])
    requires k < |text| ==> IsBreak(text[k])
    ensures BreakAt(text) == k
  {
    BreakAtFirst(text);
  }

  /** How the break after the first line of a cutting reads. */
  lemma {:induction false} FirstBreak(line: string, stop: string, tail: string)
    requires BreakFree(line) && IsStop(stop) && (stop == "\r" ==> !("\n" <= tail))
    ensures var text := line + stop + tail;
            && BreakAt(text) == |line| && StopLength(text, |line|) == |stop|
            && text[..|line|] == line && text[|line| + |stop|..] == tail
  {
    var text, k := line + stop + tail, |line|;
    assert forall i | 0 <= i < k :: text[i] == line[i];
    assert forall i | 0 <= i < |stop| :: text[k + i] == stop[i];
    assert tail != "" ==> text[k + |stop|] == tail[0];
    BreakAtIs(text, k);
  }

  /** The first piece of a cutting is what one ReadLineAsync takes from the rebuilt text. */
  lemma {:induction false} FirstPiece(ps: seq<Piece>)
    requires ps != [] && Cutting(ps)
    ensures ReadLine(Source(Rebuild(ps), false)) == (Line(ps[0].line), Source(Rebuild(ps[1..]), false))
  {
    if ps[0].stop == "" {
      assert ps[1..] == [];
      assert Rebuild(ps) == ps[0].line;
      BreakAtIs(Rebuild(ps), |ps[0].line|);
    } else {
      FirstBreak(ps[0].line, ps[0].stop, Rebuild(ps[1..]));
    }
  }

  /**
   * The lines of a text are the lines of any cutting of it, so reading neither loses nor
   * invents a character: every text has exactly one cutting (CuttingExists, CuttingUnique).
   */
  lemma {:induction false} LinesOfCutting(ps: seq<Piece>)
    requires Cutting(ps)
    ensures Lines(Source(Rebuild(ps), false)) == LinesOf(ps)
  {
    if ps == [] {
    } else {
      FirstPiece(ps);
      LinesOfCutting(ps[1..]);
      assert LinesOf(ps) == [ps[0].line] + LinesOf(ps[1..]);
      assert Cutting(ps[1..]);
    }
  }

  /** One more line, up to the first break; on a broken connection, unless it ends in a CR that ends the text. */
  lemma {:induction false} LinesStep(text: string, broken: bool)
    requires BreakAt(text) < |text|
    requires broken ==> !(BreakAt(text) + 1 == |text| && text[BreakAt(text)] == '\r')
    ensures var k := BreakAt(text);
            Lines(Source(text, broken)) == [text[..k]] + Lines(Source(text[k + StopLength(text, k)..], broken))
  {
    var k := BreakAt(text);
    assert ReadLine(Source(text, broken)) == (Line(text[..k]), Source(text[k + StopLength(text, k)..], broken));
  }

  lemma {:induction false} LinesOfUnterminated(text: string)
    requires BreakAt(text) == |text|
    ensures Lines(Source(text, true)) == []
    ensures Lines(Source(text, false)) == if text == "" then [] else [text]
  {
    assert Lines(Source("", false)) == [];
  }

  lemma {:induction false} StopIs(text: string, k: nat)
    requires k < |text| && IsBreak(text[k])
    ensures var n := StopLength(text, k);
            && IsStop(text[k..k + n])
            && (text[k..k + n] == "\r" ==> !("\n" <= text[k + n..]))
            && text == text[..k] + text[k..k + n] + text[k + n..]
  {
    var n := StopLength(text, k);
    assert text[k..k + n] == if n == 2 then "\r\n" else [text[k]];
    assert text[k + n..] != "" ==> text[k + n..][0] == text[k + n];
  }

  lemma {:induction false} PrependPiece(line: string, stop: string, tail: seq<Piece>)
    requires BreakFree(line) && IsStop(stop) && Cutting(tail)
    requires stop == "\r" ==> !("\n" <= Rebuild(tail))
    ensures var ps := [Piece(line, stop)] + tail;
            Cutting(ps) && Rebuild(ps) == line + stop + Rebuild(tail)
  {
    assert ([Piece(line, stop)] + tail)[1..] == tail;
  }

  lemma {:induction false} CuttingExists(text: string) returns (ps: seq<Piece>)
    ensures Cutting(ps) && Rebuild(ps) == text && LinesOf(ps) == Lines(Source(text, false))
    decreases |text|
  {
    var k := BreakAt(text);
    BreakAtFirst(text);
    if text == "" {
      ps := [];
    } else if k == |text| {
      ps := [Piece(text, "")];
      assert ps[1..] == [];
      assert Rebuild([]) == "" && Rebuild(ps) == text;
    } else {
      var n := StopLength(text, k);
      var tail := CuttingExists(text[k + n..]);
      ps := [Piece(text[..k], text[k..k + n])] + tail;
      StopIs(text, k);
      PrependPiece(text[..k], text[k..k + n], tail);
    }
    LinesOfCutting(ps);
  }

  /** A text can be cut in one way only: the first pieces agree in line and length, and so do the rests. */
  lemma {:induction false} CuttingUnique(ps: seq<Piece>, qs: seq<Piece>)
    requires Cutting(ps) && Cutting(qs) && Rebuild(ps) == Rebuild(qs)
    ensures ps == qs
  {
    if ps == [] || qs == [] {
      RebuildEmpty(ps);
      RebuildEmpty(qs);
    } else {
      FirstPiece(ps);
      FirstPiece(qs);
      assert ps[0].line == qs[0].line && Rebuild(ps[1..]) == Rebuild(qs[1..]);
      SameMiddle(ps[0].line, ps[0].stop, qs[0].stop, Rebuild(ps[1..]));
      CuttingUnique(ps[1..], qs[1..]);
      assert ps == [ps[0]] + ps[1..] && qs == [qs[0]] + qs[1..];
    }
  }

  lemma {:induction false} RebuildEmpty(ps: seq<Piece>)
    requires Cutting(ps)
    ensures Rebuild(ps) == "" <==> ps == []
  {
    if ps != [] {
      assert |Rebuild(ps)| >= |ps[0].line| + |ps[0].stop| > 0;
    }
  }

  lemma {:induction false} SameMiddle(a: string, b: string, c: string, d: string)
    requires a + b + d == a + c + d
    ensures b == c
  {
    assert |b| == |c|;
    assert (a + b + d)[|a|..|a| + |b|] == b;
    assert (a + c + d)[|a|..|a| + |c|] == c;
  }

  predicate EndsComplete(text: string) {
    |text| == 0 || text[|text| - 1] == '\n'
  }

  lemma {:induction false} SuffixEndsAlike(text: string, m: nat)
    requires m < |text|
    ensures EndsComplete(text[m..]) == EndsComplete(text)
  {}

  lemma {:induction false} RestEndsAlike(text: string)
    requires var k := BreakAt(text); k < |text| && !(k + 1 == |text| && text[k] == '\r')
    ensures EndsComplete(text[BreakAt(text) + StopLength(text, BreakAt(text))..]) == EndsComplete(text)
  {
    var m := BreakAt(text) + StopLength(text, BreakAt(text));
    if m < |text| {
      SuffixEndsAlike(text, m);
    }
  }

  /** A last line that is unterminated, or ends in a lone CR, arrives only when the connection ends cleanly. */
  lemma {:induction false} LastPartialLine(text: string)
    requires text != ""
    requires var k := BreakAt(text); k == |text| || (k + 1 == |text| && text[k] == '\r')
    ensures !EndsComplete(text)
    ensures Lines(Source(text, true)) == []
    ensures |Lines(Source(text, false))| == 1
  {
    BreakAtFirst(text);
    if BreakAt(text) == |text| {
      LinesOfUnterminated(text);
    } else {
      LinesStep(text, false);
      LinesOfUnterminated("");
      assert text[BreakAt(text) + 1..] == "";
    }
  }

  /** `part` is `all`, without its last line unless `complete`. */
  predicate Loses(all: seq<string>, part: seq<string>, complete: bool) {
    if complete then part == all else all != [] && part == all[..|all| - 1]
  }

  lemma {:induction false} LosesCons(first: string, all: seq<string>, part: seq<string>, complete: bool)
    requires Loses(all, part, complete)
    ensures Loses([first] + all, [first] + part, complete)
  {}

  /** What a broken connection costs: the last line, unless the text is empty or ends in LF. */
  lemma {:induction false} LinesOfBroken(text: string, all: seq<string>, part: seq<string>)
    requires all == Lines(Source(text, false)) && part == Lines(Source(text, true))
    ensures Loses(all, part, EndsComplete(text))
    decreases |text|
  {
    var k := BreakAt(text);
    if text == "" {
      LinesOfUnterminated("");
    } else if k < |text| && !(k + 1 == |text| && text[k] == '\r') {
      var rest := text[k + StopLength(text, k)..];
      LinesStep(text, true);
      LinesStep(text, false);
      RestEndsAlike(text);
      LinesOfBroken(rest, Lines(Source(rest, false)), Lines(Source(rest, true)));
      LosesCons(text[..k], Lines(Source(rest, false)), Lines(Source(rest, true)), EndsComplete(rest));
    } else {
      LastPartialLine(text);
    }
  }
}
