/** PeekableStreamReader of WatcherDelegatingHandler.cs: a line reader with a queue of peeked lines. */
module PeekableReader {
  import opened Basics
  import opened TextLines

  /** The null that ends a stream is queued like a line. */
  function Queued(r: Read): Option<string>
    requires !r.Failed?
  {
    if r.Line? then Some(r.line) else None
  }

  function Dequeued(entry: Option<string>): Read {
    match entry
    case Some(line) => Line(line)
    case None => End
  }

  datatype Op = ReadOp | PeekOp

  datatype PeekState = PeekState(buffer: seq<Option<string>>, inner: Source) {

    /** The buffer holds at most one entry, and a queued null only once the stream has ended. */
    predicate Valid() {
      |buffer| <= 1 && (buffer == [None] ==> inner == Source("", false))
    }

    /** The lines a consumer still receives. */
    function View(): Script {
      Script((if buffer != [] && buffer[0].Some? then [buffer[0].value] else []) + Lines(inner), inner.broken)
    }

    function Read(): (Read, PeekState) {
      if |buffer| > 0 then (Dequeued(buffer[0]), this.(buffer := buffer[1..]))
      else
        var (r, rest) := ReadLine(inner);
        (r, this.(inner := rest))
    }

    function Peek(): (Read, PeekState) {
      var (r, after) := Read();
      if r.Failed? then (r, after) else (r, after.(buffer := after.buffer + [Queued(r)]))
    }

    function Do(op: Op): (Read, PeekState) {
      if op.ReadOp? then Read() else Peek()
    }

    /** What a sequence of reads and peeks returns. */
    function Run(ops: seq<Op>): seq<Read>
      decreases |ops|
    {
      if ops == [] then []
      else
        var (r, after) := Do(ops[0]);
        [r] + after.Run(ops[1..])
    }

    function After(ops: seq<Op>): PeekState
      decreases |ops|
    {
      if ops == [] then this else Do(ops[0]).1.After(ops[1..])
    }
  }

  /** The simple reader: a peek answers without moving, a read moves by one line. */
  function SimpleRun(script: Script, ops: seq<Op>): seq<Read>
    decreases |ops|
  {
    if ops == [] then []
    else
      var (r, rest) := Next(script);
      [r] + SimpleRun(if ops[0].ReadOp? then rest else script, ops[1..])
  }

  lemma {:induction false} ReadRefines(p: PeekState)
    requires p.Valid()
    ensures var (r, after) := p.Read();
            after.Valid() && after.buffer == [] && (r, after.View()) == Next(p.View())
  {
    ReadLineIsNext(p.inner);
    assert [] + Lines(p.inner) == Lines(p.inner);
    assert [] + Lines(p.Read().1.inner) == Lines(p.Read().1.inner);
  }

  /** Only an exhausted reader answers with the end. */
  lemma {:induction false} EndIsExhausted(p: PeekState)
    requires p.Valid() && p.Read().0.End?
    ensures p.Read().1.inner == Source("", false) && Lines(p.Read().1.inner) == []
  {}

  /** Putting a line back in front of the reader it came from. */
  lemma {:induction false} QueuedView(r: Read, after: PeekState)
    requires !r.Failed? && after.buffer == [] && (r.End? ==> Lines(after.inner) == [])
    ensures after.(buffer := [Queued(r)]).View()
         == Script((if r.Line? then [r.line] else []) + Lines(after.inner), after.inner.broken)
  {}

  lemma {:induction false} PeekRefines(p: PeekState)
    requires p.Valid()
    ensures var (r, after) := p.Peek();
            && after.Valid() && after.View() == p.View() && r == Next(p.View()).0
            && after.buffer == (if r.Failed? then [] else [Queued(r)])
  {
    ReadRefines(p);
    var (r, after) := p.Read();
    assert after.View() == Script([] + Lines(after.inner), after.inner.broken);
    assert [] + Lines(after.inner) == Lines(after.inner);
    if !r.Failed? {
      if r.End? {
        EndIsExhausted(p);
      }
      QueuedView(r, after);
      assert after.buffer + [Queued(r)] == [Queued(r)];
    }
    BeforeNext(p.View(), after.View(), r);
  }

  lemma {:induction false} BeforeNext(script: Script, rest: Script, r: Read)
    requires (r, rest) == Next(script)
    ensures script == if r.Line? then Script([r.line] + rest.lines, rest.broken) else rest
  {}

  /**
   * Over every sequence of operations the buffer never holds more than one entry and the
   * answers are those of the simple reader, so no peek changes what is read later.
   */
  lemma {:induction false} RunRefines(p: PeekState, ops: seq<Op>)
    requires p.Valid()
    ensures p.After(ops).Valid()
    ensures p.Run(ops) == SimpleRun(p.View(), ops)
    decreases |ops|
  {
    if ops != [] {
      ReadRefines(p);
      PeekRefines(p);
      RunRefines(p.Do(ops[0]).1, ops[1..]);
    }
  }

  function Times<T>(n: nat, x: T): seq<T> {
    if n == 0 then [] else [x] + Times(n - 1, x)
  }

  lemma {:induction false} TimesTail<T>(n: nat, x: T)
    requires n > 0
    ensures Times(n, x) != [] && Times(n, x)[0] == x && Times(n, x)[1..] == Times(n - 1, x)
  {}

  lemma {:induction false} PeeksKeepView(p: PeekState, n: nat)
    requires p.Valid()
    ensures p.After(Times(n, PeekOp)).View() == p.View()
    decreases n
  {
    if n > 0 {
      TimesTail(n, PeekOp);
      PeekRefines(p);
      PeeksKeepView(p.Peek().1, n - 1);
    }
  }

  /** Any number of peeks followed by one read all return the same line, and leave the lines to come as they were. */
  lemma {:induction false} PeeksAgree(p: PeekState, n: nat)
    requires p.Valid()
    ensures p.Run(Times(n, PeekOp) + [ReadOp]) == Times(n + 1, Next(p.View()).0)
    ensures p.After(Times(n, PeekOp)).View() == p.View()
  {
    RunRefines(p, Times(n, PeekOp) + [ReadOp]);
    SimplePeeks(p.View(), n);
    PeeksKeepView(p, n);
  }

  lemma {:induction false} SimplePeeks(script: Script, n: nat)
    ensures SimpleRun(script, Times(n, PeekOp) + [ReadOp]) == Times(n + 1, Next(script).0)
    decreases n
  {
    var ops := Times(n, PeekOp) + [ReadOp];
    if n == 0 {
      assert ops == [ReadOp] && ops[1..] == [];
      assert SimpleRun(Next(script).1, []) == [] && Times(0, Next(script).0) == [];
    } else {
      TimesTail(n, PeekOp);
      SimplePeeks(script, n - 1);
      assert ops[1..] == Times(n - 1, PeekOp) + [ReadOp];
    }
  }

  class PeekableStreamReader {
    var buffer: seq<Option<string>>
    var inner: Source

    ghost function State(): PeekState
      reads this
    {
      PeekState(buffer, inner)
    }

    ghost predicate Valid()
      reads this
    {
      State().Valid()
    }

    ghost function View(): Script
      reads this
    {
      State().View()
    }

    constructor (stream: Source)
      ensures Valid() && buffer == [] && inner == stream && View() == ScriptOf(stream)
    {
      buffer := [];
      inner := stream;
    }

    method ReadLineAsync() returns (r: Read)
      requires Valid()
      modifies this
      ensures (r, State()) == old(State().Read())
      ensures Valid() && buffer == []
      ensures (r, View()) == Next(old(View()))
    {
      ReadRefines(State());
      if |buffer| > 0 {
        r := Dequeued(buffer[0]);
        buffer := buffer[1..];
      } else {
        var (line, rest) := ReadLine(inner);
        r := line;
        inner := rest;
      }
    }

    method PeekLineAsync() returns (r: Read)
      requires Valid()
      modifies this
      ensures (r, State()) == old(State().Peek())
      ensures Valid() && View() == old(View())
      ensures r == Next(old(View())).0
      ensures buffer == if r.Failed? then [] else [Queued(r)]
    {
      ghost var before := State();
      PeekRefines(before);
      r := ReadLineAsync();
      if !r.Failed? {
        buffer := buffer + [Queued(r)];
      }
      assert (r, State()) == before.Peek();
    }
  }
}
