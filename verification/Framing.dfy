// Reading lines from a buffered connection. Reads complete at any time with any
// number of bytes; the consumer looks up the next newline and reads up to it.
module Framing {
  import opened TcpClient
  import T = CText

  const NEWLINE := '\n'

  datatype Event = Deliver(chunk: seq<char>) | TakeLine

  datatype Feed = Feed(ring: seq<char>, delivered: seq<char>, lines: seq<seq<char>>, overrun: bool)

  const EMPTY := Feed([], [], [], false)

  // The position of the first newline, or -1.
  function NewlineAt(s: seq<char>): (r: int)
    ensures -1 <= r < |s|
  {
    var k := T.IndexOf(s, NEWLINE);
    if k == |s| then -1 else k
  }

  // What a ring holds after its first line was taken.
  function AfterLine(ring: seq<char>): seq<char> {
    ring[NewlineAt(ring) + 1..]
  }

  function Step(f: Feed, e: Event): Feed {
    match e
    case Deliver(chunk) =>
      Feed(Pushed(f.ring, chunk, CAPACITY), f.delivered + chunk, f.lines, f.overrun || |f.ring| + |chunk| > CAPACITY)
    case TakeLine =>
      var pos := NewlineAt(f.ring);
      if pos == -1 then f
      else f.(ring := AfterLine(f.ring), lines := f.lines + [f.ring[..pos]])
  }

  function Run(f: Feed, es: seq<Event>): Feed
    decreases |es|
  {
    if es == [] then f else Run(Step(f, es[0]), es[1..])
  }

  function Bytes(e: Event): seq<char> {
    if e.Deliver? then e.chunk else []
  }

  function Stream(es: seq<Event>): seq<char> {
    if es == [] then [] else Bytes(es[0]) + Stream(es[1..])
  }

  function Unlines(lines: seq<seq<char>>): seq<char> {
    if lines == [] then [] else Unlines(lines[..|lines| - 1]) + lines[|lines| - 1] + [NEWLINE]
  }

  // The lines of s, without their newlines, and what follows the last newline.
  predicate IsFraming(s: seq<char>, lines: seq<seq<char>>, tail: seq<char>) {
    && Unlines(lines) + tail == s
    && NEWLINE !in tail
    && forall i | 0 <= i < |lines| :: NEWLINE !in lines[i]
  }

  lemma NewlineIsFirst(s: seq<char>)
    ensures NewlineAt(s) == -1 <==> NEWLINE !in s
    ensures NewlineAt(s) != -1 ==>
              && s[NewlineAt(s)] == NEWLINE && NEWLINE !in s[..NewlineAt(s)]
              && forall k | 0 <= k < NewlineAt(s) :: s[k] != NEWLINE
  {
    assert s[..|s|] == s;
    forall k | 0 <= k < NewlineAt(s)
      ensures s[k] != NEWLINE
    {
      assert s[k] == s[..NewlineAt(s)][k];
    }
  }

  // The lookup of a newline finds the same.
  lemma LookupIsNewlineAt(s: seq<char>, r: int)
    requires IsLookup(s, [NEWLINE], 0, r)
    ensures r == NewlineAt(s)
  {
    NewlineIsFirst(s);
    hide NewlineAt;
    forall k | 0 <= k < |s|
      ensures Occurs(s, [NEWLINE], k) <==> s[k] == NEWLINE
    {
      assert s[k..k + 1] == [s[k]];
    }
    if r == -1 {
      assert forall k | 0 <= k < |s| :: s[k] != NEWLINE;
    }
  }

  // ---- Every run ----

  ghost predicate Kept(f: Feed) {
    && IsSuffix(f.ring, f.delivered)
    && (!f.overrun ==> Unlines(f.lines) + f.ring == f.delivered)
    && (forall i | 0 <= i < |f.lines| :: NEWLINE !in f.lines[i])
    && |f.ring| <= CAPACITY
  }

  lemma DeliverKeeps(f: Feed, chunk: seq<char>)
    requires Kept(f)
    ensures Kept(Step(f, Deliver(chunk)))
  {
    SuffixKept(f.ring, f.delivered, chunk, CAPACITY);
    assert Unlines(f.lines) + (f.ring + chunk) == (Unlines(f.lines) + f.ring) + chunk;
    hide IsSuffix, Unlines;
  }

  lemma UnlinesOneMore(lines: seq<seq<char>>, line: seq<char>)
    ensures Unlines(lines + [line]) == Unlines(lines) + line + [NEWLINE]
  {
    assert (lines + [line])[..|lines|] == lines;
  }

  lemma TakeLineMoves(lines: seq<seq<char>>, ring: seq<char>, pos: nat)
    requires pos < |ring| && ring[pos] == NEWLINE
    ensures Unlines(lines + [ring[..pos]]) + ring[pos + 1..] == Unlines(lines) + ring
  {
    UnlinesOneMore(lines, ring[..pos]);
    hide Unlines;
    assert ring == ring[..pos] + [NEWLINE] + ring[pos + 1..];
  }

  lemma TakeLineKeeps(f: Feed)
    requires Kept(f)
    ensures Kept(Step(f, TakeLine))
  {
    var pos := NewlineAt(f.ring);
    NewlineIsFirst(f.ring);
    hide NewlineAt;
    if pos != -1 {
      SuffixShrinks(f.ring, f.delivered, pos + 1);
      TakeLineMoves(f.lines, f.ring, pos);
      hide IsSuffix, Unlines;
    }
  }

  lemma StepKeeps(f: Feed, e: Event)
    requires Kept(f)
    ensures Kept(Step(f, e)) && Step(f, e).delivered == f.delivered + Bytes(e)
  {
    if e.Deliver? {
      DeliverKeeps(f, e.chunk);
    } else {
      TakeLineKeeps(f);
    }
    hide Kept, Pushed, NewlineAt;
  }

  lemma {:induction false} RunKeeps(f: Feed, es: seq<Event>)
    requires Kept(f)
    ensures Kept(Run(f, es)) && Run(f, es).delivered == f.delivered + Stream(es)
    decreases |es|
  {
    hide Kept, Step, Bytes;
    if es != [] {
      StepKeeps(f, es[0]);
      RunKeeps(Step(f, es[0]), es[1..]);
      assert f.delivered + (Bytes(es[0]) + Stream(es[1..])) == f.delivered + Bytes(es[0]) + Stream(es[1..]);
    }
  }

  // In every run the ring holds the latest bytes of the stream, and without an
  // overrun the lines taken and the ring make up the whole stream.
  lemma RingIsSuffix(es: seq<Event>)
    ensures var f := Run(EMPTY, es);
            IsSuffix(f.ring, Stream(es)) && |f.ring| <= CAPACITY
            && (!f.overrun ==> Unlines(f.lines) + f.ring == Stream(es))
  {
    hide Run, Unlines, Stream, Step, IsSuffix, NewlineAt;
    EmptyKept();
    RunKeeps(EMPTY, es);
    assert [] + Stream(es) == Stream(es);
  }

  lemma EmptyKept()
    ensures Kept(EMPTY)
  {
  }

  // ---- Draining ----

  function Newlines(s: seq<char>): nat {
    if s == [] then 0 else (if s[0] == NEWLINE then 1 else 0) + Newlines(s[1..])
  }

  lemma {:induction false} OneLess(s: seq<char>)
    requires NewlineAt(s) != -1
    ensures Newlines(s) == 1 + Newlines(s[NewlineAt(s) + 1..])
  {
    NewlineIsFirst(s);
    if s[0] != NEWLINE {
      OneLess(s[1..]);
      assert s[NewlineAt(s) + 1..] == s[1..][NewlineAt(s[1..]) + 1..];
    }
  }

  function Drain(n: nat): seq<Event> {
    seq(n, i => TakeLine)
  }

  lemma {:induction false} NoNewlines(s: seq<char>)
    ensures Newlines(s) == 0 <==> NewlineAt(s) == -1
  {
    NewlineIsFirst(s);
    if s != [] {
      NewlineIsFirst(s[1..]);
      NoNewlines(s[1..]);
    }
  }

  lemma {:induction false} DrainEmpties(f: Feed, n: nat)
    requires n >= Newlines(f.ring)
    ensures var g := Run(f, Drain(n)); NEWLINE !in g.ring && g.overrun == f.overrun
    decreases n
  {
    NewlineIsFirst(f.ring);
    NoNewlines(f.ring);
    if n > 0 {
      assert Drain(n)[1..] == Drain(n - 1);
      if NewlineAt(f.ring) != -1 {
        OneLess(f.ring);
      }
      DrainEmpties(Step(f, TakeLine), n - 1);
    }
  }

  lemma {:induction false} RunCat(f: Feed, a: seq<Event>, b: seq<Event>)
    ensures Run(f, a + b) == Run(Run(f, a), b) && Stream(a + b) == Stream(a) + Stream(b)
    decreases |a|
  {
    hide Step, Bytes;
    if a == [] {
      assert a + b == b;
    } else {
      assert (a + b)[0] == a[0] && (a + b)[1..] == a[1..] + b;
      RunCat(Step(f, a[0]), a[1..], b);
      var s, t, u := Bytes(a[0]), Stream(a[1..]), Stream(b);
      assert s + t + u == s + (t + u);
    }
  }

  // ---- A stream has one framing ----

  lemma {:induction false} UnlinesFront(lines: seq<seq<char>>)
    requires lines != []
    ensures Unlines(lines) == lines[0] + [NEWLINE] + Unlines(lines[1..])
  {
    if |lines| > 1 {
      var front := lines[..|lines| - 1];
      UnlinesFront(front);
      assert front[1..] == lines[1..][..|lines| - 2];
    }
  }

  lemma FirstNewline(line: seq<char>, rest: seq<char>)
    requires NEWLINE !in line
    ensures NewlineAt(line + [NEWLINE] + rest) == |line|
  {
    var s := line + [NEWLINE] + rest;
    NewlineIsFirst(s);
    hide NewlineAt;
    var p := NewlineAt(s);
    assert s[|line|] == NEWLINE;
    assert p >= |line|;
  }

  lemma FramingFront(s: seq<char>, lines: seq<seq<char>>, tail: seq<char>)
    requires IsFraming(s, lines, tail)
    ensures lines == [] ==> NewlineAt(s) == -1
    ensures lines != [] ==>
              NewlineAt(s) == |lines[0]| && s[..|lines[0]|] == lines[0]
              && IsFraming(s[|lines[0]| + 1..], lines[1..], tail)
  {
    NewlineIsFirst(s);
    hide NewlineAt;
    if lines != [] {
      var rest := Unlines(lines[1..]) + tail;
      UnlinesFront(lines);
      hide Unlines;
      assert s == lines[0] + [NEWLINE] + rest;
      FirstNewline(lines[0], rest);
      assert s[|lines[0]| + 1..] == rest;
    }
  }

  lemma {:induction false} OneFraming(s: seq<char>, lines: seq<seq<char>>, tail: seq<char>, lines': seq<seq<char>>,
      tail': seq<char>)
    requires IsFraming(s, lines, tail) && IsFraming(s, lines', tail')
    ensures lines == lines' && tail == tail'
    decreases |lines|
  {
    FramingFront(s, lines, tail);
    FramingFront(s, lines', tail');
    assert lines == [] ==> tail == s == tail';
    if lines != [] {
      hide IsFraming, NewlineAt;
      OneFraming(s[|lines[0]| + 1..], lines[1..], tail, lines'[1..], tail');
      assert lines == [lines[0]] + lines[1..] && lines' == [lines'[0]] + lines'[1..];
    }
  }

  // Once drained, and unless the ring overran, the lines read are the lines of the
  // stream and the ring holds its unfinished tail.
  lemma DrainedIsFraming(es: seq<Event>, n: nat)
    requires !Run(EMPTY, es).overrun && n >= Newlines(Run(EMPTY, es).ring)
    ensures var f := Run(EMPTY, es + Drain(n)); IsFraming(Stream(es), f.lines, f.ring)
  {
    RunCat(EMPTY, es, Drain(n));
    RunKeeps(EMPTY, es);
    DrainEmpties(Run(EMPTY, es), n);
    RunKeeps(Run(EMPTY, es), Drain(n));
    DrainsNothing(n);
  }

  lemma {:induction false} DrainsNothing(n: nat)
    ensures Stream(Drain(n)) == []
  {
    if n > 0 {
      assert Drain(n)[1..] == Drain(n - 1);
      DrainsNothing(n - 1);
    }
  }

  // How the stream was cut into reads, and when lines were taken, makes no difference.
  lemma ChunkingIsIrrelevant(es: seq<Event>, n: nat, es': seq<Event>, n': nat)
    requires Stream(es) == Stream(es')
    requires !Run(EMPTY, es).overrun && n >= Newlines(Run(EMPTY, es).ring)
    requires !Run(EMPTY, es').overrun && n' >= Newlines(Run(EMPTY, es').ring)
    ensures var f, f' := Run(EMPTY, es + Drain(n)), Run(EMPTY, es' + Drain(n'));
            f.lines == f'.lines && f.ring == f'.ring
  {
    DrainedIsFraming(es, n);
    DrainedIsFraming(es', n');
    var f, f' := Run(EMPTY, es + Drain(n)), Run(EMPTY, es' + Drain(n'));
    OneFraming(Stream(es), f.lines, f.ring, f'.lines, f'.ring);
  }

  // Looks up the next newline and reads up to it, as a receiver does with every control line.
  // It is the step TakeLine of a buffered client; an unbuffered client keeps its bytes.
  method TakeNextLine(c: TCPClient, buff: array<char>) returns (pos: int)
    requires c.Valid() && NewlineAt(c.Received()) < buff.Length
    requires buff != c.bufrcv_ && buff != c.crcrcv_.data && buff != c.crcsnd_.data
    modifies c`taken, c.crcrcv_`first, c.crcrcv_`count, buff
    ensures c.Valid() && pos == NewlineAt(old(c.Received()))
    ensures buff[..pos + 1] == old(c.Received())[..pos + 1]
    ensures c.Received() == if c.usebuf_ then AfterLine(old(c.Received())) else old(c.Received())
  {
    pos := TakeUpTo(c, buff);
    AfterLineIs(old(c.Received()));
    hide AfterLine, NewlineAt, TCPClient.Valid, TCPClient.Shape, TCPClient.Received;
  }

  method TakeUpTo(c: TCPClient, buff: array<char>) returns (pos: int)
    requires c.Valid() && NewlineAt(c.Received()) < buff.Length
    requires buff != c.bufrcv_ && buff != c.crcrcv_.data && buff != c.crcsnd_.data
    modifies c`taken, c.crcrcv_`first, c.crcrcv_`count, buff
    ensures c.Valid() && c.Shape() && pos == NewlineAt(old(c.Received()))
    ensures buff[..pos + 1] == old(c.Received())[..pos + 1]
    ensures c.Received() == if c.usebuf_ then old(c.Received())[pos + 1..] else old(c.Received())
  {
    hide NewlineAt, TCPClient.Valid, TCPClient.Shape, TCPClient.Received;
    pos := FindLine(c);
    ReadFront(c, buff, pos + 1);
  }

  lemma AfterLineIs(ring: seq<char>)
    ensures AfterLine(ring) == ring[NewlineAt(ring) + 1..]
  {
  }

  method FindLine(c: TCPClient) returns (pos: int)
    requires c.Valid()
    ensures pos == NewlineAt(c.Received())
  {
    hide NewlineAt, TCPClient.ReceiveOk, TCPClient.SendOk, TCPClient.Received, Occurs, IsLookup;
    var term := new char[1] [NEWLINE];
    pos := c.Lookup(term, 1, 0);
    assert term[..1] == [NEWLINE];
    LookupIsNewlineAt(c.Received(), pos);
  }

  // Reads the first n bytes.
  method ReadFront(c: TCPClient, buff: array<char>, n: nat)
    requires c.Valid() && n <= |c.Received()| && n <= buff.Length
    requires buff != c.bufrcv_ && buff != c.crcrcv_.data && buff != c.crcsnd_.data
    modifies c`taken, c.crcrcv_`first, c.crcrcv_`count, buff
    ensures c.Valid() && c.Shape() && buff[..n] == old(c.Received())[..n]
    ensures c.Received() == if c.usebuf_ then old(c.Received())[n..] else old(c.Received())
  {
    ghost var s := c.Received();
    assert n > 0 ==> Copied(|s|, n, 0) == n;
    hide TCPClient.Valid, TCPClient.Shape, TCPClient.Received, Copied;
    var i := c.Read(buff, n, 0);
  }
}
