// The message queue: two priorities, first in first out within each, and the
// thread that takes the messages and calls the functions registered for them.
module MessageQueue {
  const MSG_QUIT := 0
  const MSG_USER := 128
  const MQFUNC_SIZE := 1024
  const POST := 1
  const SEND := 10

  datatype MsgUnit = MsgUnit(id: int, par1: int, par2: int)
  datatype Entry = Entry(msg: MsgUnit, priority: int)

  // A function connected to a message, by number.
  type Slot = nat
  datatype Call = Call(slot: Slot, par1: int, par2: int)

  // What happens to a queue: another thread adds a message, or the message
  // thread goes once through its loop (and just waits when there is nothing).
  datatype Op = Arrive(e: Entry) | Turn

  datatype Box = Box(queue: seq<Entry>, sent: seq<Entry>, received: seq<Entry>, quit: bool)

  predicate Sorted(q: seq<Entry>) {
    forall i, j | 0 <= i < j < |q| :: q[i].priority >= q[j].priority
  }

  // The queue stands in the order of receipt; e goes behind its equals.
  function Insert(q: seq<Entry>, e: Entry): seq<Entry> {
    if q == [] || q[0].priority < e.priority then [e] + q else [q[0]] + Insert(q[1..], e)
  }

  function Step(b: Box, op: Op): Box {
    match op
    case Arrive(e) => b.(queue := Insert(b.queue, e), sent := b.sent + [e])
    case Turn =>
      if b.quit || b.queue == [] then b
      else b.(queue := b.queue[1..], received := b.received + [b.queue[0]], quit := b.queue[0].msg.id == MSG_QUIT)
  }

  function Run(b: Box, ops: seq<Op>): Box
    decreases |ops|
  {
    if ops == [] then b else Run(Step(b, ops[0]), ops[1..])
  }

  // The messages of one priority, in order.
  function Lane(q: seq<Entry>, p: int): seq<Entry> {
    if q == [] then [] else (if q[0].priority == p then [q[0]] else []) + Lane(q[1..], p)
  }

  lemma {:induction false} LaneCat(a: seq<Entry>, b: seq<Entry>, p: int)
    ensures Lane(a + b, p) == Lane(a, p) + Lane(b, p)
  {
    if a == [] {
      assert a + b == b;
    } else {
      var first := if a[0].priority == p then [a[0]] else [];
      assert (a + b)[0] == a[0] && (a + b)[1..] == a[1..] + b;
      LaneCat(a[1..], b, p);
      var rest, more := Lane(a[1..], p), Lane(b, p);
      assert Lane(a, p) == first + rest && Lane(a + b, p) == first + (rest + more);
      hide Lane;
      assert first + (rest + more) == first + rest + more;
    }
  }

  lemma {:induction false} InsertLane(q: seq<Entry>, e: Entry, p: int)
    requires Sorted(q)
    ensures Lane(Insert(q, e), p) == Lane(q, p) + Lane([e], p)
  {
    if q == [] {
    } else if q[0].priority < e.priority {
      assert ([e] + q)[1..] == q;
      if p == e.priority {
        NoneInLane(q, p);
      }
    } else {
      assert Insert(q, e)[1..] == Insert(q[1..], e);
      InsertLane(q[1..], e, p);
    }
  }

  lemma {:induction false} NoneInLane(q: seq<Entry>, p: int)
    requires forall i | 0 <= i < |q| :: q[i].priority < p
    ensures Lane(q, p) == []
  {
    if q != [] {
      NoneInLane(q[1..], p);
    }
  }

  lemma {:induction false} InsertBelow(q: seq<Entry>, e: Entry, top: int)
    requires e.priority <= top && forall i | 0 <= i < |q| :: q[i].priority <= top
    ensures forall i | 0 <= i < |Insert(q, e)| :: Insert(q, e)[i].priority <= top
  {
    if q != [] && q[0].priority >= e.priority {
      InsertBelow(q[1..], e, top);
    }
  }

  lemma {:induction false} InsertSorted(q: seq<Entry>, e: Entry)
    requires Sorted(q)
    ensures Sorted(Insert(q, e))
    ensures Insert(q, e)[0] == (if q == [] || q[0].priority < e.priority then e else q[0])
  {
    if q != [] && q[0].priority >= e.priority {
      InsertSorted(q[1..], e);
      InsertBelow(q[1..], e, q[0].priority);
    }
  }

  ghost predicate Kept(b: Box) {
    && Sorted(b.queue)
    && forall p :: Lane(b.received, p) + Lane(b.queue, p) == Lane(b.sent, p)
  }

  lemma ArriveLane(b: Box, e: Entry, p: int)
    requires Sorted(b.queue) && Lane(b.received, p) + Lane(b.queue, p) == Lane(b.sent, p)
    ensures var c := Step(b, Arrive(e)); Lane(c.received, p) + Lane(c.queue, p) == Lane(c.sent, p)
  {
    InsertLane(b.queue, e, p);
    LaneCat(b.sent, [e], p);
    hide Sorted, Lane, Insert;
  }

  lemma TurnLane(b: Box, p: int)
    requires Lane(b.received, p) + Lane(b.queue, p) == Lane(b.sent, p)
    ensures var c := Step(b, Turn); Lane(c.received, p) + Lane(c.queue, p) == Lane(c.sent, p)
  {
    if !b.quit && b.queue != [] {
      LaneCat(b.received, [b.queue[0]], p);
      assert b.queue == [b.queue[0]] + b.queue[1..];
      LaneCat([b.queue[0]], b.queue[1..], p);
      hide Lane;
    }
  }

  lemma StepKeeps(b: Box, op: Op)
    requires Kept(b)
    ensures Kept(Step(b, op))
  {
    var c := Step(b, op);
    if op.Arrive? {
      InsertSorted(b.queue, op.e);
    }
    assert Sorted(c.queue);
    forall p
      ensures Lane(c.received, p) + Lane(c.queue, p) == Lane(c.sent, p)
    {
      if op.Arrive? {
        ArriveLane(b, op.e, p);
      } else {
        TurnLane(b, p);
      }
    }
    hide Lane, Insert, Step;
  }

  // In every run each priority is a first-in first-out lane of its own, from
  // which nothing is lost or doubled.
  lemma {:induction false} LanesAreFifo(b: Box, ops: seq<Op>, p: int)
    requires Kept(b)
    ensures Kept(Run(b, ops))
    ensures var c := Run(b, ops); Lane(c.received, p) + Lane(c.queue, p) == Lane(c.sent, p)
    decreases |ops|
  {
    hide Step;
    if ops != [] {
      StepKeeps(b, ops[0]);
      LanesAreFifo(Step(b, ops[0]), ops[1..], p);
    }
  }

  // A message is received only when none of a higher priority waits.
  lemma HighestFirst(b: Box, ops: seq<Op>, k: nat)
    requires Kept(b)
    ensures var c := Run(b, ops);
            !c.quit && k < |c.queue| ==>
                Step(c, Turn).received == c.received + [c.queue[0]] && c.queue[0].priority >= c.queue[k].priority
  {
    LanesAreFifo(b, ops, POST);
  }

  // ---- Only posts ----

  ghost predicate OnlyPosts(ops: seq<Op>) {
    forall i | 0 <= i < |ops| && ops[i].Arrive? :: ops[i].e.priority == POST
  }

  lemma {:induction false} InsertLast(q: seq<Entry>, e: Entry)
    requires forall i | 0 <= i < |q| :: q[i].priority >= e.priority
    ensures Insert(q, e) == q + [e]
  {
    if q != [] {
      InsertLast(q[1..], e);
    }
  }

  // As long as every message is posted, the queue is one first-in first-out line.
  lemma {:induction false} PostsAreFifo(b: Box, ops: seq<Op>)
    requires OnlyPosts(ops) && b.received + b.queue == b.sent
    requires forall i | 0 <= i < |b.queue| :: b.queue[i].priority == POST
    ensures var c := Run(b, ops); c.received + c.queue == c.sent
    decreases |ops|
  {
    if ops != [] {
      var c := Step(b, ops[0]);
      if ops[0].Arrive? {
        InsertLast(b.queue, ops[0].e);
      }
      assert c.received + c.queue == c.sent;
      PostsAreFifo(c, ops[1..]);
    }
  }

  // ---- Stopping ----

  function Turns(ops: seq<Op>): nat {
    if ops == [] then 0 else (if ops[0].Turn? then 1 else 0) + Turns(ops[1..])
  }

  lemma {:induction false} NothingAfterQuit(b: Box, ops: seq<Op>)
    requires b.quit
    ensures Run(b, ops).quit && Run(b, ops).received == b.received
    decreases |ops|
  {
    if ops != [] {
      NothingAfterQuit(Step(b, ops[0]), ops[1..]);
    }
  }

  lemma {:induction false} FirstIsTaken(b: Box, ops: seq<Op>)
    requires !b.quit && b.queue != [] && b.queue[0].msg.id == MSG_QUIT
    requires forall i | 0 <= i < |ops| && ops[i].Arrive? :: ops[i].e.priority <= b.queue[0].priority
    ensures Run(b, ops).received == if Turns(ops) == 0 then b.received else b.received + [b.queue[0]]
    ensures Run(b, ops).quit <==> Turns(ops) != 0
    decreases |ops|
  {
    if ops != [] {
      var c := Step(b, ops[0]);
      if ops[0].Turn? {
        NothingAfterQuit(c, ops[1..]);
      } else {
        FirstIsTaken(c, ops[1..]);
      }
    }
  }

  predicate OnlyBelow(q: seq<Entry>, p: int) {
    forall i | 0 <= i < |q| :: q[i].priority < p
  }

  // The two priorities that are ever used.
  predicate OnlyKnown(ops: seq<Op>) {
    forall i | 0 <= i < |ops| && ops[i].Arrive? :: ops[i].e.priority == POST || ops[i].e.priority == SEND
  }

  // The quit message that Stop sends overtakes every posted message: whatever is
  // sent or posted from then on, it is the next one received, and the last.
  lemma StopOvertakes(b: Box, p1: int, p2: int, ops: seq<Op>)
    requires Kept(b) && !b.quit
    requires OnlyBelow(b.queue, SEND) && OnlyKnown(ops)
    ensures var quit := Entry(MsgUnit(MSG_QUIT, p1, p2), SEND);
            var c := Run(Step(b, Arrive(quit)), ops);
            c.quit == (Turns(ops) != 0) && c.received == if Turns(ops) == 0 then b.received else b.received + [quit]
  {
    var quit := Entry(MsgUnit(MSG_QUIT, p1, p2), SEND);
    InsertSorted(b.queue, quit);
    FirstIsTaken(Step(b, Arrive(quit)), ops);
  }

  // ---- Dispatch ----

  // The calls that message m leads to when the functions are registered as in funcs.
  function CallsOf(funcs: seq<seq<Slot>>, m: MsgUnit): seq<Call>
    requires |funcs| == MQFUNC_SIZE
  {
    var pos := m.id - MSG_USER;
    if 0 <= pos < MQFUNC_SIZE then
      seq(|funcs[pos]|, i requires 0 <= i < |funcs[pos]| => Call(funcs[pos][i], m.par1, m.par2))
    else []
  }

  function AllCalls(funcs: seq<seq<Slot>>, es: seq<Entry>): seq<Call>
    requires |funcs| == MQFUNC_SIZE
  {
    if es == [] then [] else AllCalls(funcs, es[..|es| - 1]) + CallsOf(funcs, es[|es| - 1].msg)
  }

  lemma AllCallsOneMore(funcs: seq<seq<Slot>>, es: seq<Entry>, e: Entry)
    requires |funcs| == MQFUNC_SIZE
    ensures AllCalls(funcs, es + [e]) == AllCalls(funcs, es) + CallsOf(funcs, e.msg)
  {
    assert (es + [e])[..|es|] == es;
  }

  lemma RunFrom(b: Box, ops: seq<Op>, i: nat)
    requires i < |ops|
    ensures Run(b, ops[i..]) == Run(Step(b, ops[i]), ops[i + 1..])
  {
    assert ops[i..][1..] == ops[i + 1..];
  }

  lemma NoCallsAtFirst(funcs: seq<seq<Slot>>)
    requires |funcs| == MQFUNC_SIZE
    ensures AllCalls(funcs, []) == []
  {
  }

  lemma NoCalls(funcs: seq<seq<Slot>>, es: seq<Entry>)
    requires |funcs| == MQFUNC_SIZE
    ensures |es| == 1 && es[0].msg.id == MSG_QUIT ==> AllCalls(funcs, es) == []
  {
    if |es| == 1 {
      assert es == [] + [es[0]];
      AllCallsOneMore(funcs, [], es[0]);
    }
  }

  class MessageQueue {
    var mq_: bool                      // the queue exists
    var thrdmsg_: bool                 // the message thread exists
    var queue: seq<Entry>
    const funcs_: array<seq<Slot>>

    ghost var sent: seq<Entry>         // since the queue was created
    ghost var received: seq<Entry>
    ghost var quit: bool
    ghost var calls: seq<Call>

    ghost predicate Valid()
      reads this
    {
      funcs_.Length == MQFUNC_SIZE && (mq_ ==> Kept(View())) && (!mq_ ==> queue == [] && !thrdmsg_)
    }

    ghost function View(): Box
      reads this
    {
      Box(queue, sent, received, quit)
    }

    constructor ()
      ensures Valid() && !mq_ && !thrdmsg_ && calls == [] && fresh(funcs_)
      ensures forall i | 0 <= i < MQFUNC_SIZE :: funcs_[i] == []
    {
      funcs_ := new seq<Slot>[MQFUNC_SIZE](i => []);
      mq_, thrdmsg_, queue := false, false, [];
      sent, received, quit, calls := [], [], false, [];
    }

    method RegisterMessage(id: int, slot: Slot) returns (rslt: bool)
      requires Valid()
      modifies funcs_
      ensures rslt <==> MSG_USER <= id < MSG_USER + MQFUNC_SIZE
      ensures forall i | 0 <= i < MQFUNC_SIZE ::
                funcs_[i] == if i == id - MSG_USER then old(funcs_[i]) + [slot] else old(funcs_[i])
    {
      var pos := id - MSG_USER;
      rslt := pos >= 0 && pos < MQFUNC_SIZE;
      if rslt {
        funcs_[pos] := funcs_[pos] + [slot];
      }
    }

    method Put(e: Entry)
      requires Valid() && mq_
      modifies this`queue, this`sent
      ensures Valid() && View() == Step(old(View()), Arrive(e))
    {
      StepKeeps(View(), Arrive(e));
      queue, sent := Insert(queue, e), sent + [e];
    }

    method PostMessage(id: int, p1: int, p2: int)
      requires Valid()
      modifies this`queue, this`sent
      ensures Valid()
      ensures View() == if mq_ then Step(old(View()), Arrive(Entry(MsgUnit(id, p1, p2), POST))) else old(View())
    {
      if mq_ {
        Put(Entry(MsgUnit(id, p1, p2), POST));
      }
    }

    method SendMessage(id: int, p1: int, p2: int)
      requires Valid()
      modifies this`queue, this`sent
      ensures Valid()
      ensures View() == if mq_ then Step(old(View()), Arrive(Entry(MsgUnit(id, p1, p2), SEND))) else old(View())
    {
      if mq_ {
        Put(Entry(MsgUnit(id, p1, p2), SEND));
      }
    }

    // created tells whether the system could create the queue.
    method Start(created: bool) returns (ok: bool)
      requires Valid()
      modifies this`mq_, this`thrdmsg_, this`queue, this`sent, this`received, this`quit
      ensures Valid() && ok == (old(thrdmsg_) || created)
      ensures thrdmsg_ == ok
      ensures old(thrdmsg_) || !created ==> View() == old(View()) && mq_ == old(mq_)
      ensures !old(thrdmsg_) && created ==> mq_ && View() == Box([], [], [], false)
    {
      if thrdmsg_ {
        return true;
      }
      if created {
        mq_, thrdmsg_, queue := true, true, [];
        sent, received, quit := [], [], false;
      }
      return created;
    }

    // The loop of the message thread, with everything that arrives meanwhile.
    method ThreadMessage(ops: seq<Op>)
      requires Valid() && thrdmsg_ && !quit
      modifies this`queue, this`sent, this`received, this`quit, this`calls
      ensures Valid() && View() == Run(old(View()), ops)
      ensures old(received) <= received
      ensures calls == old(calls) + AllCalls(funcs_[..], received[|old(received)|..])
    {
      hide Kept, Lane, Sorted, Insert, CallsOf, AllCalls;
      NoCallsAtFirst(funcs_[..]);
      var i, done := 0, false;
      ghost var b, taken: seq<Entry> := View(), [];
      assert ops[0..] == ops;
      while i < |ops|
        invariant 0 <= i <= |ops| && Valid() && done == quit
        invariant Run(View(), ops[i..]) == Run(b, ops)
        invariant received == old(received) + taken
        invariant calls == old(calls) + AllCalls(funcs_[..], taken)
        decreases |ops| - i
      {
        RunFrom(View(), ops, i);
        hide Run;
        if ops[i].Arrive? {
          Put(ops[i].e);
        } else if !done && queue != [] {
          AllCallsOneMore(funcs_[..], taken, queue[0]);
          taken := taken + [queue[0]];
          done := Receive();
        }
        i := i + 1;
      }
    }

    // One round of the loop.
    method Receive() returns (done: bool)
      requires Valid() && thrdmsg_ && !quit && queue != []
      modifies this`queue, this`received, this`quit, this`calls
      ensures Valid() && View() == Step(old(View()), Turn) && done == quit
      ensures calls == old(calls) + CallsOf(funcs_[..], old(queue)[0].msg)
    {
      StepKeeps(View(), Turn);
      var msg := queue[0].msg;
      received, quit := received + [queue[0]], msg.id == MSG_QUIT;
      queue := queue[1..];
      var pos := msg.id - MSG_USER;
      if pos >= 0 && pos < MQFUNC_SIZE {
        calls := calls + CallsOf(funcs_[..], msg);
      }
      done := msg.id == MSG_QUIT;
    }

    // ops is what happens until the message thread has ended.
    method Stop(ops: seq<Op>)
      requires Valid() && !quit
      requires thrdmsg_ ==> Run(Step(View(), Arrive(Entry(MsgUnit(MSG_QUIT, 0, 0), SEND))), ops).quit
      modifies this
      ensures Valid() && !mq_ && !thrdmsg_ && queue == []
      ensures old(thrdmsg_) ==>
                received == Run(Step(old(View()), Arrive(Entry(MsgUnit(MSG_QUIT, 0, 0), SEND))), ops).received
      ensures old(thrdmsg_) && OnlyBelow(old(queue), SEND) && OnlyKnown(ops) ==>
                received == old(received) + [Entry(MsgUnit(MSG_QUIT, 0, 0), SEND)] && calls == old(calls)
      ensures !old(thrdmsg_) ==> calls == old(calls)
    {
      if thrdmsg_ {
        ghost var b := View();
        if OnlyBelow(queue, SEND) && OnlyKnown(ops) {
          StopOvertakes(b, 0, 0, ops);
        }
        hide Kept, Run, AllCalls;
        SendMessage(MSG_QUIT, 0, 0);
        ThreadMessage(ops);
        NoCalls(funcs_[..], received[|b.received|..]);
        thrdmsg_ := false;
      }
      if mq_ {
        mq_, queue := false, [];
      }
    }
  }
}
