// The receiving side of one connection, cut into the atomic steps that the network thread
// and the message thread take, without any assumption on what the client sends.
module Receiver {
  import opened Options
  import opened Network

  const WAITING := 0
  const READY := 1
  const COMPLETE := 2
  const FAILURE := 3

  const MSG_NETWORK_RECEIVE := 128
  const MSG_NETWORK_CLOSE := 129
  const MSG_RECEIVE_COMPLETE := 130

  // Where the message thread stands.
  datatype Pc =
    | Idle                      // before the next receive from the queue
    | Handling(msg: int)        // inside the handler of msg
    | Notify(status: int)       // inside notify_status, state_ not yet set
    | Replying(status: int)     // inside notify_status, reply not yet written
    | Resetting                 // before the last line of on_receive_complete

  datatype Receiver = Receiver(
    state: int,
    fileptr: Option<nat>,
    tcp: bool,                  // tcpptr_ is not null
    open: bool,                 // the socket is open
    armed: bool,                // an asynchronous read is outstanding, or its callback is running
    rx: string,                 // bytes of the last completed read
    mq: seq<int>,               // posted messages not yet taken
    posted: seq<int>,           // every message ever posted
    pc: Pc)

  const START := Receiver(WAITING, None, true, true, true, "", [], [], Idle)

  // What on_network_receive makes of a line.
  datatype Outcome = Bad | Ignored | Adopted(ptr: nat)

  datatype Event =
    | Arrive(chunk: string, full: bool)   // a read completes; full is the answer of DataArrive
    | Fail                                // a read completes with an error
    | Quiet                               // no further read is started on a closed socket
    | Take                                // the message thread takes the next message
    | Parsed(outcome: Outcome)
    | Stored(ok: bool)
    | SetState
    | Reply
    | Reset

  function Post(r: Receiver, msg: int): Receiver {
    r.(mq := r.mq + [msg], posted := r.posted + [msg])
  }

  predicate Enabled(r: Receiver, e: Event) {
    match e
    case Arrive(chunk, _) => r.armed && 1 <= |chunk| <= TCP_PACK_SIZE   // also with bytes read before a close
    case Fail => r.armed
    case Quiet => r.armed && !r.open
    case Take => r.pc == Idle && r.mq != []
    case Parsed(_) => r.pc == Handling(MSG_NETWORK_RECEIVE)
    case Stored(_) => r.pc == Handling(MSG_RECEIVE_COMPLETE)
    case SetState => r.pc.Notify?
    case Reply => r.pc.Replying?
    case Reset => r.pc.Resetting?
  }

  function Next(r: Receiver, e: Event): Receiver
    requires Enabled(r, e)
  {
    match e
    case Arrive(chunk, full) =>
      var q := r.(rx := chunk);
      if r.state == READY then (if full then Post(q, MSG_RECEIVE_COMPLETE) else q)
      else if r.state == WAITING then Post(q, MSG_NETWORK_RECEIVE)
      else q
    case Fail => Post(r, MSG_NETWORK_CLOSE).(armed := false)
    case Quiet => r.(armed := false)
    case Take =>
      var q := r.(mq := r.mq[1..]);
      if r.mq[0] == MSG_NETWORK_CLOSE then q.(tcp := false) else q.(pc := Handling(r.mq[0]))
    case Parsed(o) =>
      (match o
       case Bad => r.(open := false, pc := Idle)
       case Ignored => r.(pc := Idle)
       case Adopted(p) => r.(fileptr := Some(p), pc := Notify(READY)))
    case Stored(ok) => r.(pc := Notify(if ok then COMPLETE else FAILURE))
    case SetState => r.(state := r.pc.status, pc := Replying(r.pc.status))
    case Reply => r.(pc := if r.pc.status == READY then Idle else Resetting)
    case Reset => r.(state := WAITING, pc := Idle)
  }

  predicate AllEnabled(r: Receiver, es: seq<Event>)
    decreases |es|
  {
    es == [] || (Enabled(r, es[0]) && AllEnabled(Next(r, es[0]), es[1..]))
  }

  function Exec(r: Receiver, es: seq<Event>): Receiver
    requires AllEnabled(r, es)
    decreases |es|
  {
    if es == [] then r else Exec(Next(r, es[0]), es[1..])
  }

  predicate OnlyLast(s: seq<int>, m: int) {
    forall i | 0 <= i < |s| - 1 :: s[i] != m
  }

  // The handlers use tcpptr_ at these points.
  predicate UsesTcp(pc: Pc) {
    !pc.Idle? && !pc.Resetting?
  }

  predicate CloseOk(r: Receiver) {
    && OnlyLast(r.posted, MSG_NETWORK_CLOSE)
    && OnlyLast(r.mq, MSG_NETWORK_CLOSE)
    && (r.armed ==> r.tcp && MSG_NETWORK_CLOSE !in r.posted && MSG_NETWORK_CLOSE !in r.mq)
    && (!r.tcp ==> r.mq == [] && r.pc == Idle)
    && (forall m | m in r.mq :: m == MSG_NETWORK_RECEIVE || m == MSG_NETWORK_CLOSE || m == MSG_RECEIVE_COMPLETE)
  }

  lemma LastAdded(s: seq<int>, m: int, x: int)
    requires m !in s
    ensures OnlyLast(s + [x], m) && (x != m ==> m !in s + [x])
  {
  }

  lemma FirstTaken(s: seq<int>, m: int)
    requires s != [] && OnlyLast(s, m)
    ensures OnlyLast(s[1..], m) && (s[0] == m ==> s[1..] == []) && (m !in s ==> m !in s[1..])
    ensures forall x | x in s[1..] :: x in s
  {
    assert forall i | 0 <= i < |s[1..]| - 1 :: s[1..][i] == s[i + 1];
  }

  lemma CloseStep(r: Receiver, e: Event)
    requires CloseOk(r) && Enabled(r, e)
    ensures CloseOk(Next(r, e))
  {
    match e {
      case Arrive(_, _) =>
        LastAdded(r.posted, MSG_NETWORK_CLOSE, MSG_RECEIVE_COMPLETE);
        LastAdded(r.mq, MSG_NETWORK_CLOSE, MSG_RECEIVE_COMPLETE);
        LastAdded(r.posted, MSG_NETWORK_CLOSE, MSG_NETWORK_RECEIVE);
        LastAdded(r.mq, MSG_NETWORK_CLOSE, MSG_NETWORK_RECEIVE);
      case Fail =>
        LastAdded(r.posted, MSG_NETWORK_CLOSE, MSG_NETWORK_CLOSE);
        LastAdded(r.mq, MSG_NETWORK_CLOSE, MSG_NETWORK_CLOSE);
      case Take =>
        FirstTaken(r.mq, MSG_NETWORK_CLOSE);
      case _ =>
    }
    hide OnlyLast;
  }

  lemma {:induction false} CloseRun(r: Receiver, es: seq<Event>)
    requires CloseOk(r) && AllEnabled(r, es)
    ensures CloseOk(Exec(r, es))
    decreases |es|
  {
    if es != [] {
      CloseStep(r, es[0]);
      CloseRun(Next(r, es[0]), es[1..]);
    }
  }

  // For any behaviour of the client: the close message is posted at most once and nothing is
  // posted after it, and tcpptr_ is not null whenever a handler or the network thread uses it.
  lemma CloseComesLast(es: seq<Event>)
    requires AllEnabled(START, es)
    ensures var r := Exec(START, es);
            (forall i | 0 <= i < |r.posted| - 1 :: r.posted[i] != MSG_NETWORK_CLOSE)
            && (r.armed || UsesTcp(r.pc) ==> r.tcp)
  {
    CloseRun(START, es);
  }
}
