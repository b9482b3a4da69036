// The writer's steps, and what holds after every run.
module TransferRuns {
  import opened Options
  import opened FileStore
  import opened R = Receiver
  import opened Transfer
  import opened TransferInv
  import opened TransferSteps
  import opened TransferShared
  import P = Protocol

  // ---- the writer ----

  lemma WriterConns(plans: seq<seq<File>>, s: Sys, t: Sys)
    requires Inv(plans, s) && t.conns == s.conns && t.cells == s.cells && t.accepted == s.accepted
    requires forall p | p in t.queue :: p in s.queue
    requires forall p: nat | Holds(t.writer, p) :: p in s.queue || Holds(s.writer, p)
    ensures ConnsOk(plans, t)
  {
    forall d | 0 <= d < |plans|
      ensures ConnOk(plans, t, d)
    {
      assert ConnOk(plans, s, d);
      hide Stage, Discipline, Mine, Queued;
      StageFrame(plans[d], s.conns[d], s.cells, s.queue, s.writer, t.cells, t.queue, t.writer);
    }
  }

  lemma WriterRefs(s: Sys, l: Label)
    requires RefsOk(s) && QueueOk(s.cells, s.queue, s.writer) && WriterEnabled(s, l)
    ensures RefsOk(WriterStep(s, l))
  {
    var t := WriterStep(s, l);
    if l.SavePop? {
      assert s.queue == [s.queue[0]] + s.queue[1..];
      assert multiset(s.queue) == multiset{s.queue[0]} + multiset(s.queue[1..]);
    }
    forall i | 0 <= i < |t.cells|
      ensures t.refs[i] == UseCount(t, i)
    {
      hide Holders;
      assert s.refs[i] == UseCount(s, i);
    }
  }

  lemma WriteLog(plans: seq<seq<File>>, s: Sys, t: Sys, k: nat, root: string)
    requires LogOk(plans, s) && QueueOk(s.cells, s.queue, s.writer) && WriterEnabled(s, SaveWrite(k, root))
    requires t == WriterStep(s, SaveWrite(k, root))
    ensures LogOk(plans, t)
  {
    hide Complete, FileOf, Valid, NoDup, QueueLog;
  }

  lemma PopLog(plans: seq<seq<File>>, s: Sys, t: Sys)
    requires LogOk(plans, s) && s.writer.Written? && s.queue != []
    requires t.cells == s.cells && t.written == s.written && t.accepted == s.accepted
    requires t.queue == s.queue[1..] && !t.writer.Written?
    ensures LogOk(plans, t)
  {
    hide Complete, FileOf, Valid, DiskLog;
    assert t.accepted[|t.accepted| - |t.queue|..] == s.accepted[|s.accepted| - |s.queue|..][1..];
  }

  lemma WriterLog(plans: seq<seq<File>>, s: Sys, l: Label)
    requires LogOk(plans, s) && QueueOk(s.cells, s.queue, s.writer) && WriterEnabled(s, l)
    ensures LogOk(plans, WriterStep(s, l))
  {
    var t := WriterStep(s, l);
    if l.SaveWrite? {
      hide LogOk, QueueOk;
      WriteLog(plans, s, t, l.k, l.root);
    } else if l.SavePop? {
      hide LogOk;
      PopLog(plans, s, t);
    } else {
      hide DiskLog, QueueLog;
      assert Pending(t) == Pending(s);
    }
  }

  lemma WriterQueue(s: Sys, l: Label)
    requires QueueOk(s.cells, s.queue, s.writer) && WriterEnabled(s, l)
    ensures var t := WriterStep(s, l); QueueOk(t.cells, t.queue, t.writer)
  {
  }

  lemma WriterKeeps(plans: seq<seq<File>>, s: Sys, l: Label)
    requires Inv(plans, s) && WriterEnabled(s, l)
    ensures Inv(plans, WriterStep(s, l))
  {
    var t := WriterStep(s, l);
    hide RefsOk, LogOk, ConnsOk, PtrsOk;
    WriterRefs(s, l);
    WriterLog(plans, s, l);
    WriterQueue(s, l);
    WriterConns(plans, s, t);
  }

  // ---- every step, every run ----

  lemma ParseEnabled(plans: seq<seq<File>>, s: Sys, c: nat, junk: string)
    requires Inv(plans, s) && AllConform(plans) && c < |plans| && ConnEnabled(plans[c], s, Parse(c, junk), s.conns[c])
    ensures var k := s.conns[c];
            k.rcv.pc == Handling(MSG_NETWORK_RECEIVE) && k.cur < |plans[c]| && PtrOk(s, k.rcv)
            && var size := |plans[c][k.cur].bytes|;
            Reusable(s.cells, s.refs, k.rcv.fileptr, size) || |junk| == size
  {
    hide Inv, AllConform, P.Resolve, LineText, Row;
    ParsedLine(plans, s, c);
  }

  lemma StepKeeps(plans: seq<seq<File>>, s: Sys, l: Label)
    requires Inv(plans, s) && AllConform(plans) && CanStep(plans, s, l)
    ensures Inv(plans, Step(plans, s, l))
  {
    hide Inv, AllConform, WriterStep, DeliverStep, ParseStep, StoreStep, Announced, Sent, ReadReply, Replied, Local,
         With;
    match l {
      case Announce(c) => AnnounceKeeps(plans, s, c);
      case SendBytes(c, n) => SendBytesKeeps(plans, s, c, n);
      case GetReply(c) => GetReplyKeeps(plans, s, c);
      case Deliver(c, n) =>
        if s.conns[c].rcv.state == READY {
          DeliverData(plans, s, c, n);
        } else {
          DeliverLine(plans, s, c, n);
        }
      case Hangup(c) => HangupKeeps(plans, s, c);
      case TakeMsg(c) => TakeMsgKeeps(plans, s, c);
      case Parse(c, junk) =>
        ParseEnabled(plans, s, c, junk);
        ParseKeeps(plans, s, c, junk);
      case Store(c) => StoreKeeps(plans, s, c);
      case Notify1(c) => Notify1Keeps(plans, s, c);
      case Notify2(c) => Notify2Keeps(plans, s, c, Replied(s.conns[c]));
      case Finish(c) => FinishKeeps(plans, s, c);
      case _ => WriterKeeps(plans, s, l);
    }
  }

  lemma {:induction false} RunKeeps(plans: seq<seq<File>>, s: Sys, ls: seq<Label>)
    requires Inv(plans, s) && AllConform(plans) && CanRun(plans, s, ls)
    ensures Inv(plans, Run(plans, s, ls))
    decreases |ls|
  {
    if ls != [] {
      StepKeeps(plans, s, ls[0]);
      RunKeeps(plans, Step(plans, s, ls[0]), ls[1..]);
    }
  }

  // ---- taking runs apart and putting them together ----

  lemma StepLength(plans: seq<seq<File>>, s: Sys, l: Label)
    requires CanStep(plans, s, l)
    ensures |Step(plans, s, l).conns| == |s.conns|
  {
    hide P.Resolve, LineText, Arrived, Announced, Sent, ReadReply, Replied, Local;
  }

  lemma {:induction false} RunAppend(plans: seq<seq<File>>, s: Sys, ls: seq<Label>, l: Label)
    requires CanRun(plans, s, ls + [l])
    ensures CanRun(plans, s, ls) && CanStep(plans, Run(plans, s, ls), l)
    ensures Run(plans, s, ls + [l]) == Step(plans, Run(plans, s, ls), l)
    decreases |ls|
  {
    hide CanStep, Step;
    if ls == [] {
      assert [] + [l] == [l];
      assert [l][1..] == [];
    } else {
      assert (ls + [l])[0] == ls[0] && (ls + [l])[1..] == ls[1..] + [l];
      RunAppend(plans, Step(plans, s, ls[0]), ls[1..], l);
    }
  }

  lemma {:induction false} RunCat(plans: seq<seq<File>>, s: Sys, a: seq<Label>, b: seq<Label>)
    requires CanRun(plans, s, a) && CanRun(plans, Run(plans, s, a), b)
    ensures CanRun(plans, s, a + b) && Run(plans, s, a + b) == Run(plans, Run(plans, s, a), b)
    decreases |a|
  {
    hide CanStep, Step;
    if a == [] {
      assert a + b == b;
    } else {
      assert (a + b)[0] == a[0] && (a + b)[1..] == a[1..] + b;
      RunCat(plans, Step(plans, s, a[0]), a[1..], b);
    }
  }

  lemma {:induction false} RunSplit(plans: seq<seq<File>>, s: Sys, a: seq<Label>, b: seq<Label>)
    requires CanRun(plans, s, a + b)
    ensures CanRun(plans, s, a) && CanRun(plans, Run(plans, s, a), b)
    ensures Run(plans, s, a + b) == Run(plans, Run(plans, s, a), b)
    decreases |a|
  {
    hide CanStep, Step;
    if a == [] {
      assert a + b == b;
    } else {
      assert (a + b)[0] == a[0] && (a + b)[1..] == a[1..] + b;
      RunSplit(plans, Step(plans, s, a[0]), a[1..], b);
    }
  }
}
