// Progress when on_receive_complete is not interrupted by a read of its own connection.
module TransferAtomic {
  import opened Options
  import opened FileStore
  import opened R = Receiver
  import opened Transfer
  import opened TransferInv
  import opened TransferSteps
  import opened TransferRuns
  import opened TransferSafety
  import opened TransferProgress
  import P = Protocol

  // The message thread is inside on_receive_complete, past NewFile.
  predicate Concluding(r: Receiver) {
    r.pc.Resetting? || ((r.pc.Notify? || r.pc.Replying?) && r.pc.status != READY)
  }

  // Between the store of a file and the last line of its handler, no read of connection c completes.
  predicate Uninterrupted(ls: seq<Label>, c: nat) {
    forall i, j | 0 <= i < j < |ls| && ls[i] == Store(c) && ls[j].Deliver? && ls[j].c == c ::
      exists k :: i < k < j && ls[k] == Finish(c)
  }

  // Step i stores a file of connection c, and its handler does not finish before step n.
  predicate StoredAt(ls: seq<Label>, c: nat, i: nat, n: nat) {
    i < n <= |ls| && ls[i] == Store(c) && forall k | i < k < n :: ls[k] != Finish(c)
  }

  lemma StoredPrefix(ls: seq<Label>, c: nat, i: nat, n: nat)
    requires n <= |ls| && StoredAt(ls[..n], c, i, n)
    ensures StoredAt(ls, c, i, n)
  {
    assert forall k | i < k < n :: ls[k] == ls[..n][k];
  }

  lemma ParseConcludes(s: Sys, c: nat, junk: string)
    requires c < |s.conns| && PtrOk(s, s.conns[c].rcv) && s.conns[c].rcv.pc == Handling(MSG_NETWORK_RECEIVE)
    ensures var t := ParseStep(s, c, junk); |t.conns| == |s.conns| && !Concluding(t.conns[c].rcv)
  {
    hide P.Resolve, LineText;
  }

  lemma ConcludingStep(plans: seq<seq<File>>, s: Sys, l: Label, c: nat)
    requires CanStep(plans, s, l) && c < |s.conns| == |Step(plans, s, l).conns|
    ensures Concluding(Step(plans, s, l).conns[c].rcv) ==>
            l == Store(c) || (Concluding(s.conns[c].rcv) && l != Finish(c))
  {
    if !OfConn(l) || l.c != c {
      StepFrame(plans, s, l, c);
      hide Step, CanStep;
    } else if l.Parse? {
      ParseConcludes(s, c, l.junk);
      hide ParseStep;
    } else if l.Announce? || l.SendBytes? || l.GetReply? || l.Deliver? {
      hide Concluding;
      OutsideKeepsPc(plans, s, l, c);
      PcDecides(s.conns[c].rcv, Step(plans, s, l).conns[c].rcv);
    } else {
      ThreadConcludes(plans, s, l, c);
    }
  }

  lemma PcDecides(r: Receiver, r': Receiver)
    ensures r.pc == r'.pc ==> Concluding(r) == Concluding(r')
  {
  }

  lemma OutsideKeepsPc(plans: seq<seq<File>>, s: Sys, l: Label, c: nat)
    requires CanStep(plans, s, l) && c < |s.conns| == |Step(plans, s, l).conns|
    requires (l.Announce? || l.SendBytes? || l.GetReply? || l.Deliver?) && l.c == c
    ensures Step(plans, s, l).conns[c].rcv.pc == s.conns[c].rcv.pc
  {
    hide Arrived, P.InfoLine, StatusOf, ParseStep;
  }

  lemma ThreadConcludes(plans: seq<seq<File>>, s: Sys, l: Label, c: nat)
    requires CanStep(plans, s, l) && c < |s.conns| == |Step(plans, s, l).conns|
    requires (l.Hangup? || l.TakeMsg? || l.Store? || l.Notify1? || l.Notify2? || l.Finish?) && l.c == c
    ensures Concluding(Step(plans, s, l).conns[c].rcv) ==>
            l == Store(c) || (Concluding(s.conns[c].rcv) && l != Finish(c))
  {
    hide StatusLine, ParseStep, DeliverStep, StoreStep;
  }

  lemma CompleteConcludes(files: seq<File>, k: Conn, cells: seq<Cell>, queue: seq<nat>, w: Writer)
    requires Stage(files, k, cells, queue, w) && k.rcv.state == COMPLETE
    ensures Concluding(k.rcv)
  {
    hide P.InfoLine, Core, StatusLine, Loaded;
  }

  lemma {:induction false} ConcludingSince(plans: seq<seq<File>>, ls: seq<Label>, c: nat) returns (i: nat)
    requires IsRun(plans, ls) && c < |plans| == |After(plans, ls).conns|
    requires Concluding(After(plans, ls).conns[c].rcv)
    ensures StoredAt(ls, c, i, |ls|)
    decreases |ls|
  {
    hide AllConform, CanStep, Step, Concluding;
    if ls == [] {
      NothingConcludes(plans, c);
      assert false;
    } else {
      var n := |ls| - 1;
      var front := ls[..n];
      RunPrefix(plans, ls, n);
      assert ls == front + [ls[n]];
      RunAppend(plans, Init(|plans|), front, ls[n]);
      var s := After(plans, front);
      StepLength(plans, s, ls[n]);
      ConcludingStep(plans, s, ls[n], c);
      if ls[n] == Store(c) {
        i := n;
      } else {
        i := ConcludingSince(plans, front, c);
        assert forall k | i < k < n :: ls[k] == front[k];
      }
    }
  }

  lemma NothingConcludes(plans: seq<seq<File>>, c: nat)
    requires c < |plans|
    ensures !Concluding(Init(|plans|).conns[c].rcv)
  {
  }

  lemma NeverDrops(plans: seq<seq<File>>, ls: seq<Label>, c: nat, j: nat)
    requires IsRun(plans, ls) && c < |plans| && Uninterrupted(ls, c) && j < |ls|
    ensures !DropsAt(plans, ls, c, j)
  {
    RunPrefix(plans, ls, j);
    if DropsAt(plans, ls, c, j) {
      var s := After(plans, ls[..j]);
      assert Drops(s, ls[j], c);
      hide IsRun, DropsAt;
      PrefixStage(plans, ls, c, j);
      CompleteConcludes(plans[c], s.conns[c], s.cells, s.queue, s.writer);
      var i := ConcludingSince(plans, ls[..j], c);
      StoredPrefix(ls, c, i, j);
      assert false;
    }
  }

  lemma PrefixStage(plans: seq<seq<File>>, ls: seq<Label>, c: nat, j: nat)
    requires IsRun(plans, ls) && c < |plans| && j <= |ls|
    ensures IsRun(plans, ls[..j])
    ensures var s := After(plans, ls[..j]);
            |s.conns| == |plans| && Stage(plans[c], s.conns[c], s.cells, s.queue, s.writer)
  {
    RunPrefix(plans, ls, j);
    RunInv(plans, ls[..j]);
    StillInv(plans, After(plans, ls[..j]));
    Part(plans, After(plans, ls[..j]), c);
    hide Inv, Stage;
  }

  // If no read of a connection completes while on_receive_complete runs for it, its handshake
  // always advances while its client waits.
  lemma UninterruptedProgress(plans: seq<seq<File>>, ls: seq<Label>, c: nat)
    requires IsRun(plans, ls) && c < |plans| == |After(plans, ls).conns| && Uninterrupted(ls, c)
    requires var k := After(plans, ls).conns[c]; k.rcv.armed && !k.phase.Resting?
    ensures exists l :: Works(l, c) && CanStep(plans, After(plans, ls), l)
  {
    hide IsRun, CanStep, Works, DropsAt, Uninterrupted;
    HandshakeProgress(plans, ls, c);
    forall i | 0 <= i < |ls|
      ensures !DropsAt(plans, ls, c, i)
    {
      NeverDrops(plans, ls, c, i);
    }
  }
}
