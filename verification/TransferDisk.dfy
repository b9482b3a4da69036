// What each write writes.
module TransferDisk {
  import opened Options
  import opened FileStore
  import opened Transfer
  import opened TransferInv
  import opened TransferRuns
  import P = Protocol

  // How many bytes each write took, in order.
  function Cuts(ls: seq<Label>): seq<nat> {
    if ls == [] then []
    else
      var n := |ls| - 1;
      Cuts(ls[..n]) + CutOf(ls[n])
  }

  function CutOf(l: Label): seq<nat> {
    if l.SaveWrite? then [l.k] else []
  }

  // Each write wrote the file of the log, cut to the bytes it took.
  predicate CutLog(plans: seq<seq<File>>, written: seq<File>, log: seq<Ticket>, cuts: seq<nat>) {
    |cuts| == |written| <= |log|
    && forall j | 0 <= j < |written| :: Valid(plans, log[j]) && IsCut(written[j], FileOf(plans, log[j]), cuts[j])
  }

  predicate IsCut(d: File, f: File, k: nat) {
    k <= |f.bytes| && d == CutTo(f, k)
  }

  // The write takes fewer bytes than the buffer holds.
  predicate Short(s: Sys, l: Label) {
    l.SaveWrite? && s.writer.Opened? && s.writer.id < |s.cells| && l.k < |s.cells[s.writer.id].data|
  }

  predicate Whole(plans: seq<seq<File>>, written: seq<File>, log: seq<Ticket>) {
    |written| <= |log| && forall j | 0 <= j < |written| :: Valid(plans, log[j]) && written[j] == FileOf(plans, log[j])
  }

  // The object that is written is complete, and is the next file of the log.
  lemma WrittenNext(plans: seq<seq<File>>, s: Sys, k: nat, root: string)
    requires LogOk(plans, s) && QueueOk(s.cells, s.queue, s.writer) && WriterEnabled(s, SaveWrite(k, root))
    ensures var n := |s.written|;
            n < |s.accepted| && Valid(plans, s.accepted[n])
            && Complete(s.cells[s.writer.id], FileOf(plans, s.accepted[n]))
  {
    hide Complete, FileOf, Valid, NoDup, DiskLog;
    var n := |s.written|;
    assert n == |s.accepted| - |s.queue| && s.queue[0] == s.writer.id;
    assert s.accepted[n..][0] == s.accepted[n];
  }

  lemma CutOne(plans: seq<seq<File>>, written: seq<File>, log: seq<Ticket>, cuts: seq<nat>, c: Cell, k: nat)
    requires CutLog(plans, written, log, cuts) && |written| < |log| && Valid(plans, log[|written|])
    requires Complete(c, FileOf(plans, log[|written|])) && k <= |c.data|
    ensures CutLog(plans, written + [File(c.meta, c.data[..k])], log, cuts + [k])
    ensures Whole(plans, written + [File(c.meta, c.data[..k])], log) <==> Whole(plans, written, log) && k == |c.data|
  {
    var d := File(c.meta, c.data[..k]);
    var next := written + [d];
    assert IsCut(d, FileOf(plans, log[|written|]), k);
    assert c.data[..|c.data|] == c.data;
    hide FileOf, Valid, IsCut, Complete;
    if Whole(plans, next, log) {
      assert next[|written|] == d;
      forall j | 0 <= j < |written|
        ensures written[j] == FileOf(plans, log[j])
      {
        assert next[j] == written[j];
      }
    }
  }

  // Tickets are only added at the end of the log, and only SaveWrite adds a write.
  lemma LogGrows(plans: seq<seq<File>>, s: Sys, l: Label)
    requires CanStep(plans, s, l)
    ensures var t := Step(plans, s, l);
            s.accepted <= t.accepted && (!l.SaveWrite? ==> t.written == s.written)
  {
    hide P.Resolve, LineText, Arrived, Announced, Sent, ReadReply, Replied, Local;
  }

  lemma CutWaits(plans: seq<seq<File>>, written: seq<File>, log: seq<Ticket>, log': seq<Ticket>, cuts: seq<nat>)
    requires CutLog(plans, written, log, cuts) && log <= log'
    ensures CutLog(plans, written, log', cuts)
    ensures Whole(plans, written, log') <==> Whole(plans, written, log)
  {
    hide FileOf, Valid, IsCut;
    assert forall j | 0 <= j < |written| :: log'[j] == log[j];
  }

  lemma StepCuts(plans: seq<seq<File>>, s: Sys, l: Label, cuts: seq<nat>)
    requires Inv(plans, s) && CanStep(plans, s, l) && CutLog(plans, s.written, s.accepted, cuts)
    ensures var t := Step(plans, s, l);
            && CutLog(plans, t.written, t.accepted, cuts + CutOf(l))
            && (Whole(plans, t.written, t.accepted) <==> Whole(plans, s.written, s.accepted) && !Short(s, l))
  {
    if l.SaveWrite? {
      WrittenNext(plans, s, l.k, l.root);
      hide Inv, CutLog, Whole, Complete, FileOf, Valid;
      CutOne(plans, s.written, s.accepted, cuts, s.cells[s.writer.id], l.k);
    } else {
      LogGrows(plans, s, l);
      hide Inv, CutLog, Whole, Step, CanStep;
      assert cuts + [] == cuts;
      CutWaits(plans, s.written, s.accepted, Step(plans, s, l).accepted, cuts);
    }
  }
}
