// What writes can leave behind: any client's files can end up cut anywhere, or replaced by later ones.
module TransferCut {
  import opened Options
  import opened FileStore
  import opened R = Receiver
  import opened Transfer
  import opened TransferInv
  import opened TransferSteps
  import opened TransferRuns
  import opened TransferDisk
  import opened TransferSafety
  import opened TransferPaths
  import opened TransferProgress
  import opened TransferDeadlock
  import P = Protocol

  // ---- between two files ----

  // The writer runs and is idle, it has written just w, and every file handed over is from connection c.
  predicate OnlyFrom(s: Sys, c: nat, w: seq<File>) {
    && s.running && s.writer == Free && s.written == w && c < |s.conns|
    && |s.accepted| == |s.conns[c].fate|
    && forall i | 0 <= i < |s.accepted| :: s.accepted[i].conn == c && s.conns[c].fate[i]
  }

  // Client c has sent its first n files, w was written of them, and nothing is under way.
  predicate Between(s: Sys, c: nat, n: nat, w: seq<File>) {
    && OnlyFrom(s, c, w) && s.queue == [] && |w| == n
    && var k := s.conns[c];
    k.phase == Resting && k.cur == n && k.rcv.armed && k.rcv.pc == Idle && |k.stats| == 2 * n && |k.fate| == n
  }

  // The files, each cut to the given number of bytes.
  function CutAll(files: seq<File>, cuts: seq<nat>): seq<File>
    requires |cuts| <= |files|
  {
    seq(|cuts|, i requires 0 <= i < |cuts| => CutTo(files[i], cuts[i]))
  }

  // ---- the steps of one connection keep what the writer has ----

  lemma OnlyFromStore(plans: seq<seq<File>>, s: Sys, c: nat, w: seq<File>)
    requires c < |plans| == |s.conns| && CanStep(plans, s, Store(c)) && OnlyFrom(s, c, w)
    ensures OnlyFrom(Step(plans, s, Store(c)), c, w)
  {
  }

  lemma OnlyFromStep(plans: seq<seq<File>>, s: Sys, l: Label, c: nat, w: seq<File>)
    requires c < |plans| == |s.conns| && CanStep(plans, s, l) && OnlyFrom(s, c, w)
    requires Works(l, c) || l == Announce(c)
    ensures OnlyFrom(Step(plans, s, l), c, w)
  {
    if l.Store? {
      hide Step, CanStep, OnlyFrom;
      OnlyFromStore(plans, s, c, w);
    } else {
      hide OnlyFrom;
      OtherStep(plans, s, l, c);
      OnlyFromFrame(s, Step(plans, s, l), c, w);
    }
  }

  lemma OnlyFromFrame(s: Sys, t: Sys, c: nat, w: seq<File>)
    requires OnlyFrom(s, c, w) && c < |t.conns| && t.conns[c].fate == s.conns[c].fate
    requires t.running == s.running && t.writer == s.writer && t.written == s.written && t.accepted == s.accepted
    ensures OnlyFrom(t, c, w)
  {
  }

  lemma OtherStep(plans: seq<seq<File>>, s: Sys, l: Label, c: nat)
    requires c < |plans| == |s.conns| && CanStep(plans, s, l) && !l.Store? && (Works(l, c) || l == Announce(c))
    ensures var t := Step(plans, s, l);
            && c < |t.conns| && t.conns[c].fate == s.conns[c].fate && t.running == s.running && t.writer == s.writer
            && t.written == s.written && t.accepted == s.accepted
  {
    hide P.Resolve, P.InfoLine, LineText, StatusOf, StatusLine, Arrived, StoreStep, WriterStep;
  }

  lemma {:induction false} OnlyFromRun(plans: seq<seq<File>>, s: Sys, ls: seq<Label>, c: nat, w: seq<File>)
    requires c < |plans| == |s.conns| && CanRun(plans, s, ls) && OnlyFrom(s, c, w)
    requires forall l | l in ls :: Works(l, c)
    ensures OnlyFrom(Run(plans, s, ls), c, w)
    decreases |ls|
  {
    hide CanStep, Step, OnlyFrom, Works;
    if ls != [] {
      assert ls[0] in ls && forall l | l in ls[1..] :: l in ls;
      StepLength(plans, s, ls[0]);
      OnlyFromStep(plans, s, ls[0], c, w);
      OnlyFromRun(plans, Step(plans, s, ls[0]), ls[1..], c, w);
    }
  }

  lemma {:induction false} WorksDoNotWrite(ls: seq<Label>, c: nat)
    requires forall l | l in ls :: Works(l, c)
    ensures Cuts(ls) == [] && Roots(ls) == []
  {
    if ls != [] {
      var n := |ls| - 1;
      assert ls[n] in ls && forall l | l in ls[..n] :: l in ls;
      WorksDoNotWrite(ls[..n], c);
    }
  }

  // ---- a file is handed over ----

  lemma {:induction false} AllMine(log: seq<Ticket>, c: nat)
    requires forall i | 0 <= i < |log| :: log[i].conn == c
    ensures |Mine(log, c)| == |log| && forall i | 0 <= i < |log| :: Mine(log, c)[i] == log[i].file
  {
    if log != [] {
      AllMine(log[..|log| - 1], c);
    }
  }

  lemma {:induction false} AllQueued(fate: seq<bool>)
    requires forall i | 0 <= i < |fate| :: fate[i]
    ensures |Queued(fate)| == |fate| && forall i | 0 <= i < |fate| :: Queued(fate)[i] == i
  {
    if fate != [] {
      AllQueued(fate[..|fate| - 1]);
    }
  }

  lemma MineIs(plans: seq<seq<File>>, s: Sys, c: nat)
    requires c < |plans| == |s.conns| && Inv(plans, s)
    ensures Mine(s.accepted, c) == Queued(s.conns[c].fate)
  {
    assert ConnOk(plans, s, c);
    hide Mine, Queued, Stage, Discipline, SharedOk;
  }

  lemma TicketsAre(log: seq<Ticket>, fate: seq<bool>, c: nat)
    requires |log| == |fate| && Mine(log, c) == Queued(fate)
    requires forall i | 0 <= i < |log| :: log[i].conn == c && fate[i]
    ensures forall i | 0 <= i < |log| :: log[i] == Ticket(c, i)
  {
    AllMine(log, c);
    AllQueued(fate);
    hide Mine, Queued;
    forall i | 0 <= i < |log|
      ensures log[i].file == i
    {
      assert Mine(log, c)[i] == log[i].file && Queued(fate)[i] == i;
    }
  }

  // The log after the files of one client: its first files, in order.
  lemma OnlyFromLog(plans: seq<seq<File>>, s: Sys, c: nat, w: seq<File>)
    requires c < |plans| == |s.conns| && OnlyFrom(s, c, w)
    requires Inv(plans, s)
    ensures |s.accepted| == |s.conns[c].fate| && forall i | 0 <= i < |s.accepted| :: s.accepted[i] == Ticket(c, i)
  {
    hide Inv, Mine, Queued;
    MineIs(plans, s, c);
    TicketsAre(s.accepted, s.conns[c].fate, c);
  }

  lemma OneQueued(plans: seq<seq<File>>, s: Sys)
    requires LogOk(plans, s) && s.writer == Free && |s.accepted| == |s.written| + 1
    ensures |s.queue| == 1 && s.queue[0] < |s.cells|
    ensures var t := s.accepted[|s.written|]; Valid(plans, t) && Complete(s.cells[s.queue[0]], FileOf(plans, t))
  {
    hide Complete, FileOf, Valid, DiskLog;
    assert s.accepted[|s.written|..][0] == s.accepted[|s.written|];
  }

  lemma RefsLengths(s: Sys)
    requires RefsOk(s)
    ensures |s.refs| == |s.cells|
  {
  }

  lemma WindowIs(plans: seq<seq<File>>, s: Sys, c: nat)
    requires c < |plans| == |s.conns| && InWindow(s.conns[c]) && s.conns[c].rcv.armed
    requires Inv(plans, s)
    ensures var k := s.conns[c];
            && |k.fate| == k.cur + 1 && |k.stats| == 2 * k.cur + 2 && k.rcv.mq == []
            && k.replies == [StatusLine(COMPLETE)] && k.wire == ""
  {
    hide Inv, Stage, Discipline, Core, StatusLine;
    Part(plans, s, c);
    WindowMeans(plans[c], s.conns[c], s.cells, s.queue, s.writer);
    EmptyCore(s.conns[c].rcv);
  }

  // When file n of client c was handed over, it is the only one in the queue, complete.
  lemma QueuedNext(plans: seq<seq<File>>, s: Sys, c: nat, w: seq<File>)
    requires c < |plans| == |s.conns| && OnlyFrom(s, c, w) && |s.conns[c].fate| == |w| + 1
    requires Inv(plans, s)
    ensures |s.queue| == 1 && s.queue[0] < |s.cells| == |s.refs| && |w| < |plans[c]|
    ensures Complete(s.cells[s.queue[0]], plans[c][|w|])
  {
    OnlyFromLog(plans, s, c, w);
    LogOfInv(plans, s);
    RefsOf(plans, s);
    RefsLengths(s);
    hide Inv, Complete, RefsOk, LogOk;
    OneQueued(plans, s);
  }

  // ---- the writer saves it ----

  function SaveAll(k: nat, root: string): seq<Label> {
    [SaveOpen, SaveWrite(k, root)] + [SavePop, SaveReturn]
  }

  lemma SaveBegins(plans: seq<seq<File>>, s: Sys, f: File, k: nat, root: string)
    requires s.running && s.writer == Free && |s.queue| == 1 && s.queue[0] < |s.cells| == |s.refs|
    requires Complete(s.cells[s.queue[0]], f) && k <= |f.bytes| && NamesFile(f.meta)
    ensures CanRun(plans, s, [SaveOpen, SaveWrite(k, root)])
    ensures var t := Run(plans, s, [SaveOpen, SaveWrite(k, root)]);
            && t == s.(writer := Written(s.queue[0]), written := t.written, refs := t.refs)
            && t.written == s.written + [CutTo(f, k)] && |t.refs| == |s.refs|
  {
    var s1 := WriterStep(s, SaveOpen);
    assert f.bytes[..|f.bytes|] == f.bytes;
    hide CanRun, Run;
    RunTwo(plans, s, SaveOpen, s1, SaveWrite(k, root), WriterStep(s1, SaveWrite(k, root)));
  }

  lemma SaveEnds(plans: seq<seq<File>>, s: Sys)
    requires |s.queue| == 1 && s.writer == Written(s.queue[0]) && s.queue[0] < |s.refs|
    ensures CanRun(plans, s, [SavePop, SaveReturn])
    ensures var t := Run(plans, s, [SavePop, SaveReturn]); t == s.(writer := Free, queue := [], refs := t.refs)
  {
    var s1 := WriterStep(s, SavePop);
    hide CanRun, Run;
    RunTwo(plans, s, SavePop, s1, SaveReturn, WriterStep(s1, SaveReturn));
  }

  lemma Save(plans: seq<seq<File>>, s: Sys, f: File, k: nat, root: string)
    requires s.running && s.writer == Free && |s.queue| == 1 && s.queue[0] < |s.cells| == |s.refs|
    requires Complete(s.cells[s.queue[0]], f) && k <= |f.bytes| && NamesFile(f.meta)
    ensures CanRun(plans, s, SaveAll(k, root))
    ensures var t := Run(plans, s, SaveAll(k, root));
            && t.written == s.written + [CutTo(f, k)] && t.queue == [] && t.writer == Free && t.running
            && t.conns == s.conns && t.accepted == s.accepted
  {
    hide CanRun, Run, CutTo, Complete;
    SaveBegins(plans, s, f, k, root);
    SaveEnds(plans, Run(plans, s, [SaveOpen, SaveWrite(k, root)]));
    RunCat(plans, s, [SaveOpen, SaveWrite(k, root)], [SavePop, SaveReturn]);
  }

  // ---- the handshake ends ----

  lemma SettledConn(k: Conn)
    requires InWindow(k) && k.replies == [StatusLine(COMPLETE)] && k.wire == "" && |k.stats| == 2 * k.cur + 2
    ensures var k1 := Local(k, Reset);
            && k1.replies != [] && var k2 := ReadReply(k1);
            && k2.phase == Resting && k2.cur == k.cur + 1 && k2.rcv.armed == k.rcv.armed && k2.rcv.pc == Idle
            && |k2.stats| == 2 * k2.cur && k2.fate == k.fate
  {
    hide StatusLine, ReadReply;
    TrapReply(Local(k, Reset));
  }

  lemma Settle(plans: seq<seq<File>>, s: Sys, c: nat)
    requires c < |plans| == |s.conns| && InWindow(s.conns[c]) && s.conns[c].rcv.armed
    requires var k := s.conns[c]; k.replies == [StatusLine(COMPLETE)] && k.wire == "" && |k.stats| == 2 * k.cur + 2
    ensures var ls := [Finish(c), GetReply(c)];
            CanRun(plans, s, ls) && var t := Run(plans, s, ls);
            && t == s.(conns := t.conns) && |t.conns| == |s.conns| && var k, k1 := s.conns[c], t.conns[c];
            && k1.phase == Resting && k1.cur == k.cur + 1 && k1.rcv.armed && k1.rcv.pc == Idle
            && |k1.stats| == 2 * k1.cur && k1.fate == k.fate
  {
    var k1 := Local(s.conns[c], Reset);
    var k2 := ReadReply(k1);
    SettledConn(s.conns[c]);
    StepFinish(plans, s, c);
    hide CanRun, Run, StatusLine, ReadReply, Local, CanStep, Step, With;
    var s1 := With(s, c, k1);
    WithMeans(s, c, k1);
    StepGetReply(plans, s1, c);
    var s2 := With(s1, c, k2);
    WithMeans(s1, c, k2);
    RunTwo(plans, s, Finish(c), s1, GetReply(c), s2);
  }

  lemma WithMeans(s: Sys, c: nat, k: Conn)
    requires c < |s.conns|
    ensures var t := With(s, c, k); t == s.(conns := t.conns) && |t.conns| == |s.conns| && t.conns[c] == k
  {
  }

  // ---- one more file ----

  lemma Announces(plans: seq<seq<File>>, s: Sys, c: nat, n: nat, w: seq<File>)
    requires c < |plans| == |s.conns| && Between(s, c, n, w) && n < |plans[c]|
    requires AllConform(plans)
    ensures CanStep(plans, s, Announce(c))
    ensures var t := Step(plans, s, Announce(c));
            && |t.conns| == |plans| && OnlyFrom(t, c, w) && t.conns[c].cur == n && t.conns[c].rcv.armed
            && BeforeDone(t.conns[c]) && !Lost(t.conns[c])
  {
    ConformingFiles(plans, c);
    LineIsShort(plans[c][n]);
    StepAnnounce(plans, s, c);
    assert |Announced(plans[c], s.conns[c]).wire| > 0;
    hide AllConform, Conforming, P.InfoLine, CanStep, Step, Core;
    OnlyFromFrame(s, With(s, c, Announced(plans[c], s.conns[c])), c, w);
  }

  // The next file is sent, handed over and saved, cut to k bytes.
  lemma OneMore(plans: seq<seq<File>>, s: Sys, c: nat, w: seq<File>, k: nat, root: string) returns (ls: seq<Label>)
    requires c < |plans| == |s.conns| && Between(s, c, |w|, w) && |w| < |plans[c]|
    requires k <= |plans[c][|w|].bytes| && NamesFile(plans[c][|w|].meta)
    requires Inv(plans, s) && AllConform(plans)
    ensures CanRun(plans, s, ls) && Inv(plans, Run(plans, s, ls)) && |Run(plans, s, ls).conns| == |plans|
    ensures Between(Run(plans, s, ls), c, |w| + 1, w + [CutTo(plans[c][|w|], k)])
    ensures Cuts(ls) == [k] && Roots(ls) == [root]
  {
    Announces(plans, s, c, |w|, w);
    StepKeeps(plans, s, Announce(c));
    var s1 := Step(plans, s, Announce(c));
    hide Inv, AllConform, CanStep, Step, Lost, InWindow, BeforeDone, Works, Between;
    RunOne(plans, s, Announce(c));
    var work := ToWindow(plans, s1, c);
    var s2 := Run(plans, s1, work);
    OnlyFromRun(plans, s1, work, c, w);
    RunCat(plans, s, [Announce(c)], work);
    var s3 := HandedAndSaved(plans, s2, c, w, k, root);
    var tail := [Finish(c), GetReply(c)] + SaveAll(k, root);
    ls := [Announce(c)] + work + tail;
    RunCat(plans, s, [Announce(c)] + work, tail);
    WritesOf(c, work, k, root);
  }

  lemma RunOne(plans: seq<seq<File>>, s: Sys, l: Label)
    requires CanStep(plans, s, l)
    ensures CanRun(plans, s, [l]) && Run(plans, s, [l]) == Step(plans, s, l)
  {
    hide CanStep, Step;
    var ls := [l];
    assert ls[1..] == [];
    assert CanRun(plans, Step(plans, s, l), []);
  }

  // From status 2 on: the handshake ends, and the file is saved.
  lemma HandedAndSaved(plans: seq<seq<File>>, s: Sys, c: nat, w: seq<File>, k: nat, root: string) returns (t: Sys)
    requires c < |plans| == |s.conns| && OnlyFrom(s, c, w) && InWindow(s.conns[c]) && s.conns[c].rcv.armed
    requires s.conns[c].cur == |w| < |plans[c]| && k <= |plans[c][|w|].bytes| && NamesFile(plans[c][|w|].meta)
    requires Inv(plans, s) && AllConform(plans)
    ensures var tail := [Finish(c), GetReply(c)] + SaveAll(k, root);
            CanRun(plans, s, tail) && t == Run(plans, s, tail)
    ensures Inv(plans, t) && |t.conns| == |plans| && Between(t, c, |w| + 1, w + [CutTo(plans[c][|w|], k)])
  {
    hide Inv, AllConform, InWindow, CanStep, Step, StatusLine, Complete, SaveAll;
    WindowIs(plans, s, c);
    QueuedNext(plans, s, c, w);
    Settle(plans, s, c);
    var s1 := Run(plans, s, [Finish(c), GetReply(c)]);
    Save(plans, s1, plans[c][|w|], k, root);
    RunCat(plans, s, [Finish(c), GetReply(c)], SaveAll(k, root));
    t := Run(plans, s1, SaveAll(k, root));
    RunKeeps(plans, s, [Finish(c), GetReply(c)] + SaveAll(k, root));
  }

  lemma {:induction false} CutsCat(a: seq<Label>, b: seq<Label>)
    ensures Cuts(a + b) == Cuts(a) + Cuts(b)
    decreases |b|
  {
    hide CutOf;
    if b == [] {
      assert a + b == a;
    } else {
      var n := |b| - 1;
      assert (a + b)[..|a| + n] == a + b[..n] && (a + b)[|a| + n] == b[n];
      CutsCat(a, b[..n]);
      assert Cuts(a) + Cuts(b[..n]) + CutOf(b[n]) == Cuts(a) + (Cuts(b[..n]) + CutOf(b[n]));
    }
  }

  lemma {:induction false} RootsCat(a: seq<Label>, b: seq<Label>)
    ensures Roots(a + b) == Roots(a) + Roots(b)
    decreases |b|
  {
    hide RootOf;
    if b == [] {
      assert a + b == a;
    } else {
      var n := |b| - 1;
      assert (a + b)[..|a| + n] == a + b[..n] && (a + b)[|a| + n] == b[n];
      RootsCat(a, b[..n]);
      assert Roots(a) + Roots(b[..n]) + RootOf(b[n]) == Roots(a) + (Roots(b[..n]) + RootOf(b[n]));
    }
  }

  lemma WritesCat(a: seq<Label>, b: seq<Label>)
    ensures Cuts(a + b) == Cuts(a) + Cuts(b) && Roots(a + b) == Roots(a) + Roots(b)
  {
    CutsCat(a, b);
    RootsCat(a, b);
  }

  lemma WriteOfOne(l: Label)
    ensures Cuts([l]) == CutOf(l) && Roots([l]) == RootOf(l)
  {
    var ls := [l];
    assert ls[..0] == [] && Cuts(ls[..0]) == [] && Roots(ls[..0]) == [];
  }

  lemma WritesOfTwo(a: Label, b: Label)
    ensures Cuts([a, b]) == CutOf(a) + CutOf(b) && Roots([a, b]) == RootOf(a) + RootOf(b)
  {
    assert [a, b] == [a] + [b];
    WriteOfOne(a);
    WriteOfOne(b);
    hide CutOf, RootOf, Cuts, Roots;
    WritesCat([a], [b]);
  }

  lemma WritesOfSave(k: nat, root: string)
    ensures Cuts(SaveAll(k, root)) == [k] && Roots(SaveAll(k, root)) == [root]
  {
    hide Cuts, Roots;
    WritesOfTwo(SaveOpen, SaveWrite(k, root));
    WritesOfTwo(SavePop, SaveReturn);
    WritesCat([SaveOpen, SaveWrite(k, root)], [SavePop, SaveReturn]);
  }

  lemma WritesOf(c: nat, work: seq<Label>, k: nat, root: string)
    requires forall l | l in work :: Works(l, c)
    ensures var ls := [Announce(c)] + work + ([Finish(c), GetReply(c)] + SaveAll(k, root));
            Cuts(ls) == [k] && Roots(ls) == [root]
  {
    WorksDoNotWrite(work, c);
    WriteOfOne(Announce(c));
    WritesOfTwo(Finish(c), GetReply(c));
    WritesOfSave(k, root);
    hide Cuts, Roots, SaveAll, Works;
    WritesCat([Finish(c), GetReply(c)], SaveAll(k, root));
    WritesCat([Announce(c)], work);
    WritesCat([Announce(c)] + work, [Finish(c), GetReply(c)] + SaveAll(k, root));
  }

  // ---- any number of files ----

  lemma Begin(plans: seq<seq<File>>, c: nat)
    requires AllConform(plans) && c < |plans|
    ensures IsRun(plans, [WriterStart]) && var s := After(plans, [WriterStart]);
            |s.conns| == |plans| && Between(s, c, 0, [])
    ensures Cuts([WriterStart]) == [] && Roots([WriterStart]) == []
  {
    var s := Init(|plans|);
    hide AllConform;
    RunOne(plans, s, WriterStart);
  }

  // For all conforming plans and every client whose files can be stored, some run saves any number
  // of them, in order, each cut to a length of its own.
  lemma {:induction false} AnyCuts(plans: seq<seq<File>>, c: nat, cuts: seq<nat>, root: string) returns (ls: seq<Label>)
    requires AllConform(plans) && c < |plans| && |cuts| <= |plans[c]| && Storable(plans[c][..|cuts|])
    requires forall i | 0 <= i < |cuts| :: cuts[i] <= |plans[c][i].bytes|
    ensures IsRun(plans, ls) && |After(plans, ls).conns| == |plans|
    ensures Between(After(plans, ls), c, |cuts|, CutAll(plans[c], cuts))
    ensures Cuts(ls) == cuts && Roots(ls) == seq(|cuts|, i => root)
    decreases |cuts|
  {
    hide AllConform, CanStep, Step, Between, Inv, Storable, CutTo, NamesFile, Cuts, Roots;
    if cuts == [] {
      Begin(plans, c);
      ls := [WriterStart];
      assert CutAll(plans[c], cuts) == [] && seq(|cuts|, i => root) == [];
    } else {
      var n := |cuts| - 1;
      StorableFront(plans[c], n);
      var front := AnyCuts(plans, c, cuts[..n], root);
      ls := OneMoreAfter(plans, front, c, cuts, root);
    }
  }

  lemma OneMoreAfter(plans: seq<seq<File>>, front: seq<Label>, c: nat, cuts: seq<nat>, root: string)
    returns (ls: seq<Label>)
    requires IsRun(plans, front) && c < |plans| == |After(plans, front).conns| && 0 < |cuts| <= |plans[c]|
    requires var n := |cuts| - 1;
             && cuts[n] <= |plans[c][n].bytes| && NamesFile(plans[c][n].meta)
             && Between(After(plans, front), c, n, CutAll(plans[c], cuts[..n]))
             && Cuts(front) == cuts[..n] && Roots(front) == seq(n, i => root)
    ensures IsRun(plans, ls) && |After(plans, ls).conns| == |plans|
    ensures Between(After(plans, ls), c, |cuts|, CutAll(plans[c], cuts))
    ensures Cuts(ls) == cuts && Roots(ls) == seq(|cuts|, i => root)
  {
    hide AllConform, CanStep, Step, Between, Inv, CutTo, NamesFile, Cuts, Roots;
    var n := |cuts| - 1;
    RunInv(plans, front);
    var more := OneMore(plans, After(plans, front), c, CutAll(plans[c], cuts[..n]), cuts[n], root);
    RunCat(plans, Init(|plans|), front, more);
    ls := front + more;
    WritesCat(front, more);
    CutAllMore(plans[c], cuts);
    assert seq(n + 1, i => root) == seq(n, i => root) + [root];
  }

  lemma CutAllMore(files: seq<File>, cuts: seq<nat>)
    requires 0 < |cuts| <= |files|
    ensures var n := |cuts| - 1;
            CutAll(files, cuts) == CutAll(files, cuts[..n]) + [CutTo(files[n], cuts[n])]
                && cuts == cuts[..n] + [cuts[n]]
  {
    hide CutTo;
    var n := |cuts| - 1;
    assert forall i | 0 <= i < n :: cuts[..n][i] == cuts[i];
    assert CutAll(files, cuts)[n] == CutTo(files[n], cuts[n]);
    assert CutAll(files, cuts)[..n] == CutAll(files, cuts[..n]);
    assert CutAll(files, cuts) == CutAll(files, cuts)[..n] + [CutAll(files, cuts)[n]];
    assert cuts == cuts[..n] + [cuts[n]];
  }

  lemma StorableFront(files: seq<File>, n: nat)
    requires n < |files| && Storable(files[..n + 1])
    ensures Storable(files[..n]) && NamesFile(files[n].meta)
  {
    var more := files[..n + 1];
    assert more[n] == files[n] && forall i | 0 <= i < n :: more[i] == files[..n][i];
  }

  // ---- main results ----

  // The lengths of the first files.
  function Lengths(files: seq<File>, n: nat): seq<nat>
    requires n <= |files|
  {
    seq(n, i requires 0 <= i < n => |files[i].bytes|)
  }

  lemma {:induction false} WholeCuts(files: seq<File>, n: nat)
    requires n <= |files|
    ensures CutAll(files, Lengths(files, n)) == files[..n]
  {
    forall i | 0 <= i < n
      ensures CutTo(files[i], |files[i].bytes|) == files[i]
    {
    }
  }

  // The first files of client c, and no others, were queued, and each was written below root as w says.
  predicate Saved(s: Sys, roots: seq<string>, c: nat, w: seq<File>, root: string) {
    && |s.accepted| == |w| && (forall i | 0 <= i < |w| :: s.accepted[i] == Ticket(c, i))
    && s.written == w && roots == seq(|w|, i => root)
  }

  // Any file of any client, by its number: some run saves the files before it whole, and of the
  // file itself just k bytes.
  lemma AnyCutCanHappen(plans: seq<seq<File>>, c: nat, n: nat, k: nat, root: string) returns (ls: seq<Label>)
    requires AllConform(plans) && c < |plans| && n < |plans[c]| && Storable(plans[c][..n + 1])
    requires k <= |plans[c][n].bytes|
    ensures IsRun(plans, ls)
    ensures var f := plans[c][n];
            Saved(After(plans, ls), Roots(ls), c, plans[c][..n] + [File(f.meta, f.bytes[..k])], root)
  {
    var files := plans[c];
    var cuts := Lengths(files, n) + [k];
    hide AllConform, Storable, Between, IsRun, CutAll, Cuts, Roots;
    ls := AnyCuts(plans, c, cuts, root);
    WholeButLast(files, n, k);
    BetweenLog(plans, ls, c, n + 1, CutAll(files, cuts));
  }

  lemma WholeButLast(files: seq<File>, n: nat, k: nat)
    requires n < |files| && k <= |files[n].bytes|
    ensures CutAll(files, Lengths(files, n) + [k]) == files[..n] + [File(files[n].meta, files[n].bytes[..k])]
  {
    WholeCuts(files, n);
    CutAllMore(files, Lengths(files, n) + [k]);
    assert (Lengths(files, n) + [k])[..n] == Lengths(files, n);
    assert files[n].bytes[..|files[n].bytes|] == files[n].bytes;
    hide CutAll, Lengths;
  }

  lemma BetweenLog(plans: seq<seq<File>>, ls: seq<Label>, c: nat, n: nat, w: seq<File>)
    requires IsRun(plans, ls) && c < |plans| == |After(plans, ls).conns| && Between(After(plans, ls), c, n, w)
    ensures var s := After(plans, ls);
            s.written == w && |s.accepted| == n && forall i | 0 <= i < n :: s.accepted[i] == Ticket(c, i)
  {
    hide IsRun, Inv;
    RunInv(plans, ls);
    OnlyFromLog(plans, After(plans, ls), c, w);
  }

  // No write was short, and yet a file of a client is gone: another file of that client, with the
  // same names and other bytes, was stored in its place.
  lemma EarlierFileIsGone(plans: seq<seq<File>>, c: nat, i: nat, j: nat, root: string,
                          fs: map<string, string>) returns (ls: seq<Label>)
    requires AllConform(plans) && c < |plans| && i < j < |plans[c]| && Storable(plans[c][..j + 1])
    requires var a, b := plans[c][i], plans[c][j];
             a.meta.subpath == b.meta.subpath && a.meta.filename == b.meta.filename && a.bytes != b.bytes
    ensures IsRun(plans, ls) && forall n | 0 <= n < |ls| :: !ShortAt(plans, ls, n)
    ensures Saved(After(plans, ls), Roots(ls), c, plans[c][..j + 1], root)
    ensures Replaced(After(plans, ls).written, Roots(ls), i, root, fs)
  {
    hide AllConform, Storable, Between, IsRun, CutAll, Cuts, Roots, ShortAt, Replaced, Saved;
    ls := AnyCuts(plans, c, Lengths(plans[c], j + 1), root);
    WholeCuts(plans[c], j + 1);
    SavedWhole(plans, ls, c, j + 1, root);
    Replaces(plans[c][..j + 1], Roots(ls), i, j, root, fs);
  }

  // What was written last is found at its path, and file i is not.
  predicate Replaced(written: seq<File>, roots: seq<string>, i: nat, root: string, fs: map<string, string>) {
    && i < |written| == |roots|
    && var all := DiskAfter(fs, PathOf, written, roots);
    !Found(all, PathOf, root, written[i]) && Found(all, PathOf, root, written[|written| - 1])
  }

  lemma SavedWhole(plans: seq<seq<File>>, ls: seq<Label>, c: nat, n: nat, root: string)
    requires IsRun(plans, ls) && c < |plans| == |After(plans, ls).conns| && n <= |plans[c]|
    requires Between(After(plans, ls), c, n, plans[c][..n]) && Roots(ls) == seq(n, i => root)
    ensures Saved(After(plans, ls), Roots(ls), c, plans[c][..n], root) && After(plans, ls).written == plans[c][..n]
    ensures forall i | 0 <= i < |ls| :: !ShortAt(plans, ls, i)
  {
    hide IsRun, ShortAt, Between;
    BetweenLog(plans, ls, c, n, plans[c][..n]);
    NoneShort(plans, ls, c, n);
  }

  // The last of the files stands where an earlier one with its names stood.
  lemma Replaces(files: seq<File>, roots: seq<string>, i: nat, j: nat, root: string, fs: map<string, string>)
    requires i < j && |files| == |roots| == j + 1 && forall n | 0 <= n <= j :: roots[n] == root
    requires var a, b := files[i], files[j];
             a.meta.subpath == b.meta.subpath && a.meta.filename == b.meta.filename && a.bytes != b.bytes
    ensures Replaced(files, roots, i, root, fs)
  {
    assert LastTo(PathOf, files, roots, j, j) && LastTo(PathOf, files, roots, i, j);
    StoredLast(fs, PathOf, files, roots, j, j);
    StoredLast(fs, PathOf, files, roots, i, j);
    hide DiskAfter;
  }

  lemma NoneShort(plans: seq<seq<File>>, ls: seq<Label>, c: nat, n: nat)
    requires IsRun(plans, ls) && c < |plans| && n <= |plans[c]|
    requires var s := After(plans, ls);
             && s.written == plans[c][..n] && |s.accepted| == n
             && forall i | 0 <= i < n :: s.accepted[i] == Ticket(c, i)
    ensures forall i | 0 <= i < |ls| :: !ShortAt(plans, ls, i)
  {
    hide IsRun, ShortAt;
    WholeExactly(plans, ls);
  }

  // ---- concrete instances ----

  // Here nothing is left of the only file of the only client.
  lemma SmallFileCanBeEmptied() returns (ls: seq<Label>)
    ensures IsRun([[SMALL]], ls)
    ensures var s := After([[SMALL]], ls);
            s.accepted == [Ticket(0, 0)] && s.written == [File(SMALL.meta, "")] && s.written[0] != SMALL
  {
    SmallConforms();
    hide Conforming;
    var plans := [[SMALL]];
    assert plans[0][..1] == [SMALL];
    assert SMALL.bytes[..0] == "" && plans[0][..0] == [];
    ls := AnyCutCanHappen(plans, 0, 0, 0, "root");
  }

  // Another file with the names of SMALL.
  const OTHER := File(SMALL.meta, "c")

  // Here the client sends two files with the same names, and only the second is found at their path.
  lemma SmallFileCanBeReplaced() returns (ls: seq<Label>)
    ensures IsRun([[SMALL, OTHER]], ls) && forall n | 0 <= n < |ls| :: !ShortAt([[SMALL, OTHER]], ls, n)
    ensures After([[SMALL, OTHER]], ls).written == [SMALL, OTHER]
    ensures Replaced([SMALL, OTHER], Roots(ls), 0, "root", map[])
  {
    SmallConforms();
    OtherConforms();
    hide Conforming;
    var plans := [[SMALL, OTHER]];
    assert plans[0][..2] == [SMALL, OTHER];
    ls := EarlierFileIsGone(plans, 0, 0, 1, "root", map[]);
  }

  lemma OtherConforms()
    ensures Conforming(OTHER)
  {
    SmallConforms();
    assert InfoMsg(OTHER) == InfoMsg(SMALL);
    hide P.InfoLine, P.CleanInfo;
  }
}
