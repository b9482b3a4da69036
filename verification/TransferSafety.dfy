// Main results on safety: for every run of conforming clients, in every interleaving.
module TransferSafety {
  import opened Options
  import opened FileStore
  import opened R = Receiver
  import opened Transfer
  import opened TransferInv
  import opened TransferSteps
  import opened TransferShared
  import opened TransferRuns
  import opened TransferDisk
  import P = Protocol

  predicate IsRun(plans: seq<seq<File>>, ls: seq<Label>) {
    AllConform(plans) && CanRun(plans, Init(|plans|), ls)
  }

  function After(plans: seq<seq<File>>, ls: seq<Label>): Sys
    requires IsRun(plans, ls)
  {
    Run(plans, Init(|plans|), ls)
  }

  lemma RunInv(plans: seq<seq<File>>, ls: seq<Label>)
    requires IsRun(plans, ls)
    ensures Inv(plans, After(plans, ls))
  {
    InitInv(plans);
    RunKeeps(plans, Init(|plans|), ls);
  }

  lemma {:induction false} RunPrefix(plans: seq<seq<File>>, ls: seq<Label>, i: nat)
    requires IsRun(plans, ls) && i <= |ls|
    ensures IsRun(plans, ls[..i])
    decreases |ls| - i
  {
    hide AllConform;
    if i == |ls| {
      assert ls[..i] == ls;
    } else {
      RunPrefix(plans, ls, i + 1);
      assert ls[..i + 1] == ls[..i] + [ls[i]];
      RunAppend(plans, Init(|plans|), ls[..i], ls[i]);
    }
  }

  // ---- logs ----

  lemma {:induction false} MineMember(log: seq<Ticket>, c: nat, n: nat)
    ensures n in Mine(log, c) <==> Ticket(c, n) in log
  {
    if log != [] {
      var k := |log| - 1;
      MineMember(log[..k], c, n);
      assert log == log[..k] + [log[k]];
    }
  }

  lemma {:induction false} QueuedMember(fate: seq<bool>, n: nat)
    ensures n in Queued(fate) <==> n < |fate| && fate[n]
  {
    if fate != [] {
      QueuedMember(fate[..|fate| - 1], n);
    }
  }

  predicate Increasing(s: seq<nat>) {
    forall i, j | 0 <= i < j < |s| :: s[i] < s[j]
  }

  lemma {:induction false} QueuedIncreases(fate: seq<bool>)
    ensures Increasing(Queued(fate))
  {
    if fate != [] {
      var n := |fate| - 1;
      QueuedIncreases(fate[..n]);
      forall i | 0 <= i < |Queued(fate[..n])|
        ensures Queued(fate[..n])[i] < n
      {
        QueuedMember(fate[..n], Queued(fate[..n])[i]);
      }
    }
  }

  lemma IncreasingLast(m: seq<nat>, x: nat)
    requires Increasing(m + [x])
    ensures Increasing(m) && x !in m
  {
    var all := m + [x];
    forall i | 0 <= i < |m|
      ensures m[i] < x
    {
      assert all[i] < all[|m|];
    }
    forall i, j | 0 <= i < j < |m|
      ensures m[i] < m[j]
    {
      assert all[i] < all[j];
    }
  }

  lemma {:induction false} NoTicketTwice(log: seq<Ticket>)
    requires forall c: nat :: Increasing(Mine(log, c))
    ensures forall i, j | 0 <= i < j < |log| :: log[i] != log[j]
  {
    if log != [] {
      var k := |log| - 1;
      var t := log[k];
      forall c: nat
        ensures Increasing(Mine(log[..k], c)) && (c == t.conn ==> t.file !in Mine(log[..k], c))
      {
        assert Increasing(Mine(log, c));
        hide Increasing;
        var m := Mine(log[..k], c);
        assert Mine(log, c) == m + if c == t.conn then [t.file] else [];
        assert m + [] == m;
        if c == t.conn {
          IncreasingLast(m, t.file);
        }
      }
      hide Mine, Increasing;
      NoTicketTwice(log[..k]);
      MineMember(log[..k], t.conn, t.file);
      forall i, j | 0 <= i < j < |log|
        ensures log[i] != log[j]
      {
        assert log[i] == log[..k][i] && log[i] in log[..k];
        assert j < k ==> log[j] == log[..k][j];
      }
    }
  }

  lemma {:induction false} NoForeignTicket(plans: seq<seq<File>>, log: seq<Ticket>, c: nat)
    requires c >= |plans| && forall j | 0 <= j < |log| :: Valid(plans, log[j])
    ensures Mine(log, c) == []
  {
    if log != [] {
      NoForeignTicket(plans, log[..|log| - 1], c);
    }
  }

  // ---- main results ----

  lemma {:induction false} RunCuts(plans: seq<seq<File>>, ls: seq<Label>)
    requires IsRun(plans, ls)
    ensures var s := After(plans, ls);
            && CutLog(plans, s.written, s.accepted, Cuts(ls))
            && (Whole(plans, s.written, s.accepted) <==> forall i | 0 <= i < |ls| :: !ShortAt(plans, ls, i))
    decreases |ls|
  {
    hide Inv, AllConform, CanStep, Step, CutLog, Whole, Short;
    if ls == [] {
      EmptyDisk(plans);
    } else {
      var n := |ls| - 1;
      var front := ls[..n];
      RunPrefix(plans, ls, n);
      assert ls == front + [ls[n]];
      RunAppend(plans, Init(|plans|), front, ls[n]);
      RunInv(plans, front);
      RunCuts(plans, front);
      StepCuts(plans, After(plans, front), ls[n], Cuts(front));
      forall i | 0 <= i < n
        ensures ShortAt(plans, front, i) <==> ShortAt(plans, ls, i)
      {
        assert front[..i] == ls[..i];
      }
      assert ShortAt(plans, ls, n) <==> Short(After(plans, front), ls[n]);
      hide ShortAt;
    }
  }

  lemma EmptyDisk(plans: seq<seq<File>>)
    ensures var s := Init(|plans|); CutLog(plans, s.written, s.accepted, []) && Whole(plans, s.written, s.accepted)
  {
  }

  // Step number i of the run is a write that takes fewer bytes than it was given.
  predicate ShortAt(plans: seq<seq<File>>, ls: seq<Label>, i: nat)
    requires IsRun(plans, ls) && i < |ls|
  {
    RunPrefix(plans, ls, i);
    Short(After(plans, ls[..i]), ls[i])
  }

  // Write number j is of the j-th file that was queued: the metadata its client sent for it,
  // and of the bytes its client sent as many as the j-th write took. Files queued but not yet written
  // sit in the queue, complete.
  lemma EndToEnd(plans: seq<seq<File>>, ls: seq<Label>)
    requires IsRun(plans, ls)
    ensures var s := After(plans, ls);
            && |s.accepted| == |s.written| + |Pending(s)| && |s.written| == |Cuts(ls)|
            && (forall j | 0 <= j < |s.accepted| :: Valid(plans, s.accepted[j]))
            && (forall j | 0 <= j < |s.written| ::
                  var f := FileOf(plans, s.accepted[j]);
                  Cuts(ls)[j] <= |f.bytes| && s.written[j] == File(f.meta, f.bytes[..Cuts(ls)[j]]))
            && (forall j | 0 <= j < |Pending(s)| ::
                  Pending(s)[j] < |s.cells|
                  && Complete(s.cells[Pending(s)[j]], FileOf(plans, s.accepted[|s.written| + j])))
  {
    hide Inv, IsRun, Cuts;
    RunInv(plans, ls);
    LogOfInv(plans, After(plans, ls));
    LogMeans(plans, After(plans, ls));
    RunCuts(plans, ls);
  }

  // Every write was of all the bytes its client sent if and only if no write was short. Whether a
  // file is still found at its path afterwards is the subject of TransferPaths.
  lemma WholeExactly(plans: seq<seq<File>>, ls: seq<Label>)
    requires IsRun(plans, ls)
    ensures var s := After(plans, ls);
            |s.written| <= |s.accepted|
            && (forall j | 0 <= j < |s.written| :: Valid(plans, s.accepted[j]))
            && ((forall j | 0 <= j < |s.written| :: s.written[j] == FileOf(plans, s.accepted[j]))
                <==> forall i | 0 <= i < |ls| :: !ShortAt(plans, ls, i))
  {
    RunCuts(plans, ls);
    hide IsRun, ShortAt, FileOf, Valid, IsCut, Cuts;
  }

  lemma LogOfInv(plans: seq<seq<File>>, s: Sys)
    requires Inv(plans, s)
    ensures LogOk(plans, s)
  {
  }

  lemma PendingMeans(plans: seq<seq<File>>, s: Sys, j: nat)
    requires LogOk(plans, s) && j < |Pending(s)|
    ensures Pending(s)[j] < |s.cells| && |s.written| + j < |s.accepted|
            && Complete(s.cells[Pending(s)[j]], FileOf(plans, s.accepted[|s.written| + j]))
  {
    hide Complete, FileOf, Valid, DiskLog;
    var n := |s.accepted| - |s.queue|;
    var i := if s.writer.Written? && s.queue != [] then j + 1 else j;
    assert Pending(s)[j] == s.queue[i] && |s.written| + j == n + i;
    assert s.accepted[n..][i] == s.accepted[n + i];
  }

  lemma LogMeans(plans: seq<seq<File>>, s: Sys)
    requires LogOk(plans, s)
    ensures && |s.accepted| == |s.written| + |Pending(s)|
            && (forall j | 0 <= j < |s.accepted| :: Valid(plans, s.accepted[j]))
            && (forall j | 0 <= j < |Pending(s)| ::
                  Pending(s)[j] < |s.cells|
                  && Complete(s.cells[Pending(s)[j]], FileOf(plans, s.accepted[|s.written| + j])))
  {
    hide Complete, FileOf, Valid;
    forall j | 0 <= j < |Pending(s)|
      ensures Pending(s)[j] < |s.cells|
              && Complete(s.cells[Pending(s)[j]], FileOf(plans, s.accepted[|s.written| + j]))
    {
      PendingMeans(plans, s, j);
    }
  }

  // A file is queued if and only if the writer was running when it was handed over; never twice.
  // What a connection queued is in the order in which its client sent it.
  lemma QueuedOnce(plans: seq<seq<File>>, ls: seq<Label>)
    requires IsRun(plans, ls)
    ensures var s := After(plans, ls);
            |s.conns| == |plans|
            && (forall i, j | 0 <= i < j < |s.accepted| :: s.accepted[i] != s.accepted[j])
            && forall c: nat | c < |plans| ::
                 Increasing(Mine(s.accepted, c))
                 && forall n: nat :: Ticket(c, n) in s.accepted <==> n < |s.conns[c].fate| && s.conns[c].fate[n]
  {
    var s := After(plans, ls);
    RunInv(plans, ls);
    forall c: nat
      ensures Increasing(Mine(s.accepted, c))
      ensures c < |plans| ==>
              forall n: nat :: Ticket(c, n) in s.accepted <==> n < |s.conns[c].fate| && s.conns[c].fate[n]
    {
      if c < |plans| {
        assert ConnOk(plans, s, c);
        QueuedIncreases(s.conns[c].fate);
        forall n: nat
          ensures Ticket(c, n) in s.accepted <==> n < |s.conns[c].fate| && s.conns[c].fate[n]
        {
          MineMember(s.accepted, c, n);
          QueuedMember(s.conns[c].fate, n);
        }
      } else {
        NoForeignTicket(plans, s.accepted, c);
      }
    }
    NoTicketTwice(s.accepted);
  }

  // The count the receiver tests is the number of references held by receivers, queue and writer.
  lemma CountsAreExact(plans: seq<seq<File>>, ls: seq<Label>, i: nat)
    requires IsRun(plans, ls) && i < |After(plans, ls).cells|
    ensures var s := After(plans, ls);
            |s.refs| == |s.cells|
                && s.refs[i] == Holders(s.conns, i) + multiset(s.queue)[i] + (if Holds(s.writer, i) then 1 else 0)
  {
    RunInv(plans, ls);
    assert After(plans, ls).refs[i] == UseCount(After(plans, ls), i);
  }

  lemma OwnershipStep(plans: seq<seq<File>>, s: Sys, l: Label, i: nat)
    requires Inv(plans, s) && AllConform(plans) && CanStep(plans, s, l) && i < |s.cells|
    requires i in s.queue || Holds(s.writer, i)
    ensures var t := Step(plans, s, l); |s.cells| <= |t.cells| && t.cells[i] == s.cells[i]
  {
    StillInv(plans, s);
    RefsOf(plans, s);
    hide AllConform, Inv, RefsOk, Step, CanStep;
    if l.Deliver? {
      DeliverOwnership(plans, s, l, i);
    } else if l.Parse? {
      ParseEnds(plans, s, l);
      ParseOwnership(s, l.c, l.junk, i);
    } else {
      CellsKeep(plans, s, l);
    }
  }

  lemma ParseEnds(plans: seq<seq<File>>, s: Sys, l: Label)
    requires l.Parse? && CanStep(plans, s, l)
    ensures l.c < |s.conns| && PtrOk(s, s.conns[l.c].rcv) && s.conns[l.c].rcv.pc == Handling(MSG_NETWORK_RECEIVE)
    ensures Step(plans, s, l) == ParseStep(s, l.c, l.junk)
  {
    hide P.Resolve, LineText, ParseStep;
  }

  lemma CellsKeep(plans: seq<seq<File>>, s: Sys, l: Label)
    requires !l.Deliver? && !l.Parse? && CanStep(plans, s, l)
    ensures Step(plans, s, l).cells == s.cells
  {
    hide DeliverStep, ParseStep, Announced, Sent, ReadReply, Replied, Local;
  }

  lemma DeliverOwnership(plans: seq<seq<File>>, s: Sys, l: Label, i: nat)
    requires l.Deliver? && CanStep(plans, s, l) && l.c < |plans| == |s.conns| && i < |s.cells|
    requires i in s.queue || Holds(s.writer, i)
    requires Inv(plans, s)
    ensures var t := Step(plans, s, l); |s.cells| <= |t.cells| && t.cells[i] == s.cells[i]
  {
    var k := s.conns[l.c];
    if k.rcv.state == READY {
      hide Inv, Stage, Discipline, CloseOk, P.InfoLine, Arrived;
      Part(plans, s, l.c);
      StreamingNow(plans[l.c], k, s.cells, s.queue, s.writer);
      StreamOwner(plans[l.c][k.cur], s, k, if k.phase.Sending? then k.phase.sent else |plans[l.c][k.cur].bytes|);
      hide Streaming;
    }
  }

  lemma ParseOwnership(s: Sys, c: nat, junk: string, i: nat)
    requires c < |s.conns| && PtrOk(s, s.conns[c].rcv) && s.conns[c].rcv.pc == Handling(MSG_NETWORK_RECEIVE)
    requires RefsOk(s) && i < |s.cells| && (i in s.queue || Holds(s.writer, i))
    ensures var t := ParseStep(s, c, junk); |s.cells| <= |t.cells| && t.cells[i] == s.cells[i]
  {
    hide P.Resolve, LineText, RefsOk, R.Next, Replaced;
    var ptr := s.conns[c].rcv.fileptr;
    if ptr.Some? && s.refs[ptr.value] == 1 {
      SoleOwner(s, c, ptr.value);
    }
  }

  lemma StillInv(plans: seq<seq<File>>, s: Sys)
    requires Inv(plans, s)
    ensures |s.conns| == |plans|
  {
  }

  lemma RefsOf(plans: seq<seq<File>>, s: Sys)
    requires Inv(plans, s)
    ensures RefsOk(s) && |s.conns| == |plans|
  {
  }

  // An object in the queue, or held by the writer, is not modified by any step of any thread.
  lemma QueuedIsFrozen(plans: seq<seq<File>>, ls: seq<Label>, l: Label, i: nat)
    requires IsRun(plans, ls) && CanStep(plans, After(plans, ls), l)
    requires var s := After(plans, ls); i < |s.cells| && (i in s.queue || Holds(s.writer, i))
    ensures var s := After(plans, ls);
            var t := Step(plans, s, l);
            |s.cells| <= |t.cells| && t.cells[i] == s.cells[i]
  {
    hide Inv, Step;
    RunInv(plans, ls);
    OwnershipStep(plans, After(plans, ls), l, i);
  }

  // No copy ever passes the end of a buffer.
  lemma NoOverflow(plans: seq<seq<File>>, ls: seq<Label>, c: nat, n: nat)
    requires IsRun(plans, ls) && CanStep(plans, After(plans, ls), Deliver(c, n))
    requires After(plans, ls).conns[c].rcv.state == READY
    ensures var s := After(plans, ls);
            var cell := s.cells[s.conns[c].rcv.fileptr.value];
            0 <= cell.rcvsize && cell.rcvsize + n <= cell.filesize == |cell.data|
  {
    var s := After(plans, ls);
    RunInv(plans, ls);
    hide P.InfoLine;
    Part(plans, s, c);
    DeliverData(plans, s, c, n);
    StreamingNow(plans[c], s.conns[c], s.cells, s.queue, s.writer);
  }

  // Statuses alternate 1, 2, 1, 2, ...; status 3 is never sent and the failure state never entered.
  // The completion message is posted once for each file, and just when its last byte was read.
  lemma StatusDiscipline(plans: seq<seq<File>>, ls: seq<Label>, c: nat)
    requires IsRun(plans, ls) && c < |plans|
    ensures var s := After(plans, ls);
            |s.conns| == |plans|
            && var k := s.conns[c];
            && Alternates(k.stats, READY, COMPLETE)
            && 2 * k.cur <= |k.stats| <= 2 * k.cur + 2
            && k.rcv.state != FAILURE && FAILURE !in k.stats
            && Alternates(Core(k.rcv.posted), MSG_NETWORK_RECEIVE, MSG_RECEIVE_COMPLETE)
            && |k.fate| <= |Core(k.rcv.posted)| / 2 <= k.cur + 1
            && |k.stats| / 2 <= |k.fate|
            && (|Core(k.rcv.posted)| / 2 == k.cur + 1 <==> k.phase == AwaitDone && k.wire == "")
  {
    hide Inv, IsRun, Stage, CloseOk, Core;
    RunInv(plans, ls);
    var s := After(plans, ls);
    StillInv(plans, s);
    Part(plans, s, c);
    StageCounts(plans[c], s.conns[c], s.cells, s.queue, s.writer);
    if |s.conns[c].stats| > 0 {
      assert forall x | x in s.conns[c].stats :: x == READY || x == COMPLETE;
    }
  }

  // What the counts of a connection can be, apart from how far its client is.
  predicate Counts(k: Conn, posted: nat, stats: nat, stored: nat) {
    k.rcv.state != FAILURE && |Core(k.rcv.posted)| == posted && |k.stats| == stats && |k.fate| == stored
  }

  lemma StageCounts(files: seq<File>, k: Conn, cells: seq<Cell>, queue: seq<nat>, w: Writer)
    requires Stage(files, k, cells, queue, w)
    ensures 2 * k.cur <= |k.stats| <= 2 * k.cur + 2 && k.rcv.state != FAILURE
    ensures |k.fate| <= |Core(k.rcv.posted)| / 2 <= k.cur + 1 && |k.stats| / 2 <= |k.fate|
    ensures |Core(k.rcv.posted)| / 2 == k.cur + 1 <==> k.phase == AwaitDone && k.wire == ""
  {
    RestCounts(k);
    if k.cur < |files| {
      StreamingWire(files[k.cur], k, cells, queue, w);
      if k.phase.AwaitReady? {
        ReadyCounts(files[k.cur], k, cells, queue, w);
      } else if k.phase.AwaitDone? {
        DoneCounts(files[k.cur], k, cells, queue, w);
      }
    }
    hide Core, AtRest, Streaming, AwaitingReady, AwaitingDone;
  }

  lemma RestCounts(k: Conn)
    ensures AtRest(k, k.cur) ==> Counts(k, 2 * k.cur, 2 * k.cur, k.cur)
  {
    hide Core;
  }

  lemma ReadyCounts(f: File, k: Conn, cells: seq<Cell>, queue: seq<nat>, w: Writer)
    requires AwaitingReady(f, k, cells, queue, w)
    ensures Counts(k, 2 * k.cur, 2 * k.cur, k.cur) || Counts(k, 2 * k.cur + 1, 2 * k.cur, k.cur)
            || Counts(k, 2 * k.cur + 1, 2 * k.cur + 1, k.cur)
  {
    RowCounts(k);
    RestCounts(k);
    hide P.InfoLine, Core, StatusLine, Row, Loaded, AtRest;
  }

  lemma DoneCounts(f: File, k: Conn, cells: seq<Cell>, queue: seq<nat>, w: Writer)
    requires AwaitingDone(f, k, cells, queue, w)
    ensures Streaming(f, k, |f.bytes|, cells, queue, w) || Counts(k, 2 * k.cur + 2, 2 * k.cur + 1, k.cur)
            || Counts(k, 2 * k.cur + 2, 2 * k.cur + 1, k.cur + 1) || Counts(k, 2 * k.cur + 2, 2 * k.cur + 2, k.cur + 1)
    ensures k.wire == "" <==> !Streaming(f, k, |f.bytes|, cells, queue, w)
  {
    RowCounts(k);
    StreamingWire(f, k, cells, queue, w);
    hide Core, StatusLine, Row, Loaded, Streaming;
  }

  // While bytes are outstanding the client has not sent them all, or some are on the wire.
  lemma StreamingWire(f: File, k: Conn, cells: seq<Cell>, queue: seq<nat>, w: Writer)
    ensures Streaming(f, k, |f.bytes|, cells, queue, w) ==>
              && k.wire != "" && k.rcv.state == READY && |Core(k.rcv.posted)| == 2 * k.cur + 1
              && |k.stats| == 2 * k.cur + 1 && |k.fate| == k.cur
    ensures forall sent :: Streaming(f, k, sent, cells, queue, w) ==>
              && k.rcv.state == READY && |Core(k.rcv.posted)| == 2 * k.cur + 1
              && |k.stats| == 2 * k.cur + 1 && |k.fate| == k.cur
  {
    hide Core;
    if Streaming(f, k, |f.bytes|, cells, queue, w) {
      assert |k.wire| == |f.bytes| - Got(k.rcv, cells);
    }
  }

  lemma RowCounts(k: Conn)
    ensures forall pc, state, q, replies, posted, stats, stored ::
              Row(k, pc, state, q, replies, posted, stats, stored) ==>
                k.rcv.state == state && |Core(k.rcv.posted)| == posted && |k.stats| == stats && |k.fate| == stored
  {
    hide Core;
  }
}
