// Every step keeps the invariant.
module TransferSteps {
  import opened Options
  import opened FileStore
  import opened R = Receiver
  import opened Transfer
  import opened TransferInv
  import T = CText
  import P = Protocol

  // ---- what a status line and a fileinfo line say ----

  lemma StatusReads(status: int)
    requires T.FitsInt(status)
    ensures StatusOf(StatusLine(status)) == Some(status)
  {
    hide P.Resolve, P.StatLine;
    P.StatSurvives(P.FileStatMsg("", "", "", "", status));
  }

  lemma LineReads(f: File)
    requires Conforming(f)
    ensures var line := P.InfoLine(InfoMsg(f));
            line != "" && '\n' in line && P.Resolve(LineText(line)) == Some(P.FileInfo(InfoMsg(f)))
  {
    var m := InfoMsg(f);
    var body := P.InfoBody(m);
    hide P.Resolve, P.InfoLine, P.InfoBody;
    P.InfoRoundTrip(m, "");
    BodyHasNoNewline(f);
    assert (body + "\n")[..|body|] == body && (body + "\n")[|body|] == '\n';
    T.IndexOfUnique(body + "\n", '\n', |body|);
    assert body + "" == body;
  }

  lemma BodyHasNoNewline(f: File)
    requires Conforming(f)
    ensures '\n' !in P.InfoBody(InfoMsg(f))
  {
    var m := InfoMsg(f);
    var v := P.InfoValues(m);
    hide P.Body, P.CleanInfo, P.InfoLine, T.ToDecimal;
    assert forall k | k in P.KEYS :: '\n' !in k;
    assert forall x | x in v :: '\n' !in x;
    P.BodyHasNo("fileinfo", P.KEYS, v, '\n');
  }

  // ---- steps of one connection ----

  lemma CoreAppend(q: seq<int>, m: int)
    requires MSG_NETWORK_CLOSE !in q
    ensures Core(q) == q
    ensures Core(q + [m]) == if m == MSG_NETWORK_CLOSE then q else q + [m]
  {
    assert (q + [m])[..|q|] == q;
  }

  lemma AnnounceStage(files: seq<File>, k: Conn, cells: seq<Cell>, queue: seq<nat>, w: Writer)
    requires Stage(files, k, cells, queue, w) && k.phase.Resting? && k.cur < |files|
    ensures Stage(files, Announced(files, k), cells, queue, w)
  {
    hide P.InfoLine, Core;
  }

  lemma SendBytesStage(files: seq<File>, k: Conn, n: nat, cells: seq<Cell>, queue: seq<nat>, w: Writer)
    requires Stage(files, k, cells, queue, w) && k.phase.Sending? && n > 0 && k.phase.sent + n <= |files[k.cur].bytes|
    ensures Stage(files, Sent(files, k, n), cells, queue, w)
  {
    SentStreams(files, k, n, cells, queue, w);
    hide P.InfoLine, Core, Streaming, AwaitingReady, AtRest, Sent;
  }

  lemma SentStreams(files: seq<File>, k: Conn, n: nat, cells: seq<Cell>, queue: seq<nat>, w: Writer)
    requires k.cur < |files| && k.phase.Sending? && n > 0 && k.phase.sent + n <= |files[k.cur].bytes|
    requires Streaming(files[k.cur], k, k.phase.sent, cells, queue, w)
    ensures var f, k1 := files[k.cur], Sent(files, k, n);
            && k1.cur == k.cur && Streaming(f, k1, k.phase.sent + n, cells, queue, w)
            && (if k.phase.sent + n == |f.bytes| then k1.phase == AwaitDone else k1.phase == Sending(k.phase.sent + n))
  {
    hide Core;
    var f, got, next := files[k.cur], Got(k.rcv, cells), k.phase.sent + n;
    assert f.bytes[got..k.phase.sent] + f.bytes[k.phase.sent..next] == f.bytes[got..next];
  }

  lemma ReadyReply(f: File, k: Conn, cells: seq<Cell>, queue: seq<nat>, w: Writer)
    requires AwaitingReady(f, k, cells, queue, w) && k.replies != [] && k.phase.AwaitReady? && f.bytes != ""
    ensures ReadReply(k).phase == Sending(0) && ReadReply(k).cur == k.cur
    ensures Streaming(f, ReadReply(k), 0, cells, queue, w)
  {
    hide P.InfoLine, StatusLine, StatusOf, Core;
    StatusReads(READY);
  }

  lemma DoneReply(f: File, k: Conn, cells: seq<Cell>, queue: seq<nat>, w: Writer)
    requires AwaitingDone(f, k, cells, queue, w) && k.replies != [] && k.phase.AwaitDone?
    ensures var k1 := ReadReply(k);
            k1.phase == Resting && k1.cur == k.cur + 1 && k1.wire == "" && AtRest(k1, k1.cur)
  {
    hide P.InfoLine, StatusLine, StatusOf, Core, Loaded;
    StatusReads(COMPLETE);
  }

  lemma GetReplyStage(files: seq<File>, k: Conn, cells: seq<Cell>, queue: seq<nat>, w: Writer)
    requires Stage(files, k, cells, queue, w) && k.replies != []
    requires forall n | 0 <= n < |files| :: Conforming(files[n])
    ensures Stage(files, ReadReply(k), cells, queue, w)
  {
    if k.phase.AwaitReady? {
      assert Conforming(files[k.cur]);
      hide AwaitingReady, Streaming, ReadReply;
      ReadyReply(files[k.cur], k, cells, queue, w);
    } else if k.phase.AwaitDone? {
      hide AwaitingDone, AtRest, ReadReply;
      DoneReply(files[k.cur], k, cells, queue, w);
    }
  }

  // ---- steps of the network and message threads that touch only the connection ----

  // A stage sees the queue of messages without the close message.
  // r and r' differ at most in what a close message or the take of one changes.
  predicate SameView(r: Receiver, r': Receiver) {
    && r'.pc == r.pc && r'.state == r.state && r'.rx == r.rx && r'.fileptr == r.fileptr
    && Core(r'.mq) == Core(r.mq) && Core(r'.posted) == Core(r.posted)
  }

  lemma StageView(files: seq<File>, k: Conn, r: Receiver, cells: seq<Cell>, queue: seq<nat>, w: Writer)
    requires Stage(files, k, cells, queue, w) && SameView(k.rcv, r)
    ensures Stage(files, k.(rcv := r), cells, queue, w)
  {
    RowView(k, r);
    if k.cur < |files| {
      if k.phase.AwaitReady? {
        ReadyView(files[k.cur], k, r, cells, queue, w);
      } else if k.phase.Sending? {
        StreamView(files[k.cur], k, r, k.phase.sent, cells, queue, w);
      } else if k.phase.AwaitDone? {
        DoneView(files[k.cur], k, r, cells, queue, w);
      }
    }
    hide SameView, AwaitingReady, AwaitingDone, Streaming, Row;
  }

  lemma ReadyView(f: File, k: Conn, r: Receiver, cells: seq<Cell>, queue: seq<nat>, w: Writer)
    requires SameView(k.rcv, r)
    requires AwaitingReady(f, k, cells, queue, w)
    ensures AwaitingReady(f, k.(rcv := r), cells, queue, w)
  {
    RowView(k, r);
    LoadedView(f, k.rcv, r, cells, queue, w);
    hide Core, Row, Loaded, P.InfoLine, StatusLine;
  }

  lemma StreamView(f: File, k: Conn, r: Receiver, sent: nat, cells: seq<Cell>, queue: seq<nat>, w: Writer)
    requires SameView(k.rcv, r) && Streaming(f, k, sent, cells, queue, w)
    ensures Streaming(f, k.(rcv := r), sent, cells, queue, w)
  {
    RowView(k, r);
    LoadedView(f, k.rcv, r, cells, queue, w);
    hide Core, Row, Loaded, StatusLine;
  }

  lemma DoneView(f: File, k: Conn, r: Receiver, cells: seq<Cell>, queue: seq<nat>, w: Writer)
    requires SameView(k.rcv, r)
    requires AwaitingDone(f, k, cells, queue, w)
    ensures AwaitingDone(f, k.(rcv := r), cells, queue, w)
  {
    if Streaming(f, k, |f.bytes|, cells, queue, w) {
      StreamView(f, k, r, |f.bytes|, cells, queue, w);
      hide Streaming;
    } else {
      RowView(k, r);
      LoadedView(f, k.rcv, r, cells, queue, w);
      hide Core, Row, Loaded, StatusLine, Streaming;
    }
  }

  lemma RowView(k: Conn, r: Receiver)
    requires SameView(k.rcv, r)
    ensures forall pc, state, q, replies, posted, stats, stored ::
              Row(k.(rcv := r), pc, state, q, replies, posted, stats, stored)
              == Row(k, pc, state, q, replies, posted, stats, stored)
  {
    hide Core;
  }

  lemma LoadedView(f: File, r: Receiver, r': Receiver, cells: seq<Cell>, queue: seq<nat>, w: Writer)
    requires r'.fileptr == r.fileptr
    ensures Loaded(f, r, cells, queue, w) == Loaded(f, r', cells, queue, w)
    ensures Loaded(f, r, cells, queue, w) ==>
              r.fileptr.Some? && r.fileptr.value < |cells| && Got(r, cells) == Got(r', cells)
  {
  }

  lemma HangupStage(files: seq<File>, k: Conn, cells: seq<Cell>, queue: seq<nat>, w: Writer)
    requires Stage(files, k, cells, queue, w) && Discipline(k) && R.Enabled(k.rcv, Fail)
    ensures var k1 := Local(k, Fail); Stage(files, k1, cells, queue, w) && Discipline(k1)
  {
    hide Stage;
    CoreAppend(k.rcv.mq, MSG_NETWORK_CLOSE);
    CoreAppend(k.rcv.posted, MSG_NETWORK_CLOSE);
    CloseStep(k.rcv, Fail);
    hide Core, CloseOk;
    StageView(files, k, R.Next(k.rcv, Fail), cells, queue, w);
  }

  lemma CoreTail(q: seq<int>)
    requires OnlyLast(q, MSG_NETWORK_CLOSE) && q != []
    ensures if q[0] == MSG_NETWORK_CLOSE then q[1..] == [] && Core(q) == [] && Core(q[1..]) == []
            else Core(q) != [] && Core(q)[0] == q[0] && Core(q[1..]) == Core(q)[1..]
  {
    if q[0] != MSG_NETWORK_CLOSE && q[|q| - 1] == MSG_NETWORK_CLOSE {
      assert q[1..][..|q| - 2] == q[..|q| - 1][1..];
    }
  }

  // A step of the message thread that posts nothing keeps the discipline.
  lemma LocalDiscipline(k: Conn, e: Event)
    requires Discipline(k) && R.Enabled(k.rcv, e) && (e.Take? || e.SetState? || e.Reply? || e.Reset?)
    ensures Discipline(Local(k, e))
  {
    CloseStep(k.rcv, e);
    hide CloseOk;
  }

  // The message handed to its handler.
  lemma TakenStage(files: seq<File>, k: Conn, r: Receiver, cells: seq<Cell>, queue: seq<nat>, w: Writer)
    requires Stage(files, k, cells, queue, w) && Core(k.rcv.mq) != [] && k.rcv.pc == Idle
    requires |Core(k.rcv.mq)| == 1 ==> Core(r.mq) == []
    requires r == k.rcv.(mq := r.mq, pc := Handling(Core(k.rcv.mq)[0]))
    ensures Stage(files, k.(rcv := r), cells, queue, w)
  {
    hide P.InfoLine, Core, StatusLine;
  }

  lemma TakeMsgStage(files: seq<File>, k: Conn, cells: seq<Cell>, queue: seq<nat>, w: Writer)
    requires Stage(files, k, cells, queue, w) && R.Enabled(k.rcv, Take) && OnlyLast(k.rcv.mq, MSG_NETWORK_CLOSE)
    ensures Stage(files, Local(k, Take), cells, queue, w)
  {
    hide Stage;
    CoreTail(k.rcv.mq);
    hide Core, OnlyLast;
    if k.rcv.mq[0] == MSG_NETWORK_CLOSE {
      StageView(files, k, R.Next(k.rcv, Take), cells, queue, w);
    } else {
      assert |Core(k.rcv.mq)| == 1 ==> Core(k.rcv.mq)[1..] == [];
      TakenStage(files, k, R.Next(k.rcv, Take), cells, queue, w);
    }
  }

  lemma Notify1Stage(files: seq<File>, k: Conn, cells: seq<Cell>, queue: seq<nat>, w: Writer)
    requires Stage(files, k, cells, queue, w) && k.rcv.pc.Notify?
    ensures Stage(files, Local(k, SetState), cells, queue, w)
  {
    hide P.InfoLine, Core, StatusLine;
  }

  lemma FinishStage(files: seq<File>, k: Conn, cells: seq<Cell>, queue: seq<nat>, w: Writer)
    requires Stage(files, k, cells, queue, w) && k.rcv.pc.Resetting?
    ensures Stage(files, Local(k, Reset), cells, queue, w)
  {
    hide P.InfoLine, Core, StatusLine;
  }

  lemma Notify2Stage(files: seq<File>, k: Conn, cells: seq<Cell>, queue: seq<nat>, w: Writer)
    requires Stage(files, k, cells, queue, w) && k.rcv.pc.Replying?
    ensures Stage(files, Replied(k), cells, queue, w)
    ensures k.rcv.pc.status == if |k.stats| % 2 == 0 then READY else COMPLETE
  {
    hide P.InfoLine, Core, StatusLine;
  }

  // ---- the same, for the whole system ----

  lemma Part(plans: seq<seq<File>>, s: Sys, c: nat)
    requires Inv(plans, s) && c < |plans|
    ensures Stage(plans[c], s.conns[c], s.cells, s.queue, s.writer) && Discipline(s.conns[c])
    ensures CloseOk(s.conns[c].rcv) && OnlyLast(s.conns[c].rcv.mq, MSG_NETWORK_CLOSE)
  {
    assert ConnOk(plans, s, c);
  }

  lemma AnnounceKeeps(plans: seq<seq<File>>, s: Sys, c: nat)
    requires c < |plans| == |s.conns|
    requires s.conns[c].phase.Resting? && s.conns[c].cur < |plans[c]|
    requires Inv(plans, s)
    ensures Inv(plans, With(s, c, Announced(plans[c], s.conns[c])))
  {
    var k := s.conns[c];
    hide Inv, Stage, Discipline, CloseOk, P.InfoLine, With;
    Part(plans, s, c);
    AnnounceStage(plans[c], k, s.cells, s.queue, s.writer);
    ConnOnly(plans, s, c, Announced(plans[c], k));
  }

  lemma SendBytesKeeps(plans: seq<seq<File>>, s: Sys, c: nat, n: nat)
    requires c < |plans| == |s.conns|
    requires var k := s.conns[c];
             k.phase.Sending? && k.cur < |plans[c]| && n > 0 && k.phase.sent + n <= |plans[c][k.cur].bytes|
    requires Inv(plans, s)
    ensures Inv(plans, With(s, c, Sent(plans[c], s.conns[c], n)))
  {
    var k := s.conns[c];
    hide Inv, Stage, Discipline, CloseOk, P.InfoLine, With;
    Part(plans, s, c);
    SendBytesStage(plans[c], k, n, s.cells, s.queue, s.writer);
    ConnOnly(plans, s, c, Sent(plans[c], k, n));
  }

  lemma ConformingFiles(plans: seq<seq<File>>, c: nat)
    requires AllConform(plans) && c < |plans|
    ensures forall n | 0 <= n < |plans[c]| :: Conforming(plans[c][n])
  {
    hide Conforming;
  }

  lemma ReadReplyFrame(k: Conn)
    requires k.replies != []
    ensures ReadReply(k).rcv == k.rcv && ReadReply(k).fate == k.fate
    ensures Discipline(k) ==> Discipline(ReadReply(k))
  {
    hide StatusOf, CloseOk, Core;
  }

  lemma GetReplyKeeps(plans: seq<seq<File>>, s: Sys, c: nat)
    requires c < |plans| == |s.conns|
    requires AllConform(plans) && s.conns[c].replies != []
    requires Inv(plans, s)
    ensures Inv(plans, With(s, c, ReadReply(s.conns[c])))
  {
    var k := s.conns[c];
    hide Inv, Stage, Discipline, CloseOk, Conforming, StatusOf, ReadReply, With;
    ConformingFiles(plans, c);
    hide AllConform;
    Part(plans, s, c);
    ReadReplyFrame(k);
    GetReplyStage(plans[c], k, s.cells, s.queue, s.writer);
    ConnOnly(plans, s, c, ReadReply(k));
  }

  lemma HangupKeeps(plans: seq<seq<File>>, s: Sys, c: nat)
    requires c < |plans| == |s.conns|
    requires R.Enabled(s.conns[c].rcv, Fail)
    requires Inv(plans, s)
    ensures Inv(plans, With(s, c, Local(s.conns[c], Fail)))
  {
    var k := s.conns[c];
    hide Inv, Stage, Discipline, CloseOk, P.InfoLine, With;
    Part(plans, s, c);
    HangupStage(plans[c], k, s.cells, s.queue, s.writer);
    ConnOnly(plans, s, c, Local(k, Fail));
  }

  lemma LocalMeans(k: Conn, e: Event)
    requires R.Enabled(k.rcv, e) && !e.Parsed?
    ensures Local(k, e).rcv.fileptr == k.rcv.fileptr && Local(k, e).fate == k.fate
  {
  }

  lemma TakeMsgKeeps(plans: seq<seq<File>>, s: Sys, c: nat)
    requires c < |plans| == |s.conns|
    requires R.Enabled(s.conns[c].rcv, Take)
    requires Inv(plans, s)
    ensures Inv(plans, With(s, c, Local(s.conns[c], Take)))
  {
    var k := s.conns[c];
    LocalMeans(k, Take);
    hide Inv, Stage, Discipline, CloseOk, P.InfoLine, With, Local, R.Next;
    Part(plans, s, c);
    TakeMsgStage(plans[c], k, s.cells, s.queue, s.writer);
    LocalDiscipline(k, Take);
    ConnOnly(plans, s, c, Local(k, Take));
  }

  lemma Notify1Keeps(plans: seq<seq<File>>, s: Sys, c: nat)
    requires c < |plans| == |s.conns|
    requires R.Enabled(s.conns[c].rcv, SetState)
    requires Inv(plans, s)
    ensures Inv(plans, With(s, c, Local(s.conns[c], SetState)))
  {
    var k := s.conns[c];
    LocalMeans(k, SetState);
    hide Inv, Stage, Discipline, CloseOk, P.InfoLine, With, Local, R.Next;
    Part(plans, s, c);
    Notify1Stage(plans[c], k, s.cells, s.queue, s.writer);
    LocalDiscipline(k, SetState);
    ConnOnly(plans, s, c, Local(k, SetState));
  }

  lemma FinishKeeps(plans: seq<seq<File>>, s: Sys, c: nat)
    requires c < |plans| == |s.conns|
    requires R.Enabled(s.conns[c].rcv, Reset)
    requires Inv(plans, s)
    ensures Inv(plans, With(s, c, Local(s.conns[c], Reset)))
  {
    var k := s.conns[c];
    LocalMeans(k, Reset);
    hide Inv, Stage, Discipline, CloseOk, P.InfoLine, With, Local, R.Next;
    Part(plans, s, c);
    FinishStage(plans[c], k, s.cells, s.queue, s.writer);
    LocalDiscipline(k, Reset);
    ConnOnly(plans, s, c, Local(k, Reset));
  }

  lemma RepliedDiscipline(k: Conn)
    requires Discipline(k) && k.rcv.pc.Replying? && k.rcv.pc.status == if |k.stats| % 2 == 0 then READY else COMPLETE
    ensures Discipline(Replied(k)) && Replied(k).rcv.fileptr == k.rcv.fileptr && Replied(k).fate == k.fate
  {
    LocalDiscipline(k, Reply);
    OneMoreStatus(k.stats, k.rcv.pc.status);
    hide CloseOk, Core, StatusLine, Alternates, R.Next;
  }

  lemma OneMoreStatus(stats: seq<int>, status: int)
    requires Alternates(stats, READY, COMPLETE) && status == if |stats| % 2 == 0 then READY else COMPLETE
    ensures Alternates(stats + [status], READY, COMPLETE)
  {
  }

  predicate Answered(k: Conn, k1: Conn) {
    k.rcv.pc.Replying? && k1 == Replied(k)
  }

  lemma AnsweredStage(files: seq<File>, k: Conn, k1: Conn, cells: seq<Cell>, queue: seq<nat>, w: Writer)
    requires Answered(k, k1) && Stage(files, k, cells, queue, w) && Discipline(k)
    ensures Stage(files, k1, cells, queue, w) && Discipline(k1)
    ensures k1.rcv.fileptr == k.rcv.fileptr && k1.fate == k.fate
  {
    hide Stage, Discipline, StatusLine, Replied;
    Notify2Stage(files, k, cells, queue, w);
    RepliedDiscipline(k);
  }

  lemma Notify2Keeps(plans: seq<seq<File>>, s: Sys, c: nat, k1: Conn)
    requires c < |plans| == |s.conns| && Answered(s.conns[c], k1)
    requires Inv(plans, s)
    ensures Inv(plans, With(s, c, k1))
  {
    hide Inv, Stage, Discipline, CloseOk, Answered, With;
    Part(plans, s, c);
    AnsweredStage(plans[c], s.conns[c], k1, s.cells, s.queue, s.writer);
    ConnOnly(plans, s, c, k1);
  }
}
