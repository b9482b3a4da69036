// Main results on progress: while a client waits, its handshake advances, unless the server
// dropped the client's fileinfo; and exactly when that happens.
module TransferProgress {
  import opened Options
  import opened FileStore
  import opened Network
  import opened R = Receiver
  import opened Transfer
  import opened TransferInv
  import opened TransferSteps
  import opened TransferShared
  import opened TransferRuns
  import opened TransferSafety
  import P = Protocol

  // ---- the measure ----

  function PcRank(pc: Pc): nat {
    match pc
    case Idle => 0
    case Handling(_) => 4
    case Notify(_) => 3
    case Replying(_) => 2
    case Resetting => 1
  }

  function Work(r: Receiver): nat {
    5 * |r.mq| + PcRank(r.pc)
  }

  // Phase of the client, bytes still to travel, and work left for the message thread, so weighted
  // that it bounds the number of steps left. A connection that is up has a close message to come.
  function MeasureOf(files: seq<File>, k: Conn): nat {
    PhaseRank(files, k) + 6 * |k.wire| + Work(k.rcv) + if k.rcv.armed then 5 else 0
  }

  function PhaseRank(files: seq<File>, k: Conn): nat {
    var size := if k.cur < |files| then |files[k.cur].bytes| else 0;
    match k.phase
    case Resting => 0
    case AwaitReady => 12 * size + 2
    case Sending(sent) => 12 * (if sent <= size then size - sent else 0) + 1
    case AwaitDone => 1
  }

  // ---- lost fileinfos ----

  // The client waits for status 1, but its line was read and thrown away.
  predicate Lost(k: Conn) {
    k.phase.AwaitReady? && k.wire == "" && Core(k.rcv.mq) == [] && k.replies == []
    && ((k.rcv.pc == Idle && k.rcv.state == WAITING) || (k.rcv.pc == Resetting && k.rcv.state == COMPLETE))
  }

  // The network thread reads a line of connection c while state_ is COMPLETE.
  predicate Drops(s: Sys, l: Label, c: nat) {
    l.Deliver? && l.c == c && c < |s.conns| && s.conns[c].rcv.state == COMPLETE
  }

  lemma DeliverEffect(plans: seq<seq<File>>, s: Sys, c: nat, n: nat)
    requires Inv(plans, s) && c < |plans| && CanStep(plans, s, Deliver(c, n))
    ensures var k := s.conns[c];
            var k1 := Step(plans, s, Deliver(c, n)).conns[c];
            k1.phase == k.phase && k1.cur == k.cur && k1.replies == k.replies && k1.wire == k.wire[n..] && n >= 1
            && k1.rcv.pc == k.rcv.pc && k1.rcv.state == k.rcv.state
            && k1.rcv.armed == k.rcv.armed && |k1.rcv.mq| <= |k.rcv.mq| + 1
            && (k.rcv.state == COMPLETE ==> k1.rcv.mq == k.rcv.mq)
            && (k.rcv.state == WAITING ==> k1.rcv.mq == k.rcv.mq + [MSG_NETWORK_RECEIVE])
  {
    hide Inv, Arrived;
  }

  // A step of connection c other than the next fileinfo and a hangup.
  predicate Works(l: Label, c: nat) {
    OfConn(l) && l.c == c && !l.Announce? && !l.Hangup?
  }

  lemma {:induction false} StepFrame(plans: seq<seq<File>>, s: Sys, l: Label, c: nat)
    requires CanStep(plans, s, l) && c < |s.conns| && (OfConn(l) ==> l.c != c)
    ensures var t := Step(plans, s, l); |t.conns| == |s.conns| && t.conns[c] == s.conns[c]
  {
    hide P.Resolve, LineText, Arrived, Announced, Sent, ReadReply, Replied, Local;
  }

  // ---- every step of the handshake makes the measure smaller ----

  lemma ReplyDecreases(files: seq<File>, k: Conn, cells: seq<Cell>, queue: seq<nat>, w: Writer)
    requires Stage(files, k, cells, queue, w) && k.replies != [] && forall n | 0 <= n < |files| :: Conforming(files[n])
    ensures MeasureOf(files, ReadReply(k)) < MeasureOf(files, k)
  {
    hide P.InfoLine, Core, StatusLine, StatusOf, Streaming, AtRest;
    if k.phase.AwaitReady? {
      assert Conforming(files[k.cur]);
      ReadyReply(files[k.cur], k, cells, queue, w);
    } else if k.phase.AwaitDone? {
      hide Loaded;
      ReplyNotStreaming(files[k.cur], k, cells, queue, w);
      DoneReply(files[k.cur], k, cells, queue, w);
    } else {
      NoReply(files, k, cells, queue, w);
    }
  }

  lemma ReplyNotStreaming(f: File, k: Conn, cells: seq<Cell>, queue: seq<nat>, w: Writer)
    requires k.replies != []
    ensures !Streaming(f, k, |f.bytes|, cells, queue, w)
  {
  }

  lemma NoReply(files: seq<File>, k: Conn, cells: seq<Cell>, queue: seq<nat>, w: Writer)
    requires Stage(files, k, cells, queue, w) && (k.phase.Resting? || k.phase.Sending?)
    ensures k.replies == []
  {
  }

  // What the handler makes of the line, as the receiver sees it.
  function ParseOutcome(s: Sys, r: Receiver): R.Outcome
    requires PtrOk(s, r)
  {
    match P.Resolve(LineText(r.rx))
    case Some(FileInfo(info)) =>
      Adopted(if Reusable(s.cells, s.refs, r.fileptr, info.filesize) then r.fileptr.value else |s.cells|)
    case Some(_) => Ignored
    case None => Bad
  }

  lemma ParseIsLocal(s: Sys, c: nat, junk: string)
    requires c < |s.conns| && PtrOk(s, s.conns[c].rcv) && s.conns[c].rcv.pc == Handling(MSG_NETWORK_RECEIVE)
    ensures var k, t := s.conns[c], ParseStep(s, c, junk);
            |t.conns| == |s.conns| && t.conns[c] == Local(k, Parsed(ParseOutcome(s, k.rcv)))
  {
    hide P.Resolve, LineText, R.Next, Replaced;
  }

  lemma ParsedRank(k: Conn, o: R.Outcome)
    requires k.rcv.pc == Handling(MSG_NETWORK_RECEIVE)
    ensures var k1 := Local(k, Parsed(o));
            k1.phase == k.phase && k1.cur == k.cur && k1.wire == k.wire && k1.replies == k.replies
            && k1.stats == k.stats && k1.fate == k.fate
            && k1.rcv.armed == k.rcv.armed && k1.rcv.mq == k.rcv.mq
            && PcRank(k1.rcv.pc) < PcRank(k.rcv.pc) && (k1.rcv.pc == Idle || k1.rcv.pc == Notify(READY))
            && (o.Adopted? ==> k1.rcv.pc == Notify(READY))
  {
  }

  lemma ParseRank(s: Sys, c: nat, junk: string)
    requires c < |s.conns| && PtrOk(s, s.conns[c].rcv) && s.conns[c].rcv.pc == Handling(MSG_NETWORK_RECEIVE)
    ensures var k, t := s.conns[c], ParseStep(s, c, junk);
            |t.conns| == |s.conns| && var k1 := t.conns[c];
            k1.phase == k.phase && k1.cur == k.cur && k1.wire == k.wire && k1.replies == k.replies
            && k1.stats == k.stats && k1.fate == k.fate
            && k1.rcv.armed == k.rcv.armed && k1.rcv.mq == k.rcv.mq
            && PcRank(k1.rcv.pc) < PcRank(k.rcv.pc) && (k1.rcv.pc == Idle || k1.rcv.pc == Notify(READY))
            && (ParseOutcome(s, k.rcv).Adopted? ==> k1.rcv.pc == Notify(READY))
  {
    hide ParseStep, ParseOutcome, Local, PcRank;
    ParseIsLocal(s, c, junk);
    ParsedRank(s.conns[c], ParseOutcome(s, s.conns[c].rcv));
  }

  lemma StoreRank(s: Sys, c: nat)
    requires c < |s.conns| && PtrOk(s, s.conns[c].rcv) && s.conns[c].rcv.pc == Handling(MSG_RECEIVE_COMPLETE)
    requires s.conns[c].rcv.fileptr.Some?
    ensures var k, t := s.conns[c], StoreStep(s, c);
            |t.conns| == |s.conns| && var k1 := t.conns[c];
            k1.phase == k.phase && k1.cur == k.cur && k1.wire == k.wire && k1.replies == k.replies
            && k1.rcv.armed == k.rcv.armed && k1.rcv.mq == k.rcv.mq && k1.rcv.pc.Notify?
  {
  }

  lemma DeliverDecreases(plans: seq<seq<File>>, s: Sys, c: nat, n: nat)
    requires Inv(plans, s) && c < |plans| && CanStep(plans, s, Deliver(c, n))
    ensures var t := Step(plans, s, Deliver(c, n));
            |t.conns| == |plans| && MeasureOf(plans[c], t.conns[c]) < MeasureOf(plans[c], s.conns[c])
  {
    hide Inv, Arrived;
    StillInv(plans, s);
    DeliverEffect(plans, s, c, n);
  }

  lemma SendDecreases(files: seq<File>, k: Conn, n: nat)
    requires k.phase.Sending? && k.cur < |files| && n > 0 && k.phase.sent + n <= |files[k.cur].bytes|
    ensures MeasureOf(files, Sent(files, k, n)) < MeasureOf(files, k)
  {
  }

  lemma LocalWork(k: Conn, e: Event)
    requires R.Enabled(k.rcv, e) && (e.Take? || e.SetState? || e.Reply? || e.Reset?)
    ensures var k1 := Local(k, e);
            Work(k1.rcv) < Work(k.rcv) && k1.rcv.armed == k.rcv.armed
            && k1.phase == k.phase && k1.cur == k.cur && k1.wire == k.wire
  {
  }

  lemma RepliedMeasure(files: seq<File>, k: Conn)
    requires k.rcv.pc.Replying?
    ensures MeasureOf(files, Replied(k)) == MeasureOf(files, Local(k, Reply))
  {
    hide StatusLine, Work;
  }

  lemma LocalDecreases(files: seq<File>, k: Conn, e: Event)
    requires R.Enabled(k.rcv, e) && (e.Take? || e.SetState? || e.Reply? || e.Reset?)
    ensures MeasureOf(files, Local(k, e)) < MeasureOf(files, k)
  {
    LocalWork(k, e);
    hide Work, Local;
  }

  lemma HandlerDecreases(plans: seq<seq<File>>, s: Sys, l: Label, c: nat)
    requires CanStep(plans, s, l) && c < |plans| && (l.Parse? || l.Store?) && l.c == c
    ensures var t := Step(plans, s, l);
            |t.conns| == |plans| && MeasureOf(plans[c], t.conns[c]) < MeasureOf(plans[c], s.conns[c])
  {
    hide P.Resolve, LineText, ParseStep, StoreStep;
    if l.Parse? {
      ParseRank(s, c, l.junk);
    } else {
      StoreRank(s, c);
    }
  }

  lemma ThreadDecreases(plans: seq<seq<File>>, s: Sys, l: Label, c: nat)
    requires CanStep(plans, s, l) && c < |plans| && (l.TakeMsg? || l.Notify1? || l.Notify2? || l.Finish?) && l.c == c
    ensures var t := Step(plans, s, l);
            |t.conns| == |plans| && MeasureOf(plans[c], t.conns[c]) < MeasureOf(plans[c], s.conns[c])
  {
    hide MeasureOf, Local, Replied;
    var e := if l.TakeMsg? then Take else if l.Notify1? then SetState else if l.Notify2? then Reply else Reset;
    LocalDecreases(plans[c], s.conns[c], e);
    if l.Notify2? {
      RepliedMeasure(plans[c], s.conns[c]);
    }
  }

  lemma ClientDecreases(plans: seq<seq<File>>, s: Sys, l: Label, c: nat)
    requires Inv(plans, s) && AllConform(plans) && CanStep(plans, s, l)
    requires c < |plans| && (l.SendBytes? || l.GetReply?) && l.c == c
    ensures var t := Step(plans, s, l);
            |t.conns| == |plans| && MeasureOf(plans[c], t.conns[c]) < MeasureOf(plans[c], s.conns[c])
  {
    var k := s.conns[c];
    var files := plans[c];
    assert forall n | 0 <= n < |files| :: Conforming(files[n]);
    Part(plans, s, c);
    hide Inv, Stage, Discipline, CloseOk, AllConform, Conforming, ReadReply, Sent, MeasureOf;
    if l.SendBytes? {
      SendDecreases(files, k, l.n);
    } else {
      ReplyDecreases(files, k, s.cells, s.queue, s.writer);
    }
  }

  // Every step of a waiting client's connection, by any thread, makes its measure smaller;
  // the steps of other connections and of the writer leave it as it is (StepFrame).
  lemma WorksDecreases(plans: seq<seq<File>>, s: Sys, l: Label, c: nat)
    requires Inv(plans, s) && AllConform(plans) && CanStep(plans, s, l) && c < |plans| && Works(l, c)
    ensures var t := Step(plans, s, l);
            |t.conns| == |plans| && MeasureOf(plans[c], t.conns[c]) < MeasureOf(plans[c], s.conns[c])
  {
    hide Inv, AllConform, CanStep, Step, MeasureOf;
    match l {
      case SendBytes(_, n) => ClientDecreases(plans, s, l, c);
      case GetReply(_) => ClientDecreases(plans, s, l, c);
      case Deliver(_, n) => DeliverDecreases(plans, s, c, n);
      case Parse(_, _) => HandlerDecreases(plans, s, l, c);
      case Store(_) => HandlerDecreases(plans, s, l, c);
      case _ => ThreadDecreases(plans, s, l, c);
    }
  }

  // ---- a step is enabled, unless the fileinfo was lost ----

  lemma LineIsShort(f: File)
    requires Conforming(f)
    ensures 1 <= |P.InfoLine(InfoMsg(f))| <= TCP_PACK_SIZE
  {
    hide P.CleanInfo;
  }

  // With an idle message thread and nothing queued, something is on its way.
  lemma IdleStage(files: seq<File>, k: Conn, cells: seq<Cell>, queue: seq<nat>, w: Writer)
    requires Stage(files, k, cells, queue, w) && !k.phase.Resting? && k.rcv.pc == Idle
    requires Core(k.rcv.mq) == [] && k.replies == [] && !Lost(k)
    ensures k.cur < |files|
    ensures match k.phase
            case AwaitReady => k.wire == P.InfoLine(InfoMsg(files[k.cur])) && k.rcv.state == WAITING
            case Sending(sent) => sent < |files[k.cur].bytes|
            case _ => k.wire != "" && k.rcv.state == READY
  {
    hide P.InfoLine, Core, StatusLine;
  }

  lemma CanDeliver(plans: seq<seq<File>>, s: Sys, c: nat, n: nat)
    requires c < |plans| == |s.conns|
    requires var k := s.conns[c];
             1 <= n <= |k.wire| && n <= TCP_PACK_SIZE && k.rcv.armed && (k.phase.AwaitReady? ==> n == |k.wire|)
             && (k.rcv.state == READY ==> k.rcv.fileptr.Some? && PtrOk(s, k.rcv))
    ensures CanStep(plans, s, Deliver(c, n))
  {
  }

  lemma CanSend(plans: seq<seq<File>>, s: Sys, c: nat)
    requires c < |plans| == |s.conns|
    requires var k := s.conns[c]; k.phase.Sending? && k.cur < |plans[c]| && k.phase.sent < |plans[c][k.cur].bytes|
    ensures CanStep(plans, s, SendBytes(c, 1))
  {
  }

  lemma IdleCanWork(plans: seq<seq<File>>, s: Sys, c: nat) returns (l: Label)
    requires Inv(plans, s) && AllConform(plans) && c < |plans| == |s.conns|
    requires var k := s.conns[c];
             k.rcv.armed && !k.phase.Resting? && !Lost(k) && k.rcv.pc == Idle && k.rcv.mq == [] && k.replies == []
    ensures Works(l, c) && CanStep(plans, s, l) && !Drops(s, l, c)
  {
    var k := s.conns[c];
    assert Core(k.rcv.mq) == [];
    hide Inv, AllConform, Conforming, Stage, CloseOk, P.InfoLine, CanStep, Lost, Discipline, Core;
    Part(plans, s, c);
    IdleStage(plans[c], k, s.cells, s.queue, s.writer);
    if k.phase.Sending? {
      l := SendBytes(c, 1);
      CanSend(plans, s, c);
    } else if k.phase.AwaitReady? {
      ConformingFiles(plans, c);
      LineIsShort(plans[c][k.cur]);
      l := Deliver(c, |k.wire|);
      CanDeliver(plans, s, c, |k.wire|);
    } else {
      l := DeliverSome(plans, s, c);
    }
  }

  lemma DeliverSome(plans: seq<seq<File>>, s: Sys, c: nat) returns (l: Label)
    requires Inv(plans, s) && c < |plans| == |s.conns|
    requires var k := s.conns[c]; k.wire != "" && k.rcv.armed && k.rcv.state == READY && !k.phase.AwaitReady?
    ensures Works(l, c) && CanStep(plans, s, l) && !Drops(s, l, c)
  {
    var k := s.conns[c];
    hide Inv, CanStep;
    var n := if |k.wire| <= TCP_PACK_SIZE then |k.wire| else TCP_PACK_SIZE;
    l := Deliver(c, n);
    DeliverData(plans, s, c, n);
    CanDeliver(plans, s, c, n);
  }

  lemma HandlerCanWork(plans: seq<seq<File>>, s: Sys, c: nat) returns (l: Label)
    requires Inv(plans, s) && AllConform(plans) && c < |plans| == |s.conns|
    requires s.conns[c].rcv.pc.Handling?
    requires var m := s.conns[c].rcv.pc.msg; m == MSG_NETWORK_RECEIVE || m == MSG_RECEIVE_COMPLETE
    ensures Works(l, c) && CanStep(plans, s, l) && !Drops(s, l, c)
  {
    hide P.Resolve, LineText, Inv, AllConform, Row;
    var k := s.conns[c];
    if k.rcv.pc.msg == MSG_NETWORK_RECEIVE {
      ParsedLine(plans, s, c);
      l := Parse(c, seq(|plans[c][k.cur].bytes|, i => ' '));
    } else {
      StoreKeeps(plans, s, c);
      l := Store(c);
    }
  }

  lemma HandlingKnown(files: seq<File>, k: Conn, cells: seq<Cell>, queue: seq<nat>, w: Writer)
    requires Stage(files, k, cells, queue, w) && k.rcv.pc.Handling?
    ensures k.rcv.pc.msg == MSG_NETWORK_RECEIVE || k.rcv.pc.msg == MSG_RECEIVE_COMPLETE
  {
    hide P.InfoLine, Core, StatusLine, Loaded;
  }

  lemma ThreadCanWork(plans: seq<seq<File>>, s: Sys, c: nat) returns (l: Label)
    requires c < |plans| == |s.conns|
    requires var k := s.conns[c];
             k.rcv.pc.Notify? || k.rcv.pc.Replying? || k.rcv.pc.Resetting?
                 || (k.rcv.pc == Idle && (k.rcv.mq != [] || k.replies != []))
    ensures Works(l, c) && CanStep(plans, s, l) && !Drops(s, l, c)
  {
    var k := s.conns[c];
    l := if k.rcv.pc.Notify? then Notify1(c)
         else if k.rcv.pc.Replying? then Notify2(c)
         else if k.rcv.pc.Resetting? then Finish(c)
         else if k.rcv.mq != [] then TakeMsg(c)
         else GetReply(c);
  }

  lemma CanWork(plans: seq<seq<File>>, s: Sys, c: nat) returns (l: Label)
    requires Inv(plans, s) && AllConform(plans) && c < |plans| == |s.conns|
    requires s.conns[c].rcv.armed && !s.conns[c].phase.Resting?
    requires !Lost(s.conns[c]) || s.conns[c].rcv.pc.Resetting?
    ensures Works(l, c) && CanStep(plans, s, l) && !Drops(s, l, c)
  {
    var k := s.conns[c];
    Part(plans, s, c);
    hide Inv, Stage, AllConform, CloseOk, Discipline, CanStep, Works, Lost, Drops;
    if k.rcv.pc.Handling? {
      HandlingKnown(plans[c], k, s.cells, s.queue, s.writer);
      l := HandlerCanWork(plans, s, c);
    } else if k.rcv.pc == Idle && k.rcv.mq == [] && k.replies == [] {
      l := IdleCanWork(plans, s, c);
    } else {
      l := ThreadCanWork(plans, s, c);
    }
  }

  // A connection that lost a fileinfo comes to a halt.
  lemma LostIsStuck(plans: seq<seq<File>>, s: Sys, l: Label, c: nat)
    requires c < |plans| == |s.conns| && Lost(s.conns[c]) && s.conns[c].rcv.pc == Idle
    requires CloseOk(s.conns[c].rcv) && s.conns[c].rcv.armed
    requires Works(l, c)
    ensures !CanStep(plans, s, l)
  {
    assert s.conns[c].rcv.mq == [];
  }

  // ---- when a fileinfo is lost ----

  lemma DeliverLost(plans: seq<seq<File>>, s: Sys, c: nat, n: nat)
    requires Inv(plans, s) && c < |plans| && CanStep(plans, s, Deliver(c, n))
    ensures !Lost(s.conns[c]) && (Lost(Step(plans, s, Deliver(c, n)).conns[c]) <==> s.conns[c].rcv.state == COMPLETE)
  {
    var k := s.conns[c];
    Part(plans, s, c);
    DeliverEffect(plans, s, c, n);
    if k.rcv.state == READY {
      StreamingNow(plans[c], k, s.cells, s.queue, s.writer);
      hide Inv, Stage, CloseOk, Streaming, Step;
    } else {
      LineWaits(plans[c], k, s.cells, s.queue, s.writer);
      CoreAppend(k.rcv.mq, MSG_NETWORK_RECEIVE);
      hide Inv, Stage, P.InfoLine, Step, Core, CloseOk;
    }
  }

  lemma ThreadLost(k: Conn, e: Event)
    requires R.Enabled(k.rcv, e) && CloseOk(k.rcv) && (e.Take? || e.SetState? || e.Reset? || e.Fail?)
    requires k.rcv.pc.Resetting? ==> k.rcv.state == COMPLETE
    ensures Lost(Local(k, e)) <==> Lost(k)
  {
    if e.Take? {
      CoreTail(k.rcv.mq);
    } else if e.Fail? {
      CoreAppend(k.rcv.mq, MSG_NETWORK_CLOSE);
    }
    hide Core, CloseOk, OnlyLast;
  }

  lemma ResettingState(files: seq<File>, k: Conn, cells: seq<Cell>, queue: seq<nat>, w: Writer)
    requires Stage(files, k, cells, queue, w) && k.rcv.pc.Resetting?
    ensures k.rcv.state == COMPLETE
  {
    hide P.InfoLine, Core, StatusLine, Loaded;
  }

  lemma ReplyLost(files: seq<File>, k: Conn, cells: seq<Cell>, queue: seq<nat>, w: Writer)
    requires Stage(files, k, cells, queue, w) && k.replies != [] && forall n | 0 <= n < |files| :: Conforming(files[n])
    ensures !Lost(k) && !Lost(ReadReply(k))
  {
    hide P.InfoLine, Core, StatusLine, StatusOf, Streaming, AtRest;
    if k.phase.AwaitReady? {
      assert Conforming(files[k.cur]);
      ReadyReply(files[k.cur], k, cells, queue, w);
    } else if k.phase.AwaitDone? {
      hide Loaded;
      ReplyNotStreaming(files[k.cur], k, cells, queue, w);
      DoneReply(files[k.cur], k, cells, queue, w);
    }
  }

  lemma HandlerLost(plans: seq<seq<File>>, s: Sys, l: Label, c: nat)
    requires c < |plans| == |s.conns| && CanStep(plans, s, l) && (l.Parse? || l.Store?) && l.c == c
    requires Inv(plans, s) && AllConform(plans)
    ensures !Lost(s.conns[c]) && |Step(plans, s, l).conns| == |plans| && !Lost(Step(plans, s, l).conns[c])
  {
    hide Inv, AllConform, P.Resolve, LineText, ParseStep, StoreStep, Core, Row;
    if l.Parse? {
      ParsedLine(plans, s, c);
      ParseRank(s, c, l.junk);
    } else {
      StoreRank(s, c);
    }
  }

  lemma RepliedLost(k: Conn)
    requires k.rcv.pc.Replying?
    ensures !Lost(k) && !Lost(Replied(k))
  {
    hide StatusLine, Core;
  }

  lemma StepHangup(plans: seq<seq<File>>, s: Sys, c: nat)
    requires c < |plans| == |s.conns| && CanStep(plans, s, Hangup(c))
    ensures R.Enabled(s.conns[c].rcv, Fail) && Step(plans, s, Hangup(c)).conns == s.conns[c := Local(s.conns[c], Fail)]
  {
    hide Local;
  }

  lemma StepTakeMsg(plans: seq<seq<File>>, s: Sys, c: nat)
    requires c < |plans| == |s.conns| && CanStep(plans, s, TakeMsg(c))
    ensures R.Enabled(s.conns[c].rcv, Take) && Step(plans, s, TakeMsg(c)).conns == s.conns[c := Local(s.conns[c], Take)]
  {
    hide Local;
  }

  lemma StepNotify1(plans: seq<seq<File>>, s: Sys, c: nat)
    requires c < |plans| == |s.conns| && CanStep(plans, s, Notify1(c))
    ensures R.Enabled(s.conns[c].rcv, SetState)
    ensures Step(plans, s, Notify1(c)).conns == s.conns[c := Local(s.conns[c], SetState)]
  {
    hide Local;
  }

  lemma StepNotify2(plans: seq<seq<File>>, s: Sys, c: nat)
    requires c < |plans| == |s.conns| && CanStep(plans, s, Notify2(c))
    ensures s.conns[c].rcv.pc.Replying?
    ensures var t := Step(plans, s, Notify2(c)); |t.conns| == |plans| && t.conns[c] == Replied(s.conns[c])
  {
    hide Replied;
  }

  lemma StepReset(plans: seq<seq<File>>, s: Sys, c: nat)
    requires c < |plans| == |s.conns| && CanStep(plans, s, Finish(c))
    ensures R.Enabled(s.conns[c].rcv, Reset)
            && Step(plans, s, Finish(c)).conns == s.conns[c := Local(s.conns[c], Reset)]
  {
    hide Local;
  }

  lemma ThreadLostStep(plans: seq<seq<File>>, s: Sys, l: Label, c: nat)
    requires Inv(plans, s) && CanStep(plans, s, l) && c < |plans| == |s.conns|
    requires (l.Hangup? || l.TakeMsg? || l.Notify1? || l.Notify2? || l.Finish?) && l.c == c
    ensures |Step(plans, s, l).conns| == |plans| && (Lost(Step(plans, s, l).conns[c]) <==> Lost(s.conns[c]))
  {
    var k := s.conns[c];
    hide Inv, Stage, CloseOk, Discipline, Core, Lost, Replied, Local, Step, CanStep;
    Part(plans, s, c);
    if k.rcv.pc.Resetting? {
      ResettingState(plans[c], k, s.cells, s.queue, s.writer);
    }
    if l.Notify2? {
      StepNotify2(plans, s, c);
      RepliedLost(k);
    } else if l.Hangup? {
      StepHangup(plans, s, c);
      ThreadLost(k, Fail);
    } else if l.TakeMsg? {
      StepTakeMsg(plans, s, c);
      ThreadLost(k, Take);
    } else if l.Notify1? {
      StepNotify1(plans, s, c);
      ThreadLost(k, SetState);
    } else {
      StepReset(plans, s, c);
      ThreadLost(k, Reset);
    }
  }

  lemma ClientLost(plans: seq<seq<File>>, s: Sys, l: Label, c: nat)
    requires Inv(plans, s) && AllConform(plans) && CanStep(plans, s, l) && c < |plans| == |s.conns|
    requires (l.Announce? || l.SendBytes? || l.GetReply?) && l.c == c
    ensures !Lost(s.conns[c]) && !Lost(Step(plans, s, l).conns[c])
  {
    if l.Announce? {
      hide Inv, Lost, Step;
      AnnounceLost(plans, s, c);
    } else if l.GetReply? {
      assert forall n | 0 <= n < |plans[c]| :: Conforming(plans[c][n]);
      Part(plans, s, c);
      hide Inv, AllConform, Stage, Conforming, CloseOk, Discipline, Lost, ReadReply;
      ReplyLost(plans[c], s.conns[c], s.cells, s.queue, s.writer);
    } else {
      hide Inv, Core;
    }
  }

  lemma LostStep(plans: seq<seq<File>>, s: Sys, l: Label, c: nat)
    requires Inv(plans, s) && AllConform(plans) && CanStep(plans, s, l) && c < |plans| == |s.conns|
    ensures |Step(plans, s, l).conns| == |plans|
    ensures Lost(Step(plans, s, l).conns[c]) <==> Lost(s.conns[c]) || Drops(s, l, c)
  {
    StepLength(plans, s, l);
    hide Inv, AllConform, CanStep, Step, Lost;
    if !OfConn(l) || l.c != c {
      StepFrame(plans, s, l, c);
    } else if l.Announce? || l.SendBytes? || l.GetReply? {
      ClientLost(plans, s, l, c);
    } else if l.Deliver? {
      DeliverLost(plans, s, c, l.n);
    } else if l.Parse? || l.Store? {
      HandlerLost(plans, s, l, c);
    } else {
      ThreadLostStep(plans, s, l, c);
    }
  }

  lemma AnnounceLost(plans: seq<seq<File>>, s: Sys, c: nat)
    requires AllConform(plans) && c < |plans| && CanStep(plans, s, Announce(c))
    ensures !Lost(s.conns[c]) && !Lost(Step(plans, s, Announce(c)).conns[c])
  {
    assert Conforming(plans[c][s.conns[c].cur]);
    hide P.InfoLine, Core;
    LineIsShort(plans[c][s.conns[c].cur]);
  }

  // ---- runs ----

  // Step number i of the run drops a fileinfo of connection c.
  predicate DropsAt(plans: seq<seq<File>>, ls: seq<Label>, c: nat, i: nat)
    requires IsRun(plans, ls) && i < |ls|
  {
    RunPrefix(plans, ls, i);
    Drops(After(plans, ls[..i]), ls[i], c)
  }

  // A fileinfo of connection c is lost if and only if some step of the run read a line of c
  // while state_ was COMPLETE.
  lemma {:induction false} LostExactly(plans: seq<seq<File>>, ls: seq<Label>, c: nat)
    requires IsRun(plans, ls) && c < |plans|
    ensures |After(plans, ls).conns| == |plans|
    ensures Lost(After(plans, ls).conns[c]) <==> exists i :: 0 <= i < |ls| && DropsAt(plans, ls, c, i)
    decreases |ls|
  {
    hide Inv, AllConform, CanStep, Step, Lost, Drops;
    RunInv(plans, ls);
    StillInv(plans, After(plans, ls));
    if ls == [] {
      NothingLost(plans, c);
    } else {
      var n := |ls| - 1;
      var front := ls[..n];
      RunPrefix(plans, ls, n);
      assert ls == front + [ls[n]];
      RunAppend(plans, Init(|plans|), front, ls[n]);
      RunInv(plans, front);
      LostExactly(plans, front, c);
      LostStep(plans, After(plans, front), ls[n], c);
      forall i | 0 <= i < n
        ensures DropsAt(plans, front, c, i) <==> DropsAt(plans, ls, c, i)
      {
        assert front[..i] == ls[..i];
      }
      assert DropsAt(plans, ls, c, n) <==> Drops(After(plans, front), ls[n], c);
      hide DropsAt;
      if i :| 0 <= i < n && DropsAt(plans, front, c, i) {
        assert DropsAt(plans, ls, c, i);
      }
      if i :| 0 <= i < |ls| && DropsAt(plans, ls, c, i) {
        assert i < n ==> DropsAt(plans, front, c, i);
      }
    }
  }

  lemma NothingLost(plans: seq<seq<File>>, c: nat)
    requires c < |plans|
    ensures !Lost(Init(|plans|).conns[c])
  {
  }

  // In any reachable state, for a client that waits on a connection that is up: some step of its
  // handshake is enabled, unless a fileinfo of it was read while state_ was COMPLETE and the message
  // thread is idle, in which case none is. (WorksDecreases: each such step shrinks the measure.)
  lemma HandshakeProgress(plans: seq<seq<File>>, ls: seq<Label>, c: nat)
    requires IsRun(plans, ls) && c < |plans| == |After(plans, ls).conns|
    requires var k := After(plans, ls).conns[c]; k.rcv.armed && !k.phase.Resting?
    ensures var s := After(plans, ls);
            (exists l :: Works(l, c) && CanStep(plans, s, l))
            <==> !(s.conns[c].rcv.pc == Idle && exists i :: 0 <= i < |ls| && DropsAt(plans, ls, c, i))
  {
    var s := After(plans, ls);
    hide Inv, CanStep, Works, CloseOk;
    RunInv(plans, ls);
    LostExactly(plans, ls, c);
    Part(plans, s, c);
    if Lost(s.conns[c]) && s.conns[c].rcv.pc == Idle {
      forall l | Works(l, c)
        ensures !CanStep(plans, s, l)
      {
        LostIsStuck(plans, s, l, c);
      }
    } else {
      var l := CanWork(plans, s, c);
    }
  }
}
