// What a scheduler can make of a handshake: it can always be completed, and it can always be halted,
// because between writing status 2 and the last line of on_receive_complete the server throws away
// the next fileinfo.
module TransferDeadlock {
  import opened Options
  import opened FileStore
  import opened Network
  import opened R = Receiver
  import opened Transfer
  import opened TransferInv
  import opened TransferSteps
  import opened TransferShared
  import opened TransferRuns
  import opened TransferSafety
  import opened TransferProgress
  import T = CText
  import P = Protocol

  // ---- single steps ----

  // What a step of the handshake does to the counters of the connection.
  predicate Effect(k: Conn, k1: Conn, l: Label) {
    k1.rcv.armed == k.rcv.armed
    && (!l.GetReply? ==> k1.cur == k.cur && (k1.phase.Resting? <==> k.phase.Resting?))
    && (!l.Notify2? ==> |k1.stats| == |k.stats|)
  }

  lemma HandlerEffect(plans: seq<seq<File>>, s: Sys, l: Label, c: nat)
    requires CanStep(plans, s, l) && c < |plans| == |s.conns| && (l.Deliver? || l.Parse? || l.Store?) && l.c == c
    ensures var t := Step(plans, s, l); |t.conns| == |plans| && Effect(s.conns[c], t.conns[c], l)
  {
    hide P.Resolve, LineText, ParseStep, StoreStep, DeliverStep, Effect;
    if l.Parse? {
      ParseEffect(s, c, l.junk);
    } else if l.Store? {
      StoreEffect(s, c);
    } else {
      ChunkEffect(s, c, l.n);
    }
  }

  lemma ParseEffect(s: Sys, c: nat, junk: string)
    requires c < |s.conns| && PtrOk(s, s.conns[c].rcv) && s.conns[c].rcv.pc == Handling(MSG_NETWORK_RECEIVE)
    ensures var t := ParseStep(s, c, junk);
            |t.conns| == |s.conns| && Effect(s.conns[c], t.conns[c], Parse(c, junk))
  {
    hide ParseStep, ParseOutcome, PcRank;
    ParseRank(s, c, junk);
  }

  lemma StoreEffect(s: Sys, c: nat)
    requires c < |s.conns| && PtrOk(s, s.conns[c].rcv) && s.conns[c].rcv.fileptr.Some?
    requires s.conns[c].rcv.pc == Handling(MSG_RECEIVE_COMPLETE)
    ensures var t := StoreStep(s, c); |t.conns| == |s.conns| && Effect(s.conns[c], t.conns[c], Store(c))
  {
  }

  lemma ChunkEffect(s: Sys, c: nat, n: nat)
    requires c < |s.conns| && n <= |s.conns[c].wire|
    requires var k := s.conns[c];
             R.Enabled(k.rcv, Arrive(k.wire[..n], false))
             && (k.rcv.state == READY ==> k.rcv.fileptr.Some? && PtrOk(s, k.rcv))
    ensures var t := DeliverStep(s, c, n); |t.conns| == |s.conns| && Effect(s.conns[c], t.conns[c], Deliver(c, n))
  {
    hide Arrived;
  }

  lemma WorkEffect(plans: seq<seq<File>>, s: Sys, l: Label, c: nat)
    requires CanStep(plans, s, l) && c < |plans| == |s.conns| && Works(l, c)
    ensures var t := Step(plans, s, l); |t.conns| == |plans| && Effect(s.conns[c], t.conns[c], l)
  {
    hide Step, CanStep, Effect;
    if l.Deliver? || l.Parse? || l.Store? {
      HandlerEffect(plans, s, l, c);
    } else if l.SendBytes? || l.GetReply? {
      ClientEffect(plans, s, l, c);
    } else {
      ThreadEffect(plans, s, l, c);
    }
  }

  lemma ClientEffect(plans: seq<seq<File>>, s: Sys, l: Label, c: nat)
    requires CanStep(plans, s, l) && c < |plans| == |s.conns| && (l.SendBytes? || l.GetReply?) && l.c == c
    ensures var t := Step(plans, s, l); |t.conns| == |plans| && Effect(s.conns[c], t.conns[c], l)
  {
    hide StatusOf, P.InfoLine;
  }

  lemma ThreadEffect(plans: seq<seq<File>>, s: Sys, l: Label, c: nat)
    requires CanStep(plans, s, l) && c < |plans| == |s.conns|
    requires (l.TakeMsg? || l.Notify1? || l.Notify2? || l.Finish?) && l.c == c
    ensures var t := Step(plans, s, l); |t.conns| == |plans| && Effect(s.conns[c], t.conns[c], l)
  {
    hide StatusLine;
  }

  predicate BeforeDone(k: Conn) {
    !k.phase.Resting? && |k.stats| <= 2 * k.cur + 1
  }

  // Status 2 is written, the last line of the handler is not yet executed.
  predicate InWindow(k: Conn) {
    k.phase.AwaitDone? && k.rcv.pc.Resetting?
  }

  lemma ReplyBeforeDone(files: seq<File>, k: Conn, cells: seq<Cell>, queue: seq<nat>, w: Writer)
    requires Stage(files, k, cells, queue, w) && k.replies != [] && BeforeDone(k)
    requires forall n | 0 <= n < |files| :: Conforming(files[n])
    ensures BeforeDone(ReadReply(k))
  {
    hide P.InfoLine, Core, StatusLine, StatusOf, Loaded;
    StatusReads(READY);
    assert k.cur < |files| ==> Conforming(files[k.cur]);
  }

  lemma NotifyBeforeDone(files: seq<File>, k: Conn, cells: seq<Cell>, queue: seq<nat>, w: Writer)
    requires Stage(files, k, cells, queue, w) && k.rcv.pc.Replying?
    ensures BeforeDone(Replied(k)) || InWindow(Replied(k))
  {
    hide P.InfoLine, Core, StatusLine, Loaded;
  }

  lemma WorkBeforeDone(plans: seq<seq<File>>, s: Sys, l: Label, c: nat)
    requires Inv(plans, s) && AllConform(plans) && CanStep(plans, s, l) && c < |plans| == |s.conns| && Works(l, c)
    requires BeforeDone(s.conns[c])
    ensures |Step(plans, s, l).conns| == |plans|
    ensures BeforeDone(Step(plans, s, l).conns[c]) || InWindow(Step(plans, s, l).conns[c])
  {
    hide Inv, AllConform, CanStep, Step;
    WorkEffect(plans, s, l, c);
    if l.GetReply? {
      hide Effect, BeforeDone, InWindow;
      ReplyStepBeforeDone(plans, s, c);
    } else if l.Notify2? {
      hide Effect, BeforeDone, InWindow, Replied;
      StepNotify2(plans, s, c);
      NotifyStepBeforeDone(plans, s, c);
    }
  }

  lemma ReplyStepBeforeDone(plans: seq<seq<File>>, s: Sys, c: nat)
    requires Inv(plans, s) && AllConform(plans) && c < |plans| == |s.conns| && CanStep(plans, s, GetReply(c))
    requires BeforeDone(s.conns[c])
    ensures BeforeDone(Step(plans, s, GetReply(c)).conns[c])
  {
    Part(plans, s, c);
    assert forall n | 0 <= n < |plans[c]| :: Conforming(plans[c][n]);
    hide Inv, AllConform, Stage, Conforming, CloseOk, Discipline, BeforeDone, ReadReply;
    ReplyBeforeDone(plans[c], s.conns[c], s.cells, s.queue, s.writer);
  }

  lemma NotifyStepBeforeDone(plans: seq<seq<File>>, s: Sys, c: nat)
    requires c < |plans| == |s.conns| && CanStep(plans, s, Notify2(c))
    requires Inv(plans, s)
    ensures s.conns[c].rcv.pc.Replying?
    ensures BeforeDone(Replied(s.conns[c])) || InWindow(Replied(s.conns[c]))
  {
    hide Inv, Stage, CloseOk, Discipline, BeforeDone, InWindow, Replied;
    Part(plans, s, c);
    NotifyBeforeDone(plans[c], s.conns[c], s.cells, s.queue, s.writer);
  }

  // ---- schedules ----

  // The steps of connection c can always be scheduled up to the window.
  lemma {:induction false} ToWindow(plans: seq<seq<File>>, s: Sys, c: nat) returns (ls: seq<Label>)
    requires Inv(plans, s) && AllConform(plans) && c < |plans| == |s.conns|
    requires s.conns[c].rcv.armed && !Lost(s.conns[c]) && (BeforeDone(s.conns[c]) || InWindow(s.conns[c]))
    ensures CanRun(plans, s, ls) && forall l | l in ls :: Works(l, c)
    ensures var t := Run(plans, s, ls);
            Inv(plans, t) && |t.conns| == |plans| && InWindow(t.conns[c]) && t.conns[c].rcv.armed
            && t.conns[c].cur == s.conns[c].cur
    decreases MeasureOf(plans[c], s.conns[c])
  {
    hide Inv, AllConform, CanStep, Step, Lost, MeasureOf, Works, Drops;
    if InWindow(s.conns[c]) {
      ls := [];
    } else {
      var l := CanWork(plans, s, c);
      var t := Step(plans, s, l);
      StepKeeps(plans, s, l);
      WorksDecreases(plans, s, l, c);
      WorkBeforeDone(plans, s, l, c);
      WorkEffect(plans, s, l, c);
      LostStep(plans, s, l, c);
      SameFile(plans, s, l, c);
      var rest := ToWindow(plans, t, c);
      ls := [l] + rest;
    }
  }

  // Before status 2 is written, no step moves the client to another file.
  lemma SameFile(plans: seq<seq<File>>, s: Sys, l: Label, c: nat)
    requires Inv(plans, s) && AllConform(plans) && CanStep(plans, s, l) && c < |plans| == |s.conns| && Works(l, c)
    requires BeforeDone(s.conns[c])
    ensures |Step(plans, s, l).conns| == |plans| && Step(plans, s, l).conns[c].cur == s.conns[c].cur
  {
    WorkEffect(plans, s, l, c);
    if l.GetReply? {
      Part(plans, s, c);
      hide Inv, AllConform, CloseOk;
      ReplyKeepsFile(plans[c], s.conns[c], s.cells, s.queue, s.writer);
    }
  }

  lemma ReplyKeepsFile(files: seq<File>, k: Conn, cells: seq<Cell>, queue: seq<nat>, w: Writer)
    requires Stage(files, k, cells, queue, w) && k.replies != [] && BeforeDone(k)
    ensures ReadReply(k).cur == k.cur
  {
    hide P.InfoLine, Core, StatusLine, StatusOf, Loaded;
  }

  // The connection is up, its client waits for status 1, and no step of its handshake is enabled.
  ghost predicate Halted(plans: seq<seq<File>>, s: Sys, c: nat) {
    c < |s.conns| && s.conns[c].rcv.armed && s.conns[c].phase.AwaitReady?
    && forall l | Works(l, c) :: !CanStep(plans, s, l)
  }

  // However the run goes on, the client goes on waiting for status 1 of the same file, and unless
  // the connection breaks, no step of its handshake is ever enabled again.
  ghost predicate HaltedForEver(plans: seq<seq<File>>, s: Sys, c: nat) {
    Halted(plans, s, c) && forall on | CanRun(plans, s, on) :: StillHalted(plans, s, c, on)
  }

  ghost predicate StillHalted(plans: seq<seq<File>>, s: Sys, c: nat, on: seq<Label>)
    requires c < |s.conns| && CanRun(plans, s, on)
  {
    var t := Run(plans, s, on);
    && c < |t.conns| && t.conns[c].phase.AwaitReady? && t.conns[c].replies == []
    && t.conns[c].cur == s.conns[c].cur && (Hangup(c) !in on ==> Halted(plans, t, c))
  }

  lemma LostKeepsFile(plans: seq<seq<File>>, s: Sys, l: Label, c: nat)
    requires CanStep(plans, s, l) && c < |plans| == |s.conns| == |Step(plans, s, l).conns| && Lost(s.conns[c])
    ensures Step(plans, s, l).conns[c].cur == s.conns[c].cur
  {
    if !OfConn(l) || l.c != c {
      hide Step, CanStep, Lost;
      StepFrame(plans, s, l, c);
    } else if l.Parse? {
      hide P.Resolve, LineText, ParseStep;
      ParseRank(s, c, l.junk);
    } else {
      hide P.Resolve, LineText, StatusOf, StatusLine, Arrived, ParseStep, WriterStep;
    }
  }

  lemma {:induction false} LostStays(plans: seq<seq<File>>, s: Sys, on: seq<Label>, c: nat)
    requires c < |plans| == |s.conns| && Lost(s.conns[c]) && CanRun(plans, s, on)
    requires Inv(plans, s) && AllConform(plans)
    ensures var t := Run(plans, s, on);
            |t.conns| == |plans| && Lost(t.conns[c]) && t.conns[c].cur == s.conns[c].cur
    decreases |on|
  {
    hide Inv, AllConform, CanStep, Step, Lost;
    if on != [] {
      StepLength(plans, s, on[0]);
      StepKeeps(plans, s, on[0]);
      LostStep(plans, s, on[0], c);
      LostKeepsFile(plans, s, on[0], c);
      LostStays(plans, Step(plans, s, on[0]), on[1..], c);
    }
  }

  // The connection does not change any more.
  predicate Frozen(k: Conn) {
    Lost(k) && k.rcv.pc == Idle && k.rcv.armed && k.rcv.mq == []
  }

  lemma FrozenStep(plans: seq<seq<File>>, s: Sys, l: Label, c: nat)
    requires CanStep(plans, s, l) && c < |plans| == |s.conns| && Frozen(s.conns[c]) && l != Hangup(c)
    ensures |Step(plans, s, l).conns| == |plans| && Step(plans, s, l).conns[c] == s.conns[c]
  {
    StepLength(plans, s, l);
    if OfConn(l) && l.c == c {
      hide Step;
      assert false;
    }
    hide Step, CanStep, Frozen;
    StepFrame(plans, s, l, c);
  }

  lemma {:induction false} FrozenStays(plans: seq<seq<File>>, s: Sys, on: seq<Label>, c: nat)
    requires c < |plans| == |s.conns| && Frozen(s.conns[c]) && CanRun(plans, s, on) && Hangup(c) !in on
    ensures |Run(plans, s, on).conns| == |plans| && Run(plans, s, on).conns[c] == s.conns[c]
    decreases |on|
  {
    hide CanStep, Step, Frozen;
    if on != [] {
      FrozenStep(plans, s, on[0], c);
      assert Hangup(c) !in on[1..];
      FrozenStays(plans, Step(plans, s, on[0]), on[1..], c);
    }
  }

  // A halt is for ever.
  lemma HaltStays(plans: seq<seq<File>>, s: Sys, c: nat)
    requires c < |plans| == |s.conns| && Halted(plans, s, c)
    requires Inv(plans, s) && AllConform(plans)
    ensures HaltedForEver(plans, s, c)
  {
    HaltedIsFrozen(plans, s, c);
    forall on | CanRun(plans, s, on)
      ensures StillHalted(plans, s, c, on)
    {
      LostStays(plans, s, on, c);
      if Hangup(c) !in on {
        FrozenStays(plans, s, on, c);
        LostHalts(plans, Run(plans, s, on), c);
      }
      hide CanRun, Run, Halted, Inv, AllConform;
    }
    hide StillHalted, Halted, CanRun;
  }

  lemma HaltedIsFrozen(plans: seq<seq<File>>, s: Sys, c: nat)
    requires c < |plans| == |s.conns| && Halted(plans, s, c)
    requires Inv(plans, s) && AllConform(plans)
    ensures Frozen(s.conns[c])
  {
    var k := s.conns[c];
    Part(plans, s, c);
    hide Inv, AllConform, Stage, Discipline, CanStep, Works;
    if !Lost(k) || k.rcv.pc.Resetting? {
      var l := CanWork(plans, s, c);
      assert false;
    }
    EmptyCore(k.rcv);
  }

  lemma WindowMeans(files: seq<File>, k: Conn, cells: seq<Cell>, queue: seq<nat>, w: Writer)
    requires Stage(files, k, cells, queue, w) && InWindow(k)
    ensures Row(k, Resetting, COMPLETE, [], [StatusLine(COMPLETE)], 2 * k.cur + 2, 2 * k.cur + 2, k.cur + 1)
            && k.wire == ""
  {
    hide P.InfoLine, Core, StatusLine, Loaded;
  }

  // ---- composing runs ----

  lemma RunTwo(plans: seq<seq<File>>, s: Sys, a: Label, s1: Sys, b: Label, s2: Sys)
    requires CanStep(plans, s, a) && Step(plans, s, a) == s1 && CanStep(plans, s1, b) && Step(plans, s1, b) == s2
    ensures CanRun(plans, s, [a, b]) && Run(plans, s, [a, b]) == s2
  {
    hide CanStep, Step;
    var ls := [a, b];
    assert ls[1..] == [b] && [b][1..] == [];
    assert CanRun(plans, s2, []) && Run(plans, s2, []) == s2;
    assert CanRun(plans, s1, [b]) && Run(plans, s1, [b]) == s2;
  }

  // ---- the trap ----

  function Trapped(k: Conn, phase: Phase, wire: string): Conn {
    k.(cur := k.cur + 1, replies := [], phase := phase, wire := wire)
  }

  lemma TrapReply(k: Conn)
    requires k.phase == AwaitDone && k.replies == [StatusLine(COMPLETE)] && k.wire == ""
    ensures ReadReply(k) == Trapped(k, Resting, "")
  {
    hide StatusLine, StatusOf;
    StatusReads(COMPLETE);
  }

  lemma TrapAnnounce(files: seq<File>, k: Conn)
    requires k.cur + 1 < |files|
    ensures Announced(files, Trapped(k, Resting, "")) == Trapped(k, AwaitReady, P.InfoLine(InfoMsg(files[k.cur + 1])))
  {
    hide P.InfoLine;
    var line := P.InfoLine(InfoMsg(files[k.cur + 1]));
    assert "" + line == line;
  }

  lemma WithTwice(s: Sys, c: nat, k: Conn, k1: Conn)
    requires c < |s.conns|
    ensures With(With(s, c, k), c, k1) == With(s, c, k1)
  {
    assert s.conns[c := k][c := k1] == s.conns[c := k1];
  }

  lemma StepGetReply(plans: seq<seq<File>>, s: Sys, c: nat)
    requires c < |plans| == |s.conns| && s.conns[c].replies != []
    ensures CanStep(plans, s, GetReply(c)) && Step(plans, s, GetReply(c)) == With(s, c, ReadReply(s.conns[c]))
  {
    hide ReadReply, With;
  }

  lemma StepAnnounce(plans: seq<seq<File>>, s: Sys, c: nat)
    requires c < |plans| == |s.conns| && s.conns[c].phase.Resting? && s.conns[c].cur < |plans[c]|
    ensures CanStep(plans, s, Announce(c)) && Step(plans, s, Announce(c)) == With(s, c, Announced(plans[c], s.conns[c]))
  {
    hide Announced, With;
  }

  lemma TrapHead(plans: seq<seq<File>>, s: Sys, c: nat, k: Conn, t: Sys)
    requires c < |plans| == |s.conns| && s.conns[c] == k && k.cur + 1 < |plans[c]|
    requires k.phase == AwaitDone && k.replies == [StatusLine(COMPLETE)] && k.wire == ""
    requires t == With(s, c, Trapped(k, AwaitReady, P.InfoLine(InfoMsg(plans[c][k.cur + 1]))))
    ensures CanRun(plans, s, [GetReply(c), Announce(c)]) && Run(plans, s, [GetReply(c), Announce(c)]) == t
  {
    TrapReply(k);
    TrapAnnounce(plans[c], k);
    var k1 := Trapped(k, Resting, "");
    var s1 := With(s, c, k1);
    assert s1.conns[c] == k1 && |s1.conns| == |plans|;
    hide P.InfoLine, StatusLine, ReadReply, CanRun, Run, CanStep, Step, Announced;
    WithTwice(s, c, k1, Announced(plans[c], k1));
    StepGetReply(plans, s, c);
    StepAnnounce(plans, s1, c);
    RunTwo(plans, s, GetReply(c), s1, Announce(c), t);
  }

  lemma TrapTail(plans: seq<seq<File>>, s: Sys, c: nat, line: string)
    requires c < |plans| == |s.conns| && 1 <= |line| <= TCP_PACK_SIZE
    requires var k := s.conns[c];
             k.phase == AwaitReady && k.wire == line && k.replies == [] && k.rcv.state == COMPLETE
                 && k.rcv.pc == Resetting
             && k.rcv.armed && k.rcv.open && k.rcv.mq == []
    ensures var ls := [Deliver(c, |line|), Finish(c)];
            CanRun(plans, s, ls) && |Run(plans, s, ls).conns| == |plans|
            && var k := Run(plans, s, ls).conns[c];
            Lost(k) && k.rcv.pc == Idle && k.rcv.armed && k.rcv.mq == []
  {
    var k := s.conns[c];
    var s1 := With(s, c, k.(wire := "", rcv := k.rcv.(rx := line)));
    var s2 := With(s1, c, Local(s1.conns[c], Reset));
    StepDrop(plans, s, c, line);
    StepFinish(plans, s1, c);
    hide CanRun, Run, CanStep, Step;
    RunTwo(plans, s, Deliver(c, |line|), s1, Finish(c), s2);
  }

  // A line read while state_ is COMPLETE goes nowhere.
  lemma StepDrop(plans: seq<seq<File>>, s: Sys, c: nat, line: string)
    requires c < |plans| == |s.conns| && 1 <= |line| <= TCP_PACK_SIZE
    requires var k := s.conns[c]; k.wire == line && k.rcv.state == COMPLETE && k.rcv.armed
    ensures CanStep(plans, s, Deliver(c, |line|))
    ensures var k := s.conns[c];
            Step(plans, s, Deliver(c, |line|)) == With(s, c, k.(wire := "", rcv := k.rcv.(rx := line)))
  {
    assert line[..|line|] == line && line[|line|..] == "";
  }

  lemma StepFinish(plans: seq<seq<File>>, s: Sys, c: nat)
    requires c < |plans| == |s.conns| && s.conns[c].rcv.pc == Resetting
    ensures CanStep(plans, s, Finish(c)) && Step(plans, s, Finish(c)) == With(s, c, Local(s.conns[c], Reset))
  {
    hide Local, With;
  }

  lemma TrapWorks(plans: seq<seq<File>>, s: Sys, c: nat) returns (ls: seq<Label>)
    requires Inv(plans, s) && AllConform(plans) && c < |plans| == |s.conns| && s.conns[c].cur + 1 < |plans[c]|
    requires InWindow(s.conns[c]) && s.conns[c].rcv.armed
    ensures CanRun(plans, s, ls) && Halted(plans, Run(plans, s, ls), c) && |Run(plans, s, ls).conns| == |plans|
  {
    var k := s.conns[c];
    Part(plans, s, c);
    WindowMeans(plans[c], k, s.cells, s.queue, s.writer);
    EmptyCore(k.rcv);
    assert Conforming(plans[c][k.cur + 1]);
    LineIsShort(plans[c][k.cur + 1]);
    var line := P.InfoLine(InfoMsg(plans[c][k.cur + 1]));
    hide Inv, AllConform, Stage, Conforming, P.InfoLine, CanRun, Run, CanStep, Step, StatusLine, CloseOk, Lost, Works;
    var t := With(s, c, Trapped(k, AwaitReady, line));
    TrapHead(plans, s, c, k, t);
    TrapTail(plans, t, c, line);
    ls := [GetReply(c), Announce(c)] + [Deliver(c, |line|), Finish(c)];
    RunCat(plans, s, [GetReply(c), Announce(c)], [Deliver(c, |line|), Finish(c)]);
    LostHalts(plans, Run(plans, s, ls), c);
  }

  lemma EmptyCore(r: Receiver)
    requires CloseOk(r) && r.armed && Core(r.mq) == []
    ensures r.mq == []
  {
  }

  lemma LostHalts(plans: seq<seq<File>>, s: Sys, c: nat)
    requires c < |plans| == |s.conns|
    requires var k := s.conns[c]; Lost(k) && k.rcv.pc == Idle && k.rcv.armed && k.rcv.mq == []
    ensures Halted(plans, s, c)
  {
    forall l | Works(l, c)
      ensures !CanStep(plans, s, l)
    {
    }
  }

  // ---- main results ----

  // From any reachable state in which a client waits on a connection that is up, has not lost its
  // fileinfo and has another file to send, some schedule halts the connection forever.
  lemma AnyHandshakeCanHalt(plans: seq<seq<File>>, ls: seq<Label>, c: nat) returns (more: seq<Label>)
    requires IsRun(plans, ls) && c < |plans| == |After(plans, ls).conns|
    requires var k := After(plans, ls).conns[c];
             k.rcv.armed && BeforeDone(k) && !Lost(k) && k.cur + 1 < |plans[c]|
    ensures IsRun(plans, ls + more) && HaltedForEver(plans, After(plans, ls + more), c)
  {
    var s := After(plans, ls);
    RunInv(plans, ls);
    hide Inv, AllConform, CanStep, Step, Lost, BeforeDone, InWindow, Halted;
    var first := ToWindow(plans, s, c);
    var t := Run(plans, s, first);
    var second := TrapWorks(plans, t, c);
    more := first + second;
    RunCat(plans, s, first, second);
    RunCat(plans, Init(|plans|), ls, more);
    RunInv(plans, ls + more);
    HaltStays(plans, After(plans, ls + more), c);
  }

  // The same requirements, and no further file needed: some schedule brings the file to its status 2.
  lemma AnyHandshakeCanFinish(plans: seq<seq<File>>, ls: seq<Label>, c: nat) returns (more: seq<Label>)
    requires IsRun(plans, ls) && c < |plans| == |After(plans, ls).conns|
    requires var k := After(plans, ls).conns[c]; k.rcv.armed && BeforeDone(k) && !Lost(k)
    ensures IsRun(plans, ls + more) && |After(plans, ls + more).conns| == |plans|
    ensures InWindow(After(plans, ls + more).conns[c])
    ensures After(plans, ls + more).conns[c].cur == After(plans, ls).conns[c].cur
  {
    var s := After(plans, ls);
    RunInv(plans, ls);
    hide Inv, AllConform, CanStep, Step, Lost, BeforeDone, InWindow;
    more := ToWindow(plans, s, c);
    RunCat(plans, Init(|plans|), ls, more);
  }

  // ---- a concrete instance ----

  const SMALL := File(Meta("", "", "", "", "", "", "", "b"), "b")
  const TWICE := [[SMALL, SMALL]]

  lemma {:induction false} JoinLength(keys: seq<string>, values: seq<string>)
    requires |keys| == |values|
    requires forall i | 0 <= i < |keys| :: |keys[i]| + |values[i]| <= 98
    ensures |P.JoinAll(keys, values)| <= 100 * |keys|
  {
    if keys != [] {
      var n := |keys| - 1;
      JoinLength(keys[..n], values[..n]);
      assert |P.KeyValueText(keys[n], values[n])| <= 99;
    }
  }

  // A description with fields of at most 90 characters fits an output slot.
  lemma ShortLine(p: P.FileInfoMsg)
    requires forall v | v in P.InfoValues(p) :: |v| <= 90
    ensures |P.InfoLine(p)| < 1024
  {
    hide T.ToDecimal;
    var v := P.InfoValues(p);
    forall i | 0 <= i < |P.KEYS|
      ensures |P.KEYS[i]| + |v[i]| <= 98
    {
      assert v[i] in v;
    }
    JoinLength(P.KEYS, v);
  }

  lemma SmallValues(p: P.FileInfoMsg)
    requires p == P.FileInfoMsg("", "", "", "", "", "", "", "", "b", 1)
    ensures forall v | v in P.InfoValues(p) :: |v| <= 90
  {
    assert T.ToDecimal(1) == T.Digits(1) == "1";
  }

  lemma SmallConforms()
    ensures Conforming(SMALL)
  {
    var m := InfoMsg(SMALL);
    assert m == P.FileInfoMsg("", "", "", "", "", "", "", "", "b", 1);
    SmallValues(m);
    assert P.Clean("") && P.Clean("b");
    hide P.InfoValues, P.InfoLine, P.Clean;
    ShortLine(m);
  }

  // One client that sends a one-byte file twice can be left waiting for status 1 forever.
  lemma TwoSmallFilesCanHalt() returns (ls: seq<Label>)
    ensures IsRun(TWICE, ls) && HaltedForEver(TWICE, After(TWICE, ls), 0)
  {
    SmallConforms();
    hide Conforming, P.InfoLine, HaltedForEver;
    var s := Init(1);
    assert CanStep(TWICE, s, Announce(0));
    var first := [Announce(0)];
    assert first[1..] == [];
    assert CanRun(TWICE, Step(TWICE, s, Announce(0)), []);
    assert IsRun(TWICE, first);
    LineReads(SMALL);
    var k := After(TWICE, first).conns[0];
    assert k.wire == "" + P.InfoLine(InfoMsg(SMALL));
    var more := AnyHandshakeCanHalt(TWICE, first, 0);
    ls := first + more;
  }
}
