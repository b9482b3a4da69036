// The steps that touch shared objects keep the invariant too.
module TransferShared {
  import opened Options
  import opened FileStore
  import opened R = Receiver
  import opened Transfer
  import opened TransferInv
  import opened TransferSteps
  import P = Protocol

  // Only connection c and objects no other receiver refers to have changed.
  lemma OthersKeep(plans: seq<seq<File>>, s: Sys, t: Sys, c: nat)
    requires Inv(plans, s) && c < |plans| == |t.conns|
    requires forall d | 0 <= d < |plans| && d != c :: t.conns[d] == s.conns[d]
    requires forall d | 0 <= d < |plans| && d != c ::
               Undisturbed(s.conns[d].rcv, s.cells, s.queue, s.writer, t.cells, t.queue, t.writer)
    requires forall d | 0 <= d < |plans| && d != c :: Mine(t.accepted, d) == Mine(s.accepted, d)
    requires ConnOk(plans, t, c)
    ensures ConnsOk(plans, t)
  {
    forall d | 0 <= d < |plans|
      ensures ConnOk(plans, t, d)
    {
      if d != c {
        assert ConnOk(plans, s, d);
        hide Stage, Undisturbed;
        StageFrame(plans[d], s.conns[d], s.cells, s.queue, s.writer, t.cells, t.queue, t.writer);
      }
    }
  }

  // ---- data arrives ----

  // A chunk behind the bytes received so far fits the buffer and extends the prefix.
  lemma ArrivedPrefix(c: Cell, f: File, chunk: string)
    requires c.filesize == |c.data| == |f.bytes| && 0 <= c.rcvsize && c.rcvsize + |chunk| <= |f.bytes|
    requires c.data[..c.rcvsize] == f.bytes[..c.rcvsize]
    requires chunk == f.bytes[c.rcvsize..c.rcvsize + |chunk|]
    ensures var d := Arrived(c, chunk);
            d.meta == c.meta && d.filesize == c.filesize == |d.data| && d.rcvsize == c.rcvsize + |chunk|
            && d.data[..d.rcvsize] == f.bytes[..d.rcvsize]
  {
  }

  lemma PostDiscipline(k: Conn, chunk: string, full: bool)
    requires Discipline(k) && R.Enabled(k.rcv, Arrive(chunk, full))
    requires k.rcv.state == READY && full ==> |Core(k.rcv.posted)| % 2 == 1
    requires k.rcv.state == WAITING ==> |Core(k.rcv.posted)| % 2 == 0
    ensures var r := R.Next(k.rcv, Arrive(chunk, full));
            Discipline(k.(rcv := r)) && r.rx == chunk
            && r.pc == k.rcv.pc && r.state == k.rcv.state && r.fileptr == k.rcv.fileptr
            && var msgs := if k.rcv.state == READY then (if full then [MSG_RECEIVE_COMPLETE] else [])
                           else if k.rcv.state == WAITING then [MSG_NETWORK_RECEIVE] else [];
            Core(r.mq) == Core(k.rcv.mq) + msgs && Core(r.posted) == Core(k.rcv.posted) + msgs
  {
    CloseStep(k.rcv, Arrive(chunk, full));
    CoreAppend(k.rcv.mq, MSG_RECEIVE_COMPLETE);
    CoreAppend(k.rcv.mq, MSG_NETWORK_RECEIVE);
    CoreAppend(k.rcv.posted, MSG_RECEIVE_COMPLETE);
    CoreAppend(k.rcv.posted, MSG_NETWORK_RECEIVE);
    OneMorePost(Core(k.rcv.posted));
    hide Core, CloseOk, Alternates;
  }

  lemma OneMorePost(posted: seq<int>)
    requires Alternates(posted, MSG_NETWORK_RECEIVE, MSG_RECEIVE_COMPLETE)
    ensures Alternates(posted + [if |posted| % 2 == 0 then MSG_NETWORK_RECEIVE else MSG_RECEIVE_COMPLETE],
                       MSG_NETWORK_RECEIVE, MSG_RECEIVE_COMPLETE)
  {
  }

  // The network thread in state READY: between Stream and the end of the file.
  // The object after a chunk of f arrived: it holds a longer prefix, and the wire the rest.
  lemma StreamCell(f: File, k: Conn, sent: nat, n: nat, cells: seq<Cell>, queue: seq<nat>, w: Writer)
    requires Streaming(f, k, sent, cells, queue, w) && n <= |k.wire|
    ensures var p := k.rcv.fileptr.value;
            var cell := Arrived(cells[p], k.wire[..n]);
            cell.meta == f.meta && cell.filesize == |cell.data| == |f.bytes|
            && cells[p].filesize == |f.bytes| && 0 <= cell.rcvsize == cells[p].rcvsize + n <= sent
            && cell.data[..cell.rcvsize] == f.bytes[..cell.rcvsize] && k.wire[n..] == f.bytes[cell.rcvsize..sent]
  {
    var p := k.rcv.fileptr.value;
    hide Row;
    ArrivedPrefix(cells[p], f, k.wire[..n]);
    hide Arrived;
    assert k.wire[n..] == f.bytes[cells[p].rcvsize + n..sent];
  }

  // The connection after n bytes were read.
  function Received(k: Conn, n: nat, full: bool): Conn
    requires n <= |k.wire| && R.Enabled(k.rcv, Arrive(k.wire[..n], full))
  {
    k.(wire := k.wire[n..], rcv := R.Next(k.rcv, Arrive(k.wire[..n], full)))
  }

  lemma StreamRow(k: Conn, n: nat, full: bool)
    requires n <= |k.wire| && R.Enabled(k.rcv, Arrive(k.wire[..n], full)) && Discipline(k)
    requires Row(k, Idle, READY, [], [], 2 * k.cur + 1, 2 * k.cur + 1, k.cur)
    ensures var k1 := Received(k, n, full);
            Discipline(k1) && k1.rcv.fileptr == k.rcv.fileptr
            && (full ==> Row(k1, Idle, READY, [MSG_RECEIVE_COMPLETE], [], 2 * k.cur + 2, 2 * k.cur + 1, k.cur))
            && (!full ==> Row(k1, Idle, READY, [], [], 2 * k.cur + 1, 2 * k.cur + 1, k.cur))
  {
    PostDiscipline(k, k.wire[..n], full);
    RestDiscipline(k.(rcv := R.Next(k.rcv, Arrive(k.wire[..n], full))), k.wire[n..]);
    hide Core, CloseOk, Discipline, R.Next;
  }

  lemma RestDiscipline(k: Conn, wire: string)
    ensures Discipline(k) <==> Discipline(k.(wire := wire))
  {
  }

  lemma StreamStep(f: File, k: Conn, sent: nat, n: nat, cells: seq<Cell>, queue: seq<nat>, w: Writer)
    requires Streaming(f, k, sent, cells, queue, w) && Discipline(k)
    requires n <= |k.wire| && R.Enabled(k.rcv, Arrive(k.wire[..n], false))
    ensures var p := k.rcv.fileptr.value;
            var cell := Arrived(cells[p], k.wire[..n]);
            var k1 := Received(k, n, Full(cell));
            var cells1 := cells[p := cell];
            |cell.data| == cell.filesize && cells[p].rcvsize + n <= cells[p].filesize
            && Discipline(k1) && k1.rcv.fileptr == Some(p)
            && (if Full(cell) then
                  sent == |f.bytes| && k1.wire == "" && LoadedWith(f, k1, |f.bytes|, cells1, queue, w)
                  && Row(k1, Idle, READY, [MSG_RECEIVE_COMPLETE], [], 2 * k.cur + 2, 2 * k.cur + 1, k.cur)
                else Streaming(f, k1, sent, cells1, queue, w))
  {
    var p := k.rcv.fileptr.value;
    var cell := Arrived(cells[p], k.wire[..n]);
    StreamCell(f, k, sent, n, cells, queue, w);
    StreamRow(k, n, Full(cell));
    hide Discipline, R.Next, R.Enabled, Arrived, Row;
  }

  predicate Exclusive(s: Sys, p: nat) {
    p < |s.cells| && p !in s.queue && !Holds(s.writer, p)
  }

  function WithCell(s: Sys, c: nat, k: Conn, p: nat, cell: Cell): Sys
    requires c < |s.conns| && p < |s.cells|
  {
    s.(cells := s.cells[p := cell], conns := s.conns[c := k])
  }

  lemma RefsKeep(s: Sys, t: Sys, c: nat, k: Conn)
    requires RefsOk(s) && c < |s.conns| && t.conns == s.conns[c := k] && k.rcv.fileptr == s.conns[c].rcv.fileptr
    requires t.refs == s.refs && t.queue == s.queue && t.writer == s.writer && |t.cells| == |s.cells|
    ensures RefsOk(t)
  {
    hide Holders;
    forall i | 0 <= i < |t.cells|
      ensures t.refs[i] == UseCount(t, i)
    {
      HoldersUpdate(s.conns, c, k, i);
    }
  }

  // The log depends on the objects only through those in the queue.
  lemma LogKeeps(plans: seq<seq<File>>, s: Sys, t: Sys)
    requires LogOk(plans, s)
    requires forall j | 0 <= j < |s.queue| :: s.queue[j] < |s.cells| ==>
             s.queue[j] < |t.cells| && t.cells[s.queue[j]] == s.cells[s.queue[j]]
    requires t.queue == s.queue && t.writer == s.writer && t.written == s.written && t.accepted == s.accepted
    ensures LogOk(plans, t)
  {
    hide Complete, FileOf, Valid, DiskLog;
  }

  lemma QueueKeeps(cells: seq<Cell>, queue: seq<nat>, w: Writer, p: nat, cell: Cell)
    requires QueueOk(cells, queue, w) && p < |cells| && |cell.data| == cell.filesize
    ensures QueueOk(cells[p := cell], queue, w)
  {
  }

  lemma PtrsKeep(cells: seq<Cell>, conns: seq<Conn>, c: nat, k: Conn, cells': seq<Cell>)
    requires PtrsOk(cells, conns) && c < |conns| && k.rcv.fileptr == conns[c].rcv.fileptr && |cells'| == |cells|
    ensures PtrsOk(cells', conns[c := k])
  {
  }

  // An object in use by one receiver is not the object of another one.
  lemma Apart(s: Sys, c: nat, p: nat, cell: Cell, d: nat)
    requires PtrsOk(s.cells, s.conns) && c < |s.conns| && d < |s.conns| && c != d
    requires s.conns[c].rcv.fileptr == Some(p) && p < |s.cells|
    ensures Undisturbed(s.conns[d].rcv, s.cells, s.queue, s.writer, s.cells[p := cell], s.queue, s.writer)
  {
  }

  // A step that changes one connection and the object only its receiver refers to.
  lemma CellShared(plans: seq<seq<File>>, s: Sys, t: Sys, c: nat, k: Conn, p: nat, cell: Cell)
    requires SharedOk(plans, s) && c < |s.conns| && Exclusive(s, p) && |cell.data| == cell.filesize
    requires k.rcv.fileptr == s.conns[c].rcv.fileptr
    requires t.cells == s.cells[p := cell] && t.conns == s.conns[c := k] && t.refs == s.refs
    requires t.queue == s.queue && t.writer == s.writer && t.written == s.written && t.accepted == s.accepted
    ensures SharedOk(plans, t)
  {
    hide RefsOk, LogOk, PtrsOk, QueueOk;
    RefsKeep(s, t, c, k);
    assert forall j | 0 <= j < |s.queue| :: s.queue[j] in s.queue;
    LogKeeps(plans, s, t);
    QueueKeeps(s.cells, s.queue, s.writer, p, cell);
    PtrsKeep(s.cells, s.conns, c, k, t.cells);
  }

  lemma CellConns(plans: seq<seq<File>>, s: Sys, t: Sys, c: nat, k: Conn, p: nat, cell: Cell)
    requires c < |plans| == |s.conns| && Exclusive(s, p)
    requires k.rcv.fileptr == s.conns[c].rcv.fileptr == Some(p) && k.fate == s.conns[c].fate
    requires t.cells == s.cells[p := cell] && t.conns == s.conns[c := k]
    requires t.queue == s.queue && t.writer == s.writer && t.accepted == s.accepted
    requires Stage(plans[c], k, t.cells, t.queue, t.writer) && Discipline(k)
    requires Inv(plans, s)
    ensures ConnsOk(plans, t)
  {
    assert ConnOk(plans, s, c) && PtrsOk(s.cells, s.conns);
    hide Inv, Stage, Discipline, Mine, Queued, ConnsOk, Undisturbed, PtrsOk;
    forall d | 0 <= d < |plans| && d != c
      ensures Undisturbed(s.conns[d].rcv, s.cells, s.queue, s.writer, t.cells, t.queue, t.writer)
    {
      Apart(s, c, p, cell, d);
    }
    OthersKeep(plans, s, t, c);
  }

  lemma CellStep(plans: seq<seq<File>>, s: Sys, c: nat, k: Conn, p: nat, cell: Cell)
    requires c < |plans| == |s.conns| && Exclusive(s, p)
    requires k.rcv.fileptr == s.conns[c].rcv.fileptr == Some(p) && k.fate == s.conns[c].fate
    requires |cell.data| == cell.filesize
    requires Stage(plans[c], k, s.cells[p := cell], s.queue, s.writer) && Discipline(k)
    requires Inv(plans, s)
    ensures Inv(plans, WithCell(s, c, k, p, cell))
  {
    var t := WithCell(s, c, k, p, cell);
    hide Stage, Discipline, SharedOk, ConnsOk, Exclusive;
    CellBounds(s, p);
    CellShared(plans, s, t, c, k, p, cell);
    CellConns(plans, s, t, c, k, p, cell);
  }

  lemma CellBounds(s: Sys, p: nat)
    requires Exclusive(s, p)
    ensures p < |s.cells|
  {
  }

  lemma StreamStage(files: seq<File>, k1: Conn, sent: nat, cells: seq<Cell>, queue: seq<nat>, w: Writer, full: bool)
    requires k1.cur < |files|
    requires var f := files[k1.cur];
             && ((k1.phase == Sending(sent) && sent < |f.bytes|) || (k1.phase == AwaitDone && sent == |f.bytes|))
             && (if full then
                   sent == |f.bytes| && k1.wire == "" && LoadedWith(f, k1, |f.bytes|, cells, queue, w)
                   && Row(k1, Idle, READY, [MSG_RECEIVE_COMPLETE], [], 2 * k1.cur + 2, 2 * k1.cur + 1, k1.cur)
                 else Streaming(f, k1, sent, cells, queue, w))
    ensures Stage(files, k1, cells, queue, w)
  {
    hide Streaming, LoadedWith, Row, AwaitingReady, AtRest, P.InfoLine, StatusLine;
  }

  // A chunk of data leaves its object and the connection as they must be.
  lemma DeliverData(plans: seq<seq<File>>, s: Sys, c: nat, n: nat)
    requires Inv(plans, s) && c < |plans| && s.conns[c].rcv.state == READY
    requires n <= |s.conns[c].wire| && R.Enabled(s.conns[c].rcv, Arrive(s.conns[c].wire[..n], false))
    ensures s.conns[c].rcv.fileptr.Some? && PtrOk(s, s.conns[c].rcv)
    ensures var p := s.conns[c].rcv.fileptr.value; s.cells[p].rcvsize + n <= s.cells[p].filesize
    ensures Inv(plans, DeliverStep(s, c, n))
  {
    RefsLength(plans, s);
    hide Inv, Stage, Discipline, CloseOk, P.InfoLine;
    Part(plans, s, c);
    var k := s.conns[c];
    StreamingNow(plans[c], k, s.cells, s.queue, s.writer);
    DeliverChunk(plans, s, c, n, if k.phase.Sending? then k.phase.sent else |plans[c][k.cur].bytes|);
  }

  lemma DeliverChunk(plans: seq<seq<File>>, s: Sys, c: nat, n: nat, sent: nat)
    requires c < |plans| == |s.conns| && |s.refs| == |s.cells| && s.conns[c].cur < |plans[c]|
    requires var k, f := s.conns[c], plans[c][s.conns[c].cur];
             && n <= |k.wire| && k.rcv.state == READY && R.Enabled(k.rcv, Arrive(k.wire[..n], false))
             && Streaming(f, k, sent, s.cells, s.queue, s.writer) && Discipline(k)
             && ((k.phase == Sending(sent) && sent < |f.bytes|) || (k.phase == AwaitDone && sent == |f.bytes|))
    requires Inv(plans, s)
    ensures s.conns[c].rcv.fileptr.Some? && PtrOk(s, s.conns[c].rcv)
    ensures var p := s.conns[c].rcv.fileptr.value; s.cells[p].rcvsize + n <= s.cells[p].filesize
    ensures Inv(plans, DeliverStep(s, c, n))
  {
    var k := s.conns[c];
    StreamOwner(plans[c][k.cur], s, k, sent);
    hide Inv, Streaming, Discipline, CloseOk, Stage;
    StreamStep(plans[c][k.cur], k, sent, n, s.cells, s.queue, s.writer);
    var p := k.rcv.fileptr.value;
    var cell := Arrived(s.cells[p], k.wire[..n]);
    var k1 := Received(k, n, Full(cell));
    hide Arrived, Full, Row, LoadedWith, R.Next;
    StreamStage(plans[c], k1, sent, s.cells[p := cell], s.queue, s.writer, Full(cell));
    DeliverIs(s, c, n);
    hide Received, DeliverStep, WithCell;
    CellStep(plans, s, c, k1, p, cell);
  }

  lemma StreamOwner(f: File, s: Sys, k: Conn, sent: nat)
    requires Streaming(f, k, sent, s.cells, s.queue, s.writer)
    ensures k.rcv.fileptr.Some? && k.rcv.fileptr.value < |s.cells| && Exclusive(s, k.rcv.fileptr.value)
  {
    hide Row;
  }

  lemma DeliverIs(s: Sys, c: nat, n: nat)
    requires c < |s.conns| && n <= |s.conns[c].wire|
    requires var k := s.conns[c];
             && k.rcv.state == READY && R.Enabled(k.rcv, Arrive(k.wire[..n], false))
             && k.rcv.fileptr.Some? && PtrOk(s, k.rcv)
    ensures var k, p := s.conns[c], s.conns[c].rcv.fileptr.value;
            var cell := Arrived(s.cells[p], k.wire[..n]);
            && Received(k, n, Full(cell)).fate == k.fate
            && DeliverStep(s, c, n) == WithCell(s, c, Received(k, n, Full(cell)), p, cell)
  {
    hide Arrived, Full, R.Next;
  }

  lemma StreamingNow(files: seq<File>, k: Conn, cells: seq<Cell>, queue: seq<nat>, w: Writer)
    requires Stage(files, k, cells, queue, w) && k.wire != "" && k.rcv.state == READY
    ensures k.cur < |files| && var f := files[k.cur];
            if k.phase.Sending? then k.phase.sent < |f.bytes| && Streaming(f, k, k.phase.sent, cells, queue, w)
            else k.phase.AwaitDone? && Streaming(f, k, |f.bytes|, cells, queue, w)
  {
    hide P.InfoLine, Core, StatusLine;
  }

  // ---- a line arrives, or is dropped ----

  lemma LineStage(files: seq<File>, k: Conn, cells: seq<Cell>, queue: seq<nat>, w: Writer)
    requires k.phase.AwaitReady? && k.cur < |files| && k.wire == P.InfoLine(InfoMsg(files[k.cur]))
    requires AtRest(k, k.cur) && Discipline(k) && R.Enabled(k.rcv, Arrive(k.wire, false))
    ensures var k1 := k.(wire := "", rcv := R.Next(k.rcv, Arrive(k.wire, false)));
            Stage(files, k1, cells, queue, w) && Discipline(k1) && k1.rcv.fileptr == k.rcv.fileptr
  {
    PostDiscipline(k, k.wire, false);
    RestDiscipline(k.(rcv := R.Next(k.rcv, Arrive(k.wire, false))), "");
    hide Discipline, CloseOk, P.InfoLine, Core, Loaded, R.Next, StatusLine;
  }

  lemma DeliverLine(plans: seq<seq<File>>, s: Sys, c: nat, n: nat)
    requires Inv(plans, s) && c < |plans| && s.conns[c].rcv.state != READY
    requires n <= |s.conns[c].wire| && R.Enabled(s.conns[c].rcv, Arrive(s.conns[c].wire[..n], false))
    requires s.conns[c].phase.AwaitReady? ==> n == |s.conns[c].wire|
    ensures Inv(plans, DeliverStep(s, c, n))
  {
    RefsLength(plans, s);
    hide Inv, Stage, Discipline, CloseOk, P.InfoLine, AtRest, R.Next;
    Part(plans, s, c);
    var k := s.conns[c];
    LineWaits(plans[c], k, s.cells, s.queue, s.writer);
    assert k.wire[..n] == k.wire && k.wire[n..] == "";
    LineStage(plans[c], k, s.cells, s.queue, s.writer);
    ConnOnly(plans, s, c, k.(wire := "", rcv := R.Next(k.rcv, Arrive(k.wire, false))));
  }

  lemma LineWaits(files: seq<File>, k: Conn, cells: seq<Cell>, queue: seq<nat>, w: Writer)
    requires Stage(files, k, cells, queue, w) && k.wire != "" && k.rcv.state != READY
    ensures k.phase.AwaitReady? && k.cur < |files| && k.wire == P.InfoLine(InfoMsg(files[k.cur])) && AtRest(k, k.cur)
  {
    hide P.InfoLine, Core, StatusLine;
  }

  // ---- the line is handled ----

  lemma ParsedLine(plans: seq<seq<File>>, s: Sys, c: nat)
    requires Inv(plans, s) && AllConform(plans) && c < |plans|
    requires s.conns[c].rcv.pc == Handling(MSG_NETWORK_RECEIVE)
    ensures var k := s.conns[c];
            k.phase.AwaitReady? && k.wire == "" && k.cur < |plans[c]| && PtrOk(s, k.rcv) && '\n' in k.rcv.rx
            && Row(k, Handling(MSG_NETWORK_RECEIVE), WAITING, [], [], 2 * k.cur + 1, 2 * k.cur, k.cur)
            && P.Resolve(LineText(k.rcv.rx)) == Some(P.FileInfo(InfoMsg(plans[c][k.cur])))
  {
    Part(plans, s, c);
    HandlingLine(plans[c], s.conns[c], s.cells, s.queue, s.writer);
    assert Conforming(plans[c][s.conns[c].cur]);
    hide P.Resolve, P.InfoLine, LineText;
    LineReads(plans[c][s.conns[c].cur]);
  }

  lemma HandlingLine(files: seq<File>, k: Conn, cells: seq<Cell>, queue: seq<nat>, w: Writer)
    requires Stage(files, k, cells, queue, w) && k.rcv.pc == Handling(MSG_NETWORK_RECEIVE)
    ensures k.phase.AwaitReady? && k.wire == "" && k.cur < |files| && k.rcv.rx == P.InfoLine(InfoMsg(files[k.cur]))
            && Row(k, Handling(MSG_NETWORK_RECEIVE), WAITING, [], [], 2 * k.cur + 1, 2 * k.cur, k.cur)
  {
    hide P.InfoLine, Core, StatusLine;
  }

  // A use count of one means that neither the queue nor the writer refers to the object.
  lemma SoleOwner(s: Sys, c: nat, p: nat)
    requires RefsOk(s) && c < |s.conns| && s.conns[c].rcv.fileptr == Some(p) && p < |s.cells|
    requires s.refs[p] == 1
    ensures Exclusive(s, p)
  {
    HoldersPositive(s.conns, c, p);
    assert s.refs[p] == UseCount(s, p);
  }

  function Adopting(k: Conn, p: nat): Conn
    requires k.rcv.pc == Handling(MSG_NETWORK_RECEIVE)
  {
    Local(k, Parsed(Adopted(p)))
  }

  lemma AdoptStage(files: seq<File>, k: Conn, p: nat, cells: seq<Cell>, queue: seq<nat>, w: Writer)
    requires k.phase.AwaitReady? && k.wire == "" && k.cur < |files|
    requires Row(k, Handling(MSG_NETWORK_RECEIVE), WAITING, [], [], 2 * k.cur + 1, 2 * k.cur, k.cur)
    requires p < |cells| && p !in queue && !Holds(w, p)
    requires var f := files[k.cur];
             cells[p].meta == f.meta && cells[p].rcvsize == 0 && cells[p].filesize == |cells[p].data| == |f.bytes|
    ensures Stage(files, Adopting(k, p), cells, queue, w)
  {
    hide P.InfoLine, Core, StatusLine;
  }

  lemma AdoptDiscipline(k: Conn, p: nat)
    requires Discipline(k) && k.rcv.pc == Handling(MSG_NETWORK_RECEIVE)
    ensures Discipline(Adopting(k, p))
  {
    CloseStep(k.rcv, Parsed(Adopted(p)));
    hide CloseOk;
  }

  lemma AdoptingMeans(k: Conn, p: nat)
    requires k.rcv.pc == Handling(MSG_NETWORK_RECEIVE)
    ensures Adopting(k, p).rcv.fileptr == Some(p) && Adopting(k, p).fate == k.fate
  {
  }

  lemma ReuseKeeps(plans: seq<seq<File>>, s: Sys, c: nat, f: File, p: nat, k1: Conn, cell: Cell)
    requires c < |plans| == |s.conns| && PtrOk(s, s.conns[c].rcv)
    requires var k := s.conns[c];
             k.phase.AwaitReady? && k.wire == "" && k.cur < |plans[c]| && plans[c][k.cur] == f
             && Row(k, Handling(MSG_NETWORK_RECEIVE), WAITING, [], [], 2 * k.cur + 1, 2 * k.cur, k.cur)
             && k.rcv.pc == Handling(MSG_NETWORK_RECEIVE) && k1 == Adopting(k, p)
    requires Reusable(s.cells, s.refs, s.conns[c].rcv.fileptr, |f.bytes|) && s.conns[c].rcv.fileptr == Some(p)
    requires cell == s.cells[p].(meta := f.meta, rcvsize := 0)
    requires Inv(plans, s)
    ensures Inv(plans, WithCell(s, c, k1, p, cell))
  {
    var k := s.conns[c];
    hide Inv, RefsOk, Discipline, CloseOk, Stage, Row, Adopting, WithCell;
    DataFits(plans, s, p);
    Part(plans, s, c);
    SoleOwner(s, c, p);
    AdoptingMeans(k, p);
    AdoptStage(plans[c], k, p, s.cells[p := cell], s.queue, s.writer);
    AdoptDiscipline(k, p);
    CellStep(plans, s, c, k1, p, cell);
  }

  lemma DataFits(plans: seq<seq<File>>, s: Sys, p: nat)
    requires Inv(plans, s) && p < |s.cells|
    ensures |s.cells[p].data| == s.cells[p].filesize && RefsOk(s)
  {
  }

  // ---- a new object ----

  lemma RefsFresh(s: Sys, t: Sys, c: nat, k: Conn)
    requires RefsOk(s) && PtrsOk(s.cells, s.conns) && QueueOk(s.cells, s.queue, s.writer) && c < |s.conns|
    requires |t.cells| == |s.cells| + 1 && t.queue == s.queue && t.writer == s.writer
    requires t.conns == s.conns[c := k] && k.rcv.fileptr == Some(|s.cells|)
    requires t.refs == Replaced(s.refs, s.conns[c].rcv.fileptr)
    ensures RefsOk(t)
  {
    var n := |s.cells|;
    forall i | 0 <= i < |t.cells|
      ensures t.refs[i] == UseCount(t, i)
    {
      HoldersUpdate(s.conns, c, k, i);
      if i < n {
        assert s.refs[i] == UseCount(s, i);
      } else {
        HoldersZero(s.conns, n);
        assert n !in s.queue;
      }
    }
  }

  // t is s with the object of connection c replaced by a new one.
  predicate Replacing(s: Sys, t: Sys, c: nat, k: Conn, cell: Cell) {
    c < |s.conns| && PtrOk(s, s.conns[c].rcv) && k.rcv.fileptr == Some(|s.cells|) && k.fate == s.conns[c].fate
    && t == s.(cells := s.cells + [cell], refs := Replaced(s.refs, s.conns[c].rcv.fileptr), conns := s.conns[c := k])
  }

  lemma FreshShared(plans: seq<seq<File>>, s: Sys, t: Sys, c: nat, k: Conn, cell: Cell)
    requires Replacing(s, t, c, k, cell) && |cell.data| == cell.filesize && SharedOk(plans, s)
    ensures SharedOk(plans, t)
  {
    hide RefsOk, LogOk, QueueOk, PtrsOk;
    RefsFresh(s, t, c, k);
    FreshQueue(s.cells, s.queue, s.writer, cell);
    FreshPtrs(s.cells, s.conns, c, k, t.cells);
    QueueBounds(s.cells, s.queue, s.writer);
    LogKeeps(plans, s, t);
  }

  lemma FreshConns(plans: seq<seq<File>>, s: Sys, t: Sys, c: nat, k: Conn, cell: Cell)
    requires Replacing(s, t, c, k, cell) && |plans| == |s.conns|
    requires Stage(plans[c], k, t.cells, t.queue, t.writer) && Discipline(k)
    requires Inv(plans, s)
    ensures ConnsOk(plans, t)
  {
    assert ConnOk(plans, s, c);
    hide Stage, Discipline, SharedOk, ConnsOk, Mine, Queued, Undisturbed;
    forall d | 0 <= d < |plans| && d != c
      ensures Undisturbed(s.conns[d].rcv, s.cells, s.queue, s.writer, t.cells, t.queue, t.writer)
    {
      FreshApart(s, d, cell);
    }
    OthersKeep(plans, s, t, c);
  }

  lemma FreshKeeps(plans: seq<seq<File>>, s: Sys, t: Sys, c: nat, f: File, cell: Cell)
    requires c < |plans| == |s.conns| && PtrOk(s, s.conns[c].rcv)
    requires var k := s.conns[c];
             k.phase.AwaitReady? && k.wire == "" && k.cur < |plans[c]| && plans[c][k.cur] == f
             && Row(k, Handling(MSG_NETWORK_RECEIVE), WAITING, [], [], 2 * k.cur + 1, 2 * k.cur, k.cur)
    requires cell.meta == f.meta && cell.rcvsize == 0 && cell.filesize == |cell.data| == |f.bytes|
    requires Replacing(s, t, c, Adopting(s.conns[c], |s.cells|), cell)
    requires Inv(plans, s)
    ensures Inv(plans, t)
  {
    var k := s.conns[c];
    var n := |s.cells|;
    Part(plans, s, c);
    hide Stage, RefsOk, LogOk, QueueOk, PtrsOk, ConnsOk, Discipline, CloseOk, Row;
    FreshQueue(s.cells, s.queue, s.writer, cell);
    AdoptStage(plans[c], k, n, t.cells, s.queue, s.writer);
    AdoptDiscipline(k, n);
    FreshShared(plans, s, t, c, Adopting(k, n), cell);
    FreshConns(plans, s, t, c, Adopting(k, n), cell);
  }

  lemma QueueBounds(cells: seq<Cell>, queue: seq<nat>, w: Writer)
    requires QueueOk(cells, queue, w)
    ensures forall j | 0 <= j < |queue| :: queue[j] < |cells|
  {
  }

  lemma FreshPtrs(cells: seq<Cell>, conns: seq<Conn>, c: nat, k: Conn, cells': seq<Cell>)
    requires PtrsOk(cells, conns) && c < |conns| && k.rcv.fileptr == Some(|cells|) && |cells'| == |cells| + 1
    ensures PtrsOk(cells', conns[c := k])
  {
  }

  lemma FreshApart(s: Sys, d: nat, cell: Cell)
    requires d < |s.conns|
    ensures Undisturbed(s.conns[d].rcv, s.cells, s.queue, s.writer, s.cells + [cell], s.queue, s.writer)
  {
  }

  lemma FreshQueue(cells: seq<Cell>, queue: seq<nat>, w: Writer, cell: Cell)
    requires QueueOk(cells, queue, w) && |cell.data| == cell.filesize
    ensures QueueOk(cells + [cell], queue, w) && |cells| !in queue && !Holds(w, |cells|)
  {
  }

  // What the handler of a fileinfo line does, case by case.
  lemma ParseCases(s: Sys, c: nat, junk: string, f: File)
    requires c < |s.conns| && PtrOk(s, s.conns[c].rcv) && s.conns[c].rcv.pc == Handling(MSG_NETWORK_RECEIVE)
    requires P.Resolve(LineText(s.conns[c].rcv.rx)) == Some(P.FileInfo(InfoMsg(f)))
    ensures var k := s.conns[c];
            var t := ParseStep(s, c, junk);
            if Reusable(s.cells, s.refs, k.rcv.fileptr, |f.bytes|) then
              var p := k.rcv.fileptr.value;
              t == WithCell(s, c, Adopting(k, p), p, s.cells[p].(meta := f.meta, rcvsize := 0))
            else Replacing(s, t, c, Adopting(k, |s.cells|), Cell(f.meta, |f.bytes|, 0, junk))
  {
    hide P.Resolve, LineText;
  }

  lemma ParseKeeps(plans: seq<seq<File>>, s: Sys, c: nat, junk: string)
    requires c < |plans| == |s.conns| && s.conns[c].rcv.pc == Handling(MSG_NETWORK_RECEIVE) && PtrOk(s, s.conns[c].rcv)
    requires s.conns[c].cur < |plans[c]|
    requires var size := |plans[c][s.conns[c].cur].bytes|;
             Reusable(s.cells, s.refs, s.conns[c].rcv.fileptr, size) || |junk| == size
    requires Inv(plans, s) && AllConform(plans)
    ensures Inv(plans, ParseStep(s, c, junk))
  {
    var k := s.conns[c];
    hide Inv, P.Resolve, LineText, AllConform, Row, ParseStep, WithCell, Replacing;
    ParsedLine(plans, s, c);
    var f := plans[c][k.cur];
    ParseCases(s, c, junk, f);
    if Reusable(s.cells, s.refs, k.rcv.fileptr, |f.bytes|) {
      var p := k.rcv.fileptr.value;
      ReuseKeeps(plans, s, c, f, p, Adopting(k, p), s.cells[p].(meta := f.meta, rcvsize := 0));
    } else {
      FreshKeeps(plans, s, ParseStep(s, c, junk), c, f, Cell(f.meta, |f.bytes|, 0, junk));
    }
  }

  // ---- a complete file is handed over ----

  lemma HandlingDone(files: seq<File>, k: Conn, cells: seq<Cell>, queue: seq<nat>, w: Writer)
    requires Stage(files, k, cells, queue, w) && k.rcv.pc == Handling(MSG_RECEIVE_COMPLETE)
    ensures k.phase.AwaitDone? && k.wire == "" && k.cur < |files|
            && LoadedWith(files[k.cur], k, |files[k.cur].bytes|, cells, queue, w)
            && Row(k, Handling(MSG_RECEIVE_COMPLETE), READY, [], [], 2 * k.cur + 2, 2 * k.cur + 1, k.cur)
  {
    hide P.InfoLine, Core, StatusLine;
  }

  function Handed(k: Conn, queued: bool): Conn
    requires k.rcv.pc == Handling(MSG_RECEIVE_COMPLETE)
  {
    Local(k, Stored(true)).(fate := k.fate + [queued])
  }

  lemma HandedMeans(k: Conn, queued: bool)
    requires k.rcv.pc == Handling(MSG_RECEIVE_COMPLETE)
    ensures Handed(k, queued).rcv.fileptr == k.rcv.fileptr && Handed(k, queued).fate == k.fate + [queued]
  {
  }

  lemma HandedStage(files: seq<File>, k: Conn, queued: bool,
                    cells: seq<Cell>, queue: seq<nat>, w: Writer, queue': seq<nat>)
    requires Stage(files, k, cells, queue, w) && k.rcv.pc == Handling(MSG_RECEIVE_COMPLETE) && Discipline(k)
    ensures Stage(files, Handed(k, queued), cells, queue', w) && Discipline(Handed(k, queued))
  {
    HandlingDone(files, k, cells, queue, w);
    CloseStep(k.rcv, Stored(true));
    hide P.InfoLine, Core, StatusLine, Loaded, CloseOk;
  }

  lemma QueuedAppend(fate: seq<bool>, b: bool)
    ensures Queued(fate + [b]) == Queued(fate) + if b then [|fate|] else []
  {
    assert (fate + [b])[..|fate|] == fate;
  }

  lemma MineAppend(log: seq<Ticket>, t: Ticket, c: nat)
    ensures Mine(log + [t], c) == Mine(log, c) + if t.conn == c then [t.file] else []
  {
    assert (log + [t])[..|log|] == log;
  }

  lemma PushQueue(cells: seq<Cell>, queue: seq<nat>, w: Writer, p: nat)
    requires QueueOk(cells, queue, w) && p < |cells| && p !in queue && !Holds(w, p)
    ensures QueueOk(cells, queue + [p], w)
  {
  }

  lemma PushLog(plans: seq<seq<File>>, s: Sys, t: Sys, p: nat, ticket: Ticket)
    requires LogOk(plans, s) && (s.writer.Written? ==> s.queue != []) && p < |s.cells|
    requires Valid(plans, ticket) && Complete(s.cells[p], FileOf(plans, ticket))
    requires t.cells == s.cells && t.queue == s.queue + [p] && t.writer == s.writer && t.written == s.written
    requires t.accepted == s.accepted + [ticket]
    ensures LogOk(plans, t)
  {
    var n := |s.accepted| - |s.queue|;
    DiskWaits(plans, s.written, s.accepted, ticket);
    QueueGrows(plans, s.cells, s.queue, s.accepted[n..], p, ticket);
    hide DiskLog, QueueLog;
    assert t.accepted[n..] == s.accepted[n..] + [ticket];
    assert Pending(t) == Pending(s) + [p];
  }

  lemma DiskWaits(plans: seq<seq<File>>, written: seq<File>, log: seq<Ticket>, ticket: Ticket)
    requires DiskLog(plans, written, log) && Valid(plans, ticket)
    ensures DiskLog(plans, written, log + [ticket])
  {
    hide FileOf, Valid;
  }

  lemma QueueGrows(plans: seq<seq<File>>, cells: seq<Cell>, queue: seq<nat>, log: seq<Ticket>, p: nat, ticket: Ticket)
    requires QueueLog(plans, cells, queue, log)
    requires p < |cells| && Valid(plans, ticket) && Complete(cells[p], FileOf(plans, ticket))
    ensures QueueLog(plans, cells, queue + [p], log + [ticket])
  {
    hide Complete, FileOf, Valid;
  }

  lemma PushRefs(s: Sys, t: Sys, c: nat, k: Conn, p: nat)
    requires RefsOk(s) && c < |s.conns| && p < |s.cells|
    requires t.cells == s.cells && t.queue == s.queue + [p] && t.writer == s.writer && t.refs == AddRef(s.refs, p, 1)
    requires t.conns == s.conns[c := k] && k.rcv.fileptr == s.conns[c].rcv.fileptr
    ensures RefsOk(t)
  {
    forall i | 0 <= i < |t.cells|
      ensures t.refs[i] == UseCount(t, i)
    {
      HoldersUpdate(s.conns, c, k, i);
      assert s.refs[i] == UseCount(s, i);
      assert multiset(s.queue + [p]) == multiset(s.queue) + multiset{p};
    }
  }

  // What holds when a complete file is about to be queued.
  lemma PushStart(plans: seq<seq<File>>, s: Sys, c: nat, p: nat)
    requires Inv(plans, s) && c < |plans| == |s.conns|
    requires s.conns[c].rcv.pc == Handling(MSG_RECEIVE_COMPLETE) && s.conns[c].rcv.fileptr == Some(p)
    ensures var k := s.conns[c];
            && Stage(plans[c], Handed(k, true), s.cells, s.queue + [p], s.writer) && Discipline(Handed(k, true))
            && p < |s.cells| && p !in s.queue && !Holds(s.writer, p)
            && Valid(plans, Ticket(c, k.cur)) && Complete(s.cells[p], FileOf(plans, Ticket(c, k.cur)))
            && k.cur == |k.fate|
  {
    var k := s.conns[c];
    Part(plans, s, c);
    hide Inv, CloseOk;
    HandlingDone(plans[c], k, s.cells, s.queue, s.writer);
    HandedStage(plans[c], k, true, s.cells, s.queue, s.writer, s.queue + [p]);
    hide Stage, Discipline;
    LoadedIsComplete(plans[c][k.cur], k, s.cells, s.queue, s.writer);
    hide Complete;
  }

  lemma PushShared(plans: seq<seq<File>>, s: Sys, t: Sys, c: nat, k: Conn, p: nat, ticket: Ticket)
    requires SharedOk(plans, s) && c < |s.conns| && k.rcv.fileptr == s.conns[c].rcv.fileptr == Some(p)
    requires p < |s.cells| && p !in s.queue && !Holds(s.writer, p)
    requires Valid(plans, ticket) && Complete(s.cells[p], FileOf(plans, ticket))
    requires |s.refs| == |s.cells| && t.refs == AddRef(s.refs, p, 1)
    requires t.cells == s.cells && t.writer == s.writer && t.written == s.written && t.conns == s.conns[c := k]
    requires t.queue == s.queue + [p] && t.accepted == s.accepted + [ticket]
    ensures SharedOk(plans, t)
  {
    if s.writer.Written? {
      WrittenIsQueued(s.cells, s.queue, s.writer);
    }
    hide LogOk, QueueOk, RefsOk, PtrsOk, Valid, Complete, FileOf, AddRef;
    PushQueue(s.cells, s.queue, s.writer, p);
    PtrsKeep(s.cells, s.conns, c, k, t.cells);
    PushRefs(s, t, c, k, p);
    PushLog(plans, s, t, p, ticket);
  }

  lemma WrittenIsQueued(cells: seq<Cell>, queue: seq<nat>, w: Writer)
    requires QueueOk(cells, queue, w) && w.Written?
    ensures queue != []
  {
  }

  lemma PushConns(plans: seq<seq<File>>, s: Sys, t: Sys, c: nat, k: Conn, p: nat)
    requires c < |plans| == |s.conns| && s.conns[c].rcv.fileptr == Some(p) && |s.conns[c].fate| == s.conns[c].cur
    requires t.conns == s.conns[c := k] && k.fate == s.conns[c].fate + [true]
    requires t.cells == s.cells && t.queue == s.queue + [p] && t.writer == s.writer
    requires t.accepted == s.accepted + [Ticket(c, s.conns[c].cur)]
    requires Stage(plans[c], k, t.cells, t.queue, t.writer) && Discipline(k)
    requires Inv(plans, s)
    ensures ConnsOk(plans, t)
  {
    assert ConnOk(plans, s, c) && PtrsOk(s.cells, s.conns);
    QueuedAppend(s.conns[c].fate, true);
    hide Inv, Stage, Discipline, Mine, Queued, ConnsOk, Undisturbed, PtrsOk;
    forall d | 0 <= d < |plans|
      ensures Mine(t.accepted, d) == Mine(s.accepted, d) + if d == c then [s.conns[c].cur] else []
    {
      MineAppend(s.accepted, Ticket(c, s.conns[c].cur), d);
    }
    forall d | 0 <= d < |plans| && d != c
      ensures Undisturbed(s.conns[d].rcv, s.cells, s.queue, s.writer, t.cells, t.queue, t.writer)
    {
      PushApart(s, c, p, d);
    }
    OthersKeep(plans, s, t, c);
  }

  lemma PushKeeps(plans: seq<seq<File>>, s: Sys, t: Sys, c: nat, p: nat)
    requires c < |plans| == |s.conns| && s.conns[c].rcv.pc == Handling(MSG_RECEIVE_COMPLETE)
    requires s.conns[c].rcv.fileptr == Some(p) && |s.refs| == |s.cells| && p < |s.cells|
    requires t == s.(conns := s.conns[c := Handed(s.conns[c], true)], queue := s.queue + [p],
                     refs := AddRef(s.refs, p, 1), accepted := s.accepted + [Ticket(c, s.conns[c].cur)])
    requires Inv(plans, s)
    ensures Inv(plans, t)
  {
    var k := Handed(s.conns[c], true);
    HandedMeans(s.conns[c], true);
    hide Stage, Discipline, SharedOk, ConnsOk, Complete, FileOf, Valid, Handed;
    PushStart(plans, s, c, p);
    PushShared(plans, s, t, c, k, p, Ticket(c, s.conns[c].cur));
    PushConns(plans, s, t, c, k, p);
  }

  lemma LoadedIsComplete(f: File, k: Conn, cells: seq<Cell>, queue: seq<nat>, w: Writer)
    requires LoadedWith(f, k, |f.bytes|, cells, queue, w)
    ensures Complete(cells[k.rcv.fileptr.value], f)
  {
    var c := cells[k.rcv.fileptr.value];
    assert c.data[..|f.bytes|] == c.data && f.bytes[..|f.bytes|] == f.bytes;
  }

  lemma PushApart(s: Sys, c: nat, p: nat, d: nat)
    requires PtrsOk(s.cells, s.conns) && c < |s.conns| && d < |s.conns| && c != d
    requires s.conns[c].rcv.fileptr == Some(p)
    ensures Undisturbed(s.conns[d].rcv, s.cells, s.queue, s.writer, s.cells, s.queue + [p], s.writer)
  {
  }

  lemma StoreKeeps(plans: seq<seq<File>>, s: Sys, c: nat)
    requires Inv(plans, s) && c < |plans| && s.conns[c].rcv.pc == Handling(MSG_RECEIVE_COMPLETE)
    ensures PtrOk(s, s.conns[c].rcv) && s.conns[c].rcv.fileptr.Some?
    ensures Inv(plans, StoreStep(s, c))
  {
    RefsLength(plans, s);
    hide Inv, Stage, Discipline, CloseOk;
    Part(plans, s, c);
    CompleteNow(plans[c], s, s.conns[c]);
    if s.running {
      PushKeeps(plans, s, StoreStep(s, c), c, s.conns[c].rcv.fileptr.value);
    } else {
      DiscardKeeps(plans, s, c);
    }
  }

  // The object of a connection whose completion message is being handled is complete.
  lemma CompleteNow(files: seq<File>, s: Sys, k: Conn)
    requires Stage(files, k, s.cells, s.queue, s.writer) && k.rcv.pc == Handling(MSG_RECEIVE_COMPLETE)
    ensures k.rcv.fileptr.Some? && k.rcv.fileptr.value < |s.cells|
            && s.cells[k.rcv.fileptr.value].filesize == s.cells[k.rcv.fileptr.value].rcvsize
  {
    HandlingDone(files, k, s.cells, s.queue, s.writer);
    hide Stage, Row;
  }

  // The writer does not run: the file is not queued.
  lemma DiscardKeeps(plans: seq<seq<File>>, s: Sys, c: nat)
    requires c < |plans| == |s.conns| && s.conns[c].rcv.pc == Handling(MSG_RECEIVE_COMPLETE)
    requires Inv(plans, s)
    ensures Inv(plans, With(s, c, Handed(s.conns[c], false)))
  {
    var k := s.conns[c];
    HandedMeans(k, false);
    hide Inv, Stage, Discipline, CloseOk, Queued, Handed, With;
    Part(plans, s, c);
    HandedStage(plans[c], k, false, s.cells, s.queue, s.writer, s.queue);
    QueuedAppend(k.fate, false);
    assert Queued(k.fate) + [] == Queued(k.fate);
    ConnOnly(plans, s, c, Handed(k, false));
  }

  lemma RefsLength(plans: seq<seq<File>>, s: Sys)
    requires Inv(plans, s)
    ensures |s.refs| == |s.cells| && |s.conns| == |plans|
  {
  }
}
