// What every interleaving keeps.
module TransferInv {
  import opened Options
  import opened FileStore
  import opened R = Receiver
  import opened Transfer
  import P = Protocol

  // ---- references ----

  // Connections whose receiver refers to object i.
  function Holders(conns: seq<Conn>, i: nat): nat {
    if conns == [] then 0
    else
      var n := |conns| - 1;
      Holders(conns[..n], i) + (if conns[n].rcv.fileptr == Some(i) then 1 else 0)
  }

  predicate Holds(w: Writer, i: nat) {
    !w.Free? && w.id == i
  }

  // Receivers, occurrences in the queue, and the writer's local pointer.
  function UseCount(s: Sys, i: nat): nat {
    Holders(s.conns, i) + multiset(s.queue)[i] + (if Holds(s.writer, i) then 1 else 0)
  }

  lemma {:induction false} HoldersUpdate(conns: seq<Conn>, c: nat, k: Conn, i: nat)
    requires c < |conns|
    ensures Holders(conns[c := k], i) + (if conns[c].rcv.fileptr == Some(i) then 1 else 0)
            == Holders(conns, i) + (if k.rcv.fileptr == Some(i) then 1 else 0)
  {
    var n := |conns| - 1;
    var next := conns[c := k];
    if c == n {
      assert next[..n] == conns[..n];
    } else {
      assert next[..n] == conns[..n][c := k];
      HoldersUpdate(conns[..n], c, k, i);
    }
  }

  lemma {:induction false} HoldersZero(conns: seq<Conn>, i: nat)
    requires forall c | 0 <= c < |conns| :: conns[c].rcv.fileptr != Some(i)
    ensures Holders(conns, i) == 0
  {
    if conns != [] {
      HoldersZero(conns[..|conns| - 1], i);
    }
  }

  lemma {:induction false} HoldersPositive(conns: seq<Conn>, c: nat, i: nat)
    requires c < |conns| && conns[c].rcv.fileptr == Some(i)
    ensures Holders(conns, i) >= 1
  {
    if c < |conns| - 1 {
      HoldersPositive(conns[..|conns| - 1], c, i);
    }
  }

  // ---- the invariant ----

  predicate PtrsOk(cells: seq<Cell>, conns: seq<Conn>) {
    && (forall c | 0 <= c < |conns| :: conns[c].rcv.fileptr.Some? ==> conns[c].rcv.fileptr.value < |cells|)
    && (forall c, d | 0 <= c < d < |conns| ::
          conns[c].rcv.fileptr.Some? ==> conns[c].rcv.fileptr != conns[d].rcv.fileptr)
  }

  predicate NoDup(q: seq<nat>) {
    forall i, j | 0 <= i < j < |q| :: q[i] != q[j]
  }

  predicate QueueOk(cells: seq<Cell>, queue: seq<nat>, w: Writer) {
    && (forall i | 0 <= i < |cells| :: |cells[i].data| == cells[i].filesize)
    && (forall j | 0 <= j < |queue| :: queue[j] < |cells|)
    && NoDup(queue)
    && (!w.Free? ==> w.id < |cells|)
    && (w.Opened? || w.Written? ==> queue != [] && queue[0] == w.id)
    && (w.Popped? ==> w.id !in queue)
  }

  predicate RefsOk(s: Sys) {
    |s.refs| == |s.cells| && forall i | 0 <= i < |s.cells| :: s.refs[i] == UseCount(s, i)
  }

  // Queued files that are not written yet.
  function Pending(s: Sys): seq<nat> {
    if s.writer.Written? && s.queue != [] then s.queue[1..] else s.queue
  }

  predicate Valid(plans: seq<seq<File>>, t: Ticket) {
    t.conn < |plans| && t.file < |plans[t.conn]|
  }

  function FileOf(plans: seq<seq<File>>, t: Ticket): File
    requires Valid(plans, t)
  {
    plans[t.conn][t.file]
  }

  predicate Complete(c: Cell, f: File) {
    c.meta == f.meta && c.filesize == c.rcvsize == |f.bytes| && c.data == f.bytes
  }

  // Every ticket is that of a file, and there are not more writes than tickets.
  predicate DiskLog(plans: seq<seq<File>>, written: seq<File>, log: seq<Ticket>) {
    |written| <= |log| && forall j | 0 <= j < |log| :: Valid(plans, log[j])
  }

  // The queued objects are complete and are the files of the log, in order.
  predicate QueueLog(plans: seq<seq<File>>, cells: seq<Cell>, queue: seq<nat>, log: seq<Ticket>) {
    |queue| == |log|
    && forall j | 0 <= j < |queue| ::
         queue[j] < |cells| && Valid(plans, log[j]) && Complete(cells[queue[j]], FileOf(plans, log[j]))
  }

  predicate LogOk(plans: seq<seq<File>>, s: Sys) {
    && |s.accepted| == |s.written| + |Pending(s)| && |s.queue| <= |s.accepted|
    && DiskLog(plans, s.written, s.accepted)
    && QueueLog(plans, s.cells, s.queue, s.accepted[|s.accepted| - |s.queue|..])
  }

  // Messages without the close message that a disconnect adds at the end.
  function Core(q: seq<int>): seq<int> {
    if q != [] && q[|q| - 1] == MSG_NETWORK_CLOSE then q[..|q| - 1] else q
  }

  predicate Alternates(s: seq<int>, even: int, odd: int) {
    forall i | 0 <= i < |s| :: s[i] == if i % 2 == 0 then even else odd
  }

  // The receiver's object describes f, holds a prefix of its bytes, and nobody else refers to it.
  predicate Loaded(f: File, r: Receiver, cells: seq<Cell>, queue: seq<nat>, w: Writer) {
    r.fileptr.Some? && var p := r.fileptr.value;
    p < |cells| && p !in queue && !Holds(w, p)
    && var c := cells[p];
    c.meta == f.meta && c.filesize == |c.data| == |f.bytes| && 0 <= c.rcvsize <= |f.bytes|
    && c.data[..c.rcvsize] == f.bytes[..c.rcvsize]
  }

  function Got(r: Receiver, cells: seq<Cell>): int
    requires r.fileptr.Some? && r.fileptr.value < |cells|
  {
    cells[r.fileptr.value].rcvsize
  }

  predicate Row(k: Conn, pc: Pc, state: int, q: seq<int>, replies: seq<string>, posted: nat, stats: nat, stored: nat) {
    k.rcv.pc == pc && k.rcv.state == state && Core(k.rcv.mq) == q && k.replies == replies
    && |Core(k.rcv.posted)| == posted && |k.stats| == stats && |k.fate| == stored
  }

  // The message thread has nothing left to do for the files before n.
  predicate AtRest(k: Conn, n: nat) {
    Row(k, Idle, WAITING, [], [], 2 * n, 2 * n, n) || Row(k, Resetting, COMPLETE, [], [], 2 * n, 2 * n, n)
  }

  predicate LoadedWith(f: File, k: Conn, got: int, cells: seq<Cell>, queue: seq<nat>, w: Writer) {
    Loaded(f, k.rcv, cells, queue, w) && Got(k.rcv, cells) == got
  }

  // Waiting for status 1: the fileinfo line is on its way, was dropped, is queued, is being
  // handled, or the answer is on its way back.
  predicate AwaitingReady(f: File, k: Conn, cells: seq<Cell>, queue: seq<nat>, w: Writer) {
    var n := k.cur;
    var line := P.InfoLine(InfoMsg(f));
    || ((k.wire == line || k.wire == "") && AtRest(k, n))
    || (k.wire == ""
        && (|| (k.rcv.rx == line && Row(k, Idle, WAITING, [MSG_NETWORK_RECEIVE], [], 2 * n + 1, 2 * n, n))
            || (k.rcv.rx == line && Row(k, Handling(MSG_NETWORK_RECEIVE), WAITING, [], [], 2 * n + 1, 2 * n, n))
            || (LoadedWith(f, k, 0, cells, queue, w)
                && (|| Row(k, Notify(READY), WAITING, [], [], 2 * n + 1, 2 * n, n)
                    || Row(k, Replying(READY), READY, [], [], 2 * n + 1, 2 * n, n)
                    || Row(k, Idle, READY, [], [StatusLine(READY)], 2 * n + 1, 2 * n + 1, n)))))
  }

  // Bytes are arriving: those received and those on the wire are the first `sent` bytes.
  predicate Streaming(f: File, k: Conn, sent: nat, cells: seq<Cell>, queue: seq<nat>, w: Writer) {
    var n := k.cur;
    Row(k, Idle, READY, [], [], 2 * n + 1, 2 * n + 1, n)
    && Loaded(f, k.rcv, cells, queue, w)
    && Got(k.rcv, cells) <= sent <= |f.bytes| && Got(k.rcv, cells) < |f.bytes|
    && k.wire == f.bytes[Got(k.rcv, cells)..sent]
  }

  // Waiting for status 2: bytes are on their way, or the file is complete and being handed over.
  predicate AwaitingDone(f: File, k: Conn, cells: seq<Cell>, queue: seq<nat>, w: Writer) {
    var n := k.cur;
    || Streaming(f, k, |f.bytes|, cells, queue, w)
    || (k.wire == ""
        && (|| (LoadedWith(f, k, |f.bytes|, cells, queue, w)
                && (|| Row(k, Idle, READY, [MSG_RECEIVE_COMPLETE], [], 2 * n + 2, 2 * n + 1, n)
                    || Row(k, Handling(MSG_RECEIVE_COMPLETE), READY, [], [], 2 * n + 2, 2 * n + 1, n)))
            || Row(k, Notify(COMPLETE), READY, [], [], 2 * n + 2, 2 * n + 1, n + 1)
            || Row(k, Replying(COMPLETE), COMPLETE, [], [], 2 * n + 2, 2 * n + 1, n + 1)
            || Row(k, Resetting, COMPLETE, [], [StatusLine(COMPLETE)], 2 * n + 2, 2 * n + 2, n + 1)
            || Row(k, Idle, WAITING, [], [StatusLine(COMPLETE)], 2 * n + 2, 2 * n + 2, n + 1)))
  }

  // Where the handshake can stand, for each phase of the client.
  predicate Stage(files: seq<File>, k: Conn, cells: seq<Cell>, queue: seq<nat>, w: Writer) {
    if k.phase.Resting? then k.cur <= |files| && k.wire == "" && AtRest(k, k.cur)
    else
      k.cur < |files| && var f := files[k.cur];
      match k.phase
      case AwaitReady => AwaitingReady(f, k, cells, queue, w)
      case Sending(sent) => sent < |f.bytes| && Streaming(f, k, sent, cells, queue, w)
      case _ => AwaitingDone(f, k, cells, queue, w)
  }

  // What a connection keeps that does not depend on shared objects.
  predicate Discipline(k: Conn) {
    && CloseOk(k.rcv) && k.rcv.open
    && Alternates(k.stats, READY, COMPLETE)
    && Alternates(Core(k.rcv.posted), MSG_NETWORK_RECEIVE, MSG_RECEIVE_COMPLETE)
  }

  // The files of connection c in the log.
  function Mine(log: seq<Ticket>, c: nat): seq<nat> {
    if log == [] then []
    else
      var n := |log| - 1;
      Mine(log[..n], c) + (if log[n].conn == c then [log[n].file] else [])
  }

  // The positions of true.
  function Queued(fate: seq<bool>): seq<nat> {
    if fate == [] then []
    else
      var n := |fate| - 1;
      Queued(fate[..n]) + (if fate[n] then [n] else [])
  }

  predicate ConnOk(plans: seq<seq<File>>, s: Sys, c: nat)
    requires c < |s.conns| == |plans|
  {
    Stage(plans[c], s.conns[c], s.cells, s.queue, s.writer)
    && Discipline(s.conns[c])
    && Mine(s.accepted, c) == Queued(s.conns[c].fate)
  }

  predicate ConnsOk(plans: seq<seq<File>>, s: Sys)
    requires |s.conns| == |plans|
  {
    forall c | 0 <= c < |plans| :: ConnOk(plans, s, c)
  }

  predicate SharedOk(plans: seq<seq<File>>, s: Sys) {
    PtrsOk(s.cells, s.conns) && QueueOk(s.cells, s.queue, s.writer) && RefsOk(s) && LogOk(plans, s)
  }

  predicate Inv(plans: seq<seq<File>>, s: Sys) {
    |s.conns| == |plans| && SharedOk(plans, s) && ConnsOk(plans, s)
  }

  predicate AllConform(plans: seq<seq<File>>) {
    forall c, n | 0 <= c < |plans| && 0 <= n < |plans[c]| :: Conforming(plans[c][n])
  }

  lemma InitInv(plans: seq<seq<File>>)
    ensures Inv(plans, Init(|plans|))
  {
    var s := Init(|plans|);
    assert LogOk(plans, s) && QueueOk(s.cells, s.queue, s.writer) && PtrsOk(s.cells, s.conns) && RefsOk(s);
    hide LogOk, QueueOk, PtrsOk, RefsOk;
    forall c | 0 <= c < |plans|
      ensures ConnOk(plans, s, c)
    {
      InitConn(plans[c]);
      hide Stage, Discipline;
    }
  }

  lemma InitConn(files: seq<File>)
    ensures var k := Conn(0, Resting, "", R.START, [], [], []); Stage(files, k, [], [], Free) && Discipline(k)
  {
  }

  // ---- frames ----

  // From one state to the next, the receiver's object stays as it is and stays exclusive.
  predicate Undisturbed(r: Receiver, cells: seq<Cell>, queue: seq<nat>, w: Writer,
                        cells': seq<Cell>, queue': seq<nat>, w': Writer) {
    r.fileptr.Some? && r.fileptr.value < |cells| ==>
      var p := r.fileptr.value;
      p < |cells'| && cells'[p] == cells[p]
      && (p !in queue ==> p !in queue')
      && (p !in queue && !Holds(w, p) ==> !Holds(w', p))
  }

  lemma LoadedFrame(f: File, r: Receiver, cells: seq<Cell>, queue: seq<nat>, w: Writer,
                    cells': seq<Cell>, queue': seq<nat>, w': Writer)
    requires Loaded(f, r, cells, queue, w) && Undisturbed(r, cells, queue, w, cells', queue', w')
    ensures Loaded(f, r, cells', queue', w') && Got(r, cells') == Got(r, cells)
  {
  }

  // A stage depends on shared objects only through the receiver's own object.
  lemma StageFrame(files: seq<File>, k: Conn,
                   cells: seq<Cell>, queue: seq<nat>, w: Writer,
                   cells': seq<Cell>, queue': seq<nat>, w': Writer)
    requires Stage(files, k, cells, queue, w) && Undisturbed(k.rcv, cells, queue, w, cells', queue', w')
    ensures Stage(files, k, cells', queue', w')
  {
    if k.cur < |files| && Loaded(files[k.cur], k.rcv, cells, queue, w) {
      LoadedFrame(files[k.cur], k.rcv, cells, queue, w, cells', queue', w');
      assert k.rcv.fileptr.value < |cells| && k.rcv.fileptr.value < |cells'|;
    }
    hide Undisturbed, Loaded, Row, AtRest, P.InfoLine;
  }

  // A step that changes one connection, but neither its object nor anything shared.
  lemma ConnOnly(plans: seq<seq<File>>, s: Sys, c: nat, k: Conn)
    requires Inv(plans, s) && c < |plans|
    requires k.rcv.fileptr == s.conns[c].rcv.fileptr && Queued(k.fate) == Queued(s.conns[c].fate)
    requires Stage(plans[c], k, s.cells, s.queue, s.writer) && Discipline(k)
    ensures Inv(plans, With(s, c, k))
  {
    hide Stage, Discipline, Holders, UseCount, LogOk, Mine, Queued, QueueOk;
    var t := With(s, c, k);
    forall i | 0 <= i < |s.cells|
      ensures t.refs[i] == UseCount(t, i)
    {
      HoldersUpdate(s.conns, c, k, i);
      UseCountIs(s, i);
      UseCountIs(t, i);
    }
    LogSame(plans, s, t);
    forall d | 0 <= d < |plans|
      ensures ConnOk(plans, t, d)
    {
      assert ConnOk(plans, s, d) && ConnOk(plans, s, c);
      assert t.conns[d] == if d == c then k else s.conns[d];
    }
  }

  lemma UseCountIs(s: Sys, i: nat)
    ensures UseCount(s, i) == Holders(s.conns, i) + multiset(s.queue)[i] + (if Holds(s.writer, i) then 1 else 0)
  {
  }

  lemma LogSame(plans: seq<seq<File>>, s: Sys, t: Sys)
    requires LogOk(plans, s)
    requires t.cells == s.cells && t.queue == s.queue && t.writer == s.writer && t.written == s.written
             && t.accepted == s.accepted
    ensures LogOk(plans, t)
  {
  }
}
