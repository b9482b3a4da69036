// Any number of connections, each with a conforming client, a network thread and a message
// thread, and one writer thread: every interleaving of their atomic steps.
module Transfer {
  import opened Options
  import opened FileStore
  import opened Network
  import opened R = Receiver
  import T = CText
  import P = Protocol

  // ---- state ----

  datatype Phase =
    | Resting                 // between two files
    | AwaitReady              // fileinfo sent, waiting for status 1
    | Sending(sent: nat)
    | AwaitDone               // all bytes sent, waiting for status 2

  datatype Conn = Conn(
    cur: nat,                 // files the client has completed
    phase: Phase,
    wire: string,             // bytes sent by the client, not yet read by the network thread
    rcv: Receiver,
    replies: seq<string>,     // lines written by the server, not yet read by the client
    stats: seq<int>,          // every status ever written
    fate: seq<bool>)          // for every file handed to NewFile: was it queued?

  datatype Writer =
    | Free
    | Opened(id: nat)         // save_first holds ptr
    | Written(id: nat)        // fwrite is done
    | Popped(id: nat)         // pop_front is done

  // File number `file` of connection `conn`.
  datatype Ticket = Ticket(conn: nat, file: nat)

  datatype Sys = Sys(
    cells: seq<Cell>,         // every FileInfo ever created
    refs: seq<int>,           // its use_count
    queue: seq<nat>,          // quenf_
    running: bool,
    writer: Writer,
    written: seq<File>,          // every write of a file, in order
    accepted: seq<Ticket>,    // files queued, in order
    conns: seq<Conn>)

  datatype Label =
    | Announce(c: nat)
    | SendBytes(c: nat, n: nat)
    | GetReply(c: nat)
    | Deliver(c: nat, n: nat)
    | Hangup(c: nat)
    | TakeMsg(c: nat)
    | Parse(c: nat, junk: string)
    | Store(c: nat)
    | Notify1(c: nat)
    | Notify2(c: nat)
    | Finish(c: nat)
    | WriterStart
    | WriterStop
    | SaveOpen
    | SaveFail
    | SaveWrite(k: nat, root: string)   // under the root path that save_first read when it began
    | SavePop
    | SaveReturn

  // ---- client rules ----

  predicate NoNewline(m: Meta) {
    '\n' !in m.gid && '\n' !in m.uid && '\n' !in m.cid && '\n' !in m.grid
    && '\n' !in m.field && '\n' !in m.tmobs && '\n' !in m.subpath && '\n' !in m.filename
  }

  // A file a client may send: not empty, described by one clean line that fits an output slot.
  predicate Conforming(f: File) {
    f.bytes != "" && P.CleanInfo(InfoMsg(f)) && NoNewline(f.meta) && |P.InfoLine(InfoMsg(f))| < 1024
  }

  function StatusLine(status: int): string {
    P.StatLine(P.FileStatMsg("", "", "", "", status))
  }

  // What a client reads in a reply.
  function StatusOf(line: string): Option<int> {
    match P.Resolve(line)
    case Some(FileStat(s)) => Some(s.status)
    case _ => None
  }

  // ---- steps ----

  function Init(n: nat): Sys {
    Sys([], [], [], false, Free, [], [], seq(n, i => Conn(0, Resting, "", R.START, [], [], [])))
  }

  function LineText(rx: string): string {
    rx[..T.IndexOf(rx, '\n')]
  }

  predicate PtrOk(s: Sys, r: Receiver) {
    |s.refs| == |s.cells| && (r.fileptr.Some? ==> r.fileptr.value < |s.cells|)
  }

  predicate ConnEnabled(files: seq<File>, s: Sys, l: Label, k: Conn) {
    match l
    case Announce(_) => k.phase.Resting? && k.cur < |files|
    case SendBytes(_, n) =>
      k.phase.Sending? && k.cur < |files| && 1 <= n <= TCP_PACK_SIZE && k.phase.sent + n <= |files[k.cur].bytes|
    case GetReply(_) => k.replies != []
    // a control line is read as a whole; data is cut anywhere
    case Deliver(_, n) =>
      n <= |k.wire| && (k.phase.AwaitReady? ==> n == |k.wire|)
      && R.Enabled(k.rcv, Arrive(k.wire[..n], false))
      && (k.rcv.state == READY ==> k.rcv.fileptr.Some? && PtrOk(s, k.rcv))
    case Hangup(_) => R.Enabled(k.rcv, Fail)
    case TakeMsg(_) => R.Enabled(k.rcv, Take)
    case Parse(_, junk) =>
      k.rcv.pc == Handling(MSG_NETWORK_RECEIVE) && '\n' in k.rcv.rx && PtrOk(s, k.rcv)
      && (match P.Resolve(LineText(k.rcv.rx))
          case Some(FileInfo(info)) =>
            Reusable(s.cells, s.refs, k.rcv.fileptr, info.filesize) || |junk| == info.filesize
          case _ => true)
    case Store(_) =>
      k.rcv.pc == Handling(MSG_RECEIVE_COMPLETE) && k.rcv.fileptr.Some? && PtrOk(s, k.rcv)
    case Notify1(_) => R.Enabled(k.rcv, SetState)
    case Notify2(_) => R.Enabled(k.rcv, Reply)
    case Finish(_) => R.Enabled(k.rcv, Reset)
    case _ => false
  }

  predicate WriterEnabled(s: Sys, l: Label) {
    match l
    case WriterStart => !s.running && s.writer.Free?
    case WriterStop => s.running && s.writer.Free?
    case SaveOpen => s.running && s.writer.Free? && s.queue != [] && s.queue[0] < |s.refs|
    case SaveFail => s.writer.Opened? && s.writer.id < |s.refs|
    case SaveWrite(k, _) =>
      s.writer.Opened? && s.writer.id < |s.cells| && k <= |s.cells[s.writer.id].data|
          && NamesFile(s.cells[s.writer.id].meta)
    case SavePop => s.writer.Written? && s.queue != [] && s.queue[0] < |s.refs|
    case SaveReturn => s.writer.Popped? && s.writer.id < |s.refs|
    case _ => false
  }

  predicate OfConn(l: Label) {
    match l
    case WriterStart | WriterStop | SaveOpen | SaveFail | SaveWrite(_, _) | SavePop | SaveReturn => false
    case _ => true
  }

  predicate CanStep(plans: seq<seq<File>>, s: Sys, l: Label) {
    if OfConn(l) then l.c < |s.conns| == |plans| && ConnEnabled(plans[l.c], s, l, s.conns[l.c])
    else WriterEnabled(s, l)
  }

  function AddRef(refs: seq<int>, i: nat, d: int): seq<int>
    requires i < |refs|
  {
    refs[i := refs[i] + d]
  }

  // fileptr_ = make_shared(...): the old object loses a reference, the new one has one.
  function Replaced(refs: seq<int>, ptr: Option<nat>): seq<int>
    requires ptr.Some? ==> ptr.value < |refs|
  {
    (if ptr.Some? then AddRef(refs, ptr.value, -1) else refs) + [1]
  }

  // The line is read, resolved, and a fileinfo is taken into the receiver's object.
  function ParseStep(s: Sys, c: nat, junk: string): Sys
    requires c < |s.conns| && PtrOk(s, s.conns[c].rcv)
    requires s.conns[c].rcv.pc == Handling(MSG_NETWORK_RECEIVE)
  {
    var k := s.conns[c];
    match P.Resolve(LineText(k.rcv.rx))
    case Some(FileInfo(info)) =>
      if Reusable(s.cells, s.refs, k.rcv.fileptr, info.filesize) then
        var p := k.rcv.fileptr.value;
        s.(cells := s.cells[p := s.cells[p].(meta := MetaOf(info), rcvsize := 0)],
           conns := s.conns[c := Local(k, Parsed(Adopted(p)))])
      else
        s.(cells := s.cells + [Cell(MetaOf(info), info.filesize, 0, junk)],
           refs := Replaced(s.refs, k.rcv.fileptr),
           conns := s.conns[c := Local(k, Parsed(Adopted(|s.cells|)))])
    case Some(_) => s.(conns := s.conns[c := Local(k, Parsed(Ignored))])
    case None => s.(conns := s.conns[c := Local(k, Parsed(Bad))])
  }

  function StoreStep(s: Sys, c: nat): Sys
    requires c < |s.conns| && PtrOk(s, s.conns[c].rcv) && s.conns[c].rcv.fileptr.Some?
    requires s.conns[c].rcv.pc == Handling(MSG_RECEIVE_COMPLETE)
  {
    var k := s.conns[c];
    var p := k.rcv.fileptr.value;
    if s.cells[p].filesize == s.cells[p].rcvsize then
      var k1 := k.(rcv := R.Next(k.rcv, Stored(true)), fate := k.fate + [s.running]);
      var s1 := s.(conns := s.conns[c := k1]);
      if s.running then
        s1.(queue := s.queue + [p], refs := AddRef(s.refs, p, 1), accepted := s.accepted + [Ticket(c, k.cur)])
      else s1
    else s.(conns := s.conns[c := Local(k, Stored(false))])
  }

  function DeliverStep(s: Sys, c: nat, n: nat): Sys
    requires c < |s.conns| && n <= |s.conns[c].wire|
    requires var k := s.conns[c];
             R.Enabled(k.rcv, Arrive(k.wire[..n], false))
             && (k.rcv.state == READY ==> k.rcv.fileptr.Some? && PtrOk(s, k.rcv))
  {
    var k := s.conns[c];
    var chunk, rest := k.wire[..n], k.wire[n..];
    if k.rcv.state == READY then
      var p := k.rcv.fileptr.value;
      var cell := Arrived(s.cells[p], chunk);
      s.(cells := s.cells[p := cell],
         conns := s.conns[c := k.(wire := rest, rcv := R.Next(k.rcv, Arrive(chunk, Full(cell))))])
    else
      s.(conns := s.conns[c := k.(wire := rest, rcv := R.Next(k.rcv, Arrive(chunk, false)))])
  }

  function With(s: Sys, c: nat, k: Conn): Sys
    requires c < |s.conns|
  {
    s.(conns := s.conns[c := k])
  }

  function Announced(files: seq<File>, k: Conn): Conn
    requires k.cur < |files|
  {
    k.(phase := AwaitReady, wire := k.wire + P.InfoLine(InfoMsg(files[k.cur])))
  }

  function Sent(files: seq<File>, k: Conn, n: nat): Conn
    requires k.phase.Sending? && k.cur < |files| && k.phase.sent + n <= |files[k.cur].bytes|
  {
    var bytes := files[k.cur].bytes;
    var next := k.phase.sent + n;
    k.(wire := k.wire + bytes[k.phase.sent..next], phase := if next == |bytes| then AwaitDone else Sending(next))
  }

  // A status nobody waits for is ignored.
  function ReadReply(k: Conn): Conn
    requires k.replies != []
  {
    var k1 := k.(replies := k.replies[1..]);
    var status := StatusOf(k.replies[0]);
    if status == Some(READY) && k.phase.AwaitReady? then k1.(phase := Sending(0))
    else if status == Some(COMPLETE) && k.phase.AwaitDone? then k1.(phase := Resting, cur := k.cur + 1)
    else k1
  }

  // A step of the receiver that touches nothing but the connection.
  function Local(k: Conn, e: R.Event): Conn
    requires R.Enabled(k.rcv, e)
  {
    k.(rcv := R.Next(k.rcv, e))
  }

  // notify_status writes its line.
  function Replied(k: Conn): Conn
    requires k.rcv.pc.Replying?
  {
    var status := k.rcv.pc.status;
    Local(k, Reply).(replies := k.replies + [StatusLine(status)], stats := k.stats + [status])
  }

  function WriterStep(s: Sys, l: Label): Sys
    requires WriterEnabled(s, l)
  {
    match l
    case WriterStart => s.(running := true)
    case WriterStop => s.(running := false)
    case SaveOpen => s.(writer := Opened(s.queue[0]), refs := AddRef(s.refs, s.queue[0], 1))
    case SaveFail => s.(writer := Free, refs := AddRef(s.refs, s.writer.id, -1))
    case SaveWrite(k, _) =>
      var cell := s.cells[s.writer.id];
      s.(writer := Written(s.writer.id), written := s.written + [File(cell.meta, cell.data[..k])])
    case SavePop => s.(writer := Popped(s.writer.id), queue := s.queue[1..], refs := AddRef(s.refs, s.queue[0], -1))
    case SaveReturn => s.(writer := Free, refs := AddRef(s.refs, s.writer.id, -1))
  }

  function Step(plans: seq<seq<File>>, s: Sys, l: Label): Sys
    requires CanStep(plans, s, l)
  {
    match l
    case Announce(c) => With(s, c, Announced(plans[c], s.conns[c]))
    case SendBytes(c, n) => With(s, c, Sent(plans[c], s.conns[c], n))
    case GetReply(c) => With(s, c, ReadReply(s.conns[c]))
    case Deliver(c, n) => DeliverStep(s, c, n)
    case Hangup(c) => With(s, c, Local(s.conns[c], Fail))
    case TakeMsg(c) => With(s, c, Local(s.conns[c], Take))
    case Parse(c, junk) => ParseStep(s, c, junk)
    case Store(c) => StoreStep(s, c)
    case Notify1(c) => With(s, c, Local(s.conns[c], SetState))
    case Notify2(c) => With(s, c, Replied(s.conns[c]))
    case Finish(c) => With(s, c, Local(s.conns[c], Reset))
    case _ => WriterStep(s, l)
  }

  predicate CanRun(plans: seq<seq<File>>, s: Sys, ls: seq<Label>)
    decreases |ls|
  {
    ls == [] || (CanStep(plans, s, ls[0]) && CanRun(plans, Step(plans, s, ls[0]), ls[1..]))
  }

  function Run(plans: seq<seq<File>>, s: Sys, ls: seq<Label>): Sys
    requires CanRun(plans, s, ls)
    decreases |ls|
  {
    if ls == [] then s else Run(plans, Step(plans, s, ls[0]), ls[1..])
  }
}
