// The receiver object: the callback of the network thread and the handlers of the message
// thread. Each is proved to do the steps of the Receiver machine, on real objects.
module FileReceiver {
  import opened Options
  import opened FileStore
  import opened Network
  import R = Receiver
  import W = FileWritter
  import T = TcpClient
  import F = Framing
  import A = AsciiProtocol
  import P = Protocol
  import Q = MessageQueue
  import X = Transfer
  import C = CText

  // The callback of the network thread, as registered with the connection.
  const READER: nat := 0

  // The handlers for messages 128, 129 and 130.
  const HANDLERS: seq<Q.Slot> := [1, 2, 3]

  function Ids(q: seq<Q.Entry>): seq<int> {
    seq(|q|, i requires 0 <= i < |q| => q[i].msg.id)
  }

  predicate AllPosts(q: seq<Q.Entry>) {
    forall i | 0 <= i < |q| :: q[i].priority == Q.POST
  }

  // What becomes of a line with this meaning, if it is object number ptr that is adopted.
  function Outcome(base: Option<P.Message>, ptr: Option<nat>): R.Outcome {
    if base == None then R.Bad
    else if base.value.FileInfo? then R.Adopted(ptr.GetOr(0))
    else R.Ignored
  }

  // The steps of on_network_receive.
  function ReceiveEvents(o: R.Outcome): seq<R.Event> {
    if o.Adopted? then [R.Parsed(o), R.SetState, R.Reply] else [R.Parsed(o)]
  }

  // The steps of on_receive_complete.
  function CompleteEvents(ok: bool): seq<R.Event> {
    [R.Stored(ok), R.SetState, R.Reply, R.Reset]
  }

  // What on_network_receive as a whole does to the receiver.
  function AfterReceive(r: R.Receiver, o: R.Outcome): R.Receiver {
    match o
    case Bad => r.(open := false, pc := R.Idle)
    case Ignored => r.(pc := R.Idle)
    case Adopted(p) => r.(fileptr := Some(p), state := R.READY, pc := R.Idle)
  }

  lemma ReceiveEventsDo(r: R.Receiver, o: R.Outcome)
    requires r.pc == R.Handling(R.MSG_NETWORK_RECEIVE)
    ensures R.AllEnabled(r, ReceiveEvents(o)) && R.Exec(r, ReceiveEvents(o)) == AfterReceive(r, o)
  {
    var es := ReceiveEvents(o);
    Unfold(r, es);
    if o.Adopted? {
      Unfold(R.Next(r, es[0]), es[1..]);
      Unfold(R.Next(R.Next(r, es[0]), es[1]), es[2..]);
    }
  }

  // What on_receive_complete as a whole does to the receiver.
  function AfterComplete(r: R.Receiver): R.Receiver {
    r.(state := R.WAITING, pc := R.Idle)
  }

  lemma CompleteEventsDo(r: R.Receiver, ok: bool)
    requires r.pc == R.Handling(R.MSG_RECEIVE_COMPLETE)
    ensures R.AllEnabled(r, CompleteEvents(ok)) && R.Exec(r, CompleteEvents(ok)) == AfterComplete(r)
  {
    var es := CompleteEvents(ok);
    var r1 := R.Next(r, es[0]);
    var r2 := R.Next(r1, es[1]);
    var r3 := R.Next(r2, es[2]);
    Unfold(r3, es[3..]);
    Unfold(r2, es[2..]);
    Unfold(r1, es[1..]);
    Unfold(r, es);
  }

  lemma Unfold(r: R.Receiver, es: seq<R.Event>)
    requires es != [] && R.Enabled(r, es[0])
    ensures R.AllEnabled(r, es) <==> R.AllEnabled(R.Next(r, es[0]), es[1..])
    ensures R.AllEnabled(r, es) ==> R.Exec(r, es) == R.Exec(R.Next(r, es[0]), es[1..])
  {
  }

  // Texts that agree up to a NUL are the same C string.
  lemma SameText(buff: seq<char>, text: seq<char>)
    requires |text| < |buff| && buff[|text|] == '\0' && buff[..|text|] == text
    ensures P.Resolve(buff) == P.Resolve(text)
  {
    var m := C.IndexOf(text, '\0');
    assert buff[..m] == text[..m];
    C.IndexOfUnique(buff, '\0', m);
    assert C.UpToNul(buff) == C.UpToNul(text);
    hide C.UpToNul, P.TypeOf, P.TokensOf, P.InfoOf, P.StatOf, C.IEquals;
  }

  lemma LineIsText(rx: seq<char>)
    requires F.NewlineAt(rx) != -1
    ensures X.LineText(rx) == rx[..F.NewlineAt(rx)]
  {
    F.NewlineIsFirst(rx);
    C.IndexOfUnique(rx, '\n', F.NewlineAt(rx));
  }

  class FileReceiver {
    const fwptr_: W.FileWritter
    const ascproto_: A.AsciiProtocol
    const bufrcv_: array<char>
    const mq: Q.MessageQueue           // the message queue the receiver extends
    var fileptr_: W.FileInfo?
    var tcpptr_: T.TCPClient?
    var state_: int

    ghost var client: T.TCPClient?     // the connection, after tcpptr_ is reset too
    ghost var made: nat                // FileInfo objects this receiver has made

    // The objects and buffers of a coupled receiver are all different.
    ghost predicate Wired()
      reads this, client, ascproto_
    {
      && client != null && (tcpptr_ == null || tcpptr_ == client)
      && client.crcrcv_ != client.crcsnd_
      && bufrcv_.Length == TCP_PACK_SIZE
      && bufrcv_ != client.bufrcv_ && bufrcv_ != ascproto_.buff_ && ascproto_.buff_ != client.bufrcv_
    }

    ghost predicate ClientOk()
      requires Wired()
      reads this, client, ascproto_, client.crcrcv_, client.crcsnd_, client.crcrcv_.data, client.crcsnd_.data
    {
      && client.Valid() && !client.usebuf_
      && bufrcv_ != client.crcrcv_.data && bufrcv_ != client.crcsnd_.data
      && ascproto_.buff_ != client.crcrcv_.data && ascproto_.buff_ != client.crcsnd_.data
    }

    ghost predicate QueueOk()
      reads mq
    {
      mq.Valid() && mq.mq_ && AllPosts(mq.queue)
    }

    ghost predicate FileOk()
      reads this`fileptr_, this`made, this`client, if client == null then {} else {client.crcrcv_, client.crcsnd_}
    {
      && (fileptr_ == null <==> made == 0)
      && (fileptr_ != null ==> fileptr_.filedata != bufrcv_ && fileptr_.filedata != ascproto_.buff_)
      && (fileptr_ != null && client != null ==>
            && fileptr_.filedata != client.bufrcv_
            && fileptr_.filedata != client.crcrcv_.data && fileptr_.filedata != client.crcsnd_.data)
    }

    ghost predicate Valid()
      reads this, client, ascproto_, ascproto_.buff_, mq, fileptr_
      reads if client == null then {} else {client.crcrcv_, client.crcsnd_, client.crcrcv_.data, client.crcsnd_.data}
    {
      Wired() && ClientOk() && QueueOk() && FileOk() && ascproto_.Valid()
    }

    // The bytes of the last read.
    ghost function Rx(): seq<char>
      reads this`client, client, if client == null then {} else {client.bufrcv_}
    {
      if client != null && 0 <= client.bytercv_ <= client.bufrcv_.Length then client.bufrcv_[..client.bytercv_] else []
    }

    // The number of the object that fileptr_ refers to.
    ghost function Number(): Option<nat>
      reads this`made
    {
      if made == 0 then None else Some(made - 1)
    }

    // The receiver as the machine sees it, with the message thread between two messages.
    ghost function View(armed: bool): R.Receiver
      reads this, client, mq, if client == null then {} else {client.bufrcv_}
    {
      R.Receiver(state_, Number(), tcpptr_ != null, client != null && client.sockopen, armed,
                 Rx(), Ids(mq.queue), Ids(mq.sent), R.Idle)
    }

    constructor (fwptr: W.FileWritter)
      ensures fwptr_ == fwptr && state_ == R.WAITING && fileptr_ == null && tcpptr_ == null && client == null
      ensures made == 0 && mq.Valid() && !mq.mq_ && ascproto_.Valid() && bufrcv_.Length == TCP_PACK_SIZE
      ensures fresh(mq) && fresh(mq.funcs_) && fresh(ascproto_) && fresh(ascproto_.buff_) && fresh(bufrcv_)
              && bufrcv_ != ascproto_.buff_
    {
      fwptr_ := fwptr;
      state_, fileptr_, tcpptr_, client, made := R.WAITING, null, null, null, 0;
      ascproto_ := new A.AsciiProtocol();
      bufrcv_ := new char[TCP_PACK_SIZE];
      mq := new Q.MessageQueue();
    }

    method RegisterMessages()
      requires mq.Valid()
      modifies mq.funcs_
      ensures forall i | 0 <= i < Q.MQFUNC_SIZE ::
                mq.funcs_[i] == if i < |HANDLERS| then old(mq.funcs_[i]) + [HANDLERS[i]] else old(mq.funcs_[i])
    {
      var _ := mq.RegisterMessage(R.MSG_NETWORK_RECEIVE, HANDLERS[0]);
      var _ := mq.RegisterMessage(R.MSG_NETWORK_CLOSE, HANDLERS[1]);
      var _ := mq.RegisterMessage(R.MSG_RECEIVE_COMPLETE, HANDLERS[2]);
    }

    // created tells whether the system could create the message queue.
    method CoupleNetwork(connection: T.TCPClient, created: bool) returns (ok: bool)
      requires mq.Valid() && !mq.mq_ && ascproto_.Valid() && bufrcv_.Length == TCP_PACK_SIZE
      requires state_ == R.WAITING && fileptr_ == null && made == 0 && tcpptr_ == null
      requires connection.Valid() && !connection.usebuf_
      requires bufrcv_ != connection.bufrcv_ && bufrcv_ != connection.crcrcv_.data && bufrcv_ != connection.crcsnd_.data
      requires ascproto_.buff_ != bufrcv_ && ascproto_.buff_ != connection.bufrcv_
      requires ascproto_.buff_ != connection.crcrcv_.data && ascproto_.buff_ != connection.crcsnd_.data
      modifies this`tcpptr_, this`client, mq, mq.funcs_, connection`cbrcv_
      ensures ok == created
      ensures ok ==> Valid() && client == connection && View(true) == R.START.(rx := Rx(), open := connection.sockopen)
      ensures ok ==> connection.cbrcv_ == [READER]
      ensures !ok ==> tcpptr_ == null && connection.cbrcv_ == old(connection.cbrcv_)
      ensures forall i | 0 <= i < Q.MQFUNC_SIZE ::
                mq.funcs_[i] == if i < |HANDLERS| then old(mq.funcs_[i]) + [HANDLERS[i]] else old(mq.funcs_[i])
    {
      assert connection.crcrcv_ != connection.crcsnd_;
      hide T.TCPClient.Valid, A.AsciiProtocol.Valid;
      RegisterMessages();
      ok := mq.Start(created);
      if ok {
        tcpptr_ := connection;
        client := connection;
        tcpptr_.RegisterRead(READER);
      }
    }

    method Post(id: int)
      requires QueueOk()
      modifies mq`queue, mq`sent
      ensures QueueOk()
      ensures Ids(mq.queue) == Ids(old(mq.queue)) + [id] && Ids(mq.sent) == Ids(old(mq.sent)) + [id]
    {
      var e := Q.Entry(Q.MsgUnit(id, 0, 0), Q.POST);
      Q.InsertLast(mq.queue, e);
      mq.PostMessage(id, 0, 0);
      assert mq.queue == old(mq.queue) + [e];
    }

    // The reuse rule, on the lists of the one object that fileptr_ refers to, if any.
    ghost predicate MayKeep(filesize: int)
      reads this`fileptr_, fileptr_, if fileptr_ == null then {} else {fileptr_.filedata}
    {
      Reusable(ValueOf(fileptr_), CountOf(fileptr_), PtrOf(fileptr_), filesize)
    }

    // All that a handler's contract speaks of.
    ghost function Now(armed: bool): Snap
      reads this, client, mq, if client == null then {} else {client.bufrcv_}
      reads fileptr_, if fileptr_ == null then {} else {fileptr_.filedata}
    {
      Snap(View(armed), Wire(), fileptr_, ValueOf(fileptr_), CountOf(fileptr_))
    }

    // What was sent on the connection.
    ghost function Wire(): seq<char>
      reads this`client, client
    {
      if client == null then [] else client.wire
    }

    ghost function Held(): set<W.FileInfo>
      reads this`fileptr_
    {
      if fileptr_ == null then {} else {fileptr_}
    }

    // The callback of a completed read, whose bytes are Rx().
    method NetworkReceive(ec: bool, ghost pc: R.Pc)
      requires Valid()
      requires !ec ==> tcpptr_ != null && Rx() != []
      requires !ec && state_ == R.READY ==>
                 fileptr_ != null && 0 <= fileptr_.rcvsize && fileptr_.rcvsize + |Rx()| <= fileptr_.filedata.Length
      modifies mq`queue, mq`sent, bufrcv_, client`taken, client.crcrcv_`first, client.crcrcv_`count
      modifies Held()`rcvsize, if fileptr_ == null then {} else {fileptr_.filedata}
      ensures Valid()
      ensures ec ==> View(false).(pc := pc) == R.Next(old(View(true)).(pc := pc), R.Fail)
      ensures !ec ==>
                View(true).(pc := pc) == R.Next(old(View(true)).(pc := pc), R.Arrive(old(Rx()), state_ == R.READY
                    && Full(fileptr_.Value())))
      ensures fileptr_ != null ==>
                fileptr_.Value() == if !ec && state_ == R.READY then Arrived(old(fileptr_.Value()), old(Rx()))
                                    else old(fileptr_.Value())
    {
      hide T.TCPClient.Valid, T.TCPClient.Received, A.AsciiProtocol.Valid, Q.MessageQueue.Valid, Arrived, Full,
           AllPosts, Ids;
      hide W.FileInfo.Value;
      if ec {
        Post(R.MSG_NETWORK_CLOSE);
      } else if state_ == R.READY {
        var full := ReadData();
        if full {
          Post(R.MSG_RECEIVE_COMPLETE);
        }
      } else if state_ == R.WAITING {
        Post(R.MSG_NETWORK_RECEIVE);
      }
    }

    method ReadData() returns (full: bool)
      requires Valid() && tcpptr_ != null && fileptr_ != null
      requires 0 <= fileptr_.rcvsize && fileptr_.rcvsize + |Rx()| <= fileptr_.filedata.Length
      modifies bufrcv_, client`taken, client.crcrcv_`first, client.crcrcv_`count
      modifies fileptr_`rcvsize, fileptr_.filedata
      ensures Valid() && Rx() == old(Rx())
      ensures fileptr_.Value() == Arrived(old(fileptr_.Value()), old(Rx())) && full == Full(fileptr_.Value())
    {
      hide A.AsciiProtocol.Valid, Q.MessageQueue.Valid, Arrived, Full;
      var n := tcpptr_.Read(bufrcv_, TCP_PACK_SIZE, 0);
      assert n == |Rx()| && bufrcv_[..n] == Rx();
      full := fileptr_.DataArrive(bufrcv_, n);
    }

    method NotifyStatus(status: int, k: nat, ghost armed: bool)
      requires Valid() && tcpptr_ != null && 0 <= status < 10
      requires ReplyFits(status, k)
      modifies this`state_, ascproto_`ibuf_, ascproto_`printed, ascproto_.buff_
      modifies client`accepted, client`wire, client`flight, client.crcsnd_`first, client.crcsnd_`count,
               client.crcsnd_.data
      ensures Valid() && Now(armed) == Notified(old(Now(armed)), status, k)
    {
      assert client != null;
      hide Valid, Now, Reply, ReplyFits;
      SetState(status, armed);
      WriteStatus(status, k, armed);
    }

    method SetState(status: int, ghost armed: bool)
      requires Valid()
      modifies this`state_
      ensures Valid() && Now(armed) == InState(old(Now(armed)), status)
    {
      state_ := status;
    }

    // The line of the status is printed and sent.
    method WriteStatus(status: int, k: nat, ghost armed: bool)
      requires Valid() && tcpptr_ != null && 0 <= status < 10 && ReplyFits(status, k)
      modifies ascproto_`ibuf_, ascproto_`printed, ascproto_.buff_
      modifies client`accepted, client`wire, client`flight, client.crcsnd_`first, client.crcsnd_`count,
               client.crcsnd_.data
      ensures Valid() && Now(armed) == old(Now(armed)).(wire := old(Now(armed)).wire + Reply(status, k))
    {
      assert client != null;
      hide Valid, Now;
      var tosend := StatusText(status, armed);
      Send(tosend, k, armed);
    }

    method StatusText(status: int, ghost armed: bool) returns (tosend: string)
      requires Valid() && 0 <= status < 10
      modifies ascproto_`ibuf_, ascproto_`printed, ascproto_.buff_
      ensures Valid() && Now(armed) == old(Now(armed)) && tosend == X.StatusLine(status)
    {
      StatusLineFits(status);
      var filestat := P.FileStatMsg("", "", "", "", status);
      var at, n := ascproto_.CompactFileStat(Some(filestat));
      tosend := ascproto_.buff_[at.value..at.value + n];
      hide X.StatusLine, A.AsciiProtocol.Valid, Q.MessageQueue.Valid, T.TCPClient.ReceiveOk;
    }

    method Send(tosend: string, k: nat, ghost armed: bool)
      requires Valid() && tcpptr_ != null && k <= |tosend|
      modifies client`accepted, client`wire, client`flight, client.crcsnd_`first, client.crcsnd_`count,
               client.crcsnd_.data
      ensures Valid() && Now(armed) == old(Now(armed)).(wire := old(Now(armed)).wire + tosend[..k])
    {
      hide Ids, AllPosts, A.AsciiProtocol.Valid, Q.MessageQueue.Valid, T.TCPClient.ReceiveOk, T.TCPClient.SendOk;
      var _ := tcpptr_.Write(Some(tosend), |tosend|, k);
      assert Wire() == old(Wire()) + tosend[..k];
    }

    // Reads the control line and resolves it.
    method ResolveLine(ghost armed: bool) returns (base: Option<P.Message>)
      requires Valid() && tcpptr_ != null && F.NewlineAt(Rx()) != -1
      modifies bufrcv_, client`taken, client.crcrcv_`first, client.crcrcv_`count
      ensures Valid() && Rx() == old(Rx()) && Now(armed) == old(Now(armed))
      ensures Says(Rx(), base)
    {
      hide Valid, Rx, Now, Says, F.NewlineAt, P.Resolve;
      var pos := ReadLine(armed);
      base := ascproto_.Resolve(bufrcv_[..]);
      SaysWhatIsRead(Rx(), bufrcv_[..], pos);
    }

    method ReadLine(ghost armed: bool) returns (pos: nat)
      requires Valid() && tcpptr_ != null && F.NewlineAt(Rx()) != -1
      modifies bufrcv_, client`taken, client.crcrcv_`first, client.crcrcv_`count
      ensures Valid() && Rx() == old(Rx()) && Now(armed) == old(Now(armed))
      ensures pos == F.NewlineAt(Rx()) && pos < bufrcv_.Length
      ensures bufrcv_[..pos] == Rx()[..pos] && bufrcv_[pos] == '\0'
    {
      ghost var rx := Rx();
      hide A.AsciiProtocol.Valid, Q.MessageQueue.Valid, F.NewlineAt, Ids, AllPosts;
      pos := F.TakeNextLine(tcpptr_, bufrcv_);
      assert bufrcv_[..pos] == bufrcv_[..pos + 1][..pos] == rx[..pos];
      bufrcv_[pos] := '\0';
    }

    // A new object, unless nobody else holds the old one and its size fits.
    method Renew(filesize: int)
      requires FileOk() && filesize >= 0
      modifies this`fileptr_, this`made, Held()`useCount
      ensures FileOk() && fileptr_ != null && fileptr_.filesize == filesize && fileptr_.useCount == 1
      ensures fileptr_ == old(fileptr_) <==> old(MayKeep(filesize))
      ensures fileptr_ != old(fileptr_) ==>
                CountOf(old(fileptr_)) + CountOf(fileptr_) == X.Replaced(old(CountOf(fileptr_)), PtrOf(old(fileptr_)))
      ensures made == old(made) + if fileptr_ == old(fileptr_) then 0 else 1
      ensures fileptr_ != old(fileptr_) ==>
              fresh(fileptr_) && fresh(fileptr_.filedata) && fileptr_.filedata.Length == filesize
      ensures ValueOf(old(fileptr_)) == old(ValueOf(fileptr_))
    {
      var n := if fileptr_ == null then 0 else fileptr_.useCount;
      if fileptr_ == null || n > 1 || n < 1 || fileptr_.filesize != filesize {
        if fileptr_ != null {
          fileptr_.useCount := fileptr_.useCount - 1;
        }
        fileptr_ := new W.FileInfo(filesize);
        made := made + 1;
      }
    }

    // The object for the next file, described by info. An object that is not kept stays as it was.
    method Adopt(info: P.FileInfoMsg, ghost armed: bool)
      requires FileOk() && info.filesize >= 0
      modifies this`fileptr_, this`made, Held()
      ensures FileOk() && fileptr_ != null && made == old(made) + if fileptr_ == old(fileptr_) then 0 else 1
      ensures View(armed) == old(View(armed)).(fileptr := Number())
      ensures Describes(fileptr_, info)
      ensures fileptr_ == old(fileptr_) <==> old(MayKeep(info.filesize))
      ensures fileptr_ != old(fileptr_) ==>
                fresh(fileptr_) && fresh(fileptr_.filedata) && fileptr_.filedata.Length == info.filesize
      ensures fileptr_ != old(fileptr_) ==>
                CountOf(old(fileptr_)) + CountOf(fileptr_) == X.Replaced(old(CountOf(fileptr_)), PtrOf(old(fileptr_)))
                && ValueOf(old(fileptr_)) == old(ValueOf(fileptr_))
    {
      hide FileOk, MetaOf, Describes, Ids, Rx, Reusable, X.Replaced, MayKeep, ValueOf, CountOf;
      Renew(info.filesize);
      Fill(fileptr_, info);
    }

    method Fill(f: W.FileInfo, info: P.FileInfoMsg)
      requires f.filesize == info.filesize && f.useCount == 1
      modifies f`gid, f`uid, f`cid, f`grid, f`field, f`tmobs, f`subpath, f`filename, f`rcvsize
      ensures Describes(f, info)
    {
      f.gid, f.uid, f.cid := info.gid, info.uid, info.cid;
      f.grid, f.field, f.tmobs := info.grid, info.field, info.tmobs;
      f.subpath, f.filename := info.subpath, info.filename;
      f.rcvsize := 0;
    }

    // A fileinfo was received.
    method BeginFile(message: P.Message, k: nat, ghost armed: bool)
      requires Valid() && tcpptr_ != null && message.FileInfo? && message.info.filesize >= 0 && ReplyFits(R.READY, k)
      modifies this`fileptr_, this`state_, this`made, Held(), ascproto_`ibuf_, ascproto_`printed, ascproto_.buff_
      modifies client`accepted, client`wire, client`flight, client.crcsnd_`first, client.crcsnd_`count,
               client.crcsnd_.data
      ensures Valid() && LineHandled(old(Now(armed)), Now(armed), Some(message), k)
      ensures Describes(fileptr_, message.info)
      ensures fileptr_ != old(fileptr_) ==> ValueOf(old(fileptr_)) == old(Now(armed)).cells
    {
      assert client != null;
      hide Valid, View, Wire, Describes, ReplyFits, Reply, ValueOf, CountOf;
      TakeFile(message.info, k, armed);
    }

    method TakeFile(info: P.FileInfoMsg, k: nat, ghost armed: bool)
      requires Valid() && tcpptr_ != null && info.filesize >= 0 && ReplyFits(R.READY, k)
      modifies this`fileptr_, this`state_, this`made, Held(), ascproto_`ibuf_, ascproto_`printed, ascproto_.buff_
      modifies client`accepted, client`wire, client`flight, client.crcsnd_`first, client.crcsnd_`count,
               client.crcsnd_.data
      ensures Valid() && Number().Some? && View(armed) == old(View(armed)).(state := R.READY, fileptr := Number())
      ensures Describes(fileptr_, info) && Wire() == old(Wire()) + Reply(R.READY, k)
      ensures fileptr_ == old(fileptr_) <==> old(MayKeep(info.filesize))
      ensures fileptr_ != old(fileptr_) ==> ValueOf(old(fileptr_)) == old(ValueOf(fileptr_))
    {
      hide T.TCPClient.Valid, A.AsciiProtocol.Valid, Q.MessageQueue.Valid, X.StatusLine, MetaOf;
      Adopt(info, armed);
      assert Valid();
      assert fileptr_.filedata != client.crcsnd_.data && fileptr_.filedata != ascproto_.buff_;
      hide Valid, Wired, ClientOk, QueueOk, FileOk, View, Rx, Describes, MayKeep, Reply, ReplyFits, ValueOf, CountOf;
      NotifyStatus(R.READY, k, armed);
    }

    // base is what the received line says; k bytes of the reply are taken by the socket. An object
    // that is not adopted again is as it was.
    method OnNetworkReceive(k: nat, ghost base: Option<P.Message>, ghost armed: bool)
      requires Valid() && tcpptr_ != null && F.NewlineAt(Rx()) != -1 && Says(Rx(), base)
      requires IsInfo(base) ==> base.value.info.filesize >= 0
      requires ReplyFits(R.READY, k)
      modifies this`fileptr_, this`state_, this`made, Held(), bufrcv_, ascproto_`ibuf_, ascproto_`printed,
               ascproto_.buff_
      modifies client`sockopen, client`taken, client.crcrcv_`first, client.crcrcv_`count
      modifies client`accepted, client`wire, client`flight, client.crcsnd_`first, client.crcsnd_`count,
               client.crcsnd_.data
      ensures Valid() && LineHandled(old(Now(armed)), Now(armed), base, k)
      ensures IsInfo(base) ==> Describes(fileptr_, base.value.info)
      ensures fileptr_ != old(fileptr_) ==> ValueOf(old(fileptr_)) == old(Now(armed)).cells
    {
      assert client != null;
      hide Says, Valid, Now, Rx, Describes, ReplyFits, LineHandled, ValueOf, F.NewlineAt;
      var message := ResolveLine(armed);
      assert message == base by { SaysOne(Rx(), message, base); }
      HandleLine(message, k, armed);
    }

    // What on_network_receive does with the line it has read.
    method HandleLine(message: Option<P.Message>, k: nat, ghost armed: bool)
      requires Valid() && tcpptr_ != null && ReplyFits(R.READY, k)
      requires IsInfo(message) ==> message.value.info.filesize >= 0
      modifies this`fileptr_, this`state_, this`made, Held(), ascproto_`ibuf_, ascproto_`printed, ascproto_.buff_
      modifies client`sockopen
      modifies client`accepted, client`wire, client`flight, client.crcsnd_`first, client.crcsnd_`count,
               client.crcsnd_.data
      ensures Valid() && LineHandled(old(Now(armed)), Now(armed), message, k)
      ensures IsInfo(message) ==> Describes(fileptr_, message.value.info)
      ensures fileptr_ != old(fileptr_) ==> ValueOf(old(fileptr_)) == old(Now(armed)).cells
    {
      assert client != null;
      hide Valid, Now, Rx, Describes, ReplyFits, Reply, ValueOf, LineHandled;
      if message.Some? {
        if message.value.FileInfo? {
          BeginFile(message.value, k, armed);
        } else {
          NothingHandled(Now(armed), message, k);
        }
      } else {
        Reject(k, armed);
      }
    }

    method Reject(k: nat, ghost armed: bool)
      requires Valid() && tcpptr_ != null
      modifies client`sockopen
      ensures Valid() && LineHandled(old(Now(armed)), Now(armed), None, k)
    {
      tcpptr_.Close();
    }

    method OnReceiveComplete(k: nat, ghost armed: bool)
      requires Valid() && tcpptr_ != null && fileptr_ != null
      requires ReplyFits(if fileptr_.filesize == fileptr_.rcvsize then R.COMPLETE else R.FAILURE, k)
      modifies this`state_, ascproto_`ibuf_, ascproto_`printed, ascproto_.buff_, fwptr_`quenf_, fileptr_`useCount
      modifies client`accepted, client`wire, client`flight, client.crcsnd_`first, client.crcsnd_`count,
               client.crcsnd_.data
      ensures Valid() && Now(armed) == Completed(old(Now(armed)), fwptr_.running_, k)
      ensures fwptr_.quenf_ == if fileptr_.filesize == fileptr_.rcvsize
              && fwptr_.running_ then old(fwptr_.quenf_) + [fileptr_] else old(fwptr_.quenf_)
    {
      assert client != null;
      hide Valid, Now, Reply, ReplyFits, InState, Concluded, Completed;
      NowHolds(armed);
      ConcludedState(Now(armed), fwptr_.running_, k);
      Conclude(k, armed);
      SetState(R.WAITING, armed);
    }

    // The object of a snapshot is that of fileptr_.
    lemma NowHolds(armed: bool)
      requires fileptr_ != null
      ensures var s := Now(armed);
              |s.cells| == |s.refs| == 1 && s.cells[0].filesize == fileptr_.filesize
                  && s.cells[0].rcvsize == fileptr_.rcvsize
              && s.view.pc == R.Idle
    {
    }

    // All but the last line of on_receive_complete.
    method Conclude(k: nat, ghost armed: bool)
      requires Valid() && tcpptr_ != null && fileptr_ != null
      requires ReplyFits(if fileptr_.filesize == fileptr_.rcvsize then R.COMPLETE else R.FAILURE, k)
      modifies this`state_, ascproto_`ibuf_, ascproto_`printed, ascproto_.buff_, fwptr_`quenf_, fileptr_`useCount
      modifies client`accepted, client`wire, client`flight, client.crcsnd_`first, client.crcsnd_`count,
               client.crcsnd_.data
      ensures Valid() && Now(armed) == Concluded(old(Now(armed)), fwptr_.running_, k)
      ensures fwptr_.quenf_ == if fileptr_.filesize == fileptr_.rcvsize
              && fwptr_.running_ then old(fwptr_.quenf_) + [fileptr_] else old(fwptr_.quenf_)
    {
      assert client != null;
      hide Valid, Now, Reply, ReplyFits, Notified, HandedOver;
      NowHolds(armed);
      if fileptr_.filesize == fileptr_.rcvsize {
        HandOver(armed);
        NotifyStatus(R.COMPLETE, k, armed);
      } else {
        NotifyStatus(R.FAILURE, k, armed);
      }
    }

    method HandOver(ghost armed: bool)
      requires Valid() && fileptr_ != null
      modifies fwptr_`quenf_, fileptr_`useCount
      ensures Valid() && Now(armed) == HandedOver(old(Now(armed)), fwptr_.running_)
      ensures fwptr_.quenf_ == if fwptr_.running_ then old(fwptr_.quenf_) + [fileptr_] else old(fwptr_.quenf_)
    {
      fwptr_.NewFile(fileptr_);
    }

    method OnNetworkClose(ghost armed: bool)
      requires Valid()
      modifies this`tcpptr_
      ensures Valid() && View(armed) == old(View(armed)).(tcp := false)
    {
      tcpptr_ := null;
    }

    // The message thread takes the next message.
    method TakeMessage(ghost armed: bool) returns (id: int)
      requires Valid() && mq.thrdmsg_ && !mq.quit && mq.queue != []
      modifies mq`queue, mq`received, mq`quit, mq`calls
      ensures Valid() && id == old(mq.queue[0].msg.id) && Rx() == old(Rx())
      ensures Taken(old(View(armed)), View(armed), id)
    {
      id := mq.queue[0].msg.id;
      hide A.AsciiProtocol.Valid, T.TCPClient.Valid, Rx;
      var _ := mq.Receive();
      assert old(Ids(mq.queue))[0] == id;
      assert Ids(mq.queue) == old(Ids(mq.queue))[1..];
    }

    // One turn of the message thread: a message is taken and handled.
    method HandleMessage(k: nat, ghost base: Option<P.Message>, ghost armed: bool)
      requires Valid() && mq.thrdmsg_ && !mq.quit && mq.queue != []
      requires mq.queue[0].msg.id == R.MSG_NETWORK_RECEIVE ==>
                 && tcpptr_ != null && F.NewlineAt(Rx()) != -1 && Says(Rx(), base)
                 && (IsInfo(base) ==> base.value.info.filesize >= 0) && ReplyFits(R.READY, k)
      requires mq.queue[0].msg.id == R.MSG_RECEIVE_COMPLETE ==>
                 && tcpptr_ != null && fileptr_ != null
                 && ReplyFits(if fileptr_.filesize == fileptr_.rcvsize then R.COMPLETE else R.FAILURE, k)
      modifies this`fileptr_, this`state_, this`made, this`tcpptr_, Held(), bufrcv_, ascproto_`ibuf_,
               ascproto_`printed, ascproto_.buff_
      modifies client`sockopen, client`taken, client.crcrcv_`first, client.crcrcv_`count, fwptr_`quenf_
      modifies client`accepted, client`wire, client`flight, client.crcsnd_`first, client.crcsnd_`count,
               client.crcsnd_.data
      modifies mq`queue, mq`received, mq`quit, mq`calls
      ensures Valid()
      ensures var r, id := old(View(armed)), old(mq.queue)[0].msg.id;
              && R.Enabled(r, R.Take)
              && (id == R.MSG_NETWORK_RECEIVE ==>
                  View(armed) == AfterReceive(R.Next(r, R.Take), Outcome(base, Number())))
              && (id == R.MSG_RECEIVE_COMPLETE ==> View(armed) == AfterComplete(R.Next(r, R.Take)))
              && (id == R.MSG_NETWORK_CLOSE ==> View(armed) == R.Next(r, R.Take))
    {
      var id := TakeMessage(armed);
      hide Valid, View, Rx, Says, ReplyFits, X.StatusLine, F.NewlineAt;
      if id == R.MSG_NETWORK_RECEIVE {
        OnNetworkReceive(k, base, armed);
      } else if id == R.MSG_NETWORK_CLOSE {
        OnNetworkClose(armed);
      } else if id == R.MSG_RECEIVE_COMPLETE {
        OnReceiveComplete(k, armed);
      }
    }
  }

  // An object, its count and its number as lists of one element, or none.
  ghost function ValueOf(f: W.FileInfo?): (cells: seq<Cell>)
    reads f, if f == null then {} else {f.filedata}
    ensures |cells| == if f == null then 0 else 1
  {
    if f == null then [] else [f.Value()]
  }

  ghost function CountOf(f: W.FileInfo?): (refs: seq<int>)
    reads (if f == null then {} else {f})`useCount
    ensures |refs| == if f == null then 0 else 1
  {
    if f == null then [] else [f.useCount]
  }

  function PtrOf(f: W.FileInfo?): Option<nat> {
    if f == null then None else Some(0)
  }

  datatype Snap = Snap(
    view: R.Receiver, wire: seq<char>, ptr: W.FileInfo?, cells: seq<Cell>, refs: seq<int>)

  // The same with another state.
  function InState(s: Snap, status: int): Snap {
    s.(view := s.view.(state := status))
  }

  // The state is set and the status sent.
  function Notified(s: Snap, status: int, k: nat): Snap {
    InState(s, status).(wire := s.wire + Reply(status, k))
  }

  // The writer has one more reference to the object, if it runs.
  function HandedOver(s: Snap, running: bool): Snap {
    if running && s.refs != [] then s.(refs := [s.refs[0] + 1]) else s
  }

  // on_receive_complete as a whole: a complete object is handed over and status 2 sent, an
  // incomplete one only leads to status 3; the machine did its steps; the object is as it was.
  function Completed(s: Snap, running: bool, k: nat): Snap {
    Concluded(s, running, k).(view := AfterComplete(s.view.(pc := R.Handling(R.MSG_RECEIVE_COMPLETE))))
  }

  function Concluded(s: Snap, running: bool, k: nat): Snap {
    if s.cells != [] && s.cells[0].filesize == s.cells[0].rcvsize then
      Notified(HandedOver(s, running), R.COMPLETE, k)
    else Notified(s, R.FAILURE, k)
  }

  lemma ConcludedState(s: Snap, running: bool, k: nat)
    requires s.view.pc == R.Idle
    ensures InState(Concluded(s, running, k), R.WAITING) == Completed(s, running, k)
  {
    hide Reply;
  }

  // From s to t, on_network_receive handled a line that means base: the machine did its steps, and
  // for a fileinfo the object was kept exactly when the rule allows it, and status 1 was sent.
  predicate LineHandled(s: Snap, t: Snap, base: Option<P.Message>, k: nat) {
    && t.view == AfterReceive(s.view.(pc := R.Handling(R.MSG_NETWORK_RECEIVE)), Outcome(base, t.view.fileptr))
    && (if IsInfo(base) then
          && t.wire == s.wire + Reply(R.READY, k)
          && |s.cells| == |s.refs| && (PtrOf(s.ptr).Some? ==> s.cells != [])
          && (t.ptr == s.ptr <==> Reusable(s.cells, s.refs, PtrOf(s.ptr), base.value.info.filesize))
        else t.ptr == s.ptr && t.wire == s.wire && t.cells == s.cells)
  }

  lemma NothingHandled(s: Snap, base: Option<P.Message>, k: nat)
    requires base.Some? && !base.value.FileInfo? && s.view.pc == R.Idle
    ensures LineHandled(s, s, base, k)
  {
  }

  // base is what the parser makes of a line.
  predicate Says(rx: seq<char>, base: Option<P.Message>) {
    base == P.Resolve(X.LineText(rx))
  }

  // A buffer that holds the line and a NUL behind it.
  lemma SaysWhatIsRead(rx: seq<char>, buff: seq<char>, pos: nat)
    requires pos == F.NewlineAt(rx) && pos < |buff| && buff[..pos] == rx[..pos] && buff[pos] == '\0'
    ensures Says(rx, P.Resolve(buff))
  {
    LineIsText(rx);
    hide F.NewlineAt, P.Resolve;
    SameText(buff, rx[..pos]);
  }

  lemma SaysOne(rx: seq<char>, a: Option<P.Message>, b: Option<P.Message>)
    requires Says(rx, a) && Says(rx, b)
    ensures a == b
  {
  }

  predicate IsInfo(base: Option<P.Message>) {
    base.Some? && base.value.FileInfo?
  }

  // The k bytes of a status line that the socket takes.
  function Reply(status: int, k: nat): string {
    if k <= |X.StatusLine(status)| then X.StatusLine(status)[..k] else X.StatusLine(status)
  }

  // k bytes of the status line may be taken by the socket.
  predicate ReplyFits(status: int, k: nat) {
    k <= |X.StatusLine(status)|
  }

  // A status line fits an output slot.
  lemma StatusLineFits(status: int)
    requires C.FitsInt(status) && 0 <= status < 10
    ensures |X.StatusLine(status)| < A.SLOT
  {
    var keys, values := P.STATUS_KEYS, [C.ToDecimal(status)];
    assert |P.KeyValueText("status", values[0])| == 8;
    assert P.JoinAll(keys[..0], values[..0]) == "";
    hide C.ToDecimal;
    assert |P.JoinAll(keys, values)| <= 9;
  }

  // s is r after message id was taken.
  predicate Taken(r: R.Receiver, s: R.Receiver, id: int) {
    r.pc == R.Idle && r.mq != [] && r.mq[0] == id && s == r.(mq := r.mq[1..])
  }

  // f is ready to receive the file that info announces.
  ghost predicate Describes(f: W.FileInfo?, info: P.FileInfoMsg)
    reads f
  {
    f != null && f.Meta() == MetaOf(info) && f.filesize == info.filesize && f.rcvsize == 0 && f.useCount == 1
  }
}
