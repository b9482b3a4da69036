// The client end of a connection: lookup and read of received bytes, and the send pump.
module TcpClient {
  import opened Options
  import opened Network
  import C = CircularBuffer

  const CAPACITY := 15000

  // mark stands at position k of s.
  predicate Occurs(s: seq<char>, mark: seq<char>, k: int) {
    0 <= k <= |s| - |mark| && s[k..k + |mark|] == mark
  }

  // The first position from `from` on where mark stands, or -1.
  predicate IsLookup(s: seq<char>, mark: seq<char>, from: int, r: int) {
    if r == -1 then forall k | from <= k <= |s| - |mark| :: !Occurs(s, mark, k)
    else r >= from && Occurs(s, mark, r) && forall k | from <= k < r :: !Occurs(s, mark, k)
  }

  // The positions from `from` to pos were tried, the last of them with the given result.
  predicate Searched(s: seq<char>, mark: seq<char>, from: int, pos: int, found: bool) {
    && from <= pos && (found ==> pos - 1 >= from && Occurs(s, mark, pos - 1))
    && forall k | from <= k < (if found then pos - 1 else pos) && k <= |s| - |mark| :: !Occurs(s, mark, k)
  }

  lemma SearchGoesOn(s: seq<char>, mark: seq<char>, from: int, pos: int)
    requires Searched(s, mark, from, pos, false)
    ensures Searched(s, mark, from, pos + 1, Occurs(s, mark, pos))
  {
    hide Occurs;
  }

  function Last(s: seq<char>, n: nat): seq<char> {
    if |s| <= n then s else s[|s| - n..]
  }

  predicate IsSuffix(a: seq<char>, b: seq<char>) {
    |a| <= |b| && b[|b| - |a|..] == a
  }

  // What a ring of n places holds after a completed read.
  function Pushed(ring: seq<char>, chunk: seq<char>, n: nat): seq<char> {
    Last(ring + chunk, n)
  }

  lemma SuffixKept(ring: seq<char>, stream: seq<char>, chunk: seq<char>, n: nat)
    requires IsSuffix(ring, stream)
    ensures IsSuffix(Pushed(ring, chunk, n), stream + chunk)
  {
    var all := ring + chunk;
    var out := Last(all, n);
    assert stream + chunk == stream[..|stream| - |ring|] + all;
    assert all == all[..|all| - |out|] + out;
  }

  lemma SuffixShrinks(ring: seq<char>, stream: seq<char>, n: nat)
    requires IsSuffix(ring, stream) && n <= |ring|
    ensures IsSuffix(ring[n..], stream)
  {
  }

  lemma PushedOne(ring: seq<char>, chunk: seq<char>, i: nat, n: nat)
    requires i < |chunk| && 0 < n
    ensures chunk[..i + 1] == chunk[..i] + [chunk[i]]
    ensures var r := Pushed(ring, chunk[..i], n);
            Pushed(ring, chunk[..i + 1], n) == (if |r| < n then r + [chunk[i]] else r[1..] + [chunk[i]])
  {
    assert ring + chunk[..i + 1] == ring + chunk[..i] + [chunk[i]];
  }

  // How many of n received bytes a read of at most len of them from position `from` copies.
  function Copied(n: nat, len: nat, from: nat): nat {
    if from >= n then 0 else if n - from < len then n - from else len
  }

  lemma PrefixMoves(wire: seq<char>, flight: seq<char>, buffer: seq<char>, n: nat)
    requires flight <= buffer && n <= |flight|
    ensures (wire + flight[..n]) + buffer[n..] == wire + buffer
  {
  }

  // Puts the first n characters of buff into the ring, one after the other.
  method PushAll(ring: C.CircularBuffer, buff: seq<char>, n: nat)
    requires ring.Valid() && ring.data.Length > 0 && n <= |buff|
    modifies ring`first, ring`count, ring.data
    ensures ring.Valid() && ring.Contents() == Pushed(old(ring.Contents()), buff[..n], ring.data.Length)
    ensures old(ring.count) + n <= ring.data.Length ==>
              ring.first == old(ring.first) && ring.Contents() == old(ring.Contents()) + buff[..n]
              && forall i | 0 <= i < old(ring.count) :: ring.data[ring.At(i)] == old(ring.data[ring.At(i)])
  {
    ghost var s := ring.Contents();
    for i := 0 to n
      invariant ring.Valid() && ring.Contents() == Pushed(s, buff[..i], ring.data.Length)
      invariant |s| + i <= ring.data.Length ==>
                  ring.first == old(ring.first) && |ring.Contents()| == |s| + i
                  && forall j | 0 <= j < |s| :: ring.data[ring.At(j)] == old(ring.data[ring.At(j)])
    {
      PushedNext(s, buff, i, ring.data.Length);
      hide Pushed;
      ring.PushBack(buff[i]);
    }
    PushedRoom(s, buff[..n], ring.data.Length);
  }

  lemma PushedNext(ring: seq<char>, buff: seq<char>, i: nat, n: nat)
    requires i < |buff| && 0 < n
    ensures var r := Pushed(ring, buff[..i], n);
            && |r| <= n
            && Pushed(ring, buff[..i + 1], n) == (if |r| < n then r + [buff[i]] else r[1..] + [buff[i]])
  {
    PushedOne(ring, buff, i, n);
  }

  lemma PushedRoom(ring: seq<char>, chunk: seq<char>, n: nat)
    ensures |ring| + |chunk| <= n ==> Pushed(ring, chunk, n) == ring + chunk
  {
  }

  // What a read that copied i bytes leaves of s.
  function Left(usebuf: bool, s: seq<char>, i: nat): seq<char>
    requires i <= |s|
  {
    if usebuf then s[i..] else s
  }

  // What it leaves according to its documentation: all but the bytes that were read.
  function Cleared(s: seq<char>, from: nat, i: nat): seq<char>
    requires i == 0 || from + i <= |s|
  {
    if i == 0 then s else s[..from] + s[from + i..]
  }

  // Contents that tell the two apart where they can differ at all.
  function Marked(n: nat, from: nat): (s: seq<char>)
    ensures |s| == n
  {
    seq(n, k => if k < from then 'a' else 'b')
  }

  lemma ClearsWhenSafe(usebuf: bool, s: seq<char>, len: nat, from: nat)
    requires len == 0 || from >= |s| || (usebuf && from == 0)
    ensures var i := Copied(|s|, len, from); Left(usebuf, s, i) == Cleared(s, from, i)
  {
    if len > 0 && from < |s| {
      assert s[..0] + s[Copied(|s|, len, 0)..] == s[Copied(|s|, len, 0)..];
    }
  }

  lemma ClearsOnlyWhenSafe(usebuf: bool, n: nat, len: nat, from: nat)
    requires len > 0 && from < n && (!usebuf || from > 0)
    ensures var s, i := Marked(n, from), Copied(n, len, from); Left(usebuf, s, i) != Cleared(s, from, i)
  {
    var s, i := Marked(n, from), Copied(n, len, from);
    if usebuf {
      assert Cleared(s, from, i)[from - 1] == s[from - 1] == 'a';
      assert Left(usebuf, s, i)[from - 1] == s[i + from - 1] == 'b';
    } else {
      assert |Cleared(s, from, i)| == n - i;
    }
  }

  // Reading clears what was read, whatever the contents, exactly in these cases: nothing is asked
  // for, the position is past the end, or the client is buffered and the position is the front.
  lemma ReadClearsWhatItCopied(usebuf: bool, n: nat, len: nat, from: nat)
    ensures (forall s: seq<char> | |s| == n ::
               Left(usebuf, s, Copied(n, len, from)) == Cleared(s, from, Copied(n, len, from)))
            <==> len == 0 || from >= n || (usebuf && from == 0)
  {
    hide Left, Cleared, Marked;
    if len == 0 || from >= n || (usebuf && from == 0) {
      forall s: seq<char> | |s| == n
        ensures Left(usebuf, s, Copied(n, len, from)) == Cleared(s, from, Copied(n, len, from))
      {
        ClearsWhenSafe(usebuf, s, len, from);
      }
    } else {
      ClearsOnlyWhenSafe(usebuf, n, len, from);
    }
  }

  class TCPClient {
    var usebuf_: bool
    var sockopen: bool                      // sock_.is_open()
    var reading: bool                       // an asynchronous read is outstanding
    var cbrcv_: seq<nat>                    // the functions called after a read, by number
    var bytercv_: int
    const bufrcv_: array<char>
    const crcrcv_: C.CircularBuffer
    const crcsnd_: C.CircularBuffer

    // What the network did, in buffered mode.
    ghost var delivered: seq<char>          // bytes of all completed reads
    ghost var taken: seq<char>              // bytes erased by Read: those it copied, when read from the front
    ghost var overrun: bool                 // a read completed without room for its bytes
    ghost var accepted: seq<char>           // bytes taken over by Write
    ghost var wire: seq<char>               // bytes written to the socket
    ghost var flight: Option<seq<char>>     // the buffer of the asynchronous write in progress
    ghost var broken: bool                  // an asynchronous write failed

    ghost predicate Shape()
      reads this, crcrcv_, crcsnd_
    {
      && crcrcv_ != crcsnd_ && crcrcv_.Valid() && crcsnd_.Valid()
      && bufrcv_.Length == TCP_PACK_SIZE && 0 <= bytercv_ <= TCP_PACK_SIZE
      && bufrcv_ != crcrcv_.data && bufrcv_ != crcsnd_.data && crcrcv_.data != crcsnd_.data
      && (usebuf_ ==> crcrcv_.data.Length == CAPACITY && crcsnd_.data.Length == CAPACITY)
      && (!usebuf_ ==> crcrcv_.count == 0 && crcsnd_.count == 0)
    }

    ghost predicate ReceiveOk()
      requires crcrcv_.Valid()
      reads this`usebuf_, this`delivered, this`taken, this`overrun, crcrcv_, crcrcv_.data
    {
      usebuf_ ==>
        IsSuffix(crcrcv_.Contents(), delivered)
        && (!overrun ==> taken + crcrcv_.Contents() == delivered)
    }

    // The bytes in flight are the oldest in the buffer, and lie still at the start of the array.
    ghost predicate SendOk()
      requires crcsnd_.Valid()
      reads this`wire, this`accepted, this`flight, this`broken, crcsnd_, crcsnd_.data
    {
      && wire + crcsnd_.Contents() == accepted
      && (!broken ==> (flight.Some? <==> crcsnd_.Contents() != []))
      && (broken ==> flight == None && crcsnd_.Contents() != [])
      && (flight.Some? ==>
            && flight.value != [] && flight.value <= crcsnd_.Contents()
            && crcsnd_.first == 0 && crcsnd_.data[..|flight.value|] == flight.value)
    }

    ghost predicate Valid()
      reads this, crcrcv_, crcsnd_, crcrcv_.data, crcsnd_.data
    {
      Shape() && ReceiveOk() && SendOk()
    }

    // Received and not yet read.
    ghost function Received(): seq<char>
      requires Shape()
      reads this, crcrcv_, crcsnd_, crcrcv_.data, bufrcv_
    {
      if usebuf_ then crcrcv_.Contents() else bufrcv_[..bytercv_]
    }

    constructor ()
      ensures Valid() && !usebuf_ && !sockopen && !reading && bytercv_ == 0 && cbrcv_ == [] && wire == []
              && accepted == []
      ensures fresh(crcrcv_) && fresh(crcsnd_) && fresh(bufrcv_) && fresh(crcrcv_.data) && fresh(crcsnd_.data)
    {
      usebuf_, sockopen, reading, bytercv_, cbrcv_ := false, false, false, 0, [];
      bufrcv_ := new char[TCP_PACK_SIZE];
      crcrcv_ := new C.CircularBuffer();
      crcsnd_ := new C.CircularBuffer();
      delivered, taken, overrun, accepted, wire, flight, broken := [], [], false, [], [], None, false;
    }

    method Close()
      modifies this`sockopen
      ensures !sockopen
    {
      sockopen := false;
    }

    // Called once, before the connection is established.
    method UseBuffer(usebuf: bool)
      requires Valid() && delivered == [] && taken == [] && accepted == [] && wire == [] && flight == None
      modifies this`usebuf_, crcrcv_, crcsnd_
      ensures Valid() && usebuf_ == usebuf
      ensures usebuf ==> crcrcv_.Contents() == [] && crcsnd_.Contents() == []
    {
      if usebuf_ != usebuf {
        usebuf_ := usebuf;
        if usebuf_ {
          crcrcv_.SetCapacity(TCP_PACK_SIZE * 10);
          crcsnd_.SetCapacity(TCP_PACK_SIZE * 10);
        } else {
          crcrcv_.Clear();
          crcsnd_.Clear();
        }
      }
    }

    method CharAt(j: nat) returns (c: char)
      requires Valid() && j < |Received()|
      ensures c == Received()[j]
    {
      if usebuf_ {
        c := crcrcv_.Get(j);
      } else {
        c := bufrcv_[j];
      }
    }

    // The inner loop of Lookup: how far flag matches at pos.
    method MatchAt(flag: array<char>, len: nat, pos: nat) returns (i: nat)
      requires Valid() && len <= flag.Length && pos + len <= |Received()|
      ensures i <= len && (i == len <==> Occurs(Received(), flag[..len], pos))
    {
      hide Received, ReceiveOk, SendOk;
      ghost var s := Received();
      i := 0;
      while i < len
        invariant 0 <= i <= len && s[pos..pos + i] == flag[..i]
      {
        var c := CharAt(pos + i);
        if flag[i] != c {
          assert s[pos..pos + len][i] == c && flag[..len][i] == flag[i];
          return;
        }
        assert s[pos..pos + i + 1] == s[pos..pos + i] + [s[pos + i]];
        assert flag[..i + 1] == flag[..i] + [flag[i]];
        i := i + 1;
      }
    }

    method Lookup(flag: array?<char>, len: int, from: int) returns (r: int)
      requires Valid() && (flag != null ==> len <= flag.Length)
      ensures flag == null || len <= 0 || from < 0 ==> r == -1
      ensures flag != null && len > 0 && from >= 0 ==> IsLookup(Received(), flag[..len], from, r)
    {
      if flag == null || len <= 0 || from < 0 {
        return -1;
      }
      var n := if usebuf_ then crcrcv_.count - len else bytercv_ - len;
      r := Scan(flag, len, from, n);
    }

    // The loop of Lookup, over the positions from `from` to n.
    method Scan(flag: array<char>, len: nat, from: nat, n: int) returns (r: int)
      requires Valid() && 0 < len <= flag.Length && n == |Received()| - len
      ensures IsLookup(Received(), flag[..len], from, r)
    {
      ghost var s, mark := Received(), flag[..len];
      hide Valid, Shape, Received, Occurs;
      var i, pos := -1, from;
      while i != len && pos <= n
        invariant -1 <= i <= len && Searched(s, mark, from, pos, i == len)
        decreases n - pos, len - i
      {
        SearchGoesOn(s, mark, from, pos);
        i := MatchAt(flag, len, pos);
        pos := pos + 1;
      }
      return if i != len then -1 else pos - 1;
    }

    // The copying loop of Read, over the ring buffer.
    method CopyOut(buff: array<char>, n: nat, from: nat) returns (i: nat)
      requires Valid() && usebuf_ && n <= |Received()| && n - from <= buff.Length
      requires buff != bufrcv_ && buff != crcrcv_.data && buff != crcsnd_.data
      modifies buff
      ensures i == if from < n then n - from else 0
      ensures forall k | 0 <= k < i :: buff[k] == Received()[from + k]
      ensures forall k | i <= k < buff.Length :: buff[k] == old(buff[k])
    {
      i := 0;
      var j := from;
      while j < n
        invariant from <= j && i == j - from && (j <= n || i == 0)
        invariant forall k | 0 <= k < i :: buff[k] == crcrcv_.Contents()[from + k]
        invariant forall k | i <= k < buff.Length :: buff[k] == old(buff[k])
      {
        buff[i] := crcrcv_.data[crcrcv_.At(j)];
        i, j := i + 1, j + 1;
      }
    }

    // Bytes are copied from position `from` on, but erased at the front.
    method Read(buff: array?<char>, len: int, from: int) returns (i: int)
      requires Valid() && (buff != null ==>
               len <= buff.Length && buff != bufrcv_ && buff != crcrcv_.data && buff != crcsnd_.data)
      modifies this`taken, crcrcv_`first, crcrcv_`count
      modifies if buff == null then {} else {buff}
      ensures Valid()
      ensures buff == null || len <= 0 || from < 0 ==> i == 0 && Received() == old(Received()) && taken == old(taken)
      ensures buff != null && len > 0 && from >= 0 ==>
                var s := old(Received());
                i == Copied(|s|, len, from)
                && (forall k | 0 <= k < i :: buff[k] == s[from + k])
                && (forall k | i <= k < buff.Length :: buff[k] == old(buff[k]))
                && Received() == Left(usebuf_, s, i)
                && taken == (if usebuf_ then old(taken) + s[..i] else old(taken))
    {
      if buff == null || len <= 0 || from < 0 {
        return 0;
      }
      var n0 := from + len;
      if usebuf_ {
        var n := crcrcv_.count;
        if n > n0 {
          n := n0;
        }
        i := CopyOut(buff, n, from);
        EraseRead(i);
      } else {
        var n := if bytercv_ < n0 then bytercv_ - from else len;
        if n > 0 {
          forall k | 0 <= k < n {
            buff[k] := bufrcv_[from + k];
          }
        }
        i := if n > 0 then n else 0;
      }
    }

    // The erasing part of Read.
    method EraseRead(i: nat)
      requires Valid() && usebuf_ && i <= |Received()|
      modifies this`taken, crcrcv_`first, crcrcv_`count
      ensures Valid() && Received() == old(Received())[i..] && taken == old(taken) + old(Received())[..i]
    {
      ghost var s := crcrcv_.Contents();
      SuffixShrinks(s, delivered, i);
      assert taken + s == taken + s[..i] + s[i..];
      hide SendOk, IsSuffix;
      if i != 0 {
        crcrcv_.EraseBegin(i);
      }
      taken := taken + s[..i];
    }

    // Replaces whatever was registered.
    method RegisterRead(slot: nat)
      requires Valid()
      modifies this`cbrcv_
      ensures Valid() && cbrcv_ == [slot] && Received() == old(Received())
    {
      cbrcv_ := [];
      cbrcv_ := cbrcv_ + [slot];
    }

    method StartRead()
      modifies this`reading
      ensures reading == (sockopen || old(reading))
    {
      if sockopen {
        reading := true;
      }
    }

    // A read of chunk completed, or failed. The socket had put chunk into bufrcv_. The registered
    // functions are called, and the next read is started unless this one failed or the socket is closed.
    method HandleRead(ok: bool, chunk: seq<char>) returns (called: seq<nat>)
      requires Valid() && reading && |chunk| <= TCP_PACK_SIZE
      modifies this`reading, this`bytercv_, this`delivered, this`overrun, bufrcv_,
               crcrcv_`first, crcrcv_`count, crcrcv_.data
      ensures Valid()
      ensures !ok ==> Received() == old(Received()) && delivered == old(delivered) && overrun == old(overrun)
      ensures ok && usebuf_ ==>
                Received() == Pushed(old(Received()), chunk, CAPACITY)
                && delivered == old(delivered) + chunk
                && overrun == (old(overrun) || |old(Received())| + |chunk| > CAPACITY)
      ensures ok && !usebuf_ ==> Received() == chunk
      ensures reading == (ok && sockopen) && called == cbrcv_
    {
      if ok {
        StoreRead(chunk);
      }
      called := cbrcv_;
      NextRead(ok);
    }

    // After the callbacks.
    method NextRead(ok: bool)
      requires Valid()
      modifies this`reading
      ensures Valid() && Received() == old(Received()) && reading == (ok && sockopen)
    {
      reading := false;
      if ok {
        StartRead();
      }
    }

    // What HandleRead does under its lock.
    method StoreRead(chunk: seq<char>)
      requires Valid() && |chunk| <= TCP_PACK_SIZE
      modifies this`bytercv_, this`delivered, this`overrun, bufrcv_, crcrcv_`first, crcrcv_`count, crcrcv_.data
      ensures Valid()
      ensures usebuf_ ==>
                Received() == Pushed(old(Received()), chunk, CAPACITY)
                && delivered == old(delivered) + chunk
                && overrun == (old(overrun) || |old(Received())| + |chunk| > CAPACITY)
      ensures !usebuf_ ==> Received() == chunk
    {
      hide SendOk, IsSuffix;
      forall i | 0 <= i < |chunk| {
        bufrcv_[i] := chunk[i];
      }
      if usebuf_ {
        Absorb(chunk);
      } else {
        bytercv_ := |chunk|;
      }
    }

    // The buffered part of HandleRead.
    method Absorb(chunk: seq<char>)
      requires Valid() && usebuf_ && |chunk| <= TCP_PACK_SIZE && bufrcv_[..|chunk|] == chunk
      modifies this`delivered, this`overrun, crcrcv_`first, crcrcv_`count, crcrcv_.data
      ensures Valid()
      ensures crcrcv_.Contents() == Pushed(old(crcrcv_.Contents()), chunk, CAPACITY)
      ensures delivered == old(delivered) + chunk
      ensures overrun == (old(overrun) || |old(crcrcv_.Contents())| + |chunk| > CAPACITY)
    {
      ghost var s := crcrcv_.Contents();
      SuffixKept(s, delivered, chunk, CAPACITY);
      assert taken + (s + chunk) == (taken + s) + chunk;
      hide SendOk, IsSuffix;
      PushAll(crcrcv_, bufrcv_[..], |chunk|);
      assert bufrcv_[..][..|chunk|] == chunk;
      delivered, overrun := delivered + chunk, overrun || |s| + |chunk| > CAPACITY;
    }

    // In unbuffered mode the socket takes k of the bytes at once.
    method Write(buff: Option<seq<char>>, len: int, k: nat) returns (n: int)
      requires Valid() && (buff.Some? ==> len <= |buff.value|) && (len > 0 ==> k <= len)
      modifies this`accepted, this`wire, this`flight, crcsnd_`first, crcsnd_`count, crcsnd_.data
      ensures Valid()
      ensures buff == None || len <= 0 ==> n == 0 && accepted == old(accepted) && wire == old(wire)
      ensures buff.Some? && len > 0 ==>
                0 <= n <= len && accepted == old(accepted) + buff.value[..n]
                && n == (if !usebuf_ then k
                    else if CAPACITY - |old(crcsnd_.Contents())| < len
                        then CAPACITY - |old(crcsnd_.Contents())| else len)
                && wire == (if usebuf_ then old(wire) else old(wire) + buff.value[..n])
      ensures old(flight).Some? ==> flight == old(flight)
    {
      if buff == None || len <= 0 {
        return 0;
      }
      if usebuf_ {
        var n0 := crcsnd_.count;
        n := crcsnd_.data.Length - n0;
        if n > len {
          n := len;
        }
        PushSent(buff.value, n);
        if n0 == 0 && n != 0 {
          StartWrite();
        }
      } else {
        n := k;
        wire, accepted := wire + buff.value[..n], accepted + buff.value[..n];
      }
    }

    method PushSent(buff: seq<char>, n: nat)
      requires Valid() && usebuf_ && n <= |buff| && |crcsnd_.Contents()| + n <= CAPACITY
      modifies this`accepted, crcsnd_`count, crcsnd_`first, crcsnd_.data
      ensures Shape() && ReceiveOk()
      ensures crcsnd_.Contents() == old(crcsnd_.Contents()) + buff[..n]
      ensures accepted == old(accepted) + buff[..n] && wire + crcsnd_.Contents() == accepted
      ensures old(crcsnd_.count) > 0 || n == 0 ==> SendOk()
    {
      ghost var s := crcsnd_.Contents();
      PushAll(crcsnd_, buff, n);
      assert crcsnd_.Contents() == s + buff[..n];
      assert wire + (s + buff[..n]) == (wire + s) + buff[..n];
      accepted := accepted + buff[..n];
    }

    // Runs only when no write is in flight: linearize moves the bytes.
    method StartWrite()
      requires Shape() && ReceiveOk() && flight == None && !broken && wire + crcsnd_.Contents() == accepted
      modifies this`flight, crcsnd_`first, crcsnd_.data
      ensures Valid() && crcsnd_.Contents() == old(crcsnd_.Contents())
      ensures flight == if crcsnd_.Contents() == [] then None else Some(crcsnd_.Contents())
    {
      var n := crcsnd_.count;
      if n != 0 {
        crcsnd_.Linearize();
        flight := Some(crcsnd_.Contents());
      }
    }

    // The write in flight put n of its bytes on the wire, or failed.
    method HandleWrite(ok: bool, n: nat)
      requires Valid() && flight.Some? && n <= |flight.value|
      modifies this`wire, this`flight, this`broken, crcsnd_`first, crcsnd_`count, crcsnd_.data
      ensures Valid() && accepted == old(accepted)
      ensures ok ==>
                wire == old(wire) + old(flight).value[..n] && crcsnd_.Contents() == old(crcsnd_.Contents())[n..]
                && flight == (if crcsnd_.Contents() == [] then None else Some(crcsnd_.Contents())) && !broken
      ensures !ok ==> broken && wire == old(wire) && flight == None && crcsnd_.Contents() == old(crcsnd_.Contents())
    {
      if ok {
        hide ReceiveOk;
        PrefixMoves(wire, flight.value, crcsnd_.Contents(), n);
        wire, flight := wire + flight.value[..n], None;
        crcsnd_.EraseBegin(n);
        StartWrite();
      } else {
        flight, broken := None, true;
      }
    }
  }
}
