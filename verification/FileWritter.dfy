// The objects behind the file store: a file being received, and the writer with its queue.
module FileWritter {
  import opened FileStore
  import M = Monitor

  // A shared buffer. useCount is the number of shared pointers to it.
  class FileInfo {
    var gid: string
    var uid: string
    var cid: string
    var grid: string
    var field: string
    var tmobs: string
    var subpath: string
    var filename: string
    var filesize: int
    var rcvsize: int
    const filedata: array<char>
    var useCount: int

    ghost function Meta(): FileStore.Meta
      reads this`gid, this`uid, this`cid, this`grid, this`field, this`tmobs, this`subpath, this`filename
    {
      FileStore.Meta(gid, uid, cid, grid, field, tmobs, subpath, filename)
    }

    ghost function Value(): Cell
      reads this`gid, this`uid, this`cid, this`grid, this`field, this`tmobs, this`subpath, this`filename
      reads this`filesize, this`rcvsize, filedata
    {
      Cell(Meta(), filesize, rcvsize, filedata[..])
    }

    // The new object is held by one shared pointer; its buffer holds anything.
    constructor (size: int)
      requires size >= 0
      ensures fresh(filedata) && filedata.Length == size
      ensures filesize == size && rcvsize == 0 && useCount == 1
    {
      gid, uid, cid, grid, field, tmobs, subpath, filename := "", "", "", "", "", "", "", "";
      filesize := size;
      rcvsize := 0;
      filedata := new char[size];
      useCount := 1;
    }

    method DataArrive(data: array<char>, n: int) returns (full: bool)
      requires 0 <= n <= data.Length && data != filedata
      requires 0 <= rcvsize && rcvsize + n <= filedata.Length
      modifies this`rcvsize, filedata
      ensures Value() == Arrived(old(Value()), data[..n])
      ensures full == Full(Value())
    {
      ghost var was, start := filedata[..], rcvsize;
      forall i | 0 <= i < n {
        filedata[rcvsize + i] := data[i];
      }
      rcvsize := rcvsize + n;
      assert filedata[..] == was[..start] + data[..n] + was[start + n..];
      return rcvsize >= filesize;
    }
  }

  ghost predicate InPool(files: seq<FileInfo>, pool: set<FileInfo>) {
    forall f | f in files :: f in pool
  }

  lemma FirstInPool(files: seq<FileInfo>, pool: set<FileInfo>)
    requires InPool(files, pool) && files != []
    ensures files[0] in pool
  {
  }

  ghost predicate Pooled(r: M.Round<FileInfo>, pool: set<FileInfo>) {
    InPool(r.before, pool) && InPool(r.during, pool)
  }

  ghost predicate Sized(pool: set<FileInfo>)
    reads pool`filesize
  {
    forall f | f in pool :: f.filesize == f.filedata.Length
  }

  // What each object of the pool holds for the disk.
  ghost predicate Depicts(images: map<FileInfo, File>, pool: set<FileInfo>)
    reads pool`gid, pool`uid, pool`cid, pool`grid, pool`field, pool`tmobs, pool`subpath, pool`filename
    reads set f | f in pool :: f.filedata
  {
    forall f | f in pool :: f in images && images[f] == File(f.Meta(), f.filedata[..])
  }

  // The writes were of the images of the saved files, in order, each cut to what its write took.
  ghost predicate Logged(written: seq<File>, saved: seq<FileInfo>, cuts: seq<nat>, images: map<FileInfo, File>) {
    |written| == |saved| == |cuts|
    && forall j | 0 <= j < |written| :: saved[j] in images && written[j] == CutTo(images[saved[j]], cuts[j])
  }

  lemma LoggedMore(written: seq<File>, saved: seq<FileInfo>, cuts: seq<nat>, images: map<FileInfo, File>, f: FileInfo,
      k: nat)
    requires Logged(written, saved, cuts, images) && f in images
    ensures Logged(written + [CutTo(images[f], k)], saved + [f], cuts + [k], images)
  {
  }

  lemma InPoolCat(a: seq<FileInfo>, b: seq<FileInfo>, pool: set<FileInfo>)
    requires InPool(a, pool) && InPool(b, pool)
    ensures InPool(a + b, pool) && (a + b != [] ==> InPool((a + b)[1..], pool))
  {
  }

  lemma PooledParts(r: M.Round<FileInfo>, pool: set<FileInfo>)
    requires Pooled(r, pool)
    ensures InPool(r.before, pool) && InPool(r.during, pool)
  {
  }

  // The entries for the successful rounds.
  function Taken<T>(rounds: seq<M.Round<FileInfo>>, writes: seq<T>): seq<T>
    requires |rounds| == |writes|
  {
    if rounds == [] then []
    else
      var n := |rounds| - 1;
      Taken(rounds[..n], writes[..n]) + if rounds[n].ok then [writes[n]] else []
  }

  class FileWritter {
    var pathRoot_: string
    var quenf_: seq<FileInfo>
    var running_: bool
    ghost var saved: seq<FileInfo>
    ghost var written: seq<File>
    ghost var cuts: seq<nat>           // how much each write took
    ghost var roots: seq<string>       // the root path of each write
    ghost var fs: map<string, string>  // what the paths hold

    constructor ()
      ensures quenf_ == [] && !running_ && saved == [] && written == [] && cuts == [] && roots == []
              && fs == map[] && pathRoot_ == ""
    {
      pathRoot_, quenf_, running_ := "", [], false;
      saved, written, cuts, roots, fs := [], [], [], [], map[];
    }

    method UpdateStorage(path: string)
      modifies this`pathRoot_
      ensures pathRoot_ == path
    {
      pathRoot_ := path;
    }

    // References to f from outside the queue.
    ghost function Outside(f: FileInfo): int
      reads this`quenf_, f`useCount
    {
      f.useCount - multiset(quenf_)[f]
    }

    ghost function Image(f: FileInfo): File
      reads f`gid, f`uid, f`cid, f`grid, f`field, f`tmobs, f`subpath, f`filename, f.filedata
    {
      File(f.Meta(), f.filedata[..])
    }

    method NewFile(nfptr: FileInfo)
      modifies this`quenf_, nfptr`useCount
      ensures quenf_ == if running_ then old(quenf_) + [nfptr] else old(quenf_)
      ensures nfptr.useCount == old(nfptr.useCount) + if running_ then 1 else 0
      ensures Outside(nfptr) == old(Outside(nfptr))
    {
      if running_ {
        quenf_ := quenf_ + [nfptr];
        nfptr.useCount := nfptr.useCount + 1;
      }
    }

    // Files that other threads hand over while this thread waits, sleeps or saves.
    method Others(files: seq<FileInfo>, ghost pool: set<FileInfo>)
      requires running_ && InPool(files, pool)
      modifies this`quenf_, pool`useCount
      ensures quenf_ == old(quenf_) + files
      ensures forall f | f in pool :: Outside(f) == old(Outside(f))
    {
      for i := 0 to |files|
        invariant quenf_ == old(quenf_) + files[..i]
        invariant forall f | f in pool :: Outside(f) == old(Outside(f))
      {
        assert files[..i + 1] == files[..i] + [files[i]];
        NewFile(files[i]);
      }
      assert files[..|files|] == files;
    }

    method PopFront()
      requires quenf_ != []
      modifies this`quenf_, {quenf_[0]}`useCount
      ensures quenf_ == old(quenf_)[1..]
      ensures old(quenf_)[0].useCount == old(quenf_[0].useCount) - 1
      ensures multiset(old(quenf_)) == multiset{old(quenf_)[0]} + multiset(quenf_)
    {
      assert quenf_ == [quenf_[0]] + quenf_[1..];
      quenf_[0].useCount := quenf_[0].useCount - 1;
      quenf_ := quenf_[1..];
    }

    // save_first with the files that arrive while it runs; ok tells whether directory and file
    // could be created, and the write takes at most k bytes, which nobody looks at.
    method SaveFirst(ok: bool, k: nat, during: seq<FileInfo>, ghost pool: set<FileInfo>) returns (rslt: bool)
      requires quenf_ != [] && running_
      requires InPool(quenf_, pool) && InPool(during, pool) && Sized(pool)
      modifies this`quenf_, this`saved, this`written, this`cuts, this`roots, this`fs, pool`useCount
      ensures rslt == ok
      ensures quenf_ == if ok then (old(quenf_) + during)[1..] else old(quenf_) + during
      ensures saved == if ok then old(saved) + [old(quenf_)[0]] else old(saved)
      ensures written == if ok then old(written) + [CutTo(old(Image(quenf_[0])), k)] else old(written)
      ensures cuts == if ok then old(cuts) + [k] else old(cuts)
      ensures roots == if ok then old(roots) + [pathRoot_] else old(roots)
      ensures fs == if ok then PutFile(old(fs), pathRoot_, CutTo(old(Image(quenf_[0])), k)) else old(fs)
      ensures forall f | f in pool :: Outside(f) == old(Outside(f))
    {
      var ptr := quenf_[0];
      hide InPool, Sized, Image, CutTo, PutFile;
      assert ptr in pool by { FirstInPool(quenf_, pool); }
      Hold(ptr, pool);
      rslt := SaveHeld(ok, k, during, pool);
      Release(ptr, pool);
    }

    // What save_first does while it holds its local pointer.
    method SaveHeld(ok: bool, k: nat, during: seq<FileInfo>, ghost pool: set<FileInfo>) returns (rslt: bool)
      requires quenf_ != [] && running_
      requires InPool(quenf_, pool) && InPool(during, pool) && Sized(pool)
      modifies this`quenf_, this`saved, this`written, this`cuts, this`roots, this`fs, pool`useCount
      ensures rslt == ok
      ensures quenf_ == if ok then (old(quenf_) + during)[1..] else old(quenf_) + during
      ensures saved == if ok then old(saved) + [old(quenf_)[0]] else old(saved)
      ensures written == if ok then old(written) + [CutTo(old(Image(quenf_[0])), k)] else old(written)
      ensures cuts == if ok then old(cuts) + [k] else old(cuts)
      ensures roots == if ok then old(roots) + [pathRoot_] else old(roots)
      ensures fs == if ok then PutFile(old(fs), pathRoot_, CutTo(old(Image(quenf_[0])), k)) else old(fs)
      ensures forall f | f in pool :: Outside(f) == old(Outside(f))
    {
      var filepath := pathRoot_;
      hide Sized, InPool, Image, CutTo, PutFile, Outside;
      ghost var ptr := quenf_[0];
      InPoolCat(quenf_, during, pool);
      Others(during, pool);
      rslt := false;
      if ok {
        StoreFirst(k, filepath, pool);
        rslt := true;
      }
    }

    // The first file is written and leaves the queue.
    method StoreFirst(k: nat, filepath: string, ghost pool: set<FileInfo>)
      requires quenf_ != [] && InPool(quenf_, pool) && Sized(pool)
      modifies this`quenf_, this`saved, this`written, this`cuts, this`roots, this`fs, pool`useCount
      ensures quenf_ == old(quenf_)[1..] && saved == old(saved) + [old(quenf_)[0]]
      ensures written == old(written) + [CutTo(old(Image(quenf_[0])), k)]
      ensures cuts == old(cuts) + [k] && roots == old(roots) + [filepath]
      ensures fs == PutFile(old(fs), filepath, CutTo(old(Image(quenf_[0])), k))
      ensures forall f | f in pool :: Outside(f) == old(Outside(f))
    {
      var ptr := quenf_[0];
      assert ptr in pool && ptr.filesize == ptr.filedata.Length;
      hide Sized, Image, CutTo, PutFile, Outside;
      Write(ptr, k, filepath);
      Drop(pool);
      saved := saved + [ptr];
    }

    method Hold(ptr: FileInfo, ghost pool: set<FileInfo>)
      requires ptr in pool
      modifies ptr`useCount
      ensures forall f | f in pool :: Outside(f) == old(Outside(f)) + if f == ptr then 1 else 0
    {
      ptr.useCount := ptr.useCount + 1;
    }

    // The file is opened, which empties its path, and fwrite takes at most k bytes; its result is
    // not looked at.
    method Write(ptr: FileInfo, k: nat, root: string)
      requires ptr.filesize == ptr.filedata.Length
      modifies this`written, this`cuts, this`roots, this`fs
      ensures written == old(written) + [CutTo(Image(ptr), k)] && cuts == old(cuts) + [k]
              && roots == old(roots) + [root]
      ensures fs == PutFile(old(fs), root, CutTo(Image(ptr), k))
    {
      var n := if k < ptr.filesize then k else ptr.filesize;
      assert ptr.filedata[..ptr.filedata.Length] == ptr.filedata[..];
      written, cuts := written + [File(ptr.Meta(), ptr.filedata[..n])], cuts + [k];
      roots, fs := roots + [root], fs[PathOf(root, ptr.Meta()) := ptr.filedata[..n]];
    }

    // The local pointer goes.
    method Release(ptr: FileInfo, ghost pool: set<FileInfo>)
      requires ptr in pool
      modifies ptr`useCount
      ensures forall f | f in pool :: Outside(f) == old(Outside(f)) - if f == ptr then 1 else 0
    {
      ptr.useCount := ptr.useCount - 1;
    }

    method Drop(ghost pool: set<FileInfo>)
      requires quenf_ != [] && quenf_[0] in pool
      modifies this`quenf_, pool`useCount
      ensures quenf_ == old(quenf_)[1..]
      ensures forall f | f in pool :: Outside(f) == old(Outside(f))
    {
      PopFront();
    }

    // The rest of a turn of the loop: files arrive, then one is saved.
    method Turn(r: M.Round<FileInfo>, k: nat, ghost m: M.Mon<FileInfo>, errcnt: int, ghost fs0: map<string, string>,
                ghost pool: set<FileInfo>, ghost images: map<FileInfo, File>) returns (rslt: bool)
      requires running_ && quenf_ == m.quenf && saved == m.saved && M.Enabled(m, r) && errcnt == M.Counted(m)
      requires InPool(quenf_, pool) && Pooled(r, pool) && Sized(pool) && Depicts(images, pool)
               && Logged(written, saved, cuts, images)
      requires OnDisk(fs0, fs, written, roots)
      modifies this`quenf_, this`saved, this`written, this`cuts, this`roots, this`fs, pool`useCount
      ensures var t := M.Step(m, r); quenf_ == t.quenf && saved == t.saved && rslt == t.rslt && errcnt == t.errcnt
      ensures cuts == if r.ok then old(cuts) + [k] else old(cuts)
      ensures roots == if r.ok then old(roots) + [pathRoot_] else old(roots)
      ensures OnDisk(fs0, fs, written, roots)
      ensures InPool(quenf_, pool) && Sized(pool) && Depicts(images, pool) && Logged(written, saved, cuts, images)
      ensures forall f | f in pool :: Outside(f) == old(Outside(f))
    {
      hide M.Step, M.Enabled, M.Counted, Outside, Sized, Depicts, Logged, InPool, Pooled, CutTo, Image;
      hide PutFile, OnDisk;
      MustNotBeEmpty(m, r);
      PooledParts(r, pool);
      InPoolCat(quenf_, r.before, pool);
      InPoolCat(quenf_ + r.before, r.during, pool);
      Others(r.before, pool);
      FirstInPool(quenf_, pool);
      ghost var ptr := quenf_[0];
      Depicted(ptr, pool, images);
      LoggedMore(written, saved, cuts, images, ptr, k);
      OnDiskOneMore(fs0, fs, written, roots, CutTo(Image(ptr), k), pathRoot_);
      rslt := SaveFirst(r.ok, k, r.during, pool);
      StepIs(m, r);
    }

    lemma Depicted(f: FileInfo, pool: set<FileInfo>, images: map<FileInfo, File>)
      requires f in pool && Depicts(images, pool)
      ensures f in images && images[f] == Image(f)
    {
    }

    // The writer thread for as long as its environment follows the given rounds and writes. In each
    // round the storage may have been changed to another path.
    method ThreadMonitor(rounds: seq<M.Round<FileInfo>>, writes: seq<nat>, paths: seq<string>,
                         ghost pool: set<FileInfo>, ghost images: map<FileInfo, File>)
      returns (errcnt: int, rslt: bool, ghost end: M.Mon<FileInfo>)
      requires quenf_ == [] && saved == [] && written == [] && cuts == [] && roots == []
               && |writes| == |paths| == |rounds|
               && M.CanRun(M.Start(), rounds)
      requires (forall i | 0 <= i < |rounds| :: Pooled(rounds[i], pool)) && Sized(pool) && Depicts(images, pool)
      modifies this`quenf_, this`saved, this`written, this`cuts, this`roots, this`fs,
               this`running_, this`pathRoot_, pool`useCount
      ensures end == M.Run(M.Start(), rounds)
      ensures quenf_ == end.quenf && saved == end.saved && rslt == end.rslt && errcnt == end.errcnt
      ensures cuts == Taken(rounds, writes) && roots == Taken(rounds, paths) && OnDisk(old(fs), fs, written, roots)
      ensures running_ == (errcnt < 5)
      ensures Depicts(images, pool) && Logged(written, saved, cuts, images)
      ensures forall f | f in pool :: f.useCount == old(f.useCount) + multiset(quenf_)[f]
    {
      running_ := true;
      errcnt, rslt, end := Loop(rounds, writes, paths, pool, images);
      if errcnt >= 5 {
        running_ := false;
      }
    }

    // The loop of thread_monitor.
    method Loop(rounds: seq<M.Round<FileInfo>>, writes: seq<nat>, paths: seq<string>,
                ghost pool: set<FileInfo>, ghost images: map<FileInfo, File>)
      returns (errcnt: int, rslt: bool, ghost end: M.Mon<FileInfo>)
      requires running_ && quenf_ == [] && saved == [] && written == [] && cuts == [] && roots == []
      requires |writes| == |paths| == |rounds| && M.CanRun(M.Start(), rounds)
      requires (forall i | 0 <= i < |rounds| :: Pooled(rounds[i], pool)) && Sized(pool) && Depicts(images, pool)
      modifies this`quenf_, this`saved, this`written, this`cuts, this`roots, this`fs, this`pathRoot_, pool`useCount
      ensures end == M.Run(M.Start(), rounds)
      ensures quenf_ == end.quenf && saved == end.saved && rslt == end.rslt && errcnt == end.errcnt
      ensures cuts == Taken(rounds, writes) && roots == Taken(rounds, paths) && OnDisk(old(fs), fs, written, roots)
      ensures Depicts(images, pool) && Logged(written, saved, cuts, images)
      ensures forall f | f in pool :: Outside(f) == old(Outside(f))
    {
      hide Follows, Placed, Outside, M.CanRun, M.Run, M.Start, Pooled, InPool, Sized, Depicts, Logged, Taken, OnDisk;
      rslt, errcnt := true, 0;
      end := M.Start();
      FollowsAtFirst(rounds, writes, paths, pool, images);
      var i := 0;
      while errcnt < 5 && i < |rounds|
        invariant 0 <= i <= |rounds| && running_ && Follows(i, errcnt, rslt, end, rounds, writes, pool, images)
        invariant Placed(i, rounds, paths, old(fs)) && |paths| == |rounds|
        invariant forall f | f in pool :: Outside(f) == old(Outside(f))
        decreases |rounds| - i
      {
        errcnt, rslt, end := Once(i, errcnt, rslt, end, rounds, writes, paths, old(fs), pool, images);
        i := i + 1;
      }
      FollowsToTheEnd(i, errcnt, rslt, end, rounds, writes, pool, images);
      PlacedToTheEnd(i, rounds, paths, old(fs));
    }

    // After i rounds the writer is where the monitor is.
    ghost predicate Follows(i: nat, errcnt: int, rslt: bool, end: M.Mon<FileInfo>, rounds: seq<M.Round<FileInfo>>,
                            writes: seq<nat>, pool: set<FileInfo>, images: map<FileInfo, File>)
      reads this`quenf_, this`saved, this`written, this`cuts, pool`filesize
      reads pool`gid, pool`uid, pool`cid, pool`grid, pool`field, pool`tmobs, pool`subpath, pool`filename
      reads set f | f in pool :: f.filedata
    {
      && i <= |rounds| == |writes|
      && M.CanRun(M.Start(), rounds)
      && M.CanRun(end, rounds[i..]) && M.Run(end, rounds[i..]) == M.Run(M.Start(), rounds)
      && quenf_ == end.quenf && saved == end.saved && rslt == end.rslt && errcnt == end.errcnt
      && InPool(quenf_, pool) && Sized(pool) && Depicts(images, pool) && Logged(written, saved, cuts, images)
      && cuts == Taken(rounds[..i], writes[..i])
    }

    // The root paths are those of the successful rounds, and the paths hold what was written.
    ghost predicate Placed(i: nat, rounds: seq<M.Round<FileInfo>>, paths: seq<string>, fs0: map<string, string>)
      reads this`written, this`roots, this`fs
    {
      i <= |rounds| == |paths| && roots == Taken(rounds[..i], paths[..i]) && OnDisk(fs0, fs, written, roots)
    }

    lemma FollowsAtFirst(rounds: seq<M.Round<FileInfo>>, writes: seq<nat>, paths: seq<string>,
                         pool: set<FileInfo>, images: map<FileInfo, File>)
      requires quenf_ == [] && saved == [] && written == [] && cuts == [] && roots == []
      requires |writes| == |paths| == |rounds| && M.CanRun(M.Start(), rounds) && Sized(pool) && Depicts(images, pool)
      ensures Follows(0, 0, true, M.Start(), rounds, writes, pool, images) && Placed(0, rounds, paths, fs)
    {
      LoggedNone(images);
      assert rounds[0..] == rounds;
      hide M.CanRun, M.Run, Sized, Depicts, Logged;
    }

    lemma PlacedToTheEnd(i: nat, rounds: seq<M.Round<FileInfo>>, paths: seq<string>, fs0: map<string, string>)
      requires Placed(i, rounds, paths, fs0) && i == |rounds|
      ensures roots == Taken(rounds, paths) && OnDisk(fs0, fs, written, roots)
    {
      assert rounds[..i] == rounds && paths[..i] == paths;
    }

    lemma FollowsToTheEnd(i: nat, errcnt: int, rslt: bool, end: M.Mon<FileInfo>, rounds: seq<M.Round<FileInfo>>,
                          writes: seq<nat>, pool: set<FileInfo>, images: map<FileInfo, File>)
      requires Follows(i, errcnt, rslt, end, rounds, writes, pool, images) && (errcnt >= 5 || i == |rounds|)
      ensures end == M.Run(M.Start(), rounds)
      ensures quenf_ == end.quenf && saved == end.saved && rslt == end.rslt && errcnt == end.errcnt
      ensures cuts == Taken(rounds, writes) && Depicts(images, pool) && Logged(written, saved, cuts, images)
      ensures i == |rounds|
    {
      RoundsUsed(end, rounds[i..]);
      assert i == |rounds| && rounds[..i] == rounds && writes[..i] == writes;
      hide InPool, Sized, Depicts, Logged, Taken, M.CanRun, M.Run;
    }

    // The body of the loop.
    method Once(i: nat, e: int, last: bool, ghost m: M.Mon<FileInfo>, rounds: seq<M.Round<FileInfo>>, writes: seq<nat>,
                paths: seq<string>, ghost fs0: map<string, string>,
                ghost pool: set<FileInfo>, ghost images: map<FileInfo, File>)
      returns (errcnt: int, rslt: bool, ghost end: M.Mon<FileInfo>)
      requires i < |rounds| && Follows(i, e, last, m, rounds, writes, pool, images) && Pooled(rounds[i], pool)
      requires running_ && Placed(i, rounds, paths, fs0) && i < |paths|
      modifies this`quenf_, this`saved, this`written, this`cuts, this`roots, this`fs, this`pathRoot_, pool`useCount
      ensures Follows(i + 1, errcnt, rslt, end, rounds, writes, pool, images) && Placed(i + 1, rounds, paths, fs0)
      ensures forall f | f in pool :: Outside(f) == old(Outside(f))
    {
      CountMeans(i, e, last, m, rounds, writes, pool, images);
      hide Follows, Placed, Pooled, Outside, M.Counted;
      errcnt, rslt := e, last;
      if |quenf_| == 0 {
        // waiting for a file
      } else if !rslt {
        errcnt := errcnt + 1;
      } else if errcnt != 0 {
        errcnt := 0;
      }
      UpdateStorage(paths[i]);
      rslt, end := Finish(i, e, last, errcnt, m, rounds, writes, paths, fs0, pool, images);
    }

    lemma CountMeans(i: nat, e: int, last: bool, m: M.Mon<FileInfo>, rounds: seq<M.Round<FileInfo>>, writes: seq<nat>,
                     pool: set<FileInfo>, images: map<FileInfo, File>)
      requires Follows(i, e, last, m, rounds, writes, pool, images)
      ensures M.Counted(m) == if |quenf_| == 0 then e else if !last then e + 1 else 0
    {
      hide M.CanRun, M.Run, InPool, Sized, Depicts, Logged, Taken;
    }

    // The rest of a round, after the errors were counted.
    method Finish(i: nat, e: int, last: bool, errcnt: int, ghost m: M.Mon<FileInfo>,
                  rounds: seq<M.Round<FileInfo>>, writes: seq<nat>, paths: seq<string>, ghost fs0: map<string, string>,
                  ghost pool: set<FileInfo>, ghost images: map<FileInfo, File>)
      returns (rslt: bool, ghost end: M.Mon<FileInfo>)
      requires i < |rounds| && Follows(i, e, last, m, rounds, writes, pool, images) && Pooled(rounds[i], pool)
      requires running_ && Placed(i, rounds, paths, fs0) && i < |paths| && pathRoot_ == paths[i]
               && errcnt == M.Counted(m)
      modifies this`quenf_, this`saved, this`written, this`cuts, this`roots, this`fs, pool`useCount
      ensures Follows(i + 1, errcnt, rslt, end, rounds, writes, pool, images) && Placed(i + 1, rounds, paths, fs0)
      ensures forall f | f in pool :: Outside(f) == old(Outside(f))
    {
      NextRound(m, rounds, i);
      TakenOneMore(rounds, writes, i);
      TakenOneMore(rounds, paths, i);
      hide M.CanRun, M.Run, M.Step, M.Enabled, M.Counted, Pooled, InPool, Sized, Depicts, Logged, Taken, Outside,
           OnDisk;
      rslt := Turn(rounds[i], writes[i], m, errcnt, fs0, pool, images);
      end := M.Step(m, rounds[i]);
    }
  }

  lemma TakenOneMore<T>(rounds: seq<M.Round<FileInfo>>, writes: seq<T>, i: nat)
    requires i < |rounds| == |writes|
    ensures Taken(rounds[..i + 1], writes[..i + 1])
            == Taken(rounds[..i], writes[..i]) + if rounds[i].ok then [writes[i]] else []
  {
    assert rounds[..i + 1][..i] == rounds[..i] && writes[..i + 1][..i] == writes[..i];
  }

  lemma MustNotBeEmpty(m: M.Mon<FileInfo>, r: M.Round<FileInfo>)
    requires M.Enabled(m, r)
    ensures m.quenf + r.before != []
  {
  }

  lemma StepIs(m: M.Mon<FileInfo>, r: M.Round<FileInfo>)
    requires M.Enabled(m, r)
    ensures var q := m.quenf + r.before;
            var t := M.Step(m, r);
            t.quenf == (if r.ok then (q + r.during)[1..] else q + r.during) && t.rslt == r.ok
                && t.errcnt == M.Counted(m)
            && q != [] && t.saved == if r.ok then m.saved + [q[0]] else m.saved
  {
  }

  lemma LoggedNone(images: map<FileInfo, File>)
    ensures Logged([], [], [], images)
  {
  }

  lemma NextRound(m: M.Mon<FileInfo>, rounds: seq<M.Round<FileInfo>>, i: nat)
    requires i < |rounds| && M.CanRun(m, rounds[i..])
    ensures rounds[i] in rounds && M.Enabled(m, rounds[i])
    ensures M.CanRun(M.Step(m, rounds[i]), rounds[i + 1..])
    ensures M.Run(m, rounds[i..]) == M.Run(M.Step(m, rounds[i]), rounds[i + 1..])
  {
    assert rounds[i..][1..] == rounds[i + 1..];
  }

  // No round is left when the loop stops.
  lemma RoundsUsed(m: M.Mon<FileInfo>, rs: seq<M.Round<FileInfo>>)
    requires M.CanRun(m, rs) && (m.errcnt >= 5 || rs == [])
    ensures rs == [] && M.Run(m, rs) == m
  {
  }
}
