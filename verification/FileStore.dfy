// Values of the FileInfo objects that receivers, queue and writer share.
module FileStore {
  import opened Options
  import P = Protocol

  datatype Meta = Meta(
    gid: string, uid: string, cid: string, grid: string, field: string,
    tmobs: string, subpath: string, filename: string)

  // One FileInfo object.
  datatype Cell = Cell(meta: Meta, filesize: int, rcvsize: int, data: string)

  // A file as the client has it, and as it reaches the disk.
  datatype File = File(meta: Meta, bytes: string)

  // What a write that takes k bytes leaves of a file.
  function CutTo(f: File, k: nat): File {
    if k < |f.bytes| then File(f.meta, f.bytes[..k]) else f
  }

  // ---- where a file is stored ----

  // With any other file name the path is that of a directory, which cannot be opened for writing.
  predicate NamesFile(m: Meta) {
    m.filename != "" && m.filename != "." && m.filename != ".."
  }

  // The path of a file below a root path. An empty subpath adds nothing.
  function PathOf(root: string, m: Meta): string {
    root + "/" + (if m.subpath == "" then "" else m.subpath + "/") + m.filename
  }

  // What the paths hold after the given writes, each under its root path. Opening a file for
  // writing empties it, so a later write to a path replaces what was there. The parameter at tells
  // which file a root path and a description name.
  function DiskAfter(fs: map<string, string>, at: (string, Meta) -> string, written: seq<File>, roots: seq<string>)
    : map<string, string>
    requires |written| == |roots|
  {
    if written == [] then fs
    else
      var n := |written| - 1;
      DiskAfter(fs, at, written[..n], roots[..n])[at(roots[n], written[n].meta) := written[n].bytes]
  }

  // A file is opened for writing and written.
  function PutFile(fs: map<string, string>, root: string, f: File): map<string, string> {
    fs[PathOf(root, f.meta) := f.bytes]
  }

  // The paths hold in fs what the writes left of fs0.
  predicate OnDisk(fs0: map<string, string>, fs: map<string, string>, written: seq<File>, roots: seq<string>) {
    |written| == |roots| && fs == DiskAfter(fs0, PathOf, written, roots)
  }

  lemma OnDiskOneMore(fs0: map<string, string>, fs: map<string, string>, written: seq<File>, roots: seq<string>,
                     f: File, root: string)
    requires OnDisk(fs0, fs, written, roots)
    ensures OnDisk(fs0, PutFile(fs, root, f), written + [f], roots + [root])
  {
    assert (written + [f])[..|written|] == written && (roots + [root])[..|roots|] == roots;
  }

  // A name that is one component of a path, and short enough for a file system.
  predicate PlainName(s: string) {
    '/' !in s && s != "." && s != ".." && |s| <= 255
  }

  predicate PlainNames(m: Meta) {
    PlainName(m.subpath) && PlainName(m.filename) && NamesFile(m)
  }

  // The files can all be stored below one root path that is empty at first: no file stands where
  // another one needs a directory.
  predicate Storable(files: seq<File>) {
    && (forall i | 0 <= i < |files| :: PlainNames(files[i].meta))
    && forall i, j | 0 <= i < |files| && 0 <= j < |files| && files[i].meta.subpath == "" ::
         files[i].meta.filename != files[j].meta.subpath
  }

  // ---- messages and objects ----

  function MetaOf(i: P.FileInfoMsg): Meta {
    Meta(i.gid, i.uid, i.cid, i.grid, i.field, i.tmobs, i.subpath, i.filename)
  }

  function InfoMsg(f: File): P.FileInfoMsg {
    var m := f.meta;
    P.FileInfoMsg("", m.gid, m.uid, m.cid, m.grid, m.field, m.tmobs, m.subpath, m.filename, |f.bytes|)
  }

  // DataArrive copies a chunk behind the bytes received so far.
  // A copy past the end of the buffer is outside the model; only the counter moves then.
  function Arrived(c: Cell, chunk: string): Cell {
    var n := c.rcvsize + |chunk|;
    if 0 <= c.rcvsize && n <= |c.data| then
      c.(rcvsize := n, data := c.data[..c.rcvsize] + chunk + c.data[n..])
    else c.(rcvsize := n)
  }

  predicate Full(c: Cell) {
    c.rcvsize >= c.filesize
  }

  // The receiver keeps its object only when it holds the only reference and the size fits.
  predicate Reusable(cells: seq<Cell>, refs: seq<int>, ptr: Option<nat>, filesize: int)
    requires |refs| == |cells| && (ptr.Some? ==> ptr.value < |cells|)
  {
    ptr.Some? && refs[ptr.value] == 1 && cells[ptr.value].filesize == filesize
  }
}
