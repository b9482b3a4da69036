// What the paths hold after a run: which files are found where they were written.
module TransferPaths {
  import opened Options
  import opened FileStore
  import opened Transfer
  import opened TransferInv
  import opened TransferDisk
  import opened TransferSafety

  // The root path of each write, in order.
  function Roots(ls: seq<Label>): seq<string> {
    if ls == [] then []
    else
      var n := |ls| - 1;
      Roots(ls[..n]) + RootOf(ls[n])
  }

  function RootOf(l: Label): seq<string> {
    if l.SaveWrite? then [l.root] else []
  }

  lemma {:induction false} RootsMatch(ls: seq<Label>)
    ensures |Roots(ls)| == |Cuts(ls)|
  {
    if ls != [] {
      RootsMatch(ls[..|ls| - 1]);
    }
  }

  // ---- the last write to a path ----

  // Write number l is the last one to the path of write number j.
  predicate LastTo(at: (string, Meta) -> string, written: seq<File>, roots: seq<string>, j: nat, l: nat)
    requires |written| == |roots| && j < |written|
  {
    && j <= l < |written| && at(roots[l], written[l].meta) == at(roots[j], written[j].meta)
    && forall i | l < i < |written| :: at(roots[i], written[i].meta) != at(roots[j], written[j].meta)
  }

  lemma LastExists(at: (string, Meta) -> string, written: seq<File>, roots: seq<string>, j: nat) returns (l: nat)
    requires |written| == |roots| && j < |written|
    ensures LastTo(at, written, roots, j, l)
  {
    l := |written| - 1;
    while at(roots[l], written[l].meta) != at(roots[j], written[j].meta)
      invariant j <= l < |written|
      invariant forall i | l < i < |written| :: at(roots[i], written[i].meta) != at(roots[j], written[j].meta)
      decreases l
    {
      l := l - 1;
    }
  }

  // A path holds what the last write to it left there.
  lemma {:induction false} StoredLast(fs: map<string, string>, at: (string, Meta) -> string,
                                      written: seq<File>, roots: seq<string>, j: nat, l: nat)
    requires |written| == |roots| && j < |written| && LastTo(at, written, roots, j, l)
    ensures var p := at(roots[j], written[j].meta);
            p in DiskAfter(fs, at, written, roots) && DiskAfter(fs, at, written, roots)[p] == written[l].bytes
    decreases |written|
  {
    var n := |written| - 1;
    if l < n {
      assert at(roots[n], written[n].meta) != at(roots[j], written[j].meta);
      assert LastTo(at, written[..n], roots[..n], j, l);
      StoredLast(fs, at, written[..n], roots[..n], j, l);
    }
  }

  // ---- files found ----

  // A file is found whole at its path.
  predicate Found(fs: map<string, string>, at: (string, Meta) -> string, root: string, f: File) {
    at(root, f.meta) in fs && fs[at(root, f.meta)] == f.bytes
  }

  // What a run leaves, seen as values: the files that were to be stored, what was written of each,
  // how much that was, and the root paths.
  predicate Outcome(files: seq<File>, written: seq<File>, cuts: seq<nat>, roots: seq<string>) {
    && |files| == |written| == |cuts| == |roots|
    && forall j | 0 <= j < |files| ::
         cuts[j] <= |files[j].bytes| && written[j] == File(files[j].meta, files[j].bytes[..cuts[j]])
  }

  // The file of write j is found if and only if what the last write to its path left equals its bytes.
  lemma OneFound(fs: map<string, string>, at: (string, Meta) -> string,
                 files: seq<File>, written: seq<File>, cuts: seq<nat>, roots: seq<string>, j: nat, l: nat)
    requires Outcome(files, written, cuts, roots) && j < |files| && LastTo(at, written, roots, j, l)
    ensures Found(DiskAfter(fs, at, written, roots), at, roots[j], files[j])
            <==> files[l].bytes[..cuts[l]] == files[j].bytes
  {
    StoredLast(fs, at, written, roots, j, l);
  }

  lemma EachFound(fs: map<string, string>, at: (string, Meta) -> string,
                  files: seq<File>, written: seq<File>, cuts: seq<nat>, roots: seq<string>)
    requires Outcome(files, written, cuts, roots)
    ensures |files| == |written| == |cuts| == |roots|
    ensures forall j, l | 0 <= j < |files| && 0 <= l < |files| && LastTo(at, written, roots, j, l) ::
              cuts[l] <= |files[l].bytes|
              && (Found(DiskAfter(fs, at, written, roots), at, roots[j], files[j])
                  <==> files[l].bytes[..cuts[l]] == files[j].bytes)
  {
    forall j, l | 0 <= j < |files| && 0 <= l < |files| && LastTo(at, written, roots, j, l)
      ensures cuts[l] <= |files[l].bytes|
      ensures Found(DiskAfter(fs, at, written, roots), at, roots[j], files[j])
              <==> files[l].bytes[..cuts[l]] == files[j].bytes
    {
      hide DiskAfter, Found, LastTo;
      OneFound(fs, at, files, written, cuts, roots, j, l);
    }
  }

  // No two of the files that went to one path differ in their bytes.
  predicate Agree(at: (string, Meta) -> string, files: seq<File>, roots: seq<string>)
    requires |files| == |roots|
  {
    forall i, j | 0 <= i < |files| && 0 <= j < |files| && at(roots[i], files[i].meta) == at(roots[j], files[j].meta) ::
      files[i].bytes == files[j].bytes
  }

  // The last write to each path was not short.
  predicate LastWhole(at: (string, Meta) -> string,
                      files: seq<File>, written: seq<File>, cuts: seq<nat>, roots: seq<string>)
    requires |files| == |written| == |cuts| == |roots|
  {
    forall l | 0 <= l < |files| && LastTo(at, written, roots, l, l) :: cuts[l] == |files[l].bytes|
  }

  lemma AllFound(fs: map<string, string>, at: (string, Meta) -> string,
                 files: seq<File>, written: seq<File>, cuts: seq<nat>, roots: seq<string>)
    requires Outcome(files, written, cuts, roots)
    ensures (forall j | 0 <= j < |files| :: Found(DiskAfter(fs, at, written, roots), at, roots[j], files[j]))
            <==> Agree(at, files, roots) && LastWhole(at, files, written, cuts, roots)
  {
    var all := DiskAfter(fs, at, written, roots);
    if forall j | 0 <= j < |files| :: Found(all, at, roots[j], files[j]) {
      forall i, j | 0 <= i < |files| && 0 <= j < |files| && at(roots[i], files[i].meta) == at(roots[j], files[j].meta)
        ensures files[i].bytes == files[j].bytes
      {
        assert Found(all, at, roots[i], files[i]) && Found(all, at, roots[j], files[j]);
      }
      forall l | 0 <= l < |files| && LastTo(at, written, roots, l, l)
        ensures cuts[l] == |files[l].bytes|
      {
        assert Found(all, at, roots[l], files[l]);
        OneFound(fs, at, files, written, cuts, roots, l, l);
      }
    }
    if Agree(at, files, roots) && LastWhole(at, files, written, cuts, roots) {
      forall j | 0 <= j < |files|
        ensures Found(all, at, roots[j], files[j])
      {
        var l := LastExists(at, written, roots, j);
        assert LastTo(at, written, roots, l, l);
        OneFound(fs, at, files, written, cuts, roots, j, l);
        assert files[l].bytes == files[j].bytes;
      }
    }
  }

  // ---- main results ----

  // The files of the first writes of a run, in order.
  function Sources(plans: seq<seq<File>>, log: seq<Ticket>, n: nat): seq<File>
    requires n <= |log| && forall j | 0 <= j < |log| :: Valid(plans, log[j])
  {
    seq(n, j requires 0 <= j < n => FileOf(plans, log[j]))
  }

  lemma RunOutcome(plans: seq<seq<File>>, ls: seq<Label>)
    requires IsRun(plans, ls)
    ensures var s := After(plans, ls);
            |s.written| <= |s.accepted| && (forall j | 0 <= j < |s.accepted| :: Valid(plans, s.accepted[j]))
            && Outcome(Sources(plans, s.accepted, |s.written|), s.written, Cuts(ls), Roots(ls))
  {
    hide IsRun, FileOf, Valid, Cuts, Roots, Complete;
    EndToEnd(plans, ls);
    RootsMatch(ls);
  }

  // After every run, whatever the paths held before and whichever files root paths and names stand
  // for: a file that was written is found whole at its path if and only if the last write to that
  // path left just its bytes. All of them are, if and only if no two that went to one path differ
  // and the last write to each path was not short.
  lemma FoundExactly(plans: seq<seq<File>>, ls: seq<Label>, fs: map<string, string>, at: (string, Meta) -> string)
    requires IsRun(plans, ls)
    ensures var s := After(plans, ls);
            var roots, cuts := Roots(ls), Cuts(ls);
            && |s.written| <= |s.accepted| && |s.written| == |roots| == |cuts|
            && (forall j | 0 <= j < |s.accepted| :: Valid(plans, s.accepted[j]))
            && var files := Sources(plans, s.accepted, |s.written|);
            var all := DiskAfter(fs, at, s.written, roots);
            && (forall j, l | 0 <= j < |files| && 0 <= l < |files| && LastTo(at, s.written, roots, j, l) ::
                  cuts[l] <= |files[l].bytes|
                  && (Found(all, at, roots[j], files[j]) <==> files[l].bytes[..cuts[l]] == files[j].bytes))
            && ((forall j | 0 <= j < |files| :: Found(all, at, roots[j], files[j]))
                <==> Agree(at, files, roots) && LastWhole(at, files, s.written, cuts, roots))
  {
    hide IsRun, Sources, Roots, Cuts, DiskAfter, Found, LastTo, Agree, LastWhole, FileOf, Valid, Outcome;
    RunOutcome(plans, ls);
    var s := After(plans, ls);
    var files := Sources(plans, s.accepted, |s.written|);
    OutcomeLengths(files, s.written, Cuts(ls), Roots(ls));
    AllFound(fs, at, files, s.written, Cuts(ls), Roots(ls));
    EachFound(fs, at, files, s.written, Cuts(ls), Roots(ls));
  }

  // ---- different names ----

  // Neither root path lies below the other.
  predicate RootsApart(r: string, r': string) {
    r == r' || (!(r + "/" <= r') && !(r' + "/" <= r))
  }

  function Tail(m: Meta): string {
    (if m.subpath == "" then "" else m.subpath + "/") + m.filename
  }

  lemma TailsDiffer(m: Meta, m': Meta)
    requires PlainNames(m) && PlainNames(m') && Tail(m) == Tail(m')
    ensures m.subpath == m'.subpath && m.filename == m'.filename
  {
    var t, a, b := Tail(m), |m.subpath|, |m'.subpath|;
    if a > 0 {
      assert t[a] == '/' && forall i | 0 <= i < a :: t[i] == m.subpath[i] != '/';
      assert t[..a] == m.subpath && t[a + 1..] == m.filename;
    } else {
      assert t == m.filename;
    }
    if b > 0 {
      assert t[b] == '/' && forall i | 0 <= i < b :: t[i] == m'.subpath[i] != '/';
      assert t[..b] == m'.subpath && t[b + 1..] == m'.filename;
    } else {
      assert t == m'.filename;
    }
  }

  lemma LongerRoot(r: string, t: string, r': string, t': string)
    requires r + "/" + t == r' + "/" + t' && |r| < |r'|
    ensures r + "/" <= r'
  {
    var p := r + "/" + t;
    assert r + "/" == p[..|r| + 1] == r'[..|r| + 1];
  }

  lemma RootsDiffer(r: string, t: string, r': string, t': string)
    requires RootsApart(r, r') && r + "/" + t == r' + "/" + t'
    ensures r == r' && t == t'
  {
    if |r| < |r'| {
      LongerRoot(r, t, r', t');
    } else if |r'| < |r| {
      LongerRoot(r', t', r, t);
    } else {
      var p := r + "/" + t;
      assert r == p[..|r|] == r' && t == p[|r| + 1..] == t';
    }
  }

  // Below root paths that are not nested, different plain names are different paths.
  lemma PathsDiffer(r: string, m: Meta, r': string, m': Meta)
    requires PlainNames(m) && PlainNames(m') && RootsApart(r, r') && PathOf(r, m) == PathOf(r', m')
    ensures r == r' && m.subpath == m'.subpath && m.filename == m'.filename
  {
    assert PathOf(r, m) == r + "/" + Tail(m) && PathOf(r', m') == r' + "/" + Tail(m');
    RootsDiffer(r, Tail(m), r', Tail(m'));
    TailsDiffer(m, m');
  }

  // Every file of every client has plain names, and no two have the same.
  ghost predicate DifferentNames(plans: seq<seq<File>>) {
    && (forall c, n | 0 <= c < |plans| && 0 <= n < |plans[c]| :: PlainNames(plans[c][n].meta))
    && forall t, u | Valid(plans, t) && Valid(plans, u) && t != u ::
         SomeNameDiffers(FileOf(plans, t).meta, FileOf(plans, u).meta)
  }

  predicate SomeNameDiffers(m: Meta, m': Meta) {
    m.subpath != m'.subpath || m.filename != m'.filename
  }

  // With such names, and root paths that are not nested, every file that was written is found whole
  // at its path if and only if no write was short.
  lemma DifferentNamesFound(plans: seq<seq<File>>, ls: seq<Label>, fs: map<string, string>)
    requires IsRun(plans, ls) && DifferentNames(plans)
    requires forall i, j | 0 <= i < |Roots(ls)| && 0 <= j < |Roots(ls)| :: RootsApart(Roots(ls)[i], Roots(ls)[j])
    ensures var s := After(plans, ls);
            var roots := Roots(ls);
            && |s.written| <= |s.accepted| && |s.written| == |roots|
            && (forall j | 0 <= j < |s.accepted| :: Valid(plans, s.accepted[j]))
            && var files := Sources(plans, s.accepted, |s.written|);
            (forall j | 0 <= j < |files| :: Found(DiskAfter(fs, PathOf, s.written, roots), PathOf, roots[j], files[j]))
            <==> forall i | 0 <= i < |ls| :: !ShortAt(plans, ls, i)
  {
    hide IsRun, ShortAt, DifferentNames, Sources, Roots, Cuts, PathOf, FileOf, Valid, Found, DiskAfter, Outcome;
    var s := After(plans, ls);
    RunOutcome(plans, ls);
    OutcomeLengths(Sources(plans, s.accepted, |s.written|), s.written, Cuts(ls), Roots(ls));
    QueuedOnce(plans, ls);
    WholeExactly(plans, ls);
    PlacesDiffer(plans, s.accepted, Roots(ls));
    SourcesAre(plans, s.accepted, |s.written|);
    AllFound(fs, PathOf, Sources(plans, s.accepted, |s.written|), s.written, Cuts(ls), Roots(ls));
    AllLast(PathOf, Sources(plans, s.accepted, |s.written|), s.written, Cuts(ls), Roots(ls));
  }

  lemma OutcomeLengths(files: seq<File>, written: seq<File>, cuts: seq<nat>, roots: seq<string>)
    requires Outcome(files, written, cuts, roots)
    ensures |files| == |written| == |cuts| == |roots|
  {
  }

  lemma SourcesAre(plans: seq<seq<File>>, log: seq<Ticket>, n: nat)
    requires n <= |log| && forall j | 0 <= j < |log| :: Valid(plans, log[j])
    ensures |Sources(plans, log, n)| == n && forall j | 0 <= j < n :: Sources(plans, log, n)[j] == FileOf(plans, log[j])
  {
    hide FileOf, Valid;
  }

  lemma PlacesDiffer(plans: seq<seq<File>>, log: seq<Ticket>, roots: seq<string>)
    requires DifferentNames(plans) && |roots| <= |log| && forall j | 0 <= j < |log| :: Valid(plans, log[j])
    requires forall i, j | 0 <= i < j < |log| :: log[i] != log[j]
    requires forall i, j | 0 <= i < |roots| && 0 <= j < |roots| :: RootsApart(roots[i], roots[j])
    ensures var files := Sources(plans, log, |roots|);
            forall i, j | 0 <= i < |files| && 0 <= j < |files| && i != j ::
              PathOf(roots[i], files[i].meta) != PathOf(roots[j], files[j].meta)
  {
    var files := Sources(plans, log, |roots|);
    SourcesAre(plans, log, |roots|);
    forall i, j | 0 <= i < |files| && 0 <= j < |files| && i != j
      ensures PathOf(roots[i], files[i].meta) != PathOf(roots[j], files[j].meta)
    {
      assert log[i] != log[j] by { assert i < j || j < i; }
      hide DifferentNames, PlainNames, PathOf, FileOf, Valid, RootsApart, Sources;
      NamesOf(plans, log, i, j);
      if PathOf(roots[i], files[i].meta) == PathOf(roots[j], files[j].meta) {
        PathsDiffer(roots[i], files[i].meta, roots[j], files[j].meta);
      }
    }
  }

  lemma NamesOf(plans: seq<seq<File>>, log: seq<Ticket>, i: nat, j: nat)
    requires DifferentNames(plans) && i < |log| && j < |log| && Valid(plans, log[i]) && Valid(plans, log[j])
    requires log[i] != log[j]
    ensures PlainNames(FileOf(plans, log[i]).meta) && PlainNames(FileOf(plans, log[j]).meta)
    ensures SomeNameDiffers(FileOf(plans, log[i]).meta, FileOf(plans, log[j]).meta)
  {
    hide PlainNames, SomeNameDiffers;
  }

  // With pairwise different paths, every write is the last one to its path.
  lemma AllLast(at: (string, Meta) -> string,
                files: seq<File>, written: seq<File>, cuts: seq<nat>, roots: seq<string>)
    requires Outcome(files, written, cuts, roots)
    requires forall i, j | 0 <= i < |files| && 0 <= j < |files| && i != j ::
               at(roots[i], files[i].meta) != at(roots[j], files[j].meta)
    ensures Agree(at, files, roots)
    ensures LastWhole(at, files, written, cuts, roots) <==> forall j | 0 <= j < |files| :: written[j] == files[j]
  {
    forall j | 0 <= j < |files|
      ensures LastTo(at, written, roots, j, j)
      ensures written[j] == files[j] <==> cuts[j] == |files[j].bytes|
    {
      assert files[j].bytes[..|files[j].bytes|] == files[j].bytes;
    }
  }
}
