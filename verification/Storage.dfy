// Choice of the disk that receives files, and its agreement with the writer's root path.
module Storage {
  import opened Options
  import W = FileWritter

  // fs::space(path).available >> 30 is compared, as an unsigned number, with an int setting.
  predicate Enough(available: nat, minimum: int) {
    available / 0x4000_0000 >= if minimum < 0 then minimum + 0x1_0000_0000_0000_0000 else minimum
  }

  // The disk d places after start, going round.
  function Place(start: nat, d: nat, n: nat): (k: nat)
    requires n > 0
    ensures k < n
  {
    (start + d) % n
  }

  // The first disk in cyclic order from start with enough space.
  ghost predicate IsFirstFit(available: seq<nat>, minimum: int, start: nat, k: nat) {
    var n := |available|;
    n > 0 && start < n && k < n && Enough(available[k], minimum)
    && exists d: nat :: d < n && Place(start, d, n) == k
        && forall e | 0 <= e < d :: !Enough(available[Place(start, e, n)], minimum)
  }

  predicate NoneFits(available: seq<nat>, minimum: int) {
    forall k | 0 <= k < |available| :: !Enough(available[k], minimum)
  }

  lemma PlaceWraps(start: nat, d: nat, n: nat)
    requires start < n && d < n
    ensures Place(start, d, n) == if start + d < n then start + d else start + d - n
  {
  }

  lemma NextIndex(i: nat, n: nat)
    requires i < n
    ensures (i + 1) % n == if i + 1 < n then i + 1 else 0
  {
  }

  // Every disk is some places away.
  lemma PlaceOnto(start: nat, k: nat, n: nat) returns (d: nat)
    requires start < n && k < n
    ensures d < n && Place(start, d, n) == k
  {
    d := if start <= k then k - start else k - start + n;
    PlaceWraps(start, d, n);
  }

  class TransferAgent {
    var nStorage: int
    var iStorage: int
    var minDiskStorage: int
    var pathStorage: seq<string>
    var nTemplate: int
    var pathTemplate: seq<string>
    var fwptr_: W.FileWritter?

    // The configured index is inside the list, as the configuration must have it.
    ghost predicate Configured()
      reads this
    {
      |pathStorage| == nStorage && 0 <= iStorage < nStorage
    }

    // The writer stores below the disk the index selects.
    ghost predicate Agrees()
      reads this, fwptr_
    {
      Configured() && fwptr_ != null && fwptr_.pathRoot_ == pathStorage[iStorage]
    }

    constructor (n: int, index: int, minimum: int, paths: seq<string>, nt: int, templates: seq<string>)
      ensures nStorage == n && iStorage == index && minDiskStorage == minimum && pathStorage == paths
      ensures nTemplate == nt && pathTemplate == templates && fwptr_ == null
    {
      nStorage, iStorage, minDiskStorage, pathStorage := n, index, minimum, paths;
      nTemplate, pathTemplate, fwptr_ := nt, templates, null;
    }

    method FindStorage(available: seq<nat>) returns (path: Option<string>)
      requires Configured() && |available| == nStorage
      modifies this`iStorage
      ensures Configured()
      ensures path.Some? ==>
              IsFirstFit(available, minDiskStorage, old(iStorage), iStorage) && path.value == pathStorage[iStorage]
      ensures path.None? ==> NoneFits(available, minDiskStorage) && iStorage == old(iStorage)
    {
      hide Enough, Place;
      var n, iNow := nStorage, iStorage;
      var i, iNew := 0, iNow;
      while i < n
        invariant iStorage == iNow && 0 <= i <= n && iNew == (if iNow + i <= n then iNow + i else iNow + i - n)
        invariant forall e | 0 <= e < i :: !Enough(available[Place(iNow, e, n)], minDiskStorage)
      {
        if iNew >= n {
          iNew := iNew - n;
        }
        PlaceWraps(iNow, i, n);
        if Enough(available[iNew], minDiskStorage) {
          break;
        }
        i, iNew := i + 1, iNew + 1;
      }
      if i < n && iNow != iNew {
        iStorage := iNew;
      }
      if i == n {
        forall k | 0 <= k < n
          ensures !Enough(available[k], minDiskStorage)
        {
          var d := PlaceOnto(iNow, k, n);
        }
        return None;
      }
      return Some(pathStorage[iNew]);
    }

    // The settings pass the check of StartService.
    predicate Consistent()
      reads this
    {
      |pathStorage| == nStorage && |pathTemplate| == nTemplate && nStorage > 0 && nTemplate > 0
    }

    // created tells whether the server could be created on its port.
    method StartService(available: seq<nat>, created: bool) returns (ok: bool)
      requires nStorage > 0 ==> 0 <= iStorage < nStorage && |available| == nStorage
      modifies this`iStorage, this`fwptr_
      ensures ok <==> Consistent() && !NoneFits(available, minDiskStorage) && created
      ensures Consistent() && !NoneFits(available, minDiskStorage) ==>
                Agrees() && fresh(fwptr_) && IsFirstFit(available, minDiskStorage, old(iStorage), iStorage)
      ensures !Consistent() || NoneFits(available, minDiskStorage) ==> iStorage == old(iStorage)
      ensures !Consistent() ==> fwptr_ == old(fwptr_)
    {
      if |pathStorage| != nStorage || |pathTemplate| != nTemplate || nStorage <= 0 || nTemplate <= 0 {
        return false;
      }
      fwptr_ := new W.FileWritter();
      var path := FindStorage(available);
      if path.Some? {
        fwptr_.UpdateStorage(path.value);
      } else {
        return false;
      }
      return created;
    }

    // Old files on the selected disk are removed when no disk has enough space.
    method FreeStorage(available: seq<nat>)
      requires Agrees() && |available| == nStorage
      modifies this`iStorage, fwptr_`pathRoot_
      ensures Agrees()
      ensures NoneFits(available, minDiskStorage) ==> iStorage == (old(iStorage) + 1) % nStorage
      ensures !NoneFits(available, minDiskStorage) ==> IsFirstFit(available, minDiskStorage, old(iStorage), iStorage)
    {
      hide Enough, Place;
      NextIndex(iStorage, nStorage);
      var iNow := iStorage;
      var path := FindStorage(available);
      if path.Some? {
        if iNow != iStorage {
          fwptr_.UpdateStorage(path.value);
        }
      } else {
        iNow := iNow + 1;
        if iNow >= nStorage {
          iNow := 0;
        }
        iStorage := iNow;
        fwptr_.UpdateStorage(pathStorage[iNow]);
      }
    }

    // Any number of checks while the free space of the disks changes.
    method AutoFree(history: seq<seq<nat>>) returns (ghost trace: seq<int>)
      requires Agrees() && forall h | 0 <= h < |history| :: |history[h]| == nStorage
      modifies this`iStorage, fwptr_`pathRoot_
      ensures Agrees() && |trace| == |history| + 1 && trace[0] == old(iStorage) && trace[|history|] == iStorage
      ensures IsTrace(trace, history, minDiskStorage, nStorage)
    {
      trace := [iStorage];
      for h := 0 to |history|
        invariant Agrees() && |trace| == h + 1 && trace[0] == old(iStorage) && trace[h] == iStorage
        invariant IsTrace(trace, history[..h], minDiskStorage, nStorage)
      {
        FreeStorage(history[h]);
        trace := trace + [iStorage];
        assert forall j | 0 <= j < h + 1 :: history[..h + 1][j] == history[j];
        assert forall j | 0 <= j < h :: history[..h][j] == history[j];
      }
      assert history[..|history|] == history;
    }
  }

  // Successive values of iStorage under the given free spaces.
  ghost predicate IsTrace(trace: seq<int>, history: seq<seq<nat>>, minimum: int, n: int) {
    n > 0 && |trace| == |history| + 1 && (forall j | 0 <= j < |trace| :: 0 <= trace[j] < n)
    && forall j | 0 <= j < |history| ::
      if NoneFits(history[j], minimum) then trace[j + 1] == (trace[j] + 1) % n
      else IsFirstFit(history[j], minimum, trace[j], trace[j + 1])
  }

  // As long as no disk has enough space, the index goes round by one.
  lemma {:induction false} Rotation(trace: seq<int>, history: seq<seq<nat>>, minimum: int, n: int, k: nat)
    requires IsTrace(trace, history, minimum, n) && k < |trace|
    requires forall j | 0 <= j < k :: NoneFits(history[j], minimum)
    ensures trace[k] == (trace[0] + k) % n
  {
    if k == 0 {
      DivUnique(trace[0], n, 0, trace[0]);
    } else {
      Rotation(trace, history, minimum, n, k - 1);
      hide IsFirstFit;
      assert NoneFits(history[k - 1], minimum) && trace[k] == (trace[k - 1] + 1) % n;
      hide NoneFits, IsTrace;
      NextPlace(trace[0] + k - 1, n);
    }
  }

  lemma MulAtLeast(x: int, n: int)
    requires x >= 1 && n > 0
    ensures x * n >= n
  {
    assert (x - 1) * n >= 0;
    assert x * n == (x - 1) * n + n;
  }

  lemma DivUnique(a: int, n: int, q: int, r: int)
    requires n > 0 && 0 <= r < n && a == q * n + r
    ensures a % n == r
  {
    var p := a / n;
    assert a == p * n + a % n;
    assert (p - q) * n == p * n - q * n && (q - p) * n == q * n - p * n;
    if p > q {
      MulAtLeast(p - q, n);
    } else if p < q {
      MulAtLeast(q - p, n);
    }
  }

  lemma NextPlace(a: nat, n: int)
    requires n > 0
    ensures (a % n + 1) % n == (a + 1) % n
  {
    var q := a / n;
    var r := a % n;
    assert a == q * n + r && 0 <= r < n;
    if r + 1 < n {
      DivUnique(a + 1, n, q, r + 1);
      DivUnique(r + 1, n, 0, r + 1);
    } else {
      assert (q + 1) * n == q * n + n;
      DivUnique(a + 1, n, q + 1, 0);
      DivUnique(n, n, 1, 0);
    }
  }

  // Any n such runs in a row select every disk for cleaning exactly once.
  lemma EveryDiskOnce(trace: seq<int>, history: seq<seq<nat>>, minimum: int, n: nat, disk: nat)
    requires IsTrace(trace, history, minimum, n) && |history| == n && disk < n
    requires forall j | 0 <= j < n :: NoneFits(history[j], minimum)
    ensures exists k :: 1 <= k <= n && trace[k] == disk
    ensures forall k, l | 1 <= k <= n && 1 <= l <= n && trace[k] == disk && trace[l] == disk :: k == l
  {
    var d := PlaceOnto((trace[0] + 1) % n, disk, n);
    Rotation(trace, history, minimum, n, 1);
    forall k | 1 <= k <= n
      ensures trace[k] == if trace[0] + k < n then trace[0] + k else trace[0] + k - n
    {
      Rotation(trace, history, minimum, n, k);
      if trace[0] + k < n {
        DivUnique(trace[0] + k, n, 0, trace[0] + k);
      } else {
        DivUnique(trace[0] + k, n, 1, trace[0] + k - n);
      }
    }
    var k := if disk > trace[0] then disk - trace[0] else disk - trace[0] + n;
    assert 1 <= k <= n && trace[k] == disk;
  }
}
