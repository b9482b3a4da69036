// When the writer's loop stops on consecutive failures, and when it does not.
module MonitorStops {
  import opened Monitor

  // What happened since the counter was last cleared.
  function SinceClear(trace: seq<Event>): seq<Event> {
    if trace == [] then []
    else
      var n := |trace| - 1;
      if trace[n] == Cleared then [] else SinceClear(trace[..n]) + [trace[n]]
  }

  // Nothing but failures between any two failures.
  predicate Contiguous(u: seq<Event>) {
    forall i, j, k | 0 <= i < j < k < |u| && u[i] == Failed && u[k] == Failed :: u[j] == Failed
  }

  // The state before turn i.
  function Before<T>(rs: seq<Round<T>>, i: nat): Mon<T>
    requires CanRun(Start<T>(), rs) && i <= |rs|
  {
    CanRunPrefix(Start<T>(), rs, i);
    Run(Start<T>(), rs[..i])
  }

  // The turn waits with an empty queue, although the last save succeeded and errors are counted.
  predicate SkipsClearing<T>(m: Mon<T>) {
    m.quenf == [] && m.rslt && m.errcnt > 0
  }

  predicate Clears<T>(m: Mon<T>) {
    m.quenf != [] && m.rslt && m.errcnt > 0
  }

  // Such a turn occurred, and no turn after it cleared the counter.
  predicate SkippedSince<T>(rs: seq<Round<T>>)
    requires CanRun(Start<T>(), rs)
  {
    exists i :: 0 <= i < |rs| && SkippedAt(rs, i)
  }

  predicate SkippedAt<T>(rs: seq<Round<T>>, i: nat)
    requires CanRun(Start<T>(), rs) && i < |rs|
  {
    SkipsClearing(Before(rs, i)) && forall j | i < j < |rs| :: !Clears(Before(rs, j))
  }

  lemma {:induction false} CanRunPrefix<T>(m: Mon<T>, rs: seq<Round<T>>, i: nat)
    requires CanRun(m, rs) && i <= |rs|
    ensures CanRun(m, rs[..i])
    decreases i
  {
    if i > 0 {
      assert rs[..i][0] == rs[0] && rs[..i][1..] == rs[1..][..i - 1];
      CanRunPrefix(Step(m, rs[0]), rs[1..], i - 1);
    }
  }

  lemma {:induction false} RunLast<T>(m: Mon<T>, rs: seq<Round<T>>)
    requires CanRun(m, rs) && rs != []
    ensures var n := |rs| - 1;
            CanRun(m, rs[..n]) && Enabled(Run(m, rs[..n]), rs[n]) && Run(m, rs) == Step(Run(m, rs[..n]), rs[n])
    decreases |rs|
  {
    hide Step, Enabled;
    var n := |rs| - 1;
    if n == 0 {
      assert rs[..0] == [] && rs[1..] == [];
    } else {
      assert rs[..n][0] == rs[0] && rs[..n][1..] == rs[1..][..n - 1];
      RunLast(Step(m, rs[0]), rs[1..]);
    }
  }

  // ---- what one more event does ----

  predicate NoFailure(u: seq<Event>) {
    forall i | 0 <= i < |u| :: u[i] != Failed
  }

  predicate EndsFailed(u: seq<Event>) {
    u != [] && u[|u| - 1] == Failed
  }

  // A failure was followed by a success.
  predicate Recovered(u: seq<Event>) {
    exists i, j :: 0 <= i < j < |u| && u[i] == Failed && u[j] == Saved
  }

  lemma AddFailure(u: seq<Event>)
    ensures Contiguous(u) && (NoFailure(u) || EndsFailed(u)) ==> Contiguous(u + [Failed])
    ensures !Contiguous(u) || Recovered(u) ==> !Contiguous(u + [Failed])
    ensures EndsFailed(u + [Failed])
  {
    var v := u + [Failed];
    var n := |u|;
    if Contiguous(u) && (NoFailure(u) || EndsFailed(u)) {
      forall i, j, k | 0 <= i < j < k < |v| && v[i] == Failed && v[k] == Failed
        ensures v[j] == Failed
      {
        if k == n {
          assert u[i] == Failed && u[n - 1] == Failed;
        } else {
          assert u[i] == Failed && u[k] == Failed;
        }
      }
    }
    if Recovered(u) {
      var i, j :| 0 <= i < j < |u| && u[i] == Failed && u[j] == Saved;
      assert v[i] == Failed && v[j] == Saved && v[n] == Failed;
    }
    StaysSplit(u, Failed);
  }

  lemma StaysSplit(u: seq<Event>, e: Event)
    ensures !Contiguous(u) ==> !Contiguous(u + [e])
  {
    if !Contiguous(u) {
      var i, j, k :| 0 <= i < j < k < |u| && u[i] == Failed && u[k] == Failed && u[j] != Failed;
      var v := u + [e];
      assert v[i] == Failed && v[k] == Failed && v[j] != Failed;
    }
  }

  lemma AddSuccess(u: seq<Event>)
    ensures Contiguous(u) <==> Contiguous(u + [Saved])
    ensures NoFailure(u) ==> NoFailure(u + [Saved])
    ensures EndsFailed(u) || Recovered(u) ==> Recovered(u + [Saved])
  {
    var v := u + [Saved];
    var n := |u|;
    StaysSplit(u, Saved);
    if Contiguous(u) {
      forall i, j, k | 0 <= i < j < k < |v| && v[i] == Failed && v[k] == Failed
        ensures v[j] == Failed
      {
        assert u[i] == Failed && u[k] == Failed;
      }
    }
    if EndsFailed(u) {
      assert v[n - 1] == Failed && v[n] == Saved;
    } else if Recovered(u) {
      var i, j :| 0 <= i < j < |u| && u[i] == Failed && u[j] == Saved;
      assert v[i] == Failed && v[j] == Saved;
    }
  }

  lemma SinceClearAppend(trace: seq<Event>, e: Event)
    ensures SinceClear(trace + [e]) == if e == Cleared then [] else SinceClear(trace) + [e]
  {
    assert (trace + [e])[..|trace|] == trace;
  }

  // ---- every turn ----

  predicate StopInv<T>(m: Mon<T>, skipped: bool) {
    var u := SinceClear(m.trace);
    && (!m.rslt ==> m.quenf != [] && EndsFailed(u))
    && (m.rslt && m.errcnt == 0 ==> NoFailure(u))
    && (m.rslt && m.errcnt > 0 ==> Recovered(u))
    && (!skipped ==> Contiguous(u))
    && (skipped ==> !Contiguous(u) || (m.rslt && 0 < m.errcnt < MAX_ERRORS))
  }

  // skipped, and whether it still holds after a turn that begins in m.
  function Skipping<T>(m: Mon<T>, skipped: bool): bool {
    !Clears(m) && (skipped || SkipsClearing(m))
  }

  lemma TurnTrace<T>(m: Mon<T>, r: Round<T>)
    requires Enabled(m, r)
    ensures SinceClear(Step(m, r).trace)
            == (if Clears(m) then [] else SinceClear(m.trace)) + [if r.ok then Saved else Failed]
  {
    var clear: seq<Event> := if m.quenf != [] && m.rslt && m.errcnt != 0 then [Cleared] else [];
    if clear != [] {
      SinceClearAppend(m.trace, Cleared);
    } else {
      assert m.trace + clear == m.trace;
    }
    SinceClearAppend(m.trace + clear, if r.ok then Saved else Failed);
  }

  lemma NoFailureIsContiguous(u: seq<Event>)
    ensures NoFailure(u) ==> Contiguous(u) && !Recovered(u)
  {
  }

  lemma TurnKeeps<T>(m: Mon<T>, skipped: bool, r: Round<T>)
    requires StopInv(m, skipped) && Enabled(m, r)
    ensures StopInv(Step(m, r), Skipping(m, skipped))
  {
    var u := if Clears(m) then [] else SinceClear(m.trace);
    TurnTrace(m, r);
    AddFailure(u);
    AddSuccess(u);
    NoFailureIsContiguous(u);
    assert Clears(m) ==> NoFailure(u);
    hide SinceClear, Contiguous, NoFailure, EndsFailed, Recovered;
  }

  lemma {:induction false} RunStops<T>(rs: seq<Round<T>>)
    requires CanRun(Start<T>(), rs)
    ensures StopInv(Run(Start<T>(), rs), SkippedSince(rs))
    decreases |rs|
  {
    if rs != [] {
      var n := |rs| - 1;
      RunLast(Start<T>(), rs);
      RunStops(rs[..n]);
      SkippedLast(rs);
      hide SkippedSince, StopInv, Step, Run, CanRun;
      TurnKeeps(Run(Start<T>(), rs[..n]), SkippedSince(rs[..n]), rs[n]);
    } else {
      hide CanRun, SkippedAt;
    }
  }

  lemma {:induction false} SkippedLast<T>(rs: seq<Round<T>>)
    requires CanRun(Start<T>(), rs) && rs != []
    ensures var n := |rs| - 1;
            CanRun(Start<T>(), rs[..n])
            && SkippedSince(rs) == Skipping(Run(Start<T>(), rs[..n]), SkippedSince(rs[..n]))
  {
    var n := |rs| - 1;
    CanRunPrefix(Start<T>(), rs, n);
    var m := Before(rs, n);
    forall i | 0 <= i < n
      ensures SkippedAt(rs, i) <==> SkippedAt(rs[..n], i) && !Clears(m)
    {
      forall j | 0 <= j < n
        ensures Before(rs[..n], j) == Before(rs, j)
      {
        assert rs[..n][..j] == rs[..j];
      }
    }
    assert SkippedAt(rs, n) <==> SkipsClearing(m);
    if SkippedSince(rs[..n]) && !Clears(m) {
      var i :| 0 <= i < n && SkippedAt(rs[..n], i);
      assert SkippedAt(rs, i);
    }
    hide SkippedAt;
  }

  // When the loop stops, the failures since the counter was last cleared follow one another if and
  // only if no turn since then began with an empty queue after a success while errors were counted.
  lemma {:induction false} StopsOnConsecutive<T>(rs: seq<Round<T>>)
    requires CanRun(Start<T>(), rs) && Run(Start<T>(), rs).errcnt >= MAX_ERRORS
    ensures Contiguous(SinceClear(Run(Start<T>(), rs).trace)) <==> !SkippedSince(rs)
  {
    RunStops(rs);
  }
}
