// The loop of the writer thread: which files it saves, and when it gives up.
module Monitor {
  // One turn of the loop: files that arrive while it waits or sleeps, files that arrive while
  // save_first runs, and whether save_first succeeds.
  datatype Round<T> = Round(before: seq<T>, during: seq<T>, ok: bool)

  datatype Event = Failed | Saved | Cleared

  datatype Mon<T> = Mon(
    quenf: seq<T>,
    saved: seq<T>,
    rslt: bool,             // result of the last save
    errcnt: nat,
    trace: seq<Event>)

  const MAX_ERRORS := 5

  // An empty queue is waited on until a file arrives.
  predicate Enabled<T>(m: Mon<T>, r: Round<T>) {
    m.errcnt < MAX_ERRORS && m.quenf + r.before != []
  }

  // What the three branches before save_first do to the counter.
  function Counted<T>(m: Mon<T>): nat {
    if m.quenf == [] then m.errcnt
    else if !m.rslt then m.errcnt + 1
    else 0
  }

  function Step<T>(m: Mon<T>, r: Round<T>): Mon<T>
    requires Enabled(m, r)
  {
    var clear := if m.quenf != [] && m.rslt && m.errcnt != 0 then [Cleared] else [];
    var q := m.quenf + r.before + r.during;
    if r.ok then
      Mon(q[1..], m.saved + [q[0]], true, Counted(m), m.trace + clear + [Saved])
    else
      Mon(q, m.saved, false, Counted(m), m.trace + clear + [Failed])
  }

  predicate CanRun<T>(m: Mon<T>, rs: seq<Round<T>>)
    decreases |rs|
  {
    rs == [] || (Enabled(m, rs[0]) && CanRun(Step(m, rs[0]), rs[1..]))
  }

  function Run<T>(m: Mon<T>, rs: seq<Round<T>>): Mon<T>
    requires CanRun(m, rs)
    decreases |rs|
  {
    if rs == [] then m else Run(Step(m, rs[0]), rs[1..])
  }

  function Start<T>(): Mon<T> {
    Mon([], [], true, 0, [])
  }

  function Arrivals<T>(rs: seq<Round<T>>): seq<T> {
    if rs == [] then [] else rs[0].before + rs[0].during + Arrivals(rs[1..])
  }

  // Failed saves since the counter was last cleared.
  function FailsSinceClear(trace: seq<Event>): nat {
    if trace == [] then 0
    else
      var n := |trace| - 1;
      match trace[n]
      case Cleared => 0
      case Failed => FailsSinceClear(trace[..n]) + 1
      case Saved => FailsSinceClear(trace[..n])
  }

  predicate Inv<T>(m: Mon<T>) {
    && m.errcnt + (if m.rslt then 0 else 1) == FailsSinceClear(m.trace)
    && (!m.rslt ==> m.quenf != [])
    && m.errcnt <= MAX_ERRORS
  }

  lemma FailsAppend(trace: seq<Event>, e: Event)
    ensures FailsSinceClear(trace + [e])
            == match e case Cleared => 0 case Failed => FailsSinceClear(trace) + 1 case Saved => FailsSinceClear(trace)
  {
    assert (trace + [e])[..|trace|] == trace;
  }

  lemma StepInv<T>(m: Mon<T>, r: Round<T>)
    requires Inv(m) && Enabled(m, r)
    ensures Inv(Step(m, r))
  {
    var clear := if m.quenf != [] && m.rslt && m.errcnt != 0 then [Cleared] else [];
    var last := if r.ok then Saved else Failed;
    if clear == [] {
      assert m.trace + clear == m.trace;
    } else {
      FailsAppend(m.trace, Cleared);
    }
    FailsAppend(m.trace + clear, last);
  }

  // No file is saved twice or skipped: saved files followed by the queue are the files that were
  // there or arrived, in order.
  lemma {:induction false} Conservation<T>(m: Mon<T>, rs: seq<Round<T>>)
    requires CanRun(m, rs)
    ensures var t := Run(m, rs); t.saved + t.quenf == m.saved + m.quenf + Arrivals(rs)
    decreases |rs|
  {
    if rs != [] {
      StepConserves(m, rs[0]);
      Conservation(Step(m, rs[0]), rs[1..]);
      hide Step;
      var b, d, later := rs[0].before, rs[0].during, Arrivals(rs[1..]);
      assert m.saved + m.quenf + b + d + later == m.saved + m.quenf + (b + d + later);
    } else {
      assert m.saved + m.quenf + [] == m.saved + m.quenf;
    }
  }

  lemma StepConserves<T>(m: Mon<T>, r: Round<T>)
    requires Enabled(m, r)
    ensures var t := Step(m, r); t.saved + t.quenf == m.saved + m.quenf + r.before + r.during
  {
    var q := m.quenf + r.before + r.during;
    assert m.saved + q == m.saved + m.quenf + r.before + r.during;
    if r.ok {
      assert q == [q[0]] + q[1..];
      assert m.saved + [q[0]] + q[1..] == m.saved + q;
    }
  }

  // The counter, plus one if the last save failed, is the number of failed saves since it was cleared.
  // When the loop stops there were five or six of them, six if and only if the last save failed.
  lemma {:induction false} CounterMeans<T>(m: Mon<T>, rs: seq<Round<T>>)
    requires Inv(m) && CanRun(m, rs)
    ensures var t := Run(m, rs);
            t.errcnt + (if t.rslt then 0 else 1) == FailsSinceClear(t.trace)
            && (t.errcnt >= MAX_ERRORS ==> FailsSinceClear(t.trace) == if t.rslt then 5 else 6)
    decreases |rs|
  {
    if rs != [] {
      StepInv(m, rs[0]);
      CounterMeans(Step(m, rs[0]), rs[1..]);
    }
  }

  // A save that succeeds leads to a cleared counter in the next turn if and only if the counter was
  // zero anyway or another file is already queued when the turn begins.
  lemma ClearedExactly<T>(m: Mon<T>, r: Round<T>)
    requires Enabled(m, r) && m.rslt
    ensures Step(m, r).errcnt == 0 <==> m.errcnt == 0 || m.quenf != []
  {
  }

  lemma {:induction false} AllFail<T>(m: Mon<T>, rs: seq<Round<T>>)
    requires CanRun(m, rs) && forall r | r in rs :: !r.ok
    requires !m.rslt && m.quenf != []
    ensures Run(m, rs).errcnt == m.errcnt + |rs| && !Run(m, rs).rslt
    decreases |rs|
  {
    if rs != [] {
      assert rs[0] in rs;
      AllFail(Step(m, rs[0]), rs[1..]);
    }
  }

  // From a clear counter, if every save fails, the loop makes exactly six attempts:
  // six turns end it, and no fewer do.
  lemma SixAttempts<T>(m: Mon<T>, rs: seq<Round<T>>)
    requires m.errcnt == 0 && m.rslt && CanRun(m, rs) && forall r | r in rs :: !r.ok
    ensures |rs| <= 6
    ensures Run(m, rs).errcnt >= MAX_ERRORS <==> |rs| == 6
  {
    if rs != [] {
      assert rs[0] in rs;
      var t := Step(m, rs[0]);
      if |rs| > 6 {
        Longer(t, rs[1..], 5);
        AllFail(t, rs[1..][..5]);
      } else {
        AllFail(t, rs[1..]);
      }
    }
  }

  // A run has no turn after the counter reached its limit.
  lemma {:induction false} Longer<T>(m: Mon<T>, rs: seq<Round<T>>, n: nat)
    requires CanRun(m, rs) && n < |rs|
    ensures CanRun(m, rs[..n]) && Run(m, rs[..n]).errcnt < MAX_ERRORS
    decreases n
  {
    if n > 0 {
      assert rs[..n][1..] == rs[1..][..n - 1];
      Longer(Step(m, rs[0]), rs[1..], n - 1);
    }
  }

  const SCRIPT: seq<Round<int>> :=
    [Round([1], [], false), Round([], [], false), Round([], [], true),
     Round([2], [], false), Round([], [], false), Round([], [], true),
     Round([3], [], false), Round([], [], true)]

  lemma Chain<T>(m: Mon<T>, rs: seq<Round<T>>, m1: Mon<T>, t: Mon<T>)
    requires rs != [] && Enabled(m, rs[0]) && Step(m, rs[0]) == m1
    requires CanRun(m1, rs[1..]) && Run(m1, rs[1..]) == t
    ensures CanRun(m, rs) && Run(m, rs) == t
  {
  }

  // The state after four of these turns: file 1 is saved, file 2 failed once.
  const MIDDLE: Mon<int> := Mon([2], [1], false, 2, [Failed, Failed, Saved, Failed])

  const END: Mon<int> :=
    Mon([], [1, 2, 3], true, 5, [Failed, Failed, Saved, Failed, Failed, Saved, Failed, Saved])

  lemma LastTurns()
    ensures CanRun(MIDDLE, SCRIPT[4..]) && Run(MIDDLE, SCRIPT[4..]) == END
  {
    var rs := SCRIPT[4..];
    var F, S := Failed, Saved;
    var m5 := Mon([2], [1], false, 3, [F, F, S, F, F]);
    var m6 := Mon([], [1, 2], true, 4, [F, F, S, F, F, S]);
    var m7 := Mon([3], [1, 2], false, 4, [F, F, S, F, F, S, F]);
    assert Step(MIDDLE, rs[0]) == m5 && Step(m5, rs[1]) == m6 && Step(m6, rs[2]) == m7 && Step(m7, rs[3]) == END;
    hide Step;
    Chain(m7, rs[3..], END, END);
    Chain(m6, rs[2..], m7, END);
    Chain(m5, rs[1..], m6, END);
    Chain(MIDDLE, rs, m5, END);
  }

  // The failures need not be consecutive, nor need the last save fail: here files 1 and 2 are saved
  // after two failures each, file 3 is saved at its second attempt, and the loop ends.
  lemma NotConsecutive()
    ensures CanRun(Start<int>(), SCRIPT)
    ensures var t := Run(Start<int>(), SCRIPT);
            t.errcnt == MAX_ERRORS && t.rslt && t.saved == [1, 2, 3] && t.quenf == []
  {
    var rs := SCRIPT;
    var m := Start<int>();
    var F, S := Failed, Saved;
    var m1 := Mon([1], [], false, 0, [F]);
    var m2 := Mon([1], [], false, 1, [F, F]);
    var m3 := Mon([], [1], true, 2, [F, F, S]);
    assert Step(m, rs[0]) == m1 && Step(m1, rs[1]) == m2 && Step(m2, rs[2]) == m3 && Step(m3, rs[3]) == MIDDLE;
    hide Step;
    LastTurns();
    Chain(m3, rs[3..], MIDDLE, END);
    Chain(m2, rs[2..], m3, END);
    Chain(m1, rs[1..], m2, END);
    Chain(m, rs, m1, END);
  }
}
