// How many steps a handshake can take, and where it ends.
module TransferBound {
  import opened Options
  import opened FileStore
  import opened R = Receiver
  import opened Transfer
  import opened TransferInv
  import opened TransferSteps
  import opened TransferRuns
  import opened TransferSafety
  import opened TransferProgress

  // Steps of the handshake of connection c.
  function WorksIn(ls: seq<Label>, c: nat): nat {
    if ls == [] then 0 else (if Works(ls[0], c) then 1 else 0) + WorksIn(ls[1..], c)
  }

  lemma HangupMeasure(files: seq<File>, k: Conn)
    requires R.Enabled(k.rcv, Fail)
    ensures MeasureOf(files, Local(k, Fail)) == MeasureOf(files, k)
  {
  }

  lemma IdleStep(plans: seq<seq<File>>, s: Sys, l: Label, c: nat)
    requires CanStep(plans, s, l) && c < |plans| == |s.conns| && !Works(l, c) && l != Announce(c)
    ensures |Step(plans, s, l).conns| == |plans|
    ensures MeasureOf(plans[c], Step(plans, s, l).conns[c]) == MeasureOf(plans[c], s.conns[c])
  {
    StepLength(plans, s, l);
    if !OfConn(l) || l.c != c {
      hide MeasureOf, Step, CanStep;
      StepFrame(plans, s, l, c);
    } else {
      hide MeasureOf;
      HangupMeasure(plans[c], s.conns[c]);
    }
  }

  // Until the next fileinfo, the measure is left for each step of the handshake.
  lemma {:induction false} WorksBounded(plans: seq<seq<File>>, s: Sys, more: seq<Label>, c: nat)
    requires c < |plans| == |s.conns| && CanRun(plans, s, more) && Announce(c) !in more
    requires Inv(plans, s) && AllConform(plans)
    ensures var t := Run(plans, s, more);
            Inv(plans, t) && |t.conns| == |plans|
            && WorksIn(more, c) + MeasureOf(plans[c], t.conns[c]) <= MeasureOf(plans[c], s.conns[c])
    decreases |more|
  {
    hide Inv, AllConform, CanStep, Step, MeasureOf, Works;
    if more != [] {
      var l := more[0];
      StepKeeps(plans, s, l);
      StepLength(plans, s, l);
      if Works(l, c) {
        WorksDecreases(plans, s, l, c);
      } else {
        IdleStep(plans, s, l, c);
      }
      assert Announce(c) !in more[1..];
      WorksBounded(plans, Step(plans, s, l), more[1..], c);
    }
  }

  // From any reachable state, however the run goes on without the next fileinfo of client c, its
  // handshake takes at most as many steps as the measure says. Where none is left on a connection
  // that is up, the client has its status 2 if and only if no line of it was ever read while state_
  // was COMPLETE.
  lemma HandshakeEnds(plans: seq<seq<File>>, ls: seq<Label>, more: seq<Label>, c: nat)
    requires IsRun(plans, ls) && IsRun(plans, ls + more) && c < |plans| && Announce(c) !in more
    ensures |After(plans, ls).conns| == |After(plans, ls + more).conns| == |plans|
    ensures WorksIn(more, c) <= MeasureOf(plans[c], After(plans, ls).conns[c])
    ensures var t := After(plans, ls + more);
            t.conns[c].rcv.armed && (forall l | Works(l, c) :: !CanStep(plans, t, l)) ==>
              (t.conns[c].phase.Resting? <==>
               forall i | 0 <= i < |ls + more| :: !DropsAt(plans, ls + more, c, i))
  {
    RunInv(plans, ls);
    RunInv(plans, ls + more);
    StillInv(plans, After(plans, ls));
    StillInv(plans, After(plans, ls + more));
    hide Inv, AllConform, CanStep, MeasureOf, Works, DropsAt;
    RunSplit(plans, Init(|plans|), ls, more);
    WorksBounded(plans, After(plans, ls), more, c);
    var t := After(plans, ls + more);
    LostExactly(plans, ls + more, c);
    if t.conns[c].rcv.armed && !t.conns[c].phase.Resting? {
      HandshakeProgress(plans, ls + more, c);
    }
  }
}
