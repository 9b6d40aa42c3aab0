/** Who ends a delivery loop, and by what: Drain by withdrawing the consumer or, failing
    that, by cancelling what the loop reads on; Stop by cancelling the work. */
module ReceiverCancels {
  import opened Options
  import opened ReceiverLifecycle
  import opened ReceiverSafety

  // The loop leaves as soon as it is back at its select: at once, or after its backlog.
  predicate CanLeave(s: State, c: CycleId)
    requires c < |s.loops|
  {
    var l := s.loops[c];
    l.phase.Selecting? ==>
      Enabled(s, LoopStep(c, ExitsCancelled)) || Enabled(s, LoopStep(c, Takes)) || Enabled(s, LoopStep(c, ExitsAtEnd))
  }

  lemma CancelsOnlyGrow(s: State, step: Step, c: CycleId)
    requires Enabled(s, step) && c < |s.loops|
    ensures var s' := Apply(s, step);
            && c < |s'.loops|
            && (s.loops[c].closed ==> s'.loops[c].closed)
            && (s.loops[c].readCancelled ==> s'.loops[c].readCancelled)
            && (s.loops[c].workCancelled ==> s'.loops[c].workCancelled)
  {
    match step
    case StartStep(act) =>
    case DrainStep(d, act) => DrainCancelsGrow(s, d, act, c);
    case StopStep(i, act) => StopCancelsGrow(s, i, act, c);
    case LoopStep(b, act) =>
  }

  lemma DrainCancelsGrow(s: State, d: nat, act: DrainAct, c: CycleId)
    requires CanDrain(s, d, act) && c < |s.loops|
    ensures var s' := ApplyDrain(s, d, act);
            && |s'.loops| == |s.loops|
            && (s.loops[c].closed ==> s'.loops[c].closed)
            && (s.loops[c].readCancelled ==> s'.loops[c].readCancelled)
            && s.loops[c].workCancelled == s'.loops[c].workCancelled
  {
  }

  lemma StopCancelsGrow(s: State, i: nat, act: StopAct, c: CycleId)
    requires CanStop(s, i, act) && c < |s.loops|
    ensures var s' := ApplyStop(s, i, act);
            && |s'.loops| == |s.loops|
            && s'.loops[c].closed == s.loops[c].closed
            && (s.loops[c].readCancelled ==> s'.loops[c].readCancelled)
            && (s.loops[c].workCancelled ==> s'.loops[c].workCancelled)
  {
  }

  // ------------------------------------------------------------- one step

  // A Drain that could not withdraw its consumer, or had none to withdraw, cancels the read
  // context of its cycle: a loop at its select can leave without its backlog.
  lemma FallbackEndsLoop(s: State, d: nat, act: DrainAct)
    requires Reachable(s) && CanDrain(s, d, act) && (act.CancelRefused? || act.CancelLate? || act.NoChannel?)
    ensures var c, s' := s.drains[d].pc.cycle, Apply(s, DrainStep(d, act));
            && c < |s.loops| && |s'.loops| == |s.loops|
            && s'.loops[c].readCancelled && s'.loops[c].closed == s.loops[c].closed
            && s'.loops[c].workCancelled == s.loops[c].workCancelled
            && (s'.loops[c].phase.Selecting? ==> Enabled(s', LoopStep(c, ExitsCancelled)))
  {
    ReachableInv(s);
    assert DrainOk(s, s.drains[d]);
  }

  // One that did withdraw it ends the deliveries behind the backlog, and cancels nothing.
  lemma WithdrawalKeepsBacklog(s: State, d: nat)
    requires Reachable(s) && CanDrain(s, d, CancelAccepted)
    ensures var c, s' := s.drains[d].pc.cycle, Apply(s, DrainStep(d, CancelAccepted));
            && c < |s.loops| && |s'.loops| == |s.loops|
            && s'.loops[c] == s.loops[c].(closed := true)
  {
    ReachableInv(s);
    assert DrainOk(s, s.drains[d]);
  }

  // One that sees its loop done releases the read context, and cuts nothing short by it.
  lemma DoneReleases(s: State, d: nat)
    requires Reachable(s) && CanDrain(s, d, SeesDone)
    ensures var c, s' := s.drains[d].pc.cycle, Apply(s, DrainStep(d, SeesDone));
            && c < |s.loops| && |s'.loops| == |s.loops|
            && s.loops[c].phase.Exited? && s'.loops[c] == s.loops[c].(readCancelled := true)
            && s'.drains[d].pc == DrainReturned(Some(c), true)
  {
    ReachableInv(s);
    assert DrainOk(s, s.drains[d]);
  }

  // Stop, and the end of the client's life, cancel the work and with it the reading.
  lemma StopCancelsCycle(s: State, i: nat)
    requires Reachable(s) && CanStop(s, i, CancelsWork)
    ensures var c, s' := s.stops[i].work.value, Apply(s, StopStep(i, CancelsWork));
            && c < |s.loops| && |s'.loops| == |s.loops|
            && s'.loops[c].workCancelled && s'.loops[c].readCancelled
            && (s'.loops[c].phase.Selecting? ==> Enabled(s', LoopStep(c, ExitsCancelled)))
  {
    ReachableInv(s);
    assert StopOk(s, s.stops[i]);
  }

  lemma LifeCancelsCycle(s: State, c: CycleId)
    requires c < |s.loops|
    ensures var s' := Apply(s, LoopStep(c, ParentCancelled));
            && |s'.loops| == |s.loops| && s'.loops[c].workCancelled && s'.loops[c].readCancelled
            && (s'.loops[c].phase.Selecting? ==> Enabled(s', LoopStep(c, ExitsCancelled)))
  {
  }

  // ------------------------------------------------------------- every run

  predicate Told(s: State, took: Option<CycleId>, byStop: bool) {
    took.Some? ==>
      && took.value < |s.loops|
      && (if byStop then s.loops[took.value].workCancelled && s.loops[took.value].readCancelled
          else s.loops[took.value].closed || s.loops[took.value].readCancelled)
  }

  // The cycle a Drain past the broker's answer took, and a Stop past its cancel.
  function DrainTook(pc: DrainPc): Option<CycleId> {
    match pc
    case DrainWithdrew(cycle, _) => Some(cycle)
    case DrainWaiting(cycle, _) => Some(cycle)
    case DrainReturned(took, _) => took
    case _ => None
  }

  function StopTookCycle(pc: StopPc): Option<CycleId> {
    match pc
    case StopCancelled(cycle, _) => Some(cycle)
    case StopWaiting(cycle, _) => Some(cycle)
    case StopBumping(cycle, _) => Some(cycle)
    case StopReturned(took, _) => took
    case _ => None
  }

  predicate AllTold(s: State) {
    && (forall d :: 0 <= d < |s.drains| ==> Told(s, DrainTook(s.drains[d].pc), false))
    && (forall i :: 0 <= i < |s.stops| ==> Told(s, StopTookCycle(s.stops[i]), true))
  }

  lemma ToldStays(s: State, step: Step, took: Option<CycleId>, byStop: bool)
    requires Enabled(s, step) && Told(s, took, byStop)
    ensures Told(Apply(s, step), took, byStop)
  {
    if took.Some? {
      CancelsOnlyGrow(s, step, took.value);
    }
  }

  lemma DrainMoves(s: State, step: Step, d: nat)
    requires Inv(s) && Enabled(s, step) && d < |Apply(s, step).drains|
    requires d < |s.drains| ==> Told(s, DrainTook(s.drains[d].pc), false)
    ensures Told(Apply(s, step), DrainTook(Apply(s, step).drains[d].pc), false)
  {
    if d < |s.drains| {
      assert DrainOk(s, s.drains[d]);
      ToldStays(s, step, DrainTook(s.drains[d].pc), false);
    }
  }

  lemma StopMoves(s: State, step: Step, i: nat)
    requires Inv(s) && Enabled(s, step) && i < |Apply(s, step).stops|
    requires i < |s.stops| ==> Told(s, StopTookCycle(s.stops[i]), true)
    ensures Told(Apply(s, step), StopTookCycle(Apply(s, step).stops[i]), true)
  {
    if i < |s.stops| {
      assert StopOk(s, s.stops[i]);
      ToldStays(s, step, StopTookCycle(s.stops[i]), true);
    }
  }

  lemma {:induction false} RunKeepsTold(s: State, run: seq<Step>)
    requires Inv(s) && AllTold(s) && Legal(s, run) && Courteous(s, run)
    ensures AllTold(Exec(s, run))
    decreases |run|
  {
    if run != [] {
      var s' := Apply(s, run[0]);
      StepKeepsInv(s, run[0]);
      forall d | 0 <= d < |s'.drains| ensures Told(s', DrainTook(s'.drains[d].pc), false) {
        DrainMoves(s, run[0], d);
      }
      forall i | 0 <= i < |s'.stops| ensures Told(s', StopTookCycle(s'.stops[i]), true) {
        StopMoves(s, run[0], i);
      }
      RunKeepsTold(s', run[1..]);
    }
  }

  lemma ReachableTold(s: State)
    requires Reachable(s)
    ensures AllTold(s)
  {
    var ackNone: bool, run: seq<Step> :| Arrives(ackNone, run, s);
    InitiallyInv(ackNone);
    RunKeepsTold(Initial(ackNone), run);
  }

  // In every run: a Drain past the broker's answer has either ended its cycle's deliveries
  // or cancelled its reading, so its loop has a way out whatever it does next.
  lemma DrainEndsItsLoop(s: State, d: nat)
    requires Reachable(s) && d < |s.drains|
    requires s.drains[d].pc.DrainWithdrew? || s.drains[d].pc.DrainWaiting?
    ensures var c := s.drains[d].pc.cycle;
            c < |s.loops| && (s.loops[c].closed || s.loops[c].readCancelled) && CanLeave(s, c)
  {
    ReachableTold(s);
    assert Told(s, DrainTook(s.drains[d].pc), false);
  }

  lemma ReturnedDrainEndedItsLoop(s: State, d: nat)
    requires Reachable(s) && d < |s.drains| && s.drains[d].pc.DrainReturned? && s.drains[d].pc.took.Some?
    ensures var c := s.drains[d].pc.took.value;
            c < |s.loops| && (s.loops[c].closed || s.loops[c].readCancelled) && CanLeave(s, c)
  {
    ReachableTold(s);
    assert Told(s, DrainTook(s.drains[d].pc), false);
  }

  // A Drain whose deadline has passed by the time the broker has answered, or not answered,
  // reports it, even when its loop is done by then.
  lemma {:induction false} LateDrainFails(s: State, run: seq<Step>, d: nat)
    requires Legal(s, run) && d < |s.drains| && s.drains[d].expired
    requires s.drains[d].pc.DrainWithdrew? || (s.drains[d].pc.DrainReturned? && !s.drains[d].pc.ok)
    ensures d < |Exec(s, run).drains|
    ensures Exec(s, run).drains[d].pc == s.drains[d].pc ||
            (Exec(s, run).drains[d].pc.DrainReturned? && !Exec(s, run).drains[d].pc.ok)
    decreases |run|
  {
    if run != [] {
      LateDrainStays(s, run[0], d);
      LateDrainFails(Apply(s, run[0]), run[1..], d);
    }
  }

  lemma LateDrainStays(s: State, step: Step, d: nat)
    requires Enabled(s, step) && d < |s.drains| && s.drains[d].expired
    requires s.drains[d].pc.DrainWithdrew? || (s.drains[d].pc.DrainReturned? && !s.drains[d].pc.ok)
    ensures var s' := Apply(s, step);
            && d < |s'.drains| && s'.drains[d].expired
            && (s'.drains[d].pc == s.drains[d].pc || (s'.drains[d].pc.DrainReturned? && !s'.drains[d].pc.ok))
  {
  }

  // And a Stop past its cancel, returned or not, has cancelled its cycle's work.
  lemma StopCancelledItsLoop(s: State, i: nat)
    requires Reachable(s) && i < |s.stops|
    requires s.stops[i].StopCancelled? || s.stops[i].StopWaiting? || s.stops[i].StopBumping?
    ensures var c := s.stops[i].cycle;
            && c < |s.loops| && s.loops[c].workCancelled && s.loops[c].readCancelled
            && (s.loops[c].phase.Selecting? ==> Enabled(s, LoopStep(c, ExitsCancelled)))
  {
    ReachableTold(s);
    assert Told(s, StopTookCycle(s.stops[i]), true);
  }
}
