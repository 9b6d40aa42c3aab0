/** What every run of a receiver keeps. */
module ReceiverSafety {
  import opened Options
  import opened ReceiverLifecycle

  // ------------------------------------------------------------ invariants

  function TookCycle(pc: StopPc): CycleId
    requires Unbumped(pc)
  {
    if pc.StopTook? then pc.work.value else pc.cycle
  }

  predicate Busy(s: State) {
    s.f.stopWork.Some? || exists i :: 0 <= i < |s.stops| && Unbumped(s.stops[i])
  }

  // The fields of a started receiver all name the newest cycle.
  predicate FieldsAgree(s: State) {
    var f, n := s.f, |s.loops|;
    && f.loopDone == f.stopWork
    && f.ch.Some? == f.stopWork.Some?
    && (f.stopRead.Some? ==> f.stopRead == f.stopWork)
    && (f.stopWork.Some? ==> n > 0 && f.stopWork.value == n - 1 && f.epoch + 1 == n)
    && (f.stopWork.Some? && f.stopRead.None? ==> f.stillDelivering == f.stopWork)
    && (f.stillDelivering.Some? ==> f.drained && s.starting == 0 && n > 0 && f.stillDelivering.value == n - 1)
    && (!Busy(s) ==> f.epoch == n)
  }

  // At most one Stop of a started cycle is under way, of the newest cycle, with the fields cleared.
  predicate StopOk(s: State, pc: StopPc) {
    Unbumped(pc) ==>
      && s.f.stopWork.None?
      && |s.loops| > 0 && TookCycle(pc) == |s.loops| - 1 && s.f.epoch + 1 == |s.loops|
      && (pc.StopTook? || pc.StopCancelled? ==> pc.done == Some(|s.loops| - 1))
      && (pc.StopWaiting? ==> pc.joined == pc.cycle)
      && (pc.StopWaiting? && s.f.stillDelivering.Some? ==> LoopExited(s, pc.cycle))
      && (pc.StopBumping? ==> if pc.gaveUp then s.f.stillDelivering == Some(pc.cycle) else LoopExited(s, pc.cycle))
  }

  predicate StopsOk(s: State) {
    && (forall i :: 0 <= i < |s.stops| ==> StopOk(s, s.stops[i]))
    && (forall i, j :: 0 <= i < j < |s.stops| && Unbumped(s.stops[i]) ==> !Unbumped(s.stops[j]))
  }

  // A Start past its check meets a receiver at rest.
  predicate StartsOk(s: State) {
    && s.starting <= 1
    && (s.starting > 0 ==> !Busy(s) && s.f.stillDelivering.None?)
    && (s.starting > 0 ==> forall c :: 0 <= c < |s.loops| ==> s.loops[c].phase.Exited?)
  }

  // A loop still running is the newest one, and it is owned: by the fields, by a
  // Stop under way, or by the Drain that gave up on it.
  predicate LoopOwned(s: State, c: CycleId)
    requires c < |s.loops|
  {
    !s.loops[c].phase.Exited? ==>
      && c == |s.loops| - 1
      && (s.f.stopWork == Some(c) || s.f.stillDelivering == Some(c) ||
          exists i :: 0 <= i < |s.stops| && Unbumped(s.stops[i]))
  }

  predicate LoopOk(l: Loop) {
    && l.taken + l.unread == l.sent
    && (l.workCancelled ==> l.readCancelled)
    && (l.fellBack ==> l.readCancelled)
    && (l.readCancelled && !l.phase.Exited? ==> l.workCancelled || l.fellBack)
    && (l.phase == Exited(true) ==> l.closed && l.unread == [])
    && (l.phase == Exited(false) ==> l.workCancelled || l.fellBack)
  }

  predicate LoopsOk(s: State) {
    && (forall c :: 0 <= c < |s.loops| ==> LoopOwned(s, c))
    && (forall c :: 0 <= c < |s.loops| ==> LoopOk(s.loops[c]))
  }

  // A delivery carries its own cycle's number, except one that an abandoned loop
  // takes after the epoch moved.
  predicate StampOk(s: State, d: Stamp) {
    && d.cycle < |s.loops| && d.epoch <= s.f.epoch
    && (d.epoch == d.cycle || (d.epoch == |s.loops| && s.f.stillDelivering == Some(d.cycle)))
  }

  predicate DrainOk(s: State, d: Drain) {
    && s.f.drained
    && (!d.inGap ==> s.starting == 0 && (s.f.stopWork.Some? ==> s.f.stillDelivering.Some?))
    && (d.pc.DrainWithdrawing? || d.pc.DrainWithdrew? || d.pc.DrainWaiting? ==> s.f.stillDelivering == Some(d.pc.cycle))
    && (d.pc.DrainWithdrawing? || d.pc.DrainWithdrew? ==> d.pc.done == Some(d.pc.cycle))
    && (d.pc.DrainWithdrawing? ==> d.pc.ch.Some?)
    && (d.pc.DrainWaiting? ==> d.pc.joined == d.pc.cycle)
    && (d.pc.DrainReturned? && d.pc.took.Some? ==> s.f.stillDelivering == d.pc.took)
    && (d.pc.DrainReturned? && d.pc.ok && !d.inGap ==> !StillRunning(s))
    && (d.pc.DrainReturned? && d.pc.ok && d.pc.took.Some? ==> !StillRunning(s))
  }

  predicate Inv(s: State) {
    && FieldsAgree(s) && StopsOk(s) && StartsOk(s) && LoopsOk(s)
    && (forall k :: 0 <= k < |s.stamps| ==> StampOk(s, s.stamps[k]))
    && (forall d :: 0 <= d < |s.drains| ==> DrainOk(s, s.drains[d]))
  }

  lemma InitiallyInv(ackNone: bool)
    ensures Inv(Initial(ackNone))
  {
  }

  // ------------------------------------------------------------- each step

  lemma StartKeepsInv(s: State, act: StartAct)
    requires Inv(s) && CanStart(s, act) && Permitted(s, StartStep(act))
    ensures Inv(ApplyStart(s, act))
  {
    var s' := ApplyStart(s, act);
    if act.Check? && StartAdmitted(s.f) {
      forall c | 0 <= c < |s.loops| ensures s.loops[c].phase.Exited? {
        assert LoopOwned(s, c);
      }
    }
    forall c | 0 <= c < |s'.loops| ensures LoopOwned(s', c) && LoopOk(s'.loops[c]) {
      assert c < |s.loops| ==> LoopOwned(s, c) && LoopOk(s.loops[c]);
    }
    forall k | 0 <= k < |s'.stamps| ensures StampOk(s', s'.stamps[k]) {
      assert StampOk(s, s.stamps[k]);
    }
    forall d | 0 <= d < |s'.drains| ensures DrainOk(s', s'.drains[d]) {
      assert DrainOk(s, s.drains[d]);
    }
  }

  lemma LoopKeepsInv(s: State, c: CycleId, act: LoopAct)
    requires Inv(s) && c < |s.loops| && CanLoop(s.loops[c], act)
    ensures Inv(ApplyLoop(s, c, act))
  {
    var s' := ApplyLoop(s, c, act);
    NextLoopOk(s.loops[c], act);
    assert LoopOwned(s, c);
    forall b | 0 <= b < |s'.loops| ensures LoopOwned(s', b) && LoopOk(s'.loops[b]) {
      assert LoopOwned(s, b) && LoopOk(s.loops[b]);
    }
    forall k | 0 <= k < |s'.stamps| ensures StampOk(s', s'.stamps[k]) {
      assert k < |s.stamps| ==> StampOk(s, s.stamps[k]);
    }
    forall d | 0 <= d < |s'.drains| ensures DrainOk(s', s'.drains[d]) {
      assert DrainOk(s, s.drains[d]);
    }
    forall i | 0 <= i < |s'.stops| ensures StopOk(s', s'.stops[i]) {
      assert StopOk(s, s.stops[i]);
    }
  }

  // A loop that has exited stays so, and deliveries are taken in order.
  lemma NextLoopOk(l: Loop, act: LoopAct)
    requires LoopOk(l) && CanLoop(l, act)
    ensures LoopOk(NextLoop(l, act))
    ensures l.phase.Exited? ==> NextLoop(l, act).phase == l.phase
  {
  }

  lemma TakingStopKeepsInv(s: State)
    requires Inv(s)
    ensures Inv(ApplyStop(s, |s.stops|, TakesStop))
  {
    var s' := ApplyStop(s, |s.stops|, TakesStop);
    assert s'.stops[|s.stops|] == StopTook(s.f.stopWork, s.f.loopDone);
    assert forall i :: 0 <= i < |s.stops| ==> s'.stops[i] == s.stops[i];
    forall i | 0 <= i < |s'.stops| ensures StopOk(s', s'.stops[i]) {
      assert i < |s.stops| ==> StopOk(s, s.stops[i]);
    }
    forall b | 0 <= b < |s'.loops| ensures LoopOwned(s', b) && LoopOk(s'.loops[b]) {
      assert LoopOwned(s, b) && LoopOk(s.loops[b]);
    }
    forall k | 0 <= k < |s'.stamps| ensures StampOk(s', s'.stamps[k]) {
      assert StampOk(s, s.stamps[k]);
    }
    forall d | 0 <= d < |s'.drains| ensures DrainOk(s', s'.drains[d]) {
      assert DrainOk(s, s.drains[d]);
    }
  }

  lemma StopKeepsInv(s: State, i: nat, act: StopAct)
    requires Inv(s) && CanStop(s, i, act) && !act.TakesStop?
    ensures Inv(ApplyStop(s, i, act))
  {
    var s' := ApplyStop(s, i, act);
    assert StopOk(s, s.stops[i]);
    assert Unbumped(s'.stops[i]) <==> Unbumped(s.stops[i]) && !act.Bumps?;
    assert forall j :: 0 <= j < |s.stops| && j != i ==> s'.stops[j] == s.stops[j];
    forall j | 0 <= j < |s'.stops| ensures StopOk(s', s'.stops[j]) {
      assert StopOk(s, s.stops[j]);
    }
    forall b | 0 <= b < |s'.loops| ensures LoopOwned(s', b) && LoopOk(s'.loops[b]) {
      assert LoopOwned(s, b) && LoopOk(s.loops[b]);
    }
    forall k | 0 <= k < |s'.stamps| ensures StampOk(s', s'.stamps[k]) {
      assert StampOk(s, s.stamps[k]);
    }
    forall d | 0 <= d < |s'.drains| ensures DrainOk(s', s'.drains[d]) {
      assert DrainOk(s, s.drains[d]);
    }
  }

  lemma TakingDrainKeepsInv(s: State, expired: bool)
    requires Inv(s)
    ensures Inv(TakeDrain(s, expired))
  {
    var s' := TakeDrain(s, expired);
    forall d | 0 <= d < |s'.drains| ensures DrainOk(s', s'.drains[d]) {
      assert d < |s.drains| ==> DrainOk(s, s.drains[d]);
    }
    forall i | 0 <= i < |s'.stops| ensures StopOk(s', s'.stops[i]) {
      assert StopOk(s, s.stops[i]);
    }
    forall b | 0 <= b < |s'.loops| ensures LoopOwned(s', b) && LoopOk(s'.loops[b]) {
      assert LoopOwned(s, b) && LoopOk(s.loops[b]);
    }
    forall k | 0 <= k < |s'.stamps| ensures StampOk(s', s'.stamps[k]) {
      assert StampOk(s, s.stamps[k]);
    }
  }

  lemma DrainMovesItself(s: State, d: nat, act: DrainAct)
    requires Inv(s) && CanDrain(s, d, act) && !act.TakesDrain?
    ensures DrainOk(s, s.drains[d].(pc := NextDrainPc(s, d, act)))
  {
    assert DrainOk(s, s.drains[d]);
  }

  ghost predicate SamePhases(s: State, s': State) {
    && s'.f == s.f && s'.stops == s.stops && s'.starting == s.starting && s'.stamps == s.stamps
    && |s'.loops| == |s.loops| && forall b :: 0 <= b < |s.loops| ==> s'.loops[b].phase == s.loops[b].phase
  }

  lemma DrainTouches(s: State, d: nat, act: DrainAct)
    requires Inv(s) && CanDrain(s, d, act) && !act.TakesDrain?
    ensures var s' := ApplyDrain(s, d, act);
            && SamePhases(s, s')
            && (s'.drains == s.drains[d := s.drains[d].(pc := NextDrainPc(s, d, act))] ||
                s'.drains == s.drains[d := s.drains[d].(expired := true)])
            && forall b :: 0 <= b < |s'.loops| ==> LoopOk(s'.loops[b])
  {
    assert DrainOk(s, s.drains[d]);
    assert forall b :: 0 <= b < |s.loops| ==> LoopOk(s.loops[b]);
  }

  lemma DrainKeepsInv(s: State, d: nat, act: DrainAct)
    requires Inv(s) && CanDrain(s, d, act) && !act.TakesDrain?
    ensures Inv(ApplyDrain(s, d, act))
  {
    DrainMovesItself(s, d, act);
    DrainTouches(s, d, act);
    var s' := ApplyDrain(s, d, act);
    assert DrainOk(s, s.drains[d].(expired := true)) by { assert DrainOk(s, s.drains[d]); }
    QuietlyKept(s, s', d, s'.drains[d]);
  }

  // What rests on the fields, the Stops and the phases alone.
  lemma QuietlyKept(s: State, s': State, d: nat, record: Drain)
    requires Inv(s) && SamePhases(s, s')
    requires forall b :: 0 <= b < |s'.loops| ==> LoopOk(s'.loops[b])
    requires d < |s.drains| && s'.drains == s.drains[d := record] && DrainOk(s, record)
    ensures Inv(s')
  {
    forall i | 0 <= i < |s'.stops| ensures StopOk(s', s'.stops[i]) {
      assert StopOk(s, s.stops[i]);
    }
    forall b | 0 <= b < |s'.loops| ensures LoopOwned(s', b) {
      assert LoopOwned(s, b);
    }
    forall k | 0 <= k < |s'.stamps| ensures StampOk(s', s'.stamps[k]) {
      assert StampOk(s, s.stamps[k]);
    }
    forall e | 0 <= e < |s'.drains| ensures DrainOk(s', s'.drains[e]) {
      assert e != d ==> DrainOk(s, s.drains[e]);
    }
  }

  lemma StepKeepsInv(s: State, step: Step)
    requires Inv(s) && Enabled(s, step) && Permitted(s, step)
    ensures Inv(Apply(s, step))
  {
    match step
    case StartStep(act) => StartKeepsInv(s, act);
    case DrainStep(d, act) =>
      if act.TakesDrain? { TakingDrainKeepsInv(s, act.expired); } else { DrainKeepsInv(s, d, act); }
    case StopStep(i, act) => if act.TakesStop? { TakingStopKeepsInv(s); } else { StopKeepsInv(s, i, act); }
    case LoopStep(c, act) => LoopKeepsInv(s, c, act);
  }

  // ------------------------------------------------------------ every run

  lemma {:induction false} RunKeepsInv(s: State, run: seq<Step>)
    requires Inv(s) && Legal(s, run) && Courteous(s, run)
    ensures Inv(Exec(s, run))
    decreases |run|
  {
    if run != [] {
      StepKeepsInv(s, run[0]);
      RunKeepsInv(Apply(s, run[0]), run[1..]);
    }
  }

  ghost predicate Reachable(s: State) {
    exists ackNone: bool, run: seq<Step> :: Arrives(ackNone, run, s)
  }

  ghost predicate Arrives(ackNone: bool, run: seq<Step>, s: State) {
    Legal(Initial(ackNone), run) && Courteous(Initial(ackNone), run) && Exec(Initial(ackNone), run) == s
  }

  lemma ReachableInv(s: State)
    requires Reachable(s)
    ensures Inv(s)
  {
    var ackNone: bool, run: seq<Step> :| Arrives(ackNone, run, s);
    InitiallyInv(ackNone);
    RunKeepsInv(Initial(ackNone), run);
  }

  // deliverySettleOps.Valid, asked about delivery k.
  predicate ReadsValid(s: State, k: nat)
    requires k < |s.stamps|
  {
    s.stamps[k].epoch == s.f.epoch
  }

  // Tags of two channels are never valid together, abandoned loops included.
  lemma ValidTagsShareAChannel(s: State, j: nat, k: nat)
    requires Reachable(s) && j < |s.stamps| && k < |s.stamps|
    requires ReadsValid(s, j) && ReadsValid(s, k)
    ensures s.stamps[j].cycle == s.stamps[k].cycle == |s.loops| - 1
  {
    ReachableInv(s);
    assert StampOk(s, s.stamps[j]) && StampOk(s, s.stamps[k]);
    assert forall i :: 0 <= i < |s.stops| ==> StopOk(s, s.stops[i]);
  }

  // At most one loop runs. One that neither the fields nor a Stop owns was given up by a Drain.
  lemma OneLoopRuns(s: State, b: CycleId, c: CycleId)
    requires Reachable(s) && b < |s.loops| && c < |s.loops|
    requires !s.loops[b].phase.Exited? && !s.loops[c].phase.Exited?
    ensures b == c
    ensures !Busy(s) ==> s.f.drained && s.f.stillDelivering == Some(c)
  {
    ReachableInv(s);
    assert LoopOwned(s, b) && LoopOwned(s, c);
  }

  // The epoch counts the cycles a Stop is through with.
  lemma EpochCountsRetiredCycles(s: State)
    requires Reachable(s)
    ensures s.f.epoch + (if Busy(s) then 1 else 0) == |s.loops|
  {
    ReachableInv(s);
    assert forall i :: 0 <= i < |s.stops| ==> StopOk(s, s.stops[i]);
  }

  // Each cycle behind the epoch was retired by one Stop, and by one only.
  ghost predicate Retired(s: State) {
    && (forall c :: 0 <= c < s.f.epoch ==> HasRetirer(s, c))
    && (forall i :: 0 <= i < |s.stops| && s.stops[i].StopReturned? && s.stops[i].took.Some? ==>
          s.stops[i].took.value < s.f.epoch)
    && (forall i, j :: 0 <= i < j < |s.stops| && s.stops[i].StopReturned? && s.stops[j].StopReturned? ==>
          s.stops[i].took.None? || s.stops[i].took != s.stops[j].took)
  }

  predicate RetiredBy(pc: StopPc, c: CycleId) { pc.StopReturned? && pc.took == Some(c) }

  predicate HasRetirer(s: State, c: CycleId) {
    exists i :: 0 <= i < |s.stops| && RetiredBy(s.stops[i], c)
  }

  lemma OnlyStopsRetire(s: State, step: Step)
    requires Enabled(s, step) && !step.StopStep?
    ensures Apply(s, step).stops == s.stops && Apply(s, step).f.epoch == s.f.epoch
  {
  }

  lemma StepKeepsRetired(s: State, step: Step)
    requires Inv(s) && Retired(s) && Enabled(s, step)
    ensures Retired(Apply(s, step))
  {
    if step.StopStep? {
      StopKeepsRetired(s, step.i, step.stop);
    } else {
      OnlyStopsRetire(s, step);
      assert forall c :: HasRetirer(s, c) ==> HasRetirer(Apply(s, step), c);
    }
  }

  lemma StopKeepsRetired(s: State, i: nat, act: StopAct)
    requires Inv(s) && Retired(s) && CanStop(s, i, act)
    ensures Retired(ApplyStop(s, i, act))
  {
    var s' := ApplyStop(s, i, act);
    if act.Bumps? {
      assert StopOk(s, s.stops[i]);
      assert RetiredBy(s'.stops[i], s.f.epoch);
    }
    forall c | 0 <= c < s'.f.epoch ensures HasRetirer(s', c) {
      if c < s.f.epoch {
        assert HasRetirer(s, c);
        var i :| 0 <= i < |s.stops| && RetiredBy(s.stops[i], c);
        assert RetiredBy(s'.stops[i], c);
      }
    }
  }

  lemma {:induction false} RunKeepsRetired(s: State, run: seq<Step>)
    requires Inv(s) && Retired(s) && Legal(s, run) && Courteous(s, run)
    ensures Retired(Exec(s, run))
    decreases |run|
  {
    if run != [] {
      StepKeepsInv(s, run[0]);
      StepKeepsRetired(s, run[0]);
      RunKeepsRetired(Apply(s, run[0]), run[1..]);
    }
  }

  lemma EveryCycleRetiredOnce(s: State)
    requires Reachable(s)
    ensures Retired(s)
  {
    var ackNone: bool, run: seq<Step> :| Arrives(ackNone, run, s);
    InitiallyInv(ackNone);
    RunKeepsRetired(Initial(ackNone), run);
  }

  // ------------------------------------------------------------- Stop's bound

  // After a Drain has taken a started cycle, no Stop of it ever waits for a running
  // loop: the loop has finished, or the Stop gives up and says so.
  lemma StopNeverBlocksAfterDrain(s: State, i: nat)
    requires Reachable(s) && i < |s.stops| && s.f.stillDelivering.Some?
    ensures s.stops[i].StopWaiting? ==> Enabled(s, StopStep(i, Joins))
    ensures s.stops[i].StopCancelled? && StillRunning(s) ==>
              Apply(s, StopStep(i, ChecksDrain)).stops[i] == StopBumping(s.f.stillDelivering.value, true)
    ensures s.stops[i].StopCancelled? && !StillRunning(s) ==>
        Enabled(Apply(s, StopStep(i, ChecksDrain)), StopStep(i, Joins))
  {
    ReachableInv(s);
    assert StopOk(s, s.stops[i]);
  }

  // Without one it always waits, so no loop is left behind.
  lemma StopWaitsWithoutDrain(s: State, i: nat)
    requires Reachable(s) && i < |s.stops| && !s.f.drained && s.stops[i].StopBumping?
    ensures !s.stops[i].gaveUp && LoopExited(s, s.stops[i].cycle)
  {
    ReachableInv(s);
    assert StopOk(s, s.stops[i]);
  }

  // ------------------------------------------------------------ Drain's promise

  // A Stop that owns cycle c and has yet to see its loop finish.
  predicate Joining(pc: StopPc, c: CycleId) {
    (pc.StopTook? && pc.work == Some(c)) || (pc.StopCancelled? && pc.cycle == c) || (pc.StopWaiting? && pc.cycle == c)
  }

  // Once Drain d has returned nil, a loop runs only while a Stop under way joins it.
  ghost predicate Promise(s: State, d: nat) {
    d < |s.drains| && s.drains[d].pc.DrainReturned? && s.drains[d].pc.ok ==>
      forall c :: 0 <= c < |s.loops| && !s.loops[c].phase.Exited? ==>
        exists i :: 0 <= i < |s.stops| && Joining(s.stops[i], c)
  }

  lemma QuietDrainPromise(s: State, d: nat)
    requires Inv(s) && d < |s.drains| && !s.drains[d].inGap
    ensures Promise(s, d)
  {
    assert DrainOk(s, s.drains[d]);
    if s.drains[d].pc.DrainReturned? && s.drains[d].pc.ok {
      forall c | 0 <= c < |s.loops| && !s.loops[c].phase.Exited?
        ensures exists i :: 0 <= i < |s.stops| && Joining(s.stops[i], c)
      {
        assert LoopOwned(s, c);
        var i :| 0 <= i < |s.stops| && Unbumped(s.stops[i]);
        assert StopOk(s, s.stops[i]);
        assert Joining(s.stops[i], c);
      }
    }
  }

  lemma {:induction false} DrainRecordStays(s: State, run: seq<Step>, d: nat)
    requires Legal(s, run) && d < |s.drains|
    ensures d < |Exec(s, run).drains| && Exec(s, run).drains[d].inGap == s.drains[d].inGap
    ensures s.drains[d].pc.DrainReturned? ==> Exec(s, run).drains[d].pc == s.drains[d].pc
    decreases |run|
  {
    if run != [] {
      DrainRecordStays(Apply(s, run[0]), run[1..], d);
    }
  }

  lemma DrainInGapBreaksPromise(s: State, expired: bool)
    requires Inv(s) && s.starting > 0
    ensures var s1 := Apply(s, DrainStep(|s.drains|, TakesDrain(expired)));
            exists run :: Legal(s1, run) && Courteous(s1, run) && !Promise(Exec(s1, run), |s.drains|)
  {
    var d, n := |s.drains|, |s.loops|;
    var s1 := Apply(s, DrainStep(d, TakesDrain(expired)));
    var s2 := Apply(s1, DrainStep(d, ReturnsIdle));
    var s3 := Apply(s2, StartStep(Installs(0)));
    RunExtends(s1, [], DrainStep(d, ReturnsIdle));
    var run := [] + [DrainStep(d, ReturnsIdle)];
    RunExtends(s1, run, StartStep(Installs(0)));
    assert s3.loops[n].phase == Selecting && s3.stops == s.stops;
    assert forall i :: 0 <= i < |s.stops| ==> !Unbumped(s.stops[i]);
    assert forall pc: StopPc, c :: Joining(pc, c) ==> Unbumped(pc);
    assert !Promise(s3, d);
  }

  // What a Drain's nil is worth: it holds in every continuation exactly when no
  // Start was between its check and its install as the Drain took the lock.
  lemma DrainPromiseExactly(s: State, expired: bool)
    requires Reachable(s)
    ensures var s1 := Apply(s, DrainStep(|s.drains|, TakesDrain(expired)));
            s.starting == 0 <==>
            forall run :: Legal(s1, run) && Courteous(s1, run) ==> Promise(Exec(s1, run), |s.drains|)
  {
    ReachableInv(s);
    var s1 := Apply(s, DrainStep(|s.drains|, TakesDrain(expired)));
    if s.starting > 0 {
      DrainInGapBreaksPromise(s, expired);
    } else {
      StepKeepsInv(s, DrainStep(|s.drains|, TakesDrain(expired)));
      forall run | Legal(s1, run) && Courteous(s1, run) ensures Promise(Exec(s1, run), |s.drains|) {
        RunKeepsInv(s1, run);
        DrainRecordStays(s1, run, |s.drains|);
        QuietDrainPromise(Exec(s1, run), |s.drains|);
      }
    }
  }

  // From the beginning: a Drain returns nil, and the Start it did not see installs its loop.
  lemma DrainMissesStart() returns (run: seq<Step>)
    ensures Legal(Initial(false), run) && Courteous(Initial(false), run)
    ensures var s := Exec(Initial(false), run);
            && |s.drains| == 1 && s.drains[0].pc == DrainReturned(None, true) && s.stops == []
            && |s.loops| == 1 && s.loops[0].phase == Selecting && !Promise(s, 0)
  {
    run := Then([], StartStep(Check));
    run := Then(run, DrainStep(0, TakesDrain(false)));
    run := Then(run, DrainStep(0, ReturnsIdle));
    run := Then(run, StartStep(Installs(0)));
  }

  lemma Then(run: seq<Step>, step: Step) returns (longer: seq<Step>)
    requires Legal(Initial(false), run) && Courteous(Initial(false), run)
    requires Enabled(Exec(Initial(false), run), step) && Permitted(Exec(Initial(false), run), step)
    ensures Legal(Initial(false), longer) && Courteous(Initial(false), longer)
    ensures Exec(Initial(false), longer) == Apply(Exec(Initial(false), run), step)
  {
    RunExtends(Initial(false), run, step);
    longer := run + [step];
  }

  // A Drain is terminal: whatever the callers do, no Start that checks after it registers a consumer.
  lemma {:induction false} DrainedIsTerminal(s: State, run: seq<Step>)
    requires s.f.drained && Legal(s, run)
    ensures Exec(s, run).f.drained
    ensures |s.loops| <= |Exec(s, run).loops|
    ensures |Exec(s, run).loops| + Exec(s, run).starting <= |s.loops| + s.starting
    decreases |run|
  {
    if run != [] {
      NoCycleAfterDrained(s, run[0]);
      DrainedIsTerminal(Apply(s, run[0]), run[1..]);
    }
  }

  lemma NoCycleAfterDrained(s: State, step: Step)
    requires s.f.drained && Enabled(s, step)
    ensures Apply(s, step).f.drained && |s.loops| <= |Apply(s, step).loops|
    ensures |Apply(s, step).loops| + Apply(s, step).starting <= |s.loops| + s.starting
  {
  }

  // -------------------------------------------------------------- the backlog

  // Deliveries are taken once, in the order sent, and none is lost between.
  lemma NothingSkipped(s: State, c: CycleId)
    requires Reachable(s) && c < |s.loops|
    ensures s.loops[c].taken + s.loops[c].unread == s.loops[c].sent
    ensures s.loops[c].phase.Exited? && s.loops[c].unread != [] ==> s.loops[c].workCancelled || s.loops[c].fellBack
  {
    ReachableInv(s);
    assert LoopOk(s.loops[c]);
  }

  // A Drain that withdrew its consumer returns nil only after the whole backlog was handled,
  // unless a Stop or the client's context cut it short.
  lemma CleanDrainHandlesBacklog(s: State, d: nat)
    requires Reachable(s) && d < |s.drains| && s.drains[d].pc.DrainReturned?
    requires s.drains[d].pc.ok && s.drains[d].pc.took.Some?
    ensures var c := s.drains[d].pc.took.value;
            && c < |s.loops| && s.loops[c].phase.Exited?
            && (!s.loops[c].workCancelled && !s.loops[c].fellBack ==>
                  s.loops[c].closed && s.loops[c].taken == s.loops[c].sent)
  {
    ReachableInv(s);
    assert DrainOk(s, s.drains[d]);
    var c := s.drains[d].pc.took.value;
    assert LoopOk(s.loops[c]);
  }

  // -------------------------------------------------------- tags and draining

  // Only a Stop of a started cycle retires tags: until one does, what was valid stays valid.
  lemma {:induction false} TagsOutliveDraining(s: State, run: seq<Step>, k: nat)
    requires Legal(s, run) && k < |s.stamps|
    requires forall i :: 0 <= i < |run| ==> !(run[i].StopStep? && run[i].stop.Bumps?)
    ensures k < |Exec(s, run).stamps| && Exec(s, run).f.epoch == s.f.epoch
    ensures ReadsValid(Exec(s, run), k) <==> ReadsValid(s, k)
    decreases |run|
  {
    if run != [] {
      var s1 := Apply(s, run[0]);
      assert s1.stamps[k] == s.stamps[k] && s1.f.epoch == s.f.epoch;
      TagsOutliveDraining(s1, run[1..], k);
    }
  }

  // The fallback of a Drain ends reading and leaves the work context alone: only a Stop,
  // or the client's own context, cancels the work a delivery runs on.
  lemma {:induction false} DrainsLeaveWorkAlone(s: State, run: seq<Step>, c: CycleId)
    requires Legal(s, run) && c < |s.loops|
    requires forall i :: 0 <= i < |run| ==>
               !(run[i].StopStep? && run[i].stop.CancelsWork?) && !(run[i].LoopStep? && run[i].act.ParentCancelled?)
    ensures c < |Exec(s, run).loops| && Exec(s, run).loops[c].workCancelled == s.loops[c].workCancelled
    decreases |run|
  {
    if run != [] {
      var s1 := Apply(s, run[0]);
      assert c < |s1.loops| && s1.loops[c].workCancelled == s.loops[c].workCancelled;
      DrainsLeaveWorkAlone(s1, run[1..], c);
    }
  }

  // A tag refused once is refused for good.
  lemma {:induction false} StaleStaysStale(s: State, run: seq<Step>, k: nat)
    requires Legal(s, run) && k < |s.stamps| && s.stamps[k].epoch < s.f.epoch
    ensures k < |Exec(s, run).stamps| && !ReadsValid(Exec(s, run), k)
    decreases |run|
  {
    if run != [] {
      var s1 := Apply(s, run[0]);
      assert s1.stamps[k] == s.stamps[k] && s.f.epoch <= s1.f.epoch;
      StaleStaysStale(s1, run[1..], k);
    }
  }

  // -------------------------------------------------- what callers owe Start

  lemma {:induction false} RunExtends(s: State, run: seq<Step>, step: Step)
    requires Legal(s, run) && Courteous(s, run)
    requires Enabled(Exec(s, run), step) && Permitted(Exec(s, run), step)
    ensures Legal(s, run + [step]) && Courteous(s, run + [step])
    ensures Exec(s, run + [step]) == Apply(Exec(s, run), step)
    decreases |run|
  {
    if run == [] {
      assert [] + [step] == [step] && [step][1..] == [];
    } else {
      RunExtends(Apply(s, run[0]), run[1..], step);
      assert (run + [step])[1..] == run[1..] + [step];
    }
  }

  // A delivery is not stamped with an epoch older than the cycle it came from.
  predicate OwnEpochs(s: State) {
    forall k :: 0 <= k < |s.stamps| ==> s.stamps[k].cycle <= s.stamps[k].epoch
  }

  // A loop just installed can hand out a delivery at once.
  lemma NewLoopStamps(s: State, run: seq<Step>, c: CycleId) returns (longer: seq<Step>)
    requires Legal(s, run) && Courteous(s, run)
    requires c < |Exec(s, run).loops| && Exec(s, run).loops[c].phase.Selecting?
    requires !Exec(s, run).loops[c].closed && Exec(s, run).loops[c].unread == [] && !Exec(s, run).ackNone
    ensures Legal(s, longer) && Courteous(s, longer)
    ensures Exec(s, longer).stamps == Exec(s, run).stamps + [Stamp(c, Exec(s, run).f.epoch)]
  {
    RunExtends(s, run, LoopStep(c, Sends(0)));
    longer := run + [LoopStep(c, Sends(0))];
    RunExtends(s, longer, LoopStep(c, Takes));
    longer := longer + [LoopStep(c, Takes)];
    RunExtends(s, longer, LoopStep(c, Stamps));
    longer := longer + [LoopStep(c, Stamps)];
  }

  lemma DiscourteousStartMisstamps(s: State) returns (run: seq<Step>)
    requires Inv(s) && StartAdmitted(s.f) && !s.ackNone && !Permitted(s, StartStep(Check))
    ensures Legal(Apply(s, StartStep(Check)), run) && Courteous(Apply(s, StartStep(Check)), run)
    ensures !OwnEpochs(Exec(Apply(s, StartStep(Check)), run))
  {
    var s1, n := Apply(s, StartStep(Check)), |s.loops|;
    assert forall i :: 0 <= i < |s.stops| ==> StopOk(s, s.stops[i]);
    RunExtends(s1, [], StartStep(Installs(0)));
    run := [] + [StartStep(Installs(0))];
    if s.starting == 0 {
      assert s.f.epoch + 1 == n;
      run := NewLoopStamps(s1, run, n);
    } else {
      assert s.f.epoch == n;
      RunExtends(s1, run, StartStep(Installs(1)));
      run := run + [StartStep(Installs(1))];
      run := NewLoopStamps(s1, run, n + 1);
    }
    var last := Exec(s1, run).stamps[|s.stamps|];
    assert last.epoch < last.cycle;
  }

  // The rule on callers is exact: a Start that finds the receiver free keeps every tag
  // on its own epoch, in all that follows, just when no other Start and no Stop of a
  // started cycle is under way as it begins.
  lemma StartRuleExactly(s: State)
    requires Reachable(s) && StartAdmitted(s.f) && !s.ackNone
    ensures var s1 := Apply(s, StartStep(Check));
            Permitted(s, StartStep(Check)) <==>
            forall run :: Legal(s1, run) && Courteous(s1, run) ==> OwnEpochs(Exec(s1, run))
  {
    ReachableInv(s);
    var s1 := Apply(s, StartStep(Check));
    if Permitted(s, StartStep(Check)) {
      StepKeepsInv(s, StartStep(Check));
      forall run | Legal(s1, run) && Courteous(s1, run) ensures OwnEpochs(Exec(s1, run)) {
        RunKeepsInv(s1, run);
        var s2 := Exec(s1, run);
        forall k | 0 <= k < |s2.stamps| ensures s2.stamps[k].cycle <= s2.stamps[k].epoch {
          assert StampOk(s2, s2.stamps[k]);
        }
      }
    } else {
      var run := DiscourteousStartMisstamps(s);
    }
  }

  // From the beginning: a Stop that has not moved the epoch leaves the receiver free for a
  // Start that breaks the rule, so some continuation of it misstamps.
  lemma StopUnderWay() returns (run: seq<Step>, misstamps: seq<Step>)
    ensures Legal(Initial(false), run) && Courteous(Initial(false), run)
    ensures var s := Exec(Initial(false), run);
            && StartAdmitted(s.f) && s.stops == [StopTook(Some(0), Some(0))] && !Permitted(s, StartStep(Check))
            && Legal(Apply(s, StartStep(Check)), misstamps)
            && !OwnEpochs(Exec(Apply(s, StartStep(Check)), misstamps))
  {
    run := Then([], StartStep(Check));
    run := Then(run, StartStep(Installs(0)));
    run := Then(run, StopStep(0, TakesStop));
    InitiallyInv(false);
    RunKeepsInv(Initial(false), run);
    misstamps := DiscourteousStartMisstamps(Exec(Initial(false), run));
  }
}
