/** A receiver's Start, Drain and Stop (receiver/receiver.go), each run to completion with
    no other between its sections. */
module Receivers {
  import opened Options
  import opened ReceiverLifecycle
  import Safety = ReceiverSafety

  datatype AckMode = AckAfterHandling | AckManual | AckNone

  datatype StartResult = Started | Drained | AlreadyStarted | NotConsuming

  // How the broker and the deadline answer a Drain that withdraws its consumer.
  datatype CancelAnswer = Withdrawn | CancelFailed | TimedOut

  // `fellBack`: ended the loop by cancelling the read context.
  datatype DrainResult = DrainResult(ok: bool, fellBack: bool)

  // What a whole Stop does to the fields.
  function AfterStop(f: Fields): Fields {
    TakeForStop(f).(epoch := f.epoch + (if f.stopWork.Some? then 1 else 0))
  }

  class RMQReceiver {
    const ackMode: AckMode
    var stopRead: Option<CycleId>
    var stopWork: Option<CycleId>
    var loopDone: Option<CycleId>
    var ch: Option<nat>
    var drained: bool
    var epoch: nat
    var stillDelivering: Option<CycleId>
    var unsettled: int

    constructor (mode: AckMode)
      ensures ackMode == mode && View() == Initial(mode.AckNone?).f && unsettled == 0
    {
      ackMode := mode;
      stopRead, stopWork, loopDone, ch, stillDelivering := None, None, None, None, None;
      drained, epoch, unsettled := false, 0, 0;
    }

    ghost function View(): Fields
      reads this
    {
      Fields(stopRead, stopWork, loopDone, ch, drained, epoch, stillDelivering)
    }

    // stillRunning, given the loops that have finished.
    predicate StillRunning(finished: set<CycleId>)
      reads this
    {
      stillDelivering.Some? && stillDelivering.value !in finished
    }

    // `consumes`: Qos and Consume succeed.
    method Start(cycle: CycleId, channel: nat, consumes: bool) returns (result: StartResult)
      modifies this
      ensures unsettled == old(unsettled)
      ensures result == if old(drained) then Drained
                        else if old(stopWork).Some? then AlreadyStarted
                        else if consumes then Started else NotConsuming
      ensures View() == if result == Started then Install(old(View()), cycle, channel) else old(View())
      ensures result == Started ==>
        && stopRead == stopWork == loopDone == Some(cycle) && ch == Some(channel)
        && !drained && epoch == old(epoch) && stillDelivering == old(stillDelivering)
    {
      if drained {
        return Drained;
      }
      if stopWork != None {
        return AlreadyStarted;
      }
      if !consumes {
        return NotConsuming;
      }
      stopWork := Some(cycle);
      stopRead := Some(cycle);
      loopDone := Some(cycle);
      ch := Some(channel);
      return Started;
    }

    // `expired`: the deadline has passed once the broker has answered; `finishes`: the
    // loop does before the deadline.
    method Drain(finished: set<CycleId>, answer: CancelAnswer, expired: bool, finishes: bool)
      returns (result: DrainResult)
      requires answer == TimedOut ==> expired
      modifies this
      ensures View() == TakeForDrain(old(View())) && unsettled == old(unsettled)
      ensures drained && stopRead.None?
      ensures stillDelivering ==
              if old(stopRead).Some? && old(loopDone).Some? then old(loopDone) else old(stillDelivering)
      ensures stopWork == old(stopWork) && loopDone == old(loopDone) && ch == old(ch) && epoch == old(epoch)
      ensures result.ok <==> if old(stopRead).None?
                             then stillDelivering.None? || stillDelivering.value in finished
                             else !expired && (old(loopDone).Some? ==> finishes)
      ensures result.fellBack <==> old(stopRead).Some? && (old(ch).None? || answer != Withdrawn)
    {
      drained := true;
      var read := stopRead;
      if read == None {
        return DrainResult(!StillRunning(finished), false);
      }
      var channel, done := ch, loopDone;
      stopRead := None;
      if done != None {
        stillDelivering := done;
      }
      var fellBack := channel == None || answer != Withdrawn;
      if expired {
        return DrainResult(false, fellBack);
      }
      if done == None {
        return DrainResult(true, fellBack);
      }
      return DrainResult(finishes, fellBack);
    }

    // `finished`: the loops done by the time the question is asked. `joined` is the loop
    // waited for; failed is the error that one is still running.
    method Stop(finished: set<CycleId>) returns (failed: bool, joined: Option<CycleId>)
      modifies this
      ensures View() == AfterStop(old(View())) && unsettled == old(unsettled)
      ensures stopRead == stopWork == loopDone == ch == None
      ensures epoch == old(epoch) + (if old(stopWork).Some? then 1 else 0)
      ensures drained == old(drained) && stillDelivering == old(stillDelivering)
      ensures failed <==> stillDelivering.Some? && stillDelivering.value !in finished
      ensures joined == if old(stopWork).Some? && !failed then old(loopDone) else None
    {
      var work, done := stopWork, loopDone;
      stopRead, stopWork, loopDone, ch := None, None, None, None;
      if work == None {
        return StillRunning(finished), None;
      }
      if StillRunning(finished) {
        epoch := epoch + 1;
        return true, None;
      }
      epoch := epoch + 1;
      return false, done;
    }
  }

  // ------------------------------------------- the same, as runs of the lifecycle

  lemma {:induction false} RunsJoin(s: State, first: seq<Step>, second: seq<Step>)
    requires Legal(s, first) && Courteous(s, first)
    requires Legal(Exec(s, first), second) && Courteous(Exec(s, first), second)
    ensures Legal(s, first + second) && Courteous(s, first + second)
    ensures Exec(s, first + second) == Exec(Exec(s, first), second)
    decreases |first|
  {
    if first == [] {
      assert first + second == second;
    } else {
      var s1, both := Apply(s, first[0]), first + second;
      RunsJoin(s1, first[1..], second);
      assert both[0] == first[0] && both[1..] == first[1..] + second;
      assert Legal(s1, both[1..]) && Exec(s, both) == Exec(s1, both[1..]);
    }
  }

  lemma After(s: State, run: seq<Step>, step: Step) returns (longer: seq<Step>)
    requires Legal(s, run) && Courteous(s, run)
    requires Enabled(Exec(s, run), step) && Permitted(Exec(s, run), step)
    ensures Legal(s, longer) && Courteous(s, longer) && Exec(s, longer) == Apply(Exec(s, run), step)
  {
    Safety.RunExtends(s, run, step);
    longer := run + [step];
  }

  lemma StopCancels(s: State) returns (run: seq<Step>)
    requires s.f.stopWork.Some?
    ensures Legal(s, run) && Courteous(s, run)
    ensures var s' := Exec(s, run);
            && s'.f == TakeForStop(s.f) && |s'.stops| == |s.stops| + 1
            && s'.stops[|s.stops|] == StopCancelled(s.f.stopWork.value, s.f.loopDone)
            && (s.f.stopWork.value < |s'.loops| ==> s'.loops[s.f.stopWork.value].workCancelled)
            && StillRunning(s') == StillRunning(s) && forall c :: LoopExited(s, c) ==> LoopExited(s', c)
  {
    run := After(s, [], StopStep(|s.stops|, TakesStop));
    run := After(s, run, StopStep(|s.stops|, CancelsWork));
  }

  // A Stop past its cancel: it joins a finished loop, or gives up, and moves the epoch.
  lemma StopEnds(s: State, i: nat) returns (run: seq<Step>)
    requires i < |s.stops| && s.stops[i].StopCancelled?
    requires s.stops[i].done.Some? && !StillRunning(s) ==> LoopExited(s, s.stops[i].done.value)
    ensures Legal(s, run) && Courteous(s, run) && |Exec(s, run).stops| == |s.stops|
    ensures Exec(s, run).f == s.f.(epoch := s.f.epoch + 1) && Exec(s, run).loops == s.loops
    ensures Exec(s, run).stops[i] == StopReturned(Some(s.stops[i].cycle), StillRunning(s))
  {
    run := After(s, [], StopStep(i, ChecksDrain));
    if !StillRunning(s) && s.stops[i].done.Some? {
      run := After(s, run, StopStep(i, Joins));
    }
    run := After(s, run, StopStep(i, Bumps));
  }

  // A Stop that nothing interrupts, once the loop it waits for is done: the lifecycle's own
  // steps leave the fields and the answer that Stop's contract names.
  lemma StopAlone(s: State) returns (run: seq<Step>)
    requires s.f.stopWork.Some? && s.f.loopDone.Some? && !StillRunning(s) ==> LoopExited(s, s.f.loopDone.value)
    ensures Legal(s, run) && Courteous(s, run) && Exec(s, run).f == AfterStop(s.f)
    ensures |Exec(s, run).stops| == |s.stops| + 1
    ensures Exec(s, run).stops[|s.stops|] == StopReturned(s.f.stopWork, StillRunning(s))
    ensures s.f.stopWork.Some? && s.f.stopWork.value < |Exec(s, run).loops| ==>
              Exec(s, run).loops[s.f.stopWork.value].workCancelled
  {
    if s.f.stopWork.None? {
      run := After(s, [], StopStep(|s.stops|, TakesStop));
      run := After(s, run, StopStep(|s.stops|, ReturnsNothingToStop));
    } else {
      run := StopCancels(s);
      var ends := StopEnds(Exec(s, run), |s.stops|);
      RunsJoin(s, run, ends);
      run := run + ends;
    }
  }

  // A Start that nothing interrupts.
  lemma StartAlone(s: State, channel: nat, consumes: bool) returns (run: seq<Step>)
    requires Permitted(s, StartStep(Check))
    ensures Legal(s, run) && Courteous(s, run) && Exec(s, run).starting == s.starting
    ensures Exec(s, run).f == if StartAdmitted(s.f) && consumes then Install(s.f, |s.loops|, channel) else s.f
  {
    run := After(s, [], StartStep(Check));
    if StartAdmitted(s.f) {
      run := After(s, run, StartStep(if consumes then Installs(channel) else Fails));
    }
  }

  // What a Drain leaves of the loop it took: the deliveries ended when the consumer was
  // withdrawn, the read context cancelled when it was not.
  predicate EndedAs(before: Loop, after: Loop, withdrawn: bool) {
    && after.workCancelled == before.workCancelled
    && if withdrawn then after.closed && after.fellBack == before.fellBack
       else after.closed == before.closed && after.readCancelled && after.fellBack
  }

  lemma DrainAsks(s: State, answer: CancelAnswer, expired: bool) returns (run: seq<Step>)
    requires s.f.stopRead.Some? && (answer == TimedOut ==> expired)
    ensures Legal(s, run) && Courteous(s, run)
    ensures var s' := Exec(s, run);
            && s'.f == TakeForDrain(s.f) && |s'.drains| == |s.drains| + 1
            && s'.drains[|s.drains|].pc == DrainWithdrew(s.f.stopRead.value, s.f.loopDone)
            && s'.drains[|s.drains|].expired == expired && (forall c :: LoopExited(s, c) ==> LoopExited(s', c))
            && |s'.loops| == |s.loops|
            && (s.f.stopRead.value < |s.loops| ==>
                  EndedAs(s.loops[s.f.stopRead.value], s'.loops[s.f.stopRead.value],
                          s.f.ch.Some? && answer == Withdrawn))
  {
    var d := |s.drains|;
    run := After(s, [], DrainStep(d, TakesDrain(expired)));
    var asked := DrainAnswered(Exec(s, run), d, answer);
    RunsJoin(s, run, asked);
    run := run + asked;
  }

  lemma DrainAnswered(s: State, d: nat, answer: CancelAnswer) returns (run: seq<Step>)
    requires d < |s.drains| && s.drains[d].pc.DrainWithdrawing? && (answer == TimedOut ==> s.drains[d].expired)
    ensures Legal(s, run) && Courteous(s, run)
    ensures var pc, s' := s.drains[d].pc, Exec(s, run);
            && s'.f == s.f && s'.drains == s.drains[d := s.drains[d].(pc := DrainWithdrew(pc.cycle, pc.done))]
            && (forall c :: LoopExited(s, c) ==> LoopExited(s', c))
            && |s'.loops| == |s.loops|
            && (pc.cycle < |s.loops| ==>
                  EndedAs(s.loops[pc.cycle], s'.loops[pc.cycle], pc.ch.Some? && answer == Withdrawn))
  {
    var act :=
      if s.drains[d].pc.ch.None? then NoChannel
      else match answer
           case TimedOut => CancelLate
           case Withdrawn => CancelAccepted
           case CancelFailed => CancelRefused;
    run := After(s, [], DrainStep(d, act));
  }

  // The same loops, but for a read context that may be cancelled by now.
  ghost predicate SameButReading(s: State, s': State) {
    && |s'.loops| == |s.loops|
    && forall c :: 0 <= c < |s.loops| ==>
         && s'.loops[c].(readCancelled := true) == s.loops[c].(readCancelled := true)
         && (s.loops[c].readCancelled ==> s'.loops[c].readCancelled)
  }

  // A Drain past the broker's answer: past its deadline, or its loop is done.
  lemma DrainEnds(s: State, d: nat) returns (run: seq<Step>)
    requires d < |s.drains| && s.drains[d].pc.DrainWithdrew?
    requires !s.drains[d].expired && s.drains[d].pc.done.Some? ==> LoopExited(s, s.drains[d].pc.done.value)
    ensures Legal(s, run) && Courteous(s, run) && Exec(s, run).f == s.f && |Exec(s, run).drains| == |s.drains|
    ensures Exec(s, run).drains[d].pc == DrainReturned(Some(s.drains[d].pc.cycle), !s.drains[d].expired)
    ensures SameButReading(s, Exec(s, run))
  {
    if s.drains[d].expired {
      run := After(s, [], DrainStep(d, PastDeadline));
    } else {
      run := After(s, [], DrainStep(d, Waits));
      var s1 := Exec(s, run);
      assert s1 == WithDrain(s, d, NextDrainPc(s, d, Waits));
      if s.drains[d].pc.done.Some? {
        run := After(s, run, DrainStep(d, SeesDone));
        DrainSeesDone(s1, d);
      }
    }
  }

  lemma DrainSeesDone(s: State, d: nat)
    requires CanDrain(s, d, SeesDone)
    ensures var s' := ApplyDrain(s, d, SeesDone);
            && s'.f == s.f && |s'.drains| == |s.drains|
            && s'.drains[d].pc == DrainReturned(Some(s.drains[d].pc.cycle), true)
            && SameButReading(s, s')
  {
  }

  // A Drain that nothing interrupts, its deadline passed at the start, or never.
  lemma DrainAlone(s: State, answer: CancelAnswer, expired: bool) returns (run: seq<Step>)
    requires answer == TimedOut ==> expired
    requires !expired && s.f.stopRead.Some? && s.f.loopDone.Some? ==> LoopExited(s, s.f.loopDone.value)
    ensures Legal(s, run) && Courteous(s, run) && Exec(s, run).f == TakeForDrain(s.f)
    ensures |Exec(s, run).drains| == |s.drains| + 1
    ensures Exec(s, run).drains[|s.drains|].pc ==
            DrainReturned(s.f.stopRead, if s.f.stopRead.None? then !StillRunning(s) else !expired)
    ensures |Exec(s, run).loops| == |s.loops|
    ensures s.f.stopRead.Some? && s.f.stopRead.value < |s.loops| ==>
              EndedAs(s.loops[s.f.stopRead.value], Exec(s, run).loops[s.f.stopRead.value],
                      s.f.ch.Some? && answer == Withdrawn)
  {
    if s.f.stopRead.None? {
      run := After(s, [], DrainStep(|s.drains|, TakesDrain(expired)));
      run := After(s, run, DrainStep(|s.drains|, ReturnsIdle));
    } else {
      run := DrainAsks(s, answer, expired);
      var ends := DrainEnds(Exec(s, run), |s.drains|);
      RunsJoin(s, run, ends);
      run := run + ends;
    }
  }
}
