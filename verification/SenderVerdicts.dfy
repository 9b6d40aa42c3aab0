/** When a returned publish is told so: exactly, over every interleaving. */
module SenderVerdicts {
  import opened Options
  import opened SenderReturns
  import opened SenderSafety

  // Told that all went well although the broker gave the message back.
  predicate MissesReturn(s: State, p: nat) {
    p < |s.pubs| && Ended(s.pubs[p].pc, Fine) && s.pubs[p].returned
  }

  predicate BeingDrained(s: State, g: nat) {
    && s.drainMu.Some? && s.drainMu.value < |s.pubs|
    && OwnsLock(s.pubs[s.drainMu.value].pc) && s.pubs[s.drainMu.value].pc.link == g
  }

  ghost predicate NeverMisses(s: State, p: nat) {
    forall run :: Legal(s, run) ==> !MissesReturn(Exec(s, run), p)
  }

  // As an acked publish goes to look: what lets it hear of its return. The sender still
  // has the channel the publish went out on, or somebody has stored or is about to store
  // the return first.
  predicate WillHear(s: State, p: nat)
    requires p < |s.pubs|
  {
    var pub := s.pubs[p];
    || !pub.returned
    || pub.stored
    || s.current == Some(pub.link)
    || (s.current.Some? && BeingDrained(s, pub.link))
  }

  // --------------------------------------------------------- it hears, then

  // A publish past its ack whose return is stored, or will be before it looks.
  predicate OnCourse(s: State, p: nat) {
    p < |s.pubs| &&
    var pub := s.pubs[p];
    && pub.confirm == Acked
    && (Draining(pub.pc) || pub.pc == Drained || pub.pc.Deciding? || pub.pc.Finished?)
    && !MissesReturn(s, p)
    && (pub.returned && (Draining(pub.pc) || pub.pc == Drained) ==>
          pub.stored || pub.drainedOn == Some(pub.link) || (pub.pc.WantLock? && BeingDrained(s, pub.link)))
  }

  lemma OwnStepOnCourse(s: State, p: nat, act: PubAct)
    requires Inv(s) && OnCourse(s, p) && CanPub(s, p, act)
    ensures OnCourse(ApplyPub(s, p, act), p)
  {
    PubMovesItself(s, p, act);
    assert PubOk(s, p);
    if s.drainMu.Some? {
      assert PubOk(s, s.drainMu.value);
    }
  }

  lemma OthersStepOnCourse(s: State, o: nat, act: PubAct, p: nat)
    requires Inv(s) && OnCourse(s, p) && CanPub(s, o, act) && o != p
    ensures OnCourse(ApplyPub(s, o, act), p)
  {
    PubLeavesOthers(s, o, act, p);
    PubMovesItself(s, o, act);
    assert PubOk(s, o) && PubOk(s, p);
    if BeingDrained(s, s.pubs[p].link) {
      if s.drainMu == Some(o) {
        if act.Unlocks? && s.pubs[p].returned && !s.pubs[p].pc.Finished? {
          EmptyBufferMeansStored(s, o, p);
        }
      } else {
        PubLeavesOthers(s, o, act, s.drainMu.value);
        assert PubOk(s, s.drainMu.value);
      }
    }
  }

  lemma StepOnCourse(s: State, step: Step, p: nat)
    requires Inv(s) && OnCourse(s, p) && Enabled(s, step)
    ensures OnCourse(Apply(s, step), p)
  {
    assert PubOk(s, p);
    match step
    case SenderStep(act) =>
    case PubStep(o, act) =>
      if o == p { OwnStepOnCourse(s, p, act); } else { OthersStepOnCourse(s, o, act, p); }
    case BrokerStep(q, act) =>
    case LinkStep(g, act) =>
      if act.Dispatches? && s.links[g].wire[0].ConfirmFrame? {
        assert LinkOk(s, g) && FrameOk(s, g, 0);
      }
  }

  lemma {:induction false} RunOnCourse(s: State, run: seq<Step>, p: nat)
    requires Inv(s) && OnCourse(s, p) && Legal(s, run)
    ensures OnCourse(Exec(s, run), p)
    decreases |run|
  {
    if run != [] {
      StepOnCourse(s, run[0], p);
      StepKeepsInv(s, run[0]);
      RunOnCourse(Apply(s, run[0]), run[1..], p);
    }
  }

  // ------------------------------------------------------ it misses, otherwise

  lemma {:induction false} RunsJoin(s: State, first: seq<Step>, second: seq<Step>)
    requires Legal(s, first) && Legal(Exec(s, first), second)
    ensures Legal(s, first + second) && Exec(s, first + second) == Exec(Exec(s, first), second)
    decreases |first|
  {
    if first == [] {
      assert first + second == second;
    } else {
      var s1, both := Apply(s, first[0]), first + second;
      RunsJoin(s1, first[1..], second);
      assert both[0] == first[0] && both[1..] == first[1..] + second;
      assert Legal(s1, both[1..]) && Exec(s, both) == Exec(s1, both[1..]);
    }
  }

  lemma OneStep(s: State, step: Step)
    requires Enabled(s, step)
    ensures Legal(s, [step]) && Exec(s, [step]) == Apply(s, step)
  {
    assert [step][1..] == [];
  }

  function LeftToDrain(s: State, o: nat): nat
    requires o < |s.pubs| && OwnsLock(s.pubs[o].pc) && s.pubs[o].pc.link < |s.links|
  {
    var pc := s.pubs[o].pc;
    3 * |s.links[pc.link].buffer| + (if pc.Holding? then 2 else if pc.Storing? then 1 else 0)
  }

  function NextDrainAct(s: State, o: nat): PubAct
    requires o < |s.pubs| && OwnsLock(s.pubs[o].pc) && s.pubs[o].pc.link < |s.links|
  {
    var pc := s.pubs[o].pc;
    if pc.Holding? then LoadsEntry
    else if pc.Storing? then StoresEntry
    else if s.links[pc.link].buffer != [] then TakesReturn
    else Unlocks
  }

  // What a drain of channel g leaves of the publishes of other channels.
  ghost predicate Undisturbed(s: State, s': State, o: nat, g: nat) {
    && |s'.pubs| == |s.pubs|
    && forall q :: 0 <= q < |s.pubs| && s.pubs[q].link != g ==>
        s'.pubs[q].(pc := Drained) == s.pubs[q].(pc := Drained) && (q != o ==> s'.pubs[q].pc == s.pubs[q].pc)
  }

  lemma DrainStepEnabled(s: State, o: nat)
    requires Inv(s) && o < |s.pubs| && OwnsLock(s.pubs[o].pc)
    ensures s.pubs[o].pc.link < |s.links| && CanPub(s, o, NextDrainAct(s, o))
    ensures s.pubs[o].pc.Storing? ==> s.pubs[s.pubs[o].pc.q].link == s.pubs[o].pc.link
  {
    assert PubOk(s, o);
  }

  lemma DrainStepUndisturbs(s: State, o: nat, act: PubAct)
    requires CanPub(s, o, act) && OwnsLock(s.pubs[o].pc)
    requires act.StoresEntry? ==> s.pubs[s.pubs[o].pc.q].link == s.pubs[o].pc.link
    ensures Undisturbed(s, ApplyPub(s, o, act), o, s.pubs[o].pc.link)
  {
    var s' := ApplyPub(s, o, act);
    DrainStepPubs(s, o, act);
    PubMovesItself(s, o, act);
    forall q | 0 <= q < |s.pubs| && q != o && s.pubs[q].link != s.pubs[o].pc.link ensures s'.pubs[q] == s.pubs[q] {
      PubLeavesOthers(s, o, act, q);
    }
  }

  // Each step of a drain brings its end nearer, and the last one gives the lock back.
  lemma DrainStepAdvances(s: State, o: nat)
    requires o < |s.pubs| && OwnsLock(s.pubs[o].pc) && s.pubs[o].pc.link < |s.links|
    requires CanPub(s, o, NextDrainAct(s, o))
    ensures var g, s' := s.pubs[o].pc.link, ApplyPub(s, o, NextDrainAct(s, o));
            && |s'.pubs| == |s.pubs|
            && if s.pubs[o].pc.Locked? && s.links[g].buffer == [] then
                 s'.pubs[o].pc == Drained && s'.drainMu == None
               else
                 && OwnsLock(s'.pubs[o].pc) && s'.pubs[o].pc.link == g < |s'.links|
                 && LeftToDrain(s', o) < LeftToDrain(s, o)
  {
    var pc := s.pubs[o].pc;
    if pc.Holding? || pc.Storing? {
      HandlingAdvances(s, o);
    } else if s.links[pc.link].buffer != [] {
      TakingAdvances(s, o);
    } else {
      assert ApplyPub(s, o, Unlocks).pubs[o].pc == Drained;
    }
  }

  lemma TakingAdvances(s: State, o: nat)
    requires CanPub(s, o, TakesReturn)
    ensures var g, s' := s.pubs[o].pc.link, ApplyPub(s, o, TakesReturn);
            && |s'.pubs| == |s.pubs| && s'.pubs[o].pc.Holding? && s'.pubs[o].pc.link == g < |s'.links|
            && |s'.links[g].buffer| + 1 == |s.links[g].buffer|
  {
  }

  lemma HandlingAdvances(s: State, o: nat)
    requires o < |s.pubs| && OwnsLock(s.pubs[o].pc) && s.pubs[o].pc.link < |s.links|
    requires if s.pubs[o].pc.Holding? then CanPub(s, o, LoadsEntry)
             else s.pubs[o].pc.Storing? && CanPub(s, o, StoresEntry)
    ensures var s' := ApplyPub(s, o, if s.pubs[o].pc.Holding? then LoadsEntry else StoresEntry);
            && |s'.pubs| == |s.pubs| && s'.links == s.links
            && (s'.pubs[o].pc == Locked(s.pubs[o].pc.link) ||
                (s.pubs[o].pc.Holding? && s'.pubs[o].pc.Storing? && s'.pubs[o].pc.link == s.pubs[o].pc.link))
  {
  }

  lemma DrainStepPubs(s: State, o: nat, act: PubAct)
    requires CanPub(s, o, act) && OwnsLock(s.pubs[o].pc)
    ensures var s' := ApplyPub(s, o, act);
            && |s'.pubs| == |s.pubs| && |s'.links| == |s.links|
            && s'.links == if act.TakesReturn?
                           then s.links[s.pubs[o].pc.link := s.links[s.pubs[o].pc.link].(
                                  buffer := s.links[s.pubs[o].pc.link].buffer[1..])]
                           else s.links
  {
  }

  // A drain under way can run to its end, whatever else waits.
  lemma {:induction false} DrainRunsOut(s: State, o: nat) returns (run: seq<Step>)
    requires Inv(s) && o < |s.pubs| && OwnsLock(s.pubs[o].pc) && s.pubs[o].pc.link < |s.links|
    ensures Legal(s, run) && Inv(Exec(s, run)) && Undisturbed(s, Exec(s, run), o, s.pubs[o].pc.link)
    ensures Exec(s, run).pubs[o].pc == Drained && Exec(s, run).drainMu == None
    decreases LeftToDrain(s, o)
  {
    DrainStepEnabled(s, o);
    DrainStepUndisturbs(s, o, NextDrainAct(s, o));
    DrainStepAdvances(s, o);
    var step := PubStep(o, NextDrainAct(s, o));
    var s1 := Apply(s, step);
    StepKeepsInv(s, step);
    OneStep(s, step);
    if s1.pubs[o].pc == Drained {
      return [step];
    }
    var rest := DrainRunsOut(s1, o);
    RunsJoin(s, [step], rest);
    run := [step] + rest;
  }

  // A publish that waits for the lock to drain some other channel's buffer.
  lemma MissesAfterLock(s: State, p: nat) returns (run: seq<Step>)
    requires Inv(s) && p < |s.pubs| && s.pubs[p].pc.WantLock? && s.pubs[p].pc.link != s.pubs[p].link
    requires s.pubs[p].returned && !s.pubs[p].stored && s.drainMu.None?
    ensures Legal(s, run) && MissesReturn(Exec(s, run), p)
  {
    assert PubOk(s, p);
    StepKeepsInv(s, PubStep(p, Locks));
    OneStep(s, PubStep(p, Locks));
    var s1 := Apply(s, PubStep(p, Locks));
    var rest := DrainRunsOut(s1, p);
    RunsJoin(s, [PubStep(p, Locks)], rest);
    var s2 := Exec(s1, rest);
    OneStep(s2, PubStep(p, ReadsEntry));
    RunsJoin(s, [PubStep(p, Locks)] + rest, [PubStep(p, ReadsEntry)]);
    run := [PubStep(p, Locks)] + rest + [PubStep(p, ReadsEntry)];
  }

  lemma MissesUnlessHeard(s: State, p: nat) returns (run: seq<Step>)
    requires Inv(s) && p < |s.pubs| && s.pubs[p].pc == Confirmed && !WillHear(s, p)
    ensures Legal(Apply(s, PubStep(p, ReadsReturns)), run)
    ensures MissesReturn(Exec(Apply(s, PubStep(p, ReadsReturns)), run), p)
  {
    assert PubOk(s, p);
    var s1 := Apply(s, PubStep(p, ReadsReturns));
    StepKeepsInv(s, PubStep(p, ReadsReturns));
    if s.current.None? {
      OneStep(s1, PubStep(p, ReadsEntry));
      return [PubStep(p, ReadsEntry)];
    }
    if s.drainMu.None? {
      run := MissesAfterLock(s1, p);
      return;
    }
    var o := s.drainMu.value;
    assert PubOk(s1, o);
    run := DrainRunsOut(s1, o);
    var rest := MissesAfterLock(Exec(s1, run), p);
    RunsJoin(s1, run, rest);
    run := run + rest;
  }

  // The exact condition, at the moment an acked publish goes to look: whatever happens
  // afterwards it reports what the broker did, or something may keep it from hearing.
  lemma VerdictIsRightExactly(past: seq<Step>, p: nat)
    requires Legal(Initial(), past) && p < |Exec(Initial(), past).pubs| && Exec(Initial(), past).pubs[p].pc == Confirmed
    ensures var s := Exec(Initial(), past);
            WillHear(s, p) <==> NeverMisses(Apply(s, PubStep(p, ReadsReturns)), p)
  {
    InitiallyInv();
    RunKeepsInv(Initial(), past);
    var s := Exec(Initial(), past);
    var s1 := Apply(s, PubStep(p, ReadsReturns));
    assert PubOk(s, p);
    if WillHear(s, p) {
      StepKeepsInv(s, PubStep(p, ReadsReturns));
      LooksOnCourse(s, p);
      forall run | Legal(s1, run) ensures !MissesReturn(Exec(s1, run), p) {
        RunOnCourse(s1, run, p);
      }
    } else {
      var run := MissesUnlessHeard(s, p);
      assert !NeverMisses(s1, p);
    }
  }

  lemma LooksOnCourse(s: State, p: nat)
    requires Inv(s) && p < |s.pubs| && s.pubs[p].pc == Confirmed && WillHear(s, p)
    ensures OnCourse(Apply(s, PubStep(p, ReadsReturns)), p)
  {
    assert PubOk(s, p);
  }

  // ------------------------------------------------------- the other verdicts

  // What a publisher reports, by what happened to it.
  predicate ReportsRightly(pub: Pub) {
    && (pub.pc.Registered? ==> !pub.sent && !pub.cut)
    && (pub.pc.Sent? || pub.pc.Confirmed? || Draining(pub.pc) || pub.pc.Drained? ==> pub.sent && !pub.cut)
    && (Ended(pub.pc, PublishError) ==> !pub.sent)
    && (Ended(pub.pc, ConfirmError) ==> pub.sent && pub.cut)
    && (Ended(pub.pc, NackError) ==> pub.sent && !pub.cut)
    && (Ended(pub.pc, Fine) || Ended(pub.pc, ReturnedError) ==> pub.sent && !pub.cut)
  }

  lemma StepReportsRightly(s: State, step: Step, p: nat)
    requires Enabled(s, step) && p < |Apply(s, step).pubs|
    requires p < |s.pubs| ==> ReportsRightly(s.pubs[p])
    ensures ReportsRightly(Apply(s, step).pubs[p])
  {
    match step
    case SenderStep(act) =>
    case PubStep(q, act) => if p == q { OwnReport(s, p, act); } else { PubLeavesOthers(s, q, act, p); }
    case BrokerStep(q, act) => BrokerLeavesReport(s, q, act, p);
    case LinkStep(g, act) => LinkLeavesReport(s, g, act, p);
  }

  lemma OwnReport(s: State, p: nat, act: PubAct)
    requires CanPub(s, p, act) && ReportsRightly(s.pubs[p])
    ensures p < |ApplyPub(s, p, act).pubs| && ReportsRightly(ApplyPub(s, p, act).pubs[p])
  {
    PubMovesItself(s, p, act);
  }

  lemma BrokerLeavesReport(s: State, q: nat, act: BrokerAct, p: nat)
    requires CanAnswer(s, q, act) && p < |s.pubs|
    ensures var s' := ApplyBroker(s, q, act);
            && |s'.pubs| == |s.pubs| && s'.pubs[p].pc == s.pubs[p].pc
            && s'.pubs[p].sent == s.pubs[p].sent && s'.pubs[p].cut == s.pubs[p].cut
  {
  }

  lemma LinkLeavesReport(s: State, g: nat, act: LinkAct, p: nat)
    requires CanLink(s, g, act) && p < |s.pubs|
    ensures var s' := ApplyLink(s, g, act);
            && |s'.pubs| == |s.pubs| && s'.pubs[p].pc == s.pubs[p].pc
            && s'.pubs[p].sent == s.pubs[p].sent && s'.pubs[p].cut == s.pubs[p].cut
  {
  }

  lemma {:induction false} RunReportsRightly(s: State, run: seq<Step>)
    requires Legal(s, run) && forall p :: 0 <= p < |s.pubs| ==> ReportsRightly(s.pubs[p])
    ensures forall p :: 0 <= p < |Exec(s, run).pubs| ==> ReportsRightly(Exec(s, run).pubs[p])
    decreases |run|
  {
    if run != [] {
      forall p | 0 <= p < |Apply(s, run[0]).pubs| ensures ReportsRightly(Apply(s, run[0]).pubs[p]) {
        StepReportsRightly(s, run[0], p);
      }
      RunReportsRightly(Apply(s, run[0]), run[1..]);
    }
  }

  // In every run: a publish the library did not take, one whose wait was cut short, one the
  // broker refused and one it took each report just that.
  lemma VerdictsExactly(run: seq<Step>, p: nat)
    requires Legal(Initial(), run) && p < |Exec(Initial(), run).pubs|
    requires Exec(Initial(), run).pubs[p].pc.Finished?
    ensures var pub := Exec(Initial(), run).pubs[p];
            && (pub.pc.verdict == PublishError <==> !pub.sent)
            && (pub.pc.verdict == ConfirmError <==> pub.sent && pub.cut)
            && (pub.pc.verdict == NackError <==> pub.sent && !pub.cut && pub.answer == Nacked)
            && (pub.pc.verdict == Fine || pub.pc.verdict == ReturnedError <==>
                  pub.sent && !pub.cut && pub.answer == Acked)
  {
    InitiallyInv();
    RunKeepsInv(Initial(), run);
    RunReportsRightly(Initial(), run);
    assert PubOk(Exec(Initial(), run), p);
  }

  // The library never holds more returns than the buffer it was given has room for.
  lemma {:induction false} BuffersFit(s: State, run: seq<Step>, g: nat)
    requires Legal(s, run) && g < |s.links| && |s.links[g].buffer| <= 32
    ensures g < |Exec(s, run).links| && |Exec(s, run).links[g].buffer| <= 32
    decreases |run|
  {
    if run != [] {
      StepFits(s, run[0], g);
      BuffersFit(Apply(s, run[0]), run[1..], g);
    }
  }

  lemma StepFits(s: State, step: Step, g: nat)
    requires Enabled(s, step) && g < |s.links| && |s.links[g].buffer| <= 32
    ensures g < |Apply(s, step).links| && |Apply(s, step).links[g].buffer| <= 32
  {
  }

  // ----------------------------------------------------------------- a run

  // A run that misses one: one publish, returned and acked, told that all went well.
  lemma LostReturn() returns (run: seq<Step>)
    ensures Legal(Initial(), run)
    ensures var s := Exec(Initial(), run);
            |s.pubs| == 1 && s.pubs[0].pc == Finished(Fine) && s.pubs[0].mandatory && s.pubs[0].returned &&
                s.pubs[0].confirm == Acked
  {
    run := [];
    run := Then(run, SenderStep(Connects));
    run := Then(run, SenderStep(Begins(true)));
    run := Then(run, PubStep(0, PublishOk));
    run := Then(run, BrokerStep(0, Returns));
    run := Then(run, BrokerStep(0, Confirms(true)));
    run := Then(run, LinkStep(0, Dispatches));
    run := Then(run, LinkStep(0, Dispatches));
    run := Then(run, PubStep(0, WaitEnds));
    run := Then(run, SenderStep(Disconnects));
    run := Then(run, PubStep(0, ReadsReturns));
    run := Then(run, PubStep(0, ReadsEntry));
    run := Then(run, PubStep(0, Finishes));
  }

  lemma Then(run: seq<Step>, step: Step) returns (longer: seq<Step>)
    requires Legal(Initial(), run) && Enabled(Exec(Initial(), run), step)
    ensures Legal(Initial(), longer) && Exec(Initial(), longer) == Apply(Exec(Initial(), run), step)
  {
    OneStep(Exec(Initial(), run), step);
    RunsJoin(Initial(), run, [step]);
    longer := run + [step];
  }
}
