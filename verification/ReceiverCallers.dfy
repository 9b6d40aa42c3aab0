/** One receiver as the client's goroutines drive it (client/client.go): the reconnect
    goroutine, any number of channel recoveries nobody joins, and the effective Stop. The
    receiver itself is the lifecycle; here is who starts and stops it, and when. */
module ReceiverCallers {
  import opened Options
  import L = ReceiverLifecycle
  import Safety = ReceiverSafety

  // ------------------------------------------------------------------ state

  // A call of the receiver's Stop is named by its number in the lifecycle.
  datatype SupPc =
    | SupConnecting            // dialing, or setting up channels before this receiver's
    | SupStarting              // in Start, between its check and its install
    | SupSettled               // done with this receiver: watching, or about to clean up
    | SupStopping(call: nat)   // in Stop: a lost connection, or a failed setup
    | SupExited

  datatype RecoveryPc =
    | Reading                  // saw the client connected
    | Stopping(call: nat)      // in the Stop that resets the receiver
    | Opening                  // opens and declares its channel
    | Starting                 // in Start, between its check and its install
    | Started
    | LastStop(call: nat)      // in the Stop of a refusal or a rollback
    | Over

  datatype EndPc = NotEnding | Ending(call: nat) | Ended

  datatype Client = Client(life: L.State, sup: SupPc, recoveries: seq<RecoveryPc>, end: EndPc)

  function Initial(ackNone: bool): Client {
    Client(L.Initial(ackNone), SupConnecting, [], NotEnding)
  }

  // ------------------------------------------------------------------ steps

  datatype StartAct = Checks | Installs(ch: nat) | Fails

  datatype SupAct = SupStart(start: StartAct) | Skips | SupStops | SupReturns | Leaves

  datatype RecoveryAct = Begins | Resets | Returns | Start(start: StartAct) | Keeps | StopsAgain | GivesUp

  datatype EndAct = EndStops | EndReturns

  // `Moves`: anything else at the receiver, inside a Stop, by a Drain, the loop or the broker.
  datatype Step =
    | Moves(step: L.Step)
    | SupStep(sup: SupAct)
    | RecoveryStep(t: nat, act: RecoveryAct)
    | EndStep(end: EndAct)

  function StartOf(act: StartAct): L.Step {
    match act
    case Checks => L.StartStep(L.Check)
    case Installs(ch) => L.StartStep(L.Installs(ch))
    case Fails => L.StartStep(L.Fails)
  }

  function TakesStop(life: L.State): L.Step { L.StopStep(|life.stops|, L.TakesStop) }

  // What the step does to the receiver, if anything.
  function LifeStep(life: L.State, step: Step): Option<L.Step> {
    match step
    case Moves(move) => Some(move)
    case SupStep(SupStart(act)) => Some(StartOf(act))
    case SupStep(SupStops) => Some(TakesStop(life))
    case RecoveryStep(_, Start(act)) => Some(StartOf(act))
    case RecoveryStep(_, Resets) => Some(TakesStop(life))
    case RecoveryStep(_, StopsAgain) => Some(TakesStop(life))
    case EndStep(EndStops) => Some(TakesStop(life))
    case _ => None
  }

  predicate Through(life: L.State, call: nat) { call < |life.stops| && life.stops[call].StopReturned? }

  predicate CanSup(c: Client, act: SupAct) {
    match act
    case SupStart(start) => if start.Checks? then c.sup.SupConnecting? else c.sup.SupStarting?
    case Skips => c.sup.SupConnecting?
    case SupStops => c.sup.SupConnecting? || c.sup.SupSettled?
    case SupReturns => c.sup.SupStopping? && Through(c.life, c.sup.call)
    case Leaves => c.sup.SupConnecting? || c.sup.SupSettled?
  }

  predicate CanRecover(c: Client, t: nat, act: RecoveryAct) {
    if act.Begins? then t == |c.recoveries| && (c.sup.SupSettled? || c.sup.SupExited?)
    else
      t < |c.recoveries| &&
      var pc := c.recoveries[t];
      match act
      case Resets => pc.Reading?
      case Returns => (pc.Stopping? || pc.LastStop?) && Through(c.life, pc.call)
      case Start(start) => if start.Checks? then pc.Opening? else pc.Starting?
      case Keeps => pc.Started?
      case StopsAgain => pc.Reading? || pc.Started?
      case _ => pc.Reading? || pc.Opening?
  }

  predicate CanEnd(c: Client, act: EndAct) {
    match act
    case EndStops => c.end.NotEnding? && c.sup.SupExited?
    case EndReturns => c.end.Ending? && Through(c.life, c.end.call)
  }

  predicate Enabled(c: Client, step: Step) {
    && (LifeStep(c.life, step).Some? ==> L.Enabled(c.life, LifeStep(c.life, step).value))
    && match step
       case Moves(move) => !move.StartStep? && (move.StopStep? ==> !move.stop.TakesStop?)
       case SupStep(act) => CanSup(c, act)
       case RecoveryStep(t, act) => CanRecover(c, t, act)
       case EndStep(act) => CanEnd(c, act)
  }

  function LifeAfter(c: Client, step: Step): L.State
    requires Enabled(c, step)
  {
    var move := LifeStep(c.life, step);
    if move.Some? then L.Apply(c.life, move.value) else c.life
  }

  function NextSup(c: Client, act: SupAct): SupPc {
    match act
    case SupStart(Checks) => if L.StartAdmitted(c.life.f) then SupStarting else SupSettled
    case SupStart(_) => SupSettled
    case Skips => SupSettled
    case SupStops => SupStopping(|c.life.stops|)
    case SupReturns => SupConnecting
    case Leaves => SupExited
  }

  function NextRecovery(c: Client, pc: RecoveryPc, act: RecoveryAct): RecoveryPc {
    match act
    case Begins => Reading
    case Resets => Stopping(|c.life.stops|)
    case Returns => if pc.Stopping? then Opening else Over
    case Start(Checks) => if L.StartAdmitted(c.life.f) then Starting else Over
    case Start(Installs(_)) => Started
    case StopsAgain => LastStop(|c.life.stops|)
    case _ => Over
  }

  function RecoveriesAfter(c: Client, t: nat, act: RecoveryAct): seq<RecoveryPc>
    requires CanRecover(c, t, act)
  {
    if act.Begins? then c.recoveries + [Reading] else c.recoveries[t := NextRecovery(c, c.recoveries[t], act)]
  }

  function Apply(c: Client, step: Step): Client
    requires Enabled(c, step)
  {
    var life := LifeAfter(c, step);
    match step
    case Moves(_) => c.(life := life)
    case SupStep(act) => c.(life := life, sup := NextSup(c, act))
    case RecoveryStep(t, act) => c.(life := life, recoveries := RecoveriesAfter(c, t, act))
    case EndStep(act) => c.(life := life, end := if act.EndStops? then Ending(|c.life.stops|) else Ended)
  }

  ghost predicate Legal(c: Client, run: seq<Step>)
    decreases |run|
  {
    run == [] || (Enabled(c, run[0]) && Legal(Apply(c, run[0]), run[1..]))
  }

  function Exec(c: Client, run: seq<Step>): Client
    requires Legal(c, run)
    decreases |run|
  {
    if run == [] then c else Exec(Apply(c, run[0]), run[1..])
  }

  // -------------------------------------------------------------- contention

  // A Stop of a started cycle that has not moved the epoch yet.
  predicate Unfinished(life: L.State, call: nat) {
    call < |life.stops| && L.Unbumped(life.stops[call])
  }

  // A goroutine inside the receiver: in a Start past its check, or in such a Stop.
  predicate SupInside(c: Client) {
    c.sup.SupStarting? || (c.sup.SupStopping? && Unfinished(c.life, c.sup.call))
  }

  predicate Inside(life: L.State, pc: RecoveryPc) {
    pc.Starting? || ((pc.Stopping? || pc.LastStop?) && Unfinished(life, pc.call))
  }

  predicate RecoveryInside(c: Client) {
    exists t :: 0 <= t < |c.recoveries| && Inside(c.life, c.recoveries[t])
  }

  predicate EndInside(c: Client) { c.end.Ending? && Unfinished(c.life, c.end.call) }

  // A Start that begins while another goroutine of the client is inside the receiver.
  predicate Contends(c: Client, step: Step) {
    && (step == SupStep(SupStart(Checks)) || (step.RecoveryStep? && step.act == Start(Checks)))
    && (SupInside(c) || RecoveryInside(c) || EndInside(c))
  }

  // -------------------------------------------------------------- ownership

  function Starters(recoveries: seq<RecoveryPc>): nat {
    if recoveries == [] then 0
    else Starters(recoveries[..|recoveries| - 1]) + (if recoveries[|recoveries| - 1].Starting? then 1 else 0)
  }

  lemma {:induction false} StartersAfterPut(recoveries: seq<RecoveryPc>, t: nat, pc: RecoveryPc)
    requires t < |recoveries|
    ensures Starters(recoveries[t := pc]) ==
            Starters(recoveries) - (if recoveries[t].Starting? then 1 else 0) + (if pc.Starting? then 1 else 0)
  {
    var n := |recoveries| - 1;
    if t == n {
      assert recoveries[t := pc][..n] == recoveries[..n];
    } else {
      StartersAfterPut(recoveries[..n], t, pc);
      assert recoveries[t := pc][..n] == recoveries[..n][t := pc];
    }
  }

  lemma {:induction false} SomebodyStarts(recoveries: seq<RecoveryPc>)
    ensures Starters(recoveries) > 0 <==> exists t :: 0 <= t < |recoveries| && recoveries[t].Starting?
  {
    if recoveries != [] {
      var before := recoveries[..|recoveries| - 1];
      SomebodyStarts(before);
      assert forall t :: 0 <= t < |before| ==> recoveries[t] == before[t];
    }
  }

  predicate Holds(pc: RecoveryPc, call: nat) { (pc.Stopping? || pc.LastStop?) && pc.call == call }

  predicate Owned(c: Client, call: nat) {
    || c.sup == SupStopping(call)
    || c.end == Ending(call)
    || exists t :: 0 <= t < |c.recoveries| && Holds(c.recoveries[t], call)
  }

  predicate Inv(c: Client) {
    && c.life.starting == (if c.sup.SupStarting? then 1 else 0) + Starters(c.recoveries)
    && (forall call :: 0 <= call < |c.life.stops| && L.Unbumped(c.life.stops[call]) ==> Owned(c, call))
    && (!c.end.NotEnding? ==> c.sup.SupExited?)
  }

  // What the lifecycle's steps do to the Starts and Stops under way.
  lemma MoveKeepsCalls(life: L.State, move: L.Step)
    requires L.Enabled(life, move) && !move.StartStep?
    ensures L.Apply(life, move).starting == life.starting
    ensures |life.stops| <= |L.Apply(life, move).stops|
    ensures !(move.StopStep? && move.stop.TakesStop?) ==> |L.Apply(life, move).stops| == |life.stops|
    ensures |L.Apply(life, move).stops| <= |life.stops| + 1
    ensures forall i :: 0 <= i < |life.stops| ==>
              (L.Unbumped(L.Apply(life, move).stops[i]) ==> L.Unbumped(life.stops[i])) &&
              (life.stops[i].StopReturned? ==> L.Apply(life, move).stops[i] == life.stops[i])
  {
  }

  lemma StartKeepsStops(life: L.State, act: L.StartAct)
    requires L.Enabled(life, L.StartStep(act))
    ensures var after := L.Apply(life, L.StartStep(act));
            && after.stops == life.stops
            && after.starting == life.starting + (if !act.Check? then -1 else if L.StartAdmitted(life.f) then 1 else 0)
  {
  }

  // Every Stop still unfinished keeps its owner.
  lemma OwnersStay(c: Client, c': Client)
    requires Inv(c) && |c.life.stops| <= |c'.life.stops| <= |c.life.stops| + 1
    requires forall i :: 0 <= i < |c.life.stops| && L.Unbumped(c'.life.stops[i]) ==> L.Unbumped(c.life.stops[i])
    requires |c'.life.stops| > |c.life.stops| ==> Owned(c', |c.life.stops|)
    requires forall i :: 0 <= i < |c.life.stops| && L.Unbumped(c'.life.stops[i]) && Owned(c, i) ==> Owned(c', i)
    ensures forall i :: 0 <= i < |c'.life.stops| && L.Unbumped(c'.life.stops[i]) ==> Owned(c', i)
  {
  }

  lemma LifeKeepsCalls(c: Client, step: Step)
    requires Enabled(c, step)
    ensures var after := LifeAfter(c, step);
            && |c.life.stops| <= |after.stops| <= |c.life.stops| + 1
            && (|after.stops| > |c.life.stops| <==> LifeStep(c.life, step) == Some(TakesStop(c.life)))
            && forall i :: 0 <= i < |c.life.stops| ==>
                 (L.Unbumped(after.stops[i]) ==> L.Unbumped(c.life.stops[i])) &&
                 (c.life.stops[i].StopReturned? ==> after.stops[i] == c.life.stops[i])
  {
    var move := LifeStep(c.life, step);
    if move.Some? {
      if move.value.StartStep? {
        StartKeepsStops(c.life, move.value.start);
      } else {
        MoveKeepsCalls(c.life, move.value);
      }
    }
  }

  lemma SupKeepsInv(c: Client, act: SupAct)
    requires Inv(c) && Enabled(c, SupStep(act))
    ensures Inv(Apply(c, SupStep(act)))
  {
    var c' := Apply(c, SupStep(act));
    LifeKeepsCalls(c, SupStep(act));
    if act.SupStart? {
      StartKeepsStops(c.life, StartOf(act.start).start);
    }
    OwnersStay(c, c');
  }

  lemma EndKeepsInv(c: Client, act: EndAct)
    requires Inv(c) && Enabled(c, EndStep(act))
    ensures Inv(Apply(c, EndStep(act)))
  {
    LifeKeepsCalls(c, EndStep(act));
    OwnersStay(c, Apply(c, EndStep(act)));
  }

  lemma RecoveryKeepsInv(c: Client, t: nat, act: RecoveryAct)
    requires Inv(c) && Enabled(c, RecoveryStep(t, act))
    ensures Inv(Apply(c, RecoveryStep(t, act)))
  {
    var c' := Apply(c, RecoveryStep(t, act));
    LifeKeepsCalls(c, RecoveryStep(t, act));
    if act.Start? {
      StartKeepsStops(c.life, StartOf(act.start).start);
    }
    if act.Begins? {
      assert c'.recoveries[..|c.recoveries|] == c.recoveries;
    } else {
      StartersAfterPut(c.recoveries, t, c'.recoveries[t]);
    }
    forall i | 0 <= i < |c.life.stops| && L.Unbumped(c'.life.stops[i]) && Owned(c, i) ensures Owned(c', i) {
      if u :| 0 <= u < |c.recoveries| && Holds(c.recoveries[u], i) {
        assert Holds(c'.recoveries[u], i);
      }
    }
    if |c'.life.stops| > |c.life.stops| {
      assert Holds(c'.recoveries[t], |c.life.stops|);
    }
    OwnersStay(c, c');
  }

  lemma StepKeepsInv(c: Client, step: Step)
    requires Inv(c) && Enabled(c, step)
    ensures Inv(Apply(c, step))
  {
    match step
    case Moves(move) =>
      MoveKeepsCalls(c.life, move);
      OwnersStay(c, Apply(c, step));
    case SupStep(act) => SupKeepsInv(c, act);
    case RecoveryStep(t, act) => RecoveryKeepsInv(c, t, act);
    case EndStep(act) => EndKeepsInv(c, act);
  }

  // ------------------------------------------------------ the rule on callers

  // Whoever breaks the rule is one of these goroutines.
  lemma PermittedExactly(c: Client)
    requires Inv(c)
    ensures L.Permitted(c.life, L.StartStep(L.Check)) <==> !SupInside(c) && !RecoveryInside(c) && !EndInside(c)
  {
    SomebodyStarts(c.recoveries);
    if !SupInside(c) && !RecoveryInside(c) && !EndInside(c) {
      forall call | 0 <= call < |c.life.stops| ensures !L.Unbumped(c.life.stops[call]) {
        assert L.Unbumped(c.life.stops[call]) ==> Owned(c, call);
      }
    }
  }

  // The connect path breaks the rule exactly through a recovery inside the receiver; its
  // own Stops and the client's are through by then.
  lemma ReconnectPermittedExactly(c: Client)
    requires Inv(c) && c.sup.SupConnecting?
    ensures L.Permitted(c.life, L.StartStep(L.Check)) <==> !RecoveryInside(c)
  {
    PermittedExactly(c);
  }

  function LifeSteps(c: Client, run: seq<Step>): seq<L.Step>
    requires Legal(c, run)
    decreases |run|
  {
    if run == [] then []
    else
      var move := LifeStep(c.life, run[0]);
      (if move.Some? then [move.value] else []) + LifeSteps(Apply(c, run[0]), run[1..])
  }

  lemma {:induction false} LifeRuns(c: Client, run: seq<Step>)
    requires Legal(c, run)
    ensures L.Legal(c.life, LifeSteps(c, run)) && L.Exec(c.life, LifeSteps(c, run)) == Exec(c, run).life
    decreases |run|
  {
    if run != [] {
      LifeRuns(Apply(c, run[0]), run[1..]);
      var rest := LifeSteps(Apply(c, run[0]), run[1..]);
      if LifeStep(c.life, run[0]).Some? {
        assert LifeSteps(c, run)[1..] == rest;
      } else {
        assert LifeSteps(c, run) == rest;
      }
    }
  }

  ghost predicate Uncontended(c: Client, run: seq<Step>)
    requires Legal(c, run)
    decreases |run|
  {
    run == [] || (!Contends(c, run[0]) && Uncontended(Apply(c, run[0]), run[1..]))
  }

  lemma ContendsExactly(c: Client, step: Step)
    requires Inv(c) && Enabled(c, step)
    ensures Contends(c, step) <==> LifeStep(c.life, step).Some? && !L.Permitted(c.life, LifeStep(c.life, step).value)
  {
    PermittedExactly(c);
  }

  // The client keeps the rule on Start, in a run, exactly when no Start of it begins while
  // another of its goroutines is inside the receiver.
  lemma {:induction false} ClientKeepsRuleExactly(c: Client, run: seq<Step>)
    requires Inv(c) && Legal(c, run)
    ensures L.Legal(c.life, LifeSteps(c, run))
    ensures L.Courteous(c.life, LifeSteps(c, run)) <==> Uncontended(c, run)
    decreases |run|
  {
    LifeRuns(c, run);
    if run != [] {
      var c1, move := Apply(c, run[0]), LifeStep(c.life, run[0]);
      StepKeepsInv(c, run[0]);
      ContendsExactly(c, run[0]);
      ClientKeepsRuleExactly(c1, run[1..]);
      if move.Some? {
        assert LifeSteps(c, run)[0] == move.value && LifeSteps(c, run)[1..] == LifeSteps(c1, run[1..]);
      } else {
        assert LifeSteps(c, run) == LifeSteps(c1, run[1..]);
      }
    }
  }

  lemma InitiallyInv(ackNone: bool)
    ensures Inv(Initial(ackNone))
  {
  }

  // So in every uncontended run of the client no two tags valid together are of two channels.
  lemma UncontendedTagsShareAChannel(ackNone: bool, run: seq<Step>, j: nat, k: nat)
    requires Legal(Initial(ackNone), run) && Uncontended(Initial(ackNone), run)
    ensures var life := Exec(Initial(ackNone), run).life;
            j < |life.stamps| && k < |life.stamps| && Safety.ReadsValid(life, j) && Safety.ReadsValid(life, k) ==>
              life.stamps[j].cycle == life.stamps[k].cycle == |life.loops| - 1
  {
    var c := Initial(ackNone);
    var life := Exec(c, run).life;
    InitiallyInv(ackNone);
    ClientKeepsRuleExactly(c, run);
    LifeRuns(c, run);
    assert Safety.Arrives(ackNone, LifeSteps(c, run), life);
    if j < |life.stamps| && k < |life.stamps| && Safety.ReadsValid(life, j) && Safety.ReadsValid(life, k) {
      Safety.ValidTagsShareAChannel(life, j, k);
    }
  }

  // Where the connect path finds the receiver free: starting it keeps every tag on its own
  // epoch, in all that follows, exactly when no recovery is inside the receiver.
  lemma ReconnectIsSafeExactly(ackNone: bool, run: seq<Step>)
    requires Legal(Initial(ackNone), run) && Uncontended(Initial(ackNone), run)
    requires var c := Exec(Initial(ackNone), run);
             c.sup.SupConnecting? && L.StartAdmitted(c.life.f) && !c.life.ackNone
    ensures var c := Exec(Initial(ackNone), run);
            var s1 := L.Apply(c.life, L.StartStep(L.Check));
            !RecoveryInside(c) <==>
            forall more :: L.Legal(s1, more) && L.Courteous(s1, more) ==> Safety.OwnEpochs(L.Exec(s1, more))
  {
    var c := Exec(Initial(ackNone), run);
    InitiallyInv(ackNone);
    RunKeepsInv(Initial(ackNone), run);
    ClientKeepsRuleExactly(Initial(ackNone), run);
    LifeRuns(Initial(ackNone), run);
    assert Safety.Arrives(ackNone, LifeSteps(Initial(ackNone), run), c.life);
    ReconnectPermittedExactly(c);
    Safety.StartRuleExactly(c.life);
  }

  lemma {:induction false} RunKeepsInv(c: Client, run: seq<Step>)
    requires Inv(c) && Legal(c, run)
    ensures Inv(Exec(c, run))
    decreases |run|
  {
    if run != [] {
      StepKeepsInv(c, run[0]);
      RunKeepsInv(Apply(c, run[0]), run[1..]);
    }
  }

  // A client none of whose channels died on its own keeps the rule, whatever its
  // connections and its Stop do.
  lemma {:induction false} WithoutRecoveries(c: Client, run: seq<Step>)
    requires Inv(c) && c.recoveries == [] && Legal(c, run)
    requires forall i :: 0 <= i < |run| ==> !run[i].RecoveryStep?
    ensures Uncontended(c, run)
    decreases |run|
  {
    if run != [] {
      StepKeepsInv(c, run[0]);
      WithoutRecoveries(Apply(c, run[0]), run[1..]);
    }
  }

  // ------------------------------------------------------------ it is broken

  lemma {:induction false} After(c: Client, run: seq<Step>, step: Step) returns (longer: seq<Step>)
    requires Legal(c, run) && Enabled(Exec(c, run), step)
    ensures Legal(c, longer) && Exec(c, longer) == Apply(Exec(c, run), step)
    ensures longer == run + [step]
    decreases |run|
  {
    longer := run + [step];
    if run == [] {
      assert longer[1..] == [];
    } else {
      var rest := After(Apply(c, run[0]), run[1..], step);
      assert longer[1..] == rest;
    }
  }

  // Hands out one delivery of the newest loop.
  lemma Delivers(c: Client, run: seq<Step>) returns (longer: seq<Step>)
    requires Legal(c, run) && |Exec(c, run).life.loops| > 0 && !Exec(c, run).life.ackNone
    requires var life := Exec(c, run).life;
             var l := life.loops[|life.loops| - 1];
             l.phase.Selecting? && !l.closed && l.unread == []
    ensures Legal(c, longer)
    ensures var life := Exec(c, run).life;
            var n := |life.loops| - 1;
            var l := life.loops[n];
            var handed := l.(phase := L.Handling(0), sent := l.sent + [0], taken := l.taken + [0]);
            Exec(c, longer) == Exec(c, run).(
              life := life.(loops := life.loops[n := handed], stamps := life.stamps + [L.Stamp(n, life.f.epoch)]))
  {
    var life := Exec(c, run).life;
    var n := |life.loops| - 1;
    var l := life.loops[n];
    assert (l.unread + [0])[1..] == [];
    longer := After(c, run, Moves(L.LoopStep(n, L.Sends(0))));
    longer := After(c, longer, Moves(L.LoopStep(n, L.Takes)));
    longer := After(c, longer, Moves(L.LoopStep(n, L.Stamps)));
    var handed := l.(phase := L.Handling(0), sent := l.sent + [0], taken := l.taken + [0]);
    assert Exec(c, longer).life.loops == life.loops[n := handed];
  }

  // A receiver with a delivery in hand whose channel has died.
  lemma ChannelDies() returns (run: seq<Step>)
    ensures Legal(Initial(false), run)
    ensures Exec(Initial(false), run) ==
            Client(
              L.State(
                L.Fields(Some(0), Some(0), Some(0), Some(0), false, 0, None),
                [L.Loop(0, L.Handling(0), false, false, true, [0], [], [0], false)],
                0, [], [], [L.Stamp(0, 0)], false),
              SupSettled, [], NotEnding)
  {
    var c := Initial(false);
    run := After(c, [], SupStep(SupStart(Checks)));
    run := After(c, run, SupStep(SupStart(Installs(0))));
    run := Delivers(c, run);
    assert [] + [0] == [0] && [] + [L.Stamp(0, 0)] == [L.Stamp(0, 0)];
    run := After(c, run, Moves(L.LoopStep(0, L.Ends)));
    assert Exec(c, run).life.loops == [L.Loop(0, L.Handling(0), false, false, true, [0], [], [0], false)];
  }

  // A recovery is in its Stop, waiting for the handler.
  lemma RecoveryWaits() returns (run: seq<Step>)
    ensures Legal(Initial(false), run)
    ensures Exec(Initial(false), run) ==
            Client(
              L.State(
                L.Fields(None, None, None, None, false, 0, None),
                [L.Loop(0, L.Handling(0), true, true, true, [0], [], [0], false)],
                0, [L.StopWaiting(0, 0)], [], [L.Stamp(0, 0)], false),
              SupSettled, [Stopping(0)], NotEnding)
  {
    var c := Initial(false);
    run := ChannelDies();
    run := After(c, run, RecoveryStep(0, Begins));
    run := After(c, run, RecoveryStep(0, Resets));
    run := After(c, run, Moves(L.StopStep(0, L.CancelsWork)));
    run := After(c, run, Moves(L.StopStep(0, L.ChecksDrain)));
  }

  // The connection drops meanwhile: the reconnect goroutine finds nothing to stop, and
  // starts the receiver on its new channel.
  lemma ReconnectStarts() returns (run: seq<Step>)
    ensures Legal(Initial(false), run)
    ensures Exec(Initial(false), run) ==
            Client(
              L.State(
                L.Fields(Some(1), Some(1), Some(1), Some(1), false, 0, None),
                [L.Loop(0, L.Handling(0), true, true, true, [0], [], [0], false),
                 L.Loop(1, L.Selecting, false, false, false, [], [], [], false)],
                0, [L.StopWaiting(0, 0), L.StopReturned(None, false)], [], [L.Stamp(0, 0)], false),
              SupSettled, [Stopping(0)], NotEnding)
  {
    var c := Initial(false);
    run := RecoveryWaits();
    run := After(c, run, SupStep(SupStops));
    run := After(c, run, Moves(L.StopStep(1, L.ReturnsNothingToStop)));
    run := After(c, run, SupStep(SupReturns));
    run := After(c, run, SupStep(SupStart(Checks)));
    run := After(c, run, SupStep(SupStart(Installs(1))));
  }

  // Tags of two channels then read valid together.
  lemma ReconnectBreaksRule() returns (run: seq<Step>)
    ensures Legal(Initial(false), run) && !Uncontended(Initial(false), run)
    ensures var life := Exec(Initial(false), run).life;
            && life.stamps == [L.Stamp(0, 0), L.Stamp(1, 0)]
            && Safety.ReadsValid(life, 0) && Safety.ReadsValid(life, 1)
  {
    run := ReconnectStarts();
    run := Delivers(Initial(false), run);
    if Uncontended(Initial(false), run) {
      UncontendedTagsShareAChannel(false, run, 0, 1);
    }
  }
}
