/** The life of one receiver (Start, Drain, Stop and runLoop in receiver/receiver.go)
    as a transition system. Each step is one critical section, one atomic access or
    one event outside the process; any number of Drains and Stops overlap. */
module ReceiverLifecycle {
  import opened Options

  // ------------------------------------------------------------------ state

  // Each Start that succeeds opens a cycle; cycles are numbered from 0. A cancel
  // function or a done channel is named by the cycle that made it.
  type CycleId = nat

  // The fields of RMQReceiver.
  datatype Fields = Fields(
    stopRead: Option<CycleId>,
    stopWork: Option<CycleId>,
    loopDone: Option<CycleId>,
    ch: Option<nat>,
    drained: bool,
    epoch: nat,
    stillDelivering: Option<CycleId>)

  datatype Phase =
    | Selecting             // at the select
    | Taken(msg: nat)       // handleDelivery entered, no settler yet
    | Handling(msg: nat)    // the settler is built, the subscriber may be running
    | Exited(atEnd: bool)   // done is closed; atEnd: left because the deliveries ended

  // One delivery loop and what it reads. `sent`, `taken` and `fellBack` are history:
  // all the broker sent, all the loop took off, and whether the cycle's Drain had to
  // fall back on cancelling the read context.
  datatype Loop = Loop(
    channel: nat,
    phase: Phase,
    readCancelled: bool,
    workCancelled: bool,
    closed: bool,
    sent: seq<nat>,
    unread: seq<nat>,
    taken: seq<nat>,
    fellBack: bool)

  // The settle epoch a delivery was stamped with, and the cycle it came from.
  datatype Stamp = Stamp(cycle: CycleId, epoch: nat)

  datatype StopPc =
    | StopTook(work: Option<CycleId>, done: Option<CycleId>)
    | StopCancelled(cycle: CycleId, done: Option<CycleId>)
    | StopWaiting(cycle: CycleId, joined: CycleId)
    | StopBumping(cycle: CycleId, gaveUp: bool)
    | StopReturned(took: Option<CycleId>, failed: bool)

  datatype DrainPc =
    | DrainIdle                                                             // stopRead was nil
    | DrainWithdrawing(cycle: CycleId, ch: Option<nat>, done: Option<CycleId>)
    | DrainWithdrew(cycle: CycleId, done: Option<CycleId>)
    | DrainWaiting(cycle: CycleId, joined: CycleId)
    | DrainReturned(took: Option<CycleId>, ok: bool)

  // `expired`: the caller's context is done. `inGap`: some Start was between its check
  // and its install when this Drain took the lock.
  datatype Drain = Drain(pc: DrainPc, expired: bool, inGap: bool)

  datatype State = State(
    f: Fields,
    loops: seq<Loop>,
    starting: nat,          // Starts past their check and not yet installed or failed
    stops: seq<StopPc>,
    drains: seq<Drain>,
    stamps: seq<Stamp>,
    ackNone: bool)

  function Initial(ackNone: bool): State {
    State(Fields(None, None, None, None, false, 0, None), [], 0, [], [], [], ackNone)
  }

  // stillRunning
  predicate StillRunning(s: State) {
    && s.f.stillDelivering.Some?
    && s.f.stillDelivering.value < |s.loops|
    && !s.loops[s.f.stillDelivering.value].phase.Exited?
  }

  // ------------------------------------------------------ the lock sections

  function TakeForStop(f: Fields): Fields {
    f.(stopRead := None, stopWork := None, loopDone := None, ch := None)
  }

  function TakeForDrain(f: Fields): Fields {
    if f.stopRead.None? then f.(drained := true)
    else f.(drained := true, stopRead := None,
            stillDelivering := if f.loopDone.Some? then f.loopDone else f.stillDelivering)
  }

  predicate StartAdmitted(f: Fields) { !f.drained && f.stopWork.None? }

  function Install(f: Fields, cycle: CycleId, ch: nat): Fields {
    f.(stopWork := Some(cycle), stopRead := Some(cycle), loopDone := Some(cycle), ch := Some(ch))
  }

  // ------------------------------------------------------------------ steps

  datatype StartAct = Check | Fails | Installs(ch: nat)

  datatype DrainAct =
    | TakesDrain(expired: bool)      // the critical section; a new Drain goes last
    | ReturnsIdle
    | CancelAccepted | CancelRefused | CancelLate | NoChannel
    | PastDeadline | Waits | SeesDone | GivesUp
    | Expires                        // the caller's context is done

  datatype StopAct = TakesStop | ReturnsNothingToStop | CancelsWork | ChecksDrain | Joins | Bumps

  datatype LoopAct =
    | Sends(msg: nat) | Ends | ParentCancelled      // the broker; the client's context
    | Takes | Stamps | Finishes | ExitsCancelled | ExitsAtEnd

  // Who moves: a Start, the d-th Drain, the i-th Stop, or something at cycle c.
  datatype Step =
    | StartStep(start: StartAct)
    | DrainStep(d: nat, drain: DrainAct)
    | StopStep(i: nat, stop: StopAct)
    | LoopStep(c: CycleId, act: LoopAct)

  predicate LoopExited(s: State, c: CycleId) { c < |s.loops| && s.loops[c].phase.Exited? }

  predicate CanStart(s: State, act: StartAct) { act.Check? || s.starting > 0 }

  predicate CanDrain(s: State, d: nat, act: DrainAct) {
    if act.TakesDrain? then d == |s.drains|
    else
      d < |s.drains| &&
      var pc := s.drains[d].pc;
      match act
      case ReturnsIdle => pc.DrainIdle?
      case CancelAccepted => pc.DrainWithdrawing? && pc.ch.Some?
      case CancelRefused => pc.DrainWithdrawing? && pc.ch.Some?
      case CancelLate => pc.DrainWithdrawing? && pc.ch.Some? && s.drains[d].expired
      case NoChannel => pc.DrainWithdrawing? && pc.ch.None?
      case PastDeadline => pc.DrainWithdrew? && s.drains[d].expired
      case Waits => pc.DrainWithdrew? && !s.drains[d].expired
      case SeesDone => pc.DrainWaiting? && LoopExited(s, pc.joined)
      case GivesUp => pc.DrainWaiting? && s.drains[d].expired
      case _ => true
  }

  predicate CanStop(s: State, i: nat, act: StopAct) {
    if act.TakesStop? then i == |s.stops|
    else
      i < |s.stops| &&
      var pc := s.stops[i];
      match act
      case ReturnsNothingToStop => pc.StopTook? && pc.work.None?
      case CancelsWork => pc.StopTook? && pc.work.Some?
      case ChecksDrain => pc.StopCancelled?
      case Joins => pc.StopWaiting? && LoopExited(s, pc.joined)
      case Bumps => pc.StopBumping?
  }

  predicate CanLoop(l: Loop, act: LoopAct) {
    match act
    case Sends(_) => !l.closed
    case Ends => true
    case ParentCancelled => true
    case Takes => l.phase.Selecting? && l.unread != []
    case Stamps => l.phase.Taken?
    case Finishes => l.phase.Handling?
    case ExitsCancelled => l.phase.Selecting? && l.readCancelled
    case ExitsAtEnd => l.phase.Selecting? && l.closed && l.unread == []
  }

  predicate Enabled(s: State, step: Step) {
    match step
    case StartStep(act) => CanStart(s, act)
    case DrainStep(d, act) => CanDrain(s, d, act)
    case StopStep(i, act) => CanStop(s, i, act)
    case LoopStep(c, act) => c < |s.loops| && CanLoop(s.loops[c], act)
  }

  // stopRead(); `fallback`: by a Drain that could not withdraw the consumer.
  function ReadCancelled(l: Loop, fallback: bool): Loop {
    l.(readCancelled := true, fellBack := l.fellBack || fallback)
  }

  // stopWork(): the read context is derived from the work context.
  function WorkCancelled(l: Loop): Loop {
    l.(readCancelled := true, workCancelled := true)
  }

  function WithLoop(s: State, c: CycleId, l: Loop): State
    requires c < |s.loops|
  {
    s.(loops := s.loops[c := l])
  }

  function WithDrain(s: State, d: nat, pc: DrainPc): State
    requires d < |s.drains|
  {
    s.(drains := s.drains[d := s.drains[d].(pc := pc)])
  }

  function WithStop(s: State, i: nat, pc: StopPc): State
    requires i < |s.stops|
  {
    s.(stops := s.stops[i := pc])
  }

  function ApplyStart(s: State, act: StartAct): State
    requires CanStart(s, act)
  {
    match act
    case Check => if StartAdmitted(s.f) then s.(starting := s.starting + 1) else s
    case Fails => s.(starting := s.starting - 1)
    case Installs(ch) => s.(
      starting := s.starting - 1,
      f := Install(s.f, |s.loops|, ch),
      loops := s.loops + [Loop(ch, Selecting, false, false, false, [], [], [], false)])
  }

  function TakeDrain(s: State, expired: bool): State {
    s.(f := TakeForDrain(s.f),
       drains := s.drains + [Drain(
         if s.f.stopRead.None? then DrainIdle else DrainWithdrawing(s.f.stopRead.value, s.f.ch, s.f.loopDone),
         expired, s.starting > 0)])
  }

  // A Drain's effect on the cycle it took.
  function DrainsLoop(l: Loop, act: DrainAct): Loop {
    match act
    case CancelAccepted => l.(closed := true)  // the deliveries end behind what was already sent
    case CancelRefused => ReadCancelled(l, true)
    case CancelLate => ReadCancelled(l, true)
    case NoChannel => ReadCancelled(l, true)
    case SeesDone => ReadCancelled(l, false)
    case _ => l
  }

  function NextDrainPc(s: State, d: nat, act: DrainAct): DrainPc
    requires CanDrain(s, d, act) && !act.TakesDrain?
  {
    var pc := s.drains[d].pc;
    match act
    case ReturnsIdle => DrainReturned(None, !StillRunning(s))
    case PastDeadline => DrainReturned(Some(pc.cycle), false)
    case Waits => if pc.done.None? then DrainReturned(Some(pc.cycle), true) else DrainWaiting(pc.cycle, pc.done.value)
    case SeesDone => DrainReturned(Some(pc.cycle), true)
    case GivesUp => DrainReturned(Some(pc.cycle), false)
    case CancelAccepted => DrainWithdrew(pc.cycle, pc.done)
    case CancelRefused => DrainWithdrew(pc.cycle, pc.done)
    case CancelLate => DrainWithdrew(pc.cycle, pc.done)
    case NoChannel => DrainWithdrew(pc.cycle, pc.done)
    case _ => pc
  }

  function ApplyDrain(s: State, d: nat, act: DrainAct): State
    requires CanDrain(s, d, act)
  {
    if act.TakesDrain? then TakeDrain(s, act.expired)
    else if act.Expires? then s.(drains := s.drains[d := s.drains[d].(expired := true)])
    else
      var pc := s.drains[d].pc;
      var s' := if !pc.DrainIdle? && pc.cycle < |s.loops|
                then WithLoop(s, pc.cycle, DrainsLoop(s.loops[pc.cycle], act)) else s;
      WithDrain(s', d, NextDrainPc(s, d, act))
  }

  function NextStopPc(s: State, i: nat, act: StopAct): StopPc
    requires CanStop(s, i, act) && !act.TakesStop?
  {
    var pc := s.stops[i];
    match act
    case ReturnsNothingToStop => StopReturned(None, StillRunning(s))
    case CancelsWork => StopCancelled(pc.work.value, pc.done)
    case ChecksDrain =>
      if StillRunning(s) then StopBumping(pc.cycle, true)
      else if pc.done.Some? then StopWaiting(pc.cycle, pc.done.value)
      else StopBumping(pc.cycle, false)
    case Joins => StopBumping(pc.cycle, false)
    case Bumps => StopReturned(Some(pc.cycle), pc.gaveUp)
  }

  function ApplyStop(s: State, i: nat, act: StopAct): State
    requires CanStop(s, i, act)
  {
    if act.TakesStop? then
      s.(f := TakeForStop(s.f), stops := s.stops + [StopTook(s.f.stopWork, s.f.loopDone)])
    else
      var pc := NextStopPc(s, i, act);
      var s' := WithStop(s, i, pc);
      if act.Bumps? then s'.(f := s.f.(epoch := s.f.epoch + 1))
      else if act.CancelsWork? && pc.cycle < |s.loops| then WithLoop(s', pc.cycle, WorkCancelled(s.loops[pc.cycle]))
      else s'
  }

  function NextLoop(l: Loop, act: LoopAct): Loop
    requires CanLoop(l, act)
  {
    match act
    case Sends(msg) => l.(sent := l.sent + [msg], unread := l.unread + [msg])
    case Ends => l.(closed := true)
    case ParentCancelled => WorkCancelled(l)
    case Takes => l.(phase := Taken(l.unread[0]), unread := l.unread[1..], taken := l.taken + [l.unread[0]])
    case Stamps => l.(phase := Handling(l.phase.msg))
    case Finishes => l.(phase := Selecting)
    case ExitsCancelled => l.(phase := Exited(false))
    case ExitsAtEnd => l.(phase := Exited(true))
  }

  function ApplyLoop(s: State, c: CycleId, act: LoopAct): State
    requires c < |s.loops| && CanLoop(s.loops[c], act)
  {
    var s' := WithLoop(s, c, NextLoop(s.loops[c], act));
    // newSettler stamps a delivery unless the broker settles deliveries as it sends them.
    if act.Stamps? && !s.ackNone then s'.(stamps := s.stamps + [Stamp(c, s.f.epoch)]) else s'
  }

  function Apply(s: State, step: Step): State
    requires Enabled(s, step)
  {
    match step
    case StartStep(act) => ApplyStart(s, act)
    case DrainStep(d, act) => ApplyDrain(s, d, act)
    case StopStep(i, act) => ApplyStop(s, i, act)
    case LoopStep(c, act) => ApplyLoop(s, c, act)
  }

  // ------------------------------------------------------------------- runs

  // A Stop that took a started cycle and has not moved the epoch yet.
  predicate Unbumped(pc: StopPc) {
    (pc.StopTook? && pc.work.Some?) || pc.StopCancelled? || pc.StopWaiting? || pc.StopBumping?
  }

  // What callers owe: a Start begins only when no other Start is under way and
  // every earlier Stop of a started cycle is through.
  predicate Permitted(s: State, step: Step) {
    step == StartStep(Check) ==> s.starting == 0 && forall i :: 0 <= i < |s.stops| ==> !Unbumped(s.stops[i])
  }

  ghost predicate Legal(s: State, run: seq<Step>)
    decreases |run|
  {
    run == [] || (Enabled(s, run[0]) && Legal(Apply(s, run[0]), run[1..]))
  }

  ghost predicate Courteous(s: State, run: seq<Step>)
    requires Legal(s, run)
    decreases |run|
  {
    run == [] || (Permitted(s, run[0]) && Courteous(Apply(s, run[0]), run[1..]))
  }

  function Exec(s: State, run: seq<Step>): State
    requires Legal(s, run)
    decreases |run|
  {
    if run == [] then s else Exec(Apply(s, run[0]), run[1..])
  }
}
