/** The client's connection supervisor (client/client.go) as a transition system: one
    reconnect goroutine, any number of channel recoveries that nobody joins, and Stop.
    Each step is one critical section, one call on a sender or receiver, or one answer
    of the broker. */
module Supervisor {
  import opened Options

  // ------------------------------------------------------------------ state

  // A channel, and the connection it was opened on.
  datatype Chan = Chan(conn: nat, serial: nat)

  datatype Kind = Sender | Receiver

  // `live`: what each sender has installed, what each receiver was started on and not
  // stopped since.
  // `recorded`: senderChs or receiverChs.
  datatype Side = Side(live: seq<Option<Chan>>, recorded: seq<Chan>)

  datatype Ends = Ends(senders: Side, receivers: Side)

  // The reconnect goroutine. `initial`: no connection has been made yet.
  datatype Sup =
    | NotStarted
    | Dialing(initial: bool)
    | SettingUp(initial: bool, conn: nat, schs: seq<Chan>, rchs: seq<Chan>)
    | CleaningUp(initial: bool, conn: nat, cleared: nat)
    | Recorded(initial: bool, conn: nat)          // setupChannels returned nil
    | Announcing(initial: bool)                   // connected, OnConnect about to fire
    | Watching
    | Disconnecting(cleared: nat, was: bool)      // handleDisconnect, past its lock
    | Exited

  // The Stop that found the client started; every other Stop returns from its first section.
  datatype StopPc =
    | NoStop
    | Joining
    | StoppingReceivers(cleared: nat)
    | StopAnnouncing(was: bool)
    | StoppingSenders(cleared: nat)
    | Stopped

  // One recovery of a channel that died on its own.
  datatype Recovery = Recovery(kind: Kind, idx: nat, pc: RecoveryPc)

  datatype RecoveryPc =
    | Read(conn: nat)          // saw the client connected on conn
    | Reset(conn: nat)         // a receiver's: stopped the receiver
    | Checked(conn: nat)       // found the client not drained a second time, about to start it
    | Starting(conn: nat)      // in the receiver's Start, past its check of the receiver
    | Installed(ch: Chan)
    | Over

  datatype Event = OnConnect | OnDisconnect

  datatype State = State(
    started: bool,
    stopping: bool,
    drained: bool,
    cancelled: bool,
    connected: bool,
    conn: Option<nat>,
    ends: Ends,
    drainedReceivers: set<nat>,
    sup: Sup,
    stop: StopPc,
    recoveries: seq<Recovery>,
    nextConn: nat,
    nextSerial: nat,
    log: seq<Event>,
    reconnections: nat)

  function Initial(senders: nat, receivers: nat): State {
    State(false, false, false, false, false, None,
          Ends(Side(seq(senders, _ => None), []), Side(seq(receivers, _ => None), [])), {},
          NotStarted, NoStop, [], 0, 0, [], 0)
  }

  // ------------------------------------------------------------------ steps

  datatype Call = Start | Drain | Stop

  datatype SetupAct =
    | DialFails | DialOk | GivesUp
    | OpensSender(confirms: bool)
    | OpensReceiver(skipped: bool, starts: bool)  // skipped: isDrained answered yes
    | SetupFails | RedialsAfterSetup | RecordsChannels

  datatype WatchAct =
    | PublishesConnection | FiresOnConnect | SeesClose | LeavesWatch
    | ClearsNext  // one endpoint, after a failed setup or a lost connection
    | FinishesDisconnect

  datatype EndAct =
    | JoinsSupervisor | StopsReceiver | MarksDisconnected | FiresOnDisconnect | StopsSender | TakesChannels

  datatype RecoveryAct =
    | Begins(kind: Kind, idx: nat)       // a new recovery goes last
    | Declines(receiver: nat)            // the client is drained; its Stop may come long after the check
    | Resets | ChecksDrain | Starts | Installs(confirms: bool) | Fails | Commits

  // Who moves: a caller, the i-th receiver's own Drain taking its lock (the client's Drain
  // runs one for each), the reconnect goroutine (connecting or watching), the effective
  // Stop, or the t-th recovery.
  datatype Step =
    | CallStep(call: Call)
    | DrainStep(i: nat)
    | SetupStep(setup: SetupAct)
    | WatchStep(watch: WatchAct)
    | EndStep(end: EndAct)
    | RecoveryStep(t: nat, act: RecoveryAct)

  function SideIn(ends: Ends, kind: Kind): Side {
    if kind.Sender? then ends.senders else ends.receivers
  }

  function WithSide(ends: Ends, kind: Kind, side: Side): Ends {
    if kind.Sender? then ends.(senders := side) else ends.(receivers := side)
  }

  function SideOf(s: State, kind: Kind): Side { SideIn(s.ends, kind) }

  // SetChannel on a sender; Start or Stop on a receiver.
  function Put(s: State, kind: Kind, i: nat, live: Option<Chan>): State
    requires i < |SideOf(s, kind).live|
  {
    s.(ends := PutIn(s.ends, kind, i, live))
  }

  function PutIn(ends: Ends, kind: Kind, i: nat, live: Option<Chan>): Ends
    requires i < |SideIn(ends, kind).live|
  {
    var side := SideIn(ends, kind);
    WithSide(ends, kind, side.(live := side.live[i := live]))
  }

  // The client stops receivers first and disconnects senders after.
  function Endpoints(s: State): nat { |s.ends.receivers.live| + |s.ends.senders.live| }

  function Clear(s: State, k: nat): State
    requires k < Endpoints(s)
  {
    if k < |s.ends.receivers.live| then Put(s, Receiver, k, None)
    else Put(s, Sender, k - |s.ends.receivers.live|, None)
  }

  predicate CanCall(s: State, call: Call) { call.Start? ==> !s.started }

  function ApplyCall(s: State, call: Call): State
    requires CanCall(s, call)
  {
    match call
    case Start => s.(started := true, sup := Dialing(true))
    case Drain => s.(drained := true)
    case Stop =>
      if s.stopping || !s.started then s.(drained := true, stopping := true)
      else s.(drained := true, stopping := true, cancelled := true, stop := Joining)
  }

  predicate CanSetup(s: State, act: SetupAct) {
    match act
    case DialFails => s.sup.Dialing?
    case DialOk => s.sup.Dialing?
    case GivesUp => s.sup.Dialing? && (s.cancelled || !s.sup.initial)
    case OpensSender(_) => s.sup.SettingUp? && |s.sup.schs| < |s.ends.senders.live|
    case OpensReceiver(skipped, _) =>
      && (skipped ==> s.drained) && s.sup.SettingUp?
      && |s.sup.schs| == |s.ends.senders.live| && |s.sup.rchs| < |s.ends.receivers.live|
    case SetupFails => s.sup.SettingUp? && |s.sup.schs| + |s.sup.rchs| < Endpoints(s)
    case RedialsAfterSetup => s.sup.CleaningUp? && s.sup.cleared == Endpoints(s)
    case RecordsChannels =>
      s.sup.SettingUp? && |s.sup.schs| == |s.ends.senders.live| && |s.sup.rchs| == |s.ends.receivers.live|
  }

  predicate Startable(s: State, i: nat)
    requires i < |s.ends.receivers.live|
  {
    i !in s.drainedReceivers && s.ends.receivers.live[i].None?
  }

  function OpenReceiver(s: State, skipped: bool, starts: bool): State
    requires CanSetup(s, OpensReceiver(skipped, starts))
  {
    var ch, i := Chan(s.sup.conn, s.nextSerial), |s.sup.rchs|;
    var s' := s.(nextSerial := s.nextSerial + 1);
    if skipped then s'.(sup := s.sup.(rchs := s.sup.rchs + [ch]))
    // A receiver refuses to start once drained, or while it is started.
    else if starts && Startable(s, i) then Put(s', Receiver, i, Some(ch)).(sup := s.sup.(rchs := s.sup.rchs + [ch]))
    else s'.(sup := CleaningUp(s.sup.initial, s.sup.conn, 0))
  }

  function OpenSender(s: State, confirms: bool): State
    requires CanSetup(s, OpensSender(confirms))
  {
    var ch := Chan(s.sup.conn, s.nextSerial);
    Put(s, Sender, |s.sup.schs|, if confirms then Some(ch) else None)
      .(sup := s.sup.(schs := s.sup.schs + [ch]), nextSerial := s.nextSerial + 1)
  }

  function ApplySetup(s: State, act: SetupAct): State
    requires CanSetup(s, act)
  {
    match act
    case DialFails => s
    case DialOk => s.(sup := SettingUp(s.sup.initial, s.nextConn, [], []), nextConn := s.nextConn + 1)
    case GivesUp => s.(sup := Exited)
    case OpensSender(confirms) => OpenSender(s, confirms)
    case OpensReceiver(skipped, starts) => OpenReceiver(s, skipped, starts)
    case SetupFails => s.(sup := CleaningUp(s.sup.initial, s.sup.conn, 0))
    case RedialsAfterSetup => s.(sup := Dialing(s.sup.initial))
    case RecordsChannels => s.(
      ends := Ends(s.ends.senders.(recorded := s.sup.schs), s.ends.receivers.(recorded := s.sup.rchs)),
      sup := Recorded(s.sup.initial, s.sup.conn))
  }

  predicate CanWatch(s: State, act: WatchAct) {
    match act
    case PublishesConnection => s.sup.Recorded?
    case FiresOnConnect => s.sup.Announcing?
    case SeesClose => s.sup.Watching?
    case LeavesWatch => s.sup.Watching?
    case ClearsNext => (s.sup.CleaningUp? || s.sup.Disconnecting?) && s.sup.cleared < Endpoints(s)
    case FinishesDisconnect => s.sup.Disconnecting? && s.sup.cleared == Endpoints(s)
  }

  function ApplyWatch(s: State, act: WatchAct): State
    requires CanWatch(s, act)
  {
    match act
    case PublishesConnection => s.(conn := Some(s.sup.conn), connected := true, sup := Announcing(s.sup.initial))
    case FiresOnConnect => s.(
      log := s.log + [OnConnect],
      reconnections := s.reconnections + (if s.sup.initial then 0 else 1),
      sup := Watching)
    case SeesClose => s.(connected := false, sup := Disconnecting(0, s.connected))
    case LeavesWatch => s.(sup := Exited)
    case ClearsNext => Clear(s, s.sup.cleared).(sup := s.sup.(cleared := s.sup.cleared + 1))
    case FinishesDisconnect => s.(log := if s.sup.was then s.log + [OnDisconnect] else s.log, sup := Dialing(false))
  }

  predicate CanEnd(s: State, act: EndAct) {
    match act
    case JoinsSupervisor => s.stop.Joining? && s.sup.Exited?
    case StopsReceiver => s.stop.StoppingReceivers? && s.stop.cleared < |s.ends.receivers.live|
    case MarksDisconnected => s.stop.StoppingReceivers? && s.stop.cleared == |s.ends.receivers.live|
    case FiresOnDisconnect => s.stop.StopAnnouncing?
    case StopsSender => s.stop.StoppingSenders? && s.stop.cleared < |s.ends.senders.live|
    case TakesChannels => s.stop.StoppingSenders? && s.stop.cleared == |s.ends.senders.live|
  }

  function ApplyEnd(s: State, act: EndAct): State
    requires CanEnd(s, act)
  {
    match act
    case JoinsSupervisor => s.(stop := StoppingReceivers(0))
    case StopsReceiver => Put(s, Receiver, s.stop.cleared, None).(stop := StoppingReceivers(s.stop.cleared + 1))
    case MarksDisconnected => s.(connected := false, stop := StopAnnouncing(s.connected))
    case FiresOnDisconnect => s.(
      log := if s.stop.was then s.log + [OnDisconnect] else s.log,
      stop := StoppingSenders(0))
    case StopsSender => Put(s, Sender, s.stop.cleared, None).(stop := StoppingSenders(s.stop.cleared + 1))
    case TakesChannels => s.(
      conn := None,
      ends := Ends(s.ends.senders.(recorded := []), s.ends.receivers.(recorded := [])),
      stop := Stopped)
  }

  predicate CanContinue(s: State, r: Recovery, act: RecoveryAct) {
    && r.idx < |SideOf(s, r.kind).live|
    && (act.Resets? ==> r.kind.Receiver? && r.pc.Read?)
    && (act.ChecksDrain? ==> r.kind.Receiver? && r.pc.Reset? && !s.drained)
    && (act.Starts? ==> r.kind.Receiver? && r.pc.Checked? && Startable(s, r.idx))
    && (act.Installs? ==> if r.kind.Sender? then r.pc.Read? else r.pc.Starting?)
    && (act.Fails? ==> r.pc.Read? || r.pc.Reset? || r.pc.Checked? || r.pc.Starting?)
    && (act.Commits? ==> r.pc.Installed?)
  }

  predicate CanRecover(s: State, t: nat, act: RecoveryAct) {
    if act.Begins? then
      t == |s.recoveries| && s.connected && s.conn.Some? && act.idx < |SideOf(s, act.kind).live| &&
          (act.kind.Receiver? ==> !s.drained)
    else if act.Declines? then s.drained && act.receiver < |s.ends.receivers.live|
    else t < |s.recoveries| && CanContinue(s, s.recoveries[t], act)
  }

  function WithRecovery(s: State, t: nat, pc: RecoveryPc): State
    requires t < |s.recoveries|
  {
    s.(recoveries := s.recoveries[t := s.recoveries[t].(pc := pc)])
  }

  // The last section of a recovery: kept if the connection is still the one it was made
  // on, taken out again otherwise.
  function CommitRecovery(s: State, t: nat): State
    requires CanRecover(s, t, Commits)
  {
    var r := s.recoveries[t];
    var s' := WithRecovery(s, t, Over);
    var side := SideOf(s, r.kind);
    if s.conn != Some(r.pc.ch.conn) || !s.connected then Put(s', r.kind, r.idx, None)
    else if r.idx < |side.recorded| then
      s'.(ends := WithSide(s.ends, r.kind, side.(recorded := side.recorded[r.idx := r.pc.ch])))
    else s'
  }

  function ApplyRecovery(s: State, t: nat, act: RecoveryAct): State
    requires CanRecover(s, t, act)
  {
    match act
    case Begins(kind, idx) => s.(recoveries := s.recoveries + [Recovery(kind, idx, Read(s.conn.value))])
    case Declines(receiver) => Put(s, Receiver, receiver, None)
    case Resets => WithRecovery(Put(s, Receiver, s.recoveries[t].idx, None), t, Reset(s.recoveries[t].pc.conn))
    case Starts => WithRecovery(s, t, Starting(s.recoveries[t].pc.conn))
    case ChecksDrain => WithRecovery(s, t, Checked(s.recoveries[t].pc.conn))
    case Installs(confirms) =>
      var r := s.recoveries[t];
      var ch := Chan(r.pc.conn, s.nextSerial);
      WithRecovery(Put(s, r.kind, r.idx, if confirms || r.kind.Receiver? then Some(ch) else None), t, Installed(ch))
        .(nextSerial := s.nextSerial + 1)
    case Fails => WithRecovery(s, t, Over)
    case Commits => CommitRecovery(s, t)
  }

  predicate Enabled(s: State, step: Step) {
    match step
    case CallStep(call) => CanCall(s, call)
    case DrainStep(i) => i < |s.ends.receivers.live|
    case SetupStep(act) => CanSetup(s, act)
    case WatchStep(act) => CanWatch(s, act)
    case EndStep(act) => CanEnd(s, act)
    case RecoveryStep(t, act) => CanRecover(s, t, act)
  }

  function Apply(s: State, step: Step): State
    requires Enabled(s, step)
  {
    match step
    case CallStep(call) => ApplyCall(s, call)
    case DrainStep(i) => s.(drainedReceivers := s.drainedReceivers + {i})
    case SetupStep(act) => ApplySetup(s, act)
    case WatchStep(act) => ApplyWatch(s, act)
    case EndStep(act) => ApplyEnd(s, act)
    case RecoveryStep(t, act) => ApplyRecovery(s, t, act)
  }

  ghost predicate Legal(s: State, run: seq<Step>)
    decreases |run|
  {
    run == [] || (Enabled(s, run[0]) && Legal(Apply(s, run[0]), run[1..]))
  }

  function Exec(s: State, run: seq<Step>): State
    requires Legal(s, run)
    decreases |run|
  {
    if run == [] then s else Exec(Apply(s, run[0]), run[1..])
  }
}
