/** What the client has on record of its endpoints' channels: after a recovery too, the
    channels in use. */
module SupervisorRecords {
  import opened Options
  import opened Supervisor
  import opened SupervisorSafety
  import opened SupervisorStop

  // ------------------------------------------------------------ one commit

  // A recovery whose connection is still the client's leaves its channel on record in
  // place of the dead one, and every other record alone.
  lemma KeptCommitRecords(s: State, t: nat)
    requires Reachable(s) && CanRecover(s, t, Commits)
    requires var ch := s.recoveries[t].pc.ch; s.connected && s.conn == Some(ch.conn)
    ensures var r, s' := s.recoveries[t], Apply(s, RecoveryStep(t, Commits));
            && r.idx < |SideOf(s, r.kind).recorded| == |SideOf(s, r.kind).live|
            && SideOf(s', r.kind).recorded == SideOf(s, r.kind).recorded[r.idx := r.pc.ch]
            && SideOf(s', r.kind).live == SideOf(s, r.kind).live
            && (forall kind :: kind != r.kind ==> SideOf(s', kind) == SideOf(s, kind))
            && s'.recoveries == s.recoveries[t := r.(pc := Over)]
  {
    ReachableInv(s);
  }

  // One whose connection is gone takes its endpoint off, and leaves every record alone.
  lemma LateCommitRollsBack(s: State, t: nat)
    requires CanRecover(s, t, Commits)
    requires var ch := s.recoveries[t].pc.ch; !s.connected || s.conn != Some(ch.conn)
    ensures var r, s' := s.recoveries[t], Apply(s, RecoveryStep(t, Commits));
            && SideOf(s', r.kind).live == SideOf(s, r.kind).live[r.idx := None]
            && SideOf(s', r.kind).recorded == SideOf(s, r.kind).recorded
            && (forall kind :: kind != r.kind ==> SideOf(s', kind) == SideOf(s, kind))
            && s'.recoveries == s.recoveries[t := r.(pc := Over)]
  {
  }

  // --------------------------------------------------------- other endpoints

  // A sender's new channel is installed when its confirm mode is granted, and goes on
  // record either way.
  lemma SenderOpened(s: State, confirms: bool)
    requires Reachable(s) && CanSetup(s, OpensSender(confirms))
    ensures var i, ch, s' := |s.sup.schs|, Chan(s.sup.conn, s.nextSerial), Apply(s, SetupStep(OpensSender(confirms)));
            && s'.sup.SettingUp? && s'.sup.schs == s.sup.schs + [ch] && s'.sup.rchs == s.sup.rchs
            && s'.ends.receivers == s.ends.receivers
            && s'.ends.senders.live == s.ends.senders.live[i := if confirms then Some(ch) else None]
  {
    ReachableInv(s);
  }

  // A receiver is started on its new channel unless the client is drained; one that
  // refuses, drained itself or started already, fails the setup.
  lemma ReceiverOpened(s: State, skipped: bool, starts: bool)
    requires Reachable(s) && CanSetup(s, OpensReceiver(skipped, starts))
    ensures var i, ch := |s.sup.rchs|, Chan(s.sup.conn, s.nextSerial);
            var s' := Apply(s, SetupStep(OpensReceiver(skipped, starts)));
            var started := !skipped && starts && i !in s.drainedReceivers && s.ends.receivers.live[i].None?;
            && (skipped ==> s.drained)
            && (skipped || started <==> s'.sup.SettingUp?) && (!s'.sup.SettingUp? ==> s'.sup.CleaningUp?)
            && (s'.sup.SettingUp? ==> s'.sup.rchs == s.sup.rchs + [ch] && s'.sup.schs == s.sup.schs)
            && s'.ends.senders == s.ends.senders
            && s'.ends.receivers.live ==
                 if started then s.ends.receivers.live[i := Some(ch)] else s.ends.receivers.live
  {
    ReachableInv(s);
  }

  // A recovery stops its receiver before anything else, also when it is declined.
  lemma RecoveryStopsFirst(s: State, t: nat, act: RecoveryAct)
    requires CanRecover(s, t, act) && (act.Resets? || act.Declines?)
    ensures var i, s' := if act.Declines? then act.receiver else s.recoveries[t].idx, Apply(s, RecoveryStep(t, act));
            && i < |s.ends.receivers.live|
            && s'.ends == s.ends.(receivers := s.ends.receivers.(live := s.ends.receivers.live[i := None]))
  {
  }

  // A recovery begins only while the client is connected, on its connection, and puts its
  // channel in place: a receiver's as it starts, a sender's when confirm mode is granted.
  lemma RecoveryBeginsConnected(s: State, t: nat, kind: Kind, idx: nat)
    requires CanRecover(s, t, Begins(kind, idx))
    ensures s.connected && s.conn.Some?
    ensures Apply(s, RecoveryStep(t, Begins(kind, idx))) ==
            s.(recoveries := s.recoveries + [Recovery(kind, idx, Read(s.conn.value))])
  {
  }

  lemma RecoveryInstalls(s: State, t: nat, confirms: bool)
    requires CanRecover(s, t, Installs(confirms))
    ensures var r, s' := s.recoveries[t], Apply(s, RecoveryStep(t, Installs(confirms)));
            var ch := Chan(r.pc.conn, s.nextSerial);
            && s'.recoveries == s.recoveries[t := r.(pc := Installed(ch))]
            && s'.nextSerial == s.nextSerial + 1
            && (r.kind.Sender? ==>
                  s'.ends.receivers == s.ends.receivers &&
                  s'.ends.senders.live == s.ends.senders.live[r.idx := if confirms then Some(ch) else None])
            && (r.kind.Receiver? ==>
                  s'.ends.senders == s.ends.senders &&
                  s'.ends.receivers.live == s.ends.receivers.live[r.idx := Some(ch)])
  {
  }

  // A receiver once drained is so for good.
  lemma {:induction false} DrainedStays(s: State, run: seq<Step>, i: nat)
    requires Legal(s, run) && (i in s.drainedReceivers || DrainStep(i) in run)
    ensures i in Exec(s, run).drainedReceivers
    decreases |run|
  {
    if run != [] {
      DrainedOnlyGrows(s, run[0]);
      assert DrainStep(i) in run ==> run[0] == DrainStep(i) || DrainStep(i) in run[1..];
      DrainedStays(Apply(s, run[0]), run[1..], i);
    }
  }

  lemma DrainedOnlyGrows(s: State, step: Step)
    requires Enabled(s, step)
    ensures s.drainedReceivers <= Apply(s, step).drainedReceivers
    ensures step.DrainStep? ==> step.i in Apply(s, step).drainedReceivers
  {
    match step
    case CallStep(_) =>
    case DrainStep(_) =>
    case SetupStep(act) => SetupKeepsReceivers(s, act);
    case WatchStep(act) => WatchKeepsReceivers(s, act);
    case EndStep(act) => EndKeepsReceivers(s, act);
    case RecoveryStep(t, act) => if act.Commits? { CommitTouches(s, t); } else { RecoveryKeepsSpine(s, t, act); }
  }

  // ------------------------------------------------------ after the client's Drain

  // Past its second check, a recovery no longer asks whether the client is drained.
  predicate PastChecks(r: Recovery) { r.pc.Checked? || r.pc.Starting? || r.pc.Installed? }

  lemma RecoveryAfterDrain(s: State, t: nat, act: RecoveryAct, u: nat)
    requires s.drained && CanRecover(s, t, act) && u < |ApplyRecovery(s, t, act).recoveries|
    ensures var r := ApplyRecovery(s, t, act).recoveries[u];
            && (u >= |s.recoveries| ==> r.kind.Sender?)
            && (u < |s.recoveries| ==> r.kind == s.recoveries[u].kind && r.idx == s.recoveries[u].idx)
            && (u < |s.recoveries| && r.kind.Receiver? && PastChecks(r) ==> PastChecks(s.recoveries[u]))
  {
    if act.Commits? {
      CommitTouches(s, t);
    } else if !act.Begins? && !act.Declines? {
      RecoveryMoves(s, t, act);
    }
  }

  lemma OthersAfterDrain(s: State, step: Step)
    requires Enabled(s, step) && !step.RecoveryStep?
    ensures Apply(s, step).recoveries == s.recoveries && (s.drained ==> Apply(s, step).drained)
  {
    match step
    case CallStep(_) =>
    case DrainStep(_) =>
    case SetupStep(act) => SetupKeepsReceivers(s, act); SetupKeepsFlag(s, act);
    case WatchStep(act) => WatchKeepsReceivers(s, act); WatchKeepsFlag(s, act);
    case EndStep(act) => EndKeepsReceivers(s, act);
  }

  lemma SetupKeepsFlag(s: State, act: SetupAct)
    requires CanSetup(s, act)
    ensures ApplySetup(s, act).drained == s.drained
  {
    match act
    case OpensSender(confirms) => OpenSenderTouches(s, confirms);
    case OpensReceiver(skipped, starts) => OpenReceiverTouches(s, skipped, starts);
    case _ =>
  }

  lemma WatchKeepsFlag(s: State, act: WatchAct)
    requires CanWatch(s, act)
    ensures ApplyWatch(s, act).drained == s.drained
  {
    if act.ClearsNext? {
      ClearKeepsSpine(s);
    }
  }

  lemma RecoveryKeepsFlag(s: State, t: nat, act: RecoveryAct)
    requires CanRecover(s, t, act)
    ensures ApplyRecovery(s, t, act).drained == s.drained && |s.recoveries| <= |ApplyRecovery(s, t, act).recoveries|
  {
    if act.Commits? {
      CommitTouches(s, t);
    } else {
      RecoveryKeepsSpine(s, t, act);
      if !act.Begins? && !act.Declines? {
        RecoveryMoves(s, t, act);
      }
    }
  }

  // Once the client is drained, no recovery of a receiver begins, and none passes its
  // checks: only those already past them can still start theirs.
  lemma {:induction false} DrainedClientRecoversNone(s: State, run: seq<Step>, u: nat)
    requires s.drained && Legal(s, run) && u < |Exec(s, run).recoveries|
    ensures var r := Exec(s, run).recoveries[u];
            r.kind.Receiver? ==>
              u < |s.recoveries| && s.recoveries[u].kind.Receiver? && (PastChecks(r) ==> PastChecks(s.recoveries[u]))
    decreases |run|
  {
    if run != [] {
      var s1 := Apply(s, run[0]);
      if run[0].RecoveryStep? {
        RecoveryKeepsFlag(s, run[0].t, run[0].act);
        DrainedClientRecoversNone(s1, run[1..], u);
        if u < |s1.recoveries| {
          RecoveryAfterDrain(s, run[0].t, run[0].act, u);
        }
      } else {
        OthersAfterDrain(s, run[0]);
        DrainedClientRecoversNone(s1, run[1..], u);
      }
    }
  }

  // The client's Drain and its Stop drain it.
  lemma DrainAndStopDrain(s: State, call: Call)
    requires CanCall(s, call) && (call == Call.Drain || call == Call.Stop)
    ensures Apply(s, CallStep(call)).drained
  {
  }

  // A drained receiver that is off, with no Start of it under way.
  predicate StaysOff(s: State, i: nat) {
    && i in s.drainedReceivers && i < |s.ends.receivers.live| && s.ends.receivers.live[i].None?
    && forall t :: 0 <= t < |s.recoveries| && s.recoveries[t].kind.Receiver? && s.recoveries[t].idx == i ==>
         !s.recoveries[t].pc.Starting?
  }

  lemma RecoveryKeepsOff(s: State, t: nat, act: RecoveryAct, i: nat)
    requires StaysOff(s, i) && CanRecover(s, t, act)
    ensures StaysOff(ApplyRecovery(s, t, act), i)
  {
    if act.Commits? {
      CommitTouches(s, t);
      if ConnectionKept(s, s.recoveries[t].pc.ch) {
        assert CommitRecovery(s, t).ends.receivers.live == s.ends.receivers.live;
      } else {
        LateCommitRollsBack(s, t);
      }
    } else {
      RecoveryKeepsSpine(s, t, act);
      RecoveryPutsOwn(s, t, act, Receiver, i);
      if !act.Begins? && !act.Declines? {
        RecoveryMoves(s, t, act);
      }
    }
  }

  lemma SetupKeepsOff(s: State, act: SetupAct, i: nat)
    requires StaysOff(s, i) && CanSetup(s, act)
    ensures StaysOff(ApplySetup(s, act), i)
  {
    SetupKeepsReceivers(s, act);
    if act.OpensReceiver? {
      OpenReceiverTouches(s, act.skipped, act.starts);
    }
  }

  lemma WatchKeepsOff(s: State, act: WatchAct, i: nat)
    requires StaysOff(s, i) && CanWatch(s, act)
    ensures StaysOff(ApplyWatch(s, act), i)
  {
    WatchKeepsReceivers(s, act);
    if act.ClearsNext? {
      ClearPuts(s, Receiver, i);
    }
  }

  lemma EndKeepsOff(s: State, act: EndAct, i: nat)
    requires StaysOff(s, i) && CanEnd(s, act)
    ensures StaysOff(ApplyEnd(s, act), i)
  {
    EndKeepsReceivers(s, act);
  }

  // Nothing starts a drained receiver again: neither a reconnect nor a recovery.
  lemma {:induction false} DrainedReceiverStaysOff(s: State, run: seq<Step>, i: nat)
    requires StaysOff(s, i) && Legal(s, run)
    ensures i < |Exec(s, run).ends.receivers.live| && Exec(s, run).ends.receivers.live[i].None?
    decreases |run|
  {
    if run != [] {
      match run[0] {
        case CallStep(_) =>
        case DrainStep(_) =>
        case SetupStep(act) => SetupKeepsOff(s, act, i);
        case WatchStep(act) => WatchKeepsOff(s, act, i);
        case EndStep(act) => EndKeepsOff(s, act, i);
        case RecoveryStep(t, act) => RecoveryKeepsOff(s, t, act, i);
      }
      DrainedReceiverStaysOff(Apply(s, run[0]), run[1..], i);
    }
  }

  // ------------------------------------------------------------- every run

  // No two recoveries of one endpoint are under way.
  predicate Solo(s: State) {
    forall t, u :: 0 <= t < u < |s.recoveries| && Same(s.recoveries[t], s.recoveries[u]) ==>
      s.recoveries[t].pc.Over? || s.recoveries[u].pc.Over?
  }

  predicate Same(r: Recovery, q: Recovery) { r.kind == q.kind && r.idx == q.idx }

  ghost predicate AlwaysSolo(s: State, run: seq<Step>)
    requires Legal(s, run)
    decreases |run|
  {
    Solo(s) && (run == [] || AlwaysSolo(Apply(s, run[0]), run[1..]))
  }

  // What is about to be recorded of an endpoint, or is.
  function OnRecord(s: State, kind: Kind): seq<Chan> {
    if s.sup.SettingUp? then (if kind.Sender? then s.sup.schs else s.sup.rchs) else SideOf(s, kind).recorded
  }

  predicate Keeps(s: State) { s.connected || s.sup.SettingUp? || s.sup.Recorded? }

  // A channel in use is on record, or in the hands of a recovery.
  predicate AgreesAt(s: State, kind: Kind, i: nat)
    requires i < |SideOf(s, kind).live|
  {
    var live := SideOf(s, kind).live[i];
    live.Some? ==>
      Recovering(s, kind, i, live.value) || (i < |OnRecord(s, kind)| && OnRecord(s, kind)[i] == live.value)
  }

  predicate Agrees(s: State) {
    Keeps(s) ==> forall kind, i :: 0 <= i < |SideOf(s, kind).live| ==> AgreesAt(s, kind, i)
  }

  // Nobody else has put a channel where a recovery of this connection put its own.
  predicate OwnChannel(s: State, r: Recovery) {
    r.pc.Installed? && ConnectionKept(s, r.pc.ch) && r.idx < |SideOf(s, r.kind).live| ==>
      SideOf(s, r.kind).live[r.idx].None? || SideOf(s, r.kind).live[r.idx] == Some(r.pc.ch)
  }

  predicate OwnChannels(s: State) {
    forall t :: 0 <= t < |s.recoveries| ==> OwnChannel(s, s.recoveries[t])
  }

  predicate Records(s: State) { Agrees(s) && OwnChannels(s) }

  lemma InitiallyRecords(senders: nat, receivers: nat)
    ensures Records(Initial(senders, receivers))
  {
  }

  lemma CallKeepsRecords(s: State, step: Step)
    requires Inv(s) && Records(s) && Enabled(s, step) && (step.CallStep? || step.DrainStep?)
    ensures Records(Apply(s, step))
  {
    var s' := Apply(s, step);
    if Keeps(s') {
      forall kind, i | 0 <= i < |SideOf(s', kind).live| ensures AgreesAt(s', kind, i) {
        assert AgreesAt(s, kind, i);
      }
    }
    forall t | 0 <= t < |s'.recoveries| ensures OwnChannel(s', s'.recoveries[t]) {
      assert OwnChannel(s, s.recoveries[t]);
    }
  }

  lemma OpenSenderKeepsRecords(s: State, confirms: bool)
    requires Inv(s) && Records(s) && CanSetup(s, OpensSender(confirms))
    ensures Records(OpenSender(s, confirms))
  {
    var s' := OpenSender(s, confirms);
    OpenSenderTouches(s, confirms);
    forall kind, i | 0 <= i < |SideOf(s', kind).live| ensures AgreesAt(s', kind, i) {
      assert AgreesAt(s, kind, i);
    }
  }

  lemma OpenReceiverKeepsRecords(s: State, skipped: bool, starts: bool)
    requires Inv(s) && Records(s) && CanSetup(s, OpensReceiver(skipped, starts))
    ensures Records(OpenReceiver(s, skipped, starts))
  {
    var s' := OpenReceiver(s, skipped, starts);
    OpenReceiverTouches(s, skipped, starts);
    if s'.sup.SettingUp? {
      forall kind, i | 0 <= i < |SideOf(s', kind).live| ensures AgreesAt(s', kind, i) {
        assert AgreesAt(s, kind, i);
      }
    }
  }

  lemma SetupKeepsRecords(s: State, act: SetupAct)
    requires Inv(s) && Records(s) && CanSetup(s, act)
    ensures Records(ApplySetup(s, act))
  {
    match act
    case OpensSender(confirms) => OpenSenderKeepsRecords(s, confirms);
    case OpensReceiver(skipped, starts) => OpenReceiverKeepsRecords(s, skipped, starts);
    case DialOk => DialKeepsRecords(s);
    case RecordsChannels => RecordingKeepsRecords(s);
    case _ =>
  }

  lemma DialKeepsRecords(s: State)
    requires Inv(s) && CanSetup(s, DialOk)
    ensures Records(ApplySetup(s, DialOk))
  {
    var s' := ApplySetup(s, DialOk);
    forall kind, i | 0 <= i < |SideOf(s', kind).live| ensures AgreesAt(s', kind, i) {
      assert LiveOk(s, kind, i);
    }
  }

  lemma RecordingKeepsRecords(s: State)
    requires Inv(s) && Records(s) && CanSetup(s, RecordsChannels)
    ensures Records(ApplySetup(s, RecordsChannels))
  {
    var s' := ApplySetup(s, RecordsChannels);
    forall kind, i | 0 <= i < |SideOf(s', kind).live| ensures AgreesAt(s', kind, i) {
      assert AgreesAt(s, kind, i);
    }
  }

  lemma WatchKeepsRecords(s: State, act: WatchAct)
    requires Inv(s) && Fresh(s) && Records(s) && CanWatch(s, act)
    ensures Records(ApplyWatch(s, act))
  {
    var s' := ApplyWatch(s, act);
    if act.ClearsNext? {
      ClearKeepsSpine(s);
      return;
    }
    if Keeps(s') {
      forall kind, i | 0 <= i < |SideOf(s', kind).live| ensures AgreesAt(s', kind, i) {
        assert AgreesAt(s, kind, i);
      }
    }
    forall t | 0 <= t < |s'.recoveries| ensures OwnChannel(s', s'.recoveries[t]) {
      assert OwnChannel(s, s.recoveries[t]) && RecoveryFresh(s, s.recoveries[t]);
    }
  }

  lemma EndKeepsRecords(s: State, act: EndAct)
    requires Inv(s) && Records(s) && CanEnd(s, act)
    ensures Records(ApplyEnd(s, act))
  {
    var s' := ApplyEnd(s, act);
    if Keeps(s') {
      forall kind, i | 0 <= i < |SideOf(s', kind).live| ensures AgreesAt(s', kind, i) {
        assert AgreesAt(s, kind, i);
      }
    }
    forall t | 0 <= t < |s'.recoveries| ensures OwnChannel(s', s'.recoveries[t]) {
      assert OwnChannel(s, s.recoveries[t]);
    }
  }

  // What a recovery short of its commit puts where.
  lemma RecoveryPutsOwn(s: State, t: nat, act: RecoveryAct, kind: Kind, i: nat)
    requires CanRecover(s, t, act) && !act.Commits? && i < |SideOf(s, kind).live|
    ensures var s' := ApplyRecovery(s, t, act);
            && i < |SideOf(s', kind).live|
            && (SideOf(s', kind).live[i] == SideOf(s, kind).live[i] || SideOf(s', kind).live[i].None? ||
                (act.Installs? && s.recoveries[t].kind == kind && s.recoveries[t].idx == i && t < |s'.recoveries| &&
                 s'.recoveries[t] == Recovery(kind, i, Installed(SideOf(s', kind).live[i].value))))
  {
    RecoveryKeepsSpine(s, t, act);
    if act.Installs? {
      RecoveryMoves(s, t, act);
    }
  }

  lemma RecoveryKeepsAgrees(s: State, t: nat, act: RecoveryAct)
    requires Inv(s) && Records(s) && CanRecover(s, t, act) && !act.Commits?
    ensures Agrees(ApplyRecovery(s, t, act))
  {
    var s' := ApplyRecovery(s, t, act);
    RecoveryKeepsSpine(s, t, act);
    if Keeps(s') {
      forall kind, i | 0 <= i < |SideOf(s', kind).live| ensures AgreesAt(s', kind, i) {
        assert AgreesAt(s, kind, i);
        RecoveryPutsOwn(s, t, act, kind, i);
        var live := SideOf(s, kind).live[i];
        if live.Some? && Recovering(s, kind, i, live.value) {
          RecoveringStays(s, t, act, kind, i, live.value);
        }
      }
    }
  }

  lemma RecoveryKeepsOwn(s: State, t: nat, act: RecoveryAct, u: nat)
    requires Inv(s) && Records(s) && Solo(s) && CanRecover(s, t, act) && !act.Commits?
    requires u < |ApplyRecovery(s, t, act).recoveries|
    ensures OwnChannel(ApplyRecovery(s, t, act), ApplyRecovery(s, t, act).recoveries[u])
  {
    var s' := ApplyRecovery(s, t, act);
    RecoveryKeepsSpine(s, t, act);
    var r := s'.recoveries[u];
    if r.pc.Installed? && r.idx < |SideOf(s, r.kind).live| {
      RecoveryPutsOwn(s, t, act, r.kind, r.idx);
      if !act.Begins? && !act.Declines? {
        RecoveryMoves(s, t, act);
      }
      if u < |s.recoveries| {
        assert OwnChannel(s, s.recoveries[u]);
      }
    }
  }

  lemma CommitKeepsRecords(s: State, t: nat)
    requires Inv(s) && Records(s) && CanRecover(s, t, Commits)
    ensures Records(CommitRecovery(s, t))
  {
    var r, s' := s.recoveries[t], CommitRecovery(s, t);
    CommitTouches(s, t);
    assert OwnChannel(s, r);
    if ConnectionKept(s, r.pc.ch) {
      KeptCommitAgrees(s, t);
    } else {
      LateCommitAgrees(s, t);
      LateCommitRollsBack(s, t);
    }
    forall u | 0 <= u < |s'.recoveries| ensures OwnChannel(s', s'.recoveries[u]) {
      assert OwnChannel(s, s.recoveries[u]);
    }
  }

  lemma KeptCommitAgrees(s: State, t: nat)
    requires Inv(s) && Records(s) && CanRecover(s, t, Commits) && ConnectionKept(s, s.recoveries[t].pc.ch)
    ensures Agrees(CommitRecovery(s, t))
  {
    var r, s' := s.recoveries[t], CommitRecovery(s, t);
    CommitTouches(s, t);
    assert OwnChannel(s, r);
    forall kind, i | 0 <= i < |SideOf(s', kind).live| ensures AgreesAt(s', kind, i) {
      assert AgreesAt(s, kind, i);
      var live := SideOf(s, kind).live[i];
      if live.Some? && Recovering(s, kind, i, live.value) && !(kind == r.kind && i == r.idx) {
        RecoveringStays(s, t, Commits, kind, i, live.value);
      }
    }
  }

  lemma LateCommitAgrees(s: State, t: nat)
    requires Inv(s) && Records(s) && CanRecover(s, t, Commits) && !ConnectionKept(s, s.recoveries[t].pc.ch)
    ensures Agrees(CommitRecovery(s, t))
  {
    var r, s' := s.recoveries[t], CommitRecovery(s, t);
    LateCommitRollsBack(s, t);
    CommitTouches(s, t);
    if Keeps(s') {
      forall kind, i | 0 <= i < |SideOf(s', kind).live| ensures AgreesAt(s', kind, i) {
        assert AgreesAt(s, kind, i);
        var live := SideOf(s, kind).live[i];
        if live.Some? && Recovering(s, kind, i, live.value) && !(kind == r.kind && i == r.idx) {
          RecoveringStays(s, t, Commits, kind, i, live.value);
        }
      }
    }
  }

  lemma StepKeepsRecords(s: State, step: Step)
    requires Inv(s) && Fresh(s) && Solo(s) && Records(s) && Enabled(s, step)
    ensures Records(Apply(s, step))
  {
    match step
    case CallStep(_) => CallKeepsRecords(s, step);
    case DrainStep(_) => CallKeepsRecords(s, step);
    case SetupStep(act) => SetupKeepsRecords(s, act);
    case WatchStep(act) => WatchKeepsRecords(s, act);
    case EndStep(act) => EndKeepsRecords(s, act);
    case RecoveryStep(t, act) =>
      if act.Commits? {
        CommitKeepsRecords(s, t);
      } else {
        RecoveryKeepsAgrees(s, t, act);
        forall u | 0 <= u < |Apply(s, step).recoveries|
          ensures OwnChannel(Apply(s, step), Apply(s, step).recoveries[u])
        {
          RecoveryKeepsOwn(s, t, act, u);
        }
      }
  }

  lemma {:induction false} RunKeepsRecords(s: State, run: seq<Step>)
    requires Inv(s) && Fresh(s) && Records(s) && Legal(s, run) && AlwaysSolo(s, run)
    ensures Records(Exec(s, run))
    decreases |run|
  {
    if run != [] {
      StepKeepsInv(s, run[0]);
      StepKeepsFresh(s, run[0]);
      StepKeepsRecords(s, run[0]);
      RunKeepsRecords(Apply(s, run[0]), run[1..]);
    }
  }

  // In every run in which no endpoint is recovered twice at once: while connected, the
  // channel of an endpoint that no recovery has in hand is the one on record for it.
  lemma RecordsAreInUse(senders: nat, receivers: nat, run: seq<Step>, kind: Kind, i: nat)
    requires Legal(Initial(senders, receivers), run) && AlwaysSolo(Initial(senders, receivers), run)
    requires Exec(Initial(senders, receivers), run).connected
    requires i < |SideOf(Exec(Initial(senders, receivers), run), kind).live|
    requires var s := Exec(Initial(senders, receivers), run);
             forall t :: 0 <= t < |s.recoveries| && s.recoveries[t].pc.Installed? ==>
               s.recoveries[t].kind != kind || s.recoveries[t].idx != i
    ensures var side := SideOf(Exec(Initial(senders, receivers), run), kind);
            i < |side.recorded| && (side.live[i].Some? ==> side.recorded[i] == side.live[i].value)
  {
    var s := Exec(Initial(senders, receivers), run);
    InitiallyInv(senders, receivers);
    InitiallyRecords(senders, receivers);
    RunKeepsInv(Initial(senders, receivers), run);
    RunKeepsRecords(Initial(senders, receivers), run);
    assert AgreesAt(s, kind, i);
  }

  // With two at once it fails: the one that started its receiver last commits first, and
  // the other records its own channel over it.
  lemma TwoRecoveriesMisrecord() returns (run: seq<Step>)
    ensures Legal(Initial(0, 1), run)
    ensures var s := Exec(Initial(0, 1), run);
            && s.connected && s.recoveries == [Recovery(Receiver, 0, Over), Recovery(Receiver, 0, Over)]
            && s.ends.receivers == Side([Some(Chan(0, 2))], [Chan(0, 1)])
  {
    run := TwoRecoveries();
    run := Then(run, RecoveryStep(0, Installs(true)));
    run := Then(run, RecoveryStep(1, Installs(true)));
    run := Then(run, RecoveryStep(1, Commits));
    run := Then(run, RecoveryStep(0, Commits));
  }

  lemma OneRecovery() returns (run: seq<Step>)
    ensures Legal(Initial(0, 1), run)
    ensures Exec(Initial(0, 1), run) ==
            State(
              true, false, false, false, true, Some(0),
              Ends(Side([], []), Side([None], [Chan(0, 0)])), {}, Watching, NoStop,
              [Recovery(Receiver, 0, Starting(0))], 1, 1, [OnConnect], 0)
  {
    run := ConnectedRun();
    run := Then(run, RecoveryStep(0, Begins(Receiver, 0)));
    run := Then(run, RecoveryStep(0, Resets));
    run := Then(run, RecoveryStep(0, ChecksDrain));
    run := Then(run, RecoveryStep(0, Starts));
  }

  lemma TwoRecoveries() returns (run: seq<Step>)
    ensures Legal(Initial(0, 1), run)
    ensures Exec(Initial(0, 1), run) ==
            State(
              true, false, false, false, true, Some(0),
              Ends(Side([], []), Side([None], [Chan(0, 0)])), {}, Watching, NoStop,
              [Recovery(Receiver, 0, Starting(0)), Recovery(Receiver, 0, Starting(0))], 1, 1, [OnConnect], 0)
  {
    run := OneRecovery();
    run := Then(run, RecoveryStep(1, Begins(Receiver, 0)));
    run := Then(run, RecoveryStep(1, Resets));
    run := Then(run, RecoveryStep(1, ChecksDrain));
    run := Then(run, RecoveryStep(1, Starts));
  }
}
