/** What every interleaving of the reconnect goroutine, the recoveries and Stop keeps. */
module SupervisorSafety {
  import opened Options
  import opened Supervisor

  // ------------------------------------------------------------- invariants

  // Position in the order the client stops its endpoints.
  function Position(s: State, kind: Kind, i: nat): nat {
    if kind.Receiver? then i else |s.ends.receivers.live| + i
  }

  predicate On(chans: seq<Chan>, conn: nat) {
    forall i :: 0 <= i < |chans| ==> chans[i].conn == conn
  }

  predicate RecordsOk(s: State, conn: nat) {
    && |s.ends.senders.recorded| == |s.ends.senders.live| && On(s.ends.senders.recorded, conn)
    && |s.ends.receivers.recorded| == |s.ends.receivers.live| && On(s.ends.receivers.recorded, conn)
  }

  predicate PhasesOk(s: State) {
    && (s.sup.NotStarted? <==> !s.started)
    && (s.connected ==> s.sup.Announcing? || s.sup.Watching? || s.sup.Exited?)
    && (s.sup.Announcing? || s.sup.Watching? ==> s.connected)
    && (s.stop.NoStop? || s.stop.Joining? || s.sup.Exited?)
    && (s.stop.StopAnnouncing? || s.stop.StoppingSenders? || s.stop.Stopped? ==> !s.connected)
    && (s.stop.Stopped? ==> s.conn.None?)
    && (!s.stop.NoStop? ==> s.started && s.stopping && s.cancelled && s.drained)
    && (s.sup.Disconnecting? ==> s.sup.was && s.sup.cleared <= Endpoints(s))
    && (s.sup.CleaningUp? ==> s.sup.cleared <= Endpoints(s))
  }

  predicate ChannelsOk(s: State) {
    && (s.connected ==> s.conn.Some? && RecordsOk(s, s.conn.value))
    && (s.sup.Recorded? ==> RecordsOk(s, s.sup.conn))
    && (s.stop.Stopped? ==> s.ends.senders.recorded == [] && s.ends.receivers.recorded == [])
    && (s.sup.SettingUp? ==>
          && |s.sup.schs| <= |s.ends.senders.live| && On(s.sup.schs, s.sup.conn)
          && |s.sup.rchs| <= |s.ends.receivers.live| && On(s.sup.rchs, s.sup.conn))
  }

  // A recovery that has installed its channel and not yet looked at the connection again.
  predicate Recovering(s: State, kind: Kind, i: nat, ch: Chan) {
    exists t :: 0 <= t < |s.recoveries| && s.recoveries[t] == Recovery(kind, i, Installed(ch))
  }

  // The current connection's channels are installed, or not yet torn down.
  predicate MayHold(s: State, kind: Kind, i: nat) {
    || s.connected
    || (s.sup.Disconnecting? && Position(s, kind, i) >= s.sup.cleared)
    || (kind.Sender? && (s.stop.StopAnnouncing? || (s.stop.StoppingSenders? && i >= s.stop.cleared)))
  }

  // A connection being set up, or one whose setup failed and is being torn down.
  predicate InSetup(s: State, kind: Kind, i: nat, ch: Chan) {
    || (s.sup.SettingUp? && ch.conn == s.sup.conn && i < (if kind.Sender? then |s.sup.schs| else |s.sup.rchs|))
    || (s.sup.CleaningUp? && ch.conn == s.sup.conn && Position(s, kind, i) >= s.sup.cleared)
    || (s.sup.Recorded? && ch.conn == s.sup.conn)
  }

  predicate StopReachedReceivers(s: State) {
    s.stop.StopAnnouncing? || s.stop.StoppingSenders? || s.stop.Stopped?
  }

  predicate LiveOk(s: State, kind: Kind, i: nat)
    requires i < |SideOf(s, kind).live|
  {
    var live := SideOf(s, kind).live[i];
    live.Some? ==>
      || Recovering(s, kind, i, live.value)
      || (s.conn == Some(live.value.conn) && MayHold(s, kind, i))
      || InSetup(s, kind, i, live.value)
      || (kind.Receiver? && StopReachedReceivers(s))
  }

  predicate LivesOk(s: State) {
    forall kind, i :: 0 <= i < |SideOf(s, kind).live| ==> LiveOk(s, kind, i)
  }

  predicate Alternates(log: seq<Event>) {
    forall i :: 0 <= i < |log| ==> log[i] == if i % 2 == 0 then OnConnect else OnDisconnect
  }

  // An OnDisconnect is owed.
  predicate Up(s: State) {
    || (s.connected && !s.sup.Announcing?)
    || (s.sup.Disconnecting? && s.sup.was)
    || (s.stop.StopAnnouncing? && s.stop.was)
  }

  predicate HooksOk(s: State) {
    && Alternates(s.log)
    && (|s.log| % 2 == 1 <==> Up(s))
    && s.reconnections == (if s.log == [] then 0 else (|s.log| - 1) / 2)
    && (s.sup.NotStarted? ==> s.log == [])
    && (s.sup.Watching? || s.sup.Disconnecting? || (s.sup.Exited? && !s.cancelled) ==> s.log != [])
    && (s.sup.Dialing? || s.sup.SettingUp? || s.sup.CleaningUp? || s.sup.Recorded? || s.sup.Announcing? ==>
          (s.sup.initial <==> s.log == []))
  }

  predicate Inv(s: State) {
    PhasesOk(s) && ChannelsOk(s) && LivesOk(s) && HooksOk(s)
  }

  lemma InitiallyInv(senders: nat, receivers: nat)
    ensures Inv(Initial(senders, receivers))
  {
  }

  // ------------------------------------------------------------- each step

  lemma CallKeepsInv(s: State, call: Call)
    requires Inv(s) && CanCall(s, call)
    ensures Inv(ApplyCall(s, call))
  {
    var s' := ApplyCall(s, call);
    forall kind, i | 0 <= i < |SideOf(s', kind).live| ensures LiveOk(s', kind, i) {
      assert LiveOk(s, kind, i);
      assert forall ch :: Recovering(s, kind, i, ch) ==> Recovering(s', kind, i, ch);
    }
  }

  lemma DrainKeepsInv(s: State, i: nat)
    requires Inv(s) && Enabled(s, DrainStep(i))
    ensures Inv(Apply(s, DrainStep(i)))
  {
    var s' := Apply(s, DrainStep(i));
    forall kind, k | 0 <= k < |SideOf(s', kind).live| ensures LiveOk(s', kind, k) {
      assert LiveOk(s, kind, k);
      assert forall ch :: Recovering(s, kind, k, ch) ==> Recovering(s', kind, k, ch);
    }
  }

  lemma OpenSenderKeepsInv(s: State, confirms: bool)
    requires Inv(s) && CanSetup(s, OpensSender(confirms))
    ensures Inv(OpenSender(s, confirms))
  {
    var s' := OpenSender(s, confirms);
    forall kind, i | 0 <= i < |SideOf(s', kind).live| ensures LiveOk(s', kind, i) {
      assert LiveOk(s, kind, i);
      assert forall ch :: Recovering(s, kind, i, ch) ==> Recovering(s', kind, i, ch);
    }
  }

  lemma OpenReceiverKeepsInv(s: State, skipped: bool, starts: bool)
    requires Inv(s) && CanSetup(s, OpensReceiver(skipped, starts))
    ensures Inv(OpenReceiver(s, skipped, starts))
  {
    var s' := OpenReceiver(s, skipped, starts);
    forall kind, i | 0 <= i < |SideOf(s', kind).live| ensures LiveOk(s', kind, i) {
      assert LiveOk(s, kind, i);
      assert forall ch :: Recovering(s, kind, i, ch) ==> Recovering(s', kind, i, ch);
    }
  }

  lemma SetupKeepsInv(s: State, act: SetupAct)
    requires Inv(s) && CanSetup(s, act)
    ensures Inv(ApplySetup(s, act))
  {
    match act
    case OpensSender(confirms) => OpenSenderKeepsInv(s, confirms);
    case OpensReceiver(skipped, starts) => OpenReceiverKeepsInv(s, skipped, starts);
    case _ =>
      var s' := ApplySetup(s, act);
      forall kind, i | 0 <= i < |SideOf(s', kind).live| ensures LiveOk(s', kind, i) {
        assert LiveOk(s, kind, i);
        assert forall ch :: Recovering(s, kind, i, ch) ==> Recovering(s', kind, i, ch);
      }
  }

  // The counts of endpoints never change.
  ghost predicate SameCounts(s: State, s': State) {
    && |s'.ends.senders.live| == |s.ends.senders.live| && |s'.ends.receivers.live| == |s.ends.receivers.live|
  }

  lemma OpenSenderTouches(s: State, confirms: bool)
    requires CanSetup(s, OpensSender(confirms))
    ensures var s' := OpenSender(s, confirms);
            && s' == s.(ends := s'.ends, sup := s'.sup, nextSerial := s.nextSerial + 1) && SameCounts(s, s')
            && s'.sup.SettingUp? && s'.sup.conn == s.sup.conn
  {
  }

  lemma OpenReceiverTouches(s: State, skipped: bool, starts: bool)
    requires CanSetup(s, OpensReceiver(skipped, starts))
    ensures var s' := OpenReceiver(s, skipped, starts);
            && s' == s.(ends := s'.ends, sup := s'.sup, nextSerial := s.nextSerial + 1) && SameCounts(s, s')
            && ((s'.sup.SettingUp? && s'.sup.conn == s.sup.conn) || s'.sup.CleaningUp?)
  {
  }

  // Everything but the installed channels and the recoveries themselves.
  ghost predicate SameSpine(s: State, s': State) {
    && s' == s.(ends := s'.ends, recoveries := s'.recoveries, nextSerial := s'.nextSerial)
    && |s'.ends.senders.live| == |s.ends.senders.live| && |s'.ends.receivers.live| == |s.ends.receivers.live|
    && s'.ends.senders.recorded == s.ends.senders.recorded && s'.ends.receivers.recorded == s.ends.receivers.recorded
  }

  lemma PutTouches(s: State, kind: Kind, i: nat, live: Option<Chan>)
    requires i < |SideOf(s, kind).live|
    ensures SameSpine(s, Put(s, kind, i, live)) && Put(s, kind, i, live).recoveries == s.recoveries
  {
  }

  lemma ClearKeepsSpine(s: State)
    requires CanWatch(s, ClearsNext)
    ensures var s' := ApplyWatch(s, ClearsNext);
            s'.sup == s.sup.(cleared := s.sup.cleared + 1) && SameSpine(s.(sup := s'.sup), s') &&
                s'.recoveries == s.recoveries
  {
    var k := s.sup.cleared;
    if k < |s.ends.receivers.live| {
      PutTouches(s, Receiver, k, None);
    } else {
      PutTouches(s, Sender, k - |s.ends.receivers.live|, None);
    }
  }

  lemma ClearPuts(s: State, kind: Kind, i: nat)
    requires CanWatch(s, ClearsNext) && i < |SideOf(s, kind).live|
    ensures var s' := ApplyWatch(s, ClearsNext);
            && i < |SideOf(s', kind).live|
            && SideOf(s', kind).live[i] == if Position(s, kind, i) == s.sup.cleared then None
                else SideOf(s, kind).live[i]
  {
  }

  lemma ClearKeepsInv(s: State)
    requires Inv(s) && CanWatch(s, ClearsNext)
    ensures Inv(ApplyWatch(s, ClearsNext))
  {
    var s' := ApplyWatch(s, ClearsNext);
    ClearKeepsSpine(s);
    forall kind, i | 0 <= i < |SideOf(s', kind).live| ensures LiveOk(s', kind, i) {
      ClearPuts(s, kind, i);
      assert LiveOk(s, kind, i);
      assert forall ch :: Recovering(s, kind, i, ch) ==> Recovering(s', kind, i, ch);
    }
  }

  lemma WatchKeepsInv(s: State, act: WatchAct)
    requires Inv(s) && CanWatch(s, act)
    ensures Inv(ApplyWatch(s, act))
  {
    if act.ClearsNext? {
      ClearKeepsInv(s);
    } else {
      var s' := ApplyWatch(s, act);
      forall kind, i | 0 <= i < |SideOf(s', kind).live| ensures LiveOk(s', kind, i) {
        assert LiveOk(s, kind, i);
        assert forall ch :: Recovering(s, kind, i, ch) ==> Recovering(s', kind, i, ch);
      }
    }
  }

  lemma EndKeepsInv(s: State, act: EndAct)
    requires Inv(s) && CanEnd(s, act)
    ensures Inv(ApplyEnd(s, act))
  {
    var s' := ApplyEnd(s, act);
    forall kind, i | 0 <= i < |SideOf(s', kind).live| ensures LiveOk(s', kind, i) {
      assert LiveOk(s, kind, i);
      assert forall ch :: Recovering(s, kind, i, ch) ==> Recovering(s', kind, i, ch);
    }
  }

  lemma SpineKeepsRest(s: State, s': State)
    requires Inv(s) && SameSpine(s, s')
    ensures PhasesOk(s') && ChannelsOk(s') && HooksOk(s')
  {
  }

  lemma RecoveryKeepsSpine(s: State, t: nat, act: RecoveryAct)
    requires CanRecover(s, t, act) && !act.Commits?
    ensures SameSpine(s, ApplyRecovery(s, t, act))
  {
  }

  lemma InstallPuts(s: State, t: nat, confirms: bool, kind: Kind, i: nat)
    requires CanRecover(s, t, Installs(confirms)) && i < |SideOf(s, kind).live|
    ensures var s' := ApplyRecovery(s, t, Installs(confirms));
            && |SideOf(s', kind).live| == |SideOf(s, kind).live|
            && (SideOf(s', kind).live[i] == SideOf(s, kind).live[i] || SideOf(s', kind).live[i].None? ||
                Recovering(s', kind, i, SideOf(s', kind).live[i].value))
  {
    var r, s' := s.recoveries[t], ApplyRecovery(s, t, Installs(confirms));
    assert s'.recoveries[t] == Recovery(r.kind, r.idx, Installed(Chan(r.pc.conn, s.nextSerial)));
  }

  // What a recovery does to one endpoint short of its commit.
  lemma RecoveryPuts(s: State, t: nat, act: RecoveryAct, kind: Kind, i: nat)
    requires CanRecover(s, t, act) && !act.Commits? && i < |SideOf(s, kind).live|
    ensures var s' := ApplyRecovery(s, t, act);
            && |SideOf(s', kind).live| == |SideOf(s, kind).live|
            && (SideOf(s', kind).live[i] == SideOf(s, kind).live[i] || SideOf(s', kind).live[i].None? ||
                Recovering(s', kind, i, SideOf(s', kind).live[i].value))
  {
    if act.Installs? {
      InstallPuts(s, t, act.confirms, kind, i);
    }
  }

  lemma RecoveringStays(s: State, t: nat, act: RecoveryAct, kind: Kind, i: nat, ch: Chan)
    requires CanRecover(s, t, act) && Recovering(s, kind, i, ch)
    requires act.Commits? ==> s.recoveries[t] != Recovery(kind, i, Installed(ch))
    ensures Recovering(ApplyRecovery(s, t, act), kind, i, ch)
  {
    var u :| 0 <= u < |s.recoveries| && s.recoveries[u] == Recovery(kind, i, Installed(ch));
    assert u < |ApplyRecovery(s, t, act).recoveries| && ApplyRecovery(s, t, act).recoveries[u] == s.recoveries[u];
  }

  lemma LiveKept(s: State, s': State, kind: Kind, i: nat)
    requires Inv(s) && SameSpine(s, s') && i < |SideOf(s, kind).live| == |SideOf(s', kind).live|
    requires var live' := SideOf(s', kind).live[i];
             live'.None? || Recovering(s', kind, i, live'.value) ||
             (live' == SideOf(s, kind).live[i] && !Recovering(s, kind, i, live'.value))
    ensures LiveOk(s', kind, i)
  {
    assert LiveOk(s, kind, i);
  }

  lemma RecoveryKeepsInv(s: State, t: nat, act: RecoveryAct)
    requires Inv(s) && CanRecover(s, t, act) && !act.Commits?
    ensures Inv(ApplyRecovery(s, t, act))
  {
    var s' := ApplyRecovery(s, t, act);
    RecoveryKeepsSpine(s, t, act);
    SpineKeepsRest(s, s');
    forall kind, i | 0 <= i < |SideOf(s', kind).live| ensures LiveOk(s', kind, i) {
      RecoveryPuts(s, t, act, kind, i);
      var live := SideOf(s, kind).live[i];
      if live.Some? && Recovering(s, kind, i, live.value) {
        RecoveringStays(s, t, act, kind, i, live.value);
      }
      LiveKept(s, s', kind, i);
    }
  }

  predicate ConnectionKept(s: State, ch: Chan) { s.conn == Some(ch.conn) && s.connected }

  lemma RollbackTouches(s: State, t: nat, kind: Kind, i: nat)
    requires CanRecover(s, t, Commits) && !ConnectionKept(s, s.recoveries[t].pc.ch) && i < |SideOf(s, kind).live|
    ensures var r, s' := s.recoveries[t], CommitRecovery(s, t);
            && SameSpine(s, s') && s'.recoveries == s.recoveries[t := r.(pc := Over)]
            && SideOf(s', kind).live[i] == if kind == r.kind && i == r.idx then None else SideOf(s, kind).live[i]
  {
  }

  // The connection moved on: the channel is taken out again, and nothing else changes.
  lemma RollbackKeepsInv(s: State, t: nat)
    requires Inv(s) && CanRecover(s, t, Commits) && !ConnectionKept(s, s.recoveries[t].pc.ch)
    ensures Inv(CommitRecovery(s, t))
  {
    var r, s' := s.recoveries[t], CommitRecovery(s, t);
    RollbackTouches(s, t, r.kind, r.idx);
    SpineKeepsRest(s, s');
    forall kind, i | 0 <= i < |SideOf(s', kind).live| ensures LiveOk(s', kind, i) {
      RollbackTouches(s, t, kind, i);
      var live := SideOf(s, kind).live[i];
      if (kind != r.kind || i != r.idx) && live.Some? && Recovering(s, kind, i, live.value) {
        RecoveringStays(s, t, Commits, kind, i, live.value);
      }
      LiveKept(s, s', kind, i);
    }
  }

  // The connection is still the one the recovery was made on: its channel is current.
  lemma KeptCommitKeepsInv(s: State, t: nat)
    requires Inv(s) && CanRecover(s, t, Commits) && ConnectionKept(s, s.recoveries[t].pc.ch)
    ensures Inv(CommitRecovery(s, t))
  {
    var r, s' := s.recoveries[t], CommitRecovery(s, t);
    assert s' == s.(ends := s'.ends, recoveries := s'.recoveries);
    assert s'.ends.senders.live == s.ends.senders.live && s'.ends.receivers.live == s.ends.receivers.live;
    forall kind, i | 0 <= i < |SideOf(s', kind).live| ensures LiveOk(s', kind, i) {
      var live := SideOf(s, kind).live[i];
      assert LiveOk(s, kind, i);
      if live.Some? && Recovering(s, kind, i, live.value) && r != Recovery(kind, i, Installed(live.value)) {
        RecoveringStays(s, t, Commits, kind, i, live.value);
      }
    }
  }

  lemma StepKeepsInv(s: State, step: Step)
    requires Inv(s) && Enabled(s, step)
    ensures Inv(Apply(s, step))
  {
    var s' := Apply(s, step);
    match step
    case CallStep(call) => CallKeepsInv(s, call);
    case DrainStep(i) => DrainKeepsInv(s, i);
    case EndStep(act) => EndKeepsInv(s, act);
    case SetupStep(act) => SetupKeepsInv(s, act);
    case WatchStep(act) => WatchKeepsInv(s, act);
    case RecoveryStep(t, act) =>
      if act.Commits? {
        if ConnectionKept(s, s.recoveries[t].pc.ch) { KeptCommitKeepsInv(s, t); } else { RollbackKeepsInv(s, t); }
      } else {
        RecoveryKeepsInv(s, t, act);
      }
  }

  // ------------------------------------------------------------- every run

  lemma {:induction false} RunKeepsInv(s: State, run: seq<Step>)
    requires Inv(s) && Legal(s, run)
    ensures Inv(Exec(s, run))
    decreases |run|
  {
    if run != [] {
      StepKeepsInv(s, run[0]);
      RunKeepsInv(Apply(s, run[0]), run[1..]);
    }
  }

  ghost predicate Arrives(senders: nat, receivers: nat, run: seq<Step>, s: State) {
    Legal(Initial(senders, receivers), run) && Exec(Initial(senders, receivers), run) == s
  }

  ghost predicate Reachable(s: State) {
    exists senders, receivers, run :: Arrives(senders, receivers, run, s)
  }

  lemma ReachableInv(s: State)
    requires Reachable(s)
    ensures Inv(s)
  {
    var senders, receivers, run :| Arrives(senders, receivers, run, s);
    InitiallyInv(senders, receivers);
    RunKeepsInv(Initial(senders, receivers), run);
  }

  // While connected, every recorded channel was opened on the current connection.
  lemma RecordedOnCurrentConnection(s: State, kind: Kind, i: nat)
    requires Reachable(s) && s.connected && i < |SideOf(s, kind).live|
    ensures |SideOf(s, kind).recorded| == |SideOf(s, kind).live|
    ensures s.conn == Some(SideOf(s, kind).recorded[i].conn)
  {
    ReachableInv(s);
  }

  // While connected, a sender or receiver that no recovery has in hand is off, or on the
  // current connection: a late recovery never leaves a dead connection's channel behind.
  lemma InstalledOnCurrentConnection(s: State, kind: Kind, i: nat)
    requires Reachable(s) && s.connected && i < |SideOf(s, kind).live|
    requires forall t :: 0 <= t < |s.recoveries| && s.recoveries[t].pc.Installed? ==>
               s.recoveries[t].kind != kind || s.recoveries[t].idx != i
    ensures var live := SideOf(s, kind).live[i]; live.Some? ==> s.conn == Some(live.value.conn)
  {
    ReachableInv(s);
    assert LiveOk(s, kind, i);
  }

  // ----------------------------------------------------------------- hooks

  function Connects(log: seq<Event>): nat {
    if log == [] then 0 else Connects(log[..|log| - 1]) + (if log[|log| - 1].OnConnect? then 1 else 0)
  }

  lemma {:induction false} ConnectsOfAlternating(log: seq<Event>)
    requires Alternates(log)
    ensures Connects(log) == (|log| + 1) / 2
  {
    if log != [] {
      ConnectsOfAlternating(log[..|log| - 1]);
    }
  }

  // OnConnect and OnDisconnect strictly alternate, connect first, and every connect
  // but the first is counted as a reconnection.
  lemma HooksAlternate(s: State)
    requires Reachable(s)
    ensures Alternates(s.log)
    ensures s.reconnections == if Connects(s.log) == 0 then 0 else Connects(s.log) - 1
  {
    ReachableInv(s);
    ConnectsOfAlternating(s.log);
  }

  // The first connection is tried for until it is made or the client is stopped: whatever
  // limit there is on attempts, it is one on repairs.
  lemma FirstConnectionNeverGivenUp(s: State)
    requires Reachable(s) && s.started && !s.cancelled && s.log == []
    ensures s.sup.Dialing? || s.sup.SettingUp? || s.sup.CleaningUp? || s.sup.Recorded? || s.sup.Announcing?
    ensures s.sup.initial
  {
    ReachableInv(s);
  }

  // ------------------------------------------------------------ end of life

  // After the effective Stop every connect has had its disconnect, the client reads as
  // disconnected, and a sender is off unless a recovery is about to take it off.
  lemma StoppedForGood(s: State, i: nat)
    requires Reachable(s) && s.stop.Stopped?
    ensures !s.connected && s.conn.None? && |s.log| == 2 * Connects(s.log)
    ensures s.ends.senders.recorded == [] && s.ends.receivers.recorded == []
    ensures i < |s.ends.senders.live| && s.ends.senders.live[i].Some? ==>
        Recovering(s, Sender, i, s.ends.senders.live[i].value)
  {
    ReachableInv(s);
    ConnectsOfAlternating(s.log);
    assert i < |s.ends.senders.live| ==> LiveOk(s, Sender, i);
  }

  ghost predicate SameLatches(s: State, s': State) {
    s'.started == s.started && s'.stopping == s.stopping && s'.cancelled == s.cancelled &&
        (s'.stop.NoStop? <==> s.stop.NoStop?)
  }

  lemma SetupLeavesLatches(s: State, act: SetupAct)
    requires CanSetup(s, act)
    ensures SameLatches(s, ApplySetup(s, act))
  {
    match act
    case OpensSender(confirms) => OpenSenderTouches(s, confirms);
    case OpensReceiver(skipped, starts) => OpenReceiverTouches(s, skipped, starts);
    case _ =>
  }

  lemma WatchLeavesLatches(s: State, act: WatchAct)
    requires CanWatch(s, act)
    ensures SameLatches(s, ApplyWatch(s, act))
  {
  }

  lemma RecoveryLeavesLatches(s: State, t: nat, act: RecoveryAct)
    requires CanRecover(s, t, act)
    ensures SameLatches(s, ApplyRecovery(s, t, act))
  {
    if !act.Commits? {
      RecoveryKeepsSpine(s, t, act);
    }
  }

  lemma EndLeavesLatches(s: State, act: EndAct)
    requires CanEnd(s, act)
    ensures SameLatches(s, ApplyEnd(s, act)) && !s.stop.NoStop?
  {
  }

  // What a step may do to the two latches and to the effective Stop.
  lemma StopLatches(s: State, step: Step)
    requires Enabled(s, step)
    ensures var s', effective := Apply(s, step), step == CallStep(Call.Stop) && s.started && !s.stopping;
            && (s'.started <==> s.started || step == CallStep(Call.Start))
            && (s'.stopping <==> s.stopping || step == CallStep(Call.Stop))
            && (s'.stop.NoStop? <==> s.stop.NoStop? && !effective)
            && (s'.cancelled <==> s.cancelled || effective)
  {
    match step
    case CallStep(call) =>
    case DrainStep(i) =>
    case SetupStep(act) => SetupLeavesLatches(s, act);
    case WatchStep(act) => WatchLeavesLatches(s, act);
    case EndStep(act) => EndLeavesLatches(s, act);
    case RecoveryStep(t, act) => RecoveryLeavesLatches(s, t, act);
  }

  predicate StopsBeforeStart(run: seq<Step>)
    decreases |run|
  {
    run != [] && (run[0] == CallStep(Call.Stop) || (run[0] != CallStep(Call.Start) && StopsBeforeStart(run[1..])))
  }

  lemma {:induction false} StopOutcome(s: State, run: seq<Step>)
    requires Legal(s, run)
    ensures !s.stop.NoStop? ==> !Exec(s, run).stop.NoStop?
    ensures s.stop.NoStop? && s.stopping ==> Exec(s, run).stop.NoStop? && Exec(s, run).cancelled == s.cancelled
    ensures s.stop.NoStop? && !s.stopping && CallStep(Call.Stop) in run ==>
              (Exec(s, run).stop.NoStop? <==> !s.started && StopsBeforeStart(run))
    decreases |run|
  {
    if run != [] {
      StopLatches(s, run[0]);
      StopOutcome(Apply(s, run[0]), run[1..]);
      assert CallStep(Call.Stop) in run ==> run[0] == CallStep(Call.Stop) || CallStep(Call.Stop) in run[1..];
    }
  }

  // Stop tears the client down exactly when no Stop came before Start: one that did has
  // latched, and the reconnect goroutine of a later Start is never told to end.
  lemma StopIsEffectiveExactly(senders: nat, receivers: nat, run: seq<Step>)
    requires Legal(Initial(senders, receivers), run) && CallStep(Call.Stop) in run
    ensures !Exec(Initial(senders, receivers), run).stop.NoStop? <==> !StopsBeforeStart(run)
    ensures StopsBeforeStart(run) ==> !Exec(Initial(senders, receivers), run).cancelled
  {
    StopOutcome(Initial(senders, receivers), run);
    if StopsBeforeStart(run) {
      NeverCancelled(Initial(senders, receivers), run);
    }
  }

  lemma {:induction false} NeverCancelled(s: State, run: seq<Step>)
    requires Legal(s, run) && !s.cancelled && s.stop.NoStop? && !s.started && !s.stopping && StopsBeforeStart(run)
    ensures !Exec(s, run).cancelled
    decreases |run|
  {
    StopLatches(s, run[0]);
    if run[0] == CallStep(Call.Stop) {
      StopOutcome(Apply(s, run[0]), run[1..]);
    } else {
      NeverCancelled(Apply(s, run[0]), run[1..]);
    }
  }
}
