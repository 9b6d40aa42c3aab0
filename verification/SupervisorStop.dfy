/** What the effective Stop leaves of the receivers: exactly, over every interleaving. */
module SupervisorStop {
  import opened Options
  import opened Supervisor
  import opened SupervisorSafety

  // ------------------------------------------------------- fresh connections

  // Connections and channels are never used twice, and a connection being set up is
  // newer than any a recovery has seen.
  function SeenConn(pc: RecoveryPc): nat
    requires !pc.Over?
  {
    if pc.Installed? then pc.ch.conn else pc.conn
  }

  predicate RecoveryFresh(s: State, r: Recovery) {
    && (!r.pc.Over? ==>
          SeenConn(r.pc) < s.nextConn && (s.sup.SettingUp? || s.sup.Recorded? ==> SeenConn(r.pc) < s.sup.conn))
    && (r.pc.Installed? ==> r.pc.ch.serial < s.nextSerial)
  }

  predicate Fresh(s: State) {
    && (s.conn.Some? ==> s.conn.value < s.nextConn)
    && (s.sup.SettingUp? || s.sup.Recorded? ==> s.sup.conn < s.nextConn && (s.conn.Some? ==> s.conn.value < s.sup.conn))
    && forall t :: 0 <= t < |s.recoveries| ==> RecoveryFresh(s, s.recoveries[t])
  }

  // A step of anyone but a recovery, as far as freshness can tell.
  ghost predicate KeepsOrder(s: State, s': State) {
    && s'.recoveries == s.recoveries && s.nextConn <= s'.nextConn && s.nextSerial <= s'.nextSerial
    && (s'.conn == s.conn || s'.conn.None? || (s.sup.Recorded? && s'.sup.Announcing? && s'.conn == Some(s.sup.conn)))
    && (s'.sup.SettingUp? || s'.sup.Recorded? ==>
          && s'.conn == s.conn
          && if s.sup.SettingUp? || s.sup.Recorded?
             then s'.sup.conn == s.sup.conn else s'.sup.conn == s.nextConn < s'.nextConn)
  }

  lemma CallKeepsOrder(s: State, step: Step)
    requires Enabled(s, step) && (step.CallStep? || step.DrainStep?)
    ensures KeepsOrder(s, Apply(s, step))
  {
  }

  lemma OrderKeepsFresh(s: State, s': State)
    requires Fresh(s) && KeepsOrder(s, s')
    ensures Fresh(s')
  {
    forall t | 0 <= t < |s'.recoveries| ensures RecoveryFresh(s', s'.recoveries[t]) {
      assert RecoveryFresh(s, s.recoveries[t]);
    }
  }

  lemma SetupKeepsOrder(s: State, act: SetupAct)
    requires CanSetup(s, act)
    ensures KeepsOrder(s, ApplySetup(s, act))
  {
    match act
    case OpensSender(confirms) => OpenSenderTouches(s, confirms);
    case OpensReceiver(skipped, starts) => OpenReceiverTouches(s, skipped, starts);
    case _ =>
  }

  lemma WatchKeepsOrder(s: State, act: WatchAct)
    requires CanWatch(s, act)
    ensures KeepsOrder(s, ApplyWatch(s, act))
  {
    if act.ClearsNext? {
      ClearKeepsSpine(s);
    }
  }

  lemma EndKeepsOrder(s: State, act: EndAct)
    requires Inv(s) && CanEnd(s, act)
    ensures KeepsOrder(s, ApplyEnd(s, act))
  {
  }

  lemma CommitTouches(s: State, t: nat)
    requires CanRecover(s, t, Commits)
    ensures var s' := CommitRecovery(s, t);
            && s' == s.(ends := s'.ends, recoveries := s.recoveries[t := s.recoveries[t].(pc := Over)])
            && (ConnectionKept(s, s.recoveries[t].pc.ch) ==>
                  s'.ends.senders.live == s.ends.senders.live && s'.ends.receivers.live == s.ends.receivers.live)
  {
  }

  function NextPc(s: State, pc: RecoveryPc, act: RecoveryAct): RecoveryPc
    requires pc.Read? || pc.Reset? || pc.Checked? || pc.Starting?
  {
    match act
    case Resets => Reset(pc.conn)
    case ChecksDrain => Checked(pc.conn)
    case Starts => Starting(pc.conn)
    case Installs(_) => Installed(Chan(pc.conn, s.nextSerial))
    case _ => Over
  }

  lemma RecoveryMoves(s: State, t: nat, act: RecoveryAct)
    requires CanRecover(s, t, act) && !act.Commits? && !act.Begins? && !act.Declines?
    ensures var r, s' := s.recoveries[t], ApplyRecovery(s, t, act);
            && (act.Installs? ==> s'.nextSerial == s.nextSerial + 1)
            && s'.recoveries == s.recoveries[t := r.(pc := NextPc(s, r.pc, act))]
  {
  }

  lemma RecoveryKeepsFresh(s: State, t: nat, act: RecoveryAct)
    requires Inv(s) && Fresh(s) && CanRecover(s, t, act)
    ensures Fresh(ApplyRecovery(s, t, act))
  {
    if act.Commits? {
      CommitTouches(s, t);
    } else {
      RecoveryKeepsSpine(s, t, act);
      if !act.Begins? && !act.Declines? {
        RecoveryMoves(s, t, act);
        assert RecoveryFresh(s, s.recoveries[t]);
      }
    }
  }

  lemma StepKeepsFresh(s: State, step: Step)
    requires Inv(s) && Fresh(s) && Enabled(s, step)
    ensures Fresh(Apply(s, step))
  {
    if step.RecoveryStep? {
      RecoveryKeepsFresh(s, step.t, step.act);
      return;
    }
    match step
    case CallStep(_) => CallKeepsOrder(s, step);
    case DrainStep(_) => CallKeepsOrder(s, step);
    case SetupStep(act) => SetupKeepsOrder(s, act);
    case WatchStep(act) => WatchKeepsOrder(s, act);
    case EndStep(act) => EndKeepsOrder(s, act);
    OrderKeepsFresh(s, Apply(s, step));
  }

  lemma {:induction false} RunKeepsFresh(s: State, run: seq<Step>)
    requires Inv(s) && Fresh(s) && Legal(s, run)
    ensures Fresh(Exec(s, run))
    decreases |run|
  {
    if run != [] {
      StepKeepsInv(s, run[0]);
      StepKeepsFresh(s, run[0]);
      RunKeepsFresh(Apply(s, run[0]), run[1..]);
    }
  }

  lemma ReachableFresh(s: State)
    requires Reachable(s)
    ensures Fresh(s)
  {
    var senders, receivers, run :| Arrives(senders, receivers, run, s);
    InitiallyInv(senders, receivers);
    RunKeepsFresh(Initial(senders, receivers), run);
  }

  // --------------------------------------------------- receivers after a Stop

  // A recovery of the current connection that nothing will keep from starting its receiver
  // again: it is in the receiver's Start, or about to be and the receiver is not drained.
  predicate MayRestart(s: State, r: Recovery) {
    && r.kind.Receiver? && r.idx < |s.ends.receivers.live|
    && (r.pc.Starting? || (r.pc.Checked? && r.idx !in s.drainedReceivers))
    && s.connected && s.conn == Some(r.pc.conn)
  }

  predicate NoneMayRestart(s: State) {
    forall t :: 0 <= t < |s.recoveries| ==> !MayRestart(s, s.recoveries[t])
  }

  predicate Passed(s: State, i: nat) {
    (s.stop.StoppingReceivers? && i < s.stop.cleared) || StopReachedReceivers(s)
  }

  // Off, or in the hands of a recovery that will find the connection gone.
  predicate LetGo(s: State, i: nat)
    requires i < |s.ends.receivers.live|
  {
    var live := s.ends.receivers.live[i];
    live.Some? ==> Recovering(s, Receiver, i, live.value) && !ConnectionKept(s, live.value)
  }

  predicate Quiet(s: State) {
    && s.drained && !s.stop.NoStop? && NoneMayRestart(s)
    && forall i :: 0 <= i < |s.ends.receivers.live| && Passed(s, i) ==> LetGo(s, i)
  }

  lemma CallKeepsQuiet(s: State, call: Call)
    requires Inv(s) && Quiet(s) && CanCall(s, call)
    ensures Quiet(ApplyCall(s, call))
  {
    var s' := ApplyCall(s, call);
    forall i | 0 <= i < |s'.ends.receivers.live| && Passed(s', i) ensures LetGo(s', i) {
      assert Passed(s, i) && LetGo(s, i);
    }
  }

  lemma DrainKeepsQuiet(s: State, k: nat)
    requires Quiet(s) && Enabled(s, DrainStep(k))
    ensures Quiet(Apply(s, DrainStep(k)))
  {
    var s' := Apply(s, DrainStep(k));
    forall i | 0 <= i < |s'.ends.receivers.live| && Passed(s', i) ensures LetGo(s', i) {
      assert Passed(s, i) && LetGo(s, i);
    }
  }

  lemma SetupKeepsQuiet(s: State, act: SetupAct)
    requires Inv(s) && Fresh(s) && Quiet(s) && CanSetup(s, act)
    ensures Quiet(ApplySetup(s, act))
  {
  }

  lemma WatchKeepsQuiet(s: State, act: WatchAct)
    requires Inv(s) && Fresh(s) && Quiet(s) && CanWatch(s, act)
    ensures Quiet(ApplyWatch(s, act))
  {
    var s' := ApplyWatch(s, act);
    forall t | 0 <= t < |s'.recoveries| ensures !MayRestart(s', s'.recoveries[t]) {
      assert RecoveryFresh(s, s.recoveries[t]) && !MayRestart(s, s.recoveries[t]);
    }
  }

  lemma EndKeepsQuiet(s: State, act: EndAct)
    requires Inv(s) && Quiet(s) && CanEnd(s, act)
    ensures Quiet(ApplyEnd(s, act))
  {
    var s' := ApplyEnd(s, act);
    forall i | 0 <= i < |s'.ends.receivers.live| && Passed(s', i) ensures LetGo(s', i) {
      assert Passed(s, i) ==> LetGo(s, i);
    }
  }

  lemma InstallKeepsQuiet(s: State, t: nat, confirms: bool)
    requires Inv(s) && Quiet(s) && CanRecover(s, t, Installs(confirms))
    ensures Quiet(ApplyRecovery(s, t, Installs(confirms)))
  {
    var r, s' := s.recoveries[t], ApplyRecovery(s, t, Installs(confirms));
    RecoveryKeepsSpine(s, t, Installs(confirms));
    assert !MayRestart(s, r);
    forall i | 0 <= i < |s'.ends.receivers.live| && Passed(s', i) ensures LetGo(s', i) {
      InstallPuts(s, t, confirms, Receiver, i);
      assert Passed(s, i) && LetGo(s, i);
      if s'.ends.receivers.live[i].Some? {
        if r.kind.Receiver? && r.idx == i {
          assert s'.recoveries[t] == Recovery(Receiver, i, Installed(s'.ends.receivers.live[i].value));
        } else {
          RecoveringStays(s, t, Installs(confirms), Receiver, i, s.ends.receivers.live[i].value);
        }
      }
    }
  }

  lemma RecoveryKeepsQuiet(s: State, t: nat, act: RecoveryAct)
    requires Inv(s) && Quiet(s) && CanRecover(s, t, act) && !act.Commits? && !act.Installs?
    ensures Quiet(ApplyRecovery(s, t, act))
  {
    var s' := ApplyRecovery(s, t, act);
    RecoveryKeepsSpine(s, t, act);
    forall i | 0 <= i < |s'.ends.receivers.live| && Passed(s', i) ensures LetGo(s', i) {
      RecoveryPuts(s, t, act, Receiver, i);
      assert Passed(s, i) && LetGo(s, i);
      if s'.ends.receivers.live[i].Some? {
        RecoveringStays(s, t, act, Receiver, i, s.ends.receivers.live[i].value);
      }
    }
  }

  lemma CommitKeepsQuiet(s: State, t: nat)
    requires Inv(s) && Quiet(s) && CanRecover(s, t, Commits)
    ensures Quiet(ApplyRecovery(s, t, Commits))
  {
    var r, s' := s.recoveries[t], ApplyRecovery(s, t, Commits);
    forall i | 0 <= i < |s'.ends.receivers.live| && Passed(s', i) ensures LetGo(s', i) {
      assert Passed(s, i) && LetGo(s, i);
      if s'.ends.receivers.live[i].Some? {
        assert r != Recovery(Receiver, i, Installed(s.ends.receivers.live[i].value));
        RecoveringStays(s, t, Commits, Receiver, i, s.ends.receivers.live[i].value);
      }
    }
  }

  lemma StepKeepsQuiet(s: State, step: Step)
    requires Inv(s) && Fresh(s) && Quiet(s) && Enabled(s, step)
    ensures Quiet(Apply(s, step))
  {
    match step
    case CallStep(call) => CallKeepsQuiet(s, call);
    case DrainStep(i) => DrainKeepsQuiet(s, i);
    case SetupStep(act) => SetupKeepsQuiet(s, act);
    case WatchStep(act) => WatchKeepsQuiet(s, act);
    case EndStep(act) => EndKeepsQuiet(s, act);
    case RecoveryStep(t, act) =>
      match act
      case Commits => CommitKeepsQuiet(s, t);
      case Installs(confirms) => InstallKeepsQuiet(s, t, confirms);
      case _ => RecoveryKeepsQuiet(s, t, act);
  }

  lemma {:induction false} RunKeepsQuiet(s: State, run: seq<Step>)
    requires Inv(s) && Fresh(s) && Quiet(s) && Legal(s, run)
    ensures Quiet(Exec(s, run))
    decreases |run|
  {
    if run != [] {
      StepKeepsInv(s, run[0]);
      StepKeepsFresh(s, run[0]);
      StepKeepsQuiet(s, run[0]);
      RunKeepsQuiet(Apply(s, run[0]), run[1..]);
    }
  }

  // ---------------------------------------------- a receiver started again

  lemma {:induction false} RunsJoin(s: State, first: seq<Step>, second: seq<Step>)
    requires Legal(s, first) && Legal(Exec(s, first), second)
    ensures Legal(s, first + second) && Exec(s, first + second) == Exec(Exec(s, first), second)
    decreases |first|
  {
    if first == [] {
      assert first + second == second;
    } else {
      var s1, both := Apply(s, first[0]), first + second;
      RunsJoin(s1, first[1..], second);
      assert both[0] == first[0] && both[1..] == first[1..] + second;
      assert Legal(s1, both[1..]) && Exec(s, both) == Exec(s1, both[1..]);
    }
  }

  lemma After(s: State, run: seq<Step>, step: Step) returns (longer: seq<Step>)
    requires Legal(s, run) && Enabled(Exec(s, run), step)
    ensures Legal(s, longer) && Exec(s, longer) == Apply(Exec(s, run), step)
  {
    assert [step][1..] == [];
    RunsJoin(s, run, [step]);
    longer := run + [step];
  }

  lemma {:induction false} StopPassesReceivers(s: State, past: seq<Step>)
    returns (run: seq<Step>, live: seq<Option<Chan>>)
    requires Legal(s, past) && Exec(s, past).stop.StoppingReceivers?
    requires var t := Exec(s, past);
             && t.stop.cleared <= |t.ends.receivers.live|
             && forall i :: 0 <= i < t.stop.cleared ==> t.ends.receivers.live[i].None?
    ensures Legal(s, run) && |live| == |Exec(s, past).ends.receivers.live|
    ensures forall i :: 0 <= i < |live| ==> live[i].None?
    ensures var t := Exec(s, past);
            Exec(s, run) == t.(
              ends := t.ends.(receivers := t.ends.receivers.(live := live)),
              stop := StoppingReceivers(|live|))
    decreases |Exec(s, past).ends.receivers.live| - Exec(s, past).stop.cleared
  {
    var t := Exec(s, past);
    if t.stop.cleared == |t.ends.receivers.live| {
      return past, t.ends.receivers.live;
    }
    var longer := After(s, past, EndStep(StopsReceiver));
    run, live := StopPassesReceivers(s, longer);
  }

  lemma {:induction false} StopPassesSenders(s: State, past: seq<Step>) returns (run: seq<Step>)
    requires Legal(s, past) && Exec(s, past).stop.StoppingSenders? &&
        Exec(s, past).stop.cleared <= |Exec(s, past).ends.senders.live|
    ensures Legal(s, run) && Exec(s, run).stop.Stopped?
    ensures Exec(s, run).ends.receivers.live == Exec(s, past).ends.receivers.live &&
        Exec(s, run).recoveries == Exec(s, past).recoveries
    decreases |Exec(s, past).ends.senders.live| - Exec(s, past).stop.cleared
  {
    if Exec(s, past).stop.cleared == |Exec(s, past).ends.senders.live| {
      run := After(s, past, EndStep(TakesChannels));
    } else {
      run := After(s, past, EndStep(StopsSender));
      run := StopPassesSenders(s, run);
    }
  }

  // The reconnect goroutine leaves, and Stop passes every receiver.
  lemma StopOvertakes(s: State) returns (run: seq<Step>)
    requires Inv(s) && s.connected && s.stop.Joining?
    ensures Legal(s, run)
    ensures var t := Exec(s, run);
            && t.stop == StoppingReceivers(|t.ends.receivers.live|) &&
                |t.ends.receivers.live| == |s.ends.receivers.live|
            && (forall i :: 0 <= i < |t.ends.receivers.live| ==> t.ends.receivers.live[i].None?)
            && t.connected && t.conn == s.conn && t.recoveries == s.recoveries && t.nextSerial == s.nextSerial
            && t.drainedReceivers == s.drainedReceivers
  {
    run := [];
    if s.sup.Announcing? {
      run := After(s, run, WatchStep(FiresOnConnect));
    }
    if Exec(s, run).sup.Watching? {
      run := After(s, run, WatchStep(LeavesWatch));
    }
    run := After(s, run, EndStep(JoinsSupervisor));
    var live;
    run, live := StopPassesReceivers(s, run);
  }

  lemma RestartInstalls(s: State, t: nat) returns (run: seq<Step>)
    requires t < |s.recoveries| && MayRestart(s, s.recoveries[t])
    requires s.ends.receivers.live[s.recoveries[t].idx].None?
    ensures Legal(s, run)
    ensures var r := s.recoveries[t];
            var ch := Chan(r.pc.conn, s.nextSerial);
            Exec(s, run) == Put(s, Receiver, r.idx, Some(ch)).(
              recoveries := s.recoveries[t := r.(pc := Installed(ch))], nextSerial := s.nextSerial + 1)
  {
    if s.recoveries[t].pc.Checked? {
      run := After(s, [], RecoveryStep(t, Starts));
      run := After(s, run, RecoveryStep(t, Installs(true)));
    } else {
      run := After(s, [], RecoveryStep(t, Installs(true)));
    }
  }

  lemma RestartCommits(s: State, t: nat) returns (run: seq<Step>)
    requires t < |s.recoveries| && MayRestart(s, s.recoveries[t])
    requires s.ends.receivers.live[s.recoveries[t].idx].None?
    ensures Legal(s, run)
    ensures var r, s' := s.recoveries[t], Exec(s, run);
            && s'.ends.receivers.live == s.ends.receivers.live[r.idx := Some(Chan(r.pc.conn, s.nextSerial))]
            && s'.recoveries == s.recoveries[t := r.(pc := Over)]
            && s'.stop == s.stop
  {
    var installs := RestartInstalls(s, t);
    run := After(s, installs, RecoveryStep(t, Commits));
    CommitTouches(Exec(s, installs), t);
  }

  lemma StopFinishes(s: State) returns (run: seq<Step>)
    requires s.stop == StoppingReceivers(|s.ends.receivers.live|)
    ensures Legal(s, run) && Exec(s, run).stop.Stopped?
    ensures Exec(s, run).ends.receivers.live == s.ends.receivers.live && Exec(s, run).recoveries == s.recoveries
  {
    run := After(s, [], EndStep(MarksDisconnected));
    run := After(s, run, EndStep(FiresOnDisconnect));
    run := StopPassesSenders(s, run);
  }

  // The recovery starts its receiver again behind Stop's back, and commits before Stop
  // marks the client disconnected.
  lemma RestartsBehindStop(s: State, t: nat) returns (run: seq<Step>)
    requires Inv(s) && Fresh(s) && s.stop.Joining? && t < |s.recoveries| && MayRestart(s, s.recoveries[t])
    ensures Legal(s, run) && Exec(s, run).stop.Stopped?
    ensures var i, s' := s.recoveries[t].idx, Exec(s, run);
            i < |s'.ends.receivers.live| && !LetGo(s', i)
  {
    var overtaken := StopOvertakes(s);
    var s1 := Exec(s, overtaken);
    var restart := RestartCommits(s1, t);
    var finish := StopFinishes(Exec(s1, restart));
    RunsJoin(s1, restart, finish);
    RunsJoin(s, overtaken, restart + finish);
    run := overtaken + (restart + finish);
    assert forall k :: 0 <= k < |s.recoveries| ==> RecoveryFresh(s, s.recoveries[k]);
  }

  ghost predicate StopLetsReceiversGo(s: State) {
    forall run :: Legal(s, run) && Exec(s, run).stop.Stopped? ==>
      forall i :: 0 <= i < |Exec(s, run).ends.receivers.live| ==> LetGo(Exec(s, run), i)
  }

  // Stop leaves no receiver started, whatever happens meanwhile, exactly when it begins
  // with no recovery of the current connection that nothing will keep from starting its
  // receiver. What a late recovery still holds then, it takes out itself. A receiver left
  // started runs on the cancelled life context: its loop ends by itself, but it reads as
  // started, its epoch does not move and its tags read valid.
  lemma StopLeavesReceiversOffExactly(s: State)
    requires Reachable(s) && s.started && !s.stopping
    ensures NoneMayRestart(s) <==> StopLetsReceiversGo(Apply(s, CallStep(Call.Stop)))
  {
    ReachableInv(s);
    ReachableFresh(s);
    var s1 := Apply(s, CallStep(Call.Stop));
    StepKeepsInv(s, CallStep(Call.Stop));
    if NoneMayRestart(s) {
      forall run, i | Legal(s1, run) && Exec(s1, run).stop.Stopped? && 0 <= i < |Exec(s1, run).ends.receivers.live|
        ensures LetGo(Exec(s1, run), i)
      {
        RunKeepsQuiet(s1, run);
      }
    } else {
      var t :| 0 <= t < |s.recoveries| && MayRestart(s, s.recoveries[t]);
      assert MayRestart(s1, s1.recoveries[t]);
      var run := RestartsBehindStop(s1, t);
      assert !StopLetsReceiversGo(s1);
    }
  }

  // ------------------------------------------------- Stop after a Drain

  // Every receiver is drained, and none was caught inside a Start.
  predicate CleanlyDrained(s: State) {
    && (forall i :: 0 <= i < |s.ends.receivers.live| ==> i in s.drainedReceivers)
    && (forall t :: 0 <= t < |s.recoveries| && s.recoveries[t].kind.Receiver? ==> !s.recoveries[t].pc.Starting?)
  }

  lemma RecoveryKeepsDrained(s: State, t: nat, act: RecoveryAct)
    requires CleanlyDrained(s) && CanRecover(s, t, act)
    ensures CleanlyDrained(ApplyRecovery(s, t, act))
  {
    if act.Commits? {
      CommitTouches(s, t);
      assert |CommitRecovery(s, t).ends.receivers.live| == |s.ends.receivers.live|;
    } else {
      RecoveryKeepsSpine(s, t, act);
      if !act.Begins? && !act.Declines? {
        RecoveryMoves(s, t, act);
      }
    }
  }

  lemma StepKeepsDrained(s: State, step: Step)
    requires CleanlyDrained(s) && Enabled(s, step)
    ensures CleanlyDrained(Apply(s, step))
  {
    if step.RecoveryStep? {
      RecoveryKeepsDrained(s, step.t, step.act);
      return;
    }
    match step
    case CallStep(call) =>
    case DrainStep(i) =>
    case SetupStep(act) => SetupKeepsReceivers(s, act);
    case WatchStep(act) => WatchKeepsReceivers(s, act);
    case EndStep(act) => EndKeepsReceivers(s, act);
  }

  lemma SetupKeepsReceivers(s: State, act: SetupAct)
    requires CanSetup(s, act)
    ensures var s' := ApplySetup(s, act);
            && |s'.ends.receivers.live| == |s.ends.receivers.live|
            && s'.recoveries == s.recoveries && s'.drainedReceivers == s.drainedReceivers
  {
    match act
    case OpensSender(confirms) => OpenSenderTouches(s, confirms);
    case OpensReceiver(skipped, starts) => OpenReceiverTouches(s, skipped, starts);
    case _ =>
  }

  lemma EndKeepsReceivers(s: State, act: EndAct)
    requires CanEnd(s, act)
    ensures var s' := ApplyEnd(s, act);
            && |s'.ends.receivers.live| == |s.ends.receivers.live|
            && s'.recoveries == s.recoveries && s'.drainedReceivers == s.drainedReceivers
  {
    if act.StopsReceiver? {
      PutTouches(s, Receiver, s.stop.cleared, None);
    } else if act.StopsSender? {
      PutTouches(s, Sender, s.stop.cleared, None);
    }
  }

  lemma WatchKeepsReceivers(s: State, act: WatchAct)
    requires CanWatch(s, act)
    ensures var s' := ApplyWatch(s, act);
            && |s'.ends.receivers.live| == |s.ends.receivers.live|
            && s'.recoveries == s.recoveries && s'.drainedReceivers == s.drainedReceivers
  {
    if act.ClearsNext? {
      ClearKeepsSpine(s);
    }
  }

  lemma {:induction false} RunKeepsDrained(s: State, run: seq<Step>)
    requires CleanlyDrained(s) && Legal(s, run)
    ensures CleanlyDrained(Exec(s, run))
    decreases |run|
  {
    if run != [] {
      StepKeepsDrained(s, run[0]);
      RunKeepsDrained(Apply(s, run[0]), run[1..]);
    }
  }

  // The graceful shutdown: once every receiver has been drained, none of them inside a
  // Start, a Stop at any later time leaves every receiver off, in every run.
  lemma StopAfterDrainLeavesReceiversOff(s: State, between: seq<Step>)
    requires Reachable(s) && CleanlyDrained(s) && Legal(s, between)
    requires Exec(s, between).started && !Exec(s, between).stopping
    ensures StopLetsReceiversGo(Apply(Exec(s, between), CallStep(Call.Stop)))
  {
    var senders, receivers, past :| Arrives(senders, receivers, past, s);
    RunsJoin(Initial(senders, receivers), past, between);
    assert Arrives(senders, receivers, past + between, Exec(s, between));
    RunKeepsDrained(s, between);
    StopLeavesReceiversOffExactly(Exec(s, between));
  }

  // From the beginning: a run that ends stopped with a receiver started, and no recovery left
  // to take it off.
  lemma RecoveryOutlivesStop() returns (run: seq<Step>)
    ensures Legal(Initial(0, 1), run)
    ensures Exec(Initial(0, 1), run).stop.Stopped? && |Exec(Initial(0, 1), run).ends.receivers.live| == 1
    ensures Exec(Initial(0, 1), run).ends.receivers.live[0].Some?
    ensures Exec(Initial(0, 1), run).recoveries == [Recovery(Receiver, 0, Over)]
  {
    run := StopMeetsRecovery();
    run := Then(run, RecoveryStep(0, Starts));
    run := Then(run, RecoveryStep(0, Installs(true)));
    run := Then(run, RecoveryStep(0, Commits));
    run := Then(run, EndStep(MarksDisconnected));
    run := Then(run, EndStep(FiresOnDisconnect));
    run := Then(run, EndStep(TakesChannels));
  }

  lemma StopMeetsRecovery() returns (run: seq<Step>)
    ensures Legal(Initial(0, 1), run)
    ensures Exec(Initial(0, 1), run) ==
            State(true, true, true, true, true, Some(0), Ends(Side([], []), Side([None], [Chan(0, 0)])), {},
                  Exited, StoppingReceivers(1), [Recovery(Receiver, 0, Checked(0))], 1, 1, [OnConnect], 0)
  {
    run := ConnectedRun();
    run := Then(run, RecoveryStep(0, Begins(Receiver, 0)));
    run := Then(run, RecoveryStep(0, Resets));
    run := Then(run, RecoveryStep(0, ChecksDrain));
    run := Then(run, CallStep(Call.Stop));
    run := Then(run, WatchStep(LeavesWatch));
    run := Then(run, EndStep(JoinsSupervisor));
    run := Then(run, EndStep(StopsReceiver));
  }

  lemma ConnectedRun() returns (run: seq<Step>)
    ensures Legal(Initial(0, 1), run)
    ensures Exec(Initial(0, 1), run) ==
            State(true, false, false, false, true, Some(0),
                Ends(Side([], []), Side([Some(Chan(0, 0))], [Chan(0, 0)])), {},
                  Watching, NoStop, [], 1, 1, [OnConnect], 0)
  {
    run := [];
    run := Then(run, CallStep(Call.Start));
    run := Then(run, SetupStep(DialOk));
    run := Then(run, SetupStep(OpensReceiver(false, true)));
    run := Then(run, SetupStep(RecordsChannels));
    run := Then(run, WatchStep(PublishesConnection));
    run := Then(run, WatchStep(FiresOnConnect));
  }

  lemma Then(run: seq<Step>, step: Step) returns (longer: seq<Step>)
    requires Legal(Initial(0, 1), run) && Enabled(Exec(Initial(0, 1), run), step)
    ensures Legal(Initial(0, 1), longer) && Exec(Initial(0, 1), longer) == Apply(Exec(Initial(0, 1), run), step)
  {
    longer := After(Initial(0, 1), run, step);
  }
}
