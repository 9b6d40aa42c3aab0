# Verification of the RabbitMQ client

This project models the parts of `vinculum-rabbitmq` that keep state across calls or search: the life
of a receiver and the settling of its deliveries, the client's connection supervisor, the correlation
of confirms with mandatory returns, the routing-key matcher with captures, and the capping of consumer
tags. `dafny verify dfyconfig.toml` checks it.

## How it is laid out

| file | what it holds |
|---|---|
| `ReceiverLifecycle.dfy`, `ReceiverSafety.dfy` | Start, Drain, Stop and the delivery loop as a transition system, and what every run keeps |
| `ReceiverCancels.dfy` | what a Drain and a Stop do to the loop they took |
| `UnsettledCount.dfy` | the same system interleaved with any number of goroutines that settle deliveries |
| `ReceiverCallers.dfy` | the client's goroutines as the callers of one receiver: who keeps the rule on Start, and when |
| `Receiver.dfy` | the receiver as a class: Start, Drain and Stop, each tied to an uninterrupted run of the lifecycle |
| `Settlement.dfy` | the settle object, the settler, the delivery path and the loop as classes and methods |
| `Supervisor.dfy`, `SupervisorSafety.dfy`, `SupervisorStop.dfy`, `SupervisorRecords.dfy` | reconnect goroutine, channel recoveries and Stop as a transition system, and what every run keeps |
| `ClientSetup.dfy`, `Reconnect.dfy` | `setupChannels`, the dial loop and the default backoff as methods |
| `SenderReturns.dfy`, `SenderSafety.dfy`, `SenderVerdicts.dfy` | concurrent mandatory publishes over one returns buffer |
| `SenderChannel.dfy` | `setChannel`, `drainReturns` and one publish as methods of a class |
| `RoutingKeys.dfy` | patterns, captures, stripped patterns, choice of a subscription |
| `ConsumerTag.dfy` | UTF-8, and truncation of a tag on a boundary of it |

Concurrent code is a transition system: a step is one critical section, one atomic access, or one event
outside the process (the broker, a deadline, a cancelled context), and a step outside the process may
come at any point where it makes sense. Lemmas about runs quantify over every finite sequence of enabled
steps, so over every interleaving of any number of Drains, Stops, publishers, recoveries and settlers. A
history field (what was sent, which Drain fell back, who read which buffer) changes no decision.
Code that updates fields or loops in place is a method proved against the functions of those systems or
against a declarative relation.

## What the model takes as given

- **Callers of a receiver's Start.** The client is responsible for calling Start and Stop in turn
  (receiver/receiver.go:58-61). The rule used is: a Start begins only when no other Start is between its
  check and its install and every earlier Stop of a started cycle has moved the epoch.
  `StartRuleExactly` shows that the rule is exactly what keeps every tag from carrying an epoch older than
  its cycle. It is a rule on callers, and the repository's own client can break it: a recovery waits in the
  receiver's Stop (client/client.go:779) for a slow handler, the connection drops, `handleDisconnect` finds
  nothing to stop (440-442) and `setupChannels` starts the receiver (370) while the first Stop has not moved
  the epoch. `ClientKeepsRuleExactly` says in which runs of the client the rule holds, `ReconnectIsSafeExactly`
  when the connect path may start the receiver, and `ReconnectBreaksRule` is the run just described: tags of
  two channels read valid together. The results of `ReceiverSafety` that need the rule hold of the runs
  that keep it.
- **Start is two sections.** The lock is released between the check (receiver/receiver.go:200-225) and the
  install (262-272). The comment at 113-121 says that a Drain cannot land between them; the code lets it,
  and the code is what is modelled. `DrainPromiseExactly` gives the exact consequence.
- **`bus.Settler`** is not in the repository. Its contract comes from receiver/settle.go:50-56 and 126-133:
  `Valid` is asked first, one op runs per claim, a failed op gives the claim back. `bus.SettleOnReturn`
  follows receiver/receiver.go:662-681.
- **The broker and the AMQP library.** A Return precedes the Ack of its publish on the wire
  (sender/sender.go:154-158) and the library dispatches frames in order; MessageIds are unique; a
  cancelled consumer's deliveries end behind what was already sent (receiver/receiver.go:307-313).
- **Bytes.** In `RoutingKeys` one `char` stands for one byte of a Go string; a nil map is `map[]`.
- Dials, channel opens, declares, consumes, cancels, publishes and the subscriber's outcome are answers
  that may go either way; deadlines and contexts may fire at any point.

## Where the code and its documentation part

- `README.md` of the repository and client/doc.go describe Start as synchronous, and decode failures as
  falling back to raw bytes. The code starts a goroutine and returns, and refuses the delivery. The model
  follows the code.
- client/client.go:193-194 latches `stopping` when Stop comes before Start; a Stop of the client started
  later then does nothing (`StopIsEffectiveExactly`).
- A receiver recovery past its checks for a drain can start its receiver again after Stop has passed it
  (`StopLeavesReceiversOffExactly`, and `RecoveryOutlivesStop` for a concrete run). The receiver then runs on
  the cancelled life context, so its loop ends by itself; what stays is a receiver that reads as started, an
  epoch that has not moved and tags that read valid. A Stop after a Drain that caught no receiver inside a
  Start has no such gap (`StopAfterDrainLeavesReceiversOff`).
- client/client.go:775-778 says that a recovery's Stop only clears bookkeeping, because the loop has exited
  with its channel. A loop whose handler is still running has not, and the Stop waits for it; that wait is
  where the rule on Start is broken (`ReconnectBreaksRule`).
- sender/sender.go:154-158 expects every return of an acked publish to be in the buffer that the publish
  drains. The buffer is read anew after the ack, so this fails when the sender has been disconnected or
  given another channel meanwhile (`VerdictIsRightExactly`, and `LostReturn` for a concrete run).

- client/client.go:734-736 and 807-809 record a recovered channel without asking whether it is still the one
  in use. Two recoveries of one endpoint at once can leave the other's on record (`RecordsAreInUse`, and
  `TwoRecoveriesMisrecord` for a concrete run).

## Model

| member | source | states |
|---|---|---|
| ReceiverSafety.ValidTagsShareAChannel | receiver/settle.go:138-144 | in every run, two deliveries that read valid at the same moment came from the newest cycle, abandoned loops and late stamps included |
| ReceiverSafety.OneLoopRuns | receiver/receiver.go:500-516 | at most one delivery loop runs; one that neither the fields nor a Stop under way owns belongs to a drained receiver whose Drain published it |
| ReceiverSafety.EpochCountsRetiredCycles | receiver/receiver.go:440-477 | the epoch is the number of cycles started, less one while a cycle is started or being stopped |
| ReceiverSafety.EveryCycleRetiredOnce | receiver/receiver.go:456-476 | every cycle behind the epoch was retired by one Stop and no cycle by two; nothing else moves the epoch |
| ReceiverSafety.StopNeverBlocksAfterDrain | receiver/receiver.go:425-456 | once a Drain has taken a started cycle, a Stop of it either finds the loop finished or gives up and reports it; it never waits for a running one |
| ReceiverSafety.StopWaitsWithoutDrain | receiver/receiver.go:208-214 | with no Drain before it, a Stop reaches its epoch move only after its loop has finished |
| ReceiverSafety.DrainPromiseExactly | receiver/receiver.go:330-422 | in all continuations a Drain that returned nil leaves no loop running but one a Stop is waiting for, if and only if no Start was between check and install when the Drain took the lock |
| ReceiverSafety.DrainInGapBreaksPromise | receiver/receiver.go:113-121 | from every state with a Start in that gap, a run of permitted steps after which the Drain has returned nil and a loop runs unowned |
| ReceiverSafety.DrainMissesStart | receiver/receiver.go:113-121 | the same as one concrete run from the beginning |
| ReceiverSafety.DrainedIsTerminal | receiver/receiver.go:217-220 | after a Drain, cycles can only come from Starts that had already passed their check; no later Start consumes, whatever callers do |
| ReceiverSafety.NothingSkipped | receiver/receiver.go:500-516 | deliveries taken, followed by those unread, are the deliveries sent, in order; unread ones are left behind only by a cancelled work context or a Drain's fallback |
| ReceiverSafety.CleanDrainHandlesBacklog | receiver/receiver.go:307-313 | a Drain that withdrew its consumer returns nil only after the loop has taken everything sent, unless a Stop or the client's context cut it short |
| ReceiverSafety.TagsOutliveDraining | receiver/receiver.go:301-310 | no number of Drains, Starts and settles changes what reads valid; only a Stop of a started cycle does |
| ReceiverSafety.DrainsLeaveWorkAlone | receiver/receiver.go:486-499 | a Drain, its fallback included, never cancels the context deliveries and settles run on |
| ReceiverSafety.StaleStaysStale | receiver/settle.go:134-137 | a delivery refused once is refused in every later state |
| ReceiverSafety.StartRuleExactly | receiver/receiver.go:58-61 | for a Start that finds the receiver free, every tag of every continuation carries an epoch no older than its cycle if and only if the Start began under the rule on callers |
| ReceiverSafety.DiscourteousStartMisstamps | receiver/receiver.go:199-276 | from every reachable state in which the rule is broken, a run that stamps a delivery with an older cycle's epoch |
| ReceiverSafety.StopUnderWay | receiver/receiver.go:440-475 | a concrete run from the beginning to such a state, a Stop between its lock and its epoch move, and one that misstamps from there |
| ReceiverSafety.RunKeepsInv | receiver/receiver.go:199-477 | the invariant behind these survives every run: fields name the newest cycle, one unfinished Stop, running loops are owned, stamps and Drain records agree |
| ReceiverCancels.FallbackEndsLoop | receiver/receiver.go:379-385 | from every reachable state, a Drain whose cancel is refused or late, or that has no channel, cancels the read context of its cycle and nothing else: a loop at its select can leave at once |
| ReceiverCancels.WithdrawalKeepsBacklog | receiver/receiver.go:307-313 | one that withdraws its consumer only ends the deliveries behind what was sent |
| ReceiverCancels.DoneReleases | receiver/receiver.go:412-417 | one that sees its loop done cancels the read context of a loop that has exited, and returns nil |
| ReceiverCancels.DrainEndsItsLoop | receiver/receiver.go:369-385 | in every run, a Drain past the broker's answer has ended its cycle's deliveries or cancelled its reading, so its loop has a way out |
| ReceiverCancels.ReturnedDrainEndedItsLoop | receiver/receiver.go:403-421 | the same of a Drain that has returned, whatever it returned |
| ReceiverCancels.LateDrainFails | receiver/receiver.go:398-405 | a Drain whose deadline has passed once the broker has answered, or failed to, reports it in every continuation, even when its loop is done by then |
| ReceiverCancels.StopCancelsCycle | receiver/receiver.go:450-452 | from every reachable state, Stop cancels its cycle's work and with it the reading: a loop at its select can leave |
| ReceiverCancels.StopCancelledItsLoop | receiver/receiver.go:450-476 | in every run, a Stop past that point has done so |
| ReceiverCancels.LifeCancelsCycle | receiver/receiver.go:258-259 | the end of the client's life does the same |
| ReceiverCallers.ClientKeepsRuleExactly | client/client.go:317-453 | over every interleaving of reconnects, recoveries and Stop, the client's run keeps the rule on Start if and only if no Start of it begins while another of its goroutines is in the receiver's Start or in a Stop of a started cycle |
| ReceiverCallers.PermittedExactly | receiver/receiver.go:199-276 | whatever breaks the rule is one of the client's goroutines: every Start in the gap and every unfinished Stop has its owner |
| ReceiverCallers.ReconnectPermittedExactly | client/client.go:351-376 | for the connect path only a recovery can: its own Stops and the client's are through by then |
| ReceiverCallers.ReconnectIsSafeExactly | client/client.go:369-374 | where the connect path finds the receiver free, starting it keeps every tag from carrying an epoch older than its cycle, in all that follows, if and only if no recovery is inside the receiver |
| ReceiverCallers.UncontendedTagsShareAChannel | client/client.go:317-453 | in every such run of the client, two tags valid together are of the newest cycle |
| ReceiverCallers.WithoutRecoveries | client/client.go:403-453 | a client none of whose channels died on its own keeps the rule in every run |
| ReceiverCallers.ReconnectBreaksRule | client/client.go:775-779 | one concrete run of the client from the beginning that breaks it, after which tags of two channels read valid together |
| ReceiverCallers.RunKeepsInv | client/client.go:317-453 | the ownership behind these survives every run |
| UnsettledCount.UnsettledIsConserved | receiver/settle.go:58-67 | in every interleaving the count equals deliveries handed out and unreleased plus releases between swap and decrement; never negative; at most one decrement and one broker settle per delivery |
| UnsettledCount.NothingDueWhenReleased | receiver/receiver.go:137-146 | nothing is due exactly when every counted delivery has had its one decrement |
| UnsettledCount.NoSettlersUnderAckNone | receiver/settle.go:164-167 | under AckNone no run creates a settle object or moves the count |
| UnsettledCount.SettlersLetThroughShareAChannel | receiver/settle.go:112-144 | with settlers, op failures and retries interleaved, two deliveries whose settles would be let through belong to the newest cycle |
| UnsettledCount.StaleDeliveryIsNotSettled | receiver/settle.go:126-137 | once the epoch has passed a delivery, no run settles it at the broker beyond an op `Valid` had already let through |
| UnsettledCount.ReleaseSticks | receiver/settle.go:63-67 | whatever lets go of a delivery, an op, a refusal, a late keepalive or an observing subscriber, leaves it released in every continuation |
| UnsettledCount.ClaimAfterOp | receiver/settle.go:50-56 | the claim can be taken again after an op exactly when the op failed |
| UnsettledCount.LifeRunsAlone | receiver/settle.go:45-67 | settling never influences the receiver's life: erasing settle steps leaves a run of the lifecycle with the same result |
| Receivers.RMQReceiver.constructor | receiver/receiver.go:66-135 | a new receiver is the lifecycle's initial state with nothing unsettled |
| Receivers.RMQReceiver.Start | receiver/receiver.go:199-276 | refuses a drained receiver, then a started one, then one the broker refuses, changing nothing; otherwise the fields name the new cycle and channel |
| Receivers.RMQReceiver.Drain | receiver/receiver.go:330-422 | for every answer of the broker and the deadline: nil exactly when no loop is left running, or the loop finished in time; the read context is cancelled exactly without a withdrawn consumer; the epoch and the work are untouched |
| Receivers.RMQReceiver.Stop | receiver/receiver.go:440-484 | clears the cycle, moves the epoch exactly for a started one, gives up exactly on a delivery still running, and otherwise waits for its own loop |
| Receivers.StartAlone | receiver/receiver.go:199-276 | Start's contract is what the lifecycle's steps do when nothing comes between them |
| Receivers.DrainAlone | receiver/receiver.go:330-422 | as StartAlone, for a Drain under every answer, its deadline passed or not; its loop's deliveries are ended when the consumer was withdrawn and its reading cancelled when it was not |
| Receivers.StopAlone | receiver/receiver.go:440-484 | as StartAlone, for a Stop that joins its loop or gives up; its cycle's work is cancelled |
| Settlement.DeliverySettleOps.constructor | receiver/settle.go:164-169 | a settle object is stamped with the epoch of the moment and unreleased |
| Settlement.DeliverySettleOps.Release | receiver/settle.go:63-67 | leaves it released, moves the count by what was owed and no more, however often it runs |
| Settlement.DeliverySettleOps.Send | receiver/settle.go:71-103 | the broker records the verdict exactly when it accepts it, and the delivery is released either way |
| Settlement.DeliverySettleOps.Valid | receiver/settle.go:138-144 | says yes exactly on the current epoch; a refusal, and nothing else, releases |
| Settlement.Settler.Settle | receiver/settle.go:50-56 | after any settle the delivery is released, the broker has at most one settle in all, and the answer tells which of four cases it was |
| Settlement.Settler.Keepalive | receiver/settle.go:126-133 | asking settles nothing, and its release keeps the count's balance |
| Settlement.SettledExactly | receiver/settle.go:50-67 | over any sequence of settles, failed ops, keepalives and channel replacements: at most one settle reaches the broker, it is the first accepted one made before any replacement, and the delivery is released exactly when something tried to settle it or asked about it once stale |
| Settlement.ReleasedExactly | receiver/receiver.go:535-681 | a delivery is released when handling returns if and only if it was not routed, not decoded, given no topic, only observed, failed, handled under automatic acknowledgement, or let go of by the subscriber's side, whatever the broker or `Valid` answers |
| Settlement.VerdictExactly | receiver/receiver.go:535-672 | which settle the broker takes, for every plan: short of the subscriber, Ack of a key to be dropped and Nack of anything else; past it, what the subscriber's side got settled, else on its own channel Nack of a failure, Ack of a delivery handled under automatic acknowledgement, and nothing of the rest |
| Settlement.RunSubscriber | receiver/receiver.go:658-660 | the settler, the settle object and the epoch end as the attempts in order say, and the count's balance is kept |
| Settlement.HandleDelivery | receiver/receiver.go:520-681 | for every routing, decode and subscriber outcome: the settles the broker took and whether the delivery is released are those of `VerdictExactly` and `ReleasedExactly`; the count grows by what is still owed; without a settler nothing is counted |
| Settlement.RunLoop | receiver/receiver.go:500-516 | in every mode: uncancelled, every delivery sent is handled once and in order, each by a settle object of its own, new to the caller, that ends as `HandleDelivery` says, none under AckNone; the count has grown by exactly those still owed and the epoch by the channels replaced |
| Settlement.OutcomesAt | receiver/receiver.go:500-516 | the outcomes the loop's contract speaks of are those of the deliveries, one by one |
| SupervisorSafety.RecordedOnCurrentConnection | client/client.go:378-381 | whenever connected, both recorded lists have one channel per endpoint, each opened on the current connection |
| SupervisorRecords.RecordsAreInUse | client/client.go:706-738 | in every run in which no endpoint is recovered twice at once, while connected the channel an endpoint uses, no recovery having it in hand, is the one on record for it |
| SupervisorRecords.KeptCommitRecords | client/client.go:734-736 | a recovery whose connection is still the client's puts its channel on record in place of the dead one, and changes nothing else |
| SupervisorRecords.LateCommitRollsBack | client/client.go:728-733 | one whose connection is gone takes its endpoint off and changes no record |
| SupervisorRecords.TwoRecoveriesMisrecord | client/client.go:804-810 | with two recoveries of one receiver at once it fails: a concrete run from the beginning leaves on record a channel that is not the one in use |
| SupervisorRecords.RecoveryBeginsConnected | client/client.go:706-715 | a recovery begins only while connected, on the client's connection |
| SupervisorRecords.RecoveryInstalls | client/client.go:720-725 | a recovery's new channel is put in place of its endpoint's, for a sender when confirm mode is granted, and of no other's |
| SupervisorRecords.RecoveryStopsFirst | client/client.go:769-779 | a recovery, declined or not, first stops its receiver |
| SupervisorRecords.SenderOpened | client/client.go:341-349 | a sender's new channel is next on record, and installed exactly when confirm mode is granted |
| SupervisorRecords.ReceiverOpened | client/client.go:351-376 | a receiver is started on its new channel unless the client is drained; a refusal, and nothing else, fails the setup |
| SupervisorSafety.InstalledOnCurrentConnection | client/client.go:706-738 | whenever connected, an endpoint no recovery has in hand is off or on a channel of the current connection |
| SupervisorSafety.HooksAlternate | client/client.go:518-540 | OnConnect and OnDisconnect alternate, connect first, and the reconnection counter is max(0, connects - 1), in every run |
| SupervisorSafety.FirstConnectionNeverGivenUp | client/client.go:457-470 | until a first connection is made or the client is stopped, the reconnect goroutine goes on trying |
| SupervisorSafety.StoppedForGood | client/client.go:203-259 | after the effective Stop every connect has had its disconnect, the client is disconnected without a connection or channels on record, and a sender is off or in a recovery that will take it off |
| SupervisorSafety.StopIsEffectiveExactly | client/client.go:193-197 | among all runs in which Stop is called, one tears the client down if and only if no Stop came before Start; otherwise the life context is never cancelled |
| SupervisorSafety.RunKeepsInv | client/client.go:138-259 | the invariant behind these survives every interleaving |
| SupervisorStop.StopLeavesReceiversOffExactly | client/client.go:744-811 | every receiver is off, or held by a recovery that will find the connection gone, in every run that completes the Stop, if and only if Stop began with no recovery of the current connection inside its receiver's Start, or past its last check with the receiver not drained |
| SupervisorStop.StopAfterDrainLeavesReceiversOff | client/client.go:302-306 | once every receiver has been drained with none inside a Start, a Stop at any later time leaves every receiver off in every run |
| SupervisorRecords.DrainedReceiverStaysOff | client/client.go:302-306 | a drained receiver that is off, with no Start of it under way, is off in every continuation, through reconnects and recoveries |
| SupervisorRecords.DrainedClientRecoversNone | client/client.go:744-795 | once the client is drained no receiver recovery begins and none passes its checks, in every continuation |
| SupervisorRecords.DrainAndStopDrain | client/client.go:185-192 | Drain and every Stop, effective or not, leave the client drained |
| SupervisorRecords.DrainedStays | receiver/receiver.go:330-337 | a receiver's Drain is never undone |
| SupervisorStop.RestartsBehindStop | client/client.go:210-225 | from every such state, a run in which Stop completes and a receiver stays started with no recovery to take it off |
| SupervisorStop.RecoveryOutlivesStop | client/client.go:787-811 | the same as one concrete run from the beginning |
| SupervisorStop.RunKeepsFresh | client/client.go:506-521 | no connection or channel is used twice, and a connection being set up is newer than any a recovery holds |
| ClientSetup.Client.SetupChannels | client/client.go:317-394 | all or nothing at every failure point: success exactly when every answer allows it, then the lists hold the opened channels index-aligned; otherwise everything opened is closed once, all endpoints are off, the lists are untouched |
| ClientSetup.Client.OpenSenders | client/client.go:341-349 | opens in order, stops at the first refusal, installs on senders whose confirm mode was granted |
| ClientSetup.Client.OpenReceivers | client/client.go:351-376 | opens in order; a receiver that fails has its own channel closed here; one skipped by a drain keeps its channel on record |
| ClientSetup.Client.Cleanup | client/client.go:321-339 | all endpoints off, both lists closed, receivers' first |
| ClientSetup.ClosedExactlyOnce | client/client.go:321-339 | after a failed setup each channel of the call has exactly one close more than before, any other none |
| Reconnect.Connect | client/client.go:471-554 | the k-th dial is of broker k mod n of the list, the k-th backoff asked for is k's, connections that cannot be set up are closed; it gives up if and only if it is a repair with a positive limit, no dial within the limit works and the context outlives them, and then after exactly limit times n dials; no more looks at the context than its dials and waits |
| Reconnect.WalkBrokers | client/client.go:495-545 | one walk ends at the first dial that works, at the cancelled context, or at the end of the list |
| Reconnect.DefaultBackoff | client/config.go:102-111 | for every attempt number the delay is min(2^i, 60) seconds, with no intermediate above 64 s |
| Reconnect.DelayIsCappedDoubling | client/config.go:67-68 | the delays used in the totals are the documented schedule: 1 s, doubling, at most 60 s |
| Reconnect.TotalWait | client/config.go:70-91 | the total asked for over m attempts is 2^m - 1 seconds up to six and 63 + 60(m - 6) beyond |
| SenderVerdicts.VerdictIsRightExactly | sender/sender.go:350-365 | for an acked publish about to drain: no continuation hides its return from it if and only if it has none, or the sender still has its channel, or its return is stored or being stored by another's drain |
| SenderVerdicts.MissesUnlessHeard | sender/sender.go:216-222 | otherwise, from every such state, a run in which the publish reports success although it was returned |
| SenderVerdicts.LostReturn | sender/sender.go:217-222 | the same as one concrete run from the beginning |
| SenderVerdicts.VerdictsExactly | sender/sender.go:335-349 | in every run, a publish reports a publish error, a confirm error, a nack or neither exactly as the library refused it, its wait was cut short, the broker nacked or acked it |
| SenderVerdicts.BuffersFit | sender/sender.go:149-150 | no run puts more than 32 returns in a buffer |
| SenderSafety.ReturnedExactly | sender/sender.go:326-365 | for any number of concurrent publishes, one that was acked and drained its own channel reports "returned" if and only if the broker returned it, whoever took the return off the buffer |
| SenderSafety.ReturnedIsNeverInvented | sender/sender.go:356-361 | in every run, a report of "returned" is of a publish that was returned and acked |
| SenderSafety.EmptyBufferMeansStored | sender/sender.go:209-236 | when the owner of the drain lock finds a channel's buffer empty, every acked, returned publish of that channel in flight has its return in its pending entry |
| SenderSafety.ReturnsAreNeverMislaid | sender/sender.go:194-236 | a return of a publish in flight is on the wire, in the buffer, with the owner of the drain lock, stored, or lost with a channel that will never ack |
| SenderSafety.PendingIsInFlight | sender/sender.go:326-333 | the pending map's keys are exactly the mandatory publishes in flight |
| SenderSafety.RunKeepsInv | sender/sender.go:194-369 | the invariant behind these survives every interleaving |
| SenderChannel.RMQSender.constructor | sender/sender.go:75-104 | a new sender is disconnected, waits for nothing and has told no watcher to stop |
| SenderChannel.RMQSender.SetChannel | sender/sender.go:121-170 | each stop channel is closed at most once and only the installed one is open; in confirm mode a channel means a returns buffer, otherwise a live watcher; a refused confirm mode disconnects |
| SenderChannel.RMQSender.SetChannels | sender/sender.go:121-170 | the same over any sequence of calls |
| SenderChannel.RMQSender.HandleReturn | sender/sender.go:194-207 | stores a return for the publish waiting on its MessageId and for no other |
| SenderChannel.RMQSender.DrainReturns | sender/sender.go:216-236 | everything buffered is handled once, in order; nothing happens without a buffer |
| SenderChannel.RMQSender.PublishMandatory | sender/sender.go:322-369 | for a publish that no other overlaps, the outcome follows the answer, "returned" exactly when a return with its MessageId was buffered, and the pending map is left as it was but for what other publishes were given |
| SenderChannel.StoredExactly | sender/sender.go:203-207 | after any returns, an empty entry is filled exactly when one of them carried its MessageId |
| SenderChannel.StoredApart | sender/sender.go:203-207 | registering a publish changes nothing in what others are given |
| RoutingKeys.MatchTokens | receiver/subscription.go:68-119 | succeeds if and only if the key can be cut into pieces fitting the tokens; captures come from the cut with the lexicographically least lengths, the leftmost token deciding a repeated name |
| RoutingKeys.Match | receiver/subscription.go:62-66 | the same for whole strings |
| RoutingKeys.CapturesAreUnique | receiver/subscription.go:79-112 | those captures are determined by pattern and key |
| RoutingKeys.CapturesRebuildKey | receiver/subscription.go:84-88 | with all wildcards named and names distinct, substituting the captures rebuilds the key if and only if no "#" took exactly one empty word |
| RoutingKeys.SubstituteAlongCut | receiver/subscription.go:79-112 | the same along any fitting cut, and then the rebuilt key is strictly shorter |
| RoutingKeys.MatchRebuildsKey | receiver/subscription.go:62-66 | a key without empty words is rebuilt exactly from what was captured |
| RoutingKeys.WordRoundTrip | receiver/subscription.go:136-144 | joining undoes splitting for every string; splitting undoes joining if and only if the words are dot-free and not the single empty word |
| RoutingKeys.StripFieldNames | receiver/subscription.go:126-134 | yields the pattern with every capture name removed, word by word |
| RoutingKeys.StrippingKeepsMeaning | receiver/subscription.go:121-125 | the stripped pattern matches exactly the same keys, captures nothing, and stripping again changes nothing |
| RoutingKeys.FirstSubscription | receiver/receiver.go:715-719 | the first subscription that matches, with its captures; none exactly when none matches |
| RoutingKeys.ResolveTopic | receiver/receiver.go:714-735 | the default transform applies exactly when no subscription matches: the key as it is, the key with each dot and nothing else made a slash, or the action and no topic |
| ConsumerTags.CapConsumerTag | receiver/receiver.go:286-299 | for valid UTF-8 the longest valid prefix of at most 255 bytes, at least 252 of a longer tag; the identity on tags that fit; for any bytes, the last cut before a byte that starts a sequence |
| ConsumerTags.PrefixValid | receiver/receiver.go:296-297 | a proper prefix of valid UTF-8 is valid if and only if the byte after it is no continuation byte |
| ConsumerTags.ValidExactly | receiver/receiver.go:286-299 | the byte table used for valid UTF-8 (section 4 of RFC 3629) admits exactly the encodings of character sequences (section 3 of RFC 3629) |
| ConsumerTags.StartWithinFour | receiver/receiver.go:296-297 | any four consecutive bytes of valid UTF-8 contain the start of a sequence |
| ConsumerTags.CappingIsIdempotent | receiver/receiver.go:286-299 | capping twice is capping once |
| ConsumerTags.CapIsUnique | receiver/receiver.go:286-299 | the capped tag is determined by the tag |

## Left out

- AMQP library internals, dialling, TLS, SASL, `redactURL`: foreign code and I/O; their answers are parameters.
- Spans, propagators, metrics and logging: no effect on the state; the reconnection counter is kept.
- `vinculum-bus` topic matching, wire formats, payload decoding: not in the repository; a decode or a topic function may fail.
- Builders, configuration plumbing, `resolveMapping`, `headersToFields`, `fieldsToHeaders`, `carrier`, content types: each either passes values through or maps one value to another with no state; nothing above depends on them.
- Liveness: nothing claims that a dead channel is recovered in the end, that the count reaches zero, or that a publisher leaves a full returns buffer.
- A receiver's Stop is one step in `Supervisor`, which follows all endpoints; `ReceiverCallers` follows one receiver with the inner steps of its Start and Stop. In `Supervisor` the client's fields are values of a transition system, so update in place and aliasing are not captured there; `ClientSetup.Client` has them for `setupChannels`.
- A channel watcher in `Supervisor` appears as any number of recoveries of any endpoint that may begin whenever the client is connected: more than the code can produce, never less.
- The methods of `SenderChannel`, `ClientSetup`, `Settlement` and `Receivers` run alone; what interleaves with them is in the transition systems.
- The default schedule's `time.Duration` is a 64-bit integer; a custom backoff function is not modelled beyond the numbers it is asked for.
- RunLoop: takes the read context's cancellation as an iteration number and what the broker sends as a list; the interleaved form is `ReceiverLifecycle`.
- PublishMandatory: one publish at a time; the interleaved form is `SenderReturns`.
