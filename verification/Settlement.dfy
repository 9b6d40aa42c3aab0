/** The settling of deliveries, each run to completion (receiver/settle.go and the settle
    paths of handleDelivery). */
module Settlement {
  import opened Options
  import opened Receivers

  datatype Disposition = Handled | Deferred | Observed

  datatype Verdict = Ack | Nack

  // deliverySettleOps. `settles` is what the broker accepted for this delivery, in order.
  class DeliverySettleOps {
    const r: RMQReceiver
    const epoch: nat
    var released: bool
    ghost var settles: seq<Verdict>

    constructor (r: RMQReceiver)
      ensures this.r == r && epoch == r.epoch && !released && settles == []
    {
      this.r := r;
      epoch := r.epoch;
      released := false;
      settles := [];
    }

    // What the receiver's count owes this delivery.
    ghost function Owed(): int
      reads this
    {
      if released then 0 else 1
    }

    ghost predicate EndsAs(t: Outcome)
      reads this
    {
      released == t.released && settles == t.settles
    }

    // release: the count lets go once.
    method Release()
      modifies this`released, r`unsettled
      ensures released && r.unsettled - Owed() == old(r.unsettled - Owed())
    {
      if !released {
        released := true;
        r.unsettled := r.unsettled - 1;
      }
    }

    // Ack and Nack; release runs even when the broker did not take the settle.
    method Send(verdict: Verdict, accepted: bool) returns (ok: bool)
      modifies this`released, this`settles, r`unsettled
      ensures ok == accepted && settles == old(settles) + (if accepted then [verdict] else [])
      ensures released && r.unsettled - Owed() == old(r.unsettled - Owed())
    {
      if accepted {
        settles := settles + [verdict];
      }
      Release();
      return accepted;
    }

    // Valid: a refusal releases.
    method Valid() returns (valid: bool)
      modifies this`released, r`unsettled
      ensures valid <==> epoch == r.epoch
      ensures released <==> old(released) || !valid
      ensures r.unsettled - Owed() == old(r.unsettled - Owed())
    {
      if epoch != r.epoch {
        Release();
        return false;
      }
      return true;
    }
  }

  // What happens to a delivery while the subscriber has it.
  datatype Act = Settles(verdict: Verdict, accepted: bool) | KeepsAlive | ChannelReplaced

  // How one delivery stands: `stale` once its channel was replaced.
  datatype Standing = Standing(claimed: bool, released: bool, settles: seq<Verdict>, stale: bool)

  const JUST_HANDED_OUT := Standing(false, false, [], false)

  function AfterAct(t: Standing, act: Act): Standing {
    match act
    case Settles(verdict, accepted) =>
      if t.claimed then t
      else if t.stale || !accepted then t.(released := true)
      else t.(claimed := true, released := true, settles := t.settles + [verdict])
    case KeepsAlive => t.(released := t.released || t.stale)
    case ChannelReplaced => t.(stale := true)
  }

  function AfterActs(t: Standing, acts: seq<Act>): Standing {
    if acts == [] then t else AfterAct(AfterActs(t, acts[..|acts| - 1]), acts[|acts| - 1])
  }

  function Replacements(acts: seq<Act>): nat {
    if acts == [] then 0
    else Replacements(acts[..|acts| - 1]) + (if acts[|acts| - 1].ChannelReplaced? then 1 else 0)
  }

  // The settle the broker takes: the first it accepts, on the channel the delivery came from.
  predicate Wins(acts: seq<Act>, i: int) {
    && 0 <= i < |acts| && acts[i].Settles? && acts[i].accepted
    && forall j :: 0 <= j < i ==> !(acts[j].Settles? && acts[j].accepted) && !acts[j].ChannelReplaced?
  }

  // An attempt to settle, or a question that is answered with "channel reconnected".
  predicate LetsGo(acts: seq<Act>, i: int) {
    && 0 <= i < |acts|
    && (acts[i].Settles? || (acts[i].KeepsAlive? && exists j :: 0 <= j < i && acts[j].ChannelReplaced?))
  }

  lemma {:induction false} StandingIsSound(acts: seq<Act>)
    ensures var t := AfterActs(JUST_HANDED_OUT, acts);
            && |t.settles| == (if t.claimed then 1 else 0)
            && (t.claimed ==> t.released)
            && (t.stale <==> exists i :: 0 <= i < |acts| && acts[i].ChannelReplaced?)
  {
    if acts != [] {
      var before := acts[..|acts| - 1];
      StandingIsSound(before);
      assert forall i :: 0 <= i < |before| ==> acts[i] == before[i];
    }
  }

  lemma {:induction false} LetGoExactly(acts: seq<Act>)
    ensures AfterActs(JUST_HANDED_OUT, acts).released <==> exists i :: LetsGo(acts, i)
  {
    if acts != [] {
      var n := |acts| - 1;
      var before := acts[..n];
      LetGoExactly(before);
      StandingIsSound(before);
      assert forall i :: 0 <= i < n ==> before[i] == acts[i];
      assert forall i :: 0 <= i < n ==> (LetsGo(acts, i) <==> LetsGo(before, i));
      assert LetsGo(acts, n) <==> acts[n].Settles? || (acts[n].KeepsAlive? && AfterActs(JUST_HANDED_OUT, before).stale);
      assert (exists i :: LetsGo(acts, i)) <==> LetsGo(acts, n) || exists i :: LetsGo(before, i);
    }
  }

  // What is won by an attempt depends on nothing after it.
  lemma WinsAlready(acts: seq<Act>, n: nat, i: nat)
    requires i < n <= |acts|
    ensures Wins(acts, i) <==> Wins(acts[..n], i)
  {
    assert forall j :: 0 <= j < n ==> acts[..n][j] == acts[j];
  }

  lemma {:induction false} ClaimedExactly(acts: seq<Act>)
    ensures var t := AfterActs(JUST_HANDED_OUT, acts);
            && (t.claimed <==> exists i :: Wins(acts, i))
            && (forall i :: Wins(acts, i) ==> t.settles == [acts[i].verdict])
  {
    if acts != [] {
      var n := |acts| - 1;
      var before := acts[..n];
      var t := AfterActs(JUST_HANDED_OUT, before);
      ClaimedExactly(before);
      StandingIsSound(before);
      forall i | 0 <= i < n ensures Wins(acts, i) <==> Wins(before, i) {
        WinsAlready(acts, n, i);
      }
      LastWins(acts);
      assert (exists i :: Wins(acts, i)) <==> Wins(acts, n) || exists i :: Wins(before, i);
    }
  }

  // Whatever is attempted, in any order: which settle reaches the broker, and when the
  // count lets go of the delivery.
  lemma SettledExactly(acts: seq<Act>)
    ensures var t := AfterActs(JUST_HANDED_OUT, acts);
            && |t.settles| == (if t.claimed then 1 else 0)
            && (t.claimed <==> exists i :: Wins(acts, i))
            && (forall i :: Wins(acts, i) ==> t.settles == [acts[i].verdict])
            && (t.released <==> exists i :: LetsGo(acts, i))
            && (t.stale <==> exists i :: 0 <= i < |acts| && acts[i].ChannelReplaced?)
  {
    StandingIsSound(acts);
    LetGoExactly(acts);
    ClaimedExactly(acts);
  }

  // The last attempt wins when it is accepted, nothing won before it and the channel is
  // still the delivery's own.
  lemma LastWins(acts: seq<Act>)
    requires acts != []
    ensures var n := |acts| - 1;
            Wins(acts, n) <==>
              && acts[n].Settles? && acts[n].accepted && !(exists i :: Wins(acts[..n], i))
              && !AfterActs(JUST_HANDED_OUT, acts[..n]).stale
  {
    var before := acts[..|acts| - 1];
    StandingIsSound(before);
    assert forall i :: 0 <= i < |before| ==> acts[i] == before[i];
    if !AfterActs(JUST_HANDED_OUT, before).stale {
      FirstAcceptedWins(before);
    }
  }

  // With no replacement, an accepted settle has a first.
  lemma {:induction false} FirstAcceptedWins(acts: seq<Act>)
    requires forall j :: 0 <= j < |acts| ==> !acts[j].ChannelReplaced?
    ensures (exists j :: 0 <= j < |acts| && acts[j].Settles? && acts[j].accepted) <==> exists i :: Wins(acts, i)
  {
    if acts != [] {
      var before := acts[..|acts| - 1];
      FirstAcceptedWins(before);
      if i :| Wins(before, i) {
        assert Wins(acts, i);
      } else if acts[|acts| - 1].Settles? && acts[|acts| - 1].accepted {
        assert forall j :: 0 <= j < |before| ==> acts[j] == before[j];
        assert Wins(acts, |acts| - 1);
      }
    }
  }

  datatype SettleResult = Settled | AlreadySettled | Refused | Failed

  // The contract of bus.Settler that the comments of settle.go rely on: Valid is asked
  // first, one op runs per claim, and a failed op gives the claim back.
  class Settler {
    const ops: DeliverySettleOps
    var claimed: bool

    constructor (ops: DeliverySettleOps)
      requires ops.settles == []
      ensures this.ops == ops && !claimed && Sound()
    {
      this.ops := ops;
      claimed := false;
    }

    // The claim is kept exactly when the broker took a settle.
    ghost predicate Sound()
      reads this, ops
    {
      |ops.settles| == (if claimed then 1 else 0) && (claimed ==> ops.released)
    }

    ghost function View(): Standing
      reads this, ops, ops.r
    {
      Standing(claimed, ops.released, ops.settles, ops.epoch != ops.r.epoch)
    }

    method Settle(verdict: Verdict, accepted: bool) returns (result: SettleResult)
      requires Sound()
      modifies this`claimed, ops`released, ops`settles, ops.r`unsettled
      ensures Sound()
      ensures ops.released && ops.r.unsettled - ops.Owed() == old(ops.r.unsettled - ops.Owed())
      ensures result == if old(claimed) then AlreadySettled
                        else if ops.epoch != ops.r.epoch then Refused
                        else if accepted then Settled else Failed
      ensures ops.settles == old(ops.settles) + (if result == Settled then [verdict] else [])
      ensures View() == AfterAct(old(View()), Settles(verdict, accepted))
    {
      if claimed {
        return AlreadySettled;
      }
      var valid := ops.Valid();
      if !valid {
        return Refused;
      }
      var ok := ops.Send(verdict, accepted);
      claimed := ok;
      return if ok then Settled else Failed;
    }

    // Keepalive asks Valid and nothing else.
    method Keepalive() returns (valid: bool)
      requires Sound()
      modifies ops`released, ops.r`unsettled
      ensures Sound() && View() == AfterAct(old(View()), KeepsAlive)
      ensures valid <==> ops.epoch == ops.r.epoch
      ensures ops.r.unsettled - ops.Owed() == old(ops.r.unsettled - ops.Owed())
    {
      valid := ops.Valid();
    }
  }

  datatype Routing = RoutingError | Drops | NoSubscription | Routed

  // How each stage of handling answers. `finalAccepted`: the broker takes the settle
  // made on the way out, if one is.
  datatype Plan = Plan(
    routing: Routing,
    decodes: bool,
    topicResolves: bool,
    acts: seq<Act>,
    failed: bool,
    disposition: Disposition,
    finalAccepted: bool)

  predicate Reaches(plan: Plan) { plan.routing == Routed && plan.decodes && plan.topicResolves }

  // Whether the settle point acts: bus.SettleOnReturn as receiver.go describes it.
  predicate SettlesOnReturn(mode: AckMode, plan: Plan) {
    plan.disposition != Observed && (plan.failed || (mode == AckAfterHandling && plan.disposition == Handled))
  }

  // A key to be ignored is acknowledged; a delivery that cannot be handled, or whose
  // handling failed, is refused; one that was handled is acknowledged.
  function FinalVerdict(plan: Plan): Verdict {
    if plan.routing == Drops then Ack
    else if !Reaches(plan) then Nack
    else if plan.failed then Nack else Ack
  }

  // Everything handling a delivery attempts, in order, whoever attempts it.
  function Attempts(mode: AckMode, plan: Plan): seq<Act> {
    if !Reaches(plan) then [Settles(FinalVerdict(plan), plan.finalAccepted)]
    else plan.acts + (if SettlesOnReturn(mode, plan) then [Settles(FinalVerdict(plan), plan.finalAccepted)] else [])
  }

  // How a delivery stands when its handling returns. Only the observing subscriber's is
  // released by hand.
  function Result(mode: AckMode, plan: Plan): Standing {
    var t := AfterActs(JUST_HANDED_OUT, Attempts(mode, plan));
    if Reaches(plan) && plan.disposition == Observed then t.(released := true) else t
  }

  // What the subscriber and whatever it hands the settler to do with the delivery.
  method RunSubscriber(settler: Settler, acts: seq<Act>)
    requires settler.Sound() && settler.ops.epoch <= settler.ops.r.epoch
    modifies settler`claimed, settler.ops`released, settler.ops`settles, settler.ops.r`unsettled, settler.ops.r`epoch
    ensures settler.Sound() && settler.ops.r.epoch == old(settler.ops.r.epoch) + Replacements(acts)
    ensures settler.View() == AfterActs(old(settler.View()), acts)
    ensures settler.ops.r.unsettled - settler.ops.Owed() == old(settler.ops.r.unsettled - settler.ops.Owed())
  {
    for i := 0 to |acts|
      invariant settler.Sound() && settler.ops.r.epoch == old(settler.ops.r.epoch) + Replacements(acts[..i])
      invariant settler.View() == AfterActs(old(settler.View()), acts[..i])
      invariant settler.ops.r.unsettled - settler.ops.Owed() == old(settler.ops.r.unsettled - settler.ops.Owed())
    {
      assert acts[..i + 1][..i] == acts[..i];
      match acts[i]
      case Settles(verdict, accepted) => var result := settler.Settle(verdict, accepted);
      case KeepsAlive => var valid := settler.Keepalive();
      case ChannelReplaced => settler.ops.r.epoch := settler.ops.r.epoch + 1;
    }
    assert acts[..|acts|] == acts;
  }

  // handleDelivery, as its settle paths. The result is the delivery's settle object,
  // absent when the broker settles deliveries as it sends them.
  method HandleDelivery(r: RMQReceiver, plan: Plan) returns (ops: DeliverySettleOps?)
    modifies r`unsettled, r`epoch
    ensures ops == null <==> r.ackMode == AckNone
    ensures r.epoch == old(r.epoch) + (if Reaches(plan) then Replacements(plan.acts) else 0)
    ensures ops == null ==> r.unsettled == old(r.unsettled)
    ensures ops != null ==> fresh(ops) && ops.r == r && ops.epoch == old(r.epoch)
    ensures ops != null ==> r.unsettled == old(r.unsettled) + ops.Owed()
    ensures ops != null ==> ops.EndsAs(OutcomeOf(r.ackMode, plan))
  {
    if r.ackMode == AckNone {
      if Reaches(plan) {
        for i := 0 to |plan.acts|
          invariant r.unsettled == old(r.unsettled) && r.epoch == old(r.epoch) + Replacements(plan.acts[..i])
        {
          assert plan.acts[..i + 1][..i] == plan.acts[..i];
          if plan.acts[i] == ChannelReplaced {
            r.epoch := r.epoch + 1;
          }
        }
        assert plan.acts[..|plan.acts|] == plan.acts;
      }
      return null;
    }
    ops := new DeliverySettleOps(r);
    r.unsettled := r.unsettled + 1;
    var settler := new Settler(ops);
    var result;
    OneAttempt(JUST_HANDED_OUT, Settles(FinalVerdict(plan), plan.finalAccepted));
    match plan.routing
    case RoutingError | NoSubscription =>
      result := settler.Settle(Nack, plan.finalAccepted);
      return;
    case Drops =>
      result := settler.Settle(Ack, plan.finalAccepted);
      return;
    case Routed =>
    if !plan.decodes {
      result := settler.Settle(Nack, plan.finalAccepted);
      return;
    }
    if !plan.topicResolves {
      result := settler.Settle(Nack, plan.finalAccepted);
      return;
    }
    RunSubscriber(settler, plan.acts);
    assert plan.acts + [] == plan.acts;
    OneMore(JUST_HANDED_OUT, plan.acts, Settles(FinalVerdict(plan), plan.finalAccepted));
    if SettlesOnReturn(r.ackMode, plan) {
      result := settler.Settle(if plan.failed then Nack else Ack, plan.finalAccepted);
    }
    if plan.disposition == Observed {
      ops.Release();
    }
  }

  lemma OneAttempt(t: Standing, act: Act)
    ensures AfterActs(t, [act]) == AfterAct(t, act)
  {
    assert [act][..0] == [];
  }

  lemma OneMore(t: Standing, acts: seq<Act>, act: Act)
    ensures AfterActs(t, acts + [act]) == AfterAct(AfterActs(t, acts), act)
  {
    assert (acts + [act])[..|acts|] == acts;
  }

  // What handling one delivery comes to: its settle object as it stands then, and how
  // often the channel was replaced meanwhile.
  datatype Outcome = Outcome(released: bool, settles: seq<Verdict>, replaced: nat)

  function OutcomeOf(mode: AckMode, plan: Plan): Outcome {
    var t := Result(mode, plan);
    Outcome(t.released, t.settles, if Reaches(plan) then Replacements(plan.acts) else 0)
  }

  // The promise to a shutdown that waits for the count: a delivery that was not routed, not
  // decoded or not given a topic, one only observed, one that failed, and one handled
  // under automatic acknowledgement are let go whatever the broker or Valid answered; any
  // other is let go exactly when something tried to settle it, or asked about it after its
  // channel was gone.
  lemma ReleasedExactly(mode: AckMode, plan: Plan)
    ensures OutcomeOf(mode, plan).released <==>
      || plan.routing != Routed || !plan.decodes || !plan.topicResolves
      || plan.disposition == Observed || plan.failed
      || (mode == AckAfterHandling && plan.disposition == Handled)
      || exists i :: LetsGo(plan.acts, i)
  {
    var last := Settles(FinalVerdict(plan), plan.finalAccepted);
    if !Reaches(plan) {
      OneAttempt(JUST_HANDED_OUT, last);
    } else {
      StandingIsSound(plan.acts);
      LetGoExactly(plan.acts);
      OneMore(JUST_HANDED_OUT, plan.acts, last);
      assert plan.acts + [] == plan.acts;
    }
  }

  // Which settles the broker takes of one delivery, for every way its handling can go.
  // Short of the subscriber, a key to be dropped is acknowledged and everything else
  // refused. Past it, what the subscriber's side got settled stands; failing that, and on
  // its own channel still, a failure is refused, a delivery handled under automatic
  // acknowledgement is acknowledged, and the rest are left alone.
  lemma VerdictExactly(mode: AckMode, plan: Plan)
    ensures plan.routing == Drops ==> OutcomeOf(mode, plan).settles == if plan.finalAccepted then [Ack] else []
    ensures plan.routing == RoutingError || plan.routing == NoSubscription ||
            (plan.routing == Routed && (!plan.decodes || !plan.topicResolves)) ==>
              OutcomeOf(mode, plan).settles == if plan.finalAccepted then [Nack] else []
    ensures plan.routing == Routed && plan.decodes && plan.topicResolves ==>
              && (forall i :: Wins(plan.acts, i) ==> OutcomeOf(mode, plan).settles == [plan.acts[i].verdict])
              && (!(exists i :: Wins(plan.acts, i)) ==>
                    OutcomeOf(mode, plan).settles ==
                      if !plan.finalAccepted then []
                      else if exists i :: 0 <= i < |plan.acts| && plan.acts[i].ChannelReplaced? then []
                      else if plan.disposition == Observed then []
                      else if plan.failed then [Nack]
                      else if mode == AckAfterHandling && plan.disposition == Handled then [Ack] else [])
  {
    var last := Settles(FinalVerdict(plan), plan.finalAccepted);
    if !Reaches(plan) {
      OneAttempt(JUST_HANDED_OUT, last);
    } else {
      StandingIsSound(plan.acts);
      ClaimedExactly(plan.acts);
      OneMore(JUST_HANDED_OUT, plan.acts, last);
      assert plan.acts + [] == plan.acts;
    }
  }

  function Outcomes(mode: AckMode, plans: seq<Plan>): (outcomes: seq<Outcome>)
    ensures |outcomes| == |plans|
  {
    if plans == [] then [] else [OutcomeOf(mode, plans[0])] + Outcomes(mode, plans[1..])
  }

  lemma {:induction false} OutcomesAt(mode: AckMode, plans: seq<Plan>, k: nat)
    requires k < |plans|
    ensures Outcomes(mode, plans)[k] == OutcomeOf(mode, plans[k])
  {
    if k > 0 {
      OutcomesAt(mode, plans[1..], k - 1);
    }
  }

  // What the first n deliveries come to: how many stay with the count, under AckNone none,
  // and how often the channel was replaced.
  datatype Totals = Totals(owed: nat, replaced: nat)

  function TotalsOf(mode: AckMode, outcomes: seq<Outcome>, n: nat): Totals
    requires n <= |outcomes|
  {
    if n == 0 then Totals(0, 0)
    else
      var before, last := TotalsOf(mode, outcomes, n - 1), outcomes[n - 1];
      Totals(before.owed + (if mode == AckNone || last.released then 0 else 1), before.replaced + last.replaced)
  }

  // By delivery, the settle object handed out for it: one of its own for each of the first
  // n, standing as it was left, and under AckNone none.
  ghost predicate AllHandled(settled: map<nat, DeliverySettleOps>, r: RMQReceiver, outcomes: seq<Outcome>, n: nat)
    reads set k | k in settled :: settled[k]
  {
    && n <= |outcomes|
    && (forall k :: k in settled <==> 0 <= k < n && r.ackMode != AckNone)
    && (forall k <- settled :: settled[k].r == r && settled[k].EndsAs(outcomes[k]))
    && (forall j, k :: j in settled && k in settled && j < k ==> settled[j] != settled[k])
  }

  // And the receiver's books, `epoch` and `unsettled` being where the loop began.
  ghost predicate Booked(settled: map<nat, DeliverySettleOps>, r: RMQReceiver, outcomes: seq<Outcome>, n: nat,
                         existing: set<DeliverySettleOps>, epoch: nat, unsettled: int)
    reads r, set k | k in settled :: settled[k]
  {
    && AllHandled(settled, r, outcomes, n) && (forall k <- settled :: settled[k] !in existing)
    && r.epoch == epoch + TotalsOf(r.ackMode, outcomes, n).replaced
    && r.unsettled == unsettled + TotalsOf(r.ackMode, outcomes, n).owed
  }

  // One turn of the loop: nobody touches the objects handed out before.
  method HandleAt(r: RMQReceiver, plans: seq<Plan>, n: nat,
                  ghost settled: map<nat, DeliverySettleOps>, ghost outcomes: seq<Outcome>,
                  ghost existing: set<DeliverySettleOps>, ghost epoch: nat, ghost unsettled: int)
    returns (ghost handed: map<nat, DeliverySettleOps>)
    requires n < |plans| && outcomes == Outcomes(r.ackMode, plans)
    requires Booked(settled, r, outcomes, n, existing, epoch, unsettled)
    modifies r`unsettled, r`epoch
    ensures Booked(handed, r, outcomes, n + 1, existing, epoch, unsettled)
  {
    OutcomesAt(r.ackMode, plans, n);
    var ops := HandleDelivery(r, plans[n]);
    assert AllHandled(settled, r, outcomes, n) && (ops != null ==> ops.EndsAs(outcomes[n]));
    handed := if ops == null then settled else settled[n := ops];
  }

  // runLoop over everything the broker sends before it ends the deliveries, each handled
  // as planned. `cancelled`: the iteration from which the read context is done; `picks`:
  // those in which the select takes it when both are ready; `existing`: settle objects the
  // caller may know, none of which is handed out again.
  method RunLoop(r: RMQReceiver, plans: seq<Plan>, cancelled: Option<nat>, picks: set<nat>,
                 ghost existing: set<DeliverySettleOps>)
    returns (taken: nat, ghost settled: map<nat, DeliverySettleOps>)
    modifies r`unsettled, r`epoch
    ensures taken <= |plans|
    ensures cancelled.None? ==> taken == |plans|
    ensures taken < |plans| ==> cancelled.Some? && cancelled.value <= taken
    ensures AllHandled(settled, r, Outcomes(r.ackMode, plans), taken)
    ensures forall k <- settled :: settled[k] !in existing
    ensures var totals := TotalsOf(r.ackMode, Outcomes(r.ackMode, plans), taken);
            r.epoch == old(r.epoch) + totals.replaced && r.unsettled == old(r.unsettled) + totals.owed
  {
    taken, settled := 0, map[];
    ghost var outcomes := Outcomes(r.ackMode, plans);
    while taken < |plans|
      invariant taken <= |plans| && outcomes == Outcomes(r.ackMode, plans)
      invariant Booked(settled, r, outcomes, taken, existing, old(r.epoch), old(r.unsettled))
    {
      if cancelled.Some? && cancelled.value <= taken && taken in picks {
        return;
      }
      settled := HandleAt(r, plans, taken, settled, outcomes, existing, old(r.epoch), old(r.unsettled));
      taken := taken + 1;
    }
  }
}
