/** Settling under concurrency: the receiver's lifecycle interleaved with any number of
    goroutines holding settlers (receiver/settle.go). Each step is one atomic access. */
module UnsettledCount {
  import L = ReceiverLifecycle
  import Safety = ReceiverSafety

  // Where the holder of a delivery's claim stands; one claim at a time, as bus.Settler gives it.
  datatype Claim =
    | Free
    | Asking                    // about to ask Valid
    | Going                     // Valid said yes, the op is next
    | Answered(accepted: bool)  // the op returned, its deferred release has not run
    | Refusing                  // Valid saw an older epoch, its release has not run
    | Done

  // One settle object. `owed`: compare-and-swaps won and not yet followed by their decrement.
  datatype Entry = Entry(counted: bool, released: bool, owed: nat, decrements: nat, claim: Claim, settles: nat)

  // Entry k settles the delivery with stamp k.
  datatype Book = Book(life: L.State, entries: seq<Entry>, unsettled: int)

  function Initial(ackNone: bool): Book {
    Book(L.Initial(ackNone), [], 0)
  }

  datatype Step =
    | Life(step: L.Step)
    | Count(k: nat)                 // newSettler's increment; the settler is handed out after it
    | TakeClaim(k: nat)
    | AskValid(k: nat)
    | RunOp(k: nat, accepted: bool)
    | ReleaseClaimed(k: nat)        // the release of an op, or of a refusal
    | KeepaliveRelease(k: nat)      // Valid asked without a claim, and stale
    | ObservedRelease(k: nat)       // handleDelivery after an observing subscriber
    | Decrement(k: nat)

  predicate Stale(b: Book, k: nat)
    requires k < |b.life.stamps|
  {
    !Safety.ReadsValid(b.life, k)
  }

  predicate Enabled(b: Book, step: Step) {
    match step
    case Life(s) => L.Enabled(b.life, s)
    case Count(k) => k < |b.entries| && !b.entries[k].counted
    case TakeClaim(k) => k < |b.entries| && b.entries[k].counted && b.entries[k].claim.Free?
    case AskValid(k) => k < |b.entries| && k < |b.life.stamps| && b.entries[k].claim.Asking?
    case RunOp(k, _) => k < |b.entries| && b.entries[k].claim.Going?
    case ReleaseClaimed(k) => k < |b.entries| && (b.entries[k].claim.Answered? || b.entries[k].claim.Refusing?)
    case KeepaliveRelease(k) => k < |b.entries| && k < |b.life.stamps| && b.entries[k].counted && Stale(b, k)
    case ObservedRelease(k) => k < |b.entries| && b.entries[k].counted
    case Decrement(k) => k < |b.entries| && b.entries[k].owed > 0
  }

  // CompareAndSwap(false, true)
  function Swap(e: Entry): Entry {
    if e.released then e else e.(released := true, owed := e.owed + 1)
  }

  function Put(b: Book, k: nat, e: Entry): Book
    requires k < |b.entries|
  {
    b.(entries := b.entries[k := e])
  }

  // A stamped delivery gets its settle object.
  function WithLife(b: Book, life: L.State): Book {
    b.(life := life,
       entries := if |life.stamps| > |b.life.stamps|
                  then b.entries + [Entry(false, false, 0, 0, Free, 0)] else b.entries)
  }

  function Apply(b: Book, step: Step): Book
    requires Enabled(b, step)
  {
    match step
    case Life(s) => WithLife(b, L.Apply(b.life, s))
    case Count(k) => Put(b, k, b.entries[k].(counted := true)).(unsettled := b.unsettled + 1)
    case TakeClaim(k) => Put(b, k, b.entries[k].(claim := Asking))
    case AskValid(k) => Put(b, k, b.entries[k].(claim := if Stale(b, k) then Refusing else Going))
    case RunOp(k, accepted) =>
      var e := b.entries[k];
      Put(b, k, e.(claim := Answered(accepted), settles := e.settles + (if accepted then 1 else 0)))
    case ReleaseClaimed(k) =>
      var e := b.entries[k];
      Put(b, k, Swap(e).(claim := if e.claim == Answered(true) then Done else Free))
    case KeepaliveRelease(k) => Put(b, k, Swap(b.entries[k]))
    case ObservedRelease(k) => Put(b, k, Swap(b.entries[k]))
    case Decrement(k) =>
      var e := b.entries[k];
      Put(b, k, e.(owed := e.owed - 1, decrements := e.decrements + 1)).(unsettled := b.unsettled - 1)
  }

  ghost predicate Legal(b: Book, run: seq<Step>)
    decreases |run|
  {
    run == [] || (Enabled(b, run[0]) && Legal(Apply(b, run[0]), run[1..]))
  }

  function Exec(b: Book, run: seq<Step>): Book
    requires Legal(b, run)
    decreases |run|
  {
    if run == [] then b else Exec(Apply(b, run[0]), run[1..])
  }

  // ---------------------------------------------------------- conservation

  // What one settle object is owed by the count: one while it is handed out and not
  // released, and one between a release's swap and its decrement.
  function Due(e: Entry): nat {
    (if e.counted && !e.released then 1 else 0) + e.owed
  }

  function TotalDue(entries: seq<Entry>): nat {
    if entries == [] then 0 else Due(entries[0]) + TotalDue(entries[1..])
  }

  lemma {:induction false} DueAfterPut(entries: seq<Entry>, k: nat, e: Entry)
    requires k < |entries|
    ensures TotalDue(entries[k := e]) == TotalDue(entries) - Due(entries[k]) + Due(e)
  {
    if k == 0 {
      assert entries[0 := e][1..] == entries[1..];
    } else {
      DueAfterPut(entries[1..], k - 1, e);
      assert entries[k := e][1..] == entries[1..][k - 1 := e];
    }
  }

  lemma {:induction false} DueAfterNew(entries: seq<Entry>, e: Entry)
    ensures TotalDue(entries + [e]) == TotalDue(entries) + Due(e)
  {
    if entries == [] {
      assert [] + [e] == [e];
    } else {
      DueAfterNew(entries[1..], e);
      assert (entries + [e])[1..] == entries[1..] + [e];
    }
  }

  predicate EntryOk(e: Entry) {
    && e.owed + e.decrements == (if e.released then 1 else 0)
    && e.settles == (if e.claim == Done || e.claim == Answered(true) then 1 else 0)
    && (e.released || e.claim != Free ==> e.counted)
    && (e.claim == Done ==> e.released)
  }

  predicate Inv(b: Book) {
    && |b.entries| == |b.life.stamps|
    && b.unsettled == TotalDue(b.entries)
    && forall k :: 0 <= k < |b.entries| ==> EntryOk(b.entries[k])
  }

  lemma AtMostOneStamp(s: L.State, step: L.Step)
    requires L.Enabled(s, step)
    ensures |s.stamps| <= |L.Apply(s, step).stamps| <= |s.stamps| + 1
  {
  }

  lemma NewEntryKeepsInv(b: Book, life: L.State)
    requires Inv(b) && |b.life.stamps| <= |life.stamps| <= |b.life.stamps| + 1
    ensures Inv(WithLife(b, life))
  {
    DueAfterNew(b.entries, Entry(false, false, 0, 0, Free, 0));
  }

  lemma SettleStepKeepsInv(b: Book, step: Step)
    requires Inv(b) && Enabled(b, step) && !step.Life?
    ensures Inv(Apply(b, step))
  {
    DueAfterPut(b.entries, step.k, Apply(b, step).entries[step.k]);
  }

  lemma StepKeepsInv(b: Book, step: Step)
    requires Inv(b) && Enabled(b, step)
    ensures Inv(Apply(b, step))
  {
    if step.Life? {
      AtMostOneStamp(b.life, step.step);
      NewEntryKeepsInv(b, L.Apply(b.life, step.step));
    } else {
      SettleStepKeepsInv(b, step);
    }
  }

  lemma {:induction false} RunKeepsInv(b: Book, run: seq<Step>)
    requires Inv(b) && Legal(b, run)
    ensures Inv(Exec(b, run))
    decreases |run|
  {
    if run != [] {
      StepKeepsInv(b, run[0]);
      RunKeepsInv(Apply(b, run[0]), run[1..]);
    }
  }

  // Unsettled counts exactly the deliveries handed out and not released, with the
  // releases under way: never negative, at most one decrement and one broker settle
  // each, whatever is retried, refused or asked again.
  lemma UnsettledIsConserved(ackNone: bool, run: seq<Step>)
    requires Legal(Initial(ackNone), run)
    ensures var b := Exec(Initial(ackNone), run);
            && 0 <= b.unsettled == TotalDue(b.entries)
            && forall k :: 0 <= k < |b.entries| ==> b.entries[k].decrements <= 1 && b.entries[k].settles <= 1
  {
    RunKeepsInv(Initial(ackNone), run);
    var b := Exec(Initial(ackNone), run);
    assert forall k :: 0 <= k < |b.entries| ==> EntryOk(b.entries[k]);
  }

  // Once every delivery handed out is released and every release is through, the count is zero.
  lemma {:induction false} NothingDueWhenReleased(entries: seq<Entry>)
    requires forall k :: 0 <= k < |entries| ==> EntryOk(entries[k])
    ensures TotalDue(entries) == 0 <==>
            forall k :: 0 <= k < |entries| && entries[k].counted ==> entries[k].decrements == 1
  {
    if entries != [] {
      var rest := entries[1..];
      assert EntryOk(entries[0]);
      assert forall k :: 0 <= k < |rest| ==> rest[k] == entries[k + 1];
      assert forall k :: 1 <= k < |entries| ==> entries[k] == rest[k - 1];
      NothingDueWhenReleased(rest);
    }
  }

  lemma {:induction false} NoSettlersUnderAckNone(b: Book, run: seq<Step>)
    requires Legal(b, run) && b.life.ackNone && b.entries == [] && b.unsettled == 0
    ensures Exec(b, run).entries == [] && Exec(b, run).unsettled == 0
    decreases |run|
  {
    if run != [] {
      NoSettlersUnderAckNone(Apply(b, run[0]), run[1..]);
    }
  }

  // -------------------------------------------------- what a settle reaches

  function LifeSteps(run: seq<Step>): seq<L.Step> {
    if run == [] then []
    else (if run[0].Life? then [run[0].step] else []) + LifeSteps(run[1..])
  }

  lemma {:induction false} LifeRunsAlone(b: Book, run: seq<Step>)
    requires Legal(b, run)
    ensures L.Legal(b.life, LifeSteps(run)) && L.Exec(b.life, LifeSteps(run)) == Exec(b, run).life
    decreases |run|
  {
    if run != [] {
      LifeRunsAlone(Apply(b, run[0]), run[1..]);
      if run[0].Life? {
        assert LifeSteps(run)[1..] == LifeSteps(run[1..]);
      } else {
        assert LifeSteps(run) == LifeSteps(run[1..]);
      }
    }
  }

  // In every run whose callers keep to the rule on Start, two settlers that would both
  // be let through settle over one channel: the newest.
  lemma SettlersLetThroughShareAChannel(ackNone: bool, run: seq<Step>, j: nat, k: nat)
    requires Legal(Initial(ackNone), run)
    requires L.Legal(L.Initial(ackNone), LifeSteps(run)) && L.Courteous(L.Initial(ackNone), LifeSteps(run))
    ensures var b := Exec(Initial(ackNone), run);
            && |b.entries| == |b.life.stamps|
            && (j < |b.entries| && k < |b.entries| && !Stale(b, j) && !Stale(b, k) ==>
                  b.life.stamps[j].cycle == b.life.stamps[k].cycle == |b.life.loops| - 1)
  {
    var b := Exec(Initial(ackNone), run);
    RunKeepsInv(Initial(ackNone), run);
    LifeRunsAlone(Initial(ackNone), run);
    assert Safety.Arrives(ackNone, LifeSteps(run), b.life);
    if j < |b.entries| && k < |b.entries| && !Stale(b, j) && !Stale(b, k) {
      Safety.ValidTagsShareAChannel(b.life, j, k);
    }
  }

  // Every way a settle object is let go of leaves it so for good, whatever happens next: the
  // op or the refusal of a settle, a keepalive that came too late, an observing subscriber.
  lemma ReleaseSticks(b: Book, step: Step, run: seq<Step>)
    requires Inv(b) && Enabled(b, step) && Legal(Apply(b, step), run)
    requires step.ReleaseClaimed? || step.KeepaliveRelease? || step.ObservedRelease?
    ensures step.k < |Exec(Apply(b, step), run).entries| && Exec(Apply(b, step), run).entries[step.k].released
  {
    StepKeepsInv(b, step);
    assert Apply(b, step).entries[step.k].released;
    ReleasedStays(Apply(b, step), run, step.k);
  }

  lemma {:induction false} ReleasedStays(b: Book, run: seq<Step>, k: nat)
    requires Legal(b, run) && k < |b.entries| && b.entries[k].released
    ensures k < |Exec(b, run).entries| && Exec(b, run).entries[k].released
    decreases |run|
  {
    if run != [] {
      var b' := Apply(b, run[0]);
      assert b'.entries[k].released;
      ReleasedStays(b', run[1..], k);
    }
  }

  // A failed op gives the claim back, for a retry; a settle the broker took keeps it.
  lemma ClaimAfterOp(b: Book, k: nat, accepted: bool)
    requires Enabled(b, RunOp(k, accepted))
    ensures var b1 := Apply(b, RunOp(k, accepted));
            && b1.entries[k].settles == b.entries[k].settles + (if accepted then 1 else 0)
            && Enabled(b1, ReleaseClaimed(k))
            && (Enabled(Apply(b1, ReleaseClaimed(k)), TakeClaim(k)) <==> !accepted && b.entries[k].counted)
  {
  }

  // A delivery left behind by the epoch reaches the broker no more, beyond an op that
  // Valid had already let through; being asked about again only releases it.
  lemma {:induction false} StaleDeliveryIsNotSettled(b: Book, run: seq<Step>, k: nat)
    requires |b.entries| == |b.life.stamps| && Legal(b, run) && k < |b.entries|
    requires b.life.stamps[k].epoch < b.life.f.epoch && b.entries[k].claim != Going
    ensures k < |Exec(b, run).entries| && Exec(b, run).entries[k].settles == b.entries[k].settles
    decreases |run|
  {
    if run != [] {
      var b' := Apply(b, run[0]);
      if run[0].Life? {
        AtMostOneStamp(b.life, run[0].step);
      }
      assert b'.life.stamps[k] == b.life.stamps[k] && b.life.f.epoch <= b'.life.f.epoch;
      assert b'.entries[k].settles == b.entries[k].settles && b'.entries[k].claim != Going;
      StaleDeliveryIsNotSettled(b', run[1..], k);
    }
  }
}
