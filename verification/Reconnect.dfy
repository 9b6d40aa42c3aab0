/** The dial loop and its default schedule (connect in client/client.go,
    DefaultReconnectBackoff in client/config.go). */
module Reconnect {
  import opened Options

  // ------------------------------------------------------------ the schedule

  // time.Duration: nanoseconds in a 64-bit integer.
  newtype Duration = x: int | -0x8000_0000_0000_0000 <= x < 0x8000_0000_0000_0000

  const SECOND: Duration := 1_000_000_000

  // Every value the doubling passes through, the one it rejects included.
  type Step = d: Duration | 0 < d <= 64 * SECOND witness 1

  function Pow2(n: nat): nat {
    if n == 0 then 1 else 2 * Pow2(n - 1)
  }

  function DelaySeconds(attempt: nat): nat {
    if attempt < 6 then Pow2(attempt) else 60
  }

  // DefaultReconnectBackoff
  method DefaultBackoff(attempt: int) returns (delay: Duration)
    ensures delay as int == DelaySeconds(if attempt < 0 then 0 else attempt) * 1_000_000_000
  {
    var d: Step := SECOND;
    var i := 0;
    while i < attempt
      invariant 0 <= i && (i <= attempt || i == 0)
      invariant i < 6 && d as int == Pow2(i) * 1_000_000_000
    {
      PowersOfTwo();
      d := d * 2;
      if d > 60 * SECOND {
        return 60 * SECOND;
      }
      i := i + 1;
    }
    return d;
  }

  lemma PowersOfTwo()
    ensures Pow2(1) == 2 && Pow2(2) == 4 && Pow2(3) == 8 && Pow2(4) == 16 && Pow2(5) == 32 && Pow2(6) == 64
  {
    assert Pow2(3) == 8;
    assert Pow2(5) == 32;
  }

  lemma {:induction false} DelayIsCappedDoubling(attempt: nat)
    ensures DelaySeconds(attempt) == if Pow2(attempt) < 60 then Pow2(attempt) else 60
    ensures attempt >= 6 ==> Pow2(attempt) >= 64
  {
    PowersOfTwo();
    if attempt > 6 {
      DelayIsCappedDoubling(attempt - 1);
    }
  }

  function TotalSeconds(attempts: seq<nat>): nat {
    if attempts == [] then 0
    else TotalSeconds(attempts[..|attempts| - 1]) + DelaySeconds(attempts[|attempts| - 1])
  }

  function UpTo(m: nat): (attempts: seq<nat>)
    ensures |attempts| == m && forall k :: 0 <= k < m ==> attempts[k] == k
  {
    if m == 0 then [] else UpTo(m - 1) + [m - 1]
  }

  // The wait a client asks for before it gives up after m attempts.
  lemma {:induction false} TotalWait(m: nat)
    ensures m <= 6 ==> TotalSeconds(UpTo(m)) == Pow2(m) - 1
    ensures m >= 6 ==> TotalSeconds(UpTo(m)) == 63 + 60 * (m - 6)
  {
    if m > 0 {
      TotalWait(m - 1);
      assert UpTo(m)[..m - 1] == UpTo(m - 1);
      PowersOfTwo();
    }
  }

  // ------------------------------------------------------------ the dial loop

  // How dials and channel setups answer, by dial number, and how many times the
  // life context is found alive before it is cancelled.
  datatype World = World(dials: nat -> bool, setups: nat -> bool, alive: nat)

  datatype Outcome = Connected(dial: nat) | Cancelled | GaveUp

  // The broker list walked m times over.
  function Walks<T>(brokers: seq<T>, m: nat): seq<T> {
    if m == 0 then [] else Walks(brokers, m - 1) + brokers
  }

  lemma {:induction false} WalksLength<T>(brokers: seq<T>, m: nat)
    ensures |Walks(brokers, m)| == m * |brokers|
  {
    if m > 0 {
      WalksLength(brokers, m - 1);
      assert m * |brokers| == (m - 1) * |brokers| + |brokers|;
    }
  }

  // The list in order, over and over.
  ghost predicate Cycles<T>(brokers: seq<T>, dialled: seq<T>)
    requires |brokers| > 0
  {
    forall k :: 0 <= k < |dialled| ==> dialled[k] == brokers[k % |brokers|]
  }

  lemma WalkCycles<T>(brokers: seq<T>, past: seq<T>, m: nat, dialled: seq<T>)
    requires |brokers| > 0 && Cycles(brokers, past) && |past| == m * |brokers|
    requires past <= dialled <= past + brokers
    ensures Cycles(brokers, dialled)
  {
    var n := |brokers|;
    forall k | 0 <= k < |dialled| ensures dialled[k] == brokers[k % n] {
      if k < |past| {
        assert dialled[k] == past[k];
      } else {
        assert dialled[k] == brokers[k - |past|];
        Remainder(m, k - |past|, n);
      }
    }
  }

  lemma Remainder(m: nat, r: nat, n: nat)
    requires r < n
    ensures (m * n + r) % n == r
  {
    var q := (m * n + r) / n;
    OneMoreAttempt(q, m, n);
    OneMoreAttempt(m, q, n);
  }

  // What one more attempt adds, and what is left of the attempts allowed.
  lemma OneMoreAttempt(attempt: nat, limit: int, brokers: nat)
    ensures (attempt + 1) * brokers == attempt * brokers + brokers
    ensures (attempt + 1) * (brokers + 2) == attempt * (brokers + 2) + brokers + 2
    ensures attempt < limit ==> (attempt + 1) * brokers <= limit * brokers
    ensures attempt < limit ==> (attempt + 1) * (brokers + 2) <= limit * (brokers + 2)
  {
    if attempt < limit {
      MoreIsMore(attempt + 1, limit, brokers);
      MoreIsMore(attempt + 1, limit, brokers + 2);
    }
  }

  lemma MoreIsMore(a: int, b: int, n: nat)
    requires a <= b
    ensures a * n <= b * n
  {
  }

  predicate Works(world: World, dial: nat) { world.dials(dial) && world.setups(dial) }

  // Connections dialled, found unusable and closed again.
  ghost predicate ClosesUnusable(world: World, dials: nat, closed: seq<nat>) {
    && (forall k :: k in closed <==> 0 <= k < dials && world.dials(k) && !world.setups(k))
    && (forall i, j :: 0 <= i < j < |closed| ==> closed[i] < closed[j])
  }

  // One walk of the list, from the dials, closings and looks made before it; it may end
  // the whole search.
  method WalkBrokers<Url>(brokers: seq<Url>, world: World, past: seq<Url>, closedBefore: seq<nat>, looked: nat)
    returns (ended: Option<Outcome>, dialled: seq<Url>, closed: seq<nat>, checks: nat)
    requires looked <= world.alive && ClosesUnusable(world, |past|, closedBefore)
    requires forall k :: 0 <= k < |past| ==> !Works(world, k)
    ensures past <= dialled <= past + brokers && ClosesUnusable(world, |dialled|, closed)
    ensures forall k :: 0 <= k < |dialled| && ended != Some(Connected(k)) ==> !Works(world, k)
    ensures match ended
            case None => dialled == past + brokers && checks == looked + |brokers| <= world.alive
            case Some(outcome) =>
              if outcome.Cancelled? then
                |dialled| < |past| + |brokers| && checks == looked + |dialled| - |past| + 1 == world.alive + 1
              else
                && |past| < |dialled| && checks == looked + |dialled| - |past| <= world.alive
                && outcome == Connected(|dialled| - 1) && Works(world, |dialled| - 1)
  {
    dialled, closed, checks := past, closedBefore, looked;
    for b := 0 to |brokers|
      invariant checks == looked + b <= world.alive
      invariant dialled == past + brokers[..b]
      invariant forall k :: 0 <= k < |dialled| ==> !Works(world, k)
      invariant ClosesUnusable(world, |dialled|, closed)
    {
      checks := checks + 1;
      if checks > world.alive {
        return Some(Cancelled), dialled, closed, checks;
      }
      var dial := |dialled|;
      dialled := dialled + [brokers[b]];
      assert dialled == past + brokers[..b + 1];
      if world.dials(dial) {
        if world.setups(dial) {
          return Some(Connected(dial)), dialled, closed, checks;
        }
        assert forall i :: 0 <= i < |closed| ==> closed[i] in closed;
        closed := closed + [dial];
      }
    }
    assert brokers[..|brokers|] == brokers;
    return None, dialled, closed, checks;
  }

  // connect: `dialled` is the order of the dials, `asked` the attempt numbers the
  // backoff was asked for, `checks` how often the life context was looked at.
  method Connect<Url>(initial: bool, limit: int, brokers: seq<Url>, world: World)
    returns (outcome: Outcome, dialled: seq<Url>, asked: seq<nat>, closed: seq<nat>, checks: nat)
    requires |brokers| > 0  // Start refuses an empty list
    ensures asked == UpTo(|asked|) && forall k :: 0 <= k < |asked| ==> asked[k] == k
    ensures forall k :: 0 <= k < |dialled| ==> dialled[k] == brokers[k % |brokers|]
    ensures dialled <= Walks(brokers, |asked| + 1)
    ensures Walks(brokers, |asked|) <= dialled
    ensures forall k :: 0 <= k < |dialled| && outcome != Connected(k) ==> !Works(world, k)
    ensures ClosesUnusable(world, |dialled|, closed)
    ensures outcome.Connected? ==> outcome.dial == |dialled| - 1 && Works(world, outcome.dial)
    ensures outcome.Cancelled? <==> checks == world.alive + 1
    ensures checks <= world.alive + 1
    ensures |asked| * |brokers| <= |dialled|
    ensures 0 <= checks - |asked| * (|brokers| + 2) <= |dialled| - |asked| * |brokers| + 2
    ensures outcome.GaveUp? <==>
      && !initial && limit > 0 && world.alive > limit * (|brokers| + 2)
      && forall k :: 0 <= k < limit * |brokers| ==> !Works(world, k)
    ensures outcome.GaveUp? ==>
      dialled == Walks(brokers, limit) && |dialled| == limit * |brokers| && asked == UpTo(limit)
    ensures !initial && limit > 0 ==> |asked| <= limit
  {
    dialled, asked, closed, checks := [], [], [], 0;
    var attempt := 0;
    while true
      invariant checks <= world.alive
      invariant attempt == |asked| && asked == UpTo(attempt)
      invariant dialled == Walks(brokers, attempt) && Cycles(brokers, dialled)
      invariant forall k :: 0 <= k < |dialled| ==> !Works(world, k)
      invariant ClosesUnusable(world, |dialled|, closed)
      invariant |dialled| == attempt * |brokers| && checks == attempt * (|brokers| + 2)
      invariant !initial && limit > 0 ==> attempt <= limit
      decreases world.alive - checks
    {
      OneMoreAttempt(attempt, limit, |brokers|);
      checks := checks + 1;
      assert dialled + brokers == Walks(brokers, attempt + 1);
      if checks > world.alive {
        return Cancelled, dialled, asked, closed, checks;
      }
      if !initial && limit > 0 && attempt >= limit {
        return GaveUp, dialled, asked, closed, checks;
      }
      ghost var before := dialled;
      var walked: Option<Outcome>;
      walked, dialled, closed, checks := WalkBrokers(brokers, world, dialled, closed, checks);
      WalkCycles(brokers, before, attempt, dialled);
      if walked.Some? {
        return walked.value, dialled, asked, closed, checks;
      }
      checks := checks + 1;
      asked := asked + [attempt];
      if checks > world.alive {
        assert dialled <= Walks(brokers, attempt + 1) + brokers;
        return Cancelled, dialled, asked, closed, checks;
      }
      attempt := attempt + 1;
    }
  }
}
