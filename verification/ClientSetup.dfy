/** Opening the channels of a fresh connection (setupChannels in client/client.go). */
module ClientSetup {
  import opened Options

  // Channels are numbered in the order they are opened.
  type Chan = nat

  // How the broker and the senders and receivers answer, by index.
  datatype Answers = Answers(
    openSender: nat -> bool,     // conn.Channel for sender i
    confirms: nat -> bool,       // sender i's confirm mode, when it asks for one, is granted
    openReceiver: nat -> bool,   // conn.Channel for receiver i
    declares: nat -> bool,       // receiver i's DeclareTopology
    drained: nat -> bool,        // the client reads as drained when it reaches receiver i
    starts: nat -> bool)         // receiver i's Qos and Consume, and its own drained flag

  function Range(lo: nat, hi: nat): (chans: seq<Chan>)
    requires lo <= hi
    ensures |chans| == hi - lo
    ensures forall k :: 0 <= k < hi - lo ==> chans[k] == lo + k
  {
    seq(hi - lo, k requires 0 <= k < hi - lo => lo + k)
  }

  // The closings from `before` to `after` are the channels lo .. hi, each once, in some order.
  ghost predicate ClosesExactly(before: seq<Chan>, after: seq<Chan>, lo: nat, hi: nat)
    requires lo <= hi
  {
    && |before| <= |after| && after[..|before|] == before
    && multiset(after[|before|..]) == multiset(Range(lo, hi))
  }

  class Client {
    // The channel each sender publishes on and each receiver consumes on.
    var senders: seq<Option<Chan>>
    var receivers: seq<Option<Chan>>
    // The lists the client closes at the end of life.
    var senderChs: seq<Chan>
    var receiverChs: seq<Chan>
    // How many channels were ever opened, and which were closed, in order.
    var issued: nat
    ghost var closed: seq<Chan>

    constructor (senderCount: nat, receiverCount: nat)
      ensures senders == seq(senderCount, _ => None) && receivers == seq(receiverCount, _ => None)
      ensures senderChs == [] && receiverChs == [] && issued == 0 && closed == []
    {
      senders := seq(senderCount, _ => None);
      receivers := seq(receiverCount, _ => None);
      senderChs, receiverChs, issued, closed := [], [], 0, [];
    }

    ghost predicate AllStopped()
      reads this
    {
      && (forall i :: 0 <= i < |senders| ==> senders[i] == None)
      && (forall i :: 0 <= i < |receivers| ==> receivers[i] == None)
    }

    ghost method Close(ch: Chan)
      modifies this`closed
      ensures closed == old(closed) + [ch]
    {
      closed := closed + [ch];
    }

    // Stop every receiver, then disconnect every sender.
    method StopAll()
      modifies this`senders, this`receivers
      ensures AllStopped() && |senders| == |old(senders)| && |receivers| == |old(receivers)|
    {
      for i := 0 to |receivers|
        invariant |receivers| == |old(receivers)| && senders == old(senders)
        invariant forall j :: 0 <= j < i ==> receivers[j] == None
      {
        receivers := receivers[i := None];
      }
      ghost var stopped := receivers;
      for i := 0 to |senders|
        invariant |senders| == |old(senders)| && receivers == stopped
        invariant forall j :: 0 <= j < i ==> senders[j] == None
      {
        senders := senders[i := None];
      }
    }

    method CloseAll(chans: seq<Chan>)
      modifies this`closed
      ensures closed == old(closed) + chans
    {
      for i := 0 to |chans|
        invariant closed == old(closed) + chans[..i]
      {
        Close(chans[i]);
      }
    }

    method Cleanup(sch: seq<Chan>, rch: seq<Chan>)
      modifies this`senders, this`receivers, this`closed
      ensures AllStopped() && |senders| == |old(senders)| && |receivers| == |old(receivers)|
      ensures closed == old(closed) + (rch + sch)
    {
      StopAll();
      CloseAll(rch);
      CloseAll(sch);
    }

    method OpenSenders(a: Answers) returns (ok: bool, sch: seq<Chan>)
      modifies this`senders, this`issued
      ensures |senders| == |old(senders)| && issued == old(issued) + |sch|
      ensures sch == Range(old(issued), issued)
      ensures ok <==> forall i :: 0 <= i < |senders| ==> a.openSender(i)
      ensures ok ==> |sch| == |senders|
      ensures ok ==> forall i :: 0 <= i < |senders| ==> senders[i] == if a.confirms(i) then Some(sch[i]) else None
    {
      sch := [];
      for i := 0 to |senders|
        invariant |senders| == |old(senders)| && |sch| == i && issued == old(issued) + i
        invariant sch == Range(old(issued), issued)
        invariant forall j :: 0 <= j < i ==> a.openSender(j)
        invariant forall j :: 0 <= j < i ==> senders[j] == if a.confirms(j) then Some(sch[j]) else None
      {
        if !a.openSender(i) {
          return false, sch;
        }
        var ch := issued;
        issued := issued + 1;
        senders := senders[i := if a.confirms(i) then Some(ch) else None];
        sch := sch + [ch];
      }
      ok := true;
    }

    // The channel a failing receiver had just opened is closed here, the others by the caller.
    // A receiver already started refuses a second Start.
    method OpenReceivers(a: Answers) returns (ok: bool, rch: seq<Chan>)
      modifies this`receivers, this`issued, this`closed
      ensures |receivers| == |old(receivers)| && old(issued) + |rch| <= issued
      ensures rch == Range(old(issued), old(issued) + |rch|)
      ensures closed == old(closed) + Range(old(issued) + |rch|, issued)
      ensures ok <==> forall i :: 0 <= i < |receivers| ==>
                a.openReceiver(i) && a.declares(i) && (a.drained(i) || (a.starts(i) && old(receivers)[i].None?))
      ensures ok ==> |rch| == |receivers| && issued == old(issued) + |rch|
      ensures ok ==> forall i :: 0 <= i < |receivers| ==>
                receivers[i] == if a.drained(i) then old(receivers)[i] else Some(rch[i])
    {
      rch := [];
      for i := 0 to |receivers|
        invariant |receivers| == |old(receivers)| && |rch| == i && issued == old(issued) + i
        invariant rch == Range(old(issued), issued)
        invariant closed == old(closed)
        invariant forall j :: 0 <= j < i ==>
          a.openReceiver(j) && a.declares(j) && (a.drained(j) || (a.starts(j) && old(receivers)[j].None?))
        invariant forall j :: 0 <= j < i ==> receivers[j] == if a.drained(j) then old(receivers)[j] else Some(rch[j])
        invariant forall j :: i <= j < |receivers| ==> receivers[j] == old(receivers)[j]
      {
        if !a.openReceiver(i) {
          return false, rch;
        }
        var ch := issued;
        issued := issued + 1;
        if !a.declares(i) {
          Close(ch);
          return false, rch;
        }
        if !a.drained(i) {
          if receivers[i].Some? || !a.starts(i) {
              Close(ch);
            return false, rch;
          }
          receivers := receivers[i := Some(ch)];
        }
        rch := rch + [ch];
      }
      ok := true;
    }

    // The cleanup of a failed setup, after the channels lo .. issued were opened and those
    // beyond `sch` and `rch` closed.
    method RollBack(sch: seq<Chan>, rch: seq<Chan>, ghost before: seq<Chan>, ghost lo: nat)
      requires lo + |sch| + |rch| <= issued
      requires sch == Range(lo, lo + |sch|) && rch == Range(lo + |sch|, lo + |sch| + |rch|)
      requires closed == before + Range(lo + |sch| + |rch|, issued)
      modifies this`senders, this`receivers, this`closed
      ensures AllStopped() && |senders| == |old(senders)| && |receivers| == |old(receivers)|
      ensures ClosesExactly(before, closed, lo, issued)
    {
      Cleanup(sch, rch);
      RangeSplits(lo, lo + |sch|, lo + |sch| + |rch|, issued);
      ClosingsAppended(before, closed, lo, issued, sch, rch, Range(lo + |sch| + |rch|, issued));
    }

    // setupChannels: all or nothing, wherever it fails.
    method SetupChannels(a: Answers) returns (ok: bool)
      modifies this
      ensures |senders| == |old(senders)| && |receivers| == |old(receivers)| && old(issued) <= issued
      ensures !ok ==> senderChs == old(senderChs) && receiverChs == old(receiverChs)
      ensures !ok ==> forall i :: 0 <= i < |senders| ==> senders[i] == None
      ensures !ok ==> forall i :: 0 <= i < |receivers| ==> receivers[i] == None
      ensures !ok ==> ClosesExactly(old(closed), closed, old(issued), issued)
      ensures ok ==> closed == old(closed) && senderChs + receiverChs == Range(old(issued), issued)
      ensures ok ==> |senderChs| == |senders| && |receiverChs| == |receivers|
      ensures ok ==> forall i :: 0 <= i < |senders| ==>
                senders[i] == if a.confirms(i) then Some(senderChs[i]) else None
      ensures ok ==> forall i :: 0 <= i < |receivers| ==>
                receivers[i] == if a.drained(i) then old(receivers)[i] else Some(receiverChs[i])
      ensures ok <==>
        && (forall i :: 0 <= i < |old(senders)| ==> a.openSender(i))
        && (forall i :: 0 <= i < |old(receivers)| ==>
              a.openReceiver(i) && a.declares(i) && (a.drained(i) || (a.starts(i) && old(receivers)[i].None?)))
    {
      var sch, rch;
      ok, sch := OpenSenders(a);
      if !ok {
        RollBack(sch, [], old(closed), old(issued));
        return;
      }
      ok, rch := OpenReceivers(a);
      if !ok {
        RollBack(sch, rch, old(closed), old(issued));
        return;
      }
      RangeSplits(old(issued), issued - |rch|, issued, issued);
      senderChs := sch;
      receiverChs := rch;
    }
  }

  lemma RangeSplits(lo: nat, a: nat, b: nat, hi: nat)
    requires lo <= a <= b <= hi
    ensures Range(lo, hi) == Range(lo, a) + Range(a, b) + Range(b, hi)
  {
  }

  lemma ClosingsAppended(before: seq<Chan>, after: seq<Chan>, lo: nat, hi: nat, sch: seq<Chan>, rch: seq<Chan>,
      extra: seq<Chan>)
    requires lo <= hi && Range(lo, hi) == sch + rch + extra
    requires after == before + extra + (rch + sch)
    ensures ClosesExactly(before, after, lo, hi)
  {
    assert after[|before|..] == extra + (rch + sch);
  }

  // Channels closed by a cleanup: each one the call opened, once, and no other.
  lemma ClosedExactlyOnce(before: seq<Chan>, after: seq<Chan>, lo: nat, hi: nat, ch: Chan)
    requires lo <= hi && ClosesExactly(before, after, lo, hi)
    ensures multiset(after)[ch] == multiset(before)[ch] + (if lo <= ch < hi then 1 else 0)
  {
    assert after == before + after[|before|..];
    RangeCounts(lo, hi, ch);
  }

  lemma {:induction false} RangeCounts(lo: nat, hi: nat, ch: Chan)
    requires lo <= hi
    ensures multiset(Range(lo, hi))[ch] == (if lo <= ch < hi then 1 else 0)
    decreases hi - lo
  {
    if lo < hi {
      assert Range(lo, hi) == [lo] + Range(lo + 1, hi);
      RangeCounts(lo + 1, hi, ch);
    }
  }
}
