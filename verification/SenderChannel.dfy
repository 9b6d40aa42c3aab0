/** Installing and removing a sender's channel (setChannel in sender/sender.go). */
module SenderChannel {
  import opened Options

  // A channel offered to a sender, and whether it grants confirm mode. Returns arrive on
  // a buffer of the channel's own; a watcher is told to stop by closing a stop channel.
  datatype Channel = Channel(id: nat, grantsConfirms: bool)

  // A mandatory message the broker gave back; its MessageId names the publish.
  datatype Return = Return(mid: nat, code: nat)

  // The pending entries after some returns were handled in order.
  function Stored(pending: map<nat, Option<Return>>, given: seq<Return>): map<nat, Option<Return>> {
    if given == [] then pending
    else
      var before := Stored(pending, given[..|given| - 1]);
      var ret := given[|given| - 1];
      if ret.mid in before then before[ret.mid := Some(ret)] else before
  }

  // An entry holds a return exactly when one with its MessageId was handled; returns
  // nobody waits for add no entry.
  lemma {:induction false} StoredExactly(pending: map<nat, Option<Return>>, given: seq<Return>, mid: nat)
    requires mid in pending && pending[mid].None?
    ensures Stored(pending, given).Keys == pending.Keys
    ensures Stored(pending, given)[mid].Some? <==> exists i :: 0 <= i < |given| && given[i].mid == mid
    ensures Stored(pending, given)[mid].Some? ==> Stored(pending, given)[mid].value.mid == mid
  {
    if given != [] {
      var n := |given| - 1;
      StoredExactly(pending, given[..n], mid);
      if given[n].mid != mid {
        assert forall i :: 0 <= i < |given| && given[i].mid == mid ==> i < n && given[..n][i].mid == mid;
        assert forall i :: 0 <= i < n ==> given[..n][i] == given[i];
      }
    }
  }

  // Handling returns one at a time.
  lemma StoredStepwise(pending: map<nat, Option<Return>>, given: seq<Return>, ret: Return)
    ensures Stored(pending, given + [ret]) == Stored(Stored(pending, given), [ret])
  {
    assert (given + [ret])[..|given|] == given && [ret][..0] == [];
  }

  // One publish's entry is no business of another's.
  lemma {:induction false} StoredApart(pending: map<nat, Option<Return>>, given: seq<Return>, mid: nat)
    requires mid !in pending
    ensures mid in Stored(pending[mid := None], given)
    ensures Stored(pending[mid := None], given) - {mid} == Stored(pending, given)
  {
    if given != [] {
      StoredApart(pending, given[..|given| - 1], mid);
    }
  }

  datatype Answer = PublishFails | WaitFails | Nacked | Acked

  datatype Verdict = Fine | ReturnedError | PublishError | ConfirmError | NackError

  class RMQSender {
    // MessageId to the return stored for the publish waiting on it.
    var pending: map<nat, Option<Return>>
    // What the library has buffered on returnsCh.
    var buffer: seq<Return>
    const confirmMode: bool
    var ch: Option<nat>
    var returnsCh: Option<nat>
    var returnStop: Option<nat>
    // How often each stop channel was closed; stop channels are numbered as made.
    var closings: seq<nat>

    // A close of a closed channel would panic. Every stop channel but the installed one
    // is closed, so at most one watcher is still to be stopped; and a connected sender
    // has exactly the returns handling its mode asks for.
    ghost predicate Valid()
      reads this
    {
      && (forall k :: 0 <= k < |closings| ==> closings[k] == if returnStop == Some(k) then 0 else 1)
      && (returnStop.Some? ==> returnStop.value < |closings|)
      && (confirmMode ==> returnsCh == ch && returnStop.None?)
      && (!confirmMode ==> returnsCh.None? && (ch.Some? <==> returnStop.Some?))
    }

    constructor (confirmMode: bool)
      ensures Valid() && this.confirmMode == confirmMode && ch == None && closings == []
      ensures pending == map[] && buffer == []
    {
      this.confirmMode := confirmMode;
      pending, buffer := map[], [];
      ch, returnsCh, returnStop, closings := None, None, None, [];
    }

    // A new channel brings a new buffer.
    method SetChannel(offered: Option<Channel>)
      requires Valid()
      modifies this
      ensures Valid() && pending == old(pending)
      ensures ch == if offered.Some? && (confirmMode ==> offered.value.grantsConfirms)
                    then Some(offered.value.id) else None
      ensures |closings| == |old(closings)| + (if ch.Some? && !confirmMode then 1 else 0)
      ensures forall k :: 0 <= k < |old(closings)| ==> closings[k] == 1
    {
      if returnStop != None {
        closings := closings[returnStop.value := closings[returnStop.value] + 1];
        returnStop := None;
      }
      returnsCh, buffer := None, [];
      if offered == None {
        ch := None;
        return;
      }
      if confirmMode {
        if !offered.value.grantsConfirms {
          ch := None;
          return;
        }
      }
      if confirmMode {
        returnsCh := Some(offered.value.id);
      } else {
        closings := closings + [0];
        returnStop := Some(|closings| - 1);
      }
      ch := Some(offered.value.id);
    }

    // handleReturn
    method HandleReturn(ret: Return)
      modifies this`pending
      ensures pending == Stored(old(pending), [ret])
    {
      assert Stored(pending, [ret][..0]) == pending;
      if ret.mid in pending {
        pending := pending[ret.mid := Some(ret)];
      }
    }

    // drainReturns: everything buffered now, in order, and nothing when there is no buffer.
    method DrainReturns()
      modifies this`pending, this`buffer
      ensures returnsCh.None? ==> pending == old(pending) && buffer == old(buffer)
      ensures returnsCh.Some? ==> pending == Stored(old(pending), old(buffer)) && buffer == []
    {
      if returnsCh == None {
        return;
      }
      ghost var done := [];
      while buffer != []
        invariant done + buffer == old(buffer)
        invariant pending == Stored(old(pending), done)
        decreases |buffer|
      {
        var ret := buffer[0];
        ghost var next := done + [ret];
        assert next[..|next| - 1] == done;
        buffer := buffer[1..];
        HandleReturn(ret);
        StoredStepwise(old(pending), done, ret);
        done := next;
        assert done + buffer == old(buffer);
      }
      assert done == old(buffer);
    }

    // The confirm-mode path of OnEvent for a mandatory publish that no other overlaps.
    // `arriving`: the returns the library buffers before the publish is answered.
    method PublishMandatory(mid: nat, answer: Answer, arriving: seq<Return>) returns (verdict: Verdict)
      requires Valid() && confirmMode && ch.Some? && mid !in pending
      modifies this`pending, this`buffer
      ensures Valid()
      ensures pending == if answer == Acked then Stored(old(pending), old(buffer) + arriving) else old(pending)
      ensures var buffered := old(buffer) + arriving;
              verdict == ReturnedError <==> answer == Acked && exists i :: 0 <= i < |buffered| && buffered[i].mid == mid
      ensures verdict == PublishError <==> answer == PublishFails
      ensures verdict == ConfirmError <==> answer == WaitFails
      ensures verdict == NackError <==> answer == Nacked
      ensures answer == Acked ==> buffer == []
    {
      pending := pending[mid := None];
      ghost var waiting := pending;
      if answer == PublishFails {
        pending := pending - {mid};
        return PublishError;
      }
      buffer := buffer + arriving;
      if answer == WaitFails {
        pending := pending - {mid};
        return ConfirmError;
      }
      if answer == Nacked {
        pending := pending - {mid};
        return NackError;
      }
      DrainReturns();
      StoredExactly(waiting, old(buffer) + arriving, mid);
      StoredApart(old(pending), old(buffer) + arriving, mid);
      verdict := if pending[mid].Some? then ReturnedError else Fine;
      pending := pending - {mid};
    }

    // Any sequence of installations: the sender ends on the last one's terms, with every
    // earlier watcher told to stop exactly once.
    method SetChannels(offers: seq<Option<Channel>>)
      requires Valid()
      modifies this
      ensures Valid()
      ensures forall k :: 0 <= k < |closings| && returnStop != Some(k) ==> closings[k] == 1
      ensures offers != [] && offers[|offers| - 1] == None ==>
        ch == None && forall k :: 0 <= k < |closings| ==> closings[k] == 1
    {
      for i := 0 to |offers|
        invariant Valid()
        invariant i > 0 && offers[i - 1] == None ==> ch == None
      {
        SetChannel(offers[i]);
      }
    }
  }
}
