/** A publish learns of its own return, whoever pulled it off the buffer. */
module SenderSafety {
  import opened Options
  import opened SenderReturns

  // ------------------------------------------------------------- invariants

  predicate OwnsLock(pc: Pc) { pc.Locked? || pc.Holding? || pc.Storing? }

  predicate Draining(pc: Pc) { pc.WantLock? || OwnsLock(pc) }

  predicate Ended(pc: Pc, verdict: Verdict) { pc == Deciding(verdict) || pc == Finished(verdict) }

  // A return of publish q that came over link g.
  predicate ReturnOf(s: State, q: nat, g: nat) {
    q < |s.pubs| && s.pubs[q].link == g && s.pubs[q].returned
  }

  // The broker's side of a publish, and its pending entry.
  predicate RecordOk(s: State, p: nat)
    requires p < |s.pubs|
  {
    var pub := s.pubs[p];
    && pub.link < |s.links|
    && (pub.returned ==> pub.mandatory)
    && (pub.confirm != Awaited ==> pub.answer == pub.confirm)
    && (pub.stored ==> pub.returned)
    && (p in s.pending <==> pub.mandatory && !pub.pc.Finished?)
  }

  // Who holds the drain lock, over which channel, with which return.
  predicate DrainOk(s: State, p: nat)
    requires p < |s.pubs|
  {
    var pub := s.pubs[p];
    && (s.drainMu == Some(p) <==> OwnsLock(pub.pc))
    && (Draining(pub.pc) ==> pub.pc.link < |s.links| && pub.drainedOn == Some(pub.pc.link))
    && (pub.drainedOn.Some? ==>
          Draining(pub.pc) || pub.pc == Drained || Ended(pub.pc, Fine) || Ended(pub.pc, ReturnedError))
    && (pub.pc.Holding? && pub.pc.mid.Publish? ==> ReturnOf(s, pub.pc.mid.p, pub.pc.link))
    && (pub.pc.Storing? ==> ReturnOf(s, pub.pc.q, pub.pc.link))
  }

  // What a publisher past its confirm knows, and what it reports.
  predicate VerdictOk(pub: Pub) {
    && (pub.pc == Confirmed || Draining(pub.pc) || pub.pc == Drained ==> pub.confirm == Acked)
    && (pub.pc == Drained && pub.drainedOn == Some(pub.link) && pub.returned ==> pub.stored)
    && (Ended(pub.pc, ReturnedError) ==> pub.confirm == Acked && pub.returned)
    && (Ended(pub.pc, Fine) ==> pub.confirm == Acked)
    && (Ended(pub.pc, Fine) && pub.drainedOn == Some(pub.link) ==> !pub.returned)
    && (Ended(pub.pc, NackError) ==> pub.confirm == Nacked)
  }

  predicate PubOk(s: State, p: nat)
    requires p < |s.pubs|
  {
    RecordOk(s, p) && DrainOk(s, p) && VerdictOk(s.pubs[p])
  }

  function Answered(acked: bool): Confirm { if acked then Acked else Nacked }

  // On the wire a return comes before its publish is confirmed, and nothing is confirmed twice.
  predicate FrameOk(s: State, g: nat, j: nat)
    requires g < |s.links| && j < |s.links[g].wire|
  {
    var wire := s.links[g].wire;
    match wire[j]
    case ReturnFrame(Foreign) => true
    case ReturnFrame(Publish(q)) =>
      ReturnOf(s, q, g) && s.pubs[q].confirm == Awaited &&
      forall i :: 0 <= i < j ==> !(wire[i].ConfirmFrame? && wire[i].p == q)
    case ConfirmFrame(q, acked) =>
      q < |s.pubs| && s.pubs[q].link == g && s.pubs[q].answer == Answered(acked) && s.pubs[q].confirm == Awaited &&
      forall i :: 0 <= i < j ==> !(wire[i].ConfirmFrame? && wire[i].p == q)
  }

  predicate WireOk(s: State, g: nat)
    requires g < |s.links|
  {
    && (forall j :: 0 <= j < |s.links[g].wire| ==> FrameOk(s, g, j))
    && (s.links[g].dead ==> s.links[g].wire == [])
  }

  predicate BufferOk(s: State, g: nat)
    requires g < |s.links|
  {
    forall j :: 0 <= j < |s.links[g].buffer| && s.links[g].buffer[j].Publish? ==> ReturnOf(s, s.links[g].buffer[j].p, g)
  }

  predicate LinkOk(s: State, g: nat)
    requires g < |s.links|
  {
    WireOk(s, g) && BufferOk(s, g)
  }

  // Where a return is that the broker sent and its publisher can still hear of: on the
  // wire, in the buffer, with the holder of the drain lock, in the pending entry, or lost
  // with a channel that will never confirm the publish.
  predicate Tracked(s: State, q: nat)
    requires q < |s.pubs| && s.pubs[q].link < |s.links|
  {
    var l := s.links[s.pubs[q].link];
    || s.pubs[q].stored
    || Publish(q) in l.buffer
    || ReturnFrame(Publish(q)) in l.wire
    || (l.dead && s.pubs[q].confirm == Awaited)
    || (s.drainMu.Some? && s.drainMu.value < |s.pubs| && Carries(s.pubs[s.drainMu.value].pc, s.pubs[q].link, q))
  }

  predicate Carries(pc: Pc, g: nat, q: nat) { pc == Holding(g, Publish(q)) || pc == Storing(g, q) }

  predicate Inv(s: State) {
    && (forall p :: 0 <= p < |s.pubs| ==> PubOk(s, p))
    && (forall g :: 0 <= g < |s.links| ==> LinkOk(s, g))
    && (forall q :: 0 <= q < |s.pubs| && s.pubs[q].returned && q in s.pending ==>
          s.pubs[q].link < |s.links| && Tracked(s, q))
    && (forall p :: p in s.pending ==> p < |s.pubs|)
    && (s.drainMu.Some? ==> s.drainMu.value < |s.pubs|)
    && (s.current.Some? ==> s.current.value < |s.links|)
  }

  lemma InitiallyInv()
    ensures Inv(Initial())
  {
  }

  // ------------------------------------------------------------- each step

  // The broker's side of every publish, and every wire, are as they were.
  ghost predicate SameBroker(s: State, s': State) {
    && |s'.pubs| == |s.pubs| && |s'.links| == |s.links|
    && (forall q :: 0 <= q < |s.pubs| ==>
         && s'.pubs[q].link == s.pubs[q].link && s'.pubs[q].mandatory == s.pubs[q].mandatory
         && s'.pubs[q].returned == s.pubs[q].returned && s'.pubs[q].answer == s.pubs[q].answer
         && s'.pubs[q].confirm == s.pubs[q].confirm)
    && (forall g :: 0 <= g < |s.links| ==> s'.links[g].wire == s.links[g].wire && s'.links[g].dead == s.links[g].dead)
  }

  lemma SameBrokerKeepsLinks(s: State, s': State)
    requires Inv(s) && SameBroker(s, s')
    requires forall g, mid :: 0 <= g < |s.links| && mid in s'.links[g].buffer ==> mid in s.links[g].buffer
    ensures forall g :: 0 <= g < |s'.links| ==> LinkOk(s', g)
  {
    forall g | 0 <= g < |s'.links| ensures LinkOk(s', g) {
      assert LinkOk(s, g);
      forall j | 0 <= j < |s'.links[g].wire| ensures FrameOk(s', g, j) {
        assert FrameOk(s, g, j);
      }
      forall j | 0 <= j < |s'.links[g].buffer| && s'.links[g].buffer[j].Publish?
        ensures ReturnOf(s', s'.links[g].buffer[j].p, g)
      {
        assert s'.links[g].buffer[j] in s.links[g].buffer;
      }
    }
  }

  lemma SenderKeepsInv(s: State, act: SenderAct)
    requires Inv(s) && CanSend(s, act)
    ensures Inv(ApplySender(s, act))
  {
    var s' := ApplySender(s, act);
    forall g | 0 <= g < |s'.links| ensures LinkOk(s', g) {
      if g < |s.links| {
        assert LinkOk(s, g);
        forall j | 0 <= j < |s'.links[g].wire| ensures FrameOk(s', g, j) {
          assert FrameOk(s, g, j);
        }
      }
    }
    forall p | 0 <= p < |s'.pubs| ensures PubOk(s', p) {
      assert p < |s.pubs| ==> PubOk(s, p);
    }
    forall q | 0 <= q < |s'.pubs| && s'.pubs[q].returned && q in s'.pending
      ensures s'.pubs[q].link < |s'.links| && Tracked(s', q)
    {
      assert Tracked(s, q);
    }
  }

  // --------------------------------------------------------- a publisher's step

  lemma PubKeepsBroker(s: State, p: nat, act: PubAct)
    requires CanPub(s, p, act)
    ensures SameBroker(s, ApplyPub(s, p, act))
    ensures forall g, mid :: 0 <= g < |s.links| && mid in ApplyPub(s, p, act).links[g].buffer ==>
        mid in s.links[g].buffer
    ensures !act.TakesReturn? ==> ApplyPub(s, p, act).links == s.links
  {
  }

  // What a publisher's step leaves of the other publishers.
  lemma PubLeavesOthers(s: State, p: nat, act: PubAct, q: nat)
    requires CanPub(s, p, act) && q < |s.pubs| && q != p
    ensures var s' := ApplyPub(s, p, act);
            && q < |s'.pubs|
            && s'.pubs[q] == s.pubs[q].(stored := s.pubs[q].stored || (act.StoresEntry? && s.pubs[p].pc.q == q))
            && (q in s'.pending <==> q in s.pending)
            && (s'.drainMu == s.drainMu || (act.Locks? && s'.drainMu == Some(p)) ||
                (act.Unlocks? && s'.drainMu == None))
  {
  }

  lemma OneOwner(s: State, p: nat, o: nat)
    requires Inv(s) && p < |s.pubs| && o < |s.pubs| && OwnsLock(s.pubs[p].pc) && OwnsLock(s.pubs[o].pc)
    ensures p == o
  {
    assert PubOk(s, p) && PubOk(s, o);
  }

  lemma OtherStaysOk(s: State, p: nat, act: PubAct, q: nat)
    requires Inv(s) && CanPub(s, p, act) && q < |s.pubs| && q != p
    ensures q < |ApplyPub(s, p, act).pubs| && PubOk(ApplyPub(s, p, act), q)
  {
    PubKeepsBroker(s, p, act);
    PubLeavesOthers(s, p, act, q);
    assert PubOk(s, q) && PubOk(s, p);
  }

  // Where the drain lock goes.
  function LockAfter(s: State, p: nat, act: PubAct): Option<nat> {
    if act.Locks? then Some(p) else if act.Unlocks? then None else s.drainMu
  }

  lemma PubMovesItself(s: State, p: nat, act: PubAct)
    requires CanPub(s, p, act)
    ensures var s' := ApplyPub(s, p, act);
            && p < |s'.pubs|
            && s'.pubs[p] == NextPub(s, p, act).(
                 stored := s.pubs[p].stored || (act.StoresEntry? && s.pubs[p].pc.q == p))
            && s'.drainMu == LockAfter(s, p, act)
            && (p in s'.pending <==> p in s.pending && !act.Finishes?)
  {
  }

  lemma NextPcOk(s: State, p: nat, act: PubAct)
    requires Inv(s) && CanPub(s, p, act)
    ensures var pc, next := s.pubs[p].pc, NextPub(s, p, act);
            && (LockAfter(s, p, act) == Some(p) <==> OwnsLock(next.pc))
            && (Draining(next.pc) ==> next.pc.link < |s.links| && next.drainedOn == Some(next.pc.link))
            && (next.pc.Holding? && next.pc.mid.Publish? ==> ReturnOf(s, next.pc.mid.p, next.pc.link))
            && (next.pc.Storing? ==> ReturnOf(s, next.pc.q, next.pc.link))
            && (next.drainedOn.Some? ==>
                  Draining(next.pc) || next.pc == Drained || Ended(next.pc, Fine) || Ended(next.pc, ReturnedError))
  {
    assert PubOk(s, p);
    if act.TakesReturn? {
      assert LinkOk(s, s.pubs[p].pc.link);
    }
  }

  lemma ReturnOnWireIsUnconfirmed(s: State, g: nat, q: nat)
    requires Inv(s) && g < |s.links| && ReturnFrame(Publish(q)) in s.links[g].wire
    ensures q < |s.pubs| && s.pubs[q].link == g && s.pubs[q].confirm == Awaited
  {
    assert LinkOk(s, g);
    var j :| 0 <= j < |s.links[g].wire| && s.links[g].wire[j] == ReturnFrame(Publish(q));
    assert FrameOk(s, g, j);
  }

  // The heart of it: once a drain has emptied a channel's buffer, every acked publish of
  // that channel still in flight finds its return in its entry.
  lemma EmptyBufferMeansStored(s: State, o: nat, p: nat)
    requires Inv(s) && o < |s.pubs| && p < |s.pubs|
    requires s.pubs[p].link < |s.links| && s.links[s.pubs[p].link].buffer == []
    requires s.pubs[o].pc == Locked(s.pubs[p].link)
    requires s.pubs[p].returned && s.pubs[p].confirm != Awaited && !s.pubs[p].pc.Finished?
    ensures s.pubs[p].stored
  {
    assert PubOk(s, o) && PubOk(s, p) && Tracked(s, p);
    if ReturnFrame(Publish(p)) in s.links[s.pubs[p].link].wire {
      ReturnOnWireIsUnconfirmed(s, s.pubs[p].link, p);
    }
  }

  lemma NextVerdictOk(s: State, p: nat, act: PubAct)
    requires Inv(s) && CanPub(s, p, act)
    ensures VerdictOk(NextPub(s, p, act))
  {
    assert PubOk(s, p);
    if act.Unlocks? && s.pubs[p].pc.link == s.pubs[p].link && s.pubs[p].returned {
      EmptyBufferMeansStored(s, p, p);
    }
  }

  lemma ActorStaysOk(s: State, p: nat, act: PubAct)
    requires Inv(s) && CanPub(s, p, act)
    ensures p < |ApplyPub(s, p, act).pubs| && PubOk(ApplyPub(s, p, act), p)
  {
    PubMovesItself(s, p, act);
    PubKeepsBroker(s, p, act);
    NextPcOk(s, p, act);
    NextVerdictOk(s, p, act);
    assert PubOk(s, p);
  }

  // -------------------------------------------------------------- tracking

  lemma BufferedReturnMoves(s: State, p: nat, act: PubAct, q: nat)
    requires Inv(s) && CanPub(s, p, act) && q < |s.pubs| && s.pubs[q].link < |s.links|
    requires Publish(q) in s.links[s.pubs[q].link].buffer
    ensures var s' := ApplyPub(s, p, act);
            q < |s'.pubs| && s.pubs[q].link == s'.pubs[q].link < |s'.links| && Tracked(s', q)
  {
    PubKeepsBroker(s, p, act);
    if act.TakesReturn? {
      PubMovesItself(s, p, act);
      assert PubOk(s, p);
      var buffer := s.links[s.pubs[q].link].buffer;
      assert buffer == [buffer[0]] + buffer[1..];
    }
  }

  lemma CarriedReturnMoves(s: State, p: nat, act: PubAct, q: nat, o: nat)
    requires Inv(s) && CanPub(s, p, act) && q < |s.pubs| && s.pubs[q].link < |s.links| && q in s.pending
    requires s.drainMu == Some(o) && o < |s.pubs| && Carries(s.pubs[o].pc, s.pubs[q].link, q)
    ensures var s' := ApplyPub(s, p, act);
            q < |s'.pubs| && s.pubs[q].link == s'.pubs[q].link < |s'.links| && Tracked(s', q)
  {
    PubKeepsBroker(s, p, act);
    if p != o {
      PubLeavesOthers(s, p, act, o);
      if act.Unlocks? {
        OneOwner(s, p, o);
      }
    } else {
      PubMovesItself(s, p, act);
      if act.StoresEntry? && q != p {
        PubLeavesOthers(s, p, act, q);
      }
    }
  }

  lemma PubKeepsTracked(s: State, p: nat, act: PubAct, q: nat)
    requires Inv(s) && CanPub(s, p, act) && q < |s.pubs| && s.pubs[q].returned && q in s.pending
    ensures var s' := ApplyPub(s, p, act);
            q < |s'.pubs| && s.pubs[q].link == s'.pubs[q].link < |s'.links| && Tracked(s', q)
  {
    PubKeepsBroker(s, p, act);
    var l := s.links[s.pubs[q].link];
    if s.pubs[q].stored {
      if q == p { PubMovesItself(s, p, act); } else { PubLeavesOthers(s, p, act, q); }
    } else if Publish(q) in l.buffer {
      BufferedReturnMoves(s, p, act, q);
    } else if s.drainMu.Some? && Carries(s.pubs[s.drainMu.value].pc, s.pubs[q].link, q) {
      CarriedReturnMoves(s, p, act, q, s.drainMu.value);
    }
  }

  lemma PubKeepsInv(s: State, p: nat, act: PubAct)
    requires Inv(s) && CanPub(s, p, act)
    ensures Inv(ApplyPub(s, p, act))
  {
    var s' := ApplyPub(s, p, act);
    PubKeepsBroker(s, p, act);
    PubMovesItself(s, p, act);
    SameBrokerKeepsLinks(s, s');
    forall q | 0 <= q < |s'.pubs| ensures PubOk(s', q) {
      if q == p { ActorStaysOk(s, p, act); } else { OtherStaysOk(s, p, act, q); }
    }
    forall q | 0 <= q < |s'.pubs| && s'.pubs[q].returned && q in s'.pending
      ensures s'.pubs[q].link < |s'.links| && Tracked(s', q)
    {
      if q != p { PubLeavesOthers(s, p, act, q); }
      PubKeepsTracked(s, p, act, q);
    }
    PubKeepsPending(s, p, act);
  }

  lemma PubKeepsPending(s: State, p: nat, act: PubAct)
    requires Inv(s) && CanPub(s, p, act)
    ensures ApplyPub(s, p, act).pending <= s.pending && ApplyPub(s, p, act).current == s.current
  {
  }

  // ------------------------------------------- the broker's and the wire's steps

  // The publishers themselves stay where they are.
  ghost predicate SamePublishers(s: State, s': State) {
    && |s'.pubs| == |s.pubs| && |s'.links| == |s.links|
    && s'.pending == s.pending && s'.drainMu == s.drainMu && s'.current == s.current
    && forall q :: 0 <= q < |s.pubs| ==>
         s'.pubs[q] == s.pubs[q].(returned := s'.pubs[q].returned, answer := s'.pubs[q].answer,
             confirm := s'.pubs[q].confirm)
  }

  // Answers only ever add up, and only to publishes that still await their confirm.
  predicate AnswerOk(before: Pub, after: Pub) {
    && (before.returned ==> after.returned) && (before.answer != Awaited ==> after.answer == before.answer)
    && (before.confirm != Awaited ==> after == before)
    && (after.confirm != Awaited ==> after.answer == after.confirm)
    && (after.returned ==> after.mandatory)
  }

  ghost predicate Answers(s: State, s': State) {
    SamePublishers(s, s') && forall q :: 0 <= q < |s.pubs| ==> AnswerOk(s.pubs[q], s'.pubs[q])
  }

  lemma AnswersKeepPubs(s: State, s': State)
    requires Inv(s) && Answers(s, s')
    ensures forall p :: 0 <= p < |s'.pubs| ==> PubOk(s', p)
  {
    forall p | 0 <= p < |s'.pubs| ensures PubOk(s', p) {
      assert PubOk(s, p);
    }
  }

  lemma BrokerAnswers(s: State, q: nat, act: BrokerAct)
    requires Inv(s) && CanAnswer(s, q, act)
    ensures Answers(s, ApplyBroker(s, q, act))
  {
    forall p | 0 <= p < |s.pubs| ensures AnswerOk(s.pubs[p], ApplyBroker(s, q, act).pubs[p]) {
      assert PubOk(s, p);
    }
  }

  lemma FramedLinkOk(s: State, s': State, g: nat, frame: Frame)
    requires Inv(s) && Answers(s, s') && g < |s.links|
    requires s'.links == s.links[g := Framed(s.links[g], frame)] && !s.links[g].dead
    requires forall q :: 0 <= q < |s.pubs| ==> s'.pubs[q].confirm == s.pubs[q].confirm
    requires frame.ReturnFrame? && frame.mid.Publish? ==>
               ReturnOf(s', frame.mid.p, g) &&
               s.pubs[frame.mid.p].confirm == Awaited && s.pubs[frame.mid.p].answer == Awaited
    requires frame.ConfirmFrame? ==>
               frame.p < |s.pubs| && s.pubs[frame.p].link == g && s'.pubs[frame.p].answer == Answered(frame.acked) &&
               s.pubs[frame.p].confirm == Awaited && s.pubs[frame.p].answer == Awaited
    ensures forall h :: 0 <= h < |s'.links| ==> LinkOk(s', h)
  {
    forall h | 0 <= h < |s'.links| ensures LinkOk(s', h) {
      assert LinkOk(s, h);
      forall j | 0 <= j < |s'.links[h].wire| ensures FrameOk(s', h, j) {
        if j < |s.links[h].wire| {
          assert FrameOk(s, h, j);
          assert forall i :: 0 <= i < j ==> s'.links[h].wire[i] == s.links[h].wire[i];
        } else {
          assert forall i :: 0 <= i < j ==> FrameOk(s, h, i) && s'.links[h].wire[i] == s.links[h].wire[i];
        }
      }
    }
  }

  lemma BrokerKeepsInv(s: State, q: nat, act: BrokerAct)
    requires Inv(s) && CanAnswer(s, q, act)
    ensures Inv(ApplyBroker(s, q, act))
  {
    var s', g := ApplyBroker(s, q, act), s.pubs[q].link;
    BrokerAnswers(s, q, act);
    AnswersKeepPubs(s, s');
    assert PubOk(s, q);
    FramedLinkOk(s, s', g, if act.Returns? then ReturnFrame(Publish(q)) else ConfirmFrame(q, act.acked));
    var wire := s'.links[g].wire;
    assert act.Returns? ==> wire[|wire| - 1] == ReturnFrame(Publish(q));
    forall p | 0 <= p < |s'.pubs| && s'.pubs[p].returned && p in s'.pending ensures Tracked(s', p) {
      if s.pubs[p].returned {
        assert Tracked(s, p);
        assert forall frame :: frame in s.links[g].wire ==> frame in wire;
      }
    }
  }

  lemma ForeignKeepsInv(s: State, g: nat)
    requires Inv(s) && CanLink(s, g, ForeignReturn)
    ensures Inv(ApplyLink(s, g, ForeignReturn))
  {
    var s' := ApplyLink(s, g, ForeignReturn);
    forall p | 0 <= p < |s.pubs| ensures AnswerOk(s.pubs[p], s'.pubs[p]) {
      assert PubOk(s, p);
    }
    AnswersKeepPubs(s, s');
    FramedLinkOk(s, s', g, ReturnFrame(Foreign));
    forall p | 0 <= p < |s'.pubs| && s'.pubs[p].returned && p in s'.pending
      ensures s'.pubs[p].link < |s'.links| && Tracked(s', p)
    {
      assert Tracked(s, p);
      assert forall frame :: frame in s.links[g].wire ==> frame in s'.links[g].wire;
    }
  }

  lemma DyingKeepsInv(s: State, g: nat)
    requires Inv(s) && CanLink(s, g, Dies)
    ensures Inv(ApplyLink(s, g, Dies))
  {
    var s' := ApplyLink(s, g, Dies);
    forall p | 0 <= p < |s.pubs| ensures AnswerOk(s.pubs[p], s'.pubs[p]) {
      assert PubOk(s, p);
    }
    AnswersKeepPubs(s, s');
    forall h | 0 <= h < |s'.links| ensures LinkOk(s', h) {
      assert LinkOk(s, h);
      forall j | 0 <= j < |s'.links[h].wire| ensures FrameOk(s', h, j) {
        assert FrameOk(s, h, j);
      }
    }
    forall p | 0 <= p < |s'.pubs| && s'.pubs[p].returned && p in s'.pending
      ensures s'.pubs[p].link < |s'.links| && Tracked(s', p)
    {
      assert Tracked(s, p);
      if s.pubs[p].link == g && ReturnFrame(Publish(p)) in s.links[g].wire {
        ReturnOnWireIsUnconfirmed(s, g, p);
      }
    }
  }

  lemma DispatchKeepsLinks(s: State, h: nat, g: nat)
    requires Inv(s) && CanLink(s, h, Dispatches) && g < |s.links|
    ensures |Dispatch(s, h).links| == |s.links| && LinkOk(Dispatch(s, h), g)
  {
    var s' := Dispatch(s, h);
    assert LinkOk(s, g) && LinkOk(s, h) && FrameOk(s, h, 0);
    forall j | 0 <= j < |s'.links[g].wire| ensures FrameOk(s', g, j) {
      if g == h {
        assert FrameOk(s, g, j + 1);
        assert forall i :: 0 <= i <= j ==> s'.links[g].wire[i] == s.links[g].wire[i + 1];
      } else {
        assert FrameOk(s, g, j);
      }
    }
  }

  lemma DispatchAnswers(s: State, g: nat)
    requires Inv(s) && CanLink(s, g, Dispatches)
    ensures Answers(s, Dispatch(s, g))
  {
    assert LinkOk(s, g) && FrameOk(s, g, 0);
    forall p | 0 <= p < |s.pubs| ensures AnswerOk(s.pubs[p], Dispatch(s, g).pubs[p]) {
      assert PubOk(s, p);
    }
  }

  lemma DispatchKeepsTracked(s: State, g: nat, q: nat)
    requires Inv(s) && CanLink(s, g, Dispatches) && q < |s.pubs| && s.pubs[q].returned && q in s.pending
    ensures var s' := Dispatch(s, g);
            q < |s'.pubs| && s'.pubs[q].link < |s'.links| && Tracked(s', q)
  {
    var s', l := Dispatch(s, g), s.links[s.pubs[q].link];
    DispatchAnswers(s, g);
    assert Tracked(s, q) && LinkOk(s, g) && LinkOk(s, s.pubs[q].link) && FrameOk(s, g, 0);
    var wire := s.links[g].wire;
    assert wire == [wire[0]] + wire[1..];
  }

  lemma DispatchKeepsInv(s: State, g: nat)
    requires Inv(s) && CanLink(s, g, Dispatches)
    ensures Inv(Dispatch(s, g))
  {
    var s' := Dispatch(s, g);
    DispatchAnswers(s, g);
    AnswersKeepPubs(s, s');
    forall h | 0 <= h < |s'.links| ensures LinkOk(s', h) {
      DispatchKeepsLinks(s, g, h);
    }
    forall q | 0 <= q < |s'.pubs| && s'.pubs[q].returned && q in s'.pending
      ensures s'.pubs[q].link < |s'.links| && Tracked(s', q)
    {
      DispatchOnlyConfirms(s, g, q);
      DispatchKeepsTracked(s, g, q);
    }
  }

  lemma DispatchOnlyConfirms(s: State, g: nat, q: nat)
    requires CanLink(s, g, Dispatches) && q < |s.pubs|
    ensures q < |Dispatch(s, g).pubs| && Dispatch(s, g).pubs[q].returned == s.pubs[q].returned
  {
  }

  lemma StepKeepsInv(s: State, step: Step)
    requires Inv(s) && Enabled(s, step)
    ensures Inv(Apply(s, step))
  {
    match step
    case SenderStep(act) => SenderKeepsInv(s, act);
    case PubStep(p, act) => PubKeepsInv(s, p, act);
    case BrokerStep(q, act) => BrokerKeepsInv(s, q, act);
    case LinkStep(g, act) =>
      match act {
        case ForeignReturn => ForeignKeepsInv(s, g);
        case Dispatches => DispatchKeepsInv(s, g);
        case Dies => DyingKeepsInv(s, g);
      }
  }

  // ------------------------------------------------------------- every run

  lemma {:induction false} RunKeepsInv(s: State, run: seq<Step>)
    requires Inv(s) && Legal(s, run)
    ensures Inv(Exec(s, run))
    decreases |run|
  {
    if run != [] {
      StepKeepsInv(s, run[0]);
      RunKeepsInv(Apply(s, run[0]), run[1..]);
    }
  }

  // A mandatory publish the broker acked, drained on its own channel, reports "returned"
  // exactly when the broker returned it.
  lemma ReturnedExactly(run: seq<Step>, p: nat)
    requires Legal(Initial(), run) && p < |Exec(Initial(), run).pubs|
    requires var pub := Exec(Initial(), run).pubs[p];
             pub.pc.Finished? && pub.mandatory && pub.confirm == Acked && pub.drainedOn == Some(pub.link)
    ensures var pub := Exec(Initial(), run).pubs[p];
            && (pub.pc.verdict == ReturnedError <==> pub.returned)
            && (pub.pc.verdict == Fine <==> !pub.returned)
  {
    InitiallyInv();
    RunKeepsInv(Initial(), run);
    assert PubOk(Exec(Initial(), run), p);
  }

  // Without that proviso a report of "returned" is still always true.
  lemma ReturnedIsNeverInvented(run: seq<Step>, p: nat)
    requires Legal(Initial(), run) && p < |Exec(Initial(), run).pubs|
    requires Ended(Exec(Initial(), run).pubs[p].pc, ReturnedError)
    ensures Exec(Initial(), run).pubs[p].returned && Exec(Initial(), run).pubs[p].answer == Acked
  {
    InitiallyInv();
    RunKeepsInv(Initial(), run);
    assert PubOk(Exec(Initial(), run), p);
  }

  // The pending map holds exactly the mandatory publishes still in flight.
  lemma PendingIsInFlight(run: seq<Step>)
    requires Legal(Initial(), run)
    ensures var s := Exec(Initial(), run);
            forall p :: p in s.pending <==> 0 <= p < |s.pubs| && s.pubs[p].mandatory && !s.pubs[p].pc.Finished?
  {
    InitiallyInv();
    RunKeepsInv(Initial(), run);
    var s := Exec(Initial(), run);
    forall p ensures p in s.pending <==> 0 <= p < |s.pubs| && s.pubs[p].mandatory && !s.pubs[p].pc.Finished? {
      assert 0 <= p < |s.pubs| ==> PubOk(s, p);
    }
  }

  // A return the broker sent for a publish still in flight is never mislaid.
  lemma ReturnsAreNeverMislaid(run: seq<Step>, q: nat)
    requires Legal(Initial(), run) && q < |Exec(Initial(), run).pubs|
    requires Exec(Initial(), run).pubs[q].returned && !Exec(Initial(), run).pubs[q].pc.Finished?
    ensures Exec(Initial(), run).pubs[q].link < |Exec(Initial(), run).links| && Tracked(Exec(Initial(), run), q)
  {
    InitiallyInv();
    RunKeepsInv(Initial(), run);
    assert PubOk(Exec(Initial(), run), q);
  }
}
