/** Mandatory returns and confirms (OnEvent in confirm mode, drainReturns and handleReturn
    in sender/sender.go): any number of publishers, one wire and one returns buffer per
    channel, one drain lock. */
module SenderReturns {
  import opened Options

  // ------------------------------------------------------------------ state

  // The MessageId in a return: a mandatory publish of this sender, or something foreign.
  datatype MessageId = Publish(p: nat) | Foreign

  datatype Frame = ReturnFrame(mid: MessageId) | ConfirmFrame(p: nat, acked: bool)

  // One channel: the frames on the wire and the returns the library has buffered. A dead
  // channel lost the rest of its wire.
  datatype Link = Link(wire: seq<Frame>, buffer: seq<MessageId>, dead: bool)

  const BUFFER_SIZE := 32

  datatype Verdict = Fine | ReturnedError | PublishError | ConfirmError | NackError

  datatype Confirm = Awaited | Acked | Nacked

  datatype Pc =
    | Registered                              // pending entry stored, not yet published
    | Sent                                    // waiting for the confirm
    | Confirmed                               // acked, about to drain
    | WantLock(link: nat)
    | Locked(link: nat)                       // holds the drain lock, at the select
    | Holding(link: nat, mid: MessageId)      // took a return off the buffer
    | Storing(link: nat, q: nat)              // found its pending entry
    | Drained
    | Deciding(verdict: Verdict)              // about to delete its pending entry
    | Finished(verdict: Verdict)

  // A publish in confirm mode. `stored`: its pending entry holds a return; `answer`, what the
  // broker sent, `confirm`, what of it has arrived. History: `sent`,
  // the library took it; `cut`, its wait for the confirm failed; `drainedOn`, the channel
  // whose buffer it read, absent when there was none to read.
  datatype Pub = Pub(
    mandatory: bool,
    link: nat,
    pc: Pc,
    stored: bool,
    sent: bool,
    cut: bool,
    published: bool,
    returned: bool,
    answer: Confirm,
    confirm: Confirm,
    drainedOn: Option<nat>)

  datatype State = State(
    pubs: seq<Pub>,
    pending: set<nat>,
    links: seq<Link>,
    current: Option<nat>,
    drainMu: Option<nat>)

  function Initial(): State {
    State([], {}, [], None, None)
  }

  // ------------------------------------------------------------------ steps

  datatype SenderAct = Connects | Disconnects | Begins(mandatory: bool)

  datatype PubAct =
    | PublishOk | PublishFails(reached: bool)
    | WaitEnds | WaitFails
    | ReadsReturns | Locks | TakesReturn | LoadsEntry | StoresEntry | Unlocks
    | ReadsEntry | Finishes

  datatype BrokerAct = Returns | Confirms(acked: bool)

  datatype LinkAct = ForeignReturn | Dispatches | Dies

  // Who moves: the sender's owner, publisher p, the broker answering publish p, or the
  // library's reader and the network on channel g.
  datatype Step =
    | SenderStep(sender: SenderAct)
    | PubStep(p: nat, pub: PubAct)
    | BrokerStep(q: nat, broker: BrokerAct)
    | LinkStep(g: nat, link: LinkAct)

  predicate CanSend(s: State, act: SenderAct) { act.Begins? ==> s.current.Some? }

  function ApplySender(s: State, act: SenderAct): State
    requires CanSend(s, act)
  {
    match act
    case Connects => s.(links := s.links + [Link([], [], false)], current := Some(|s.links|))
    case Disconnects => s.(current := None)
    case Begins(mandatory) =>
      s.(pubs := s.pubs + [
           Pub(mandatory, s.current.value, Registered, false, false, false, false, false, Awaited, Awaited, None)],
         pending := if mandatory then s.pending + {|s.pubs|} else s.pending)
  }

  predicate CanPub(s: State, p: nat, act: PubAct) {
    p < |s.pubs| &&
    var pub := s.pubs[p];
    match act
    case PublishOk => pub.pc.Registered?
    case PublishFails(_) => pub.pc.Registered?
    case WaitEnds => pub.pc.Sent? && pub.confirm != Awaited
    case WaitFails => pub.pc.Sent?
    case ReadsReturns => pub.pc.Confirmed?
    case Locks => pub.pc.WantLock? && s.drainMu.None?
    case TakesReturn => pub.pc.Locked? && pub.pc.link < |s.links| && s.links[pub.pc.link].buffer != []
    case LoadsEntry => pub.pc.Holding?
    case StoresEntry => pub.pc.Storing? && pub.pc.q < |s.pubs|
    case Unlocks => pub.pc.Locked? && pub.pc.link < |s.links| && s.links[pub.pc.link].buffer == []
    case ReadsEntry => pub.pc.Drained?
    case Finishes => pub.pc.Deciding?
  }

  // Where the publisher goes next.
  function NextPc(s: State, p: nat, act: PubAct): Pc
    requires CanPub(s, p, act)
  {
    var pub := s.pubs[p];
    match act
    case PublishOk => Sent
    case PublishFails(_) => Deciding(PublishError)
    case WaitEnds => if pub.confirm == Acked then Confirmed else Deciding(NackError)
    case WaitFails => Deciding(ConfirmError)
    case ReadsReturns => if s.current.None? then Drained else WantLock(s.current.value)
    case Locks => Locked(pub.pc.link)
    case TakesReturn => Holding(pub.pc.link, s.links[pub.pc.link].buffer[0])
    case LoadsEntry =>
      if pub.pc.mid.Publish? && pub.pc.mid.p in s.pending
      then Storing(pub.pc.link, pub.pc.mid.p) else Locked(pub.pc.link)
    case StoresEntry => Locked(pub.pc.link)
    case Unlocks => Drained
    case ReadsEntry => Deciding(if pub.mandatory && pub.stored then ReturnedError else Fine)
    case Finishes => Finished(pub.pc.verdict)
  }

  // The publisher's own record after the step.
  function NextPub(s: State, p: nat, act: PubAct): Pub
    requires CanPub(s, p, act)
  {
    var pub := s.pubs[p].(pc := NextPc(s, p, act));
    match act
    case PublishOk => pub.(published := true, sent := true)
    case WaitFails => pub.(cut := true)
    case PublishFails(reached) => pub.(published := reached)
    case ReadsReturns => pub.(drainedOn := s.current)
    case _ => pub
  }

  function ApplyPub(s: State, p: nat, act: PubAct): State
    requires CanPub(s, p, act)
  {
    var pc := s.pubs[p].pc;
    var s' := s.(pubs := s.pubs[p := NextPub(s, p, act)]);
    match act
    case Locks => s'.(drainMu := Some(p))
    case Unlocks => s'.(drainMu := None)
    case TakesReturn => s'.(links := s.links[pc.link := s.links[pc.link].(buffer := s.links[pc.link].buffer[1..])])
    case StoresEntry => s'.(pubs := s'.pubs[pc.q := s'.pubs[pc.q].(stored := true)])
    case Finishes => s'.(pending := s.pending - {p})
    case _ => s'
  }

  // The broker answers a publish that reached it, and confirms it last.
  predicate CanAnswer(s: State, q: nat, act: BrokerAct) {
    && q < |s.pubs| && s.pubs[q].published && s.pubs[q].answer == Awaited
    && s.pubs[q].link < |s.links| && !s.links[s.pubs[q].link].dead
    && (act.Returns? ==> s.pubs[q].mandatory && !s.pubs[q].returned)
  }

  function Framed(l: Link, frame: Frame): Link { l.(wire := l.wire + [frame]) }

  function ApplyBroker(s: State, q: nat, act: BrokerAct): State
    requires CanAnswer(s, q, act)
  {
    var g := s.pubs[q].link;
    match act
    case Returns => s.(
      pubs := s.pubs[q := s.pubs[q].(returned := true)],
      links := s.links[g := Framed(s.links[g], ReturnFrame(Publish(q)))])
    case Confirms(acked) => s.(
      pubs := s.pubs[q := s.pubs[q].(answer := if acked then Acked else Nacked)],
      links := s.links[g := Framed(s.links[g], ConfirmFrame(q, acked))])
  }

  predicate CanLink(s: State, g: nat, act: LinkAct) {
    g < |s.links| &&
    var l := s.links[g];
    && (act.ForeignReturn? ==> !l.dead)
    && (act.Dispatches? ==> l.wire != [])
    // The library blocks on a full buffer.
    && (act.Dispatches? && l.wire[0].ReturnFrame? ==> |l.buffer| < BUFFER_SIZE)
    && (act.Dispatches? && l.wire[0].ConfirmFrame? ==> l.wire[0].p < |s.pubs|)
  }

  function Dispatch(s: State, g: nat): State
    requires CanLink(s, g, Dispatches)
  {
    var l := s.links[g];
    match l.wire[0]
    case ReturnFrame(mid) => s.(links := s.links[g := l.(wire := l.wire[1..], buffer := l.buffer + [mid])])
    case ConfirmFrame(p, acked) => s.(
      links := s.links[g := l.(wire := l.wire[1..])],
      pubs := s.pubs[p := s.pubs[p].(confirm := if acked then Acked else Nacked)])
  }

  function ApplyLink(s: State, g: nat, act: LinkAct): State
    requires CanLink(s, g, act)
  {
    match act
    case ForeignReturn => s.(links := s.links[g := Framed(s.links[g], ReturnFrame(Foreign))])
    case Dispatches => Dispatch(s, g)
    case Dies => s.(links := s.links[g := s.links[g].(wire := [], dead := true)])
  }

  predicate Enabled(s: State, step: Step) {
    match step
    case SenderStep(act) => CanSend(s, act)
    case PubStep(p, act) => CanPub(s, p, act)
    case BrokerStep(q, act) => CanAnswer(s, q, act)
    case LinkStep(g, act) => CanLink(s, g, act)
  }

  function Apply(s: State, step: Step): State
    requires Enabled(s, step)
  {
    match step
    case SenderStep(act) => ApplySender(s, act)
    case PubStep(p, act) => ApplyPub(s, p, act)
    case BrokerStep(q, act) => ApplyBroker(s, q, act)
    case LinkStep(g, act) => ApplyLink(s, g, act)
  }

  ghost predicate Legal(s: State, run: seq<Step>)
    decreases |run|
  {
    run == [] || (Enabled(s, run[0]) && Legal(Apply(s, run[0]), run[1..]))
  }

  function Exec(s: State, run: seq<Step>): State
    requires Legal(s, run)
    decreases |run|
  {
    if run == [] then s else Exec(Apply(s, run[0]), run[1..])
  }
}
