/** System calls keep the kernel invariant, each in its own way of ending. */
module KernelCalls {
  import opened Common
  import opened Topics
  import opened Waits
  import opened Subscriptions
  import opened EventQueues
  import opened Mail
  import opened MailInvariant
  import opened MailBoxes
  import opened MailOps
  import opened MailEnds
  import opened Kernel
  import opened KernelInvariant

  // ----- What select leaves behind -----

  /** The mailboxes `subs` are empty and armed with the events `es`, one by one. */
  ghost predicate AllArmed(m: MState, subs: seq<SubId>, es: seq<EventId>) {
    && |es| == |subs|
    && forall i :: 0 <= i < |subs| ==> ArmedWith(m, subs[i], es[i]) && Box(m, subs[i]).queue.items == []
  }

  /** Arming more mailboxes takes nothing away from the armed ones. */
  ghost predicate OnlyArmed(m: MState, m': MState) {
    && m' == m.(mailboxes := m'.mailboxes, nextEvent := m'.nextEvent)
    && (forall s :: HasBox(m', s) <==> HasBox(m, s))
    && (forall s :: HasBox(m, s) ==> Box(m', s).queue.items == Box(m, s).queue.items)
    && (forall s, e: EventId :: ArmedWith(m, s, e) ==> ArmedWith(m', s, e))
  }

  lemma {:induction false} SelectArms(m: MState, subs: seq<SubId>)
    requires BoxesOk(m) && SelectSafe(m, subs)
    ensures var (m', r) := SelectFrom(m, subs);
      && OnlyArmed(m, m') && BoxesOk(m')
      && (r.Wait? ==> AllArmed(m', subs, r.events))
      && (r.Ready? ==> r.index < |subs| && HasBox(m, subs[r.index]) && Box(m, subs[r.index]).queue.items != [])
    decreases |subs|
  {
    if subs != [] && Box(m, subs[0]).queue.items == [] {
      ArmStep(m, subs[0]);
      var (m1, e) := ArmBox(m, subs[0]);
      assert BoxesOk(m1) by {
        forall s | HasBox(m1, s) ensures QueueInv(Box(m1, s).queue) && Box(m1, s).queue.limit == MAILBOX_BUFFER_LIMIT {
          assert BoxStep(Box(m, s), Box(m1, s));
        }
      }
      SelectArms(m1, subs[1..]);
      var (m', r) := SelectFrom(m, subs);
      if r.Wait? {
        var es := SelectFrom(m1, subs[1..]).1.events;
        forall i | 0 <= i < |subs| ensures ArmedWith(m', subs[i], r.events[i]) && Box(m', subs[i]).queue.items == [] {
          if i > 0 { assert subs[i] == subs[1..][i - 1] && r.events[i] == es[i - 1]; }
        }
      }
    }
  }

  lemma {:induction false} SelectKeeps(m: MState, subs: seq<SubId>, x: Pid)
    requires MInv(m) && SelectSafe(m, subs) && NotSending(m, x)
    ensures var m' := SelectFrom(m, subs).0;
      MInv(m') && MailStep(m, m', {}, x) && m'.pending == m.pending && m'.results == m.results
    decreases |subs|
  {
    hide ListOk, OwnersOk, BoxesOk, EventsOk, SendersOk, AcksOk, PipesOk, MailStep;
    if subs != [] && Box(m, subs[0]).queue.items == [] {
      ArmKeeps(m, subs[0], x);
      var m1 := ArmBox(m, subs[0]).0;
      SelectKeeps(m1, subs[1..], x);
      MailStepCompose(m, {}, m1, {}, SelectFrom(m1, subs[1..]).0, x);
      var none: set<EventId> := {};
      assert none + none == none;
    } else {
      NothingKeeps(m, x);
    }
  }

  // ----- What a call does to the manager -----

  lemma ReceiveKeeps(m: MState, pid: Pid, sub: SubId)
    requires MInv(m) && ReceiveSafe(m, pid, sub)
    ensures var m' := Mail.Receive(m, pid, sub).0;
      MInv(m') && MailStep(m, m', {}, pid) && m'.pending == m.pending && m'.results == m.results
  {
    hide ListOk, OwnersOk, BoxesOk, EventsOk, SendersOk, AcksOk, PipesOk, MailStep;
    if Owns(m, pid, sub) && HasBox(m, sub) {
      if Box(m, sub).queue.items != [] { PopKeeps(m, sub, pid); } else { ArmKeeps(m, sub, pid); }
    } else {
      NothingKeeps(m, pid);
    }
  }

  /** May this call come from a process in this state? Only a repeated delivery finds a verdict. */
  ghost predicate Callable(m: MState, pid: Pid, call: Call) {
    && MInv(m) && CallSafe(m, pid, call) && Disciplined(m, call) && NotSending(m, pid)
    && (pid in m.results ==> call.Deliver?)
  }

  lemma CallKeeps(m: MState, pid: Pid, call: Call)
    requires Callable(m, pid, call)
    ensures var (m', r, events) := CallEffect(m, pid, call);
      MInv(m') && MailStep(m, m', events, pid)
  {
    hide ListOk, OwnersOk, BoxesOk, EventsOk, SendersOk, AcksOk, PipesOk, MailStep;
    match call
    case Exit(_) => NothingKeeps(m, pid);
    case Fault => NothingKeeps(m, pid);
    case Plain(_) => NothingKeeps(m, pid);
    case Exec(_, _) => NothingKeeps(m, pid);
    case Yield(_) => NothingKeeps(m, pid);
    case Sleep(_, _) => NothingKeeps(m, pid);
    case Subscribe(filter, prefix, reliable, pipeBit) =>
      var f := NewFilter(filter, !prefix);
      if f.Some? { SubscribeKeeps(m, pid, f.value, reliable, pipeBit && prefix && reliable); }
      else { NothingKeeps(m, pid); }
    case Unsubscribe(sub) => UnsubscribeKeeps(m, pid, sub);
    case Publish(topic, data) =>
      if ValidTopic(topic) { PublishKeeps(m, FindAll(m.list, topic, false), Message(topic, data, Option.None), pid); }
      else { NothingKeeps(m, pid); }
    case Deliver(topic, data, service) =>
      if pid in m.results { AfterDeliveryKeeps(m, pid); }
      else if ValidTopic(topic) { DeliverKeeps(m, pid, topic, data, service); }
      else { NothingKeeps(m, pid); }
    case DeliverReply(topic, data) =>
      if ValidTopic(topic) { DeliverReplyKeeps(m, topic, data, pid); } else { NothingKeeps(m, pid); }
    case Receive(sub, _) => ReceiveKeeps(m, pid, sub);
    case Acknowledge(_, ack, positive) => AcknowledgeKeeps(m, ack, positive, pid);
    case Select(subs, _) =>
      if subs == [] { NothingKeeps(m, pid); } else { SelectKeeps(m, subs, pid); }
  }

  /** The process has one outstanding delivery, to be decided by this event. */
  ghost predicate SendsOn(m: MState, pid: Pid, e: EventId) {
    exists a ::
      && a in m.pending && m.pending[a] == Pending(e, pid)
      && forall b :: b in m.pending && m.pending[b].sender == pid ==> b == a
  }

  /** How a call leaves its own process: nothing outstanding, unless it now waits for the reason given. */
  ghost predicate CallOutcome(m: MState, pid: Pid, call: Call, r: SyscallResult) {
    && pid !in m.results
    && match r
       case Continue(_) => NotSending(m, pid)
       case Terminate => NotSending(m, pid)
       case Switch(_, s) => NotSending(m, pid) && (s.None? || s.Time?)
       case RepeatAfter(s) =>
         match call
         case Receive(sub, _) => NotSending(m, pid) && s.Event? && AllArmed(m, [sub], [s.event])
         case Select(subs, _) =>
           NotSending(m, pid) && subs != [] && exists es :: s == FirstOf(EventList(es)) && AllArmed(m, subs, es)
         case Deliver(_, _, _) =>
           s.Event? && SendsOn(m, pid, s.event)
         case _ => false
  }

  lemma NoNewSender(m: MState, m': MState, events: set<EventId>, pid: Pid)
    requires MailStep(m, m', events, pid) && NotSending(m, pid)
    ensures pid !in m.results ==> pid !in m'.results
    ensures (forall a :: a in m'.pending ==> a in m.pending) ==> NotSending(m', pid)
  {
    assert !Decided(m, m', pid);
    assert forall a :: a in m.pending ==> Followed(m, m', events, a);
  }

  lemma SelectOutcome(m: MState, pid: Pid, call: Call)
    requires Callable(m, pid, call) && call.Select?
    ensures CallOutcome(CallEffect(m, pid, call).0, pid, call, CallEffect(m, pid, call).1)
  {
    hide ListOk, OwnersOk, EventsOk, SendersOk, AcksOk, PipesOk, MailStep, BoxesOk;
    if call.subs != [] {
      SelectKeeps(m, call.subs, pid);
      SelectArms(m, call.subs);
      var (m', r) := SelectFrom(m, call.subs);
      if r.Wait? && !call.nonblocking {
        assert FirstOf(EventList(r.events)) == FirstOf(EventList(r.events)) && AllArmed(m', call.subs, r.events);
      }
    }
  }

  lemma ReceiveOutcome(m: MState, pid: Pid, call: Call)
    requires Callable(m, pid, call) && call.Receive?
    ensures CallOutcome(CallEffect(m, pid, call).0, pid, call, CallEffect(m, pid, call).1)
  {
    hide ListOk, OwnersOk, EventsOk, SendersOk, AcksOk, PipesOk, MailStep;
    ReceiveKeeps(m, pid, call.sub);
    var (m', r, _) := CallEffect(m, pid, call);
    if r.RepeatAfter? {
      ArmStep(m, call.sub);
      assert AllArmed(m', [call.sub], [r.wait.event]);
    }
  }

  lemma DeliverOutcome(m: MState, pid: Pid, call: Call)
    requires Callable(m, pid, call) && call.Deliver?
    ensures CallOutcome(CallEffect(m, pid, call).0, pid, call, CallEffect(m, pid, call).1)
  {
    hide ListOk, OwnersOk, EventsOk, AcksOk, PipesOk, MailStep, BoxesOk;
    if pid !in m.results && ValidTopic(call.topic) {
      DeliverKeeps(m, pid, call.topic, call.data, call.service);
      var (m', r, _) := CallEffect(m, pid, call);
      if r.RepeatAfter? {
        assert m.nextAck in m'.pending && m'.pending[m.nextAck] == Pending(r.wait.event, pid);
      }
    }
  }

  lemma CallOutcomes(m: MState, pid: Pid, call: Call)
    requires Callable(m, pid, call)
    ensures CallOutcome(CallEffect(m, pid, call).0, pid, call, CallEffect(m, pid, call).1)
  {
    hide ListOk, OwnersOk, BoxesOk, EventsOk, SendersOk, AcksOk, PipesOk, MailStep;
    if call.Select? { SelectOutcome(m, pid, call); }
    else if call.Receive? { ReceiveOutcome(m, pid, call); }
    else if call.Deliver? { DeliverOutcome(m, pid, call); }
    else {
      CallKeeps(m, pid, call);
      var (m', _, events) := CallEffect(m, pid, call);
      PendingShrinks(m, pid, call);
      NoNewSender(m, m', events, pid);
    }
  }

  lemma PendingShrinks(m: MState, pid: Pid, call: Call)
    requires Callable(m, pid, call) && !Repeatable(call)
    ensures forall a :: a in CallEffect(m, pid, call).0.pending ==> a in m.pending
  {
    hide ListOk, OwnersOk, BoxesOk, EventsOk, SendersOk, AcksOk, PipesOk, MailStep;
    if call.DeliverReply? && ValidTopic(call.topic) { DeliverReplyKeeps(m, call.topic, call.data, pid); }
  }
}
