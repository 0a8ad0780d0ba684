/** Subscribing, delivering, acknowledging and tearing down keep the manager invariant. */
module MailOps {
  import opened Common
  import opened Topics
  import opened Subscriptions
  import opened EventQueues
  import opened Mail
  import opened MailInvariant
  import opened MailBoxes

  lemma SameOwners(m: MState, m': MState)
    requires OwnersOk(m) && m'.owned == m.owned && forall s :: HasBox(m', s) <==> HasBox(m, s)
    ensures OwnersOk(m')
  {
    assert forall p, s: SubId :: Owns(m', p, s) <==> Owns(m, p, s);
    forall s | HasBox(m', s) ensures exists p :: Owns(m', p, s) { var p :| Owns(m, p, s); assert Owns(m', p, s); }
  }

  lemma BoxIds(m: MState, s: SubId)
    requires ListOk(m) && s in m.mailboxes
    ensures s < m.list.next
  {
    IdsAre(m.list, s);
  }

  // ----- Subscribing -----

  /** One new mailbox, empty and not connected; nothing else changes for those who wait. */
  ghost predicate BoxAdded(m: MState, m': MState, id: SubId) {
    && m' == m.(list := m'.list, mailboxes := m'.mailboxes, owned := m'.owned)
    && id !in m.mailboxes && m'.mailboxes.Keys == m.mailboxes.Keys + {id}
    && (forall s :: s in m.mailboxes ==> m'.mailboxes[s] == m.mailboxes[s])
    && (m'.mailboxes[id].Some? ==> m'.mailboxes[id].value.queue == Empty(MAILBOX_BUFFER_LIMIT))
    && (m'.mailboxes[id].Some? ==> !m'.mailboxes[id].value.pipe.ConnectedTo?)
  }

  lemma AddedBoxes(m: MState, m': MState, id: SubId)
    requires BoxAdded(m, m', id)
    ensures forall s :: HasBox(m', s) ==> s == id || (HasBox(m, s) && Box(m', s) == Box(m, s))
    ensures forall s :: HasBox(m, s) ==> HasBox(m', s)
    ensures forall s, i: nat, a :: Queued(m', s, i, a) <==> Queued(m, s, i, a)
    ensures forall s, e: EventId :: ArmedWith(m', s, e) <==> ArmedWith(m, s, e)
  {
  }

  lemma AddedKeeps(m: MState, m': MState, id: SubId)
    requires BoxAdded(m, m', id)
    ensures BoxesOk(m) ==> BoxesOk(m')
    ensures AcksOk(m) ==> AcksOk(m')
    ensures SendersOk(m) ==> SendersOk(m')
    ensures PipesOk(m) ==> PipesOk(m')
  {
    AddedBoxes(m, m', id);
    if PipesOk(m) {
      forall s | HasBox(m', s) ensures PipeOk(m', s) {
        if s != id { assert PipeOk(m, s); }
      }
    }
  }

  lemma AddedEvents(m: MState, m': MState, id: SubId)
    requires BoxAdded(m, m', id) && EventsOk(m)
    ensures EventsOk(m')
  {
    AddedBoxes(m, m', id);
  }

  lemma AddedMailStep(m: MState, m': MState, id: SubId, x: Pid)
    requires BoxAdded(m, m', id) && m.list.next <= m'.list.next && m.list.next <= id
    ensures MailStep(m, m', {}, x)
  {
    AddedBoxes(m, m', id);
    forall a | a in m.pending ensures Followed(m, m', {}, a) {}
  }

  lemma AddedList(m: MState, m': MState, filter: TopicFilter, reliable: bool)
    requires ListOk(m) && BoxAdded(m, m', m.list.next)
      && Insert(m.list, filter, reliable) == (m'.list, Some(m.list.next))
    requires !reliable ==> m'.mailboxes[m.list.next].Some? && m'.mailboxes[m.list.next].value.pipe.NoPipe?
    ensures ListOk(m')
  {
    InsertKeepsInv(m.list, filter, reliable);
    forall t | t in m'.list.targets && !t.reliable ensures HasBox(m', t.id) && Box(m', t.id).pipe.NoPipe? {
      if t in m.list.targets { IdsAre(m.list, t.id); }
    }
  }

  lemma SubscribeOwners(m: MState, pid: Pid, filter: TopicFilter, reliable: bool, pipe: bool)
    requires OwnersOk(m) && m.list.next !in m.mailboxes
    ensures OwnersOk(Subscribe(m, pid, filter, reliable, pipe).0)
  {
    var (m', r) := Subscribe(m, pid, filter, reliable, pipe);
    if r.Ok? {
      assert forall p, s: SubId :: Owns(m', p, s) <==> Owns(m, p, s) || (p == pid && s == r.value);
      forall s | HasBox(m', s) ensures exists p :: Owns(m', p, s) {
        if s == r.value { assert Owns(m', pid, s); }
        else { assert HasBox(m, s); var p :| Owns(m, p, s); assert Owns(m', p, s); }
      }
    }
  }

  lemma NextIsNew(m: MState)
    requires ListOk(m)
    ensures m.list.next !in m.mailboxes
  {
    IdsAre(m.list, m.list.next);
  }

  lemma NothingKeeps(m: MState, x: Pid)
    ensures MailStep(m, m, {}, x)
  {
    forall a | a in m.pending ensures Followed(m, m, {}, a) {}
  }

  lemma SubscribeKeeps(m: MState, pid: Pid, filter: TopicFilter, reliable: bool, pipe: bool)
    requires MInv(m) && (pipe ==> reliable)
    ensures var m' := Subscribe(m, pid, filter, reliable, pipe).0;
      MInv(m') && MailStep(m, m', {}, pid) && m'.pending == m.pending && m'.results == m.results
  {
    hide ListOk, OwnersOk, BoxesOk, EventsOk, SendersOk, AcksOk, PipesOk, MailStep;
    var (m', r) := Subscribe(m, pid, filter, reliable, pipe);
    if r.Ok? {
      NextIsNew(m);
      AddedKeeps(m, m', m.list.next);
      AddedEvents(m, m', m.list.next);
      AddedList(m, m', filter, reliable);
      AddedMailStep(m, m', m.list.next, pid);
      SubscribeOwners(m, pid, filter, reliable, pipe);
    } else {
      NothingKeeps(m, pid);
    }
  }

  lemma KernelSubscribeKeeps(m: MState, filter: TopicFilter, x: Pid)
    requires MInv(m)
    ensures var m' := KernelSubscribe(m, filter).0;
      MInv(m') && MailStep(m, m', {}, x) && m'.pending == m.pending && m'.results == m.results
  {
    hide ListOk, OwnersOk, BoxesOk, EventsOk, SendersOk, AcksOk, PipesOk, MailStep;
    var (m', r) := KernelSubscribe(m, filter);
    if r.Ok? {
      NextIsNew(m);
      AddedKeeps(m, m', m.list.next);
      AddedEvents(m, m', m.list.next);
      AddedList(m, m', filter, true);
      AddedMailStep(m, m', m.list.next, x);
      AddedBoxes(m, m', m.list.next);
      SameOwners(m, m');
    } else {
      NothingKeeps(m, x);
    }
  }

  // ----- Delivering -----

  /** The delivery was queued: the last item of `sub` carries the new acknowledgement id. */
  ghost predicate Enqueued(m: MState, m': MState, pid: Pid, sub: SubId) {
    && HasBox(m, sub) && HasBox(m', sub)
    && m' == m.(mailboxes := m.mailboxes[sub := Some(Box(m', sub))], nextAck := m.nextAck + 1,
          nextEvent := m.nextEvent + 1,
                pending := m.pending[m.nextAck := Pending(m.nextEvent, pid)])
    && var b, b' := Box(m, sub), Box(m', sub);
      && |b'.queue.items| == |b.queue.items| + 1 <= b.queue.limit
      && b'.queue.items[..|b.queue.items|] == b.queue.items
      && b'.queue.items[|b.queue.items|].ack == Some(m.nextAck)
      && b'.queue.event == None && b'.queue.limit == b.queue.limit
      && PipeOpen(b, pid)
      && b'.pipe == if b.pipe.NoPipe? then NoPipe else ConnectedTo(pid)
  }

  lemma EnqueuedBoxes(m: MState, m': MState, pid: Pid, sub: SubId)
    requires Enqueued(m, m', pid, sub)
    ensures forall s :: HasBox(m', s) <==> HasBox(m, s)
    ensures forall s :: HasBox(m, s) && s != sub ==> Box(m', s) == Box(m, s)
    ensures forall s, e: EventId :: ArmedWith(m', s, e) <==> ArmedWith(m, s, e) && s != sub
    ensures forall s, i: nat, a :: Queued(m', s, i, a) <==>
      Queued(m, s, i, a) || (s == sub && i == |Box(m, sub).queue.items| && a == m.nextAck)
  {
    var n := |Box(m, sub).queue.items|;
    assert forall i :: 0 <= i < n ==> Box(m', sub).queue.items[i] == Box(m', sub).queue.items[..n][i];
  }

  lemma EnqueuedAcks(m: MState, m': MState, pid: Pid, sub: SubId)
    requires Enqueued(m, m', pid, sub) && AcksOk(m) && SendersOk(m)
    ensures AcksOk(m')
  {
    EnqueuedBoxes(m, m', pid, sub);
    assert m.nextAck !in m.pending;
  }

  lemma EnqueuedEvents(m: MState, m': MState, pid: Pid, sub: SubId)
    requires Enqueued(m, m', pid, sub) && EventsOk(m)
    ensures EventsOk(m')
  {
    EnqueuedBoxes(m, m', pid, sub);
  }

  lemma EnqueuedPipes(m: MState, m': MState, pid: Pid, sub: SubId)
    requires Enqueued(m, m', pid, sub) && PipesOk(m) && SendersOk(m)
    ensures PipesOk(m')
  {
    EnqueuedBoxes(m, m', pid, sub);
    var n := |Box(m, sub).queue.items|;
    forall s | HasBox(m', s) ensures PipeOk(m', s) {
      assert PipeOk(m, s);
      if s == sub {
        assert forall i :: 0 <= i < n ==> Box(m', sub).queue.items[i] == Box(m, sub).queue.items[..n][i];
      }
    }
  }

  lemma EnqueuedRest(m: MState, m': MState, pid: Pid, sub: SubId)
    requires Enqueued(m, m', pid, sub) && BoxesOk(m) && SendersOk(m) && NotSending(m, pid) && pid !in m.results
    ensures BoxesOk(m') && SendersOk(m')
  {
    EnqueuedBoxes(m, m', pid, sub);
    assert QueueInv(Box(m, sub).queue);
  }

  lemma EnqueuedList(m: MState, m': MState, pid: Pid, sub: SubId)
    requires Enqueued(m, m', pid, sub) && ListOk(m)
    ensures ListOk(m')
  {
    EnqueuedBoxes(m, m', pid, sub);
    forall t | t in m'.list.targets && !t.reliable ensures HasBox(m', t.id) && Box(m', t.id).pipe.NoPipe? {
      assert HasBox(m, t.id) && Box(m, t.id).pipe.NoPipe?;
    }
  }

  lemma EnqueuedMailStep(m: MState, m': MState, pid: Pid, sub: SubId)
    requires Enqueued(m, m', pid, sub) && EventsOk(m) && SendersOk(m)
    ensures MailStep(m, m', OptionSet(Box(m, sub).queue.event), pid)
  {
    EnqueuedBoxes(m, m', pid, sub);
    var events := OptionSet(Box(m, sub).queue.event);
    assert forall e :: e in events ==> ArmedWith(m, sub, e);
    forall a | a in m.pending ensures Followed(m, m', events, a) {}
  }

  lemma EnqueuedKeeps(m: MState, m': MState, pid: Pid, sub: SubId)
    requires MInv(m) && Enqueued(m, m', pid, sub) && NotSending(m, pid) && pid !in m.results
    ensures MInv(m') && MailStep(m, m', OptionSet(Box(m, sub).queue.event), pid)
  {
    hide ListOk, OwnersOk, BoxesOk, EventsOk, SendersOk, AcksOk, PipesOk, MailStep;
    EnqueuedBoxes(m, m', pid, sub);
    EnqueuedAcks(m, m', pid, sub);
    EnqueuedEvents(m, m', pid, sub);
    EnqueuedPipes(m, m', pid, sub);
    EnqueuedRest(m, m', pid, sub);
    EnqueuedList(m, m', pid, sub);
    EnqueuedMailStep(m, m', pid, sub);
    SameOwners(m, m');
  }

  lemma DeliverToEnqueues(m: MState, pid: Pid, sub: SubId, topic: Topic, data: Data)
    requires HasBox(m, sub) && DeliverTo(m, pid, sub, topic, data).1.Ok?
    ensures var (m', r, events) := DeliverTo(m, pid, sub, topic, data);
      Enqueued(m, m', pid, sub) && events == OptionSet(Box(m, sub).queue.event) && r.value == ToProcess(m.nextEvent)
  {
  }

  /** A refused delivery only spends an acknowledgement id. */
  lemma DeliverRefused(m: MState, pid: Pid, sub: SubId, topic: Topic, data: Data)
    requires HasBox(m, sub) && PipeOk(m, sub) && Box(m, sub).queue.limit > 0
    requires DeliverTo(m, pid, sub, topic, data).1.Err?
    ensures DeliverTo(m, pid, sub, topic, data).0 == m.(nextAck := m.nextAck + 1)
    ensures DeliverTo(m, pid, sub, topic, data).2 == {}
  {
    assert m.mailboxes[sub := Some(Box(m, sub))] == m.mailboxes;
  }

  lemma DeliverToKeeps(m: MState, pid: Pid, sub: SubId, topic: Topic, data: Data)
    requires MInv(m) && HasBox(m, sub) && NotSending(m, pid) && pid !in m.results
    ensures var (m', r, events) := DeliverTo(m, pid, sub, topic, data);
      && MInv(m') && MailStep(m, m', events, pid) && m'.results == m.results
      && m'.pending == if r.Ok? then m.pending[m.nextAck := Pending(r.value.event, pid)] else m.pending
  {
    if DeliverTo(m, pid, sub, topic, data).1.Ok? {
      DeliverToEnqueues(m, pid, sub, topic, data);
      EnqueuedKeeps(m, DeliverTo(m, pid, sub, topic, data).0, pid, sub);
    } else {
      assert PipeOk(m, sub);
      DeliverRefused(m, pid, sub, topic, data);
      CounterKeeps(m, pid);
    }
  }

  lemma KernelReplyIsPush(m: MState, topic: Topic, data: Data)
    requires KernelReplySafe(m, topic) && FindAll(m.list, topic, true) != {}
    ensures var sub, message := Only(FindAll(m.list, topic, true)), Message(topic, data, None);
      && KernelReply(m, topic, data).0 == SetBox(m.(nextAck := m.nextAck + 1), sub, Pushing(Box(m, sub), message))
      && PushEvent(Box(m, sub), message).None?
  {
    var m1, sub := m.(nextAck := m.nextAck + 1), Only(FindAll(m.list, topic, true));
    assert m1.mailboxes[sub := Some(Box(m, sub))] == m1.mailboxes;
  }

  lemma KernelReplyKeeps(m: MState, topic: Topic, data: Data, x: Pid)
    requires MInv(m) && KernelReplySafe(m, topic) && NotSending(m, x)
    ensures var m' := KernelReply(m, topic, data).0;
      MInv(m') && MailStep(m, m', {}, x) && m'.pending == m.pending && m'.results == m.results
  {
    hide ListOk, OwnersOk, BoxesOk, EventsOk, SendersOk, AcksOk, PipesOk, MailStep;
    var all := FindAll(m.list, topic, true);
    if all != {} {
      var sub, m1 := Only(all), m.(nextAck := m.nextAck + 1);
      CounterKeeps(m, x);
      PlainPushKeeps(m1, sub, Message(topic, data, None), x);
      KernelReplyIsPush(m, topic, data);
      MailStepCompose(m, {}, m1, {}, KernelReply(m, topic, data).0, x);
      var none: set<EventId> := {};
      assert none + none == none;
    } else {
      NothingKeeps(m, x);
    }
  }

  lemma DeliverKeeps(m: MState, pid: Pid, topic: Topic, data: Data, service: ServiceReply)
    requires MInv(m) && DeliverSafe(m, topic, service) && NotSending(m, pid) && pid !in m.results
    ensures var (m', r, events) := Deliver(m, pid, topic, data, service);
      && MInv(m') && MailStep(m, m', events, pid) && m'.results == m.results
      && m'.pending ==
           if r.Ok? && r.value.ToProcess? then m.pending[m.nextAck := Pending(r.value.event, pid)] else m.pending
  {
    hide ListOk, OwnersOk, BoxesOk, EventsOk, SendersOk, AcksOk, PipesOk, MailStep;
    var all := FindAll(m.list, topic, true);
    if all == {} {
      NothingKeeps(m, pid);
    } else if HasBox(m, Only(all)) {
      DeliverToKeeps(m, pid, Only(all), topic, data);
      if DeliverTo(m, pid, Only(all), topic, data).1.Ok? { DeliverToEnqueues(m, pid, Only(all), topic, data); }
    } else {
      var m1 := m.(nextAck := m.nextAck + 1);
      CounterKeeps(m, pid);
      if service.Reply? {
        KernelReplyKeeps(m1, service.topic, service.data, pid);
        MailStepCompose(m, {}, m1, {}, KernelReply(m1, service.topic, service.data).0, pid);
        var none: set<EventId> := {};
        assert none + none == none;
      }
    }
  }

  lemma DeliverReplyIsPush(m: MState, topic: Topic, data: Data)
    requires DeliverReplySafe(m, topic) && FindAll(m.list, topic, true) != {}
    ensures var sub, message := Only(FindAll(m.list, topic, true)), Message(topic, data, None);
      && DeliverReply(m, topic, data).0 == SetBox(m, sub, Pushing(Box(m, sub), message))
      && DeliverReply(m, topic, data).2 == OptionSet(PushEvent(Box(m, sub), message))
  {
    var sub := Only(FindAll(m.list, topic, true));
    assert m.mailboxes[sub := Some(Box(m, sub))] == m.mailboxes;
  }

  lemma DeliverReplyKeeps(m: MState, topic: Topic, data: Data, x: Pid)
    requires MInv(m) && DeliverReplySafe(m, topic)
    ensures var (m', r, events) := DeliverReply(m, topic, data);
      MInv(m') && MailStep(m, m', events, x) && m'.pending == m.pending && m'.results == m.results
  {
    hide ListOk, OwnersOk, BoxesOk, EventsOk, SendersOk, AcksOk, PipesOk, MailStep;
    var all := FindAll(m.list, topic, true);
    if all != {} {
      PlainPushKeeps(m, Only(all), Message(topic, data, None), x);
      DeliverReplyIsPush(m, topic, data);
    } else {
      NothingKeeps(m, x);
    }
  }
}
