/** The IPC manager as the kernel keeps it: tables updated in place, one operation at a time. */
module LiveMail {
  import opened Common
  import opened Topics
  import opened Queues
  import opened Subscriptions
  import opened EventQueues
  import opened Mail
  import opened MailEnds
  import opened LiveQueues

  // ----- The loops, one round at a time -----

  lemma AcksNext(items: seq<Message>, i: nat)
    requires i < |items|
    ensures Acks(items[..i + 1]) == Acks(items[..i]) + OptionSet(items[i].ack)
  {
    var now, was := items[..i + 1], items[..i];
    forall a | a in Acks(now) ensures a in Acks(was) + OptionSet(items[i].ack) {
      var j :| 0 <= j < |now| && now[j].ack.Some? && now[j].ack.value == a;
      if j < i { assert was[j] == now[j]; }
    }
    forall a | a in Acks(was) ensures a in Acks(now) {
      var j :| 0 <= j < |was| && was[j].ack.Some? && was[j].ack.value == a;
      assert now[j] == was[j];
    }
    assert now[i] == items[i];
  }

  lemma AckIsNew(m: MState, items: seq<Message>, i: nat)
    requires ReleaseSafe(m, items) && i < |items| && items[i].ack.Some?
    ensures items[i].ack.value in m.pending && items[i].ack.value !in Acks(items[..i])
  {
  }

  /** Releasing in two rounds is releasing at once. */
  lemma SendersTwice(m: MState, a: set<AckId>, b: set<AckId>)
    requires a !! b
    ensures Senders(m, a + b) == Senders(m, a) + Senders(Release(m, a), b)
  {
    var m1 := Release(m, a);
    forall x | x in a + b && x in m.pending ensures m.pending[x].sender in Senders(m, a) + Senders(m1, b) {
      if x in b { assert x in m1.pending && m1.pending[x] == m.pending[x]; }
    }
    forall x | x in b && x in m1.pending ensures m1.pending[x].sender in Senders(m, a + b) {
      assert x in a + b && x in m.pending;
    }
    forall x | x in a && x in m.pending ensures m.pending[x].sender in Senders(m, a + b) { assert x in a + b; }
  }

  lemma WakeupsTwice(m: MState, a: set<AckId>, b: set<AckId>)
    requires a !! b
    ensures Wakeups(m, a + b) == Wakeups(m, a) + Wakeups(Release(m, a), b)
  {
    var m1 := Release(m, a);
    forall x | x in a + b && x in m.pending ensures m.pending[x].event in Wakeups(m, a) + Wakeups(m1, b) {
      if x in b { assert x in m1.pending && m1.pending[x] == m.pending[x]; }
    }
    forall x | x in b && x in m1.pending ensures m1.pending[x].event in Wakeups(m, a + b) {
      assert x in a + b && x in m.pending;
    }
    forall x | x in a && x in m.pending ensures m.pending[x].event in Wakeups(m, a + b) { assert x in a + b; }
  }

  lemma SameVerdict(r: map<Pid, Verdict>, a: set<Pid>, b: set<Pid>, v: Verdict)
    ensures r + (map p | p in a :: v) + (map p | p in b :: v) == r + (map p | p in a + b :: v)
  {
  }

  lemma ReleaseTwice(m: MState, a: set<AckId>, b: set<AckId>)
    requires a !! b
    ensures var m1 := Release(m, a);
      && Release(m1, b) == Release(m, a + b)
      && Wakeups(m, a + b) == Wakeups(m, a) + Wakeups(m1, b)
  {
    SendersTwice(m, a, b);
    WakeupsTwice(m, a, b);
    var m1 := Release(m, a);
    hide Senders, Wakeups;
    assert Release(m1, b).pending == Release(m, a + b).pending;
    SameVerdict(m.results, Senders(m, a), Senders(m1, b), Failed(NoSubscriber));
  }

  lemma ReleaseOne(m: MState, a: AckId)
    requires a in m.pending
    ensures Release(m, {a}) ==
      m.(pending := m.pending - {a}, results := m.results[m.pending[a].sender := Failed(NoSubscriber)])
    ensures Wakeups(m, {a}) == {m.pending[a].event}
  {
    assert Senders(m, {a}) == {m.pending[a].sender};
  }

  lemma PublishNext(m: MState, done: set<SubId>, s: SubId, message: Message)
    requires (forall x :: x in done ==> HasBox(m, x)) && HasBox(m, s) && s !in done
    ensures var (m1, events) := PublishTo(m, done, message);
      && HasBox(m1, s) && Box(m1, s) == Box(m, s)
      && PublishTo(m, done + {s}, message) ==
           (SetBox(m1, s, Pushing(Box(m, s), message)), events + OptionSet(PushEvent(Box(m, s), message)))
  {
    var (m1, events) := PublishTo(m, done, message);
    var (m2, more) := PublishTo(m, done + {s}, message);
    assert m2.mailboxes == SetBox(m1, s, Pushing(Box(m, s), message)).mailboxes;
    assert more == events + OptionSet(PushEvent(Box(m, s), message));
  }

  lemma {:induction false} WithoutAllThenOne(t: seq<Target>, ids: set<SubId>, id: SubId)
    ensures Without(WithoutAll(t, ids), id) == WithoutAll(t, ids + {id})
  {
    if t != [] { WithoutAllThenOne(t[1..], ids, id); }
  }

  /** Dropping one more mailbox after others is dropping them all at once. */
  lemma DropNext(m: MState, done: set<SubId>, s: SubId, all: set<SubId>)
    requires done + {s} <= all && s !in done
    requires forall x :: x in all ==> ForceUnsubscribeSafe(m, x)
    requires forall x, i: nat, y, j: nat, a ::
      x in all && y in all && Queued(m, x, i, a) && Queued(m, y, j, a) ==> x == y
    ensures var (m1, events) := DropAll(m, done);
      && ForceUnsubscribeSafe(m1, s)
      && var (m2, more) := Mail.ForceUnsubscribe(m1, s);
        DropAll(m, done + {s}) == (m2, events + more)
  {
    var (m1, events) := DropAll(m, done);
    var items := Box(m, s).queue.items;
    var acks := Acks(items);
    assert HasBox(m1, s) && Box(m1, s) == Box(m, s);
    forall a | a in acks ensures a !in AcksIn(m, done) {
      AcksInAre(m, done, a);
      var i :| 0 <= i < |items| && items[i].ack.Some? && items[i].ack.value == a;
      assert Queued(m, s, i, a);
    }
    forall a ensures a in AcksIn(m, done + {s}) <==> a in AcksIn(m, done) || a in acks {
      AcksInAre(m, done, a);
      AcksInAre(m, done + {s}, a);
      if a in acks {
        var i :| 0 <= i < |items| && items[i].ack.Some? && items[i].ack.value == a;
        assert Queued(m, s, i, a);
      }
    }
    WithoutAllThenOne(m.list.targets, done, s);
    ReleaseTwice(m, AcksIn(m, done), acks);
    assert AcksIn(m, done + {s}) == AcksIn(m, done) + acks;
    assert m.mailboxes - (done + {s}) == m.mailboxes - done - {s};
  }

  /** Hanging up the pipes among some mailboxes. */
  function HangUpIn(m: MState, pid: Pid, subs: set<SubId>): (MState, set<EventId>) {
    (m.(mailboxes := map s | s in m.mailboxes ::
          if s in subs && HasBox(m, s) then Some(HangUp(Box(m, s), pid)) else m.mailboxes[s]),
     set s | s in subs && HasBox(m, s) && Box(m, s).pipe == ConnectedTo(pid) && Box(m, s).queue.event.Some?
       :: Box(m, s).queue.event.value)
  }

  lemma HangUpNone(m: MState, pid: Pid)
    ensures HangUpIn(m, pid, {}) == (m, {}) && HangUpIn(m, pid, m.mailboxes.Keys) == HangUpAll(m, pid)
  {
    var everything := m.mailboxes.Keys;
    assert HangUpIn(m, pid, {}).0.mailboxes == m.mailboxes && HangUpIn(m, pid, {}).1 == {};
    assert HangUpIn(m, pid, everything).0.mailboxes == HangUpAll(m, pid).0.mailboxes by {
      forall s | s in m.mailboxes
        ensures HangUpIn(m, pid, everything).0.mailboxes[s] == HangUpAll(m, pid).0.mailboxes[s] {}
    }
    assert HangUpIn(m, pid, everything).1 == HangUpAll(m, pid).1;
  }

  function HungUp(b: Mailbox, pid: Pid): set<EventId> {
    if b.pipe == ConnectedTo(pid) then OptionSet(b.queue.event) else {}
  }

  lemma HangUpNext(m: MState, pid: Pid, done: set<SubId>, s: SubId)
    requires s in m.mailboxes && s !in done
    ensures var (m1, events) := HangUpIn(m, pid, done);
      && m1.mailboxes[s] == m.mailboxes[s]
      && HangUpIn(m, pid, done + {s}) ==
           if m.mailboxes[s].None? then (m1, events)
           else (SetBox(m1, s, HangUp(Box(m, s), pid)), events + HungUp(Box(m, s), pid))
  {
    var (m1, events) := HangUpIn(m, pid, done);
    var (m2, more) := HangUpIn(m, pid, done + {s});
    if m.mailboxes[s].Some? {
      assert m2.mailboxes == SetBox(m1, s, HangUp(Box(m, s), pid)).mailboxes;
      assert more == events + HungUp(Box(m, s), pid);
    } else {
      assert m2.mailboxes == m1.mailboxes;
      assert more == events;
    }
  }

  // ----- The manager -----

  lemma SameRelease(m: MState, m1: MState, s: SubId)
    requires ForceUnsubscribeSafe(m, s) && m1.mailboxes == m.mailboxes && m1.pending == m.pending
    ensures ForceUnsubscribeSafe(m1, s)
  {
  }

  class Manager {
    const subscriptions: SubscriptionList
    var mailboxes: map<SubId, Option<Mailbox>>
    var pending: map<AckId, Pending>
    var results: map<Pid, Verdict>
    var nextAck: AckId
    var owned: map<Pid, set<SubId>>
    var nextEvent: EventId

    constructor ()
      ensures View() == MState(ListState([], 0), map[], map[], map[], 0, map[], 0)
      ensures fresh(subscriptions)
    {
      subscriptions := new SubscriptionList();
      mailboxes, pending, results, nextAck, owned, nextEvent := map[], map[], map[], 0, map[], 0;
    }

    ghost function View(): MState
      reads this, subscriptions
    {
      MState(subscriptions.View(), mailboxes, pending, results, nextAck, owned, nextEvent)
    }

    method Subscribe(pid: Pid, filter: TopicFilter, reliable: bool, pipe: bool) returns (r: Result<SubId>)
      requires ListInv(subscriptions.View())
      modifies this, subscriptions
      ensures (View(), r) == Mail.Subscribe(old(View()), pid, filter, reliable, pipe)
    {
      var id := subscriptions.Add(filter, reliable);
      if id.None? { return Err(Exclusion); }
      var mode := if pipe then NotConnected else NoPipe;
      mailboxes := mailboxes[id.value := Some(Mailbox(Empty(MAILBOX_BUFFER_LIMIT), mode))];
      owned := owned[pid := (if pid in owned then owned[pid] else {}) + {id.value}];
      r := Ok(id.value);
    }

    method KernelSubscribe(filter: TopicFilter) returns (r: Result<SubId>)
      requires ListInv(subscriptions.View())
      modifies this, subscriptions
      ensures (View(), r) == Mail.KernelSubscribe(old(View()), filter)
    {
      var id := subscriptions.Add(filter, true);
      if id.None? { return Err(Exclusion); }
      mailboxes := mailboxes[id.value := None];
      r := Ok(id.value);
    }

    /** Drops a mailbox and frees the senders whose deliveries still lie in it. */
    method ForceUnsubscribe(sub: SubId) returns (events: set<EventId>)
      requires ForceUnsubscribeSafe(View(), sub)
      modifies this, subscriptions
      ensures (View(), events) == Mail.ForceUnsubscribe(old(View()), sub)
    {
      ghost var m := View();
      subscriptions.Remove(sub);
      var items := mailboxes[sub].value.queue.items;
      mailboxes := mailboxes - {sub};
      ghost var dropped := View();
      events := {};
      ReleaseNothing(m);
      assert Acks(items[..0]) == {};
      for i := 0 to |items|
        invariant View() ==
          dropped.(pending := Release(m, Acks(items[..i])).pending, results := Release(m, Acks(items[..i])).results)
        invariant events == Wakeups(m, Acks(items[..i]))
      {
        AcksNext(items, i);
        if items[i].ack.Some? {
          var a := items[i].ack.value;
          AckIsNew(m, items, i);
          ReleaseTwice(m, Acks(items[..i]), {a});
          ReleaseOne(Release(m, Acks(items[..i])), a);
          var sender := pending[a];
          pending := pending - {a};
          results := results[sender.sender := Failed(NoSubscriber)];
          events := events + {sender.event};
        } else {
          assert Acks(items[..i + 1]) == Acks(items[..i]);
        }
      }
      assert items[..|items|] == items;
    }

    method Unsubscribe(pid: Pid, sub: SubId) returns (r: Result<()>, events: set<EventId>)
      requires UnsubscribeSafe(View(), pid, sub)
      modifies this, subscriptions
      ensures (View(), r, events) == Mail.Unsubscribe(old(View()), pid, sub)
    {
      if pid !in owned || sub !in owned[pid] { return Err(NotOwner), {}; }
      owned := owned[pid := owned[pid] - {sub}];
      events := ForceUnsubscribe(sub);
      r := Ok(());
    }

    /** Puts the message into every matching mailbox that has room, in any order. */
    method Publish(topic: Topic, data: Data) returns (events: set<EventId>)
      requires PublishSafe(View(), topic)
      modifies this
      ensures (View(), events) == Mail.Publish(old(View()), topic, data)
    {
      ghost var m := View();
      var message := Message(topic, data, None);
      var all := subscriptions.Find(topic, false);
      var rest := all;
      events := {};
      assert all - rest == {};
      assert PublishTo(m, {}, message).0.mailboxes == m.mailboxes && PublishTo(m, {}, message).1 == {};
      while rest != {}
        invariant rest <= all && all - rest !! rest
        invariant (View(), events) == PublishTo(m, all - rest, message)
      {
        var s :| s in rest;
        PublishNext(m, all - rest, s, message);
        assert all - (rest - {s}) == (all - rest) + {s};
        var box := mailboxes[s].value;
        var (queue, pushed) := Push(box.queue, message);
        mailboxes := mailboxes[s := Some(box.(queue := queue))];
        assert Pushing(box, message) == box.(queue := queue);
        if pushed.Pushed? && pushed.trigger.Some? { events := events + {pushed.trigger.value}; }
        else { assert events + OptionSet(PushEvent(box, message)) == events; }
        rest := rest - {s};
      }
      assert all - {} == all;
    }

    method KernelReply(topic: Topic, data: Data) returns (r: Result<()>)
      requires KernelReplySafe(View(), topic)
      modifies this
      ensures (View(), r) == Mail.KernelReply(old(View()), topic, data)
    {
      var all := subscriptions.Find(topic, true);
      if all == {} { return Err(Delivery(NoSubscriber)); }
      nextAck := nextAck + 1;
      var sub :| sub in all;
      assert sub in {Only(all)};
      var box := mailboxes[sub].value;
      var (queue, pushed) := Push(box.queue, Message(topic, data, None));
      if pushed.Full? { return Err(Delivery(QueueFull)); }
      mailboxes := mailboxes[sub := Some(box.(queue := queue))];
      r := Ok(());
    }

    /** The pipe answers for this sender; a pipe nobody uses yet becomes its own. */
    method Deliver(pid: Pid, topic: Topic, data: Data, service: ServiceReply)
        returns (r: Result<Delivered>, events: set<EventId>)
      requires DeliverSafe(View(), topic, service)
      modifies this
      ensures (View(), r, events) == Mail.Deliver(old(View()), pid, topic, data, service)
    {
      events := {};
      var all := subscriptions.Find(topic, true);
      if all == {} { return Err(Delivery(NoSubscriber)), {}; }
      var ack := nextAck;
      nextAck := nextAck + 1;
      var sub :| sub in all;
      assert sub in {Only(all)};
      if mailboxes[sub].Some? {
        var box := mailboxes[sub].value;
        match box.pipe {
          case NoPipe =>
          case NotConnected => box := box.(pipe := ConnectedTo(pid));
          case ConnectedTo(c) => if c != pid { return Err(PipeReserved), {}; }
          case Disconnected => return Err(PipeReserved), {};
        }
        var (queue, pushed) := Push(box.queue, Message(topic, data, Some(ack)));
        mailboxes := mailboxes[sub := Some(box.(queue := queue))];
        if pushed.Full? { return Err(Delivery(QueueFull)), {}; }
        var wakeup := nextEvent;
        nextEvent := nextEvent + 1;
        pending := pending[ack := Pending(wakeup, pid)];
        r := Ok(ToProcess(wakeup));
        if pushed.trigger.Some? { events := {pushed.trigger.value}; }
      } else if service.Nack? {
        r := Err(Delivery(NegativeAcknowledgement));
      } else {
        var reply := KernelReply(service.topic, service.data);
        r := if reply.Ok? then Ok(ToKernel) else Err(reply.error);
      }
    }

    method DeliverReply(topic: Topic, data: Data) returns (r: Result<()>, events: set<EventId>)
      requires DeliverReplySafe(View(), topic)
      modifies this
      ensures (View(), r, events) == Mail.DeliverReply(old(View()), topic, data)
    {
      events := {};
      var all := subscriptions.Find(topic, true);
      if all == {} { return Err(Delivery(NoSubscriber)), {}; }
      var sub :| sub in all;
      assert sub in {Only(all)};
      var box := mailboxes[sub].value;
      var (queue, pushed) := Push(box.queue, Message(topic, data, None));
      if pushed.Full? { return Err(Delivery(QueueFull)), {}; }
      mailboxes := mailboxes[sub := Some(box.(queue := queue))];
      r := Ok(());
      if pushed.trigger.Some? { events := {pushed.trigger.value}; }
    }

    method AfterDelivery(pid: Pid) returns (r: Result<()>)
      requires pid in results
      modifies this
      ensures (View(), r) == Mail.AfterDelivery(old(View()), pid)
    {
      var verdict := results[pid];
      results := results - {pid};
      match verdict
      case Accepted => r := Ok(());
      case Failed(e) => r := Err(Delivery(e));
    }

    /** The event an empty mailbox is armed with, made up when there is none yet. */
    method GetEvent(sub: SubId) returns (e: EventId)
      requires HasBox(View(), sub)
      modifies this
      ensures (View(), e) == ArmBox(old(View()), sub)
    {
      var box := mailboxes[sub].value;
      if box.queue.event.None? {
        e := nextEvent;
        nextEvent := nextEvent + 1;
      } else {
        e := box.queue.event.value;
      }
      mailboxes := mailboxes[sub := Some(box.(queue := box.queue.(event := Some(e))))];
    }

    method WaitingFor(sub: SubId) returns (e: Option<EventId>)
      requires HasBox(View(), sub)
      modifies this
      ensures (View(), e) == Mail.WaitingFor(old(View()), sub)
    {
      if mailboxes[sub].value.queue.items != [] { return None; }
      var event := GetEvent(sub);
      e := Some(event);
    }

    method Receive(pid: Pid, sub: SubId) returns (r: Result<Polled>)
      requires ReceiveSafe(View(), pid, sub)
      modifies this
      ensures (View(), r) == Mail.Receive(old(View()), pid, sub)
    {
      if pid !in owned || sub !in owned[pid] { return Err(NotOwner); }
      if sub !in mailboxes { return Err(Unsubscribed); }
      var box := mailboxes[sub].value;
      if box.queue.items != [] {
        mailboxes := mailboxes[sub := Some(box.(queue := box.queue.(items := box.queue.items[1..])))];
        r := Ok(Popped(box.queue.items[0]));
      } else {
        var e := GetEvent(sub);
        r := Ok(WaitOn(e));
      }
    }

    method Acknowledge(ack: AckId, positive: bool) returns (events: set<EventId>)
      requires ack in pending
      modifies this
      ensures (View(), events) == Mail.Acknowledge(old(View()), ack, positive)
    {
      var sender := pending[ack];
      pending := pending - {ack};
      results := results[sender.sender := if positive then Accepted else Failed(NegativeAcknowledgement)];
      events := {sender.event};
    }

    /** Drops the process's mailboxes one by one, waking those it frees as it goes. */
    method DropOwned(sched: SchedulerQueues, subs: set<SubId>)
      requires forall s :: s in subs ==> ForceUnsubscribeSafe(View(), s)
      requires forall x, i: nat, y, j: nat, a ::
        x in subs && y in subs && Queued(View(), x, i, a) && Queued(View(), y, j, a) ==> x == y
      modifies this, subscriptions, sched
      ensures View() == DropAll(old(View()), subs).0
      ensures EventsFired(old(sched.View()), DropAll(old(View()), subs).1, sched.View())
    {
      ghost var m := View();
      var rest := subs;
      assert subs - rest == {};
      DropNothing(m);
      FiredNone(sched.View());
      while rest != {}
        invariant rest <= subs
        invariant View() == DropAll(m, subs - rest).0
        invariant EventsFired(old(sched.View()), DropAll(m, subs - rest).1, sched.View())
      {
        var s :| s in rest;
        DropNext(m, subs - rest, s, subs);
        assert subs - (rest - {s}) == (subs - rest) + {s};
        ghost var q := sched.View();
        var events := ForceUnsubscribe(s);
        sched.ConsumeEvents(events);
        FiredCompose(old(sched.View()), DropAll(m, subs - rest).1, q, events, sched.View());
        rest := rest - {s};
      }
      assert subs - {} == subs;
    }

    method HangUpPipe(sched: SchedulerQueues, pid: Pid, s: SubId)
      requires s in mailboxes
      modifies this, sched
      ensures mailboxes.Keys == old(mailboxes.Keys)
      ensures mailboxes[s].None? ==> View() == old(View()) && sched.View() == old(sched.View())
      ensures mailboxes[s].Some? ==>
        && HasBox(old(View()), s)
        && View() == SetBox(old(View()), s, HangUp(Box(old(View()), s), pid))
        && EventsFired(old(sched.View()), HungUp(Box(old(View()), s), pid), sched.View())
    {
      FiredNone(sched.View());
      if mailboxes[s].Some? && mailboxes[s].value.pipe == ConnectedTo(pid) {
        var box := mailboxes[s].value;
        mailboxes := mailboxes[s := Some(box.(pipe := Disconnected, queue := box.queue.(event := None)))];
        if box.queue.event.Some? { sched.OnExplicitEvent(box.queue.event.value); }
      }
    }

    method HangUpPipes(sched: SchedulerQueues, pid: Pid)
      modifies this, sched
      ensures View() == HangUpAll(old(View()), pid).0
      ensures EventsFired(old(sched.View()), HangUpAll(old(View()), pid).1, sched.View())
    {
      ghost var m, q0 := View(), sched.View();
      var all := mailboxes.Keys;
      var rest := all;
      HangUpNone(m, pid);
      FiredNone(q0);
      assert all - rest == {};
      while rest != {}
        invariant rest <= all == mailboxes.Keys
        invariant View() == HangUpIn(m, pid, all - rest).0
        invariant EventsFired(q0, HangUpIn(m, pid, all - rest).1, sched.View())
      {
        var s :| s in rest;
        HangUpNext(m, pid, all - rest, s);
        assert all - (rest - {s}) == (all - rest) + {s};
        ghost var q, events := sched.View(), HangUpIn(m, pid, all - rest).1;
        hide EventsFired, HangUpIn, HungUp;
        HangUpPipe(sched, pid, s);
        if mailboxes[s].Some? { FiredCompose(q0, events, q, HungUp(Box(m, s), pid), sched.View()); }
        rest := rest - {s};
      }
      assert all - {} == all;
    }

    method OnProcessOver(sched: SchedulerQueues, pid: Pid)
      requires EndProcessSafe(View(), pid)
      modifies this, subscriptions, sched
      ensures View() == EndProcess(old(View()), pid).0
      ensures EventsFired(old(sched.View()), EndProcess(old(View()), pid).1, sched.View())
    {
      ghost var m, q := View(), sched.View();
      if pid in owned {
        var subs := owned[pid];
        owned := owned - {pid};
        assert forall x, i: nat, a :: Queued(View(), x, i, a) <==> Queued(m, x, i, a);
        forall s | s in subs ensures ForceUnsubscribeSafe(View(), s) { SameRelease(m, View(), s); }
        DropOwned(sched, subs);
      } else {
        assert m.owned - {pid} == m.owned;
        DropNothing(m);
        FiredNone(q);
      }
      ghost var q1 := sched.View();
      ghost var (m1, released) := DropAll(m.(owned := m.owned - {pid}), OwnedBy(m, pid));
      assert View() == m1 && EventsFired(q, released, q1);
      HangUpPipes(sched, pid);
      FiredCompose(q, released, q1, HangUpAll(m1, pid).1, sched.View());
    }
  }
}
