/** Mailboxes are queues: messages leave in the order they came, and only where they were sent. */
module MailOrder {
  import opened Common
  import opened Topics
  import opened Subscriptions
  import opened Mail
  import opened MailEnds
  import opened Kernel

  /** The message this call sends to this subscription. */
  ghost predicate Sends(m: MState, call: Call, s: SubId, message: Message) {
    match call
    case Publish(topic, data) => ValidTopic(topic) && message == Message(topic, data, None)
      && s in FindAll(m.list, topic, false)
    case DeliverReply(topic, data) => ValidTopic(topic) && message == Message(topic, data, None)
      && s in FindAll(m.list, topic, true)
    case Deliver(topic, data, service) =>
      || (ValidTopic(topic) && message == Message(topic, data, Some(m.nextAck)) && s in FindAll(m.list, topic, true))
      || (ValidTopic(topic) && KernelServed(m, topic) && service.Reply?
          && message == Message(service.topic, service.data, None) && s in FindAll(m.list, service.topic, true))
    case _ => false
  }

  /** What may happen to a mailbox: nothing, a sent message at its end, or its first message taken by a receive. */
  ghost predicate InOrder(m: MState, m': MState, call: Call, r: SyscallResult, s: SubId)
    requires HasBox(m, s) && HasBox(m', s)
  {
    var was, now := Box(m, s).queue.items, Box(m', s).queue.items;
    || now == was
    || (|now| == |was| + 1 && now[..|was|] == was && |was| < Box(m, s).queue.limit && Sends(m, call, s, now[|was|]))
    || (call.Receive? && call.sub == s && was != [] && r == Continue(Received(was[0])) && now == was[1..])
  }

  lemma {:induction false} SelectOrder(m: MState, subs: seq<SubId>, s: SubId)
    requires SelectSafe(m, subs) && HasBox(m, s)
    ensures HasBox(SelectFrom(m, subs).0, s) && Box(SelectFrom(m, subs).0, s).queue.items == Box(m, s).queue.items
    decreases |subs|
  {
    if subs != [] && Box(m, subs[0]).queue.items == [] { SelectOrder(ArmBox(m, subs[0]).0, subs[1..], s); }
  }

  lemma PublishOrder(m: MState, subs: set<SubId>, message: Message, s: SubId)
    requires (forall x :: x in subs ==> HasBox(m, x)) && HasBox(m, s)
    ensures var m' := PublishTo(m, subs, message).0;
      && HasBox(m', s)
      && Box(m', s).queue.items == Box(m, s).queue.items
           + (if s in subs && |Box(m, s).queue.items| < Box(m, s).queue.limit then [message] else [])
  {
  }

  /** The mailbox is untouched, or it is the target and the message is new at its end. */
  ghost predicate AtEnd(m: MState, m': MState, sub: SubId, message: Message, s: SubId)
    requires HasBox(m, s)
  {
    && HasBox(m', s)
    && (Box(m', s).queue.items == Box(m, s).queue.items
        || (s == sub && |Box(m, s).queue.items| < Box(m, s).queue.limit
             && Box(m', s).queue.items == Box(m, s).queue.items + [message]))
  }

  lemma DeliverToOrder(m: MState, x: Pid, sub: SubId, topic: Topic, data: Data, s: SubId)
    requires HasBox(m, sub) && HasBox(m, s)
    ensures AtEnd(m, DeliverTo(m, x, sub, topic, data).0, sub, Message(topic, data, Some(m.nextAck)), s)
  {
  }

  lemma KernelReplyOrder(m: MState, topic: Topic, data: Data, s: SubId)
    requires KernelReplySafe(m, topic) && HasBox(m, s)
    ensures var all := FindAll(m.list, topic, true);
      if all == {} then KernelReply(m, topic, data).0 == m
      else AtEnd(m, KernelReply(m, topic, data).0, Only(all), Message(topic, data, None), s)
  {
    hide FindAll;
  }

  lemma DeliverOrder(m: MState, x: Pid, call: Call, s: SubId)
    requires call.Deliver? && CallSafe(m, x, call) && HasBox(m, s)
    ensures var (m', r, _) := CallEffect(m, x, call); HasBox(m', s) && InOrder(m, m', call, r, s)
  {
    hide FindAll, DeliverTo, KernelReply, KernelReplySafe;
    if x !in m.results && ValidTopic(call.topic) && FindAll(m.list, call.topic, true) != {} {
      var sub := Only(FindAll(m.list, call.topic, true));
      if m.mailboxes[sub].Some? { DeliverToOrder(m, x, sub, call.topic, call.data, s); }
      else if call.service.Reply? {
        KernelReplyOrder(m.(nextAck := m.nextAck + 1), call.service.topic, call.service.data, s);
      }
    }
  }

  lemma DeliverReplyOrder(m: MState, x: Pid, call: Call, s: SubId)
    requires call.DeliverReply? && CallSafe(m, x, call) && HasBox(m, s)
    ensures var (m', r, _) := CallEffect(m, x, call); HasBox(m', s) && InOrder(m, m', call, r, s)
  {
    hide FindAll;
  }

  lemma SubscribeOrder(m: MState, x: Pid, f: TopicFilter, reliable: bool, pipe: bool, s: SubId)
    requires m.list.next !in m.mailboxes && HasBox(m, s)
    ensures var m' := Mail.Subscribe(m, x, f, reliable, pipe).0; HasBox(m', s) && Box(m', s) == Box(m, s)
  {
  }

  /** Every call treats every mailbox that survives it as a queue. */
  lemma CallInOrder(m: MState, x: Pid, call: Call, s: SubId)
    requires CallSafe(m, x, call) && m.list.next !in m.mailboxes && HasBox(m, s) && HasBox(CallEffect(m, x, call).0, s)
    ensures InOrder(m, CallEffect(m, x, call).0, call, CallEffect(m, x, call).1, s)
  {
    hide FindAll, SelectFrom, SelectSafe, PublishTo, Mail.Deliver, DeliverSafe, Mail.DeliverReply, DeliverReplySafe,
      Mail.Subscribe;
    match call
    case Subscribe(filter, prefix, reliable, pipeBit) =>
      var f := NewFilter(filter, !prefix);
      if f.Some? { SubscribeOrder(m, x, f.value, reliable, pipeBit && prefix && reliable, s); }
    case Publish(topic, data) =>
      if ValidTopic(topic) { PublishOrder(m, FindAll(m.list, topic, false), Message(topic, data, None), s); }
    case Deliver(_, _, _) => DeliverOrder(m, x, call, s);
    case DeliverReply(_, _) => DeliverReplyOrder(m, x, call, s);
    case Select(subs, _) => SelectOrder(m, subs, s);
    case _ =>
  }

  /** A published message reaches every subscriber of its topic that has room, and nobody else. */
  lemma PublishReaches(m: MState, topic: Topic, data: Data, s: SubId)
    requires PublishSafe(m, topic) && HasBox(m, s)
    ensures var m' := Mail.Publish(m, topic, data).0; var was := Box(m, s).queue;
      && HasBox(m', s)
      && (Box(m', s).queue.items == was.items + [Message(topic, data, None)] <==>
            && |was.items| < was.limit
            && exists t :: t in m.list.targets && t.id == s && !t.reliable && Matches(t.filter, topic))
  {
    var subs := FindAll(m.list, topic, false);
    PublishOrder(m, subs, Message(topic, data, None), s);
    assert |Box(m, s).queue.items + [Message(topic, data, None)]| != |Box(m, s).queue.items|;
    if t :| t in m.list.targets && t.id == s && !t.reliable && Matches(t.filter, topic) {
      var i :| 0 <= i < |m.list.targets| && m.list.targets[i] == t;
      assert m.list.targets[i].id in subs;
    }
  }

  // ----- Pipes -----

  /** A pipe stays as it is, or a delivering process becomes its one sender. */
  ghost predicate PipeMoves(m: MState, m': MState, call: Call, x: Pid, s: SubId)
    requires HasBox(m, s) && HasBox(m', s)
  {
    || Box(m', s).pipe == Box(m, s).pipe
    || (Box(m, s).pipe.NotConnected? && call.Deliver? && Box(m', s).pipe == ConnectedTo(x))
  }

  lemma {:induction false} SelectPipes(m: MState, subs: seq<SubId>, s: SubId)
    requires SelectSafe(m, subs) && HasBox(m, s)
    ensures HasBox(SelectFrom(m, subs).0, s) && Box(SelectFrom(m, subs).0, s).pipe == Box(m, s).pipe
    decreases |subs|
  {
    if subs != [] && Box(m, subs[0]).queue.items == [] { SelectPipes(ArmBox(m, subs[0]).0, subs[1..], s); }
  }

  lemma DeliverToPipes(m: MState, x: Pid, sub: SubId, topic: Topic, data: Data, s: SubId)
    requires HasBox(m, sub) && HasBox(m, s)
    ensures var m' := DeliverTo(m, x, sub, topic, data).0;
      HasBox(m', s)
        && (Box(m', s).pipe == Box(m, s).pipe || (Box(m, s).pipe.NotConnected? && Box(m', s).pipe == ConnectedTo(x)))
  {
  }

  lemma KernelReplyPipes(m: MState, topic: Topic, data: Data, s: SubId)
    requires KernelReplySafe(m, topic) && HasBox(m, s)
    ensures HasBox(KernelReply(m, topic, data).0, s) && Box(KernelReply(m, topic, data).0, s).pipe == Box(m, s).pipe
  {
    hide FindAll;
  }

  lemma DeliverPipes(m: MState, x: Pid, call: Call, s: SubId)
    requires call.Deliver? && CallSafe(m, x, call) && HasBox(m, s)
    ensures HasBox(CallEffect(m, x, call).0, s) && PipeMoves(m, CallEffect(m, x, call).0, call, x, s)
  {
    hide FindAll, DeliverTo, KernelReply, KernelReplySafe;
    if x !in m.results && ValidTopic(call.topic) && FindAll(m.list, call.topic, true) != {} {
      var sub := Only(FindAll(m.list, call.topic, true));
      if m.mailboxes[sub].Some? { DeliverToPipes(m, x, sub, call.topic, call.data, s); }
      else if call.service.Reply? {
        KernelReplyPipes(m.(nextAck := m.nextAck + 1), call.service.topic, call.service.data, s);
      }
    }
  }

  lemma CallPipes(m: MState, x: Pid, call: Call, s: SubId)
    requires CallSafe(m, x, call) && m.list.next !in m.mailboxes && HasBox(m, s) && HasBox(CallEffect(m, x, call).0, s)
    ensures PipeMoves(m, CallEffect(m, x, call).0, call, x, s)
  {
    hide FindAll, SelectFrom, SelectSafe, Mail.Deliver, DeliverSafe, Mail.Subscribe;
    match call
    case Subscribe(filter, prefix, reliable, pipeBit) =>
      var f := NewFilter(filter, !prefix);
      if f.Some? { SubscribeOrder(m, x, f.value, reliable, pipeBit && prefix && reliable, s); }
    case Deliver(_, _, _) => DeliverPipes(m, x, call, s);
    case Select(subs, _) => SelectPipes(m, subs, s);
    case _ =>
  }
}
