/** What one call does to the deliveries on their way: which it decides, and how. */
module Delivery {
  import opened Common
  import opened Topics
  import opened Subscriptions
  import opened Mail
  import opened MailInvariant
  import opened MailOps
  import opened MailEnds
  import opened Kernel

  ghost predicate Lies(m: MState, s: SubId, message: Message) {
    HasBox(m, s) && message in Box(m, s).queue.items
  }

  /** The delivery is acknowledged by this call, or the mailbox it lies in disappears. */
  ghost predicate Decides(m: MState, call: Call, m': MState, a: AckId) {
    || (call.Acknowledge? && call.ack == a)
    || exists s, message :: Lies(m, s, message) && message.ack == Some(a) && !HasBox(m', s)
  }

  function VerdictBy(call: Call, a: AckId): Verdict {
    if !call.Acknowledge? || call.ack != a then Failed(NoSubscriber)
    else if call.positive then Accepted
    else Failed(NegativeAcknowledgement)
  }

  ghost predicate Ruled(m: MState, m': MState, call: Call, a: AckId)
    requires a in m.pending
  {
    if Decides(m, call, m', a) then
      var p := m.pending[a].sender;
      a !in m'.pending && p in m'.results && m'.results[p] == VerdictBy(call, a)
    else
      a in m'.pending && m'.pending[a] == m.pending[a]
  }

  /** A call by `x` rules on every delivery, and touches nothing else of other processes. */
  ghost predicate Judges(m: MState, m': MState, x: Pid, call: Call) {
    && m.nextAck <= m'.nextAck
    && (forall a :: a in m.pending ==> Ruled(m, m', call, a))
    && (forall a :: a in m'.pending && a !in m.pending ==> m.nextAck <= a && m'.pending[a].sender == x)
    && (forall p :: p in m.results && p != x ==> p in m'.results && m'.results[p] == m.results[p])
    && (forall p :: p != x ==> OwnedBy(m', p) == OwnedBy(m, p))
    && MessagesKept(m, m')
  }

  /** No delivery is put into a mailbox again. */
  ghost predicate MessagesKept(m: MState, m': MState) {
    forall s, message :: Lies(m', s, message) && message.ack.Some? ==>
      Lies(m, s, message) || m.nextAck <= message.ack.value
  }

  /** A step that decides nothing and leaves all mailboxes in place. */
  ghost predicate Undecided(m: MState, m': MState, x: Pid) {
    && m.nextAck <= m'.nextAck && m'.pending == m.pending && m'.owned == m.owned
    && (forall s :: HasBox(m, s) ==> HasBox(m', s))
    && (forall p :: p in m.results && p != x ==> p in m'.results && m'.results[p] == m.results[p])
    && (forall s, message :: Lies(m', s, message) && message.ack.Some? ==> Lies(m, s, message))
  }

  lemma NothingDecided(m: MState, call: Call, m': MState)
    requires !call.Acknowledge? && forall s :: HasBox(m, s) ==> HasBox(m', s)
    ensures forall a :: !Decides(m, call, m', a)
  {
    forall a ensures !Decides(m, call, m', a) {}
  }

  lemma UndecidedJudges(m: MState, m': MState, x: Pid, call: Call)
    requires Undecided(m, m', x) && !call.Acknowledge?
    ensures Judges(m, m', x, call)
  {
    hide Decides;
    NothingDecided(m, call, m');
  }

  lemma {:induction false} SelectUndecided(m: MState, subs: seq<SubId>, x: Pid)
    requires SelectSafe(m, subs)
    ensures Undecided(m, SelectFrom(m, subs).0, x)
    decreases |subs|
  {
    if subs != [] && Box(m, subs[0]).queue.items == [] {
      SelectUndecided(ArmBox(m, subs[0]).0, subs[1..], x);
    }
  }

  lemma PublishUndecided(m: MState, subs: set<SubId>, message: Message, x: Pid)
    requires message.ack.None? && forall s :: s in subs ==> HasBox(m, s)
    ensures Undecided(m, PublishTo(m, subs, message).0, x)
  {
  }

  lemma SubscribeBoxes(m: MState, x: Pid, filter: TopicFilter, reliable: bool, pipe: bool)
    requires ListOk(m)
    ensures var m' := Mail.Subscribe(m, x, filter, reliable, pipe).0;
      MessagesKept(m, m') && forall s :: HasBox(m, s) ==> HasBox(m', s)
  {
    NextIsNew(m);
    var m' := Mail.Subscribe(m, x, filter, reliable, pipe).0;
    forall s | HasBox(m, s) ensures HasBox(m', s) && Box(m', s) == Box(m, s) {}
  }

  lemma SubscribeJudges(m: MState, x: Pid, filter: TopicFilter, reliable: bool, pipe: bool, call: Call)
    requires ListOk(m) && !call.Acknowledge?
    ensures Judges(m, Mail.Subscribe(m, x, filter, reliable, pipe).0, x, call)
  {
    hide Decides, Insert, MessagesKept;
    var m' := Mail.Subscribe(m, x, filter, reliable, pipe).0;
    SubscribeBoxes(m, x, filter, reliable, pipe);
    NothingDecided(m, call, m');
  }

  /** Dropping mailboxes decides what lies in them. */
  lemma DropDecides(m: MState, m': MState, subs: set<SubId>, call: Call, a: AckId)
    requires Dropped(m, m', subs) && !call.Acknowledge? && forall s :: s in subs ==> HasBox(m, s)
    ensures Decides(m, call, m', a) <==> a in AcksIn(m, subs)
  {
    DroppedBoxes(m, m', subs);
    AcksInAre(m, subs, a);
    if s, i: nat :| s in subs && Queued(m, s, i, a) {
      assert Lies(m, s, Box(m, s).queue.items[i]);
    }
    if s, message :| Lies(m, s, message) && message.ack == Some(a) && !HasBox(m', s) {
      var i :| 0 <= i < |Box(m, s).queue.items| && Box(m, s).queue.items[i] == message;
      assert Queued(m, s, i, a);
    }
  }

  lemma DropKeepsMessages(m: MState, m': MState, subs: set<SubId>)
    requires Dropped(m, m', subs)
    ensures MessagesKept(m, m')
  {
    DroppedBoxes(m, m', subs);
  }

  lemma DropJudges(m: MState, m': MState, subs: set<SubId>, x: Pid, call: Call)
    requires SendersOk(m) && Dropped(m, m', subs) && !call.Acknowledge?
    requires forall p :: p != x ==> OwnedBy(m', p) == OwnedBy(m, p)
    requires forall s :: s in subs ==> HasBox(m, s)
    ensures Judges(m, m', x, call)
  {
    hide AcksIn, Decides, MessagesKept;
    assert MessagesKept(m, m') by { DropKeepsMessages(m, m', subs); }
    forall a | a in m.pending ensures Ruled(m, m', call, a) {
      DropDecides(m, m', subs, call, a);
      assert a in AcksIn(m, subs) ==> m.pending[a].sender in Senders(m, AcksIn(m, subs));
    }
  }

  lemma UnsubscribeJudges(m: MState, x: Pid, sub: SubId, call: Call)
    requires MInv(m) && UnsubscribeSafe(m, x, sub) && !call.Acknowledge?
    ensures Judges(m, Mail.Unsubscribe(m, x, sub).0, x, call)
  {
    hide ListOk, BoxesOk, EventsOk, AcksOk, PipesOk;
    if Owns(m, x, sub) {
      var m1 := m.(owned := m.owned[x := m.owned[x] - {sub}]);
      ForceUnsubscribeDrops(m1, sub);
      SameAcksIn(m, m1, {sub});
      DropJudges(m, Mail.Unsubscribe(m, x, sub).0, {sub}, x, call);
    } else {
      UndecidedJudges(m, m, x, call);
    }
  }

  lemma AcknowledgeJudges(m: MState, x: Pid, call: Call)
    requires SendersOk(m) && call.Acknowledge? && call.ack in m.pending
    ensures Judges(m, Mail.Acknowledge(m, call.ack, call.positive).0, x, call)
  {
    var m' := Mail.Acknowledge(m, call.ack, call.positive).0;
    forall a | a in m.pending ensures Ruled(m, m', call, a) {
      assert Decides(m, call, m', a) <==> a == call.ack;
    }
  }

  lemma DeliverToBoxes(m: MState, x: Pid, sub: SubId, topic: Topic, data: Data)
    requires HasBox(m, sub)
    ensures var m' := DeliverTo(m, x, sub, topic, data).0;
      && (forall s :: HasBox(m, s) ==> HasBox(m', s))
      && MessagesKept(m, m')
      && m'.results == m.results && m'.owned == m.owned && m'.nextAck == m.nextAck + 1
      && (m'.pending == m.pending || m'.pending == m.pending[m.nextAck := Pending(m.nextEvent, x)])
  {
  }

  lemma DeliverToJudges(m: MState, x: Pid, sub: SubId, topic: Topic, data: Data, call: Call)
    requires SendersOk(m) && HasBox(m, sub) && !call.Acknowledge?
    ensures Judges(m, DeliverTo(m, x, sub, topic, data).0, x, call)
  {
    hide MessagesKept, DeliverTo;
    var m' := DeliverTo(m, x, sub, topic, data).0;
    DeliverToBoxes(m, x, sub, topic, data);
    NothingDecided(m, call, m');
    hide HasBox, Decides;
  }

  lemma DeliverReplyUndecided(m: MState, topic: Topic, data: Data, x: Pid)
    requires DeliverReplySafe(m, topic)
    ensures Undecided(m, Mail.DeliverReply(m, topic, data).0, x)
  {
  }

  lemma ReceiveUndecided(m: MState, x: Pid, sub: SubId)
    requires ReceiveSafe(m, x, sub)
    ensures Undecided(m, Mail.Receive(m, x, sub).0, x)
  {
  }

  lemma KernelReplyUndecided(m: MState, topic: Topic, data: Data, x: Pid)
    requires KernelReplySafe(m, topic)
    ensures Undecided(m, KernelReply(m, topic, data).0, x)
  {
  }

  lemma DeliverJudges(m: MState, x: Pid, call: Call)
    requires MInv(m) && call.Deliver? && CallSafe(m, x, call)
    ensures Judges(m, CallEffect(m, x, call).0, x, call)
  {
    hide ListOk, OwnersOk, BoxesOk, EventsOk, SendersOk, AcksOk, PipesOk, Judges, KernelReply, KernelReplySafe,
      DeliverTo;
    var m' := CallEffect(m, x, call).0;
    if x in m.results || !ValidTopic(call.topic) { UndecidedJudges(m, m', x, call); }
    else {
      var all := FindAll(m.list, call.topic, true);
      if all != {} && m.mailboxes[Only(all)].Some? { DeliverToJudges(m, x, Only(all), call.topic, call.data, call); }
      else {
        if all != {} && call.service.Reply? {
          KernelReplyUndecided(m.(nextAck := m.nextAck + 1), call.service.topic, call.service.data, x);
        }
        UndecidedJudges(m, m', x, call);
      }
    }
  }

  lemma CallJudges(m: MState, x: Pid, call: Call)
    requires MInv(m) && CallSafe(m, x, call)
    ensures Judges(m, CallEffect(m, x, call).0, x, call)
  {
    hide ListOk, OwnersOk, BoxesOk, EventsOk, SendersOk, AcksOk, PipesOk, Judges,
      Mail.Subscribe, Mail.Unsubscribe, UnsubscribeSafe, Mail.Deliver, DeliverSafe, Mail.Acknowledge, PublishTo,
      SelectFrom, SelectSafe,
      Mail.DeliverReply, DeliverReplySafe, Mail.Receive, ReceiveSafe;
    var m' := CallEffect(m, x, call).0;
    match call
    case Subscribe(filter, prefix, reliable, pipeBit) =>
      var f := NewFilter(filter, !prefix);
      if f.Some? { SubscribeJudges(m, x, f.value, reliable, pipeBit && prefix && reliable, call); }
      else { UndecidedJudges(m, m', x, call); }
    case Unsubscribe(sub) => UnsubscribeJudges(m, x, sub, call);
    case Deliver(_, _, _) => DeliverJudges(m, x, call);
    case Acknowledge(_, _, _) => AcknowledgeJudges(m, x, call);
    case Publish(topic, data) =>
      if ValidTopic(topic) { PublishUndecided(m, FindAll(m.list, topic, false), Message(topic, data, Option.None), x); }
      UndecidedJudges(m, m', x, call);
    case DeliverReply(topic, data) =>
      if ValidTopic(topic) { DeliverReplyUndecided(m, topic, data, x); }
      UndecidedJudges(m, m', x, call);
    case Receive(sub, _) =>
      ReceiveUndecided(m, x, sub);
      UndecidedJudges(m, m', x, call);
    case Select(subs, _) =>
      SelectUndecided(m, subs, x);
      UndecidedJudges(m, m', x, call);
    case _ => UndecidedJudges(m, m', x, call);
  }

  lemma JudgesThenUndecided(m: MState, m1: MState, m2: MState, x: Pid, call: Call)
    requires Judges(m, m1, x, call) && Undecided(m1, m2, x)
    requires forall s :: HasBox(m2, s) ==> HasBox(m1, s)
    requires x !in m1.results
    ensures Judges(m, m2, x, call)
  {
    forall a | a in m.pending ensures Ruled(m, m2, call, a) {
      assert Ruled(m, m1, call, a);
      assert Decides(m, call, m2, a) <==> Decides(m, call, m1, a);
    }
  }

  lemma EndJudges(m: MState, x: Pid, note: Data, call: Call)
    requires MInv(m) && NotSending(m, x) && x !in m.results && !call.Acknowledge?
    requires EndProcessSafe(m, x) && PublishSafe(EndProcess(m, x).0, TERMINATED_TOPIC)
    ensures Judges(m, Mail.Publish(EndProcess(m, x).0, TERMINATED_TOPIC, note).0, x, call)
  {
    hide ListOk, BoxesOk, EventsOk, AcksOk, PipesOk, Judges, FindAll;
    var m0 := m.(owned := m.owned - {x});
    var m1 := DropAll(m0, OwnedBy(m, x)).0;
    SameAcksIn(m, m0, OwnedBy(m, x));
    DropJudges(m, m1, OwnedBy(m, x), x, call);
    var m2 := HangUpAll(m1, x).0;
    JudgesThenUndecided(m, m1, m2, x, call);
    var m3 := Mail.Publish(m2, TERMINATED_TOPIC, note).0;
    PublishUndecided(m2, FindAll(m2.list, TERMINATED_TOPIC, false), Message(TERMINATED_TOPIC, note, Option.None), x);
    JudgesThenUndecided(m, m2, m3, x, call);
  }

  /** The end of a process decides a delivery if and only if it still lies in a mailbox of that process. */
  lemma EndDecidesIff(m: MState, x: Pid, note: Data, a: AckId)
    requires EndProcessSafe(m, x) && PublishSafe(EndProcess(m, x).0, TERMINATED_TOPIC) && a in m.pending
    ensures a in Mail.Publish(EndProcess(m, x).0, TERMINATED_TOPIC, note).0.pending <==>
      !exists s, i: nat :: Owns(m, x, s) && Queued(m, s, i, a)
  {
    hide AcksIn, FindAll;
    var m0 := m.(owned := m.owned - {x});
    SameAcksIn(m, m0, OwnedBy(m, x));
    AcksInAre(m, OwnedBy(m, x), a);
  }
}
