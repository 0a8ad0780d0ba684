/**
 * The IPC manager: mailboxes behind subscriptions, reliable deliveries waiting for their
 * acknowledgement, and verdicts waiting to be collected by their senders.
 *
 * Every operation comes as a predicate `...Safe`, the conjunction of the assertions and unwraps on
 * the path it takes, and a function giving the new state, the answer, and the events to trigger.
 */
module Mail {
  import opened Common
  import opened Topics
  import opened Subscriptions
  import opened EventQueues

  const MAILBOX_BUFFER_LIMIT: nat := 100

  datatype Message = Message(topic: string, data: Data, ack: Option<AckId>)

  datatype PipeMode = NoPipe | NotConnected | ConnectedTo(pid: Pid) | Disconnected

  datatype Mailbox = Mailbox(queue: EventQueue<Message>, pipe: PipeMode)

  datatype DeliveryError = NoSubscriber | QueueFull | NegativeAcknowledgement

  datatype Error = InvalidTopic | Unsubscribed | PipeReserved | Exclusion | Delivery(error: DeliveryError) | NotOwner

  datatype Result<+T> = Ok(value: T) | Err(error: Error)

  datatype Verdict = Accepted | Failed(error: DeliveryError)

  datatype Pending = Pending(event: EventId, sender: Pid)

  datatype MState = MState(
    list: ListState,
    mailboxes: map<SubId, Option<Mailbox>>,
    pending: map<AckId, Pending>,
    results: map<Pid, Verdict>,
    nextAck: AckId,
    owned: map<Pid, set<SubId>>,
    nextEvent: EventId)

  /** What a kernel service makes of a message: refuse it, send a reply of its own first, or panic over it. */
  datatype ServiceReply = Nack | Reply(topic: Topic, data: Data) | Undecodable

  datatype Delivered = ToProcess(event: EventId) | ToKernel

  datatype Polled = Popped(message: Message) | WaitOn(event: EventId)

  // ----- Looking things up -----

  predicate Owns(m: MState, pid: Pid, sub: SubId) {
    pid in m.owned && sub in m.owned[pid]
  }

  predicate HasBox(m: MState, sub: SubId) {
    sub in m.mailboxes && m.mailboxes[sub].Some?
  }

  function Box(m: MState, sub: SubId): Mailbox
    requires HasBox(m, sub)
  {
    m.mailboxes[sub].value
  }

  function SetBox(m: MState, sub: SubId, b: Mailbox): MState {
    m.(mailboxes := m.mailboxes[sub := Some(b)])
  }

  predicate Queued(m: MState, sub: SubId, i: nat, a: AckId) {
    HasBox(m, sub) && i < |Box(m, sub).queue.items| && Box(m, sub).queue.items[i].ack == Some(a)
  }

  predicate ArmedWith(m: MState, sub: SubId, e: EventId) {
    HasBox(m, sub) && Box(m, sub).queue.event == Some(e)
  }

  function OptionSet<T>(o: Option<T>): set<T> {
    match o case None => {} case Some(x) => {x}
  }

  /** The one subscription a reliable delivery selects. */
  ghost function Only(subs: set<SubId>): (sub: SubId)
    requires |subs| == 1
    ensures subs == {sub}
  {
    var sub :| sub in subs;
    assert |subs - {sub}| == 0;
    sub
  }

  // ----- Subscribing -----

  ghost function Subscribe(m: MState, pid: Pid, filter: TopicFilter, reliable: bool, pipe: bool)
      : (MState, Result<SubId>) {
    var (list, id) := Insert(m.list, filter, reliable);
    match id
    case None => (m, Err(Exclusion))
    case Some(id) =>
      var box := Mailbox(Empty(MAILBOX_BUFFER_LIMIT), if pipe then NotConnected else NoPipe);
      var mine := if pid in m.owned then m.owned[pid] else {};
      (m.(list := list, mailboxes := m.mailboxes[id := Some(box)], owned := m.owned[pid := mine + {id}]), Ok(id))
  }

  ghost function KernelSubscribe(m: MState, filter: TopicFilter): (MState, Result<SubId>) {
    var (list, id) := Insert(m.list, filter, true);
    match id
    case None => (m, Err(Exclusion))
    case Some(id) => (m.(list := list, mailboxes := m.mailboxes[id := None]), Ok(id))
  }

  // ----- Releasing the senders of a dropped mailbox -----

  function Acks(items: seq<Message>): set<AckId> {
    set i | 0 <= i < |items| && items[i].ack.Some? :: items[i].ack.value
  }

  ghost predicate ReleaseSafe(m: MState, items: seq<Message>) {
    && (forall i :: 0 <= i < |items| && items[i].ack.Some? ==> items[i].ack.value in m.pending)
    && (forall i, j :: 0 <= i < j < |items| && items[i].ack.Some? ==> items[i].ack != items[j].ack)
  }

  function Senders(m: MState, acks: set<AckId>): set<Pid> {
    set a | a in acks && a in m.pending :: m.pending[a].sender
  }

  function Wakeups(m: MState, acks: set<AckId>): set<EventId> {
    set a | a in acks && a in m.pending :: m.pending[a].event
  }

  /** The deliveries `acks` end with "no subscriber". */
  function Release(m: MState, acks: set<AckId>): MState {
    m.(pending := m.pending - acks, results := m.results + map p | p in Senders(m, acks) :: Failed(NoSubscriber))
  }

  ghost predicate ForceUnsubscribeSafe(m: MState, sub: SubId) {
    HasBox(m, sub) && ReleaseSafe(m, Box(m, sub).queue.items)
  }

  function ForceUnsubscribe(m: MState, sub: SubId): (MState, set<EventId>)
    requires HasBox(m, sub)
  {
    var acks := Acks(Box(m, sub).queue.items);
    (Release(m, acks).(list := m.list.(targets := Without(m.list.targets, sub)), mailboxes := m.mailboxes - {sub}),
     Wakeups(m, acks))
  }

  ghost predicate UnsubscribeSafe(m: MState, pid: Pid, sub: SubId) {
    Owns(m, pid, sub) ==> ForceUnsubscribeSafe(m, sub)
  }

  ghost function Unsubscribe(m: MState, pid: Pid, sub: SubId): (MState, Result<()>, set<EventId>)
    requires UnsubscribeSafe(m, pid, sub)
  {
    if !Owns(m, pid, sub) then (m, Err(NotOwner), {})
    else
      var (m', events) := ForceUnsubscribe(m.(owned := m.owned[pid := m.owned[pid] - {sub}]), sub);
      (m', Ok(()), events)
  }

  // ----- Unreliable messages -----

  ghost predicate PublishSafe(m: MState, topic: Topic) {
    forall s :: s in FindAll(m.list, topic, false) ==> HasBox(m, s) && Box(m, s).pipe.NoPipe?
  }

  function Pushing(b: Mailbox, message: Message): Mailbox {
    b.(queue := Push(b.queue, message).0)
  }

  function PushEvent(b: Mailbox, message: Message): Option<EventId> {
    match Push(b.queue, message).1 case Full => None case Pushed(t) => t
  }

  function PublishTo(m: MState, subs: set<SubId>, message: Message): (MState, set<EventId>)
    requires forall s :: s in subs ==> HasBox(m, s)
  {
    (m.(mailboxes := map s | s in m.mailboxes :: if s in subs then Some(Pushing(Box(m, s), message))
      else m.mailboxes[s]),
     set s | s in subs && PushEvent(Box(m, s), message).Some? :: PushEvent(Box(m, s), message).value)
  }

  ghost function Publish(m: MState, topic: Topic, data: Data): (MState, set<EventId>)
    requires PublishSafe(m, topic)
  {
    PublishTo(m, FindAll(m.list, topic, false), Message(topic, data, None))
  }

  // ----- Reliable delivery -----

  ghost predicate KernelReplySafe(m: MState, topic: Topic) {
    var all := FindAll(m.list, topic, true);
    all != {} ==>
      && |all| == 1
      && HasBox(m, Only(all))
      && Box(m, Only(all)).pipe.NoPipe?
      && (!Push(Box(m, Only(all)).queue, Message(topic, [], None)).1.Full? ==> Box(m, Only(all)).queue.event.None?)
  }

  ghost function KernelReply(m: MState, topic: Topic, data: Data): (MState, Result<()>)
    requires KernelReplySafe(m, topic)
  {
    var all := FindAll(m.list, topic, true);
    if all == {} then (m, Err(Delivery(NoSubscriber)))
    else
      var sub := Only(all);
      var m1 := m.(nextAck := m.nextAck + 1);
      var (queue, pushed) := Push(Box(m, sub).queue, Message(topic, data, None));
      if pushed.Full? then (m1, Err(Delivery(QueueFull)))
      else (SetBox(m1, sub, Box(m, sub).(queue := queue)), Ok(()))
  }

  /** A mailbox that still accepts messages from this process. */
  predicate PipeOpen(b: Mailbox, pid: Pid) {
    match b.pipe
    case NoPipe => true
    case NotConnected => true
    case ConnectedTo(c) => c == pid
    case Disconnected => false
  }

  function Connect(b: Mailbox, pid: Pid): Mailbox {
    if b.pipe.NotConnected? then b.(pipe := ConnectedTo(pid)) else b
  }

  ghost predicate DeliverSafe(m: MState, topic: Topic, service: ServiceReply) {
    var all := FindAll(m.list, topic, true);
    all != {} ==>
      && |all| == 1
      && Only(all) in m.mailboxes
      && (m.mailboxes[Only(all)].None? ==>
            && !service.Undecodable?
            && (service.Reply? ==> KernelReplySafe(m.(nextAck := m.nextAck + 1), service.topic)))
  }

  function DeliverTo(m: MState, pid: Pid, sub: SubId, topic: Topic, data: Data)
      : (MState, Result<Delivered>, set<EventId>)
    requires HasBox(m, sub)
  {
    var ack := m.nextAck;
    var m1 := m.(nextAck := ack + 1);
    if !PipeOpen(Box(m, sub), pid) then (m1, Err(PipeReserved), {})
    else
      var box := Connect(Box(m, sub), pid);
      var (queue, pushed) := Push(box.queue, Message(topic, data, Some(ack)));
      var m2 := SetBox(m1, sub, box.(queue := queue));
      match pushed
      case Full => (m2, Err(Delivery(QueueFull)), {})
      case Pushed(trigger) =>
        (m2.(pending := m.pending[ack := Pending(m.nextEvent, pid)], nextEvent := m.nextEvent + 1),
         Ok(ToProcess(m.nextEvent)), OptionSet(trigger))
  }

  ghost function Deliver(m: MState, pid: Pid, topic: Topic, data: Data, service: ServiceReply)
      : (MState, Result<Delivered>, set<EventId>)
    requires DeliverSafe(m, topic, service)
  {
    var all := FindAll(m.list, topic, true);
    if all == {} then (m, Err(Delivery(NoSubscriber)), {})
    else
      var sub := Only(all);
      if m.mailboxes[sub].Some? then DeliverTo(m, pid, sub, topic, data)
      else
        var m1 := m.(nextAck := m.nextAck + 1);
        if !service.Reply? then (m1, Err(Delivery(NegativeAcknowledgement)), {})
        else
          var (m2, r) := KernelReply(m1, service.topic, service.data);
          (m2, if r.Ok? then Ok(ToKernel) else Err(r.error), {})
  }

  ghost predicate DeliverReplySafe(m: MState, topic: Topic) {
    var all := FindAll(m.list, topic, true);
    all != {} ==> |all| == 1 && HasBox(m, Only(all)) && Box(m, Only(all)).pipe.NoPipe?
  }

  ghost function DeliverReply(m: MState, topic: Topic, data: Data): (MState, Result<()>, set<EventId>)
    requires DeliverReplySafe(m, topic)
  {
    var all := FindAll(m.list, topic, true);
    if all == {} then (m, Err(Delivery(NoSubscriber)), {})
    else
      var sub := Only(all);
      var (queue, pushed) := Push(Box(m, sub).queue, Message(topic, data, None));
      match pushed
      case Full => (m, Err(Delivery(QueueFull)), {})
      case Pushed(trigger) => (SetBox(m, sub, Box(m, sub).(queue := queue)), Ok(()), OptionSet(trigger))
  }

  /** The sender collects its verdict. */
  function AfterDelivery(m: MState, pid: Pid): (MState, Result<()>)
    requires pid in m.results
  {
    (m.(results := m.results - {pid}),
     match m.results[pid] case Accepted => Ok(()) case Failed(e) => Err(Delivery(e)))
  }

  function Acknowledge(m: MState, ack: AckId, positive: bool): (MState, set<EventId>)
    requires ack in m.pending
  {
    (m.(pending := m.pending - {ack},
        results := m.results[m.pending[ack].sender := if positive then Accepted else Failed(NegativeAcknowledgement)]),
     {m.pending[ack].event})
  }

  // ----- Receiving -----

  function ArmBox(m: MState, sub: SubId): (MState, EventId)
    requires HasBox(m, sub)
  {
    var (queue, e) := Arm(Box(m, sub).queue, m.nextEvent);
    var next := if Box(m, sub).queue.event.None? then m.nextEvent + 1 else m.nextEvent;
    (SetBox(m, sub, Box(m, sub).(queue := queue)).(nextEvent := next), e)
  }

  /** `waiting_for`: nothing to wait for when there are messages, otherwise the event to wait on. */
  function WaitingFor(m: MState, sub: SubId): (MState, Option<EventId>)
    requires HasBox(m, sub)
  {
    if Box(m, sub).queue.items != [] then (m, None)
    else
      var (m', e) := ArmBox(m, sub);
      (m', Some(e))
  }

  predicate ReceiveSafe(m: MState, pid: Pid, sub: SubId) {
    Owns(m, pid, sub) && sub in m.mailboxes ==> HasBox(m, sub)
  }

  function Receive(m: MState, pid: Pid, sub: SubId): (MState, Result<Polled>)
    requires ReceiveSafe(m, pid, sub)
  {
    if !Owns(m, pid, sub) then (m, Err(NotOwner))
    else if sub !in m.mailboxes then (m, Err(Unsubscribed))
    else
      var box := Box(m, sub);
      if box.queue.items != [] then
        (SetBox(m, sub, box.(queue := box.queue.(items := box.queue.items[1..]))), Ok(Popped(box.queue.items[0])))
      else
        var (m', e) := ArmBox(m, sub);
        (m', Ok(WaitOn(e)))
  }

  // ----- A process is over -----

  function OwnedBy(m: MState, pid: Pid): set<SubId> {
    if pid in m.owned then m.owned[pid] else {}
  }

  /** Every delivery queued in one of these mailboxes. */
  ghost function AcksIn(m: MState, subs: set<SubId>): set<AckId> {
    set s, i | s in subs && HasBox(m, s) && 0 <= i < |Box(m, s).queue.items| && Box(m, s).queue.items[i].ack.Some?
      :: Box(m, s).queue.items[i].ack.value
  }

  function WithoutAll(s: seq<Target>, ids: set<SubId>): seq<Target> {
    if s == [] then []
    else if s[0].id in ids then WithoutAll(s[1..], ids)
    else [s[0]] + WithoutAll(s[1..], ids)
  }

  function HangUp(b: Mailbox, pid: Pid): Mailbox {
    if b.pipe == ConnectedTo(pid) then b.(pipe := Disconnected, queue := b.queue.(event := None)) else b
  }

  function HangUpAll(m: MState, pid: Pid): (MState, set<EventId>) {
    (m.(mailboxes := map s | s in m.mailboxes ::
          match m.mailboxes[s] case None => None case Some(b) => Some(HangUp(b, pid))),
     set s | s in m.mailboxes && HasBox(m, s) && Box(m, s).pipe == ConnectedTo(pid) && Box(m, s).queue.event.Some?
       :: Box(m, s).queue.event.value)
  }

  ghost predicate EndProcessSafe(m: MState, pid: Pid) {
    var subs := OwnedBy(m, pid);
    && (forall s :: s in subs ==> ForceUnsubscribeSafe(m, s))
    && (forall s, i, s', j, a :: s in subs && s' in subs && Queued(m, s, i, a) && Queued(m, s', j, a) ==> s == s')
  }

  ghost function DropAll(m: MState, subs: set<SubId>): (MState, set<EventId>) {
    var acks := AcksIn(m, subs);
    (Release(m, acks).(list := m.list.(targets := WithoutAll(m.list.targets, subs)), mailboxes := m.mailboxes - subs),
     Wakeups(m, acks))
  }

  /** All its mailboxes go, releasing queued senders; pipes it was connected to are hung up. */
  ghost function EndProcess(m: MState, pid: Pid): (MState, set<EventId>)
    requires EndProcessSafe(m, pid)
  {
    var (m1, released) := DropAll(m.(owned := m.owned - {pid}), OwnedBy(m, pid));
    var (m2, hungUp) := HangUpAll(m1, pid);
    (m2, released + hungUp)
  }
}
