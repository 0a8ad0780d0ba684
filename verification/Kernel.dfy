/**
 * The kernel as one machine over scheduler and IPC manager. Every system call, repeated system
 * call, timer tick, hardware interrupt and crash is one atomic step; the kernel holds both locks.
 */
module Kernel {
  import opened Common
  import opened Topics
  import opened Waits
  import opened Queues
  import opened Subscriptions
  import opened Mail

  const TIME_SLICE: nat := 100_000_000
  const MIN_EXEC_TIME: nat := TIME_SLICE / 10

  /** Sleeping for a year or longer trips an assertion of the clock. */
  const SLEEP_LIMIT: nat := 365 * 24 * 60 * 60 * 1_000_000_000

  datatype CallError = Ipc(error: Error) | EmptyListArgument | WouldBlock | OutOfMemory | Other(code: nat)

  datatype Reply = Value(value: nat) | Received(message: Message) | Refused(error: CallError)

  /**
   * How far a launch gets: the image is not one the loader takes, memory runs out for the image, for
   * the stack or for the page tables, or the process is there.
   */
  datatype Launch = BadImage | NoImage | NoStack | NoTables | Launched

  /**
   * A system call with its arguments read from process memory. Texts are one char per byte. `Fault`
   * points to memory the process does not have. `Broken` panics outside scheduler and manager, before
   * or after they have worked on it. A receiver's buffer is told by the messages whose serialised form
   * fits into it, and the arguments of a launch by the bytes they take on the stack.
   */
  datatype Call =
    | Exit(code: nat)
    | Fault
    | Broken
    | Plain(reply: Reply)
    | Exec(argsSize: nat, launch: Launch)
    | Yield(reply: Reply)
    | Sleep(ns: nat, until: Instant)
    | Subscribe(filter: string, prefix: bool, reliable: bool, pipeBit: bool)
    | Unsubscribe(sub: SubId)
    | Publish(topic: string, data: Data)
    | Deliver(topic: string, data: Data, service: ServiceReply)
    | DeliverReply(topic: string, data: Data)
    | Receive(sub: SubId, fits: Message -> bool)
    | Acknowledge(sub: SubId, ack: AckId, positive: bool)
    | Select(subs: seq<SubId>, nonblocking: bool)

  datatype SyscallResult =
    | Continue(reply: Reply)
    | Switch(reply: Reply, wait: WaitFor)
    | RepeatAfter(wait: WaitFor)
    | Terminate

  /** What the saved registers of a process hold. */
  datatype Frame = Fresh | Calling(call: Call) | Returned(reply: Reply)

  datatype Proc = Proc(repeat: bool, frame: Frame)

  datatype KState = KState(
    procs: map<Pid, Proc>,
    q: QState,
    running: Option<Pid>,
    sliceEnd: Option<Instant>,
    nextPid: Pid,
    m: MState)

  // ----- The IPC arms of the system call -----

  function Answer(r: Result<nat>): SyscallResult {
    match r case Ok(n) => Continue(Value(n)) case Err(e) => Continue(Refused(Ipc(e)))
  }

  function Done<T>(r: Result<T>): SyscallResult {
    match r case Ok(_) => Continue(Value(0)) case Err(e) => Continue(Refused(Ipc(e)))
  }

  datatype Selection = Ready(index: nat) | Wait(events: seq<EventId>)

  /** Every subscription looked at before a message is found has a process mailbox. */
  predicate SelectSafe(m: MState, subs: seq<SubId>)
    decreases |subs|
  {
    subs != [] ==>
      HasBox(m, subs[0]) && (Box(m, subs[0]).queue.items == [] ==> SelectSafe(ArmBox(m, subs[0]).0, subs[1..]))
  }

  /** Looks for the first mailbox with a message, arming the empty ones before it. */
  function SelectFrom(m: MState, subs: seq<SubId>): (MState, Selection)
    requires SelectSafe(m, subs)
    decreases |subs|
  {
    if subs == [] then (m, Wait([]))
    else if Box(m, subs[0]).queue.items != [] then (m, Ready(0))
    else
      var (m1, e) := ArmBox(m, subs[0]);
      var (m2, r) := SelectFrom(m1, subs[1..]);
      (m2, match r case Ready(i) => Ready(i + 1) case Wait(es) => Wait([e] + es))
  }

  function EventList(es: seq<EventId>): (ws: seq<WaitFor>)
    ensures |ws| == |es| && forall i :: 0 <= i < |es| ==> ws[i] == Event(es[i])
  {
    seq(|es|, i requires 0 <= i < |es| => Event(es[i]))
  }

  /** The image is accepted, and once there is a stack the arguments and the return frame fit on it. */
  predicate LaunchSafe(argsSize: nat, launch: Launch) {
    !launch.BadImage? && (launch.NoTables? || launch.Launched? ==> argsSize + 40 <= STACK_SIZE)
  }

  /** The message a receive would take fits the buffer. */
  predicate FirstFits(m: MState, pid: Pid, sub: SubId, fits: Message -> bool) {
    Owns(m, pid, sub) && HasBox(m, sub) && Box(m, sub).queue.items != [] ==> fits(Box(m, sub).queue.items[0])
  }

  /** The assertions and unwraps on the path of this call hold. */
  ghost predicate CallSafe(m: MState, pid: Pid, call: Call) {
    match call
    case Broken => false
    case Exec(size, launch) => LaunchSafe(size, launch)
    case Sleep(ns, _) => ns < SLEEP_LIMIT
    case Subscribe(filter, _, _, _) => |filter| < STRING_LIMIT
    case Unsubscribe(sub) => UnsubscribeSafe(m, pid, sub)
    case Publish(topic, _) => |topic| < STRING_LIMIT && (ValidTopic(topic) ==> PublishSafe(m, topic))
    case Deliver(topic, _, service) =>
      pid !in m.results ==> |topic| < STRING_LIMIT && (ValidTopic(topic) ==> DeliverSafe(m, topic, service))
    case DeliverReply(topic, _) => |topic| < STRING_LIMIT && (ValidTopic(topic) ==> DeliverReplySafe(m, topic))
    case Receive(sub, fits) => ReceiveSafe(m, pid, sub) && FirstFits(m, pid, sub, fits)
    case Acknowledge(_, ack, _) => ack in m.pending
    case Select(subs, _) => SelectSafe(m, subs)
    case _ => true
  }

  ghost function CallEffect(m: MState, pid: Pid, call: Call): (MState, SyscallResult, set<EventId>)
    requires CallSafe(m, pid, call)
  {
    match call
    case Exit(_) => (m, Terminate, {})
    case Fault => (m, Terminate, {})
    case Plain(reply) => (m, Continue(reply), {})
    case Exec(_, launch) => (m, Continue(if launch.Launched? then Value(0) else Refused(OutOfMemory)), {})
    case Yield(reply) => (m, Switch(reply, WaitFor.None), {})
    case Sleep(_, until) => (m, Switch(Value(0), Time(until)), {})
    case Subscribe(filter, prefix, reliable, pipeBit) =>
      // The PIPE flag is the conjunction of all three bits.
      (match NewFilter(filter, !prefix)
       case None => (m, Continue(Refused(Ipc(InvalidTopic))), {})
       case Some(f) =>
         var (m', r) := Mail.Subscribe(m, pid, f, reliable, pipeBit && prefix && reliable);
         (m', Answer(r), {}))
    case Unsubscribe(sub) =>
      var (m', r, events) := Mail.Unsubscribe(m, pid, sub);
      (m', Done(r), events)
    case Publish(topic, data) =>
      if !ValidTopic(topic) then (m, Continue(Refused(Ipc(InvalidTopic))), {})
      else
        var (m', events) := Mail.Publish(m, topic, data);
        (m', Continue(Value(0)), events)
    case Deliver(topic, data, service) =>
      if pid in m.results then
        var (m', r) := AfterDelivery(m, pid);
        (m', Done(r), {})
      else if !ValidTopic(topic) then (m, Continue(Refused(Ipc(InvalidTopic))), {})
      else
        var (m', r, events) := Mail.Deliver(m, pid, topic, data, service);
        (m', if r.Ok? && r.value.ToProcess? then RepeatAfter(Event(r.value.event)) else Done(r), events)
    case DeliverReply(topic, data) =>
      if !ValidTopic(topic) then (m, Continue(Refused(Ipc(InvalidTopic))), {})
      else
        var (m', r, events) := Mail.DeliverReply(m, topic, data);
        (m', Done(r), events)
    case Receive(sub, _) =>
      var (m', r) := Mail.Receive(m, pid, sub);
      (m', match r
           case Err(e) => Continue(Refused(Ipc(e)))
           case Ok(Popped(message)) => Continue(Received(message))
           case Ok(WaitOn(e)) => RepeatAfter(Event(e)),
       {})
    case Acknowledge(_, ack, positive) =>
      var (m', events) := Mail.Acknowledge(m, ack, positive);
      (m', Continue(Value(0)), events)
    case Select(subs, nonblocking) =>
      if subs == [] then (m, Continue(Refused(EmptyListArgument)), {})
      else
        var (m', r) := SelectFrom(m, subs);
        (m', match r
             case Ready(i) => Continue(Value(i))
             case Wait(es) => if nonblocking then Continue(Refused(WouldBlock))
               else RepeatAfter(FirstOf(EventList(es))),
         {})
  }

  // ----- The scheduler -----

  ghost function Spawned(k: KState): KState {
    k.(procs := k.procs[k.nextPid := Proc(false, Fresh)], nextPid := k.nextPid + 1,
      q := Give(k.q, k.nextPid, WaitFor.None))
  }

  /** Gives the running process away, if told how, and takes the next ready one. */
  ghost function SwitchTo(k: KState, schedule: Option<WaitFor>, now: Instant): KState
    requires schedule.Some? ==> Flat(schedule.value)
  {
    var q := if schedule.Some? && k.running.Some? then Give(k.q, k.running.value, schedule.value) else k.q;
    if q.ready == [] then k.(q := q, running := Option.None, sliceEnd := Option.None)
    else k.(q := q.(ready := q.ready[1..]), running := Some(q.ready[0]), sliceEnd := Some(now + TIME_SLICE))
  }

  function SwitchCurrentOrNext(k: KState): KState {
    if k.running.Some? || k.q.ready == [] then k
    else k.(q := k.q.(ready := k.q.ready[1..]), running := Some(k.q.ready[0]))
  }

  const TERMINATED_TOPIC: Topic := "process/terminated"

  /** The process is gone from table, queues and manager, and its death has been published. */
  ghost predicate Terminated(k: KState, target: Pid, note: Data, k': KState) {
    && EndProcessSafe(k.m, target)
    && var (m1, events) := EndProcess(k.m, target);
      && PublishSafe(m1, TERMINATED_TOPIC)
      && var (m2, more) := Mail.Publish(m1, TERMINATED_TOPIC, note);
        && (exists qa, qb :: ProcessOver(k.q, target, qa) && EventsFired(qa, events, qb) && EventsFired(qb, more, k'.q))
        && k' == (if k.running == Some(target) then k.(running := Option.None, sliceEnd := Option.None) else k)
                  .(procs := k.procs - {target}, m := m2, q := k'.q)
  }

  /** The handler of one call up to its result; triggered events may fire in any order. */
  ghost predicate Handled(k: KState, pid: Pid, call: Call, k': KState, r: SyscallResult) {
    && CallSafe(k.m, pid, call)
    && var (m', result, events) := CallEffect(k.m, pid, call);
      if call.Exec? then
        if call.launch.Launched? then k' == Spawned(k) && r == Continue(Value(k.nextPid))
        else k' == (if call.launch.NoImage? then k else k.(nextPid := k.nextPid + 1)) && r == result
      else
        r == result && EventsFired(k.q, events, k'.q) && k' == k.(m := m', q := k'.q)
  }

  /** The saved state of a process after its call: the answer, or the same call again. */
  function Recorded(call: Call, r: SyscallResult): Proc {
    match r
    case Continue(reply) => Proc(false, Returned(reply))
    case Switch(reply, _) => Proc(false, Returned(reply))
    case RepeatAfter(_) => Proc(true, Calling(call))
    case Terminate => Proc(false, Calling(call))
  }

  ghost predicate Finished(k: KState, pid: Pid, r: SyscallResult, now: Instant, note: Data, k': KState) {
    match r
    case Continue(_) => k' == k
    case Switch(_, s) => Flat(s) && k' == SwitchTo(k, Some(s), now)
    case RepeatAfter(s) => Flat(s) && k' == SwitchTo(k, Some(s), now)
    case Terminate => exists k1 :: Terminated(k, pid, note, k1) && k' == SwitchTo(k1, Option.None, now)
  }

  ghost function Record(k: KState, pid: Pid, call: Call, r: SyscallResult): KState {
    k.(procs := k.procs[pid := Recorded(call, r)])
  }

  ghost predicate CallStep(k: KState, pid: Pid, call: Call, now: Instant, note: Data, k': KState) {
    exists k1, r :: Handled(k, pid, call, k1, r) && Finished(Record(k1, pid, call, r), pid, r, now, note, k')
  }

  // ----- The machine -----

  datatype Step =
    | Boot
    | Syscall(call: Call, now: Instant, note: Data)
    | Repeat(now: Instant, note: Data)
    | Tick(now: Instant)
    | Irq(topic: Topic, data: Data, reschedule: bool)
    | Crash(now: Instant, note: Data)

  /** Processes acknowledge what they have received: an id still queued is nobody's to acknowledge. */
  ghost predicate Disciplined(m: MState, call: Call) {
    call.Acknowledge? ==> forall s, i: nat :: !Queued(m, s, i, call.ack)
  }

  /** A step that would panic has no successor. */
  ghost predicate Next(k: KState, step: Step, k': KState) {
    match step
    case Boot => k' == Spawned(k)
    case Syscall(call, now, note) =>
      && k.running.Some? && k.running.value in k.procs && !k.procs[k.running.value].repeat
      && Disciplined(k.m, call)
      && CallStep(k, k.running.value, call, now, note, k')
    case Repeat(now, note) =>
      && k.running.Some? && k.running.value in k.procs && k.procs[k.running.value].repeat
      && k.procs[k.running.value].frame.Calling?
      && CallStep(k, k.running.value, k.procs[k.running.value].frame.call, now, note, k')
    case Tick(now) => k' == SwitchTo(k.(q := AfterTick(k.q, now)), Some(WaitFor.None), now)
    case Irq(topic, data, reschedule) =>
      && PublishSafe(k.m, topic)
      && var (m', events) := Mail.Publish(k.m, topic, data);
        exists q' :: EventsFired(k.q, events, q')
          && k' == if reschedule then SwitchCurrentOrNext(k.(m := m', q := q')) else k.(m := m', q := q')
    case Crash(now, note) =>
      && k.running.Some? && k.running.value in k.procs && !k.procs[k.running.value].repeat
      && exists k1 :: Terminated(k, k.running.value, note, k1) && k' == SwitchTo(k1, Option.None, now)
  }

  ghost predicate Run(ks: seq<KState>, steps: seq<Step>) {
    && |ks| == |steps| + 1
    && forall i :: 0 <= i < |steps| ==> Next(ks[i], steps[i], ks[i + 1])
  }

  /** Nothing runs; some kernel services may have subscribed. */
  ghost predicate Init(k: KState) {
    && k.procs == map[] && k.running.None? && k.sliceEnd.None? && k.nextPid == 1
    && k.q == QState([], map[], 0, [], map[], map[])
    && KernelOnly(k.m)
  }

  ghost predicate KernelOnly(m: MState) {
    exists filters: seq<TopicFilter> :: m == Booted(filters)
  }

  ghost function Booted(filters: seq<TopicFilter>): MState {
    if filters == [] then MState(ListState([], 0), map[], map[], map[], 0, map[], 0)
    else KernelSubscribe(Booted(filters[..|filters| - 1]), filters[|filters| - 1]).0
  }
}
