/** What a process gets out of each of its calls, told by what it could have looked up before. */
module CallResults {
  import opened Common
  import opened Topics
  import opened Queues
  import opened Subscriptions
  import opened Mail
  import opened MailInvariant
  import MailOps
  import opened MailEnds
  import opened Kernel
  import opened KernelInvariant
  import opened KernelCalls
  import opened KernelEnds
  import opened KernelSafety
  import opened KernelTheorems
  import opened OrderRuns
  import opened PipeRuns
  import opened DeliveryRuns

  // ----- How a call ends -----

  /** The call is answered, and its process goes on in the time slice it has. */
  ghost predicate Gets(k: KState, k': KState, x: Pid, reply: Reply) {
    && k'.running == Some(x) && k'.sliceEnd == k.sliceEnd && k'.nextPid == k.nextPid
    && x in k'.procs && k'.procs[x] == Proc(false, Returned(reply)) && k'.procs == k.procs[x := k'.procs[x]]
  }

  /** The process is blocked, and its call will be repeated. */
  ghost predicate Parks(k: KState, k': KState, x: Pid, call: Call) {
    && k'.running != Some(x) && Blocked(k'.q, x) && k'.nextPid == k.nextPid
    && x in k'.procs && k'.procs[x] == Proc(true, Calling(call)) && k'.procs == k.procs[x := k'.procs[x]]
  }

  function Error(e: Mail.Error): Reply {
    Refused(Ipc(e))
  }

  predicate Calls(k: KState, step: Step, x: Pid) {
    (step.Syscall? || step.Repeat?) && k.running == Some(x)
  }

  lemma StepEffect(k: KState, step: Step, k': KState, x: Pid)
    requires KInv(k) && Next(k, step, k') && Calls(k, step, x) && !CallOf(k, step).Exec?
    ensures x in k.procs && MayCall(k, x, CallOf(k, step)) && CallSafe(k.m, x, CallOf(k, step))
    ensures var (m', r, events) := CallEffect(k.m, x, CallOf(k, step));
      && (!r.Terminate? ==> k'.m == m')
      && (r.Continue? ==> Gets(k, k', x, r.reply) && EventsFired(k.q, events, k'.q))
      && (r.RepeatAfter? ==> Parks(k, k', x, CallOf(k, step)))
  {
    hide KInv, KInvX, EventsFired, CallEffect, CallSafe, CallOutcome, Give, Terminated;
    RunningFacts(k, x);
    if step.Repeat? { RepeatMayCall(k, x); }
    var call, now, note := CallOf(k, step), step.now, step.note;
    var k1, r :| Handled(k, x, call, k1, r) && Finished(Record(k1, x, call, r), x, r, now, note, k');
    HandledKeeps(k, x, call, k1, r);
    if r.RepeatAfter? {
      RecordKeeps(k1, x, Recorded(call, r));
      SwitchesAway(Record(k1, x, call, r), x, call, r.wait, now);
    }
  }

  // ----- Receiving -----

  /** For every state of the manager: whose receive is refused, and how. */
  lemma ReceiveRefusals(m: MState, x: Pid, call: Call)
    requires call.Receive? && CallSafe(m, x, call)
    ensures var r := CallEffect(m, x, call).1;
      && (r == Continue(Error(NotOwner)) <==> !Owns(m, x, call.sub))
      && (r == Continue(Error(Unsubscribed)) <==> Owns(m, x, call.sub) && !HasBox(m, call.sub))
      && (r.RepeatAfter? <==> Owns(m, x, call.sub) && HasBox(m, call.sub) && Box(m, call.sub).queue.items == [])
      && (r.Continue? && r.reply.Received? <==>
            Owns(m, x, call.sub) && HasBox(m, call.sub) && Box(m, call.sub).queue.items != [])
  {
  }

  lemma OwnHasBox(k: KState, x: Pid, s: SubId)
    requires KInv(k) && Owns(k.m, x, s)
    ensures HasBox(k.m, s)
  {
    hide Placement, ProcOk, SenderOk, ListOk, BoxesOk, EventsOk, SendersOk, AcksOk, PipesOk;
  }

  /**
   * A receive is refused exactly when the subscription is not the caller's own, which leaves everything
   * as it was. It gets the oldest message exactly when there is one. It waits exactly when there is none.
   */
  lemma Receives(k: KState, step: Step, k': KState, x: Pid)
    requires KInv(k) && Next(k, step, k') && Calls(k, step, x) && CallOf(k, step).Receive?
    ensures var s := CallOf(k, step).sub;
      && (Gets(k, k', x, Error(NotOwner)) <==> !Owns(k.m, x, s))
      && !Gets(k, k', x, Error(Unsubscribed))
      && (!Owns(k.m, x, s) ==> k'.m == k.m)
      && (Owns(k.m, x, s) ==>
            && HasBox(k.m, s) && HasBox(k'.m, s)
            && (WaitsForMail(k', x, s) <==> Items(k, s) == [])
            && (forall message :: Gets(k, k', x, Received(message)) <==> Items(k, s) != [] && message == Items(k, s)[0])
            && (Items(k, s) != [] ==> Items(k', s) == Items(k, s)[1..])
            && (Items(k, s) == [] ==> Parks(k, k', x, CallOf(k, step)) && Items(k', s) == []))
  {
    hide KInv, Next, CallEffect, CallSafe, EventsFired, MayCall;
    var call := CallOf(k, step);
    StepEffect(k, step, k', x);
    ReceiveRefusals(k.m, x, call);
    ReceiveGets(k.m, x, call);
    if Owns(k.m, x, call.sub) { OwnHasBox(k, x, call.sub); }
    ReceiveLeaves(k.m, x, call);
  }

  lemma ReceiveLeaves(m: MState, x: Pid, call: Call)
    requires call.Receive? && CallSafe(m, x, call)
    ensures var m' := CallEffect(m, x, call).0;
      && (!Owns(m, x, call.sub) ==> m' == m)
      && (HasBox(m, call.sub) ==> HasBox(m', call.sub))
      && (HasBox(m, call.sub) && Box(m, call.sub).queue.items == [] ==> Box(m', call.sub).queue.items == [])
  {
  }

  // ----- Selecting -----

  /** The first of these mailboxes that has a message. */
  ghost predicate FirstWithMail(m: MState, subs: seq<SubId>, i: nat) {
    i < |subs| && HasBox(m, subs[i]) && Box(m, subs[i]).queue.items != [] && EmptyBefore(m, subs, i)
  }

  lemma {:induction false} SelectFinds(m: MState, subs: seq<SubId>)
    requires BoxesOk(m) && SelectSafe(m, subs)
    ensures var r := SelectFrom(m, subs).1;
      match r
      case Ready(i) => FirstWithMail(m, subs, i)
      case Wait(_) => EmptyBefore(m, subs, |subs|)
    decreases |subs|
  {
    if subs != [] && Box(m, subs[0]).queue.items == [] {
      var m1, rest := ArmBox(m, subs[0]).0, subs[1..];
      ArmedBoxes(m, subs[0]);
      SelectFinds(m1, rest);
      assert forall s :: HasBox(m1, s) <==> HasBox(m, s);
      assert forall s :: HasBox(m, s) ==> Box(m1, s).queue.items == Box(m, s).queue.items;
      var n := match SelectFrom(m1, rest).1 case Ready(i) => i case Wait(_) => |rest|;
      forall j | 0 <= j < n + 1 ensures HasBox(m, subs[j]) && Box(m, subs[j]).queue.items == [] {
        if j > 0 { assert subs[j] == rest[j - 1]; }
      }
      if n < |rest| { assert subs[n + 1] == rest[n]; }
    }
  }

  lemma OneFirst(m: MState, subs: seq<SubId>, i: nat, j: nat)
    requires FirstWithMail(m, subs, i)
    ensures FirstWithMail(m, subs, j) ==> j == i
    ensures !EmptyBefore(m, subs, |subs|)
  {
  }

  lemma SelectEffect(m: MState, x: Pid, call: Call)
    requires BoxesOk(m) && call.Select? && CallSafe(m, x, call)
    ensures var r := CallEffect(m, x, call).1;
      if call.subs == [] then r == Continue(Refused(EmptyListArgument))
      else if EmptyBefore(m, call.subs, |call.subs|) then
        if call.nonblocking then r == Continue(Refused(WouldBlock)) else r.RepeatAfter?
      else exists i :: FirstWithMail(m, call.subs, i) && r == Continue(Value(i))
  {
    hide BoxesOk, SelectFrom, SelectSafe, FirstWithMail;
    if call.subs != [] {
      SelectFinds(m, call.subs);
      var r := SelectFrom(m, call.subs).1;
      if r.Ready? { OneFirst(m, call.subs, r.index, r.index); }
    }
  }

  /**
   * A select answers with an index exactly when that is the first mailbox with a message. Without one it
   * waits for all of them exactly when it may block. No other answer is given, and no message is taken.
   */
  lemma Selects(k: KState, step: Step, k': KState, x: Pid)
    requires KInv(k) && Next(k, step, k') && Calls(k, step, x) && CallOf(k, step).Select?
    ensures var call := CallOf(k, step); var subs := call.subs; var none := EmptyBefore(k.m, subs, |subs|);
      && (Gets(k, k', x, Refused(EmptyListArgument)) <==> subs == [])
      && (forall i :: Gets(k, k', x, Value(i)) <==> FirstWithMail(k.m, subs, i))
      && (Gets(k, k', x, Refused(WouldBlock)) <==> subs != [] && none && call.nonblocking)
      && (Parks(k, k', x, call) <==> subs != [] && none && !call.nonblocking)
      && (Parks(k, k', x, call) ==> forall s :: s in subs ==> WaitsForMail(k', x, s))
  {
    hide KInv, Next, CallEffect, CallSafe, EventsFired, MayCall, FirstWithMail, BoxesOk;
    var call := CallOf(k, step);
    StepEffect(k, step, k', x);
    BoxesFromInv(k);
    SelectEffect(k.m, x, call);
    if i :| FirstWithMail(k.m, call.subs, i) && CallEffect(k.m, x, call).1 == Continue(Value(i)) {
      forall j: nat ensures FirstWithMail(k.m, call.subs, j) <==> j == i { OneFirst(k.m, call.subs, i, j); }
    } else {
      forall j: nat ensures !FirstWithMail(k.m, call.subs, j) { NoneIsFirst(k.m, call.subs, j); }
    }
  }

  lemma NoneIsFirst(m: MState, subs: seq<SubId>, j: nat)
    requires subs == [] || EmptyBefore(m, subs, |subs|)
    ensures !FirstWithMail(m, subs, j)
  {
  }

  lemma BoxesFromInv(k: KState)
    requires KInv(k)
    ensures BoxesOk(k.m)
  {
    hide Placement, ProcOk, SenderOk, ListOk, OwnersOk, EventsOk, SendersOk, AcksOk, PipesOk, BoxesOk;
  }

  // ----- Delivering -----

  /** This subscription is listed with a filter that takes the topic. */
  ghost predicate Listens(m: MState, s: SubId, topic: Topic, reliable: bool) {
    exists t :: t in m.list.targets && t.id == s && t.reliable == reliable && Matches(t.filter, topic)
  }

  lemma ListensIff(m: MState, s: SubId, topic: Topic, reliable: bool)
    ensures Listens(m, s, topic, reliable) <==> s in FindAll(m.list, topic, reliable)
  {
    if t :| t in m.list.targets && t.id == s && t.reliable == reliable && Matches(t.filter, topic) {
      var i :| 0 <= i < |m.list.targets| && m.list.targets[i] == t;
      assert m.list.targets[i].id in FindAll(m.list, topic, reliable);
    }
  }

  /** A mailbox is open to a process unless it is a pipe of somebody else's, or one that lost its sender. */
  predicate MayEnter(pipe: PipeMode, x: Pid) {
    pipe == NoPipe || pipe == NotConnected || pipe == ConnectedTo(x)
  }

  predicate Room(k: KState, s: SubId)
    requires HasBox(k.m, s)
  {
    |Items(k, s)| < 100
  }

  lemma TargetIs(m: MState, topic: Topic, s: SubId)
    requires MInv(m) && Listens(m, s, topic, true)
    ensures var all := FindAll(m.list, topic, true); |all| == 1 && Only(all) == s && s in m.mailboxes
  {
    hide MInv, FindAll;
    SoleTarget(m, topic);
    ListensIff(m, s, topic, true);
  }

  lemma NoTarget(m: MState, topic: Topic)
    requires forall s :: !Listens(m, s, topic, true)
    ensures FindAll(m.list, topic, true) == {}
  {
    hide FindAll, Listens;
    forall s ensures s !in FindAll(m.list, topic, true) { ListensIff(m, s, topic, true); }
  }

  lemma DeliverEffect(m: MState, x: Pid, call: Call, s: SubId)
    requires MInv(m) && x !in m.results && call.Deliver? && CallSafe(m, x, call) && ValidTopic(call.topic)
    requires Listens(m, s, call.topic, true) && HasBox(m, s)
    ensures var (m', r, events) := CallEffect(m, x, call); var was := Box(m, s);
      && HasBox(m', s)
      && if !MayEnter(was.pipe, x) then
           r == Continue(Error(PipeReserved)) && m' == m.(nextAck := m.nextAck + 1)
         else if |was.queue.items| >= 100 then
           r == Continue(Error(Mail.Delivery(QueueFull))) && m' == m.(nextAck := m.nextAck + 1)
         else
           && r.RepeatAfter? && m'.pending == m.pending[m.nextAck := Pending(m.nextEvent, x)]
           && Box(m', s).queue.items == was.queue.items + [MessageOf(call, m.nextAck)]
           && Box(m', s).pipe == if was.pipe.NoPipe? then NoPipe else ConnectedTo(x)
  {
    hide ListOk, OwnersOk, EventsOk, SendersOk, AcksOk, FindAll, Listens;
    TargetIs(m, call.topic, s);
    assert PipeOk(m, s);
    assert m.mailboxes[s := Some(Box(m, s))] == m.mailboxes;
  }

  lemma NobodyEffect(m: MState, x: Pid, call: Call)
    requires x !in m.results && call.Deliver? && CallSafe(m, x, call)
    ensures !ValidTopic(call.topic) ==> CallEffect(m, x, call) == (m, Continue(Error(InvalidTopic)), {})
    ensures ValidTopic(call.topic) && (forall s :: !Listens(m, s, call.topic, true)) ==>
      CallEffect(m, x, call) == (m, Continue(Error(Mail.Delivery(NoSubscriber))), {})
  {
    hide FindAll, Listens;
    if ValidTopic(call.topic) && forall s :: !Listens(m, s, call.topic, true) { NoTarget(m, call.topic); }
  }

  lemma FreshDeliver(k: KState, step: Step, k': KState, x: Pid)
    requires KInv(k) && Next(k, step, k') && k.running == Some(x) && step.Syscall? && step.call.Deliver?
    ensures x !in k.m.results && MInv(k.m) && k.m.nextAck !in k.m.pending
  {
    hide CallStep, ListOk, OwnersOk, BoxesOk, EventsOk, AcksOk, PipesOk, QInv;
    RunningFacts(k, x);
  }

  /**
   * A message to a process mailbox is sent exactly when there is room and the mailbox is open to the
   * sender; then it lies behind all others and the sender waits. Otherwise it is refused because of the
   * pipe, or else because the mailbox is full, and nothing is put anywhere.
   */
  lemma Delivers(k: KState, step: Step, k': KState, x: Pid, s: SubId)
    requires KInv(k) && Next(k, step, k') && k.running == Some(x) && step.Syscall? && step.call.Deliver?
    requires ValidTopic(step.call.topic) && Listens(k.m, s, step.call.topic, true) && HasBox(k.m, s)
    ensures HasBox(k'.m, s)
    ensures Sent(k, step, k', k.m.nextAck, x) <==> Room(k, s) && MayEnter(PipeOf(k, s), x)
    ensures Gets(k, k', x, Error(PipeReserved)) <==> !MayEnter(PipeOf(k, s), x)
    ensures Gets(k, k', x, Error(Mail.Delivery(QueueFull))) <==> MayEnter(PipeOf(k, s), x) && !Room(k, s)
    ensures if Room(k, s) && MayEnter(PipeOf(k, s), x)
      then
        && Parks(k, k', x, step.call) && Items(k', s) == Items(k, s) + [MessageOf(step.call, k.m.nextAck)]
        && PipeOf(k', s) == if PipeOf(k, s).NoPipe? then NoPipe else ConnectedTo(x)
      else k'.m.mailboxes == k.m.mailboxes && k'.m.pending == k.m.pending && k'.m.results == k.m.results
  {
    hide KInv, Next, CallEffect, CallSafe, EventsFired, MayCall, Listens, MInv;
    FreshDeliver(k, step, k', x);
    StepEffect(k, step, k', x);
    DeliverEffect(k.m, x, step.call, s);
  }

  /** Without a target there is nothing to do but to say so. */
  lemma DeliversNowhere(k: KState, step: Step, k': KState, x: Pid)
    requires KInv(k) && Next(k, step, k') && k.running == Some(x) && step.Syscall? && step.call.Deliver?
    ensures Gets(k, k', x, Error(InvalidTopic)) <==> !ValidTopic(step.call.topic)
    ensures !ValidTopic(step.call.topic) ==> k'.m == k.m
    ensures ValidTopic(step.call.topic) && (forall s :: !Listens(k.m, s, step.call.topic, true)) ==>
      Gets(k, k', x, Error(Mail.Delivery(NoSubscriber))) && k'.m == k.m
  {
    hide KInv, Next, CallEffect, CallSafe, EventsFired, MayCall, Listens, MInv;
    FreshDeliver(k, step, k', x);
    StepEffect(k, step, k', x);
    NobodyEffect(k.m, x, step.call);
    if ValidTopic(step.call.topic) { ValidIsNotInvalid(k.m, x, step.call); }
  }

  lemma ValidIsNotInvalid(m: MState, x: Pid, call: Call)
    requires x !in m.results && call.Deliver? && CallSafe(m, x, call) && ValidTopic(call.topic)
    ensures var r := CallEffect(m, x, call).1; r.RepeatAfter? || (r.Continue? && r.reply != Error(InvalidTopic))
  {
    hide FindAll;
  }

  /** The process in the kernel behind a topic of a kernel service. */
  predicate Served(m: MState, s: SubId) {
    s in m.mailboxes && m.mailboxes[s].None?
  }

  lemma ServedEffect(m: MState, x: Pid, call: Call, s: SubId)
    requires MInv(m) && x !in m.results && call.Deliver? && CallSafe(m, x, call) && ValidTopic(call.topic)
    requires Listens(m, s, call.topic, true) && Served(m, s)
    ensures var (m', r, events) := CallEffect(m, x, call);
      && m'.pending == m.pending
      && match call.service
         case Reply(topic, data) =>
           && ((forall l :: !Listens(m, l, topic, true)) ==> r == Continue(Error(Mail.Delivery(NoSubscriber))))
           && forall l :: Listens(m, l, topic, true) ==>
                && HasBox(m, l) && HasBox(m', l)
                && if |Box(m, l).queue.items| < 100
                   then
                     && r == Continue(Value(0))
                     && Box(m', l).queue.items == Box(m, l).queue.items + [Message(topic, data, Option.None)]
                   else r == Continue(Error(Mail.Delivery(QueueFull))) && m'.mailboxes == m.mailboxes
         case _ => r == Continue(Error(Mail.Delivery(NegativeAcknowledgement))) && m'.mailboxes == m.mailboxes
  {
    hide ListOk, OwnersOk, EventsOk, SendersOk, AcksOk, PipesOk, FindAll, Listens;
    TargetIs(m, call.topic, s);
    if call.service.Reply? {
      var topic := call.service.topic;
      if forall l :: !Listens(m, l, topic, true) { NoTarget(m, topic); }
      forall l | Listens(m, l, topic, true) ensures FindAll(m.list, topic, true) != {}
        && Only(FindAll(m.list, topic, true)) == l { TargetIs(m, topic, l); }
    }
  }

  /** A kernel service refuses, or its reply goes to whoever listens to it, and the sender is told how that went. */
  lemma DeliversToKernel(k: KState, step: Step, k': KState, x: Pid, s: SubId)
    requires KInv(k) && Next(k, step, k') && k.running == Some(x) && step.Syscall? && step.call.Deliver?
    requires ValidTopic(step.call.topic) && Listens(k.m, s, step.call.topic, true) && Served(k.m, s)
    ensures k'.m.pending == k.m.pending
    ensures match step.call.service
      case Reply(topic, data) =>
        && (Gets(k, k', x, Error(Mail.Delivery(NoSubscriber))) <==> forall l :: !Listens(k.m, l, topic, true))
        && forall l :: Listens(k.m, l, topic, true) ==>
             && HasBox(k.m, l) && HasBox(k'.m, l)
             && (Gets(k, k', x, Error(Mail.Delivery(QueueFull))) <==> !Room(k, l))
             && (Gets(k, k', x, Value(0)) <==> Room(k, l))
             && Items(k', l) == Items(k, l) + if Room(k, l) then [Message(topic, data, Option.None)] else []
      case _ => Gets(k, k', x, Error(Mail.Delivery(NegativeAcknowledgement))) && k'.m.mailboxes == k.m.mailboxes
  {
    hide KInv, Next, CallEffect, CallSafe, EventsFired, MayCall, Listens, MInv;
    FreshDeliver(k, step, k', x);
    StepEffect(k, step, k', x);
    ServedEffect(k.m, x, step.call, s);
  }

  lemma ReplyEffect(m: MState, x: Pid, call: Call)
    requires MInv(m) && call.DeliverReply? && CallSafe(m, x, call)
    ensures var (m', r, events) := CallEffect(m, x, call);
      if !ValidTopic(call.topic) then m' == m && r == Continue(Error(InvalidTopic))
      else
        && ((forall s :: !Listens(m, s, call.topic, true)) ==>
              m' == m && r == Continue(Error(Mail.Delivery(NoSubscriber))))
        && forall s :: Listens(m, s, call.topic, true) ==>
             && HasBox(m, s) && HasBox(m', s)
             && if |Box(m, s).queue.items| < 100
                then
                  && r == Continue(Value(0))
                  && Box(m', s).queue.items == Box(m, s).queue.items + [Message(call.topic, call.data, Option.None)]
                else r == Continue(Error(Mail.Delivery(QueueFull))) && m' == m
  {
    hide ListOk, OwnersOk, EventsOk, SendersOk, AcksOk, PipesOk, FindAll, Listens;
    if ValidTopic(call.topic) {
      var topic := call.topic;
      if forall s :: !Listens(m, s, topic, true) { NoTarget(m, topic); }
      forall s | Listens(m, s, topic, true) ensures FindAll(m.list, topic, true) != {}
        && Only(FindAll(m.list, topic, true)) == s { TargetIs(m, topic, s); }
    }
  }

  /** A reply needs no acknowledgement: it is in the mailbox at once, or nobody listens, or the mailbox is full. */
  lemma Replies(k: KState, step: Step, k': KState, x: Pid)
    requires KInv(k) && Next(k, step, k') && k.running == Some(x) && step.Syscall? && step.call.DeliverReply?
    ensures k'.m.pending == k.m.pending
    ensures var topic := step.call.topic;
      && (Gets(k, k', x, Error(InvalidTopic)) <==> !ValidTopic(topic))
      && (ValidTopic(topic) ==>
            && (Gets(k, k', x, Error(Mail.Delivery(NoSubscriber))) <==> forall s :: !Listens(k.m, s, topic, true))
            && forall s :: Listens(k.m, s, topic, true) ==>
                 && HasBox(k.m, s) && HasBox(k'.m, s)
                 && (Gets(k, k', x, Error(Mail.Delivery(QueueFull))) <==> !Room(k, s))
                 && (Gets(k, k', x, Value(0)) <==> Room(k, s))
                 && Items(k', s) == Items(k, s)
                      + if Room(k, s) then [Message(topic, step.call.data, Option.None)] else [])
  {
    hide KInv, Next, CallEffect, CallSafe, EventsFired, MayCall, Listens, MInv, NotSending, QInv;
    RunningFacts(k, x);
    StepEffect(k, step, k', x);
    ReplyEffect(k.m, x, step.call);
    ReplyPending(k.m, x, step.call);
  }

  lemma ReplyPending(m: MState, x: Pid, call: Call)
    requires call.DeliverReply? && CallSafe(m, x, call)
    ensures CallEffect(m, x, call).0.pending == m.pending
    ensures var r := CallEffect(m, x, call).1;
      r.Continue? && (r.reply == Error(InvalidTopic) <==> !ValidTopic(call.topic))
  {
    hide FindAll;
  }

  // ----- Publishing -----

  /** The message is put behind all others in every mailbox that listens to it and has room, and nowhere else. */
  ghost predicate Spreads(k: KState, k': KState, topic: Topic, data: Data) {
    forall s ::
      && (HasBox(k'.m, s) <==> HasBox(k.m, s))
      && (HasBox(k.m, s) ==>
            var arrives := Listens(k.m, s, topic, false) && Room(k, s);
            && PipeOf(k', s) == PipeOf(k, s)
            && Items(k', s) == Items(k, s) + (if arrives then [Message(topic, data, Option.None)] else [])
            && Box(k'.m, s).queue.event == if arrives then Option.None else Box(k.m, s).queue.event)
  }

  lemma PublishSpreads(k: KState, k': KState, topic: Topic, data: Data)
    requires BoxesOk(k.m) && PublishSafe(k.m, topic) && k'.m == Mail.Publish(k.m, topic, data).0
    ensures Spreads(k, k', topic, data)
    ensures k'.m == k.m.(mailboxes := k'.m.mailboxes) && k'.m.mailboxes.Keys == k.m.mailboxes.Keys
  {
    hide FindAll, Listens;
    forall s ensures Listens(k.m, s, topic, false) <==> s in FindAll(k.m.list, topic, false) {
      ListensIff(k.m, s, topic, false);
    }
  }

  lemma PublishEffect(m: MState, x: Pid, call: Call)
    requires call.Publish? && CallSafe(m, x, call)
    ensures if ValidTopic(call.topic)
      then
        && PublishSafe(m, call.topic) && CallEffect(m, x, call).0 == Mail.Publish(m, call.topic, call.data).0
        && CallEffect(m, x, call).1 == Continue(Value(0))
      else CallEffect(m, x, call).0 == m && CallEffect(m, x, call).1 == Continue(Error(InvalidTopic))
  {
    hide FindAll, PublishTo, PublishSafe;
  }

  /** Publishing always succeeds on a valid topic, and reaches everybody who listens and has room. */
  lemma Publishes(k: KState, step: Step, k': KState, x: Pid)
    requires KInv(k) && Next(k, step, k') && k.running == Some(x) && step.Syscall? && step.call.Publish?
    ensures Gets(k, k', x, Error(InvalidTopic)) <==> !ValidTopic(step.call.topic)
    ensures Gets(k, k', x, Value(0)) <==> ValidTopic(step.call.topic)
    ensures if ValidTopic(step.call.topic) then Spreads(k, k', step.call.topic, step.call.data) else k'.m == k.m
    ensures k'.m == k.m.(mailboxes := k'.m.mailboxes)
  {
    hide KInv, Next, CallEffect, CallSafe, EventsFired, MayCall, Mail.Publish, PublishSafe, BoxesOk, Spreads;
    StepEffect(k, step, k', x);
    BoxesFromInv(k);
    PublishEffect(k.m, x, step.call);
    if ValidTopic(step.call.topic) { PublishSpreads(k, k', step.call.topic, step.call.data); }
  }

  /** A hardware interrupt reaches the same mailboxes as a message of the same topic would. */
  lemma IrqSpreads(k: KState, step: Step, k': KState)
    requires KInv(k) && Next(k, step, k') && step.Irq?
    ensures Spreads(k, k', step.topic, step.data) && k'.m == k.m.(mailboxes := k'.m.mailboxes)
    ensures k'.procs == k.procs && k'.nextPid == k.nextPid
  {
    hide KInv, EventsFired, Mail.Publish, PublishSafe, BoxesOk, Spreads;
    BoxesFromInv(k);
    PublishSpreads(k, k', step.topic, step.data);
  }

  // ----- Subscribing -----

  /** The text is one the filter may have: a topic, or with the prefix bit a prefix of one. */
  predicate Proper(call: Call)
    requires call.Subscribe?
  {
    if call.prefix then ValidPrefix(call.filter) else ValidTopic(call.filter)
  }

  function FilterOf(call: Call): TopicFilter
    requires call.Subscribe? && Proper(call)
  {
    if call.prefix then Prefix(call.filter) else Exact(call.filter)
  }

  /** Some topic would reach both this subscription and the new one, and one of them is reliable. */
  ghost predicate Clashes(m: MState, f: TopicFilter, reliable: bool) {
    exists t, topic: Topic ::
      t in m.list.targets && (t.reliable || reliable) && Matches(t.filter, topic) && Matches(f, topic)
  }

  lemma ClashesIff(m: MState, f: TopicFilter, reliable: bool)
    ensures Clashes(m, f, reliable) <==> Conflicts(m.list.targets, f, reliable)
  {
    hide ContainsFilter, Matches;
    if t, topic: Topic :|
      t in m.list.targets && (t.reliable || reliable) && Matches(t.filter, topic) && Matches(f, topic)
    {
      var i :| 0 <= i < |m.list.targets| && m.list.targets[i] == t;
      ContainsFilterIsOverlap(f, t.filter);
      assert Conflict(m.list.targets[i], f, reliable);
    }
    if i :| 0 <= i < |m.list.targets| && Conflict(m.list.targets[i], f, reliable) {
      var t := m.list.targets[i];
      ContainsFilterIsOverlap(f, t.filter);
      var topic: Topic :| Matches(f, topic) && Matches(t.filter, topic);
      assert t in m.list.targets;
    }
  }

  /** One more mailbox, empty and with nobody waiting on it; the others are as they were. */
  ghost predicate NewBox(m: MState, m': MState, id: SubId, pipe: PipeMode) {
    && !HasBox(m, id) && HasBox(m', id) && Box(m', id).queue.items == [] && Box(m', id).queue.event.None?
    && Box(m', id).pipe == pipe
    && (forall s :: s != id ==> (HasBox(m', s) <==> HasBox(m, s)) && (HasBox(m, s) ==> Box(m', s) == Box(m, s)))
  }

  /** A new subscription: listed with its filter, owned by its subscriber, a pipe if all three bits are set. */
  ghost predicate Subscribed(m: MState, m': MState, x: Pid, call: Call, id: SubId)
    requires call.Subscribe? && Proper(call)
  {
    && NewBox(m, m', id, if call.prefix && call.reliable && call.pipeBit then NotConnected else NoPipe)
    && (forall t :: t in m'.list.targets <==> t in m.list.targets || t == Target(FilterOf(call), call.reliable, id))
    && (forall p, s: SubId :: Owns(m', p, s) <==> Owns(m, p, s) || (p == x && s == id))
    && m'.pending == m.pending && m'.results == m.results
  }

  lemma SubscribeAdds(m: MState, x: Pid, f: TopicFilter, reliable: bool, pipe: bool)
    requires m.list.next !in m.mailboxes && !Conflicts(m.list.targets, f, reliable)
    ensures var (m', r) := Mail.Subscribe(m, x, f, reliable, pipe);
      && r == Ok(m.list.next) && m'.list == Insert(m.list, f, reliable).0
      && NewBox(m, m', m.list.next, if pipe then NotConnected else NoPipe)
      && m'.owned == m.owned[x := (if x in m.owned then m.owned[x] else {}) + {m.list.next}]
      && m'.pending == m.pending && m'.results == m.results
  {
    hide Conflicts, Inserted;
  }

  lemma NewOwner(m: MState, m': MState, x: Pid, id: SubId)
    requires m'.owned == m.owned[x := (if x in m.owned then m.owned[x] else {}) + {id}]
    ensures forall p, s: SubId :: Owns(m', p, s) <==> Owns(m, p, s) || (p == x && s == id)
  {
  }

  lemma SubscribedNow(m: MState, x: Pid, call: Call)
    requires ListOk(m) && call.Subscribe? && Proper(call) && !Conflicts(m.list.targets, FilterOf(call), call.reliable)
    ensures var (m', r) :=
        Mail.Subscribe(m, x, FilterOf(call), call.reliable, call.pipeBit && call.prefix && call.reliable);
      r == Ok(m.list.next) && Subscribed(m, m', x, call, m.list.next)
  {
    hide Conflicts, Inserted, ListInv, Owns, FilterOf, Proper, Mail.Subscribe, NewBox;
    var pipe := call.pipeBit && call.prefix && call.reliable;
    InsertKeepsInv(m.list, FilterOf(call), call.reliable);
    MailOps.NextIsNew(m);
    SubscribeAdds(m, x, FilterOf(call), call.reliable, pipe);
    NewOwner(m, Mail.Subscribe(m, x, FilterOf(call), call.reliable, pipe).0, x, m.list.next);
  }

  lemma SubscribeEffect(m: MState, x: Pid, call: Call)
    requires MInv(m) && call.Subscribe? && CallSafe(m, x, call)
    ensures var (m', r, _) := CallEffect(m, x, call);
      if !Proper(call) then m' == m && r == Continue(Error(InvalidTopic))
      else if Clashes(m, FilterOf(call), call.reliable) then m' == m && r == Continue(Error(Exclusion))
      else r == Continue(Value(m.list.next)) && Subscribed(m, m', x, call, m.list.next)
  {
    hide ListOk, OwnersOk, BoxesOk, EventsOk, SendersOk, AcksOk, PipesOk, Clashes, Conflicts, Subscribed;
    if Proper(call) {
      var f := FilterOf(call);
      ClashesIff(m, f, call.reliable);
      if Conflicts(m.list.targets, f, call.reliable) {
        var pipe := call.pipeBit && call.prefix && call.reliable;
        assert Mail.Subscribe(m, x, f, call.reliable, pipe) == (m, Err(Exclusion));
      } else {
        SubscribedNow(m, x, call);
      }
      hide Mail.Subscribe;
    }
  }

  /** A subscription is refused for its text, or else exactly when it clashes with one that is there. */
  lemma Subscribes(k: KState, step: Step, k': KState, x: Pid)
    requires KInv(k) && Next(k, step, k') && k.running == Some(x) && step.Syscall? && step.call.Subscribe?
    ensures Gets(k, k', x, Error(InvalidTopic)) <==> !Proper(step.call)
    ensures Proper(step.call) ==> var f := FilterOf(step.call);
      && (Gets(k, k', x, Error(Exclusion)) <==> Clashes(k.m, f, step.call.reliable))
      && (!Clashes(k.m, f, step.call.reliable) ==>
            exists id :: Gets(k, k', x, Value(id)) && Subscribed(k.m, k'.m, x, step.call, id))
    ensures !(exists id :: Gets(k, k', x, Value(id))) ==> k'.m == k.m
  {
    hide KInv, Next, CallEffect, CallSafe, EventsFired, MayCall, MInv, NotSending, QInv, Subscribed, Clashes;
    RunningFacts(k, x);
    StepEffect(k, step, k', x);
    SubscribeEffect(k.m, x, step.call);
  }

  /** A kernel service is refused exactly like a process; otherwise it is listed, with no mailbox and no owner. */
  lemma ServiceSubscribes(m: MState, f: TopicFilter)
    requires MInv(m)
    ensures var (m', r) := KernelSubscribe(m, f); var id := m.list.next;
      if Clashes(m, f, true) then m' == m && r == Err(Exclusion)
      else
        && r == Ok(id) && id !in m.mailboxes && Served(m', id)
        && (forall t :: t in m'.list.targets <==> t in m.list.targets || t == Target(f, true, id))
        && (forall s :: s in m.mailboxes ==> s in m'.mailboxes && m'.mailboxes[s] == m.mailboxes[s])
        && m'.owned == m.owned
  {
    hide OwnersOk, BoxesOk, EventsOk, SendersOk, AcksOk, PipesOk, Clashes, Conflicts, Inserted, ListInv;
    ClashesIff(m, f, true);
    InsertKeepsInv(m.list, f, true);
    MailOps.NextIsNew(m);
  }

  // ----- Unsubscribing -----

  /** The subscription is gone, and nothing else about subscriptions has changed. */
  ghost predicate Cancelled(m: MState, m': MState, s: SubId) {
    && (forall t :: t in m'.list.targets <==> t in m.list.targets && t.id != s)
    && (forall p, l: SubId :: Owns(m', p, l) <==> Owns(m, p, l) && l != s)
    && (forall l :: l in m'.mailboxes <==> l in m.mailboxes && l != s)
    && (forall l :: l in m'.mailboxes ==> m'.mailboxes[l] == m.mailboxes[l])
  }

  lemma UnsubscribeEffect(m: MState, x: Pid, call: Call)
    requires MInv(m) && call.Unsubscribe? && CallSafe(m, x, call)
    ensures var (m', r, _) := CallEffect(m, x, call);
      if Owns(m, x, call.sub) then r == Continue(Value(0)) && Cancelled(m, m', call.sub)
      else r == Continue(Error(NotOwner)) && m' == m
  {
    hide ListOk, BoxesOk, EventsOk, SendersOk, AcksOk, PipesOk, Without;
    if Owns(m, x, call.sub) {
      WithoutMembers(m.list.targets, call.sub);
      UnsubscribeOwns(m, x, call.sub);
    }
  }

  lemma UnsubscribeReleases(m: MState, x: Pid, call: Call, a: AckId)
    requires MInv(m) && call.Unsubscribe? && CallSafe(m, x, call) && Owns(m, x, call.sub) && a in m.pending
    ensures var m' := CallEffect(m, x, call).0; var p := m.pending[a].sender;
      if exists i: nat :: Queued(m, call.sub, i, a)
      then a !in m'.pending && p in m'.results && m'.results[p] == Failed(NoSubscriber)
      else a in m'.pending && m'.pending[a] == m.pending[a] && p !in m'.results
  {
    hide ListOk, BoxesOk, EventsOk, PipesOk;
    if i: nat :| Queued(m, call.sub, i, a) { assert a in Acks(Box(m, call.sub).queue.items); }
    var acks := Acks(Box(m, call.sub).queue.items);
    if a in acks {
      var i :| 0 <= i < |Box(m, call.sub).queue.items| && Box(m, call.sub).queue.items[i].ack == Some(a);
      assert Queued(m, call.sub, i, a);
    }
    assert a in acks ==> m.pending[a].sender in Senders(m, acks);
  }

  /**
   * Unsubscribing is refused exactly when the subscription is not the caller's own. It frees exactly the
   * senders whose messages still lie there: they are told there is no subscriber, and are not blocked any more.
   */
  lemma Unsubscribes(k: KState, step: Step, k': KState, x: Pid)
    requires KInv(k) && Next(k, step, k') && k.running == Some(x) && step.Syscall? && step.call.Unsubscribe?
    ensures Gets(k, k', x, Error(NotOwner)) <==> !Owns(k.m, x, step.call.sub)
    ensures Gets(k, k', x, Value(0)) <==> Owns(k.m, x, step.call.sub)
    ensures if Owns(k.m, x, step.call.sub) then Cancelled(k.m, k'.m, step.call.sub) else k'.m == k.m
    ensures Owns(k.m, x, step.call.sub) ==> forall a :: a in k.m.pending ==>
      var p := k.m.pending[a].sender;
      if exists i: nat :: Queued(k.m, step.call.sub, i, a)
      then a !in k'.m.pending && p in k'.m.results && k'.m.results[p] == Failed(NoSubscriber) && !Blocked(k'.q, p)
      else a in k'.m.pending && p !in k'.m.results && Blocked(k'.q, p)
  {
    hide KInv, Next, CallEffect, CallSafe, EventsFired, MayCall, MInv, NotSending, QInv, Cancelled, Blocked;
    RunningFacts(k, x);
    StepEffect(k, step, k', x);
    UnsubscribeEffect(k.m, x, step.call);
    if Owns(k.m, x, step.call.sub) {
      NextKeepsInv(k, step, k');
      forall a | a in k.m.pending
        ensures var p := k.m.pending[a].sender;
          if exists i: nat :: Queued(k.m, step.call.sub, i, a)
          then a !in k'.m.pending && p in k'.m.results && k'.m.results[p] == Failed(NoSubscriber) && !Blocked(k'.q, p)
          else a in k'.m.pending && p !in k'.m.results && Blocked(k'.q, p)
      {
        UnsubscribeReleases(k.m, x, step.call, a);
        SenderState(k', k.m.pending[a].sender, a);
      }
    }
  }

  /** Who has a verdict is not blocked; who has a delivery out is. */
  lemma SenderState(k: KState, p: Pid, a: AckId)
    requires KInv(k)
    ensures p in k.m.results ==> !Blocked(k.q, p)
    ensures a in k.m.pending && k.m.pending[a].sender == p ==> Blocked(k.q, p)
  {
    hide MInv, Placement;
    if p in k.m.results { assert ProcOk(k, p); }
    if a in k.m.pending && k.m.pending[a].sender == p { assert SenderOk(k, a); }
  }

  // ----- Acknowledging -----

  lemma AcknowledgeEffect(m: MState, x: Pid, call: Call)
    requires call.Acknowledge? && CallSafe(m, x, call)
    ensures call.ack in m.pending && CallEffect(m, x, call).1 == Continue(Value(0))
    ensures CallEffect(m, x, call).0 == m.(pending := m.pending - {call.ack}, results := m.results[
      m.pending[call.ack].sender := if call.positive then Accepted else Failed(NegativeAcknowledgement)])
  {
  }

  /** An acknowledgement ends the one delivery it names, tells its sender how, and wakes it. */
  lemma Acknowledged(k: KState, step: Step, k': KState, x: Pid)
    requires KInv(k) && Next(k, step, k') && k.running == Some(x) && step.Syscall? && step.call.Acknowledge?
    ensures var a := step.call.ack;
      && Gets(k, k', x, Value(0)) && k'.m.mailboxes == k.m.mailboxes && k'.m.list == k.m.list
      && a in k.m.pending && k'.m.pending == k.m.pending - {a}
      && var p := k.m.pending[a].sender;
        && Blocked(k.q, p) && p in k'.q.ready && k'.procs[p] == k.procs[p]
        && p in k'.m.results && k'.m.results - {p} == k.m.results - {p}
        && VerdictReply(k'.m.results[p]) ==
             if step.call.positive then Value(0) else Error(Mail.Delivery(NegativeAcknowledgement))
  {
    hide KInv, Next, CallEffect, CallSafe, EventsFired, MayCall, MInv, NotSending, QInv, Blocked;
    RunningFacts(k, x);
    StepEffect(k, step, k', x);
    AcknowledgeEffect(k.m, x, step.call);
    NextKeepsInv(k, step, k');
    var a := step.call.ack;
    SenderState(k, k.m.pending[a].sender, a);
    SenderState(k', k.m.pending[a].sender, a);
    SenderIsReady(k', k.m.pending[a].sender);
    assert k.m.pending[a].sender != x;
  }

  lemma SenderIsReady(k: KState, p: Pid)
    requires KInv(k) && p in k.m.results && k.running != Some(p)
    ensures p in k.procs && p in k.q.ready
  {
    hide MInv, QInv;
    assert ProcOk(k, p);
  }
}
