/**
 * Scheduler and system call layer as the kernel keeps them. Every entry into the kernel is a method
 * that is shown to make one step of the machine, and so to keep its invariant, without panicking.
 */
module LiveKernel {
  import opened Common
  import opened Topics
  import opened Waits
  import opened Queues
  import opened Subscriptions
  import opened Mail
  import opened MailInvariant
  import opened MailEnds
  import opened LiveQueues
  import opened LiveMail
  import opened Kernel
  import opened KernelInvariant
  import opened KernelSteps
  import opened KernelEnds
  import opened KernelSafety
  import opened KernelTheorems

  /** What the interrupt handler is told to do next. */
  datatype ProcessSwitch = Idle | Resume(pid: Pid) | RepeatSyscall(pid: Pid)

  function SwitchInfo(k: KState): ProcessSwitch {
    if k.running.None? || k.running.value !in k.procs then Idle
    else if k.procs[k.running.value].repeat then RepeatSyscall(k.running.value)
    else Resume(k.running.value)
  }

  /** A process is resumed with what it has, or its call is repeated first; nobody is when nobody runs. */
  lemma SwitchTells(k: KState, p: Pid)
    requires KInv(k)
    ensures SwitchInfo(k).Idle? <==> k.running.None?
    ensures SwitchInfo(k) == Resume(p) <==> k.running == Some(p) && !k.procs[p].repeat
    ensures SwitchInfo(k) == RepeatSyscall(p) <==>
      k.running == Some(p) && k.procs[p].repeat && k.procs[p].frame.Calling? && Repeatable(k.procs[p].frame.call)
  {
    hide MInv, QInv, SenderOk;
    if k.running.Some? { assert ProcOk(k, k.running.value); }
  }

  /** The rest of a select appended to the events collected so far. */
  function After(es: seq<EventId>, r: Selection): Selection {
    match r case Ready(i) => Ready(|es| + i) case Wait(more) => Wait(es + more)
  }

  lemma AfterNone(r: Selection)
    ensures After([], r) == r
  {
    if r.Wait? { assert [] + r.events == r.events; }
  }

  lemma AfterMore(es: seq<EventId>, e: EventId, r: Selection)
    ensures After(es, match r case Ready(i) => Ready(i + 1) case Wait(more) => Wait([e] + more)) == After(es + [e], r)
  {
    if r.Wait? { assert es + ([e] + r.events) == es + [e] + r.events; }
  }

  lemma ResultFlat(m: MState, pid: Pid, call: Call)
    requires CallSafe(m, pid, call)
    ensures var r := CallEffect(m, pid, call).1; r.Switch? || r.RepeatAfter? ==> Flat(r.wait)
  {
    if call.Select? && call.subs != [] { SelectEvents(m, call.subs); }
  }

  lemma {:induction false} SelectEvents(m: MState, subs: seq<SubId>)
    requires SelectSafe(m, subs)
    ensures SelectFrom(m, subs).1.Wait? ==> |SelectFrom(m, subs).1.events| == |subs|
    decreases |subs|
  {
    if subs != [] && Box(m, subs[0]).queue.items == [] { SelectEvents(ArmBox(m, subs[0]).0, subs[1..]); }
  }

  // ----- Why the lookups succeed -----

  lemma ListFromInv(k: KState)
    requires KInv(k)
    ensures ListInv(k.m.list)
  {
  }

  lemma FoundInTable(k: KState)
    requires KInv(k)
    ensures k.running.Some? ==> k.running.value in k.procs
  {
  }

  lemma SwitchTable(k: KState, schedule: Option<WaitFor>, now: Instant)
    requires schedule.Some? ==> Flat(schedule.value)
    ensures SwitchTo(k, schedule, now).procs == k.procs && SwitchCurrentOrNext(k).procs == k.procs
  {
    hide Give;
  }

  /** Whoever a switch selects is in the table. */
  ghost predicate Found(k: KState, schedule: Option<WaitFor>, now: Instant)
    requires schedule.Some? ==> Flat(schedule.value)
  {
    var k' := SwitchTo(k, schedule, now);
    k'.running.Some? ==> k'.running.value in k.procs
  }

  /** A call that gives up the processor leads to a process in the table. */
  lemma SwitchFinds(k: KState, x: Pid, call: Call, k1: KState, r: SyscallResult, now: Instant, note: Data)
    requires x in k.procs && MayCall(k, x, call) && (k.procs[x].repeat ==> Repeatable(call))
    requires Handled(k, x, call, k1, r) && (r.Switch? || r.RepeatAfter?)
    ensures Flat(r.wait)
    ensures Found(Record(k1, x, call, r), Some(r.wait), now)
    ensures Finished(Record(k1, x, call, r), x, r, now, note, SwitchTo(Record(k1, x, call, r), Some(r.wait), now))
  {
    hide KInv, CallEffect, CallSafe, EventsFired, SwitchTo;
    assert Flat(r.wait) by { ResultFlat(k.m, x, call); }
    var k' := SwitchTo(Record(k1, x, call, r), Some(r.wait), now);
    assert Finished(Record(k1, x, call, r), x, r, now, note, k');
    CallStepKeeps(k, x, call, now, note, k');
    FoundInTable(k');
    SwitchTable(Record(k1, x, call, r), Some(r.wait), now);
  }

  lemma EndedFinds(k: KState, x: Pid, call: Call, k1: KState, now: Instant, note: Data, k3: KState)
    requires x in k.procs && MayCall(k, x, call) && (k.procs[x].repeat ==> Repeatable(call))
    requires Handled(k, x, call, k1, Terminate) && Terminated(Record(k1, x, call, Terminate), x, note, k3)
    ensures Found(k3, Option.None, now)
    ensures Finished(Record(k1, x, call, Terminate), x, Terminate, now, note, SwitchTo(k3, Option.None, now))
  {
    hide KInv, CallEffect, CallSafe, EventsFired, SwitchTo, Terminated;
    var k' := SwitchTo(k3, Option.None, now);
    assert Finished(Record(k1, x, call, Terminate), x, Terminate, now, note, k');
    CallStepKeeps(k, x, call, now, note, k');
    FoundInTable(k');
    SwitchTable(k3, Option.None, now);
  }

  lemma IsCallStep(k: KState, x: Pid, call: Call, k1: KState, r: SyscallResult, now: Instant, note: Data, k': KState)
    requires Handled(k, x, call, k1, r) && Finished(Record(k1, x, call, r), x, r, now, note, k')
    ensures CallStep(k, x, call, now, note, k')
  {
    hide Handled, Finished;
  }

  lemma IsCrashStep(k: KState, note: Data, k1: KState, now: Instant)
    requires k.running.Some? && k.running.value in k.procs && !k.procs[k.running.value].repeat
    requires Terminated(k, k.running.value, note, k1)
    ensures Next(k, Step.Crash(now, note), SwitchTo(k1, Option.None, now))
  {
    hide Terminated, SwitchTo;
  }

  lemma ContinueFinishes(k: KState, x: Pid, r: SyscallResult, now: Instant, note: Data)
    requires r.Continue?
    ensures Finished(k, x, r, now, note, k)
  {
  }

  lemma EndIsSafe(k: KState, x: Pid, call: Call, k1: KState)
    requires KInv(k) && k.running == Some(x) && Handled(k, x, call, k1, Terminate)
    ensures EndProcessSafe(k1.m, x) && PublishSafe(EndProcess(k1.m, x).0, TERMINATED_TOPIC)
  {
    hide KInv, EventsFired, EndProcessSafe, PublishSafe, EndProcess;
    RunningFacts(k, x);
    TerminateNeverPanics(k, x);
  }

  lemma TickFinds(k: KState, now: Instant)
    requires KInv(k)
    ensures Found(k.(q := AfterTick(k.q, now)), Some(WaitFor.None), now)
  {
    hide KInv, SwitchTo, AfterTick;
    TickKeeps(k, now);
    FoundInTable(SwitchTo(k.(q := AfterTick(k.q, now)), Some(WaitFor.None), now));
    SwitchTable(k.(q := AfterTick(k.q, now)), Some(WaitFor.None), now);
  }

  lemma IrqFinds(k: KState, topic: Topic, data: Data, q': QState)
    requires KInv(k) && PublishSafe(k.m, topic) && EventsFired(k.q, Mail.Publish(k.m, topic, data).1, q')
    ensures var k' := SwitchCurrentOrNext(k.(m := Mail.Publish(k.m, topic, data).0, q := q'));
      k'.running.Some? ==> k'.running.value in k.procs
  {
    hide KInv, SwitchCurrentOrNext, EventsFired, PublishSafe, Mail.Publish;
    IrqKeeps(k, topic, data, q');
    FoundInTable(SwitchCurrentOrNext(k.(m := Mail.Publish(k.m, topic, data).0, q := q')));
    SwitchTable(k.(m := Mail.Publish(k.m, topic, data).0, q := q'), Option.None, 0);
  }

  lemma CrashFinds(k: KState, x: Pid, note: Data, k1: KState, now: Instant)
    requires KInv(k) && k.running == Some(x) && x in k.procs && !k.procs[x].repeat && Terminated(k, x, note, k1)
    ensures Found(k1, Option.None, now)
  {
    hide KInv, SwitchTo, Terminated;
    TerminatedKeeps(k, x, note, k1);
    SwitchIdleKeeps(k1, now);
    FoundInTable(SwitchTo(k1, Option.None, now));
    SwitchTable(k1, Option.None, now);
  }

  lemma PublishSafeInv(k: KState, topic: Topic)
    requires KInv(k)
    ensures PublishSafe(k.m, topic)
  {
    hide MInv, PublishSafe;
    PublishIsSafe(k.m, topic);
  }

  class Scheduler {
    const queues: SchedulerQueues
    const ipc: Manager
    var procs: map<Pid, Proc>
    var running: Option<Pid>
    var sliceEnd: Option<Instant>
    var nextPid: Pid

    constructor ()
      ensures Init(View())
      ensures fresh(queues) && fresh(ipc) && fresh(ipc.subscriptions)
    {
      queues := new SchedulerQueues();
      ipc := new Manager();
      procs, running, sliceEnd, nextPid := map[], Option.None, Option.None, 1;
      new;
      assert ipc.View() == Booted([]);
    }

    ghost function View(): KState
      reads this, queues, ipc, ipc.subscriptions
    {
      KState(procs, queues.View(), running, sliceEnd, nextPid, ipc.View())
    }

    // ----- Scheduling -----

    /** The process id is used up even when there is no memory for the process. */
    method Spawn(enoughMemory: bool) returns (r: Option<Pid>)
      modifies this, queues
      ensures View() == if enoughMemory then Spawned(old(View())) else old(View()).(nextPid := old(nextPid) + 1)
      ensures r == if enoughMemory then Some(old(nextPid)) else Option.None
    {
      var pid := nextPid;
      nextPid := nextPid + 1;
      if !enoughMemory { return Option.None; }
      procs := procs[pid := Proc(false, Fresh)];
      queues.Accept(pid, WaitFor.None);
      r := Some(pid);
    }

    method Switch(schedule: Option<WaitFor>, now: Instant) returns (r: ProcessSwitch)
      requires schedule.Some? ==> Flat(schedule.value)
      requires Found(View(), schedule, now)
      modifies this, queues
      ensures View() == SwitchTo(old(View()), schedule, now)
      ensures r == SwitchInfo(View())
    {
      if schedule.Some? && running.Some? { queues.Accept(running.value, schedule.value); }
      var pid := queues.Take();
      running := pid;
      if pid.None? {
        sliceEnd := Option.None;
        return Idle;
      }
      sliceEnd := Some(now + TIME_SLICE);
      r := if procs[pid.value].repeat then RepeatSyscall(pid.value) else Resume(pid.value);
    }

    method SwitchCurrent() returns (r: ProcessSwitch)
      requires var k := SwitchCurrentOrNext(View()); k.running.Some? ==> k.running.value in procs
      modifies this, queues
      ensures View() == SwitchCurrentOrNext(old(View()))
      ensures r == SwitchInfo(View())
    {
      if running.None? { running := queues.Take(); }
      if running.None? { return Idle; }
      r := if procs[running.value].repeat then RepeatSyscall(running.value) else Resume(running.value);
    }

    method NextTick(now: Instant) returns (t: Option<Instant>)
      ensures t == KernelTheorems.NextTick(View(), now)
    {
      t := if queues.sleeping == [] then Option.None else Some(queues.sleeping[0].0);
      if sliceEnd.Some? { t := Some(if t.Some? && t.value < sliceEnd.value then t.value else sliceEnd.value); }
      if t.Some? { t := Some(if t.value < now + MIN_EXEC_TIME then t.value else now + MIN_EXEC_TIME); }
    }

    method Publish(topic: Topic, data: Data)
      requires PublishSafe(ipc.View(), topic)
      modifies queues, ipc
      ensures View() == old(View()).(m := Mail.Publish(old(ipc.View()), topic, data).0, q := queues.View())
      ensures EventsFired(old(queues.View()), Mail.Publish(old(ipc.View()), topic, data).1, queues.View())
    {
      var events := ipc.Publish(topic, data);
      queues.ConsumeEvents(events);
    }

    /** Ends a process if it is alive; it is not running afterwards either way. */
    method End(target: Pid, note: Data)
      requires target in procs ==>
        EndProcessSafe(ipc.View(), target) && PublishSafe(EndProcess(ipc.View(), target).0, TERMINATED_TOPIC)
      modifies this, queues, ipc, ipc.subscriptions
      ensures target in old(procs) ==> Terminated(old(View()), target, note, View())
      ensures target !in old(procs) ==>
        View() == if old(running) == Some(target) then old(View()).(running := Option.None, sliceEnd := Option.None)
          else old(View())
    {
      ghost var k := View();
      if target in procs {
        procs := procs - {target};
        queues.OnProcessOver(target);
        ghost var qa := queues.View();
        ipc.OnProcessOver(queues, target);
        ghost var qb := queues.View();
        Publish(TERMINATED_TOPIC, note);
        assert ProcessOver(k.q, target, qa) && EventsFired(qa, EndProcess(k.m, target).1, qb);
      }
      if running == Some(target) { running, sliceEnd := Option.None, Option.None; }
    }

    // ----- System calls -----

    /** Looks at the subscriptions in turn until one has a message. */
    method Select(subs: seq<SubId>) returns (r: Selection)
      requires SelectSafe(ipc.View(), subs)
      modifies ipc
      ensures (ipc.View(), r) == SelectFrom(old(ipc.View()), subs)
      ensures View() == old(View()).(m := ipc.View())
    {
      ghost var m := ipc.View();
      var es := [];
      var i := 0;
      assert subs[0..] == subs;
      AfterNone(SelectFrom(m, subs).1);
      while i < |subs|
        invariant i <= |subs| && |es| == i && SelectSafe(ipc.View(), subs[i..])
        invariant var (m', r) := SelectFrom(ipc.View(), subs[i..]); SelectFrom(m, subs) == (m', After(es, r))
      {
        assert subs[i..][0] == subs[i] && subs[i..][1..] == subs[i + 1..];
        var e := ipc.WaitingFor(subs[i]);
        if e.None? { return Ready(i); }
        AfterMore(es, e.value, SelectFrom(ipc.View(), subs[i + 1..]).1);
        es := es + [e.value];
        i := i + 1;
      }
      assert subs[|subs|..] == [] && After(es, Wait([])) == Wait(es) by { assert es + [] == es; }
      r := Wait(es);
    }

    /** What a call does to the manager, and the events it raises. */
    method Answer(pid: Pid, call: Call) returns (r: SyscallResult, events: set<EventId>)
      requires CallSafe(ipc.View(), pid, call) && ListInv(ipc.subscriptions.View()) && !call.Exec?
      modifies ipc, ipc.subscriptions
      ensures (ipc.View(), r, events) == CallEffect(old(ipc.View()), pid, call)
    {
      events := {};
      match call {
        case Exit(_) => r := Terminate;
        case Fault => r := Terminate;
        case Plain(reply) => r := Continue(reply);
        case Yield(reply) => r := SyscallResult.Switch(reply, WaitFor.None);
        case Sleep(_, until) => r := SyscallResult.Switch(Value(0), Time(until));
        case Subscribe(filter, prefix, reliable, pipeBit) =>
          var f := NewFilter(filter, !prefix);
          if f.None? { r := Continue(Refused(Ipc(InvalidTopic))); }
          else {
            var id := ipc.Subscribe(pid, f.value, reliable, pipeBit && prefix && reliable);
            r := Kernel.Answer(id);
          }
        case Unsubscribe(sub) =>
          var done;
          done, events := ipc.Unsubscribe(pid, sub);
          r := Done(done);
        case Publish(topic, data) =>
          if !ValidTopic(topic) { r := Continue(Refused(Ipc(InvalidTopic))); }
          else {
            events := ipc.Publish(topic, data);
            r := Continue(Value(0));
          }
        case Deliver(topic, data, service) =>
          if pid in ipc.results {
            var done := ipc.AfterDelivery(pid);
            r := Done(done);
          } else if !ValidTopic(topic) { r := Continue(Refused(Ipc(InvalidTopic))); }
          else {
            var delivered;
            delivered, events := ipc.Deliver(pid, topic, data, service);
            r := if delivered.Ok? && delivered.value.ToProcess?
              then RepeatAfter(Event(delivered.value.event)) else Done(delivered);
          }
        case DeliverReply(topic, data) =>
          if !ValidTopic(topic) { r := Continue(Refused(Ipc(InvalidTopic))); }
          else {
            var done;
            done, events := ipc.DeliverReply(topic, data);
            r := Done(done);
          }
        case Receive(sub, _) =>
          var polled := ipc.Receive(pid, sub);
          match polled {
            case Err(e) => r := Continue(Refused(Ipc(e)));
            case Ok(Popped(message)) => r := Continue(Received(message));
            case Ok(WaitOn(e)) => r := RepeatAfter(Event(e));
          }
        case Acknowledge(_, ack, positive) =>
          events := ipc.Acknowledge(ack, positive);
          r := Continue(Value(0));
        case Select(subs, nonblocking) =>
          if subs == [] { r := Continue(Refused(EmptyListArgument)); }
          else {
            var found := Select(subs);
            match found {
              case Ready(i) => r := Continue(Value(i));
              case Wait(es) => r := if nonblocking then Continue(Refused(WouldBlock))
                else RepeatAfter(FirstOf(EventList(es)));
            }
          }
      }
    }

    /** The handler of one call, up to its result. */
    method Handle(pid: Pid, call: Call) returns (r: SyscallResult)
      requires CallSafe(ipc.View(), pid, call) && ListInv(ipc.subscriptions.View())
      modifies this, queues, ipc, ipc.subscriptions
      ensures Handled(old(View()), pid, call, View(), r)
    {
      if call.Exec? {
        if call.launch.NoImage? { return Continue(Refused(OutOfMemory)); }
        var child := Spawn(call.launch.Launched?);
        r := Continue(if child.Some? then Value(child.value) else Refused(OutOfMemory));
      } else {
        var events;
        r, events := Answer(pid, call);
        queues.ConsumeEvents(events);
      }
    }

    /** Handles the call of the running process and does what its result asks for. */
    method HandleSyscall(call: Call, now: Instant, note: Data)
      requires running.Some? && running.value in procs && CallSafe(ipc.View(), running.value, call)
      requires MayCall(View(), running.value, call) && (procs[running.value].repeat ==> Repeatable(call))
      modifies this, queues, ipc, ipc.subscriptions
      ensures CallStep(old(View()), old(running).value, call, now, note, View())
    {
      ghost var k := View();
      var pid := running.value;
      hide KInv, CallEffect, CallSafe, CallStep, Handled, Finished, SwitchTo, Found, Terminated,
        EndProcessSafe, PublishSafe, EndProcess, ListInv, Recorded, Repeatable, SwitchInfo, PublishTo, Mail.Publish;
      assert ListInv(ipc.subscriptions.View()) by { ListFromInv(k); }
      hide MayCall;
      var r := Handle(pid, call);
      ghost var k1 := View();
      procs := procs[pid := Recorded(call, r)];
      assert View() == Record(k1, pid, call, r);
      match r {
        case Continue(_) => ContinueFinishes(View(), pid, r, now, note);
        case Switch(_, s) =>
          SwitchFinds(k, pid, call, k1, r, now, note);
          var _ := Switch(Some(s), now);
        case RepeatAfter(s) =>
          SwitchFinds(k, pid, call, k1, r, now, note);
          var _ := Switch(Some(s), now);
        case Terminate =>
          EndIsSafe(k, pid, call, k1);
          End(pid, note);
          EndedFinds(k, pid, call, k1, now, note, View());
          var _ := Switch(Option.None, now);
      }
      IsCallStep(k, pid, call, k1, r, now, note, View());
    }

    // ----- The entries into the kernel -----

    /** A system call that keeps to what the kernel asks of its callers makes one step, without a panic on the way. */
    method Syscall(call: Call, now: Instant, note: Data)
      requires KInv(View()) && running.Some? && running.value in procs && !procs[running.value].repeat
      requires Polite(ipc.View(), running.value, call) && Disciplined(ipc.View(), call)
      modifies this, queues, ipc, ipc.subscriptions
      ensures Next(old(View()), Step.Syscall(call, now, note), View()) && KInv(View())
    {
      ghost var k := View();
      hide KInv, CallSafe, CallStep, Polite;
      PanicsIffImpolite(k, running.value, call);
      HandleSyscall(call, now, note);
      NextKeepsInv(k, Step.Syscall(call, now, note), View());
    }

    /** Repeats the system call of a process that has been woken. */
    method Repeat(now: Instant, note: Data)
      requires KInv(View()) && running.Some? && running.value in procs
      requires procs[running.value].repeat && procs[running.value].frame.Calling?
      requires var call := procs[running.value].frame.call;
        && (call.Select? ==> forall s :: s in call.subs ==> Owns(ipc.View(), running.value, s))
        && (call.Receive? ==> FirstFits(ipc.View(), running.value, call.sub, call.fits))
      modifies this, queues, ipc, ipc.subscriptions
      ensures Next(old(View()), Step.Repeat(now, note), View()) && KInv(View())
    {
      ghost var k := View();
      hide KInv, CallSafe, CallStep;
      RepeatMayCall(k, running.value);
      RepeatNeverPanics(k, running.value);
      HandleSyscall(procs[running.value].frame.call, now, note);
      NextKeepsInv(k, Step.Repeat(now, note), View());
    }

    method Tick(now: Instant) returns (r: ProcessSwitch)
      requires KInv(View())
      modifies this, queues
      ensures Next(old(View()), Step.Tick(now), View()) && KInv(View()) && r == SwitchInfo(View())
    {
      ghost var k := View();
      hide KInv, SwitchTo, Found, AfterTick;
      TickFinds(k, now);
      queues.OnTick(now);
      r := Switch(Some(WaitFor.None), now);
      NextKeepsInv(k, Step.Tick(now), View());
    }

    /** Publishes a hardware interrupt, and resumes whoever is to run. */
    method Irq(topic: Topic, data: Data, reschedule: bool)
      requires KInv(View())
      modifies this, queues, ipc
      ensures Next(old(View()), Step.Irq(topic, data, reschedule), View()) && KInv(View())
    {
      ghost var k := View();
      hide KInv, EventsFired, PublishSafe, Mail.Publish, SwitchCurrentOrNext;
      PublishSafeInv(k, topic);
      Publish(topic, data);
      ghost var q' := queues.View();
      IrqFinds(k, topic, data, q');
      if reschedule { var _ := SwitchCurrent(); }
      assert EventsFired(k.q, Mail.Publish(k.m, topic, data).1, q');
      NextKeepsInv(k, Step.Irq(topic, data, reschedule), View());
    }

    method Crash(now: Instant, note: Data) returns (r: ProcessSwitch)
      requires KInv(View()) && running.Some? && running.value in procs && !procs[running.value].repeat
      modifies this, queues, ipc, ipc.subscriptions
      ensures Next(old(View()), Step.Crash(now, note), View()) && KInv(View()) && r == SwitchInfo(View())
    {
      ghost var k := View();
      var pid := running.value;
      hide KInv, Next, SwitchTo, Found, Terminated, EndProcessSafe, PublishSafe, EndProcess, MInv, QInv,
        ProcessExists, NotSending;
      RunningFacts(k, pid);
      TerminateNeverPanics(k, pid);
      End(pid, note);
      ghost var k1 := View();
      CrashFinds(k, pid, note, k1, now);
      IsCrashStep(k, note, k1, now);
      r := Switch(Option.None, now);
      NextKeepsInv(k, Step.Crash(now, note), View());
    }
  }
}
