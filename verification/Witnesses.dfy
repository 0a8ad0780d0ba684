/** Runs that show where a promise one might expect of the kernel ends. */
module Witnesses {
  import opened Common
  import opened Topics
  import opened Waits
  import opened Queues
  import opened Subscriptions
  import opened EventQueues
  import opened Mail
  import opened MailEnds
  import opened Kernel
  import opened KernelInvariant
  import opened KernelTheorems
  import opened OrderRuns
  import opened DeliveryRuns
  import opened Bytes
  import opened Arguments

  // ----- Steps that wake nobody -----

  /** The state after a call that ends nothing and triggers nothing. */
  ghost function AfterCall(k: KState, x: Pid, call: Call, now: Instant): KState
    requires CallSafe(k.m, x, call)
  {
    var (m', r, _) := CallEffect(k.m, x, call);
    var k1 := Record(k.(m := m'), x, call, r);
    if (r.Switch? || r.RepeatAfter?) && Flat(r.wait) then SwitchTo(k1, Some(r.wait), now) else k1
  }

  lemma QuietCall(k: KState, x: Pid, call: Call, now: Instant, note: Data)
    requires k.running == Some(x) && x in k.procs && !k.procs[x].repeat && !call.Exec? && !call.Acknowledge?
    requires CallSafe(k.m, x, call) && CallEffect(k.m, x, call).2 == {}
    requires var r := CallEffect(k.m, x, call).1; r.Continue? || ((r.Switch? || r.RepeatAfter?) && Flat(r.wait))
    ensures Next(k, Step.Syscall(call, now, note), AfterCall(k, x, call, now))
  {
    hide CallEffect, CallSafe, SwitchTo, EventsFired;
    FiredNone(k.q);
    var (m', r, _) := CallEffect(k.m, x, call);
    assert Handled(k, x, call, k.(m := m'), r);
    assert Finished(Record(k.(m := m'), x, call, r), x, r, now, note, AfterCall(k, x, call, now));
  }

  // ----- A process that is ended while it sleeps -----

  /** A freshly booted manager has mailboxes of kernel services only. */
  ghost predicate ServicesOnly(m: MState) {
    && m.owned == map[]
    && (forall s :: s in m.mailboxes ==> m.mailboxes[s].None?)
    && (forall t :: t in m.list.targets ==> t.reliable)
  }

  lemma {:induction false} BootedServices(filters: seq<TopicFilter>)
    ensures ServicesOnly(Booted(filters))
  {
    if filters != [] {
      var m := Booted(filters[..|filters| - 1]);
      BootedServices(filters[..|filters| - 1]);
      InsertedOnly(m.list.targets, Target(filters[|filters| - 1], true, m.list.next));
    }
  }

  lemma {:induction false} InsertedOnly(s: seq<Target>, v: Target)
    ensures forall t :: t in Inserted(s, v) ==> t in s || t == v
  {
    hide Less;
    if s != [] { InsertedOnly(s[1..], v); }
  }

  lemma NobodyHears(m: MState, x: Pid, note: Data)
    requires ServicesOnly(m)
    ensures HangUpAll(m, x) == (m, {})
    ensures PublishSafe(m, TERMINATED_TOPIC) && Mail.Publish(m, TERMINATED_TOPIC, note) == (m, {})
  {
    assert FindAll(m.list, TERMINATED_TOPIC, false) == {};
    assert HangUpAll(m, x).0.mailboxes == m.mailboxes && HangUpAll(m, x).1 == {};
    var (m', events) := Mail.Publish(m, TERMINATED_TOPIC, note);
    assert m'.mailboxes == m.mailboxes && events == {};
  }

  lemma EndsQuietly(m: MState, x: Pid, note: Data)
    requires ServicesOnly(m)
    ensures EndProcessSafe(m, x) && EndProcess(m, x) == (m, {})
  {
    hide DropAll, HangUpAll;
    DropNothing(m);
    assert m.owned - {x} == m.owned && m.(owned := m.owned - {x}) == m && OwnedBy(m, x) == {};
    NobodyHears(m, x, note);
    var none: set<EventId> := {};
    assert none + none == none;
  }

  /** Process 1 sleeping, and nothing else in the queues. */
  const ASLEEP := QState([], map[0 := 1], 1, [(5, 0)], map[], map[])

  lemma GoesToSleep(q: QState)
    requires q == QState([], map[], 0, [], map[], map[])
    ensures Give(q, 1, Time(5)) == ASLEEP
  {
    assert !Resolved(q, 1, Time(5)) && Reduce(Time(5)) == Time(5) && Atoms(Time(5)) == [Time(5)];
    var q1 := CreateWait(q, 1);
    assert RegisterAll(q1, [], 0) == q1;
    assert [Time(5)][..0] == [];
    assert Register(q1, Time(5), 0).sleeping == [(5, 0)];
  }

  /**
   * A run that boots a process and puts it to sleep. Ending the sleeper from outside leaves it
   * behind its wait id, with no entry in the process table.
   */
  lemma EndingASleeper(start: KState, note: Data) returns (ks: seq<KState>, steps: seq<Step>, k': KState)
    requires Init(start)
    ensures Run(ks, steps) && ks[0] == start && 1 in ks[|steps|].procs && Blocked(ks[|steps|].q, 1)
    ensures Terminated(ks[|steps|], 1, note, k') && 1 !in k'.procs && Blocked(k'.q, 1) && !Placement(k')
  {
    hide Next, Placement, Terminated;
    var filters :| start.m == Booted(filters);
    BootedServices(filters);
    ks, steps := FallsAsleep(start, note);
    var sleeps := ks[|steps|];
    assert Blocked(ASLEEP, 1) by { assert 0 in ASLEEP.waiting && ASLEEP.waiting[0] == 1; }
    k' := sleeps.(procs := sleeps.procs - {1});
    SleeperEnds(sleeps, note, k');
    GhostMisplaced(k', 1);
  }

  lemma FallsAsleep(start: KState, note: Data) returns (ks: seq<KState>, steps: seq<Step>)
    requires start.procs == map[] && start.running.None? && start.nextPid == 1
      && start.q == QState([], map[], 0, [], map[], map[])
    ensures Run(ks, steps) && ks[0] == start
    ensures var k := ks[|steps|]; k.m == start.m && k.q == ASLEEP && k.running.None? && 1 in k.procs
  {
    hide CallEffect, CallSafe;
    var booted := Spawned(start);
    assert booted.q == QState([1], map[], 0, [], map[], map[]);
    var runs := SwitchTo(booted, Some(WaitFor.None), 0);
    assert runs.q == QState([], map[], 0, [], map[], map[]) && runs.running == Some(1);
    SleepSwitches(runs.m);
    QuietCall(runs, 1, Sleep(1, 5), 0, note);
    var sleeps := AfterCall(runs, 1, Sleep(1, 5), 0);
    GoesToSleep(runs.q);
    assert sleeps.q == ASLEEP && sleeps.running.None? && sleeps.m == start.m;
    ks, steps := [start, booted, runs, sleeps], [Boot, Step.Tick(0), Step.Syscall(Sleep(1, 5), 0, note)];
    assert Next(start, Boot, booted) && Next(booted, Step.Tick(0), runs);
  }

  lemma SleepSwitches(m: MState)
    ensures CallSafe(m, 1, Sleep(1, 5))
      && CallEffect(m, 1, Sleep(1, 5)) == (m, SyscallResult.Switch(Value(0), Time(5)), {})
  {
  }

  lemma SleeperEnds(k: KState, note: Data, k': KState)
    requires ServicesOnly(k.m) && k.q == ASLEEP && k.running.None? && k' == k.(procs := k.procs - {1})
    ensures Terminated(k, 1, note, k')
  {
    hide EndProcess, EndProcessSafe, PublishSafe, Mail.Publish, ProcessOver, EventsFired;
    EndsQuietly(k.m, 1, note);
    NobodyHears(k.m, 1, note);
    SleeperOver();
    FiredNone(ASLEEP);
  }

  lemma SleeperOver()
    ensures ProcessOver(ASLEEP, 1, ASLEEP)
  {
    WokenNone(ASLEEP);
    assert ASLEEP.onProcess - {1} == ASLEEP.onProcess;
  }

  // ----- A receiver that ends without acknowledging -----

  const SERVICE := Target(Exact("initrd/read"), true, 0)
  const LISTENER := Target(Exact("a"), true, 1)

  /** The manager when a process has subscribed to one topic, next to the one kernel service. */
  function Listening(box: EventQueue<Message>, pending: map<AckId, Pending>, next: nat): MState {
    MState(ListState([LISTENER, SERVICE], 2), map[0 := Option.None, 1 := Some(Mailbox(box, NoPipe))],
      pending, map[], next,
      map[1 := {1}], next)
  }

  lemma BootedOne()
    ensures Booted([SERVICE.filter]) ==
      MState(ListState([SERVICE], 1), map[0 := Option.None], map[], map[], 0, map[], 0)
  {
    assert [SERVICE.filter][..0] == [];
    assert Booted([]) == MState(ListState([], 0), map[], map[], map[], 0, map[], 0);
    assert Inserted([], SERVICE) == [SERVICE];
  }

  lemma Subscribes(m: MState)
    requires m == MState(ListState([SERVICE], 1), map[0 := Option.None], map[], map[], 0, map[], 0)
    ensures CallEffect(m, 1, Call.Subscribe("a", false, true, false)) ==
      (Listening(Empty(MAILBOX_BUFFER_LIMIT), map[], 0), Continue(Value(1)), {})
  {
    assert !Conflict(SERVICE, LISTENER.filter, true);
    assert TextLess("a", "initrd/read");
    assert Inserted([SERVICE], LISTENER) == [LISTENER, SERVICE];
    var (m', r) := Mail.Subscribe(m, 1, LISTENER.filter, true, false);
    var after := Listening(Empty(MAILBOX_BUFFER_LIMIT), map[], 0);
    assert m'.list == after.list;
    assert m'.mailboxes == after.mailboxes;
    assert {} + {1} == {1};
    assert m'.owned == after.owned;
  }

  lemma Listeners()
    ensures FindAll(ListState([LISTENER, SERVICE], 2), "a", true) == {1} && Only({1}) == 1
    ensures FindAll(ListState([LISTENER, SERVICE], 2), TERMINATED_TOPIC, false) == {}
  {
    var l := ListState([LISTENER, SERVICE], 2);
    assert l.targets[0] == LISTENER && l.targets[1] == SERVICE;
    assert 1 in FindAll(l, "a", true);
  }

  lemma Delivers(data: Data)
    ensures var call := Call.Deliver("a", data, Nack); var m := Listening(Empty(MAILBOX_BUFFER_LIMIT), map[], 0);
      && CallSafe(m, 2, call)
      && CallEffect(m, 2, call) ==
           (Listening(EventQueue([MessageOf(call, 0)], Option.None, MAILBOX_BUFFER_LIMIT), map[0 := Pending(0, 2)], 1),
            RepeatAfter(Event(0)), {})
  {
    Listeners();
    var call := Call.Deliver("a", data, Nack);
    var m := Listening(Empty(MAILBOX_BUFFER_LIMIT), map[], 0);
    var m' := DeliverTo(m, 2, 1, "a", data).0;
    var after := Listening(EventQueue([MessageOf(call, 0)], Option.None, MAILBOX_BUFFER_LIMIT),
      map[0 := Pending(0, 2)], 1);
    assert [] + [MessageOf(call, 0)] == [MessageOf(call, 0)];
    assert m'.mailboxes == after.mailboxes;
    assert m'.pending == after.pending;
  }

  lemma Receives(message: Message, fits: Message -> bool)
    requires fits(message)
    ensures var m := Listening(EventQueue([message], Option.None, MAILBOX_BUFFER_LIMIT), map[0 := Pending(0, 2)], 1);
      && CallSafe(m, 1, Call.Receive(1, fits))
      && CallEffect(m, 1, Call.Receive(1, fits)) ==
           (Listening(Empty(MAILBOX_BUFFER_LIMIT), map[0 := Pending(0, 2)], 1), Continue(Received(message)), {})
  {
    var m := Listening(EventQueue([message], Option.None, MAILBOX_BUFFER_LIMIT), map[0 := Pending(0, 2)], 1);
    var m' := Mail.Receive(m, 1, 1).0;
    assert [message][1..] == [];
    assert m'.mailboxes == Listening(Empty(MAILBOX_BUFFER_LIMIT), map[0 := Pending(0, 2)], 1).mailboxes;
  }

  /** The manager after the listener has ended: one delivery is still outstanding. */
  function Abandoned(): MState {
    MState(ListState([SERVICE], 2), map[0 := Option.None], map[0 := Pending(0, 2)], map[], 1, map[], 1)
  }

  lemma ListenerEnds(m: MState)
    requires m == Listening(Empty(MAILBOX_BUFFER_LIMIT), map[0 := Pending(0, 2)], 1)
    ensures EndProcessSafe(m, 1) && EndProcess(m, 1) == (Abandoned(), {})
  {
    hide HangUpAll;
    var m0 := m.(owned := m.owned - {1});
    assert AcksIn(m0, {1}) == {};
    ReleaseNothing(m0);
    assert [LISTENER, SERVICE][1..] == [SERVICE] && [SERVICE][1..] == [];
    assert WithoutAll([SERVICE], {1}) == [SERVICE];
    assert m0.owned == map[];
    assert m0.mailboxes - {1} == map[0 := Option.None];
    assert DropAll(m0, {1}) == (Abandoned(), {});
    NobodyHears(Abandoned(), 1, []);
    var none: set<EventId> := {};
    assert none + none == none;
  }

  function Idle(ready: seq<Pid>): QState {
    QState(ready, map[], 0, [], map[], map[])
  }

  /** Process 2 waits for event 0. */
  const PARKED := QState([], map[0 := 2], 1, [], map[], map[0 := {0}])

  lemma Parks()
    ensures Give(Idle([1]), 2, Event(0)) == PARKED.(ready := [1])
  {
    var q := Idle([1]);
    assert !Resolved(q, 2, Event(0)) && Reduce(Event(0)) == Event(0) && Atoms(Event(0)) == [Event(0)];
    var q1 := CreateWait(q, 2);
    assert RegisterAll(q1, [], 0) == q1;
    assert [Event(0)][..0] == [];
    var none: set<WaitId> := {};
    assert none + {0} == {0};
    assert Register(q1, Event(0), 0) == PARKED.(ready := [1]);
  }

  /** Two processes, the first of them running. */
  lemma TwoBooted() returns (ks: seq<KState>, steps: seq<Step>)
    ensures Run(ks, steps) && Init(ks[0]) && |steps| == 3
    ensures ks[3] ==
      KState(map[1 := Proc(false, Fresh), 2 := Proc(false, Fresh)], Idle([2]), Some(1), Some(TIME_SLICE), 3,
      Booted([SERVICE.filter]))
  {
    var k0 := KState(map[], Idle([]), Option.None, Option.None, 1, Booted([SERVICE.filter]));
    var k1, k2 := Spawned(k0), Spawned(Spawned(k0));
    assert k1.q == Idle([1]) && k2.q == Idle([1, 2]);
    var k3 := SwitchTo(k2, Some(WaitFor.None), 0);
    assert [1, 2][1..] == [2];
    assert k3.procs == map[1 := Proc(false, Fresh), 2 := Proc(false, Fresh)];
    ks, steps := [k0, k1, k2, k3], [Boot, Boot, Step.Tick(0)];
  }

  lemma RunOn(ks: seq<KState>, steps: seq<Step>, ks': seq<KState>, steps': seq<Step>)
    requires Run(ks, steps) && Run(ks', steps') && ks'[0] == ks[|steps|]
    ensures Run(ks + ks'[1..], steps + steps')
  {
    hide Next;
    var all, does := ks + ks'[1..], steps + steps';
    forall i | 0 <= i < |does| ensures Next(all[i], does[i], all[i + 1]) {
      if i < |steps| { assert Next(ks[i], steps[i], ks[i + 1]); }
      else { assert Next(ks'[i - |steps|], steps'[i - |steps|], ks'[i - |steps| + 1]); }
    }
  }

  /** The first process subscribes and lets the second one run, which delivers and waits. */
  lemma SubscribesAndDelivers(k: KState, data: Data, note: Data) returns (ks: seq<KState>, steps: seq<Step>)
    requires k.m == Booted([SERVICE.filter]) && k.q == Idle([2]) && k.running == Some(1)
    requires k.procs == map[1 := Proc(false, Fresh), 2 := Proc(false, Fresh)]
    ensures Run(ks, steps) && |steps| == 3 && ks[0] == k
    ensures ks[2].m == Listening(Empty(MAILBOX_BUFFER_LIMIT), map[], 0) && ks[2].running == Some(2)
    ensures steps[2] == Step.Syscall(Call.Deliver("a", data, Nack), 0, note)
    ensures ks[3].q == PARKED && ks[3].running == Some(1) && ks[3].procs.Keys == {1, 2} && !ks[3].procs[1].repeat
    ensures ks[3].m ==
      Listening(EventQueue([Message("a", data, Some(0))], Option.None, MAILBOX_BUFFER_LIMIT),
        map[0 := Pending(0, 2)], 1)
  {
    hide CallEffect, CallSafe, Listening, Next, Give, Booted;
    var subscribe, deliver := Call.Subscribe("a", false, true, false), Call.Deliver("a", data, Nack);
    BootedOne();
    Subscribes(k.m);
    SubscribeSafe(k.m);
    QuietCall(k, 1, subscribe, 0, note);
    var k1 := AfterCall(k, 1, subscribe, 0);
    Yields(k1, note);
    var k2 := k1.(procs := k1.procs[1 := Proc(false, Returned(Value(0)))],
      q := Idle([1]), running := Some(2), sliceEnd := Some(TIME_SLICE));
    Delivers(data);
    QuietCall(k2, 2, deliver, 0, note);
    var k3 := AfterCall(k2, 2, deliver, 0);
    Parks();
    assert k3.q == PARKED && k3.running == Some(1);
    ks := [k, k1, k2, k3];
    steps := [Step.Syscall(subscribe, 0, note), Step.Syscall(Yield(Value(0)), 0, note), Step.Syscall(deliver, 0, note)];
  }

  lemma SubscribeSafe(m: MState)
    ensures CallSafe(m, 1, Call.Subscribe("a", false, true, false))
  {
  }

  lemma Yields(k: KState, note: Data)
    requires k.q == Idle([2]) && k.running == Some(1) && 1 in k.procs && !k.procs[1].repeat
    ensures Next(k, Step.Syscall(Yield(Value(0)), 0, note),
      k.(procs := k.procs[1 := Proc(false, Returned(Value(0)))], q := Idle([1]), running := Some(2),
        sliceEnd := Some(TIME_SLICE)))
  {
    QuietCall(k, 1, Yield(Value(0)), 0, note);
    var k' := AfterCall(k, 1, Yield(Value(0)), 0);
    assert Give(Idle([2]), 1, WaitFor.None) == Idle([2, 1]);
    assert [2, 1][1..] == [1];
    assert k'.q == Idle([1]) && k'.running == Some(2);
  }

  /** The first process receives the delivery and exits. */
  lemma ReceivesAndExits(k: KState, message: Message, note: Data) returns (ks: seq<KState>, steps: seq<Step>)
    requires k.q == PARKED && k.running == Some(1) && k.procs.Keys == {1, 2} && !k.procs[1].repeat
    requires k.m == Listening(EventQueue([message], Option.None, MAILBOX_BUFFER_LIMIT), map[0 := Pending(0, 2)], 1)
    ensures Run(ks, steps) && |steps| == 2 && ks[0] == k
    ensures steps[0].Syscall? && Got(k, steps[0], ks[1], 1) == [message] && steps[1] == Step.Syscall(Exit(0), 0, note)
    ensures ks[1].running == Some(1)
    ensures ks[2].m == Abandoned() && ks[2].q == PARKED && ks[2].running.None? && ks[2].procs == k.procs - {1}
  {
    hide CallEffect, CallSafe, Listening, Next, Give;
    var receive := Call.Receive(1, m => true);
    Receives(message, m => true);
    QuietCall(k, 1, receive, 0, note);
    var k1 := AfterCall(k, 1, receive, 0);
    var k2 := Exits(k1, note);
    assert k1.procs - {1} == k.procs - {1};
    ks, steps := [k, k1, k2], [Step.Syscall(receive, 0, note), Step.Syscall(Exit(0), 0, note)];
  }

  lemma Exits(k: KState, note: Data) returns (k': KState)
    requires k.q == PARKED && k.running == Some(1) && 1 in k.procs && !k.procs[1].repeat
    requires k.m == Listening(Empty(MAILBOX_BUFFER_LIMIT), map[0 := Pending(0, 2)], 1)
    ensures Next(k, Step.Syscall(Exit(0), 0, note), k')
    ensures k'.m == Abandoned() && k'.q == PARKED && k'.running.None? && k'.procs == k.procs - {1}
  {
    hide Listening, EndProcess, EndProcessSafe, PublishSafe, Mail.Publish, ProcessOver, EventsFired;
    var k1 := Record(k, 1, Exit(0), Terminate);
    k' := k1.(procs := k1.procs - {1}, m := Abandoned(), running := Option.None, sliceEnd := Option.None);
    assert k1.procs - {1} == k.procs - {1};
    FiredNone(PARKED);
    ListenerEnds(k.m);
    NobodyHears(Abandoned(), 1, note);
    ParkedOver();
    assert ProcessOver(k1.q, 1, PARKED) && EventsFired(PARKED, {}, PARKED) && EventsFired(PARKED, {}, k'.q);
    assert Terminated(k1, 1, note, k');
    assert Handled(k, 1, Exit(0), k, Terminate);
    assert Finished(k1, 1, Terminate, 0, note, k');
  }

  lemma ParkedOver()
    ensures ProcessOver(PARKED, 1, PARKED)
  {
    WokenNone(PARKED);
    assert PARKED.onProcess - {1} == PARKED.onProcess;
  }

  /**
   * A run in which process 2 delivers, process 1 receives the delivery and exits without an
   * acknowledgement. Process 2 is left blocked, its delivery outstanding, with nobody else alive.
   */
  lemma LeftBlocked(data: Data, note: Data) returns (ks: seq<KState>, steps: seq<Step>)
    ensures Run(ks, steps) && Init(ks[0]) && |steps| == 8
    ensures Sent(ks[5], steps[5], ks[6], 0, 2) && Got(ks[6], steps[6], ks[7], 1) == [Message("a", data, Some(0))]
    ensures ks[7].running == Some(1) && steps[7] == Step.Syscall(Exit(0), 0, note)
    ensures ks[8].procs.Keys == {2} && Blocked(ks[8].q, 2) && ks[8].m.pending == map[0 := Pending(0, 2)]
  {
    hide Listening, Next, Init, Got;
    var message := Message("a", data, Some(0));
    var ks0, steps0 := TwoBooted();
    var ks1, steps1 := SubscribesAndDelivers(ks0[3], data, note);
    var ks2, steps2 := ReceivesAndExits(ks1[3], message, note);
    assert ks1[2].m.nextAck == 0 && ks1[3].m.pending == map[0 := Pending(0, 2)] by { ListeningFields(); }
    RunOn(ks0, steps0, ks1, steps1);
    RunOn(ks0 + ks1[1..], steps0 + steps1, ks2, steps2);
    ks, steps := ks0 + ks1[1..] + ks2[1..], steps0 + steps1 + steps2;
    assert ks[5] == ks1[2] && ks[6] == ks1[3] == ks2[0] && ks[7] == ks2[1] && ks[8] == ks2[2];
    assert steps[5] == steps1[2] && steps[6] == steps2[0] && steps[7] == steps2[1];
    assert Blocked(PARKED, 2) by { assert 0 in PARKED.waiting && PARKED.waiting[0] == 2; }
  }

  lemma ListeningFields()
    ensures forall box, pending, next ::
      Listening(box, pending, next).nextAck == next && Listening(box, pending, next).pending == pending
  {
  }

  // ----- Launching with too many arguments -----

  /** Once a launch has its stack, it panics exactly when the arguments would not get through to the child. */
  lemma LaunchPanicsIff(m: MState, x: Pid, args: seq<Text>)
    requires |Encoded(args)| <= LENGTH_LIMIT && forall i :: 0 <= i < |args| ==> |args[i]| < STRING_LIMIT
    ensures CallSafe(m, x, Call.Exec(ArgsSize(args), Launched)) <==> Launches(args)
    ensures CallSafe(m, x, Call.Exec(ArgsSize(args), NoTables)) <==> Launches(args)
  {
    hide ArgsSize, Encoded;
  }

  /** One empty argument more than fits. */
  lemma TooManyArguments(m: MState, x: Pid, args: seq<Text>)
    requires |args| == 524283 && forall i :: 0 <= i < |args| ==> args[i] == []
    ensures |Encoded(args)| <= LENGTH_LIMIT && !CallSafe(m, x, Call.Exec(ArgsSize(args), Launched))
  {
    EmptyTexts(args);
    hide Le, Lens, Concat;
  }
}
