/** The kernel invariant over every run: placement, wake-ups, and which calls can panic. */
module KernelSafety {
  import opened Common
  import opened Topics
  import opened Waits
  import opened Queues
  import opened Subscriptions
  import opened Mail
  import opened MailInvariant
  import opened MailBoxes
  import opened MailOps
  import opened MailEnds
  import opened Kernel
  import opened KernelInvariant
  import opened KernelSteps
  import opened KernelCalls
  import opened KernelEnds

  // ----- Termination -----

  lemma GoneKeeps(k: KState, k': KState, x: Pid)
    requires KInvX(k, x) && k.running == Some(x) && x !in k.m.results && NotSending(k.m, x)
    requires k' == k.(procs := k.procs - {x}, running := Option.None, sliceEnd := Option.None)
    ensures KInv(k')
  {
    hide MInv, QInv;
    forall p | p in k'.procs ensures ProcOk(k', p) {
      assert ProcOk(k, p);
      if k.procs[p].repeat {
        forall w | w in k'.q.waiting && k'.q.waiting[w] == p ensures WaitOk(k', p, k.procs[p].frame.call, w) {
          SameWaitOk(k, k', p, k.procs[p].frame.call, w);
        }
      }
    }
    forall a | a in k'.m.pending ensures SenderOk(k', a) { assert SenderOk(k, a); }
  }

  lemma TerminatedMail(m: MState, x: Pid, note: Data)
    requires MInv(m) && NotSending(m, x) && EndProcessSafe(m, x) && PublishSafe(EndProcess(m, x).0, TERMINATED_TOPIC)
    ensures var (m1, events) := EndProcess(m, x);
      var (m2, more) := Mail.Publish(m1, TERMINATED_TOPIC, note);
      && MInv(m1) && MailStep(m, m1, events, x) && NotSending(m1, x)
      && MInv(m2) && MailStep(m1, m2, more, x) && NotSending(m2, x)
  {
    hide ListOk, OwnersOk, BoxesOk, EventsOk, SendersOk, AcksOk, PipesOk, MailStep;
    EndProcessKeeps(m, x);
    var m1 := EndProcess(m, x).0;
    PublishKeeps(m1, FindAll(m1.list, TERMINATED_TOPIC, false), Message(TERMINATED_TOPIC, note, Option.None), x);
  }

  lemma TerminatedKeeps(k: KState, x: Pid, note: Data, k': KState)
    requires KInv(k) && k.running == Some(x) && x in k.procs && !k.procs[x].repeat && Terminated(k, x, note, k')
    ensures KInv(k') && k'.running.None? && x !in k'.procs
  {
    hide MInv, QInv, MailStep, Placement, ProcOk, SenderOk, EventsFired, ProcessOver, EndProcessSafe, PublishSafe;
    RunningFacts(k, x);
    ExemptAny(k, x);
    TerminatedMail(k.m, x, note);
    var (m1, events) := EndProcess(k.m, x);
    var (m2, more) := Mail.Publish(m1, TERMINATED_TOPIC, note);
    var qa, qb :| ProcessOver(k.q, x, qa) && EventsFired(qa, events, qb) && EventsFired(qb, more, k'.q);
    var ka := k.(q := qa);
    OverWakes(k, ka, x);
    WakesKeep(k, ka, ExitWaiters(k.q, x), {}, x);
    var kb := k.(q := qb, m := m1);
    assert QInv(qa) && QInv(qb) by { Unpack(ka); FireKeepsQ(qa, events, qb); }
    FireWakes(ka, kb, events, x);
    WakesKeep(ka, kb, Waiters(qa, events), events, x);
    var kc := k.(q := k'.q, m := m2);
    FireWakes(kb, kc, more, x);
    WakesKeep(kb, kc, Waiters(qb, more), more, x);
    GoneKeeps(kc, k', x);
  }

  lemma FireKeepsQ(q: QState, events: set<EventId>, q': QState)
    requires QInv(q) && EventsFired(q, events, q')
    ensures QInv(q')
  {
    FiredKeepsInv(q, events, q');
  }

  // ----- The steps -----

  lemma CallStepKeeps(k: KState, x: Pid, call: Call, now: Instant, note: Data, k': KState)
    requires k.running == Some(x) && x in k.procs && MayCall(k, x, call) && CallStep(k, x, call, now, note, k')
    requires k.procs[x].repeat ==> Repeatable(call)
    ensures KInv(k')
  {
    hide MInv, QInv, Placement, ProcOk, SenderOk, KInv, KInvX,
      EventsFired, CallEffect, CallOutcome, Terminated, SwitchTo, Spawned, CallSafe;
    var k1, r :| Handled(k, x, call, k1, r) && Finished(Record(k1, x, call, r), x, r, now, note, k');
    if call.Exec? {
      ExecKeeps(k, x, call, k1, r);
    } else {
      HandledKeeps(k, x, call, k1, r);
      EndKeeps(k1, x, call, r, now, note, k');
    }
  }

  lemma ExecKeeps(k: KState, x: Pid, call: Call, k1: KState, r: SyscallResult)
    requires KInv(k) && k.running == Some(x) && x in k.procs && call.Exec? && Handled(k, x, call, k1, r)
    requires !k.procs[x].repeat
    ensures KInv(Record(k1, x, call, r)) && r.Continue?
  {
    hide MInv, QInv, Placement, SenderOk, EventsFired;
    RunningFacts(k, x);
    if call.launch.Launched? { SpawnedKeeps(k); } else { NextPidKeeps(k); }
    RunningFacts(k1, x);
    ExemptAny(k1, x);
    RecordKeeps(k1, x, Recorded(call, r));
    AnsweredKeeps(Record(k1, x, call, r), x);
  }

  lemma EndKeeps(k: KState, x: Pid, call: Call, r: SyscallResult, now: Instant, note: Data, k': KState)
    requires KInvX(k, x) && k.running == Some(x) && x in k.procs && CallOutcome(k.m, x, call, r)
    requires Finished(Record(k, x, call, r), x, r, now, note, k')
    ensures KInv(k')
  {
    hide MInv, QInv, Placement, ProcOk, SenderOk, EventsFired, Terminated, SwitchTo, KInv, KInvX, AllArmed;
    var k2 := Record(k, x, call, r);
    RecordKeeps(k, x, Recorded(call, r));
    match r
    case Continue(_) => AnsweredKeeps(k2, x);
    case Switch(_, s) => AnsweredSwitchKeeps(k2, x, s, now);
    case RepeatAfter(s) => RepeatKeeps(k2, x, call, s, now);
    case Terminate =>
      AnsweredKeeps(k2, x);
      var k3 :| Terminated(k2, x, note, k3) && k' == SwitchTo(k3, Option.None, now);
      TerminatedKeeps(k2, x, note, k3);
      SwitchIdleKeeps(k3, now);
  }

  lemma TickKeeps(k: KState, now: Instant)
    requires KInv(k)
    ensures KInv(SwitchTo(k.(q := AfterTick(k.q, now)), Some(WaitFor.None), now))
  {
    hide MInv, QInv, Placement, ProcOk, SenderOk, AfterTick, SwitchTo, KInvX;
    var k1 := k.(q := AfterTick(k.q, now));
    var nobody := k.nextPid;
    NobodySends(k);
    ExemptAny(k, nobody);
    assert QInv(k.q) by { Unpack(k); }
    TickWakesAll(k, k1, now, nobody);
    WakesKeep(k, k1, Due(k.q, now), {}, nobody);
    CloseGone(k1, nobody);
    PreemptKeeps(k1, now);
  }

  /** The next process id is nobody's yet. */
  lemma NobodySends(k: KState)
    requires KInv(k)
    ensures NotSending(k.m, k.nextPid) && k.nextPid !in k.procs
  {
    hide MInv, QInv, ProcOk;
    forall a | a in k.m.pending ensures k.m.pending[a].sender != k.nextPid { assert SenderOk(k, a); }
  }

  lemma PreemptKeeps(k: KState, now: Instant)
    requires KInv(k)
    ensures KInv(SwitchTo(k, Some(WaitFor.None), now))
  {
    hide MInv, QInv, Placement, SenderOk, Give;
    if k.running.Some? {
      var x := k.running.value;
      var k1 := k.(q := Give(k.q, x, WaitFor.None), running := Option.None, sliceEnd := Option.None);
      RunningFacts(k, x);
      ExemptAny(k, x);
      GivenKeeps(k, k1, x, WaitFor.None);
      assert ProcOk(k, x);
      assert !Blocked(k1.q, x) by { GiveTables(k.q, x, WaitFor.None); assert k1.q.waiting == k.q.waiting; }
      CloseOk(k1, x);
      SwitchGivenKeeps(k, k1, x, WaitFor.None, now);
    } else {
      SwitchIdleKeeps(k, now);
      assert SwitchTo(k, Some(WaitFor.None), now) == SwitchTo(k, Option.None, now);
    }
  }

  lemma IrqKeeps(k: KState, topic: Topic, data: Data, q': QState)
    requires KInv(k) && PublishSafe(k.m, topic) && EventsFired(k.q, Mail.Publish(k.m, topic, data).1, q')
    ensures var k1 := k.(m := Mail.Publish(k.m, topic, data).0, q := q');
      KInv(k1) && KInv(SwitchCurrentOrNext(k1))
  {
    hide MInv, QInv, Placement, ProcOk, SenderOk, EventsFired, MailStep, KInvX, PublishTo;
    var (m', events) := Mail.Publish(k.m, topic, data);
    var k1 := k.(m := m', q := q');
    var nobody := k.nextPid;
    NobodySends(k);
    ExemptAny(k, nobody);
    assert QInv(k.q) by { Unpack(k); }
    PublishKeeps(k.m, FindAll(k.m.list, topic, false), Message(topic, data, Option.None), nobody);
    FireWakes(k, k1, events, nobody);
    WakesKeep(k, k1, Waiters(k.q, events), events, nobody);
    CloseGone(k1, nobody);
    if k1.running.None? { SwitchIdleKeeps(k1, 0); }
  }

  /** Every step of the machine keeps the invariant. */
  lemma NextKeepsInv(k: KState, step: Step, k': KState)
    requires KInv(k) && Next(k, step, k')
    ensures KInv(k')
  {
    hide KInv, KInvX, Placement, ProcOk, SenderOk, MInv, QInv, EventsFired, CallStep, Terminated, SwitchTo, Spawned,
      PublishSafe, Mail.Publish, CallSafe, CallEffect;
    match step
    case Boot => SpawnedKeeps(k);
    case Syscall(call, now, note) => CallStepKeeps(k, k.running.value, call, now, note, k');
    case Repeat(now, note) =>
      RepeatMayCall(k, k.running.value);
      CallStepKeeps(k, k.running.value, k.procs[k.running.value].frame.call, now, note, k');
    case Tick(now) => TickKeeps(k, now);
    case Irq(topic, data, reschedule) =>
      var (m', events) := Mail.Publish(k.m, topic, data);
      var q' :| EventsFired(k.q, events, q')
        && k' == if reschedule then SwitchCurrentOrNext(k.(m := m', q := q')) else k.(m := m', q := q');
      IrqKeeps(k, topic, data, q');
    case Crash(now, note) =>
      var k1 :| Terminated(k, k.running.value, note, k1) && k' == SwitchTo(k1, Option.None, now);
      TerminatedKeeps(k, k.running.value, note, k1);
      SwitchIdleKeeps(k1, now);
  }

  lemma RepeatMayCall(k: KState, x: Pid)
    requires KInv(k) && k.running == Some(x) && x in k.procs && k.procs[x].repeat && k.procs[x].frame.Calling?
    ensures Repeatable(k.procs[x].frame.call) && MayCall(k, x, k.procs[x].frame.call)
  {
    hide MInv, QInv;
    assert ProcOk(k, x);
  }

  lemma {:induction false} BootedInv(filters: seq<TopicFilter>)
    ensures MInv(Booted(filters)) && Booted(filters).pending == map[] && Booted(filters).results == map[]
  {
    hide KernelSubscribe;
    if filters == [] {
      assert Booted([]).mailboxes.Keys == Ids(Booted([]).list);
    } else {
      BootedInv(filters[..|filters| - 1]);
      KernelSubscribeKeeps(Booted(filters[..|filters| - 1]), filters[|filters| - 1], 0);
    }
  }

  lemma InitInv(k: KState)
    requires Init(k)
    ensures KInv(k)
  {
    hide MInv, QInv, Booted;
    var filters :| k.m == Booted(filters);
    BootedInv(filters);
    EmptyQueues();
  }

  lemma EmptyQueues()
    ensures QInv(QState([], map[], 0, [], map[], map[]))
  {
  }

  /** The invariant holds in every state of every run. */
  lemma {:induction false} RunKeepsInv(ks: seq<KState>, steps: seq<Step>, i: nat)
    requires Run(ks, steps) && Init(ks[0]) && i < |ks|
    ensures KInv(ks[i])
  {
    hide KInv, Next;
    if i == 0 { InitInv(ks[0]); }
    else {
      RunKeepsInv(ks, steps, i - 1);
      NextKeepsInv(ks[i - 1], steps[i - 1], ks[i]);
    }
  }
}
