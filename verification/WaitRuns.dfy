/** Wait conditions over whole runs of the kernel: who waits is woken by the first step that meets the condition. */
module WaitRuns {
  import opened Common
  import opened Waits
  import opened Queues
  import Q = QueueRuns
  import opened Mail
  import opened MailInvariant
  import opened Kernel
  import opened KernelInvariant
  import opened KernelEnds
  import opened KernelSafety
  import opened KernelTheorems
  import opened OrderRuns

  // ----- What happens in a step -----

  /** The events triggered when a process ends: by its teardown, and by the news of it. */
  ghost function TornDown(m: MState, x: Pid): set<EventId> {
    if EndProcessSafe(m, x) then EndProcess(m, x).1 else {}
  }

  ghost function Announced(m: MState, x: Pid, note: Data): set<EventId> {
    if EndProcessSafe(m, x) && PublishSafe(EndProcess(m, x).0, TERMINATED_TOPIC)
    then Mail.Publish(EndProcess(m, x).0, TERMINATED_TOPIC, note).1 else {}
  }

  /** The events a call triggers itself. */
  ghost function CallEvents(m: MState, x: Pid, call: Call): set<EventId> {
    if CallSafe(m, x, call) then CallEffect(m, x, call).2 else {}
  }

  predicate Deadly(step: Step) {
    step.Crash? || (step.Syscall? && (step.call.Exit? || step.call.Fault?))
  }

  /** What a step lets happen: the clock moves, the running process ends, events are triggered. */
  ghost predicate Occurs(k: KState, step: Step, o: Occurrence) {
    match o
    case Ticked(now) => step == Step.Tick(now)
    case Exited(p) => Deadly(step) && k.running == Some(p)
    case Triggered(e) =>
      || (step.Irq? && PublishSafe(k.m, step.topic) && e in Mail.Publish(k.m, step.topic, step.data).1)
      || ((step.Syscall? || step.Repeat?) && k.running.Some? && e in CallEvents(k.m, k.running.value, CallOf(k, step)))
      || (Deadly(step) && k.running.Some?
           && e in TornDown(k.m, k.running.value) + Announced(k.m, k.running.value, step.note))
  }

  ghost predicate StepMeets(k: KState, step: Step, s: WaitFor) {
    exists o :: Occurs(k, step, o) && Meets(s, o)
  }

  // ----- A step as queue operations -----

  ghost function EndOps(m: MState, x: Pid, note: Data): seq<Q.QOp> {
    [Q.Over(x), Q.Fire(TornDown(m, x)), Q.Fire(Announced(m, x, note))]
  }

  ghost function ResultOps(m: MState, x: Pid, r: SyscallResult, note: Data): seq<Q.QOp> {
    match r
    case Continue(_) => []
    case Switch(_, s) => [Q.Given(x, s)]
    case RepeatAfter(s) => [Q.Given(x, s)]
    case Terminate => EndOps(m, x, note)
  }

  ghost function CallOps(k: KState, x: Pid, call: Call, note: Data): seq<Q.QOp> {
    if !CallSafe(k.m, x, call) then []
    else if call.Exec? then if call.launch.Launched? then [Q.Given(k.nextPid, WaitFor.None)] else []
    else
      [Q.Fire(CallEvents(k.m, x, call))] + ResultOps(k.m, x, CallEffect(k.m, x, call).1, note)
  }

  /** All a step does to the queues, up to taking the next process. */
  ghost function StepOps(k: KState, step: Step): seq<Q.QOp> {
    match step
    case Boot => [Q.Given(k.nextPid, WaitFor.None)]
    case Syscall(call, _, note) => if k.running.None? then [] else CallOps(k, k.running.value, call, note)
    case Repeat(_, note) => if k.running.None? then [] else CallOps(k, k.running.value, CallOf(k, step), note)
    case Tick(now) => [Q.Clock(now)] + if k.running.None? then [] else [Q.Given(k.running.value, WaitFor.None)]
    case Irq(topic, data, _) => if PublishSafe(k.m, topic) then [Q.Fire(Mail.Publish(k.m, topic, data).1)] else []
    case Crash(_, note) => if k.running.None? then [] else EndOps(k.m, k.running.value, note)
  }

  /** And then the first ready process may be taken out to run. */
  ghost predicate Leaves(q: QState, k': KState) {
    || k'.q == q
    || (q.ready != [] && k'.q == q.(ready := q.ready[1..]) && k'.running == Some(q.ready[0]))
  }

  ghost predicate Through(qs: seq<QState>, k: KState, step: Step, k': KState) {
    Q.Run(qs, StepOps(k, step)) && qs[0] == k.q && Leaves(qs[|qs| - 1], k')
  }

  lemma SwitchLeaves(k: KState, schedule: Option<WaitFor>, now: Instant)
    requires schedule.Some? ==> Flat(schedule.value)
    ensures var q := if schedule.Some? && k.running.Some? then Give(k.q, k.running.value, schedule.value) else k.q;
      Leaves(q, SwitchTo(k, schedule, now))
  {
    hide Give;
  }

  lemma EndRun(k: KState, x: Pid, note: Data, k': KState) returns (qs: seq<QState>)
    requires Terminated(k, x, note, k') && !Blocked(k.q, x)
    ensures Q.Run(qs, EndOps(k.m, x, note)) && qs[0] == k.q && qs[|qs| - 1] == k'.q
  {
    hide EndProcess, EndProcessSafe, Mail.Publish, PublishSafe, ProcessOver, EventsFired;
    var events := TornDown(k.m, x);
    var more := Announced(k.m, x, note);
    var qa, qb :| ProcessOver(k.q, x, qa) && EventsFired(qa, events, qb) && EventsFired(qb, more, k'.q);
    qs := [k.q, qa, qb, k'.q];
  }

  lemma BeforeOps(q: QState, op: Q.QOp, qs: seq<QState>, ops: seq<Q.QOp>)
    requires Q.Run(qs, ops) && Q.QNext(q, op, qs[0])
    ensures Q.Run([q] + qs, [op] + ops)
  {
    hide Q.QNext;
    var qs', ops' := [q] + qs, [op] + ops;
    forall i | 0 <= i < |ops'| ensures Q.QNext(qs'[i], ops'[i], qs'[i + 1]) {
      if i > 0 { assert Q.QNext(qs[i - 1], ops[i - 1], qs[i - 1 + 1]); }
    }
  }

  /** What the result of a call makes of the queues. */
  lemma FinishRun(k: KState, x: Pid, r: SyscallResult, now: Instant, note: Data, k': KState) returns (qs: seq<QState>)
    requires Finished(k, x, r, now, note, k') && k.running == Some(x) && !ProcessExists(k.q, x)
    ensures Q.Run(qs, ResultOps(k.m, x, r, note)) && qs[0] == k.q && Leaves(qs[|qs| - 1], k')
  {
    hide Give, Terminated, SwitchTo, EndOps;
    match r
    case Continue(_) => qs := [k.q];
    case Switch(_, s) => qs := [k.q, Give(k.q, x, s)]; SwitchLeaves(k, Some(s), now);
    case RepeatAfter(s) => qs := [k.q, Give(k.q, x, s)]; SwitchLeaves(k, Some(s), now);
    case Terminate =>
      var k1 :| Terminated(k, x, note, k1) && k' == SwitchTo(k1, Option.None, now);
      qs := EndRun(k, x, note, k1);
      SwitchLeaves(k1, Option.None, now);
  }

  lemma ExecRun(k: KState, x: Pid, call: Call, k1: KState, r: SyscallResult, note: Data) returns (qs: seq<QState>)
    requires KInv(k) && call.Exec? && Handled(k, x, call, k1, r)
    ensures Q.Run(qs, CallOps(k, x, call, note)) && qs[0] == k.q && qs[|qs| - 1] == k1.q && r.Continue?
  {
    hide Give;
    NewIsNowhere(k);
    if call.launch.Launched? { qs := [k.q, k1.q]; } else { qs := [k.q]; }
  }

  lemma NewIsNowhere(k: KState)
    requires KInv(k)
    ensures !ProcessExists(k.q, k.nextPid) && QInv(k.q)
  {
    hide MInv, ProcOk, SenderOk, QInv;
  }

  lemma CallRun(k: KState, x: Pid, call: Call, now: Instant, note: Data, k': KState) returns (qs: seq<QState>)
    requires KInv(k) && k.running == Some(x) && CallStep(k, x, call, now, note, k')
    ensures Q.Run(qs, CallOps(k, x, call, note)) && qs[0] == k.q && Leaves(qs[|qs| - 1], k')
  {
    hide KInv, CallEffect, CallSafe, EventsFired, Finished, Spawned, EndOps, Leaves, QInv, MInv, NotSending,
      ProcessExists, Q.Run;
    RunningFacts(k, x);
    var k1, r :| Handled(k, x, call, k1, r) && Finished(Record(k1, x, call, r), x, r, now, note, k');
    var k2 := Record(k1, x, call, r);
    if call.Exec? {
      qs := ExecRun(k, x, call, k1, r, note);
      RunHas(qs, CallOps(k, x, call, note));
      ContinueLeaves(k2, x, r, now, note, k');
    } else {
      FiredExists(k.q, CallEvents(k.m, x, call), k1.q);
      var rest := FinishRun(k2, x, r, now, note, k');
      qs := [k.q] + rest;
      RunHas(rest, ResultOps(k2.m, x, r, note));
      if r.Terminate? { OnlyEndsTerminate(k.m, x, call); }
      BeforeOps(k.q, Q.Fire(CallEvents(k.m, x, call)), rest, ResultOps(k2.m, x, r, note));
    }
  }

  lemma RunHas(qs: seq<QState>, ops: seq<Q.QOp>)
    requires Q.Run(qs, ops)
    ensures qs != []
  {
  }

  lemma ContinueLeaves(k: KState, x: Pid, r: SyscallResult, now: Instant, note: Data, k': KState)
    requires Finished(k, x, r, now, note, k') && r.Continue?
    ensures k' == k && Leaves(k.q, k')
  {
  }

  /** Every step of the kernel is these operations, one after the other. */
  lemma StepRun(k: KState, step: Step, k': KState) returns (qs: seq<QState>)
    requires KInv(k) && Next(k, step, k')
    ensures Through(qs, k, step, k')
  {
    hide KInv, CallStep, Terminated, EventsFired, Give, AfterTick, SwitchTo, PublishSafe, Mail.Publish, CallOps, EndOps;
    match step
    case Boot => NewIsNowhere(k); qs := [k.q, k'.q];
    case Syscall(call, now, note) => qs := CallRun(k, k.running.value, call, now, note, k');
    case Repeat(now, note) => qs := CallRun(k, k.running.value, CallOf(k, step), now, note, k');
    case Tick(now) => qs := TickRun(k, now);
    case Irq(topic, data, _) =>
      var (m', events) := Mail.Publish(k.m, topic, data);
      var q' :| EventsFired(k.q, events, q')
        && k' == if step.reschedule then SwitchCurrentOrNext(k.(m := m', q := q')) else k.(m := m', q := q');
      qs := [k.q, q'];
    case Crash(now, note) =>
      var x := k.running.value;
      RunningFacts(k, x);
      assert Finished(k, x, Terminate, now, note, k');
      qs := FinishRun(k, x, Terminate, now, note, k');
  }

  lemma TickRun(k: KState, now: Instant) returns (qs: seq<QState>)
    requires KInv(k)
    ensures Through(qs, k, Step.Tick(now), SwitchTo(k.(q := AfterTick(k.q, now)), Some(WaitFor.None), now))
  {
    hide KInv, AfterTick, Give, SwitchTo;
    NewIsNowhere(k);
    TickKeepsInv(k.q, now);
    var q1 := AfterTick(k.q, now);
    SwitchLeaves(k.(q := q1), Some(WaitFor.None), now);
    if k.running.Some? {
      RunningFacts(k, k.running.value);
      qs := [k.q, q1, Give(q1, k.running.value, WaitFor.None)];
    } else { qs := [k.q, q1]; }
  }

  // ----- What the operations mean -----

  ghost predicate SomeEnds(ops: seq<Q.QOp>, s: WaitFor) {
    exists i :: 0 <= i < |ops| && Q.Ends(ops[i], s)
  }

  lemma EndOpsMeet(m: MState, x: Pid, note: Data, s: WaitFor)
    ensures SomeEnds(EndOps(m, x, note), s) <==>
      || Meets(s, Exited(x))
      || exists e :: e in TornDown(m, x) + Announced(m, x, note) && Meets(s, Triggered(e))
  {
    hide TornDown, Announced, Meets;
    var ops := EndOps(m, x, note);
    assert Q.Ends(ops[0], s) <==> Meets(s, Exited(x));
    if e :| e in TornDown(m, x) + Announced(m, x, note) && Meets(s, Triggered(e)) {
      assert if e in TornDown(m, x) then Q.Ends(ops[1], s) else Q.Ends(ops[2], s);
    }
  }

  lemma CallOpsMeet(k: KState, x: Pid, call: Call, note: Data, s: WaitFor)
    requires CallSafe(k.m, x, call)
    ensures SomeEnds(CallOps(k, x, call, note), s) <==>
      || (exists e :: e in CallEvents(k.m, x, call) && Meets(s, Triggered(e)))
      || ((call.Exit? || call.Fault?) && SomeEnds(EndOps(k.m, x, note), s))
  {
    var ops := CallOps(k, x, call, note);
    if call.Exec? { assert CallEvents(k.m, x, call) == {}; }
    else {
      assert call.Exit? || call.Fault? <==> CallEffect(k.m, x, call).1.Terminate? by { TerminateIff(k.m, x, call); }
      hide CallEffect, CallSafe, Meets;
      var fire, rest := Q.Fire(CallEvents(k.m, x, call)), ops[1..];
      assert ops == [fire] + rest;
      SomeMoreEnds(fire, rest, s);
      if call.Exit? || call.Fault? { assert rest == EndOps(k.m, x, note); }
    }
  }

  lemma TerminateIff(m: MState, x: Pid, call: Call)
    requires CallSafe(m, x, call)
    ensures CallEffect(m, x, call).1.Terminate? <==> call.Exit? || call.Fault?
  {
  }

  lemma SomeMoreEnds(op: Q.QOp, rest: seq<Q.QOp>, s: WaitFor)
    ensures SomeEnds([op] + rest, s) <==> Q.Ends(op, s) || SomeEnds(rest, s)
  {
    hide Q.Ends;
    var ops := [op] + rest;
    if Q.Ends(op, s) { assert Q.Ends(ops[0], s); }
    if i :| 0 <= i < |rest| && Q.Ends(rest[i], s) { assert Q.Ends(ops[i + 1], s); }
    if i :| 0 <= i < |ops| && Q.Ends(ops[i], s) { assert i > 0 ==> rest[i - 1] == ops[i]; }
  }

  /** The three ways a step can meet a condition. */
  lemma MeetsBy(k: KState, step: Step, s: WaitFor)
    ensures StepMeets(k, step, s) <==>
      || (step.Tick? && Meets(s, Ticked(step.now)))
      || (Deadly(step) && k.running.Some? && Meets(s, Exited(k.running.value)))
      || exists e :: Occurs(k, step, Triggered(e)) && Meets(s, Triggered(e))
  {
    hide Meets, CallEvents, TornDown, Announced, Mail.Publish, PublishSafe;
    if step.Tick? { assert Occurs(k, step, Ticked(step.now)); }
    if Deadly(step) && k.running.Some? { assert Occurs(k, step, Exited(k.running.value)); }
    if o :| Occurs(k, step, o) && Meets(s, o) {
      match o
      case Ticked(now) =>
      case Exited(p) =>
      case Triggered(e) => assert Occurs(k, step, Triggered(e)) && Meets(s, Triggered(e));
    }
  }

  lemma CallMeets(k: KState, step: Step, x: Pid, note: Data, s: WaitFor)
    requires k.running == Some(x) && CallSafe(k.m, x, CallOf(k, step))
    requires (step.Syscall? && step.note == note) || (step.Repeat? && Repeatable(CallOf(k, step)))
    ensures SomeEnds(CallOps(k, x, CallOf(k, step), note), s) <==> StepMeets(k, step, s)
  {
    hide Meets, CallSafe, CallEvents, CallOps, EndOps, SomeEnds, TornDown, Announced;
    MeetsBy(k, step, s);
    CallOpsMeet(k, x, CallOf(k, step), note, s);
    EndOpsMeet(k.m, x, note, s);
  }

  /** The operations of a step meet a condition exactly when the step does. */
  lemma StepOpsMeet(k: KState, step: Step, k': KState, s: WaitFor)
    requires KInv(k) && Next(k, step, k')
    ensures SomeEnds(StepOps(k, step), s) <==> StepMeets(k, step, s)
  {
    hide KInv, Meets, CallSafe, CallOps, EndOps, Terminated, EventsFired, Give, AfterTick, SwitchTo, Mail.Publish,
      PublishSafe, TornDown, Announced, Finished, Handled, CallEvents;
    MeetsBy(k, step, s);
    match step
    case Boot => assert !Q.Ends(StepOps(k, step)[0], s);
    case Syscall(call, now, note) =>
      CallIsSafe(k, k.running.value, call, now, note, k');
      CallMeets(k, step, k.running.value, note, s);
    case Repeat(now, note) =>
      RepeatMayCall(k, k.running.value);
      CallIsSafe(k, k.running.value, CallOf(k, step), now, note, k');
      CallMeets(k, step, k.running.value, note, s);
    case Tick(now) => assert Q.Ends(StepOps(k, step)[0], s) <==> Meets(s, Ticked(now));
    case Irq(topic, data, _) => assert StepOps(k, step)[0] == Q.Fire(Mail.Publish(k.m, topic, data).1);
    case Crash(now, note) => EndOpsMeet(k.m, k.running.value, note, s);
  }

  lemma CallIsSafe(k: KState, x: Pid, call: Call, now: Instant, note: Data, k': KState)
    requires CallStep(k, x, call, now, note, k')
    ensures CallSafe(k.m, x, call)
  {
    hide CallSafe, CallEffect, Finished, EventsFired, Spawned;
  }

  // ----- Who waits -----

  /** Whoever is ready stays so, unless it is taken out to run or is the one that ends. */
  lemma ReadyStays(q: QState, op: Q.QOp, q': QState, p: Pid)
    requires QInv(q) && Q.QNext(q, op, q') && !op.Taken? && op != Q.Over(p) && p in q.ready
    ensures p in q'.ready
  {
    match op
    case Given(x, s) => GiveTables(q, x, s);
    case Clock(now) => TickWakes(q, now);
    case Over(x) => RemoveFirstMembers(q.ready, x);
    case Fire(events) =>
  }

  lemma {:induction false} ReadyAtLast(qs: seq<QState>, ops: seq<Q.QOp>, i: nat, j: nat, p: Pid)
    requires Q.Run(qs, ops) && i <= j <= |ops| && (forall l :: 0 <= l <= |ops| ==> QInv(qs[l])) && p in qs[i].ready
    requires forall l :: 0 <= l < |ops| ==> !ops[l].Taken? && ops[l] != Q.Over(p)
    ensures p in qs[j].ready
    decreases j
  {
    hide QInv, Q.QNext;
    if i < j {
      ReadyAtLast(qs, ops, i, j - 1, p);
      assert Q.QNext(qs[j - 1], ops[j - 1], qs[j - 1 + 1]);
      ReadyStays(qs[j - 1], ops[j - 1], qs[j], p);
    }
  }

  lemma StepOpsKinds(k: KState, step: Step, p: Pid)
    requires k.running != Some(p)
    ensures forall i :: 0 <= i < |StepOps(k, step)| ==> !StepOps(k, step)[i].Taken? && StepOps(k, step)[i] != Q.Over(p)
  {
    hide CallSafe, CallEffect, CallEvents, TornDown, Announced, PublishSafe, Mail.Publish;
  }

  /** The first operation that meets the condition. */
  lemma {:induction false} FirstMet(ops: seq<Q.QOp>, n: nat, s: WaitFor) returns (i: nat)
    requires n <= |ops| && Q.Met(ops, n, s)
    ensures i < n && !Q.Met(ops, i, s) && Q.Met(ops, i + 1, s)
    decreases n
  {
    hide Q.Ends;
    if Q.Met(ops, n - 1, s) { i := FirstMet(ops, n - 1, s); } else { i := n - 1; }
  }

  lemma OpsWake(qs: seq<QState>, ops: seq<Q.QOp>, w: WaitId, pid: Pid, s: WaitFor)
    requires Q.Run(qs, ops) && QInv(qs[0]) && Q.Armed(qs[0], w, pid, s) && Flat(s) && s != FirstOf([]) && !s.None?
    requires forall l :: 0 <= l < |ops| ==> !ops[l].Taken? && ops[l] != Q.Over(pid)
    ensures var q := qs[|ops|];
      && QInv(q) && w < q.nextWait
      && if SomeEnds(ops, s) then w !in q.waiting && pid in q.ready else Q.Armed(q, w, pid, s)
  {
    hide QInv, Q.QNext, Q.Armed, Q.Ends;
    forall l | 0 <= l <= |ops| ensures QInv(qs[l]) { Q.ArmedUntilMet(qs, ops, l, w, pid, s); }
    Q.ArmedUntilMet(qs, ops, |ops|, w, pid, s);
    assert SomeEnds(ops, s) <==> Q.Met(ops, |ops|, s);
    if Q.Met(ops, |ops|, s) {
      var i := FirstMet(ops, |ops|, s);
      Q.ArmedUntilMet(qs, ops, i + 1, w, pid, s);
      ReadyAtLast(qs, ops, i + 1, |ops|, pid);
    }
  }

  lemma ArmedLeaves(q: QState, k': KState, w: WaitId, pid: Pid, s: WaitFor)
    requires Leaves(q, k') && w < q.nextWait
    ensures Q.Armed(q, w, pid, s) ==> Q.Armed(k'.q, w, pid, s)
    ensures w !in q.waiting ==> w !in k'.q.waiting
    ensures pid in q.ready ==> pid in k'.q.ready || k'.running == Some(pid)
    ensures w < k'.q.nextWait
  {
    assert forall a :: Registered(k'.q, a, w) <==> Registered(q, a, w);
  }

  lemma ArmedIsBlocked(k: KState, w: WaitId, pid: Pid, s: WaitFor)
    requires KInv(k) && Q.Armed(k.q, w, pid, s)
    ensures k.running != Some(pid) && Blocked(k.q, pid)
  {
    hide MInv, ProcOk, SenderOk, QInv;
  }

  /** One step of the kernel: the wait goes on, or the step meets its condition and the process is ready or runs. */
  lemma StepWaits(k: KState, step: Step, k': KState, w: WaitId, pid: Pid, s: WaitFor)
    requires KInv(k) && Next(k, step, k') && Q.Armed(k.q, w, pid, s) && Flat(s) && s != FirstOf([]) && !s.None?
    ensures !StepMeets(k, step, s) ==> Q.Armed(k'.q, w, pid, s)
    ensures StepMeets(k, step, s) ==> w !in k'.q.waiting && (pid in k'.q.ready || k'.running == Some(pid))
    ensures w < k'.q.nextWait
  {
    hide KInv, Next, QInv, Q.Armed, Leaves, StepOps, Flat, StepMeets;
    var qs := StepRun(k, step, k');
    NewIsNowhere(k);
    ArmedIsBlocked(k, w, pid, s);
    StepOpsKinds(k, step, pid);
    OpsWake(qs, StepOps(k, step), w, pid, s);
    StepOpsMeet(k, step, k', s);
    ArmedLeaves(qs[|qs| - 1], k', w, pid, s);
  }

  lemma {:induction false} GoneForGood(qs: seq<QState>, ops: seq<Q.QOp>, i: nat, w: WaitId)
    requires Q.Run(qs, ops) && i <= |ops| && QInv(qs[0]) && w < qs[0].nextWait && w !in qs[0].waiting
    ensures QInv(qs[i]) && w < qs[i].nextWait && w !in qs[i].waiting
  {
    hide QInv, Q.QNext;
    if i > 0 {
      GoneForGood(qs, ops, i - 1, w);
      assert Q.QNext(qs[i - 1], ops[i - 1], qs[i - 1 + 1]);
      Q.NextKeepsInv(qs[i - 1], ops[i - 1], qs[i]);
      Q.IdsGrow(qs[i - 1], ops[i - 1], qs[i]);
    }
  }

  lemma StaysGone(k: KState, step: Step, k': KState, w: WaitId)
    requires KInv(k) && Next(k, step, k') && w < k.q.nextWait && w !in k.q.waiting
    ensures w < k'.q.nextWait && w !in k'.q.waiting
  {
    hide KInv, Next, QInv, StepOps;
    var qs := StepRun(k, step, k');
    NewIsNowhere(k);
    GoneForGood(qs, StepOps(k, step), |StepOps(k, step)|, w);
  }

  // ----- Whole runs -----

  ghost predicate MetIn(ks: seq<KState>, steps: seq<Step>, i: nat, j: nat, s: WaitFor)
    requires |ks| == |steps| + 1 && j < |ks|
  {
    exists l :: i <= l < j && StepMeets(ks[l], steps[l], s)
  }

  /**
   * In every run a live wait goes on until the first step that meets its condition. After that step its
   * process is ready or runs, and the wait never comes back.
   */
  lemma {:induction false} WaitsInRun(ks: seq<KState>, steps: seq<Step>, i: nat, j: nat, w: WaitId, pid: Pid,
      s: WaitFor)
    requires Run(ks, steps) && Init(ks[0]) && i <= j < |ks|
    requires Q.Armed(ks[i].q, w, pid, s) && Flat(s) && s != FirstOf([]) && !s.None?
    ensures !MetIn(ks, steps, i, j, s) ==> Q.Armed(ks[j].q, w, pid, s) && Blocked(ks[j].q, pid)
    ensures MetIn(ks, steps, i, j, s) ==> w < ks[j].q.nextWait && w !in ks[j].q.waiting
    ensures i < j && !MetIn(ks, steps, i, j - 1, s) && MetIn(ks, steps, i, j, s) ==>
      pid in ks[j].q.ready || ks[j].running == Some(pid)
    decreases j
  {
    hide KInv, Next, Init, StepMeets, Q.Armed, Flat;
    RunKeepsInv(ks, steps, j);
    if i < j {
      var k, step, k' := ks[j - 1], steps[j - 1], ks[j];
      WaitsInRun(ks, steps, i, j - 1, w, pid, s);
      RunKeepsInv(ks, steps, j - 1);
      assert MetIn(ks, steps, i, j, s) <==> MetIn(ks, steps, i, j - 1, s) || StepMeets(k, step, s);
      if MetIn(ks, steps, i, j - 1, s) { StaysGone(k, step, k', w); } else { StepWaits(k, step, k', w, pid, s); }
    }
    if !MetIn(ks, steps, i, j, s) { ArmedIsBlocked(ks[j], w, pid, s); }
  }

  // ----- Sleeping -----

  /** The step of a call to sleep parks its process until the time given, and until nothing else. */
  lemma Sleeps(k: KState, step: Step, k': KState, x: Pid)
    requires KInv(k) && Next(k, step, k') && step.Syscall? && step.call.Sleep? && k.running == Some(x)
    ensures Q.Armed(k'.q, k.q.nextWait, x, Time(step.call.until))
  {
    hide KInv, Next, QInv, Give, Leaves;
    var qs := StepRun(k, step, k');
    NewIsNowhere(k);
    RunningFacts(k, x);
    var s := Time(step.call.until);
    SleepOps(k, step, k', x);
    assert Q.QNext(qs[0], StepOps(k, step)[0], qs[1]) && Q.QNext(qs[1], StepOps(k, step)[1], qs[2]);
    FiredExists(k.q, {}, qs[1]);
    assert qs[1].nextWait == k.q.nextWait && !Resolved(qs[1], x, s);
    Q.GivenIsArmed(qs[1], x, s);
    ArmedLeaves(qs[2], k', k.q.nextWait, x, s);
  }

  lemma SleepOps(k: KState, step: Step, k': KState, x: Pid)
    requires Next(k, step, k') && step.Syscall? && step.call.Sleep? && k.running == Some(x)
    ensures StepOps(k, step) == [Q.Fire({}), Q.Given(x, Time(step.call.until))]
  {
    hide Finished, EventsFired;
  }

  lemma TimeIsMet(k: KState, step: Step, t: Instant)
    ensures StepMeets(k, step, Time(t)) <==> step.Tick? && t <= step.now
  {
    MeetsBy(k, step, Time(t));
  }

  ghost predicate RingsIn(steps: seq<Step>, i: nat, j: nat, t: Instant)
    requires j <= |steps|
  {
    exists l :: i <= l < j && steps[l].Tick? && t <= steps[l].now
  }

  /**
   * In every run a process that goes to sleep is blocked until the first tick at or after its time, and
   * then ready or running.
   */
  lemma SleepsUntil(ks: seq<KState>, steps: seq<Step>, i: nat, j: nat, x: Pid)
    requires Run(ks, steps) && Init(ks[0]) && i < j < |ks|
    requires steps[i].Syscall? && steps[i].call.Sleep? && ks[i].running == Some(x)
    ensures !RingsIn(steps, i + 1, j, steps[i].call.until) ==> Blocked(ks[j].q, x)
    ensures var t := steps[i].call.until;
      i + 1 < j && !RingsIn(steps, i + 1, j - 1, t) && RingsIn(steps, i + 1, j, t) ==>
        x in ks[j].q.ready || ks[j].running == Some(x)
  {
    hide KInv, Next, Init, StepMeets, Q.Armed;
    var t, w := steps[i].call.until, ks[i].q.nextWait;
    RunKeepsInv(ks, steps, i);
    Sleeps(ks[i], steps[i], ks[i + 1], x);
    WaitsInRun(ks, steps, i + 1, j, w, x, Time(t));
    forall l | 0 <= l < |steps| ensures StepMeets(ks[l], steps[l], Time(t)) <==> steps[l].Tick? && t <= steps[l].now {
      TimeIsMet(ks[l], steps[l], t);
    }
    assert MetIn(ks, steps, i + 1, j, Time(t)) <==> RingsIn(steps, i + 1, j, t);
    assert i + 1 < j ==> (MetIn(ks, steps, i + 1, j - 1, Time(t)) <==> RingsIn(steps, i + 1, j - 1, t));
  }
}
