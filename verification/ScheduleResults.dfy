/** Who runs next, and until when, in every step of the machine. */
module ScheduleResults {
  import opened Common
  import opened Topics
  import opened Waits
  import opened Queues
  import Q = QueueRuns
  import opened Subscriptions
  import opened Mail
  import opened MailInvariant
  import opened MailEnds
  import opened Kernel
  import opened KernelInvariant
  import opened KernelCalls
  import opened KernelEnds
  import opened KernelSafety
  import opened KernelTheorems
  import opened OrderRuns
  import opened PipeRuns
  import opened WaitRuns
  import DeliveryRuns
  import opened CallResults

  // ----- Time slices -----

  /** The process keeps nothing: it ends, gives the processor away, is blocked, or its time is up. */
  predicate GivesUp(k: KState, step: Step, k': KState) {
    match step
    case Tick(_) => true
    case Crash(_, _) => true
    case Boot => false
    case Irq(_, _, _) => false
    case _ =>
      var call := CallOf(k, step);
      || call.Exit? || call.Fault? || call.Yield? || call.Sleep?
      || (k.running.Some? && k.running.value in k'.procs && k'.procs[k.running.value].repeat)
  }

  lemma SwitchSlice(k: KState, schedule: Option<WaitFor>, now: Instant)
    requires schedule.Some? ==> Flat(schedule.value)
    ensures var k' := SwitchTo(k, schedule, now);
      && k'.sliceEnd == (if k'.running.None? then Option.None else Some(now + 100_000_000))
      && (k'.running.None? ==> k'.q.ready == [])
      && k'.procs == k.procs && k'.m == k.m && k'.nextPid == k.nextPid
  {
    hide Give;
  }

  /** How a call can end. */
  lemma ResultKinds(m: MState, x: Pid, call: Call)
    requires CallSafe(m, x, call) && !call.Exec?
    ensures var r := CallEffect(m, x, call).1;
      && (r.Terminate? <==> call.Exit? || call.Fault?)
      && (r.Switch? <==> call.Yield? || call.Sleep?)
  {
    hide FindAll, SelectFrom, SelectSafe, KernelReply, KernelReplySafe, DeliverTo;
  }

  lemma CallSlice(k: KState, step: Step, x: Pid, call: Call, now: Instant, note: Data, k': KState)
    requires KInv(k) && k.running == Some(x) && x in k.procs && CallStep(k, x, call, now, note, k')
      && CallOf(k, step) == call && (step.Syscall? || step.Repeat?)
    ensures if GivesUp(k, step, k')
      then
        && k'.sliceEnd == (if k'.running.None? then Option.None else Some(now + 100_000_000))
        && (k'.running.None? ==> k'.q.ready == [])
      else k'.sliceEnd == k.sliceEnd && k'.running == k.running
  {
    hide KInv, CallEffect, CallSafe, EventsFired, SwitchTo, Terminated, Give;
    var k1, r :| Handled(k, x, call, k1, r) && Finished(Record(k1, x, call, r), x, r, now, note, k');
    var k2 := Record(k1, x, call, r);
    if call.Exec? { ExecMail(k, x, call, k1, r); } else { ResultKinds(k.m, x, call); }
    match r
    case Continue(_) =>
    case Switch(_, s) => SwitchSlice(k2, Some(s), now);
    case RepeatAfter(s) => SwitchSlice(k2, Some(s), now);
    case Terminate =>
      var k3 :| Terminated(k2, x, note, k3) && k' == SwitchTo(k3, Option.None, now);
      SwitchSlice(k3, Option.None, now);
  }

  /**
   * Whenever a process gives up the processor, the one that gets it has it for a tenth of a second from
   * that instant on, and nobody gets it only if nobody is ready. In all other steps the slice goes on,
   * and so does the process whose slice it is.
   */
  lemma Slices(k: KState, step: Step, k': KState)
    requires KInv(k) && Next(k, step, k')
    ensures if GivesUp(k, step, k')
      then
        && k'.sliceEnd == (if k'.running.None? then Option.None else Some(step.now + 100_000_000))
        && (k'.running.None? ==> k'.q.ready == [])
      else k'.sliceEnd == k.sliceEnd && (k.running.Some? ==> k'.running == k.running)
    ensures step.Irq? && step.reschedule && k'.running.None? ==> k'.q.ready == []
    ensures step.Boot? ==> k'.running == k.running
    ensures step.Irq? && !step.reschedule ==> k'.running == k.running
  {
    hide KInv, CallStep, EventsFired, SwitchTo, Terminated, Give, AfterTick, Mail.Publish, PublishSafe;
    match step
    case Syscall(call, now, note) => CallSlice(k, step, k.running.value, call, now, note, k');
    case Repeat(now, note) => CallSlice(k, step, k.running.value, CallOf(k, step), now, note, k');
    case Tick(now) => SwitchSlice(k.(q := AfterTick(k.q, now)), Some(WaitFor.None), now);
    case Crash(now, note) =>
      var k1 :| Terminated(k, k.running.value, note, k1) && k' == SwitchTo(k1, Option.None, now);
      SwitchSlice(k1, Option.None, now);
    case _ =>
  }

  /** The step that started this slice: since then its process has been running. */
  ghost predicate Started(ks: seq<KState>, steps: seq<Step>, i: nat, j: nat, end: Instant)
    requires |ks| == |steps| + 1 && j < i < |ks|
  {
    && GivesUp(ks[j], steps[j], ks[j + 1]) && end == steps[j].now + 100_000_000
    && (forall l :: j < l <= i ==> ks[l].running == ks[i].running && ks[l].sliceEnd == Some(end))
  }

  /** In every run, a slice that has an end has a process that has been running since a tenth of a second before. */
  lemma {:induction false} SliceSince(ks: seq<KState>, steps: seq<Step>, i: nat)
    requires Run(ks, steps) && Init(ks[0]) && i < |ks| && ks[i].sliceEnd.Some?
    ensures ks[i].running.Some? && exists j :: 0 <= j < i && Started(ks, steps, i, j, ks[i].sliceEnd.value)
  {
    hide KInv, Next, GivesUp;
    if i > 0 {
      RunKeepsInv(ks, steps, i - 1);
      assert Next(ks[i - 1], steps[i - 1], ks[i - 1 + 1]);
      Slices(ks[i - 1], steps[i - 1], ks[i]);
      if GivesUp(ks[i - 1], steps[i - 1], ks[i]) {
        assert Started(ks, steps, i, i - 1, ks[i].sliceEnd.value);
      } else {
        SliceSince(ks, steps, i - 1);
        var j :| 0 <= j < i - 1 && Started(ks, steps, i - 1, j, ks[i - 1].sliceEnd.value);
        assert Started(ks, steps, i, j, ks[i].sliceEnd.value);
      }
    }
  }

  // ----- The line of those who can run -----

  /** The running process and the ones ready behind it. */
  function Line(k: KState): seq<Pid> {
    (if k.running.Some? then [k.running.value] else []) + k.q.ready
  }

  lemma SwitchLine(k: KState, schedule: Option<WaitFor>, now: Instant)
    requires schedule.Some? ==> Flat(schedule.value)
    ensures Line(SwitchTo(k, schedule, now)) ==
      if schedule.Some? && k.running.Some? then Give(k.q, k.running.value, schedule.value).ready else k.q.ready
  {
    hide Give;
    var k' := SwitchTo(k, schedule, now);
    if k'.running.Some? { assert [k'.running.value] + k'.q.ready == Line(k'); }
  }

  /** Waking puts processes that were blocked before everybody who is ready. */
  ghost predicate Before(q: QState, q': QState, front: seq<Pid>) {
    && q'.ready == front + q.ready && (forall p :: p in front ==> Blocked(q, p))
    && (forall p :: Blocked(q', p) ==> Blocked(q, p))
  }

  lemma WokenBefore(q: QState, ids: set<WaitId>, q': QState) returns (front: seq<Pid>)
    requires Woken(q, ids, q')
    ensures Before(q, q', front)
  {
    var order :| Enumerates(order, ids * q.waiting.Keys) && q'.ready == PidsOf(q.waiting, order) + q.ready;
    front := PidsOf(q.waiting, order);
    forall p | p in front ensures Blocked(q, p) {
      var i :| 0 <= i < |front| && front[i] == p;
      assert order[i] in order && q.waiting[order[i]] == p;
    }
    forall p | Blocked(q', p) ensures Blocked(q, p) {
      var w :| w in q'.waiting && q'.waiting[w] == p;
      assert q.waiting[w] == p;
    }
  }

  lemma BeforeThen(q: QState, a: seq<Pid>, q1: QState, b: seq<Pid>, q2: QState)
    requires Before(q, q1, a) && Before(q1, q2, b)
    ensures Before(q, q2, b + a)
  {
    hide Blocked;
    assert b + (a + q.ready) == b + a + q.ready;
  }

  lemma FiredBefore(q: QState, events: set<EventId>, q': QState) returns (front: seq<Pid>)
    requires EventsFired(q, events, q')
    ensures Before(q, q', front)
  {
    hide Woken;
    front := WokenBefore(q, Waiters(q, events), q');
  }

  lemma OverBefore(q: QState, x: Pid, q': QState) returns (front: seq<Pid>)
    requires ProcessOver(q, x, q') && x !in q.ready
    ensures Before(q, q', front)
  {
    hide Woken;
    RemoveFirstAt(q.ready, x, |q.ready|);
    front := WokenBefore(q, ExitWaiters(q, x), q');
  }

  lemma EndBefore(k: KState, x: Pid, note: Data, k': KState) returns (front: seq<Pid>)
    requires Terminated(k, x, note, k') && x !in k.q.ready
    ensures Before(k.q, k'.q, front)
  {
    hide EndProcess, EndProcessSafe, Mail.Publish, PublishSafe, ProcessOver, EventsFired, Before;
    var (m1, events) := EndProcess(k.m, x);
    var more := Mail.Publish(m1, TERMINATED_TOPIC, note).1;
    var qa, qb :| ProcessOver(k.q, x, qa) && EventsFired(qa, events, qb) && EventsFired(qb, more, k'.q);
    var a := OverBefore(k.q, x, qa);
    var b := FiredBefore(qa, events, qb);
    var c := FiredBefore(qb, more, k'.q);
    BeforeThen(k.q, a, qa, b, qb);
    BeforeThen(k.q, b + a, qb, c, k'.q);
    front := c + (b + a);
  }

  /** Who is put behind everybody else: a new process, or one that gives way but could go on. */
  function Behind(k: KState, step: Step): seq<Pid> {
    if step.Boot? || (step.Syscall? && step.call.Exec? && step.call.launch.Launched?) then [k.nextPid]
    else if k.running.Some? && (step.Tick? || (step.Syscall? && step.call.Yield?)) then [k.running.value]
    else []
  }

  /** Who is at the head of the line whatever happens. */
  function Ahead(k: KState, step: Step, k': KState): seq<Pid> {
    if GivesUp(k, step, k') || k.running.None? then [] else [k.running.value]
  }

  ghost predicate InLine(k: KState, step: Step, k': KState, front: seq<Pid>) {
    Line(k') == Ahead(k, step, k') + front + k.q.ready + Behind(k, step) && forall p :: p in front ==> Blocked(k.q, p)
  }

  /** A process that is given away without a condition is ready; one that is blocked afterwards is not. */
  lemma GivenBehind(q: QState, x: Pid, s: WaitFor)
    requires QInv(q) && Flat(s) && !ProcessExists(q, x)
    ensures s.None? ==> Give(q, x, s).ready == q.ready + [x]
    ensures Blocked(Give(q, x, s), x) ==> Give(q, x, s).ready == q.ready
    ensures s.Time? ==> Give(q, x, s).ready == q.ready
  {
    GiveTables(q, x, s);
    hide Give;
  }

  lemma FinishLine(k: KState, x: Pid, r: SyscallResult, now: Instant, note: Data, k': KState)
      returns (front: seq<Pid>, back: seq<Pid>)
    requires Finished(k, x, r, now, note, k') && k.running == Some(x) && QInv(k.q) && !ProcessExists(k.q, x)
    requires r.Switch? ==> r.wait.None? || r.wait.Time?
    requires r.RepeatAfter? ==> Blocked(k'.q, x)
    ensures Line(k') == (if r.Continue? then [x] else []) + front + k.q.ready + back
    ensures forall p :: p in front ==> Blocked(k.q, p)
    ensures back == if r.Switch? && r.wait.None? then [x] else []
  {
    hide QInv, Give, SwitchTo, Terminated;
    front, back := [], if r.Switch? && r.wait.None? then [x] else [];
    match r
    case Continue(_) => assert Line(k') == [x] + [] + k.q.ready + [];
    case Switch(_, s) => SwitchLine(k, Some(s), now); GivenBehind(k.q, x, s);
    case RepeatAfter(s) => SwitchLine(k, Some(s), now); GivenBehind(k.q, x, s); SwitchBlocked(k, x, s, now);
    case Terminate =>
      var k1 :| Terminated(k, x, note, k1) && k' == SwitchTo(k1, Option.None, now);
      front := EndBefore(k, x, note, k1);
      SwitchLine(k1, Option.None, now);
    assert [] + front + k.q.ready + [] == front + k.q.ready;
  }

  lemma SwitchBlocked(k: KState, x: Pid, s: WaitFor, now: Instant)
    requires Flat(s) && k.running == Some(x)
    ensures Blocked(SwitchTo(k, Some(s), now).q, x) <==> Blocked(Give(k.q, x, s), x)
  {
    hide Give;
  }

  lemma Rejoin(a: seq<Pid>, ended: seq<Pid>, woken: seq<Pid>, ready: seq<Pid>, back: seq<Pid>)
    ensures a + ended + (woken + ready) + back == a + (ended + woken) + ready + back
  {
  }

  /** A call gives the processor up exactly when its result is not just an answer. */
  lemma GivesUpIff(k: KState, step: Step, k': KState, x: Pid)
    requires KInv(k) && Next(k, step, k') && Calls(k, step, x) && !CallOf(k, step).Exec?
    ensures CallSafe(k.m, x, CallOf(k, step))
    ensures var r := CallEffect(k.m, x, CallOf(k, step)).1;
      && (GivesUp(k, step, k') <==> !r.Continue?) && (r.RepeatAfter? ==> Blocked(k'.q, x))
      && (r.Switch? ==> step.Syscall? && r.wait == if step.call.Yield? then WaitFor.None else Time(step.call.until))
      && (r.Switch? <==> CallOf(k, step).Yield? || CallOf(k, step).Sleep?)
  {
    hide KInv, KInvX, EventsFired, CallEffect, CallSafe, CallOutcome, CallStep, Blocked;
    StepEffect(k, step, k', x);
    if step.Repeat? { RepeatMayCall(k, x); }
    ResultKinds(k.m, x, CallOf(k, step));
    if CallOf(k, step).Yield? || CallOf(k, step).Sleep? { SwitchWaits(k.m, x, CallOf(k, step)); }
  }

  lemma SwitchWaits(m: MState, x: Pid, call: Call)
    requires CallSafe(m, x, call) && (call.Yield? || call.Sleep?)
    ensures CallEffect(m, x, call).1.wait == if call.Yield? then WaitFor.None else Time(call.until)
  {
  }

  lemma CallLine(k: KState, step: Step, k': KState, x: Pid) returns (front: seq<Pid>)
    requires KInv(k) && Next(k, step, k') && Calls(k, step, x) && !CallOf(k, step).Exec?
    ensures InLine(k, step, k', front)
  {
    hide KInv, EventsFired, CallEffect, CallSafe, MInv, QInv, NotSending, ProcessExists, Finished, Recorded, Blocked,
      GivesUp;
    GivesUpIff(k, step, k', x);
    RunningFacts(k, x);
    var call, now, note := CallOf(k, step), step.now, step.note;
    var k1, r :| Handled(k, x, call, k1, r) && Finished(Record(k1, x, call, r), x, r, now, note, k');
    var events := CallEffect(k.m, x, call).2;
    FiredExists(k.q, events, k1.q);
    var woken := FiredBefore(k.q, events, k1.q);
    var ended, back := FinishLine(Record(k1, x, call, r), x, r, now, note, k');
    front := ended + woken;
    Rejoin(Ahead(k, step, k'), ended, woken, k.q.ready, back);
  }

  lemma ExecLine(k: KState, step: Step, k': KState, x: Pid)
    requires KInv(k) && Next(k, step, k') && k.running == Some(x) && step.Syscall? && step.call.Exec?
    ensures InLine(k, step, k', [])
  {
    hide KInv, Terminated;
    assert [x] + [] + k.q.ready + Behind(k, step) == [x] + (k.q.ready + Behind(k, step));
  }

  lemma TickLine(k: KState, now: Instant) returns (front: seq<Pid>)
    requires KInv(k)
    ensures InLine(k, Step.Tick(now), SwitchTo(k.(q := AfterTick(k.q, now)), Some(WaitFor.None), now), front)
  {
    hide KInv, AfterTick, Give, QInv, SwitchTo;
    NewIsNowhere(k);
    var q := AfterTick(k.q, now);
    TickSorted(k.q);
    TickWakes(k.q, now);
    TickKeepsInv(k.q, now);
    front := WokenBefore(k.q, Due(k.q, now), q);
    SwitchLine(k.(q := q), Some(WaitFor.None), now);
    var k' := SwitchTo(k.(q := q), Some(WaitFor.None), now);
    assert [] + front + k.q.ready + Behind(k, Step.Tick(now)) == front + k.q.ready + Behind(k, Step.Tick(now));
    if k.running.Some? {
      RunningFacts(k, k.running.value);
      GivenBehind(q, k.running.value, WaitFor.None);
    } else {
      assert front + k.q.ready + [] == front + k.q.ready;
    }
  }

  lemma TickSorted(q: QState)
    requires QInv(q)
    ensures SleepSorted(q.sleeping)
  {
  }

  /**
   * Round robin, in every step: who was ready keeps its place in the line; before them come only
   * processes that were blocked and are woken, and behind them only new processes and the one that gives way.
   */
  lemma RoundRobin(k: KState, step: Step, k': KState) returns (front: seq<Pid>)
    requires KInv(k) && Next(k, step, k')
    ensures InLine(k, step, k', front)
    ensures forall p :: p in front <==> Blocked(k.q, p) && !Blocked(k'.q, p)
  {
    hide KInv, CallStep, EventsFired, SwitchTo, Terminated, Give, AfterTick, Mail.Publish, PublishSafe, InLine, Blocked;
    match step {
      case Boot => BootLine(k, k'); front := [];
      case Syscall(call, now, note) =>
        if call.Exec? { ExecLine(k, step, k', k.running.value); front := []; }
        else { front := CallLine(k, step, k', k.running.value); }
      case Repeat(now, note) =>
        RepeatMayCall(k, k.running.value);
        front := CallLine(k, step, k', k.running.value);
      case Tick(now) => front := TickLine(k, now);
      case Irq(topic, data, _) => front := IrqLine(k, step, k');
      case Crash(now, note) => front := CrashLine(k, step, k');
    }
    NextKeepsInv(k, step, k');
    WokenAre(k, step, k', front);
  }

  lemma BootLine(k: KState, k': KState)
    requires KInv(k) && k' == Spawned(k)
    ensures InLine(k, Boot, k', [])
  {
    hide KInv;
    assert Ahead(k, Boot, k') + [] + k.q.ready + [k.nextPid] == Ahead(k, Boot, k') + (k.q.ready + [k.nextPid]);
  }

  lemma IrqLine(k: KState, step: Step, k': KState) returns (front: seq<Pid>)
    requires Next(k, step, k') && step.Irq?
    ensures InLine(k, step, k', front)
  {
    hide EventsFired, Mail.Publish, PublishSafe;
    var (m', events) := Mail.Publish(k.m, step.topic, step.data);
    var q' :| EventsFired(k.q, events, q')
      && k' == if step.reschedule then SwitchCurrentOrNext(k.(m := m', q := q')) else k.(m := m', q := q');
    front := FiredBefore(k.q, events, q');
    var a := Ahead(k, step, k');
    assert Line(k') == a + q'.ready;
    assert a + front + k.q.ready + [] == a + (front + k.q.ready);
  }

  lemma CrashLine(k: KState, step: Step, k': KState) returns (front: seq<Pid>)
    requires KInv(k) && Next(k, step, k') && step.Crash?
    ensures InLine(k, step, k', front)
  {
    hide KInv, Terminated, SwitchTo;
    var x := k.running.value;
    RunningFacts(k, x);
    var k1 :| Terminated(k, x, step.note, k1) && k' == SwitchTo(k1, Option.None, step.now);
    front := EndBefore(k, x, step.note, k1);
    SwitchLine(k1, Option.None, step.now);
    assert [] + front + k.q.ready + [] == front + k.q.ready;
  }

  /** Nobody disappears, so whoever is not blocked any more is in the line, and was not there before. */
  lemma WokenAre(k: KState, step: Step, k': KState, front: seq<Pid>)
    requires KInv(k) && KInv(k') && Next(k, step, k') && InLine(k, step, k', front)
    ensures forall p :: p in front <==> Blocked(k.q, p) && !Blocked(k'.q, p)
  {
    hide Next, MInv, ProcOk, SenderOk, QInv, Blocked, GivesUp;
    NobodySends(k);
    StepKeepsOthers(k, step, k');
    forall p ensures p in front <==> Blocked(k.q, p) && !Blocked(k'.q, p) {
      if p in front { LineNotBlocked(k', p); }
      if Blocked(k.q, p) && !Blocked(k'.q, p) {
        BlockedIsElsewhere(k, p);
        assert p in k'.procs;
        assert p in Line(k');
        assert p !in Behind(k, step) && p !in Ahead(k, step, k');
      }
    }
  }

  lemma StepKeepsOthers(k: KState, step: Step, k': KState)
    requires KInv(k) && Next(k, step, k')
    ensures forall p :: p in k.procs && k.running != Some(p) ==> p in k'.procs
  {
    hide KInv, Next;
    DeliveryRuns.StepJudges(k, step, k');
    NobodySends(k);
  }

  lemma LineNotBlocked(k: KState, p: Pid)
    requires KInv(k) && p in Line(k)
    ensures !Blocked(k.q, p)
  {
    hide MInv, ProcOk, SenderOk;
  }

  lemma BlockedIsElsewhere(k: KState, p: Pid)
    requires KInv(k) && Blocked(k.q, p)
    ensures p in k.procs && p !in k.q.ready && k.running != Some(p) && p != k.nextPid
  {
    hide MInv, ProcOk, SenderOk;
  }

  // ----- Ticks -----

  /** The process is asleep until this time, whatever else may wake it. */
  ghost predicate SleepsTill(q: QState, p: Pid, t: Instant) {
    exists w :: w in q.waiting && q.waiting[w] == p && (t, w) in q.sleeping
  }

  ghost predicate LatestFirst(q: QState, front: seq<Pid>, ts: seq<Instant>, now: Instant) {
    && |ts| == |front| && (forall i, j :: 0 <= i < j < |ts| ==> ts[j] <= ts[i])
    && (forall i :: 0 <= i < |ts| ==> ts[i] <= now && SleepsTill(q, front[i], ts[i]))
  }

  /** Of the sleepers that are due the one with the latest time comes first. */
  lemma {:induction false} TickOrder(q: QState, now: Instant) returns (front: seq<Pid>, ts: seq<Instant>)
    requires SleepSorted(q.sleeping)
    ensures AfterTick(q, now).ready == front + q.ready && LatestFirst(q, front, ts, now)
    ensures forall i :: 0 <= i < |ts| ==> q.sleeping[0].0 <= ts[i]
    decreases |q.sleeping|
  {
    if q.sleeping == [] || now < q.sleeping[0].0 {
      front, ts := [], [];
      assert [] + q.ready == q.ready;
    } else {
      var (t, w) := q.sleeping[0];
      var q1 := Trigger(q.(sleeping := q.sleeping[1..]), w);
      front, ts := TickOrder(q1, now);
      SleepsStill(q, q1, front, ts, now);
      hide LatestFirst, AfterTick;
      if w in q.waiting {
        assert q.sleeping[0] in q.sleeping;
        OneMoreSleeper(q, front, ts, now, q.waiting[w], t);
        assert front + ([q.waiting[w]] + q.ready) == front + [q.waiting[w]] + q.ready;
        front, ts := front + [q.waiting[w]], ts + [t];
      }
    }
  }

  lemma OneMoreSleeper(q: QState, front: seq<Pid>, ts: seq<Instant>, now: Instant, p: Pid, t: Instant)
    requires LatestFirst(q, front, ts, now) && t <= now && SleepsTill(q, p, t)
    requires forall i :: 0 <= i < |ts| ==> t <= ts[i]
    ensures LatestFirst(q, front + [p], ts + [t], now)
  {
    hide SleepsTill;
  }

  lemma SleepsStill(q: QState, q1: QState, front: seq<Pid>, ts: seq<Instant>, now: Instant)
    requires LatestFirst(q1, front, ts, now) && q.sleeping != [] && q1.sleeping == q.sleeping[1..]
    requires forall w :: w in q1.waiting ==> w in q.waiting && q.waiting[w] == q1.waiting[w]
    ensures LatestFirst(q, front, ts, now)
  {
    forall i | 0 <= i < |ts| ensures SleepsTill(q, front[i], ts[i]) {
      assert SleepsTill(q1, front[i], ts[i]);
      var w :| w in q1.waiting && q1.waiting[w] == front[i] && (ts[i], w) in q1.sleeping;
      assert (ts[i], w) in q.sleeping;
    }
  }

  /**
   * A tick wakes whoever sleeps no longer than now, the latest first, before all who are ready; the
   * process whose time is up goes behind them. It touches neither processes nor mail.
   */
  lemma Ticks(k: KState, step: Step, k': KState) returns (front: seq<Pid>, ts: seq<Instant>)
    requires KInv(k) && Next(k, step, k') && step.Tick?
    ensures Line(k') == front + k.q.ready + (if k.running.Some? then [k.running.value] else [])
    ensures LatestFirst(k.q, front, ts, step.now)
    ensures forall p :: p in front <==> exists t: Instant :: t <= step.now && SleepsTill(k.q, p, t)
    ensures k'.procs == k.procs && k'.m == k.m && k'.nextPid == k.nextPid
  {
    hide KInv, AfterTick, SwitchTo, Give, LatestFirst, QInv, Blocked;
    NewIsNowhere(k);
    TickSorted(k.q);
    front, ts := TickOrder(k.q, step.now);
    SwitchLine(k.(q := AfterTick(k.q, step.now)), Some(WaitFor.None), step.now);
    SwitchSlice(k.(q := AfterTick(k.q, step.now)), Some(WaitFor.None), step.now);
    TickKeepsInv(k.q, step.now);
    if k.running.Some? {
      RunningFacts(k, k.running.value);
      GivenBehind(AfterTick(k.q, step.now), k.running.value, WaitFor.None);
    }
    DueAreFirst(k.q, step.now, front, ts);
  }

  lemma TickWoken(q: QState, now: Instant)
    requires QInv(q)
    ensures Placed(q) && forall p :: p in AfterTick(q, now).ready <==>
      p in q.ready || exists w :: w in Due(q, now) && w in q.waiting && q.waiting[w] == p
  {
    hide AfterTick;
    TickWakes(q, now);
    WokenPlaces(q, Due(q, now), AfterTick(q, now));
  }

  lemma DueAreFirst(q: QState, now: Instant, front: seq<Pid>, ts: seq<Instant>)
    requires QInv(q) && AfterTick(q, now).ready == front + q.ready && LatestFirst(q, front, ts, now)
    ensures forall p :: p in front <==> exists t: Instant :: t <= now && SleepsTill(q, p, t)
  {
    hide AfterTick, Queues.IdsIssued, AllTriggerable, SleepSorted;
    TickWoken(q, now);
    forall p | exists t: Instant :: t <= now && SleepsTill(q, p, t) ensures p in front {
      var t: Instant :| t <= now && SleepsTill(q, p, t);
      var w :| w in q.waiting && q.waiting[w] == p && (t, w) in q.sleeping;
      var i :| 0 <= i < |q.sleeping| && q.sleeping[i] == (t, w);
      assert w in Due(q, now) && p in front + q.ready && p !in q.ready;
    }
    forall p | p in front ensures exists t: Instant :: t <= now && SleepsTill(q, p, t) {
      var i :| 0 <= i < |front| && front[i] == p;
      assert ts[i] <= now && SleepsTill(q, p, ts[i]);
    }
  }

  // ----- Calls that do not reach the manager -----

  /** What a launch comes to: a child behind everybody else, or a refusal that may have used up a process id. */
  lemma Launches(k: KState, step: Step, k': KState, x: Pid)
    requires KInv(k) && Next(k, step, k') && k.running == Some(x) && step.Syscall? && step.call.Exec?
    ensures k'.running == Some(x) && k'.sliceEnd == k.sliceEnd && k'.m == k.m
    ensures match step.call.launch
      case Launched =>
        && k.nextPid !in k.procs && k'.nextPid == k.nextPid + 1 && k'.q.ready == k.q.ready + [k.nextPid]
        && k'.procs == k.procs[k.nextPid := Proc(false, Fresh)][x := Proc(false, Returned(Value(k.nextPid)))]
      case _ =>
        && k'.nextPid == (if step.call.launch.NoImage? then k.nextPid else k.nextPid + 1) && k'.q == k.q
        && k'.procs == k.procs[x := Proc(false, Returned(Refused(OutOfMemory)))]
  {
    hide KInv, Terminated;
    NobodySends(k);
  }

  /** Booting adds one new process behind everybody else, and nothing more. */
  lemma Boots(k: KState, k': KState)
    requires KInv(k) && Next(k, Boot, k')
    ensures k.nextPid !in k.procs && k'.procs == k.procs[k.nextPid := Proc(false, Fresh)]
    ensures k'.nextPid == k.nextPid + 1 && k'.q.ready == k.q.ready + [k.nextPid]
    ensures k'.m == k.m && k'.running == k.running && k'.sliceEnd == k.sliceEnd
  {
    hide KInv;
    NobodySends(k);
  }

  /** A call that only computes, waits or gives way does so with its own answer, and touches no mail. */
  lemma Rests(k: KState, step: Step, k': KState, x: Pid)
    requires KInv(k) && Next(k, step, k') && k.running == Some(x) && step.Syscall?
    requires step.call.Plain? || step.call.Yield? || step.call.Sleep?
    ensures k'.m == k.m && k'.nextPid == k.nextPid
    ensures k'.procs == k.procs[x := Proc(false, Returned(if step.call.Sleep? then Value(0) else step.call.reply))]
  {
    hide KInv, Terminated, EventsFired, Give, SwitchTo;
    var k1, r :| Handled(k, x, step.call, k1, r)
      && Finished(Record(k1, x, step.call, r), x, r, step.now, step.note, k');
    if r.Switch? { SwitchSlice(Record(k1, x, step.call, r), Some(r.wait), step.now); }
  }

  // ----- The end of a process -----

  /** Everything that was its own is gone, and every pipe it was connected to has lost its sender and is not armed. */
  ghost predicate Vacated(m: MState, m': MState, x: Pid) {
    && (forall t :: t in m'.list.targets <==> t in m.list.targets && !Owns(m, x, t.id))
    && (forall p, s: SubId :: Owns(m', p, s) <==> Owns(m, p, s) && p != x)
    && (forall s :: s in m'.mailboxes <==> s in m.mailboxes && !Owns(m, x, s))
    && (forall s :: HasBox(m', s) <==> HasBox(m, s) && !Owns(m, x, s))
    && (forall s :: HasBox(m', s) ==>
          if Box(m, s).pipe == ConnectedTo(x) then Box(m', s).pipe == Disconnected && Box(m', s).queue.event.None?
          else Box(m', s).pipe == Box(m, s).pipe)
  }

  lemma VacatedList(m: MState, x: Pid)
    requires OwnersOk(m) && EndProcessSafe(m, x)
    ensures var m' := EndProcess(m, x).0;
      && (forall t :: t in m'.list.targets <==> t in m.list.targets && !Owns(m, x, t.id))
      && (forall p, s: SubId :: Owns(m', p, s) <==> Owns(m, p, s) && p != x)
  {
    hide AcksIn, WithoutAll;
    WithoutAllMembers(m.list.targets, OwnedBy(m, x));
    OverOwns(m, x);
    var m1 := m.(owned := m.owned - {x});
    assert forall p, s: SubId :: Owns(EndProcess(m, x).0, p, s) <==> Owns(m1, p, s);
  }

  lemma VacatedBoxes(m: MState, x: Pid)
    requires EndProcessSafe(m, x)
    ensures var m' := EndProcess(m, x).0;
      && (forall s :: s in m'.mailboxes <==> s in m.mailboxes && !Owns(m, x, s))
      && (forall s :: HasBox(m', s) <==> HasBox(m, s) && !Owns(m, x, s))
      && (forall s :: HasBox(m', s) ==>
            && (if Box(m, s).pipe == ConnectedTo(x) then Box(m', s).pipe == Disconnected && Box(m', s).queue.event.None?
                else Box(m', s).pipe == Box(m, s).pipe)
            && Box(m', s).queue.items == Box(m, s).queue.items)
  {
    hide AcksIn, WithoutAll;
    assert forall s: SubId :: s in OwnedBy(m, x) <==> Owns(m, x, s);
  }

  lemma VacatedNow(m: MState, x: Pid)
    requires OwnersOk(m) && EndProcessSafe(m, x)
    ensures Vacated(m, EndProcess(m, x).0, x)
    ensures forall s :: HasBox(EndProcess(m, x).0, s) ==>
      HasBox(m, s) && Box(EndProcess(m, x).0, s).queue.items == Box(m, s).queue.items
  {
    hide EndProcess, EndProcessSafe;
    VacatedList(m, x);
    VacatedBoxes(m, x);
  }

  /** The news of it goes to whoever is left, listens, and has room. */
  ghost predicate Told(m: MState, m': MState, note: Data) {
    forall s :: HasBox(m', s) ==>
      && HasBox(m, s)
      && Box(m', s).queue.items == Box(m, s).queue.items
           + if Listens(m, s, "process/terminated", false) && |Box(m, s).queue.items| < 100
             then [Message("process/terminated", note, Option.None)] else []
  }

  lemma EndMail(k: KState, x: Pid, note: Data, k': KState)
    requires MInv(k.m) && NotSending(k.m, x) && Terminated(k, x, note, k')
    ensures k'.procs == k.procs - {x} && k'.nextPid == k.nextPid
    ensures Vacated(k.m, k'.m, x)
    ensures Told(k.m, k'.m, note)
  {
    hide MInv, EndProcess, EndProcessSafe, Mail.Publish, PublishSafe, ProcessOver, EventsFired, Listens, Vacated;
    var (m1, events) := EndProcess(k.m, x);
    var k1 := k.(m := m1);
    EndProcessKeeps(k.m, x);
    OwnersFrom(k.m);
    OwnersFrom(m1);
    VacatedNow(k.m, x);
    PublishSpreads(k1, k', "process/terminated", note);
    VacatedOn(k.m, m1, k'.m, x, k1, k', note);
    forall s | HasBox(k'.m, s)
      ensures Listens(m1, s, "process/terminated", false) <==> Listens(k.m, s, "process/terminated", false)
    {
      LeftListens(k.m, m1, x, s, "process/terminated");
    }
  }

  lemma OwnersFrom(m: MState)
    requires MInv(m)
    ensures OwnersOk(m) && BoxesOk(m)
  {
    hide ListOk, OwnersOk, BoxesOk, EventsOk, SendersOk, AcksOk, PipesOk;
  }

  lemma VacatedOn(m: MState, m1: MState, m2: MState, x: Pid, k1: KState, k2: KState, note: Data)
    requires Vacated(m, m1, x) && k1.m == m1 && k2.m == m2 && Spreads(k1, k2, "process/terminated", note)
    requires m2 == m1.(mailboxes := m2.mailboxes) && m2.mailboxes.Keys == m1.mailboxes.Keys
    ensures Vacated(m, m2, x)
  {
    hide Listens;
    assert forall p, s: SubId :: Owns(m2, p, s) <==> Owns(m1, p, s);
  }

  lemma LeftListens(m: MState, m1: MState, x: Pid, s: SubId, topic: Topic)
    requires Vacated(m, m1, x) && HasBox(m1, s)
    ensures Listens(m1, s, topic, false) <==> Listens(m, s, topic, false)
  {
    if t :| t in m.list.targets && t.id == s && !t.reliable && Matches(t.filter, topic) { assert t in m1.list.targets; }
  }

  /** A deadly step ends the running process and takes the next one. */
  lemma DeadlyStep(k: KState, step: Step, k': KState, x: Pid) returns (k2: KState, k3: KState)
    requires Next(k, step, k') && Deadly(step) && k.running == Some(x)
    ensures k2.m == k.m && k2.procs - {x} == k.procs - {x} && k2.nextPid == k.nextPid && EventsFired(k.q, {}, k2.q)
    ensures Terminated(k2, x, step.note, k3) && k' == SwitchTo(k3, Option.None, step.now)
  {
    hide Terminated, SwitchTo, EventsFired;
    if step.Crash? {
      FiredNone(k.q);
      k2 := k;
      k3 :| Terminated(k, x, step.note, k3) && k' == SwitchTo(k3, Option.None, step.now);
    } else {
      var k1, r :| Handled(k, x, step.call, k1, r)
        && Finished(Record(k1, x, step.call, r), x, r, step.now, step.note, k');
      k2 := Record(k1, x, step.call, r);
      k3 :| Terminated(k2, x, step.note, k3) && k' == SwitchTo(k3, Option.None, step.now);
    }
  }

  /**
   * When a process ends, by itself or by a fault: it and everything of its own is gone, pipes it was
   * connected to lose their sender, and whoever listens and has room is told.
   */
  lemma Dies(k: KState, step: Step, k': KState, x: Pid)
    requires KInv(k) && Next(k, step, k') && Deadly(step) && k.running == Some(x)
    ensures k'.procs == k.procs - {x} && k'.nextPid == k.nextPid && k'.running != Some(x)
    ensures Vacated(k.m, k'.m, x)
    ensures Told(k.m, k'.m, step.note)
  {
    hide KInv, Next, Terminated, SwitchTo, MInv, NotSending, QInv, EventsFired, Told, Vacated, Placement;
    RunningFacts(k, x);
    var k2, k3 := DeadlyStep(k, step, k', x);
    EndMail(k2, x, step.note, k3);
    SwitchSlice(k3, Option.None, step.now);
    NextKeepsInv(k, step, k');
    RunsInTable(k');
  }

  lemma RunsInTable(k: KState)
    requires KInv(k)
    ensures k.running.Some? ==> k.running.value in k.procs
  {
    hide MInv, ProcOk, SenderOk, QInv;
  }

  lemma HangUpFires(m: MState, x: Pid, s: SubId)
    requires EndProcessSafe(m, x) && HasBox(m, s) && !Owns(m, x, s)
    requires Box(m, s).pipe == ConnectedTo(x) && Box(m, s).queue.event.Some?
    ensures Box(m, s).queue.event.value in EndProcess(m, x).1
  {
    hide AcksIn, WithoutAll;
    var m1 := DropAll(m.(owned := m.owned - {x}), OwnedBy(m, x)).0;
    assert HasBox(m1, s) && Box(m1, s) == Box(m, s);
  }

  lemma OnEventWakes(q: QState, qa: QState, events: set<EventId>, q': QState, p: Pid, e: EventId)
    requires EventsFired(qa, events, q') && e in events && qa.onEvent == q.onEvent
    requires forall w :: w in qa.waiting ==> w in q.waiting && q.waiting[w] == qa.waiting[w]
    requires forall w :: w in q.waiting && q.waiting[w] == p ==> OnEvent(q, e, w)
    ensures !Blocked(q', p)
  {
    forall w | w in qa.waiting && qa.waiting[w] == p ensures w in Waiters(qa, events) { assert OnEvent(q, e, w); }
  }

  /** Whoever waits on a pipe is woken when its one sender ends. */
  lemma HangUpWakes(k: KState, step: Step, k': KState, x: Pid, p: Pid, s: SubId)
    requires KInv(k) && Next(k, step, k') && Deadly(step) && k.running == Some(x)
    requires WaitsForMail(k, p, s) && HasBox(k.m, s) && !Owns(k.m, x, s) && PipeOf(k, s) == ConnectedTo(x)
    ensures p in k'.procs && !Blocked(k'.q, p) && HasBox(k'.m, s) && PipeOf(k', s) == Disconnected
  {
    hide KInv, Next, SwitchTo, EndProcess, EndProcessSafe, Mail.Publish, PublishSafe, Blocked;
    WaitersMail(k, p, s);
    BlockedIsElsewhere(k, p);
    Dies(k, step, k', x);
    var k2, k3 := DeadlyStep(k, step, k', x);
    var (m1, events) := EndProcess(k2.m, x);
    var more := Mail.Publish(m1, TERMINATED_TOPIC, step.note).1;
    var qa, qb :| ProcessOver(k2.q, x, qa) && EventsFired(qa, events, qb) && EventsFired(qb, more, k3.q);
    HangUpFires(k.m, x, s);
    OnEventWakes(k.q, qa, events, qb, p, Box(k.m, s).queue.event.value);
    var _ := FiredBefore(qb, more, k3.q);
    SwitchIdle(k3, step.now, p);
  }

  lemma SwitchIdle(k: KState, now: Instant, p: Pid)
    ensures Blocked(SwitchTo(k, Option.None, now).q, p) <==> Blocked(k.q, p)
  {
  }
}
