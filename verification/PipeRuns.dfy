/** Pipes over whole runs: the first process to deliver into a pipe is the only one that ever does. */
module PipeRuns {
  import opened Common
  import opened Topics
  import opened Queues
  import opened Subscriptions
  import opened Mail
  import opened MailInvariant
  import opened MailEnds
  import opened MailOrder
  import opened Kernel
  import opened KernelInvariant
  import opened KernelEnds
  import opened KernelSafety
  import opened KernelTheorems
  import opened OrderRuns

  function PipeOf(k: KState, s: SubId): PipeMode
    requires HasBox(k.m, s)
  {
    Box(k.m, s).pipe
  }

  // ----- One step -----

  /** A pipe stays as it is, is claimed by the process that delivers into it, or loses the process that ends. */
  ghost predicate StepPipe(k: KState, step: Step, k': KState, s: SubId)
    requires HasBox(k.m, s) && HasBox(k'.m, s)
  {
    || PipeOf(k', s) == PipeOf(k, s)
    || (PipeOf(k, s).NotConnected? && k.running.Some? && CallOf(k, step).Deliver?
         && PipeOf(k', s) == ConnectedTo(k.running.value))
    || (PipeOf(k, s).ConnectedTo? && k.running == Some(PipeOf(k, s).pid) && PipeOf(k', s) == Disconnected
        && PipeOf(k, s).pid !in k'.procs)
  }

  lemma PublishPipe(m: MState, subs: set<SubId>, message: Message, s: SubId)
    requires forall x :: x in subs ==> HasBox(m, x)
    ensures var m' := PublishTo(m, subs, message).0;
      (HasBox(m', s) <==> HasBox(m, s)) && (HasBox(m, s) ==> Box(m', s).pipe == Box(m, s).pipe)
  {
  }

  lemma EndPipe(k: KState, x: Pid, note: Data, k': KState, s: SubId)
    requires Terminated(k, x, note, k') && HasBox(k'.m, s)
    ensures x !in k'.procs && HasBox(k.m, s)
    ensures PipeOf(k', s) == if PipeOf(k, s) == ConnectedTo(x) then Disconnected else PipeOf(k, s)
  {
    hide EndProcessSafe, ProcessOver, EventsFired, FindAll, AcksIn, PublishTo;
    var m1 := EndProcess(k.m, x).0;
    PublishPipe(m1, FindAll(m1.list, TERMINATED_TOPIC, false), Message(TERMINATED_TOPIC, note, Option.None), s);
  }

  lemma EndStepPipe(k: KState, step: Step, k2: KState, x: Pid, now: Instant, note: Data, k': KState, s: SubId)
    requires Finished(k2, x, Terminate, now, note, k') && k2.m == k.m && HasBox(k'.m, s) && k.running == Some(x)
    ensures HasBox(k.m, s) && StepPipe(k, step, k', s)
  {
    hide Terminated;
    var k3 :| Terminated(k2, x, note, k3) && k' == SwitchTo(k3, Option.None, now);
    EndPipe(k2, x, note, k3, s);
  }

  lemma CallStepPipe(k: KState, step: Step, x: Pid, call: Call, now: Instant, note: Data, k': KState, s: SubId)
    requires KInv(k) && k.running == Some(x) && CallOf(k, step) == call && CallStep(k, x, call, now, note, k')
    requires HasBox(k.m, s) && HasBox(k'.m, s)
    ensures StepPipe(k, step, k', s)
  {
    hide KInv, CallEffect, CallSafe, Finished, EventsFired, Spawned;
    var k1, r :| Handled(k, x, call, k1, r) && Finished(Record(k1, x, call, r), x, r, now, note, k');
    var k2 := Record(k1, x, call, r);
    if call.Exec? {
      ExecMail(k, x, call, k1, r);
      FinishedMail(k2, x, r, now, note, k');
    } else if r.Terminate? {
      OnlyEndsTerminate(k.m, x, call);
      EndStepPipe(k, step, k2, x, now, note, k', s);
    } else {
      FinishedMail(k2, x, r, now, note, k');
      NewNotListed(k);
      CallPipes(k.m, x, call, s);
    }
  }

  lemma PipeStep(k: KState, step: Step, k': KState, s: SubId)
    requires KInv(k) && Next(k, step, k') && HasBox(k.m, s) && HasBox(k'.m, s)
    ensures StepPipe(k, step, k', s)
  {
    hide KInv, CallStep, Terminated, EventsFired, Give, AfterTick, PublishTo, FindAll;
    match step
    case Syscall(call, now, note) => CallStepPipe(k, step, k.running.value, call, now, note, k', s);
    case Repeat(now, note) => CallStepPipe(k, step, k.running.value, CallOf(k, step), now, note, k', s);
    case Irq(topic, data, _) => PublishPipe(k.m, FindAll(k.m.list, topic, false), Message(topic, data, Option.None), s);
    case Crash(now, note) =>
      assert Finished(k, k.running.value, Terminate, now, note, k');
      EndStepPipe(k, step, k, k.running.value, now, note, k', s);
    case _ =>
  }

  // ----- Whole runs -----

  /** The pipe is c's, with nothing in it but outstanding deliveries of c; or c is gone, and it is empty. */
  ghost predicate BelongsTo(k: KState, s: SubId, c: Pid)
    requires HasBox(k.m, s)
  {
    match PipeOf(k, s)
    case ConnectedTo(p) => p == c && forall i :: 0 <= i < |Items(k, s)| ==>
      var a := Items(k, s)[i].ack; a.Some? && a.value in k.m.pending && k.m.pending[a.value].sender == c
    case Disconnected => Items(k, s) == []
    case _ => false
  }

  lemma {:induction false} PipeForLife(ks: seq<KState>, steps: seq<Step>, i: nat, j: nat, s: SubId, c: Pid)
    requires Run(ks, steps) && Init(ks[0]) && Stays(ks, i, j, s) && PipeOf(ks[i], s) == ConnectedTo(c)
    ensures BelongsTo(ks[j], s, c)
    decreases j
  {
    hide KInv, Next, Init;
    RunKeepsInv(ks, steps, j);
    MailFromInv(ks[j]);
    assert PipeOk(ks[j].m, s);
    if i < j {
      PipeForLife(ks, steps, i, j - 1, s, c);
      RunKeepsInv(ks, steps, j - 1);
      PipeStep(ks[j - 1], steps[j - 1], ks[j], s);
    }
  }

  lemma DeliverRefusedByPipe(m: MState, x: Pid, call: Call, s: SubId)
    requires MInv(m) && x !in m.results && call.Deliver? && CallSafe(m, x, call) && ValidTopic(call.topic)
    requires s in FindAll(m.list, call.topic, true) && HasBox(m, s) && !PipeOpen(Box(m, s), x)
    ensures CallEffect(m, x, call) == (m.(nextAck := m.nextAck + 1), Continue(Refused(Ipc(PipeReserved))), {})
  {
    hide FindAll, ListOk, OwnersOk, BoxesOk, EventsOk, SendersOk, AcksOk, PipesOk;
    SoleTarget(m, call.topic);
    assert Only(FindAll(m.list, call.topic, true)) == s;
  }

  /**
   * In every run, from the moment a process is connected to a pipe: whoever else delivers to its topic
   * is refused, goes on running, and puts nothing into any mailbox.
   */
  lemma PipeRefuses(ks: seq<KState>, steps: seq<Step>, i: nat, j: nat, s: SubId, c: Pid, x: Pid)
    requires Run(ks, steps) && Init(ks[0]) && Stays(ks, i, j, s) && PipeOf(ks[i], s) == ConnectedTo(c)
    requires j < |steps| && steps[j].Syscall? && steps[j].call.Deliver? && ks[j].running == Some(x) && x != c
    requires ValidTopic(steps[j].call.topic) && s in FindAll(ks[j].m.list, steps[j].call.topic, true)
    ensures var k' := ks[j + 1];
      && k'.running == Some(x) && x in k'.procs && k'.procs[x] == Proc(false, Returned(Refused(Ipc(PipeReserved))))
      && k'.m.mailboxes == ks[j].m.mailboxes && k'.m.pending == ks[j].m.pending
  {
    hide KInv, Init, FindAll;
    PipeForLife(ks, steps, i, j, s, c);
    RunKeepsInv(ks, steps, j);
    assert Next(ks[j], steps[j], ks[j + 1]);
    RefusedStep(ks[j], steps[j], ks[j + 1], x, s);
  }

  lemma RefusedStep(k: KState, step: Step, k': KState, x: Pid, s: SubId)
    requires KInv(k) && Next(k, step, k') && step.Syscall? && step.call.Deliver? && k.running == Some(x)
    requires ValidTopic(step.call.topic) && s in FindAll(k.m.list, step.call.topic, true)
    requires HasBox(k.m, s) && !PipeOpen(Box(k.m, s), x)
    ensures k'.running == Some(x) && x in k'.procs && k'.procs[x] == Proc(false, Returned(Refused(Ipc(PipeReserved))))
    ensures k'.m.mailboxes == k.m.mailboxes && k'.m.pending == k.m.pending
  {
    hide KInv, MInv, CallEffect, CallSafe, EventsFired, FindAll;
    RunningFacts(k, x);
    var call, now, note := step.call, step.now, step.note;
    var k1, r :| Handled(k, x, call, k1, r) && Finished(Record(k1, x, call, r), x, r, now, note, k');
    DeliverRefusedByPipe(k.m, x, call, s);
  }
}
