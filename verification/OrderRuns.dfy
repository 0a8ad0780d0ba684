/** Mailboxes over whole runs: what a subscriber receives is what arrived, in the order it arrived. */
module OrderRuns {
  import opened Common
  import opened Topics
  import opened Queues
  import opened Subscriptions
  import opened Mail
  import opened MailInvariant
  import opened MailOps
  import opened MailEnds
  import opened MailOrder
  import opened Kernel
  import opened KernelInvariant
  import opened KernelSafety

  /** The call a step works on; a fault when it works on none. */
  function CallOf(k: KState, step: Step): Call {
    match step
    case Syscall(call, _, _) => call
    case Repeat(_, _) =>
      if k.running.Some? && k.running.value in k.procs && k.procs[k.running.value].frame.Calling?
      then k.procs[k.running.value].frame.call else Fault
    case _ => Fault
  }

  function Items(k: KState, s: SubId): seq<Message>
    requires HasBox(k.m, s)
  {
    Box(k.m, s).queue.items
  }

  // ----- One step, seen from outside -----

  /** What the acting process gets out of this subscription in this step. */
  function Got(k: KState, step: Step, k': KState, s: SubId): seq<Message> {
    if k.running.Some? && CallOf(k, step).Receive? && CallOf(k, step).sub == s && k.running.value in k'.procs
    then
      match k'.procs[k.running.value].frame
      case Returned(Received(message)) => [message]
      case _ => []
    else []
  }

  /** The news that a process has ended goes to whoever subscribed to it. */
  ghost predicate Notice(k: KState, s: SubId, note: Data, message: Message) {
    message == Message(TERMINATED_TOPIC, note, Option.None) && s in FindAll(k.m.list, TERMINATED_TOPIC, false)
  }

  /** A message this step has reason to put into this mailbox. */
  ghost predicate SentBy(k: KState, step: Step, s: SubId, message: Message) {
    match step
    case Syscall(call, _, note) =>
      || Sends(k.m, call, s, message)
      || ((call.Exit? || call.Fault?) && Notice(k, s, note, message))
    case Irq(topic, data, _) => message == Message(topic, data, Option.None) && s in FindAll(k.m.list, topic, false)
    case Crash(_, note) => Notice(k, s, note, message)
    case _ => false
  }

  /** What a mailbox lives through in one step: nothing, one sent message at its end, or its first one received. */
  ghost predicate StepInOrder(k: KState, step: Step, k': KState, s: SubId)
    requires HasBox(k.m, s) && HasBox(k'.m, s)
  {
    var was, now := Items(k, s), Items(k', s);
    || (now == was && Got(k, step, k', s) == [])
    || (|now| == |was| + 1 && now[..|was|] == was && SentBy(k, step, s, now[|was|]) && Got(k, step, k', s) == [])
    || (was != [] && now == was[1..] && Got(k, step, k', s) == [was[0]] && Owns(k.m, k.running.value, s))
  }

  // ----- Every step is one of these -----

  lemma FinishedMail(k: KState, x: Pid, r: SyscallResult, now: Instant, note: Data, k': KState)
    requires Finished(k, x, r, now, note, k') && !r.Terminate?
    ensures k'.m == k.m && k'.procs == k.procs
  {
  }

  lemma OnlyEndsTerminate(m: MState, x: Pid, call: Call)
    requires CallSafe(m, x, call) && CallEffect(m, x, call).1.Terminate?
    ensures (call.Exit? || call.Fault?) && CallEffect(m, x, call).0 == m
  {
  }

  lemma DropOrder(m: MState, x: Pid, s: SubId)
    requires EndProcessSafe(m, x) && HasBox(EndProcess(m, x).0, s)
    ensures HasBox(m, s) && Box(EndProcess(m, x).0, s).queue.items == Box(m, s).queue.items
  {
    hide AcksIn;
  }

  /** Who is left in the list was in it before. */
  lemma StillListed(m: MState, x: Pid, topic: Topic, s: SubId)
    requires EndProcessSafe(m, x) && s in FindAll(EndProcess(m, x).0.list, topic, false)
    ensures s in FindAll(m.list, topic, false)
  {
    hide AcksIn;
    var l := EndProcess(m, x).0.list;
    var i :| 0 <= i < |l.targets| && !l.targets[i].reliable && Matches(l.targets[i].filter, topic)
      && l.targets[i].id == s;
    WithoutAllMembers(m.list.targets, OwnedBy(m, x));
    assert l.targets[i] in m.list.targets;
    var j :| 0 <= j < |m.list.targets| && m.list.targets[j] == l.targets[i];
  }

  /** Ending a process appends its notice, if anything, to the mailboxes that remain. */
  lemma EndOrder(k: KState, x: Pid, note: Data, k': KState, s: SubId)
    requires Terminated(k, x, note, k') && HasBox(k'.m, s)
    ensures x !in k'.procs && HasBox(k.m, s)
    ensures Items(k', s) == Items(k, s)
      || (Items(k', s) == Items(k, s) + [Message(TERMINATED_TOPIC, note, Option.None)]
           && s in FindAll(k.m.list, TERMINATED_TOPIC, false))
  {
    hide EndProcess, EndProcessSafe, ProcessOver, EventsFired, FindAll;
    var m1 := EndProcess(k.m, x).0;
    assert HasBox(m1, s);
    DropOrder(k.m, x, s);
    if s in FindAll(m1.list, TERMINATED_TOPIC, false) { StillListed(k.m, x, TERMINATED_TOPIC, s); }
    PublishOrder(m1, FindAll(m1.list, TERMINATED_TOPIC, false), Message(TERMINATED_TOPIC, note, Option.None), s);
  }

  lemma ReceiveGets(m: MState, x: Pid, call: Call)
    requires CallSafe(m, x, call) && call.Receive?
    ensures var (m', r, _) := CallEffect(m, x, call);
      if Owns(m, x, call.sub) && HasBox(m, call.sub) && Box(m, call.sub).queue.items != []
      then
        && r == Continue(Received(Box(m, call.sub).queue.items[0]))
        && HasBox(m', call.sub) && Box(m', call.sub).queue.items == Box(m, call.sub).queue.items[1..]
      else
        r.RepeatAfter? || (r.Continue? && !r.reply.Received?)
  {
  }

  /** The call itself, before its process is switched or ended. */
  lemma CallOrder(k: KState, step: Step, x: Pid, call: Call, k': KState, s: SubId)
    requires KInv(k) && k.running == Some(x) && CallSafe(k.m, x, call) && CallOf(k, step) == call
      && (step.Syscall? || step.Repeat?)
    requires step.Repeat? ==> Repeatable(call) && (call.Deliver? ==> x in k.m.results)
    requires var (m', r, _) := CallEffect(k.m, x, call);
      !r.Terminate? && k'.m == m' && x in k'.procs && k'.procs[x] == Recorded(call, r)
    requires HasBox(k.m, s) && HasBox(k'.m, s)
    ensures StepInOrder(k, step, k', s)
  {
    hide KInv, CallEffect, CallSafe, FindAll;
    NewNotListed(k);
    CallInOrder(k.m, x, call, s);
    if call.Receive? { ReceiveGets(k.m, x, call); }
    else if step.Repeat? && call.Deliver? { CollectOrder(k.m, x, call); }
  }

  lemma NewNotListed(k: KState)
    requires KInv(k)
    ensures k.m.list.next !in k.m.mailboxes
  {
    hide Placement, ProcOk, SenderOk, OwnersOk, BoxesOk, EventsOk, SendersOk, AcksOk, PipesOk;
    NextIsNew(k.m);
  }

  lemma CollectOrder(m: MState, x: Pid, call: Call)
    requires call.Deliver? && x in m.results && CallSafe(m, x, call)
    ensures CallEffect(m, x, call).0.mailboxes == m.mailboxes
  {
  }

  lemma ExecMail(k: KState, x: Pid, call: Call, k1: KState, r: SyscallResult)
    requires call.Exec? && Handled(k, x, call, k1, r)
    ensures k1.m == k.m && r.Continue?
  {
    hide Give;
  }

  lemma SameOrder(k: KState, step: Step, k': KState, s: SubId)
    requires k'.m == k.m && HasBox(k.m, s) && !CallOf(k, step).Receive?
    ensures StepInOrder(k, step, k', s)
  {
  }

  lemma EndStepOrder(k: KState, step: Step, k2: KState, x: Pid, now: Instant, note: Data, k': KState, s: SubId)
    requires step == Step.Syscall(CallOf(k, step), now, note) || step == Step.Crash(now, note)
    requires CallOf(k, step).Exit? || CallOf(k, step).Fault?
    requires Finished(k2, x, Terminate, now, note, k') && k2.m == k.m && HasBox(k'.m, s)
    ensures HasBox(k.m, s) && StepInOrder(k, step, k', s)
  {
    hide Terminated;
    var k3 :| Terminated(k2, x, note, k3) && k' == SwitchTo(k3, Option.None, now);
    EndOrder(k2, x, note, k3, s);
  }

  lemma CallStepOrder(k: KState, step: Step, x: Pid, call: Call, now: Instant, note: Data, k': KState, s: SubId)
    requires KInv(k) && k.running == Some(x) && x in k.procs && CallStep(k, x, call, now, note, k')
    requires step == Step.Syscall(call, now, note) || (step == Step.Repeat(now, note) && CallOf(k, step) == call)
    requires step.Repeat? ==> Repeatable(call) && (call.Deliver? ==> x in k.m.results)
    requires HasBox(k.m, s) && HasBox(k'.m, s)
    ensures StepInOrder(k, step, k', s)
  {
    hide KInv, CallEffect, CallSafe, Finished, EventsFired, Sends, StepInOrder, Spawned;
    var k1, r :| Handled(k, x, call, k1, r) && Finished(Record(k1, x, call, r), x, r, now, note, k');
    var k2 := Record(k1, x, call, r);
    if call.Exec? {
      ExecMail(k, x, call, k1, r);
      FinishedMail(k2, x, r, now, note, k');
      SameOrder(k, step, k', s);
    }
    else if r.Terminate? {
      OnlyEndsTerminate(k.m, x, call);
      EndStepOrder(k, step, k2, x, now, note, k', s);
    } else {
      FinishedMail(k2, x, r, now, note, k');
      CallOrder(k, step, x, call, k', s);
    }
  }

  lemma StepOrder(k: KState, step: Step, k': KState, s: SubId)
    requires KInv(k) && Next(k, step, k') && HasBox(k.m, s) && HasBox(k'.m, s)
    ensures StepInOrder(k, step, k', s)
  {
    hide KInv, CallStep, Terminated, EventsFired, Give, AfterTick, StepInOrder;
    match step
    case Boot => SameOrder(k, step, k', s);
    case Tick(_) => SameOrder(k, step, k', s);
    case Syscall(call, now, note) => CallStepOrder(k, step, k.running.value, call, now, note, k', s);
    case Repeat(now, note) =>
      var x := k.running.value;
      RepeatMayCall(k, x);
      RepeatHasVerdict(k, x);
      CallStepOrder(k, step, x, CallOf(k, step), now, note, k', s);
    case Irq(topic, data, _) => IrqOrder(k, step, k', s);
    case Crash(now, note) =>
      assert Finished(k, k.running.value, Terminate, now, note, k');
      EndStepOrder(k, step, k, k.running.value, now, note, k', s);
  }

  lemma RepeatHasVerdict(k: KState, x: Pid)
    requires KInv(k) && k.running == Some(x) && x in k.procs && k.procs[x].repeat && k.procs[x].frame.Calling?
    ensures k.procs[x].frame.call.Deliver? ==> x in k.m.results
  {
    hide MInv, QInv;
    assert ProcOk(k, x);
  }

  lemma IrqOrder(k: KState, step: Step, k': KState, s: SubId)
    requires step.Irq? && Next(k, step, k') && HasBox(k.m, s) && HasBox(k'.m, s)
    ensures StepInOrder(k, step, k', s)
  {
    hide EventsFired, FindAll, PublishTo;
    PublishOrder(k.m, FindAll(k.m.list, step.topic, false), Message(step.topic, step.data, Option.None), s);
  }

  lemma SwitchedReceive(k: KState, x: Pid, call: Call, now: Instant, note: Data, k': KState)
    requires call.Receive? && CallStep(k, x, call, now, note, k')
    ensures CallSafe(k.m, x, call) && k'.m == CallEffect(k.m, x, call).0
    ensures x in k'.procs && k'.procs[x] == Recorded(call, CallEffect(k.m, x, call).1)
  {
    hide CallEffect, CallSafe, Finished, EventsFired;
    var k1, r :| Handled(k, x, call, k1, r) && Finished(Record(k1, x, call, r), x, r, now, note, k');
    ReceiveGets(k.m, x, call);
    FinishedMail(Record(k1, x, call, r), x, r, now, note, k');
  }

  /** Whatever a process gets is the first message of a mailbox it owns. */
  lemma GotFirst(k: KState, step: Step, k': KState, s: SubId)
    requires Next(k, step, k') && Got(k, step, k', s) != []
    ensures HasBox(k.m, s) && HasBox(k'.m, s) && Items(k, s) != []
    ensures Got(k, step, k', s) == [Items(k, s)[0]] && Items(k', s) == Items(k, s)[1..]
  {
    hide CallStep, CallEffect, CallSafe;
    SwitchedReceive(k, k.running.value, CallOf(k, step), step.now, step.note, k');
    ReceiveGets(k.m, k.running.value, CallOf(k, step));
  }

  // ----- Whole runs -----

  ghost predicate Stays(ks: seq<KState>, i: nat, j: nat, s: SubId) {
    i <= j < |ks| && forall l :: i <= l <= j ==> HasBox(ks[l].m, s)
  }

  /** Everything received from the subscription in the steps from i up to j. */
  function Yielded(ks: seq<KState>, steps: seq<Step>, i: nat, j: nat, s: SubId): seq<Message>
    requires |ks| == |steps| + 1 && i <= j < |ks|
    decreases j
  {
    if j == i then [] else Yielded(ks, steps, i, j - 1, s) + Got(ks[j - 1], steps[j - 1], ks[j], s)
  }

  /** Everything put into the mailbox in the steps from i up to j. */
  ghost function Arrived(ks: seq<KState>, i: nat, j: nat, s: SubId): seq<Message>
    requires Stays(ks, i, j, s)
    decreases j
  {
    if j == i then []
    else
      var was, now := Items(ks[j - 1], s), Items(ks[j], s);
      Arrived(ks, i, j - 1, s) + if |was| < |now| then now[|was|..] else []
  }

  /**
   * First in, first out, over every run: what was in the mailbox followed by all that arrived is
   * what was received followed by what is left.
   */
  lemma {:induction false} FirstInFirstOut(ks: seq<KState>, steps: seq<Step>, i: nat, j: nat, s: SubId)
    requires Run(ks, steps) && Init(ks[0]) && Stays(ks, i, j, s)
    ensures Items(ks[i], s) + Arrived(ks, i, j, s) == Yielded(ks, steps, i, j, s) + Items(ks[j], s)
    decreases j
  {
    hide KInv, Next, Init, Items, Got;
    if i < j {
      FirstInFirstOut(ks, steps, i, j - 1, s);
      RunKeepsInv(ks, steps, j - 1);
      StepOrder(ks[j - 1], steps[j - 1], ks[j], s);
      OneMore(Items(ks[i], s), Arrived(ks, i, j - 1, s), Yielded(ks, steps, i, j - 1, s),
        Items(ks[j - 1], s), Items(ks[j], s), Got(ks[j - 1], steps[j - 1], ks[j], s));
    }
  }

  lemma OneMore(start: seq<Message>, came: seq<Message>, went: seq<Message>, was: seq<Message>, now: seq<Message>,
      got: seq<Message>)
    requires start + came == went + was
    requires (|was| <= |now| && now[..|was|] == was && got == []) || (was != [] && now == was[1..] && got == [was[0]])
    ensures start + (came + if |was| < |now| then now[|was|..] else []) == went + got + now
  {
    var more := if |was| < |now| then now[|was|..] else [];
    assert start + (came + more) == (start + came) + more == went + was + more;
    assert got + now == was + more;
    assert went + was + more == went + (was + more);
    assert went + got + now == went + (got + now);
  }
}
