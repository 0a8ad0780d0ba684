/** Every reliable delivery over whole runs: enqueued once, decided once, reported once. */
module DeliveryRuns {
  import opened Common
  import opened Topics
  import opened Queues
  import opened Subscriptions
  import opened Mail
  import opened MailInvariant
  import opened Kernel
  import opened KernelInvariant
  import opened KernelCalls
  import opened KernelEnds
  import opened KernelSafety
  import opened KernelTheorems
  import opened Delivery
  import opened OrderRuns

  // ----- One step -----

  /** The process a step is made for; nobody yet, when the kernel acts on its own. */
  function Actor(k: KState, step: Step): Pid {
    if (step.Syscall? || step.Repeat? || step.Crash?) && k.running.Some? then k.running.value else k.nextPid
  }

  ghost predicate OthersKept(k: KState, k': KState, x: Pid) {
    forall p :: p in k.procs && p != x ==> p in k'.procs && k'.procs[p] == k.procs[p]
  }

  lemma TerminatedJudges(k: KState, x: Pid, note: Data, k': KState, call: Call)
    requires MInv(k.m) && NotSending(k.m, x) && x !in k.m.results && Terminated(k, x, note, k') && !call.Acknowledge?
    ensures Judges(k.m, k'.m, x, call) && OthersKept(k, k', x)
  {
    hide MInv, Judges, EndProcess, EndProcessSafe, Mail.Publish, PublishSafe, ProcessOver, EventsFired;
    EndJudges(k.m, x, note, call);
  }

  lemma ExecJudges(k: KState, x: Pid, call: Call, k1: KState, r: SyscallResult)
    requires KInv(k) && call.Exec? && Handled(k, x, call, k1, r)
    ensures Judges(k.m, k1.m, x, call) && OthersKept(k, k1, x) && r.Continue?
  {
    hide KInv, Judges, Give;
    NobodySends(k);
    UndecidedJudges(k.m, k1.m, x, call);
  }

  lemma EndStepJudges(k: KState, x: Pid, call: Call, now: Instant, note: Data, k': KState)
    requires MInv(k.m) && NotSending(k.m, x) && x !in k.m.results && !call.Acknowledge?
    requires Finished(k, x, Terminate, now, note, k')
    ensures Judges(k.m, k'.m, x, call) && OthersKept(k, k', x)
  {
    hide MInv, Judges, Terminated;
    var k3 :| Terminated(k, x, note, k3) && k' == SwitchTo(k3, Option.None, now);
    TerminatedJudges(k, x, note, k3, call);
  }

  lemma CallStepJudges(k: KState, x: Pid, call: Call, now: Instant, note: Data, k': KState)
    requires KInv(k) && k.running == Some(x) && x in k.procs && CallStep(k, x, call, now, note, k')
    requires k.procs[x].repeat ==> Repeatable(call)
    ensures Judges(k.m, k'.m, x, call) && OthersKept(k, k', x)
  {
    hide MInv, Judges, KInv, Finished, EventsFired, CallEffect, CallSafe, Spawned, Recorded, OthersKept,
      ProcessExists, QInv;
    RunningFacts(k, x);
    var k1, r :| Handled(k, x, call, k1, r) && Finished(Record(k1, x, call, r), x, r, now, note, k');
    var k2 := Record(k1, x, call, r);
    if call.Exec? { ExecJudges(k, x, call, k1, r); } else { CallJudges(k.m, x, call); }
    RecordOthers(k, k1, x, call, r);
    if r.Terminate? {
      OnlyEndsTerminate(k.m, x, call);
      EndStepJudges(k2, x, call, now, note, k');
    } else {
      FinishedMail(k2, x, r, now, note, k');
    }
    KeptThrough(k, k2, k', x);
  }

  lemma RecordOthers(k: KState, k1: KState, x: Pid, call: Call, r: SyscallResult)
    requires k1.procs == k.procs || OthersKept(k, k1, x)
    ensures OthersKept(k, Record(k1, x, call, r), x)
  {
    hide Recorded;
  }

  lemma KeptThrough(k: KState, k2: KState, k': KState, x: Pid)
    requires OthersKept(k, k2, x) && (k'.procs == k2.procs || OthersKept(k2, k', x))
    ensures OthersKept(k, k', x)
  {
  }

  lemma StepJudges(k: KState, step: Step, k': KState)
    requires KInv(k) && Next(k, step, k')
    ensures Judges(k.m, k'.m, Actor(k, step), CallOf(k, step)) && OthersKept(k, k', Actor(k, step))
  {
    hide KInv, MInv, Judges, CallStep, Terminated, EventsFired, Give, AfterTick, Mail.Publish, PublishSafe, PublishTo;
    var x := Actor(k, step);
    match step
    case Boot => NobodySends(k); UndecidedJudges(k.m, k'.m, x, Fault);
    case Syscall(call, now, note) => CallStepJudges(k, x, call, now, note, k');
    case Repeat(now, note) =>
      RepeatMayCall(k, x);
      CallStepJudges(k, x, CallOf(k, step), now, note, k');
    case Tick(now) => UndecidedJudges(k.m, k'.m, x, Fault);
    case Irq(topic, data, _) => IrqJudges(k.m, topic, data, x);
    case Crash(now, note) =>
      RunningFacts(k, x);
      var k1 :| Terminated(k, x, note, k1) && k' == SwitchTo(k1, Option.None, now);
      TerminatedJudges(k, x, note, k1, Fault);
  }

  lemma IrqJudges(m: MState, topic: Topic, data: Data, x: Pid)
    requires PublishSafe(m, topic)
    ensures Judges(m, Mail.Publish(m, topic, data).0, x, Fault)
  {
    hide Undecided, Judges;
    PublishUndecided(m, FindAll(m.list, topic, false), Message(topic, data, Option.None), x);
    UndecidedJudges(m, Mail.Publish(m, topic, data).0, x, Fault);
  }

  /** A message that arrives in a mailbox wakes whoever is blocked on it in the same step. */
  lemma ArrivalWakes(k: KState, step: Step, k': KState, p: Pid, s: SubId)
    requires KInv(k) && Next(k, step, k') && WaitsForMail(k, p, s)
    requires HasBox(k'.m, s) && Box(k'.m, s).queue.items != []
    ensures p in k'.procs && k'.procs[p] == k.procs[p] && !Blocked(k'.q, p)
  {
    hide KInv, Next, Judges;
    NobodySends(k);
    BlockedNotRunning(k, p);
    StepJudges(k, step, k');
    NextKeepsInv(k, step, k');
    WaitersMail(k', p, s);
  }

  lemma BlockedNotRunning(k: KState, p: Pid)
    requires KInv(k) && Blocked(k.q, p)
    ensures k.running != Some(p)
  {
    hide MInv, ProcOk, SenderOk, QInv;
  }

  // ----- Sending and collecting -----

  /** In this step process p hands over a message, which gets the acknowledgement id a. */
  ghost predicate Sent(k: KState, step: Step, k': KState, a: AckId, p: Pid) {
    && step.Syscall? && step.call.Deliver? && k.running == Some(p)
    && a == k.m.nextAck && a in k'.m.pending
  }

  function MessageOf(call: Call, a: AckId): Message
    requires call.Deliver?
  {
    Message(call.topic, call.data, Some(a))
  }

  function VerdictReply(v: Verdict): Reply {
    match v case Accepted => Value(0) case Failed(e) => Refused(Ipc(Delivery(e)))
  }

  /** A repeated delivery with a verdict hands it to the process, keeps no trace of it, and sends nothing. */
  lemma Collects(k: KState, step: Step, k': KState, p: Pid)
    requires KInv(k) && Next(k, step, k') && step.Repeat? && k.running == Some(p) && p in k.m.results
    ensures k'.running == Some(p) && p in k'.procs
    ensures k'.procs[p] == Proc(false, Returned(VerdictReply(k.m.results[p])))
    ensures p !in k'.m.results && k'.m.pending == k.m.pending
  {
    hide KInv, Terminated, EventsFired;
    RunningFacts(k, p);
  }

  /** A fresh delivery is recorded for its sender, and its message lies in exactly one place. */
  lemma SentFacts(k: KState, step: Step, k': KState, a: AckId, p: Pid)
    requires KInv(k) && Next(k, step, k') && Sent(k, step, k', a, p)
    ensures k'.m.pending[a].sender == p && a < k'.m.nextAck
    ensures p in k'.procs && k'.procs[p] == Proc(true, Calling(step.call))
    ensures exists s :: Lies(k'.m, s, MessageOf(step.call, a))
    ensures forall s, message :: Lies(k'.m, s, message) && message.ack == Some(a) ==> message == MessageOf(step.call, a)
  {
    hide KInv, MInv, EventsFired, Finished, CallEffect, CallSafe;
    RunningFacts(k, p);
    var x, call, now, note := p, step.call, step.now, step.note;
    var k1, r :| Handled(k, x, call, k1, r) && Finished(Record(k1, x, call, r), x, r, now, note, k');
    var k2 := Record(k1, x, call, r);
    DeliverNeverEnds(k.m, p, call);
    FinishedMail(k2, x, r, now, note, k');
    DeliverSends(k.m, p, call);
  }

  lemma DeliverNeverEnds(m: MState, p: Pid, call: Call)
    requires call.Deliver? && CallSafe(m, p, call)
    ensures !CallEffect(m, p, call).1.Terminate?
  {
  }

  lemma DeliverSends(m: MState, p: Pid, call: Call)
    requires MInv(m) && p !in m.results && call.Deliver? && CallSafe(m, p, call)
    requires m.nextAck in CallEffect(m, p, call).0.pending
    ensures var (m', r, _) := CallEffect(m, p, call);
      && r.RepeatAfter? && m'.pending[m.nextAck].sender == p && m'.nextAck == m.nextAck + 1
      && (exists s :: Lies(m', s, MessageOf(call, m.nextAck)))
      && (forall s, message :: Lies(m', s, message) && message.ack == Some(m.nextAck) ==>
           message == MessageOf(call, m.nextAck))
  {
    hide ListOk, OwnersOk, BoxesOk, EventsOk, PipesOk, AcksOk, DeliverTo;
    assert m.nextAck !in m.pending;
    var all := FindAll(m.list, call.topic, true);
    assert all != {} && m.mailboxes[Only(all)].Some?;
    DeliverToSends(m, p, Only(all), call.topic, call.data);
    assert Lies(CallEffect(m, p, call).0, Only(all), MessageOf(call, m.nextAck));
  }

  lemma DeliverToSends(m: MState, p: Pid, sub: SubId, topic: Topic, data: Data)
    requires MInv(m) && HasBox(m, sub) && m.nextAck in DeliverTo(m, p, sub, topic, data).0.pending
    ensures var (m', r, _) := DeliverTo(m, p, sub, topic, data);
      var sent := Message(topic, data, Some(m.nextAck));
      && r.Ok? && r.value.ToProcess? && m'.pending[m.nextAck].sender == p && m'.nextAck == m.nextAck + 1
      && Lies(m', sub, sent)
      && (forall s, message :: Lies(m', s, message) && message.ack == Some(m.nextAck) ==> message == sent)
  {
    hide ListOk, OwnersOk, BoxesOk, EventsOk, PipesOk;
    assert m.nextAck !in m.pending;
    var (m', r, _) := DeliverTo(m, p, sub, topic, data);
    var sent := Message(topic, data, Some(m.nextAck));
    assert Box(m', sub).queue.items[|Box(m, sub).queue.items|] == sent;
    forall s, message | Lies(m, s, message) && message.ack.Some? ensures message.ack != Some(m.nextAck) {
      LyingIsPending(m, s, message);
    }
    forall s, message | Lies(m', s, message) && message.ack == Some(m.nextAck) ensures message == sent {
      assert !Lies(m, s, message);
    }
  }

  lemma LyingIsPending(m: MState, s: SubId, message: Message)
    requires AcksOk(m) && Lies(m, s, message) && message.ack.Some?
    ensures message.ack.value in m.pending
  {
    var i :| 0 <= i < |Box(m, s).queue.items| && Box(m, s).queue.items[i] == message;
    assert Queued(m, s, i, message.ack.value);
  }

  // ----- Whole runs -----

  /** Still in a mailbox, taken out by the receiver, decided, or known to the sender. */
  datatype Fate = Lying | Taken | Judged(verdict: Verdict) | Collected(verdict: Verdict)

  predicate LiesAt(m: MState, s: SubId, i: nat, message: Message) {
    HasBox(m, s) && i < |Box(m, s).queue.items| && Box(m, s).queue.items[i] == message
  }

  /** The mailbox the delivery lies in goes away. */
  ghost predicate Gone(m: MState, m': MState, a: AckId) {
    exists s, i: nat :: Queued(m, s, i, a) && !HasBox(m', s)
  }

  /** Some process receives the delivery. */
  ghost predicate Takes(k: KState, step: Step, k': KState, a: AckId) {
    exists s :: Got(k, step, k', s) != [] && Got(k, step, k', s)[0].ack == Some(a)
  }

  /**
   * The fate, before step j, of the delivery `a` that process p sent in step i, told by what the
   * processes do: it is received, or its mailbox goes away before; once received it is decided by an
   * acknowledgement and nothing else; and p learns about it when its call is repeated.
   */
  ghost function Track(ks: seq<KState>, steps: seq<Step>, i: nat, j: nat, a: AckId, p: Pid): Fate
    requires |ks| == |steps| + 1 && i < j < |ks|
    decreases j
  {
    if j == i + 1 then Lying
    else FateAfter(ks[j - 1], steps[j - 1], ks[j], Track(ks, steps, i, j - 1, a, p), a, p)
  }

  ghost function FateAfter(k: KState, step: Step, k': KState, fate: Fate, a: AckId, p: Pid): Fate {
    match fate
    case Lying =>
      if Gone(k.m, k'.m, a) then Judged(Failed(NoSubscriber)) else if Takes(k, step, k', a) then Taken else Lying
    case Taken => if Acknowledges(k, step, a) then Judged(VerdictBy(CallOf(k, step), a)) else Taken
    case Judged(v) => if step.Repeat? && k.running == Some(p) then Collected(v) else fate
    case Collected(_) => fate
  }

  predicate Acknowledges(k: KState, step: Step, a: AckId) {
    CallOf(k, step).Acknowledge? && CallOf(k, step).ack == a
  }

  /** The message is in exactly one place of one mailbox while it lies there, and nowhere afterwards. */
  ghost predicate WhereAt(m: MState, fate: Fate, a: AckId, message: Message) {
    && (forall s, i: nat, s', j: nat :: Queued(m, s, i, a) && Queued(m, s', j, a) ==> s == s' && i == j)
    && if fate.Lying? then exists s, i: nat :: LiesAt(m, s, i, message) else forall s, i: nat :: !Queued(m, s, i, a)
  }

  /** What the tables say about the delivery and its sender. */
  ghost predicate SenderAt(k: KState, fate: Fate, a: AckId, p: Pid, call: Call) {
    && a < k.m.nextAck
    && (a in k.m.pending <==> fate.Lying? || fate.Taken?)
    && match fate
       case Judged(v) =>
         && p in k.m.results && k.m.results[p] == v
         && p in k.procs && k.procs[p] == Proc(true, Calling(call)) && !Blocked(k.q, p)
       case Collected(_) => true
       case _ =>
         && k.m.pending[a].sender == p && p !in k.m.results
         && p in k.procs && k.procs[p] == Proc(true, Calling(call)) && Blocked(k.q, p)
  }

  ghost predicate AtFate(k: KState, fate: Fate, a: AckId, p: Pid, call: Call)
    requires call.Deliver?
  {
    WhereAt(k.m, fate, a, MessageOf(call, a)) && SenderAt(k, fate, a, p, call)
  }

  // ----- Where the message is -----

  lemma OncePlaced(k: KState, a: AckId)
    requires KInv(k)
    ensures AcksOk(k.m)
    ensures forall s, i: nat, s', j: nat :: Queued(k.m, s, i, a) && Queued(k.m, s', j, a) ==> s == s' && i == j
  {
    hide Placement, ProcOk, SenderOk, ListOk, OwnersOk, BoxesOk, EventsOk, SendersOk, PipesOk;
  }

  /** No step puts an old delivery anywhere it was not before. */
  lemma StaysWhereItWas(m: MState, m': MState, s: SubId, i: nat, a: AckId)
    requires MessagesKept(m, m') && a < m.nextAck && Queued(m', s, i, a)
    ensures exists j: nat :: Queued(m, s, j, a)
  {
    var message := Box(m', s).queue.items[i];
    assert Lies(m', s, message);
    assert Lies(m, s, message);
    var j :| 0 <= j < |Box(m, s).queue.items| && Box(m, s).queue.items[j] == message;
    assert Queued(m, s, j, a);
  }

  /** Taking it out leaves it nowhere. */
  lemma TakenIsNowhere(k: KState, step: Step, k': KState, a: AckId)
    requires KInv(k) && Next(k, step, k') && a < k.m.nextAck && MessagesKept(k.m, k'.m) && Takes(k, step, k', a)
    ensures forall s, i: nat :: !Queued(k'.m, s, i, a)
  {
    hide KInv, Next, Got, MessagesKept;
    var s :| Got(k, step, k', s) != [] && Got(k, step, k', s)[0].ack == Some(a);
    GotFirst(k, step, k', s);
    assert Queued(k.m, s, 0, a);
    OncePlaced(k, a);
    forall i: nat ensures Queued(k'.m, s, i, a) ==> Queued(k.m, s, i + 1, a) {}
    forall s', i: nat | Queued(k'.m, s', i, a) ensures false { StaysWhereItWas(k.m, k'.m, s', i, a); }
  }

  /** Not taken, and its mailbox still there: it moves up by one place at most. */
  lemma StillLies(k: KState, step: Step, k': KState, s: SubId, i: nat, a: AckId)
    requires KInv(k) && Next(k, step, k') && Queued(k.m, s, i, a) && HasBox(k'.m, s) && !Takes(k, step, k', a)
    ensures exists j: nat :: LiesAt(k'.m, s, j, Items(k, s)[i])
  {
    hide KInv, Next, Got, SentBy;
    StepOrder(k, step, k', s);
    if Items(k', s) == Items(k, s)[1..] && Got(k, step, k', s) == [Items(k, s)[0]] {
      assert i > 0;
      assert LiesAt(k'.m, s, i - 1, Items(k, s)[i]);
    } else {
      assert LiesAt(k'.m, s, i, Items(k, s)[i]);
    }
  }

  lemma WhereNext(k: KState, step: Step, k': KState, fate: Fate, a: AckId, p: Pid, message: Message)
    requires KInv(k) && KInv(k') && Next(k, step, k') && WhereAt(k.m, fate, a, message) && message.ack == Some(a)
    requires a < k.m.nextAck && MessagesKept(k.m, k'.m)
    ensures WhereAt(k'.m, FateAfter(k, step, k', fate, a, p), a, message)
  {
    hide KInv, Next, MessagesKept;
    OncePlaced(k', a);
    if fate.Lying? {
      var s, i: nat :| LiesAt(k.m, s, i, message);
      assert Queued(k.m, s, i, a);
      if Gone(k.m, k'.m, a) { GoneIsNowhere(k, k', s, i, a); }
      else if Takes(k, step, k', a) { TakenIsNowhere(k, step, k', a); }
      else { StillLies(k, step, k', s, i, a); }
    } else {
      NowhereStays(k.m, k'.m, a);
    }
  }

  lemma GoneIsNowhere(k: KState, k': KState, s: SubId, i: nat, a: AckId)
    requires KInv(k) && a < k.m.nextAck && MessagesKept(k.m, k'.m) && Queued(k.m, s, i, a) && Gone(k.m, k'.m, a)
    ensures forall s', j: nat :: !Queued(k'.m, s', j, a)
  {
    hide KInv, MessagesKept;
    OncePlaced(k, a);
    forall s', j: nat | Queued(k'.m, s', j, a) ensures false { StaysWhereItWas(k.m, k'.m, s', j, a); }
  }

  lemma NowhereStays(m: MState, m': MState, a: AckId)
    requires a < m.nextAck && MessagesKept(m, m') && forall s, i: nat :: !Queued(m, s, i, a)
    ensures forall s, i: nat :: !Queued(m', s, i, a)
  {
    hide MessagesKept;
    forall s, i: nat | Queued(m', s, i, a) ensures false { StaysWhereItWas(m, m', s, i, a); }
  }

  // ----- What becomes of the sender -----

  lemma LiesIsQueued(m: MState, s: SubId, message: Message, a: AckId)
    requires Lies(m, s, message) && message.ack == Some(a)
    ensures exists i: nat :: Queued(m, s, i, a)
  {
    var i :| 0 <= i < |Box(m, s).queue.items| && Box(m, s).queue.items[i] == message;
    assert Queued(m, s, i, a);
  }

  /** The tracked fate is decided exactly when the manager decides, and with its verdict. */
  lemma DecidedBy(k: KState, step: Step, k': KState, fate: Fate, a: AckId, p: Pid, message: Message)
    requires KInv(k) && Next(k, step, k') && WhereAt(k.m, fate, a, message) && message.ack == Some(a)
      && (fate.Lying? || fate.Taken?)
    ensures var next := FateAfter(k, step, k', fate, a, p);
      && (Decides(k.m, CallOf(k, step), k'.m, a) <==> next.Judged?)
      && (next.Judged? ==> next.verdict == VerdictBy(CallOf(k, step), a)) && !next.Collected?
  {
    hide KInv, Next, Takes;
    var call := CallOf(k, step);
    if s, i: nat :| Queued(k.m, s, i, a) && !HasBox(k'.m, s) { assert Lies(k.m, s, Box(k.m, s).queue.items[i]); }
    if s, lying :| Lies(k.m, s, lying) && lying.ack == Some(a) && !HasBox(k'.m, s) { LiesIsQueued(k.m, s, lying, a); }
    if fate.Lying? {
      var s, i: nat :| LiesAt(k.m, s, i, message);
      assert Queued(k.m, s, i, a);
      NobodyAcknowledges(k, step, k', s, i, a);
    }
  }

  lemma NobodyAcknowledges(k: KState, step: Step, k': KState, s: SubId, i: nat, a: AckId)
    requires KInv(k) && Next(k, step, k') && Queued(k.m, s, i, a)
    ensures !Acknowledges(k, step, a)
  {
    hide KInv, CallStep, Terminated, EventsFired, Give, AfterTick, PublishSafe, Mail.Publish;
    if step.Repeat? { RepeatMayCall(k, k.running.value); }
  }

  lemma BlockedIsNotActor(k: KState, step: Step, p: Pid)
    requires KInv(k) && p in k.procs && Blocked(k.q, p)
    ensures p != Actor(k, step)
  {
    hide MInv, ProcOk, SenderOk, QInv;
  }

  lemma SenderUndecided(k: KState, step: Step, k': KState, a: AckId, p: Pid, call: Call)
    requires KInv(k') && a in k'.m.pending && k'.m.pending[a].sender == p
    requires p in k'.procs && k'.procs[p] == Proc(true, Calling(call))
    ensures Blocked(k'.q, p) && p !in k'.m.results
  {
    hide Placement, ListOk, OwnersOk, BoxesOk, EventsOk, AcksOk, PipesOk;
    assert SenderOk(k', a);
  }

  lemma SenderDecided(k': KState, p: Pid, call: Call)
    requires KInv(k') && p in k'.m.results && p in k'.procs && k'.procs[p] == Proc(true, Calling(call))
    ensures !Blocked(k'.q, p)
  {
    hide Placement, MInv, SenderOk;
    assert ProcOk(k', p);
  }

  lemma FateInFlight(k: KState, step: Step, k': KState, fate: Fate, a: AckId, p: Pid, call: Call)
    requires KInv(k) && KInv(k') && Next(k, step, k') && call.Deliver? && AtFate(k, fate, a, p, call)
      && (fate.Lying? || fate.Taken?)
    requires Judges(k.m, k'.m, Actor(k, step), CallOf(k, step)) && OthersKept(k, k', Actor(k, step))
    ensures SenderAt(k', FateAfter(k, step, k', fate, a, p), a, p, call)
  {
    hide KInv, Next, WhereAt, FateAfter, Decides, MessagesKept, Blocked;
    DecidedBy(k, step, k', fate, a, p, MessageOf(call, a));
    BlockedIsNotActor(k, step, p);
    assert Ruled(k.m, k'.m, CallOf(k, step), a);
    if a in k'.m.pending { SenderUndecided(k, step, k', a, p, call); } else { SenderDecided(k', p, call); }
  }

  lemma FateJudged(k: KState, step: Step, k': KState, v: Verdict, a: AckId, p: Pid, call: Call)
    requires KInv(k) && KInv(k') && Next(k, step, k') && call.Deliver? && AtFate(k, Judged(v), a, p, call)
    requires Judges(k.m, k'.m, Actor(k, step), CallOf(k, step)) && OthersKept(k, k', Actor(k, step))
    ensures SenderAt(k', FateAfter(k, step, k', Judged(v), a, p), a, p, call)
  {
    hide KInv, WhereAt, Ruled, MessagesKept, CallStep, Terminated, EventsFired, Give, AfterTick, PublishSafe,
      Mail.Publish, Blocked;
    NobodySends(k);
    if !(step.Repeat? && k.running == Some(p)) {
      assert p != Actor(k, step);
      SenderDecided(k', p, call);
    }
  }

  lemma FateStep(k: KState, step: Step, k': KState, fate: Fate, a: AckId, p: Pid, call: Call)
    requires KInv(k) && Next(k, step, k') && call.Deliver? && AtFate(k, fate, a, p, call)
    ensures AtFate(k', FateAfter(k, step, k', fate, a, p), a, p, call)
  {
    hide KInv, Next, WhereAt, Ruled, MessagesKept, OthersKept;
    NextKeepsInv(k, step, k');
    StepJudges(k, step, k');
    WhereNext(k, step, k', fate, a, p, MessageOf(call, a));
    match fate
    case Judged(v) => FateJudged(k, step, k', v, a, p, call);
    case Collected(v) =>
    case _ => FateInFlight(k, step, k', fate, a, p, call);
  }

  lemma SentFate(k: KState, step: Step, k': KState, a: AckId, p: Pid)
    requires KInv(k) && Next(k, step, k') && Sent(k, step, k', a, p)
    ensures AtFate(k', Lying, a, p, step.call)
  {
    hide KInv, Next, Lies, Blocked;
    NextKeepsInv(k, step, k');
    SentFacts(k, step, k', a, p);
    SenderUndecided(k, step, k', a, p, step.call);
    OncePlaced(k', a);
    var s :| Lies(k'.m, s, MessageOf(step.call, a));
    LiesSomewhere(k'.m, s, MessageOf(step.call, a));
  }

  lemma LiesSomewhere(m: MState, s: SubId, message: Message)
    requires Lies(m, s, message)
    ensures exists i: nat :: LiesAt(m, s, i, message)
  {
    var i :| 0 <= i < |Box(m, s).queue.items| && Box(m, s).queue.items[i] == message;
    assert LiesAt(m, s, i, message);
  }

  /**
   * At every later point of every run the tables agree with the tracked fate: the message is in one
   * place of one mailbox until it is received or its mailbox goes away, and nowhere ever after; until
   * it is decided the sender is blocked and has no answer; then the one verdict decided waits for it.
   */
  lemma {:induction false} DeliveryFate(ks: seq<KState>, steps: seq<Step>, i: nat, j: nat, a: AckId, p: Pid)
    requires Run(ks, steps) && Init(ks[0]) && i < j < |ks| && Sent(ks[i], steps[i], ks[i + 1], a, p)
    ensures AtFate(ks[j], Track(ks, steps, i, j, a, p), a, p, steps[i].call)
    decreases j
  {
    hide KInv, Next, Init, AtFate, FateAfter;
    if j == i + 1 {
      RunKeepsInv(ks, steps, i);
      SentFate(ks[i], steps[i], ks[i + 1], a, p);
    } else {
      DeliveryFate(ks, steps, i, j - 1, a, p);
      RunKeepsInv(ks, steps, j - 1);
      FateStep(ks[j - 1], steps[j - 1], ks[j], Track(ks, steps, i, j - 1, a, p), a, p, steps[i].call);
    }
  }

  /** No delivery is received twice. */
  lemma ReceivedOnce(ks: seq<KState>, steps: seq<Step>, i: nat, j: nat, l: nat, a: AckId, p: Pid)
    requires Run(ks, steps) && Init(ks[0]) && i < j < l < |steps| && Sent(ks[i], steps[i], ks[i + 1], a, p)
    requires Takes(ks[j], steps[j], ks[j + 1], a)
    ensures !Takes(ks[l], steps[l], ks[l + 1], a)
  {
    hide KInv, Next, Init, Takes, SenderAt;
    if Takes(ks[l], steps[l], ks[l + 1], a) {
      TakenFrom(ks, steps, i, j, a, p);
      TakenFrom(ks, steps, i, l, a, p);
      NeverLiesAgain(ks, steps, i, j + 1, l, a, p);
    }
  }

  /** What is received was lying in a mailbox, and does not any more. */
  lemma TakenFrom(ks: seq<KState>, steps: seq<Step>, i: nat, j: nat, a: AckId, p: Pid)
    requires Run(ks, steps) && Init(ks[0]) && i < j < |steps| && Sent(ks[i], steps[i], ks[i + 1], a, p)
    requires Takes(ks[j], steps[j], ks[j + 1], a)
    ensures Track(ks, steps, i, j, a, p).Lying? && !Track(ks, steps, i, j + 1, a, p).Lying?
  {
    hide KInv, Next, Init, SenderAt, Got;
    DeliveryFate(ks, steps, i, j, a, p);
    var s :| Got(ks[j], steps[j], ks[j + 1], s) != [] && Got(ks[j], steps[j], ks[j + 1], s)[0].ack == Some(a);
    GotFirst(ks[j], steps[j], ks[j + 1], s);
    assert Queued(ks[j].m, s, 0, a);
  }

  lemma {:induction false} NeverLiesAgain(ks: seq<KState>, steps: seq<Step>, i: nat, j: nat, l: nat, a: AckId, p: Pid)
    requires |ks| == |steps| + 1 && i < j <= l < |ks| && !Track(ks, steps, i, j, a, p).Lying?
    ensures !Track(ks, steps, i, l, a, p).Lying?
    decreases l
  {
    if j < l { NeverLiesAgain(ks, steps, i, j, l - 1, a, p); }
  }

  /**
   * A delivery that was received is decided by its acknowledgement only: as long as nobody
   * acknowledges it, its sender stays blocked, whoever unsubscribes or ends in the meantime.
   */
  lemma {:induction false} OnlyAcknowledged(ks: seq<KState>, steps: seq<Step>, i: nat, j: nat, l: nat, a: AckId, p: Pid)
    requires Run(ks, steps) && Init(ks[0]) && i < j <= l < |ks| && Sent(ks[i], steps[i], ks[i + 1], a, p)
    requires Track(ks, steps, i, j, a, p).Taken?
    requires forall n :: j <= n < l ==> !Acknowledges(ks[n], steps[n], a)
    ensures Track(ks, steps, i, l, a, p).Taken? && p in ks[l].procs && Blocked(ks[l].q, p) && a in ks[l].m.pending
    decreases l
  {
    hide Next, Init, Acknowledges;
    DeliveryFate(ks, steps, i, l, a, p);
    if j < l { OnlyAcknowledged(ks, steps, i, j, l - 1, a, p); }
  }

  /** And the step in which the sender collects returns exactly the verdict that was decided. */
  lemma VerdictReachesSender(ks: seq<KState>, steps: seq<Step>, i: nat, j: nat, a: AckId, p: Pid)
    requires Run(ks, steps) && Init(ks[0]) && i < j < |steps| && Sent(ks[i], steps[i], ks[i + 1], a, p)
    requires Track(ks, steps, i, j, a, p).Judged? && Track(ks, steps, i, j + 1, a, p).Collected?
    ensures p in ks[j + 1].procs && p !in ks[j + 1].m.results && NotSending(ks[j + 1].m, p)
    ensures ks[j + 1].procs[p] == Proc(false, Returned(VerdictReply(Track(ks, steps, i, j, a, p).verdict)))
  {
    hide KInv, Next, Init, WhereAt;
    DeliveryFate(ks, steps, i, j, a, p);
    RunKeepsInv(ks, steps, j);
    Collects(ks[j], steps[j], ks[j + 1], p);
    RunningFacts(ks[j], p);
  }

  lemma CallPending(m: MState, x: Pid, call: Call, a: AckId)
    requires Callable(m, x, call) && a !in m.pending
    ensures a in CallEffect(m, x, call).0.pending ==> call.Deliver? && x !in m.results && a == m.nextAck
  {
    hide ListOk, OwnersOk, BoxesOk, EventsOk, SendersOk, AcksOk, PipesOk, SelectSafe;
    if !Repeatable(call) { PendingShrinks(m, x, call); }
    else if call.Select? { SelectUndecided(m, call.subs, x); }
  }

  lemma EndPending(k: KState, x: Pid, note: Data, k': KState)
    requires Terminated(k, x, note, k')
    ensures forall a :: a in k'.m.pending ==> a in k.m.pending
  {
    hide EndProcessSafe, PublishSafe, ProcessOver, EventsFired, AcksIn;
  }

  lemma FinishedPending(k: KState, x: Pid, r: SyscallResult, now: Instant, note: Data, k': KState)
    requires Finished(k, x, r, now, note, k')
    ensures forall a :: a in k'.m.pending ==> a in k.m.pending
  {
    hide Terminated, Give;
    if r.Terminate? {
      var k3 :| Terminated(k, x, note, k3) && k' == SwitchTo(k3, Option.None, now);
      EndPending(k, x, note, k3);
    }
  }

  lemma CallStepPending(k: KState, x: Pid, call: Call, now: Instant, note: Data, k': KState, a: AckId)
    requires x in k.procs && MayCall(k, x, call) && CallStep(k, x, call, now, note, k') && a !in k.m.pending
    ensures a in k'.m.pending ==> call.Deliver? && x !in k.m.results && a == k.m.nextAck
  {
    hide KInv, MInv, EventsFired, CallEffect, CallSafe, Finished, Recorded, Spawned;
    RunningFacts(k, x);
    var k1, r :| Handled(k, x, call, k1, r) && Finished(Record(k1, x, call, r), x, r, now, note, k');
    FinishedPending(Record(k1, x, call, r), x, r, now, note, k');
    CallPending(k.m, x, call, a);
    if call.Exec? { SpawnedMail(k); }
  }

  lemma SpawnedMail(k: KState)
    ensures Spawned(k).m == k.m
  {
    hide Give;
  }

  /** Deliveries are made by delivering only: no other step, and no repeated call, puts one on its way. */
  lemma OnlySentArePending(k: KState, step: Step, k': KState, a: AckId)
    requires KInv(k) && Next(k, step, k') && a !in k.m.pending
    ensures a in k'.m.pending ==> k.running.Some? && Sent(k, step, k', a, k.running.value)
  {
    hide MInv, QInv, EventsFired, Give, Terminated, CallStep, AfterTick;
    match step
    case Syscall(call, now, note) => CallStepPending(k, k.running.value, call, now, note, k', a);
    case Repeat(now, note) =>
      var x := k.running.value;
      RepeatMayCall(k, x);
      assert ProcOk(k, x);
      CallStepPending(k, x, k.procs[x].frame.call, now, note, k', a);
    case Crash(now, note) =>
      var k1 :| Terminated(k, k.running.value, note, k1) && k' == SwitchTo(k1, Option.None, now);
      EndPending(k, k.running.value, note, k1);
    case _ =>
  }

  // ----- Repeating a select -----

  /** Whoever is to repeat a select owns what it looks at. */
  ghost predicate OwnSelects(k: KState) {
    forall p, s ::
      (p in k.procs && k.procs[p].repeat && k.procs[p].frame.Calling? && k.procs[p].frame.call.Select?
        && s in k.procs[p].frame.call.subs)
      ==> Owns(k.m, p, s)
  }

  ghost predicate SelectsOwn(k: KState, step: Step) {
    step.Syscall? && step.call.Select? && k.running.Some? ==>
      forall s :: s in step.call.subs ==> Owns(k.m, k.running.value, s)
  }

  /** What the acting process may be left with: a select to repeat only when it called that select. */
  lemma ActorRepeats(k: KState, x: Pid, call: Call, now: Instant, note: Data, k': KState)
    requires k.running == Some(x) && x in k.procs && CallStep(k, x, call, now, note, k')
    ensures x in k'.procs && k'.procs[x].repeat ==> k'.procs[x].frame == Calling(call)
    ensures x in k'.procs && call.Select? ==> k'.m.owned == k.m.owned
    ensures forall p :: p in k'.procs && p !in k.procs ==> k'.procs[p] == Proc(false, Fresh)
  {
    hide EventsFired, CallEffect, CallSafe, Finished, Give;
    var k1, r :| Handled(k, x, call, k1, r) && Finished(Record(k1, x, call, r), x, r, now, note, k');
    var k2 := Record(k1, x, call, r);
    if r.Terminate? { assert x !in k'.procs by { EndedGone(k2, x, now, note, k'); } EndedGone(k2, x, now, note, k'); }
    else { FinishedMail(k2, x, r, now, note, k'); }
    if call.Select? { SelectKeepsOwners(k.m, x, call); }
  }

  lemma EndedGone(k: KState, x: Pid, now: Instant, note: Data, k': KState)
    requires Finished(k, x, Terminate, now, note, k')
    ensures k'.procs == k.procs - {x}
  {
    hide EndProcessSafe, PublishSafe, ProcessOver, EventsFired, EndProcess, Mail.Publish;
  }

  lemma SelectKeepsOwners(m: MState, x: Pid, call: Call)
    requires call.Select? && CallSafe(m, x, call)
    ensures CallEffect(m, x, call).0.owned == m.owned && !CallEffect(m, x, call).1.Terminate?
  {
    SelectUndecided(m, call.subs, x);
  }

  lemma CallOwnSelects(k: KState, x: Pid, call: Call, now: Instant, note: Data, k': KState)
    requires k.running == Some(x) && x in k.procs && CallStep(k, x, call, now, note, k') && OwnSelects(k)
    requires call.Select? ==> forall s :: s in call.subs ==> Owns(k.m, x, s)
    requires Judges(k.m, k'.m, x, call) && OthersKept(k, k', x)
    ensures OwnSelects(k')
  {
    hide CallStep, Ruled, MessagesKept;
    ActorRepeats(k, x, call, now, note, k');
    forall p, s | p in k'.procs && k'.procs[p].repeat && k'.procs[p].frame.Calling? && k'.procs[p].frame.call.Select?
      && s in k'.procs[p].frame.call.subs
      ensures Owns(k'.m, p, s)
    {
      if p != x { assert Owns(k.m, p, s) && OwnedBy(k'.m, p) == OwnedBy(k.m, p); }
    }
  }

  lemma StepOwnSelects(k: KState, step: Step, k': KState)
    requires KInv(k) && Next(k, step, k') && OwnSelects(k) && SelectsOwn(k, step)
    ensures OwnSelects(k')
  {
    hide KInv, Judges, CallStep, Terminated, EventsFired, Give, AfterTick, Mail.Publish, PublishSafe;
    StepJudges(k, step, k');
    match step
    case Syscall(call, now, note) => CallOwnSelects(k, k.running.value, call, now, note, k');
    case Repeat(now, note) => CallOwnSelects(k, k.running.value, CallOf(k, step), now, note, k');
    case _ =>
      NobodySends(k);
      OthersOwnSelects(k, step, k');
  }

  lemma OthersOwnSelects(k: KState, step: Step, k': KState)
    requires Next(k, step, k') && OwnSelects(k) && !step.Syscall? && !step.Repeat? && k.nextPid !in k.procs
    requires Judges(k.m, k'.m, Actor(k, step), CallOf(k, step)) && OthersKept(k, k', Actor(k, step))
    ensures OwnSelects(k')
  {
    hide Ruled, MessagesKept, EventsFired, Give, AfterTick, Mail.Publish, PublishSafe, EndProcess, EndProcessSafe,
      ProcessOver;
    forall p, s | p in k'.procs && k'.procs[p].repeat && k'.procs[p].frame.Calling? && k'.procs[p].frame.call.Select?
      && s in k'.procs[p].frame.call.subs
      ensures Owns(k'.m, p, s)
    {
      assert p != Actor(k, step);
      assert Owns(k.m, p, s) && OwnedBy(k'.m, p) == OwnedBy(k.m, p);
    }
  }

  /** If processes select on their own subscriptions only, no repeated call ever panics. */
  lemma {:induction false} NoRepeatPanics(ks: seq<KState>, steps: seq<Step>, i: nat, x: Pid)
    requires Run(ks, steps) && Init(ks[0]) && i < |ks|
    requires forall j :: 0 <= j < i ==> SelectsOwn(ks[j], steps[j])
    requires ks[i].running == Some(x) && x in ks[i].procs && ks[i].procs[x].repeat && ks[i].procs[x].frame.Calling?
    requires var call := ks[i].procs[x].frame.call; call.Receive? ==> FirstFits(ks[i].m, x, call.sub, call.fits)
    ensures CallSafe(ks[i].m, x, ks[i].procs[x].frame.call)
  {
    hide KInv, Next, CallSafe, Init;
    RunKeepsInv(ks, steps, i);
    RunOwnSelects(ks, steps, i);
    RepeatNeverPanics(ks[i], x);
  }

  lemma {:induction false} RunOwnSelects(ks: seq<KState>, steps: seq<Step>, i: nat)
    requires Run(ks, steps) && Init(ks[0]) && i < |ks|
    requires forall j :: 0 <= j < i ==> SelectsOwn(ks[j], steps[j])
    ensures OwnSelects(ks[i])
  {
    hide KInv, Next, SelectsOwn;
    if i > 0 {
      RunOwnSelects(ks, steps, i - 1);
      RunKeepsInv(ks, steps, i - 1);
      StepOwnSelects(ks[i - 1], steps[i - 1], ks[i]);
    }
  }
}
