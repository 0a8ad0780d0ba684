/** What the kernel invariant promises, in terms a caller can see. */
module KernelTheorems {
  import opened Common
  import opened Topics
  import opened Waits
  import opened Queues
  import opened Subscriptions
  import opened EventQueues
  import opened Mail
  import opened MailInvariant
  import opened MailBoxes
  import opened MailEnds
  import opened Kernel
  import opened KernelInvariant
  import opened KernelCalls
  import opened KernelEnds
  import opened KernelSafety

  // ----- Placement -----

  /** How often a process id occurs: running, in the ready queue, behind a live wait id. */
  ghost function Places(k: KState, p: Pid): nat {
    (if k.running == Some(p) then 1 else 0) + multiset(k.q.ready)[p] + |set w | w in k.q.waiting && k.q.waiting[w] == p|
  }

  lemma {:induction false} CountOnce(s: seq<Pid>, p: Pid)
    requires NoDup(s)
    ensures multiset(s)[p] == if p in s then 1 else 0
  {
    if s != [] {
      assert s == [s[0]] + s[1..];
      CountOnce(s[1..], p);
    }
  }

  lemma PlacedOnce(k: KState, p: Pid)
    requires Placement(k)
    ensures Places(k, p) == if p in k.procs then 1 else 0
  {
    CountOnce(k.q.ready, p);
    var ws := set w | w in k.q.waiting && k.q.waiting[w] == p;
    if Blocked(k.q, p) {
      var w :| w in k.q.waiting && k.q.waiting[w] == p;
      assert ws == {w};
    } else {
      assert ws == {};
    }
  }

  /**
   * In every state of every run each live process is in exactly one place and nothing else is
   * anywhere; so whatever the scheduler takes out of its queue or finds running can be looked up.
   */
  lemma PlacementTheorem(ks: seq<KState>, steps: seq<Step>, i: nat, p: Pid)
    requires Run(ks, steps) && Init(ks[0]) && i < |ks|
    ensures Places(ks[i], p) == if p in ks[i].procs then 1 else 0
    ensures ks[i].running == Some(p) || p in ks[i].q.ready ==> p in ks[i].procs
  {
    hide MInv, ProcOk, SenderOk, QInv;
    RunKeepsInv(ks, steps, i);
    PlacedOnce(ks[i], p);
  }

  /** What the queues take for a process that is gone is a process that is not in the table. */
  lemma DoneIsGone(ks: seq<KState>, steps: seq<Step>, i: nat, x: Pid, p: Pid)
    requires Run(ks, steps) && Init(ks[0]) && i < |ks| && ks[i].running == Some(x)
    ensures ProcessDone(ks[i].q, x, p) <==> p !in ks[i].procs
  {
    hide MInv, ProcOk, SenderOk, QInv, Init, Next;
    RunKeepsInv(ks, steps, i);
  }

  // ----- No lost wake-up -----

  /** The process is blocked in a receive or select that looks at this subscription. */
  ghost predicate WaitsForMail(k: KState, p: Pid, s: SubId) {
    && p in k.procs && Blocked(k.q, p) && k.procs[p].repeat && k.procs[p].frame.Calling?
    && match k.procs[p].frame.call
       case Receive(sub, _) => sub == s
       case Select(subs, _) => s in subs
       case _ => false
  }

  lemma WaitersMail(k: KState, p: Pid, s: SubId)
    requires KInv(k)
    ensures WaitsForMail(k, p, s) && HasBox(k.m, s) ==>
      && Box(k.m, s).queue.items == [] && Box(k.m, s).queue.event.Some?
      && forall w :: w in k.q.waiting && k.q.waiting[w] == p ==> OnEvent(k.q, Box(k.m, s).queue.event.value, w)
  {
    hide MInv, SenderOk, QInv;
    if WaitsForMail(k, p, s) {
      assert ProcOk(k, p);
      forall w | w in k.q.waiting && k.q.waiting[w] == p ensures Armed(k, s, w) {
        assert WaitOk(k, p, k.procs[p].frame.call, w);
      }
    }
  }

  /**
   * No lost wake-up: while a process is blocked on a mailbox that is still subscribed, the mailbox
   * is empty and armed, and its event still leads to the live wait of that process.
   */
  lemma NoLostWakeup(ks: seq<KState>, steps: seq<Step>, i: nat, p: Pid, s: SubId)
    requires Run(ks, steps) && Init(ks[0]) && i < |ks|
    requires WaitsForMail(ks[i], p, s) && HasBox(ks[i].m, s)
    ensures Box(ks[i].m, s).queue.items == [] && Box(ks[i].m, s).queue.event.Some?
    ensures forall w :: w in ks[i].q.waiting && ks[i].q.waiting[w] == p ==>
      OnEvent(ks[i].q, Box(ks[i].m, s).queue.event.value, w)
  {
    hide KInv, Next, Init;
    RunKeepsInv(ks, steps, i);
    WaitersMail(ks[i], p, s);
  }

  // ----- Which calls can panic -----

  /** Select gets as far as this. */
  ghost predicate EmptyBefore(m: MState, subs: seq<SubId>, i: nat)
    requires i <= |subs|
  {
    forall j :: 0 <= j < i ==> HasBox(m, subs[j]) && Box(m, subs[j]).queue.items == []
  }

  /** Every subscription that select gets to look at is a process mailbox. */
  ghost predicate SelectsMailboxes(m: MState, subs: seq<SubId>) {
    forall i :: 0 <= i < |subs| && EmptyBefore(m, subs, i) ==> HasBox(m, subs[i])
  }

  lemma {:induction false} SelectSafeIff(m: MState, subs: seq<SubId>)
    requires BoxesOk(m)
    ensures SelectSafe(m, subs) <==> SelectsMailboxes(m, subs)
    decreases |subs|
  {
    if subs != [] {
      if HasBox(m, subs[0]) && Box(m, subs[0]).queue.items == [] {
        ArmStep(m, subs[0]);
        var m1 := ArmBox(m, subs[0]).0;
        ArmedBoxes(m, subs[0]);
        SelectSafeIff(m1, subs[1..]);
        SelectsShift(m, m1, subs);
      } else if HasBox(m, subs[0]) {
        assert SelectsMailboxes(m, subs);
      } else {
        assert !SelectsMailboxes(m, subs);
      }
    }
  }

  lemma ArmedBoxes(m: MState, sub: SubId)
    requires BoxesOk(m) && HasBox(m, sub) && Box(m, sub).queue.items == []
    ensures BoxesOk(ArmBox(m, sub).0)
  {
    var m1 := ArmBox(m, sub).0;
    forall s | HasBox(m1, s) ensures QueueInv(Box(m1, s).queue) && Box(m1, s).queue.limit == MAILBOX_BUFFER_LIMIT {
      assert HasBox(m, s);
    }
  }

  lemma SelectsShift(m: MState, m1: MState, subs: seq<SubId>)
    requires subs != [] && HasBox(m, subs[0]) && Box(m, subs[0]).queue.items == []
    requires (forall s :: HasBox(m1, s) <==> HasBox(m, s))
      && (forall s :: HasBox(m, s) ==> Box(m1, s).queue.items == Box(m, s).queue.items)
    ensures SelectsMailboxes(m1, subs[1..]) <==> SelectsMailboxes(m, subs)
  {
    var tail := subs[1..];
    if SelectsMailboxes(m1, tail) {
      forall i | 0 <= i < |subs| && EmptyBefore(m, subs, i) ensures HasBox(m, subs[i]) {
        if i > 0 {
          assert forall j :: 0 <= j < i - 1 ==> tail[j] == subs[j + 1];
          assert EmptyBefore(m1, tail, i - 1) && tail[i - 1] == subs[i];
        }
      }
    }
    if SelectsMailboxes(m, subs) {
      forall i | 0 <= i < |tail| && EmptyBefore(m1, tail, i) ensures HasBox(m1, tail[i]) {
        assert forall j :: 0 < j < i + 1 ==> subs[j] == tail[j - 1];
        assert EmptyBefore(m, subs, i + 1) && subs[i + 1] == tail[i];
      }
    }
  }

  /** A message to a kernel service can be decoded, and asks for a reply that can be delivered. */
  ghost predicate ServicePolite(m: MState, topic: string, service: ServiceReply) {
    ValidTopic(topic) && KernelServed(m, topic) ==>
      !service.Undecodable? && (service.Reply? ==> PlainTarget(m, service.topic) && QuietTarget(m, service.topic))
  }

  /** What a caller would have to respect to keep the kernel from panicking. */
  ghost predicate Polite(m: MState, pid: Pid, call: Call) {
    match call
    case Broken => false
    case Exec(size, launch) => launch.NoImage? || launch.NoStack? || (!launch.BadImage? && size + 40 <= 4 * 1024 * 1024)
    case Sleep(ns, _) => ns < 31_536_000_000_000_000
    case Subscribe(filter, _, _, _) => |filter| < 10_000
    case Publish(topic, _) => |topic| < 10_000
    case Deliver(topic, _, service) => pid !in m.results ==> |topic| < 10_000 && ServicePolite(m, topic, service)
    case DeliverReply(topic, _) => |topic| < 10_000 && (ValidTopic(topic) ==> PlainTarget(m, topic))
    case Receive(sub, fits) =>
      Owns(m, pid, sub) && HasBox(m, sub) && Box(m, sub).queue.items != [] ==> fits(Box(m, sub).queue.items[0])
    case Acknowledge(_, ack, _) => ack in m.pending
    case Select(subs, _) => SelectsMailboxes(m, subs)
    case _ => true
  }

  /**
   * In every reachable state a call runs into an assertion, a failed unwrap or a panic of scheduler
   * or manager, or is broken outside of them, exactly when it is impolite; every other assertion of
   * the manager is dead code.
   */
  lemma PanicsIffImpolite(k: KState, x: Pid, call: Call)
    requires KInv(k)
    ensures CallSafe(k.m, x, call) <==> Polite(k.m, x, call)
  {
    hide Placement, ProcOk, SenderOk, DeliverSafe, DeliverReplySafe, PlainTarget, QuietTarget, KernelServed, SelectSafe,
      SelectsMailboxes, PublishSafe, UnsubscribeSafe, OwnersOk, ListOk, EventsOk, AcksOk, PipesOk, SendersOk, BoxesOk;
    match call
    case Unsubscribe(sub) => TearDownSafe(k.m, x, sub);
    case Publish(topic, _) => if ValidTopic(topic) { PublishIsSafe(k.m, topic); }
    case Deliver(topic, _, service) => if ValidTopic(topic) { DeliverSafeIff(k.m, topic, service); }
    case DeliverReply(topic, _) => if ValidTopic(topic) { DeliverSafeIff(k.m, topic, Nack); }
    case Receive(sub, _) => TearDownSafe(k.m, x, sub);
    case Select(subs, _) => SelectSafeIff(k.m, subs);
    case _ =>
  }

  /** A valid topic of ten thousand letters is one such call: the kernel asserts that texts are shorter. */
  lemma LongTopicPanics(m: MState, x: Pid, topic: string, data: Data)
    requires topic == seq(10_000, i => 'a')
    ensures ValidTopic(topic)
    ensures !CallSafe(m, x, Call.Publish(topic, data)) && !CallSafe(m, x, Call.DeliverReply(topic, data))
    ensures !CallSafe(m, x, Call.Subscribe(topic, false, true, false))
    ensures !CallSafe(m, x, Call.Deliver(topic, data, Nack)) <==> x !in m.results
  {
    assert |topic| == 10_000;
  }

  /** Repeating a call never panics, provided a select only looks at own subscriptions and a received message fits. */
  lemma RepeatNeverPanics(k: KState, x: Pid)
    requires KInv(k) && k.running == Some(x) && x in k.procs && k.procs[x].repeat && k.procs[x].frame.Calling?
    requires var call := k.procs[x].frame.call; call.Select? ==> forall s :: s in call.subs ==> Owns(k.m, x, s)
    requires var call := k.procs[x].frame.call; call.Receive? ==> FirstFits(k.m, x, call.sub, call.fits)
    ensures CallSafe(k.m, x, k.procs[x].frame.call)
  {
    hide DeliverSafe, UnsubscribeSafe, ListOk, EventsOk, AcksOk, PipesOk, SendersOk, BoxesOk, QInv;
    var call := k.procs[x].frame.call;
    assert ProcOk(k, x);
    assert !Blocked(k.q, x);
    PanicsIffImpolite(k, x, call);
    match call
    case Select(subs, _) => forall i | 0 <= i < |subs| ensures HasBox(k.m, subs[i]) { assert Owns(k.m, x, subs[i]); }
    case _ =>
  }

  /** Ending a process does not panic either: nothing it tears down is missing. */
  lemma TerminateNeverPanics(k: KState, x: Pid)
    requires KInv(k) && NotSending(k.m, x)
    ensures EndProcessSafe(k.m, x) && PublishSafe(EndProcess(k.m, x).0, TERMINATED_TOPIC)
  {
    hide Placement, ProcOk, SenderOk, OwnersOk, ListOk, EventsOk, AcksOk, PipesOk, SendersOk, BoxesOk, PublishSafe;
    TearDownSafe(k.m, x, 0);
    EndProcessKeeps(k.m, x);
    PublishIsSafe(EndProcess(k.m, x).0, TERMINATED_TOPIC);
  }

  /** Going to sleep in a call that is to be repeated does not come straight back to the same process. */
  lemma SwitchesAway(k: KState, x: Pid, call: Call, s: WaitFor, now: Instant)
    requires KInvX(k, x) && k.running == Some(x) && CallOutcome(k.m, x, call, RepeatAfter(s)) && Flat(s)
    ensures SwitchTo(k, Some(s), now).running != Some(x) && Blocked(SwitchTo(k, Some(s), now).q, x)
  {
    hide MInv, ProcOk, SenderOk, AllArmed, SendsOn;
    var es: seq<EventId> := [];
    match call {
      case Receive(_, _) => es := [s.event];
      case Select(_, _) => es :| s == FirstOf(EventList(es)) && AllArmed(k.m, call.subs, es);
        ArmedLength(k.m, call.subs, es);
      case Deliver(_, _, _) => es := [s.event];
      case _ => assert false;
    }
    EventAtoms(s, es);
    assert !Resolved(k.q, x, s);
    GiveTables(k.q, x, s);
    assert SwitchTo(k, Some(s), now).q.waiting[k.q.nextWait] == x;
  }

  lemma ArmedLength(m: MState, subs: seq<SubId>, es: seq<EventId>)
    requires AllArmed(m, subs, es)
    ensures |es| == |subs|
  {
  }

  /** So the loop that works off repeated calls never meets the process it has just put to sleep. */
  lemma RepeatNeverLoops(k: KState, now: Instant, note: Data, k': KState, x: Pid)
    requires KInv(k) && k.running == Some(x) && Next(k, Step.Repeat(now, note), k')
    ensures k'.running == Some(x) && x in k'.procs ==> !k'.procs[x].repeat
  {
    hide KInv, KInvX, EventsFired, CallEffect, CallSafe, CallOutcome, Give;
    RepeatMayCall(k, x);
    var call := k.procs[x].frame.call;
    var k1, r :| Handled(k, x, call, k1, r) && Finished(Record(k1, x, call, r), x, r, now, note, k');
    HandledKeeps(k, x, call, k1, r);
    if r.RepeatAfter? {
      RecordKeeps(k1, x, Recorded(call, r));
      SwitchesAway(Record(k1, x, call, r), x, call, r.wait, now);
    }
  }

  // ----- Ending somebody else -----

  /**
   * Ending a process keeps every process in its one place if and only if the process is not
   * waiting: the wait table is not purged, so a waiting one would come back from the dead.
   */
  lemma TerminatePlacementIff(k: KState, t: Pid, note: Data, k': KState)
    requires Placement(k) && t in k.procs && Terminated(k, t, note, k')
    ensures Placement(k') <==> !Blocked(k.q, t)
  {
    hide Placement, PublishSafe, EndProcessSafe;
    var (m1, events) := EndProcess(k.m, t);
    var (m2, more) := Mail.Publish(m1, TERMINATED_TOPIC, note);
    var qa, qb :| ProcessOver(k.q, t, qa) && EventsFired(qa, events, qb) && EventsFired(qb, more, k'.q);
    if Blocked(k.q, t) {
      StillThere(k.q, t, qa);
      StillFired(qa, events, qb, t);
      StillFired(qb, more, k'.q, t);
      GhostMisplaced(k', t);
    } else {
      OverPlacement(k, t, qa, events, qb, more, k');
    }
  }

  lemma GhostMisplaced(k: KState, t: Pid)
    requires t !in k.procs && ProcessExists(k.q, t)
    ensures !Placement(k)
  {
  }

  lemma OverPlacement(k: KState, t: Pid, qa: QState, events: set<EventId>, qb: QState, more: set<EventId>, k': KState)
    requires Placement(k) && t in k.procs && !Blocked(k.q, t)
    requires ProcessOver(k.q, t, qa) && EventsFired(qa, events, qb) && EventsFired(qb, more, k'.q)
    requires k'.procs == k.procs - {t} && k'.nextPid == k.nextPid
    requires k'.running == if k.running == Some(t) then Option.None else k.running
    ensures Placement(k')
  {
    hide QInv, ProcessOver, EventsFired, ProcessExists;
    OverKeepsInv(k.q, t, qa);
    FiredExists(qa, events, qb);
    FiredExists(qb, more, k'.q);
  }

  lemma FiredExists(q: QState, events: set<EventId>, q': QState)
    requires QInv(q) && EventsFired(q, events, q')
    ensures QInv(q') && forall p :: ProcessExists(q', p) <==> ProcessExists(q, p)
  {
    FiredKeepsInv(q, events, q');
    WokenPlaces(q, Waiters(q, events), q');
  }

  /** Waking never makes a process vanish from the queues. */
  lemma WokenStays(q: QState, ids: set<WaitId>, q': QState, p: Pid)
    requires Woken(q, ids, q') && ProcessExists(q, p)
    ensures ProcessExists(q', p)
  {
    var order :| Enumerates(order, ids * q.waiting.Keys) && q'.ready == PidsOf(q.waiting, order) + q.ready;
    if p in q.ready { assert p in q'.ready; }
    else {
      var w :| w in q.waiting && q.waiting[w] == p;
      if w in ids {
        assert w in order;
        var i :| 0 <= i < |order| && order[i] == w;
        assert q'.ready[i] == p;
      } else {
        assert w in q'.waiting && q'.waiting[w] == p;
      }
    }
  }

  lemma StillFired(q: QState, events: set<EventId>, q': QState, p: Pid)
    requires EventsFired(q, events, q') && ProcessExists(q, p)
    ensures ProcessExists(q', p)
  {
    WokenStays(q, Waiters(q, events), q', p);
  }

  lemma StillThere(q: QState, t: Pid, q': QState)
    requires ProcessOver(q, t, q') && Blocked(q, t)
    ensures ProcessExists(q', t)
  {
    var q1 := q.(ready := RemoveFirst(q.ready, t));
    assert Blocked(q1, t);
    WokenStays(q1, ExitWaiters(q, t), q', t);
  }

  // ----- The next deadline -----

  /** When the timer should fire next (`next_tick`). */
  function NextTick(k: KState, now: Instant): Option<Instant> {
    var wakeup := NextWakeup(k.q);
    var sooner := match k.sliceEnd
      case None => wakeup
      case Some(e) => Some(if wakeup.Some? && wakeup.value < e then wakeup.value else e);
    match sooner
    case None => Option.None
    case Some(t) => Some(if t < now + MIN_EXEC_TIME then t else now + MIN_EXEC_TIME)
  }

  /**
   * The deadline is the earliest of all sleepers, the end of the time slice, and a hundredth of a second
   * from now; there is none exactly when there is neither a sleeper nor a slice.
   */
  lemma DeadlineIsEarly(k: KState, now: Instant, t: Instant, w: WaitId)
    requires QInv(k.q)
    ensures Registered(k.q, Time(t), w) ==> NextTick(k, now).Some? && NextTick(k, now).value <= t
    ensures k.sliceEnd.Some? ==> NextTick(k, now).Some? && NextTick(k, now).value <= k.sliceEnd.value
    ensures NextTick(k, now).None? <==> k.sliceEnd.None? && k.q.sleeping == []
    ensures NextTick(k, now).Some? ==> var d := NextTick(k, now).value;
      && d <= now + 10_000_000
      && (d == now + 10_000_000 || k.sliceEnd == Some(d) || exists v: WaitId :: Registered(k.q, Time(d), v))
  {
    if k.q.sleeping != [] { assert Registered(k.q, Time(k.q.sleeping[0].0), k.q.sleeping[0].1); }
    if Registered(k.q, Time(t), w) {
      var i :| 0 <= i < |k.q.sleeping| && k.q.sleeping[i] == (t, w);
      assert k.q.sleeping[0].0 <= t;
    }
  }

  /** A new sleeper stands behind those with its own time and before the later ones; the others keep their order. */
  lemma SleepersFifo(q: QState, t: Instant, w: WaitId)
    requires SleepSorted(q.sleeping)
    ensures var i := SleepIndex(q.sleeping, t); var s := Register(q, Time(t), w).sleeping;
      && |s| == |q.sleeping| + 1 && s[i] == (t, w)
      && (forall j :: 0 <= j < i ==> s[j] == q.sleeping[j] && s[j].0 <= t)
      && (forall j :: i < j < |s| ==> s[j] == q.sleeping[j - 1] && t < s[j].0)
  {
    SleepIndexSplits(q.sleeping, t);
    hide SleepIndex, SleepSorted;
  }

  // ----- Bookkeeping -----

  /** Books of the manager in every reachable state, in terms of lists, mailboxes and owners. */
  lemma Bookkeeping(ks: seq<KState>, steps: seq<Step>, i: nat, topic: Topic, s: SubId)
    requires Run(ks, steps) && Init(ks[0]) && i < |ks|
    ensures var m := ks[i].m;
      && Sorted(m.list.targets)
      && |FindAll(m.list, topic, true)| <= 1
      && (FindAll(m.list, topic, true) != {} ==> FindAll(m.list, topic, false) == {})
      && m.mailboxes.Keys == Ids(m.list)
      && (HasBox(m, s) <==> exists p :: Owns(m, p, s))
      && (forall p, p' :: Owns(m, p, s) && Owns(m, p', s) ==> p == p')
  {
    hide KInv, Init, Next;
    RunKeepsInv(ks, steps, i);
    MailFromInv(ks[i]);
    ExclusiveTopics(ks[i].m.list, topic);
  }

  lemma MailFromInv(k: KState)
    requires KInv(k)
    ensures ListOk(k.m) && OwnersOk(k.m) && AcksOk(k.m) && PipesOk(k.m)
  {
    hide Placement, ProcOk, SenderOk, ListOk, OwnersOk, AcksOk, PipesOk, BoxesOk, EventsOk, SendersOk;
  }

  /** A delivery lies in one place at most, and all deliveries in one pipe come from one process. */
  lemma QueuesHold(ks: seq<KState>, steps: seq<Step>, i: nat, s: SubId, n: nat, s': SubId, n': nat, a: AckId, b: AckId)
    requires Run(ks, steps) && Init(ks[0]) && i < |ks|
    requires Queued(ks[i].m, s, n, a) && Queued(ks[i].m, s', n', b)
    ensures a in ks[i].m.pending && b in ks[i].m.pending
    ensures a == b ==> s == s' && n == n'
    ensures s == s' && !Box(ks[i].m, s).pipe.NoPipe? ==> ks[i].m.pending[a].sender == ks[i].m.pending[b].sender
  {
    hide KInv, Init, Next;
    RunKeepsInv(ks, steps, i);
    MailFromInv(ks[i]);
    assert PipeOk(ks[i].m, s);
  }

  /** An acknowledgement keeps the books if and only if the message it answers is out of its mailbox. */
  lemma AcknowledgeKeepsIff(m: MState, a: AckId, positive: bool)
    requires MInv(m) && a in m.pending
    ensures MInv(Mail.Acknowledge(m, a, positive).0) <==> forall s, n: nat :: !Queued(m, s, n, a)
  {
    hide ListOk, OwnersOk, BoxesOk, EventsOk, SendersOk, PipesOk;
    var m' := Mail.Acknowledge(m, a, positive).0;
    if forall s, n: nat :: !Queued(m, s, n, a) { AcknowledgeKeeps(m, a, positive, 0); }
    else {
      var s, n: nat :| Queued(m, s, n, a);
      assert Queued(m', s, n, a) && a !in m'.pending;
    }
  }

  /** Unsubscribing gives a verdict to exactly the senders whose deliveries were still queued there. */
  lemma UnsubscribeFreesQueued(m: MState, pid: Pid, sub: SubId, p: Pid)
    requires MInv(m) && Owns(m, pid, sub)
    ensures UnsubscribeSafe(m, pid, sub)
    ensures var (m', r, events) := Mail.Unsubscribe(m, pid, sub);
      && (p in m'.results && p !in m.results <==> exists i: nat, a :: Queued(m, sub, i, a) && m.pending[a].sender == p)
      && (forall e :: e in events <==> exists i: nat, a :: Queued(m, sub, i, a) && m.pending[a].event == e)
  {
    hide ListOk, EventsOk, PipesOk, BoxesOk;
    TearDownSafe(m, pid, sub);
    var (m', r, events) := Mail.Unsubscribe(m, pid, sub);
    var acks := Acks(Box(m, sub).queue.items);
    forall a: AckId ensures a in acks <==> exists i: nat :: Queued(m, sub, i, a) {
      if a in acks {
        var i :| 0 <= i < |Box(m, sub).queue.items| && Box(m, sub).queue.items[i].ack == Some(a);
        assert Queued(m, sub, i, a);
      }
    }
    if i: nat, a :| Queued(m, sub, i, a) && m.pending[a].sender == p {
      assert a in acks && p in Senders(m, acks);
    }
    forall e | exists i: nat, a :: Queued(m, sub, i, a) && m.pending[a].event == e ensures e in events {
      var i: nat, a :| Queued(m, sub, i, a) && m.pending[a].event == e;
      assert a in acks;
    }
  }
}
