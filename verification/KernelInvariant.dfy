/** What holds between any two kernel steps. */
module KernelInvariant {
  import opened Common
  import opened Waits
  import opened Queues
  import opened Mail
  import opened MailInvariant
  import opened Kernel

  /** Every live process is in exactly one place: running, ready, or behind one wait id. */
  ghost predicate Placement(k: KState) {
    && QInv(k.q)
    && (k.running.Some? ==> !ProcessExists(k.q, k.running.value))
    && (forall p :: p in k.procs <==> ProcessExists(k.q, p) || k.running == Some(p))
    && (forall p :: p in k.procs ==> p < k.nextPid)
  }

  /** A still subscribed mailbox this wait looks at is empty, and armed with an event the wait is registered for. */
  ghost predicate Armed(k: KState, s: SubId, w: WaitId) {
    && s < k.m.list.next
    && (HasBox(k.m, s) ==>
          && Box(k.m, s).queue.items == []
          && Box(k.m, s).queue.event.Some?
          && OnEvent(k.q, Box(k.m, s).queue.event.value, w))
  }

  /** The wait is registered for this event and nothing else. */
  ghost predicate OnlyOn(q: QState, e: EventId, w: WaitId) {
    forall st :: Registered(q, st, w) <==> st == Event(e)
  }

  /** The sender waits for the private event of its one outstanding delivery. */
  ghost predicate SenderWaits(k: KState, p: Pid, w: WaitId) {
    exists a :: a in k.m.pending && k.m.pending[a].sender == p && OnlyOn(k.q, k.m.pending[a].event, w)
  }

  ghost predicate WaitOk(k: KState, p: Pid, call: Call, w: WaitId) {
    match call
    case Receive(s, _) => Armed(k, s, w)
    case Select(subs, _) => forall s :: s in subs ==> Armed(k, s, w)
    case Deliver(_, _, _) => SenderWaits(k, p, w)
    case _ => false
  }

  predicate Repeatable(call: Call) {
    call.Receive? || call.Select? || call.Deliver?
  }

  ghost predicate ProcOk(k: KState, p: Pid)
    requires p in k.procs
  {
    var proc := k.procs[p];
    && (proc.repeat ==> proc.frame.Calling? && Repeatable(proc.frame.call))
    && (p in k.m.results <==> proc.repeat && proc.frame.call.Deliver? && !Blocked(k.q, p))
    && (proc.repeat ==> forall w :: w in k.q.waiting && k.q.waiting[w] == p ==> WaitOk(k, p, proc.frame.call, w))
  }

  /** The sender of an outstanding delivery is blocked in that call. */
  ghost predicate SenderOk(k: KState, a: AckId)
    requires a in k.m.pending
  {
    var p := k.m.pending[a].sender;
    p in k.procs && k.procs[p].repeat && k.procs[p].frame.Calling? && k.procs[p].frame.call.Deliver? && Blocked(k.q, p)
  }

  /** The invariant, except for what concerns process `x`, whose call is being worked on. */
  ghost predicate KInvX(k: KState, x: Pid) {
    && Placement(k)
    && MInv(k.m)
    && (forall p :: p in k.procs && p != x ==> ProcOk(k, p))
    && (forall a :: a in k.m.pending && k.m.pending[a].sender != x ==> SenderOk(k, a))
    && (forall p :: p in k.m.results ==> p in k.procs)
  }

  ghost predicate KInv(k: KState) {
    && Placement(k)
    && MInv(k.m)
    && (forall p :: p in k.procs ==> ProcOk(k, p))
    && (forall a :: a in k.m.pending ==> SenderOk(k, a))
    && (forall p :: p in k.m.results ==> p in k.procs)
  }

  // ----- Waking processes -----

  /** The manager went from m to m' by a step of `x`; the queues consumed `ids`. */
  ghost predicate Wakes(k: KState, k': KState, ids: set<WaitId>, events: set<EventId>, x: Pid) {
    && k' == k.(m := k'.m, q := k'.q)
    && QInv(k'.q) && Woken(k.q, ids, k'.q)
    && MInv(k'.m) && MailStep(k.m, k'.m, events, x) && NotSending(k.m, x)
    && (forall w, st :: w in k.q.waiting && w !in ids ==> (Registered(k'.q, st, w) <==> Registered(k.q, st, w)))
    && (forall w, e :: w in k.q.waiting && e in events && OnEvent(k.q, e, w) ==> w in ids)
    && (forall w, e :: w in ids && w in k.q.waiting && OnlyOn(k.q, e, w) ==> e in events)
  }

  lemma WakesArmed(k: KState, k': KState, ids: set<WaitId>, events: set<EventId>, x: Pid, s: SubId, w: WaitId)
    requires Wakes(k, k', ids, events, x) && w in k'.q.waiting && Armed(k, s, w)
    ensures Armed(k', s, w)
  {
    hide MInv, QInv;
    if HasBox(k'.m, s) {
      assert HasBox(k.m, s) && Quiet(k.m, k'.m, events, s);
      var e := Box(k.m, s).queue.event.value;
      assert Registered(k'.q, Event(e), w) <==> Registered(k.q, Event(e), w);
    }
  }

  lemma WakesSenderWaits(k: KState, k': KState, ids: set<WaitId>, events: set<EventId>, x: Pid, p: Pid, w: WaitId)
    requires Wakes(k, k', ids, events, x) && w in k'.q.waiting && SenderWaits(k, p, w)
    ensures SenderWaits(k', p, w)
  {
    hide MInv, QInv;
    var a :| a in k.m.pending && k.m.pending[a].sender == p && OnlyOn(k.q, k.m.pending[a].event, w);
    var e := k.m.pending[a].event;
    assert Registered(k.q, Event(e), w);
    assert Followed(k.m, k'.m, events, a);
    assert OnlyOn(k'.q, e, w);
    assert a in k'.m.pending && k'.m.pending[a].sender == p;
  }

  lemma WakesWaitOk(k: KState, k': KState, ids: set<WaitId>, events: set<EventId>, x: Pid, p: Pid, call: Call,
      w: WaitId)
    requires Wakes(k, k', ids, events, x) && w in k'.q.waiting && WaitOk(k, p, call, w)
    ensures WaitOk(k', p, call, w)
  {
    hide Wakes, Armed, SenderWaits;
    match call
    case Receive(s, _) => WakesArmed(k, k', ids, events, x, s, w);
    case Select(subs, _) =>
      forall s | s in subs ensures Armed(k', s, w) { WakesArmed(k, k', ids, events, x, s, w); }
    case Deliver(_, _, _) => WakesSenderWaits(k, k', ids, events, x, p, w);
  }

  /** Whether a wait of a sender is consumed is whether its delivery is decided. */
  lemma WakesSender(k: KState, k': KState, ids: set<WaitId>, events: set<EventId>, x: Pid, a: AckId, w: WaitId)
    requires Wakes(k, k', ids, events, x) && a in k.m.pending && w in k.q.waiting
    requires OnlyOn(k.q, k.m.pending[a].event, w)
    ensures w in ids <==> a !in k'.m.pending
    ensures a !in k'.m.pending ==> k.m.pending[a].sender in k'.m.results
  {
    hide MInv, QInv;
    assert Registered(k.q, Event(k.m.pending[a].event), w);
    assert Followed(k.m, k'.m, events, a);
  }

  lemma WakesBlocked(k: KState, k': KState, ids: set<WaitId>, events: set<EventId>, x: Pid, p: Pid, w: WaitId)
    requires Wakes(k, k', ids, events, x) && Placed(k.q) && w in k.q.waiting && k.q.waiting[w] == p
    ensures Blocked(k'.q, p) <==> w !in ids
  {
    hide MInv, QInv, MailStep;
    if Blocked(k'.q, p) {
      var w' :| w' in k'.q.waiting && k'.q.waiting[w'] == p;
      assert k.q.waiting[w'] == p;
    }
    if w !in ids { assert w in k'.q.waiting && k'.q.waiting[w] == p; }
  }

  /** A sender that was blocked: it now has a verdict exactly when it has been woken. */
  lemma WakesBlockedSender(k: KState, k': KState, ids: set<WaitId>, events: set<EventId>, x: Pid, p: Pid)
    requires Wakes(k, k', ids, events, x) && Placed(k.q) && SendersOk(k.m)
    requires p in k.procs && p != x && ProcOk(k, p)
    requires k.procs[p].repeat && k.procs[p].frame.call.Deliver? && Blocked(k.q, p)
    ensures p in k'.m.results <==> !Blocked(k'.q, p)
  {
    hide MInv, QInv;
    var w :| w in k.q.waiting && k.q.waiting[w] == p;
    assert WaitOk(k, p, k.procs[p].frame.call, w);
    var a :| a in k.m.pending && k.m.pending[a].sender == p && OnlyOn(k.q, k.m.pending[a].event, w);
    WakesBlocked(k, k', ids, events, x, p, w);
    WakesSender(k, k', ids, events, x, a, w);
    if p in k'.m.results {
      assert Decided(k.m, k'.m, p);
      var b :| b in k.m.pending && b !in k'.m.pending && k.m.pending[b].sender == p;
      assert b == a;
    }
  }

  /** A process that was not a blocked sender gets no verdict from others. */
  lemma WakesOther(k: KState, k': KState, ids: set<WaitId>, events: set<EventId>, x: Pid, p: Pid)
    requires Wakes(k, k', ids, events, x) && KInvX(k, x)
    requires p in k.procs && p != x
    requires !(k.procs[p].repeat && k.procs[p].frame.call.Deliver? && Blocked(k.q, p))
    ensures p in k'.m.results <==> p in k.m.results
    ensures Blocked(k'.q, p) ==> Blocked(k.q, p)
  {
    hide MInv, QInv;
    forall b | b in k.m.pending ensures k.m.pending[b].sender != p {
      assert k.m.pending[b].sender == p ==> SenderOk(k, b);
    }
    assert !Decided(k.m, k'.m, p);
    if Blocked(k'.q, p) {
      var w :| w in k'.q.waiting && k'.q.waiting[w] == p;
      assert k.q.waiting[w] == p;
    }
  }

  lemma WakesProcOk(k: KState, k': KState, ids: set<WaitId>, events: set<EventId>, x: Pid, p: Pid)
    requires Wakes(k, k', ids, events, x) && KInvX(k, x) && p in k.procs && p != x
    ensures ProcOk(k', p)
  {
    hide MInv, QInv, MailStep, WaitOk;
    assert ProcOk(k, p);
    var proc := k.procs[p];
    if proc.repeat && proc.frame.call.Deliver? && Blocked(k.q, p) {
      assert Placed(k.q) && SendersOk(k.m) by { UnpackX(k, x); }
      WakesBlockedSender(k, k', ids, events, x, p);
    } else {
      WakesOther(k, k', ids, events, x, p);
    }
    if proc.repeat {
      forall w | w in k'.q.waiting && k'.q.waiting[w] == p ensures WaitOk(k', p, proc.frame.call, w) {
        assert w in k.q.waiting && k.q.waiting[w] == p;
        WakesWaitOk(k, k', ids, events, x, p, proc.frame.call, w);
      }
    }
  }

  lemma UnpackX(k: KState, x: Pid)
    requires KInvX(k, x)
    ensures Placed(k.q) && SendersOk(k.m) && EventsOk(k.m)
  {
  }

  lemma WakesSenderOk(k: KState, k': KState, ids: set<WaitId>, events: set<EventId>, x: Pid, a: AckId)
    requires Wakes(k, k', ids, events, x) && KInvX(k, x)
    requires a in k'.m.pending && k'.m.pending[a].sender != x
    ensures SenderOk(k', a)
  {
    hide MInv, QInv;
    assert a in k.m.pending && Followed(k.m, k'.m, events, a) && SenderOk(k, a);
    var p := k.m.pending[a].sender;
    assert ProcOk(k, p);
    UnpackX(k, x);
    WakesBlockedSender(k, k', ids, events, x, p);
    var w :| w in k.q.waiting && k.q.waiting[w] == p;
    assert WaitOk(k, p, k.procs[p].frame.call, w);
    var b :| b in k.m.pending && k.m.pending[b].sender == p && OnlyOn(k.q, k.m.pending[b].event, w);
    assert a == b;
    WakesSender(k, k', ids, events, x, a, w);
    WakesBlocked(k, k', ids, events, x, p, w);
  }

  lemma WakesPlacement(k: KState, k': KState, ids: set<WaitId>, events: set<EventId>, x: Pid)
    requires Wakes(k, k', ids, events, x) && Placement(k)
    ensures Placement(k')
  {
    hide MInv, MailStep;
    WokenPlaces(k.q, ids, k'.q);
  }

  lemma WakesResults(k: KState, k': KState, ids: set<WaitId>, events: set<EventId>, x: Pid)
    requires Wakes(k, k', ids, events, x) && KInvX(k, x)
    ensures forall p :: p in k'.m.results ==> p in k'.procs
    ensures x !in k.m.results ==> x !in k'.m.results
  {
    hide MInv, QInv, Placement, ProcOk;
    forall p | p in k'.m.results && p !in k.m.results ensures p in k'.procs && p != x {
      assert Decided(k.m, k'.m, p);
      var b :| b in k.m.pending && b !in k'.m.pending && k.m.pending[b].sender == p;
      assert SenderOk(k, b);
    }
  }

  /** Whatever a process does to the manager and whoever it wakes, everyone else stays consistent. */
  lemma WakesKeep(k: KState, k': KState, ids: set<WaitId>, events: set<EventId>, x: Pid)
    requires Wakes(k, k', ids, events, x) && KInvX(k, x)
    ensures KInvX(k', x)
    ensures x !in k.m.results ==> x !in k'.m.results
  {
    hide MInv, QInv, MailStep, ProcOk, SenderOk, Placement;
    WakesPlacement(k, k', ids, events, x);
    WakesResults(k, k', ids, events, x);
    forall p | p in k'.procs && p != x ensures ProcOk(k', p) { WakesProcOk(k, k', ids, events, x, p); }
    forall a | a in k'.m.pending && k'.m.pending[a].sender != x ensures SenderOk(k', a) {
      WakesSenderOk(k, k', ids, events, x, a);
    }
  }
}
