/** Every kernel step keeps the invariant. */
module KernelSteps {
  import opened Common
  import opened Waits
  import opened Queues
  import opened MailInvariant
  import opened MailOps
  import opened Kernel
  import opened KernelInvariant

  // ----- Opening and closing the exemption -----

  lemma ExemptAny(k: KState, x: Pid)
    requires KInv(k)
    ensures KInvX(k, x)
  {
    hide Placement, MInv, ProcOk, SenderOk;
  }

  lemma CloseGone(k: KState, x: Pid)
    requires KInvX(k, x) && x !in k.procs && NotSending(k.m, x)
    ensures KInv(k)
  {
    hide Placement, MInv, ProcOk, SenderOk;
  }

  lemma CloseOk(k: KState, x: Pid)
    requires KInvX(k, x) && x in k.procs && ProcOk(k, x)
    requires forall a :: a in k.m.pending && k.m.pending[a].sender == x ==> SenderOk(k, a)
    ensures KInv(k)
  {
    hide Placement, MInv, ProcOk, SenderOk;
  }

  /** A process that is not blocked has nothing outstanding. */
  lemma NotBlockedNotSending(k: KState, x: Pid)
    requires KInv(k) && !Blocked(k.q, x)
    ensures NotSending(k.m, x)
  {
    hide Placement, MInv, ProcOk;
    forall a | a in k.m.pending ensures k.m.pending[a].sender != x { assert SenderOk(k, a); }
  }

  // ----- The three ways of waking -----

  lemma FireWakes(k: KState, k': KState, events: set<EventId>, x: Pid)
    requires k' == k.(m := k'.m, q := k'.q) && QInv(k.q) && EventsFired(k.q, events, k'.q)
    requires MInv(k'.m) && MailStep(k.m, k'.m, events, x) && NotSending(k.m, x)
    ensures Wakes(k, k', Waiters(k.q, events), events, x)
  {
    hide MInv, MailStep;
    assert QInv(k'.q) by { FiredKeepsInv(k.q, events, k'.q); }
    var ids := Waiters(k.q, events);
    forall w, st | w in k.q.waiting && w !in ids ensures Registered(k'.q, st, w) <==> Registered(k.q, st, w) {
      assert st.Event? && st.event in events ==> !OnEvent(k.q, st.event, w);
    }
    forall w, e | w in ids && w in k.q.waiting && OnlyOn(k.q, e, w) ensures e in events {
      var f :| f in events && f in k.q.onEvent && w in k.q.onEvent[f];
      assert Registered(k.q, Event(f), w);
    }
  }

  lemma TickWakesAll(k: KState, k': KState, now: Instant, x: Pid)
    requires k' == k.(q := AfterTick(k.q, now)) && QInv(k.q) && MInv(k.m) && NotSending(k.m, x)
    ensures Wakes(k, k', Due(k.q, now), {}, x)
  {
    hide MInv, MailStep, AfterTick;
    TickKeepsInv(k.q, now);
    TickWakes(k.q, now);
    TickTables(k.q, now);
    NothingKeeps(k.m, x);
    var ids := Due(k.q, now);
    forall w, st | w in k.q.waiting && w !in ids ensures Registered(k'.q, st, w) <==> Registered(k.q, st, w) {
      assert st.Time? && Registered(k.q, st, w) ==> (st.instant, w) in k.q.sleeping;
    }
    forall w, e | w in ids && w in k.q.waiting ensures !OnlyOn(k.q, e, w) {
      var i :| 0 <= i < |k.q.sleeping| && k.q.sleeping[i].0 <= now && k.q.sleeping[i].1 == w;
      assert k.q.sleeping[i] in k.q.sleeping;
      assert Registered(k.q, Time(k.q.sleeping[i].0), w);
    }
  }

  lemma OverWakes(k: KState, k': KState, x: Pid)
    requires k' == k.(q := k'.q) && QInv(k.q) && MInv(k.m) && NotSending(k.m, x)
    requires !ProcessExists(k.q, x) && ProcessOver(k.q, x, k'.q)
    ensures Wakes(k, k', ExitWaiters(k.q, x), {}, x)
  {
    hide MInv, MailStep;
    OverKeepsInv(k.q, x, k'.q);
    NothingKeeps(k.m, x);
    assert RemoveFirst(k.q.ready, x) == k.q.ready by { RemoveFirstAt(k.q.ready, x, |k.q.ready|); }
    var ids := ExitWaiters(k.q, x);
    forall w, st | w in k.q.waiting && w !in ids ensures Registered(k'.q, st, w) <==> Registered(k.q, st, w) {
      assert st == Process(x) ==> !Registered(k.q, st, w);
    }
    forall w, e | w in ids && w in k.q.waiting ensures !OnlyOn(k.q, e, w) {
      assert Registered(k.q, Process(x), w);
    }
  }

  // ----- Giving the running process away, taking the next -----

  /** The running process has been given to the queues. */
  ghost predicate GivenAway(k: KState, k': KState, x: Pid, s: WaitFor) {
    && k.running == Some(x) && Flat(s)
    && k' == k.(q := Give(k.q, x, s), running := Option.None, sliceEnd := Option.None)
  }

  lemma GivenTables(k: KState, k': KState, x: Pid, s: WaitFor)
    requires GivenAway(k, k', x, s) && QInv(k.q)
    ensures forall w, st :: w in k.q.waiting ==> (Registered(k'.q, st, w) <==> Registered(k.q, st, w))
    ensures forall w :: w in k.q.waiting ==> w in k'.q.waiting && k'.q.waiting[w] == k.q.waiting[w]
    ensures forall w :: w in k'.q.waiting && w !in k.q.waiting ==> k'.q.waiting[w] == x
  {
    hide Give;
    GiveTables(k.q, x, s);
  }

  lemma GivenWaitOk(k: KState, k': KState, x: Pid, s: WaitFor, p: Pid, call: Call, w: WaitId)
    requires GivenAway(k, k', x, s) && QInv(k.q) && w in k.q.waiting && WaitOk(k, p, call, w)
    ensures WaitOk(k', p, call, w)
  {
    hide Give, QInv;
    GivenTables(k, k', x, s);
    assert forall e :: OnEvent(k.q, e, w) ==> Registered(k.q, Event(e), w);
    assert forall e :: Registered(k'.q, Event(e), w) ==> OnEvent(k'.q, e, w);
    if call.Deliver? {
      var a :| a in k.m.pending && k.m.pending[a].sender == p && OnlyOn(k.q, k.m.pending[a].event, w);
      assert OnlyOn(k'.q, k'.m.pending[a].event, w);
    }
  }

  lemma GivenBlocked(k: KState, k': KState, x: Pid, s: WaitFor, p: Pid)
    requires GivenAway(k, k', x, s) && QInv(k.q) && p != x
    ensures Blocked(k'.q, p) <==> Blocked(k.q, p)
  {
    hide Give, QInv;
    GivenTables(k, k', x, s);
    if Blocked(k.q, p) { var w :| w in k.q.waiting && k.q.waiting[w] == p; assert k'.q.waiting[w] == p; }
    if Blocked(k'.q, p) { var w :| w in k'.q.waiting && k'.q.waiting[w] == p; assert k.q.waiting[w] == p; }
  }

  lemma GivenProcOk(k: KState, k': KState, x: Pid, s: WaitFor, p: Pid)
    requires GivenAway(k, k', x, s) && QInv(k.q) && p in k.procs && p != x && ProcOk(k, p)
    ensures ProcOk(k', p)
  {
    hide Give, QInv, WaitOk;
    GivenBlocked(k, k', x, s, p);
    GivenTables(k, k', x, s);
    if k.procs[p].repeat {
      forall w | w in k'.q.waiting && k'.q.waiting[w] == p ensures WaitOk(k', p, k.procs[p].frame.call, w) {
        GivenWaitOk(k, k', x, s, p, k.procs[p].frame.call, w);
      }
    }
  }

  lemma GivenPlacement(k: KState, k': KState, x: Pid, s: WaitFor)
    requires GivenAway(k, k', x, s) && Placement(k)
    ensures Placement(k')
  {
    hide Give;
    GiveKeepsInv(k.q, x, s);
  }

  lemma GivenKeeps(k: KState, k': KState, x: Pid, s: WaitFor)
    requires GivenAway(k, k', x, s) && KInvX(k, x)
    ensures KInvX(k', x)
  {
    hide Give, MInv, ProcOk, Placement, QInv;
    GivenPlacement(k, k', x, s);
    assert QInv(k.q) by { Unpack(k); }
    forall p | p in k'.procs && p != x ensures ProcOk(k', p) { GivenProcOk(k, k', x, s, p); }
    forall a | a in k'.m.pending && k'.m.pending[a].sender != x ensures SenderOk(k', a) {
      assert SenderOk(k, a);
      GivenBlocked(k, k', x, s, k.m.pending[a].sender);
    }
  }

  lemma Unpack(k: KState)
    requires Placement(k)
    ensures QInv(k.q)
  {
  }

  /** The queue without its first process, which is running now. */
  ghost predicate TakenFrom(k: KState, k': KState) {
    && k.running.None? && k.q.ready != []
    && k' == k.(q := k.q.(ready := k.q.ready[1..]), running := Some(k.q.ready[0]), sliceEnd := k'.sliceEnd)
  }

  lemma TakenPlacement(k: KState, k': KState)
    requires TakenFrom(k, k') && Placement(k)
    ensures Placement(k')
  {
    var p := k.q.ready[0];
    assert forall st, w: WaitId :: Registered(k'.q, st, w) <==> Registered(k.q, st, w);
    assert forall x :: x in k.q.ready <==> x == p || x in k'.q.ready;
    assert forall x :: Blocked(k'.q, x) <==> Blocked(k.q, x);
    forall w | w in k'.q.waiting ensures exists s :: Registered(k'.q, s, w) {
      var s :| Registered(k.q, s, w);
      assert Registered(k'.q, s, w);
    }
  }

  lemma TakenKeeps(k: KState, k': KState)
    requires TakenFrom(k, k') && KInv(k)
    ensures KInv(k')
  {
    hide MInv, Placement;
    TakenPlacement(k, k');
    assert forall x :: Blocked(k'.q, x) <==> Blocked(k.q, x);
    forall p | p in k'.procs ensures ProcOk(k', p) {
      assert ProcOk(k, p);
      TakenProcOk(k, k', p);
    }
    forall a | a in k'.m.pending ensures SenderOk(k', a) { assert SenderOk(k, a); }
  }

  lemma TakenProcOk(k: KState, k': KState, p: Pid)
    requires TakenFrom(k, k') && p in k.procs && ProcOk(k, p)
    ensures ProcOk(k', p)
  {
    assert forall st, w: WaitId :: Registered(k'.q, st, w) <==> Registered(k.q, st, w);
    assert forall x :: Blocked(k'.q, x) <==> Blocked(k.q, x);
    if k.procs[p].repeat {
      forall w | w in k'.q.waiting && k'.q.waiting[w] == p ensures WaitOk(k', p, k.procs[p].frame.call, w) {
        assert WaitOk(k, p, k.procs[p].frame.call, w);
        TakenWaitOk(k, k', p, k.procs[p].frame.call, w);
      }
    }
  }

  lemma TakenWaitOk(k: KState, k': KState, p: Pid, call: Call, w: WaitId)
    requires TakenFrom(k, k') && WaitOk(k, p, call, w)
    ensures WaitOk(k', p, call, w)
  {
    assert forall st :: Registered(k'.q, st, w) <==> Registered(k.q, st, w);
    assert forall e :: OnEvent(k'.q, e, w) <==> OnEvent(k.q, e, w);
    if call.Deliver? {
      var a :| a in k.m.pending && k.m.pending[a].sender == p && OnlyOn(k.q, k.m.pending[a].event, w);
      assert OnlyOn(k'.q, k'.m.pending[a].event, w);
    }
  }

  /** Switching is giving away, if there is something to give, and then taking. */
  lemma SwitchIdleKeeps(k: KState, now: Instant)
    requires KInv(k) && k.running.None?
    ensures KInv(SwitchTo(k, Option.None, now)) && KInv(SwitchCurrentOrNext(k))
  {
    hide MInv, Placement, ProcOk, SenderOk;
    if k.q.ready != [] {
      TakenKeeps(k, SwitchTo(k, Option.None, now));
      TakenKeeps(k, SwitchCurrentOrNext(k));
    } else {
      SliceKeeps(k, SwitchTo(k, Option.None, now));
    }
  }

  lemma SliceKeeps(k: KState, k': KState)
    requires KInv(k) && k' == k.(sliceEnd := k'.sliceEnd)
    ensures KInv(k')
  {
    hide MInv, QInv;
    forall p | p in k'.procs ensures ProcOk(k', p) {
      assert ProcOk(k, p);
      if k.procs[p].repeat {
        forall w | w in k'.q.waiting && k'.q.waiting[w] == p ensures WaitOk(k', p, k.procs[p].frame.call, w) {
          assert WaitOk(k, p, k.procs[p].frame.call, w);
        }
      }
    }
    forall a | a in k'.m.pending ensures SenderOk(k', a) { assert SenderOk(k, a); }
  }

  lemma SwitchGivenKeeps(k: KState, k1: KState, x: Pid, s: WaitFor, now: Instant)
    requires GivenAway(k, k1, x, s) && KInv(k1)
    ensures KInv(SwitchTo(k, Some(s), now))
  {
    hide MInv, Placement, ProcOk, SenderOk, Give;
    SwitchIdleKeeps(k1, now);
    assert SwitchTo(k, Some(s), now) == SwitchTo(k1, Option.None, now);
  }
}
