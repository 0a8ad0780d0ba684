/** However a call of the running process ends, the kernel invariant holds again. */
module KernelEnds {
  import opened Common
  import opened Waits
  import opened Queues
  import opened Mail
  import opened MailInvariant
  import opened MailOps
  import opened Kernel
  import opened KernelInvariant
  import opened KernelSteps
  import opened KernelCalls

  // ----- Handling the call of the running process -----

  /** The running process may make this call now. */
  ghost predicate MayCall(k: KState, x: Pid, call: Call) {
    && KInv(k) && k.running == Some(x) && Disciplined(k.m, call)
    && (k.procs[x].repeat ==> k.procs[x].frame == Calling(call))
  }

  lemma RunningFacts(k: KState, x: Pid)
    requires KInv(k) && k.running == Some(x)
    ensures x in k.procs && !ProcessExists(k.q, x) && QInv(k.q) && MInv(k.m)
    ensures NotSending(k.m, x)
    ensures x in k.m.results ==> k.procs[x].repeat && k.procs[x].frame.call.Deliver?
  {
    hide MInv, QInv;
    assert ProcOk(k, x);
    NotBlockedNotSending(k, x);
  }

  lemma HandledKeeps(k: KState, x: Pid, call: Call, k1: KState, r: SyscallResult)
    requires k.running == Some(x) && x in k.procs && MayCall(k, x, call) && Handled(k, x, call, k1, r) && !call.Exec?
    ensures KInvX(k1, x) && CallOutcome(k1.m, x, call, r) && k1 == k.(m := k1.m, q := k1.q)
  {
    hide MInv, QInv, MailStep, Placement, ProcOk, SenderOk, EventsFired, CallOutcome, CallEffect;
    RunningFacts(k, x);
    ExemptAny(k, x);
    CallKeeps(k.m, x, call);
    CallOutcomes(k.m, x, call);
    var (m', _, events) := CallEffect(k.m, x, call);
    FireWakes(k, k1, events, x);
    WakesKeep(k, k1, Waiters(k.q, events), events, x);
  }

  lemma RecordKeeps(k: KState, x: Pid, proc: Proc)
    requires KInvX(k, x) && x in k.procs
    ensures KInvX(k.(procs := k.procs[x := proc]), x)
  {
    hide MInv, QInv;
    var k' := k.(procs := k.procs[x := proc]);
    forall p | p in k'.procs && p != x ensures ProcOk(k', p) {
      assert ProcOk(k, p);
      if k.procs[p].repeat {
        forall w | w in k'.q.waiting && k'.q.waiting[w] == p ensures WaitOk(k', p, k.procs[p].frame.call, w) {
          assert WaitOk(k, p, k.procs[p].frame.call, w);
        }
      }
    }
    forall a | a in k'.m.pending && k'.m.pending[a].sender != x ensures SenderOk(k', a) { assert SenderOk(k, a); }
  }

  lemma SpawnedKeeps(k: KState)
    requires KInv(k)
    ensures KInv(Spawned(k)) && Spawned(k).running == k.running && Spawned(k).m == k.m
  {
    hide MInv, QInv, WaitOk;
    var k' := Spawned(k);
    assert QInv(k.q) && !ProcessExists(k.q, k.nextPid);
    GiveKeepsInv(k.q, k.nextPid, WaitFor.None);
    assert forall p :: Blocked(k'.q, p) <==> Blocked(k.q, p);
    assert k.nextPid !in k.m.results;
    forall p | p in k'.procs ensures ProcOk(k', p) {
      if p == k.nextPid {
        assert !Blocked(k'.q, p);
      } else {
        assert ProcOk(k, p);
        if k.procs[p].repeat {
          forall w | w in k'.q.waiting && k'.q.waiting[w] == p ensures WaitOk(k', p, k.procs[p].frame.call, w) {
            SameWaitOk(k, k', p, k.procs[p].frame.call, w);
          }
        }
      }
    }
    forall a | a in k'.m.pending ensures SenderOk(k', a) { assert SenderOk(k, a); }
  }

  lemma SameWaitOk(k: KState, k': KState, p: Pid, call: Call, w: WaitId)
    requires k'.m == k.m && k'.q == k.q.(ready := k'.q.ready) && WaitOk(k, p, call, w)
    ensures WaitOk(k', p, call, w)
  {
    assert forall st :: Registered(k'.q, st, w) <==> Registered(k.q, st, w);
    assert forall e :: OnEvent(k'.q, e, w) <==> OnEvent(k.q, e, w);
    if call.Deliver? {
      var a :| a in k.m.pending && k.m.pending[a].sender == p && OnlyOn(k.q, k.m.pending[a].event, w);
      assert OnlyOn(k'.q, k'.m.pending[a].event, w);
    }
  }

  lemma NextPidKeeps(k: KState)
    requires KInv(k)
    ensures KInv(k.(nextPid := k.nextPid + 1))
  {
    hide MInv, QInv;
    var k' := k.(nextPid := k.nextPid + 1);
    forall p | p in k'.procs ensures ProcOk(k', p) {
      assert ProcOk(k, p);
      if k.procs[p].repeat {
        forall w | w in k'.q.waiting && k'.q.waiting[w] == p ensures WaitOk(k', p, k.procs[p].frame.call, w) {
          SameWaitOk(k, k', p, k.procs[p].frame.call, w);
        }
      }
    }
    forall a | a in k'.m.pending ensures SenderOk(k', a) { assert SenderOk(k, a); }
  }

  // ----- Ending the call -----

  /** The process got an answer and has nothing outstanding. */
  ghost predicate Answered(k: KState, x: Pid) {
    && KInvX(k, x) && k.running == Some(x) && x in k.procs && !k.procs[x].repeat
    && x !in k.m.results && NotSending(k.m, x)
  }

  lemma AnsweredKeeps(k: KState, x: Pid)
    requires Answered(k, x)
    ensures KInv(k)
  {
    hide MInv, Placement, SenderOk;
    CloseOk(k, x);
  }

  lemma AnsweredSwitchKeeps(k: KState, x: Pid, s: WaitFor, now: Instant)
    requires Answered(k, x) && Flat(s)
    ensures KInv(SwitchTo(k, Some(s), now))
  {
    hide MInv, Placement, SenderOk, Give;
    var k1 := k.(q := Give(k.q, x, s), running := Option.None, sliceEnd := Option.None);
    GivenKeeps(k, k1, x, s);
    CloseOk(k1, x);
    SwitchGivenKeeps(k, k1, x, s, now);
  }

  lemma {:induction false} NoTimes(options: seq<WaitFor>)
    requires forall i :: 0 <= i < |options| ==> options[i].Event?
    ensures NotTimes(options) == options && Earliest(options).None?
  {
    if options != [] {
      NoTimes(options[..|options| - 1]);
      assert options == options[..|options| - 1] + [options[|options| - 1]];
    }
  }

  /** The wait condition of a repeated call: one event, or the first of several. */
  ghost predicate WaitsOnEvents(s: WaitFor, es: seq<EventId>) {
    es != [] && (s == FirstOf(EventList(es)) || (|es| == 1 && s == Event(es[0])))
  }

  lemma EventAtoms(s: WaitFor, es: seq<EventId>)
    requires WaitsOnEvents(s, es)
    ensures Flat(s) && Atoms(Reduce(s)) == EventList(es) && !Reduce(s).None?
  {
    var atoms := EventList(es);
    NoTimes(atoms);
    assert Merged(atoms) == atoms;
    if |es| == 1 { assert atoms == [atoms[0]]; }
  }

  lemma GivenOnEvents(k: KState, k1: KState, x: Pid, s: WaitFor, es: seq<EventId>)
    requires GivenAway(k, k1, x, s) && QInv(k.q) && WaitsOnEvents(s, es)
    ensures k1.q.waiting == k.q.waiting[k.q.nextWait := x]
    ensures forall st :: Registered(k1.q, st, k.q.nextWait) <==> exists i :: 0 <= i < |es| && st == Event(es[i])
  {
    EventAtoms(s, es);
    assert !Resolved(k.q, x, s);
    GiveTables(k.q, x, s);
    hide Give, EventsFired, QInv, Reduce, Atoms, Registered;
  }

  /** A process that waits for events: the condition that makes its call consistent. */
  lemma ParkedKeeps(k: KState, k1: KState, x: Pid, s: WaitFor, es: seq<EventId>, call: Call)
    requires KInvX(k, x) && k.running == Some(x) && x in k.procs && k.procs[x] == Proc(true, Calling(call))
      && Repeatable(call)
    requires GivenAway(k, k1, x, s) && WaitsOnEvents(s, es) && x !in k.m.results
    requires WaitOk(k1, x, call, k.q.nextWait)
    requires call.Deliver? || NotSending(k.m, x)
    ensures KInv(k1)
  {
    hide MInv, WaitOk, Give, QInv;
    GivenKeeps(k, k1, x, s);
    GivenOnEvents(k, k1, x, s, es);
    var w := k.q.nextWait;
    assert k1.q.waiting[w] == x;
    assert forall v :: v in k.q.waiting ==> k.q.waiting[v] != x by { assert !Blocked(k.q, x); }
    assert ProcOk(k1, x);
    forall a | a in k1.m.pending && k1.m.pending[a].sender == x ensures SenderOk(k1, a) {}
    CloseOk(k1, x);
  }

  lemma ParkedReceive(k: KState, k1: KState, x: Pid, s: WaitFor, subs: seq<SubId>, es: seq<EventId>)
    requires GivenAway(k, k1, x, s) && QInv(k.q) && MInv(k.m) && WaitsOnEvents(s, es) && AllArmed(k.m, subs, es)
    ensures forall sub :: sub in subs ==> Armed(k1, sub, k.q.nextWait)
  {
    hide Give, OwnersOk, BoxesOk, EventsOk, SendersOk, AcksOk, PipesOk, QInv;
    GivenOnEvents(k, k1, x, s, es);
    forall sub | sub in subs ensures Armed(k1, sub, k.q.nextWait) {
      var i :| 0 <= i < |subs| && subs[i] == sub;
      assert Registered(k1.q, Event(es[i]), k.q.nextWait);
      BoxIds(k.m, sub);
    }
  }

  lemma ParkedDeliver(k: KState, k1: KState, x: Pid, e: EventId)
    requires GivenAway(k, k1, x, Event(e)) && QInv(k.q) && SendsOn(k.m, x, e)
    ensures SenderWaits(k1, x, k.q.nextWait)
  {
    hide Give, QInv;
    GivenOnEvents(k, k1, x, Event(e), [e]);
    var a :| a in k.m.pending && k.m.pending[a] == Pending(e, x);
    assert [e][0] == e;
    assert OnlyOn(k1.q, e, k.q.nextWait);
    assert a in k1.m.pending && k1.m.pending[a].sender == x;
  }

  lemma RepeatKeeps(k: KState, x: Pid, call: Call, s: WaitFor, now: Instant)
    requires KInvX(k, x) && k.running == Some(x) && x in k.procs && k.procs[x] == Proc(true, Calling(call))
    requires CallOutcome(k.m, x, call, RepeatAfter(s)) && Flat(s)
    ensures KInv(SwitchTo(k, Some(s), now))
  {
    hide MInv, Placement, ProcOk, SenderOk, Give, Armed, SenderWaits, QInv;
    var k1 := k.(q := Give(k.q, x, s), running := Option.None, sliceEnd := Option.None);
    assert QInv(k.q) by { Unpack(k); }
    match call {
      case Receive(sub, _) =>
        ParkedReceive(k, k1, x, s, [sub], [s.event]);
        assert sub in [sub];
        ParkedKeeps(k, k1, x, s, [s.event], call);
      case Select(subs, _) =>
        var es :| s == FirstOf(EventList(es)) && AllArmed(k.m, subs, es);
        ParkedReceive(k, k1, x, s, subs, es);
        ParkedKeeps(k, k1, x, s, es, call);
      case Deliver(_, _, _) =>
        ParkedDeliver(k, k1, x, s.event);
        ParkedKeeps(k, k1, x, s, [s.event], call);
      case _ => assert false;
    }
    SwitchGivenKeeps(k, k1, x, s, now);
  }
}
