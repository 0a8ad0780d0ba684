/** Wait conditions mean what they say, over every run of queue operations. */
module QueueRuns {
  import opened Common
  import opened Waits
  import opened Queues

  datatype QOp =
    | Given(pid: Pid, cond: WaitFor)
    | Taken
    | Clock(now: Instant)
    | Over(pid: Pid)
    | Fire(events: set<EventId>)

  /**
   * What the scheduler does to its queues: it gives a process it just took out or created, and
   * only ends a process that is not waiting.
   */
  ghost predicate QNext(q: QState, op: QOp, q': QState) {
    match op
    case Given(pid, s) => Flat(s) && !ProcessExists(q, pid) && q' == Give(q, pid, s)
    case Taken => q' == if q.ready == [] then q else q.(ready := q.ready[1..])
    case Clock(now) => q' == AfterTick(q, now)
    case Over(pid) => !Blocked(q, pid) && ProcessOver(q, pid, q')
    case Fire(events) => EventsFired(q, events, q')
  }

  /** The occurrence an operation stands for, if any. */
  ghost predicate Ends(op: QOp, s: WaitFor) {
    match op
    case Clock(now) => Meets(s, Ticked(now))
    case Over(pid) => Meets(s, Exited(pid))
    case Fire(events) => exists e :: e in events && Meets(s, Triggered(e))
    case _ => false
  }

  ghost predicate Run(qs: seq<QState>, ops: seq<QOp>) {
    && |qs| == |ops| + 1
    && forall i :: 0 <= i < |ops| ==> QNext(qs[i], ops[i], qs[i + 1])
  }

  lemma NextKeepsInv(q: QState, op: QOp, q': QState)
    requires QInv(q) && QNext(q, op, q')
    ensures QInv(q')
  {
    match op
    case Given(pid, s) => GiveKeepsInv(q, pid, s);
    case Taken =>
      assert forall st, w: WaitId :: Registered(q', st, w) <==> Registered(q, st, w);
      forall w | w in q'.waiting ensures exists s :: Registered(q', s, w) {
        var s :| Registered(q, s, w);
        assert Registered(q', s, w);
      }
    case Clock(now) => TickKeepsInv(q, now);
    case Over(pid) => OverKeepsInv(q, pid, q');
    case Fire(events) => FiredKeepsInv(q, events, q');
  }

  /** The wait `w` of process `pid` is live and registered for exactly the conditions of `s`. */
  ghost predicate Armed(q: QState, w: WaitId, pid: Pid, s: WaitFor) {
    && w in q.waiting && q.waiting[w] == pid
    && forall a :: Registered(q, a, w) <==> a in Atoms(Reduce(s))
  }

  /** Some live condition of the wait is met. */
  ghost predicate Hit(q: QState, w: WaitId, o: Occurrence) {
    exists a :: Registered(q, a, w) && Meets(a, o)
  }

  lemma ArmedHit(q: QState, w: WaitId, pid: Pid, s: WaitFor, o: Occurrence)
    requires Flat(s) && s != FirstOf([]) && !s.None? && Armed(q, w, pid, s)
    ensures Hit(q, w, o) <==> Meets(s, o)
  {
    ReduceMeaning(s, o);
    if a :| a in Atoms(Reduce(s)) && Meets(a, o) { assert Registered(q, a, w); }
  }

  /** Whether a wait is consumed, and if not whether its conditions survive, decides what the step did to it. */
  lemma WakeMeans(q: QState, ids: set<WaitId>, q': QState, w: WaitId, pid: Pid, s: WaitFor)
    requires Placed(q) && Woken(q, ids, q') && Armed(q, w, pid, s)
    requires w !in ids ==> forall a :: Registered(q', a, w) <==> Registered(q, a, w)
    ensures w !in ids ==> Armed(q', w, pid, s)
    ensures w in ids ==> w !in q'.waiting && pid in q'.ready
  {
    WokenPlaces(q, ids, q');
  }

  lemma ClockMeans(q: QState, now: Instant, w: WaitId, pid: Pid, s: WaitFor)
    requires QInv(q) && Flat(s) && s != FirstOf([]) && !s.None? && Armed(q, w, pid, s)
    ensures !Meets(s, Ticked(now)) ==> Armed(AfterTick(q, now), w, pid, s)
    ensures Meets(s, Ticked(now)) ==> w !in AfterTick(q, now).waiting && pid in AfterTick(q, now).ready
  {
    ArmedHit(q, w, pid, s, Ticked(now));
    TickWakes(q, now);
    TickTables(q, now);
    DueIsMet(q, now, w);
    var q' := AfterTick(q, now);
    forall a | w !in Due(q, now) ensures Registered(q', a, w) <==> Registered(q, a, w) {
      assert Registered(q, a, w) ==> !Meets(a, Ticked(now));
    }
    WakeMeans(q, Due(q, now), q', w, pid, s);
  }

  lemma OverTables(q: QState, p: Pid, q': QState, w: WaitId)
    requires ProcessOver(q, p, q')
    ensures w in ExitWaiters(q, p) <==> Hit(q, w, Exited(p))
    ensures w !in ExitWaiters(q, p) ==> forall a :: Registered(q', a, w) <==> Registered(q, a, w)
  {
    if w in ExitWaiters(q, p) { assert Registered(q, Process(p), w) && Meets(Process(p), Exited(p)); }
    forall a ensures Registered(q, a, w) && Meets(a, Exited(p)) ==> a == Process(p) {}
  }

  lemma FireTables(q: QState, events: set<EventId>, q': QState, w: WaitId)
    requires EventsFired(q, events, q')
    ensures w in Waiters(q, events) <==> exists e :: e in events && Hit(q, w, Triggered(e))
    ensures w !in Waiters(q, events) ==> forall a :: Registered(q', a, w) <==> Registered(q, a, w)
  {
    if w in Waiters(q, events) {
      var e :| e in events && e in q.onEvent && w in q.onEvent[e];
      assert Registered(q, Event(e), w) && Meets(Event(e), Triggered(e));
    }
    if e :| e in events && Hit(q, w, Triggered(e)) {
      var a :| Registered(q, a, w) && Meets(a, Triggered(e));
      assert a == Event(e);
    }
  }

  lemma OverMeans(q: QState, p: Pid, q': QState, w: WaitId, pid: Pid, s: WaitFor)
    requires QInv(q) && ProcessOver(q, p, q') && !Blocked(q, p)
    requires Flat(s) && s != FirstOf([]) && !s.None? && Armed(q, w, pid, s)
    ensures !Meets(s, Exited(p)) ==> Armed(q', w, pid, s)
    ensures Meets(s, Exited(p)) ==> w !in q'.waiting && pid in q'.ready
  {
    ArmedHit(q, w, pid, s, Exited(p));
    OverTables(q, p, q', w);
    var q1 := q.(ready := RemoveFirst(q.ready, p));
    Removed(q, p, w, pid, s);
    WakeMeans(q1, ExitWaiters(q, p), q', w, pid, s);
  }

  lemma Removed(q: QState, p: Pid, w: WaitId, pid: Pid, s: WaitFor)
    requires Placed(q) && Armed(q, w, pid, s)
    ensures var q1 := q.(ready := RemoveFirst(q.ready, p));
      Placed(q1) && Armed(q1, w, pid, s) && forall a :: Registered(q1, a, w) <==> Registered(q, a, w)
  {
    RemoveFirstMembers(q.ready, p);
  }

  lemma FireMeans(q: QState, events: set<EventId>, q': QState, w: WaitId, pid: Pid, s: WaitFor)
    requires QInv(q) && EventsFired(q, events, q')
    requires Flat(s) && s != FirstOf([]) && !s.None? && Armed(q, w, pid, s)
    ensures (forall e :: e in events ==> !Meets(s, Triggered(e))) ==> Armed(q', w, pid, s)
    ensures (exists e :: e in events && Meets(s, Triggered(e))) ==> w !in q'.waiting && pid in q'.ready
  {
    forall e ensures Hit(q, w, Triggered(e)) <==> Meets(s, Triggered(e)) { ArmedHit(q, w, pid, s, Triggered(e)); }
    FireTables(q, events, q', w);
    WakeMeans(q, Waiters(q, events), q', w, pid, s);
  }

  /** One operation: the wait stays armed unless the operation ends it; then its process is ready. */
  lemma StepMeans(q: QState, op: QOp, q': QState, w: WaitId, pid: Pid, s: WaitFor)
    requires QInv(q) && QNext(q, op, q')
    requires Flat(s) && s != FirstOf([]) && !s.None? && Armed(q, w, pid, s)
    ensures !Ends(op, s) ==> Armed(q', w, pid, s)
    ensures Ends(op, s) ==> w !in q'.waiting && pid in q'.ready
  {
    match op
    case Given(p, c) => GiveTables(q, p, c);
    case Taken => assert forall a :: Registered(q', a, w) <==> Registered(q, a, w);
    case Clock(now) => ClockMeans(q, now, w, pid, s);
    case Over(p) => OverMeans(q, p, q', w, pid, s);
    case Fire(events) => FireMeans(q, events, q', w, pid, s);
  }

  /** What has happened is forgotten: nothing is left registered for it. */
  lemma Forgotten(q: QState, op: QOp, q': QState, w: WaitId)
    requires QInv(q) && QNext(q, op, q')
    ensures match op
      case Clock(now) => forall t: Instant :: t <= now ==> !Registered(q', Time(t), w)
      case Over(p) => !Registered(q', Process(p), w)
      case Fire(events) => forall e :: e in events ==> !Registered(q', Event(e), w)
      case _ => true
  {
    if op.Clock? { TickTables(q, op.now); }
  }

  lemma DueIsMet(q: QState, now: Instant, w: WaitId)
    ensures w in Due(q, now) <==> Hit(q, w, Ticked(now))
  {
    if w in Due(q, now) {
      var i :| 0 <= i < |q.sleeping| && q.sleeping[i].0 <= now && q.sleeping[i].1 == w;
      assert q.sleeping[i] in q.sleeping;
      assert Registered(q, Time(q.sleeping[i].0), w) && Meets(Time(q.sleeping[i].0), Ticked(now));
    }
    if a :| Registered(q, a, w) && Meets(a, Ticked(now)) {
      var i :| 0 <= i < |q.sleeping| && q.sleeping[i] == (a.instant, w);
    }
  }

  ghost predicate Met(ops: seq<QOp>, k: nat, s: WaitFor)
    requires k <= |ops|
  {
    exists i :: 0 <= i < k && Ends(ops[i], s)
  }

  lemma MetNext(ops: seq<QOp>, k: nat, s: WaitFor)
    requires 0 < k <= |ops|
    ensures Met(ops, k, s) <==> Met(ops, k - 1, s) || Ends(ops[k - 1], s)
  {
    hide Ends;
  }

  /**
   * Over any run of operations a wait is live exactly until the first one that meets its condition;
   * that operation makes the process ready, and the wait never comes back.
   */
  lemma {:induction false} ArmedUntilMet(qs: seq<QState>, ops: seq<QOp>, k: nat, w: WaitId, pid: Pid, s: WaitFor)
    requires Run(qs, ops) && k <= |ops| && QInv(qs[0]) && Armed(qs[0], w, pid, s)
    requires Flat(s) && s != FirstOf([]) && !s.None?
    ensures QInv(qs[k]) && w < qs[k].nextWait
    ensures !Met(ops, k, s) ==> Armed(qs[k], w, pid, s)
    ensures Met(ops, k, s) ==> w !in qs[k].waiting
    ensures k > 0 && !Met(ops, k - 1, s) && Met(ops, k, s) ==> pid in qs[k].ready
  {
    if k > 0 {
      ArmedUntilMet(qs, ops, k - 1, w, pid, s);
      var before, op, after := qs[k - 1], ops[k - 1], qs[k];
      assert QNext(before, op, qs[k - 1 + 1]);
      hide QInv, QNext, Armed, Flat;
      NextKeepsInv(before, op, after);
      IdsGrow(before, op, after);
      MetNext(ops, k, s);
      hide Met, Ends;
      if !Met(ops, k - 1, s) { StepMeans(before, op, after, w, pid, s); }
    }
  }

  /** A process that is given with a condition to wait for waits until it is met. */
  lemma WaitsUntilMet(q: QState, pid: Pid, s: WaitFor, qs: seq<QState>, ops: seq<QOp>, k: nat)
    requires QInv(q) && Flat(s) && s != FirstOf([]) && !ProcessExists(q, pid)
    requires !s.None? && !Resolved(q, pid, s)
    requires Run(qs, ops) && qs[0] == Give(q, pid, s) && k <= |ops|
    ensures QInv(qs[k]) && q.nextWait < qs[k].nextWait
    ensures !Met(ops, k, s) ==> Armed(qs[k], q.nextWait, pid, s)
    ensures Met(ops, k, s) ==> q.nextWait !in qs[k].waiting
    ensures k > 0 && !Met(ops, k - 1, s) && Met(ops, k, s) ==> pid in qs[k].ready
  {
    hide Give, Armed;
    GiveKeepsInv(q, pid, s);
    GivenIsArmed(q, pid, s);
    ArmedUntilMet(qs, ops, k, q.nextWait, pid, s);
  }

  lemma GivenIsArmed(q: QState, pid: Pid, s: WaitFor)
    requires QInv(q) && Flat(s) && s != FirstOf([]) && !s.None? && !Resolved(q, pid, s)
    ensures Armed(Give(q, pid, s), q.nextWait, pid, s)
    ensures Give(q, pid, s).nextWait == q.nextWait + 1
  {
    hide Give, Merged;
    ReducedAtoms(s);
    GiveTables(q, pid, s);
  }

  lemma IdsGrow(q: QState, op: QOp, q': QState)
    requires QInv(q) && QNext(q, op, q')
    ensures q.nextWait <= q'.nextWait
    ensures forall w :: w in q'.waiting && w !in q.waiting ==> w == q.nextWait
  {
    if op.Given? { GiveTables(q, op.pid, op.cond); }
    if op.Clock? { TickWakes(q, op.now); }
  }

  /** No wait at all happens exactly when there is nothing to wait for or a waited process is gone already. */
  lemma GivenReadyAtOnce(q: QState, pid: Pid, s: WaitFor)
    requires QInv(q) && Flat(s) && s != FirstOf([]) && !ProcessExists(q, pid)
    ensures s.None? || Resolved(q, pid, s) <==> pid in Give(q, pid, s).ready
    ensures s.None? || Resolved(q, pid, s) ==> Give(q, pid, s) == q.(ready := q.ready + [pid])
  {
    ReducedAtoms(s);
    GiveTables(q, pid, s);
  }
}
