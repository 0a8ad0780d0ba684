/**
 * The scheduler queues: ready processes, one-shot wait ids, and the three trigger tables.
 * A wait id may sit in several tables; the first trigger consumes it and later ones find nothing.
 */
module Queues {
  import opened Common
  import opened Waits

  datatype QState = QState(
    ready: seq<Pid>,
    waiting: map<WaitId, Pid>,
    nextWait: WaitId,
    sleeping: seq<(Instant, WaitId)>,
    onProcess: map<Pid, set<WaitId>>,
    onEvent: map<EventId, set<WaitId>>)

  ghost predicate Blocked(q: QState, p: Pid) {
    exists w :: w in q.waiting && q.waiting[w] == p
  }

  ghost predicate ProcessExists(q: QState, p: Pid) {
    p in q.ready || Blocked(q, p)
  }

  predicate OnEvent(q: QState, e: EventId, w: WaitId) {
    e in q.onEvent && w in q.onEvent[e]
  }

  predicate OnExit(q: QState, p: Pid, w: WaitId) {
    p in q.onProcess && w in q.onProcess[p]
  }

  /** Is the wait registered for this atomic condition? */
  predicate Registered(q: QState, s: WaitFor, w: WaitId) {
    match s
    case Time(t) => (t, w) in q.sleeping
    case Process(p) => OnExit(q, p, w)
    case Event(e) => OnEvent(q, e, w)
    case _ => false
  }

  // ----- Giving a process to the queues -----

  ghost predicate ProcessDone(q: QState, current: Pid, p: Pid) {
    current != p && !ProcessExists(q, p)
  }

  /** Some process this waits for is already gone. */
  ghost predicate Resolved(q: QState, current: Pid, s: WaitFor) {
    || (s.Process? && ProcessDone(q, current, s.pid))
    || (s.FirstOf? && exists i ::
          0 <= i < |s.options| && s.options[i].Process? && ProcessDone(q, current, s.options[i].pid))
  }

  ghost function ReduceQueues(q: QState, current: Pid, s: WaitFor): WaitFor {
    if Resolved(q, current, s) then WaitFor.None else Reduce(s)
  }

  /** First entry later than `t`: a new sleeper goes behind the ones with the same time. */
  function SleepIndex(s: seq<(Instant, WaitId)>, t: Instant): (i: nat)
    ensures i <= |s|
  {
    if s == [] || s[0].0 > t then 0 else 1 + SleepIndex(s[1..], t)
  }

  function Register(q: QState, s: WaitFor, w: WaitId): QState
    requires Atomic(s)
  {
    match s
    case Time(t) =>
      var i := SleepIndex(q.sleeping, t);
      q.(sleeping := q.sleeping[..i] + [(t, w)] + q.sleeping[i..])
    case Process(p) =>
      q.(onProcess := q.onProcess[p := (if p in q.onProcess then q.onProcess[p] else {}) + {w}])
    case Event(e) =>
      q.(onEvent := q.onEvent[e := (if e in q.onEvent then q.onEvent[e] else {}) + {w}])
  }

  function RegisterAll(q: QState, atoms: seq<WaitFor>, w: WaitId): QState
    requires forall i :: 0 <= i < |atoms| ==> Atomic(atoms[i])
  {
    if atoms == [] then q
    else Register(RegisterAll(q, atoms[..|atoms| - 1], w), atoms[|atoms| - 1], w)
  }

  function CreateWait(q: QState, pid: Pid): QState {
    q.(waiting := q.waiting[q.nextWait := pid], nextWait := q.nextWait + 1)
  }

  /** `give` is told a list of conditions that never mixes in `None` or another list. */
  ghost function Give(q: QState, pid: Pid, s: WaitFor): QState
    requires Flat(s)
  {
    var r := ReduceQueues(q, pid, s);
    if r.None? then q.(ready := q.ready + [pid])
    else
      ReducedAtomsSafe(s);
      RegisterAll(CreateWait(q, pid), Atoms(r), q.nextWait)
  }

  lemma ReducedAtomsSafe(s: WaitFor)
    requires Flat(s)
    ensures forall i :: 0 <= i < |Atoms(Reduce(s))| ==> Atomic(Atoms(Reduce(s))[i])
  {
    if s != FirstOf([]) { ReducedAtoms(s); }
  }

  // ----- Waking processes -----

  /** The processes behind a list of live wait ids. */
  ghost function PidsOf(waiting: map<WaitId, Pid>, order: seq<WaitId>): (pids: seq<Pid>)
    requires forall w :: w in order ==> w in waiting
    ensures |pids| == |order| && forall i :: 0 <= i < |order| ==> pids[i] == waiting[order[i]]
  {
    seq(|order|, i requires 0 <= i < |order| => waiting[order[i]])
  }

  /** Exactly the live ids among `ids` are consumed, and their processes stand before the old ready queue. */
  ghost predicate Woken(q: QState, ids: set<WaitId>, q': QState) {
    && q'.waiting == q.waiting - ids
    && q'.nextWait == q.nextWait
    && exists order: seq<WaitId> ::
         Enumerates(order, ids * q.waiting.Keys) && q'.ready == PidsOf(q.waiting, order) + q.ready
  }

  ghost function Waiters(q: QState, events: set<EventId>): set<WaitId> {
    set e, w | e in events && e in q.onEvent && w in q.onEvent[e] :: w
  }

  /** The events have been triggered, in whatever order their sets were iterated. */
  ghost predicate EventsFired(q: QState, events: set<EventId>, q': QState) {
    && Woken(q, Waiters(q, events), q')
    && q'.onEvent == q.onEvent - events
    && q'.onProcess == q.onProcess
    && q'.sleeping == q.sleeping
  }

  function RemoveFirst(s: seq<Pid>, p: Pid): seq<Pid> {
    if s == [] then [] else if s[0] == p then s[1..] else [s[0]] + RemoveFirst(s[1..], p)
  }

  function ExitWaiters(q: QState, p: Pid): set<WaitId> {
    if p in q.onProcess then q.onProcess[p] else {}
  }

  ghost predicate ProcessOver(q: QState, p: Pid, q': QState) {
    && Woken(q.(ready := RemoveFirst(q.ready, p)), ExitWaiters(q, p), q')
    && q'.onProcess == q.onProcess - {p}
    && q'.onEvent == q.onEvent
    && q'.sleeping == q.sleeping
  }

  function Trigger(q: QState, w: WaitId): QState {
    if w in q.waiting then q.(waiting := q.waiting - {w}, ready := [q.waiting[w]] + q.ready) else q
  }

  /** The clock has reached `now`: the due sleepers are woken earliest first, each to the front. */
  function AfterTick(q: QState, now: Instant): QState
    decreases |q.sleeping|
  {
    if q.sleeping == [] || now < q.sleeping[0].0 then q
    else AfterTick(Trigger(q.(sleeping := q.sleeping[1..]), q.sleeping[0].1), now)
  }

  function NextWakeup(q: QState): Option<Instant> {
    if q.sleeping == [] then Option.None else Some(q.sleeping[0].0)
  }

  // ----- The queue invariant -----

  ghost predicate SleepSorted(s: seq<(Instant, WaitId)>) {
    forall i, j :: 0 <= i < j < |s| ==> s[i].0 <= s[j].0
  }

  /** Wait ids are handed out once: no table knows an id that is still to come. */
  ghost predicate IdsIssued(q: QState) {
    && (forall w :: w in q.waiting ==> w < q.nextWait)
    && (forall s, w: WaitId :: Registered(q, s, w) ==> w < q.nextWait)
  }

  /** Every process is in at most one place. */
  ghost predicate Placed(q: QState) {
    && NoDup(q.ready)
    && (forall w, w' :: w in q.waiting && w' in q.waiting && q.waiting[w] == q.waiting[w'] ==> w == w')
    && (forall w :: w in q.waiting ==> q.waiting[w] !in q.ready)
  }

  /** Every live wait still has a condition that can end it. */
  ghost predicate AllTriggerable(q: QState) {
    forall w :: w in q.waiting ==> exists s :: Registered(q, s, w)
  }

  ghost predicate QInv(q: QState) {
    SleepSorted(q.sleeping) && IdsIssued(q) && Placed(q) && AllTriggerable(q)
  }

  // ----- What registering does to the tables -----

  lemma {:induction false} SleepIndexSplits(s: seq<(Instant, WaitId)>, t: Instant)
    requires SleepSorted(s)
    ensures forall i :: 0 <= i < SleepIndex(s, t) ==> s[i].0 <= t
    ensures forall i :: SleepIndex(s, t) <= i < |s| ==> t < s[i].0
  {
    if s != [] && s[0].0 <= t {
      SleepIndexSplits(s[1..], t);
      assert forall i :: 0 < i < |s| ==> s[i] == s[1..][i - 1];
    }
  }

  lemma SleepInsertSorted(s: seq<(Instant, WaitId)>, t: Instant, w: WaitId)
    requires SleepSorted(s)
    ensures SleepSorted(s[..SleepIndex(s, t)] + [(t, w)] + s[SleepIndex(s, t)..])
  {
    SleepIndexSplits(s, t);
    var k := SleepIndex(s, t);
    var s' := s[..k] + [(t, w)] + s[k..];
    forall i, j | 0 <= i < j < |s'| ensures s'[i].0 <= s'[j].0 {
      assert s'[i] == if i < k then s[i] else if i == k then (t, w) else s[i - 1];
      assert s'[j] == if j < k then s[j] else if j == k then (t, w) else s[j - 1];
    }
  }

  lemma RegisterTables(q: QState, s: WaitFor, w: WaitId)
    requires Atomic(s) && SleepSorted(q.sleeping)
    ensures var q' := Register(q, s, w);
      && SleepSorted(q'.sleeping)
      && q' == q.(sleeping := q'.sleeping, onProcess := q'.onProcess, onEvent := q'.onEvent)
      && forall s', w' :: Registered(q', s', w') <==> Registered(q, s', w') || (s' == s && w' == w)
  {
    if s.Time? {
      SleepInsertSorted(q.sleeping, s.instant, w);
      InsertMembers(q.sleeping, SleepIndex(q.sleeping, s.instant), (s.instant, w));
    }
  }

  lemma {:induction false} RegisterAllTables(q: QState, atoms: seq<WaitFor>, w: WaitId)
    requires SleepSorted(q.sleeping) && forall i :: 0 <= i < |atoms| ==> Atomic(atoms[i])
    ensures var q' := RegisterAll(q, atoms, w);
      && SleepSorted(q'.sleeping)
      && q' == q.(sleeping := q'.sleeping, onProcess := q'.onProcess, onEvent := q'.onEvent)
      && forall s', w' :: Registered(q', s', w') <==> Registered(q, s', w') || (s' in atoms && w' == w)
  {
    if atoms != [] {
      var init, last := atoms[..|atoms| - 1], atoms[|atoms| - 1];
      assert atoms == init + [last];
      RegisterAllTables(q, init, w);
      RegisterTables(RegisterAll(q, init, w), last, w);
    }
  }

  /** A process given to the queues is either ready, or waits under a fresh id for exactly its reduced conditions. */
  lemma GiveTables(q: QState, pid: Pid, s: WaitFor)
    requires QInv(q) && Flat(s)
    ensures var q', r := Give(q, pid, s), ReduceQueues(q, pid, s);
      if r.None? then q' == q.(ready := q.ready + [pid])
      else
        && q'.ready == q.ready
        && q'.waiting == q.waiting[q.nextWait := pid]
        && q'.nextWait == q.nextWait + 1
        && SleepSorted(q'.sleeping)
        && forall s', w' :: Registered(q', s', w') <==> Registered(q, s', w') || (s' in Atoms(r) && w' == q.nextWait)
  {
    var r := ReduceQueues(q, pid, s);
    if !r.None? {
      ReducedAtomsSafe(s);
      var q1 := CreateWait(q, pid);
      RegisterAllTables(q1, Atoms(r), q.nextWait);
      var q' := Give(q, pid, s);
      forall s', w' ensures Registered(q', s', w') <==> Registered(q, s', w') || (s' in Atoms(r) && w' == q.nextWait) {
        assert Registered(q1, s', w') <==> Registered(q, s', w');
      }
    }
  }

  lemma SomethingToWaitFor(q: QState, pid: Pid, s: WaitFor)
    requires Flat(s) && !ReduceQueues(q, pid, s).None?
    ensures Atoms(ReduceQueues(q, pid, s)) != []
  {
    if s != FirstOf([]) { ReducedAtoms(s); }
    if s.FirstOf? && s != FirstOf([]) { MergedMeets(s.options, Triggered(0)); }
  }

  lemma GiveTriggerable(q: QState, pid: Pid, s: WaitFor)
    requires QInv(q) && Flat(s)
    ensures AllTriggerable(Give(q, pid, s))
  {
    GiveTables(q, pid, s);
    var q', r := Give(q, pid, s), ReduceQueues(q, pid, s);
    if !r.None? {
      SomethingToWaitFor(q, pid, s);
      hide Give, ReduceQueues, Atoms;
      assert Atoms(r)[0] in Atoms(r);
      assert Registered(q', Atoms(r)[0], q.nextWait);
    }
    hide Give;
    forall w | w in q'.waiting ensures exists st :: Registered(q', st, w) {
      if w in q.waiting {
        var st :| Registered(q, st, w);
        assert Registered(q', st, w);
      }
    }
  }

  lemma ReadyPlaced(q: QState, pid: Pid)
    requires Placed(q) && !ProcessExists(q, pid)
    ensures var q' := q.(ready := q.ready + [pid]);
      Placed(q') && forall p :: ProcessExists(q', p) <==> ProcessExists(q, p) || p == pid
  {
  }

  lemma ParkedPlaced(q: QState, pid: Pid, w: WaitId, q': QState)
    requires Placed(q) && !ProcessExists(q, pid) && w !in q.waiting
    requires q'.ready == q.ready && q'.waiting == q.waiting[w := pid]
    ensures Placed(q') && forall p :: ProcessExists(q', p) <==> ProcessExists(q, p) || p == pid
  {
    assert q'.waiting[w] == pid;
    forall p ensures Blocked(q', p) <==> Blocked(q, p) || p == pid {
      if v :| v in q.waiting && q.waiting[v] == p { assert q'.waiting[v] == p; }
    }
  }

  lemma GivePlaced(q: QState, pid: Pid, s: WaitFor)
    requires QInv(q) && Flat(s) && !ProcessExists(q, pid)
    ensures Placed(Give(q, pid, s))
    ensures forall p :: ProcessExists(Give(q, pid, s), p) <==> ProcessExists(q, p) || p == pid
  {
    GiveTables(q, pid, s);
    hide Give, ReduceQueues, Registered, SleepSorted, AllTriggerable, Placed, ProcessExists;
    if ReduceQueues(q, pid, s).None? { ReadyPlaced(q, pid); }
    else { ParkedPlaced(q, pid, q.nextWait, Give(q, pid, s)); }
  }

  lemma GiveIssued(q: QState, pid: Pid, s: WaitFor)
    requires QInv(q) && Flat(s)
    ensures IdsIssued(Give(q, pid, s)) && SleepSorted(Give(q, pid, s).sleeping)
  {
    GiveTables(q, pid, s);
    var q', r := Give(q, pid, s), ReduceQueues(q, pid, s);
    hide Give, ReduceQueues, Placed, AllTriggerable;
    if r.None? { assert forall st, w: WaitId :: Registered(q', st, w) <==> Registered(q, st, w); }
  }

  lemma GiveKeepsInv(q: QState, pid: Pid, s: WaitFor)
    requires QInv(q) && Flat(s) && !ProcessExists(q, pid)
    ensures QInv(Give(q, pid, s))
    ensures forall p :: ProcessExists(Give(q, pid, s), p) <==> ProcessExists(q, p) || p == pid
  {
    hide Give, Placed, IdsIssued, SleepSorted, AllTriggerable, ProcessExists;
    GivePlaced(q, pid, s);
    GiveIssued(q, pid, s);
    GiveTriggerable(q, pid, s);
  }

  // ----- What waking does -----

  lemma WokenPlaces(q: QState, ids: set<WaitId>, q': QState)
    requires Woken(q, ids, q') && Placed(q)
    ensures Placed(q')
    ensures forall p :: p in q'.ready <==> p in q.ready || exists w :: w in ids && w in q.waiting && q.waiting[w] == p
    ensures forall p :: ProcessExists(q', p) <==> ProcessExists(q, p)
  {
    var order :| Enumerates(order, ids * q.waiting.Keys) && q'.ready == PidsOf(q.waiting, order) + q.ready;
    var front := PidsOf(q.waiting, order);
    forall i | 0 <= i < |front| ensures front[i] !in q.ready && order[i] in ids && order[i] in q.waiting {
      assert order[i] in order;
    }
    forall i, j | 0 <= i < j < |front| ensures front[i] != front[j] {
      assert order[i] != order[j];
    }
    forall p ensures p in front <==> exists w :: w in ids && w in q.waiting && q.waiting[w] == p {
      if w :| w in ids && w in q.waiting && q.waiting[w] == p {
        assert w in order;
        var i :| 0 <= i < |order| && order[i] == w;
        assert front[i] == p;
      }
    }
    forall p ensures ProcessExists(q', p) <==> ProcessExists(q, p) {
      if w :| w in q.waiting && q.waiting[w] == p {
        if w !in ids { assert w in q'.waiting && q'.waiting[w] == p; }
      }
      if p !in q'.ready && Blocked(q', p) { var w :| w in q'.waiting && q'.waiting[w] == p; assert q.waiting[w] == p; }
    }
    forall w | w in q'.waiting ensures q'.waiting[w] !in q'.ready {
      assert w !in order;
    }
  }

  lemma PidsConcat(waiting: map<WaitId, Pid>, later: map<WaitId, Pid>, b: seq<WaitId>, a: seq<WaitId>)
    requires (forall w :: w in a ==> w in waiting) && (forall w :: w in b ==> w in later)
    requires forall w :: w in later ==> w in waiting && waiting[w] == later[w]
    ensures (forall w :: w in b + a ==> w in waiting) && PidsOf(waiting, b + a) == PidsOf(later, b) + PidsOf(waiting, a)
  {
    assert forall i :: 0 <= i < |b| ==> b[i] in b;
  }

  /** Waking in two rounds is waking the union. */
  lemma WokenCompose(q: QState, a: set<WaitId>, q1: QState, b: set<WaitId>, q2: QState)
    requires Woken(q, a, q1) && Woken(q1, b, q2)
    ensures Woken(q, a + b, q2)
  {
    var oa :| Enumerates(oa, a * q.waiting.Keys) && q1.ready == PidsOf(q.waiting, oa) + q.ready;
    var ob :| Enumerates(ob, b * q1.waiting.Keys) && q2.ready == PidsOf(q1.waiting, ob) + q1.ready;
    ConcatEnumerates(ob, b * q1.waiting.Keys, oa, a * q.waiting.Keys);
    assert b * q1.waiting.Keys + a * q.waiting.Keys == (a + b) * q.waiting.Keys;
    assert q.waiting - (a + b) == q.waiting - a - b;
    PidsConcat(q.waiting, q1.waiting, ob, oa);
    assert forall w :: w in ob + oa ==> w in q.waiting;
    hide Enumerates;
    Regroup(PidsOf(q1.waiting, ob), PidsOf(q.waiting, oa), q.ready);
  }

  lemma Regroup(a: seq<Pid>, b: seq<Pid>, c: seq<Pid>)
    ensures a + (b + c) == a + b + c
  {
  }

  lemma WokenNone(q: QState)
    ensures Woken(q, {}, q)
  {
    assert Enumerates([], {} * q.waiting.Keys);
    assert q.waiting - {} == q.waiting;
    assert PidsOf(q.waiting, []) + q.ready == q.ready;
  }

  /** Triggering two sets of events one after the other is triggering their union. */
  lemma FiredCompose(q: QState, a: set<EventId>, q1: QState, b: set<EventId>, q2: QState)
    requires EventsFired(q, a, q1) && EventsFired(q1, b, q2)
    ensures EventsFired(q, a + b, q2)
  {
    WokenCompose(q, Waiters(q, a), q1, Waiters(q1, b), q2);
    forall w ensures w in Waiters(q, a + b) <==> w in Waiters(q, a) + Waiters(q1, b) {
      if w in Waiters(q, a + b) {
        var e :| e in a + b && e in q.onEvent && w in q.onEvent[e];
        if e !in a { assert e in b && e in q1.onEvent && w in q1.onEvent[e]; }
      }
      if w in Waiters(q1, b) {
        var e :| e in b && e in q1.onEvent && w in q1.onEvent[e];
        assert e in a + b && e in q.onEvent && w in q.onEvent[e];
      }
    }
    assert Waiters(q, a + b) == Waiters(q, a) + Waiters(q1, b);
    assert q.onEvent - (a + b) == q.onEvent - a - b;
  }

  lemma FiredNone(q: QState)
    ensures EventsFired(q, {}, q)
  {
    WokenNone(q);
    assert Waiters(q, {}) == {};
    assert q.onEvent - {} == q.onEvent;
  }

  lemma FiredKeepsInv(q: QState, events: set<EventId>, q': QState)
    requires QInv(q) && EventsFired(q, events, q')
    ensures QInv(q')
  {
    WokenPlaces(q, Waiters(q, events), q');
    forall s, w: WaitId | Registered(q', s, w) ensures Registered(q, s, w) {}
    forall w | w in q'.waiting ensures exists s :: Registered(q', s, w) {
      var s :| Registered(q, s, w);
      assert Registered(q', s, w);
    }
  }

  lemma {:induction false} RemoveFirstAt(s: seq<Pid>, p: Pid, i: nat)
    requires i <= |s| && (forall j :: 0 <= j < i ==> s[j] != p) && (i < |s| ==> s[i] == p)
    ensures RemoveFirst(s, p) == if i < |s| then s[..i] + s[i + 1..] else s
  {
    if i > 0 {
      RemoveFirstAt(s[1..], p, i - 1);
      assert s == [s[0]] + s[1..];
      if i < |s| { assert s[..i] + s[i + 1..] == [s[0]] + (s[1..][..i - 1] + s[1..][i..]); }
    }
  }

  lemma {:induction false} RemoveFirstMembers(s: seq<Pid>, p: Pid)
    requires NoDup(s)
    ensures NoDup(RemoveFirst(s, p))
    ensures forall x :: x in RemoveFirst(s, p) <==> x in s && x != p
  {
    if s != [] {
      assert forall x :: x in s <==> x == s[0] || x in s[1..];
      if s[0] != p {
        RemoveFirstMembers(s[1..], p);
        var r := RemoveFirst(s[1..], p);
        assert forall i :: 0 <= i < |r| ==> r[i] in r;
      }
    }
  }

  /** A process that is not itself waiting can go: everyone who waited for it becomes ready. */
  lemma OverKeepsInv(q: QState, p: Pid, q': QState)
    requires QInv(q) && ProcessOver(q, p, q') && !Blocked(q, p)
    ensures QInv(q')
    ensures forall x :: ProcessExists(q', x) <==> ProcessExists(q, x) && x != p
  {
    RemoveFirstMembers(q.ready, p);
    var q1 := q.(ready := RemoveFirst(q.ready, p));
    WokenPlaces(q1, ExitWaiters(q, p), q');
    forall s, w: WaitId | Registered(q', s, w) ensures Registered(q, s, w) {}
    forall w | w in q'.waiting ensures exists s :: Registered(q', s, w) {
      var s :| Registered(q, s, w);
      assert s.Process? && s.pid == p ==> w in ExitWaiters(q, p);
      assert Registered(q', s, w);
    }
    forall x ensures ProcessExists(q', x) <==> ProcessExists(q, x) && x != p {
      assert Blocked(q1, x) <==> Blocked(q, x);
    }
  }

  // ----- The clock -----

  ghost function Due(q: QState, now: Instant): set<WaitId> {
    set i | 0 <= i < |q.sleeping| && q.sleeping[i].0 <= now :: q.sleeping[i].1
  }

  lemma TriggerWakes(q: QState, w: WaitId)
    ensures Woken(q, {w}, Trigger(q, w))
  {
    if w in q.waiting {
      assert Enumerates([w], {w} * q.waiting.Keys);
      assert PidsOf(q.waiting, [w]) == [q.waiting[w]];
    } else {
      assert Enumerates([], {w} * q.waiting.Keys);
      assert q.waiting - {w} == q.waiting;
      assert PidsOf(q.waiting, []) + q.ready == q.ready;
    }
  }

  /** The sleepers left after a tick are the ones behind the last due entry. */
  lemma {:induction false} TickSleepers(q: QState, now: Instant)
    ensures AfterTick(q, now).sleeping == q.sleeping[SleepIndex(q.sleeping, now)..]
    decreases |q.sleeping|
  {
    if q.sleeping != [] && q.sleeping[0].0 <= now {
      var q1 := Trigger(q.(sleeping := q.sleeping[1..]), q.sleeping[0].1);
      TickSleepers(q1, now);
      assert q1.sleeping == q.sleeping[1..];
      var k := SleepIndex(q.sleeping[1..], now);
      assert q.sleeping[1..][k..] == q.sleeping[1 + k..];
    }
  }

  /** A tick consumes exactly the waits that are due. */
  lemma {:induction false} TickWakes(q: QState, now: Instant)
    requires SleepSorted(q.sleeping)
    ensures Woken(q, Due(q, now), AfterTick(q, now))
    ensures AfterTick(q, now).onEvent == q.onEvent && AfterTick(q, now).onProcess == q.onProcess
    decreases |q.sleeping|
  {
    if q.sleeping == [] || now < q.sleeping[0].0 {
      WokenNone(q);
      assert Due(q, now) == {};
    } else {
      var w := q.sleeping[0].1;
      var q0 := q.(sleeping := q.sleeping[1..]);
      var q1 := Trigger(q0, w);
      TriggerWakes(q0, w);
      TickWakes(q1, now);
      assert Woken(q, {w}, q1);
      WokenCompose(q, {w}, q1, Due(q1, now), AfterTick(q1, now));
      DueSplits(q, now, q1);
    }
  }

  lemma DueSplits(q: QState, now: Instant, q1: QState)
    requires q.sleeping != [] && q.sleeping[0].0 <= now && q1.sleeping == q.sleeping[1..]
    ensures Due(q, now) == {q.sleeping[0].1} + Due(q1, now)
  {
    forall w ensures w in Due(q, now) <==> w in {q.sleeping[0].1} + Due(q1, now) {
      if w in Due(q, now) {
        var i :| 0 <= i < |q.sleeping| && q.sleeping[i].0 <= now && q.sleeping[i].1 == w;
        if i > 0 { assert q1.sleeping[i - 1] == q.sleeping[i]; }
      }
      if w in Due(q1, now) {
        var i :| 0 <= i < |q1.sleeping| && q1.sleeping[i].0 <= now && q1.sleeping[i].1 == w;
        assert q.sleeping[i + 1] == q1.sleeping[i];
      }
    }
  }

  lemma TickTables(q: QState, now: Instant)
    requires SleepSorted(q.sleeping)
    ensures forall s, w :: Registered(AfterTick(q, now), s, w) <==>
      Registered(q, s, w) && !(s.Time? && s.instant <= now)
    ensures SleepSorted(AfterTick(q, now).sleeping)
  {
    TickWakes(q, now);
    TickSleepers(q, now);
    SleepIndexSplits(q.sleeping, now);
    var q', n := AfterTick(q, now), SleepIndex(q.sleeping, now);
    assert forall i :: 0 <= i < |q'.sleeping| ==> q'.sleeping[i] == q.sleeping[n + i];
    forall s, w: WaitId ensures Registered(q', s, w) <==> Registered(q, s, w) && !(s.Time? && s.instant <= now) {
      if s.Time? && (s.instant, w) in q.sleeping && now < s.instant {
        var i :| 0 <= i < |q.sleeping| && q.sleeping[i] == (s.instant, w);
        assert q'.sleeping[i - n] == (s.instant, w);
      }
    }
  }

  lemma TickKeepsInv(q: QState, now: Instant)
    requires QInv(q)
    ensures QInv(AfterTick(q, now))
    ensures forall p :: ProcessExists(AfterTick(q, now), p) <==> ProcessExists(q, p)
  {
    TickWakes(q, now);
    TickTables(q, now);
    var q' := AfterTick(q, now);
    WokenPlaces(q, Due(q, now), q');
    forall w | w in q'.waiting ensures exists s :: Registered(q', s, w) {
      var s :| Registered(q, s, w);
      assert Registered(q', s, w);
    }
  }
}
