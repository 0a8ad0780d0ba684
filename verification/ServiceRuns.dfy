/** Requests to the service manager over whole runs: who is answered, when, and what is registered. */
module ServiceRuns {
  import opened Common
  import opened Services

  // ----- What is registered -----

  /** The operation ends a service that does not stay registered: only a one-shot that ended well does. */
  predicate Unregisters(s: State, op: Op, name: Name) {
    && op.Complete? && op.pid in s.managed && s.managed[op.pid] == name
    && name in s.discovery && !(s.discovery[name] && op.success)
  }

  predicate Registers(s: State, op: Op, name: Name) {
    op.Register? && op.name == name && name !in s.discovery
  }

  /** A name is registered after an operation exactly when it is registered by it, or was and is not ended by it. */
  lemma RegisteredIff(s: State, op: Op, name: Name)
    ensures name in After(s, op).discovery <==>
      Registers(s, op, name) || (name in s.discovery && !Unregisters(s, op, name))
    ensures Registers(s, op, name) ==> After(s, op).discovery[name] == op.oneshot
    ensures name in s.discovery && name in After(s, op).discovery ==> After(s, op).discovery[name] == s.discovery[name]
  {
    hide Kept, Taken, Acks, Managing;
  }

  /** The registration that is in force before operation i was made at j, and nothing has ended it since. */
  ghost predicate InForce(states: seq<State>, ops: seq<Op>, i: nat, j: nat, name: Name)
    requires j < i <= |ops| < |states|
  {
    && Registers(states[j], ops[j], name)
    && forall l :: j < l < i ==> !Unregisters(states[l], ops[l], name)
  }

  /** In every run a name is registered exactly while a registration of it is in force, with the flag of that one. */
  lemma {:induction false} RegisteredSince(states: seq<State>, ops: seq<Op>, i: nat, name: Name)
    requires Run(states, ops) && i <= |ops|
    ensures name in states[i].discovery <==> exists j :: 0 <= j < i && InForce(states, ops, i, j, name)
    ensures forall j :: 0 <= j < i && InForce(states, ops, i, j, name) && name in states[i].discovery ==>
      states[i].discovery[name] == ops[j].oneshot
  {
    hide After, Registers, Unregisters;
    if i > 0 {
      var s, op := states[i - 1], ops[i - 1];
      assert states[i - 1 + 1] == After(s, op);
      RegisteredSince(states, ops, i - 1, name);
      RegisteredIff(s, op, name);
      RegistersOnce(s, op, name);
      if Registers(s, op, name) {
        assert InForce(states, ops, i, i - 1, name);
        forall j | 0 <= j < i - 1 ensures !InForce(states, ops, i, j, name) { StillInForce(states, ops, i, j, name); }
      } else {
        assert !InForce(states, ops, i, i - 1, name);
        if j: nat :| j < i && InForce(states, ops, i, j, name) { StillInForce(states, ops, i, j, name); }
        var was := i - 1;
        if j: nat :| j < was && InForce(states, ops, was, j, name) && name in states[i].discovery {
          StillInForce(states, ops, i, j, name);
        }
        forall j: nat | j < i - 1 && InForce(states, ops, i, j, name)
          ensures InForce(states, ops, i - 1, j, name) { StillInForce(states, ops, i, j, name); }
      }
    }
  }

  lemma StillInForce(states: seq<State>, ops: seq<Op>, i: nat, j: nat, name: Name)
    requires j < i - 1 < |ops| < |states|
    ensures InForce(states, ops, i, j, name) <==>
      InForce(states, ops, i - 1, j, name) && !Unregisters(states[i - 1], ops[i - 1], name)
  {
    hide Registers, Unregisters;
  }

  lemma RegistersOnce(s: State, op: Op, name: Name)
    ensures Registers(s, op, name) ==> name !in s.discovery && op.Register?
    ensures Unregisters(s, op, name) ==> !Registers(s, op, name)
  {
  }

  // ----- What a start does -----

  /** The services started by a step, the last one in the queue first, under process ids that were not used before. */
  lemma StepManages(s: State, k: nat)
    ensures var s' := Stepped(s); var n := |s'.spawned| - |s.spawned|;
      && 0 <= n && s'.nextPid == s.nextPid + n
      && (k < n ==> s.nextPid + k in s'.managed && s'.managed[s.nextPid + k] == s'.spawned[|s.spawned| + k])
      && (k < s.nextPid ==> (k in s'.managed <==> k in s.managed) && (k in s.managed ==> s'.managed[k] == s.managed[k]))
  {
    var started := Taken(s.queue, ReadyMarks(s));
    ManagingAt(s.managed, s.nextPid, started, k);
    ManagingAt(s.managed, s.nextPid, started, 0);
  }

  lemma {:induction false} ManagingAt(managed: map<Pid, Name>, pid: Pid, names: seq<Name>, k: nat)
    ensures k < |names| ==>
      pid + k in Managing(managed, pid, names) && Managing(managed, pid, names)[pid + k] == names[k]
    ensures k < pid ==>
      && (k in Managing(managed, pid, names) <==> k in managed)
      && (k in managed ==> Managing(managed, pid, names)[k] == managed[k])
    decreases |names|
  {
    if names != [] {
      ManagingAt(managed[pid := names[0]], pid + 1, names[1..], if k == 0 then 0 else k - 1);
      ManagingAt(managed[pid := names[0]], pid + 1, names[1..], k);
      ManagingBelow(managed[pid := names[0]], pid + 1, names[1..], pid);
    }
  }

  lemma {:induction false} ManagingBelow(managed: map<Pid, Name>, pid: Pid, names: seq<Name>, k: nat)
    requires k < pid
    ensures k in Managing(managed, pid, names) <==> k in managed
    ensures k in managed ==> Managing(managed, pid, names)[k] == managed[k]
    decreases |names|
  {
    if names != [] { ManagingBelow(managed[pid := names[0]], pid + 1, names[1..], k); }
  }

  lemma PartsNext<T>(items: seq<T>, marks: seq<bool>)
    requires |marks| == |items| && items != []
    ensures Kept(items, marks) == (if marks[0] then [] else [items[0]]) + Kept(items[1..], marks[1..])
    ensures Taken(items, marks) == Taken(items[1..], marks[1..]) + if marks[0] then [items[0]] else []
  {
  }

  function Later(at: seq<nat>): (later: seq<nat>)
    ensures |later| == |at| && forall i :: 0 <= i < |at| ==> later[i] == at[i] + 1
  {
    seq(|at|, i requires 0 <= i < |at| => at[i] + 1)
  }

  /** These elements stand in these places, where the marks have this value. */
  ghost predicate From<T>(part: seq<T>, at: seq<nat>, items: seq<T>, marks: seq<bool>, mark: bool)
    requires |marks| == |items|
  {
    |at| == |part| && forall i :: 0 <= i < |at| ==> at[i] < |items| && part[i] == items[at[i]] && marks[at[i]] == mark
  }

  lemma FromLater<T>(part: seq<T>, at: seq<nat>, items: seq<T>, marks: seq<bool>, mark: bool)
    requires |marks| == |items| && items != [] && From(part, at, items[1..], marks[1..], mark)
    ensures From(part, Later(at), items, marks, mark)
  {
  }

  lemma FromBoth<T>(p: seq<T>, a: seq<nat>, q: seq<T>, b: seq<nat>, items: seq<T>, marks: seq<bool>, mark: bool)
    requires |marks| == |items| && From(p, a, items, marks, mark) && From(q, b, items, marks, mark)
    ensures From(p + q, a + b, items, marks, mark)
  {
  }

  /** The first place goes before all later ones, or behind them. */
  lemma Ordered(here: seq<nat>, rest: seq<nat>)
    requires here == [] || here == [0]
    ensures var at := here + Later(rest);
      (forall i, j :: 0 <= i < j < |rest| ==> rest[i] < rest[j]) ==> forall i, j :: 0 <= i < j < |at| ==> at[i] < at[j]
    ensures var at := Later(rest) + here;
      (forall i, j :: 0 <= i < j < |rest| ==> rest[j] < rest[i]) ==> forall i, j :: 0 <= i < j < |at| ==> at[j] < at[i]
  {
  }

  /** Where the kept elements stood. */
  lemma {:induction false} KeptPlaces<T>(items: seq<T>, marks: seq<bool>) returns (at: seq<nat>)
    requires |marks| == |items|
    ensures From(Kept(items, marks), at, items, marks, false)
    ensures forall i, j :: 0 <= i < j < |at| ==> at[i] < at[j]
  {
    if items == [] { at := []; }
    else {
      PartsNext(items, marks);
      var head, here := if marks[0] then [] else [items[0]], if marks[0] then [] else [0];
      assert From(head, here, items, marks, false);
      hide Kept, From, Later;
      var rest := KeptPlaces(items[1..], marks[1..]);
      FromLater(Kept(items[1..], marks[1..]), rest, items, marks, false);
      at := here + Later(rest);
      FromBoth(head, here, Kept(items[1..], marks[1..]), Later(rest), items, marks, false);
      Ordered(here, rest);
    }
  }

  /** Where the taken elements stood: each before the one taken ahead of it. */
  lemma {:induction false} TakenPlaces<T>(items: seq<T>, marks: seq<bool>) returns (at: seq<nat>)
    requires |marks| == |items|
    ensures From(Taken(items, marks), at, items, marks, true)
    ensures forall i, j :: 0 <= i < j < |at| ==> at[j] < at[i]
  {
    if items == [] { at := []; }
    else {
      PartsNext(items, marks);
      var tail, here := if marks[0] then [items[0]] else [], if marks[0] then [0] else [];
      assert From(tail, here, items, marks, true);
      hide Taken, From, Later;
      var rest := TakenPlaces(items[1..], marks[1..]);
      FromLater(Taken(items[1..], marks[1..]), rest, items, marks, true);
      at := Later(rest) + here;
      FromBoth(Taken(items[1..], marks[1..]), Later(rest), tail, here, items, marks, true);
      Ordered(here, rest);
    }
  }

  /** A step starts the services that are ready in the reverse order of the queue; the others keep theirs. */
  lemma StepOrder(s: State) returns (left: seq<nat>, started: seq<nat>)
    ensures var s' := Stepped(s);
      && |left| == |s'.queue| && |started| == |s'.spawned| - |s.spawned| && s.spawned <= s'.spawned
      && (forall i :: 0 <= i < |left| ==> left[i] < |s.queue| && s'.queue[i] == s.queue[left[i]])
      && (forall i :: 0 <= i < |started| ==>
            && started[i] < |s.queue| && Ready(s, s.queue[started[i]])
            && s'.spawned[|s.spawned| + i] == s.queue[started[i]])
      && (forall i, j :: 0 <= i < j < |left| ==> left[i] < left[j])
      && (forall i, j :: 0 <= i < j < |started| ==> started[j] < started[i])
      && (forall i :: 0 <= i < |s.queue| && Ready(s, s.queue[i]) ==> s.queue[i] in s'.spawned[|s.spawned|..])
  {
    hide Ready;
    left := KeptPlaces(s.queue, ReadyMarks(s));
    started := TakenPlaces(s.queue, ReadyMarks(s));
    PartsMembers(s.queue, ReadyMarks(s));
    var s' := Stepped(s);
    assert s'.spawned[|s.spawned|..] == Taken(s.queue, ReadyMarks(s));
  }

  // ----- Who is answered -----

  /** All of the names are up, or with `any` at least one of them. */
  predicate Up(s: State, names: set<Name>, any: bool) {
    if any then exists n :: n in names && n in s.discovery else forall n :: n in names ==> n in s.discovery
  }

  function Lot(s: State, any: bool): seq<Waiter> {
    if any then s.waitAny else s.waitAll
  }

  predicate AsksFor(op: Op, names: set<Name>, any: bool, token: Token) {
    op == if any then WaitAny(names, token) else WaitAll(names, token)
  }

  /** A request to wait is acknowledged at once exactly when it is satisfied; otherwise it is parked. */
  lemma AnsweredAtOnceIff(s: State, op: Op, names: set<Name>, any: bool, token: Token)
    requires AsksFor(op, names, any, token)
    ensures AnswersTo(s, op) == if Up(s, names, any) then [Answer(token, true)] else []
    ensures After(s, op).discovery == s.discovery
    ensures Lot(After(s, op), any) == Lot(s, any) + if Up(s, names, any) then [] else [Waiter(names, token)]
    ensures Lot(After(s, op), !any) == Lot(s, !any)
  {
    if any {
      if n :| n in names && n in s.discovery { assert n in names * s.discovery.Keys; }
      if names * s.discovery.Keys != {} { var n :| n in names * s.discovery.Keys; assert n in s.discovery; }
    }
    assert Lot(s, any) + [] == Lot(s, any);
  }

  /** A registration is refused exactly when the name is taken, and that changes nothing. */
  lemma NackedIff(s: State, op: Op)
    requires op.Register?
    ensures AnswersTo(s, op) != [] && AnswersTo(s, op)[0] == Answer(op.token, op.name !in s.discovery)
    ensures op.name in s.discovery ==> After(s, op) == s && AnswersTo(s, op) == [Answer(op.token, false)]
  {
  }

  lemma {:induction false} AcksMembers(waiters: seq<Waiter>)
    ensures forall a :: a in Acks(waiters) <==> a.ack && exists w :: w in waiters && w.token == a.token
  {
    if waiters != [] {
      AcksMembers(waiters[1..]);
      assert forall w :: w in waiters <==> w == waiters[0] || w in waiters[1..];
      forall a ensures a in Acks(waiters) <==> a == Answer(waiters[0].token, true) || a in Acks(waiters[1..]) {}
    }
  }

  /** Only a registration of a taken name is ever refused. */
  lemma OnlyTakenRefused(s: State, op: Op, token: Token)
    ensures Answer(token, false) in AnswersTo(s, op) <==> op.Register? && op.token == token && op.name in s.discovery
  {
    hide Kept, Taken, Acks;
    if op.Register? && op.name !in s.discovery {
      var up := s.discovery.Keys + {op.name};
      AcksMembers(Taken(s.waitAll, AllMarks(s.waitAll, up)));
      AcksMembers(Taken(s.waitAny, AnyMarks(s.waitAny, up)));
    }
  }

  function Marks(s: State, any: bool, up: set<Name>): (marks: seq<bool>)
    ensures |marks| == |Lot(s, any)|
  {
    if any then AnyMarks(s.waitAny, up) else AllMarks(s.waitAll, up)
  }

  lemma MarksUp(s: State, s': State, any: bool, i: nat)
    requires i < |Lot(s, any)|
    ensures Marks(s, any, s'.discovery.Keys)[i] == Up(s', Lot(s, any)[i].names, any)
  {
    var names := Lot(s, any)[i].names;
    if any {
      if n :| n in names && n in s'.discovery { assert n in names * s'.discovery.Keys; }
      if names * s'.discovery.Keys != {} { var n :| n in names * s'.discovery.Keys; assert n in s'.discovery; }
    }
  }

  lemma RegisterParts(s: State, op: Op, any: bool)
    requires op.Register? && op.name !in s.discovery
    ensures var s' := After(s, op); var marks := Marks(s, any, s'.discovery.Keys);
      && s'.discovery == s.discovery[op.name := op.oneshot]
      && Lot(s', any) == Kept(Lot(s, any), marks)
      && (forall a :: a in Acks(Taken(Lot(s, any), marks)) ==> a in AnswersTo(s, op))
  {
    hide Kept, Taken, Acks;
    assert After(s, op).discovery.Keys == s.discovery.Keys + {op.name};
  }

  /** A parked request leaves, and is acknowledged, exactly when a registration satisfies it. */
  lemma LeavesIff(s: State, op: Op, any: bool, w: Waiter)
    requires w in Lot(s, any) && !Up(s, w.names, any)
    ensures w in Lot(After(s, op), any) <==> !Up(After(s, op), w.names, any)
    ensures Up(After(s, op), w.names, any) ==> op.Register? && Answer(w.token, true) in AnswersTo(s, op)
  {
    hide Kept, Taken, Acks, Up, Marks;
    var s' := After(s, op);
    if op.Register? && op.name !in s.discovery {
      var marks := Marks(s, any, s'.discovery.Keys);
      RegisterParts(s, op, any);
      PartsMembers(Lot(s, any), marks);
      AcksMembers(Taken(Lot(s, any), marks));
      forall i | 0 <= i < |Lot(s, any)|
        ensures marks[i] == Up(s', Lot(s, any)[i].names, any) { MarksUp(s, s', any, i); }
    } else {
      NoneUp(s, op, any, w);
    }
  }

  lemma NoneUp(s: State, op: Op, any: bool, w: Waiter)
    requires w in Lot(s, any) && !Up(s, w.names, any) && !(op.Register? && op.name !in s.discovery)
    ensures w in Lot(After(s, op), any) && !Up(After(s, op), w.names, any)
  {
    hide Kept, Taken, Acks;
  }

  // ----- Over a run -----

  ghost predicate UpSince(states: seq<State>, i: nat, j: nat, names: set<Name>, any: bool)
    requires j < |states|
  {
    exists l :: i < l <= j && Up(states[l], names, any)
  }

  /** The names are up after operation j, and were not after any earlier one since i. */
  ghost predicate FirstUp(states: seq<State>, i: nat, j: nat, names: set<Name>, any: bool)
    requires j + 1 < |states|
  {
    Up(states[j + 1], names, any) && !UpSince(states, i, j, names, any)
  }

  /** The request made at i is the only one with its token. */
  ghost predicate Sole(ops: seq<Op>, i: nat, token: Token) {
    forall l :: 0 <= l < |ops| && l != i ==> Asked(ops[l], token) == 0
  }

  lemma {:induction false} AskedOnce(ops: seq<Op>, i: nat, j: nat, token: Token)
    requires i < |ops| && j <= |ops| && Sole(ops, i, token) && Asked(ops[i], token) == 1
    ensures AskedIn(ops, j, token) == if i < j then 1 else 0
  {
    if j > 0 { AskedOnce(ops, i, j - 1, token); }
  }

  lemma {:induction false} AnsweredMember(answers: seq<Answer>, token: Token)
    ensures Answered(answers, token) == 0 <==> forall a :: a in answers ==> a.token != token
  {
    if answers != [] {
      AnsweredMember(answers[1..], token);
      assert forall a :: a in answers <==> a == answers[0] || a in answers[1..];
    }
  }

  lemma {:induction false} WaitingMember(waiters: seq<Waiter>, w: Waiter)
    ensures w in waiters ==> Waiting(waiters, w.token) >= 1
  {
    if waiters != [] {
      WaitingMember(waiters[1..], w);
      assert w in waiters ==> w == waiters[0] || w in waiters[1..];
    }
  }

  lemma LotParked(s: State, any: bool, w: Waiter)
    requires w in Lot(s, any)
    ensures Parked(s, w.token) >= 1
  {
    WaitingMember(Lot(s, any), w);
  }

  /** As long as the names have not been up the request is parked; once they have been it is not. */
  lemma {:induction false} ParkedUntilUp(states: seq<State>, ops: seq<Op>, i: nat, j: nat, names: set<Name>, any: bool,
      token: Token)
    requires Run(states, ops) && i < j <= |ops| && AsksFor(ops[i], names, any, token) && Sole(ops, i, token)
    ensures Parked(states[j], token) <= 1
    ensures !UpSince(states, i, j, names, any) ==> Waiter(names, token) in Lot(states[j], any)
    ensures UpSince(states, i, j, names, any) ==> Parked(states[j], token) == 0
    decreases j
  {
    hide After, AnswersTo, Up, Answered, Parked, AnsweredIn, AskedIn, Init;
    var s, op := states[j - 1], ops[j - 1];
    assert states[j - 1 + 1] == After(s, op);
    AskedOnce(ops, i, j, token);
    AnsweredInRun(states, ops, j, token);
    if i == j - 1 {
      AnsweredAtOnceIff(s, op, names, any, token);
      assert Up(After(s, op), names, any) <==> Up(s, names, any) by { SameUp(s, After(s, op), names, any); }
      AskedOnce(ops, i, i, token);
      AnsweredInRun(states, ops, i, token);
      AnsweredOnce(s, op, token);
      if Up(s, names, any) { AnsweredMember(AnswersTo(s, op), token); assert Answer(token, true) in AnswersTo(s, op); }
    } else {
      ParkedUntilUp(states, ops, i, j - 1, names, any, token);
      AnsweredOnce(s, op, token);
      assert UpSince(states, i, j, names, any) <==>
        UpSince(states, i, j - 1, names, any) || Up(After(s, op), names, any);
      if !UpSince(states, i, j - 1, names, any) {
        assert !Up(s, names, any);
        LeavesIff(s, op, any, Waiter(names, token));
        AnsweredMember(AnswersTo(s, op), token);
      }
    }
  }

  lemma SameUp(s: State, s': State, names: set<Name>, any: bool)
    requires s'.discovery == s.discovery
    ensures Up(s', names, any) == Up(s, names, any)
  {
  }

  /**
   * In every run, a request to wait for all of these names, or for any of them, is acknowledged in the
   * first operation after which that is the case, in no other, and it is never refused.
   */
  lemma AnsweredWhenUp(states: seq<State>, ops: seq<Op>, i: nat, j: nat, names: set<Name>, any: bool, token: Token)
    requires Run(states, ops) && i <= j < |ops| && AsksFor(ops[i], names, any, token) && Sole(ops, i, token)
    ensures Answer(token, true) in AnswersTo(states[j], ops[j]) <==> FirstUp(states, i, j, names, any)
    ensures Answer(token, false) !in AnswersTo(states[j], ops[j])
  {
    hide After, AnswersTo, Up, Answered, Parked, Init;
    var s, op := states[j], ops[j];
    assert states[j + 1] == After(s, op);
    OnlyTakenRefused(s, op, token);
    if i == j {
      AnsweredAtOnceIff(s, op, names, any, token);
      SameUp(s, After(s, op), names, any);
    } else {
      ParkedUntilUp(states, ops, i, j, names, any, token);
      ParkedUntilUp(states, ops, i, j + 1, names, any, token);
      AnsweredOnce(s, op, token);
      AnsweredMember(AnswersTo(s, op), token);
      assert UpSince(states, i, j + 1, names, any) <==>
        UpSince(states, i, j, names, any) || Up(states[j + 1], names, any);
      if !UpSince(states, i, j, names, any) {
        assert !Up(s, names, any);
        LeavesIff(s, op, any, Waiter(names, token));
        if !Up(states[j + 1], names, any) { LotParked(states[j + 1], any, Waiter(names, token)); }
      }
    }
  }
}
