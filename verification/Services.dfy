/** The service manager: starts services once their requirements are up, and answers those waiting for services. */
module Services {
  import opened Common

  type Name = string
  type Token = nat

  datatype Definition = Definition(name: Name, requires_: set<Name>)

  datatype Waiter = Waiter(names: set<Name>, token: Token)

  /** `spawned` lists the services started so far, in order. */
  datatype State = State(
    definitions: seq<Definition>,
    queue: seq<Name>,
    spawned: seq<Name>,
    managed: map<Pid, Name>,
    discovery: map<Name, bool>,
    waitAll: seq<Waiter>,
    waitAny: seq<Waiter>,
    nextPid: Pid)

  // ----- Taking marked elements out of a list -----

  function If<T>(b: bool, x: T): seq<T> {
    if b then [x] else []
  }

  function Kept<T>(items: seq<T>, marks: seq<bool>): seq<T>
    requires |marks| == |items|
  {
    if items == [] then [] else If(!marks[0], items[0]) + Kept(items[1..], marks[1..])
  }

  /** From the end of the list to its start. */
  function Taken<T>(items: seq<T>, marks: seq<bool>): seq<T>
    requires |marks| == |items|
  {
    if items == [] then [] else Taken(items[1..], marks[1..]) + If(marks[0], items[0])
  }

  lemma {:induction false} PartsMembers<T>(items: seq<T>, marks: seq<bool>)
    requires |marks| == |items|
    ensures forall x :: x in Kept(items, marks) ==> exists i :: 0 <= i < |items| && items[i] == x && !marks[i]
    ensures forall x :: x in Taken(items, marks) ==> exists i :: 0 <= i < |items| && items[i] == x && marks[i]
    ensures forall i :: 0 <= i < |items| ==> items[i] in (if marks[i] then Taken(items, marks) else Kept(items, marks))
  {
    if items != [] {
      PartsMembers(items[1..], marks[1..]);
      forall i | 0 <= i < |items| ensures items[i] in (if marks[i] then Taken(items, marks) else Kept(items, marks)) {
        if i > 0 { assert items[i] == items[1..][i - 1] && marks[i] == marks[1..][i - 1]; }
      }
      forall x | x in Kept(items, marks) ensures exists i :: 0 <= i < |items| && items[i] == x && !marks[i] {
        if x in Kept(items[1..], marks[1..]) {
          var j :| 0 <= j < |items[1..]| && items[1..][j] == x && !marks[1..][j];
          assert items[j + 1] == x && !marks[j + 1];
        } else { assert items[0] == x; }
      }
      forall x | x in Taken(items, marks) ensures exists i :: 0 <= i < |items| && items[i] == x && marks[i] {
        if x in Taken(items[1..], marks[1..]) {
          var j :| 0 <= j < |items[1..]| && items[1..][j] == x && marks[1..][j];
          assert items[j + 1] == x && marks[j + 1];
        } else { assert items[0] == x; }
      }
    }
  }

  lemma {:induction false} PartsConserve<T>(items: seq<T>, marks: seq<bool>)
    requires |marks| == |items|
    ensures multiset(Kept(items, marks)) + multiset(Taken(items, marks)) == multiset(items)
  {
    if items != [] {
      PartsConserve(items[1..], marks[1..]);
      var x, k, t := items[0], Kept(items[1..], marks[1..]), Taken(items[1..], marks[1..]);
      assert items == [x] + items[1..];
      assert multiset(If(!marks[0], x) + k) == multiset(If(!marks[0], x)) + multiset(k);
      assert multiset(t + If(marks[0], x)) == multiset(t) + multiset(If(marks[0], x));
      assert multiset(If(!marks[0], x)) + multiset(If(marks[0], x)) == multiset([x]);
    }
  }

  lemma {:induction false} KeptConcat<T>(a: seq<T>, b: seq<T>, ma: seq<bool>, mb: seq<bool>)
    requires |ma| == |a| && |mb| == |b|
    ensures Kept(a + b, ma + mb) == Kept(a, ma) + Kept(b, mb)
  {
    if a == [] { assert a + b == b && ma + mb == mb; }
    else {
      KeptConcat(a[1..], b, ma[1..], mb);
      assert (a + b)[1..] == a[1..] + b && (ma + mb)[1..] == ma[1..] + mb;
      var x, k := If(!ma[0], a[0]), Kept(a[1..], ma[1..]);
      assert x + (k + Kept(b, mb)) == x + k + Kept(b, mb);
    }
  }

  lemma {:induction false} TakenConcat<T>(a: seq<T>, b: seq<T>, ma: seq<bool>, mb: seq<bool>)
    requires |ma| == |a| && |mb| == |b|
    ensures Taken(a + b, ma + mb) == Taken(b, mb) + Taken(a, ma)
  {
    if a == [] { assert a + b == b && ma + mb == mb; }
    else {
      TakenConcat(a[1..], b, ma[1..], mb);
      assert (a + b)[1..] == a[1..] + b && (ma + mb)[1..] == ma[1..] + mb;
      var x, t := If(ma[0], a[0]), Taken(a[1..], ma[1..]);
      assert Taken(b, mb) + t + x == Taken(b, mb) + (t + x);
    }
  }

  lemma {:induction false} NoneMarked<T>(a: seq<T>, ma: seq<bool>)
    requires |ma| == |a| && forall i :: 0 <= i < |ma| ==> !ma[i]
    ensures Kept(a, ma) == a && Taken(a, ma) == []
  {
    if a != [] { NoneMarked(a[1..], ma[1..]); }
  }

  /** The part of a list from i on, when i is marked and nothing else before m is. */
  lemma TakeNext<T>(items: seq<T>, marks: seq<bool>, i: nat, m: nat)
    requires |marks| == |items| && i < m <= |items| && marks[i] && forall j :: i < j < m ==> !marks[j]
    ensures Kept(items[i..], marks[i..]) == items[i + 1..m] + Kept(items[m..], marks[m..])
    ensures Taken(items[i..], marks[i..]) == Taken(items[m..], marks[m..]) + [items[i]]
  {
    var a, b, ma, mb := items[i + 1..m], items[m..], marks[i + 1..m], marks[m..];
    assert items[i..][1..] == a + b && marks[i..][1..] == ma + mb;
    NoneMarked(a, ma);
    KeptConcat(a, b, ma, mb);
    TakenConcat(a, b, ma, mb);
    assert [] + (a + Kept(b, mb)) == a + Kept(b, mb) && Taken(b, mb) + [] == Taken(b, mb);
  }

  lemma TakeRest<T>(items: seq<T>, marks: seq<bool>, m: nat)
    requires |marks| == |items| && m <= |items| && forall j :: 0 <= j < m ==> !marks[j]
    ensures Kept(items, marks) == items[..m] + Kept(items[m..], marks[m..])
    ensures Taken(items, marks) == Taken(items[m..], marks[m..])
  {
    hide Kept, Taken;
    NoneMarked(items[..m], marks[..m]);
    KeptConcat(items[..m], items[m..], marks[..m], marks[m..]);
    TakenConcat(items[..m], items[m..], marks[..m], marks[m..]);
    assert items == items[..m] + items[m..] && marks == marks[..m] + marks[m..];
  }

  /** The indices of marked elements, in ascending order. */
  ghost predicate Marked(indices: seq<nat>, marks: seq<bool>, bound: nat)
    requires bound <= |marks|
  {
    && (forall k :: 0 <= k < |indices| ==> indices[k] < bound && marks[indices[k]])
    && (forall k, l :: 0 <= k < l < |indices| ==> indices[k] < indices[l])
    && (forall j :: 0 <= j < bound && marks[j] ==> j in indices)
  }

  lemma LastMarked(indices: seq<nat>, marks: seq<bool>, m: nat)
    requires m <= |marks| && Marked(indices, marks, m) && indices != []
    ensures var n := |indices| - 1; var i := indices[n];
      i < m && marks[i] && (forall j :: i < j < m ==> !marks[j]) && Marked(indices[..n], marks, i)
  {
    var n := |indices| - 1;
    var i := indices[n];
    forall j | 0 <= j < m && marks[j] ensures j <= i && (j < i ==> j in indices[..n]) {
      var k :| 0 <= k < |indices| && indices[k] == j;
      if k < n { assert indices[..n][k] == j; }
    }
  }

  /** Collects the marked indices, then takes them out from the last to the first. */
  method Extract<T>(items: seq<T>, marks: seq<bool>) returns (kept: seq<T>, taken: seq<T>)
    requires |marks| == |items|
    ensures kept == Kept(items, marks) && taken == Taken(items, marks)
  {
    hide Kept, Taken;
    var indices: seq<nat> := [];
    for i := 0 to |items|
      invariant Marked(indices, marks, i)
    {
      if marks[i] { indices := indices + [i]; }
    }
    hide Marked;
    kept, taken := items, [];
    ghost var m := |items|;
    NothingLeft(items, marks);
    while indices != []
      invariant 0 <= m <= |items| && Marked(indices, marks, m)
      invariant kept == items[..m] + Kept(items[m..], marks[m..]) && taken == Taken(items[m..], marks[m..])
      decreases |indices|
    {
      LastMarked(indices, marks, m);
      var i := indices[|indices| - 1];
      TakeNext(items, marks, i, m);
      indices := indices[..|indices| - 1];
      taken := taken + [kept[i]];
      kept := kept[..i] + kept[i + 1..];
      assert kept == items[..i] + (items[i + 1..m] + Kept(items[m..], marks[m..]));
      m := i;
    }
    NoneLeft(indices, marks, m);
    TakeRest(items, marks, m);
  }

  lemma NothingLeft<T>(items: seq<T>, marks: seq<bool>)
    requires |marks| == |items|
    ensures var m := |items|; items == items[..m] + Kept(items[m..], marks[m..]) && Taken(items[m..], marks[m..]) == []
  {
    var m := |items|;
    assert items[m..] == [] && marks[m..] == [];
  }

  lemma NoneLeft(indices: seq<nat>, marks: seq<bool>, m: nat)
    requires m <= |marks| && Marked(indices, marks, m) && indices == []
    ensures forall j :: 0 <= j < m ==> !marks[j]
  {
  }

  // ----- What the operations do -----

  function DefinitionOf(defs: seq<Definition>, name: Name): Option<Definition> {
    if defs == [] then None else if defs[0].name == name then Some(defs[0]) else DefinitionOf(defs[1..], name)
  }

  /** All requirements of the service are registered. */
  predicate Ready(s: State, name: Name) {
    var d := DefinitionOf(s.definitions, name);
    d.Some? && d.value.requires_ <= s.discovery.Keys
  }

  function ReadyMarks(s: State): (marks: seq<bool>)
    ensures |marks| == |s.queue| && forall i :: 0 <= i < |marks| ==> marks[i] == Ready(s, s.queue[i])
  {
    seq(|s.queue|, i requires 0 <= i < |s.queue| => Ready(s, s.queue[i]))
  }

  function Managing(managed: map<Pid, Name>, pid: Pid, names: seq<Name>): map<Pid, Name>
    decreases |names|
  {
    if names == [] then managed else Managing(managed[pid := names[0]], pid + 1, names[1..])
  }

  /** Starts every service in the queue whose requirements are up, the last one first. */
  function Stepped(s: State): State {
    var started := Taken(s.queue, ReadyMarks(s));
    s.(queue := Kept(s.queue, ReadyMarks(s)), spawned := s.spawned + started,
       managed := Managing(s.managed, s.nextPid, started), nextPid := s.nextPid + |started|)
  }

  datatype Answer = Answer(token: Token, ack: bool)

  function AllMarks(waiters: seq<Waiter>, up: set<Name>): (marks: seq<bool>)
    ensures |marks| == |waiters| && forall i :: 0 <= i < |marks| ==> marks[i] == (waiters[i].names <= up)
  {
    seq(|waiters|, i requires 0 <= i < |waiters| => waiters[i].names <= up)
  }

  function AnyMarks(waiters: seq<Waiter>, up: set<Name>): (marks: seq<bool>)
    ensures |marks| == |waiters| && forall i :: 0 <= i < |marks| ==> marks[i] == (waiters[i].names * up != {})
  {
    seq(|waiters|, i requires 0 <= i < |waiters| => waiters[i].names * up != {})
  }

  function Acks(waiters: seq<Waiter>): seq<Answer> {
    if waiters == [] then [] else [Answer(waiters[0].token, true)] + Acks(waiters[1..])
  }

  /** A free name is taken, and those who waited for it are answered. */
  function Registered(s: State, name: Name, oneshot: bool, token: Token): (State, seq<Answer>) {
    if name in s.discovery then (s, [Answer(token, false)])
    else
      var up := s.discovery.Keys + {name};
      (s.(discovery := s.discovery[name := oneshot],
          waitAll := Kept(s.waitAll, AllMarks(s.waitAll, up)), waitAny := Kept(s.waitAny, AnyMarks(s.waitAny, up))),
       [Answer(token, true)] + Acks(Taken(s.waitAll, AllMarks(s.waitAll, up)))
         + Acks(Taken(s.waitAny, AnyMarks(s.waitAny, up))))
  }

  function WaitingAny(s: State, names: set<Name>, token: Token): (State, seq<Answer>) {
    if names * s.discovery.Keys != {} then (s, [Answer(token, true)])
    else (s.(waitAny := s.waitAny + [Waiter(names, token)]), [])
  }

  function WaitingAll(s: State, names: set<Name>, token: Token): (State, seq<Answer>) {
    if names <= s.discovery.Keys then (s, [Answer(token, true)])
    else (s.(waitAll := s.waitAll + [Waiter(names, token)]), [])
  }

  /** A finished service stays registered only if it is one-shot and ended well. */
  function Completed(s: State, pid: Pid, success: bool): State {
    if pid !in s.managed then s
    else
      var name := s.managed[pid];
      var s' := s.(managed := s.managed - {pid});
      if name in s.discovery && !(s.discovery[name] && success) then s'.(discovery := s.discovery - {name}) else s'
  }

  // ----- Every run -----

  datatype Op =
    | Step
    | Register(name: Name, oneshot: bool, token: Token)
    | WaitAny(names: set<Name>, token: Token)
    | WaitAll(names: set<Name>, token: Token)
    | Complete(pid: Pid, success: bool)

  function After(s: State, op: Op): State {
    match op
    case Step => Stepped(s)
    case Register(name, oneshot, token) => Registered(s, name, oneshot, token).0
    case WaitAny(names, token) => WaitingAny(s, names, token).0
    case WaitAll(names, token) => WaitingAll(s, names, token).0
    case Complete(pid, success) => Completed(s, pid, success)
  }

  function Names(defs: seq<Definition>): (names: seq<Name>)
    ensures |names| == |defs| && forall i :: 0 <= i < |defs| ==> names[i] == defs[i].name
  {
    seq(|defs|, i requires 0 <= i < |defs| => defs[i].name)
  }

  ghost predicate Init(s: State) {
    && s.queue == Names(s.definitions) && s.spawned == [] && s.managed == map[] && s.discovery == map[]
    && s.waitAll == [] && s.waitAny == []
  }

  ghost predicate Run(states: seq<State>, ops: seq<Op>) {
    && |states| == |ops| + 1 && Init(states[0])
    && forall i :: 0 <= i < |ops| ==> states[i + 1] == After(states[i], ops[i])
  }

  /** Every service is queued or spawned, as often as it is defined. */
  ghost predicate Conserved(s: State) {
    multiset(s.queue) + multiset(s.spawned) == multiset(Names(s.definitions))
  }

  /** And nobody is parked who is already satisfied. */
  ghost predicate Orderly(s: State) {
    && Conserved(s)
    && (forall i :: 0 <= i < |s.waitAll| ==> !(s.waitAll[i].names <= s.discovery.Keys))
    && (forall i :: 0 <= i < |s.waitAny| ==> s.waitAny[i].names * s.discovery.Keys == {})
  }

  lemma StepConserves(s: State)
    requires Conserved(s)
    ensures Conserved(Stepped(s))
  {
    PartsConserve(s.queue, ReadyMarks(s));
    var started := Taken(s.queue, ReadyMarks(s));
    assert multiset(s.spawned + started) == multiset(s.spawned) + multiset(started);
  }

  /** Only services whose requirements are all up are spawned, and none of those stays behind. */
  lemma StepSpawnsReady(s: State)
    ensures var s' := Stepped(s);
      && s.spawned <= s'.spawned
      && (forall k :: |s.spawned| <= k < |s'.spawned| ==> s'.spawned[k] in s.queue && Ready(s, s'.spawned[k]))
      && (forall i :: 0 <= i < |s'.queue| ==> s'.queue[i] in s.queue && !Ready(s, s'.queue[i]))
  {
    PartsMembers(s.queue, ReadyMarks(s));
    var s' := Stepped(s);
    var started := Taken(s.queue, ReadyMarks(s));
    forall k | |s.spawned| <= k < |s'.spawned| ensures s'.spawned[k] in s.queue && Ready(s, s'.spawned[k]) {
      assert s'.spawned[k] == started[k - |s.spawned|] && started[k - |s.spawned|] in started;
    }
    forall i | 0 <= i < |s'.queue| ensures s'.queue[i] in s.queue && !Ready(s, s'.queue[i]) {
      assert s'.queue[i] in Kept(s.queue, ReadyMarks(s));
    }
  }

  lemma RegisterOrderly(s: State, name: Name, oneshot: bool, token: Token)
    requires Orderly(s)
    ensures Orderly(Registered(s, name, oneshot, token).0)
      && Registered(s, name, oneshot, token).0.definitions == s.definitions
  {
    if name !in s.discovery {
      var up := s.discovery.Keys + {name};
      var s' := Registered(s, name, oneshot, token).0;
      assert s'.discovery.Keys == up;
      PartsMembers(s.waitAll, AllMarks(s.waitAll, up));
      PartsMembers(s.waitAny, AnyMarks(s.waitAny, up));
      hide Kept, Taken;
      forall i | 0 <= i < |s'.waitAll| ensures !(s'.waitAll[i].names <= up) { assert s'.waitAll[i] in s'.waitAll; }
      forall i | 0 <= i < |s'.waitAny| ensures s'.waitAny[i].names * up == {} { assert s'.waitAny[i] in s'.waitAny; }
    }
  }

  lemma Shrinks(names: set<Name>, up: set<Name>, less: set<Name>)
    requires names * up == {} && less <= up
    ensures names * less == {}
  {
    assert forall x :: x in names * less ==> x in names * up;
  }

  lemma CompleteOrderly(s: State, pid: Pid, success: bool)
    requires Orderly(s)
    ensures Orderly(Completed(s, pid, success)) && Completed(s, pid, success).definitions == s.definitions
  {
    var s' := Completed(s, pid, success);
    forall i | 0 <= i < |s.waitAny| ensures s.waitAny[i].names * s'.discovery.Keys == {} {
      Shrinks(s.waitAny[i].names, s.discovery.Keys, s'.discovery.Keys);
    }
  }

  lemma AfterOrderly(s: State, op: Op)
    requires Orderly(s)
    ensures Orderly(After(s, op)) && After(s, op).definitions == s.definitions
  {
    hide Kept, Taken, Completed, Registered;
    match op
    case Step => StepConserves(s);
    case Register(name, oneshot, token) => RegisterOrderly(s, name, oneshot, token);
    case Complete(pid, success) => CompleteOrderly(s, pid, success);
    case WaitAny(names, token) =>
    case WaitAll(names, token) =>
  }

  lemma InitOrderly(s: State)
    requires Init(s)
    ensures Orderly(s)
  {
  }

  lemma {:induction false} RunOrderly(states: seq<State>, ops: seq<Op>, i: nat)
    requires Run(states, ops) && i < |states|
    ensures Orderly(states[i]) && states[i].definitions == states[0].definitions
  {
    hide After, Orderly;
    if i == 0 { InitOrderly(states[0]); }
    else {
      RunOrderly(states, ops, i - 1);
      assert states[i - 1 + 1] == After(states[i - 1], ops[i - 1]);
      AfterOrderly(states[i - 1], ops[i - 1]);
    }
  }

  /** With unique names no service is ever spawned twice, or spawned while it is still queued. */
  lemma SpawnedOnce(states: seq<State>, ops: seq<Op>, i: nat)
    requires Run(states, ops) && i < |states| && NoDup(Names(states[0].definitions))
    ensures NoDup(states[i].spawned + states[i].queue)
  {
    hide After;
    RunOrderly(states, ops, i);
    var names, both := Names(states[0].definitions), states[i].spawned + states[i].queue;
    assert multiset(both) == multiset(names);
    SameElementsNoDup(names, both);
  }

  lemma {:induction false} CountAtMostOnce(s: seq<Name>, x: Name)
    requires NoDup(s)
    ensures multiset(s)[x] <= 1
  {
    if s != [] {
      assert s == [s[0]] + s[1..];
      CountAtMostOnce(s[1..], x);
      assert s[0] !in s[1..];
    }
  }

  lemma {:induction false} AtMostOnceNoDup(s: seq<Name>)
    requires forall x :: multiset(s)[x] <= 1
    ensures NoDup(s)
  {
    if s != [] {
      assert s == [s[0]] + s[1..];
      assert multiset(s) == multiset([s[0]]) + multiset(s[1..]);
      forall x ensures multiset(s[1..])[x] <= 1 { assert multiset(s)[x] <= 1; }
      AtMostOnceNoDup(s[1..]);
      assert multiset(s)[s[0]] == 1 + multiset(s[1..])[s[0]];
      assert s[0] !in multiset(s[1..]);
    }
  }

  lemma SameElementsNoDup(a: seq<Name>, b: seq<Name>)
    requires multiset(a) == multiset(b) && NoDup(a)
    ensures NoDup(b)
  {
    forall x ensures multiset(b)[x] <= 1 { CountAtMostOnce(a, x); }
    AtMostOnceNoDup(b);
  }

  // ----- Every request is answered once -----

  function Waiting(waiters: seq<Waiter>, token: Token): nat {
    if waiters == [] then 0 else (if waiters[0].token == token then 1 else 0) + Waiting(waiters[1..], token)
  }

  function Answered(answers: seq<Answer>, token: Token): nat {
    if answers == [] then 0 else (if answers[0].token == token then 1 else 0) + Answered(answers[1..], token)
  }

  lemma {:induction false} WaitingConcat(a: seq<Waiter>, b: seq<Waiter>, t: Token)
    ensures Waiting(a + b, t) == Waiting(a, t) + Waiting(b, t)
  {
    if a == [] { assert a + b == b; }
    else {
      WaitingConcat(a[1..], b, t);
      assert (a + b)[1..] == a[1..] + b;
    }
  }

  lemma {:induction false} AnsweredConcat(a: seq<Answer>, b: seq<Answer>, t: Token)
    ensures Answered(a + b, t) == Answered(a, t) + Answered(b, t)
  {
    if a == [] { assert a + b == b; }
    else {
      AnsweredConcat(a[1..], b, t);
      assert (a + b)[1..] == a[1..] + b;
    }
  }

  lemma {:induction false} AcksAnswer(waiters: seq<Waiter>, t: Token)
    ensures Answered(Acks(waiters), t) == Waiting(waiters, t)
  {
    if waiters != [] { AcksAnswer(waiters[1..], t); }
  }

  lemma {:induction false} PartsWaiting(waiters: seq<Waiter>, marks: seq<bool>, t: Token)
    requires |marks| == |waiters|
    ensures Waiting(Kept(waiters, marks), t) + Waiting(Taken(waiters, marks), t) == Waiting(waiters, t)
  {
    if waiters != [] {
      PartsWaiting(waiters[1..], marks[1..], t);
      WaitingConcat(If(!marks[0], waiters[0]), Kept(waiters[1..], marks[1..]), t);
      WaitingConcat(Taken(waiters[1..], marks[1..]), If(marks[0], waiters[0]), t);
    }
  }

  function AnswersTo(s: State, op: Op): seq<Answer> {
    match op
    case Register(name, oneshot, token) => Registered(s, name, oneshot, token).1
    case WaitAny(names, token) => WaitingAny(s, names, token).1
    case WaitAll(names, token) => WaitingAll(s, names, token).1
    case _ => []
  }

  function Asked(op: Op, token: Token): nat {
    if (op.Register? || op.WaitAny? || op.WaitAll?) && op.token == token then 1 else 0
  }

  function Parked(s: State, token: Token): nat {
    Waiting(s.waitAll, token) + Waiting(s.waitAny, token)
  }

  lemma RegisterAnswers(s: State, name: Name, oneshot: bool, token: Token, t: Token)
    ensures var (s', answers) := Registered(s, name, oneshot, token);
      Parked(s', t) + Answered(answers, t) == Parked(s, t) + if t == token then 1 else 0
  {
    hide Kept, Taken, Acks;
    if name !in s.discovery {
      var up := s.discovery.Keys + {name};
      var all, any := AllMarks(s.waitAll, up), AnyMarks(s.waitAny, up);
      PartsWaiting(s.waitAll, all, t);
      PartsWaiting(s.waitAny, any, t);
      AcksAnswer(Taken(s.waitAll, all), t);
      AcksAnswer(Taken(s.waitAny, any), t);
      AnsweredConcat([Answer(token, true)] + Acks(Taken(s.waitAll, all)), Acks(Taken(s.waitAny, any)), t);
      AnsweredConcat([Answer(token, true)], Acks(Taken(s.waitAll, all)), t);
    }
  }

  /** Whoever asks is answered at once or parked, and whoever leaves the parking lists is answered, exactly once. */
  lemma AnsweredOnce(s: State, op: Op, t: Token)
    ensures Parked(After(s, op), t) + Answered(AnswersTo(s, op), t) == Parked(s, t) + Asked(op, t)
  {
    hide Kept, Taken;
    match op
    case Register(name, oneshot, token) => RegisterAnswers(s, name, oneshot, token, t);
    case WaitAny(names, token) => WaitingConcat(s.waitAny, [Waiter(names, token)], t);
    case WaitAll(names, token) => WaitingConcat(s.waitAll, [Waiter(names, token)], t);
    case _ =>
  }

  function AskedIn(ops: seq<Op>, i: nat, t: Token): nat
    requires i <= |ops|
  {
    if i == 0 then 0 else AskedIn(ops, i - 1, t) + Asked(ops[i - 1], t)
  }

  function AnsweredIn(states: seq<State>, ops: seq<Op>, i: nat, t: Token): nat
    requires i <= |ops| < |states|
  {
    if i == 0 then 0 else AnsweredIn(states, ops, i - 1, t) + Answered(AnswersTo(states[i - 1], ops[i - 1]), t)
  }

  /** At every point of every run the requests made are the answers given and those still parked. */
  lemma {:induction false} AnsweredInRun(states: seq<State>, ops: seq<Op>, i: nat, t: Token)
    requires Run(states, ops) && i <= |ops|
    ensures AskedIn(ops, i, t) == AnsweredIn(states, ops, i, t) + Parked(states[i], t)
  {
    hide After, AnswersTo, Answered, Parked, Asked, Init;
    if i > 0 {
      AnsweredInRun(states, ops, i - 1, t);
      assert states[i - 1 + 1] == After(states[i - 1], ops[i - 1]);
      AnsweredOnce(states[i - 1], ops[i - 1], t);
    } else { NobodyParked(states[0], t); }
  }

  lemma NobodyParked(s: State, t: Token)
    requires Init(s)
    ensures Parked(s, t) == 0
  {
  }

  // ----- Start-up comes to an end -----

  /** One round: a step, after which what has been spawned is registered and what was up stays up. */
  ghost predicate Round(s: State, s': State) {
    var t := Stepped(s);
    && s'.definitions == t.definitions && s'.queue == t.queue && s'.spawned == t.spawned
    && s.discovery.Keys <= s'.discovery.Keys
    && (forall k :: 0 <= k < |s'.spawned| ==> s'.spawned[k] in s'.discovery)
  }

  ghost predicate Rounds(states: seq<State>) {
    && states != [] && Init(states[0])
    && forall i :: 0 <= i < |states| - 1 ==> Round(states[i], states[i + 1])
  }

  /** Requirements are defined services of lower rank: no cycles, nothing missing. */
  ghost predicate Ranked(defs: seq<Definition>, rank: Name -> nat) {
    forall i, r :: 0 <= i < |defs| && r in defs[i].requires_ ==> r in Names(defs) && rank(r) < rank(defs[i].name)
  }

  lemma {:induction false} DefinitionFound(defs: seq<Definition>, name: Name)
    requires name in Names(defs)
    ensures DefinitionOf(defs, name).Some? && DefinitionOf(defs, name).value in defs
      && DefinitionOf(defs, name).value.name == name
  {
    if defs[0].name != name {
      var i :| 0 <= i < |Names(defs)| && Names(defs)[i] == name;
      assert Names(defs[1..])[i - 1] == name;
      DefinitionFound(defs[1..], name);
    }
  }

  lemma QueuedOrSpawned(s: State, name: Name)
    requires Conserved(s)
    ensures name in Names(s.definitions) <==> name in s.queue || name in s.spawned
  {
    assert name in multiset(s.queue) + multiset(s.spawned) <==> name in multiset(Names(s.definitions));
  }

  /** A service is left in the queue because of a requirement that is still in the queue itself. */
  lemma StaysForReason(s: State, name: Name, rank: Name -> nat, k: nat)
    requires Conserved(s) && Ranked(s.definitions, rank) && name in s.queue && !Ready(s, name)
    requires forall i :: 0 <= i < |s.spawned| ==> s.spawned[i] in s.discovery
    requires forall i :: 0 <= i < |s.queue| ==> rank(s.queue[i]) >= k
    ensures rank(name) >= k + 1
  {
    QueuedOrSpawned(s, name);
    DefinitionFound(s.definitions, name);
    var d := DefinitionOf(s.definitions, name).value;
    var r :| r in d.requires_ && r !in s.discovery;
    var j :| 0 <= j < |s.definitions| && s.definitions[j] == d;
    assert r in s.definitions[j].requires_;
    QueuedOrSpawned(s, r);
  }

  lemma RoundRanks(s: State, s': State, rank: Name -> nat, k: nat)
    requires Conserved(s) && Round(s, s') && Ranked(s.definitions, rank)
    requires forall i :: 0 <= i < |s.spawned| ==> s.spawned[i] in s.discovery
    requires forall i :: 0 <= i < |s.queue| ==> rank(s.queue[i]) >= k
    ensures Conserved(s') && forall i :: 0 <= i < |s'.queue| ==> rank(s'.queue[i]) >= k + 1
  {
    StepConserves(s);
    StepSpawnsReady(s);
    hide Stepped, Ready;
    forall i | 0 <= i < |s'.queue| ensures rank(s'.queue[i]) >= k + 1 { StaysForReason(s, s'.queue[i], rank, k); }
  }

  lemma {:induction false} RanksRise(states: seq<State>, rank: Name -> nat, k: nat)
    requires Rounds(states) && k < |states| && Ranked(states[0].definitions, rank)
    ensures Conserved(states[k]) && states[k].definitions == states[0].definitions
    ensures forall i :: 0 <= i < |states[k].spawned| ==> states[k].spawned[i] in states[k].discovery
    ensures forall i :: 0 <= i < |states[k].queue| ==> rank(states[k].queue[i]) >= k
  {
    if k > 0 {
      RanksRise(states, rank, k - 1);
      assert Round(states[k - 1], states[k - 1 + 1]);
      RoundRanks(states[k - 1], states[k], rank, k - 1);
    }
  }

  /** As many rounds as there are ranks empty the start queue. */
  lemma RoundsEmpty(states: seq<State>, rank: Name -> nat, ranks: nat)
    requires Rounds(states) && |states| > ranks && Ranked(states[0].definitions, rank)
    requires forall i :: 0 <= i < |states[0].definitions| ==> rank(states[0].definitions[i].name) < ranks
    ensures states[ranks].queue == []
  {
    RanksRise(states, rank, ranks);
    var s := states[ranks];
    forall name: Name ensures name !in s.queue { QueuedOrSpawned(s, name); }
    SomeElement(s.queue);
  }

  /** Between i and j a run makes one step, nothing ends, and at j all that has been spawned is registered. */
  ghost predicate Settles(states: seq<State>, ops: seq<Op>, i: nat, j: nat) {
    && |states| == |ops| + 1 && i < j <= |ops| && ops[i].Step?
    && (forall l :: i < l < j ==> !ops[l].Step? && !ops[l].Complete?)
    && (forall k :: 0 <= k < |states[j].spawned| ==> states[j].spawned[k] in states[j].discovery)
  }

  lemma {:induction false} Unstepped(states: seq<State>, ops: seq<Op>, i: nat, j: nat)
    requires Run(states, ops) && i <= j <= |ops| && forall l :: i <= l < j ==> !ops[l].Step? && !ops[l].Complete?
    ensures states[j].definitions == states[i].definitions && states[j].queue == states[i].queue
    ensures states[j].spawned == states[i].spawned && states[i].discovery.Keys <= states[j].discovery.Keys
    decreases j
  {
    hide Kept, Taken, Acks;
    if i < j {
      Unstepped(states, ops, i, j - 1);
      assert states[j - 1 + 1] == After(states[j - 1], ops[j - 1]);
    }
  }

  lemma SettledRound(states: seq<State>, ops: seq<Op>, i: nat, j: nat)
    requires Run(states, ops) && Settles(states, ops, i, j)
    ensures Round(states[i], states[j])
  {
    hide Stepped, Init;
    Unstepped(states, ops, i + 1, j);
    assert states[i + 1] == Stepped(states[i]);
    StepKeepsUp(states[i]);
  }

  lemma StepKeepsUp(s: State)
    ensures Stepped(s).discovery == s.discovery
  {
  }

  /**
   * Without cycles and missing names, a run that settles as often as there are ranks has emptied
   * the start queue: everything defined has been spawned.
   */
  lemma StartUpEnds(states: seq<State>, ops: seq<Op>, marks: seq<nat>, rank: Name -> nat, ranks: nat)
    requires Run(states, ops) && Ranked(states[0].definitions, rank)
    requires forall i :: 0 <= i < |states[0].definitions| ==> rank(states[0].definitions[i].name) < ranks
    requires |marks| > ranks && marks[0] == 0 && forall n :: 0 <= n < |marks| - 1 ==>
      Settles(states, ops, marks[n], marks[n + 1])
    ensures marks[ranks] < |states| && states[marks[ranks]].queue == []
  {
    hide Round, Init, Ranked;
    assert ranks > 0 ==> Settles(states, ops, marks[ranks - 1], marks[ranks - 1 + 1]);
    forall n | 0 <= n < |marks| ensures marks[n] < |states| {
      if n > 0 { assert Settles(states, ops, marks[n - 1], marks[n - 1 + 1]); }
    }
    var settled := seq(|marks|, n requires 0 <= n < |marks| => states[marks[n]]);
    forall n | 0 <= n < |settled| - 1 ensures Round(settled[n], settled[n + 1]) {
      SettledRound(states, ops, marks[n], marks[n + 1]);
    }
    RoundsEmpty(settled, rank, ranks);
  }

  lemma SomeElement(q: seq<Name>)
    ensures q != [] ==> exists x :: x in q
  {
    if q != [] { assert q[0] in q; }
  }

  /** Services that require each other in a circle are never spawned, as long as only spawned services register. */
  lemma {:induction false} CycleNeverStarts(states: seq<State>, ops: seq<Op>, i: nat, cycle: set<Name>)
    requires Run(states, ops) && i < |states|
    requires forall j :: 0 <= j < |ops| && ops[j].Register? ==> ops[j].name in states[j].spawned
    requires forall c :: c in cycle ==>
      var d := DefinitionOf(states[0].definitions, c); d.Some? ==> d.value.requires_ * cycle != {}
    ensures states[i].definitions == states[0].definitions
    ensures forall c :: c in cycle ==> c !in states[i].spawned && c !in states[i].discovery
  {
    if i > 0 {
      CycleNeverStarts(states, ops, i - 1, cycle);
      var s, op := states[i - 1], ops[i - 1];
      assert states[i - 1 + 1] == After(s, op);
      if op.Step? { StepLeavesCycle(s, cycle); }
    }
  }

  lemma StepLeavesCycle(s: State, cycle: set<Name>)
    requires forall c :: c in cycle ==>
      var d := DefinitionOf(s.definitions, c); d.Some? ==> d.value.requires_ * cycle != {}
    requires forall c :: c in cycle ==> c !in s.spawned && c !in s.discovery
    ensures forall c :: c in cycle ==> c !in Stepped(s).spawned
  {
    StepSpawnsReady(s);
    forall c | c in cycle ensures !Ready(s, c) {
      var d := DefinitionOf(s.definitions, c);
      if d.Some? { var r :| r in d.value.requires_ * cycle; assert r !in s.discovery.Keys; }
    }
    var s' := Stepped(s);
    hide Stepped, Ready;
    forall c | c in cycle ensures c !in s'.spawned {
      assert forall k :: 0 <= k < |s'.spawned| ==> s'.spawned[k] in s.spawned || Ready(s, s'.spawned[k]) by {
        assert forall k :: 0 <= k < |s.spawned| ==> s'.spawned[k] == s.spawned[k];
      }
    }
  }

  // ----- The manager -----

  class Manager {
    const definitions: seq<Definition>
    var queue: seq<Name>
    ghost var spawned: seq<Name>
    var managed: map<Pid, Name>
    var discovery: map<Name, bool>
    var waitAll: seq<Waiter>
    var waitAny: seq<Waiter>
    var nextPid: Pid

    constructor (definitions: seq<Definition>)
      ensures Init(View()) && Valid() && this.definitions == definitions
    {
      this.definitions, queue, spawned := definitions, Names(definitions), [];
      managed, discovery, waitAll, waitAny, nextPid := map[], map[], [], [], 0;
      new;
      forall i | 0 <= i < |queue|
        ensures DefinitionOf(definitions, queue[i]).Some? { DefinitionFound(definitions, queue[i]); }
    }

    ghost function View(): State
      reads this
    {
      State(definitions, queue, spawned, managed, discovery, waitAll, waitAny, nextPid)
    }

    /** Every queued name has a definition, or the lookup in a step would panic. */
    ghost predicate Valid()
      reads this
    {
      forall i :: 0 <= i < |queue| ==> DefinitionOf(definitions, queue[i]).Some?
    }

    method Start(name: Name)
      modifies this
      ensures View() == old(View()).(
        managed := old(managed)[old(nextPid) := name], nextPid := old(nextPid) + 1, spawned := old(spawned) + [name])
    {
      managed := managed[nextPid := name];
      nextPid := nextPid + 1;
      spawned := spawned + [name];
    }

    method FindReady() returns (marks: seq<bool>)
      requires Valid()
      ensures marks == ReadyMarks(View())
    {
      marks := [];
      for i := 0 to |queue|
        invariant |marks| == i && forall j :: 0 <= j < i ==> marks[j] == Ready(View(), queue[j])
      {
        var d := DefinitionOf(definitions, queue[i]);
        marks := marks + [d.value.requires_ <= discovery.Keys];
      }
    }

    method StartAll(names: seq<Name>)
      modifies this
      ensures View() == old(View()).(spawned := old(spawned) + names,
        managed := Managing(old(managed), old(nextPid), names), nextPid := old(nextPid) + |names|)
    {
      ghost var s := View();
      assert names[..0] == [] && names[0..] == names && s.spawned + [] == s.spawned;
      for i := 0 to |names|
        invariant View() == s.(spawned := s.spawned + names[..i], managed := managed, nextPid := s.nextPid + i)
        invariant Managing(managed, nextPid, names[i..]) == Managing(s.managed, s.nextPid, names)
      {
        assert names[i..][0] == names[i] && names[i..][1..] == names[i + 1..];
        Start(names[i]);
        assert names[..i + 1] == names[..i] + [names[i]];
      }
      assert names[..|names|] == names && names[|names|..] == [];
    }

    method Step()
      requires Valid()
      modifies this
      ensures Valid() && View() == Stepped(old(View()))
    {
      ghost var s := View();
      hide Ready, Kept, Taken, Managing;
      var marks := FindReady();
      var started;
      queue, started := Extract(queue, marks);
      PartsMembers(s.queue, marks);
      forall i | 0 <= i < |queue|
        ensures DefinitionOf(definitions, queue[i]).Some? { assert queue[i] in Kept(s.queue, marks); }
      StartAll(started);
    }

    /** Nacks a taken name; otherwise acks, and answers every waiter who is satisfied now. */
    method OnRegister(name: Name, oneshot: bool, token: Token) returns (answers: seq<Answer>)
      requires Valid()
      modifies this
      ensures Valid() && (View(), answers) == Registered(old(View()), name, oneshot, token)
    {
      if name in discovery { return [Answer(token, false)]; }
      discovery := discovery[name := oneshot];
      answers := [Answer(token, true)];
      var up := discovery.Keys;
      assert up == old(discovery).Keys + {name};
      var taken;
      waitAll, taken := Extract(waitAll, AllMarks(waitAll, up));
      answers := answers + Acks(taken);
      waitAny, taken := Extract(waitAny, AnyMarks(waitAny, up));
      answers := answers + Acks(taken);
    }

    method OnWaitAny(names: set<Name>, token: Token) returns (answers: seq<Answer>)
      requires Valid()
      modifies this
      ensures Valid() && (View(), answers) == WaitingAny(old(View()), names, token)
    {
      if names * discovery.Keys != {} { return [Answer(token, true)]; }
      waitAny := waitAny + [Waiter(names, token)];
      answers := [];
    }

    method OnWaitAll(names: set<Name>, token: Token) returns (answers: seq<Answer>)
      requires Valid()
      modifies this
      ensures Valid() && (View(), answers) == WaitingAll(old(View()), names, token)
    {
      if names <= discovery.Keys { return [Answer(token, true)]; }
      waitAll := waitAll + [Waiter(names, token)];
      answers := [];
    }

    method OnProcessCompleted(pid: Pid, success: bool)
      requires Valid()
      modifies this
      ensures Valid() && View() == Completed(old(View()), pid, success)
    {
      if pid in managed {
        var name := managed[pid];
        managed := managed - {pid};
        if name in discovery && !(discovery[name] && success) { discovery := discovery - {name}; }
      }
    }
  }
}
