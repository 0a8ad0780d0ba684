/** The list of subscriptions: exclusion between reliable filters, kept sorted for searching. */
module Subscriptions {
  import opened Common
  import opened Topics

  datatype Target = Target(filter: TopicFilter, reliable: bool, id: SubId)

  datatype ListState = ListState(targets: seq<Target>, next: SubId)

  // ----- The order of the target tuples -----

  predicate TextLess(a: string, b: string) {
    b != "" && (a == "" || a[0] < b[0] || (a[0] == b[0] && TextLess(a[1..], b[1..])))
  }

  lemma {:induction false} TextLessOrder(a: string, b: string, c: string)
    ensures !TextLess(a, a)
    ensures TextLess(a, b) || a == b || TextLess(b, a)
    ensures TextLess(a, b) && TextLess(b, c) ==> TextLess(a, c)
  {
    if a != "" {
      TextLessOrder(a[1..], if b == "" then "" else b[1..], if c == "" then "" else c[1..]);
      if b != "" && a[0] == b[0] && a[1..] == b[1..] {
        assert a == [a[0]] + a[1..] && b == [b[0]] + b[1..];
      }
    }
  }

  function Text(f: TopicFilter): string {
    match f case Exact(a) => a case Prefix(a) => a
  }

  predicate FilterLess(f: TopicFilter, g: TopicFilter) {
    (f.Exact? && g.Prefix?) || (f.Exact? == g.Exact? && TextLess(Text(f), Text(g)))
  }

  predicate Less(a: Target, b: Target) {
    || FilterLess(a.filter, b.filter)
    || (a.filter == b.filter && ((b.reliable && !a.reliable) || (a.reliable == b.reliable && a.id < b.id)))
  }

  lemma LessOrder(a: Target, b: Target, c: Target)
    ensures !Less(a, a)
    ensures Less(a, b) || a == b || Less(b, a)
    ensures Less(a, b) && Less(b, c) ==> Less(a, c)
  {
    TextLessOrder(Text(a.filter), Text(b.filter), Text(c.filter));
    TextLessOrder(Text(b.filter), Text(a.filter), Text(b.filter));
  }

  ghost predicate Sorted(s: seq<Target>) {
    forall i, j :: 0 <= i < j < |s| ==> Less(s[i], s[j])
  }

  // ----- What the operations compute -----

  predicate Conflict(a: Target, filter: TopicFilter, reliable: bool) {
    (reliable && ContainsFilter(filter, a.filter)) || (a.reliable && ContainsFilter(a.filter, filter))
  }

  ghost predicate Conflicts(s: seq<Target>, filter: TopicFilter, reliable: bool) {
    exists i :: 0 <= i < |s| && Conflict(s[i], filter, reliable)
  }

  function Inserted(s: seq<Target>, v: Target): seq<Target> {
    if s == [] || Less(v, s[0]) then [v] + s else [s[0]] + Inserted(s[1..], v)
  }

  ghost function Insert(l: ListState, filter: TopicFilter, reliable: bool): (ListState, Option<SubId>) {
    if Conflicts(l.targets, filter, reliable) then (l, None)
    else (ListState(Inserted(l.targets, Target(filter, reliable, l.next)), l.next + 1), Some(l.next))
  }

  function Without(s: seq<Target>, id: SubId): seq<Target> {
    if s == [] then []
    else if s[0].id == id then Without(s[1..], id)
    else [s[0]] + Without(s[1..], id)
  }

  function FindAll(l: ListState, topic: Topic, reliable: bool): set<SubId> {
    set i | 0 <= i < |l.targets| && l.targets[i].reliable == reliable && Matches(l.targets[i].filter, topic)
      :: l.targets[i].id
  }

  // ----- The list invariant -----

  /** No topic can reach a reliable subscription together with any other one. */
  ghost predicate Exclusive(s: seq<Target>) {
    forall a, b :: a in s && b in s && a.id != b.id && a.reliable ==> !ContainsFilter(a.filter, b.filter)
  }

  ghost predicate DistinctIds(s: seq<Target>) {
    forall i, j :: 0 <= i < j < |s| ==> s[i].id != s[j].id
  }

  ghost predicate ListInv(l: ListState) {
    && Sorted(l.targets)
    && Exclusive(l.targets)
    && (forall i :: 0 <= i < |l.targets| ==> l.targets[i].id < l.next)
    && DistinctIds(l.targets)
  }

  function Ids(l: ListState): set<SubId> {
    set i | 0 <= i < |l.targets| :: l.targets[i].id
  }

  lemma {:induction false} InsertedAt(s: seq<Target>, v: Target, k: nat)
    requires k <= |s|
    requires forall i :: 0 <= i < k ==> Less(s[i], v)
    requires k < |s| ==> Less(v, s[k])
    ensures Inserted(s, v) == s[..k] + [v] + s[k..]
  {
    hide Less;
    if k > 0 {
      LessOrder(s[0], v, s[0]);
      InsertedAt(s[1..], v, k - 1);
      assert s[..k] == [s[0]] + s[1..][..k - 1];
    }
  }

  /** A sorted list has one place for a new value: everything below it lies before everything above it. */
  lemma {:induction false} PlaceExists(s: seq<Target>, v: Target) returns (k: nat)
    requires Sorted(s) && v !in s
    ensures k <= |s|
    ensures forall i :: 0 <= i < k ==> Less(s[i], v)
    ensures forall i :: k <= i < |s| ==> Less(v, s[i])
  {
    k := 0;
    while k < |s| && Less(s[k], v)
      invariant k <= |s|
      invariant forall i :: 0 <= i < k ==> Less(s[i], v)
    { k := k + 1; }
    forall i | k <= i < |s| ensures Less(v, s[i]) {
      LessOrder(s[k], v, s[k]);
      LessOrder(v, s[k], s[i]);
    }
  }

  /** The insertion as positions: what is below v keeps its place, what is above moves up by one. */
  lemma InsertShape(s: seq<Target>, v: Target) returns (k: nat)
    requires Sorted(s) && v !in s
    ensures var r := Inserted(s, v);
      && k <= |s| && |r| == |s| + 1 && r[k] == v
      && (forall i :: 0 <= i < k ==> r[i] == s[i] && Less(s[i], v))
      && (forall i :: k < i < |r| ==> r[i] == s[i - 1] && Less(v, s[i - 1]))
  {
    hide Less, Inserted;
    k := PlaceExists(s, v);
    InsertedAt(s, v, k);
  }

  lemma InsertSorted(s: seq<Target>, v: Target)
    requires Sorted(s) && v !in s
    ensures Sorted(Inserted(s, v))
  {
    var k := InsertShape(s, v);
    var r := Inserted(s, v);
    hide Less, Inserted;
    forall i, j | 0 <= i < j < |r| ensures Less(r[i], r[j]) {
      if i < k < j { LessOrder(s[i], v, s[j - 1]); }
    }
  }

  lemma InsertDistinct(s: seq<Target>, v: Target)
    requires Sorted(s) && v !in s && DistinctIds(s) && forall i :: 0 <= i < |s| ==> s[i].id < v.id
    ensures DistinctIds(Inserted(s, v))
  {
    var k := InsertShape(s, v);
    hide Less, Inserted, Sorted;
  }

  lemma InsertMembers(s: seq<Target>, v: Target)
    requires Sorted(s) && v !in s
    ensures Sorted(Inserted(s, v))
    ensures forall t :: t in Inserted(s, v) <==> t in s || t == v
  {
    InsertSorted(s, v);
    var k := InsertShape(s, v);
    var r := Inserted(s, v);
    hide Less, Inserted, Sorted;
    forall t | t in s ensures t in r {
      var i :| 0 <= i < |s| && s[i] == t;
      assert t == if i < k then r[i] else r[i + 1];
    }
  }

  lemma InsertExclusive(s: seq<Target>, v: Target)
    requires Sorted(s) && v !in s && Exclusive(s) && !Conflicts(s, v.filter, v.reliable)
    ensures Exclusive(Inserted(s, v))
  {
    InsertMembers(s, v);
    forall a, b | a in Inserted(s, v) && b in Inserted(s, v) && a.id != b.id && a.reliable
      ensures !ContainsFilter(a.filter, b.filter)
    {
      if a == v { assert b in s && !Conflict(b, v.filter, v.reliable); }
      else if b == v { assert a in s && !Conflict(a, v.filter, v.reliable); }
    }
  }

  lemma InsertKeepsInv(l: ListState, filter: TopicFilter, reliable: bool)
    requires ListInv(l)
    ensures ListInv(Insert(l, filter, reliable).0)
    ensures Insert(l, filter, reliable).1.Some? ==>
      && Ids(Insert(l, filter, reliable).0) == Ids(l) + {l.next}
      && (forall t :: t in Insert(l, filter, reliable).0.targets <==>
            t in l.targets || t == Target(filter, reliable, l.next))
  {
    if !Conflicts(l.targets, filter, reliable) {
      var v := Target(filter, reliable, l.next);
      InsertMembers(l.targets, v);
      InsertDistinct(l.targets, v);
      InsertExclusive(l.targets, v);
      var l' := Insert(l, filter, reliable).0;
      assert forall i :: 0 <= i < |l'.targets| ==> l'.targets[i] in l'.targets;
      forall x ensures x in Ids(l') <==> x in Ids(l) + {l.next} {
        IdsAre(l, x); IdsAre(l', x);
      }
    }
  }

  lemma IdsAre(l: ListState, x: SubId)
    ensures x in Ids(l) <==> exists t :: t in l.targets && t.id == x
  {
  }

  lemma {:induction false} WithoutMembers(s: seq<Target>, id: SubId)
    ensures forall t :: t in Without(s, id) <==> t in s && t.id != id
    ensures |Without(s, id)| <= |s|
  {
    if s != [] {
      WithoutMembers(s[1..], id);
      assert forall t :: t in s <==> t == s[0] || t in s[1..];
    }
  }

  lemma {:induction false} WithoutSorted(s: seq<Target>, id: SubId)
    requires Sorted(s)
    ensures Sorted(Without(s, id))
  {
    hide Less;
    if s != [] {
      WithoutSorted(s[1..], id);
      WithoutMembers(s[1..], id);
      var r := Without(s[1..], id);
      forall i | 0 <= i < |r| ensures Less(s[0], r[i]) {
        assert r[i] in s[1..];
        var j :| 0 <= j < |s[1..]| && s[1..][j] == r[i];
        assert Less(s[0], s[j + 1]);
      }
      hide Without;
      assert Sorted([s[0]] + r);
    }
  }

  lemma {:induction false} WithoutDistinct(s: seq<Target>, id: SubId)
    requires DistinctIds(s)
    ensures DistinctIds(Without(s, id))
  {
    if s != [] {
      WithoutDistinct(s[1..], id);
      WithoutMembers(s[1..], id);
      var r := Without(s[1..], id);
      forall i | 0 <= i < |r| ensures s[0].id != r[i].id {
        assert r[i] in s[1..];
        var j :| 0 <= j < |s[1..]| && s[1..][j] == r[i];
        assert s[0].id != s[j + 1].id;
      }
      hide Without;
      assert DistinctIds([s[0]] + r);
    }
  }

  lemma RemoveKeepsInv(l: ListState, id: SubId)
    requires ListInv(l)
    ensures ListInv(l.(targets := Without(l.targets, id)))
    ensures Ids(l.(targets := Without(l.targets, id))) == Ids(l) - {id}
    ensures forall t :: t in Without(l.targets, id) <==> t in l.targets && t.id != id
  {
    WithoutMembers(l.targets, id);
    WithoutSorted(l.targets, id);
    WithoutDistinct(l.targets, id);
    var l' := l.(targets := Without(l.targets, id));
    assert forall i :: 0 <= i < |l'.targets| ==> l'.targets[i] in l.targets;
    forall x ensures x in Ids(l') <==> x in Ids(l) - {id} {
      IdsAre(l, x); IdsAre(l', x);
    }
  }

  /** A topic has at most one reliable subscriber, and then no unreliable one beside it. */
  lemma ExclusiveTopics(l: ListState, topic: Topic)
    requires ListInv(l)
    ensures |FindAll(l, topic, true)| <= 1
    ensures FindAll(l, topic, true) != {} ==> FindAll(l, topic, false) == {}
  {
    var r := FindAll(l, topic, true);
    if r != {} {
      var a :| a in r;
      var i :| 0 <= i < |l.targets| && l.targets[i].id == a && l.targets[i].reliable
        && Matches(l.targets[i].filter, topic);
      forall j | 0 <= j < |l.targets| && Matches(l.targets[j].filter, topic) ensures j == i {
        assert l.targets[i] in l.targets && l.targets[j] in l.targets;
        ContainsFilterIsOverlap(l.targets[i].filter, l.targets[j].filter);
      }
      assert r == {a};
    }
  }

  // ----- The mutable list -----

  class SubscriptionList {
    var targets: seq<Target>
    var nextId: SubId

    constructor ()
      ensures View() == ListState([], 0)
    {
      targets, nextId := [], 0;
    }

    ghost function View(): ListState
      reads this
    {
      ListState(targets, nextId)
    }

    /** Answers `None` on an exclusion conflict; otherwise keeps the targets sorted. */
    method Add(filter: TopicFilter, reliable: bool) returns (id: Option<SubId>)
      requires ListInv(View())
      modifies this
      ensures (View(), id) == Insert(old(View()), filter, reliable)
      ensures ListInv(View())
    {
      InsertKeepsInv(View(), filter, reliable);
      var clash := HasConflict(filter, reliable);
      if clash { return None; }
      var value := Target(filter, reliable, nextId);
      var index := BinarySearch(value);
      InsertedAt(targets, value, index);
      targets := targets[..index] + [value] + targets[index..];
      id := Some(nextId);
      nextId := nextId + 1;
    }

    method HasConflict(filter: TopicFilter, reliable: bool) returns (clash: bool)
      ensures clash <==> Conflicts(targets, filter, reliable)
    {
      for i := 0 to |targets|
        invariant forall j :: 0 <= j < i ==> !Conflict(targets[j], filter, reliable)
      {
        if Conflict(targets[i], filter, reliable) { return true; }
      }
      return false;
    }

    /** Where a value that is not in the sorted list belongs. */
    method BinarySearch(value: Target) returns (index: nat)
      requires Sorted(targets) && value !in targets
      ensures index <= |targets|
      ensures forall i :: 0 <= i < index ==> Less(targets[i], value)
      ensures forall i :: index <= i < |targets| ==> Less(value, targets[i])
    {
      index := 0;
      var high := |targets|;
      while index < high
        invariant index <= high <= |targets|
        invariant forall i :: 0 <= i < index ==> Less(targets[i], value)
        invariant forall i :: high <= i < |targets| ==> Less(value, targets[i])
      {
        var mid := (index + high) / 2;
        LessOrder(targets[mid], value, targets[mid]);
        if Less(targets[mid], value) {
          forall i | 0 <= i < mid ensures Less(targets[i], value) { LessOrder(targets[i], targets[mid], value); }
          index := mid + 1;
        } else {
          forall i | mid < i < |targets| ensures Less(value, targets[i]) { LessOrder(value, targets[mid], targets[i]); }
          high := mid;
        }
      }
    }

    /** Keeps every target but the given subscription. */
    method Remove(id: SubId)
      modifies this
      ensures View() == old(View()).(targets := Without(old(targets), id))
    {
      var kept := [];
      var i := |targets|;
      while i > 0
        invariant 0 <= i <= |targets|
        invariant kept == Without(targets[i..], id)
      {
        i := i - 1;
        assert targets[i..] == [targets[i]] + targets[i + 1..];
        if targets[i].id != id { kept := [targets[i]] + kept; }
      }
      assert targets[0..] == targets;
      targets := kept;
    }

    method Find(topic: Topic, reliable: bool) returns (ids: set<SubId>)
      ensures ids == FindAll(View(), topic, reliable)
    {
      ids := {};
      for i := 0 to |targets|
        invariant ids == set j | 0 <= j < i && targets[j].reliable == reliable
          && Matches(targets[j].filter, topic) :: targets[j].id
      {
        if targets[i].reliable == reliable && Matches(targets[i].filter, topic) { ids := ids + {targets[i].id}; }
      }
    }
  }
}
