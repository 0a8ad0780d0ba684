/** Verdicts, dropped mailboxes and ended processes keep the manager invariant; what is never unwrapped in vain. */
module MailEnds {
  import opened Common
  import opened Topics
  import opened Subscriptions
  import opened Mail
  import opened MailInvariant
  import opened MailBoxes
  import opened MailOps

  // ----- Verdicts -----

  ghost predicate NotQueued(m: MState, a: AckId) {
    forall s, i: nat :: !Queued(m, s, i, a)
  }

  /** Mailboxes stay as they are; some deliveries that are not queued are over. */
  ghost predicate Settled(m: MState, m': MState) {
    && m' == m.(pending := m'.pending, results := m'.results)
    && (forall a :: a in m'.pending ==> a in m.pending && m'.pending[a] == m.pending[a])
    && (forall a :: a in m.pending && a !in m'.pending ==> NotQueued(m, a))
  }

  lemma SettledBoxes(m: MState, m': MState)
    requires Settled(m, m')
    ensures forall s, i: nat, b :: Queued(m', s, i, b) <==> Queued(m, s, i, b)
    ensures forall s, e: EventId :: ArmedWith(m', s, e) <==> ArmedWith(m, s, e)
    ensures forall s :: HasBox(m', s) <==> HasBox(m, s)
    ensures ListOk(m) ==> ListOk(m')
    ensures OwnersOk(m) ==> OwnersOk(m')
    ensures BoxesOk(m) ==> BoxesOk(m')
  {
    if OwnersOk(m) { SameOwners(m, m'); }
  }

  lemma SettledAcks(m: MState, m': MState)
    requires Settled(m, m')
    ensures AcksOk(m) ==> AcksOk(m')
    ensures EventsOk(m) ==> EventsOk(m')
  {
    SettledBoxes(m, m');
  }

  lemma SettledPipes(m: MState, m': MState)
    requires Settled(m, m') && PipesOk(m)
    ensures PipesOk(m')
  {
    SettledBoxes(m, m');
    forall s | HasBox(m', s) ensures PipeOk(m', s) {
      assert PipeOk(m, s);
      var items := Box(m, s).queue.items;
      assert forall i :: 0 <= i < |items| && items[i].ack.Some? ==> Queued(m, s, i, items[i].ack.value);
    }
  }

  lemma AcknowledgeMailStep(m: MState, a: AckId, positive: bool, x: Pid)
    requires EventsOk(m) && SendersOk(m) && a in m.pending
    ensures var (m', events) := Acknowledge(m, a, positive);
      MailStep(m, m', events, x) && SendersOk(m')
  {
    var (m', events) := Acknowledge(m, a, positive);
    assert Decided(m, m', m.pending[a].sender);
    forall b | b in m.pending ensures Followed(m, m', events, b) {}
  }

  /** Acknowledging a message that has left its mailbox. */
  lemma AcknowledgeKeeps(m: MState, a: AckId, positive: bool, x: Pid)
    requires MInv(m) && a in m.pending && NotQueued(m, a)
    ensures var (m', events) := Acknowledge(m, a, positive);
      MInv(m') && MailStep(m, m', events, x)
  {
    hide ListOk, OwnersOk, BoxesOk, EventsOk, SendersOk, AcksOk, PipesOk, MailStep, NotQueued;
    var (m', events) := Acknowledge(m, a, positive);
    SettledBoxes(m, m');
    SettledAcks(m, m');
    SettledPipes(m, m');
    AcknowledgeMailStep(m, a, positive, x);
  }

  lemma AfterDeliveryKeeps(m: MState, pid: Pid)
    requires MInv(m) && pid in m.results
    ensures MInv(AfterDelivery(m, pid).0) && MailStep(m, AfterDelivery(m, pid).0, {}, pid)
  {
    hide ListOk, OwnersOk, BoxesOk, EventsOk, AcksOk, PipesOk, NotQueued;
    var m' := AfterDelivery(m, pid).0;
    SettledBoxes(m, m');
    SettledAcks(m, m');
    SettledPipes(m, m');
    forall b | b in m.pending ensures Followed(m, m', {}, b) {}
  }

  // ----- Dropping mailboxes -----

  lemma {:induction false} WithoutAllMembers(s: seq<Target>, ids: set<SubId>)
    ensures forall t :: t in WithoutAll(s, ids) <==> t in s && t.id !in ids
  {
    if s != [] {
      WithoutAllMembers(s[1..], ids);
      assert forall t :: t in s <==> t == s[0] || t in s[1..];
    }
  }

  /** What is left of the rest stands further behind in the whole. */
  lemma LeftBehind(s: seq<Target>, ids: set<SubId>, t: Target) returns (j: nat)
    requires s != [] && t in WithoutAll(s[1..], ids)
    ensures 0 < j < |s| && s[j] == t
  {
    WithoutAllMembers(s[1..], ids);
    j :| 0 <= j < |s[1..]| && s[1..][j] == t;
    j := j + 1;
  }

  lemma {:induction false} WithoutAllSorted(s: seq<Target>, ids: set<SubId>)
    requires Sorted(s)
    ensures Sorted(WithoutAll(s, ids))
  {
    hide Less;
    if s != [] {
      WithoutAllSorted(s[1..], ids);
      var r := WithoutAll(s[1..], ids);
      forall i | 0 <= i < |r| ensures Less(s[0], r[i]) { var j := LeftBehind(s, ids, r[i]); }
    }
  }

  lemma {:induction false} WithoutAllDistinct(s: seq<Target>, ids: set<SubId>)
    requires DistinctIds(s)
    ensures DistinctIds(WithoutAll(s, ids))
  {
    if s != [] {
      WithoutAllDistinct(s[1..], ids);
      var r := WithoutAll(s[1..], ids);
      forall i | 0 <= i < |r| ensures s[0].id != r[i].id { var j := LeftBehind(s, ids, r[i]); }
    }
  }

  lemma RemoveAllKeepsInv(l: ListState, ids: set<SubId>)
    requires ListInv(l)
    ensures ListInv(l.(targets := WithoutAll(l.targets, ids)))
    ensures Ids(l.(targets := WithoutAll(l.targets, ids))) == Ids(l) - ids
    ensures forall t :: t in WithoutAll(l.targets, ids) <==> t in l.targets && t.id !in ids
  {
    hide Less, ContainsFilter;
    WithoutAllMembers(l.targets, ids);
    WithoutAllSorted(l.targets, ids);
    WithoutAllDistinct(l.targets, ids);
    var l' := l.(targets := WithoutAll(l.targets, ids));
    assert forall i :: 0 <= i < |l'.targets| ==> l'.targets[i] in l.targets;
    forall x ensures x in Ids(l') <==> x in Ids(l) - ids {
      IdsAre(l, x); IdsAre(l', x);
    }
  }

  /** The mailboxes `subs` are gone, and exactly the deliveries queued in them are over. */
  ghost predicate Dropped(m: MState, m': MState, subs: set<SubId>) {
    && m' == m.(list := m'.list, mailboxes := m.mailboxes - subs, owned := m'.owned,
                pending := m'.pending, results := m'.results)
    && m'.pending == m.pending - AcksIn(m, subs)
    && m'.results == m.results + map p | p in Senders(m, AcksIn(m, subs)) :: Failed(NoSubscriber)
  }

  lemma DroppedBoxes(m: MState, m': MState, subs: set<SubId>)
    requires Dropped(m, m', subs)
    ensures forall s :: HasBox(m', s) <==> HasBox(m, s) && s !in subs
    ensures forall s :: HasBox(m', s) ==> Box(m', s) == Box(m, s)
    ensures forall s, i: nat, a :: Queued(m', s, i, a) <==> Queued(m, s, i, a) && s !in subs
    ensures forall s, e: EventId :: ArmedWith(m', s, e) <==> ArmedWith(m, s, e) && s !in subs
  {
  }

  lemma AcksInAre(m: MState, subs: set<SubId>, a: AckId)
    ensures a in AcksIn(m, subs) <==> exists s, i: nat :: s in subs && Queued(m, s, i, a)
  {
    if a in AcksIn(m, subs) {
      var s, i :| s in subs && HasBox(m, s) && 0 <= i < |Box(m, s).queue.items|
        && Box(m, s).queue.items[i].ack == Some(a);
      assert s in subs && Queued(m, s, i, a);
    }
  }

  lemma DroppedAcks(m: MState, m': MState, subs: set<SubId>)
    requires Dropped(m, m', subs) && AcksOk(m)
    ensures AcksOk(m')
  {
    DroppedBoxes(m, m', subs);
    forall s, i: nat, a | Queued(m', s, i, a) ensures a in m'.pending {
      AcksInAre(m, subs, a);
      assert Queued(m, s, i, a);
    }
  }

  lemma DroppedPipes(m: MState, m': MState, subs: set<SubId>)
    requires Dropped(m, m', subs) && AcksOk(m) && PipesOk(m)
    ensures PipesOk(m')
  {
    DroppedBoxes(m, m', subs);
    DroppedAcks(m, m', subs);
    forall s | HasBox(m', s) ensures PipeOk(m', s) {
      assert PipeOk(m, s);
      var items := Box(m, s).queue.items;
      assert forall i :: 0 <= i < |items| && items[i].ack.Some? ==> Queued(m', s, i, items[i].ack.value);
    }
  }

  lemma DroppedEvents(m: MState, m': MState, subs: set<SubId>)
    requires Dropped(m, m', subs)
    ensures BoxesOk(m) ==> BoxesOk(m')
    ensures EventsOk(m) ==> EventsOk(m')
    ensures SendersOk(m) ==> SendersOk(m')
  {
    DroppedBoxes(m, m', subs);
  }

  lemma DroppedMailStep(m: MState, m': MState, subs: set<SubId>, x: Pid)
    requires Dropped(m, m', subs) && EventsOk(m) && m'.list.next == m.list.next
    ensures MailStep(m, m', Wakeups(m, AcksIn(m, subs)), x)
  {
    DroppedBoxes(m, m', subs);
    var acks := AcksIn(m, subs);
    var events := Wakeups(m, acks);
    forall a | a in m.pending ensures Followed(m, m', events, a) {}
    forall p | p in m'.results && p !in m.results ensures Decided(m, m', p) {
      var a :| a in acks && a in m.pending && m.pending[a].sender == p;
      assert a in m.pending && a !in m'.pending && m.pending[a].sender == p;
    }
  }

  lemma DroppedList(m: MState, m': MState, subs: set<SubId>)
    requires Dropped(m, m', subs) && ListOk(m) && m'.list == m.list.(targets := WithoutAll(m.list.targets, subs))
    ensures ListOk(m')
  {
    hide ListInv;
    RemoveAllKeepsInv(m.list, subs);
    DroppedBoxes(m, m', subs);
  }

  lemma DroppedOwners(m: MState, m': MState, subs: set<SubId>)
    requires Dropped(m, m', subs) && OwnersOk(m)
    requires forall p, s: SubId :: Owns(m', p, s) <==> Owns(m, p, s) && s !in subs
    ensures OwnersOk(m')
  {
    DroppedBoxes(m, m', subs);
    forall s | HasBox(m', s) ensures exists p :: Owns(m', p, s) {
      assert HasBox(m, s);
      var p :| Owns(m, p, s);
      assert Owns(m', p, s);
    }
  }

  lemma DroppedKeeps(m: MState, m': MState, subs: set<SubId>, x: Pid)
    requires MInv(m) && Dropped(m, m', subs)
    requires m'.list == m.list.(targets := WithoutAll(m.list.targets, subs))
    requires forall p, s: SubId :: Owns(m', p, s) <==> Owns(m, p, s) && s !in subs
    ensures MInv(m') && MailStep(m, m', Wakeups(m, AcksIn(m, subs)), x)
  {
    hide ListOk, OwnersOk, BoxesOk, EventsOk, SendersOk, AcksOk, PipesOk, MailStep;
    DroppedAcks(m, m', subs);
    DroppedPipes(m, m', subs);
    DroppedEvents(m, m', subs);
    DroppedMailStep(m, m', subs, x);
    DroppedList(m, m', subs);
    DroppedOwners(m, m', subs);
  }

  lemma {:induction false} WithoutOne(s: seq<Target>, id: SubId)
    ensures WithoutAll(s, {id}) == Without(s, id)
  {
    if s != [] { WithoutOne(s[1..], id); }
  }

  lemma ForceUnsubscribeDrops(m: MState, sub: SubId)
    requires HasBox(m, sub)
    ensures ForceUnsubscribe(m, sub) == DropAll(m, {sub})
  {
    WithoutOne(m.list.targets, sub);
    assert Acks(Box(m, sub).queue.items) == AcksIn(m, {sub});
  }

  lemma UnsubscribeOwns(m: MState, pid: Pid, sub: SubId)
    requires OwnersOk(m) && Owns(m, pid, sub)
    ensures var m1 := m.(owned := m.owned[pid := m.owned[pid] - {sub}]);
      forall p, s: SubId :: Owns(m1, p, s) <==> Owns(m, p, s) && s !in {sub}
  {
  }

  lemma UnsubscribeKeeps(m: MState, pid: Pid, sub: SubId)
    requires MInv(m) && UnsubscribeSafe(m, pid, sub)
    ensures var (m', r, events) := Unsubscribe(m, pid, sub);
      MInv(m') && MailStep(m, m', events, pid)
  {
    hide ListOk, OwnersOk, BoxesOk, EventsOk, SendersOk, AcksOk, PipesOk, MailStep;
    var (m', r, events) := Unsubscribe(m, pid, sub);
    if Owns(m, pid, sub) {
      var m1 := m.(owned := m.owned[pid := m.owned[pid] - {sub}]);
      UnsubscribeOwns(m, pid, sub);
      ForceUnsubscribeDrops(m1, sub);
      SameAcksIn(m, m1, {sub});
      assert forall p, s: SubId :: Owns(m', p, s) <==> Owns(m1, p, s);
      DroppedKeeps(m, m', {sub}, pid);
    } else {
      NothingKeeps(m, pid);
    }
  }

  lemma SameAcksIn(m: MState, m1: MState, subs: set<SubId>)
    requires m1.mailboxes == m.mailboxes && m1.pending == m.pending
    ensures AcksIn(m1, subs) == AcksIn(m, subs)
    ensures Wakeups(m1, AcksIn(m1, subs)) == Wakeups(m, AcksIn(m, subs))
    ensures Senders(m1, AcksIn(m1, subs)) == Senders(m, AcksIn(m, subs))
  {
    assert forall s :: HasBox(m1, s) <==> HasBox(m, s);
    assert forall s :: HasBox(m, s) ==> Box(m1, s) == Box(m, s);
    forall a ensures a in AcksIn(m1, subs) <==> a in AcksIn(m, subs) {
      AcksInAre(m, subs, a); AcksInAre(m1, subs, a);
      assert forall s, i: nat :: Queued(m1, s, i, a) <==> Queued(m, s, i, a);
    }
  }

  // ----- A process is over -----

  lemma OverOwns(m: MState, pid: Pid)
    requires OwnersOk(m)
    ensures var m1 := m.(owned := m.owned - {pid});
      forall p, s: SubId :: Owns(m1, p, s) <==> Owns(m, p, s) && s !in OwnedBy(m, pid)
  {
    forall s: SubId ensures s in OwnedBy(m, pid) <==> Owns(m, pid, s) {}
  }

  lemma EndProcessKeeps(m: MState, pid: Pid)
    requires MInv(m) && EndProcessSafe(m, pid) && NotSending(m, pid)
    ensures var (m', events) := EndProcess(m, pid);
      && MInv(m') && MailStep(m, m', events, pid)
      && (forall s: SubId :: !Owns(m', pid, s))
      && (forall s :: HasBox(m', s) ==> Box(m', s).pipe != ConnectedTo(pid))
      && NotSending(m', pid)
  {
    hide ListOk, OwnersOk, BoxesOk, EventsOk, SendersOk, AcksOk, PipesOk, MailStep;
    var subs, m0 := OwnedBy(m, pid), m.(owned := m.owned - {pid});
    var (m1, released) := DropAll(m0, subs);
    var (m2, hungUp) := HangUpAll(m1, pid);
    SameAcksIn(m, m0, subs);
    OverOwns(m, pid);
    assert forall p, s: SubId :: Owns(m1, p, s) <==> Owns(m0, p, s);
    DroppedKeeps(m, m1, subs, pid);
    HangUpKeeps(m1, pid);
    MailStepCompose(m, released, m1, hungUp, m2, pid);
  }

  // ----- What is never unwrapped in vain -----

  lemma BoxReleaseSafe(m: MState, s: SubId)
    requires AcksOk(m) && HasBox(m, s)
    ensures ForceUnsubscribeSafe(m, s)
  {
    var items := Box(m, s).queue.items;
    forall i | 0 <= i < |items| && items[i].ack.Some? ensures items[i].ack.value in m.pending {
      assert Queued(m, s, i, items[i].ack.value);
    }
    forall i, j | 0 <= i < j < |items| && items[i].ack.Some? ensures items[i].ack != items[j].ack {
      assert Queued(m, s, i, items[i].ack.value);
      assert items[i].ack == items[j].ack ==> Queued(m, s, j, items[i].ack.value);
    }
  }

  /** Unsubscribing and ending a process find every mailbox and every pending delivery they unwrap. */
  lemma TearDownSafe(m: MState, pid: Pid, sub: SubId)
    requires MInv(m)
    ensures UnsubscribeSafe(m, pid, sub) && EndProcessSafe(m, pid) && ReceiveSafe(m, pid, sub)
  {
    hide ForceUnsubscribeSafe, PipesOk, EventsOk, BoxesOk, ListOk, SendersOk;
    forall s | Owns(m, pid, s) ensures ForceUnsubscribeSafe(m, s) { BoxReleaseSafe(m, s); }
  }

  /** Publishing only ever meets plain process mailboxes. */
  lemma PublishIsSafe(m: MState, topic: Topic)
    requires MInv(m)
    ensures PublishSafe(m, topic)
  {
    hide PipesOk, EventsOk, BoxesOk, OwnersOk, SendersOk, AcksOk;
    forall s | s in FindAll(m.list, topic, false) ensures HasBox(m, s) && Box(m, s).pipe.NoPipe? {
      var i :| 0 <= i < |m.list.targets| && !m.list.targets[i].reliable && m.list.targets[i].id == s;
      assert m.list.targets[i] in m.list.targets;
    }
  }

  /** A reliable topic selects at most one subscription, and it has a mailbox entry. */
  lemma SoleTarget(m: MState, topic: Topic)
    requires MInv(m)
    ensures var all := FindAll(m.list, topic, true);
      all != {} ==> |all| == 1 && Only(all) in m.mailboxes
  {
    hide PipesOk, EventsOk, BoxesOk, OwnersOk, SendersOk, AcksOk;
    ExclusiveTopics(m.list, topic);
    var all := FindAll(m.list, topic, true);
    if all != {} {
      assert |all| == 1;
      var s := Only(all);
      assert s in all;
      var i :| 0 <= i < |m.list.targets| && m.list.targets[i].id == s;
      assert s in Ids(m.list);
    }
  }

  /** A kernel service listens to this topic. */
  ghost predicate KernelServed(m: MState, topic: Topic) {
    exists s :: s in FindAll(m.list, topic, true) && s in m.mailboxes && m.mailboxes[s].None?
  }

  /** Whoever listens reliably to this topic has a plain mailbox. */
  ghost predicate PlainTarget(m: MState, topic: Topic) {
    forall s :: s in FindAll(m.list, topic, true) ==> HasBox(m, s) && Box(m, s).pipe.NoPipe?
  }

  /** Nobody is armed to wait on the mailbox a kernel reply goes to, unless it is full. */
  ghost predicate QuietTarget(m: MState, topic: Topic) {
    forall s :: s in FindAll(m.list, topic, true) && HasBox(m, s) ==>
      Box(m, s).queue.event.None? || |Box(m, s).queue.items| >= Box(m, s).queue.limit
  }

  /** When the assertions of the delivering operations hold: what a caller would have to know beforehand. */
  lemma DeliverSafeIff(m: MState, topic: Topic, service: ServiceReply)
    requires MInv(m)
    ensures DeliverReplySafe(m, topic) <==> PlainTarget(m, topic)
    ensures DeliverSafe(m, topic, service) <==>
      (KernelServed(m, topic) ==>
        !service.Undecodable? && (service.Reply? ==> PlainTarget(m, service.topic) && QuietTarget(m, service.topic)))
  {
    hide PipesOk, EventsOk, BoxesOk, OwnersOk, SendersOk, AcksOk, ListOk;
    SoleTarget(m, topic);
    if service.Reply? { KernelReplySafeIff(m, service.topic); }
  }

  lemma KernelReplySafeIff(m: MState, topic: Topic)
    requires MInv(m)
    ensures KernelReplySafe(m.(nextAck := m.nextAck + 1), topic) <==> PlainTarget(m, topic) && QuietTarget(m, topic)
  {
    hide PipesOk, EventsOk, BoxesOk, OwnersOk, SendersOk, AcksOk, ListOk;
    SoleTarget(m, topic);
    var m1 := m.(nextAck := m.nextAck + 1);
    assert forall s :: HasBox(m1, s) <==> HasBox(m, s);
    assert forall s :: HasBox(m, s) ==> Box(m1, s) == Box(m, s);
  }

  // ----- Nothing to drop -----

  lemma ReleaseNothing(m: MState)
    ensures Release(m, {}) == m && Wakeups(m, {}) == {}
  {
    assert Release(m, {}).results == m.results;
  }

  lemma DropNothing(m: MState)
    ensures DropAll(m, {}) == (m, {})
  {
    ReleaseNothing(m);
    assert AcksIn(m, {}) == {};
    WithoutNone(m.list.targets);
    assert m.mailboxes - {} == m.mailboxes;
  }

  lemma {:induction false} WithoutNone(t: seq<Target>)
    ensures WithoutAll(t, {}) == t
  {
    if t != [] { WithoutNone(t[1..]); }
  }
}
