/** What every operation of the IPC manager keeps. */
module MailInvariant {
  import opened Common
  import opened Subscriptions
  import opened EventQueues
  import opened Mail

  /** Subscription ids are the mailbox keys; only plain process mailboxes take unreliable messages. */
  ghost predicate ListOk(m: MState) {
    && ListInv(m.list)
    && m.mailboxes.Keys == Ids(m.list)
    && (forall t :: t in m.list.targets && !t.reliable ==> HasBox(m, t.id) && Box(m, t.id).pipe.NoPipe?)
  }

  /** Every process mailbox has exactly one owner. */
  ghost predicate OwnersOk(m: MState) {
    && (forall p, s: SubId :: Owns(m, p, s) ==> HasBox(m, s))
    && (forall p, p', s: SubId :: Owns(m, p, s) && Owns(m, p', s) ==> p == p')
    && (forall s :: HasBox(m, s) ==> exists p :: Owns(m, p, s))
  }

  ghost predicate BoxesOk(m: MState) {
    forall s :: HasBox(m, s) ==> QueueInv(Box(m, s).queue) && Box(m, s).queue.limit == MAILBOX_BUFFER_LIMIT
  }

  /** Events are private: no two mailboxes or deliveries share one, and none is still to be handed out. */
  ghost predicate EventsOk(m: MState) {
    && (forall s, e: EventId :: ArmedWith(m, s, e) ==> e < m.nextEvent)
    && (forall s, s', e :: ArmedWith(m, s, e) && ArmedWith(m, s', e) ==> s == s')
    && (forall a :: a in m.pending ==> m.pending[a].event < m.nextEvent)
    && (forall a, b :: a in m.pending && b in m.pending && m.pending[a].event == m.pending[b].event ==> a == b)
    && (forall a, s :: a in m.pending ==> !ArmedWith(m, s, m.pending[a].event))
  }

  /** A sender has one outstanding delivery at most, and no verdict while it is outstanding. */
  ghost predicate SendersOk(m: MState) {
    && (forall a :: a in m.pending ==> a < m.nextAck)
    && (forall a, b :: a in m.pending && b in m.pending && m.pending[a].sender == m.pending[b].sender ==> a == b)
    && (forall a :: a in m.pending ==> m.pending[a].sender !in m.results)
  }

  /** A queued delivery is pending, and queued in one place only. */
  ghost predicate AcksOk(m: MState) {
    && (forall s, i: nat, a :: Queued(m, s, i, a) ==> a in m.pending)
    && (forall s, i: nat, s', j: nat, a :: Queued(m, s, i, a) && Queued(m, s', j, a) ==> s == s' && i == j)
  }

  /** A pipe holds messages of the one process it is connected to, and none when it is not connected. */
  ghost predicate PipeOk(m: MState, s: SubId)
    requires HasBox(m, s)
  {
    var b := Box(m, s);
    match b.pipe
    case NoPipe => true
    case NotConnected => b.queue.items == []
    case Disconnected => b.queue.items == []
    case ConnectedTo(c) => forall i :: 0 <= i < |b.queue.items| ==>
      b.queue.items[i].ack.Some? && b.queue.items[i].ack.value in m.pending
        && m.pending[b.queue.items[i].ack.value].sender == c
  }

  ghost predicate PipesOk(m: MState) {
    forall s :: HasBox(m, s) ==> PipeOk(m, s)
  }

  ghost predicate MInv(m: MState) {
    ListOk(m) && OwnersOk(m) && BoxesOk(m) && EventsOk(m) && SendersOk(m) && AcksOk(m) && PipesOk(m)
  }

  // ----- What an operation may do to those who wait -----

  /** The mailbox looks the same to a waiter, or the event it was armed with is about to be triggered. */
  ghost predicate Quiet(m: MState, m': MState, events: set<EventId>, s: SubId)
    requires HasBox(m, s) && HasBox(m', s)
  {
    || (Box(m', s).queue.items == Box(m, s).queue.items && Box(m', s).queue.event == Box(m, s).queue.event)
    || (Box(m, s).queue.event.Some? ==> Box(m, s).queue.event.value in events)
  }

  /** The delivery is untouched, or it is decided and its sender's event is about to be triggered. */
  ghost predicate Followed(m: MState, m': MState, events: set<EventId>, a: AckId)
    requires a in m.pending
  {
    if a in m'.pending then m'.pending[a] == m.pending[a] && m.pending[a].event !in events
    else m.pending[a].event in events && m.pending[a].sender in m'.results
  }

  ghost predicate Decided(m: MState, m': MState, p: Pid) {
    exists a :: a in m.pending && a !in m'.pending && m.pending[a].sender == p
  }

  /** One operation by process `x` that ends with triggering `events`. */
  ghost predicate MailStep(m: MState, m': MState, events: set<EventId>, x: Pid) {
    && m.list.next <= m'.list.next && m.nextAck <= m'.nextAck
    && (forall s :: HasBox(m', s) ==> HasBox(m, s) || m.list.next <= s)
    && (forall s :: HasBox(m, s) && HasBox(m', s) ==> Quiet(m, m', events, s))
    && (forall a :: a in m.pending ==> Followed(m, m', events, a))
    && (forall a :: a in m'.pending && a !in m.pending ==> m.nextAck <= a && m'.pending[a].sender == x)
    && (forall p :: p in m.results && p != x ==> p in m'.results)
    && (forall p :: p in m'.results && p !in m.results ==> Decided(m, m', p))
  }

  ghost predicate NotSending(m: MState, x: Pid) {
    forall a :: a in m.pending ==> m.pending[a].sender != x
  }

  lemma IdsIssued(m: MState)
    requires ListOk(m)
    ensures forall s: SubId :: HasBox(m, s) ==> s < m.list.next
  {
    forall s: SubId | HasBox(m, s) ensures s < m.list.next { assert s in Ids(m.list); }
  }

  lemma QuietCompose(m: MState, a: set<EventId>, m1: MState, b: set<EventId>, m2: MState, s: SubId)
    requires HasBox(m, s) && HasBox(m1, s) && HasBox(m2, s) && Quiet(m, m1, a, s) && Quiet(m1, m2, b, s)
    ensures Quiet(m, m2, a + b, s)
  {
  }

  lemma FollowedCompose(m: MState, a: set<EventId>, m1: MState, b: set<EventId>, m2: MState, x: Pid, d: AckId)
    requires SendersOk(m) && NotSending(m, x) && d in m.pending
    requires MailStep(m, m1, a, x) && MailStep(m1, m2, b, x)
    ensures Followed(m, m2, a + b, d)
  {
    hide Quiet, HasBox;
    assert Followed(m, m1, a, d);
    if d in m1.pending { assert Followed(m1, m2, b, d); }
  }

  lemma DecidedCompose(m: MState, a: set<EventId>, m1: MState, b: set<EventId>, m2: MState, x: Pid, p: Pid)
    requires SendersOk(m) && NotSending(m1, x) && p in m2.results && p !in m.results
    requires MailStep(m, m1, a, x) && MailStep(m1, m2, b, x)
    ensures Decided(m, m2, p)
  {
    hide Quiet, HasBox;
    if p in m1.results {
      assert Decided(m, m1, p);
      var d :| d in m.pending && d !in m1.pending && m.pending[d].sender == p;
      assert d in m.pending && d !in m2.pending && m.pending[d].sender == p;
    } else {
      assert Decided(m1, m2, p);
      var d :| d in m1.pending && d !in m2.pending && m1.pending[d].sender == p;
      assert d in m.pending ==> Followed(m, m1, a, d);
      assert d in m.pending && d !in m2.pending && m.pending[d].sender == p;
    }
  }

  lemma MailStepCompose(m: MState, a: set<EventId>, m1: MState, b: set<EventId>, m2: MState, x: Pid)
    requires MInv(m) && MInv(m1) && NotSending(m, x) && NotSending(m1, x)
    requires MailStep(m, m1, a, x) && MailStep(m1, m2, b, x)
    ensures MailStep(m, m2, a + b, x)
  {
    IdsIssued(m);
    hide ListOk, OwnersOk, BoxesOk, EventsOk, AcksOk, PipesOk, Quiet, Followed;
    forall s | HasBox(m, s) && HasBox(m2, s) ensures Quiet(m, m2, a + b, s) {
      assert HasBox(m1, s) && Quiet(m, m1, a, s) && Quiet(m1, m2, b, s);
      QuietCompose(m, a, m1, b, m2, s);
    }
    forall d | d in m.pending ensures Followed(m, m2, a + b, d) { FollowedCompose(m, a, m1, b, m2, x, d); }
    forall p | p in m2.results && p !in m.results ensures Decided(m, m2, p) { DecidedCompose(m, a, m1, b, m2, x, p); }
    hide HasBox, Decided;
  }
}
