/** The operations that only work on mailboxes keep the manager invariant. */
module MailBoxes {
  import opened Common
  import opened EventQueues
  import opened Mail
  import opened MailInvariant

  /** Acknowledgement ids of `now` stand in `was`, all shifted by the same `d`. */
  ghost predicate Shifted(was: seq<Message>, now: seq<Message>, d: nat) {
    forall i :: 0 <= i < |now| && now[i].ack.Some? ==> i + d < |was| && now[i].ack == was[i + d].ack
  }

  /** A mailbox lost its first message or gained one without acknowledgement; its event was kept, dropped or armed. */
  ghost predicate BoxStep(b: Mailbox, b': Mailbox) {
    && QueueInv(b'.queue) && b'.queue.limit == b.queue.limit
    && (Shifted(b.queue.items, b'.queue.items, 0) || Shifted(b.queue.items, b'.queue.items, 1))
    && (b'.pipe == b.pipe || (!b.pipe.NoPipe? && b'.pipe.Disconnected? && b'.queue.items == []))
    && (!b.pipe.NoPipe? ==>
         b'.queue.items == b.queue.items || (b.queue.items != [] && b'.queue.items == b.queue.items[1..]))
  }

  /** Only mailboxes and counters change; the mailbox `arm` may get the next unused event. */
  ghost predicate BoxesStep(m: MState, m': MState, arm: SubId) {
    && m' == m.(mailboxes := m'.mailboxes, nextAck := m'.nextAck, nextEvent := m'.nextEvent)
    && m.nextAck <= m'.nextAck && m.nextEvent <= m'.nextEvent
    && m'.mailboxes.Keys == m.mailboxes.Keys
    && (forall s :: HasBox(m', s) <==> HasBox(m, s))
    && (forall s :: HasBox(m, s) ==> BoxStep(Box(m, s), Box(m', s)))
    && (forall s, e: EventId :: ArmedWith(m', s, e) ==>
          ArmedWith(m, s, e) || (s == arm && e == m.nextEvent && e < m'.nextEvent))
  }

  /** How far the acknowledgement ids of a mailbox have moved. */
  ghost function Offset(m: MState, m': MState, s: SubId): nat
    requires HasBox(m, s) && HasBox(m', s)
  {
    if Shifted(Box(m, s).queue.items, Box(m', s).queue.items, 0) then 0 else 1
  }

  lemma QueuedBefore(m: MState, m': MState, arm: SubId, s: SubId, i: nat, a: AckId)
    requires BoxesStep(m, m', arm) && Queued(m', s, i, a)
    ensures Queued(m, s, i + Offset(m, m', s), a)
  {
    assert BoxStep(Box(m, s), Box(m', s));
  }

  lemma BoxesKeepAcks(m: MState, m': MState, arm: SubId)
    requires AcksOk(m) && BoxesStep(m, m', arm)
    ensures AcksOk(m')
  {
    forall s, i: nat, a | Queued(m', s, i, a) ensures a in m'.pending {
      QueuedBefore(m, m', arm, s, i, a);
    }
    forall s, i: nat, s', j: nat, a | Queued(m', s, i, a) && Queued(m', s', j, a) ensures s == s' && i == j {
      QueuedBefore(m, m', arm, s, i, a);
      QueuedBefore(m, m', arm, s', j, a);
    }
  }

  lemma BoxesKeepPipes(m: MState, m': MState, arm: SubId)
    requires PipesOk(m) && BoxesStep(m, m', arm)
    ensures PipesOk(m')
  {
    forall s | HasBox(m', s) ensures PipeOk(m', s) {
      assert BoxStep(Box(m, s), Box(m', s)) && PipeOk(m, s);
    }
  }

  lemma BoxesKeepInv(m: MState, m': MState, arm: SubId)
    requires MInv(m) && BoxesStep(m, m', arm)
    ensures MInv(m')
  {
    BoxesKeepAcks(m, m', arm);
    BoxesKeepPipes(m, m', arm);
    assert ListOk(m') by {
      forall t | t in m'.list.targets && !t.reliable ensures HasBox(m', t.id) && Box(m', t.id).pipe.NoPipe? {
        assert BoxStep(Box(m, t.id), Box(m', t.id));
      }
    }
    assert BoxesOk(m') by {
      forall s | HasBox(m', s) ensures QueueInv(Box(m', s).queue) && Box(m', s).queue.limit == MAILBOX_BUFFER_LIMIT {
        assert BoxStep(Box(m, s), Box(m', s));
      }
    }
    assert EventsOk(m') by { BoxesKeepEvents(m, m', arm); }
    assert OwnersOk(m') by {
      assert forall p, s: SubId :: Owns(m', p, s) <==> Owns(m, p, s);
      forall s | HasBox(m', s) ensures exists p :: Owns(m', p, s) {
        var p :| Owns(m, p, s);
        assert Owns(m', p, s);
      }
    }
  }

  lemma BoxesKeepEvents(m: MState, m': MState, arm: SubId)
    requires EventsOk(m) && BoxesStep(m, m', arm)
    ensures EventsOk(m')
  {
  }

  /** Such an operation disturbs nobody as long as every event it takes off a mailbox is triggered. */
  lemma BoxesMailStep(m: MState, m': MState, arm: SubId, events: set<EventId>, x: Pid)
    requires EventsOk(m) && BoxesStep(m, m', arm)
    requires forall s :: HasBox(m, s) ==> Quiet(m, m', events, s)
    requires forall e :: e in events ==> exists s :: ArmedWith(m, s, e)
    ensures MailStep(m, m', events, x)
  {
    forall a | a in m.pending ensures Followed(m, m', events, a) {}
  }

  // ----- The single operations -----

  lemma ArmStep(m: MState, sub: SubId)
    requires BoxesOk(m) && HasBox(m, sub) && Box(m, sub).queue.items == []
    ensures var (m', e) := ArmBox(m, sub);
      && BoxesStep(m, m', sub) && ArmedWith(m', sub, e)
      && (forall s :: HasBox(m, s) ==> Quiet(m, m', {}, s) && Box(m', s).queue.items == Box(m, s).queue.items)
      && (forall s, e: EventId :: ArmedWith(m, s, e) ==> ArmedWith(m', s, e))
  {
    var (m', e) := ArmBox(m, sub);
    forall s | HasBox(m, s) ensures BoxStep(Box(m, s), Box(m', s)) {
      assert QueueInv(Box(m, s).queue);
      assert Shifted(Box(m, s).queue.items, Box(m', s).queue.items, 0);
    }
  }

  lemma ArmKeeps(m: MState, sub: SubId, x: Pid)
    requires MInv(m) && HasBox(m, sub) && Box(m, sub).queue.items == []
    ensures MInv(ArmBox(m, sub).0) && MailStep(m, ArmBox(m, sub).0, {}, x)
  {
    ArmStep(m, sub);
    BoxesKeepInv(m, ArmBox(m, sub).0, sub);
    BoxesMailStep(m, ArmBox(m, sub).0, sub, {}, x);
  }

  ghost function Popping(m: MState, sub: SubId): MState
    requires HasBox(m, sub) && Box(m, sub).queue.items != []
  {
    SetBox(m, sub, Box(m, sub).(queue := Box(m, sub).queue.(items := Box(m, sub).queue.items[1..])))
  }

  lemma PopStep(m: MState, sub: SubId)
    requires BoxesOk(m) && HasBox(m, sub) && Box(m, sub).queue.items != []
    ensures BoxesStep(m, Popping(m, sub), sub)
    ensures forall s :: HasBox(m, s) ==> Quiet(m, Popping(m, sub), {}, s)
  {
    var m' := Popping(m, sub);
    forall s | HasBox(m, s) ensures BoxStep(Box(m, s), Box(m', s)) {
      assert QueueInv(Box(m, s).queue);
      assert Shifted(Box(m, s).queue.items, Box(m', s).queue.items, if s == sub then 1 else 0);
    }
  }

  lemma PopKeeps(m: MState, sub: SubId, x: Pid)
    requires MInv(m) && HasBox(m, sub) && Box(m, sub).queue.items != []
    ensures MInv(Popping(m, sub)) && MailStep(m, Popping(m, sub), {}, x)
  {
    PopStep(m, sub);
    BoxesKeepInv(m, Popping(m, sub), sub);
    BoxesMailStep(m, Popping(m, sub), sub, {}, x);
  }

  lemma PlainPushStep(b: Mailbox, message: Message)
    requires QueueInv(b.queue) && message.ack.None? && b.pipe.NoPipe?
    ensures BoxStep(b, Pushing(b, message))
  {
    assert Shifted(b.queue.items, Pushing(b, message).queue.items, 0);
  }

  lemma PublishStep(m: MState, subs: set<SubId>, message: Message)
    requires BoxesOk(m) && message.ack.None?
    requires forall s :: s in subs ==> HasBox(m, s) && Box(m, s).pipe.NoPipe?
    ensures var (m', events) := PublishTo(m, subs, message);
      && BoxesStep(m, m', 0)
      && (forall s :: HasBox(m, s) ==> Quiet(m, m', events, s))
      && (forall e :: e in events ==> exists s :: ArmedWith(m, s, e))
  {
    var (m', events) := PublishTo(m, subs, message);
    forall s | HasBox(m, s) ensures BoxStep(Box(m, s), Box(m', s)) && Quiet(m, m', events, s) {
      if s in subs {
        PlainPushStep(Box(m, s), message);
        assert PushEvent(Box(m, s), message).Some? ==> PushEvent(Box(m, s), message).value in events;
      } else {
        assert Shifted(Box(m, s).queue.items, Box(m', s).queue.items, 0);
      }
    }
    forall e | e in events ensures exists s :: ArmedWith(m, s, e) {
      var s :| s in subs && PushEvent(Box(m, s), message) == Some(e);
      assert ArmedWith(m, s, e);
    }
  }

  /** Pushing one message without acknowledgement into several plain mailboxes. */
  lemma PublishKeeps(m: MState, subs: set<SubId>, message: Message, x: Pid)
    requires MInv(m) && message.ack.None?
    requires forall s :: s in subs ==> HasBox(m, s) && Box(m, s).pipe.NoPipe?
    ensures var (m', events) := PublishTo(m, subs, message);
      && MInv(m') && MailStep(m, m', events, x)
      && m' == m.(mailboxes := m'.mailboxes)
      && (forall s :: HasBox(m', s) <==> HasBox(m, s))
  {
    var (m', events) := PublishTo(m, subs, message);
    PublishStep(m, subs, message);
    BoxesKeepInv(m, m', 0);
    BoxesMailStep(m, m', 0, events, x);
  }

  lemma PublishToOne(m: MState, sub: SubId, message: Message)
    requires HasBox(m, sub)
    ensures PublishTo(m, {sub}, message) ==
      (SetBox(m, sub, Pushing(Box(m, sub), message)), OptionSet(PushEvent(Box(m, sub), message)))
  {
    var (m', events) := PublishTo(m, {sub}, message);
    assert m'.mailboxes == SetBox(m, sub, Pushing(Box(m, sub), message)).mailboxes;
    assert events == OptionSet(PushEvent(Box(m, sub), message));
  }

  lemma PlainPushKeeps(m: MState, sub: SubId, message: Message, x: Pid)
    requires MInv(m) && message.ack.None? && HasBox(m, sub) && Box(m, sub).pipe.NoPipe?
    ensures var m' := SetBox(m, sub, Pushing(Box(m, sub), message));
      MInv(m') && MailStep(m, m', OptionSet(PushEvent(Box(m, sub), message)), x)
  {
    PublishKeeps(m, {sub}, message, x);
    PublishToOne(m, sub, message);
  }

  lemma CounterKeeps(m: MState, x: Pid)
    requires MInv(m)
    ensures MInv(m.(nextAck := m.nextAck + 1)) && MailStep(m, m.(nextAck := m.nextAck + 1), {}, x)
  {
    var m' := m.(nextAck := m.nextAck + 1);
    forall s | HasBox(m, s) ensures BoxStep(Box(m, s), Box(m', s)) {
      assert QueueInv(Box(m, s).queue);
      assert Shifted(Box(m, s).queue.items, Box(m', s).queue.items, 0);
    }
    BoxesKeepInv(m, m', 0);
    BoxesMailStep(m, m', 0, {}, x);
  }

  // ----- Hanging up pipes -----

  lemma ConnectedSender(m: MState, s: SubId, pid: Pid)
    requires HasBox(m, s) && PipeOk(m, s)
    ensures Box(m, s).pipe == ConnectedTo(pid) && Box(m, s).queue.items != [] ==>
      exists a :: a in m.pending && m.pending[a].sender == pid
  {
    if Box(m, s).pipe == ConnectedTo(pid) && Box(m, s).queue.items != [] {
      assert Box(m, s).queue.items[0].ack.value in m.pending;
    }
  }

  lemma HangUpStep(m: MState, pid: Pid)
    requires BoxesOk(m) && PipesOk(m) && NotSending(m, pid)
    ensures var (m', events) := HangUpAll(m, pid);
      && BoxesStep(m, m', 0)
      && (forall s :: HasBox(m, s) ==> Quiet(m, m', events, s))
      && (forall e :: e in events ==> exists s :: ArmedWith(m, s, e))
  {
    var (m', events) := HangUpAll(m, pid);
    forall s | HasBox(m, s) ensures BoxStep(Box(m, s), Box(m', s)) && Quiet(m, m', events, s) {
      assert QueueInv(Box(m, s).queue) && PipeOk(m, s);
      var items := Box(m, s).queue.items;
      ConnectedSender(m, s, pid);
      assert Shifted(items, Box(m', s).queue.items, 0);
    }
    forall e | e in events ensures exists s :: ArmedWith(m, s, e) {
      var s :| s in m.mailboxes && HasBox(m, s) && Box(m, s).queue.event == Some(e);
      assert ArmedWith(m, s, e);
    }
  }

  lemma HangUpKeeps(m: MState, pid: Pid)
    requires MInv(m) && NotSending(m, pid)
    ensures var (m', events) := HangUpAll(m, pid);
      && MInv(m') && MailStep(m, m', events, pid) && m' == m.(mailboxes := m'.mailboxes)
      && (forall s :: HasBox(m', s) ==> HasBox(m, s) && Box(m', s).pipe != ConnectedTo(pid))
  {
    var (m', events) := HangUpAll(m, pid);
    HangUpStep(m, pid);
    BoxesKeepInv(m, m', 0);
    BoxesMailStep(m, m', 0, events, pid);
  }
}
