/** The scheduler queues as the kernel keeps them: updated in place, one operation at a time. */
module LiveQueues {
  import opened Common
  import opened Waits
  import opened Queues

  class SchedulerQueues {
    var ready: seq<Pid>
    var waiting: map<WaitId, Pid>
    var nextWait: WaitId
    var sleeping: seq<(Instant, WaitId)>
    var onProcess: map<Pid, set<WaitId>>
    var onEvent: map<EventId, set<WaitId>>

    constructor ()
      ensures View() == QState([], map[], 0, [], map[], map[])
    {
      ready, waiting, nextWait, sleeping, onProcess, onEvent := [], map[], 0, [], map[], map[];
    }

    ghost function View(): QState
      reads this
    {
      QState(ready, waiting, nextWait, sleeping, onProcess, onEvent)
    }

    method Exists(p: Pid) returns (found: bool)
      ensures found <==> ProcessExists(View(), p)
    {
      found := p in ready || p in waiting.Values;
      assert p in waiting.Values <==> Blocked(View(), p);
    }

    /** Drops a wait whose process is already gone; otherwise minimises it. */
    method ReduceFor(current: Pid, s: WaitFor) returns (r: WaitFor)
      requires Flat(s)
      ensures r == ReduceQueues(View(), current, s)
    {
      if s.Process? {
        var found := Exists(s.pid);
        if current != s.pid && !found { return WaitFor.None; }
      } else if s.FirstOf? {
        for i := 0 to |s.options|
          invariant forall j :: 0 <= j < i && s.options[j].Process? ==> !ProcessDone(View(), current, s.options[j].pid)
        {
          if s.options[i].Process? {
            var found := Exists(s.options[i].pid);
            if current != s.options[i].pid && !found { return WaitFor.None; }
          }
        }
      }
      r := ReduceInPlace(s);
    }

    /** A waited-for process that is already gone, if there is one. */
    method TryResolve(current: Pid, s: WaitFor) returns (gone: Option<Pid>)
      requires Flat(s)
      ensures gone.Some? <==> Resolved(View(), current, s)
      ensures gone.Some? ==> ProcessDone(View(), current, gone.value) && Process(gone.value) in Atoms(s)
    {
      if s.Process? {
        var found := Exists(s.pid);
        if current != s.pid && !found { return Some(s.pid); }
      } else if s.FirstOf? {
        for i := 0 to |s.options|
          invariant forall j :: 0 <= j < i && s.options[j].Process? ==> !ProcessDone(View(), current, s.options[j].pid)
        {
          if s.options[i].Process? {
            var found := Exists(s.options[i].pid);
            if current != s.options[i].pid && !found { return Some(s.options[i].pid); }
          }
        }
      }
      gone := Option.None;
    }

    method PriorityIndex(t: Instant) returns (i: nat)
      ensures i == SleepIndex(sleeping, t)
    {
      i := 0;
      while i < |sleeping|
        invariant i <= |sleeping|
        invariant SleepIndex(sleeping, t) == i + SleepIndex(sleeping[i..], t)
      {
        if sleeping[i].0 > t { return; }
        assert sleeping[i..][1..] == sleeping[i + 1..];
        i := i + 1;
      }
    }

    method GiveInner(s: WaitFor, w: WaitId)
      requires Atomic(s)
      modifies this
      ensures View() == Register(old(View()), s, w)
    {
      match s
      case Time(t) =>
        var i := PriorityIndex(t);
        sleeping := sleeping[..i] + [(t, w)] + sleeping[i..];
      case Process(p) =>
        onProcess := onProcess[p := (if p in onProcess then onProcess[p] else {}) + {w}];
      case Event(e) =>
        onEvent := onEvent[e := (if e in onEvent then onEvent[e] else {}) + {w}];
    }

    /** Makes the process ready, or parks it under a fresh wait id. */
    method Accept(pid: Pid, s: WaitFor)
      requires Flat(s)
      modifies this
      ensures View() == Give(old(View()), pid, s)
    {
      var r := ReduceFor(pid, s);
      if r.None? {
        ready := ready + [pid];
        return;
      }
      ReducedAtomsSafe(s);
      assert forall i :: 0 <= i < |Atoms(r)| ==> Atomic(Atoms(r)[i]);
      var w := nextWait;
      waiting, nextWait := waiting[w := pid], w + 1;
      label start:
      assert View() == CreateWait(old(View()), pid);
      if r.FirstOf? {
        assert Atoms(r) == r.options;
        for i := 0 to |r.options|
          invariant View() == RegisterAll(old@start(View()), r.options[..i], w)
        {
          assert r.options[..i + 1][..i] == r.options[..i];
          GiveInner(r.options[i], w);
        }
        assert r.options[..|r.options|] == r.options;
      } else {
        assert Atoms(r) == [r] && Atomic(Atoms(r)[0]) && [r][..0] == [];
        assert RegisterAll(View(), [r][..0], w) == View();
        GiveInner(r, w);
        assert View() == RegisterAll(old@start(View()), [r], w);
      }
    }

    method Take() returns (pid: Option<Pid>)
      modifies this
      ensures old(ready) == [] ==> pid.None? && View() == old(View())
      ensures old(ready) != [] ==> pid == Some(old(ready)[0]) && View() == old(View()).(ready := old(ready)[1..])
    {
      if ready == [] { return Option.None; }
      pid := Some(ready[0]);
      ready := ready[1..];
    }

    method TriggerWait(w: WaitId)
      modifies this
      ensures View() == Trigger(old(View()), w)
    {
      if w in waiting {
        var pid := waiting[w];
        waiting := waiting - {w};
        ready := [pid] + ready;
      }
    }

    /** Triggers a set of wait ids, in any order. */
    method TriggerSet(ids: set<WaitId>)
      modifies this
      ensures Woken(old(View()), ids, View())
      ensures View() == old(View()).(ready := ready, waiting := waiting)
    {
      var rest := ids;
      WokenNone(View());
      while rest != {}
        invariant rest <= ids
        invariant Woken(old(View()), ids - rest, View())
        invariant View() == old(View()).(ready := ready, waiting := waiting)
      {
        var w :| w in rest;
        ghost var before := View();
        TriggerWait(w);
        TriggerWakes(before, w);
        WokenCompose(old(View()), ids - rest, before, {w}, View());
        assert (ids - rest) + {w} == ids - (rest - {w});
        rest := rest - {w};
      }
      assert ids - {} == ids;
    }

    method OnTick(now: Instant)
      modifies this
      ensures View() == AfterTick(old(View()), now)
    {
      while sleeping != [] && sleeping[0].0 <= now
        invariant AfterTick(View(), now) == AfterTick(old(View()), now)
        decreases |sleeping|
      {
        var w := sleeping[0].1;
        sleeping := sleeping[1..];
        TriggerWait(w);
      }
    }

    method RemoveReady(p: Pid)
      modifies this
      ensures View() == old(View()).(ready := RemoveFirst(old(ready), p))
    {
      var i := 0;
      while i < |ready| && ready[i] != p
        invariant i <= |ready|
        invariant forall j :: 0 <= j < i ==> ready[j] != p
      {
        i := i + 1;
      }
      RemoveFirstAt(ready, p, i);
      if i < |ready| { ready := ready[..i] + ready[i + 1..]; }
    }

    method OnProcessOver(completed: Pid)
      modifies this
      ensures ProcessOver(old(View()), completed, View())
    {
      RemoveReady(completed);
      if completed in onProcess {
        var ids := onProcess[completed];
        onProcess := onProcess - {completed};
        TriggerSet(ids);
      } else {
        assert onProcess - {completed} == onProcess;
        WokenNone(View());
      }
    }

    method OnExplicitEvent(e: EventId)
      modifies this
      ensures EventsFired(old(View()), {e}, View())
    {
      ghost var q := View();
      if e in onEvent {
        var ids := onEvent[e];
        assert ids == Waiters(q, {e});
        onEvent := onEvent - {e};
        TriggerSet(ids);
      } else {
        assert Waiters(q, {e}) == {};
        assert onEvent - {e} == onEvent;
        WokenNone(q);
      }
    }

    /** Triggers every event of a result, in any order (`consume_events`). */
    method ConsumeEvents(events: set<EventId>)
      modifies this
      ensures EventsFired(old(View()), events, View())
    {
      var rest := events;
      FiredNone(View());
      while rest != {}
        invariant rest <= events
        invariant EventsFired(old(View()), events - rest, View())
      {
        var e :| e in rest;
        ghost var before := View();
        OnExplicitEvent(e);
        FiredCompose(old(View()), events - rest, before, {e}, View());
        assert (events - rest) + {e} == events - (rest - {e});
        rest := rest - {e};
      }
      assert events - {} == events;
    }
  }
}
