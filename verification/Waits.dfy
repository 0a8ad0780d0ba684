/** Scheduling conditions: what a process waits for, and how the scheduler minimises it. */
module Waits {
  import opened Common

  datatype WaitFor =
    | None
    | Time(instant: Instant)
    | Process(pid: Pid)
    | Event(event: EventId)
    | FirstOf(options: seq<WaitFor>)

  /** What can end a wait. */
  datatype Occurrence = Ticked(now: Instant) | Exited(pid: Pid) | Triggered(event: EventId)

  predicate Atomic(s: WaitFor) {
    s.Time? || s.Process? || s.Event?
  }

  /** The kernel panics on `None` or a nested list inside `FirstOf`. */
  predicate Flat(s: WaitFor) {
    s.FirstOf? ==> forall i :: 0 <= i < |s.options| ==> Atomic(s.options[i])
  }

  /** Does this occurrence end the wait? */
  predicate Meets(s: WaitFor, o: Occurrence)
    decreases s
  {
    match s
    case None => true
    case Time(t) => o.Ticked? && t <= o.now
    case Process(p) => o == Exited(p)
    case Event(e) => o == Triggered(e)
    case FirstOf(options) => exists i :: 0 <= i < |options| && Meets(options[i], o)
  }

  // ----- reduce -----

  function NotTimes(options: seq<WaitFor>): seq<WaitFor> {
    if options == [] then []
    else
      var init := NotTimes(options[..|options| - 1]);
      var last := options[|options| - 1];
      if last.Time? then init else init + [last]
  }

  function Earliest(options: seq<WaitFor>): Option<Instant> {
    if options == [] then Option.None
    else
      var init := Earliest(options[..|options| - 1]);
      var last := options[|options| - 1];
      if last.Time? && (init.None? || last.instant < init.value) then Some(last.instant) else init
  }

  /** Other conditions in order, then the earliest time if there was one. */
  function Merged(options: seq<WaitFor>): seq<WaitFor> {
    NotTimes(options) + (match Earliest(options) case None => [] case Some(t) => [Time(t)])
  }

  function Reduce(s: WaitFor): WaitFor {
    if !s.FirstOf? then s
    else
      var merged := Merged(s.options);
      if merged == [] then WaitFor.None else if |merged| == 1 then merged[0] else FirstOf(merged)
  }

  /** The conditions to register for a reduced wait. */
  function Atoms(s: WaitFor): seq<WaitFor> {
    if s.None? then [] else if s.FirstOf? then s.options else [s]
  }

  method ReduceInPlace(s: WaitFor) returns (r: WaitFor)
    requires Flat(s)
    ensures r == Reduce(s)
  {
    if !s.FirstOf? { return s; }
    var kept, earliest := [], Option<Instant>.None;
    for i := 0 to |s.options|
      invariant kept == NotTimes(s.options[..i])
      invariant earliest == Earliest(s.options[..i])
    {
      assert s.options[..i + 1][..i] == s.options[..i];
      var e := s.options[i];
      if e.Time? {
        if earliest.None? || e.instant < earliest.value { earliest := Some(e.instant); }
      } else {
        kept := kept + [e];
      }
    }
    assert s.options[..|s.options|] == s.options;
    if earliest.Some? { kept := kept + [Time(earliest.value)]; }
    if kept == [] { return WaitFor.None; }
    if |kept| == 1 { return kept[0]; }
    return FirstOf(kept);
  }

  lemma {:induction false} MergedParts(options: seq<WaitFor>)
    requires forall i :: 0 <= i < |options| ==> Atomic(options[i])
    ensures forall s :: s in NotTimes(options) <==> s in options && !s.Time?
    ensures match Earliest(options)
      case None => forall s :: s in options ==> !s.Time?
      case Some(t) => Time(t) in options && forall s :: s in options && s.Time? ==> t <= s.instant
  {
    if options != [] {
      var init, last := options[..|options| - 1], options[|options| - 1];
      MergedParts(init);
      assert options == init + [last];
    }
  }

  lemma MergedMeets(options: seq<WaitFor>, o: Occurrence)
    requires forall i :: 0 <= i < |options| ==> Atomic(options[i])
    ensures (exists s :: s in Merged(options) && Meets(s, o)) <==> (exists s :: s in options && Meets(s, o))
    ensures forall i :: 0 <= i < |Merged(options)| ==> Atomic(Merged(options)[i])
    ensures options != [] ==> Merged(options) != []
    ensures forall i :: 0 <= i < |Merged(options)| - 1 ==> !Merged(options)[i].Time?
  {
    MergedParts(options);
    var m := Merged(options);
    assert forall i :: 0 <= i < |NotTimes(options)| ==> m[i] == NotTimes(options)[i] && m[i] in NotTimes(options);
    forall s | s in options && Meets(s, o) ensures exists s' :: s' in m && Meets(s', o) {
      if s.Time? {
        assert Time(Earliest(options).value) in m;
      } else {
        assert s in m;
      }
    }
    if options != [] { assert options[0] in options; }
  }

  /** What is left to register: atomic conditions, at most one of them a time. */
  lemma ReducedAtoms(s: WaitFor)
    requires Flat(s) && s != FirstOf([])
    ensures Flat(Reduce(s)) && (Reduce(s).None? <==> s.None?)
    ensures s.FirstOf? ==> Atoms(Reduce(s)) == Merged(s.options)
    ensures forall i :: 0 <= i < |Atoms(Reduce(s))| ==> Atomic(Atoms(Reduce(s))[i])
    ensures forall i :: 0 <= i < |Atoms(Reduce(s))| - 1 ==> !Atoms(Reduce(s))[i].Time?
  {
    if s.FirstOf? {
      MergedMeets(s.options, Triggered(0));
      var m := Merged(s.options);
      assert Atoms(Reduce(s)) == m by { if |m| == 1 { assert [m[0]] == m; } }
    }
  }

  /**
   * Reducing keeps the first-of meaning of every wait but the empty list, and registering the
   * reduced conditions one by one has that same meaning.
   */
  lemma ReduceMeaning(s: WaitFor, o: Occurrence)
    requires Flat(s) && s != FirstOf([])
    ensures Meets(Reduce(s), o) <==> Meets(s, o)
    ensures !s.None? ==> (Meets(s, o) <==> exists a :: a in Atoms(Reduce(s)) && Meets(a, o))
  {
    if s.FirstOf? {
      ReducedAtoms(s);
      MergedMeets(s.options, o);
      ListMeets(s.options, o);
      var m := Merged(s.options);
      if |m| > 1 { ListMeets(m, o); } else { assert m == [m[0]]; }
    } else if !s.None? {
      assert s in Atoms(s);
    }
  }

  lemma ListMeets(options: seq<WaitFor>, o: Occurrence)
    ensures Meets(FirstOf(options), o) <==> exists s :: s in options && Meets(s, o)
  {
    if Meets(FirstOf(options), o) {
      var i :| 0 <= i < |options| && Meets(options[i], o);
      assert options[i] in options;
    }
  }

  /** The empty list is the one list whose meaning reducing changes: nothing ends it, yet it reduces to "run now". */
  lemma EmptyListRunsNow(o: Occurrence)
    ensures !Meets(FirstOf([]), o) && Reduce(FirstOf([])).None?
  {
  }
}
