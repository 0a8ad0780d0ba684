/** Domain names in DNS messages, with compression (section 4.1.4 of RFC 1035). */
module Names {
  import opened Common
  import opened Bytes

  const DOT: Byte := 46
  const MAX_LABEL: nat := 64

  // ----- Names as text and as labels -----

  function Join(labels: seq<Text>): Text {
    if labels == [] then []
    else if |labels| == 1 then labels[0]
    else Join(labels[..|labels| - 1]) + [DOT] + labels[|labels| - 1]
  }

  function Split(d: Text): (labels: seq<Text>)
    ensures labels != []
  {
    if d == [] then [[]]
    else
      var front := Split(d[..|d| - 1]);
      var last := d[|d| - 1];
      if last == DOT then front + [[]]
      else front[|front| - 1 := front[|front| - 1] + [last]]
  }

  /** Splitting at the dots and joining with dots gives the name back. */
  lemma {:induction false} JoinSplit(d: Text)
    ensures Join(Split(d)) == d
  {
    if d != [] {
      var front, last := Split(d[..|d| - 1]), d[|d| - 1];
      JoinSplit(d[..|d| - 1]);
      hide Join;
      if last == DOT { JoinEmpty(front); } else { JoinLonger(front, last); }
      assert d == d[..|d| - 1] + [last];
    }
  }

  lemma JoinEmpty(front: seq<Text>)
    requires front != []
    ensures Join(front + [[]]) == Join(front) + [DOT]
  {
    var now := front + [[]];
    assert now[..|front|] == front;
    assert Join(now) == Join(front) + [DOT] + [];
  }

  lemma JoinLonger(front: seq<Text>, last: Byte)
    requires front != []
    ensures var n := |front| - 1; Join(front[n := front[n] + [last]]) == Join(front) + [last]
  {
    var n := |front| - 1;
    var now := front[n := front[n] + [last]];
    assert now[..n] == front[..n];
    if n > 0 {
      var head := Join(front[..n]) + [DOT];
      assert Join(now) == head + (front[n] + [last]) && Join(front) == head + front[n];
      assert head + (front[n] + [last]) == head + front[n] + [last];
    }
  }

  lemma {:induction false} SplitMore(d: Text, part: Text)
    requires DOT !in part
    ensures Split(d + [DOT] + part) == Split(d) + [part]
  {
    var all, n := d + [DOT] + part, |part| - 1;
    if part == [] { assert all[..|all| - 1] == d; }
    else {
      SplitMore(d, part[..n]);
      assert all[..|all| - 1] == d + [DOT] + part[..n] && all[|all| - 1] == part[n];
      assert part[..n] + [part[n]] == part;
    }
  }

  lemma {:induction false} SplitOne(part: Text)
    requires DOT !in part
    ensures Split(part) == [part]
  {
    if part != [] {
      SplitOne(part[..|part| - 1]);
      assert part[..|part| - 1] + [part[|part| - 1]] == part;
    }
  }

  lemma JoinNext(front: seq<Text>, last: Text)
    requires front != []
    ensures Join(front + [last]) == Join(front) + [DOT] + last
  {
    assert (front + [last])[..|front|] == front;
  }

  lemma SplitNext(front: seq<Text>, last: Text)
    requires front != [] && DOT !in last && Split(Join(front)) == front
    ensures Split(Join(front + [last])) == front + [last]
  {
    hide Join, Split;
    JoinNext(front, last);
    SplitMore(Join(front), last);
  }

  /** And the other way round, for labels without dots. */
  lemma {:induction false} SplitJoin(labels: seq<Text>)
    requires labels != [] && forall i :: 0 <= i < |labels| ==> DOT !in labels[i]
    ensures Split(Join(labels)) == labels
  {
    var n := |labels| - 1;
    if n == 0 { SplitOne(labels[0]); }
    else {
      hide Join, Split;
      SplitJoin(labels[..n]);
      SplitNext(labels[..n], labels[n]);
      assert labels == labels[..n] + [labels[n]];
    }
  }

  // ----- Names as bytes -----

  /** Labels the encoder accepts: not empty, ASCII, shorter than 64. */
  predicate Plain(part: Text) {
    0 < |part| < MAX_LABEL && forall i :: 0 <= i < |part| ==> part[i] < 128
  }

  predicate AllPlain(labels: seq<Text>) {
    forall i :: 0 <= i < |labels| ==> Plain(labels[i])
  }

  function LabelBytes(labels: seq<Text>): Text
    requires AllPlain(labels)
  {
    if labels == [] then []
    else LabelBytes(labels[..|labels| - 1]) + [|labels[|labels| - 1]|] + labels[|labels| - 1]
  }

  /** What a reader passes through: labels, a jump, or the end. */
  datatype Trail = Stop | Take(part: Text, rest: Trail) | Jump(target: nat, rest: Trail)

  /** The trail is there: jumps may follow labels at any depth, but no jump leads to another one. */
  ghost predicate Reads(data: Text, index: nat, trail: Trail)
    decreases trail
  {
    match trail
    case Stop => index < |data| && data[index] == 0
    case Take(part, rest) =>
      && index < |data| && 0 < data[index] < MAX_LABEL && |part| == data[index]
      && index + 1 + |part| <= |data| && data[index + 1..index + 1 + |part|] == part
      && Reads(data, index + 1 + |part|, rest)
    case Jump(target, rest) =>
      && index + 1 < |data| && data[index] >= MAX_LABEL && !rest.Jump?
      && target == FromBe(data[index..index + 2]) % 0x4000
      && Reads(data, target, rest)
  }

  function Labels(trail: Trail): seq<Text> {
    match trail
    case Stop => []
    case Take(part, rest) => [part] + Labels(rest)
    case Jump(_, rest) => Labels(rest)
  }

  /** Bytes up to the end of the name at its own place. */
  function Span(trail: Trail): nat {
    match trail
    case Stop => 1
    case Take(part, rest) => 1 + |part| + Span(rest)
    case Jump(_, _) => 2
  }

  /** The bytes determine the trail. */
  lemma {:induction false} TrailUnique(data: Text, index: nat, a: Trail, b: Trail)
    requires Reads(data, index, a) && Reads(data, index, b)
    ensures a == b
    decreases a
  {
    match a
    case Stop =>
    case Take(part, rest) => TrailUnique(data, index + 1 + |part|, rest, b.rest);
    case Jump(target, rest) => TrailUnique(data, target, rest, b.rest);
  }

  // ----- Reading -----

  function Append(name: Text, part: Text): Text {
    if name == [] then part else name + [DOT] + part
  }

  /** A name continued with the labels of a trail. */
  function Continued(name: Text, trail: Trail): Text
    decreases trail
  {
    match trail
    case Stop => name
    case Take(part, rest) => Continued(Append(name, part), rest)
    case Jump(_, rest) => Continued(name, rest)
  }

  lemma {:induction false} ContinuedJoins(data: Text, index: nat, trail: Trail, before: seq<Text>)
    requires Reads(data, index, trail) && forall i :: 0 <= i < |before| ==> before[i] != []
    ensures Continued(Join(before), trail) == Join(before + Labels(trail))
    decreases trail
  {
    hide Join, Append, FromBe;
    match trail
    case Stop => assert before + [] == before;
    case Take(part, rest) =>
      JoinMore(before, part);
      ContinuedJoins(data, index + 1 + |part|, rest, before + [part]);
      assert before + [part] + Labels(rest) == before + Labels(trail);
    case Jump(target, rest) => ContinuedJoins(data, target, rest, before);
  }

  lemma {:induction false} JoinMore(before: seq<Text>, part: Text)
    requires forall i :: 0 <= i < |before| ==> before[i] != []
    ensures Join(before + [part]) == Append(Join(before), part)
  {
    assert (before + [part])[..|before|] == before;
    if before != [] { assert Join(before) != []; }
  }

  /** One step along a trail, seen from the bytes. */
  lemma Here(data: Text, index: nat, trail: Trail, name: Text)
    requires Reads(data, index, trail)
    ensures index < |data| && (trail.Jump? <==> data[index] >= MAX_LABEL) && (trail.Stop? <==> data[index] == 0)
    ensures trail.Stop? ==> Continued(name, trail) == name && Span(trail) == 1
    ensures trail.Take? ==>
      && index + 1 + data[index] <= |data| && data[index + 1..index + 1 + data[index]] == trail.part
      && Reads(data, index + 1 + data[index], trail.rest)
      && Continued(name, trail) == Continued(Append(name, trail.part), trail.rest)
      && Span(trail) == 1 + data[index] + Span(trail.rest)
    ensures trail.Jump? ==>
      && index + 2 <= |data| && !trail.rest.Jump? && Reads(data, FromBe(data[index..index + 2]) % 0x4000, trail.rest)
      && Continued(name, trail) == Continued(name, trail.rest) && Span(trail) == 2
  {
    hide FromBe, Append;
  }

  /** What one round of the loop has done: one label, or the end, behind at most one jump. */
  ghost predicate Stepped(data: Text, trail: Trail, name: Text, used: nat, compressed: bool,
      at: nat, rest: Trail, name': Text, used': nat, compressed': bool, done: bool) {
    && (if done then rest.Stop? else Reads(data, at, rest))
    && Continued(name', rest) == Continued(name, trail)
    && (compressed ==> compressed' && used' == used)
    && (!compressed && compressed' ==> used' == used + Span(trail))
    && (!compressed' ==> used' + (if done then 0 else Span(rest)) == used + Span(trail))
  }

  // ----- Rounds of the loop on any bytes -----

  /** What a round meets: the end of the name, bytes it panics on, or a label and the place behind it. */
  datatype Met = Ends | Panics | Goes(next: nat)

  function Round(data: Text, index: nat): Met {
    if index >= |data| then Panics
    else if data[index] < MAX_LABEL then Label(data, index)
    else if index + 1 >= |data| then Panics
    else Label(data, Target(data, index))
  }

  function Target(data: Text, index: nat): nat
    requires index + 1 < |data|
  {
    FromBe(data[index..index + 2]) % 0x4000
  }

  function Label(data: Text, at: nat): Met {
    if at >= |data| || data[at] >= MAX_LABEL then Panics
    else if data[at] == 0 then Ends
    else if at + 1 + data[at] > |data| then Panics
    else Goes(at + 1 + data[at])
  }

  datatype Progress = At(index: nat) | Ended | Crashed

  function Rounds(data: Text, index: nat, n: nat): Progress
    decreases n
  {
    if n == 0 then At(index)
    else
      match Round(data, index)
      case Ends => Ended
      case Panics => Crashed
      case Goes(next) => Rounds(data, next, n - 1)
  }

  ghost predicate Readable(data: Text, start: nat) {
    exists trail :: Reads(data, start, trail)
  }

  /** A trail is what a round can follow. */
  lemma RoundReads(data: Text, index: nat, trail: Trail)
    requires Reads(data, index, trail)
    ensures !Round(data, index).Panics?
    ensures Round(data, index).Ends? ==> trail.Stop? || (trail.Jump? && trail.rest.Stop?)
    ensures Round(data, index).Goes? ==> exists rest :: Reads(data, Round(data, index).next, rest) && rest < trail
  {
    hide FromBe;
    if trail.Jump? {
      if trail.rest.Take? { assert Reads(data, trail.target + 1 + |trail.rest.part|, trail.rest.rest); }
    } else if trail.Take? {
      assert Reads(data, index + 1 + |trail.part|, trail.rest);
    }
  }

  lemma {:induction false} ReadableEnds(data: Text, index: nat, trail: Trail) returns (n: nat)
    requires Reads(data, index, trail)
    ensures Rounds(data, index, n).Ended?
    decreases trail
  {
    hide Reads;
    RoundReads(data, index, trail);
    if Round(data, index).Ends? { n := 1; }
    else {
      var rest :| Reads(data, Round(data, index).next, rest) && rest < trail;
      n := ReadableEnds(data, Round(data, index).next, rest);
      n := n + 1;
    }
  }

  /** One label, or the end, in front of a trail. */
  lemma LabelReads(data: Text, at: nat, rest: Trail)
    requires Label(data, at).Goes? ==> Reads(data, Label(data, at).next, rest)
    ensures Label(data, at).Goes? ==> Reads(data, at, Take(data[at + 1..at + 1 + data[at]], rest))
    ensures Label(data, at).Ends? ==> Reads(data, at, Stop)
  {
  }

  lemma {:induction false} EndsReadable(data: Text, index: nat, n: nat) returns (trail: Trail)
    requires Rounds(data, index, n).Ended?
    ensures Reads(data, index, trail)
    decreases n
  {
    hide FromBe;
    var rest := Stop;
    if Round(data, index).Goes? { rest := EndsReadable(data, Round(data, index).next, n - 1); }
    var at := if data[index] < MAX_LABEL then index else Target(data, index);
    LabelReads(data, at, rest);
    trail := if Label(data, at).Ends? then Stop else Take(data[at + 1..at + 1 + data[at]], rest);
    if data[index] >= MAX_LABEL { trail := Jump(at, trail); }
  }

  lemma {:induction false} RoundsAdd(data: Text, index: nat, a: nat, b: nat)
    ensures Rounds(data, index, a + b) ==
      match Rounds(data, index, a) case At(i) => Rounds(data, i, b) case Ended => Ended case Crashed => Crashed
    decreases a
  {
    if a > 0 && Round(data, index).Goes? { RoundsAdd(data, Round(data, index).next, a - 1, b); }
  }

  lemma StillAt(data: Text, index: nat, a: nat, b: nat)
    requires Rounds(data, index, b).At? && a <= b
    ensures Rounds(data, index, a).At?
  {
    RoundsAdd(data, index, a, b - a);
  }

  /** Coming back to the same place means going on forever. */
  lemma {:induction false} CycleNeverEnds(data: Text, index: nat, d: nat, n: nat)
    requires d > 0 && Rounds(data, index, d) == At(index)
    ensures Rounds(data, index, n).At?
    decreases n
  {
    if n <= d { StillAt(data, index, n, d); }
    else {
      RoundsAdd(data, index, d, n - d);
      CycleNeverEnds(data, index, d, n - d);
    }
  }

  lemma {:induction false} TooManyPlaces(places: seq<nat>, bound: nat)
    requires (forall i :: 0 <= i < |places| ==> places[i] < bound) && NoDup(places)
    ensures |places| <= bound
    decreases bound
  {
    if places != [] {
      assert places[0] < bound;
      if bound - 1 in places {
        var i :| 0 <= i < |places| && places[i] == bound - 1;
        TooManyPlaces(places[..i] + places[i + 1..], bound - 1);
      } else {
        forall i | 0 <= i < |places| ensures places[i] < bound - 1 { assert places[i] in places; }
        TooManyPlaces(places, bound - 1);
      }
    }
  }

  /** A reader that makes more rounds than there are bytes is in some place twice. */
  lemma ComesBack(data: Text, start: nat) returns (i: nat, j: nat)
    requires Rounds(data, start, |data| + 1).At?
    ensures i < j && Rounds(data, start, i).At? && Rounds(data, start, j) == Rounds(data, start, i)
  {
    hide Rounds, Round;
    forall i | 0 <= i <= |data| ensures Rounds(data, start, i).At? && Rounds(data, start, i).index < |data| {
      StillAt(data, start, i, |data| + 1);
      StillAt(data, start, i + 1, |data| + 1);
      RoundsAdd(data, start, i, 1);
      OneRound(data, Rounds(data, start, i).index);
    }
    var places := seq(|data| + 1, i requires 0 <= i <= |data| => Rounds(data, start, i).index);
    if NoDup(places) { TooManyPlaces(places, |data|); }
    i, j :| 0 <= i < j < |places| && places[i] == places[j];
  }

  lemma OneRound(data: Text, index: nat)
    requires Rounds(data, index, 1).At?
    ensures index < |data|
  {
  }

  /** A reader that is not done after one round more than there are bytes never will be. */
  lemma NeverEnds(data: Text, start: nat, n: nat)
    requires Rounds(data, start, |data| + 1).At?
    ensures Rounds(data, start, n).At?
  {
    hide Rounds;
    var i, j := ComesBack(data, start);
    RoundsAdd(data, start, i, j - i);
    if n < i { StillAt(data, start, n, i); }
    else {
      CycleNeverEnds(data, Rounds(data, start, i).index, j - i, n - i);
      RoundsAdd(data, start, i, n - i);
    }
  }

  lemma EndedForGood(data: Text, start: nat, a: nat, b: nat)
    requires !Rounds(data, start, a).At? && !Rounds(data, start, b).At?
    ensures Rounds(data, start, a) == Rounds(data, start, b)
  {
    RoundsAdd(data, start, a, b);
    RoundsAdd(data, start, b, a);
  }

  /** The reader returns exactly on names that have a trail; otherwise it panics or goes on forever. */
  lemma ReturnsIff(data: Text, start: nat, n: nat)
    ensures Rounds(data, start, n).Ended? ==> Readable(data, start)
    ensures Rounds(data, start, n).Crashed? ==> !Readable(data, start)
    ensures Rounds(data, start, |data| + 1).At? ==> !Readable(data, start)
  {
    hide Round, Reads;
    if Rounds(data, start, n).Ended? { var trail := EndsReadable(data, start, n); }
    if trail :| Reads(data, start, trail) {
      var m := ReadableEnds(data, start, trail);
      if Rounds(data, start, |data| + 1).At? { NeverEnds(data, start, m); }
      else if !Rounds(data, start, n).At? { EndedForGood(data, start, n, m); }
    }
  }

  /** A name that jumps back into itself: one label, then a jump to that label. */
  lemma CircularName(n: nat)
    ensures Rounds([1, 97, 0xc0, 0], 0, n).At?
  {
    var data: Text := [1, 97, 0xc0, 0];
    assert data[2..4] == [0xc0, 0];
    assert FromBe([0xc0, 0]) == 0xc000 by { assert FromBe([0xc0]) == 0xc0 && [0xc0, 0][..1] == [0xc0]; }
    assert Round(data, 0) == Goes(2) && Round(data, 2) == Goes(2);
    assert Rounds(data, 2, 1) == At(2) by { assert Rounds(data, 2, 0) == At(2); }
    if n > 0 { CycleNeverEnds(data, 2, 1, n - 1); }
  }

  // ----- The reader -----

  /** One round; along a trail, if there is one, it keeps to the trail. */
  method ReadRound(data: Text, index: nat, name: Text, used: nat, compressed: bool, ghost trail: Trail)
      returns (at: nat, name': Text, used': nat, compressed': bool, done: bool, ghost rest: Trail)
    requires !Round(data, index).Panics?
    ensures done <==> Round(data, index).Ends?
    ensures !done ==> Round(data, index) == Goes(at)
    ensures Reads(data, index, trail) ==>
      Stepped(data, trail, name, used, compressed, at, rest, name', used', compressed', done)
  {
    hide Reads, Continued, Span, Append, FromBe;
    var jumped;
    at, jumped, rest := FollowJump(data, index, trail, name);
    compressed' := compressed || jumped;
    used' := if jumped && !compressed then used + 2 else used;
    var len := data[at];
    done := len == 0;
    name' := if done then name else Append(name, data[at + 1..at + 1 + len]);
    if !compressed' { used' := used' + 1 + len; }
    if Reads(data, index, trail) { Here(data, at, rest, name); }
    at := at + 1 + len;
    if done { StopsHere(name); rest := Stop; } else if rest.Take? { rest := rest.rest; }
  }

  method FollowJump(data: Text, index: nat, ghost trail: Trail, ghost name: Text)
      returns (at: nat, jumped: bool, ghost rest: Trail)
    requires !Round(data, index).Panics?
    ensures Round(data, index) == Label(data, at)
    ensures Reads(data, index, trail) ==>
      && Reads(data, at, rest) && !rest.Jump? && Continued(name, rest) == Continued(name, trail)
      && (jumped <==> trail.Jump?)
      && if jumped then rest == trail.rest && Span(trail) == 2 else at == index && rest == trail
  {
    if Reads(data, index, trail) { Here(data, index, trail, name); }
    hide Reads, Continued, Span, FromBe;
    jumped := data[index] >= MAX_LABEL;
    at, rest := index, trail;
    if jumped {
      at := Target(data, index);
      if trail.Jump? { rest := trail.rest; }
    }
  }

  /** A name and the bytes it takes; or the original panics, or it never returns. */
  datatype NameRead = Name(name: Text, used: nat) | Malformed | Endless

  /**
   * Reads a name from any bytes. The original does not count its rounds; the count only tells here
   * when it goes round in circles.
   */
  method ReadName(start: nat, data: Text) returns (r: NameRead)
    ensures r.Name? <==> Readable(data, start)
    ensures forall trail :: Reads(data, start, trail) ==> r == Name(Join(Labels(trail)), Span(trail))
    ensures r.Malformed? <==> exists n :: Rounds(data, start, n).Crashed?
    ensures r.Endless? <==> forall n :: Rounds(data, start, n).At?
  {
    hide Reads, Continued, Span, Labels, Join, Round;
    ghost var trail: Trail := Stop;
    if Readable(data, start) { trail :| Reads(data, start, trail); }
    var index: nat := start;
    var name: Text, used, compressed, done, n := [], 0, false, false, 0;
    ghost var rest := trail;
    while !done && n <= |data|
      invariant n <= |data| + 1 && if done then Rounds(data, start, n).Ended? else Rounds(data, start, n) == At(index)
      invariant Readable(data, start) ==> Stepped(data, trail, [], 0, false, index, rest, name, used, compressed, done)
      decreases |data| + 1 - n, !done
    {
      RoundsAdd(data, start, n, 1);
      if Round(data, index).Panics? {
        ReturnsIff(data, start, n + 1);
        return Malformed;
      }
      index, name, used, compressed, done, rest := ReadRound(data, index, name, used, compressed, rest);
      n := n + 1;
    }
    ReturnsIff(data, start, n);
    if done {
      forall m | !Rounds(data, start, m).At? ensures Rounds(data, start, m).Ended? { EndedForGood(data, start, n, m); }
      ReadsAs(data, start, trail);
      StopsHere(name);
      r := Name(name, used);
    } else {
      forall m ensures Rounds(data, start, m).At? { NeverEnds(data, start, m); }
      r := Endless;
    }
  }

  lemma ReadsAs(data: Text, start: nat, trail: Trail)
    requires Reads(data, start, trail)
    ensures Continued([], trail) == Join(Labels(trail))
    ensures forall other :: Reads(data, start, other) ==> other == trail
  {
    hide Reads;
    ContinuedJoins(data, start, trail, []);
    assert [] + Labels(trail) == Labels(trail) && Join([]) == [];
    forall other | Reads(data, start, other) ensures other == trail { TrailUnique(data, start, trail, other); }
  }

  lemma StopsHere(name: Text)
    ensures Continued(name, Stop) == name
  {
  }

  // ----- Writing a question -----

  const QUESTION_START: nat := 12

  function Header(id: nat): (s: Text)
    ensures |s| == QUESTION_START
  {
    Be(id, 2) + Be(0x100, 2) + Be(1, 2) + Be(0, 2) + Be(0, 2) + Be(0, 2)
  }

  function Question(id: nat, labels: seq<Text>, qtype: nat): Text
    requires AllPlain(labels)
  {
    Header(id) + LabelBytes(labels) + [0] + Be(qtype, 2) + Be(1, 2)
  }

  /** `None` where the original panics: an empty, long or non-ASCII label. */
  method MakeQuestion(id: nat, domain: Text, qtype: nat) returns (r: Option<Text>)
    ensures r.Some? <==> AllPlain(Split(domain))
    ensures r.Some? ==> r.value == Question(id, Split(domain), qtype)
  {
    hide Be, Split, Header, LabelBytes, Plain;
    var result := Header(id);
    var labels := Split(domain);
    assert labels[..0] == [] && labels[..|labels|] == labels;
    NoLabels(labels[..0]);
    for i := 0 to |labels|
      invariant AllPlain(labels[..i]) && result == Header(id) + LabelBytes(labels[..i])
    {
      var part := labels[i];
      if !Plain(part) { return None; }
      OneMoreLabel(labels, i);
      result := result + [|part|] + part;
    }
    result := result + [0] + Be(qtype, 2) + Be(1, 2);
    r := Some(result);
  }

  lemma OneMoreLabel(labels: seq<Text>, i: nat)
    requires i < |labels| && AllPlain(labels[..i]) && Plain(labels[i])
    ensures AllPlain(labels[..i + 1]) && |labels[i]| < 256
    ensures LabelBytes(labels[..i + 1]) == LabelBytes(labels[..i]) + [|labels[i]|] + labels[i]
  {
    var now := labels[..i + 1];
    assert now == labels[..i] + [labels[i]] && now[..i] == labels[..i];
  }

  // ----- Round trips -----

  /** The trail through labels into some other trail. */
  function Through(labels: seq<Text>, rest: Trail): Trail {
    if labels == [] then rest else Through(labels[..|labels| - 1], Take(labels[|labels| - 1], rest))
  }

  /** The last of the labels written at an index. */
  lemma LastLabel(data: Text, index: nat, labels: seq<Text>)
    requires AllPlain(labels) && labels != [] && index + |LabelBytes(labels)| <= |data|
    requires data[index..index + |LabelBytes(labels)|] == LabelBytes(labels)
    ensures var n := |labels| - 1; var at := index + |LabelBytes(labels[..n])|;
      && at + 1 + |labels[n]| == index + |LabelBytes(labels)| && data[index..at] == LabelBytes(labels[..n])
      && data[at] == |labels[n]| && data[at + 1..at + 1 + |labels[n]|] == labels[n]
  {
    var n := |labels| - 1;
    Pieces(data, index, LabelBytes(labels[..n]), |labels[n]|, labels[n]);
  }

  lemma Pieces(data: Text, index: nat, a: Text, x: Byte, b: Text)
    requires index + |a| + 1 + |b| <= |data| && data[index..index + |a| + 1 + |b|] == a + [x] + b
    ensures var at := index + |a|; data[index..at] == a && data[at] == x && data[at + 1..at + 1 + |b|] == b
  {
    var all, at := data[index..index + |a| + 1 + |b|], index + |a|;
    assert data[index..at] == all[..|a|] && data[at] == all[|a|] && data[at + 1..at + 1 + |b|] == all[|a| + 1..];
  }

  /** Labels written at an index lead a reader on to whatever follows them. */
  lemma {:induction false} ReadsThrough(data: Text, index: nat, labels: seq<Text>, rest: Trail)
    requires AllPlain(labels) && index + |LabelBytes(labels)| <= |data|
    requires data[index..index + |LabelBytes(labels)|] == LabelBytes(labels)
    requires Reads(data, index + |LabelBytes(labels)|, rest)
    ensures Reads(data, index, Through(labels, rest))
    ensures Labels(Through(labels, rest)) == labels + Labels(rest)
    ensures Span(Through(labels, rest)) == |LabelBytes(labels)| + Span(rest)
  {
    hide LabelBytes, Reads, Labels, Span, Plain;
    if labels == [] {
      assert labels + Labels(rest) == Labels(rest);
      assert |LabelBytes(labels)| == 0 by { NoLabels(labels); }
    } else {
      LastLabel(data, index, labels);
      var n := |labels| - 1;
      var front, last := labels[..n], labels[n];
      TakeReads(data, index + |LabelBytes(front)|, last, rest);
      ReadsThrough(data, index, front, Take(last, rest));
      assert front + ([last] + Labels(rest)) == labels + Labels(rest);
    }
  }

  lemma NoLabels(labels: seq<Text>)
    requires labels == []
    ensures LabelBytes(labels) == []
  {
  }

  lemma TakeReads(data: Text, at: nat, last: Text, rest: Trail)
    requires Plain(last) && at + 1 + |last| <= |data| && data[at] == |last| && data[at + 1..at + 1 + |last|] == last
    requires Reads(data, at + 1 + |last|, rest)
    ensures Reads(data, at, Take(last, rest))
    ensures Labels(Take(last, rest)) == [last] + Labels(rest) && Span(Take(last, rest)) == 1 + |last| + Span(rest)
  {
  }

  lemma {:induction false} LabelLength(labels: seq<Text>)
    requires AllPlain(labels) && labels != []
    ensures |LabelBytes(labels)| == |Join(labels)| + 1
  {
    if |labels| > 1 { LabelLength(labels[..|labels| - 1]); }
    else { assert labels[..0] == [] && LabelBytes([]) == []; }
  }

  /** Reading the name of a question gives the domain back and consumes its length plus two bytes. */
  lemma QuestionRoundTrip(id: nat, domain: Text, qtype: nat)
    requires AllPlain(Split(domain))
    ensures var trail := Through(Split(domain), Stop);
      && Reads(Question(id, Split(domain), qtype), QUESTION_START, trail)
      && Join(Labels(trail)) == domain && Span(trail) == |domain| + 2
  {
    hide Question, LabelBytes, Split, Join, Through, AllPlain;
    var labels := Split(domain);
    var q := Question(id, labels, qtype);
    JoinSplit(domain);
    LabelLength(labels);
    QuestionBytes(id, labels, qtype);
    ReadsThrough(q, QUESTION_START, labels, Stop);
    assert labels + [] == labels;
  }

  /**
   * The question byte by byte (section 4.1 of RFC 1035): id, recursion desired, one question and nothing
   * else; then the labels and their end, the type, and the class of the internet.
   */
  lemma QuestionBytes(id: nat, labels: seq<Text>, qtype: nat)
    requires AllPlain(labels)
    ensures var q := Question(id, labels, qtype); var end := QUESTION_START + |LabelBytes(labels)|;
      && end < |q| && q[QUESTION_START..end] == LabelBytes(labels) && q[end] == 0
      && q[..QUESTION_START] == [id / 256 % 256, id % 256, 1, 0, 0, 1, 0, 0, 0, 0, 0, 0]
      && q[end..] == [0, qtype / 256 % 256, qtype % 256, 0, 1]
  {
    BeTwo(id);
    BeTwo(qtype);
    BeTwo(0x100);
    BeTwo(1);
    BeTwo(0);
    hide Be, LabelBytes;
    assert Header(id) == [id / 256 % 256, id % 256, 1, 0, 0, 1, 0, 0, 0, 0, 0, 0];
  }

  /** Labels followed by a jump to another name read as the joined labels, and end with the two jump bytes. */
  lemma CompressedName(data: Text, index: nat, labels: seq<Text>, target: nat, rest: Trail)
    requires AllPlain(labels) && target < 0x4000 && Reads(data, target, rest) && !rest.Jump?
    requires var bytes := LabelBytes(labels) + Be(0xc000 + target, 2);
      index + |bytes| <= |data| && data[index..index + |bytes|] == bytes
    ensures var trail := Through(labels, Jump(target, rest));
      && Reads(data, index, trail)
      && Labels(trail) == labels + Labels(rest) && Span(trail) == |LabelBytes(labels)| + 2
  {
    hide Be, FromBe, LabelBytes, Power, Through;
    var at := index + |LabelBytes(labels)|;
    Powers();
    BeRoundTrip(0xc000 + target, 2);
    JumpByte(target);
    TwoPieces(data, index, LabelBytes(labels), Be(0xc000 + target, 2));
    assert data[at] == data[at..at + 2][0];
    assert Reads(data, at, Jump(target, rest));
    ReadsThrough(data, index, labels, Jump(target, rest));
  }

  lemma TwoPieces(data: Text, index: nat, a: Text, b: Text)
    requires index + |a + b| <= |data| && data[index..index + |a + b|] == a + b
    ensures data[index..index + |a|] == a && data[index + |a|..index + |a| + |b|] == b
  {
    var all := data[index..index + |a + b|];
    assert data[index..index + |a|] == all[..|a|] && data[index + |a|..index + |a| + |b|] == all[|a|..];
  }

  lemma JumpByte(target: nat)
    requires target < 0x4000
    ensures Be(0xc000 + target, 2)[0] >= MAX_LABEL && (0xc000 + target) % 0x4000 == target
  {
    var v := 0xc000 + target;
    assert Be(v, 2) == Be(v / 256, 1) + [v % 256] && Be(v / 256, 1) == Be(v / 256 / 256, 0) + [v / 256 % 256];
    assert Be(v, 2) == [v / 256, v % 256];
  }
}
