/**
 * Arguments of a new process, end to end: encoded by the caller, decoded by the kernel, laid out
 * at the end of the child's stack, and read back by the child.
 */
module Arguments {
  import opened Common
  import opened Bytes

  const PROCESS_STACK: nat := 0x40_0000
  const FRAME_SLOTS: nat := 15 + 1 + 5
  const LENGTH_LIMIT: nat := 0x4_0000_0000
  const U64: nat := 0x1_0000_0000_0000_0000

  // ----- The caller's encoding -----

  function Concat(args: seq<Text>): Text {
    if args == [] then [] else args[0] + Concat(args[1..])
  }

  function Lens(args: seq<Text>): (s: Text)
    ensures |s| == 8 * |args|
  {
    if args == [] then [] else Le(|args[0]|, 8) + Lens(args[1..])
  }

  function Encoded(args: seq<Text>): Text {
    Le(|args|, 8) + Lens(args) + Concat(args)
  }

  /** Sizes the machine can represent. */
  predicate Representable(args: seq<Text>) {
    |args| < U64 && forall i :: 0 <= i < |args| ==> |args[i]| < U64
  }

  lemma {:induction false} ConcatAppend(a: seq<Text>, b: seq<Text>)
    ensures Concat(a + b) == Concat(a) + Concat(b)
  {
    if a == [] { assert a + b == b; }
    else {
      ConcatAppend(a[1..], b);
      assert (a + b)[1..] == a[1..] + b;
      Regroup(a[0], Concat(a[1..]), Concat(b));
    }
  }

  lemma {:induction false} LensAppend(a: seq<Text>, b: seq<Text>)
    ensures Lens(a + b) == Lens(a) + Lens(b)
  {
    hide Le;
    if a == [] { assert a + b == b; }
    else {
      LensAppend(a[1..], b);
      assert (a + b)[1..] == a[1..] + b;
      Regroup(Le(|a[0]|, 8), Lens(a[1..]), Lens(b));
    }
  }

  lemma ConcatOne(a: Text)
    ensures Concat([a]) == a && Lens([a]) == Le(|a|, 8)
  {
    hide Le;
    assert Concat([a]) == a + Concat([]) && Lens([a]) == Le(|a|, 8) + Lens([]);
  }

  lemma Around<T>(s: seq<T>, i: nat)
    requires i < |s|
    ensures s == s[..i] + [s[i]] + s[i + 1..] && s[..i + 1] == s[..i] + [s[i]]
  {
  }

  /** The texts around entry i. */
  lemma ConcatAround(args: seq<Text>, i: nat)
    requires i < |args|
    ensures Concat(args) == Concat(args[..i]) + args[i] + Concat(args[i + 1..])
    ensures Concat(args[..i + 1]) == Concat(args[..i]) + args[i]
  {
    hide Concat, Lens, Le;
    ConcatOne(args[i]);
    var before, after := args[..i], args[i + 1..];
    Around(args, i);
    ConcatAppend(before + [args[i]], after);
    ConcatAppend(before, [args[i]]);
  }

  /** The lengths around entry i. */
  lemma LensAround(args: seq<Text>, i: nat)
    requires i < |args|
    ensures Lens(args) == Lens(args[..i]) + Le(|args[i]|, 8) + Lens(args[i + 1..])
    ensures Lens(args[..i + 1]) == Lens(args[..i]) + Le(|args[i]|, 8)
  {
    hide Lens, Le, Concat;
    ConcatOne(args[i]);
    var before, after := args[..i], args[i + 1..];
    Around(args, i);
    LensAppend(before + [args[i]], after);
    LensAppend(before, [args[i]]);
  }

  method Encode(args: seq<Text>) returns (raw: Text)
    ensures raw == Encoded(args)
  {
    hide Le;
    raw := Le(|args|, 8);
    assert args[..0] == [] && args[..|args|] == args;
    for i := 0 to |args|
      invariant raw == Le(|args|, 8) + Lens(args[..i])
    {
      LensAround(args, i);
      hide Lens, Concat;
      raw := raw + Le(|args[i]|, 8);
    }
    for i := 0 to |args|
      invariant raw == Le(|args|, 8) + Lens(args) + Concat(args[..i])
    {
      ConcatAround(args, i);
      hide Lens, Concat;
      raw := raw + args[i];
    }
  }

  // ----- The kernel's decoding -----

  datatype Decoded = TooLarge | Panicked | Decoded(args: seq<Text>)

  function Word(slice: Text, at: nat): nat
    requires at + 8 <= |slice|
  {
    FromLe(slice[at..at + 8])
  }

  function DecodeLoop(slice: Text, argc: nat, i: nat, cursor: nat): Decoded
    requires i <= argc
    decreases argc - i
  {
    if i == argc then Decoded([])
    else if (1 + i) * 8 + 8 > |slice| then Panicked
    else
      var len := Word(slice, (1 + i) * 8);
      if cursor + len > |slice| || len >= STRING_LIMIT then Panicked
      else
        match DecodeLoop(slice, argc, i + 1, cursor + len)
        case TooLarge => TooLarge
        case Panicked => Panicked
        case Decoded(rest) => Decoded([slice[cursor..cursor + len]] + rest)
  }

  function DecodedArgs(slice: Text): Decoded {
    if |slice| > LENGTH_LIMIT then TooLarge
    else if |slice| < 8 then Panicked
    else DecodeLoop(slice, Word(slice, 0), 0, (1 + Word(slice, 0)) * 8)
  }

  /** How a decoding loop result is continued. */
  function Prefixed(done: seq<Text>, rest: Decoded): Decoded {
    match rest case TooLarge => TooLarge case Panicked => Panicked case Decoded(more) => Decoded(done + more)
  }

  lemma PrefixedMore(done: seq<Text>, x: Text, rest: Decoded)
    ensures Prefixed(done,
      match rest case TooLarge => TooLarge case Panicked => Panicked case Decoded(more) => Decoded([x] + more))
      == Prefixed(done + [x], rest)
  {
    if rest.Decoded? { assert done + ([x] + rest.args) == done + [x] + rest.args; }
  }

  method Decode(slice: Text) returns (r: Decoded)
    ensures r == DecodedArgs(slice)
  {
    if |slice| > LENGTH_LIMIT { return TooLarge; }
    if |slice| < 8 { return Panicked; }
    var argc := Word(slice, 0);
    var cursor: nat := (1 + argc) * 8;
    var args := [];
    ghost var all := DecodedArgs(slice);
    assert Prefixed([], all) == all by { if all.Decoded? { assert [] + all.args == all.args; } }
    for i := 0 to argc
      invariant all == Prefixed(args, DecodeLoop(slice, argc, i, cursor))
    {
      if (1 + i) * 8 + 8 > |slice| { return Panicked; }
      var len := Word(slice, (1 + i) * 8);
      if cursor + len > |slice| || len >= STRING_LIMIT { return Panicked; }
      PrefixedMore(args, slice[cursor..cursor + len], DecodeLoop(slice, argc, i + 1, cursor + len));
      args := args + [slice[cursor..cursor + len]];
      cursor := cursor + len;
    }
    assert args + [] == args;
    r := Decoded(args);
  }

  lemma EncodedWords(args: seq<Text>, i: nat)
    requires Representable(args) && i < |args|
    ensures |Encoded(args)| == 8 + 8 * |args| + |Concat(args)|
    ensures Word(Encoded(args), 0) == |args|
    ensures Word(Encoded(args), (1 + i) * 8) == |args[i]|
  {
    Powers();
    hide Le, FromLe, Concat, Lens;
    LeRoundTrip(|args|, 8);
    LeRoundTrip(|args[i]|, 8);
    LensAround(args, i);
    var e := Encoded(args);
    assert e[0..8] == Le(|args|, 8);
    assert e[(1 + i) * 8..(1 + i) * 8 + 8] == Le(|args[i]|, 8);
  }

  lemma EncodedText(args: seq<Text>, i: nat)
    requires i < |args|
    ensures var cursor := 8 + 8 * |args| + |Concat(args[..i])|;
      && cursor + |args[i]| <= |Encoded(args)|
      && Encoded(args)[cursor..cursor + |args[i]|] == args[i]
  {
    ConcatAround(args, i);
    hide Le, Concat, Lens;
  }

  lemma {:induction false} DecodeFrom(args: seq<Text>, i: nat)
    requires Representable(args) && i <= |args|
    ensures DecodeLoop(Encoded(args), |args|, i, 8 + 8 * |args| + |Concat(args[..i])|) ==
      if exists j :: i <= j < |args| && |args[j]| >= STRING_LIMIT then Panicked else Decoded(args[i..])
    decreases |args| - i
  {
    hide Encoded, Concat, Word;
    if i < |args| {
      DecodeFrom(args, i + 1);
      EncodedWords(args, i);
      EncodedText(args, i);
      ConcatAround(args, i);
      hide Representable;
      assert args[i..] == [args[i]] + args[i + 1..];
    } else {
      assert args[i..] == [];
    }
  }

  /** The kernel decodes what the caller encoded, unless it refuses the size or trips over a long string. */
  lemma DecodeEncoded(args: seq<Text>)
    requires Representable(args)
    ensures DecodedArgs(Encoded(args)) ==
      if |Encoded(args)| > LENGTH_LIMIT then TooLarge
      else if exists j :: 0 <= j < |args| && |args[j]| >= STRING_LIMIT then Panicked
      else Decoded(args)
  {
    Powers();
    LeRoundTrip(|args|, 8);
    hide Le, FromLe, Concat, Lens;
    assert Encoded(args)[0..8] == Le(|args|, 8);
    DecodeFrom(args, 0);
    assert args[..0] == [] && args[0..] == args;
    assert |Concat(args[..0])| == 0 by { NoText(); }
  }

  lemma NoText()
    ensures Concat([]) == []
  {
  }

  /** All texts are short enough for the kernel. */
  predicate Short(args: seq<Text>) {
    forall i :: 0 <= i < |args| ==> |args[i]| < 10_000
  }

  /** These bytes lie here. */
  ghost predicate Lies(slice: Text, at: nat, t: Text) {
    at + |t| <= |slice| && slice[at..at + |t|] == t
  }

  lemma LiesSplit(slice: Text, at: nat, a: Text, b: Text)
    ensures Lies(slice, at, a + b) <==> Lies(slice, at, a) && Lies(slice, at + |a|, b)
  {
    if at + |a + b| <= |slice| {
      var t := slice[at..at + |a + b|];
      assert t[..|a|] == slice[at..at + |a|] && t[|a|..] == slice[at + |a|..at + |a| + |b|];
      assert t == t[..|a|] + t[|a|..];
    }
  }

  /** The part of the bytes that the loop still has to look at holds just these arguments. */
  ghost predicate Holds(slice: Text, argc: nat, i: nat, cursor: nat, args: seq<Text>)
    requires i <= argc
  {
    |args| == argc - i && Short(args) && Lies(slice, (1 + i) * 8, Lens(args)) && Lies(slice, cursor, Concat(args))
  }

  lemma WordIs(slice: Text, at: nat)
    requires at + 8 <= |slice|
    ensures Word(slice, at) < U64 && Lies(slice, at, Le(Word(slice, at), 8))
  {
    Powers();
    LeInverse(slice[at..at + 8]);
    LeBounded(slice[at..at + 8]);
    hide Le, FromLe, Power;
  }

  lemma ShortMore(first: Text, rest: seq<Text>)
    ensures Short([first] + rest) <==> |first| < 10_000 && Short(rest)
  {
    var args := [first] + rest;
    if Short(args) {
      assert |args[0]| < 10_000;
      forall j | 0 <= j < |rest| ensures |rest[j]| < 10_000 { assert rest[j] == args[j + 1]; }
    }
  }

  lemma PartsMore(first: Text, rest: seq<Text>)
    ensures Lens([first] + rest) == Le(|first|, 8) + Lens(rest) && Concat([first] + rest) == first + Concat(rest)
  {
    assert ([first] + rest)[1..] == rest;
  }

  /** One argument more in front. */
  lemma HoldsMore(slice: Text, argc: nat, i: nat, cursor: nat, first: Text, rest: seq<Text>)
    requires i < argc
    ensures Holds(slice, argc, i, cursor, [first] + rest) <==>
      && |first| < 10_000 && Lies(slice, cursor, first) && Lies(slice, (1 + i) * 8, Le(|first|, 8))
      && Holds(slice, argc, i + 1, cursor + |first|, rest)
  {
    ShortMore(first, rest);
    PartsMore(first, rest);
    hide Le, Lens, Concat, Short, Lies;
    LiesSplit(slice, (1 + i) * 8, Le(|first|, 8), Lens(rest));
    LiesSplit(slice, cursor, first, Concat(rest));
  }

  lemma LoopEnds(slice: Text, argc: nat, cursor: nat, args: seq<Text>)
    requires (1 + argc) * 8 <= |slice| && cursor <= |slice|
    ensures DecodeLoop(slice, argc, argc, cursor) == Decoded(args) <==> Holds(slice, argc, argc, cursor, args)
  {
  }

  lemma LoopFinds(slice: Text, argc: nat, i: nat, cursor: nat)
    requires i < argc
    ensures DecodeLoop(slice, argc, i, cursor) != Decoded([]) && !Holds(slice, argc, i, cursor, [])
  {
  }

  lemma {:induction false} LoopIff(slice: Text, argc: nat, i: nat, cursor: nat, args: seq<Text>)
    requires i <= argc && (i == argc ==> (1 + argc) * 8 <= |slice| && cursor <= |slice|)
    ensures DecodeLoop(slice, argc, i, cursor) == Decoded(args) <==> Holds(slice, argc, i, cursor, args)
    decreases argc - i
  {
    hide DecodeLoop, Holds, Le, Word, Lies;
    if i == argc { LoopEnds(slice, argc, cursor, args); }
    else if args == [] { LoopFinds(slice, argc, i, cursor); }
    else {
      var at, first, rest := (1 + i) * 8, args[0], args[1..];
      assert args == [first] + rest;
      HoldsMore(slice, argc, i, cursor, first, rest);
      LoopStep(slice, argc, i, cursor, first, rest);
      LengthIff(slice, at, first);
      if Lies(slice, cursor, first) && Lies(slice, at, Le(|first|, 8)) {
        Ends(slice, cursor, first, at, Le(|first|, 8));
        LoopIff(slice, argc, i + 1, cursor + |first|, rest);
      }
    }
  }

  lemma Ends(slice: Text, at: nat, t: Text, from: nat, u: Text)
    requires Lies(slice, at, t) && Lies(slice, from, u)
    ensures at + |t| <= |slice| && from + |u| <= |slice|
  {
  }

  /** One round of the loop: the length is there, and so is a text of that length. */
  lemma LoopStep(slice: Text, argc: nat, i: nat, cursor: nat, first: Text, rest: seq<Text>)
    requires i < argc
    ensures DecodeLoop(slice, argc, i, cursor) == Decoded([first] + rest) <==>
      && (1 + i) * 8 + 8 <= |slice| && Word(slice, (1 + i) * 8) == |first| < 10_000
      && Lies(slice, cursor, first) && DecodeLoop(slice, argc, i + 1, cursor + |first|) == Decoded(rest)
  {
    hide Word;
    if (1 + i) * 8 + 8 <= |slice| {
      var len := Word(slice, (1 + i) * 8);
      if cursor + len <= |slice| && len < 10_000 {
        var next := DecodeLoop(slice, argc, i + 1, cursor + len);
        if next.Decoded? { SameParts(slice[cursor..cursor + len], next.args, first, rest); }
      }
    }
  }

  lemma SameParts(a: Text, x: seq<Text>, b: Text, y: seq<Text>)
    ensures [a] + x == [b] + y <==> a == b && x == y
  {
    if [a] + x == [b] + y {
      assert ([a] + x)[0] == a && ([b] + y)[0] == b;
      assert ([a] + x)[1..] == x && ([b] + y)[1..] == y;
    }
  }

  /** The word here is the length of the text. */
  lemma LengthIff(slice: Text, at: nat, first: Text)
    ensures |first| < 10_000 ==>
      (at + 8 <= |slice| && Word(slice, at) == |first| <==> Lies(slice, at, Le(|first|, 8)))
  {
    hide Word, Le;
    if at + 8 <= |slice| && |first| < 10_000 {
      WordIs(slice, at);
      if Lies(slice, at, Le(|first|, 8)) { SameNumber(|first|, Word(slice, at)); }
    }
  }

  lemma SameNumber(a: nat, b: nat)
    requires a < U64 && b < U64 && Le(a, 8) == Le(b, 8)
    ensures a == b
  {
    Powers();
    LeRoundTrip(a, 8);
    LeRoundTrip(b, 8);
  }

  /** On any bytes: they are decoded to a list exactly when they are not too many and begin with its encoding. */
  lemma DecodedIff(slice: Text, args: seq<Text>)
    ensures DecodedArgs(slice) == Decoded(args) <==>
      |slice| <= 0x4_0000_0000 && |args| < U64 && Short(args) && Encoded(args) <= slice
    ensures DecodedArgs(slice).TooLarge? <==> |slice| > 0x4_0000_0000
  {
    if |slice| < 8 || |slice| > LENGTH_LIMIT { EncodingLies(slice, args); }
    else {
      var argc := Word(slice, 0);
      NeverTooLarge(slice, argc, 0, (1 + argc) * 8);
      BeginsIff(slice, argc, args);
    }
  }

  lemma BeginsIff(slice: Text, argc: nat, args: seq<Text>)
    requires |slice| >= 8 && argc == Word(slice, 0)
    ensures DecodeLoop(slice, argc, 0, (1 + argc) * 8) == Decoded(args) <==>
      |args| < U64 && Short(args) && Encoded(args) <= slice
  {
    hide Encoded, Short, Lens, Concat, DecodeLoop, Word, Le, Lies;
    EncodingLies(slice, args);
    WordIs(slice, 0);
    if |args| < U64 && Lies(slice, 0, Le(|args|, 8)) { SameLies(slice, 0, |args|, argc); }
    LoopIff(slice, argc, 0, (1 + argc) * 8, args);
  }

  lemma SameLies(slice: Text, at: nat, a: nat, b: nat)
    requires a < U64 && b < U64 && Lies(slice, at, Le(a, 8)) && Lies(slice, at, Le(b, 8))
    ensures a == b
  {
    SameNumber(a, b);
  }

  lemma {:induction false} NeverTooLarge(slice: Text, argc: nat, i: nat, cursor: nat)
    requires i <= argc
    ensures !DecodeLoop(slice, argc, i, cursor).TooLarge?
    decreases argc - i
  {
    hide Word;
    if i < argc && (1 + i) * 8 + 8 <= |slice| {
      NeverTooLarge(slice, argc, i + 1, cursor + Word(slice, (1 + i) * 8));
    }
  }

  lemma EncodingLies(slice: Text, args: seq<Text>)
    ensures Encoded(args) <= slice <==>
      Lies(slice, 0, Le(|args|, 8)) && Lies(slice, 8, Lens(args)) && Lies(slice, (1 + |args|) * 8, Concat(args))
  {
    hide Le, Lens, Concat;
    PrefixLies(slice, Encoded(args));
    hide Lies;
    LiesSplit(slice, 0, Le(|args|, 8), Lens(args));
    LiesSplit(slice, 0, Le(|args|, 8) + Lens(args), Concat(args));
  }

  lemma PrefixLies(slice: Text, t: Text)
    ensures t <= slice <==> Lies(slice, 0, t)
  {
  }

  // ----- The child's stack -----

  /** Lengths as they lie in memory: pushed one after the other, so the first comes last. */
  function LensDown(args: seq<Text>): (s: Text)
    ensures |s| == 8 * |args|
  {
    if args == [] then [] else LensDown(args[1..]) + Le(|args[0]|, 8)
  }

  lemma {:induction false} LensDownAppend(a: seq<Text>, b: seq<Text>)
    ensures LensDown(a + b) == LensDown(b) + LensDown(a)
  {
    hide Le;
    if a == [] { assert a + b == b && LensDown(b) + [] == LensDown(b); }
    else {
      LensDownAppend(a[1..], b);
      assert (a + b)[1..] == a[1..] + b;
      assert LensDown(b) + LensDown(a[1..]) + Le(|a[0]|, 8) == LensDown(b) + (LensDown(a[1..]) + Le(|a[0]|, 8));
    }
  }

  lemma LensDownAround(args: seq<Text>, i: nat)
    requires i < |args|
    ensures LensDown(args) == LensDown(args[i + 1..]) + Le(|args[i]|, 8) + LensDown(args[..i])
    ensures LensDown(args[..i + 1]) == Le(|args[i]|, 8) + LensDown(args[..i])
  {
    assert LensDown([args[i]]) ==
      Le(|args[i]|, 8) by { hide Le; assert LensDown([]) + Le(|args[i]|, 8) == Le(|args[i]|, 8); }
    var before, after := args[..i], args[i + 1..];
    Around(args, i);
    LensDownAppend(before + [args[i]], after);
    LensDownAppend(before, [args[i]]);
    hide LensDown, Le;
  }

  /** What the child looks for at the end of its stack. */
  function ArgBlock(args: seq<Text>): Text {
    Concat(args) + LensDown(args) + Le(|args|, 8)
  }

  ghost predicate LaidOut(mem: Text, args: seq<Text>) {
    |ArgBlock(args)| <= |mem| && mem[|mem| - |ArgBlock(args)|..] == ArgBlock(args)
  }

  function RoundUp(n: nat): (m: nat)
    ensures n <= m < n + 8 && m % 8 == 0
  {
    (n + 7) / 8 * 8
  }

  function ArgsSize(args: seq<Text>): nat {
    8 + 8 * |args| + RoundUp(|Concat(args)|)
  }

  function Zeros(n: nat): (s: Text)
    ensures |s| == n
  {
    if n == 0 then [] else [0] + Zeros(n - 1)
  }

  /** The return frame: entry point, code segment, flags, stack address, stack segment. */
  function Iretq(entry: nat, end: nat): (s: Text)
    ensures |s| == 40
  {
    Le(entry, 8) + Le(8, 8) + Le(0x202, 8) + Le(end, 8) + Le(0, 8)
  }

  /** Everything below the arguments too. */
  function StackTop(args: seq<Text>, entry: nat, end: nat): Text {
    Iretq(entry, end) + Zeros(RoundUp(|Concat(args)|) - |Concat(args)|) + ArgBlock(args)
  }

  class Stack {
    const mem: array<Byte>
    var top: nat

    constructor (size: nat)
      ensures fresh(mem) && mem.Length == size == top
    {
      mem := new Byte[size](_ => 0);
      top := size;
    }

    /** What has been pushed so far. */
    ghost function Pushed(): Text
      requires top <= mem.Length
      reads this, mem
    {
      mem[top..]
    }

    method PushU8(b: Byte)
      requires 0 < top <= mem.Length
      modifies mem, `top
      ensures top == old(top) - 1 && Pushed() == [b] + old(Pushed())
    {
      top := top - 1;
      mem[top] := b;
    }

    method PushU64(v: nat)
      requires 8 <= top <= mem.Length
      modifies mem, `top
      ensures top == old(top) - 8 && Pushed() == Le(v, 8) + old(Pushed())
    {
      hide Le;
      top := top - 8;
      var bytes := Le(v, 8);
      forall k | 0 <= k < 8 { mem[top + k] := bytes[k]; }
    }

    method PushText(t: Text)
      requires |t| <= top <= mem.Length
      modifies mem, `top
      ensures top == old(top) - |t| && Pushed() == t + old(Pushed())
    {
      var i := |t|;
      ghost var base := Pushed();
      assert t[i..] + base == base && t[0..] == t;
      while i > 0
        invariant 0 <= i <= |t| && top == old(top) - (|t| - i)
        invariant Pushed() == t[i..] + base
      {
        i := i - 1;
        PushU8(t[i]);
        assert t[i..] == [t[i]] + t[i + 1..];
        Regroup([t[i]], t[i + 1..], base);
      }
    }

    method PushLens(args: seq<Text>)
      requires 8 * |args| <= top <= mem.Length
      modifies mem, `top
      ensures top == old(top) - 8 * |args| && Pushed() == LensDown(args) + old(Pushed())
    {
      hide Le;
      assert args[..0] == [] && args[..|args|] == args;
      assert LensDown([]) + Pushed() == Pushed();
      hide LensDown;
      ghost var base := Pushed();
      for i := 0 to |args|
        invariant top == old(top) - 8 * i && Pushed() == LensDown(args[..i]) + base
      {
        LensDownAround(args, i);
        Regroup(Le(|args[i]|, 8), LensDown(args[..i]), base);
        PushU64(|args[i]|);
      }
    }

    method PushTexts(args: seq<Text>)
      requires |Concat(args)| <= top <= mem.Length
      modifies mem, `top
      ensures top == old(top) - |Concat(args)| && Pushed() == Concat(args) + old(Pushed())
    {
      ghost var base := Pushed();
      assert args[|args|..] == [] && args[0..] == args;
      assert Concat([]) + base == base;
      hide Concat;
      for i := |args| downto 0
        invariant top == old(top) - |Concat(args[i..])| && Pushed() == Concat(args[i..]) + base
      {
        FromHere(args, i);
        Regroup(args[i], Concat(args[i + 1..]), base);
        PushText(args[i]);
      }
    }

    method PushArgs(args: seq<Text>)
      requires top == mem.Length && |ArgBlock(args)| <= top
      modifies mem, `top
      ensures top == old(top) - |ArgBlock(args)| && Pushed() == ArgBlock(args)
    {
      hide Le, LensDown, Concat;
      assert mem[top..] == [];
      PushU64(|args|);
      PushLens(args);
      PushTexts(args);
    }

    /** Fills a fresh stack; `ok` is false where the original panics. */
    method Populate(args: seq<Text>, entry: nat) returns (ok: bool, rsp: nat)
      requires top == mem.Length == STACK_SIZE
      modifies mem, `top
      ensures ok <==> ArgsSize(args) + 40 <= STACK_SIZE
      ensures ok ==>
        && top == STACK_SIZE - ArgsSize(args) - 40
        && Pushed() == StackTop(args, entry, PROCESS_STACK + STACK_SIZE - ArgsSize(args))
        && rsp == PROCESS_STACK + STACK_SIZE - ArgsSize(args) - 8 * FRAME_SLOTS
        // The return frame lies above the registers and the one temporary that are popped first.
        && PROCESS_STACK + top == rsp + 8 * (15 + 1)
      // The size check counts the slots of the frame as bytes; the frame lies inside the stack just when its bytes fit.
      ensures ok ==> (rsp >= PROCESS_STACK <==> ArgsSize(args) + 8 * FRAME_SLOTS <= STACK_SIZE)
    {
      hide Le, LensDown, Concat, Zeros, RoundUp;
      var size := ArgsSize(args);
      rsp := 0;
      if size + FRAME_SLOTS > STACK_SIZE { return false, rsp; }
      if size + 40 > STACK_SIZE { return false, rsp; }
      var end := PROCESS_STACK + STACK_SIZE - size;
      rsp := end - 8 * FRAME_SLOTS;
      PushArgs(args);
      Padding(|Concat(args)|, 8 + 8 * |args|);
      Align();
      PushFrame(entry, end);
      Regroup(Iretq(entry, end), Zeros(RoundUp(|Concat(args)|) - |Concat(args)|), ArgBlock(args));
      ok := true;
    }

    method PushFrame(entry: nat, end: nat)
      requires 40 <= top <= mem.Length
      modifies mem, `top
      ensures top == old(top) - 40 && Pushed() == Iretq(entry, end) + old(Pushed())
    {
      hide Le, Stack.Pushed;
      RegroupFive(Le(entry, 8), Le(8, 8), Le(0x202, 8), Le(end, 8), Le(0, 8), Pushed());
      PushU64(0);
      PushU64(end);
      PushU64(0x202);
      PushU64(8);
      PushU64(entry);
    }

    method Align()
      requires top <= mem.Length && mem.Length % 8 == 0
      modifies mem, `top
      ensures top == old(top) / 8 * 8 && Pushed() == Zeros(old(top) % 8) + old(Pushed())
    {
      ghost var base, target := Pushed(), top / 8 * 8;
      NoZeros(base);
      hide Zeros;
      while top % 8 != 0
        invariant target <= top <= old(top) && top / 8 * 8 == target && Pushed() == Zeros(old(top) - top) + base
      {
        OneMoreZero(old(top) - top, base);
        PushU8(0);
      }
    }
  }

  lemma NoZeros(base: Text)
    ensures Zeros(0) + base == base
  {
  }

  lemma OneMoreZero(n: nat, base: Text)
    ensures [0] + (Zeros(n) + base) == Zeros(n + 1) + base
  {
  }

  lemma Regroup(a: Text, b: Text, c: Text)
    ensures a + (b + c) == a + b + c
  {
  }

  lemma RegroupFive(a: Text, b: Text, c: Text, d: Text, e: Text, base: Text)
    ensures a + (b + (c + (d + (e + base)))) == a + b + c + d + e + base
  {
    Regroup(d, e, base);
    Regroup(c, d + e, base);
    Regroup(c, d, e);
    Regroup(b, c + d + e, base);
    Regroup(a, b + (c + d + e), base);
    assert a + (b + (c + d + e)) == a + b + c + d + e;
  }

  lemma FromHere(args: seq<Text>, i: nat)
    requires i < |args|
    ensures Concat(args[i..]) == args[i] + Concat(args[i + 1..])
    ensures |Concat(args[i..])| <= |Concat(args)|
  {
    assert args[i..] == [args[i]] + args[i + 1..];
    assert args == args[..i] + args[i..];
    ConcatAppend(args[..i], args[i..]);
  }

  /** Rounding the texts up is rounding the position below them down. */
  lemma Padding(n: nat, fixed: nat)
    requires fixed % 8 == 0 && n + fixed <= STACK_SIZE
    ensures (STACK_SIZE - fixed - n) % 8 == RoundUp(n) - n
    ensures (STACK_SIZE - fixed - n) / 8 * 8 == STACK_SIZE - fixed - RoundUp(n)
  {
  }

  // ----- The child reads its arguments -----

  lemma BlockWords(mem: Text, args: seq<Text>, i: nat)
    requires LaidOut(mem, args) && Representable(args)
    ensures |mem| >= 8 && Word(mem, |mem| - 8) == |args|
    ensures i < |args| ==> |mem| >= 16 + 8 * i && Word(mem, |mem| - 16 - 8 * i) == |args[i]|
  {
    Powers();
    hide Le, FromLe, LensDown, Concat;
    var base := |mem| - |ArgBlock(args)|;
    LeRoundTrip(|args|, 8);
    assert mem[|mem| - 8..|mem|] == mem[base..][|ArgBlock(args)| - 8..] == Le(|args|, 8);
    if i < |args| {
      LeRoundTrip(|args[i]|, 8);
      LensDownAround(args, i);
      assert mem[|mem| - 16 - 8 * i..|mem| - 8 - 8 * i] ==
        mem[base..][|ArgBlock(args)| - 16 - 8 * i..|ArgBlock(args)| - 8 - 8 * i];
      assert mem[|mem| - 16 - 8 * i..|mem| - 8 - 8 * i] == Le(|args[i]|, 8);
    }
  }

  lemma Ending(mem: Text, t: Text, a: Text, b: Text)
    requires |t| <= |mem| && mem[|mem| - |t|..] == t && t == a + b
    ensures var base := |mem| - |t|; mem[base..base + |a|] == a && mem[|mem| - |b|..] == b
  {
    var base := |mem| - |t|;
    assert mem[base..base + |a|] == mem[base..][..|a|] && mem[|mem| - |b|..] == mem[base..][|a|..];
  }

  lemma RegroupBlock(a: Text, b: Text, c: Text, d: Text, e: Text)
    ensures a + b + c + d + e == a + (b + (c + d + e))
  {
    Regroup(a + b, c, d);
    Regroup(a + b, c + d, e);
    Regroup(a, b, c + d + e);
  }

  lemma BlockText(mem: Text, args: seq<Text>, i: nat)
    requires LaidOut(mem, args) && i < |args|
    ensures var ptr := |mem| - 8 - 8 * |args| - |Concat(args[i..])|;
      0 <= ptr <= ptr + |args[i]| <= |mem| && mem[ptr..ptr + |args[i]|] == args[i]
  {
    FromHere(args, i);
    ConcatAround(args, i);
    hide Le, LensDown, Concat;
    var after := Concat(args[i + 1..]) + LensDown(args) + Le(|args|, 8);
    RegroupBlock(Concat(args[..i]), args[i], Concat(args[i + 1..]), LensDown(args), Le(|args|, 8));
    Ending(mem, ArgBlock(args), Concat(args[..i]), args[i] + after);
    Ending(mem, args[i] + after, args[i], after);
  }

  /** An iterator over the arguments at the end of a stack. */
  class Args {
    const stack: Text
    ghost const list: seq<Text>
    var index: nat
    var ptr: nat

    ghost predicate Valid()
      reads this
    {
      && LaidOut(stack, list) && Representable(list) && index <= |list|
      && ptr == |stack| - 8 - 8 * |list| - |Concat(list[index..])|
    }

    /** Starts below the length table and below all the texts. */
    constructor (stack: Text, ghost list: seq<Text>)
      requires LaidOut(stack, list) && Representable(list)
      ensures Valid() && index == 0 && this.list == list && this.stack == stack
    {
      BlockWords(stack, list, 0);
      var argc := Word(stack, |stack| - 8);
      var sum := 0;
      assert list[..0] == [] && list[..|list|] == list && list[0..] == list;
      NoText();
      hide Word, LaidOut, Representable, Concat;
      for i := 0 to argc
        invariant sum == |Concat(list[..i])|
      {
        BlockWords(stack, list, i);
        ConcatAround(list, i);
        sum := sum + Word(stack, |stack| - 16 - 8 * i);
      }
      BlockSize(list);
      this.stack, this.list, index := stack, list, 0;
      ptr := |stack| - 8 - 8 * argc - sum;
    }

    method Next() returns (r: Option<Text>)
      requires Valid()
      modifies this
      ensures Valid()
      ensures old(index) < |list| ==> r == Some(list[old(index)]) && index == old(index) + 1
      ensures old(index) == |list| ==> r.None? && index == old(index)
    {
      BlockWords(stack, list, index);
      if index >= Word(stack, |stack| - 8) { return None; }
      BlockText(stack, list, index);
      FromHere(list, index);
      hide Word, LaidOut, Representable, Concat;
      var len := Word(stack, |stack| - 16 - 8 * index);
      r := Some(stack[ptr..ptr + len]);
      ptr := ptr + len;
      index := index + 1;
    }
  }

  lemma BlockSize(args: seq<Text>)
    ensures |ArgBlock(args)| == |Concat(args)| + 8 * |args| + 8
  {
    hide Le, LensDown, Concat;
  }

  // ----- The initial stack frame -----

  lemma StackTopParts(args: seq<Text>, entry: nat, end: nat) returns (front: Text, rest: Text)
    ensures StackTop(args, entry, end) == front + ArgBlock(args)
    ensures StackTop(args, entry, end) == Iretq(entry, end) + rest
    ensures |front| == 40 + RoundUp(|Concat(args)|) - |Concat(args)|
  {
    hide Le, Concat, RoundUp, ArgBlock, Iretq;
    var zeros := Zeros(RoundUp(|Concat(args)|) - |Concat(args)|);
    hide Zeros;
    front := Iretq(entry, end) + zeros;
    rest := zeros + ArgBlock(args);
    Regroup(Iretq(entry, end), zeros, ArgBlock(args));
  }

  lemma TopSize(args: seq<Text>, entry: nat, end: nat)
    ensures |StackTop(args, entry, end)| == ArgsSize(args) + 40
  {
    var front, rest := StackTopParts(args, entry, end);
    BlockSize(args);
    hide StackTop, ArgBlock, Concat, RoundUp, Le;
  }

  /**
   * A populated stack holds the arguments where the child looks for them. The return frame holds the entry
   * point, the code segment, the flags with interrupts on, the end of the stack, and no stack segment.
   */
  lemma TopHolds(mem: Text, args: seq<Text>, entry: nat, end: nat)
    requires entry < U64 && end < U64 && |StackTop(args, entry, end)| <= |mem|
    requires mem[|mem| - |StackTop(args, entry, end)|..] == StackTop(args, entry, end)
    ensures LaidOut(mem, args)
    ensures |StackTop(args, entry, end)| == ArgsSize(args) + 40
    ensures var at := |mem| - ArgsSize(args) - 40;
      && Word(mem, at) == entry && Word(mem, at + 8) == 8 && Word(mem, at + 16) == 0x202
      && Word(mem, at + 24) == end && Word(mem, at + 32) == 0
  {
    hide StackTop, ArgBlock, ArgsSize, Word, Iretq, LaidOut;
    TopSize(args, entry, end);
    TopArgs(mem, args, entry, end);
    TopFrame(mem, args, entry, end);
    FrameWords(mem, |mem| - |StackTop(args, entry, end)|, entry, end);
  }

  lemma TopArgs(mem: Text, args: seq<Text>, entry: nat, end: nat)
    requires |StackTop(args, entry, end)| <= |mem|
    requires mem[|mem| - |StackTop(args, entry, end)|..] == StackTop(args, entry, end)
    ensures LaidOut(mem, args)
  {
    hide StackTop, ArgBlock;
    var front, rest := StackTopParts(args, entry, end);
    Ending(mem, StackTop(args, entry, end), front, ArgBlock(args));
  }

  lemma TopFrame(mem: Text, args: seq<Text>, entry: nat, end: nat)
    requires |StackTop(args, entry, end)| <= |mem|
    requires mem[|mem| - |StackTop(args, entry, end)|..] == StackTop(args, entry, end)
    ensures var at := |mem| - |StackTop(args, entry, end)|;
      at + 40 <= |mem| && mem[at..at + 40] == Iretq(entry, end)
  {
    hide StackTop, Iretq, ArgBlock;
    var front, rest := StackTopParts(args, entry, end);
    Ending(mem, StackTop(args, entry, end), Iretq(entry, end), rest);
  }

  lemma FrameWords(mem: Text, at: nat, entry: nat, end: nat)
    requires entry < U64 && end < U64 && at + 40 <= |mem| && mem[at..at + 40] == Iretq(entry, end)
    ensures Word(mem, at) == entry && Word(mem, at + 8) == 8 && Word(mem, at + 16) == 0x202
    ensures Word(mem, at + 24) == end && Word(mem, at + 32) == 0
  {
    hide Le, Word, Iretq;
    FramePlaces(mem[at..at + 40], entry, end);
    FrameWord(mem, at, 0, entry);
    FrameWord(mem, at, 8, 8);
    FrameWord(mem, at, 16, 0x202);
    FrameWord(mem, at, 24, end);
    FrameWord(mem, at, 32, 0);
  }

  lemma FramePlaces(s: Text, entry: nat, end: nat)
    requires s == Iretq(entry, end)
    ensures s[0..8] == Le(entry, 8) && s[8..16] == Le(8, 8) && s[16..24] == Le(0x202, 8)
    ensures s[24..32] == Le(end, 8) && s[32..40] == Le(0, 8)
  {
    hide Le;
  }

  lemma FrameWord(mem: Text, at: nat, i: nat, v: nat)
    requires v < U64 && i <= 32 && at + 40 <= |mem| && mem[at..at + 40][i..i + 8] == Le(v, 8)
    ensures Word(mem, at + i) == v
  {
    hide Le, Word;
    var frame := mem[at..at + 40];
    var word := frame[i..i + 8];
    assert forall j :: 0 <= j < 8 ==> word[j] == mem[at + i..at + i + 8][j];
    EntryWord(mem, at + i, v);
  }

  lemma EntryWord(mem: Text, at: nat, v: nat)
    requires v < U64 && at + 8 <= |mem| && mem[at..at + 8] == Le(v, 8)
    ensures Word(mem, at) == v
  {
    Powers();
    LeRoundTrip(v, 8);
    hide Le, FromLe;
  }

  // ----- End to end -----

  /** Every stage lets the arguments through. */
  ghost predicate Launches(args: seq<Text>) {
    && |Encoded(args)| <= LENGTH_LIMIT
    && (forall i :: 0 <= i < |args| ==> |args[i]| < STRING_LIMIT)
    && ArgsSize(args) + 40 <= STACK_SIZE
  }

  lemma {:induction false} EmptyTexts(args: seq<Text>)
    requires forall i :: 0 <= i < |args| ==> args[i] == []
    ensures Concat(args) == []
  {
    if args != [] { EmptyTexts(args[1..]); }
  }

  /** Many empty arguments that are let through, although the initial frame then starts below the stack. */
  lemma FrameTooLow(args: seq<Text>)
    requires |args| == 524282 && forall i :: 0 <= i < |args| ==> args[i] == []
    ensures Representable(args) && Launches(args) && ArgsSize(args) + FRAME_SLOTS <= STACK_SIZE
    ensures PROCESS_STACK + STACK_SIZE - ArgsSize(args) - 8 * FRAME_SLOTS < PROCESS_STACK
  {
    EmptyTexts(args);
    hide Le, Lens, Concat;
  }

  /** From the caller's list to the child's list; `None` where one of the stages refuses or panics. */
  method Exec(args: seq<Text>, entry: nat) returns (child: Option<seq<Text>>, rsp: nat)
    requires Representable(args) && entry < U64
    ensures child.Some? <==> Launches(args)
    ensures child.Some? ==> child.value == args
    ensures child.Some? ==> rsp == PROCESS_STACK + STACK_SIZE - ArgsSize(args) - 8 * FRAME_SLOTS
  {
    hide Encoded, DecodedArgs, LaidOut, StackTop, ArgsSize, Word;
    rsp := 0;
    var raw := Encode(args);
    DecodeEncoded(args);
    var decoded := Decode(raw);
    if !decoded.Decoded? { return None, rsp; }
    var stack := new Stack(STACK_SIZE);
    var ok;
    ok, rsp := stack.Populate(decoded.args, entry);
    if !ok { return None, rsp; }
    var mem := stack.mem[..];
    TopHolds(mem, args, entry, PROCESS_STACK + STACK_SIZE - ArgsSize(args));
    var list := Collect(mem, args);
    child := Some(list);
  }

  method Collect(stack: Text, ghost args: seq<Text>) returns (list: seq<Text>)
    requires LaidOut(stack, args) && Representable(args)
    ensures list == args
  {
    var it := new Args(stack, args);
    list := [];
    var more := true;
    while more
      invariant it.Valid() && it.list == args && it.stack == stack
      invariant list == args[..it.index] && (!more ==> it.index == |args|)
      decreases |args| - it.index, more
    {
      var next := it.Next();
      if next.Some? { list := list + [next.value]; } else { more := false; }
    }
  }
}
