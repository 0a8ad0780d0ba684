/** Bytes, and numbers written as fixed numbers of bytes. */
module Bytes {
  type Byte = b: nat | b < 256
  type Text = seq<Byte>

  function Power(k: nat): (p: nat)
    ensures p > 0
  {
    if k == 0 then 1 else 256 * Power(k - 1)
  }

  /** Least significant byte first. */
  function Le(v: nat, k: nat): (s: Text)
    ensures |s| == k
  {
    if k == 0 then [] else [v % 256] + Le(v / 256, k - 1)
  }

  function FromLe(s: Text): nat {
    if s == [] then 0 else s[0] + 256 * FromLe(s[1..])
  }

  /** Most significant byte first. */
  function Be(v: nat, k: nat): (s: Text)
    ensures |s| == k
  {
    if k == 0 then [] else Be(v / 256, k - 1) + [v % 256]
  }

  function FromBe(s: Text): nat {
    if s == [] then 0 else 256 * FromBe(s[..|s| - 1]) + s[|s| - 1]
  }

  lemma {:induction false} LeRoundTrip(v: nat, k: nat)
    requires v < Power(k)
    ensures FromLe(Le(v, k)) == v
  {
    if k > 0 {
      LeRoundTrip(v / 256, k - 1);
      assert Le(v, k)[1..] == Le(v / 256, k - 1);
    }
  }

  lemma LowByte(a: Byte, rest: nat)
    ensures (a + 256 * rest) % 256 == a && (a + 256 * rest) / 256 == rest
  {
  }

  lemma {:induction false} LeBounded(s: Text)
    ensures FromLe(s) < Power(|s|)
  {
    if s != [] { LeBounded(s[1..]); }
  }

  lemma {:induction false} LeInverse(s: Text)
    ensures Le(FromLe(s), |s|) == s
  {
    if s != [] {
      LeInverse(s[1..]);
      var rest := FromLe(s[1..]);
      LowByte(s[0], rest);
      assert FromLe(s) == s[0] + 256 * rest && Le(FromLe(s), |s|) == [s[0]] + Le(rest, |s| - 1);
    }
  }

  lemma {:induction false} BeRoundTrip(v: nat, k: nat)
    requires v < Power(k)
    ensures FromBe(Be(v, k)) == v
  {
    if k > 0 {
      BeRoundTrip(v / 256, k - 1);
      var s := Be(v, k);
      assert s[..|s| - 1] == Be(v / 256, k - 1);
    }
  }

  lemma {:induction false} BeBounded(s: Text)
    ensures FromBe(s) < Power(|s|)
  {
    if s != [] { BeBounded(s[..|s| - 1]); }
  }

  lemma {:induction false} BeInverse(s: Text)
    ensures Be(FromBe(s), |s|) == s
  {
    if s != [] { BeInverse(s[..|s| - 1]); }
  }

  lemma Powers()
    ensures Power(1) == 0x100 && Power(2) == 0x1_0000 && Power(4) == 0x1_0000_0000
      && Power(8) == 0x1_0000_0000_0000_0000
  {
    assert Power(2) == 256 * Power(1) && Power(3) == 256 * Power(2) && Power(4) == 256 * Power(3);
    assert Power(5) == 256 * Power(4) && Power(6) == 256 * Power(5) && Power(7) == 256 * Power(6)
      && Power(8) == 256 * Power(7);
  }

  /** Two and four bytes written out. */
  lemma BeTwo(v: nat)
    ensures Be(v, 2) == [v / 256 % 256, v % 256]
  {
    assert Be(v, 2) == Be(v / 256, 1) + [v % 256] && Be(v / 256, 1) == Be(v / 256 / 256, 0) + [v / 256 % 256];
  }

  lemma BeFour(v: nat)
    ensures Be(v, 4) == [v / 0x100_0000 % 256, v / 0x1_0000 % 256, v / 0x100 % 256, v % 256]
  {
    var a, b, c := v / 256, v / 256 / 256, v / 256 / 256 / 256;
    assert Be(v, 4) == Be(a, 3) + [v % 256] && Be(a, 3) == Be(b, 2) + [a % 256];
    BeTwo(b);
    assert b == v / 0x1_0000 && c == v / 0x100_0000;
  }
}
