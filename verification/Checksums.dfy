/** The internet checksum of RFC 1071. */
module Checksums {
  import opened Bytes

  const ONES: nat := 0xffff

  function Pair(a: Byte, b: Byte): nat {
    256 * a + b
  }

  /** Sum of the 16-bit words of the data, an odd last byte padded with zero. */
  function WordSum(data: Text): nat {
    if data == [] then 0
    else if |data| == 1 then Pair(data[0], 0)
    else Pair(data[0], data[1]) + WordSum(data[2..])
  }

  /**
   * One's complement value of a sum of words: its remainder modulo 65535, with 65535 for zero unless the
   * sum is zero.
   */
  function Fold(s: nat): (r: nat)
    ensures r <= ONES && (r == 0 <==> s == 0)
  {
    if s == 0 then 0 else (s - 1) % ONES + 1
  }

  function Checksum(data: Text): nat {
    ONES - Fold(WordSum(data))
  }

  /** One's complement addition of two words (section 1 of RFC 1071): a carry out of the top is added at the bottom. */
  function AddWords(a: nat, b: nat): nat {
    if a + b > ONES then a + b - ONES else a + b
  }

  /** Adding words one by one with end-around carry gives the one's complement value of the whole sum. */
  lemma FoldStep(s: nat, v: nat)
    requires v <= ONES
    ensures Fold(s + v) == AddWords(Fold(s), v)
  {
    if s > 0 {
      var q := (s - 1) / ONES;
      assert s - 1 == ONES * q + (s - 1) % ONES;
      var x := (s - 1) % ONES + v;
      if x < ONES { Remainder(s + v - 1, q, x); } else { Remainder(s + v - 1, q + 1, x - ONES); }
    }
  }

  lemma Remainder(x: nat, q: nat, r: nat)
    requires x == ONES * q + r && r < ONES
    ensures x % ONES == r
  {
  }

  lemma {:induction false} WordSumConcat(a: Text, b: Text)
    requires |a| % 2 == 0
    ensures WordSum(a + b) == WordSum(a) + WordSum(b)
  {
    if a == [] { assert a + b == b; }
    else {
      WordSumConcat(a[2..], b);
      assert (a + b)[2..] == a[2..] + b;
    }
  }

  lemma WordSumOne(c: nat)
    requires c <= ONES
    ensures WordSum(Be(c, 2)) == c
  {
    assert Be(c, 2) == Be(c / 256, 1) + [c % 256] && Be(c / 256, 1) == Be(c / 256 / 256, 0) + [c / 256 % 256];
    assert Be(c, 2) == [c / 256, c % 256];
  }

  /** Data with its checksum put into a zero field at an even place sums up to zero. */
  lemma ChecksumVerifies(a: Text, b: Text)
    requires |a| % 2 == 0
    ensures Checksum(a + Be(Checksum(a + Be(0, 2) + b), 2) + b) == 0
  {
    var c := Checksum(a + Be(0, 2) + b);
    FieldSum(a, 0, b);
    FieldSum(a, c, b);
    var s := WordSum(a) + WordSum(b);
    assert c == ONES - Fold(s);
    if s > 0 {
      var q := (s - 1) / ONES;
      assert s - 1 == ONES * q + (s - 1) % ONES;
      Remainder(s + c - 1, q, ONES - 1);
    }
  }

  lemma FieldSum(a: Text, c: nat, b: Text)
    requires |a| % 2 == 0 && c <= ONES
    ensures WordSum(a + Be(c, 2) + b) == WordSum(a) + c + WordSum(b)
  {
    WordSumConcat(a + Be(c, 2), b);
    WordSumConcat(a, Be(c, 2));
    WordSumOne(c);
  }

  /** What a byte counts: the first of every pair is the high one. */
  function Weight(i: nat): nat {
    if i % 2 == 0 then 256 else 1
  }

  /** Every byte by itself, from the end. */
  function ByteSum(data: Text): nat {
    if data == [] then 0 else ByteSum(data[..|data| - 1]) + Weight(|data| - 1) * data[|data| - 1]
  }

  lemma WordSumOdd(front: Text, a: Byte)
    requires |front| % 2 == 0
    ensures WordSum(front + [a]) == WordSum(front) + 256 * a
  {
    WordSumConcat(front, [a]);
  }

  lemma WordSumEven(front: Text, a: Byte, b: Byte)
    requires |front| % 2 == 0
    ensures WordSum(front + [a, b]) == WordSum(front + [a]) + b
  {
    WordSumOdd(front, a);
    WordSumConcat(front, [a, b]);
    assert [a, b][2..] == [];
  }

  /** The sum of the words counts every byte, the one left over at an odd end included. */
  lemma {:induction false} WordSumIsByteSum(data: Text)
    ensures WordSum(data) == ByteSum(data)
  {
    if data != [] {
      var n := |data| - 1;
      var front := data[..n];
      WordSumIsByteSum(front);
      hide WordSum;
      if n % 2 == 0 {
        WordSumOdd(front, data[n]);
        assert data == front + [data[n]];
      } else {
        WordSumEven(data[..n - 1], data[n - 1], data[n]);
        assert front == data[..n - 1] + [data[n - 1]] && data == data[..n - 1] + [data[n - 1], data[n]];
      }
    }
  }

  lemma {:induction false} ByteSumChange(data: Text, i: nat, b: Byte)
    requires i < |data|
    ensures ByteSum(data[i := b]) == ByteSum(data) + Weight(i) * (b - data[i])
  {
    var n := |data| - 1;
    if i < n {
      ByteSumChange(data[..n], i, b);
      assert data[i := b][..n] == data[..n][i := b];
    } else {
      assert data[i := b][..n] == data[..n];
    }
  }

  lemma FoldTells(s: nat, t: nat)
    requires t < s < t + ONES
    ensures Fold(s) != Fold(t)
  {
    if t > 0 {
      assert s - 1 == ONES * ((s - 1) / ONES) + (s - 1) % ONES;
      assert t - 1 == ONES * ((t - 1) / ONES) + (t - 1) % ONES;
    }
  }

  /** Every change of a single byte changes the checksum. */
  lemma ChecksumTells(data: Text, i: nat, b: Byte)
    requires i < |data| && b != data[i]
    ensures Checksum(data[i := b]) != Checksum(data)
  {
    WordSumIsByteSum(data);
    WordSumIsByteSum(data[i := b]);
    ByteSumChange(data, i, b);
    var s, t := WordSum(data), WordSum(data[i := b]);
    if s < t { FoldTells(t, s); } else { FoldTells(s, t); }
  }

  /** The next word of the data, padded at the end. */
  lemma NextWord(data: Text, i: nat, n: nat, v: nat)
    requires i % 2 == 0 && i < |data| && n == (if i + 1 < |data| then 2 else 1)
    requires v == Pair(data[i], if n == 2 then data[i + 1] else 0)
    ensures Fold(WordSum(data[..i + n])) == AddWords(Fold(WordSum(data[..i])), v)
  {
    var chunk := data[i..i + n];
    assert data[..i] + chunk == data[..i + n];
    WordSumConcat(data[..i], chunk);
    assert WordSum(chunk) == v by { if n == 2 { assert chunk[2..] == []; } }
    FoldStep(WordSum(data[..i]), v);
  }

  /** The loop of the original on 16-bit words; a second carry is impossible. */
  method InetChecksum(data: Text) returns (r: nat)
    ensures r == Checksum(data)
  {
    r := 0;
    var i := 0;
    assert data[..0] == [];
    hide WordSum, Fold;
    assert Fold(WordSum([])) == 0 by { Nothing(); }
    while i < |data|
      invariant 0 <= i <= |data| && (i % 2 == 0 || i == |data|)
      invariant r == Fold(WordSum(data[..i]))
    {
      var n := if i + 1 < |data| then 2 else 1;
      var v := Pair(data[i], if n == 2 then data[i + 1] else 0);
      NextWord(data, i, n, v);
      if r + v > ONES {
        r := r + v - 0x1_0000;
        assert r + 1 <= ONES;
        r := r + 1;
      } else {
        r := r + v;
      }
      i := i + n;
    }
    assert data[..i] == data;
    r := ONES - r;
  }

  lemma Nothing()
    ensures Fold(WordSum([])) == 0
  {
  }
}
