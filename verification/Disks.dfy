/** Sectors, the write-through cache in front of them, and the byte cursor on top. */
module Disks {
  import opened Common

  // ----- A disk as one flat sequence of bytes -----

  ghost predicate Uniform(sectors: seq<Data>, size: nat) {
    forall i :: 0 <= i < |sectors| ==> |sectors[i]| == size
  }

  function Flat(sectors: seq<Data>): Data {
    if sectors == [] then [] else sectors[0] + Flat(sectors[1..])
  }

  lemma {:induction false} FlatLength(sectors: seq<Data>, size: nat)
    requires Uniform(sectors, size)
    ensures |Flat(sectors)| == |sectors| * size
  {
    if sectors != [] { FlatLength(sectors[1..], size); }
  }

  lemma Regroup(a: Data, b: Data, c: Data)
    ensures a + (b + c) == a + b + c
  {
  }

  lemma {:induction false} FlatConcat(a: seq<Data>, b: seq<Data>)
    ensures Flat(a + b) == Flat(a) + Flat(b)
  {
    if a == [] { assert a + b == b; }
    else {
      FlatConcat(a[1..], b);
      assert (a + b)[1..] == a[1..] + b;
      Regroup(a[0], Flat(a[1..]), Flat(b));
    }
  }

  lemma FlatOne(sector: Data)
    ensures Flat([sector]) == sector
  {
    assert Flat([sector]) == sector + Flat([]);
  }

  /** The disk around sector i. */
  lemma FlatAround(sectors: seq<Data>, size: nat, i: nat)
    requires Uniform(sectors, size) && i < |sectors|
    ensures |Flat(sectors[..i])| == i * size
    ensures Flat(sectors) == Flat(sectors[..i]) + sectors[i] + Flat(sectors[i + 1..])
  {
    FlatLength(sectors[..i], size);
    assert sectors == sectors[..i] + ([sectors[i]] + sectors[i + 1..]);
    FlatConcat(sectors[..i], [sectors[i]] + sectors[i + 1..]);
    FlatConcat([sectors[i]], sectors[i + 1..]);
    FlatOne(sectors[i]);
  }

  // ----- Arithmetic of positions -----

  function SectorOf(pos: nat, size: nat): nat
    requires size > 0
  {
    pos / size
  }

  function OffsetOf(pos: nat, size: nat): (r: nat)
    requires size > 0
    ensures r < size
  {
    pos % size
  }

  function PositionOf(sector: nat, offset: nat, size: nat): nat {
    sector * size + offset
  }

  lemma Split(pos: nat, size: nat)
    requires size > 0
    ensures PositionOf(SectorOf(pos, size), OffsetOf(pos, size), size) == pos
  {
  }

  lemma Position(sector: nat, offset: nat, size: nat)
    requires offset < size
    ensures SectorOf(PositionOf(sector, offset, size), size) == sector
      && OffsetOf(PositionOf(sector, offset, size), size) == offset
  {
    DivModUnique(sector * size + offset, size, sector, offset);
  }

  lemma DivModUnique(x: nat, size: nat, q: nat, r: nat)
    requires size > 0 && r < size && x == q * size + r
    ensures x / size == q && x % size == r
  {
    var d := x / size - q;
    assert x == size * (x / size) + x % size;
    assert d * size == size * (x / size) - q * size == r - x % size;
    Multiple(d, size);
  }

  lemma Multiple(d: int, size: nat)
    ensures d >= 1 ==> d * size >= size
    ensures d <= -1 ==> d * size <= 0 - size
  {
    if d >= 1 { assert d * size == size + (d - 1) * size; }
    if d <= -1 { assert d * size == (d + 1) * size - size; }
  }

  lemma Shift(sector: nat, amount: nat, size: nat)
    requires size > 0
    ensures SectorOf(sector * size + amount, size) == sector + SectorOf(amount, size)
    ensures OffsetOf(sector * size + amount, size) == OffsetOf(amount, size)
  {
    assert amount == (amount / size) * size + amount % size;
    assert sector * size + amount == (sector + amount / size) * size + amount % size;
    DivModUnique(sector * size + amount, size, sector + amount / size, amount % size);
  }

  // ----- Writing -----

  /** Whole sectors of a byte string. */
  function Chunks(data: Data, size: nat, n: nat): (r: seq<Data>)
    requires |data| == n * size
    ensures |r| == n && Uniform(r, size)
    decreases n
  {
    if n == 0 then []
    else
      MulStep(n, size);
      [data[..size]] + Chunks(data[size..], size, n - 1)
  }

  lemma MulStep(n: nat, size: nat)
    requires n > 0
    ensures n * size == size + (n - 1) * size
  {
  }

  lemma {:induction false} ChunksFlat(data: Data, size: nat, n: nat)
    requires |data| == n * size
    ensures Flat(Chunks(data, size, n)) == data
    decreases n
  {
    if n > 0 {
      MulStep(n, size);
      ChunksFlat(data[size..], size, n - 1);
      assert data == data[..size] + data[size..];
    }
  }

  /** Sectors from `first` on replaced by `chunks`. */
  function Overwritten(sectors: seq<Data>, first: nat, chunks: seq<Data>): seq<Data>
    requires first + |chunks| <= |sectors|
  {
    sectors[..first] + chunks + sectors[first + |chunks|..]
  }

  lemma NextChunk(rest: Data, size: nat, n: nat, done: seq<Data>)
    requires size > 0 && rest != [] && |rest| == n * size
    ensures n > 0 && size <= |rest| && |rest[size..]| == (n - 1) * size
    ensures done + Chunks(rest, size, n) == done + [rest[..size]] + Chunks(rest[size..], size, n - 1)
  {
    Multiple(n, size);
    MulStep(n, size);
    assert done + ([rest[..size]] + Chunks(rest[size..], size, n - 1)) ==
      done + [rest[..size]] + Chunks(rest[size..], size, n - 1);
  }

  lemma OneMoreSector(sectors: seq<Data>, first: nat, done: seq<Data>, sector: Data)
    requires first + |done| < |sectors|
    ensures Overwritten(sectors, first, done)[first + |done| := sector] == Overwritten(sectors, first, done + [sector])
  {
  }

  /** Writing whole sectors replaces just their bytes. */
  lemma OverwrittenFlat(sectors: seq<Data>, size: nat, first: nat, chunks: seq<Data>)
    requires Uniform(sectors, size) && Uniform(chunks, size) && first + |chunks| <= |sectors|
    ensures Flat(Overwritten(sectors, first, chunks)) ==
      Flat(sectors[..first]) + Flat(chunks) + Flat(sectors[first + |chunks|..])
  {
    FlatConcat(sectors[..first] + chunks, sectors[first + |chunks|..]);
    FlatConcat(sectors[..first], chunks);
  }

  /** The same split of the old disk. */
  lemma SplitFlat(sectors: seq<Data>, size: nat, first: nat, n: nat)
    requires Uniform(sectors, size) && first + n <= |sectors|
    ensures Flat(sectors) == Flat(sectors[..first]) + Flat(sectors[first..first + n]) + Flat(sectors[first + n..])
    ensures |Flat(sectors[..first])| == first * size && |Flat(sectors[first..first + n])| == n * size
  {
    FlatLength(sectors[..first], size);
    FlatLength(sectors[first..first + n], size);
    assert sectors == sectors[..first] + sectors[first..first + n] + sectors[first + n..];
    FlatConcat(sectors[..first] + sectors[first..first + n], sectors[first + n..]);
    FlatConcat(sectors[..first], sectors[first..first + n]);
  }

  /** The bytes a write puts down: the start of the first sector, the buffer, the rest of the last sector. */
  function Patched(head: Data, buf: Data, tail: Data, offset: nat, end: nat): Data
    requires offset <= |head| && end <= |tail|
  {
    head[..offset] + buf + (if end == 0 then [] else tail[end..])
  }

  /** Sectors touched by `len` bytes from an offset on. */
  function SectorCount(offset: nat, len: nat, size: nat): nat
    requires size > 0
  {
    SectorOf(offset + len, size) + if OffsetOf(offset + len, size) == 0 then 0 else 1
  }

  lemma FlatFirst(mid: seq<Data>, size: nat, offset: nat)
    requires mid != [] && Uniform(mid, size) && offset <= size
    ensures |Flat(mid)| >= offset && Flat(mid)[..offset] == mid[0][..offset]
  {
  }

  lemma FlatLast(mid: seq<Data>, size: nat, r: nat)
    requires mid != [] && Uniform(mid, size) && r <= size
    ensures var n := |mid| - 1;
      && n * size + r <= |Flat(mid)| && Flat(mid)[n * size + r..] == mid[n][r..]
  {
    var n := |mid| - 1;
    FlatAround(mid, size, n);
    assert mid[n + 1..] == [];
  }

  /** Which sectors a write reads and replaces. */
  lemma WriteRange(sector: nat, offset: nat, len: nat, size: nat)
    requires offset < size && len > 0
    ensures var end := PositionOf(sector, offset, size) + len; var n := SectorCount(offset, len, size);
      && n > 0 && OffsetOf(end, size) == OffsetOf(offset + len, size)
      && SectorOf(end, size) == sector + n - if OffsetOf(end, size) == 0 then 0 else 1
  {
    Shift(sector, offset + len, size);
    assert offset + len == size * SectorOf(offset + len, size) + OffsetOf(offset + len, size);
  }

  /** The patched bytes fill whole sectors, and agree with the old sectors outside the buffer. */
  lemma PatchedFits(mid: seq<Data>, size: nat, buf: Data, offset: nat)
    requires size > 0 && offset < size && buf != [] && Uniform(mid, size) && |mid| == SectorCount(offset, |buf|, size)
    ensures mid != []
    ensures var data := Patched(mid[0], buf, mid[|mid| - 1], offset, OffsetOf(offset + |buf|, size));
      && |data| == |mid| * size && offset + |buf| <= |data|
      && |Flat(mid)| == |mid| * size
      && data == Flat(mid)[..offset] + buf + Flat(mid)[offset + |buf|..]
  {
    hide SectorOf, OffsetOf, Flat;
    var end := offset + |buf|;
    var q, r := SectorOf(end, size), OffsetOf(end, size);
    Split(end, size);
    assert mid != [] by { WriteRange(0, offset, |buf|, size); }
    FlatLength(mid, size);
    FlatFirst(mid, size, offset);
    FlatLast(mid, size, r);
    Remaining(|mid| - 1, |mid|, size);
    if r == 0 { assert Flat(mid)[end..] == []; }
  }

  /** A write changes exactly the bytes it is given. */
  lemma WriteFlat(sectors: seq<Data>, size: nat, first: nat, offset: nat, buf: Data)
    requires size > 0 && offset < size && buf != [] && Uniform(sectors, size)
    requires first + SectorCount(offset, |buf|, size) <= |sectors|
    ensures var n := SectorCount(offset, |buf|, size);
      var data := Patched(sectors[first], buf, sectors[first + n - 1], offset, OffsetOf(offset + |buf|, size));
      && n > 0 && |data| == n * size && PositionOf(first, offset, size) + |buf| <= |Flat(sectors)|
      && Flat(Overwritten(sectors, first, Chunks(data, size, n))) ==
           Flat(sectors)[..PositionOf(first, offset, size)] + buf
             + Flat(sectors)[PositionOf(first, offset, size) + |buf|..]
  {
    hide SectorOf, OffsetOf, Flat, Chunks, SectorCount;
    var n := SectorCount(offset, |buf|, size);
    var mid := sectors[first..first + n];
    PatchedFits(mid, size, buf, offset);
    assert mid[0] == sectors[first] && mid[n - 1] == sectors[first + n - 1];
    var data := Patched(sectors[first], buf, sectors[first + n - 1], offset, OffsetOf(offset + |buf|, size));
    SplitFlat(sectors, size, first, n);
    OverwrittenFlat(sectors, size, first, Chunks(data, size, n));
    ChunksFlat(data, size, n);
    Reassemble(Flat(sectors[..first]), Flat(mid), Flat(sectors[first + n..]), offset, buf);
  }

  lemma Reassemble(pre: Data, mid: Data, post: Data, offset: nat, buf: Data)
    requires offset + |buf| <= |mid|
    ensures var all := pre + mid + post;
      pre + (mid[..offset] + buf + mid[offset + |buf|..]) + post ==
        all[..|pre| + offset] + buf + all[|pre| + offset + |buf|..]
  {
  }

  /** The byte at this position is on the disk exactly when its sector is. */
  lemma EndsOnDisk(sectors: seq<Data>, size: nat, end: nat)
    requires size > 0 && Uniform(sectors, size)
    ensures SectorOf(end, size) < |sectors| <==> end < |Flat(sectors)|
  {
    FlatLength(sectors, size);
    Split(end, size);
    var n, q := |sectors|, SectorOf(end, size);
    if q < n { Remaining(q + 1, n, size); Remaining(q, n, size); } else { Remaining(n, q, size); }
  }

  /** The last sector written as a whole lies on the disk, but the write also asks for the sector behind it. */
  lemma LastSectorRefused(sectors: seq<Data>, size: nat, buf: Data)
    requires size > 0 && Uniform(sectors, size) && sectors != [] && |buf| == size
    ensures var pos := (|sectors| - 1) * size;
      && pos + |buf| == |Flat(sectors)| && SectorOf(pos, size) == |sectors| - 1 && SectorCount(0, |buf|, size) == 1
      && SectorOf(pos + |buf|, size) == |sectors|
  {
    FlatLength(sectors, size);
    MulStep(|sectors|, size);
    Position(|sectors| - 1, 0, size);
    Position(|sectors|, 0, size);
    Position(1, 0, size);
  }

  // ----- Reading -----

  function Min(a: nat, b: nat): nat { if a < b then a else b }

  /** The read loop from byte i of the buffer on; `None` where the original panics. */
  function ReadLoop(sectors: seq<Data>, size: nat, pos: nat, i: nat, len: nat): Option<(Data, nat)>
    requires size > 0 && i <= len
    decreases len - i
  {
    if i == len then Some(([], pos))
    else
      var end := Min(i + size, len);
      var s, o := SectorOf(pos, size), OffsetOf(pos, size);
      if s >= |sectors| || |sectors[s]| != size || o + (end - i) > size then None
      else
        // The cursor moves by everything read so far, not by what this round read.
        match ReadLoop(sectors, size, pos + end, end, len)
        case None => None
        case Some((rest, p)) => Some((sectors[s][o..o + (end - i)] + rest, p))
  }

  lemma {:induction false} ReadMovesOn(sectors: seq<Data>, size: nat, pos: nat, i: nat, len: nat)
    requires size > 0 && i <= len
    ensures var r := ReadLoop(sectors, size, pos, i, len); r.Some? ==>
      r.value.1 >= pos && (i < len ==> r.value.1 >= pos + len)
    decreases len - i
  {
    hide SectorOf, OffsetOf;
    if i < len { ReadMovesOn(sectors, size, pos + Min(i + size, len), Min(i + size, len), len); }
  }

  /** A read leaves the cursor where it should if and only if it stays within one sector of the disk. */
  lemma ReadRightIff(sectors: seq<Data>, size: nat, pos: nat, len: nat)
    requires size > 0 && Uniform(sectors, size)
    ensures var r := ReadLoop(sectors, size, pos, 0, len);
      r.Some? && r.value.1 == pos + len <==>
        len == 0 || (OffsetOf(pos, size) + len <= size && SectorOf(pos, size) < |sectors|)
  {
    hide SectorOf, OffsetOf;
    if len > 0 { ReadMovesOn(sectors, size, pos + Min(size, len), Min(size, len), len); }
  }

  /** And then it returns the bytes of the flat disk. */
  lemma ReadFlat(sectors: seq<Data>, size: nat, pos: nat, len: nat)
    requires size > 0 && len > 0 && Uniform(sectors, size) && OffsetOf(pos, size) + len <= size
      && SectorOf(pos, size) < |sectors|
    ensures pos + len <= |Flat(sectors)|
    ensures ReadLoop(sectors, size, pos, 0, len) == Some((Flat(sectors)[pos..pos + len], pos + len))
  {
    hide SectorOf, OffsetOf, Flat;
    var i, o := SectorOf(pos, size), OffsetOf(pos, size);
    FlatAround(sectors, size, i);
    Split(pos, size);
    Inside(Flat(sectors[..i]), sectors[i], Flat(sectors[i + 1..]), o, len);
    var bytes := sectors[i][o..o + len];
    assert ReadLoop(sectors, size, pos + len, len, len) == Some(([], pos + len));
    assert bytes + [] == bytes;
  }

  lemma Inside(pre: Data, mid: Data, post: Data, o: nat, len: nat)
    requires o + len <= |mid|
    ensures (pre + mid + post)[|pre| + o..|pre| + o + len] == mid[o..o + len]
  {
  }

  /** Two whole sectors from the start of any disk: the right bytes, but the cursor ends one sector too far. */
  lemma ReadTwoSectors(sectors: seq<Data>, size: nat)
    requires size > 0 && Uniform(sectors, size) && |sectors| >= 2
    ensures 2 * size <= |Flat(sectors)|
      && ReadLoop(sectors, size, 0, 0, 2 * size) == Some((Flat(sectors)[..2 * size], 3 * size))
  {
    Position(0, 0, size);
    Position(1, 0, size);
    hide SectorOf, OffsetOf;
    assert ReadLoop(sectors, size, 3 * size, 2 * size, 2 * size) == Some(([], 3 * size));
    assert sectors[1][0..size] + [] == sectors[1];
    assert ReadLoop(sectors, size, size, size, 2 * size) == Some((sectors[1], 3 * size));
    assert sectors[0][0..size] == sectors[0];
    FlatTwo(sectors, size);
  }

  /** How many sectors the cursor has moved on before round j. */
  function Triangle(j: nat): nat {
    if j == 0 then 0 else Triangle(j - 1) + j
  }

  lemma {:induction false} TriangleGrows(i: nat, j: nat)
    requires i <= j
    ensures Triangle(i) + (j - i) <= Triangle(j)
    decreases j
  {
    if i < j { TriangleGrows(i, j - 1); }
  }

  /** The sectors a read of n whole sectors from sector s on looks at, from round j on. */
  function Skipping(sectors: seq<Data>, s: nat, j: nat, n: nat): seq<Data>
    requires j <= n && (j < n ==> s + Triangle(n - 1) < |sectors|)
    decreases n - j
  {
    if j == n then []
    else
      TriangleGrows(j, n - 1);
      [sectors[s + Triangle(j)]] + Skipping(sectors, s, j + 1, n)
  }

  /** One round on a whole sector: the cursor moves by all that has been read so far. */
  lemma ReadWhole(sectors: seq<Data>, size: nat, pos: nat, i: nat, len: nat, at: nat)
    requires size > 0 && Uniform(sectors, size) && i + size <= len
    requires SectorOf(pos, size) == at && OffsetOf(pos, size) == 0
    ensures ReadLoop(sectors, size, pos, i, len) ==
      if at >= |sectors| then None
      else
        match ReadLoop(sectors, size, pos + (i + size), i + size, len)
        case None => None
        case Some((rest, p)) => Some((sectors[at] + rest, p))
  {
    hide SectorOf, OffsetOf;
    if at < |sectors| { assert sectors[at][0..size] == sectors[at]; }
  }

  lemma SectorSteps(size: nat, at: nat, j: nat, n: nat)
    requires size > 0 && j < n
    ensures j * size + size == (j + 1) * size && (j + 1) * size <= n * size
    ensures at * size + (j + 1) * size == (at + j + 1) * size
    ensures SectorOf(at * size, size) == at && OffsetOf(at * size, size) == 0
  {
    Remaining(j, n, size);
    Remaining(j + 1, n, size);
    Position(at, 0, size);
    Distributes(at, j + 1, size);
    assert PositionOf(at, 0, size) == at * size;
  }

  lemma Distributes(a: nat, b: nat, size: nat)
    ensures a * size + b * size == (a + b) * size
  {
  }

  /** What has been read followed by the rest, if the rest can be read. */
  function Followed(done: Data, rest: Option<(Data, nat)>): Option<(Data, nat)> {
    match rest case None => None case Some((more, p)) => Some((done + more, p))
  }

  lemma {:induction false} ReadSkipsFrom(sectors: seq<Data>, size: nat, s: nat, j: nat, n: nat, pos: nat, i: nat,
      len: nat, rest: Option<(Data, nat)>)
    requires size > 0 && Uniform(sectors, size) && j <= n && i <= len
    requires pos == (s + Triangle(j)) * size && i == j * size && n * size <= len
    requires rest == ReadLoop(sectors, size, (s + Triangle(n)) * size, n * size, len)
    ensures ReadLoop(sectors, size, pos, i, len) ==
      if j < n && s + Triangle(n - 1) >= |sectors| then None else Followed(Flat(Skipping(sectors, s, j, n)), rest)
    decreases n - j
  {
    if j < n {
      var at := s + Triangle(j);
      TriangleGrows(j, n - 1);
      SectorSteps(size, at, j, n);
      TriangleNext(s, j);
      ReadSkipsFrom(sectors, size, s, j + 1, n, pos + (i + size), i + size, len, rest);
      ReadWhole(sectors, size, pos, i, len, at);
      hide ReadLoop, Flat, Skipping, Triangle, SectorOf, OffsetOf;
      if s + Triangle(n - 1) < |sectors| && rest.Some? {
        FlatNext(sectors, s, j, n);
        Regroup(sectors[at], Flat(Skipping(sectors, s, j + 1, n)), rest.value.0);
      }
    } else if rest.Some? {
      assert [] + rest.value.0 == rest.value.0;
    }
  }

  lemma TriangleNext(s: nat, j: nat)
    ensures s + Triangle(j + 1) == s + Triangle(j) + j + 1
  {
  }

  lemma FlatNext(sectors: seq<Data>, s: nat, j: nat, n: nat)
    requires j < n && s + Triangle(n - 1) < |sectors| && s + Triangle(j) < |sectors|
    ensures Flat(Skipping(sectors, s, j, n)) == sectors[s + Triangle(j)] + Flat(Skipping(sectors, s, j + 1, n))
  {
    var first, rest := sectors[s + Triangle(j)], Skipping(sectors, s, j + 1, n);
    assert ([first] + rest)[1..] == rest;
  }

  /** The part of a sector that is read last. */
  lemma ReadLast(sectors: seq<Data>, size: nat, at: nat, i: nat, r: nat)
    requires size > 0 && Uniform(sectors, size) && r < size
    ensures ReadLoop(sectors, size, at * size, i, i + r) ==
      if r == 0 then Some(([], at * size))
      else if at >= |sectors| then None
      else Some((sectors[at][..r], at * size + (i + r)))
  {
    Position(at, 0, size);
    assert PositionOf(at, 0, size) == at * size;
    hide SectorOf, OffsetOf, PositionOf;
    assert ReadLoop(sectors, size, at * size + (i + r), i + r, i + r) == Some(([], at * size + (i + r)));
    if r > 0 && at < |sectors| { assert sectors[at][0..r] + [] == sectors[at][..r]; }
  }

  /**
   * What a read from the start of a sector does: it takes the sectors 0, 1, 3, 6, 10 and so on behind that
   * one, whole ones first, and moves on from the last one by the whole length.
   */
  lemma ReadSkips(sectors: seq<Data>, size: nat, s: nat, n: nat, r: nat, whole: nat)
    requires size > 0 && Uniform(sectors, size) && r < size && whole == n * size
    ensures var last := s + Triangle(n);
      ReadLoop(sectors, size, s * size, 0, whole + r) ==
        if n > 0 && s + Triangle(n - 1) >= |sectors| then None
        else if r == 0 then Some((Flat(Skipping(sectors, s, 0, n)), last * size))
        else if last >= |sectors| then None
        else Some((Flat(Skipping(sectors, s, 0, n)) + sectors[last][..r], last * size + (whole + r)))
  {
    var last := s + Triangle(n);
    ReadLast(sectors, size, last, whole, r);
    var rest := ReadLoop(sectors, size, last * size, whole, whole + r);
    hide ReadLoop, Flat, Skipping;
    assert s + Triangle(0) == s;
    ReadSkipsFrom(sectors, size, s, 0, n, s * size, 0, whole + r, rest);
    if n == 0 || s + Triangle(n - 1) < |sectors| { NothingAfter(Flat(Skipping(sectors, s, 0, n))); }
  }

  lemma NothingAfter(done: Data)
    ensures done + [] == done
  {
  }

  /** A read from inside a sector either stays in that sector, or panics. */
  lemma ReadInside(sectors: seq<Data>, size: nat, pos: nat, len: nat)
    requires size > 0 && Uniform(sectors, size) && OffsetOf(pos, size) > 0 && len > 0
    ensures var fits := SectorOf(pos, size) < |sectors| && OffsetOf(pos, size) + len <= size;
      && (ReadLoop(sectors, size, pos, 0, len).Some? <==> fits)
      && (fits ==>
            && pos + len <= |Flat(sectors)|
            && ReadLoop(sectors, size, pos, 0, len) == Some((Flat(sectors)[pos..pos + len], pos + len)))
  {
    hide SectorOf, OffsetOf, Flat;
    if SectorOf(pos, size) < |sectors| && OffsetOf(pos, size) + len <= size { ReadFlat(sectors, size, pos, len); }
  }

  lemma {:induction false} TriangleIs(n: nat)
    ensures Triangle(n) == n * (n + 1) / 2
  {
    if n > 0 {
      TriangleIs(n - 1);
      assert n * (n + 1) == (n - 1) * n + 2 * n;
    }
  }

  lemma FlatTwo(sectors: seq<Data>, size: nat)
    requires Uniform(sectors, size) && |sectors| >= 2
    ensures |Flat(sectors)| >= 2 * size && Flat(sectors)[..2 * size] == sectors[0] + sectors[1]
  {
    var rest := sectors[1..];
    assert Flat(sectors) == sectors[0] + Flat(rest) && Flat(rest) == sectors[1] + Flat(rest[1..]);
  }

  // ----- The objects -----

  class Disk {
    const size: nat
    var sectors: seq<Data>

    constructor (size: nat, sectors: seq<Data>)
      requires size > 0 && Uniform(sectors, size)
      ensures this.size == size && this.sectors == sectors && Valid()
    {
      this.size, this.sectors := size, sectors;
    }

    ghost predicate Valid()
      reads this
    {
      size > 0 && Uniform(sectors, size)
    }
  }

  class DiskAccess {
    const disk: Disk
    var cache: Option<map<nat, Data>>

    constructor (disk: Disk, cacheSize: nat)
      requires disk.Valid()
      ensures this.disk == disk && Valid()
    {
      this.disk := disk;
      cache := if cacheSize != 0 then Some(map[]) else None;
    }

    /** Every cached sector is the sector on the disk. */
    ghost predicate Valid()
      reads this, disk
    {
      && disk.Valid()
      && (cache.Some? ==> forall s :: s in cache.value ==> s < |disk.sectors| && cache.value[s] == disk.sectors[s])
    }

    /** Puts a sector into the cache, which may forget any others. */
    method Put(sector: nat, data: Data)
      requires cache.Some?
      modifies this`cache
      ensures cache.Some? && sector in cache.value && cache.value[sector] == data
      ensures forall s :: s in cache.value && s != sector ==>
        s in old(cache.value) && cache.value[s] == old(cache.value[s])
    {
      var kept: set<nat> :| kept <= cache.value.Keys;
      cache := Some((map s | s in kept :: cache.value[s])[sector := data]);
    }

    method Read(sector: nat) returns (data: Data)
      requires Valid() && sector < |disk.sectors|
      modifies this`cache
      ensures Valid() && data == disk.sectors[sector] && |data| == disk.size
    {
      if cache.Some? && sector in cache.value { return cache.value[sector]; }
      data := disk.sectors[sector];
      if cache.Some? { Put(sector, data); }
    }

    method Write(sector: nat, data: Data)
      requires Valid() && sector < |disk.sectors| && |data| == disk.size
      modifies this`cache, disk
      ensures Valid() && disk.sectors == old(disk.sectors)[sector := data]
    {
      if cache.Some? { Put(sector, data); }
      disk.sectors := disk.sectors[sector := data];
    }
  }

  class DiskCursor {
    const access: DiskAccess
    var sector: nat
    var offset: nat

    constructor (access: DiskAccess)
      requires access.Valid()
      ensures this.access == access && Valid() && At() == 0
    {
      this.access, sector, offset := access, 0, 0;
    }

    ghost predicate Valid()
      reads this, access, access.disk
    {
      access.Valid() && offset < access.disk.size
    }

    function At(): nat
      reads this, access, access.disk
    {
      PositionOf(sector, offset, access.disk.size)
    }

    method MoveCursor(amount: nat)
      requires Valid()
      modifies this
      ensures Valid() && At() == old(At()) + amount
    {
      hide SectorOf, OffsetOf, PositionOf;
      var position := At() + amount;
      Split(position, access.disk.size);
      sector, offset := SectorOf(position, access.disk.size), OffsetOf(position, access.disk.size);
    }

    /**
     * Changes exactly the bytes from the cursor on to the buffer, and moves past them. `ok` is false
     * where the original fails: on an empty buffer, and on a sector that is not on the disk. It always
     * looks at the sector behind the last byte, so it fails at the very end of the disk as well.
     */
    method Write(buf: Data) returns (ok: bool)
      requires Valid()
      modifies this, access, access.disk
      ensures Valid()
      ensures ok <==> buf != [] && old(At()) + |buf| < |Flat(old(access.disk.sectors))|
      ensures ok ==> At() == old(At()) + |buf|
      ensures ok ==>
        var was := Flat(old(access.disk.sectors));
        Flat(access.disk.sectors) == was[..old(At())] + buf + was[old(At()) + |buf|..]
      ensures !ok ==> At() == old(At()) && access.disk.sectors == old(access.disk.sectors)
    {
      hide SectorOf, OffsetOf, PositionOf, SectorCount, Flat, Overwritten, Chunks;
      if buf == [] { return false; }
      var size := access.disk.size;
      ghost var was, n := access.disk.sectors, SectorCount(offset, |buf|, size);
      WriteRange(sector, offset, |buf|, size);
      var end := At() + |buf|;
      var endExact := OffsetOf(offset + |buf|, size) == 0;
      var first, last := sector, SectorOf(end, size);
      EndsOnDisk(was, size, end);
      assert first <= last;
      // A single sector with both ends exact would need no read, but a non-empty buffer rules that out.
      if first >= |access.disk.sectors| { return false; }
      var head := access.Read(first);
      var tail := head;
      if first != last {
        if last >= |access.disk.sectors| { return false; }
        tail := access.Read(last);
      }
      WriteFlat(was, size, sector, offset, buf);
      var data := head[..offset] + buf;
      if !endExact { data := data + tail[OffsetOf(end, size)..]; }
      assert data == Patched(was[first], buf, was[first + n - 1], offset, OffsetOf(offset + |buf|, size));
      WriteSectors(first, data, n);
      MoveCursor(|buf|);
      ok := true;
    }

    method WriteSectors(first: nat, data: Data, ghost n: nat)
      requires access.Valid() && |data| == n * access.disk.size && first + n <= |access.disk.sectors|
      modifies access, access.disk
      ensures access.Valid()
        && access.disk.sectors == Overwritten(old(access.disk.sectors), first, Chunks(data, access.disk.size, n))
    {
      var size := access.disk.size;
      ghost var was, left := access.disk.sectors, n;
      ghost var done: seq<Data> := [];
      var i, rest := first, data;
      assert Overwritten(was, first, done) == was;
      while rest != []
        invariant i == first + |done| && |done| + left == n && access.Valid() && |rest| == left * size
        invariant done + Chunks(rest, size, left) == Chunks(data, size, n)
        invariant access.disk.sectors == Overwritten(was, first, done)
        decreases |rest|
      {
        NextChunk(rest, size, left, done);
        access.Write(i, rest[..size]);
        OneMoreSector(was, first, done, rest[..size]);
        done, left := done + [rest[..size]], left - 1;
        i, rest := i + 1, rest[size..];
      }
      Multiple(left, size);
      assert done + [] == done;
    }

    /** Fills the buffer as far as the loop of the original gets; `ok` is false where it panics. */
    method Read(buf: array<bv8>) returns (ok: bool)
      requires Valid()
      modifies this, access`cache, buf
      ensures Valid()
      ensures ok == ReadLoop(access.disk.sectors, access.disk.size, old(At()), 0, buf.Length).Some?
      ensures ok ==> (buf[..], At()) == ReadLoop(access.disk.sectors, access.disk.size, old(At()), 0, buf.Length).value
    {
      hide SectorOf, OffsetOf, PositionOf, ReadLoop;
      var size := access.disk.size;
      ghost var sectors, start := access.disk.sectors, At();
      var i := 0;
      Begins(ReadLoop(sectors, size, start, 0, buf.Length));
      assert buf[..0] == [];
      while i < buf.Length
        invariant Valid() && i <= buf.Length && access.disk.sectors == sectors
        invariant Continues(ReadLoop(sectors, size, start, 0, buf.Length), buf[..i],
          ReadLoop(sectors, size, At(), i, buf.Length))
      {
        Position(sector, offset, size);
        ReadRound(sectors, size, At(), i, buf.Length, buf[..i], ReadLoop(sectors, size, start, 0, buf.Length));
        if sector >= |access.disk.sectors| { return false; }
        var data := access.Read(sector);
        var end := Min(i + size, buf.Length);
        var n := end - i;
        if offset + n > size { return false; }
        ghost var before, at := buf[..i], At();
        forall k | 0 <= k < n { buf[i + k] := data[offset + k]; }
        assert buf[..end] == before + data[offset..offset + n];
        i := end;
        MoveCursor(i);
      }
      assert buf[..buf.Length] == buf[..];
      ReadEnds(sectors, size, At(), buf.Length, buf[..], ReadLoop(sectors, size, start, 0, buf.Length));
      ok := true;
    }
  }

  lemma Remaining(i: nat, n: nat, size: nat)
    requires size > 0 && i <= n
    ensures i * size < n * size <==> i < n
    ensures i * size + size == (i + 1) * size
  {
    Multiple(n - i, size);
    assert n * size - i * size == (n - i) * size;
  }

  /** The whole loop is what has been read so far followed by the rest of the loop. */
  ghost predicate Continues(all: Option<(Data, nat)>, done: Data, rest: Option<(Data, nat)>) {
    match rest
    case None => all.None?
    case Some((more, p)) => all == Some((done + more, p))
  }

  lemma Begins(all: Option<(Data, nat)>)
    ensures Continues(all, [], all)
  {
    if all.Some? { assert [] + all.value.0 == all.value.0; }
  }

  /** One round of the loop: it panics, or it reads its piece and goes on. */
  lemma ReadRound(sectors: seq<Data>, size: nat, pos: nat, i: nat, len: nat, done: Data, all: Option<(Data, nat)>)
    requires size > 0 && Uniform(sectors, size) && i < len && Continues(all, done, ReadLoop(sectors, size, pos, i, len))
    ensures var s, o, end := SectorOf(pos, size), OffsetOf(pos, size), Min(i + size, len);
      if s >= |sectors| || o + (end - i) > size then all.None?
      else Continues(all, done + sectors[s][o..o + (end - i)], ReadLoop(sectors, size, pos + end, end, len))
  {
    hide SectorOf, OffsetOf;
    var s, o, end := SectorOf(pos, size), OffsetOf(pos, size), Min(i + size, len);
    if s < |sectors| && o + (end - i) <= size {
      var rest := ReadLoop(sectors, size, pos + end, end, len);
      var piece := sectors[s][o..o + (end - i)];
      if rest.Some? { assert done + (piece + rest.value.0) == done + piece + rest.value.0; }
    }
  }

  lemma ReadEnds(sectors: seq<Data>, size: nat, pos: nat, len: nat, done: Data, all: Option<(Data, nat)>)
    requires size > 0 && Continues(all, done, ReadLoop(sectors, size, pos, len, len))
    ensures all == Some((done, pos))
  {
    assert done + [] == done;
  }
}
