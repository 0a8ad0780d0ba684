/**
 * Memory a process asks for: allocating a range of pages, or changing their protection, and
 * giving a range back, on top of its page tables and a shared pool of physical frames.
 */
module ProcessMemory {
  import opened Common
  import opened PageTables

  /** Physical memory as far as single pages go: frames nobody owns. */
  class FramePool {
    var free: set<Frame>

    constructor (frames: set<Frame>)
      ensures free == frames
    {
      free := frames;
    }

    method Allocate() returns (f: Option<Frame>)
      modifies this
      ensures old(free) == {} ==> f.None? && free == {}
      ensures old(free) != {} ==> f.Some? && f.value in old(free) && free == old(free) - {f.value}
    {
      if free == {} { return None; }
      var x :| x in free;
      free := free - {x};
      f := Some(x);
    }

    method Release(f: Frame)
      modifies this
      ensures free == old(free) + {f}
    {
      free := free + {f};
    }
  }

  datatype Protection = Protection(read: bool, write: bool, execute: bool)

  datatype MemoryError = IncorrectAlignment | Unsupported | PermissionDenied | NoMemory

  /** `Panicked` and `Overrun` are where the original panics, or places a page table behind its area. */
  datatype Outcome = Done | Failed(error: MemoryError) | Panicked | Overrun

  /** The page table flags for a protection; the tables add the huge-page flag. */
  function PtFlags(p: Protection): Flags {
    Flags(true, p.write, true, !p.execute)
  }

  // ----- Addresses -----

  const HALF: nat := 0x8000_0000_0000
  const TOP: nat := 0x1_0000_0000_0000_0000

  predicate Canonical(a: nat) {
    a < HALF || TOP - HALF <= a < TOP
  }

  function PageOf(a: nat): PageNo {
    a / HUGE_PAGE_SIZE % PAGES
  }

  /** Bits 21 to 47 of the address; below them is the offset, above them only their sign. */
  lemma PageBits(a: nat)
    ensures a % 0x1_0000_0000_0000 == 0x20_0000 * PageOf(a) + a % 0x20_0000
  {
    var n := a / HUGE_PAGE_SIZE;
    assert a == HUGE_PAGE_SIZE * n + a % HUGE_PAGE_SIZE && n == PAGES * (n / PAGES) + n % PAGES;
    assert HUGE_PAGE_SIZE * PAGES == 0x1_0000_0000_0000;
    assert a == 0x1_0000_0000_0000 * (n / PAGES) + (HUGE_PAGE_SIZE * (n % PAGES) + a % HUGE_PAGE_SIZE);
  }

  /** All n pages from an address on have canonical addresses. */
  predicate InOneHalf(a: nat, n: nat) {
    n == 0 || (a < HALF && a + HUGE_PAGE_SIZE * (n - 1) < HALF)
      || (TOP - HALF <= a && a + HUGE_PAGE_SIZE * (n - 1) < TOP)
  }

  /** Page numbers of consecutive addresses are consecutive. */
  lemma PagesFollow(a: nat, n: nat, i: nat)
    requires a % HUGE_PAGE_SIZE == 0 && InOneHalf(a, n) && i < n
    ensures Canonical(a + HUGE_PAGE_SIZE * i) && PageOf(a + HUGE_PAGE_SIZE * i) == PageOf(a) + i
  {
    var base := a / HUGE_PAGE_SIZE;
    assert a == HUGE_PAGE_SIZE * base;
    assert (a + HUGE_PAGE_SIZE * i) / HUGE_PAGE_SIZE == base + i;
    var k := if a < HALF then 0 else 65535;
    Remainder(base, k);
    Remainder(base + i, k);
  }

  /** One page further is still in the same half, or its address is not canonical. */
  lemma HalfGoesOn(a: nat, i: nat)
    requires a % HUGE_PAGE_SIZE == 0 && Canonical(a) && InOneHalf(a, i) && Canonical(a + HUGE_PAGE_SIZE * i)
    ensures InOneHalf(a, i + 1)
  {
    assert HALF % HUGE_PAGE_SIZE == 0 && TOP % HUGE_PAGE_SIZE == 0;
  }

  lemma Remainder(x: nat, k: nat)
    requires PAGES * k <= x < PAGES * k + PAGES
    ensures x % PAGES == x - PAGES * k
  {
  }

  function PageAt(first: PageNo, i: nat): PageNo
    requires first + i < PAGES
  {
    first + i
  }

  function PagesFrom(first: PageNo, n: nat): set<PageNo> {
    set i | 0 <= i < n && first + i < PAGES :: PageAt(first, i)
  }

  // ----- Who owns which frame -----

  /** Dynamic frames are distinct and each backs exactly one page; no mapped or dynamic frame is free. */
  ghost predicate Owned(m: map<PageNo, Leaf>, dynamic: seq<Frame>, free: set<Frame>) {
    && NoDup(dynamic)
    && (forall f :: f in dynamic ==> f !in free && exists p :: p in m && m[p].frame == f)
    && (forall p, q :: p in m && q in m && m[p].frame == m[q].frame && m[p].frame in dynamic ==> p == q)
    && (forall p :: p in m ==> m[p].frame !in free)
  }

  function Drained(s: seq<Frame>, f: Frame): seq<Frame> {
    if s == [] then [] else if s[0] == f then Drained(s[1..], f) else [s[0]] + Drained(s[1..], f)
  }

  lemma {:induction false} DrainedMembers(s: seq<Frame>, f: Frame)
    ensures forall x :: x in Drained(s, f) <==> x in s && x != f
    ensures NoDup(s) ==> NoDup(Drained(s, f))
  {
    if s != [] {
      DrainedMembers(s[1..], f);
      assert forall x :: x in s <==> x == s[0] || x in s[1..];
      if NoDup(s) {
        assert NoDup(s[1..]);
        assert s[0] !in s[1..];
      }
    }
  }

  lemma NothingOwned(m: map<PageNo, Leaf>, free: set<Frame>)
    requires forall p :: p in m ==> m[p].frame !in free
    ensures Owned(m, [], free)
  {
  }

  lemma OwnNew(m: map<PageNo, Leaf>, dynamic: seq<Frame>, free: set<Frame>, p: PageNo, f: Frame, flags: Flags)
    requires Owned(m, dynamic, free) && p !in m && f in free
    ensures Owned(m[p := Leaf(f, flags)], dynamic + [f], free - {f})
  {
    var m' := m[p := Leaf(f, flags)];
    forall g | g in dynamic + [f] ensures exists q :: q in m' && m'[q].frame == g {
      if g == f { assert p in m' && m'[p].frame == g; }
      else {
        var q :| q in m && m[q].frame == g;
        assert q in m' && m'[q].frame == g;
      }
    }
  }

  lemma OwnFlags(m: map<PageNo, Leaf>, dynamic: seq<Frame>, free: set<Frame>, p: PageNo, flags: Flags)
    requires Owned(m, dynamic, free) && p in m
    ensures Owned(m[p := Leaf(m[p].frame, flags)], dynamic, free)
  {
    var m' := m[p := Leaf(m[p].frame, flags)];
    forall g | g in dynamic ensures exists q :: q in m' && m'[q].frame == g {
      var q :| q in m && m[q].frame == g;
      assert q in m' && m'[q].frame == g;
    }
  }

  lemma OwnLess(m: map<PageNo, Leaf>, dynamic: seq<Frame>, free: set<Frame>, p: PageNo)
    requires Owned(m, dynamic, free) && p in m && m[p].frame in dynamic
    ensures Owned(m - {p}, Drained(dynamic, m[p].frame), free + {m[p].frame})
  {
    var f := m[p].frame;
    DrainedMembers(dynamic, f);
    var m' := m - {p};
    forall g | g in Drained(dynamic, f) ensures exists q :: q in m' && m'[q].frame == g {
      var q :| q in m && m[q].frame == g;
      assert q in m' && m'[q].frame == g;
    }
  }

  function FramesIn(dynamic: seq<Frame>): set<Frame> {
    set f | f in dynamic
  }

  /** After i pages of a range: these are backed by dynamic frames with the new flags, the others are as before. */
  ghost predicate Allocated(was: map<PageNo, Leaf>, now: map<PageNo, Leaf>, dynamic: seq<Frame>, first: PageNo,
      i: nat, flags: Flags) {
    && (forall p: PageNo :: first <= p < first + i ==>
          && p in now && now[p].flags == flags && now[p].frame in dynamic
          && (p in was ==> now[p].frame == was[p].frame))
    && (forall p: PageNo :: !(first <= p < first + i) ==> SamePage(was, now, p))
  }

  ghost predicate SamePage(was: map<PageNo, Leaf>, now: map<PageNo, Leaf>, p: PageNo) {
    (p in now <==> p in was) && (p in now ==> now[p] == was[p])
  }

  /** After i pages of a range: these are unmapped, the others are as before. */
  ghost predicate Deallocated(was: map<PageNo, Leaf>, now: map<PageNo, Leaf>, first: PageNo, i: nat) {
    && (forall p: PageNo :: first <= p < first + i ==> p !in now)
    && (forall p: PageNo :: !(first <= p < first + i) ==> SamePage(was, now, p))
  }

  /** The page a call gave up at: mapped but not dynamic, or not mapped with no frame left. */
  ghost predicate StoppedAt(was: map<PageNo, Leaf>, dynamic: seq<Frame>, free: set<Frame>, first: PageNo, stop: nat,
      e: MemoryError) {
    && first + stop < PAGES
    && var p: PageNo := first + stop;
      && e == (if p in was then PermissionDenied else NoMemory)
      && if p in was then was[p].frame !in dynamic else free == {}
  }

  /** The frames behind the first i pages of a range. */
  ghost function Behind(was: map<PageNo, Leaf>, first: PageNo, i: nat): set<Frame> {
    set p | p in was && first <= p < first + i :: was[p].frame
  }

  lemma AllocNext(was: map<PageNo, Leaf>, now: map<PageNo, Leaf>, dynamic: seq<Frame>, first: PageNo, i: nat,
      flags: Flags, p: PageNo, f: Frame, dynamic': seq<Frame>)
    requires Allocated(was, now, dynamic, first, i, flags) && p == first + i && f in dynamic' && dynamic <= dynamic'
    requires p in now ==> f == now[p].frame
    ensures Allocated(was, now[p := Leaf(f, flags)], dynamic', first, i + 1, flags)
  {
    var now' := now[p := Leaf(f, flags)];
    assert SamePage(was, now, p);
    forall q: PageNo | !(first <= q < first + i + 1) ensures SamePage(was, now', q) { assert SamePage(was, now, q); }
  }

  lemma BehindNext(was: map<PageNo, Leaf>, first: PageNo, i: nat, p: PageNo)
    requires p == first + i
    ensures Behind(was, first, i + 1) == Behind(was, first, i) + if p in was then {was[p].frame} else {}
  {
    var more := if p in was then {was[p].frame} else {};
    forall q: PageNo | q in was && first <= q < first + i + 1 ensures was[q].frame in Behind(was, first, i) + more {
      if q < p { assert q in was && first <= q < first + i; }
    }
  }

  lemma MappedNotFree(m: map<PageNo, Leaf>, dynamic: seq<Frame>, free: set<Frame>, p: PageNo)
    requires Owned(m, dynamic, free)
    ensures p in m ==> m[p].frame !in free
  {
  }

  lemma DeallocNext(was: map<PageNo, Leaf>, now: map<PageNo, Leaf>, first: PageNo, i: nat, p: PageNo)
    requires Deallocated(was, now, first, i) && p == first + i
    ensures Deallocated(was, now - {p}, first, i + 1)
    ensures Behind(was, first, i + 1) == Behind(was, first, i) + if p in now then {now[p].frame} else {}
  {
    assert SamePage(was, now, p);
    forall q: PageNo | !(first <= q < first + i + 1)
      ensures SamePage(was, now - {p}, q) { assert SamePage(was, now, q); }
    BehindNext(was, first, i, p);
  }

  lemma PagesNext(first: PageNo, i: nat, p: PageNo)
    requires p == first + i
    ensures PagesFrom(first, i + 1) == PagesFrom(first, i) + {p}
  {
    assert p == PageAt(first, i);
  }

  class Memory {
    const pages: PageMap
    const pool: FramePool
    var dynamic: seq<Frame>

    constructor (pages: PageMap, pool: FramePool)
      requires pages.Valid() && forall p :: p in pages.View() ==> pages.View()[p].frame !in pool.free
      ensures this.pages == pages && this.pool == pool && dynamic == [] && Valid()
    {
      hide PageMap.Valid, PageMap.View, Owned;
      this.pages, this.pool, dynamic := pages, pool, [];
      new;
      NothingOwned(pages.View(), pool.free);
    }

    ghost predicate Valid()
      reads this, pages, pages.area, pool
    {
      pages.Valid() && Owned(pages.View(), dynamic, pool.free)
    }

    /** One page: new flags if it is dynamic, a new frame if it is not mapped. */
    method AllocPage(p: PageNo, flags: Flags) returns (r: Outcome)
      requires Valid() && flags.huge
      modifies this, pages, pages.area, pool
      ensures Valid() && !r.Panicked?
      ensures r.Done? ==>
        p in pages.View() && pages.View() == old(pages.View())[p := Leaf(pages.View()[p].frame, flags)]
      ensures r.Done? && p in old(pages.View()) ==>
        pages.View()[p].frame == old(pages.View())[p].frame && dynamic == old(dynamic) && pool.free == old(pool.free)
      ensures r.Done? && p !in old(pages.View()) ==>
        && pages.View()[p].frame in old(pool.free)
        && dynamic == old(dynamic) + [pages.View()[p].frame] && pool.free == old(pool.free) - {pages.View()[p].frame}
      ensures r.Done? ==> pages.View()[p].frame in dynamic && pages.ever == old(pages.ever) + {p}
      ensures !r.Done? ==> pages.View() == old(pages.View()) && dynamic == old(dynamic) && pages.ever == old(pages.ever)
      ensures r.Failed? ==> pool.free == old(pool.free)
      ensures r.Overrun? <==> p !in old(pages.View()) && old(pool.free) != {} && !Fits(old(pages.ever) + {p})
      ensures r.Overrun? ==> pool.free <= old(pool.free)
      ensures r.Failed? <==>
        if p in old(pages.View()) then old(pages.View())[p].frame !in old(dynamic) else old(pool.free) == {}
      ensures r.Failed? ==> r.error == if p in old(pages.View()) then PermissionDenied else NoMemory
    {
      hide PageMap.Valid, PageMap.View, Fits;
      ghost var m := pages.View();
      var frame := pages.Translate(p);
      if frame.Some? {
        if frame.value !in dynamic { return Failed(PermissionDenied); }
        OwnFlags(m, dynamic, pool.free, p, flags);
        pages.MappedFits(p);
        var _ := pages.MapTo(p, frame.value, flags);
      } else {
        var f := pool.Allocate();
        if f.None? { return Failed(NoMemory); }
        OwnNew(m, dynamic, pool.free + {f.value}, p, f.value, flags);
        assert pool.free + {f.value} - {f.value} == pool.free;
        var ok := pages.MapTo(p, f.value, flags);
        if !ok { return Overrun; }
        dynamic := dynamic + [f.value];
      }
      r := Done;
    }

    /** One page: unmapped and its frame released if it is dynamic, left alone if it is not mapped. */
    method DeallocPage(p: PageNo) returns (r: Outcome)
      requires Valid()
      modifies this, pages, pages.area, pool
      ensures Valid() && pages.ever == old(pages.ever)
      ensures r.Done? ==> pages.View() == old(pages.View()) - {p}
      ensures r.Done? && p !in old(pages.View()) ==> dynamic == old(dynamic) && pool.free == old(pool.free)
      ensures r.Done? && p in old(pages.View()) ==>
        dynamic == Drained(old(dynamic), old(pages.View())[p].frame)
          && pool.free == old(pool.free) + {old(pages.View())[p].frame}
      ensures r.Failed? ==> pages.View() == old(pages.View()) && dynamic == old(dynamic) && pool.free == old(pool.free)
      ensures r ==
        if p in old(pages.View()) && old(pages.View())[p].frame !in old(dynamic) then Failed(PermissionDenied) else Done
    {
      hide PageMap.Valid, PageMap.View;
      ghost var m := pages.View();
      var frame := pages.Translate(p);
      if frame.Some? {
        if frame.value !in dynamic { return Failed(PermissionDenied); }
        OwnLess(m, dynamic, pool.free, p);
        dynamic := Drained(dynamic, frame.value);
        pool.Release(frame.value);
        pages.MappedHasTable(p);
        pages.Unmap(p);
      } else {
        assert m - {p} == m;
      }
      r := Done;
    }

    /**
     * Allocates a range, or changes its protection. It stops at the first page that is not the
     * process's to change, has no canonical address or no room for its tables, or when memory runs
     * out; what was done up to there stays done.
     */
    method Alloc(area: nat, size: nat, protection: Protection) returns (r: Outcome, ghost stop: nat)
      requires Valid() && Canonical(area)
      modifies this, pages, pages.area, pool
      ensures Valid() && pages.ever == old(pages.ever) + PagesFrom(PageOf(area), stop)
      ensures FramesIn(dynamic) + pool.free <= FramesIn(old(dynamic)) + old(pool.free)
      ensures !r.Overrun? ==> FramesIn(dynamic) + pool.free == FramesIn(old(dynamic)) + old(pool.free)
      ensures Allocated(old(pages.View()), pages.View(), dynamic, PageOf(area), stop,
        Flags(true, protection.write, true, !protection.execute))
      ensures old(dynamic) <= dynamic && Behind(old(pages.View()), PageOf(area), stop) <= FramesIn(old(dynamic))
      ensures area % HUGE_PAGE_SIZE != 0 || size % HUGE_PAGE_SIZE != 0 ==> r == Failed(IncorrectAlignment) && stop == 0
      ensures area % HUGE_PAGE_SIZE == 0 && size % HUGE_PAGE_SIZE == 0 && !protection.read ==>
        r == Failed(Unsupported) && stop == 0
      ensures area % HUGE_PAGE_SIZE == 0 && size % HUGE_PAGE_SIZE == 0 && protection.read ==>
        && stop <= size / HUGE_PAGE_SIZE && (r.Done? <==> stop == size / HUGE_PAGE_SIZE)
        && (r.Panicked? <==> stop < size / HUGE_PAGE_SIZE && !Canonical(area + HUGE_PAGE_SIZE * stop))
        && (r.Overrun? ==> !Fits(old(pages.ever) + PagesFrom(PageOf(area), stop + 1)))
        && (r.Failed? ==> StoppedAt(old(pages.View()), dynamic, pool.free, PageOf(area), stop, r.error))
      ensures stop == 0 ==> dynamic == old(dynamic) && (!r.Overrun? ==> pool.free == old(pool.free))
    {
      hide PageMap.Valid, PageMap.View, Fits, Owned, PageOf, InOneHalf, Canonical, Allocated, PagesFrom, Behind;
      ghost var was, ever, first := pages.View(), pages.ever, PageOf(area);
      stop := 0;
      NothingAllocated(was, dynamic, first, PtFlags(protection));
      NoPages(area);
      NothingDeallocated(was, first);
      if area % HUGE_PAGE_SIZE != 0 { return Failed(IncorrectAlignment), stop; }
      if size % HUGE_PAGE_SIZE != 0 { return Failed(IncorrectAlignment), stop; }
      var n := size / HUGE_PAGE_SIZE;
      if !protection.read { return Failed(Unsupported), stop; }
      var flags := PtFlags(protection);
      for i := 0 to n
        invariant Valid() && InOneHalf(area, i) && pages.ever == ever + PagesFrom(first, i) && stop == i
        invariant FramesIn(dynamic) + pool.free == FramesIn(old(dynamic)) + old(pool.free)
        invariant Allocated(was, pages.View(), dynamic, first, i, flags) && old(dynamic) <= dynamic
        invariant Behind(was, first, i) <= FramesIn(old(dynamic))
        invariant forall f :: f in dynamic ==> f in old(dynamic) || f in old(pool.free)
        invariant i == 0 ==> dynamic == old(dynamic) && pool.free == old(pool.free)
      {
        if !Canonical(area + HUGE_PAGE_SIZE * i) { return Panicked, stop; }
        HalfGoesOn(area, i);
        PagesFollow(area, i + 1, i);
        var p := PageOf(area + HUGE_PAGE_SIZE * i);
        PagesNext(first, i, p);
        assert pages.ever + {p} == ever + PagesFrom(first, i + 1);
        ghost var now, own := pages.View(), dynamic;
        OutsideSame(was, now, dynamic, first, i, flags, p);
        r := AllocPage(p, flags);
        if !r.Done? { return; }
        AllocNext(was, now, own, first, i, flags, p, pages.View()[p].frame, dynamic);
        BehindNext(was, first, i, p);
        MappedNotFree(was, old(dynamic), old(pool.free), p);
        stop := i + 1;
      }
      r := Done;
    }

    /** Gives a range back; stops at the first page that is not the process's to give. */
    method Dealloc(area: nat, size: nat) returns (r: Outcome, ghost stop: nat)
      requires Valid() && Canonical(area)
      modifies this, pages, pages.area, pool
      ensures Valid() && Deallocated(old(pages.View()), pages.View(), PageOf(area), stop)
      ensures FramesIn(dynamic) == FramesIn(old(dynamic)) - Behind(old(pages.View()), PageOf(area), stop)
      ensures pool.free == old(pool.free) + Behind(old(pages.View()), PageOf(area), stop)
      ensures Behind(old(pages.View()), PageOf(area), stop) <= FramesIn(old(dynamic))
      ensures area % HUGE_PAGE_SIZE != 0 || size % HUGE_PAGE_SIZE != 0 ==> r == Failed(IncorrectAlignment) && stop == 0
      ensures area % HUGE_PAGE_SIZE == 0 && size % HUGE_PAGE_SIZE == 0 ==>
        && stop <= size / HUGE_PAGE_SIZE && (r.Done? <==> stop == size / HUGE_PAGE_SIZE)
        && !r.Overrun? && (r.Panicked? <==> stop < size / HUGE_PAGE_SIZE && !Canonical(area + HUGE_PAGE_SIZE * stop))
        && (r.Failed? ==>
             r.error.PermissionDenied? && StoppedAt(old(pages.View()), dynamic, pool.free, PageOf(area), stop, r.error))
    {
      hide PageMap.Valid, PageMap.View, Owned, PageOf, InOneHalf, Canonical, Deallocated, Behind;
      ghost var was, first := pages.View(), PageOf(area);
      stop := 0;
      NoPages(area);
      NothingDeallocated(was, first);
      if area % HUGE_PAGE_SIZE != 0 { return Failed(IncorrectAlignment), stop; }
      if size % HUGE_PAGE_SIZE != 0 { return Failed(IncorrectAlignment), stop; }
      var n := size / HUGE_PAGE_SIZE;
      for i := 0 to n
        invariant Valid() && InOneHalf(area, i) && stop == i && Deallocated(was, pages.View(), first, i)
        invariant FramesIn(dynamic) == FramesIn(old(dynamic)) - Behind(was, first, i)
        invariant pool.free == old(pool.free) + Behind(was, first, i) && Behind(was, first, i) <= FramesIn(old(dynamic))
      {
        if !Canonical(area + HUGE_PAGE_SIZE * i) { return Panicked, stop; }
        HalfGoesOn(area, i);
        PagesFollow(area, i + 1, i);
        var p := PageOf(area + HUGE_PAGE_SIZE * i);
        ghost var now := pages.View();
        DeallocNext(was, now, first, i, p);
        UntouchedSame(was, now, first, i, p);
        ghost var own := dynamic;
        r := DeallocPage(p);
        if r.Failed? { return; }
        if p in now {
          DrainedMembers(own, now[p].frame);
          assert FramesIn(dynamic) == FramesIn(own) - {now[p].frame} && now[p].frame in FramesIn(own);
        }
        stop := i + 1;
      }
      r := Done;
    }
  }

  lemma NoPages(area: nat)
    ensures PagesFrom(PageOf(area), 0) == {} && InOneHalf(area, 0)
  {
    hide PageOf;
  }

  lemma NothingAllocated(was: map<PageNo, Leaf>, dynamic: seq<Frame>, first: PageNo, flags: Flags)
    ensures Allocated(was, was, dynamic, first, 0, flags)
  {
  }

  lemma OutsideSame(was: map<PageNo, Leaf>, now: map<PageNo, Leaf>, dynamic: seq<Frame>, first: PageNo, i: nat,
      flags: Flags, p: PageNo)
    requires Allocated(was, now, dynamic, first, i, flags) && p == first + i
    ensures SamePage(was, now, p)
  {
  }

  lemma NothingDeallocated(was: map<PageNo, Leaf>, first: PageNo)
    ensures Deallocated(was, was, first, 0) && Behind(was, first, 0) == {}
  {
  }

  lemma UntouchedSame(was: map<PageNo, Leaf>, now: map<PageNo, Leaf>, first: PageNo, i: nat, p: PageNo)
    requires Deallocated(was, now, first, i) && p == first + i
    ensures SamePage(was, now, p)
  {
  }
}
