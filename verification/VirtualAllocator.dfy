/** The first-fit allocator of kernel virtual addresses. */
module VirtualAllocator {
  import opened Common

  const START_ADDR: nat := 0x1_0000_0000
  const END_ADDR: nat := 0x2_0000_0000
  const PAGE_SIZE: nat := 0x20_0000

  datatype Block = Block(start: nat, end: nat)

  function Pages(b: Block): nat {
    if b.end < b.start then 0 else (b.end - b.start) / PAGE_SIZE
  }

  // ----- What the two operations compute -----

  /** The first block with room, or the number of blocks. */
  function FirstFit(blocks: seq<Block>, n: nat): (i: nat)
    ensures i <= |blocks|
    ensures i < |blocks| ==> Pages(blocks[i]) >= n
    ensures forall j :: 0 <= j < i ==> Pages(blocks[j]) < n
  {
    if blocks == [] || Pages(blocks[0]) >= n then 0 else 1 + FirstFit(blocks[1..], n)
  }

  /** `None` when there is no room, where the original panics. */
  function Allocated(blocks: seq<Block>, n: nat): Option<(seq<Block>, nat)> {
    var i := FirstFit(blocks, n);
    if i == |blocks| then None
    else if Pages(blocks[i]) == n then Some((blocks[..i] + blocks[i + 1..], blocks[i].start))
    else Some((blocks[i := Block(blocks[i].start + n * PAGE_SIZE, blocks[i].end)], blocks[i].start))
  }

  /** Where a block that starts here belongs. */
  function Place(blocks: seq<Block>, start: nat): (i: nat)
    ensures i <= |blocks|
    ensures i < |blocks| ==> blocks[i].start >= start
    ensures forall j :: 0 <= j < i ==> blocks[j].start < start
  {
    if blocks == [] || blocks[0].start >= start then 0 else 1 + Place(blocks[1..], start)
  }

  /** `None` for a block that starts where a free one starts, which the original reports as a double free. */
  function Freed(blocks: seq<Block>, start: nat, n: nat): Option<seq<Block>> {
    var i := Place(blocks, start);
    var end := start + n * PAGE_SIZE;
    if i < |blocks| && blocks[i].start == start then None
    else if i > 0 && blocks[i - 1].end == start then
      Some(blocks[i - 1 := Block(blocks[i - 1].start, blocks[i - 1].end + n * PAGE_SIZE)])
    else if i < |blocks| && blocks[i].start == end then Some(blocks[i := Block(start, blocks[i].end)])
    else Some(blocks[..i] + [Block(start, end)] + blocks[i..])
  }

  // ----- The window is divided between free blocks and live regions -----

  /** A non-empty, page-aligned piece of the window. */
  predicate Proper(b: Block) {
    && START_ADDR <= b.start < b.end <= END_ADDR
    && b.start % PAGE_SIZE == 0 && b.end % PAGE_SIZE == 0
  }

  predicate Apart(a: Block, b: Block) {
    a.end <= b.start || b.end <= a.start
  }

  predicate Has(b: Block, addr: nat) {
    b.start <= addr < b.end
  }

  /** Free blocks are proper, sorted and disjoint. */
  ghost predicate FreeOk(blocks: seq<Block>) {
    && (forall i :: 0 <= i < |blocks| ==> Proper(blocks[i]))
    && (forall i, j :: 0 <= i < j < |blocks| ==> blocks[i].end <= blocks[j].start)
  }

  ghost predicate LiveOk(blocks: seq<Block>, live: set<Block>) {
    && (forall r :: r in live ==> Proper(r))
    && (forall r, s :: r in live && s in live && r != s ==> Apart(r, s))
    && (forall r, i :: r in live && 0 <= i < |blocks| ==> Apart(r, blocks[i]))
  }

  ghost predicate FreeAt(blocks: seq<Block>, addr: nat) {
    exists i :: 0 <= i < |blocks| && Has(blocks[i], addr)
  }

  ghost predicate LiveAt(live: set<Block>, addr: nat) {
    exists r :: r in live && Has(r, addr)
  }

  ghost predicate Covers(blocks: seq<Block>, live: set<Block>) {
    forall addr: nat :: START_ADDR <= addr < END_ADDR ==> FreeAt(blocks, addr) || LiveAt(live, addr)
  }

  ghost predicate Divided(blocks: seq<Block>, live: set<Block>) {
    FreeOk(blocks) && LiveOk(blocks, live) && Covers(blocks, live)
  }

  /** Aligned sizes are whole numbers of pages. */
  lemma WholePages(b: Block)
    requires Proper(b)
    ensures b.end == b.start + Pages(b) * PAGE_SIZE && Pages(b) > 0
  {
  }

  // ----- Allocating -----

  predicate Within(a: Block, b: Block) {
    b.start <= a.start && a.end <= b.end
  }

  /** Every block of `bs` lies in one of `blocks`. */
  ghost predicate Inside(bs: seq<Block>, blocks: seq<Block>) {
    forall j :: 0 <= j < |bs| ==> exists k :: 0 <= k < |blocks| && Within(bs[j], blocks[k])
  }

  function Region(blocks: seq<Block>, n: nat): Block
    requires Allocated(blocks, n).Some?
  {
    var start := Allocated(blocks, n).value.1;
    Block(start, start + n * PAGE_SIZE)
  }

  lemma RegionFits(blocks: seq<Block>, n: nat)
    requires FreeOk(blocks) && n > 0 && Allocated(blocks, n).Some?
    ensures var i := FirstFit(blocks, n); var r := Region(blocks, n);
      && Proper(r) && r.start == blocks[i].start && Within(r, blocks[i])
      && (Pages(blocks[i]) == n <==> r.end == blocks[i].end)
      && (r.end < blocks[i].end ==> Proper(Block(r.end, blocks[i].end)))
  {
    WholePages(blocks[FirstFit(blocks, n)]);
  }

  /** The blocks left over, position by position. */
  lemma LeftOver(blocks: seq<Block>, n: nat)
    requires FreeOk(blocks) && n > 0 && Allocated(blocks, n).Some?
    ensures var i, r, bs := FirstFit(blocks, n), Region(blocks, n), Allocated(blocks, n).value.0;
      if r.end == blocks[i].end then |bs| == |blocks| - 1 && forall j :: 0 <= j < |bs| ==>
        bs[j] == blocks[if j < i then j else j + 1]
      else |bs| == |blocks| && bs[i] == Block(r.end, blocks[i].end) && forall j :: 0 <= j < |bs| && j != i ==>
        bs[j] == blocks[j]
  {
    RegionFits(blocks, n);
    hide Pages, FirstFit, Proper, FreeOk;
  }

  lemma AllocatedFree(blocks: seq<Block>, n: nat)
    requires FreeOk(blocks) && n > 0 && Allocated(blocks, n).Some?
    ensures FreeOk(Allocated(blocks, n).value.0)
  {
    RegionFits(blocks, n);
    LeftOver(blocks, n);
    hide Pages, FirstFit, Proper, Allocated, Region;
    var i, bs := FirstFit(blocks, n), Allocated(blocks, n).value.0;
    if |bs| < |blocks| { Removed(blocks, i, bs); } else { Shrunk(blocks, i, bs[i].start, bs); }
  }

  lemma Removed(blocks: seq<Block>, i: nat, bs: seq<Block>)
    requires FreeOk(blocks) && i < |blocks| && |bs| == |blocks| - 1
    requires forall j :: 0 <= j < |bs| ==> bs[j] == blocks[if j < i then j else j + 1]
    ensures FreeOk(bs)
  {
    hide Proper;
  }

  lemma Shrunk(blocks: seq<Block>, i: nat, start: nat, bs: seq<Block>)
    requires FreeOk(blocks) && i < |blocks| == |bs| && blocks[i].start <= start
    requires bs[i] == Block(start, blocks[i].end) && Proper(bs[i]) && forall j :: 0 <= j < |bs| && j != i ==>
      bs[j] == blocks[j]
    ensures FreeOk(bs)
  {
    hide Proper;
  }

  lemma AllocatedInside(blocks: seq<Block>, n: nat)
    requires FreeOk(blocks) && n > 0 && Allocated(blocks, n).Some?
    ensures var bs := Allocated(blocks, n).value.0;
      Inside(bs, blocks) && forall j :: 0 <= j < |bs| ==> Apart(bs[j], Region(blocks, n))
  {
    RegionFits(blocks, n);
    LeftOver(blocks, n);
    hide Pages, FirstFit, Proper, Allocated, Region;
    var i, bs := FirstFit(blocks, n), Allocated(blocks, n).value.0;
    forall j | 0 <= j < |bs| ensures exists k :: 0 <= k < |blocks| && Within(bs[j], blocks[k]) {
      var k := if |bs| < |blocks| && j >= i then j + 1 else j;
      assert Within(bs[j], blocks[k]);
    }
  }

  lemma StillFree(blocks: seq<Block>, n: nat, k: nat, addr: nat)
    requires FreeOk(blocks) && n > 0 && Allocated(blocks, n).Some?
    requires k < |blocks| && Has(blocks[k], addr) && !Has(Region(blocks, n), addr)
    ensures FreeAt(Allocated(blocks, n).value.0, addr)
  {
    RegionFits(blocks, n);
    LeftOver(blocks, n);
    hide Pages, FirstFit, Proper, Allocated, Region, FreeOk;
    var i, bs := FirstFit(blocks, n), Allocated(blocks, n).value.0;
    var at := if |bs| < |blocks| && k > i then k - 1 else k;
    assert Has(bs[at], addr);
  }

  lemma AllocatedCovers(blocks: seq<Block>, live: set<Block>, n: nat)
    requires FreeOk(blocks) && Covers(blocks, live) && n > 0 && Allocated(blocks, n).Some?
    ensures Covers(Allocated(blocks, n).value.0, live + {Region(blocks, n)})
  {
    var bs, r := Allocated(blocks, n).value.0, Region(blocks, n);
    hide Allocated, Region, FreeOk;
    forall addr: nat | START_ADDR <= addr < END_ADDR ensures FreeAt(bs, addr) || LiveAt(live + {r}, addr) {
      if s :| s in live && Has(s, addr) { assert s in live + {r} && Has(s, addr); }
      else if Has(r, addr) { assert r in live + {r} && Has(r, addr); }
      else {
        assert FreeAt(blocks, addr);
        var k :| 0 <= k < |blocks| && Has(blocks[k], addr);
        StillFree(blocks, n, k, addr);
      }
    }
  }

  lemma AllocatedLive(blocks: seq<Block>, live: set<Block>, n: nat)
    requires FreeOk(blocks) && LiveOk(blocks, live) && n > 0 && Allocated(blocks, n).Some?
    ensures Region(blocks, n) !in live && LiveOk(Allocated(blocks, n).value.0, live + {Region(blocks, n)})
  {
    RegionFits(blocks, n);
    AllocatedInside(blocks, n);
    hide Pages, FirstFit, Allocated, Region, FreeOk, Inside, Proper;
    var i, bs, r := FirstFit(blocks, n), Allocated(blocks, n).value.0, Region(blocks, n);
    forall s | s in live ensures Apart(s, r) && Apart(r, s) && s != r { SmallerApart(s, r, blocks[i]); }
    forall s, j | s in live && 0 <= j < |bs| ensures Apart(s, bs[j]) { InsideApart(s, bs, blocks, j); }
  }

  lemma SmallerApart(s: Block, r: Block, b: Block)
    requires Apart(s, b) && Within(r, b) && Proper(r) && Proper(s)
    ensures Apart(s, r) && Apart(r, s) && s != r
  {
  }

  lemma InsideApart(s: Block, bs: seq<Block>, blocks: seq<Block>, j: nat)
    requires Inside(bs, blocks) && j < |bs| && forall k :: 0 <= k < |blocks| ==> Apart(s, blocks[k])
    ensures Apart(s, bs[j])
  {
    var b := bs[j];
    var k :| 0 <= k < |blocks| && Within(b, blocks[k]);
    assert Apart(s, blocks[k]);
  }

  /** Allocating moves exactly the region handed out from the free blocks to the live regions. */
  lemma AllocationKeeps(blocks: seq<Block>, live: set<Block>, n: nat)
    requires Divided(blocks, live) && n > 0 && Allocated(blocks, n).Some?
    ensures Region(blocks, n) !in live && Divided(Allocated(blocks, n).value.0, live + {Region(blocks, n)})
  {
    hide Allocated, Region, FreeOk, LiveOk, Covers;
    AllocatedFree(blocks, n);
    AllocatedLive(blocks, live, n);
    AllocatedCovers(blocks, live, n);
  }

  // ----- Freeing -----

  /** A live region lies between the free blocks around its place. */
  lemma Between(blocks: seq<Block>, live: set<Block>, r: Block)
    requires FreeOk(blocks) && LiveOk(blocks, live) && r in live
    ensures var i := Place(blocks, r.start);
      && (forall j :: 0 <= j < i ==> blocks[j].end <= r.start)
      && (forall j :: i <= j < |blocks| ==> r.end <= blocks[j].start)
  {
    var i := Place(blocks, r.start);
    forall j | 0 <= j < |blocks| ensures if j < i then blocks[j].end <= r.start else r.end <= blocks[j].start {
      assert Apart(r, blocks[j]) && Proper(blocks[j]) && Proper(r);
      if j > i { assert blocks[i].end <= blocks[j].start && Proper(blocks[i]); }
    }
  }

  /** A legal free never runs into the double-free check. */
  lemma LegalFree(blocks: seq<Block>, live: set<Block>, r: Block)
    requires FreeOk(blocks) && LiveOk(blocks, live) && r in live
    ensures Freed(blocks, r.start, Pages(r)).Some? && r.end == r.start + Pages(r) * PAGE_SIZE
  {
    Between(blocks, live, r);
    WholePages(r);
    hide Pages;
  }

  lemma Joined(a: Block, b: Block)
    requires Proper(a) && Proper(b) && a.end == b.start
    ensures Proper(Block(a.start, b.end))
  {
  }

  /** The blocks after a legal free, position by position. */
  lemma PutBack(blocks: seq<Block>, live: set<Block>, r: Block)
    requires FreeOk(blocks) && LiveOk(blocks, live) && r in live && Freed(blocks, r.start, Pages(r)).Some?
    ensures var i, bs := Place(blocks, r.start), Freed(blocks, r.start, Pages(r)).value;
      if i > 0 && blocks[i - 1].end == r.start then bs == blocks[i - 1 := Block(blocks[i - 1].start, r.end)]
      else if i < |blocks| && blocks[i].start == r.end then bs == blocks[i := Block(r.start, blocks[i].end)]
      else |bs| == |blocks| + 1 && bs[i] == r && forall j :: 0 <= j < |bs| && j != i ==>
        bs[j] == blocks[if j < i then j else j - 1]
  {
    LegalFree(blocks, live, r);
    var i := Place(blocks, r.start);
    Slotted(blocks, i, r);
    hide Pages, Place, Proper, FreeOk, LiveOk;
  }

  lemma Slotted(blocks: seq<Block>, i: nat, r: Block)
    requires i <= |blocks|
    ensures var bs := blocks[..i] + [r] + blocks[i..];
      |bs| == |blocks| + 1 && bs[i] == r && forall j :: 0 <= j < |bs| && j != i ==>
        bs[j] == blocks[if j < i then j else j - 1]
  {
  }

  lemma FreedFree(blocks: seq<Block>, live: set<Block>, r: Block)
    requires FreeOk(blocks) && LiveOk(blocks, live) && r in live && Freed(blocks, r.start, Pages(r)).Some?
    ensures FreeOk(Freed(blocks, r.start, Pages(r)).value)
  {
    Between(blocks, live, r);
    PutBack(blocks, live, r);
    assert Proper(r);
    hide Pages, Place, Freed, Proper, FreeOk, LiveOk;
    var i := Place(blocks, r.start);
    if i > 0 && blocks[i - 1].end == r.start { GrownEnd(blocks, i - 1, r); }
    else if i < |blocks| && blocks[i].start == r.end { GrownStart(blocks, i, r); }
    else { Slipped(blocks, i, r, Freed(blocks, r.start, Pages(r)).value); }
  }

  /** A block may grow up to its neighbours. */
  lemma GrownEnd(blocks: seq<Block>, i: nat, r: Block)
    requires FreeOk(blocks) && i < |blocks| && Proper(r) && blocks[i].end == r.start
    requires forall j :: i < j < |blocks| ==> r.end <= blocks[j].start
    ensures FreeOk(blocks[i := Block(blocks[i].start, r.end)])
  {
    Joined(blocks[i], r);
    hide Proper;
  }

  lemma GrownStart(blocks: seq<Block>, i: nat, r: Block)
    requires FreeOk(blocks) && i < |blocks| && Proper(r) && blocks[i].start == r.end
    requires forall j :: 0 <= j < i ==> blocks[j].end <= r.start
    ensures FreeOk(blocks[i := Block(r.start, blocks[i].end)])
  {
    Joined(r, blocks[i]);
    hide Proper;
  }

  lemma Slipped(blocks: seq<Block>, i: nat, r: Block, bs: seq<Block>)
    requires FreeOk(blocks) && i <= |blocks| && Proper(r)
    requires (forall j :: 0 <= j < i ==> blocks[j].end <= r.start)
      && (forall j :: i <= j < |blocks| ==> r.end <= blocks[j].start)
    requires |bs| == |blocks| + 1 && bs[i] == r && forall j :: 0 <= j < |bs| && j != i ==>
      bs[j] == blocks[if j < i then j else j - 1]
    ensures FreeOk(bs)
  {
    hide Proper;
  }

  lemma FreedLive(blocks: seq<Block>, live: set<Block>, r: Block)
    requires FreeOk(blocks) && LiveOk(blocks, live) && r in live && Freed(blocks, r.start, Pages(r)).Some?
    ensures LiveOk(Freed(blocks, r.start, Pages(r)).value, live - {r})
  {
    Between(blocks, live, r);
    LegalFree(blocks, live, r);
    hide Pages, Place;
    var bs := Freed(blocks, r.start, Pages(r)).value;
    forall s, j | s in live - {r} && 0 <= j < |bs| ensures Apart(s, bs[j]) { AlsoApart(blocks, live, r, s, j); }
  }

  lemma AlsoApart(blocks: seq<Block>, live: set<Block>, r: Block, s: Block, j: nat)
    requires FreeOk(blocks) && LiveOk(blocks, live) && r in live && s in live && s != r
    requires Freed(blocks, r.start, Pages(r)).Some? && j < |Freed(blocks, r.start, Pages(r)).value|
    ensures Apart(s, Freed(blocks, r.start, Pages(r)).value[j])
  {
    Between(blocks, live, r);
    PutBack(blocks, live, r);
    hide Pages, Place, Freed;
    var i, bs := Place(blocks, r.start), Freed(blocks, r.start, Pages(r)).value;
    assert Apart(s, r) && Proper(s) && Proper(r);
    var k := if |bs| > |blocks| && j > i then j - 1 else j;
    if k < |blocks| { assert Apart(s, blocks[k]) && Proper(blocks[k]); }
  }

  /** Where the region, and an old block, are found after a legal free. */
  lemma FoundRegion(blocks: seq<Block>, live: set<Block>, r: Block) returns (at: nat)
    requires FreeOk(blocks) && LiveOk(blocks, live) && r in live && Freed(blocks, r.start, Pages(r)).Some?
    ensures var bs := Freed(blocks, r.start, Pages(r)).value; at < |bs| && Within(r, bs[at])
  {
    PutBack(blocks, live, r);
    var i := Place(blocks, r.start);
    assert Proper(r) && (forall j :: 0 <= j < |blocks| ==> Proper(blocks[j]));
    hide Pages, Place, Freed, FreeOk, LiveOk;
    at := if i > 0 && blocks[i - 1].end == r.start then i - 1 else i;
  }

  lemma FoundBlock(blocks: seq<Block>, live: set<Block>, r: Block, k: nat) returns (at: nat)
    requires FreeOk(blocks) && LiveOk(blocks, live) && r in live && Freed(blocks, r.start, Pages(r)).Some?
      && k < |blocks|
    ensures var bs := Freed(blocks, r.start, Pages(r)).value; at < |bs| && Within(blocks[k], bs[at])
  {
    hide Pages, Place, Freed, FreeOk, LiveOk;
    PutBack(blocks, live, r);
    LiveIsProper(blocks, live, r);
    var i := Place(blocks, r.start);
    if i > 0 && blocks[i - 1].end == r.start { at := k; }
    else if i < |blocks| && blocks[i].start == r.end { at := k; }
    else { at := if k < i then k else k + 1; }
  }

  lemma StaysFree(blocks: seq<Block>, live: set<Block>, r: Block, addr: nat)
    requires FreeOk(blocks) && LiveOk(blocks, live) && r in live && Freed(blocks, r.start, Pages(r)).Some?
    requires FreeAt(blocks, addr) || Has(r, addr)
    ensures FreeAt(Freed(blocks, r.start, Pages(r)).value, addr)
  {
    hide Pages, Freed, FreeOk, LiveOk;
    var bs := Freed(blocks, r.start, Pages(r)).value;
    if Has(r, addr) {
      var at := FoundRegion(blocks, live, r);
      assert Has(bs[at], addr);
    } else {
      var k :| 0 <= k < |blocks| && Has(blocks[k], addr);
      var at := FoundBlock(blocks, live, r, k);
      assert Has(bs[at], addr);
    }
  }

  lemma FreedCovers(blocks: seq<Block>, live: set<Block>, r: Block)
    requires FreeOk(blocks) && LiveOk(blocks, live) && Covers(blocks, live) && r in live
    requires Freed(blocks, r.start, Pages(r)).Some?
    ensures Covers(Freed(blocks, r.start, Pages(r)).value, live - {r})
  {
    hide Pages, Freed, FreeOk, LiveOk, FreeAt;
    var bs := Freed(blocks, r.start, Pages(r)).value;
    forall addr: nat | START_ADDR <= addr < END_ADDR ensures FreeAt(bs, addr) || LiveAt(live - {r}, addr) {
      if FreeAt(blocks, addr) || Has(r, addr) { StaysFree(blocks, live, r, addr); }
      else {
        var s :| s in live && Has(s, addr);
        assert s in live - {r} && Has(s, addr);
      }
    }
  }

  /** Freeing moves exactly the region given back from the live regions to the free blocks. */
  lemma FreeingKeeps(blocks: seq<Block>, live: set<Block>, r: Block)
    requires Divided(blocks, live) && r in live
    ensures Freed(blocks, r.start, Pages(r)).Some?
    ensures Divided(Freed(blocks, r.start, Pages(r)).value, live - {r})
  {
    hide Freed, FreeOk, LiveOk, Covers;
    LegalFree(blocks, live, r);
    FreedFree(blocks, live, r);
    FreedLive(blocks, live, r);
    FreedCovers(blocks, live, r);
  }

  /** There is room exactly when some block is large enough, and then the lowest such block is used, from its start. */
  lemma AllocatesLowest(blocks: seq<Block>, n: nat)
    requires FreeOk(blocks)
    ensures Allocated(blocks, n).Some? <==> exists i :: 0 <= i < |blocks| && Pages(blocks[i]) >= n
    ensures Allocated(blocks, n).Some? ==>
      && (exists i :: 0 <= i < |blocks| && Pages(blocks[i]) >= n && blocks[i].start == Region(blocks, n).start)
      && (forall i :: 0 <= i < |blocks| && Pages(blocks[i]) >= n ==> Region(blocks, n).start <= blocks[i].start)
  {
    hide Pages;
    var k := FirstFit(blocks, n);
    if k < |blocks| {
      forall i | 0 <= i < |blocks| && Pages(blocks[i]) >= n ensures blocks[k].start <= blocks[i].start {
        assert k <= i;
        assert k < i ==> Proper(blocks[k]) && blocks[k].end <= blocks[i].start;
      }
    }
  }

  /** The region borders on a free block. */
  ghost predicate Touches(blocks: seq<Block>, r: Block) {
    exists i :: 0 <= i < |blocks| && (blocks[i].end == r.start || blocks[i].start == r.end)
  }

  /** A region given back makes a free block larger that it borders on; only without one there is a block more. */
  lemma FreeingMerges(blocks: seq<Block>, live: set<Block>, r: Block)
    requires FreeOk(blocks) && LiveOk(blocks, live) && r in live
    ensures Freed(blocks, r.start, Pages(r)).Some?
    ensures |Freed(blocks, r.start, Pages(r)).value| == |blocks| + if Touches(blocks, r) then 0 else 1
  {
    LegalFree(blocks, live, r);
    PutBack(blocks, live, r);
    Between(blocks, live, r);
    var i := Place(blocks, r.start);
    hide Pages, Place, Freed, LiveOk;
    if k :| 0 <= k < |blocks| && (blocks[k].end == r.start || blocks[k].start == r.end) {
      assert Proper(blocks[k]) && Proper(r) by { LiveIsProper(blocks, live, r); }
      if blocks[k].end == r.start { LastBefore(blocks, i, k, r); } else { FirstBehind(blocks, i, k, r); }
    }
  }

  /** No two free blocks border on each other: what is free in one piece is one block. */
  ghost predicate Separate(blocks: seq<Block>) {
    forall i :: 0 <= i < |blocks| - 1 ==> blocks[i].end != blocks[i + 1].start
  }

  ghost predicate TouchesBoth(blocks: seq<Block>, r: Block) {
    exists i :: 0 <= i < |blocks| - 1 && blocks[i].end == r.start && blocks[i + 1].start == r.end
  }

  /** Free blocks stay separate except when a region between two of them is given back: only the lower one grows. */
  lemma SeparateIff(blocks: seq<Block>, live: set<Block>, r: Block)
    requires FreeOk(blocks) && LiveOk(blocks, live) && r in live && Separate(blocks)
    ensures Freed(blocks, r.start, Pages(r)).Some?
    ensures Separate(Freed(blocks, r.start, Pages(r)).value) <==> !TouchesBoth(blocks, r)
  {
    hide FreeOk, LiveOk, Proper, Pages, Place, Freed, Separate, TouchesBoth;
    LegalFree(blocks, live, r);
    PutBack(blocks, live, r);
    Between(blocks, live, r);
    LiveIsProper(blocks, live, r);
    var i, bs := Place(blocks, r.start), Freed(blocks, r.start, Pages(r)).value;
    BothIff(blocks, i, r);
    if i > 0 && blocks[i - 1].end == r.start { JoinedBelow(blocks, i - 1, r); }
    else if i < |blocks| && blocks[i].start == r.end { JoinedAbove(blocks, i, r); }
    else { PutBetween(blocks, i, r, bs); }
  }

  lemma BothIff(blocks: seq<Block>, i: nat, r: Block)
    requires FreeOk(blocks) && Proper(r) && i <= |blocks|
    requires (forall j :: 0 <= j < i ==> blocks[j].end <= r.start)
      && (forall j :: i <= j < |blocks| ==> r.end <= blocks[j].start)
    ensures TouchesBoth(blocks, r) <==> 0 < i < |blocks| && blocks[i - 1].end == r.start && blocks[i].start == r.end
  {
    if k :| 0 <= k < |blocks| - 1 && blocks[k].end == r.start && blocks[k + 1].start == r.end {
      LastBefore(blocks, i, k, r);
    }
    if 0 < i < |blocks| && blocks[i - 1].end == r.start && blocks[i].start == r.end {
      assert blocks[i - 1 + 1].start == r.end;
    }
  }

  lemma JoinedBelow(blocks: seq<Block>, i: nat, r: Block)
    requires FreeOk(blocks) && Separate(blocks) && i < |blocks| && blocks[i].end == r.start
    ensures var bs := blocks[i := Block(blocks[i].start, r.end)];
      Separate(bs) <==> !(i + 1 < |blocks| && blocks[i + 1].start == r.end)
  {
    var bs := blocks[i := Block(blocks[i].start, r.end)];
    if i + 1 < |blocks| && blocks[i + 1].start == r.end { assert bs[i].end == bs[i + 1].start; }
    else {
      forall j | 0 <= j < |bs| - 1 ensures bs[j].end != bs[j + 1].start { assert blocks[j].end != blocks[j + 1].start; }
    }
  }

  lemma JoinedAbove(blocks: seq<Block>, i: nat, r: Block)
    requires FreeOk(blocks) && Separate(blocks) && i < |blocks| && blocks[i].start == r.end
    requires i > 0 ==> blocks[i - 1].end != r.start
    ensures Separate(blocks[i := Block(r.start, blocks[i].end)])
  {
    var bs := blocks[i := Block(r.start, blocks[i].end)];
    forall j | 0 <= j < |bs| - 1 ensures bs[j].end != bs[j + 1].start { assert blocks[j].end != blocks[j + 1].start; }
  }

  lemma PutBetween(blocks: seq<Block>, i: nat, r: Block, bs: seq<Block>)
    requires FreeOk(blocks) && Separate(blocks) && i <= |blocks|
    requires (i > 0 ==> blocks[i - 1].end != r.start) && (i < |blocks| ==> blocks[i].start != r.end)
    requires |bs| == |blocks| + 1 && bs[i] == r && forall j :: 0 <= j < |bs| && j != i ==>
      bs[j] == blocks[if j < i then j else j - 1]
    ensures Separate(bs)
  {
    forall j | 0 <= j < |bs| - 1 ensures bs[j].end != bs[j + 1].start {
      if j + 1 < i { assert blocks[j].end != blocks[j + 1].start; }
      else if j > i { assert blocks[j - 1].end != blocks[j - 1 + 1].start; }
    }
  }

  lemma LiveIsProper(blocks: seq<Block>, live: set<Block>, r: Block)
    requires LiveOk(blocks, live) && r in live
    ensures Proper(r)
  {
  }

  lemma LastBefore(blocks: seq<Block>, i: nat, k: nat, r: Block)
    requires FreeOk(blocks) && Proper(r) && i <= |blocks| && k < |blocks| && blocks[k].end == r.start
    requires (forall j :: 0 <= j < i ==> blocks[j].end <= r.start)
      && (forall j :: i <= j < |blocks| ==> r.end <= blocks[j].start)
    ensures i == k + 1
  {
    assert Proper(blocks[k]);
    assert k + 1 < |blocks| ==> Proper(blocks[k + 1]) && blocks[k].end <= blocks[k + 1].start;
  }

  lemma FirstBehind(blocks: seq<Block>, i: nat, k: nat, r: Block)
    requires FreeOk(blocks) && Proper(r) && i <= |blocks| && k < |blocks| && blocks[k].start == r.end
    requires (forall j :: 0 <= j < i ==> blocks[j].end <= r.start)
      && (forall j :: i <= j < |blocks| ==> r.end <= blocks[j].start)
    ensures i == k
  {
    assert Proper(blocks[k]) && (i < |blocks| ==> r.end <= blocks[i].start);
    assert forall j :: 0 <= j < k ==> Proper(blocks[j]) && blocks[j].end <= blocks[k].start;
  }

  /** An empty allocation is the start of a free block, so giving it back at once is taken for a double free. */
  lemma EmptyAllocation(blocks: seq<Block>)
    requires FreeOk(blocks) && blocks != []
    ensures Allocated(blocks, 0) == Some((blocks, blocks[0].start)) && Freed(blocks, blocks[0].start, 0).None?
  {
    WholePages(blocks[0]);
    assert blocks[0 := blocks[0]] == blocks;
  }

  /**
   * Giving back an empty region is taken for a double free exactly where a free block starts; it
   * changes nothing where one ends, and anywhere else it leaves an empty block in the list.
   */
  lemma EmptyFree(blocks: seq<Block>, start: nat)
    requires FreeOk(blocks)
    ensures Freed(blocks, start, 0).None? <==> exists i :: 0 <= i < |blocks| && blocks[i].start == start
    ensures Freed(blocks, start, 0).Some? ==>
      (FreeOk(Freed(blocks, start, 0).value) <==> exists i :: 0 <= i < |blocks| && blocks[i].end == start)
  {
    var i := Place(blocks, start);
    if j :| 0 <= j < |blocks| && blocks[j].start == start { assert j <= i ==> j == i; assert Proper(blocks[i]); }
    if Freed(blocks, start, 0).Some? {
      var bs := Freed(blocks, start, 0).value;
      if i > 0 && blocks[i - 1].end == start { assert bs == blocks; }
      else {
        assert bs[i] == Block(start, start) && !Proper(bs[i]);
        forall j | 0 <= j < |blocks| ensures blocks[j].end != start { assert Proper(blocks[j]); }
      }
    }
  }

  /** So an empty allocation that is kept while another one is made breaks the list when it is given back. */
  lemma EmptyFreedLater(blocks: seq<Block>)
    requires FreeOk(blocks) && blocks != []
    ensures Allocated(blocks, 0) == Some((blocks, blocks[0].start)) && Allocated(blocks, 1).Some?
    ensures var later := Allocated(blocks, 1).value.0;
      Freed(later, blocks[0].start, 0).Some? && !FreeOk(Freed(later, blocks[0].start, 0).value)
  {
    EmptyAllocation(blocks);
    WholePages(blocks[0]);
    var start, later := blocks[0].start, Allocated(blocks, 1).value.0;
    AllocatedFree(blocks, 1);
    forall i | 0 <= i < |later| ensures start < later[i].start < later[i].end {
      assert Proper(later[i]);
      assert i > 0 ==> blocks[0].end <= blocks[i].start;
    }
    EmptyFree(later, start);
  }

  // ----- Every sequence of allocations and frees -----

  datatype Op = Take(pages: nat) | Give(region: Block)

  datatype State = State(blocks: seq<Block>, live: set<Block>)

  const FRESH := State([Block(START_ADDR, END_ADDR)], {})

  /** Positive sizes are taken while there is room; owned regions are given back. */
  ghost predicate Next(s: State, op: Op, s': State) {
    match op
    case Take(n) =>
      n > 0 && Allocated(s.blocks, n).Some?
        && s' == State(Allocated(s.blocks, n).value.0, s.live + {Region(s.blocks, n)})
    case Give(r) =>
      r in s.live && Freed(s.blocks, r.start, Pages(r)).Some?
        && s' == State(Freed(s.blocks, r.start, Pages(r)).value, s.live - {r})
  }

  ghost predicate Run(states: seq<State>, ops: seq<Op>) {
    && |states| == |ops| + 1 && states[0] == FRESH
    && forall i :: 0 <= i < |ops| ==> Next(states[i], ops[i], states[i + 1])
  }

  /** In every state of every run free blocks and live regions divide the window, and any owned region can be freed. */
  lemma {:induction false} RunDivides(states: seq<State>, ops: seq<Op>, i: nat)
    requires Run(states, ops) && i < |states|
    ensures Divided(states[i].blocks, states[i].live)
    ensures forall r :: r in states[i].live ==> Freed(states[i].blocks, r.start, Pages(r)).Some?
  {
    hide Divided, Allocated, Freed, Pages;
    if i == 0 { FreshDivided(); }
    else {
      RunDivides(states, ops, i - 1);
      var s := states[i - 1];
      assert Next(s, ops[i - 1], states[i - 1 + 1]);
      match ops[i - 1]
      case Take(n) => AllocationKeeps(s.blocks, s.live, n);
      case Give(r) => FreeingKeeps(s.blocks, s.live, r);
    }
    forall r | r in states[i].live ensures Freed(states[i].blocks, r.start, Pages(r)).Some? {
      FreeingKeeps(states[i].blocks, states[i].live, r);
    }
  }

  lemma FreshDivided()
    ensures Divided(FRESH.blocks, FRESH.live)
  {
    forall addr: nat | START_ADDR <= addr < END_ADDR
      ensures FreeAt(FRESH.blocks, addr) { assert Has(FRESH.blocks[0], addr); }
  }

  /** Two single pages taken and given back in order: nothing is in use, and still the window is in two pieces. */
  lemma Fragments() returns (states: seq<State>, ops: seq<Op>)
    ensures Run(states, ops) && states[|ops|].live == {}
    ensures Allocated(FRESH.blocks, 2048).Some? && Allocated(states[|ops|].blocks, 2048).None?
  {
    var mid, end := START_ADDR + PAGE_SIZE, START_ADDR + 2 * PAGE_SIZE;
    var a, b, rest := Block(START_ADDR, mid), Block(mid, end), Block(end, END_ADDR);
    ops := [Take(1), Take(1), Give(a), Give(b)];
    var s1, s2 := State([Block(mid, END_ADDR)], {a}), State([rest], {a, b});
    var s3, s4 := State([a, rest], {b}), State([Block(START_ADDR, end), rest], {});
    states := [FRESH, s1, s2, s3, s4];
    assert Next(FRESH, ops[0], s1) && Next(s1, ops[1], s2);
    assert Place(s2.blocks, START_ADDR) == 0 && s2.blocks[..0] + [a] + s2.blocks[0..] == [a, rest];
    assert Next(s2, ops[2], s3);
    assert Place(s3.blocks, mid) == 1 && s3.blocks[0 := Block(START_ADDR, end)] == s4.blocks;
    assert Next(s3, ops[3], s4);
  }

  // ----- The allocator -----

  class FreeList {
    var blocks: seq<Block>

    constructor ()
      ensures blocks == FRESH.blocks
    {
      blocks := [Block(START_ADDR, END_ADDR)];
    }

    /** `None` where the original panics for lack of room. */
    method Allocate(n: nat) returns (start: Option<nat>)
      modifies this
      ensures Allocated(old(blocks), n).None? ==> start.None? && blocks == old(blocks)
      ensures Allocated(old(blocks), n).Some? ==>
        start.Some? && Allocated(old(blocks), n).value == (blocks, start.value)
    {
      var i := 0;
      while i < |blocks|
        invariant i <= |blocks| && FirstFit(blocks, n) == i + FirstFit(blocks[i..], n)
      {
        if Pages(blocks[i]) >= n {
          start := Some(blocks[i].start);
          if Pages(blocks[i]) == n { blocks := blocks[..i] + blocks[i + 1..]; }
          else { blocks := blocks[i := Block(blocks[i].start + n * PAGE_SIZE, blocks[i].end)]; }
          return;
        }
        assert blocks[i..][1..] == blocks[i + 1..];
        i := i + 1;
      }
      start := None;
    }

    method Find(start: nat) returns (index: nat)
      requires FreeOk(blocks)
      ensures index == Place(blocks, start)
    {
      hide Place, FreeOk;
      index := 0;
      var high := |blocks|;
      while index < high
        invariant index <= high <= |blocks|
        invariant forall j :: 0 <= j < index ==> blocks[j].start < start
        invariant forall j :: high <= j < |blocks| ==> blocks[j].start >= start
      {
        var mid := (index + high) / 2;
        assert forall j :: 0 <= j < mid ==> blocks[j].start < blocks[mid].start by { Ordered(blocks); }
        assert forall j :: mid < j < |blocks| ==> blocks[mid].start < blocks[j].start by { Ordered(blocks); }
        if blocks[mid].start < start { index := mid + 1; } else { high := mid; }
      }
      PlaceIs(blocks, start, index);
    }

    /** `ok` is false where the original panics over a double free. */
    method Free(start: nat, n: nat) returns (ok: bool)
      requires FreeOk(blocks)
      modifies this
      ensures ok == Freed(old(blocks), start, n).Some?
      ensures blocks == if ok then Freed(old(blocks), start, n).value else old(blocks)
    {
      hide Place, FreeOk;
      var index := Find(start);
      if index < |blocks| && blocks[index].start == start { return false; }
      var end := start + n * PAGE_SIZE;
      if index > 0 && blocks[index - 1].end == start {
        blocks := blocks[index - 1 := Block(blocks[index - 1].start, blocks[index - 1].end + n * PAGE_SIZE)];
      } else if index < |blocks| && blocks[index].start == end {
        blocks := blocks[index := Block(start, blocks[index].end)];
      } else {
        blocks := blocks[..index] + [Block(start, end)] + blocks[index..];
      }
      ok := true;
    }
  }

  lemma {:induction false} PlaceIs(blocks: seq<Block>, start: nat, i: nat)
    requires i <= |blocks| && (i < |blocks| ==> blocks[i].start >= start)
    requires forall j :: 0 <= j < i ==> blocks[j].start < start
    ensures Place(blocks, start) == i
  {
    if i > 0 { PlaceIs(blocks[1..], start, i - 1); }
  }

  lemma Ordered(blocks: seq<Block>)
    requires FreeOk(blocks)
    ensures forall i, j :: 0 <= i < j < |blocks| ==> blocks[i].start < blocks[j].start
  {
    forall i, j | 0 <= i < j < |blocks| ensures blocks[i].start < blocks[j].start { assert Proper(blocks[i]); }
  }
}
