/**
 * The page tables of one address space: a P4/P3/P2 tree of 512-entry tables, all inside one
 * 2 MiB area, with a counter of tables handed out.
 */
module PageTables {
  import opened Common

  const HUGE_PAGE_SIZE: nat := 0x20_0000
  const TABLE_SIZE: nat := 0x1000
  const MAX_PAGE_TABLES: nat := HUGE_PAGE_SIZE / TABLE_SIZE
  const PAGES: nat := 0x800_0000

  /** Number of a 2 MiB page: bits 21 to 47 of its address. */
  type PageNo = n: nat | n < PAGES
  type Index = i: nat | i < 512
  type Frame = nat

  function P4Index(p: PageNo): Index { p / 0x4_0000 }

  function P3Index(p: PageNo): Index { p / 512 % 512 }

  function P2Index(p: PageNo): Index { p % 512 }

  /** The three indices identify the page. */
  lemma IndicesIdentify(p: PageNo, p': PageNo)
    ensures P4Index(p) == P4Index(p') && P3Index(p) == P3Index(p') && P2Index(p) == P2Index(p') <==> p == p'
  {
    assert p == 512 * (p / 512) + p % 512 && p / 512 == 512 * (p / 512 / 512) + p / 512 % 512;
    assert p' == 512 * (p' / 512) + p' % 512 && p' / 512 == 512 * (p' / 512 / 512) + p' / 512 % 512;
    assert p / 512 / 512 == p / 0x4_0000 && p' / 512 / 512 == p' / 0x4_0000;
  }

  /** Nine bits each, from the top of the page number down. */
  lemma IndexBits(p: PageNo)
    ensures p == 0x4_0000 * P4Index(p) + 0x200 * P3Index(p) + P2Index(p)
  {
    assert p == 512 * (p / 512) + p % 512 && p / 512 == 512 * (p / 512 / 512) + p / 512 % 512;
    assert p / 512 / 512 == p / 0x4_0000;
  }

  datatype Flags = Flags(present: bool, writable: bool, huge: bool, noExecute: bool)

  datatype Entry = Unused | Entry(addr: nat, flags: Flags)

  const TABLE_FLAGS := Flags(true, true, false, false)

  datatype Leaf = Leaf(frame: Frame, flags: Flags)

  type Table = t: seq<Entry> | |t| == 512 witness seq(512, _ => Unused)

  const ZEROED: Table := seq(512, _ => Unused)

  // ----- Slots used by a set of pages -----

  function P4Slots(pages: set<PageNo>): set<Index> {
    set p | p in pages :: P4Index(p)
  }

  function P3Slots(pages: set<PageNo>): set<(Index, Index)> {
    set p | p in pages :: (P4Index(p), P3Index(p))
  }

  /** Tables needed for the pages: the P4, a P3 for each of its slots, a P2 for each slot of those. */
  function TablesFor(pages: set<PageNo>): nat {
    1 + |P4Slots(pages)| + |P3Slots(pages)|
  }

  /** The area holds all the tables these pages need. */
  predicate Fits(pages: set<PageNo>) {
    TablesFor(pages) <= MAX_PAGE_TABLES
  }

  /** One more page needs a table per slot it is the first to use; a P2 slot under a new P4 slot is new as well. */
  lemma SlotsOfOneMore(pages: set<PageNo>, p: PageNo)
    ensures P4Slots(pages + {p}) == P4Slots(pages) + {P4Index(p)}
    ensures P3Slots(pages + {p}) == P3Slots(pages) + {(P4Index(p), P3Index(p))}
    ensures P4Index(p) !in P4Slots(pages) ==> (P4Index(p), P3Index(p)) !in P3Slots(pages)
  {
  }

  lemma Bigger<T>(s: set<T>, x: T)
    ensures |s + {x}| == |s| + if x in s then 0 else 1
  {
    if x in s { assert s + {x} == s; }
  }

  /** One page below each of the first n slots of the P4 table. */
  function OnePerSlot(n: nat): (pages: set<PageNo>)
    requires n <= 512
    ensures forall p :: p in pages ==> P4Index(p) < n
  {
    if n == 0 then {} else OnePerSlot(n - 1) + {FirstOfSlot(n - 1)}
  }

  function FirstOfSlot(i: Index): (p: PageNo)
    ensures P4Index(p) == i
  {
    i * 0x4_0000
  }

  lemma NoSlots()
    ensures P4Slots({}) == {} && P3Slots({}) == {}
  {
  }

  lemma SlotIsNew(n: nat)
    requires n < 512
    ensures P4Index(FirstOfSlot(n)) !in P4Slots(OnePerSlot(n))
  {
    hide P4Index, FirstOfSlot, OnePerSlot;
  }

  /** Spread out like this, 256 pages already need one table more than the area holds. */
  lemma {:induction false} SpreadPages(n: nat)
    requires n <= 512
    ensures TablesFor(OnePerSlot(n)) == 1 + 2 * n
    ensures Fits(OnePerSlot(n)) <==> n < 256
  {
    hide P4Index, P3Index, FirstOfSlot, P4Slots, P3Slots;
    if n == 0 { NoSlots(); }
    else {
      SpreadPages(n - 1);
      var pages, p := OnePerSlot(n - 1), FirstOfSlot(n - 1);
      SlotIsNew(n - 1);
      SlotsOfOneMore(pages, p);
      Bigger(P4Slots(pages), P4Index(p));
      Bigger(P3Slots(pages), (P4Index(p), P3Index(p)));
    }
  }

  // ----- The tree -----

  /** Table numbers by P4 slot and by (P4, P3) slot. */
  datatype Tree = Tree(p3: map<Index, nat>, p2: map<(Index, Index), nat>)

  function TableAddr(phys: nat, t: nat): (addr: nat)
    ensures addr >= phys
  {
    phys + TABLE_SIZE * t
  }

  function TableAt(phys: nat, addr: nat): nat
    requires addr >= phys
  {
    (addr - phys) / TABLE_SIZE
  }

  lemma TableAtAddr(phys: nat, t: nat)
    ensures TableAt(phys, TableAddr(phys, t)) == t
  {
    assert TABLE_SIZE * t / TABLE_SIZE == t;
  }

  /** Tables are numbered from 1 within the area, and no two parent entries share one. */
  ghost predicate Distinct(t: Tree, count: nat) {
    && 1 <= count <= MAX_PAGE_TABLES
    && (forall i :: i in t.p3 ==> 1 <= t.p3[i] < count)
    && (forall s :: s in t.p2 ==> 1 <= t.p2[s] < count)
    && (forall i, j :: i in t.p3 && j in t.p3 && t.p3[i] == t.p3[j] ==> i == j)
    && (forall s, u :: s in t.p2 && u in t.p2 && t.p2[s] == t.p2[u] ==> s == u)
    && (forall i, s :: i in t.p3 && s in t.p2 ==> t.p3[i] != t.p2[s])
    && (forall s :: s in t.p2 ==> s.0 in t.p3)
  }

  ghost predicate RootOk(phys: nat, root: Table, t: Tree) {
    forall i: Index :: root[i] == if i in t.p3 then Entry(TableAddr(phys, t.p3[i]), TABLE_FLAGS) else Unused
  }

  ghost predicate P3Ok(phys: nat, table: Table, t: Tree, i: Index) {
    forall j: Index :: table[j] == if (i, j) in t.p2 then Entry(TableAddr(phys, t.p2[(i, j)]), TABLE_FLAGS) else Unused
  }

  ghost predicate P2Ok(table: Table) {
    forall k: Index :: table[k].Unused? || table[k].flags.huge
  }

  ghost predicate TreeInv(phys: nat, area: seq<Table>, t: Tree, count: nat) {
    && |area| == MAX_PAGE_TABLES && Distinct(t, count)
    && RootOk(phys, area[0], t)
    && (forall i :: i in t.p3 ==> P3Ok(phys, area[t.p3[i]], t, i))
    && (forall s :: s in t.p2 ==> P2Ok(area[t.p2[s]]))
  }

  /** What the tree says about a page. */
  ghost function Look(area: seq<Table>, t: Tree, p: PageNo): Option<Leaf> {
    var s := (P4Index(p), P3Index(p));
    if s !in t.p2 || t.p2[s] >= |area| || area[t.p2[s]][P2Index(p)].Unused? then None
    else Some(Leaf(area[t.p2[s]][P2Index(p)].addr, area[t.p2[s]][P2Index(p)].flags))
  }

  /** The table at a physical address, if there is one in the area that starts at `phys`. */
  function TableHere(phys: nat, area: seq<Table>, addr: nat): Option<Table> {
    if addr < phys || (addr - phys) % 4096 != 0 || (addr - phys) / 4096 >= |area| then None
    else Some(area[(addr - phys) / 4096])
  }

  /** The table that an entry of a table leads to. */
  function Below(phys: nat, area: seq<Table>, e: Entry): Option<Table> {
    if e.Unused? || !e.flags.present || e.flags.huge then None else TableHere(phys, area, e.addr)
  }

  /** What entries on all three levels allow together. */
  function Rights(e4: Flags, e3: Flags, e2: Flags): Flags {
    e2.(writable := e4.writable && e3.writable && e2.writable,
        noExecute := e4.noExecute || e3.noExecute || e2.noExecute)
  }

  /** What the processor makes of the tables, starting from the one at `phys`. */
  function Mmu(phys: nat, area: seq<Table>, p: PageNo): Option<Leaf> {
    var p4 := TableHere(phys, area, phys);
    if p4.None? then None
    else
      var e4 := p4.value[p / 0x4_0000];
      var p3 := Below(phys, area, e4);
      if p3.None? then None
      else
        var e3 := p3.value[p / 0x200 % 0x200];
        var p2 := Below(phys, area, e3);
        if p2.None? then None
        else
          var e2 := p2.value[p % 0x200];
          if e2.Unused? || !e2.flags.present || !e2.flags.huge then None
          else Some(Leaf(e2.addr, Rights(e4.flags, e3.flags, e2.flags)))
  }

  lemma HereAtAddr(phys: nat, area: seq<Table>, t: nat)
    requires t < |area|
    ensures TableHere(phys, area, TableAddr(phys, t)) == Some(area[t])
  {
    assert 4096 * t % 4096 == 0 && 4096 * t / 4096 == t;
  }

  /** The processor translates exactly the pages of the address space that are marked present, with just their flags. */
  lemma MmuSees(phys: nat, area: seq<Table>, t: Tree, count: nat, p: PageNo)
    requires TreeInv(phys, area, t, count)
    ensures Mmu(phys, area, p) ==
      if Look(area, t, p).Some? && Look(area, t, p).value.flags.present then Look(area, t, p) else None
  {
    HereAtAddr(phys, area, 0);
    var i, j := P4Index(p), P3Index(p);
    assert i == p / 0x4_0000 && j == p / 0x200 % 0x200 && P2Index(p) == p % 0x200;
    assert TableAddr(phys, 0) == phys;
    hide P4Index, P3Index, P2Index, TableAddr, TableHere, Distinct;
    CountInArea(phys, area, t, count);
    RootEntry(phys, area, t, count, i);
    if i in t.p3 {
      P3Entry(phys, area, t, count, i, j);
      HereAtAddr(phys, area, t.p3[i]);
      if (i, j) in t.p2 {
        TableInArea(phys, area, t, count, p);
        HereAtAddr(phys, area, t.p2[(i, j)]);
        assert P2Ok(area[t.p2[(i, j)]]);
      }
    } else {
      NoP3NoP2(phys, area, t, count, i, j);
    }
  }

  lemma NoP3NoP2(phys: nat, area: seq<Table>, t: Tree, count: nat, i: Index, j: Index)
    requires TreeInv(phys, area, t, count) && i !in t.p3
    ensures (i, j) !in t.p2
  {
  }

  lemma DistinctP3(t: Tree, count: nat, i: Index)
    requires Distinct(t, count) && i !in t.p3 && count < MAX_PAGE_TABLES
    ensures Distinct(t.(p3 := t.p3[i := count]), count + 1)
  {
  }

  lemma DistinctP2(t: Tree, count: nat, i: Index, j: Index)
    requires Distinct(t, count) && i in t.p3 && (i, j) !in t.p2 && count < MAX_PAGE_TABLES
    ensures Distinct(t.(p2 := t.p2[(i, j) := count]), count + 1)
  {
  }

  /** Tables that lie where they lay are read as before. */
  lemma SameLook(area: seq<Table>, t: Tree, area': seq<Table>, t': Tree, p: PageNo)
    requires var s := (P4Index(p), P3Index(p)); |area'| == |area| && (s in t.p2 ==>
      s in t'.p2 && t'.p2[s] == t.p2[s] && (t.p2[s] < |area| ==> area'[t.p2[s]] == area[t.p2[s]]))
    requires var s := (P4Index(p), P3Index(p)); s !in t.p2 && s in t'.p2 && t'.p2[s] < |area'| ==>
      area'[t'.p2[s]] == ZEROED
    ensures Look(area', t', p) == Look(area, t, p)
  {
    hide P4Index, P3Index, P2Index;
  }

  // The tables one by one: a parent with one more child, the others, and the new one.

  lemma RootGains(phys: nat, root: Table, t: Tree, i: Index, u: nat)
    requires RootOk(phys, root, t)
    ensures RootOk(phys, root[i := Entry(TableAddr(phys, u), TABLE_FLAGS)], t.(p3 := t.p3[i := u]))
  {
    hide TableAddr;
  }

  lemma RootStays(phys: nat, root: Table, t: Tree, t': Tree)
    requires RootOk(phys, root, t) && t'.p3 == t.p3
    ensures RootOk(phys, root, t')
  {
    hide TableAddr;
  }

  lemma P3Stays(phys: nat, table: Table, t: Tree, t': Tree, i: Index)
    requires P3Ok(phys, table, t, i)
    requires forall j: Index ::
      ((i, j) in t'.p2 <==> (i, j) in t.p2) && ((i, j) in t.p2 ==> t'.p2[(i, j)] == t.p2[(i, j)])
    ensures P3Ok(phys, table, t', i)
  {
    hide TableAddr;
  }

  lemma P3Gains(phys: nat, table: Table, t: Tree, i: Index, j: Index, u: nat)
    requires P3Ok(phys, table, t, i)
    ensures P3Ok(phys, table[j := Entry(TableAddr(phys, u), TABLE_FLAGS)], t.(p2 := t.p2[(i, j) := u]), i)
  {
    hide TableAddr;
  }

  lemma EmptyP2()
    ensures P2Ok(ZEROED)
  {
  }

  lemma P3Empty(phys: nat, t: Tree, i: Index)
    requires forall j: Index :: (i, j) !in t.p2
    ensures P3Ok(phys, ZEROED, t, i)
  {
  }

  /** The tables in use, none of them below a free P4 slot. */
  lemma InUse(t: Tree, count: nat, i: Index)
    requires Distinct(t, count) && i !in t.p3
    ensures 1 <= count <= MAX_PAGE_TABLES && forall x :: x in t.p3 ==> 1 <= t.p3[x] < count
    ensures (forall s :: s in t.p2 ==> 1 <= t.p2[s] < count) && forall j: Index :: (i, j) !in t.p2
  {
  }

  /** Hanging an empty P3 table into a free P4 slot. */
  lemma AddP3(phys: nat, area: seq<Table>, t: Tree, count: nat, i: Index, area': seq<Table>, t': Tree)
    requires TreeInv(phys, area, t, count) && i !in t.p3 && count < MAX_PAGE_TABLES
    requires area' == area[0 := area[0][i := Entry(TableAddr(phys, count), TABLE_FLAGS)]][count := ZEROED]
    requires t' == t.(p3 := t.p3[i := count])
    ensures TreeInv(phys, area', t', count + 1)
    ensures forall p: PageNo :: Look(area', t', p) == Look(area, t, p)
  {
    hide P4Index, P3Index, P2Index, TableAddr, Look, RootOk, P3Ok, P2Ok, Distinct;
    DistinctP3(t, count, i);
    InUse(t, count, i);
    RootGains(phys, area[0], t, i, count);
    forall x | x in t'.p3 ensures P3Ok(phys, area'[t'.p3[x]], t', x) {
      if x != i { P3Stays(phys, area[t.p3[x]], t, t', x); } else { P3Empty(phys, t', i); }
    }
    forall s | s in t'.p2 ensures P2Ok(area'[t'.p2[s]]) { assert area'[t'.p2[s]] == area[t.p2[s]]; }
    forall p: PageNo ensures Look(area', t', p) == Look(area, t, p) { SameLook(area, t, area', t', p); }
  }

  /** The tables other than the P3 table of slot i. */
  lemma Apart(t: Tree, count: nat, i: Index)
    requires Distinct(t, count) && i in t.p3
    ensures forall x :: x in t.p3 ==> 1 <= t.p3[x] < count <= MAX_PAGE_TABLES && (x != i ==> t.p3[x] != t.p3[i])
    ensures forall s :: s in t.p2 ==> 1 <= t.p2[s] < count && t.p2[s] != t.p3[i]
  {
  }

  /** Hanging an empty P2 table into a free slot of a P3 table. */
  lemma AddP2(phys: nat, area: seq<Table>, t: Tree, count: nat, i: Index, j: Index, area': seq<Table>, t': Tree)
    requires TreeInv(phys, area, t, count) && i in t.p3 && (i, j) !in t.p2 && count < MAX_PAGE_TABLES
    requires var parent := t.p3[i];
      area' == area[parent := area[parent][j := Entry(TableAddr(phys, count), TABLE_FLAGS)]][count := ZEROED]
    requires t' == t.(p2 := t.p2[(i, j) := count])
    ensures TreeInv(phys, area', t', count + 1)
    ensures forall p: PageNo :: Look(area', t', p) == Look(area, t, p)
  {
    hide P4Index, P3Index, P2Index, TableAddr, Look, RootOk, P3Ok, P2Ok, Distinct;
    DistinctP2(t, count, i, j);
    Apart(t, count, i);
    RootStays(phys, area[0], t, t');
    forall x | x in t'.p3 ensures P3Ok(phys, area'[t'.p3[x]], t', x) {
      if x != i { P3Stays(phys, area[t.p3[x]], t, t', x); } else { P3Gains(phys, area[t.p3[i]], t, i, j, count); }
    }
    forall s | s in t'.p2 ensures P2Ok(area'[t'.p2[s]]) {
      if s != (i, j) { assert area'[t'.p2[s]] == area[t.p2[s]]; } else { EmptyP2(); }
    }
    forall p: PageNo ensures Look(area', t', p) == Look(area, t, p) { SameLook(area, t, area', t', p); }
  }

  lemma SetLeaf(phys: nat, area: seq<Table>, t: Tree, count: nat, p: PageNo, e: Entry)
    requires TreeInv(phys, area, t, count) && (P4Index(p), P3Index(p)) in t.p2 && (e.Unused? || e.flags.huge)
    ensures var u := t.p2[(P4Index(p), P3Index(p))];
      var area' := area[u := area[u][P2Index(p) := e]];
      && TreeInv(phys, area', t, count)
      && forall q: PageNo :: Look(area', t, q) ==
           if q != p then Look(area, t, q) else if e.Unused? then None else Some(Leaf(e.addr, e.flags))
  {
    hide P4Index, P3Index, P2Index, TableAddr;
    var u := t.p2[(P4Index(p), P3Index(p))];
    var area' := area[u := area[u][P2Index(p) := e]];
    forall i | i in t.p3 ensures P3Ok(phys, area'[t.p3[i]], t, i) { assert P3Ok(phys, area[t.p3[i]], t, i); }
    forall s | s in t.p2 ensures P2Ok(area'[t.p2[s]]) { assert P2Ok(area[t.p2[s]]); }
    forall q: PageNo ensures Look(area', t, q) ==
      if q != p then Look(area, t, q) else if e.Unused? then None else Some(Leaf(e.addr, e.flags))
    {
      IndicesIdentify(p, q);
    }
  }

  lemma InitTree(phys: nat, area: seq<Table>, page: PageNo)
    requires |area| == MAX_PAGE_TABLES
    requires area[0] == ZEROED[P4Index(page) := Entry(TableAddr(phys, 1), TABLE_FLAGS)]
    requires area[1] == ZEROED[P3Index(page) := Entry(TableAddr(phys, 2), TABLE_FLAGS)]
    requires area[2] == ZEROED[P2Index(page) := Entry(phys, TABLE_FLAGS.(huge := true))]
    ensures var t := Tree(map[P4Index(page) := 1], map[(P4Index(page), P3Index(page)) := 2]);
      && TreeInv(phys, area, t, 3)
      && forall p: PageNo :: Look(area, t, p) ==
           if p == page then Some(Leaf(phys, TABLE_FLAGS.(huge := true))) else None
  {
    hide P4Index, P3Index, P2Index, TableAddr;
    var t := Tree(map[P4Index(page) := 1], map[(P4Index(page), P3Index(page)) := 2]);
    assert P3Ok(phys, area[1], t, P4Index(page));
    forall p: PageNo
      ensures Look(area, t, p) == if p == page then Some(Leaf(phys, TABLE_FLAGS.(huge := true))) else None
    {
      IndicesIdentify(p, page);
    }
  }

  // ----- Accounting -----

  /** The tables are those of the pages that were ever mapped. */
  ghost predicate Accounted(t: Tree, count: nat, ever: set<PageNo>) {
    t.p3.Keys == P4Slots(ever) && t.p2.Keys == P3Slots(ever) && count == TablesFor(ever)
  }

  lemma RoomForPage(t: Tree, count: nat, ever: set<PageNo>, p: PageNo)
    requires Accounted(t, count, ever)
    ensures TablesFor(ever + {p}) == count
      + (if P4Index(p) in t.p3 then 0 else 1) + (if (P4Index(p), P3Index(p)) in t.p2 then 0 else 1)
    ensures P4Index(p) !in t.p3 ==> (P4Index(p), P3Index(p)) !in t.p2
  {
    hide P4Index, P3Index, P2Index;
    SlotsOfOneMore(ever, p);
    Bigger(P4Slots(ever), P4Index(p));
    Bigger(P3Slots(ever), (P4Index(p), P3Index(p)));
  }

  lemma Room(t: Tree, count: nat, ever: set<PageNo>, p: PageNo)
    requires Accounted(t, count, ever) && Fits(ever + {p})
    ensures count + (if P4Index(p) in t.p3 then 0 else 1)
      + (if (P4Index(p), P3Index(p)) in t.p2 then 0 else 1) <= MAX_PAGE_TABLES
  {
    hide P4Index, P3Index, P2Index;
    RoomForPage(t, count, ever, p);
  }

  /** The last table handed out for the page ends inside the area exactly when the pages fit; nothing checks this. */
  lemma FitsIffInside(phys: nat, t: Tree, count: nat, ever: set<PageNo>, p: PageNo)
    requires Accounted(t, count, ever)
    ensures var last := count - 1 + (if P4Index(p) in t.p3 then 0 else 1)
      + (if (P4Index(p), P3Index(p)) in t.p2 then 0 else 1);
      Fits(ever + {p}) <==> TableAddr(phys, last) + TABLE_SIZE <= phys + HUGE_PAGE_SIZE
  {
    hide P4Index, P3Index, P2Index;
    RoomForPage(t, count, ever, p);
  }

  /** After hanging in the missing tables the books agree again. */
  lemma AccountedMore(t: Tree, count: nat, ever: set<PageNo>, p: PageNo, t': Tree, count': nat)
    requires Accounted(t, count, ever)
    requires t'.p3.Keys == t.p3.Keys + {P4Index(p)} && t'.p2.Keys == t.p2.Keys + {(P4Index(p), P3Index(p))}
    requires count' ==
      count + (if P4Index(p) in t.p3 then 0 else 1) + (if (P4Index(p), P3Index(p)) in t.p2 then 0 else 1)
    ensures Accounted(t', count', ever + {p})
  {
    hide P4Index, P3Index, P2Index;
    RoomForPage(t, count, ever, p);
    SlotsOfOneMore(ever, p);
  }

  lemma InitAccounted(page: PageNo)
    ensures Accounted(Tree(map[P4Index(page) := 1], map[(P4Index(page), P3Index(page)) := 2]), 3, {page})
  {
    hide P4Index, P3Index, P2Index;
    assert P4Slots({page}) == {P4Index(page)} && P3Slots({page}) == {(P4Index(page), P3Index(page))};
  }

  /** Zeroes the first three tables and links them into a path to the area itself. */
  method FirstTables(phys: nat, area: array<Table>, page: PageNo)
    requires area.Length == MAX_PAGE_TABLES
    modifies area
    ensures area[0] == ZEROED[P4Index(page) := Entry(TableAddr(phys, 1), TABLE_FLAGS)]
    ensures area[1] == ZEROED[P3Index(page) := Entry(TableAddr(phys, 2), TABLE_FLAGS)]
    ensures area[2] == ZEROED[P2Index(page) := Entry(phys, TABLE_FLAGS.(huge := true))]
  {
    hide P4Index, P3Index, P2Index, TableAddr;
    area[0], area[1], area[2] := ZEROED, ZEROED, ZEROED;
    area[0] := area[0][P4Index(page) := Entry(TableAddr(phys, 1), TABLE_FLAGS)];
    area[1] := area[1][P3Index(page) := Entry(TableAddr(phys, 2), TABLE_FLAGS)];
    area[2] := area[2][P2Index(page) := Entry(phys, TABLE_FLAGS.(huge := true))];
  }

  class PageMap {
    const phys: nat
    const area: array<Table>
    var tableCount: nat
    ghost var tree: Tree
    ghost var ever: set<PageNo>

    ghost predicate Valid()
      reads this, area
    {
      TreeInv(phys, area[..], tree, tableCount) && Accounted(tree, tableCount, ever)
    }

    ghost function Lookup(p: PageNo): Option<Leaf>
      reads `tree, area
    {
      Look(area[..], tree, p)
    }

    /** The address space as a plain map. */
    ghost function View(): map<PageNo, Leaf>
      reads `tree, area
    {
      map p: PageNo | Lookup(p).Some? :: Lookup(p).value
    }

    lemma ViewIs(m: map<PageNo, Leaf>)
      requires forall p: PageNo :: Lookup(p) == if p in m then Some(m[p]) else None
      ensures View() == m
    {
      hide Lookup;
    }

    /** One table per level, with the area itself mapped at `page`. */
    constructor (phys: nat, area: array<Table>, page: PageNo)
      requires area.Length == MAX_PAGE_TABLES
      modifies area
      ensures this.phys == phys && this.area == area && ever == {page} && tableCount == 3
      ensures Valid()
      ensures View() == map[page := Leaf(phys, TABLE_FLAGS.(huge := true))]
    {
      hide P4Index, P3Index, P2Index, TreeInv, Look, Accounted, TableAddr, View, ZEROED, TABLE_FLAGS;
      this.phys, this.area, tableCount := phys, area, 3;
      tree := Tree(map[P4Index(page) := 1], map[(P4Index(page), P3Index(page)) := 2]);
      ever := {page};
      new;
      InitAccounted(page);
      FirstTables(phys, area, page);
      InitTree(phys, area[..], page);
      ViewIs(map[page := Leaf(phys, TABLE_FLAGS.(huge := true))]);
    }

    /** The entry of a page, and the table it is in, when its tables exist. */
    method Walk(p: PageNo) returns (t: Option<nat>)
      requires Valid()
      ensures t == if (P4Index(p), P3Index(p)) in tree.p2 then Some(tree.p2[(P4Index(p), P3Index(p))]) else None
      ensures t.Some? ==> t.value < area.Length && P2Ok(area[t.value])
    {
      hide P4Index, P3Index, P2Index, TableAddr, TableAt, Accounted;
      var e4 := area[0][P4Index(p)];
      if e4.Unused? { return None; }
      TableAtAddr(phys, tree.p3[P4Index(p)]);
      assert P3Ok(phys, area[..][tree.p3[P4Index(p)]], tree, P4Index(p));
      var e3 := area[TableAt(phys, e4.addr)][P3Index(p)];
      if e3.Unused? { return None; }
      TableAtAddr(phys, tree.p2[(P4Index(p), P3Index(p))]);
      assert P2Ok(area[..][tree.p2[(P4Index(p), P3Index(p))]]);
      t := Some(TableAt(phys, e3.addr));
    }

    /** Walks the tables; the huge-page assertion on the last entry cannot fail. */
    method Translate(p: PageNo) returns (frame: Option<Frame>)
      requires Valid()
      ensures frame == if p in View() then Some(View()[p].frame) else None
    {
      hide P4Index, P3Index, P2Index, TreeInv, Accounted;
      var t := Walk(p);
      if t.None? { return None; }
      var e2 := area[t.value][P2Index(p)];
      if e2.Unused? { return None; }
      assert e2.flags.huge;
      frame := Some(e2.addr);
    }

    /** Takes the next table, zeroed, and links it into an entry of another one. */
    method NewTable(parent: nat, i: Index) returns (t: nat)
      requires parent < tableCount < area.Length
      modifies `tableCount, area
      ensures t == old(tableCount) && tableCount == t + 1
      ensures area[..] ==
        old(area[..])[parent := old(area[parent])[i := Entry(TableAddr(phys, t), TABLE_FLAGS)]][t := ZEROED]
    {
      hide TableAddr;
      t := tableCount;
      tableCount := tableCount + 1;
      area[parent] := area[parent][i := Entry(TableAddr(phys, t), TABLE_FLAGS)];
      area[t] := ZEROED;
    }

    /** The P3 table of a P4 slot, made when it is missing. */
    method GetP3(i: Index) returns (t: nat)
      requires TreeInv(phys, area[..], tree, tableCount) && (i !in tree.p3 ==> tableCount < MAX_PAGE_TABLES)
      modifies this, area
      ensures TreeInv(phys, area[..], tree, tableCount) && ever == old(ever)
      ensures tree == if i in old(tree).p3 then old(tree) else old(tree).(p3 := old(tree).p3[i := old(tableCount)])
      ensures tableCount == old(tableCount) + (if i in old(tree).p3 then 0 else 1)
      ensures t == tree.p3[i] && forall p: PageNo :: Lookup(p) == old(Lookup(p))
    {
      RootEntry(phys, area[..], tree, tableCount, i);
      hide P4Index, P3Index, P2Index, TableAddr, TableAt, TreeInv, Look;
      if area[0][i].Unused? {
        ghost var was: seq<Table> := area[..];
        t := NewTable(0, i);
        AddP3(phys, was, tree, t, i, area[..], tree.(p3 := tree.p3[i := t]));
        tree := tree.(p3 := tree.p3[i := t]);
      } else {
        TableAtAddr(phys, tree.p3[i]);
        t := TableAt(phys, area[0][i].addr);
      }
    }

    /** The P2 table of a slot of that P3 table, made when it is missing. */
    method GetP2(i: Index, j: Index, parent: nat) returns (t: nat)
      requires TreeInv(phys, area[..], tree, tableCount) && i in tree.p3 && parent == tree.p3[i]
      requires (i, j) !in tree.p2 ==> tableCount < MAX_PAGE_TABLES
      modifies this, area
      ensures TreeInv(phys, area[..], tree, tableCount) && ever == old(ever)
      ensures tree ==
        if (i, j) in old(tree).p2 then old(tree) else old(tree).(p2 := old(tree).p2[(i, j) := old(tableCount)])
      ensures tableCount == old(tableCount) + (if (i, j) in old(tree).p2 then 0 else 1)
      ensures t == tree.p2[(i, j)] && forall p: PageNo :: Lookup(p) == old(Lookup(p))
    {
      P3Entry(phys, area[..], tree, tableCount, i, j);
      hide P4Index, P3Index, P2Index, TableAddr, TableAt, TreeInv, Look;
      if area[parent][j].Unused? {
        ghost var was: seq<Table> := area[..];
        t := NewTable(parent, j);
        AddP2(phys, was, tree, t, i, j, area[..], tree.(p2 := tree.p2[(i, j) := t]));
        tree := tree.(p2 := tree.p2[(i, j) := t]);
      } else {
        TableAtAddr(phys, tree.p2[(i, j)]);
        t := TableAt(phys, area[parent][j].addr);
      }
    }

    /** The P2 table for a page, with the tables above it made as needed. */
    method GetTable(p: PageNo) returns (t: nat)
      requires Valid() && Fits(ever + {p})
      modifies this, area
      ensures Valid() && ever == old(ever) + {p}
      ensures (P4Index(p), P3Index(p)) in tree.p2 && t == tree.p2[(P4Index(p), P3Index(p))]
      ensures forall q: PageNo :: Lookup(q) == old(Lookup(q))
    {
      hide TreeInv, Look, Lookup, Fits, Accounted, P4Index, P3Index, P2Index, TableAddr;
      Room(tree, tableCount, ever, p);
      ghost var was, count := tree, tableCount;
      var t3 := GetP3(P4Index(p));
      t := GetP2(P4Index(p), P3Index(p), t3);
      AccountedMore(was, count, ever, p, tree, tableCount);
      ever := ever + {p};
    }

    method Store(p: PageNo, t: nat, e: Entry)
      requires Valid() && (P4Index(p), P3Index(p)) in tree.p2 && t == tree.p2[(P4Index(p), P3Index(p))]
      requires e.Unused? || e.flags.huge
      modifies area
      ensures Valid()
      ensures Lookup(p) == if e.Unused? then None else Some(Leaf(e.addr, e.flags))
      ensures forall q: PageNo :: q != p ==> Lookup(q) == old(Lookup(q))
    {
      hide TreeInv, Look, Accounted, P4Index, P3Index, P2Index, TableAddr;
      TableInArea(phys, area[..], tree, tableCount, p);
      SetLeaf(phys, area[..], tree, tableCount, p, e);
      ghost var was: seq<Table> := area[..];
      area[t] := area[t][P2Index(p) := e];
      assert area[..] == was[t := was[t][P2Index(p) := e]];
    }

    /** How many tables on the way to this page are missing. */
    method Missing(p: PageNo) returns (n: nat)
      requires Valid()
      ensures n == (if P4Index(p) in tree.p3 then 0 else 1) + (if (P4Index(p), P3Index(p)) in tree.p2 then 0 else 1)
    {
      hide P4Index, P3Index, P2Index, TableAddr, TableAt, Accounted, P2Ok;
      if area[0][P4Index(p)].Unused? { return 2; }
      var t := Walk(p);
      n := if t.None? then 1 else 0;
    }

    /**
     * Maps one page and changes no other; takes no table that the pages ever mapped do not need.
     * `ok` is false where the original, which does not check, places a table behind its area.
     */
    method MapTo(p: PageNo, frame: Frame, flags: Flags) returns (ok: bool)
      requires Valid()
      modifies this, area
      ensures Valid() && (ok <==> Fits(old(ever) + {p}))
      ensures ok ==> ever == old(ever) + {p} && View() == old(View())[p := Leaf(frame, flags.(huge := true))]
      ensures !ok ==> ever == old(ever) && tableCount == old(tableCount) && View() == old(View())
    {
      hide TreeInv, Accounted, Look, Lookup, P4Index, P3Index, P2Index;
      var missing := Missing(p);
      RoomForPage(tree, tableCount, ever, p);
      if tableCount + missing > MAX_PAGE_TABLES { return false; }
      hide Valid, Fits;
      var t := GetTable(p);
      Store(p, t, Entry(frame, flags.(huge := true)));
      ok := true;
    }

    lemma MappedHasTable(p: PageNo)
      requires Valid() && p in View()
      ensures (P4Index(p), P3Index(p)) in P3Slots(ever)
    {
      hide TreeInv, P4Index, P3Index, P2Index, P3Slots;
      assert (P4Index(p), P3Index(p)) in tree.p2;
    }

    /** A page that is mapped needs no new table. */
    lemma MappedFits(p: PageNo)
      requires Valid() && p in View()
      ensures Fits(ever + {p})
    {
      hide TreeInv, P4Index, P3Index, P2Index;
      assert (P4Index(p), P3Index(p)) in tree.p2;
      RoomForPage(tree, tableCount, ever, p);
      CountInArea(phys, area[..], tree, tableCount);
    }

    /** Unmaps one page; the original panics when no page of its P2 table was ever mapped. */
    method Unmap(p: PageNo)
      requires Valid() && (P4Index(p), P3Index(p)) in P3Slots(ever)
      modifies area
      ensures Valid()
      ensures View() == old(View()) - {p}
    {
      hide TreeInv, Accounted, Lookup, P4Index, P3Index, P2Index, P3Slots;
      SlotInTree(tree, tableCount, ever, (P4Index(p), P3Index(p)));
      var t := Walk(p);
      Store(p, t.value, Unused);
    }
  }

  lemma RootEntry(phys: nat, area: seq<Table>, t: Tree, count: nat, i: Index)
    requires TreeInv(phys, area, t, count)
    ensures |area| == MAX_PAGE_TABLES && 0 < count
    ensures area[0][i] == if i in t.p3 then Entry(TableAddr(phys, t.p3[i]), TABLE_FLAGS) else Unused
  {
    hide TableAddr;
  }

  lemma P3Entry(phys: nat, area: seq<Table>, t: Tree, count: nat, i: Index, j: Index)
    requires TreeInv(phys, area, t, count) && i in t.p3
    ensures |area| == MAX_PAGE_TABLES && t.p3[i] < count <= |area|
    ensures area[t.p3[i]][j] == if (i, j) in t.p2 then Entry(TableAddr(phys, t.p2[(i, j)]), TABLE_FLAGS) else Unused
  {
    hide TableAddr;
    assert P3Ok(phys, area[t.p3[i]], t, i);
  }

  lemma SlotInTree(t: Tree, count: nat, ever: set<PageNo>, s: (Index, Index))
    requires Accounted(t, count, ever)
    ensures s in t.p2 <==> s in P3Slots(ever)
  {
  }

  lemma TableInArea(phys: nat, area: seq<Table>, t: Tree, count: nat, p: PageNo)
    requires TreeInv(phys, area, t, count) && (P4Index(p), P3Index(p)) in t.p2
    ensures t.p2[(P4Index(p), P3Index(p))] < |area| == MAX_PAGE_TABLES
  {
  }

  lemma CountInArea(phys: nat, area: seq<Table>, t: Tree, count: nat)
    requires TreeInv(phys, area, t, count)
    ensures count <= MAX_PAGE_TABLES
  {
  }
}
