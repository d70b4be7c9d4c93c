/** DMA memory of ipu-dma.c: pages taken greedily in power-of-two chunks, mapped one
    by one behind the device's MMU, and given back; an allocation happens as a
    whole or not at all.  Addresses are counted in pages where the code shifts
    them; the answers of the page, address and table allocators come from an
    arbitrary `world`, by call number. */
module Dma {
  import opened Common

  const PAGE_SIZE := 4096

  datatype Answer = No | Yes(base: nat)

  /** A live allocation: its first device page and its memory pages. */
  datatype Vma = Vma(lo: nat, pages: seq<nat>)

  /** `used` are the memory pages taken, `table` the device's page table, `iovas`
      the reserved device ranges, `vmas` the live allocations, newest first. */
  datatype State = State(used: set<nat>, table: map<nat, nat>, iovas: map<nat, nat>, vmas: seq<Vma>)

  function Pages(size: nat): nat { (size + PAGE_SIZE - 1) / PAGE_SIZE }

  function Pow2(n: nat): (p: nat)
    ensures p > 0
  {
    if n == 0 then 1 else 2 * Pow2(n - 1)
  }

  /** The index of the highest set bit. */
  function Fls(n: nat): (k: nat)
    requires n > 0
    ensures Pow2(k) <= n < 2 * Pow2(k)
  {
    if n == 1 then 0 else 1 + Fls(n / 2)
  }

  function Block(base: nat, count: nat): (s: set<nat>)
    ensures forall x: nat :: x in s <==> base <= x < base + count
  {
    if count == 0 then {} else Block(base, count - 1) + {base + count - 1}
  }

  function PageSet(pages: seq<nat>): set<nat> { set p | p in pages }

  // ---------------------------------------------------------------- chunks

  /** A chunk with `remaining` pages still to get: the order granted, and how many
      orders were tried for it. */
  datatype Chunk = Chunk(remaining: nat, order: nat, tries: nat)

  /** The highest order that fits is tried first, then every lower one in turn. */
  predicate Greedy(c: Chunk) {
    c.remaining > 0 && c.order <= Fls(c.remaining) && c.tries == Fls(c.remaining) - c.order + 1
  }

  function Covered(log: seq<Chunk>): nat {
    if log == [] then 0 else Covered(log[..|log| - 1]) + Pow2(log[|log| - 1].order)
  }

  lemma {:induction false} Pow2Monotone(a: nat, b: nat)
    requires a <= b
    ensures Pow2(a) <= Pow2(b)
  {
    if a < b { Pow2Monotone(a, b - 1); }
  }

  /** The chunks of a buffer, in order: each begins where the last one left off. */
  ghost predicate Chain(log: seq<Chunk>, count: nat) {
    forall k | 0 <= k < |log| :: Greedy(log[k]) && log[k].remaining == count - Covered(log[..k])
  }

  /** Without refusals the chunks are the binary digits of the size, the largest
      first. */
  lemma BinaryChunks(log: seq<Chunk>, count: nat, i: nat)
    requires Chain(log, count) && i + 1 < |log| && log[i].tries == 1 && log[i + 1].tries == 1
    ensures log[i].order == Fls(log[i].remaining) && log[i + 1].order < log[i].order
  {
    hide Fls, Pow2, Covered;
    var a, b := log[i], log[i + 1];
    assert Greedy(a) && Greedy(b);
    CoveredNext(log, i);
    if b.order >= a.order { Pow2Monotone(a.order, b.order); }
  }

  lemma CoveredNext(log: seq<Chunk>, i: nat)
    requires i < |log|
    ensures Covered(log[..i + 1]) == Covered(log[..i]) + Pow2(log[i].order)
  {
    assert log[..i + 1][..i] == log[..i];
  }

  // ---------------------------------------------------------------- what an allocation and a release do

  function Range(lo: nat, pages: seq<nat>): (m: map<nat, nat>)
    ensures forall x: nat :: x in m <==> lo <= x < lo + |pages|
    ensures forall x | x in m :: m[x] == pages[x - lo]
  {
    if pages == [] then map[] else Range(lo, pages[..|pages| - 1])[lo + |pages| - 1 := pages[|pages| - 1]]
  }

  function Added(s: State, lo: nat, pages: seq<nat>): State {
    State(s.used + PageSet(pages), s.table + Range(lo, pages), s.iovas[lo := |pages|], [Vma(lo, pages)] + s.vmas)
  }

  predicate Holds(v: Vma, page: nat) { v.lo <= page < v.lo + |v.pages| }

  function FindVma(vmas: seq<Vma>, page: nat): (i: nat)
    ensures i <= |vmas|
    ensures i < |vmas| ==> Holds(vmas[i], page)
    ensures forall j | 0 <= j < i :: !Holds(vmas[j], page)
  {
    if vmas == [] then 0 else if Holds(vmas[0], page) then 0 else 1 + FindVma(vmas[1..], page)
  }

  /** ipu_dma_free, for a device address: the mapping and the range go, and as many
      of the pages as the given size says. */
  function Freed(s: State, size: nat, handle: nat): State {
    var i := FindVma(s.vmas, handle / PAGE_SIZE);
    if i == |s.vmas| then s
    else
      var v := s.vmas[i];
      var m := Min(Pages(size), |v.pages|);
      State(s.used - PageSet(v.pages[..m]), s.table - Block(v.lo, |v.pages|), s.iovas - {v.lo}, Without(s.vmas, i))
  }

  /** Nothing of the new allocation is in use yet. */
  predicate Free(s: State, lo: nat, pages: seq<nat>) {
    && Distinct(pages) && PageSet(pages) !! s.used
    && lo !in s.iovas && (forall x | lo <= x < lo + |pages| :: x !in s.table)
    && forall v | v in s.vmas :: v.lo + |v.pages| <= lo || lo + |pages| <= v.lo
  }

  lemma FindFirst(v: Vma, rest: seq<Vma>, page: nat)
    requires Holds(v, page)
    ensures FindVma([v] + rest, page) == 0
  {}

  /** A release undoes an allocation, by any address inside it, exactly if its size
      covers as many pages; a smaller one leaves the rest of them taken. */
  lemma AllocFree(s: State, lo: nat, pages: seq<nat>, size: nat, handle: nat)
    requires Free(s, lo, pages) && lo <= handle / PAGE_SIZE < lo + |pages|
    ensures var after := Freed(Added(s, lo, pages), size, handle);
            && after.table == s.table && after.iovas == s.iovas && after.vmas == s.vmas
            && after.used == s.used + PageSet(pages[Min(Pages(size), |pages|)..])
            && (after == s <==> Pages(size) >= |pages|)
  {
    hide Pages, Range, Block, PageSet, FindVma, Distinct;
    var v := Vma(lo, pages);
    FindFirst(v, s.vmas, handle / PAGE_SIZE);
    assert Without([v] + s.vmas, 0) == s.vmas;
    FreeTable(s, lo, pages);
    FreePages(s.used, pages, Min(Pages(size), |pages|));
    FreeIova(s.iovas, lo, |pages|);
  }

  lemma FreeIova(iovas: map<nat, nat>, lo: nat, n: nat)
    requires lo !in iovas
    ensures iovas[lo := n] - {lo} == iovas
  {}

  lemma FreeTable(s: State, lo: nat, pages: seq<nat>)
    requires forall x | lo <= x < lo + |pages| :: x !in s.table
    ensures (s.table + Range(lo, pages)) - Block(lo, |pages|) == s.table
  {}

  lemma FreePages(used: set<nat>, pages: seq<nat>, m: nat)
    requires m <= |pages| && Distinct(pages) && PageSet(pages) !! used
    ensures (used + PageSet(pages)) - PageSet(pages[..m]) == used + PageSet(pages[m..])
    ensures used + PageSet(pages[m..]) == used <==> m == |pages|
  {
    forall x ensures x in (used + PageSet(pages)) - PageSet(pages[..m]) <==> x in used + PageSet(pages[m..]) {
      if x in pages {
        var k :| 0 <= k < |pages| && pages[k] == x;
        if k < m { assert pages[..m][k] == x; } else { assert pages[m..][k - m] == x; }
      }
    }
    if m < |pages| { assert pages[m..][0] in PageSet(pages[m..]) && pages[m] in PageSet(pages); }
  }

  // ---------------------------------------------------------------- every reachable state

  ghost predicate Disjoint(v: Vma, w: Vma) {
    && (v.lo + |v.pages| <= w.lo || w.lo + |w.pages| <= v.lo)
    && PageSet(v.pages) !! PageSet(w.pages)
  }

  ghost predicate AllDisjoint(vmas: seq<Vma>) { forall i, j | 0 <= i < j < |vmas| :: Disjoint(vmas[i], vmas[j]) }

  /** An allocation's pages are its own, taken, and its range is reserved. */
  ghost predicate Taken(used: set<nat>, iovas: map<nat, nat>, v: Vma) {
    && v.pages != [] && Distinct(v.pages) && PageSet(v.pages) <= used
    && v.lo in iovas && iovas[v.lo] == |v.pages|
  }

  /** Every device page of an allocation maps to its memory page. */
  ghost predicate Backed(table: map<nat, nat>, v: Vma) {
    forall x: nat | v.lo <= x < v.lo + |v.pages| :: x in table && table[x] == v.pages[x - v.lo]
  }

  ghost predicate Owned(vmas: seq<Vma>, x: nat) { exists i :: 0 <= i < |vmas| && Holds(vmas[i], x) }

  ghost predicate Reserved(vmas: seq<Vma>, lo: nat) { exists i :: 0 <= i < |vmas| && vmas[i].lo == lo }

  /** Each live allocation has its range, every page of the range maps to a page of
      its own, no two allocations share device or memory pages, and nothing else is
      mapped or reserved. */
  ghost predicate Coherent(s: State) {
    && AllDisjoint(s.vmas)
    && (forall v | v in s.vmas :: Taken(s.used, s.iovas, v))
    && (forall v | v in s.vmas :: Backed(s.table, v))
    && (forall x | x in s.table :: Owned(s.vmas, x))
    && (forall lo | lo in s.iovas :: Reserved(s.vmas, lo))
  }

  lemma AddedApart(s: State, lo: nat, pages: seq<nat>)
    requires AllDisjoint(s.vmas) && Free(s, lo, pages) && forall v | v in s.vmas :: Taken(s.used, s.iovas, v)
    ensures AllDisjoint([Vma(lo, pages)] + s.vmas)
  {
    hide PageSet;
    var vmas := [Vma(lo, pages)] + s.vmas;
    forall i, j | 0 <= i < j < |vmas| ensures Disjoint(vmas[i], vmas[j]) {
      assert vmas[j] == s.vmas[j - 1];
      if i == 0 {
        assert s.vmas[j - 1] in s.vmas;
      } else {
        assert Disjoint(s.vmas[i - 1], s.vmas[j - 1]);
      }
    }
  }

  lemma AddedTaken(s: State, lo: nat, pages: seq<nat>, v: Vma)
    requires Free(s, lo, pages) && pages != []
    requires v == Vma(lo, pages) || Taken(s.used, s.iovas, v)
    ensures Taken(s.used + PageSet(pages), s.iovas[lo := |pages|], v)
  {
    hide PageSet, Distinct;
  }

  lemma AddedBacked(s: State, lo: nat, pages: seq<nat>, v: Vma)
    requires Free(s, lo, pages)
    requires v == Vma(lo, pages) || (v in s.vmas && Backed(s.table, v))
    ensures Backed(s.table + Range(lo, pages), v)
  {
    hide PageSet, Distinct;
  }

  lemma AddedOwned(vmas: seq<Vma>, v: Vma, x: nat)
    requires Owned(vmas, x) || Holds(v, x)
    ensures Owned([v] + vmas, x)
  {
    if Holds(v, x) {
      assert Holds(([v] + vmas)[0], x);
    } else {
      var i :| 0 <= i < |vmas| && Holds(vmas[i], x);
      assert Holds(([v] + vmas)[i + 1], x);
    }
  }

  lemma AddedReserved(vmas: seq<Vma>, v: Vma, lo: nat)
    requires Reserved(vmas, lo) || v.lo == lo
    ensures Reserved([v] + vmas, lo)
  {
    if v.lo == lo {
      assert ([v] + vmas)[0].lo == lo;
    } else {
      var i :| 0 <= i < |vmas| && vmas[i].lo == lo;
      assert ([v] + vmas)[i + 1].lo == lo;
    }
  }

  lemma AddedCoherent(s: State, lo: nat, pages: seq<nat>)
    requires Coherent(s) && Free(s, lo, pages) && pages != []
    ensures Coherent(Added(s, lo, pages))
  {
    hide AllDisjoint, Taken, Backed, Owned, Reserved, PageSet, Distinct, Free;
    var n := Added(s, lo, pages);
    var v := Vma(lo, pages);
    AddedApart(s, lo, pages);
    forall w | w in n.vmas ensures Taken(n.used, n.iovas, w) && Backed(n.table, w) {
      AddedTaken(s, lo, pages, w);
      AddedBacked(s, lo, pages, w);
    }
    forall x | x in n.table ensures Owned(n.vmas, x) { AddedOwned(s.vmas, v, x); }
    forall l | l in n.iovas ensures Reserved(n.vmas, l) { AddedReserved(s.vmas, v, l); }
  }

  lemma FreedApart(vmas: seq<Vma>, k: nat)
    requires AllDisjoint(vmas) && k < |vmas|
    ensures AllDisjoint(Without(vmas, k))
    ensures forall w | w in Without(vmas, k) :: w in vmas && (Disjoint(w, vmas[k]) || Disjoint(vmas[k], w))
  {
    hide Disjoint;
    var rest := Without(vmas, k);
    forall i, j | 0 <= i < j < |rest| ensures Disjoint(rest[i], rest[j]) {
      assert Disjoint(vmas[if i < k then i else i + 1], vmas[if j < k then j else j + 1]);
    }
    forall w | w in rest ensures w in vmas && (Disjoint(w, vmas[k]) || Disjoint(vmas[k], w)) {
      var i :| 0 <= i < |rest| && rest[i] == w;
      if i < k { assert Disjoint(vmas[i], vmas[k]); } else { assert Disjoint(vmas[k], vmas[i + 1]); }
    }
  }

  lemma FreedTaken(s: State, v: Vma, m: nat, w: Vma)
    requires Taken(s.used, s.iovas, w) && (Disjoint(w, v) || Disjoint(v, w)) && m <= |v.pages| && v.pages != []
    ensures Taken(s.used - PageSet(v.pages[..m]), s.iovas - {v.lo}, w)
  {
    hide Distinct, PageSet;
    Prefix(v.pages, m);
  }

  lemma FreedBacked(table: map<nat, nat>, v: Vma, w: Vma)
    requires Backed(table, w) && (Disjoint(w, v) || Disjoint(v, w))
    ensures Backed(table - Block(v.lo, |v.pages|), w)
  {
    hide PageSet;
  }

  lemma FreedOwned(vmas: seq<Vma>, k: nat, x: nat)
    requires k < |vmas| && Owned(vmas, x) && !Holds(vmas[k], x)
    ensures Owned(Without(vmas, k), x)
  {
    var i :| 0 <= i < |vmas| && Holds(vmas[i], x);
    assert Holds(Without(vmas, k)[if i < k then i else i - 1], x);
  }

  lemma FreedReserved(vmas: seq<Vma>, k: nat, lo: nat)
    requires k < |vmas| && Reserved(vmas, lo) && vmas[k].lo != lo
    ensures Reserved(Without(vmas, k), lo)
  {
    var i :| 0 <= i < |vmas| && vmas[i].lo == lo;
    assert Without(vmas, k)[if i < k then i else i - 1].lo == lo;
  }

  lemma Prefix(pages: seq<nat>, m: nat)
    requires m <= |pages|
    ensures PageSet(pages[..m]) <= PageSet(pages)
  {}

  lemma FreedCoherent(s: State, size: nat, handle: nat)
    requires Coherent(s)
    ensures Coherent(Freed(s, size, handle))
  {
    hide Coherent, Pages, PageSet, Block, Without, FindVma;
    var k := FindVma(s.vmas, handle / PAGE_SIZE);
    if k < |s.vmas| { RemovedCoherent(s, k, Min(Pages(size), |s.vmas[k].pages|)); }
  }

  lemma RemovedCoherent(s: State, k: nat, m: nat)
    requires Coherent(s) && k < |s.vmas| && m <= |s.vmas[k].pages|
    ensures var v := s.vmas[k];
            Coherent(State(s.used - PageSet(v.pages[..m]), s.table - Block(v.lo, |v.pages|),
                           s.iovas - {v.lo}, Without(s.vmas, k)))
  {
    var v := s.vmas[k];
    assert Taken(s.used, s.iovas, v) && v.pages != [];
    hide AllDisjoint, Taken, Backed, Owned, Reserved, PageSet, Disjoint, Block, Without;
    FreedApart(s.vmas, k);
    forall w | w in Without(s.vmas, k)
      ensures Taken(s.used - PageSet(v.pages[..m]), s.iovas - {v.lo}, w) && Backed(s.table - Block(v.lo, |v.pages|), w)
    {
      FreedTaken(s, v, m, w);
      FreedBacked(s.table, v, w);
    }
    forall x | x in s.table - Block(v.lo, |v.pages|) ensures Owned(Without(s.vmas, k), x) { FreedOwned(s.vmas, k, x); }
    forall lo | lo in s.iovas - {v.lo} ensures Reserved(Without(s.vmas, k), lo) { FreedReserved(s.vmas, k, lo); }
  }

  lemma OneHolder(s: State, i: nat, k: nat, page: nat)
    requires Coherent(s) && i < |s.vmas| && k < |s.vmas| && Holds(s.vmas[i], page) && Holds(s.vmas[k], page)
    ensures i == k
  {
    hide Coherent, Holds;
    if i < k { NotBoth(s, i, k, page); }
    if k < i { NotBoth(s, k, i, page); }
  }

  lemma NotBoth(s: State, i: nat, k: nat, page: nat)
    requires Coherent(s) && i < k < |s.vmas|
    ensures !(Holds(s.vmas[i], page) && Holds(s.vmas[k], page))
  {
    assert Disjoint(s.vmas[i], s.vmas[k]);
  }

  /** A release by any address inside an allocation removes that allocation, its range
      and its device mappings, returns the first pages of its list, as many as the size
      covers, and touches nothing of any other; by any other address it does nothing. */
  lemma FreedExactly(s: State, size: nat, handle: nat, k: nat)
    requires Coherent(s)
    ensures (forall v | v in s.vmas :: !Holds(v, handle / 4096)) ==> Freed(s, size, handle) == s
    ensures k < |s.vmas| && Holds(s.vmas[k], handle / 4096) ==>
              var v, r := s.vmas[k], Freed(s, size, handle);
              && r.vmas == s.vmas[..k] + s.vmas[k + 1..]
              && (forall x: nat :: x in r.table <==> x in s.table && !(v.lo <= x < v.lo + |v.pages|))
              && (forall x | x in r.table :: r.table[x] == s.table[x])
              && r.iovas == s.iovas - {v.lo}
              && forall x: nat :: x in r.used <==> x in s.used && x !in v.pages[..Min((size + 4095) / 4096, |v.pages|)]
  {
    hide Coherent;
    var i := FindVma(s.vmas, handle / PAGE_SIZE);
    if i < |s.vmas| && k < |s.vmas| && Holds(s.vmas[k], handle / 4096) { OneHolder(s, i, k, handle / 4096); }
  }

  // ---------------------------------------------------------------- the domain

  /** An answer that does not give the pages of an order: none, or pages in use. */
  predicate Refuses(a: Answer, order: nat, used: set<nat>) { a.No? || !(Block(a.base, Pow2(order)) !! used) }

  /** A call was refused: with no, or with a page in use. */
  ghost predicate Denied(world: nat -> Answer, from: nat, to: nat, taken: set<nat>) {
    exists c :: from <= c < to && (world(c).No? || world(c).base in taken)
  }

  lemma DeniedAt(world: nat -> Answer, from: nat, c: nat, to: nat, taken: set<nat>)
    requires from <= c < to && (world(c).No? || world(c).base in taken)
    ensures Denied(world, from, to, taken)
  {}

  lemma DeniedWithin(world: nat -> Answer, from: nat, a: nat, b: nat, to: nat, taken: set<nat>, more: set<nat>)
    requires Denied(world, a, b, taken) && from <= a && b <= to && taken <= more
    ensures Denied(world, from, to, more)
  {}

  lemma OnePage(a: Answer, used: set<nat>)
    ensures Refuses(a, 0, used) <==> a.No? || a.base in used
  {
    assert Pow2(0) == 1;
  }

  function Tries(log: seq<Chunk>): nat {
    if log == [] then 0 else Tries(log[..|log| - 1]) + log[|log| - 1].tries
  }

  function Consecutive(base: nat, n: nat): (s: seq<nat>)
    ensures |s| == n && forall k | 0 <= k < n :: s[k] == base + k
  {
    seq(n, k => base + k)
  }

  lemma BlockAdded(used: set<nat>, pages: seq<nat>, base: nat, n: nat)
    requires Distinct(pages) && PageSet(pages) !! used && Block(base, n) !! used + PageSet(pages)
    ensures Distinct(pages + Consecutive(base, n)) && PageSet(pages + Consecutive(base, n)) !! used
    ensures used + PageSet(pages) + Block(base, n) == used + PageSet(pages + Consecutive(base, n))
  {
    var all := pages + Consecutive(base, n);
    forall x: nat ensures x in PageSet(all) <==> x in PageSet(pages) || x in Block(base, n) {
      if x in Block(base, n) { assert all[|pages| + (x - base)] == x; }
      if x in pages {
        var k :| 0 <= k < |pages| && pages[k] == x;
        assert all[k] == x;
      }
    }
    forall i, j | 0 <= i < j < |all| ensures all[i] != all[j] {
      if i < |pages| <= j { assert all[i] in PageSet(pages) && all[j] in Block(base, n); }
    }
  }

  lemma ChunkAdded(log: seq<Chunk>, count: nat, c: Chunk)
    requires Chain(log, count) && Greedy(c) && c.remaining == count - Covered(log)
    ensures Chain(log + [c], count) && Covered(log + [c]) == Covered(log) + Pow2(c.order)
    ensures Tries(log + [c]) == Tries(log) + c.tries
  {
    hide Greedy;
    var more := log + [c];
    assert more[..|more| - 1] == log;
    forall k | 0 <= k < |more| ensures Greedy(more[k]) && more[k].remaining == count - Covered(more[..k]) {
      if k < |log| { assert more[..k] == log[..k] && more[k] == log[k]; }
    }
  }

  lemma OrderFits(remaining: nat, order: nat)
    requires remaining > 0 && order <= Fls(remaining)
    ensures Pow2(order) <= remaining
  {
    Pow2Monotone(order, Fls(remaining));
  }

  lemma PageReturned(used: set<nat>, pages: seq<nat>, k: nat)
    requires k < |pages| && Distinct(pages)
    ensures used - PageSet(pages[..k]) - {pages[k]} == used - PageSet(pages[..k + 1])
  {
    assert pages[..k + 1] == pages[..k] + [pages[k]];
    assert PageSet(pages[..k + 1]) == PageSet(pages[..k]) + {pages[k]};
  }

  lemma AllReturned(used: set<nat>, pages: seq<nat>)
    requires PageSet(pages) !! used
    ensures used + PageSet(pages) - PageSet(pages) == used
  {}

  lemma RangeGrows(table: map<nat, nat>, lo: nat, pages: seq<nat>, i: nat)
    requires i < |pages|
    ensures (table + Range(lo, pages[..i]))[lo + i := pages[i]] == table + Range(lo, pages[..i + 1])
    ensures lo + i !in table ==> table + Range(lo, pages[..i + 1]) - {lo + i} == table + Range(lo, pages[..i])
  {
    RangeMore(lo, pages, i);
    hide Range;
    var a, b := Range(lo, pages[..i]), Range(lo, pages[..i + 1]);
    assert (table + a)[lo + i := pages[i]] == table + a[lo + i := pages[i]];
  }

  lemma RangeMore(lo: nat, pages: seq<nat>, i: nat)
    requires i < |pages|
    ensures Range(lo, pages[..i + 1]) == Range(lo, pages[..i])[lo + i := pages[i]]
  {
    assert pages[..i + 1][..i] == pages[..i];
  }

  lemma RangeNone(table: map<nat, nat>, lo: nat, pages: seq<nat>)
    ensures table + Range(lo, pages[..0]) == table
  {}

  /** A device range is free when no reserved range meets it. */
  predicate RangeFree(iovas: map<nat, nat>, lo: nat, n: nat) {
    lo !in iovas && forall l | l in iovas :: l + iovas[l] <= lo || lo + n <= l
  }

  lemma RangeApart(s: State, lo: nat, n: nat)
    requires Coherent(s) && RangeFree(s.iovas, lo, n)
    ensures forall v | v in s.vmas :: v.lo + |v.pages| <= lo || lo + n <= v.lo
    ensures forall x | lo <= x < lo + n :: x !in s.table
  {
    forall v | v in s.vmas ensures v.lo + |v.pages| <= lo || lo + n <= v.lo {
      assert Taken(s.used, s.iovas, v);
    }
    forall x | x in s.table ensures !(lo <= x < lo + n) { var v := OwnedBy(s.vmas, x); }
  }

  lemma OwnedBy(vmas: seq<Vma>, x: nat) returns (v: Vma)
    requires Owned(vmas, x)
    ensures v in vmas && Holds(v, x)
  {
    var i :| 0 <= i < |vmas| && Holds(vmas[i], x);
    v := vmas[i];
  }

  class Domain {
    const world: nat -> Answer
    var calls: nat
    var used: set<nat>
    var table: map<nat, nat>
    var iovas: map<nat, nat>
    var vmas: seq<Vma>

    function View(): State
      reads this
    {
      State(used, table, iovas, vmas)
    }

    constructor (world: nat -> Answer)
      ensures this.world == world && View() == State({}, map[], map[], []) && Coherent(View())
    {
      this.world, calls, used, table, iovas, vmas := world, 0, {}, map[], map[], [];
    }

    /** alloc_pages: refuses, or gives an aligned-size block nobody has. */
    method AllocPages(order: nat) returns (ok: bool, base: nat)
      modifies this`calls, this`used
      ensures calls == old(calls) + 1
      ensures ok <==> !Refuses(world(old(calls)), order, old(used))
      ensures ok ==> base == world(old(calls)).base
      ensures ok ==> Block(base, Pow2(order)) !! old(used) && used == old(used) + Block(base, Pow2(order))
      ensures !ok ==> used == old(used)
    {
      var answer := world(calls);
      calls := calls + 1;
      if answer.No? || !(Block(answer.base, Pow2(order)) !! used) { return false, 0; }
      used := used + Block(answer.base, Pow2(order));
      return true, answer.base;
    }

    method Ask() returns (ok: bool)
      modifies this`calls
      ensures calls == old(calls) + 1 && ok == world(old(calls)).Yes?
    {
      ok := world(calls).Yes?;
      calls := calls + 1;
    }

    /** One chunk: the highest order that fits, or the next lower ones. */
    method AllocChunk(remaining: nat) returns (ok: bool, base: nat, order: nat)
      requires remaining > 0
      modifies this`calls, this`used
      ensures order <= Fls(remaining) && calls == old(calls) + (Fls(remaining) - order + 1)
      ensures forall c | old(calls) <= c < calls - 1 :: Refuses(world(c), Fls(remaining) - (c - old(calls)), old(used))
      ensures ok <==> !Refuses(world(calls - 1), order, old(used))
      ensures ok ==> Block(base, Pow2(order)) !! old(used) && used == old(used) + Block(base, Pow2(order))
      ensures !ok ==> used == old(used) && order == 0
    {
      hide Fls, Pow2, Block, Refuses;
      order := Fls(remaining);
      ok, base := AllocPages(order);
      while !ok && order > 0
        invariant order <= Fls(remaining) && calls == old(calls) + (Fls(remaining) - order + 1)
        invariant forall c | old(calls) <= c < calls - 1 :: Refuses(world(c), Fls(remaining) - (c - old(calls)), old(used))
        invariant ok <==> !Refuses(world(calls - 1), order, old(used))
        invariant ok ==> Block(base, Pow2(order)) !! old(used) && used == old(used) + Block(base, Pow2(order))
        invariant !ok ==> used == old(used)
        decreases order
      {
        order := order - 1;
        ok, base := AllocPages(order);
      }
    }

    /** __dma_free_buffer, and the error loop of __dma_alloc_buffer. */
    method FreeBuffer(pages: seq<nat>, count: nat)
      requires count <= |pages| && Distinct(pages)
      modifies this`used
      ensures used == old(used) - PageSet(pages[..count])
    {
      hide PageSet, Distinct;
      var i := 0;
      NoPages(pages);
      while i < count
        invariant i <= count && used == old(used) - PageSet(pages[..i])
      {
        PageReturned(old(used), pages, i);
        used := used - {pages[i]};
        i := i + 1;
      }
    }

    /** __dma_alloc_buffer: `count` pages nobody had, or none.  `log` are the chunks. */
    method AllocBuffer(count: nat) returns (ok: bool, pages: seq<nat>, ghost log: seq<Chunk>)
      modifies this`calls, this`used
      ensures ok ==> |pages| == count && Distinct(pages) && PageSet(pages) !! old(used) && used == old(used) + PageSet(pages)
      ensures ok ==> Chain(log, count) && Covered(log) == count && calls == old(calls) + 1 + Tries(log)
      ensures !ok ==> used == old(used) && Denied(world, old(calls), calls, old(used) + PageSet(pages)) && |pages| <= count
      ensures calls >= old(calls)
    {
      hide Denied, Refuses;
      hide Fls, Pow2, PageSet, Distinct, Block, Chain, Greedy, Covered, Tries, Consecutive;
      pages, log := [], [];
      NothingYet(old(used), count);
      ok := Ask();
      if !ok {
        DeniedAt(world, old(calls), old(calls), calls, old(used) + PageSet(pages));
        return;
      }
      var left: nat := count;
      while left > 0
        invariant ok && left <= count && |pages| == count - left
        invariant Distinct(pages) && PageSet(pages) !! old(used) && used == old(used) + PageSet(pages)
        invariant Chain(log, count) && Covered(log) == count - left && calls == old(calls) + 1 + Tries(log)
        decreases left
      {
        var base, order;
        ghost var before := calls;
        ok, base, order := AllocChunk(left);
        if !ok {
          OnePage(world(calls - 1), used);
          DeniedAt(world, old(calls), calls - 1, calls, used);
          WholeList(pages);
          AllReturned(old(used), pages);
          FreeBuffer(pages, |pages|);
          return;
        }
        OrderFits(left, order);
        ghost var c := Chunk(left, order, calls - before);
        GreedyChunk(c);
        ChunkAdded(log, count, c);
        BlockAdded(old(used), pages, base, Pow2(order));
        ConsecutiveSize(base, Pow2(order));
        log := log + [c];
        pages := pages + Consecutive(base, Pow2(order));
        left := left - Pow2(order);
      }
    }

    /** ipu_dma_alloc: on success every device page of a new range maps to its own
        new memory page; on failure nothing has changed.  The range is reserved first
        and given back on every failure.  `log` are the chunks of the memory. */
    method Alloc(size: nat) returns (ok: bool, lo: nat, ghost pages: seq<nat>, ghost log: seq<Chunk>)
      requires Coherent(View())
      modifies this
      ensures Coherent(View())
      ensures ok ==> |pages| == Pages(size) && Free(old(View()), lo, pages) && View() == Added(old(View()), lo, pages)
      ensures ok ==> Chain(log, Pages(size)) && Covered(log) == Pages(size)
      ensures ok ==>
                && world(old(calls)) == Yes(lo) && RangeFree(old(iovas), lo, Pages(size)) && Pages(size) > 0
                && old(calls) + Pages(size) + 2 < calls
                && forall c | calls - Pages(size) - 2 <= c < calls :: world(c).Yes?
      ensures !ok ==> View() == old(View())
      ensures !ok ==>
                || world(old(calls)).No? || !RangeFree(old(iovas), world(old(calls)).base, Pages(size))
                || Pages(size) == 0
                || Denied(world, old(calls) + 1, calls, old(used) + PageSet(pages))
    {
      hide Denied;
      hide Coherent, PageSet, Distinct, Range, Pages, Chain, Covered, Tries, RangeFree;
      var n := Pages(size);
      pages, log, lo := [], [], 0;
      var answer := world(calls);
      calls := calls + 1;
      if answer.No? || !RangeFree(iovas, answer.base, n) { return false, 0, [], []; }
      lo := answer.base;
      RangeApart(View(), lo, n);
      NotReserved(iovas, lo, n);
      FreeIova(iovas, lo, n);
      iovas := iovas[lo := n];
      var list;
      ok, list, log := AllocBuffer(n);
      pages := list;
      if !ok {
        iovas := iovas - {lo};
        return;
      }
      ghost var asked := calls;
      ok := MapAndRecord(lo, list);
      if ok {
        AddedCoherent(old(View()), lo, pages);
      } else {
        if list != [] { DeniedWithin(world, old(calls) + 1, asked, calls, calls, {}, old(used) + PageSet(pages)); }
        WholeList(list);
        AllReturned(old(used), list);
        FreeBuffer(list, n);
        iovas := iovas - {lo};
      }
    }

    /** The mapping of every page, the kernel mapping and the record of the
        allocation, with the way back from a failure of any of them. */
    method MapAndRecord(lo: nat, pages: seq<nat>) returns (ok: bool)
      requires forall x | lo <= x < lo + |pages| :: x !in table
      modifies this`calls, this`table, this`vmas
      ensures ok ==> pages != [] && table == old(table) + Range(lo, pages) && vmas == [Vma(lo, pages)] + old(vmas)
      ensures ok ==> calls == old(calls) + |pages| + 2 && forall c | old(calls) <= c < calls :: world(c).Yes?
      ensures !ok ==> table == old(table) && vmas == old(vmas)
      ensures !ok ==> pages == [] || Denied(world, old(calls), calls, {})
      ensures calls >= old(calls)
    {
      hide Range, Denied;
      var i := 0;
      RangeNone(table, lo, pages);
      ok := true;
      while i < |pages|
        invariant i <= |pages| && ok && table == old(table) + Range(lo, pages[..i])
        invariant calls == old(calls) + i && forall c | old(calls) <= c < calls :: world(c).Yes?
        invariant vmas == old(vmas)
      {
        ok := Ask();
        if !ok { break; }
        RangeGrows(old(table), lo, pages, i);
        table := table[lo + i := pages[i]];
        i := i + 1;
      }
      if ok { ok := Ask(); }
      if ok && pages == [] { ok := false; }
      if ok { ok := Ask(); }
      if !ok {
        if pages != [] { DeniedAt(world, old(calls), calls - 1, calls, {}); }
        ghost var asked := calls;
        while i > 0
          invariant calls == asked
          invariant i <= |pages| && !ok && table == old(table) + Range(lo, pages[..i])
          invariant vmas == old(vmas)
        {
          i := i - 1;
          RangeGrows(old(table), lo, pages, i);
          table := table - {lo + i};
        }
        return;
      }
      assert pages[..i] == pages;
      vmas := [Vma(lo, pages)] + vmas;
    }

    /** ipu_dma_find_vma_by_iova. */
    method FindVmaByIova(page: nat) returns (i: nat)
      ensures i == FindVma(vmas, page)
    {
      i := 0;
      while i < |vmas|
        invariant i <= |vmas| && FindVma(vmas, page) == i + FindVma(vmas[i..], page)
      {
        if Holds(vmas[i], page) { return; }
        i := i + 1;
      }
    }

    /** ipu_dma_free; the range lookup finds an allocation exactly when the search of
        the list does. */
    method Release(size: nat, handle: nat)
      requires Coherent(View())
      modifies this`used, this`table, this`iovas, this`vmas
      ensures View() == Freed(old(View()), size, handle) && Coherent(View())
    {
      hide Taken, Backed, AllDisjoint, Owned, Reserved, Pages, PageSet, Block, FindVma;
      FreedCoherent(View(), size, handle);
      var i := FindVmaByIova(handle / PAGE_SIZE);
      if i == |vmas| { return; }
      var v := vmas[i];
      TakenDistinct(View(), v);
      vmas := Without(vmas, i);
      var count := Pages(size);
      if count > |v.pages| { count := |v.pages|; }
      table := table - Block(v.lo, |v.pages|);
      FreeBuffer(v.pages, count);
      iovas := iovas - {v.lo};
    }
  }

  lemma TakenDistinct(s: State, v: Vma)
    requires Coherent(s) && v in s.vmas
    ensures Distinct(v.pages)
  {
    assert Taken(s.used, s.iovas, v);
  }

  lemma NoPages(pages: seq<nat>)
    ensures PageSet(pages[..0]) == {}
  {}

  lemma WholeList(pages: seq<nat>)
    ensures pages[..|pages|] == pages
  {}

  lemma NothingYet(used: set<nat>, count: nat)
    ensures Distinct<nat>([]) && PageSet([]) !! used && used + PageSet([]) == used
    ensures Chain([], count) && Covered([]) == 0 && Tries([]) == 0
  {}

  lemma GreedyChunk(c: Chunk)
    requires c.remaining > 0 && c.order <= Fls(c.remaining) && c.tries == Fls(c.remaining) - c.order + 1
    ensures Greedy(c)
  {}

  lemma ConsecutiveSize(base: nat, n: nat)
    ensures |Consecutive(base, n)| == n
  {}

  lemma NotReserved(iovas: map<nat, nat>, lo: nat, n: nat)
    requires RangeFree(iovas, lo, n)
    ensures lo !in iovas
  {}
}
