/**
  Saving ACPI NVS regions over a suspend (drivers/acpi/nvs.c): regions are
  registered as chunks within one page each, saved through the mapping cache or
  a mapping of their own, restored, and freed.
  */
module NvsMemory {
  import opened Wrappers
  import opened MappingCache

  datatype Page = Page(phys: nat, size: nat, kaddr: Option<nat>, data: Option<seq<Byte>>, unmap: bool)

  // ------------------------------------------------------------- registration

  function ChunkSize(start: nat, size: nat): nat {
    var room := PAGE_SIZE - start % PAGE_SIZE;
    if size < room then size else room
  }

  function Chunks(start: nat, size: nat): seq<Page>
    decreases size
  {
    if size == 0 then []
    else
      var n := ChunkSize(start, size);
      [Page(start, n, None, None, false)] + Chunks(start + n, size - n)
  }

  /** Consecutive nonempty chunks from `start` to `end`, none crossing a page boundary. */
  predicate Tile(pages: seq<Page>, start: nat, end: nat) {
    && (forall i :: 0 <= i < |pages| ==> OnOnePage(pages[i]))
    && (forall i :: 0 <= i < |pages| - 1 ==> pages[i + 1].phys == pages[i].phys + pages[i].size)
    && (if pages == [] then start == end
        else pages[0].phys == start && pages[|pages| - 1].phys + pages[|pages| - 1].size == end)
  }

  lemma {:induction false} ChunksTile(start: nat, size: nat)
    ensures Tile(Chunks(start, size), start, start + size)
    decreases size
  {
    if size > 0 {
      var n := ChunkSize(start, size);
      ChunksTile(start + n, size - n);
      WithinPage(start, size);
      TileCons(Page(start, n, None, None, false), Chunks(start + n, size - n), start + size);
    }
  }

  predicate OnOnePage(p: Page) {
    p.size > 0 && p.phys / PAGE_SIZE == (p.phys + p.size - 1) / PAGE_SIZE
  }

  lemma TileCons(p: Page, rest: seq<Page>, end: nat)
    requires OnOnePage(p) && Tile(rest, p.phys + p.size, end)
    ensures Tile([p] + rest, p.phys, end)
  {
    var all := [p] + rest;
    assert forall i :: 0 < i < |all| ==> all[i] == rest[i - 1];
  }

  lemma WithinPage(start: nat, size: nat)
    requires size > 0
    ensures OnOnePage(Page(start, ChunkSize(start, size), None, None, false))
  {
    var n := ChunkSize(start, size);
    assert 0 < n <= PAGE_SIZE - start % PAGE_SIZE;
  }

  predicate In(p: Page, a: int) {
    p.phys <= a < p.phys + p.size
  }

  predicate InPages(pages: seq<Page>, a: int) {
    exists i :: 0 <= i < |pages| && In(pages[i], a)
  }

  /** The chunks of a region hold exactly its bytes. */
  lemma {:induction false} ChunksCover(start: nat, size: nat, a: int)
    ensures InPages(Chunks(start, size), a) <==> start <= a < start + size
    decreases size
  {
    var all := Chunks(start, size);
    if size > 0 {
      var n := ChunkSize(start, size);
      var rest := Chunks(start + n, size - n);
      ChunksCover(start + n, size - n, a);
      assert forall i :: 0 <= i < |rest| ==> all[i + 1] == rest[i];
      if start <= a < start + n { assert In(all[0], a); }
      if start + n <= a < start + size {
        var i :| 0 <= i < |rest| && In(rest[i], a);
        assert In(all[i + 1], a);
      }
    }
  }

  datatype Region = Region(start: nat, size: nat)

  function AllChunks(regions: seq<Region>): seq<Page> {
    if regions == [] then [] else Chunks(regions[0].start, regions[0].size) + AllChunks(regions[1..])
  }

  predicate InRegion(r: Region, a: int) {
    r.start <= a < r.start + r.size
  }

  predicate InRegions(regions: seq<Region>, a: int) {
    exists i :: 0 <= i < |regions| && InRegion(regions[i], a)
  }

  lemma {:induction false} InPagesConcat(p: seq<Page>, q: seq<Page>, a: int)
    ensures InPages(p + q, a) <==> InPages(p, a) || InPages(q, a)
  {
    if i :| 0 <= i < |p| && In(p[i], a) { assert In((p + q)[i], a); }
    if i :| 0 <= i < |q| && In(q[i], a) { assert In((p + q)[|p| + i], a); }
    if i :| 0 <= i < |p + q| && In((p + q)[i], a) {
      assert if i < |p| then In(p[i], a) else In(q[i - |p|], a);
    }
  }

  lemma {:induction false} AllChunksCover(regions: seq<Region>, a: int)
    ensures InPages(AllChunks(regions), a) <==> InRegions(regions, a)
  {
    if regions != [] {
      var r := regions[0];
      AllChunksCover(regions[1..], a);
      ChunksCover(r.start, r.size, a);
      InPagesConcat(Chunks(r.start, r.size), AllChunks(regions[1..]), a);
      if i :| 0 <= i < |regions[1..]| && InRegion(regions[1..][i], a) {
        assert InRegion(regions[i + 1], a);
      }
      if i :| 0 <= i < |regions| && InRegion(regions[i], a) {
        assert i > 0 ==> InRegion(regions[1..][i - 1], a);
      }
    }
  }

  // ------------------------------------------------------------ save and free

  /** A page whose buffer has been freed, and the cache without the reference its save took. */
  function Freed(p: Page): Page {
    if p.data.None? then p
    else p.(data := None, kaddr := None, unmap := if p.kaddr.Some? then false else p.unmap)
  }

  function Released(c: Cache, p: Page): Cache {
    if Takes(p) then UnmapMemory(c, p.kaddr.value, p.size) else c
  }

  /** The page holds a reference taken from the mapping cache. */
  predicate Takes(p: Page) {
    p.data.Some? && p.kaddr.Some? && !p.unmap
  }

  /** Frees the pages from `i` on. */
  function Free(pages: seq<Page>, c: Cache, i: nat): (o: (seq<Page>, Cache))
    requires i <= |pages|
    ensures |o.0| == |pages|
    decreases |pages| - i
  {
    if i == |pages| then (pages, c)
    else Free(pages[i := Freed(pages[i])], Released(c, pages[i]), i + 1)
  }

  predicate Fits(pages: seq<Page>, n: nat) {
    forall i :: 0 <= i < |pages| ==> pages[i].phys + pages[i].size <= n
  }

  /**
    One page saved: mapped through the cache, or at `own` if that is possible,
    and copied; false when it cannot be mapped.
    */
  function SavePage(p: Page, c: Cache, mem: seq<Byte>, own: Option<nat>): (Page, Cache, bool)
    requires p.phys + p.size <= |mem|
  {
    if p.data.None? then (p, c, true)
    else
      var (c1, ref) := GetIomem(c, p.phys, p.size);
      var copy := Some(mem[p.phys..p.phys + p.size]);
      if ref.Some? then (p.(kaddr := Some(ref.value.virt), data := copy), c1, true)
      else if own.Some? then (p.(kaddr := own, unmap := true, data := copy), c1, true)
      else (p.(kaddr := None, unmap := false), c1, false)
  }

  /** Saves the pages from `i` on; `io` tells where a page would be mapped on its own.  A failure frees everything. */
  function Save(pages: seq<Page>, c: Cache, mem: seq<Byte>, io: nat -> Option<nat>, i: nat): (o: (seq<Page>, Cache, bool))
    requires i <= |pages| && Fits(pages, |mem|)
    ensures |o.0| == |pages|
    decreases |pages| - i
  {
    if i == |pages| then (pages, c, true)
    else
      var (p, c1, ok) := SavePage(pages[i], c, mem, io(i));
      if ok then Save(pages[i := p], c1, mem, io, i + 1)
      else
        var (ps, c2) := Free(pages[i := p], c1, 0);
        (ps, c2, false)
  }

  /** The physical address a page's pointer leads to now: its own mapping's, or that of the mapping the list finds for it. */
  function Target(c: Cache, p: Page): Option<nat> {
    if p.kaddr.None? then None
    else if p.unmap then Some(p.phys)
    else
      var k := FindVirt(c.maps, p.kaddr.value, p.size, 0);
      if k < |c.maps| then Some(c.maps[k].phys + (p.kaddr.value - c.maps[k].virt)) else None
  }

  /** One page written back through its pointer; a pointer that leads nowhere in `mem` writes nothing of it. */
  function RestorePage(p: Page, c: Cache, mem: seq<Byte>): (m: seq<Byte>)
    ensures |m| == |mem|
  {
    var to := Target(c, p);
    if p.data.None? || to.None? || to.value + |p.data.value| > |mem| then mem else Overwrite(mem, to.value, p.data.value)
  }

  function Overwrite(mem: seq<Byte>, at: nat, data: seq<Byte>): (m: seq<Byte>)
    requires at + |data| <= |mem|
    ensures |m| == |mem|
  {
    seq(|mem|, k requires 0 <= k < |mem| => if at <= k < at + |data| then data[k - at] else mem[k])
  }

  /** Writes back every saved page from `i` on. */
  function Restore(pages: seq<Page>, c: Cache, mem: seq<Byte>, i: nat): (m: seq<Byte>)
    requires i <= |pages|
    ensures |m| == |mem|
    decreases |pages| - i
  {
    if i == |pages| then mem else Restore(pages, c, RestorePage(pages[i], c, mem), i + 1)
  }

  // ------------------------------------------------------------- round trip

  /** Pages from `lo` to `hi` hold a copy of `mem`, if they hold anything. */
  predicate Copies(pages: seq<Page>, mem: seq<Byte>, lo: nat, hi: nat)
    requires hi <= |pages| && Fits(pages, |mem|)
  {
    forall j :: lo <= j < hi && pages[j].data.Some? ==>
                  pages[j].data.value == mem[pages[j].phys..pages[j].phys + pages[j].size]
  }

  /** Same chunks, and the same ones allocated. */
  predicate SameChunks(p: seq<Page>, q: seq<Page>) {
    |p| == |q| && forall j :: 0 <= j < |p| ==> q[j].phys == p[j].phys && q[j].size == p[j].size && q[j].data.Some? == p[j].data.Some?
  }

  /** Saved pages have a pointer. */
  predicate Mapped(pages: seq<Page>, hi: nat)
    requires hi <= |pages|
  {
    forall j :: 0 <= j < hi && pages[j].data.Some? ==> pages[j].kaddr.Some?
  }

  lemma {:induction false} SaveCopies(pages: seq<Page>, c: Cache, mem: seq<Byte>, io: nat -> Option<nat>, i: nat)
    requires i <= |pages| && Fits(pages, |mem|) && Copies(pages, mem, 0, i) && Mapped(pages, i)
    ensures var (ps, _, ok) := Save(pages, c, mem, io, i);
            ok ==> SameChunks(pages, ps) && Fits(ps, |mem|) && Copies(ps, mem, 0, |ps|) && Mapped(ps, |ps|)
    decreases |pages| - i
  {
    if i < |pages| {
      var (p, c1, ok) := SavePage(pages[i], c, mem, io(i));
      if ok { SaveCopies(pages[i := p], c1, mem, io, i + 1); }
    }
  }

  predicate Saved(pages: seq<Page>, i: nat, a: int) {
    exists j :: i <= j < |pages| && pages[j].data.Some? && In(pages[j], a)
  }

  /** Every saved page's pointer leads to the page. */
  predicate OnTarget(pages: seq<Page>, c: Cache, lo: nat) {
    forall j :: lo <= j < |pages| && pages[j].data.Some? ==> Target(c, pages[j]) == Some(pages[j].phys)
  }

  lemma RestorePageAt(p: Page, c: Cache, mem0: seq<Byte>, mem: seq<Byte>, a: nat)
    requires |mem| == |mem0| && a < |mem| && p.phys + p.size <= |mem|
    requires p.data.Some? ==> p.data.value == mem0[p.phys..p.phys + p.size] && Target(c, p) == Some(p.phys)
    ensures RestorePage(p, c, mem)[a] == if p.data.Some? && In(p, a) then mem0[a] else mem[a]
  {
  }

  /** Restoring copies of `mem0` puts `mem0` back on the saved pages and nowhere else, overlaps included. */
  lemma {:induction false} RestoreLaw(pages: seq<Page>, c: Cache, mem0: seq<Byte>, mem: seq<Byte>, i: nat, a: nat)
    requires i <= |pages| && |mem| == |mem0| && a < |mem|
    requires Fits(pages, |mem|) && Copies(pages, mem0, 0, |pages|) && OnTarget(pages, c, 0)
    ensures Restore(pages, c, mem, i)[a] == mem0[a] || !Saved(pages, i, a)
    ensures Restore(pages, c, mem, i)[a] == mem[a] || Saved(pages, i, a)
    ensures mem[a] == mem0[a] ==> Restore(pages, c, mem, i)[a] == mem0[a]
    decreases |pages| - i
  {
    if i < |pages| {
      var p := pages[i];
      RestorePageAt(p, c, mem0, mem, a);
      RestoreLaw(pages, c, mem0, RestorePage(p, c, mem), i + 1, a);
    }
  }

  /** The pages are the chunks of the regions, all with a buffer. */
  predicate Allocated(pages: seq<Page>, regions: seq<Region>) {
    && |pages| == |AllChunks(regions)|
    && forall j :: 0 <= j < |pages| ==>
         && pages[j].data.Some?
         && pages[j].phys == AllChunks(regions)[j].phys && pages[j].size == AllChunks(regions)[j].size
  }

  lemma SavedIsRegions(pages: seq<Page>, regions: seq<Region>, a: int)
    requires Allocated(pages, regions)
    ensures Saved(pages, 0, a) <==> InRegions(regions, a)
  {
    AllChunksCover(regions, a);
    var all := AllChunks(regions);
    if InPages(all, a) {
      var i :| 0 <= i < |all| && In(all[i], a);
      assert In(pages[i], a);
    }
    if Saved(pages, 0, a) {
      var i :| 0 <= i < |pages| && pages[i].data.Some? && In(pages[i], a);
      assert In(all[i], a);
    }
  }

  // ------------------------------------------------ the cache is left as found

  /** The reference a page took, on a mapping laid out as in `maps`. */
  function RefOf(maps: seq<Mapping>, p: Page): Ref
    requires Takes(p)
  {
    var k := Find(maps, p.phys, p.size, 0);
    Ref(if k < |maps| then maps[k].id else 0, p.phys, p.size, p.kaddr.value)
  }

  function TakenBy(maps: seq<Mapping>, p: Page): seq<Ref> {
    if Takes(p) then [RefOf(maps, p)] else []
  }

  /** References taken by pages `lo` to `hi`. */
  function Taken(maps: seq<Mapping>, pages: seq<Page>, lo: nat, hi: nat): seq<Ref>
    requires lo <= hi <= |pages|
    decreases hi - lo
  {
    if lo == hi then [] else TakenBy(maps, pages[lo]) + Taken(maps, pages, lo + 1, hi)
  }

  /** Other clients hold every live mapping, and its identity and range are those of `maps`. */
  predicate Based(c: Cache, maps: seq<Mapping>, held: seq<Ref>) {
    SameLayout(maps, c.maps) && forall i :: 0 <= i < |maps| ==> Outstanding(held, maps[i].id) >= 1
  }

  predicate Ready(pages: seq<Page>) {
    forall j :: 0 <= j < |pages| ==> pages[j].size > 0
  }

  lemma HeldTwice(c: Cache, maps: seq<Mapping>, held: seq<Ref>, ref: Ref, rest: seq<Ref>, k: nat)
    requires Counted(c.maps, held + ([ref] + rest)) && Based(c, maps, held)
    requires k < |c.maps| && c.maps[k].id == ref.id
    ensures c.maps[k].refcount >= 2
  {
    OutstandingConcat(held, [ref] + rest, ref.id);
    OutstandingIn([ref] + rest, 0);
    assert maps[k].id == ref.id;
  }

  /** Releasing the first of the taken references leaves the books of all others in order. */
  lemma ReleaseOne(c: Cache, held: seq<Ref>, ref: Ref, rest: seq<Ref>)
    requires Balanced(c, held + ([ref] + rest)) && ref.size > 0
    ensures Balanced(UnmapMemory(c, ref.virt, ref.size), held + rest)
  {
    var all, i := held + ([ref] + rest), |held|;
    assert all[i] == ref;
    UnmapLaw(c, all, i);
    assert Without(all, i) == held + rest;
  }

  /** It takes no mapping off the list that others hold. */
  lemma ReleaseOneBased(c: Cache, maps: seq<Mapping>, held: seq<Ref>, ref: Ref, rest: seq<Ref>)
    requires Balanced(c, held + ([ref] + rest)) && Based(c, maps, held) && ref.size > 0
    ensures Based(UnmapMemory(c, ref.virt, ref.size), maps, held)
  {
    var all, i := held + ([ref] + rest), |held|;
    assert all[i] == ref;
    UnmapLaw(c, all, i);
    HeldTwice(c, maps, held, ref, rest, Find(c.maps, ref.phys, ref.size, 0));
  }

  lemma ReleasePage(c: Cache, maps: seq<Mapping>, held: seq<Ref>, p: Page, rest: seq<Ref>)
    requires Balanced(c, held + (TakenBy(maps, p) + rest)) && p.size > 0
    ensures Balanced(Released(c, p), held + rest)
    ensures Based(c, maps, held) ==> Based(Released(c, p), maps, held)
  {
    if Takes(p) {
      ReleaseOne(c, held, RefOf(maps, p), rest);
      if Based(c, maps, held) { ReleaseOneBased(c, maps, held, RefOf(maps, p), rest); }
    } else {
      assert [] + rest == rest;
    }
  }

  /** Freeing returns exactly the references the pages took, whoever else holds their mappings or not. */
  lemma {:induction false} FreeLaw(pages: seq<Page>, c: Cache, maps: seq<Mapping>, held: seq<Ref>, i: nat)
    requires i <= |pages| && Ready(pages) && Balanced(c, held + Taken(maps, pages, i, |pages|))
    ensures var c1 := Free(pages, c, i).1;
            Balanced(c1, held) && (Based(c, maps, held) ==> Based(c1, maps, held))
    decreases |pages| - i
  {
    if i == |pages| {
      assert held + [] == held;
    } else {
      var pages1 := pages[i := Freed(pages[i])];
      ReleasePage(c, maps, held, pages[i], Taken(maps, pages, i + 1, |pages|));
      TakenSame(maps, pages, pages1, i + 1, |pages|);
      FreeLaw(pages1, Released(c, pages[i]), maps, held, i + 1);
    }
  }

  lemma {:induction false} TakenSame(maps: seq<Mapping>, p: seq<Page>, q: seq<Page>, lo: nat, hi: nat)
    requires lo <= hi <= |p| == |q| && forall j :: lo <= j < hi ==> q[j] == p[j]
    ensures Taken(maps, q, lo, hi) == Taken(maps, p, lo, hi)
    decreases hi - lo
  {
    if lo < hi { TakenSame(maps, p, q, lo + 1, hi); }
  }

  lemma {:induction false} TakenSnoc(maps: seq<Mapping>, pages: seq<Page>, lo: nat, hi: nat)
    requires lo <= hi < |pages|
    ensures Taken(maps, pages, lo, hi + 1)
            == Taken(maps, pages, lo, hi) + TakenBy(maps, pages[hi])
    decreases hi - lo
  {
    if lo < hi { TakenSnoc(maps, pages, lo + 1, hi); } else { assert Taken(maps, pages, hi + 1, hi + 1) == []; }
  }

  lemma {:induction false} TakenNone(maps: seq<Mapping>, pages: seq<Page>, lo: nat, hi: nat)
    requires lo <= hi <= |pages| && forall j :: lo <= j < hi ==> !Takes(pages[j])
    ensures Taken(maps, pages, lo, hi) == []
    decreases hi - lo
  {
    if lo < hi { TakenNone(maps, pages, lo + 1, hi); }
  }

  lemma {:induction false} TakenSplit(maps: seq<Mapping>, pages: seq<Page>, lo: nat, mid: nat, hi: nat)
    requires lo <= mid <= hi <= |pages|
    ensures Taken(maps, pages, lo, hi) == Taken(maps, pages, lo, mid) + Taken(maps, pages, mid, hi)
    decreases mid - lo
  {
    if lo < mid { TakenSplit(maps, pages, lo + 1, mid, hi); } else { assert Taken(maps, pages, lo, lo) == []; }
  }

  /** A lookup sees only the layout. */
  lemma FindLayout(a: seq<Mapping>, b: seq<Mapping>, phys: nat, size: nat)
    requires SameLayout(a, b)
    ensures Find(a, phys, size, 0) == Find(b, phys, size, 0)
  {
    var i, j := Find(a, phys, size, 0), Find(b, phys, size, 0);
    assert i < |a| ==> Covers(b[i], phys, size);
    assert j < |b| ==> Covers(a[j], phys, size);
  }

  /** No page from `i` on has been saved yet. */
  predicate Unsaved(pages: seq<Page>, i: nat) {
    forall j :: i <= j < |pages| ==> pages[j].kaddr.None? && !pages[j].unmap
  }

  /** Saving a page changes only counts in the list. */
  lemma SavePageBased(p: Page, c: Cache, maps: seq<Mapping>, held: seq<Ref>, mem: seq<Byte>, own: Option<nat>)
    requires p.phys + p.size <= |mem| && Based(c, maps, held)
    ensures var (_, c1, ok) := SavePage(p, c, mem, own);
            Based(c1, maps, held) && (!ok ==> c1 == c)
  {
  }

  /** One page saved: its reference, if it took one from the cache, is in the books. */
  lemma SavePageLaw(p: Page, c: Cache, maps: seq<Mapping>, all: seq<Ref>, mem: seq<Byte>, own: Option<nat>)
    requires p.phys + p.size <= |mem| && p.kaddr.None? && !p.unmap
    requires SameLayout(maps, c.maps) && Balanced(c, all) && SavePage(p, c, mem, own).2
    ensures var (p1, c1, _) := SavePage(p, c, mem, own);
            Balanced(c1, all + TakenBy(maps, p1))
  {
    var (p1, c1, _) := SavePage(p, c, mem, own);
    if Takes(p1) {
      FindLayout(maps, c.maps, p.phys, p.size);
      assert RefOf(maps, p1) == GetIomem(c, p.phys, p.size).1.value;
      GetLaw(c, all, p.phys, p.size);
    } else {
      assert all + [] == all;
    }
  }

  /** Giving up at page `i` frees what the pages before it took. */
  lemma GiveUp(pages: seq<Page>, c: Cache, maps: seq<Mapping>, held: seq<Ref>, i: nat)
    requires i <= |pages| && Ready(pages) && Based(c, maps, held) && Unsaved(pages, i)
    requires Balanced(c, held + Taken(maps, pages, 0, i))
    ensures var c1 := Free(pages, c, 0).1;
            Balanced(c1, held) && Based(c1, maps, held)
  {
    TakenNone(maps, pages, i, |pages|);
    TakenSplit(maps, pages, 0, i, |pages|);
    assert Taken(maps, pages, 0, i) + [] == Taken(maps, pages, 0, i);
    FreeLaw(pages, c, maps, held, 0);
  }

  /** Page `i` saved or given up: the books of the pages before and, if saved, of page `i`. */
  lemma SaveStep(pages: seq<Page>, c: Cache, maps: seq<Mapping>, held: seq<Ref>, mem: seq<Byte>, own: Option<nat>, i: nat)
    requires i < |pages| && pages[i].phys + pages[i].size <= |mem| && Based(c, maps, held) && Unsaved(pages, i)
    requires Balanced(c, held + Taken(maps, pages, 0, i))
    ensures var (p, c1, ok) := SavePage(pages[i], c, mem, own);
            && Based(c1, maps, held)
            && Balanced(c1, held + Taken(maps, pages[i := p], 0, if ok then i + 1 else i))
  {
    var (p, c1, ok) := SavePage(pages[i], c, mem, own);
    var pages1, taken := pages[i := p], Taken(maps, pages, 0, i);
    SavePageBased(pages[i], c, maps, held, mem, own);
    TakenSame(maps, pages, pages1, 0, i);
    if ok {
      SavePageLaw(pages[i], c, maps, held + taken, mem, own);
      TakenSnoc(maps, pages1, 0, i);
      assert held + (taken + TakenBy(maps, p)) == held + taken + TakenBy(maps, p);
    }
  }

  lemma {:induction false} SaveLaw(pages: seq<Page>, c: Cache, maps: seq<Mapping>, held: seq<Ref>,
                                   mem: seq<Byte>, io: nat -> Option<nat>, i: nat)
    requires i <= |pages| && Fits(pages, |mem|) && Ready(pages) && Based(c, maps, held) && Unsaved(pages, i)
    requires Balanced(c, held + Taken(maps, pages, 0, i))
    ensures var (ps, c1, ok) := Save(pages, c, mem, io, i);
            && Based(c1, maps, held)
            && (ok ==> Ready(ps) && Balanced(c1, held + Taken(maps, ps, 0, |ps|)))
            && (!ok ==> Balanced(c1, held))
    decreases |pages| - i
  {
    if i < |pages| {
      var (p, c1, ok) := SavePage(pages[i], c, mem, io(i));
      SaveStep(pages, c, maps, held, mem, io(i), i);
      if ok {
        SaveLaw(pages[i := p], c1, maps, held, mem, io, i + 1);
      } else {
        GiveUp(pages[i := p], c1, maps, held, i);
      }
    }
  }

  /** Equal layout and equal books leave no difference. */
  lemma BooksDecide(c: Cache, c1: Cache, held: seq<Ref>)
    requires Balanced(c, held) && Balanced(c1, held) && SameLayout(c.maps, c1.maps)
    ensures c1.maps == c.maps
  {
  }

  predicate AllFreed(pages: seq<Page>, lo: nat) {
    forall j :: lo <= j < |pages| ==> pages[j].data.None?
  }

  lemma {:induction false} FreeClears(pages: seq<Page>, c: Cache, i: nat)
    requires i <= |pages|
    ensures AllFreed(Free(pages, c, i).0, i)
    ensures forall j :: 0 <= j < i ==> Free(pages, c, i).0[j] == pages[j]
    ensures AllFreed(pages, i) ==> Free(pages, c, i).1 == c
    decreases |pages| - i
  {
    if i < |pages| { FreeClears(pages[i := Freed(pages[i])], Released(c, pages[i]), i + 1); }
  }

  lemma {:induction false} FailedSaveClears(pages: seq<Page>, c: Cache, mem: seq<Byte>, io: nat -> Option<nat>, i: nat)
    requires i <= |pages| && Fits(pages, |mem|) && !Save(pages, c, mem, io, i).2
    ensures AllFreed(Save(pages, c, mem, io, i).0, 0)
    decreases |pages| - i
  {
    if i < |pages| {
      var (p, c1, ok) := SavePage(pages[i], c, mem, io(i));
      if ok {
        FailedSaveClears(pages[i := p], c1, mem, io, i + 1);
      } else {
        FreeClears(pages[i := p], c1, 0);
      }
    }
  }

  /** A save, complete or failed midway, and then a free leave the mapping list exactly as it was. */
  lemma SaveThenFree(pages: seq<Page>, c: Cache, held: seq<Ref>, mem: seq<Byte>, io: nat -> Option<nat>)
    requires Balanced(c, held) && Fits(pages, |mem|) && Unsaved(pages, 0)
    requires forall j :: 0 <= j < |pages| ==> pages[j].size > 0
    ensures var (ps, c1, ok) := Save(pages, c, mem, io, 0);
            && Free(ps, c1, 0).1.maps == c.maps
            && (!ok ==> c1.maps == c.maps)
  {
    assert held + [] == held;
    SaveLaw(pages, c, c.maps, held, mem, io, 0);
    var (ps, c1, ok) := Save(pages, c, mem, io, 0);
    if ok {
      FreeLaw(ps, c1, c.maps, held, 0);
      BooksDecide(c, Free(ps, c1, 0).1, held);
    } else {
      BooksDecide(c, c1, held);
      FailedSaveClears(pages, c, mem, io, 0);
      FreeClears(ps, c1, 0);
    }
  }

  // -------------------------------------------------- other clients in between

  lemma BalancedSwap(c: Cache, a: seq<Ref>, b: seq<Ref>)
    requires Balanced(c, a + b)
    ensures Balanced(c, b + a)
  {
    forall i | 0 <= i < |c.maps| ensures Outstanding(b + a, c.maps[i].id) == Outstanding(a + b, c.maps[i].id) {
      OutstandingConcat(a, b, c.maps[i].id);
      OutstandingConcat(b, a, c.maps[i].id);
    }
    forall j | 0 <= j < |b + a| ensures Anchored(c.maps, (b + a)[j]) {
      assert (b + a)[j] == (a + b)[if j < |b| then |a| + j else j - |b|];
    }
  }

  /** The step releases none of the first `n` references. */
  predicate Spares(e: Event, n: nat) {
    (e.Unmap? ==> e.i >= n) && (e.GenericUnmap? ==> e.i >= n)
  }

  lemma {:induction false} RunSpares(w: World, es: seq<Event>, n: nat)
    requires n <= |w.held| && forall k :: 0 <= k < |es| ==> Spares(es[k], n)
    ensures var w1 := Run(w, es);
            n <= |w1.held| && w1.held[..n] == w.held[..n]
    decreases |es|
  {
    if es != [] {
      assert Spares(es[0], n);
      RunSpares(Step(w, es[0]), es[1..], n);
    }
  }

  /** What other clients, holding `held`, made of the list in `es` while the pages held their references. */
  function Meanwhile(pages: seq<Page>, c: Cache, maps: seq<Mapping>, held: seq<Ref>, es: seq<Event>): World {
    Run(World(c, Taken(maps, pages, 0, |pages|) + held), es)
  }

  /** Other clients only release what is theirs. */
  ghost predicate OthersRun(pages: seq<Page>, c: Cache, maps: seq<Mapping>, held: seq<Ref>, es: seq<Event>) {
    && AllowedRun(World(c, Taken(maps, pages, 0, |pages|) + held), es)
    && forall k :: 0 <= k < |es| ==> Spares(es[k], |Taken(maps, pages, 0, |pages|)|)
  }

  /** The pages' references outlast whatever other clients do. */
  lemma StillHeld(pages: seq<Page>, c: Cache, maps: seq<Mapping>, held: seq<Ref>, es: seq<Event>) returns (others: seq<Ref>)
    requires Balanced(c, held + Taken(maps, pages, 0, |pages|)) && OthersRun(pages, c, maps, held, es)
    ensures var w := Meanwhile(pages, c, maps, held, es);
            w.held == Taken(maps, pages, 0, |pages|) + others && Balanced(w.cache, others + Taken(maps, pages, 0, |pages|))
  {
    var taken := Taken(maps, pages, 0, |pages|);
    var w0, w := World(c, taken + held), Meanwhile(pages, c, maps, held, es);
    BalancedSwap(c, held, taken);
    RunBalanced(w0, es);
    RunSpares(w0, es, |taken|);
    others := w.held[|taken|..];
    assert w0.held[..|taken|] == taken;
    assert w.held == taken + others;
    BalancedSwap(w.cache, taken, others);
  }

  /**
    A free after a save and any steps of other clients in between, including
    ones that drop every other reference on a mapping a page holds: the list
    is balanced for exactly what the others then hold.
    */
  lemma FreeAfterOthers(pages: seq<Page>, c: Cache, maps: seq<Mapping>, held: seq<Ref>, es: seq<Event>)
    requires Ready(pages) && Balanced(c, held + Taken(maps, pages, 0, |pages|)) && OthersRun(pages, c, maps, held, es)
    ensures var w, n := Meanwhile(pages, c, maps, held, es), |Taken(maps, pages, 0, |pages|)|;
            n <= |w.held| && Balanced(Free(pages, w.cache, 0).1, w.held[n..])
  {
    var others := StillHeld(pages, c, maps, held, es);
    var w := Meanwhile(pages, c, maps, held, es);
    assert w.held[|Taken(maps, pages, 0, |pages|)|..] == others;
    FreeLaw(pages, w.cache, maps, others, 0);
  }

  /** A page that holds a reference is where its pointer leads. */
  lemma TargetHolds(p: Page, c: Cache, maps: seq<Mapping>, held: seq<Ref>, x: nat)
    requires Takes(p) && p.size > 0 && Balanced(c, held) && x < |held| && held[x] == RefOf(maps, p)
    ensures Target(c, p) == Some(p.phys)
  {
    FoundByPhys(c, held, x);
    FoundByVirt(c, held, x);
  }

  lemma {:induction false} TargetsHold(pages: seq<Page>, c: Cache, maps: seq<Mapping>, held: seq<Ref>, lo: nat)
    requires lo <= |pages| && Ready(pages) && Mapped(pages, |pages|) && Balanced(c, held + Taken(maps, pages, lo, |pages|))
    ensures OnTarget(pages, c, lo)
    decreases |pages| - lo
  {
    if lo < |pages| {
      var p, rest := pages[lo], Taken(maps, pages, lo + 1, |pages|);
      var all := held + (TakenBy(maps, p) + rest);
      if Takes(p) {
        assert all[|held|] == RefOf(maps, p);
        TargetHolds(p, c, maps, all, |held|);
      }
      assert all == (held + TakenBy(maps, p)) + rest;
      TargetsHold(pages, c, maps, held + TakenBy(maps, p), lo + 1);
    }
  }

  /** However other clients have changed the list, restoring saved pages puts `mem0` back on the regions and nowhere else. */
  lemma RestoreAfterOthers(pages: seq<Page>, c: Cache, maps: seq<Mapping>, held: seq<Ref>, es: seq<Event>,
                           regions: seq<Region>, mem0: seq<Byte>, mem1: seq<Byte>, a: nat)
    requires |mem0| == |mem1| && a < |mem0| && Fits(pages, |mem0|) && Copies(pages, mem0, 0, |pages|)
    requires Allocated(pages, regions) && Ready(pages) && Mapped(pages, |pages|)
    requires Balanced(c, held + Taken(maps, pages, 0, |pages|)) && OthersRun(pages, c, maps, held, es)
    ensures var w := Meanwhile(pages, c, maps, held, es);
            Restore(pages, w.cache, mem1, 0)[a] == if InRegions(regions, a) then mem0[a] else mem1[a]
  {
    var others := StillHeld(pages, c, maps, held, es);
    var w := Meanwhile(pages, c, maps, held, es);
    TargetsHold(pages, w.cache, maps, others, 0);
    RestoreLaw(pages, w.cache, mem0, mem1, 0, a);
    SavedIsRegions(pages, regions, a);
  }

  lemma SavedPages(regions: seq<Region>, pages: seq<Page>, c: Cache, held: seq<Ref>, io: nat -> Option<nat>, mem: seq<Byte>)
    requires Fits(pages, |mem|) && Allocated(pages, regions) && Balanced(c, held) && Ready(pages) && Unsaved(pages, 0)
    requires Save(pages, c, mem, io, 0).2
    ensures var (ps, c1, _) := Save(pages, c, mem, io, 0);
            && Fits(ps, |mem|) && Copies(ps, mem, 0, |ps|) && Mapped(ps, |ps|)
            && Allocated(ps, regions) && Ready(ps)
            && Balanced(c1, held + Taken(c.maps, ps, 0, |ps|))
  {
    SaveCopies(pages, c, mem, io, 0);
    assert held + [] == held;
    SaveLaw(pages, c, c.maps, held, mem, io, 0);
  }

  /**
    Registered regions, all of their chunks allocated: after a save of `mem0`,
    whatever other clients have done to the mapping list and whatever memory
    has become, restoring through the pages' pointers puts `mem0` back on the
    union of the regions and leaves every other byte alone.
    */
  lemma RoundTrip(regions: seq<Region>, pages: seq<Page>, c: Cache, held: seq<Ref>, io: nat -> Option<nat>,
                  es: seq<Event>, mem0: seq<Byte>, mem1: seq<Byte>, a: nat)
    requires |mem0| == |mem1| && a < |mem0| && Fits(pages, |mem0|) && Allocated(pages, regions)
    requires Balanced(c, held) && Ready(pages) && Unsaved(pages, 0) && Save(pages, c, mem0, io, 0).2
    requires OthersRun(Save(pages, c, mem0, io, 0).0, Save(pages, c, mem0, io, 0).1, c.maps, held, es)
    ensures var (ps, c1, _) := Save(pages, c, mem0, io, 0);
            var w := Meanwhile(ps, c1, c.maps, held, es);
            Restore(ps, w.cache, mem1, 0)[a] == if InRegions(regions, a) then mem0[a] else mem1[a]
  {
    var (ps, c1, _) := Save(pages, c, mem0, io, 0);
    SavedPages(regions, pages, c, held, io, mem0);
    RestoreAfterOthers(ps, c1, c.maps, held, es, regions, mem0, mem1, a);
  }
}
