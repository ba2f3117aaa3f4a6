/**
  What registering, saving and freeing NVS regions leave behind, chunk by chunk
  (drivers/acpi/nvs.c:94-193): how few chunks there are, when a save succeeds,
  and where each chunk's pointer comes from.
  */
module NvsOutcomes {
  import opened Wrappers
  import opened MappingCache
  import opened MappingPages
  import opened NvsMemory

  // ----------------------------------------------------------------- registration

  /** Every chunk but the last ends with its page, so a region has one chunk for each page it touches. */
  lemma {:induction false} ChunksArePages(start: nat, size: nat)
    ensures var chunks := Chunks(start, size);
            && (forall i :: 0 <= i < |chunks| - 1 ==> (chunks[i].phys + chunks[i].size) % 4096 == 0)
            && (size > 0 ==> |chunks| == (start + size - 1) / 4096 - start / 4096 + 1)
            && (forall i :: 0 <= i < |chunks| ==> chunks[i].data.None? && chunks[i].kaddr.None? && !chunks[i].unmap)
    decreases size
  {
    if size > 0 {
      var n := ChunkSize(start, size);
      var rest := Chunks(start + n, size - n);
      ChunksArePages(start + n, size - n);
      assert Chunks(start, size) == [Page(start, n, None, None, false)] + rest;
      if n < size {
        assert (start + n) % 4096 == 0 && (start + n) / 4096 == start / 4096 + 1;
      }
    }
  }

  // ------------------------------------------------------------------------ saving

  /** The chunk can be mapped: a listed mapping holds it, or it can be mapped on its own. */
  predicate Mappable(maps: seq<Mapping>, p: Page, own: Option<nat>) {
    !Uncovered(maps, p.phys, p.size) || own.Some?
  }

  /** The pointer leads to the chunk inside the first mapping that holds it. */
  predicate LeadsTo(maps: seq<Mapping>, p: Page, virt: nat) {
    exists k :: 0 <= k < |maps| && FirstAt(maps, p, virt, k)
  }

  predicate FirstAt(maps: seq<Mapping>, p: Page, virt: nat, k: nat)
    requires k < |maps|
  {
    && Within(maps[k], p.phys, p.size) && (forall j :: 0 <= j < k ==> !Within(maps[j], p.phys, p.size))
    && virt == maps[k].virt + (p.phys - maps[k].phys)
  }

  /**
    What a save makes of a chunk: one without a buffer is left alone; any other
    gets its memory and a pointer, through the mapping that holds it, or to a
    mapping of its own, to be undone later, exactly when no mapping does.
    */
  predicate SavedAs(maps: seq<Mapping>, p: Page, p1: Page, mem: seq<Byte>, own: Option<nat>)
    requires p.phys + p.size <= |mem|
  {
    if p.data.None? then p1 == p
    else
      && p1.phys == p.phys && p1.size == p.size && p1.data == Some(mem[p.phys..p.phys + p.size]) && p1.kaddr.Some?
      && if Uncovered(maps, p.phys, p.size) then p1.kaddr == own && p1.unmap
         else LeadsTo(maps, p, p1.kaddr.value) && p1.unmap == p.unmap
  }

  /** Coverage is a matter of layout. */
  lemma LayoutDecides(a: seq<Mapping>, b: seq<Mapping>, p: Page, virt: nat)
    requires SameLayout(a, b)
    ensures Uncovered(a, p.phys, p.size) <==> Uncovered(b, p.phys, p.size)
    ensures LeadsTo(b, p, virt) ==> LeadsTo(a, p, virt)
  {
    forall i | 0 <= i < |a| ensures Within(a[i], p.phys, p.size) <==> Within(b[i], p.phys, p.size) { }
    if LeadsTo(b, p, virt) {
      var k :| 0 <= k < |b| && FirstAt(b, p, virt, k);
      assert FirstAt(a, p, virt, k);
    }
  }

  /** One chunk is saved exactly when it has no buffer or can be mapped. */
  lemma SavePageOutcome(p: Page, c: Cache, mem: seq<Byte>, own: Option<nat>)
    requires p.phys + p.size <= |mem|
    ensures var (p1, c1, ok) := SavePage(p, c, mem, own);
            && SameLayout(c.maps, c1.maps)
            && (ok <==> p.data.None? || Mappable(c.maps, p, own))
            && (ok ==> SavedAs(c.maps, p, p1, mem, own))
  {
    GetOutcome(c, p.phys, p.size);
    var (p1, c1, ok) := SavePage(p, c, mem, own);
    if ok && p.data.Some? && !Uncovered(c.maps, p.phys, p.size) {
      var k :| 0 <= k < |c.maps| && SharedAt(c.maps, c1.maps, p.phys, p.size, p1.kaddr.value, k);
      assert FirstAt(c.maps, p, p1.kaddr.value, k);
    }
  }

  lemma LayoutChain(a: seq<Mapping>, b: seq<Mapping>, c: seq<Mapping>)
    requires SameLayout(a, b) && SameLayout(b, c)
    ensures SameLayout(a, c)
  {
  }

  /** A save succeeds exactly when every chunk with a buffer can be mapped. */
  lemma {:induction false} SaveSucceedsExactlyWhen(pages: seq<Page>, c: Cache, maps: seq<Mapping>, mem: seq<Byte>, io: nat -> Option<nat>, i: nat)
    requires i <= |pages| && Fits(pages, |mem|) && SameLayout(maps, c.maps)
    ensures Save(pages, c, mem, io, i).2
            <==> forall j :: i <= j < |pages| && pages[j].data.Some? ==> Mappable(maps, pages[j], io(j))
    decreases |pages| - i
  {
    if i < |pages| {
      var (p, c1, ok) := SavePage(pages[i], c, mem, io(i));
      SavePageOutcome(pages[i], c, mem, io(i));
      LayoutDecides(maps, c.maps, pages[i], 0);
      if ok {
        LayoutChain(maps, c.maps, c1.maps);
        SaveSucceedsExactlyWhen(pages[i := p], c1, maps, mem, io, i + 1);
      }
    }
  }

  /** It then leaves every chunk as it should be. */
  lemma {:induction false} SaveOutcome(pages: seq<Page>, c: Cache, maps: seq<Mapping>, mem: seq<Byte>, io: nat -> Option<nat>, i: nat)
    requires i <= |pages| && Fits(pages, |mem|) && SameLayout(maps, c.maps) && Save(pages, c, mem, io, i).2
    ensures var ps := Save(pages, c, mem, io, i).0;
            forall j :: 0 <= j < |pages| ==> if j < i then ps[j] == pages[j] else SavedAs(maps, pages[j], ps[j], mem, io(j))
    decreases |pages| - i
  {
    if i < |pages| {
      var (p, c1, ok) := SavePage(pages[i], c, mem, io(i));
      SavePageOutcome(pages[i], c, mem, io(i));
      LayoutDecides(maps, c.maps, pages[i], if p.kaddr.Some? then p.kaddr.value else 0);
      LayoutChain(maps, c.maps, c1.maps);
      SaveOutcome(pages[i := p], c1, maps, mem, io, i + 1);
    }
  }

  // ----------------------------------------------------------------------- freeing

  /** A freed chunk has neither buffer nor pointer nor anything to unmap; one without a buffer is left alone. */
  predicate FreedAs(p: Page, p1: Page) {
    if p.data.None? then p1 == p
    else p1.phys == p.phys && p1.size == p.size && p1.data.None? && p1.kaddr.None? && (p.kaddr.Some? ==> !p1.unmap)
  }

  lemma {:induction false} FreeOutcome(pages: seq<Page>, c: Cache, i: nat)
    requires i <= |pages|
    ensures var ps := Free(pages, c, i).0;
            forall j :: 0 <= j < |pages| ==> if j < i then ps[j] == pages[j] else FreedAs(pages[j], ps[j])
    decreases |pages| - i
  {
    if i < |pages| { FreeOutcome(pages[i := Freed(pages[i])], Released(c, pages[i]), i + 1); }
  }
}
