/**
  The in-place form of drivers/acpi/nvs.c over a mapping list object, each
  method proved equal to its specification function in `NvsMemory`.
  */
module NvsDriver {
  import opened Wrappers
  import opened MappingCache
  import opened Ioremap
  import opened NvsOutcomes
  import Spec = NvsMemory

  predicate Positive(maps: seq<Mapping>) {
    forall i :: 0 <= i < |maps| ==> maps[i].refcount >= 1
  }

  /** Whoever else holds what, freeing the pages gives back exactly their references. */
  ghost predicate GivesBack(pages: seq<Spec.Page>, c: Cache, c1: Cache) {
    forall maps: seq<Mapping>, held: seq<Ref> ::
      Balanced(c, held + Spec.Taken(maps, pages, 0, |pages|)) ==> Balanced(c1, held)
  }

  lemma FreeGivesBack(pages: seq<Spec.Page>, c: Cache)
    requires Spec.Ready(pages)
    ensures GivesBack(pages, c, Spec.Free(pages, c, 0).1)
  {
    forall maps: seq<Mapping>, held: seq<Ref> | Balanced(c, held + Spec.Taken(maps, pages, 0, |pages|))
      ensures Balanced(Spec.Free(pages, c, 0).1, held)
    {
      Spec.FreeLaw(pages, c, maps, held, 0);
    }
  }

  /** Whoever else holds what, a save adds the references of its pages, or none if it fails. */
  ghost predicate Borrows(ps: seq<Spec.Page>, c: Cache, c1: Cache, ok: bool) {
    forall held: seq<Ref> :: Balanced(c, held) ==>
                               Balanced(c1, held + if ok then Spec.Taken(c.maps, ps, 0, |ps|) else [])
  }

  lemma SaveBorrows(pages: seq<Spec.Page>, c: Cache, mem: seq<Byte>, io: nat -> Option<nat>)
    requires Spec.Fits(pages, |mem|) && Spec.Ready(pages) && Spec.Unsaved(pages, 0)
    ensures var (ps, c1, ok) := Spec.Save(pages, c, mem, io, 0);
            Borrows(ps, c, c1, ok)
  {
    var (ps, c1, ok) := Spec.Save(pages, c, mem, io, 0);
    forall held: seq<Ref> | Balanced(c, held)
      ensures Balanced(c1, held + if ok then Spec.Taken(c.maps, ps, 0, |ps|) else [])
    {
      assert held + [] == held;
      Spec.SaveLaw(pages, c, c.maps, held, mem, io, 0);
    }
  }

  /** When a save succeeds, what it leaves behind, and what it adds to the books. */
  lemma SaveExplained(pages: seq<Spec.Page>, c: Cache, mem: seq<Byte>, io: nat -> Option<nat>)
    requires Spec.Fits(pages, |mem|)
    ensures var (ps, c1, ok) := Spec.Save(pages, c, mem, io, 0);
            && (ok <==> forall j :: 0 <= j < |pages| && pages[j].data.Some? ==> Mappable(c.maps, pages[j], io(j)))
            && (ok ==> forall j :: 0 <= j < |pages| ==> SavedAs(c.maps, pages[j], ps[j], mem, io(j)))
            && (Spec.Ready(pages) && Spec.Unsaved(pages, 0) ==> Borrows(ps, c, c1, ok))
  {
    SaveSucceedsExactlyWhen(pages, c, c.maps, mem, io, 0);
    if Spec.Save(pages, c, mem, io, 0).2 { SaveOutcome(pages, c, c.maps, mem, io, 0); }
    if Spec.Ready(pages) && Spec.Unsaved(pages, 0) { SaveBorrows(pages, c, mem, io); }
  }

  class Nvs {
    const cache: Ioremaps
    var pages: seq<Spec.Page>
    var mem: seq<Byte>

    constructor (cache: Ioremaps, mem: seq<Byte>)
      ensures this.cache == cache && pages == [] && this.mem == mem
    {
      this.cache, this.mem, pages := cache, mem, [];
    }

    /** Appends the chunks of a region; when an entry cannot be allocated, every entry of the list is freed. */
    method Register(start: nat, size: nat, allocates: nat -> bool) returns (ok: bool)
      modifies this`pages
      ensures ok <==> forall i :: 0 <= i < |Spec.Chunks(start, size)| ==> allocates(i)
      ensures pages == if ok then old(pages) + Spec.Chunks(start, size) else []
    {
      var at: nat, left: nat, i: nat := start, size, 0;
      ghost var all := Spec.Chunks(start, size);
      while left > 0
        invariant i <= |all| && all[i..] == Spec.Chunks(at, left)
        invariant pages == old(pages) + all[..i]
        invariant forall j :: 0 <= j < i ==> allocates(j)
        decreases left
      {
        assert i < |all| && all[i..][0] == all[i];
        if !allocates(i) {
          pages := [];
          return false;
        }
        var room := PAGE_SIZE - at % PAGE_SIZE;
        var n := if left < room then left else room;
        pages := pages + [Spec.Page(at, n, None, None, false)];
        assert all[i + 1..] == all[i..][1..];
        assert all[..i + 1] == all[..i] + [all[i]];
        at, left, i := at + n, left - n, i + 1;
      }
      assert all[..i] == all;
      ok := true;
    }

    /** Frees one page's buffer and lets go of its mapping. */
    method FreeOne(i: nat)
      requires Positive(cache.maps) && cache.permanent && i < |pages|
      modifies this`pages, cache`maps
      ensures pages == old(pages)[i := Spec.Freed(old(pages)[i])]
      ensures cache.View() == Spec.Released(old(cache.View()), old(pages)[i]) && Positive(cache.maps)
    {
      var p := pages[i];
      if p.data.Some? {
        p := p.(data := None);
        if p.kaddr.Some? {
          if p.unmap {
            p := p.(unmap := false);
          } else {
            cache.UnmapMemory(p.kaddr.value, p.size);
          }
          p := p.(kaddr := None);
        }
      }
      pages := pages[i := p];
    }

    method Free()
      requires Positive(cache.maps) && cache.permanent
      modifies this`pages, cache`maps
      ensures (pages, cache.View()) == Spec.Free(old(pages), old(cache.View()), 0)
      ensures Positive(cache.maps)
      ensures Spec.Ready(old(pages)) ==> GivesBack(old(pages), old(cache.View()), cache.View())
    {
      if Spec.Ready(pages) { FreeGivesBack(pages, cache.View()); }
      for i := 0 to |pages|
        invariant |pages| == |old(pages)| && Positive(cache.maps)
        invariant Spec.Free(pages, cache.View(), i) == Spec.Free(old(pages), old(cache.View()), 0)
      {
        FreeOne(i);
      }
    }

    /** Maps one page, through the list or at `own`, and copies it; false when it cannot be mapped. */
    method SaveOne(i: nat, own: Option<nat>) returns (ok: bool)
      requires Positive(cache.maps) && i < |pages| && pages[i].phys + pages[i].size <= |mem|
      modifies this`pages, cache`maps
      ensures Positive(cache.maps)
      ensures var (p, c, mapped) := Spec.SavePage(old(pages)[i], old(cache.View()), mem, own);
              pages == old(pages)[i := p] && cache.View() == c && ok == mapped
    {
      var p := pages[i];
      assert pages[i := p] == pages;
      if p.data.None? { return true; }
      var kaddr := cache.GetIomem(p.phys, p.size);
      p := p.(kaddr := kaddr);
      if kaddr.None? {
        p := p.(kaddr := own, unmap := own.Some?);
      }
      ok := p.kaddr.Some?;
      if ok { p := p.(data := Some(mem[p.phys..p.phys + p.size])); }
      pages := pages[i := p];
    }

    method Save(io: nat -> Option<nat>) returns (ok: bool)
      requires Positive(cache.maps) && cache.permanent && Spec.Fits(pages, |mem|)
      modifies this`pages, cache`maps
      ensures (pages, cache.View(), ok) == Spec.Save(old(pages), old(cache.View()), mem, io, 0)
      ensures Positive(cache.maps)
      ensures ok <==> forall j :: 0 <= j < |old(pages)| && old(pages)[j].data.Some? ==> Mappable(old(cache.maps), old(pages)[j], io(j))
      ensures ok ==> forall j :: 0 <= j < |pages| ==> SavedAs(old(cache.maps), old(pages)[j], pages[j], mem, io(j))
      ensures Spec.Ready(old(pages)) && Spec.Unsaved(old(pages), 0) ==> Borrows(pages, old(cache.View()), cache.View(), ok)
    {
      SaveExplained(pages, cache.View(), mem, io);
      for i := 0 to |pages|
        invariant |pages| == |old(pages)| && Positive(cache.maps) && Spec.Fits(pages, |mem|)
        invariant Spec.Save(pages, cache.View(), mem, io, i) == Spec.Save(old(pages), old(cache.View()), mem, io, 0)
      {
        ok := SaveOne(i, io(i));
        if !ok {
          Free();
          return;
        }
      }
      ok := true;
    }

    /** Copies every saved page back through its pointer. */
    method Restore()
      modifies this`mem
      ensures mem == Spec.Restore(pages, cache.View(), old(mem), 0)
    {
      ghost var c := cache.View();
      for i := 0 to |pages|
        invariant Spec.Restore(pages, c, mem, i) == Spec.Restore(pages, c, old(mem), 0)
      {
        RestoreNext(i, c);
      }
    }

    method RestoreNext(i: nat, ghost c: Cache)
      requires i < |pages| && c == cache.View()
      modifies this`mem
      ensures Spec.Restore(pages, c, mem, i + 1) == Spec.Restore(pages, c, old(mem), i)
    {
      RestoreOne(pages[i]);
    }

    method RestoreOne(p: Spec.Page)
      modifies this`mem
      ensures mem == Spec.RestorePage(p, cache.View(), old(mem))
    {
      if p.data.None? || p.kaddr.None? { return; }
      var to := p.phys;
      if !p.unmap {
        var k := cache.LookupVirt(p.kaddr.value, p.size);
        if k == |cache.maps| { return; }
        to := cache.maps[k].phys + (p.kaddr.value - cache.maps[k].virt);
      }
      if to + |p.data.value| <= |mem| {
        ghost var was := mem;
        mem := mem[..to] + p.data.value + mem[to + |p.data.value|..];
        assert mem == Spec.Overwrite(was, to, p.data.value);
      }
    }
  }
}
