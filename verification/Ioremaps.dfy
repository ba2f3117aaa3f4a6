/**
  The in-place form of the mapping list of drivers/acpi/osl.c, each method
  proved equal to its specification function in `MappingCache` and shown to
  keep the ledger.
  */
module Ioremap {
  import opened Wrappers
  import opened Spec = MappingCache
  import opened MappingPages

  const ULONG_MAX: nat := 0xFFFF_FFFF_FFFF_FFFF

  function Pointer(ref: Option<Ref>): Option<nat> {
    if ref.Some? then Some(ref.value.virt) else None
  }

  /** The reference is one that mapping the address acquired. */
  predicate Named(gas: GenericAddress, h: Ref) {
    gas.inMemory && gas.address > 0 && gas.bitWidth > 0 && h.phys == gas.address && h.size == gas.bitWidth / 8
  }

  /** Whoever held what, the books of `c` plus the reference are those of `c1`. */
  ghost predicate Adds(c: Cache, c1: Cache, h: Ref) {
    forall held: seq<Ref> :: Balanced(c, held) ==> Balanced(c1, held + [h])
  }

  lemma GetAdds(c: Cache, phys: nat, size: nat)
    requires Spec.GetIomem(c, phys, size).1.Some?
    ensures Adds(c, Spec.GetIomem(c, phys, size).0, Spec.GetIomem(c, phys, size).1.value)
  {
    var (c1, ref) := Spec.GetIomem(c, phys, size);
    forall held: seq<Ref> | Balanced(c, held) ensures Balanced(c1, held + [ref.value]) { GetLaw(c, held, phys, size); }
  }

  lemma MapAdds(c: Cache, phys: nat, size: nat, io: Option<nat>)
    requires Spec.MapMemory(c, phys, size, io).1.Some? && (io.Some? ==> Placed(c, phys, size, io.value))
    ensures Adds(c, Spec.MapMemory(c, phys, size, io).0, Spec.MapMemory(c, phys, size, io).1.value)
  {
    var (c1, ref) := Spec.MapMemory(c, phys, size, io);
    forall held: seq<Ref> | Balanced(c, held) ensures Balanced(c1, held + [ref.value]) { MapLaw(c, held, phys, size, io); }
  }

  /** Whoever holds the pointer on a nonempty range, or on one no earlier mapping reaches, has released exactly that. */
  ghost predicate Returns(c: Cache, c1: Cache, virt: nat, size: nat) {
    forall held: seq<Ref>, i: nat :: Balanced(c, held) && i < |held| && held[i].virt == virt && held[i].size == size ==>
                                       (Clear(c.maps, held[i]) ==> Balanced(c1, Without(held, i)))
  }

  lemma UnmapReturns(c: Cache, virt: nat, size: nat)
    ensures Returns(c, Spec.UnmapMemory(c, virt, size), virt, size)
  {
    forall held: seq<Ref>, i: nat | Balanced(c, held) && i < |held| && held[i].virt == virt && held[i].size == size && Clear(c.maps, held[i])
      ensures Balanced(Spec.UnmapMemory(c, virt, size), Without(held, i))
    {
      UnmapLaw(c, held, i);
    }
  }

  /** Whoever mapped the generic address has released exactly that. */
  ghost predicate ReturnsGeneric(c: Cache, c1: Cache, gas: GenericAddress) {
    forall held: seq<Ref>, i: nat :: Balanced(c, held) && i < |held| && Named(gas, held[i]) ==> Balanced(c1, Without(held, i))
  }

  lemma UnmapGenericReturns(c: Cache, gas: GenericAddress)
    ensures ReturnsGeneric(c, Spec.UnmapGeneric(c, gas), gas)
  {
    forall held: seq<Ref>, i: nat | Balanced(c, held) && i < |held| && Named(gas, held[i])
      ensures Balanced(Spec.UnmapGeneric(c, gas), Without(held, i))
    {
      UnmapGenericLaw(c, held, i, gas);
    }
  }

  class Ioremaps {
    var maps: seq<Mapping>
    var next: nat
    var permanent: bool      // past early boot: acpi_gbl_permanent_mmap

    function View(): Cache
      reads this
    {
      Cache(maps, next)
    }

    constructor (permanent: bool)
      ensures View() == Cache([], 0) && this.permanent == permanent && Balanced(View(), [])
    {
      maps, next, this.permanent := [], 0, permanent;
    }

    method Lookup(phys: nat, size: nat) returns (k: nat)
      ensures k == Find(maps, phys, size, 0)
    {
      k := 0;
      while k < |maps|
        invariant k <= |maps| && Find(maps, phys, size, k) == Find(maps, phys, size, 0)
      {
        if maps[k].phys <= phys && phys + size <= maps[k].phys + maps[k].size { return; }
        k := k + 1;
      }
    }

    method LookupVirt(virt: nat, size: nat) returns (k: nat)
      ensures k == FindVirt(maps, virt, size, 0)
    {
      k := 0;
      while k < |maps|
        invariant k <= |maps| && FindVirt(maps, virt, size, k) == FindVirt(maps, virt, size, 0)
      {
        if maps[k].virt <= virt && virt + size <= maps[k].virt + maps[k].size { return; }
        k := k + 1;
      }
    }

    method GetIomem(phys: nat, size: nat) returns (virt: Option<nat>)
      modifies this`maps
      ensures View() == Spec.GetIomem(old(View()), phys, size).0
      ensures virt == Pointer(Spec.GetIomem(old(View()), phys, size).1)
      ensures virt.Some? ==> Adds(old(View()), View(), Spec.GetIomem(old(View()), phys, size).1.value)
      ensures Served(old(maps), maps, phys, size, None, virt)
    {
      virt := None;
      GetOutcome(View(), phys, size);
      ghost var c := View();
      var k := Lookup(phys, size);
      if k < |maps| {
        virt := Some(maps[k].virt + (phys - maps[k].phys));
        maps := maps[k := maps[k].(refcount := maps[k].refcount + 1)];
        GetAdds(c, phys, size);
      }
    }

    /** Shares a mapping that covers the range, or appends a new one at `io`. */
    method MapShared(phys: nat, size: nat, io: Option<nat>) returns (virt: Option<nat>)
      modifies this`maps, this`next
      ensures View() == Spec.MapMemory(old(View()), phys, size, io).0
      ensures virt == Pointer(Spec.MapMemory(old(View()), phys, size, io).1)
      ensures Served(old(maps), maps, phys, size, io, virt)
    {
      MapOutcome(View(), phys, size, io);
      var k := Lookup(phys, size);
      if k < |maps| {
        maps := maps[k := maps[k].(refcount := maps[k].refcount + 1)];
      } else {
        if io.None? { return None; }
        var off := RoundDown(phys);
        maps := maps + [Mapping(next, io.value, off, RoundUp(phys + size) - off, 1)];
        next := next + 1;
      }
      virt := Some(maps[k].virt + (phys - maps[k].phys));
    }

    /** `io` is where a new mapping would be placed, `early` what the early boot mapping returns. */
    method MapMemory(phys: nat, size: nat, io: Option<nat>, early: Option<nat>) returns (virt: Option<nat>)
      modifies this`maps, this`next
      ensures phys > ULONG_MAX ==> virt == None && View() == old(View())
      ensures phys <= ULONG_MAX && !permanent ==> virt == early && View() == old(View())
      ensures phys <= ULONG_MAX && permanent ==>
                && View() == Spec.MapMemory(old(View()), phys, size, io).0
                && virt == Pointer(Spec.MapMemory(old(View()), phys, size, io).1)
                && Served(old(maps), maps, phys, size, io, virt)
                && (virt.Some? && (io.Some? ==> Placed(old(View()), phys, size, io.value)) ==>
                      Adds(old(View()), View(), Spec.MapMemory(old(View()), phys, size, io).1.value))
    {
      if phys > ULONG_MAX { return None; }
      if !permanent { return early; }
      ghost var c := View();
      virt := MapShared(phys, size, io);
      if virt.Some? && (io.Some? ==> Placed(c, phys, size, io.value)) { MapAdds(c, phys, size, io); }
    }

    method DropRef(k: nat)
      requires k < |maps| && maps[k].refcount >= 1
      modifies this`maps
      ensures View() == Drop(old(View()), k)
    {
      maps := maps[k := maps[k].(refcount := maps[k].refcount - 1)];
      if maps[k].refcount == 0 {
        maps := maps[..k] + maps[k + 1..];
      }
    }

    method UnmapMemory(virt: nat, size: nat)
      requires forall i :: 0 <= i < |maps| ==> maps[i].refcount >= 1
      modifies this`maps
      ensures View() == if permanent then Spec.UnmapMemory(old(View()), virt, size) else old(View())
      ensures permanent ==> Returns(old(View()), View(), virt, size)
    {
      if !permanent { return; }
      ghost var c := View();
      var k := LookupVirt(virt, size);
      if k < |maps| { DropRef(k); }
      UnmapReturns(c, virt, size);
    }

    method MapGeneric(gas: GenericAddress, io: Option<nat>, early: Option<nat>) returns (st: Status)
      modifies this`maps, this`next
      ensures permanent && gas.address <= ULONG_MAX ==>
                && View() == Spec.MapGeneric(old(View()), gas, io).0
                && st == Spec.MapGeneric(old(View()), gas, io).1
      ensures !(permanent && gas.address <= ULONG_MAX) ==>
                && View() == old(View())
                && st == if !gas.inMemory then Ok else if gas.address == 0 || gas.bitWidth == 0 then EInval
                         else if gas.address > ULONG_MAX || early.None? then EIo else Ok
    {
      if !gas.inMemory { return Ok; }
      if gas.address == 0 || gas.bitWidth == 0 { return EInval; }
      var virt := MapMemory(gas.address, gas.bitWidth / 8, io, early);
      st := if virt.None? then EIo else Ok;
    }

    method UnmapGeneric(gas: GenericAddress)
      requires forall i :: 0 <= i < |maps| ==> maps[i].refcount >= 1
      modifies this`maps
      ensures View() == Spec.UnmapGeneric(old(View()), gas)
      ensures ReturnsGeneric(old(View()), View(), gas)
    {
      UnmapGenericReturns(View(), gas);
      if !gas.inMemory || gas.address == 0 || gas.bitWidth == 0 { return; }
      var k := Lookup(gas.address, gas.bitWidth / 8);
      if k < |maps| { DropRef(k); }
    }
  }
}
