/**
  Mapping, sharing and releasing memory, told by the pages involved
  (drivers/acpi/osl.c:271-500): when a new mapping is made and where it lies,
  when an old one is shared, and what a lookup that finds nothing leaves alone.
  */
module MappingPages {
  import opened Wrappers
  import opened MappingCache

  predicate Within(m: Mapping, phys: nat, size: nat) {
    m.phys <= phys && phys + size <= m.phys + m.size
  }

  /** No listed mapping holds the whole range. */
  predicate Uncovered(maps: seq<Mapping>, phys: nat, size: nat) {
    forall i :: 0 <= i < |maps| ==> !Within(maps[i], phys, size)
  }

  /**
    The list has grown at its end by a mapping at `v` with one reference: whole
    pages, from the one the range starts in to the one it ends in; the pointer
    has the offset of the range in its first page.
    */
  predicate Grown(maps: seq<Mapping>, maps1: seq<Mapping>, phys: nat, size: nat, v: nat, virt: nat) {
    && |maps1| == |maps| + 1 && maps1[..|maps|] == maps
    && var m := maps1[|maps|];
       && m.virt == v && m.refcount == 1 && m.phys % 4096 == 0 == m.size % 4096
       && m.phys <= phys < m.phys + 4096 && phys + size <= m.phys + m.size < phys + size + 4096
       && virt == v + (phys - m.phys)
  }

  /** The first mapping that holds the range has one reference more, and the pointer leads into it. */
  predicate SharedAt(maps: seq<Mapping>, maps1: seq<Mapping>, phys: nat, size: nat, virt: nat, k: nat) {
    && k < |maps| && Within(maps[k], phys, size) && (forall j :: 0 <= j < k ==> !Within(maps[j], phys, size))
    && maps1 == maps[k := maps[k].(refcount := maps[k].refcount + 1)]
    && virt == maps[k].virt + (phys - maps[k].phys)
  }

  predicate Shared(maps: seq<Mapping>, maps1: seq<Mapping>, phys: nat, size: nat, virt: nat) {
    exists k :: 0 <= k < |maps| && SharedAt(maps, maps1, phys, size, virt, k)
  }

  /** What a request makes of the list and what pointer it returns. */
  predicate Served(maps: seq<Mapping>, maps1: seq<Mapping>, phys: nat, size: nat, io: Option<nat>, virt: Option<nat>) {
    if !Uncovered(maps, phys, size) then virt.Some? && Shared(maps, maps1, phys, size, virt.value)
    else if io.Some? then virt.Some? && Grown(maps, maps1, phys, size, io.value, virt.value)
    else virt.None? && maps1 == maps
  }

  lemma FoundExactlyWhenCovered(maps: seq<Mapping>, phys: nat, size: nat)
    ensures Find(maps, phys, size, 0) < |maps| <==> !Uncovered(maps, phys, size)
  {
    var k := Find(maps, phys, size, 0);
    if k < |maps| { assert Within(maps[k], phys, size); }
    if i :| 0 <= i < |maps| && Within(maps[i], phys, size) { assert Covers(maps[i], phys, size); }
  }

  lemma FreshPages(maps: seq<Mapping>, c: Cache, phys: nat, size: nat, v: nat)
    ensures var m := Fresh(c, phys, size, v);
            Grown(maps, maps + [m], phys, size, v, Translate(m, phys))
  {
  }

  /** A reference on an existing mapping, exactly when one holds the range. */
  lemma GetOutcome(c: Cache, phys: nat, size: nat)
    ensures var (c1, ref) := GetIomem(c, phys, size);
            && Served(c.maps, c1.maps, phys, size, None, if ref.Some? then Some(ref.value.virt) else None)
            && c1.next == c.next && (ref.Some? ==> ref.value.phys == phys && ref.value.size == size)
  {
    FoundExactlyWhenCovered(c.maps, phys, size);
    var k, ref := Find(c.maps, phys, size, 0), GetIomem(c, phys, size).1;
    if ref.Some? { assert SharedAt(c.maps, GetIomem(c, phys, size).0.maps, phys, size, ref.value.virt, k); }
  }

  /** A mapping request is served by sharing, by whole new pages, or not at all. */
  lemma MapOutcome(c: Cache, phys: nat, size: nat, io: Option<nat>)
    ensures var (c1, ref) := MapMemory(c, phys, size, io);
            && Served(c.maps, c1.maps, phys, size, io, if ref.Some? then Some(ref.value.virt) else None)
            && c1.next == c.next + (if |c1.maps| > |c.maps| then 1 else 0)
            && (|c1.maps| > |c.maps| ==> c1.maps[|c.maps|].id == c.next)
            && (ref.Some? ==> ref.value.phys == phys && ref.value.size == size)
  {
    FoundExactlyWhenCovered(c.maps, phys, size);
    if !Uncovered(c.maps, phys, size) {
      GetOutcome(c, phys, size);
    } else if io.Some? {
      FreshPages(c.maps, c, phys, size, io.value);
    }
  }

  /** Releasing a pointer that leads into no mapping changes nothing; otherwise the first one it leads into loses a reference. */
  lemma UnmapOutcome(c: Cache, virt: nat, size: nat, k: nat)
    ensures (forall i :: 0 <= i < |c.maps| ==> !(c.maps[i].virt <= virt && virt + size <= c.maps[i].virt + c.maps[i].size)) ==>
              UnmapMemory(c, virt, size) == c
    ensures k < |c.maps| && c.maps[k].virt <= virt && virt + size <= c.maps[k].virt + c.maps[k].size
            && (forall i :: 0 <= i < k ==> !(c.maps[i].virt <= virt && virt + size <= c.maps[i].virt + c.maps[i].size)) ==>
              UnmapMemory(c, virt, size).maps
              == if c.maps[k].refcount <= 1 then c.maps[..k] + c.maps[k + 1..]
                 else c.maps[k := c.maps[k].(refcount := c.maps[k].refcount - 1)]
  {
    var j := FindVirt(c.maps, virt, size, 0);
    assert j < |c.maps| ==> CoversVirt(c.maps[j], virt, size);
    if k < |c.maps| && c.maps[k].virt <= virt && virt + size <= c.maps[k].virt + c.maps[k].size {
      assert CoversVirt(c.maps[k], virt, size);
    }
  }

  /** A generic address: ports are ignored, incomplete ones refused, and memory is mapped by whole bytes. */
  lemma GenericOutcome(c: Cache, gas: GenericAddress, io: Option<nat>)
    ensures var (c1, st, ref) := MapGeneric(c, gas, io);
            && (!gas.inMemory ==> c1 == c && st == Ok && ref.None?)
            && (gas.inMemory && (gas.address == 0 || gas.bitWidth == 0) ==> c1 == c && st == EInval && ref.None?)
            && (gas.inMemory && gas.address > 0 && gas.bitWidth > 0 ==>
                  && (st == Ok <==> ref.Some?) && (st == EIo <==> ref.None?)
                  && Served(c.maps, c1.maps, gas.address, gas.bitWidth / 8, io, if ref.Some? then Some(ref.value.virt) else None))
    ensures !gas.inMemory || gas.address == 0 || gas.bitWidth == 0 || Uncovered(c.maps, gas.address, gas.bitWidth / 8) ==>
              UnmapGeneric(c, gas) == c
  {
    MapOutcome(c, gas.address, gas.bitWidth / 8, io);
    FoundExactlyWhenCovered(c.maps, gas.address, gas.bitWidth / 8);
  }

  // ---------------------------------------------------------------- over whole runs

  predicate Aligned(maps: seq<Mapping>) {
    forall i :: 0 <= i < |maps| ==> maps[i].phys % 4096 == 0 == maps[i].size % 4096
  }

  lemma MapAligned(c: Cache, phys: nat, size: nat, io: Option<nat>)
    requires Aligned(c.maps)
    ensures Aligned(MapMemory(c, phys, size, io).0.maps) && Aligned(GetIomem(c, phys, size).0.maps)
  {
    MapOutcome(c, phys, size, io);
    GetOutcome(c, phys, size);
  }

  lemma StepAligned(w: World, e: Event)
    requires Aligned(w.cache.maps)
    ensures Aligned(Step(w, e).cache.maps)
  {
    match e
    case Map(phys, size, io) => MapAligned(w.cache, phys, size, io);
    case Get(phys, size) => MapAligned(w.cache, phys, size, None);
    case GenericMap(gas, io) => MapAligned(w.cache, gas.address, gas.bitWidth / 8, io);
    case Unmap(_) =>
    case GenericUnmap(_, _) =>
  }

  /** Every mapping is made of whole pages, over every run. */
  lemma {:induction false} RunAligned(w: World, es: seq<Event>)
    requires Aligned(w.cache.maps)
    ensures Aligned(Run(w, es).cache.maps)
    decreases |es|
  {
    if es != [] {
      StepAligned(w, es[0]);
      RunAligned(Step(w, es[0]), es[1..]);
    }
  }

  /** A nonempty range inside one page. */
  predicate OnPage(phys: nat, size: nat, page: nat) {
    size > 0 && 4096 * page <= phys && phys + size <= 4096 * page + 4096
  }

  /** A mapping of whole pages holds a range inside a page exactly when it holds the page. */
  lemma WholePage(m: Mapping, phys: nat, size: nat, page: nat)
    requires m.phys % 4096 == 0 == m.size % 4096 && OnPage(phys, size, page)
    ensures Within(m, phys, size) <==> Within(m, 4096 * page, 4096)
  {
    var a, n := m.phys / 4096, m.size / 4096;
    assert m.phys == 4096 * a && m.size == 4096 * n;
  }

  lemma SamePageSameMapping(maps: seq<Mapping>, phys: nat, size: nat, phys': nat, size': nat, page: nat)
    requires Aligned(maps) && OnPage(phys, size, page) && OnPage(phys', size', page)
    ensures Find(maps, phys, size, 0) == Find(maps, phys', size', 0)
  {
    var j, k := Find(maps, phys, size, 0), Find(maps, phys', size', 0);
    forall i | 0 <= i < |maps| ensures Covers(maps[i], phys, size) <==> Covers(maps[i], phys', size') {
      WholePage(maps[i], phys, size, page);
      WholePage(maps[i], phys', size', page);
    }
    assert j < |maps| ==> Covers(maps[j], phys', size');
    assert k < |maps| ==> Covers(maps[k], phys, size);
  }

  /**
    After any run, as long as somebody holds a range inside a page, another
    request inside that page is served by the same mapping, whatever the run,
    and the list does not grow.
    */
  lemma OnePageOneMapping(w: World, es: seq<Event>, i: nat, phys: nat, size: nat, page: nat, io: Option<nat>)
    requires Balanced(w.cache, w.held) && AllowedRun(w, es) && Aligned(w.cache.maps) && i < |Run(w, es).held|
    requires OnPage(Run(w, es).held[i].phys, Run(w, es).held[i].size, page) && OnPage(phys, size, page)
    ensures var w1 := Run(w, es);
            var (c, ref) := MapMemory(w1.cache, phys, size, io);
            && ref.Some? && ref.value.id == w1.held[i].id && SameLayout(w1.cache.maps, c.maps)
            && ref.value.virt - phys == w1.held[i].virt - w1.held[i].phys
  {
    var w1 := Run(w, es);
    RunBalanced(w, es);
    RunAligned(w, es);
    FoundByPhys(w1.cache, w1.held, i);
    SamePageSameMapping(w1.cache.maps, w1.held[i].phys, w1.held[i].size, phys, size, page);
  }
}
