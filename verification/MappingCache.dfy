/**
  The list of permanent memory mappings (drivers/acpi/osl.c): page rounded,
  reference counted, searched by physical or by virtual address.  Dropping a
  reference and cleaning up after the last one is a single step.
  */
module MappingCache {
  import opened Wrappers

  const PAGE_SIZE: nat := 4096

  /** One mapping; `id` is its identity (the address of its list node). */
  datatype Mapping = Mapping(id: nat, virt: nat, phys: nat, size: nat, refcount: nat)

  datatype Cache = Cache(maps: seq<Mapping>, next: nat)

  /** A reference handed to a client: which mapping it is on, and what was asked for. */
  datatype Ref = Ref(id: nat, phys: nat, size: nat, virt: nat)

  function RoundDown(x: nat): nat { x - x % PAGE_SIZE }

  function RoundUp(x: nat): nat { RoundDown(x + PAGE_SIZE - 1) }

  predicate Covers(m: Mapping, phys: nat, size: nat) {
    m.phys <= phys && phys + size <= m.phys + m.size
  }

  predicate CoversVirt(m: Mapping, virt: nat, size: nat) {
    m.virt <= virt && virt + size <= m.virt + m.size
  }

  /** The first mapping from `i` on that covers a physical range, or the length. */
  function Find(maps: seq<Mapping>, phys: nat, size: nat, i: nat): (k: nat)
    requires i <= |maps|
    ensures i <= k <= |maps| && (k < |maps| ==> Covers(maps[k], phys, size))
    ensures forall j :: i <= j < k ==> !Covers(maps[j], phys, size)
    decreases |maps| - i
  {
    if i == |maps| || Covers(maps[i], phys, size) then i else Find(maps, phys, size, i + 1)
  }

  function FindVirt(maps: seq<Mapping>, virt: nat, size: nat, i: nat): (k: nat)
    requires i <= |maps|
    ensures i <= k <= |maps| && (k < |maps| ==> CoversVirt(maps[k], virt, size))
    ensures forall j :: i <= j < k ==> !CoversVirt(maps[j], virt, size)
    decreases |maps| - i
  {
    if i == |maps| || CoversVirt(maps[i], virt, size) then i else FindVirt(maps, virt, size, i + 1)
  }

  function Translate(m: Mapping, phys: nat): nat
    requires m.phys <= phys
  {
    m.virt + (phys - m.phys)
  }

  function Take(c: Cache, k: nat): Cache
    requires k < |c.maps|
  {
    c.(maps := c.maps[k := c.maps[k].(refcount := c.maps[k].refcount + 1)])
  }

  /** Gives up one reference; the last one takes the mapping off the list. */
  function Drop(c: Cache, k: nat): Cache
    requires k < |c.maps|
  {
    if c.maps[k].refcount <= 1 then c.(maps := Cut(c.maps, k))
    else c.(maps := c.maps[k := c.maps[k].(refcount := c.maps[k].refcount - 1)])
  }

  function GetIomem(c: Cache, phys: nat, size: nat): (Cache, Option<Ref>) {
    var k := Find(c.maps, phys, size, 0);
    if k < |c.maps| then (Take(c, k), Some(Ref(c.maps[k].id, phys, size, Translate(c.maps[k], phys))))
    else (c, None)
  }

  /** `io` is where a new mapping would be placed; None when it cannot be made. */
  function MapMemory(c: Cache, phys: nat, size: nat, io: Option<nat>): (Cache, Option<Ref>) {
    var k := Find(c.maps, phys, size, 0);
    if k < |c.maps| then GetIomem(c, phys, size)
    else if io.None? then (c, None)
    else
      var m := Fresh(c, phys, size, io.value);
      (Cache(c.maps + [m], c.next + 1), Some(Ref(m.id, phys, size, Translate(m, phys))))
  }

  function Fresh(c: Cache, phys: nat, size: nat, virt: nat): (m: Mapping)
    ensures Covers(m, phys, size) && m.virt == virt && m.refcount == 1
    ensures m.phys % PAGE_SIZE == 0 == m.size % PAGE_SIZE && m.phys <= phys < m.phys + PAGE_SIZE
    ensures m.phys + m.size < phys + size + PAGE_SIZE
  {
    Mapping(c.next, virt, RoundDown(phys), RoundUp(phys + size) - RoundDown(phys), 1)
  }

  function UnmapMemory(c: Cache, virt: nat, size: nat): Cache {
    var k := FindVirt(c.maps, virt, size, 0);
    if k < |c.maps| then Drop(c, k) else c
  }

  /** A generic address: in memory or not, an address and a width in bits. */
  datatype GenericAddress = GenericAddress(inMemory: bool, address: nat, bitWidth: nat)

  datatype Status = Ok | EInval | EIo

  function MapGeneric(c: Cache, gas: GenericAddress, io: Option<nat>): (Cache, Status, Option<Ref>) {
    if !gas.inMemory then (c, Ok, None)
    else if gas.address == 0 || gas.bitWidth == 0 then (c, EInval, None)
    else
      var (c1, ref) := MapMemory(c, gas.address, gas.bitWidth / 8, io);
      (c1, if ref.Some? then Ok else EIo, ref)
  }

  function UnmapGeneric(c: Cache, gas: GenericAddress): Cache {
    if !gas.inMemory || gas.address == 0 || gas.bitWidth == 0 then c
    else
      var k := Find(c.maps, gas.address, gas.bitWidth / 8, 0);
      if k < |c.maps| then Drop(c, k) else c
  }

  // ------------------------------------------------------------- the ledger

  function Outstanding(held: seq<Ref>, id: nat): nat {
    if held == [] then 0 else (if held[0].id == id then 1 else 0) + Outstanding(held[1..], id)
  }

  lemma {:induction false} OutstandingConcat(a: seq<Ref>, b: seq<Ref>, id: nat)
    ensures Outstanding(a + b, id) == Outstanding(a, id) + Outstanding(b, id)
  {
    if a == [] {
      assert a + b == b;
    } else {
      assert (a + b)[1..] == a[1..] + b;
      OutstandingConcat(a[1..], b, id);
    }
  }

  function Without(held: seq<Ref>, i: nat): seq<Ref>
    requires i < |held|
  {
    held[..i] + held[i + 1..]
  }

  lemma OutstandingWithout(held: seq<Ref>, i: nat, id: nat)
    requires i < |held|
    ensures Outstanding(held, id) == Outstanding(Without(held, i), id) + if held[i].id == id then 1 else 0
  {
    assert held == held[..i] + ([held[i]] + held[i + 1..]);
    OutstandingConcat(held[..i], [held[i]] + held[i + 1..], id);
    OutstandingConcat([held[i]], held[i + 1..], id);
    OutstandingConcat(held[..i], held[i + 1..], id);
    assert [held[i]][1..] == [];
  }

  predicate Apart(a: Mapping, b: Mapping) {
    a.virt + a.size <= b.virt || b.virt + b.size <= a.virt || a.size == 0 || b.size == 0
  }

  /** Live mappings are distinct objects in disjoint virtual ranges. */
  predicate Proper(c: Cache) {
    && (forall i :: 0 <= i < |c.maps| ==> c.maps[i].id < c.next)
    && (forall i, j :: 0 <= i < j < |c.maps| ==> c.maps[i].id != c.maps[j].id && Apart(c.maps[i], c.maps[j]))
  }

  /** A reference is on the first mapping that covers its range, and its pointer translates its address. */
  predicate Anchored(maps: seq<Mapping>, h: Ref) {
    var k := Find(maps, h.phys, h.size, 0);
    k < |maps| && maps[k].id == h.id && h.virt == Translate(maps[k], h.phys)
  }

  predicate Counted(maps: seq<Mapping>, held: seq<Ref>) {
    forall i :: 0 <= i < |maps| ==> maps[i].refcount == Outstanding(held, maps[i].id) >= 1
  }

  predicate AllAnchored(maps: seq<Mapping>, held: seq<Ref>) {
    forall j :: 0 <= j < |held| ==> Anchored(maps, held[j])
  }

  /** The ledger: every mapping is counted by its outstanding references, every reference is on its mapping. */
  predicate Balanced(c: Cache, held: seq<Ref>) {
    Proper(c) && Counted(c.maps, held) && AllAnchored(c.maps, held)
  }

  /** The same list up to reference counts. */
  predicate SameLayout(a: seq<Mapping>, b: seq<Mapping>) {
    |a| == |b| && forall i :: 0 <= i < |a| ==> b[i] == a[i].(refcount := b[i].refcount)
  }

  lemma AnchoredLayout(a: seq<Mapping>, b: seq<Mapping>, h: Ref)
    requires SameLayout(a, b) && Anchored(a, h)
    ensures Anchored(b, h)
  {
    var k := Find(a, h.phys, h.size, 0);
    assert Covers(b[k], h.phys, h.size);
    assert forall j :: 0 <= j < k ==> !Covers(a[j], h.phys, h.size) && !Covers(b[j], h.phys, h.size);
  }

  lemma AnchoredAppend(maps: seq<Mapping>, m: Mapping, h: Ref)
    requires Anchored(maps, h)
    ensures Anchored(maps + [m], h)
  {
    var k := Find(maps, h.phys, h.size, 0);
    assert (maps + [m])[k] == maps[k];
    assert forall j :: 0 <= j < k ==> (maps + [m])[j] == maps[j];
  }

  lemma AnchoredRemove(maps: seq<Mapping>, k: nat, h: Ref)
    requires k < |maps| && Anchored(maps, h) && Find(maps, h.phys, h.size, 0) != k
    ensures Anchored(maps[..k] + maps[k + 1..], h)
  {
    var rest := maps[..k] + maps[k + 1..];
    var j := Find(maps, h.phys, h.size, 0);
    var j' := if j < k then j else j - 1;
    assert rest[j'] == maps[j];
    assert forall i :: 0 <= i < |rest| ==> rest[i] == maps[if i < k then i else i + 1];
    assert forall i :: 0 <= i < j' ==> !Covers(rest[i], h.phys, h.size);
  }

  // ------------------------------------------------------- acquire and release

  lemma CountedSnoc(held: seq<Ref>, h: Ref)
    ensures forall id :: Outstanding(held + [h], id) == Outstanding(held, id) + if h.id == id then 1 else 0
  {
    forall id ensures Outstanding(held + [h], id) == Outstanding(held, id) + if h.id == id then 1 else 0 {
      OutstandingConcat(held, [h], id);
      assert [h][1..] == [];
    }
  }

  lemma AllAnchoredLayout(a: seq<Mapping>, b: seq<Mapping>, held: seq<Ref>)
    requires SameLayout(a, b) && AllAnchored(a, held)
    ensures AllAnchored(b, held)
  {
    forall j | 0 <= j < |held| ensures Anchored(b, held[j]) { AnchoredLayout(a, b, held[j]); }
  }

  lemma TakeLaw(c: Cache, held: seq<Ref>, k: nat, h: Ref)
    requires Balanced(c, held) && k < |c.maps| && h.id == c.maps[k].id && Anchored(c.maps, h)
    ensures Balanced(Take(c, k), held + [h])
  {
    CountedSnoc(held, h);
    AllAnchoredLayout(c.maps, Take(c, k).maps, held + [h]);
  }

  lemma GetLaw(c: Cache, held: seq<Ref>, phys: nat, size: nat)
    requires Balanced(c, held) && GetIomem(c, phys, size).1.Some?
    ensures var (c1, ref) := GetIomem(c, phys, size);
            Balanced(c1, held + [ref.value])
  {
    TakeLaw(c, held, Find(c.maps, phys, size, 0), GetIomem(c, phys, size).1.value);
  }

  /** A new mapping is placed apart from the live ones. */
  predicate Placed(c: Cache, phys: nat, size: nat, virt: nat) {
    forall i :: 0 <= i < |c.maps| ==> Apart(c.maps[i], Fresh(c, phys, size, virt))
  }

  lemma {:induction false} OutstandingNone(held: seq<Ref>, id: nat)
    requires forall j :: 0 <= j < |held| ==> held[j].id != id
    ensures Outstanding(held, id) == 0
  {
    if held != [] { OutstandingNone(held[1..], id); }
  }

  lemma AppendAnchored(maps: seq<Mapping>, held: seq<Ref>, m: Mapping, h: Ref)
    requires AllAnchored(maps, held)
    requires forall i :: 0 <= i < |maps| ==> !Covers(maps[i], h.phys, h.size)
    requires Covers(m, h.phys, h.size) && h.id == m.id && h.virt == Translate(m, h.phys)
    ensures AllAnchored(maps + [m], held + [h])
  {
    forall j | 0 <= j < |held| ensures Anchored(maps + [m], held[j]) { AnchoredAppend(maps, m, held[j]); }
    var k := Find(maps + [m], h.phys, h.size, 0);
    assert forall j :: 0 <= j < |maps| ==> (maps + [m])[j] == maps[j];
    assert (maps + [m])[|maps|] == m;
  }

  lemma AppendCounted(maps: seq<Mapping>, held: seq<Ref>, m: Mapping, h: Ref)
    requires Counted(maps, held) && AllAnchored(maps, held) && h.id == m.id && m.refcount == 1
    requires forall i :: 0 <= i < |maps| ==> maps[i].id != m.id
    ensures Counted(maps + [m], held + [h])
  {
    forall j | 0 <= j < |held| ensures held[j].id != m.id { assert Anchored(maps, held[j]); }
    OutstandingNone(held, m.id);
    CountedSnoc(held, h);
  }

  lemma MapLaw(c: Cache, held: seq<Ref>, phys: nat, size: nat, io: Option<nat>)
    requires Balanced(c, held) && MapMemory(c, phys, size, io).1.Some?
    requires io.Some? ==> Placed(c, phys, size, io.value)
    ensures var (c1, ref) := MapMemory(c, phys, size, io);
            Balanced(c1, held + [ref.value])
  {
    if Find(c.maps, phys, size, 0) < |c.maps| {
      GetLaw(c, held, phys, size);
    } else {
      var m, h := Fresh(c, phys, size, io.value), MapMemory(c, phys, size, io).1.value;
      AppendAnchored(c.maps, held, m, h);
      AppendCounted(c.maps, held, m, h);
    }
  }

  lemma {:induction false} OutstandingIn(held: seq<Ref>, j: nat)
    requires j < |held|
    ensures Outstanding(held, held[j].id) >= 1
  {
    if j > 0 { OutstandingIn(held[1..], j - 1); }
  }

  function Cut(maps: seq<Mapping>, k: nat): (rest: seq<Mapping>)
    requires k < |maps|
    ensures |rest| == |maps| - 1
    ensures forall n :: 0 <= n < |rest| ==> rest[n] == maps[if n < k then n else n + 1]
  {
    maps[..k] + maps[k + 1..]
  }

  /** Taking a mapping without references off the list disturbs no reference. */
  lemma CutAnchored(maps: seq<Mapping>, held: seq<Ref>, k: nat)
    requires k < |maps| && AllAnchored(maps, held) && Outstanding(held, maps[k].id) == 0
    ensures AllAnchored(Cut(maps, k), held)
  {
    forall j | 0 <= j < |held| ensures Anchored(Cut(maps, k), held[j]) {
      OutstandingIn(held, j);
      assert Anchored(maps, held[j]);
      AnchoredRemove(maps, k, held[j]);
    }
  }

  lemma CutProper(c: Cache, k: nat)
    requires k < |c.maps| && Proper(c)
    ensures Proper(c.(maps := Cut(c.maps, k)))
  {
    var maps := Cut(c.maps, k);
    forall i, j | 0 <= i < j < |maps|
      ensures maps[i].id != maps[j].id && Apart(maps[i], maps[j])
    {
      assert maps[i] == c.maps[if i < k then i else i + 1];
      assert maps[j] == c.maps[if j < k then j else j + 1];
    }
  }

  lemma CutCounted(c: Cache, held: seq<Ref>, k: nat)
    requires k < |c.maps| && Proper(c)
    requires forall i :: 0 <= i < |c.maps| && i != k ==> c.maps[i].refcount == Outstanding(held, c.maps[i].id) >= 1
    ensures Counted(Cut(c.maps, k), held)
  {
  }

  lemma WithoutAnchored(maps: seq<Mapping>, held: seq<Ref>, i: nat)
    requires AllAnchored(maps, held) && i < |held|
    ensures AllAnchored(maps, Without(held, i))
    ensures forall id :: Outstanding(held, id) == Outstanding(Without(held, i), id) + if held[i].id == id then 1 else 0
  {
    var held1 := Without(held, i);
    assert forall j :: 0 <= j < |held1| ==> held1[j] == held[if j < i then j else j + 1];
    forall id ensures Outstanding(held, id) == Outstanding(held1, id) + if held[i].id == id then 1 else 0 {
      OutstandingWithout(held, i, id);
    }
  }

  lemma DropLast(c: Cache, held: seq<Ref>, k: nat, i: nat)
    requires Balanced(c, held) && i < |held| && k < |c.maps| && c.maps[k].id == held[i].id && c.maps[k].refcount == 1
    ensures Balanced(Drop(c, k), Without(held, i))
  {
    WithoutAnchored(c.maps, held, i);
    CutAnchored(c.maps, Without(held, i), k);
    CutProper(c, k);
    CutCounted(c, Without(held, i), k);
  }

  lemma DropBalanced(c: Cache, held: seq<Ref>, k: nat, i: nat)
    requires Balanced(c, held) && i < |held| && k < |c.maps| && c.maps[k].id == held[i].id
    ensures Balanced(Drop(c, k), Without(held, i))
  {
    if c.maps[k].refcount == 1 {
      DropLast(c, held, k, i);
    } else {
      WithoutAnchored(c.maps, held, i);
      AllAnchoredLayout(c.maps, Drop(c, k).maps, Without(held, i));
    }
  }

  /** The mapping a reference is on is the one a physical lookup finds, even where ranges overlap. */
  lemma FoundByPhys(c: Cache, held: seq<Ref>, i: nat)
    requires Balanced(c, held) && i < |held|
    ensures var k := Find(c.maps, held[i].phys, held[i].size, 0);
            k < |c.maps| && c.maps[k].id == held[i].id && held[i].virt == Translate(c.maps[k], held[i].phys)
  {
    assert Anchored(c.maps, held[i]);
  }

  /** No mapping before the one a reference is on reaches the pointer; only pointers to empty ranges can fail this. */
  predicate Clear(maps: seq<Mapping>, h: Ref) {
    h.size > 0 || forall n :: 0 <= n < Find(maps, h.phys, h.size, 0) ==> !(maps[n].virt <= h.virt <= maps[n].virt + maps[n].size)
  }

  /** A lookup of the held pointer finds that mapping, too, exactly when no earlier mapping reaches the pointer. */
  lemma FoundByVirt(c: Cache, held: seq<Ref>, i: nat)
    requires Balanced(c, held) && i < |held|
    ensures FindVirt(c.maps, held[i].virt, held[i].size, 0) == Find(c.maps, held[i].phys, held[i].size, 0)
            <==> Clear(c.maps, held[i])
    ensures held[i].size > 0 ==> Clear(c.maps, held[i])
  {
    FoundByPhys(c, held, i);
    var k := Find(c.maps, held[i].phys, held[i].size, 0);
    var j := FindVirt(c.maps, held[i].virt, held[i].size, 0);
    assert CoversVirt(c.maps[k], held[i].virt, held[i].size);
    assert j <= k;
    assert forall n :: 0 <= n < k ==> Apart(c.maps[n], c.maps[k]);
  }

  /** Unmapping a held pointer drops the very mapping it was acquired on. */
  lemma UnmapLaw(c: Cache, held: seq<Ref>, i: nat)
    requires Balanced(c, held) && i < |held| && Clear(c.maps, held[i])
    ensures var k := Find(c.maps, held[i].phys, held[i].size, 0);
            && k < |c.maps| && c.maps[k].id == held[i].id
            && UnmapMemory(c, held[i].virt, held[i].size) == Drop(c, k)
            && Balanced(Drop(c, k), Without(held, i))
  {
    FoundByPhys(c, held, i);
    FoundByVirt(c, held, i);
    DropBalanced(c, held, Find(c.maps, held[i].phys, held[i].size, 0), i);
  }

  /** Unmapping a generic address drops the very mapping that mapping it acquired, whatever its range. */
  lemma UnmapGenericLaw(c: Cache, held: seq<Ref>, i: nat, gas: GenericAddress)
    requires Balanced(c, held) && i < |held| && gas.inMemory && gas.address > 0 && gas.bitWidth > 0
    requires held[i].phys == gas.address && held[i].size == gas.bitWidth / 8
    ensures Balanced(UnmapGeneric(c, gas), Without(held, i))
  {
    FoundByPhys(c, held, i);
    DropBalanced(c, held, Find(c.maps, held[i].phys, held[i].size, 0), i);
  }

  /** Dropping a mapping the reference is not on unbalances the books. */
  lemma WrongDrop(c: Cache, held: seq<Ref>, i: nat, j: nat)
    requires Balanced(c, held) && i < |held| && j < |c.maps| && c.maps[j].id != held[i].id
    ensures !Balanced(Drop(c, j), Without(held, i))
  {
    var id := c.maps[j].id;
    OutstandingWithout(held, i, id);
    if c.maps[j].refcount > 1 {
      assert Drop(c, j).maps[j].refcount != Outstanding(Without(held, i), id);
    } else {
      var x := OutstandingWitness(Without(held, i), id);
      var rest := Cut(c.maps, j);
      var k := Find(rest, Without(held, i)[x].phys, Without(held, i)[x].size, 0);
      assert k < |rest| ==> rest[k] == c.maps[if k < j then k else k + 1];
      assert !Anchored(rest, Without(held, i)[x]);
    }
  }

  /** Unmapping a held pointer keeps the ledger balanced exactly when no earlier mapping reaches the pointer. */
  lemma UnmapExactlyWhenClear(c: Cache, held: seq<Ref>, i: nat)
    requires Balanced(c, held) && i < |held|
    ensures Balanced(UnmapMemory(c, held[i].virt, held[i].size), Without(held, i)) <==> Clear(c.maps, held[i])
  {
    if Clear(c.maps, held[i]) {
      UnmapLaw(c, held, i);
    } else {
      FoundByPhys(c, held, i);
      FoundByVirt(c, held, i);
      var k := Find(c.maps, held[i].phys, held[i].size, 0);
      var j := FindVirt(c.maps, held[i].virt, held[i].size, 0);
      assert CoversVirt(c.maps[k], held[i].virt, held[i].size);
      assert j < k && c.maps[j].id != c.maps[k].id;
      WrongDrop(c, held, i, j);
    }
  }

  /** One reference on each of two mappings. */
  lemma TwoCounted(maps: seq<Mapping>, held: seq<Ref>)
    requires |maps| == |held| == 2 && maps[0].id != maps[1].id
    requires forall i :: 0 <= i < 2 ==> maps[i].refcount == 1 && held[i].id == maps[i].id
    ensures Counted(maps, held)
  {
    assert held == [held[0]] + [held[1]];
    forall i | 0 <= i < 2 ensures Outstanding(held, maps[i].id) == 1 {
      OutstandingConcat([held[0]], [held[1]], maps[i].id);
    }
  }

  /**
    Two neighbouring mappings and a pointer to an empty range at the start of
    the second: unmapping the pointer drops the first.
    */
  lemma EmptyRangeMisses(c: Cache, held: seq<Ref>, a: Mapping, b: Mapping)
    requires c == Cache([a, b], 2) && a.id == 0 && b.id == 1 && a.refcount == b.refcount == 1
    requires a.size == b.size == PAGE_SIZE && a.virt > 0 && b.virt == a.virt + a.size && b.phys > a.phys + a.size
    requires held == [Ref(0, a.phys, 8, a.virt), Ref(1, b.phys, 0, b.virt)]
    ensures Balanced(c, held) && UnmapMemory(c, held[1].virt, held[1].size).maps == [b]
  {
    TwoCounted(c.maps, held);
    assert Find(c.maps, held[0].phys, held[0].size, 0) == 0;
    assert Find(c.maps, held[1].phys, held[1].size, 0) == 1;
    assert FindVirt(c.maps, held[1].virt, held[1].size, 0) == 0;
    assert Cut(c.maps, 0) == [b];
  }

  // --------------------------------------------------------------------- runs

  datatype Event =
    | Map(phys: nat, size: nat, io: Option<nat>)
    | Get(phys: nat, size: nat)
    | GenericMap(gas: GenericAddress, io: Option<nat>)
    | Unmap(i: nat)
    | GenericUnmap(i: nat, bitWidth: nat)

  datatype World = World(cache: Cache, held: seq<Ref>)

  function Record(w: World, c: Cache, ref: Option<Ref>): World {
    World(c, w.held + if ref.Some? then [ref.value] else [])
  }

  /** A client step; what is released is a reference the client holds. */
  function Step(w: World, e: Event): World {
    match e
    case Map(phys, size, io) => var (c, ref) := MapMemory(w.cache, phys, size, io); Record(w, c, ref)
    case Get(phys, size) => var (c, ref) := GetIomem(w.cache, phys, size); Record(w, c, ref)
    case GenericMap(gas, io) => var (c, _, ref) := MapGeneric(w.cache, gas, io); Record(w, c, ref)
    case Unmap(i) =>
      if i >= |w.held| then w
      else World(UnmapMemory(w.cache, w.held[i].virt, w.held[i].size), Without(w.held, i))
    case GenericUnmap(i, width) =>
      if i >= |w.held| then w
      else World(UnmapGeneric(w.cache, GenericAddress(true, w.held[i].phys, width)), Without(w.held, i))
  }

  /** What clients and the environment must respect: new ranges are apart, and a release names what was acquired. */
  predicate Allowed(w: World, e: Event) {
    match e
    case Map(phys, size, io) => io.Some? ==> Placed(w.cache, phys, size, io.value)
    case Get(_, _) => true
    case GenericMap(gas, io) => io.Some? ==> Placed(w.cache, gas.address, gas.bitWidth / 8, io.value)
    case Unmap(i) => i < |w.held| ==> Clear(w.cache.maps, w.held[i])
    case GenericUnmap(i, width) => i < |w.held| ==> w.held[i].phys > 0 && width > 0 && width / 8 == w.held[i].size
  }

  lemma StepBalanced(w: World, e: Event)
    requires Balanced(w.cache, w.held) && Allowed(w, e)
    ensures var w1 := Step(w, e);
            Balanced(w1.cache, w1.held)
  {
    assert w.held + [] == w.held;
    match e
    case Map(phys, size, io) =>
      if MapMemory(w.cache, phys, size, io).1.Some? { MapLaw(w.cache, w.held, phys, size, io); }
    case Get(phys, size) =>
      if GetIomem(w.cache, phys, size).1.Some? { GetLaw(w.cache, w.held, phys, size); }
    case GenericMap(gas, io) =>
      if MapGeneric(w.cache, gas, io).2.Some? { MapLaw(w.cache, w.held, gas.address, gas.bitWidth / 8, io); }
    case Unmap(i) =>
      if i < |w.held| { UnmapLaw(w.cache, w.held, i); }
    case GenericUnmap(i, width) =>
      if i < |w.held| {
        UnmapGenericLaw(w.cache, w.held, i, GenericAddress(true, w.held[i].phys, width));
      }
  }

  function Run(w: World, es: seq<Event>): World
    decreases |es|
  {
    if es == [] then w else Run(Step(w, es[0]), es[1..])
  }

  predicate AllowedRun(w: World, es: seq<Event>)
    decreases |es|
  {
    es == [] || (Allowed(w, es[0]) && AllowedRun(Step(w, es[0]), es[1..]))
  }

  /**
    Over every balanced run: each mapping's count is the number of references
    outstanding on it and at least one, and each reference sits on the first
    mapping covering its range and translates its own physical address.
    */
  lemma {:induction false} RunBalanced(w: World, es: seq<Event>)
    requires Balanced(w.cache, w.held) && AllowedRun(w, es)
    ensures var w1 := Run(w, es);
            Balanced(w1.cache, w1.held)
    decreases |es|
  {
    if es != [] {
      StepBalanced(w, es[0]);
      RunBalanced(Step(w, es[0]), es[1..]);
    }
  }

  lemma {:induction false} OutstandingWitness(held: seq<Ref>, id: nat) returns (j: nat)
    requires Outstanding(held, id) > 0
    ensures j < |held| && held[j].id == id
  {
    if held[0].id == id {
      j := 0;
    } else {
      j := OutstandingWitness(held[1..], id);
      j := j + 1;
    }
  }

  /** A mapping is on the list exactly as long as someone holds a reference on it. */
  lemma ListedExactlyWhileHeld(w: World, es: seq<Event>, id: nat)
    requires Balanced(w.cache, w.held) && AllowedRun(w, es)
    ensures var w1 := Run(w, es);
            (exists i :: 0 <= i < |w1.cache.maps| && w1.cache.maps[i].id == id)
            <==> (exists j :: 0 <= j < |w1.held| && w1.held[j].id == id)
  {
    RunBalanced(w, es);
    var w1 := Run(w, es);
    if i :| 0 <= i < |w1.cache.maps| && w1.cache.maps[i].id == id {
      var j := OutstandingWitness(w1.held, id);
    }
    if j :| 0 <= j < |w1.held| && w1.held[j].id == id {
      FoundByPhys(w1.cache, w1.held, j);
    }
  }
}
