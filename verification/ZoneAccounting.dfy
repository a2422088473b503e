/**
 Accounting of graphics memory in zones.

 A charge counts in one zone or in all of them.  The ledger of outstanding charges
 is what the counters stand for.
 */
module ZoneAccounting {
  import opened Base

  const ALLOC_RETRIES: nat := 4
  const PAGE_SIZE: nat := 4096
  const DMA32_PFN: nat := 0x0010_0000
  const U64: nat := 0x1_0000_0000_0000_0000

  datatype Zone = Zone(zoneMem: nat, emerMem: nat, maxMem: nat, swapLimit: nat, usedMem: nat)

  // `zone` is the single zone to charge, or None for all.
  datatype Charge = Charge(zone: Option<nat>, amount: nat)

  predicate Includes(zone: Option<nat>, i: nat) { zone == None || zone.value == i }

  // ---------------------------------------------------------------- the ledger

  // The sum of the outstanding charges that include zone i.
  function Outstanding(ledger: seq<Charge>, i: nat): (sum: nat) {
    if ledger == [] then 0
    else Outstanding(ledger[..|ledger| - 1], i)
         + if Includes(ledger[|ledger| - 1].zone, i) then ledger[|ledger| - 1].amount else 0
  }

  function Without(ledger: seq<Charge>, k: nat): seq<Charge>
    requires k < |ledger|
  {
    ledger[..k] + ledger[k + 1..]
  }

  lemma {:induction false} OutstandingConcat(a: seq<Charge>, b: seq<Charge>, i: nat)
    ensures Outstanding(a + b, i) == Outstanding(a, i) + Outstanding(b, i)
  {
    if b == [] {
      assert a + b == a;
    } else {
      var b' := b[..|b| - 1];
      OutstandingConcat(a, b', i);
      assert (a + b)[..|a + b| - 1] == a + b';
    }
  }

  lemma RefundOutstanding(ledger: seq<Charge>, k: nat, i: nat)
    requires k < |ledger|
    ensures Outstanding(ledger, i) ==
            Outstanding(Without(ledger, k), i) + if Includes(ledger[k].zone, i) then ledger[k].amount else 0
  {
    assert ledger == (ledger[..k] + [ledger[k]]) + ledger[k + 1..];
    OutstandingConcat(ledger[..k] + [ledger[k]], ledger[k + 1..], i);
    OutstandingConcat(ledger[..k], [ledger[k]], i);
    OutstandingConcat(ledger[..k], ledger[k + 1..], i);
  }

  predicate Limits(z: Zone) { z.maxMem <= z.emerMem <= z.zoneMem }

  // The counters are 64-bit words: they hold the sums modulo 2^64.
  ghost predicate Balanced(zones: seq<Zone>, ledger: seq<Charge>) {
    forall i :: 0 <= i < |zones| ==> Limits(zones[i]) && zones[i].usedMem == Outstanding(ledger, i) % U64
  }

  // ---------------------------------------------------------------- what the calls do

  function Limit(z: Zone, admin: bool): nat { if admin then z.emerMem else z.maxMem }

  ghost predicate Room(zones: seq<Zone>, zone: Option<nat>, admin: bool) {
    forall i :: 0 <= i < |zones| && Includes(zone, i) ==> zones[i].usedMem <= Limit(zones[i], admin)
  }

  // Nobody is held to a lower limit for being privileged.
  lemma AdminMayToo(zones: seq<Zone>, zone: Option<nat>)
    requires Room(zones, zone, false) && forall i :: 0 <= i < |zones| ==> Limits(zones[i])
    ensures Room(zones, zone, true)
  {
    forall i | 0 <= i < |zones| && Includes(zone, i) ensures zones[i].usedMem <= Limit(zones[i], true) {
      assert Limits(zones[i]) && zones[i].usedMem <= Limit(zones[i], false);
    }
  }

  // Every included zone is at most `amount` above its limit.
  ghost predicate Within(zones: seq<Zone>, zone: Option<nat>, admin: bool, amount: nat) {
    forall i :: 0 <= i < |zones| && Includes(zone, i) ==> zones[i].usedMem <= Limit(zones[i], admin) + amount
  }

  function Charged(zones: seq<Zone>, c: Charge): seq<Zone> {
    seq(|zones|, i requires 0 <= i < |zones| =>
      if Includes(c.zone, i) then zones[i].(usedMem := (zones[i].usedMem + c.amount) % U64) else zones[i])
  }

  function Refunded(zones: seq<Zone>, c: Charge): seq<Zone> {
    seq(|zones|, i requires 0 <= i < |zones| =>
      if Includes(c.zone, i) then zones[i].(usedMem := (zones[i].usedMem - c.amount) % U64) else zones[i])
  }

  lemma Modular(x: int, a: int)
    ensures (x % U64 + a) % U64 == (x + a) % U64 && (x % U64 - a) % U64 == (x - a) % U64
  {
  }

  lemma ChargeBalances(zones: seq<Zone>, ledger: seq<Charge>, c: Charge)
    requires Balanced(zones, ledger)
    ensures Balanced(Charged(zones, c), ledger + [c])
  {
    assert (ledger + [c])[..|ledger|] == ledger;
    forall i | 0 <= i < |zones| ensures Charged(zones, c)[i].usedMem == Outstanding(ledger + [c], i) % U64 {
      Modular(Outstanding(ledger, i), c.amount);
    }
  }

  lemma RefundBalances(zones: seq<Zone>, ledger: seq<Charge>, k: nat)
    requires Balanced(zones, ledger) && k < |ledger|
    ensures Balanced(Refunded(zones, ledger[k]), Without(ledger, k))
  {
    forall i | 0 <= i < |zones|
      ensures Refunded(zones, ledger[k])[i].usedMem == Outstanding(Without(ledger, k), i) % U64
    {
      RefundOutstanding(ledger, k, i);
      Modular(Outstanding(ledger, i), ledger[k].amount);
    }
  }

  datatype Attribute = Emer | MaxMem | Swap | Other

  // ttm_mem_zone_store: kibibytes, as a 64-bit number, at most the zone.
  function Stored(z: Zone, attr: Attribute, kib: nat): (r: Zone)
    ensures r.usedMem == z.usedMem && r.zoneMem == z.zoneMem
    ensures Limits(z) ==> Limits(r)
  {
    var bytes := kib * 1024 % U64;
    var v := if bytes > z.zoneMem then z.zoneMem else bytes;
    match attr
    case Emer => z.(emerMem := v, maxMem := if z.maxMem > v then v else z.maxMem)
    case MaxMem => z.(maxMem := v, emerMem := if z.emerMem < v then v else z.emerMem)
    case Swap => z.(swapLimit := v)
    case Other => z
  }

  // ttm_mem_zone_show, of a limit.
  function Shown(z: Zone, attr: Attribute): nat {
    match attr
    case Emer => z.emerMem / 1024
    case MaxMem => z.maxMem / 1024
    case Swap => z.swapLimit / 1024
    case Other => 0
  }

  // A limit reads back as it was written, cut to the size of the zone.  Writing one of the
  // other two moves it only if the order of the limits asks for it, and no further.
  lemma StoredIsShown(z: Zone, attr: Attribute, kib: nat)
    requires attr != Other && kib * 1024 < U64 && Limits(z)
    ensures Shown(Stored(z, attr, kib), attr) == if kib <= z.zoneMem / 1024 then kib else z.zoneMem / 1024
    ensures attr != Swap ==> Stored(z, attr, kib).swapLimit == z.swapLimit
    ensures attr == Swap ==> Stored(z, attr, kib) == z.(swapLimit := Stored(z, attr, kib).swapLimit)
    ensures attr == MaxMem && kib * 1024 <= z.emerMem ==> Stored(z, attr, kib).emerMem == z.emerMem
    ensures attr == MaxMem && kib * 1024 > z.emerMem ==> Stored(z, attr, kib).emerMem == Stored(z, attr, kib).maxMem
    ensures attr == Emer && kib * 1024 >= z.maxMem ==> Stored(z, attr, kib).maxMem == z.maxMem
    ensures attr == Emer && kib * 1024 < z.maxMem ==> Stored(z, attr, kib).maxMem == Stored(z, attr, kib).emerMem
  {
    var bytes := kib * 1024;
    assert bytes % U64 == bytes && bytes / 1024 == kib;
    if bytes > z.zoneMem {
      assert z.zoneMem / 1024 <= kib;
    } else {
      assert kib <= z.zoneMem / 1024;
    }
  }

  // ---------------------------------------------------------------- any run

  // A charge, a refund of an outstanding charge, or a write to a limit.
  datatype Event =
    | Reserve(c: Charge, admin: bool)
    | Refund(k: nat, c: Charge)
    | Store(i: nat, attr: Attribute, kib: nat)

  datatype State = State(zones: seq<Zone>, ledger: seq<Charge>)

  predicate Enabled(s: State, e: Event) {
    match e
    case Reserve(_, _) => true
    case Refund(k, c) => k < |s.ledger| && s.ledger[k] == c
    case Store(i, _, _) => i < |s.zones|
  }

  ghost function Apply(s: State, e: Event): State
    requires Enabled(s, e)
  {
    match e
    case Reserve(c, admin) =>
      if Room(s.zones, c.zone, admin) then State(Charged(s.zones, c), s.ledger + [c]) else s
    case Refund(k, c) => State(Refunded(s.zones, c), Without(s.ledger, k))
    case Store(i, attr, kib) => s.(zones := s.zones[i := Stored(s.zones[i], attr, kib)])
  }

  ghost predicate Runs(s: State, es: seq<Event>, t: State)
    decreases es
  {
    if es == [] then s == t else Enabled(s, es[0]) && Runs(Apply(s, es[0]), es[1..], t)
  }

  lemma {:induction false} RunsConcat(s: State, es: seq<Event>, t: State, fs: seq<Event>, u: State)
    requires Runs(s, es, t) && Runs(t, fs, u)
    ensures Runs(s, es + fs, u)
    decreases es
  {
    if es == [] {
      assert es + fs == fs;
    } else {
      RunsConcat(Apply(s, es[0]), es[1..], t, fs, u);
      assert (es + fs)[1..] == es[1..] + fs;
    }
  }

  lemma BalanceKept(s: State, e: Event)
    requires Balanced(s.zones, s.ledger) && Enabled(s, e)
    ensures var t := Apply(s, e); Balanced(t.zones, t.ledger) && |t.zones| == |s.zones|
  {
    match e {
      case Reserve(c, _) => ChargeBalances(s.zones, s.ledger, c);
      case Refund(k, _) => RefundBalances(s.zones, s.ledger, k);
      case Store(_, _, _) =>
    }
  }

  // After any run of charges, refunds and limit writes, each counter is the sum of the
  // outstanding charges that include its zone, and the limits are ordered.
  lemma {:induction false} LedgerExact(s: State, es: seq<Event>, t: State)
    requires Balanced(s.zones, s.ledger) && Runs(s, es, t)
    ensures Balanced(t.zones, t.ledger) && |t.zones| == |s.zones|
    ensures forall i :: 0 <= i < |t.zones| && Outstanding(t.ledger, i) < U64 ==>
                          t.zones[i].usedMem == Outstanding(t.ledger, i)
    decreases es
  {
    if es != [] {
      BalanceKept(s, es[0]);
      LedgerExact(Apply(s, es[0]), es[1..], t);
    }
  }

  // Ordinary callers charge at most `most` at a time, and refund.
  predicate Ordinary(e: Event, most: nat) {
    match e
    case Reserve(c, admin) => !admin && c.amount <= most
    case Refund(_, _) => true
    case Store(_, _, _) => false
  }

  // No zone holds more than one charge above the limit of ordinary callers.
  ghost predicate OneChargeAbove(s: State, most: nat) {
    forall i :: 0 <= i < |s.zones| ==>
      s.zones[i].maxMem + most < U64 && Outstanding(s.ledger, i) <= s.zones[i].maxMem + most
  }

  lemma OneChargeKept(s: State, e: Event, most: nat)
    requires Balanced(s.zones, s.ledger) && OneChargeAbove(s, most) && Enabled(s, e) && Ordinary(e, most)
    ensures var t := Apply(s, e);
            && OneChargeAbove(t, most) && |t.zones| == |s.zones|
            && forall i :: 0 <= i < |s.zones| ==> t.zones[i].maxMem == s.zones[i].maxMem
  {
    var t := Apply(s, e);
    forall i | 0 <= i < |t.zones|
      ensures t.zones[i].maxMem == s.zones[i].maxMem && Outstanding(t.ledger, i) <= s.zones[i].maxMem + most
    {
      if e.Refund? {
        RefundOutstanding(s.ledger, e.k, i);
      } else if Room(s.zones, e.c.zone, false) {
        assert (s.ledger + [e.c])[..|s.ledger|] == s.ledger;
        assert s.zones[i].usedMem == Outstanding(s.ledger, i);
      }
    }
  }

  // Over any run in which only ordinary callers charge and no limit is written, no zone goes
  // more than one charge above the limit for ordinary callers.
  lemma {:induction false} OrdinaryStaysWithin(s: State, es: seq<Event>, t: State, most: nat)
    requires Balanced(s.zones, s.ledger) && OneChargeAbove(s, most) && Runs(s, es, t)
    requires forall k :: 0 <= k < |es| ==> Ordinary(es[k], most)
    ensures |t.zones| == |s.zones|
    ensures forall i :: 0 <= i < |t.zones| ==>
              t.zones[i].maxMem == s.zones[i].maxMem && t.zones[i].usedMem <= s.zones[i].maxMem + most
    decreases es
  {
    if es != [] {
      BalanceKept(s, es[0]);
      OneChargeKept(s, es[0], most);
      OrdinaryStaysWithin(Apply(s, es[0]), es[1..], t, most);
    }
  }

  // A run that ends with nothing outstanding leaves every counter at zero.
  lemma AllRefunded(s: State, es: seq<Event>, t: State)
    requires Balanced(s.zones, s.ledger) && Runs(s, es, t) && t.ledger == []
    ensures forall i :: 0 <= i < |t.zones| ==> t.zones[i].usedMem == 0
  {
    LedgerExact(s, es, t);
  }

  // ---------------------------------------------------------------- set-up

  // The kernel zone of ttm_mem_init_kernel_zone and the highmem zone of ttm_mem_init_highmem_zone.
  function KernelZone(mem: nat): Zone { Zone(mem, mem - mem / 16, mem - mem / 16, mem - mem / 16, 0) }

  function HighmemZone(mem: nat): Zone { Zone(mem, mem / 2 + mem / 4, mem / 2, mem / 2 - mem / 8, 0) }

  lemma NewLimits(mem: nat)
    ensures Limits(KernelZone(mem)) && Limits(HighmemZone(mem))
  {
  }

  lemma StartsBalanced(zones: seq<Zone>)
    requires forall i :: 0 <= i < |zones| ==> exists mem :: zones[i] == KernelZone(mem) || zones[i] == HighmemZone(mem)
    ensures Balanced(zones, [])
  {
    forall i | 0 <= i < |zones| ensures Limits(zones[i]) && zones[i].usedMem == 0 {
      var mem :| zones[i] == KernelZone(mem) || zones[i] == HighmemZone(mem);
      NewLimits(mem);
    }
  }

  // ---------------------------------------------------------------- the code

  // Which zone a page is charged to; the indices are those of the zones that exist.
  datatype Config = Config(highmem: Option<nat>, dma32: Option<nat>, kernel: nat)

  function PageZone(g: Config, isHighmem: bool, pfn: nat): Option<nat> {
    if g.highmem.Some? then (if isHighmem then g.highmem else None)
    else if g.dma32.Some? && pfn > DMA32_PFN then Some(g.kernel) else None
  }

  // A page of high memory counts there only.  Without high memory, a page counts in the
  // DMA32 zone exactly if it starts at or below 4 GiB, and always in the kernel zone.
  lemma PageZones(g: Config, isHighmem: bool, pfn: nat, i: nat)
    ensures g.highmem.Some? && isHighmem ==> (Includes(PageZone(g, isHighmem, pfn), i) <==> i == g.highmem.value)
    ensures g.highmem.Some? && !isHighmem ==> Includes(PageZone(g, isHighmem, pfn), i)
    ensures g.highmem == None ==>
              (Includes(PageZone(g, isHighmem, pfn), i) <==> g.dma32 == None || i == g.kernel || pfn * PAGE_SIZE <= 0x1_0000_0000)
  {
    assert pfn * PAGE_SIZE <= 0x1_0000_0000 <==> pfn <= DMA32_PFN;
  }

  class MemGlobal {
    const zones: array<Zone>
    const config: Config
    ghost var ledger: seq<Charge>

    ghost predicate Valid()
      reads this, zones
    {
      Balanced(zones[..], ledger)
    }

    ghost function Abs(): State
      reads this, zones
    {
      State(zones[..], ledger)
    }

    // ttm_mem_global_free_zone, for a charge that is outstanding.
    method FreeZone(zone: Option<nat>, amount: nat, ghost k: nat)
      requires Valid() && k < |ledger| && ledger[k] == Charge(zone, amount)
      modifies this`ledger, zones
      ensures Valid() && Abs() == State(Refunded(old(zones[..]), Charge(zone, amount)), Without(old(ledger), k))
    {
      for i := 0 to zones.Length
        invariant forall k :: 0 <= k < zones.Length ==>
                    zones[k] == if k < i then Refunded(old(zones[..]), Charge(zone, amount))[k] else old(zones[k])
        invariant ledger == old(ledger)
      {
        if zone.Some? && zone.value != i { continue; }
        zones[i] := zones[i].(usedMem := (zones[i].usedMem - amount) % U64);
      }
      assert zones[..] == Refunded(old(zones[..]), Charge(zone, amount));
      RefundBalances(old(zones[..]), ledger, k);
      ledger := Without(ledger, k);
    }

    // The first loop of ttm_mem_global_reserve.
    method HasRoom(zone: Option<nat>, admin: bool) returns (ok: bool)
      ensures ok <==> Room(zones[..], zone, admin)
      ensures !admin ==> (ok <==> forall i :: 0 <= i < zones.Length && Includes(zone, i) ==> zones[i].usedMem <= zones[i].maxMem)
      ensures admin ==> (ok <==> forall i :: 0 <= i < zones.Length && Includes(zone, i) ==> zones[i].usedMem <= zones[i].emerMem)
    {
      for i := 0 to zones.Length
        invariant forall k :: 0 <= k < i && Includes(zone, k) ==> zones[k].usedMem <= Limit(zones[k], admin)
      {
        if zone.Some? && zone.value != i { continue; }
        if zones[i].usedMem > Limit(zones[i], admin) {
          assert zones[..][i] == zones[i];
          return false;
        }
      }
      return true;
    }

    // The second loop.
    method ChargeAll(zone: Option<nat>, amount: nat)
      modifies zones
      ensures zones[..] == Charged(old(zones[..]), Charge(zone, amount))
    {
      for i := 0 to zones.Length
        invariant forall k :: 0 <= k < zones.Length ==>
                    zones[k] == if k < i then Charged(old(zones[..]), Charge(zone, amount))[k] else old(zones[k])
      {
        if zone.Some? && zone.value != i { continue; }
        zones[i] := zones[i].(usedMem := (zones[i].usedMem + amount) % U64);
      }
    }

    // ttm_mem_global_reserve: all included zones or none.
    method Reserve(zone: Option<nat>, amount: nat, admin: bool, reserve: bool) returns (ok: bool)
      requires Valid()
      modifies this`ledger, zones
      ensures Valid()
      ensures ok <==> old(Room(zones[..], zone, admin))
      ensures !admin ==> (ok <==> forall i :: 0 <= i < zones.Length && Includes(zone, i) ==> old(zones[i].usedMem <= zones[i].maxMem))
      ensures admin ==> (ok <==> forall i :: 0 <= i < zones.Length && Includes(zone, i) ==> old(zones[i].usedMem <= zones[i].emerMem))
      ensures ledger == if ok && reserve then old(ledger) + [Charge(zone, amount)] else old(ledger)
      ensures zones[..] == if ok && reserve then Charged(old(zones[..]), Charge(zone, amount)) else old(zones[..])
      ensures ok && reserve ==> Within(zones[..], zone, admin, amount)
    {
      ok := HasRoom(zone, admin);
      if ok && reserve {
        ChargeBalances(zones[..], ledger, Charge(zone, amount));
        ChargeAll(zone, amount);
        ledger := ledger + [Charge(zone, amount)];
      }
    }

    // What happens while a charge waits in ttm_shrink: buffers are swapped out and their
    // charges refunded, and other threads charge, refund and write limits.
    method Meanwhile(es: seq<Event>, ghost t: State)
      requires Valid() && Runs(Abs(), es, t)
      modifies this`ledger, zones
      ensures Valid() && Abs() == t
    {
      assert es[0..] == es;
      for k := 0 to |es|
        invariant Valid() && Runs(Abs(), es[k..], t)
      {
        assert es[k..][1..] == es[k + 1..];
        match es[k] {
          case Reserve(c, admin) => var _ := Reserve(c.zone, c.amount, admin, true);
          case Refund(i, c) => FreeZone(c.zone, c.amount, i);
          case Store(i, attr, kib) => StoreLimit(i, attr, kib);
        }
      }
    }

    // ttm_mem_global_alloc_zone.  After r rounds of other activity, which lead to `before`,
    // the charge is made exactly if there is room then; it is given up without waiting, or
    // after all retries.
    method AllocZone(zone: Option<nat>, memory: nat, noWait: bool, admin: bool, meanwhile: seq<seq<Event>>)
      returns (ok: bool, ghost r: nat, ghost before: State)
      requires Valid() && |meanwhile| == ALLOC_RETRIES && CanHappen(Abs(), zone, admin, meanwhile)
      modifies this`ledger, zones
      ensures Valid() && r <= ALLOC_RETRIES && Runs(old(Abs()), Flat(meanwhile[..r]), before)
      ensures ok <==> Room(before.zones, zone, admin)
      ensures Abs() == if ok then State(Charged(before.zones, Charge(zone, memory)), before.ledger + [Charge(zone, memory)])
                       else before
      ensures ok ==> Within(zones[..], zone, admin, memory)
      ensures noWait ==> r == 0
      ensures !ok && !noWait ==> r == ALLOC_RETRIES
    {
      var count := ALLOC_RETRIES;
      r, before := 0, Abs();
      assert meanwhile[0..] == meanwhile;
      while true
        invariant 0 <= count == ALLOC_RETRIES - r && Valid() && before == Abs()
        invariant Runs(old(Abs()), Flat(meanwhile[..r]), before) && CanHappen(before, zone, admin, meanwhile[r..])
        invariant noWait ==> r == 0
        decreases count
      {
        ok := Reserve(zone, memory, admin, true);
        if ok || noWait || count == 0 { return; }
        count := count - 1;
        ghost var t := Happens(old(Abs()), before, zone, admin, meanwhile, r);
        Meanwhile(meanwhile[ALLOC_RETRIES - count - 1], t);
        r, before := r + 1, t;
      }
    }

    // ttm_mem_global_alloc_page and ttm_mem_global_free_page choose the same zones.
    method AllocPage(isHighmem: bool, pfn: nat, noWait: bool, admin: bool, meanwhile: seq<seq<Event>>)
      returns (ok: bool, ghost r: nat, ghost before: State)
      requires Valid() && |meanwhile| == ALLOC_RETRIES
      requires CanHappen(Abs(), PageZone(config, isHighmem, pfn), admin, meanwhile)
      modifies this`ledger, zones
      ensures Valid() && r <= ALLOC_RETRIES && Runs(old(Abs()), Flat(meanwhile[..r]), before)
      ensures Abs() == if ok then State(Charged(before.zones, PageCharge(config, isHighmem, pfn)),
                                        before.ledger + [PageCharge(config, isHighmem, pfn)])
                       else before
    {
      var zone := None;
      if config.highmem.Some? {
        if isHighmem { zone := config.highmem; }
      } else if config.dma32.Some? && pfn > DMA32_PFN {
        zone := Some(config.kernel);
      }
      ok, r, before := AllocZone(zone, PAGE_SIZE, noWait, admin, meanwhile);
    }

    method FreePage(isHighmem: bool, pfn: nat, ghost k: nat)
      requires Valid() && k < |ledger| && ledger[k] == PageCharge(config, isHighmem, pfn)
      modifies this`ledger, zones
      ensures Valid() && Abs() == State(Refunded(old(zones[..]), PageCharge(config, isHighmem, pfn)), Without(old(ledger), k))
    {
      var zone := None;
      if config.highmem.Some? && isHighmem { zone := config.highmem; }
      if config.highmem == None && config.dma32.Some? && pfn > DMA32_PFN { zone := Some(config.kernel); }
      FreeZone(zone, PAGE_SIZE, k);
    }

    // ttm_mem_zone_store
    method StoreLimit(i: nat, attr: Attribute, kib: nat)
      requires Valid() && i < zones.Length
      modifies zones
      ensures Valid() && zones[..] == old(zones[..])[i := Stored(old(zones[i]), attr, kib)]
    {
      var val := kib * 1024 % U64;
      var zone := zones[i];
      if val > zone.zoneMem { val := zone.zoneMem; }
      if attr == Emer {
        zone := zone.(emerMem := val);
        if zone.maxMem > val { zone := zone.(maxMem := val); }
      } else if attr == MaxMem {
        zone := zone.(maxMem := val);
        if zone.emerMem < val { zone := zone.(emerMem := val); }
      } else if attr == Swap {
        zone := zone.(swapLimit := val);
      }
      zones[i] := zone;
    }
  }

  function PageCharge(g: Config, isHighmem: bool, pfn: nat): Charge { Charge(PageZone(g, isHighmem, pfn), PAGE_SIZE) }

  function Flat(rounds: seq<seq<Event>>): seq<Event> {
    if rounds == [] then [] else Flat(rounds[..|rounds| - 1]) + rounds[|rounds| - 1]
  }

  // The rounds are possible one after the other, as long as there is no room.
  ghost predicate CanHappen(s: State, zone: Option<nat>, admin: bool, rounds: seq<seq<Event>>)
    decreases rounds
  {
    || rounds == [] || Room(s.zones, zone, admin)
    || exists t :: Runs(s, rounds[0], t) && CanHappen(t, zone, admin, rounds[1..])
  }

  lemma Happens(s0: State, s: State, zone: Option<nat>, admin: bool, rounds: seq<seq<Event>>, r: nat) returns (t: State)
    requires r < |rounds| && Runs(s0, Flat(rounds[..r]), s) && CanHappen(s, zone, admin, rounds[r..])
    requires !Room(s.zones, zone, admin)
    ensures Runs(s, rounds[r], t) && Runs(s0, Flat(rounds[..r + 1]), t) && CanHappen(t, zone, admin, rounds[r + 1..])
  {
    assert rounds[r..][1..] == rounds[r + 1..] && rounds[..r + 1][..r] == rounds[..r];
    t :| Runs(s, rounds[r], t) && CanHappen(t, zone, admin, rounds[r..][1..]);
    RunsConcat(s0, Flat(rounds[..r]), s, rounds[r], t);
  }
}
