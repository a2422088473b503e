/**
 Where a buffer may live: the two-pass search for space, and the check whether the
 buffer already is somewhere acceptable.  The two are written independently; what
 the search finds must pass the check.

 A 32-bit flags word is the set of its bits: 0 to 15 name memory types, 16 to 18
 caching modes, the bits from 19 on are access flags.
 */
module Placement {
  import opened Base

  type Flags = set<nat>

  const SYSTEM: nat := 0
  const CACHED: nat := 16
  const UNCACHED: nat := 17
  const WC: nat := 18
  const CONTIGUOUS: nat := 19
  const MASK_CACHING: Flags := {CACHED, UNCACHED, WC}

  // `lpfn` zero means no upper limit.
  datatype Place = Place(fpfn: nat, lpfn: nat, flags: Flags)

  // `aliased`: both lists are prefixes of one array.
  datatype Request = Request(places: seq<Place>, busy: seq<Place>, aliased: bool)

  datatype Manager = Manager(hasType: bool, useType: bool, available: Flags, default: Flags)

  type Device = nat -> Manager

  // A region; `node` is the first page frame of its allocation, if it has one.
  datatype Region = Region(node: Option<nat>, memType: nat, placement: Flags, numPages: nat)

  // What an allocator call gives: an error, no room, or a node.
  datatype Found = Failure(code: int) | Full | Node(start: nat)

  // A round of the forced search: an allocation, and the error of the eviction that follows if it finds no room.
  datatype Round = Round(got: Found, evict: Option<int>)

  // Invalid and NoType are both -EINVAL: a place without memory type, and no usable compatible place.
  datatype Status = Success | Invalid | NoType | Failed(code: int) | NoMemory | Restart

  const EBUSY: int := -16
  const ERESTARTSYS: int := -512

  predicate InRange(place: Place, start: nat, numPages: nat) {
    place.fpfn <= start && (place.lpfn != 0 ==> start + numPages <= place.lpfn)
  }

  // Allocators return nodes inside the range they were asked for; errors are not zero.
  predicate Honest(place: Place, numPages: nat, got: Found) {
    match got
    case Node(start) => InRange(place, start, numPages)
    case Failure(code) => code != 0
    case Full => true
  }

  predicate HonestRound(place: Place, numPages: nat, r: Round) {
    Honest(place, numPages, r.got) && (r.evict.Some? ==> r.evict.value != 0)
  }

  predicate Usable(man: Manager) { man.hasType && man.useType }

  // ---------------------------------------------------------------- flags

  function MemBits(f: Flags): Flags { set b | b in f && b < 16 }

  function AccessBits(f: Flags): Flags { set b | b in f && b >= 19 }

  // ttm_flag_masked on everything but memory type and caching.
  function WithAccess(f: Flags, g: Flags): Flags { (f - AccessBits(f)) + AccessBits(g) }

  // ttm_mem_type_from_place: the lowest memory type named.
  function MemType(f: Flags, from: nat := 0): (t: Option<nat>)
    ensures t == None ==> forall b :: b in f && b < 16 ==> b < from
    ensures t.Some? ==> t.value in f && t.value < 16 && forall b :: b in f && from <= b ==> t.value <= b
    decreases 16 - from
  {
    if from >= 16 then None else if from in f then Some(from) else MemType(f, from + 1)
  }

  function SelectCaching(man: Manager, cur: Flags, proposed: Flags): Flags {
    var caching := proposed * MASK_CACHING;
    var result := proposed - MASK_CACHING;
    if cur * caching != {} then result + cur * caching
    else if man.default * caching != {} then result + man.default
    else if CACHED in caching then result + {CACHED}
    else if WC in caching then result + {WC}
    else if UNCACHED in caching then result + {UNCACHED}
    else result
  }

  // ttm_bo_mt_compatible
  function MtCompatible(man: Manager, memType: nat, place: Place): Option<Flags> {
    if memType !in place.flags || memType >= 16 then None
    else if place.flags * man.available == {} then None
    else Some({memType} + place.flags * man.available)
  }

  // The flags the search settles on for a place it chose.
  function Settled(man: Manager, cur: Flags, masked: Flags, place: Place): Flags {
    WithAccess(SelectCaching(man, cur, masked), place.flags)
  }

  ghost predicate SameAccess(f: Flags, g: Flags) { forall b :: b >= 19 ==> (b in f <==> b in g) }

  // Bit by bit, what a region in the given place is flagged with: the access flags of the
  // place, its memory type, and of the caching modes that place and manager both allow
  // those already in use, else the default, else the first of cached, write-combined and
  // uncached.
  ghost predicate TakesFlags(man: Manager, cur: Flags, memType: nat, place: Place, f: Flags) {
    var allowed := place.flags * man.available;
    && SameAccess(f, place.flags)
    && (forall b :: b < 16 ==> (b in f <==> b == memType))
    && f * MASK_CACHING == (if cur * allowed != {} then cur * allowed
                            else if man.default * allowed != {} then man.default
                            else if CACHED in allowed then {CACHED} else if WC in allowed then {WC} else {UNCACHED})
  }

  predicate OnlyCaching(man: Manager) { man.available <= MASK_CACHING && man.default <= MASK_CACHING }

  lemma SettledAccess(man: Manager, cur: Flags, masked: Flags, place: Place)
    ensures SameAccess(Settled(man, cur, masked, place), place.flags)
  {
  }

  // ---------------------------------------------------------------- the compatibility check

  predicate Fits(place: Place, mem: Region) {
    && (mem.node.Some? ==> InRange(place, mem.node.value, mem.numPages))
    && place.flags * mem.placement * MASK_CACHING != {}
    && MemBits(place.flags * mem.placement) != {}
    && (CONTIGUOUS in place.flags ==> CONTIGUOUS in mem.placement)
  }

  // The first place that fits, or the length of the list.
  function FirstFit(places: seq<Place>, mem: Region): (i: nat)
    ensures i <= |places|
    ensures i < |places| ==> Fits(places[i], mem)
    ensures forall j :: 0 <= j < i ==> !Fits(places[j], mem)
  {
    if places == [] then 0 else if Fits(places[0], mem) then 0 else 1 + FirstFit(places[1..], mem)
  }

  // ttm_bo_places_compat
  method PlacesCompat(places: seq<Place>, mem: Region) returns (ok: bool, newFlags: Flags)
    ensures ok <==> exists i :: 0 <= i < |places| && Fits(places[i], mem)
    ensures ok ==> FirstFit(places, mem) < |places| && newFlags == places[FirstFit(places, mem)].flags
  {
    newFlags := {};
    for i := 0 to |places|
      invariant forall j :: 0 <= j < i ==> !Fits(places[j], mem)
    {
      var heap := places[i];
      if mem.node.Some? && (mem.node.value < heap.fpfn || (heap.lpfn != 0 && mem.node.value + mem.numPages > heap.lpfn)) {
        continue;
      }
      newFlags := heap.flags;
      if && newFlags * mem.placement * MASK_CACHING != {}
         && MemBits(newFlags * mem.placement) != {}
         && (CONTIGUOUS !in newFlags || CONTIGUOUS in mem.placement)
      {
        FirstFitIs(places, mem, i);
        return true, newFlags;
      }
    }
    return false, newFlags;
  }

  lemma FirstFitIs(places: seq<Place>, mem: Region, i: nat)
    requires i < |places| && Fits(places[i], mem) && forall j :: 0 <= j < i ==> !Fits(places[j], mem)
    ensures FirstFit(places, mem) == i
  {
  }

  predicate WellFormed(req: Request) {
    req.aliased ==> req.busy <= req.places || req.places <= req.busy
  }

  ghost predicate Compatible(req: Request, mem: Region) {
    exists place :: (place in req.places || place in req.busy) && Fits(place, mem)
  }

  // ttm_bo_mem_compat: the busy list is skipped if it is the same array and not longer.
  method MemCompat(req: Request, mem: Region) returns (ok: bool, newFlags: Flags)
    requires WellFormed(req)
    ensures ok <==> Compatible(req, mem)
    ensures ok ==> newFlags == Chosen(req, mem)
  {
    ok, newFlags := PlacesCompat(req.places, mem);
    if ok { return; }
    if !req.aliased || |req.busy| > |req.places| {
      ok, newFlags := PlacesCompat(req.busy, mem);
    }
  }

  // The flags of the first fitting place, preferred places first.
  ghost function Chosen(req: Request, mem: Region): Flags {
    var i, j := FirstFit(req.places, mem), FirstFit(req.busy, mem);
    if i < |req.places| then req.places[i].flags
    else if j < |req.busy| then req.busy[j].flags else {}
  }

  // ---------------------------------------------------------------- the search

  predicate Candidate(dev: Device, place: Place) {
    var t := MemType(place.flags);
    t.Some? && Usable(dev(t.value)) && MtCompatible(dev(t.value), t.value, place).Some?
  }

  // The region has flags the place allows, and a node, if any, in its range.
  ghost predicate Flagged(dev: Device, cur: Flags, place: Place, mem: Region) {
    && Candidate(dev, place)
    && var t := MemType(place.flags).value;
    && mem.placement == Settled(dev(t), cur, MtCompatible(dev(t), t, place).value, place)
    && (mem.node.Some? ==> InRange(place, mem.node.value, mem.numPages))
  }

  // It is also of the memory type of the place, with a node unless that is the system type.
  ghost predicate Serves(dev: Device, cur: Flags, place: Place, mem: Region) {
    && Flagged(dev, cur, place, mem)
    && Some(mem.memType) == MemType(place.flags) && (mem.node == None <==> mem.memType == SYSTEM)
  }

  lemma SettledFlags(man: Manager, cur: Flags, memType: nat, place: Place)
    requires MtCompatible(man, memType, place).Some? && man.available <= MASK_CACHING
    ensures var f := Settled(man, cur, MtCompatible(man, memType, place).value, place);
            && place.flags * f * MASK_CACHING != {} && memType in f
            && (CONTIGUOUS in place.flags <==> CONTIGUOUS in f)
            && (man.default <= MASK_CACHING ==> TakesFlags(man, cur, memType, place, f))
  {
    var masked := MtCompatible(man, memType, place).value;
    var caching := masked * MASK_CACHING;
    var sel := SelectCaching(man, cur, masked);
    assert caching == place.flags * man.available;
    var b :| b in caching && b in sel;
    assert b in place.flags * WithAccess(sel, place.flags) * MASK_CACHING;
    SettledAccess(man, cur, masked, place);
    if man.default <= MASK_CACHING { SelectedCaching(man, cur, memType, place); }
  }

  lemma SelectedCaching(man: Manager, cur: Flags, memType: nat, place: Place)
    requires MtCompatible(man, memType, place).Some? && OnlyCaching(man)
    ensures TakesFlags(man, cur, memType, place, Settled(man, cur, MtCompatible(man, memType, place).value, place))
  {
    var masked := MtCompatible(man, memType, place).value;
    var allowed := place.flags * man.available;
    var sel := SelectCaching(man, cur, masked);
    var f := Settled(man, cur, masked, place);
    assert masked * MASK_CACHING == allowed && masked - MASK_CACHING == {memType};
    assert f * MASK_CACHING == sel * MASK_CACHING;
    assert forall b :: b < 16 ==> (b in f <==> b in sel);
    var modes := sel - {memType};
    assert sel == {memType} + modes && modes * MASK_CACHING == sel * MASK_CACHING;
    SettledAccess(man, cur, masked, place);
    if cur * allowed == {} && man.default * allowed == {} && CACHED !in allowed && WC !in allowed {
      var b :| b in allowed;
      assert b in MASK_CACHING;
    }
  }

  // The region the search answers with, bit by bit.
  lemma ElectedFlags(dev: Device, cur: Flags, numPages: nat, places: seq<Place>, got: seq<Found>, mem: Region, i: nat)
    requires |got| == |places| && Elects(dev, cur, numPages, places, got, mem, i) && forall t :: OnlyCaching(dev(t))
    ensures TakesFlags(dev(mem.memType), cur, mem.memType, places[i], mem.placement)
  {
    assert OnlyCaching(dev(mem.memType));
    SettledFlags(dev(mem.memType), cur, mem.memType, places[i]);
  }

  // What the search finds passes the check.
  lemma FlaggedFits(dev: Device, cur: Flags, place: Place, mem: Region)
    requires Flagged(dev, cur, place, mem) && forall t :: dev(t).available <= MASK_CACHING
    ensures Fits(place, mem)
  {
    var t := MemType(place.flags).value;
    SettledFlags(dev(t), cur, t, place);
    assert t in MemBits(place.flags * mem.placement);
  }

  // Evicting until a node is found: the first allocation that succeeds, or the first
  // error.  When nothing is left to evict, eviction answers -EBUSY.
  function Forced(rounds: seq<Round>): Found {
    if rounds == [] then Failure(EBUSY)
    else if rounds[0].got != Full then rounds[0].got
    else if rounds[0].evict.Some? then Failure(rounds[0].evict.value)
    else Forced(rounds[1..])
  }

  ghost function ForcedAll(rounds: seq<seq<Round>>): seq<Found> {
    seq(|rounds|, i requires 0 <= i < |rounds| => Forced(rounds[i]))
  }

  // ttm_bo_mem_force_space
  method ForceSpace(place: Place, numPages: nat, rounds: seq<Round>) returns (code: int, node: Option<nat>)
    requires forall r :: r in rounds ==> HonestRound(place, numPages, r)
    ensures match Forced(rounds)
            case Node(start) => code == 0 && node == Some(start) && InRange(place, start, numPages)
            case Failure(c) => c != 0 && code == c && node == None
            case Full => false
  {
    for i := 0 to |rounds|
      invariant Forced(rounds) == Forced(rounds[i..])
    {
      assert rounds[i] in rounds && rounds[i..][1..] == rounds[i + 1..];
      match rounds[i].got {
        case Failure(c) => return c, None;
        case Node(start) => return 0, Some(start);
        case Full =>
      }
      if rounds[i].evict.Some? { return rounds[i].evict.value, None; }
    }
    return EBUSY, None;
  }

  // The place can be had: it is usable, compatible, and the system type or with a node.
  predicate Available(dev: Device, place: Place, got: Found) {
    Candidate(dev, place) && (MemType(place.flags) == Some(SYSTEM) || got.Node?)
  }

  // None of the first n places can be had.
  ghost predicate NoneAvailable(dev: Device, places: seq<Place>, got: seq<Found>, n: nat)
    requires |got| == |places| >= n
  {
    forall j :: 0 <= j < n ==> !Available(dev, places[j], got[j])
  }

  ghost predicate Interrupted(dev: Device, places: seq<Place>, got: seq<Found>, n: nat)
    requires |got| == |places| >= n
  {
    exists k :: 0 <= k < n && Candidate(dev, places[k]) && got[k] == Failure(ERESTARTSYS)
  }

  // The region is the one for the first place that can be had.
  ghost predicate Elects(dev: Device, cur: Flags, numPages: nat, places: seq<Place>, got: seq<Found>, mem: Region, i: nat)
    requires |got| == |places|
  {
    && i < |places| && Available(dev, places[i], got[i]) && NoneAvailable(dev, places, got, i)
    && Serves(dev, cur, places[i], mem) && mem.numPages == numPages && SameAccess(mem.placement, places[i].flags)
    && (mem.memType != SYSTEM ==> got[i].Node? && mem.node == Some(got[i].start))
  }

  ghost predicate SomeElected(dev: Device, cur: Flags, numPages: nat, places: seq<Place>, got: seq<Found>, mem: Region)
    requires |got| == |places|
  {
    exists i: nat :: Elects(dev, cur, numPages, places, got, mem, i)
  }

  ghost predicate SomeFlagged(dev: Device, cur: Flags, places: seq<Place>, mem: Region) {
    exists place :: place in places && Flagged(dev, cur, place, mem) && SameAccess(mem.placement, place.flags)
  }

  ghost predicate NoCandidate(dev: Device, places: seq<Place>) {
    forall place :: place in places ==> !Candidate(dev, place)
  }

  ghost predicate SomeUntyped(places: seq<Place>) {
    exists place :: place in places && MemType(place.flags) == None
  }

  predicate UsableType(dev: Device, place: Place) {
    var t := MemType(place.flags);
    t.Some? && Usable(dev(t.value))
  }

  // The last of the first n places whose manager is usable is compatible.
  predicate LastUsableFits(dev: Device, places: seq<Place>, n: nat)
    requires n <= |places|
  {
    n > 0 && if UsableType(dev, places[n - 1]) then Candidate(dev, places[n - 1]) else LastUsableFits(dev, places, n - 1)
  }

  // The list ends in a system place whose manager is unusable, after one that is compatible.
  predicate Stale(dev: Device, places: seq<Place>) {
    && places != [] && MemType(places[|places| - 1].flags) == Some(SYSTEM) && !Usable(dev(SYSTEM))
    && LastUsableFits(dev, places, |places|)
  }

  // With such a list the first pass reports a region although no place can be had: here
  // VRAM is full and the system manager unusable.
  lemma StaleSuccess() returns (dev: Device, places: seq<Place>, found: seq<Found>)
    ensures |found| == |places| && NoneAvailable(dev, places, found, |places|) && Stale(dev, places)
  {
    dev := t => Manager(t == 2, t == 2, MASK_CACHING, {});
    places, found := [Place(0, 0, {2, CACHED}), Place(0, 0, {SYSTEM, CACHED})], [Full, Full];
    assert MemType({2, CACHED}, 0) == MemType({2, CACHED}, 1) == MemType({2, CACHED}, 2) == Some(2);
    assert CACHED in places[0].flags * dev(2).available;
    assert LastUsableFits(dev, places, 1);
  }

  // The first pass of ttm_bo_mem_space, which never evicts.  `typeFound` tells
  // whether a candidate was seen; success comes with a region if a place could be had.
  method FreeSpace(dev: Device, cur: Flags, numPages: nat, places: seq<Place>, found: seq<Found>)
    returns (ret: Status, mem: Option<Region>, typeFound: bool)
    requires |found| == |places| && forall i :: 0 <= i < |places| ==> Honest(places[i], numPages, found[i])
    ensures ret == Success || ret == Invalid || ret.Failed?
    ensures ret != Success ==> mem == None
    ensures ret == Success ==> (mem.Some? <==> !NoneAvailable(dev, places, found, |places|) || Stale(dev, places))
    ensures ret == Success && !NoneAvailable(dev, places, found, |places|) ==>
              SomeElected(dev, cur, numPages, places, found, mem.value)
    ensures mem.Some? ==> mem.value.numPages == numPages && SomeFlagged(dev, cur, places, mem.value)
    ensures ret == Success && mem == None ==> (!typeFound <==> NoCandidate(dev, places))
    ensures ret == Invalid ==> SomeUntyped(places)
    ensures ret.Failed? ==> exists i :: 0 <= i < |places| && Candidate(dev, places[i]) && found[i] == Failure(ret.code)
  {
    var memType, curFlags, typeOk := SYSTEM, {}, false;
    var node: Option<nat> := None;
    typeFound := false;
    for i := 0 to |places|
      invariant node == None
      invariant typeFound <==> !NoCandidate(dev, places[..i])
      invariant NoneAvailable(dev, places, found, i)
      invariant typeOk == LastUsableFits(dev, places, i)
      invariant typeOk ==> SomeFlagged(dev, cur, places, Region(None, memType, curFlags, numPages))
      invariant if i == 0 then memType == SYSTEM else MemType(places[i - 1].flags) == Some(memType)
    {
      var place := places[i];
      Prefix(dev, places, i);
      NoneMore(dev, places, found, i);
      var t := MemType(place.flags);
      if t == None { return Invalid, None, typeFound; }
      memType := t.value;
      var man := dev(memType);
      if !man.hasType || !man.useType { continue; }
      var masked := MtCompatible(man, memType, place);
      typeOk := masked.Some?;
      if !typeOk { continue; }
      typeFound := true;
      curFlags := Settled(man, cur, masked.value, place);
      SettledAccess(man, cur, masked.value, place);
      if memType == SYSTEM {
        assert Elects(dev, cur, numPages, places, found, Region(None, memType, curFlags, numPages), i);
        assert Flagged(dev, cur, place, Region(None, memType, curFlags, numPages));
        break;
      }
      match found[i] {
        case Failure(code) => return Failed(code), None, typeFound;
        case Node(start) =>
          node := Some(start);
          assert Elects(dev, cur, numPages, places, found, Region(node, memType, curFlags, numPages), i);
          break;
        case Full =>
      }
      assert Flagged(dev, cur, place, Region(None, memType, curFlags, numPages));
    }
    ret := Success;
    mem := if (typeOk && memType == SYSTEM) || node.Some? then Some(Region(node, memType, curFlags, numPages)) else None;
  }

  lemma NoneMore(dev: Device, places: seq<Place>, found: seq<Found>, i: nat)
    requires |found| == |places| > i && NoneAvailable(dev, places, found, i)
    ensures NoneAvailable(dev, places, found, i + 1) <==> !Available(dev, places[i], found[i])
  {
  }

  lemma Prefix(dev: Device, places: seq<Place>, i: nat)
    requires i < |places|
    ensures NoCandidate(dev, places[..i + 1]) <==> NoCandidate(dev, places[..i]) && !Candidate(dev, places[i])
  {
    assert places[..i + 1] == places[..i] + [places[i]];
    assert forall p :: p in places[..i + 1] <==> p in places[..i] || p == places[i];
  }

  // The second pass of ttm_bo_mem_space, which evicts.
  method BusySpace(dev: Device, cur: Flags, numPages: nat, places: seq<Place>, rounds: seq<seq<Round>>, found: bool)
    returns (ret: Status, mem: Option<Region>)
    requires |rounds| == |places|
    requires forall i, r :: 0 <= i < |places| && r in rounds[i] ==> HonestRound(places[i], numPages, r)
    ensures ret == Success <==> mem.Some?
    ensures mem.Some? ==> SomeElected(dev, cur, numPages, places, ForcedAll(rounds), mem.value)
    ensures mem.Some? ==> mem.value.numPages == numPages && SomeFlagged(dev, cur, places, mem.value)
    ensures ret == Invalid ==> SomeUntyped(places)
    ensures ret == NoType ==> !found && NoCandidate(dev, places)
    ensures ret == NoMemory || ret == Restart ==>
              NoneAvailable(dev, places, ForcedAll(rounds), |places|) && (found || !NoCandidate(dev, places))
    ensures ret == Restart ==> Interrupted(dev, places, ForcedAll(rounds), |places|)
    ensures ret == NoMemory ==> !Interrupted(dev, places, ForcedAll(rounds), |places|)
    ensures !ret.Failed?
  {
    ghost var got := ForcedAll(rounds);
    var typeFound, hasRestart := found, false;
    for i := 0 to |places|
      invariant typeFound <==> found || !NoCandidate(dev, places[..i])
      invariant NoneAvailable(dev, places, got, i)
      invariant hasRestart <==> Interrupted(dev, places, got, i)
    {
      var place := places[i];
      Prefix(dev, places, i);
      var t := MemType(place.flags);
      if t == None { return Invalid, None; }
      var man := dev(t.value);
      if !man.hasType || !man.useType { continue; }
      var masked := MtCompatible(man, t.value, place);
      if masked == None { continue; }
      typeFound := true;
      var curFlags := Settled(man, cur, masked.value, place);
      SettledAccess(man, cur, masked.value, place);
      if t.value == SYSTEM {
        mem := Some(Region(None, t.value, curFlags, numPages));
        assert Elects(dev, cur, numPages, places, got, mem.value, i);
        return Success, mem;
      }
      var code, node := ForceSpace(place, numPages, rounds[i]);
      if code == 0 {
        mem := Some(Region(node, t.value, curFlags, numPages));
        assert Elects(dev, cur, numPages, places, got, mem.value, i);
        return Success, mem;
      }
      if code == ERESTARTSYS { hasRestart := true; }
    }
    assert places[..|places|] == places;
    return if !typeFound then NoType else if hasRestart then Restart else NoMemory, None;
  }

  // Everything the allocators, the move and the set-up of a page array will answer.
  datatype World = World(found: seq<Found>, rounds: seq<seq<Round>>, moveError: int, ttmAfterMove: bool, ttmError: int)

  ghost predicate HonestWorld(req: Request, numPages: nat, w: World) {
    && |w.found| == |req.places| && |w.rounds| == |req.busy|
    && (forall i :: 0 <= i < |req.places| ==> Honest(req.places[i], numPages, w.found[i]))
    && (forall i, r :: 0 <= i < |req.busy| && r in w.rounds[i] ==> HonestRound(req.busy[i], numPages, r))
  }

  // What the search should answer: the region for the first preferred place that can
  // be had, or else for the first busy place that can be had by evicting.
  ghost predicate Answers(dev: Device, cur: Flags, numPages: nat, req: Request, w: World, mem: Region)
    requires HonestWorld(req, numPages, w)
  {
    || SomeElected(dev, cur, numPages, req.places, w.found, mem)
    || (NoneAvailable(dev, req.places, w.found, |req.places|) && SomeElected(dev, cur, numPages, req.busy, ForcedAll(w.rounds), mem))
  }

  // ttm_bo_mem_space
  method MemSpace(dev: Device, cur: Flags, numPages: nat, req: Request, w: World) returns (ret: Status, mem: Option<Region>)
    requires HonestWorld(req, numPages, w)
    ensures ret == Success <==> mem.Some?
    ensures mem.Some? ==> mem.value.numPages == numPages && SomeFlagged(dev, cur, req.places + req.busy, mem.value)
    ensures mem.Some? && !Stale(dev, req.places) ==> Answers(dev, cur, numPages, req, w, mem.value)
    ensures ret == Invalid ==> SomeUntyped(req.places + req.busy)
    ensures ret == NoType ==> NoCandidate(dev, req.places + req.busy)
    ensures ret == NoMemory || ret == Restart ==>
              && NoneAvailable(dev, req.places, w.found, |req.places|) && NoneAvailable(dev, req.busy, ForcedAll(w.rounds), |req.busy|)
              && !NoCandidate(dev, req.places + req.busy)
    ensures ret.Failed? ==> exists i :: 0 <= i < |req.places| && Candidate(dev, req.places[i]) && w.found[i] == Failure(ret.code)
  {
    var typeFound;
    ret, mem, typeFound := FreeSpace(dev, cur, numPages, req.places, w.found);
    if ret == Success && mem == None {
      ret, mem := BusySpace(dev, cur, numPages, req.busy, w.rounds, typeFound);
    }
  }

  // ---------------------------------------------------------------- validation

  // The region after a validation that need not move it.
  ghost function Refreshed(req: Request, mem: Region): Region {
    mem.(placement := WithAccess(mem.placement, Chosen(req, mem)))
  }

  // The access flags are those of one of the requested places.
  ghost predicate TakesAccess(req: Request, mem: Region) {
    exists place :: place in req.places + req.busy && SameAccess(mem.placement, place.flags)
  }

  class BufferObject {
    var mem: Region
    var ttm: bool

    // ttm_bo_validate.  If it succeeds the buffer is where the request wants it; if it
    // already was, it stays there.
    method Validate(dev: Device, req: Request, w: World) returns (ok: bool)
      requires WellFormed(req) && HonestWorld(req, mem.numPages, w)
      requires forall t :: dev(t).available <= MASK_CACHING
      modifies this
      ensures mem.numPages == old(mem.numPages)
      ensures ok ==> Compatible(req, mem) && (mem.memType == SYSTEM ==> ttm)
      ensures old(Compatible(req, mem)) ==>
                mem == Refreshed(req, old(mem))
                && forall b :: b in mem.placement <==> if b >= 19 then b in Chosen(req, old(mem)) else b in old(mem.placement)
      ensures !old(Compatible(req, mem)) ==> mem == old(mem) || TakesAccess(req, mem)
      ensures !old(Compatible(req, mem)) && !Stale(dev, req.places) ==>
                (!ok && mem == old(mem)) || Answers(dev, old(mem.placement), old(mem.numPages), req, w, mem)
    {
      var compat, newFlags := MemCompat(req, mem);
      if !compat {
        var ret, region := MemSpace(dev, mem.placement, mem.numPages, req, w);
        if ret != Success { return false; }
        ttm := w.ttmAfterMove;
        if w.moveError != 0 { return false; }
        ghost var place :| place in req.places + req.busy && Flagged(dev, mem.placement, place, region.value);
        FlaggedFits(dev, mem.placement, place, region.value);
        mem := region.value;
      } else {
        RefreshKeepsFit(req, mem);
        mem := mem.(placement := WithAccess(mem.placement, newFlags));
      }
      if mem.memType == SYSTEM && !ttm {
        if w.ttmError != 0 { return false; }
        ttm := true;
      }
      return true;
    }
  }

  lemma AccessOnly(place: Place, f: Flags, g: Flags)
    ensures var f' := WithAccess(f, g);
            && place.flags * f' * MASK_CACHING == place.flags * f * MASK_CACHING
            && MemBits(place.flags * f') == MemBits(place.flags * f)
            && (CONTIGUOUS in f' <==> CONTIGUOUS in g) && WithAccess(f', g) == f'
  {
  }

  lemma RefreshedFit(places: seq<Place>, mem: Region, g: Flags)
    requires CONTIGUOUS in g ==> CONTIGUOUS in mem.placement
    requires FirstFit(places, mem) < |places| ==> places[FirstFit(places, mem)].flags == g
    ensures FirstFit(places, mem.(placement := WithAccess(mem.placement, g))) == FirstFit(places, mem)
  {
    var i, mem' := FirstFit(places, mem), mem.(placement := WithAccess(mem.placement, g));
    forall place | place in places ensures Fits(place, mem') ==> Fits(place, mem) {
      AccessOnly(place, mem.placement, g);
    }
    if i < |places| {
      AccessOnly(places[i], mem.placement, g);
      FirstFitIs(places, mem', i);
    }
  }

  // Validating once more changes nothing at all.
  lemma RefreshKeepsFit(req: Request, mem: Region)
    requires Compatible(req, mem)
    ensures Compatible(req, Refreshed(req, mem))
    ensures Refreshed(req, Refreshed(req, mem)) == Refreshed(req, mem)
  {
    var g := Chosen(req, mem);
    AccessOnly(Place(0, 0, {}), mem.placement, g);
    RefreshedFit(req.places, mem, g);
    if FirstFit(req.places, mem) == |req.places| { RefreshedFit(req.busy, mem, g); }
  }
}
