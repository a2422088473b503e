/**
 The per-context fence rings.  Each ring of a context keeps only the fences of
 its last `amdgpu_sched_jobs` submissions, in a slice of one array indexed by
 the low bits of the sequence number.  The rings are proved to answer every
 query as an unbounded record of all submissions would.
 */
module FenceRing {
  import opened Arithmetic
  import opened Base

  const MAX_RINGS: nat := 18
  const LATEST: nat := 0xFFFF_FFFF_FFFF_FFFF

  type Fence = nat

  datatype Answer = Invalid | Null | Found(fence: Fence)

  function Pow2(k: nat): (p: nat)
    ensures p > 0
  {
    if k == 0 then 1 else 2 * Pow2(k - 1)
  }

  // Bitwise and of two naturals.
  function BitAnd(a: nat, b: nat): nat {
    if a == 0 || b == 0 then 0 else 2 * BitAnd(a / 2, b / 2) + (a % 2) * (b % 2)
  }

  lemma {:induction false} MaskIsModulo(n: nat, k: nat)
    ensures BitAnd(n, Pow2(k) - 1) == n % Pow2(k)
  {
    if k == 0 {
    } else if n == 0 {
    } else {
      var p := Pow2(k - 1);
      MaskIsModulo(n / 2, k - 1);
      assert (2 * p - 1) / 2 == p - 1 && (2 * p - 1) % 2 == 1;
      HalveModulo(n, p);
    }
  }

  lemma HalveModulo(n: nat, p: nat)
    requires p > 0
    ensures n % (2 * p) == 2 * ((n / 2) % p) + n % 2
  {
    var q := n / 2 / p;
    var r := 2 * ((n / 2) % p) + n % 2;
    assert n / 2 == p * q + (n / 2) % p;
    assert n == (2 * p) * q + r;
    DivisionUnique(n, 2 * p, q, r);
  }

  // What slot i of a ring of j slots holds after the submissions h: the latest
  // fence whose sequence number is i modulo j.  The k-th submission has number k.
  function Slot(h: seq<Fence>, j: nat, i: nat): Option<Fence>
    requires j > 0
  {
    if h == [] then None
    else if |h| % j == i then Some(h[|h| - 1])
    else Slot(h[..|h| - 1], j, i)
  }

  // The answer of an unbounded record of the submissions: the fence for the last
  // j of them, NULL for number 0 and for older ones, an error for future ones.
  function Lookup(h: seq<Fence>, j: nat, n: nat): Answer {
    var n := if n == LATEST then |h| else n;
    if n > |h| then Invalid
    else if n == 0 || n + j <= |h| then Null
    else Found(h[n - 1])
  }

  lemma {:induction false} SlotKeepsWindow(h: seq<Fence>, j: nat, n: nat)
    requires j > 0 && 1 <= n <= |h| < n + j
    ensures Slot(h, j, n % j) == Some(h[n - 1])
  {
    if n < |h| {
      SameResidue(|h|, n, j);
      SlotKeepsWindow(h[..|h| - 1], j, n);
    }
  }

  lemma {:induction false} SlotUnused(h: seq<Fence>, j: nat, n: nat)
    requires |h| < n <= j
    ensures Slot(h, j, n % j) == None
  {
    if h != [] {
      SameResidue(n, |h|, j);
      SlotUnused(h[..|h| - 1], j, n);
    }
  }

  // A submission changes one slot of its ring.
  lemma SlotAfter(h: seq<Fence>, j: nat, fence: Fence, i: nat)
    requires j > 0
    ensures Slot(h + [fence], j, i) == if (|h| + 1) % j == i then Some(fence) else Slot(h, j, i)
  {
    assert (h + [fence])[..|h|] == h;
  }

  lemma SameResidue(a: nat, b: nat, j: nat)
    requires j > 0 && b < a < b + j
    ensures a % j != b % j
  {
    var k := a / j - b / j;
    assert a == j * (a / j) + a % j && b == j * (b / j) + b % j;
    assert j * k == j * (a / j) - j * (b / j);
    if k > 0 { MulMonotone(j, k); }
    if k < 0 { MulMonotone(j, -k); }
  }

  lemma WholeTurn(n: nat, j: nat)
    requires 0 < j <= n
    ensures n % j == (n - j) % j
  {
    assert n == j * ((n - j) / j + 1) + (n - j) % j;
    DivisionUnique(n, j, (n - j) / j + 1, (n - j) % j);
  }

  lemma Spaced(j: nat, r: nat, q: nat)
    requires r < q
    ensures j * r + j <= j * q
  {
    assert j * q == j * (r + 1) + j * (q - r - 1);
  }

  ghost predicate SlotsAgree(slots: seq<Option<Fence>>, h: seq<Fence>) {
    |slots| > 0 && forall i :: 0 <= i < |slots| ==> slots[i] == Slot(h, |slots|, i)
  }

  // A ring agrees with its history.
  ghost predicate RingOk(n: nat, slots: seq<Option<Fence>>, h: seq<Fence>, waited: set<nat>) {
    && n == |h| + 1 && SlotsAgree(slots, h)
    && forall k :: k in waited <==> 1 <= k && k + |slots| <= |h|
  }

  // The submissions waited for before the next one takes its slot.
  ghost function WaitedAfter(waited: set<nat>, n: nat, j: nat): set<nat> {
    if n > j then waited + {n - j} else waited
  }

  // A submission keeps the agreement; the fence it finds in its slot is the one J before, if any.
  lemma RingAdd(n: nat, slots: seq<Option<Fence>>, h: seq<Fence>, waited: set<nat>, fence: Fence)
    requires RingOk(n, slots, h, waited)
    ensures slots[n % |slots|] == if n > |slots| then Some(h[n - |slots| - 1]) else None
    ensures RingOk(n + 1, slots[n % |slots| := Some(fence)], h + [fence], WaitedAfter(waited, n, |slots|))
  {
    var j := |slots|;
    if n > j {
      WholeTurn(n, j);
      SlotKeepsWindow(h, j, n - j);
    } else {
      SlotUnused(h, j, n);
    }
    forall i | 0 <= i < j { SlotAfter(h, j, fence, i); }
  }

  class Context {
    const order: nat
    const fences: array<Option<Fence>>
    // rings[r].fences, as an index into the shared array, and rings[r].sequence
    const base: seq<nat>
    const sequence: array<nat>
    ghost var history: seq<seq<Fence>>
    // The submissions of each ring whose fence was waited for before its slot was reused.
    ghost var waited: seq<set<nat>>

    function Jobs(): nat { Pow2(order) }

    // The slices of the rings are disjoint.
    ghost predicate Shape()
      reads this
    {
      && |history| == |waited| == |base| == sequence.Length == MAX_RINGS
      && (forall r :: 0 <= r < MAX_RINGS ==> base[r] + Jobs() <= fences.Length)
      && (forall r, q :: 0 <= r < q < MAX_RINGS ==> base[r] + Jobs() <= base[q])
    }

    ghost predicate RingValid(r: nat)
      requires Shape() && r < MAX_RINGS
      reads this, fences, sequence
    {
      RingOk(sequence[r], fences[base[r]..base[r] + Jobs()], history[r], waited[r])
    }

    ghost predicate Valid()
      reads this, fences, sequence
    {
      Shape() && forall r :: 0 <= r < MAX_RINGS ==> RingValid(r)
    }

    constructor (order: nat)
      ensures Valid() && fresh(fences) && fresh(sequence)
      ensures forall r :: 0 <= r < MAX_RINGS ==> history[r] == []
    {
      this.order := order;
      var jobs := Pow2(order);
      fences := new Option<Fence>[jobs * MAX_RINGS](_ => None);
      base := seq(MAX_RINGS, r requires 0 <= r => jobs * r);
      sequence := new nat[MAX_RINGS](_ => 1);
      history := seq(MAX_RINGS, _ => []);
      waited := seq(MAX_RINGS, _ => {});
      new;
      forall r | 0 <= r < MAX_RINGS ensures base[r] + jobs <= fences.Length { Spaced(jobs, r, MAX_RINGS); }
      forall r, q | 0 <= r < q < MAX_RINGS ensures base[r] + jobs <= base[q] { Spaced(jobs, r, q); }
      forall r | 0 <= r < MAX_RINGS ensures RingValid(r) {
        assert fences[base[r]..base[r] + jobs] == seq(jobs, _ => None);
      }
    }

    // amdgpu_ctx_add_fence; `other` is the fence that is waited for.
    method AddFence(ring: nat, fence: Fence) returns (n: nat, other: Option<Fence>)
      requires Valid() && ring < MAX_RINGS
      modifies this, fences, sequence
      ensures Valid()
      ensures history == old(history)[ring := old(history)[ring] + [fence]]
      ensures n == |history[ring]|
      ensures n <= Jobs() ==> other == None && waited == old(waited)
      ensures n > Jobs() ==>
                && other == Some(history[ring][n - Jobs() - 1])
                && waited == old(waited)[ring := old(waited)[ring] + {n - Jobs()}]
    {
      n := sequence[ring];
      var i := BitAnd(n, Jobs() - 1);
      MaskIsModulo(n, order);
      assert RingValid(ring);
      ghost var slots := fences[base[ring]..base[ring] + Jobs()];
      RingAdd(n, slots, history[ring], waited[ring], fence);
      other := fences[base[ring] + i];
      assert other == slots[i];
      Store(ring, i, fence);
      sequence[ring] := n + 1;
      waited := waited[ring := WaitedAfter(waited[ring], n, Jobs())];
      history := history[ring := history[ring] + [fence]];
      forall r | 0 <= r < MAX_RINGS ensures RingValid(r) {
        assert old(RingValid(r));
      }
    }

    // The slot is overwritten, and no other slice is touched.
    method Store(ring: nat, i: nat, fence: Fence)
      requires Shape() && ring < MAX_RINGS && i < Jobs()
      modifies fences
      ensures fences[base[ring]..base[ring] + Jobs()] == old(fences[base[ring]..base[ring] + Jobs()])[i := Some(fence)]
      ensures forall r :: 0 <= r < MAX_RINGS && r != ring ==>
                fences[base[r]..base[r] + Jobs()] == old(fences[base[r]..base[r] + Jobs()])
    {
      fences[base[ring] + i] := Some(fence);
      forall r | 0 <= r < MAX_RINGS && r != ring
        ensures fences[base[r]..base[r] + Jobs()] == old(fences[base[r]..base[r] + Jobs()])
      {
        assert base[r] + Jobs() <= base[ring] || base[ring] + Jobs() <= base[r];
      }
    }

    // amdgpu_ctx_get_fence
    method GetFence(ring: nat, n: nat) returns (a: Answer)
      requires Valid() && ring < MAX_RINGS
      ensures a == Lookup(history[ring], Jobs(), n)
      ensures a == Null && n != LATEST && n != 0 ==> n in waited[ring]
    {
      assert RingValid(ring);
      var n := if n == LATEST then sequence[ring] - 1 else n;
      if n >= sequence[ring] { return Invalid; }
      if n + Jobs() < sequence[ring] { return Null; }
      var i := BitAnd(n, Jobs() - 1);
      MaskIsModulo(n, order);
      if n == 0 {
        SlotUnused(history[ring], Jobs(), Jobs());
      } else {
        SlotKeepsWindow(history[ring], Jobs(), n);
      }
      match fences[base[ring] + i]
      case None => return Null;
      case Some(f) => return Found(f);
    }
  }
}
