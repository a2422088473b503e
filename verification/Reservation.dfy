/**
 Reserving the buffers of a validation list.

 The loop walks a list that it edits on the way: an entry whose reservation
 object is already held moves to the duplicates, and an entry that lost against
 an older ticket is locked alone, after everything else was dropped, and moves to
 the front.  The edits keep the entries before the cursor equal to what is held.
 */
module Reservation {
  type Resv = nat

  // A validation entry: a buffer and the reservation object it uses.
  datatype Entry = Entry(bo: nat, resv: Resv, shared: bool)

  // What the world does to one lock attempt on an object the caller does not hold:
  // it is granted, with CPU writers on the buffer or without; it is refused because
  // an older ticket holds it, and the slow wait that follows succeeds or is
  // interrupted; a signal interrupts the wait; or, without ticket, it is busy.
  datatype Outcome = Granted(cpuWriters: bool) | Deadlock(interrupted: bool) | Signal | Contended

  // Return codes; Running is no code but the state after a given number of lock attempts.
  datatype Status = Success | Running | Busy | Already | Deadlocked | Restart

  // __ttm_bo_reserve on an object the caller does not hold; without ticket it never waits.
  function Reserve(ticket: bool, intr: bool, o: Outcome): Status {
    match o
    case Granted(_) => Success
    case Deadlock(_) => if ticket then Deadlocked else Busy
    case Signal => if !ticket then Busy else if intr then Restart else Success
    case Contended => if ticket then Success else Busy
  }

  function Resvs(list: seq<Entry>): (r: set<Resv>) {
    set i | 0 <= i < |list| :: list[i].resv
  }

  function Bos(list: seq<Entry>): set<nat> {
    set i | 0 <= i < |list| :: list[i].bo
  }

  ghost predicate Distinct(list: seq<Entry>) {
    forall i, j :: 0 <= i < j < |list| ==> list[i].resv != list[j].resv
  }

  // The entries before the cursor, and only they, are held; nothing got lost; and
  // every duplicate stands for an entry that is still on the list.
  ghost predicate LoopInv(list: seq<Entry>, pos: nat, dups: seq<Entry>, held: set<Resv>, all: multiset<Entry>) {
    && pos <= |list|
    && held == Resvs(list[..pos])
    && Distinct(list[..pos])
    && multiset(list) + multiset(dups) == all
    && Resvs(dups) <= Resvs(list)
  }

  lemma HoldNext(list: seq<Entry>, pos: nat, dups: seq<Entry>, held: set<Resv>, all: multiset<Entry>)
    requires LoopInv(list, pos, dups, held, all) && pos < |list| && list[pos].resv !in held
    ensures LoopInv(list, pos + 1, dups, held + {list[pos].resv}, all)
  {
    assert list[..pos + 1] == list[..pos] + [list[pos]];
    ResvsConcat(list[..pos], [list[pos]]);
    ResvsOne(list[pos]);
    forall i | 0 <= i < pos ensures list[i].resv != list[pos].resv { assert list[..pos][i].resv in held; }
  }

  lemma DropDuplicate(list: seq<Entry>, pos: nat, dups: seq<Entry>, held: set<Resv>, all: multiset<Entry>)
    requires LoopInv(list, pos, dups, held, all) && pos < |list| && list[pos].resv in held
    ensures LoopInv(list[..pos] + list[pos + 1..], pos, [list[pos]] + dups, held, all)
  {
    var e, list' := list[pos], list[..pos] + list[pos + 1..];
    assert list == list[..pos] + [e] + list[pos + 1..];
    assert list'[..pos] == list[..pos];
    ResvsConcat(list[..pos] + [e], list[pos + 1..]);
    ResvsConcat(list[..pos], [e]);
    ResvsConcat(list[..pos], list[pos + 1..]);
    ResvsConcat([e], dups);
    ResvsOne(e);
  }

  lemma MoveToFront(list: seq<Entry>, pos: nat, dups: seq<Entry>, held: set<Resv>, all: multiset<Entry>)
    requires LoopInv(list, pos, dups, held, all) && pos < |list|
    ensures LoopInv([list[pos]] + list[..pos] + list[pos + 1..], 1, dups, {list[pos].resv}, all)
  {
    var e := list[pos];
    var list' := [e] + list[..pos] + list[pos + 1..];
    assert list == list[..pos] + [e] + list[pos + 1..];
    assert list'[..1] == [e];
    ResvsConcat(list[..pos] + [e], list[pos + 1..]);
    ResvsConcat(list[..pos], [e]);
    ResvsConcat([e] + list[..pos], list[pos + 1..]);
    ResvsConcat([e], list[..pos]);
    ResvsOne(e);
  }

  lemma ResvsConcat(s: seq<Entry>, t: seq<Entry>)
    ensures Resvs(s + t) == Resvs(s) + Resvs(t)
  {
    forall r | r in Resvs(s) + Resvs(t) ensures r in Resvs(s + t) {
      if r in Resvs(s) {
        var i :| 0 <= i < |s| && s[i].resv == r;
        assert (s + t)[i].resv == r;
      } else {
        var i :| 0 <= i < |t| && t[i].resv == r;
        assert (s + t)[|s| + i].resv == r;
      }
    }
  }

  lemma ResvsOne(e: Entry)
    ensures Resvs([e]) == {e.resv}
  {
    assert [e][0].resv == e.resv;
  }

  lemma ReleaseLast(list: seq<Entry>, i: nat)
    requires i < |list| && Distinct(list[..i + 1])
    ensures list[i].resv in Resvs(list[..i + 1]) && Resvs(list[..i + 1]) - {list[i].resv} == Resvs(list[..i])
    ensures Distinct(list[..i])
  {
    assert list[..i + 1] == list[..i] + [list[i]];
    ResvsConcat(list[..i], [list[i]]);
    ResvsOne(list[i]);
    var s := list[..i + 1];
    assert forall k :: 0 <= k < i ==> s[k].resv != s[i].resv;
  }

  lemma Repeated(list: seq<Entry>, pos: nat)
    requires pos < |list| && list[pos].resv in Resvs(list[..pos])
    ensures !Distinct(list)
  {
    var i :| 0 <= i < pos && list[..pos][i].resv == list[pos].resv;
    assert list[i].resv == list[pos].resv;
  }

  // Every attempt is granted, and no CPU writes.
  ghost predicate Smooth(world: seq<Outcome>) { forall k :: 0 <= k < |world| ==> world[k] == Granted(false) }

  // A fence attached to a reservation object.
  datatype Attachment = Shared(fence: nat) | Exclusive(fence: nat)

  // The lists of one validation, the reservations its ticket holds, the buffers that
  // are on the LRU lists, those that may not be evicted, and the fences attached so far.
  class Validation {
    const pinned: set<nat>
    var fences: map<Resv, seq<Attachment>>
    var list: seq<Entry>
    var dups: seq<Entry>
    var held: set<Resv>
    var lru: set<nat>

    // Unlocking is only legal for a held reservation.
    method Unreserve(e: Entry)
      requires e.resv in held
      modifies this`held
      ensures held == old(held) - {e.resv}
    {
      held := held - {e.resv};
    }

    // ttm_eu_backoff_reservation_reverse
    method BackoffReverse(pos: nat)
      requires pos <= |list| && held == Resvs(list[..pos]) && Distinct(list[..pos])
      modifies this`held
      ensures held == {}
    {
      var i := pos;
      while i > 0
        invariant 0 <= i <= pos && held == Resvs(list[..i]) && Distinct(list[..i])
      {
        i := i - 1;
        ReleaseLast(list, i);
        Unreserve(list[i]);
      }
    }

    // One round of the loop: the cursor after it, or an error.
    method ReserveEntry(pos: nat, ticket: bool, intr: bool, useDups: bool, outcome: Outcome, ghost all: multiset<Entry>)
      returns (status: Status, pos': nat)
      requires LoopInv(list, pos, dups, held, all) && pos < |list|
      modifies this`list, this`dups, this`held
      ensures status == Success ==> LoopInv(list, pos', dups, held, all)
      ensures status != Success ==> held == {} && list == old(list) && dups == old(dups)
      ensures var dup := old(list[pos].resv in held);
              && (status == Already <==> dup && ticket && !useDups)
              && (status == Restart <==> !dup && ticket && intr && (outcome == Signal || outcome == Deadlock(true)))
              && (status == Busy <==> if dup then !ticket else outcome == Granted(true) || (!ticket && !outcome.Granted?))
              && (status == Success || status == Busy || status == Already || status == Restart)
      ensures status == Success ==>
                var was, e := old(list), old(list[pos]);
                if e.resv in old(held) then
                  list == was[..pos] + was[pos + 1..] && dups == [e] + old(dups) && pos' == pos
                else if ticket && outcome.Deadlock? then
                  list == [e] + was[..pos] + was[pos + 1..] && dups == old(dups) && pos' == 1
                else
                  list == was && dups == old(dups) && pos' == pos + 1
    {
      var e := list[pos];
      pos' := pos;
      status := if e.resv !in held then Reserve(ticket, intr, outcome) else if ticket then Already else Busy;
      if status == Success {
        HoldNext(list, pos, dups, held, all);
        held := held + {e.resv};
        if outcome.Granted? && outcome.cpuWriters {
          ReleaseLast(list, pos);
          Unreserve(e);
          status := Busy;
        } else {
          pos' := pos + 1;
          return;
        }
      } else if status == Already && useDups {
        DropDuplicate(list, pos, dups, held, all);
        list, dups := list[..pos] + list[pos + 1..], [e] + dups;
        return Success, pos;
      }
      status, pos' := LostOut(pos, status, intr && outcome.Deadlock? && outcome.interrupted, all);
    }

    // The end of a round that lost out: drop every reservation and, after a deadlock, wait
    // for this entry alone.
    method LostOut(pos: nat, error: Status, interrupted: bool, ghost all: multiset<Entry>) returns (status: Status, pos': nat)
      requires LoopInv(list, pos, dups, held, all) && pos < |list| && error != Success
      modifies this`list, this`held
      ensures status == if error != Deadlocked then error else if interrupted then Restart else Success
      ensures status != Success ==> held == {} && list == old(list)
      ensures status == Success ==>
                && LoopInv(list, pos', dups, held, all) && pos' == 1
                && list == [old(list)[pos]] + old(list)[..pos] + old(list)[pos + 1..]
    {
      MoveToFront(list, pos, dups, held, all);
      BackoffReverse(pos);
      if error != Deadlocked { return error, pos; }
      if interrupted { return Restart, pos; }
      var e := list[pos];
      held := {e.resv};
      list := [e] + list[..pos] + list[pos + 1..];
      return Success, 1;
    }

    // ttm_eu_reserve_buffers, against any outcomes of its lock attempts.
    method ReserveBuffers(ticket: bool, intr: bool, useDups: bool, world: seq<Outcome>) returns (status: Status)
      requires held == {} && dups == []
      modifies this
      ensures multiset(list) + multiset(dups) == multiset(old(list))
      ensures status == Success ==>
                && held == Resvs(list) && Distinct(list) && Resvs(dups) <= held
                && lru == old(lru) - Bos(list)
      ensures status == Running ==>
                && (exists pos :: 0 <= pos < |list| && held == Resvs(list[..pos]) && Distinct(list[..pos]))
                && Resvs(dups) <= Resvs(list) && lru == old(lru)
      ensures status != Success && status != Running ==> held == {} && lru == old(lru)
      ensures status == Restart ==> ticket && intr && (Signal in world || Deadlock(true) in world)
      ensures status == Already ==> ticket && !useDups && !Distinct(list)
      ensures status == Busy ==> !ticket || Granted(true) in world
      ensures status != Deadlocked && (!useDups ==> dups == [])
      ensures ticket && useDups && |world| >= |old(list)| && Smooth(world) ==> status == Success
    {
      ghost var all := multiset(list);
      assert list[..0] == [];
      var pos: nat := 0;
      for k := 0 to |world|
        invariant LoopInv(list, pos, dups, held, all) && lru == old(lru)
        invariant !useDups ==> dups == []
        invariant ticket && useDups && Smooth(world) ==> |list| - pos + k <= |old(list)|
      {
        if pos == |list| { break; }
        assert world[k] in world;
        if list[pos].resv in held { Repeated(list, pos); }
        status, pos := ReserveEntry(pos, ticket, intr, useDups, world[k], all);
        if status != Success { return; }
      }
      if pos < |list| { return Running; }
      assert list[..pos] == list;
      lru := lru - Bos(list);
      status := Success;
    }

    // ttm_eu_backoff_reservation
    method BackoffReservation()
      requires held == Resvs(list) && Distinct(list)
      modifies this`held, this`lru
      ensures held == {} && lru == old(lru) + (Bos(list) - pinned)
    {
      assert list[0..] == list;
      var i := 0;
      while i < |list|
        invariant i <= |list| && held == Resvs(list[i..])
        invariant lru == old(lru) + (Bos(list[..i]) - pinned)
      {
        ReleaseFirst(list, i);
        lru := lru + ({list[i].bo} - pinned);
        Unreserve(list[i]);
        i := i + 1;
      }
      assert list[..i] == list;
    }

    // ttm_eu_fence_buffer_objects
    method FenceBufferObjects(fence: nat)
      requires held == Resvs(list) && Distinct(list)
      modifies this`held, this`lru, this`fences
      ensures held == {} && lru == old(lru) + (Bos(list) - pinned)
      ensures fences == Fenced(old(fences), list, fence)
    {
      assert list[0..] == list;
      var i := 0;
      while i < |list|
        invariant i <= |list| && held == Resvs(list[i..])
        invariant lru == old(lru) + (Bos(list[..i]) - pinned)
        invariant fences == Fenced(old(fences), list[..i], fence)
      {
        ReleaseFirst(list, i);
        assert list[..i + 1][..i] == list[..i];
        fences := Attach(fences, list[i], fence);
        lru := lru + ({list[i].bo} - pinned);
        Unreserve(list[i]);
        i := i + 1;
      }
      assert list[..i] == list;
    }
  }

  function Attached(fences: map<Resv, seq<Attachment>>, r: Resv): seq<Attachment> {
    if r in fences then fences[r] else []
  }

  function Attach(fences: map<Resv, seq<Attachment>>, e: Entry, fence: nat): map<Resv, seq<Attachment>> {
    fences[e.resv := Attached(fences, e.resv) + [if e.shared then Shared(fence) else Exclusive(fence)]]
  }

  function Fenced(fences: map<Resv, seq<Attachment>>, list: seq<Entry>, fence: nat): map<Resv, seq<Attachment>> {
    if list == [] then fences
    else Attach(Fenced(fences, list[..|list| - 1], fence), list[|list| - 1], fence)
  }

  // Every object on the list gets the fence exactly once, in the mode its entry asks for; no other gets it.
  lemma {:induction false} FencedOnce(fences: map<Resv, seq<Attachment>>, list: seq<Entry>, fence: nat, r: Resv)
    requires Distinct(list)
    ensures r !in Resvs(list) ==> Attached(Fenced(fences, list, fence), r) == Attached(fences, r)
    ensures forall k :: 0 <= k < |list| && list[k].resv == r ==>
              Attached(Fenced(fences, list, fence), r)
              == Attached(fences, r) + [if list[k].shared then Shared(fence) else Exclusive(fence)]
  {
    if list != [] {
      var rest, last := list[..|list| - 1], list[|list| - 1];
      FencedOnce(fences, rest, fence, r);
      assert list == rest + [last];
      ResvsConcat(rest, [last]);
      ResvsOne(last);
    }
  }

  lemma ReleaseFirst(list: seq<Entry>, i: nat)
    requires i < |list| && Distinct(list)
    ensures list[i].resv in Resvs(list[i..]) && Resvs(list[i..]) - {list[i].resv} == Resvs(list[i + 1..])
    ensures Bos(list[..i + 1]) == Bos(list[..i]) + {list[i].bo}
  {
    assert list[i..] == [list[i]] + list[i + 1..];
    ResvsConcat([list[i]], list[i + 1..]);
    ResvsOne(list[i]);
    forall b | b in Bos(list[..i]) + {list[i].bo} ensures b in Bos(list[..i + 1]) {
      if b in Bos(list[..i]) {
        var k :| 0 <= k < i && list[..i][k].bo == b;
        assert list[..i + 1][k].bo == b;
      } else {
        assert list[..i + 1][i].bo == b;
      }
    }
  }
}
