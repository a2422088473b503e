/**
 Copy between two buffers whose memory is scattered over nodes of pages.

 The copy walks both node lists with one cursor each and emits pieces that end
 wherever either node ends.  The pieces are proved to be the byte-by-byte copy
 of the logical ranges, cut short exactly where the copy engine reports an error or
 where the code would go on to a node after the last.
 */
module ScatteredCopy {
  import opened Base

  const PAGE_SIZE: nat := 4096
  const TWO64: nat := 0x1_0000_0000_0000_0000

  // uint64_t
  type Offset = x: nat | x < TWO64

  // A run of pages, in pages.
  datatype Node = Node(start: nat, size: nat) {
    function Bytes(): nat { size * PAGE_SIZE }
  }

  datatype MemType = TT | VRAM | Other

  datatype Region = Region(memType: MemType, nodes: seq<Node>, gpuOffset: nat)

  // A command for the copy engine.
  datatype Piece = Piece(src: nat, dst: nat, len: nat)

  function Bytes(nodes: seq<Node>): nat {
    if nodes == [] then 0 else nodes[0].Bytes() + Bytes(nodes[1..])
  }

  // The GPU address of the byte at a logical offset of a node list.
  function Address(nodes: seq<Node>, gpuOffset: nat, off: nat): nat
    requires off < Bytes(nodes)
  {
    if off < nodes[0].Bytes() then nodes[0].start * PAGE_SIZE + gpuOffset + off
    else Address(nodes[1..], gpuOffset, off - nodes[0].Bytes())
  }

  // The bytes a piece moves, as (source address, destination address) pairs in order.
  function Moves(p: Piece): seq<(nat, nat)> {
    seq(p.len, k requires 0 <= k => (p.src + k, p.dst + k))
  }

  function AllMoves(pieces: seq<Piece>): seq<(nat, nat)> {
    if pieces == [] then [] else AllMoves(pieces[..|pieces| - 1]) + Moves(pieces[|pieces| - 1])
  }

  // The address the driver uses for a position of a region: a region in the GART is one
  // node, and its addresses go on in a line past the end.
  function LogicalAddress(r: Region, pos: nat): nat
    requires Covers(r, pos, 1)
  {
    if r.memType == TT then r.nodes[0].start * PAGE_SIZE + r.gpuOffset + pos else Address(r.nodes, r.gpuOffset, pos)
  }

  predicate Covers(r: Region, pos: nat, n: nat) {
    n == 0 || (r.memType == TT && |r.nodes| == 1) || (r.memType == VRAM && pos + n <= Bytes(r.nodes))
  }

  // The copy of n bytes from one logical offset to another, byte by byte.
  function FlatCopy(src: Region, from: nat, dst: Region, to: nat, n: nat): seq<(nat, nat)>
    requires Covers(src, from, n) && Covers(dst, to, n)
  {
    seq(n, k requires 0 <= k < n => (LogicalAddress(src, from + k), LogicalAddress(dst, to + k)))
  }

  // The position at which a cursor that starts at `off` is out of nodes.  In VRAM that is
  // the end of the list, and there is no cursor at or past it.  In the GART the bytes left
  // are a 64-bit difference, which wraps for an offset past the node.
  function Reach(r: Region, off: Offset): Option<nat> {
    if r.memType == VRAM then (if off < Bytes(r.nodes) then Some(Bytes(r.nodes)) else None)
    else Some(if off <= Bytes(r.nodes) then Bytes(r.nodes) else Bytes(r.nodes) + TWO64)
  }

  // A range of n bytes that a cursor can walk without leaving the node list.
  predicate Fits(r: Region, off: Offset, n: nat) { Reach(r, off).Some? && off + n <= Reach(r, off).value }

  // `left` bytes from address `start` on are ahead in nodes[node].
  datatype Cursor = Cursor(node: nat, start: nat, left: nat)

  // The cursor is at a position of the region, and out of nodes at `end`.
  ghost predicate At(r: Region, c: Cursor, pos: nat, end: nat) {
    && c.node < |r.nodes|
    && if r.memType == TT
       then |r.nodes| == 1 && c.start == r.nodes[0].start * PAGE_SIZE + r.gpuOffset + pos && pos + c.left == end
       else && r.memType == VRAM && end == Bytes(r.nodes)
            && c.left <= r.nodes[c.node].Bytes()
            && pos + c.left == Bytes(r.nodes[..c.node]) + r.nodes[c.node].Bytes() <= end
            && c.start + c.left == r.nodes[c.node].start * PAGE_SIZE + r.gpuOffset + r.nodes[c.node].Bytes()
  }

  lemma {:induction false} BytesSplit(nodes: seq<Node>, i: nat)
    requires i <= |nodes|
    ensures Bytes(nodes) == Bytes(nodes[..i]) + Bytes(nodes[i..])
  {
    if i == 0 {
      assert nodes[i..] == nodes;
    } else {
      BytesSplit(nodes[1..], i - 1);
      assert nodes[..i][1..] == nodes[1..][..i - 1];
      assert nodes[i..] == nodes[1..][i - 1..];
    }
  }

  lemma NodeSplit(nodes: seq<Node>, i: nat)
    requires i < |nodes|
    ensures Bytes(nodes) == Bytes(nodes[..i]) + nodes[i].Bytes() + Bytes(nodes[i + 1..])
    ensures Bytes(nodes[..i + 1]) == Bytes(nodes[..i]) + nodes[i].Bytes()
  {
    BytesSplit(nodes, i);
    assert nodes[i..][1..] == nodes[i + 1..];
    BytesSplit(nodes[..i + 1], i);
    assert nodes[..i + 1][..i] == nodes[..i];
    assert nodes[..i + 1][i..] == [nodes[i]];
  }

  lemma {:induction false} AddressInNode(nodes: seq<Node>, gpuOffset: nat, i: nat, off: nat)
    requires i < |nodes| && Bytes(nodes[..i]) <= off < Bytes(nodes[..i]) + nodes[i].Bytes()
    ensures off < Bytes(nodes)
    ensures Address(nodes, gpuOffset, off) == nodes[i].start * PAGE_SIZE + gpuOffset + off - Bytes(nodes[..i])
  {
    NodeSplit(nodes, i);
    if i > 0 {
      assert nodes[..i][1..] == nodes[1..][..i - 1];
      AddressInNode(nodes[1..], gpuOffset, i - 1, off - nodes[0].Bytes());
    }
  }

  lemma CursorAddress(r: Region, c: Cursor, pos: nat, end: nat, k: nat)
    requires At(r, c, pos, end) && k < c.left
    ensures Covers(r, pos + k, 1) && LogicalAddress(r, pos + k) == c.start + k
  {
    if r.memType == VRAM { AddressInNode(r.nodes, r.gpuOffset, c.node, pos + k); }
  }

  predicate OneGartNode(r: Region) { r.memType == TT ==> |r.nodes| == 1 }

  // The seek loop, which a region in the GART does not need; None if it looks at the node
  // after the last.
  method Locate(r: Region, offset: Offset) returns (c: Option<Cursor>)
    requires (r.memType == VRAM || r.memType == TT) && OneGartNode(r)
    ensures c == None <==> Reach(r, offset) == None
    ensures c.Some? ==> At(r, c.value, offset, Reach(r, offset).value)
  {
    var off: nat := offset;
    var node := 0;
    if r.memType == VRAM {
      assert r.nodes[..0] == [];
      while true
        invariant node <= |r.nodes| && off + Bytes(r.nodes[..node]) == offset
        decreases |r.nodes| - node
      {
        if node == |r.nodes| {
          assert r.nodes[..node] == r.nodes;
          return None;
        }
        NodeSplit(r.nodes, node);
        if off < r.nodes[node].Bytes() { break; }
        off := off - r.nodes[node].Bytes();
        node := node + 1;
      }
    } else {
      NodeSplit(r.nodes, 0);
    }
    var bytes := r.nodes[node].Bytes();
    return Some(Cursor(node, r.nodes[node].start * PAGE_SIZE + r.gpuOffset + off,
                       if off <= bytes then bytes - off else bytes + TWO64 - off));
  }

  // Moves a cursor on by n bytes, to the next node when the current one is used up; None
  // if there is none.
  method Advance(r: Region, c: Cursor, n: nat, ghost pos: nat, ghost end: nat) returns (c': Option<Cursor>)
    requires At(r, c, pos, end) && n <= c.left
    ensures c' == None ==> pos + n == end
    ensures c'.Some? ==> At(r, c'.value, pos + n, end)
    ensures c'.Some? ==> c'.value.node == if n == c.left then c.node + 1 else c.node
  {
    if n < c.left { return Some(Cursor(c.node, c.start + n, c.left - n)); }
    NodeSplit(r.nodes, c.node);
    var node := c.node + 1;
    if node == |r.nodes| {
      assert r.nodes[..node] == r.nodes;
      return None;
    }
    NodeSplit(r.nodes, node);
    return Some(Cursor(node, r.nodes[node].start * PAGE_SIZE + r.gpuOffset, r.nodes[node].Bytes()));
  }

  predicate Usable(r: Region, bound: bool) { r.memType == VRAM || (r.memType == TT && bound) }

  // The two cursors are n bytes into their ranges.
  ghost predicate Under(src: Region, s: Cursor, from: nat, srcEnd: nat, dst: Region, d: Cursor, to: nat, dstEnd: nat, n: nat) {
    At(src, s, from + n, srcEnd) && At(dst, d, to + n, dstEnd)
  }

  // Both cursors move on by n bytes; None if one of them is out of nodes.
  method AdvanceBoth(src: Region, s: Cursor, ghost from: nat, ghost srcEnd: nat,
                     dst: Region, d: Cursor, ghost to: nat, ghost dstEnd: nat, ghost m: nat, n: nat)
    returns (r: Option<(Cursor, Cursor)>)
    requires Under(src, s, from, srcEnd, dst, d, to, dstEnd, m) && n <= s.left && n <= d.left
    ensures r == None ==> from + m + n == srcEnd || to + m + n == dstEnd
    ensures r.Some? ==> Under(src, r.value.0, from, srcEnd, dst, r.value.1, to, dstEnd, m + n)
    ensures r.Some? ==> r.value.0.node == (if n == s.left then s.node + 1 else s.node) < |src.nodes|
    ensures r.Some? ==> r.value.1.node == (if n == d.left then d.node + 1 else d.node) < |dst.nodes|
  {
    var s' := Advance(src, s, n, from + m, srcEnd);
    if s' == None { return None; }
    var d' := Advance(dst, d, n, to + m, dstEnd);
    return if d' == None then None else Some((s'.value, d'.value));
  }

  // What a round of the loop comes to.
  datatype Round = Rejected | Done | Overran | More(s: Cursor, d: Cursor)

  // The cut-off part of the copy is flat, and its commands were accepted.
  ghost predicate Issued(src: Region, from: nat, dst: Region, to: nat, pieces: seq<Piece>, n: nat, reject: Option<nat>) {
    Copied(src, from, dst, to, pieces, n) && (reject.Some? ==> |pieces| <= reject.value)
  }

  method CopyRound(src: Region, from: nat, s: Cursor, ghost srcEnd: nat, dst: Region, to: nat, d: Cursor, ghost dstEnd: nat,
                   size: nat, reject: Option<nat>, pieces: seq<Piece>, actual: nat)
    returns (o: Round, pieces': seq<Piece>, actual': nat)
    requires Under(src, s, from, srcEnd, dst, d, to, dstEnd, actual)
    requires Issued(src, from, dst, to, pieces, actual, reject) && actual <= size
    ensures Issued(src, from, dst, to, pieces', actual', reject) && actual <= actual' <= size
    ensures o.Rejected? ==> reject == Some(|pieces'|)
    ensures o.Done? ==> actual' == size && from + size <= srcEnd && to + size <= dstEnd
    ensures o.Overran? ==> actual' < size && (from + actual' == srcEnd || to + actual' == dstEnd)
    ensures o.More? ==> Under(src, o.s, from, srcEnd, dst, o.d, to, dstEnd, actual') && actual' < size
    ensures o.More? ==> s.node <= o.s.node < |src.nodes| && d.node <= o.d.node < |dst.nodes|
    ensures o.More? ==> s.node < o.s.node || d.node < o.d.node
    ensures |pieces'| == |pieces| + if o.Rejected? then 0 else 1
  {
    if reject == Some(|pieces|) { return Rejected, pieces, actual; }
    var cur := Min3(s.left, d.left, size - actual);
    OneMorePiece(src, s, from, srcEnd, dst, d, to, dstEnd, pieces, actual, cur);
    pieces', actual' := pieces + [Piece(s.start, d.start, cur)], actual + cur;
    if actual' >= size { return Done, pieces', actual'; }
    var next := AdvanceBoth(src, s, from, srcEnd, dst, d, to, dstEnd, actual, cur);
    o := if next == None then Overran else More(next.value.0, next.value.1);
  }

  // The loop, from two cursors.
  method CopyLoop(src: Region, from: nat, s0: Cursor, ghost srcEnd: nat, dst: Region, to: nat, d0: Cursor, ghost dstEnd: nat,
                  size: nat, reject: Option<nat>)
    returns (ok: bool, overran: bool, actual: nat, pieces: seq<Piece>)
    requires Under(src, s0, from, srcEnd, dst, d0, to, dstEnd, 0)
    ensures Issued(src, from, dst, to, pieces, actual, reject) && actual <= size
    ensures ok ==> !overran && actual == size && from + size <= srcEnd && to + size <= dstEnd
    ensures overran ==> actual < size && (from + actual == srcEnd || to + actual == dstEnd)
    ensures !ok && !overran ==> reject == Some(|pieces|)
    ensures |pieces| < |src.nodes| + |dst.nodes|
  {
    var s, d := s0, d0;
    actual, pieces := 0, [];
    while true
      invariant s.node < |src.nodes| && d.node < |dst.nodes| && actual <= size
      invariant Under(src, s, from, srcEnd, dst, d, to, dstEnd, actual)
      invariant Issued(src, from, dst, to, pieces, actual, reject) && |pieces| <= s.node + d.node
      decreases |src.nodes| - s.node + |dst.nodes| - d.node
    {
      var o;
      o, pieces, actual := CopyRound(src, from, s, srcEnd, dst, to, d, dstEnd, size, reject, pieces, actual);
      match o {
        case Rejected => return false, false, actual, pieces;
        case Done => return true, false, actual, pieces;
        case Overran => return false, true, actual, pieces;
        case More(s', d') => s, d := s', d';
      }
    }
  }

  // `reject` is the number of the first command the copy engine rejects, if any;
  // `srcBound` and `dstBound` tell whether a region in the GART could be bound.  `overran`: the code went on
  // to the node after the last of either list; the model stops there.
  method CopyMemToMem(src: Region, srcOffset: Offset, dst: Region, dstOffset: Offset, size: Offset,
                      srcBound: bool, dstBound: bool, reject: Option<nat>)
    returns (ok: bool, overran: bool, actual: nat, pieces: seq<Piece>)
    requires OneGartNode(src) && OneGartNode(dst)
    ensures Issued(src, srcOffset, dst, dstOffset, pieces, actual, reject) && actual <= size
    ensures ok ==> !overran && actual == size && Usable(src, srcBound) && Usable(dst, dstBound)
    ensures ok ==> Fits(src, srcOffset, size) && Fits(dst, dstOffset, size)
    ensures overran ==> !Fits(src, srcOffset, size) || !Fits(dst, dstOffset, size)
    ensures overran && Reach(src, srcOffset).Some? && Reach(dst, dstOffset).Some? ==>
              srcOffset + actual == Reach(src, srcOffset).value || dstOffset + actual == Reach(dst, dstOffset).value
    ensures !ok && !overran ==> !Usable(src, srcBound) || !Usable(dst, dstBound) || reject == Some(|pieces|)
    ensures pieces != [] ==> |pieces| < |src.nodes| + |dst.nodes|
  {
    ok, overran, actual, pieces := false, false, 0, [];
    if !Usable(src, srcBound) { return; }
    var s := Locate(src, srcOffset);
    if s == None { return false, true, 0, []; }
    if !Usable(dst, dstBound) { return; }
    var d := Locate(dst, dstOffset);
    if d == None { return false, true, 0, []; }
    ok, overran, actual, pieces :=
      CopyLoop(src, srcOffset, s.value, Reach(src, srcOffset).value, dst, dstOffset, d.value, Reach(dst, dstOffset).value,
               size, reject);
  }

  // With usable regions and no rejected command, the code leaves a node list exactly when
  // the range does not fit; and it then has copied up to the end of the shorter range.
  method CopyAccepted(src: Region, srcOffset: Offset, dst: Region, dstOffset: Offset, size: Offset)
    returns (overran: bool, actual: nat)
    requires OneGartNode(src) && OneGartNode(dst) && src.memType != Other && dst.memType != Other
    ensures overran <==> !Fits(src, srcOffset, size) || !Fits(dst, dstOffset, size)
    ensures !overran ==> actual == size
  {
    var ok, pieces;
    ok, overran, actual, pieces := CopyMemToMem(src, srcOffset, dst, dstOffset, size, true, true, None);
  }

  // Two pages copied to a destination of one page.
  method OverrunExample() returns (overran: bool, actual: nat)
    ensures overran && actual == 4096
  {
    var src, dst := Region(VRAM, [Node(10, 2)], 0), Region(VRAM, [Node(20, 1)], 0);
    var ok, pieces;
    ok, overran, actual, pieces := CopyMemToMem(src, 0, dst, 0, 8192, true, true, None);
    assert Bytes(src.nodes) == 8192 && Bytes(dst.nodes) == 4096;
  }

  // In VRAM a range fits exactly if it starts inside the list and ends inside it.
  lemma FitsInVram(r: Region, off: Offset, n: nat)
    requires r.memType == VRAM
    ensures Fits(r, off, n) <==> off < Bytes(r.nodes) && off + n <= Bytes(r.nodes)
  {
  }

  // In the GART an offset past the node is not noticed, and every byte then lies past it;
  // up to the end of the node the addresses are those of the node.
  lemma GartPastEnd(r: Region, off: Offset, n: nat, k: nat)
    requires r.memType == TT && |r.nodes| == 1 && k < n
    ensures off > Bytes(r.nodes) && n <= TWO64 - off ==>
              Fits(r, off, n) && LogicalAddress(r, off + k) > r.nodes[0].start * PAGE_SIZE + r.gpuOffset + r.nodes[0].Bytes()
    ensures off <= Bytes(r.nodes) ==>
              (Fits(r, off, n) <==> off + n <= Bytes(r.nodes))
              && (Fits(r, off, n) ==> LogicalAddress(r, off + k) == Address(r.nodes, r.gpuOffset, off + k))
  {
    NodeSplit(r.nodes, 0);
    assert r.nodes[1..] == [];
  }

  function Min3(a: nat, b: nat, c: nat): nat {
    if a <= b && a <= c then a else if b <= c then b else c
  }

  ghost predicate Copied(src: Region, from: nat, dst: Region, to: nat, pieces: seq<Piece>, n: nat) {
    Covers(src, from, n) && Covers(dst, to, n) && AllMoves(pieces) == FlatCopy(src, from, dst, to, n)
  }

  lemma CoversMore(r: Region, c: Cursor, from: nat, end: nat, m: nat, n: nat)
    requires At(r, c, from + m, end) && n <= c.left
    ensures Covers(r, from, m + n) && Covers(r, from + m, n)
  {
  }

  lemma OneMorePiece(src: Region, s: Cursor, from: nat, srcEnd: nat, dst: Region, d: Cursor, to: nat, dstEnd: nat,
                     pieces: seq<Piece>, m: nat, n: nat)
    requires Under(src, s, from, srcEnd, dst, d, to, dstEnd, m)
    requires n <= s.left && n <= d.left && Copied(src, from, dst, to, pieces, m)
    ensures from + m + n <= srcEnd && to + m + n <= dstEnd
    ensures Copied(src, from, dst, to, pieces + [Piece(s.start, d.start, n)], m + n)
  {
    var more := pieces + [Piece(s.start, d.start, n)];
    assert more[..|more| - 1] == pieces;
    CoversMore(src, s, from, srcEnd, m, n);
    CoversMore(dst, d, to, dstEnd, m, n);
    PieceIsFlat(src, s, from + m, srcEnd, dst, d, to + m, dstEnd, n);
    FlatCopySplit(src, from, dst, to, m, n);
  }

  lemma PieceIsFlat(src: Region, s: Cursor, from: nat, srcEnd: nat, dst: Region, d: Cursor, to: nat, dstEnd: nat, n: nat)
    requires At(src, s, from, srcEnd) && At(dst, d, to, dstEnd)
    requires n <= s.left && n <= d.left && Covers(src, from, n) && Covers(dst, to, n)
    ensures Moves(Piece(s.start, d.start, n)) == FlatCopy(src, from, dst, to, n)
  {
    var moves, flat := Moves(Piece(s.start, d.start, n)), FlatCopy(src, from, dst, to, n);
    forall k | 0 <= k < n ensures moves[k] == flat[k] {
      CursorAddress(src, s, from, srcEnd, k);
      CursorAddress(dst, d, to, dstEnd, k);
    }
  }

  lemma FlatCopySplit(src: Region, from: nat, dst: Region, to: nat, m: nat, n: nat)
    requires Covers(src, from, m + n) && Covers(dst, to, m + n) && Covers(src, from + m, n) && Covers(dst, to + m, n)
    requires Covers(src, from, m) && Covers(dst, to, m)
    ensures FlatCopy(src, from, dst, to, m + n)
         == FlatCopy(src, from, dst, to, m) + FlatCopy(src, from + m, dst, to + m, n)
  {
    var all := FlatCopy(src, from, dst, to, m + n);
    var first, second := FlatCopy(src, from, dst, to, m), FlatCopy(src, from + m, dst, to + m, n);
    forall k | 0 <= k < m + n ensures all[k] == (first + second)[k] {
      if m <= k { assert from + m + (k - m) == from + k && to + m + (k - m) == to + k; }
    }
  }
}
