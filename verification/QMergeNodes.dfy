/**
  The two rings of QMerge in memory (dktp/drvobj/strategy.c, que_insert and qmerge_nextbp): the buffers with
  their links, the driver's two head pointers and its flags.  The pointer surgery is proved to do to the
  rings what QMerge says of sequences.
 */
module QMergeNodes {
  import opened Options
  import opened QMerge
  import opened Seqs

  /** struct buf, with the two links of the ring it waits in.  b_error doubles as the place where av_back is
      kept meanwhile. */
  class Node {
    const b: Buf
    var avForw: Node?
    var avBack: Node?
    var bError: Node?

    constructor (b: Buf)
      ensures this.b == b && avForw == null && avBack == null && bError == null
    {
      this.b := b;
      avForw, avBack, bError := null, null, null;
    }

    /** DBLK */
    function Blk(): nat { b.blk }
  }

  /** Each node of r is linked to the next one and the one before it, round the end. */
  ghost predicate Linked(r: seq<Node>)
    reads r
  {
    && (forall i {:trigger r[i].avForw} :: 0 <= i < |r| ==> r[i].avForw == r[Succ(r, i)])
    && (forall i {:trigger r[i].avBack} :: 0 <= i < |r| ==> r[i].avBack == r[Prev(r, i)])
  }

  /** The ring that a head pointer names. */
  ghost predicate RingAt(h: Node?, r: seq<Node>)
    reads r
  {
    NoDup(r) && Linked(r) && h == if r == [] then null else r[0]
  }

  lemma ThereAndBack(r: seq<Node>, i: nat)
    requires i < |r|
    ensures Prev(r, Succ(r, i)) == i && Succ(r, Prev(r, i)) == i
  {
  }

  lemma LinksAt(r: seq<Node>, i: nat)
    requires Linked(r) && i < |r|
    ensures r[i].avForw == r[Succ(r, i)] && r[i].avBack == r[Prev(r, i)]
  {
  }

  /** The two links of a node undo each other. */
  lemma MutuallyInverse(r: seq<Node>, x: Node)
    requires Linked(r) && x in r
    ensures x.avForw != null && x.avForw.avBack == x
    ensures x.avBack != null && x.avBack.avForw == x
  {
    hide Succ, Prev, Linked;
    var i: nat :| i < |r| && r[i] == x;
    ThereAndBack(r, i);
    LinksAt(r, i);
    LinksAt(r, Succ(r, i));
    LinksAt(r, Prev(r, i));
  }

  /** The node at place k is nowhere else in the ring, and bp is nowhere. */
  lemma OnlyAt(r: seq<Node>, k: nat, bp: Node)
    requires NoDup(r) && k < |r| && bp !in r
    ensures forall i :: 0 <= i < |r| ==> (r[i] == r[k] <==> i == k) && r[i] != bp
  {
  }

  ghost function Elems(r: seq<Node>): set<Node> { set x | x in r }

  lemma ElemsIs(r: seq<Node>, x: Node)
    ensures x in Elems(r) <==> x in r
  {
  }

  /** Node by node, for the frame of what is known about o. */
  lemma Apart(o: seq<Node>, r: seq<Node>)
    requires forall x :: x in r ==> x !in o
    ensures forall i :: 0 <= i < |o| ==> o[i] !in r
  {
    forall x | x in o ensures x !in r {
    }
  }

  function Bufs(r: seq<Node>): seq<Buf> { seq(|r|, i requires 0 <= i < |r| => r[i].b) }

  lemma HeadOf(h: Node?, r: seq<Node>)
    requires RingAt(h, r)
    ensures NoDup(r) && |Bufs(r)| == |r| && (h == null <==> r == [])
    ensures h != null ==> h == r[0] && Bufs(r)[0] == h.b
  {
  }

  // ---------------------------------------------------------------- rings from other heads

  lemma TurnedAt(r: seq<Node>, p: nat, i: nat)
    requires p <= |r| && i < |r|
    ensures var t, j := Turned(r, p), if i < |r| - p then p + i else i - (|r| - p);
      |t| == |r| && t[i] == r[j] && t[Succ(t, i)] == r[Succ(r, j)] && t[Prev(t, i)] == r[Prev(r, j)]
  {
  }

  lemma TurnedLinked(r: seq<Node>, p: nat)
    requires NoDup(r) && Linked(r) && p <= |r|
    ensures var t := Turned(r, p); NoDup(t) && Linked(t) && |t| == |r| && forall x :: x in t <==> x in r
    ensures Bufs(Turned(r, p)) == Turned(Bufs(r), p)
  {
    hide Succ, Prev;
    var t := Turned(r, p);
    forall i | 0 <= i < |t| ensures t[i].avForw == t[Succ(t, i)] && t[i].avBack == t[Prev(t, i)] {
      TurnedAt(r, p, i);
    }
    assert r == r[..p] + r[p..];
  }

  // ---------------------------------------------------------------- the splices of que_insert

  lemma WithNodes(r: seq<Node>, bp: Node, p: nat)
    requires NoDup(r) && bp !in r && p <= |r|
    ensures NoDup(With(r, bp, p)) && Bufs(With(r, bp, p)) == With(Bufs(r), bp.b, p)
    ensures forall x :: x in With(r, bp, p) <==> x == bp || x in r
  {
    var t := With(r, bp, p);
    forall x ensures x in t <==> x == bp || x in r {
      if x in r {
        var i :| 0 <= i < |r| && r[i] == x;
        assert t[if i < p then i else i + 1] == x;
      }
      if x == bp { assert t[p] == x; }
    }
  }

  /** What the four writes of a splice leave, in whatever order they are made: bp is linked between the nodes
      on the two sides of place p, and the other links are those of the ring. */
  ghost predicate Spliced(r: seq<Node>, bp: Node, p: nat)
    requires 1 <= p <= |r|
    reads r, bp
  {
    var right := if p == |r| then 0 else p;
    && bp.avForw == r[right] && bp.avBack == r[p - 1]
    && (forall i {:trigger r[i].avForw} :: 0 <= i < |r| ==> r[i].avForw == if i == p - 1 then bp else r[Succ(r, i)])
    && (forall i {:trigger r[i].avBack} :: 0 <= i < |r| ==> r[i].avBack == if i == right then bp else r[Prev(r, i)])
  }

  lemma SplicedForw(r: seq<Node>, bp: Node, p: nat, i: nat)
    requires 1 <= p <= |r| && Spliced(r, bp, p) && i <= |r|
    ensures var t := With(r, bp, p); t[i].avForw == t[Succ(t, i)]
  {
  }

  lemma SplicedBack(r: seq<Node>, bp: Node, p: nat, i: nat)
    requires 1 <= p <= |r| && Spliced(r, bp, p) && i <= |r|
    ensures var t := With(r, bp, p); t[i].avBack == t[Prev(t, i)]
  {
  }

  lemma SplicedLinked(r: seq<Node>, bp: Node, p: nat)
    requires 1 <= p <= |r| && Spliced(r, bp, p)
    ensures Linked(With(r, bp, p))
  {
    hide Spliced;
    var t := With(r, bp, p);
    forall i | 0 <= i < |t| ensures t[i].avForw == t[Succ(t, i)] && t[i].avBack == t[Prev(t, i)] {
      SplicedForw(r, bp, p, i);
      SplicedBack(r, bp, p, i);
    }
  }

  /** Behind bp1, which is lower: the first splice. */
  method SpliceBehind(bp: Node, bp1: Node, ghost r: seq<Node>, ghost i: nat)
    requires NoDup(r) && Linked(r) && bp !in r && i < |r| && bp1 == r[i]
    modifies bp, r
    ensures Linked(With(r, bp, i + 1))
    ensures bp.bError == old(bp.bError) && forall x :: x in r ==> x.bError == old(x.bError)
  {
    ghost var k := Succ(r, i);
    assert k == if i + 1 == |r| then 0 else i + 1;
    hide NoDup, Succ, Prev;
    OnlyAt(r, i, bp);
    OnlyAt(r, k, bp);
    assert bp1.avForw == r[k];
    bp.avForw := bp1.avForw;
    bp1.avForw.avBack := bp;
    bp1.avForw := bp;
    bp.avBack := bp1;
    SplicedLinked(r, bp, i + 1);
  }

  /** Before bp1, which is the lowest or the first that is higher: the second and the third. */
  method SpliceBefore(bp: Node, bp1: Node, ghost r: seq<Node>, ghost i: nat)
    requires NoDup(r) && Linked(r) && bp !in r && i < |r| && bp1 == r[i]
    modifies bp, r
    ensures Linked(With(r, bp, if i == 0 then |r| else i))
    ensures bp.bError == old(bp.bError) && forall x :: x in r ==> x.bError == old(x.bError)
  {
    ghost var k, p := Prev(r, i), if i == 0 then |r| else i;
    assert k == p - 1 && (if p == |r| then 0 else p) == i;
    hide NoDup, Succ, Prev;
    OnlyAt(r, i, bp);
    OnlyAt(r, k, bp);
    assert bp1.avBack == r[k];
    bp.avForw := bp1;
    assert bp1.avBack == r[k];
    bp1.avBack.avForw := bp;
    assert bp1.avBack == r[k];
    bp.avBack := bp1.avBack;
    bp1.avBack := bp;
    SplicedLinked(r, bp, p);
  }

  /** Behind the highest: the fourth. */
  method SpliceAbove(bp: Node, bp1: Node, ghost r: seq<Node>, ghost i: nat)
    requires NoDup(r) && Linked(r) && bp !in r && i < |r| && bp1 == r[i]
    modifies bp, r
    ensures Linked(With(r, bp, i + 1))
    ensures bp.bError == old(bp.bError) && forall x :: x in r ==> x.bError == old(x.bError)
  {
    ghost var k := Succ(r, i);
    assert k == if i + 1 == |r| then 0 else i + 1;
    hide NoDup, Succ, Prev;
    OnlyAt(r, i, bp);
    OnlyAt(r, k, bp);
    assert bp1.avForw == r[k];
    bp.avBack := bp1;
    assert bp1.avForw == r[k];
    bp1.avForw.avBack := bp;
    assert bp1.avForw == r[k];
    bp.avForw := bp1.avForw;
    bp1.avForw := bp;
    SplicedLinked(r, bp, i + 1);
  }

  // ---------------------------------------------------------------- the walks of que_insert

  /** The first loop: the buffer to go behind, or the lowest, to go before. */
  method WalkBack(start: Node, bp: Node, ghost r: seq<Node>) returns (at: Node, between: bool, ghost i: nat)
    requires RingAt(start, r) && r != []
    ensures i < |r| && at == r[i]
    ensures BackFrom(Bufs(r), bp.b, 0, 0) == Spot(if between then i + 1 else if i == 0 then |r| else i, between)
  {
    var bp1: Node, lowest: Node := start, start;
    i := 0;
    ghost var l: nat := 0;
    ghost var v := Bufs(r);
    while true
      invariant i < |r| && l < |r| && bp1 == r[i] && lowest == r[l] && v == Bufs(r)
      invariant BackFrom(v, bp.b, i, l) == BackFrom(v, bp.b, 0, 0)
      decreases if i == 0 then |r| else i
    {
      if bp.Blk() > bp1.Blk() {
        return bp1, true, i;
      } else if bp1.Blk() < lowest.Blk() {
        lowest, l := bp1, i;
      }
      assert bp1.avBack == r[Prev(r, i)] && Prev(v, i) == Prev(r, i);
      if !(bp1.avBack.Blk() < bp1.Blk()) {
        return lowest, false, l;
      }
      bp1 := bp1.avBack;
      if bp1 == start {
        return lowest, false, l;
      }
      i := Prev(r, i);
    }
  }

  /** The second: the buffer to go before, or the highest, to go behind. */
  method WalkForth(start: Node, bp: Node, ghost r: seq<Node>) returns (at: Node, between: bool, ghost i: nat)
    requires RingAt(start, r) && r != []
    ensures i < |r| && at == r[i]
    ensures ForthFrom(Bufs(r), bp.b, 0, 0) == Spot(if between then i else i + 1, between)
  {
    var bp1: Node, highest: Node := start, start;
    i := 0;
    ghost var h: nat := 0;
    ghost var v := Bufs(r);
    while true
      invariant i < |r| && h < |r| && bp1 == r[i] && highest == r[h] && v == Bufs(r)
      invariant ForthFrom(v, bp.b, i, h) == ForthFrom(v, bp.b, 0, 0)
      decreases |r| - i
    {
      if bp.Blk() < bp1.Blk() {
        return bp1, true, i;
      } else if bp1.Blk() > highest.Blk() {
        highest, h := bp1, i;
      }
      assert bp1.avForw == r[Succ(r, i)] && Succ(v, i) == Succ(r, i);
      if !(bp1.avForw.Blk() > bp1.Blk()) {
        return highest, false, h;
      }
      bp1 := bp1.avForw;
      if bp1 == start {
        return highest, false, h;
      }
      i := Succ(r, i);
    }
  }

  lemma PutNodes(r: seq<Node>, bp: Node, p: nat, moves: bool)
    requires NoDup(r) && bp !in r && 1 <= p <= |r| && Linked(With(r, bp, p))
    ensures var t := Put(r, bp, p, moves);
      && (forall x :: x in t <==> x == bp || x in r)
      && RingAt(if moves then bp else r[0], t) && Elems(t) == Elems(r) + {bp}
      && Bufs(t) == Put(Bufs(r), bp.b, p, moves)
  {
    hide Linked, NoDup, Bufs;
    var t := With(r, bp, p);
    WithNodes(r, bp, p);
    TurnedLinked(t, p);
    assert forall x :: x in Put(r, bp, p, moves) <==> x in t;
  }

  /** The walk for bp from the head of its ring, and the splice at the end of it. */
  method PutInto(head: Node, bp: Node, ghost r: seq<Node>) returns (between: bool, ghost p: nat)
    requires RingAt(head, r) && r != [] && bp !in r
    modifies bp, r
    ensures 1 <= p <= |r| && SpotFor(Bufs(r), bp.b) == Spot(p, between) && Linked(With(r, bp, p))
    ensures bp.bError == old(bp.bError) && forall x :: x in r ==> x.bError == old(x.bError)
  {
    hide BackFrom, ForthFrom;
    var at;
    ghost var i;
    if bp.Blk() < head.Blk() {
      at, between, i := WalkBack(head, bp, r);
      if between {
        p := i + 1;
        SpliceBehind(bp, at, r, i);
      } else {
        p := if i == 0 then |r| else i;
        SpliceBefore(bp, at, r, i);
      }
    } else {
      at, between, i := WalkForth(head, bp, r);
      if between {
        p := i;
        SpliceBefore(bp, at, r, i);
      } else {
        p := i + 1;
        SpliceAbove(bp, at, r, i);
      }
    }
  }

  // ---------------------------------------------------------------- unlinking

  /** A ring of one whose links have been cleared, or a ring as it was. */
  ghost predicate Leaving(h: Node?, r: seq<Node>)
    reads r
  {
    && NoDup(r) && r != [] && h == r[0]
    && if |r| == 1 then r[0].avForw == null && r[0].avBack == null else Linked(r)
  }

  /** What remains when the head of a ring is bypassed. */
  ghost predicate Bypassed(r: seq<Node>)
    requires |r| > 1
    reads r
  {
    && (forall i {:trigger r[i].avForw} :: 1 <= i < |r| ==> r[i].avForw == if i + 1 == |r| then r[1] else r[i + 1])
    && (forall i {:trigger r[i].avBack} :: 1 <= i < |r| ==> r[i].avBack == if i == 1 then r[|r| - 1] else r[i - 1])
  }

  lemma TailLinked(r: seq<Node>)
    requires NoDup(r) && |r| > 1 && Bypassed(r)
    ensures NoDup(r[1..]) && Linked(r[1..])
  {
    var t := r[1..];
    forall i | 0 <= i < |t| ensures t[i].avForw == t[Succ(t, i)] && t[i].avBack == t[Prev(t, i)] {
      var j := i + 1;
      assert t[i] == r[j];
      assert t[Succ(t, i)] == if j + 1 == |r| then r[1] else r[j + 1];
      assert t[Prev(t, i)] == if j == 1 then r[|r| - 1] else r[j - 1];
      assert r[j].avBack == if j == 1 then r[|r| - 1] else r[j - 1];
      assert r[j].avForw == if j + 1 == |r| then r[1] else r[j + 1];
    }
  }

  /** The head of a ring is taken out of it. */
  method Bypass(bp: Node, ghost r: seq<Node>)
    requires NoDup(r) && Linked(r) && |r| > 1 && bp == r[0]
    modifies r
    ensures Bypassed(r) && bp.avForw == null && bp.avBack == null && forall x :: x in r ==> x.bError == old(x.bError)
  {
    assert bp.avForw == r[1] && bp.avBack == r[|r| - 1];
    bp.avForw.avBack := bp.avBack;
    assert bp.avBack == r[|r| - 1] && bp.avForw == r[1];
    bp.avBack.avForw := bp.avForw;
    bp.avForw, bp.avBack := null, null;
  }

  lemma UnlinkedBufs(r: seq<Node>, back: bool)
    requires r != []
    ensures Bufs(Unlinked(r, back)) == Unlinked(Bufs(r), back)
  {
    assert Bufs(r)[1..] == Bufs(r[1..]);
  }

  lemma UnlinkedElems(r: seq<Node>, back: bool)
    requires r != [] && NoDup(r)
    ensures var t := Unlinked(r, back); Elems(t) + {r[0]} == Elems(r) && r[0] !in t && forall x :: x in t ==> x in r
  {
    var t := Unlinked(r, back);
    assert r == [r[0]] + r[1..];
    if |r| > 1 {
      var u, k := r[1..], |r| - 2;
      assert u == u[..k] + u[k..];
      assert forall x :: x in t <==> x in u;
    }
  }

  /** The node at the head of a ring is unlinked; the head moves in the direction of the scan. */
  method UnlinkHead(bp: Node, back: bool, ghost r: seq<Node>) returns (head: Node?)
    requires Leaving(bp, r)
    modifies r
    ensures RingAt(head, Unlinked(r, back))
    ensures bp.avForw == null && bp.avBack == null && forall x :: x in r ==> x.bError == old(x.bError)
  {
    if bp.avForw != null {
      ghost var k := |r| - 1;
      assert |r| > 1 && bp.avForw == r[1] && bp.avBack == r[k];
      if back {
        head := bp.avBack;
      } else {
        head := bp.avForw;
      }
      Bypass(bp, r);
      TailLinked(r);
      TurnedLinked(r[1..], |r| - 2);
    } else {
      head := null;
    }
  }

  // ---------------------------------------------------------------- the driver's own code

  /** struct que_data: the two heads, the flags, hd_private, sync_async_ratio and q_cnt.  The rings behind the
      heads are kept beside them. */
  class QueData {
    var syncNext: Node?
    var asyncNext: Node?
    var only: bool
    var also: bool
    var back: bool
    var private: nat
    var ratio: int
    var cnt: int
    const tuning: Tuning
    ghost var sync: seq<Node>
    ghost var async: seq<Node>

    ghost predicate Valid()
      reads this, sync, async
    {
      RingAt(syncNext, sync) && RingAt(asyncNext, async) && forall x :: x in sync ==> x !in async
    }

    ghost function View(): Que
      reads this
    {
      Que(Bufs(sync), Bufs(async), only, also, back, private, ratio, cnt)
    }

    ghost function Nodes(low: bool): seq<Node> reads this { if low then async else sync }

    constructor (u: Tuning)
      ensures Valid() && tuning == u && sync == [] && async == []
      ensures View() == Que([], [], false, false, false, 0, u.sync2async, 0)
    {
      tuning := u;
      syncNext, asyncNext, sync, async := null, null, [], [];
      only, also, back, private, ratio, cnt := false, false, false, 0, u.sync2async, 0;
    }

    /** A head pointer, and the ring that it names. */
    method Point(low: bool, h: Node?, ghost r: seq<Node>)
      requires RingAt(h, r) && RingAt(if low then syncNext else asyncNext, Nodes(!low))
      requires forall x :: x in r ==> x !in Nodes(!low)
      modifies this`sync, this`async, this`syncNext, this`asyncNext
      ensures Valid() && Nodes(low) == r && Nodes(!low) == old(Nodes(!low))
      ensures View() == WithRing(old(View()), low, Bufs(r))
      ensures (if low then asyncNext else syncNext) == h
    {
      if low {
        asyncNext, async := h, r;
      } else {
        syncNext, sync := h, r;
      }
    }

    /** The first buffer of a ring. */
    method InsertFirst(bp: Node)
      requires Valid() && Nodes(bp.b.low) == [] && bp !in sync && bp !in async
      modifies this, bp
      ensures Valid() && bp.bError == old(bp.bError)
      ensures Nodes(bp.b.low) == [bp] && Nodes(!bp.b.low) == old(Nodes(!bp.b.low))
      ensures View() == Add(old(View()), bp.b).(cnt := old(cnt))
    {
      bp.avForw, bp.avBack := bp, bp;
      assert RingAt(bp, [bp]) && Bufs([bp]) == [bp.b];
      Point(bp.b.low, bp, [bp]);
      HeadOf(syncNext, sync);
      HeadOf(asyncNext, async);
      if bp.b.low {
        if syncNext == null {
          only := true;
        }
      } else {
        only := false;
        if asyncNext != null {
          also := true;
        }
      }
    }

    /** Whether the head goes to a buffer that was put at a place, `below` being a block below the head's. */
    method HeadMoves(bp: Node, below: bool, between: bool, ghost q: Que, ghost s: Spot) returns (moves: bool)
      requires q.only == only && q.also == also && q.back == back && q.private == private && s.between == between
      requires RingOf(q, bp.b.low) != [] && (below <==> bp.b.blk < RingOf(q, bp.b.low)[0].blk)
      ensures moves == Moves(q, bp.b, s)
    {
      var low := bp.b.low;
      if below && between {
        if (low && (only || also)) || !low {
          if !back && bp.Blk() > private {
            return true;
          }
        }
        return false;
      } else if below {
        if low && !(only || also) {
          return true;
        } else if !back && bp.Blk() > private {
          return true;
        }
        return false;
      }
      return (!low || only || also) && back && bp.Blk() < private;
    }

    /** que_insert into a ring that is not empty. */
    method InsertInto(bp: Node, head: Node)
      requires Valid() && bp !in sync && bp !in async
      requires head == if bp.b.low then asyncNext else syncNext
      modifies this`sync, this`async, this`syncNext, this`asyncNext, bp, Nodes(bp.b.low)
      ensures Valid() && View() == Add(old(View()), bp.b).(cnt := old(cnt))
      ensures Nodes(!bp.b.low) == old(Nodes(!bp.b.low))
      ensures Elems(Nodes(bp.b.low)) == old(Elems(Nodes(bp.b.low))) + {bp}
      ensures bp.bError == old(bp.bError) && forall x :: x in old(sync) || x in old(async) ==> x.bError == old(x.bError)
    {
      hide SpotFor, Moves, Bufs, RingAt, Linked, NoDup, Elems, Put;
      ghost var r, q := Nodes(bp.b.low), View();
      HeadOf(head, r);
      ghost var o := Nodes(!bp.b.low);
      Apart(o, r);
      assert forall i :: 0 <= i < |o| ==> o[i] != bp;
      var between, p := PutInto(head, bp, r);
      var moves := HeadMoves(bp, bp.Blk() < head.Blk(), between, q, Spot(p, between));
      PutNodes(r, bp, p, moves);
      Point(bp.b.low, if moves then bp else head, Put(r, bp, p, moves));
    }

    /** que_insert */
    method QueInsert(bp: Node)
      requires Valid() && bp !in sync && bp !in async
      modifies this, bp, Nodes(bp.b.low)
      ensures Valid() && View() == Add(old(View()), bp.b).(cnt := old(cnt))
      ensures Nodes(!bp.b.low) == old(Nodes(!bp.b.low))
      ensures Elems(Nodes(bp.b.low)) == old(Elems(Nodes(bp.b.low))) + {bp}
      ensures bp.bError == (if old(bp.avBack) != null then old(bp.avBack) else old(bp.bError))
      ensures forall x :: x in old(sync) || x in old(async) ==> x.bError == old(x.bError)
    {
      hide Add;
      if bp.avBack != null {
        bp.bError := bp.avBack;
      }
      var head := if bp.b.low then asyncNext else syncNext;
      if head == null {
        InsertFirst(bp);
      } else {
        InsertInto(bp, head);
      }
    }

    /** qmerge_add */
    method QmergeAdd(bp: Node) returns (count: int)
      requires Valid() && bp !in sync && bp !in async
      modifies this, bp, Nodes(bp.b.low)
      ensures Valid() && View() == Add(old(View()), bp.b) && count == cnt
      ensures Nodes(!bp.b.low) == old(Nodes(!bp.b.low))
      ensures Elems(Nodes(bp.b.low)) == old(Elems(Nodes(bp.b.low))) + {bp}
      ensures bp.bError == (if old(bp.avBack) != null then old(bp.avBack) else old(bp.bError))
      ensures forall x :: x in old(sync) || x in old(async) ==> x.bError == old(x.bError)
    {
      hide Linked, NoDup, Elems, Bufs;
      QueInsert(bp);
      cnt := cnt + 1;
      count := cnt;
    }

    /** The nodes that wait. */
    ghost function All(): set<Node> reads this { Elems(sync) + Elems(async) }

    /** A head goes on by one, forward or back. */
    method TurnHead(low: bool, forward: bool)
      requires Valid() && Nodes(low) != []
      modifies this`sync, this`async, this`syncNext, this`asyncNext
      ensures Valid() && Elems(Nodes(low)) == old(Elems(Nodes(low))) && Nodes(!low) == old(Nodes(!low))
      ensures var r := RingOf(old(View()), low);
        r != [] && View() == WithRing(old(View()), low, Turned(r, if forward then 1 else |r| - 1))
    {
      ghost var r, n := Nodes(low), if forward then 1 else |Nodes(low)| - 1;
      TurnedLinked(r, n);
      var head := if low then asyncNext else syncNext;
      Point(low, if forward then head.avForw else head.avBack, Turned(r, n));
    }

    /** Both do. */
    method TurnBoth(forward: bool)
      requires Valid() && sync != [] && async != []
      modifies this`sync, this`async, this`syncNext, this`asyncNext
      ensures Valid() && All() == old(All())
      ensures var q := old(View());
        View() == q.(sync := Turned(q.sync, if forward then 1 else |q.sync| - 1),
                     async := Turned(q.async, if forward then 1 else |q.async| - 1))
    {
      hide Linked, NoDup, Elems, Bufs, Turned;
      HeadOf(asyncNext, async);
      TurnHead(false, forward);
      TurnHead(true, forward);
    }

    /** QNEAR_ASYNCALSO: whether qmerge_nextbp goes back to its beginning, and what it does before. */
    method GoBack() returns (again: bool)
      requires Valid() && sync != [] && async != []
      modifies this`sync, this`async, this`syncNext, this`asyncNext, this`back, this`also, this`ratio, this`private
      ensures Valid() && All() == old(All())
      ensures var a := Again(old(View()), tuning); again == a.Some? && View() == if again then a.value else old(View())
    {
      hide Bufs, Elems, Turned;
      HeadOf(syncNext, sync);
      HeadOf(asyncNext, async);
      var s, a := syncNext.Blk(), asyncNext.Blk();
      if back {
        if s > private && a > private {
          TurnBoth(true);
          back, also := false, false;
          ratio, private := tuning.sync2async, 0;
          return true;
        }
      } else if s < private && a < private {
        if tuning.twoWay {
          TurnBoth(false);
          back := true;
        } else {
          also := false;
          ratio, private := tuning.sync2async, 0;
        }
        return true;
      }
      return false;
    }

    /** The last node of a ring gives up its links. */
    method LetGo(bp: Node, ghost r: seq<Node>) returns (alone: bool)
      requires RingAt(bp, r)
      modifies bp
      ensures Leaving(bp, r) && alone == (|r| == 1) && bp.bError == old(bp.bError)
      ensures |Bufs(r)| == |r| && Bufs(r)[0] == bp.b
      ensures !alone ==>
        && bp.avForw != null && bp.avForw.b == Bufs(r)[1]
        && bp.avBack != null && bp.avBack.b == Bufs(r)[|r| - 1]
    {
      if bp.avForw == bp {
        bp.avForw, bp.avBack := null, null;
        return true;
      }
      return false;
    }

    /** QNEAR_ASYNCONLY */
    method PickOnly() returns (bp: Node, priv: nat)
      requires Valid() && only && sync == [] && async != []
      modifies this`only, this`back, asyncNext
      ensures bp == asyncNext && Leaving(bp, async) && bp.bError == old(bp.bError)
      ensures ChooseOnly(old(View()), tuning) == Choice(true, View().(private := priv))
    {
      hide Bufs;
      bp := asyncNext;
      priv := bp.Blk();
      var alone := LetGo(bp, async);
      HeadOf(syncNext, sync);
      if alone {
        only, back := false, false;
        priv := 0;
      } else if back {
        if bp.Blk() < bp.avBack.Blk() {
          back := false;
          priv := 0;
        }
      } else if bp.Blk() > bp.avForw.Blk() {
        if tuning.twoWay {
          back := true;
        } else {
          priv := 0;
        }
      } else if !tuning.twoWay {
        priv := bp.avForw.Blk();
      }
    }

    /** The asynchronous ring is let in once in a while. */
    method ScanEnds()
      modifies this`ratio, this`also
      ensures RingAt(asyncNext, async) ==> View().(private := 0) == EndScan(old(View()), tuning).(private := 0)
    {
      if ratio > 0 {
        ratio := ratio - 1;
      } else {
        if asyncNext != null {
          also := true;
        }
        ratio := tuning.sync2async;
      }
    }

    /** The scan goes on or turns, from a head that is not alone. */
    method ScanSync(bp: Node) returns (priv: nat)
      requires RingAt(asyncNext, async) && |Bufs(sync)| > 1 && bp.b == Bufs(sync)[0]
      requires bp.avForw != null && bp.avForw.b == Bufs(sync)[1]
      requires bp.avBack != null && bp.avBack.b == Bufs(sync)[|Bufs(sync)| - 1]
      modifies this`also, this`back, this`ratio
      ensures ChooseSync(old(View()), tuning) == Choice(false, View().(private := priv))
    {
      hide Bufs;
      priv := bp.Blk();
      if back {
        if bp.Blk() < bp.avBack.Blk() {
          back := false;
          ScanEnds();
          priv := 0;
        }
      } else if bp.Blk() > bp.avForw.Blk() {
        priv := 0;
        if tuning.twoWay {
          back := true;
          priv := bp.Blk();
        } else {
          ScanEnds();
        }
      } else if !tuning.twoWay {
        priv := bp.avForw.Blk();
      }
    }

    /** Neither flag */
    method PickSync() returns (bp: Node, priv: nat)
      requires Valid() && sync != []
      modifies this`only, this`also, this`back, this`ratio, syncNext
      ensures bp == syncNext && Leaving(bp, sync) && RingAt(asyncNext, async) && bp.bError == old(bp.bError)
      ensures ChooseSync(old(View()), tuning) == Choice(false, View().(private := priv))
    {
      hide Bufs;
      bp := syncNext;
      Apart(async, sync);
      var alone := LetGo(bp, sync);
      HeadOf(asyncNext, async);
      if alone {
        priv := 0;
        ratio := tuning.sync2async;
        back := false;
        if asyncNext != null {
          only := true;
        }
      } else {
        priv := ScanSync(bp);
      }
    }

    /** Which head lies next in the direction of the scan. */
    method NextHead() returns (low: bool)
      requires Valid() && sync != [] && async != []
      ensures low == PickLow(View())
    {
      var s, a := syncNext.Blk(), asyncNext.Blk();
      if back {
        if a < private && s < private {
          return a > s;
        }
        return a < private;
      } else if a > private && s > private {
        return a < s;
      }
      return a > private;
    }

    /** QNEAR_ASYNCALSO, once a ring is chosen. */
    method PickAlso(low: bool) returns (bp: Node, priv: nat)
      requires Valid() && Nodes(low) != []
      modifies this`only, this`also, this`ratio, if low then asyncNext else syncNext
      ensures bp == (if low then asyncNext else syncNext) && Leaving(bp, Nodes(low)) && bp.bError == old(bp.bError)
      ensures RingAt(if low then syncNext else asyncNext, Nodes(!low))
      ensures ChooseAlso(old(View()), low, tuning) == Choice(low, View().(private := priv))
    {
      hide Bufs;
      bp := if low then asyncNext else syncNext;
      Apart(Nodes(!low), Nodes(low));
      var alone := LetGo(bp, Nodes(low));
      if alone {
        also := false;
        if low {
          ratio := tuning.sync2async;
        } else {
          only := true;
        }
      }
      priv := bp.Blk();
    }

    /** The head's buffer leaves its ring. */
    method Drop(bp: Node, low: bool)
      requires Leaving(bp, Nodes(low)) && RingAt(if low then syncNext else asyncNext, Nodes(!low))
      requires forall x :: x in Nodes(low) ==> x !in Nodes(!low)
      modifies this`sync, this`async, this`syncNext, this`asyncNext, Nodes(low)
      ensures Valid() && All() + {bp} == old(All()) && bp !in All()
      ensures RingOf(old(View()), low) != [] && RingOf(old(View()), low)[0] == bp.b
      ensures View() == WithRing(old(View()), low, Unlinked(RingOf(old(View()), low), back))
      ensures bp.avForw == null && bp.avBack == null && bp.bError == old(bp.bError)
      ensures forall x :: x in old(sync) || x in old(async) ==> x.bError == old(x.bError)
    {
      hide Unlinked;
      ghost var r, o := Nodes(low), Nodes(!low);
      Apart(o, r);
      var head := UnlinkHead(bp, back, r);
      UnlinkedBufs(r, back);
      UnlinkedElems(r, back);
      Point(low, head, Unlinked(r, back));
    }

    /** The end of qmerge_nextbp: the buffer is unlinked, and its av_back is what it was when it came. */
    method Finish(bp: Node, low: bool, priv: nat)
      requires Leaving(bp, Nodes(low)) && RingAt(if low then syncNext else asyncNext, Nodes(!low))
      requires forall x :: x in Nodes(low) ==> x !in Nodes(!low)
      modifies this`sync, this`async, this`syncNext, this`asyncNext, this`private, this`cnt, Nodes(low)
      ensures Valid() && All() + {bp} == old(All()) && bp !in All()
      ensures var q := old(View()).(private := priv);
        RingOf(q, low) != [] && RingOf(q, low)[0] == bp.b && View() == Unlink(Choice(low, q))
      ensures bp.avForw == null && bp.avBack == old(bp.bError) && bp.bError == null
      ensures forall x :: (x in old(sync) || x in old(async)) && x != bp ==> x.bError == old(x.bError)
    {
      hide Unlinked, Elems, Bufs;
      Drop(bp, low);
      private := priv;
      cnt := cnt - 1;
      assert bp !in sync && bp !in async by { NotHeld(bp); }
      if bp.bError != null {
        bp.avBack := bp.bError;
        bp.bError := null;
      }
    }

    lemma Waiting()
      ensures forall x :: x in All() <==> x in sync || x in async
    {
    }

    lemma NotHeld(bp: Node)
      requires bp !in All()
      ensures bp !in sync && bp !in async
    {
    }

    /** bp is the head of the chosen ring, and has been unlinked. */
    ghost predicate Taken(bp: Node, c: Choice)
      reads this
    {
      RingOf(c.q, c.low) != [] && RingOf(c.q, c.low)[0] == bp.b && View() == Unlink(c)
    }

    /** QNEAR_ASYNCONLY, with the end of qmerge_nextbp */
    method TakeOnly() returns (bp: Node)
      requires Valid() && only && sync == [] && async != []
      modifies this, All()
      ensures Valid() && Taken(bp, ChooseOnly(old(View()), tuning))
      ensures All() + {bp} == old(All()) && bp !in All()
      ensures bp.avForw == null && bp.avBack == old(bp.bError) && bp.bError == null
      ensures forall x :: (x in old(sync) || x in old(async)) && x != bp ==> x.bError == old(x.bError)
    {
      hide ChooseOnly, ChooseSync, ChooseAlso, PickLow, Unlink, Elems;
      HeadOf(syncNext, sync);
      HeadOf(asyncNext, async);
      Waiting();
      var priv;
      bp, priv := PickOnly();
      Finish(bp, true, priv);
    }

    /** Neither flag */
    method TakeSync() returns (bp: Node)
      requires Valid() && sync != []
      modifies this, All()
      ensures Valid() && Taken(bp, ChooseSync(old(View()), tuning))
      ensures All() + {bp} == old(All()) && bp !in All()
      ensures bp.avForw == null && bp.avBack == old(bp.bError) && bp.bError == null
      ensures forall x :: (x in old(sync) || x in old(async)) && x != bp ==> x.bError == old(x.bError)
    {
      hide ChooseOnly, ChooseSync, ChooseAlso, PickLow, Unlink, Elems;
      HeadOf(syncNext, sync);
      HeadOf(asyncNext, async);
      Waiting();
      var priv;
      bp, priv := PickSync();
      Finish(bp, false, priv);
    }

    /** QNEAR_ASYNCALSO, once it does not go back */
    method TakeAlso() returns (bp: Node)
      requires Valid() && sync != [] && async != []
      modifies this, All()
      ensures Valid() && Taken(bp, ChooseAlso(old(View()), PickLow(old(View())), tuning))
      ensures All() + {bp} == old(All()) && bp !in All()
      ensures bp.avForw == null && bp.avBack == old(bp.bError) && bp.bError == null
      ensures forall x :: (x in old(sync) || x in old(async)) && x != bp ==> x.bError == old(x.bError)
    {
      hide ChooseOnly, ChooseSync, ChooseAlso, PickLow, Unlink, Elems;
      HeadOf(syncNext, sync);
      HeadOf(asyncNext, async);
      Waiting();
      var low := NextHead();
      var priv;
      bp, priv := PickAlso(low);
      Finish(bp, low, priv);
    }

    /** qmerge_nextbp when it does not go back to its beginning. */
    method Pick() returns (bp: Node)
      requires Valid() && Shape(View()) && cnt != 0 && (only || !also || Again(View(), tuning).None?)
      modifies this, All()
      ensures Valid() && (Some(bp.b), View()) == Next(old(View()), tuning)
      ensures All() + {bp} == old(All()) && bp !in All()
      ensures bp.avForw == null && bp.avBack == old(bp.bError) && bp.bError == null
      ensures forall x :: (x in old(sync) || x in old(async)) && x != bp ==> x.bError == old(x.bError)
    {
      hide ChooseOnly, ChooseSync, ChooseAlso, PickLow, Again, Unlink, Elems, Linked, NoDup;
      ChooseRing(View(), tuning);
      HeadOf(syncNext, sync);
      HeadOf(asyncNext, async);
      if only {
        bp := TakeOnly();
      } else if also {
        bp := TakeAlso();
      } else {
        bp := TakeSync();
      }
    }

    /** The jumps back to the beginning of qmerge_nextbp. */
    method Rewind()
      requires Valid() && Shape(View()) && cnt != 0
      modifies this`sync, this`async, this`syncNext, this`asyncNext, this`back, this`also, this`ratio, this`private
      ensures Valid() && Shape(View()) && cnt != 0 && All() == old(All())
      ensures Next(View(), tuning) == Next(old(View()), tuning)
      ensures only || !also || Again(View(), tuning).None?
    {
      hide ChooseOnly, ChooseSync, ChooseAlso, PickLow, Again, Unlink, Elems, Bufs, Linked, NoDup;
      ghost var q := View();
      ChooseRing(q, tuning);
      while !only && also
        invariant Valid() && Shape(View()) && cnt != 0 && Choose(View(), tuning) == Choose(q, tuning)
        invariant All() == old(All())
        decreases Turns(View())
      {
        ghost var q1 := View();
        if Again(q1, tuning).Some? { AgainKeeps(q1, tuning); }
        HeadOf(syncNext, sync);
        HeadOf(asyncNext, async);
        var again := GoBack();
        if !again {
          break;
        }
      }
      ChooseRing(View(), tuning);
    }

    /** qmerge_nextbp without merging. */
    method QmergeNextbp() returns (bp: Node?)
      requires Valid() && Shape(View())
      modifies this, All()
      ensures Valid() && (if bp == null then None else Some(bp.b), View()) == Next(old(View()), tuning)
      ensures bp == null ==> All() == old(All())
      ensures bp != null ==>
        && All() + {bp} == old(All()) && bp !in All()
        && bp.avForw == null && bp.avBack == old(bp.bError) && bp.bError == null
      ensures forall x :: (x in old(sync) || x in old(async)) && x != bp ==> x.bError == old(x.bError)
    {
      hide Next, Again, Shape, Elems, Bufs, Linked, NoDup;
      if cnt == 0 {
        NothingNext(View(), tuning);
        return null;
      }
      ghost var s, a := sync, async;
      Waiting();
      Rewind();
      Waiting();
      bp := Pick();
      assert bp in s + a by {
        assert bp in All() + {bp};
        assert bp in Elems(s) + Elems(a);
        ElemsIs(s, bp);
        ElemsIs(a, bp);
      }
    }
  }

  lemma NothingNext(q: Que, u: Tuning)
    requires Shape(q) && q.cnt == 0
    ensures Next(q, u) == (None, q)
  {
  }

  // ---------------------------------------------------------------- whole runs

  /** The operations of QMerge that adding these nodes comes to; a null stands for a pick. */
  function OpsOf(ops: seq<Node?>): seq<Op> {
    seq(|ops|, i requires 0 <= i < |ops| => if ops[i] == null then OpNext else OpAdd(ops[i].b))
  }

  lemma OpsOfLast(ops: seq<Node?>, n: nat, u: Tuning)
    requires n < |ops|
    ensures After(OpsOf(ops[..n + 1]), u) == Do(After(OpsOf(ops[..n]), u), OpsOf(ops)[n], u)
  {
    var more := OpsOf(ops[..n + 1]);
    assert more[..n] == OpsOf(ops[..n]) && more[n] == OpsOf(ops)[n];
  }

  lemma HeldAreOps(sync: seq<Node>, async: seq<Node>, ops: seq<Node?>)
    requires forall x :: x in sync || x in async ==> x in ops
    ensures forall i :: 0 <= i < |sync| ==> sync[i] in ops
    ensures forall i :: 0 <= i < |async| ==> async[i] in ops
  {
  }

  lemma AllInverse(sync: seq<Node>, async: seq<Node>)
    requires Linked(sync) && Linked(async)
    ensures forall x :: x in sync + async ==>
              x.avForw != null && x.avForw.avBack == x && x.avBack != null && x.avBack.avForw == x
  {
    hide Linked;
    forall x | x in sync + async
      ensures x.avForw != null && x.avForw.avBack == x && x.avBack != null && x.avBack.avForw == x
    {
      MutuallyInverse(if x in sync then sync else async, x);
    }
  }

  /** Any operations on a new queue: at the end the rings are those of QMerge, and the two links of every
      waiting buffer undo each other. */
  method Perform(ops: seq<Node?>, u: Tuning) returns (q: QueData)
    requires forall i, j :: 0 <= i < j < |ops| && ops[i] != null ==> ops[i] != ops[j]
    modifies set x: Node | x in ops
    ensures q.Valid() && q.View() == After(OpsOf(ops), u).q
    ensures forall x :: x in q.sync + q.async ==>
              x.avForw != null && x.avForw.avBack == x && x.avBack != null && x.avBack.avForw == x
  {
    hide After, Do, Next, Add, Bufs, Linked, NoDup;
    q := new QueData(u);
    AfterNone(u);
    assert OpsOf(ops[..0]) == [];
    for n := 0 to |ops|
      invariant fresh(q) && q.Valid() && q.tuning == u && q.View() == After(OpsOf(ops[..n]), u).q
      invariant forall x :: x in q.All() ==> x in ops[..n]
    {
      OpsOfLast(ops, n, u);
      DoIs(After(OpsOf(ops[..n]), u), OpsOf(ops)[n], u);
      q.Waiting();
      HeldAreOps(q.sync, q.async, ops[..n]);
      assert ops[..n + 1] == ops[..n] + [ops[n]];
      var op := ops[n];
      if op == null {
        var bp := q.QmergeNextbp();
      } else {
        var cnt := q.QmergeAdd(op);
      }
    }
    assert ops[..|ops|] == ops;
    AllInverse(q.sync, q.async);
  }

  lemma DoIs(h: History, op: Op, u: Tuning)
    requires Shape(h.q)
    ensures Do(h, op, u).q == match op case OpAdd(b) => Add(h.q, b) case OpNext => Next(h.q, u).1
  {
  }
}
