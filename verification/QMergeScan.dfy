/**
  Which request qmerge_nextbp takes (dktp/drvobj/strategy.c): the scan over the two rings of QMerge.

  hd_private is the position of the scan and QNEAR_BACKWARD its direction.  What is scanned is the
  synchronous ring, and the asynchronous one while QNEAR_ASYNCONLY or QNEAR_ASYNCALSO says so.
 */
module QMergeScan {
  import opened Options
  import opened QMerge

  /** Block x lies strictly ahead of position p. */
  predicate Ahead(back: bool, p: nat, x: nat) { if back then x < p else x > p }

  /** The head is where the scan goes on: at the position or ahead of it, with nothing ahead nearer; or nothing is
      ahead, and the head is the far end of the ring, behind the position. */
  ghost predicate Aimed(r: seq<Buf>, back: bool, p: nat) {
    r != [] ==>
      if Ahead(!back, p, r[0].blk) then
        forall x :: x in r ==> !Ahead(back, p, x.blk) && !Ahead(!back, r[0].blk, x.blk)
      else
        forall x :: x in r && Ahead(back, p, x.blk) ==> !Ahead(!back, r[0].blk, x.blk)
  }

  ghost predicate Lowest(r: seq<Buf>) { r != [] ==> forall x :: x in r ==> r[0].blk <= x.blk }

  ghost predicate Highest(r: seq<Buf>) { r != [] ==> forall x :: x in r ==> x.blk <= r[0].blk }

  /** The rings that are scanned are aimed, and one that is not waits with its lowest block at the head. */
  ghost predicate AllAimed(q: Que) {
    && Aimed(q.sync, q.back, q.private)
    && (if Near(q) then Aimed(q.async, q.back, q.private) else Lowest(q.async))
  }

  ghost predicate Sound(q: Que, u: Tuning) {
    Shape(q) && Rings(q) && BothDistinct(q) && AllAimed(q) && (!u.twoWay ==> !q.back)
  }

  // ---------------------------------------------------------------- one ring

  /** In a rising cycle of distinct blocks, who comes next and who came before. */
  lemma After1(r: seq<Buf>)
    requires Ring(r) && Distinct(r) && |r| > 1
    ensures r[1].blk > r[0].blk ==> forall i :: 0 <= i < |r| && r[i].blk > r[0].blk ==> r[i].blk >= r[1].blk
    ensures r[1].blk < r[0].blk ==> forall i :: 0 <= i < |r| ==> r[1].blk <= r[i].blk <= r[0].blk
  {
    var k: nat :| RotAt(r, k);
  }

  lemma Before1(r: seq<Buf>)
    requires Ring(r) && Distinct(r) && |r| > 1
    ensures var l := r[|r| - 1].blk;
      && (l < r[0].blk ==> forall i :: 0 <= i < |r| && r[i].blk < r[0].blk ==> r[i].blk <= l)
      && (l > r[0].blk ==> forall i :: 0 <= i < |r| ==> r[0].blk <= r[i].blk <= l)
  {
    var k: nat :| RotAt(r, k);
  }

  /** What stays when the head goes. */
  lemma UnlinkedIs(r: seq<Buf>, back: bool)
    requires |r| > 1
    ensures var t := Unlinked(r, back);
      && t[0] == (if back then r[|r| - 1] else r[1])
      && forall x :: x in t <==> exists i :: 1 <= i < |r| && r[i] == x
  {
    var m := r[1..];
    assert |m| == |r| - 1 && forall i :: 0 <= i < |m| ==> m[i] == r[i + 1];
    assert m == m[..|m| - 1] + [m[|m| - 1]];
    assert Turned(m, |m| - 1) == [m[|m| - 1]] + m[..|m| - 1];
    forall x ensures x in m <==> exists i :: 1 <= i < |r| && r[i] == x {
      if x in m {
        var j :| 0 <= j < |m| && m[j] == x;
        assert r[j + 1] == x;
      }
      if i :| 1 <= i < |r| && r[i] == x {
        assert m[i - 1] == x;
      }
    }
  }

  /** When the head is taken, the ring without it is aimed from the head's block. */
  lemma UnlinkedAimed(r: seq<Buf>, back: bool)
    requires Ring(r) && Distinct(r) && r != []
    ensures Aimed(Unlinked(r, back), back, r[0].blk)
  {
    if |r| > 1 {
      UnlinkedIs(r, back);
      if back { Before1(r); } else { After1(r); }
      hide Ring, Unlinked;
    }
  }

  /** The next in the direction is behind exactly when nothing that stays is ahead. */
  lemma EndOfScan(r: seq<Buf>, back: bool)
    requires Ring(r) && Distinct(r) && |r| > 1
    ensures var n := if back then r[|r| - 1].blk else r[1].blk;
      && n != r[0].blk
      && (Ahead(!back, r[0].blk, n) <==> forall x :: x in Unlinked(r, back) ==> Ahead(!back, r[0].blk, x.blk))
  {
    var t := Unlinked(r, back);
    UnlinkedIs(r, back);
    if back { Before1(r); } else { After1(r); }
    assert t[0] in t;
    hide Ring, Unlinked;
    forall x | x in t ensures x.blk != r[0].blk {
      var i :| 1 <= i < |r| && r[i] == x;
    }
  }

  /** The same elements stay whichever way the scan goes. */
  lemma UnlinkedSame(r: seq<Buf>, x: Buf)
    requires r != []
    ensures x in Unlinked(r, true) <==> x in Unlinked(r, false)
  {
    if |r| > 1 {
      UnlinkedIs(r, true);
      UnlinkedIs(r, false);
    }
  }

  /** Where a scan ends at the highest block, the next one up begins with the lowest; and back. */
  lemma NextScan(r: seq<Buf>, back: bool)
    requires Ring(r) && Distinct(r) && |r| > 1
    requires forall x :: x in Unlinked(r, back) ==> Ahead(!back, r[0].blk, x.blk)
    ensures var t := Unlinked(r, !back); if back then Lowest(t) else Highest(t)
    ensures !back ==> Lowest(Unlinked(r, false))
  {
    UnlinkedAimed(r, true);
    UnlinkedAimed(r, false);
    forall x ensures x in Unlinked(r, true) <==> x in Unlinked(r, false) { UnlinkedSame(r, x); }
    assert Unlinked(r, true)[0] in Unlinked(r, true) && Unlinked(r, false)[0] in Unlinked(r, false);
    hide Ring, Distinct, Unlinked;
  }

  lemma LowestAimed(r: seq<Buf>)
    requires Lowest(r)
    ensures Aimed(r, false, 0)
  {
  }

  /** A head that is behind turns to the other end. */
  lemma TurnsDown(r: seq<Buf>, p: nat)
    requires Ring(r) && Distinct(r) && r != [] && Aimed(r, false, p) && r[0].blk < p
    ensures Lowest(r) && Highest(Turned(r, |r| - 1)) && Aimed(Turned(r, |r| - 1), true, p)
    ensures forall x :: x in Turned(r, |r| - 1) <==> x in r
  {
    var t := Turned(r, |r| - 1);
    TurnedHas(r, |r| - 1);
    assert t[0] == r[|r| - 1];
    if |r| > 1 { Before1(r); }
    assert r[0] in r && t[0] in t;
    hide Ring, Turned;
    forall x | x in r ensures x.blk <= t[0].blk {
      var i :| 0 <= i < |r| && r[i] == x;
    }
  }

  lemma TurnsUp(r: seq<Buf>, p: nat)
    requires Ring(r) && Distinct(r) && r != [] && Aimed(r, true, p) && r[0].blk > p
    ensures Lowest(Turned(r, 1)) && forall x :: x in Turned(r, 1) <==> x in r
  {
    var t := Turned(r, 1);
    TurnedHas(r, 1);
    assert |r| > 1 ==> t[0] == r[1];
    if |r| > 1 { After1(r); } else { assert t == r; }
    assert r[0] in r && t[0] in t;
    hide Ring, Turned;
    forall x | x in r ensures t[0].blk <= x.blk {
      var i :| 0 <= i < |r| && r[i] == x;
    }
  }

  lemma TurnedHas(r: seq<Buf>, p: nat)
    requires p <= |r|
    ensures forall x :: x in Turned(r, p) <==> x in r
  {
    assert r == r[..p] + r[p..];
  }

  // ---------------------------------------------------------------- a new request

  /** The head has been passed, and the new request is ahead of the position or behind that head. */
  ghost predicate Skews(q: Que, b: Buf) {
    var r := RingOf(q, b.low);
    && r != [] && (!b.low || Near(q)) && Ahead(!q.back, q.private, r[0].blk)
    && (Ahead(q.back, q.private, b.blk) || Ahead(!q.back, r[0].blk, b.blk))
  }

  lemma PutHas(r: seq<Buf>, b: Buf, p: nat, head: bool)
    requires 1 <= p <= |r|
    ensures var t := Put(r, b, p, head);
      t != [] && t[0] == (if head then b else r[0]) && forall x :: x in t <==> x in r || x == b
  {
    var t := With(r, b, p);
    assert t == r[..p] + [b] + r[p..] && r == r[..p] + r[p..];
    if head { TurnedHas(t, p); }
  }

  /** In a ring that is scanned the new request becomes the head exactly when it lies between the position and the
      head. */
  lemma MovesBetween(q: Que, b: Buf)
    requires RingOf(q, b.low) != [] && (!b.low || Near(q)) && New(RingOf(q, b.low), b)
    ensures var h := RingOf(q, b.low)[0].blk;
      Moves(q, b, SpotFor(RingOf(q, b.low), b)) <==> Ahead(q.back, q.private, b.blk) && Ahead(!q.back, h, b.blk)
  {
    assert RingOf(q, b.low)[0] in RingOf(q, b.low);
    hide SpotFor;
  }

  lemma AimsAfter(r: seq<Buf>, t: seq<Buf>, b: Buf, back: bool, p: nat)
    requires r != [] && t != [] && Aimed(r, back, p) && New(r, b) && forall x :: x in t <==> x in r || x == b
    requires t[0] == if Ahead(back, p, b.blk) && Ahead(!back, r[0].blk, b.blk) then b else r[0]
    ensures Aimed(t, back, p) <==>
      !(Ahead(!back, p, r[0].blk) && (Ahead(back, p, b.blk) || Ahead(!back, r[0].blk, b.blk)))
  {
    assert b in t && r[0] in r && r[0].blk != b.blk;
  }

  /** A ring that waits gets a new head exactly when the new request is its lowest. */
  lemma WaitsLowest(r: seq<Buf>, b: Buf, q: Que)
    requires r == q.async && r != [] && b.low && !Near(q) && Lowest(r) && New(r, b)
    ensures Moves(q, b, SpotFor(r, b)) <==> b.blk < r[0].blk
  {
    assert r[0] in r && r[Prev(r, 0)] in r;
  }

  /** An insertion keeps the rings aimed exactly when its request does not go into a ring whose head has been
      passed, ahead of the position or behind that head. */
  lemma AddAims(q: Que, b: Buf, u: Tuning)
    requires Sound(q, u) && New(RingOf(q, b.low), b)
    ensures AllAimed(Add(q, b)) <==> !Skews(q, b)
  {
    hide SpotFor, Rings, BothDistinct, Moves, Put;
    var r := RingOf(q, b.low);
    if r == [] {
      assert Aimed([b], q.back, q.private) && Lowest([b]);
    } else {
      var head := Moves(q, b, SpotFor(r, b));
      var t := Put(r, b, SpotFor(r, b).p, head);
      PutHas(r, b, SpotFor(r, b).p, head);
      assert RingOf(Add(q, b), b.low) == t;
      if b.low && !Near(q) {
        WaitsLowest(r, b, q);
        hide Aimed;
      } else {
        MovesBetween(q, b);
        AimsAfter(r, t, b, q.back, q.private);
        hide Aimed, Lowest, Ahead;
      }
    }
  }

  // ---------------------------------------------------------------- a pick

  /** With both rings scanned, the head of one is at the position itself. */
  predicate AtPosition(q: Que) {
    q.also && q.sync != [] && q.async != [] && (q.sync[0].blk == q.private || q.async[0].blk == q.private)
  }

  /** The queue from which the pick chooses, past the jump back to the beginning. */
  function Begun(q: Que, u: Tuning): Que {
    if q.also && q.sync != [] && q.async != [] && Again(q, u).Some? then Again(q, u).value else q
  }

  predicate Caught(q: Que, u: Tuning) { AtPosition(Begun(q, u)) }

  lemma AgainSound(q: Que, u: Tuning)
    requires Sound(q, u) && q.also && Again(q, u).Some?
    ensures Sound(Again(q, u).value, u)
  {
    var q' := Again(q, u).value;
    AgainKeeps(q, u);
    AgainAims(q, u);
    hide Aimed, Lowest, AllAimed, Ring;
    if q.back {
      TurnedDistinct(q.sync, 1);
      TurnedDistinct(q.async, 1);
    } else {
      TurnedDistinct(q.sync, |q.sync| - 1);
      TurnedDistinct(q.async, |q.async| - 1);
    }
  }

  lemma AgainAims(q: Que, u: Tuning)
    requires Sound(q, u) && q.also && Again(q, u).Some?
    ensures AllAimed(Again(q, u).value)
  {
    hide Ring, Distinct, Turned;
    if q.back {
      TurnsUp(q.sync, q.private);
      TurnsUp(q.async, q.private);
      LowestAimed(Turned(q.sync, 1));
    } else {
      TurnsDown(q.sync, q.private);
      TurnsDown(q.async, q.private);
      LowestAimed(q.sync);
    }
    hide Aimed, Lowest;
  }

  lemma SelfAimed(r: seq<Buf>)
    requires r != []
    ensures Aimed(r, false, r[0].blk)
  {
  }

  /** The scan of a single ring: on in its direction while the next is there, else from the far end. */
  lemma ScanAims(r: seq<Buf>, back: bool)
    requires Ring(r) && Distinct(r) && |r| > 1
    ensures var b, up, down := r[0].blk, Unlinked(r, false), Unlinked(r, true);
      if back then if b < r[|r| - 1].blk then Aimed(up, false, 0) else Aimed(down, true, b)
      else if b > r[1].blk then Aimed(down, true, b) && Aimed(up, false, 0)
      else Aimed(up, false, b) && Aimed(up, false, r[1].blk)
  {
    UnlinkedAimed(r, true);
    UnlinkedAimed(r, false);
    EndOfScan(r, back);
    UnlinkedIs(r, false);
    SelfAimed(Unlinked(r, false));
    if forall x :: x in Unlinked(r, back) ==> Ahead(!back, r[0].blk, x.blk) {
      NextScan(r, back);
      LowestAimed(Unlinked(r, false));
    }
    hide Ring, Distinct, Unlinked, Lowest, Highest, Aimed;
  }

  lemma SyncAims(q: Que, u: Tuning)
    requires Sound(q, u) && !q.only && !q.also && q.sync != []
    ensures AllAimed(Unlink(ChooseSync(q, u)))
  {
    LowestAimed(q.async);
    if |q.sync| > 1 { ScanAims(q.sync, q.back); }
    hide Ring, Distinct, Unlinked, Lowest, Aimed;
  }

  lemma OnlyAims(q: Que, u: Tuning)
    requires Sound(q, u) && q.only
    ensures AllAimed(Unlink(ChooseOnly(q, u)))
  {
    if |q.async| > 1 { ScanAims(q.async, q.back); }
    hide Ring, Distinct, Unlinked, Aimed;
  }

  /** The ring that is not picked from, seen from the new position. */
  lemma OtherAims(o: seq<Buf>, back: bool, p: nat, c: nat)
    requires o != [] && Aimed(o, back, p) && o[0].blk != p && Ahead(back, p, c)
    requires Ahead(back, p, o[0].blk) ==> !Ahead(!back, c, o[0].blk)
    ensures Aimed(o, back, c)
  {
  }

  lemma AlsoAims(q: Que, u: Tuning)
    requires Sound(q, u) && q.also && Again(q, u).None? && !AtPosition(q)
    ensures AllAimed(Unlink(ChooseAlso(q, PickLow(q), u)))
  {
    var low := PickLow(q);
    var r, o := RingOf(q, low), RingOf(q, !low);
    UnlinkedAimed(r, q.back);
    OtherAims(o, q.back, q.private, r[0].blk);
    hide Ring, Distinct, Unlinked, Aimed;
  }

  /** What the pick chooses once it has begun. */
  function ChooseHere(q: Que, u: Tuning): Choice
    requires Shape(q) && q.cnt != 0
  {
    if q.only then ChooseOnly(q, u) else if q.also then ChooseAlso(q, PickLow(q), u) else ChooseSync(q, u)
  }

  /** The jump back happens once at most, and only when nothing that is scanned lies ahead. */
  lemma BeginsOnce(q: Que, u: Tuning)
    requires Sound(q, u) && q.cnt != 0
    ensures var q1 := Begun(q, u);
      && Sound(q1, u) && q1.cnt == q.cnt && (q1.also ==> Again(q1, u).None?)
      && Choose(q, u) == ChooseHere(q1, u)
      && (q1 != q ==> NoneAhead(q))
  {
    if q.also && Again(q, u).Some? {
      AgainSound(q, u);
      AgainKeeps(q, u);
      NotTwice(q, u);
      hide Sound, Again, PickLow;
    }
  }

  lemma NotTwice(q: Que, u: Tuning)
    requires Sound(q, u) && q.also && Again(q, u).Some?
    ensures NoneAhead(q)
    ensures var q1 := Again(q, u).value; q1.also ==> q1.sync != [] && q1.async != [] && Again(q1, u).None?
  {
    hide Ring, Distinct, Turned;
    if !q.back {
      TurnsDown(q.sync, q.private);
      TurnsDown(q.async, q.private);
      var s, a := Turned(q.sync, |q.sync| - 1), Turned(q.async, |q.async| - 1);
      TurnedSize(q.sync, |q.sync| - 1);
      TurnedSize(q.async, |q.async| - 1);
      assert s[0] in s && a[0] in a;
    }
  }

  lemma TurnedSize(r: seq<Buf>, p: nat)
    requires p <= |r|
    ensures |Turned(r, p)| == |r|
  {
  }

  /** The buffers in the rings that are scanned. */
  ghost predicate Scanned(q: Que, x: Buf) { x in q.sync || (Near(q) && x in q.async) }

  ghost predicate NoneAhead(q: Que) { forall x :: Scanned(q, x) ==> !Ahead(q.back, q.private, x.blk) }

  /** If anything scanned lies ahead then b is not behind the position and nothing ahead is nearer. */
  ghost predicate Nearest(q: Que, b: Buf) {
    && Scanned(q, b)
    && forall x :: Scanned(q, x) && Ahead(q.back, q.private, x.blk) ==>
         !Ahead(!q.back, q.private, b.blk) && !Ahead(!q.back, b.blk, x.blk)
  }

  lemma HeadNearest(q: Que, u: Tuning)
    requires Sound(q, u) && q.cnt != 0 && !(q.sync != [] && q.also)
    ensures var c := ChooseHere(q, u); RingOf(c.q, c.low) != [] && Nearest(q, RingOf(c.q, c.low)[0])
  {
    hide Ring, Distinct;
  }

  lemma PickNearest(q: Que, u: Tuning)
    requires Sound(q, u) && q.also && Again(q, u).None? && !AtPosition(q)
    ensures var c := ChooseHere(q, u); RingOf(c.q, c.low) != [] && Nearest(q, RingOf(c.q, c.low)[0])
  {
    hide Ring, Distinct;
    assert q.sync[0] in q.sync && q.async[0] in q.async;
  }

  /** From far end to far end: with nothing ahead, the elevator comes down from the highest of both rings, and
      whoever starts anew starts at the lowest of the synchronous one. */
  ghost predicate FarEnd(q: Que, u: Tuning, b: Buf) {
    if !q.back && u.twoWay then forall x :: Scanned(q, x) ==> x.blk <= b.blk
    else b in q.sync && forall x :: x in q.sync ==> b.blk <= x.blk
  }

  lemma TurnPicksFarEnd(q: Que, u: Tuning)
    requires Sound(q, u) && q.also && Again(q, u).Some? && !Caught(q, u)
    ensures var c := ChooseHere(Begun(q, u), u);
      RingOf(c.q, c.low) != [] && Scanned(q, RingOf(c.q, c.low)[0]) && FarEnd(q, u, RingOf(c.q, c.low)[0])
  {
    hide Ring, Distinct, Turned;
    if q.back {
      TurnsUp(q.sync, q.private);
      TurnedSize(q.sync, 1);
      assert Turned(q.sync, 1)[0] in Turned(q.sync, 1);
    } else {
      TurnsDown(q.sync, q.private);
      TurnsDown(q.async, q.private);
      TurnedSize(q.sync, |q.sync| - 1);
      TurnedSize(q.async, |q.async| - 1);
      assert Turned(q.sync, |q.sync| - 1)[0] in Turned(q.sync, |q.sync| - 1);
      assert Turned(q.async, |q.async| - 1)[0] in Turned(q.async, |q.async| - 1);
      assert q.sync[0] in q.sync;
    }
  }

  /** A pick from aimed rings that does not find a head at its position takes the nearest request ahead of it, of all
      that are scanned; when both rings are and none is ahead it takes the far end.  And the rings stay aimed. */
  lemma NearestTaken(q: Que, u: Tuning)
    requires Sound(q, u) && q.cnt != 0 && !Caught(q, u)
    ensures var r := Next(q, u);
      r.0.Some? && Nearest(q, r.0.value) && (q.also && NoneAhead(q) ==> FarEnd(q, u, r.0.value)) && Sound(r.1, u)
  {
    BeginsOnce(q, u);
    NextSound(q, u);
    if q.also && Again(q, u).Some? {
      TurnPicksFarEnd(q, u);
    } else if q.also {
      PickNearest(q, u);
      SomeAhead(q, u);
    } else {
      HeadNearest(q, u);
    }
    hide Sound, Choose, ChooseHere, FarEnd, Again;
  }

  /** When the scan of both rings goes on, something is ahead. */
  lemma SomeAhead(q: Que, u: Tuning)
    requires Sound(q, u) && q.also && Again(q, u).None? && !AtPosition(q)
    ensures !NoneAhead(q)
  {
    hide Ring, Distinct;
    assert Scanned(q, q.sync[0]) && Scanned(q, q.async[0]);
  }

  lemma HereAims(q: Que, u: Tuning)
    requires Sound(q, u) && q.cnt != 0 && (q.also ==> Again(q, u).None? && !AtPosition(q))
    ensures AllAimed(Unlink(ChooseHere(q, u))) && (!u.twoWay ==> !Unlink(ChooseHere(q, u)).back)
  {
    hide Aimed, Lowest, Ring, Distinct, Unlinked;
    if q.only { OnlyAims(q, u); } else if q.also { AlsoAims(q, u); } else { SyncAims(q, u); }
    hide AllAimed, PickLow;
  }

  lemma NextSound(q: Que, u: Tuning)
    requires Sound(q, u) && q.cnt != 0 && !Caught(q, u)
    ensures Sound(Next(q, u).1, u)
  {
    BeginsOnce(q, u);
    HereAims(Begun(q, u), u);
    NextKeeps(q, u);
    NextDistinct(q, u);
    hide Choose, ChooseHere, AllAimed, BothDistinct, Rings, Begun, Unlink, Again;
  }

  // ---------------------------------------------------------------- direction, position and priority

  /** Nothing that stays in the ring lies ahead of the block that was taken. */
  ghost predicate LastOfScan(r: seq<Buf>, t: seq<Buf>, back: bool)
    requires r != []
  {
    forall x :: x in t ==> Ahead(!back, r[0].blk, x.blk)
  }

  /** A scan of one ring turns exactly when nothing that stays is ahead: an elevator comes down from the top and
      starts again from block 0 at the bottom, a one-way scan starts again from block 0 at the top.  In between
      the position is the block taken, or for a one-way scan the next to be taken. */
  lemma TurnsExactly(q: Que, u: Tuning)
    requires Sound(q, u) && q.cnt != 0 && !q.also && |RingOf(q, q.only)| > 1
    ensures var q', r := Next(q, u).1, RingOf(q, q.only);
      var t := RingOf(q', q.only);
      && t != []
      && (q'.back <==> u.twoWay && (q.back <==> !LastOfScan(r, t, q.back)))
      && q'.private == if LastOfScan(r, t, q.back) && (q.back || !u.twoWay) then 0
                       else if u.twoWay then r[0].blk else t[0].blk
  {
    hide AllAimed;
    var r := RingOf(q, q.only);
    LastTells(r, q.back);
    hide Ring, Distinct, Unlinked, LastOfScan, Aimed, Lowest;
    if q.only { OnlyIs(q, u); } else { SyncIs(q, u); }
    hide Next, Choose;
  }

  /** Whether it is the last of the scan the next in the direction tells, and it does not matter which way the
      ring is then left. */
  lemma LastTells(r: seq<Buf>, back: bool)
    requires Ring(r) && Distinct(r) && |r| > 1
    ensures var last := if back then r[0].blk < r[|r| - 1].blk else r[0].blk > r[1].blk;
      LastOfScan(r, Unlinked(r, true), back) == LastOfScan(r, Unlinked(r, false), back) == last
    ensures |Unlinked(r, false)| > 0 && Unlinked(r, false)[0] == r[1]
  {
    EndOfScan(r, back);
    UnlinkedIs(r, false);
    forall x ensures x in Unlinked(r, true) <==> x in Unlinked(r, false) { UnlinkedSame(r, x); }
    hide Ring, Distinct, Unlinked;
  }

  lemma OnlyIs(q: Que, u: Tuning)
    requires Shape(q) && q.only
    ensures q.sync == [] && q.cnt != 0 && Next(q, u).1 == Unlink(ChooseOnly(q, u))
  {
    hide Unlinked;
  }

  lemma SyncIs(q: Que, u: Tuning)
    requires Shape(q) && !q.only && !q.also && q.cnt != 0
    ensures q.sync != [] && Next(q, u).1 == Unlink(ChooseSync(q, u))
  {
    hide Unlinked;
  }

  /** With both rings scanned the direction changes only when nothing is ahead, and then the elevator comes down, or
      the scan starts anew upwards without the asynchronous ring. */
  lemma BothTurn(q: Que, u: Tuning)
    requires Sound(q, u) && q.also && !Caught(q, u)
    ensures var q', b := Next(q, u).1, Next(q, u).0.value;
      && (q'.back <==> if NoneAhead(q) then !q.back && u.twoWay else q.back)
      && if NoneAhead(q) && (q.back || !u.twoWay) then !q'.also && q'.ratio == u.sync2async
         else
           && q'.private == b.blk && (q'.also <==> q'.sync != [] && q'.async != [])
           && q'.ratio == if q'.async == [] then u.sync2async else q.ratio
  {
    BeginsOnce(q, u);
    if Again(q, u).None? {
      SomeAhead(q, u);
      hide Sound, NoneAhead, Again, PickLow, Choose;
    } else {
      AnewUpwards(q, u);
      hide Sound, NoneAhead, Choose;
    }
  }

  /** The last request of the asynchronous ring leaves the scan as it was at first. */
  lemma LastAsync(q: Que, u: Tuning)
    requires Sound(q, u) && q.only && |q.async| == 1
    ensures Next(q, u).1 == q.(async := [], cnt := 0, only := false, back := false, private := 0)
  {
  }

  lemma AnewUpwards(q: Que, u: Tuning)
    requires Sound(q, u) && q.also && Again(q, u).Some?
    ensures var q1 := Again(q, u).value;
      && (q1.also <==> !q.back && u.twoWay)
      && (!q1.also ==> !q1.only && q1.sync != [] && q1.ratio == u.sync2async && var q' := ChooseSync(q1, u).q;
            !q'.back && !q'.also && q'.ratio == u.sync2async)
  {
    if q.back || !u.twoWay {
      hide Turned;
      AgainSound(q, u);
      AnewLowest(q, u);
      var r := Again(q, u).value.sync;
      if |r| > 1 { assert r[1] in r; }
      hide Again, Ring, Aimed;
    }
  }

  lemma AnewLowest(q: Que, u: Tuning)
    requires Sound(q, u) && q.also && Again(q, u).Some? && (q.back || !u.twoWay)
    ensures var q1 := Again(q, u).value;
      !q1.only && !q1.also && !q1.back && q1.sync != [] && Lowest(q1.sync) && q1.ratio == u.sync2async
  {
    hide Ring, Distinct, Turned;
    if q.back {
      TurnsUp(q.sync, q.private);
      TurnedSize(q.sync, 1);
    } else {
      TurnsDown(q.sync, q.private);
    }
  }

  /** The end of a whole scan of the synchronous ring: the elevator's at the bottom, the one-way one at the top. */
  ghost predicate ScanEnds(q: Que, u: Tuning)
    requires q.sync != []
  {
    (q.back || !u.twoWay) && LastOfScan(q.sync, Unlinked(q.sync, q.back), q.back)
  }

  /** While only the synchronous ring is scanned, the asynchronous one is let in at the end of a scan that finds
      the count at zero, and every other end takes one off the count; nothing else changes it.  When the
      synchronous ring empties, the asynchronous one is scanned at once. */
  lemma LetIn(q: Que, u: Tuning)
    requires Sound(q, u) && !q.only && !q.also && q.sync != []
    ensures var q' := Next(q, u).1;
      if |q.sync| == 1 then
        (q'.only <==> q.async != []) && q'.ratio == u.sync2async && !q'.also && !q'.back && q'.private == 0
      else
        && (q'.also <==> ScanEnds(q, u) && q.ratio <= 0 && q.async != [])
        && q'.ratio == (if !ScanEnds(q, u) then q.ratio else if q.ratio > 0 then q.ratio - 1 else u.sync2async)
  {
    hide Aimed, Lowest;
    if |q.sync| > 1 { EndOfScan(q.sync, q.back); }
    hide Ring, Distinct, Unlinked, Rings, BothDistinct;
  }

  // ---------------------------------------------------------------- runs

  /** No request goes into a passed ring outside what it has passed, and no pick finds a head at its position. */
  ghost predicate Steady(ops: seq<Op>, u: Tuning) {
    forall i :: 0 <= i < |ops| ==>
      && (ops[i].OpAdd? ==> !Skews(After(ops[..i], u).q, ops[i].b))
      && (ops[i].OpNext? ==> !Caught(After(ops[..i], u).q, u))
  }

  lemma PrefixSteady(ops: seq<Op>, u: Tuning, n: nat)
    requires Steady(ops, u) && n <= |ops|
    ensures Steady(ops[..n], u)
  {
    hide After;
    forall i | 0 <= i < n
      ensures ops[..n][i].OpAdd? ==> !Skews(After(ops[..n][..i], u).q, ops[..n][i].b)
      ensures ops[..n][i].OpNext? ==> !Caught(After(ops[..n][..i], u).q, u)
    {
      assert ops[..n][..i] == ops[..i];
    }
  }

  lemma StepSound(q: Que, op: Op, u: Tuning)
    requires Sound(q, u) && (op.OpAdd? ==> New(RingOf(q, op.b.low), op.b) && !Skews(q, op.b))
    requires op.OpNext? ==> !Caught(q, u)
    ensures Sound(if op.OpAdd? then Add(q, op.b) else Next(q, u).1, u)
  {
    match op
    case OpAdd(b) =>
      AddAims(q, b, u);
      AddKeeps(q, b);
      AddDistinct(q, b);
      if RingOf(q, b.low) != [] { DistinctFree(RingOf(q, b.low), b); }
      hide AllAimed, Rings, BothDistinct, Stuck, SpotFor;
    case OpNext =>
      if q.cnt != 0 { NextSound(q, u); }
  }

  lemma AfterDoes(ops: seq<Op>, u: Tuning)
    requires ops != []
    ensures var q, op := After(ops[..|ops| - 1], u).q, ops[|ops| - 1];
      Shape(q) && After(ops, u).q == if op.OpAdd? then Add(q, op.b) else Next(q, u).1
  {
    hide Add, Next;
  }

  lemma EmptySound(u: Tuning)
    ensures Sound(After([], u).q, u)
  {
  }

  /** Over any run of pairwise different blocks that is steady, the rings are aimed throughout. */
  lemma {:induction false} AimsStay(ops: seq<Op>, u: Tuning)
    requires PairwiseNew(ops, u) && Steady(ops, u)
    ensures Sound(After(ops, u).q, u)
    decreases |ops|
  {
    hide After, Sound;
    if ops == [] {
      EmptySound(u);
    } else {
      var last := |ops| - 1;
      PrefixNew(ops, u, last);
      PrefixSteady(ops, u, last);
      AimsStay(ops[..last], u);
      AfterDoes(ops, u);
      StepSound(After(ops[..last], u).q, ops[last], u);
    }
  }

  /** So every pick of such a run takes the nearest request ahead in the direction of the scan. */
  lemma PicksNearest(ops: seq<Op>, u: Tuning, i: nat)
    requires PairwiseNew(ops, u) && Steady(ops, u) && i < |ops| && ops[i].OpNext?
    ensures var q := After(ops[..i], u).q;
      q.cnt != 0 ==>
        && Next(q, u).0.Some? && Nearest(q, Next(q, u).0.value)
        && (q.also && NoneAhead(q) ==> FarEnd(q, u, Next(q, u).0.value))
  {
    hide After, Sound, Caught, Nearest, NoneAhead, FarEnd;
    PrefixNew(ops, u, i);
    PrefixSteady(ops, u, i);
    AimsStay(ops[..i], u);
    var q := After(ops[..i], u).q;
    SoundShape(q, u);
    if q.cnt != 0 { NearestTaken(q, u); }
  }

  lemma SoundShape(q: Que, u: Tuning)
    requires Sound(q, u)
    ensures Shape(q)
  {
  }

  // With one priority every run of different blocks is steady.

  ghost predicate OnePriority(ops: seq<Op>) { forall i :: 0 <= i < |ops| && ops[i].OpAdd? ==> !ops[i].b.low }

  /** Only the synchronous ring is there, and its head is not behind the position. */
  ghost predicate Facing(q: Que) {
    && q.async == [] && !q.also
    && if q.sync == [] then q.private == 0 && !q.back else !Ahead(!q.back, q.private, q.sync[0].blk)
  }

  lemma AddFaces(q: Que, b: Buf)
    requires Shape(q) && Facing(q) && !b.low && New(q.sync, b)
    ensures Facing(Add(q, b)) && !Skews(q, b)
  {
    hide SpotFor, Moves, Put;
    if q.sync != [] {
      PutHas(q.sync, b, SpotFor(q.sync, b).p, Moves(q, b, SpotFor(q.sync, b)));
      MovesBetween(q, b);
    }
  }

  /** Where a scan of the synchronous ring goes on. */
  lemma ScanFaces(q: Que, u: Tuning)
    requires Facing(q) && |q.sync| > 1 && !q.only
    requires Unlinked(q.sync, true)[0] == q.sync[|q.sync| - 1] && Unlinked(q.sync, false)[0] == q.sync[1]
    requires q.sync[0].blk > q.sync[1].blk ==> q.sync[|q.sync| - 1].blk <= q.sync[0].blk
    ensures Facing(Unlink(ChooseSync(q, u)))
  {
    hide Unlinked;
  }

  lemma NextFacesScan(q: Que, u: Tuning)
    requires Shape(q) && Ring(q.sync) && Distinct(q.sync) && Facing(q) && |q.sync| > 1
    ensures Facing(Next(q, u).1)
  {
    After1(q.sync);
    UnlinkedIs(q.sync, true);
    UnlinkedIs(q.sync, false);
    SyncIs(q, u);
    hide *;
    ScanFaces(q, u);
  }

  lemma NextFacesLast(q: Que, u: Tuning)
    requires Shape(q) && Facing(q) && |q.sync| <= 1
    ensures Facing(Next(q, u).1)
  {
    if q.sync != [] { SyncIs(q, u); }
  }

  lemma NextFaces(q: Que, u: Tuning)
    requires Sound(q, u) && Facing(q)
    ensures Facing(Next(q, u).1) && !Caught(q, u)
  {
    hide AllAimed, Ring, Distinct, Next;
    if |q.sync| > 1 { NextFacesScan(q, u); } else { NextFacesLast(q, u); }
  }

  lemma StepFaces(q: Que, op: Op, u: Tuning)
    requires Sound(q, u) && Facing(q) && (op.OpAdd? ==> !op.b.low && New(q.sync, op.b))
    ensures Facing(if op.OpAdd? then Add(q, op.b) else Next(q, u).1)
    ensures (op.OpAdd? ==> !Skews(q, op.b)) && (op.OpNext? ==> !Caught(q, u))
  {
    if op.OpAdd? { AddFaces(q, op.b); } else { NextFaces(q, u); }
  }

  lemma EmptyFaces(u: Tuning)
    ensures Facing(After([], u).q)
  {
  }

  lemma {:induction false} OnePrioritySteady(ops: seq<Op>, u: Tuning)
    requires PairwiseNew(ops, u) && OnePriority(ops)
    ensures Steady(ops, u) && Facing(After(ops, u).q)
    decreases |ops|
  {
    hide After, Sound, Facing, Caught, Skews;
    if ops == [] {
      EmptyFaces(u);
    } else {
      var last := |ops| - 1;
      var pre := ops[..last];
      PrefixNew(ops, u, last);
      OnePrioritySteady(pre, u);
      AimsStay(pre, u);
      AfterDoes(ops, u);
      StepFaces(After(pre, u).q, ops[last], u);
      forall i | 0 <= i < |ops|
        ensures ops[i].OpAdd? ==> !Skews(After(ops[..i], u).q, ops[i].b)
        ensures ops[i].OpNext? ==> !Caught(After(ops[..i], u).q, u)
      {
        if i < last { assert pre[..i] == ops[..i] && pre[i] == ops[i]; }
      }
    }
  }

  /** With one priority, in any run of pairwise different blocks, every pick is an elevator's, or a one-way
      scan's: the nearest request ahead. */
  lemma OnePriorityNearest(ops: seq<Op>, u: Tuning, i: nat)
    requires PairwiseNew(ops, u) && OnePriority(ops) && i < |ops| && ops[i].OpNext?
    ensures var q := After(ops[..i], u).q;
      q.cnt != 0 ==> Next(q, u).0.Some? && Nearest(q, Next(q, u).0.value)
  {
    hide After, Nearest, NoneAhead, FarEnd;
    OnePrioritySteady(ops, u);
    PicksNearest(ops, u, i);
  }

  // ---------------------------------------------------------------- where it fails

  /** One more operation of a run. */
  lemma Then(ops: seq<Op>, op: Op, u: Tuning)
    ensures var q := After(ops, u).q;
      Shape(q) && After(ops + [op], u).q == if op.OpAdd? then Add(q, op.b) else Next(q, u).1
  {
    assert (ops + [op])[..|ops|] == ops;
    hide Add, Next;
  }

  /** b is behind the last of the rise, and the head stays. */
  lemma GoesBehind(r: seq<Buf>, b: Buf)
    requires |r| == 1
    ensures SpotFor(r, b) == Spot(1, false) && Put(r, b, 1, false) == [r[0], b]
  {
  }

  /** A head at the position: after asynchronous writes of blocks 0 and 3 and a request for block 5 the first pick
      takes 5 and passes over 3, since block 0 is not beyond the position 0 where the scan begins. */
  lemma BlockZeroIsPassedOver(u: Tuning)
    ensures var z, c, e := Buf(0, 0, true), Buf(1, 3, true), Buf(2, 5, false);
      var q := After([OpAdd(z), OpAdd(c), OpAdd(e)], u).q;
      Sound(q, u) && Caught(q, u) && Next(q, u).0 == Some(e) && !Nearest(q, e)
  {
    hide After, Add, SpotFor, Put, Sound;
    var z, c, e := Buf(0, 0, true), Buf(1, 3, true), Buf(2, 5, false);
    var o1 := [] + [OpAdd(z)];
    var o2 := o1 + [OpAdd(c)];
    AfterNone(u);
    Then([], OpAdd(z), u);
    Then(o1, OpAdd(c), u);
    Then(o2, OpAdd(e), u);
    assert o2 + [OpAdd(e)] == [OpAdd(z), OpAdd(c), OpAdd(e)];
    EmptySound(u);
    var q0 := After([], u).q;
    AddsFirst(q0, z);
    AddAims(q0, z, u);
    AddsBehind(Add(q0, z), c);
    AddsOther(Add(Add(q0, z), c), e);
    SoundZero(q0, z, c, e, u);
    PassesOver(Que([e], [z, c], false, true, false, 0, u.sync2async, 3), u);
  }

  lemma AddsFirst(q: Que, b: Buf)
    requires q.sync == [] && q.async == [] && b.low
    ensures Add(q, b) == q.(async := [b], cnt := q.cnt + 1, only := true)
  {
  }

  lemma AddsBehind(q: Que, b: Buf)
    requires |RingOf(q, b.low)| == 1 && RingOf(q, b.low)[0].blk <= b.blk && !q.back
    ensures Add(q, b) == WithRing(q, b.low, [RingOf(q, b.low)[0], b]).(cnt := q.cnt + 1)
  {
    GoesBehind(RingOf(q, b.low), b);
  }

  lemma AddsOther(q: Que, b: Buf)
    requires q.sync == [] && q.async != [] && !b.low
    ensures Add(q, b) == q.(sync := [b], cnt := q.cnt + 1, only := false, also := true)
  {
  }

  lemma SoundZero(q: Que, z: Buf, c: Buf, e: Buf, u: Tuning)
    requires z == Buf(0, 0, true) && c == Buf(1, 3, true) && e == Buf(2, 5, false)
    ensures Sound(Que([e], [z, c], false, true, false, 0, u.sync2async, 3), u)
  {
    assert RotAt([e], 1) && RotAt([z, c], 2);
  }

  lemma PassesOver(q: Que, u: Tuning)
    requires Shape(q) && q.also && !q.back && q.private == 0 && |q.sync| == 1 && |q.async| == 2
    requires q.async[0].blk == 0 < q.async[1].blk < q.sync[0].blk
    ensures Caught(q, u) && Next(q, u).0 == Some(q.sync[0]) && !Nearest(q, q.sync[0])
  {
    assert Scanned(q, q.async[1]);
  }

  /** A passed head: block 9 waits in the asynchronous ring, and of the requests for 5 and 0 the first was taken.
      One for 7 now goes behind 0, whose ring the scan has passed, and the next pick takes 9 before it. */
  lemma PassedRingIsPassedOver(u: Tuning)
    ensures var a, e, z, s := Buf(0, 9, true), Buf(1, 5, false), Buf(2, 0, false), Buf(3, 7, false);
      var q := After([OpAdd(a), OpAdd(e), OpAdd(z), OpNext], u).q;
      Skews(q, s) && Shape(Add(q, s)) && Next(Add(q, s), u).0 == Some(a) && !Nearest(Add(q, s), a)
  {
    hide After, Add, SpotFor, Put, Next, Skews, Nearest;
    var a, e, z, s := Buf(0, 9, true), Buf(1, 5, false), Buf(2, 0, false), Buf(3, 7, false);
    var o1 := [] + [OpAdd(a)];
    var o2 := o1 + [OpAdd(e)];
    var o3 := o2 + [OpAdd(z)];
    AfterNone(u);
    Then([], OpAdd(a), u);
    Then(o1, OpAdd(e), u);
    Then(o2, OpAdd(z), u);
    Then(o3, OpNext, u);
    assert o3 + [OpNext] == [OpAdd(a), OpAdd(e), OpAdd(z), OpNext];
    var q0 := After([], u).q;
    AddsFirst(q0, a);
    AddsOther(Add(q0, a), e);
    AddsZero(Add(Add(q0, a), e), z);
    PicksSync(Que([e, z], [a], false, true, false, 0, u.sync2async, 3), u);
    var q := Que([z], [a], false, true, false, 5, u.sync2async, 2);
    assert After(o3 + [OpNext], u).q == q;
    AddsBehind(q, s);
    PassesSeven(q, s, u);
  }

  lemma AddsZero(q: Que, z: Buf)
    requires |q.sync| == 1 && !q.back && !z.low && z.blk == 0 < q.sync[0].blk
    ensures Add(q, z) == q.(sync := [q.sync[0], z], cnt := q.cnt + 1)
  {
    GoesBehind(q.sync, z);
  }

  lemma PicksSync(q: Que, u: Tuning)
    requires Shape(q) && q.also && !q.back && |q.sync| == 2 && q.private < q.sync[0].blk < q.async[0].blk
    ensures Next(q, u).1 == q.(sync := [q.sync[1]], private := q.sync[0].blk, cnt := q.cnt - 1)
  {
    assert q.sync[1..] == [q.sync[1]];
  }

  lemma PassesSeven(q: Que, b: Buf, u: Tuning)
    requires Shape(q) && q.also && !q.back && |q.sync| == 1 && |q.async| == 1 && !b.low
    requires q.sync[0].blk < q.private < b.blk < q.async[0].blk
    requires Add(q, b) == q.(sync := [q.sync[0], b], cnt := q.cnt + 1)
    ensures var q1 := Add(q, b);
      Skews(q, b) && Shape(q1) && Next(q1, u).0 == Some(q.async[0]) && !Nearest(q1, q.async[0])
  {
    assert Scanned(Add(q, b), b);
    hide Add;
  }
}
