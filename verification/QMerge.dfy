/**
  The two-priority scheduler of the disk driver (dktp/drvobj/strategy.c, que_insert and qmerge_nextbp),
  with merging disabled.

  Asynchronous writes wait in one circular list and everything else in another.  A ring is written here
  as the sequence of its buffers in the forward direction from the one its head pointer names; QMergeNodes
  has the linked buffers themselves.
 */
module QMerge {
  import opened Options

  /** struct buf: low says that it belongs in the asynchronous ring. */
  datatype Buf = Buf(id: nat, blk: nat, low: bool)

  /** struct diskhd: the two rings, QNEAR_ASYNCONLY, QNEAR_ASYNCALSO and QNEAR_BACKWARD, hd_private,
      sync_async_ratio and q_cnt. */
  datatype Que = Que(sync: seq<Buf>, async: seq<Buf>, only: bool, also: bool, back: bool, private: nat, ratio: int,
      cnt: int)

  // ---------------------------------------------------------------- rings

  /** The ring is an ascending cycle: from the head it rises to the highest block, at k - 1, and goes on
      with the lowest. */
  ghost predicate RotAt(r: seq<Buf>, k: nat) {
    && 1 <= k <= |r|
    && (forall i, j :: 0 <= i < j < k ==> r[i].blk <= r[j].blk)
    && (forall i, j :: k <= i < j < |r| ==> r[i].blk <= r[j].blk)
    && (forall i, j :: 0 <= i < k <= j < |r| ==> r[j].blk <= r[i].blk)
  }

  ghost predicate Ring(r: seq<Buf>) { r == [] || exists k: nat :: RotAt(r, k) }

  /** No block is there twice. */
  ghost predicate Distinct(r: seq<Buf>) { forall i, j :: 0 <= i < j < |r| ==> r[i].blk != r[j].blk }

  /** The ring from another of its buffers. */
  function Turned<T>(r: seq<T>, p: nat): seq<T>
    requires p <= |r|
  {
    r[p..] + r[..p]
  }

  /** Turning within the rise to the highest block, and beyond it. */
  lemma TurnedLow(r: seq<Buf>, k: nat, p: nat)
    requires RotAt(r, k) && p < k
    ensures RotAt(Turned(r, p), k - p)
  {
    var t, m := Turned(r, p), |r| - p;
    assert forall i :: 0 <= i < |t| ==> t[i] == if i < m then r[p + i] else r[i - m];
  }

  lemma TurnedHigh(r: seq<Buf>, k: nat, p: nat)
    requires RotAt(r, k) && k <= p < |r|
    ensures RotAt(Turned(r, p), |r| - p + k)
  {
    var t, m := Turned(r, p), |r| - p;
    assert forall i :: 0 <= i < |t| ==> t[i] == if i < m then r[p + i] else r[i - m];
  }

  lemma TurnedHolds(r: seq<Buf>, p: nat)
    requires p <= |r|
    ensures multiset(Turned(r, p)) == multiset(r)
  {
    assert r == r[..p] + r[p..];
  }

  lemma TurnedRing(r: seq<Buf>, p: nat)
    requires Ring(r) && p <= |r|
    ensures Ring(Turned(r, p))
  {
    if r != [] {
      var k: nat :| RotAt(r, k);
      if p < k {
        TurnedLow(r, k, p);
      } else if p < |r| {
        TurnedHigh(r, k, p);
      } else {
        assert Turned(r, p) == r;
      }
    }
  }

  lemma TailRing(r: seq<Buf>)
    requires Ring(r) && r != []
    ensures Ring(r[1..]) && multiset(r) == multiset(r[1..]) + multiset{r[0]}
  {
    var k: nat :| RotAt(r, k);
    assert r == [r[0]] + r[1..];
    if k > 1 {
      assert RotAt(r[1..], k - 1);
    } else if |r| > 1 {
      assert forall i :: 0 <= i < |r[1..]| ==> r[1..][i] == r[i + 1];
      assert RotAt(r[1..], |r| - 1);
    }
  }

  // ---------------------------------------------------------------- insertion

  /** The ring with b put in before place p. */
  function With<T>(r: seq<T>, b: T, p: nat): (t: seq<T>)
    requires p <= |r|
    ensures |t| == |r| + 1 && forall i :: 0 <= i < |t| ==>
              t[i] == if i < p then r[i] else if i == p then b else r[i - 1]
  {
    r[..p] + [b] + r[p..]
  }

  /** Where a walk through the ring ends: the place, and whether it was found between two buffers rather
      than beyond the last one visited. */
  datatype Spot = Spot(p: nat, between: bool)

  function Prev<T>(r: seq<T>, i: nat): (p: nat)
    requires i < |r|
    ensures p < |r|
  {
    if i == 0 then |r| - 1 else i - 1
  }

  function Succ<T>(r: seq<T>, i: nat): (n: nat)
    requires i < |r|
    ensures n < |r|
  {
    if i + 1 == |r| then 0 else i + 1
  }

  /** The first loop of que_insert, for a buffer below the head: back from the head while blocks fall. */
  function BackFrom(r: seq<Buf>, b: Buf, cur: nat, lowest: nat): (s: Spot)
    requires cur < |r| && lowest < |r|
    ensures 1 <= s.p <= |r|
    decreases if cur == 0 then |r| else cur
  {
    if b.blk > r[cur].blk then Spot(cur + 1, true)
    else
      var l := if r[cur].blk < r[lowest].blk then cur else lowest;
      if r[Prev(r, cur)].blk < r[cur].blk && Prev(r, cur) != 0 then BackFrom(r, b, Prev(r, cur), l)
      else Spot(if l == 0 then |r| else l, false)
  }

  /** The second loop, for the others: forward while blocks rise. */
  function ForthFrom(r: seq<Buf>, b: Buf, cur: nat, highest: nat): (s: Spot)
    requires cur < |r| && highest < |r|
    ensures s.p <= |r| && (b.blk >= r[0].blk ==> s.p >= 1)
    decreases |r| - cur
  {
    if b.blk < r[cur].blk then Spot(cur, true)
    else
      var h := if r[cur].blk > r[highest].blk then cur else highest;
      if r[Succ(r, cur)].blk > r[cur].blk && Succ(r, cur) != 0 then ForthFrom(r, b, Succ(r, cur), h)
      else Spot(h + 1, false)
  }

  function SpotFor(r: seq<Buf>, b: Buf): (s: Spot)
    requires r != []
    ensures 1 <= s.p <= |r|
  {
    if b.blk < r[0].blk then BackFrom(r, b, 0, 0) else ForthFrom(r, b, 0, 0)
  }

  /** The buffer behind place p of the ring. */
  function Right(r: seq<Buf>, p: nat): Buf requires 1 <= p <= |r| { if p == |r| then r[0] else r[p] }

  /** The walk back ends between two buffers that b fits between, or at a place from which blocks fall no
      further, b being no higher than the buffer there. */
  lemma {:induction false} BackFits(r: seq<Buf>, b: Buf, cur: nat, lowest: nat)
    requires cur < |r| && lowest < |r| && b.blk < r[0].blk
    requires cur == 0 ==> lowest == 0
    requires cur > 0 ==> lowest == Succ(r, cur) && r[cur].blk < r[lowest].blk <= r[0].blk && b.blk <= r[lowest].blk
    ensures var s := BackFrom(r, b, cur, lowest);
      var left, right := r[s.p - 1].blk, Right(r, s.p).blk;
      if s.between then left < b.blk <= right else b.blk <= right <= left
    decreases if cur == 0 then |r| else cur
  {
    if b.blk <= r[cur].blk && r[Prev(r, cur)].blk < r[cur].blk && Prev(r, cur) != 0 {
      BackFits(r, b, Prev(r, cur), cur);
    }
  }

  /** The walk forward ends between two buffers that b fits between, or at a place from which blocks rise no
      further, b being no lower than the buffer before it. */
  lemma {:induction false} ForthFits(r: seq<Buf>, b: Buf, cur: nat, highest: nat)
    requires r != [] && b.blk >= r[0].blk && cur < |r| && highest < |r|
    requires cur == 0 ==> highest == 0
    requires cur > 0 ==> highest == cur - 1 && r[0].blk <= r[highest].blk < r[cur].blk && r[highest].blk <= b.blk
    ensures var s := ForthFrom(r, b, cur, highest);
      var left, right := r[s.p - 1].blk, Right(r, s.p).blk;
      if s.between then left <= b.blk < right else right <= left <= b.blk
    decreases |r| - cur
  {
    if b.blk >= r[cur].blk && r[Succ(r, cur)].blk > r[cur].blk && Succ(r, cur) != 0 {
      ForthFits(r, b, cur + 1, cur);
    }
  }

  /** b goes between two buffers in order, or it is beyond both and the cycle turns there. */
  ghost predicate Fits(r: seq<Buf>, b: Buf, p: nat)
    requires 1 <= p <= |r|
  {
    var left, right := r[p - 1].blk, Right(r, p).blk;
    left <= b.blk <= right || (right < left && (b.blk >= left || b.blk <= right))
  }

  /** The walk for b ends among equal blocks.  It goes from block to different block, so it stops where two
      are equal, although neither is the highest or the lowest. */
  ghost predicate Stuck(r: seq<Buf>, b: Buf)
    requires r != []
  {
    var p := SpotFor(r, b).p;
    r[p - 1].blk == Right(r, p).blk != b.blk && exists x :: x in r && x.blk != r[p - 1].blk
  }

  lemma SpotFits(r: seq<Buf>, b: Buf)
    requires r != []
    ensures var p := SpotFor(r, b).p; Fits(r, b, p) || r[p - 1].blk == Right(r, p).blk != b.blk
  {
    if b.blk < r[0].blk {
      BackFits(r, b, 0, 0);
    } else {
      ForthFits(r, b, 0, 0);
    }
  }

  lemma RotBound(r: seq<Buf>, k: nat)
    requires RotAt(r, k)
    ensures 1 <= k <= |r|
  {
  }

  lemma FitsInside(r: seq<Buf>, k: nat, b: Buf, p: nat)
    requires RotAt(r, k) && 1 <= p <= |r| && p != k && Fits(r, b, p)
    ensures RotAt(With(r, b, p), if p < k then k + 1 else k)
  {
    assert r[p - 1].blk <= b.blk <= Right(r, p).blk;
    if p < k { FitsRise(r, k, b, p); } else { FitsTail(r, k, b, p); }
  }

  lemma FitsRise(r: seq<Buf>, k: nat, b: Buf, p: nat)
    requires RotAt(r, k) && 1 <= p < k && r[p - 1].blk <= b.blk <= r[p].blk
    ensures RotAt(With(r, b, p), k + 1)
  {
    var t := With(r, b, p);
    forall i, j | 0 <= i < j < k + 1 ensures t[i].blk <= t[j].blk {
      assert i < p ==> r[i].blk <= r[p - 1].blk;
      assert j > p ==> r[p].blk <= r[j - 1].blk;
    }
  }

  lemma FitsTail(r: seq<Buf>, k: nat, b: Buf, p: nat)
    requires RotAt(r, k) && k < p <= |r| && r[p - 1].blk <= b.blk <= Right(r, p).blk
    ensures RotAt(With(r, b, p), k)
  {
    var t := With(r, b, p);
    forall i, j | k <= i < j < |t| ensures t[i].blk <= t[j].blk {
      assert i < p ==> r[i].blk <= r[p - 1].blk;
      assert j > p ==> r[p].blk <= r[j - 1].blk;
    }
  }

  lemma FitsAtTurn(r: seq<Buf>, k: nat, b: Buf)
    requires RotAt(r, k) && Fits(r, b, k)
    ensures RotAt(With(r, b, k), k) || RotAt(With(r, b, k), k + 1)
  {
    if b.blk >= r[k - 1].blk { FitsHighest(r, k, b); } else { FitsLowest(r, k, b); }
  }

  lemma FitsHighest(r: seq<Buf>, k: nat, b: Buf)
    requires RotAt(r, k) && b.blk >= r[k - 1].blk
    ensures RotAt(With(r, b, k), k + 1)
  {
    assert forall i :: 0 <= i < k ==> r[i].blk <= r[k - 1].blk;
  }

  lemma FitsLowest(r: seq<Buf>, k: nat, b: Buf)
    requires RotAt(r, k) && b.blk <= Right(r, k).blk && b.blk <= r[k - 1].blk
    ensures RotAt(With(r, b, k), k)
  {
    assert forall i :: 0 <= i < |r| ==> Right(r, k).blk <= r[i].blk;
  }

  /** Among equal blocks all the others of a cycle would have to be equal too. */
  lemma AmongEqual(t: seq<Buf>, k: nat, p: nat, i: nat)
    requires RotAt(t, k) && 1 <= p < |t| && i < |t| && i != p
    requires t[p - 1].blk == (if p + 1 == |t| then t[0] else t[p + 1]).blk != t[p].blk
    ensures t[i].blk == t[p - 1].blk
  {
    if t[p].blk > t[p - 1].blk {
      assert k == p + 1;
    } else {
      assert k == p;
    }
  }

  lemma AllEqual(r: seq<Buf>, b: Buf, p: nat)
    requires 1 <= p <= |r| && forall x :: x in r ==> x.blk == r[p - 1].blk
    ensures Ring(With(r, b, p))
  {
    var t := With(r, b, p);
    assert forall i :: 0 <= i < |t| && i != p ==> t[i].blk == r[p - 1].blk;
    if b.blk >= r[p - 1].blk {
      assert RotAt(t, p + 1);
    } else {
      assert RotAt(t, p);
    }
  }

  lemma StuckBreaks(r: seq<Buf>, b: Buf, p: nat, x: Buf)
    requires 1 <= p <= |r| && r[p - 1].blk == Right(r, p).blk != b.blk && x in r && x.blk != r[p - 1].blk
    ensures !Ring(With(r, b, p))
  {
    var t := With(r, b, p);
    var i: nat :| i < |r| && r[i] == x;
    var j := if i < p then i else i + 1;
    assert t[j] == x;
    forall k: nat ensures !RotAt(t, k) {
      if RotAt(t, k) { AmongEqual(t, k, p, j); }
    }
  }

  /** An insertion keeps a ring an ascending cycle exactly when its walk does not get stuck. */
  lemma WithKeepsRing(r: seq<Buf>, b: Buf)
    requires r != [] && Ring(r)
    ensures Ring(With(r, b, SpotFor(r, b).p)) <==> !Stuck(r, b)
  {
    hide SpotFor, With, RotAt;
    var p := SpotFor(r, b).p;
    var k: nat :| RotAt(r, k);
    RotBound(r, k);
    SpotFits(r, b);
    if Stuck(r, b) {
      var x :| x in r && x.blk != r[p - 1].blk;
      StuckBreaks(r, b, p, x);
    } else if !Fits(r, b, p) {
      AllEqual(r, b, p);
    } else if p == k {
      FitsAtTurn(r, k, b);
    } else {
      FitsInside(r, k, b, p);
    }
  }

  predicate New(r: seq<Buf>, b: Buf) { forall x :: x in r ==> x.blk != b.blk }

  /** No walk gets stuck in a ring of distinct blocks. */
  lemma DistinctFree(r: seq<Buf>, b: Buf)
    requires r != [] && Distinct(r)
    ensures !Stuck(r, b)
  {
    var p := SpotFor(r, b).p;
    if |r| > 1 && p < |r| { assert r[p - 1].blk != r[p].blk; }
  }

  // ---------------------------------------------------------------- the queue

  function RingOf(q: Que, low: bool): seq<Buf> { if low then q.async else q.sync }

  function WithRing(q: Que, low: bool, r: seq<Buf>): Que { if low then q.(async := r) else q.(sync := r) }

  function Near(q: Que): bool { q.only || q.also }

  /** Whether the head pointer moves to the new buffer. */
  predicate Moves(q: Que, b: Buf, s: Spot)
    requires RingOf(q, b.low) != []
  {
    if b.blk < RingOf(q, b.low)[0].blk then
      if s.between then (!b.low || Near(q)) && !q.back && b.blk > q.private
      else (b.low && !Near(q)) || (!q.back && b.blk > q.private)
    else (!b.low || Near(q)) && q.back && b.blk < q.private
  }

  function Put<T>(r: seq<T>, b: T, p: nat, head: bool): seq<T>
    requires p <= |r|
  {
    if head then Turned(With(r, b, p), p) else With(r, b, p)
  }

  /** que_insert and the count of qmerge_add */
  function Add(q: Que, b: Buf): Que {
    var r := RingOf(q, b.low);
    var q1 := q.(cnt := q.cnt + 1);
    if r == [] then
      var q2 := WithRing(q1, b.low, [b]);
      if b.low then q2.(only := q.only || q.sync == [])
      else q2.(only := false, also := q.also || q.async != [])
    else
      var s := SpotFor(r, b);
      WithRing(q1, b.low, Put(r, b, s.p, Moves(q, b, s)))
  }

  /** qmerge2wayscan and qmerge_sync2async */
  datatype Tuning = Tuning(twoWay: bool, sync2async: int)

  /** The ring to take from, and the queue's flags and position after that. */
  datatype Choice = Choice(low: bool, q: Que)

  /** The counts and flags agree with the rings. */
  ghost predicate Shape(q: Que) {
    && q.cnt == |q.sync| + |q.async|
    && (q.only <==> q.sync == [] && q.async != [])
    && (q.also ==> q.sync != [] && q.async != [])
  }

  /** How often qmerge_nextbp can still go back to its beginning. */
  function Turns(q: Que): nat { if q.only || !q.also then 0 else if q.back then 1 else 2 }

  /** QNEAR_ASYNCONLY */
  function ChooseOnly(q: Que, u: Tuning): Choice
    requires q.async != []
  {
    var r := q.async;
    var b := r[0].blk;
    Choice(true,
      if |r| == 1 then q.(only := false, back := false, private := 0)
      else if q.back then (if b < r[|r| - 1].blk then q.(back := false, private := 0) else q.(private := b))
      else if b > r[1].blk then (if u.twoWay then q.(back := true, private := b) else q.(private := 0))
      else q.(private := if u.twoWay then b else r[1].blk))
  }

  /** A scan of the synchronous ring ends: the asynchronous one is let in once in a while. */
  function EndScan(q: Que, u: Tuning): Que {
    if q.ratio > 0 then q.(ratio := q.ratio - 1)
    else q.(also := q.also || q.async != [], ratio := u.sync2async)
  }

  /** Neither flag */
  function ChooseSync(q: Que, u: Tuning): Choice
    requires q.sync != []
  {
    var r := q.sync;
    var b := r[0].blk;
    Choice(false,
      if |r| == 1 then q.(private := 0, ratio := u.sync2async, back := false, only := q.only || q.async != [])
      else if q.back then
        (if b < r[|r| - 1].blk then EndScan(q.(back := false), u).(private := 0) else q.(private := b))
      else if b > r[1].blk then
        (if u.twoWay then q.(back := true, private := b) else EndScan(q, u).(private := 0))
      else q.(private := if u.twoWay then b else r[1].blk))
  }

  /** QNEAR_ASYNCALSO, once a ring is chosen. */
  function ChooseAlso(q: Que, low: bool, u: Tuning): Choice
    requires RingOf(q, low) != []
  {
    var r := RingOf(q, low);
    var q1 := if |r| > 1 then q else if low then q.(also := false, ratio := u.sync2async)
      else q.(also := false, only := true);
    Choice(low, q1.(private := r[0].blk))
  }

  /** The part of qmerge_nextbp that goes back to its beginning: none, or the queue to begin with again. */
  function Again(q: Que, u: Tuning): Option<Que>
    requires q.sync != [] && q.async != []
  {
    var s, a := q.sync[0].blk, q.async[0].blk;
    if q.back then
      if s > q.private && a > q.private then
        Some(q.(back := false, also := false, sync := Turned(q.sync, 1), async := Turned(q.async, 1),
          ratio := u.sync2async, private := 0))
      else None
    else if s < q.private && a < q.private then
      if u.twoWay then Some(q.(back := true, sync := Turned(q.sync, |q.sync| - 1),
        async := Turned(q.async, |q.async| - 1)))
      else Some(q.(also := false, ratio := u.sync2async, private := 0))
    else None
  }

  /** Which head lies next in the direction of the scan. */
  function PickLow(q: Que): bool
    requires q.sync != [] && q.async != []
  {
    var s, a := q.sync[0].blk, q.async[0].blk;
    if q.back then (if a < q.private && s < q.private then a > s else a < q.private)
    else (if a > q.private && s > q.private then a < s else a > q.private)
  }

  /** qmerge_nextbp up to the unlinking. */
  function Choose(q: Que, u: Tuning): Choice
    requires Shape(q) && q.cnt != 0
    decreases Turns(q)
  {
    if q.only then ChooseOnly(q, u)
    else if q.also then
      var again := Again(q, u);
      if again.Some? then Choose(again.value, u) else ChooseAlso(q, PickLow(q), u)
    else ChooseSync(q, u)
  }

  /** The ring without its head; the next one lies in the direction of the scan. */
  function Unlinked<T>(r: seq<T>, back: bool): (t: seq<T>)
    requires r != []
    ensures |t| == |r| - 1
  {
    if |r| == 1 then [] else if back then Turned(r[1..], |r| - 2) else r[1..]
  }

  function Unlink(c: Choice): Que
    requires RingOf(c.q, c.low) != []
  {
    WithRing(c.q.(cnt := c.q.cnt - 1), c.low, Unlinked(RingOf(c.q, c.low), c.q.back))
  }

  /** qmerge_nextbp without merging. */
  function Next(q: Que, u: Tuning): (r: (Option<Buf>, Que))
    requires Shape(q)
  {
    if q.cnt == 0 then (None, q)
    else
      ChooseRing(q, u);
      var c := Choose(q, u);
      (Some(RingOf(c.q, c.low)[0]), Unlink(c))
  }

  // ---------------------------------------------------------------- what they keep

  ghost predicate Rings(q: Que) { Ring(q.sync) && Ring(q.async) }

  function Held(q: Que): multiset<Buf> { multiset(q.sync) + multiset(q.async) }

  /** The flags before the unlinking are those that fit after it. */
  ghost predicate Chosen(q: Que, c: Choice) {
    && RingOf(c.q, c.low) != [] && c.q.cnt == q.cnt == |c.q.sync| + |c.q.async| && Held(c.q) == Held(q)
    && Shape(Unlink(c)) && (Rings(q) ==> Rings(c.q))
  }

  lemma AgainKeeps(q: Que, u: Tuning)
    requires Shape(q) && q.also && Again(q, u).Some?
    ensures var q' := Again(q, u).value;
      Shape(q') && q'.cnt == q.cnt && Held(q') == Held(q) && (Rings(q) ==> Rings(q')) && Turns(q') < Turns(q)
  {
    if q.back {
      TurnedSame(q.sync, 1);
      TurnedSame(q.async, 1);
    } else {
      TurnedSame(q.sync, |q.sync| - 1);
      TurnedSame(q.async, |q.async| - 1);
    }
  }

  lemma TurnedSame(r: seq<Buf>, p: nat)
    requires p <= |r|
    ensures multiset(Turned(r, p)) == multiset(r) && |Turned(r, p)| == |r| && (Ring(r) ==> Ring(Turned(r, p)))
  {
    TurnedHolds(r, p);
    if Ring(r) { TurnedRing(r, p); }
  }

  lemma OnlyChosen(q: Que, u: Tuning)
    requires Shape(q) && q.only
    ensures Chosen(q, ChooseOnly(q, u))
  {
  }

  lemma SyncChosen(q: Que, u: Tuning)
    requires Shape(q) && !q.only && !q.also && q.cnt != 0
    ensures q.sync != [] && Chosen(q, ChooseSync(q, u))
  {
    SyncFlags(q, u);
    SyncFits(q, ChooseSync(q, u));
  }

  ghost predicate FlagsAfterSync(q: Que, c: Choice) {
    && !c.low && c.q.sync == q.sync && c.q.async == q.async && c.q.cnt == q.cnt
    && (c.q.only <==> |q.sync| == 1 && q.async != []) && (c.q.also ==> |q.sync| > 1 && q.async != [])
  }

  lemma SyncFlags(q: Que, u: Tuning)
    requires Shape(q) && !q.only && !q.also && q.cnt != 0
    ensures q.sync != [] && FlagsAfterSync(q, ChooseSync(q, u))
  {
  }

  lemma SyncFits(q: Que, c: Choice)
    requires Shape(q) && q.sync != [] && FlagsAfterSync(q, c)
    ensures Chosen(q, c)
  {
  }

  lemma AlsoChosen(q: Que, low: bool, u: Tuning)
    requires Shape(q) && !q.only && q.also
    ensures Chosen(q, ChooseAlso(q, low, u))
  {
  }

  lemma ChosenLater(q: Que, q1: Que, c: Choice)
    requires Chosen(q1, c) && q1.cnt == q.cnt && Held(q1) == Held(q) && (Rings(q) ==> Rings(q1))
    ensures Chosen(q, c)
  {
  }

  /** The loop of qmerge_nextbp ends, with a ring that is not empty and flags that fit. */
  lemma {:induction false} ChooseRing(q: Que, u: Tuning)
    requires Shape(q) && q.cnt != 0
    ensures Chosen(q, Choose(q, u))
    decreases Turns(q)
  {
    if q.only {
      OnlyChosen(q, u);
    } else if q.also {
      var again := Again(q, u);
      if again.Some? {
        AgainKeeps(q, u);
        ChooseRing(again.value, u);
        ChosenLater(q, again.value, Choose(again.value, u));
      } else {
        AlsoChosen(q, PickLow(q), u);
      }
    } else {
      SyncChosen(q, u);
    }
  }

  lemma HeadOff(r: seq<Buf>)
    requires r != []
    ensures multiset(r) == multiset(r[1..]) + multiset{r[0]}
  {
    assert r == [r[0]] + r[1..];
  }

  lemma UnlinkedHolds(r: seq<Buf>, back: bool)
    requires r != []
    ensures multiset(r) == multiset(Unlinked(r, back)) + multiset{r[0]}
  {
    hide Turned;
    HeadOff(r);
    if |r| == 1 {
      assert r[1..] == [];
    } else {
      TurnedHolds(r[1..], |r| - 2);
    }
  }

  lemma UnlinkedRing(r: seq<Buf>, back: bool)
    requires r != [] && Ring(r)
    ensures Ring(Unlinked(r, back))
  {
    TailRing(r);
    if |r| > 1 { TurnedRing(r[1..], |r| - 2); }
  }

  lemma WithRingHolds(q: Que, low: bool, t: seq<Buf>, b: Buf)
    requires multiset(RingOf(q, low)) == multiset(t) + multiset{b}
    ensures Held(q) == Held(WithRing(q, low, t)) + multiset{b}
  {
  }

  lemma UnlinkKeeps(c: Choice)
    requires RingOf(c.q, c.low) != []
    ensures Held(c.q) == Held(Unlink(c)) + multiset{RingOf(c.q, c.low)[0]}
    ensures Rings(c.q) ==> Rings(Unlink(c))
  {
    var r := RingOf(c.q, c.low);
    UnlinkedHolds(r, c.q.back);
    WithRingHolds(c.q.(cnt := c.q.cnt - 1), c.low, Unlinked(r, c.q.back), r[0]);
    if Rings(c.q) { UnlinkedRing(r, c.q.back); }
  }

  /** A pick takes one buffer out, and keeps the flags, the counts and the rings. */
  lemma NextKeeps(q: Que, u: Tuning)
    requires Shape(q)
    ensures var r := Next(q, u);
      && (r.0.None? <==> q.sync == [] && q.async == []) && Shape(r.1) && (Rings(q) ==> Rings(r.1))
      && Held(q) == Held(r.1) + (if r.0.Some? then multiset{r.0.value} else multiset{})
  {
    if q.cnt != 0 {
      ChooseRing(q, u);
      UnlinkKeeps(Choose(q, u));
    }
  }

  lemma PutHolds(r: seq<Buf>, b: Buf, head: bool)
    requires r != []
    ensures var t := Put(r, b, SpotFor(r, b).p, head); multiset(t) == multiset(r) + multiset{b} && |t| == |r| + 1
  {
    var p := SpotFor(r, b).p;
    var t := With(r, b, p);
    assert t == r[..p] + [b] + r[p..] && r == r[..p] + r[p..];
    TurnedSame(t, p);
  }

  /** A ring is an ascending cycle from any of its buffers or from none. */
  lemma TurnedBack(t: seq<Buf>, p: nat)
    requires p <= |t|
    ensures Ring(Turned(t, p)) <==> Ring(t)
  {
    hide Ring;
    TurnedSame(t, p);
    TurnedSame(Turned(t, p), |t| - p);
    assert Turned(Turned(t, p), |t| - p) == t;
  }

  lemma PutRing(r: seq<Buf>, b: Buf, head: bool)
    requires r != [] && Ring(r)
    ensures var t := Put(r, b, SpotFor(r, b).p, head);
      (Ring(t) <==> !Stuck(r, b)) && t[0] == if head then b else r[0]
  {
    hide SpotFor, Ring, Stuck;
    WithKeepsRing(r, b);
    TurnedBack(With(r, b, SpotFor(r, b).p), SpotFor(r, b).p);
  }

  /** The walk for b in its ring gets stuck. */
  ghost predicate StuckIn(q: Que, b: Buf) { RingOf(q, b.low) != [] && Stuck(RingOf(q, b.low), b) }

  /** An insertion keeps the flags and the counts, and the rings ascending cycles exactly when its walk does
      not get stuck among equal blocks. */
  lemma AddKeeps(q: Que, b: Buf)
    requires Shape(q)
    ensures Shape(Add(q, b)) && Held(Add(q, b)) == Held(q) + multiset{b}
    ensures Rings(q) ==> (Rings(Add(q, b)) <==> !StuckIn(q, b))
  {
    AddHolds(q, b);
    if Rings(q) { AddRings(q, b); }
  }

  lemma AddHolds(q: Que, b: Buf)
    requires Shape(q)
    ensures Shape(Add(q, b)) && Held(Add(q, b)) == Held(q) + multiset{b}
  {
    var r := RingOf(q, b.low);
    if r != [] { PutHolds(r, b, Moves(q, b, SpotFor(r, b))); }
  }

  lemma AddRings(q: Que, b: Buf)
    requires Shape(q) && Rings(q)
    ensures Rings(Add(q, b)) <==> !StuckIn(q, b)
  {
    var r := RingOf(q, b.low);
    if r == [] { assert RotAt([b], 1); } else { PutRing(r, b, Moves(q, b, SpotFor(r, b))); }
  }

  // ---------------------------------------------------------------- runs

  datatype Op = OpAdd(b: Buf) | OpNext

  datatype History = History(q: Que, arrived: multiset<Buf>, sent: multiset<Buf>)

  function Do(h: History, op: Op, u: Tuning): History
    requires Shape(h.q)
  {
    match op
    case OpAdd(b) => h.(q := Add(h.q, b), arrived := h.arrived + multiset{b})
    case OpNext =>
      var r := Next(h.q, u);
      History(r.1, h.arrived, if r.0.Some? then h.sent + multiset{r.0.value} else h.sent)
  }

  ghost predicate Conserved(h: History) { Shape(h.q) && h.arrived == h.sent + Held(h.q) }

  /** The operation is an insertion that gets stuck. */
  ghost predicate GetsStuck(q: Que, op: Op) { op.OpAdd? && StuckIn(q, op.b) }

  lemma DoKeeps(h: History, op: Op, u: Tuning)
    requires Conserved(h)
    ensures Conserved(Do(h, op, u))
    ensures Rings(h.q) ==> (Rings(Do(h, op, u).q) <==> !GetsStuck(h.q, op))
  {
    match op
    case OpAdd(b) => AddKeeps(h.q, b);
    case OpNext => NextKeeps(h.q, u);
  }

  /** The queue after any operations from empty: the flags and counts always fit the rings, and nothing is
      lost or made up. */
  function After(ops: seq<Op>, u: Tuning): (h: History)
    ensures Conserved(h)
    decreases |ops|
  {
    if ops == [] then History(Que([], [], false, false, false, 0, u.sync2async, 0), multiset{}, multiset{})
    else
      var h := After(ops[..|ops| - 1], u);
      DoKeeps(h, ops[|ops| - 1], u);
      Do(h, ops[|ops| - 1], u)
  }

  /** No walk gets stuck. */
  ghost predicate Smooth(ops: seq<Op>, u: Tuning) {
    forall i :: 0 <= i < |ops| ==> !GetsStuck(After(ops[..i], u).q, ops[i])
  }

  lemma PrefixSmooth(ops: seq<Op>, u: Tuning, n: nat)
    requires Smooth(ops, u) && n <= |ops|
    ensures Smooth(ops[..n], u)
  {
    hide After;
    forall i | 0 <= i < n ensures !GetsStuck(After(ops[..n][..i], u).q, ops[..n][i]) {
      assert ops[..n][..i] == ops[..i];
    }
  }

  lemma OneStays(ops: seq<Op>, u: Tuning)
    requires ops != [] && Rings(After(ops[..|ops| - 1], u).q)
    ensures Rings(After(ops, u).q) <==> !GetsStuck(After(ops[..|ops| - 1], u).q, ops[|ops| - 1])
  {
    DoKeeps(After(ops[..|ops| - 1], u), ops[|ops| - 1], u);
  }

  lemma EmptyRings(u: Tuning)
    ensures Rings(After([], u).q)
  {
  }

  ghost predicate RingsThroughout(ops: seq<Op>, u: Tuning) {
    forall n :: 0 <= n <= |ops| ==> Rings(After(ops[..n], u).q)
  }

  lemma {:induction false} SmoothKeepsRings(ops: seq<Op>, u: Tuning)
    requires Smooth(ops, u)
    ensures RingsThroughout(ops, u)
    decreases |ops|
  {
    hide After, Rings;
    assert ops[..|ops|] == ops;
    if ops == [] {
      EmptyRings(u);
    } else {
      var last := |ops| - 1;
      PrefixSmooth(ops, u, last);
      SmoothKeepsRings(ops[..last], u);
      assert ops[..last][..last] == ops[..last];
      assert Rings(After(ops[..last][..last], u).q);
      OneStays(ops, u);
      forall n | 0 <= n <= |ops| ensures Rings(After(ops[..n], u).q) {
        if n <= last {
          assert ops[..last][..n] == ops[..n];
          assert Rings(After(ops[..last][..n], u).q);
        }
      }
    }
  }

  lemma RingsMeanSmooth(ops: seq<Op>, u: Tuning)
    requires RingsThroughout(ops, u)
    ensures Smooth(ops, u)
  {
    hide After, Rings;
    forall i | 0 <= i < |ops| ensures !GetsStuck(After(ops[..i], u).q, ops[i]) {
      var now := ops[..i + 1];
      assert now[..i] == ops[..i];
      assert Rings(After(ops[..i], u).q) && Rings(After(now, u).q);
      OneStays(now, u);
    }
  }

  /** Both rings are ascending cycles after every operation of a run if and only if no walk gets stuck in
      it: the first that does breaks its ring. */
  lemma RingsStay(ops: seq<Op>, u: Tuning)
    ensures Smooth(ops, u) <==> RingsThroughout(ops, u)
  {
    hide Smooth, RingsThroughout;
    if Smooth(ops, u) { SmoothKeepsRings(ops, u); }
    if RingsThroughout(ops, u) { RingsMeanSmooth(ops, u); }
  }

  /** No two buffers of one ring ever have the same block. */
  ghost predicate PairwiseNew(ops: seq<Op>, u: Tuning) {
    forall i :: 0 <= i < |ops| && ops[i].OpAdd? ==> New(RingOf(After(ops[..i], u).q, ops[i].b.low), ops[i].b)
  }

  lemma TurnedDistinct(r: seq<Buf>, p: nat)
    requires Distinct(r) && p <= |r|
    ensures Distinct(Turned(r, p))
  {
    var t, m := Turned(r, p), |r| - p;
    assert forall i :: 0 <= i < |t| ==> t[i] == if i < m then r[p + i] else r[i - m];
  }

  ghost predicate BothDistinct(q: Que) { Distinct(q.sync) && Distinct(q.async) }

  lemma PutDistinct(r: seq<Buf>, b: Buf, p: nat, head: bool)
    requires Distinct(r) && New(r, b) && p <= |r|
    ensures Distinct(Put(r, b, p, head))
  {
    var t := With(r, b, p);
    forall i, j | 0 <= i < j < |t| ensures t[i].blk != t[j].blk {
      assert i < p ==> r[i] in r;
      assert i > p ==> r[i - 1] in r;
      assert j > p ==> r[j - 1] in r;
    }
    TurnedDistinct(t, p);
  }

  lemma AddDistinct(q: Que, b: Buf)
    requires BothDistinct(q) && New(RingOf(q, b.low), b)
    ensures BothDistinct(Add(q, b))
  {
    var r := RingOf(q, b.low);
    if r != [] { PutDistinct(r, b, SpotFor(r, b).p, Moves(q, b, SpotFor(r, b))); }
  }

  lemma {:induction false} ChooseDistinct(q: Que, u: Tuning)
    requires Shape(q) && q.cnt != 0 && BothDistinct(q)
    ensures BothDistinct(Choose(q, u).q)
    decreases Turns(q)
  {
    if !q.only && q.also {
      var again := Again(q, u);
      if again.Some? {
        AgainKeeps(q, u);
        var n := if q.back then 1 else |q.sync| - 1;
        TurnedDistinct(q.sync, n);
        TurnedDistinct(q.async, if q.back then 1 else |q.async| - 1);
        ChooseDistinct(again.value, u);
      }
    }
  }

  lemma NextDistinct(q: Que, u: Tuning)
    requires Shape(q) && BothDistinct(q)
    ensures BothDistinct(Next(q, u).1)
  {
    if q.cnt != 0 {
      ChooseRing(q, u);
      ChooseDistinct(q, u);
      var c := Choose(q, u);
      var r := RingOf(c.q, c.low);
      if |r| > 1 { TurnedDistinct(r[1..], |r| - 2); }
    }
  }

  lemma StepDistinct(h: History, op: Op, u: Tuning)
    requires Conserved(h) && BothDistinct(h.q) && (op.OpAdd? ==> New(RingOf(h.q, op.b.low), op.b))
    ensures BothDistinct(Do(h, op, u).q) && !GetsStuck(h.q, op)
  {
    match op
    case OpAdd(b) =>
      AddDistinct(h.q, b);
      if RingOf(h.q, b.low) != [] { DistinctFree(RingOf(h.q, b.low), b); }
    case OpNext => NextDistinct(h.q, u);
  }

  lemma OneDistinct(ops: seq<Op>, u: Tuning)
    requires ops != [] && PairwiseNew(ops, u) && BothDistinct(After(ops[..|ops| - 1], u).q)
    ensures BothDistinct(After(ops, u).q) && !GetsStuck(After(ops[..|ops| - 1], u).q, ops[|ops| - 1])
  {
    StepDistinct(After(ops[..|ops| - 1], u), ops[|ops| - 1], u);
  }

  lemma PrefixNew(ops: seq<Op>, u: Tuning, n: nat)
    requires PairwiseNew(ops, u) && n <= |ops|
    ensures PairwiseNew(ops[..n], u)
  {
    hide After;
    assert forall i :: 0 <= i < n ==> ops[..n][..i] == ops[..i];
  }

  lemma EmptyDistinct(u: Tuning)
    ensures BothDistinct(After([], u).q)
  {
  }

  lemma {:induction false} DistinctStays(ops: seq<Op>, u: Tuning)
    requires PairwiseNew(ops, u)
    ensures BothDistinct(After(ops, u).q) && Smooth(ops, u)
    decreases |ops|
  {
    hide After, BothDistinct;
    if ops == [] {
      EmptyDistinct(u);
    } else {
      var last := |ops| - 1;
      PrefixNew(ops, u, last);
      DistinctStays(ops[..last], u);
      OneDistinct(ops, u);
      forall i | 0 <= i < |ops| ensures !GetsStuck(After(ops[..i], u).q, ops[i]) {
        if i < last {
          assert ops[..last][..i] == ops[..i];
          assert !GetsStuck(After(ops[..last][..i], u).q, ops[..last][i]);
        }
      }
    }
  }

  /** Then no walk gets stuck, and both rings stay strictly ascending cycles. */
  lemma NewBlocksStay(ops: seq<Op>, u: Tuning)
    requires PairwiseNew(ops, u)
    ensures var q := After(ops, u).q; Rings(q) && BothDistinct(q)
  {
    DistinctStays(ops, u);
    RingsStay(ops, u);
    assert ops[..|ops|] == ops;
    assert Rings(After(ops[..|ops|], u).q);
  }

  lemma AfterAdd(ops: seq<Op>, b: Buf, u: Tuning)
    ensures After(ops + [OpAdd(b)], u).q == Add(After(ops, u).q, b)
  {
    assert (ops + [OpAdd(b)])[..|ops|] == ops;
  }

  lemma AfterNone(u: Tuning)
    ensures After([], u).q == Que([], [], false, false, false, 0, u.sync2async, 0)
  {
  }

  /** Four requests for blocks 9, 5, 5 and 7: the walk for the last stops at the first of the equal ones, and
      the ring 5, 7, 5, 9 is no ascending cycle. */
  lemma EqualBlocksBreakTheRing(u: Tuning)
    ensures var a, b, c, d := Buf(0, 9, false), Buf(1, 5, false), Buf(2, 5, false), Buf(3, 7, false);
      var q := After([OpAdd(a), OpAdd(b), OpAdd(c), OpAdd(d)], u).q;
      q.sync == [b, d, c, a] && !Ring(q.sync)
  {
    hide After, Add, Ring;
    var a, b, c, d := Buf(0, 9, false), Buf(1, 5, false), Buf(2, 5, false), Buf(3, 7, false);
    AfterNone(u);
    AfterAdd([], a, u);
    AfterAdd([] + [OpAdd(a)], b, u);
    AfterAdd([] + [OpAdd(a)] + [OpAdd(b)], c, u);
    AfterAdd([] + [OpAdd(a)] + [OpAdd(b)] + [OpAdd(c)], d, u);
    assert [OpAdd(a), OpAdd(b), OpAdd(c), OpAdd(d)] == [] + [OpAdd(a)] + [OpAdd(b)] + [OpAdd(c)] + [OpAdd(d)];
    var q0 := After([], u).q;
    var q1 := Add(q0, a);
    var q2 := Add(q1, b);
    var q3 := Add(q2, c);
    var q4 := Add(q3, d);
    FirstAlone(q0, a);
    SecondGoesFirst(q1, a, b);
    ThirdGoesBetween(q2, a, b, c);
    FourthGetsStuck(q3, a, b, c, d);
    BrokenRing(q4.sync);
  }

  lemma BrokenRing(r: seq<Buf>)
    requires |r| == 4 && r[0].blk == r[2].blk < r[1].blk < r[3].blk
    ensures !Ring(r)
  {
    forall k: nat ensures !RotAt(r, k) {
      assert r[1].blk > r[2].blk;
    }
  }

  lemma FirstAlone(q: Que, a: Buf)
    requires q.sync == [] && q.async == [] && !q.only && !q.also && !a.low
    ensures Add(q, a) == q.(sync := [a], cnt := q.cnt + 1)
  {
  }

  lemma SecondGoesFirst(q: Que, a: Buf, b: Buf)
    requires q.sync == [a] && q.async == [] && !q.only && !q.back && !b.low && q.private < b.blk < a.blk
    ensures Add(q, b) == q.(sync := [b, a], cnt := q.cnt + 1)
  {
    assert SpotFor([a], b) == Spot(1, false);
    assert Turned(With([a], b, 1), 1) == [b, a];
  }

  lemma ThirdGoesBetween(q: Que, a: Buf, b: Buf, c: Buf)
    requires q.sync == [b, a] && q.async == [] && !q.back && !c.low && b.blk == c.blk < a.blk
    ensures Add(q, c) == q.(sync := [b, c, a], cnt := q.cnt + 1)
  {
    assert ForthFrom([b, a], c, 1, 0) == Spot(1, true);
    assert With([b, a], c, 1) == [b, c, a];
  }

  lemma FourthGetsStuck(q: Que, a: Buf, b: Buf, c: Buf, d: Buf)
    requires q.sync == [b, c, a] && q.async == [] && !q.back && !d.low && b.blk == c.blk < d.blk < a.blk
    ensures Add(q, d) == q.(sync := [b, d, c, a], cnt := q.cnt + 1)
  {
    assert SpotFor([b, c, a], d) == Spot(1, false);
    assert With([b, c, a], d, 1) == [b, d, c, a];
  }
}
