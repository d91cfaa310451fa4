/**
  The two-level wait queues of the generic host adapter layer (dktp/hba/ghd/ghd_waitq.c).

  A request waits in its device's queue (level 1), then in the adapter's queue (level 2), and is then
  handed to the adapter (level 3).  Throttles at both levels bound how many may be promoted.  This
  module has the operations as functions of the queues, what they all keep, and the driver's own
  loops, which are proved to compute those functions.
 */
module WaitQueues {
  import opened Options
  import opened Seqs

  /** A request: numbered in the order of sol11ghd_transport calls, and bound to one device. */
  datatype Cmd = Cmd(id: nat, dev: nat)

  /** gdev_t: the device's queue and throttle. */
  datatype Dev = Dev(q: seq<Cmd>, nactive: int, maxactive: int, ninstances: nat)

  /** The queues of one adapter: level is cmd_waitq_level of every outstanding request; next is the number
      of the next request; firsts lists the requests in the order in which they were first handed to
      the adapter; starting is the one the adapter's start function is looking at. */
  datatype WaitQ = WaitQ(
    devs: map<nat, Dev>, hq: seq<Cmd>, nactive: int, maxactive: int, level: map<Cmd, nat>,
    next: nat, firsts: seq<Cmd>, starting: Option<Cmd>)

  // ---------------------------------------------------------------- operations

  /** The tests that end sol11ghd_waitq_shuffle_up. */
  predicate MustWait(dv: Dev) {
    || dv.nactive >= dv.maxactive
    || (dv.ninstances > 1 && dv.nactive > 0)
    || dv.q == []
  }

  function Promote(w: WaitQ, d: nat): WaitQ
    requires d in w.devs && w.devs[d].q != [] && w.devs[d].q[0] in w.level
  {
    var dv := w.devs[d];
    var c := dv.q[0];
    w.(devs := w.devs[d := dv.(q := dv.q[1..], nactive := dv.nactive + 1)],
       hq := w.hq + [c], level := w.level[c := w.level[c] + 1])
  }

  /** sol11ghd_waitq_shuffle_up */
  function ShuffleUp(w: WaitQ, d: nat): WaitQ
    requires d in w.devs && Known(w.devs[d].q, d, w.level)
    decreases if d in w.devs then |w.devs[d].q| else 0
  {
    if MustWait(w.devs[d]) then w else ShuffleUp(Promote(w, d), d)
  }

  /** A device's queue holds outstanding requests of that device. */
  ghost predicate Known(q: seq<Cmd>, d: nat, level: map<Cmd, nat>) {
    forall i :: 0 <= i < |q| ==> q[i] in level && q[i].dev == d
  }

  /** The part of sol11ghd_transport under the waitq mutex, for a request to device d. */
  function Enqueue(w: WaitQ, d: nat): WaitQ
    requires d in w.devs
  {
    var c := Cmd(w.next, d);
    w.(devs := w.devs[d := w.devs[d].(q := w.devs[d].q + [c])], level := w.level[c := 1], next := w.next + 1)
  }

  /** sol11ghd_waitq_delete up to its call of shuffle_up, for an outstanding request. */
  function Unlink(w: WaitQ, c: Cmd): WaitQ
    requires c in w.level && c.dev in w.devs
  {
    var dv := w.devs[c.dev];
    var w1 := w.(level := w.level - {c});
    if w.level[c] == 1 then w1.(devs := w.devs[c.dev := dv.(q := Without(dv.q, {c}))])
    else if w.level[c] == 2 then w1.(devs := w.devs[c.dev := dv.(nactive := dv.nactive - 1)], hq := Without(w.hq, {c}))
    else w1.(devs := w.devs[c.dev := dv.(nactive := dv.nactive - 1)], nactive := w.nactive - 1)
  }

  /** The adapter's queue gives up its head to the start function. */
  function StartHead(w: WaitQ): WaitQ
    requires w.hq != [] && w.hq[0] in w.level
  {
    var c := w.hq[0];
    w.(hq := w.hq[1..], nactive := w.nactive + 1, level := w.level[c := w.level[c] + 1], starting := Some(c),
       firsts := if c in w.firsts then w.firsts else w.firsts + [c])
  }

  /** The start function took it. */
  function Accept(w: WaitQ): WaitQ { w.(starting := None) }

  /** The start function did not take it: it goes back to the head of the queue. */
  function Requeue(w: WaitQ): WaitQ
    requires w.starting.Some? && w.starting.value in w.level && w.level[w.starting.value] > 0
  {
    var c := w.starting.value;
    w.(hq := [c] + w.hq, nactive := w.nactive - 1, level := w.level[c := w.level[c] - 1], starting := None)
  }

  // ---------------------------------------------------------------- what the operations keep

  /** The requests the adapter has. */
  ghost function Started(level: map<Cmd, nat>): set<Cmd> { set c | c in level && level[c] == 3 }

  /** The requests of device d that left its queue. */
  ghost function Promoted(level: map<Cmd, nat>, d: nat): set<Cmd> { set c | c in level && c.dev == d && level[c] >= 2 }

  function One(b: bool): int { if b then 1 else 0 }

  lemma CountStarted(level: map<Cmd, nat>, c: Cmd, k: nat)
    ensures |Started(level[c := k])| == |Started(level)| + One(k == 3) - One(c in level && level[c] == 3)
  {
    assert Started(level[c := k]) == if k == 3 then Started(level) + {c} else Started(level) - {c};
  }

  lemma CountPromoted(level: map<Cmd, nat>, c: Cmd, k: nat, d: nat)
    ensures |Promoted(level[c := k], d)| ==
      |Promoted(level, d)| + One(c.dev == d && k >= 2) - One(c in level && c.dev == d && level[c] >= 2)
  {
    assert Promoted(level[c := k], d) ==
      if c.dev != d then Promoted(level, d) else if k >= 2 then Promoted(level, d) + {c} else Promoted(level, d) - {c};
  }

  lemma CountDrop(level: map<Cmd, nat>, c: Cmd, d: nat)
    ensures |Started(level - {c})| == |Started(level)| - One(c in level && level[c] == 3)
    ensures |Promoted(level - {c}, d)| == |Promoted(level, d)| - One(c in level && c.dev == d && level[c] >= 2)
  {
    assert Started(level - {c}) == Started(level) - {c};
    assert Promoted(level - {c}, d) == Promoted(level, d) - {c};
  }

  /** Every outstanding request is in exactly the place its level says. */
  ghost predicate Placed(w: WaitQ) {
    && (forall c :: c in w.level ==> 1 <= w.level[c] <= 3 && c.dev in w.devs && c.id < w.next)
    && (forall c :: c in w.level ==> (w.level[c] == 1 <==> c in w.devs[c.dev].q) && (w.level[c] == 2 <==> c in w.hq))
    && (forall d :: d in w.devs ==> Known(w.devs[d].q, d, w.level))
    && (forall c :: c in w.hq ==> c in w.level)
    && NoDup(w.hq) && (forall d :: d in w.devs ==> NoDup(w.devs[d].q))
  }

  /** A device has no more requests promoted than its throttle allows, and one while it has several
      instances. */
  predicate Within(dv: Dev) {
    (dv.maxactive >= 0 ==> dv.nactive <= dv.maxactive) && (dv.ninstances > 1 ==> dv.nactive <= 1)
  }

  /** The counters count, and stay within the throttles. */
  ghost predicate Counted(w: WaitQ) {
    && w.nactive == |Started(w.level)| <= w.maxactive
    && forall d :: d in w.devs ==> w.devs[d].nactive == |Promoted(w.level, d)| && Within(w.devs[d])
  }

  /** No device could promote a request and does not. */
  ghost predicate Shuffled(w: WaitQ) { forall d :: d in w.devs ==> MustWait(w.devs[d]) }

  /** Requests of one device appear in the order in which they came. */
  ghost predicate Ascending(q: seq<Cmd>) {
    forall i, j :: 0 <= i < j < |q| && q[i].dev == q[j].dev ==> q[i].id < q[j].id
  }

  /** The queues are in order, and so is the way from one to the next. */
  ghost predicate QueuesOrdered(w: WaitQ) {
    && Ascending(w.hq)
    && (forall d :: d in w.devs ==> Ascending(w.devs[d].q))
    && (forall a, b :: a in w.hq && b in w.level && w.level[b] == 1 && a.dev == b.dev ==> a.id < b.id)
  }

  /** Whatever waits and was never started came later than all of its device that were. */
  ghost predicate Before(firsts: seq<Cmd>, level: map<Cmd, nat>) {
    forall f, x :: f in firsts && x in level && level[x] <= 2 && x !in firsts && f.dev == x.dev ==> f.id < x.id
  }

  /** First starts happen in order: whatever waits and was never started came later than all that were.
      Only the head of the adapter's queue can have been started before, and been rejected. */
  ghost predicate StartsOrdered(w: WaitQ) {
    && Ascending(w.firsts)
    && (forall f :: f in w.firsts ==> f.id < w.next)
    && Before(w.firsts, w.level)
    && (forall c :: c in w.level ==> (w.level[c] == 1 ==> c !in w.firsts) && (w.level[c] == 3 ==> c in w.firsts))
    && (forall c :: c in w.hq && c in w.firsts ==> w.starting.None? && c == w.hq[0])
    && (w.starting.Some? ==> w.starting.value in w.firsts)
  }

  ghost predicate Inv(w: WaitQ) { Placed(w) && Counted(w) && QueuesOrdered(w) && StartsOrdered(w) }

  /** An adapter with no requests. */
  lemma EmptyInv(devs: map<nat, Dev>, maxactive: nat)
    requires forall d :: d in devs ==> devs[d].q == [] && devs[d].nactive == 0
    ensures Inv(WaitQ(devs, [], 0, maxactive, map[], 0, [], None))
        && Shuffled(WaitQ(devs, [], 0, maxactive, map[], 0, [], None))
  {
    var w := WaitQ(devs, [], 0, maxactive, map[], 0, [], None);
    assert Started(w.level) == {};
    forall d | d in devs ensures |Promoted(w.level, d)| == 0 { assert Promoted(w.level, d) == {}; }
  }

  /** A new request. */
  lemma EnqueuePlaced(w: WaitQ, d: nat)
    requires Placed(w) && d in w.devs
    ensures Placed(Enqueue(w, d))
  {
    var w', c := Enqueue(w, d), Cmd(w.next, d);
    assert c !in w.level;
    assert forall x :: x in w'.devs[d].q <==> x in w.devs[d].q || x == c;
  }

  lemma EnqueueCounted(w: WaitQ, d: nat)
    requires Counted(w) && d in w.devs && Cmd(w.next, d) !in w.level
    ensures Counted(Enqueue(w, d))
  {
    CountStarted(w.level, Cmd(w.next, d), 1);
    forall e | e in w.devs ensures |Promoted(Enqueue(w, d).level, e)| == |Promoted(w.level, e)| {
      CountPromoted(w.level, Cmd(w.next, d), 1, e);
    }
  }

  lemma EnqueueQueues(w: WaitQ, d: nat)
    requires Placed(w) && QueuesOrdered(w) && d in w.devs
    ensures QueuesOrdered(Enqueue(w, d))
  {
    var w', c := Enqueue(w, d), Cmd(w.next, d);
    assert forall i :: 0 <= i < |w.devs[d].q| ==> w.devs[d].q[i].id < c.id;
  }

  lemma EnqueueStarts(w: WaitQ, d: nat)
    requires Placed(w) && StartsOrdered(w) && d in w.devs
    ensures StartsOrdered(Enqueue(w, d))
  {
    var w', c := Enqueue(w, d), Cmd(w.next, d);
    assert c !in w.level && c !in w.firsts;
  }

  // Promotion of the head of a device queue.

  lemma PromotePlaced(w: WaitQ, d: nat)
    requires Placed(w) && d in w.devs && w.devs[d].q != []
    ensures Placed(Promote(w, d))
  {
    var w', q := Promote(w, d), w.devs[d].q;
    assert q == [q[0]] + q[1..];
    assert q[0] !in q[1..];
    assert w.level[q[0]] == 1;
    assert forall x :: x in w'.hq <==> x in w.hq || x == q[0];
  }

  lemma PromoteCounted(w: WaitQ, d: nat)
    requires Counted(w) && d in w.devs && !MustWait(w.devs[d])
    requires var c := w.devs[d].q[0]; c in w.level && w.level[c] == 1 && c.dev == d
    ensures Counted(Promote(w, d))
  {
    var c := w.devs[d].q[0];
    CountStarted(w.level, c, 2);
    forall e | e in w.devs ensures |Promoted(Promote(w, d).level, e)| == |Promoted(w.level, e)| + One(e == d) {
      CountPromoted(w.level, c, 2, e);
    }
  }

  lemma PromoteQueues(w: WaitQ, d: nat)
    requires Placed(w) && QueuesOrdered(w) && d in w.devs && w.devs[d].q != []
    ensures QueuesOrdered(Promote(w, d))
  {
    var w', q := Promote(w, d), w.devs[d].q;
    assert q[0] in q;
    assert Ascending(w'.hq);
    assert forall e :: e in w'.devs ==> Ascending(w'.devs[e].q);
    forall a, b | a in w'.hq && b in w'.level && w'.level[b] == 1 && a.dev == b.dev ensures a.id < b.id {
      assert b in w.devs[b.dev].q;
    }
  }

  lemma PromoteStarts(w: WaitQ, d: nat)
    requires Placed(w) && StartsOrdered(w) && d in w.devs && w.devs[d].q != []
    ensures StartsOrdered(Promote(w, d))
  {
    var w', q := Promote(w, d), w.devs[d].q;
    assert q[0] in q;
  }

  /** What promotions for device d leave alone. */
  ghost predicate OnlyMovesUp(w: WaitQ, d: nat, w': WaitQ) {
    && (forall e :: e in w.devs <==> e in w'.devs) && (forall e :: e in w.devs && e != d ==> w'.devs[e] == w.devs[e])
    && (forall c :: c in w.level <==> c in w'.level)
    && (forall c :: c in w.level && w.level[c] == 3 ==> w'.level[c] == 3)
    && w'.starting == w.starting && w'.nactive == w.nactive && w'.maxactive == w.maxactive
    && w'.next == w.next && w'.firsts == w.firsts && w.hq <= w'.hq
  }

  lemma OnlyMovesUpTwice(w: WaitQ, d: nat, w1: WaitQ, w2: WaitQ)
    requires OnlyMovesUp(w, d, w1) && OnlyMovesUp(w1, d, w2)
    ensures OnlyMovesUp(w, d, w2)
  {
  }

  lemma PromoteMovesUp(w: WaitQ, d: nat)
    requires d in w.devs && w.devs[d].q != [] && w.devs[d].q[0] in w.level && w.level[w.devs[d].q[0]] == 1
    ensures OnlyMovesUp(w, d, Promote(w, d))
  {
  }

  lemma PromoteKeeps(w: WaitQ, d: nat)
    requires Inv(w) && d in w.devs && !MustWait(w.devs[d]) && w.devs[d].q[0] in w.level
    ensures var w' := Promote(w, d);
      && Inv(w') && OnlyMovesUp(w, d, w') && Known(w'.devs[d].q, d, w'.level)
      && |w'.devs[d].q| < |w.devs[d].q|
  {
    hide Counted, QueuesOrdered, StartsOrdered, OnlyMovesUp;
    assert w.devs[d].q[0] in w.devs[d].q;
    PromotePlaced(w, d);
    PromoteCounted(w, d);
    PromoteQueues(w, d);
    PromoteStarts(w, d);
    PromoteMovesUp(w, d);
  }

  /** Shuffling up keeps everything, leaves the device nothing it could promote, and no other device
      notices. */
  lemma {:induction false} ShuffleKeeps(w: WaitQ, d: nat)
    requires Inv(w) && d in w.devs && Known(w.devs[d].q, d, w.level)
    ensures var w' := ShuffleUp(w, d);
      && Inv(w') && OnlyMovesUp(w, d, w') && MustWait(w'.devs[d])
    decreases |w.devs[d].q|
  {
    if !MustWait(w.devs[d]) {
      var w1 := Promote(w, d);
      PromoteKeeps(w, d);
      hide Inv, Known, Promote;
      ShuffleKeeps(w1, d);
      OnlyMovesUpTwice(w, d, w1, ShuffleUp(w1, d));
      hide OnlyMovesUp;
    }
  }

  // Removal of an outstanding request.

  lemma UnlinkPlaced(w: WaitQ, c: Cmd)
    requires Placed(w) && c in w.level
    ensures Placed(Unlink(w, c))
  {
    var w' := Unlink(w, c);
    WithoutIs(w.devs[c.dev].q, {c});
    WithoutIs(w.hq, {c});
    forall d | d in w'.devs ensures Known(w'.devs[d].q, d, w'.level) && NoDup(w'.devs[d].q) {
      forall i | 0 <= i < |w'.devs[d].q| ensures w'.devs[d].q[i] in w'.level && w'.devs[d].q[i].dev == d {
        assert w'.devs[d].q[i] in w'.devs[d].q;
        assert w'.devs[d].q[i] in w.devs[d].q;
      }
    }
  }

  lemma UnlinkCounted(w: WaitQ, c: Cmd)
    requires Counted(w) && c in w.level && 1 <= w.level[c] <= 3 && c.dev in w.devs
    ensures Counted(Unlink(w, c))
  {
    CountDrop(w.level, c, c.dev);
    forall e | e in w.devs
      ensures |Promoted(Unlink(w, c).level, e)| == |Promoted(w.level, e)| - One(e == c.dev && w.level[c] >= 2)
    {
      CountDrop(w.level, c, e);
    }
  }

  lemma {:induction false} WithoutAscending(q: seq<Cmd>, c: Cmd)
    requires Ascending(q)
    ensures Ascending(Without(q, {c}))
  {
    forall i, j | 0 <= i < j < |Without(q, {c})| && Without(q, {c})[i].dev == Without(q, {c})[j].dev
      ensures Without(q, {c})[i].id < Without(q, {c})[j].id
    {
      var a, b := WithoutOrder(q, {c}, i, j);
    }
  }

  lemma UnlinkQueues(w: WaitQ, c: Cmd)
    requires Placed(w) && QueuesOrdered(w) && c in w.level
    ensures QueuesOrdered(Unlink(w, c))
  {
    if w.level[c] == 1 {
      WithoutAscending(w.devs[c.dev].q, c);
    } else if w.level[c] == 2 {
      WithoutAscending(w.hq, c);
      WithoutIs(w.hq, {c});
    }
  }

  lemma UnlinkStarts(w: WaitQ, c: Cmd)
    requires Placed(w) && StartsOrdered(w) && c in w.level
    ensures StartsOrdered(Unlink(w, c))
  {
    if w.level[c] == 2 {
      WithoutIs(w.hq, {c});
      assert c != w.hq[0] ==> Without(w.hq, {c})[0] == w.hq[0];
    }
  }

  /** The head of the adapter's queue is started. */
  lemma StartHeadPlaced(w: WaitQ)
    requires Placed(w) && w.hq != []
    ensures Placed(StartHead(w))
  {
    assert w.hq == [w.hq[0]] + w.hq[1..];
    assert w.hq[0] in w.hq && w.hq[0] !in w.hq[1..];
  }

  lemma StartHeadCounted(w: WaitQ)
    requires Counted(w) && w.hq != [] && w.nactive < w.maxactive && w.hq[0] in w.level && w.level[w.hq[0]] == 2
    ensures Counted(StartHead(w))
  {
    var c := w.hq[0];
    CountStarted(w.level, c, 3);
    forall e | e in w.devs ensures |Promoted(StartHead(w).level, e)| == |Promoted(w.level, e)| {
      CountPromoted(w.level, c, 3, e);
    }
  }

  lemma StartHeadQueues(w: WaitQ)
    requires Placed(w) && QueuesOrdered(w) && w.hq != []
    ensures QueuesOrdered(StartHead(w))
  {
    assert w.hq[0] in w.hq;
    assert forall x :: x in w.hq[1..] ==> x in w.hq;
  }

  lemma StartHeadFirsts(w: WaitQ)
    requires Placed(w) && StartsOrdered(w) && w.hq != []
    ensures Ascending(StartHead(w).firsts)
  {
    assert w.hq[0] in w.hq;
    assert forall f :: f in w.firsts && w.hq[0] !in w.firsts && f.dev == w.hq[0].dev ==> f.id < w.hq[0].id;
  }

  /** The head is the oldest request of its device that waits. */
  lemma HeadIsOldest(w: WaitQ, x: Cmd)
    requires Placed(w) && QueuesOrdered(w) && w.hq != []
    requires x in w.level && x != w.hq[0] && w.level[x] <= 2 && x.dev == w.hq[0].dev
    ensures w.hq[0].id < x.id
  {
    assert w.hq[0] in w.hq;
    if w.level[x] == 2 {
      var k :| 0 <= k < |w.hq| && w.hq[k] == x;
    }
  }

  lemma StartHeadStarts(w: WaitQ)
    requires Placed(w) && QueuesOrdered(w) && StartsOrdered(w) && w.hq != [] && w.starting.None?
    ensures StartsOrdered(StartHead(w))
  {
    var c := w.hq[0];
    assert c in w.hq && w.hq == [c] + w.hq[1..];
    forall x | x in w.level && x != c && w.level[x] <= 2 && x.dev == c.dev ensures c.id < x.id {
      HeadIsOldest(w, x);
    }
    StartHeadFirsts(w);
    StartHeadLater(w);
  }

  lemma BeforeHead(firsts: seq<Cmd>, level: map<Cmd, nat>, c: Cmd)
    requires Before(firsts, level)
    requires forall x :: x in level && x != c && level[x] <= 2 && x.dev == c.dev ==> c.id < x.id
    ensures Before(if c in firsts then firsts else firsts + [c], level[c := 3])
  {
  }

  lemma RestNotStarted(w: WaitQ)
    requires Placed(w) && StartsOrdered(w) && w.hq != []
    ensures forall x :: x in w.hq[1..] ==> x !in w.firsts && x != w.hq[0]
  {
    assert w.hq == [w.hq[0]] + w.hq[1..];
  }

  lemma StartHeadLater(w: WaitQ)
    requires Placed(w) && StartsOrdered(w) && w.hq != [] && w.starting.None? && w.hq[0] in w.hq
    requires w.hq == [w.hq[0]] + w.hq[1..]
    requires forall x :: x in w.level && x != w.hq[0] && w.level[x] <= 2 && x.dev == w.hq[0].dev ==> w.hq[0].id < x.id
    requires Ascending(StartHead(w).firsts)
    ensures StartsOrdered(StartHead(w))
  {
    var w', c := StartHead(w), w.hq[0];
    BeforeHead(w.firsts, w.level, c);
    hide Before, Ascending;
    assert forall f :: f in w'.firsts <==> f in w.firsts || f == c;
    RestNotStarted(w);
    assert w.level[c] == 2 && w'.level == w.level[c := 3];
    hide Placed;
  }

  /** A rejected request goes back. */
  lemma RequeuePlaced(w: WaitQ)
    requires Placed(w) && w.starting.Some? && w.starting.value in w.level && w.level[w.starting.value] == 3
    ensures Placed(Requeue(w))
  {
  }

  lemma RequeueCounted(w: WaitQ)
    requires Counted(w) && w.starting.Some? && w.starting.value in w.level && w.level[w.starting.value] == 3
    ensures Counted(Requeue(w))
  {
    var c := w.starting.value;
    CountStarted(w.level, c, 2);
    forall e | e in w.devs ensures |Promoted(Requeue(w).level, e)| == |Promoted(w.level, e)| {
      CountPromoted(w.level, c, 2, e);
    }
  }

  lemma RequeueQueues(w: WaitQ)
    requires Placed(w) && QueuesOrdered(w) && StartsOrdered(w)
    requires w.starting.Some? && w.starting.value in w.level && w.level[w.starting.value] == 3
    ensures QueuesOrdered(Requeue(w))
  {
    var w', c := Requeue(w), w.starting.value;
    forall x | x in w.hq && x.dev == c.dev ensures c.id < x.id {
      assert x !in w.firsts;
    }
    assert Ascending(w'.hq);
  }

  lemma RequeueStarts(w: WaitQ)
    requires Placed(w) && StartsOrdered(w)
    requires w.starting.Some? && w.starting.value in w.level && w.level[w.starting.value] == 3
    ensures StartsOrdered(Requeue(w))
  {
  }

  // ---------------------------------------------------------------- whole operations

  lemma DevKnown(w: WaitQ, d: nat)
    requires Placed(w) && d in w.devs
    ensures Known(w.devs[d].q, d, w.level)
  {
  }

  /** sol11ghd_transport up to the attempt to get the adapter. */
  function Transport(w: WaitQ, d: nat): WaitQ
    requires d in w.devs && Known(w.devs[d].q, d, w.level)
  {
    ShuffleUp(Enqueue(w, d), d)
  }

  /** Once c is unlinked the rest of its device's queue is still that device's. */
  ghost predicate Deletable(w: WaitQ, c: Cmd) {
    c in w.level && c.dev in w.devs && Known(Unlink(w, c).devs[c.dev].q, c.dev, Unlink(w, c).level)
  }

  /** sol11ghd_waitq_delete */
  function Delete(w: WaitQ, c: Cmd): WaitQ
    requires Deletable(w, c)
  {
    ShuffleUp(Unlink(w, c), c.dev)
  }

  lemma OutstandingDeletable(w: WaitQ, c: Cmd)
    requires Placed(w) && c in w.level
    ensures Deletable(w, c)
  {
    UnlinkPlaced(w, c);
    DevKnown(Unlink(w, c), c.dev);
  }

  lemma EnqueueKeeps(w: WaitQ, d: nat)
    requires Inv(w) && d in w.devs
    ensures Inv(Enqueue(w, d))
  {
    EnqueuePlaced(w, d);
    EnqueueCounted(w, d);
    EnqueueQueues(w, d);
    EnqueueStarts(w, d);
  }

  lemma UnlinkKeeps(w: WaitQ, c: Cmd)
    requires Inv(w) && c in w.level
    ensures Inv(Unlink(w, c))
  {
    UnlinkPlaced(w, c);
    UnlinkCounted(w, c);
    UnlinkQueues(w, c);
    UnlinkStarts(w, c);
  }

  ghost predicate OthersWait(w: WaitQ, d: nat) { forall e :: e in w.devs && e != d ==> MustWait(w.devs[e]) }

  lemma OthersStillWait(w: WaitQ, d: nat, w': WaitQ)
    requires OthersWait(w, d) && OnlyMovesUp(w, d, w')
    ensures OthersWait(w', d)
  {
  }

  lemma AllWait(w: WaitQ, d: nat)
    requires OthersWait(w, d) && (d in w.devs ==> MustWait(w.devs[d]))
    ensures Shuffled(w)
  {
  }

  /** Shuffling one device up restores what the others already have. */
  lemma Settles(w: WaitQ, d: nat)
    requires Inv(w) && d in w.devs && Known(w.devs[d].q, d, w.level) && OthersWait(w, d)
    ensures var w' := ShuffleUp(w, d);
      && Inv(w') && OnlyMovesUp(w, d, w') && Shuffled(w')
  {
    ShuffleKeeps(w, d);
    OthersStillWait(w, d, ShuffleUp(w, d));
    AllWait(ShuffleUp(w, d), d);
  }

  lemma EnqueueOthers(w: WaitQ, d: nat)
    requires Shuffled(w) && d in w.devs && Known(w.devs[d].q, d, w.level)
    ensures var w' := Enqueue(w, d); OthersWait(w', d) && d in w'.devs && Known(w'.devs[d].q, d, w'.level)
  {
  }

  lemma UnlinkOthers(w: WaitQ, c: Cmd)
    requires Shuffled(w) && c in w.level && c.dev in w.devs
    ensures OthersWait(Unlink(w, c), c.dev)
  {
  }

  lemma TransportKeeps(w: WaitQ, d: nat)
    requires Inv(w) && Shuffled(w) && d in w.devs && Known(w.devs[d].q, d, w.level)
    ensures var w' := Transport(w, d);
      && Inv(w') && Shuffled(w') && OnlyMovesUp(Enqueue(w, d), d, w')
  {
    EnqueueKeeps(w, d);
    EnqueueOthers(w, d);
    Settles(Enqueue(w, d), d);
  }

  lemma DeleteKeeps(w: WaitQ, c: Cmd)
    requires Inv(w) && Shuffled(w) && Deletable(w, c)
    ensures var w' := Delete(w, c);
      && Inv(w') && Shuffled(w') && OnlyMovesUp(Unlink(w, c), c.dev, w')
  {
    UnlinkKeeps(w, c);
    UnlinkOthers(w, c);
    Settles(Unlink(w, c), c.dev);
  }

  lemma StartHeadKeeps(w: WaitQ)
    requires Inv(w) && Shuffled(w) && w.hq != [] && w.nactive < w.maxactive && w.starting.None?
    ensures Inv(StartHead(w)) && Shuffled(StartHead(w))
  {
    assert w.hq[0] in w.hq;
    StartHeadPlaced(w);
    StartHeadCounted(w);
    StartHeadQueues(w);
    StartHeadStarts(w);
  }

  lemma RequeueKeeps(w: WaitQ)
    requires Inv(w) && Shuffled(w) && w.starting.Some? && w.starting.value in w.level && w.level[w.starting.value] == 3
    ensures Inv(Requeue(w)) && Shuffled(Requeue(w))
  {
    RequeuePlaced(w);
    RequeueCounted(w);
    RequeueQueues(w);
    RequeueStarts(w);
  }

  // Who waits, in which order.

  /** The requests of one device in a queue. */
  function OfDev(q: seq<Cmd>, d: nat): seq<Cmd>
    decreases |q|
  {
    if q == [] then [] else (if q[0].dev == d then [q[0]] else []) + OfDev(q[1..], d)
  }

  lemma {:induction false} OfDevAppend(p: seq<Cmd>, q: seq<Cmd>, d: nat)
    ensures OfDev(p + q, d) == OfDev(p, d) + OfDev(q, d)
    decreases |p|
  {
    if p == [] {
      assert p + q == q;
    } else {
      assert (p + q)[1..] == p[1..] + q;
      OfDevAppend(p[1..], q, d);
    }
  }

  lemma OfDevOne(c: Cmd, d: nat)
    ensures OfDev([c], d) == if c.dev == d then [c] else []
  {
    assert [c][1..] == [];
  }

  lemma {:induction false} OfDevAll(q: seq<Cmd>, d: nat)
    requires forall i :: 0 <= i < |q| ==> q[i].dev == d
    ensures OfDev(q, d) == q
    decreases |q|
  {
    if q != [] {
      OfDevAll(q[1..], d);
      assert q == [q[0]] + q[1..];
    }
  }

  lemma {:induction false} OfDevWithout(q: seq<Cmd>, d: nat, s: set<Cmd>)
    ensures OfDev(Without(q, s), d) == Without(OfDev(q, d), s)
    decreases |q|
  {
    if q != [] {
      OfDevWithout(q[1..], d, s);
      OfDevAppend(if q[0] in s then [] else [q[0]], Without(q[1..], s), d);
      WithoutAppend(if q[0].dev == d then [q[0]] else [], OfDev(q[1..], d), s);
      OfDevOne(q[0], d);
      WithoutOne(q[0], s);
    }
  }

  /** A device's requests that have not been handed over, in the order in which they will be: those in the
      adapter's queue and then those in its own. */
  function Line(w: WaitQ, d: nat): seq<Cmd>
    requires d in w.devs
  {
    OfDev(w.hq, d) + w.devs[d].q
  }

  /** The same devices, and the same line for each but d. */
  ghost predicate OtherLines(w: WaitQ, d: nat, w': WaitQ) {
    && w'.devs.Keys == w.devs.Keys
    && forall e :: e in w.devs && e in w'.devs && e != d ==> Line(w', e) == Line(w, e)
  }

  ghost predicate SameLines(w: WaitQ, w': WaitQ) {
    w'.devs.Keys == w.devs.Keys && forall e :: e in w.devs && e in w'.devs ==> Line(w', e) == Line(w, e)
  }

  lemma PromoteLines(w: WaitQ, d: nat)
    requires d in w.devs && w.devs[d].q != [] && w.devs[d].q[0] in w.level && w.devs[d].q[0].dev == d
    ensures SameLines(w, Promote(w, d))
  {
    var w', c := Promote(w, d), w.devs[d].q[0];
    forall e | e in w.devs ensures Line(w', e) == Line(w, e) {
      OfDevAppend(w.hq, [c], e);
      OfDevOne(c, e);
      assert w.devs[d].q == [c] + w.devs[d].q[1..];
    }
  }

  lemma {:induction false} ShuffleLines(w: WaitQ, d: nat)
    requires Inv(w) && d in w.devs && Known(w.devs[d].q, d, w.level)
    ensures SameLines(w, ShuffleUp(w, d))
    decreases |w.devs[d].q|
  {
    if !MustWait(w.devs[d]) {
      assert w.devs[d].q[0].dev == d;
      PromoteLines(w, d);
      PromoteKeeps(w, d);
      hide Inv, Known, Promote;
      ShuffleLines(Promote(w, d), d);
    }
  }

  lemma MovesUpKeys(w: WaitQ, d: nat, w': WaitQ)
    requires OnlyMovesUp(w, d, w')
    ensures w'.level.Keys == w.level.Keys && w'.next == w.next
    ensures w'.nactive == w.nactive && w'.starting == w.starting && w'.firsts == w.firsts
  {
  }

  lemma LinesThen(w: WaitQ, d: nat, w1: WaitQ, w2: WaitQ)
    requires OtherLines(w, d, w1) && SameLines(w1, w2) && d in w.devs
    ensures OtherLines(w, d, w2) && d in w1.devs && d in w2.devs && Line(w2, d) == Line(w1, d)
  {
    hide Line;
  }

  /** Shuffling up changes neither who is outstanding nor a line. */
  lemma ShuffleSame(w: WaitQ, d: nat)
    requires Inv(w) && d in w.devs && Known(w.devs[d].q, d, w.level)
    ensures var w' := ShuffleUp(w, d);
      && w'.level.Keys == w.level.Keys && w'.next == w.next && SameLines(w, w')
      && w'.nactive == w.nactive && w'.starting == w.starting && w'.firsts == w.firsts
  {
    hide Inv, Known, OnlyMovesUp, SameLines, MustWait;
    ShuffleKeeps(w, d);
    ShuffleLines(w, d);
    MovesUpKeys(w, d, ShuffleUp(w, d));
  }

  /** Promotions bring nobody to the adapter. */
  lemma {:induction false} ShuffleStarts(w: WaitQ, d: nat, c: Cmd)
    requires Inv(w) && d in w.devs && Known(w.devs[d].q, d, w.level) && c in w.level
    ensures var w' := ShuffleUp(w, d); c in w'.level && (w'.level[c] == 3 <==> w.level[c] == 3)
    decreases |w.devs[d].q|
  {
    if !MustWait(w.devs[d]) {
      assert w.devs[d].q[0] in w.devs[d].q;
      PromoteKeeps(w, d);
      hide Inv, Known;
      ShuffleStarts(Promote(w, d), d, c);
    }
  }

  /** A submission makes one new request outstanding, at the end of its device's line, and changes nothing
      else about who waits. */
  lemma TransportAdds(w: WaitQ, d: nat)
    requires Inv(w) && Shuffled(w) && d in w.devs && Known(w.devs[d].q, d, w.level)
    ensures var w', c := Transport(w, d), Cmd(w.next, d);
      && c !in w.level && w'.level.Keys == w.level.Keys + {c} && w'.next == w.next + 1
      && OtherLines(w, d, w') && d in w'.devs && Line(w', d) == Line(w, d) + [c]
      && w'.nactive == w.nactive && w'.starting == w.starting && w'.firsts == w.firsts
  {
    var w1 := Enqueue(w, d);
    EnqueueAdds(w, d);
    EnqueueLine(w, d);
    hide Line, OtherLines, SameLines;
    EnqueueKeeps(w, d);
    hide Inv;
    EnqueueOthers(w, d);
    hide Known, Shuffled, OthersWait, ShuffleUp;
    ShuffleSame(w1, d);
    LinesThen(w, d, w1, ShuffleUp(w1, d));
  }

  lemma EnqueueAdds(w: WaitQ, d: nat)
    requires Inv(w) && d in w.devs
    ensures var w1, c := Enqueue(w, d), Cmd(w.next, d);
      && c !in w.level && w1.level.Keys == w.level.Keys + {c} && w1.next == w.next + 1
  {
  }

  lemma EnqueueLine(w: WaitQ, d: nat)
    requires d in w.devs
    ensures var w1 := Enqueue(w, d); OtherLines(w, d, w1) && Line(w1, d) == Line(w, d) + [Cmd(w.next, d)]
  {
    assert OfDev(w.hq, d) + (w.devs[d].q + [Cmd(w.next, d)]) == Line(w, d) + [Cmd(w.next, d)];
  }

  /** A completion or an early end takes out one request, from the ranks and from its device's line. */
  lemma DeleteRemoves(w: WaitQ, c: Cmd)
    requires Inv(w) && Shuffled(w) && Deletable(w, c)
    ensures var w' := Delete(w, c);
      && w'.level.Keys == w.level.Keys - {c} && w'.next == w.next
      && OtherLines(w, c.dev, w') && c.dev in w'.devs && Line(w', c.dev) == Without(Line(w, c.dev), {c})
      && w'.nactive == w.nactive - (if w.level[c] == 3 then 1 else 0) && w'.starting == w.starting
  {
    var w1 := Unlink(w, c);
    UnlinkLine(w, c);
    UnlinkRemoves(w, c);
    hide Line, OtherLines, SameLines;
    UnlinkKeeps(w, c);
    hide Inv, Unlink, ShuffleUp, Known, Shuffled;
    ShuffleSame(w1, c.dev);
    LinesThen(w, c.dev, w1, ShuffleUp(w1, c.dev));
  }

  lemma UnlinkRemoves(w: WaitQ, c: Cmd)
    requires Placed(w) && c in w.level && c.dev in w.devs
    ensures var w1 := Unlink(w, c);
      && w1.level.Keys == w.level.Keys - {c} && w1.next == w.next && w1.devs.Keys == w.devs.Keys
      && w1.nactive == w.nactive - (if w.level[c] == 3 then 1 else 0) && w1.starting == w.starting
  {
  }

  lemma UnlinkLine(w: WaitQ, c: Cmd)
    requires Placed(w) && c in w.level && c.dev in w.devs
    ensures var w1 := Unlink(w, c); OtherLines(w, c.dev, w1) && Line(w1, c.dev) == Without(Line(w, c.dev), {c})
  {
    var w1, q := Unlink(w, c), w.devs[c.dev].q;
    WithoutAppend(OfDev(w.hq, c.dev), q, {c});
    OfDevWithout(w.hq, c.dev, {c});
    if w.level[c] != 1 { WithoutNone(q, {c}); }
    if w.level[c] != 2 { WithoutNone(w.hq, {c}); }
    forall e | e in w.devs && e != c.dev ensures Line(w1, e) == Line(w, e) {
      OfDevWithout(w.hq, e, {c});
      OfDevHas(w.hq, e);
      WithoutNone(OfDev(w.hq, e), {c});
    }
  }

  lemma {:induction false} OfDevHas(q: seq<Cmd>, d: nat)
    ensures forall x :: x in OfDev(q, d) ==> x.dev == d
    decreases |q|
  {
    if q != [] { OfDevHas(q[1..], d); }
  }

  /** A request at the head of the adapter's queue is the head of its device's line, and in no other. */
  lemma HeadOfLine(w: WaitQ, c: Cmd, w': WaitQ)
    requires w.hq == [c] + w'.hq && w'.devs == w.devs && c.dev in w.devs
    ensures OtherLines(w, c.dev, w') && Line(w, c.dev) == [c] + Line(w', c.dev)
  {
    forall e ensures OfDev(w.hq, e) == (if c.dev == e then [c] else []) + OfDev(w'.hq, e) {
      OfDevAppend([c], w'.hq, e);
      OfDevOne(c, e);
    }
    hide OfDev;
  }

  lemma OtherLinesBack(w: WaitQ, d: nat, w': WaitQ)
    requires OtherLines(w, d, w')
    ensures OtherLines(w', d, w)
  {
    hide Line;
  }

  /** A start takes the head of its device's line; a refusal puts it back there; nobody comes or goes. */
  lemma StartMoves(w: WaitQ)
    requires Placed(w) && w.hq != []
    ensures w.hq[0] in w.level && w.hq[0].dev in w.devs
    ensures var w', c := StartHead(w), w.hq[0];
      && w'.level.Keys == w.level.Keys && w'.level[c] == 3 && w'.starting == Some(c) && w'.next == w.next
      && OtherLines(w, c.dev, w') && Line(w, c.dev) == [c] + Line(w', c.dev)
  {
    var c := w.hq[0];
    assert c in w.hq && w.hq == [c] + w.hq[1..];
    assert w.level[c] == 2;
    hide Placed, Line, OtherLines;
    HeadOfLine(w, c, StartHead(w));
  }

  lemma RequeueMoves(w: WaitQ)
    requires w.starting.Some? && w.starting.value in w.level && w.level[w.starting.value] == 3
    requires w.starting.value.dev in w.devs
    ensures var w', c := Requeue(w), w.starting.value;
      && w'.level.Keys == w.level.Keys && w'.level[c] == 2 && w'.starting.None? && w'.next == w.next
      && OtherLines(w, c.dev, w') && Line(w', c.dev) == [c] + Line(w, c.dev)
  {
    hide Line, OtherLines;
    HeadOfLine(Requeue(w), w.starting.value, w);
    OtherLinesBack(Requeue(w), w.starting.value.dev, w);
  }

  /** A device with requests waiting has as many promoted as its throttle allows, or one when it has several
      instances. */
  lemma ThrottleUsed(w: WaitQ, d: nat)
    requires Inv(w) && Shuffled(w) && d in w.devs && w.devs[d].q != [] && w.devs[d].maxactive >= 1
    ensures w.devs[d].nactive == if w.devs[d].ninstances > 1 then 1 else w.devs[d].maxactive
  {
    assert MustWait(w.devs[d]) && Within(w.devs[d]);
    assert w.devs[d].nactive >= 0;
  }

  /** A device with requests waiting has at least one that went ahead, unless it is throttled to none. */
  lemma WaitingMeansBusy(w: WaitQ, d: nat)
    requires Inv(w) && Shuffled(w) && d in w.devs && w.devs[d].q != [] && w.devs[d].maxactive >= 1
    ensures exists c :: c in w.level && c.dev == d && w.level[c] >= 2
  {
    assert MustWait(w.devs[d]);
    assert Promoted(w.level, d) != {};
    var c :| c in Promoted(w.level, d);
  }

  // ---------------------------------------------------------------- handing requests to the adapter

  /** ccc_waitq_held and ccc_waitq_frozen. */
  datatype Gate = Gate(held: bool, frozen: bool)

  datatype Processed = Processed(w: WaitQ, gate: Gate, rc: bool)

  /** sol11ghd_waitq_process_and_mutex_hold when the start function gives these answers in turn, and
      thawed says whether a frozen queue has waited long enough. */
  function Process(w: WaitQ, gate: Gate, thawed: bool, answers: seq<bool>): Processed
    requires forall c :: c in w.hq ==> c in w.level
    decreases |w.hq|
  {
    if w.hq == [] || w.nactive >= w.maxactive || gate.held || (gate.frozen && !thawed) then Processed(w, gate, false)
    else
      assert w.hq[0] in w.hq;
      var w1, open := StartHead(w), gate.(frozen := false);
      if answers == [] || !answers[0] then Processed(Requeue(w1), open, false)
      else
        assert forall c :: c in w.hq[1..] ==> c in w.hq;
        Process(Accept(w1), open, thawed, answers[1..]).(rc := true)
  }

  function OrStarted(r: Processed, rc: bool): Processed { if rc then r.(rc := true) else r }

  predicate MayStart(w: WaitQ, gate: Gate, thawed: bool) {
    w.hq != [] && w.nactive < w.maxactive && !gate.held && (gate.frozen ==> thawed)
  }

  lemma ProcessTakesOne(w: WaitQ, gate: Gate, thawed: bool, answers: seq<bool>, k: nat)
    requires (forall c :: c in w.hq ==> c in w.level) && MayStart(w, gate, thawed) && k < |answers| && answers[k]
    ensures var w1 := Accept(StartHead(w));
      && (forall c :: c in w1.hq ==> c in w1.level)
      && forall rc :: OrStarted(Process(w, gate, thawed, answers[k..]), rc)
           == OrStarted(Process(w1, gate.(frozen := false), thawed, answers[k + 1..]), true)
  {
    assert forall c :: c in w.hq[1..] ==> c in w.hq;
    assert answers[k..][1..] == answers[k + 1..];
  }

  lemma ProcessTakesNone(w: WaitQ, gate: Gate, thawed: bool, answers: seq<bool>, k: nat)
    requires (forall c :: c in w.hq ==> c in w.level) && MayStart(w, gate, thawed) && k <= |answers|
    requires k == |answers| || !answers[k]
    ensures Process(w, gate, thawed, answers[k..]) == Processed(Requeue(StartHead(w)), gate.(frozen := false), false)
  {
  }

  /** Started or just told to: nothing else keeps the adapter's queue from moving. */
  predicate Blocked(w: WaitQ, gate: Gate, rejected: Option<Cmd>) {
    w.hq == [] || w.nactive >= w.maxactive || gate.held || gate.frozen || rejected == Some(w.hq[0])
  }

  /** The adapter's queue, ready to be started from. */
  ghost predicate Ready(w: WaitQ) { NoDup(w.hq) && forall c :: c in w.hq ==> c in w.level && w.level[c] == 2 }

  lemma StartedReady(w: WaitQ)
    requires Ready(w) && w.hq != []
    ensures var w1 := Accept(StartHead(w)); Ready(w1) && w.hq[0] !in w1.hq && w1.level[w.hq[0]] == 3
  {
    assert w.hq == [w.hq[0]] + w.hq[1..];
    assert w.hq[0] in w.hq;
  }

  /** It starts the first k requests of the queue, in order, as many as the throttle and the adapter
      allow, and says whether it started any. */
  lemma {:induction false} ProcessStartsPrefix(w: WaitQ, gate: Gate, thawed: bool, answers: seq<bool>) returns (k: nat)
    requires Ready(w)
    ensures var r := Process(w, gate, thawed, answers);
      && k <= |w.hq| && r.w.hq == w.hq[k..] && r.w.nactive == w.nactive + k
      && (r.rc <==> k > 0)
      && (forall i :: 0 <= i < k ==> w.hq[i] in r.w.level && r.w.level[w.hq[i]] == 3)
      && k <= |answers| && (forall i :: 0 <= i < k ==> answers[i])
      && (Blocked(r.w, r.gate, None) || k == |answers| || !answers[k])
    decreases |w.hq|
  {
    if w.hq == [] || w.nactive >= w.maxactive || gate.held || (gate.frozen && !thawed) || answers == [] || !answers[0] {
      k := 0;
    } else {
      var open, c := gate.(frozen := false), w.hq[0];
      var w1 := Accept(StartHead(w));
      StartedReady(w);
      var j := ProcessStartsPrefix(w1, open, thawed, answers[1..]);
      ProcessKeepsStarted(w1, open, thawed, answers[1..], c);
      k := j + 1;
      assert w1.hq[j..] == w.hq[k..];
      assert forall i :: 1 <= i < k ==> w.hq[i] == w1.hq[i - 1] && answers[i] == answers[1..][i - 1];
    }
  }

  lemma StartRequeueKeeps(w: WaitQ)
    requires Inv(w) && Shuffled(w) && w.hq != [] && w.nactive < w.maxactive && w.starting.None? && w.hq[0] in w.level
    ensures Inv(Requeue(StartHead(w))) && Shuffled(Requeue(StartHead(w)))
  {
    assert w.hq[0] in w.hq;
    StartHeadKeeps(w);
    RequeueKeeps(StartHead(w));
  }

  lemma StartAcceptKeeps(w: WaitQ)
    requires Inv(w) && Shuffled(w) && w.hq != [] && w.nactive < w.maxactive && w.starting.None? && w.hq[0] in w.level
    ensures Inv(Accept(StartHead(w))) && Shuffled(Accept(StartHead(w)))
  {
    StartHeadKeeps(w);
    NothingElseStarted(StartHead(w));
    AcceptKeeps(StartHead(w));
  }

  lemma NothingElseStarted(w: WaitQ)
    requires StartsOrdered(w) && w.starting.Some?
    ensures forall c :: c in w.hq ==> c !in w.firsts
  {
  }

  lemma {:induction false} ProcessKeeps(w: WaitQ, gate: Gate, thawed: bool, answers: seq<bool>)
    requires Inv(w) && Shuffled(w) && w.starting.None? && forall c :: c in w.hq ==> c in w.level
    ensures var w' := Process(w, gate, thawed, answers).w;
      Inv(w') && Shuffled(w') && w'.starting.None?
    decreases |w.hq|
  {
    if w.hq == [] || w.nactive >= w.maxactive || gate.held || (gate.frozen && !thawed) {
    } else if answers == [] || !answers[0] {
      assert w.hq[0] in w.hq;
      StartRequeueKeeps(w);
    } else {
      assert w.hq[0] in w.hq && forall c :: c in w.hq[1..] ==> c in w.hq;
      StartAcceptKeeps(w);
      ProcessKeeps(Accept(StartHead(w)), gate.(frozen := false), thawed, answers[1..]);
    }
  }

  lemma AcceptKeeps(w: WaitQ)
    requires Inv(w) && Shuffled(w) && forall c :: c in w.hq ==> c !in w.firsts
    ensures Inv(Accept(w)) && Shuffled(Accept(w))
  {
  }

  lemma {:induction false} ProcessKeepsStarted(w: WaitQ, gate: Gate, thawed: bool, answers: seq<bool>, c: Cmd)
    requires (forall x :: x in w.hq ==> x in w.level) && c in w.level && w.level[c] == 3 && c !in w.hq
    ensures var r := Process(w, gate, thawed, answers); c in r.w.level && r.w.level[c] == 3
    decreases |w.hq|
  {
    if w.hq == [] || w.nactive >= w.maxactive || gate.held || (gate.frozen && !thawed) {
    } else if answers == [] || !answers[0] {
      assert w.hq[0] in w.hq;
    } else {
      assert w.hq[0] in w.hq;
      ProcessKeepsStarted(Accept(StartHead(w)), gate.(frozen := false), thawed, answers[1..], c);
    }
  }

  // ---------------------------------------------------------------- the driver's own loops

  lemma PromoteKnown(w: WaitQ, d: nat)
    requires d in w.devs && w.devs[d].q != [] && Known(w.devs[d].q, d, w.level)
    ensures Known(Promote(w, d).devs[d].q, d, Promote(w, d).level)
  {
  }

  /** ccc_t and the gdev_t of its devices. */
  class Ccc {
    var devs: map<nat, Dev>
    var hq: seq<Cmd>
    var nactive: int
    var maxactive: int
    var level: map<Cmd, nat>
    var held: bool
    var frozen: bool
    ghost var next: nat
    ghost var firsts: seq<Cmd>
    ghost var starting: Option<Cmd>

    ghost function View(): WaitQ reads this {
      WaitQ(devs, hq, nactive, maxactive, level, next, firsts, starting)
    }

    /** sol11ghd_waitq_shuffle_up */
    method WaitqShuffleUp(d: nat)
      requires d in devs && Known(devs[d].q, d, level)
      modifies this
      ensures View() == ShuffleUp(old(View()), d)
      ensures held == old(held) && frozen == old(frozen)
    {
      while true
        invariant d in devs && Known(devs[d].q, d, level)
        invariant ShuffleUp(View(), d) == ShuffleUp(old(View()), d)
        invariant held == old(held) && frozen == old(frozen)
        decreases |devs[d].q|
      {
        if devs[d].nactive >= devs[d].maxactive {
          return;
        }
        if devs[d].ninstances > 1 && devs[d].nactive > 0 {
          return;
        }
        if devs[d].q == [] {
          return;
        }
        ghost var was := View();
        PromoteKnown(was, d);
        var c := devs[d].q[0];
        devs := devs[d := devs[d].(q := devs[d].q[1..])];
        hq := hq + [c];
        devs := devs[d := devs[d].(nactive := devs[d].nactive + 1)];
        level := level[c := level[c] + 1];
        assert View() == Promote(was, d) by {
          assert View().devs == Promote(was, d).devs;
        }
      }
    }

    /** The switch of sol11ghd_waitq_delete. */
    method Drop(c: Cmd)
      requires c in level && c.dev in devs
      modifies this
      ensures View() == Unlink(old(View()), c)
      ensures held == old(held) && frozen == old(frozen)
    {
      var d := c.dev;
      match level[c] {
        case 1 =>
          devs := devs[d := devs[d].(q := Without(devs[d].q, {c}))];
        case 2 =>
          hq := Without(hq, {c});
          devs := devs[d := devs[d].(nactive := devs[d].nactive - 1)];
        case _ =>
          devs := devs[d := devs[d].(nactive := devs[d].nactive - 1)];
          nactive := nactive - 1;
      }
      level := level - {c};
    }

    /** sol11ghd_waitq_delete */
    method WaitqDelete(c: Cmd)
      requires Deletable(View(), c)
      modifies this
      ensures View() == Delete(old(View()), c)
      ensures held == old(held) && frozen == old(frozen)
    {
      Drop(c);
      WaitqShuffleUp(c.dev);
    }

    /** The head of the adapter's queue goes to the start function. */
    method TakeHead() returns (c: Cmd)
      requires hq != [] && hq[0] in level
      modifies this
      ensures c == old(hq[0]) && View() == StartHead(old(View()))
      ensures held == old(held) && frozen == old(frozen)
    {
      c := hq[0];
      hq := hq[1..];
      nactive := nactive + 1;
      level := level[c := level[c] + 1];
      firsts := if c in firsts then firsts else firsts + [c];
      starting := Some(c);
    }

    /** The start function refused it. */
    method PutBack(c: Cmd)
      requires starting == Some(c) && c in level && level[c] > 0
      modifies this
      ensures View() == Requeue(old(View()))
      ensures held == old(held) && frozen == old(frozen)
    {
      nactive := nactive - 1;
      level := level[c := level[c] - 1];
      hq := [c] + hq;
      starting := None;
    }

    /** The tests at the top of the loop of sol11ghd_waitq_process_and_mutex_hold. */
    method MustStop(thawed: bool) returns (stop: bool)
      modifies `frozen
      ensures stop <==> !MayStart(View(), old(Gate(held, frozen)), thawed)
      ensures frozen == (stop && old(frozen))
    {
      if hq == [] {
        return true;
      }
      if nactive >= maxactive {
        return true;
      }
      if held {
        return true;
      }
      if frozen {
        if !thawed {
          return true;
        } else {
          frozen := false;
        }
      }
      return false;
    }

    /** sol11ghd_waitq_process_and_mutex_hold */
    method ProcessHold(thawed: bool, answers: seq<bool>) returns (rc: bool)
      requires (forall c :: c in hq ==> c in level) && starting.None?
      modifies this
      ensures Processed(View(), Gate(held, frozen), rc)
        == Process(old(View()), old(Gate(held, frozen)), thawed, answers)
    {
      ghost var goal := Process(View(), Gate(held, frozen), thawed, answers);
      rc := false;
      var k := 0;
      assert answers[0..] == answers;
      while true
        invariant k <= |answers| && (forall c :: c in hq ==> c in level)
        invariant OrStarted(Process(View(), Gate(held, frozen), thawed, answers[k..]), rc) == goal
        decreases |hq|
      {
        ghost var was, gate := View(), Gate(held, frozen);
        var stop := MustStop(thawed);
        if stop {
          return;
        }
        assert hq[0] in hq;
        var c := TakeHead();
        if k == |answers| || !answers[k] {
          ProcessTakesNone(was, gate, thawed, answers, k);
          PutBack(c);
          return;
        }
        ProcessTakesOne(was, gate, thawed, answers, k);
        starting := None;
        rc := true;
        k := k + 1;
      }
    }
  }
}
