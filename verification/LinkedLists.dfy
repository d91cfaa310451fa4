/**
  The circular doubly linked lists of the generic host adapter layer (dktp/hba/ghd/ghd_queue.c, L2_*).

  A list is a ring of nodes through its head.  The other modules treat the wait queues, the done queue
  and the timer list as sequences; here the pointer surgery is proved to do to the ring what they do to
  the sequence.
 */
module LinkedLists {
  import opened Seqs

  /** L2el_t: private is l2_private, the structure the node is embedded in, here the node itself. */
  class L2el {
    var next: L2el
    var prev: L2el
    var private: L2el?

    /** L2_INIT of zeroed memory */
    constructor ()
      ensures next == this && prev == this && private == null
    {
      next, prev, private := this, this, null;
    }
  }

  predicate Alone(e: L2el) reads e { e.next == e && e.prev == e }

  /** The nodes of r are linked in a ring, each to the one behind it and back. */
  ghost predicate Linked(r: seq<L2el>)
    reads r
  {
    && (r != [] ==> r[|r| - 1].next == r[0] && r[0].prev == r[|r| - 1])
    && forall i :: 0 <= i < |r| - 1 ==> r[i].next == r[i + 1] && r[i + 1].prev == r[i]
  }

  /** The list with head h holds es, in order. */
  ghost predicate List(h: L2el, es: seq<L2el>)
    reads h, es
  {
    NoDup([h] + es) && Linked([h] + es)
  }

  /** The list without one of its nodes. */
  ghost function Removed(es: seq<L2el>, k: nat): seq<L2el>
    requires k < |es|
  {
    es[..k] + es[k + 1..]
  }

  /** The neighbours of the head and of the k-th element. */
  lemma Neighbours(h: L2el, es: seq<L2el>, k: nat)
    requires List(h, es) && k <= |es|
    ensures var r := [h] + es;
      && r[k].next == (if k == |es| then h else es[k]) && r[k].prev == (if k == 0 then r[|es|] else r[k - 1])
      && (k == |es| ==> h.prev == r[k])
  {
    var r := [h] + es;
    assert r[0] == h;
    if k > 0 { assert r[k - 1].next == r[k]; }
    if k < |es| { assert r[k].next == r[k + 1]; }
  }

  /** L2_add: at the tail. */
  method Add(h: L2el, e: L2el, private: L2el?, ghost es: seq<L2el>)
    requires List(h, es) && e != h && e !in es
    modifies h, e, h.prev
    ensures List(h, es + [e]) && e.private == private
    ensures h.private == old(h.private) && forall x :: x in es ==> x.private == old(x.private)
  {
    ghost var r, r' := [h] + es, [h] + (es + [e]);
    Neighbours(h, es, |es|);
    e.private := private;
    e.next := h;
    e.prev := h.prev;
    h.prev.next := e;
    h.prev := e;
    assert r' == r + [e] && r[0] == h;
    forall i | 0 <= i < |r'| - 1 ensures r'[i].next == r'[i + 1] && r'[i + 1].prev == r'[i] {
      if i + 1 < |r| { assert old(r[i].next) == r[i + 1] && old(r[i + 1].prev) == r[i]; }
    }
  }

  /** L2_add_head */
  method AddHead(h: L2el, e: L2el, private: L2el?, ghost es: seq<L2el>)
    requires List(h, es) && e != h && e !in es
    modifies h, e, h.next
    ensures List(h, [e] + es) && e.private == private
    ensures h.private == old(h.private) && forall x :: x in es ==> x.private == old(x.private)
  {
    ghost var r, r' := [h] + es, [h] + ([e] + es);
    Neighbours(h, es, 0);
    Neighbours(h, es, |es|);
    assert r[0] == h && h.next == (if es == [] then h else r[1]);
    assert r'[0] == h && r'[1] == e && forall i :: 2 <= i < |r'| ==> r'[i] == r[i - 1] && r'[i] != e;
    assert r'[|r'| - 1] == if es == [] then e else r[|es|];
    e.private := private;
    e.prev := h;
    e.next := h.next;
    h.next.prev := e;
    h.next := e;
    forall i | 0 <= i < |r'| - 1 ensures r'[i].next == r'[i + 1] && r'[i + 1].prev == r'[i] {
      if i >= 2 {
        assert r'[i] == r[i - 1] && r'[i + 1] == r[i];
        assert old(r[i - 1].next) == r[i] && old(r[i].prev) == r[i - 1];
      }
    }
  }

  lemma RemovedNoDup(h: L2el, es: seq<L2el>, k: nat)
    requires NoDup([h] + es) && k < |es|
    ensures NoDup([h] + Removed(es, k)) && es[k] !in [h] + Removed(es, k)
    ensures var r, r' := [h] + es, [h] + Removed(es, k);
      |r'| == |r| - 1 && forall i :: 0 <= i < |r'| ==> r'[i] == if i <= k then r[i] else r[i + 1]
  {
    var r, r' := [h] + es, [h] + Removed(es, k);
    assert forall i :: 0 <= i < |r'| ==> r'[i] == if i <= k then r[i] else r[i + 1];
    assert es[k] == r[k + 1];
    forall i, j | 0 <= i < j < |r'| ensures r'[i] != r'[j] {
      assert r'[i] == (if i <= k then r[i] else r[i + 1]) && r'[j] == (if j <= k then r[j] else r[j + 1]);
    }
    forall i | 0 <= i < |r'| ensures r'[i] != es[k] {
      assert r'[i] == if i <= k then r[i] else r[i + 1];
    }
  }

  /** L2_delete of the k-th element, which is then linked to itself. */
  method Delete(h: L2el, e: L2el, ghost es: seq<L2el>, ghost k: nat)
    requires List(h, es) && k < |es| && e == es[k]
    modifies e, e.next, e.prev
    ensures List(h, Removed(es, k)) && Alone(e)
    ensures h.private == old(h.private) && forall x :: x in es ==> x.private == old(x.private)
  {
    ghost var r, r' := [h] + es, [h] + Removed(es, k);
    Neighbours(h, es, k);
    Neighbours(h, es, k + 1);
    Neighbours(h, es, |es|);
    RemovedNoDup(h, es, k);
    assert r[k + 1] == e && r[0] == h && e.prev == r[k] && e.next == (if k + 1 == |es| then h else r[k + 2]);
    ghost var n := |r'| - 1;
    assert r'[n] == if k + 1 == |es| then r[k] else r[|es|];
    assert r'[n] != e && r'[0] == h && h != e;
    e.prev.next := e.next;
    e.next.prev := e.prev;
    e.next := e;
    e.prev := e;
    forall i | 0 <= i < |r'| - 1 ensures r'[i].next == r'[i + 1] && r'[i + 1].prev == r'[i] {
      assert r'[i] != e && r'[i + 1] != e;
      if i < k {
        assert r'[i] == r[i] && r'[i + 1] == r[i + 1];
        assert old(r[i].next) == r[i + 1] && old(r[i + 1].prev) == r[i];
      } else if i == k {
        assert r'[i] == r[k] && r'[i + 1] == r[k + 2];
      } else {
        assert r'[i] == r[i + 1] && r'[i + 1] == r[i + 2];
        assert old(r[i + 1].next) == r[i + 2] && old(r[i + 2].prev) == r[i + 1];
      }
    }
  }

  /** A second L2_delete changes nothing. */
  method DeleteAgain(e: L2el)
    requires Alone(e)
    modifies e
    ensures Alone(e) && e.private == old(e.private)
  {
    e.prev.next := e.next;
    e.next.prev := e.prev;
    e.next := e;
    e.prev := e;
  }

  /** L2_EMPTY, of a head or of a node that is on no list. */
  predicate Empty(h: L2el) reads h { h.next == h }

  lemma EmptyIs(h: L2el, es: seq<L2el>)
    requires List(h, es)
    ensures Empty(h) <==> es == []
  {
    Neighbours(h, es, 0);
    if es != [] { assert ([h] + es)[0] != ([h] + es)[1]; }
  }

  /** L2_remove_head */
  method RemoveHead(h: L2el, ghost es: seq<L2el>) returns (private: L2el?)
    requires List(h, es)
    modifies h, h.next, h.next.next
    ensures es == [] ==> private == null && List(h, es)
    ensures es != [] ==> private == old(es[0].private) && List(h, es[1..]) && Alone(es[0])
    ensures h.private == old(h.private) && forall x :: x in es ==> x.private == old(x.private)
  {
    EmptyIs(h, es);
    if Empty(h) {
      return null;
    }
    ghost var r, r' := [h] + es, [h] + es[1..];
    Neighbours(h, es, 0);
    Neighbours(h, es, 1);
    Neighbours(h, es, |es|);
    RemovedNoDup(h, es, 0);
    var e := h.next;
    assert Removed(es, 0) == es[1..] && r[0] == h && r[1] == e && e.next == (if |es| == 1 then h else r[2]);
    ghost var n := |r'| - 1;
    assert r'[n] == (if |es| == 1 then h else r[|es|]) && r'[n] != e && r'[0] == h && h != e;
    h.next := e.next;
    e.next.prev := h;
    e.next := e;
    e.prev := e;
    private := e.private;
    forall i | 0 <= i < |r'| - 1 ensures r'[i].next == r'[i + 1] && r'[i + 1].prev == r'[i] {
      assert r'[i] != e && r'[i + 1] != e;
      if i == 0 {
        assert r'[1] == r[2];
      } else {
        assert r'[i] == r[i + 1] && r'[i + 1] == r[i + 2];
        assert old(r[i + 1].next) == r[i + 2] && old(r[i + 2].prev) == r[i + 1];
      }
    }
  }

  /** L2_next */
  function Next(e: L2el): L2el?
    reads e, e.next
  {
    if Empty(e) then null else e.next.private
  }

  /** What L2_next finds behind the head or an element. */
  lemma NextIs(h: L2el, es: seq<L2el>, k: nat)
    requires List(h, es) && k <= |es|
    ensures Next(([h] + es)[k]) == if k < |es| then es[k].private else if es == [] then null else h.private
  {
    var r := [h] + es;
    Neighbours(h, es, k);
    if k < |es| { assert r[k] != r[k + 1]; } else if es != [] { assert r[0] != r[k]; }
  }

  /** The loop of ghd_timeout_loop, ghd_timeout_get and sol11ghd_timer_newstate: with a head whose private
      is NULL it visits every element once, in order, and stops. */
  method Scan(h: L2el, ghost es: seq<L2el>) returns (visited: seq<L2el>)
    requires List(h, es) && h.private == null && forall x :: x in es ==> x.private == x
    ensures visited == es
  {
    NextIs(h, es, 0);
    var p := Next(h);
    visited := [];
    while p != null
      invariant |visited| <= |es| && visited == es[..|visited|]
      invariant p == if |visited| < |es| then es[|visited|] else null
      decreases |es| - |visited|
    {
      ghost var k := |visited|;
      visited := visited + [p];
      assert ([h] + es)[k + 1] == p;
      NextIs(h, es, k + 1);
      p := Next(p);
    }
  }
}
