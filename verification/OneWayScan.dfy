/**
  The one-way-scan scheduler of the disk driver (dktp/drvobj/strategy.c, qsort_*).

  Requests above the head of the active list join it in block order; those below are deferred to a
  second list, which becomes the active one when that runs empty.  So the disk arm sweeps one way.
 */
module OneWayScan {
  import opened Options

  /** struct buf: id numbers the requests as they come, era is the sweep in which it came. */
  datatype Buf = Buf(id: nat, blk: int, era: nat)

  /** struct diskhd: b_actf, b_pasf and q_cnt. */
  datatype Disk = Disk(act: seq<Buf>, pas: seq<Buf>, cnt: int)

  /** The loop of oneway_scan_binary: behind all that are not above it. */
  function Insert(q: seq<Buf>, b: Buf): seq<Buf>
    decreases |q|
  {
    if q == [] || b.blk < q[0].blk then [b] + q else [q[0]] + Insert(q[1..], b)
  }

  /** oneway_scan_binary */
  function Scan(d: Disk, b: Buf): Disk {
    if d.act == [] then d.(act := [b])
    else if b.blk < d.act[0].blk then d.(pas := Insert(d.pas, b))
    else d.(act := Insert(d.act, b))
  }

  /** qsort_add */
  function Add(d: Disk, b: Buf): Disk { Scan(d.(cnt := d.cnt + 1), b) }

  /** qsort_del */
  function Del(d: Disk): (r: (Option<Buf>, Disk))
    requires d.cnt != 0 ==> d.act != []
  {
    if d.cnt == 0 then (None, d)
    else
      var d1 := d.(cnt := d.cnt - 1, act := d.act[1..]);
      (Some(d.act[0]), if d1.act == [] && d1.pas != [] then d1.(act := d1.pas, pas := []) else d1)
  }

  // ---------------------------------------------------------------- order

  /** In block order, and in order of arrival for one block. */
  predicate Below(a: Buf, b: Buf) { a.blk < b.blk || (a.blk == b.blk && a.id < b.id) }

  ghost predicate Sorted(q: seq<Buf>) { forall i, j :: 0 <= i < j < |q| ==> Below(q[i], q[j]) }

  lemma {:induction false} InsertHolds(q: seq<Buf>, b: Buf)
    ensures multiset(Insert(q, b)) == multiset(q) + multiset{b} && |Insert(q, b)| == |q| + 1
    decreases |q|
  {
    if q == [] || b.blk < q[0].blk {
    } else {
      InsertHolds(q[1..], b);
      assert q == [q[0]] + q[1..];
    }
  }

  lemma {:induction false} InsertMembers(q: seq<Buf>, b: Buf)
    ensures forall x :: x in Insert(q, b) <==> x in q || x == b
  {
    InsertHolds(q, b);
    forall x ensures x in Insert(q, b) <==> x in q || x == b {
      assert x in Insert(q, b) <==> multiset(Insert(q, b))[x] > 0;
      assert x in q <==> multiset(q)[x] > 0;
    }
  }

  lemma {:induction false} InsertSorted(q: seq<Buf>, b: Buf)
    requires Sorted(q) && forall x :: x in q ==> x.id < b.id
    ensures Sorted(Insert(q, b))
    decreases |q|
  {
    if q == [] || b.blk < q[0].blk {
    } else {
      var rest := Insert(q[1..], b);
      InsertSorted(q[1..], b);
      InsertMembers(q[1..], b);
      assert forall x :: x in q[1..] ==> Below(q[0], x);
      assert forall x :: x in rest ==> Below(q[0], x);
    }
  }

  lemma InsertIs(q: seq<Buf>, b: Buf)
    requires Sorted(q) && forall x :: x in q ==> x.id < b.id
    ensures Sorted(Insert(q, b)) && (forall x :: x in Insert(q, b) <==> x in q || x == b)
    ensures multiset(Insert(q, b)) == multiset(q) + multiset{b} && |Insert(q, b)| == |q| + 1
    ensures q != [] && q[0].blk <= b.blk ==> Insert(q, b)[0] == q[0]
  {
    InsertHolds(q, b);
    InsertMembers(q, b);
    InsertSorted(q, b);
  }

  // ---------------------------------------------------------------- runs

  /** A request with the sweep in which it was dispatched. */
  datatype Sent = Sent(sweep: nat, b: Buf)

  /** The scheduler with its history: every request that came, and those dispatched, in order. */
  datatype History = History(d: Disk, sweep: nat, arrived: seq<Buf>, sent: seq<Sent>)

  datatype Op = OpAdd(blk: int) | OpDel

  /** A sweep begins with the first request after the lists ran empty, or when the deferred list takes
      over. */
  function Do(h: History, op: Op): History
    requires h.d.cnt != 0 ==> h.d.act != []
  {
    match op
    case OpAdd(blk) =>
      var sweep := if h.d.act == [] then h.sweep + 1 else h.sweep;
      var b := Buf(|h.arrived|, blk, sweep);
      h.(d := Add(h.d, b), sweep := sweep, arrived := h.arrived + [b])
    case OpDel =>
      var r := Del(h.d);
      match r.0
      case None => h
      case Some(b) =>
        h.(d := r.1, sent := h.sent + [Sent(h.sweep, b)],
           sweep := if |h.d.act| == 1 && h.d.pas != [] then h.sweep + 1 else h.sweep)
  }

  /** Dispatched earlier: in an earlier sweep, or below it in the same one. */
  predicate Earlier(x: Sent, y: Sent) { x.sweep < y.sweep || (x.sweep == y.sweep && Below(x.b, y.b)) }

  ghost predicate InOrder(sent: seq<Sent>) { forall i, j :: 0 <= i < j < |sent| ==> Earlier(sent[i], sent[j]) }

  /** The lists are sorted, what is deferred lies below the active head, and the count counts. */
  ghost predicate Lists(d: Disk) {
    && Sorted(d.act) && Sorted(d.pas) && d.cnt == |d.act| + |d.pas|
    && (d.act == [] ==> d.pas == [])
    && (forall x :: x in d.pas ==> d.act != [] && x.blk < d.act[0].blk)
  }

  /** Nothing is lost or made up. */
  ghost predicate Conserved(h: History) {
    multiset(h.arrived) == multiset(Bufs(h.sent)) + multiset(h.d.act) + multiset(h.d.pas)
  }

  function Bufs(sent: seq<Sent>): seq<Buf> { seq(|sent|, i requires 0 <= i < |sent| => sent[i].b) }

  ghost predicate Numbered(h: History) {
    && (forall x :: x in h.d.act || x in h.d.pas ==> x.id < |h.arrived| && x.era <= h.sweep)
    && (forall x :: x in h.d.act ==> h.sweep <= x.era + 1)
    && (forall x :: x in h.d.pas ==> x.era == h.sweep)
  }

  /** The active list comes after all that was dispatched. */
  ghost predicate Ahead(h: History) {
    && InOrder(h.sent)
    && (forall s :: s in h.sent ==> s.sweep <= h.sweep && s.b.era <= s.sweep <= s.b.era + 1)
    && (forall s, x :: s in h.sent && s.sweep == h.sweep && x in h.d.act ==> Below(s.b, x))
    && (forall s :: s in h.sent ==> s.b.id < |h.arrived|)
  }

  ghost predicate Fair(h: History) { Lists(h.d) && Conserved(h) && Numbered(h) && Ahead(h) }

  lemma AddLists(h: History, blk: int)
    requires Lists(h.d) && Numbered(h)
    ensures Lists(Do(h, OpAdd(blk)).d)
  {
    var sweep := if h.d.act == [] then h.sweep + 1 else h.sweep;
    var b := Buf(|h.arrived|, blk, sweep);
    if h.d.act != [] {
      if blk < h.d.act[0].blk { InsertIs(h.d.pas, b); } else { InsertIs(h.d.act, b); }
    }
  }

  /** The request that comes next. */
  function Newest(h: History, blk: int): Buf {
    Buf(|h.arrived|, blk, if h.d.act == [] then h.sweep + 1 else h.sweep)
  }

  lemma AddIs(h: History, blk: int)
    requires Lists(h.d) && Numbered(h)
    ensures var b, d' := Newest(h, blk), Do(h, OpAdd(blk)).d;
      && multiset(d'.act) + multiset(d'.pas) == multiset(h.d.act) + multiset(h.d.pas) + multiset{b}
      && (forall x :: x in d'.act ==> x in h.d.act || (x == b && (h.d.act != [] ==> h.d.act[0].blk <= blk)))
      && (forall x :: x in d'.pas ==> x in h.d.pas || (x == b && h.d.act != []))
  {
    var b := Newest(h, blk);
    if h.d.act != [] {
      if blk < h.d.act[0].blk { InsertIs(h.d.pas, b); } else { InsertIs(h.d.act, b); }
    }
  }

  lemma AddConserved(h: History, blk: int)
    requires Lists(h.d) && Numbered(h) && Conserved(h)
    ensures Conserved(Do(h, OpAdd(blk)))
  {
    AddIs(h, blk);
    var h', b, sent := Do(h, OpAdd(blk)), Newest(h, blk), multiset(Bufs(h.sent));
    assert h'.arrived == h.arrived + [b] && h'.sent == h.sent;
    assert multiset(h'.arrived) == multiset(h.arrived) + multiset{b};
    assert sent + multiset(h'.d.act) + multiset(h'.d.pas) ==
           sent + (multiset(h.d.act) + multiset(h.d.pas) + multiset{b});
  }

  lemma AddNumbered(h: History, blk: int)
    requires Lists(h.d) && Numbered(h)
    ensures Numbered(Do(h, OpAdd(blk)))
  {
    AddIs(h, blk);
  }

  lemma AddAhead(h: History, blk: int)
    requires Lists(h.d) && Numbered(h) && Ahead(h)
    ensures Ahead(Do(h, OpAdd(blk)))
  {
    AddIs(h, blk);
    if h.d.act != [] {
      assert h.d.act[0] in h.d.act;
    }
  }

  lemma DelLists(h: History)
    requires Lists(h.d)
    ensures Lists(Do(h, OpDel).d)
  {
    if h.d.cnt != 0 {
      assert h.d.act == [h.d.act[0]] + h.d.act[1..];
    }
  }

  lemma DelConserved(h: History)
    requires Lists(h.d) && Conserved(h)
    ensures Conserved(Do(h, OpDel))
  {
    if h.d.cnt != 0 {
      var s := Sent(h.sweep, h.d.act[0]);
      assert h.d.act == [h.d.act[0]] + h.d.act[1..];
      assert Bufs(h.sent + [s]) == Bufs(h.sent) + [s.b];
    }
  }

  lemma DelNumbered(h: History)
    requires Lists(h.d) && Numbered(h)
    ensures Numbered(Do(h, OpDel))
  {
    if h.d.cnt != 0 {
      assert forall x :: x in h.d.act[1..] ==> x in h.d.act;
    }
  }

  lemma DelAhead(h: History)
    requires Lists(h.d) && Numbered(h) && Ahead(h)
    ensures Ahead(Do(h, OpDel))
  {
    if h.d.cnt != 0 {
      var b := h.d.act[0];
      assert b in h.d.act && forall x :: x in h.d.act[1..] ==> x in h.d.act && Below(b, x);
      assert forall s :: s in h.sent ==> Earlier(s, Sent(h.sweep, b));
    }
  }

  lemma DoKeeps(h: History, op: Op)
    requires Fair(h)
    ensures Fair(Do(h, op))
  {
    match op
    case OpAdd(blk) =>
      AddLists(h, blk);
      AddConserved(h, blk);
      AddNumbered(h, blk);
      AddAhead(h, blk);
    case OpDel =>
      DelLists(h);
      DelConserved(h);
      DelNumbered(h);
      DelAhead(h);
  }

  /** The scheduler after any operations from empty.  Both lists stay sorted, nothing is lost, and the
      requests dispatched are in order of sweep and block, first come first served for one block, each
      in the sweep in which it came or the next. */
  function After(ops: seq<Op>): (h: History)
    ensures Fair(h)
    decreases |ops|
  {
    if ops == [] then History(Disk([], [], 0), 0, [], [])
    else
      var h := After(ops[..|ops| - 1]);
      DoKeeps(h, ops[|ops| - 1]);
      Do(h, ops[|ops| - 1])
  }

  /** Any two dispatches, read out. */
  lemma Dispatches(ops: seq<Op>, i: nat, j: nat)
    ensures i < j < |After(ops).sent| ==>
      var x, y := After(ops).sent[i], After(ops).sent[j];
      && x.sweep <= y.sweep && (x.sweep == y.sweep ==> x.b.blk <= y.b.blk)
      && (x.sweep == y.sweep && x.b.blk == y.b.blk ==> x.b.id < y.b.id)
      && y.b.era <= y.sweep <= y.b.era + 1
  {
    var h := After(ops);
    assert i < j < |h.sent| ==> h.sent[j] in h.sent && Earlier(h.sent[i], h.sent[j]);
  }

  /** When the dispatcher finds nothing, everything that came has been dispatched. */
  lemma EmptyMeansAll(ops: seq<Op>)
    ensures Del(After(ops).d).0.None? ==> multiset(After(ops).arrived) == multiset(Bufs(After(ops).sent))
  {
    var h := After(ops);
    assert h.d.cnt == 0 ==> h.d.act == [] && h.d.pas == [];
  }

  // ---------------------------------------------------------------- the driver's own code

  lemma InsertBehind(q: seq<Buf>, b: Buf, i: nat)
    requires i < |q| && (forall j :: 0 <= j <= i ==> q[j].blk <= b.blk) && (i + 1 == |q| || b.blk < q[i + 1].blk)
    ensures Insert(q, b) == q[..i + 1] + [b] + q[i + 1..]
    decreases i
  {
    if i == 0 {
      assert Insert(q[1..], b) == [b] + q[1..];
    } else {
      assert forall j :: 0 <= j < |q[1..]| ==> q[1..][j] == q[j + 1];
      InsertBehind(q[1..], b, i - 1);
      assert q[..i + 1] == [q[0]] + q[1..][..i];
    }
  }

  /** struct que_data, with its lists as sequences. */
  class QueData {
    var actf: seq<Buf>
    var pasf: seq<Buf>
    var cnt: int

    constructor ()
      ensures View() == Disk([], [], 0)
    {
      actf, pasf, cnt := [], [], 0;
    }

    ghost function View(): Disk reads this { Disk(actf, pasf, cnt) }

    /** The loop at the end of oneway_scan_binary: b goes behind the last that is not above it; the first
        is not. */
    static method Place(q: seq<Buf>, b: Buf) returns (q': seq<Buf>)
      requires q != [] && q[0].blk <= b.blk && Sorted(q)
      ensures q' == Insert(q, b)
    {
      var ap := 0;
      while ap + 1 < |q|
        invariant ap < |q| && forall j :: 0 <= j <= ap ==> q[j].blk <= b.blk
      {
        if b.blk < q[ap + 1].blk {
          break;
        }
        ap := ap + 1;
      }
      InsertBehind(q, b, ap);
      q' := q[..ap + 1] + [b] + q[ap + 1..];
    }

    /** oneway_scan_binary */
    method OnewayScan(b: Buf)
      requires Sorted(actf) && Sorted(pasf)
      modifies `actf, `pasf
      ensures View() == Scan(old(View()), b)
    {
      if actf == [] {
        actf := [b];
        return;
      }
      if b.blk < actf[0].blk {
        if pasf == [] || b.blk < pasf[0].blk {
          pasf := [b] + pasf;
          return;
        }
        pasf := Place(pasf, b);
      } else {
        actf := Place(actf, b);
      }
    }

    /** qsort_add */
    method QsortAdd(b: Buf)
      requires Sorted(actf) && Sorted(pasf)
      modifies this
      ensures View() == Add(old(View()), b)
    {
      cnt := cnt + 1;
      OnewayScan(b);
    }

    /** qsort_del */
    method QsortDel() returns (b: Option<Buf>)
      requires Lists(View())
      modifies this
      ensures (b, View()) == Del(old(View()))
    {
      if cnt == 0 {
        return None;
      }
      cnt := cnt - 1;
      b := Some(actf[0]);
      actf := actf[1..];
      if actf == [] && pasf != [] {
        actf, pasf := pasf, [];
      }
    }
  }
}
