/**
  Walking the DMA windows of a request (dktp/hba/ghd/ghd_dma.c).

  A bound buffer is a row of windows, and a window a row of cookies, pieces of memory.  Each set-up of
  a transfer takes the next cookies of one window as its scatter/gather list.
 */
module DmaWindows {

  function Sum(q: seq<nat>): nat { if q == [] then 0 else q[0] + Sum(q[1..]) }

  lemma {:induction false} SumAppend(p: seq<nat>, q: seq<nat>)
    ensures Sum(p + q) == Sum(p) + Sum(q)
    decreases |p|
  {
    if p == [] {
      assert p + q == q;
    } else {
      assert (p + q)[1..] == p[1..] + q;
      SumAppend(p[1..], q);
    }
  }

  lemma SumOneMore(p: seq<nat>, x: nat)
    ensures Sum(p + [x]) == Sum(p) + x
  {
    SumAppend(p, [x]);
  }

  lemma SumEmpty()
    ensures Sum([]) == 0
  {
  }

  function Flat(ws: seq<seq<nat>>): seq<nat>
    decreases |ws|
  {
    if ws == [] then [] else ws[0] + Flat(ws[1..])
  }

  /** Which window comes next, and which of its cookies: cmd_windex and cmd_cindex. */
  datatype Pos = Pos(window: nat, cookie: nat)

  ghost predicate ValidPos(ws: seq<seq<nat>>, p: Pos) {
    && (forall i :: 0 <= i < |ws| ==> ws[i] != [])
    && (p.window < |ws| ==> p.cookie < |ws[p.window]|) && (p.window >= |ws| ==> p == Pos(|ws|, 0))
  }

  /** The cookies that no set-up has taken. */
  ghost function Rest(ws: seq<seq<nat>>, p: Pos): seq<nat>
    requires ValidPos(ws, p)
  {
    if p.window == |ws| then [] else ws[p.window][p.cookie..] + Flat(ws[p.window + 1..])
  }

  /** How many cookies of w a set-up takes from k on, when it has taken n of toxfer bytes so far: up to the
      end of the window, the bytes asked for, or the room in the list. */
  function Take(w: seq<nat>, k: nat, toxfer: nat, n: nat, max: int, room: int): (m: nat)
    requires k < |w|
    ensures 1 <= m <= |w| - k
    decreases |w| - k
  {
    if k + 1 == |w| || toxfer + w[k] >= max || n + 1 >= room then 1
    else 1 + Take(w, k + 1, toxfer + w[k], n + 1, max, room)
  }

  lemma TakeOneMore(w: seq<nat>, k: nat, toxfer: nat, n: nat, max: int, room: int)
    requires k < |w|
    ensures Take(w, k, toxfer, n, max, room) ==
      if k + 1 == |w| || toxfer + w[k] >= max || n + 1 >= room then 1
      else 1 + Take(w, k + 1, toxfer + w[k], n + 1, max, room)
  {
  }

  lemma SliceMore(w: seq<nat>, k: nat, i: nat)
    requires k <= i < |w|
    ensures w[k..i] + [w[i]] == w[k..i + 1]
  {
  }

  /** Neither the bytes nor the room end the list after j cookies. */
  ghost predicate GoesOn(w: seq<nat>, k: nat, j: nat, toxfer: nat, n: nat, max: int, room: int) {
    k + j < |w| && toxfer + Sum(w[k..k + j]) < max && n + j < room
  }

  lemma SumOne(w: seq<nat>, k: nat, j: nat)
    requires 1 <= j && k + j <= |w|
    ensures Sum(w[k..k + j]) == w[k] + Sum(w[k + 1..k + 1 + (j - 1)])
  {
    assert w[k..k + j][1..] == w[k + 1..k + j];
  }

  /** The list stops at the first of the three. */
  lemma {:induction false} TakeStops(w: seq<nat>, k: nat, toxfer: nat, n: nat, max: int, room: int)
    requires k < |w|
    ensures var m := Take(w, k, toxfer, n, max, room);
      !GoesOn(w, k, m, toxfer, n, max, room) && forall j :: 1 <= j < m ==> GoesOn(w, k, j, toxfer, n, max, room)
    decreases |w| - k
  {
    var m := Take(w, k, toxfer, n, max, room);
    SumOne(w, k, m);
    SumOne(w, k, 1);
    assert w[k + 1..k + 1] == [];
    if m > 1 {
      TakeStops(w, k + 1, toxfer + w[k], n + 1, max, room);
      assert !GoesOn(w, k + 1, m - 1, toxfer + w[k], n + 1, max, room);
      forall j: nat | 1 <= j < m ensures GoesOn(w, k, j, toxfer, n, max, room) {
        SumOne(w, k, j);
        assert j == 1 || GoesOn(w, k + 1, j - 1, toxfer + w[k], n + 1, max, room);
      }
    }
  }

  function Advance(ws: seq<seq<nat>>, p: Pos, m: nat): Pos
    requires p.window < |ws|
  {
    if p.cookie + m >= |ws[p.window]| then Pos(p.window + 1, 0) else Pos(p.window, p.cookie + m)
  }

  lemma RestOfNext(ws: seq<seq<nat>>, i: nat)
    requires i < |ws| && forall j :: 0 <= j < |ws| ==> ws[j] != []
    ensures ValidPos(ws, Pos(i + 1, 0)) && Rest(ws, Pos(i + 1, 0)) == Flat(ws[i + 1..])
  {
    var rest := ws[i + 1..];
    if i + 1 < |ws| {
      assert rest[0] == ws[i + 1] && rest[1..] == ws[i + 2..];
      assert ws[i + 1][0..] == ws[i + 1];
    } else {
      assert rest == [];
    }
  }

  lemma AdvanceRest(ws: seq<seq<nat>>, p: Pos, m: nat)
    requires ValidPos(ws, p) && p.window < |ws| && 1 <= m <= |ws[p.window]| - p.cookie
    ensures var p' := Advance(ws, p, m);
      ValidPos(ws, p') && Rest(ws, p) == ws[p.window][p.cookie..p.cookie + m] + Rest(ws, p')
  {
    hide Flat;
    var w, later := ws[p.window], Flat(ws[p.window + 1..]);
    var now := w[p.cookie..p.cookie + m];
    assert w[p.cookie..] == now + w[p.cookie + m..];
    Regroup(now, w[p.cookie + m..], later);
    if p.cookie + m == |w| {
      assert w[p.cookie + m..] == [];
      RestOfNext(ws, p.window);
    }
  }

  lemma Regroup(a: seq<nat>, b: seq<nat>, c: seq<nat>)
    ensures (a + b) + c == a + (b + c) && [] + c == c
  {
  }

  // ---------------------------------------------------------------- a whole buffer

  /** What a set-up asks for: at most max bytes, except for the last cookie, in a list with this room. */
  datatype Ask = Ask(max: int, room: int)

  /** The lists of successive set-ups from p on. */
  ghost function Walk(ws: seq<seq<nat>>, p: Pos, asks: seq<Ask>): seq<seq<nat>>
    requires ValidPos(ws, p)
    decreases |asks|
  {
    if asks == [] || p.window >= |ws| then []
    else
      var m := Take(ws[p.window], p.cookie, 0, 0, asks[0].max, asks[0].room);
      AdvanceRest(ws, p, m);
      [ws[p.window][p.cookie..p.cookie + m]] + Walk(ws, Advance(ws, p, m), asks[1..])
  }

  ghost function After(ws: seq<seq<nat>>, p: Pos, asks: seq<Ask>): Pos
    requires ValidPos(ws, p)
    decreases |asks|
  {
    if asks == [] || p.window >= |ws| then p
    else
      var m := Take(ws[p.window], p.cookie, 0, 0, asks[0].max, asks[0].room);
      AdvanceRest(ws, p, m);
      After(ws, Advance(ws, p, m), asks[1..])
  }

  lemma FlatCons(chunk: seq<nat>, walk: seq<seq<nat>>, rest: seq<nat>)
    ensures Flat([chunk] + walk) + rest == chunk + (Flat(walk) + rest)
  {
    assert ([chunk] + walk)[1..] == walk;
    assert (chunk + Flat(walk)) + rest == chunk + (Flat(walk) + rest);
  }

  /** Successive set-ups take every cookie once, in order, whatever they ask for. */
  lemma {:induction false} WalkTakesAll(ws: seq<seq<nat>>, p: Pos, asks: seq<Ask>)
    requires ValidPos(ws, p)
    ensures ValidPos(ws, After(ws, p, asks))
    ensures Rest(ws, p) == Flat(Walk(ws, p, asks)) + Rest(ws, After(ws, p, asks))
    ensures |Walk(ws, p, asks)| == |asks| || After(ws, p, asks) == Pos(|ws|, 0)
    decreases |asks|
  {
    if asks == [] || p.window >= |ws| {
    } else {
      var m := Take(ws[p.window], p.cookie, 0, 0, asks[0].max, asks[0].room);
      var chunk := ws[p.window][p.cookie..p.cookie + m];
      AdvanceRest(ws, p, m);
      var p' := Advance(ws, p, m);
      WalkTakesAll(ws, p', asks[1..]);
      FlatCons(chunk, Walk(ws, p', asks[1..]), Rest(ws, After(ws, p', asks[1..])));
    }
  }

  lemma {:induction false} RestLength(ws: seq<seq<nat>>, asks: seq<Ask>, p: Pos)
    requires ValidPos(ws, p) && |asks| >= |Rest(ws, p)|
    ensures After(ws, p, asks) == Pos(|ws|, 0)
    decreases |asks|
  {
    if p.window < |ws| {
      var ask := if asks == [] then Ask(0, 0) else asks[0];
      var m := Take(ws[p.window], p.cookie, 0, 0, ask.max, ask.room);
      AdvanceRest(ws, p, m);
      assert asks != [];
      RestLength(ws, asks[1..], Advance(ws, p, m));
    }
  }

  /** So a buffer is transferred completely after at most as many set-ups as it has cookies, and the bytes
      add up. */
  lemma WholeBuffer(ws: seq<seq<nat>>, asks: seq<Ask>)
    requires ValidPos(ws, Pos(0, 0)) && |asks| >= |Flat(ws)|
    ensures Flat(Walk(ws, Pos(0, 0), asks)) == Flat(ws)
    ensures Sum(Flat(Walk(ws, Pos(0, 0), asks))) == Sum(Flat(ws))
  {
    assert Rest(ws, Pos(0, 0)) == Flat(ws) by {
      if ws != [] { assert ws[0][0..] == ws[0]; }
    }
    WalkTakesAll(ws, Pos(0, 0), asks);
    RestLength(ws, asks, Pos(0, 0));
    assert Flat(Walk(ws, Pos(0, 0), asks)) + [] == Flat(Walk(ws, Pos(0, 0), asks));
  }

  lemma SumTail(w: seq<nat>, m: nat)
    requires m <= |w|
    ensures m < |w| ==> Sum(w[m..]) >= w[m]
  {
  }

  /** A set-up takes all that is left of a window exactly when neither the bytes asked for nor the room end the
      list before. */
  lemma TakesRest(w: seq<nat>, k: nat, max: int, room: int)
    requires k < |w|
    ensures Take(w, k, 0, 0, max, room) == |w| - k <==>
            forall j :: 1 <= j < |w| - k ==> GoesOn(w, k, j, 0, 0, max, room)
  {
    var m := Take(w, k, 0, 0, max, room);
    TakeStops(w, k, 0, 0, max, room);
    assert !GoesOn(w, k, m, 0, 0, max, room);
  }

  /** A set-up asked for no less than a window holds, with room for it, takes exactly the window. */
  lemma WindowAtOnce(ws: seq<seq<nat>>, i: nat, max: int, room: int)
    requires i < |ws| && ws[i] != [] && (forall k :: 0 <= k < |ws[i]| ==> ws[i][k] > 0)
    requires Sum(ws[i]) <= max && |ws[i]| <= room
    ensures Take(ws[i], 0, 0, 0, max, room) == |ws[i]|
  {
    var w, m := ws[i], Take(ws[i], 0, 0, 0, max, room);
    TakeStops(w, 0, 0, 0, max, room);
    assert w == w[0..m] + w[m..];
    SumAppend(w[0..m], w[m..]);
    SumTail(w, m);
    assert !GoesOn(w, 0, m, 0, 0, max, room);
  }

  lemma SumMono(w: seq<nat>, k: nat, i: nat, j: nat)
    requires i <= j && k + j <= |w|
    ensures Sum(w[k..k + i]) <= Sum(w[k..k + j])
  {
    assert w[k..k + j] == w[k..k + i] + w[k + i..k + j];
    SumAppend(w[k..k + i], w[k + i..k + j]);
  }

  /** The most cookies a set-up from k on can take. */
  function Reach(w: seq<nat>, k: nat, room: int): (l: nat)
    requires k < |w|
    ensures 1 <= l <= |w| - k
  {
    if room < 1 then 1 else if room < |w| - k then room else |w| - k
  }

  /** The first j cookies from k on hold exactly max bytes. */
  ghost predicate Meets(w: seq<nat>, k: nat, j: nat, max: int) { k + j <= |w| && Sum(w[k..k + j]) == max }

  /** They hold fewer. */
  ghost predicate Under(w: seq<nat>, k: nat, j: nat, max: int) { k + j <= |w| && Sum(w[k..k + j]) < max }

  lemma TakeReach(w: seq<nat>, k: nat, max: int, room: int)
    requires k < |w|
    ensures var m, l := Take(w, k, 0, 0, max, room), Reach(w, k, room);
      m <= l && (m < l ==> !Under(w, k, m, max)) && forall j: nat :: 1 <= j < m ==> Under(w, k, j, max)
  {
    var m := Take(w, k, 0, 0, max, room);
    TakeStops(w, k, 0, 0, max, room);
    assert !GoesOn(w, k, m, 0, 0, max, room);
    assert m > 1 ==> GoesOn(w, k, m - 1, 0, 0, max, room);
    forall j: nat | 1 <= j < m ensures Under(w, k, j, max) {
      assert GoesOn(w, k, j, 0, 0, max, room);
    }
  }

  /** Cookies are not cut: a set-up stays within the bytes it was asked for exactly when all the cookies it
      could take do, or some number of them make up exactly that many bytes. */
  lemma WithinAsked(w: seq<nat>, k: nat, max: int, room: int)
    requires k < |w|
    ensures var m, l := Take(w, k, 0, 0, max, room), Reach(w, k, room);
      Sum(w[k..k + m]) <= max <==> Sum(w[k..k + l]) <= max || exists j: nat :: 1 <= j <= l && Meets(w, k, j, max)
  {
    var m, l := Take(w, k, 0, 0, max, room), Reach(w, k, room);
    TakeReach(w, k, max, room);
    SumMono(w, k, m, l);
    if Sum(w[k..k + m]) <= max && m < l {
      assert Meets(w, k, m, max);
    }
    forall j: nat | 1 <= j <= l && Meets(w, k, j, max) ensures Sum(w[k..k + m]) <= max {
      if j >= m { SumMono(w, k, m, j); } else { assert Under(w, k, j, max); }
    }
  }

  /** A set-up can take more bytes than were asked for. */
  lemma OverAsked()
    ensures Take([512, 4096], 0, 0, 0, 1024, 16) == 2 && Sum([512, 4096]) > 1024
  {
    assert Take([512, 4096], 1, 512, 1, 1024, 16) == 1;
    assert [512, 4096][1..] == [4096];
  }

  // ---------------------------------------------------------------- the driver's own code

  /** gcmd_t, as far as DMA goes.  The last three fields are the DDI's: the windows of the bound buffer, and
      the cookie of the window that ddi_dma_nextcookie gives next. */
  class Gcmd {
    var windex: nat
    var cindex: nat
    var ccount: nat
    var totxfer: nat
    var useFirst: bool
    const wcount: nat
    const ws: seq<seq<nat>>
    var win: nat
    var next: nat

    /** ghd_dma_buf_bind_attr, when the buffer could be bound. */
    constructor (ws: seq<seq<nat>>)
      requires ws != [] && forall i :: 0 <= i < |ws| ==> ws[i] != []
      ensures Valid() && this.ws == ws && Where() == Pos(0, 0) && totxfer == 0
    {
      windex, cindex, totxfer, useFirst := 0, 0, 0, true;
      ccount := |ws[0]|;
      wcount := |ws|;
      this.ws := ws;
      win, next := 0, 1;
    }

    ghost function Where(): Pos reads this { Pos(windex, cindex) }

    /** The DDI hands out next what the driver thinks comes next. */
    ghost predicate Valid() reads this {
      && ValidPos(ws, Where()) && wcount == |ws|
      && (useFirst ==> windex == 0 < |ws| && cindex == 0)
      && (useFirst || cindex > 0 ==>
            windex < |ws| && ccount == |ws[windex]| && win == windex && next == (if useFirst then 1 else cindex))
    }

    /** ddi_dma_nextcookie */
    method NextCookie() returns (cookie: nat)
      requires win < |ws| && next < |ws[win]|
      modifies `next
      ensures cookie == ws[win][old(next)] && next == old(next) + 1
    {
      cookie := ws[win][next];
      next := next + 1;
    }

    /** ghd_dmaget_next_attr: sgl is what the controller's S/G function is called with. */
    method NextAttr(max: int, room: int, first: nat) returns (toxfer: nat, sgl: seq<nat>)
      requires ValidPos(ws, Where()) && windex < |ws| && ccount == |ws[windex]| && first == ws[windex][cindex]
      requires win == windex && next == cindex + 1 && wcount == |ws| && !useFirst
      modifies `windex, `cindex, `totxfer, `next
      ensures var p := old(Where());
        var m := Take(ws[p.window], p.cookie, 0, 0, max, room);
        && sgl == ws[p.window][p.cookie..p.cookie + m] && toxfer == Sum(sgl)
        && Where() == Advance(ws, p, m) && totxfer == old(totxfer) + toxfer && Valid()
    {
      ghost var w, k := ws[windex], cindex;
      ghost var m := Take(w, k, 0, 0, max, room);
      AdvanceRest(ws, Where(), m);
      hide Flat, Sum, Take, ValidPos;
      SumEmpty();
      var cookie, n := first, 0;
      toxfer, sgl := 0, [];
      while true
        invariant windex == old(windex) && k <= cindex == k + n < |w| && cookie == w[cindex] && next == cindex + 1
        invariant sgl == w[k..cindex] && toxfer == Sum(sgl)
        invariant m == n + Take(w, cindex, toxfer, n, max, room)
        invariant totxfer == old(totxfer)
        decreases |w| - cindex
      {
        TakeOneMore(w, cindex, toxfer, n, max, room);
        SumOneMore(sgl, cookie);
        SliceMore(w, k, cindex);
        sgl := sgl + [cookie];
        toxfer := toxfer + cookie;
        n := n + 1;
        cindex := cindex + 1;
        if cindex >= ccount {
          windex := windex + 1;
          cindex := 0;
          break;
        }
        if toxfer >= max {
          break;
        }
        if n >= room {
          break;
        }
        cookie := NextCookie();
      }
      totxfer := totxfer + toxfer;
    }

    /** ghd_dmaget_attr: false only when every window is used up; getwin says whether ddi_dma_getwin
        works. */
    method DmagetAttr(max: int, room: int, getwin: bool) returns (ok: bool, xfer: nat, sgl: seq<nat>)
      requires Valid()
      modifies this
      ensures Valid()
      ensures ok <==> old(windex) < |ws| && (getwin || old(useFirst) || old(cindex) > 0)
      ensures !ok ==> xfer == 0 && Where() == old(Where()) && totxfer == old(totxfer)
      ensures ok ==>
        var p := old(Where());
        var m := Take(ws[p.window], p.cookie, 0, 0, max, room);
        && sgl == ws[p.window][p.cookie..p.cookie + m] && xfer == Sum(sgl)
        && Where() == Advance(ws, p, m) && totxfer == old(totxfer) + xfer
    {
      var cookie;
      if useFirst {
        cookie := ws[0][0];
        useFirst := false;
      } else if windex >= wcount {
        return false, 0, [];
      } else if cindex == 0 {
        if !getwin {
          return false, 0, [];
        }
        win, next := windex, 1;
        cookie, ccount := ws[windex][0], |ws[windex]|;
      } else {
        cookie := NextCookie();
      }
      xfer, sgl := NextAttr(max, room, cookie);
      ok := true;
    }
  }
}
