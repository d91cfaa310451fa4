/**
  Bad-sector remapping of the disk driver (dktp/disk/cmdk.c).

  The alternates table maps extents of bad sectors to runs of good ones.  The driver never
  looks a sector up one at a time: it keeps an index of the table per slice, finds the first
  extent at or after the request with a power-of-two binary search, and cuts the request into
  cookies, runs of consecutive device sectors.  The simple meaning of all that is `Remap`,
  which looks up one sector in the whole table; everything here is proved against it.
 */
module BadBlocks {
  import opened Options

  const V_NUMPAR: nat := 16
  const NDKMAP: nat := 16
  const NBPSCTR: nat := 512

  /** struct alts_ent: sectors badStart..badEnd are replaced by the run starting at goodStart. */
  datatype AltEnt = AltEnt(badStart: int, badEnd: int, goodStart: int) {
    predicate Covers(s: int) { badStart <= s <= badEnd }

    function Good(s: int): int { goodStart + s - badStart }

    predicate Meets(slice: Slice) { slice.start <= badEnd && badStart < slice.start + slice.len }
  }

  datatype Slice = Slice(start: nat, len: nat)

  /** struct bbh_cookie: a run of device sectors. */
  datatype Cookie = Cookie(sector: int, seclen: int)

  /** A table as the format program writes it: extents in order, none overlapping. */
  ghost predicate WellFormed(t: seq<AltEnt>) {
    && (forall i :: 0 <= i < |t| ==> 0 <= t[i].badStart <= t[i].badEnd)
    && (forall i, j :: 0 <= i < j < |t| ==> t[i].badEnd < t[j].badStart)
  }

  // ---------------------------------------------------------------- meaning of a table

  /** The device sector that stands in for sector s. */
  function Remap(t: seq<AltEnt>, s: int): int {
    if t == [] then s else if t[0].Covers(s) then t[0].Good(s) else Remap(t[1..], s)
  }

  function RemapAll(t: seq<AltEnt>, lo: int, n: nat): seq<int> { seq(n, i => Remap(t, lo + i)) }

  function ExpandOne(c: Cookie): seq<int> {
    if c.seclen < 0 then [] else seq(c.seclen, k => c.sector + k)
  }

  /** The device sectors a list of cookies stands for, in order. */
  function Expand(cks: seq<Cookie>): seq<int> {
    if cks == [] then [] else Expand(cks[..|cks| - 1]) + ExpandOne(cks[|cks| - 1])
  }

  lemma {:induction false} RemapHit(t: seq<AltEnt>, k: nat, s: int)
    requires WellFormed(t) && k < |t| && t[k].Covers(s)
    ensures Remap(t, s) == t[k].Good(s)
  {
    if k > 0 {
      assert !t[0].Covers(s);
      RemapHit(t[1..], k - 1, s);
    }
  }

  lemma {:induction false} RemapMiss(t: seq<AltEnt>, s: int)
    requires forall j :: 0 <= j < |t| ==> !t[j].Covers(s)
    ensures Remap(t, s) == s
  {
    if t != [] {
      RemapMiss(t[1..], s);
    }
  }

  lemma RemapRunGood(t: seq<AltEnt>, k: nat, lo: int, n: nat)
    requires WellFormed(t) && k < |t| && t[k].badStart <= lo && lo + n <= t[k].badEnd + 1
    ensures RemapAll(t, lo, n) == ExpandOne(Cookie(t[k].Good(lo), n))
  {
    forall i | 0 <= i < n ensures RemapAll(t, lo, n)[i] == t[k].Good(lo) + i { RemapHit(t, k, lo + i); }
  }

  lemma RemapRunIdentity(t: seq<AltEnt>, lo: int, n: nat)
    requires forall j :: 0 <= j < |t| ==> t[j].badEnd < lo || lo + n <= t[j].badStart
    ensures RemapAll(t, lo, n) == ExpandOne(Cookie(lo, n))
  {
    forall i | 0 <= i < n ensures RemapAll(t, lo, n)[i] == lo + i { RemapMiss(t, lo + i); }
  }

  lemma RemapAllSplit(t: seq<AltEnt>, lo: int, m: nat, n: nat)
    ensures RemapAll(t, lo, m + n) == RemapAll(t, lo, m) + RemapAll(t, lo + m, n)
  {
    var whole, tail := RemapAll(t, lo, m + n), RemapAll(t, lo + m, n);
    forall i | 0 <= i < n ensures whole[m + i] == tail[i] {
      assert lo + (m + i) == (lo + m) + i;
    }
  }

  /** A window that keeps every extent covering s maps s as the whole table does. */
  lemma WindowRemap(t: seq<AltEnt>, a: nat, b: nat, s: int)
    requires WellFormed(t) && a <= b <= |t|
    requires forall j :: 0 <= j < |t| && t[j].Covers(s) ==> a <= j < b
    ensures Remap(t[a..b], s) == Remap(t, s)
  {
    var w := t[a..b];
    if k :| 0 <= k < |t| && t[k].Covers(s) {
      RemapHit(t, k, s);
      RemapHit(w, k - a, s);
    } else {
      RemapMiss(t, s);
      RemapMiss(w, s);
    }
  }

  // ---------------------------------------------------------------- binary search

  ghost predicate Pow2(n: nat)
    decreases n
  {
    n == 1 || (n > 1 && n % 2 == 0 && Pow2(n / 2))
  }

  /** r is the least index whose extent ends at or after key, or -1 when there is none. */
  ghost predicate FirstAtOrAfter(t: seq<AltEnt>, key: int, r: int) {
    && -1 <= r < |t|
    && (r == -1 ==> forall j :: 0 <= j < |t| ==> t[j].badEnd < key)
    && (r >= 0 ==> key <= t[r].badEnd && forall j :: 0 <= j < r ==> t[j].badEnd < key)
  }

  /** cmdk_bbh_bsearch: probes at power-of-two strides; a forward jump past the end is skipped. */
  method Bsearch(t: seq<AltEnt>, key: int) returns (r: int)
    requires WellFormed(t)
    ensures FirstAtOrAfter(t, key, r)
  {
    var cnt := |t|;
    r := -1;
    if cnt == 0 {
      return;
    }
    var ind := 1;
    var i := 1;
    while i <= cnt
      invariant 1 <= ind <= cnt && Pow2(ind) && Pow2(i)
      invariant i == 1 || i == 2 * ind
      decreases cnt - i
    {
      ind := i;
      i := i * 2;
    }
    var interval := ind;
    while interval != 0
      invariant 1 <= interval <= ind <= cnt && Pow2(interval)
      // the answer lies in (ind - interval, ind + interval], counting from one
      invariant forall j :: 0 <= j < |t| && j < ind - interval ==> t[j].badEnd < key
      invariant ind + interval <= cnt ==> key < t[ind + interval - 1].badStart && r == ind + interval - 1
      invariant r == -1 || (0 <= r < cnt && key < t[r].badStart)
      decreases interval
    {
      if key >= t[ind - 1].badStart && key <= t[ind - 1].badEnd {
        return ind - 1;
      }
      interval := interval / 2;
      if key < t[ind - 1].badStart {
        r := ind - 1;
        if interval == 0 {
          break;
        }
        ind := ind - interval;
      } else {
        if ind == cnt || interval == 0 {
          break;
        }
        if ind + interval <= cnt {
          ind := ind + interval;
        }
      }
    }
  }

  // ---------------------------------------------------------------- cutting a request into cookies

  /** struct bbh_handle: the cookies of one request and the next one to hand out. */
  class Handle {
    const cktab: array<Cookie>
    var idx: nat
    ghost const filled: nat

    ghost predicate Valid()
      reads this
    {
      idx <= filled <= cktab.Length
    }

    constructor (cktab: array<Cookie>, ghost filled: nat)
      requires filled <= cktab.Length
      ensures Valid() && this.cktab == cktab && idx == 0 && this.filled == filled
    {
      this.cktab := cktab;
      this.filled := filled;
      idx := 0;
    }

    /** cmdk_bbh_htoc: hand out the next cookie. */
    method Htoc() returns (c: Cookie)
      requires Valid() && idx < filled
      modifies this
      ensures Valid() && idx == old(idx) + 1 && c == cktab[old(idx)]
    {
      c := cktab[idx];
      idx := idx + 1;
    }
  }

  /** Cookies that stand for the remapped sectors lo .. lo+n-1, none of them empty. */
  ghost predicate Cuts(t: seq<AltEnt>, lo: int, n: nat, cks: seq<Cookie>) {
    && Expand(cks) == RemapAll(t, lo, n)
    && (forall i :: 0 <= i < |cks| ==> cks[i].seclen > 0)
  }

  /** The same for a whole request, which may be empty and is then one empty cookie. */
  ghost predicate CutsRequest(t: seq<AltEnt>, lo: int, n: nat, cks: seq<Cookie>) {
    Expand(cks) == RemapAll(t, lo, n) && (n > 0 ==> Cuts(t, lo, n, cks))
  }

  /** One more cookie extends the sectors covered by one more run. */
  lemma CutsAppend(t: seq<AltEnt>, lo: int, m: nat, cks: seq<Cookie>, c: Cookie)
    requires Expand(cks) == RemapAll(t, lo, m) && c.seclen >= 0
    requires ExpandOne(c) == RemapAll(t, lo + m, c.seclen)
    ensures Expand(cks + [c]) == RemapAll(t, lo, m + c.seclen)
  {
    assert (cks + [c])[..|cks|] == cks;
    RemapAllSplit(t, lo, m, c.seclen);
  }

  /** cookies 0..idx-1 stand for sectors lo..c-1; cookie idx is the rest, not yet looked up. */
  ghost predicate Pending(t: seq<AltEnt>, lo: int, n: nat, cks: seq<Cookie>, idx: nat, c: int) {
    && idx < |cks|
    && lo <= c <= lo + n && (n > 0 ==> c < lo + n)
    && cks[idx] == Cookie(c, lo + n - c)
    && Cuts(t, lo, c - lo, cks[..idx])
  }

  /** One good run more than the sectors before c. */
  lemma CutsGood(t: seq<AltEnt>, lo: int, c: int, n: nat, cks: seq<Cookie>)
    requires lo <= c && Cuts(t, lo, c - lo, cks)
    requires forall j :: 0 <= j < |t| ==> t[j].badEnd < c || c + n <= t[j].badStart
    ensures Expand(cks + [Cookie(c, n)]) == RemapAll(t, lo, c + n - lo)
    ensures n > 0 ==> Cuts(t, lo, c + n - lo, cks + [Cookie(c, n)])
  {
    RemapRunIdentity(t, c, n);
    CutsAppend(t, lo, c - lo, cks, Cookie(c, n));
  }

  /** One remapped run more than the sectors before c. */
  lemma CutsBad(t: seq<AltEnt>, k: nat, lo: int, c: int, n: nat, cks: seq<Cookie>)
    requires WellFormed(t) && k < |t| && lo <= c && Cuts(t, lo, c - lo, cks)
    requires t[k].badStart <= c && c + n <= t[k].badEnd + 1
    ensures Expand(cks + [Cookie(t[k].Good(c), n)]) == RemapAll(t, lo, c + n - lo)
    ensures n > 0 ==> Cuts(t, lo, c + n - lo, cks + [Cookie(t[k].Good(c), n)])
  {
    RemapRunGood(t, k, c, n);
    CutsAppend(t, lo, c - lo, cks, Cookie(t[k].Good(c), n));
  }

  /** A good run, then a remapped one. */
  lemma CutsGoodBad(t: seq<AltEnt>, k: nat, lo: int, c: int, e: int, cks: seq<Cookie>)
    requires WellFormed(t) && k < |t| && lo <= c && Cuts(t, lo, c - lo, cks)
    requires c < t[k].badStart <= e <= t[k].badEnd
    requires forall j :: 0 <= j < k ==> t[j].badEnd < c
    ensures Cuts(t, lo, e + 1 - lo,
                 cks + [Cookie(c, t[k].badStart - c), Cookie(t[k].goodStart, e - t[k].badStart + 1)])
  {
    var bs := t[k].badStart;
    CutsGood(t, lo, c, bs - c, cks);
    CutsBad(t, k, lo, bs, e - bs + 1, cks + [Cookie(c, bs - c)]);
    assert cks + [Cookie(c, bs - c)] + [Cookie(t[k].Good(bs), e - bs + 1)]
        == cks + [Cookie(c, bs - c), Cookie(t[k].goodStart, e - bs + 1)];
  }

  /** Nothing more to look up: the rest is good. */
  lemma CutRest(t: seq<AltEnt>, sec: int, count: nat, cks: seq<Cookie>, idx: nat, c: int)
    requires Pending(t, sec, count, cks, idx, c)
    requires forall j :: 0 <= j < |t| ==> t[j].badEnd < c || sec + count <= t[j].badStart
    ensures CutsRequest(t, sec, count, cks[..idx + 1])
  {
    CutsGood(t, sec, c, sec + count - c, cks[..idx]);
    assert cks[..idx + 1] == cks[..idx] + [cks[idx]];
  }

  /** Cases 2 and 7: all of the rest is bad. */
  method CutAll(ck: array<Cookie>, idx: nat, t: seq<AltEnt>, k: nat, ghost sec: int, ghost count: nat, ghost c: int)
    requires WellFormed(t) && k < |t| && idx < ck.Length
    requires Pending(t, sec, count, ck[..], idx, c) && t[k].badStart <= c && sec + count - 1 <= t[k].badEnd
    modifies ck
    ensures CutsRequest(t, sec, count, ck[..idx + 1])
  {
    ghost var done := ck[..idx];
    assert done == ck[..][..idx];
    CutsBad(t, k, sec, c, sec + count - c, done);
    ck[idx] := ck[idx].(sector := t[k].goodStart + ck[idx].sector - t[k].badStart);
    assert ck[..idx + 1] == done + [ck[idx]];
  }

  /** Case 5: the tail of the rest is bad. */
  method CutTail(ck: array<Cookie>, idx: nat, t: seq<AltEnt>, k: nat, ghost sec: int, ghost count: nat, lastsec: int,
      ghost c: int)
    requires WellFormed(t) && k < |t| && lastsec == sec + count - 1 && idx + 1 < ck.Length
    requires Pending(t, sec, count, ck[..], idx, c) && c < t[k].badStart <= lastsec <= t[k].badEnd
    requires forall j :: 0 <= j < k ==> t[j].badEnd < c
    modifies ck
    ensures Cuts(t, sec, count, ck[..idx + 2])
  {
    ghost var done := ck[..idx];
    assert done == ck[..][..idx];
    ck[idx + 1] := ck[idx + 1].(seclen := lastsec - t[k].badStart + 1);
    ck[idx] := ck[idx].(seclen := ck[idx].seclen - ck[idx + 1].seclen);
    ck[idx + 1] := ck[idx + 1].(sector := t[k].goodStart);
    CutsGoodBad(t, k, sec, c, lastsec, done);
    assert ck[..idx + 2] == done + [ck[idx], ck[idx + 1]];
  }

  lemma TakeNext(q: seq<Cookie>, idx: nat, done: seq<Cookie>)
    requires idx < |q| && done == q[..idx]
    ensures q[..idx + 1] == done + [q[idx]]
  {
  }

  /** Case 6: the head of the rest is bad. */
  method CutHead(ck: array<Cookie>, idx: nat, t: seq<AltEnt>, k: nat, ghost sec: int, ghost count: nat, ghost c: int)
    requires WellFormed(t) && k < |t| && idx + 1 < ck.Length
    requires Pending(t, sec, count, ck[..], idx, c) && t[k].badStart <= c <= t[k].badEnd < sec + count - 1
    modifies ck
    ensures Pending(t, sec, count, ck[..], idx + 1, t[k].badEnd + 1)
  {
    hide Expand, RemapAll;
    ghost var done := ck[..idx];
    assert done == ck[..][..idx];
    ck[idx + 1] := ck[idx + 1].(seclen := ck[idx].seclen);
    ck[idx] := ck[idx].(seclen := t[k].badEnd - ck[idx].sector + 1);
    ck[idx + 1] := ck[idx + 1].(seclen := ck[idx + 1].seclen - ck[idx].seclen);
    ck[idx] := ck[idx].(sector := t[k].goodStart + ck[idx].sector - t[k].badStart);
    ck[idx + 1] := ck[idx + 1].(sector := t[k].badEnd + 1);
    CutsBad(t, k, sec, c, t[k].badEnd + 1 - c, done);
    TakeNext(ck[..], idx, done);
  }

  /** Case 4: a bad run in the middle of the rest. */
  method CutMiddle(ck: array<Cookie>, idx: nat, t: seq<AltEnt>, k: nat, ghost sec: int, ghost count: nat, lastsec: int,
      ghost c: int)
    requires WellFormed(t) && k < |t| && lastsec == sec + count - 1 && idx + 2 < ck.Length
    requires Pending(t, sec, count, ck[..], idx, c) && c < t[k].badStart && t[k].badEnd < lastsec
    requires forall j :: 0 <= j < k ==> t[j].badEnd < c
    modifies ck
    ensures Pending(t, sec, count, ck[..], idx + 2, t[k].badEnd + 1)
  {
    ghost var done := ck[..idx];
    assert done == ck[..][..idx];
    ck[idx] := ck[idx].(seclen := t[k].badStart - ck[idx].sector);
    ck[idx + 1] := Cookie(t[k].goodStart, t[k].badEnd - t[k].badStart + 1);
    ck[idx + 2] := Cookie(t[k].badEnd + 1, lastsec - t[k].badEnd);
    CutsGoodBad(t, k, sec, c, t[k].badEnd, done);
    assert ck[..][..idx + 2] == done + [ck[idx], ck[idx + 1]];
  }

  /** The cutting loop of cmdk_bbh_gethandle, from the first overlapping extent on: at most two
      cookies are added per extent, so the 2 * cnt + 1 that were allocated are enough. */
  method CutCookies(t: seq<AltEnt>, first: nat, cnt: nat, sec: int, count: nat)
    returns (ck: array<Cookie>, ghost filled: nat)
    requires WellFormed(t) && first + cnt <= |t| && cnt > 0
    requires forall j :: 0 <= j < first ==> t[j].badEnd < sec
    requires forall j :: first <= j < first + cnt ==> t[j].badStart <= sec + count - 1
    requires first + cnt < |t| ==> sec + count - 1 < t[first + cnt].badStart
    ensures fresh(ck) && ck.Length == 2 * cnt + 1 && 1 <= filled <= ck.Length
    ensures CutsRequest(t, sec, count, ck[..filled])
  {
    ck := new Cookie[2 * cnt + 1](_ => Cookie(0, 0));
    ck[0] := Cookie(sec, count);
    var lastsec := sec + count - 1;
    var i, idx := first, 0;
    ghost var c := sec;
    while i < |t|
      invariant first <= i <= first + cnt && 0 <= idx <= 2 * (i - first)
      invariant Pending(t, sec, count, ck[..], idx, c)
      invariant forall j :: 0 <= j < i ==> t[j].badEnd < c
    {
      if lastsec < t[i].badStart {
        break;
      }
      if ck[idx].sector > t[i].badEnd {
        i := i + 1;
        continue;
      }
      if ck[idx].sector >= t[i].badStart && lastsec <= t[i].badEnd {
        CutAll(ck, idx, t, i, sec, count, c);
        filled := idx + 1;
        return;
      }
      if lastsec >= t[i].badStart && lastsec <= t[i].badEnd {
        CutTail(ck, idx, t, i, sec, count, lastsec, c);
        filled := idx + 2;
        return;
      }
      if ck[idx].sector <= t[i].badEnd && ck[idx].sector >= t[i].badStart {
        CutHead(ck, idx, t, i, sec, count, c);
        idx := idx + 1;
      } else {
        CutMiddle(ck, idx, t, i, sec, count, lastsec, c);
        idx := idx + 2;
      }
      c := t[i].badEnd + 1;
      i := i + 1;
    }
    filled := idx + 1;
    CutRest(t, sec, count, ck[..], idx, c);
    assert ck[..filled] == ck[..][..filled];
  }

  // ---------------------------------------------------------------- the driver's own state

  /** The window ent .. ent+cnt-1 of the table holds every extent that meets the slice. */
  ghost predicate WindowOk(t: seq<AltEnt>, slice: Slice, ent: nat, cnt: nat) {
    if slice.len == 0 then cnt == 0
    else ent + cnt <= |t| && forall j :: 0 <= j < |t| && t[j].Meets(slice) ==> ent <= j < ent + cnt
  }

  /** So a request inside the slice is remapped through the window as through the whole table. */
  lemma WindowRemapAll(t: seq<AltEnt>, slice: Slice, ent: nat, cnt: nat, lo: int, n: nat)
    requires WellFormed(t) && slice.len > 0 && WindowOk(t, slice, ent, cnt)
    requires slice.start <= lo && lo + n <= slice.start + slice.len
    ensures RemapAll(t[ent..ent + cnt], lo, n) == RemapAll(t, lo, n)
  {
    forall i | 0 <= i < n ensures RemapAll(t[ent..ent + cnt], lo, n)[i] == RemapAll(t, lo, n)[i] {
      WindowRemap(t, ent, ent + cnt, lo + i);
    }
  }

  /** struct cmdk, as far as remapping is concerned.  `loaded` is dk_alts_hdl != NULL; the slices are
      what the partition table said when the index was built. */
  class Cmdk {
    var loaded: bool
    var table: seq<AltEnt>
    const slcCnt: array<nat>
    const slcEnt: array<nat>
    ghost var slices: seq<Slice>

    ghost predicate Valid()
      reads this, slcCnt, slcEnt
    {
      && slcCnt != slcEnt && slcCnt.Length == NDKMAP && slcEnt.Length == NDKMAP
      && (loaded ==>
            && WellFormed(table) && |slices| == NDKMAP
            && forall i :: 0 <= i < NDKMAP ==> WindowOk(table, slices[i], slcEnt[i], slcCnt[i]))
    }

    /** The table that requests to a partition are remapped through: none until one is loaded, and never one
        for a partition beyond the sixteen of the label. */
    ghost function Effective(part: nat): seq<AltEnt>
      reads this
    {
      if loaded && part < V_NUMPAR then table else []
    }

    constructor ()
      ensures Valid() && !loaded
    {
      slcCnt, slcEnt := new nat[NDKMAP], new nat[NDKMAP];
      loaded, table, slices := false, [], [];
    }

    /** The last part of cmdk_bbh_reopen: adopt a table that was read from the disk and index it by
        slice.  The start test adds the two ends of an extent, so it only errs towards extents
        that lie before the slice. */
    method Reopen(entries: seq<AltEnt>, partinfo: seq<Option<Slice>>)
      requires Valid() && WellFormed(entries) && |partinfo| == NDKMAP
      modifies this, slcCnt, slcEnt
      ensures Valid()
      ensures loaded <==> forall i :: 0 <= i < NDKMAP ==> partinfo[i].Some?
      ensures loaded ==> table == entries && forall i :: 0 <= i < NDKMAP ==> slices[i] == partinfo[i].value
    {
      loaded, table := false, entries;
      slices := seq(NDKMAP, i requires 0 <= i < |partinfo| =>
        if partinfo[i].Some? then partinfo[i].value else Slice(0, 0));
      var i := 0;
      while i < NDKMAP
        invariant 0 <= i <= NDKMAP && !loaded && table == entries
        invariant |slices| == NDKMAP
        invariant forall m :: 0 <= m < NDKMAP && partinfo[m].Some? ==> slices[m] == partinfo[m].value
        invariant forall m :: 0 <= m < i ==> partinfo[m].Some? && WindowOk(table, slices[m], slcEnt[m], slcCnt[m])
        modifies slcCnt, slcEnt
      {
        if partinfo[i].None? {
          return;
        }
        var slice := partinfo[i].value;
        slcCnt[i] := 0;
        if slice.len == 0 {
          i := i + 1;
          continue;
        }
        var ent, cnt := IndexSlice(entries, slice);
        slcEnt[i], slcCnt[i] := ent, cnt;
        i := i + 1;
      }
      loaded := true;
    }

    /** The two scans that find one slice's window. */
    static method IndexSlice(t: seq<AltEnt>, slice: Slice) returns (ent: nat, cnt: nat)
      requires WellFormed(t) && slice.len > 0
      ensures WindowOk(t, slice, ent, cnt)
    {
      var slce := slice.start + slice.len - 1;
      ent := 0;
      while ent < |t|
        invariant ent <= |t|
        invariant forall m :: 0 <= m < ent ==> t[m].badEnd < slice.start
      {
        if t[ent].badStart + t[ent].badEnd >= slice.start {
          break;
        }
        ent := ent + 1;
      }
      cnt := 0;
      var j := ent;
      while j < |t| && t[j].badStart <= slce
        invariant j == ent + cnt && j <= |t|
      {
        cnt := cnt + 1;
        j := j + 1;
      }
    }

    /** cmdk_bbh_gethandle.  No handle means the request is to go to the sectors it names. */
    method GetHandle(part: nat, sec: int, bcount: nat) returns (hp: Handle?)
      requires Valid()
      requires loaded && part < V_NUMPAR ==>
                 && slices[part].len > 0
                 && slices[part].start <= sec && sec + bcount / NBPSCTR <= slices[part].start + slices[part].len
      ensures hp == null ==>
                RemapAll(Effective(part), sec, bcount / NBPSCTR) == ExpandOne(Cookie(sec, bcount / NBPSCTR))
      ensures hp != null ==> fresh(hp) && fresh(hp.cktab) && hp.Valid() && hp.idx == 0 && hp.filled > 0
      ensures hp != null ==> CutsRequest(Effective(part), sec, bcount / NBPSCTR, hp.cktab[..hp.filled])
    {
      hp := null;
      var count := bcount / NBPSCTR;
      if part >= V_NUMPAR {
        RemapRunIdentity([], sec, count);
        return;
      }
      if !loaded {
        RemapRunIdentity([], sec, count);
        return;
      }
      var used, ent := slcCnt[part], slcEnt[part];
      WindowRemapAll(table, slices[part], ent, used, sec, count);
      var win := table[ent..ent + used];
      if used == 0 {
        RemapRunIdentity(win, sec, count);
        return;
      }
      var i := Bsearch(win, sec);
      if i == -1 {
        RemapRunIdentity(win, sec, count);
        return;
      }
      var lastsec := sec + count - 1;
      var idx, cnt := i, 0;
      while idx < used
        invariant i <= idx <= used && cnt == idx - i
        invariant forall m :: i <= m < idx ==> win[m].badStart <= lastsec
      {
        if lastsec < win[idx].badStart {
          break;
        }
        idx, cnt := idx + 1, cnt + 1;
      }
      if cnt == 0 {
        RemapRunIdentity(win, sec, count);
        return;
      }
      var ck, filled := CutCookies(win, i, cnt, sec, count);
      hp := new Handle(ck, filled);
    }
  }

  // ---------------------------------------------------------------- clipping a request to its slice

  datatype Admission = Rejected(resid: nat, error: bool) | Queued(sec: nat, bcount: nat, resid: nat)

  /** cmdkstrategy: a request for blkno (relative to its slice) and bcount bytes.  What is let through
      lies inside the slice, starts where it was asked to, loses only what lies beyond the end, and
      accounts for every byte; nothing well formed is refused that starts inside. */
  function Strategy(partinfo: Option<Slice>, blkno: int, bcount: nat): (a: Admission)
    ensures a.Queued? ==>
      && partinfo.Some? && a.bcount + a.resid == bcount && a.bcount % NBPSCTR == 0
      && a.sec - partinfo.value.start == blkno
      && partinfo.value.start <= a.sec && a.sec + a.bcount / NBPSCTR <= partinfo.value.start + partinfo.value.len
      && (a.resid > 0 ==> a.sec + a.bcount / NBPSCTR == partinfo.value.start + partinfo.value.len)
      && (bcount > 0 ==> a.bcount > 0)
    ensures a.Rejected? <==> partinfo.None? || blkno < 0 || blkno >= partinfo.value.len || bcount % NBPSCTR != 0
    ensures a.Rejected? ==>
      && a.resid == bcount
      && (!a.error <==> partinfo.Some? && blkno == partinfo.value.len && bcount % NBPSCTR == 0)
  {
    if blkno < 0 || partinfo.None? || bcount % NBPSCTR != 0 || blkno > partinfo.value.len then Rejected(bcount, true)
    else if blkno == partinfo.value.len then Rejected(bcount, false)
    else
      var slice, count := partinfo.value, bcount / NBPSCTR;
      if blkno + count > slice.len then
        var resid := (blkno + count - slice.len) * NBPSCTR;
        Queued(slice.start + blkno, bcount - resid, resid)
      else Queued(slice.start + blkno, bcount, 0)
  }
}
