/**
  One request on the driver's own objects, from cmdkstrategy to biodone: clip it, cut it into cookies,
  send it chunk by chunk, and finish it.  This is where the objects of Dadk and BadBlocks meet: what they
  do is the run of Dadk, so what is proved of runs is promised about them.
 */
module Transfer {
  import opened Options
  import opened BadBlocks
  import opened AtaDisk
  import opened Dadk

  datatype Result = Bounced(resid: int) | Done(resid: int, error: bool) | UnderWay

  /** The device's part in one chunk: what it does, and how the transport answers from then on. */
  datatype Event = Event(attempt: Attempt, answers: seq<bool>)

  // ---------------------------------------------------------------- what happens to the chunks

  /** The chunks refused before one is accepted. */
  function Refusals(answers: seq<bool>): seq<Outcome>
    decreases |answers|
  {
    if answers == [] || answers[0] then [] else [Refused] + Refusals(answers[1..])
  }

  function Outcomes(events: seq<Event>): seq<Outcome>
    decreases |events|
  {
    if events == [] then []
    else [Accepted(events[0].attempt)] + Refusals(events[0].answers) + Outcomes(events[1..])
  }

  lemma {:induction false} StepsAppend(cfg: Config, r: Run, a: seq<Outcome>, b: seq<Outcome>)
    ensures Steps(cfg, r, a + b) == Steps(cfg, Steps(cfg, r, a), b)
    decreases |a|
  {
    if a == [] {
      assert a + b == b;
    } else if r.phase.Sent? {
      assert (a + b)[1..] == a[1..] + b;
      StepsAppend(cfg, Step(cfg, r, a[0]), a[1..], b);
    }
  }

  lemma {:induction false} SettledIsSteps(cfg: Config, r: Run, answers: seq<bool>)
    ensures Settled(cfg, r, answers) == Steps(cfg, r, Refusals(answers))
    ensures Settled(cfg, r, answers + [true]) == Settled(cfg, r, answers)
    decreases |answers|
  {
    if r.phase.Sent? && answers != [] && !answers[0] {
      SettledIsSteps(cfg, Step(cfg, r, Refused), answers[1..]);
      assert (answers + [true])[1..] == answers[1..] + [true];
      assert ([Refused] + Refusals(answers[1..]))[1..] == Refusals(answers[1..]);
    }
  }

  /** One event more. */
  lemma OutcomesCons(cfg: Config, r: Run, e: Event, rest: seq<Event>)
    requires r.phase.Sent?
    ensures Steps(cfg, r, Outcomes([e] + rest)) ==
            Steps(cfg, Settled(cfg, Step(cfg, r, Accepted(e.attempt)), e.answers), Outcomes(rest))
  {
    var now := [Accepted(e.attempt)] + Refusals(e.answers);
    assert ([e] + rest)[1..] == rest;
    StepsAppend(cfg, r, now, Outcomes(rest));
    assert now[1..] == Refusals(e.answers);
    SettledIsSteps(cfg, Step(cfg, r, Accepted(e.attempt)), e.answers);
  }

  /** Each event is a transport, so the run is over once there are enough. */
  lemma {:induction false} OutcomesMany(events: seq<Event>)
    ensures |Outcomes(events)| >= |events|
  {
    if events != [] {
      OutcomesMany(events[1..]);
    }
  }

  // ---------------------------------------------------------------- the driver's objects

  /** The packet in memory and the run it stands for. */
  ghost predicate Tracks(pkt: Cmpkt, r: Run, sent: bool)
    reads pkt, pkt.ata, pkt.cks, if pkt.cks == null then {} else {pkt.cks.cktab}
  {
    && pkt.Valid() && sent == r.phase.Sent? && pkt.View().bp == r.pkt.bp && (sent ==> pkt.View() == r.pkt)
  }

  lemma CookieThere(t: seq<AltEnt>, lo: int, n: nat, resid0: int, cfg: Config, r: Run)
    requires Inv(t, lo, n, resid0, cfg, r) && r.phase.Sent?
    ensures r.pkt.byteleft != r.pkt.bytexfer && r.pkt.secleft == r.pkt.bytexfer / SECTOR && r.pkt.cks.Some?
      ==> r.pkt.ckIdx < |r.pkt.cks.value|
  {
    assert |Rest(r.pkt)| == n - |r.done|;
  }

  /** Only the drive moves data. */
  lemma {:induction false} RefusedHolds(cfg: Config, r: Run, answers: seq<bool>)
    ensures Settled(cfg, r, answers).held == r.held
    decreases |answers|
  {
    if r.phase.Sent? && answers != [] && !answers[0] {
      RefusedHolds(cfg, Step(cfg, r, Refused), answers[1..]);
    }
  }

  /** One chunk is sent and comes back.  `held` is the buffer, by the bytes of the device last moved from or to
      its bytes.  A cookie is there whenever one is asked for: while sectors are
      missing when a cookie runs out, another one follows. */
  method Deliver(cfg: Config, pkt: Cmpkt, held: seq<int>, e: Event, ghost r: Run, ghost t: seq<AltEnt>, ghost lo: int,
                 ghost n: nat, ghost resid0: int)
    returns (sent: bool, held': seq<int>)
    requires cfg.Valid() && n * SECTOR < SIZE_T && |e.answers| >= 2 && held == r.held
    requires Inv(t, lo, n, resid0, cfg, r) && r.phase.Sent? && Tracks(pkt, r, true)
    modifies pkt, pkt.ata, pkt.cks
    ensures var r' := Settled(cfg, Step(cfg, r, Accepted(e.attempt)), e.answers);
      Tracks(pkt, r', sent) && held' == r'.held
  {
    RefusedHolds(cfg, Step(cfg, r, Accepted(e.attempt)), e.answers);
    assert pkt.byteleft != pkt.bytexfer ==> pkt.CookieAhead() by { CookieThere(t, lo, n, resid0, cfg, r); }
    var moves := pkt.ata.Execute(e.attempt);
    held' := Land(held, moves, pkt.ata.startsec * SECTOR);
    InterruptsSame(Started(r.pkt.ata, e.attempt), e.attempt.irqs);
    sent := pkt.Callback(cfg, e.answers, Executed(r, e.attempt));
  }

  /** The packet is made and handed to the transport for the first time. */
  method Launch(cfg: Config, bp: Buf, hp: Handle?, dir: Dir, bytesPerBlock: int, first: seq<bool>)
    returns (pkt: Cmpkt, sent: bool)
    requires bp.bcount >= 0 && |first| >= 2
    requires hp != null ==> hp.Valid() && hp.idx == 0 && hp.filled > 0
    modifies hp
    ensures fresh(pkt) && fresh(pkt.ata) && pkt.cks == hp
    ensures var cks := if hp == null then None else Some(old(hp.cktab[..hp.filled]));
      Tracks(pkt, Settled(cfg, Begin(cfg, bp, cks, dir, bytesPerBlock), first), sent)
  {
    ghost var cks := if hp == null then None else Some(hp.cktab[..hp.filled]);
    pkt := new Cmpkt(cfg, bp, hp, dir, bytesPerBlock);
    ghost var r := Begin(cfg, bp, cks, dir, bytesPerBlock);
    sent := true;
    if !first[0] {
      SettledIsSteps(cfg, Step(cfg, r, Refused), first[1..]);
      sent := pkt.Again(cfg, first[1..] + [true], r.(last := None));
    }
  }

  /** Chunk after chunk, until the request is finished or the events run out. */
  method Drive(cfg: Config, pkt: Cmpkt, empty: seq<int>, events: seq<Event>, started: bool, ghost r0: Run,
               ghost t: seq<AltEnt>, ghost lo: int, ghost n: nat, ghost resid0: int)
    returns (sent: bool, held: seq<int>)
    requires cfg.Valid() && n * SECTOR < SIZE_T && forall i :: 0 <= i < |events| ==> |events[i].answers| >= 2
    requires Inv(t, lo, n, resid0, cfg, r0) && Tracks(pkt, r0, started) && empty == r0.held
    modifies pkt, pkt.ata, pkt.cks
    ensures var r := Steps(cfg, r0, Outcomes(events)); Tracks(pkt, r, sent) && held == r.held
  {
    hide Inv, Step, Settled;
    sent, held := started, empty;
    ghost var r := r0;
    var i := 0;
    assert events[0..] == events;
    while sent && i < |events|
      invariant 0 <= i <= |events|
      invariant Inv(t, lo, n, resid0, cfg, r) && Tracks(pkt, r, sent) && held == r.held
      invariant Steps(cfg, r, Outcomes(events[i..])) == Steps(cfg, r0, Outcomes(events))
    {
      var e := events[i];
      StepKeeps(t, lo, n, resid0, cfg, r, Accepted(e.attempt));
      ghost var r1 := Step(cfg, r, Accepted(e.attempt));
      SettledIsSteps(cfg, r1, e.answers);
      StepsKeep(t, lo, n, resid0, cfg, r1, Refusals(e.answers));
      assert events[i..] == [e] + events[i + 1..];
      OutcomesCons(cfg, r, e, events[i + 1..]);
      sent, held := Deliver(cfg, pkt, held, e, r, t, lo, n, resid0);
      r := Settled(cfg, r1, e.answers);
      i := i + 1;
    }
  }

  // ---------------------------------------------------------------- the whole way

  /** The run of a request that was let through. */
  function Served(cfg: Config, a: Admission, cks: Option<seq<Cookie>>, dir: Dir, bytesPerBlock: int, first: seq<bool>,
                  events: seq<Event>): Run
    requires a.Queued?
  {
    Steps(cfg, Begin(cfg, Buf(a.sec, a.bcount, a.resid, false), cks, dir, bytesPerBlock),
      Refusals(first) + Outcomes(events))
  }

  /** What the caller is told agrees with what was moved: without an error all of it, each byte of the
      buffer from or to its own byte of the remapped sectors; with one, as much as the residual says, always
      for a read or after a command of one block, and otherwise unless the last command went on after a busy
      drive. */
  ghost predicate Kept(t: seq<AltEnt>, a: Admission, bcount: int, dir: Dir, nEvents: nat, r: Run, res: Result,
                       held: seq<int>)
    requires a.Queued?
  {
    var n := a.bcount / NBPSCTR;
    && res == (if r.phase.Sent? then UnderWay else Done(r.pkt.bp.resid, r.pkt.bp.error)) && held == r.held
    && |r.done| <= n && r.done == Wanted(t, a.sec, |r.done|)
    && (res.UnderWay? ==> nEvents < 6 * n)
    && (res.Done? && !res.error ==>
          && |r.done| == n && bcount - res.resid == n * SECTOR
          && held == seq(a.bcount, i requires 0 <= i => ByteAt(t, a.sec, i)))
    && (res.Done? && res.error ==>
          var exact := bcount - res.resid == |r.done| * SECTOR + r.LastMoved();
          && (dir == Read || r.OneBlock() ==> exact)
          && (!r.Recounts() ==> exact)
          && (r.Short() ==> (exact <==> !r.Recounts())))
  }

  lemma ServedKeeps(t: seq<AltEnt>, cfg: Config, a: Admission, bcount: int, cks: Option<seq<Cookie>>, dir: Dir,
                    bytesPerBlock: int, first: seq<bool>, events: seq<Event>)
    requires cfg.Valid() && a.Queued? && a.bcount + a.resid == bcount < SIZE_T && bytesPerBlock > 0
    requires 0 < a.bcount && a.bcount % NBPSCTR == 0 && CookiesFor(t, a.sec, a.bcount / NBPSCTR, cks)
    ensures var r := Served(cfg, a, cks, dir, bytesPerBlock, first, events);
      var res := if r.phase.Sent? then UnderWay else Done(r.pkt.bp.resid, r.pkt.bp.error);
      Kept(t, a, bcount, dir, |events|, r, res, r.held)
  {
    hide Steps, Remap, RemapAll, Wanted, CookiesFor;
    var n, bp, os := a.bcount / NBPSCTR, Buf(a.sec, a.bcount, a.resid, false), Refusals(first) + Outcomes(events);
    RequestRefinesRemap(t, cfg, bp, cks, dir, bytesPerBlock, n, os);
    BufferHoldsRemap(t, cfg, bp, cks, dir, bytesPerBlock, n, os);
    ErrorResidual(t, cfg, bp, cks, dir, bytesPerBlock, n, os);
    OutcomesMany(events);
  }

  /** The transport takes every chunk at once. */
  predicate AllTaken(first: seq<bool>, events: seq<Event>) {
    (first == [] || first[0]) && forall i :: 0 <= i < |events| ==> events[i].answers == [] || events[i].answers[0]
  }

  lemma {:induction false} TakenOutcomes(events: seq<Event>, bytes: int)
    requires forall i :: 0 <= i < |events| ==> events[i].answers == [] || events[i].answers[0]
    requires forall i :: 0 <= i < |events| ==> Obliging(events[i].attempt, bytes)
    ensures AllOblige(Outcomes(events), bytes) && |Outcomes(events)| == |events|
  {
    hide Obliging;
    if events != [] {
      TakenOutcomes(events[1..], bytes);
      assert Refusals(events[0].answers) == [];
      assert Outcomes(events) == [Accepted(events[0].attempt)] + Outcomes(events[1..]);
    }
  }

  /** With a transport that takes every chunk and a drive that shows no complaint, a request that is let
      through succeeds, once there are as many events as sectors. */
  lemma ServedWell(t: seq<AltEnt>, cfg: Config, a: Admission, cks: Option<seq<Cookie>>, dir: Dir, bytesPerBlock: int,
                   first: seq<bool>, events: seq<Event>)
    requires cfg.Valid() && a.Queued? && 0 < a.bcount < SIZE_T && a.bcount % NBPSCTR == 0 && bytesPerBlock > 0
    requires CookiesFor(t, a.sec, a.bcount / NBPSCTR, cks) && AllTaken(first, events)
    requires |events| >= a.bcount / NBPSCTR
    requires forall i :: 0 <= i < |events| ==> Obliging(events[i].attempt, a.bcount)
    ensures var r := Served(cfg, a, cks, dir, bytesPerBlock, first, events);
      r.phase.Finished? && !r.pkt.bp.error && |r.done| == a.bcount / NBPSCTR && r.pkt.bp.resid == a.resid
  {
    hide Obliging, CookiesFor;
    var n, bp := a.bcount / NBPSCTR, Buf(a.sec, a.bcount, a.resid, false);
    assert Refusals(first) + Outcomes(events) == Outcomes(events);
    TakenOutcomes(events, a.bcount);
    FirstChunk(t, cfg, bp, cks, dir, bytesPerBlock, n);
    ObligingSucceeds(t, bp.start, n, bp.resid, cfg, Begin(cfg, bp, cks, dir, bytesPerBlock), Outcomes(events));
    HealthyRequest(t, cfg, bp, cks, dir, bytesPerBlock, n, Outcomes(events));
  }

  /** The whole way of a request through the driver.  What the caller gets is what the run of Dadk comes to
      with the refusals of `first` and then the events, for the request clipped to its slice and cut into
      cookies.  The handle's cookies are read in step with the chunks and never beyond the last one, which
      is what the calls below have to show. */
  method Serve(cfg: Config, disk: Cmdk, part: nat, blkno: int, bcount: nat, dir: Dir, bytesPerBlock: int,
               partinfo: Option<Slice>, first: seq<bool>, events: seq<Event>)
    returns (res: Result, held: seq<int>, ghost cks: Option<seq<Cookie>>)
    requires cfg.Valid() && disk.Valid() && 0 < bcount < SIZE_T && bytesPerBlock > 0
    requires disk.loaded && part < V_NUMPAR && partinfo.Some? ==> partinfo.value == disk.slices[part]
    requires |first| >= 2 && forall i :: 0 <= i < |events| ==> |events[i].answers| >= 2
    ensures res.Bounced? <==> Strategy(partinfo, blkno, bcount).Rejected?
    ensures res.Bounced? ==> res.resid == bcount
    ensures !res.Bounced? ==>
      var a := Strategy(partinfo, blkno, bcount);
      var r := Served(cfg, a, cks, dir, bytesPerBlock, first, events);
      && CookiesFor(disk.Effective(part), a.sec, a.bcount / NBPSCTR, cks)
      && Kept(disk.Effective(part), a, bcount, dir, |events|, r, res, held)
  {
    hide Inv, Kept, Steps, Settled, CutsRequest, RemapAll, Expand;
    cks := None;
    var a := Strategy(partinfo, blkno, bcount);
    if a.Rejected? {
      return Bounced(a.resid), [], None;
    }
    var bp := Buf(a.sec, a.bcount, a.resid, false);
    ghost var t, n := disk.Effective(part), a.bcount / NBPSCTR;
    var hp := disk.GetHandle(part, a.sec, a.bcount);
    cks := if hp == null then None else Some(hp.cktab[..hp.filled]);
    ServedKeeps(t, cfg, a, bcount, cks, dir, bytesPerBlock, first, events);
    ghost var r0 := Begin(cfg, bp, cks, dir, bytesPerBlock);
    ghost var r1 := Settled(cfg, r0, first);
    FirstChunk(t, cfg, bp, cks, dir, bytesPerBlock, n);
    StepsKeep(t, bp.start, n, bp.resid, cfg, r0, Refusals(first));
    SettledIsSteps(cfg, r0, first);
    StepsAppend(cfg, r0, Refusals(first), Outcomes(events));
    RefusedHolds(cfg, r0, first);
    var pkt, sent := Launch(cfg, bp, hp, dir, bytesPerBlock, first);
    held := seq(a.bcount, _ => -1);
    sent, held := Drive(cfg, pkt, held, events, sent, r1, t, bp.start, n, bp.resid);
    return if sent then UnderWay else Done(pkt.bResid, pkt.bError), held, cks;
  }
}
