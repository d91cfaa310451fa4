/**
  The ATA controller under the generic host adapter layer: WaitQueues over Controller, with the one
  active request per controller that ata_attach configures (ata_common.c:1101).

  The layer counts what it has handed to the adapter; the controller has its own idea of the packet it
  works on.  Here the two are shown to agree.
 */
module Adapter {
  import opened Options
  import opened WaitQueues
  import G = Ghd
  import K = Controller

  datatype Both = Both(w: WaitQ, c: K.Ctl)

  /** What happens at a controller, each under the adapter's mutex but for a submission, which needs only
      the mutex of the wait queue.  The start loop drops that one while the start function runs, so a start
      is two steps, and submissions come in between. */
  datatype Event =
    | Submit(dev: nat)
    | TakeHead               // a pass of the start loop, up to the call of the start function
    | Answer(r: K.Req)       // the start function, and the end of the pass
    | Interrupt
    | Reset(setup: bool)     // a timed-out active request
    | EarlyEnd(x: Cmd)       // an abort or timeout of a request that was not started

  ghost predicate Enabled(b: Both, e: Event) {
    match e
    case Submit(d) => d in b.w.devs && Known(b.w.devs[d].q, d, b.w.level)
    case TakeHead =>
      b.w.starting.None? && b.w.hq != [] && b.w.nactive < b.w.maxactive && b.w.hq[0] in b.w.level
    case Answer(r) => b.w.starting == Some(r.cmd) && K.Fresh(r)
    case Interrupt => b.w.starting.None?
    case Reset(_) => b.w.starting.None?
    case EarlyEnd(x) => b.w.starting.None? && x in b.w.level && b.w.level[x] < 3
  }

  /** sol11ghd_complete for what the controller completed. */
  ghost function Complete(w: WaitQ, done: seq<K.Req>): WaitQ {
    if |done| == 1 && Deletable(w, done[0].cmd) then Delete(w, done[0].cmd) else w
  }

  ghost function AfterStart(w1: WaitQ, o: K.StartOut): WaitQ {
    var w2 := Complete(w1, o.done);
    if o.started then Accept(w2)
    else if w2.starting.Some? && w2.starting.value in w2.level && w2.level[w2.starting.value] > 0 then Requeue(w2)
    else w2
  }

  ghost function Next(b: Both, e: Event, ts: nat -> K.Turn): Both
    requires Enabled(b, e) && K.Settled(b.c)
  {
    match e
    case Submit(d) => b.(w := Transport(b.w, d))
    case TakeHead => b.(w := StartHead(b.w))
    case Answer(r) =>
      var o := K.HbaStart(b.c, r, ts, K.WATCHDOG);
      Both(AfterStart(b.w, o), o.c)
    case Interrupt =>
      var l := K.ProcessIntr(b.c, ts, K.WATCHDOG);
      Both(Complete(b.w, l.done), l.c)
    case Reset(setup) =>
      var o := K.ResetBus(b.c, ts, setup, K.WATCHDOG);
      Both(Complete(b.w, o.done), o.c)
    case EarlyEnd(x) => if Deletable(b.w, x) then b.(w := Delete(b.w, x)) else b
  }

  /** The request that somebody works on: the one on its way to the controller, or the controller's. */
  ghost function Busy(b: Both): Option<Cmd> { if b.w.starting.Some? then b.w.starting else K.Holder(b.c) }

  /** The layer counts one active request exactly when there is such a request, and it is that one; while it
      is on its way the controller has none. */
  ghost predicate Agree(b: Both) {
    && Inv(b.w) && Shuffled(b.w) && b.w.maxactive == 1 && K.Settled(b.c)
    && Holds(b.w, Busy(b)) && (b.w.starting.Some? ==> b.c.active.NoPkt?)
  }

  ghost predicate Holds(w: WaitQ, h: Option<Cmd>) {
    if h.Some? then h.value in w.level && w.level[h.value] == 3 else w.nactive == 0
  }

  /** A request that completes was outstanding, and the adapter's only one. */
  lemma CompletesActive(w: WaitQ, x: Cmd)
    requires Inv(w) && Shuffled(w) && w.maxactive == 1 && x in w.level && w.level[x] == 3
    ensures Deletable(w, x) && w.nactive == 1
    ensures var w' := Delete(w, x);
      && Inv(w') && Shuffled(w') && w'.nactive == 0 && w'.maxactive == 1 && w'.starting == w.starting
  {
    OutstandingDeletable(w, x);
    DeleteKeeps(w, x);
    assert x in Started(w.level);
    assert Unlink(w, x).nactive == w.nactive - 1;
  }

  /** What the controller keeps or completes, the queues keep or complete. */
  lemma ResultAgrees(w: WaitQ, h: Option<Cmd>, h': Option<Cmd>, done: seq<K.Req>)
    requires Inv(w) && Shuffled(w) && w.maxactive == 1 && Holds(w, h)
    requires (done == [] && h' == h) || (|done| == 1 && Some(done[0].cmd) == h && h'.None?)
    ensures var w' := Complete(w, done);
      && Inv(w') && Shuffled(w') && w'.maxactive == 1 && w'.starting == w.starting && Holds(w', h')
  {
    if done != [] {
      CompletesActive(w, h.value);
    }
  }

  lemma Outcome(h: Option<Cmd>, c: K.Ctl, done: seq<K.Req>)
    requires K.KeepsOrCompletes(h, c, done) && K.Sound(c)
    ensures (done == [] && K.Holder(c) == h) || (|done| == 1 && Some(done[0].cmd) == h && K.Holder(c).None?)
  {
    K.HolderOrNone(c);
  }

  lemma DeleteForgets(w: WaitQ, x: Cmd)
    requires Inv(w) && Shuffled(w) && Deletable(w, x)
    ensures x !in Delete(w, x).level
  {
    DeleteKeeps(w, x);
    assert x !in Unlink(w, x).level;
  }

  /** The two notions of an active request. */
  lemma ActiveCounts(b: Both)
    requires Agree(b)
    ensures b.w.nactive == (if Busy(b).None? then 0 else 1) && (b.c.active.NoPkt? <==> b.c.drv.None?)
    ensures b.w.starting.None? ==> (Busy(b).None? <==> b.c.active.NoPkt?)
  {
    K.HolderOrNone(b.c);
    if Busy(b).Some? {
      CompletesActive(b.w, Busy(b).value);
    }
  }

  lemma TakeAgrees(b: Both, ts: nat -> K.Turn)
    requires Agree(b) && Enabled(b, TakeHead)
    ensures Agree(Next(b, TakeHead, ts))
  {
    hide Inv, Shuffled;
    ActiveCounts(b);
    StartHeadKeeps(b.w);
    HeadHeld(b.w);
  }

  lemma HeadHeld(w: WaitQ)
    requires Inv(w) && w.hq != [] && w.hq[0] in w.level
    ensures StartHead(w).level[w.hq[0]] == 3
  {
    assert w.hq[0] in w.hq;
  }

  lemma AnswerAgrees(b: Both, r: K.Req, ts: nat -> K.Turn)
    requires Agree(b) && Enabled(b, Answer(r))
    ensures Agree(Next(b, Answer(r), ts))
  {
    hide Inv, Shuffled, K.Loop;
    var o := K.HbaStart(b.c, r, ts, K.WATCHDOG);
    K.HbaStartTakes(b.c, r, ts, K.WATCHDOG);
    K.HolderOrNone(b.c);
    if o.started {
      Outcome(Some(r.cmd), o.c, o.done);
      ResultAgrees(b.w, Some(r.cmd), K.Holder(o.c), o.done);
      AcceptEnds(Complete(b.w, o.done), K.Holder(o.c));
    } else {
      CompletesActive(b.w, r.cmd);
      RequeueKeeps(b.w);
    }
  }

  lemma AcceptEnds(w: WaitQ, h: Option<Cmd>)
    requires Inv(w) && Shuffled(w) && w.starting.Some? && Holds(w, h)
    ensures Inv(Accept(w)) && Shuffled(Accept(w)) && Holds(Accept(w), h)
  {
    NothingElseStarted(w);
    AcceptKeeps(w);
  }

  lemma NoneStarted(w: WaitQ)
    requires Counted(w) && Placed(w) && w.nactive == 0
    ensures forall x :: x in w.level ==> w.level[x] < 3
  {
    assert Started(w.level) == {};
    forall x | x in w.level ensures w.level[x] < 3 {
      assert x !in Started(w.level);
    }
  }

  lemma RefusedNext(b: Both, r: K.Req, ts: nat -> K.Turn)
    requires Agree(b) && Enabled(b, Answer(r)) && K.Refuses(r, ts(0))
    ensures Next(b, Answer(r), ts) == Both(Requeue(b.w), b.c)
  {
    hide K.Loop;
    K.HbaStartTakes(b.c, r, ts, K.WATCHDOG);
  }

  /** After a refusal the request is back at the head, before whatever was submitted meanwhile, and nothing is
      active: no completion will come to start it again, only another submission or its timeout. */
  lemma RefusalLeavesIdle(b: Both, r: K.Req, ts: nat -> K.Turn)
    requires Agree(b) && Enabled(b, Answer(r)) && K.Refuses(r, ts(0))
    ensures var b' := Next(b, Answer(r), ts);
      && b'.w.hq == [r.cmd] + b.w.hq && b'.w.nactive == 0 && b'.c == b.c && b'.c.active.NoPkt?
      && forall x :: x in b'.w.level ==> b'.w.level[x] < 3
  {
    hide Next;
    CompletesActive(b.w, r.cmd);
    RequeueKeeps(b.w);
    NoneStarted(Requeue(b.w));
    RefusedNext(b, r, ts);
  }

  lemma ResultStep(b: Both, c: K.Ctl, done: seq<K.Req>)
    requires Agree(b) && b.w.starting.None? && K.KeepsOrCompletes(K.Holder(b.c), c, done) && K.Settled(c)
    ensures Agree(Both(Complete(b.w, done), c))
  {
    Outcome(K.Holder(b.c), c, done);
    ResultAgrees(b.w, K.Holder(b.c), K.Holder(c), done);
  }

  /** What is not about the active request leaves it. */
  lemma TransportHolds(w: WaitQ, d: nat, h: Option<Cmd>)
    requires Inv(w) && Shuffled(w) && d in w.devs && Known(w.devs[d].q, d, w.level) && Holds(w, h)
    ensures var w' := Transport(w, d);
      && Inv(w') && Shuffled(w') && Holds(w', h) && w'.maxactive == w.maxactive && w'.starting == w.starting
  {
    TransportKeeps(w, d);
    assert h.Some? ==> h.value in Enqueue(w, d).level && Enqueue(w, d).level[h.value] == 3 by {
      assert Cmd(w.next, d) !in w.level;
    }
  }

  lemma EarlyHolds(w: WaitQ, x: Cmd, h: Option<Cmd>)
    requires Inv(w) && Shuffled(w) && Deletable(w, x) && x in w.level && w.level[x] < 3 && Holds(w, h)
    ensures var w' := Delete(w, x);
      && Inv(w') && Shuffled(w') && Holds(w', h) && w'.maxactive == w.maxactive && w'.starting == w.starting
  {
    DeleteKeeps(w, x);
    assert h.Some? ==> h.value in Unlink(w, x).level && Unlink(w, x).level[h.value] == 3;
  }

  lemma StepAgrees(b: Both, e: Event, ts: nat -> K.Turn)
    requires Agree(b) && Enabled(b, e)
    ensures Agree(Next(b, e, ts))
  {
    match e
    case Submit(d) => TransportHolds(b.w, d, Busy(b));
    case TakeHead => TakeAgrees(b, ts);
    case Answer(r) => AnswerAgrees(b, r, ts);
    case Interrupt =>
      K.IntrKeepsOrCompletes(b.c, ts, K.WATCHDOG);
      var l := K.ProcessIntr(b.c, ts, K.WATCHDOG);
      ResultStep(b, l.c, l.done);
    case Reset(setup) =>
      K.ResetCompletes(b.c, ts, setup, K.WATCHDOG);
      var o := K.ResetBus(b.c, ts, setup, K.WATCHDOG);
      ResultStep(b, o.c, o.done);
    case EarlyEnd(x) => if Deletable(b.w, x) { EarlyHolds(b.w, x, K.Holder(b.c)); }
  }

  ghost predicate Run(bs: seq<Both>, es: seq<Event>, turns: seq<nat -> K.Turn>) {
    && |bs| == |es| + 1 && |turns| == |es|
    && bs[0].c == K.Ctl(K.AsIdle, K.NoPkt, None, None, K.A.SIdle, K.A.SIdle)
    && bs[0].w == WaitQ(bs[0].w.devs, [], 0, 1, map[], 0, [], None)
    && (forall d :: d in bs[0].w.devs ==> bs[0].w.devs[d].q == [] && bs[0].w.devs[d].nactive == 0)
    && forall i :: 0 <= i < |es| ==>
      Enabled(bs[i], es[i]) && (K.Settled(bs[i].c) ==> bs[i + 1] == Next(bs[i], es[i], turns[i]))
  }

  lemma StartAgrees(b: Both)
    requires b.c == K.Ctl(K.AsIdle, K.NoPkt, None, None, K.A.SIdle, K.A.SIdle)
    requires b.w == WaitQ(b.w.devs, [], 0, 1, map[], 0, [], None)
    requires forall d :: d in b.w.devs ==> b.w.devs[d].q == [] && b.w.devs[d].nactive == 0
    ensures Agree(b)
  {
    hide Inv, Shuffled;
    EmptyInv(b.w.devs, 1);
  }

  lemma CountsTell(b: Both)
    requires Agree(b)
    ensures K.Settled(b.c)
    ensures b.w.starting.None? ==> (b.w.nactive == 1 <==> !b.c.active.NoPkt?)
    ensures b.w.starting.Some? ==> b.w.nactive == 1 && b.c.active.NoPkt?
  {
    ActiveCounts(b);
  }

  /** In every reachable state the layer's count of active requests is 1 exactly when the controller has a
      packet, and they mean the same request; only while a request is on its way from the one to the other
      does the layer count one that the controller does not have yet. */
  lemma {:induction false} AlwaysAgree(bs: seq<Both>, es: seq<Event>, turns: seq<nat -> K.Turn>, i: nat)
    requires Run(bs, es, turns) && i < |bs|
    ensures Agree(bs[i])
    ensures bs[i].w.starting.None? ==> (bs[i].w.nactive == 1 <==> !bs[i].c.active.NoPkt?)
    ensures bs[i].w.starting.Some? ==> bs[i].w.nactive == 1 && bs[i].c.active.NoPkt?
  {
    hide Agree, Next, Enabled;
    if i == 0 {
      StartAgrees(bs[0]);
    } else {
      AlwaysAgree(bs, es, turns, i - 1);
      CountsTell(bs[i - 1]);
      StepAgrees(bs[i - 1], es[i - 1], turns[i - 1]);
    }
    CountsTell(bs[i]);
  }

  /** So neither guard of ata_hba_start ever fires: the controller is free whenever the layer starts a
      request; and what is ended early is on a queue and not the controller's. */
  lemma GuardsNeverFire(bs: seq<Both>, es: seq<Event>, turns: seq<nat -> K.Turn>, i: nat)
    requires Run(bs, es, turns) && i < |es|
    ensures es[i].TakeHead? || es[i].Answer? ==> bs[i].c.drv.None? && bs[i].c.active.NoPkt?
    ensures es[i].EarlyEnd? ==> Deletable(bs[i].w, es[i].x) && K.Holder(bs[i].c) != Some(es[i].x)
  {
    AlwaysAgree(bs, es, turns, i);
    ActiveCounts(bs[i]);
    if es[i].EarlyEnd? {
      OutstandingDeletable(bs[i].w, es[i].x);
    }
  }

  /** sol11ghd_complete is called for an outstanding request that was started, and never again for it
      while it is not submitted anew: with K.IntrKeepsOrCompletes, K.ResetCompletes and K.HbaStartTakes
      this holds of every result of the controller. */
  lemma CompletesOutstanding(w: WaitQ, h: Option<Cmd>, c: K.Ctl, done: seq<K.Req>, r: K.Req)
    requires Inv(w) && Shuffled(w) && w.maxactive == 1 && Holds(w, h)
    requires K.KeepsOrCompletes(h, c, done) && r in done
    ensures r.cmd in w.level && w.level[r.cmd] == 3 && r.cmd !in Complete(w, done).level
  {
    assert done == [r] && h == Some(r.cmd);
    CompletedGone(w, r);
  }

  lemma CompletedGone(w: WaitQ, r: K.Req)
    requires Inv(w) && Shuffled(w) && r.cmd in w.level && w.level[r.cmd] == 3
    ensures r.cmd !in Complete(w, [r]).level
  {
    OutstandingDeletable(w, r.cmd);
    DeleteForgets(w, r.cmd);
  }

  // ---------------------------------------------------------------- who comes and who goes

  /** What the controller completes in a step. */
  ghost function DoneBy(b: Both, e: Event, ts: nat -> K.Turn): seq<K.Req>
    requires Enabled(b, e) && K.Settled(b.c)
  {
    match e
    case Answer(r) => K.HbaStart(b.c, r, ts, K.WATCHDOG).done
    case Interrupt => K.ProcessIntr(b.c, ts, K.WATCHDOG).done
    case Reset(setup) => K.ResetBus(b.c, ts, setup, K.WATCHDOG).done
    case _ => []
  }

  /** The requests that leave in a step: completed by the controller, or ended early. */
  ghost function Leavers(b: Both, e: Event, ts: nat -> K.Turn): seq<Cmd>
    requires Enabled(b, e) && K.Settled(b.c)
  {
    if e.EarlyEnd? then [e.x] else K.Cmds(DoneBy(b, e, ts))
  }

  /** One request leaves the ranks, or none. */
  ghost predicate OnlyLeave(w: WaitQ, w': WaitQ, gone: seq<Cmd>) {
    && w'.next == w.next
    && (gone == [] || (|gone| == 1 && gone[0] in w.level))
    && w'.level.Keys == if gone == [] then w.level.Keys else w.level.Keys - {gone[0]}
  }

  lemma CompleteRanks(w: WaitQ, h: Option<Cmd>, c: K.Ctl, done: seq<K.Req>)
    requires Inv(w) && Shuffled(w) && w.maxactive == 1 && Holds(w, h) && K.KeepsOrCompletes(h, c, done)
    ensures OnlyLeave(w, Complete(w, done), K.Cmds(done))
  {
    hide Inv, Shuffled, Deletable, Delete;
    if done != [] {
      EarlyRanks(w, h.value);
      assert K.Cmds(done) == [h.value];
    }
  }

  lemma AnswerRanks(b: Both, r: K.Req, ts: nat -> K.Turn)
    requires Agree(b) && Enabled(b, Answer(r))
    ensures OnlyLeave(b.w, Next(b, Answer(r), ts).w, Leavers(b, Answer(r), ts))
  {
    hide Inv, Shuffled, K.Loop, K.KeepsOrCompletes, Complete;
    var o := K.HbaStart(b.c, r, ts, K.WATCHDOG);
    K.HbaStartTakes(b.c, r, ts, K.WATCHDOG);
    if o.started {
      CompleteRanks(b.w, Some(r.cmd), o.c, o.done);
    } else {
      CompleteNone(b.w);
    }
  }

  lemma CompleteNone(w: WaitQ)
    ensures Complete(w, []) == w
  {
  }

  lemma QuietRanks(b: Both, e: Event, ts: nat -> K.Turn)
    requires Agree(b) && Enabled(b, e) && !e.Submit? && !e.Answer?
    ensures OnlyLeave(b.w, Next(b, e, ts).w, Leavers(b, e, ts))
  {
    hide Inv, Shuffled, K.Loop, K.KeepsOrCompletes, Complete, Line, OtherLines;
    match e
    case TakeHead =>
    case Interrupt =>
      K.IntrKeepsOrCompletes(b.c, ts, K.WATCHDOG);
      var l := K.ProcessIntr(b.c, ts, K.WATCHDOG);
      CompleteRanks(b.w, K.Holder(b.c), l.c, l.done);
    case Reset(setup) =>
      K.ResetCompletes(b.c, ts, setup, K.WATCHDOG);
      var o := K.ResetBus(b.c, ts, setup, K.WATCHDOG);
      CompleteRanks(b.w, K.Holder(b.c), o.c, o.done);
    case EarlyEnd(x) =>
      EarlyRanks(b.w, x);
  }

  lemma EarlyRanks(w: WaitQ, x: Cmd)
    requires Inv(w) && Shuffled(w) && x in w.level
    ensures Deletable(w, x) && OnlyLeave(w, Delete(w, x), [x])
  {
    hide Line, OtherLines;
    OutstandingDeletable(w, x);
    DeleteRemoves(w, x);
  }

  /** The requests that were submitted in the first i steps, numbered as they came. */
  function Came(es: seq<Event>, i: nat): seq<Cmd>
    requires i <= |es|
  {
    if i == 0 then [] else
      var before := Came(es, i - 1);
      if es[i - 1].Submit? then before + [Cmd(|before|, es[i - 1].dev)] else before
  }

  /** The requests that left in the first i steps. */
  ghost function Gone(bs: seq<Both>, es: seq<Event>, turns: seq<nat -> K.Turn>, i: nat): seq<Cmd>
    requires i <= |es| && |es| <= |bs| && |es| <= |turns|
  {
    if i == 0 then [] else
      Gone(bs, es, turns, i - 1)
      + if Enabled(bs[i - 1], es[i - 1]) && K.Settled(bs[i - 1].c) then Leavers(bs[i - 1], es[i - 1], turns[i - 1])
        else []
  }

  lemma AccountedNext(b: Both, e: Event, ts: nat -> K.Turn, came: seq<Cmd>, gone: seq<Cmd>)
    requires Agree(b) && Enabled(b, e) && G.Accounted(b.w, came, gone)
    ensures G.Accounted(Next(b, e, ts).w, if e.Submit? then came + [Cmd(|came|, e.dev)] else came,
      gone + Leavers(b, e, ts))
  {
    hide Inv, Shuffled, G.Accounted, Line, OtherLines, Next, Leavers;
    var w' := Next(b, e, ts).w;
    if e.Submit? {
      SubmitRanks(b, e, ts);
      G.ComesAccounted(b.w, came, gone, w', e.dev);
      assert gone + [] == gone;
    } else {
      if e.Answer? { AnswerRanks(b, e.r, ts); } else { QuietRanks(b, e, ts); }
      LeavesAccounted(b.w, came, gone, w', Leavers(b, e, ts));
    }
  }

  lemma SubmitRanks(b: Both, e: Event, ts: nat -> K.Turn)
    requires Agree(b) && Enabled(b, e) && e.Submit?
    ensures var w' := Next(b, e, ts).w;
      w'.level.Keys == b.w.level.Keys + {Cmd(b.w.next, e.dev)} && w'.next == b.w.next + 1
    ensures Leavers(b, e, ts) == []
  {
    hide Inv, Shuffled, Line, OtherLines;
    TransportAdds(b.w, e.dev);
  }

  lemma LeavesAccounted(w: WaitQ, came: seq<Cmd>, gone: seq<Cmd>, w': WaitQ, left: seq<Cmd>)
    requires G.Accounted(w, came, gone) && OnlyLeave(w, w', left)
    ensures G.Accounted(w', came, gone + left)
  {
    hide G.Accounted;
    if left == [] {
      G.StaysAccounted(w, came, gone, w');
      assert gone + left == gone;
    } else {
      G.GoesAccounted(w, came, gone, w', left[0]);
      assert left == [left[0]];
    }
  }

  lemma Stepped(bs: seq<Both>, es: seq<Event>, turns: seq<nat -> K.Turn>, i: nat)
    requires Run(bs, es, turns) && 0 < i < |bs|
    ensures Agree(bs[i - 1]) && Enabled(bs[i - 1], es[i - 1]) && K.Settled(bs[i - 1].c)
    ensures bs[i] == Next(bs[i - 1], es[i - 1], turns[i - 1])
  {
    hide Agree, Next, Enabled;
    AlwaysAgree(bs, es, turns, i - 1);
    CountsTell(bs[i - 1]);
  }

  lemma RunLengths(bs: seq<Both>, es: seq<Event>, turns: seq<nat -> K.Turn>)
    requires Run(bs, es, turns)
    ensures |bs| == |es| + 1 && |turns| == |es|
  {
  }

  lemma NoneYet(bs: seq<Both>, es: seq<Event>, turns: seq<nat -> K.Turn>)
    requires Run(bs, es, turns)
    ensures AccountedAt(bs, es, turns, 0)
  {
    hide Next, Enabled;
  }

  lemma GoneNext(bs: seq<Both>, es: seq<Event>, turns: seq<nat -> K.Turn>, i: nat)
    requires 0 < i <= |es| && |es| <= |bs| && |es| <= |turns|
    requires Enabled(bs[i - 1], es[i - 1]) && K.Settled(bs[i - 1].c)
    ensures Gone(bs, es, turns, i) == Gone(bs, es, turns, i - 1) + Leavers(bs[i - 1], es[i - 1], turns[i - 1])
    ensures var before, e := Came(es, i - 1), es[i - 1];
      Came(es, i) == if e.Submit? then before + [Cmd(|before|, e.dev)] else before
  {
    hide Enabled, Leavers, K.Settled;
  }

  /** The outstanding requests after i steps are exactly those that came and did not leave. */
  ghost predicate AccountedAt(bs: seq<Both>, es: seq<Event>, turns: seq<nat -> K.Turn>, i: nat)
    requires i <= |es| < |bs| && |es| == |turns|
  {
    G.Accounted(bs[i].w, Came(es, i), Gone(bs, es, turns, i))
  }

  lemma NextAccounted(bs: seq<Both>, es: seq<Event>, turns: seq<nat -> K.Turn>, i: nat)
    requires Run(bs, es, turns) && 0 < i < |bs|
    requires AccountedAt(bs, es, turns, i - 1)
    ensures AccountedAt(bs, es, turns, i)
  {
    Stepped(bs, es, turns, i);
    GoneNext(bs, es, turns, i);
    hide Run, Agree, Enabled, Next, Leavers, Came, Gone, K.Settled, G.Accounted;
    AccountedNext(bs[i - 1], es[i - 1], turns[i - 1], Came(es, i - 1), Gone(bs, es, turns, i - 1));
  }

  /** Over any run of the two layers, every request that was submitted is outstanding until the controller
      completes it or it is ended early, one of the two, and once. */
  lemma {:induction false} NoneLost(bs: seq<Both>, es: seq<Event>, turns: seq<nat -> K.Turn>, i: nat)
    requires Run(bs, es, turns) && i < |bs|
    ensures AccountedAt(bs, es, turns, i)
  {
    RunLengths(bs, es, turns);
    hide *;
    if i == 0 {
      NoneYet(bs, es, turns);
    } else {
      NoneLost(bs, es, turns, i - 1);
      NextAccounted(bs, es, turns, i);
    }
  }
}
