/**
  The locking protocol of the generic host adapter layer (dktp/hba/ghd/ghd.c, ghd_waitq.c).

  Any number of threads submit requests (sol11ghd_transport) and enter the driver under the adapter's
  mutex: interrupts, polls, aborts, resets and timeouts.  A thread's actions between two lock
  operations are one step here, and a run is any interleaving of steps.  The point of the protocol is
  that a request put on a queue is never forgotten there, although sol11ghd_transport only tries to
  get the adapter's mutex and leaves when it cannot.
 */
module Ghd {
  import opened Options
  import opened Seqs
  import opened WaitQueues

  /** Where a thread is. */
  datatype Pc =
    | Idle
    | TrWait(dev: nat)   // sol11ghd_transport before mutex_enter of the waitq mutex
    | TrTry              // queued and shuffled up, waitq mutex held: about to try the adapter's mutex
    | TrFail             // it was not available; waitq mutex still held
    | HWait              // before mutex_enter of the adapter's mutex
    | HOwn               // adapter's mutex held
    | Loop               // both held: at the top of sol11ghd_waitq_process_and_mutex_hold
    | Starting           // adapter's mutex held: in the start function
    | Answered(ok: bool) // it returned; before mutex_enter of the waitq mutex
    | Leaving            // both held: the two mutex_exit calls come next
    | LastHba            // one of them is done, and this one is still held
    | LastWaitq

  /** The order of those two calls: as the driver has it, or the other way round. */
  datatype Order = HbaFirst | WaitqFirst

  datatype Sys = Sys(w: WaitQ, gate: Gate, rejected: Option<Cmd>, pc: map<nat, Pc>,
                     hba: Option<nat>, waitq: Option<nat>)

  /** What a thread does next. */
  datatype Event =
    | Submit(dev: nat)        // a non-polled sol11ghd_transport call
    | Queue                   // mutex_enter(waitq), add to the device queue, shuffle up
    | TryHba                  // mutex_tryenter
    | GiveUp                  // mutex_exit(waitq) after a failed try
    | Enter                   // an interrupt, poll, abort, reset, timeout or polled request
    | GetHba                  // mutex_enter(hba)
    | Complete(c: Cmd)        // sol11ghd_complete or an early abort: sol11ghd_waitq_delete
    | QueuePolled(dev: nat)   // the polled sol11ghd_transport
    | SetGate(held: bool, frozen: bool) // ghd_freeze_waitq, ghd_queue_hold, ghd_queue_unhold
    | GetWaitq                // mutex_enter(waitq) before the start loop
    | StartNext(thawed: bool) // a pass of the start loop that reaches the start function
    | Answer(ok: bool)        // the start function returns
    | Resume(stay: bool)      // mutex_enter(waitq) after it; a refused request goes back and ends the loop
    | Stop(thawed: bool, stay: bool) // the loop ends: keep the adapter, or go
    | ExitHba
    | ExitWaitq

  predicate HoldsHba(p: Pc) { p.HOwn? || p.Loop? || p.Starting? || p.Answered? || p.Leaving? || p.LastHba? }

  predicate HoldsWaitq(p: Pc) { p.TrTry? || p.TrFail? || p.Loop? || p.Leaving? || p.LastWaitq? }

  /** Whether thread t can do e. */
  ghost predicate Enabled(s: Sys, t: nat, e: Event, order: Order) {
    && t in s.pc
    && var p := s.pc[t];
    match e
    case Submit(d) => p.Idle? && d in s.w.devs
    case Queue => p.TrWait? && s.waitq.None? && p.dev in s.w.devs && Known(s.w.devs[p.dev].q, p.dev, s.w.level)
    case TryHba => p.TrTry?
    case GiveUp => p.TrFail?
    case Enter => p.Idle?
    case GetHba => p.HWait? && s.hba.None?
    case Complete(c) => (p.HOwn? || p.Starting?) && s.waitq.None? && Deletable(s.w, c)
    case QueuePolled(d) => p.HOwn? && s.waitq.None? && d in s.w.devs && Known(s.w.devs[d].q, d, s.w.level)
    case SetGate(_, _) => p.HOwn? && s.waitq.None?
    case GetWaitq => p.HOwn? && s.waitq.None?
    case StartNext(thawed) => p.Loop? && MayStart(s.w, s.gate, thawed) && s.w.hq[0] in s.w.level
    case Answer(ok) =>
      // a request the start function says it did not take is still there
      p.Starting? && (!ok ==>
        s.w.starting.Some? && s.w.starting.value in s.w.level && s.w.level[s.w.starting.value] == 3)
    case Resume(stay) =>
      p.Answered? && s.waitq.None?
      && (!p.ok ==> s.w.starting.Some? && s.w.starting.value in s.w.level && s.w.level[s.w.starting.value] > 0)
    case Stop(thawed, stay) => p.Loop? && !MayStart(s.w, s.gate, thawed)
    case ExitHba => (p.Leaving? && order.HbaFirst?) || p.LastHba?
    case ExitWaitq => (p.Leaving? && order.WaitqFirst?) || p.LastWaitq?
  }

  /** The step. */
  ghost function Next(s: Sys, t: nat, e: Event, order: Order): Sys
    requires Enabled(s, t, e, order)
  {
    var p := s.pc[t];
    match e
    case Submit(d) => s.(pc := s.pc[t := TrWait(d)])
    case Queue => s.(pc := s.pc[t := TrTry], waitq := Some(t), w := Transport(s.w, p.dev))
    case TryHba =>
      if s.hba.None? then s.(pc := s.pc[t := Loop], hba := Some(t), rejected := None) else s.(pc := s.pc[t := TrFail])
    case GiveUp => s.(pc := s.pc[t := Idle], waitq := None)
    case Enter => s.(pc := s.pc[t := HWait])
    case GetHba => s.(pc := s.pc[t := HOwn], hba := Some(t))
    case Complete(c) => s.(w := Delete(s.w, c))
    case QueuePolled(d) => s.(w := Transport(s.w, d))
    case SetGate(held, frozen) => s.(gate := Gate(held, frozen))
    case GetWaitq => s.(pc := s.pc[t := Loop], waitq := Some(t), rejected := None)
    case StartNext(thawed) =>
      s.(pc := s.pc[t := Starting], waitq := None, w := StartHead(s.w), gate := s.gate.(frozen := false))
    case Answer(ok) => s.(pc := s.pc[t := Answered(ok)], w := if ok then Accept(s.w) else s.w)
    case Resume(stay) =>
      if p.ok then s.(pc := s.pc[t := Loop], waitq := Some(t))
      else
        var s1 := s.(rejected := s.w.starting, w := Requeue(s.w));
        if stay then s1.(pc := s.pc[t := HOwn]) else s1.(pc := s.pc[t := Leaving], waitq := Some(t))
    case Stop(thawed, stay) =>
      if stay then s.(pc := s.pc[t := HOwn], waitq := None) else s.(pc := s.pc[t := Leaving])
    case ExitHba =>
      s.(pc := s.pc[t := if p.Leaving? then LastWaitq else Idle], hba := None)
    case ExitWaitq =>
      s.(pc := s.pc[t := if p.Leaving? then LastHba else Idle], waitq := None)
  }

  // ---------------------------------------------------------------- locks and wake-ups

  /** The mutexes are held by the threads whose position says so, and by no others. */
  ghost predicate Locked(s: Sys) {
    && (s.hba.Some? ==> s.hba.value in s.pc)
    && (s.waitq.Some? ==> s.waitq.value in s.pc)
    && forall t :: t in s.pc ==>
         (HoldsHba(s.pc[t]) <==> s.hba == Some(t)) && (HoldsWaitq(s.pc[t]) <==> s.waitq == Some(t))
  }

  predicate Held(s: Sys) { Blocked(s.w, s.gate, s.rejected) }

  /** Nobody who could start requests has left while some could be started. */
  ghost predicate NoneForgotten(s: Sys) {
    && (s.hba.None? && s.waitq.None? ==> Held(s))
    && (s.hba.None? && s.waitq.Some? && s.waitq.value in s.pc ==>
         s.pc[s.waitq.value].TrTry? || (s.pc[s.waitq.value].LastWaitq? && Held(s)))
    && (forall t :: t in s.pc ==>
         (s.pc[t].TrFail? ==> s.hba.Some?) && (s.pc[t].Leaving? ==> Held(s)) && !s.pc[t].LastHba?)
  }

  /** A move of thread t to p, with the mutexes as p says. */
  lemma LockedMove(s: Sys, t: nat, p: Pc, hba: Option<nat>, waitq: Option<nat>)
    requires Locked(s) && t in s.pc
    requires hba == (if HoldsHba(p) then Some(t) else if HoldsHba(s.pc[t]) then None else s.hba)
    requires waitq == (if HoldsWaitq(p) then Some(t) else if HoldsWaitq(s.pc[t]) then None else s.waitq)
    requires HoldsHba(p) ==> HoldsHba(s.pc[t]) || s.hba.None?
    requires HoldsWaitq(p) ==> HoldsWaitq(s.pc[t]) || s.waitq.None?
    ensures Locked(s.(pc := s.pc[t := p], hba := hba, waitq := waitq))
  {
  }

  lemma LockedKept(s: Sys, t: nat, e: Event, order: Order)
    requires Locked(s) && Enabled(s, t, e, order)
    ensures Locked(Next(s, t, e, order))
  {
    var s' := Next(s, t, e, order);
    LockedMove(s, t, s'.pc[t], s'.hba, s'.waitq);
  }

  lemma NoneForgottenKept(s: Sys, t: nat, e: Event)
    requires Locked(s) && NoneForgotten(s) && Enabled(s, t, e, HbaFirst)
    ensures NoneForgotten(Next(s, t, e, HbaFirst))
  {
  }

  // ---------------------------------------------------------------- the queues along a run

  /** The thread in the start function, or back from it with a refusal, is the one the queues know of. */
  ghost predicate Offered(s: Sys) {
    && (s.w.starting.Some? <==>
         s.hba.Some? && s.hba.value in s.pc && (s.pc[s.hba.value].Starting? || s.pc[s.hba.value] == Answered(false)))
    && (s.hba.Some? && s.hba.value in s.pc && s.pc[s.hba.value] == Answered(false) && s.w.starting.Some? ==>
         s.w.starting.value in s.w.level && s.w.level[s.w.starting.value] == 3)
  }

  ghost predicate Submitted(s: Sys) {
    forall t :: t in s.pc && s.pc[t].TrWait? ==> s.pc[t].dev in s.w.devs
  }

  ghost predicate QueuesKept(s: Sys) { Inv(s.w) && Shuffled(s.w) && Offered(s) && Submitted(s) }

  /** What a request submitted or completed by another thread leaves alone. */
  ghost predicate Undisturbed(w: WaitQ, w': WaitQ) {
    && w'.starting == w.starting && (forall d :: d in w.devs ==> d in w'.devs)
    && (forall c :: c in w.level && w.level[c] == 3 ==> c in w'.level && w'.level[c] == 3)
  }

  lemma TransportUndisturbed(w: WaitQ, d: nat)
    requires Inv(w) && Shuffled(w) && d in w.devs && Known(w.devs[d].q, d, w.level)
    ensures var w' := Transport(w, d); Inv(w') && Shuffled(w') && Undisturbed(w, w')
  {
    TransportKeeps(w, d);
    MovesUpUndisturbed(w, d, Enqueue(w, d), Transport(w, d));
  }

  lemma MovesUpUndisturbed(w: WaitQ, d: nat, w1: WaitQ, w': WaitQ)
    requires Placed(w) && d in w.devs && w1 == Enqueue(w, d) && OnlyMovesUp(w1, d, w')
    ensures Undisturbed(w, w')
  {
    assert Cmd(w.next, d) !in w.level;
  }

  lemma DeleteUndisturbed(w: WaitQ, c: Cmd)
    requires Inv(w) && Shuffled(w) && Deletable(w, c)
    ensures var w' := Delete(w, c);
      && Inv(w') && Shuffled(w') && w'.starting == w.starting && (forall d :: d in w.devs ==> d in w'.devs)
  {
    DeleteKeeps(w, c);
    assert forall d :: d in w.devs <==> d in Unlink(w, c).devs;
  }

  lemma QueuesNext(s: Sys, t: nat, e: Event, order: Order)
    requires Locked(s) && QueuesKept(s) && Enabled(s, t, e, order)
    ensures Inv(Next(s, t, e, order).w) && Shuffled(Next(s, t, e, order).w)
  {
    match e
    case Queue => TransportKeeps(s.w, s.pc[t].dev);
    case QueuePolled(d) => TransportKeeps(s.w, d);
    case Complete(c) => DeleteKeeps(s.w, c);
    case StartNext(thawed) => StartHeadKeeps(s.w);
    case Answer(ok) => if ok { NothingElseStarted(s.w); AcceptKeeps(s.w); }
    case Resume(stay) => if !s.pc[t].ok { RequeueKeeps(s.w); }
    case _ =>
  }

  /** A thread that is not offering a request changes the queues under it. */
  lemma OfferedAfter(s: Sys, t: nat, p: Pc, w': WaitQ, waitq': Option<nat>)
    requires Locked(s) && Offered(s) && Submitted(s) && Undisturbed(s.w, w') && t in s.pc
    requires !p.Starting? && !p.Answered? && !p.TrWait? && !s.pc[t].Starting? && !s.pc[t].Answered?
    ensures var s' := s.(pc := s.pc[t := p], w := w', waitq := waitq'); Offered(s') && Submitted(s')
  {
  }

  lemma SamePc(s: Sys, t: nat)
    requires t in s.pc
    ensures s.(pc := s.pc[t := s.pc[t]]) == s
  {
  }

  lemma OfferedDelete(s: Sys, t: nat, w': WaitQ)
    requires Locked(s) && Offered(s) && Submitted(s) && t in s.pc && (s.pc[t].HOwn? || s.pc[t].Starting?)
    requires w'.starting == s.w.starting && forall d :: d in s.w.devs ==> d in w'.devs
    ensures Offered(s.(w := w')) && Submitted(s.(w := w'))
  {
  }

  lemma OfferedQuiet(s: Sys, t: nat, e: Event, order: Order)
    requires Locked(s) && Offered(s) && Submitted(s) && Enabled(s, t, e, order)
    requires !e.Queue? && !e.QueuePolled? && !e.Complete?
    ensures Offered(Next(s, t, e, order)) && Submitted(Next(s, t, e, order))
  {
  }

  lemma OfferedNext(s: Sys, t: nat, e: Event, order: Order)
    requires Locked(s) && QueuesKept(s) && Enabled(s, t, e, order)
    ensures Offered(Next(s, t, e, order)) && Submitted(Next(s, t, e, order))
  {
    match e
    case Queue =>
      TransportUndisturbed(s.w, s.pc[t].dev);
      OfferedAfter(s, t, TrTry, Transport(s.w, s.pc[t].dev), Some(t));
    case QueuePolled(d) =>
      TransportUndisturbed(s.w, d);
      OfferedAfter(s, t, HOwn, Transport(s.w, d), s.waitq);
      SamePc(s, t);
    case Complete(c) =>
      DeleteUndisturbed(s.w, c);
      OfferedDelete(s, t, Delete(s.w, c));
    case _ => OfferedQuiet(s, t, e, order);
  }

  // ---------------------------------------------------------------- runs

  datatype Move = Move(thread: nat, event: Event)

  /** An interleaving: states[i+1] follows from states[i] by moves[i]. */
  ghost predicate Run(states: seq<Sys>, moves: seq<Move>, order: Order) {
    && |states| == |moves| + 1
    && forall i :: 0 <= i < |moves| ==>
      && Enabled(states[i], moves[i].thread, moves[i].event, order)
      && states[i + 1] == Next(states[i], moves[i].thread, moves[i].event, order)
  }

  /** Nothing submitted yet, every thread outside the driver. */
  ghost predicate Initial(s: Sys) {
    && s.hba.None? && s.waitq.None? && s.w.hq == [] && s.w.level == map[] && s.w.firsts == [] && s.w.next == 0
    && s.w.nactive == 0 <= s.w.maxactive && s.w.starting.None?
    && (forall d :: d in s.w.devs ==> s.w.devs[d].q == [] && s.w.devs[d].nactive == 0)
    && (forall t :: t in s.pc ==> s.pc[t].Idle?)
  }

  lemma InitialKept(s: Sys)
    requires Initial(s)
    ensures Locked(s) && NoneForgotten(s) && QueuesKept(s)
  {
    EmptyInv(s.w.devs, s.w.maxactive);
    assert Started(s.w.level) == {};
    forall d | d in s.w.devs ensures |Promoted(s.w.level, d)| == 0 { assert Promoted(s.w.level, d) == {}; }
  }

  lemma {:induction false} RunKeepsQueues(states: seq<Sys>, moves: seq<Move>, order: Order, i: nat)
    requires Run(states, moves, order) && Initial(states[0]) && i < |states|
    ensures Locked(states[i]) && QueuesKept(states[i])
  {
    if i == 0 {
      InitialKept(states[0]);
    } else {
      RunKeepsQueues(states, moves, order, i - 1);
      LockedKept(states[i - 1], moves[i - 1].thread, moves[i - 1].event, order);
      QueuesNext(states[i - 1], moves[i - 1].thread, moves[i - 1].event, order);
      OfferedNext(states[i - 1], moves[i - 1].thread, moves[i - 1].event, order);
    }
  }

  // Who is in the driver's hands: everyone who came and did not go.

  /** The device of the request that a move puts on a queue. */
  ghost function Arrival(s: Sys, m: Move): Option<nat> {
    if m.event.QueuePolled? then Some(m.event.dev)
    else if m.event.Queue? && m.thread in s.pc && s.pc[m.thread].TrWait? then Some(s.pc[m.thread].dev)
    else None
  }

  /** The requests that came with the first i moves, numbered as they came. */
  ghost function Came(states: seq<Sys>, moves: seq<Move>, i: nat): seq<Cmd>
    requires i <= |moves| < |states|
  {
    if i == 0 then [] else
      var before, dev := Came(states, moves, i - 1), Arrival(states[i - 1], moves[i - 1]);
      if dev.None? then before else before + [Cmd(|before|, dev.value)]
  }

  /** The requests that were completed or ended early by the first i moves. */
  ghost function Gone(moves: seq<Move>, i: nat): seq<Cmd>
    requires i <= |moves|
  {
    if i == 0 then [] else Gone(moves, i - 1) + (if moves[i - 1].event.Complete? then [moves[i - 1].event.c] else [])
  }

  /** What one move changes about who is outstanding. */
  lemma RanksNext(s: Sys, m: Move, order: Order)
    requires QueuesKept(s) && Enabled(s, m.thread, m.event, order)
    ensures var w', dev := Next(s, m.thread, m.event, order).w, Arrival(s, m);
      && (dev.Some? ==> !m.event.Complete? && w'.next == s.w.next + 1)
      && (dev.Some? ==> w'.level.Keys == s.w.level.Keys + {Cmd(s.w.next, dev.value)})
      && (m.event.Complete? ==> m.event.c in s.w.level && w'.level.Keys == s.w.level.Keys - {m.event.c})
      && (dev.None? ==> w'.next == s.w.next)
      && (dev.None? && !m.event.Complete? ==> w'.level.Keys == s.w.level.Keys)
  {
    hide Inv, Shuffled, Line, OtherLines, Transport, Delete, Offered, Submitted;
    match m.event
    case Queue => TransportAdds(s.w, s.pc[m.thread].dev);
    case QueuePolled(d) => TransportAdds(s.w, d);
    case Complete(c) => DeleteRemoves(s.w, c);
    case _ =>
  }

  /** Came and gone: numbered without a gap, gone once and only after coming, and outstanding in between. */
  ghost predicate Accounted(w: WaitQ, came: seq<Cmd>, gone: seq<Cmd>) {
    && |came| == w.next && (forall k :: 0 <= k < |came| ==> came[k].id == k)
    && NoDup(gone) && (forall c :: c in gone ==> c in came)
    && forall c :: c in w.level <==> c in came && c !in gone
  }

  lemma ComesAccounted(w: WaitQ, came: seq<Cmd>, gone: seq<Cmd>, w': WaitQ, d: nat)
    requires Accounted(w, came, gone)
    requires w'.level.Keys == w.level.Keys + {Cmd(w.next, d)} && w'.next == w.next + 1
    ensures Accounted(w', came + [Cmd(|came|, d)], gone)
  {
    var c := Cmd(w.next, d);
    assert c !in came;
    assert forall x :: x in came + [c] <==> x in came || x == c;
    assert forall x :: x in w'.level <==> x in w'.level.Keys;
  }

  lemma GoesAccounted(w: WaitQ, came: seq<Cmd>, gone: seq<Cmd>, w': WaitQ, c: Cmd)
    requires Accounted(w, came, gone) && c in w.level
    requires w'.level.Keys == w.level.Keys - {c} && w'.next == w.next
    ensures Accounted(w', came, gone + [c])
  {
    assert c !in gone;
    assert forall x :: x in gone + [c] <==> x in gone || x == c;
    assert forall x :: x in w'.level <==> x in w'.level.Keys;
  }

  lemma StaysAccounted(w: WaitQ, came: seq<Cmd>, gone: seq<Cmd>, w': WaitQ)
    requires Accounted(w, came, gone) && w'.level.Keys == w.level.Keys && w'.next == w.next
    ensures Accounted(w', came, gone)
  {
    assert forall x :: x in w'.level <==> x in w'.level.Keys;
  }

  lemma AccountedNext(s: Sys, m: Move, order: Order, came: seq<Cmd>, gone: seq<Cmd>)
    requires QueuesKept(s) && Enabled(s, m.thread, m.event, order) && Accounted(s.w, came, gone)
    ensures var dev := Arrival(s, m);
      Accounted(Next(s, m.thread, m.event, order).w,
        if dev.None? then came else came + [Cmd(|came|, dev.value)],
        gone + if m.event.Complete? then [m.event.c] else [])
  {
    RanksNext(s, m, order);
    var w' := Next(s, m.thread, m.event, order).w;
    hide QueuesKept, Enabled, Next, Accounted;
    if Arrival(s, m).Some? {
      ComesAccounted(s.w, came, gone, w', Arrival(s, m).value);
      assert gone + [] == gone;
    } else if m.event.Complete? {
      GoesAccounted(s.w, came, gone, w', m.event.c);
    } else {
      StaysAccounted(s.w, came, gone, w');
      assert gone + [] == gone;
    }
  }

  /** The move that leads to the i-th state. */
  lemma Stepped(states: seq<Sys>, moves: seq<Move>, order: Order, i: nat)
    requires Run(states, moves, order) && 0 < i < |states|
    ensures var s, m := states[i - 1], moves[i - 1];
      Enabled(s, m.thread, m.event, order) && states[i] == Next(s, m.thread, m.event, order)
  {
    hide Enabled, Next;
  }

  /** In every interleaving the outstanding requests are exactly those that came and did not go, and none goes
      twice. */
  lemma {:induction false} NoneLost(states: seq<Sys>, moves: seq<Move>, order: Order, i: nat)
    requires Run(states, moves, order) && Initial(states[0]) && i < |states|
    ensures Accounted(states[i].w, Came(states, moves, i), Gone(moves, i))
  {
    if i > 0 {
      NoneLost(states, moves, order, i - 1);
      RunKeepsQueues(states, moves, order, i - 1);
      Stepped(states, moves, order, i);
      hide Run, Initial, QueuesKept, Enabled, Next, Accounted, Locked, Arrival;
      AccountedNext(states[i - 1], moves[i - 1], order, Came(states, moves, i - 1), Gone(moves, i - 1));
    }
  }

  // Who is with the adapter: those that its start function took.

  /** The requests that the start function said yes to within the first i moves. */
  ghost function Took(states: seq<Sys>, moves: seq<Move>, i: nat): seq<Cmd>
    requires i <= |moves| < |states|
  {
    if i == 0 then [] else
      var w, e := states[i - 1].w, moves[i - 1].event;
      Took(states, moves, i - 1) + (if e.Answer? && e.ok && w.starting.Some? then [w.starting.value] else [])
  }

  /** A request that is outstanding is with the adapter if it was taken or is being offered, and only then. */
  ghost predicate WithAdapter(w: WaitQ, took: seq<Cmd>) {
    && (forall c :: c in w.level ==> (w.level[c] == 3 <==> c in took || w.starting == Some(c)))
    && (forall c :: c in took ==> c.id < w.next)
    && (w.starting.Some? ==> w.starting.value !in took)
  }

  lemma TransportStarts(w: WaitQ, d: nat, took: seq<Cmd>)
    requires Inv(w) && Shuffled(w) && d in w.devs && Known(w.devs[d].q, d, w.level) && WithAdapter(w, took)
    ensures WithAdapter(Transport(w, d), took)
  {
    hide Line, OtherLines;
    var w1 := Enqueue(w, d);
    TransportAdds(w, d);
    EnqueueKeeps(w, d);
    EnqueueOthers(w, d);
    NewNotOffered(w, d);
    forall c | c in Transport(w, d).level
      ensures Transport(w, d).level[c] == 3 <==> c in took || w.starting == Some(c)
    {
      assert c in w1.level.Keys;
      ShuffleStarts(w1, d, c);
    }
    hide Inv, Shuffled, ShuffleUp;
  }

  lemma NewNotOffered(w: WaitQ, d: nat)
    requires Inv(w)
    ensures Cmd(w.next, d) !in w.level && w.starting != Some(Cmd(w.next, d))
  {
  }

  lemma UnlinkLeaves(w: WaitQ, c: Cmd, x: Cmd)
    requires c in w.level && c.dev in w.devs && x in w.level && x != c
    ensures var w1 := Unlink(w, c); x in w1.level && w1.level[x] == w.level[x] && c.dev in w1.devs
  {
  }

  /** What is left after a removal is where it was, or promoted. */
  lemma DeleteStartsNone(w: WaitQ, c: Cmd, x: Cmd)
    requires Inv(w) && Deletable(w, c) && x in w.level && x != c
    ensures var w' := Delete(w, c); x in w'.level && (w'.level[x] == 3 <==> w.level[x] == 3)
  {
    UnlinkKeeps(w, c);
    UnlinkLeaves(w, c, x);
    hide Inv, Unlink, Known, ShuffleUp;
    ShuffleStarts(Unlink(w, c), c.dev, x);
  }

  lemma DeleteStarts(w: WaitQ, c: Cmd, took: seq<Cmd>)
    requires Inv(w) && Shuffled(w) && Deletable(w, c) && WithAdapter(w, took)
    ensures WithAdapter(Delete(w, c), took)
  {
    hide Line, OtherLines, Inv, Shuffled, Deletable, Delete;
    var w' := Delete(w, c);
    DeleteRemoves(w, c);
    forall x | x in w'.level ensures w'.level[x] == 3 <==> x in took || w.starting == Some(x) {
      assert x in w'.level.Keys;
      DeleteStartsNone(w, c, x);
    }
  }

  lemma HeadStarts(w: WaitQ, took: seq<Cmd>)
    requires Placed(w) && w.hq != [] && w.starting.None? && WithAdapter(w, took)
    ensures w.hq[0] in w.level && WithAdapter(StartHead(w), took)
  {
    assert w.hq[0] in w.hq && w.level[w.hq[0]] == 2;
    hide Placed;
  }

  lemma YesStarts(w: WaitQ, took: seq<Cmd>)
    requires StartsOrdered(w) && w.starting.Some? && WithAdapter(w, took)
    ensures WithAdapter(Accept(w), took + [w.starting.value])
  {
    var c := w.starting.value;
    assert c in w.firsts && c.id < w.next;
    hide StartsOrdered;
    assert forall x :: x in took + [c] <==> x in took || x == c;
  }

  lemma NoStarts(w: WaitQ, took: seq<Cmd>)
    requires w.starting.Some? && w.starting.value in w.level && w.level[w.starting.value] == 3 && WithAdapter(w, took)
    ensures WithAdapter(Requeue(w), took)
  {
  }

  /** What an event other than a submission or a completion does to the queues. */
  lemma QuietSteps(s: Sys, m: Move, order: Order)
    requires Locked(s) && Offered(s) && Enabled(s, m.thread, m.event, order)
    requires !m.event.Queue? && !m.event.QueuePolled? && !m.event.Complete?
    ensures var w, w', e := s.w, Next(s, m.thread, m.event, order).w, m.event;
      && (e.StartNext? ==> w.starting.None? && w.hq != [] && w.hq[0] in w.level && w' == StartHead(w))
      && (e.Answer? && e.ok ==> w.starting.Some? && w' == Accept(w))
      && (e.Resume? && w' != w ==>
           w.starting.Some? && w.starting.value in w.level && w.level[w.starting.value] == 3 && w' == Requeue(w))
      && (!e.StartNext? && !(e.Answer? && e.ok) && !e.Resume? ==> w' == w)
  {
  }

  lemma StartsNext(s: Sys, m: Move, order: Order, took: seq<Cmd>)
    requires Locked(s) && QueuesKept(s) && Enabled(s, m.thread, m.event, order) && WithAdapter(s.w, took)
    ensures var e := m.event;
      WithAdapter(Next(s, m.thread, e, order).w,
        took + if e.Answer? && e.ok && s.w.starting.Some? then [s.w.starting.value] else [])
  {
    assert took + [] == took;
    match m.event
    case Queue => TransportStarts(s.w, s.pc[m.thread].dev, took);
    case QueuePolled(d) => TransportStarts(s.w, d, took);
    case Complete(c) => DeleteStarts(s.w, c, took);
    case _ =>
      QuietSteps(s, m, order);
      QuietStarts(s.w, m.event, Next(s, m.thread, m.event, order).w, took);
  }

  lemma QuietStarts(w: WaitQ, e: Event, w': WaitQ, took: seq<Cmd>)
    requires Inv(w) && WithAdapter(w, took)
    requires e.StartNext? ==> w.starting.None? && w.hq != [] && w.hq[0] in w.level && w' == StartHead(w)
    requires e.Answer? && e.ok ==> w.starting.Some? && w' == Accept(w)
    requires e.Resume? && w' != w ==>
      w.starting.Some? && w.starting.value in w.level && w.level[w.starting.value] == 3 && w' == Requeue(w)
    requires !e.StartNext? && !(e.Answer? && e.ok) && !e.Resume? ==> w' == w
    ensures WithAdapter(w', took + if e.Answer? && e.ok && w.starting.Some? then [w.starting.value] else [])
  {
    hide WithAdapter, Placed, Counted, QueuesOrdered, StartsOrdered;
    assert took + [] == took;
    if e.StartNext? {
      HeadStarts(w, took);
    } else if e.Answer? && e.ok {
      YesStarts(w, took);
    } else if e.Resume? && w' != w {
      NoStarts(w, took);
    }
  }

  /** In every interleaving the requests at level 3 are those that the start function took and the one it is being
      offered: one that it refuses is not left there. */
  lemma {:induction false} StartedMeansTaken(states: seq<Sys>, moves: seq<Move>, order: Order, i: nat)
    requires Run(states, moves, order) && Initial(states[0]) && i < |states|
    ensures WithAdapter(states[i].w, Took(states, moves, i))
  {
    if i > 0 {
      StartedMeansTaken(states, moves, order, i - 1);
      RunKeepsQueues(states, moves, order, i - 1);
      Stepped(states, moves, order, i);
      hide Run, Initial, QueuesKept, Enabled, Next, WithAdapter, Locked;
      StartsNext(states[i - 1], moves[i - 1], order, Took(states, moves, i - 1));
    }
  }

  // Holding and freezing.

  /** What the calls that hold, freeze and release the queue have come to: a start thaws it. */
  function GateAt(g0: Gate, moves: seq<Move>, i: nat): Gate
    requires i <= |moves|
  {
    if i == 0 then g0 else
      match moves[i - 1].event
      case SetGate(held, frozen) => Gate(held, frozen)
      case StartNext(_) => GateAt(g0, moves, i - 1).(frozen := false)
      case _ => GateAt(g0, moves, i - 1)
  }

  lemma GateNext(s: Sys, m: Move, order: Order)
    requires Enabled(s, m.thread, m.event, order)
    ensures Next(s, m.thread, m.event, order).gate ==
      match m.event
      case SetGate(held, frozen) => Gate(held, frozen)
      case StartNext(_) => s.gate.(frozen := false)
      case _ => s.gate
  {
  }

  lemma {:induction false} GateFollows(states: seq<Sys>, moves: seq<Move>, order: Order, i: nat)
    requires Run(states, moves, order) && i < |states|
    ensures states[i].gate == GateAt(states[0].gate, moves, i)
  {
    if i > 0 {
      GateFollows(states, moves, order, i - 1);
      Stepped(states, moves, order, i);
      hide Run, Enabled, Next;
      GateNext(states[i - 1], moves[i - 1], order);
    }
  }

  /** Nothing is handed to the start function while the queue is held, nor while it is frozen and has not waited
      long enough, nor beyond the adapter's throttle; and what is handed over is the head of the queue. */
  lemma StartsOnlyWhenOpen(states: seq<Sys>, moves: seq<Move>, order: Order, i: nat)
    requires Run(states, moves, order) && i < |moves| && moves[i].event.StartNext?
    ensures var w, w', gate := states[i].w, states[i + 1].w, GateAt(states[0].gate, moves, i);
      && !gate.held && (gate.frozen ==> moves[i].event.thawed) && w.nactive < w.maxactive
      && w.hq != [] && w'.starting == Some(w.hq[0]) && w'.hq == w.hq[1..] && w'.nactive == w.nactive + 1
  {
    GateFollows(states, moves, order, i);
    Stepped(states, moves, order, i + 1);
  }

  // Every call of sol11ghd_transport brings one request, for the device it named.

  /** How many of the first i moves call sol11ghd_transport for device d. */
  function Calls(moves: seq<Move>, d: nat, i: nat): nat
    requires i <= |moves|
  {
    if i == 0 then 0 else
      var e := moves[i - 1].event;
      Calls(moves, d, i - 1) + (if e == Submit(d) || e == QueuePolled(d) then 1 else 0)
  }

  /** The threads that are about to queue a request for device d. */
  ghost function Bringing(pc: map<nat, Pc>, d: nat): set<nat> { set t | t in pc && pc[t] == TrWait(d) }

  lemma BringingMoves(pc: map<nat, Pc>, t: nat, p: Pc, d: nat)
    requires t in pc
    ensures |Bringing(pc[t := p], d)| == |Bringing(pc, d)| + One(p == TrWait(d)) - One(pc[t] == TrWait(d))
  {
    var now := Bringing(pc[t := p], d);
    assert now == if p == TrWait(d) then Bringing(pc, d) + {t} else Bringing(pc, d) - {t};
  }

  lemma BringingNext(s: Sys, m: Move, order: Order, d: nat)
    requires Enabled(s, m.thread, m.event, order)
    ensures |Bringing(Next(s, m.thread, m.event, order).pc, d)| + One(Arrival(s, m) == Some(d))
      == |Bringing(s.pc, d)| + One(m.event == Submit(d) || m.event == QueuePolled(d))
  {
    var t, pc' := m.thread, Next(s, m.thread, m.event, order).pc;
    BringingMoves(s.pc, t, pc'[t], d);
    assert pc' == s.pc[t := pc'[t]];
    hide Bringing, Transport, Delete;
  }

  lemma OneMore(before: seq<Cmd>, c: Cmd, d: nat)
    ensures |OfDev(before + [c], d)| == |OfDev(before, d)| + One(c.dev == d)
  {
    OfDevAppend(before, [c], d);
    OfDevOne(c, d);
  }

  lemma CallsNext(s: Sys, m: Move, order: Order, d: nat, before: seq<Cmd>)
    requires Enabled(s, m.thread, m.event, order)
    ensures var dev := Arrival(s, m);
      |OfDev(if dev.None? then before else before + [Cmd(|before|, dev.value)], d)|
        + |Bringing(Next(s, m.thread, m.event, order).pc, d)|
      == |OfDev(before, d)| + |Bringing(s.pc, d)| + One(m.event == Submit(d) || m.event == QueuePolled(d))
  {
    BringingNext(s, m, order, d);
    hide Enabled, Next, Bringing, Arrival, OfDev;
    if Arrival(s, m).Some? {
      OneMore(before, Cmd(|before|, Arrival(s, m).value), d);
    }
  }

  lemma NoneBringing(s: Sys, d: nat)
    requires Initial(s)
    ensures Bringing(s.pc, d) == {}
  {
  }

  /** The calls of sol11ghd_transport for a device are the requests that came for it and those on their way. */
  lemma {:induction false} CallsBring(states: seq<Sys>, moves: seq<Move>, order: Order, d: nat, i: nat)
    requires Run(states, moves, order) && Initial(states[0]) && i < |states|
    ensures Calls(moves, d, i) == |OfDev(Came(states, moves, i), d)| + |Bringing(states[i].pc, d)|
  {
    if i == 0 {
      NoneBringing(states[0], d);
      hide Run, Initial, Bringing;
    } else {
      CallsBring(states, moves, order, d, i - 1);
      Stepped(states, moves, order, i);
      hide Run, Initial, Enabled, Next, Bringing, Arrival, OfDev;
      CallsNext(states[i - 1], moves[i - 1], order, d, Came(states, moves, i - 1));
    }
  }

  /** Both mutexes exclude: two threads are never inside together. */
  lemma MutualExclusion(states: seq<Sys>, moves: seq<Move>, order: Order, i: nat, t: nat, u: nat)
    requires Run(states, moves, order) && Initial(states[0]) && i < |states|
    requires t in states[i].pc && u in states[i].pc
    requires (HoldsHba(states[i].pc[t]) && HoldsHba(states[i].pc[u]))
        || (HoldsWaitq(states[i].pc[t]) && HoldsWaitq(states[i].pc[u]))
    ensures t == u
  {
    RunKeepsQueues(states, moves, order, i);
  }

  lemma {:induction false} RunForgetsNone(states: seq<Sys>, moves: seq<Move>, i: nat)
    requires Run(states, moves, HbaFirst) && Initial(states[0]) && i < |states|
    ensures NoneForgotten(states[i])
  {
    if i == 0 {
      InitialKept(states[0]);
    } else {
      RunForgetsNone(states, moves, i - 1);
      RunKeepsLocks(states, moves, HbaFirst, i - 1);
      NoneForgottenKept(states[i - 1], moves[i - 1].thread, moves[i - 1].event);
    }
  }

  lemma RunKeepsLocks(states: seq<Sys>, moves: seq<Move>, order: Order, i: nat)
    requires Run(states, moves, order) && Initial(states[0]) && i < |states|
    ensures Locked(states[i])
  {
    RunKeepsQueues(states, moves, order, i);
  }

  /** In every interleaving, whenever both mutexes are free the adapter's queue is empty, throttled, held,
      frozen, or its head has just been refused. */
  lemma NoLostWakeup(states: seq<Sys>, moves: seq<Move>, i: nat)
    requires Run(states, moves, HbaFirst) && Initial(states[0]) && i < |states|
    ensures states[i].hba.None? && states[i].waitq.None? ==>
      Blocked(states[i].w, states[i].gate, states[i].rejected)
  {
    RunForgetsNone(states, moves, i);
  }

  /** So a request that waits anywhere waits for one the adapter has, whose completion will enter the
      driver again; the exceptions are a held or frozen queue and a refusal. */
  lemma NothingStranded(states: seq<Sys>, moves: seq<Move>, i: nat, c: Cmd)
    requires Run(states, moves, HbaFirst) && Initial(states[0]) && i < |states|
    requires var s := states[i];
      && s.hba.None? && s.waitq.None? && !s.gate.held && !s.gate.frozen && s.w.maxactive >= 1
      && c in s.w.level && s.w.level[c] < 3 && c.dev in s.w.devs && s.w.devs[c.dev].maxactive >= 1
      && (s.w.hq != [] ==> s.rejected != Some(s.w.hq[0]))
    ensures exists a :: a in states[i].w.level && states[i].w.level[a] == 3
  {
    NoLostWakeup(states, moves, i);
    RunKeepsQueues(states, moves, HbaFirst, i);
    SomeActive(states[i].w, c);
  }

  lemma SomeActive(w: WaitQ, c: Cmd)
    requires Inv(w) && Shuffled(w) && c in w.level && w.level[c] < 3 && c.dev in w.devs
    requires w.devs[c.dev].maxactive >= 1 && w.maxactive >= 1
    requires w.hq == [] || w.nactive >= w.maxactive
    ensures exists a :: a in w.level && w.level[a] == 3
  {
    if w.hq == [] {
      WaitingMeansBusy(w, c.dev);
    } else {
      assert Started(w.level) != {};
      var a :| a in Started(w.level);
    }
  }

  /** What the steps ask of the queues beyond the thread's position. */
  ghost predicate Guards(s: Sys) {
    && (forall d :: d in s.w.devs ==> Known(s.w.devs[d].q, d, s.w.level))
    && (forall c :: c in s.w.level ==> Deletable(s.w, c))
    && (s.w.hq != [] ==> s.w.hq[0] in s.w.level)
    && (forall t :: t in s.pc && s.pc[t].TrWait? ==> s.pc[t].dev in s.w.devs)
    && (forall t :: t in s.pc && s.pc[t] == Answered(false) ==>
         s.w.starting.Some? && s.w.starting.value in s.w.level && s.w.level[s.w.starting.value] == 3)
  }

  /** It always holds: no guard of Enabled cuts off a behaviour of the driver. */
  lemma GuardsHold(states: seq<Sys>, moves: seq<Move>, order: Order, i: nat)
    requires Run(states, moves, order) && Initial(states[0]) && i < |states|
    ensures Guards(states[i])
  {
    var s := states[i];
    RunKeepsQueues(states, moves, order, i);
    forall c | c in s.w.level ensures Deletable(s.w, c) { OutstandingDeletable(s.w, c); }
    assert s.w.hq != [] ==> s.w.hq[0] in s.w.hq;
  }

  /** The move of the thread that everybody else waits for. */
  function Mover(s: Sys, t: nat): nat {
    if s.waitq.Some? then s.waitq.value else if s.hba.Some? then s.hba.value else t
  }

  ghost function NextEvent(s: Sys, p: Pc): Event {
    match p
    case TrWait(d) => Queue
    case TrTry => TryHba
    case TrFail => GiveUp
    case HWait => GetHba
    case HOwn => GetWaitq
    case Loop => if MayStart(s.w, s.gate, false) then StartNext(false) else Stop(false, false)
    case Starting => Answer(true)
    case Answered(ok) => Resume(false)
    case Leaving => ExitHba
    case LastHba => ExitHba
    case LastWaitq => ExitWaitq
    case Idle => Enter
  }

  lemma CanMove(s: Sys, t: nat)
    requires Locked(s) && NoneForgotten(s) && Guards(s) && t in s.pc && !s.pc[t].Idle?
    ensures var u := Mover(s, t); u in s.pc && !s.pc[u].Idle? && Enabled(s, u, NextEvent(s, s.pc[u]), HbaFirst)
  {
  }

  /** The lock order cannot deadlock: while any thread is inside, some thread inside can move. */
  lemma NoDeadlock(states: seq<Sys>, moves: seq<Move>, i: nat, t: nat)
    requires Run(states, moves, HbaFirst) && Initial(states[0]) && i < |states|
    requires t in states[i].pc && !states[i].pc[t].Idle?
    ensures var u := Mover(states[i], t);
      u in states[i].pc && !states[i].pc[u].Idle? && exists e :: Enabled(states[i], u, e, HbaFirst)
  {
    var s := states[i];
    GuardsHold(states, moves, HbaFirst, i);
    RunKeepsQueues(states, moves, HbaFirst, i);
    RunForgetsNone(states, moves, i);
    CanMove(s, t);
    assert Enabled(s, Mover(s, t), NextEvent(s, s.pc[Mover(s, t)]), HbaFirst);
  }

  // ---------------------------------------------------------------- the other unlock order

  /** One more move of a run. */
  lemma RunGrows(states: seq<Sys>, moves: seq<Move>, t: nat, e: Event, order: Order)
    returns (states': seq<Sys>, moves': seq<Move>)
    requires Run(states, moves, order) && Enabled(states[|moves|], t, e, order)
    ensures Run(states', moves', order) && states'[0] == states[0]
    ensures states'[|moves'|] == Next(states[|moves|], t, e, order)
  {
    var s := states[|moves|];
    states', moves' := states + [Next(s, t, e, order)], moves + [Move(t, e)];
  }

  /** The first of two threads looks at an empty queue and lets go of the waitq mutex. */
  lemma LooksAndGoes(s0: Sys) returns (states: seq<Sys>, moves: seq<Move>)
    requires s0.hba.None? && s0.waitq.None? && s0.w.hq == [] && 0 in s0.pc && s0.pc[0].Idle?
    ensures Run(states, moves, WaitqFirst) && states[0] == s0
    ensures var s := states[|moves|];
      && s.w == s0.w && s.gate == s0.gate && s.rejected.None? && s.hba == Some(0) && s.waitq.None?
      && (forall t :: t in s.pc <==> t in s0.pc) && s.pc[0].LastHba? && forall t :: t in s.pc && t != 0 ==>
          s.pc[t] == s0.pc[t]
  {
    states, moves := [s0], [];
    states, moves := RunGrows(states, moves, 0, Enter, WaitqFirst);
    states, moves := RunGrows(states, moves, 0, GetHba, WaitqFirst);
    states, moves := RunGrows(states, moves, 0, GetWaitq, WaitqFirst);
    states, moves := RunGrows(states, moves, 0, Stop(false, false), WaitqFirst);
    states, moves := RunGrows(states, moves, 0, ExitWaitq, WaitqFirst);
  }

  /** The second comes, queues a request and goes, and then the first lets go of the adapter. */
  lemma QueuesAndGoes(s0: Sys) returns (states: seq<Sys>, moves: seq<Move>)
    requires s0.hba == Some(0) && s0.waitq.None? && 0 in s0.pc && 1 in s0.pc && s0.pc[0].LastHba? && s0.pc[1].Idle?
    requires 0 in s0.w.devs && Known(s0.w.devs[0].q, 0, s0.w.level)
    ensures Run(states, moves, WaitqFirst) && states[0] == s0
    ensures var s := states[|moves|];
      && s.w == Transport(s0.w, 0) && s.gate == s0.gate && s.rejected == s0.rejected && s.hba.None? && s.waitq.None?
      && (forall t :: t in s.pc <==> t in s0.pc) && s.pc[0].Idle? && s.pc[1].Idle?
      && forall t :: t in s.pc && t != 0 && t != 1 ==> s.pc[t] == s0.pc[t]
  {
    states, moves := [s0], [];
    states, moves := RunGrows(states, moves, 1, Submit(0), WaitqFirst);
    states, moves := RunGrows(states, moves, 1, Queue, WaitqFirst);
    states, moves := RunGrows(states, moves, 1, TryHba, WaitqFirst);
    states, moves := RunGrows(states, moves, 1, GiveUp, WaitqFirst);
    states, moves := RunGrows(states, moves, 0, ExitHba, WaitqFirst);
  }

  lemma RunsJoin(s1: seq<Sys>, m1: seq<Move>, s2: seq<Sys>, m2: seq<Move>, order: Order)
    requires Run(s1, m1, order) && Run(s2, m2, order) && s1[|m1|] == s2[0]
    ensures Run(s1 + s2[1..], m1 + m2, order) && (s1 + s2[1..])[|m1 + m2|] == s2[|m2|]
  {
    var s, m := s1 + s2[1..], m1 + m2;
    forall i | 0 <= i < |m|
      ensures Enabled(s[i], m[i].thread, m[i].event, order) && s[i + 1] == Next(s[i], m[i].thread, m[i].event, order)
    {
      if i < |m1| {
        assert m[i] == m1[i] && s[i] == s1[i] && s[i + 1] == s1[i + 1];
      } else {
        assert m[i] == m2[i - |m1|] && s[i] == s2[i - |m1|] && s[i + 1] == s2[i + 1 - |m1|];
      }
    }
  }

  /** With the two mutex_exit calls the other way round a request is left behind: a thread that found the
      queue empty lets go of the waitq mutex first, another queues a request and cannot get the
      adapter's mutex, and both leave. */
  lemma WaitqFirstStrands() returns (states: seq<Sys>, moves: seq<Move>)
    ensures Run(states, moves, WaitqFirst) && Initial(states[0])
    ensures var s := states[|moves|];
      && s.hba.None? && s.waitq.None? && (forall t :: t in s.pc ==> s.pc[t].Idle?)
      && !Blocked(s.w, s.gate, s.rejected)
  {
    var w0 := WaitQ(map[0 := Dev([], 0, 1, 1)], [], 0, 1, map[], 0, [], None);
    var s0 := Sys(w0, Gate(false, false), None, map[0 := Idle, 1 := Idle], None, None);
    var st1, m1 := LooksAndGoes(s0);
    var st2, m2 := QueuesAndGoes(st1[|m1|]);
    RunsJoin(st1, m1, st2, m2, WaitqFirst);
    states, moves := st1 + st2[1..], m1 + m2;
    var queued := Enqueue(w0, 0);
    assert queued.devs[0].q == [Cmd(0, 0)];
    var w1 := Promote(queued, 0);
    assert ShuffleUp(w1, 0) == w1;
    assert Transport(w0, 0) == w1;
  }
}
