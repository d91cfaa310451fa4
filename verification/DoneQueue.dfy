/**
  The done queue of the generic host adapter layer (dktp/hba/ghd/ghd.c, ghd.h).

  Completed requests are put on the done queue under its own mutex and handed to the target driver by
  a software interrupt, except in poll mode, when the polling thread looks through the queue itself.
 */
module DoneQueue {
  import opened Options
  import opened Seqs
  import opened WaitQueues

  // ---------------------------------------------------------------- ghd_poll

  /** All but the request that is polled for. */
  function Others(q: seq<Cmd>, mine: Option<Cmd>): seq<Cmd> { Without(q, if mine.Some? then {mine.value} else {}) }

  lemma OthersAppend(p: seq<Cmd>, q: seq<Cmd>, mine: Option<Cmd>)
    ensures Others(p + q, mine) == Others(p, mine) + Others(q, mine)
  {
    WithoutAppend(p, q, if mine.Some? then {mine.value} else {});
  }

  /** One more request. */
  lemma OthersMore(p: seq<Cmd>, c: Cmd, mine: Option<Cmd>)
    ensures Others(p + [c], mine) == Others(p, mine) + (if Some(c) == mine then [] else [c])
    ensures Others([], mine) == []
  {
    OthersAppend(p, [c], mine);
    var s := if mine.Some? then {mine.value} else {};
    assert Without([c], s) == (if c in s then [] else [c]) + Without([c][1..], s);
  }

  datatype PollType = PollRequest | PollDevice | PollAll

  /** One turn of ghd_poll: what completed during it, and whether the device or the adapter is idle at
      its end. */
  datatype Turn = Turn(completed: seq<Cmd>, idle: bool)

  function Completed(turns: seq<Turn>): seq<Cmd>
    decreases |turns|
  {
    if turns == [] then [] else Completed(turns[..|turns| - 1]) + turns[|turns| - 1].completed
  }

  /** Turn n-1 ends the poll. */
  predicate Satisfied(q: seq<Cmd>, mine: Option<Cmd>, kind: PollType, turn: Turn) {
    (mine.Some? && mine.value in q) || (!kind.PollRequest? && turn.idle)
  }

  class Ccc {
    var doneq: seq<Cmd>
    var pollmode: bool
    var softPending: bool

    /** GHD_DONEQ_PUT_TAIL */
    method PutTail(c: Cmd)
      modifies this
      ensures doneq == old(doneq) + [c] && pollmode == old(pollmode)
      ensures softPending == (old(softPending) || !pollmode)
    {
      doneq := doneq + [c];
      if !pollmode {
        softPending := true;
      }
    }

    /** ghd_doneq_get */
    method Get() returns (c: Option<Cmd>)
      modifies `doneq
      ensures c == if old(doneq) == [] then None else Some(old(doneq)[0])
      ensures doneq == if old(doneq) == [] then [] else old(doneq)[1..]
    {
      if doneq == [] {
        return None;
      }
      c := Some(doneq[0]);
      doneq := doneq[1..];
    }

    /** The inner loop of ghd_poll: everything on the done queue moves to the poller's own queue, except
        the request it looks for. */
    method Drain(mine: Option<Cmd>, hold: seq<Cmd>) returns (hold': seq<Cmd>, got: bool)
      modifies `doneq
      ensures doneq == []
      ensures hold' == hold + Others(old(doneq), mine)
      ensures got <==> mine.Some? && mine.value in old(doneq)
    {
      hold', got := hold, false;
      ghost var seen: seq<Cmd> := [];
      assert Others(seen, mine) == [];
      hide Others;
      while true
        invariant old(doneq) == seen + doneq
        invariant hold' == hold + Others(seen, mine)
        invariant got <==> mine.Some? && mine.value in seen
        decreases |doneq|
      {
        var next := Get();
        if next.None? {
          assert seen == old(doneq);
          return;
        }
        var c := next.value;
        OthersMore(seen, c, mine);
        seen := seen + [c];
        if Some(c) == mine {
          got := true;
        } else {
          hold' := hold' + [c];
        }
      }
    }

    /** The turns of ghd_poll.  What completes in a turn is put on the done queue by the interrupt service
        and the timer, in poll mode. */
    method PollTurns(kind: PollType, mine: Option<Cmd>, turns: seq<Turn>)
      returns (hold: seq<Cmd>, gotIt: bool, n: nat)
      requires pollmode
      modifies `doneq
      ensures n <= |turns| && (n < |turns| ==> gotIt)
      ensures doneq == (if n == 0 then old(doneq) else []) && hold == Kept(old(doneq), turns, n, mine)
      ensures gotIt <==> n > 0 && Satisfied(Seen(old(doneq), turns, n - 1), mine, kind, turns[n - 1])
      ensures forall i :: 0 <= i < n - 1 ==> !Satisfied(Seen(old(doneq), turns, i), mine, kind, turns[i])
    {
      hide Others, Completed;
      hold, gotIt, n := [], false, 0;
      while !gotIt && n < |turns|
        invariant n <= |turns|
        invariant doneq == (if n == 0 then old(doneq) else []) && hold == Kept(old(doneq), turns, n, mine)
        invariant gotIt <==> n > 0 && Satisfied(Seen(old(doneq), turns, n - 1), mine, kind, turns[n - 1])
        invariant forall i :: 0 <= i < n - 1 ==> !Satisfied(Seen(old(doneq), turns, i), mine, kind, turns[i])
        decreases |turns| - n
      {
        OneTurn(old(doneq), turns, n, mine);
        doneq := doneq + turns[n].completed;
        assert doneq == Seen(old(doneq), turns, n);
        hold, gotIt := Drain(mine, hold);
        if kind != PollRequest && turns[n].idle {
          gotIt := true;
        }
        n := n + 1;
      }
    }

    /** The end of ghd_poll: the poller's own queue goes back to the done queue. */
    method PutBack(held: seq<Cmd>)
      requires pollmode
      modifies this
      ensures doneq == old(doneq) + held && pollmode && softPending == old(softPending)
    {
      var hold := held;
      while hold != []
        invariant doneq + hold == old(doneq) + held
        invariant pollmode && softPending == old(softPending)
        decreases |hold|
      {
        var c := hold[0];
        hold := hold[1..];
        PutTail(c);
      }
    }

    /** ghd_poll, called in poll mode with the adapter's mutex: however many turns it takes, all other
        requests are back on the done queue in the order in which they completed, and the poll ends with
        the first turn that satisfies it. */
    method Poll(kind: PollType, mine: Option<Cmd>, turns: seq<Turn>) returns (gotIt: bool, ghost n: nat)
      requires pollmode
      modifies this
      ensures pollmode && softPending == old(softPending)
      ensures n <= |turns| && (n < |turns| ==> gotIt)
      ensures doneq == if n == 0 then old(doneq) else Others(old(doneq) + Completed(turns[..n]), mine)
      ensures gotIt <==> n > 0 && Satisfied(Seen(old(doneq), turns, n - 1), mine, kind, turns[n - 1])
      ensures forall i :: 0 <= i < n - 1 ==> !Satisfied(Seen(old(doneq), turns, i), mine, kind, turns[i])
    {
      var hold: seq<Cmd>, k: nat;
      hold, gotIt, k := PollTurns(kind, mine, turns);
      n := k;
      PutBack(hold);
    }
  }

  lemma OneTurn(start: seq<Cmd>, turns: seq<Turn>, n: nat, mine: Option<Cmd>)
    requires n < |turns|
    ensures Others(start + Completed(turns[..n + 1]), mine)
      == Kept(start, turns, n, mine) + Others(Seen(start, turns, n), mine)
  {
    assert turns[..n + 1][..n] == turns[..n];
    assert Completed(turns[..n + 1]) == Completed(turns[..n]) + turns[n].completed;
    if n == 0 {
      assert start + Completed(turns[..1]) == Seen(start, turns, 0);
    } else {
      assert Seen(start, turns, n) == turns[n].completed;
      assert start + Completed(turns[..n + 1]) == (start + Completed(turns[..n])) + turns[n].completed;
      OthersAppend(start + Completed(turns[..n]), turns[n].completed, mine);
    }
  }

  /** The poller's own queue after n turns. */
  ghost function Kept(start: seq<Cmd>, turns: seq<Turn>, n: nat, mine: Option<Cmd>): seq<Cmd>
    requires n <= |turns|
  {
    if n == 0 then [] else Others(start + Completed(turns[..n]), mine)
  }

  /** What the poller can find in turn i. */
  ghost function Seen(start: seq<Cmd>, turns: seq<Turn>, i: nat): seq<Cmd>
    requires i < |turns|
  {
    (if i == 0 then start else []) + turns[i].completed
  }

  // ---------------------------------------------------------------- software interrupts and poll mode

  /** The thread that polls; the adapter's mutex lets in one at a time. */
  datatype Poller = NoPoller | Polling | Cleared  // Cleared: pollmode is off, the queue not yet looked at

  /** procs are the threads in ghd_doneq_process, and carry has what those of them took off the queue that
      are about to call the target driver, without a mutex.  log has all completions in order, without those
      that went straight to their poller; handed has those taken off the queue for the target driver, and
      called those it has been told of, both in order. */
  datatype Done = Done(
    q: seq<Cmd>, pollmode: bool, pending: bool, procs: set<nat>, carry: map<nat, Cmd>, poller: Poller,
    log: seq<Cmd>, handed: seq<Cmd>, called: seq<Cmd>)

  /** A step under the done queue's mutex, a call of the target driver, or the test without the mutex in
      ghd_doneq_pollmode_exit. */
  datatype Event =
    | Put(c: Cmd)            // GHD_DONEQ_PUT_TAIL
    | SoftIntr(t: nat)       // the software interrupt is delivered
    | Process(t: nat)        // one turn of the loop of ghd_doneq_process, up to mutex_exit
    | Callback(t: nat)       // ccc_hba_complete
    | PollEnter
    | PollTake(mine: Option<Cmd>) // ghd_poll
    | PollClear              // pollmode := FALSE
    | PollTrigger            // L2_EMPTY, and the trigger

  predicate Enabled(s: Done, e: Event) {
    match e
    case Put(c) => c !in s.log
    case SoftIntr(t) => s.pending && t !in s.procs
    case Process(t) => t in s.procs && t !in s.carry
    case Callback(t) => t in s.carry
    case PollEnter => s.poller.NoPoller?
    case PollTake(_) => s.poller.Polling?
    case PollClear => s.poller.Polling?
    case PollTrigger => s.poller.Cleared?
  }

  function Next(s: Done, e: Event): Done
    requires Enabled(s, e)
  {
    match e
    case Put(c) => s.(q := s.q + [c], pending := s.pending || !s.pollmode, log := s.log + [c])
    case SoftIntr(t) => s.(pending := false, procs := s.procs + {t})
    case Process(t) =>
      if s.pollmode || s.q == [] then s.(procs := s.procs - {t})
      else s.(q := s.q[1..], handed := s.handed + [s.q[0]], carry := s.carry[t := s.q[0]])
    case Callback(t) => s.(called := s.called + [s.carry[t]], carry := s.carry - {t})
    case PollEnter => s.(pollmode := true, poller := Polling)
    case PollTake(mine) =>
      if mine.Some? && mine.value in s.q then s.(q := Others(s.q, mine), log := Others(s.log, mine)) else s
    case PollClear => s.(pollmode := false, poller := Cleared)
    case PollTrigger => s.(pending := s.pending || s.q != [], poller := NoPoller)
  }

  /** Somebody will look at what is on the queue. */
  predicate Attended(s: Done) {
    s.q != [] ==> s.pollmode || s.pending || s.procs != {} || s.poller.Cleared?
  }

  ghost predicate DoneInv(s: Done) {
    && Attended(s) && (s.pollmode <==> s.poller.Polling?)
    && s.handed + s.q == s.log && NoDup(s.log)
  }

  lemma StepKeeps(s: Done, e: Event)
    requires DoneInv(s) && Enabled(s, e)
    ensures DoneInv(Next(s, e))
  {
    match e
    case PollTake(mine) =>
      if mine.Some? && mine.value in s.q {
        assert mine.value !in s.handed by {
          var k :| 0 <= k < |s.q| && s.q[k] == mine.value;
          forall j | 0 <= j < |s.handed| ensures s.handed[j] != mine.value {
            assert s.log[j] == s.handed[j] && s.log[|s.handed| + k] == mine.value;
          }
        }
        OthersAppend(s.handed, s.q, mine);
        WithoutNone(s.handed, {mine.value});
        WithoutIs(s.log, {mine.value});
      }
    case _ =>
  }

  predicate Carried(s: Done, c: Cmd) { exists t :: t in s.carry && s.carry[t] == c }

  /** What was taken off the queue has been reported to the target driver, once, or is about to be. */
  ghost predicate Reported(s: Done) {
    && s.carry.Keys <= s.procs && NoDup(s.called)
    && (forall c :: c in s.handed <==> c in s.called || Carried(s, c))
    && (forall t :: t in s.carry ==> s.carry[t] !in s.called)
    && (forall t, u :: t in s.carry && u in s.carry && t != u ==> s.carry[t] != s.carry[u])
  }

  lemma TakenIsNew(s: Done)
    requires DoneInv(s) && s.q != []
    ensures s.q[0] !in s.handed
  {
    assert s.log[|s.handed|] == s.q[0];
    forall j | 0 <= j < |s.handed| ensures s.handed[j] != s.q[0] {
      assert s.log[j] == s.handed[j];
    }
  }

  lemma ProcessReports(s: Done, t: nat)
    requires DoneInv(s) && Reported(s) && Enabled(s, Process(t))
    ensures Reported(Next(s, Process(t)))
  {
    var s' := Next(s, Process(t));
    if !(s.pollmode || s.q == []) {
      TakenIsNew(s);
      var c := s.q[0];
      assert s'.carry[t] == c && s'.handed[|s.handed|] == c;
      forall d ensures d in s'.handed <==> d in s'.called || Carried(s', d) {
        assert d in s'.handed <==> d in s.handed || d == c;
        if Carried(s, d) {
          var u :| u in s.carry && s.carry[u] == d;
          assert s'.carry[u] == d;
        }
      }
      forall u | u in s.carry ensures s.carry[u] != c {
        assert Carried(s, s.carry[u]);
      }
      assert c !in s.called;
    }
  }

  lemma CallbackReports(s: Done, t: nat)
    requires Reported(s) && Enabled(s, Callback(t))
    ensures Reported(Next(s, Callback(t)))
  {
    var s', c := Next(s, Callback(t)), s.carry[t];
    assert s'.called[|s.called|] == c;
    forall d ensures d in s'.handed <==> d in s'.called || Carried(s', d) {
      assert d in s'.called <==> d in s.called || d == c;
      assert Carried(s, c);
      if Carried(s, d) && d != c {
        var u :| u in s.carry && s.carry[u] == d;
        assert s'.carry[u] == d;
      }
    }
  }

  lemma StepReports(s: Done, e: Event)
    requires DoneInv(s) && Reported(s) && Enabled(s, e)
    ensures Reported(Next(s, e))
  {
    match e
    case Process(t) => ProcessReports(s, t);
    case Callback(t) => CallbackReports(s, t);
    case _ => assert forall c :: Carried(Next(s, e), c) <==> Carried(s, c);
  }

  ghost predicate Run(states: seq<Done>, events: seq<Event>) {
    && |states| == |events| + 1
    && states[0] == Done([], false, false, {}, map[], NoPoller, [], [], [])
    && forall i :: 0 <= i < |events| ==> Enabled(states[i], events[i]) && states[i + 1] == Next(states[i], events[i])
  }

  /** In every run completions are taken off the queue in the order in which they came, each is reported to
      the target driver once, and the queue is never left with requests that nobody will look at. */
  lemma {:induction false} HandedInOrder(states: seq<Done>, events: seq<Event>, i: nat)
    requires Run(states, events) && i < |states|
    ensures DoneInv(states[i]) && Reported(states[i])
    ensures var s := states[i];
      s.poller.NoPoller? && !s.pending && s.procs == {} ==>
        s.q == [] && s.handed == s.log && forall c :: c in s.called <==> c in s.log
  {
    if i > 0 {
      HandedInOrder(states, events, i - 1);
      StepKeeps(states[i - 1], events[i - 1]);
      StepReports(states[i - 1], events[i - 1]);
    }
  }

  lemma Stepped(states: seq<Done>, events: seq<Event>, i: nat)
    requires Run(states, events) && 0 < i < |states|
    ensures Enabled(states[i - 1], events[i - 1]) && states[i] == Next(states[i - 1], events[i - 1])
  {
  }

  /** In poll mode nothing is taken off the queue for the target driver, and a handler that looks then is done;
      otherwise it takes the front of the queue, until that is empty. */
  lemma ProcessHands(states: seq<Done>, events: seq<Event>, i: nat)
    requires Run(states, events) && i < |events|
    ensures var s, s', e := states[i], states[i + 1], events[i];
      && (s.poller.Polling? ==> s'.handed == s.handed && (e.Process? ==> e.t !in s'.procs && s'.q == s.q))
      && (!s.poller.Polling? && e.Process? ==>
           if s.q == [] then e.t !in s'.procs && s'.handed == s.handed
           else s'.handed == s.handed + [s.q[0]] && s'.q == s.q[1..] && e.t in s'.carry && s'.carry[e.t] == s.q[0])
  {
    HandedInOrder(states, events, i);
    Stepped(states, events, i + 1);
  }

  /** The requests that completed in the first i steps, and those that their own poller found among them. */
  function PutIn(events: seq<Event>, i: nat): multiset<Cmd>
    requires i <= |events|
  {
    if i == 0 then multiset{} else PutIn(events, i - 1) + PutBy(events[i - 1])
  }

  function FoundIn(states: seq<Done>, events: seq<Event>, i: nat): multiset<Cmd>
    requires i <= |events| <= |states|
  {
    if i == 0 then multiset{} else FoundIn(states, events, i - 1) + FoundBy(states[i - 1], events[i - 1])
  }

  lemma {:induction false} OthersCount(q: seq<Cmd>, c: Cmd)
    requires NoDup(q) && c in q
    ensures multiset(q) == multiset(Others(q, Some(c))) + multiset{c}
    decreases |q|
  {
    assert q == [q[0]] + q[1..];
    if q[0] == c {
      assert c !in q[1..];
      WithoutNone(q[1..], {c});
    } else {
      OthersCount(q[1..], c);
    }
  }

  /** What a step adds to the completions, and what its poller takes. */
  function PutBy(e: Event): multiset<Cmd> { if e.Put? then multiset{e.c} else multiset{} }

  function FoundBy(s: Done, e: Event): multiset<Cmd> {
    if e.PollTake? && e.mine.Some? && e.mine.value in s.q then multiset{e.mine.value} else multiset{}
  }

  lemma LogNext(s: Done, e: Event)
    requires DoneInv(s) && Enabled(s, e)
    ensures multiset(s.log) + PutBy(e) == multiset(Next(s, e).log) + FoundBy(s, e)
  {
    if e.PollTake? && e.mine.Some? && e.mine.value in s.q {
      assert s.log == s.handed + s.q;
      OthersCount(s.log, e.mine.value);
    }
  }

  lemma LogIs(s: Done)
    requires DoneInv(s)
    ensures multiset(s.handed + s.q) == multiset(s.log)
  {
  }

  /** Every completion goes one way, once: to the poller that waits for it, or to the target driver in its turn. */
  lemma {:induction false} OneWayEach(states: seq<Done>, events: seq<Event>, i: nat)
    requires Run(states, events) && i < |states|
    ensures PutIn(events, i) == multiset(states[i].handed + states[i].q) + FoundIn(states, events, i)
  {
    HandedInOrder(states, events, i);
    LogIs(states[i]);
    if i > 0 {
      var s, s', e := states[i - 1], states[i], events[i - 1];
      OneWayEach(states, events, i - 1);
      HandedInOrder(states, events, i - 1);
      Stepped(states, events, i);
      hide Run, DoneInv, Reported, Enabled, Next, PutBy, FoundBy;
      LogIs(s);
      LogNext(s, e);
      Balance(PutIn(events, i - 1), multiset(s.log), FoundIn(states, events, i - 1), PutBy(e), FoundBy(s, e),
        multiset(s'.log));
    }
  }

  lemma Balance(put: multiset<Cmd>, log: multiset<Cmd>, found: multiset<Cmd>, p: multiset<Cmd>, f: multiset<Cmd>,
                log': multiset<Cmd>)
    requires put == log + found && log + p == log' + f
    ensures put + p == log' + (found + f)
  {
    forall x ensures (put + p)[x] == (log' + (found + f))[x] {
      assert (log + p)[x] == (log' + f)[x];
    }
  }

  /** How often the software interrupt was triggered, and how often it was delivered. */
  function Triggers(states: seq<Done>, events: seq<Event>, i: nat): nat
    requires i <= |events| <= |states|
  {
    if i == 0 then 0 else
      var s, e := states[i - 1], events[i - 1];
      Triggers(states, events, i - 1)
      + if (e.Put? && !s.poller.Polling?) || (e.PollTrigger? && s.q != []) then 1 else 0
  }

  function Deliveries(events: seq<Event>, i: nat): nat
    requires i <= |events|
  {
    if i == 0 then 0 else Deliveries(events, i - 1) + if events[i - 1].SoftIntr? then 1 else 0
  }

  /** No software interrupt comes without a request that completed outside poll mode, or that a poll left
      behind. */
  lemma {:induction false} NoIdleInterrupt(states: seq<Done>, events: seq<Event>, i: nat)
    requires Run(states, events) && i < |states|
    ensures Deliveries(events, i) + (if states[i].pending then 1 else 0) <= Triggers(states, events, i)
  {
    if i > 0 {
      NoIdleInterrupt(states, events, i - 1);
      HandedInOrder(states, events, i - 1);
      Stepped(states, events, i);
    }
  }

  /** No software interrupt is delivered while one is being handled. */
  ghost predicate OneHandler(states: seq<Done>, events: seq<Event>)
    requires |states| == |events| + 1
  {
    forall i :: 0 <= i < |events| && events[i].SoftIntr? ==> states[i].procs == {}
  }

  /** All that was taken off the queue has been reported in order, but for what is about to be. */
  ghost predicate CalledInOrder(s: Done) {
    && (s.carry == map[] ==> s.called == s.handed)
    && forall t :: t in s.carry ==> s.carry == map[t := s.carry[t]] && s.called + [s.carry[t]] == s.handed
  }

  ghost predicate AtMostOne(s: Done) { forall t, u :: t in s.procs && u in s.procs ==> t == u }

  lemma StepCalls(s: Done, e: Event)
    requires Reported(s) && CalledInOrder(s) && AtMostOne(s) && Enabled(s, e) && (e.SoftIntr? ==> s.procs == {})
    ensures CalledInOrder(Next(s, e)) && AtMostOne(Next(s, e))
  {
    match e
    case Process(t) =>
      assert forall u :: u in s.carry.Keys ==> u in s.procs;
      assert s.carry.Keys == {};
    case Callback(t) => assert Next(s, e).carry == map[];
    case _ =>
  }

  lemma CalledIsPrefix(s: Done)
    requires DoneInv(s) && CalledInOrder(s)
    ensures s.called <= s.log
  {
    if s.carry != map[] {
      var t :| t in s.carry;
      assert s.called + [s.carry[t]] == s.handed;
    }
  }

  /** With one handler at a time the target driver is told of completions in the order in which they came. */
  lemma {:induction false} CallbacksInOrder(states: seq<Done>, events: seq<Event>, i: nat)
    requires Run(states, events) && OneHandler(states, events) && i < |states|
    ensures CalledInOrder(states[i]) && AtMostOne(states[i]) && states[i].called <= states[i].log
  {
    hide CalledInOrder, AtMostOne, DoneInv, Reported, Next, Enabled;
    if i == 0 {
      assert CalledInOrder(states[0]) && AtMostOne(states[0]) by { CalmStart(); }
    } else {
      CallbacksInOrder(states, events, i - 1);
      HandedInOrder(states, events, i - 1);
      StepCalls(states[i - 1], events[i - 1]);
    }
    HandedInOrder(states, events, i);
    CalledIsPrefix(states[i]);
  }

  lemma CalmStart()
    ensures var s := Done([], false, false, {}, map[], NoPoller, [], [], []); CalledInOrder(s) && AtMostOne(s)
  {
  }

  /** With two it may not be: each takes one off the queue, and the second calls first. */
  lemma CallbacksMayPass(c: Cmd, d: Cmd) returns (states: seq<Done>, events: seq<Event>)
    requires c != d
    ensures Run(states, events)
    ensures var s := states[|events|]; s.log == s.handed == [c, d] && s.called == [d, c]
  {
    var s0 := Done([], false, false, {}, map[], NoPoller, [], [], []);
    var s1 := Next(s0, Put(c));
    var s2 := Next(s1, SoftIntr(1));
    var s3 := Next(s2, Put(d));
    var s4 := Next(s3, SoftIntr(2));
    var s5 := Next(s4, Process(1));
    var s6 := Next(s5, Process(2));
    var s7 := Next(s6, Callback(2));
    var s8 := Next(s7, Callback(1));
    states := [s0, s1, s2, s3, s4, s5, s6, s7, s8];
    events := [Put(c), SoftIntr(1), Put(d), SoftIntr(2), Process(1), Process(2), Callback(2), Callback(1)];
  }

  /** The window between clearing pollmode and looking at the queue. */
  predicate InWindow(s: Done) { s.poller.Cleared? && s.q != [] && !s.pending && s.procs == {} }

  /** What is on the queue has poll mode, a pending software interrupt or a handler exactly when the poller is
      not in that window. */
  lemma WindowExactly(states: seq<Done>, events: seq<Event>, i: nat)
    requires Run(states, events) && i < |states|
    ensures var s := states[i]; (s.q != [] ==> s.pollmode || s.pending || s.procs != {}) <==> !InWindow(s)
  {
    HandedInOrder(states, events, i);
  }

  /** Poll mode or a pending software interrupt alone is not what holds: pollmode is cleared before the
      queue is looked at. */
  lemma NeitherPolledNorPending() returns (states: seq<Done>, events: seq<Event>)
    ensures Run(states, events)
    ensures var s := states[|events|]; InWindow(s) && s.q != [] && !s.pollmode && !s.pending && s.procs == {}
  {
    var s0 := Done([], false, false, {}, map[], NoPoller, [], [], []);
    var c := Cmd(0, 0);
    var s1 := Next(s0, PollEnter);
    var s2 := Next(s1, Put(c));
    var s3 := Next(s2, PollClear);
    states, events := [s0, s1, s2, s3], [PollEnter, Put(c), PollClear];
  }
}
