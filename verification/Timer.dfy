/**
  Request timeouts and error recovery of the generic host adapter layer (dktp/hba/ghd/ghd_timer.c).

  Every request that is queued or active has a timer on one list.  When it runs out, or the target
  driver asks, recovery tries one action after another until the adapter's driver takes one.
 */
module Timer {
  import opened Options
  import opened Seqs

  datatype CmdState = Idle | Waitq | Active | Doneq | AbortingCmd | AbortingDev | ResettingDev | ResettingBus | Hung

  /** The numbers of cmdstate_t. */
  function No(s: CmdState): (n: nat)
    ensures n <= 8
  {
    match s
    case Idle => 0 case Waitq => 1 case Active => 2 case Doneq => 3 case AbortingCmd => 4
    case AbortingDev => 5 case ResettingDev => 6 case ResettingBus => 7 case Hung => 8
  }

  datatype Action = EarlyTimeout | EarlyAbort | AbortCmd | AbortDev | ResetTarget | ResetBus | Incomplete

  /** How far along the recovery is. */
  function Rank(a: Action): (n: nat)
    ensures n <= 5
  {
    match a
    case EarlyTimeout => 0 case EarlyAbort => 0 case AbortCmd => 1 case AbortDev => 2
    case ResetTarget => 3 case ResetBus => 4 case Incomplete => 5
  }

  function NextState(a: Action): CmdState {
    match a
    case EarlyTimeout => Doneq case EarlyAbort => Doneq case AbortCmd => AbortingCmd case AbortDev => AbortingDev
    case ResetTarget => ResettingDev case ResetBus => ResettingBus case Incomplete => Hung
  }

  function NextAction(a: Action): Action {
    match a
    case EarlyTimeout => AbortCmd case EarlyAbort => AbortCmd case AbortCmd => AbortDev case AbortDev => ResetTarget
    case ResetTarget => ResetBus case ResetBus => Incomplete case Incomplete => Incomplete
  }

  /** ghd_timeout_table, in seconds; no entry means no timer. */
  function Seconds(s: CmdState): nat {
    match s
    case AbortingCmd => 3 case AbortingDev => 3 case ResettingDev => 5 case ResettingBus => 10 case Hung => 60
    case _ => 0
  }

  /** The timer fields of gcmd_t; dev is its gdev_t. */
  datatype T = T(state: CmdState, dev: nat, start: nat, timeout: nat)

  /** ccc_activel, the requests, ccc_waitq_frozen, the clock and ghd_HZ. */
  datatype Tmr = Tmr(list: seq<nat>, cmds: map<nat, T>, frozen: bool, now: nat, hz: nat)

  // ---------------------------------------------------------------- operations

  /** What the driver's action function says, and which requests it completes meanwhile. */
  datatype Answer = Answer(ok: bool, completed: set<nat>)

  /** GHD_COMPLETE for each of ids: done, and off the list. */
  function CompleteAll(t: Tmr, ids: set<nat>): Tmr {
    t.(list := Without(t.list, ids),
       cmds := map k | k in t.cmds :: if k in ids then t.cmds[k].(state := Doneq) else t.cmds[k])
  }

  /** The start of a turn: the request takes the action's state, and its timer if that state has one. */
  function Stage(t: Tmr, g: nat, a: Action): Tmr
    requires g in t.cmds
  {
    var s := NextState(a);
    var c := t.cmds[g].(state := s);
    if Seconds(s) == 0 then t.(cmds := t.cmds[g := c])
    else t.(cmds := t.cmds[g := c.(start := t.now, timeout := Seconds(s) * t.hz)], list := t.list + [g])
  }

  /** The state that an action that was taken gives the others it affects. */
  function Raised(c: T, a: Action, dev: nat): CmdState {
    var s := NextState(a);
    if No(c.state) <= No(Waitq) || No(c.state) >= No(s) then c.state
    else match a
      case AbortDev => if c.dev == dev then s else c.state
      case ResetTarget => if c.dev == dev then s else c.state
      case ResetBus => s
      case _ => c.state
  }

  /** The scan of the list at the end of sol11ghd_timer_newstate. */
  function Scan(t: Tmr, a: Action, dev: nat): Tmr {
    t.(cmds := map k | k in t.cmds :: if k in t.list then t.cmds[k].(state := Raised(t.cmds[k], a, dev)) else t.cmds[k])
  }

  /** A turn up to the answer of the action function. */
  function Asked(t: Tmr, g: nat, a: Action, ans: Action -> Answer): Tmr
    requires g in t.cmds
  {
    CompleteAll(Stage(t, g, a), ans(a).completed)
  }

  /** The end of a turn whose action was refused: the timer is stopped before the next one starts it. */
  function Refused(t: Tmr, g: nat, a: Action, ans: Action -> Answer): Tmr
    requires g in t.cmds
  {
    var t2 := Asked(t, g, a, ans);
    if Seconds(NextState(a)) > 0 then t2.(list := Without(t2.list, {g})) else t2
  }

  datatype End = Accepted(a: Action) | FrozenStop | GaveUp

  datatype Result = Result(t: Tmr, tried: seq<Action>, end: End)

  /** sol11ghd_timer_newstate for a request whose timer is off the list. */
  function Newstate(t: Tmr, g: nat, a: Action, ans: Action -> Answer): Result
    requires g in t.cmds
    decreases 5 - Rank(a)
  {
    var dev := t.cmds[g].dev;
    if a.ResetBus? && t.frozen then Result(Scan(Stage(t, g, a), a, dev), [], FrozenStop)
    else if ans(a).ok then Result(Scan(Asked(t, g, a, ans), a, dev), [a], Accepted(a))
    else if a.Incomplete? then Result(Asked(t, g, a, ans), [a], GaveUp)
    else
      var r := Newstate(Refused(t, g, a, ans), g, NextAction(a), ans);
      r.(tried := [a] + r.tried)
  }

  // ---------------------------------------------------------------- what they keep

  /** A request is on the list at most once, and only while it is neither idle nor done. */
  ghost predicate Timed(t: Tmr) {
    && NoDup(t.list) && t.hz > 0
    && (forall k :: k in t.list ==>
          k in t.cmds && t.cmds[k].start <= t.now && !t.cmds[k].state.Idle? && !t.cmds[k].state.Doneq?)
  }

  /** The driver completes what it says it did: an action that fails leaves the request, and an early one
      that succeeds has completed it. */
  ghost predicate Honest(g: nat, ans: Action -> Answer) {
    forall a :: (!ans(a).ok ==> g !in ans(a).completed) && (ans(a).ok && Rank(a) == 0 ==> g in ans(a).completed)
  }

  predicate Expired(t: Tmr, k: nat)
    requires k in t.cmds
  {
    t.cmds[k].timeout > 0 && t.now - t.cmds[k].start >= t.cmds[k].timeout
  }

  /** What recovery for g does to the others: it leaves their timers alone, completes some, and moves the
      rest only up. */
  ghost predicate OthersRise(t: Tmr, g: nat, t': Tmr) {
    && t'.now == t.now && t'.hz == t.hz && t'.frozen == t.frozen
    && (forall k :: k in t.cmds <==> k in t'.cmds)
    && (forall k :: k in t'.list && k != g ==> k in t.list)
    && (forall k :: k in t.list && k != g && k in t.cmds && k in t'.cmds ==>
         && t'.cmds[k].start == t.cmds[k].start && t'.cmds[k].timeout == t.cmds[k].timeout
             && t'.cmds[k].dev == t.cmds[k].dev
         && if k in t'.list then No(t.cmds[k].state) <= No(t'.cmds[k].state) else t'.cmds[k].state.Doneq?)
    && (forall k :: k !in t.list && k != g && k in t.cmds && k in t'.cmds ==>
         t'.cmds[k] == t.cmds[k] || t'.cmds[k] == t.cmds[k].(state := Doneq))
  }

  /** The states of a request that is being recovered. */
  predicate Recovering(s: CmdState) { No(s) >= No(AbortingCmd) }

  /** What becomes of g: recovery waits for its timer, just started, or it is complete. */
  ghost predicate Settles(t: Tmr, g: nat, t': Tmr, end: End, ans: Action -> Answer) {
    && g in t'.cmds
    && (g in t'.list ==> t'.cmds[g].start == t'.now && Recovering(t'.cmds[g].state))
    && (g in t'.list ==> t'.cmds[g].timeout == Seconds(t'.cmds[g].state) * t'.hz > 0)
    && (g !in t'.list ==> t'.cmds[g].state.Doneq? && end.Accepted?)
    && (end.FrozenStop? ==> t.frozen && g in t'.list && t'.cmds[g].state.ResettingBus?)
    && (end.Accepted? ==> (g in t'.list <==> g !in ans(end.a).completed))
    && (end.Accepted? && g in t'.list ==> t'.cmds[g].state == NextState(end.a))
    && (end.GaveUp? ==> g in t'.list && t'.cmds[g].state.Hung? && t'.cmds[g].timeout == 60 * t'.hz)
  }

  /** These are actions one after another, none left out, and refused but for the last. */
  ghost predicate Advances(tried: seq<Action>, ans: Action -> Answer) {
    forall i :: 0 <= i < |tried| - 1 ==> Rank(tried[i + 1]) == Rank(tried[i]) + 1 && !ans(tried[i]).ok
  }

  /** The actions tried from a on, and how that ends. */
  ghost predicate Chain(a: Action, r: Result, ans: Action -> Answer) {
    && |r.tried| <= 6 - Rank(a)
    && (r.tried != [] ==> r.tried[0] == a)
    && Advances(r.tried, ans)
    && match r.end
       case Accepted(b) => r.tried != [] && r.tried[|r.tried| - 1] == b && ans(b).ok
       case FrozenStop =>
         if r.tried == [] then a.ResetBus? else r.tried[|r.tried| - 1] == ResetTarget && !ans(ResetTarget).ok
       case GaveUp => r.tried != [] && r.tried[|r.tried| - 1] == Incomplete && !ans(Incomplete).ok
  }

  lemma ChainGrows(a: Action, r: Result, ans: Action -> Answer)
    requires Chain(NextAction(a), r, ans) && !ans(a).ok && !a.Incomplete?
    ensures Chain(a, r.(tried := [a] + r.tried), ans)
  {
    var tried := [a] + r.tried;
    assert forall i :: 1 <= i < |tried| ==> tried[i] == r.tried[i - 1];
    assert r.tried != [] ==> tried[|tried| - 1] == r.tried[|r.tried| - 1];
  }

  /** Recovery always ends: after at most six actions, with one that was taken, or at a bus reset that is
      not tried because the queue is frozen, or when all were refused. */
  lemma {:induction false} TriesInOrder(t: Tmr, g: nat, a: Action, ans: Action -> Answer)
    requires g in t.cmds
    ensures Chain(a, Newstate(t, g, a, ans), ans)
    decreases 5 - Rank(a)
  {
    if !(a.ResetBus? && t.frozen) && !ans(a).ok && !a.Incomplete? {
      var t3 := Refused(t, g, a, ans);
      TriesInOrder(t3, g, NextAction(a), ans);
      ChainGrows(a, Newstate(t3, g, NextAction(a), ans), ans);
    }
  }

  // One turn.

  lemma StageKeeps(t: Tmr, g: nat, a: Action)
    requires Timed(t) && g in t.cmds && g !in t.list
    ensures var t1 := Stage(t, g, a);
      && Timed(t1) && OthersRise(t, g, t1) && g in t1.cmds && t1.cmds[g].dev == t.cmds[g].dev
      && (g in t1.list <==> Rank(a) > 0) && t1.cmds[g].state == NextState(a)
      && (Rank(a) > 0 ==> t1.cmds[g].start == t1.now && t1.cmds[g].timeout == Seconds(NextState(a)) * t1.hz > 0)
  {
  }

  lemma CompleteKeeps(t: Tmr, g: nat, ids: set<nat>)
    requires Timed(t) && g in t.cmds
    ensures var t1 := CompleteAll(t, ids);
      && Timed(t1) && OthersRise(t, g, t1) && g in t1.cmds
      && (g !in ids ==> t1.cmds[g] == t.cmds[g] && (g in t1.list <==> g in t.list))
      && (g in ids ==> t1.cmds[g] == t.cmds[g].(state := Doneq) && g !in t1.list)
  {
    WithoutIs(t.list, ids);
  }

  lemma StopKeeps(t: Tmr, g: nat)
    requires Timed(t) && g in t.cmds
    ensures var t1 := t.(list := Without(t.list, {g})); Timed(t1) && OthersRise(t, g, t1) && g !in t1.list
  {
    WithoutIs(t.list, {g});
  }

  /** The scan only raises states, of requests on the list that are past the wait queue. */
  lemma ScanKeeps(t: Tmr, g: nat, a: Action, dev: nat)
    requires Timed(t) && g in t.cmds
    ensures var t1 := Scan(t, a, dev);
      && Timed(t1) && OthersRise(t, g, t1) && t1.list == t.list
      && (forall k :: k in t.cmds && k !in t.list ==> t1.cmds[k] == t.cmds[k])
      && g in t1.cmds && t1.cmds[g].start == t.cmds[g].start && t1.cmds[g].timeout == t.cmds[g].timeout
      && (No(t.cmds[g].state) >= No(NextState(a)) ==> t1.cmds[g] == t.cmds[g])
  {
  }

  lemma OthersRiseTwice(t: Tmr, g: nat, t1: Tmr, t2: Tmr)
    requires OthersRise(t, g, t1) && OthersRise(t1, g, t2)
    ensures OthersRise(t, g, t2)
  {
  }

  lemma AskedKeeps(t: Tmr, g: nat, a: Action, ans: Action -> Answer)
    requires Timed(t) && g in t.cmds && g !in t.list
    ensures var t2 := Asked(t, g, a, ans);
      && Timed(t2) && OthersRise(t, g, t2) && g in t2.cmds
      && (g in ans(a).completed ==> g !in t2.list && t2.cmds[g].state.Doneq?)
      && (g !in ans(a).completed ==>
           && (g in t2.list <==> Rank(a) > 0) && t2.cmds[g].state == NextState(a)
           && (Rank(a) > 0 ==> t2.cmds[g].start == t2.now && t2.cmds[g].timeout == Seconds(NextState(a)) * t2.hz > 0))
  {
    StageKeeps(t, g, a);
    CompleteKeeps(Stage(t, g, a), g, ans(a).completed);
    OthersRiseTwice(t, g, Stage(t, g, a), Asked(t, g, a, ans));
  }

  /** The turn that ends the recovery. */
  lemma LastTurnKeeps(t: Tmr, g: nat, a: Action, ans: Action -> Answer)
    requires Timed(t) && g in t.cmds && g !in t.list && Honest(g, ans)
    requires (a.ResetBus? && t.frozen) || ans(a).ok || a.Incomplete?
    ensures var r := Newstate(t, g, a, ans);
      Timed(r.t) && OthersRise(t, g, r.t) && Settles(t, g, r.t, r.end, ans)
  {
    if a.ResetBus? && t.frozen {
      FrozenTurnKeeps(t, g, ans);
    } else if ans(a).ok {
      TakenTurnKeeps(t, g, a, ans);
    } else {
      AskedKeeps(t, g, a, ans);
      TurnStops(t, g, a, ans);
      hide Newstate, Asked, OthersRise;
    }
  }

  lemma SameClock(t: Tmr, g: nat, t': Tmr)
    requires OthersRise(t, g, t')
    ensures t'.now == t.now && t'.hz == t.hz
  {
  }

  lemma FrozenTurnKeeps(t: Tmr, g: nat, ans: Action -> Answer)
    requires Timed(t) && g in t.cmds && g !in t.list && t.frozen
    ensures var r := Newstate(t, g, ResetBus, ans);
      Timed(r.t) && OthersRise(t, g, r.t) && Settles(t, g, r.t, r.end, ans)
  {
    hide Newstate, Stage, Scan, OthersRise, Timed;
    var dev, t1 := t.cmds[g].dev, Stage(t, g, ResetBus);
    StageKeeps(t, g, ResetBus);
    ScanKeeps(t1, g, ResetBus, dev);
    OthersRiseTwice(t, g, t1, Scan(t1, ResetBus, dev));
    SameClock(t1, g, Scan(t1, ResetBus, dev));
    TurnStops(t, g, ResetBus, ans);
  }

  lemma TakenTurnKeeps(t: Tmr, g: nat, a: Action, ans: Action -> Answer)
    requires Timed(t) && g in t.cmds && g !in t.list && Honest(g, ans)
    requires !(a.ResetBus? && t.frozen) && ans(a).ok
    ensures var r := Newstate(t, g, a, ans);
      Timed(r.t) && OthersRise(t, g, r.t) && Settles(t, g, r.t, r.end, ans)
  {
    hide Newstate, Asked, Scan, OthersRise, Timed;
    var t2, dev := Asked(t, g, a, ans), t.cmds[g].dev;
    AskedKeeps(t, g, a, ans);
    ScanKeeps(t2, g, a, dev);
    OthersRiseTwice(t, g, t2, Scan(t2, a, dev));
    SameClock(t2, g, Scan(t2, a, dev));
    TurnStops(t, g, a, ans);
  }

  lemma NextTurnKeeps(t: Tmr, g: nat, a: Action, ans: Action -> Answer)
    requires Timed(t) && g in t.cmds && g !in t.list && Honest(g, ans) && !ans(a).ok
    ensures var t3 := Refused(t, g, a, ans);
      Timed(t3) && OthersRise(t, g, t3) && g !in t3.list && g in t3.cmds && t3.cmds[g].dev == t.cmds[g].dev
  {
    var t2 := Asked(t, g, a, ans);
    AskedKeeps(t, g, a, ans);
    if Seconds(NextState(a)) > 0 {
      StopKeeps(t2, g);
      OthersRiseTwice(t, g, t2, t2.(list := Without(t2.list, {g})));
    }
  }

  lemma SettlesLater(t: Tmr, g: nat, t3: Tmr, t': Tmr, end: End, ans: Action -> Answer)
    requires OthersRise(t, g, t3) && OthersRise(t3, g, t') && Settles(t3, g, t', end, ans)
    ensures OthersRise(t, g, t') && Settles(t, g, t', end, ans)
  {
    OthersRiseTwice(t, g, t3, t');
  }

  /** Recovery keeps the list sound, leaves the other timers alone, and leaves the request complete or
      with a timer that has just been started. */
  lemma {:induction false} NewstateKeeps(t: Tmr, g: nat, a: Action, ans: Action -> Answer)
    requires Timed(t) && g in t.cmds && g !in t.list && Honest(g, ans)
    ensures var r := Newstate(t, g, a, ans);
      Timed(r.t) && OthersRise(t, g, r.t) && Settles(t, g, r.t, r.end, ans)
    decreases 5 - Rank(a)
  {
    if (a.ResetBus? && t.frozen) || ans(a).ok || a.Incomplete? {
      LastTurnKeeps(t, g, a, ans);
    } else {
      NextTurnKeeps(t, g, a, ans);
      var t3 := Refused(t, g, a, ans);
      NewstateKeeps(t3, g, NextAction(a), ans);
      SettlesLater(t, g, t3, Newstate(t3, g, NextAction(a), ans).t, Newstate(t3, g, NextAction(a), ans).end, ans);
    }
  }

  /** The requests that an action affects beside the one it is for. */
  predicate Affects(a: Action, dev: nat, c: T) {
    No(c.state) > No(Waitq) && (a.ResetBus? || ((a.AbortDev? || a.ResetTarget?) && c.dev == dev))
  }

  lemma ScanRaises(t: Tmr, a: Action, dev: nat, k: nat)
    requires k in t.list && k in t.cmds && Affects(a, dev, t.cmds[k])
    ensures var t1 := Scan(t, a, dev); k in t1.cmds && No(t1.cmds[k].state) >= No(NextState(a))
  {
  }

  lemma TurnLeaves(t: Tmr, g: nat, t1: Tmr, k: nat, a: Action, dev: nat)
    requires Timed(t1) && OthersRise(t, g, t1) && k in t.list && k != g && k in t1.list && k in t.cmds
    requires Affects(a, dev, t.cmds[k])
    ensures k in t1.cmds && Affects(a, dev, t1.cmds[k])
  {
  }

  ghost predicate RaisedBy(t: Tmr, dev: nat, r: Result, k: nat) {
    && k in t.cmds && k in r.t.cmds
    && (r.end.Accepted? && k in r.t.list && Affects(r.end.a, dev, t.cmds[k]) ==>
          No(r.t.cmds[k].state) >= No(NextState(r.end.a)))
  }

  lemma TakenRaises(t: Tmr, g: nat, a: Action, ans: Action -> Answer, k: nat)
    requires Timed(t) && g in t.cmds && g !in t.list && k in t.list && k != g && k in t.cmds
    requires !(a.ResetBus? && t.frozen) && ans(a).ok
    ensures RaisedBy(t, t.cmds[g].dev, Newstate(t, g, a, ans), k)
  {
    var t2, dev := Asked(t, g, a, ans), t.cmds[g].dev;
    AskedKeeps(t, g, a, ans);
    hide Asked;
    if k in t2.list && Affects(a, dev, t.cmds[k]) {
      TurnLeaves(t, g, t2, k, a, dev);
      ScanRaises(t2, a, dev, k);
    }
  }

  lemma RaisedLater(t: Tmr, g: nat, t3: Tmr, dev: nat, r: Result, k: nat)
    requires Timed(t3) && OthersRise(t, g, t3) && k in t.list && k != g && k in t.cmds
    requires OthersRise(t3, g, r.t) && (k in t3.list ==> RaisedBy(t3, dev, r, k))
    ensures RaisedBy(t, dev, r, k)
  {
    if k in t3.list && r.end.Accepted? && Affects(r.end.a, dev, t.cmds[k]) {
      TurnLeaves(t, g, t3, k, r.end.a, dev);
    }
  }

  /** A bus reset that was taken puts every listed request past the wait queue at least there, and a device's
      abort or reset those of the device: their own timeouts will not begin with less. */
  lemma {:induction false} AcceptedRaises(t: Tmr, g: nat, a: Action, ans: Action -> Answer, k: nat)
    requires Timed(t) && g in t.cmds && g !in t.list && Honest(g, ans) && k in t.list && k != g && k in t.cmds
    ensures RaisedBy(t, t.cmds[g].dev, Newstate(t, g, a, ans), k)
    decreases 5 - Rank(a)
  {
    hide Newstate, Refused, OthersRise, Settles;
    if (a.ResetBus? && t.frozen) || (!ans(a).ok && a.Incomplete?) {
      NotTaken(t, g, a, ans, k);
    } else if ans(a).ok {
      TakenRaises(t, g, a, ans, k);
    } else {
      var t3 := Refused(t, g, a, ans);
      NextTurnKeeps(t, g, a, ans);
      var r := Newstate(t3, g, NextAction(a), ans);
      NewstateKeeps(t3, g, NextAction(a), ans);
      if k in t3.list {
        StillKnown(t, g, t3, k);
        AcceptedRaises(t3, g, NextAction(a), ans, k);
      }
      RaisedLater(t, g, t3, t.cmds[g].dev, r, k);
      GoesOn(t, g, a, ans);
    }
  }

  lemma StillKnown(t: Tmr, g: nat, t3: Tmr, k: nat)
    requires OthersRise(t, g, t3) && k in t.cmds
    ensures k in t3.cmds
  {
  }

  lemma NotTaken(t: Tmr, g: nat, a: Action, ans: Action -> Answer, k: nat)
    requires Timed(t) && g in t.cmds && g !in t.list && Honest(g, ans) && k in t.list && k != g && k in t.cmds
    requires (a.ResetBus? && t.frozen) || (!ans(a).ok && a.Incomplete?)
    ensures RaisedBy(t, t.cmds[g].dev, Newstate(t, g, a, ans), k)
  {
    NewstateKeeps(t, g, a, ans);
    TurnStops(t, g, a, ans);
    hide Newstate, Asked, Scan, Stage;
  }

  lemma GoesOn(t: Tmr, g: nat, a: Action, ans: Action -> Answer)
    requires g in t.cmds && !Stops(t, a, ans)
    ensures var r, r' := Newstate(t, g, a, ans), Newstate(Refused(t, g, a, ans), g, NextAction(a), ans);
      r.t == r'.t && r.end == r'.end
  {
  }

  // ---------------------------------------------------------------- polling

  /** The first action for a request whose timer ran out in state s; none for the two states that are
      not supposed to happen. */
  predicate Recoverable(s: CmdState) { !s.Idle? && !s.Doneq? }

  function FirstAction(s: CmdState): Action
    requires Recoverable(s)
  {
    match s
    case Waitq => EarlyTimeout case Active => AbortCmd case AbortingCmd => AbortDev case AbortingDev => ResetTarget
    case ResettingDev => ResetBus case ResettingBus => Incomplete case Hung => Incomplete
  }

  ghost function ExpiredSet(t: Tmr): set<nat>
    requires Timed(t)
  {
    set k | k in t.list && Expired(t, k)
  }

  /** The place on the list of the first expired request from i on; ghd_timeout_get takes the one from 0. */
  function FirstExpired(t: Tmr, i: nat): (n: nat)
    requires (forall k :: k in t.list ==> k in t.cmds) && i <= |t.list|
    ensures i <= n <= |t.list| && (n < |t.list| ==> Expired(t, t.list[n]))
    ensures forall j :: i <= j < n ==> !Expired(t, t.list[j])
    decreases |t.list| - i
  {
    if i == |t.list| then i else if Expired(t, t.list[i]) then i else FirstExpired(t, i + 1)
  }

  /** What a request whose timer ran out goes through. */
  function Recovery(t: Tmr, g: nat, ans: Action -> Answer): Result
    requires Timed(t) && g in t.list
  {
    Newstate(t.(list := Without(t.list, {g})), g, FirstAction(t.cmds[g].state), ans)
  }

  function Recover(t: Tmr, g: nat, ans: Action -> Answer): Tmr
    requires Timed(t) && g in t.list
  {
    Recovery(t, g, ans).t
  }

  /** The first action tried, none when a bus reset is put off. */
  ghost predicate Begins(r: Result, a: Action, frozen: bool) {
    if a.ResetBus? && frozen then r.tried == [] && r.end.FrozenStop? else r.tried != [] && r.tried[0] == a
  }

  lemma BeginsWith(t: Tmr, g: nat, a: Action, ans: Action -> Answer)
    requires g in t.cmds
    ensures Begins(Newstate(t, g, a, ans), a, t.frozen)
  {
    hide Asked, Stage, Scan, Refused;
  }

  /** A request that was waiting is timed out early and an active one aborted; one whose recovery ran out of
      time goes on with the action after the one that gave it its state. */
  lemma RecoveryBegins(t: Tmr, g: nat, ans: Action -> Answer)
    requires Timed(t) && g in t.list
    ensures var r, s := Recovery(t, g, ans), t.cmds[g].state;
      && (s.Waitq? ==> Begins(r, EarlyTimeout, t.frozen))
      && (s.Active? ==> Begins(r, AbortCmd, t.frozen))
      && forall a :: Rank(a) >= 1 && s == NextState(a) ==> Begins(r, NextAction(a), t.frozen)
  {
    hide Newstate;
    BeginsWith(t.(list := Without(t.list, {g})), g, FirstAction(t.cmds[g].state), ans);
  }

  /** Recovery of an expired request expires nothing else: there is one less. */
  lemma RecoverKeeps(t: Tmr, g: nat, ans: Action -> Answer)
    requires Timed(t) && g in t.list && Expired(t, g) && Honest(g, ans)
    ensures var t' := Recover(t, g, ans); Timed(t') && ExpiredSet(t') < ExpiredSet(t)
  {
    var t1 := t.(list := Without(t.list, {g}));
    var a := FirstAction(t.cmds[g].state);
    StopKeeps(t, g);
    NewstateKeeps(t1, g, a, ans);
    var t' := Newstate(t1, g, a, ans).t;
    OthersRiseTwice(t, g, t1, t');
    assert g in ExpiredSet(t) && g !in ExpiredSet(t');
    assert forall k :: k in ExpiredSet(t') ==> k in ExpiredSet(t);
  }

  /** sol11ghd_timer_poll: all of the expired requests, or one. */
  function Poll(t: Tmr, all: bool, ans: nat -> Action -> Answer): (t': Tmr)
    requires Timed(t) && forall g :: Honest(g, ans(g))
    ensures Timed(t')
    ensures all ==> forall k :: k in t'.list ==> !Expired(t', k)
    ensures ExpiredSet(t') <= ExpiredSet(t) && (t' == t || ExpiredSet(t') < ExpiredSet(t))
    decreases ExpiredSet(t)
  {
    var n := FirstExpired(t, 0);
    if n == |t.list| then t
    else
      var g := t.list[n];
      assert g in t.list && Honest(g, ans(g));
      RecoverKeeps(t, g, ans(g));
      var t1 := Recover(t, g, ans(g));
      if all then Poll(t1, all, ans) else t1
  }

  // ---------------------------------------------------------------- the ATA driver's action function

  /** ata_timeout_func for request g, when a bus reset, if it comes to that, completes g or fails
      (Controller.ResetCompletes). */
  function AtaAnswer(g: nat, resetOk: bool): Action -> Answer {
    (a: Action) => match a
      case EarlyTimeout => Answer(true, {g})
      case EarlyAbort => Answer(true, {g})
      case ResetBus => Answer(resetOk, if resetOk then {g} else {})
      case _ => Answer(false, {})
  }

  lemma AtaHonest(g: nat, resetOk: bool)
    ensures Honest(g, AtaAnswer(g, resetOk))
  {
  }

  /** The actions an ATA request goes through from a on. */
  function AtaPlan(a: Action, frozen: bool, resetOk: bool): seq<Action>
    decreases 5 - Rank(a)
  {
    match a
    case Incomplete => [Incomplete]
    case ResetBus => if frozen then [] else if resetOk then [ResetBus] else [ResetBus, Incomplete]
    case _ => [a] + AtaPlan(NextAction(a), frozen, resetOk)
  }

  lemma {:induction false} AtaTries(t: Tmr, g: nat, a: Action, resetOk: bool)
    requires g in t.cmds && 1 <= Rank(a) <= 4
    ensures var r := Newstate(t, g, a, AtaAnswer(g, resetOk));
      && r.end == (if t.frozen then FrozenStop else if resetOk then Accepted(ResetBus) else GaveUp)
      && r.tried == AtaPlan(a, t.frozen, resetOk)
    decreases 5 - Rank(a)
  {
    var ans := AtaAnswer(g, resetOk);
    if a.ResetBus? {
      if !t.frozen && !resetOk {
        assert Newstate(Refused(t, g, a, ans), g, Incomplete, ans).tried == [Incomplete];
      }
    } else {
      AtaTries(Refused(t, g, a, ans), g, NextAction(a), resetOk);
    }
  }

  /** An active ATA request that times out goes straight to the bus reset, unless the queue is frozen, and
      is complete exactly when the reset works; otherwise it is hung and tried again in 60 seconds. */
  lemma AtaExpiry(t: Tmr, g: nat, resetOk: bool)
    requires Timed(t) && g in t.cmds && g !in t.list
    ensures var r := Newstate(t, g, AbortCmd, AtaAnswer(g, resetOk));
      && r.tried == AtaPlan(AbortCmd, t.frozen, resetOk) && g in r.t.cmds
      && (r.t.cmds[g].state.Doneq? <==> !t.frozen && resetOk)
      && (g in r.t.list <==> t.frozen || !resetOk)
      && (!t.frozen && !resetOk ==> r.t.cmds[g].state.Hung? && r.t.cmds[g].timeout == 60 * r.t.hz)
  {
    hide Newstate, OthersRise, Timed, AtaPlan;
    var ans := AtaAnswer(g, resetOk);
    AtaHonest(g, resetOk);
    NewstateKeeps(t, g, AbortCmd, ans);
    AtaTries(t, g, AbortCmd, resetOk);
  }

  /** So it goes when the timer of an active ATA request runs out. */
  lemma AtaRecovers(t: Tmr, g: nat, resetOk: bool)
    requires Timed(t) && g in t.list && t.cmds[g].state.Active?
    ensures var r := Recovery(t, g, AtaAnswer(g, resetOk));
      && r.tried == AtaPlan(AbortCmd, t.frozen, resetOk) && g in r.t.cmds
      && (r.t.cmds[g].state.Doneq? <==> !t.frozen && resetOk)
      && (g in r.t.list <==> t.frozen || !resetOk)
      && (!t.frozen && !resetOk ==> r.t.cmds[g].state.Hung? && r.t.cmds[g].timeout == 60 * r.t.hz)
  {
    WithoutIs(t.list, {g});
    StopKeeps(t, g);
    AtaExpiry(t.(list := Without(t.list, {g})), g, resetOk);
  }

  // A poll of the ATA driver's timers: at most one request is active, the others wait.

  function AtaAnswers(ok: nat -> bool): nat -> Action -> Answer { (k: nat) => AtaAnswer(k, ok(k)) }

  lemma AtaAllHonest(ok: nat -> bool)
    ensures forall k :: Honest(k, AtaAnswers(ok)(k))
  {
    forall k: nat ensures Honest(k, AtaAnswers(ok)(k)) { AtaHonest(k, ok(k)); }
  }

  /** g is the only request on the list that is not waiting, and it is active unless its timer runs. */
  ghost predicate OneActive(t: Tmr, g: nat) {
    && Timed(t) && g in t.cmds && (g in t.list && Expired(t, g) ==> t.cmds[g].state.Active?)
    && forall k :: k in t.list && k != g ==> t.cmds[k].state.Waitq?
  }

  /** What a poll does to request k. */
  ghost predicate Polled(t: Tmr, g: nat, ok: nat -> bool, k: nat, t': Tmr)
    requires k in t.cmds
  {
    && k in t'.cmds
    && (k !in t.list || !Expired(t, k) ==> (k in t'.list <==> k in t.list) && t'.cmds[k] == t.cmds[k])
    && (k in t.list && Expired(t, k) && k != g ==> k !in t'.list && t'.cmds[k].state.Doneq?)
    && (k in t.list && Expired(t, k) && k == g ==>
         && (t'.cmds[g].state.Doneq? <==> !t.frozen && ok(g)) && (g in t'.list <==> t.frozen || !ok(g))
         && (!t.frozen && !ok(g) ==> t'.cmds[g].state.Hung? && t'.cmds[g].timeout == 60 * t.hz))
  }
  function AtaPoll(t: Tmr, ok: nat -> bool): Tmr
    requires Timed(t)
  {
    AtaAllHonest(ok);
    Poll(t, true, AtaAnswers(ok))
  }

  /** Recovery for g leaves the waiting requests as they are. */
  ghost predicate WaitersSame(t: Tmr, g: nat, t': Tmr) {
    && t'.cmds.Keys == t.cmds.Keys && t'.now == t.now && t'.hz == t.hz && t'.frozen == t.frozen
    && forall k :: k in t.cmds && k != g && (k in t.list ==> t.cmds[k].state.Waitq?) ==>
         (k in t'.list <==> k in t.list) && k in t'.cmds && t'.cmds[k] == t.cmds[k]
  }

  lemma WaitersSameTwice(t: Tmr, g: nat, t1: Tmr, t2: Tmr)
    requires WaitersSame(t, g, t1) && WaitersSame(t1, g, t2)
    ensures WaitersSame(t, g, t2)
  {
  }

  lemma AskedSame(t: Tmr, g: nat, a: Action, ok: bool)
    requires Timed(t) && g in t.cmds && g !in t.list
    ensures WaitersSame(t, g, Asked(t, g, a, AtaAnswer(g, ok)))
    ensures a.ResetBus? ==> WaitersSame(t, g, Stage(t, g, a))
  {
    StageKeeps(t, g, a);
    WithoutIs(Stage(t, g, a).list, AtaAnswer(g, ok)(a).completed);
  }

  lemma ScanSame(t: Tmr, g: nat, a: Action, dev: nat)
    ensures WaitersSame(t, g, Scan(t, a, dev))
  {
  }

  lemma StopSame(t: Tmr, g: nat)
    requires Timed(t)
    ensures WaitersSame(t, g, t.(list := Without(t.list, {g})))
  {
    WithoutIs(t.list, {g});
  }

  lemma {:induction false} AtaLeavesWaiters(t: Tmr, g: nat, a: Action, ok: bool)
    requires Timed(t) && g in t.cmds && g !in t.list
    ensures WaitersSame(t, g, Newstate(t, g, a, AtaAnswer(g, ok)).t)
    decreases 5 - Rank(a)
  {
    hide WaitersSame, Stage, Asked, Scan, OthersRise, Newstate;
    var ans := AtaAnswer(g, ok);
    AtaHonest(g, ok);
    AskedSame(t, g, a, ok);
    var dev := t.cmds[g].dev;
    if Stops(t, a, ans) {
      TurnStops(t, g, a, ans);
      if a.ResetBus? && t.frozen {
        ScanSame(Stage(t, g, a), g, a, dev);
        WaitersSameTwice(t, g, Stage(t, g, a), Scan(Stage(t, g, a), a, dev));
      } else if ans(a).ok {
        ScanSame(Asked(t, g, a, ans), g, a, dev);
        WaitersSameTwice(t, g, Asked(t, g, a, ans), Scan(Asked(t, g, a, ans), a, dev));
      }
    } else {
      var t2, t3 := Asked(t, g, a, ans), Refused(t, g, a, ans);
      AskedKeeps(t, g, a, ans);
      NextTurnKeeps(t, g, a, ans);
      StopSame(t2, g);
      if t3 != t2 { WaitersSameTwice(t, g, t2, t3); }
      AtaLeavesWaiters(t3, g, NextAction(a), ok);
      GoesOn(t, g, a, ans);
      WaitersSameTwice(t, g, t3, Newstate(t3, g, NextAction(a), ans).t);
    }
  }

  lemma AtaRecoverSame(t: Tmr, g: nat, ok: bool)
    requires Timed(t) && g in t.list
    ensures WaitersSame(t, g, Recovery(t, g, AtaAnswer(g, ok)).t)
  {
    hide WaitersSame, Newstate, OthersRise;
    var off := t.(list := Without(t.list, {g}));
    StopSame(t, g);
    StopKeeps(t, g);
    AtaLeavesWaiters(off, g, FirstAction(t.cmds[g].state), ok);
    WaitersSameTwice(t, g, off, Recovery(t, g, AtaAnswer(g, ok)).t);
  }

  /** A waiting request whose timer runs out is completed. */
  lemma WaiterEnds(t: Tmr, k: nat, ok: bool)
    requires Timed(t) && k in t.list && t.cmds[k].state.Waitq?
    ensures var r := Recovery(t, k, AtaAnswer(k, ok));
      && k !in r.t.list && k in r.t.cmds && r.t.cmds[k].state.Doneq?
      && forall j :: j in t.cmds && j != k ==>
           (j in r.t.list <==> j in t.list) && j in r.t.cmds && r.t.cmds[j] == t.cmds[j]
  {
    var off, ans := t.(list := Without(t.list, {k})), AtaAnswer(k, ok);
    WithoutIs(t.list, {k});
    StopKeeps(t, k);
    var t1 := Stage(off, k, EarlyTimeout);
    StageKeeps(off, k, EarlyTimeout);
    WithoutIs(t1.list, {k});
    TurnStops(off, k, EarlyTimeout, ans);
    assert Recovery(t, k, ans).t == Scan(CompleteAll(t1, {k}), EarlyTimeout, off.cmds[k].dev);
  }

  /** One recovery of a poll, of h. */
  ghost predicate OneTurn(t: Tmr, g: nat, ok: nat -> bool, h: nat, t1: Tmr)
    requires h in t.list && h in t.cmds
  {
    && t1.now == t.now && t1.hz == t.hz && t1.frozen == t.frozen && OneActive(t1, g)
    && (forall k :: k in t.cmds && k != h ==>
          (k in t1.list <==> k in t.list) && k in t1.cmds && t1.cmds[k] == t.cmds[k])
    && h in t1.cmds && (h in t1.list ==> !Expired(t1, h))
    && (h != g ==> h !in t1.list && t1.cmds[h].state.Doneq?)
    && (h == g ==>
         && (t1.cmds[g].state.Doneq? <==> !t.frozen && ok(g)) && (g in t1.list <==> t.frozen || !ok(g))
         && (!t.frozen && !ok(g) ==> t1.cmds[g].state.Hung? && t1.cmds[g].timeout == 60 * t.hz))
  }

  lemma WaiterTurn(t: Tmr, g: nat, ok: nat -> bool, h: nat)
    requires OneActive(t, g) && h in t.list && h != g && Expired(t, h)
    ensures OneTurn(t, g, ok, h, Recover(t, h, AtaAnswers(ok)(h)))
  {
    hide Newstate;
    var ans, r := AtaAnswers(ok)(h), Recovery(t, h, AtaAnswers(ok)(h));
    AtaHonest(h, ok(h));
    WaiterEnds(t, h, ok(h));
    RecoverKeeps(t, h, ans);
    RecoveryRises(t, h, ans);
  }

  lemma ActiveTurn(t: Tmr, g: nat, ok: nat -> bool)
    requires OneActive(t, g) && g in t.list && Expired(t, g)
    ensures OneTurn(t, g, ok, g, Recover(t, g, AtaAnswers(ok)(g)))
  {
    hide Newstate;
    var ans, r := AtaAnswers(ok)(g), Recovery(t, g, AtaAnswers(ok)(g));
    AtaHonest(g, ok(g));
    AtaRecovers(t, g, ok(g));
    AtaRecoverSame(t, g, ok(g));
    RecoverKeeps(t, g, ans);
    RecoveryRises(t, g, ans);
  }

  lemma RecoveryRises(t: Tmr, g: nat, ans: Action -> Answer)
    requires Timed(t) && g in t.list && Honest(g, ans)
    ensures var t1 := Recovery(t, g, ans).t;
      && t1.now == t.now && t1.hz == t.hz && t1.frozen == t.frozen && g in t1.cmds
      && (g in t1.list ==> t1.cmds[g].start == t1.now && t1.cmds[g].timeout > 0)
      && (forall k :: k in t1.list && k != g ==> k in t.list)
  {
    WithoutIs(t.list, {g});
    StopKeeps(t, g);
    NewstateKeeps(t.(list := Without(t.list, {g})), g, FirstAction(t.cmds[g].state), ans);
  }

  /** Over a whole poll of the ATA driver's timers: requests whose timers run are left alone, waiting ones whose
      timers ran out are completed, and the active one is if and only if the queue is not frozen and the bus
      reset works; otherwise it keeps a timer that has just been started. */
  lemma {:induction false} AtaPolls(t: Tmr, g: nat, ok: nat -> bool, k: nat)
    requires OneActive(t, g) && k in t.cmds
    ensures Polled(t, g, ok, k, AtaPoll(t, ok))
    decreases ExpiredSet(t)
  {
    hide Newstate, Recovery;
    AtaAllHonest(ok);
    var n := FirstExpired(t, 0);
    if n < |t.list| {
      var h := t.list[n];
      assert h in t.list;
      var t1 := Recover(t, h, AtaAnswers(ok)(h));
      RecoverKeeps(t, h, AtaAnswers(ok)(h));
      if h == g { ActiveTurn(t, g, ok); } else { WaiterTurn(t, g, ok, h); }
      assert AtaPoll(t, ok) == AtaPoll(t1, ok);
      AfterTurn(t, g, ok, h, t1, k);
    }
  }

  lemma {:induction false} AfterTurn(t: Tmr, g: nat, ok: nat -> bool, h: nat, t1: Tmr, k: nat)
    requires OneActive(t, g) && h in t.list && Expired(t, h) && OneTurn(t, g, ok, h, t1) && k in t.cmds
    requires ExpiredSet(t1) < ExpiredSet(t)
    ensures Polled(t, g, ok, k, AtaPoll(t1, ok))
    decreases ExpiredSet(t), 0
  {
    hide AtaPoll;
    AtaPolls(t1, g, ok, k);
  }

  lemma IncompleteIsLast(t: Tmr, g: nat, ans: Action -> Answer)
    requires g in t.cmds
    ensures Newstate(t, g, Incomplete, ans).tried == [Incomplete]
  {
  }

  /** A bus reset that was not tried because the queue was frozen is never tried: when the timer that was
      started for it runs out, recovery gives the request up. */
  lemma FrozenResetIsSkipped(t: Tmr, g: nat, ans: Action -> Answer, later: nat)
    requires Timed(t) && g in t.cmds && g !in t.list && t.frozen && Honest(g, ans)
    ensures var t1 := Newstate(t, g, ResetBus, ans).t.(now := t.now + later, frozen := false);
      && Timed(t1) && g in t1.list && FirstAction(t1.cmds[g].state) == Incomplete
      && Newstate(t1.(list := Without(t1.list, {g})), g, Incomplete, ans).tried == [Incomplete]
  {
    hide Newstate;
    NewstateKeeps(t, g, ResetBus, ans);
    FrozenStops(t, g, ans);
    var t1 := Newstate(t, g, ResetBus, ans).t.(now := t.now + later, frozen := false);
    IncompleteIsLast(t1.(list := Without(t1.list, {g})), g, ans);
  }

  lemma FrozenStops(t: Tmr, g: nat, ans: Action -> Answer)
    requires g in t.cmds && t.frozen
    ensures Newstate(t, g, ResetBus, ans).end == FrozenStop
  {
  }

  // ---------------------------------------------------------------- runs

  /** What happens to the requests of an adapter. */
  datatype Event =
    | Transport(g: nat, dev: nat, seconds: nat)          // sol11ghd_transport: queued, with a timer
    | Start(g: nat)                                      // the wait queue hands it to the driver
    | Refuse(g: nat)                                     // the driver does not take it
    | Complete(ids: set<nat>)                            // GHD_COMPLETE
    | Callback(g: nat)                                   // the target driver has it again
    | Abort(g: nat, ans: Action -> Answer)               // sol11ghd_tran_abort
    | Sweep(a: Action, dev: nat)                         // a device or bus wide action was taken
    | Expire(all: bool, answers: nat -> Action -> Answer) // sol11ghd_timer_poll
    | Tick(ticks: nat)
    | Freeze(frozen: bool)

  ghost predicate Enabled(t: Tmr, e: Event) {
    match e
    case Transport(g, _, _) => g in t.cmds ==> t.cmds[g].state.Idle?
    case Start(g) => g in t.cmds && t.cmds[g].state.Waitq?
    case Refuse(g) => g in t.cmds && t.cmds[g].state.Active?
    case Callback(g) => g in t.cmds && t.cmds[g].state.Doneq?
    case Abort(g, ans) => g in t.cmds && Honest(g, ans)
    case Expire(_, answers) => Timed(t) && forall g :: Honest(g, answers(g))
    case _ => true
  }

  function Aborted(t: Tmr, g: nat, ans: Action -> Answer): Tmr
    requires g in t.cmds
  {
    var off := t.(list := Without(t.list, {g}));
    match t.cmds[g].state
    case Waitq => Newstate(off, g, EarlyAbort, ans).t
    case Active => Newstate(off, g, AbortCmd, ans).t
    case _ => t
  }

  ghost function Next(t: Tmr, e: Event): Tmr
    requires Enabled(t, e)
  {
    match e
    case Transport(g, dev, seconds) =>
      t.(cmds := t.cmds[g := T(Waitq, dev, t.now, seconds * t.hz)], list := t.list + [g])
    case Start(g) => t.(cmds := t.cmds[g := t.cmds[g].(state := Active)])
    case Refuse(g) => t.(cmds := t.cmds[g := t.cmds[g].(state := Waitq)])
    case Complete(ids) => CompleteAll(t, ids)
    case Callback(g) => t.(cmds := t.cmds[g := t.cmds[g].(state := Idle)])
    case Abort(g, ans) => Aborted(t, g, ans)
    case Sweep(a, dev) => Scan(t, a, dev)
    case Expire(all, answers) => Poll(t, all, answers)
    case Tick(ticks) => t.(now := t.now + ticks)
    case Freeze(frozen) => t.(frozen := frozen)
  }

  /** The requests on the list are those that are queued, with the driver, or being recovered, each once. */
  ghost predicate Sound(t: Tmr) {
    Timed(t) && forall k :: k in t.cmds ==> (k in t.list <==> Recoverable(t.cmds[k].state))
  }

  lemma NewstateSound(t: Tmr, g: nat, a: Action, ans: Action -> Answer)
    requires Sound(t) && g in t.list && Honest(g, ans)
    ensures Sound(Newstate(t.(list := Without(t.list, {g})), g, a, ans).t)
  {
    var off := t.(list := Without(t.list, {g}));
    WithoutIs(t.list, {g});
    StopKeeps(t, g);
    NewstateKeeps(off, g, a, ans);
    hide Newstate, Without;
    SoundAgain(t, g, off, Newstate(off, g, a, ans).t);
  }

  lemma SoundAgain(t: Tmr, g: nat, off: Tmr, t': Tmr)
    requires Sound(t) && g in t.list && Timed(t') && off == t.(list := off.list)
    requires forall k :: k in off.list <==> k in t.list && k != g
    requires OthersRise(off, g, t') && g in t'.cmds && (g !in t'.list ==> t'.cmds[g].state.Doneq?)
    ensures Sound(t')
  {
  }

  lemma {:induction false} PollSound(t: Tmr, all: bool, ans: nat -> Action -> Answer)
    requires Sound(t) && forall g :: Honest(g, ans(g))
    ensures Sound(Poll(t, all, ans))
    decreases ExpiredSet(t)
  {
    var n := FirstExpired(t, 0);
    if n < |t.list| {
      var g := t.list[n];
      assert g in t.list && Honest(g, ans(g));
      NewstateSound(t, g, FirstAction(t.cmds[g].state), ans(g));
      RecoverKeeps(t, g, ans(g));
      if all { PollSound(Recover(t, g, ans(g)), all, ans); }
    }
  }

  lemma TransportSound(t: Tmr, e: Event)
    requires Sound(t) && e.Transport? && Enabled(t, e)
    ensures Sound(Next(t, e))
  {
    var t' := Next(t, e);
    assert e.g !in t.list;
    assert forall k :: k in t'.list <==> k in t.list || k == e.g;
  }

  lemma NextSound(t: Tmr, e: Event)
    requires Sound(t) && Enabled(t, e)
    ensures Sound(Next(t, e))
  {
    match e
    case Transport(_, _, _) => TransportSound(t, e);
    case Complete(ids) => WithoutIs(t.list, ids);
    case Abort(g, ans) => AbortSound(t, g, ans);
    case Sweep(a, dev) => SweepSound(t, a, dev);
    case Expire(all, answers) => PollSound(t, all, answers);
    case _ =>
  }

  lemma AbortSound(t: Tmr, g: nat, ans: Action -> Answer)
    requires Sound(t) && g in t.cmds && Honest(g, ans)
    ensures Sound(Aborted(t, g, ans))
  {
    match t.cmds[g].state
    case Waitq => NewstateSound(t, g, EarlyAbort, ans);
    case Active => NewstateSound(t, g, AbortCmd, ans);
    case _ =>
  }

  lemma SweepSound(t: Tmr, a: Action, dev: nat)
    requires Sound(t)
    ensures Sound(Scan(t, a, dev))
  {
  }

  ghost predicate Run(states: seq<Tmr>, events: seq<Event>, hz: nat) {
    && |states| == |events| + 1 && hz > 0 && states[0] == Tmr([], map[], false, 0, hz)
    && forall i :: 0 <= i < |events| ==> Enabled(states[i], events[i]) && states[i + 1] == Next(states[i], events[i])
  }

  /** In every run of an adapter's requests, whatever is transported, started, completed, aborted and timed
      out, each request that is neither idle nor done has its timer on the list, once, and no other has. */
  lemma {:induction false} OnceWhileOutstanding(states: seq<Tmr>, events: seq<Event>, hz: nat, i: nat)
    requires Run(states, events, hz) && i < |states|
    ensures Sound(states[i])
  {
    if i > 0 {
      OnceWhileOutstanding(states, events, hz, i - 1);
      NextSound(states[i - 1], events[i - 1]);
    }
  }

  // What a run promises a request about its time.

  lemma Stepped(states: seq<Tmr>, events: seq<Event>, hz: nat, i: nat)
    requires Run(states, events, hz) && 0 < i < |states|
    ensures Enabled(states[i - 1], events[i - 1]) && states[i] == Next(states[i - 1], events[i - 1])
  {
  }

  lemma RunLengths(states: seq<Tmr>, events: seq<Event>, hz: nat)
    requires Run(states, events, hz)
    ensures |states| == |events| + 1
  {
  }

  /** Recovery gives an abort of a request or of a device 3 seconds, a device reset 5, a bus reset 10, and comes
      back to a hung request after 60. */
  lemma RecoveryTimes(t: Tmr, g: nat, a: Action, ans: Action -> Answer)
    requires Timed(t) && g in t.cmds && g !in t.list && Honest(g, ans)
    ensures var t' := Newstate(t, g, a, ans).t;
      && g in t'.cmds
      && (g !in t'.list ==> t'.cmds[g].state.Doneq?)
      && (g in t'.list ==> t'.cmds[g].start == t'.now == t.now)
      && (g in t'.list && t'.cmds[g].state in {AbortingCmd, AbortingDev} ==> t'.cmds[g].timeout == 3 * t.hz)
      && (g in t'.list && t'.cmds[g].state.ResettingDev? ==> t'.cmds[g].timeout == 5 * t.hz)
      && (g in t'.list && t'.cmds[g].state.ResettingBus? ==> t'.cmds[g].timeout == 10 * t.hz)
      && (g in t'.list && t'.cmds[g].state.Hung? ==> t'.cmds[g].timeout == 60 * t.hz)
      && (g in t'.list ==> t'.cmds[g].state in {AbortingCmd, AbortingDev, ResettingDev, ResettingBus, Hung})
  {
    hide Newstate, OthersRise;
    NewstateKeeps(t, g, a, ans);
    SameClock(t, g, Newstate(t, g, a, ans).t);
  }

  /** The timer of k is as it was, or k is off the list. */
  ghost predicate TimerSame(t: Tmr, k: nat, t': Tmr)
    requires k in t.cmds
  {
    && t'.hz == t.hz && k in t'.cmds
    && (k in t'.list ==> t'.cmds[k].start == t.cmds[k].start && t'.cmds[k].timeout == t.cmds[k].timeout)
  }

  /** Recovery of another request. */
  lemma RecoveryTimer(t: Tmr, g: nat, a: Action, ans: Action -> Answer, k: nat)
    requires Timed(t) && g in t.list && Honest(g, ans) && k in t.list && k != g
    ensures var t' := Newstate(t.(list := Without(t.list, {g})), g, a, ans).t;
      TimerSame(t, k, t') && t'.now == t.now && Timed(t')
  {
    hide Newstate;
    var off := t.(list := Without(t.list, {g}));
    WithoutIs(t.list, {g});
    StopKeeps(t, g);
    NewstateKeeps(off, g, a, ans);
  }

  /** What a poll does to a request: nothing to its timer, or it is complete, or its recovery has just begun. */
  ghost predicate PollDoes(t: Tmr, k: nat, t': Tmr)
    requires k in t.cmds
  {
    && t'.now == t.now && t'.hz == t.hz && k in t'.cmds
    && (k !in t'.list ==> t'.cmds[k].state.Doneq?)
    && (k in t'.list ==>
         || (t'.cmds[k].start == t.cmds[k].start && t'.cmds[k].timeout == t.cmds[k].timeout)
         || (Expired(t, k) && t'.cmds[k].start == t.now && Recovering(t'.cmds[k].state)))
  }

  lemma OffStaysOff(t: Tmr, all: bool, ans: nat -> Action -> Answer, k: nat)
    requires Timed(t) && (forall g :: Honest(g, ans(g))) && k in t.cmds && k !in t.list && t.cmds[k].state.Doneq?
    ensures var t' := Poll(t, all, ans);
      k !in t'.list && k in t'.cmds && t'.cmds[k].state.Doneq? && t'.now == t.now && t'.hz == t.hz
    decreases ExpiredSet(t)
  {
    hide Newstate;
    var n := FirstExpired(t, 0);
    if n < |t.list| {
      var g := t.list[n];
      assert g in t.list && Honest(g, ans(g));
      var t1 := Recover(t, g, ans(g));
      RecoverKeeps(t, g, ans(g));
      RecoveryRises(t, g, ans(g));
      RecoveryKnows(t, g, ans(g), k);
      if all { OffStaysOff(t1, all, ans, k); }
    }
  }

  lemma RecoveryKnows(t: Tmr, g: nat, ans: Action -> Answer, k: nat)
    requires Timed(t) && g in t.list && Honest(g, ans) && k in t.cmds
    ensures var t' := Recovery(t, g, ans).t;
      && k in t'.cmds && g in t'.cmds
      && (if g in t'.list then Recovering(t'.cmds[g].state) else t'.cmds[g].state.Doneq?)
      && (k !in t'.list && (k in t.list || t.cmds[k].state.Doneq?) ==> t'.cmds[k].state.Doneq?)
  {
    hide Newstate;
    var off, a := t.(list := Without(t.list, {g})), FirstAction(t.cmds[g].state);
    WithoutIs(t.list, {g});
    StopKeeps(t, g);
    NewstateKeeps(off, g, a, ans);
    hide Recovery;
    KnownAfter(off, g, Newstate(off, g, a, ans).t, Newstate(off, g, a, ans).end, ans, k);
  }

  lemma KnownAfter(t: Tmr, g: nat, t': Tmr, end: End, ans: Action -> Answer, k: nat)
    requires OthersRise(t, g, t') && Settles(t, g, t', end, ans) && g !in t.list && g in t.cmds && k in t.cmds
    ensures k in t'.cmds && g in t'.cmds
    ensures if g in t'.list then Recovering(t'.cmds[g].state) else t'.cmds[g].state.Doneq?
    ensures k != g && k !in t'.list && (k in t.list || t.cmds[k].state.Doneq?) ==> t'.cmds[k].state.Doneq?
  {
  }

  /** Recovery of another leaves k's recovery state one. */
  lemma StillRecovering(t: Tmr, g: nat, ans: Action -> Answer, k: nat)
    requires Timed(t) && g in t.list && Honest(g, ans) && k in t.list && k != g && Recovering(t.cmds[k].state)
    ensures var t' := Recovery(t, g, ans).t; k in t'.cmds && (k in t'.list ==> Recovering(t'.cmds[k].state))
  {
    hide Newstate;
    var off := t.(list := Without(t.list, {g}));
    WithoutIs(t.list, {g});
    StopKeeps(t, g);
    NewstateKeeps(off, g, FirstAction(t.cmds[g].state), ans);
  }

  lemma {:induction false} RecoveredStays(t: Tmr, all: bool, ans: nat -> Action -> Answer, k: nat)
    requires Timed(t) && (forall g :: Honest(g, ans(g))) && k in t.list && !Expired(t, k)
    ensures var t' := Poll(t, all, ans);
      && k in t'.cmds && t'.now == t.now && t'.hz == t.hz
      && (k !in t'.list ==> t'.cmds[k].state.Doneq?)
      && (k in t'.list ==> t'.cmds[k].start == t.cmds[k].start && t'.cmds[k].timeout == t.cmds[k].timeout)
      && (k in t'.list && Recovering(t.cmds[k].state) ==> Recovering(t'.cmds[k].state))
    decreases ExpiredSet(t)
  {
    hide Newstate;
    var n := FirstExpired(t, 0);
    if n < |t.list| {
      var g := t.list[n];
      assert g in t.list && Honest(g, ans(g)) && g != k;
      var t1 := Recover(t, g, ans(g));
      RecoverKeeps(t, g, ans(g));
      RecoveryKnows(t, g, ans(g), k);
      RecoveryTimer(t, g, FirstAction(t.cmds[g].state), ans(g), k);
      if Recovering(t.cmds[k].state) { StillRecovering(t, g, ans(g), k); }
      if all {
        if k in t1.list { RecoveredStays(t1, all, ans, k); } else { OffStaysOff(t1, all, ans, k); }
      }
    }
  }

  lemma {:induction false} PollTouches(t: Tmr, all: bool, ans: nat -> Action -> Answer, k: nat)
    requires Timed(t) && (forall g :: Honest(g, ans(g))) && k in t.list
    ensures PollDoes(t, k, Poll(t, all, ans))
    decreases ExpiredSet(t)
  {
    hide Newstate;
    var n := FirstExpired(t, 0);
    if n < |t.list| {
      var g := t.list[n];
      assert g in t.list && Honest(g, ans(g));
      var t1 := Recover(t, g, ans(g));
      RecoverKeeps(t, g, ans(g));
      RecoveryRises(t, g, ans(g));
      RecoveryKnows(t, g, ans(g), k);
      if g != k { RecoveryTimer(t, g, FirstAction(t.cmds[g].state), ans(g), k); }
      if all {
        if k !in t1.list {
          OffStaysOff(t1, all, ans, k);
        } else if g == k {
          RecoveredStays(t1, all, ans, k);
        } else {
          PollTouches(t1, all, ans, k);
        }
      }
    }
  }

  /** Everything else that happens leaves the timer of a listed request alone. */
  lemma TimerKept(t: Tmr, e: Event, k: nat)
    requires Sound(t) && Enabled(t, e) && k in t.list && !(e.Abort? && e.g == k) && !e.Expire?
    ensures TimerSame(t, k, Next(t, e))
  {
    match e
    case Abort(g, ans) => AbortTimer(t, g, ans, k);
    case Complete(ids) => WithoutIs(t.list, ids);
    case _ =>
  }

  lemma AbortTimer(t: Tmr, g: nat, ans: Action -> Answer, k: nat)
    requires Sound(t) && g in t.cmds && Honest(g, ans) && k in t.list && k != g
    ensures TimerSame(t, k, Aborted(t, g, ans))
  {
    hide Newstate, TimerSame;
    match t.cmds[g].state
    case Waitq => RecoveryTimer(t, g, EarlyAbort, ans, k);
    case Active => RecoveryTimer(t, g, AbortCmd, ans, k);
    case _ => NoChange(t, k);
  }

  lemma NoChange(t: Tmr, k: nat)
    requires k in t.cmds
    ensures TimerSame(t, k, t)
  {
  }

  /** Between its submission and this state the request was never off the list, aborted, or found expired. */
  ghost predicate Untouched(states: seq<Tmr>, events: seq<Event>, g: nat, j: nat, i: nat)
    requires j < i <= |events| < |states|
  {
    && (forall m :: j < m <= i ==> g in states[m].list && g in states[m].cmds)
    && forall m :: j < m < i ==>
      !(events[m].Abort? && events[m].g == g)
      && !(events[m].Expire? && g in states[m].cmds && Expired(states[m], g))
  }

  lemma OneStepUntouched(t: Tmr, e: Event, t': Tmr, g: nat)
    requires Sound(t) && Enabled(t, e) && t' == Next(t, e) && g in t.list && g in t'.list && g in t'.cmds
    requires !(e.Abort? && e.g == g) && !(e.Expire? && Expired(t, g))
    ensures TimerSame(t, g, t')
  {
    if e.Expire? {
      hide Next;
      PollIs(t, e);
      RecoveredStays(t, e.all, e.answers, g);
      hide Poll;
    } else {
      TimerKept(t, e, g);
      hide Next, Poll;
    }
  }

  lemma PollIs(t: Tmr, e: Event)
    requires Enabled(t, e) && e.Expire?
    ensures Next(t, e) == Poll(t, e.all, e.answers)
  {
  }

  lemma Submitted(t: Tmr, e: Event)
    requires e.Transport? && Enabled(t, e)
    ensures var t' := Next(t, e);
      t'.hz == t.hz && e.g in t'.list && e.g in t'.cmds && t'.cmds[e.g] == T(Waitq, e.dev, t.now, e.seconds * t.hz)
  {
  }

  /** A request's time runs from its submission: until something takes it off the list or recovery turns to it,
      its timer has run out exactly when the seconds it came with have passed, however it was started or
      refused in between. */
  lemma {:induction false} Deadline(states: seq<Tmr>, events: seq<Event>, hz: nat, j: nat, i: nat)
    requires Run(states, events, hz) && j < i < |states| && events[j].Transport?
    requires Untouched(states, events, events[j].g, j, i)
    ensures var g := events[j].g;
      && g in states[i].cmds
      && (Expired(states[i], g) <==>
           events[j].seconds > 0 && states[i].now - states[j].now >= events[j].seconds * states[j].hz)
  {
    RunsFrom(states, events, hz, j, i);
    OnceWhileOutstanding(states, events, hz, j);
    HzPositive(states[j]);
    hide Run, Untouched, Sound;
  }

  /** The timer of events[j].g as its submission set it. */
  ghost predicate TimerOf(states: seq<Tmr>, e: Event, j: nat, i: nat)
    requires j < |states| && i < |states| && e.Transport?
  {
    && states[i].hz == states[j].hz && e.g in states[i].cmds
    && states[i].cmds[e.g].start == states[j].now && states[i].cmds[e.g].timeout == e.seconds * states[j].hz
  }

  lemma UntouchedLast(states: seq<Tmr>, events: seq<Event>, g: nat, j: nat, i: nat)
    requires j + 1 < i <= |events| < |states| && Untouched(states, events, g, j, i)
    ensures var t, t', e := states[i - 1], states[i], events[i - 1];
      && g in t.list && g in t.cmds && g in t'.list && g in t'.cmds
      && !(e.Abort? && e.g == g) && !(e.Expire? && Expired(t, g))
  {
  }

  lemma TimerGoesOn(states: seq<Tmr>, e: Event, j: nat, i: nat)
    requires j < |states| && 0 < i < |states| && e.Transport? && TimerOf(states, e, j, i - 1)
    requires e.g in states[i].list && TimerSame(states[i - 1], e.g, states[i])
    ensures TimerOf(states, e, j, i)
  {
  }

  lemma NextRuns(states: seq<Tmr>, events: seq<Event>, hz: nat, j: nat, i: nat)
    requires Run(states, events, hz) && j + 1 < i < |states| && events[j].Transport?
    requires Untouched(states, events, events[j].g, j, i) && TimerOf(states, events[j], j, i - 1)
    ensures TimerOf(states, events[j], j, i)
  {
    UntouchedLast(states, events, events[j].g, j, i);
    OnceWhileOutstanding(states, events, hz, i - 1);
    Stepped(states, events, hz, i);
    hide *;
    OneStepUntouched(states[i - 1], events[i - 1], states[i], events[j].g);
    TimerGoesOn(states, events[j], j, i);
  }

  lemma FirstRuns(states: seq<Tmr>, events: seq<Event>, hz: nat, j: nat)
    requires Run(states, events, hz) && j + 1 < |states| && events[j].Transport?
    ensures TimerOf(states, events[j], j, j + 1)
  {
    Stepped(states, events, hz, j + 1);
    hide Run, Next, Enabled;
    Submitted(states[j], events[j]);
  }

  lemma UntouchedBefore(states: seq<Tmr>, events: seq<Event>, g: nat, j: nat, i: nat)
    requires j + 1 < i <= |events| < |states| && Untouched(states, events, g, j, i)
    ensures Untouched(states, events, g, j, i - 1)
  {
  }

  lemma {:induction false} RunsFrom(states: seq<Tmr>, events: seq<Event>, hz: nat, j: nat, i: nat)
    requires Run(states, events, hz) && j < i < |states| && events[j].Transport?
    requires Untouched(states, events, events[j].g, j, i)
    ensures TimerOf(states, events[j], j, i)
  {
    RunLengths(states, events, hz);
    hide *;
    if i == j + 1 {
      FirstRuns(states, events, hz, j);
    } else {
      UntouchedBefore(states, events, events[j].g, j, i);
      RunsFrom(states, events, hz, j, i - 1);
      NextRuns(states, events, hz, j, i);
    }
  }

  lemma HzPositive(t: Tmr)
    requires Sound(t)
    ensures t.hz > 0
  {
  }

  /** And the poll after that recovers it: it is complete, or its recovery has just begun; and no request is left
      whose time is up. */
  lemma RunsOut(states: seq<Tmr>, events: seq<Event>, hz: nat, i: nat, g: nat)
    requires Run(states, events, hz) && i < |events| && events[i].Expire? && events[i].all
    requires g in states[i].list && g in states[i].cmds && Expired(states[i], g)
    ensures var t := states[i + 1];
      && g in t.cmds && (forall k :: k in t.list && k in t.cmds ==> !Expired(t, k))
      && if g in t.list then t.cmds[g].start == t.now && Recovering(t.cmds[g].state) else t.cmds[g].state.Doneq?
  {
    OnceWhileOutstanding(states, events, hz, i);
    Stepped(states, events, hz, i + 1);
    hide Run;
    PollIs(states[i], events[i]);
    hide Next;
    EndsIt(states[i], events[i], g);
    hide Poll;
  }

  lemma EndsIt(t: Tmr, e: Event, g: nat)
    requires Sound(t) && e.Expire? && e.all && Enabled(t, e) && g in t.list && g in t.cmds && Expired(t, g)
    ensures var t' := Poll(t, true, e.answers);
      && g in t'.cmds && (forall k :: k in t'.list && k in t'.cmds ==> !Expired(t', k))
      && if g in t'.list then t'.cmds[g].start == t'.now && Recovering(t'.cmds[g].state) else t'.cmds[g].state.Doneq?
  {
    PollTouches(t, true, e.answers, g);
    var t' := Poll(t, true, e.answers);
    if g in t'.list { assert !Expired(t', g); }
    hide Poll;
  }

  /** The target driver's abort of a request that waits or is active ends it or begins its recovery at once: early
      when it waits and the driver can still take it out, and with an abort of the command when it is active.
      In any other state the abort does nothing. */
  lemma AbortEnds(t: Tmr, g: nat, ans: Action -> Answer)
    requires Sound(t) && g in t.cmds && Honest(g, ans)
    ensures var t', s := Aborted(t, g, ans), t.cmds[g].state;
      && g in t'.cmds
      && (!s.Waitq? && !s.Active? ==> t' == t)
      && (s.Waitq? || s.Active? ==>
           if g in t'.list then t'.cmds[g].start == t.now && Recovering(t'.cmds[g].state) else t'.cmds[g].state.Doneq?)
      && (s.Waitq? && ans(EarlyAbort).ok ==> t'.cmds[g].state.Doneq?)
      && (s.Active? && ans(AbortCmd).ok && g !in ans(AbortCmd).completed ==> t'.cmds[g].state.AbortingCmd?)
  {
    hide Newstate, OthersRise;
    match t.cmds[g].state
    case Waitq => AbortFrom(t, g, EarlyAbort, ans);
    case Active => AbortFrom(t, g, AbortCmd, ans);
    case _ =>
  }

  lemma AbortFrom(t: Tmr, g: nat, a: Action, ans: Action -> Answer)
    requires Sound(t) && g in t.list && Honest(g, ans) && (a.EarlyAbort? || a.AbortCmd?)
    ensures var t' := Newstate(t.(list := Without(t.list, {g})), g, a, ans).t;
      && g in t'.cmds
      && (if g in t'.list then t'.cmds[g].start == t.now && Recovering(t'.cmds[g].state) else t'.cmds[g].state.Doneq?)
      && (ans(a).ok ==> (g in ans(a).completed ==> t'.cmds[g].state.Doneq?))
      && (ans(a).ok && g !in ans(a).completed ==> t'.cmds[g].state == NextState(a))
  {
    hide Stage, Asked, Scan, OthersRise;
    var off := t.(list := Without(t.list, {g}));
    WithoutIs(t.list, {g});
    StopKeeps(t, g);
    NewstateKeeps(off, g, a, ans);
    SameClock(off, g, Newstate(off, g, a, ans).t);
    if ans(a).ok { TurnStops(off, g, a, ans); }
    hide Newstate;
  }

  /** A request that is done stays so until the target driver has it again. */
  lemma StaysDone(t: Tmr, e: Event, g: nat)
    requires Sound(t) && Enabled(t, e) && g in t.cmds && t.cmds[g].state.Doneq? && !(e.Callback? && e.g == g)
    ensures var t' := Next(t, e); g in t'.cmds && t'.cmds[g].state.Doneq?
  {
    match e
    case Abort(k, ans) => if k != g { AbortLeavesDone(t, k, ans, g); }
    case Expire(all, answers) => OffStaysOff(t, all, answers, g);
    case _ =>
  }

  lemma AbortLeavesDone(t: Tmr, k: nat, ans: Action -> Answer, g: nat)
    requires Sound(t) && k in t.cmds && Honest(k, ans) && g in t.cmds && t.cmds[g].state.Doneq? && k != g
    ensures var t' := Aborted(t, k, ans); g in t'.cmds && t'.cmds[g].state.Doneq?
  {
    hide Newstate;
    match t.cmds[k].state
    case Waitq => DoneBeside(t, k, EarlyAbort, ans, g);
    case Active => DoneBeside(t, k, AbortCmd, ans, g);
    case _ =>
  }

  lemma DoneBeside(t: Tmr, k: nat, a: Action, ans: Action -> Answer, g: nat)
    requires Sound(t) && k in t.list && Honest(k, ans) && g in t.cmds && t.cmds[g].state.Doneq? && k != g
    ensures var t' := Newstate(t.(list := Without(t.list, {k})), k, a, ans).t; g in t'.cmds && t'.cmds[g].state.Doneq?
  {
    hide Newstate;
    WithoutIs(t.list, {k});
    StopKeeps(t, k);
    NewstateKeeps(t.(list := Without(t.list, {k})), k, a, ans);
  }

  lemma Completes(t: Tmr, e: Event, g: nat)
    requires e.Complete? && g in e.ids && g in t.cmds
    ensures Enabled(t, e) && var t' := Next(t, e); g in t'.cmds && t'.cmds[g].state.Doneq?
  {
  }

  /** From its completion on a request has no timer: neither a poll nor an abort nor another's recovery turns to it
      until the target driver has it again. */
  lemma {:induction false} DoneStays(states: seq<Tmr>, events: seq<Event>, hz: nat, j: nat, i: nat, g: nat)
    requires Run(states, events, hz) && j < i < |states| && events[j].Complete? && g in events[j].ids
    requires g in states[j].cmds && forall m :: j < m < i ==> !(events[m].Callback? && events[m].g == g)
    ensures g in states[i].cmds && states[i].cmds[g].state.Doneq? && g !in states[i].list
  {
    RunLengths(states, events, hz);
    hide Run, Next, Enabled, Sound, OthersRise;
    OnceWhileOutstanding(states, events, hz, i - 1);
    OnceWhileOutstanding(states, events, hz, i);
    Stepped(states, events, hz, i);
    if i == j + 1 {
      Completes(states[j], events[j], g);
    } else {
      DoneStays(states, events, hz, j, i - 1, g);
      StaysDone(states[i - 1], events[i - 1], g);
    }
    DoneIsOff(states[i], g);
  }

  lemma DoneIsOff(t: Tmr, g: nat)
    requires Sound(t) && g in t.cmds && t.cmds[g].state.Doneq?
    ensures g !in t.list
  {
  }

  /** A start and a refusal leave the timer running, and the state says who has the request; when the target driver
      has it again it can be submitted anew. */
  lemma HandedOver(states: seq<Tmr>, events: seq<Event>, hz: nat, i: nat)
    requires Run(states, events, hz) && i < |events| && (events[i].Start? || events[i].Refuse? || events[i].Callback?)
    ensures var t, t', e, g := states[i], states[i + 1], events[i], events[i].g;
      && g in t.cmds && g in t'.cmds && t'.list == t.list
      && t'.cmds[g] == t.cmds[g].(state := if e.Start? then Active else if e.Refuse? then Waitq else Idle)
  {
    Stepped(states, events, hz, i + 1);
  }

  /** The clock and the freeze are what the ticks and the freezes have come to. */
  function Elapsed(events: seq<Event>, i: nat): nat
    requires i <= |events|
  {
    if i == 0 then 0 else Elapsed(events, i - 1) + if events[i - 1].Tick? then events[i - 1].ticks else 0
  }

  function FrozenAt(events: seq<Event>, i: nat): bool
    requires i <= |events|
  {
    i > 0 && if events[i - 1].Freeze? then events[i - 1].frozen else FrozenAt(events, i - 1)
  }

  lemma {:induction false} PollClock(t: Tmr, all: bool, ans: nat -> Action -> Answer)
    requires Timed(t) && forall g :: Honest(g, ans(g))
    ensures var t' := Poll(t, all, ans); t'.now == t.now && t'.frozen == t.frozen && t'.hz == t.hz
    decreases ExpiredSet(t)
  {
    hide Newstate, Recovery;
    var n := FirstExpired(t, 0);
    if n < |t.list| {
      var g := t.list[n];
      assert g in t.list && Honest(g, ans(g));
      RecoverKeeps(t, g, ans(g));
      RecoveryRises(t, g, ans(g));
      if all { PollClock(Recover(t, g, ans(g)), all, ans); }
    }
  }

  lemma NextClock(t: Tmr, e: Event)
    requires Sound(t) && Enabled(t, e)
    ensures var t' := Next(t, e);
      && t'.now == t.now + (if e.Tick? then e.ticks else 0) && t'.hz == t.hz
      && t'.frozen == if e.Freeze? then e.frozen else t.frozen
  {
    match e
    case Abort(g, ans) => AbortClock(t, g, ans);
    case Expire(all, answers) => PollClock(t, all, answers);
    case _ =>
  }

  lemma AbortClock(t: Tmr, g: nat, ans: Action -> Answer)
    requires Sound(t) && g in t.cmds && Honest(g, ans)
    ensures var t' := Aborted(t, g, ans); t'.now == t.now && t'.frozen == t.frozen && t'.hz == t.hz
  {
    hide Newstate;
    var off := t.(list := Without(t.list, {g}));
    WithoutIs(t.list, {g});
    StopKeeps(t, g);
    match t.cmds[g].state
    case Waitq => NewstateKeeps(off, g, EarlyAbort, ans);
    case Active => NewstateKeeps(off, g, AbortCmd, ans);
    case _ =>
  }

  lemma {:induction false} Clock(states: seq<Tmr>, events: seq<Event>, hz: nat, i: nat)
    requires Run(states, events, hz) && i < |states|
    ensures states[i].now == Elapsed(events, i) && states[i].frozen == FrozenAt(events, i) && states[i].hz == hz
  {
    if i > 0 {
      Clock(states, events, hz, i - 1);
      OnceWhileOutstanding(states, events, hz, i - 1);
      Stepped(states, events, hz, i);
      hide Run, Next, Enabled, Sound;
      NextClock(states[i - 1], events[i - 1]);
    }
  }

  /** When a device or bus wide action was taken for some request, the listed requests that it affects are in the
      state of that action or beyond, with their own timers. */
  lemma SweepRaises(states: seq<Tmr>, events: seq<Event>, hz: nat, i: nat, k: nat)
    requires Run(states, events, hz) && i < |events| && events[i].Sweep?
    requires k in states[i].list && k in states[i].cmds && Affects(events[i].a, events[i].dev, states[i].cmds[k])
    ensures var t, t' := states[i], states[i + 1];
      && k in t'.list && k in t'.cmds && No(t'.cmds[k].state) >= No(NextState(events[i].a))
      && t'.cmds[k].start == t.cmds[k].start && t'.cmds[k].timeout == t.cmds[k].timeout
  {
    Stepped(states, events, hz, i + 1);
    ScanRaises(states[i], events[i].a, events[i].dev, k);
  }

  // ---------------------------------------------------------------- the driver's own loops

  function Before(tried: seq<Action>, r: Result): Result { r.(tried := tried + r.tried) }

  predicate Stops(t: Tmr, a: Action, ans: Action -> Answer) { (a.ResetBus? && t.frozen) || ans(a).ok || a.Incomplete? }

  lemma TurnThenRest(t: Tmr, g: nat, a: Action, ans: Action -> Answer, tried: seq<Action>)
    requires g in t.cmds && !Stops(t, a, ans)
    ensures Before(tried, Newstate(t, g, a, ans)) ==
            Before(tried + [a], Newstate(Refused(t, g, a, ans), g, NextAction(a), ans))
  {
    var r := Newstate(Refused(t, g, a, ans), g, NextAction(a), ans);
    assert tried + ([a] + r.tried) == (tried + [a]) + r.tried;
  }

  lemma TurnStops(t: Tmr, g: nat, a: Action, ans: Action -> Answer)
    requires g in t.cmds && Stops(t, a, ans)
    ensures Newstate(t, g, a, ans) ==
      if a.ResetBus? && t.frozen then Result(Scan(Stage(t, g, a), a, t.cmds[g].dev), [], FrozenStop)
      else if ans(a).ok then Result(Scan(Asked(t, g, a, ans), a, t.cmds[g].dev), [a], Accepted(a))
      else Result(Asked(t, g, a, ans), [a], GaveUp)
  {
  }

  /** ccc_t, as far as its timers go. */
  class Ccc {
    var list: seq<nat>
    var cmds: map<nat, T>
    var frozen: bool
    var now: nat
    const hz: nat

    constructor (hz: nat)
      ensures list == [] && cmds == map[]
    {
      list, cmds, frozen, now := [], map[], false, 0;
      this.hz := hz;
    }

    function View(): Tmr reads this { Tmr(list, cmds, frozen, now, hz) }

    /** sol11ghd_timer_start */
    method TimerStart(g: nat, seconds: nat)
      requires g in cmds
      modifies `list, `cmds
      ensures list == old(list) + [g]
      ensures cmds == old(cmds)[g := old(cmds[g]).(start := now, timeout := seconds * hz)]
      ensures Timed(old(View())) && g !in old(list) && Recoverable(old(cmds[g]).state) ==> Timed(View())
    {
      cmds := cmds[g := cmds[g].(start := now, timeout := seconds * hz)];
      list := list + [g];
    }

    /** The scan at the end of sol11ghd_timer_newstate. */
    method ScanList(a: Action, dev: nat)
      requires forall k :: k in list ==> k in cmds
      modifies `cmds
      ensures View() == Scan(old(View()), a, dev)
    {
      var i := 0;
      while i < |list|
        invariant i <= |list|
        invariant forall k :: k in cmds <==> k in old(cmds)
        invariant forall k :: k in cmds ==>
          cmds[k] == if k in list[..i] then old(cmds)[k].(state := Raised(old(cmds)[k], a, dev)) else old(cmds)[k]
      {
        var k := list[i];
        assert list[..i + 1] == list[..i] + [k];
        cmds := cmds[k := cmds[k].(state := Raised(cmds[k], a, dev))];
        i := i + 1;
      }
      assert list[..i] == list;
    }

    /** The first part of a turn of sol11ghd_timer_newstate: state and timer. */
    method Begin(g: nat, a: Action)
      requires g in cmds
      modifies `list, `cmds
      ensures View() == Stage(old(View()), g, a)
    {
      cmds := cmds[g := cmds[g].(state := NextState(a))];
      if Seconds(NextState(a)) != 0 {
        TimerStart(g, Seconds(NextState(a)));
      }
    }

    /** The call of the driver's action function. */
    method Act(a: Action, ans: Action -> Answer) returns (ok: bool)
      modifies `list, `cmds
      ensures View() == CompleteAll(old(View()), ans(a).completed) && ok == ans(a).ok
    {
      var ids := ans(a).completed;
      list := Without(list, ids);
      cmds := map k | k in cmds :: if k in ids then cmds[k].(state := Doneq) else cmds[k];
      ok := ans(a).ok;
    }

    /** A turn of the loop of sol11ghd_timer_newstate; end tells why it is the last one. */
    method Turn(g: nat, a: Action, ans: Action -> Answer) returns (asked: bool, end: Option<End>)
      requires Timed(View()) && g in cmds && g !in list && Honest(g, ans)
      modifies `list, `cmds
      ensures end.None? <==> !Stops(old(View()), a, ans)
      ensures end.None? ==> View() == Refused(old(View()), g, a, ans) && asked
      ensures end.Some? ==>
        Result(View(), if asked then [a] else [], end.value) == Newstate(old(View()), g, a, ans)
    {
      ghost var t := View();
      var dev := cmds[g].dev;
      if Stops(t, a, ans) { TurnStops(t, g, a, ans); }
      StageKeeps(t, g, a);
      AskedKeeps(t, g, a, ans);
      hide Newstate;
      Begin(g, a);
      if a == ResetBus && frozen {
        ScanList(a, dev);
        return false, Some(FrozenStop);
      }
      var ok := Act(a, ans);
      if ok {
        ScanList(a, dev);
        return true, Some(Accepted(a));
      }
      if a == Incomplete {
        return true, Some(GaveUp);
      }
      if Seconds(NextState(a)) != 0 {
        list := Without(list, {g});
      }
      return true, None;
    }

    /** sol11ghd_timer_newstate */
    method TimerNewstate(g: nat, first: Action, ans: Action -> Answer) returns (tried: seq<Action>, end: End)
      requires Timed(View()) && g in cmds && g !in list && Honest(g, ans)
      modifies `list, `cmds
      ensures Result(View(), tried, end) == Newstate(old(View()), g, first, ans)
    {
      hide Newstate, Refused, OthersRise, Timed;
      ghost var goal := Newstate(View(), g, first, ans);
      var a := first;
      tried := [];
      while true
        invariant Timed(View()) && g in cmds && g !in list
        invariant Before(tried, Newstate(View(), g, a, ans)) == goal
        decreases 5 - Rank(a)
      {
        ghost var t := View();
        if !Stops(t, a, ans) {
          NextTurnKeeps(t, g, a, ans);
          TurnThenRest(t, g, a, ans, tried);
        }
        var asked, e := Turn(g, a, ans);
        tried := tried + if asked then [a] else [];
        if e.Some? {
          end := e.value;
          return;
        }
        a := NextAction(a);
      }
    }

    /** ghd_timeout_get */
    method TimeoutGet() returns (found: bool, g: nat)
      requires Timed(View())
      modifies `list
      ensures var n := FirstExpired(old(View()), 0);
        if n == |old(list)| then !found && list == old(list)
        else found && g == old(list)[n] && list == Without(old(list), {g})
    {
      var i := 0;
      while i < |list|
        invariant i <= |list| && list == old(list)
        invariant FirstExpired(View(), i) == FirstExpired(old(View()), 0)
      {
        g := list[i];
        if cmds[g].timeout > 0 && now - cmds[g].start >= cmds[g].timeout {
          list := Without(list, {g});
          return true, g;
        }
        i := i + 1;
      }
      return false, 0;
    }

    /** sol11ghd_timer_poll: the states that are not supposed to happen do not, and the loop ends, since
        each turn leaves fewer requests expired. */
    method TimerPoll(all: bool, ans: nat -> (Action -> Answer))
      requires Timed(View()) && forall g :: Honest(g, ans(g))
      modifies `list, `cmds
      ensures View() == Poll(old(View()), all, ans)
    {
      ghost var goal := Poll(View(), all, ans);
      while true
        invariant Timed(View()) && Poll(View(), all, ans) == goal
        decreases ExpiredSet(View())
      {
        ghost var t := View();
        var found, g := TimeoutGet();
        if !found {
          return;
        }
        assert Honest(g, ans(g));
        RecoverKeeps(t, g, ans(g));
        StopKeeps(t, g);
        var tried, end := TimerNewstate(g, FirstAction(cmds[g].state), ans(g));
        if !all {
          return;
        }
      }
    }
  }
}
