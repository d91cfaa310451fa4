/**
  The ATA controller state machine with automatic request sense (dktp/controller/ata/ata_common.c).

  A controller has at most one packet at a time.  When an ATAPI packet ends with an error, the machine
  puts it aside, runs a REQUEST SENSE packet of its own on the same drive, and completes the packet
  with the sense data.  The drives are those of Atapi; devices behave arbitrarily.
 */
module Controller {
  import opened Options
  import opened WaitQueues
  import A = Atapi

  /** ata_disk_*, atapi_fsm_* or ata_queue_cmd packets. */
  datatype Kind = Disk | Packet | Internal

  /** ata_pkt_t of a request: targ is its drive, sense the room for sense data. */
  datatype Req = Req(cmd: Cmd, kind: Kind, targ: nat, ap: A.Pkt, sense: nat)

  /** ac_active_pktp: none, a request's, or ac_arq_pktp. */
  datatype Active = NoPkt | Own(req: Req) | Sense(ap: A.Pkt)

  datatype CState = AsIdle | AsActive0 | AsActive1

  /** ata_ctl_t: drv is ac_active_drvp, fault is ac_fault_pktp, drive0 and drive1 the drives' ad_state. */
  datatype Ctl = Ctl(state: CState, active: Active, drv: Option<nat>, fault: Option<Req>,
                     drive0: A.State, drive1: A.State)

  type StartRc = r: A.Rc | r != A.Fini witness A.Okay
  type IntrRc = r: A.Rc | r != A.Intr witness A.Okay

  /** What the devices do during one call of the machine: how a start goes, what an interrupt finds, what
      the ATA disk routines return, and whether a software reset works. */
  datatype Turn = Turn(answer: A.Answer, intr: A.Input, diskStart: StartRc, diskIntr: IntrRc, resetOk: bool)

  datatype Func = FStart | FIntr | FFini | FReset

  function ActiveState(targ: nat): CState { if targ == 0 then AsActive0 else AsActive1 }

  function DriveOf(c: Ctl, t: nat): A.State { if t == 0 then c.drive0 else c.drive1 }

  function WithDrive(c: Ctl, t: nat, s: A.State): Ctl { if t == 0 then c.(drive0 := s) else c.(drive1 := s) }

  // ---------------------------------------------------------------- the invariant

  /** What every call of the machine keeps. */
  ghost predicate Sound(c: Ctl) {
    && (c.state.AsIdle? <==> c.active.NoPkt?)
    && (c.active.NoPkt? <==> c.drv.None?)
    && (c.drv.Some? ==> c.drv.value < 2 && c.state == ActiveState(c.drv.value))
    && (c.active.Sense? <==> c.fault.Some?)
    && (c.active.Own? ==>
          c.active.req.targ == c.drv.value && (!c.active.req.kind.Packet? ==> A.ApArqOnError !in c.active.req.ap.flags))
    && (c.fault.Some? ==> c.fault.value.kind.Packet? && c.fault.value.targ == c.drv.value)
    && (!UsesDrive(c, 0) ==> c.drive0.SIdle?) && (!UsesDrive(c, 1) ==> c.drive1.SIdle?)
  }

  /** The active packet runs the ATAPI machine of drive t. */
  predicate UsesDrive(c: Ctl, t: nat) {
    c.drv == Some(t) && (c.active.Sense? || (c.active.Own? && c.active.req.kind.Packet?))
  }

  /** Between two calls from the host adapter layer. */
  ghost predicate Settled(c: Ctl) {
    Sound(c) && (c.active.Own? ==> !c.active.req.kind.Internal? && A.ApGotStatus !in c.active.req.ap.flags)
  }

  /** A request as the layers above submit it. */
  predicate Fresh(r: Req) {
    r.targ < 2 && A.ApGotStatus !in r.ap.flags && (!r.kind.Packet? ==> A.ApArqOnError !in r.ap.flags)
  }

  /** The request the controller has. */
  function Holder(c: Ctl): Option<Cmd> {
    match c.active
    case NoPkt => None
    case Own(r) => Some(r.cmd)
    case Sense(_) => if c.fault.Some? then Some(c.fault.value.cmd) else None
  }

  // ---------------------------------------------------------------- the machine

  /** ap_start */
  function StartPkt(kind: Kind, s: A.State, ap: A.Pkt, t: Turn): A.Started {
    match kind
    case Disk => A.Started(s, ap, t.diskStart)
    case Packet => A.Start(s, ap, t.answer)
    case Internal => A.Started(s, ap, A.Fini)
  }

  /** AP_ARQ_NEEDED and ATS_ERR */
  predicate NeedsSense(ap: A.Pkt) {
    A.ApArqOnError in ap.flags && A.ApGotStatus in ap.flags && A.ApError in ap.flags && ap.statusErr
  }

  /** The ARQ packet as ata_start_arq sets it up. */
  function SensePkt(r: Req): A.Pkt { A.Pkt(false, {A.ApRead}, false, 0, r.sense) }

  datatype FsmOut = FsmOut(c: Ctl, rc: A.Rc, done: seq<Req>)

  function Release(c: Ctl): Ctl { c.(state := AsIdle, active := NoPkt, drv := None, fault := None) }

  /** AC_START */
  function BeginPkt(c: Ctl, r: Req, t: Turn): FsmOut {
    var st := StartPkt(r.kind, DriveOf(c, r.targ), r.ap, t);
    var c1 := WithDrive(c.(state := ActiveState(r.targ), active := Own(r.(ap := st.pkt)), drv := Some(r.targ)), r.targ,
      st.state);
    FsmOut(if st.rc.Busy? then c1.(state := AsIdle, active := NoPkt, drv := None) else c1, st.rc, [])
  }

  /** AC_INTR */
  function InterruptPkt(c: Ctl, t: Turn): FsmOut
    requires Sound(c) && !c.active.NoPkt?
  {
    var d := c.drv.value;
    match c.active
    case Sense(ap) =>
      var o := A.Interrupt(DriveOf(c, d), ap, t.intr);
      FsmOut(WithDrive(c.(active := Sense(o.pkt)), d, o.state), o.rc, [])
    case Own(r) =>
      if r.kind.Disk? then FsmOut(c, t.diskIntr, [])
      else
        var o := A.Interrupt(DriveOf(c, d), r.ap, t.intr);
        FsmOut(WithDrive(c.(active := Own(r.(ap := o.pkt))), d, o.state), o.rc, [])
  }

  function Marked(ap: A.Pkt): A.Pkt { ap.(flags := ap.flags + {A.ApDevReset, A.ApBusReset}) }

  /** AC_RESET_A and AC_RESET_I */
  function ResetPkt(c: Ctl, t: Turn): FsmOut {
    var c1 := match c.active
      case NoPkt => c
      case Sense(ap) => c.(active := Sense(Marked(ap)))
      case Own(r) => c.(active := Own(r.(ap := Marked(r.ap))));
    if !t.resetOk then FsmOut(c1, A.Busy, [])
    else FsmOut(c1.(drive0 := A.SIdle, drive1 := A.SIdle), if c.active.NoPkt? then A.Okay else A.Fini, [])
  }

  /** ata_start_arq */
  function StartSense(c: Ctl, r: Req, t: Turn): FsmOut
    requires Sound(c) && c.active.Own?
  {
    var st := A.Start(DriveOf(c, c.drv.value), SensePkt(r), t.answer);
    if st.rc.Busy? then FsmOut(WithDrive(Release(c), c.drv.value, st.state), A.Okay, [r])
    else FsmOut(WithDrive(c.(active := Sense(st.pkt), fault := Some(r)), c.drv.value, st.state), st.rc, [])
  }

  /** AC_FINI */
  function FinishPkt(c: Ctl, t: Turn): FsmOut
    requires Sound(c) && !c.active.NoPkt?
  {
    match c.active
    case Sense(ap) =>
      var mark := if A.ApError in ap.flags || A.ApBusReset in ap.flags then A.ApArqError else A.ApArqOkay;
      var r := c.fault.value;
      FsmOut(Release(c), A.Okay, [r.(ap := r.ap.(flags := r.ap.flags + {mark}))])
    case Own(r) =>
      if NeedsSense(r.ap) then StartSense(c, r, t) else FsmOut(Release(c), A.Okay, [r])
  }

  /** ata_ctlr_fsm: a start comes with its request, and an interrupt is not for an ata_queue_cmd packet,
      which has no ap_intr. */
  function Fsm(c: Ctl, f: Func, r: Option<Req>, t: Turn): FsmOut
    requires Sound(c) && (f.FStart? ==> r.Some?)
  {
    if c.state.AsIdle? then
      match f
      case FStart => BeginPkt(c, r.value, t)
      case FReset => ResetPkt(c, t)
      case _ => FsmOut(c, A.Okay, [])
    else
      match f
      case FStart => FsmOut(c, A.Busy, [])
      case FIntr => InterruptPkt(c, t)
      case FFini => FinishPkt(c, t)
      case FReset => ResetPkt(c, t)
  }

  // ---------------------------------------------------------------- one call

  predicate CallOk(c: Ctl, f: Func, r: Option<Req>) {
    && (f.FStart? ==> r.Some? && Fresh(r.value))
    && (f.FIntr? && c.active.Own? ==> !c.active.req.kind.Internal?)
    && (f.FFini? && UsesDrive(c, 0) ==> c.drive0.SIdle?)
    && (f.FFini? && UsesDrive(c, 1) ==> c.drive1.SIdle?)
  }

  /** The result asks for a call that can be made. */
  ghost predicate Follows(o: FsmOut) {
    && Sound(o.c)
    && (o.rc.Intr? ==> CallOk(o.c, FIntr, None) && !o.c.active.NoPkt?)
    && (o.rc.Fini? ==> CallOk(o.c, FFini, None) && !o.c.active.NoPkt?)
  }

  lemma BeginKeeps(c: Ctl, r: Req, t: Turn)
    requires Sound(c) && c.active.NoPkt? && Fresh(r)
    ensures Follows(BeginPkt(c, r, t))
  {
  }

  lemma InterruptKeeps(c: Ctl, t: Turn)
    requires Sound(c) && !c.active.NoPkt? && CallOk(c, FIntr, None)
    ensures Follows(InterruptPkt(c, t))
  {
    var d := c.drv.value;
    if UsesDrive(c, d) {
      var ap := if c.active.Sense? then c.active.ap else c.active.req.ap;
      FiniOrNot(DriveOf(c, d), ap, t.intr);
    }
  }

  lemma FiniOrNot(s: A.State, ap: A.Pkt, i: A.Input)
    ensures var o := A.Interrupt(s, ap, i);
      && (o.rc.Fini? ==> o.state.SIdle? && A.ApGotStatus in o.pkt.flags) && !o.rc.Intr?
      && (A.ApArqOnError in o.pkt.flags <==> A.ApArqOnError in ap.flags)
      && (!o.rc.Fini? ==> (A.ApGotStatus in o.pkt.flags <==> A.ApGotStatus in ap.flags))
  {
    if !s.SIdle? { A.FiniMeansIdle(s, ap, i); }
  }

  lemma ResetKeeps(c: Ctl, t: Turn)
    requires Sound(c)
    ensures Follows(ResetPkt(c, t))
  {
  }

  lemma FinishKeeps(c: Ctl, t: Turn)
    requires Sound(c) && !c.active.NoPkt? && CallOk(c, FFini, None)
    ensures Follows(FinishPkt(c, t))
  {
  }

  /** Every call keeps the invariant, and sets up the call its return code asks for. */
  lemma FsmKeeps(c: Ctl, f: Func, r: Option<Req>, t: Turn)
    requires Sound(c) && CallOk(c, f, r)
    ensures Follows(Fsm(c, f, r, t))
  {
    match f
    case FStart => if c.active.NoPkt? { BeginKeeps(c, r.value, t); }
    case FIntr => if !c.active.NoPkt? { InterruptKeeps(c, t); }
    case FFini => if !c.active.NoPkt? { FinishKeeps(c, t); }
    case FReset => ResetKeeps(c, t);
  }

  /** At most this many calls follow. */
  function CallsLeft(c: Ctl, f: Func): nat {
    if c.state.AsIdle? then (if f.FStart? then 5 else 1)
    else match f
      case FStart => 1
      case FIntr => if c.active.Sense? then 2 else 4
      case FFini => if c.active.Sense? then 1 else 3
      case FReset => if c.active.Sense? then 2 else 4
  }

  lemma FsmAdvances(c: Ctl, f: Func, r: Option<Req>, t: Turn)
    requires Sound(c) && CallOk(c, f, r)
    ensures var o := Fsm(c, f, r, t);
      && (o.rc.Intr? ==> CallsLeft(o.c, FIntr) < CallsLeft(c, f))
      && (o.rc.Fini? ==> CallsLeft(o.c, FFini) < CallsLeft(c, f))
  {
    FsmKeeps(c, f, r, t);
    if f.FIntr? && !c.active.NoPkt? { InterruptRc(c, f, r, t); }
  }

  lemma InterruptRc(c: Ctl, f: Func, r: Option<Req>, t: Turn)
    requires Sound(c) && CallOk(c, f, r) && !c.active.NoPkt? && f.FIntr?
    ensures var o := Fsm(c, f, r, t); !o.rc.Intr? && o.done == [] && o.c.active.Sense? == c.active.Sense?
  {
    var d := c.drv.value;
    if UsesDrive(c, d) {
      var ap := if c.active.Sense? then c.active.ap else c.active.req.ap;
      FiniOrNot(DriveOf(c, d), ap, t.intr);
    }
  }

  /** Only AC_FINI is called with a packet whose end the drive has reported. */
  ghost predicate Ready(c: Ctl, f: Func) { !f.FFini? ==> Settled(c) }

  lemma FsmSettles(c: Ctl, f: Func, r: Option<Req>, t: Turn)
    requires Sound(c) && CallOk(c, f, r) && Ready(c, f)
    ensures var o := Fsm(c, f, r, t); !o.rc.Fini? ==> Settled(o.c)
  {
    FsmKeeps(c, f, r, t);
    if f.FIntr? && !c.active.NoPkt? && UsesDrive(c, c.drv.value) {
      var ap := if c.active.Sense? then c.active.ap else c.active.req.ap;
      FiniOrNot(DriveOf(c, c.drv.value), ap, t.intr);
    }
  }

  /** The request a call is about. */
  function About(c: Ctl, f: Func, r: Option<Req>): Option<Cmd> {
    if f.FStart? && c.active.NoPkt? && r.Some? then Some(r.value.cmd) else Holder(c)
  }

  /** A result that keeps the request h, or completes it, once. */
  ghost predicate KeepsOrCompletes(h: Option<Cmd>, c: Ctl, done: seq<Req>) {
    (done == [] && Holder(c) == h) || (|done| == 1 && Some(done[0].cmd) == h && c.active.NoPkt?)
  }

  predicate Refuses(r: Req, t: Turn) {
    match r.kind
    case Disk => t.diskStart.Busy?
    case Packet => t.answer.TooLong? || t.answer.NotSelected?
    case Internal => false
  }

  predicate TurnedAway(c: Ctl, f: Func, r: Option<Req>, t: Turn) {
    f.FStart? && c.active.NoPkt? && r.Some? && Refuses(r.value, t)
  }

  lemma FsmOnce(c: Ctl, f: Func, r: Option<Req>, t: Turn)
    requires Sound(c) && CallOk(c, f, r)
    ensures var o := Fsm(c, f, r, t);
      && (TurnedAway(c, f, r, t) ==> o.c == c && o.done == [] && o.rc.Busy?)
      && (!TurnedAway(c, f, r, t) ==>
           && KeepsOrCompletes(About(c, f, r), o.c, o.done) && (o.done != [] ==> o.rc.Okay?)
           && (f.FStart? && c.active.NoPkt? ==> !o.rc.Busy? && o.done == []))
  {
  }

  // ---------------------------------------------------------------- the loops around it

  /** The initial value of ata_hba_start_watchdog, ata_process_intr_watchdog and ata_reset_bus_watchdog. */
  const WATCHDOG: nat := 1000

  /** rc is None when the watchdog ended the loop. */
  datatype LoopOut = LoopOut(c: Ctl, rc: Option<A.Rc>, done: seq<Req>, calls: nat)

  /** The call that a return code asks for. */
  function AskedFor(rc: A.Rc): Func { if rc.Intr? then FIntr else FFini }

  function Prefixed(done: seq<Req>, l: LoopOut): LoopOut { l.(done := done + l.done) }

  lemma PrefixedTwice(done: seq<Req>, d: seq<Req>, l: LoopOut)
    ensures Prefixed(done, Prefixed(d, l)) == Prefixed(done + d, l)
  {
    assert done + (d + l.done) == (done + d) + l.done;
  }

  /** The loop that ata_hba_start, ata_process_intr and ata_reset_bus have. */
  function Loop(c: Ctl, f: Func, r: Option<Req>, ts: nat -> Turn, k: nat, watchdog: nat): LoopOut
    requires Sound(c) && CallOk(c, f, r)
    decreases watchdog
  {
    if watchdog == 0 then LoopOut(c, None, [], k)
    else
      FsmKeeps(c, f, r, ts(k));
      var o := Fsm(c, f, r, ts(k));
      match o.rc
      case Okay => LoopOut(o.c, Some(o.rc), o.done, k + 1)
      case Busy => LoopOut(o.c, Some(o.rc), o.done, k + 1)
      case Intr =>
        Prefixed(o.done, Loop(o.c, FIntr, None, ts, k + 1, watchdog - 1))
      case Fini =>
        Prefixed(o.done, Loop(o.c, FFini, None, ts, k + 1, watchdog - 1))
  }

  lemma LoopStops(c: Ctl, f: Func, r: Option<Req>, ts: nat -> Turn, k: nat)
    requires Sound(c) && CallOk(c, f, r)
    ensures Loop(c, f, r, ts, k, 0) == LoopOut(c, None, [], k)
  {
  }

  /** What a loop that began with (c, f, r) comes to. */
  ghost predicate Ends(c: Ctl, f: Func, r: Option<Req>, t: Turn, k: nat, l: LoopOut) {
    && l.rc.Some? && k < l.calls <= k + CallsLeft(c, f) && Settled(l.c)
    && (TurnedAway(c, f, r, t) ==> l.c == c && l.done == [] && l.rc == Some(A.Busy) && l.calls == k + 1)
    && (!TurnedAway(c, f, r, t) ==>
         && KeepsOrCompletes(About(c, f, r), l.c, l.done)
         && (f.FStart? && c.active.NoPkt? ==> l.rc == Some(A.Okay) || l.calls > k + 1))
  }

  lemma LastCall(c: Ctl, f: Func, r: Option<Req>, t: Turn, k: nat)
    requires Sound(c) && CallOk(c, f, r) && Ready(c, f)
    requires var rc := Fsm(c, f, r, t).rc; rc.Okay? || rc.Busy?
    ensures var o := Fsm(c, f, r, t); Ends(c, f, r, t, k, LoopOut(o.c, Some(o.rc), o.done, k + 1))
  {
    FsmSettles(c, f, r, t);
    FsmOnce(c, f, r, t);
  }

  /** A call that asks for another one. */
  ghost predicate Continues(c: Ctl, f: Func, r: Option<Req>, t: Turn, o: FsmOut, f': Func) {
    && Follows(o) && !f'.FStart? && CallOk(o.c, f', None) && Ready(o.c, f')
    && CallsLeft(o.c, f') < CallsLeft(c, f) && o.done == [] && Holder(o.c) == About(c, f, r)
    && !TurnedAway(c, f, r, t)
  }

  lemma OtherCall(c: Ctl, f: Func, r: Option<Req>, t: Turn)
    requires Sound(c) && CallOk(c, f, r) && Ready(c, f)
    ensures var o := Fsm(c, f, r, t);
      && (o.rc.Intr? ==> Continues(c, f, r, t, o, FIntr))
      && (o.rc.Fini? ==> Continues(c, f, r, t, o, FFini))
  {
    FsmKeeps(c, f, r, t);
    FsmAdvances(c, f, r, t);
    FsmSettles(c, f, r, t);
    FsmOnce(c, f, r, t);
  }

  lemma CallThenEnds(c: Ctl, f: Func, r: Option<Req>, t: Turn, o: FsmOut, f': Func, t': Turn, k: nat, l: LoopOut)
    requires Continues(c, f, r, t, o, f') && Ends(o.c, f', None, t', k + 1, l)
    ensures Ends(c, f, r, t, k, l.(done := o.done + l.done))
  {
    assert o.done + l.done == l.done;
  }

  /** The watchdog never fires, and whatever the loop was about is kept or completed once; a start is
      undone only when its first call is refused. */
  lemma {:induction false} LoopEnds(c: Ctl, f: Func, r: Option<Req>, ts: nat -> Turn, k: nat, watchdog: nat)
    requires Sound(c) && CallOk(c, f, r) && Ready(c, f) && watchdog >= CallsLeft(c, f)
    ensures Ends(c, f, r, ts(k), k, Loop(c, f, r, ts, k, watchdog))
    decreases watchdog
  {
    hide Fsm, Ends;
    var o := Fsm(c, f, r, ts(k));
    OtherCall(c, f, r, ts(k));
    match o.rc
    case Intr =>
      LoopEnds(o.c, FIntr, None, ts, k + 1, watchdog - 1);
      CallThenEnds(c, f, r, ts(k), o, FIntr, ts(k + 1), k, Loop(o.c, FIntr, None, ts, k + 1, watchdog - 1));
    case Fini =>
      LoopEnds(o.c, FFini, None, ts, k + 1, watchdog - 1);
      CallThenEnds(c, f, r, ts(k), o, FFini, ts(k + 1), k, Loop(o.c, FFini, None, ts, k + 1, watchdog - 1));
    case _ => LastCall(c, f, r, ts(k), k);
  }

  // ---------------------------------------------------------------- the host adapter layer's calls

  /** ata_hba_start */
  datatype StartOut = StartOut(c: Ctl, started: bool, done: seq<Req>)

  function HbaStart(c: Ctl, r: Req, ts: nat -> Turn, watchdog: nat): StartOut
    requires Sound(c) && Fresh(r)
  {
    if c.drv.Some? || !c.active.NoPkt? then StartOut(c, false, [])
    else
      var l := Loop(c, FStart, Some(r), ts, 0, watchdog);
      StartOut(l.c, l.calls > 0 && (l.calls > 1 || l.rc != Some(A.Busy)), l.done)
  }

  /** ata_process_intr; the layer calls it only while a packet is active (ata_get_status). */
  function ProcessIntr(c: Ctl, ts: nat -> Turn, watchdog: nat): LoopOut
    requires Settled(c)
  {
    Loop(c, FIntr, None, ts, 0, watchdog)
  }

  datatype ResetOut = ResetOut(c: Ctl, ok: bool, done: seq<Req>)

  /** ata_reset_bus: setup says whether every ATA drive took its parameters again. */
  function ResetBus(c: Ctl, ts: nat -> Turn, setup: bool, watchdog: nat): ResetOut
    requires Settled(c)
  {
    var l := Loop(c, FReset, None, ts, 0, watchdog);
    if l.rc == Some(A.Busy) then ResetOut(l.c, false, l.done)
    else ResetOut(l.c, l.done != [] || setup, l.done)
  }

  /** The start function says no exactly when the controller has a packet or the drive refuses, and then
      it has changed nothing; otherwise the request is the controller's or already complete. */
  lemma HbaStartTakes(c: Ctl, r: Req, ts: nat -> Turn, watchdog: nat)
    requires Settled(c) && watchdog >= 5 && Fresh(r)
    ensures var o := HbaStart(c, r, ts, watchdog);
      && Settled(o.c)
      && (o.started <==> c.active.NoPkt? && !Refuses(r, ts(0)))
      && (!o.started ==> o.c == c && o.done == [])
      && (o.started ==> KeepsOrCompletes(Some(r.cmd), o.c, o.done))
  {
    if c.active.NoPkt? {
      LoopEnds(c, FStart, Some(r), ts, 0, watchdog);
    }
  }

  /** An interrupt completes the controller's request once, or keeps it, in at most four calls. */
  lemma IntrKeepsOrCompletes(c: Ctl, ts: nat -> Turn, watchdog: nat)
    requires Settled(c) && watchdog >= 5
    ensures var l := ProcessIntr(c, ts, watchdog);
      && Settled(l.c) && KeepsOrCompletes(Holder(c), l.c, l.done)
      && l.rc.Some? && l.calls <= 4
  {
    LoopEnds(c, FIntr, None, ts, 0, watchdog);
  }

  /** A reset of a controller with a request says TRUE exactly when the request is complete, which is
      exactly when the software reset worked. */
  lemma ResetCompletes(c: Ctl, ts: nat -> Turn, setup: bool, watchdog: nat)
    requires Settled(c) && watchdog >= 5
    ensures var o := ResetBus(c, ts, setup, watchdog);
      && Settled(o.c) && KeepsOrCompletes(Holder(c), o.c, o.done)
      && (!c.active.NoPkt? ==> (o.ok <==> o.done != []) && (o.ok <==> ts(0).resetOk))
      && (c.active.NoPkt? ==> o.done == [] && (o.ok <==> ts(0).resetOk && setup))
  {
    LoopEnds(c, FReset, None, ts, 0, watchdog);
    if !c.active.NoPkt? && ts(0).resetOk {
      var o := Fsm(c, FReset, None, ts(0));
      FsmKeeps(c, FReset, None, ts(0));
      ResetThenFinish(c, ts(0), ts(1));
      assert Loop(o.c, FFini, None, ts, 1, watchdog - 1).rc == Some(A.Okay);
    }
  }

  /** A request that was active has no status yet, so its reset does not start a sense packet. */
  lemma ResetThenFinish(c: Ctl, t0: Turn, t1: Turn)
    requires Settled(c) && !c.active.NoPkt? && t0.resetOk
    ensures var o := Fsm(c, FReset, None, t0);
      Sound(o.c) && !o.c.active.NoPkt? && Fsm(o.c, FFini, None, t1).done != [] && Fsm(o.c, FFini, None, t1).rc.Okay?
  {
  }

  // What becomes of the controller's request, from the interrupts themselves.

  lemma LoopEndsHere(c: Ctl, f: Func, r: Option<Req>, ts: nat -> Turn, k: nat, watchdog: nat)
    requires Sound(c) && CallOk(c, f, r) && watchdog > 0
    requires var rc := Fsm(c, f, r, ts(k)).rc; rc.Okay? || rc.Busy?
    ensures var o := Fsm(c, f, r, ts(k));
      Loop(c, f, r, ts, k, watchdog) == LoopOut(o.c, Some(o.rc), o.done, k + 1)
  {
  }

  lemma LoopGoesOn(c: Ctl, f: Func, r: Option<Req>, ts: nat -> Turn, k: nat, watchdog: nat)
    requires Sound(c) && CallOk(c, f, r) && watchdog > 0
    requires var o := Fsm(c, f, r, ts(k)); o.done == [] && (o.rc.Intr? || o.rc.Fini?)
    ensures var o := Fsm(c, f, r, ts(k));
      && Sound(o.c) && CallOk(o.c, AskedFor(o.rc), None)
      && Loop(c, f, r, ts, k, watchdog) == Loop(o.c, AskedFor(o.rc), None, ts, k + 1, watchdog - 1)
  {
    FsmKeeps(c, f, r, ts(k));
    var o := Fsm(c, f, r, ts(k));
    var l := Loop(o.c, AskedFor(o.rc), None, ts, k + 1, watchdog - 1);
    assert [] + l.done == l.done;
  }

  /** Nothing but this is complete, and the controller is free. */
  ghost predicate JustCompleted(l: LoopOut, r: Req) { l.done == [r] && l.c.active.NoPkt? && l.c.fault.None? }

  /** The request waits for its sense data. */
  ghost predicate PutAside(l: LoopOut, r: Req, sense: A.Pkt) {
    l.done == [] && l.c.active == Sense(sense) && l.c.fault == Some(r)
  }

  /** AP_ARQ_OKAY or AP_ARQ_ERROR is all that the sense adds to the packet. */
  function Sensed(r: Req, failed: bool): Req {
    r.(ap := r.ap.(flags := r.ap.flags + {if failed then A.ApArqError else A.ApArqOkay}))
  }

  /** An interrupt finds the sense packet in this state: it goes on, or ends, and with it the request. */
  ghost predicate SenseGoes(l: LoopOut, r: Req, s: A.State, sense: A.Pkt, i: A.Input) {
    var o := A.Interrupt(s, sense, i);
    if o.rc.Fini? then JustCompleted(l, Sensed(r, A.ApError in o.pkt.flags || A.ApBusReset in sense.flags))
    else PutAside(l, r, o.pkt)
  }

  lemma SenseInterrupt(c: Ctl, ts: nat -> Turn, k: nat, watchdog: nat)
    requires Sound(c) && c.active.Sense? && watchdog >= 2
    ensures SenseGoes(Loop(c, FIntr, None, ts, k, watchdog), c.fault.value, DriveOf(c, c.drv.value), c.active.ap,
      ts(k).intr)
  {
    hide Loop;
    var o := A.Interrupt(DriveOf(c, c.drv.value), c.active.ap, ts(k).intr);
    FiniOrNot(DriveOf(c, c.drv.value), c.active.ap, ts(k).intr);
    BusResetStays(DriveOf(c, c.drv.value), c.active.ap, ts(k).intr);
    hide A.Interrupt;
    if o.rc.Fini? {
      LoopGoesOn(c, FIntr, None, ts, k, watchdog);
      var c1 := Fsm(c, FIntr, None, ts(k)).c;
      LoopEndsHere(c1, FFini, None, ts, k + 1, watchdog - 1);
    } else {
      LoopEndsHere(c, FIntr, None, ts, k, watchdog);
    }
  }

  lemma BusResetStays(s: A.State, ap: A.Pkt, i: A.Input)
    ensures A.ApBusReset in A.Interrupt(s, ap, i).pkt.flags <==> A.ApBusReset in ap.flags
  {
  }

  /** A request that asked for sense and shows an error: the drive takes the sense packet, and what comes of it,
      or not, and the request completes without. */
  ghost predicate SenseTried(l: LoopOut, r: Req, ts: nat -> Turn, k: nat) {
    match ts(k).answer
    case WillInterrupt => PutAside(l, r, SensePkt(r))
    case Polled => SenseGoes(l, r, A.SCmd, SensePkt(r), ts(k + 1).intr)
    case _ => JustCompleted(l, r)
  }

  lemma SenseStarts(c: Ctl, ts: nat -> Turn, k: nat, watchdog: nat)
    requires Sound(c) && c.active.Own? && CallOk(c, FFini, None) && watchdog >= 3
    requires c.active.req.kind.Packet? && NeedsSense(c.active.req.ap)
    ensures SenseTried(Loop(c, FFini, None, ts, k, watchdog), c.active.req, ts, k)
  {
    hide Loop, SenseGoes;
    if ts(k).answer.Polled? {
      LoopGoesOn(c, FFini, None, ts, k, watchdog);
      SenseInterrupt(Fsm(c, FFini, None, ts(k)).c, ts, k + 1, watchdog - 1);
    } else {
      LoopEndsHere(c, FFini, None, ts, k, watchdog);
    }
  }

  /** An interrupt for a packet request: it goes on; or it ends, and completes as it is unless it asked for sense
      and shows an error, when sense is tried. */
  ghost predicate PacketGoes(l: LoopOut, r: Req, s: A.State, ts: nat -> Turn, k: nat) {
    var o := A.Interrupt(s, r.ap, ts(k).intr);
    var r1 := r.(ap := o.pkt);
    if !o.rc.Fini? then l.done == [] && l.c.active == Own(r1) && l.c.fault.None?
    else if A.ApArqOnError in r.ap.flags && ts(k).intr.err then SenseTried(l, r1, ts, k + 1)
    else JustCompleted(l, r1)
  }

  lemma PacketInterrupt(c: Ctl, ts: nat -> Turn, k: nat, watchdog: nat)
    requires Settled(c) && c.active.Own? && c.active.req.kind.Packet? && watchdog >= 4
    ensures PacketGoes(Loop(c, FIntr, None, ts, k, watchdog), c.active.req, DriveOf(c, c.drv.value), ts, k)
  {
    hide Loop, SenseTried;
    var r := c.active.req;
    var o := A.Interrupt(DriveOf(c, c.drv.value), r.ap, ts(k).intr);
    FiniOrNot(DriveOf(c, c.drv.value), r.ap, ts(k).intr);
    A.OneReports(DriveOf(c, c.drv.value), r.ap, ts(k).intr);
    hide A.Interrupt;
    if o.rc.Fini? {
      LoopGoesOn(c, FIntr, None, ts, k, watchdog);
      var c1 := Fsm(c, FIntr, None, ts(k)).c;
      if NeedsSense(o.pkt) {
        SenseStarts(c1, ts, k + 1, watchdog - 1);
      } else {
        LoopEndsHere(c1, FFini, None, ts, k + 1, watchdog - 1);
      }
    } else {
      LoopEndsHere(c, FIntr, None, ts, k, watchdog);
    }
  }

  /** Sense is taken exactly when it is needed and possible.  A packet request whose interrupt ends it waits for
      its sense data if and only if it asked for it, the interrupt shows an error, and the drive takes the
      sense packet and does not end it on the spot; otherwise it is complete, and without a mark unless the
      sense packet was taken. */
  lemma SenseExactly(c: Ctl, ts: nat -> Turn, watchdog: nat)
    requires Settled(c) && c.active.Own? && c.active.req.kind.Packet? && watchdog >= 5
    requires A.Interrupt(DriveOf(c, c.drv.value), c.active.req.ap, ts(0).intr).rc.Fini?
    ensures var l, r, a := ProcessIntr(c, ts, watchdog), c.active.req, ts(1).answer;
      var r1 := r.(ap := A.Interrupt(DriveOf(c, c.drv.value), r.ap, ts(0).intr).pkt);
      var wanted := A.ApArqOnError in r.ap.flags && ts(0).intr.err;
      var taken := wanted && (a.WillInterrupt? || a.Polled?);
      var over := a.Polled? && A.Interrupt(A.SCmd, SensePkt(r1), ts(2).intr).rc.Fini?;
      && (taken && !over <==> l.done == [] && l.c.active.Sense? && l.c.fault == Some(r1))
      && (!taken || over <==> |l.done| == 1 && l.done[0].cmd == r.cmd && l.c.active.NoPkt?)
      && (!taken ==> l.done == [r1])
      && (taken && over ==> l.done == [Sensed(r1, ts(2).intr.err || ts(2).intr.df)])
  {
    hide Loop;
    PacketInterrupt(c, ts, 0, watchdog);
    var r := c.active.req;
    var r1 := r.(ap := A.Interrupt(DriveOf(c, c.drv.value), r.ap, ts(0).intr).pkt);
    A.OneReports(A.SCmd, SensePkt(r1), ts(2).intr);
    hide A.Interrupt;
  }

  /** And the sense packet fetches sense data: it is a PIO read into the request's room for it, in which every
      byte that the drive offers lands as far as there is room. */
  lemma SenseReads(r: Req, ins: seq<A.Input>)
    ensures var o, live := A.After(A.SCmd, SensePkt(r), ins), A.Live(ins);
      && A.TotalWords(A.Effects(A.SCmd, SensePkt(r), ins)) == A.WordsShown(live)
      && o.pkt.resid == A.Left(r.sense, A.BytesShown(live, A.EVENT_DATA_IN)) && o.pkt.vaddr == r.sense - o.pkt.resid
  {
    hide A.After, A.Effects, A.Live, A.BytesShown, A.WordsShown, A.WordsTaken, A.TotalWords;
    A.PioMovesAll(SensePkt(r), ins);
    A.TransfersAccounted(SensePkt(r), ins);
  }

  /** The marks tell whether sense was taken: no interrupt of the request itself sets one. */
  lemma MarksMeanSense(s: A.State, ap: A.Pkt, i: A.Input)
    ensures var q := A.Interrupt(s, ap, i).pkt;
      && (A.ApArqOkay in q.flags <==> A.ApArqOkay in ap.flags)
      && (A.ApArqError in q.flags <==> A.ApArqError in ap.flags)
  {
  }

  /** An interrupt for a disk request completes it exactly when the disk routine says it is over, and otherwise
      leaves everything. */
  lemma DiskInterrupt(c: Ctl, ts: nat -> Turn, k: nat, watchdog: nat)
    requires Settled(c) && c.active.Own? && c.active.req.kind.Disk? && watchdog >= 2
    ensures var l := Loop(c, FIntr, None, ts, k, watchdog);
      if ts(k).diskIntr.Fini? then JustCompleted(l, c.active.req) else l.done == [] && l.c == c
  {
    hide Loop;
    if ts(k).diskIntr.Fini? {
      LoopGoesOn(c, FIntr, None, ts, k, watchdog);
      LoopEndsHere(c, FFini, None, ts, k + 1, watchdog - 1);
    } else {
      LoopEndsHere(c, FIntr, None, ts, k, watchdog);
    }
  }

  /** What a start comes to when it is not refused: the request is the controller's, or what follows in the same
      call completes it. */
  lemma StartOutcome(c: Ctl, r: Req, ts: nat -> Turn, watchdog: nat)
    requires Settled(c) && c.active.NoPkt? && Fresh(r) && !Refuses(r, ts(0)) && watchdog >= 5
    ensures var o := HbaStart(c, r, ts, watchdog);
      var l := LoopOut(o.c, None, o.done, 0);
      match r.kind
      case Internal => JustCompleted(l, r)
      case Disk =>
        if ts(0).diskStart.Intr? && ts(1).diskIntr.Fini? then JustCompleted(l, r)
        else o.done == [] && o.c.active == Own(r)
      case Packet =>
        if ts(0).answer.Polled? then PacketGoes(l, r, A.SCmd, ts, 1)
        else o.done == [] && o.c.active == Own(r) && DriveOf(o.c, r.targ).SCmd?
  {
    hide Loop, PacketGoes;
    var o := Fsm(c, FStart, Some(r), ts(0));
    FsmSettles(c, FStart, Some(r), ts(0));
    if o.rc.Okay? || o.rc.Busy? {
      LoopEndsHere(c, FStart, Some(r), ts, 0, watchdog);
    } else {
      LoopGoesOn(c, FStart, Some(r), ts, 0, watchdog);
      match r.kind
      case Internal => LoopEndsHere(o.c, FFini, None, ts, 1, watchdog - 1);
      case Disk => DiskInterrupt(o.c, ts, 1, watchdog - 1);
      case Packet =>
        PacketInterrupt(o.c, ts, 1, watchdog - 1);
        SameGoes(Loop(o.c, FIntr, None, ts, 1, watchdog - 1), r, ts);
    }
  }

  /** A reset that works completes the request at once, marked as reset, or if it waited for its sense data, with
      the mark that the sense failed; and leaves both drives idle. */
  lemma ResetReports(c: Ctl, ts: nat -> Turn, setup: bool, watchdog: nat)
    requires Settled(c) && !c.active.NoPkt? && ts(0).resetOk && watchdog >= 5
    ensures var o, l := ResetBus(c, ts, setup, watchdog), Loop(c, FReset, None, ts, 0, watchdog);
      && o.done == l.done && o.c == l.c && o.c.drive0.SIdle? && o.c.drive1.SIdle?
      && match c.active
         case Sense(_) => JustCompleted(l, Sensed(c.fault.value, true))
         case Own(r) =>
           JustCompleted(l, r.(ap := r.ap.(flags := r.ap.flags + {A.ApDevReset, A.ApBusReset})))
  {
    hide Loop;
    ResetThenFinish(c, ts(0), ts(1));
    LoopGoesOn(c, FReset, None, ts, 0, watchdog);
    LoopEndsHere(Fsm(c, FReset, None, ts(0)).c, FFini, None, ts, 1, watchdog - 1);
  }

  /** The return code and the count of calls do not matter to the outcome. */
  lemma SameGoes(l: LoopOut, r: Req, ts: nat -> Turn)
    requires PacketGoes(l, r, A.SCmd, ts, 1)
    ensures PacketGoes(LoopOut(l.c, None, l.done, 0), r, A.SCmd, ts, 1)
  {
  }

  /** The sense packet never nests: while it is active every end completes the request put aside, marked
      with how the sense went. */
  lemma SenseNeverNests(c: Ctl, t: Turn)
    requires Sound(c) && c.active.Sense?
    ensures var o, r := Fsm(c, FFini, None, t), c.fault.value;
      && |o.done| == 1 && o.done[0].cmd == r.cmd && o.c.active.NoPkt? && o.c.fault.None?
      && (A.ApArqError in o.done[0].ap.flags <==>
            A.ApArqError in r.ap.flags || A.ApError in c.active.ap.flags || A.ApBusReset in c.active.ap.flags)
  {
  }

  // ---------------------------------------------------------------- runs

  /** A controller with the requests it said yes to and those it completed, in order. */
  datatype History = History(c: Ctl, accepted: seq<Cmd>, completed: seq<Cmd>)

  datatype Call = CallStart(r: Req) | CallIntr | CallReset(setup: bool)

  function Cmds(done: seq<Req>): seq<Cmd> { seq(|done|, i requires 0 <= i < |done| => done[i].cmd) }

  function Do(h: History, e: Call, ts: nat -> Turn): History
    requires Settled(h.c) && (e.CallStart? ==> Fresh(e.r))
  {
    match e
    case CallStart(r) =>
      var o := HbaStart(h.c, r, ts, WATCHDOG);
      History(o.c, if o.started then h.accepted + [r.cmd] else h.accepted, h.completed + Cmds(o.done))
    case CallIntr =>
      var l := ProcessIntr(h.c, ts, WATCHDOG);
      h.(c := l.c, completed := h.completed + Cmds(l.done))
    case CallReset(setup) =>
      var o := ResetBus(h.c, ts, setup, WATCHDOG);
      h.(c := o.c, completed := h.completed + Cmds(o.done))
  }

  function Listed(h: Option<Cmd>): seq<Cmd> { if h.Some? then [h.value] else [] }

  /** Every accepted request but the one the controller has is completed: once, and in order. */
  ghost predicate ExactlyOnce(h: History) { Settled(h.c) && h.accepted == h.completed + Listed(Holder(h.c)) }

  lemma HolderOrNone(c: Ctl)
    requires Sound(c)
    ensures Holder(c).None? <==> c.active.NoPkt?
  {
  }

  lemma StillOnce(accepted: seq<Cmd>, completed: seq<Cmd>, h: Option<Cmd>, c: Ctl, done: seq<Req>)
    requires accepted == completed + Listed(h) && KeepsOrCompletes(h, c, done) && Sound(c)
    ensures accepted == (completed + Cmds(done)) + Listed(Holder(c))
  {
    HolderOrNone(c);
    if done == [] {
      assert completed + Cmds(done) == completed;
    } else {
      assert Cmds(done) == [h.value];
    }
  }

  lemma StartOnce(h: History, r: Req, ts: nat -> Turn)
    requires ExactlyOnce(h) && Fresh(r)
    ensures ExactlyOnce(Do(h, CallStart(r), ts))
  {
    var o := HbaStart(h.c, r, ts, WATCHDOG);
    HbaStartTakes(h.c, r, ts, WATCHDOG);
    if o.started {
      HolderOrNone(h.c);
      assert h.completed == h.accepted;
      StillOnce(h.accepted + [r.cmd], h.completed, Some(r.cmd), o.c, o.done);
    } else {
      assert h.completed + Cmds(o.done) == h.completed;
    }
  }

  lemma DoKeeps(h: History, e: Call, ts: nat -> Turn)
    requires ExactlyOnce(h) && (e.CallStart? ==> Fresh(e.r))
    ensures ExactlyOnce(Do(h, e, ts))
  {
    match e
    case CallStart(r) => StartOnce(h, r, ts);
    case CallIntr =>
      var l := ProcessIntr(h.c, ts, WATCHDOG);
      IntrKeepsOrCompletes(h.c, ts, WATCHDOG);
      StillOnce(h.accepted, h.completed, Holder(h.c), l.c, l.done);
    case CallReset(setup) =>
      var o := ResetBus(h.c, ts, setup, WATCHDOG);
      ResetCompletes(h.c, ts, setup, WATCHDOG);
      StillOnce(h.accepted, h.completed, Holder(h.c), o.c, o.done);
  }

  ghost predicate Run(hs: seq<History>, es: seq<Call>, turns: seq<nat -> Turn>) {
    && |hs| == |es| + 1 && |turns| == |es|
    && hs[0].c == Ctl(AsIdle, NoPkt, None, None, A.SIdle, A.SIdle) && hs[0].accepted == [] && hs[0].completed == []
    && forall i :: 0 <= i < |es| ==>
      (es[i].CallStart? ==> Fresh(es[i].r)) && (Settled(hs[i].c) ==> hs[i + 1] == Do(hs[i], es[i], turns[i]))
  }

  /** Over any run of starts, interrupts and resets with any devices, every accepted request is completed
      exactly once, in the order of acceptance, except the one the controller still has; and the
      controller is idle exactly when it has none. */
  lemma {:induction false} CompletedExactlyOnce(hs: seq<History>, es: seq<Call>, turns: seq<nat -> Turn>, i: nat)
    requires Run(hs, es, turns) && i < |hs|
    ensures ExactlyOnce(hs[i]) && (hs[i].c.state.AsIdle? <==> hs[i].accepted == hs[i].completed)
  {
    if i == 0 {
    } else {
      CompletedExactlyOnce(hs, es, turns, i - 1);
      DoKeeps(hs[i - 1], es[i - 1], turns[i - 1]);
    }
    HolderOrNone(hs[i].c);
    if hs[i].accepted == hs[i].completed {
      assert |hs[i].accepted| == |hs[i].completed| + |Listed(Holder(hs[i].c))|;
    }
  }

  // ---------------------------------------------------------------- the driver's own code

  /** ata_ctl_t */
  class AtaCtl {
    var state: CState
    var active: Active
    var drv: Option<nat>
    var fault: Option<Req>
    var drive0: A.State
    var drive1: A.State

    constructor ()
      ensures View() == Ctl(AsIdle, NoPkt, None, None, A.SIdle, A.SIdle)
    {
      state, active, drv, fault, drive0, drive1 := AsIdle, NoPkt, None, None, A.SIdle, A.SIdle;
    }

    ghost function View(): Ctl reads this { Ctl(state, active, drv, fault, drive0, drive1) }

    function DriveState(t: nat): A.State reads this { if t == 0 then drive0 else drive1 }

    method SetDrive(t: nat, s: A.State)
      modifies this`drive0, this`drive1
      ensures View() == WithDrive(old(View()), t, s)
    {
      if t == 0 {
        drive0 := s;
      } else {
        drive1 := s;
      }
    }

    /** ata_start_arq */
    method StartArq(d: nat, r: Req, t: Turn) returns (rc: A.Rc)
      modifies this
      ensures var st := A.Start(DriveOf(old(View()), d), SensePkt(r), t.answer);
        rc == st.rc && View() == WithDrive(old(View()).(active := Sense(st.pkt), fault := Some(r)), d, st.state)
    {
      fault := Some(r);
      var st := A.Start(DriveState(d), SensePkt(r), t.answer);
      active := Sense(st.pkt);
      SetDrive(d, st.state);
      rc := st.rc;
    }

    /** The AC_FINI part of ata_ctlr_fsm, which has set the state to idle; was is the one before. */
    method Finish(was: CState, t: Turn) returns (rc: A.Rc, done: seq<Req>)
      requires Sound(View().(state := was)) && state == AsIdle && !active.NoPkt?
      modifies this
      ensures FsmOut(View(), rc, done) == FinishPkt(old(View()).(state := was), t)
    {
      var d := drv.value;
      var r: Req;
      match active {
        case Sense(ap) =>
          r := fault.value;
          fault := None;
          if A.ApError in ap.flags || A.ApBusReset in ap.flags {
            r := r.(ap := r.ap.(flags := r.ap.flags + {A.ApArqError}));
          } else {
            r := r.(ap := r.ap.(flags := r.ap.flags + {A.ApArqOkay}));
          }
        case Own(own) =>
          r := own;
          if NeedsSense(r.ap) {
            state := was;
            rc := StartArq(d, r, t);
            if rc != A.Busy {
              return rc, [];
            }
            state, active, drv, fault := AsIdle, NoPkt, None, None;
          }
      }
      active, drv := NoPkt, None;
      return A.Okay, [r];
    }

    /** ata_ctlr_fsm */
    method CtlrFsm(f: Func, r: Option<Req>, t: Turn) returns (rc: A.Rc, done: seq<Req>)
      requires Sound(View()) && CallOk(View(), f, r)
      modifies this
      ensures FsmOut(View(), rc, done) == Fsm(old(View()), f, r, t)
    {
      done := [];
      var was := state;
      match f
      case FStart =>
        if state != AsIdle {
          return A.Busy, [];
        }
        var req := r.value;
        state := ActiveState(req.targ);
        drv := Some(req.targ);
        var st := StartPkt(req.kind, DriveState(req.targ), req.ap, t);
        active := Own(req.(ap := st.pkt));
        SetDrive(req.targ, st.state);
        rc := st.rc;
        if rc == A.Busy {
          state, active, drv := AsIdle, NoPkt, None;
        }
      case FIntr =>
        if state == AsIdle {
          return A.Okay, [];
        }
        var d := drv.value;
        match active {
          case Sense(ap) =>
            var o := A.Interrupt(DriveState(d), ap, t.intr);
            active, rc := Sense(o.pkt), o.rc;
            SetDrive(d, o.state);
          case Own(own) =>
            if own.kind == Disk {
              rc := t.diskIntr;
            } else {
              var o := A.Interrupt(DriveState(d), own.ap, t.intr);
              active, rc := Own(own.(ap := o.pkt)), o.rc;
              SetDrive(d, o.state);
            }
        }
      case FReset =>
        match active {
          case NoPkt =>
          case Sense(ap) => active := Sense(Marked(ap));
          case Own(own) => active := Own(own.(ap := Marked(own.ap)));
        }
        if !t.resetOk {
          return A.Busy, [];
        }
        drive0, drive1 := A.SIdle, A.SIdle;
        rc := if was == AsIdle then A.Okay else A.Fini;
      case FFini =>
        if state == AsIdle {
          return A.Okay, [];
        }
        state := AsIdle;
        rc, done := Finish(was, t);
    }

    /** The loop of ata_hba_start. */
    method StartLoop(r: Req, ts: nat -> Turn, limit: nat) returns (started: bool, done: seq<Req>)
      requires Sound(View()) && Fresh(r)
      modifies this
      ensures var l := Loop(old(View()), FStart, Some(r), ts, 0, limit);
        View() == l.c && done == l.done && (started <==> l.calls > 0 && (l.calls > 1 || l.rc != Some(A.Busy)))
    {
      hide Loop;
      ghost var goal := Loop(View(), FStart, Some(r), ts, 0, limit);
      var f, req, k := FStart, Some(r), 0;
      started, done := false, [];
      var watchdog := limit;
      while watchdog > 0
        invariant k + watchdog == limit && (started <==> k > 0)
        invariant Sound(View()) && CallOk(View(), f, req)
        invariant Prefixed(done, Loop(View(), f, req, ts, k, watchdog)) == goal
      {
        var rc;
        rc, done := Step(f, req, ts, k, watchdog, done);
        match rc {
          case Okay =>
            started := true;
            return;
          case Busy =>
            return;
          case Intr =>
            started, f := true, FIntr;
          case Fini =>
            started, f := true, FFini;
        }
        req, k, watchdog := None, k + 1, watchdog - 1;
      }
      LoopStops(View(), f, req, ts, k);
    }

    /** ata_hba_start */
    method HbaStartCall(r: Req, ts: nat -> Turn, limit: nat) returns (started: bool, done: seq<Req>)
      requires Sound(View()) && Fresh(r)
      modifies this
      ensures StartOut(View(), started, done) == HbaStart(old(View()), r, ts, limit)
    {
      if drv.Some? {
        return false, [];
      }
      if !active.NoPkt? {
        return false, [];
      }
      started, done := StartLoop(r, ts, limit);
    }

    /** A call of ata_ctlr_fsm and the part of Loop that it is. */
    method Step(f: Func, r: Option<Req>, ts: nat -> Turn, k: nat, watchdog: nat, done: seq<Req>)
      returns (rc: A.Rc, done': seq<Req>)
      requires Sound(View()) && CallOk(View(), f, r) && watchdog > 0
      modifies this
      ensures rc.Okay? || rc.Busy? ==>
        Prefixed(done, Loop(old(View()), f, r, ts, k, watchdog)) == LoopOut(View(), Some(rc), done', k + 1)
      ensures rc.Intr? || rc.Fini? ==>
        && Sound(View()) && CallOk(View(), AskedFor(rc), None)
        && Prefixed(done, Loop(old(View()), f, r, ts, k, watchdog))
             == Prefixed(done', Loop(View(), AskedFor(rc), None, ts, k + 1, watchdog - 1))
    {
      FsmKeeps(View(), f, r, ts(k));
      var d;
      rc, d := CtlrFsm(f, r, ts(k));
      done' := done + d;
      if rc.Intr? || rc.Fini? {
        PrefixedTwice(done, d, Loop(View(), AskedFor(rc), None, ts, k + 1, watchdog - 1));
      }
    }

    /** ata_process_intr */
    method ProcessIntrCall(ts: nat -> Turn, limit: nat) returns (done: seq<Req>)
      requires Settled(View())
      modifies this
      ensures View() == ProcessIntr(old(View()), ts, limit).c && done == ProcessIntr(old(View()), ts, limit).done
    {
      hide Loop;
      ghost var goal := Loop(View(), FIntr, None, ts, 0, limit);
      var f, k := FIntr, 0;
      done := [];
      var watchdog := limit;
      while watchdog > 0
        invariant k + watchdog == limit
        invariant Sound(View()) && CallOk(View(), f, None)
        invariant Prefixed(done, Loop(View(), f, None, ts, k, watchdog)) == goal
      {
        var rc;
        rc, done := Step(f, None, ts, k, watchdog, done);
        match rc {
          case Okay => return;
          case Busy => return;
          case Intr => f := FIntr;
          case Fini => f := FFini;
        }
        k, watchdog := k + 1, watchdog - 1;
      }
      LoopStops(View(), f, None, ts, k);
    }

    /** The loop of ata_reset_bus; it returns at once when the machine is busy. */
    method ResetLoop(ts: nat -> Turn, limit: nat) returns (busy: bool, done: seq<Req>)
      requires Sound(View())
      modifies this
      ensures var l := Loop(old(View()), FReset, None, ts, 0, limit);
        View() == l.c && done == l.done && (busy <==> l.rc == Some(A.Busy))
    {
      hide Loop;
      ghost var goal := Loop(View(), FReset, None, ts, 0, limit);
      var f, k := FReset, 0;
      busy, done := false, [];
      var watchdog := limit;
      while watchdog > 0
        invariant k + watchdog == limit && !busy
        invariant Sound(View()) && CallOk(View(), f, None)
        invariant Prefixed(done, Loop(View(), f, None, ts, k, watchdog)) == goal
      {
        var rc;
        rc, done := Step(f, None, ts, k, watchdog, done);
        match rc {
          case Okay =>
            return;
          case Busy =>
            return true, done;
          case Intr =>
            f := FIntr;
          case Fini =>
            f := FFini;
        }
        k, watchdog := k + 1, watchdog - 1;
      }
      LoopStops(View(), f, None, ts, k);
    }

    /** ata_reset_bus */
    method ResetBusCall(ts: nat -> Turn, setup: bool, limit: nat) returns (ok: bool, done: seq<Req>)
      requires Settled(View()) && limit >= 5
      modifies this
      ensures ResetOut(View(), ok, done) == ResetBus(old(View()), ts, setup, limit)
    {
      var busy;
      busy, done := ResetLoop(ts, limit);
      if busy {
        return false, done;
      }
      ok := setup;
      if done != [] {
        ok := true;
      }
    }
  }
}
