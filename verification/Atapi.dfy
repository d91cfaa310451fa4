/**
  The ATAPI device state machine (dktp/controller/ata/atapi_fsm.c, ata_fsm.h), driven by the interrupt
  reason of the PACKET command protocol of ATA/ATAPI-4, and its PIO transfer loops.

  The device is arbitrary: whatever bits it shows at each interrupt are inputs.
 */
module Atapi {
  import opened Seqs

  /** ad_state; S_X is S_IDLE. */
  datatype State = SIdle | SCmd | SCdb | SIn | SOut | SDma

  datatype Action = AUnk | ANada | ACdb | AIn | AOut | AIdle | ARe | ARex

  /** atapi_PioAction: a row for each state, its columns the events. */
  function ActionFor(s: State, e: nat): Action
    requires e < 8
  {
    match s
    case SIdle => ANada
    case SCmd => (match e case 3 => ACdb case 6 => ARe case _ => ANada)
    case SCdb =>
      (match e
       case 0 => ARex case 1 => AOut case 4 => AIdle case 5 => AIn case 6 => ARe case 7 => AUnk case _ => ANada)
    case SIn =>
      (match e case 0 => ARex case 2 => AIdle case 4 => AIdle case 5 => AIn case 6 => ARe case _ => AUnk)
    case SOut =>
      (match e case 0 => ARex case 1 => AOut case 2 => AIdle case 4 => AIdle case 6 => ARe case _ => AUnk)
    case SDma => (match e case 0 => ARex case 6 => ARe case _ => AUnk)
  }

  /** atapi_PioNextState */
  function NextFor(s: State, e: nat): State
    requires e < 8
  {
    match s
    case SIdle => SIdle
    case SCmd => if e >= 6 then SIdle else SCdb
    case SCdb =>
      (match e case 0 => SIdle case 1 => SOut case 5 => SIn case 6 => SIdle case 7 => SIdle case _ => SCdb)
    case SIn => (match e case 2 => SIn case 4 => SIn case 5 => SIn case _ => SIdle)
    case SOut => (match e case 1 => SOut case 2 => SOut case 4 => SOut case _ => SIdle)
    case SDma => if e == 0 || e == 6 then SIdle else SDma
  }

  /** ATAPI_EVENT */
  function EventOf(drq: bool, cod: bool, io: bool): (e: nat)
    ensures e < 8
  {
    (if drq then 1 else 0) + (if cod then 2 else 0) + (if io then 4 else 0)
  }

  const EVENT_DATA_OUT := 1
  const EVENT_CDB := 3
  const EVENT_DATA_IN := 5
  const EVENT_FUTURE := 7

  /** The bits of ap_flags. */
  datatype Flag = ApRead | ApWrite | ApArqOnError | ApError | ApTranError | ApBusReset | ApDevReset
    | ApSentCmd | ApXferredData | ApGotStatus | ApArqOkay | ApArqError

  /** ata_pkt_t: statusErr is ap_status & ATS_ERR. */
  datatype Pkt = Pkt(dma: bool, flags: set<Flag>, statusErr: bool, vaddr: nat, resid: nat)

  datatype Rc = Okay | Busy | Intr | Fini

  /** How atapi_start_cmd goes: the controller stays busy before the command, the drive is not selected,
      the drive will interrupt for the CDB, or was polled for it. */
  datatype Answer = TooLong | NotSelected | WillInterrupt | Polled

  datatype Started = Started(state: State, pkt: Pkt, rc: Rc)

  /** atapi_fsm_start with atapi_start_cmd */
  function Start(s: State, p: Pkt, a: Answer): Started {
    if !s.SIdle? then Started(s, p, Busy)
    else match a
      case TooLong => Started(SIdle, p.(flags := p.flags + {ApError}), Busy)
      case NotSelected => Started(SIdle, p, Busy)
      case WillInterrupt => Started(SCmd, p, Okay)
      case Polled => Started(SCmd, p, Intr)
  }

  /** What an interrupt finds: the status and interrupt reason bits, the byte count registers, and the DMA
      error latch. */
  datatype Input = Input(bsy: bool, drq: bool, cod: bool, io: bool, err: bool, df: bool, bytes: nat, dmaError: bool)

  /** What is done to the device: the CDB sent, or words moved. */
  datatype Effect = Nothing | CdbSent | Read(words: nat) | Wrote(words: nat)

  datatype Out = Out(state: State, pkt: Pkt, rc: Rc, effect: Effect)

  function Half(n: nat): nat { (n + 1) / 2 }

  function Event(i: Input): (e: nat)
    ensures e < 8
  {
    EventOf(i.drq, i.cod, i.io)
  }

  /** The latches that ata_get_status_clear_intr looks at. */
  function Latched(p: Pkt, i: Input): Pkt {
    if p.dma && i.dmaError then p.(flags := p.flags + {ApError, ApTranError}) else p
  }

  /** atapi_status */
  function Status(p: Pkt, i: Input, dmaDone: bool): Pkt {
    var flags := p.flags + {ApGotStatus} + (if i.df || i.err then {ApError} else {});
    var p1 := p.(flags := flags, statusErr := if ApError in flags then i.err else p.statusErr);
    if dmaDone && ApTranError !in flags then p1.(flags := flags + {ApXferredData}, resid := 0) else p1
  }

  /** atapi_pio_data_in and atapi_pio_data_out, as far as the packet goes. */
  function Moved(p: Pkt, bytes: nat): Pkt {
    var n := Min(p.resid, bytes);
    p.(flags := p.flags + {ApXferredData}, vaddr := p.vaddr + n, resid := p.resid - n)
  }

  /** atapi_fsm_intr */
  function Interrupt(s: State, p0: Pkt, i: Input): Out {
    var p := Latched(p0, i);
    if i.bsy then Out(s, p, Busy, Nothing)
    else
      var next := NextFor(s, Event(i));
      match ActionFor(s, Event(i))
      case ACdb => Out(if p.dma then SDma else next, p.(flags := p.flags + {ApSentCmd}), Okay, CdbSent)
      case AIn =>
        if ApRead !in p.flags || p.dma then Out(next, p, Okay, Nothing)
        else Out(next, Moved(p, i.bytes), Okay, Read(Half(i.bytes)))
      case AOut =>
        if ApWrite !in p.flags || p.dma then Out(next, p, Okay, Nothing)
        else Out(next, Moved(p, i.bytes), Okay, Wrote(Half(Min(p.resid, i.bytes))))
      case ARe => Out(next, Status(p, i, s.SDma?), Fini, Nothing)
      case ARex => Out(next, Status(p, i, s.SDma?), Fini, Nothing)
      case _ => Out(next, p, Okay, Nothing)
  }

  // ---------------------------------------------------------------- one interrupt

  /** The cells of the tables that hold S_X. */
  predicate Unsupported(s: State, e: nat) {
    match s
    case SIn => e == EVENT_DATA_OUT || e == EVENT_CDB || e == EVENT_FUTURE
    case SOut => e == EVENT_CDB || e == EVENT_DATA_IN || e == EVENT_FUTURE
    case SDma => false
    case _ => e == EVENT_FUTURE
  }

  lemma Table(s: State, e: nat)
    requires e < 8
    ensures ActionFor(s, e).ARe? || ActionFor(s, e).ARex? ==> NextFor(s, e).SIdle?
    ensures !s.SIdle? && NextFor(s, e).SIdle? ==> ActionFor(s, e).ARe? || ActionFor(s, e).ARex? || Unsupported(s, e)
    ensures Unsupported(s, e) ==> NextFor(s, e).SIdle? && !ActionFor(s, e).ARe? && !ActionFor(s, e).ARex?
    ensures Unsupported(s, e) ==> !ActionFor(s, e).ACdb?
    ensures ActionFor(s, e).ACdb? <==> s.SCmd? && e == EVENT_CDB
    ensures !NextFor(s, e).SCmd?
  {
  }

  /** A command that has ended leaves the drive idle, and otherwise only an event the tables call
      unsupported does. */
  lemma FiniMeansIdle(s: State, p: Pkt, i: Input)
    requires !s.SIdle?
    ensures var o := Interrupt(s, p, i);
      && (o.rc.Fini? ==> o.state.SIdle? && ApGotStatus in o.pkt.flags)
      && (o.state.SIdle? && !o.rc.Fini? <==> !i.bsy && Unsupported(s, Event(i)))
  {
    Table(s, Event(i));
  }

  /** Reading the request sense packet back in does not depend on what went before: a drive that reported
      the end of a command accepts the next one. */
  lemma StartsAfterFini(s: State, p: Pkt, i: Input, p': Pkt, a: Answer)
    requires Interrupt(s, p, i).rc.Fini?
    ensures Start(Interrupt(s, p, i).state, p', a).rc.Busy? <==> a.TooLong? || a.NotSelected?
  {
  }

  // ---------------------------------------------------------------- a whole command

  /** A command as the machine sees it: n interrupts from the one that follows the start. */
  function After(s: State, p: Pkt, ins: seq<Input>): Out
    decreases |ins|
  {
    if ins == [] then Out(s, p, Okay, Nothing)
    else
      var o := After(s, p, ins[..|ins| - 1]);
      if o.rc.Fini? then o else Interrupt(o.state, o.pkt, ins[|ins| - 1])
  }

  function Effects(s: State, p: Pkt, ins: seq<Input>): seq<Effect>
    decreases |ins|
  {
    if ins == [] then []
    else
      var o := After(s, p, ins[..|ins| - 1]);
      Effects(s, p, ins[..|ins| - 1]) + (if o.rc.Fini? then [] else [Interrupt(o.state, o.pkt, ins[|ins| - 1]).effect])
  }

  function CdbsIn(es: seq<Effect>): nat {
    if es == [] then 0 else CdbsIn(es[..|es| - 1]) + (if es[|es| - 1].CdbSent? then 1 else 0)
  }

  /** The first interrupt that is not busy: the one that decides whether the CDB is sent. */
  function FirstReady(ins: seq<Input>): (k: nat)
    ensures k <= |ins| && (k < |ins| ==> !ins[k].bsy) && forall j :: 0 <= j < k ==> ins[j].bsy
    decreases |ins|
  {
    if ins == [] then 0
    else
      var k := FirstReady(ins[..|ins| - 1]);
      if k < |ins| - 1 then k else if ins[|ins| - 1].bsy then |ins| else |ins| - 1
  }

  predicate AsksForCdb(ins: seq<Input>) {
    FirstReady(ins) < |ins| && Event(ins[FirstReady(ins)]) == EVENT_CDB
  }

  /** The CDB goes out in no state but S_CMD, and S_CMD is left for good by the first interrupt that is
      not busy. */
  lemma CmdOnce(s: State, p: Pkt, i: Input)
    ensures var o := Interrupt(s, p, i);
      && (o.effect.CdbSent? <==> s.SCmd? && !i.bsy && Event(i) == EVENT_CDB)
      && (ApSentCmd in o.pkt.flags <==> ApSentCmd in p.flags || o.effect.CdbSent?)
      && (o.state.SCmd? <==> s.SCmd? && i.bsy)
  {
    Table(s, Event(i));
  }

  lemma {:induction false} FiniIsIdle(p: Pkt, ins: seq<Input>)
    ensures var o := After(SCmd, p, ins); o.rc.Fini? ==> o.state.SIdle?
    decreases |ins|
  {
    if ins != [] {
      var o := After(SCmd, p, ins[..|ins| - 1]);
      FiniIsIdle(p, ins[..|ins| - 1]);
      if !o.rc.Fini? && !o.state.SIdle? { FiniMeansIdle(o.state, o.pkt, ins[|ins| - 1]); }
    }
  }

  /** From a start on, whatever the device does: the CDB goes out at most once, and exactly when the first
      interrupt that is not busy asks for it. */
  lemma {:induction false} CdbAtMostOnce(p: Pkt, ins: seq<Input>)
    ensures var o := After(SCmd, p, ins);
      && CdbsIn(Effects(SCmd, p, ins)) == (if AsksForCdb(ins) then 1 else 0)
      && (ApSentCmd in o.pkt.flags <==> ApSentCmd in p.flags || AsksForCdb(ins))
      && (o.state.SCmd? <==> FirstReady(ins) == |ins|)
    decreases |ins|
  {
    if ins != [] {
      var pre, i := ins[..|ins| - 1], ins[|ins| - 1];
      var o, es := After(SCmd, p, pre), Effects(SCmd, p, ins);
      CdbAtMostOnce(p, pre);
      FiniIsIdle(p, pre);
      CmdOnce(o.state, o.pkt, i);
      if o.rc.Fini? {
        assert es == Effects(SCmd, p, pre);
      } else {
        assert es[..|es| - 1] == Effects(SCmd, p, pre);
      }
    }
  }

  /** Data can move without the CDB: an idle interrupt in S_CMD leads to S_CDB. */
  lemma DataWithoutCdb(p: Pkt) returns (ins: seq<Input>)
    requires ApRead in p.flags && !p.dma && ApSentCmd !in p.flags
    ensures var o := After(SCmd, p, ins); o.effect.Read? && ApSentCmd !in o.pkt.flags
  {
    var idle := Input(false, false, true, false, false, false, 0, false);
    var data := Input(false, true, false, true, false, false, 2, false);
    ins := [idle, data];
    assert ins[..1] == [idle] && [idle][..0] == [];
    assert After(SCmd, p, [idle]) == Interrupt(SCmd, p, idle);
  }

  /** When data moves, the CDB has been sent exactly when the first interrupt that was not busy asked for
      it; otherwise it moves without. */
  lemma DataMeansCdb(p: Pkt, ins: seq<Input>)
    requires ApSentCmd !in p.flags
    ensures var o, es := After(SCmd, p, ins), Effects(SCmd, p, ins);
      o.effect.Read? || o.effect.Wrote? ==>
        && FirstReady(ins) < |ins| - 1
        && (ApSentCmd in o.pkt.flags <==> AsksForCdb(ins)) && (CdbsIn(es) == 1 <==> AsksForCdb(ins))
  {
    CdbAtMostOnce(p, ins);
    if ins != [] {
      var pre, i := ins[..|ins| - 1], ins[|ins| - 1];
      var o := After(SCmd, p, pre);
      CdbAtMostOnce(p, pre);
      FiniHasNoData(p, pre);
      if !o.rc.Fini? && o.state.SCmd? { CmdMovesNothing(o.pkt, i); }
    }
  }

  /** In S_CMD no data moves. */
  lemma CmdMovesNothing(p: Pkt, i: Input)
    ensures var o := Interrupt(SCmd, p, i); !o.effect.Read? && !o.effect.Wrote?
  {
  }

  /** The interrupt that ends a command moves no data. */
  lemma {:induction false} FiniHasNoData(p: Pkt, ins: seq<Input>)
    ensures var o := After(SCmd, p, ins); o.rc.Fini? ==> o.effect.Nothing?
    decreases |ins|
  {
    if ins != [] { FiniHasNoData(p, ins[..|ins| - 1]); }
  }

  predicate Clean(ins: seq<Input>) { forall k :: 0 <= k < |ins| ==> !ins[k].err && !ins[k].df && !ins[k].dmaError }

  lemma OneClean(s: State, p: Pkt, i: Input)
    requires !i.err && !i.df && !i.dmaError
    ensures ApError in Interrupt(s, p, i).pkt.flags <==> ApError in p.flags
  {
  }

  /** A command without any error is reported as failed exactly when the packet came with AP_ERROR, and a
      start that was refused because the controller stayed busy leaves it there: only atapi_tran_start
      clears it, and a refused packet is requeued without passing there again. */
  lemma {:induction false} CleanCommandReports(p: Pkt, ins: seq<Input>)
    requires Clean(ins)
    ensures ApError in After(SCmd, p, ins).pkt.flags <==> ApError in p.flags
    ensures forall a :: ApError in Start(SIdle, p, a).pkt.flags <==> ApError in p.flags || a.TooLong?
    decreases |ins|
  {
    if ins != [] {
      CleanCommandReports(p, ins[..|ins| - 1]);
      var o := After(SCmd, p, ins[..|ins| - 1]);
      OneClean(o.state, o.pkt, ins[|ins| - 1]);
    }
  }

  // ---------------------------------------------------------------- data

  /** No word moves by PIO in S_DMA, nor for a DMA packet in any state. */
  lemma NoPioInDma(s: State, p: Pkt, i: Input)
    requires s.SDma? || p.dma
    ensures !Interrupt(s, p, i).effect.Read? && !Interrupt(s, p, i).effect.Wrote?
    ensures p.dma == Interrupt(s, p, i).pkt.dma
  {
  }

  function Words(e: Effect): nat {
    match e case Read(w) => w case Wrote(w) => w case _ => 0
  }

  function TotalWords(es: seq<Effect>): nat {
    if es == [] then 0 else TotalWords(es[..|es| - 1]) + Words(es[|es| - 1])
  }

  /** The packet's account after a transfer of at most twice these words. */
  predicate Accounted(p: Pkt, q: Pkt, words: nat) {
    p.vaddr <= q.vaddr <= p.vaddr + 2 * words && (q.vaddr + q.resid == p.vaddr + p.resid || (q.resid == 0 && q.dma))
  }

  lemma OneAccounted(s: State, p: Pkt, i: Input)
    ensures var o := Interrupt(s, p, i);
      && p.dma == o.pkt.dma
      && p.vaddr <= o.pkt.vaddr <= p.vaddr + 2 * Words(o.effect)
      && (s.SDma? || o.pkt.vaddr + o.pkt.resid == p.vaddr + p.resid)
      && (s.SDma? ==> o.pkt.vaddr == p.vaddr && (o.pkt.resid == p.resid || o.pkt.resid == 0))
      && (o.state.SDma? ==> s.SDma? || p.dma)
  {
  }

  /** Over a whole command ap_v_addr + ap_resid never changes, unless a DMA transfer has set ap_resid to
      zero at its end; and a DMA command moves no word by PIO. */
  lemma {:induction false} TransfersAccounted(p: Pkt, ins: seq<Input>)
    ensures var o, es := After(SCmd, p, ins), Effects(SCmd, p, ins);
      && Accounted(p, o.pkt, TotalWords(es)) && o.pkt.dma == p.dma
      && (p.dma ==> TotalWords(es) == 0) && (o.state.SDma? ==> p.dma)
    decreases |ins|
  {
    if ins != [] {
      var pre, i := ins[..|ins| - 1], ins[|ins| - 1];
      var o, es := After(SCmd, p, pre), Effects(SCmd, p, ins);
      TransfersAccounted(p, pre);
      OneAccounted(o.state, o.pkt, i);
      if o.rc.Fini? {
        assert es == Effects(SCmd, p, pre);
      } else {
        assert es[..|es| - 1] == Effects(SCmd, p, pre);
        if p.dma { NoPioInDma(o.state, o.pkt, i); }
      }
    }
  }

  // ---------------------------------------------------------------- the course of a command

  const EVENT_INVALID := 0
  const EVENT_STATUS := 6

  /** The last of these interrupts is ready, comes after the one that decides about the CDB, and shows e. */
  predicate Shows(ins: seq<Input>, e: nat)
    requires ins != []
  {
    var pre, i := ins[..|ins| - 1], ins[|ins| - 1];
    FirstReady(pre) < |pre| && !i.bsy && Event(i) == e
  }

  predicate Seen(ins: seq<Input>, e: nat)
    decreases |ins|
  {
    ins != [] && (Seen(ins[..|ins| - 1], e) || Shows(ins, e))
  }

  /** The last of these interrupts is one that ends the command or that the protocol has no place for: data
      in the other direction, or a request for the CDB once data has come. */
  predicate Stops(ins: seq<Input>)
    requires ins != []
  {
    var pre, i := ins[..|ins| - 1], ins[|ins| - 1];
    var e := Event(i);
    !i.bsy
    && if FirstReady(pre) == |pre| then e == EVENT_STATUS || e == EVENT_FUTURE
       else
         || e == EVENT_STATUS || e == EVENT_INVALID || e == EVENT_FUTURE
         || (Seen(pre, EVENT_DATA_IN) && (e == EVENT_DATA_OUT || e == EVENT_CDB))
         || (Seen(pre, EVENT_DATA_OUT) && (e == EVENT_DATA_IN || e == EVENT_CDB))
  }

  /** The interrupts before the first that stops the command. */
  function Live(ins: seq<Input>): (l: seq<Input>)
    ensures l <= ins
    decreases |ins|
  {
    if ins == [] then []
    else
      var pre := ins[..|ins| - 1];
      if Live(pre) == pre && !Stops(ins) then ins else Live(pre)
  }

  predicate Going(ins: seq<Input>) { Live(ins) == ins }

  /** What the drive is doing, from what it has shown. */
  function StateOf(ins: seq<Input>): State {
    if FirstReady(ins) == |ins| then SCmd
    else if Seen(ins, EVENT_DATA_IN) then SIn
    else if Seen(ins, EVENT_DATA_OUT) then SOut
    else SCdb
  }

  /** The command has stopped at an interrupt that ends it. */
  predicate Ended(ins: seq<Input>) {
    !Going(ins) && Ends(Event(ins[|Live(ins)|]))
  }

  /** Status, or nothing at all. */
  predicate Ends(e: nat) { e == EVENT_STATUS || e == EVENT_INVALID }

  lemma {:induction false} ReadyStays(ins: seq<Input>)
    requires ins != []
    ensures var pre := ins[..|ins| - 1];
      FirstReady(ins) == if FirstReady(pre) < |pre| || !ins[|ins| - 1].bsy then FirstReady(pre) else |ins|
  {
  }

  lemma {:induction false} SeenNeedsReady(ins: seq<Input>, e: nat)
    requires Seen(ins, e)
    ensures FirstReady(ins) < |ins|
    decreases |ins|
  {
    if !Shows(ins, e) { SeenNeedsReady(ins[..|ins| - 1], e); }
  }

  /** Data comes in one direction only. */
  lemma {:induction false} OneDirection(ins: seq<Input>)
    requires Going(ins)
    ensures !(Seen(ins, EVENT_DATA_IN) && Seen(ins, EVENT_DATA_OUT))
    decreases |ins|
  {
    if ins != [] { OneDirection(ins[..|ins| - 1]); }
  }

  /** One interrupt of a command without DMA that is going on. */
  lemma GoesOn(p: Pkt, ins: seq<Input>)
    requires ins != [] && !p.dma && Going(ins[..|ins| - 1])
    ensures var o := Interrupt(StateOf(ins[..|ins| - 1]), p, ins[|ins| - 1]);
      && o.state == (if Stops(ins) then SIdle else StateOf(ins))
      && (o.rc.Fini? <==> Stops(ins) && Ends(Event(ins[|ins| - 1])))
      && (o.effect.Read? <==> !Stops(ins) && Shows(ins, EVENT_DATA_IN) && ApRead in p.flags)
      && (o.effect.Wrote? <==> !Stops(ins) && Shows(ins, EVENT_DATA_OUT) && ApWrite in p.flags)
  {
    var pre := ins[..|ins| - 1];
    ReadyStays(ins);
    OneDirection(pre);
    if Seen(pre, EVENT_DATA_IN) { SeenNeedsReady(pre, EVENT_DATA_IN); }
    if Seen(pre, EVENT_DATA_OUT) { SeenNeedsReady(pre, EVENT_DATA_OUT); }
  }

  lemma OneKind(s: State, p: Pkt, i: Input)
    ensures var q := Interrupt(s, p, i).pkt;
      q.dma == p.dma && (ApRead in q.flags <==> ApRead in p.flags) && (ApWrite in q.flags <==> ApWrite in p.flags)
  {
  }

  /** What no interrupt changes. */
  lemma {:induction false} KindStays(p: Pkt, ins: seq<Input>)
    ensures var q := After(SCmd, p, ins).pkt;
      q.dma == p.dma && (ApRead in q.flags <==> ApRead in p.flags) && (ApWrite in q.flags <==> ApWrite in p.flags)
    decreases |ins|
  {
    if ins != [] {
      var o := After(SCmd, p, ins[..|ins| - 1]);
      KindStays(p, ins[..|ins| - 1]);
      OneKind(o.state, o.pkt, ins[|ins| - 1]);
      hide Interrupt;
    }
  }

  /** Whatever the device does, a command without DMA is where the interrupts before the first that stops it
      say, and it has ended exactly when that one shows status (or nothing at all). */
  lemma {:induction false} PioCourse(p: Pkt, ins: seq<Input>)
    requires !p.dma
    ensures var o := After(SCmd, p, ins);
      o.state == (if Going(ins) then StateOf(ins) else SIdle) && (o.rc.Fini? <==> Ended(ins))
    decreases |ins|
  {
    if ins != [] {
      var pre, i := ins[..|ins| - 1], ins[|ins| - 1];
      var o := After(SCmd, p, pre);
      PioCourse(p, pre);
      KindStays(p, pre);
      if Going(pre) {
        GoesOn(o.pkt, ins);
      } else {
        assert Live(ins) == Live(pre) && ins[|Live(pre)|] == pre[|Live(pre)|];
      }
    }
  }

  // The data of a command without DMA.

  /** The bytes that the drive offers, or asks for, with event e. */
  function BytesShown(ins: seq<Input>, e: nat): nat
    decreases |ins|
  {
    if ins == [] then 0
    else BytesShown(ins[..|ins| - 1], e) + (if Shows(ins, e) then ins[|ins| - 1].bytes else 0)
  }

  /** The words it takes to read them all, transfer by transfer. */
  function WordsShown(ins: seq<Input>): nat
    decreases |ins|
  {
    if ins == [] then 0
    else WordsShown(ins[..|ins| - 1]) + (if Shows(ins, EVENT_DATA_IN) then Half(ins[|ins| - 1].bytes) else 0)
  }

  /** The words that a buffer of n bytes has for it. */
  function WordsTaken(ins: seq<Input>, n: nat): nat
    decreases |ins|
  {
    if ins == [] then 0
    else
      var pre := ins[..|ins| - 1];
      var left := Left(n, BytesShown(pre, EVENT_DATA_OUT));
      WordsTaken(pre, n) + (if Shows(ins, EVENT_DATA_OUT) then Half(Min(left, ins[|ins| - 1].bytes)) else 0)
  }

  function Left(n: nat, m: nat): nat { if m <= n then n - m else 0 }

  lemma {:induction false} NothingShown(ins: seq<Input>, e: nat)
    requires !Seen(ins, e)
    ensures BytesShown(ins, e) == 0
    decreases |ins|
  {
    if ins != [] { NothingShown(ins[..|ins| - 1], e); }
  }

  /** The bytes that count for the packet's direction. */
  function BytesFor(p: Pkt, ins: seq<Input>): nat {
    (if ApRead in p.flags then BytesShown(ins, EVENT_DATA_IN) else 0)
    + (if ApWrite in p.flags then BytesShown(ins, EVENT_DATA_OUT) else 0)
  }

  function WordsFor(p: Pkt, ins: seq<Input>): nat {
    (if ApRead in p.flags then WordsShown(ins) else 0) + (if ApWrite in p.flags then WordsTaken(ins, p.resid) else 0)
  }

  lemma MovesNothing(s: State, p: Pkt, i: Input)
    requires !s.SDma? && !Interrupt(s, p, i).effect.Read? && !Interrupt(s, p, i).effect.Wrote?
    ensures var o := Interrupt(s, p, i); o.pkt.resid == p.resid && Words(o.effect) == 0
  {
  }

  lemma MovesThese(s: State, p: Pkt, i: Input)
    ensures var o := Interrupt(s, p, i);
      && (o.effect.Read? ==> o.effect == Read(Half(i.bytes)) && o.pkt.resid == p.resid - Min(p.resid, i.bytes))
      && (o.effect.Wrote? ==>
           o.effect == Wrote(Half(Min(p.resid, i.bytes))) && o.pkt.resid == p.resid - Min(p.resid, i.bytes))
  {
  }

  /** All that the drive offers in the packet's direction is moved, and nothing else: every data-in interrupt is
      read to its last word, every data-out interrupt is served as far as the buffer goes, and what is left is
      the buffer less what was offered. */
  lemma {:induction false} PioMovesAll(p: Pkt, ins: seq<Input>)
    requires !p.dma
    ensures TotalWords(Effects(SCmd, p, ins)) == WordsFor(p, Live(ins))
    ensures After(SCmd, p, ins).pkt.resid == Left(p.resid, BytesFor(p, Live(ins)))
    decreases |ins|
  {
    if ins != [] {
      var pre, i := ins[..|ins| - 1], ins[|ins| - 1];
      var o, es := After(SCmd, p, pre), Effects(SCmd, p, ins);
      PioMovesAll(p, pre);
      PioCourse(p, pre);
      KindStays(p, pre);
      if o.rc.Fini? {
        assert es == Effects(SCmd, p, pre);
      } else {
        assert es[..|es| - 1] == Effects(SCmd, p, pre);
        OneMoves(p, ins);
      }
    }
  }

  /** What one interrupt adds to the account of a command that is going on. */
  lemma AccountGrows(p: Pkt, ins: seq<Input>)
    requires ins != [] && Going(ins[..|ins| - 1])
    ensures var pre, l := ins[..|ins| - 1], Live(ins);
      var left := Left(p.resid, BytesFor(p, pre));
      var n := if Stops(ins) then 0 else ins[|ins| - 1].bytes;
      var gets := Shows(ins, EVENT_DATA_IN) && ApRead in p.flags;
      var puts := Shows(ins, EVENT_DATA_OUT) && ApWrite in p.flags;
      && BytesFor(p, l) == BytesFor(p, pre) + (if gets || puts then n else 0)
      && (gets ==> WordsFor(p, l) == WordsFor(p, pre) + Half(n))
      && (puts ==> WordsFor(p, l) == WordsFor(p, pre) + Half(Min(left, n)))
      && (!gets && !puts ==> WordsFor(p, l) == WordsFor(p, pre))
  {
    if Stops(ins) {
      assert Live(ins) == ins[..|ins| - 1];
    } else {
      assert Live(ins) == ins;
      if Shows(ins, EVENT_DATA_OUT) { OnlyOut(ins); }
      hide Live, Stops, Seen;
    }
  }

  /** What goes out comes after no other data. */
  lemma OnlyOut(ins: seq<Input>)
    requires ins != [] && !Stops(ins) && Shows(ins, EVENT_DATA_OUT)
    ensures BytesShown(ins[..|ins| - 1], EVENT_DATA_IN) == 0
  {
    NothingShown(ins[..|ins| - 1], EVENT_DATA_IN);
  }

  lemma OneMoves(p: Pkt, ins: seq<Input>)
    requires ins != [] && !p.dma
    requires var o := After(SCmd, p, ins[..|ins| - 1]);
      && !o.rc.Fini? && o.pkt.resid == Left(p.resid, BytesFor(p, Live(ins[..|ins| - 1])))
    ensures var o := After(SCmd, p, ins[..|ins| - 1]);
      var n := Interrupt(o.state, o.pkt, ins[|ins| - 1]);
      && WordsFor(p, Live(ins)) == WordsFor(p, Live(ins[..|ins| - 1])) + Words(n.effect)
      && n.pkt.resid == Left(p.resid, BytesFor(p, Live(ins)))
  {
    var pre, i := ins[..|ins| - 1], ins[|ins| - 1];
    var o := After(SCmd, p, pre);
    PioCourse(p, pre);
    KindStays(p, pre);
    hide After;
    MovesThese(o.state, o.pkt, i);
    if Going(pre) {
      GoesOn(o.pkt, ins);
      AccountGrows(p, ins);
    } else {
      IdleMovesNothing(o.pkt, i);
    }
    hide StateOf, WordsFor, BytesFor, Shows, Stops;
    if var n := Interrupt(o.state, o.pkt, i); !n.effect.Read? && !n.effect.Wrote? { MovesNothing(o.state, o.pkt, i); }
    hide Interrupt;
  }

  lemma IdleMovesNothing(p: Pkt, i: Input)
    ensures var o := Interrupt(SIdle, p, i); !o.effect.Read? && !o.effect.Wrote?
  {
  }

  /** Data has moved for the packet: the drive showed some in its direction. */
  predicate SomeFor(p: Pkt, ins: seq<Input>) {
    (ApRead in p.flags && Seen(ins, EVENT_DATA_IN)) || (ApWrite in p.flags && Seen(ins, EVENT_DATA_OUT))
  }

  lemma OneMarks(s: State, p: Pkt, i: Input)
    requires !s.SDma?
    ensures var o := Interrupt(s, p, i);
      ApXferredData in o.pkt.flags <==> ApXferredData in p.flags || o.effect.Read? || o.effect.Wrote?
  {
  }

  /** AP_XFERRED_DATA says whether any did. */
  lemma {:induction false} PioMarks(p: Pkt, ins: seq<Input>)
    requires !p.dma
    ensures ApXferredData in After(SCmd, p, ins).pkt.flags <==> ApXferredData in p.flags || SomeFor(p, Live(ins))
    decreases |ins|
  {
    if ins != [] {
      var pre, i := ins[..|ins| - 1], ins[|ins| - 1];
      var o := After(SCmd, p, pre);
      PioMarks(p, pre);
      PioCourse(p, pre);
      KindStays(p, pre);
      if !o.rc.Fini? {
        OneMarks(o.state, o.pkt, i);
        if Going(pre) { GoesOn(o.pkt, ins); } else { IdleMovesNothing(o.pkt, i); }
        hide Interrupt, StateOf, Stops;
      }
    }
  }

  /** Each transfer by itself. */
  lemma OfferTaken(p: Pkt, ins: seq<Input>)
    requires ins != [] && !p.dma && Going(ins)
    ensures var o, left := After(SCmd, p, ins), Left(p.resid, BytesFor(p, ins[..|ins| - 1]));
      && (Shows(ins, EVENT_DATA_IN) && ApRead in p.flags ==> o.effect == Read(Half(ins[|ins| - 1].bytes)))
      && (Shows(ins, EVENT_DATA_OUT) && ApWrite in p.flags ==>
            o.effect == Wrote(Half(Min(left, ins[|ins| - 1].bytes))))
  {
    var pre, i := ins[..|ins| - 1], ins[|ins| - 1];
    var o := After(SCmd, p, pre);
    PioCourse(p, pre);
    PioMovesAll(p, pre);
    KindStays(p, pre);
    MovesThese(o.state, o.pkt, i);
    GoesOn(o.pkt, ins);
  }

  // How a command reports.

  predicate Latches(ins: seq<Input>) { exists k :: 0 <= k < |ins| && ins[k].dmaError }

  /** The interrupts up to the end of the command. */
  function Heard(p: Pkt, ins: seq<Input>): (h: seq<Input>)
    ensures h <= ins && (ins != [] ==> h != [])
    decreases |ins|
  {
    if ins == [] then []
    else
      var pre := ins[..|ins| - 1];
      if After(SCmd, p, pre).rc.Fini? then Heard(p, pre) else ins
  }

  lemma LatchesMore(ins: seq<Input>)
    requires ins != []
    ensures Latches(ins) <==> Latches(ins[..|ins| - 1]) || ins[|ins| - 1].dmaError
  {
    assert ins == ins[..|ins| - 1] + [ins[|ins| - 1]];
  }

  lemma OneReports(s: State, p: Pkt, i: Input)
    ensures var o := Interrupt(s, p, i);
      && (ApError in o.pkt.flags <==>
           ApError in p.flags || (o.rc.Fini? && (i.err || i.df)) || (p.dma && i.dmaError))
      && (ApTranError in o.pkt.flags <==> ApTranError in p.flags || (p.dma && i.dmaError))
      && (o.rc.Fini? ==> ApGotStatus in o.pkt.flags && (ApError in o.pkt.flags ==> o.pkt.statusErr == i.err))
      && (ApArqOnError in o.pkt.flags <==> ApArqOnError in p.flags)
      && (!o.rc.Fini? ==> (ApGotStatus in o.pkt.flags <==> ApGotStatus in p.flags))
  {
  }

  lemma {:induction false} HeardAll(p: Pkt, ins: seq<Input>)
    requires !After(SCmd, p, ins).rc.Fini?
    ensures Heard(p, ins) == ins
  {
  }

  /** A command is reported as failed exactly when it came so, when the interrupt that ends it shows an error, or
      when a DMA error was latched on the way; and then with the status of that interrupt. */
  lemma {:induction false} FailsExactly(p: Pkt, ins: seq<Input>)
    ensures var o, h := After(SCmd, p, ins), Heard(p, ins);
      && (ApError in o.pkt.flags <==>
           ApError in p.flags || (o.rc.Fini? && (h[|h| - 1].err || h[|h| - 1].df)) || (p.dma && Latches(h)))
      && (ApTranError in o.pkt.flags <==> ApTranError in p.flags || (p.dma && Latches(h)))
      && (o.rc.Fini? ==>
           ApGotStatus in o.pkt.flags && (ApError in o.pkt.flags ==> o.pkt.statusErr == h[|h| - 1].err))
    decreases |ins|
  {
    if ins != [] {
      var pre, i := ins[..|ins| - 1], ins[|ins| - 1];
      var o := After(SCmd, p, pre);
      FailsExactly(p, pre);
      KindStays(p, pre);
      if !o.rc.Fini? {
        HeardAll(p, pre);
        LatchesMore(ins);
        OneReports(o.state, o.pkt, i);
      }
    }
  }

  /** A DMA command whose CDB went out lasts until the drive shows status (or nothing at all), and then all of it
      was moved unless an error was latched. */
  lemma {:induction false} DmaCourse(p: Pkt, ins: seq<Input>)
    requires p.dma && AsksForCdb(ins)
    ensures var o := After(SCmd, p, ins);
      && (o.rc.Fini? <==> Seen(ins, EVENT_STATUS) || Seen(ins, EVENT_INVALID))
      && o.state == (if o.rc.Fini? then SIdle else SDma)
      && (o.rc.Fini? && ApTranError !in o.pkt.flags ==> o.pkt.resid == 0 && ApXferredData in o.pkt.flags)
      && (!o.rc.Fini? || ApTranError in o.pkt.flags ==> o.pkt.resid == p.resid && o.pkt.vaddr == p.vaddr)
    decreases |ins|
  {
    var pre, i := ins[..|ins| - 1], ins[|ins| - 1];
    var o := After(SCmd, p, pre);
    ReadyStays(ins);
    KindStays(p, pre);
    if FirstReady(pre) < |pre| {
      assert ins[FirstReady(pre)] == pre[FirstReady(pre)];
      DmaCourse(p, pre);
      DmaGoesOn(o.pkt, i);
    } else {
      DmaBegins(p, pre);
      DmaNotSeen(pre);
    }
  }

  lemma DmaGoesOn(p: Pkt, i: Input)
    requires p.dma
    ensures var o := Interrupt(SDma, p, i);
      && (o.rc.Fini? <==> !i.bsy && Ends(Event(i)))
      && o.state == (if o.rc.Fini? then SIdle else SDma) && o.pkt.vaddr == p.vaddr
      && o.pkt.resid == (if o.rc.Fini? && ApTranError !in o.pkt.flags then 0 else p.resid)
      && (o.rc.Fini? && ApTranError !in o.pkt.flags ==> ApXferredData in o.pkt.flags)
      && (ApTranError in p.flags ==> ApTranError in o.pkt.flags)
  {
  }

  /** Until the first ready interrupt the command waits in S_CMD with its account untouched. */
  lemma {:induction false} DmaBegins(p: Pkt, ins: seq<Input>)
    requires FirstReady(ins) == |ins|
    ensures var o := After(SCmd, p, ins);
      o.state.SCmd? && !o.rc.Fini? && o.pkt.resid == p.resid && o.pkt.vaddr == p.vaddr
    decreases |ins|
  {
    if ins != [] {
      ReadyStays(ins);
      DmaBegins(p, ins[..|ins| - 1]);
    }
  }

  lemma DmaNotSeen(ins: seq<Input>)
    requires FirstReady(ins) == |ins|
    ensures !Seen(ins, EVENT_STATUS) && !Seen(ins, EVENT_INVALID)
  {
    if Seen(ins, EVENT_STATUS) { SeenNeedsReady(ins, EVENT_STATUS); }
    if Seen(ins, EVENT_INVALID) { SeenNeedsReady(ins, EVENT_INVALID); }
  }

  type Byte = x: int | 0 <= x < 256

  /** What the 16-bit data register holds. */
  datatype Word = Word(low: Byte, high: Byte)

  /** The k-th byte of a row of words, low byte first. */
  function ByteAt(words: seq<Word>, k: nat): Byte
    requires k < 2 * |words|
  {
    if k % 2 == 0 then words[k / 2].low else words[k / 2].high
  }

  /** ata_pkt_t with its data buffer. */
  class Request {
    var dma: bool
    var flags: set<Flag>
    var statusErr: bool
    var vaddr: nat
    var resid: nat
    const buf: array<Byte>

    constructor (size: nat)
    {
      dma, flags, statusErr, vaddr, resid := false, {}, false, 0, 0;
      buf := new Byte[size](_ => 0);
    }

    ghost function View(): Pkt reads this { Pkt(dma, flags, statusErr, vaddr, resid) }

    /** ddi_rep_get16 */
    method GetWords(words: seq<Word>, at: nat)
      requires at + 2 * |words| <= buf.Length
      modifies buf
      ensures forall k :: 0 <= k < 2 * |words| ==> buf[at + k] == ByteAt(words, k)
      ensures forall j :: 0 <= j < buf.Length && !(at <= j < at + 2 * |words|) ==> buf[j] == old(buf[j])
    {
      var n := 0;
      while n < |words|
        invariant n <= |words|
        invariant forall k :: 0 <= k < 2 * n ==> buf[at + k] == ByteAt(words, k)
        invariant forall j :: 0 <= j < buf.Length && !(at <= j < at + 2 * n) ==> buf[j] == old(buf[j])
      {
        buf[at + 2 * n] := words[n].low;
        buf[at + 2 * n + 1] := words[n].high;
        n := n + 1;
      }
    }

    /** The words that go to the buffer, the last one by halves when xfer is odd. */
    method StoreWords(xfer: nat, words: seq<Word>) returns (count: nat)
      requires Half(xfer) <= |words| && vaddr + xfer <= buf.Length
      modifies `vaddr, buf
      ensures count == Half(xfer) && vaddr == old(vaddr) + xfer
      ensures forall k :: 0 <= k < xfer ==> buf[old(vaddr) + k] == ByteAt(words, k)
      ensures forall j :: 0 <= j < buf.Length && !(old(vaddr) <= j < old(vaddr) + xfer) ==> buf[j] == old(buf[j])
    {
      var n := xfer / 2;
      count := 0;
      if n > 0 {
        GetWords(words[..n], vaddr);
        count := n;
        vaddr := vaddr + 2 * n;
      }
      assert forall k :: 0 <= k < 2 * n ==> buf[old(vaddr) + k] == ByteAt(words[..n], k) == ByteAt(words, k);
      if xfer % 2 == 1 {
        var word := words[count];
        count := count + 1;
        buf[vaddr] := word.low;
        vaddr := vaddr + 1;
        assert ByteAt(words, 2 * n) == word.low;
      }
    }

    /** atapi_pio_data_in: bytes is what the drive offers, and words what its data register gives when
        read that often.  However the two counts differ, exactly that many words are read. */
    method PioDataIn(bytes: nat, words: seq<Word>) returns (count: nat)
      requires |words| == Half(bytes) && vaddr + resid <= buf.Length
      modifies this, buf
      ensures count == Half(bytes)
      ensures View() == Moved(old(View()), bytes)
      ensures forall k :: 0 <= k < Min(old(resid), bytes) ==> buf[old(vaddr) + k] == ByteAt(words, k)
      ensures forall j :: 0 <= j < buf.Length && !(old(vaddr) <= j < old(vaddr) + Min(old(resid), bytes)) ==>
        buf[j] == old(buf[j])
    {
      flags := flags + {ApXferredData};
      var xfer := Min(resid, bytes);
      count := StoreWords(xfer, words);
      var left: int := bytes - 2 * count;
      resid := resid - xfer;
      while left > 0
        invariant left <= 0 ==> count == Half(bytes)
        invariant left > 0 ==> 2 * count + left == bytes
        decreases left
      {
        count := count + 1;
        left := left - 2;
      }
    }

    /** ddi_rep_put16 */
    method PutWords(n: nat, at: nat) returns (sent: seq<Word>)
      requires at + 2 * n <= buf.Length
      ensures |sent| == n && forall k :: 0 <= k < 2 * n ==> ByteAt(sent, k) == buf[at + k]
    {
      sent := [];
      var i := 0;
      while i < n
        invariant i <= n && |sent| == i
        invariant forall k :: 0 <= k < 2 * i ==> ByteAt(sent, k) == buf[at + k]
      {
        ghost var was := sent;
        sent := sent + [Word(buf[at + 2 * i], buf[at + 2 * i + 1])];
        assert forall k :: 0 <= k < 2 * i ==> ByteAt(sent, k) == ByteAt(was, k);
        i := i + 1;
      }
    }

    /** atapi_pio_data_out: an odd last byte goes out in a word of its own, sign-extended since caddr_t is
        a pointer to char. */
    method PioDataOut(bytes: nat) returns (sent: seq<Word>)
      requires vaddr + resid <= buf.Length
      modifies this
      ensures |sent| == Half(Min(old(resid), bytes))
      ensures View() == Moved(old(View()), bytes)
      ensures forall k :: 0 <= k < Min(old(resid), bytes) ==> ByteAt(sent, k) == buf[old(vaddr) + k]
      ensures Min(old(resid), bytes) % 2 == 1 ==>
        sent[|sent| - 1].high == if sent[|sent| - 1].low >= 128 then 255 else 0
    {
      flags := flags + {ApXferredData};
      var xfer := Min(resid, bytes);
      var n := xfer / 2;
      sent := [];
      if n > 0 {
        sent := PutWords(n, vaddr);
        vaddr := vaddr + 2 * n;
      }
      if xfer % 2 == 1 {
        ghost var was := sent;
        var last := buf[vaddr];
        vaddr := vaddr + 1;
        sent := sent + [Word(last, if last >= 128 then 255 else 0)];
        assert forall k :: 0 <= k < 2 * n ==> ByteAt(sent, k) == ByteAt(was, k);
        assert ByteAt(sent, 2 * n) == last;
      }
      resid := resid - xfer;
    }
  }

  /** ata_drv_t, as far as this machine goes. */
  class Drive {
    var state: State

    constructor ()
      ensures state == SIdle
    {
      state := SIdle;
    }

    /** atapi_fsm_start */
    method FsmStart(req: Request, a: Answer) returns (rc: Rc)
      modifies this, req
      ensures Started(state, req.View(), rc) == Start(old(state), old(req.View()), a)
    {
      if state != SIdle {
        return Busy;
      }
      state := SCmd;
      match a {
        case TooLong =>
          req.flags := req.flags + {ApError};
          rc := Busy;
        case NotSelected =>
          rc := Busy;
        case WillInterrupt =>
          rc := Okay;
        case Polled =>
          rc := Intr;
      }
      if rc == Busy {
        state := SIdle;
      }
    }

    /** atapi_status */
    method ReadStatus(req: Request, i: Input, dmaDone: bool)
      modifies req
      ensures req.View() == Status(old(req.View()), i, dmaDone)
    {
      req.flags := req.flags + {ApGotStatus};
      if i.df || i.err {
        req.flags := req.flags + {ApError};
      }
      if ApError in req.flags {
        req.statusErr := i.err;
      }
      if dmaDone && ApTranError !in req.flags {
        req.flags := req.flags + {ApXferredData};
        req.resid := 0;
      }
    }

    /** atapi_fsm_intr */
    method FsmIntr(req: Request, i: Input, words: seq<Word>) returns (rc: Rc, ghost effect: Effect)
      requires req.vaddr + req.resid <= req.buf.Length && |words| == Half(i.bytes)
      modifies this, req, req.buf
      ensures Out(state, req.View(), rc, effect) == Interrupt(old(state), old(req.View()), i)
    {
      effect := Nothing;
      if req.dma && i.dmaError {
        req.flags := req.flags + {ApError, ApTranError};
      }
      if i.bsy {
        return Busy, Nothing;
      }
      var was, event := state, Event(i);
      var action := ActionFor(state, event);
      state := NextFor(state, event);
      rc := Okay;
      match action {
        case ACdb =>
          req.flags := req.flags + {ApSentCmd};
          effect := CdbSent;
          if req.dma {
            state := SDma;
          }
        case AIn =>
          if ApRead in req.flags && !req.dma {
            var count := req.PioDataIn(i.bytes, words);
            effect := Read(count);
          }
        case AOut =>
          if ApWrite in req.flags && !req.dma {
            var sent := req.PioDataOut(i.bytes);
            effect := Wrote(|sent|);
          }
        case ARe =>
          ReadStatus(req, i, was == SDma);
          rc := Fini;
        case ARex =>
          ReadStatus(req, i, was == SDma);
          rc := Fini;
        case _ =>
      }
    }
  }
}
