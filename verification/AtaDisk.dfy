/**
  One PIO command on an ATA disk (dktp/controller/ata/ata_disk.c): setting the packet up for a
  chunk, moving its data interrupt by interrupt, and reporting the result to the disk driver.
  The device is whatever it likes to be: every status it can show arrives as an event.
 */
module AtaDisk {
  import opened Seqs

  const SECTOR: int := 512

  /** ap_resid is a size_t: taking too much from it wraps around. */
  const SIZE_T: int := 0x1_0000_0000_0000_0000

  datatype Dir = Read | Write

  /** The bits of the status register the driver looks at. */
  datatype Status = Status(bsy: bool, drq: bool, df: bool, err: bool)

  /** The bits of the error register the driver looks at. */
  datatype ErrReg = ErrReg(bbkIcrc: bool, unc: bool, idnf: bool, tkonf: bool, amnf: bool)

  /** What the driver finds when it takes an interrupt: the status register, the alternate status
      read later on, whether the drive drops DRQ in time, and the error register. */
  datatype Irq = Irq(status: Status, alt: Status, drqDrops: bool, errReg: ErrReg)

  /** One command's fate.  A write may see no DRQ after the command byte.  When the interrupts run
      out before the command is finished its timer expires and the bus is reset. */
  datatype Attempt = Attempt(noDrq: bool, irqs: seq<Irq>)

  datatype Rc = Okay | Busy | Fini

  /** Status codes ata_disk_complete can report (DERR_*). */
  datatype Derr = Success | Amnf | Tkonf | Abort | Dwf | Idnf | Busy_ | Unc | Bbk | Icrc

  /** struct ata_pkt: addresses are byte offsets into the request's buffer; `killed` stands for
      AP_ABORT, AP_TIMEOUT and AP_BUS_RESET. */
  datatype AtaPkt = AtaPkt(
    vAddr: int, resid: int, vAddrSav: int, residSav: int, wrtCount: int, bytesPerBlock: int,
    count: int, startsec: int, dir: Dir, data: bool, error: bool, killed: bool, status: Status, errReg: ErrReg)
  {
    /** The packet as a command for `total` bytes is sent: nothing has moved. */
    ghost predicate Fresh(total: int) {
      && 0 < total < SIZE_T && resid == total && vAddr == vAddrSav && !error && !killed && data
      && bytesPerBlock > 0 && (dir == Read ==> wrtCount == 0)
    }

    /** Part of the chunk has moved; the address and what is left add up. */
    ghost predicate Moving(total: int) {
      && 0 <= resid <= total < SIZE_T && vAddr + resid == vAddrSav + total
      && bytesPerBlock > 0 && 0 <= wrtCount <= resid && (dir == Read ==> wrtCount == 0)
    }

    /** What no interrupt touches. */
    predicate SameCommand(q: AtaPkt) {
      && q.vAddrSav == vAddrSav && q.residSav == residSav && q.dir == dir && q.data == data && q.killed == killed
      && q.startsec == startsec && q.count == count && q.bytesPerBlock == bytesPerBlock
    }

    function Record(irq: Irq): AtaPkt { this.(error := true, status := irq.alt, errReg := irq.errReg) }
  }

  // ---------------------------------------------------------------- setup

  /** ata_disk_iosetup without DMA: a fresh chunk takes as many sectors as the controller allows, a
      retry takes one and starts over at the saved address. */
  function Iosetup(p: AtaPkt, bytes: int, sec: int, maxTransfer: int, ext48: bool): (AtaPkt, int) {
    var sectors := if p.error then 1 else Min(bytes / SECTOR, maxTransfer);
    var p1 :=
      if p.error then
        var q := p.(bytesPerBlock := SECTOR);
        if p.data then q.(vAddr := p.vAddrSav, resid := p.residSav) else q
      else p.(vAddrSav := p.vAddr, residSav := p.resid);
    var regCount := if ext48 then sectors else sectors % 256;
    (p1.(error := false, killed := false, data := true, count := regCount, startsec := sec, resid := sectors * SECTOR),
     sectors * SECTOR)
  }

  /** How many sectors the drive takes a loaded count to mean. */
  function DeviceCount(count: int, ext48: bool): int {
    if count == 0 then (if ext48 then 65536 else 256) else count
  }

  // ---------------------------------------------------------------- data transfer

  /** ata_disk_intr_pio_in */
  function IntrIn(p: AtaPkt, irq: Irq): (AtaPkt, Rc) {
    var st := irq.status;
    if st.bsy then (p.Record(irq), Busy)
    else
      var p1 := if st.drq && !st.df && !st.err then p else p.Record(irq);
      var n := if st.drq then Min(p.resid, p.bytesPerBlock) else 0;
      var p2 := p1.(vAddr := p1.vAddr + n, resid := p1.resid - n);
      if p2.resid == 0 && irq.drqDrops then (p2, Fini)
      else
        var p3 := if p2.resid == 0 then p2.Record(irq) else p2;
        (p3, if p3.error then Fini else Okay)
  }

  /** ata_disk_intr_pio_out: the block written last is accounted for at this interrupt. */
  function IntrOut(p: AtaPkt, irq: Irq): (AtaPkt, Rc) {
    if irq.status.df || irq.status.err then (p.Record(irq), Fini)
    else
      var p1 := p.(vAddr := p.vAddr + p.wrtCount, resid := (p.resid - p.wrtCount) % SIZE_T);
      if p1.resid == 0 then (p1, Fini)
      else if irq.alt.bsy then (p1.Record(irq), Busy)
      else if !irq.alt.drq || irq.alt.df || irq.alt.err then (p1.Record(irq), Fini)
      else (p1.(wrtCount := Min(p1.resid, p1.bytesPerBlock)), Okay)
  }

  function Interrupt(p: AtaPkt, irq: Irq): (AtaPkt, Rc) {
    match p.dir
    case Read => IntrIn(p, irq)
    case Write => IntrOut(p, irq)
  }

  function Interrupts(p: AtaPkt, irqs: seq<Irq>): AtaPkt
    decreases |irqs|
  {
    if irqs == [] then p.(killed := true)
    else
      var (q, rc) := Interrupt(p, irqs[0]);
      if rc == Fini then q else Interrupts(q, irqs[1..])
  }

  /** ata_disk_start_pio_in/_out: the packet once the command byte is out. */
  function Started(p: AtaPkt, a: Attempt): AtaPkt {
    match p.dir
    case Read => p
    case Write => p.(wrtCount := 0, error := p.error || a.noDrq)
  }

  function RunCommand(p: AtaPkt, a: Attempt): AtaPkt { Interrupts(Started(p, a), a.irqs) }

  // ---------------------------------------------------------------- completion

  /** ata_disk_complete: the status reported to the disk driver. */
  function Complete(p: AtaPkt, ata4: bool): Derr {
    if p.error then
      if p.errReg.bbkIcrc then (if ata4 then Icrc else Bbk)
      else if p.errReg.unc then Unc
      else if p.errReg.idnf then Idnf
      else if p.errReg.tkonf then Tkonf
      else if p.errReg.amnf then Amnf
      else if p.status.bsy then Busy_
      else if p.status.df then Dwf
      else Abort
    else if p.killed then Abort
    else Success
  }

  // ---------------------------------------------------------------- what really moved

  /** Bytes that crossed the data port in one go: those from pos on of the command's data, to or from
      offset `at` of the buffer.  good: the drive reported no error along with them. */
  datatype Move = Move(pos: int, at: int, len: int, good: bool)

  function Bytes(ms: seq<Move>): (b: int)
    ensures |ms| == 1 ==> b == ms[0].len
  {
    if ms == [] then 0 else ms[0].len + Bytes(ms[1..])
  }

  /** What crosses the data port at one interrupt, pos bytes into the command's data. */
  function StepMoves(p: AtaPkt, pos: int, irq: Irq): seq<Move> {
    match p.dir
    case Read =>
      if irq.status.bsy || !irq.status.drq then []
      else [Move(pos, p.vAddr, Min(p.resid, p.bytesPerBlock), !irq.status.df && !irq.status.err)]
    case Write =>
      var (q, rc) := IntrOut(p, irq);
      if rc == Okay then [Move(pos, q.vAddr, q.wrtCount, true)] else []
  }

  function Moves(p: AtaPkt, pos: int, irqs: seq<Irq>): seq<Move>
    decreases |irqs|
  {
    if irqs == [] then []
    else
      var (q, rc) := Interrupt(p, irqs[0]);
      var now := StepMoves(p, pos, irqs[0]);
      now + (if rc == Fini then [] else Moves(q, pos + Bytes(now), irqs[1..]))
  }

  function CommandMoves(p: AtaPkt, a: Attempt): seq<Move> { Moves(Started(p, a), 0, a.irqs) }

  /** The bytes the drive gave or took, by the transfers at the data port: a block read counts at once, a
      block written (`out` bytes of it are outstanding) when an interrupt without an error follows. */
  function Acked(p: AtaPkt, out: int, irqs: seq<Irq>): int
    decreases |irqs|
  {
    if irqs == [] then 0
    else
      var (q, rc) := Interrupt(p, irqs[0]);
      var now := Bytes(StepMoves(p, 0, irqs[0]));
      match p.dir
      case Read => now + (if rc == Fini then 0 else Acked(q, 0, irqs[1..]))
      case Write =>
        if irqs[0].status.df || irqs[0].status.err then 0
        else out + (if rc == Fini then 0 else Acked(q, now, irqs[1..]))
  }

  /** Bytes the packet accounts for twice.  After the busy exit of a write interrupt the count of the last
      block is still set, and the next clean interrupt takes it off again. */
  function Drift(p: AtaPkt, out: int, irqs: seq<Irq>): int
    decreases |irqs|
  {
    if irqs == [] || p.dir == Read then 0
    else
      var st := irqs[0].status;
      var (q, rc) := Interrupt(p, irqs[0]);
      if st.df || st.err then 0
      else p.wrtCount - out + (if rc == Fini then 0 else Drift(q, if rc == Busy then 0 else q.wrtCount, irqs[1..]))
  }

  function CommandAcked(p: AtaPkt, a: Attempt): int { Acked(Started(p, a), 0, a.irqs) }

  function CommandDrift(p: AtaPkt, a: Attempt): int { Drift(Started(p, a), 0, a.irqs) }

  // ---------------------------------------------------------------- properties

  lemma WrapTwice(a: int, b: int)
    ensures (a % SIZE_T - b) % SIZE_T == (a - b) % SIZE_T
  {
    var k := a / SIZE_T;
    assert a % SIZE_T - b == a - b + (-k) * SIZE_T;
    WrapShift(a - b, -k);
  }

  lemma {:induction false} WrapShift(x: int, k: int)
    ensures (x + k * SIZE_T) % SIZE_T == x % SIZE_T
    decreases if k < 0 then -k else k
  {
    if k > 0 {
      WrapShift(x, k - 1);
      assert (x + k * SIZE_T) % SIZE_T == (x + (k - 1) * SIZE_T) % SIZE_T;
    } else if k < 0 {
      WrapShift(x, k + 1);
      assert (x + k * SIZE_T) % SIZE_T == (x + (k + 1) * SIZE_T) % SIZE_T;
    }
  }

  lemma ReadStep(p: AtaPkt, irq: Irq)
    requires 0 <= p.resid < SIZE_T && p.bytesPerBlock > 0 && p.dir == Read
    ensures var q := IntrIn(p, irq).0;
      var n := Bytes(StepMoves(p, 0, irq));
      && n >= 0 && q.resid == p.resid - n && 0 <= q.resid && q.bytesPerBlock == p.bytesPerBlock
      && q.wrtCount == p.wrtCount && q.dir == p.dir
  {
  }

  lemma WriteStep(p: AtaPkt, irq: Irq)
    requires 0 <= p.resid < SIZE_T && p.bytesPerBlock > 0 && p.dir == Write && 0 <= p.wrtCount
    requires !irq.status.df && !irq.status.err
    ensures var (q, rc) := IntrOut(p, irq);
      && q.resid == (p.resid - p.wrtCount) % SIZE_T && q.bytesPerBlock == p.bytesPerBlock && q.dir == p.dir
      && 0 <= q.wrtCount && (rc == Okay ==> q.wrtCount <= q.resid)
      && (rc != Fini ==> Bytes(StepMoves(p, 0, irq)) == if rc == Busy then 0 else q.wrtCount)
  {
  }

  lemma WriteEnds(p: AtaPkt, irq: Irq)
    requires p.dir == Write && (irq.status.df || irq.status.err)
    ensures IntrOut(p, irq).0.resid == p.resid && IntrOut(p, irq).1 == Fini
  {
  }

  /** The residual is exact up to what was counted twice, for every behaviour of the device. */
  lemma {:induction false} ResidualExact(p: AtaPkt, out: int, irqs: seq<Irq>)
    requires 0 <= p.resid < SIZE_T && p.bytesPerBlock > 0 && 0 <= out <= p.wrtCount
    requires p.dir == Read ==> out == p.wrtCount == 0
    ensures Interrupts(p, irqs).resid == (p.resid - (Acked(p, out, irqs) + Drift(p, out, irqs))) % SIZE_T
    ensures Acked(p, out, irqs) >= 0 && Drift(p, out, irqs) >= 0
    decreases |irqs|
  {
    hide IntrIn, IntrOut, StepMoves, Bytes;
    if irqs != [] {
      var irq, rest := irqs[0], irqs[1..];
      var (q, rc) := Interrupt(p, irq);
      if p.dir == Read {
        ReadStep(p, irq);
        if rc != Fini {
          ResidualExact(q, 0, rest);
        }
      } else if irq.status.df || irq.status.err {
        WriteEnds(p, irq);
      } else {
        WriteStep(p, irq);
        if rc != Fini {
          var out' := if rc == Busy then 0 else q.wrtCount;
          ResidualExact(q, out', rest);
          WrapTwice(p.resid - p.wrtCount, Acked(q, out', rest) + Drift(q, out', rest));
        }
      }
    }
  }

  lemma StepSame(p: AtaPkt, irq: Irq)
    ensures p.SameCommand(Interrupt(p, irq).0) && (p.error ==> Interrupt(p, irq).0.error)
    ensures p.dir == Read ==> Interrupt(p, irq).0.wrtCount == p.wrtCount
    ensures Interrupt(p, irq).1 == Busy ==> Interrupt(p, irq).0.error
  {
  }

  /** Only a bus reset kills a command, and the error flag sticks. */
  lemma {:induction false} InterruptsSame(p: AtaPkt, irqs: seq<Irq>)
    ensures p.SameCommand(Interrupts(p, irqs).(killed := p.killed)) && (p.error ==> Interrupts(p, irqs).error)
    ensures p.dir == Read ==> Interrupts(p, irqs).wrtCount == p.wrtCount
    decreases |irqs|
  {
    if irqs != [] {
      StepSame(p, irqs[0]);
      var (q, rc) := Interrupt(p, irqs[0]);
      if rc != Fini {
        InterruptsSame(q, irqs[1..]);
      }
    }
  }

  /** A command that ends without error flag and was not killed has moved all of it: the flag is set on
      every path that cuts the transfer short, and never cleared while the command runs. */
  lemma {:induction false} CleanEndMovesAll(p: AtaPkt, irqs: seq<Irq>, total: int)
    requires p.Moving(total) && (p.dir == Read ==> p.resid > 0)
    ensures var q := Interrupts(p, irqs);
      !q.error && !q.killed ==> q.resid == 0 && q.vAddr == q.vAddrSav + total
    decreases |irqs|
  {
    if irqs != [] {
      StepSame(p, irqs[0]);
      var (q, rc) := Interrupt(p, irqs[0]);
      if rc == Busy {
        InterruptsSame(q, irqs[1..]);
      } else if rc == Okay {
        CleanEndMovesAll(q, irqs[1..], total);
      }
    }
  }

  // When a command succeeds.

  /** How many blocks a chunk is moved in. */
  function BlocksIn(total: int, block: int): (k: nat)
    requires total > 0 && block > 0
    ensures 1 <= k <= total
    decreases total
  {
    if total <= block then 1 else 1 + BlocksIn(total - block, block)
  }

  lemma {:induction false} BlocksFit(total: int, block: int)
    requires total > 0 && block > 0
    ensures var k := BlocksIn(total, block); (k - 1) * block < total <= k * block
    decreases total
  {
    if total > block {
      BlocksFit(total - block, block);
      OneMore(BlocksIn(total - block, block) - 1, block);
      OneMore(BlocksIn(total - block, block), block);
    }
  }

  /** The bits that say that the drive is there with a block, or for one. */
  predicate Offers(s: Status) { !s.bsy && s.drq && !s.df && !s.err }

  predicate NoFault(s: Status) { !s.df && !s.err }

  /** The drive gives k blocks without complaint, and drops DRQ after the last. */
  predicate Gives(k: nat, irqs: seq<Irq>) {
    1 <= k <= |irqs| && (forall j :: 0 <= j < k ==> Offers(irqs[j].status)) && irqs[k - 1].drqDrops
  }

  /** The drive takes k blocks without complaint: no interrupt up to the one after the last block shows an
      error, and before that it always asks for another. */
  predicate Takes(k: nat, irqs: seq<Irq>) {
    && k < |irqs| && (forall j :: 0 <= j <= k ==> NoFault(irqs[j].status))
    && forall j :: 0 <= j < k ==> Offers(irqs[j].alt)
  }

  /** The drive moves all of a chunk of `total` bytes in blocks without complaint. */
  predicate Healthy(dir: Dir, total: int, block: int, a: Attempt)
    requires total > 0 && block > 0
  {
    match dir
    case Read => Gives(BlocksIn(total, block), a.irqs)
    case Write => !a.noDrq && Takes(BlocksIn(total, block), a.irqs)
  }

  predicate EndsWell(p: AtaPkt) { !p.error && !p.killed }

  lemma GivesNext(k: nat, irqs: seq<Irq>)
    requires k >= 2 && irqs != []
    ensures Gives(k, irqs) <==> Offers(irqs[0].status) && Gives(k - 1, irqs[1..])
  {
    if Offers(irqs[0].status) && Gives(k - 1, irqs[1..]) {
      forall j | 0 <= j < k ensures Offers(irqs[j].status) {
        if j > 0 { assert irqs[1..][j - 1] == irqs[j]; }
      }
    }
  }

  lemma TakesNext(k: nat, irqs: seq<Irq>)
    requires k >= 1 && irqs != []
    ensures Takes(k, irqs) <==> NoFault(irqs[0].status) && Offers(irqs[0].alt) && Takes(k - 1, irqs[1..])
  {
    if NoFault(irqs[0].status) && Offers(irqs[0].alt) && Takes(k - 1, irqs[1..]) {
      forall j | 0 <= j <= k ensures NoFault(irqs[j].status) {
        if j > 0 { assert irqs[1..][j - 1] == irqs[j]; }
      }
      forall j | 0 <= j < k ensures Offers(irqs[j].alt) {
        if j > 0 { assert irqs[1..][j - 1] == irqs[j]; }
      }
    }
  }

  lemma ReadGoesOn(p: AtaPkt, irq: Irq)
    requires p.dir == Read && EndsWell(p) && p.resid > 0 && p.bytesPerBlock > 0
    ensures var (q, rc) := IntrIn(p, irq);
      && (rc == Okay <==> Offers(irq.status) && p.resid > p.bytesPerBlock)
      && (rc == Fini && EndsWell(q) <==> Offers(irq.status) && p.resid <= p.bytesPerBlock && irq.drqDrops)
      && (rc == Okay ==> EndsWell(q) && q.resid == p.resid - p.bytesPerBlock)
      && (rc == Busy ==> q.error && !Offers(irq.status))
      && q.dir == p.dir && q.bytesPerBlock == p.bytesPerBlock
  {
  }

  lemma {:induction false} ReadSucceeds(p: AtaPkt, irqs: seq<Irq>)
    requires p.dir == Read && EndsWell(p) && p.resid > 0 && p.bytesPerBlock > 0
    ensures EndsWell(Interrupts(p, irqs)) <==> Gives(BlocksIn(p.resid, p.bytesPerBlock), irqs)
    decreases |irqs|
  {
    hide IntrIn, IntrOut;
    if irqs != [] {
      ReadGoesOn(p, irqs[0]);
      var (q, rc) := Interrupt(p, irqs[0]);
      if rc == Busy {
        InterruptsSame(q, irqs[1..]);
      } else if rc == Okay {
        ReadSucceeds(q, irqs[1..]);
        GivesNext(BlocksIn(p.resid, p.bytesPerBlock), irqs);
      }
    }
  }

  lemma WriteGoesOn(p: AtaPkt, irq: Irq)
    requires p.dir == Write && EndsWell(p) && 0 <= p.wrtCount <= p.resid < SIZE_T && p.bytesPerBlock > 0
    ensures var (q, rc) := IntrOut(p, irq);
      var left := p.resid - p.wrtCount;
      && (rc == Okay <==> NoFault(irq.status) && left > 0 && Offers(irq.alt))
      && (rc == Fini && EndsWell(q) <==> NoFault(irq.status) && left == 0)
      && (rc == Okay ==> EndsWell(q) && q.resid == left && q.wrtCount == Min(left, p.bytesPerBlock))
      && (rc == Busy ==> q.error && left > 0 && !Offers(irq.alt))
      && q.dir == p.dir && q.bytesPerBlock == p.bytesPerBlock
  {
  }

  lemma {:induction false} WriteSucceeds(p: AtaPkt, irqs: seq<Irq>)
    requires p.dir == Write && EndsWell(p) && 0 <= p.wrtCount <= p.resid < SIZE_T && p.bytesPerBlock > 0
    ensures var left := p.resid - p.wrtCount;
      EndsWell(Interrupts(p, irqs)) <==> Takes(if left == 0 then 0 else BlocksIn(left, p.bytesPerBlock), irqs)
    decreases |irqs|
  {
    hide IntrIn, IntrOut;
    if irqs != [] {
      WriteGoesOn(p, irqs[0]);
      var left := p.resid - p.wrtCount;
      var (q, rc) := Interrupt(p, irqs[0]);
      if left > 0 {
        TakesNext(BlocksIn(left, p.bytesPerBlock), irqs);
      }
      if rc == Busy {
        InterruptsSame(q, irqs[1..]);
      } else if rc == Okay {
        WriteSucceeds(q, irqs[1..]);
      }
    }
  }

  /** A command is reported as a success exactly when the drive moved every block of it without complaint, by
      the statuses it showed. */
  lemma SuccessExactly(p: AtaPkt, a: Attempt, ata4: bool, total: int)
    requires p.Fresh(total)
    ensures Complete(RunCommand(p, a), ata4) == Success <==> Healthy(p.dir, total, p.bytesPerBlock, a)
  {
    var s := Started(p, a);
    CommandOutcome(p, a, ata4, total);
    if p.dir == Read {
      ReadSucceeds(s, a.irqs);
    } else if a.noDrq {
      InterruptsSame(s, a.irqs);
    } else {
      WriteSucceeds(s, a.irqs);
    }
  }

  /** An error that was recorded is final, an abort, exactly when the error register names none and the
      status neither a busy nor a faulty drive; a command that was killed is. */
  lemma AbortExactly(p: AtaPkt, ata4: bool)
    ensures Complete(p, ata4) == Abort <==>
      if p.error then
        var e := p.errReg;
        !e.bbkIcrc && !e.unc && !e.idnf && !e.tkonf && !e.amnf && !p.status.bsy && !p.status.df
      else p.killed
    ensures Complete(p, ata4) == Busy_ ==> p.error && p.status.bsy
  {
  }

  /** A drive that shows no complaint at all, often enough for chunks of up to this many bytes. */
  predicate Obliging(a: Attempt, bytes: int) {
    !a.noDrq && |a.irqs| > bytes &&
    forall j :: 0 <= j < |a.irqs| ==> Offers(a.irqs[j].status) && Offers(a.irqs[j].alt) && a.irqs[j].drqDrops
  }

  lemma ObligingIsHealthy(dir: Dir, total: int, block: int, a: Attempt, bytes: int)
    requires 0 < total <= bytes && block > 0 && Obliging(a, bytes)
    ensures Healthy(dir, total, block, a)
  {
  }

  /** The transfers are the bytes from pos up to total of the command's data, in order and without gaps,
      each at its place in a buffer that begins at base, and all of them good. */
  predicate InOrder(ms: seq<Move>, pos: int, base: int, total: int)
    decreases |ms|
  {
    if ms == [] then pos == total
    else
      var m := ms[0];
      m.pos == pos && m.at == base + pos && m.len >= 0 && m.good && InOrder(ms[1..], pos + m.len, base, total)
  }

  lemma CleanStep(p: AtaPkt, pos: int, irq: Irq, total: int)
    requires p.Moving(total) && (p.dir == Read ==> p.resid > 0) && pos == p.vAddr - p.vAddrSav + p.wrtCount
    ensures var (q, rc) := Interrupt(p, irq);
      var now := StepMoves(p, pos, irq);
      && (rc == Busy ==> q.error)
      && (rc == Fini && !q.error ==> InOrder(now, pos, p.vAddrSav, total))
      && (rc == Okay ==>
            && |now| == 1 && now[0].pos == pos && now[0].at == p.vAddrSav + pos && now[0].len >= 0
            && (q.error || now[0].good)
            && q.Moving(total) && (q.dir == Read ==> q.resid > 0) && q.dir == p.dir && q.vAddrSav == p.vAddrSav
            && pos + now[0].len == q.vAddr - q.vAddrSav + q.wrtCount)
  {
  }

  /** A command that ends without error flag and was not killed has moved exactly the bytes it was sent for,
      every one from or to its own place in the buffer. */
  lemma {:induction false} CleanEndFills(p: AtaPkt, pos: int, irqs: seq<Irq>, total: int)
    requires p.Moving(total) && (p.dir == Read ==> p.resid > 0) && pos == p.vAddr - p.vAddrSav + p.wrtCount
    ensures var q := Interrupts(p, irqs);
      !q.error && !q.killed ==> InOrder(Moves(p, pos, irqs), pos, p.vAddrSav, total)
    decreases |irqs|
  {
    hide IntrIn, IntrOut, StepMoves;
    if irqs != [] {
      CleanStep(p, pos, irqs[0], total);
      var (q, rc) := Interrupt(p, irqs[0]);
      var now := StepMoves(p, pos, irqs[0]);
      if rc == Fini {
        assert now + [] == now;
      } else {
        InterruptsSame(q, irqs[1..]);
        if rc == Okay {
          CleanEndFills(q, pos + Bytes(now), irqs[1..], total);
          assert Moves(p, pos, irqs) == now + Moves(q, pos + Bytes(now), irqs[1..]);
          assert (now + Moves(q, pos + Bytes(now), irqs[1..]))[1..] == Moves(q, pos + Bytes(now), irqs[1..]);
        }
      }
    }
  }

  /** Whatever the device does, no transfer touches the buffer before the packet's address. */
  lemma {:induction false} MovesBeyond(p: AtaPkt, pos: int, irqs: seq<Irq>)
    requires 0 <= p.resid < SIZE_T && p.bytesPerBlock > 0 && 0 <= p.wrtCount
    ensures forall i :: 0 <= i < |Moves(p, pos, irqs)| ==> Moves(p, pos, irqs)[i].at >= p.vAddr
    decreases |irqs|
  {
    if irqs != [] {
      var (q, rc) := Interrupt(p, irqs[0]);
      if rc != Fini {
        MovesBeyond(q, pos + Bytes(StepMoves(p, pos, irqs[0])), irqs[1..]);
      }
    }
  }

  /** What a fresh command reports, whatever the device does to it. */
  lemma CommandOutcome(p: AtaPkt, a: Attempt, ata4: bool, total: int)
    requires p.Fresh(total)
    ensures var q := RunCommand(p, a);
      && 0 <= q.resid < SIZE_T && q.vAddrSav == p.vAddrSav && q.residSav == p.residSav && q.dir == p.dir && q.data
      && q.bytesPerBlock == p.bytesPerBlock && (p.dir == Read ==> q.wrtCount == 0)
      && (Complete(q, ata4) == Success <==> !q.error && !q.killed)
      && (Complete(q, ata4) == Success ==> q.resid == 0 && q.vAddr == q.vAddrSav + total)
    ensures CommandDrift(p, a) >= 0 && CommandAcked(p, a) >= 0
  {
    var s := Started(p, a);
    InterruptsSame(s, a.irqs);
    ResidualExact(s, 0, a.irqs);
    CleanEndMovesAll(s, a.irqs, total);
  }

  /** The residual of a command is the number of bytes the drive did not move exactly when the bytes
      counted twice come to nothing modulo 2^64 and the drive moved no more than it was asked to. */
  lemma CommandResidual(p: AtaPkt, a: Attempt, total: int)
    requires p.Fresh(total)
    ensures RunCommand(p, a).resid == total - CommandAcked(p, a) <==>
            CommandDrift(p, a) % SIZE_T == 0 && CommandAcked(p, a) <= total
    ensures CommandDrift(p, a) == 0 ==> CommandAcked(p, a) <= total
  {
    var s := Started(p, a);
    ResidualExact(s, 0, a.irqs);
    TakenOff(total - CommandAcked(p, a), CommandDrift(p, a));
    if CommandDrift(p, a) == 0 {
      AckedBound(s, 0, a.irqs);
    }
  }

  lemma TakenOff(x: int, d: int)
    requires x < SIZE_T && d >= 0
    ensures (x - d) % SIZE_T == x <==> d % SIZE_T == 0 && x >= 0
  {
    var k := d / SIZE_T;
    WrapShift(x - d % SIZE_T, -k);
    assert x - d == x - d % SIZE_T + (-k) * SIZE_T;
  }

  /** Without double counting the drive never moves more than was asked for. */
  lemma {:induction false} AckedBound(p: AtaPkt, out: int, irqs: seq<Irq>)
    requires 0 <= p.resid < SIZE_T && p.bytesPerBlock > 0 && 0 <= out <= p.wrtCount
    requires p.dir == Read ==> out == p.wrtCount == 0
    requires p.dir == Write ==> out <= p.resid
    requires Drift(p, out, irqs) == 0
    ensures Acked(p, out, irqs) <= p.resid
    decreases |irqs|
  {
    hide IntrIn, IntrOut, StepMoves, Bytes;
    if irqs != [] {
      var irq, rest := irqs[0], irqs[1..];
      var (q, rc) := Interrupt(p, irq);
      if p.dir == Read {
        ReadStep(p, irq);
        if rc != Fini {
          AckedBound(q, 0, rest);
        }
      } else if !irq.status.df && !irq.status.err {
        WriteStep(p, irq);
        if rc != Fini {
          var out' := if rc == Busy then 0 else q.wrtCount;
          ResidualExact(q, out', rest);
          AckedBound(q, out', rest);
        }
      }
    }
  }

  lemma {:induction false} BytesAppend(a: seq<Move>, b: seq<Move>)
    ensures Bytes(a + b) == Bytes(a) + Bytes(b)
  {
    if a == [] {
      assert a + b == b;
    } else {
      BytesAppend(a[1..], b);
      assert (a + b)[1..] == a[1..] + b;
    }
  }

  lemma StepBytes(p: AtaPkt, pos: int, irq: Irq)
    requires 0 <= p.resid < SIZE_T && p.bytesPerBlock > 0 && 0 <= p.wrtCount
    ensures var q := Interrupt(p, irq).0;
      0 <= q.resid < SIZE_T && q.bytesPerBlock > 0 && 0 <= q.wrtCount && q.dir == p.dir
    ensures Bytes(StepMoves(p, pos, irq)) == Bytes(StepMoves(p, 0, irq)) >= 0
  {
  }

  /** One interrupt more. */
  lemma MovesCons(p: AtaPkt, pos: int, irqs: seq<Irq>)
    requires irqs != []
    ensures var (q, rc) := Interrupt(p, irqs[0]);
      var now := StepMoves(p, pos, irqs[0]);
      Bytes(Moves(p, pos, irqs)) ==
        Bytes(now) + (if rc == Fini then 0 else Bytes(Moves(q, pos + Bytes(now), irqs[1..])))
  {
    hide IntrIn, IntrOut, StepMoves;
    var (q, rc) := Interrupt(p, irqs[0]);
    var now := StepMoves(p, pos, irqs[0]);
    BytesAppend(now, if rc == Fini then [] else Moves(q, pos + Bytes(now), irqs[1..]));
  }

  lemma {:induction false} GivenMoves(p: AtaPkt, pos: int, irqs: seq<Irq>)
    requires 0 <= p.resid < SIZE_T && p.bytesPerBlock > 0 && 0 <= p.wrtCount && p.dir == Read
    ensures Acked(p, 0, irqs) == Bytes(Moves(p, pos, irqs))
    decreases |irqs|
  {
    hide IntrIn, IntrOut, StepMoves;
    if irqs != [] {
      StepBytes(p, pos, irqs[0]);
      MovesCons(p, pos, irqs);
      var (q, rc) := Interrupt(p, irqs[0]);
      if rc != Fini { GivenMoves(q, pos + Bytes(StepMoves(p, pos, irqs[0])), irqs[1..]); }
    }
  }

  lemma {:induction false} TakenMoves(p: AtaPkt, pos: int, out: int, irqs: seq<Irq>)
    requires 0 <= p.resid < SIZE_T && p.bytesPerBlock > 0 && 0 <= p.wrtCount && p.dir == Write && 0 <= out
    ensures Acked(p, out, irqs) <= out + Bytes(Moves(p, pos, irqs)) && 0 <= Bytes(Moves(p, pos, irqs))
    decreases |irqs|
  {
    hide IntrIn, IntrOut, StepMoves;
    if irqs != [] {
      StepBytes(p, pos, irqs[0]);
      MovesCons(p, pos, irqs);
      var (q, rc) := Interrupt(p, irqs[0]);
      var now := Bytes(StepMoves(p, pos, irqs[0]));
      if rc != Fini { TakenMoves(q, pos + now, now, irqs[1..]); }
    }
  }

  /** What the drive gave is what came in over the data port, and what it took is no more than went out. */
  lemma AckedMoves(p: AtaPkt, a: Attempt, total: int)
    requires p.Fresh(total)
    ensures p.dir == Read ==> CommandAcked(p, a) == Bytes(CommandMoves(p, a))
    ensures p.dir == Write ==> CommandAcked(p, a) <= Bytes(CommandMoves(p, a))
  {
    if p.dir == Read {
      GivenMoves(p, 0, a.irqs);
    } else {
      TakenMoves(Started(p, a), 0, 0, a.irqs);
    }
  }

  /** The three functions over one more write interrupt. */
  lemma WriteCons(p: AtaPkt, out: int, irq: Irq, rest: seq<Irq>)
    requires p.dir == Write && !irq.status.df && !irq.status.err
    ensures var (q, rc) := IntrOut(p, irq); var out' := if rc == Busy then 0 else q.wrtCount;
      && Interrupts(p, [irq] + rest) == (if rc == Fini then q else Interrupts(q, rest))
      && Acked(p, out, [irq] + rest) == out + (if rc == Fini then 0 else Acked(q, out', rest))
      && Drift(p, out, [irq] + rest) == p.wrtCount - out + (if rc == Fini then 0 else Drift(q, out', rest))
  {
    assert ([irq] + rest)[1..] == rest;
  }

  /** In a write, an interrupt without an error follows one that found the drive busy with a block still
      outstanding. */
  predicate GoesOnAfterBusy(p: AtaPkt, afterBusy: bool, irqs: seq<Irq>)
    decreases |irqs|
  {
    irqs != [] && p.dir == Write && !irqs[0].status.df && !irqs[0].status.err &&
    ((afterBusy && p.wrtCount > 0) ||
     var (q, rc) := Interrupt(p, irqs[0]); rc != Fini && GoesOnAfterBusy(q, rc == Busy, irqs[1..]))
  }

  lemma {:induction false} DriftExactly(p: AtaPkt, afterBusy: bool, irqs: seq<Irq>)
    requires p.wrtCount >= 0 && 0 <= p.resid < SIZE_T && p.bytesPerBlock > 0
    ensures Drift(p, if afterBusy then 0 else p.wrtCount, irqs) >= 0
    ensures Drift(p, if afterBusy then 0 else p.wrtCount, irqs) == 0 <==> !GoesOnAfterBusy(p, afterBusy, irqs)
    decreases |irqs|
  {
    if irqs != [] && p.dir == Write && !irqs[0].status.df && !irqs[0].status.err {
      WriteStep(p, irqs[0]);
      var (q, rc) := Interrupt(p, irqs[0]);
      if rc != Fini { DriftExactly(q, rc == Busy, irqs[1..]); }
    }
  }

  lemma {:induction false} DriftBound(p: AtaPkt, out: int, irqs: seq<Irq>)
    requires 0 <= p.resid < SIZE_T && 0 <= out && 0 <= p.wrtCount <= p.bytesPerBlock && p.bytesPerBlock > 0
    ensures Drift(p, out, irqs) <= |irqs| * p.bytesPerBlock
    decreases |irqs|
  {
    if irqs != [] && p.dir == Write && !irqs[0].status.df && !irqs[0].status.err {
      WriteStep(p, irqs[0]);
      var (q, rc) := Interrupt(p, irqs[0]);
      OneMore(|irqs[1..]|, p.bytesPerBlock);
      if rc != Fini { DriftBound(q, if rc == Busy then 0 else q.wrtCount, irqs[1..]); }
    } else {
      NotNegative(|irqs|, p.bytesPerBlock);
    }
  }

  lemma OneMore(k: nat, b: nat)
    ensures (k + 1) * b == k * b + b && k * b >= 0
  {
  }

  lemma NotNegative(k: nat, b: nat)
    ensures k * b >= 0
  {
  }

  /** A command as it was sent, and what became of it. */
  datatype Command = Command(sent: AtaPkt, fate: Attempt) {
    /** It went on after a busy drive, so the driver counted a block twice. */
    predicate Recounts() { GoesOnAfterBusy(Started(sent, fate), false, fate.irqs) }

    /** Fewer interrupts than would take 2^64 bytes. */
    predicate Short() { |fate.irqs| * sent.bytesPerBlock < SIZE_T }
  }

  /** Bytes are counted twice exactly when a write goes on after a busy drive.  The residual of a command is
      exact when it does not, and of a command with fewer than 2^64 bytes' worth of interrupts only then. */
  lemma ResidualCondition(p: AtaPkt, a: Attempt, total: int)
    requires p.Fresh(total)
    ensures var exact := RunCommand(p, a).resid == total - CommandAcked(p, a);
      var c := Command(p, a);
      && (CommandDrift(p, a) == 0 <==> !c.Recounts())
      && (p.dir == Read ==> !c.Recounts())
      && (!c.Recounts() ==> exact)
      && (c.Short() ==> (exact <==> !c.Recounts()))
  {
    var s := Started(p, a);
    DriftExactly(s, false, a.irqs);
    CommandResidual(p, a, total);
    DriftBound(s.(wrtCount := 0), 0, a.irqs);
  }

  /** What is left goes out in one block, or has gone out and no interrupt has found the drive busy since. */
  predicate LastBlock(p: AtaPkt, afterBusy: bool) {
    && p.dir == Write && 0 < p.resid <= p.bytesPerBlock && p.resid < SIZE_T
    && (p.wrtCount == 0 || (p.wrtCount == p.resid && !afterBusy))
  }

  lemma LastBlockStep(p: AtaPkt, afterBusy: bool, irq: Irq)
    requires LastBlock(p, afterBusy)
    ensures var (q, rc) := IntrOut(p, irq); rc != Fini ==> LastBlock(q, rc == Busy)
  {
  }

  lemma {:induction false} LastBlockOnce(p: AtaPkt, afterBusy: bool, irqs: seq<Irq>)
    requires LastBlock(p, afterBusy)
    ensures !GoesOnAfterBusy(p, afterBusy, irqs)
    decreases |irqs|
  {
    if irqs != [] {
      LastBlockStep(p, afterBusy, irqs[0]);
      var (q, rc) := Interrupt(p, irqs[0]);
      if rc != Fini { LastBlockOnce(q, rc == Busy, irqs[1..]); }
    }
  }

  /** A command of a single block, as the retry of a failed one is, never counts a block twice. */
  lemma OneBlockExact(p: AtaPkt, a: Attempt, total: int)
    requires p.Fresh(total) && total <= p.bytesPerBlock
    ensures !Command(p, a).Recounts() && RunCommand(p, a).resid == total - CommandAcked(p, a)
  {
    if p.dir == Write { LastBlockOnce(Started(p, a), false, a.irqs); }
    ResidualCondition(p, a, total);
  }

  /** The three interrupts of a two-sector write: ready for the second block, busy, and idle. */
  lemma TwoSectorSteps(p: AtaPkt, i0: Irq, i1: Irq, i2: Irq)
    requires p.dir == Write && p.resid == 1024 && p.wrtCount == 0 && p.bytesPerBlock == 512
    requires i0.status == i1.status == i2.status == IDLE && i0.alt == READY && i1.alt == BUSY
    ensures var p1 := p.(wrtCount := 512);
      var p2 := p1.(vAddr := p.vAddr + 512, resid := 512).Record(i1);
      && IntrOut(p, i0) == (p1, Okay) && IntrOut(p1, i1) == (p2, Busy)
      && IntrOut(p2, i2) == (p2.(vAddr := p.vAddr + 1024, resid := 0), Fini)
  {
  }

  /** A two-sector write whose second interrupt finds the drive busy: the first block is taken off
      twice, and the residual says that everything was written when half of it was. */
  lemma DoubleCountExample(errReg: ErrReg)
    ensures var p := AtaPkt(0, 1024, 0, 1024, 0, 512, 2, 7, Write, true, false, false, IDLE, errReg);
      var a := Attempt(false, [Irq(IDLE, READY, true, errReg), Irq(IDLE, BUSY, true, errReg),
        Irq(IDLE, IDLE, true, errReg)]);
      p.Fresh(1024) && CommandAcked(p, a) == 512 && CommandDrift(p, a) == 512 && RunCommand(p, a).resid == 0
  {
    hide IntrOut, Interrupts, Acked, Drift;
    var p := AtaPkt(0, 1024, 0, 1024, 0, 512, 2, 7, Write, true, false, false, IDLE, errReg);
    var i0, i1, i2 := Irq(IDLE, READY, true, errReg), Irq(IDLE, BUSY, true, errReg), Irq(IDLE, IDLE, true, errReg);
    TwoSectorSteps(p, i0, i1, i2);
    var (p1, rc1) := IntrOut(p, i0);
    var (p2, rc2) := IntrOut(p1, i1);
    WriteCons(p, 0, i0, [i1] + ([i2] + []));
    WriteCons(p1, 512, i1, [i2] + []);
    WriteCons(p2, 0, i2, []);
    assert [i0, i1, i2] == [i0] + ([i1] + ([i2] + []));
  }

  const IDLE: Status := Status(false, false, false, false)
  const READY: Status := Status(false, true, false, false)
  const BUSY: Status := Status(true, false, false, false)

  /** The count register says what the driver means although 256 does not fit into eight bits, and a chunk is
      as large as the bytes and the controller allow, or one sector for a retry. */
  lemma CountRegister(p: AtaPkt, bytes: int, sec: int, maxTransfer: int, ext48: bool)
    requires 1 <= maxTransfer <= 256 && bytes >= SECTOR
    ensures var (q, chunk) := Iosetup(p, bytes, sec, maxTransfer, ext48);
      && DeviceCount(q.count, ext48) * SECTOR == chunk && q.startsec == sec && chunk <= bytes
      && (p.error ==> chunk == SECTOR && q.bytesPerBlock == SECTOR)
      && (!p.error ==> (bytes - chunk < SECTOR || chunk == maxTransfer * SECTOR) && chunk <= maxTransfer * SECTOR)
  {
  }

  // ---------------------------------------------------------------- the packet in memory

  /** struct ata_pkt as the driver updates it, field by field. */
  class AtaPacket {
    var vAddr: int
    var resid: int
    var vAddrSav: int
    var residSav: int
    var wrtCount: int
    var bytesPerBlock: int
    var count: int
    var startsec: int
    var dir: Dir
    var data: bool
    var error: bool
    var killed: bool
    var status: Status
    var errReg: ErrReg

    function View(): AtaPkt
      reads this
    {
      AtaPkt(vAddr, resid, vAddrSav, residSav, wrtCount, bytesPerBlock, count, startsec, dir, data, error, killed,
        status, errReg)
    }

    constructor (p: AtaPkt)
      ensures View() == p
    {
      vAddr, resid, vAddrSav, residSav := p.vAddr, p.resid, p.vAddrSav, p.residSav;
      wrtCount, bytesPerBlock, count, startsec := p.wrtCount, p.bytesPerBlock, p.count, p.startsec;
      dir, data, error, killed, status, errReg := p.dir, p.data, p.error, p.killed, p.status, p.errReg;
    }

    /** ata_disk_iosetup */
    method Setup(bytes: int, sec: int, maxTransfer: int, ext48: bool) returns (chunk: int)
      modifies this
      ensures (View(), chunk) == Iosetup(old(View()), bytes, sec, maxTransfer, ext48)
    {
      var sectors;
      if error {
        bytesPerBlock := SECTOR;
        sectors := 1;
        if data {
          vAddr := vAddrSav;
          resid := residSav;
        }
      } else {
        sectors := Min(bytes / SECTOR, maxTransfer);
        vAddrSav := vAddr;
        residSav := resid;
      }
      error, killed := false, false;
      count := sectors;
      if !ext48 {
        count := count % 256;
      }
      startsec := sec;
      chunk := sectors * SECTOR;
      resid := chunk;
      data := true;
    }

    method RecordError(irq: Irq)
      modifies this
      ensures View() == old(View()).Record(irq)
    {
      error := true;
      status := irq.alt;
      errReg := irq.errReg;
    }

    /** ata_disk_intr_pio_in with ata_disk_pio_xfer_data_in */
    method IntrPioIn(irq: Irq, pos: int) returns (rc: Rc, moved: seq<Move>)
      requires dir == Read
      modifies this
      ensures (View(), rc) == IntrIn(old(View()), irq) && moved == StepMoves(old(View()), pos, irq)
    {
      moved := [];
      if irq.status.bsy {
        RecordError(irq);
        return Busy, [];
      }
      if !(irq.status.drq && !irq.status.df && !irq.status.err) {
        RecordError(irq);
      }
      if irq.status.drq {
        var n := Min(resid, bytesPerBlock);
        moved := [Move(pos, vAddr, n, !irq.status.df && !irq.status.err)];
        vAddr := vAddr + n;
        resid := resid - n;
      }
      if resid == 0 {
        if irq.drqDrops {
          return Fini, moved;
        }
        RecordError(irq);
      }
      if error {
        return Fini, moved;
      }
      return Okay, moved;
    }

    /** ata_disk_intr_pio_out with ata_disk_pio_xfer_data_out */
    method IntrPioOut(irq: Irq, pos: int) returns (rc: Rc, moved: seq<Move>)
      requires dir == Write
      modifies this
      ensures (View(), rc) == IntrOut(old(View()), irq) && moved == StepMoves(old(View()), pos, irq)
    {
      if irq.status.df || irq.status.err {
        RecordError(irq);
        return Fini, [];
      }
      vAddr := vAddr + wrtCount;
      resid := (resid - wrtCount) % SIZE_T;
      if resid == 0 {
        return Fini, [];
      }
      if irq.alt.bsy {
        RecordError(irq);
        return Busy, [];
      }
      if !(irq.alt.drq && !irq.alt.df && !irq.alt.err) {
        RecordError(irq);
        return Fini, [];
      }
      wrtCount := Min(resid, bytesPerBlock);
      return Okay, [Move(pos, vAddr, wrtCount, true)];
    }

    /** ata_disk_intr for a PIO command */
    method TakeIrq(irq: Irq, pos: int) returns (rc: Rc, moved: seq<Move>)
      modifies this
      ensures (View(), rc) == Interrupt(old(View()), irq) && moved == StepMoves(old(View()), pos, irq)
    {
      if dir == Read {
        rc, moved := IntrPioIn(irq, pos);
      } else {
        rc, moved := IntrPioOut(irq, pos);
      }
    }

    /** ata_disk_start_pio_in and ata_disk_start_pio_out, after the command byte */
    method Start(noDrq: bool)
      modifies this
      ensures forall irqs :: View() == Started(old(View()), Attempt(noDrq, irqs))
    {
      if dir == Write {
        wrtCount := 0;
        if noDrq {
          error := true;
        }
      }
    }

    /** The interrupts of a command until it ends; when they stop coming, the bus reset ends it. */
    method Interrupted(irqs: seq<Irq>) returns (moves: seq<Move>)
      modifies this
      ensures View() == Interrupts(old(View()), irqs) && moves == Moves(old(View()), 0, irqs)
    {
      hide Interrupt, Interrupts, StepMoves, Moves, Bytes;
      ghost var s := View();
      var pos, i := 0, 0;
      moves := [];
      assert irqs[0..] == irqs;
      while i < |irqs|
        invariant 0 <= i <= |irqs|
        invariant Interrupts(View(), irqs[i..]) == Interrupts(s, irqs)
        invariant moves + Moves(View(), pos, irqs[i..]) == Moves(s, 0, irqs)
      {
        assert irqs[i..] == [irqs[i]] + irqs[i + 1..];
        OneIrq(View(), pos, irqs[i], irqs[i + 1..]);
        var rc, now := TakeIrq(irqs[i], pos);
        Joined(moves, now, if rc == Fini then [] else Moves(View(), pos + Bytes(now), irqs[i + 1..]));
        pos, moves := pos + Bytes(now), moves + now;
        if rc == Fini {
          return;
        }
        i := i + 1;
      }
      assert irqs[i..] == [];
      NoIrqs(View(), pos);
      Joined(moves, [], []);
      killed := true;
    }

    /** Start the command and take its interrupts. */
    method Execute(a: Attempt) returns (moves: seq<Move>)
      modifies this
      ensures View() == RunCommand(old(View()), a) && moves == CommandMoves(old(View()), a)
    {
      Start(a.noDrq);
      assert View() == Started(old(View()), Attempt(a.noDrq, a.irqs));
      moves := Interrupted(a.irqs);
    }
  }

  lemma Joined(a: seq<Move>, b: seq<Move>, c: seq<Move>)
    ensures a + (b + c) == a + b + c && a + [] == a && a + b + [] == a + b
  {
  }

  lemma OneIrq(p: AtaPkt, pos: int, irq: Irq, rest: seq<Irq>)
    ensures var (q, rc) := Interrupt(p, irq);
      var now := StepMoves(p, pos, irq);
      && Interrupts(p, [irq] + rest) == (if rc == Fini then q else Interrupts(q, rest))
      && Moves(p, pos, [irq] + rest) == now + (if rc == Fini then [] else Moves(q, pos + Bytes(now), rest))
  {
    hide Interrupt, StepMoves;
    assert ([irq] + rest)[1..] == rest;
  }

  lemma NoIrqs(p: AtaPkt, pos: int)
    ensures Interrupts(p, []) == p.(killed := true) && Moves(p, pos, []) == []
  {
  }
}
