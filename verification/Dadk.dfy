/**
  From one buffer to many commands and back (dktp/dcdev/dadk.c on top of AtaDisk and BadBlocks).

  A request is sent cookie by cookie, each cookie in chunks the controller can take; a failed chunk
  is tried again one sector at a time.  The main result is about whole runs: whatever the device and
  the transport do, the chunks that succeeded move the remapped sectors of the request, in order,
  each to or from its own place in the buffer, and the request ends.
 */
module Dadk {
  import opened Options
  import opened BadBlocks
  import opened AtaDisk

  const RETRY_COUNT: nat := 5

  datatype Action = CommandDone | CommandDoneError | QueCommand | JustReturn

  /** dadk_errtab, by DERR_* code. */
  const ERRTAB: seq<Action> := [
    CommandDone, QueCommand, QueCommand, CommandDoneError, QueCommand, QueCommand, JustReturn, QueCommand,
    QueCommand, CommandDoneError, CommandDoneError, CommandDoneError, CommandDoneError, CommandDone, CommandDone,
    CommandDoneError, QueCommand, CommandDoneError, CommandDone, CommandDone, CommandDoneError, CommandDoneError,
    QueCommand, CommandDoneError]

  function Code(d: Derr): nat {
    match d
    case Success => 0 case Amnf => 1 case Tkonf => 2 case Abort => 3 case Dwf => 4 case Idnf => 5
    case Busy_ => 6 case Unc => 7 case Bbk => 8 case Icrc => 22
  }

  /** The action for a status an ATA disk can report: never silent success for a failed command. */
  function ActionFor(d: Derr): (a: Action)
    ensures d == Success <==> a == CommandDone
    ensures d == Abort <==> a == CommandDoneError
    ensures d == Busy_ <==> a == JustReturn
  {
    ERRTAB[Code(d)]
  }

  /** What does not change while a request is under way. */
  datatype Config = Config(maxTransfer: int, ext48: bool, ata4: bool) {
    predicate Valid() { 1 <= maxTransfer <= 256 }
  }

  /** struct buf: a request for bcount bytes from sector start on; resid is what was not moved. */
  datatype Buf = Buf(start: int, bcount: int, resid: int, error: bool)

  /** struct cmpkt, with the controller's part of it. */
  datatype Pkt = Pkt(
    bp: Buf, cks: Option<seq<Cookie>>, ckIdx: nat, byteleft: int, bytexfer: int, secleft: int, srtsec: int,
    resid: int, retry: nat, ata: AtaPkt)

  // ---------------------------------------------------------------- the driver's functions

  /** CTL_IOSETUP */
  function CtlIosetup(cfg: Config, p: Pkt): Pkt {
    var (ata, bytes) := Iosetup(p.ata, p.bytexfer, p.srtsec, cfg.maxTransfer, cfg.ext48);
    p.(ata := ata, bytexfer := bytes, resid := bytes)
  }

  /** The first half of dadk_iosetup: go on in the current cookie, or take the next one. */
  function NextSection(p: Pkt): Pkt {
    var seccnt := p.bytexfer / SECTOR;
    var left := p.secleft - seccnt;
    var q :=
      if left != 0 then p.(secleft := left, srtsec := p.srtsec + seccnt)
      else match p.cks
        case None => p.(srtsec := p.bp.start, secleft := p.bp.bcount / SECTOR)
        case Some(cks) =>
          var c := if p.ckIdx < |cks| then cks[p.ckIdx] else Cookie(0, 0);
          p.(srtsec := c.sector, secleft := c.seclen, ckIdx := p.ckIdx + 1);
    q.(bytexfer := q.secleft * SECTOR)
  }

  function DadkIosetup(cfg: Config, p: Pkt): Pkt { CtlIosetup(cfg, NextSection(p)) }

  /** dadk_ioprep on a packet that was just allocated. */
  function Ioprep(cfg: Config, bp: Buf, cks: Option<seq<Cookie>>, dir: Dir, bytesPerBlock: int): Pkt {
    var ata := AtaPkt(0, 0, 0, 0, 0, bytesPerBlock, 0, 0, dir, false, false, false, IDLE,
      ErrReg(false, false, false, false, false));
    DadkIosetup(cfg, Pkt(bp, cks, 0, bp.bcount, 0, 0, 0, 0, 0, ata))
  }

  /** The error exit of dadk_ioretry. */
  function Fail(p: Pkt): Pkt {
    p.(bp := p.bp.(resid := p.bp.resid + p.byteleft - p.bytexfer + p.resid, error := true))
  }

  // ---------------------------------------------------------------- runs

  /** Who sent the chunk that is out: a retry gives up at once when it is refused. */
  datatype Phase = Sent(byRetry: bool) | Finished

  /** What becomes of a chunk handed to the transport. */
  datatype Outcome = Refused | Accepted(attempt: Attempt)

  /** A request under way.  done: the sectors moved by successful chunks, as pairs of a device sector
      and a place in the buffer; chunks and sent count successful chunks and transports; held: for each
      byte of the buffer, the byte of the device it was last moved from or to (-1 when the drive reported
      an error with it); last: the last command, unless the transport refused a chunk after it. */
  datatype Run = Run(pkt: Pkt, phase: Phase, done: seq<(int, int)>, chunks: nat, sent: nat, held: seq<int>,
                     last: Option<Command>)
  {
    /** What the drive moved in the last command. */
    function LastMoved(): int { if last.Some? then CommandAcked(last.value.sent, last.value.fate) else 0 }

    predicate Recounts() { last.Some? && last.value.Recounts() }

    /** The last command was for one block. */
    predicate OneBlock() { last.Some? && last.value.sent.resid <= last.value.sent.bytesPerBlock }

    predicate Short() { last.Some? ==> last.value.Short() }

    /** Whether a residual is exact: always when nothing was counted twice, and otherwise not. */
    predicate Accounts(exact: bool) { (!Recounts() ==> exact) && (Short() ==> (exact <==> !Recounts())) }
  }

  /** dadk_ioretry(QUE_COMMAND) */
  function Retry(cfg: Config, r: Run): Run {
    var p := r.pkt.(retry := r.pkt.retry + 1);
    if r.pkt.retry < RETRY_COUNT then r.(pkt := CtlIosetup(cfg, p), phase := Sent(true), sent := r.sent + 1)
    else Iodone(cfg, r.(pkt := Fail(p)))
  }

  /** dadk_iodone */
  function Iodone(cfg: Config, r: Run): Run {
    var p := r.pkt.(byteleft := r.pkt.byteleft - r.pkt.bytexfer);
    if !p.bp.error && p.byteleft != 0 then
      r.(pkt := DadkIosetup(cfg, p.(retry := 0)), phase := Sent(false), sent := r.sent + 1)
    else r.(pkt := p, phase := Finished)
  }

  /** The sectors of the command in a packet, each with its place in the buffer. */
  function Pairs(ata: AtaPkt, ext48: bool): seq<(int, int)> {
    var n := DeviceCount(ata.count, ext48);
    if n < 0 then [] else seq(n, k => (ata.startsec + k, ata.vAddrSav / SECTOR + k))
  }

  /** The buffer after the transfers of a command whose data begins at byte `base` of the device. */
  function Land(held: seq<int>, ms: seq<Move>, base: int): (h: seq<int>)
    ensures |h| == |held|
    decreases |ms|
  {
    if ms == [] then held
    else
      var m := ms[0];
      Land(seq(|held|, i requires 0 <= i < |held| =>
                 if m.at <= i < m.at + m.len then (if m.good then base + m.pos + i - m.at else -1) else held[i]),
           ms[1..], base)
  }

  /** dadk_pktcb and what it leads to, for a command that left its packet as `ata`.  A busy drive is
      tried again by a timer, which is the same as a retry. */
  function Return(cfg: Config, r: Run, ata: AtaPkt, scb: Derr): Run {
    var r1 := r.(pkt := r.pkt.(ata := ata, resid := ata.resid));
    if scb == Success then
      Iodone(cfg, r1.(done := r.done + Pairs(r.pkt.ata, cfg.ext48), chunks := r.chunks + 1))
    else
      match ActionFor(scb)
      case CommandDone => Iodone(cfg, r1)
      case CommandDoneError => Iodone(cfg, r1.(pkt := Fail(r1.pkt)))
      case QueCommand => Retry(cfg, r1)
      case JustReturn => Retry(cfg, r1)
  }

  /** The drive has executed the command of a chunk. */
  function Executed(r: Run, a: Attempt): Run {
    r.(held := Land(r.held, CommandMoves(r.pkt.ata, a), r.pkt.ata.startsec * SECTOR),
       last := Some(Command(r.pkt.ata, a)))
  }

  /** A chunk comes back, or is not taken at all. */
  function Step(cfg: Config, r: Run, o: Outcome): Run
    requires r.phase.Sent?
  {
    match o
    case Refused =>
      var r1 := r.(last := None);
      if r.phase.byRetry then Iodone(cfg, r1.(pkt := Fail(r.pkt))) else Retry(cfg, r1)
    case Accepted(a) =>
      var ata := RunCommand(r.pkt.ata, a);
      Return(cfg, Executed(r, a), ata, Complete(ata, cfg.ata4))
  }

  function Steps(cfg: Config, r: Run, os: seq<Outcome>): Run
    decreases |os|
  {
    if os == [] || r.phase.Finished? then r else Steps(cfg, Step(cfg, r, os[0]), os[1..])
  }

  /** The packet is prepared and handed to the transport. */
  function Begin(cfg: Config, bp: Buf, cks: Option<seq<Cookie>>, dir: Dir, bytesPerBlock: int): Run
    requires bp.bcount >= 0
  {
    Run(Ioprep(cfg, bp, cks, dir, bytesPerBlock), Sent(false), [], 0, 1, seq(bp.bcount, _ => -1), None)
  }

  // ---------------------------------------------------------------- what a run keeps

  /** The first m sectors of the request, remapped, each in its place. */
  function Wanted(t: seq<AltEnt>, lo: int, m: nat): seq<(int, int)> { seq(m, i => (Remap(t, lo + i), i)) }

  /** The byte of the device that byte i of a request from sector lo on belongs to. */
  function ByteAt(t: seq<AltEnt>, lo: int, i: nat): int { Remap(t, lo + i / SECTOR) * SECTOR + i % SECTOR }

  /** The first m sectors of the buffer hold what belongs there. */
  ghost predicate Holds(t: seq<AltEnt>, lo: int, n: nat, held: seq<int>, m: nat) {
    |held| == n * SECTOR && forall i :: 0 <= i < m * SECTOR && i < |held| ==> held[i] == ByteAt(t, lo, i)
  }

  /** The cookies, if there are any, are the request cut at the remapped sectors. */
  ghost predicate CookiesFor(t: seq<AltEnt>, lo: int, n: nat, cks: Option<seq<Cookie>>) {
    match cks
    case None => RemapAll(t, lo, n) == ExpandOne(Cookie(lo, n))
    case Some(c) => CutsRequest(t, lo, n, c)
  }

  /** The device sectors still to be moved, beginning with the current cookie's. */
  function Rest(p: Pkt): seq<int> {
    ExpandOne(Cookie(p.srtsec, p.secleft)) +
    (if p.cks.Some? && p.ckIdx <= |p.cks.value| then Expand(p.cks.value[p.ckIdx..]) else [])
  }

  ghost predicate Positive(p: Pkt) {
    p.cks.Some? ==> p.ckIdx <= |p.cks.value| && forall i :: 0 <= i < |p.cks.value| ==> p.cks.value[i].seclen > 0
  }

  /** Before the next chunk is set up: m sectors are done, the rest is what the cookies say. */
  ghost predicate Ready(t: seq<AltEnt>, lo: int, n: nat, m: nat, p: Pkt) {
    && m < n && p.bp.start == lo && p.bp.bcount == n * SECTOR && !p.bp.error && Positive(p)
    && p.byteleft == (n - m) * SECTOR
    && (p.cks.None? ==> p.secleft == n - m)
    && p.secleft >= 0 && Rest(p) == RemapAll(t, lo + m, n - m)
  }

  /** A chunk is out. */
  ghost predicate Flying(t: seq<AltEnt>, lo: int, n: nat, cfg: Config, m: nat, p: Pkt) {
    && Ready(t, lo, n, m, p)
    && 0 < p.bytexfer <= p.secleft * SECTOR && p.bytexfer <= cfg.maxTransfer * SECTOR
    && p.resid == p.bytexfer
    && p.ata.Fresh(p.bytexfer) && p.ata.vAddr == m * SECTOR
    && p.ata.startsec == p.srtsec && DeviceCount(p.ata.count, cfg.ext48) * SECTOR == p.bytexfer
  }

  /** What holds of every run of a request for n sectors from lo on, resid0 bytes of which were
      clipped off beforehand. */
  ghost predicate Inv(t: seq<AltEnt>, lo: int, n: nat, resid0: int, cfg: Config, r: Run) {
    var m := |r.done|;
    && m <= n && r.done == Wanted(t, lo, m) && r.chunks <= m
    && Holds(t, lo, n, r.held, m)
    && (r.pkt.cks.Some? ==> r.pkt.ckIdx <= |r.pkt.cks.value|)
    && match r.phase
       case Sent(_) =>
         && Flying(t, lo, n, cfg, m, r.pkt) && r.pkt.bp.resid == resid0
         && r.pkt.retry <= RETRY_COUNT && r.sent <= 6 * r.chunks + r.pkt.retry + 1
       case Finished =>
         && r.sent <= 6 * r.chunks + 6
         && (!r.pkt.bp.error ==> m == n && r.pkt.bp.resid == resid0)
         && (r.pkt.bp.error ==> m < n)
         && (r.pkt.bp.error ==> r.Accounts(r.pkt.bp.resid == resid0 + (n - m) * SECTOR - r.LastMoved()))
  }

  lemma {:induction false} ExpandCons(cks: seq<Cookie>)
    requires cks != []
    ensures Expand(cks) == ExpandOne(cks[0]) + Expand(cks[1..])
  {
    var last := |cks| - 1;
    if last > 0 {
      ExpandCons(cks[..last]);
      assert cks[..last][1..] == cks[1..][..last - 1];
    }
  }

  /** A packet that is ready takes off. */
  lemma TakeOff(t: seq<AltEnt>, lo: int, n: nat, cfg: Config, m: nat, p: Pkt)
    requires cfg.Valid() && n * SECTOR < SIZE_T && Ready(t, lo, n, m, p) && p.secleft > 0
    requires p.ata.bytesPerBlock > 0 && (p.ata.dir == Read ==> p.ata.wrtCount == 0)
    requires
      || (!p.ata.error && p.ata.vAddr == m * SECTOR && 0 < p.bytexfer <= p.secleft * SECTOR && p.bytexfer % SECTOR == 0)
      || (p.ata.error && p.ata.data && p.ata.vAddrSav == m * SECTOR)
    ensures Flying(t, lo, n, cfg, m, CtlIosetup(cfg, p))
  {
    assert p.secleft <= n - m by {
      assert |Rest(p)| >= |ExpandOne(Cookie(p.srtsec, p.secleft))|;
    }
    var q := CtlIosetup(cfg, p);
    assert Rest(q) == Rest(p);
  }

  /** Dropping the k sectors just moved from what the cookies say. */
  lemma DropRest(p: Pkt, k: nat)
    requires Positive(p) && k <= p.secleft
    ensures Rest(p)[k..] == Rest(p.(srtsec := p.srtsec + k, secleft := p.secleft - k))
  {
    assert ExpandOne(Cookie(p.srtsec, p.secleft))[k..] == ExpandOne(Cookie(p.srtsec + k, p.secleft - k));
  }

  /** An exhausted cookie gives way to the next one. */
  lemma NextCookie(p: Pkt)
    requires Positive(p) && p.cks.Some? && p.secleft == 0 && Rest(p) != []
    ensures p.ckIdx < |p.cks.value|
    ensures var c := p.cks.value[p.ckIdx];
      Rest(p) == Rest(p.(srtsec := c.sector, secleft := c.seclen, ckIdx := p.ckIdx + 1))
  {
    var left := p.cks.value[p.ckIdx..];
    assert Rest(p) == Expand(left);
    ExpandCons(left);
    assert left[1..] == p.cks.value[p.ckIdx + 1..];
  }

  /** k more sectors done: what is left is the rest of what was left. */
  lemma DropWanted(t: seq<AltEnt>, lo: int, n: nat, m: nat, k: nat)
    requires m + k <= n
    ensures RemapAll(t, lo + m, n - m)[k..] == RemapAll(t, lo + (m + k), n - m - k)
  {
    RemapAllSplit(t, lo + m, k, n - m - k);
    assert lo + m + k == lo + (m + k);
  }

  lemma NextSectionReady(t: seq<AltEnt>, lo: int, n: nat, m: nat, p: Pkt, k: nat)
    requires Ready(t, lo, n, m, p) && k == p.bytexfer / SECTOR && 0 < k <= p.secleft && m + k < n
    ensures var q := NextSection(p.(byteleft := p.byteleft - k * SECTOR));
      Ready(t, lo, n, m + k, q) && q.secleft > 0 && q.bytexfer == q.secleft * SECTOR
  {
    DropWanted(t, lo, n, m, k);
    DropRest(p, k);
    var p1 := p.(byteleft := p.byteleft - k * SECTOR);
    var q := NextSection(p1);
    if p.secleft != k {
      assert Rest(q) == Rest(p)[k..];
    } else {
      var e := p.(srtsec := p.srtsec + k, secleft := 0);
      assert |Rest(e)| == n - m - k;
      NextCookie(e);
      assert Rest(q) == Rest(e);
    }
  }

  lemma RestSame(p: Pkt, q: Pkt)
    requires p.srtsec == q.srtsec && p.secleft == q.secleft && p.cks == q.cks && p.ckIdx == q.ckIdx
    ensures Rest(p) == Rest(q)
  {
  }

  lemma SectionKeepsAta(p: Pkt)
    ensures NextSection(p).ata == p.ata
  {
  }

  /** The chunk that just succeeded takes the request from m to m + k sectors, and the next one takes off. */
  lemma NextChunk(t: seq<AltEnt>, lo: int, n: nat, cfg: Config, m: nat, p: Pkt, p': Pkt)
    requires cfg.Valid() && n * SECTOR < SIZE_T && Flying(t, lo, n, cfg, m, p)
    requires p.bytexfer < (n - m) * SECTOR
    requires p' == p.(ata := p'.ata, resid := p'.resid, retry := 0, byteleft := p.byteleft - p.bytexfer)
    requires var a := p'.ata;
      !a.error && a.vAddr == m * SECTOR + p.bytexfer && a.bytesPerBlock > 0 && (a.dir == Read ==> a.wrtCount == 0)
    ensures Flying(t, lo, n, cfg, m + p.bytexfer / SECTOR, DadkIosetup(cfg, p'))
  {
    hide Rest, RemapAll, NextSection, CtlIosetup;
    var k := p.bytexfer / SECTOR;
    assert k == DeviceCount(p.ata.count, cfg.ext48);
    RestSame(p, p'.(byteleft := p.byteleft));
    assert Ready(t, lo, n, m, p'.(byteleft := p.byteleft));
    SectionKeepsAta(p');
    NextSectionReady(t, lo, n, m, p'.(byteleft := p.byteleft), k);
    TakeOff(t, lo, n, cfg, m + k, NextSection(p'));
  }

  /** The first chunk. */
  lemma FirstChunk(t: seq<AltEnt>, cfg: Config, bp: Buf, cks: Option<seq<Cookie>>, dir: Dir, bytesPerBlock: int, n: nat)
    requires cfg.Valid() && 0 < n && n * SECTOR < SIZE_T && bp.bcount == n * SECTOR && !bp.error && bytesPerBlock > 0
    requires CookiesFor(t, bp.start, n, cks)
    ensures Inv(t, bp.start, n, bp.resid, cfg, Begin(cfg, bp, cks, dir, bytesPerBlock))
  {
    var r := Begin(cfg, bp, cks, dir, bytesPerBlock);
    var ata := AtaPkt(0, 0, 0, 0, 0, bytesPerBlock, 0, 0, dir, false, false, false, IDLE,
      ErrReg(false, false, false, false, false));
    var p := Pkt(bp, cks, 0, bp.bcount, 0, 0, 0, 0, 0, ata);
    match cks
    case None =>
      TakeOff(t, bp.start, n, cfg, 0, p.(srtsec := bp.start, secleft := n, bytexfer := n * SECTOR));
    case Some(c) =>
      assert c != [] by { assert |Expand(c)| == n; }
      ExpandCons(c);
      assert c[0..] == c;
      TakeOff(t, bp.start, n, cfg, 0,
        p.(srtsec := c[0].sector, secleft := c[0].seclen, ckIdx := 1, bytexfer := c[0].seclen * SECTOR));
  }

  /** Flying after a command that did not succeed: only the controller's half of the packet moved on. */
  ghost predicate Back(t: seq<AltEnt>, lo: int, n: nat, resid0: int, cfg: Config, r: Run, p: Pkt) {
    var m := |r.done|;
    && m <= n && r.done == Wanted(t, lo, m) && r.chunks <= m
    && Holds(t, lo, n, r.held, m)
    && Flying(t, lo, n, cfg, m, p) && r.pkt == p.(ata := r.pkt.ata, resid := r.pkt.resid, retry := r.pkt.retry)
    && r.pkt.bp.resid == resid0 && r.sent <= 6 * r.chunks + 6
    && r.Accounts(r.pkt.resid == p.bytexfer - r.LastMoved())
  }

  lemma FailEnds(t: seq<AltEnt>, lo: int, n: nat, resid0: int, cfg: Config, r: Run, p: Pkt)
    requires Back(t, lo, n, resid0, cfg, r, p)
    ensures Inv(t, lo, n, resid0, cfg, Iodone(cfg, r.(pkt := Fail(r.pkt))))
    ensures Iodone(cfg, r.(pkt := Fail(r.pkt))).phase.Finished?
  {
  }

  lemma RetryKeeps(t: seq<AltEnt>, lo: int, n: nat, resid0: int, cfg: Config, r: Run, p: Pkt)
    requires cfg.Valid() && n * SECTOR < SIZE_T && Back(t, lo, n, resid0, cfg, r, p)
    requires var a := r.pkt.ata;
      a.bytesPerBlock > 0 && (a.dir == Read ==> a.wrtCount == 0) && a.data && a.vAddrSav == p.ata.vAddrSav
    requires r.pkt.ata.error || r.pkt.ata == p.ata
    requires r.pkt.retry <= RETRY_COUNT && r.sent <= 6 * r.chunks + r.pkt.retry + 1
    ensures Inv(t, lo, n, resid0, cfg, Retry(cfg, r))
    ensures Retry(cfg, r).sent == r.sent + 1 || Retry(cfg, r).phase.Finished?
  {
    var q := r.pkt.(retry := r.pkt.retry + 1);
    if r.pkt.retry < RETRY_COUNT {
      assert Rest(q) == Rest(p);
      TakeOff(t, lo, n, cfg, |r.done|, q);
    } else {
      FailEnds(t, lo, n, resid0, cfg, r.(pkt := q), p);
    }
  }

  /** The sectors of the chunk that is out are the next ones wanted. */
  lemma ChunkWanted(t: seq<AltEnt>, lo: int, n: nat, cfg: Config, m: nat, p: Pkt)
    requires Flying(t, lo, n, cfg, m, p)
    ensures var k := p.bytexfer / SECTOR;
      && |Pairs(p.ata, cfg.ext48)| == k && m + k <= n
      && Wanted(t, lo, m) + Pairs(p.ata, cfg.ext48) == Wanted(t, lo, m + k)
  {
    var k := p.bytexfer / SECTOR;
    assert k == DeviceCount(p.ata.count, cfg.ext48);
    assert |ExpandOne(Cookie(p.srtsec, p.secleft))| <= |Rest(p)|;
    forall i | 0 <= i < k ensures Pairs(p.ata, cfg.ext48)[i] == Wanted(t, lo, m + k)[m + i] {
      assert Rest(p)[i] == p.srtsec + i;
      assert RemapAll(t, lo + m, n - m)[i] == Remap(t, lo + m + i);
    }
  }

  /** Transfers that begin at byte v of the buffer or later leave what is before it alone. */
  lemma {:induction false} LandKeeps(held: seq<int>, ms: seq<Move>, base: int, v: int)
    requires forall i :: 0 <= i < |ms| ==> ms[i].at >= v
    ensures forall i :: 0 <= i < v && i < |held| ==> Land(held, ms, base)[i] == held[i]
    decreases |ms|
  {
    if ms != [] {
      var m := ms[0];
      LandKeeps(seq(|held|, i requires 0 <= i < |held| =>
                      if m.at <= i < m.at + m.len then (if m.good then base + m.pos + i - m.at else -1) else held[i]),
                ms[1..], base, v);
    }
  }

  /** Transfers in order leave each byte of the command's data at its place. */
  lemma {:induction false} LandFills(held: seq<int>, ms: seq<Move>, base: int, pos: int, v: int, total: int)
    requires InOrder(ms, pos, v, total)
    requires forall i :: v <= i < v + pos && 0 <= i < |held| ==> held[i] == base + i - v
    ensures forall i :: v <= i < v + total && 0 <= i < |held| ==> Land(held, ms, base)[i] == base + i - v
    decreases |ms|
  {
    if ms != [] {
      var m := ms[0];
      var next := seq(|held|, i requires 0 <= i < |held| =>
                        if m.at <= i < m.at + m.len then (if m.good then base + m.pos + i - m.at else -1) else held[i]);
      LandFills(next, ms[1..], base, pos + m.len, v, total);
    }
  }

  /** A command leaves what earlier chunks moved alone, and one that ends well adds the chunk's own bytes. */
  lemma CommandHolds(t: seq<AltEnt>, lo: int, n: nat, cfg: Config, m: nat, p: Pkt, held: seq<int>, a: Attempt)
    requires Flying(t, lo, n, cfg, m, p) && Holds(t, lo, n, held, m)
    ensures var h, k := Land(held, CommandMoves(p.ata, a), p.ata.startsec * SECTOR), p.bytexfer / SECTOR;
      && m + k <= n && Holds(t, lo, n, h, m)
      && (Complete(RunCommand(p.ata, a), cfg.ata4) == Success ==> Holds(t, lo, n, h, m + k))
  {
    hide Land, Moves, Interrupts, Remap, Rest;
    var s, v, base := Started(p.ata, a), m * SECTOR, p.ata.startsec * SECTOR;
    var ms, k := CommandMoves(p.ata, a), p.bytexfer / SECTOR;
    var h := Land(held, ms, base);
    ChunkWanted(t, lo, n, cfg, m, p);
    MovesBeyond(s, 0, a.irqs);
    LandKeeps(held, ms, base, v);
    if Complete(RunCommand(p.ata, a), cfg.ata4) == Success {
      CleanEndFills(s, 0, a.irqs, p.bytexfer);
      InterruptsSame(s, a.irqs);
      LandFills(held, ms, base, 0, v, p.bytexfer);
      forall i | v <= i < (m + k) * SECTOR ensures h[i] == ByteAt(t, lo, i) {
        assert Wanted(t, lo, m + k)[i / SECTOR] == Pairs(p.ata, cfg.ext48)[i / SECTOR - m];
      }
    }
  }

  /** What a command that was sent as p may come back as. */
  ghost predicate MayReturn(p: AtaPkt, total: int, ata: AtaPkt, scb: Derr) {
    && ata.vAddrSav == p.vAddrSav && ata.data && ata.bytesPerBlock > 0 && (ata.dir == Read ==> ata.wrtCount == 0)
    && (scb == Success ==> !ata.error && ata.vAddr == ata.vAddrSav + total)
    && (scb != Success && scb != Abort ==> ata.error)
  }

  lemma ReturnsBack(t: seq<AltEnt>, lo: int, n: nat, resid0: int, cfg: Config, r: Run, ata: AtaPkt, scb: Derr)
    requires cfg.Valid() && n * SECTOR < SIZE_T && Inv(t, lo, n, resid0, cfg, r) && r.phase.Sent? && scb != Success
    requires MayReturn(r.pkt.ata, r.pkt.bytexfer, ata, scb)
    requires r.Accounts(ata.resid == r.pkt.bytexfer - r.LastMoved())
    ensures Inv(t, lo, n, resid0, cfg, Return(cfg, r, ata, scb))
    ensures Return(cfg, r, ata, scb).phase.Sent? ==> Return(cfg, r, ata, scb).sent == r.sent + 1
  {
    var p := r.pkt;
    var r1 := r.(pkt := p.(ata := ata, resid := ata.resid));
    if scb == Abort {
      FailEnds(t, lo, n, resid0, cfg, r1, p);
    } else {
      RetryKeeps(t, lo, n, resid0, cfg, r1, p);
    }
  }

  /** dadk_iodone after a success, with the accounts of the run brought up to date. */
  lemma SuccessKeeps(t: seq<AltEnt>, lo: int, n: nat, resid0: int, cfg: Config, r: Run, p: Pkt, m: nat)
    requires cfg.Valid() && n * SECTOR < SIZE_T && Flying(t, lo, n, cfg, m, p)
    requires m + p.bytexfer / SECTOR <= n && p.bp.resid == resid0
    requires |r.done| == m + p.bytexfer / SECTOR && r.done == Wanted(t, lo, |r.done|)
    requires Holds(t, lo, n, r.held, |r.done|)
    requires r.pkt == p.(ata := r.pkt.ata, resid := r.pkt.resid) && r.chunks <= |r.done| && r.sent <= 6 * r.chunks
    requires var a := r.pkt.ata;
      !a.error && a.vAddr == m * SECTOR + p.bytexfer && a.bytesPerBlock > 0 && (a.dir == Read ==> a.wrtCount == 0)
    ensures Inv(t, lo, n, resid0, cfg, Iodone(cfg, r))
    ensures Iodone(cfg, r).phase.Sent? ==> Iodone(cfg, r).sent == r.sent + 1
  {
    if p.bytexfer < (n - m) * SECTOR {
      var q := r.pkt.(byteleft := p.byteleft - p.bytexfer, retry := 0);
      NextChunk(t, lo, n, cfg, m, p, q);
      NextSent(t, lo, n, resid0, cfg, r, q);
    }
  }

  lemma NextSent(t: seq<AltEnt>, lo: int, n: nat, resid0: int, cfg: Config, r: Run, q: Pkt)
    requires |r.done| < n && r.done == Wanted(t, lo, |r.done|)
    requires Holds(t, lo, n, r.held, |r.done|)
    requires r.chunks <= |r.done| && r.sent <= 6 * r.chunks
    requires q == r.pkt.(byteleft := r.pkt.byteleft - r.pkt.bytexfer, retry := 0) && !q.bp.error && q.byteleft != 0
    requires Flying(t, lo, n, cfg, |r.done|, DadkIosetup(cfg, q)) && q.bp.resid == resid0
    ensures Inv(t, lo, n, resid0, cfg, Iodone(cfg, r)) && Iodone(cfg, r).phase.Sent?
        && Iodone(cfg, r).sent == r.sent + 1
  {
    var r' := r.(pkt := DadkIosetup(cfg, q), phase := Sent(false), sent := r.sent + 1);
    assert Iodone(cfg, r) == r';
  }

  lemma ReturnsDone(t: seq<AltEnt>, lo: int, n: nat, resid0: int, cfg: Config, r: Run, ata: AtaPkt)
    requires cfg.Valid() && n * SECTOR < SIZE_T && Inv(t, lo, n, resid0, cfg, r) && r.phase.Sent?
    requires MayReturn(r.pkt.ata, r.pkt.bytexfer, ata, Success)
    requires var m := |r.done| + r.pkt.bytexfer / SECTOR; m <= n && Holds(t, lo, n, r.held, m)
    ensures Inv(t, lo, n, resid0, cfg, Return(cfg, r, ata, Success))
    ensures Return(cfg, r, ata, Success).phase.Sent? ==> Return(cfg, r, ata, Success).sent == r.sent + 1
  {
    var p, m := r.pkt, |r.done|;
    ChunkWanted(t, lo, n, cfg, m, p);
    var r1 := r.(pkt := p.(ata := ata, resid := ata.resid),
                 done := r.done + Pairs(p.ata, cfg.ext48), chunks := r.chunks + 1);
    SuccessKeeps(t, lo, n, resid0, cfg, r1, p, m);
    assert Return(cfg, r, ata, Success) == Iodone(cfg, r1);
  }

  /** Every step keeps the invariant, and counts as one more transport unless it ends the run. */
  lemma StepKeeps(t: seq<AltEnt>, lo: int, n: nat, resid0: int, cfg: Config, r: Run, o: Outcome)
    requires cfg.Valid() && n * SECTOR < SIZE_T && Inv(t, lo, n, resid0, cfg, r) && r.phase.Sent?
    ensures Inv(t, lo, n, resid0, cfg, Step(cfg, r, o))
    ensures Step(cfg, r, o).phase.Sent? ==> Step(cfg, r, o).sent == r.sent + 1
  {
    match o {
      case Refused =>
        var r1 := r.(last := None);
        if r.phase.byRetry {
          FailEnds(t, lo, n, resid0, cfg, r1, r.pkt);
        } else {
          RetryKeeps(t, lo, n, resid0, cfg, r1, r.pkt);
        }
      case Accepted(a) =>
        AcceptedKeeps(t, lo, n, resid0, cfg, r, a);
    }
  }

  lemma AcceptedKeeps(t: seq<AltEnt>, lo: int, n: nat, resid0: int, cfg: Config, r: Run, a: Attempt)
    requires cfg.Valid() && n * SECTOR < SIZE_T && Inv(t, lo, n, resid0, cfg, r) && r.phase.Sent?
    ensures Inv(t, lo, n, resid0, cfg, Step(cfg, r, Accepted(a)))
    ensures Step(cfg, r, Accepted(a)).phase.Sent? ==> Step(cfg, r, Accepted(a)).sent == r.sent + 1
  {
    var p := r.pkt;
    CommandOutcome(p.ata, a, cfg.ata4, p.bytexfer);
    ResidualCondition(p.ata, a, p.bytexfer);
    CommandHolds(t, lo, n, cfg, |r.done|, p, r.held, a);
    var ata := RunCommand(p.ata, a);
    var scb := Complete(ata, cfg.ata4);
    var r1 := Executed(r, a);
    if scb == Success {
      ReturnsDone(t, lo, n, resid0, cfg, r1, ata);
    } else {
      ReturnsBack(t, lo, n, resid0, cfg, r1, ata, scb);
    }
  }

  lemma {:induction false} StepsKeep(t: seq<AltEnt>, lo: int, n: nat, resid0: int, cfg: Config, r: Run,
      os: seq<Outcome>)
    requires cfg.Valid() && n * SECTOR < SIZE_T && Inv(t, lo, n, resid0, cfg, r)
    ensures var r' := Steps(cfg, r, os);
      Inv(t, lo, n, resid0, cfg, r') && (r'.phase.Sent? ==> r'.sent == r.sent + |os|)
    decreases |os|
  {
    if os != [] && r.phase.Sent? {
      StepKeeps(t, lo, n, resid0, cfg, r, os[0]);
      StepsKeep(t, lo, n, resid0, cfg, Step(cfg, r, os[0]), os[1..]);
    }
  }

  // ---------------------------------------------------------------- what a step comes to

  /** The chunk is taken, and the drive moves all of it without complaint. */
  predicate Succeeds(r: Run, o: Outcome) {
    && o.Accepted? && r.pkt.bytexfer > 0 && r.pkt.ata.bytesPerBlock > 0
    && Healthy(r.pkt.ata.dir, r.pkt.bytexfer, r.pkt.ata.bytesPerBlock, o.attempt)
  }

  /** A failed chunk is tried again up to five times, unless it was aborted or a retry was refused. */
  predicate TriedAgain(cfg: Config, r: Run, o: Outcome)
    requires r.phase.Sent?
  {
    r.pkt.retry < 5 &&
    match o
    case Refused => !r.phase.byRetry
    case Accepted(a) => Complete(RunCommand(r.pkt.ata, a), cfg.ata4) != Abort
  }

  lemma DoneExactly(t: seq<AltEnt>, lo: int, n: nat, resid0: int, cfg: Config, r: Run, a: Attempt)
    requires cfg.Valid() && n * SECTOR < SIZE_T && Inv(t, lo, n, resid0, cfg, r) && r.phase.Sent?
    requires Complete(RunCommand(r.pkt.ata, a), cfg.ata4) == Success
    ensures var r', m := Step(cfg, r, Accepted(a)), |r.done| + r.pkt.bytexfer / SECTOR;
      && |r.done| < m == |r'.done| <= n && r'.phase == (if m == n then Finished else Sent(false))
      && !r'.pkt.bp.error && r'.pkt.retry == (if m == n then r.pkt.retry else 0)
  {
    hide RunCommand, Land, CommandMoves, DadkIosetup;
    ChunkWanted(t, lo, n, cfg, |r.done|, r.pkt);
    var p, ata := r.pkt, RunCommand(r.pkt.ata, a);
    IosetupLeaves(cfg, p.(ata := ata, resid := ata.resid, byteleft := p.byteleft - p.bytexfer, retry := 0));
  }

  lemma IosetupLeaves(cfg: Config, p: Pkt)
    ensures DadkIosetup(cfg, p).bp == p.bp && DadkIosetup(cfg, p).retry == p.retry
  {
  }

  lemma FailsExactly(t: seq<AltEnt>, lo: int, n: nat, resid0: int, cfg: Config, r: Run, o: Outcome)
    requires Inv(t, lo, n, resid0, cfg, r) && r.phase.Sent?
    requires o.Accepted? ==> Complete(RunCommand(r.pkt.ata, o.attempt), cfg.ata4) != Success
    ensures var r' := Step(cfg, r, o);
      && r'.done == r.done
      && (TriedAgain(cfg, r, o) ==> r'.phase == Sent(true) && r'.pkt.retry == r.pkt.retry + 1 && !r'.pkt.bp.error)
      && (!TriedAgain(cfg, r, o) ==> r'.phase.Finished? && r'.pkt.bp.error)
  {
    hide RunCommand, Land, CommandMoves, Rest;
  }

  /** What a step comes to, by the statuses of the drive: a chunk that succeeds is done and the next one is
      sent, or the request is finished; one that fails is tried again or ends the request with an error. */
  lemma StepExactly(t: seq<AltEnt>, lo: int, n: nat, resid0: int, cfg: Config, r: Run, o: Outcome)
    requires cfg.Valid() && n * SECTOR < SIZE_T && Inv(t, lo, n, resid0, cfg, r) && r.phase.Sent?
    ensures var r', m := Step(cfg, r, o), |r.done| + r.pkt.bytexfer / SECTOR;
      if Succeeds(r, o) then
        && |r.done| < m == |r'.done| <= n && r'.phase == (if m == n then Finished else Sent(false))
        && !r'.pkt.bp.error && r'.pkt.retry == (if m == n then r.pkt.retry else 0)
      else if TriedAgain(cfg, r, o) then
        r'.done == r.done && r'.phase == Sent(true) && r'.pkt.retry == r.pkt.retry + 1 && !r'.pkt.bp.error
      else
        r'.done == r.done && r'.phase.Finished? && r'.pkt.bp.error
  {
    hide Step, RunCommand, Healthy, TriedAgain;
    if o.Accepted? {
      SuccessExactly(r.pkt.ata, o.attempt, cfg.ata4, r.pkt.bytexfer);
      if Succeeds(r, o) {
        DoneExactly(t, lo, n, resid0, cfg, r, o.attempt);
      } else {
        FailsExactly(t, lo, n, resid0, cfg, r, o);
      }
    } else {
      FailsExactly(t, lo, n, resid0, cfg, r, o);
    }
  }

  /** Every chunk succeeds, as it comes. */
  predicate AllSucceed(cfg: Config, r: Run, os: seq<Outcome>)
    decreases |os|
  {
    os == [] || r.phase.Finished? || (Succeeds(r, os[0]) && AllSucceed(cfg, Step(cfg, r, os[0]), os[1..]))
  }

  lemma {:induction false} HealthyRun(t: seq<AltEnt>, lo: int, n: nat, resid0: int, cfg: Config, r: Run,
                                      os: seq<Outcome>)
    requires cfg.Valid() && n * SECTOR < SIZE_T && Inv(t, lo, n, resid0, cfg, r) && AllSucceed(cfg, r, os)
    requires !r.pkt.bp.error
    ensures var r' := Steps(cfg, r, os);
      !r'.pkt.bp.error && (r'.phase.Sent? ==> |r'.done| >= |r.done| + |os|)
    decreases |os|
  {
    hide Inv, Step, Succeeds, TriedAgain;
    if os != [] && r.phase.Sent? {
      StepExactly(t, lo, n, resid0, cfg, r, os[0]);
      StepKeeps(t, lo, n, resid0, cfg, r, os[0]);
      HealthyRun(t, lo, n, resid0, cfg, Step(cfg, r, os[0]), os[1..]);
    }
  }

  // ---------------------------------------------------------------- main results

  /** Any run of a request for n > 0 sectors, for any table, any device and any transport:
      what succeeded is the beginning of the remapped request, sector by sector and in place; it is all
      of it when no error is reported; at most six transports are spent on a chunk; and a run that has
      used up six transports per sector has ended. */
  lemma RequestRefinesRemap(t: seq<AltEnt>, cfg: Config, bp: Buf, cks: Option<seq<Cookie>>, dir: Dir,
                            bytesPerBlock: int, n: nat, os: seq<Outcome>)
    requires cfg.Valid() && 0 < n && n * SECTOR < SIZE_T && bp.bcount == n * SECTOR && !bp.error && bytesPerBlock > 0
    requires CookiesFor(t, bp.start, n, cks)
    ensures var r := Steps(cfg, Begin(cfg, bp, cks, dir, bytesPerBlock), os);
      && |r.done| <= n && r.done == Wanted(t, bp.start, |r.done|)
      && r.sent <= 6 * r.chunks + 6 && r.chunks <= |r.done|
      && (r.phase.Finished? && !r.pkt.bp.error ==> |r.done| == n && r.pkt.bp.resid == bp.resid)
      && (|os| >= 6 * n ==> r.phase.Finished?)
      && (cks.Some? ==> r.pkt.ckIdx <= |cks.value|)
  {
    FirstChunk(t, cfg, bp, cks, dir, bytesPerBlock, n);
    StepsKeep(t, bp.start, n, bp.resid, cfg, Begin(cfg, bp, cks, dir, bytesPerBlock), os);
    CookiesStay(cfg, Begin(cfg, bp, cks, dir, bytesPerBlock), os);
  }

  /** A request all of whose chunks are taken and moved without complaint ends without an error and with all
      its sectors done, after at most as many chunks as it has sectors. */
  lemma HealthyRequest(t: seq<AltEnt>, cfg: Config, bp: Buf, cks: Option<seq<Cookie>>, dir: Dir, bytesPerBlock: int,
                       n: nat, os: seq<Outcome>)
    requires cfg.Valid() && 0 < n && n * SECTOR < SIZE_T && bp.bcount == n * SECTOR && !bp.error && bytesPerBlock > 0
    requires CookiesFor(t, bp.start, n, cks)
    requires |os| >= n && AllSucceed(cfg, Begin(cfg, bp, cks, dir, bytesPerBlock), os)
    ensures var r := Steps(cfg, Begin(cfg, bp, cks, dir, bytesPerBlock), os);
      r.phase.Finished? && !r.pkt.bp.error && |r.done| == n && r.pkt.bp.resid == bp.resid
  {
    var r := Begin(cfg, bp, cks, dir, bytesPerBlock);
    FirstChunk(t, cfg, bp, cks, dir, bytesPerBlock, n);
    StepsKeep(t, bp.start, n, bp.resid, cfg, r, os);
    HealthyRun(t, bp.start, n, bp.resid, cfg, r, os);
  }

  /** A drive that shows no complaint at all in commands of up to `bytes` bytes. */
  predicate AllOblige(os: seq<Outcome>, bytes: int) {
    forall i :: 0 <= i < |os| ==> os[i].Accepted? && Obliging(os[i].attempt, bytes)
  }

  lemma {:induction false} ObligingSucceeds(t: seq<AltEnt>, lo: int, n: nat, resid0: int, cfg: Config, r: Run,
                                            os: seq<Outcome>)
    requires cfg.Valid() && n * SECTOR < SIZE_T && Inv(t, lo, n, resid0, cfg, r) && AllOblige(os, n * SECTOR)
    ensures AllSucceed(cfg, r, os)
    decreases |os|
  {
    hide Step, Obliging, Healthy;
    if os != [] && r.phase.Sent? {
      ChunkWanted(t, lo, n, cfg, |r.done|, r.pkt);
      ObligingIsHealthy(r.pkt.ata.dir, r.pkt.bytexfer, r.pkt.ata.bytesPerBlock, os[0].attempt, n * SECTOR);
      StepKeeps(t, lo, n, resid0, cfg, r, os[0]);
      hide Inv;
      ObligingSucceeds(t, lo, n, resid0, cfg, Step(cfg, r, os[0]), os[1..]);
    }
  }

  /** A request that ends without error has moved every byte of the buffer last from or to its own byte of
      its own remapped sector, whatever failed attempts had moved there before. */
  lemma BufferHoldsRemap(t: seq<AltEnt>, cfg: Config, bp: Buf, cks: Option<seq<Cookie>>, dir: Dir, bytesPerBlock: int,
                         n: nat, os: seq<Outcome>)
    requires cfg.Valid() && 0 < n && n * SECTOR < SIZE_T && bp.bcount == n * SECTOR && !bp.error && bytesPerBlock > 0
    requires CookiesFor(t, bp.start, n, cks)
    ensures var r := Steps(cfg, Begin(cfg, bp, cks, dir, bytesPerBlock), os);
      r.phase.Finished? && !r.pkt.bp.error ==> r.held == seq(bp.bcount, i requires 0 <= i => ByteAt(t, bp.start, i))
  {
    FirstChunk(t, cfg, bp, cks, dir, bytesPerBlock, n);
    StepsKeep(t, bp.start, n, bp.resid, cfg, Begin(cfg, bp, cks, dir, bytesPerBlock), os);
  }

  /** On error the residual is what was clipped beforehand plus every byte that did not move, the last
      command's partial transfer included: always for a read, and for a write unless the last command went
      on after a busy drive (see AtaDisk.DoubleCountExample) and no chunk was refused after it. */
  lemma ErrorResidual(t: seq<AltEnt>, cfg: Config, bp: Buf, cks: Option<seq<Cookie>>, dir: Dir, bytesPerBlock: int,
                      n: nat, os: seq<Outcome>)
    requires cfg.Valid() && 0 < n && n * SECTOR < SIZE_T && bp.bcount == n * SECTOR && !bp.error && bytesPerBlock > 0
    requires CookiesFor(t, bp.start, n, cks)
    ensures var r := Steps(cfg, Begin(cfg, bp, cks, dir, bytesPerBlock), os);
      var exact := bp.bcount + bp.resid - r.pkt.bp.resid == |r.done| * SECTOR + r.LastMoved();
      r.phase.Finished? && r.pkt.bp.error ==>
        && (dir == Read || r.OneBlock() ==> exact)
        && (!r.Recounts() ==> exact)
        && (r.Short() ==> (exact <==> !r.Recounts()))
  {
    var r := Begin(cfg, bp, cks, dir, bytesPerBlock);
    FirstChunk(t, cfg, bp, cks, dir, bytesPerBlock, n);
    StepsKeep(t, bp.start, n, bp.resid, cfg, r, os);
    LastSingle(t, bp.start, n, bp.resid, cfg, r, os);
    DirStays(cfg, r, os, dir);
  }

  /** A command of one block, a retry above all, is never one that counts a block twice. */
  ghost predicate SingleExact(r: Run) { r.OneBlock() ==> !r.Recounts() }

  lemma {:induction false} LastSingle(t: seq<AltEnt>, lo: int, n: nat, resid0: int, cfg: Config, r: Run,
                                      os: seq<Outcome>)
    requires cfg.Valid() && n * SECTOR < SIZE_T && Inv(t, lo, n, resid0, cfg, r) && SingleExact(r)
    ensures SingleExact(Steps(cfg, r, os))
    decreases |os|
  {
    hide Inv;
    if os != [] && r.phase.Sent? {
      StepKeeps(t, lo, n, resid0, cfg, r, os[0]);
      StepSingle(t, lo, n, resid0, cfg, r, os[0]);
      LastSingle(t, lo, n, resid0, cfg, Step(cfg, r, os[0]), os[1..]);
    }
  }

  lemma StepSingle(t: seq<AltEnt>, lo: int, n: nat, resid0: int, cfg: Config, r: Run, o: Outcome)
    requires Inv(t, lo, n, resid0, cfg, r) && r.phase.Sent?
    ensures SingleExact(Step(cfg, r, o))
  {
    StepLast(cfg, r, o);
    if o.Accepted? && r.pkt.ata.resid <= r.pkt.ata.bytesPerBlock {
      OneBlockExact(r.pkt.ata, o.attempt, r.pkt.bytexfer);
    }
  }

  lemma StepLast(cfg: Config, r: Run, o: Outcome)
    requires r.phase.Sent?
    ensures Step(cfg, r, o).last == if o.Accepted? then Some(Command(r.pkt.ata, o.attempt)) else None
  {
  }

  /** A retry after an error is a command of one block, so what it leaves is exact. */
  lemma RetryIsOneBlock(cfg: Config, r: Run)
    requires r.pkt.ata.error && r.pkt.retry < RETRY_COUNT
    ensures var ata := Retry(cfg, r).pkt.ata; ata.resid == ata.bytesPerBlock == SECTOR
  {
  }

  /** A three-sector write: the second interrupt finds the drive busy and the third ends the command with an
      error that is final.  The drive took one sector, none are done, and the residual says two. */
  lemma WrongResidual()
    ensures var no := ErrReg(false, false, false, false, false);
      var fate := Attempt(false, [Irq(IDLE, READY, true, no), Irq(IDLE, BUSY, true, no), Irq(IDLE, IDLE, true, no)]);
      var cfg := Config(256, false, false);
      var r := Steps(cfg, Begin(cfg, Buf(7, 1536, 0, false), None, Write, 512), [Accepted(fate)]);
      && r.phase.Finished? && r.pkt.bp.error && r.done == [] && r.LastMoved() == 512 && 1536 - r.pkt.bp.resid == 1024
      && r.Recounts() && r.Short()
  {
    var no := ErrReg(false, false, false, false, false);
    var fate := Attempt(false, [Irq(IDLE, READY, true, no), Irq(IDLE, BUSY, true, no), Irq(IDLE, IDLE, true, no)]);
    var cfg := Config(256, false, false);
    var r0 := Begin(cfg, Buf(7, 1536, 0, false), None, Write, 512);
    assert r0.pkt.ata == AtaPkt(0, 1536, 0, 0, 0, 512, 3, 7, Write, true, false, false, IDLE, no);
    BusyThenAbort(r0.pkt.ata, no);
    assert [Accepted(fate)][1..] == [];
    var r1 := Step(cfg, r0, Accepted(fate));
    assert Complete(RunCommand(r0.pkt.ata, fate), false) == Abort;
  }

  lemma BusyThenAbort(p: AtaPkt, no: ErrReg)
    requires p == AtaPkt(0, 1536, 0, 0, 0, 512, 3, 7, Write, true, false, false, IDLE, no)
    ensures var a := Attempt(false, [Irq(IDLE, READY, true, no), Irq(IDLE, BUSY, true, no), Irq(IDLE, IDLE, true, no)]);
      && RunCommand(p, a) == p.(vAddr := 1024, resid := 512, wrtCount := 512, error := true, status := IDLE)
      && CommandAcked(p, a) == 512 && Command(p, a).Recounts() && Command(p, a).Short()
  {
    hide Interrupts, Acked, Drift, IntrOut, StepMoves, GoesOnAfterBusy;
    var i0, i1, i2 := Irq(IDLE, READY, true, no), Irq(IDLE, BUSY, true, no), Irq(IDLE, IDLE, true, no);
    var p1 := p.(wrtCount := 512);
    var p2 := p1.(vAddr := 512, resid := 1024).Record(i1);
    var p3 := p2.(vAddr := 1024, resid := 512).Record(i2);
    FirstBlockOut(p, i0);
    ThenBusy(p1, i1);
    ThenEnds(p2, i2);
    WriteCons(p, 0, i0, [i1] + ([i2] + []));
    WriteCons(p1, 512, i1, [i2] + []);
    WriteCons(p2, 0, i2, []);
    var a := Attempt(false, [i0, i1, i2]);
    assert a.irqs == [i0] + ([i1] + ([i2] + []));
    assert Started(p, a) == p;
    DriftExactly(p, false, a.irqs);
  }

  lemma FirstBlockOut(p: AtaPkt, irq: Irq)
    requires p.dir == Write && 512 == p.bytesPerBlock < p.resid < SIZE_T && p.wrtCount == 0
    requires irq.status == IDLE && irq.alt == READY
    ensures IntrOut(p, irq) == (p.(wrtCount := 512), Okay)
  {
    assert p.(vAddr := p.vAddr + 0, resid := p.resid) == p;
  }

  lemma ThenBusy(p: AtaPkt, irq: Irq)
    requires p.dir == Write && p.vAddr == 0 && p.wrtCount == 512 && p.resid == 1536
    requires irq.status == IDLE && irq.alt == BUSY
    ensures IntrOut(p, irq) == (p.(vAddr := 512, resid := 1024).Record(irq), Busy)
  {
  }

  lemma ThenEnds(p: AtaPkt, irq: Irq)
    requires p.dir == Write && p.vAddr == 512 && p.wrtCount == 512 && p.resid == 1024
    requires irq.status == irq.alt == IDLE
    ensures IntrOut(p, irq) == (p.(vAddr := 1024, resid := 512).Record(irq), Fini)
  {
  }

  /** All commands of a request go the same way. */
  ghost predicate OneWay(r: Run, dir: Dir) { r.pkt.ata.dir == dir && (r.last.Some? ==> r.last.value.sent.dir == dir) }

  lemma ReturnOneWay(cfg: Config, r: Run, ata: AtaPkt, scb: Derr, dir: Dir)
    requires OneWay(r, dir) && ata.dir == dir
    ensures OneWay(Return(cfg, r, ata, scb), dir)
  {
  }

  lemma StepOneWay(cfg: Config, r: Run, o: Outcome, dir: Dir)
    requires OneWay(r, dir) && r.phase.Sent?
    ensures OneWay(Step(cfg, r, o), dir)
  {
    match o
    case Refused =>
    case Accepted(a) =>
      var ata := RunCommand(r.pkt.ata, a);
      InterruptsSame(Started(r.pkt.ata, a), a.irqs);
      ReturnOneWay(cfg, Executed(r, a), ata, Complete(ata, cfg.ata4), dir);
  }

  lemma {:induction false} DirStays(cfg: Config, r: Run, os: seq<Outcome>, dir: Dir)
    requires OneWay(r, dir)
    ensures OneWay(Steps(cfg, r, os), dir)
    ensures dir == Read ==> !Steps(cfg, r, os).Recounts()
    decreases |os|
  {
    if os != [] && r.phase.Sent? {
      StepOneWay(cfg, r, os[0], dir);
      DirStays(cfg, Step(cfg, r, os[0]), os[1..], dir);
    }
  }

  /** A run never swaps the cookies of its request. */
  lemma {:induction false} CookiesStay(cfg: Config, r: Run, os: seq<Outcome>)
    ensures Steps(cfg, r, os).pkt.cks == r.pkt.cks
    decreases |os|
  {
    if os != [] && r.phase.Sent? {
      CookiesStay(cfg, Step(cfg, r, os[0]), os[1..]);
    }
  }

  // ---------------------------------------------------------------- the packet in memory

  /** Where a run stands once the transport has given its answers: a refused chunk is dealt with at once. */
  function Settled(cfg: Config, r: Run, answers: seq<bool>): Run
    decreases |answers|
  {
    if r.phase.Finished? || answers == [] || answers[0] then r else Settled(cfg, Step(cfg, r, Refused), answers[1..])
  }

  /** The same settles within two answers: a retry that is refused gives up. */
  lemma SettledInTwo(cfg: Config, r: Run, answers: seq<bool>)
    requires |answers| >= 2 && r.phase.Sent? && !answers[0]
    ensures Settled(cfg, r, answers) == Settled(cfg, Step(cfg, r, Refused), [answers[1]])
  {
    var r1 := Step(cfg, r, Refused);
    assert answers[1..][0] == answers[1];
    if r1.phase.Sent? && !answers[1] {
      var r2 := Step(cfg, r1, Refused);
      assert r2.phase.Finished?;
      assert Settled(cfg, r2, answers[1..][1..]) == r2 && Settled(cfg, r2, [answers[1]][1..]) == r2;
    }
  }

  /** struct cmpkt as the driver updates it, field by field.  The transport's answers to the chunks
      handed to it in one call come as a parameter. */
  class Cmpkt {
    const start: int
    const bcount: int
    var bResid: int
    var bError: bool
    const cks: Handle?
    var byteleft: int
    var bytexfer: int
    var secleft: int
    var srtsec: int
    var resid: int
    var retry: nat
    const ata: AtaPacket

    ghost predicate Valid()
      reads this, cks
    {
      cks != null ==> cks.Valid()
    }

    ghost function View(): Pkt
      requires Valid()
      reads this, ata, cks, if cks == null then {} else {cks.cktab}
    {
      Pkt(Buf(start, bcount, bResid, bError),
          if cks == null then None else Some(cks.cktab[..cks.filled]), if cks == null then 0 else cks.idx,
          byteleft, bytexfer, secleft, srtsec, resid, retry, ata.View())
    }

    /** A cookie is there when the next section needs one. */
    ghost predicate CookieAhead()
      requires Valid()
      reads this, cks
    {
      cks != null && secleft == bytexfer / SECTOR ==> cks.idx < cks.filled
    }

    /** A packet straight from the allocator, and dadk_ioprep on it. */
    constructor (cfg: Config, bp: Buf, hp: Handle?, dir: Dir, bytesPerBlock: int)
      requires hp != null ==> hp.Valid() && hp.idx == 0 && hp.filled > 0
      modifies hp
      ensures Valid() && fresh(ata) && this.cks == hp
      ensures View() == Ioprep(cfg, bp, if hp == null then None else Some(old(hp.cktab[..hp.filled])), dir,
          bytesPerBlock)
    {
      start, bcount, bResid, bError := bp.start, bp.bcount, bp.resid, bp.error;
      cks := hp;
      bytexfer, secleft, srtsec, resid, retry := 0, 0, 0, 0, 0;
      ata := new AtaPacket(AtaPkt(0, 0, 0, 0, 0, bytesPerBlock, 0, 0, dir, false, false, false, IDLE,
                                  ErrReg(false, false, false, false, false)));
      byteleft := bp.bcount;
      new;
      Iosetup(cfg);
    }

    /** CTL_IOSETUP */
    method CtlSetup(cfg: Config)
      requires Valid()
      modifies this, ata
      ensures Valid() && View() == CtlIosetup(cfg, old(View()))
    {
      bytexfer := ata.Setup(bytexfer, srtsec, cfg.maxTransfer, cfg.ext48);
      resid := bytexfer;
    }

    /** dadk_iosetup */
    method Iosetup(cfg: Config)
      requires Valid() && CookieAhead()
      modifies this, ata, cks
      ensures Valid() && View() == DadkIosetup(cfg, old(View()))
    {
      var seccnt := bytexfer / SECTOR;
      secleft := secleft - seccnt;
      if secleft != 0 {
        srtsec := srtsec + seccnt;
      } else if cks == null {
        srtsec := start;
        secleft := bcount / SECTOR;
      } else {
        var c := cks.Htoc();
        srtsec := c.sector;
        secleft := c.seclen;
      }
      bytexfer := secleft * SECTOR;
      CtlSetup(cfg);
    }

    /** The error exit of dadk_ioretry. */
    method GiveUp()
      requires Valid()
      modifies this
      ensures Valid() && View() == Fail(old(View()))
    {
      bResid := bResid + byteleft - bytexfer + resid;
      bError := true;
    }

    /** dadk_ioretry(QUE_COMMAND): true when the chunk is on its way again (JUST_RETURN). */
    method Ioretry(cfg: Config, accepted: bool) returns (justReturn: bool)
      requires Valid()
      modifies this, ata
      ensures Valid()
      ensures justReturn <==> old(retry) < RETRY_COUNT && accepted
      ensures var p := old(View()).(retry := old(retry) + 1);
        View() == if justReturn then CtlIosetup(cfg, p)
          else Fail(if old(retry) < RETRY_COUNT then CtlIosetup(cfg, p) else p)
    {
      retry := retry + 1;
      if retry <= RETRY_COUNT {
        CtlSetup(cfg);
        if accepted {
          return true;
        }
      }
      GiveUp();
      return false;
    }

    /** dadk_iodone: true when another chunk is on its way, false when the request is finished. */
    method IoDone(cfg: Config, answers: seq<bool>, ghost r: Run) returns (sent: bool)
      requires Valid() && |answers| >= 2 && r.pkt == View()
      requires !bError && byteleft != bytexfer ==> CookieAhead()
      modifies this, ata, cks
      ensures Valid()
      ensures var r' := Settled(cfg, Iodone(cfg, r), answers); sent == r'.phase.Sent? && (sent ==> View() == r'.pkt)
      ensures var r' := Settled(cfg, Iodone(cfg, r), answers); View().bp == r'.pkt.bp
    {
      byteleft := byteleft - bytexfer;
      if !bError && byteleft != 0 {
        retry := 0;
        Iosetup(cfg);
        ghost var r1 := Iodone(cfg, r);
        assert View() == r1.pkt;
        if answers[0] {
          return true;
        }
        SettledInTwo(cfg, r1, answers);
        sent := Ioretry(cfg, answers[1]);
        return;
      }
      return false;
    }

    /** ata_disk_complete and dadk_pktcb for the command whose packet is `ata`: true when the request is
        still under way. */
    method Callback(cfg: Config, answers: seq<bool>, ghost r: Run) returns (sent: bool)
      requires Valid() && |answers| >= 2 && r.phase.Sent? && View() == r.pkt.(ata := ata.View())
      requires Complete(ata.View(), cfg.ata4) == Success && !bError && byteleft != bytexfer ==> CookieAhead()
      modifies this, ata, cks
      ensures Valid()
      ensures var r' := Settled(cfg, Return(cfg, r, old(ata.View()), Complete(old(ata.View()), cfg.ata4)), answers);
        sent == r'.phase.Sent? && (sent ==> View() == r'.pkt) && View().bp == r'.pkt.bp
    {
      hide Settled, Iodone, Retry;
      resid := ata.resid;
      var scb := Complete(ata.View(), cfg.ata4);
      ghost var r1 := r.(pkt := View());
      match ActionFor(scb) {
        case CommandDone =>
          sent := IoDone(cfg, answers, r1.(done := r.done + Pairs(r.pkt.ata, cfg.ext48), chunks := r.chunks + 1));
        case CommandDoneError =>
          GiveUp();
          sent := IoDone(cfg, answers, r1.(pkt := Fail(r1.pkt)));
        case QueCommand =>
          sent := Again(cfg, answers, r1);
        case JustReturn =>
          sent := Again(cfg, answers, r1);
      }
    }

    /** A retry, and dadk_iodone when there are no more. */
    method Again(cfg: Config, answers: seq<bool>, ghost r: Run) returns (sent: bool)
      requires Valid() && |answers| >= 2 && r.pkt == View() && r.phase.Sent?
      modifies this, ata, cks
      ensures Valid()
      ensures var r' := Settled(cfg, Retry(cfg, r), answers);
        sent == r'.phase.Sent? && (sent ==> View() == r'.pkt) && View().bp == r'.pkt.bp
    {
      sent := Ioretry(cfg, answers[0]);
      if !sent {
        sent := IoDone(cfg, answers, r.(pkt := View()));
      }
    }
  }
}
