/**
  Flow control of the disk driver (dktp/drvobj/strategy.c, dsngl_* and dmult_*) over the FIFO queue.

  At most limit requests are outstanding: one for dsngl, DMULT_MAXCNT for dmult.  One request may wait
  apart from the queue (ds_bp) because no packet could be prepared for it.  The mutex is dropped around
  every transport and got back with mutex_tryenter, so any number of threads interleave here; a step is
  a thread's action between two lock operations.
 */
module FlowControl {
  import opened Options
  import opened Seqs

  /** What TGCOM_PKT comes to: a packet; none, but the restart function will be called; or none, and
      nobody will call.  ata_disk_pktalloc takes the restart function and never registers it. */
  datatype Prep = Ready | FailOwed | FailSilent

  /** struct fc_data: arrived and taken list the requests in the order in which they were queued or
      counted into ds_outcnt. */
  datatype Fc = Fc(q: seq<nat>, bp: Option<nat>, outcnt: int, arrived: seq<nat>, taken: seq<nat>)

  /** What a critical section leaves, and the request to transport after it. */
  datatype Body = Body(f: Fc, send: Option<nat>)

  /** dsngl_enque and dmult_enque, under the mutex. */
  function Enque(f0: Fc, b: nat, p: Prep, limit: nat): Body {
    var f := f0.(arrived := f0.arrived + [b]);
    if f.outcnt >= limit || f.bp.Some? then Body(f.(q := f.q + [b]), None)
    else if !p.Ready? then Body(f.(bp := Some(b)), None)
    else Body(f.(outcnt := f.outcnt + 1, taken := f.taken + [b]), Some(b))
  }

  /** QUE_DEL into ds_bp */
  function Fetch(f: Fc): Fc {
    if f.q == [] then f.(bp := None) else f.(bp := Some(f.q[0]), q := f.q[1..])
  }

  function Fetched(f: Fc): Fc { if f.bp.None? then Fetch(f) else f }

  /** A pass of dsngl_deque and dmult_deque, under the mutex. */
  function Deque(f0: Fc, done: bool, p: Prep, limit: nat): Body {
    var f := Fetched(if done then f0.(outcnt := f0.outcnt - 1) else f0);
    if f.bp.None? || !p.Ready? || f.outcnt >= limit then Body(f, None)
    else Body(Fetch(f.(outcnt := f.outcnt + 1, taken := f.taken + [f.bp.value])), f.bp)
  }

  // ---------------------------------------------------------------- threads

  datatype Pc =
    | Idle
    | EnqWait(b: nat)            // before mutex_enter in enque
    | EnqIn(b: nat)
    | Sending(b: nat, deq: bool) // before TGCOM_TRANSPORT
    | TryAgain                   // before mutex_tryenter
    | DeqWait(done: Option<nat>) // before mutex_enter in deque; done is the request that completed
    | DeqIn(done: Option<nat>)

  /** device holds the requests below; live those counted in ds_outcnt; owed says that a restart will
      come, silent that the last attempt to prepare a packet failed without one. */
  datatype Sys = Sys(f: Fc, mutex: Option<nat>, pc: map<nat, Pc>, device: set<nat>, live: set<nat>, known: set<nat>,
                     owed: bool, silent: bool, sent: seq<nat>)

  datatype Event =
    | Call(b: nat)     // a new request
    | Lock             // mutex_enter
    | Section(p: Prep) // the critical section and mutex_exit
    | Transport
    | TryLock
    | Finish(b: nat)   // the device completes b
    | Restart

  predicate Inside(p: Pc) { p.EnqIn? || p.DeqIn? }

  ghost predicate Enabled(s: Sys, t: nat, e: Event) {
    && t in s.pc
    && var p := s.pc[t];
    match e
    case Call(b) => p.Idle? && b !in s.known
    case Lock => (p.EnqWait? || p.DeqWait?) && s.mutex.None?
    case Section(_) => Inside(p)
    case Transport => p.Sending?
    case TryLock => p.TryAgain?
    case Finish(b) => p.Idle? && b in s.device
    case Restart => p.Idle?
  }

  /** Whether the critical section asks for a packet. */
  predicate Attempts(f: Fc, p: Pc, limit: nat) {
    match p
    case EnqIn(_) => f.outcnt < limit && f.bp.None?
    case DeqIn(_) => f.bp.Some? || f.q != []
    case _ => false
  }

  function BodyOf(f: Fc, p: Pc, prep: Prep, limit: nat): Body
    requires Inside(p)
  {
    match p
    case EnqIn(b) => Enque(f, b, prep, limit)
    case DeqIn(done) => Deque(f, done.Some?, prep, limit)
  }

  function Taken(send: Option<nat>): set<nat> { if send.Some? then {send.value} else {} }

  ghost function Next(s: Sys, t: nat, e: Event, limit: nat): Sys
    requires Enabled(s, t, e)
  {
    var p := s.pc[t];
    match e
    case Call(b) => s.(pc := s.pc[t := EnqWait(b)], known := s.known + {b})
    case Lock => s.(pc := s.pc[t := if p.EnqWait? then EnqIn(p.b) else DeqIn(p.done)], mutex := Some(t))
    case Section(prep) =>
      var body := BodyOf(s.f, p, prep, limit);
      var tried := Attempts(s.f, p, limit);
      s.(f := body.f, mutex := None,
         pc := s.pc[t := if body.send.Some? then Sending(body.send.value, p.DeqIn?) else Idle],
         live := s.live - Taken(if p.DeqIn? then p.done else None) + Taken(body.send),
         owed := s.owed || (tried && prep.FailOwed?),
         silent := if tried then prep.FailSilent? else s.silent)
    case Transport =>
      s.(pc := s.pc[t := if p.deq then TryAgain else Idle], device := s.device + {p.b}, sent := s.sent + [p.b])
    case TryLock =>
      if s.mutex.None? then s.(pc := s.pc[t := DeqIn(None)], mutex := Some(t)) else s.(pc := s.pc[t := Idle])
    case Finish(b) => s.(pc := s.pc[t := DeqWait(Some(b))], device := s.device - {b})
    case Restart => s.(pc := s.pc[t := DeqWait(None)], owed := false)
  }

  // ---------------------------------------------------------------- invariants

  ghost predicate Locked(s: Sys) {
    && (s.mutex.Some? ==> s.mutex.value in s.pc)
    && forall t :: t in s.pc ==> (Inside(s.pc[t]) <==> s.mutex == Some(t))
  }

  function Listed(b: Option<nat>): seq<nat> { if b.Some? then [b.value] else [] }

  /** Requests leave in the order in which they came, and none is lost. */
  ghost predicate Fifo(f: Fc) { f.arrived == f.taken + Listed(f.bp) + f.q }

  predicate Pending(f: Fc) { f.bp.Some? || f.q != [] }

  /** The queue is used only behind a request that waits apart, or when the limit is reached. */
  predicate Behind(f: Fc, limit: nat) { f.bp.None? && f.q != [] ==> f.outcnt >= limit }

  ghost predicate SomeoneComing(s: Sys) { exists t :: t in s.pc && (s.pc[t].DeqWait? || s.pc[t].DeqIn?) }

  /** Work that waits has a request outstanding, a restart to come, a thread on its way, or a packet
      preparation that failed without a restart. */
  ghost predicate Attended(s: Sys) {
    Pending(s.f) ==> s.f.outcnt > 0 || s.owed || s.silent || SomeoneComing(s)
  }

  lemma LockedKept(s: Sys, t: nat, e: Event, limit: nat)
    requires Locked(s) && Enabled(s, t, e)
    ensures Locked(Next(s, t, e, limit))
  {
  }

  lemma EnqueKeeps(f: Fc, b: nat, p: Prep, limit: nat)
    requires Fifo(f) && Behind(f, limit)
    ensures Fifo(Enque(f, b, p, limit).f) && Behind(Enque(f, b, p, limit).f, limit)
  {
  }

  lemma DequeKeeps(f: Fc, done: bool, p: Prep, limit: nat)
    requires Fifo(f) && Behind(f, limit)
    ensures Fifo(Deque(f, done, p, limit).f) && Behind(Deque(f, done, p, limit).f, limit)
  {
    assert f.q != [] ==> f.q == [f.q[0]] + f.q[1..];
  }

  /** After a pass, whatever waits does so behind an outstanding request or for want of a packet. */
  lemma DequeAttends(f: Fc, done: bool, p: Prep, limit: nat)
    requires f.outcnt >= (if done then 1 else 0) && limit >= 1
    ensures var r := Deque(f, done, p, limit).f;
      Pending(r) ==> r.outcnt > 0 || (Pending(f) && !p.Ready?)
  {
  }

  lemma AttendedKept(s: Sys, t: nat, e: Event, limit: nat)
    requires Locked(s) && Behind(s.f, limit) && Attended(s) && Enabled(s, t, e) && limit >= 1
    requires s.f.outcnt >= (if s.pc[t].DeqIn? && s.pc[t].done.Some? then 1 else 0)
    ensures Attended(Next(s, t, e, limit))
  {
    var s' := Next(s, t, e, limit);
    if SomeoneComing(s) {
      var u :| u in s.pc && (s.pc[u].DeqWait? || s.pc[u].DeqIn?);
      assert u != t || e.Lock? ==> u in s'.pc && (s'.pc[u].DeqWait? || s'.pc[u].DeqIn?);
    }
    if e.Section? && s.pc[t].DeqIn? {
      DequeAttends(s.f, s.pc[t].done.Some?, e.p, limit);
    }
    assert t in s'.pc;
  }

  // Who has what.

  /** A request a thread has taken and not yet transported, or that has completed and is not yet counted
      off. */
  function Carries(p: Pc): Option<nat> {
    match p
    case Sending(b, _) => Some(b)
    case DeqWait(done) => done
    case DeqIn(done) => done
    case _ => None
  }

  function Brings(p: Pc): Option<nat> {
    match p
    case EnqWait(b) => Some(b)
    case EnqIn(b) => Some(b)
    case _ => None
  }

  /** Every outstanding request is at the device or carried by one thread, and ds_outcnt counts them. */
  ghost predicate Counted(s: Sys, limit: nat) { Sized(s, limit) && Carried(s) }

  ghost predicate Sized(s: Sys, limit: nat) {
    s.f.outcnt == |s.live| <= limit && s.device <= s.live && forall x :: x in s.live ==> x in s.f.taken
  }

  ghost predicate Carried(s: Sys) {
    && (forall t :: t in s.pc && Carries(s.pc[t]).Some? ==>
         Carries(s.pc[t]).value in s.live && Carries(s.pc[t]).value !in s.device)
    && (forall t, u :: t in s.pc && u in s.pc && t != u && Carries(s.pc[t]).Some? ==>
        Carries(s.pc[t]) != Carries(s.pc[u]))
  }

  /** No request is submitted twice. */
  ghost predicate Distinct(s: Sys) {
    && NoDup(s.f.arrived) && (forall x :: x in s.f.arrived ==> x in s.known)
    && (forall t :: t in s.pc && Brings(s.pc[t]).Some? ==>
         Brings(s.pc[t]).value in s.known && Brings(s.pc[t]).value !in s.f.arrived)
    && (forall t, u :: t in s.pc && u in s.pc && t != u && Brings(s.pc[t]).Some? ==> Brings(s.pc[t]) != Brings(s.pc[u]))
  }

  lemma DistinctSection(s: Sys, t: nat, prep: Prep, limit: nat)
    requires Distinct(s) && Enabled(s, t, Section(prep))
    ensures Distinct(Next(s, t, Section(prep), limit))
  {
    var arrived := Next(s, t, Section(prep), limit).f.arrived;
    assert s.pc[t].EnqIn? ==> arrived == s.f.arrived + [s.pc[t].b];
    assert s.pc[t].DeqIn? ==> arrived == s.f.arrived;
    assert s.pc[t].EnqIn? ==> Brings(s.pc[t]) == Some(s.pc[t].b);
  }

  lemma DistinctMove(s: Sys, t: nat, p: Pc)
    requires Distinct(s) && t in s.pc && (Brings(p).None? || Brings(p) == Brings(s.pc[t]))
    ensures Distinct(s.(pc := s.pc[t := p]))
  {
  }

  lemma DistinctCall(s: Sys, t: nat, b: nat)
    requires Distinct(s) && t in s.pc && b !in s.known
    ensures Distinct(s.(pc := s.pc[t := EnqWait(b)], known := s.known + {b}))
  {
  }

  lemma DistinctOther(s: Sys, t: nat, e: Event, limit: nat)
    requires Distinct(s) && Enabled(s, t, e) && !e.Section?
    ensures Distinct(Next(s, t, e, limit))
  {
    if e.Call? { DistinctCall(s, t, e.b); } else { DistinctMove(s, t, Next(s, t, e, limit).pc[t]); }
  }

  lemma DistinctKept(s: Sys, t: nat, e: Event, limit: nat)
    requires Distinct(s) && Enabled(s, t, e)
    ensures Distinct(Next(s, t, e, limit))
  {
    if e.Section? { DistinctSection(s, t, e.p, limit); } else { DistinctOther(s, t, e, limit); }
  }

  /** What a critical section takes was not taken before. */
  lemma TakenIsNew(f: Fc, p: Pc, prep: Prep, limit: nat)
    requires Inside(p) && Fifo(f) && NoDup(f.arrived) && (p.EnqIn? ==> p.b !in f.arrived)
    ensures var body := BodyOf(f, p, prep, limit);
      && (body.send.Some? ==> body.send.value !in f.taken && body.f.taken == f.taken + [body.send.value])
      && (body.send.None? ==> body.f.taken == f.taken)
      && body.f.outcnt == f.outcnt - (if p.DeqIn? && p.done.Some? then 1 else 0) + (if body.send.Some? then 1 else 0)
      && (body.send.Some? ==> body.f.outcnt <= limit)
  {
    var body := BodyOf(f, p, prep, limit);
    if body.send.Some? && p.DeqIn? {
      var b, n := body.send.value, |f.taken|;
      assert f.arrived[n] == b;
      forall i | 0 <= i < n ensures f.taken[i] != b {
        assert f.arrived[i] == f.taken[i];
      }
    } else if body.send.Some? {
      assert forall x :: x in f.taken ==> x in f.arrived;
    }
  }

  lemma LiveCount(live: set<nat>, done: Option<nat>, send: Option<nat>)
    requires (done.Some? ==> done.value in live) && (send.Some? ==> send.value !in live)
    ensures |live - Taken(done) + Taken(send)| == |live| - (if done.Some? then 1 else 0) + (if send.Some? then 1 else 0)
  {
    if done.Some? { assert live == (live - {done.value}) + {done.value}; }
    assert |live - Taken(done)| == |live| - (if done.Some? then 1 else 0);
    if send.Some? { assert send.value !in live - Taken(done); }
  }

  /** What a section leaves of the counts, and what its thread carries after it. */
  lemma SectionCounts(s: Sys, t: nat, prep: Prep, limit: nat)
    requires Fifo(s.f) && Distinct(s) && Counted(s, limit) && t in s.pc && Inside(s.pc[t])
    ensures var p, body := s.pc[t], BodyOf(s.f, s.pc[t], prep, limit);
      var live := s.live - Taken(if p.DeqIn? then p.done else None) + Taken(body.send);
      && body.f.outcnt == |live| <= limit && s.device <= live && (forall x :: x in live ==> x in body.f.taken)
      && (body.send.Some? ==> body.send.value !in s.live)
  {
    var p := s.pc[t];
    var body := BodyOf(s.f, p, prep, limit);
    assert p.EnqIn? ==> Brings(p) == Some(p.b);
    TakenIsNew(s.f, p, prep, limit);
    SectionLive(s, t, if p.DeqIn? then p.done else None, body, limit);
  }

  lemma SectionLive(s: Sys, t: nat, done: Option<nat>, body: Body, limit: nat)
    requires Counted(s, limit) && t in s.pc && Inside(s.pc[t]) && Carries(s.pc[t]) == done
    requires body.send.Some? ==> body.send.value !in s.f.taken && body.f.taken == s.f.taken + [body.send.value]
    requires body.send.None? ==> body.f.taken == s.f.taken
    requires body.f.outcnt == s.f.outcnt - (if done.Some? then 1 else 0) + (if body.send.Some? then 1 else 0)
    requires body.send.Some? ==> body.f.outcnt <= limit
    ensures var live := s.live - Taken(done) + Taken(body.send);
      && body.f.outcnt == |live| <= limit && s.device <= live && (forall x :: x in live ==> x in body.f.taken)
      && (body.send.Some? ==> body.send.value !in s.live)
  {
    LiveCount(s.live, done, body.send);
  }

  lemma SizedSection(s: Sys, t: nat, prep: Prep, limit: nat)
    requires Fifo(s.f) && Distinct(s) && Counted(s, limit) && Enabled(s, t, Section(prep))
    ensures Sized(Next(s, t, Section(prep), limit), limit)
  {
    SectionCounts(s, t, prep, limit);
  }

  lemma CarriedSection(s: Sys, t: nat, prep: Prep, limit: nat)
    requires Fifo(s.f) && Distinct(s) && Counted(s, limit) && Enabled(s, t, Section(prep))
    ensures Carried(Next(s, t, Section(prep), limit))
  {
    SectionCounts(s, t, prep, limit);
    SectionCarries(s, t, s.pc[t], BodyOf(s.f, s.pc[t], prep, limit).send);
  }

  lemma SectionCarries(s: Sys, t: nat, p: Pc, send: Option<nat>)
    requires t in s.pc && p == s.pc[t] && Inside(p) && (send.Some? ==> send.value !in s.live) && s.device <= s.live
    requires Carried(s)
    ensures Carried(s.(pc := s.pc[t := if send.Some? then Sending(send.value, p.DeqIn?) else Idle],
                       live := s.live - Taken(if p.DeqIn? then p.done else None) + Taken(send)))
  {
  }

  lemma CarriedMove(s: Sys, t: nat, p: Pc, device: set<nat>)
    requires Carried(s) && t in s.pc
    requires Carries(p).None? || Carries(p) == Carries(s.pc[t])
        || (Carries(s.pc[t]).None? && Carries(p).value in s.device)
    requires Carries(p).Some? ==> Carries(p).value in s.live && Carries(p).value !in device
    requires forall x :: x in device ==> x in s.device || Some(x) == Carries(s.pc[t])
    ensures Carried(s.(pc := s.pc[t := p], device := device))
  {
  }

  lemma CountedOther(s: Sys, t: nat, e: Event, limit: nat)
    requires Counted(s, limit) && Enabled(s, t, e) && !e.Section?
    ensures Counted(Next(s, t, e, limit), limit)
  {
    var s' := Next(s, t, e, limit);
    CarriedMove(s, t, s'.pc[t], s'.device);
  }

  /** Some thread has taken x and not yet handed it to TGCOM_TRANSPORT. */
  ghost predicate BeingSent(s: Sys, x: nat) { exists t :: t in s.pc && s.pc[t].Sending? && s.pc[t].b == x }

  /** What was taken has been sent once, or one thread is about to send it. */
  ghost predicate SentOnce(s: Sys) {
    && NoDup(s.sent)
    && (forall x :: x in s.f.taken <==> x in s.sent || BeingSent(s, x))
    && (forall t :: t in s.pc && s.pc[t].Sending? ==> s.pc[t].b !in s.sent)
    && (forall t, u :: t in s.pc && u in s.pc && t != u && s.pc[t].Sending? && s.pc[u].Sending? ==>
          s.pc[t].b != s.pc[u].b)
  }

  lemma SectionSendsOnce(s: Sys, t: nat, body: Body)
    requires SentOnce(s) && t in s.pc && Inside(s.pc[t])
    requires body.send.Some? ==> body.send.value !in s.f.taken && body.f.taken == s.f.taken + [body.send.value]
    requires body.send.None? ==> body.f.taken == s.f.taken
    ensures SentOnce(s.(f := body.f,
        pc := s.pc[t := if body.send.Some? then Sending(body.send.value, s.pc[t].DeqIn?) else Idle]))
  {
    var pc := s.pc[t := if body.send.Some? then Sending(body.send.value, s.pc[t].DeqIn?) else Idle];
    var s' := s.(f := body.f, pc := pc);
    forall x ensures x in body.f.taken <==> x in s.sent || BeingSent(s', x) {
      assert BeingSent(s', x) <==> BeingSent(s, x) || body.send == Some(x) by {
        if BeingSent(s, x) {
          var u :| u in s.pc && s.pc[u].Sending? && s.pc[u].b == x;
          assert s'.pc[u] == s.pc[u];
        }
        assert body.send == Some(x) ==> s'.pc[t].Sending? && s'.pc[t].b == x;
      }
      assert x in body.f.taken <==> x in s.f.taken || body.send == Some(x);
    }
    forall u | u in s.pc && u != t && s.pc[u].Sending? ensures body.send != Some(s.pc[u].b) {
      assert BeingSent(s, s.pc[u].b);
    }
  }

  lemma TransportSendsOnce(s: Sys, t: nat, p: Pc, device: set<nat>)
    requires SentOnce(s) && t in s.pc && s.pc[t].Sending? && !p.Sending?
    ensures SentOnce(s.(pc := s.pc[t := p], device := device, sent := s.sent + [s.pc[t].b]))
  {
    var b := s.pc[t].b;
    var s' := s.(pc := s.pc[t := p], device := device, sent := s.sent + [b]);
    forall x ensures x in s.f.taken <==> x in s'.sent || BeingSent(s', x) {
      assert x in s'.sent <==> x in s.sent || x == b;
      if BeingSent(s, x) && x != b {
        var u :| u in s.pc && s.pc[u].Sending? && s.pc[u].b == x;
        assert s'.pc[u] == s.pc[u];
      }
      assert BeingSent(s, b);
    }
  }

  lemma OtherSendsOnce(s: Sys, s': Sys, t: nat)
    requires SentOnce(s) && t in s.pc && !s.pc[t].Sending? && t in s'.pc && s'.pc == s.pc[t := s'.pc[t]]
    requires !s'.pc[t].Sending? && s'.sent == s.sent && s'.f == s.f
    ensures SentOnce(s')
  {
    forall x ensures BeingSent(s', x) <==> BeingSent(s, x) {
      if BeingSent(s, x) {
        var u :| u in s.pc && s.pc[u].Sending? && s.pc[u].b == x;
        assert s'.pc[u] == s.pc[u];
      }
    }
  }

  lemma SentOnceKept(s: Sys, t: nat, e: Event, limit: nat)
    requires Fifo(s.f) && Distinct(s) && SentOnce(s) && Enabled(s, t, e)
    ensures SentOnce(Next(s, t, e, limit))
  {
    var s' := Next(s, t, e, limit);
    if e.Section? {
      var body := BodyOf(s.f, s.pc[t], e.p, limit);
      assert s.pc[t].EnqIn? ==> Brings(s.pc[t]) == Some(s.pc[t].b);
      TakenIsNew(s.f, s.pc[t], e.p, limit);
      SectionSendsOnce(s, t, body);
      SendsSame(s.(f := body.f, pc := s'.pc), s');
    } else if e.Transport? {
      TransportSendsOnce(s, t, s'.pc[t], s'.device);
    } else {
      OtherSendsOnce(s, s', t);
    }
  }

  lemma SendsSame(s: Sys, s': Sys)
    requires SentOnce(s) && s'.f == s.f && s'.pc == s.pc && s'.sent == s.sent
    ensures SentOnce(s')
  {
    assert forall x :: BeingSent(s', x) <==> BeingSent(s, x);
  }

  /** With one request at a time the device gets them in the order in which they came. */
  ghost predicate OneByOne(s: Sys) {
    && (forall t :: t in s.pc && s.pc[t].Sending? ==> s.f.taken == s.sent + [s.pc[t].b])
    && ((forall t :: t in s.pc ==> !s.pc[t].Sending?) ==> s.f.taken == s.sent)
  }

  lemma TwoLive(s: Sys, t: nat, u: nat, b: nat, live: set<nat>)
    requires Carried(s) && t in s.pc && Inside(s.pc[t]) && b !in s.live && u in s.pc && s.pc[u].Sending?
    requires b in live && forall x :: x in s.live && Some(x) != Carries(s.pc[t]) ==> x in live
    ensures |live| >= 2
  {
    var x := s.pc[u].b;
    assert u != t && Carries(s.pc[u]) == Some(x);
    assert {x, b} <= live && x != b;
    assert |live - {x, b}| == |live| - 2;
  }

  /** A slot for a new request means that no thread still has one to send. */
  lemma NobodySends(s: Sys, t: nat, b: nat, live: set<nat>)
    requires Carried(s) && t in s.pc && Inside(s.pc[t]) && b !in s.live
    requires b in live && |live| <= 1 && forall x :: x in s.live && Some(x) != Carries(s.pc[t]) ==> x in live
    ensures forall u :: u in s.pc ==> !s.pc[u].Sending?
  {
    forall u | u in s.pc ensures !s.pc[u].Sending? {
      if s.pc[u].Sending? { TwoLive(s, t, u, b, live); }
    }
  }

  lemma OneByOneSection(s: Sys, t: nat, prep: Prep)
    requires Fifo(s.f) && Distinct(s) && Counted(s, 1) && OneByOne(s) && Enabled(s, t, Section(prep))
    ensures OneByOne(Next(s, t, Section(prep), 1))
  {
    var body, done := BodyOf(s.f, s.pc[t], prep, 1), if s.pc[t].DeqIn? then s.pc[t].done else None;
    TakenIsNew(s.f, s.pc[t], prep, 1);
    SectionCounts(s, t, prep, 1);
    if body.send.Some? {
      NobodySends(s, t, body.send.value, s.live - Taken(done) + Taken(body.send));
    }
    SectionSends(s, t, body);
  }

  lemma SectionSends(s: Sys, t: nat, body: Body)
    requires OneByOne(s) && t in s.pc && Inside(s.pc[t])
    requires body.send.Some? ==>
               (forall u :: u in s.pc ==> !s.pc[u].Sending?) && body.f.taken == s.f.taken + [body.send.value]
    requires body.send.None? ==> body.f.taken == s.f.taken
    ensures OneByOne(s.(f := body.f,
        pc := s.pc[t := if body.send.Some? then Sending(body.send.value, s.pc[t].DeqIn?) else Idle]))
  {
    var pc := s.pc[t := if body.send.Some? then Sending(body.send.value, s.pc[t].DeqIn?) else Idle];
    assert pc[t].Sending? == body.send.Some?;
    assert forall u :: u in s.pc && u != t ==> pc[u] == s.pc[u];
  }

  lemma OneSender(s: Sys, t: nat, u: nat)
    requires Carried(s) && OneByOne(s) && t in s.pc && u in s.pc && s.pc[t].Sending? && s.pc[u].Sending?
    ensures t == u
  {
    var x, y := s.sent + [s.pc[u].b], s.sent + [s.pc[t].b];
    assert x[|s.sent|] == y[|s.sent|];
    assert Carries(s.pc[u]) == Carries(s.pc[t]);
  }

  lemma OneByOneOther(s: Sys, t: nat, e: Event)
    requires Carried(s) && OneByOne(s) && Enabled(s, t, e) && !e.Section?
    ensures OneByOne(Next(s, t, e, 1))
  {
    var s' := Next(s, t, e, 1);
    assert forall u :: u in s.pc && u != t ==> s'.pc[u] == s.pc[u];
    if e.Transport? {
      forall u | u in s'.pc ensures !s'.pc[u].Sending? {
        if s.pc[u].Sending? { OneSender(s, t, u); }
      }
    }
  }

  lemma OneByOneKept(s: Sys, t: nat, e: Event)
    requires Fifo(s.f) && Distinct(s) && Counted(s, 1) && OneByOne(s) && Enabled(s, t, e)
    ensures OneByOne(Next(s, t, e, 1))
  {
    if e.Section? { OneByOneSection(s, t, e.p); } else { OneByOneOther(s, t, e); }
  }

  // ---------------------------------------------------------------- runs

  datatype Move = Move(thread: nat, event: Event)

  ghost predicate Run(states: seq<Sys>, moves: seq<Move>, limit: nat) {
    && |states| == |moves| + 1
    && forall i :: 0 <= i < |moves| ==>
      && Enabled(states[i], moves[i].thread, moves[i].event)
      && states[i + 1] == Next(states[i], moves[i].thread, moves[i].event, limit)
  }

  ghost predicate Initial(s: Sys) {
    && s.f == Fc([], None, 0, [], []) && s.mutex.None? && s.device == {} && s.live == {} && s.known == {}
    && !s.owed && !s.silent && s.sent == []
    && forall t :: t in s.pc ==> s.pc[t].Idle?
  }

  ghost predicate Kept(s: Sys, limit: nat) {
    && Locked(s) && Fifo(s.f) && Behind(s.f, limit) && Distinct(s) && Counted(s, limit) && SentOnce(s)
    && Attended(s)
  }

  lemma FcKept(s: Sys, t: nat, e: Event, limit: nat)
    requires Fifo(s.f) && Behind(s.f, limit) && Enabled(s, t, e)
    ensures Fifo(Next(s, t, e, limit).f) && Behind(Next(s, t, e, limit).f, limit)
  {
    if e.Section? {
      match s.pc[t]
      case EnqIn(b) => EnqueKeeps(s.f, b, e.p, limit);
      case DeqIn(done) => DequeKeeps(s.f, done.Some?, e.p, limit);
      case _ =>
    }
  }

  lemma CountedKept(s: Sys, t: nat, e: Event, limit: nat)
    requires Fifo(s.f) && Distinct(s) && Counted(s, limit) && Enabled(s, t, e)
    ensures Counted(Next(s, t, e, limit), limit)
  {
    if e.Section? {
      SizedSection(s, t, e.p, limit);
      CarriedSection(s, t, e.p, limit);
    } else {
      CountedOther(s, t, e, limit);
    }
  }

  lemma CarrierCounts(s: Sys, t: nat, limit: nat)
    requires Counted(s, limit) && t in s.pc && Carries(s.pc[t]).Some?
    ensures s.f.outcnt >= 1
  {
    assert s.live != {};
  }

  lemma KeptNext(s: Sys, t: nat, e: Event, limit: nat)
    requires Kept(s, limit) && Enabled(s, t, e) && limit >= 1
    ensures Kept(Next(s, t, e, limit), limit)
  {
    LockedKept(s, t, e, limit);
    FcKept(s, t, e, limit);
    DistinctKept(s, t, e, limit);
    CountedKept(s, t, e, limit);
    SentOnceKept(s, t, e, limit);
    if Carries(s.pc[t]).Some? { CarrierCounts(s, t, limit); }
    AttendedKept(s, t, e, limit);
  }

  lemma {:induction false} RunKept(states: seq<Sys>, moves: seq<Move>, limit: nat, i: nat)
    requires Run(states, moves, limit) && Initial(states[0]) && i < |states| && limit >= 1
    ensures Kept(states[i], limit)
  {
    if i > 0 {
      RunKept(states, moves, limit, i - 1);
      KeptNext(states[i - 1], moves[i - 1].thread, moves[i - 1].event, limit);
    }
  }

  /** In every interleaving, 0 <= ds_outcnt <= limit, nothing is lost or taken twice, requests are taken
      in the order in which they came, each of them is transported once, by the thread that took it, and
      work that waits is attended to, unless a packet preparation failed silently. */
  lemma RunKeeps(states: seq<Sys>, moves: seq<Move>, limit: nat, i: nat)
    requires Run(states, moves, limit) && Initial(states[0]) && i < |states| && limit >= 1
    ensures Kept(states[i], limit)
    ensures 0 <= states[i].f.outcnt <= limit
    ensures states[i].f.taken <= states[i].f.arrived && NoDup(states[i].f.arrived)
    ensures NoDup(states[i].sent)
    ensures forall x :: x in states[i].f.taken <==> x in states[i].sent || BeingSent(states[i], x)
    ensures forall x :: x in states[i].sent ==> !BeingSent(states[i], x)
  {
    RunKept(states, moves, limit, i);
    TakenIsPrefix(states[i].f);
  }

  lemma TakenIsPrefix(f: Fc)
    requires Fifo(f)
    ensures f.taken <= f.arrived
  {
    assert f.arrived == f.taken + (Listed(f.bp) + f.q);
  }

  lemma {:induction false} RunOneByOne(states: seq<Sys>, moves: seq<Move>, i: nat)
    requires Run(states, moves, 1) && Initial(states[0]) && i < |states|
    ensures OneByOne(states[i])
  {
    if i > 0 {
      RunOneByOne(states, moves, i - 1);
      RunKeeps(states, moves, 1, i - 1);
      OneByOneKept(states[i - 1], moves[i - 1].thread, moves[i - 1].event);
    }
  }

  /** For dsngl that is also the order in which the device gets them. */
  lemma SingleSendsInOrder(states: seq<Sys>, moves: seq<Move>, i: nat)
    requires Run(states, moves, 1) && Initial(states[0]) && i < |states|
    ensures states[i].sent <= states[i].f.arrived
  {
    RunKeeps(states, moves, 1, i);
    RunOneByOne(states, moves, i);
    SentIsPrefix(states[i]);
  }

  lemma SentIsPrefix(s: Sys)
    requires OneByOne(s)
    ensures s.sent <= s.f.taken
  {
    if exists t :: t in s.pc && s.pc[t].Sending? {
      var t :| t in s.pc && s.pc[t].Sending?;
      assert s.f.taken == s.sent + [s.pc[t].b];
    }
  }

  /** All threads are out, and the device has nothing. */
  ghost predicate Quiet(s: Sys) { s.device == {} && forall t :: t in s.pc ==> s.pc[t].Idle? }

  /** Where every outstanding request is. */
  ghost predicate Located(s: Sys) {
    forall x :: x in s.live ==> x in s.device || exists t :: t in s.pc && Carries(s.pc[t]) == Some(x)
  }

  lemma LocatedKept(s: Sys, t: nat, e: Event, limit: nat)
    requires Located(s) && Enabled(s, t, e)
    ensures Located(Next(s, t, e, limit))
  {
    var s' := Next(s, t, e, limit);
    forall x | x in s'.live ensures x in s'.device || exists u :: u in s'.pc && Carries(s'.pc[u]) == Some(x) {
      if x in s.live && x !in s.device {
        var u :| u in s.pc && Carries(s.pc[u]) == Some(x);
        assert u in s'.pc && (u != t ==> s'.pc[u] == s.pc[u]);
        assert Carries(s'.pc[t]) == Some(x) || u != t || x in s'.device;
      } else {
        assert x !in s.live ==> e.Section? && Carries(s'.pc[t]) == Some(x);
        assert x in s.device && x !in s'.device ==> Carries(s'.pc[t]) == Some(x);
      }
    }
  }

  lemma {:induction false} RunLocates(states: seq<Sys>, moves: seq<Move>, limit: nat, i: nat)
    requires Run(states, moves, limit) && Initial(states[0]) && i < |states|
    ensures Located(states[i])
  {
    if i > 0 {
      RunLocates(states, moves, limit, i - 1);
      LocatedKept(states[i - 1], moves[i - 1].thread, moves[i - 1].event, limit);
    }
  }

  lemma Stepped(states: seq<Sys>, moves: seq<Move>, limit: nat, i: nat)
    requires Run(states, moves, limit) && 0 < i < |states|
    ensures var s, m := states[i - 1], moves[i - 1];
      Enabled(s, m.thread, m.event) && states[i] == Next(s, m.thread, m.event, limit)
  {
    hide Enabled, Next;
  }

  /** The requests that the device completed in the first i moves. */
  function Finished(moves: seq<Move>, i: nat): set<nat>
    requires i <= |moves|
  {
    if i == 0 then {} else
      Finished(moves, i - 1) + if moves[i - 1].event.Finish? then {moves[i - 1].event.b} else {}
  }

  ghost predicate DeviceIs(s: Sys, finished: set<nat>) {
    && (forall x :: x in s.device <==> x in s.sent && x !in finished)
    && (forall x :: x in finished ==> x in s.sent)
  }

  lemma DeviceNext(s: Sys, t: nat, e: Event, limit: nat, finished: set<nat>)
    requires SentOnce(s) && Enabled(s, t, e) && DeviceIs(s, finished)
    ensures DeviceIs(Next(s, t, e, limit), finished + if e.Finish? then {e.b} else {})
  {
    var s' := Next(s, t, e, limit);
    if e.Transport? { assert forall x :: x in s'.sent <==> x in s.sent || x == s.pc[t].b; }
    hide SentOnce;
  }

  /** The device has what was sent to it and has not completed. */
  lemma {:induction false} DeviceHas(states: seq<Sys>, moves: seq<Move>, limit: nat, i: nat)
    requires Run(states, moves, limit) && Initial(states[0]) && i < |states| && limit >= 1
    ensures DeviceIs(states[i], Finished(moves, i))
  {
    if i > 0 {
      DeviceHas(states, moves, limit, i - 1);
      RunKept(states, moves, limit, i - 1);
      Stepped(states, moves, limit, i);
      hide Run, Enabled, Next, DeviceIs;
      DeviceNext(states[i - 1], moves[i - 1].thread, moves[i - 1].event, limit, Finished(moves, i - 1));
    }
  }

  // Free slots are used.

  /** The last attempt at a packet failed. */
  ghost function Failed(states: seq<Sys>, moves: seq<Move>, limit: nat, i: nat): bool
    requires i <= |moves| <= |states|
  {
    i > 0 &&
    var s, m := states[i - 1], moves[i - 1];
    if m.event.Section? && m.thread in s.pc && Attempts(s.f, s.pc[m.thread], limit) then !m.event.p.Ready?
    else Failed(states, moves, limit, i - 1)
  }

  /** A thread that came back from a transport found the mutex taken, and nobody has looked at the queue since. */
  ghost function Missed(states: seq<Sys>, moves: seq<Move>, i: nat): bool
    requires i <= |moves| <= |states|
  {
    i > 0 &&
    var s, m := states[i - 1], moves[i - 1];
    if m.event.TryLock? && s.mutex.Some? then true
    else if m.event.Section? && m.thread in s.pc && s.pc[m.thread].DeqIn? then false
    else Missed(states, moves, i - 1)
  }

  /** A thread that will look at the queue. */
  predicate Looks(p: Pc) { p.DeqWait? || p.DeqIn? || p.TryAgain? || (p.Sending? && p.deq) }

  ghost predicate SomeoneLooks(s: Sys) { exists t :: t in s.pc && Looks(s.pc[t]) }

  /** Work waits beside a free slot. */
  predicate SlotFree(f: Fc, limit: nat) { Pending(f) && f.outcnt < limit }

  lemma OtherLooks(s: Sys, s': Sys, t: nat)
    requires SomeoneLooks(s) && t in s.pc && t in s'.pc && s'.pc == s.pc[t := s'.pc[t]]
    requires !Looks(s.pc[t]) || Looks(s'.pc[t])
    ensures SomeoneLooks(s')
  {
    var u :| u in s.pc && Looks(s.pc[u]);
    assert u == t || s'.pc[u] == s.pc[u];
  }

  /** The section of a thread that brings a request. */
  lemma EnqueLooks(s: Sys, t: nat, prep: Prep, limit: nat)
    requires Behind(s.f, limit) && Enabled(s, t, Section(prep)) && s.pc[t].EnqIn?
    requires SlotFree(s.f, limit) ==> SomeoneLooks(s)
    ensures var s' := Next(s, t, Section(prep), limit);
      SlotFree(s'.f, limit) && !(Attempts(s.f, s.pc[t], limit) && !prep.Ready?) ==> SomeoneLooks(s')
  {
    var s' := Next(s, t, Section(prep), limit);
    if SlotFree(s.f, limit) { OtherLooks(s, s', t); }
  }

  /** The section of one that looks: it goes on, or leaves for a reason. */
  lemma DequeLooks(s: Sys, t: nat, prep: Prep, limit: nat)
    requires Enabled(s, t, Section(prep)) && s.pc[t].DeqIn?
    ensures var s' := Next(s, t, Section(prep), limit);
      SlotFree(s'.f, limit) && !(Attempts(s.f, s.pc[t], limit) && !prep.Ready?) ==> SomeoneLooks(s')
  {
    assert t in Next(s, t, Section(prep), limit).pc;
  }

  lemma MoveLooks(s: Sys, t: nat, e: Event, limit: nat)
    requires Enabled(s, t, e) && !e.Section? && (SlotFree(s.f, limit) ==> SomeoneLooks(s))
    requires !(e.TryLock? && s.mutex.Some?)
    ensures var s' := Next(s, t, e, limit); SlotFree(s'.f, limit) ==> SomeoneLooks(s')
  {
    var s' := Next(s, t, e, limit);
    if SlotFree(s.f, limit) { OtherLooks(s, s', t); }
  }

  /** In every interleaving, work waits beside a free slot only while a thread is about to look at the queue,
      after a failure to prepare a packet, or after a thread found the mutex taken when it came back. */
  lemma {:induction false} SlotsUsed(states: seq<Sys>, moves: seq<Move>, limit: nat, i: nat)
    requires Run(states, moves, limit) && Initial(states[0]) && i < |states| && limit >= 1
    ensures SlotFree(states[i].f, limit) && !Failed(states, moves, limit, i) && !Missed(states, moves, i) ==>
      SomeoneLooks(states[i])
  {
    if i > 0 {
      var s, m := states[i - 1], moves[i - 1];
      SlotsUsed(states, moves, limit, i - 1);
      RunKept(states, moves, limit, i - 1);
      Stepped(states, moves, limit, i);
      hide Run, SlotFree, SomeoneLooks, Next;
      if Failed(states, moves, limit, i) || Missed(states, moves, i) {
      } else if m.event.Section? && s.pc[m.thread].DeqIn? {
        DequeLooks(s, m.thread, m.event.p, limit);
      } else if m.event.Section? && Attempts(s.f, s.pc[m.thread], limit) {
        AttemptAlone(s, m.thread, m.event.p, limit);
      } else if m.event.Section? {
        EnqueLooks(s, m.thread, m.event.p, limit);
      } else {
        MoveLooks(s, m.thread, m.event, limit);
      }
    }
  }

  /** A thread that brings a request tries for a packet only when nothing waits. */
  lemma AttemptAlone(s: Sys, t: nat, prep: Prep, limit: nat)
    requires Behind(s.f, limit) && Enabled(s, t, Section(prep)) && s.pc[t].EnqIn? && Attempts(s.f, s.pc[t], limit)
    ensures prep.Ready? ==> !SlotFree(Next(s, t, Section(prep), limit).f, limit)
  {
  }

  /** When everything is quiet, work that waits has a restart to come, or the last attempt at a packet
      failed silently: with nothing outstanding nobody else will look. */
  lemma QuietMeansOwed(states: seq<Sys>, moves: seq<Move>, limit: nat, i: nat)
    requires Run(states, moves, limit) && Initial(states[0]) && i < |states| && limit >= 1
    requires Quiet(states[i]) && Pending(states[i].f)
    ensures states[i].f.outcnt == 0 && (states[i].owed || states[i].silent)
  {
    RunKeeps(states, moves, limit, i);
    RunLocates(states, moves, limit, i);
    assert states[i].live == {};
  }

  lemma {:induction false} NeverSilent(states: seq<Sys>, moves: seq<Move>, limit: nat, i: nat)
    requires Run(states, moves, limit) && Initial(states[0]) && i < |states|
    requires forall j :: 0 <= j < i && moves[j].event.Section? ==> !moves[j].event.p.FailSilent?
    ensures !states[i].silent
  {
    if i > 0 { NeverSilent(states, moves, limit, i - 1); }
  }

  /** A silent failure leaves the request it was for waiting apart. */
  lemma SilentWaits(s: Sys, t: nat, e: Event, limit: nat)
    requires Enabled(s, t, e) && (s.silent ==> s.f.bp.Some?)
    ensures var s' := Next(s, t, e, limit); s'.silent ==> s'.f.bp.Some?
  {
  }

  lemma {:induction false} RunSilentWaits(states: seq<Sys>, moves: seq<Move>, limit: nat, i: nat)
    requires Run(states, moves, limit) && Initial(states[0]) && i < |states|
    ensures states[i].silent ==> states[i].f.bp.Some?
  {
    if i > 0 {
      RunSilentWaits(states, moves, limit, i - 1);
      SilentWaits(states[i - 1], moves[i - 1].thread, moves[i - 1].event, limit);
    }
  }

  /** Work waits in a quiet state with nobody to come for it exactly when the last attempt at a packet
      failed silently and no restart is owed. */
  lemma StalledExactly(states: seq<Sys>, moves: seq<Move>, limit: nat, i: nat)
    requires Run(states, moves, limit) && Initial(states[0]) && i < |states| && limit >= 1
    ensures var s := states[i]; Quiet(s) ==> (Pending(s.f) && !s.owed <==> s.silent && !s.owed)
  {
    RunSilentWaits(states, moves, limit, i);
    if Quiet(states[i]) && Pending(states[i].f) { QuietMeansOwed(states, moves, limit, i); }
  }

  /** So a driver whose packet preparation never fails without a restart never stalls. */
  lemma NoStall(states: seq<Sys>, moves: seq<Move>, limit: nat, i: nat)
    requires Run(states, moves, limit) && Initial(states[0]) && i < |states| && limit >= 1
    requires forall j :: 0 <= j < i && moves[j].event.Section? ==> !moves[j].event.p.FailSilent?
    ensures Quiet(states[i]) && Pending(states[i].f) ==> states[i].owed
  {
    NeverSilent(states, moves, limit, i);
    StalledExactly(states, moves, limit, i);
  }

  lemma RunGrows(states: seq<Sys>, moves: seq<Move>, t: nat, e: Event, limit: nat)
    returns (states': seq<Sys>, moves': seq<Move>)
    requires Run(states, moves, limit) && Enabled(states[|moves|], t, e)
    ensures Run(states', moves', limit) && states'[0] == states[0]
    ensures states'[|moves'|] == Next(states[|moves|], t, e, limit)
  {
    var s := states[|moves|];
    states', moves' := states + [Next(s, t, e, limit)], moves + [Move(t, e)];
  }

  /** But one silent failure with nothing outstanding does stall it. */
  lemma SilentFailureStalls() returns (states: seq<Sys>, moves: seq<Move>)
    ensures Run(states, moves, 1) && Initial(states[0])
    ensures var s := states[|moves|]; Quiet(s) && Pending(s.f) && !s.owed
  {
    states, moves := [Sys(Fc([], None, 0, [], []), None, map[0 := Idle], {}, {}, {}, false, false, [])], [];
    states, moves := RunGrows(states, moves, 0, Call(7), 1);
    states, moves := RunGrows(states, moves, 0, Lock, 1);
    states, moves := RunGrows(states, moves, 0, Section(FailSilent), 1);
  }

  /** A request waits apart, the device has nothing, and every thread that is inside is only bringing a
      request. */
  ghost predicate Stalled(s: Sys) {
    && s.f.bp.Some? && s.device == {}
    && forall t :: t in s.pc ==> s.pc[t].Idle? || s.pc[t].EnqWait? || s.pc[t].EnqIn?
  }

  lemma StalledStep(s: Sys, t: nat, e: Event, limit: nat)
    requires Stalled(s) && Enabled(s, t, e) && !e.Restart?
    ensures var s' := Next(s, t, e, limit);
      && Stalled(s') && s'.sent == s.sent && s'.f.taken == s.f.taken && s'.f.bp == s.f.bp
      && s.f.q <= s'.f.q && s'.silent == s.silent && s'.owed == s.owed
  {
  }

  /** Such a state is a stall for good: in every run from it, however many requests come, nothing is ever
      taken or sent, unless the restart function is called. */
  lemma {:induction false} StalledForGood(states: seq<Sys>, moves: seq<Move>, limit: nat, i: nat)
    requires Run(states, moves, limit) && Stalled(states[0]) && i < |states|
    requires forall j :: 0 <= j < i ==> !moves[j].event.Restart?
    ensures var s0, s := states[0], states[i];
      Stalled(s) && s.sent == s0.sent && s.f.taken == s0.f.taken && s.f.bp == s0.f.bp && s0.f.q <= s.f.q
  {
    if i > 0 {
      StalledForGood(states, moves, limit, i - 1);
      StalledStep(states[i - 1], moves[i - 1].thread, moves[i - 1].event, limit);
    }
  }

  /** The quiet states in which work waits and no restart is owed are such states. */
  lemma QuietStallIsForGood(states: seq<Sys>, moves: seq<Move>, limit: nat, i: nat)
    requires Run(states, moves, limit) && Initial(states[0]) && i < |states| && limit >= 1
    requires Quiet(states[i]) && Pending(states[i].f) && !states[i].owed
    ensures Stalled(states[i])
  {
    StalledExactly(states, moves, limit, i);
    RunSilentWaits(states, moves, limit, i);
  }

  /** With two slots or more a thread can overtake another between mutex_exit and the transport, so only the
      order of taking is the order of arrival. */
  lemma TwoMayPass(limit: nat) returns (states: seq<Sys>, moves: seq<Move>)
    requires limit >= 2
    ensures Run(states, moves, limit) && Initial(states[0])
    ensures states[|moves|].f.arrived == [1, 2] && states[|moves|].sent == [2, 1]
  {
    var s0 := Sys(Fc([], None, 0, [], []), None, map[0 := Idle, 1 := Idle], {}, {}, {}, false, false, []);
    states, moves := [s0], [];
    states, moves := Submits(states, moves, 0, 1, limit);
    states, moves := Submits(states, moves, 1, 2, limit);
    hide Run;
    states, moves := RunGrows(states, moves, 1, Transport, limit);
    states, moves := RunGrows(states, moves, 0, Transport, limit);
  }

  /** A thread brings a request and takes it. */
  lemma Submits(states: seq<Sys>, moves: seq<Move>, t: nat, b: nat, limit: nat)
    returns (states': seq<Sys>, moves': seq<Move>)
    requires Run(states, moves, limit)
    requires var s := states[|moves|];
      t in s.pc && s.pc[t].Idle? && b !in s.known && s.mutex.None? && s.f.outcnt < limit && s.f.bp.None?
    ensures Run(states', moves', limit) && states'[0] == states[0]
    ensures var s, s' := states[|moves|], states'[|moves'|];
      && s'.f == s.f.(outcnt := s.f.outcnt + 1, arrived := s.f.arrived + [b], taken := s.f.taken + [b])
      && s'.pc == s.pc[t := Sending(b, false)] && s'.mutex.None? && s'.known == s.known + {b} && s'.sent == s.sent
  {
    hide Run;
    states', moves' := RunGrows(states, moves, t, Call(b), limit);
    states', moves' := RunGrows(states', moves', t, Lock, limit);
    states', moves' := RunGrows(states', moves', t, Section(Ready), limit);
  }

  ghost predicate SendsInOrder(limit: nat) {
    forall states: seq<Sys>, moves: seq<Move> :: Run(states, moves, limit) && Initial(states[0]) ==>
      states[|moves|].sent <= states[|moves|].f.arrived
  }

  /** The device gets requests in the order of arrival, in every run, exactly when the limit is one. */
  lemma InOrderExactly(limit: nat)
    requires limit >= 1
    ensures SendsInOrder(limit) <==> limit == 1
  {
    if limit == 1 {
      forall states: seq<Sys>, moves: seq<Move> | Run(states, moves, 1) && Initial(states[0])
        ensures states[|moves|].sent <= states[|moves|].f.arrived
      {
        SingleSendsInOrder(states, moves, |moves|);
      }
    } else {
      var states, moves := TwoMayPass(limit);
      assert states[|moves|].sent[0] != states[|moves|].f.arrived[0];
    }
  }

  // ---------------------------------------------------------------- the driver's own code

  /** dsngl_deque and dmult_deque when nobody interferes: preps has what each pass finds, and
      mutex_tryenter fails after the last one. */
  function Drain(f: Fc, done: bool, preps: seq<Prep>, limit: nat): (r: (Fc, seq<nat>))
    decreases |preps|
  {
    if preps == [] then (f, [])
    else
      var body := Deque(f, done, preps[0], limit);
      if body.send.None? then (body.f, [])
      else
        var r := Drain(body.f, false, preps[1..], limit);
        (r.0, [body.send.value] + r.1)
  }

  /** f' is f after handing out sent, from the front of what waited. */
  ghost predicate HandsOut(f: Fc, sent: seq<nat>, f': Fc) {
    && f'.arrived == f.arrived && f'.taken == f.taken + sent
    && Listed(f.bp) + f.q == sent + (Listed(f'.bp) + f'.q)
  }

  lemma HandsOutTwice(f: Fc, p: seq<nat>, f1: Fc, q: seq<nat>, f2: Fc)
    requires HandsOut(f, p, f1) && HandsOut(f1, q, f2)
    ensures HandsOut(f, p + q, f2)
  {
    var rest := Listed(f2.bp) + f2.q;
    assert p + (q + rest) == (p + q) + rest;
  }

  predicate MustWait(f: Fc, p: Prep, limit: nat) { !Pending(f) || !p.Ready? || f.outcnt >= limit }

  /** What a drain hands out is the front of what waited, and it goes on until nothing waits, the limit is
      reached, a packet is missing or the mutex is not free. */
  lemma {:induction false} DrainTakesFront(f: Fc, done: bool, preps: seq<Prep>, limit: nat)
    ensures var r := Drain(f, done, preps, limit);
      HandsOut(f, r.1, r.0) && (|r.1| < |preps| ==> MustWait(r.0, preps[|r.1|], limit))
    decreases |preps|
  {
    if preps != [] {
      var body := Deque(f, done, preps[0], limit);
      DequeFront(f, done, preps[0], limit);
      if body.send.Some? {
        var r := Drain(body.f, false, preps[1..], limit);
        DrainTakesFront(body.f, false, preps[1..], limit);
        HandsOutTwice(f, [body.send.value], body.f, r.1, r.0);
        assert |r.1| < |preps[1..]| ==> preps[1..][|r.1|] == preps[|r.1| + 1];
      }
    }
  }

  lemma DequeFront(f: Fc, done: bool, p: Prep, limit: nat)
    ensures var r := Deque(f, done, p, limit);
      HandsOut(f, Listed(r.send), r.f) && (r.send.None? ==> MustWait(r.f, p, limit))
  {
    FetchKeeps(f);
    FetchKeeps(Fetched(f).(bp := None));
  }

  lemma FetchKeeps(f: Fc)
    ensures f.bp.None? ==> Listed(Fetch(f).bp) + Fetch(f).q == f.q
  {
    assert f.q != [] ==> f.q == [f.q[0]] + f.q[1..];
  }

  /** struct fc_data with its FIFO queue. */
  class FcData {
    var q: seq<nat>
    var bp: Option<nat>
    var outcnt: int
    const waitcnt: nat
    ghost var arrived: seq<nat>
    ghost var taken: seq<nat>

    constructor (limit: nat)
      ensures View() == Fc([], None, 0, [], []) && waitcnt == limit
    {
      q, bp, outcnt, waitcnt := [], None, 0, limit;
      arrived, taken := [], [];
    }

    ghost function View(): Fc reads this { Fc(q, bp, outcnt, arrived, taken) }

    /** que_del */
    method QueDel() returns (b: Option<nat>)
      modifies `q
      ensures b == (if old(q) == [] then None else Some(old(q)[0])) && q == if old(q) == [] then [] else old(q)[1..]
    {
      if q == [] {
        return None;
      }
      b := Some(q[0]);
      q := q[1..];
    }

    /** dmult_enque; dsngl_enque is the same with a limit of one. */
    method EnqueCall(b: nat, prep: Prep) returns (send: Option<nat>)
      modifies this
      ensures Body(View(), send) == Enque(old(View()), b, prep, waitcnt)
    {
      arrived := arrived + [b];
      if outcnt >= waitcnt || bp.Some? {
        q := q + [b];
        return None;
      }
      if prep != Ready {
        bp := Some(b);
        return None;
      }
      outcnt := outcnt + 1;
      taken := taken + [b];
      send := Some(b);
    }

    /** A pass of the loop of dmult_deque. */
    method Pass(prep: Prep) returns (send: Option<nat>)
      modifies this
      ensures Body(View(), send) == Deque(old(View()), false, prep, waitcnt)
    {
      if bp.None? {
        bp := QueDel();
      }
      if bp.None? || prep != Ready || outcnt >= waitcnt {
        return None;
      }
      outcnt := outcnt + 1;
      send := bp;
      taken := taken + [bp.value];
      bp := QueDel();
    }

    /** dmult_deque; dsngl_deque is the same with a limit of one. */
    method DequeCall(done: bool, preps: seq<Prep>) returns (sent: seq<nat>)
      requires preps != []
      modifies this
      ensures (View(), sent) == Drain(old(View()), done, preps, waitcnt)
    {
      hide Drain;
      ghost var goal := Drain(View(), done, preps, waitcnt);
      if done {
        outcnt := outcnt - 1;
      }
      DoneFirst(old(View()), done, preps, waitcnt);
      sent := [];
      var k := 0;
      assert preps[0..] == preps;
      while k < |preps|
        invariant k <= |preps| && Joined(sent, Drain(View(), false, preps[k..], waitcnt)) == goal
      {
        DrainPass(View(), preps, k, waitcnt, sent);
        var send := Pass(preps[k]);
        if send.None? {
          return;
        }
        sent := sent + [send.value];
        k := k + 1;
      }
      DrainEnds(View(), preps[k..], waitcnt, sent);
    }
  }

  function Joined(sent: seq<nat>, r: (Fc, seq<nat>)): (Fc, seq<nat>) { (r.0, sent + r.1) }

  lemma DoneFirst(f: Fc, done: bool, preps: seq<Prep>, limit: nat)
    requires preps != []
    ensures Joined([], Drain(if done then f.(outcnt := f.outcnt - 1) else f, false, preps, limit)) ==
            Drain(f, done, preps, limit)
  {
    var f' := if done then f.(outcnt := f.outcnt - 1) else f;
    assert Deque(f', false, preps[0], limit) == Deque(f, done, preps[0], limit);
    var r := Drain(f', false, preps, limit);
    assert [] + r.1 == r.1;
  }

  lemma DrainEnds(f: Fc, preps: seq<Prep>, limit: nat, sent: seq<nat>)
    requires preps == []
    ensures Joined(sent, Drain(f, false, preps, limit)) == (f, sent)
  {
    assert sent + [] == sent;
  }

  lemma DrainPass(f: Fc, preps: seq<Prep>, k: nat, limit: nat, sent: seq<nat>)
    requires k < |preps|
    ensures var body := Deque(f, false, preps[k], limit);
      Joined(sent, Drain(f, false, preps[k..], limit)) ==
        if body.send.None? then (body.f, sent)
        else Joined(sent + [body.send.value], Drain(body.f, false, preps[k + 1..], limit))
  {
    assert preps[k..][1..] == preps[k + 1..];
    var body := Deque(f, false, preps[k], limit);
    if body.send.Some? {
      var r := Drain(body.f, false, preps[k + 1..], limit);
      assert sent + ([body.send.value] + r.1) == (sent + [body.send.value]) + r.1;
    } else {
      assert Drain(f, false, preps[k..], limit) == (body.f, []);
      assert sent + [] == sent;
    }
  }
}
