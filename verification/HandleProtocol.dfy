/** One open handle under the write-back protocol: the FUSE thread and the background task
    share its queue, its send guard and its sticky error, and send to one server file.

    Every accepted write keeps its place in `accepted` for good. The queue is always the tail
    of that list, so a chunk is either still queued or has a fate. */
module HandleProtocol {
  import opened FileModel
  import opened Coalescing
  import opened Buffers

  // ----- history -----

  /** `Acked`: removed by the ack of a flush that sent it. `Dropped`: discarded by
      `drop_handle`. `Lost`: removed by the ack of a flush that had never sent it. */
  datatype Fate = Acked | Dropped | Lost

  /** A flush that began: the chunks it covers, all the bytes it is to send in the order it
      sends them, and those that landed. */
  datatype Batch = Batch(from: nat, count: nat, whole: seq<Byte>, landed: seq<Byte>)

  /** Bytes of a batch reaching the server. */
  datatype Landing = Landing(batch: nat, data: seq<Byte>)

  datatype Ledger = Ledger(
    base: Content,         // the file when the handle was opened
    accepted: seq<Chunk>,  // every write acknowledged to the application
    fates: seq<Fate>,      // what became of those no longer queued
    reported: nat,         // how many were accepted at the last error reply
    ordered: bool,         // no ack so far reordered
    undisturbed: bool,     // no reopen dropped the queue under a background flush
    batches: seq<Batch>,
    landings: seq<Landing>)

  function Opened(base: Content): Ledger {
    Ledger(base, [], [], 0, true, true, [], [])
  }

  function Repeat(x: Fate, n: nat): (s: seq<Fate>)
    ensures |s| == n && forall i :: 0 <= i < n ==> s[i] == x
  {
    if n == 0 then [] else Repeat(x, n - 1) + [x]
  }

  function LedgerDrop(l: Ledger, n: nat): Ledger {
    l.(fates := l.fates + Repeat(Dropped, n))
  }

  function LedgerBegin(l: Ledger, queued: seq<Chunk>): Ledger {
    l.(batches := l.batches + [Batch(|l.fates|, |queued|, DataOf(Snapshot(Payload(queued))), [])])
  }

  function LedgerLand(l: Ledger, fl: Flight, data: seq<Byte>): Ledger {
    if fl.batch < |l.batches|
    then l.(batches := l.batches[fl.batch := l.batches[fl.batch].(landed := l.batches[fl.batch].landed + data)],
      landings := l.landings + [Landing(fl.batch, data)])
    else l
  }

  /** Fates of `n` chunks from place `start` on, removed by the ack of `fl`. */
  function AckFates(fl: Flight, start: nat, n: nat): (s: seq<Fate>)
    ensures |s| == n
    ensures forall j :: 0 <= j < n ==> s[j] == if fl.from <= start + j < fl.from + fl.count then Acked else Lost
  {
    if n == 0 then []
    else
      AckFates(fl, start, n - 1)
      + [if fl.from <= start + n - 1 < fl.from + fl.count then Acked else Lost]
  }

  /** The chunks the flight sent are order-safe where no chunk accepted after them covers them. */
  ghost predicate SentInOrder(accepted: seq<Chunk>, fl: Flight) {
    var end := fl.from + fl.count;
    end <= |accepted| ==> OrderSafeUnder(Payload(accepted[fl.from..end]), Payload(accepted[end..]))
  }

  ghost function LedgerAck(l: Ledger, fl: Flight, removed: nat): Ledger {
    l.(fates := l.fates + AckFates(fl, |l.fates|, removed),
    ordered := l.ordered && (removed == 0 || SentInOrder(l.accepted, fl)))
  }

  // ----- the two actors -----

  /** A snapshot in transit: `sent` of its runs have been acknowledged. */
  datatype Flight = Flight(batch: nat, from: nat, count: nat, runs: seq<Run>, sent: nat)

  /** What an actor is doing with this handle. `Marking` is the background task between
      dropping the queue and setting the sticky error (two locks); `lost` is the last chunk
      with bytes in it. `Replying` is the FUSE thread between draining and taking the sticky error. */
  datatype Actor = Resting | Sending(flight: Flight) | Marking(lost: Option<nat>) | Replying(err: Option<int>)

  datatype Who = Fuse | Background

  datatype Handle = Handle(
    append: bool,
    file: Content,
    buf: Option<HandleBuf>,
    sticky: bool,
    fuse: Actor,
    bg: Actor,
    led: Ledger,
    alone: bool)           // nobody else's bytes reached the file since it was opened
  {
    function Actor(who: Who): Actor {
      if who.Fuse? then fuse else bg
    }

    function Other(who: Who): Actor {
      if who.Fuse? then bg else fuse
    }

    function Becomes(who: Who, a: Actor): Handle {
      if who.Fuse? then this.(fuse := a) else this.(bg := a)
    }

    function Queue(): seq<Chunk> {
      Queued(buf)
    }
  }

  const EIO: int := 5

  /** `flush_reply`: a direct error wins, then a sticky one. */
  function FlushReply(flushErr: Option<int>, hadSticky: bool): Option<int> {
    match flushErr
    case Some(errno) => Some(errno)
    case None => if hadSticky then Some(EIO) else None
  }

  /** The server's write: at the offset, or at end of file for O_APPEND. */
  function Store(append: bool, f: Content, r: Run): Content {
    if append then f + r.data else WriteAt(f, r)
  }

  function Cut(r: Run, k: nat): Run
    requires k <= |r.data|
  {
    Run(r.offset, r.data[..k])
  }

  function LastWithData(cs: seq<Chunk>): (k: Option<nat>)
    ensures k.Some? ==> k.value < |cs| && cs[k.value].run.data != []
    ensures forall i :: 0 <= i < |cs| && cs[i].run.data != [] ==> k.Some? && i <= k.value
  {
    if cs == [] then None
    else if cs[|cs| - 1].run.data != [] then Some(|cs| - 1)
    else LastWithData(cs[..|cs| - 1])
  }

  function LostBy(l: Ledger, queue: seq<Chunk>): Option<nat> {
    match LastWithData(queue)
    case None => None
    case Some(k) => Some(|l.fates| + k)
  }

  // ----- steps -----

  datatype Event =
    | Accept(c: Chunk)               // write(): pushed and acknowledged
    | Refuse                         // write(): hard cap, EIO and sticky
    | Begin(who: Who)                // begin_flush
    | Deliver(who: Who)              // the next run's Write RPC is acknowledged
    | Fail(who: Who, k: nat)         // the next run's Write RPC fails after k bytes landed
    | Finish(who: Who)               // ack_flush
    | ReopenDrop                     // ensure_live reopened an O_APPEND handle
    | AgeDrop                        // the background task drops an overaged queue
    | Mark                           // ... and then sets the sticky error
    | Drained                        // flush_handle_drain saw an empty queue
    | DrainFailed(errno: int)        // flush_handle_drain gave up
    | Reply                          // flush()/fsync() takes the sticky error and replies
    | Intrude(file: Content)         // a flush of a released handle lands in the file

  predicate Enabled(h: Handle, e: Event) {
    match e
    case Accept(_) => h.fuse.Resting?
    case Refuse => h.fuse.Resting?
    case Begin(who) => h.Actor(who).Resting? && CanBegin(h.buf)
    case Deliver(who) =>
      && h.Actor(who).Sending?
      && var fl := h.Actor(who).flight; fl.sent < |fl.runs| && fl.runs[fl.sent].data != []
    case Fail(who, k) =>
      && h.Actor(who).Sending?
      && var fl := h.Actor(who).flight; fl.sent < |fl.runs| && k <= |fl.runs[fl.sent].data|
    case Finish(who) => h.Actor(who).Sending? && h.Actor(who).flight.sent == |h.Actor(who).flight.runs|
    case ReopenDrop => h.append && h.fuse.Resting? && h.buf.Some?
    case AgeDrop => h.bg.Resting?
    case Mark => h.bg.Marking?
    case Drained => h.fuse.Resting? && Queued(h.buf) == []
    case DrainFailed(_) => h.fuse.Resting?
    case Reply => h.fuse.Replying?
    case Intrude(_) => true
  }

  function DropQueue(h: Handle): Handle {
    h.(buf := None, led := LedgerDrop(h.led, |h.Queue()|))
  }

  function FlightOf(l: Ledger, queue: seq<Chunk>): Flight {
    Flight(|l.batches|, |l.fates|, |queue|, Snapshot(Payload(queue)), 0)
  }

  function AcceptStep(h: Handle, c: Chunk): Handle {
    h.(buf := Some(Enqueued(h.buf, c)), led := h.led.(accepted := h.led.accepted + [c]))
  }

  function BeginStep(h: Handle, who: Who): Handle
    requires Enabled(h, Begin(who))
  {
    h.(buf := Some(h.buf.value.(sending := true)), led := LedgerBegin(h.led, h.Queue()))
    .Becomes(who, Sending(FlightOf(h.led, h.Queue())))
  }

  /** `r` reaches the file. */
  function Land(h: Handle, fl: Flight, r: Run): Handle {
    h.(file := Store(h.append, h.file, r), led := LedgerLand(h.led, fl, r.data))
  }

  function DeliverStep(h: Handle, who: Who): Handle
    requires Enabled(h, Deliver(who))
  {
    var fl := h.Actor(who).flight;
    Land(h, fl, fl.runs[fl.sent]).Becomes(who, Sending(fl.(sent := fl.sent + 1)))
  }

  /** A failed send: a positioned handle keeps its chunks and frees the guard; an O_APPEND
      handle drops them and goes sticky, the background task in two steps. */
  function AfterFailure(h: Handle, who: Who): Handle {
    if !h.append then h.(buf := FailedEntry(h.buf)).Becomes(who, Resting)
    else if who.Fuse? then DropQueue(h).(sticky := true, fuse := Resting)
    else DropQueue(h).(bg := Marking(LostBy(h.led, h.Queue())))
  }

  function FailStep(h: Handle, who: Who, k: nat): Handle
    requires Enabled(h, Fail(who, k))
  {
    var fl := h.Actor(who).flight;
    AfterFailure(Land(h, fl, Cut(fl.runs[fl.sent], k)), who)
  }

  ghost function FinishStep(h: Handle, who: Who): Handle
    requires Enabled(h, Finish(who))
  {
    var fl := h.Actor(who).flight;
    var removed := if fl.count < |h.Queue()| then fl.count else |h.Queue()|;
    h.(buf := AckedEntry(h.buf, fl.count), led := LedgerAck(h.led, fl, removed)).Becomes(who, Resting)
  }

  function ReopenDropStep(h: Handle): Handle {
    var d := DropQueue(h);
    d.(sticky := h.sticky || LastWithData(h.Queue()).Some?,
    led := d.led.(undisturbed := h.led.undisturbed && !h.bg.Sending?))
  }

  function AgeDropStep(h: Handle): Handle {
    var lost := LostBy(h.led, h.Queue());
    DropQueue(h).(bg := if lost.Some? then Marking(lost) else Resting)
  }

  function ReplyStep(h: Handle): Handle
    requires h.fuse.Replying?
  {
    h.(sticky := false, fuse := Resting,
    led := if FlushReply(h.fuse.err, h.sticky).Some? then h.led.(reported := |h.led.accepted|) else h.led)
  }

  ghost function Next(h: Handle, e: Event): Handle
    requires Enabled(h, e)
  {
    match e
    case Accept(c) => AcceptStep(h, c)
    case Refuse => h.(sticky := true)
    case Begin(who) => BeginStep(h, who)
    case Deliver(who) => DeliverStep(h, who)
    case Fail(who, k) => FailStep(h, who, k)
    case Finish(who) => FinishStep(h, who)
    case ReopenDrop => ReopenDropStep(h)
    case AgeDrop => AgeDropStep(h)
    case Mark => h.(sticky := true, bg := Resting)
    case Drained => h.(fuse := Replying(None))
    case DrainFailed(errno) => h.(fuse := Replying(Some(errno)))
    case Reply => ReplyStep(h)
    case Intrude(file) => h.(file := file, alone := false)
  }

  function Fresh(append: bool, base: Content): Handle {
    Handle(append, base, None, false, Resting, Resting, Opened(base), true)
  }

  // ----- what every step keeps -----

  /** The queue is the tail of the accepted writes: nothing is ever unaccounted for. */
  ghost predicate Conserved(h: Handle) {
    && |h.led.fates| <= |h.led.accepted|
    && h.Queue() == h.led.accepted[|h.led.fates|..]
    && (h.buf.Some? ==> h.buf.value.chunks != [])
    && h.led.reported <= |h.led.accepted|
  }

  /** Positioned, or O_APPEND and never dropped under a background flush. */
  predicate Quiet(h: Handle) {
    h.append ==> h.led.undisturbed
  }

  ghost predicate FlightOk(h: Handle, fl: Flight) {
    && 0 < fl.count && fl.from + fl.count <= |h.led.accepted|
    && fl.batch == |h.led.batches| - 1
    && h.led.batches[fl.batch].from == fl.from && h.led.batches[fl.batch].count == fl.count
    && fl.sent <= |fl.runs|
    && (h.buf.Some? ==> h.buf.value.sending && fl.from == |h.led.fates| && fl.count <= |h.buf.value.chunks|)
    && (h.buf.None? ==> fl.from + fl.count <= |h.led.fates|)
  }

  /** The send guard does its work: at most one flight, its snapshot still heads the queue, and
      the guard is never left set. */
  ghost predicate Guarded(h: Handle) {
    && (h.fuse.Sending? ==> FlightOk(h, h.fuse.flight))
    && (h.bg.Sending? ==> FlightOk(h, h.bg.flight) && h.buf.Some?)
    && !(h.fuse.Sending? && h.bg.Sending?)
    && (h.buf.Some? && h.buf.value.sending ==> h.fuse.Sending? || h.bg.Sending?)
  }

  ghost predicate Roles(h: Handle) {
    && !h.fuse.Marking? && !h.bg.Replying?
    && (Quiet(h) ==> Guarded(h))
  }

  /** A flight stands for chunks that were queued when it began, of which the first may be gone. */
  ghost predicate Bounded(l: Ledger, fl: Flight) {
    && 0 < fl.count && fl.from <= |l.fates| && fl.from + fl.count <= |l.accepted|
    && fl.batch < |l.batches| && fl.sent <= |fl.runs|
    && l.batches[fl.batch].from == fl.from && l.batches[fl.batch].count == fl.count
  }

  /** Of both actors, on every handle and whatever was dropped. */
  ghost predicate InBounds(h: Handle) {
    && (h.fuse.Sending? ==> Bounded(h.led, h.fuse.flight))
    && (h.bg.Sending? ==> Bounded(h.led, h.bg.flight))
    && (h.fuse.Sending? && h.bg.Sending? ==> h.fuse.flight.batch != h.bg.flight.batch)
  }

  /** Every dropped chunk with bytes in it has been reported, is pending as a sticky error, or
      is about to be marked. */
  ghost predicate Loud(h: Handle)
    requires Conserved(h)
  {
    && (forall i :: 0 <= i < |h.led.fates| && h.led.fates[i] == Dropped && h.led.accepted[i].run.data != [] ==>
                      || i < h.led.reported
                      || h.sticky
                      || (h.bg.Marking? && h.bg.lost.Some? && i <= h.bg.lost.value))
    && (h.bg.Marking? && h.bg.lost.Some? ==>
          && h.bg.lost.value < |h.led.fates|
          && h.led.fates[h.bg.lost.value] == Dropped
          && h.led.accepted[h.bg.lost.value].run.data != [])
  }

  ghost predicate NoneLost(h: Handle) {
    Quiet(h) ==> forall i :: 0 <= i < |h.led.fates| ==> h.led.fates[i] != Lost
  }

  /** `dropped > 0` in the source is "some dropped chunk has bytes". */
  lemma {:induction false} DroppedBytes(cs: seq<Chunk>)
    ensures Bytes(Payload(cs)) > 0 <==> LastWithData(cs).Some?
  {
    if LastWithData(cs).Some? {
      BytesBoundEach(Payload(cs), LastWithData(cs).value);
    } else {
      BytesZero(Payload(cs));
    }
  }

  lemma ConservedAccept(h: Handle, c: Chunk)
    requires Conserved(h)
    ensures Conserved(AcceptStep(h, c))
  {
    assert AcceptStep(h, c).Queue() == h.Queue() + [c];
  }

  lemma ConservedDrop(h: Handle)
    requires Conserved(h)
    ensures Conserved(DropQueue(h))
  {
  }

  lemma ConservedFinish(h: Handle, who: Who)
    requires Conserved(h) && Enabled(h, Finish(who))
    ensures Conserved(FinishStep(h, who))
  {
    var h', fl := FinishStep(h, who), h.Actor(who).flight;
    var k := if fl.count < |h.Queue()| then fl.count else |h.Queue()|;
    assert h'.Queue() == h.Queue()[k..];
  }

  lemma ConservedFail(h: Handle, who: Who, k: nat)
    requires Conserved(h) && Enabled(h, Fail(who, k))
    ensures Conserved(FailStep(h, who, k))
  {
    var fl := h.Actor(who).flight;
    ConservedDrop(Land(h, fl, Cut(fl.runs[fl.sent], k)));
  }

  lemma ConservedFlags(h: Handle, e: Event)
    requires Conserved(h) && Enabled(h, e)
    requires e.Refuse? || e.Begin? || e.Mark? || e.Drained? || e.DrainFailed? || e.Reply? || e.Intrude?
    ensures Conserved(Next(h, e))
  {
  }

  lemma ConservedDeliver(h: Handle, who: Who)
    requires Conserved(h) && Enabled(h, Deliver(who))
    ensures Conserved(DeliverStep(h, who))
  {
  }

  lemma ConservedDrops(h: Handle)
    requires Conserved(h)
    ensures Conserved(ReopenDropStep(h)) && Conserved(AgeDropStep(h))
  {
    ConservedDrop(h);
  }

  lemma {:induction false} ConservedStep(h: Handle, e: Event)
    requires Conserved(h) && Enabled(h, e)
    ensures Conserved(Next(h, e))
  {
    hide Conserved, AcceptStep, BeginStep, DeliverStep, FailStep, FinishStep, ReopenDropStep, AgeDropStep, ReplyStep;
    match e {
      case Accept(c) => ConservedAccept(h, c);
      case Deliver(who) => ConservedDeliver(h, who);
      case Fail(who, k) => ConservedFail(h, who, k);
      case Finish(who) => ConservedFinish(h, who);
      case ReopenDrop => ConservedDrops(h);
      case AgeDrop => ConservedDrops(h);
      case _ => ConservedFlags(h, e);
    }
  }

  lemma GuardedAccept(h: Handle, c: Chunk)
    requires Conserved(h) && Guarded(h) && h.fuse.Resting?
    ensures Guarded(AcceptStep(h, c))
  {
  }

  lemma GuardedBegin(h: Handle, who: Who)
    requires Conserved(h) && Guarded(h) && Enabled(h, Begin(who))
    ensures Guarded(BeginStep(h, who))
  {
  }

  lemma GuardedDeliver(h: Handle, who: Who)
    requires Guarded(h) && Enabled(h, Deliver(who))
    ensures Guarded(DeliverStep(h, who))
  {
  }

  lemma GuardedFail(h: Handle, who: Who, k: nat)
    requires Conserved(h) && Guarded(h) && Enabled(h, Fail(who, k))
    ensures Guarded(FailStep(h, who, k))
  {
  }

  lemma GuardedFinish(h: Handle, who: Who)
    requires Conserved(h) && Guarded(h) && Enabled(h, Finish(who))
    ensures Guarded(FinishStep(h, who))
  {
  }

  lemma GuardedDrop(h: Handle)
    requires Conserved(h) && Guarded(h) && !h.bg.Sending?
    ensures Guarded(DropQueue(h))
  {
  }

  lemma RolesAccept(h: Handle, c: Chunk)
    requires Conserved(h) && Roles(h) && h.fuse.Resting?
    ensures Roles(AcceptStep(h, c))
  {
    if Quiet(h) { GuardedAccept(h, c); }
  }

  lemma RolesBegin(h: Handle, who: Who)
    requires Conserved(h) && Roles(h) && Enabled(h, Begin(who))
    ensures Roles(BeginStep(h, who))
  {
    if Quiet(h) { GuardedBegin(h, who); }
  }

  lemma RolesDeliver(h: Handle, who: Who)
    requires Roles(h) && Enabled(h, Deliver(who))
    ensures Roles(DeliverStep(h, who))
  {
    if Quiet(h) { GuardedDeliver(h, who); }
  }

  lemma RolesFail(h: Handle, who: Who, k: nat)
    requires Conserved(h) && Roles(h) && Enabled(h, Fail(who, k))
    ensures Roles(FailStep(h, who, k))
  {
    if Quiet(h) { GuardedFail(h, who, k); }
  }

  lemma RolesFinish(h: Handle, who: Who)
    requires Conserved(h) && Roles(h) && Enabled(h, Finish(who))
    ensures Roles(FinishStep(h, who))
  {
    if Quiet(h) { GuardedFinish(h, who); }
  }

  lemma RolesReopenDrop(h: Handle)
    requires Conserved(h) && Roles(h) && Enabled(h, ReopenDrop)
    ensures Roles(ReopenDropStep(h))
  {
    if Quiet(ReopenDropStep(h)) { GuardedDrop(h); }
  }

  lemma RolesAgeDrop(h: Handle)
    requires Conserved(h) && Roles(h) && Enabled(h, AgeDrop)
    ensures Roles(AgeDropStep(h))
  {
    if Quiet(h) { GuardedDrop(h); }
  }

  lemma RolesFlags(h: Handle, e: Event)
    requires Roles(h) && Enabled(h, e)
    requires e.Refuse? || e.Mark? || e.Drained? || e.DrainFailed? || e.Reply? || e.Intrude?
    ensures Roles(Next(h, e))
  {
  }

  lemma {:induction false} RolesStep(h: Handle, e: Event)
    requires Conserved(h) && Roles(h) && Enabled(h, e)
    ensures Roles(Next(h, e))
  {
    hide Conserved, Roles, AcceptStep, BeginStep, DeliverStep, FailStep, FinishStep, ReopenDropStep, AgeDropStep,
      ReplyStep;
    match e {
      case Accept(c) => RolesAccept(h, c);
      case Begin(who) => RolesBegin(h, who);
      case Deliver(who) => RolesDeliver(h, who);
      case Fail(who, k) => RolesFail(h, who, k);
      case Finish(who) => RolesFinish(h, who);
      case ReopenDrop => RolesReopenDrop(h);
      case AgeDrop => RolesAgeDrop(h);
      case _ => RolesFlags(h, e);
    }
  }

  lemma LoudDrop(h: Handle, d: Handle)
    requires Conserved(h) && Loud(h) && Conserved(d)
    requires d.led == DropQueue(h).led.(undisturbed := d.led.undisturbed)
    requires d.bg == h.bg && (d.sticky || (!h.sticky && LastWithData(h.Queue()).None?))
    ensures Loud(d)
  {
    var n := |h.led.fates|;
    forall i | n <= i < |d.led.fates|
      ensures d.led.accepted[i] == h.Queue()[i - n]
    {
    }
  }

  lemma LoudMarkingDrop(h: Handle, d: Handle)
    requires Conserved(h) && Loud(h) && Conserved(d) && !h.bg.Marking?
    requires d.led == DropQueue(h).led && d.sticky == h.sticky
    requires var lost := LostBy(h.led, h.Queue()); d.bg == Marking(lost) || (lost.None? && d.bg == Resting)
    ensures Loud(d)
  {
    var n := |h.led.fates|;
    forall i | n <= i < |d.led.fates|
      ensures d.led.accepted[i] == h.Queue()[i - n]
    {
    }
  }

  lemma LoudFail(h: Handle, who: Who, k: nat)
    requires Conserved(h) && Roles(h) && Loud(h) && Enabled(h, Fail(who, k))
    ensures Conserved(FailStep(h, who, k)) && Loud(FailStep(h, who, k))
  {
    ConservedFail(h, who, k);
    var fl := h.Actor(who).flight;
    var mid := Land(h, fl, Cut(fl.runs[fl.sent], k));
    if h.append && who.Fuse? {
      LoudDrop(mid, FailStep(h, who, k));
    } else if h.append {
      LoudMarkingDrop(mid, FailStep(h, who, k));
    }
  }

  /** Steps that drop nothing and forget nothing. */
  lemma LoudFrame(h: Handle, h': Handle)
    requires Conserved(h) && Loud(h) && Conserved(h')
    requires h'.led.fates == h.led.fates && h.led.accepted <= h'.led.accepted && h'.led.reported == h.led.reported
    requires (h.sticky ==> h'.sticky) && (h.bg.Marking? ==> h'.bg == h.bg) && (h'.bg.Marking? ==> h'.bg == h.bg)
    ensures Loud(h')
  {
  }

  lemma LoudFinish(h: Handle, who: Who)
    requires Conserved(h) && Loud(h) && Enabled(h, Finish(who)) && Conserved(FinishStep(h, who))
    requires !h.fuse.Marking?
    ensures Loud(FinishStep(h, who))
  {
    var h' := FinishStep(h, who);
    assert forall i :: |h.led.fates| <= i < |h'.led.fates| ==> h'.led.fates[i] != Dropped;
    assert forall i :: 0 <= i < |h.led.fates| ==> h'.led.fates[i] == h.led.fates[i];
  }

  lemma LoudAnswers(h: Handle, e: Event)
    requires Conserved(h) && Roles(h) && Loud(h) && Enabled(h, e) && Conserved(Next(h, e))
    requires e.Mark? || e.Reply?
    ensures Loud(Next(h, e))
  {
  }

  lemma LoudKeeps(h: Handle, e: Event)
    requires Conserved(h) && Roles(h) && Loud(h) && Enabled(h, e) && Conserved(Next(h, e))
    requires e.Accept? || e.Refuse? || e.Begin? || e.Deliver? || e.Drained? || e.DrainFailed? || e.Intrude?
    ensures Loud(Next(h, e))
  {
    hide Conserved, Loud;
    LoudFrame(h, Next(h, e));
  }

  lemma LoudDrops(h: Handle)
    requires Conserved(h) && Loud(h) && Conserved(ReopenDropStep(h)) && Conserved(AgeDropStep(h))
    ensures Loud(ReopenDropStep(h)) && (h.bg.Resting? ==> Loud(AgeDropStep(h)))
  {
    LoudDrop(h, ReopenDropStep(h));
    if h.bg.Resting? {
      LoudMarkingDrop(h, AgeDropStep(h));
    }
  }

  lemma {:induction false} LoudStep(h: Handle, e: Event)
    requires Conserved(h) && Roles(h) && Loud(h) && Enabled(h, e)
    ensures Conserved(Next(h, e)) && Loud(Next(h, e))
  {
    ConservedStep(h, e);
    ConservedDrops(h);
    assert !h.fuse.Marking?;
    hide Conserved, Roles, Loud, AcceptStep, BeginStep, DeliverStep, FailStep, FinishStep, ReopenDropStep, AgeDropStep,
      ReplyStep;
    match e {
      case Fail(who, k) => LoudFail(h, who, k);
      case Finish(who) => LoudFinish(h, who);
      case ReopenDrop => LoudDrops(h);
      case AgeDrop => LoudDrops(h);
      case Mark => LoudAnswers(h, e);
      case Reply => LoudAnswers(h, e);
      case _ => LoudKeeps(h, e);
    }
  }

  lemma NoneLostFinish(h: Handle, who: Who)
    requires Conserved(h) && Roles(h) && NoneLost(h) && Enabled(h, Finish(who))
    ensures NoneLost(FinishStep(h, who))
  {
  }

  lemma NoneLostDrop(l: Ledger, n: nat)
    requires forall i :: 0 <= i < |l.fates| ==> l.fates[i] != Lost
    ensures forall i :: 0 <= i < |LedgerDrop(l, n).fates| ==> LedgerDrop(l, n).fates[i] != Lost
  {
  }

  lemma NoneLostDrops(h: Handle, e: Event)
    requires NoneLost(h) && Enabled(h, e) && (e.Fail? || e.ReopenDrop? || e.AgeDrop?)
    ensures NoneLost(Next(h, e))
  {
    if Quiet(h) {
      NoneLostDrop(h.led, |h.Queue()|);
    }
  }

  lemma NoneLostKeeps(h: Handle, e: Event)
    requires NoneLost(h) && Enabled(h, e) && !e.Fail? && !e.Finish? && !e.ReopenDrop? && !e.AgeDrop?
    ensures NoneLost(Next(h, e))
  {
  }

  lemma {:induction false} NoneLostStep(h: Handle, e: Event)
    requires Conserved(h) && Roles(h) && NoneLost(h) && Enabled(h, e)
    ensures NoneLost(Next(h, e))
  {
    hide NoneLost, Roles, Conserved, AcceptStep, BeginStep, DeliverStep, FailStep, FinishStep, ReopenDropStep,
      AgeDropStep, ReplyStep;
    match e {
      case Finish(who) => NoneLostFinish(h, who);
      case Fail(_, _) => NoneLostDrops(h, e);
      case ReopenDrop => NoneLostDrops(h, e);
      case AgeDrop => NoneLostDrops(h, e);
      case _ => NoneLostKeeps(h, e);
    }
  }

  // ----- flights on every handle -----

  lemma BoundsBegin(h: Handle, who: Who)
    requires Conserved(h) && InBounds(h) && Enabled(h, Begin(who))
    ensures InBounds(BeginStep(h, who))
  {
    hide Snapshot, DataOf, Payload;
  }

  lemma BoundsDeliver(h: Handle, who: Who)
    requires InBounds(h) && Enabled(h, Deliver(who))
    ensures InBounds(DeliverStep(h, who))
  {
    hide Store;
  }

  lemma BoundsFail(h: Handle, who: Who, k: nat)
    requires Conserved(h) && InBounds(h) && Enabled(h, Fail(who, k))
    ensures InBounds(FailStep(h, who, k))
  {
    hide Store;
  }

  lemma BoundsFinish(h: Handle, who: Who)
    requires Conserved(h) && InBounds(h) && Enabled(h, Finish(who))
    ensures InBounds(FinishStep(h, who))
  {
  }

  lemma BoundsKeep(h: Handle, e: Event)
    requires Conserved(h) && InBounds(h) && Enabled(h, e)
    requires !e.Begin? && !e.Deliver? && !e.Fail? && !e.Finish?
    ensures InBounds(Next(h, e))
  {
  }

  lemma {:induction false} BoundsStep(h: Handle, e: Event)
    requires Conserved(h) && InBounds(h) && Enabled(h, e)
    ensures InBounds(Next(h, e))
  {
    hide Conserved, InBounds, AcceptStep, BeginStep, DeliverStep, FailStep, FinishStep, ReopenDropStep, AgeDropStep,
      ReplyStep;
    match e {
      case Begin(who) => BoundsBegin(h, who);
      case Deliver(who) => BoundsDeliver(h, who);
      case Fail(who, k) => BoundsFail(h, who, k);
      case Finish(who) => BoundsFinish(h, who);
      case _ => BoundsKeep(h, e);
    }
  }

  /** What an ack by count removes. */
  function AckRemoves(fl: Flight, queue: seq<Chunk>): nat {
    if fl.count < |queue| then fl.count else |queue|
  }

  /** The ack of `fl` would remove the chunk at place `i` though it was accepted after the flush
      began. */
  predicate Loses(l: Ledger, queue: seq<Chunk>, fl: Flight, i: nat) {
    |l.fates| <= i < |l.fates| + AckRemoves(fl, queue) && fl.from + fl.count <= i
  }

  lemma AckFate(h: Handle, who: Who, i: nat)
    requires Conserved(h) && InBounds(h) && Enabled(h, Finish(who))
    ensures var fates' := FinishStep(h, who).led.fates;
            i < |fates'| ==>
              (fates'[i] == Lost <==>
                 (i < |h.led.fates| && h.led.fates[i] == Lost) || Loses(h.led, h.Queue(), h.Actor(who).flight, i))
  {
    var fl, n := h.Actor(who).flight, |h.led.fates|;
    var fates' := FinishStep(h, who).led.fates;
    assert fates' == h.led.fates + AckFates(fl, n, AckRemoves(fl, h.Queue()));
    assert n <= i < |fates'| ==> fates'[i] == AckFates(fl, n, AckRemoves(fl, h.Queue()))[i - n];
  }

  /** In any state of any handle an ack throws away a chunk its flush never sent if and only if
      something is queued, someone has removed chunks since the flush began, and something was
      pushed since. */
  lemma {:induction false} AckLosesIff(h: Handle, who: Who)
    requires Conserved(h) && InBounds(h) && Enabled(h, Finish(who))
    ensures var fl, l, l' := h.Actor(who).flight, h.led, FinishStep(h, who).led;
            (exists i :: |l.fates| <= i < |l'.fates| && l'.fates[i] == Lost) <==>
            h.Queue() != [] && fl.from < |l.fates| && fl.from + fl.count < |l.accepted|
  {
    var fl, l, l' := h.Actor(who).flight, h.led, FinishStep(h, who).led;
    var last := |l'.fates| - 1;
    assert |l'.fates| == |l.fates| + AckRemoves(fl, h.Queue());
    forall i: nat | i < |l'.fates|
      ensures |l.fates| <= i ==> (l'.fates[i] == Lost <==> Loses(l, h.Queue(), fl, i))
    {
      AckFate(h, who, i);
    }
    assert h.Queue() != [] && fl.from < |l.fates| && fl.from + fl.count < |l.accepted| ==>
        Loses(l, h.Queue(), fl, last) && l'.fates[last] == Lost;
  }
}
