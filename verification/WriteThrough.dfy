/** Positioned handles: whatever the two actors do, the server file overlaid with the queue is
    the file that writing every accepted chunk straight through would have left. */
module WriteThrough {
  import opened FileModel
  import opened Coalescing
  import opened Buffers
  import opened HandleProtocol

  /** Nothing with bytes in it was dropped. */
  ghost predicate Intact(l: Ledger)
    requires |l.fates| <= |l.accepted|
  {
    forall i :: 0 <= i < |l.fates| && l.fates[i] == Dropped ==> l.accepted[i].run.data == []
  }

  ghost function Covered(l: Ledger, fl: Flight): seq<Run>
    requires fl.from + fl.count <= |l.accepted|
  {
    Payload(l.accepted[fl.from..fl.from + fl.count])
  }

  /** The flight sends its chunks' snapshot and, unless others wrote to the file, the runs sent so
      far are in it; an orphaned flight carries nothing that matters. */
  ghost predicate Carried(h: Handle, fl: Flight)
    requires Conserved(h) && FlightOk(h, fl)
  {
    && fl.runs == Snapshot(Covered(h.led, fl))
    && (h.alone ==> ApplyAll(h.file, fl.runs[..fl.sent]) == h.file)
    && (h.buf.None? && Intact(h.led) ==> Bytes(fl.runs) == 0)
  }

  /** The file overlaid with the queue is the file overlaid with every accepted write. */
  ghost predicate Refines(h: Handle)
    requires Conserved(h)
  {
    h.alone && h.led.ordered && Intact(h.led) ==>
      ApplyAll(h.file, Payload(h.Queue())) == ApplyAll(h.led.base, Payload(h.led.accepted))
  }

  ghost predicate WritesThrough(h: Handle)
    requires Conserved(h) && Roles(h)
  {
    !h.append ==>
      && Refines(h)
      && (h.fuse.Sending? ==> Carried(h, h.fuse.flight))
      && (h.bg.Sending? ==> Carried(h, h.bg.flight))
  }

  lemma PayloadPush(cs: seq<Chunk>, c: Chunk)
    ensures Payload(cs + [c]) == Payload(cs) + [c.run]
  {
  }

  lemma PayloadSplit(cs: seq<Chunk>, n: nat)
    requires n <= |cs|
    ensures Payload(cs[..n]) + Payload(cs[n..]) == Payload(cs)
  {
  }

  lemma RefinesAccept(h: Handle, c: Chunk)
    requires Conserved(h) && Refines(h)
    ensures Conserved(AcceptStep(h, c)) && Refines(AcceptStep(h, c))
  {
    ConservedAccept(h, c);
    var h' := AcceptStep(h, c);
    if h'.alone && h'.led.ordered && Intact(h'.led) {
      assert Intact(h.led);
      assert h'.Queue() == h.Queue() + [c];
      PayloadPush(h.Queue(), c);
      PayloadPush(h.led.accepted, c);
      ApplyAllConcat(h.file, Payload(h.Queue()), [c.run]);
      ApplyAllConcat(h.led.base, Payload(h.led.accepted), [c.run]);
    }
  }

  lemma FinishHead(h: Handle, fl: Flight)
    requires Conserved(h) && FlightOk(h, fl) && h.buf.Some?
    ensures fl.count <= |h.Queue()| && h.led.accepted[fl.from..fl.from + fl.count] == h.Queue()[..fl.count]
    ensures h.led.accepted[fl.from + fl.count..] == h.Queue()[fl.count..]
  {
  }

  lemma CoveredIsHead(h: Handle, fl: Flight)
    requires Conserved(h) && FlightOk(h, fl) && h.buf.Some?
    ensures fl.count <= |h.Queue()| && Covered(h.led, fl) == Payload(h.Queue()[..fl.count])
  {
    hide Payload;
    FinishHead(h, fl);
  }

  /** Whatever part of a flight reaches the file stays on positions the queue will overwrite. */
  lemma {:induction false} FlightStaysUnderQueue(h: Handle, fl: Flight, p: Run, k: nat)
    requires Conserved(h) && FlightOk(h, fl) && h.buf.Some? && fl.runs == Snapshot(Covered(h.led, fl))
    requires k < |fl.runs| && forall i: nat :: p.Covers(i) ==> fl.runs[k].Covers(i)
    ensures ApplyAll(WriteAt(h.file, p), Payload(h.Queue())) == ApplyAll(h.file, Payload(h.Queue()))
  {
    var q := h.Queue();
    CoveredIsHead(h, fl);
    PayloadSplit(q, fl.count);
    hide *;
    forall i: nat | p.Covers(i)
      ensures ByteOf(Payload(q), i).Some?
    {
      CoverImplies(fl.runs, k, i);
      SnapshotCovers(Payload(q[..fl.count]), i);
      ByteOfConcat(Payload(q[..fl.count]), Payload(q[fl.count..]), i);
    }
    Absorbs(h.file, p, Payload(q));
  }

  lemma EmptyWriteKeeps(f: Content, p: Run)
    requires p.data == []
    ensures WriteAt(f, p) == f
  {
  }

  /** Landing part of the flight's next run keeps the refinement. */
  lemma RefinesLand(h: Handle, fl: Flight, p: Run)
    requires !h.append && Conserved(h) && FlightOk(h, fl) && Carried(h, fl) && Refines(h)
    requires fl.sent < |fl.runs| && p.offset == fl.runs[fl.sent].offset && p.data <= fl.runs[fl.sent].data
    ensures Conserved(Land(h, fl, p)) && Refines(Land(h, fl, p))
  {
    if h.buf.Some? {
      FlightStaysUnderQueue(h, fl, p, fl.sent);
    } else if Intact(h.led) {
      BytesBoundEach(fl.runs, fl.sent);
      EmptyWriteKeeps(h.file, p);
    }
  }

  lemma NextRunStays(f: Content, runs: seq<Run>, n: nat)
    requires n < |runs| && ApplyAll(f, runs[..n]) == f
    ensures ApplyAll(WriteAt(f, runs[n]), runs[..n + 1]) == WriteAt(f, runs[n])
  {
    var r, upto := runs[n], runs[..n + 1];
    assert upto[..n] == runs[..n];
    forall i: nat | r.Covers(i)
      ensures ByteOf(upto, i).Some?
    {
      CoverImplies(upto, n, i);
    }
    Absorbs(f, r, upto);
  }

  lemma CarriedAdvance(h: Handle, fl: Flight, h': Handle)
    requires Conserved(h) && FlightOk(h, fl) && Carried(h, fl) && fl.sent < |fl.runs|
    requires Conserved(h') && FlightOk(h', fl.(sent := fl.sent + 1))
    requires h'.buf == h.buf && h'.alone == h.alone
    requires h'.led.accepted == h.led.accepted && h'.led.fates == h.led.fates
    requires h'.file == WriteAt(h.file, fl.runs[fl.sent])
    ensures Carried(h', fl.(sent := fl.sent + 1))
  {
    if h.alone {
      NextRunStays(h.file, fl.runs, fl.sent);
    }
    hide ApplyAll, WriteAt, Payload, Snapshot, Bytes;
    assert Covered(h'.led, fl.(sent := fl.sent + 1)) == Covered(h.led, fl);
    assert Intact(h'.led) == Intact(h.led);
  }

  lemma CarriedDeliver(h: Handle, who: Who)
    requires !h.append && Conserved(h) && Roles(h) && Enabled(h, Deliver(who))
    requires Carried(h, h.Actor(who).flight)
    requires var h' := DeliverStep(h, who); Conserved(h') && Roles(h')
    ensures var h' := DeliverStep(h, who); Carried(h', h'.Actor(who).flight)
  {
    hide ApplyAll, WriteAt, Payload, Snapshot, OrderSafeUnder, Bytes, Intact, Covered;
    CarriedAdvance(h, h.Actor(who).flight, DeliverStep(h, who));
  }

  lemma RefinesFail(h: Handle, who: Who, k: nat)
    requires !h.append && Conserved(h) && Roles(h) && WritesThrough(h) && Enabled(h, Fail(who, k))
    ensures Conserved(FailStep(h, who, k)) && Refines(FailStep(h, who, k))
  {
    var fl := h.Actor(who).flight;
    RefinesLand(h, fl, Cut(fl.runs[fl.sent], k));
    ConservedFail(h, who, k);
    assert FailStep(h, who, k).Queue() == h.Queue();
  }

  /** Once the snapshot of the first `n` chunks is in the file they add nothing to the rest of the
      queue if and only if they are order-safe where the rest does not cover them. */
  lemma {:induction false} SentPrefixIsIdle(f: Content, q: seq<Chunk>, n: nat)
    requires n <= |q| && ApplyAll(f, Snapshot(Payload(q[..n]))) == f
    ensures ApplyAll(f, Payload(q[n..])) == ApplyAll(f, Payload(q)) <==>
            OrderSafeUnder(Payload(q[..n]), Payload(q[n..]))
  {
    PayloadSplit(q, n);
    hide Payload;
    AckIsExact(f, Payload(q[..n]), Payload(q[n..]));
  }

  lemma IntactEarlier(l: Ledger, l': Ledger)
    requires |l.fates| <= |l.accepted| && |l'.fates| <= |l'.accepted|
    requires l.accepted == l'.accepted && l.fates <= l'.fates && Intact(l')
    ensures Intact(l)
  {
    forall i | 0 <= i < |l.fates| && l.fates[i] == Dropped
      ensures l.accepted[i].run.data == []
    {
      assert l'.fates[i] == Dropped;
    }
  }

  /** The ack of `fl` removes chunks that are not order-safe where the rest of the queue leaves them
      uncovered. */
  ghost predicate Reorders(queue: seq<Chunk>, fl: Flight) {
    0 < fl.count <= |queue| && !OrderSafeUnder(Payload(queue[..fl.count]), Payload(queue[fl.count..]))
  }

  lemma AckOrders(h: Handle, who: Who)
    requires !h.append && Conserved(h) && Roles(h) && Enabled(h, Finish(who))
    ensures FinishStep(h, who).led.ordered <==> h.led.ordered && !Reorders(h.Queue(), h.Actor(who).flight)
  {
    hide Payload, OrderSafeUnder, AckFates, LastWithData;
    if h.buf.Some? {
      FinishHead(h, h.Actor(who).flight);
    }
  }

  /** Exactly when an ack keeps the queue over the file equal to every accepted write over the
      original. */
  lemma {:induction false} AckKeepsIff(h: Handle, who: Who)
    requires !h.append && Conserved(h) && Roles(h) && WritesThrough(h) && Enabled(h, Finish(who))
    requires h.alone && h.led.ordered && Intact(h.led)
    ensures var h' := FinishStep(h, who);
            ApplyAll(h'.file, Payload(h'.Queue())) == ApplyAll(h'.led.base, Payload(h'.led.accepted)) <==>
            !Reorders(h.Queue(), h.Actor(who).flight)
  {
    hide ApplyAll, WriteAt, Payload, Snapshot, OrderSafeUnder, Bytes, Intact, AckFates;
    var h', fl := FinishStep(h, who), h.Actor(who).flight;
    if h.buf.Some? {
      FinishHead(h, fl);
      assert fl.runs[..fl.sent] == fl.runs;
      SentPrefixIsIdle(h.file, h.Queue(), fl.count);
      assert h'.Queue() == h.Queue()[fl.count..];
    }
  }

  lemma RefinesFinish(h: Handle, who: Who)
    requires !h.append && Conserved(h) && Roles(h) && WritesThrough(h) && Enabled(h, Finish(who))
    requires Conserved(FinishStep(h, who))
    ensures Refines(FinishStep(h, who))
  {
    hide ApplyAll, WriteAt, Payload, Snapshot, OrderSafeUnder, Bytes, Intact, AckFates;
    var h' := FinishStep(h, who);
    if h'.alone && h'.led.ordered && Intact(h'.led) {
      IntactEarlier(h.led, h'.led);
      AckOrders(h, who);
      AckKeepsIff(h, who);
    }
  }

  lemma EmptyQueueKeeps(f: Content, cs: seq<Chunk>)
    requires forall i :: 0 <= i < |cs| ==> cs[i].run.data == []
    ensures ApplyAll(f, Payload(cs)) == f && Bytes(Payload(cs)) == 0
  {
    BytesZero(Payload(cs));
    SameBytesSameFile(f, Payload(cs), []);
  }

  lemma DroppedAreEmpty(h: Handle)
    requires Conserved(h) && Conserved(DropQueue(h)) && Intact(DropQueue(h).led)
    ensures forall i :: 0 <= i < |h.Queue()| ==> h.Queue()[i].run.data == []
  {
    var n, d := |h.led.fates|, DropQueue(h);
    forall i | 0 <= i < |h.Queue()|
      ensures h.Queue()[i].run.data == []
    {
      assert h.Queue()[i] == h.led.accepted[n + i];
      assert d.led.fates[n + i] == Dropped;
    }
  }

  lemma AgeDropRefines(h: Handle)
    requires Conserved(h) && Refines(h) && Conserved(AgeDropStep(h))
    ensures Refines(AgeDropStep(h))
  {
    var h' := AgeDropStep(h);
    if Intact(h'.led) {
      IntactEarlier(h.led, h'.led);
      DroppedAreEmpty(h);
      EmptyQueueKeeps(h.file, h.Queue());
      assert Payload(h'.Queue()) == [];
    }
  }

  lemma EmptyHeadSendsNothing(f: Content, q: seq<Chunk>, n: nat)
    requires n <= |q| && forall i :: 0 <= i < |q| ==> q[i].run.data == []
    ensures Bytes(Snapshot(Payload(q[..n]))) == 0
  {
    hide Payload, Snapshot, Bytes, ApplyAll;
    EmptyQueueKeeps(f, q[..n]);
    SnapshotMeansSortedChunks(f, Payload(q[..n]));
  }

  /** A flight whose queue was dropped without loss carries no bytes. */
  lemma OrphanIsEmpty(h: Handle, fl: Flight)
    requires Conserved(h) && FlightOk(h, fl) && h.buf.Some? && fl.runs == Snapshot(Covered(h.led, fl))
    requires Conserved(DropQueue(h)) && Intact(DropQueue(h).led)
    ensures Bytes(fl.runs) == 0
  {
    CoveredIsHead(h, fl);
    DroppedAreEmpty(h);
    hide *;
    EmptyHeadSendsNothing(h.file, h.Queue(), fl.count);
  }

  lemma AgeDropKeeps(h: Handle)
    requires !h.append && Conserved(h) && Roles(h) && WritesThrough(h) && h.bg.Resting?
    requires Conserved(AgeDropStep(h)) && Roles(AgeDropStep(h))
    ensures WritesThrough(AgeDropStep(h))
  {
    var h' := AgeDropStep(h);
    AgeDropRefines(h);
    if Intact(h'.led) && h.fuse.Sending? {
      if h.buf.Some? {
        OrphanIsEmpty(h, h.fuse.flight);
      } else {
        IntactEarlier(h.led, h'.led);
      }
    }
  }

  lemma CoveredAccept(l: Ledger, fl: Flight, c: Chunk)
    requires fl.from + fl.count <= |l.accepted|
    ensures Covered(l.(accepted := l.accepted + [c]), fl) == Covered(l, fl)
  {
    assert (l.accepted + [c])[fl.from..fl.from + fl.count] == l.accepted[fl.from..fl.from + fl.count];
  }

  lemma CarriedAccept(h: Handle, c: Chunk)
    requires !h.append && Conserved(h) && Roles(h) && WritesThrough(h) && h.fuse.Resting?
    requires Conserved(AcceptStep(h, c)) && Roles(AcceptStep(h, c))
    ensures WritesThrough(AcceptStep(h, c))
  {
    RefinesAccept(h, c);
    if h.bg.Sending? {
      CoveredAccept(h.led, h.bg.flight, c);
    }
  }

  lemma CarriedBegin(h: Handle, who: Who)
    requires !h.append && Conserved(h) && Roles(h) && WritesThrough(h) && Enabled(h, Begin(who))
    requires Conserved(BeginStep(h, who)) && Roles(BeginStep(h, who))
    ensures WritesThrough(BeginStep(h, who))
  {
    var h' := BeginStep(h, who);
    assert h.led.accepted[|h.led.fates|..|h.led.accepted|] == h.Queue();
    assert Covered(h'.led, h'.Actor(who).flight) == Payload(h.Queue());
    assert h'.Actor(who).flight.runs[..0] == [];
    assert h'.Queue() == h.Queue();
    assert Intact(h'.led) ==> Intact(h.led);
  }

  lemma CarriedSent(h: Handle, who: Who)
    requires !h.append && Conserved(h) && Roles(h) && WritesThrough(h) && Enabled(h, Deliver(who))
    requires Conserved(DeliverStep(h, who)) && Roles(DeliverStep(h, who))
    ensures WritesThrough(DeliverStep(h, who))
  {
    hide ApplyAll, WriteAt, Payload, Snapshot, OrderSafeUnder, Bytes, Intact, Covered;
    var fl := h.Actor(who).flight;
    RefinesLand(h, fl, fl.runs[fl.sent]);
    CarriedDeliver(h, who);
  }

  lemma CarriedFail(h: Handle, who: Who, k: nat)
    requires !h.append && Conserved(h) && Roles(h) && WritesThrough(h) && Enabled(h, Fail(who, k))
    requires Conserved(FailStep(h, who, k)) && Roles(FailStep(h, who, k))
    ensures WritesThrough(FailStep(h, who, k))
  {
    hide Refines, Carried;
    RefinesFail(h, who, k);
  }

  lemma CarriedFinish(h: Handle, who: Who)
    requires !h.append && Conserved(h) && Roles(h) && WritesThrough(h) && Enabled(h, Finish(who))
    requires Conserved(FinishStep(h, who)) && Roles(FinishStep(h, who))
    ensures WritesThrough(FinishStep(h, who))
  {
    hide Refines, Carried;
    RefinesFinish(h, who);
  }

  lemma CarriedFlags(h: Handle, e: Event)
    requires !h.append && Conserved(h) && Roles(h) && WritesThrough(h) && Enabled(h, e)
    requires e.Refuse? || e.Mark? || e.Drained? || e.DrainFailed? || e.Reply? || e.Intrude?
    requires Conserved(Next(h, e)) && Roles(Next(h, e))
    ensures WritesThrough(Next(h, e))
  {
    hide ApplyAll, WriteAt, Payload, Snapshot, OrderSafeUnder, Bytes;
  }

  lemma StaysPositioned(h: Handle, e: Event)
    requires Enabled(h, e)
    ensures Next(h, e).append == h.append
  {
  }

  lemma {:induction false} WritesThroughStep(h: Handle, e: Event)
    requires Conserved(h) && Roles(h) && WritesThrough(h) && Enabled(h, e)
    ensures Conserved(Next(h, e)) && Roles(Next(h, e)) && WritesThrough(Next(h, e))
  {
    ConservedStep(h, e);
    RolesStep(h, e);
    StaysPositioned(h, e);
    if !h.append {
      hide Conserved, Roles, WritesThrough, AcceptStep, BeginStep, DeliverStep, FailStep, FinishStep, ReopenDropStep,
        AgeDropStep, ReplyStep;
      match e {
        case Accept(c) => CarriedAccept(h, c);
        case Begin(who) => CarriedBegin(h, who);
        case Deliver(who) => CarriedSent(h, who);
        case Fail(who, k) => CarriedFail(h, who, k);
        case Finish(who) => CarriedFinish(h, who);
        case AgeDrop => AgeDropKeeps(h);
        case ReopenDrop =>
        case _ => CarriedFlags(h, e);
      }
    }
  }

  /** `n` whole runs and `k` bytes of the next. */
  function Interrupted(f: Content, runs: seq<Run>, n: nat, k: nat): Content
    requires n <= |runs| && (k == 0 || (n < |runs| && k <= |runs[n].data|))
  {
    var g := ApplyAll(f, runs[..n]);
    if k == 0 then g else WriteAt(g, Cut(runs[n], k))
  }

  lemma {:induction false} CoveredPartIsAbsorbed(f: Content, batch: seq<Run>, n: nat, k: nat, later: seq<Run>)
    requires n <= |batch| && (k == 0 || (n < |batch| && k <= |batch[n].data|))
    requires forall i: nat :: ByteOf(batch, i).Some? ==> ByteOf(later, i).Some?
    ensures ApplyAll(Interrupted(f, batch, n, k), later) == ApplyAll(f, later)
  {
    if k > 0 {
      forall i: nat | Cut(batch[n], k).Covers(i)
        ensures ByteOf(later, i).Some?
      {
        CoverImplies(batch, n, i);
      }
      Absorbs(ApplyAll(f, batch[..n]), Cut(batch[n], k), later);
      CoveredPartIsAbsorbed(f, batch, n, 0, later);
    } else if n > 0 {
      assert batch[..n][..n - 1] == batch[..n - 1];
      forall i: nat | batch[n - 1].Covers(i)
        ensures ByteOf(later, i).Some?
      {
        CoverImplies(batch, n - 1, i);
      }
      Absorbs(ApplyAll(f, batch[..n - 1]), batch[n - 1], later);
      CoveredPartIsAbsorbed(f, batch, n - 1, 0, later);
    }
  }

  /** Replay absorption: after `n` runs of a batch and `k` bytes of the next have landed, sending
      a later snapshot that still holds those chunks gives the file that snapshot alone gives,
      length and holes included, however the chunks overlap. */
  lemma {:induction false} ReplayIsAbsorbed(f: Content, chunks: seq<Run>, newer: seq<Run>, n: nat, k: nat)
    requires n <= |Snapshot(chunks)|
    requires k == 0 || (n < |Snapshot(chunks)| && k <= |Snapshot(chunks)[n].data|)
    ensures ApplyAll(Interrupted(f, Snapshot(chunks), n, k), Snapshot(chunks + newer))
            == ApplyAll(f, Snapshot(chunks + newer))
  {
    forall i: nat | ByteOf(Snapshot(chunks), i).Some?
      ensures ByteOf(Snapshot(chunks + newer), i).Some?
    {
      SnapshotCovers(chunks, i);
      ByteOfConcat(chunks, newer, i);
      SnapshotCovers(chunks + newer, i);
    }
    CoveredPartIsAbsorbed(f, Snapshot(chunks), n, k, Snapshot(chunks + newer));
  }
}
