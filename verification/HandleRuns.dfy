/** What holds of one handle over every run of the two actors. */
module HandleRuns {
  import opened FileModel
  import opened Coalescing
  import opened Buffers
  import opened HandleProtocol
  import opened WriteThrough
  import opened AppendOnce

  ghost predicate Inv(h: Handle) {
    && Conserved(h) && Roles(h) && InBounds(h)
    && Loud(h) && NoneLost(h)
    && WritesThrough(h)
    && AppendsLogged(h) && InBatchOrder(h) && BatchBytes(h.led)
  }

  lemma InvFresh(append: bool, base: Content)
    ensures Inv(Fresh(append, base))
  {
  }

  lemma {:induction false} InvStep(h: Handle, e: Event)
    requires Inv(h) && Enabled(h, e)
    ensures Inv(Next(h, e))
  {
    hide Conserved, Roles, InBounds, Loud, NoneLost, WritesThrough, AppendsLogged, InBatchOrder, BatchBytes, Next,
      Enabled;
    ConservedStep(h, e);
    RolesStep(h, e);
    BoundsStep(h, e);
    LoudStep(h, e);
    NoneLostStep(h, e);
    WritesThroughStep(h, e);
    AppendsLoggedStep(h, e);
    InBatchOrderStep(h, e);
    BatchBytesStep(h, e);
  }

  lemma InvIsConserved(h: Handle)
    requires Inv(h)
    ensures Conserved(h) && InBounds(h)
  {
    hide Conserved, Roles, InBounds, Loud, NoneLost, WritesThrough, AppendsLogged, InBatchOrder, BatchBytes;
  }

  // ----- consequences of the invariant -----

  lemma DrainedIsWrittenThrough(h: Handle)
    requires Inv(h) && !h.append && h.alone && h.led.ordered && Intact(h.led) && h.buf.None?
    ensures h.file == ApplyAll(h.led.base, Payload(h.led.accepted))
  {
    assert Payload(h.Queue()) == [];
  }

  /** Chunk `i` is queued, or acked by a flush that sent it, or dropped; and if dropped with bytes
      in it, then reported, pending or about to be marked. */
  ghost predicate Accounted(h: Handle, i: nat) {
    var l := h.led;
    && i < |l.accepted|
    && if i < |l.fates| then
         || l.fates[i] == Acked
         || (l.fates[i] == Dropped
             && (l.accepted[i].run.data != [] ==>
                   i < l.reported || h.sticky || (h.bg.Marking? && h.bg.lost.Some? && i <= h.bg.lost.value)))
       else i - |l.fates| < |h.Queue()| && h.Queue()[i - |l.fates|] == l.accepted[i]
  }

  predicate IsLost(l: Ledger, i: nat) {
    i < |l.fates| && l.fates[i] == Lost
  }

  lemma EveryChunkIsAccounted(h: Handle, i: nat)
    requires Inv(h) && i < |h.led.accepted|
    ensures Accounted(h, i) <==> !IsLost(h.led, i)
  {
  }

  /** Everything with bytes accepted since the last error reply has been acked. */
  ghost predicate SafeSinceLastError(l: Ledger) {
    forall i :: l.reported <= i < |l.accepted| && l.accepted[i].run.data != [] ==>
                  i < |l.fates| && l.fates[i] == Acked
  }

  /** Some chunk with bytes accepted since the last error reply was removed by the ack of a flush
      that had never sent it. */
  ghost predicate LossUnreported(l: Ledger) {
    exists i: nat :: IsLost(l, i) && l.reported <= i < |l.accepted| && l.accepted[i].run.data != []
  }

  /** An Ok from `flush_reply` means every chunk accepted since the last error reply was acked,
      except in the one window the two locks leave open (the background task has dropped a
      chunk accepted since then and not yet set the sticky error) and after an ack that removed
      such a chunk without having sent it. */
  lemma {:induction false} OkReplyIsExact(h: Handle)
    requires Inv(h) && h.fuse.Replying?
    requires Drains(h)
    requires FlushReply(h.fuse.err, h.sticky).None?
    ensures SafeSinceLastError(h.led) <==>
            && !(h.bg.Marking? && h.bg.lost.Some? && h.led.reported <= h.bg.lost.value)
            && !LossUnreported(h.led)
  {
    hide WritesThrough, AppendsLogged, InBatchOrder, BatchBytes, InBounds, NoneLost, Roles;
    var l := h.led;
    if !LossUnreported(l) {
      forall i | l.reported <= i < |l.accepted| && l.accepted[i].run.data != []
        ensures i < |l.fates| && l.fates[i] != Lost
      {
        assert !IsLost(l, i);
      }
    }
  }

  /** While the FUSE thread is replying without a direct error the queue is empty. */
  predicate Drains(h: Handle) {
    h.fuse.Replying? && h.fuse.err.None? ==> h.buf.None?
  }

  lemma DrainsStep(h: Handle, e: Event)
    requires Conserved(h) && Drains(h) && Enabled(h, e)
    ensures Drains(Next(h, e))
  {
  }

  /** Answering Ok with no error ever reported and nothing about to be marked: nothing with bytes
      was dropped. */
  lemma OkWithoutErrorsIsIntact(h: Handle)
    requires Inv(h) && h.fuse.Replying? && FlushReply(h.fuse.err, h.sticky).None?
    requires h.led.reported == 0 && !(h.bg.Marking? && h.bg.lost.Some?)
    ensures Intact(h.led)
  {
  }

  /** No chunk is in two batches, and each batch landed a prefix of its own chunks' bytes. */
  ghost predicate SentOnce(l: Ledger) {
    LandsPrefixes(l) && Disjoint(l.batches)
  }

  /** Each batch landed a prefix of its own chunks' bytes in stable offset order. */
  ghost predicate LandsPrefixes(l: Ledger) {
    forall b :: 0 <= b < |l.batches| ==>
                  && l.batches[b].from + l.batches[b].count <= |l.accepted|
                  && l.batches[b].landed <= SortedBytes(l.accepted, l.batches[b].from, l.batches[b].count)
  }

  lemma AppendsLandPrefixes(h: Handle)
    requires Inv(h) && h.append
    ensures LandsPrefixes(h.led)
  {
    var l := h.led;
    forall b | 0 <= b < |l.batches|
      ensures && l.batches[b].from + l.batches[b].count <= |l.accepted|
              && l.batches[b].landed <= SortedBytes(l.accepted, l.batches[b].from, l.batches[b].count)
    {
      assert BatchOk(|l.accepted|, |l.fates|, l.batches[b]) && BatchIs(l.accepted, l.batches[b]);
    }
  }

  /** While no reopen drops the queue under a background flush the guard keeps flushes apart. */
  lemma UndisturbedNeverResends(h: Handle, who: Who)
    requires Inv(h) && h.append && h.led.undisturbed && Enabled(h, Begin(who))
    ensures !Resends(h, who)
  {
  }

  /** So until then no chunk is in two batches. */
  ghost predicate ApartWhileQuiet(h: Handle) {
    h.append && h.led.undisturbed ==> Disjoint(h.led.batches)
  }

  lemma StaysDisturbed(h: Handle, e: Event)
    requires Enabled(h, e)
    ensures Next(h, e).led.undisturbed ==> h.led.undisturbed
    ensures Next(h, e).append == h.append
  {
    hide Store, Enqueued, AckedEntry, FailedEntry, LastWithData, Repeat, AckFates, SentInOrder, FlushReply;
  }

  lemma ApartStep(h: Handle, e: Event)
    requires Inv(h) && ApartWhileQuiet(h) && Enabled(h, e)
    ensures ApartWhileQuiet(Next(h, e))
  {
    hide Disjoint, Next, Enabled, Resends, Conserved, Roles, InBounds, Loud, NoneLost, WritesThrough, AppendsLogged,
      InBatchOrder, BatchBytes;
    StaysDisturbed(h, e);
    if h.append && h.led.undisturbed {
      DisjointStep(h, e);
      if e.Begin? {
        UndisturbedNeverResends(h, e.who);
      }
    }
  }

  // ----- which steps lose a chunk -----

  lemma FatesKept(h: Handle, e: Event)
    requires Enabled(h, e) && !e.Finish? && !e.Fail? && !e.ReopenDrop? && !e.AgeDrop?
    ensures Next(h, e).led.fates == h.led.fates
  {
    hide Store, Enqueued, Snapshot, Payload, DataOf, FlushReply, FinishStep, FailStep, ReopenDropStep, AgeDropStep;
  }

  lemma DropsLoseNone(h: Handle, e: Event, i: nat)
    requires Enabled(h, e) && (e.Fail? || e.ReopenDrop? || e.AgeDrop?)
    ensures IsLost(Next(h, e).led, i) <==> IsLost(h.led, i)
  {
    hide Store, LastWithData;
    assert Next(h, e).led.fates == h.led.fates + Repeat(Dropped, |h.Queue()|) || Next(h, e).led.fates == h.led.fates;
  }

  lemma {:induction false} LostStep(h: Handle, e: Event, i: nat)
    requires Conserved(h) && InBounds(h) && Enabled(h, e)
    ensures IsLost(Next(h, e).led, i) <==>
            IsLost(h.led, i) || (e.Finish? && Loses(h.led, h.Queue(), h.Actor(e.who).flight, i))
  {
    hide Conserved, InBounds, Next, Loses;
    match e {
      case Finish(who) => FinishLoses(h, who, i);
      case Fail(_, _) => DropsLoseNone(h, e, i);
      case ReopenDrop => DropsLoseNone(h, e, i);
      case AgeDrop => DropsLoseNone(h, e, i);
      case _ => FatesKept(h, e);
    }
  }

  lemma FinishLoses(h: Handle, who: Who, i: nat)
    requires Conserved(h) && InBounds(h) && Enabled(h, Finish(who))
    ensures IsLost(Next(h, Finish(who)).led, i) <==>
            IsLost(h.led, i) || Loses(h.led, h.Queue(), h.Actor(who).flight, i)
  {
    AckFate(h, who, i);
  }

  // ----- when write-back stops being write-through -----

  ghost predicate Overlaid(h: Handle) {
    ApplyAll(h.file, Payload(h.Queue())) == ApplyAll(h.led.base, Payload(h.led.accepted))
  }

  /** Nothing with bytes was dropped, no ack reordered and nobody else wrote to the file. */
  ghost predicate Unbroken(h: Handle)
    requires |h.led.fates| <= |h.led.accepted|
  {
    h.alone && h.led.ordered && Intact(h.led)
  }

  /** The step acks chunks that the sort reordered visibly, drops chunks whose bytes are not all in
      the file, or lands bytes of another handle that the queue leaves visible. */
  ghost predicate Breaks(h: Handle, e: Event) {
    match e
    case Finish(who) => h.Actor(who).Sending? && Reorders(h.Queue(), h.Actor(who).flight)
    case AgeDrop => !AlreadyThere(h.file, Payload(h.Queue()))
    case Intrude(file) => ApplyAll(file, Payload(h.Queue())) != ApplyAll(h.file, Payload(h.Queue()))
    case _ => false
  }

  lemma UnbrokenIsOverlaid(h: Handle)
    requires Inv(h) && !h.append && Unbroken(h)
    ensures Overlaid(h)
  {
    hide Roles, InBounds, Loud, NoneLost, AppendsLogged, InBatchOrder, BatchBytes, ApplyAll, Payload, Carried, Intact;
  }

  lemma FinishBreaks(h: Handle, who: Who)
    requires Inv(h) && !h.append && Unbroken(h) && Enabled(h, Finish(who))
    ensures Overlaid(FinishStep(h, who)) <==> !Reorders(h.Queue(), h.Actor(who).flight)
  {
    hide Loud, NoneLost, Reorders, Intact, AppendsLogged, InBatchOrder, BatchBytes, ApplyAll, Payload, FinishStep;
    AckKeepsIff(h, who);
  }

  lemma DropBreaks(h: Handle)
    requires Overlaid(h)
    ensures Overlaid(AgeDropStep(h)) <==> AlreadyThere(h.file, Payload(h.Queue()))
  {
    assert Payload(AgeDropStep(h).Queue()) == [];
    NothingAddedIff(h.file, Payload(h.Queue()));
    hide Payload, AlreadyThere, LostBy, LedgerDrop;
  }

  lemma IntrusionBreaks(h: Handle, file: Content)
    requires Overlaid(h)
    ensures Overlaid(Next(h, Intrude(file))) <==> !Breaks(h, Intrude(file))
  {
    hide ApplyAll, Payload;
  }

  lemma OthersKeepUnbroken(h: Handle, e: Event)
    requires !h.append && Conserved(h) && Unbroken(h) && Enabled(h, e) && !e.Finish? && !e.AgeDrop? && !e.Intrude?
    requires Conserved(Next(h, e))
    ensures !Next(h, e).append && Unbroken(Next(h, e))
  {
    hide Store, LastWithData, FlushReply, FlightOf, LedgerAck;
  }

  /** Exactly the steps by which write-back stops being write-through. */
  lemma {:induction false} BreaksIff(h: Handle, e: Event)
    requires Inv(h) && !h.append && |h.led.fates| <= |h.led.accepted| && Unbroken(h) && Enabled(h, e)
    ensures Overlaid(Next(h, e)) <==> !Breaks(h, e)
  {
    hide Inv, Unbroken, Overlaid, Reorders, AlreadyThere, Payload, ApplyAll, AcceptStep, BeginStep, DeliverStep,
      FailStep, FinishStep, ReopenDropStep, AgeDropStep, ReplyStep;
    UnbrokenIsOverlaid(h);
    match e {
      case Finish(who) => FinishBreaks(h, who);
      case AgeDrop => DropBreaks(h);
      case Intrude(file) => IntrusionBreaks(h, file);
      case _ => OthersKeepOverlaid(h, e);
    }
  }

  lemma OthersKeepOverlaid(h: Handle, e: Event)
    requires Inv(h) && !h.append && |h.led.fates| <= |h.led.accepted| && Unbroken(h) && Enabled(h, e)
    requires !e.Finish? && !e.AgeDrop? && !e.Intrude?
    ensures Overlaid(Next(h, e))
  {
    hide Inv, Unbroken, Overlaid, Next, Conserved, InBounds, Enabled;
    InvStep(h, e);
    InvIsConserved(h);
    InvIsConserved(Next(h, e));
    OthersKeepUnbroken(h, e);
    ConservedBounds(Next(h, e));
    UnbrokenIsOverlaid(Next(h, e));
  }

  lemma ConservedBounds(h: Handle)
    requires Conserved(h)
    ensures |h.led.fates| <= |h.led.accepted|
  {
  }

  // ----- when no ack reorders -----

  /** Every write overlapping a queued chunk starts no lower than it. */
  ghost predicate WritesAscend(h: Handle, e: Event) {
    e.Accept? ==> forall i :: 0 <= i < |h.Queue()| && Overlap(h.Queue()[i].run, e.c.run) ==>
                                h.Queue()[i].run.offset <= e.c.run.offset
  }

  /** What is queued ascends, and so did whatever is being sent. */
  ghost predicate QueueAscends(h: Handle) {
    && h.led.ordered && OverlapsAscend(Payload(h.Queue()))
    && (h.fuse.Sending? ==> SentInOrder(h.led.accepted, h.fuse.flight))
    && (h.bg.Sending? ==> SentInOrder(h.led.accepted, h.bg.flight))
  }

  lemma AscendsAccept(q: seq<Chunk>, c: Chunk)
    requires OverlapsAscend(Payload(q))
    requires forall i :: 0 <= i < |q| && Overlap(q[i].run, c.run) ==> q[i].run.offset <= c.run.offset
    ensures OverlapsAscend(Payload(q + [c]))
  {
    PayloadPush(q, c);
  }

  lemma AscendsTail(q: seq<Chunk>, n: nat)
    requires OverlapsAscend(Payload(q)) && n <= |q|
    ensures OverlapsAscend(Payload(q[n..]))
  {
    assert forall i :: 0 <= i < |q| - n ==> Payload(q[n..])[i] == Payload(q)[n + i];
  }

  lemma StillInOrder(l: Ledger, fl: Flight, c: Chunk)
    requires Bounded(l, fl) && SentInOrder(l.accepted, fl)
    ensures SentInOrder(l.accepted + [c], fl)
  {
    hide OrderSafeUnder, Payload;
    var end := fl.from + fl.count;
    assert (l.accepted + [c])[fl.from..end] == l.accepted[fl.from..end];
    assert (l.accepted + [c])[end..] == l.accepted[end..] + [c];
    PayloadPush(l.accepted[end..], c);
    SafeUnderMore(Payload(l.accepted[fl.from..end]), Payload(l.accepted[end..]), c.run);
  }

  lemma AscendsOnAccept(h: Handle, c: Chunk)
    requires InBounds(h) && QueueAscends(h) && h.fuse.Resting? && WritesAscend(h, Accept(c))
    ensures QueueAscends(AcceptStep(h, c))
  {
    AscendsAccept(h.Queue(), c);
    if h.bg.Sending? {
      StillInOrder(h.led, h.bg.flight, c);
    }
    hide OverlapsAscend, SentInOrder, Payload;
    assert AcceptStep(h, c).Queue() == h.Queue() + [c];
  }

  lemma AscendsOnBegin(h: Handle, who: Who)
    requires Conserved(h) && QueueAscends(h) && Enabled(h, Begin(who))
    ensures QueueAscends(BeginStep(h, who))
  {
    AscendingIsSafe(Payload(h.Queue()));
    assert h.led.accepted[|h.led.fates|..|h.led.fates| + |h.Queue()|] == h.Queue();
    SafeIsSafeUnder(Payload(h.Queue()), Payload(h.led.accepted[|h.led.accepted|..]));
    hide OverlapsAscend, OrderSafe, OrderSafeUnder, Payload, Snapshot, DataOf;
    assert SentInOrder(h.led.accepted, FlightOf(h.led, h.Queue()));
  }

  lemma AscendsOnFinish(h: Handle, who: Who)
    requires QueueAscends(h) && Enabled(h, Finish(who))
    ensures QueueAscends(FinishStep(h, who))
  {
    hide OverlapsAscend, OrderSafeUnder, Payload, SentInOrder, AckFates;
    var n := AckRemoves(h.Actor(who).flight, h.Queue());
    AscendsTail(h.Queue(), n);
    assert FinishStep(h, who).Queue() == h.Queue()[n..];
  }

  lemma AscendsOnDrop(h: Handle, e: Event)
    requires QueueAscends(h) && Enabled(h, e) && (e.Fail? || e.ReopenDrop? || e.AgeDrop?)
    ensures QueueAscends(Next(h, e))
  {
    hide OverlapsAscend, OrderSafeUnder, Payload, SentInOrder, Store, LastWithData;
    AscendsTail(h.Queue(), |h.Queue()|);
    assert Next(h, e).Queue() == h.Queue()[|h.Queue()|..] || Next(h, e).Queue() == h.Queue();
  }

  lemma AscendsOtherwise(h: Handle, e: Event)
    requires QueueAscends(h) && Enabled(h, e)
    requires !e.Accept? && !e.Begin? && !e.Finish? && !e.Fail? && !e.ReopenDrop? && !e.AgeDrop?
    ensures QueueAscends(Next(h, e))
  {
    hide OverlapsAscend, OrderSafeUnder, Payload, Store;
  }

  lemma {:induction false} QueueAscendsStep(h: Handle, e: Event)
    requires Conserved(h) && InBounds(h) && QueueAscends(h) && Enabled(h, e) && WritesAscend(h, e)
    ensures QueueAscends(Next(h, e))
  {
    hide Conserved, InBounds, QueueAscends, AcceptStep, BeginStep, DeliverStep, FailStep, FinishStep, ReopenDropStep,
      AgeDropStep, ReplyStep;
    match e {
      case Accept(c) => AscendsOnAccept(h, c);
      case Begin(who) => AscendsOnBegin(h, who);
      case Finish(who) => AscendsOnFinish(h, who);
      case Fail(_, _) => AscendsOnDrop(h, e);
      case ReopenDrop => AscendsOnDrop(h, e);
      case AgeDrop => AscendsOnDrop(h, e);
      case _ => AscendsOtherwise(h, e);
    }
  }
}
