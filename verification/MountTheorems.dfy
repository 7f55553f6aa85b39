/** The promises of the write-back client, over every run of it against the server. */
module MountTheorems {
  import opened FileModel
  import opened Buffers
  import opened HandleProtocol
  import opened WriteThrough
  import opened AppendOnce
  import opened HandleRuns
  import opened AppendWhole
  import opened Mount
  import opened MountRuns

  /** The file behind an open handle. */
  function FileOf(w: World, fh: Fh): Content
    requires Seen(w, fh)
  {
    w.files[w.open[fh].target.entry.path]
  }

  /** Every accepted write applied straight to the file as it was at open. */
  function WrittenThrough(l: Ledger): Content {
    ApplyAll(l.base, Payload(l.accepted))
  }

  lemma GoodIsGood(w: World, fh: Fh)
    requires Good(w) && fh in w.open
    ensures WorldOk(w) && Seen(w, fh) && Inv(View(w, fh)) && Drains(View(w, fh)) && ApartWhileQuiet(View(w, fh))
  {
    hide WorldOk, Inv, Drains, ApartWhileQuiet, Seen, View;
    assert GoodHandle(w, fh);
  }

  lemma HandleIsGood(ws: seq<World>, ss: seq<Step>, k: nat, fh: Fh)
    requires IsMountRun(ws, ss) && k < |ws| && fh in ws[k].open
    ensures WorldOk(ws[k]) && Seen(ws[k], fh) && Inv(View(ws[k], fh)) && Drains(View(ws[k], fh))
    ensures ApartWhileQuiet(View(ws[k], fh))
  {
    hide IsMountRun, Good, WorldOk, Inv, Drains, ApartWhileQuiet, Seen, View;
    RunIsGood(ws, ss, k);
    GoodIsGood(ws[k], fh);
  }

  lemma RunStep(ws: seq<World>, ss: seq<Step>, k: nat)
    requires IsMountRun(ws, ss) && k < |ss|
    ensures Good(ws[k]) && Allowed(ws[k], ss[k]) && ws[k + 1] == After(ws[k], ss[k])
  {
    hide Good, Allowed, After, Start;
    RunIsGood(ws, ss, k);
  }

  lemma StartIsEmpty(ws: seq<World>, ss: seq<Step>)
    requires IsMountRun(ws, ss)
    ensures |ws| == |ss| + 1 && ws[0].open == map[]
  {
  }

  // ----- write-back against write-through -----

  /** Write-back refines write-through: on a positioned handle, whatever was sent, interrupted,
      replayed or acked, across any reconnects and next to any other handles, the queue over the
      server's file is every accepted write over the original, as long as nothing with bytes was
      dropped, no ack reordered and no flush of a released handle wrote to the file; with the queue
      drained the files are equal. */
  lemma {:induction false} WriteBackRefinesWriteThrough(ws: seq<World>, ss: seq<Step>, k: nat, fh: Fh)
    requires IsMountRun(ws, ss) && k < |ws| && fh in ws[k].open && !ws[k].open[fh].target.entry.append
    ensures Seen(ws[k], fh) && |ws[k].ledgers[fh].fates| <= |ws[k].ledgers[fh].accepted|
    ensures fh !in ws[k].intruded && ws[k].ledgers[fh].ordered && Intact(ws[k].ledgers[fh]) ==>
              && ApplyAll(FileOf(ws[k], fh), Payload(ws[k].Queue(fh))) == WrittenThrough(ws[k].ledgers[fh])
              && (fh !in ws[k].bufs ==> FileOf(ws[k], fh) == WrittenThrough(ws[k].ledgers[fh]))
  {
    hide IsMountRun, WorldOk, ApplyAll, Payload, Inv, Intact;
    HandleIsGood(ws, ss, k, fh);
    InvRefines(View(ws[k], fh));
  }

  lemma InvRefines(h: Handle)
    requires Inv(h) && !h.append
    ensures |h.led.fates| <= |h.led.accepted|
    ensures h.alone && h.led.ordered && Intact(h.led) ==>
              && ApplyAll(h.file, Payload(h.Queue())) == ApplyAll(h.led.base, Payload(h.led.accepted))
              && (h.buf.None? ==> h.file == ApplyAll(h.led.base, Payload(h.led.accepted)))
  {
    hide ApplyAll, Intact, Roles, Loud, NoneLost, AppendsLogged, InBatchOrder, BatchBytes, Carried;
    if h.alone && h.led.ordered && Intact(h.led) && h.buf.None? {
      DrainedIsWrittenThrough(h);
    }
  }

  // ----- which writes are lost -----

  /** The step is the ack of a flush that began before chunk `i` of `fh` was accepted, and it
      removes that chunk. */
  predicate LosesAt(w: World, s: Step, fh: Fh, i: nat) {
    && s.AckFlush? && fh in w.open && fh in w.ledgers && w.Phase(s.who).Flushing? && w.Phase(s.who).fh == fh
    && Loses(w.ledgers[fh], w.Queue(fh), w.Phase(s.who).flight, i)
  }

  lemma FinishIsAck(w: World, s: Step, fh: Fh, i: nat)
    requires Allowed(w, s) && Seen(w, fh)
    ensures var e, v := EventFor(w, s, fh), View(w, fh);
            LosesAt(w, s, fh, i) <==>
            && e.Some? && e.value.Finish? && v.Actor(e.value.who).Sending?
            && Loses(v.led, v.Queue(), v.Actor(e.value.who).flight, i)
  {
    hide Loses;
  }

  lemma FollowingLoses(h: Handle, e: Option<Event>, h': Handle, i: nat)
    requires Conserved(h) && InBounds(h) && Follows(h, e, h')
    ensures IsLost(h'.led, i) <==>
            || IsLost(h.led, i)
            || (e.Some? && e.value.Finish? && h.Actor(e.value.who).Sending?
                && Loses(h.led, h.Queue(), h.Actor(e.value.who).flight, i))
  {
    hide Conserved, InBounds, Next, Loses, IsLost;
    if e.Some? {
      LostStep(h, e.value, i);
    }
  }

  lemma LedgerSeen(w: World, fh: Fh)
    requires Seen(w, fh)
    ensures fh in w.ledgers && View(w, fh).led == w.ledgers[fh]
  {
  }

  lemma LossStep(w: World, s: Step, fh: Fh, i: nat)
    requires Good(w) && Allowed(w, s) && fh in w.open && fh in After(w, s).open
    ensures fh in w.ledgers && fh in After(w, s).ledgers
    ensures IsLost(After(w, s).ledgers[fh], i) <==> IsLost(w.ledgers[fh], i) || LosesAt(w, s, fh, i)
  {
    hide Good, WorldOk, Inv, Drains, ApartWhileQuiet, Conserved, InBounds, Seen, View, Allowed, After, EventFor,
      Follows, Loses, LosesAt, IsLost;
    GoodIsGood(w, fh);
    InvIsConserved(View(w, fh));
    StepProjects(w, s, fh);
    FinishIsAck(w, s, fh, i);
    FollowingLoses(View(w, fh), EventFor(w, s, fh), View(After(w, s), fh), i);
    LedgerSeen(w, fh);
    LedgerSeen(After(w, s), fh);
  }

  lemma FreshLedger(w: World, s: Step, fh: Fh)
    requires Good(w) && Allowed(w, s) && fh !in w.open && fh in After(w, s).open
    ensures fh == w.nextFh && fh in After(w, s).ledgers
    ensures var l := After(w, s).ledgers[fh]; l.fates == [] && l.batches == [] && l.ordered
  {
    hide WorldOk, GoodHandle, View, Seen, OpenStep;
    OnlyOpenAdds(w, s, fh);
    NewHandleIsFresh(w, s.path, s.append);
    LedgerSeen(OpenStep(w, s.path, s.append), fh);
  }

  lemma {:induction false} NextFhGrows(ws: seq<World>, ss: seq<Step>, j: nat, k: nat)
    requires IsMountRun(ws, ss) && j <= k < |ws|
    ensures ws[j].nextFh <= ws[k].nextFh
    decreases k
  {
    hide IsMountRun, Good, Allowed, After;
    StartIsEmpty(ws, ss);
    if j < k {
      NextFhGrows(ws, ss, j, k - 1);
      RunStep(ws, ss, k - 1);
      NextFhStep(ws[k - 1], ss[k - 1]);
    }
  }

  lemma NotOpenBefore(ws: seq<World>, ss: seq<Step>, j: nat, k: nat, fh: Fh)
    requires IsMountRun(ws, ss) && j <= k < |ws| && ws[k].nextFh <= fh
    ensures fh !in ws[j].open
  {
    hide IsMountRun, WorldOk, Inv, Drains, ApartWhileQuiet, Seen, View;
    NextFhGrows(ws, ss, j, k);
    if fh in ws[j].open {
      HandleIsGood(ws, ss, j, fh);
      OpenIsOk(ws[j], fh);
    }
  }

  /** In every run, chunk `i` of an open handle has been removed by the ack of a flush that never
      sent it if and only if some step was the ack of a flush begun before the chunk was accepted
      that removed it. */
  lemma {:induction false} LostIff(ws: seq<World>, ss: seq<Step>, k: nat, fh: Fh, i: nat)
    requires IsMountRun(ws, ss) && k < |ws| && fh in ws[k].open
    ensures |ws| == |ss| + 1 && fh in ws[k].ledgers
    ensures IsLost(ws[k].ledgers[fh], i) <==> exists j :: 0 <= j < k && LosesAt(ws[j], ss[j], fh, i)
  {
    hide IsMountRun, Good, Allowed, After, LosesAt, IsLost;
    StartIsEmpty(ws, ss);
    if k > 0 {
      RunStep(ws, ss, k - 1);
      if fh in ws[k - 1].open {
        LostIff(ws, ss, k - 1, fh, i);
        LossStep(ws[k - 1], ss[k - 1], fh, i);
      } else {
        FreshLedger(ws[k - 1], ss[k - 1], fh);
        NothingLostYet(ws[k].ledgers[fh], i);
        forall j: nat | j < k
          ensures !LosesAt(ws[j], ss[j], fh, i)
        {
          NotOpenBefore(ws, ss, j, k - 1, fh);
          OnlyOpenLose(ws[j], ss[j], fh, i);
        }
      }
    }
  }

  lemma NothingLostYet(l: Ledger, i: nat)
    requires l.fates == []
    ensures !IsLost(l, i)
  {
  }

  lemma OnlyOpenLose(w: World, s: Step, fh: Fh, i: nat)
    requires fh !in w.open
    ensures !LosesAt(w, s, fh, i)
  {
  }

  /** The ack of a flush of `fh` with something queued, someone having removed chunks since the flush
      began, and something having been pushed since. */
  predicate AckLoses(w: World, s: Step, fh: Fh) {
    && s.AckFlush? && fh in w.open && fh in w.ledgers && w.Phase(s.who).Flushing? && w.Phase(s.who).fh == fh
    && var fl, l := w.Phase(s.who).flight, w.ledgers[fh];
       w.Queue(fh) != [] && fl.from < |l.fates| && fl.from + fl.count < |l.accepted|
  }

  lemma SeenFlight(w: World, who: Who, fh: Fh)
    requires Seen(w, fh) && Inv(View(w, fh)) && w.Phase(who).Flushing? && w.Phase(who).fh == fh
    ensures var fl, l := w.Phase(who).flight, w.ledgers[fh];
            fl.from <= |l.fates| && fl.count > 0 && |l.fates| + |w.Queue(fh)| == |l.accepted|
  {
    hide Roles, Loud, NoneLost;
    InvIsConserved(View(w, fh));
  }

  lemma AckLosesAt(w: World, s: Step, fh: Fh)
    requires fh in w.open ==> Good(w)
    ensures AckLoses(w, s, fh) <==> exists i: nat :: LosesAt(w, s, fh, i)
  {
    hide Good, WorldOk, Inv, Drains, ApartWhileQuiet, Seen, View;
    if s.AckFlush? && fh in w.open && w.Phase(s.who).Flushing? && w.Phase(s.who).fh == fh {
      GoodIsGood(w, fh);
      LedgerSeen(w, fh);
      SeenFlight(w, s.who, fh);
      var fl, l := w.Phase(s.who).flight, w.ledgers[fh];
      if AckLoses(w, s, fh) {
        assert LosesAt(w, s, fh, |l.fates| + AckRemoves(fl, w.Queue(fh)) - 1);
      }
    }
  }

  /** In every run an open handle has lost a chunk in this way if and only if some flush of it was
      acked with something queued, after someone had removed chunks and something had been pushed
      since it began. */
  lemma {:induction false} LossIff(ws: seq<World>, ss: seq<Step>, k: nat, fh: Fh)
    requires IsMountRun(ws, ss) && k < |ws| && fh in ws[k].open
    ensures |ws| == |ss| + 1 && fh in ws[k].ledgers
    ensures (exists i: nat :: IsLost(ws[k].ledgers[fh], i)) <==> exists j :: 0 <= j < k && AckLoses(ws[j], ss[j], fh)
  {
    hide IsMountRun, Good, AckLoses, LosesAt, IsLost;
    LostIff(ws, ss, k, fh, 0);
    if i: nat :| IsLost(ws[k].ledgers[fh], i) {
      LostIff(ws, ss, k, fh, i);
      var j :| 0 <= j < k && LosesAt(ws[j], ss[j], fh, i);
      RunIsGood(ws, ss, j);
      AckLosesAt(ws[j], ss[j], fh);
    }
    if j :| 0 <= j < k && AckLoses(ws[j], ss[j], fh) {
      RunIsGood(ws, ss, j);
      AckLosesAt(ws[j], ss[j], fh);
      var i: nat :| LosesAt(ws[j], ss[j], fh, i);
      LostIff(ws, ss, k, fh, i);
    }
  }

  /** No silent loss: in every run, every chunk accepted on an open handle is still queued, or was
      acked by a flush that sent it, or was dropped, and then, if it has bytes, has been reported,
      is pending as the sticky error or is the background task's to mark next; if and only if no
      ack removed it without having sent it. */
  lemma {:induction false} NoSilentLoss(ws: seq<World>, ss: seq<Step>, k: nat, fh: Fh, i: nat)
    requires IsMountRun(ws, ss) && k < |ws| && fh in ws[k].open
    requires fh in ws[k].ledgers && i < |ws[k].ledgers[fh].accepted|
    ensures |ws| == |ss| + 1 && Seen(ws[k], fh)
    ensures Accounted(View(ws[k], fh), i) <==> !exists j :: 0 <= j < k && LosesAt(ws[j], ss[j], fh, i)
  {
    hide IsMountRun, WorldOk, Inv, Drains, ApartWhileQuiet, Seen, View, Accounted, IsLost, LosesAt;
    HandleIsGood(ws, ss, k, fh);
    LedgerSeen(ws[k], fh);
    EveryChunkIsAccounted(View(ws[k], fh), i);
    LostIff(ws, ss, k, fh, i);
  }

  /** Positioned handles, and O_APPEND handles whose queue no reopen dropped under a background
      flush, lose nothing in this way. */
  lemma {:induction false} QuietHandlesLoseNothing(ws: seq<World>, ss: seq<Step>, k: nat, fh: Fh, i: nat, j: nat)
    requires IsMountRun(ws, ss) && j < k < |ws| && fh in ws[k].open && fh in ws[k].ledgers
    requires ws[k].open[fh].target.entry.append ==> ws[k].ledgers[fh].undisturbed
    ensures |ws| == |ss| + 1 && !LosesAt(ws[j], ss[j], fh, i)
  {
    hide IsMountRun, WorldOk, Inv, Drains, ApartWhileQuiet, LosesAt;
    HandleIsGood(ws, ss, k, fh);
    QuietLosesNone(View(ws[k], fh), i);
    LostIff(ws, ss, k, fh, i);
  }

  lemma QuietLosesNone(h: Handle, i: nat)
    requires Inv(h) && Quiet(h)
    ensures !IsLost(h.led, i)
  {
    hide Conserved, Roles, InBounds, Loud, WritesThrough, AppendsLogged, InBatchOrder, BatchBytes;
  }

  // ----- what an Ok reply means -----

  /** The background task has dropped a chunk of `fh` accepted since the last error reply and has
      not yet set the sticky error. */
  predicate MarkPending(w: World, fh: Fh)
    requires fh in w.ledgers
  {
    w.bg.ToMark? && w.bg.fh == fh && w.bg.lost.Some? && w.ledgers[fh].reported <= w.bg.lost.value
  }

  /** Chunk `i` has bytes and was accepted since the last error reply. */
  predicate Matters(l: Ledger, i: nat) {
    l.reported <= i < |l.accepted| && l.accepted[i].run.data != []
  }

  ghost predicate LostSince(ws: seq<World>, ss: seq<Step>, k: nat, fh: Fh)
    requires k <= |ss| < |ws| && fh in ws[k].ledgers
  {
    exists j, i: nat :: 0 <= j < k && LosesAt(ws[j], ss[j], fh, i) && Matters(ws[k].ledgers[fh], i)
  }

  lemma LostSinceIff(ws: seq<World>, ss: seq<Step>, k: nat, fh: Fh)
    requires IsMountRun(ws, ss) && k < |ws| && fh in ws[k].open && fh in ws[k].ledgers && |ws| == |ss| + 1
    ensures LossUnreported(ws[k].ledgers[fh]) <==> LostSince(ws, ss, k, fh)
  {
    hide IsMountRun, LosesAt, IsLost;
    var l := ws[k].ledgers[fh];
    if LossUnreported(l) {
      var i: nat :| IsLost(l, i) && l.reported <= i < |l.accepted| && l.accepted[i].run.data != [];
      LostIff(ws, ss, k, fh, i);
      assert Matters(l, i);
    }
    if LostSince(ws, ss, k, fh) {
      var j, i: nat :| 0 <= j < k && LosesAt(ws[j], ss[j], fh, i) && Matters(l, i);
      LostIff(ws, ss, k, fh, i);
    }
  }

  lemma AnswerIs(w: World)
    requires Allowed(w, Answer)
    ensures w.fuse.Answering? && w.fuse.fh in w.ledgers
  {
  }

  lemma RunHas(ws: seq<World>, ss: seq<Step>, k: nat)
    requires IsMountRun(ws, ss) && k < |ss|
    ensures |ws| == |ss| + 1 && Allowed(ws[k], ss[k])
  {
  }

  /** In every run an Ok from flush() or fsync() means every chunk with bytes accepted on the handle
      since the last error reply was acked, if and only if no mark is pending and no such chunk was
      removed by the ack of a flush that never sent it. */
  lemma {:induction false} OkReplyMeansAcked(ws: seq<World>, ss: seq<Step>, k: nat)
    requires IsMountRun(ws, ss) && k < |ss| && ss[k] == Answer
    requires FlushReply(ws[k].fuse.err, ws[k].fuse.fh in ws[k].errors).None?
    requires ws[k].fuse.fh in ws[k].open && ws[k].fuse.fh in ws[k].ledgers
    ensures |ws| == |ss| + 1
    ensures SafeSinceLastError(ws[k].ledgers[ws[k].fuse.fh]) <==>
            !MarkPending(ws[k], ws[k].fuse.fh) && !LostSince(ws, ss, k, ws[k].fuse.fh)
  {
    hide IsMountRun, Allowed, WorldOk, Inv, SafeSinceLastError, FlushReply, LossUnreported, LostSince, Drains,
      ApartWhileQuiet;
    RunHas(ws, ss, k);
    AnswerIs(ws[k]);
    var fh := ws[k].fuse.fh;
    HandleIsGood(ws, ss, k, fh);
    OkReplyIsExact(View(ws[k], fh));
    LostSinceIff(ws, ss, k, fh);
  }

  /** The end-to-end promise: when close() or fsync() is answered Ok on a positioned handle whose
      application never saw an error, with no mark pending and no released handle's bytes in the
      file, the server's file is exactly the original with every accepted write applied in order. */
  lemma {:induction false} OkReplyMeansWrittenThrough(ws: seq<World>, ss: seq<Step>, k: nat)
    requires IsMountRun(ws, ss) && k < |ss| && ss[k] == Answer
    requires var w, fh := ws[k], ws[k].fuse.fh;
             && FlushReply(w.fuse.err, fh in w.errors).None?
             && fh in w.open && !w.open[fh].target.entry.append && fh !in w.intruded
             && fh in w.ledgers && w.ledgers[fh].ordered && w.ledgers[fh].reported == 0
             && !MarkPending(w, fh)
    ensures var w, fh := ws[k], ws[k].fuse.fh;
            Seen(w, fh) && FileOf(w, fh) == WrittenThrough(w.ledgers[fh])
  {
    hide IsMountRun, Allowed, WorldOk, Inv, ApplyAll, Payload, ApartWhileQuiet;
    RunHas(ws, ss, k);
    AnswerIs(ws[k]);
    HandleIsGood(ws, ss, k, ws[k].fuse.fh);
    OkMeansDrained(View(ws[k], ws[k].fuse.fh));
  }

  lemma OkMeansDrained(h: Handle)
    requires Inv(h) && Drains(h) && !h.append && h.alone && h.led.ordered
    requires h.fuse.Replying? && FlushReply(h.fuse.err, h.sticky).None?
    requires h.led.reported == 0 && !(h.bg.Marking? && h.bg.lost.Some?)
    ensures h.file == ApplyAll(h.led.base, Payload(h.led.accepted))
  {
    hide Inv, ApplyAll, Payload;
    OkWithoutErrorsIsIntact(h);
    DrainedIsWrittenThrough(h);
  }

  // ----- O_APPEND -----

  /** Beginning a flush of `fh` while the other actor's flush of it still covers queued chunks. */
  predicate ResendsAt(w: World, s: Step, fh: Fh) {
    && s.BeginFlush? && fh in w.open && fh in w.ledgers && w.Phase(s.who).Ready? && w.Phase(s.who).fh == fh
    && var p := if s.who.Fuse? then w.bg else w.fuse;
       p.Flushing? && p.fh == fh && p.flight.from + p.flight.count > |w.ledgers[fh].fates|
  }

  lemma BeginIsBegin(w: World, s: Step, fh: Fh)
    requires Allowed(w, s) && Seen(w, fh)
    ensures var e := EventFor(w, s, fh);
            ResendsAt(w, s, fh) <==> e.Some? && e.value.Begin? && Resends(View(w, fh), e.value.who)
  {
  }

  lemma FollowingDisjoint(h: Handle, e: Option<Event>, h': Handle)
    requires Inv(h) && h.append && Follows(h, e, h')
    ensures Disjoint(h'.led.batches) <==>
            Disjoint(h.led.batches) && !(e.Some? && e.value.Begin? && Resends(h, e.value.who))
  {
    hide Disjoint, Resends, Next, Conserved, Roles, InBounds, Loud, NoneLost, WritesThrough, AppendsLogged,
      InBatchOrder, BatchBytes;
    if e.Some? {
      DisjointStep(h, e.value);
    }
  }

  lemma ModeSeen(w: World, fh: Fh)
    requires Seen(w, fh)
    ensures View(w, fh).append == w.open[fh].target.entry.append
  {
  }

  lemma ResendStep(w: World, s: Step, fh: Fh)
    requires Good(w) && Allowed(w, s) && fh in w.open && fh in After(w, s).open && w.open[fh].target.entry.append
    ensures fh in w.ledgers && fh in After(w, s).ledgers
    ensures Disjoint(After(w, s).ledgers[fh].batches) <==>
            Disjoint(w.ledgers[fh].batches) && !ResendsAt(w, s, fh)
  {
    hide Good, WorldOk, Inv, Drains, ApartWhileQuiet, Seen, View, Allowed, After, EventFor, Follows, Disjoint, Resends,
      ResendsAt;
    GoodIsGood(w, fh);
    StepProjects(w, s, fh);
    BeginIsBegin(w, s, fh);
    ModeSeen(w, fh);
    FollowingDisjoint(View(w, fh), EventFor(w, s, fh), View(After(w, s), fh));
    LedgerSeen(w, fh);
    LedgerSeen(After(w, s), fh);
  }

  lemma ModeStays(w: World, s: Step, fh: Fh)
    requires Good(w) && Allowed(w, s) && fh in w.open && fh in After(w, s).open
    ensures After(w, s).open[fh].target.entry == w.open[fh].target.entry
  {
    hide WorldOk, GoodHandle, Allowed, After;
    match s {
      case Open(path, append) => OpenKeepsEntries(w, path, append, fh);
      case Stamp => StampKeepsEntries(w, fh);
      case Release(f, heard) => ReleaseKeepsEntries(w, f, heard, fh);
      case _ => HandlesSame(w, s);
    }
  }

  lemma OpenKeepsEntries(w: World, path: Path, append: bool, fh: Fh)
    requires WorldOk(w) && Allowed(w, Open(path, append)) && fh in w.open
    ensures var w' := After(w, Open(path, append)); fh in w'.open && w'.open[fh] == w.open[fh]
  {
    hide WorldOk;
    OpenIsOk(w, fh);
  }

  lemma StampKeepsEntries(w: World, fh: Fh)
    requires WorldOk(w) && Allowed(w, Stamp) && fh in w.open
    ensures var w' := After(w, Stamp); fh in w'.open && w'.open[fh].target.entry == w.open[fh].target.entry
  {
    hide WorldOk, TargetOk;
    OwnPhase(w, Fuse);
  }

  lemma ReleaseKeepsEntries(w: World, f: Fh, heard: bool, fh: Fh)
    requires Allowed(w, Release(f, heard)) && fh in w.open
    ensures var w' := After(w, Release(f, heard)); fh in w'.open ==> w'.open[fh] == w.open[fh]
  {
  }

  /** In every run no chunk of an O_APPEND handle is in two batches if and only if no flush of it
      ever began while the other actor's still covered queued chunks. */
  lemma {:induction false} SentOnceIff(ws: seq<World>, ss: seq<Step>, k: nat, fh: Fh)
    requires IsMountRun(ws, ss) && k < |ws| && fh in ws[k].open && ws[k].open[fh].target.entry.append
    ensures |ws| == |ss| + 1 && fh in ws[k].ledgers
    ensures Disjoint(ws[k].ledgers[fh].batches) <==> forall j :: 0 <= j < k ==> !ResendsAt(ws[j], ss[j], fh)
  {
    hide IsMountRun, Good, Allowed, After, Disjoint, ResendsAt;
    StartIsEmpty(ws, ss);
    if k > 0 {
      RunStep(ws, ss, k - 1);
      if fh in ws[k - 1].open {
        ModeStays(ws[k - 1], ss[k - 1], fh);
        SentOnceIff(ws, ss, k - 1, fh);
        ResendStep(ws[k - 1], ss[k - 1], fh);
      } else {
        FreshLedger(ws[k - 1], ss[k - 1], fh);
        NothingSentYet(ws[k].ledgers[fh].batches);
        forall j: nat | j < k
          ensures !ResendsAt(ws[j], ss[j], fh)
        {
          NotOpenBefore(ws, ss, j, k - 1, fh);
          OnlyOpenResend(ws[j], ss[j], fh);
        }
      }
    }
  }

  lemma NothingSentYet(bs: seq<Batch>)
    requires bs == []
    ensures Disjoint(bs)
  {
  }

  lemma OnlyOpenResend(w: World, s: Step, fh: Fh)
    requires fh !in w.open
    ensures !ResendsAt(w, s, fh)
  {
  }

  /** In every run, the file of an O_APPEND handle is the original followed by what landed, in the
      order it landed; each batch's share of that is a prefix of its own chunks' bytes in stable
      offset order, all of them if they were acked; and no chunk is in two batches if and only if
      no flush began while the other actor's still covered queued chunks. */
  lemma {:induction false} AppendsLandAtMostOnce(ws: seq<World>, ss: seq<Step>, k: nat, fh: Fh)
    requires IsMountRun(ws, ss) && k < |ws| && fh in ws[k].open && fh in ws[k].ledgers
    requires ws[k].open[fh].target.entry.append
    ensures |ws| == |ss| + 1 && Seen(ws[k], fh)
    ensures fh !in ws[k].intruded ==>
              FileOf(ws[k], fh) == ws[k].ledgers[fh].base + Joined(ws[k].ledgers[fh].landings)
    ensures SharesLand(ws[k].ledgers[fh]) && AckedAreWhole(ws[k].ledgers[fh])
    ensures SentOnce(ws[k].ledgers[fh]) <==> forall j :: 0 <= j < k ==> !ResendsAt(ws[j], ss[j], fh)
  {
    hide IsMountRun, WorldOk, Inv, Drains, ApartWhileQuiet, Joined, SharesLand, AckedAreWhole, LandsPrefixes, Disjoint,
      ResendsAt;
    HandleIsGood(ws, ss, k, fh);
    InvLogs(View(ws[k], fh));
    AppendsLandPrefixes(View(ws[k], fh));
    SentOnceIff(ws, ss, k, fh);
  }

  /** What landed of each batch is its share of everything that landed. */
  ghost predicate SharesLand(l: Ledger) {
    forall b :: 0 <= b < |l.batches| ==> l.batches[b].landed == Share(l.landings, b)
  }

  lemma InvLogs(h: Handle)
    requires Inv(h) && h.append
    ensures SharesLand(h.led) && AckedAreWhole(h.led)
    ensures h.alone ==> h.file == h.led.base + Joined(h.led.landings)
  {
    hide Conserved, Roles, InBounds, Loud, NoneLost, WritesThrough, InBatchOrder, BatchBytes, Joined, Share, Flights,
      Closed, AckedAreWhole;
  }

  /** While no reopen drops the queue under a background flush, batches land one after the other and
      no chunk is in two of them. */
  lemma {:induction false} UndisturbedAppendsAreInOrder(ws: seq<World>, ss: seq<Step>, k: nat, fh: Fh)
    requires IsMountRun(ws, ss) && k < |ws| && fh in ws[k].open && fh in ws[k].ledgers
    requires ws[k].open[fh].target.entry.append && ws[k].ledgers[fh].undisturbed
    ensures Seen(ws[k], fh) && SentOnce(ws[k].ledgers[fh])
    ensures fh !in ws[k].intruded ==>
              FileOf(ws[k], fh) == ws[k].ledgers[fh].base + Landed(ws[k].ledgers[fh].batches)
  {
    hide IsMountRun, WorldOk, Inv, Drains, Joined, Landed, SharesLand, AckedAreWhole, LandsPrefixes, Disjoint;
    HandleIsGood(ws, ss, k, fh);
    InvLogs(View(ws[k], fh));
    QuietInOrder(View(ws[k], fh));
    AppendsLandPrefixes(View(ws[k], fh));
  }

  lemma QuietInOrder(h: Handle)
    requires Inv(h) && h.append && h.led.undisturbed
    ensures Joined(h.led.landings) == Landed(h.led.batches)
  {
    hide Conserved, Roles, InBounds, Loud, NoneLost, WritesThrough, AppendsLogged, BatchBytes, Joined, Landed;
  }

  /** The end-to-end promise for O_APPEND: when close() or fsync() is answered Ok on a handle whose
      application never saw an error, with no mark pending, no queue of it dropped under a background
      flush and no released handle's bytes in the file, the server's file is the original and every
      accepted byte exactly once, batch after batch in stable offset order; and if the writes came at
      ascending offsets it is the original followed by every write in order. */
  lemma {:induction false} OkReplyMeansAppended(ws: seq<World>, ss: seq<Step>, k: nat)
    requires IsMountRun(ws, ss) && k < |ss| && ss[k] == Answer
    requires var w, fh := ws[k], ws[k].fuse.fh;
             && FlushReply(w.fuse.err, fh in w.errors).None?
             && fh in w.open && w.open[fh].target.entry.append && fh !in w.intruded
             && fh in w.ledgers && w.ledgers[fh].undisturbed && w.ledgers[fh].reported == 0
             && !MarkPending(w, fh)
    ensures var w, fh := ws[k], ws[k].fuse.fh;
            Seen(w, fh) && AppendedOnce(FileOf(w, fh), w.ledgers[fh])
  {
    hide IsMountRun, Allowed, WorldOk, Inv, ApartWhileQuiet, AppendedOnce;
    RunHas(ws, ss, k);
    AnswerIs(ws[k]);
    HandleIsGood(ws, ss, k, ws[k].fuse.fh);
    OkMeansAppended(View(ws[k], ws[k].fuse.fh));
  }

  // ----- handles, connections and files -----

  /** Handle freshness: a handle whose stamp is the current generation was issued by the current
      connection. */
  lemma {:induction false} CurrentStampIsFresh(ws: seq<World>, ss: seq<Step>, k: nat, fh: Fh)
    requires IsMountRun(ws, ss) && k < |ws| && fh in ws[k].open
    requires ws[k].open[fh].openedGen == ws[k].Gen()
    ensures ws[k].open[fh].target.issuer == ws[k].Gen()
    ensures ws[k].sessions[ws[k].Gen()].Issued(ws[k].open[fh].target.handle)
  {
    RunIsGood(ws, ss, k);
    hide GoodHandle, PhaseOk, IsMountRun;
    assert OpenOk(ws[k], fh);
  }

  /** Whatever the stamps say, a Write RPC finds its handle only over the connection that issued it,
      and then finds what the client opened. */
  lemma {:induction false} LookupsFindTheIssuer(ws: seq<World>, ss: seq<Step>, k: nat, who: Who, via: nat)
    requires IsMountRun(ws, ss) && k < |ss| && ss[k] == StartRpc(who, via)
    ensures |ws| == |ss| + 1 && ws[k].Phase(who).Flushing? && via == ws[k].Phase(who).target.issuer
    ensures ws[k + 1].Phase(who).Flushing? && ws[k + 1].Phase(who).rpc == Some(ws[k].Phase(who).target.entry)
  {
    hide IsMountRun, Good, WorldOk, PhaseOk, Knows;
    RunStep(ws, ss, k);
    RunHas(ws, ss, k);
    StartFinds(ws[k], who, via);
  }

  lemma StartFinds(w: World, who: Who, via: nat)
    requires Good(w) && Allowed(w, StartRpc(who, via))
    ensures w.Phase(who).Flushing? && via == w.Phase(who).target.issuer
    ensures After(w, StartRpc(who, via)).Phase(who)
         == Flushing(w.Phase(who).fh, w.Phase(who).target, w.Phase(who).flight, Some(w.Phase(who).target.entry))
  {
    hide GoodHandle, HandlesOk, SessionsOk, TargetOk;
    SessionsAreOk(w);
    OwnPhase(w, who);
    OnlyIssuerKnows(w, w.Phase(who).target, via);
  }

  lemma LandingReachesOwnFile(w: World, s: Step, path: Path)
    requires Good(w) && Allowed(w, s) && (s.DeliverRun? || s.FailRun?) && path in w.files
    requires path !in After(w, s).files || After(w, s).files[path] != w.files[path]
    ensures w.Phase(s.who).Flushing? && w.Phase(s.who).rpc == Some(w.Phase(s.who).target.entry)
    ensures w.Phase(s.who).target.entry.path == path
  {
    hide GoodHandle, HandlesOk, TargetOk, After, Store, Others;
    LandingFiles(w, s);
    OwnPhase(w, s.who);
  }

  /** In every run a step that changes a file lands bytes of a Write RPC whose handle was opened on
      that file. */
  lemma {:induction false} WritesReachOwnFileOnly(ws: seq<World>, ss: seq<Step>, k: nat, path: Path)
    requires IsMountRun(ws, ss) && k < |ss| && path in ws[k].files
    requires path !in ws[k + 1].files || ws[k + 1].files[path] != ws[k].files[path]
    ensures ss[k].DeliverRun? || ss[k].FailRun?
    ensures ws[k].Phase(ss[k].who).Flushing?
    ensures ws[k].Phase(ss[k].who).rpc == Some(ws[k].Phase(ss[k].who).target.entry)
    ensures ws[k].Phase(ss[k].who).target.entry.path == path
  {
    hide IsMountRun, Good, Allowed, After;
    StartIsEmpty(ws, ss);
    RunStep(ws, ss, k);
    if !ss[k].DeliverRun? && !ss[k].FailRun? {
      FilesSame(ws[k], ss[k]);
    } else {
      LandingReachesOwnFile(ws[k], ss[k], path);
    }
  }

  // ----- bytes of a released handle -----

  /** No flush of another handle is under way on the file of `fh`, and none has written to it. */
  ghost predicate Clean(w: World, fh: Fh) {
    && fh in w.open && fh !in w.intruded
    && !(w.bg.Flushing? && w.bg.fh != fh && w.bg.target.entry.path == w.open[fh].target.entry.path)
  }

  lemma CleanKeepsOut(w: World, s: Step, fh: Fh)
    requires Good(w) && Allowed(w, s) && Clean(w, fh) && fh in After(w, s).open
    ensures fh !in After(w, s).intruded
  {
    hide Good, Allowed, After;
    if s.DeliverRun? || s.FailRun? {
      LandingFiles(w, s);
      CleanLanding(w, s.who, PartOf(w, s), fh);
    } else {
      FilesSame(w, s);
    }
  }

  lemma CleanLanding(w: World, who: Who, r: Run, fh: Fh)
    requires Good(w) && Clean(w, fh) && w.Phase(who).Flushing?
    ensures fh !in ServerWrite(w, w.Phase(who).fh, w.Phase(who).rpc, r).intruded
  {
    hide WorldOk, GoodHandle, TargetOk, Store;
    OwnPhase(w, who);
    PathsDiffer(w);
  }

  lemma FlushBegins(w: World, fh: Fh)
    requires Good(w) && Allowed(w, BeginFlush(Background)) && fh in w.open && w.bg.fh != fh
    ensures w.bg.Ready? && w.bg.target.entry.path != w.open[fh].target.entry.path
  {
    hide WorldOk, GoodHandle, TargetOk;
    OwnPhase(w, Background);
    QueuedAreOpen(w, w.bg.fh);
    PathsDiffer(w);
  }

  /** The background flush after the step was under way before it. */
  predicate Continues(w: World, w': World) {
    w'.bg.Flushing? ==> w.bg.Flushing? && w.bg.fh == w'.bg.fh && w.bg.target == w'.bg.target
  }

  lemma DeliverContinues(w: World, who: Who)
    requires Allowed(w, DeliverRun(who))
    ensures Continues(w, After(w, DeliverRun(who)))
  {
    hide LedgerLand, Store, Others;
  }

  lemma FailContinues(w: World, who: Who, k: nat)
    requires Allowed(w, FailRun(who, k))
    ensures Continues(w, After(w, FailRun(who, k)))
  {
    hide LedgerLand, LedgerDrop, LostBy, Store, Others, FailedEntry;
  }

  lemma RemovalContinues(w: World, s: Step)
    requires Allowed(w, s) && (s.AckFlush? || s.DropUnreplayable? || s.DropAged?)
    ensures Continues(w, After(w, s))
  {
    hide LedgerDrop, LedgerAck, LostBy, LastWithData, AckedEntry;
  }

  lemma QueueingContinues(w: World, s: Step)
    requires Allowed(w, s) && (s.Open? || s.Write? || s.BeginFlush? || s.Answer? || s.Release?)
    requires !(s.BeginFlush? && s.who.Background?)
    ensures Continues(w, After(w, s))
  {
    hide LedgerBegin, FlightOf, TableBytes, Enqueued, FlushReply;
  }

  lemma PhaseContinues(w: World, s: Step)
    requires Allowed(w, s) && (s.Reconnect? || s.Resolve? || s.ReopenReply? || s.ReopenError? || s.Stamp? || s.Abandon?
                               || s.StartRpc? || s.SetSticky? || s.SawEmpty? || s.GaveUp?)
    ensures Continues(w, After(w, s))
  {
  }

  lemma FlushContinues(w: World, s: Step)
    requires Allowed(w, s) && !(s.BeginFlush? && s.who.Background?)
    ensures Continues(w, After(w, s))
  {
    hide Allowed, After, Continues;
    if s.DeliverRun? {
      DeliverContinues(w, s.who);
    } else if s.FailRun? {
      FailContinues(w, s.who, s.k);
    } else if s.AckFlush? || s.DropUnreplayable? || s.DropAged? {
      RemovalContinues(w, s);
    } else if s.Open? || s.Write? || s.BeginFlush? || s.Answer? || s.Release? {
      QueueingContinues(w, s);
    } else {
      PhaseContinues(w, s);
    }
  }

  lemma CleanStep(w: World, s: Step, fh: Fh)
    requires Good(w) && Allowed(w, s) && Clean(w, fh) && fh in After(w, s).open
    ensures Clean(After(w, s), fh)
  {
    hide Good, Allowed, After;
    CleanKeepsOut(w, s, fh);
    ModeStays(w, s, fh);
    if After(w, s).bg.Flushing? {
      if s.BeginFlush? && s.who.Background? {
        BeginIs(w);
        if w.bg.fh != fh {
          FlushBegins(w, fh);
        }
      } else {
        FlushContinues(w, s);
      }
    }
  }

  lemma BeginIs(w: World)
    requires Allowed(w, BeginFlush(Background))
    ensures var w' := After(w, BeginFlush(Background));
            w.bg.Ready? && w'.bg.Flushing? && w'.bg.fh == w.bg.fh && w'.bg.target == w.bg.target
  {
  }

  /** A handle opened while no flush of a released handle is under way on its path stays alone: in
      every run, as long as it is open, no other handle's bytes reach its file. */
  lemma {:induction false} CleanOpensStayAlone(ws: seq<World>, ss: seq<Step>, j: nat, k: nat)
    requires IsMountRun(ws, ss) && j < k < |ws| && j < |ss| && ss[j].Open?
    requires !(ws[j].bg.Flushing? && ws[j].bg.target.entry.path == ss[j].path)
    ensures ws[j].nextFh < ws[k].nextFh
    ensures ws[j].nextFh in ws[k].open ==> Clean(ws[k], ws[j].nextFh)
    decreases k
  {
    hide IsMountRun, Good, Allowed, After, Clean;
    StartIsEmpty(ws, ss);
    RunStep(ws, ss, k - 1);
    NextFhStep(ws[k - 1], ss[k - 1]);
    if k == j + 1 {
      OpensClean(ws[j], ss[j].path, ss[j].append);
    } else {
      CleanOpensStayAlone(ws, ss, j, k - 1);
      if ws[j].nextFh in ws[k].open {
        if ws[j].nextFh in ws[k - 1].open {
          CleanStep(ws[k - 1], ss[k - 1], ws[j].nextFh);
        } else {
          FreshLedger(ws[k - 1], ss[k - 1], ws[j].nextFh);
        }
      }
    }
  }

  lemma OpensClean(w: World, path: Path, append: bool)
    requires Good(w) && Allowed(w, Open(path, append))
    requires !(w.bg.Flushing? && w.bg.target.entry.path == path)
    ensures Clean(After(w, Open(path, append)), w.nextFh)
  {
    hide GoodHandle, SessionsOk, OpenOk, PhaseOk;
  }

  lemma OnlyIntrusionsEnd(h: Handle, e: Option<Event>, h': Handle)
    requires Follows(h, e, h') && h.alone && !h'.alone
    ensures e.Some? && e.value.Intrude? && h' == h.(file := e.value.file, alone := false)
  {
    hide Store, LedgerBegin, LedgerLand, LedgerAck, LedgerDrop, FlightOf, LastWithData, LostBy, FlushReply;
  }

  lemma IntrusionIs(w: World, s: Step, fh: Fh)
    requires Allowed(w, s) && Seen(w, fh) && EventFor(w, s, fh).Some? && EventFor(w, s, fh).value.Intrude?
    ensures (s.DeliverRun? || s.FailRun?) && w.Phase(s.who).Flushing? && w.Phase(s.who).rpc.Some?
    ensures EventFor(w, s, fh).value.file == Store(w.Phase(s.who).rpc.value.append, FileOf(w, fh), PartOf(w, s))
  {
    hide Store, TableBytes, Knows;
  }

  /** Where the bytes of a landing run end up. */
  function LandsAs(append: bool, f: Content, r: Run): Run {
    if append then Run(|f|, r.data) else r
  }

  lemma StoreIsWrite(append: bool, f: Content, r: Run)
    ensures Store(append, f, r) == WriteAt(f, LandsAs(append, f, r))
  {
  }

  /** What `fh` sees of a step by which a released handle's bytes reach its file. */
  lemma IntrusionStep(w: World, s: Step, fh: Fh)
    requires Good(w) && Allowed(w, s) && fh in w.open && fh !in w.intruded && fh in After(w, s).open
    requires fh in After(w, s).intruded
    ensures (s.DeliverRun? || s.FailRun?) && w.Phase(s.who).Flushing? && w.Phase(s.who).rpc.Some?
    ensures Seen(w, fh) && Seen(After(w, s), fh)
    ensures var e := w.Phase(s.who).rpc.value;
            View(After(w, s), fh) == View(w, fh).(file := Store(e.append, FileOf(w, fh), PartOf(w, s)), alone := false)
  {
    hide Good, WorldOk, Inv, Drains, ApartWhileQuiet, Seen, View, Allowed, After, EventFor, Follows, Store, PartOf;
    GoodIsGood(w, fh);
    StepProjects(w, s, fh);
    AloneSeen(w, fh);
    AloneSeen(After(w, s), fh);
    OnlyIntrusionsEnd(View(w, fh), EventFor(w, s, fh), View(After(w, s), fh));
    IntrusionIs(w, s, fh);
  }

  lemma AloneSeen(w: World, fh: Fh)
    requires Seen(w, fh)
    ensures View(w, fh).alone <==> fh !in w.intruded
  {
  }

  /** Exactly when a released handle's bytes matter: in every run, at the step by which they first
      reach the file of a positioned handle, the queue over the file stays every accepted write over
      the original if and only if each byte of them that the queue does not overwrite is there
      already. */
  lemma {:induction false} ForeignBytesMatterIff(ws: seq<World>, ss: seq<Step>, k: nat, fh: Fh)
    requires IsMountRun(ws, ss) && k < |ss| < |ws| && fh in ws[k].open && !ws[k].open[fh].target.entry.append
    requires fh !in ws[k].intruded && fh in ws[k + 1].open && fh in ws[k + 1].intruded
    requires fh in ws[k].ledgers && |ws[k].ledgers[fh].fates| <= |ws[k].ledgers[fh].accepted|
    requires ws[k].ledgers[fh].ordered && Intact(ws[k].ledgers[fh])
    ensures Allowed(ws[k], ss[k]) && (ss[k].DeliverRun? || ss[k].FailRun?)
    ensures ws[k].Phase(ss[k].who).Flushing? && ws[k].Phase(ss[k].who).rpc.Some?
    ensures Seen(ws[k], fh) && Seen(ws[k + 1], fh)
    ensures var w, w' := ws[k], ws[k + 1];
            var r := LandsAs(w.Phase(ss[k].who).rpc.value.append, FileOf(w, fh), PartOf(w, ss[k]));
            ApplyAll(FileOf(w', fh), Payload(w'.Queue(fh))) == WrittenThrough(w'.ledgers[fh]) <==>
            Invisible(FileOf(w, fh), r, Payload(w.Queue(fh)))
  {
    hide IsMountRun, Good, Allowed, After, ApplyAll, Payload, Invisible, Store, PartOf, LandsAs, Intact;
    RunStep(ws, ss, k);
    WriteBackRefinesWriteThrough(ws, ss, k, fh);
    IntrusionStep(ws[k], ss[k], fh);
    var w := ws[k];
    var e, part := w.Phase(ss[k].who).rpc.value, PartOf(w, ss[k]);
    StoreIsWrite(e.append, FileOf(w, fh), part);
    AbsorbedIff(FileOf(w, fh), LandsAs(e.append, FileOf(w, fh), part), Payload(w.Queue(fh)));
  }

  // ----- when an ack reorders -----

  /** The step is the ack of a flush of `fh` whose chunks are not order-safe where the rest of the
      queue leaves them uncovered. */
  ghost predicate ReordersAt(w: World, s: Step, fh: Fh) {
    && s.AckFlush? && fh in w.open && w.Phase(s.who).Flushing? && w.Phase(s.who).fh == fh
    && Reorders(w.Queue(fh), w.Phase(s.who).flight)
  }

  lemma AckIsFinish(w: World, s: Step, fh: Fh)
    requires Allowed(w, s) && Seen(w, fh)
    ensures var e, v := EventFor(w, s, fh), View(w, fh);
            ReordersAt(w, s, fh) <==>
            && e.Some? && e.value.Finish? && v.Actor(e.value.who).Sending?
            && Reorders(v.Queue(), v.Actor(e.value.who).flight)
  {
    hide Reorders;
  }

  lemma OrderedStep(h: Handle, e: Event)
    requires !h.append && Inv(h) && Enabled(h, e)
    ensures Next(h, e).led.ordered <==>
            && h.led.ordered
            && !(e.Finish? && h.Actor(e.who).Sending? && Reorders(h.Queue(), h.Actor(e.who).flight))
  {
    hide Reorders, Loud, NoneLost, WritesThrough, AppendsLogged, InBatchOrder, BatchBytes, Conserved, Roles, InBounds,
      LedgerAck, Store, LastWithData, FlushReply, FlightOf;
    if e.Finish? {
      FinishOrders(h, e.who);
    }
  }

  lemma FinishOrders(h: Handle, who: Who)
    requires !h.append && Inv(h) && Enabled(h, Finish(who))
    ensures FinishStep(h, who).led.ordered <==> h.led.ordered && !Reorders(h.Queue(), h.Actor(who).flight)
  {
    hide Reorders, Loud, NoneLost, WritesThrough, AppendsLogged, InBatchOrder, BatchBytes, FinishStep;
    AckOrders(h, who);
  }

  lemma FollowingOrders(h: Handle, e: Option<Event>, h': Handle)
    requires !h.append && Inv(h) && Follows(h, e, h')
    ensures h'.led.ordered <==>
            && h.led.ordered
            && !(e.Some? && e.value.Finish? && h.Actor(e.value.who).Sending?
                 && Reorders(h.Queue(), h.Actor(e.value.who).flight))
  {
    hide Reorders, Inv, Next;
    if e.Some? {
      OrderedStep(h, e.value);
    }
  }

  lemma ReorderStep(w: World, s: Step, fh: Fh)
    requires Good(w) && Allowed(w, s) && fh in w.open && fh in After(w, s).open && !w.open[fh].target.entry.append
    ensures fh in w.ledgers && fh in After(w, s).ledgers
    ensures After(w, s).ledgers[fh].ordered <==> w.ledgers[fh].ordered && !ReordersAt(w, s, fh)
  {
    hide Good, WorldOk, Inv, Drains, ApartWhileQuiet, Seen, View, Allowed, After, EventFor, Follows, Reorders,
      ReordersAt;
    GoodIsGood(w, fh);
    StepProjects(w, s, fh);
    AckIsFinish(w, s, fh);
    ModeSeen(w, fh);
    FollowingOrders(View(w, fh), EventFor(w, s, fh), View(After(w, s), fh));
    LedgerSeen(w, fh);
    LedgerSeen(After(w, s), fh);
  }

  lemma OnlyOpenReorder(w: World, s: Step, fh: Fh)
    requires fh !in w.open
    ensures !ReordersAt(w, s, fh)
  {
  }

  /** In every run a positioned handle counts as ordered if and only if no ack of one of its flushes
      removed chunks that were not order-safe where the rest of the queue left them uncovered. */
  lemma {:induction false} OrderedIff(ws: seq<World>, ss: seq<Step>, k: nat, fh: Fh)
    requires IsMountRun(ws, ss) && k < |ws| && fh in ws[k].open && !ws[k].open[fh].target.entry.append
    ensures |ws| == |ss| + 1 && fh in ws[k].ledgers
    ensures ws[k].ledgers[fh].ordered <==> forall j :: 0 <= j < k ==> !ReordersAt(ws[j], ss[j], fh)
  {
    hide IsMountRun, Good, Allowed, After, ReordersAt;
    StartIsEmpty(ws, ss);
    if k > 0 {
      RunStep(ws, ss, k - 1);
      if fh in ws[k - 1].open {
        ModeStays(ws[k - 1], ss[k - 1], fh);
        OrderedIff(ws, ss, k - 1, fh);
        ReorderStep(ws[k - 1], ss[k - 1], fh);
      } else {
        FreshLedger(ws[k - 1], ss[k - 1], fh);
        forall j: nat | j < k
          ensures !ReordersAt(ws[j], ss[j], fh)
        {
          NotOpenBefore(ws, ss, j, k - 1, fh);
          OnlyOpenReorder(ws[j], ss[j], fh);
        }
      }
    }
  }

  // ----- when write-back stops being write-through -----

  /** The background task drops the queue of `fh` as too old, and a byte of it is not in the file. */
  ghost predicate DropsAt(w: World, s: Step, fh: Fh) {
    s == DropAged(fh) && Seen(w, fh) && !AlreadyThere(FileOf(w, fh), Payload(w.Queue(fh)))
  }

  /** Bytes of another handle land in the file of `fh`, and the queue leaves one that is not there
      already visible. */
  ghost predicate IntrudesAt(w: World, s: Step, fh: Fh) {
    && Allowed(w, s) && (s.DeliverRun? || s.FailRun?) && Seen(w, fh)
    && var p := w.Phase(s.who);
       && p.fh != fh && p.rpc.Some? && p.rpc.value.path == w.open[fh].target.entry.path
       && !Invisible(FileOf(w, fh), LandsAs(p.rpc.value.append, FileOf(w, fh), PartOf(w, s)), Payload(w.Queue(fh)))
  }

  ghost predicate BreaksAt(w: World, s: Step, fh: Fh) {
    ReordersAt(w, s, fh) || DropsAt(w, s, fh) || IntrudesAt(w, s, fh)
  }

  lemma EmptyIsInvisible(f: Content, append: bool, r: Run, rs: seq<Run>)
    requires r.data == []
    ensures Invisible(f, LandsAs(append, f, r), rs)
  {
    hide ApplyAll, ByteOf;
  }

  lemma StoreVisibleIff(append: bool, f: Content, r: Run, rs: seq<Run>)
    ensures ApplyAll(Store(append, f, r), rs) != ApplyAll(f, rs) <==> !Invisible(f, LandsAs(append, f, r), rs)
  {
    hide ApplyAll, Invisible, Store, LandsAs;
    StoreIsWrite(append, f, r);
    AbsorbedIff(f, LandsAs(append, f, r), rs);
  }

  lemma IntrusionIsIntrusion(w: World, s: Step, fh: Fh)
    requires Allowed(w, s) && Seen(w, fh) && (s.DeliverRun? || s.FailRun?)
    ensures var e := EventFor(w, s, fh);
            IntrudesAt(w, s, fh) <==> e.Some? && e.value.Intrude? && Breaks(View(w, fh), e.value)
  {
    hide ApplyAll, Invisible, Store, LandsAs, Payload;
    var p := w.Phase(s.who);
    if p.rpc.Some? {
      StoreVisibleIff(p.rpc.value.append, FileOf(w, fh), PartOf(w, s), Payload(w.Queue(fh)));
      if PartOf(w, s).data == [] {
        EmptyIsInvisible(FileOf(w, fh), p.rpc.value.append, PartOf(w, s), Payload(w.Queue(fh)));
      }
    }
  }

  lemma BreakIsBreak(w: World, s: Step, fh: Fh)
    requires Allowed(w, s) && Seen(w, fh)
    ensures var e := EventFor(w, s, fh); BreaksAt(w, s, fh) <==> e.Some? && Breaks(View(w, fh), e.value)
  {
    hide ApplyAll, Invisible, AlreadyThere, Reorders, Store, LandsAs, Payload;
    AckIsFinish(w, s, fh);
    if s.DeliverRun? || s.FailRun? {
      IntrusionIsIntrusion(w, s, fh);
    }
  }

  lemma FollowingBreaks(h: Handle, e: Option<Event>, h': Handle)
    requires Inv(h) && !h.append && |h.led.fates| <= |h.led.accepted| && Unbroken(h) && Follows(h, e, h')
    ensures Overlaid(h') <==> !(e.Some? && Breaks(h, e.value))
  {
    hide Inv, Unbroken, Overlaid, Breaks, Next, Enabled;
    if e.Some? {
      BreaksIff(h, e.value);
    } else {
      UnbrokenIsOverlaid(h);
    }
  }

  lemma BreakStep(w: World, s: Step, fh: Fh)
    requires Good(w) && Allowed(w, s) && fh in w.open && fh in After(w, s).open && !w.open[fh].target.entry.append
    requires Seen(w, fh) && |View(w, fh).led.fates| <= |View(w, fh).led.accepted| && Unbroken(View(w, fh))
    ensures Seen(After(w, s), fh) && (Overlaid(View(After(w, s), fh)) <==> !BreaksAt(w, s, fh))
  {
    hide Good, WorldOk, Inv, Drains, ApartWhileQuiet, Seen, View, Allowed, After, EventFor, Follows, Unbroken, Overlaid,
      Breaks, BreaksAt;
    GoodIsGood(w, fh);
    ModeSeen(w, fh);
    StepProjects(w, s, fh);
    BreakIsBreak(w, s, fh);
    FollowingBreaks(View(w, fh), EventFor(w, s, fh), View(After(w, s), fh));
  }

  /** Exactly when write-back stops being write-through: in every run, from a state of a positioned
      handle in which nothing with bytes was dropped, no ack reordered and no released handle's bytes
      are in the file, the next step leaves the queue over the file equal to every accepted write over
      the original if and only if it is not the ack of chunks the sort reordered visibly, not a drop
      of bytes that are not in the file, and not the landing of a released handle's bytes where the
      queue leaves them visible. */
  lemma {:induction false} RefinementBreaksIff(ws: seq<World>, ss: seq<Step>, k: nat, fh: Fh)
    requires IsMountRun(ws, ss) && k < |ss| < |ws| && fh in ws[k].open && !ws[k].open[fh].target.entry.append
    requires fh in ws[k].ledgers && |ws[k].ledgers[fh].fates| <= |ws[k].ledgers[fh].accepted|
    requires fh !in ws[k].intruded && ws[k].ledgers[fh].ordered && Intact(ws[k].ledgers[fh])
    requires fh in ws[k + 1].open
    ensures Seen(ws[k + 1], fh)
    ensures ApplyAll(FileOf(ws[k + 1], fh), Payload(ws[k + 1].Queue(fh))) == WrittenThrough(ws[k + 1].ledgers[fh]) <==>
            !BreaksAt(ws[k], ss[k], fh)
  {
    hide IsMountRun, Good, Allowed, After, ApplyAll, Payload, Intact, BreaksAt, WorldOk, Inv, Drains, ApartWhileQuiet;
    RunStep(ws, ss, k);
    GoodIsGood(ws[k], fh);
    BreakStep(ws[k], ss[k], fh);
  }

  // ----- when no ack reorders -----

  /** Writes to `fh` in the first `k` steps start no lower than the queued chunks they overlap. */
  ghost predicate AscendingRun(ws: seq<World>, ss: seq<Step>, k: nat, fh: Fh)
    requires k <= |ss| < |ws|
  {
    forall j :: 0 <= j < k ==> AscendsAt(ws[j], ss[j], fh)
  }

  ghost predicate AscendsAt(w: World, s: Step, fh: Fh) {
    s.Write? && s.fh == fh && Seen(w, fh) ==> WritesAscend(View(w, fh), Accept(s.c))
  }

  ghost predicate Ascending(w: World, fh: Fh) {
    Seen(w, fh) && QueueAscends(View(w, fh))
  }

  lemma FollowingAscends(h: Handle, e: Option<Event>, h': Handle)
    requires Conserved(h) && InBounds(h) && QueueAscends(h) && Follows(h, e, h')
    requires e.Some? ==> WritesAscend(h, e.value)
    ensures QueueAscends(h')
  {
    hide QueueAscends, WritesAscend, Conserved, InBounds, Next, Enabled;
    if e.Some? {
      QueueAscendsStep(h, e.value);
    }
  }

  lemma AcceptsAreWrites(w: World, s: Step, fh: Fh)
    requires Allowed(w, s) && Seen(w, fh) && AscendsAt(w, s, fh)
    ensures var e := EventFor(w, s, fh); e.Some? ==> WritesAscend(View(w, fh), e.value)
  {
  }

  lemma AscendingIs(w: World, fh: Fh)
    ensures Ascending(w, fh) <==> Seen(w, fh) && QueueAscends(View(w, fh))
  {
  }

  lemma AscendingStep(w: World, s: Step, fh: Fh)
    requires Good(w) && Allowed(w, s) && fh in w.open && fh in After(w, s).open && Ascending(w, fh)
    requires AscendsAt(w, s, fh)
    ensures Ascending(After(w, s), fh)
  {
    hide Good, WorldOk, Inv, Drains, ApartWhileQuiet, Conserved, InBounds, Allowed, After, Seen, View, Follows,
      EventFor, QueueAscends, Ascending, AscendsAt, WritesAscend;
    GoodIsGood(w, fh);
    InvIsConserved(View(w, fh));
    StepProjects(w, s, fh);
    AscendingIs(w, fh);
    AcceptsAreWrites(w, s, fh);
    FollowingAscends(View(w, fh), EventFor(w, s, fh), View(After(w, s), fh));
    AscendingIs(After(w, s), fh);
  }

  lemma NewHandleAscends(w: World, s: Step, fh: Fh)
    requires Good(w) && Allowed(w, s) && fh !in w.open && fh in After(w, s).open
    ensures Ascending(After(w, s), fh)
  {
    hide WorldOk, GoodHandle, View, Seen, OpenStep;
    OnlyOpenAdds(w, s, fh);
    NewHandleIsFresh(w, s.path, s.append);
    NothingQueuedAscends(s.append, w.files[s.path]);
  }

  lemma NothingQueuedAscends(append: bool, base: Content)
    ensures QueueAscends(Fresh(append, base))
  {
  }

  lemma AscendsSoFar(ws: seq<World>, ss: seq<Step>, k: nat, fh: Fh)
    requires 0 < k <= |ss| < |ws| && AscendingRun(ws, ss, k, fh)
    ensures AscendingRun(ws, ss, k - 1, fh) && AscendsAt(ws[k - 1], ss[k - 1], fh)
  {
    hide AscendsAt;
  }

  lemma {:induction false} AscendingRunAscends(ws: seq<World>, ss: seq<Step>, k: nat, fh: Fh)
    requires IsMountRun(ws, ss) && k < |ws| && fh in ws[k].open && AscendingRun(ws, ss, k, fh)
    ensures Ascending(ws[k], fh)
  {
    hide *;
    StartIsEmpty(ws, ss);
    if k > 0 {
      RunStep(ws, ss, k - 1);
      AscendsSoFar(ws, ss, k, fh);
      if fh in ws[k - 1].open {
        AscendingRunAscends(ws, ss, k - 1, fh);
        AscendingStep(ws[k - 1], ss[k - 1], fh);
      } else {
        NewHandleAscends(ws[k - 1], ss[k - 1], fh);
      }
    }
  }

  /** If every write to `fh` starts no lower than the queued chunks it overlaps, no ack of `fh`
      reordered. */
  lemma {:induction false} AscendingWritesAreOrdered(ws: seq<World>, ss: seq<Step>, k: nat, fh: Fh)
    requires IsMountRun(ws, ss) && k < |ws| && fh in ws[k].open && AscendingRun(ws, ss, k, fh)
    ensures fh in ws[k].ledgers && ws[k].ledgers[fh].ordered
  {
    hide IsMountRun, AscendingRun, Payload;
    AscendingRunAscends(ws, ss, k, fh);
  }

  /** The promise in the application's own terms: a positioned handle opened while no flush of a
      released handle was under way on its path, whose writes start no lower than the queued chunks
      they overlap, no error seen, no mark pending: an Ok means the server's file is the original
      with every write applied in order. */
  lemma {:induction false} AscendingOkMeansWrittenThrough(ws: seq<World>, ss: seq<Step>, j: nat, k: nat)
    requires IsMountRun(ws, ss) && j < k < |ss| && ss[j].Open? && !ss[j].append && ss[k] == Answer
    requires !(ws[j].bg.Flushing? && ws[j].bg.target.entry.path == ss[j].path)
    requires var w, fh := ws[k], ws[j].nextFh;
             && w.fuse.fh == fh && fh in w.open && AscendingRun(ws, ss, k, fh)
             && FlushReply(w.fuse.err, fh in w.errors).None?
             && fh in w.ledgers && w.ledgers[fh].reported == 0 && !MarkPending(w, fh)
    ensures var w, fh := ws[k], ws[j].nextFh;
            Seen(w, fh) && FileOf(w, fh) == WrittenThrough(w.ledgers[fh])
  {
    hide IsMountRun, AscendingRun, FlushReply, ApplyAll, Payload, Allowed;
    StartIsEmpty(ws, ss);
    var fh := ws[j].nextFh;
    CleanOpensStayAlone(ws, ss, j, k);
    OpenedMode(ws, ss, j, k);
    AscendingWritesAreOrdered(ws, ss, k, fh);
    OkReplyMeansWrittenThrough(ws, ss, k);
  }

  lemma OpensInMode(w: World, path: Path, append: bool)
    requires Allowed(w, Open(path, append))
    ensures var w' := After(w, Open(path, append));
            w.nextFh in w'.open && w'.open[w.nextFh].target.entry.append == append
  {
  }

  lemma {:induction false} OpenedMode(ws: seq<World>, ss: seq<Step>, j: nat, k: nat)
    requires IsMountRun(ws, ss) && j < k < |ws| && j < |ss| && ss[j].Open?
    ensures ws[j].nextFh in ws[k].open ==> ws[k].open[ws[j].nextFh].target.entry.append == ss[j].append
    decreases k
  {
    hide IsMountRun, Good, Allowed, After;
    StartIsEmpty(ws, ss);
    RunStep(ws, ss, k - 1);
    var fh := ws[j].nextFh;
    if k == j + 1 {
      OpensInMode(ws[j], ss[j].path, ss[j].append);
    } else {
      OpenedMode(ws, ss, j, k - 1);
      NextFhGrows(ws, ss, j + 1, k - 1);
      RunStep(ws, ss, j);
      NextFhStep(ws[j], ss[j]);
      if fh in ws[k].open {
        if fh in ws[k - 1].open {
          ModeStays(ws[k - 1], ss[k - 1], fh);
        } else {
          FreshLedger(ws[k - 1], ss[k - 1], fh);
        }
      }
    }
  }
}
