/** The histories the theorems speak of, read off the run: what was accepted on a handle, what its file
    was when it was opened, how far errors have been reported, and who disturbed it. */
module MountHistory {
  import opened FileModel
  import opened Coalescing
  import opened Buffers
  import opened HandleProtocol
  import opened HandleRuns
  import opened Mount
  import opened MountRuns
  import opened MountTheorems
  import opened MountErrors

  // ----- one handle -----

  /** What the event does to the history, fates and batches aside. */
  predicate Recorded(h: Handle, e: Event, h': Handle) {
    var l, l' := h.led, h'.led;
    && l'.base == l.base
    && l'.accepted == (if e.Accept? then l.accepted + [e.c] else l.accepted)
    && l'.reported == (if e.Reply? && h.fuse.Replying? && (h.fuse.err.Some? || h.sticky) then |l.accepted|
                       else l.reported)
    && (l'.undisturbed <==> l.undisturbed && !(e.ReopenDrop? && h.bg.Sending?))
    && (h'.alone <==> h.alone && !e.Intrude?)
  }

  lemma FailRecorded(h: Handle, who: Who, k: nat)
    requires Enabled(h, Fail(who, k))
    ensures Recorded(h, Fail(who, k), HandleProtocol.FailStep(h, who, k))
  {
    hide Store, Repeat, LostBy, FailedEntry;
  }

  lemma FinishRecorded(h: Handle, who: Who)
    requires Enabled(h, Finish(who))
    ensures Recorded(h, Finish(who), FinishStep(h, who))
  {
    hide AckFates, AckedEntry, SentInOrder;
  }

  lemma DropRecorded(h: Handle, e: Event)
    requires Enabled(h, e) && (e.ReopenDrop? || e.AgeDrop?)
    ensures Recorded(h, e, Next(h, e))
  {
    hide Repeat, LostBy, LastWithData;
  }

  lemma SendRecorded(h: Handle, e: Event)
    requires Enabled(h, e) && (e.Begin? || e.Deliver?)
    ensures Recorded(h, e, Next(h, e))
  {
    hide Store, FlightOf, Snapshot, Payload, DataOf;
  }

  lemma {:induction false} HistoryStep(h: Handle, e: Event)
    requires Enabled(h, e)
    ensures Recorded(h, e, Next(h, e))
  {
    hide HandleProtocol.BeginStep, HandleProtocol.DeliverStep, HandleProtocol.FailStep, FinishStep, ReopenDropStep,
      AgeDropStep, Enqueued;
    if e.Fail? {
      FailRecorded(h, e.who, e.k);
    } else if e.Finish? {
      FinishRecorded(h, e.who);
    } else if e.ReopenDrop? || e.AgeDrop? {
      DropRecorded(h, e);
    } else if e.Begin? || e.Deliver? {
      SendRecorded(h, e);
    }
  }

  // ----- the steps of the client -----

  /** A write to `fh` is taken into the buffer. */
  ghost predicate TakenAt(w: World, s: Step, fh: Fh) {
    s.Write? && s.fh == fh && TableBytes(w.bufs) + |s.c.run.data| <= w.hardCap
  }

  /** flush() or fsync() of `fh` answers with an error. */
  predicate ReportsAt(w: World, s: Step, fh: Fh) {
    AnswersAt(w, s, fh) && (w.fuse.err.Some? || fh in w.errors)
  }

  /** A reopen looks at the queue of `fh` and drops it while the background task is flushing it. */
  predicate DisturbsAt(w: World, s: Step, fh: Fh) {
    && s.DropUnreplayable? && w.fuse.Restamped? && w.fuse.fh == fh && fh in w.bufs
    && w.bg.Flushing? && w.bg.fh == fh
  }

  /** Bytes of another handle's flush land in the file of `fh`. */
  ghost predicate LandsInAt(w: World, s: Step, fh: Fh) {
    && Allowed(w, s) && (s.DeliverRun? || s.FailRun?) && w.Phase(s.who).fh != fh
    && Reaches(w, s.who, fh) && PartOf(w, s).data != []
  }

  lemma EventIs(w: World, s: Step, fh: Fh)
    requires Allowed(w, s) && Seen(w, fh)
    ensures var e, v := EventFor(w, s, fh), View(w, fh);
            && (TakenAt(w, s, fh) <==> e.Some? && e.value.Accept?)
            && (TakenAt(w, s, fh) ==> e.value.c == s.c)
            && (ReportsAt(w, s, fh) <==> e == Some(Reply) && v.fuse.Replying? && (v.fuse.err.Some? || v.sticky))
            && (DisturbsAt(w, s, fh) <==> e == Some(ReopenDrop) && v.bg.Sending?)
            && (LandsInAt(w, s, fh) <==> e.Some? && e.value.Intrude?)
  {
    hide TableBytes, Knows, Store, FlushReply;
  }

  lemma FollowingHistory(h: Handle, e: Option<Event>, h': Handle)
    requires Follows(h, e, h')
    ensures if e.Some? then Recorded(h, e.value, h') else h' == h
  {
    hide Next, Recorded;
    if e.Some? {
      HistoryStep(h, e.value);
    }
  }

  lemma {:induction false} LedgerStep(w: World, s: Step, fh: Fh)
    requires Good(w) && Allowed(w, s) && fh in w.open && fh in After(w, s).open
    ensures fh in w.ledgers && fh in After(w, s).ledgers
    ensures var l, l' := w.ledgers[fh], After(w, s).ledgers[fh];
            && l'.base == l.base
            && l'.accepted == (if TakenAt(w, s, fh) then l.accepted + [s.c] else l.accepted)
            && l'.reported == (if ReportsAt(w, s, fh) then |l.accepted| else l.reported)
            && (l'.undisturbed <==> l.undisturbed && !DisturbsAt(w, s, fh))
    ensures fh in After(w, s).intruded <==> fh in w.intruded || LandsInAt(w, s, fh)
  {
    hide Good, WorldOk, Inv, Drains, ApartWhileQuiet, Seen, View, Allowed, After, EventFor, Follows, TakenAt, ReportsAt,
      DisturbsAt, LandsInAt;
    GoodIsGood(w, fh);
    StepProjects(w, s, fh);
    EventIs(w, s, fh);
    FollowingHistory(View(w, fh), EventFor(w, s, fh), View(After(w, s), fh));
    LedgerSeen(w, fh);
    LedgerSeen(After(w, s), fh);
    AloneSeen(w, fh);
    AloneSeen(After(w, s), fh);
    TakenIsWrite(w, s, fh);
  }

  lemma TakenIsWrite(w: World, s: Step, fh: Fh)
    ensures TakenAt(w, s, fh) ==> s.Write?
  {
  }

  lemma NewHistory(w: World, s: Step, fh: Fh)
    requires Good(w) && Allowed(w, s) && fh !in w.open && fh in After(w, s).open
    ensures s.Open? && fh == w.nextFh && s.path in w.files && fh in After(w, s).ledgers
    ensures After(w, s).open[fh].target.entry == Entry(s.path, s.append)
    ensures After(w, s).ledgers[fh] == Opened(w.files[s.path]) && fh !in After(w, s).intruded
  {
    hide WorldOk, GoodHandle;
    OnlyOpenAdds(w, s, fh);
    NewHandleIsFresh(w, s.path, s.append);
  }

  // ----- every run -----

  /** The writes to `fh` taken in the first `k` steps, in order. */
  ghost function Written(ws: seq<World>, ss: seq<Step>, k: nat, fh: Fh): seq<Chunk>
    requires k <= |ss| < |ws|
  {
    if k == 0 then []
    else
      var rest := Written(ws, ss, k - 1, fh);
      if TakenAt(ws[k - 1], ss[k - 1], fh) then rest + [ss[k - 1].c] else rest
  }

  /** How many writes to `fh` had been taken when an error was last reported. */
  ghost function Reported(ws: seq<World>, ss: seq<Step>, k: nat, fh: Fh): nat
    requires k <= |ss| < |ws|
  {
    if k == 0 then 0
    else if ReportsAt(ws[k - 1], ss[k - 1], fh) then |Written(ws, ss, k - 1, fh)|
    else Reported(ws, ss, k - 1, fh)
  }

  lemma {:induction false} NothingBefore(ws: seq<World>, ss: seq<Step>, k: nat, fh: Fh)
    requires IsMountRun(ws, ss) && k < |ws| && ws[k].nextFh <= fh
    ensures |ws| == |ss| + 1 && Written(ws, ss, k, fh) == [] && Reported(ws, ss, k, fh) == 0
    ensures forall j :: 0 <= j < k ==> !DisturbsAt(ws[j], ss[j], fh) && fh !in ws[j].open
  {
    hide IsMountRun, Good, Allowed, After, TakenAt, ReportsAt, DisturbsAt;
    StartIsEmpty(ws, ss);
    if k > 0 {
      NextFhGrows(ws, ss, k - 1, k);
      NothingBefore(ws, ss, k - 1, fh);
      NotOpenBefore(ws, ss, k - 1, k, fh);
      RunStep(ws, ss, k - 1);
      OnlyOpenHaveHistory(ws[k - 1], ss[k - 1], fh);
    }
  }

  lemma OnlyOpenHaveHistory(w: World, s: Step, fh: Fh)
    requires Good(w) && Allowed(w, s) && fh !in w.open
    ensures !TakenAt(w, s, fh) && !ReportsAt(w, s, fh) && !DisturbsAt(w, s, fh)
  {
    hide GoodHandle, HandlesOk, BackgroundOk, TargetOk, TableBytes;
    OwnPhase(w, Fuse);
  }

  /** In every run the ledger of an open handle is the history of the run: `accepted` is every write to
      it that was taken, in order; `reported` is how many of them came before the last error answer;
      `undisturbed` means no reopen ever dropped its queue under a background flush; and it counts as
      intruded upon exactly when another handle's bytes landed in its file. */
  lemma {:induction false} LedgerIsHistory(ws: seq<World>, ss: seq<Step>, k: nat, fh: Fh)
    requires IsMountRun(ws, ss) && k < |ws| && fh in ws[k].open
    ensures |ws| == |ss| + 1 && fh in ws[k].ledgers
    ensures ws[k].ledgers[fh].accepted == Written(ws, ss, k, fh)
    ensures ws[k].ledgers[fh].reported == Reported(ws, ss, k, fh)
    ensures ws[k].ledgers[fh].undisturbed <==> forall j :: 0 <= j < k ==> !DisturbsAt(ws[j], ss[j], fh)
    ensures fh in ws[k].intruded <==> exists j :: 0 <= j < k && fh in ws[j].open && LandsInAt(ws[j], ss[j], fh)
  {
    hide IsMountRun, Good, Allowed, After, TakenAt, ReportsAt, DisturbsAt, LandsInAt;
    StartIsEmpty(ws, ss);
    if k > 0 {
      RunStep(ws, ss, k - 1);
      if fh in ws[k - 1].open {
        LedgerIsHistory(ws, ss, k - 1, fh);
        LedgerStep(ws[k - 1], ss[k - 1], fh);
      } else {
        NewHistory(ws[k - 1], ss[k - 1], fh);
        NothingBefore(ws, ss, k - 1, fh);
        OnlyOpenHaveHistory(ws[k - 1], ss[k - 1], fh);
      }
    }
  }

  /** Step `j` opened `fh`. */
  ghost predicate OpenedAt(ws: seq<World>, ss: seq<Step>, j: nat, fh: Fh) {
    j < |ss| && j < |ws| && ss[j].Open? && ws[j].nextFh == fh && ss[j].path in ws[j].files
  }

  /** In every run an open handle stands for the path and mode it was opened with, and its base is the
      file as it was then. */
  lemma {:induction false} HandleIsAsOpened(ws: seq<World>, ss: seq<Step>, k: nat, fh: Fh) returns (j: nat)
    requires IsMountRun(ws, ss) && k < |ws| && fh in ws[k].open
    ensures |ws| == |ss| + 1 && j < k && OpenedAt(ws, ss, j, fh) && fh in ws[k].ledgers
    ensures ws[k].open[fh].target.entry == Entry(ss[j].path, ss[j].append)
    ensures ws[k].ledgers[fh].base == ws[j].files[ss[j].path]
  {
    hide IsMountRun, Good, Allowed, After;
    StartIsEmpty(ws, ss);
    RunStep(ws, ss, k - 1);
    if fh in ws[k - 1].open {
      j := HandleIsAsOpened(ws, ss, k - 1, fh);
      ModeStays(ws[k - 1], ss[k - 1], fh);
      LedgerStep(ws[k - 1], ss[k - 1], fh);
    } else {
      NewHistory(ws[k - 1], ss[k - 1], fh);
      j := k - 1;
    }
  }

  // ----- what became of each write -----

  predicate IsAcked(l: Ledger, i: nat) {
    i < |l.fates| && l.fates[i] == Acked
  }

  predicate IsDropped(l: Ledger, i: nat) {
    i < |l.fates| && l.fates[i] == Dropped
  }

  predicate IsQueued(l: Ledger, i: nat) {
    |l.fates| <= i < |l.accepted|
  }

  /** The event throws the queue away. */
  predicate Discards(h: Handle, e: Event) {
    e.AgeDrop? || e.ReopenDrop? || (e.Fail? && h.append)
  }

  /** The event is the ack of a flush that sent chunk `i`, and removes it. */
  predicate Acks(h: Handle, e: Event, i: nat) {
    && e.Finish? && h.Actor(e.who).Sending?
    && var fl := h.Actor(e.who).flight;
       && |h.led.fates| <= i < |h.led.fates| + AckRemoves(fl, h.Queue())
       && fl.from <= i < fl.from + fl.count
  }

  lemma DiscardLedger(h: Handle, e: Event)
    requires Enabled(h, e) && Discards(h, e)
    ensures Next(h, e).led.fates == h.led.fates + Repeat(Dropped, |h.Queue()|)
  {
    hide HandleProtocol.FailStep, LostBy, LastWithData, Repeat;
    if e.Fail? {
      FailDiscards(h, e.who, e.k);
    }
  }

  lemma FailDiscards(h: Handle, who: Who, k: nat)
    requires Enabled(h, Fail(who, k)) && h.append
    ensures HandleProtocol.FailStep(h, who, k).led.fates == h.led.fates + Repeat(Dropped, |h.Queue()|)
  {
    hide Store, LostBy, FailedEntry, Repeat;
  }

  lemma DiscardFates(h: Handle, e: Event, i: nat)
    requires Conserved(h) && Enabled(h, e) && Discards(h, e)
    ensures IsDropped(Next(h, e).led, i) <==> IsDropped(h.led, i) || IsQueued(h.led, i)
    ensures IsAcked(Next(h, e).led, i) <==> IsAcked(h.led, i)
  {
    hide Next, Repeat;
    DiscardLedger(h, e);
  }

  lemma AckFatesOf(h: Handle, who: Who, i: nat)
    requires Conserved(h) && Enabled(h, Finish(who))
    ensures var l' := FinishStep(h, who).led;
            && (IsDropped(l', i) <==> IsDropped(h.led, i))
            && (IsAcked(l', i) <==> IsAcked(h.led, i) || Acks(h, Finish(who), i))
  {
    hide AckedEntry, SentInOrder;
  }

  lemma SendingFates(h: Handle, e: Event)
    requires Enabled(h, e) && !Discards(h, e) && (e.Begin? || e.Deliver? || e.Fail?)
    ensures Next(h, e).led.fates == h.led.fates
  {
    hide Store, LostBy, FlightOf, FailedEntry, Snapshot, Payload, DataOf;
  }

  lemma OtherFates(h: Handle, e: Event)
    requires Enabled(h, e) && !Discards(h, e) && !e.Finish?
    ensures Next(h, e).led.fates == h.led.fates
  {
    hide HandleProtocol.BeginStep, HandleProtocol.DeliverStep, HandleProtocol.FailStep, Enqueued, FlushReply;
    if e.Begin? || e.Deliver? || e.Fail? {
      SendingFates(h, e);
    }
  }

  lemma {:induction false} FateStep(h: Handle, e: Event, i: nat)
    requires Conserved(h) && Enabled(h, e)
    ensures IsDropped(Next(h, e).led, i) <==> IsDropped(h.led, i) || (Discards(h, e) && IsQueued(h.led, i))
    ensures IsAcked(Next(h, e).led, i) <==> IsAcked(h.led, i) || Acks(h, e, i)
  {
    hide Conserved, AcceptStep, HandleProtocol.BeginStep, HandleProtocol.DeliverStep, HandleProtocol.FailStep,
      FinishStep, ReopenDropStep, AgeDropStep, ReplyStep;
    if Discards(h, e) {
      DiscardFates(h, e, i);
    } else if e.Finish? {
      AckFatesOf(h, e.who, i);
    } else {
      OtherFates(h, e);
    }
  }

  /** The step throws the queue of `fh` away: a failed send of an O_APPEND flush, a reopen of an
      O_APPEND handle, or its age. */
  predicate DiscardsAt(w: World, s: Step, fh: Fh) {
    || FailsAppendAt(w, s, Fuse, fh) || FailsAppendAt(w, s, Background, fh)
    || (s.DropUnreplayable? && w.fuse.Restamped? && w.fuse.fh == fh)
    || s == DropAged(fh)
  }

  predicate DropsChunkAt(w: World, s: Step, fh: Fh, i: nat) {
    DiscardsAt(w, s, fh) && fh in w.ledgers && IsQueued(w.ledgers[fh], i)
  }

  /** The step is the ack of a flush of `fh` that sent chunk `i`, and removes it. */
  predicate AcksChunkAt(w: World, s: Step, fh: Fh, i: nat) {
    && s.AckFlush? && w.Phase(s.who).Flushing? && w.Phase(s.who).fh == fh && fh in w.ledgers
    && var fl, l := w.Phase(s.who).flight, w.ledgers[fh];
       && |l.fates| <= i < |l.fates| + AckRemoves(fl, w.Queue(fh))
       && fl.from <= i < fl.from + fl.count
  }

  lemma DiscardIs(w: World, s: Step, fh: Fh, i: nat)
    requires Allowed(w, s) && Seen(w, fh) && Conserved(View(w, fh))
    ensures var e, v := EventFor(w, s, fh), View(w, fh);
            DropsChunkAt(w, s, fh, i) <==> e.Some? && Discards(v, e.value) && IsQueued(v.led, i)
  {
    hide TableBytes, Knows, Store;
  }

  lemma AckIs(w: World, s: Step, fh: Fh, i: nat)
    requires Allowed(w, s) && Seen(w, fh)
    ensures var e, v := EventFor(w, s, fh), View(w, fh); AcksChunkAt(w, s, fh, i) <==> e.Some? && Acks(v, e.value, i)
  {
    hide TableBytes, Knows, Store;
  }

  lemma FollowingFates(h: Handle, e: Option<Event>, h': Handle, i: nat)
    requires Conserved(h) && Follows(h, e, h')
    ensures IsDropped(h'.led, i) <==> IsDropped(h.led, i) || (e.Some? && Discards(h, e.value) && IsQueued(h.led, i))
    ensures IsAcked(h'.led, i) <==> IsAcked(h.led, i) || (e.Some? && Acks(h, e.value, i))
  {
    hide Conserved, Next, Enabled, Discards, Acks, IsDropped, IsAcked, IsQueued;
    if e.Some? {
      FateStep(h, e.value, i);
    }
  }

  lemma {:induction false} FateOfStep(w: World, s: Step, fh: Fh, i: nat)
    requires Good(w) && Allowed(w, s) && fh in w.open && fh in After(w, s).open
    ensures fh in w.ledgers && fh in After(w, s).ledgers
    ensures IsDropped(After(w, s).ledgers[fh], i) <==> IsDropped(w.ledgers[fh], i) || DropsChunkAt(w, s, fh, i)
    ensures IsAcked(After(w, s).ledgers[fh], i) <==> IsAcked(w.ledgers[fh], i) || AcksChunkAt(w, s, fh, i)
  {
    hide Good, WorldOk, Inv, Drains, ApartWhileQuiet, Conserved, InBounds, Seen, View, Allowed, After, EventFor,
      Follows, DropsChunkAt, AcksChunkAt, IsDropped, IsAcked, IsQueued, Discards, Acks;
    GoodIsGood(w, fh);
    InvIsConserved(View(w, fh));
    StepProjects(w, s, fh);
    DiscardIs(w, s, fh, i);
    AckIs(w, s, fh, i);
    FollowingFates(View(w, fh), EventFor(w, s, fh), View(After(w, s), fh), i);
    LedgerSeen(w, fh);
    LedgerSeen(After(w, s), fh);
  }

  lemma NothingYet(l: Ledger, i: nat)
    requires l.fates == []
    ensures !IsDropped(l, i) && !IsAcked(l, i)
  {
  }

  /** In every run a write taken on an open handle counts as dropped if and only if some step threw the
      queue away while the write was in it, and as acked if and only if some step was the ack of a
      flush that had sent it and removed it. */
  lemma {:induction false} FateIff(ws: seq<World>, ss: seq<Step>, k: nat, fh: Fh, i: nat)
    requires IsMountRun(ws, ss) && k < |ws| && fh in ws[k].open
    ensures |ws| == |ss| + 1 && fh in ws[k].ledgers
    ensures IsDropped(ws[k].ledgers[fh], i) <==>
            exists j :: 0 <= j < k && fh in ws[j].open && DropsChunkAt(ws[j], ss[j], fh, i)
    ensures IsAcked(ws[k].ledgers[fh], i) <==>
            exists j :: 0 <= j < k && fh in ws[j].open && AcksChunkAt(ws[j], ss[j], fh, i)
  {
    hide IsMountRun, Good, Allowed, After, DropsChunkAt, AcksChunkAt, IsDropped, IsAcked;
    StartIsEmpty(ws, ss);
    if k > 0 {
      RunStep(ws, ss, k - 1);
      if fh in ws[k - 1].open {
        FateIff(ws, ss, k - 1, fh, i);
        FateOfStep(ws[k - 1], ss[k - 1], fh, i);
      } else {
        FreshLedger(ws[k - 1], ss[k - 1], fh);
        NothingYet(ws[k].ledgers[fh], i);
        forall j: nat | j < k
          ensures fh !in ws[j].open
        {
          NotOpenBefore(ws, ss, j, k - 1, fh);
        }
      }
    }
  }

  /** A release the server hears of makes it forget the handle, if the current connection issued it, and
      no other; one it does not hear of changes nothing there. */
  lemma {:induction false} ReleaseForgets(w: World, fh: Fh, heard: bool)
    requires Good(w) && Allowed(w, Release(fh, heard))
    ensures var w', t := After(w, Release(fh, heard)), w.open[fh].target;
            && fh !in w'.open && fh !in w'.bufs && |w'.sessions| == |w.sessions|
            && (heard && t.issuer == w.Gen() ==> t.handle !in w'.sessions[t.issuer].table)
            && (!heard ==> w'.sessions == w.sessions)
            && forall g, id :: 0 <= g < |w.sessions| && id != t.handle ==>
                                 (id in w'.sessions[g].table <==> id in w.sessions[g].table)
  {
    hide GoodHandle;
  }

  // ----- flushes use live handles -----

  /** The actor is between `ensure_live` and the end of `flush_one`. */
  predicate Busy(p: Phase) {
    p.Resolving? || p.Reopened? || p.Restamped? || p.Ready? || p.Flushing?
  }

  /** The actor works on a handle that is no older than generation `g`, or is about to get one. */
  predicate Live(p: Phase, g: int) {
    match p
    case Resolving(_, cur) => cur == g
    case Reopened(_, cur, t) => cur == g && g <= t.issuer
    case Restamped(_, t) => g <= t.issuer
    case Ready(_, t) => g <= t.issuer
    case Flushing(_, t, _, _) => g <= t.issuer
    case _ => true
  }

  /** `who` called `ensure_live` for `fh` at step `j` and has been at it up to `k`. */
  ghost predicate ResolvedAt(ws: seq<World>, ss: seq<Step>, j: nat, k: nat, who: Who, fh: Fh)
    requires k <= |ss| < |ws|
  {
    && j < k && ss[j] == Resolve(who, fh)
    && forall i :: j < i <= k ==> Busy(ws[i].Phase(who)) && ws[i].Phase(who).fh == fh
  }

  lemma ResolveIsLive(w: World, who: Who, fh: Fh)
    requires Good(w) && Allowed(w, Resolve(who, fh))
    ensures var p := After(w, Resolve(who, fh)).Phase(who); Busy(p) && p.fh == fh && Live(p, w.Gen())
  {
    hide GoodHandle, PhaseOk;
    assert OpenOk(w, fh);
  }

  lemma BusyGoesOn(w: World, s: Step, who: Who, g: int)
    requires Good(w) && Allowed(w, s) && Busy(After(w, s).Phase(who)) && !(s.Resolve? && s.who == who)
    ensures Busy(w.Phase(who)) && After(w, s).Phase(who).fh == w.Phase(who).fh
    ensures Live(w.Phase(who), g) && g <= w.Gen() ==> Live(After(w, s).Phase(who), g)
  {
    hide Good, WorldOk, PhaseOk, SessionsOk, TargetOk, LedgerBegin, LedgerDrop, LostBy, FlightOf, TableBytes, Enqueued,
      FlushReply, Mount.DeliverStep, Mount.FailStep, AckStep;
    if s.DeliverRun? || s.FailRun? || s.AckFlush? {
      SendingGoesOn(w, s, who);
    }
  }

  lemma SendingGoesOn(w: World, s: Step, who: Who)
    requires Allowed(w, s) && (s.DeliverRun? || s.FailRun? || s.AckFlush?)
    ensures var p, p' := w.Phase(who), After(w, s).Phase(who);
            Busy(p') ==> p' == p || (p.Flushing? && p'.Flushing? && p'.fh == p.fh && p'.target == p.target)
  {
    hide LedgerLand, LedgerAck, LedgerDrop, LostBy, Store, Others, AckedEntry, FailedEntry;
  }

  lemma {:induction false} GenGrows(ws: seq<World>, ss: seq<Step>, j: nat, k: nat)
    requires IsMountRun(ws, ss) && j <= k < |ws|
    ensures |ws[j].sessions| <= |ws[k].sessions|
    decreases k
  {
    hide IsMountRun, Good, Allowed, After;
    if j < k {
      GenGrows(ws, ss, j, k - 1);
      StartIsEmpty(ws, ss);
      RunStep(ws, ss, k - 1);
      SessionsGrow(ws[k - 1], ss[k - 1]);
    }
  }

  lemma SessionsGrow(w: World, s: Step)
    requires Allowed(w, s)
    ensures |w.sessions| <= |After(w, s).sessions|
  {
    hide LedgerBegin, LedgerDrop, LostBy, FlightOf, TableBytes, Enqueued, FlushReply, Knows, Mount.DeliverStep,
      Mount.FailStep, AckStep;
    if s.DeliverRun? || s.FailRun? || s.AckFlush? {
      SendingKeepsSessions(w, s);
    }
  }

  lemma SendingKeepsSessions(w: World, s: Step)
    requires Allowed(w, s) && (s.DeliverRun? || s.FailRun? || s.AckFlush?)
    ensures After(w, s).sessions == w.sessions
  {
    hide LedgerLand, LedgerAck, LedgerDrop, LostBy, Store, Others, AckedEntry, FailedEntry;
  }

  /** In every run an actor flushes a handle only after `ensure_live`, and then with a server handle
      issued by the connection that was current at that moment or by a later one. */
  lemma {:induction false} FlushesUseLiveHandles(ws: seq<World>, ss: seq<Step>, k: nat, who: Who) returns (j: nat)
    requires IsMountRun(ws, ss) && k < |ws| && |ws| == |ss| + 1 && Busy(ws[k].Phase(who))
    ensures ResolvedAt(ws, ss, j, k, who, ws[k].Phase(who).fh) && Live(ws[k].Phase(who), ws[j].Gen())
  {
    hide IsMountRun, Good, Allowed, After, Live;
    StartsAtRest(ws, ss, who);
    var w, s := ws[k - 1], ss[k - 1];
    RunStep(ws, ss, k - 1);
    if s.Resolve? && s.who == who {
      ResolveIsLive(w, who, s.fh);
      j := k - 1;
    } else {
      BusyGoesOn(w, s, who, 0);
      j := FlushesUseLiveHandles(ws, ss, k - 1, who);
      GenGrows(ws, ss, j, k - 1);
      BusyGoesOn(w, s, who, ws[j].Gen());
    }
  }

  lemma StartsAtRest(ws: seq<World>, ss: seq<Step>, who: Who)
    requires IsMountRun(ws, ss)
    ensures !Busy(ws[0].Phase(who))
  {
  }
}
