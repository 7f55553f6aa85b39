/** When an error is reported: exactly which steps set a handle's sticky error, and what each answer
    of flush() and fsync() is. */
module MountErrors {
  import opened FileModel
  import opened Buffers
  import opened HandleProtocol
  import opened WriteThrough
  import opened AppendOnce
  import opened HandleRuns
  import opened Mount
  import opened MountRuns
  import opened MountTheorems

  predicate HasBytes(cs: seq<Chunk>) {
    exists i :: 0 <= i < |cs| && cs[i].run.data != []
  }

  lemma LastIffBytes(cs: seq<Chunk>)
    ensures LastWithData(cs).Some? <==> HasBytes(cs)
  {
  }

  // ----- one handle -----

  /** The event sets the sticky error. */
  predicate SetBy(h: Handle, e: Event) {
    match e
    case Refuse => true
    case Fail(who, _) => who.Fuse? && h.append
    case ReopenDrop => HasBytes(h.Queue())
    case Mark => true
    case _ => false
  }

  /** The event leaves the background task a sticky error to set. */
  predicate OwedBy(h: Handle, e: Event) {
    match e
    case Fail(who, _) => who.Background? && h.append
    case AgeDrop => HasBytes(h.Queue())
    case _ => false
  }

  lemma FailSticky(h: Handle, who: Who, k: nat)
    requires Enabled(h, Fail(who, k))
    ensures HandleProtocol.FailStep(h, who, k).sticky <==> SetBy(h, Fail(who, k)) || h.sticky
    ensures HandleProtocol.FailStep(h, who, k).bg.Marking? <==> OwedBy(h, Fail(who, k)) || h.bg.Marking?
  {
    hide Store, LedgerLand, LedgerDrop, LostBy, FailedEntry;
  }

  lemma DropSticky(h: Handle, e: Event)
    requires Enabled(h, e) && (e.ReopenDrop? || e.AgeDrop?)
    ensures Next(h, e).sticky <==> SetBy(h, e) || h.sticky
    ensures Next(h, e).bg.Marking? <==> OwedBy(h, e) || h.bg.Marking?
  {
    hide LedgerDrop, LastWithData;
    LastIffBytes(h.Queue());
  }

  /** What an event does to the sticky error and to the background task's debt. */
  lemma {:induction false} StickyStep(h: Handle, e: Event)
    requires Enabled(h, e)
    ensures Next(h, e).sticky <==> SetBy(h, e) || (h.sticky && !e.Reply?)
    ensures Next(h, e).bg.Marking? <==> OwedBy(h, e) || (h.bg.Marking? && !e.Mark?)
  {
    hide HandleProtocol.FailStep, ReopenDropStep, AgeDropStep, LedgerBegin, LedgerLand, LedgerAck, FlightOf, AckedEntry,
      Store, FlushReply, HasBytes;
    if e.Fail? {
      FailSticky(h, e.who, e.k);
    } else if e.ReopenDrop? || e.AgeDrop? {
      DropSticky(h, e);
    }
  }

  // ----- the steps of the client -----

  /** The write would take the buffer over its hard cap. */
  ghost predicate RefusedAt(w: World, s: Step, fh: Fh) {
    s.Write? && s.fh == fh && TableBytes(w.bufs) + |s.c.run.data| > w.hardCap
  }

  /** A Write RPC of an O_APPEND flush fails. */
  predicate FailsAppendAt(w: World, s: Step, who: Who, fh: Fh) {
    && s.FailRun? && s.who == who && w.Phase(who).Flushing? && w.Phase(who).fh == fh
    && fh in w.open && w.open[fh].target.entry.append
  }

  /** A reopen drops queued bytes. */
  predicate DropsReopenedAt(w: World, s: Step, fh: Fh) {
    s.DropUnreplayable? && w.fuse.Restamped? && w.fuse.fh == fh && HasBytes(w.Queue(fh))
  }

  /** The background task drops queued bytes that are too old. */
  predicate DropsOldAt(w: World, s: Step, fh: Fh) {
    s == DropAged(fh) && HasBytes(w.Queue(fh))
  }

  predicate MarksAt(w: World, s: Step, fh: Fh) {
    s.SetSticky? && w.bg.ToMark? && w.bg.fh == fh
  }

  ghost predicate SetAt(w: World, s: Step, fh: Fh) {
    RefusedAt(w, s, fh) || FailsAppendAt(w, s, Fuse, fh) || DropsReopenedAt(w, s, fh) || MarksAt(w, s, fh)
  }

  /** The background task drops bytes of `fh` and has yet to say so. */
  predicate OwedAt(w: World, s: Step, fh: Fh) {
    FailsAppendAt(w, s, Background, fh) || DropsOldAt(w, s, fh)
  }

  /** flush() or fsync() of `fh` answers, which takes the error. */
  predicate AnswersAt(w: World, s: Step, fh: Fh) {
    s == Answer && w.fuse.Answering? && w.fuse.fh == fh
  }

  predicate Owing(w: World, fh: Fh) {
    w.bg.ToMark? && w.bg.fh == fh
  }

  lemma SetIsSet(w: World, s: Step, fh: Fh)
    requires Allowed(w, s) && Seen(w, fh)
    ensures var e := EventFor(w, s, fh);
            && (SetAt(w, s, fh) <==> e.Some? && SetBy(View(w, fh), e.value))
            && (OwedAt(w, s, fh) <==> e.Some? && OwedBy(View(w, fh), e.value))
            && (AnswersAt(w, s, fh) <==> e == Some(Reply))
            && (MarksAt(w, s, fh) <==> e == Some(Mark))
  {
    hide TableBytes, Knows, Store, Intrusion;
    if s.DeliverRun? || s.FailRun? {
      NotSetByIntrusion(w, s, fh);
    }
  }

  lemma NotSetByIntrusion(w: World, s: Step, fh: Fh)
    requires Allowed(w, s) && Seen(w, fh) && (s.DeliverRun? || s.FailRun?)
    ensures var e := EventFor(w, s, fh);
            && (fh != w.Phase(s.who).fh ==> e.None? || e.value.Intrude?)
            && (fh == w.Phase(s.who).fh ==> e == Some(if s.DeliverRun? then Deliver(s.who) else Fail(s.who, s.k)))
  {
    hide Store, Knows;
  }

  lemma StickySeen(w: World, fh: Fh)
    requires Seen(w, fh)
    ensures View(w, fh).sticky <==> fh in w.errors
    ensures View(w, fh).bg.Marking? <==> Owing(w, fh)
  {
  }

  lemma FollowingSticky(h: Handle, e: Option<Event>, h': Handle)
    requires Follows(h, e, h')
    ensures h'.sticky <==> (e.Some? && SetBy(h, e.value)) || (h.sticky && e != Some(Reply))
    ensures h'.bg.Marking? <==> (e.Some? && OwedBy(h, e.value)) || (h.bg.Marking? && e != Some(Mark))
  {
    hide SetBy, OwedBy, Next, Enabled;
    if e.Some? {
      StickyStep(h, e.value);
    }
  }

  /** What one step does to the sticky error of an open handle, and to the background task's debt. */
  lemma {:induction false} ErrorStep(w: World, s: Step, fh: Fh)
    requires Good(w) && Allowed(w, s) && fh in w.open && fh in After(w, s).open
    ensures fh in After(w, s).errors <==> SetAt(w, s, fh) || (fh in w.errors && !AnswersAt(w, s, fh))
    ensures Owing(After(w, s), fh) <==> OwedAt(w, s, fh) || (Owing(w, fh) && !MarksAt(w, s, fh))
  {
    hide Good, WorldOk, Inv, Drains, ApartWhileQuiet, Seen, View, Allowed, After, EventFor, Follows, SetAt, OwedAt,
      AnswersAt, MarksAt, Owing, SetBy, OwedBy;
    GoodIsGood(w, fh);
    StepProjects(w, s, fh);
    SetIsSet(w, s, fh);
    FollowingSticky(View(w, fh), EventFor(w, s, fh), View(After(w, s), fh));
    StickySeen(w, fh);
    StickySeen(After(w, s), fh);
  }

  lemma NewHandleIsClear(w: World, s: Step, fh: Fh)
    requires Good(w) && Allowed(w, s) && fh !in w.open && fh in After(w, s).open
    ensures s.Open? && fh == w.nextFh && fh !in After(w, s).errors && !Owing(After(w, s), fh)
  {
    hide WorldOk, GoodHandle, View, Seen, OpenStep;
    OnlyOpenAdds(w, s, fh);
    NewHandleIsFresh(w, s.path, s.append);
    StickySeen(OpenStep(w, s.path, s.append), fh);
  }

  // ----- every run -----

  /** The event at step `j` happened to the open handle and no answer came between it and `k`. */
  ghost predicate SetSince(ws: seq<World>, ss: seq<Step>, j: nat, k: nat, fh: Fh)
    requires k <= |ss| < |ws|
  {
    && j < k && fh in ws[j].open && SetAt(ws[j], ss[j], fh)
    && forall i :: j < i < k ==> !AnswersAt(ws[i], ss[i], fh)
  }

  /** In every run a handle's sticky error is set if and only if, since its last answer, a write to it
      was refused, a send of the FUSE thread failed on an O_APPEND handle, a reopen dropped queued
      bytes of it, or the background task marked it. */
  lemma {:induction false} StickyIff(ws: seq<World>, ss: seq<Step>, k: nat, fh: Fh)
    requires IsMountRun(ws, ss) && k < |ws| && fh in ws[k].open
    ensures |ws| == |ss| + 1
    ensures fh in ws[k].errors <==> exists j: nat :: SetSince(ws, ss, j, k, fh)
  {
    hide IsMountRun, Good, Allowed, After, SetAt, AnswersAt;
    StartIsEmpty(ws, ss);
    if k > 0 {
      RunStep(ws, ss, k - 1);
      if fh in ws[k - 1].open {
        StickyIff(ws, ss, k - 1, fh);
        ErrorStep(ws[k - 1], ss[k - 1], fh);
        SetSinceNext(ws, ss, k - 1, k, fh);
      } else {
        NewHandleIsClear(ws[k - 1], ss[k - 1], fh);
        forall j: nat | j < k
          ensures fh !in ws[j].open
        {
          NotOpenBefore(ws, ss, j, k - 1, fh);
        }
      }
    }
  }

  lemma SetSinceNext(ws: seq<World>, ss: seq<Step>, m: nat, k: nat, fh: Fh)
    requires m + 1 == k <= |ss| < |ws| && fh in ws[m].open
    ensures (exists j: nat :: SetSince(ws, ss, j, k, fh)) <==>
            || SetAt(ws[m], ss[m], fh)
            || ((exists j: nat :: SetSince(ws, ss, j, m, fh)) && !AnswersAt(ws[m], ss[m], fh))
  {
    hide SetAt, AnswersAt;
    if SetAt(ws[m], ss[m], fh) {
      assert SetSince(ws, ss, m, k, fh);
    }
    if j: nat :| SetSince(ws, ss, j, k, fh) {
      assert j < m ==> SetSince(ws, ss, j, m, fh);
    }
    if j: nat :| SetSince(ws, ss, j, m, fh) {
      assert !AnswersAt(ws[m], ss[m], fh) ==> SetSince(ws, ss, j, k, fh);
    }
  }

  /** The background task dropped bytes of `fh` at step `j` and has not marked it up to `k`. */
  ghost predicate OwedSince(ws: seq<World>, ss: seq<Step>, j: nat, k: nat, fh: Fh)
    requires k <= |ss| < |ws|
  {
    && j < k && fh in ws[j].open && OwedAt(ws[j], ss[j], fh)
    && forall i :: j < i < k ==> !MarksAt(ws[i], ss[i], fh)
  }

  lemma OwedSinceNext(ws: seq<World>, ss: seq<Step>, m: nat, k: nat, fh: Fh)
    requires m + 1 == k <= |ss| < |ws| && fh in ws[m].open
    ensures (exists j: nat :: OwedSince(ws, ss, j, k, fh)) <==>
            || OwedAt(ws[m], ss[m], fh)
            || ((exists j: nat :: OwedSince(ws, ss, j, m, fh)) && !MarksAt(ws[m], ss[m], fh))
  {
    hide OwedAt, MarksAt;
    if OwedAt(ws[m], ss[m], fh) {
      assert OwedSince(ws, ss, m, k, fh);
    }
    if j: nat :| OwedSince(ws, ss, j, k, fh) {
      assert j < m ==> OwedSince(ws, ss, j, m, fh);
    }
    if j: nat :| OwedSince(ws, ss, j, m, fh) {
      assert !MarksAt(ws[m], ss[m], fh) ==> OwedSince(ws, ss, j, k, fh);
    }
  }

  /** In every run the background task has a mark to set, and so may set it next, if and only if since
      its last mark of the handle one of its sends failed on an O_APPEND handle or it dropped queued
      bytes that were too old. */
  lemma {:induction false} OwingIff(ws: seq<World>, ss: seq<Step>, k: nat, fh: Fh)
    requires IsMountRun(ws, ss) && k < |ws| && fh in ws[k].open
    ensures |ws| == |ss| + 1
    ensures Owing(ws[k], fh) <==> exists j: nat :: OwedSince(ws, ss, j, k, fh)
  {
    hide IsMountRun, Good, Allowed, After, OwedAt, MarksAt, Owing;
    StartIsEmpty(ws, ss);
    if k > 0 {
      RunStep(ws, ss, k - 1);
      if fh in ws[k - 1].open {
        OwingIff(ws, ss, k - 1, fh);
        ErrorStep(ws[k - 1], ss[k - 1], fh);
        OwedSinceNext(ws, ss, k - 1, k, fh);
      } else {
        NewHandleIsClear(ws[k - 1], ss[k - 1], fh);
        forall j: nat | j < k
          ensures fh !in ws[j].open
        {
          NotOpenBefore(ws, ss, j, k - 1, fh);
        }
      }
    }
  }

  // ----- no spurious error -----

  lemma PositionedCauses(w: World, s: Step, fh: Fh)
    requires Good(w) && Allowed(w, s) && fh in w.open && !w.open[fh].target.entry.append
    ensures SetAt(w, s, fh) ==> RefusedAt(w, s, fh) || MarksAt(w, s, fh)
    ensures OwedAt(w, s, fh) ==> DropsOldAt(w, s, fh)
  {
    hide GoodHandle, HandlesOk, BackgroundOk, TargetOk, RefusedAt, HasBytes;
    OwnPhase(w, Fuse);
  }

  /** No write to the positioned handle was refused and no bytes of it were dropped for their age from
      step `j` on. */
  ghost predicate NothingLost(ws: seq<World>, ss: seq<Step>, j: nat, k: nat, fh: Fh)
    requires k <= |ss| < |ws|
  {
    forall i :: j <= i < k ==> !RefusedAt(ws[i], ss[i], fh) && !DropsOldAt(ws[i], ss[i], fh)
  }

  lemma {:induction false} StaysClear(ws: seq<World>, ss: seq<Step>, j: nat, k: nat, fh: Fh)
    requires IsMountRun(ws, ss) && j <= k < |ws| && |ws| == |ss| + 1 && NothingLost(ws, ss, j, k, fh)
    requires fh in ws[j].open && fh in ws[k].open && !ws[k].open[fh].target.entry.append
    requires fh !in ws[j].errors && !Owing(ws[j], fh)
    ensures fh !in ws[k].errors && !Owing(ws[k], fh)
    decreases k
  {
    hide IsMountRun, Good, Allowed, After, SetAt, OwedAt, RefusedAt, DropsOldAt, MarksAt, Owing, HasBytes, AnswersAt;
    if j < k {
      var w, s := ws[k - 1], ss[k - 1];
      RunStep(ws, ss, k - 1);
      if fh in w.open {
        ModeStays(w, s, fh);
        StaysClear(ws, ss, j, k - 1, fh);
        ErrorStep(w, s, fh);
        PositionedCauses(w, s, fh);
        NoDebtNoMark(w, s, fh);
      } else {
        NewHandleIsClear(w, s, fh);
        NotOpenBefore(ws, ss, j, k - 1, fh);
      }
    }
  }

  lemma NoDebtNoMark(w: World, s: Step, fh: Fh)
    requires !Owing(w, fh)
    ensures !MarksAt(w, s, fh)
  {
  }

  /** No spurious error: in every run, if from some moment on, at which a positioned handle had no
      error set or owed, no write to it was refused and no bytes of it were dropped for their age, then
      a close() or fsync() that found the queue empty is answered Ok, whatever sends failed and were
      repeated in between. */
  lemma {:induction false} RetriedSendsAreNotErrors(ws: seq<World>, ss: seq<Step>, j: nat, k: nat, fh: Fh)
    requires IsMountRun(ws, ss) && j <= k < |ss| && |ws| == |ss| + 1 && NothingLost(ws, ss, j, k, fh)
    requires ss[k] == Answer && ws[k].fuse == Answering(fh, None)
    requires fh in ws[j].open && fh in ws[k].open && !ws[k].open[fh].target.entry.append
    requires fh !in ws[j].errors && !Owing(ws[j], fh)
    ensures FlushReply(ws[k].fuse.err, fh in ws[k].errors).None?
  {
    hide IsMountRun, NothingLost, Owing;
    StaysClear(ws, ss, j, k, fh);
  }

  lemma NothingLostLater(ws: seq<World>, ss: seq<Step>, j: nat, k: nat, fh: Fh)
    requires j < k <= |ss| < |ws| && NothingLost(ws, ss, j, k, fh)
    ensures NothingLost(ws, ss, j + 1, k, fh)
  {
    hide RefusedAt, DropsOldAt;
  }

  /** The same from the opening of the handle on. */
  lemma {:induction false} UndroppedCloseIsOk(ws: seq<World>, ss: seq<Step>, j: nat, k: nat)
    requires IsMountRun(ws, ss) && j < k < |ss| && |ws| == |ss| + 1 && ss[j].Open? && !ss[j].append
    requires NothingLost(ws, ss, j, k, ws[j].nextFh)
    requires ss[k] == Answer && ws[k].fuse == Answering(ws[j].nextFh, None) && ws[j].nextFh in ws[k].open
    ensures FlushReply(ws[k].fuse.err, ws[j].nextFh in ws[k].errors).None?
  {
    hide IsMountRun, Good, Allowed, After, NothingLost, Owing, FlushReply;
    var fh := ws[j].nextFh;
    RunStep(ws, ss, j);
    NotOpenBefore(ws, ss, j, j, fh);
    OpensInMode(ws[j], ss[j].path, ss[j].append);
    NewHandleIsClear(ws[j], ss[j], fh);
    OpenedMode(ws, ss, j, k);
    NothingLostLater(ws, ss, j, k, fh);
    RetriedSendsAreNotErrors(ws, ss, j + 1, k, fh);
  }

  // ----- what is answered -----

  /** flush() of `fh` ended its drain at step `j` with `err` and has not answered up to `k`. */
  ghost predicate DrainedAt(ws: seq<World>, ss: seq<Step>, j: nat, k: nat, fh: Fh, err: Option<int>)
    requires k <= |ss| < |ws|
  {
    && j < k
    && ((ss[j] == SawEmpty(fh) && err == None) || exists e :: ss[j] == GaveUp(fh, e) && err == Some(e))
    && forall i :: j < i <= k ==> ws[i].fuse == Answering(fh, err)
  }

  lemma AnsweringStep(w: World, s: Step)
    requires Good(w) && Allowed(w, s) && After(w, s).fuse.Answering?
    ensures var p := After(w, s).fuse;
            || w.fuse == p
            || (s == SawEmpty(p.fh) && p.err == None)
            || exists e :: s == GaveUp(p.fh, e) && p.err == Some(e)
  {
    hide Good, LedgerBegin, LedgerDrop, LostBy, FlightOf, TableBytes, Enqueued, FlushReply, Knows, Mount.DeliverStep,
      Mount.FailStep, AckStep;
    if s.DeliverRun? || s.FailRun? || s.AckFlush? {
      SendingLeavesAnswer(w, s);
    }
  }

  lemma SendingLeavesAnswer(w: World, s: Step)
    requires Allowed(w, s) && (s.DeliverRun? || s.FailRun? || s.AckFlush?)
    ensures After(w, s).fuse.Answering? ==> After(w, s).fuse == w.fuse
  {
    hide LedgerLand, LedgerAck, LedgerDrop, LostBy, Store, Others, AckedEntry, FailedEntry;
  }

  lemma {:induction false} AnsweringIsDrained(ws: seq<World>, ss: seq<Step>, k: nat) returns (j: nat)
    requires IsMountRun(ws, ss) && k < |ws| && |ws| == |ss| + 1 && ws[k].fuse.Answering?
    ensures DrainedAt(ws, ss, j, k, ws[k].fuse.fh, ws[k].fuse.err)
  {
    hide IsMountRun, Good, Allowed, After;
    StartsIdle(ws, ss);
    RunStep(ws, ss, k - 1);
    AnsweringStep(ws[k - 1], ss[k - 1]);
    if ws[k - 1].fuse == ws[k].fuse {
      j := AnsweringIsDrained(ws, ss, k - 1);
    } else {
      j := k - 1;
    }
  }

  lemma StartsIdle(ws: seq<World>, ss: seq<Step>)
    requires IsMountRun(ws, ss)
    ensures ws[0].fuse.Idle?
  {
  }

  /** Every answer, in every run: the errno of the drain that gave up, if it did; otherwise, the queue
      having been seen empty, EIO if and only if one of the four causes came since the last answer. */
  lemma {:induction false} EveryAnswer(ws: seq<World>, ss: seq<Step>, k: nat) returns (j: nat)
    requires IsMountRun(ws, ss) && k < |ss| && |ws| == |ss| + 1 && ss[k] == Answer && ws[k].fuse.Answering?
    requires ws[k].fuse.fh in ws[k].open
    ensures DrainedAt(ws, ss, j, k, ws[k].fuse.fh, ws[k].fuse.err)
    ensures var reply := FlushReply(ws[k].fuse.err, ws[k].fuse.fh in ws[k].errors);
            && (forall e :: ss[j] == GaveUp(ws[k].fuse.fh, e) ==> reply == Some(e))
            && (ss[j] == SawEmpty(ws[k].fuse.fh) ==>
                  reply == if exists i: nat :: SetSince(ws, ss, i, k, ws[k].fuse.fh) then Some(5) else None)
    ensures ws[k].fuse.fh !in ws[k + 1].errors && ws[k + 1].fuse.Idle?
  {
    hide IsMountRun, Good, Allowed, SetSince;
    RunStep(ws, ss, k);
    j := AnsweringIsDrained(ws, ss, k);
    StickyIff(ws, ss, k, ws[k].fuse.fh);
  }
}
