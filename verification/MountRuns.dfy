/** Every run of the whole client is, seen from any one open handle, a run of the single-handle
    protocol; so what was proved of one handle holds of all of them at once. */
module MountRuns {
  import opened FileModel
  import opened Buffers
  import opened HandleProtocol
  import opened HandleRuns
  import opened Mount

  function ActorOn(p: Phase, fh: Fh): Actor {
    match p
    case Flushing(f, _, fl, _) => if f == fh then Sending(fl) else Resting
    case ToMark(f, lost) => if f == fh then Marking(lost) else Resting
    case Answering(f, err) => if f == fh then Replying(err) else Resting
    case _ => Resting
  }

  predicate Seen(w: World, fh: Fh) {
    fh in w.open && fh in w.ledgers && w.open[fh].target.entry.path in w.files
  }

  /** The world as handle `fh` sees it. */
  function View(w: World, fh: Fh): Handle
    requires Seen(w, fh)
  {
    var e := w.open[fh].target.entry;
    Handle(e.append, w.files[e.path], Buffers.Entry(w.bufs, fh), fh in w.errors,
           ActorOn(w.fuse, fh), ActorOn(w.bg, fh), w.ledgers[fh], fh !in w.intruded)
  }

  /** The Write RPC in progress is for the file `h` is open on. */
  predicate Reaches(w: World, who: Who, h: Fh) {
    && w.Phase(who).Flushing? && w.Phase(who).rpc.Some? && h in w.open
    && w.Phase(who).rpc.value.path == w.open[h].target.entry.path && w.open[h].target.entry.path in w.files
  }

  /** Another handle's run landing in the file of `h`. */
  function Intrusion(w: World, who: Who, r: Run, h: Fh): Option<Event> {
    if r.data != [] && Reaches(w, who, h) then
      var e := w.Phase(who).rpc.value;
      Some(Intrude(Store(e.append, w.files[e.path], r)))
    else None
  }

  /** What step `s` of the whole client is to handle `h`, if anything. */
  ghost function EventFor(w: World, s: Step, h: Fh): Option<Event>
    requires Allowed(w, s)
  {
    match s
    case Write(fh, c) =>
      if h != fh then None
      else if TableBytes(w.bufs) + |c.run.data| > w.hardCap then Some(Refuse)
      else Some(Accept(c))
    case BeginFlush(who) => if h == w.Phase(who).fh then Some(Begin(who)) else None
    case DeliverRun(who) =>
      if h == w.Phase(who).fh then Some(Deliver(who)) else Intrusion(w, who, NextRun(w.Phase(who).flight), h)
    case FailRun(who, k) =>
      if h == w.Phase(who).fh then Some(Fail(who, k)) else Intrusion(w, who, Cut(NextRun(w.Phase(who).flight), k), h)
    case AckFlush(who) => if h == w.Phase(who).fh then Some(Finish(who)) else None
    case DropUnreplayable => if h == w.fuse.fh && h in w.bufs then Some(ReopenDrop) else None
    case DropAged(fh) => if h == fh then Some(AgeDrop) else None
    case SetSticky => if h == w.bg.fh then Some(Mark) else None
    case SawEmpty(fh) => if h == fh then Some(Drained) else None
    case GaveUp(fh, errno) => if h == fh then Some(DrainFailed(errno)) else None
    case Answer => if h == w.fuse.fh then Some(Reply) else None
    case _ => None
  }

  ghost predicate Follows(h: Handle, e: Option<Event>, h': Handle) {
    match e
    case None => h' == h
    case Some(e) => Enabled(h, e) && h' == Next(h, e)
  }

  lemma ViewWrite(w: World, fh: Fh, c: Chunk, h: Fh)
    requires WorldOk(w) && Allowed(w, Write(fh, c)) && Seen(w, h)
    ensures Seen(WriteStep(w, fh, c), h)
    ensures Follows(View(w, h), EventFor(w, Write(fh, c), h), View(WriteStep(w, fh, c), h))
  {
    hide SessionsOk, TargetOk, Distinct, OpenOk, TableBytes;
    var v, v' := View(w, h), View(WriteStep(w, fh, c), h);
    if h == fh {
      if TableBytes(w.bufs) + |c.run.data| > w.hardCap {
        assert Enabled(v, Refuse) && v' == Next(v, Refuse);
      } else {
        assert Enabled(v, Accept(c)) && v' == Next(v, Accept(c));
      }
    }
  }

  lemma ViewBegin(w: World, who: Who, h: Fh)
    requires WorldOk(w) && Allowed(w, BeginFlush(who)) && Seen(w, h)
    ensures Seen(Mount.BeginStep(w, who), h)
    ensures Follows(View(w, h), EventFor(w, BeginFlush(who), h), View(Mount.BeginStep(w, who), h))
  {
    hide SessionsOk, TargetOk, Distinct, OpenOk, LedgerBegin, FlightOf;
    var v, v' := View(w, h), View(Mount.BeginStep(w, who), h);
    if h == w.Phase(who).fh {
      assert Enabled(v, Begin(who)) && v' == Next(v, Begin(who));
    }
  }

  /** A Write changes the file of its own handle; another open handle's only if its own has been
      released. */
  lemma {:induction false} LandingTouchesOwnFile(w: World, who: Who, r: Run, h: Fh)
    requires WorldOk(w) && Seen(w, h) && w.Phase(who).Flushing?
    ensures var p, e := w.Phase(who), w.open[h].target.entry;
            var w' := ServerWrite(w, p.fh, p.rpc, r);
            && w'.files.Keys == w.files.Keys
            && (h == p.fh ==>
                  && (h in w'.intruded <==> h in w.intruded)
                  && w'.files[e.path] == if p.rpc.Some? then Store(e.append, w.files[e.path], r) else w.files[e.path])
            && (h != p.fh && p.fh in w.open ==> !Reaches(w, who, h))
            && (h != p.fh && Intrusion(w, who, r, h).None? ==>
                  (h in w'.intruded <==> h in w.intruded) && w'.files[e.path] == w.files[e.path])
            && (h != p.fh && Intrusion(w, who, r, h).Some? ==>
                  h in w'.intruded && w'.files[e.path] == Intrusion(w, who, r, h).value.file)
  {
    OwnPhase(w, who);
    hide TargetOk, SessionsOk, OpenOk, HandlesOk;
    if r.data == [] {
      StoreNothing(w.open[h].target.entry.append, w.files[w.open[h].target.entry.path], r);
    }
    assert Distinct(w) by {
      PathsDiffer(w);
    }
    hide Store;
  }

  lemma PathsDiffer(w: World)
    requires WorldOk(w)
    ensures Distinct(w)
  {
    hide SessionsOk, OpenOk, PhaseOk, Distinct;
  }

  lemma ViewOwnLanding(w: World, who: Who, r: Run, h: Fh)
    requires WorldOk(w) && Seen(w, h) && w.Phase(who).Flushing? && w.Phase(who).fh == h
    requires w.Phase(who).rpc.Some? || r.data == []
    ensures Seen(LandStep(w, who, r), h)
    ensures View(LandStep(w, who, r), h) == Land(View(w, h), w.Phase(who).flight, r)
  {
    LandingTouchesOwnFile(w, who, r, h);
    if r.data == [] {
      StoreNothing(View(w, h).append, View(w, h).file, r);
    }
    hide WorldOk, Store, LedgerLand, Others, Intrusion, Reaches;
  }

  lemma LandedView(w: World, who: Who, r: Run, h: Fh)
    requires Seen(w, h) && w.Phase(who).Flushing? && w.Phase(who).fh in w.ledgers && w.Phase(who).fh != h
    requires ServerWrite(w, w.Phase(who).fh, w.Phase(who).rpc, r).files.Keys == w.files.Keys
    ensures var w' := ServerWrite(w, w.Phase(who).fh, w.Phase(who).rpc, r);
            && Seen(LandStep(w, who, r), h)
            && View(LandStep(w, who, r), h)
            == View(w, h).(file := w'.files[w.open[h].target.entry.path], alone := h !in w'.intruded)
  {
    hide Store, LedgerLand, Others;
  }

  lemma ViewOtherLanding(w: World, who: Who, r: Run, h: Fh)
    requires WorldOk(w) && Seen(w, h) && w.Phase(who).Flushing? && w.Phase(who).fh in w.ledgers
    requires w.Phase(who).fh != h
    ensures Seen(LandStep(w, who, r), h)
    ensures Follows(View(w, h), Intrusion(w, who, r, h), View(LandStep(w, who, r), h))
  {
    hide WorldOk, LandStep, ServerWrite, Store;
    LandingTouchesOwnFile(w, who, r, h);
    LandedView(w, who, r, h);
  }

  lemma StoreNothing(append: bool, f: Content, r: Run)
    requires r.data == []
    ensures Store(append, f, r) == f
  {
  }

  lemma DeliverIs(w: World, who: Who)
    requires Allowed(w, DeliverRun(who))
    ensures var p := w.Phase(who);
            && InFlight(p) && p.fh in w.ledgers && p.rpc.Some?
            && Mount.DeliverStep(w, who)
            == LandStep(w, who, NextRun(p.flight))
               .Becomes(who, Flushing(p.fh, p.target, p.flight.(sent := p.flight.sent + 1), None))
  {
    hide LandStep;
  }

  lemma CanDeliver(w: World, who: Who, h: Fh)
    requires Allowed(w, DeliverRun(who)) && Seen(w, h) && h == w.Phase(who).fh
    ensures View(w, h).Actor(who) == Sending(w.Phase(who).flight) && Enabled(View(w, h), Deliver(who))
  {
  }

  lemma ViewOwnDeliver(w: World, who: Who, h: Fh)
    requires WorldOk(w) && Allowed(w, DeliverRun(who)) && Seen(w, h) && h == w.Phase(who).fh
    ensures Seen(Mount.DeliverStep(w, who), h) && Enabled(View(w, h), Deliver(who))
    ensures View(Mount.DeliverStep(w, who), h) == HandleProtocol.DeliverStep(View(w, h), who)
  {
    hide WorldOk, Allowed, LandStep, Land, Mount.DeliverStep, View, Seen, Enabled;
    DeliverIs(w, who);
    CanDeliver(w, who, h);
    var p, r := w.Phase(who), NextRun(w.Phase(who).flight);
    ViewOwnLanding(w, who, r, h);
    ViewOwnPhase(LandStep(w, who, r), who, Flushing(p.fh, p.target, p.flight.(sent := p.flight.sent + 1), None), h);
  }

  lemma ViewOwnPhase(w: World, who: Who, p: Phase, h: Fh)
    requires Seen(w, h)
    ensures Seen(w.Becomes(who, p), h) && View(w.Becomes(who, p), h) == View(w, h).Becomes(who, ActorOn(p, h))
  {
  }

  /** What an actor does for one handle is not seen by another. */
  lemma ViewOtherPhase(w: World, who: Who, p: Phase, h: Fh)
    requires Seen(w, h) && ActorOn(w.Phase(who), h).Resting? && ActorOn(p, h).Resting?
    ensures Seen(w.Becomes(who, p), h) && View(w.Becomes(who, p), h) == View(w, h)
  {
  }

  lemma ViewOtherDeliver(w: World, who: Who, r: Run, w': World, h: Fh)
    requires Allowed(w, DeliverRun(who)) && Seen(w, h) && h != w.Phase(who).fh
    requires w' == Mount.DeliverStep(w, who) && r == NextRun(w.Phase(who).flight)
    requires WorldOk(w)
    ensures Seen(w', h) && Follows(View(w, h), Intrusion(w, who, r, h), View(w', h))
  {
    hide WorldOk, Allowed, LandStep, Mount.DeliverStep, View, Seen, Intrusion, Follows;
    DeliverIs(w, who);
    var p := w.Phase(who);
    LandingFrame(w, who, r);
    ViewOtherLanding(w, who, r, h);
    ViewOtherPhase(LandStep(w, who, r), who, Flushing(p.fh, p.target, p.flight.(sent := p.flight.sent + 1), None), h);
  }

  lemma ViewDeliver(w: World, who: Who, h: Fh)
    requires WorldOk(w) && Allowed(w, DeliverRun(who)) && Seen(w, h)
    ensures Seen(Mount.DeliverStep(w, who), h)
    ensures Follows(View(w, h), EventFor(w, DeliverRun(who), h), View(Mount.DeliverStep(w, who), h))
  {
    hide WorldOk, Intrusion, Mount.DeliverStep, HandleProtocol.DeliverStep, View, Seen;
    if h == w.Phase(who).fh {
      ViewOwnDeliver(w, who, h);
    } else {
      ViewOtherDeliver(w, who, NextRun(w.Phase(who).flight), Mount.DeliverStep(w, who), h);
    }
  }

  lemma ViewAfterFailure(w: World, who: Who, fh: Fh, h: Fh)
    requires Seen(w, h) && fh in w.ledgers && w.Phase(who).Flushing? && w.Phase(who).fh == fh
    requires PhaseOk(w, who, w.Phase(who))
    ensures var w' := Mount.AfterFailure(w, who, fh);
            Seen(w', h) && View(w', h) == if h == fh then HandleProtocol.AfterFailure(View(w, h), who) else View(w, h)
  {
    hide TargetOk, LedgerDrop, LostBy;
  }

  lemma FailIs(w: World, who: Who, k: nat)
    requires Allowed(w, FailRun(who, k))
    ensures var p := w.Phase(who);
            && InFlight(p) && p.fh in w.ledgers && k <= |NextRun(p.flight).data|
            && (p.rpc.Some? || Cut(NextRun(p.flight), k).data == [])
            && p.fh in LandStep(w, who, Cut(NextRun(p.flight), k)).ledgers
            && Mount.FailStep(w, who, k)
            == Mount.AfterFailure(LandStep(w, who, Cut(NextRun(p.flight), k)), who, p.fh)
  {
    hide Mount.AfterFailure;
  }

  lemma CanFail(w: World, who: Who, k: nat, h: Fh)
    requires Allowed(w, FailRun(who, k)) && Seen(w, h) && h == w.Phase(who).fh
    ensures View(w, h).Actor(who) == Sending(w.Phase(who).flight) && Enabled(View(w, h), Fail(who, k))
  {
  }

  lemma LandedPhase(w: World, who: Who, r: Run)
    requires WorldOk(w) && w.Phase(who).Flushing? && w.Phase(who).fh in w.ledgers
    ensures var w' := LandStep(w, who, r); w'.Phase(who) == w.Phase(who) && PhaseOk(w', who, w'.Phase(who))
  {
    hide WorldOk, PhaseOk, LandStep;
    LandingFrame(w, who, r);
    LandingKeeps(w, who, r);
    OwnPhase(LandStep(w, who, r), who);
  }

  lemma ViewOwnFail(w: World, who: Who, k: nat, h: Fh)
    requires WorldOk(w) && Allowed(w, FailRun(who, k)) && Seen(w, h) && h == w.Phase(who).fh
    ensures Seen(Mount.FailStep(w, who, k), h) && Enabled(View(w, h), Fail(who, k))
    ensures View(Mount.FailStep(w, who, k), h) == HandleProtocol.FailStep(View(w, h), who, k)
  {
    hide WorldOk, Allowed, PhaseOk, LandStep, Land, Mount.AfterFailure, HandleProtocol.AfterFailure, Mount.FailStep,
      View, Seen, Enabled;
    FailIs(w, who, k);
    CanFail(w, who, k, h);
    var part := Cut(NextRun(w.Phase(who).flight), k);
    ViewOwnLanding(w, who, part, h);
    LandedPhase(w, who, part);
    ViewAfterFailure(LandStep(w, who, part), who, h, h);
  }

  lemma ViewOtherFail(w: World, who: Who, k: nat, part: Run, w': World, h: Fh)
    requires Allowed(w, FailRun(who, k)) && Seen(w, h) && h != w.Phase(who).fh
    requires w' == Mount.FailStep(w, who, k) && part == Cut(NextRun(w.Phase(who).flight), k)
    requires WorldOk(w)
    ensures Seen(w', h) && Follows(View(w, h), Intrusion(w, who, part, h), View(w', h))
  {
    hide WorldOk, Allowed, PhaseOk, LandStep, Mount.AfterFailure, HandleProtocol.AfterFailure, Mount.FailStep, View,
      Seen, Intrusion, Follows;
    FailIs(w, who, k);
    ViewOtherLanding(w, who, part, h);
    LandedPhase(w, who, part);
    ViewAfterFailure(LandStep(w, who, part), who, w.Phase(who).fh, h);
  }

  lemma ViewFail(w: World, who: Who, k: nat, h: Fh)
    requires WorldOk(w) && Allowed(w, FailRun(who, k)) && Seen(w, h)
    ensures Seen(Mount.FailStep(w, who, k), h)
    ensures Follows(View(w, h), EventFor(w, FailRun(who, k), h), View(Mount.FailStep(w, who, k), h))
  {
    hide WorldOk, Intrusion, Mount.FailStep, HandleProtocol.FailStep, View, Seen;
    if h == w.Phase(who).fh {
      ViewOwnFail(w, who, k, h);
    } else {
      ViewOtherFail(w, who, k, Cut(NextRun(w.Phase(who).flight), k), Mount.FailStep(w, who, k), h);
    }
  }

  lemma ViewAck(w: World, who: Who, h: Fh)
    requires WorldOk(w) && Allowed(w, AckFlush(who)) && Seen(w, h)
    ensures Seen(AckStep(w, who), h)
    ensures Follows(View(w, h), EventFor(w, AckFlush(who), h), View(AckStep(w, who), h))
  {
    hide SessionsOk, TargetOk, Distinct, OpenOk, LedgerAck;
    var v, v' := View(w, h), View(AckStep(w, who), h);
    if h == w.Phase(who).fh {
      assert Enabled(v, Finish(who)) && v' == Next(v, Finish(who));
    }
  }

  lemma ViewDropUnreplayable(w: World, h: Fh)
    requires WorldOk(w) && Allowed(w, DropUnreplayable) && Seen(w, h)
    ensures Seen(DropUnreplayableStep(w), h)
    ensures Follows(View(w, h), EventFor(w, DropUnreplayable, h), View(DropUnreplayableStep(w), h))
  {
    hide SessionsOk, TargetOk, Distinct, OpenOk, Repeat, LastWithData;
    var v, v' := View(w, h), View(DropUnreplayableStep(w), h);
    if h == w.fuse.fh && h in w.bufs {
      assert Enabled(v, ReopenDrop) && v' == Next(v, ReopenDrop);
    }
  }

  lemma ViewDropAged(w: World, fh: Fh, h: Fh)
    requires WorldOk(w) && Allowed(w, DropAged(fh)) && Seen(w, h)
    ensures Seen(DropAgedStep(w, fh), h)
    ensures Follows(View(w, h), EventFor(w, DropAged(fh), h), View(DropAgedStep(w, fh), h))
  {
    hide SessionsOk, TargetOk, Distinct, OpenOk, LedgerDrop, LostBy;
    var v, v' := View(w, h), View(DropAgedStep(w, fh), h);
    if h == fh {
      assert Enabled(v, AgeDrop) && v' == Next(v, AgeDrop);
    }
  }

  lemma ViewSetSticky(w: World, h: Fh)
    requires Allowed(w, SetSticky) && Seen(w, h)
    ensures Seen(After(w, SetSticky), h) && Follows(View(w, h), EventFor(w, SetSticky, h), View(After(w, SetSticky), h))
  {
    if h == w.bg.fh {
      var v, v' := View(w, h), View(After(w, SetSticky), h);
      assert Enabled(v, Mark) && v' == Next(v, Mark);
    }
  }

  lemma ViewDrain(w: World, s: Step, h: Fh)
    requires Allowed(w, s) && Seen(w, h) && (s.SawEmpty? || s.GaveUp?)
    ensures Seen(After(w, s), h) && Follows(View(w, h), EventFor(w, s, h), View(After(w, s), h))
  {
    if h == s.fh {
      var v, v' := View(w, h), View(After(w, s), h);
      var e := if s.SawEmpty? then Drained else DrainFailed(s.errno);
      assert Enabled(v, e) && v' == Next(v, e);
    }
  }

  lemma ViewAnswer(w: World, h: Fh)
    requires Allowed(w, Answer) && Seen(w, h)
    ensures Seen(AnswerStep(w), h) && Follows(View(w, h), EventFor(w, Answer, h), View(AnswerStep(w), h))
  {
    if h == w.fuse.fh {
      var v, v' := View(w, h), View(AnswerStep(w), h);
      assert Enabled(v, Reply) && v' == Next(v, Reply);
    }
  }

  // ----- steps no open handle notices -----

  lemma ViewOpen(w: World, path: Path, append: bool, h: Fh)
    requires Allowed(w, Open(path, append)) && Seen(w, h) && h < w.nextFh
    ensures Seen(After(w, Open(path, append)), h) && View(After(w, Open(path, append)), h) == View(w, h)
  {
  }

  lemma ViewReopen(w: World, h: Fh)
    requires Allowed(w, ReopenReply) && Seen(w, h)
    ensures Seen(After(w, ReopenReply), h) && View(After(w, ReopenReply), h) == View(w, h)
  {
  }

  lemma ViewStamp(w: World, h: Fh)
    requires Allowed(w, Stamp) && Seen(w, h) && PhaseOk(w, Fuse, w.fuse)
    ensures Seen(After(w, Stamp), h) && View(After(w, Stamp), h) == View(w, h)
  {
    hide TargetOk;
  }

  lemma ViewRelease(w: World, fh: Fh, heard: bool, h: Fh)
    requires Allowed(w, Release(fh, heard)) && Seen(w, h) && h != fh
    ensures Seen(After(w, Release(fh, heard)), h) && View(After(w, Release(fh, heard)), h) == View(w, h)
  {
  }

  lemma OpenIsOpen(w: World, h: Fh)
    requires Seen(w, h)
    ensures h in w.open && h in w.ledgers
  {
  }

  lemma ReleaseRemoves(w: World, fh: Fh, heard: bool)
    requires Allowed(w, Release(fh, heard))
    ensures fh !in After(w, Release(fh, heard)).open
  {
  }

  /** Moving between phases that hold nothing of a handle. */
  lemma ViewPhase(w: World, who: Who, p: Phase, h: Fh)
    requires Seen(w, h) && ActorOn(p, h) == ActorOn(w.Phase(who), h)
    ensures Seen(w.Becomes(who, p), h) && View(w.Becomes(who, p), h) == View(w, h)
  {
  }

  lemma ViewStart(w: World, who: Who, via: nat, h: Fh)
    requires Allowed(w, StartRpc(who, via)) && Seen(w, h)
    ensures Seen(After(w, StartRpc(who, via)), h) && View(After(w, StartRpc(who, via)), h) == View(w, h)
  {
    hide View, Seen;
    var p := w.Phase(who);
    ViewPhase(w, who, Flushing(p.fh, p.target, p.flight, Some(w.sessions[via].table[p.target.handle])), h);
  }

  lemma ViewResolve(w: World, who: Who, fh: Fh, h: Fh)
    requires Allowed(w, Resolve(who, fh)) && Seen(w, h)
    ensures Seen(After(w, Resolve(who, fh)), h) && View(After(w, Resolve(who, fh)), h) == View(w, h)
  {
    hide View, Seen;
    ViewPhase(w, who, if w.open[fh].openedGen == w.Gen() then Ready(fh, w.open[fh].target)
                      else Resolving(fh, |w.sessions| - 1), h);
  }

  lemma ViewIdle(w: World, s: Step, h: Fh)
    requires Allowed(w, s) && Seen(w, h) && (s.ReopenError? || s.Abandon?)
    ensures Seen(After(w, s), h) && View(After(w, s), h) == View(w, h)
  {
    hide View, Seen;
    ViewPhase(w, if s.ReopenError? then Fuse else s.who, Idle, h);
  }

  predicate Elsewhere(s: Step) {
    || s.Open? || s.Reconnect? || s.Resolve? || s.ReopenReply? || s.ReopenError? || s.Stamp? || s.Abandon?
    || s.StartRpc? || s.Release?
  }

  /** Opening, reopening, reconnecting, looking up and releasing are invisible to other handles. */
  lemma ViewElsewhere(w: World, s: Step, h: Fh)
    requires WorldOk(w) && Allowed(w, s) && Seen(w, h) && h in After(w, s).open && Elsewhere(s)
    ensures Seen(After(w, s), h) && View(After(w, s), h) == View(w, h)
  {
    hide WorldOk, PhaseOk, View, Seen, After, Allowed;
    OpenIsOpen(w, h);
    OpenIsOk(w, h);
    match s {
      case Open(path, append) => ViewOpen(w, path, append, h);
      case Reconnect(epoch) => ViewReconnect(w, epoch, h);
      case Resolve(who, fh) => ViewResolve(w, who, fh, h);
      case ReopenReply => ViewReopen(w, h);
      case ReopenError => ViewIdle(w, s, h);
      case Stamp =>
        OwnPhase(w, Fuse);
        ViewStamp(w, h);
      case Abandon(_) => ViewIdle(w, s, h);
      case StartRpc(who, via) => ViewStart(w, who, via, h);
      case Release(fh, heard) =>
        ReleaseRemoves(w, fh, heard);
        ViewRelease(w, fh, heard, h);
    }
  }

  lemma ViewReconnect(w: World, epoch: nat, h: Fh)
    requires Allowed(w, Reconnect(epoch)) && Seen(w, h)
    ensures Seen(After(w, Reconnect(epoch)), h) && View(After(w, Reconnect(epoch)), h) == View(w, h)
  {
  }

  lemma FlushProjects(w: World, s: Step, h: Fh)
    requires WorldOk(w) && Allowed(w, s) && Seen(w, h)
    requires s.Write? || s.BeginFlush? || s.DeliverRun? || s.FailRun? || s.AckFlush?
    ensures Seen(After(w, s), h) && Follows(View(w, h), EventFor(w, s, h), View(After(w, s), h))
  {
    hide WorldOk, Follows, View, Seen, WriteStep, Mount.BeginStep, Mount.DeliverStep, Mount.FailStep, AckStep;
    match s {
      case Write(fh, c) => ViewWrite(w, fh, c, h);
      case BeginFlush(who) => ViewBegin(w, who, h);
      case DeliverRun(who) => ViewDeliver(w, who, h);
      case FailRun(who, k) => ViewFail(w, who, k, h);
      case AckFlush(who) => ViewAck(w, who, h);
    }
  }

  lemma DropProjects(w: World, s: Step, h: Fh)
    requires WorldOk(w) && Allowed(w, s) && Seen(w, h)
    requires s.DropUnreplayable? || s.DropAged? || s.SetSticky? || s.SawEmpty? || s.GaveUp? || s.Answer?
    ensures Seen(After(w, s), h) && Follows(View(w, h), EventFor(w, s, h), View(After(w, s), h))
  {
    hide WorldOk, Follows, View, Seen, DropUnreplayableStep, DropAgedStep, AnswerStep;
    match s {
      case DropUnreplayable => ViewDropUnreplayable(w, h);
      case DropAged(fh) => ViewDropAged(w, fh, h);
      case SetSticky => ViewSetSticky(w, h);
      case SawEmpty(_) => ViewDrain(w, s, h);
      case GaveUp(_, _) => ViewDrain(w, s, h);
      case Answer => ViewAnswer(w, h);
    }
  }

  /** The projection: a step of the whole client is, for every handle open before and after it, a
      step of that handle's protocol or nothing. */
  lemma {:induction false} StepProjects(w: World, s: Step, h: Fh)
    requires WorldOk(w) && Allowed(w, s) && Seen(w, h) && h in After(w, s).open
    ensures Seen(After(w, s), h)
    ensures Follows(View(w, h), EventFor(w, s, h), View(After(w, s), h))
  {
    if s.Write? || s.BeginFlush? || s.DeliverRun? || s.FailRun? || s.AckFlush? {
      FlushProjects(w, s, h);
    } else if s.DropUnreplayable? || s.DropAged? || s.SetSticky? || s.SawEmpty? || s.GaveUp? || s.Answer? {
      DropProjects(w, s, h);
    } else {
      ViewElsewhere(w, s, h);
    }
  }

  // ----- every run -----

  ghost predicate Good(w: World) {
    WorldOk(w) && forall h :: h in w.open ==> GoodHandle(w, h)
  }

  ghost predicate GoodHandle(w: World, h: Fh) {
    Seen(w, h) && Inv(View(w, h)) && Drains(View(w, h)) && ApartWhileQuiet(View(w, h))
  }

  /** Just mounted: one connection, nothing open. */
  ghost predicate Start(w: World) {
    && |w.sessions| == 1 && w.sessions[0].Ok()
    && w.open == map[] && w.bufs == map[] && w.errors == {} && w.ledgers == map[] && w.intruded == {}
    && w.fuse.Idle? && w.bg.Idle?
  }

  ghost predicate IsMountRun(ws: seq<World>, ss: seq<Step>) {
    && |ws| == |ss| + 1 && Start(ws[0])
    && forall k :: 0 <= k < |ss| ==> Allowed(ws[k], ss[k]) && ws[k + 1] == After(ws[k], ss[k])
  }

  lemma NewHandleIsFresh(w: World, path: Path, append: bool)
    requires WorldOk(w) && Allowed(w, Open(path, append))
    ensures var w' := OpenStep(w, path, append);
            Seen(w', w.nextFh) && View(w', w.nextFh) == Fresh(append, w.files[path])
  {
    assert w.nextFh !in w.open;
  }

  lemma FollowingKeeps(h: Handle, e: Option<Event>, h': Handle)
    requires Inv(h) && Drains(h) && ApartWhileQuiet(h) && Follows(h, e, h')
    ensures Inv(h') && Drains(h') && ApartWhileQuiet(h')
  {
    hide Inv, Drains, ApartWhileQuiet, Conserved, InBounds, Next, Enabled;
    if e.Some? {
      InvIsConserved(h);
      DrainsStep(h, e.value);
      ApartStep(h, e.value);
      InvStep(h, e.value);
    }
  }

  lemma GoodHandleStep(w: World, s: Step, h: Fh)
    requires WorldOk(w) && Allowed(w, s) && GoodHandle(w, h) && h in After(w, s).open
    ensures GoodHandle(After(w, s), h)
  {
    hide Inv, Drains, ApartWhileQuiet, WorldOk, View, After, Follows, Allowed, EventFor;
    StepProjects(w, s, h);
    FollowingKeeps(View(w, h), EventFor(w, s, h), View(After(w, s), h));
  }

  lemma ReleaseAddsNone(w: World, fh: Fh, heard: bool, h: Fh)
    requires Allowed(w, Release(fh, heard)) && h !in w.open
    ensures h !in After(w, Release(fh, heard)).open
  {
  }

  lemma OpenAddsOne(w: World, path: Path, append: bool, h: Fh)
    requires Allowed(w, Open(path, append)) && h !in w.open && h != w.nextFh
    ensures h !in After(w, Open(path, append)).open
  {
  }

  lemma StampOpens(w: World, h: Fh)
    requires Allowed(w, Stamp) && PhaseOk(w, Fuse, w.fuse) && h !in w.open
    ensures h !in After(w, Stamp).open
  {
    hide TargetOk;
  }

  lemma OnlyOpenAdds(w: World, s: Step, h: Fh)
    requires Allowed(w, s) && WorldOk(w) && h in After(w, s).open && h !in w.open
    ensures s.Open? && h == w.nextFh
  {
    hide WorldOk, PhaseOk, Allowed, After;
    match s {
      case Open(path, append) =>
        if h != w.nextFh {
          OpenAddsOne(w, path, append, h);
        }
      case Stamp =>
        OwnPhase(w, Fuse);
        StampOpens(w, h);
      case Release(fh, heard) => ReleaseAddsNone(w, fh, heard, h);
      case _ => HandlesSame(w, s);
    }
  }

  lemma NewHandleIsGood(w: World, s: Step, h: Fh)
    requires WorldOk(w) && Allowed(w, s) && h in After(w, s).open && h !in w.open
    ensures GoodHandle(After(w, s), h)
  {
    hide WorldOk, Inv, View, Seen, OpenStep;
    OnlyOpenAdds(w, s, h);
    NewHandleIsFresh(w, s.path, s.append);
    InvFresh(s.append, w.files[s.path]);
  }

  lemma GoodStep(w: World, s: Step)
    requires Good(w) && Allowed(w, s)
    ensures Good(After(w, s))
  {
    hide WorldOk, GoodHandle, Allowed, After;
    WorldOkStep(w, s);
    forall h | h in After(w, s).open
      ensures GoodHandle(After(w, s), h)
    {
      if h in w.open {
        GoodHandleStep(w, s, h);
      } else {
        NewHandleIsGood(w, s, h);
      }
    }
  }

  lemma {:induction false} RunIsGood(ws: seq<World>, ss: seq<Step>, k: nat)
    requires IsMountRun(ws, ss) && k < |ws|
    ensures Good(ws[k])
  {
    if k > 0 {
      RunIsGood(ws, ss, k - 1);
      GoodStep(ws[k - 1], ss[k - 1]);
    }
  }
}
